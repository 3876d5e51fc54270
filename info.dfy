/**
 * Converting the chain of `rrd_info_t` records returned by the native
 * `rrd_info` into a dictionary (`_convert_info`): each record carries a key,
 * a type tag and the union member that tag selects; the walk stops at the
 * end of the chain and a later record overwrites an earlier one with the
 * same key.
 */
module InfoChain {
  import opened Wrappers
  import opened Doubles

  /** The `rrd_info_type` tag together with the `rrd_infoval` member it selects. */
  datatype RawValue =
    | RawVal(uVal: Double)                 // RD_I_VAL
    | RawCnt(uCnt: nat)                    // RD_I_CNT
    | RawStr(uStr: string)                 // RD_I_STR
    | RawInt(uInt: int)                    // RD_I_INT
    | RawBlo(size: nat, ptr: seq<bv8>)     // RD_I_BLO: `size` bytes readable from `ptr`

  /** One `rrd_info_t` record; the `next` pointer is the record's position in the chain. */
  datatype Record = Record(key: string, value: RawValue)

  /** The converted value stored in the dictionary. */
  datatype InfoVal =
    | Val(sample: Option<real>)
    | Cnt(count: nat)
    | Str(text: string)
    | Int(number: int)
    | Blob(bytes: seq<bv8>)

  /** What the native side guarantees: every blob pointer has `size` bytes behind it. */
  predicate ValidRaw(v: RawValue)
  {
    v.RawBlo? ==> v.size <= |v.ptr|
  }

  predicate ValidChain(chain: seq<Record>)
  {
    forall i :: 0 <= i < |chain| ==> ValidRaw(chain[i].value)
  }

  /** The conversion of one record's value, chosen by its tag. */
  function ConvertValue(v: RawValue): (r: InfoVal)
    requires ValidRaw(v)
    ensures v.RawVal? <==> r.Val?
    ensures v.RawCnt? <==> r.Cnt?
    ensures v.RawStr? <==> r.Str?
    ensures v.RawInt? <==> r.Int?
    ensures v.RawBlo? <==> r.Blob?
    ensures v.RawVal? ==> r == Val(ToOptional(v.uVal))
    ensures v.RawCnt? ==> r == Cnt(v.uCnt)
    ensures v.RawStr? ==> r == Str(v.uStr)
    ensures v.RawInt? ==> r == Int(v.uInt)
    ensures r.Blob? ==> |r.bytes| == v.size && r.bytes == v.ptr[..v.size]
  {
    match v
    case RawVal(d) => Val(ToOptional(d))
    case RawCnt(n) => Cnt(n)
    case RawStr(s) => Str(s)
    case RawInt(n) => Int(n)
    case RawBlo(size, ptr) => Blob(ptr[..size])
  }

  /** Reference result: the dictionary after assigning the records one after another. */
  function InfoMap(chain: seq<Record>): map<string, InfoVal>
    requires ValidChain(chain)
    decreases |chain|
  {
    if chain == [] then map[]
    else
      var last := chain[|chain| - 1];
      InfoMap(chain[..|chain| - 1])[last.key := ConvertValue(last.value)]
  }

  /** The keys of the dictionary are exactly the keys of the records. */
  lemma {:induction false} InfoMapKeys(chain: seq<Record>)
    requires ValidChain(chain)
    ensures forall key :: key in InfoMap(chain) <==> exists i :: 0 <= i < |chain| && chain[i].key == key
  {
    if chain != [] {
      var n := |chain| - 1;
      InfoMapKeys(chain[..n]);
      forall key
        ensures key in InfoMap(chain) <==> exists i :: 0 <= i < |chain| && chain[i].key == key
      {
        if key in InfoMap(chain[..n]) {
          var i :| 0 <= i < n && chain[..n][i].key == key;
          assert chain[i].key == key;
        }
        if exists i :: 0 <= i < |chain| && chain[i].key == key {
          var i :| 0 <= i < |chain| && chain[i].key == key;
          if i < n {
            assert chain[..n][i].key == key;
          }
        }
      }
    }
  }

  /** A key's value comes from the last record that carries that key. */
  lemma {:induction false} InfoMapLastWins(chain: seq<Record>, i: nat)
    requires ValidChain(chain)
    requires i < |chain|
    requires forall j :: i < j < |chain| ==> chain[j].key != chain[i].key
    ensures chain[i].key in InfoMap(chain)
    ensures InfoMap(chain)[chain[i].key] == ConvertValue(chain[i].value)
  {
    var n := |chain| - 1;
    if i < n {
      assert forall j :: i < j < n ==> chain[..n][j].key == chain[j].key;
      InfoMapLastWins(chain[..n], i);
    }
  }

  /** `_convert_info`: walk the chain record by record, assigning each converted value under its key. */
  method ConvertInfo(chain: seq<Record>) returns (ret: map<string, InfoVal>)
    requires ValidChain(chain)
    ensures ret == InfoMap(chain)
    ensures forall key :: key in ret <==> exists i :: 0 <= i < |chain| && chain[i].key == key
  {
    ret := map[];
    var k := 0;
    while k < |chain|
      invariant 0 <= k <= |chain|
      invariant ret == InfoMap(chain[..k])
    {
      var record := chain[k];
      var val;
      match record.value {
        case RawVal(d) =>
          val := Val(if d.NaN? then None else Some(d.value));
        case RawCnt(n) =>
          val := Cnt(n);
        case RawStr(s) =>
          val := Str(s);
        case RawInt(n) =>
          val := Int(n);
        case RawBlo(size, ptr) =>
          val := Blob(ptr[..size]);
      }
      assert val == ConvertValue(record.value);
      ret := ret[record.key := val];
      assert chain[..k + 1][..k] == chain[..k];
      k := k + 1;
    }
    assert chain[..k] == chain;
    InfoMapKeys(chain);
  }
}
