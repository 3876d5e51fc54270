/**
 * Reshaping what the native `rrd_fetch` hands back into the binding's
 * result: the `(start, stop, step)` triple, the data-source names in native
 * order, and `(stop - start) // step` rows of `ds_count` optional samples
 * cut out of one flat, row-major buffer of doubles.
 */
module FetchReply {
  import opened Wrappers
  import opened Doubles

  /** The out-parameters `rrd_fetch` fills in, together with its return code. */
  datatype NativeFetch = NativeFetch(
    status: int,
    start: int,
    stop: int,
    step: nat,
    dsCount: nat,
    dsNames: seq<string>,
    values: seq<Double>)

  /** What the `fetch` wrapper returns. */
  datatype FetchResult = FetchResult(
    range: (int, int, nat),
    names: seq<string>,
    rows: seq<seq<Option<real>>>)

  /** Python's `(stop - start) // step`, used as an iteration count (a negative count iterates zero times). */
  function RowCount(start: int, stop: int, step: nat): (n: nat)
    requires step > 0
    ensures start <= stop ==> n * step <= stop - start < (n + 1) * step
    ensures stop < start ==> n == 0
  {
    if stop < start then 0 else (stop - start) / step
  }

  /** What the native side guarantees about a successful reply. */
  predicate WellFormed(reply: NativeFetch)
  {
    && reply.step > 0
    && reply.dsCount <= |reply.dsNames|
    && RowCount(reply.start, reply.stop, reply.step) * reply.dsCount <= |reply.values|
  }

  /** Reference definition of the reshaping: peel one row of `width` samples off the front of the buffer at a time. */
  function Reshaped(values: seq<Double>, rows: nat, width: nat): seq<seq<Option<real>>>
    requires rows * width <= |values|
  {
    if rows == 0 then []
    else
      assert (rows - 1) * width + width == rows * width;
      [ToOptionals(values[..width])] + Reshaped(values[width..], rows - 1, width)
  }

  /** Concatenation of rows, the inverse of the reshaping. */
  function Flatten<T>(rows: seq<seq<T>>): seq<T>
  {
    if rows == [] then [] else rows[0] + Flatten(rows[1..])
  }

  /** Row i of a row-major buffer of rows of `width` samples, NaN turned into `None`. */
  function Row(values: seq<Double>, i: nat, width: nat): seq<Option<real>>
    requires i * width + width <= |values|
  {
    ToOptionals(values[i * width..i * width + width])
  }

  /** Row i of a `rows` by `width` buffer lies inside its first `rows * width` samples. */
  lemma RowInBounds(i: nat, rows: nat, width: nat)
    requires i < rows
    ensures i * width + width <= rows * width
  {
    assert (rows - (i + 1)) * width >= 0;
    assert rows * width == i * width + width + (rows - (i + 1)) * width;
  }

  /** The reshaped result has `rows` rows, and row i is the i-th run of `width` samples. */
  lemma {:induction false} ReshapedRows(values: seq<Double>, rows: nat, width: nat)
    requires rows * width <= |values|
    ensures |Reshaped(values, rows, width)| == rows
    ensures forall i :: 0 <= i < rows ==>
              i * width + width <= |values| && Reshaped(values, rows, width)[i] == Row(values, i, width)
  {
    if rows > 0 {
      assert (rows - 1) * width + width == rows * width;
      ReshapedRows(values[width..], rows - 1, width);
      forall i | 0 <= i < rows
        ensures i * width + width <= |values| && Reshaped(values, rows, width)[i] == Row(values, i, width)
      {
        RowInBounds(i, rows, width);
        if i > 0 {
          RowOfRest(values, rows, width, i);
        }
      }
    }
  }

  /** Row i of the buffer is row i - 1 of the buffer without its first row. */
  lemma RowOfRest(values: seq<Double>, rows: nat, width: nat, i: nat)
    requires 0 < i < rows && rows * width <= |values|
    ensures width <= |values| && (i - 1) * width + width <= |values[width..]|
    ensures i * width + width <= |values|
    ensures Row(values[width..], i - 1, width) == Row(values, i, width)
  {
    RowInBounds(i, rows, width);
    var k := (i - 1) * width;
    assert k + width == i * width;
    assert values[width..][k..k + width] == values[i * width..i * width + width];
  }

  /** Entry j of row i is the flat-buffer sample at index `i * width + j`, with NaN turned into `None`. */
  lemma ReshapedAt(values: seq<Double>, rows: nat, width: nat, i: nat, j: nat)
    requires rows * width <= |values|
    requires i < rows && j < width
    ensures i * width + j < |values|
    ensures |Reshaped(values, rows, width)| == rows
    ensures |Reshaped(values, rows, width)[i]| == width
    ensures Reshaped(values, rows, width)[i][j] == ToOptional(values[i * width + j])
  {
    ReshapedRows(values, rows, width);
    assert values[i * width..i * width + width][j] == values[i * width + j];
  }

  /** Any table with the shape and entries of the reshaping is the reshaping. */
  lemma ReshapedUnique(data: seq<seq<Option<real>>>, values: seq<Double>, rows: nat, width: nat)
    requires rows * width <= |values|
    requires |data| == rows
    requires forall i :: 0 <= i < rows ==> |data[i]| == width
    requires forall i, j :: 0 <= i < rows && 0 <= j < width && i * width + j < |values| ==>
               data[i][j] == ToOptional(values[i * width + j])
    ensures data == Reshaped(values, rows, width)
  {
    ReshapedRows(values, rows, width);
    forall i | 0 <= i < rows
      ensures data[i] == Reshaped(values, rows, width)[i]
    {
      forall j | 0 <= j < width
        ensures data[i][j] == Reshaped(values, rows, width)[i][j]
      {
        ReshapedAt(values, rows, width, i, j);
      }
    }
  }

  /**
   * Reading the rows back in order gives exactly the first `rows * width`
   * samples converted: nothing is dropped, repeated or reordered.
   */
  lemma {:induction false} FlattenReshaped(values: seq<Double>, rows: nat, width: nat)
    requires rows * width <= |values|
    ensures Flatten(Reshaped(values, rows, width)) == ToOptionals(values[..rows * width])
    ensures FromOptionals(Flatten(Reshaped(values, rows, width))) == values[..rows * width]
  {
    if rows == 0 {
      assert values[..0] == [];
    } else {
      assert (rows - 1) * width + width == rows * width;
      var rest := values[width..];
      FlattenReshaped(rest, rows - 1, width);
      assert values[..rows * width] == values[..width] + rest[..(rows - 1) * width];
      ToOptionalsAppend(values[..width], rest[..(rows - 1) * width]);
    }
    OptionalsRoundTrip(values[..rows * width]);
  }

  /** A buffer that holds only NaN reshapes into rows of `None` only. */
  lemma AllUnknown(values: seq<Double>, rows: nat, width: nat)
    requires rows * width <= |values|
    requires forall k :: 0 <= k < |values| ==> values[k] == NaN
    ensures |Reshaped(values, rows, width)| == rows
    ensures forall i :: 0 <= i < rows ==> Reshaped(values, rows, width)[i] == seq(width, _ => Option<real>.None)
  {
    ReshapedRows(values, rows, width);
    forall i | 0 <= i < rows
      ensures Reshaped(values, rows, width)[i] == seq(width, _ => Option<real>.None)
    {
      assert Row(values, i, width) == seq(width, _ => Option<real>.None);
    }
  }

  /** The reshape loop of `fetch`: a running index walks the flat buffer row by row. */
  method Reshape(values: seq<Double>, rows: nat, width: nat) returns (data: seq<seq<Option<real>>>)
    requires rows * width <= |values|
    ensures |data| == rows
    ensures forall i :: 0 <= i < rows ==> |data[i]| == width
    ensures forall i, j :: 0 <= i < rows && 0 <= j < width ==>
              i * width + j < |values| && data[i][j] == ToOptional(values[i * width + j])
    ensures data == Reshaped(values, rows, width)
  {
    data := [];
    var index := 0;
    for i := 0 to rows
      invariant index == i * width && index <= rows * width
      invariant |data| == i
      invariant forall a :: 0 <= a < i ==> a * width + width <= |values| && data[a] == Row(values, a, width)
    {
      RowInBounds(i, rows, width);
      ghost var rowStart := index;
      var t := [];
      for j := 0 to width
        invariant index == rowStart + j && index <= rows * width
        invariant t == ToOptionals(values[rowStart..index])
      {
        var dp := values[index];
        index := index + 1;
        ToOptionalsSnoc(values, rowStart, index - 1);
        t := t + [if dp.NaN? then None else Some(dp.value)];
      }
      assert t == Row(values, i, width);
      data := data + [t];
      assert (i + 1) * width == i * width + width;
    }
    ReshapedRows(values, rows, width);
    ReshapedEntries(data, values, rows, width);
  }

  /** Extending a slice by one sample extends its conversion by that sample's conversion. */
  lemma ToOptionalsSnoc(values: seq<Double>, lo: nat, hi: nat)
    requires lo <= hi < |values|
    ensures ToOptionals(values[lo..hi + 1]) == ToOptionals(values[lo..hi]) + [ToOptional(values[hi])]
  {
    assert values[lo..hi + 1] == values[lo..hi] + [values[hi]];
  }

  /** A table whose rows are the buffer's rows is the reshaping, entry by entry. */
  lemma ReshapedEntries(data: seq<seq<Option<real>>>, values: seq<Double>, rows: nat, width: nat)
    requires rows * width <= |values|
    requires |data| == rows
    requires forall a :: 0 <= a < rows ==> a * width + width <= |values| && data[a] == Row(values, a, width)
    ensures forall i :: 0 <= i < rows ==> |data[i]| == width
    ensures forall i, j :: 0 <= i < rows && 0 <= j < width ==>
              i * width + j < |values| && data[i][j] == ToOptional(values[i * width + j])
    ensures data == Reshaped(values, rows, width)
  {
    ReshapedRows(values, rows, width);
    forall i, j | 0 <= i < rows && 0 <= j < width
      ensures i * width + j < |values| && data[i][j] == ToOptional(values[i * width + j])
    {
      ReshapedAt(values, rows, width, i, j);
    }
  }

  /** The names loop of `fetch`: the first `dsCount` native names, in native order. */
  method CollectNames(dsNames: seq<string>, dsCount: nat) returns (names: seq<string>)
    requires dsCount <= |dsNames|
    ensures |names| == dsCount
    ensures forall i :: 0 <= i < dsCount ==> names[i] == dsNames[i]
  {
    names := [];
    for i := 0 to dsCount
      invariant |names| == i
      invariant forall k :: 0 <= k < i ==> names[k] == dsNames[k]
    {
      names := names + [dsNames[i]];
    }
  }

  /** Reference result of a successful fetch. */
  function Expected(reply: NativeFetch): FetchResult
    requires WellFormed(reply)
  {
    var rows := RowCount(reply.start, reply.stop, reply.step);
    FetchResult((reply.start, reply.stop, reply.step),
                reply.dsNames[..reply.dsCount],
                Reshaped(reply.values, rows, reply.dsCount))
  }

  /** The body of `fetch` after a successful native call. */
  method ConvertFetch(reply: NativeFetch) returns (res: FetchResult)
    requires WellFormed(reply)
    ensures res == Expected(reply)
    ensures res.range == (reply.start, reply.stop, reply.step)
    ensures |res.names| == reply.dsCount
    ensures |res.rows| == RowCount(reply.start, reply.stop, reply.step)
    ensures forall i :: 0 <= i < |res.rows| ==> |res.rows[i]| == reply.dsCount
  {
    var rows := RowCount(reply.start, reply.stop, reply.step);
    var data := Reshape(reply.values, rows, reply.dsCount);
    var names := CollectNames(reply.dsNames, reply.dsCount);
    res := FetchResult((reply.start, reply.stop, reply.step), names, data);
  }

  /**
   * The all-unknown fetch of the test suite: the range 1368278970 to
   * 1368279180 at step 10 holds 21 rows of two `None` entries.
   */
  lemma FetchAllNoneFixture(values: seq<Double>)
    requires |values| == 42 && forall k :: 0 <= k < |values| ==> values[k] == NaN
    ensures WellFormed(NativeFetch(0, 1368278970, 1368279180, 10, 2, ["a", "b"], values))
    ensures Expected(NativeFetch(0, 1368278970, 1368279180, 10, 2, ["a", "b"], values))
         == FetchResult((1368278970, 1368279180, 10), ["a", "b"], seq(21, i => [None, None]))
  {
    assert RowCount(1368278970, 1368279180, 10) == 21;
    AllUnknown(values, 21, 2);
    assert seq(2, _ => Option<real>.None) == [None, None];
    assert ["a", "b"][..2] == ["a", "b"];
  }
}
