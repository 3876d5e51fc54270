/**
 * The native library's `double` samples, seen only as far as the binding
 * looks at them: a sample is either NaN (RRD's "unknown") or a known value.
 * The binding turns NaN into `None` and passes every other value through.
 */
module Doubles {
  import opened Wrappers

  /** A native `double`; `Num` stands for any value `math.isnan` rejects. */
  datatype Double = NaN | Num(value: real)

  /** The binding's NaN-to-None rule for one sample. */
  function ToOptional(d: Double): (r: Option<real>)
    ensures r.None? <==> d.NaN?
    ensures d.Num? ==> r == Some(d.value)
  {
    if d.NaN? then None else Some(d.value)
  }

  /** The inverse direction: `None` goes back to NaN. */
  function FromOptional(o: Option<real>): (d: Double)
    ensures d.NaN? <==> o.None?
  {
    match o
    case None => NaN
    case Some(v) => Num(v)
  }

  /** The NaN-to-None rule applied to every sample of a buffer, in order. */
  function ToOptionals(s: seq<Double>): (r: seq<Option<real>>)
  {
    seq(|s|, i requires 0 <= i < |s| => ToOptional(s[i]))
  }

  function FromOptionals(s: seq<Option<real>>): (r: seq<Double>)
  {
    seq(|s|, i requires 0 <= i < |s| => FromOptional(s[i]))
  }

  /** NaN-to-None conversion loses nothing: it round-trips from either side. */
  lemma OptionalRoundTrip(o: Option<real>, d: Double)
    ensures ToOptional(FromOptional(o)) == o
    ensures FromOptional(ToOptional(d)) == d
  {
  }

  /** The conversion of a whole buffer is undone by `FromOptionals`: no sample is lost. */
  lemma OptionalsRoundTrip(s: seq<Double>)
    ensures FromOptionals(ToOptionals(s)) == s
  {
  }

  /** Converting a concatenation converts each part. */
  lemma ToOptionalsAppend(a: seq<Double>, b: seq<Double>)
    ensures ToOptionals(a + b) == ToOptionals(a) + ToOptionals(b)
  {
  }
}
