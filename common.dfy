/** Values shared by every part of the model. */
module Common {

  datatype Option<+T> = None | Some(value: T)

  datatype Result<+T, +E> = Ok(value: T) | Err(error: E)

  /** The three discrete actions a strategy emits, one per bar. */
  datatype Signal = BUY | SELL | HOLD

  /** A float that may also be one of the two infinities used as sentinels. */
  datatype Ext = NegInf | Fin(v: real) | PosInf

  predicate Less(a: Ext, b: Ext) {
    match (a, b)
    case (NegInf, NegInf) => false
    case (NegInf, _) => true
    case (Fin(x), Fin(y)) => x < y
    case (Fin(_), PosInf) => true
    case (_, _) => false
  }

  predicate LessEq(a: Ext, b: Ext) {
    a == b || Less(a, b)
  }

  lemma LessTransitive(a: Ext, b: Ext, c: Ext)
    requires Less(a, b) && Less(b, c)
    ensures Less(a, c)
  {
  }

  lemma LessTotal(a: Ext, b: Ext)
    ensures Less(a, b) || a == b || Less(b, a)
    ensures !(Less(a, b) && Less(b, a))
  {
  }

  /** The larger of two extended values. */
  function ExtMax(a: Ext, b: Ext): (r: Ext)
    ensures LessEq(a, r) && LessEq(b, r) && (r == a || r == b)
  {
    if Less(a, b) then b else a
  }

  /** Taking the larger value is associative. */
  lemma ExtMaxAssociative(a: Ext, b: Ext, c: Ext)
    ensures ExtMax(ExtMax(a, b), c) == ExtMax(a, ExtMax(b, c))
  {
  }

  /**
   * `num / den` on IEEE doubles, as numpy divides a float64: a number for a
   * non-zero divisor, an infinity signed like `num` for a zero divisor, and
   * NaN (None) for 0/0. Nothing is raised.
   */
  function FloatDiv(num: real, den: real): (r: Option<Ext>)
    ensures (r.Some? && r.value.Fin?) <==> den != 0.0
    ensures r == Some(PosInf) <==> den == 0.0 && num > 0.0
    ensures r == Some(NegInf) <==> den == 0.0 && num < 0.0
    ensures r.None? <==> den == 0.0 && num == 0.0
  {
    if den != 0.0 then Some(Fin(num / den))
    else if num > 0.0 then Some(PosInf)
    else if num < 0.0 then Some(NegInf)
    else None
  }

  /** The Python exceptions that end a run or a score. */
  datatype Failure = KeyError | ZeroDivisionError
}
