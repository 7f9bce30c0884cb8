/**
  The part of IEEE floating point that the elevation model depends on: a value is either
  not-a-number (the "no elevation yet" sentinel) or a finite number. Finite values are
  modelled as mathematical reals, without rounding.
 */
module Floats {

  datatype Float = NaN | Finite(value: real)

  /** `a + b`: not-a-number is absorbing. */
  function Add(a: Float, b: Float): (r: Float)
    ensures r.Finite? <==> a.Finite? && b.Finite?
    ensures r.Finite? ==> r.value == a.value + b.value
  {
    if a.NaN? || b.NaN? then NaN else Finite(a.value + b.value)
  }

  /** `a * 0.5`. */
  function Half(a: Float): (r: Float)
    ensures r.Finite? <==> a.Finite?
    ensures r.Finite? ==> r.value + r.value == a.value
  {
    if a.NaN? then NaN else Finite(a.value * 0.5)
  }

  /** The `==` operator on floats: a comparison involving not-a-number is false. */
  predicate FloatEq(a: Float, b: Float) {
    a.Finite? && b.Finite? && a.value == b.value
  }

  /** Comparing anything with `== NAN` is never true. */
  lemma NanNeverEqual(x: Float)
    ensures !FloatEq(x, NaN) && !FloatEq(NaN, x)
  {
  }
}
