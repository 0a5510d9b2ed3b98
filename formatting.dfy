/** Display formatting of raw feature values (`format_value` in dashboard.py). */
module Formatting {

  /** One cell of a client's feature record as it arrives in the JSON reply:
      missing (`null`, or NaN once decoded), an integer, a floating-point number,
      or any non-numeric value. */
  datatype FeatureValue = Missing | Int(i: int) | Float(x: real) | Other(text: string)

  predicate IsNumber(v: FeatureValue) {
    v.Int? || v.Float?
  }

  /** The numeric value of a number cell, whatever its tag. */
  function AsReal(v: FeatureValue): real
    requires IsNumber(v)
  {
    if v.Int? then v.i as real else v.x
  }

  predicate IsIntegral(x: real) {
    x.Floor as real == x
  }

  /** `x` has at most two decimals. */
  predicate OnCentGrid(x: real) {
    IsIntegral(x * 100.0)
  }

  /** Rounding to two decimals (the nearest multiple of 0.01, ties upward). */
  function Round2(x: real): (r: real)
    ensures OnCentGrid(r)
    ensures x - 0.005 < r <= x + 0.005
  {
    (x * 100.0 + 0.5).Floor as real / 100.0
  }

  /** A value that already has at most two decimals is left as it is. */
  lemma Round2Fixes(x: real)
    requires OnCentGrid(x)
    ensures Round2(x) == x
  {
    var m := (x * 100.0).Floor;
    assert (x * 100.0 + 0.5).Floor == m;
  }

  /** An integral value has no decimals at all. */
  lemma IntegralOnCentGrid(x: real)
    requires IsIntegral(x)
    ensures OnCentGrid(x)
  {
    var m := x.Floor * 100;
    assert x * 100.0 == m as real by {
      assert x == x.Floor as real;
    }
    assert (m as real).Floor == m;
  }

  /** Missing values and non-numbers pass through, integral numbers become
      integers, every other number is rounded to two decimals. */
  function FormatValue(v: FeatureValue): (r: FeatureValue)
    ensures r.Missing? <==> v.Missing?
    ensures r.Other? <==> v.Other?
    ensures !IsNumber(v) ==> r == v
    ensures IsNumber(v) ==> IsNumber(r) && OnCentGrid(AsReal(r))
    ensures IsNumber(v) ==> AsReal(v) - 0.005 < AsReal(r) <= AsReal(v) + 0.005
    ensures r.Int? <==> IsNumber(v) && IsIntegral(AsReal(v))
    ensures r.Int? ==> AsReal(r) == AsReal(v)
  {
    match v
    case Missing => v
    case Int(i) =>
      IntegralOnCentGrid(i as real);
      v
    case Float(x) =>
      if IsIntegral(x) then
        IntegralOnCentGrid(x);
        Int(x.Floor)
      else
        Float(Round2(x))
    case Other(_) => v
  }

  /** Python's `==` between two formatted cells: an int equals a float of the
      same value. Unlike Python, `Missing` (None or NaN) equals itself. */
  predicate PyEq(a: FeatureValue, b: FeatureValue) {
    if IsNumber(a) && IsNumber(b) then AsReal(a) == AsReal(b) else a == b
  }

  /** Formatting twice gives a value equal to formatting once: numbers as
      numbers (as Python's `==` compares them), other cells exactly. The tag
      may still change: 6.999 formats to the float 7.0, which formats to the
      int 7. A missing cell counts as equal to itself, which Python's `==`
      says of `None` but not of NaN. */
  lemma {:induction false} FormatIdempotent(v: FeatureValue)
    ensures PyEq(FormatValue(FormatValue(v)), FormatValue(v))
  {
    if v.Float? && !IsIntegral(v.x) {
      var r := Round2(v.x);
      if !IsIntegral(r) {
        Round2Fixes(r);
      }
    }
  }

  /** A float equal to an integer comes back as that integer: 7.0 formats to 7. */
  lemma FormatSevenPointZero()
    ensures FormatValue(Float(7.0)) == Int(7)
  {
  }

  /** A float that already has two decimals is returned unchanged: 1.82 stays 1.82. */
  lemma FormatOnePointEightyTwo()
    ensures FormatValue(Float(1.82)) == Float(1.82)
  {
  }
}
