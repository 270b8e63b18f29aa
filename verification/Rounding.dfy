/**
 * Rounding of every emitted figure to two decimal places. The source formats
 * the number with two fraction digits and parses it back: the nearest whole
 * number of cents, with a tie going to the larger magnitude (a negative value
 * is negated, rounded and negated again). A NaN or infinite value becomes 0.
 */
module Rounding {

  function Abs(x: real): (r: real)
    ensures r >= 0.0
    ensures r == x || r == -x
  {
    if x < 0.0 then -x else x
  }

  /** `x` is a whole number of cents. */
  predicate WholeCents(x: real) {
    (x * 100.0).Floor as real == x * 100.0
  }

  /**
   * `x` written with `digits` fraction digits and read back. A negative value
   * is written as its magnitude behind a minus sign; each digit shifts the
   * decimal point one place, and at the last place the magnitude is rounded
   * half up to a whole number.
   */
  function ToFixed(x: real, digits: nat): real
    decreases digits, x < 0.0
  {
    if x < 0.0 then -ToFixed(-x, digits)
    else if digits == 0 then (x + 0.5).Floor as real
    else ToFixed(x * 10.0, digits - 1) / 10.0
  }

  /** Two fraction digits of a non-negative value: its number of cents, rounded half up. */
  lemma ToFixedCents(x: real)
    requires x >= 0.0
    ensures ToFixed(x, 2) == (x * 100.0 + 0.5).Floor as real / 100.0
  {
    assert ToFixed(x, 2) == ToFixed(x * 10.0, 1) / 10.0;
    assert ToFixed(x * 10.0, 1) == ToFixed(x * 10.0 * 10.0, 0) / 10.0;
    assert x * 10.0 * 10.0 == x * 100.0;
  }

  /**
   * Rounds `x` to the nearest cent; a value exactly half a cent from two
   * neighbours goes to the one farther from zero, since a negative value is
   * rounded as its magnitude. Its arithmetic facts are stated by
   * `RoundIsNearestCent`.
   */
  function Round(x: real): real
  {
    ToFixed(x, 2)
  }

  /** Rounding keeps the sign of an amount (zero counting as either). */
  lemma RoundSign(x: real)
    ensures x >= 0.0 ==> Round(x) >= 0.0
    ensures x <= 0.0 ==> Round(x) <= 0.0
  {
    if x >= 0.0 {
      ToFixedCents(x);
    } else {
      ToFixedCents(-x);
    }
  }

  lemma RoundMagnitude(x: real)
    requires x >= 0.0
    ensures WholeCents(Round(x))
    ensures x - 0.005 < Round(x) <= x + 0.005
  {
    ToFixedCents(x);
    var k := (x * 100.0 + 0.5).Floor;
    assert k as real <= x * 100.0 + 0.5 < k as real + 1.0;
    assert k as real / 100.0 * 100.0 == k as real;
  }

  /**
   * `Round(x)` is a whole number of cents at most half a cent from `x`; at
   * exactly half a cent it is the neighbour farther from zero.
   */
  lemma RoundIsNearestCent(x: real)
    ensures WholeCents(Round(x))
    ensures Abs(Round(x) - x) <= 0.005
    ensures Abs(Round(x) - x) == 0.005 ==> Abs(Round(x)) > Abs(x)
  {
    if x >= 0.0 {
      RoundMagnitude(x);
    } else {
      RoundMagnitude(-x);
      assert Round(x) == -Round(-x);
      WholeCentsNegate(Round(-x));
    }
  }

  lemma WholeCentsNegate(m: real)
    requires WholeCents(m)
    ensures WholeCents(-m)
  {
    var k := (m * 100.0).Floor;
    assert -m * 100.0 == (-k) as real;
  }

  /** A double as the source sees it: finite, or one of the non-finite values. */
  datatype JsNumber = Finite(value: real) | NaN | PositiveInfinity | NegativeInfinity

  /** The source's `round`: the non-finite guard, then cent rounding. */
  function RoundNumber(x: JsNumber): (r: real)
    ensures !x.Finite? ==> r == 0.0
    ensures x.Finite? ==> WholeCents(r) && Abs(r - x.value) <= 0.005
  {
    if !x.Finite? then 0.0 else RoundIsNearestCent(x.value); Round(x.value)
  }

  /** A whole number of cents is left as it is. */
  lemma RoundWholeCents(x: real)
    requires WholeCents(x)
    ensures Round(x) == x
  {
    var k := (x * 100.0).Floor;
    if x >= 0.0 {
      ToFixedCents(x);
      assert (x * 100.0 + 0.5).Floor == k;
    } else {
      ToFixedCents(-x);
      assert -x * 100.0 == (-k) as real;
      assert (-x * 100.0 + 0.5).Floor == -k;
    }
  }

  /** Rounding twice is rounding once. */
  lemma RoundIdempotent(x: real)
    ensures Round(Round(x)) == Round(x)
  {
    RoundIsNearestCent(x);
    RoundWholeCents(Round(x));
  }

  /** A whole number of cents, written as an amount. */
  lemma CentsAreWhole(k: int)
    ensures WholeCents(k as real / 100.0)
  {
    assert k as real / 100.0 * 100.0 == k as real;
  }

  /** Sums and differences of whole cents are whole cents. */
  lemma WholeCentsSum(a: real, b: real)
    requires WholeCents(a) && WholeCents(b)
    ensures WholeCents(a + b) && WholeCents(a - b)
  {
    var ka, kb := (a * 100.0).Floor, (b * 100.0).Floor;
    assert a == ka as real / 100.0 && b == kb as real / 100.0;
    CentsAreWhole(ka + kb);
    CentsAreWhole(ka - kb);
    assert a + b == (ka + kb) as real / 100.0;
    assert a - b == (ka - kb) as real / 100.0;
  }

  /** Rounding never reverses the order of two amounts. */
  lemma RoundMonotone(x: real, y: real)
    requires x <= y
    ensures Round(x) <= Round(y)
  {
    if 0.0 <= x {
      ToFixedCents(x);
      ToFixedCents(y);
      assert (x * 100.0 + 0.5).Floor <= (y * 100.0 + 0.5).Floor;
    } else if y < 0.0 {
      ToFixedCents(-x);
      ToFixedCents(-y);
      assert (-y * 100.0 + 0.5).Floor <= (-x * 100.0 + 0.5).Floor;
    } else {
      RoundMagnitude(-x);
      RoundMagnitude(y);
    }
  }

  /** Positive and negative amounts of the same size round to opposite values. */
  lemma RoundSymmetric(x: real)
    ensures Round(-x) == -Round(x)
  {
    if x == 0.0 {
      ToFixedCents(0.0);
    }
  }
}
