/**
 * Integer powers over the reals and the floor-log exponent of a number
 * (class MathHelpers in util/math/Misc.py). The source computes
 * floor(log(abs(value), base)) in floating point; here the exponent is the
 * exact integer e with base^e <= |value| < base^(e+1).
 */
module Misc {

  /** b^e over the reals, for any integer exponent e. */
  function Power(b: real, e: int): (r: real)
    requires b > 0.0
    ensures r > 0.0
    decreases if e >= 0 then e else -e
  {
    if e == 0 then 1.0
    else if e > 0 then Power(b, e - 1) * b
    else Power(b, e + 1) / b
  }

  function Abs(v: real): (r: real)
    ensures r >= 0.0 && (r == v || r == -v)
  {
    if v < 0.0 then -v else v
  }

  // Facts of ordered-field arithmetic, stated over variables so that the
  // solver never meets a product next to a literal.

  lemma MulMonotone(x: real, y: real, k: real)
    requires k > 0.0 && x <= y
    ensures x * k <= y * k
  {
  }

  lemma MulStrict(x: real, y: real, k: real)
    requires k > 0.0 && x < y
    ensures x * k < y * k
  {
  }

  lemma MulCancel(x: real, y: real, k: real)
    requires k > 0.0
    ensures x * k <= y * k ==> x <= y
    ensures x * k < y * k ==> x < y
  {
    if y < x { MulStrict(y, x, k); }
    if y <= x { MulMonotone(y, x, k); }
  }

  lemma DivMul(p: real, k: real)
    requires k > 0.0
    ensures (p / k) * k == p
  {
  }

  lemma MulGrows(p: real, k: real)
    requires p > 0.0 && k >= 2.0
    ensures p < p * k
  {
  }

  lemma QuotientShrinks(c: real, k: real)
    requires k >= 2.0 && c >= k
    ensures 1.0 <= c / k <= c - 1.0
  {
  }

  lemma FloorLess(x: real, y: real)
    requires x <= y - 1.0
    ensures x.Floor < y.Floor
  {
  }

  lemma BelowQuotient(a: real, b: real, p: real)
    requires a > 0.0 && a * b < p
    ensures b < p / a
  {
  }

  lemma ReciprocalOfProduct(a: real, b: real)
    requires a > 0.0 && b > 0.0
    ensures 1.0 / (a * b) == (1.0 / a) / b
  {
  }

  lemma DivideByOne(x: real, one: real)
    requires one == 1.0
    ensures x / one == x && x * one == x
  {
  }

  lemma ReciprocalFactor(n: real, v: real)
    requires v > 0.0
    ensures n * (1.0 / v) == n / v
  {
  }

  lemma ScaleBack(n: real, va: real, vb: real)
    requires va > 0.0 && vb > 0.0
    ensures ((n * va / vb) * vb) / va == n
  {
  }

  lemma CancelThrough(p: real, v: real, w: real)
    requires v > 0.0 && w > 0.0
    ensures ((p / v) * v) / w == p / w
  {
    DivMul(p, v);
  }

  lemma CancelSame(p: real, v: real)
    requires v != 0.0
    ensures p * v / v == p
  {
  }

  /** Raising the exponent by one multiplies by the base, also across zero. */
  lemma PowerStep(b: real, e: int)
    requires b > 0.0
    ensures Power(b, e + 1) == Power(b, e) * b
  {
    if e < 0 {
      DivMul(Power(b, e + 1), b);
    }
  }

  /** b^0 is 1 and b^1 is b. */
  lemma PowerOne(b: real)
    requires b > 0.0
    ensures Power(b, 0) == 1.0 && Power(b, 1) == b
  {
  }

  /** For a base of at least 2, each step up in the exponent is a strict increase. */
  lemma PowerGrows(b: real, e: int)
    requires b >= 2.0
    ensures Power(b, e) < Power(b, e + 1)
  {
    PowerStep(b, e);
    MulGrows(Power(b, e), b);
  }

  /** For a base of at least 2, a larger exponent gives a strictly larger power. */
  lemma {:induction false} PowerStrictlyIncreasing(b: real, i: int, j: int)
    requires b >= 2.0 && i < j
    ensures Power(b, i) < Power(b, j)
    decreases j - i
  {
    PowerGrows(b, i);
    if i + 1 < j {
      PowerStrictlyIncreasing(b, i + 1, j);
    }
  }

  /** Dividing a number c >= b by b lowers its floor by at least one. */
  lemma FloorShrinks(c: real, b: real)
    requires b >= 2.0 && c >= b
    ensures c / b >= 1.0
    ensures 0 <= (c / b).Floor < c.Floor
  {
    QuotientShrinks(c, b);
    FloorLess(c / b, c);
  }

  /** Comparing with p is comparing, after scaling by k > 0, with q = p * k. */
  lemma CompareScaled(p: real, q: real, x: real, k: real)
    requires k > 0.0 && q == p * k
    ensures p <= x <==> q <= x * k
    ensures x < p <==> x * k < q
  {
    MulCancel(p, x, k);
    MulCancel(x, p, k);
    if p <= x { MulMonotone(p, x, k); }
    if x < p { MulStrict(x, p, k); }
  }

  /** Comparing with b^e is comparing, after scaling by b, with b^(e+1). */
  lemma PowerScale(b: real, e: int, x: real)
    requires b > 0.0
    ensures Power(b, e) <= x <==> Power(b, e + 1) <= x * b
    ensures x < Power(b, e) <==> x * b < Power(b, e + 1)
  {
    PowerStep(b, e);
    CompareScaled(Power(b, e), Power(b, e + 1), x, b);
  }

  /** x lies between b^(e-1) and b^e exactly when x * b lies between b^e and b^(e+1). */
  lemma ScaleBracket(b: real, x: real, e: int)
    requires b > 0.0
    ensures (Power(b, e - 1) <= x < Power(b, e)) <==> (Power(b, e) <= x * b < Power(b, e + 1))
  {
    PowerScale(b, e - 1, x);
    PowerScale(b, e, x);
  }

  /** One division step of the search for the exponent of a number >= b: q = a / b. */
  lemma AboveStep(b: real, a: real, e: int)
    requires b >= 2.0 && a >= b
    requires Power(b, e - 1) <= a / b < Power(b, e)
    ensures Power(b, e) <= a < Power(b, e + 1)
  {
    DivMul(a, b);
    Bracket(b, a, a / b, e);
  }

  lemma Bracket(b: real, a: real, q: real, e: int)
    requires b >= 2.0 && q * b == a
    requires Power(b, e - 1) <= q < Power(b, e)
    ensures Power(b, e) <= a < Power(b, e + 1)
  {
    ScaleBracket(b, q, e);
  }

  /** One multiplication step of the search for the exponent of a number below 1. */
  lemma BelowStep(b: real, a: real, e: int)
    requires b >= 2.0 && a > 0.0
    requires Power(b, e) <= a * b < Power(b, e + 1)
    ensures Power(b, e - 1) <= a < Power(b, e)
  {
    ScaleBracket(b, a, e);
  }

  /** Where the search for a number below 1 stops: 1/b <= a < 1. */
  lemma BelowLast(b: real, a: real)
    requires b >= 2.0 && a < 1.0 && a * b >= 1.0
    ensures Power(b, -1) <= a < Power(b, 0)
  {
    PowerScale(b, -1, a);
  }

  lemma ReciprocalAtLeast(b: real, a: real)
    requires b >= 2.0 && a > 0.0 && a * b < 1.0
    ensures 1.0 / a >= b
  {
    BelowQuotient(a, b, 1.0);
  }

  lemma FloorOfQuotientShrinks(b: real, c: real, d: real)
    requires b >= 2.0 && c >= b && d == c / b
    ensures 0 <= d.Floor < c.Floor
  {
    FloorShrinks(c, b);
  }

  /** Multiplying a small number by b lowers the floor of its reciprocal. */
  lemma ReciprocalFloorShrinks(b: real, a: real)
    requires b >= 2.0 && a > 0.0 && a * b < 1.0
    ensures 0 <= (1.0 / (a * b)).Floor < (1.0 / a).Floor
  {
    ReciprocalAtLeast(b, a);
    ReciprocalOfProduct(a, b);
    FloorOfQuotientShrinks(b, 1.0 / a, 1.0 / (a * b));
  }

  /** The exponent of a number a >= 1, found by repeated division by b. */
  function ExponentAbove(b: real, a: real): (e: nat)
    requires b >= 2.0 && a >= 1.0
    ensures Power(b, e) <= a < Power(b, e + 1)
    decreases a.Floor
  {
    if a >= b then
      FloorShrinks(a, b);
      var e' := ExponentAbove(b, a / b);
      AboveStep(b, a, e' + 1);
      e' + 1
    else
      PowerOne(b);
      0
  }

  /** The exponent of a number 0 < a < 1, found by repeated multiplication by b. */
  function ExponentBelow(b: real, a: real): (e: int)
    requires b >= 2.0 && 0.0 < a < 1.0
    ensures e < 0
    ensures Power(b, e) <= a < Power(b, e + 1)
    decreases (1.0 / a).Floor
  {
    if a * b >= 1.0 then
      BelowLast(b, a);
      -1
    else
      ReciprocalFloorShrinks(b, a);
      var e' := ExponentBelow(b, a * b);
      BelowStep(b, a, e');
      e' - 1
  }

  /**
   * extract_exponent_base: the floor of the base-b logarithm of |value|.
   * The logarithm of zero is undefined (Python raises), hence value != 0.
   */
  function ExtractExponentBase(base: real, value: real): (e: int)
    requires base >= 2.0 && value != 0.0
    ensures Power(base, e) <= Abs(value) < Power(base, e + 1)
  {
    var a := Abs(value);
    if a >= 1.0 then ExponentAbove(base, a) else ExponentBelow(base, a)
  }

  /** extract_exponent_common: the exponent in base 10. */
  function ExtractExponentCommon(value: real): (e: int)
    requires value != 0.0
    ensures Power(10.0, e) <= Abs(value) < Power(10.0, e + 1)
  {
    ExtractExponentBase(10.0, value)
  }

  /** The bracketing property determines the exponent: it is the only such integer. */
  lemma ExponentUnique(base: real, value: real, e: int)
    requires base >= 2.0 && value != 0.0
    requires Power(base, e) <= Abs(value) < Power(base, e + 1)
    ensures ExtractExponentBase(base, value) == e
  {
    var r := ExtractExponentBase(base, value);
    if r + 1 < e {
      PowerStrictlyIncreasing(base, r + 1, e);
    } else if e + 1 < r {
      PowerStrictlyIncreasing(base, e + 1, r);
    }
  }

  /** The exponent of base^k is k. */
  lemma ExponentOfPower(base: real, k: int)
    requires base >= 2.0
    ensures ExtractExponentBase(base, Power(base, k)) == k
  {
    PowerStrictlyIncreasing(base, k, k + 1);
    ExponentUnique(base, Power(base, k), k);
  }

  /** The exponent only grows with the magnitude of the value. */
  lemma ExponentMonotone(base: real, v: real, w: real)
    requires base >= 2.0 && v != 0.0 && Abs(v) <= Abs(w)
    ensures ExtractExponentBase(base, v) <= ExtractExponentBase(base, w)
  {
    var ev, ew := ExtractExponentBase(base, v), ExtractExponentBase(base, w);
    if ew + 1 < ev {
      PowerStrictlyIncreasing(base, ew + 1, ev);
    }
  }

  /** The sign of the value does not matter. */
  lemma ExponentIgnoresSign(base: real, v: real)
    requires base >= 2.0 && v != 0.0
    ensures ExtractExponentBase(base, -v) == ExtractExponentBase(base, v)
  {
  }
}
