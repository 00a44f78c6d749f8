/** Rounding of exact quantities to a decimal quantum. */
module Rounding {

  /** num / den to the nearest integer, ties up: Decimal's ROUND_HALF_UP on a non-negative value. */
  function HalfUp(num: nat, den: nat): (q: nat)
    requires den > 0
    ensures 2 * num - den < 2 * (q * den) <= 2 * num + den
  {
    var q := (2 * num + den) / (2 * den);
    DivisionBounds(2 * num + den, 2 * den);
    assert q * (2 * den) == 2 * (q * den);
    q
  }

  lemma DivisionBounds(x: nat, d: nat)
    requires d > 0
    ensures x / d * d <= x < x / d * d + d
  {
  }

  lemma Times(x: int, y: int, d: nat)
    requires x <= y
    ensures x * d <= y * d
  {
  }

  /** HalfUp reaches t exactly when the value reaches t - 1/2. */
  lemma HalfUpReaches(num: nat, den: nat, t: int)
    requires den > 0
    ensures HalfUp(num, den) >= t <==> 2 * num + den >= 2 * (t * den)
  {
    var q := HalfUp(num, den);
    if q >= t {
      Times(t, q, den);
    } else {
      Times(q + 1, t, den);
      assert (q + 1) * den == q * den + den;
    }
  }

  lemma HalfUpUnique(num: nat, den: nat, q: nat)
    requires den > 0 && 2 * num - den < 2 * (q * den) <= 2 * num + den
    ensures HalfUp(num, den) == q
  {
    HalfUpReaches(num, den, q);
    HalfUpReaches(num, den, q + 1);
    OneMore(q, den);
  }

  lemma OneMore(q: nat, den: nat)
    ensures (q + 1) * den == q * den + den
  {
  }

  /** HalfUp depends on the value of the fraction only. */
  lemma HalfUpScales(k: nat, num: nat, den: nat)
    requires k > 0 && den > 0
    ensures k * den > 0 && HalfUp(k * num, k * den) == HalfUp(num, den)
  {
    var q := HalfUp(num, den);
    Times(1, k, den);
    ScaledBounds(k, 2 * num - den, 2 * (q * den), 2 * num + den);
    Distribute(k, num, den, q);
    HalfUpUnique(k * num, k * den, q);
  }

  lemma ScaledBounds(k: nat, x: int, y: int, z: int)
    requires k > 0 && x < y <= z
    ensures k * x < k * y <= k * z
  {
  }

  lemma Distribute(k: nat, num: nat, den: nat, q: nat)
    ensures k * (2 * num - den) == 2 * (k * num) - k * den
    ensures k * (2 * num + den) == 2 * (k * num) + k * den
    ensures k * (2 * (q * den)) == 2 * (q * (k * den))
  {
  }

  lemma EqualFractions(k: nat, a: nat, b: nat, m: nat, c: nat, d: nat)
    requires k > 0 && m > 0 && b > 0 && d > 0 && k * a == m * c && k * b == m * d
    ensures HalfUp(a, b) == HalfUp(c, d)
  {
    HalfUpScales(k, a, b);
    HalfUpScales(m, c, d);
  }

  /** Nearest integer, ties to even: Python's round(). */
  function HalfEven(x: real): (n: int)
    ensures -0.5 <= n as real - x <= 0.5
    ensures n as real - x == 0.5 || n as real - x == -0.5 ==> n % 2 == 0
  {
    var n := x.Floor;
    var rest := x - n as real;
    if rest < 0.5 || (rest == 0.5 && n % 2 == 0) then n else n + 1
  }
}
