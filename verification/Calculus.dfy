/** The exponential and the square root the traction relations use, known only by their laws.

Every solver takes a `Maths` value in place of the library functions. `Valid` says that its `exp`
is the exponential (value at 0, sums to products, above its tangent at 0) and its `sqrt` the
non-negative root. The laws are stated through named predicates, so that a proof uses one of them
exactly where it asserts its name. */
module Calculus {

  datatype Maths = Maths(exp: real -> real, sqrt: real -> real) {
    ghost predicate SumLaw(a: real, b: real) {
      exp(a + b) == exp(a) * exp(b)
    }

    ghost predicate TangentLaw(x: real) {
      exp(x) >= 1.0 + x
    }

    ghost predicate RootLaw(x: real) {
      sqrt(x) >= 0.0 && sqrt(x) * sqrt(x) == x
    }

    ghost predicate Valid() {
      && exp(0.0) == 1.0
      && (forall a: real, b: real :: SumLaw(a, b))
      && (forall x: real :: TangentLaw(x))
      && (forall x: real :: x >= 0.0 ==> RootLaw(x))
    }
  }

  function Abs(x: real): real {
    if x < 0.0 then -x else x
  }

  lemma ExpPositive(m: Maths, x: real)
    requires m.Valid()
    ensures m.exp(x) > 0.0
  {
    var h := m.exp(x / 2.0);
    assert m.SumLaw(x / 2.0, x / 2.0);
    assert x / 2.0 + x / 2.0 == x;
    assert m.SumLaw(x, -x);
    assert x + -x == 0.0;
    SquareNonNegative(h);
  }

  lemma SquareNonNegative(h: real)
    ensures h * h >= 0.0
  {
  }

  /** The exponential stays above its tangent, and touches it only at 0. */
  lemma ExpAboveTangent(m: Maths, x: real)
    requires m.Valid() && x != 0.0
    ensures m.exp(x) > 1.0 + x
  {
    if x <= -1.0 {
      ExpPositive(m, x);
    } else {
      ExpDoubleAboveTangent(m, x / 2.0);
      assert x / 2.0 + x / 2.0 == x;
    }
  }

  lemma ExpDoubleAboveTangent(m: Maths, h: real)
    requires m.Valid() && h != 0.0 && h > -1.0
    ensures m.exp(h + h) > 1.0 + (h + h)
  {
    assert m.SumLaw(h, h);
    assert m.TangentLaw(h);
    SquareAboveTangent(m.exp(h), 1.0 + h, h);
  }

  lemma SquareAboveTangent(e: real, t: real, h: real)
    requires t == 1.0 + h && e >= t > 0.0 && h != 0.0
    ensures e * e > 1.0 + (h + h)
  {
    var square := PositiveSquare(h);
    SquareMonotone(t, e);
    assert t * t == 1.0 + (h + h) + square;
  }

  lemma SquareMonotone(x: real, y: real)
    requires 0.0 <= x <= y
    ensures x * x <= y * y
  {
    Scale(x, x, y);
    Scale(y, x, y);
    assert x * y == y * x;
  }

  // The solver reads `h * h > 0` as `h != 0`; naming the square keeps the bound on it.
  lemma PositiveSquare(h: real) returns (square: real)
    requires h != 0.0
    ensures square == h * h && square > 0.0
  {
    if h > 0.0 {
      square := PositiveProduct(h, h);
    } else {
      square := PositiveProduct(-h, -h);
    }
  }

  lemma PositiveProduct(x: real, y: real) returns (product: real)
    requires x > 0.0 && y > 0.0
    ensures product == x * y && product > 0.0
  {
    product := x * y;
  }

  /** exp(b) >= exp(a) * (1 + (b - a)), strictly when a and b differ. */
  lemma ExpChord(m: Maths, a: real, b: real)
    requires m.Valid()
    ensures m.exp(b) >= m.exp(a) * (1.0 + (b - a))
    ensures a != b ==> m.exp(b) > m.exp(a) * (1.0 + (b - a))
  {
    ExpPositive(m, a);
    assert m.SumLaw(a, b - a);
    assert a + (b - a) == b;
    if a != b {
      ExpAboveTangent(m, b - a);
      ScaleStrict(m.exp(a), 1.0 + (b - a), m.exp(b - a));
    }
  }

  lemma ScaleStrict(k: real, x: real, y: real)
    requires k > 0.0 && x < y
    ensures k * x < k * y
  {
    assert k * y - k * x == k * (y - x);
  }

  lemma Scale(k: real, x: real, y: real)
    requires k >= 0.0 && x <= y
    ensures k * x <= k * y
  {
    assert k * y - k * x == k * (y - x);
  }

  lemma ExpMonotone(m: Maths, a: real, b: real)
    requires m.Valid() && a < b
    ensures m.exp(a) < m.exp(b)
  {
    ExpChord(m, a, b);
    ExpPositive(m, a);
    ScaleStrict(m.exp(a), 1.0, 1.0 + (b - a));
  }

  /** Strict convexity: between two distinct points the exponential lies below its chord. */
  lemma ExpConvex(m: Maths, a: real, b: real, t: real)
    requires m.Valid() && a != b && 0.0 < t < 1.0
    ensures m.exp(a + t * (b - a)) < (1.0 - t) * m.exp(a) + t * m.exp(b)
  {
    var c := a + t * (b - a);
    assert a - c == -t * (b - a);
    assert b - c == (1.0 - t) * (b - a);
    NonZeroProduct(t, b - a);
    NonZeroProduct(1.0 - t, b - a);
    ExpChord(m, c, a);
    ExpChord(m, c, b);
    MixedChords(1.0 - t, t, b - a, 1.0 + (a - c), 1.0 + (b - c));
    WeightedSum(1.0 - t, t, m.exp(c), 1.0 + (a - c), 1.0 + (b - c), m.exp(a), m.exp(b));
  }

  // The weights w and t = 1 - w are separate parameters: sums as factors defeat the solver.
  lemma MixedChords(w: real, t: real, d: real, u: real, v: real)
    requires w + t == 1.0 && u == 1.0 + -t * d && v == 1.0 + w * d
    ensures w * u + t * v == 1.0
  {
    assert w * u == w - w * t * d;
    assert t * v == t + t * w * d;
  }

  lemma WeightedSum(w: real, t: real, e: real, u: real, v: real, x: real, y: real)
    requires w > 0.0 && t > 0.0 && e * u < x && e * v < y && w * u + t * v == 1.0
    ensures w * x + t * y > e
  {
    ScaleStrict(w, e * u, x);
    ScaleStrict(t, e * v, y);
    assert e * (w * u + t * v) == w * (e * u) + t * (e * v);
    AddStrict(w * (e * u), w * x, t * (e * v), t * y, e);
  }

  lemma AddStrict(a: real, x: real, b: real, y: real, e: real)
    requires a < x && b < y && a + b == e
    ensures x + y > e
  {
  }

  lemma NonZeroProduct(x: real, y: real)
    requires x != 0.0 && y != 0.0
    ensures x * y != 0.0
  {
  }

  lemma RootPositive(m: Maths, x: real)
    requires m.Valid() && x > 0.0
    ensures m.sqrt(x) > 0.0 && m.sqrt(x) * m.sqrt(x) == x
  {
    assert m.RootLaw(x);
  }

  lemma RootMonotone(m: Maths, x: real, y: real)
    requires m.Valid() && 0.0 < x <= y
    ensures 0.0 < m.sqrt(x) <= m.sqrt(y)
  {
    RootPositive(m, x);
    RootPositive(m, y);
    var p, q := m.sqrt(x), m.sqrt(y);
    if q < p {
      ScaleStrict(q, q, p);
      ScaleStrict(p, q, p);
      assert false;
    }
  }

  lemma QuotientMonotone(k: real, x: real, y: real)
    requires k >= 0.0 && 0.0 < x <= y
    ensures k / y <= k / x
  {
    var p, q := k / x, k / y;
    assert p * x == k && q * y == k;
    if p < q {
      Scale(q, x, y);
      ScaleStrict(x, p, q);
      assert false;
    }
  }
}
