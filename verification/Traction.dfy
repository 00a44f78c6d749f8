/** Wheel numeric and Brixius traction relations (Section 3 of the decision-support document). */
module Traction {
  import opened Calculus

  const ROLLING_RESISTANCE_BASE := 0.04
  const ROLLING_RESISTANCE_SLIP_COEFF := 0.5
  const TRACTION_MU_G_SCALE := 0.88
  const TRACTION_BN_EXPONENT_COEFF := 0.1
  const TRACTION_SLIP_EXPONENT_COEFF := 7.5

  /** Cone index (kPa), section width (m) and overall diameter (m) of a driven or steered wheel. */
  datatype Tyre = Tyre(coneIndex: real, sectionWidth: real, diameter: real) {
    predicate Positive() {
      coneIndex > 0.0 && sectionWidth > 0.0 && diameter > 0.0
    }

    function Strength(): (k: real)
      ensures Positive() ==> k > 0.0
    {
      StrengthPositive();
      coneIndex * sectionWidth * diameter
    }

    lemma StrengthPositive()
      ensures Positive() ==> coneIndex * sectionWidth * diameter > 0.0
    {
      if Positive() {
        var p := PositiveProduct(coneIndex, sectionWidth);
        var q := PositiveProduct(p, diameter);
      }
    }
  }

  /** Bn = CI * b * d / W, with the wheel load taken in N and converted to kN. */
  function MobilityNumber(tyre: Tyre, wheelLoad: real): (bn: real)
    requires tyre.Positive() && wheelLoad > 0.0
    ensures bn > 0.0
  {
    QuotientPositive(tyre.Strength(), wheelLoad / 1000.0);
    tyre.Strength() / (wheelLoad / 1000.0)
  }

  lemma QuotientPositive(x: real, y: real)
    requires x > 0.0 && y > 0.0
    ensures x / y > 0.0
  {
    var q := x / y;
    assert q * y == x;
    if q <= 0.0 {
      Scale(y, q, 0.0);
      assert false;
    }
  }

  lemma MobilityFallsWithLoad(tyre: Tyre, light: real, heavy: real)
    requires tyre.Positive() && 0.0 < light <= heavy
    ensures MobilityNumber(tyre, heavy) <= MobilityNumber(tyre, light)
  {
    QuotientMonotone(tyre.Strength(), light / 1000.0, heavy / 1000.0);
  }

  /** The Brixius envelope, mu_g = 0.88 * (1 - exp(-0.1 * Bn)). */
  function GrossTractionRatio(m: Maths, bn: real): (muG: real)
    requires m.Valid() && bn > 0.0
    ensures 0.0 < muG < TRACTION_MU_G_SCALE
  {
    ExpMonotone(m, -TRACTION_BN_EXPONENT_COEFF * bn, 0.0);
    ExpPositive(m, -TRACTION_BN_EXPONENT_COEFF * bn);
    TRACTION_MU_G_SCALE * (1.0 - m.exp(-TRACTION_BN_EXPONENT_COEFF * bn))
  }

  lemma GrossTractionMonotone(m: Maths, low: real, high: real)
    requires m.Valid() && 0.0 < low <= high
    ensures GrossTractionRatio(m, low) <= GrossTractionRatio(m, high)
  {
    if low < high {
      ExpMonotone(m, -TRACTION_BN_EXPONENT_COEFF * high, -TRACTION_BN_EXPONENT_COEFF * low);
    }
  }

  /** The share of the envelope developed at a slip, 1 - exp(-7.5 * s). */
  function SlipFactor(m: Maths, slip: real): (factor: real)
    requires m.Valid()
    ensures factor < 1.0 && (slip >= 0.0 ==> factor >= 0.0)
  {
    ExpPositive(m, -TRACTION_SLIP_EXPONENT_COEFF * slip);
    if slip > 0.0 then
      ExpMonotone(m, -TRACTION_SLIP_EXPONENT_COEFF * slip, 0.0);
      1.0 - m.exp(-TRACTION_SLIP_EXPONENT_COEFF * slip)
    else
      1.0 - m.exp(-TRACTION_SLIP_EXPONENT_COEFF * slip)
  }

  lemma SlipFactorConcave(m: Maths, a: real, b: real, t: real)
    requires m.Valid() && a != b && 0.0 < t < 1.0
    ensures SlipFactor(m, a + t * (b - a)) > (1.0 - t) * SlipFactor(m, a) + t * SlipFactor(m, b)
  {
    var k := TRACTION_SLIP_EXPONENT_COEFF;
    var p, q := -k * a, -k * b;
    ExpConvex(m, p, q, t);
    SlipFactorAt(m, a + t * (b - a), p + t * (q - p));
    ComplementIdentity(m.exp(p), m.exp(q), t);
  }

  lemma SlipFactorAt(m: Maths, slip: real, exponent: real)
    requires m.Valid() && exponent == -TRACTION_SLIP_EXPONENT_COEFF * slip
    ensures SlipFactor(m, slip) == 1.0 - m.exp(exponent)
  {
  }

  lemma ComplementIdentity(x: real, y: real, t: real)
    ensures (1.0 - t) * (1.0 - x) + t * (1.0 - y) == 1.0 - ((1.0 - t) * x + t * y)
  {
  }

  /** Motion resistance net of the constant 0.04: 1/Bn + 0.5 * s / sqrt(Bn). */
  function MotionResistance(m: Maths, bn: real, slip: real): real
    requires m.Valid() && bn > 0.0
  {
    RootPositive(m, bn);
    1.0 / bn + (ROLLING_RESISTANCE_SLIP_COEFF * slip) / m.sqrt(bn)
  }

  lemma MotionResistanceFalls(m: Maths, low: real, high: real, slip: real)
    requires m.Valid() && 0.0 < low <= high && slip >= 0.0
    ensures 0.0 <= MotionResistance(m, high, slip) <= MotionResistance(m, low, slip)
  {
    RootMonotone(m, low, high);
    QuotientMonotone(1.0, low, high);
    QuotientMonotone(ROLLING_RESISTANCE_SLIP_COEFF * slip, m.sqrt(low), m.sqrt(high));
    QuotientPositive(1.0, high);
    if slip > 0.0 {
      QuotientPositive(ROLLING_RESISTANCE_SLIP_COEFF * slip, m.sqrt(high));
    }
  }

  lemma MotionResistanceAffine(m: Maths, bn: real, a: real, b: real, t: real)
    requires m.Valid() && bn > 0.0
    ensures MotionResistance(m, bn, a + t * (b - a))
         == (1.0 - t) * MotionResistance(m, bn, a) + t * MotionResistance(m, bn, b)
  {
    RootPositive(m, bn);
    var root := m.sqrt(bn);
    var k := ROLLING_RESISTANCE_SLIP_COEFF / root;
    QuotientAsProduct(a, root);
    QuotientAsProduct(b, root);
    QuotientAsProduct(a + t * (b - a), root);
    AffineIdentity(1.0 / bn, k, a, b, t);
  }

  lemma QuotientAsProduct(x: real, root: real)
    requires root > 0.0
    ensures (ROLLING_RESISTANCE_SLIP_COEFF * x) / root == (ROLLING_RESISTANCE_SLIP_COEFF / root) * x
  {
    var k := ROLLING_RESISTANCE_SLIP_COEFF / root;
    assert k * root == ROLLING_RESISTANCE_SLIP_COEFF;
    assert (k * x) * root == (k * root) * x;
  }

  lemma AffineIdentity(c: real, k: real, a: real, b: real, t: real)
    ensures c + k * (a + t * (b - a)) == (1.0 - t) * (c + k * a) + t * (c + k * b)
  {
    var p, q := k * a, k * b;
    assert k * (a + t * (b - a)) == p + t * (q - p);
  }

  /** Coefficient of net traction mu at slip s: gross traction less motion resistance. */
  function NetTraction(m: Maths, bn: real, slip: real): real
    requires m.Valid() && bn > 0.0
  {
    GrossTractionRatio(m, bn) * SlipFactor(m, slip) - MotionResistance(m, bn, slip)
  }

  /** Net traction stays below the envelope, so no wheel pulls more than 0.88 of its own load. */
  lemma NetTractionBelowScale(m: Maths, bn: real, slip: real)
    requires m.Valid() && bn > 0.0 && slip >= 0.0
    ensures NetTraction(m, bn, slip) < GrossTractionRatio(m, bn) < TRACTION_MU_G_SCALE
  {
    MotionResistanceFalls(m, bn, bn, slip);
    LessThanGross(GrossTractionRatio(m, bn), SlipFactor(m, slip), MotionResistance(m, bn, slip));
  }

  lemma LessThanGross(gross: real, factor: real, resistance: real)
    requires gross > 0.0 && factor < 1.0 && resistance >= 0.0
    ensures gross * factor - resistance < gross
  {
    var p := PartOf(gross, factor);
  }

  lemma PartOf(whole: real, share: real) returns (p: real)
    requires whole > 0.0 && share < 1.0
    ensures p == whole * share && p < whole
  {
    p := whole * share;
    var rest := PositiveProduct(whole, 1.0 - share);
    assert rest == whole - p;
  }

  lemma NetTractionRisesWithMobility(m: Maths, low: real, high: real, slip: real)
    requires m.Valid() && 0.0 < low <= high && slip >= 0.0
    ensures NetTraction(m, low, slip) <= NetTraction(m, high, slip)
  {
    GrossTractionMonotone(m, low, high);
    MotionResistanceFalls(m, low, high, slip);
    MoreGross(GrossTractionRatio(m, low), GrossTractionRatio(m, high), SlipFactor(m, slip),
              MotionResistance(m, low, slip), MotionResistance(m, high, slip));
  }

  lemma MoreGross(g: real, g': real, factor: real, r: real, r': real)
    requires g <= g' && factor >= 0.0 && r' <= r
    ensures g * factor - r <= g' * factor - r'
  {
    var p, p' := OrderedProducts(g, g', factor);
  }

  lemma OrderedProducts(x: real, y: real, k: real) returns (p: real, q: real)
    requires x <= y && k >= 0.0
    ensures p == x * k && q == y * k && p <= q
  {
    p, q := x * k, y * k;
    Scale(k, x, y);
    assert k * x == p && k * y == q;
  }

  /** The traction curve is strictly concave in slip: it lies above each of its chords. */
  lemma NetTractionConcave(m: Maths, bn: real, a: real, b: real, t: real, c: real)
    requires m.Valid() && bn > 0.0 && a != b && 0.0 < t < 1.0 && c == a + t * (b - a)
    ensures NetTraction(m, bn, c) > (1.0 - t) * NetTraction(m, bn, a) + t * NetTraction(m, bn, b)
  {
    SlipFactorConcave(m, a, b, t);
    MotionResistanceAffine(m, bn, a, b, t);
    NetAboveChord(GrossTractionRatio(m, bn), SlipFactor(m, a), SlipFactor(m, b), SlipFactor(m, c),
                  MotionResistance(m, bn, a), MotionResistance(m, bn, b), MotionResistance(m, bn, c), t);
  }

  lemma NetAboveChord(g: real, x: real, y: real, z: real, rx: real, ry: real, rz: real, t: real)
    requires g > 0.0 && z > (1.0 - t) * x + t * y && rz == (1.0 - t) * rx + t * ry
    ensures g * z - rz > (1.0 - t) * (g * x - rx) + t * (g * y - ry)
  {
    var mixed := (1.0 - t) * x + t * y;
    ScaleStrict(g, mixed, z);
    assert g * mixed == (1.0 - t) * (g * x) + t * (g * y);
  }

  /** Rear rolling-resistance coefficient, 1/Bn + 0.04 + 0.5 * s / sqrt(Bn). */
  function RollingResistanceRear(m: Maths, bn: real, slip: real): real
    requires m.Valid() && bn > 0.0
  {
    MotionResistance(m, bn, slip) + ROLLING_RESISTANCE_BASE
  }

  /** Front rolling-resistance coefficient: the wheel is undriven, so there is no slip term. */
  function RollingResistanceFront(bn: real): real
    requires bn > 0.0
  {
    1.0 / bn + ROLLING_RESISTANCE_BASE
  }

  /** What the tractive force loses to motion resistance is what the rear coefficient counts beyond its
  constant share; a wheel that does not slip rolls as an undriven one. */
  lemma ResistanceIsLostTraction(m: Maths, bn: real, slip: real)
    requires m.Valid() && bn > 0.0
    ensures NetTraction(m, bn, slip) + RollingResistanceRear(m, bn, slip)
         == GrossTractionRatio(m, bn) * SlipFactor(m, slip) + 0.04
    ensures RollingResistanceRear(m, bn, 0.0) == RollingResistanceFront(bn)
  {
    RootPositive(m, bn);
    NothingOver(m.sqrt(bn));
  }

  lemma NothingOver(root: real)
    requires root != 0.0
    ensures (ROLLING_RESISTANCE_SLIP_COEFF * 0.0) / root == 0.0
  {
    assert 0.0 / root * root == 0.0;
  }

  /** The relations of a driven wheel over its wheel numeric and slip, as the solvers consume them. */
  datatype Model = Model(
    net: (real, real) -> real,
    envelope: real -> real,
    rolling: (real, real) -> real)
  {
    /** What the solvers rely on: a positive envelope, traction strictly concave in slip, rising with
    the wheel numeric, below its envelope and never the whole load. */
    ghost predicate Sound() {
      && (forall bn: real :: bn > 0.0 ==> envelope(bn) > 0.0)
      && (forall bn: real, a: real, b: real, t: real, s: real :: ConcaveAt(bn, a, b, t, s))
      && (forall low: real, high: real, slip: real :: RisingAt(low, high, slip))
      && (forall bn: real, slip: real :: BoundedAt(bn, slip))
    }

    ghost predicate ConcaveAt(bn: real, a: real, b: real, t: real, s: real) {
      bn > 0.0 && a < b && 0.0 < t < 1.0 && s == a + t * (b - a) ==>
        net(bn, s) > (1.0 - t) * net(bn, a) + t * net(bn, b)
    }

    ghost predicate RisingAt(low: real, high: real, slip: real) {
      0.0 < low <= high && slip >= 0.0 ==> net(low, slip) <= net(high, slip)
    }

    ghost predicate BoundedAt(bn: real, slip: real) {
      bn > 0.0 && slip >= 0.0 ==> net(bn, slip) < 1.0 && net(bn, slip) < envelope(bn)
    }
  }

  /** The engine's model. Non-positive wheel numerics are refused before it is consulted. */
  function Brixius(m: Maths): Model
    requires m.Valid()
  {
    Model((bn: real, slip: real) => if bn > 0.0 then NetTraction(m, bn, slip) else 0.0,
          (bn: real) => if bn > 0.0 then GrossTractionRatio(m, bn) else 0.0,
          (bn: real, slip: real) => if bn > 0.0 then RollingResistanceRear(m, bn, slip) else 0.0)
  }

  lemma BrixiusIsSound(m: Maths)
    requires m.Valid()
    ensures Brixius(m).Sound()
  {
    forall bn: real, a: real, b: real, t: real, s: real ensures Brixius(m).ConcaveAt(bn, a, b, t, s) {
      BrixiusConcave(m, bn, a, b, t, s);
    }
    forall low: real, high: real, slip: real ensures Brixius(m).RisingAt(low, high, slip) {
      if 0.0 < low <= high && slip >= 0.0 {
        NetTractionRisesWithMobility(m, low, high, slip);
      }
    }
    forall bn: real, slip: real ensures Brixius(m).BoundedAt(bn, slip) {
      if bn > 0.0 && slip >= 0.0 {
        NetTractionBelowScale(m, bn, slip);
      }
    }
  }

  lemma BrixiusConcave(m: Maths, bn: real, a: real, b: real, t: real, s: real)
    requires m.Valid()
    ensures Brixius(m).ConcaveAt(bn, a, b, t, s)
  {
    if bn > 0.0 && a < b && 0.0 < t < 1.0 && s == a + t * (b - a) {
      NetTractionConcave(m, bn, a, b, t, s);
      var net := Brixius(m).net;
      SameChord(net(bn, a), net(bn, b), net(bn, s),
                NetTraction(m, bn, a), NetTraction(m, bn, b), NetTraction(m, bn, s), t);
    }
  }

  lemma SameChord(x: real, y: real, z: real, x': real, y': real, z': real, t: real)
    requires x == x' && y == y' && z == z' && z' > (1.0 - t) * x' + t * y'
    ensures z > (1.0 - t) * x + t * y
  {
  }
}
