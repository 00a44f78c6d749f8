/** Front ballast by bracketing and bisection, and the fitting of it when the front axle lifts. */
module FrontBallast {
  import opened AxleLoads
  import opened Calculus
  import opened Outcomes
  import opened Traction

  const FRONT_BALLAST_TARGET_KWEF := 0.20
  const BALLAST_SOLVER_TOLERANCE := 0.0001
  const BALLAST_SOLVER_MAX_ITERATIONS := 200
  const BRACKET_START := 5000.0
  const BRACKET_GROWTH := 1.6
  const BRACKET_TESTS := 40

  function Pow(base: real, n: nat): real {
    if n == 0 then 1.0 else base * Pow(base, n - 1)
  }

  /** The bracket's upper end: the first of 5000, 5000 * 1.6, ... that reaches, out of `tests`. */
  function Bracket(reach: real -> bool, hi: real, tests: nat): Option<real>
    decreases tests, hi
  {
    if tests == 0 then None
    else if reach(hi) then Some(hi)
    else Bracket(reach, hi * BRACKET_GROWTH, tests - 1)
  }

  /** Bisection until the bracket is narrower than the tolerance, at most `steps` halvings. */
  function Bisect(reach: real -> bool, lo: real, hi: real, steps: nat): (real, real)
    decreases steps, hi
  {
    var mid := (lo + hi) / 2.0;
    if steps == 0 || hi - lo < BALLAST_SOLVER_TOLERANCE then (lo, hi)
    else if reach(mid) then Bisect(reach, lo, mid, steps - 1)
    else Bisect(reach, mid, hi, steps - 1)
  }

  /** The mass the solver reports for a target that a mass either reaches or does not. */
  function LeastMass(reach: real -> bool): Option<real> {
    if reach(0.0) then
      Some(0.0)
    else
      match Bracket(reach, BRACKET_START, BRACKET_TESTS)
      case None => None
      case Some(hi) =>
        var (lo, hi') := Bisect(reach, 0.0, hi, BALLAST_SOLVER_MAX_ITERATIONS);
        Some((lo + hi') / 2.0)
  }

  /** The bracketing loop: widen the upper end until it reaches, 40 tests at most. */
  method FindBracket(reach: real -> bool) returns (top: Option<real>)
    ensures top == Bracket(reach, BRACKET_START, BRACKET_TESTS)
  {
    var hi := BRACKET_START;
    for i := 0 to BRACKET_TESTS
      invariant Bracket(reach, BRACKET_START, BRACKET_TESTS) == Bracket(reach, hi, BRACKET_TESTS - i)
    {
      if reach(hi) {
        return Some(hi);
      }
      hi := hi * BRACKET_GROWTH;
    }
    return None;
  }

  /** The bisection loop. */
  method NarrowBracket(reach: real -> bool, top: real) returns (lo: real, hi: real)
    ensures (lo, hi) == Bisect(reach, 0.0, top, BALLAST_SOLVER_MAX_ITERATIONS)
  {
    lo, hi := 0.0, top;
    for i := 0 to BALLAST_SOLVER_MAX_ITERATIONS
      invariant Bisect(reach, 0.0, top, BALLAST_SOLVER_MAX_ITERATIONS)
             == Bisect(reach, lo, hi, BALLAST_SOLVER_MAX_ITERATIONS - i)
    {
      var mid := (lo + hi) / 2.0;
      if hi - lo < BALLAST_SOLVER_TOLERANCE {
        break;
      }
      if !reach(mid) {
        lo := mid;
      } else {
        hi := mid;
      }
    }
  }

  method SolveLeastMass(reach: real -> bool) returns (mass: Option<real>)
    ensures mass == LeastMass(reach)
  {
    if reach(0.0) {
      return Some(0.0);
    }
    var top := FindBracket(reach);
    if top.None? {
      return None;
    }
    var lo, hi := NarrowBracket(reach, top.value);
    return Some((lo + hi) / 2.0);
  }

  /** `reach` holds from `least` on, and nowhere before. */
  ghost predicate ReachesFrom(reach: real -> bool, least: real) {
    forall mass: real :: mass >= 0.0 ==> (reach(mass) <==> mass >= least)
  }

  /** When a least sufficient mass exists the solver finds it to within half the tolerance, unless it
  lies above the search ceiling; 200 halvings always narrow the bracket far enough. */
  lemma LeastMassFound(reach: real -> bool, least: real)
    requires least > 0.0 && ReachesFrom(reach, least)
    ensures var r := LeastMass(reach);
      && (r.None? <==> least > BRACKET_START * Pow(BRACKET_GROWTH, BRACKET_TESTS - 1))
      && (r.Some? ==> -0.5 * BALLAST_SOLVER_TOLERANCE < r.value - least <= 0.5 * BALLAST_SOLVER_TOLERANCE)
  {
    BracketFromStart(reach, least);
    match Bracket(reach, BRACKET_START, BRACKET_TESTS)
    case None =>
    case Some(hi) =>
      BracketStaysSmall();
      BisectionCloses(reach, least, 0.0, hi, BALLAST_SOLVER_MAX_ITERATIONS);
  }

  /** When no mass reaches the target the solver says so. */
  lemma NoMassReported(reach: real -> bool)
    requires forall mass: real :: mass >= 0.0 ==> !reach(mass)
    ensures LeastMass(reach) == None
  {
    BracketFindsNothing(reach, BRACKET_START, BRACKET_TESTS);
  }

  lemma {:induction false} BracketFindsNothing(reach: real -> bool, hi: real, tests: nat)
    requires hi > 0.0 && forall mass: real :: mass >= 0.0 ==> !reach(mass)
    ensures Bracket(reach, hi, tests) == None
    decreases tests
  {
    if tests > 0 {
      BracketFindsNothing(reach, hi * BRACKET_GROWTH, tests - 1);
    }
  }

  /** The upper end after n widenings. */
  function Ceiling(growth: real, hi: real, n: nat): real
    decreases n
  {
    if n == 0 then hi else Ceiling(growth, hi * growth, n - 1)
  }

  lemma {:induction false} CeilingIsPower(growth: real, hi: real, n: nat)
    ensures Ceiling(growth, hi, n) == hi * Pow(growth, n)
    decreases n
  {
    if n > 0 {
      CeilingIsPower(growth, hi * growth, n - 1);
      Reassociate(hi, growth, Pow(growth, n - 1));
    }
  }

  lemma Reassociate(x: real, y: real, z: real)
    ensures (x * y) * z == x * (y * z)
  {
  }

  lemma {:induction false} CeilingGrows(growth: real, lo: real, hi: real, n: nat)
    requires growth >= 1.0 && 0.0 < lo <= hi
    ensures lo <= Ceiling(growth, lo, n) <= Ceiling(growth, hi, n)
    decreases n
  {
    if n > 0 {
      var next, next' := Widened(growth, lo, hi);
      CeilingGrows(growth, next, next', n - 1);
    }
  }

  lemma Widened(growth: real, lo: real, hi: real) returns (next: real, next': real)
    requires growth >= 1.0 && 0.0 < lo <= hi
    ensures next == lo * growth && next' == hi * growth && lo <= next <= next'
  {
    next, next' := lo * growth, hi * growth;
    Scale(growth, lo, hi);
    var gain := SharePositive(growth - 1.0, lo);
    assert next == lo + gain;
  }

  lemma {:induction false} BracketFindsCeiling(reach: real -> bool, least: real, hi: real, tests: nat)
    requires hi > 0.0 && ReachesFrom(reach, least) && tests > 0
    ensures var r := Bracket(reach, hi, tests);
      && (r.None? <==> least > Ceiling(BRACKET_GROWTH, hi, tests - 1))
      && (r.Some? ==> r.value >= least && 0.0 < r.value <= Ceiling(2.0, hi, tests - 1))
    decreases tests
  {
    CeilingGrows(BRACKET_GROWTH, hi, hi, tests - 1);
    CeilingGrows(2.0, hi, hi, tests - 1);
    assert reach(hi) <==> hi >= least;
    if tests > 1 && !reach(hi) {
      BracketFindsCeiling(reach, least, hi * BRACKET_GROWTH, tests - 1);
      CeilingGrows(2.0, hi * BRACKET_GROWTH, hi * 2.0, tests - 2);
    }
  }

  /** The bracket the solver starts with. */
  lemma BracketFromStart(reach: real -> bool, least: real)
    requires ReachesFrom(reach, least)
    ensures var r := Bracket(reach, BRACKET_START, BRACKET_TESTS);
      && (r.None? <==> least > BRACKET_START * Pow(BRACKET_GROWTH, BRACKET_TESTS - 1))
      && (r.Some? ==> r.value >= least && 0.0 < r.value <= BRACKET_START * Pow(2.0, BRACKET_TESTS - 1))
  {
    BracketFindsCeiling(reach, least, BRACKET_START, BRACKET_TESTS);
    CeilingIsPower(BRACKET_GROWTH, BRACKET_START, BRACKET_TESTS - 1);
    CeilingIsPower(2.0, BRACKET_START, BRACKET_TESTS - 1);
  }

  lemma {:induction false} PowPositive(n: nat)
    ensures Pow(BRACKET_GROWTH, n) >= 1.0 && Pow(2.0, n) >= 1.0
  {
    if n > 0 {
      PowPositive(n - 1);
    }
  }

  lemma {:induction false} PowAdds(a: nat, b: nat)
    ensures Pow(2.0, a + b) == Pow(2.0, a) * Pow(2.0, b)
  {
    if a > 0 {
      PowAdds(a - 1, b);
    }
  }

  /** 5000 * 2^39 is below the tolerance doubled 200 times. */
  lemma BracketStaysSmall()
    ensures BRACKET_START * Pow(2.0, BRACKET_TESTS - 1)
          < BALLAST_SOLVER_TOLERANCE * Pow(2.0, BALLAST_SOLVER_MAX_ITERATIONS)
  {
    var p := Pow(2.0, 39);
    PowPositive(39);
    PowPositive(135);
    PowAdds(13, 13);
    assert Pow(2.0, 13) == 8192.0;
    PowAdds(26, 39);
    PowAdds(65, 135);
    var q := Pow(2.0, 65);
    assert q == 67108864.0 * p;
    Scale(q, 1.0, Pow(2.0, 135));
  }

  lemma {:induction false} BisectionCloses(reach: real -> bool, least: real, lo: real, hi: real, steps: nat)
    requires 0.0 <= lo < least <= hi && ReachesFrom(reach, least)
    requires hi - lo < BALLAST_SOLVER_TOLERANCE * Pow(2.0, steps)
    ensures var (lo', hi') := Bisect(reach, lo, hi, steps);
      0.0 <= lo' < least <= hi' && hi' - lo' < BALLAST_SOLVER_TOLERANCE
    decreases steps
  {
    var mid := (lo + hi) / 2.0;
    if steps > 0 && hi - lo >= BALLAST_SOLVER_TOLERANCE {
      assert Pow(2.0, steps) == 2.0 * Pow(2.0, steps - 1);
      if reach(mid) {
        BisectionCloses(reach, least, lo, mid, steps - 1);
      } else {
        BisectionCloses(reach, least, mid, hi, steps - 1);
      }
    }
  }

  /** Kwef = Rf / (Wt + ballast) with `mass` kg of front ballast reaches the 0.20 target. */
  function Utilisation(b: Balance, mass: real): real
    requires b.Span() != 0.0 && b.tractorWeight > 0.0 && mass >= 0.0
  {
    b.FrontLoad(mass * GRAVITY) / (b.tractorWeight + mass * GRAVITY)
  }

  function TargetReached(b: Balance): (reach: real -> bool)
    requires b.Span() != 0.0 && b.tractorWeight > 0.0
    ensures forall mass: real :: mass >= 0.0 ==> (reach(mass) <==> Utilisation(b, mass) >= FRONT_BALLAST_TARGET_KWEF)
  {
    (mass: real) => mass >= 0.0 && Utilisation(b, mass) - FRONT_BALLAST_TARGET_KWEF >= 0.0
  }

  /** Front ballast in kg for a balance; None when no ballast within the ceiling reaches the target. */
  function FrontBallastKg(b: Balance): Option<real>
    requires b.Span() != 0.0 && b.tractorWeight > 0.0
  {
    LeastMass(TargetReached(b))
  }

  method FrontBallastRequired(b: Balance) returns (kg: Option<real>)
    requires b.Span() != 0.0 && b.tractorWeight > 0.0
    ensures kg == FrontBallastKg(b)
  {
    kg := SolveLeastMass(TargetReached(b));
  }

  /** The least mass that reaches the target, solved from the affine front load. */
  function ClosedFormKg(b: Balance): real
    requires b.Span() != 0.0 && b.FrontShare() > FRONT_BALLAST_TARGET_KWEF
  {
    (FRONT_BALLAST_TARGET_KWEF * b.tractorWeight - b.FrontLoad(0.0))
    / ((b.FrontShare() - FRONT_BALLAST_TARGET_KWEF) * GRAVITY)
  }

  /** A mass reaches the target when what it adds to the front axle, beyond what it adds to the
  target, makes up the present shortfall. */
  lemma TargetAsShortfall(b: Balance, mass: real)
    requires b.Span() != 0.0 && b.tractorWeight > 0.0 && mass >= 0.0
    ensures TargetReached(b)(mass) <==>
      (b.FrontShare() - FRONT_BALLAST_TARGET_KWEF) * (mass * GRAVITY)
      >= FRONT_BALLAST_TARGET_KWEF * b.tractorWeight - b.FrontLoad(0.0)
  {
    var x := mass * GRAVITY;
    b.LoadsAreAffine(x);
    QuotientAtLeast(b.FrontLoad(x), b.tractorWeight + x, FRONT_BALLAST_TARGET_KWEF);
    ShareBeyondTarget(b.FrontShare(), x);
  }

  lemma ShareBeyondTarget(share: real, x: real)
    ensures (share - FRONT_BALLAST_TARGET_KWEF) * x == share * x - FRONT_BALLAST_TARGET_KWEF * x
  {
  }

  lemma QuotientAtLeast(x: real, y: real, k: real)
    requires y > 0.0
    ensures x / y >= k <==> x >= k * y
  {
    CompareScaled(x / y, k, y, x);
  }

  lemma QuotientAtMost(x: real, y: real, k: real)
    requires y > 0.0
    ensures x / y <= k <==> x <= k * y
  {
    CompareScaled(x / y, k, y, x);
  }

  lemma CompareScaled(q: real, k: real, y: real, x: real)
    requires y > 0.0 && q * y == x
    ensures (q >= k <==> x >= k * y) && (q <= k <==> x <= k * y)
  {
    if q > k {
      ScaleStrict(y, k, q);
    } else if q < k {
      ScaleStrict(y, q, k);
    }
  }

  lemma ClosedFormIsThreshold(b: Balance)
    requires b.Span() != 0.0 && b.tractorWeight > 0.0 && b.FrontShare() > FRONT_BALLAST_TARGET_KWEF
    requires b.FrontLoad(0.0) < FRONT_BALLAST_TARGET_KWEF * b.tractorWeight
    ensures ClosedFormKg(b) > 0.0 && ReachesFrom(TargetReached(b), ClosedFormKg(b))
  {
    var gap := FRONT_BALLAST_TARGET_KWEF * b.tractorWeight - b.FrontLoad(0.0);
    var slope := (b.FrontShare() - FRONT_BALLAST_TARGET_KWEF) * GRAVITY;
    QuotientPositive(gap, slope);
    forall mass: real | mass >= 0.0
      ensures TargetReached(b)(mass) <==> mass >= ClosedFormKg(b)
    {
      TargetAsShortfall(b, mass);
      Reassociated(b.FrontShare() - FRONT_BALLAST_TARGET_KWEF, mass);
      QuotientAtMost(gap, slope, mass);
    }
  }

  lemma Reassociated(e: real, mass: real)
    ensures e * (mass * GRAVITY) == mass * (e * GRAVITY)
  {
  }

  /** With the least mass in front, the front axle carries a fifth of tractor and ballast. */
  lemma LeastMassCarriesAFifth(b: Balance)
    requires b.Span() != 0.0 && b.FrontShare() > 0.2
    ensures var extra := ClosedFormKg(b) * 9.81; b.FrontLoad(extra) == 0.2 * (b.tractorWeight + extra)
  {
    var short, gain := 0.2 * b.tractorWeight - b.FrontLoad(0.0), b.FrontShare() - 0.2;
    var extra := ClosedFormKg(b) * 9.81;
    b.LoadsAreAffine(extra);
    Cancels(short, gain * GRAVITY);
    AtThreshold(ClosedFormKg(b), extra, b.FrontShare(), gain, short);
  }

  lemma AtThreshold(mass: real, extra: real, share: real, gain: real, short: real)
    requires mass * (gain * GRAVITY) == short && extra == mass * GRAVITY && gain == share - 0.2
    ensures share * extra == short + 0.2 * extra
  {
    assert gain * extra == mass * (gain * GRAVITY);
    assert gain * extra == share * extra - 0.2 * extra;
  }

  /** The bisection agrees with the closed form on every balance: no ballast where the target is
  already met, a refusal exactly where no mass within the ceiling reaches it, and otherwise the least
  sufficient mass to within half the tolerance. */
  lemma FrontBallastMatchesClosedForm(b: Balance)
    requires b.Span() != 0.0 && b.tractorWeight > 0.0
    ensures b.FrontLoad(0.0) >= 0.2 * b.tractorWeight ==> FrontBallastKg(b) == Some(0.0)
    ensures b.FrontLoad(0.0) < 0.2 * b.tractorWeight ==>
      if b.FrontShare() <= 0.2 then
        FrontBallastKg(b) == None
      else
        var least, found := ClosedFormKg(b), FrontBallastKg(b);
        && ReachesFrom(TargetReached(b), least)
        && (found.None? <==> least > 5000.0 * Pow(1.6, 39))
        && (found.Some? ==> -0.00005 < found.value - least <= 0.00005)
  {
    TargetAsShortfall(b, 0.0);
    if b.FrontLoad(0.0) < FRONT_BALLAST_TARGET_KWEF * b.tractorWeight {
      if b.FrontShare() <= FRONT_BALLAST_TARGET_KWEF {
        forall mass: real | mass >= 0.0 ensures !TargetReached(b)(mass) {
          TargetAsShortfall(b, mass);
          Scale(mass * GRAVITY, b.FrontShare() - FRONT_BALLAST_TARGET_KWEF, 0.0);
        }
        NoMassReported(TargetReached(b));
      } else {
        ClosedFormIsThreshold(b);
        LeastMassFound(TargetReached(b), ClosedFormKg(b));
      }
    }
  }

  datatype AxleResolution = AxleResolution(rear: real, front: real, stabilisingKg: real, lifted: bool)

  /** Axle loads of a balance, with stabilising front ballast fitted when the draft lifts the front. */
  function ResolveAxleLoads(b: Balance): Outcome<AxleResolution> {
    if b.Span() == 0.0 then Rejected(DegenerateGeometry)
    else if b.RearLoad(0.0) <= 0.0 then Rejected(RearAxleLifts)
    else if b.FrontLoad(0.0) > 0.0 then Ok(AxleResolution(b.RearLoad(0.0), b.FrontLoad(0.0), 0.0, false))
    else if b.tractorWeight <= 0.0 then Rejected(NonPositiveInput)
    else
      match FrontBallastKg(b)
      case None => Rejected(FrontAxleLifts)
      case Some(kg) => Ok(AxleResolution(b.RearLoad(kg * GRAVITY), b.FrontLoad(kg * GRAVITY), kg, true))
  }

  /** Resolution never reports a lifted axle: both loads come out strictly positive and add up to the
  whole weight on the ground, fitted ballast included. Needs a positive effective wheelbase, a centre
  of gravity no further forward than L + ef, and a tractor of at least 1 N. */
  lemma ResolvedLoadsArePositive(b: Balance)
    requires b.Span() > 0.0 && b.cgFromRear <= b.wheelbase + b.frontOffset && b.tractorWeight >= 1.0
    requires ResolveAxleLoads(b).Ok?
    ensures var r := ResolveAxleLoads(b).value;
      && r.rear > 0.0 && r.front > 0.0 && r.stabilisingKg >= 0.0
      && r.rear + r.front == b.TotalLoad(r.stabilisingKg * GRAVITY)
      && (r.lifted <==> b.FrontLoad(0.0) <= 0.0)
  {
    var r := ResolveAxleLoads(b).value;
    if r.lifted {
      var least := LeastForLiftedFront(b);
      BallastedRear(b, r.stabilisingKg * GRAVITY);
      BallastedFront(b, least, r.stabilisingKg);
    }
  }

  lemma LeastForLiftedFront(b: Balance) returns (least: real)
    requires b.Span() != 0.0 && b.tractorWeight > 0.0
    requires b.FrontLoad(0.0) <= 0.0 && FrontBallastKg(b).Some?
    ensures b.FrontShare() > FRONT_BALLAST_TARGET_KWEF && least > 0.0 && TargetReached(b)(least)
    ensures FrontBallastKg(b).value >= 0.0 && FrontBallastKg(b).value > least - 0.00005
  {
    FrontBallastMatchesClosedForm(b);
    ClosedFormIsThreshold(b);
    least := ClosedFormKg(b);
    LeastMassNonNegative(TargetReached(b), least);
  }

  lemma BallastedRear(b: Balance, extra: real)
    requires b.Span() > 0.0 && b.cgFromRear <= b.wheelbase + b.frontOffset && extra >= 0.0
    ensures b.RearLoad(extra) >= b.RearLoad(0.0)
  {
    RearShareNonNegative(b);
    b.LoadsAreAffine(extra);
    var shift := SharePositive(b.RearShare(), extra);
  }

  lemma SharePositive(share: real, extra: real) returns (shift: real)
    requires share >= 0.0 && extra >= 0.0
    ensures shift == share * extra && shift >= 0.0
  {
    shift := share * extra;
  }

  lemma BallastedFront(b: Balance, least: real, kg: real)
    requires b.Span() > 0.0 && b.cgFromRear <= b.wheelbase + b.frontOffset && b.tractorWeight >= 1.0
    requires b.FrontShare() > FRONT_BALLAST_TARGET_KWEF
    requires least > 0.0 && TargetReached(b)(least) && kg > least - 0.00005
    ensures b.FrontLoad(kg * GRAVITY) > 0.0
  {
    FrontShareAtMostOne(b);
    var x, y := least * GRAVITY, kg * GRAVITY;
    var front, share, atX := Shortfall(b, least, x);
    var load := FrontStaysLoaded(front, share, b.tractorWeight, x, y, atX);
    AffineFront(b, y, front, share, load);
  }

  lemma FrontShareAtMostOne(b: Balance)
    requires b.Span() > 0.0 && b.cgFromRear <= b.wheelbase + b.frontOffset
    ensures b.FrontShare() <= 1.0
  {
    RearShareNonNegative(b);
    b.SharesAddUp();
  }

  lemma Shortfall(b: Balance, least: real, x: real) returns (front: real, share: real, atX: real)
    requires b.Span() != 0.0 && b.tractorWeight > 0.0
    requires least > 0.0 && TargetReached(b)(least) && x == least * GRAVITY
    ensures front == b.FrontLoad(0.0) && share == b.FrontShare() && atX == share * x
    ensures atX - FRONT_BALLAST_TARGET_KWEF * x >= FRONT_BALLAST_TARGET_KWEF * b.tractorWeight - front
  {
    front, share, atX := b.FrontLoad(0.0), b.FrontShare(), b.FrontShare() * x;
    TargetAsShortfall(b, least);
    ShareBeyondTarget(share, x);
  }

  lemma AffineFront(b: Balance, extra: real, front: real, share: real, load: real)
    requires b.Span() != 0.0 && front == b.FrontLoad(0.0) && share == b.FrontShare()
    requires load == front + share * extra
    ensures b.FrontLoad(extra) == load
  {
    b.LoadsAreAffine(extra);
  }

  lemma RearShareNonNegative(b: Balance)
    requires b.Span() > 0.0 && b.cgFromRear <= b.wheelbase + b.frontOffset
    ensures b.RearShare() >= 0.0
  {
    QuotientAtLeast(b.wheelbase + b.frontOffset - b.cgFromRear, b.Span(), 0.0);
  }

  /** Being 5 * 10^-5 kg short of the least mass costs far less than the 20% margin it buys. */
  lemma FrontStaysLoaded(front: real, share: real, weight: real, x: real, y: real, atX: real) returns (load: real)
    requires weight >= 1.0 && FRONT_BALLAST_TARGET_KWEF < share <= 1.0 && x > 0.0 && atX == share * x
    requires atX - FRONT_BALLAST_TARGET_KWEF * x >= FRONT_BALLAST_TARGET_KWEF * weight - front
    requires y >= x - 0.0005
    ensures load == front + share * y && load > 0.0
  {
    Scale(share, x - 0.0005, y);
    ShortBy(share, x, x - 0.0005);
    MarginCoversShortfall(front, share, weight, x, atX, share * y, share * (x - 0.0005));
    load := front + share * y;
  }

  lemma MarginCoversShortfall(front: real, share: real, weight: real, x: real, atX: real, atY: real, atZ: real)
    requires weight >= 1.0 && share <= 1.0 && x > 0.0
    requires atX - FRONT_BALLAST_TARGET_KWEF * x >= FRONT_BALLAST_TARGET_KWEF * weight - front
    requires atY >= atZ && atZ == atX - 0.0005 * share
    ensures front + atY > 0.0
  {
  }

  lemma ShortBy(share: real, x: real, z: real)
    requires z == x - 0.0005
    ensures share * z == share * x - 0.0005 * share
  {
  }

  lemma LeastMassNonNegative(reach: real -> bool, least: real)
    requires least > 0.0 && ReachesFrom(reach, least) && LeastMass(reach).Some?
    ensures LeastMass(reach).value >= 0.0
  {
    if !reach(0.0) {
      BracketFromStart(reach, least);
      BracketStaysSmall();
      BisectionCloses(reach, least, 0.0, Bracket(reach, BRACKET_START, BRACKET_TESTS).value,
                      BALLAST_SOLVER_MAX_ITERATIONS);
    }
  }

  // --- Balances that load the axles alike ---

  ghost predicate SameReach(f: real -> bool, g: real -> bool) {
    forall mass: real :: f(mass) == g(mass)
  }

  lemma {:induction false} BracketDependsOnReach(f: real -> bool, g: real -> bool, hi: real, tests: nat)
    requires SameReach(f, g)
    ensures Bracket(f, hi, tests) == Bracket(g, hi, tests)
    decreases tests
  {
    if tests > 0 {
      assert f(hi) == g(hi);
      BracketDependsOnReach(f, g, hi * BRACKET_GROWTH, tests - 1);
    }
  }

  lemma {:induction false} BisectDependsOnReach(f: real -> bool, g: real -> bool, lo: real, hi: real, steps: nat)
    requires SameReach(f, g)
    ensures Bisect(f, lo, hi, steps) == Bisect(g, lo, hi, steps)
    decreases steps
  {
    if steps > 0 {
      var mid := (lo + hi) / 2.0;
      assert f(mid) == g(mid);
      BisectDependsOnReach(f, g, lo, mid, steps - 1);
      BisectDependsOnReach(f, g, mid, hi, steps - 1);
    }
  }

  /** The search depends on nothing but which masses reach. */
  lemma LeastMassDependsOnReach(f: real -> bool, g: real -> bool)
    requires SameReach(f, g)
    ensures LeastMass(f) == LeastMass(g)
  {
    assert f(0.0) == g(0.0);
    BracketDependsOnReach(f, g, BRACKET_START, BRACKET_TESTS);
    match Bracket(f, BRACKET_START, BRACKET_TESTS)
    case None =>
    case Some(hi) => BisectDependsOnReach(f, g, 0.0, hi, BALLAST_SOLVER_MAX_ITERATIONS);
  }

  /** Equal loads on both axles at every amount of ballast. */
  ghost predicate SameLoads(b: Balance, c: Balance) {
    && c.Span() == b.Span() && c.tractorWeight == b.tractorWeight
    && c.implementWeight == b.implementWeight && c.soilReaction == b.soilReaction
    && (b.Span() != 0.0 ==> forall extra: real :: c.RearLoad(extra) == b.RearLoad(extra))
  }

  lemma SameLoadsSameBallast(b: Balance, c: Balance)
    requires SameLoads(b, c) && b.Span() != 0.0 && b.tractorWeight > 0.0
    ensures FrontBallastKg(c) == FrontBallastKg(b)
  {
    forall mass: real ensures TargetReached(c)(mass) == TargetReached(b)(mass) {
      if mass >= 0.0 {
        assert c.RearLoad(mass * GRAVITY) == b.RearLoad(mass * GRAVITY);
        assert Utilisation(c, mass) == Utilisation(b, mass);
      }
    }
    LeastMassDependsOnReach(TargetReached(c), TargetReached(b));
  }

  lemma SameLoadsSameAxles(b: Balance, c: Balance)
    requires SameLoads(b, c)
    ensures ResolveAxleLoads(c) == ResolveAxleLoads(b)
  {
    if b.Span() != 0.0 && b.tractorWeight > 0.0 {
      SameLoadsSameBallast(b, c);
    }
  }

  /** Where a resolution puts the loads: at the ballast it reports. */
  lemma ResolvedAtItsBallast(b: Balance)
    requires ResolveAxleLoads(b).Ok?
    ensures b.Span() != 0.0
    ensures var r := ResolveAxleLoads(b).value; var extra := r.stabilisingKg * GRAVITY;
      r.rear == b.RearLoad(extra) && r.front == b.FrontLoad(extra)
  {
  }
}
