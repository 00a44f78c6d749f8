/** Rear ballast as a fixed point: the axle load that would develop the draft at the target slip. */
module RearBallast {
  import opened AxleLoads
  import opened Calculus
  import opened FrontBallast
  import opened Outcomes
  import opened SlipSolver
  import opened Traction

  const REAR_BALLAST_TARGET_SLIP_PCT := 15.0

  /** How the iteration R' := D / mu(R') ends. `Stalled` is the load at which the wheel numeric refuses. */
  datatype Ending = Settled(load: real) | Powerless(load: real) | Unsettled | Stalled

  /** `mu` is the net traction at the target slip as a function of the axle load. */
  function Iterate(mu: real -> real, draft: real, load: real, steps: nat): Ending
    decreases steps, load
  {
    if steps == 0 then Unsettled
    else if load <= 0.0 then Stalled
    else if mu(load) <= 0.0 then Powerless(load)
    else
      var next := draft / mu(load);
      if Abs(next - load) < BALLAST_SOLVER_TOLERANCE then Settled(next)
      else Iterate(mu, draft, next, steps - 1)
  }

  /** The iteration as the solver runs it. */
  method FixedPoint(mu: real -> real, draft: real, seed: real) returns (ending: Ending)
    ensures ending == Iterate(mu, draft, seed, BALLAST_SOLVER_MAX_ITERATIONS)
  {
    var load := seed;
    for i := 0 to BALLAST_SOLVER_MAX_ITERATIONS
      invariant Iterate(mu, draft, seed, BALLAST_SOLVER_MAX_ITERATIONS)
             == Iterate(mu, draft, load, BALLAST_SOLVER_MAX_ITERATIONS - i)
    {
      if load <= 0.0 {
        return Stalled;
      }
      if mu(load) <= 0.0 {
        return Powerless(load);
      }
      var next := draft / mu(load);
      if Abs(next - load) < BALLAST_SOLVER_TOLERANCE {
        return Settled(next);
      }
      load := next;
    }
    return Unsettled;
  }

  datatype Sizing = Sized(kg: real) | NoNetTraction | DidNotSettle

  function Seed(load: real, draft: real): real {
    if load >= draft then load else draft
  }

  function SizingOf(ending: Ending, load: real): Outcome<Sizing> {
    match ending
    case Settled(r) => Ok(Sized(if r - load > 0.0 then (r - load) / GRAVITY else 0.0))
    case Powerless(_) => Ok(NoNetTraction)
    case Unsettled => Ok(DidNotSettle)
    case Stalled => Rejected(NonPositiveInput)
  }

  /** Net traction at a target slip over the rear-axle load; each wheel carries half of it. */
  function LoadCurve(model: Model, tyre: Tyre, slip: real): (mu: real -> real)
    requires tyre.Positive()
    ensures forall r: real :: r > 0.0 ==> mu(r) == model.net(MobilityNumber(tyre, r / 2.0), slip)
  {
    (r: real) => if r > 0.0 then model.net(MobilityNumber(tyre, r / 2.0), slip) else 0.0
  }

  /** Rear ballast for a draft, a rear-axle load and a target slip (a fraction). */
  function RearBallastKg(model: Model, tyre: Tyre, load: real, draft: real, slip: real): Outcome<Sizing>
  {
    if !tyre.Positive() then
      Rejected(NonPositiveInput)
    else
      SizingOf(Iterate(LoadCurve(model, tyre, slip), draft, Seed(load, draft), BALLAST_SOLVER_MAX_ITERATIONS), load)
  }

  method RearBallastRequired(model: Model, tyre: Tyre, load: real, draft: real, slip: real)
    returns (r: Outcome<Sizing>)
    ensures r == RearBallastKg(model, tyre, load, draft, slip)
  {
    if !tyre.Positive() {
      return Rejected(NonPositiveInput);
    }
    var ending := FixedPoint(LoadCurve(model, tyre, slip), draft, Seed(load, draft));
    r := SizingOf(ending, load);
  }

  // --- The iteration over any falling curve ---

  ghost predicate NoHigher(mu: real -> real, light: real, heavy: real) {
    0.0 < light <= heavy ==> mu(heavy) <= mu(light)
  }

  /** The coefficient falls as the load rises. */
  ghost predicate Falling(mu: real -> real) {
    forall light: real, heavy: real :: NoHigher(mu, light, heavy)
  }

  function Pull(mu: real -> real, load: real): real {
    mu(load) * load
  }

  /** One step of the iteration: it goes up exactly where the pull falls short of the draft. */
  lemma Step(mu: real -> real, draft: real, load: real) returns (next: real)
    requires Falling(mu) && draft > 0.0 && load > 0.0 && mu(load) > 0.0
    ensures next == draft / mu(load) && next > 0.0
    ensures (next > load <==> Pull(mu, load) < draft) && (next < load <==> Pull(mu, load) > draft)
    ensures next >= load ==> Pull(mu, next) <= draft
    ensures next <= load ==> Pull(mu, next) >= draft && mu(next) > 0.0
  {
    QuotientPositive(draft, mu(load));
    next := draft / mu(load);
    CompareScaled(next, load, mu(load), draft);
    assert NoHigher(mu, load, next) && NoHigher(mu, next, load);
    if next >= load {
      Scale(next, mu(next), mu(load));
    }
    if next <= load {
      Scale(next, mu(load), mu(next));
    }
  }

  /** The n-th trial load, while the coefficient stays positive. */
  function Trial'(mu: real -> real, draft: real, seed: real, n: nat): Option<real> {
    if n == 0 then Some(seed)
    else match Trial'(mu, draft, seed, n - 1)
      case None => None
      case Some(r) => if r > 0.0 && mu(r) > 0.0 then Some(draft / mu(r)) else None
  }

  /** The trial loads form a monotone sequence, rising or falling with the first step. */
  lemma {:induction false} TrialLoadsAreMonotone(mu: real -> real, draft: real, seed: real, n: nat)
    requires Falling(mu) && draft > 0.0 && seed > 0.0 && mu(seed) > 0.0
    requires Trial'(mu, draft, seed, n + 1).Some?
    ensures var r, next := Trial'(mu, draft, seed, n).value, Trial'(mu, draft, seed, n + 1).value;
      && r > 0.0 && mu(r) > 0.0
      && (Pull(mu, seed) <= draft ==> seed <= r <= next && Pull(mu, r) <= draft)
      && (Pull(mu, seed) >= draft ==> seed >= r >= next && Pull(mu, r) >= draft)
  {
    var r := Trial'(mu, draft, seed, n).value;
    if n > 0 {
      TrialLoadsAreMonotone(mu, draft, seed, n - 1);
      var _ := Step(mu, draft, Trial'(mu, draft, seed, n - 1).value);
    }
    var next := Step(mu, draft, r);
  }

  /** From a load whose pull suffices the iteration only falls: it never loses traction. */
  lemma {:induction false} FallsFromSufficient(mu: real -> real, draft: real, load: real, steps: nat)
    requires Falling(mu) && draft > 0.0 && load > 0.0 && mu(load) > 0.0 && Pull(mu, load) >= draft
    ensures var e := Iterate(mu, draft, load, steps);
      e.Unsettled? || (e.Settled? && 0.0 < e.load <= load)
    decreases steps
  {
    if steps > 0 {
      var next := Step(mu, draft, load);
      FallsFromSufficient(mu, draft, next, steps - 1);
    }
  }

  /** From a load whose pull falls short it only rises, and passes no sufficient load. */
  lemma {:induction false} RisesFromShort(mu: real -> real, draft: real, load: real, steps: nat)
    requires Falling(mu) && draft > 0.0 && load > 0.0 && Pull(mu, load) <= draft
    ensures var e := Iterate(mu, draft, load, steps);
      !e.Stalled? && (e.Settled? ==> e.load >= load && (Pull(mu, load) < draft ==> e.load > load))
    decreases steps
  {
    if steps > 0 && mu(load) > 0.0 {
      var next := Step(mu, draft, load);
      RisesFromShort(mu, draft, next, steps - 1);
    }
  }

  lemma {:induction false} StaysBelowSufficient(mu: real -> real, draft: real, load: real, enough: real, steps: nat)
    requires Falling(mu) && draft > 0.0 && 0.0 < load <= enough && Pull(mu, enough) >= draft
    ensures var e := Iterate(mu, draft, load, steps);
      e.Unsettled? || (e.Settled? && e.load <= enough)
    decreases steps
  {
    if steps > 0 {
      PositiveFactor(mu(enough), enough);
      assert NoHigher(mu, load, enough);
      var next := Step(mu, draft, load);
      var top := Step(mu, draft, enough);
      QuotientMonotone(draft, mu(enough), mu(load));
      StaysBelowSufficient(mu, draft, next, enough, steps - 1);
    }
  }

  lemma PositiveFactor(x: real, y: real)
    requires y > 0.0 && x * y > 0.0
    ensures x > 0.0
  {
    if x <= 0.0 {
      Scale(y, x, 0.0);
    }
  }

  // --- The traction curve of a wheel falls with load ---

  lemma LoadCurveFalls(model: Model, tyre: Tyre, slip: real)
    requires model.Sound() && tyre.Positive() && slip >= 0.0
    ensures Falling(LoadCurve(model, tyre, slip))
    ensures forall r: real :: r > 0.0 ==> LoadCurve(model, tyre, slip)(r) < 1.0
  {
    var mu := LoadCurve(model, tyre, slip);
    forall light: real, heavy: real ensures NoHigher(mu, light, heavy) {
      if 0.0 < light <= heavy {
        MobilityFallsWithLoad(tyre, light / 2.0, heavy / 2.0);
        assert model.RisingAt(MobilityNumber(tyre, heavy / 2.0), MobilityNumber(tyre, light / 2.0), slip);
      }
    }
    forall r: real | r > 0.0 ensures mu(r) < 1.0 {
      assert model.BoundedAt(MobilityNumber(tyre, r / 2.0), slip);
    }
  }

  /** No load is pulled by its own wheels: the pull stays below the load. */
  ghost predicate BelowLoad(mu: real -> real) {
    forall r: real :: r > 0.0 ==> Pull(mu, r) < r
  }

  lemma PullBelowLoad(mu: real -> real, load: real)
    requires load > 0.0 && mu(load) < 1.0
    ensures Pull(mu, load) < load
  {
    ScaleStrict(load, mu(load), 1.0);
  }

  /** The axle load `settled` solves the equation R = D / mu(R) to the tolerance: the traction at `near`
  pulls the draft under it, and `near` itself falls short of the draft by less than the tolerance. */
  ghost predicate SolvesNear(mu: real -> real, draft: real, settled: real, near: real) {
    && 0.0 < near <= settled < near + BALLAST_SOLVER_TOLERANCE
    && mu(near) * settled == draft
    && draft - BALLAST_SOLVER_TOLERANCE < Pull(mu, near) <= draft
  }

  ghost predicate Solves(mu: real -> real, draft: real, settled: real) {
    exists near: real :: SolvesNear(mu, draft, settled, near)
  }

  /** Where the pull falls short, the load the iteration settles on solves the equation. */
  lemma {:induction false} SettledSolves(mu: real -> real, draft: real, load: real, steps: nat)
    requires Falling(mu) && BelowLoad(mu) && draft > 0.0 && load > 0.0 && Pull(mu, load) <= draft
    requires Iterate(mu, draft, load, steps).Settled?
    ensures Solves(mu, draft, Iterate(mu, draft, load, steps).load)
    decreases steps
  {
    var next := Step(mu, draft, load);
    if Abs(next - load) < BALLAST_SOLVER_TOLERANCE {
      assert mu(load) * next == draft;
      LastStep(mu, draft, load, next, mu(load));
    } else {
      SettledSolves(mu, draft, next, steps - 1);
    }
  }

  lemma LastStep(mu: real -> real, draft: real, near: real, settled: real, traction: real)
    requires BelowLoad(mu) && near > 0.0 && traction == mu(near) && traction > 0.0 && traction * settled == draft
    requires near <= settled < near + BALLAST_SOLVER_TOLERANCE
    ensures Solves(mu, draft, settled)
  {
    var pull := Pull(mu, near);
    assert pull == traction * near && pull < near;
    TractionBelowOne(traction, near);
    ShareOfGap(traction, 1.0 - traction, near, settled);
    assert SolvesNear(mu, draft, settled, near);
  }

  lemma TractionBelowOne(traction: real, load: real)
    requires load > 0.0 && traction * load < load
    ensures traction < 1.0
  {
    if traction >= 1.0 {
      Scale(load, 1.0, traction);
    }
  }

  // The complement is a parameter: sums as factors defeat the solver.
  lemma ShareOfGap(share: real, rest: real, near: real, settled: real)
    requires share > 0.0 && rest > 0.0 && share + rest == 1.0 && near <= settled
    ensures 0.0 <= share * settled - share * near <= settled - near
  {
    var part := Share(share, rest, settled - near);
    assert share * settled - share * near == part;
  }

  lemma Share(share: real, rest: real, gap: real) returns (part: real)
    requires share > 0.0 && rest > 0.0 && share + rest == 1.0 && gap >= 0.0
    ensures part == share * gap && 0.0 <= part <= gap
  {
    part := share * gap;
    NonNegative(share, gap);
    NonNegative(rest, gap);
    assert (share + rest) * gap == part + rest * gap;
  }

  lemma NonNegative(x: real, y: real)
    requires x >= 0.0 && y >= 0.0
    ensures x * y >= 0.0
  {
  }

  /** What the answer for a curve means, stated on the curve alone. */
  ghost predicate Means(mu: real -> real, load: real, draft: real, r: Sizing) {
    && (r.Sized? ==> r.kg >= 0.0 && (r.kg > 0.0 <==> Pull(mu, load) < draft))
    && (r.Sized? && r.kg > 0.0 ==> Solves(mu, draft, load + r.kg * GRAVITY))
    && (forall enough: real :: enough >= Seed(load, draft) && Pull(mu, enough) >= draft ==>
          !r.NoNetTraction? && (r.Sized? ==> load + r.kg * GRAVITY <= enough))
  }

  lemma SizingMeaning(mu: real -> real, load: real, draft: real)
    requires Falling(mu) && BelowLoad(mu) && load > 0.0 && draft > 0.0
    ensures var r := SizingOf(Iterate(mu, draft, Seed(load, draft), BALLAST_SOLVER_MAX_ITERATIONS), load);
      r.Ok? && Means(mu, load, draft, r.value)
  {
    var seed, n := Seed(load, draft), BALLAST_SOLVER_MAX_ITERATIONS;
    var e := Iterate(mu, draft, seed, n);
    if Pull(mu, seed) >= draft {
      PositiveFactor(mu(seed), seed);
      FallsFromSufficient(mu, draft, seed, n);
    } else {
      RisesFromShort(mu, draft, seed, n);
      if e.Settled? {
        SettledSolves(mu, draft, seed, n);
      }
    }
    if e.Settled? {
      KilogramsOf(e.load - load);
    }
    forall enough: real | enough >= seed && Pull(mu, enough) >= draft
      ensures !e.Powerless? && (e.Settled? ==> e.load <= enough)
    {
      StaysBelowSufficient(mu, draft, seed, enough, n);
    }
  }

  lemma KilogramsOf(gap: real)
    ensures gap > 0.0 <==> gap / GRAVITY > 0.0
    ensures gap / GRAVITY * GRAVITY == gap
  {
  }

  /** What a sized answer means for a wheel. It is positive exactly where the present axle load falls
  short of the draft at the target slip. The axle load it leads to then pulls the draft to the solver's
  tolerance, and is no more than any load, at or above the seed, that would suffice. A refusal for want
  of traction means that no such load exists. */
  lemma RearSizingMeaning(model: Model, tyre: Tyre, load: real, draft: real, slip: real)
    requires model.Sound() && tyre.Positive() && slip >= 0.0 && load > 0.0 && draft > 0.0
    ensures RearBallastKg(model, tyre, load, draft, slip).Ok?
    ensures Means(LoadCurve(model, tyre, slip), load, draft, RearBallastKg(model, tyre, load, draft, slip).value)
  {
    LoadCurveBelowLoad(model, tyre, slip);
    SizingMeaning(LoadCurve(model, tyre, slip), load, draft);
  }

  lemma LoadCurveBelowLoad(model: Model, tyre: Tyre, slip: real)
    requires model.Sound() && tyre.Positive() && slip >= 0.0
    ensures Falling(LoadCurve(model, tyre, slip)) && BelowLoad(LoadCurve(model, tyre, slip))
  {
    var mu := LoadCurve(model, tyre, slip);
    LoadCurveFalls(model, tyre, slip);
    forall r: real | r > 0.0 ensures Pull(mu, r) < r {
      PullBelowLoad(mu, r);
    }
  }

  predicate AsksForNone(r: Outcome<Sizing>) {
    r == Ok(Sized(0.0)) || r == Ok(DidNotSettle)
  }

  /** Sizing at the slip a converged search reports, as the active-passive mode does, asks for no rear
  ballast: the answer is exactly 0, or none if the iteration does not settle. */
  lemma ConvergedRunNeedsNoRearBallast(model: Model, tyre: Tyre, load: real, draft: real, s: SlipSolution)
    requires model.Sound() && draft > 0.0
    requires Solve(model, tyre, load, draft) == Ok(s) && s.converged
    ensures AsksForNone(RearBallastKg(model, tyre, load, draft, s.slipPct / 100.0))
  {
    var slip := s.slipPct / 100.0;
    ConvergedRunPulls(model, tyre, load, draft, s);
    var mu := LoadCurve(model, tyre, slip);
    PullOfValue(mu, load, s.mu, draft);
    LoadCurveBelowLoad(model, tyre, slip);
    SufficientLoadNeedsNone(mu, load, draft);
  }

  lemma PullOfValue(mu: real -> real, load: real, value: real, draft: real)
    requires mu(load) == value && value * load >= draft
    ensures Pull(mu, load) >= draft
  {
  }

  lemma SufficientLoadNeedsNone(mu: real -> real, load: real, draft: real)
    requires Falling(mu) && BelowLoad(mu) && load > 0.0 && draft > 0.0 && Pull(mu, load) >= draft
    ensures AsksForNone(SizingOf(Iterate(mu, draft, Seed(load, draft), BALLAST_SOLVER_MAX_ITERATIONS), load))
  {
    SizingMeaning(mu, load, draft);
    assert load >= Seed(load, draft);
  }
}
