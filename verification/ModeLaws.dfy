/** What holds of whole runs, and how the three modes relate. */
module ModeLaws {
  import opened AxleLoads
  import opened Calculus
  import opened FrontBallast
  import opened Modes
  import opened Outcomes
  import opened PowerFuel
  import opened RearBallast
  import opened SlipSolver
  import opened Traction

  // --- Exchanging the two passive tools ---

  function DraftsSwapped(r: Outcome<PairReport>): Outcome<PairReport> {
    match r
    case Ok(p) => Ok(PairReport(p.draft2, p.draft1, p.report))
    case Rejected(_) => r
  }

  /** The order in which two towed tools are entered changes nothing but the places of their drafts. */
  lemma SwappingToolsSwapsOnlyDrafts(
    m: Maths, model: Model, t: Tractor, f: Field, t1: Tool, t2: Tool, ki: real, override: Option<real>)
    ensures PassivePassiveRun(m, model, t, f, t2, t1, ki, override)
         == DraftsSwapped(PassivePassiveRun(m, model, t, f, t1, t2, ki, override))
  {
    SwappedJob(t, f, t1, t2, ki, override);
  }

  lemma SwappedJob(t: Tractor, f: Field, t1: Tool, t2: Tool, ki: real, override: Option<real>)
    ensures PassivePassiveJob(t, f, t1, t2, ki, override) == PassivePassiveJob(t, f, t2, t1, ki, override)
  {
    CombinedCgIsSymmetric(t1.Weight(), t1.cg, t2.Weight(), t2.cg);
    if Draft(t1, f).Ok? && Draft(t2, f).Ok? {
      SumScaled(1.0 - ki, Draft(t1, f).value, Draft(t2, f).value);
    }
  }

  lemma CombinedCgIsSymmetric(w1: real, x1: real, w2: real, x2: real)
    ensures CombinedCg(w1, x1, w2, x2) == CombinedCg(w2, x2, w1, x1)
  {
    assert w1 + w2 == w2 + w1;
    assert w1 * x1 + w2 * x2 == w2 * x2 + w1 * x1;
  }

  lemma SumScaled(k: real, x: real, y: real)
    ensures k * (x + y) == k * (y + x)
  {
    assert x + y == y + x;
  }

  // --- A second tool that is not there ---

  /** A tool that weighs nothing, drags nothing and is no wider than the first. */
  predicate NullTool(t2: Tool, t1: Tool) {
    && t2.weightKg == 0.0 && t2.a == 0.0 && t2.b == 0.0 && t2.c == 0.0
    && 0.0 < t2.width <= t1.width && SoilReactionRatio(t2).Ok?
  }

  predicate NoOverride(override: Option<real>) {
    override.None? || override.value <= 0.0
  }

  lemma NullToolHasNoDraft(t2: Tool, t1: Tool, f: Field)
    requires NullTool(t2, t1) && f.speed > 0.0 && f.depth > 0.0
    ensures Draft(t2, f) == Ok(0.0)
  {
    NoTerms(f.speed, f.speed * f.speed);
    assert SoilFactor(f.texture) * 0.0 * t2.width * f.depth == 0.0 by {
      assert SoilFactor(f.texture) * 0.0 == 0.0;
    }
  }

  lemma NoTerms(v: real, square: real)
    ensures 0.0 + 0.0 * v + 0.0 * square == 0.0
  {
  }

  lemma CgOfOne(w: real, x: real, w2: real, x2: real)
    requires w2 == 0.0
    ensures CombinedCg(w, x, w2, x2) == if w > 0.0 then x else 0.0
  {
    if w > 0.0 {
      NoReaction(x2);
      assert w * x + w2 * x2 == w * x;
      assert w * x / w == x;
    }
  }

  /** Pairing a tool with a null one, without interaction, tows the same job except for where the centre
  of gravity is taken to be when the first tool is entered without weight: at the hitch. */
  lemma NullToolJob(t: Tractor, f: Field, t1: Tool, t2: Tool, override: Option<real>)
    requires NullTool(t2, t1) && NoOverride(override)
    ensures var pair, one := PassivePassiveJob(t, f, t1, t2, 0.0, override), SingleJob(t, f, t1);
      && (pair.Rejected? <==> one.Rejected?)
      && (one.Rejected? ==> pair == one)
      && (one.Ok? ==>
            var cg := if t1.weightKg > 0.0 then t1.cg else 0.0;
            pair == Ok(one.value.(balance := one.value.balance.(implementCg := cg))))
  {
    if CommonInputsPositive(t, f) && Draft(t1, f).Ok? {
      var d1 := Draft(t1, f).value;
      NullToolHasNoDraft(t2, t1, f);
      assert CombinedDraft(d1, 0.0, 0.0) == Ok(d1);
      CgOfOne(t1.Weight(), t1.cg, t2.Weight(), t2.cg);
      NoReaction(SoilReactionRatio(t2).value);
      assert t1.weightKg > 0.0 <==> t1.Weight() > 0.0;
    }
  }

  lemma NoReaction(ratio: real)
    ensures ratio * 0.0 == 0.0
  {
  }

  /** A single-implement report as a pair whose second tool drags nothing. */
  function AsPair(r: Outcome<Report>): Outcome<PairReport> {
    match r
    case Ok(one) => Ok(PairReport(one.draft, 0.0, one))
    case Rejected(reason) => Rejected(reason)
  }

  /** The hitched load has no moment to lose: the first tool is entered with a weight, or sits at the
  hitch, or nothing hangs there at all. */
  predicate NoMomentToLose(t1: Tool, one: Balance) {
    t1.weightKg > 0.0 || t1.cg == 0.0 || one.implementWeight + one.soilReaction == 0.0
  }

  /** A passive-passive run whose second tool is null, with no interaction and no width override, is the
  single-implement run of the first tool, field for field and warning for warning, exactly where the
  hitched load has no moment to lose. A first tool entered without weight otherwise has its centre of
  gravity taken to be at the hitch. */
  lemma NullSecondTool(m: Maths, model: Model, t: Tractor, f: Field, t1: Tool, t2: Tool, override: Option<real>)
    requires NullTool(t2, t1) && NoOverride(override)
    ensures var pair, one :=
        PassivePassiveRun(m, model, t, f, t1, t2, 0.0, override), AsPair(SingleRun(m, model, t, f, t1));
      var job := SingleJob(t, f, t1);
      && (job.Rejected? || NoMomentToLose(t1, job.value.balance) ==> pair == one)
      && (one.Ok? ==> (pair == one <==> NoMomentToLose(t1, job.value.balance)))
  {
    NullToolJob(t, f, t1, t2, override);
    if SingleJob(t, f, t1).Ok? {
      var job := SingleJob(t, f, t1).value;
      var cg := if t1.weightKg > 0.0 then t1.cg else 0.0;
      var other := job.(balance := job.balance.(implementCg := cg));
      PairOfNull(m, model, t, f, t1, t2, override, other);
      if NoMomentToLose(t1, job.balance) {
        SameMoment(job.balance, cg);
        RunDependsOnLoads(m, model, t, f, job, other.balance);
      } else if Run(m, model, t, f, job).Ok? {
        MomentShows(m, model, t, f, job, cg);
      }
    }
  }

  lemma PairOfNull(
    m: Maths, model: Model, t: Tractor, f: Field, t1: Tool, t2: Tool, override: Option<real>, job: Job)
    requires NullTool(t2, t1) && PassivePassiveJob(t, f, t1, t2, 0.0, override) == Ok(job)
    ensures PassivePassiveRun(m, model, t, f, t1, t2, 0.0, override) == AsPair(Run(m, model, t, f, job))
  {
    NullToolHasNoDraft(t2, t1, f);
    assert CombinedDraft(Draft(t1, f).value, 0.0, 0.0) == Draft(t1, f);
  }

  lemma SameMoment(b: Balance, cg: real)
    requires cg == b.implementCg || b.implementWeight + b.soilReaction == 0.0
    ensures SameLoads(b, b.(implementCg := cg))
  {
    if b.Span() != 0.0 {
      forall extra: real ensures b.(implementCg := cg).RearLoad(extra) == b.RearLoad(extra) {
        CgMovesRearLoad(b, cg, extra);
      }
    }
  }

  /** A run depends on its balance only through the loads it puts on the axles. */
  lemma RunDependsOnLoads(m: Maths, model: Model, t: Tractor, f: Field, job: Job, c: Balance)
    requires t.rearRadius > 0.0 && SameLoads(job.balance, c)
    ensures Run(m, model, t, f, job.(balance := c)) == Run(m, model, t, f, job)
  {
    var other := job.(balance := c);
    SameLoadsSameAxles(job.balance, c);
    assert ResolvedSlip(model, RearTyre(t, f), other) == ResolvedSlip(model, RearTyre(t, f), job);
    if ResolvedSlip(model, RearTyre(t, f), job).Ok? {
      var (axles, slip, te) := ResolvedSlip(model, RearTyre(t, f), job).value;
      if job.balance.tractorWeight > 0.0 {
        SameLoadsSameBallast(job.balance, c);
      }
      assert Measured(m, model, t, f, other, axles, slip, te) == Measured(m, model, t, f, job, axles, slip, te);
    }
  }

  /** Moving the centre of gravity of a load that hangs shows in the axle loads of the report. */
  lemma MomentShows(m: Maths, model: Model, t: Tractor, f: Field, job: Job, cg: real)
    requires t.rearRadius > 0.0 && Run(m, model, t, f, job).Ok?
    requires cg != job.balance.implementCg && job.balance.implementWeight + job.balance.soilReaction != 0.0
    ensures Run(m, model, t, f, job.(balance := job.balance.(implementCg := cg))) != Run(m, model, t, f, job)
  {
    var other := job.(balance := job.balance.(implementCg := cg));
    ReportedAxles(m, model, t, f, job);
    MomentShowsInAxles(job.balance, cg);
    if Run(m, model, t, f, other) == Run(m, model, t, f, job) {
      ReportedAxles(m, model, t, f, other);
    }
  }

  lemma MomentShowsInAxles(b: Balance, cg: real)
    requires ResolveAxleLoads(b).Ok? && cg != b.implementCg && b.implementWeight + b.soilReaction != 0.0
    ensures ResolveAxleLoads(b.(implementCg := cg)) != ResolveAxleLoads(b)
  {
    var c := b.(implementCg := cg);
    ResolvedAtItsBallast(b);
    if ResolveAxleLoads(c) == ResolveAxleLoads(b) {
      ResolvedAtItsBallast(c);
      CgMovesRearLoad(b, cg, ResolveAxleLoads(b).value.stabilisingKg * GRAVITY);
    }
  }

  lemma ReportedAxles(m: Maths, model: Model, t: Tractor, f: Field, job: Job)
    requires t.rearRadius > 0.0 && Run(m, model, t, f, job).Ok?
    ensures ResolveAxleLoads(job.balance) == Ok(Run(m, model, t, f, job).value.axles)
  {
  }

  /** The same of the axle loads alone, at every amount of ballast. */
  lemma NullToolAxleLoads(t: Tractor, f: Field, t1: Tool, t2: Tool, override: Option<real>, extra: real)
    requires NullTool(t2, t1) && NoOverride(override)
    requires SingleJob(t, f, t1).Ok? && SingleJob(t, f, t1).value.balance.Span() != 0.0
    ensures PassivePassiveJob(t, f, t1, t2, 0.0, override).Ok?
    ensures var pair := PassivePassiveJob(t, f, t1, t2, 0.0, override).value.balance;
      var one := SingleJob(t, f, t1).value.balance;
      && pair.Span() == one.Span()
      && (pair.RearLoad(extra) == one.RearLoad(extra) <==> NoMomentToLose(t1, one))
  {
    NullToolJob(t, f, t1, t2, override);
    var one := SingleJob(t, f, t1).value.balance;
    var cg := if t1.weightKg > 0.0 then t1.cg else 0.0;
    CgMovesRearLoad(one, cg, extra);
  }

  lemma CgMovesRearLoad(b: Balance, cg: real, extra: real)
    requires b.Span() != 0.0
    ensures b.(implementCg := cg).RearLoad(extra) == b.RearLoad(extra)
       <==> cg == b.implementCg || b.implementWeight + b.soilReaction == 0.0
  {
    var hung := b.implementWeight + b.soilReaction;
    var arm := b.hitch + b.wheelbase + b.frontOffset;
    var ballasted := (b.tractorWeight + extra) * (b.wheelbase + b.frontOffset - b.cgFromRear) - b.draft * b.draftDepth;
    MomentsDiffer(hung, cg, b.implementCg, arm);
    assert cg + b.hitch + b.wheelbase + b.frontOffset == cg + arm;
    assert b.implementCg + b.hitch + b.wheelbase + b.frontOffset == b.implementCg + arm;
    SameQuotient(hung * (cg + arm) + ballasted, hung * (b.implementCg + arm) + ballasted, b.Span());
  }

  lemma MomentsDiffer(w: real, x: real, y: real, arm: real)
    ensures w * (x + arm) == w * (y + arm) <==> x == y || w == 0.0
  {
    assert w * (x + arm) - w * (y + arm) == w * (x - y);
    if x != y && w != 0.0 {
      assert w * (x - y) != 0.0;
    }
  }

  lemma SameQuotient(x: real, y: real, s: real)
    requires s != 0.0
    ensures x / s == y / s <==> x == y
  {
    assert x / s * s == x && y / s * s == y;
  }

  // --- Jobs that are accepted ---

  /** What a run asks of a job beyond axle loads that resolve. */
  predicate Workable(t: Tractor, f: Field, job: Job) {
    && RearTyre(t, f).Positive() && FrontTyre(t, f).Positive() && t.rearRadius > 0.0
    && job.draft > 0.0 && job.width > 0.0 && job.balance.tractorWeight > 0.0 && f.speed > 0.0 && f.area > 0.0
    && t.ratedPto > 0.0 && t.transmissionPct > 0.0 && t.reservePct < 100.0
  }

  /** A workable job on soil where its driven wheels develop net traction at the 20% cap is accepted. */
  lemma WorkableJobRuns(m: Maths, model: Model, t: Tractor, f: Field, job: Job, axles: AxleResolution)
    requires model.Sound() && Workable(t, f, job)
    requires ResolveAxleLoads(job.balance) == Ok(axles) && axles.rear > 0.0 && axles.front > 0.0
    requires model.net(MobilityNumber(RearTyre(t, f), axles.rear / 2.0), 0.2) > 0.0
    ensures Run(m, model, t, f, job).Ok?
  {
    var tyre := RearTyre(t, f);
    var slip := Solve(model, tyre, axles.rear, job.draft).value;
    SolvedSlipPulls(model, tyre, axles.rear, job.draft, slip);
    SolvedSlipRange(model, tyre, axles.rear, job.draft, slip);
    EfficiencyIsPositive(slip);
    var te := TractiveEfficiency(slip).value;
    TurningOnlyLowersCapacity(f.speed, job.width, f.area, f.width);
    var towed := Measured(m, model, t, f, job, axles, slip, te).value;
    SizingAddsOneWarning(model, tyre, job, towed);
  }

  lemma SolvedSlipPulls(model: Model, tyre: Tyre, load: real, draft: real, s: SlipSolution)
    requires model.Sound() && Solve(model, tyre, load, draft) == Ok(s) && draft > 0.0
    requires model.net(MobilityNumber(tyre, load / 2.0), 0.2) > 0.0
    ensures s.mu > 0.0 && s.muG > 0.0 && s.bnRear > 0.0
  {
    if s.converged {
      ConvergedRunPulls(model, tyre, load, draft, s);
      PositiveFactor(s.mu, load);
    }
  }

  lemma EfficiencyIsPositive(s: SlipSolution)
    requires s.mu > 0.0 && s.muG > 0.0 && s.slipPct <= 20.0
    ensures TractiveEfficiency(s).Ok? && TractiveEfficiency(s).value > 0.0
  {
    var pulled := PositiveProduct(s.mu, 1.0 - s.slipPct / 100.0);
    QuotientPositive(pulled, s.muG);
  }

  /** A plough entered without weight, its centre of gravity 1 m behind the hitch: the single run is
  accepted, and pairing it with a null tool gives another report. */
  lemma WeightlessToolDiffers(m: Maths) returns (t: Tractor, f: Field, t1: Tool, t2: Tool)
    requires m.Valid()
    ensures NullTool(t2, t1) && t1.weightKg == 0.0 && SingleRun(m, Brixius(m), t, f, t1).Ok?
    ensures PassivePassiveRun(m, Brixius(m), t, f, t1, t2, 0.0, None) != AsPair(SingleRun(m, Brixius(m), t, f, t1))
  {
    var job, axles;
    t, f, t1, t2, job := WeightlessJob();
    axles := WeightlessAxles(job.balance);
    FirmEnough(m, RearTyre(t, f), axles.rear);
    BrixiusIsSound(m);
    WorkableJobRuns(m, Brixius(m), t, f, job, axles);
    NullSecondTool(m, Brixius(m), t, f, t1, t2, None);
  }

  lemma WeightlessJob() returns (t: Tractor, f: Field, t1: Tool, t2: Tool, job: Job)
    ensures NullTool(t2, t1) && t1.weightKg == 0.0 && t1.cg == 1.0
    ensures SingleJob(t, f, t1) == Ok(job) && Workable(t, f, job) && RearTyre(t, f).Strength() == 1000.0
    ensures job.balance == Balance(19620.0, 0.8, 0.0, 1.0, 200.0, 0.5, 1000.0, 0.2 / 3.0, 0.06, 0.04, 2.0, 0.0)
  {
    t := Tractor(30.0, 2.0, 800.0, 1200.0, 0.5, 0.8, 86.0, 20.0, 0.4, 0.6, 0.2, 0.6, 0.5, 1.0, None);
    f := Field(Fine, 2000.0, 10.0, 5.0, 1.0, 10.0);
    t1 := Tool(MbPlough, 1.0, 0.0, 1.0, 100.0, 0.0, 0.0, None);
    t2 := Tool(MbPlough, 1.0, 0.0, 0.0, 0.0, 0.0, 0.0, None);
    job := SingleJob(t, f, t1).value;
  }

  lemma WeightlessAxles(b: Balance) returns (axles: AxleResolution)
    requires b == Balance(19620.0, 0.8, 0.0, 1.0, 200.0, 0.5, 1000.0, 0.2 / 3.0, 0.06, 0.04, 2.0, 0.0)
    ensures ResolveAxleLoads(b) == Ok(axles) && 12000.0 < axles.rear < 13000.0 && axles.front > 0.0
  {
    assert b.Span() == 1.98;
    assert 12000.0 < b.RearLoad(0.0) < 13000.0;
    axles := ResolveAxleLoads(b).value;
  }

  lemma FirmEnough(m: Maths, tyre: Tyre, load: real)
    requires m.Valid() && tyre.Positive() && tyre.Strength() == 1000.0 && 12000.0 < load < 13000.0
    ensures Brixius(m).net(MobilityNumber(tyre, load / 2.0), 0.2) > 0.0
  {
    var bn := MobilityNumber(tyre, load / 2.0);
    QuotientAtLeast(1000.0, load / 2.0 / 1000.0, 100.0);
    FirmSoilPulls(m);
    NetTractionRisesWithMobility(m, 100.0, bn, 0.2);
  }

  // --- A rotor that does nothing ---

  /** A rotor with no mass, no drag, no power and no vertical force; still one the mode accepts. */
  predicate NullRotor(r: Rotor) {
    && r.weightKg == 0.0 && r.resistance == 0.0 && r.ptoKw == 0.0 && r.verticalForce == 0.0
    && 0.25 <= r.efficiency <= 0.45 && r.rpm > 0.0
  }

  lemma NullRotorIsInert(r: Rotor, speed: real, wheelbase: real)
    requires NullRotor(r) && speed > 0.0 && wheelbase > 0.0
    ensures RotorThrust(r, speed) == Ok(0.0) && PtoRearLoad(r, wheelbase) == Ok(0.0)
  {
    NoThrust(r.efficiency, speed / 3.6);
    NoLoad(r.rpm, wheelbase);
  }

  lemma NoThrust(efficiency: real, v: real)
    requires v > 0.0
    ensures efficiency * (0.0 * 1000.0) / v == 0.0
  {
    NoReaction(efficiency);
    assert 0.0 / v == 0.0;
  }

  lemma NoLoad(rpm: real, wheelbase: real)
    requires rpm > 0.0 && wheelbase > 0.0
    ensures 9550.0 * 0.0 / rpm / wheelbase == 0.0
  {
    assert 0.0 / rpm == 0.0;
    assert 0.0 / wheelbase == 0.0;
  }

  lemma NullRotorJob(t: Tractor, f: Field, tool: Tool, rotor: Rotor)
    requires NullRotor(rotor) && tool.weightKg > 0.0
    requires SingleJob(t, f, tool).Ok? && SingleJob(t, f, tool).value.draft > 0.0
    ensures ActivePassiveJob(t, f, tool, rotor) == Ok(SingleJob(t, f, tool).value.(atSolvedSlip := true))
  {
    NullRotorIsInert(rotor, f.speed, t.wheelbase);
    CgOfOne(tool.Weight(), tool.cg, rotor.weightKg * GRAVITY, rotor.cg);
    assert EffectiveDraft(Draft(tool, f).value, rotor.resistance, 0.0) == Draft(tool, f);
    assert tool.Weight() > 0.0 && tool.Weight() + rotor.weightKg * GRAVITY == tool.Weight();
    assert CombinedCg(tool.Weight(), tool.cg, rotor.weightKg * GRAVITY, rotor.cg) == tool.cg;
    var one, pair := SingleJob(t, f, tool).value, ActivePassiveJob(t, f, tool, rotor).value;
    assert pair.balance == one.balance;
  }

  predicate SameButRearBallast(a: Report, b: Report) {
    a.(rearKg := None, warnings := []) == b.(rearKg := None, warnings := [])
  }

  /** The rear-sizing warning is the only one that may tell the two reports apart. */
  ghost predicate WarningsDifferAtTheEnd(a: Report, b: Report) {
    exists shared: seq<Warning> ::
      shared <= a.warnings && shared <= b.warnings && |a.warnings| <= |shared| + 1 && |b.warnings| <= |shared| + 1
  }

  lemma TowingIgnoresTarget(m: Maths, model: Model, t: Tractor, f: Field, job: Job)
    requires t.rearRadius > 0.0
    ensures Towing(m, model, t, f, job.(atSolvedSlip := true)) == Towing(m, model, t, f, job)
  {
    var other := job.(atSolvedSlip := true);
    assert ResolvedSlip(model, RearTyre(t, f), other) == ResolvedSlip(model, RearTyre(t, f), job);
  }

  /** An active-passive run with a null rotor is the single-implement run except for the rear ballast
  and the warning about it: the two modes size it at different slips. */
  lemma NullRotorRun(m: Maths, model: Model, t: Tractor, f: Field, tool: Tool, rotor: Rotor)
    requires model.Sound() && NullRotor(rotor) && tool.weightKg > 0.0
    requires Draft(tool, f).Ok? && Draft(tool, f).value > 0.0
    ensures var pair, one := ActivePassiveRun(m, model, t, f, tool, rotor), SingleRun(m, model, t, f, tool);
      && (pair.Ok? <==> one.Ok?)
      && (one.Ok? ==> SameButRearBallast(pair.value, one.value) && WarningsDifferAtTheEnd(pair.value, one.value))
  {
    if SingleJob(t, f, tool).Ok? {
      var job := SingleJob(t, f, tool).value;
      NullRotorJob(t, f, tool, rotor);
      TowingIgnoresTarget(m, model, t, f, job);
      var towed := Towing(m, model, t, f, job);
      if towed.Ok? {
        TowedDuty(m, model, t, f, job);
        SizingAddsOneWarning(model, RearTyre(t, f), job, towed.value);
        SizingAddsOneWarning(model, RearTyre(t, f), job.(atSolvedSlip := true), towed.value);
        var pair, one := ActivePassiveRun(m, model, t, f, tool, rotor).value, SingleRun(m, model, t, f, tool).value;
        assert towed.value.warnings <= pair.warnings && towed.value.warnings <= one.warnings;
      }
    }
  }

  /** Below that, a rotor cannot be paired at all: a tool without draft is refused by this mode alone. */
  lemma NullRotorNeedsDraft(m: Maths, model: Model, t: Tractor, f: Field, tool: Tool, rotor: Rotor)
    requires NullRotor(rotor) && Draft(tool, f).Ok? && Draft(tool, f).value <= 0.0 && CommonInputsPositive(t, f)
    ensures ActivePassiveRun(m, model, t, f, tool, rotor) == Rejected(RotorOutpullsTool)
  {
    NullRotorIsInert(rotor, f.speed, t.wheelbase);
  }

  lemma SizingAddsOneWarning(model: Model, tyre: Tyre, job: Job, towed: Report)
    requires model.Sound() && job.draft > 0.0
    requires Solve(model, tyre, towed.axles.rear, job.draft) == Ok(towed.slip)
    ensures var r := WithRearBallast(model, tyre, job, towed);
      && r.Ok? && r.value == towed.(rearKg := r.value.rearKg, warnings := r.value.warnings)
      && towed.warnings <= r.value.warnings && |r.value.warnings| <= |towed.warnings| + 1
  {
    SolvedSlipRange(model, tyre, towed.axles.rear, job.draft, towed.slip);
    TargetSlipNonNegative(job, towed.slip);
    RearSizingMeaning(model, tyre, towed.axles.rear, job.draft, TargetSlip(job, towed.slip));
  }

  lemma TargetSlipNonNegative(job: Job, s: SlipSolution)
    requires 2.0 <= s.slipPct
    ensures TargetSlip(job, s) >= 0.0
  {
  }

  /** Converged or not, the reported slip lies in [2, 20]. */
  lemma SolvedSlipRange(model: Model, tyre: Tyre, load: real, draft: real, s: SlipSolution)
    requires model.Sound() && Solve(model, tyre, load, draft) == Ok(s)
    ensures tyre.Positive() && load > 0.0 && 2.0 <= s.slipPct <= 20.0
    ensures s.converged <==> s.slipPct < 20.0
  {
    if s.converged {
      ConvergedRunPulls(model, tyre, load, draft, s);
    }
  }

  // --- Active-passive runs and rear ballast ---

  /** A converged active-passive run never asks for rear ballast: it reports exactly 0 and says so, or
  reports none because the iteration did not settle. */
  lemma ConvergedActivePassiveRun(m: Maths, model: Model, t: Tractor, f: Field, tool: Tool, rotor: Rotor)
    requires model.Sound()
    requires ActivePassiveRun(m, model, t, f, tool, rotor).Ok?
    requires ActivePassiveRun(m, model, t, f, tool, rotor).value.slip.converged
    ensures NoRearBallastAsked(ActivePassiveRun(m, model, t, f, tool, rotor).value)
  {
    var job := ActivePassiveJob(t, f, tool, rotor).value;
    EffectiveJob(t, f, tool, rotor);
    ConvergedAtSolvedSlip(m, model, t, f, job);
  }

  lemma EffectiveJob(t: Tractor, f: Field, tool: Tool, rotor: Rotor)
    requires ActivePassiveJob(t, f, tool, rotor).Ok?
    ensures var job := ActivePassiveJob(t, f, tool, rotor).value; job.atSolvedSlip && job.draft > 0.0
  {
  }

  lemma ConvergedAtSolvedSlip(m: Maths, model: Model, t: Tractor, f: Field, job: Job)
    requires model.Sound() && t.rearRadius > 0.0 && job.atSolvedSlip && job.draft > 0.0
    requires Run(m, model, t, f, job).Ok? && Run(m, model, t, f, job).value.slip.converged
    ensures NoRearBallastAsked(Run(m, model, t, f, job).value)
  {
    TowedDuty(m, model, t, f, job);
    SizedAtSolvedSlip(model, RearTyre(t, f), job, Towing(m, model, t, f, job).value);
  }

  predicate NoRearBallastAsked(r: Report) {
    && |r.warnings| > 0
    && ((r.rearKg == Some(0.0) && r.warnings[|r.warnings| - 1] == RearNotRequired)
     || (r.rearKg == None && r.warnings[|r.warnings| - 1] == RearUnsettled))
  }

  lemma TowedDuty(m: Maths, model: Model, t: Tractor, f: Field, job: Job)
    requires t.rearRadius > 0.0 && Towing(m, model, t, f, job).Ok?
    ensures var r := Towing(m, model, t, f, job).value;
      Solve(model, RearTyre(t, f), r.axles.rear, job.draft) == Ok(r.slip)
  {
  }

  lemma SizedAtSolvedSlip(model: Model, tyre: Tyre, job: Job, towed: Report)
    requires model.Sound() && job.atSolvedSlip && job.draft > 0.0
    requires Solve(model, tyre, towed.axles.rear, job.draft) == Ok(towed.slip) && towed.slip.converged
    ensures var r := WithRearBallast(model, tyre, job, towed); r.Ok? && NoRearBallastAsked(r.value)
  {
    ConvergedRunNeedsNoRearBallast(model, tyre, towed.axles.rear, job.draft, towed.slip);
  }

  // --- Bounds on every run ---

  predicate SoundlyBalanced(b: Balance) {
    b.Span() > 0.0 && b.cgFromRear <= b.wheelbase + b.frontOffset && b.tractorWeight >= 1.0
  }

  /** What every report satisfies. */
  predicate InRange(job: Job, r: Report) {
    && r.axles.rear > 0.0 && r.axles.front > 0.0
    && r.axles.rear + r.axles.front == job.balance.TotalLoad(r.axles.stabilisingKg * GRAVITY)
    && 2.0 <= r.slip.slipPct <= 20.0 && (r.slip.converged <==> r.slip.slipPct < 20.0)
    && 0.0 < r.tePct <= 100.0
    && FuelInRange(r)
  }

  predicate FuelInRange(r: Report) {
    && 0.0 < r.capacity.actual <= r.capacity.theoretical
    && r.power.sfc > 0.41 && r.power.fuelLPerHa == r.power.fuelLph / r.capacity.actual > 0.0
    && 0.0 < r.power.overallPct < 25.0
  }

  /** Every job that is not refused reports loads, slip, efficiencies and fuel inside their ranges. */
  lemma RunsAreInRange(m: Maths, model: Model, t: Tractor, f: Field, job: Job)
    requires m.Valid() && model.Sound() && t.rearRadius > 0.0
    requires SoundlyBalanced(job.balance) && job.draft > 0.0
    requires Run(m, model, t, f, job).Ok?
    ensures InRange(job, Run(m, model, t, f, job).value)
  {
    var (axles, slip, te) := ResolvedSlip(model, RearTyre(t, f), job).value;
    ResolvedInRange(model, RearTyre(t, f), job);
    MeasuredInRange(m, model, t, f, job, axles, slip, te);
  }

  lemma ResolvedInRange(model: Model, tyre: Tyre, job: Job)
    requires model.Sound() && SoundlyBalanced(job.balance) && ResolvedSlip(model, tyre, job).Ok?
    ensures var (axles, slip, te) := ResolvedSlip(model, tyre, job).value;
      && axles.rear > 0.0 && axles.front > 0.0
      && axles.rear + axles.front == job.balance.TotalLoad(axles.stabilisingKg * GRAVITY)
      && 2.0 <= slip.slipPct <= 20.0 && (slip.converged <==> slip.slipPct < 20.0)
      && 0.0 < te <= 100.0
  {
    var (axles, slip, te) := ResolvedSlip(model, tyre, job).value;
    ResolvedLoadsArePositive(job.balance);
    SolvedSlipRange(model, tyre, axles.rear, job.draft, slip);
  }

  lemma MeasuredInRange(
    m: Maths, model: Model, t: Tractor, f: Field, job: Job, axles: AxleResolution, slip: SlipSolution, te: real)
    requires m.Valid() && t.rearRadius > 0.0 && job.balance.Span() > 0.0 && job.draft > 0.0
    requires Measured(m, model, t, f, job, axles, slip, te).Ok?
    ensures FuelInRange(Measured(m, model, t, f, job, axles, slip, te).value)
  {
    var r := Measured(m, model, t, f, job, axles, slip, te).value;
    TurningOnlyLowersCapacity(f.speed, job.width, f.area, f.width);
    FuelAndEfficiencyBounds(m, job.draft, f.speed, te, t.transmissionPct, t.reservePct, t.ratedPto,
                            r.capacity.theoretical, r.capacity.actual, job.extraPto);
  }

  // --- What the rear ballast of a report means ---

  /** It is never negative, and positive exactly where the reported axle load falls short of the draft at
  the job's target slip; with it the axle pulls the draft at that slip, to the solver's tolerance. The
  target is the solved slip of a job with a rotor, 15% of the others. */
  ghost predicate RearBallastMeans(model: Model, tyre: Tyre, job: Job, r: Report) {
    && tyre.Positive()
    && var mu := LoadCurve(model, tyre, if job.atSolvedSlip then r.slip.slipPct / 100.0 else 0.15);
    && (r.rearKg.Some? ==>
          && r.rearKg.value >= 0.0
          && (r.rearKg.value > 0.0 <==> Pull(mu, r.axles.rear) < job.draft)
          && (r.rearKg.value > 0.0 ==> Solves(mu, job.draft, r.axles.rear + r.rearKg.value * GRAVITY)))
  }

  lemma SizedMeans(model: Model, tyre: Tyre, job: Job, towed: Report)
    requires model.Sound() && job.draft > 0.0
    requires Solve(model, tyre, towed.axles.rear, job.draft) == Ok(towed.slip)
    ensures WithRearBallast(model, tyre, job, towed).Ok?
    ensures RearBallastMeans(model, tyre, job, WithRearBallast(model, tyre, job, towed).value)
  {
    SolvedSlipRange(model, tyre, towed.axles.rear, job.draft, towed.slip);
    TargetSlipNonNegative(job, towed.slip);
    RearSizingMeaning(model, tyre, towed.axles.rear, job.draft, TargetSlip(job, towed.slip));
  }

  lemma RunsSizeRearBallast(m: Maths, model: Model, t: Tractor, f: Field, job: Job)
    requires model.Sound() && t.rearRadius > 0.0 && job.draft > 0.0 && Run(m, model, t, f, job).Ok?
    ensures RearBallastMeans(model, RearTyre(t, f), job, Run(m, model, t, f, job).value)
  {
    TowedDuty(m, model, t, f, job);
    SizedMeans(model, RearTyre(t, f), job, Towing(m, model, t, f, job).value);
  }
}
