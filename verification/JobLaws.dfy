/** What the three modes tow: the drafts, the rotor's thrust and reaction, and the moments on the axles,
stated in the inputs of each mode. */
module JobLaws {
  import opened AxleLoads
  import opened Calculus
  import opened FrontBallast
  import opened Modes
  import opened Outcomes
  import opened Traction

  // --- The draft of one tool ---

  /** Between two speeds the draft changes by F (B + C (u + v)) (v - u) W T; without the two speed terms it
  is F A W T at every speed, F being 1, 0.7 and 0.45 on fine, medium and coarse soil. */
  lemma DraftOverSpeed(tool: Tool, f: Field, speed: real)
    requires Draft(tool, f).Ok? && speed > 0.0
    ensures Draft(tool, f.(speed := speed)).Ok?
    ensures Draft(tool, f.(speed := speed)).value - Draft(tool, f).value
         == SoilFactor(f.texture) * ((tool.b + tool.c * (f.speed + speed)) * (speed - f.speed)) * tool.width * f.depth
    ensures tool.b == 0.0 && tool.c == 0.0 ==>
              Draft(tool, f).value == SoilFactor(f.texture) * tool.a * tool.width * f.depth
  {
    var k, u, v := SoilFactor(f.texture), f.speed, speed;
    var p, q := tool.a + tool.b * u + tool.c * (u * u), tool.a + tool.b * v + tool.c * (v * v);
    QuadraticDifference(tool.a, tool.b, tool.c, u, v);
    ScaledDifference(k, p, q, tool.width, f.depth);
    if tool.b == 0.0 && tool.c == 0.0 {
      assert tool.b * u == 0.0 && tool.c * (u * u) == 0.0;
    }
  }

  lemma QuadraticDifference(a: real, b: real, c: real, u: real, v: real)
    ensures (a + b * v + c * (v * v)) - (a + b * u + c * (u * u)) == (b + c * (u + v)) * (v - u)
  {
    assert (u + v) * (v - u) == v * v - u * u;
    assert (b + c * (u + v)) * (v - u) == b * (v - u) + c * ((u + v) * (v - u));
  }

  lemma ScaledDifference(k: real, p: real, q: real, w: real, d: real)
    ensures k * q * w * d - k * p * w * d == k * (q - p) * w * d
  {
    assert k * (q - p) == k * q - k * p;
    assert (k * q - k * p) * w == k * q * w - k * p * w;
  }

  /** Two passes side by side, or one above the other, drag what one pass of both does. */
  lemma DraftAdds(tool: Tool, f: Field, width: real, depth: real)
    requires Draft(tool, f).Ok? && width > 0.0 && depth > 0.0
    ensures Draft(tool.(width := tool.width + width), f).Ok? && Draft(tool.(width := width), f).Ok?
    ensures Draft(tool.(width := tool.width + width), f).value
         == Draft(tool, f).value + Draft(tool.(width := width), f).value
    ensures Draft(tool, f.(depth := f.depth + depth)).Ok? && Draft(tool, f.(depth := depth)).Ok?
    ensures Draft(tool, f.(depth := f.depth + depth)).value
         == Draft(tool, f).value + Draft(tool, f.(depth := depth)).value
    ensures SoilFactor(Fine) == 1.0 && SoilFactor(Medium) == 0.7 && SoilFactor(Coarse) == 0.45
  {
    var unit := SoilFactor(f.texture) * (tool.a + tool.b * f.speed + tool.c * (f.speed * f.speed));
    AreaAdds(unit, tool.width, width, f.depth);
    DepthAdds(unit * tool.width, f.depth, depth);
  }

  lemma AreaAdds(unit: real, w: real, w': real, d: real)
    ensures unit * (w + w') * d == unit * w * d + unit * w' * d
  {
    assert unit * (w + w') == unit * w + unit * w';
  }

  lemma DepthAdds(perDepth: real, d: real, d': real)
    ensures perDepth * (d + d') == perDepth * d + perDepth * d'
  {
  }

  // --- Equilibrium of the axles a report shows ---

  /** The axles carry everything, and balance about the rear contact point: `heavy` N of tractor and front
  ballast before it, `hung` N of implements and soil reaction behind it, and the draft at its depth. */
  predicate InBalance(
    axles: AxleResolution, span: real, heavy: real, lead: real, hung: real, hungMoment: real, draft: real,
    depth: real, rotorLoad: real)
  {
    && axles.rear + axles.front == heavy + hung
    && axles.front * span == heavy * lead - hungMoment + draft * depth - rotorLoad * span
  }

  /** The same for a tractor in a field, the draft acting at two thirds of the working depth. */
  predicate AxlesBalance(
    t: Tractor, f: Field, axles: AxleResolution, draft: real, hung: real, hungMoment: real, rotorLoad: real)
  {
    InBalance(axles, Span(t), Heavy(t, axles), Lead(t), hung, hungMoment, draft, f.depth / 150.0, rotorLoad)
  }

  function Heavy(t: Tractor, axles: AxleResolution): real {
    (t.frontKg + t.rearKg + axles.stabilisingKg) * 9.81
  }

  /** Between the contact points of the two axles, which lie a tenth of a wheel radius before the axles. */
  function Span(t: Tractor): real {
    t.wheelbase - 0.1 * t.rearRadius + 0.1 * t.frontRadius
  }

  /** From the rear contact point forward to the tractor's centre of gravity, and back to the hitch. */
  function Lead(t: Tractor): real {
    t.cgFromRear - 0.1 * t.rearRadius
  }

  function Reach(t: Tractor): real {
    t.hitch + 0.1 * t.rearRadius
  }

  /** The balance of a job is set up from the tractor and the field. */
  predicate SetUp(t: Tractor, f: Field, b: Balance, draft: real) {
    && b.tractorWeight == (t.frontKg + t.rearKg) * 9.81
    && b.Span() == Span(t) && b.cgFromRear - b.rearOffset == Lead(t) && b.hitch + b.rearOffset == Reach(t)
    && b.draft == draft && b.draftDepth == f.depth / 150.0
  }

  lemma SetUpFrom(t: Tractor, f: Field, g: Geometry, weight: real, cg: real, reaction: real, draft: real, extra: real)
    requires GeometryTerms(f.depth, t.rearRadius, t.frontRadius) == Ok(g)
    ensures SetUp(t, f, BalanceOf(t, g, weight, cg, reaction, draft, extra), draft)
  {
  }

  lemma JobBalances(
    t: Tractor, f: Field, b: Balance, draft: real, axles: AxleResolution, hung: real, arm: real, moment: real)
    requires SetUp(t, f, b, draft) && ResolveAxleLoads(b) == Ok(axles)
    requires hung == b.implementWeight + b.soilReaction && arm == b.implementCg + Reach(t) && moment == hung * arm
    ensures AxlesBalance(t, f, axles, draft, hung, moment, b.extraRear)
  {
    ResolvedAtItsBallast(b);
    InParts(b, axles, Span(t), Heavy(t, axles), Lead(t), hung, arm, f.depth / 150.0);
  }

  lemma InParts(
    b: Balance, axles: AxleResolution, span: real, heavy: real, lead: real, hung: real, arm: real, depth: real)
    requires b.Span() == span != 0.0 && b.cgFromRear - b.rearOffset == lead && b.draftDepth == depth
    requires b.tractorWeight + axles.stabilisingKg * GRAVITY == heavy
    requires b.implementWeight + b.soilReaction == hung && b.implementCg + b.hitch + b.rearOffset == arm
    requires axles.rear == b.RearLoad(axles.stabilisingKg * GRAVITY)
    requires axles.front == b.FrontLoad(axles.stabilisingKg * GRAVITY)
    ensures InBalance(axles, span, heavy, lead, hung, hung * arm, b.draft, depth, b.extraRear)
  {
    b.MomentsBalance(axles.stabilisingKg * GRAVITY);
  }

  lemma ReportOfRun(m: Maths, model: Model, t: Tractor, f: Field, job: Job)
    requires t.rearRadius > 0.0 && Run(m, model, t, f, job).Ok?
    ensures var r := Run(m, model, t, f, job).value;
      r.draft == job.draft && ResolveAxleLoads(job.balance) == Ok(r.axles)
  {
  }

  /** A single implement's report: its weight and the soil reaction both act at its centre of gravity. */
  predicate SingleBalances(t: Tractor, f: Field, tool: Tool, axles: AxleResolution, draft: real) {
    && SoilReactionRatio(tool).Ok?
    && OneWeight(t, f, axles, draft, tool.weightKg * 9.81, tool.cg, SoilReactionRatio(tool).value * draft)
  }

  predicate OneWeight(
    t: Tractor, f: Field, axles: AxleResolution, draft: real, weight: real, cg: real, reaction: real)
  {
    AxlesBalance(t, f, axles, draft, weight + reaction, (weight + reaction) * (cg + Reach(t)), 0.0)
  }

  lemma OneWeightBalances(
    t: Tractor, f: Field, b: Balance, draft: real, axles: AxleResolution, weight: real, cg: real, reaction: real)
    requires SetUp(t, f, b, draft) && ResolveAxleLoads(b) == Ok(axles)
    requires b.implementWeight == weight && b.implementCg == cg && b.soilReaction == reaction && b.extraRear == 0.0
    ensures OneWeight(t, f, axles, draft, weight, cg, reaction)
  {
    JobBalances(t, f, b, draft, axles, weight + reaction, cg + Reach(t), (weight + reaction) * (cg + Reach(t)));
  }

  lemma SingleJobBalances(t: Tractor, f: Field, tool: Tool, axles: AxleResolution)
    requires SingleJob(t, f, tool).Ok? && ResolveAxleLoads(SingleJob(t, f, tool).value.balance) == Ok(axles)
    ensures SingleBalances(t, f, tool, axles, SingleJob(t, f, tool).value.draft)
  {
    var job, g := SingleJob(t, f, tool).value, GeometryTerms(f.depth, t.rearRadius, t.frontRadius).value;
    SetUpFrom(t, f, g, job.balance.implementWeight, tool.cg, job.balance.soilReaction, job.draft, 0.0);
    OneWeightBalances(t, f, job.balance, job.draft, axles, tool.weightKg * 9.81, tool.cg, job.balance.soilReaction);
  }

  lemma SingleRunBalances(m: Maths, model: Model, t: Tractor, f: Field, tool: Tool)
    requires SingleRun(m, model, t, f, tool).Ok?
    ensures var r := SingleRun(m, model, t, f, tool).value; SingleBalances(t, f, tool, r.axles, r.draft)
  {
    ReportOfRun(m, model, t, f, SingleJob(t, f, tool).value);
    SingleJobBalances(t, f, tool, SingleRun(m, model, t, f, tool).value.axles);
  }

  /** The moment of two weights and the soil reaction behind them: each weight acts where it hangs, the
  reaction where the weights together do. */
  function PairMoment(w1: real, x1: real, w2: real, x2: real, reaction: real, reach: real): real {
    if w1 + w2 > 0.0 then
      w1 * (x1 + reach) + w2 * (x2 + reach) + reaction * (CombinedCg(w1, x1, w2, x2) + reach)
    else
      (w1 + w2 + reaction) * reach
  }

  lemma CombinedCgKeepsMoments(w1: real, x1: real, w2: real, x2: real, reaction: real, reach: real)
    ensures (w1 + w2 + reaction) * (CombinedCg(w1, x1, w2, x2) + reach)
         == PairMoment(w1, x1, w2, x2, reaction, reach)
  {
    if w1 + w2 > 0.0 {
      var cg := CombinedCg(w1, x1, w2, x2);
      Cancels(w1 * x1 + w2 * x2, w1 + w2);
      SpreadMoments(w1, x1, w2, x2, reaction, reach, w1 + w2, cg);
    }
  }

  lemma Hanging(w1: real, x1: real, w2: real, x2: real, reaction: real, reach: real)
    returns (hung: real, arm: real, moment: real)
    ensures hung == w1 + w2 + reaction && arm == CombinedCg(w1, x1, w2, x2) + reach
    ensures moment == PairMoment(w1, x1, w2, x2, reaction, reach) && moment == hung * arm
  {
    hung, arm := w1 + w2 + reaction, CombinedCg(w1, x1, w2, x2) + reach;
    moment := PairMoment(w1, x1, w2, x2, reaction, reach);
    CombinedCgKeepsMoments(w1, x1, w2, x2, reaction, reach);
  }

  lemma SpreadMoments(
    w1: real, x1: real, w2: real, x2: real, reaction: real, reach: real, weight: real, cg: real)
    requires weight == w1 + w2 && cg * weight == w1 * x1 + w2 * x2
    ensures (weight + reaction) * (cg + reach)
         == w1 * (x1 + reach) + w2 * (x2 + reach) + reaction * (cg + reach)
  {
    assert (weight + reaction) * (cg + reach) == weight * cg + weight * reach + reaction * (cg + reach);
    assert weight * reach == w1 * reach + w2 * reach;
  }

  /** A pair's report: the axles carry both tools, each reacting to its own draft. */
  predicate PairBalances(
    t: Tractor, f: Field, t1: Tool, t2: Tool, d1: real, d2: real, axles: AxleResolution, draft: real)
  {
    && SoilReactionRatio(t1).Ok? && SoilReactionRatio(t2).Ok?
    && var w1, w2 := t1.weightKg * 9.81, t2.weightKg * 9.81;
    var reaction := SoilReactionRatio(t1).value * d1 + SoilReactionRatio(t2).value * d2;
    AxlesBalance(t, f, axles, draft, w1 + w2 + reaction,
                 PairMoment(w1, t1.cg, w2, t2.cg, reaction, Reach(t)), 0.0)
  }

  /** A balance that carries two weights and a soil reaction, however the reaction comes about. */
  predicate Carries(b: Balance, w1: real, x1: real, w2: real, x2: real, reaction: real, rotorLoad: real) {
    && b.implementWeight == w1 + w2 && b.implementCg == CombinedCg(w1, x1, w2, x2)
    && b.soilReaction == reaction && b.extraRear == rotorLoad
  }

  lemma TwoWeightsBalance(
    t: Tractor, f: Field, b: Balance, draft: real, axles: AxleResolution, w1: real, x1: real, w2: real, x2: real,
    reaction: real, rotorLoad: real)
    requires SetUp(t, f, b, draft) && ResolveAxleLoads(b) == Ok(axles)
    requires Carries(b, w1, x1, w2, x2, reaction, rotorLoad)
    ensures AxlesBalance(t, f, axles, draft, w1 + w2 + reaction,
                         PairMoment(w1, x1, w2, x2, reaction, Reach(t)), rotorLoad)
  {
    var hung, arm, moment := Hanging(w1, x1, w2, x2, reaction, Reach(t));
    JobBalances(t, f, b, draft, axles, hung, arm, moment);
  }

  lemma PairJobCarries(t: Tractor, f: Field, t1: Tool, t2: Tool, ki: real, override: Option<real>)
    requires PassivePassiveJob(t, f, t1, t2, ki, override).Ok?
    ensures Draft(t1, f).Ok? && Draft(t2, f).Ok? && SoilReactionRatio(t1).Ok? && SoilReactionRatio(t2).Ok?
    ensures var job := PassivePassiveJob(t, f, t1, t2, ki, override).value;
      && SetUp(t, f, job.balance, job.draft)
      && Carries(job.balance, t1.weightKg * 9.81, t1.cg, t2.weightKg * 9.81, t2.cg,
                 SoilReactionRatio(t1).value * Draft(t1, f).value + SoilReactionRatio(t2).value * Draft(t2, f).value,
                 0.0)
  {
    var draft, g := PassivePassiveJob(t, f, t1, t2, ki, override).value.draft,
                    GeometryTerms(f.depth, t.rearRadius, t.frontRadius).value;
    SetUpFrom(t, f, g, t1.Weight() + t2.Weight(), CombinedCg(t1.Weight(), t1.cg, t2.Weight(), t2.cg),
              SoilReactionRatio(t1).value * Draft(t1, f).value + SoilReactionRatio(t2).value * Draft(t2, f).value,
              draft, 0.0);
  }

  lemma PairJobBalances(
    t: Tractor, f: Field, t1: Tool, t2: Tool, ki: real, override: Option<real>, axles: AxleResolution)
    requires PassivePassiveJob(t, f, t1, t2, ki, override).Ok?
    requires ResolveAxleLoads(PassivePassiveJob(t, f, t1, t2, ki, override).value.balance) == Ok(axles)
    ensures Draft(t1, f).Ok? && Draft(t2, f).Ok?
    ensures PairBalances(t, f, t1, t2, Draft(t1, f).value, Draft(t2, f).value, axles,
                         PassivePassiveJob(t, f, t1, t2, ki, override).value.draft)
  {
    PairJobCarries(t, f, t1, t2, ki, override);
    var job := PassivePassiveJob(t, f, t1, t2, ki, override).value;
    TwoWeightsBalance(t, f, job.balance, job.draft, axles, t1.weightKg * 9.81, t1.cg, t2.weightKg * 9.81, t2.cg,
                      job.balance.soilReaction, 0.0);
  }

  lemma PairRunBalances(
    m: Maths, model: Model, t: Tractor, f: Field, t1: Tool, t2: Tool, ki: real, override: Option<real>)
    requires PassivePassiveRun(m, model, t, f, t1, t2, ki, override).Ok?
    ensures var p := PassivePassiveRun(m, model, t, f, t1, t2, ki, override).value;
      PairBalances(t, f, t1, t2, p.draft1, p.draft2, p.report.axles, p.report.draft)
  {
    ReportOfRun(m, model, t, f, PassivePassiveJob(t, f, t1, t2, ki, override).value);
    PairJobBalances(t, f, t1, t2, ki, override,
                    PassivePassiveRun(m, model, t, f, t1, t2, ki, override).value.report.axles);
  }

  /** The draft of an active-passive combination: its rotor's thrust spends `efficiency` of the PTO power at
  the forward speed, and is taken off what the tool and the rotor drag. */
  predicate ThrustTakesOff(passive: real, rotor: Rotor, speed: real, draft: real) {
    && draft > 0.0 && 0.25 <= rotor.efficiency <= 0.45
    && (passive + rotor.resistance - draft) * (speed / 3.6) == rotor.efficiency * (rotor.ptoKw * 1000.0)
  }

  /** Its axles: the PTO torque, 9550 P / N, presses on the rear axle over the wheelbase. */
  predicate RotorBalances(
    t: Tractor, f: Field, tool: Tool, rotor: Rotor, axles: AxleResolution, passive: real, draft: real, torqueLoad: real)
  {
    && SoilReactionRatio(tool).Ok?
    && torqueLoad * t.wheelbase * rotor.rpm == 9550.0 * rotor.ptoKw
    && var w1, w2 := tool.weightKg * 9.81, rotor.weightKg * 9.81;
    var reaction := SoilReactionRatio(tool).value * passive;
    AxlesBalance(t, f, axles, draft, w1 + w2 + reaction,
                 PairMoment(w1, tool.cg, w2, rotor.cg, reaction, Reach(t)), torqueLoad + rotor.verticalForce)
  }

  lemma RotorJobCarries(t: Tractor, f: Field, tool: Tool, rotor: Rotor)
    requires ActivePassiveJob(t, f, tool, rotor).Ok?
    ensures Draft(tool, f).Ok? && SoilReactionRatio(tool).Ok? && RotorThrust(rotor, f.speed).Ok?
    ensures PtoRearLoad(rotor, t.wheelbase).Ok?
    ensures var job := ActivePassiveJob(t, f, tool, rotor).value;
      && SetUp(t, f, job.balance, job.draft)
      && EffectiveDraft(Draft(tool, f).value, rotor.resistance, RotorThrust(rotor, f.speed).value) == Ok(job.draft)
      && Carries(job.balance, tool.weightKg * 9.81, tool.cg, rotor.weightKg * 9.81, rotor.cg,
                 SoilReactionRatio(tool).value * Draft(tool, f).value,
                 PtoRearLoad(rotor, t.wheelbase).value + rotor.verticalForce)
  {
    var b, g := ActivePassiveJob(t, f, tool, rotor).value.balance,
                GeometryTerms(f.depth, t.rearRadius, t.frontRadius).value;
    SetUpFrom(t, f, g, b.implementWeight, b.implementCg, b.soilReaction, b.draft, b.extraRear);
  }

  lemma RotorJobBalances(t: Tractor, f: Field, tool: Tool, rotor: Rotor, axles: AxleResolution)
    returns (torqueLoad: real)
    requires ActivePassiveJob(t, f, tool, rotor).Ok?
    requires ResolveAxleLoads(ActivePassiveJob(t, f, tool, rotor).value.balance) == Ok(axles)
    ensures Draft(tool, f).Ok?
    ensures var draft := ActivePassiveJob(t, f, tool, rotor).value.draft;
      && ThrustTakesOff(Draft(tool, f).value, rotor, f.speed, draft)
      && RotorBalances(t, f, tool, rotor, axles, Draft(tool, f).value, draft, torqueLoad)
  {
    RotorJobCarries(t, f, tool, rotor);
    torqueLoad := PtoRearLoad(rotor, t.wheelbase).value;
    var job := ActivePassiveJob(t, f, tool, rotor).value;
    TwoWeightsBalance(t, f, job.balance, job.draft, axles, tool.weightKg * 9.81, tool.cg, rotor.weightKg * 9.81,
                      rotor.cg, job.balance.soilReaction, job.balance.extraRear);
    ThrustAtSpeed(rotor, f.speed);
    TorqueOverWheelbase(rotor, t.wheelbase);
  }

  lemma RotorRunBalances(m: Maths, model: Model, t: Tractor, f: Field, tool: Tool, rotor: Rotor)
    returns (torqueLoad: real)
    requires ActivePassiveRun(m, model, t, f, tool, rotor).Ok?
    ensures Draft(tool, f).Ok?
    ensures var r := ActivePassiveRun(m, model, t, f, tool, rotor).value;
      && ThrustTakesOff(Draft(tool, f).value, rotor, f.speed, r.draft)
      && RotorBalances(t, f, tool, rotor, r.axles, Draft(tool, f).value, r.draft, torqueLoad)
  {
    ReportOfRun(m, model, t, f, ActivePassiveJob(t, f, tool, rotor).value);
    torqueLoad := RotorJobBalances(t, f, tool, rotor, ActivePassiveRun(m, model, t, f, tool, rotor).value.axles);
  }

  lemma ThrustAtSpeed(rotor: Rotor, speed: real)
    requires RotorThrust(rotor, speed).Ok?
    ensures RotorThrust(rotor, speed).value * (speed / 3.6) == rotor.efficiency * (rotor.ptoKw * 1000.0)
  {
    Cancels(rotor.efficiency * (rotor.ptoKw * 1000.0), speed / 3.6);
  }

  lemma TorqueOverWheelbase(rotor: Rotor, wheelbase: real)
    requires PtoRearLoad(rotor, wheelbase).Ok?
    ensures PtoRearLoad(rotor, wheelbase).value * wheelbase * rotor.rpm == 9550.0 * rotor.ptoKw
  {
    Cancels(9550.0 * rotor.ptoKw, rotor.rpm);
    Cancels(9550.0 * rotor.ptoKw / rotor.rpm, wheelbase);
  }

  // --- Width and PTO power ---

  /** The width a job works at, the PTO power it takes beside the wheels, and the slip rear ballast is sized
  at: a pair is as wide as its wider tool unless told otherwise; only a rotor takes power of its own. */
  lemma WidthAndPower(t: Tractor, f: Field, t1: Tool, t2: Tool, ki: real, override: Option<real>, rotor: Rotor)
    ensures var one := SingleJob(t, f, t1);
      one.Ok? ==> one.value.width == t1.width && one.value.extraPto == 0.0 && !one.value.atSolvedSlip
    ensures var pair := PassivePassiveJob(t, f, t1, t2, ki, override);
      pair.Ok? ==>
        && pair.value.extraPto == 0.0 && !pair.value.atSolvedSlip
        && (override.Some? && override.value > 0.0 ==> pair.value.width == override.value)
        && (override.None? || override.value <= 0.0 ==>
              pair.value.width in {t1.width, t2.width} && pair.value.width >= t1.width && pair.value.width >= t2.width)
    ensures var combi := ActivePassiveJob(t, f, t1, rotor);
      combi.Ok? ==>
        combi.value.width == t1.width && combi.value.extraPto == rotor.ptoKw && combi.value.atSolvedSlip
  {
  }
}
