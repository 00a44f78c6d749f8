/** The three simulation modes as functions: a towing job and the chain every job goes through. */
module Modes {
  import opened AxleLoads
  import opened Calculus
  import opened FrontBallast
  import opened Outcomes
  import opened PowerFuel
  import opened RearBallast
  import opened SlipSolver
  import opened Traction

  datatype Texture = Fine | Medium | Coarse
  datatype Kind = MbPlough | DiscPlough | DiscHarrow | Cultivator

  datatype Tractor = Tractor(
    ratedPto: real,
    wheelbase: real,
    frontKg: real,
    rearKg: real,
    hitch: real,
    cgFromRear: real,
    transmissionPct: real,
    reservePct: real,
    frontRadius: real,
    rearRadius: real,
    frontWidth: real,
    frontDiameter: real,
    rearWidth: real,
    rearDiameter: real,
    engineTorque: Option<real>)
  {
    function Weight(): real {
      (frontKg + rearKg) * GRAVITY
    }
  }

  datatype Field = Field(texture: Texture, coneIndex: real, depth: real, speed: real, area: real, width: real)

  datatype Tool = Tool(
    kind: Kind, width: real, weightKg: real, cg: real, a: real, b: real, c: real, ratio: Option<real>)
  {
    function Weight(): real {
      weightKg * GRAVITY
    }
  }

  datatype Rotor = Rotor(
    weightKg: real, cg: real, resistance: real, efficiency: real, ptoKw: real, rpm: real, verticalForce: real)

  function SoilFactor(texture: Texture): real {
    match texture case Fine => 1.0 case Medium => 0.70 case Coarse => 0.45
  }

  /** Py/D: the implement's own ratio, or the table's when it has none. */
  function SoilReactionRatio(tool: Tool): Outcome<real> {
    match tool.ratio
    case Some(r) => if r < 0.0 then Rejected(OutOfRange) else Ok(r)
    case None => Ok(if tool.kind in {MbPlough, Cultivator} then 0.20 else 0.0)
  }

  /** Eq. 3.1 (section 4 of ASABE D497): D = F (A + B S + C S^2) W T. */
  function Draft(tool: Tool, f: Field): Outcome<real> {
    if tool.width <= 0.0 || f.speed <= 0.0 || f.depth <= 0.0 then
      Rejected(NonPositiveInput)
    else
      Ok(SoilFactor(f.texture) * (tool.a + tool.b * f.speed + tool.c * (f.speed * f.speed)) * tool.width * f.depth)
  }

  predicate CommonInputsPositive(t: Tractor, f: Field) {
    f.speed > 0.0 && f.area > 0.0 && t.ratedPto > 0.0 && f.coneIndex > 0.0 && f.depth > 0.0 && t.wheelbase > 0.0
  }

  /** What distinguishes the modes: the balance, the draft to pull, the working width, the rotor's own
  PTO draw, and whether rear ballast is sized at the solved slip or at the 15% target. */
  datatype Job = Job(balance: Balance, draft: real, width: real, extraPto: real, atSolvedSlip: bool)

  function BalanceOf(
    t: Tractor, g: Geometry, weight: real, cg: real, reaction: real, draft: real, extra: real): Balance
  {
    Balance(t.Weight(), t.cgFromRear, weight, cg, reaction, t.hitch, draft, g.draftDepth, g.rearOffset,
            g.frontOffset, t.wheelbase, extra)
  }

  function SingleJob(t: Tractor, f: Field, tool: Tool): Outcome<Job> {
    if !CommonInputsPositive(t, f) || tool.width <= 0.0 then
      Rejected(NonPositiveInput)
    else
      var draft :- Draft(tool, f);
      var ratio :- SoilReactionRatio(tool);
      var g :- GeometryTerms(f.depth, t.rearRadius, t.frontRadius);
      Ok(Job(BalanceOf(t, g, tool.Weight(), tool.cg, ratio * draft, draft, 0.0), draft, tool.width, 0.0, false))
  }

  /** Weight-weighted centre of gravity of two units towed as one. */
  function CombinedCg(w1: real, x1: real, w2: real, x2: real): real {
    if w1 + w2 > 0.0 then (w1 * x1 + w2 * x2) / (w1 + w2) else 0.0
  }

  /** DTotal = (1 - ki)(D1 + D2), ki in [0, 0.25]. */
  function CombinedDraft(d1: real, d2: real, ki: real): Outcome<real> {
    if 0.0 <= ki <= 0.25 then Ok((1.0 - ki) * (d1 + d2)) else Rejected(OutOfRange)
  }

  function WorkingWidth(t1: Tool, t2: Tool, override: Option<real>): real {
    if override.Some? && override.value > 0.0 then override.value
    else if t1.width >= t2.width then t1.width else t2.width
  }

  function PassivePassiveJob(t: Tractor, f: Field, t1: Tool, t2: Tool, ki: real, override: Option<real>): Outcome<Job> {
    if !CommonInputsPositive(t, f) then
      Rejected(NonPositiveInput)
    else
      var d1 :- Draft(t1, f);
      var d2 :- Draft(t2, f);
      var draft :- CombinedDraft(d1, d2, ki);
      var r1 :- SoilReactionRatio(t1);
      var r2 :- SoilReactionRatio(t2);
      var g :- GeometryTerms(f.depth, t.rearRadius, t.frontRadius);
      var cg := CombinedCg(t1.Weight(), t1.cg, t2.Weight(), t2.cg);
      Ok(Job(BalanceOf(t, g, t1.Weight() + t2.Weight(), cg, r1 * d1 + r2 * d2, draft, 0.0), draft,
             WorkingWidth(t1, t2, override), 0.0, false))
  }

  /** Ta = eta * PPTO / V. */
  function RotorThrust(rotor: Rotor, speed: real): Outcome<real> {
    if !(0.25 <= rotor.efficiency <= 0.45) then Rejected(OutOfRange)
    else if speed <= 0.0 then Rejected(NonPositiveInput)
    else Ok(rotor.efficiency * (rotor.ptoKw * 1000.0) / (speed / 3.6))
  }

  /** Deff = Dp + Da - Ta; a rotor that pushes harder than the tool drags is refused. */
  function EffectiveDraft(passive: real, resistance: real, thrust: real): Outcome<real> {
    if passive + resistance - thrust <= 0.0 then Rejected(RotorOutpullsTool)
    else Ok(passive + resistance - thrust)
  }

  /** Weq = MPTO / L with MPTO = 9550 PPTO / N. */
  function PtoRearLoad(rotor: Rotor, wheelbase: real): Outcome<real> {
    if rotor.rpm <= 0.0 || wheelbase <= 0.0 then Rejected(NonPositiveInput)
    else Ok(9550.0 * rotor.ptoKw / rotor.rpm / wheelbase)
  }

  function ActivePassiveJob(t: Tractor, f: Field, tool: Tool, rotor: Rotor): Outcome<Job> {
    if !CommonInputsPositive(t, f) then
      Rejected(NonPositiveInput)
    else
      var passive :- Draft(tool, f);
      var thrust :- RotorThrust(rotor, f.speed);
      var draft :- EffectiveDraft(passive, rotor.resistance, thrust);
      var rearLoad :- PtoRearLoad(rotor, t.wheelbase);
      var ratio :- SoilReactionRatio(tool);
      var g :- GeometryTerms(f.depth, t.rearRadius, t.frontRadius);
      var rotorWeight := rotor.weightKg * GRAVITY;
      var cg := CombinedCg(tool.Weight(), tool.cg, rotorWeight, rotor.cg);
      Ok(Job(BalanceOf(t, g, tool.Weight() + rotorWeight, cg, ratio * passive, draft, rearLoad + rotor.verticalForce),
             draft, tool.width, rotor.ptoKw, true))
  }

  datatype Warning =
    | FrontLifts(kg: real)
    | SlipLimitReached
    | PartialResults
    | NoTractionAtAnySlip
    | TorqueNonPhysical
    | TorqueBelowDraft
    | FrontTargetUnreachable
    | RearPowerless
    | RearUnsettled
    | RearNotRequired

  datatype Wheels = Wheels(bnFront: real, rearRolling: real, frontRolling: real)

  datatype Report = Report(
    draft: real,
    axles: AxleResolution,
    slip: SlipSolution,
    tePct: real,
    frontUtilisation: real,
    rearUtilisation: real,
    wheels: Wheels,
    capacity: Capacity,
    power: Power,
    pet: Option<real>,
    frontKg: Option<real>,
    rearKg: Option<real>,
    warnings: seq<Warning>)

  function RearTyre(t: Tractor, f: Field): Tyre {
    Tyre(f.coneIndex, t.rearWidth, t.rearDiameter)
  }

  function FrontTyre(t: Tractor, f: Field): Tyre {
    Tyre(f.coneIndex, t.frontWidth, t.frontDiameter)
  }

  /** TE = mu (1 - s) / mu_g in percent, clamped; a run that develops none is refused. */
  function TractiveEfficiency(s: SlipSolution): Outcome<real> {
    if s.muG == 0.0 then Rejected(NoTractiveEfficiency)
    else
      var te := Clamp(s.mu * (1.0 - s.slipPct / 100.0) / s.muG * 100.0, 0.0, 100.0);
      if te <= 0.0 then Rejected(NoTractiveEfficiency) else Ok(te)
  }

  function WheelResponse(model: Model, tyre: Tyre, frontLoad: real, bnRear: real, slip: real): Outcome<Wheels> {
    if !tyre.Positive() || frontLoad <= 0.0 || bnRear <= 0.0 then
      Rejected(NonPositiveInput)
    else
      var bn := MobilityNumber(tyre, frontLoad / 2.0);
      Ok(Wheels(bn, model.rolling(bnRear, slip), RollingResistanceFront(bn)))
  }

  /** Eq. 3.4's pull limit, for a tractor with a known positive engine torque. */
  function TorquePull(t: Tractor, w: Wheels, axles: AxleResolution): Option<real>
    requires t.rearRadius > 0.0
  {
    if t.engineTorque.None? || t.engineTorque.value <= 0.0 then None
    else
      Some(t.engineTorque.value * (t.transmissionPct / 100.0) / t.rearRadius
           - (w.rearRolling * axles.rear + w.frontRolling * axles.front))
  }

  function AxleWarnings(a: AxleResolution): seq<Warning> {
    if a.lifted then [FrontLifts(a.stabilisingKg)] else []
  }

  function SlipWarnings(s: SlipSolution): seq<Warning> {
    if s.converged then [] else [SlipLimitReached, PartialResults]
  }

  function TorqueWarnings(pet: Option<real>, draft: real): seq<Warning> {
    if pet.None? then []
    else if pet.value <= 0.0 then [TorqueNonPhysical]
    else if pet.value < draft then [TorqueBelowDraft]
    else []
  }

  function FrontWarnings(kg: Option<real>): seq<Warning> {
    if kg.None? then [FrontTargetUnreachable] else []
  }

  function RearWarnings(s: Sizing, atSolvedSlip: bool): seq<Warning> {
    match s
    case NoNetTraction => [RearPowerless]
    case DidNotSettle => [RearUnsettled]
    case Sized(kg) => if atSolvedSlip && kg == 0.0 then [RearNotRequired] else []
  }

  function KgOf(s: Sizing): Option<real> {
    if s.Sized? then Some(s.kg) else None
  }

  function TargetSlip(job: Job, s: SlipSolution): real {
    if job.atSolvedSlip then s.slipPct / 100.0 else REAR_BALLAST_TARGET_SLIP_PCT / 100.0
  }

  /** Axle loads, then the slip they need, then the tractive efficiency there. */
  function ResolvedSlip(model: Model, tyre: Tyre, job: Job): Outcome<(AxleResolution, SlipSolution, real)> {
    var axles :- ResolveAxleLoads(job.balance);
    var slip :- Solve(model, tyre, axles.rear, job.draft);
    var te :- TractiveEfficiency(slip);
    Ok((axles, slip, te))
  }

  /** Wheels, capacity, power and front ballast, once the axles and the slip are known. */
  function Measured(
    m: Maths, model: Model, t: Tractor, f: Field, job: Job, axles: AxleResolution, slip: SlipSolution, te: real)
    : Outcome<Report>
    requires t.rearRadius > 0.0 && job.balance.Span() != 0.0
  {
    if job.balance.tractorWeight <= 0.0 then
      Rejected(NonPositiveInput)
    else
      var weight := job.balance.tractorWeight;
      var wheels :- WheelResponse(model, FrontTyre(t, f), axles.front, slip.bnRear, slip.slipPct / 100.0);
      var capacity :- FieldCapacity(f.speed, job.width, f.area, f.width);
      var power :- PowerAndFuel(m, job.draft, f.speed, te, t.transmissionPct, t.reservePct, t.ratedPto,
                                capacity.theoretical, capacity.actual, job.extraPto);
      var pet := TorquePull(t, wheels, axles);
      var front := FrontBallastKg(job.balance);
      Ok(Report(job.draft, axles, slip, te, axles.front / weight, axles.rear / weight, wheels, capacity, power,
                pet, front, None,
                AxleWarnings(axles) + SlipWarnings(slip) + TorqueWarnings(pet, job.draft) + FrontWarnings(front)))
  }

  /** Everything but the rear ballast. */
  function Towing(m: Maths, model: Model, t: Tractor, f: Field, job: Job): Outcome<Report>
    requires t.rearRadius > 0.0
  {
    var (axles, slip, te) :- ResolvedSlip(model, RearTyre(t, f), job);
    Measured(m, model, t, f, job, axles, slip, te)
  }

  /** The rear ballast is sized last, at the job's target slip. */
  function WithRearBallast(model: Model, tyre: Tyre, job: Job, r: Report): Outcome<Report> {
    var rear :- RearBallastKg(model, tyre, r.axles.rear, job.draft, TargetSlip(job, r.slip));
    Ok(r.(rearKg := KgOf(rear), warnings := r.warnings + RearWarnings(rear, job.atSolvedSlip)))
  }

  /** The whole chain of a job. */
  function Run(m: Maths, model: Model, t: Tractor, f: Field, job: Job): Outcome<Report>
    requires t.rearRadius > 0.0
  {
    var r :- Towing(m, model, t, f, job);
    WithRearBallast(model, RearTyre(t, f), job, r)
  }

  function SingleRun(m: Maths, model: Model, t: Tractor, f: Field, tool: Tool): Outcome<Report> {
    var job :- SingleJob(t, f, tool);
    Run(m, model, t, f, job)
  }

  /** A report that also shows the draft of each of the two tools. */
  datatype PairReport = PairReport(draft1: real, draft2: real, report: Report)

  function PassivePassiveRun(
    m: Maths, model: Model, t: Tractor, f: Field, t1: Tool, t2: Tool, ki: real, override: Option<real>)
    : Outcome<PairReport>
  {
    var job :- PassivePassiveJob(t, f, t1, t2, ki, override);
    var d1 :- Draft(t1, f);
    var d2 :- Draft(t2, f);
    var r :- Run(m, model, t, f, job);
    Ok(PairReport(d1, d2, r))
  }

  function ActivePassiveRun(m: Maths, model: Model, t: Tractor, f: Field, tool: Tool, rotor: Rotor): Outcome<Report> {
    var job :- ActivePassiveJob(t, f, tool, rotor);
    Run(m, model, t, f, job)
  }
}
