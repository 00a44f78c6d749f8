/** What the figures of a report say of one another, and its warnings of its figures. */
module ReportLaws {
  import opened AxleLoads
  import opened Calculus
  import opened FrontBallast
  import opened ModeLaws
  import opened Modes
  import opened Outcomes
  import opened PowerFuel
  import opened RearBallast
  import opened SlipSolver
  import opened Traction

  // --- The figures of a report agree with one another ---

  /** Field capacity: the field is worked at full width in `totalTimeH - turningTimeH` hours, with two
  headland passes a turn, one turn for each working width of the field, to the nearest. */
  predicate CapacityAddsUp(f: Field, width: real, c: Capacity) {
    && c.theoretical * 10.0 == f.speed * width
    && (c.totalTimeH - c.turningTimeH) * c.theoretical == f.area
    && c.actual * c.totalTimeH == f.area
    && c.turningTimeH * 1800.0 == c.turningTimeS * c.turns as real
    && 8.0 <= c.turningTimeS <= 45.0
    && (f.width >= 0.0 ==> (c.turns as real - 0.5) * width <= f.width < (c.turns as real + 0.5) * width)
    && c.rawEfficiencyPct * c.theoretical == 100.0 * c.actual
    && 50.0 <= c.efficiencyPct <= 95.0
    && (50.0 <= c.rawEfficiencyPct <= 95.0 ==> c.efficiencyPct == c.rawEfficiencyPct)
  }

  lemma CapacityIsAccounted(f: Field, width: real, c: Capacity)
    requires FieldCapacity(f.speed, width, f.area, f.width) == Ok(c)
    ensures CapacityAddsUp(f, width, c)
  {
    CapacityParts(f, width, c);
    PartsAddUp(f, width, c);
  }

  predicate Parts(f: Field, width: real, c: Capacity) {
    && width > 0.0 && c.theoretical > 0.0 && c.totalTimeH > 0.0
    && c.theoretical == f.speed * width / 10.0
    && c.totalTimeH == c.turningTimeH + f.area / c.theoretical && c.actual == f.area / c.totalTimeH
    && c.rawEfficiencyPct == c.actual / c.theoretical * 100.0
    && c.efficiencyPct == Clamp(c.rawEfficiencyPct, 50.0, 95.0)
    && c.turningTimeH == c.turningTimeS * c.turns as real / 3600.0 * 2.0 && 8.0 <= c.turningTimeS <= 45.0
    && c.turns == if RoundHalfAway(f.width / width) > 0 then RoundHalfAway(f.width / width) else 0
  }

  lemma CapacityParts(f: Field, width: real, c: Capacity)
    requires FieldCapacity(f.speed, width, f.area, f.width) == Ok(c)
    ensures Parts(f, width, c)
  {
  }

  lemma PartsAddUp(f: Field, width: real, c: Capacity)
    requires Parts(f, width, c)
    ensures CapacityAddsUp(f, width, c)
  {
    HoursAddUp(f.area, c.theoretical, c.turningTimeH, c.totalTimeH, c.actual, c.rawEfficiencyPct);
    TurningAddsUp(c.turningTimeS, c.turns as real, c.turningTimeH);
    if f.width >= 0.0 {
      NearestTurns(f.width, width, f.width / width, c.turns);
    }
  }

  lemma HoursAddUp(area: real, rate: real, turning: real, total: real, actual: real, raw: real)
    requires rate > 0.0 && total > 0.0 && total == turning + area / rate && actual == area / total
    requires raw == actual / rate * 100.0
    ensures (total - turning) * rate == area && actual * total == area && raw * rate == 100.0 * actual
  {
    Cancels(area, rate);
    Cancels(area, total);
    Cancels(actual, rate);
  }

  lemma TurningAddsUp(seconds: real, turns: real, hours: real)
    requires hours == seconds * turns / 3600.0 * 2.0
    ensures hours * 1800.0 == seconds * turns
  {
  }

  lemma NearestTurns(across: real, width: real, ratio: real, turns: nat)
    requires width > 0.0 && across >= 0.0 && ratio == across / width
    requires turns == if RoundHalfAway(ratio) > 0 then RoundHalfAway(ratio) else 0
    ensures (turns as real - 0.5) * width <= across < (turns as real + 0.5) * width
  {
    NonNegativeQuotient(across, width);
    RoundsNearest(ratio);
    Cancels(across, width);
    Between(turns as real - 0.5, ratio, turns as real + 0.5, width, across);
  }

  lemma Between(low: real, x: real, high: real, k: real, exact: real)
    requires low <= x < high && k > 0.0 && x * k == exact
    ensures low * k <= exact < high * k
  {
    var p, q := OrderedProducts(low, x, k);
    ScaleStrict(k, x, high);
    Commutes(k, x);
    Commutes(k, high);
  }

  lemma RoundsNearest(x: real)
    requires x >= 0.0
    ensures 0 <= RoundHalfAway(x) && -0.5 <= RoundHalfAway(x) as real - 0.5 <= x < RoundHalfAway(x) as real + 0.5
  {
  }

  lemma Commutes(x: real, y: real)
    ensures x * y == y * x
  {
  }

  /** Power: what the draft takes at the forward speed comes through the tyres and the transmission from the
  PTO, beside the rotor's own share; the fuel is burnt for the drawbar. */
  predicate PowerAddsUp(t: Tractor, speed: real, draft: real, tePct: real, actual: real, extraPto: real, p: Power) {
    && p.drawbarKw * 3600.0 == draft * speed
    && p.ptoKw * (tePct / 100.0 * (t.transmissionPct / 100.0)) == p.drawbarKw
    && p.fraction * t.ratedPto == p.ptoKw + extraPto
    && p.utilisationPct * (t.ratedPto * (1.0 - t.reservePct / 100.0)) == 100.0 * (p.ptoKw + extraPto)
    && p.fuelLph == p.sfc * p.drawbarKw && p.fuelLphPtoBasis == p.sfc * (p.ptoKw + extraPto)
    && (p.fuelLph >= 0.0 ==> p.fuelLPerHa * actual == p.fuelLph)
  }

  lemma PowerIsAccounted(
    m: Maths, t: Tractor, draft: real, speed: real, tePct: real, theoretical: real, actual: real, extraPto: real,
    p: Power)
    requires PowerAndFuel(m, draft, speed, tePct, t.transmissionPct, t.reservePct, t.ratedPto, theoretical, actual,
                          extraPto) == Ok(p)
    ensures PowerAddsUp(t, speed, draft, tePct, actual, extraPto, p)
  {
    var work := draft * speed;
    var share, spare := tePct / 100.0 * (t.transmissionPct / 100.0), t.ratedPto * (1.0 - t.reservePct / 100.0);
    PowerFrom(m, t, draft, speed, tePct, theoretical, actual, extraPto, p, work, share, spare);
    PowerPartsAddUp(t, work, share, spare, actual, extraPto, p);
  }

  predicate PowerParts(t: Tractor, work: real, share: real, spare: real, actual: real, extraPto: real, p: Power) {
    && share > 0.0 && spare > 0.0 && t.ratedPto > 0.0 && actual > 0.0
    && p.drawbarKw == work / 3.6 / 1000.0 && p.ptoKw == p.drawbarKw / share
    && p.fraction == (p.ptoKw + extraPto) / t.ratedPto
    && p.utilisationPct == (p.ptoKw + extraPto) / spare * 100.0
    && p.fuelLPerHa == if p.fuelLph / actual > 0.0 then p.fuelLph / actual else 0.0
  }

  lemma PowerFrom(
    m: Maths, t: Tractor, draft: real, speed: real, tePct: real, theoretical: real, actual: real, extraPto: real,
    p: Power, work: real, share: real, spare: real)
    requires PowerAndFuel(m, draft, speed, tePct, t.transmissionPct, t.reservePct, t.ratedPto, theoretical, actual,
                          extraPto) == Ok(p)
    requires work == draft * speed && share == tePct / 100.0 * (t.transmissionPct / 100.0)
    requires spare == t.ratedPto * (1.0 - t.reservePct / 100.0)
    ensures PowerParts(t, work, share, spare, actual, extraPto, p)
    ensures p.fuelLph == p.sfc * p.drawbarKw && p.fuelLphPtoBasis == p.sfc * (p.ptoKw + extraPto)
  {
    DivisorPositive(tePct / 100.0, t.transmissionPct / 100.0);
    DivisorPositive(t.ratedPto, 1.0 - t.reservePct / 100.0);
  }

  lemma PowerPartsAddUp(t: Tractor, work: real, share: real, spare: real, actual: real, extraPto: real, p: Power)
    requires PowerParts(t, work, share, spare, actual, extraPto, p)
    ensures p.drawbarKw * 3600.0 == work && p.ptoKw * share == p.drawbarKw
    ensures p.fraction * t.ratedPto == p.ptoKw + extraPto
    ensures p.utilisationPct * spare == 100.0 * (p.ptoKw + extraPto)
    ensures p.fuelLph >= 0.0 ==> p.fuelLPerHa * actual == p.fuelLph
  {
    Cancels(p.drawbarKw, share);
    EnginePower(p, p.ptoKw + extraPto, t.ratedPto, spare);
    Cancels(p.fuelLph, actual);
    NonNegativeQuotient(p.fuelLph, actual);
  }

  lemma EnginePower(p: Power, total: real, rated: real, spare: real)
    requires rated > 0.0 && spare > 0.0 && p.fraction == total / rated && p.utilisationPct == total / spare * 100.0
    ensures p.fraction * rated == total && p.utilisationPct * spare == 100.0 * total
  {
    Cancels(total, rated);
    Cancels(total, spare);
  }

  lemma NonNegativeQuotient(x: real, y: real)
    requires y > 0.0
    ensures x >= 0.0 ==> x / y >= 0.0
  {
    if x > 0.0 {
      QuotientPositive(x, y);
    }
  }

  /** Tractive efficiency is net over gross traction times what slip leaves of the wheel's travel; the clamp
  to [0, 100] never acts on a run that is accepted. */
  predicate EfficiencyAddsUp(s: SlipSolution, tePct: real) {
    s.mu > 0.0 && tePct * s.muG == 100.0 * (s.mu * (1.0 - s.slipPct / 100.0))
  }

  lemma EfficiencyIsAccounted(model: Model, tyre: Tyre, load: real, draft: real, s: SlipSolution, te: real)
    requires model.Sound() && Solve(model, tyre, load, draft) == Ok(s) && TractiveEfficiency(s) == Ok(te)
    ensures EfficiencyAddsUp(s, te)
  {
    SolvedSlipRange(model, tyre, load, draft, s);
    SolvedBelowEnvelope(model, tyre, load, draft, s);
    EfficiencyOfSlip(s, te);
  }

  lemma SolvedBelowEnvelope(model: Model, tyre: Tyre, load: real, draft: real, s: SlipSolution)
    requires model.Sound() && Solve(model, tyre, load, draft) == Ok(s) && s.slipPct >= 0.0
    ensures s.muG > 0.0 && s.mu < s.muG
  {
    assert model.BoundedAt(MobilityNumber(tyre, load / 2.0), s.slipPct / 100.0);
  }

  lemma EfficiencyOfSlip(s: SlipSolution, te: real)
    requires TractiveEfficiency(s) == Ok(te) && s.muG > 0.0 && s.mu < s.muG && 2.0 <= s.slipPct <= 20.0
    ensures EfficiencyAddsUp(s, te)
  {
    EfficiencyUnclamped(s.mu, s.muG, 1.0 - s.slipPct / 100.0, te);
  }

  lemma EfficiencyUnclamped(mu: real, muG: real, left: real, te: real)
    requires muG > 0.0 && mu < muG && 0.0 < left < 1.0
    requires te == Clamp(mu * left / muG * 100.0, 0.0, 100.0) && te > 0.0
    ensures mu > 0.0 && te * muG == 100.0 * (mu * left)
  {
    var kept, ratio := mu * left, mu * left / muG;
    Cancels(kept, muG);
    if mu <= 0.0 {
      Scale(left, mu, 0.0);
      QuotientAtMost(kept, muG, 0.0);
    } else {
      var part := PartOf(mu, left);
      QuotientAtMost(kept, muG, 1.0);
    }
  }

  /** The pull the engine's torque allows, where that is known: at the rim it turns the wheels against their
  rolling resistance and the pull together. */
  predicate TorqueAddsUp(t: Tractor, r: Report) {
    && (r.pet.Some? <==> t.engineTorque.Some? && t.engineTorque.value > 0.0)
    && (r.pet.Some? ==>
          (r.pet.value + r.wheels.rearRolling * r.axles.rear + r.wheels.frontRolling * r.axles.front) * t.rearRadius
          == t.engineTorque.value * (t.transmissionPct / 100.0))
  }

  lemma TorqueIsAccounted(t: Tractor, w: Wheels, axles: AxleResolution)
    requires t.rearRadius > 0.0 && TorquePull(t, w, axles).Some?
    ensures (TorquePull(t, w, axles).value + w.rearRolling * axles.rear + w.frontRolling * axles.front) * t.rearRadius
         == t.engineTorque.value * (t.transmissionPct / 100.0)
  {
    var moment := t.engineTorque.value * (t.transmissionPct / 100.0);
    Cancels(moment, t.rearRadius);
    var rear, front := w.rearRolling * axles.rear, w.frontRolling * axles.front;
    assert TorquePull(t, w, axles).value == moment / t.rearRadius - (rear + front);
    assert TorquePull(t, w, axles).value + rear + front == moment / t.rearRadius;
  }

  /** Everything a report adds up to. */
  predicate ReportAddsUp(t: Tractor, f: Field, job: Job, r: Report) {
    && r.draft == job.draft
    && EfficiencyAddsUp(r.slip, r.tePct)
    && CapacityAddsUp(f, job.width, r.capacity)
    && PowerAddsUp(t, f.speed, r.draft, r.tePct, r.capacity.actual, job.extraPto, r.power)
    && LoadsAddUp(t, job.balance, r)
    && RearWheelsAddUp(t, f, r.axles.rear, r.slip)
    && FrontWheelsAddUp(t, f, r.axles.front, r.wheels)
  }

  /** Each axle's load is carried by two wheels: the wheel numeric times the load of one, in kN, is the
  strength of the soil under the tyre. The undriven front wheel rolls at 1 / Bn + 0.04. */
  predicate RearWheelsAddUp(t: Tractor, f: Field, load: real, slip: SlipSolution) {
    slip.bnRear * (load / 2000.0) == f.coneIndex * t.rearWidth * t.rearDiameter
  }

  predicate FrontWheelsAddUp(t: Tractor, f: Field, load: real, w: Wheels) {
    && w.bnFront * (load / 2000.0) == f.coneIndex * t.frontWidth * t.frontDiameter
    && (w.frontRolling - 0.04) * w.bnFront == 1.0
  }

  predicate LoadsAddUp(t: Tractor, b: Balance, r: Report) {
    && TorqueAddsUp(t, r)
    && r.rearUtilisation * b.tractorWeight == r.axles.rear && r.frontUtilisation * b.tractorWeight == r.axles.front
  }

  lemma MeasuredAddsUp(
    m: Maths, model: Model, t: Tractor, f: Field, job: Job, axles: AxleResolution, slip: SlipSolution, te: real,
    r: Report)
    requires t.rearRadius > 0.0 && job.balance.Span() != 0.0 && EfficiencyAddsUp(slip, te)
    requires Solve(model, RearTyre(t, f), axles.rear, job.draft) == Ok(slip)
    requires Measured(m, model, t, f, job, axles, slip, te) == Ok(r)
    ensures ReportAddsUp(t, f, job, r)
  {
    MeasuredWheels(m, model, t, f, job, axles, slip, te, r);
    RearWheels(model, t, f, axles.rear, job.draft, slip);
    MeasuredWork(m, model, t, f, job, axles, slip, te, r);
    MeasuredLoads(m, model, t, f, job, axles, slip, te, r);
    PartsMakeReport(t, f, job, r);
  }

  lemma PartsMakeReport(t: Tractor, f: Field, job: Job, r: Report)
    requires r.draft == job.draft && EfficiencyAddsUp(r.slip, r.tePct) && CapacityAddsUp(f, job.width, r.capacity)
    requires PowerAddsUp(t, f.speed, r.draft, r.tePct, r.capacity.actual, job.extraPto, r.power)
    requires LoadsAddUp(t, job.balance, r)
    requires RearWheelsAddUp(t, f, r.axles.rear, r.slip) && FrontWheelsAddUp(t, f, r.axles.front, r.wheels)
    ensures ReportAddsUp(t, f, job, r)
  {
  }

  lemma MeasuredWheels(
    m: Maths, model: Model, t: Tractor, f: Field, job: Job, axles: AxleResolution, slip: SlipSolution, te: real,
    r: Report)
    requires t.rearRadius > 0.0 && job.balance.Span() != 0.0
    requires Measured(m, model, t, f, job, axles, slip, te) == Ok(r)
    ensures r.axles == axles && FrontWheelsAddUp(t, f, r.axles.front, r.wheels)
  {
    MeasuredFrom(m, model, t, f, job, axles, slip, te, r);
    FrontWheels(model, t, f, axles, slip.bnRear, slip.slipPct / 100.0, r.wheels);
  }

  lemma MeasuredWork(
    m: Maths, model: Model, t: Tractor, f: Field, job: Job, axles: AxleResolution, slip: SlipSolution, te: real,
    r: Report)
    requires t.rearRadius > 0.0 && job.balance.Span() != 0.0
    requires Measured(m, model, t, f, job, axles, slip, te) == Ok(r)
    ensures CapacityAddsUp(f, job.width, r.capacity)
    ensures PowerAddsUp(t, f.speed, r.draft, r.tePct, r.capacity.actual, job.extraPto, r.power)
  {
    MeasuredFrom(m, model, t, f, job, axles, slip, te, r);
    CapacityIsAccounted(f, job.width, r.capacity);
    PowerIsAccounted(m, t, job.draft, f.speed, te, r.capacity.theoretical, r.capacity.actual, job.extraPto, r.power);
  }

  lemma MeasuredLoads(
    m: Maths, model: Model, t: Tractor, f: Field, job: Job, axles: AxleResolution, slip: SlipSolution, te: real,
    r: Report)
    requires t.rearRadius > 0.0 && job.balance.Span() != 0.0
    requires Measured(m, model, t, f, job, axles, slip, te) == Ok(r)
    ensures r.draft == job.draft && r.slip == slip && r.tePct == te
    ensures LoadsAddUp(t, job.balance, r)
  {
    MeasuredFrom(m, model, t, f, job, axles, slip, te, r);
    LoadsAreAccounted(t, job.balance, r);
  }

  lemma LoadsAreAccounted(t: Tractor, b: Balance, r: Report)
    requires t.rearRadius > 0.0 && r.pet == TorquePull(t, r.wheels, r.axles) && b.tractorWeight > 0.0
    requires r.rearUtilisation == r.axles.rear / b.tractorWeight
    requires r.frontUtilisation == r.axles.front / b.tractorWeight
    ensures LoadsAddUp(t, b, r)
  {
    if r.pet.Some? {
      TorqueIsAccounted(t, r.wheels, r.axles);
    }
    Cancels(r.axles.rear, b.tractorWeight);
    Cancels(r.axles.front, b.tractorWeight);
  }

  lemma MeasuredFrom(
    m: Maths, model: Model, t: Tractor, f: Field, job: Job, axles: AxleResolution, slip: SlipSolution, te: real,
    r: Report)
    requires t.rearRadius > 0.0 && job.balance.Span() != 0.0
    requires Measured(m, model, t, f, job, axles, slip, te) == Ok(r)
    ensures r.draft == job.draft && r.axles == axles && r.slip == slip && r.tePct == te
    ensures WheelResponse(model, FrontTyre(t, f), axles.front, slip.bnRear, slip.slipPct / 100.0) == Ok(r.wheels)
    ensures FieldCapacity(f.speed, job.width, f.area, f.width) == Ok(r.capacity)
    ensures PowerAndFuel(m, job.draft, f.speed, te, t.transmissionPct, t.reservePct, t.ratedPto,
                         r.capacity.theoretical, r.capacity.actual, job.extraPto) == Ok(r.power)
    ensures r.pet == TorquePull(t, r.wheels, axles) && r.frontKg == FrontBallastKg(job.balance)
    ensures job.balance.tractorWeight > 0.0
    ensures r.rearUtilisation == axles.rear / job.balance.tractorWeight
    ensures r.frontUtilisation == axles.front / job.balance.tractorWeight
    ensures r.warnings
         == AxleWarnings(axles) + SlipWarnings(slip) + TorqueWarnings(r.pet, job.draft) + FrontWarnings(r.frontKg)
  {
  }

  /** A run is what was measured, with the rear ballast and its warning added. */
  lemma RunFrom(m: Maths, model: Model, t: Tractor, f: Field, job: Job)
    returns (axles: AxleResolution, slip: SlipSolution, te: real, towed: Report, rear: Sizing)
    requires t.rearRadius > 0.0 && Run(m, model, t, f, job).Ok?
    ensures ResolveAxleLoads(job.balance) == Ok(axles)
    ensures Solve(model, RearTyre(t, f), axles.rear, job.draft) == Ok(slip) && TractiveEfficiency(slip) == Ok(te)
    ensures job.balance.Span() != 0.0 && Measured(m, model, t, f, job, axles, slip, te) == Ok(towed)
    ensures Run(m, model, t, f, job).value
         == towed.(rearKg := KgOf(rear), warnings := towed.warnings + RearWarnings(rear, job.atSolvedSlip))
  {
    var resolved := ResolvedSlip(model, RearTyre(t, f), job).value;
    axles, slip, te := resolved.0, resolved.1, resolved.2;
    towed := Towing(m, model, t, f, job).value;
    rear := RearBallastKg(model, RearTyre(t, f), towed.axles.rear, job.draft, TargetSlip(job, towed.slip)).value;
  }

  lemma NumericOfWheel(tyre: Tyre, load: real)
    requires tyre.Positive() && load > 0.0
    ensures MobilityNumber(tyre, load / 2.0) * (load / 2000.0) == tyre.coneIndex * tyre.sectionWidth * tyre.diameter
  {
    Cancels(tyre.Strength(), load / 2.0 / 1000.0);
    assert load / 2.0 / 1000.0 == load / 2000.0;
  }

  lemma FrontWheels(model: Model, t: Tractor, f: Field, axles: AxleResolution, bnRear: real, slip: real, w: Wheels)
    requires WheelResponse(model, FrontTyre(t, f), axles.front, bnRear, slip) == Ok(w)
    ensures FrontWheelsAddUp(t, f, axles.front, w)
  {
    NumericOfWheel(FrontTyre(t, f), axles.front);
    Cancels(1.0, w.bnFront);
  }

  lemma RearWheels(model: Model, t: Tractor, f: Field, load: real, draft: real, s: SlipSolution)
    requires Solve(model, RearTyre(t, f), load, draft) == Ok(s)
    ensures RearWheelsAddUp(t, f, load, s)
  {
    NumericOfWheel(RearTyre(t, f), load);
  }

  lemma SameFigures(t: Tractor, f: Field, job: Job, a: Report, b: Report)
    requires ReportAddsUp(t, f, job, a) && b == a.(rearKg := b.rearKg, warnings := b.warnings)
    ensures ReportAddsUp(t, f, job, b)
  {
  }

  /** The figures of every accepted report agree with one another. */
  lemma RunAddsUp(m: Maths, model: Model, t: Tractor, f: Field, job: Job)
    requires model.Sound() && t.rearRadius > 0.0 && Run(m, model, t, f, job).Ok?
    ensures ReportAddsUp(t, f, job, Run(m, model, t, f, job).value)
  {
    var axles, slip, te, towed, rear := RunFrom(m, model, t, f, job);
    EfficiencyIsAccounted(model, RearTyre(t, f), axles.rear, job.draft, slip, te);
    MeasuredAddsUp(m, model, t, f, job, axles, slip, te, towed);
    SameFigures(t, f, job, towed, Run(m, model, t, f, job).value);
  }

  /** The pull of a slip solution is its net traction on the axle's load, and net traction and rolling resistance
  share what the envelope develops at the slip. */
  predicate SlipAddsUp(m: Maths, s: SlipSolution, load: real, rearRolling: real)
    requires m.Valid()
  {
    && s.pull == s.mu * load
    && s.bnRear > 0.0 && s.muG == GrossTractionRatio(m, s.bnRear)
    && s.mu + rearRolling == s.muG * SlipFactor(m, s.slipPct / 100.0) + 0.04
  }

  lemma RunSlips(m: Maths, t: Tractor, f: Field, job: Job)
    requires m.Valid() && t.rearRadius > 0.0 && Run(m, Brixius(m), t, f, job).Ok?
    ensures var r := Run(m, Brixius(m), t, f, job).value;
      SlipAddsUp(m, r.slip, r.axles.rear, r.wheels.rearRolling)
  {
    var axles, slip, te, towed, rear := RunFrom(m, Brixius(m), t, f, job);
    MeasuredRolling(m, t, f, job, axles, slip, te, towed);
    SolvedOnEnvelope(m, RearTyre(t, f), axles.rear, job.draft, slip, towed.wheels.rearRolling);
  }

  lemma MeasuredRolling(
    m: Maths, t: Tractor, f: Field, job: Job, axles: AxleResolution, slip: SlipSolution, te: real, r: Report)
    requires m.Valid() && t.rearRadius > 0.0 && job.balance.Span() != 0.0
    requires Measured(m, Brixius(m), t, f, job, axles, slip, te) == Ok(r)
    ensures r.slip == slip && r.axles == axles && slip.bnRear > 0.0
    ensures r.wheels.rearRolling == RollingResistanceRear(m, slip.bnRear, slip.slipPct / 100.0)
  {
    MeasuredFrom(m, Brixius(m), t, f, job, axles, slip, te, r);
  }

  lemma SolvedOnEnvelope(m: Maths, tyre: Tyre, load: real, draft: real, s: SlipSolution, rearRolling: real)
    requires m.Valid() && Solve(Brixius(m), tyre, load, draft) == Ok(s) && s.bnRear > 0.0
    requires rearRolling == RollingResistanceRear(m, s.bnRear, s.slipPct / 100.0)
    ensures SlipAddsUp(m, s, load, rearRolling)
  {
    SolvedOn(Brixius(m), tyre, load, draft, s);
    SharesEnvelope(m, s, load, rearRolling);
  }

  lemma SharesEnvelope(m: Maths, s: SlipSolution, load: real, rearRolling: real)
    requires m.Valid() && s.bnRear > 0.0 && s.pull == s.mu * load
    requires s.mu == Brixius(m).net(s.bnRear, s.slipPct / 100.0) && s.muG == Brixius(m).envelope(s.bnRear)
    requires rearRolling == RollingResistanceRear(m, s.bnRear, s.slipPct / 100.0)
    ensures SlipAddsUp(m, s, load, rearRolling)
  {
    ResistanceIsLostTraction(m, s.bnRear, s.slipPct / 100.0);
  }

  lemma SolvedOn(model: Model, tyre: Tyre, load: real, draft: real, s: SlipSolution)
    requires Solve(model, tyre, load, draft) == Ok(s)
    ensures s.mu == model.net(s.bnRear, s.slipPct / 100.0) && s.pull == s.mu * load
    ensures s.muG == model.envelope(s.bnRear)
  {
    var bn := MobilityNumber(tyre, load / 2.0);
    SolutionAt(DutyOf(model, bn, load, draft), bn, model.envelope(bn));
    DutyAt(model, bn, load, draft, s.slipPct, s.mu, s.pull);
  }

  lemma SolutionAt(d: Duty, bn: real, muG: real)
    ensures var s := Solution(d, bn, muG);
      s.mu == d.mu(s.slipPct) && s.pull == d.pull(s.slipPct) && s.bnRear == bn && s.muG == muG
  {
  }

  // --- The warnings of a report ---

  /** Each warning is given exactly where what it says is so. */
  ghost predicate WarningsTell(job: Job, r: Report) {
    && (forall kg: real :: FrontLifts(kg) in r.warnings <==> r.axles.lifted && kg == r.axles.stabilisingKg)
    && (SlipLimitReached in r.warnings <==> !r.slip.converged)
    && (TorqueNonPhysical in r.warnings <==> r.pet.Some? && r.pet.value <= 0.0)
    && (TorqueBelowDraft in r.warnings <==> r.pet.Some? && 0.0 < r.pet.value < r.draft)
    && (FrontTargetUnreachable in r.warnings <==> r.frontKg.None?)
    && (RearNotRequired in r.warnings <==> job.atSolvedSlip && r.rearKg == Some(0.0))
    && (RearPowerless in r.warnings || RearUnsettled in r.warnings <==> r.rearKg.None?)
  }

  /** What an axle resolution says of lifting: the front axle lifts without ballast, and holds with what the
  front-ballast solver finds. */
  predicate LiftTold(b: Balance, axles: AxleResolution)
    requires b.Span() != 0.0
  {
    && (axles.lifted <==> b.FrontLoad(0.0) <= 0.0)
    && (!axles.lifted ==> axles.stabilisingKg == 0.0)
    && (axles.lifted ==> b.tractorWeight > 0.0 && FrontBallastKg(b) == Some(axles.stabilisingKg))
  }

  lemma RunWarns(m: Maths, model: Model, t: Tractor, f: Field, job: Job)
    requires t.rearRadius > 0.0 && Run(m, model, t, f, job).Ok?
    ensures WarningsTell(job, Run(m, model, t, f, job).value)
    ensures job.balance.Span() != 0.0 && LiftTold(job.balance, Run(m, model, t, f, job).value.axles)
  {
    var axles, slip, te, towed, rear := RunFrom(m, model, t, f, job);
    MeasuredFrom(m, model, t, f, job, axles, slip, te, towed);
    TowedTells(towed, AxleWarnings(axles), SlipWarnings(slip), TorqueWarnings(towed.pet, job.draft),
               FrontWarnings(towed.frontKg));
    SizingTells(job, towed, rear, Run(m, model, t, f, job).value);
    LiftIsTold(job.balance, axles);
  }

  lemma LiftIsTold(b: Balance, axles: AxleResolution)
    requires ResolveAxleLoads(b) == Ok(axles) && b.Span() != 0.0
    ensures LiftTold(b, axles)
  {
  }

  /** The warnings a report carries before its rear ballast is sized. */
  ghost predicate TowedWarnings(r: Report) {
    LiftWarned(r) && FiguresWarned(r)
  }

  ghost predicate LiftWarned(r: Report) {
    forall kg: real :: FrontLifts(kg) in r.warnings <==> r.axles.lifted && kg == r.axles.stabilisingKg
  }

  predicate FiguresWarned(r: Report) {
    && (SlipLimitReached in r.warnings <==> !r.slip.converged)
    && (TorqueNonPhysical in r.warnings <==> r.pet.Some? && r.pet.value <= 0.0)
    && (TorqueBelowDraft in r.warnings <==> r.pet.Some? && 0.0 < r.pet.value < r.draft)
    && (FrontTargetUnreachable in r.warnings <==> r.frontKg.None?)
    && RearNotRequired !in r.warnings && RearPowerless !in r.warnings && RearUnsettled !in r.warnings
  }

  lemma TowedTells(r: Report, a: seq<Warning>, b: seq<Warning>, c: seq<Warning>, d: seq<Warning>)
    requires a == AxleWarnings(r.axles) && b == SlipWarnings(r.slip)
    requires c == TorqueWarnings(r.pet, r.draft) && d == FrontWarnings(r.frontKg)
    requires r.warnings == a + b + c + d
    ensures TowedWarnings(r)
  {
    forall kg: real ensures FrontLifts(kg) in r.warnings <==> r.axles.lifted && kg == r.axles.stabilisingKg {
      InAny(FrontLifts(kg), a, b, c, d);
    }
    FiguresTell(r, a, b, c, d);
  }

  lemma FiguresTell(r: Report, a: seq<Warning>, b: seq<Warning>, c: seq<Warning>, d: seq<Warning>)
    requires a == AxleWarnings(r.axles) && b == SlipWarnings(r.slip)
    requires c == TorqueWarnings(r.pet, r.draft) && d == FrontWarnings(r.frontKg)
    requires r.warnings == a + b + c + d
    ensures FiguresWarned(r)
  {
    SlipTells(r.slip);
    TorqueTells(r.pet, r.draft);
    InAny(SlipLimitReached, a, b, c, d);
    InAny(TorqueNonPhysical, a, b, c, d);
    InAny(TorqueBelowDraft, a, b, c, d);
    InAny(FrontTargetUnreachable, a, b, c, d);
    InAny(RearNotRequired, a, b, c, d);
    InAny(RearPowerless, a, b, c, d);
    InAny(RearUnsettled, a, b, c, d);
  }

  lemma InAny(w: Warning, a: seq<Warning>, b: seq<Warning>, c: seq<Warning>, d: seq<Warning>)
    ensures w in a + b + c + d <==> w in a || w in b || w in c || w in d
  {
  }

  lemma SlipTells(s: SlipSolution)
    ensures forall w :: w in SlipWarnings(s) <==> !s.converged && w in {SlipLimitReached, PartialResults}
  {
  }

  lemma TorqueTells(pet: Option<real>, draft: real)
    ensures forall w :: w in TorqueWarnings(pet, draft) <==>
      || (w == TorqueNonPhysical && pet.Some? && pet.value <= 0.0)
      || (w == TorqueBelowDraft && pet.Some? && 0.0 < pet.value < draft)
  {
  }

  lemma SizingTells(job: Job, towed: Report, rear: Sizing, r: Report)
    requires TowedWarnings(towed)
    requires r == towed.(rearKg := KgOf(rear), warnings := towed.warnings + RearWarnings(rear, job.atSolvedSlip))
    ensures WarningsTell(job, r)
  {
  }
}
