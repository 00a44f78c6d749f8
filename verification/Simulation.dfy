/** The three orchestrators, step by step, on the engine's own relations. */
module Simulation {
  import opened AxleLoads
  import opened Calculus
  import opened FrontBallast
  import opened JobLaws
  import opened ModeLaws
  import opened Modes
  import opened Outcomes
  import opened PowerFuel
  import opened RearBallast
  import opened ReportLaws
  import opened SlipSolver
  import opened Traction

  /** Fits stabilising ballast where the front axle lifts, noting it in the warnings. */
  method FitAxles(b: Balance, warnings: seq<Warning>) returns (r: Outcome<AxleResolution>, noted: seq<Warning>)
    ensures r == ResolveAxleLoads(b)
    ensures r.Ok? ==> noted == warnings + AxleWarnings(r.value)
  {
    noted := warnings;
    if b.Span() == 0.0 {
      return Rejected(DegenerateGeometry), noted;
    }
    var rear, front := b.RearLoad(0.0), b.FrontLoad(0.0);
    if rear <= 0.0 {
      return Rejected(RearAxleLifts), noted;
    }
    if front > 0.0 {
      return Ok(AxleResolution(rear, front, 0.0, false)), noted;
    }
    if b.tractorWeight <= 0.0 {
      return Rejected(NonPositiveInput), noted;
    }
    var kg := FrontBallastRequired(b);
    if kg.None? {
      return Rejected(FrontAxleLifts), noted;
    }
    var extra := kg.value * GRAVITY;
    noted := noted + [FrontLifts(kg.value)];
    return Ok(AxleResolution(b.RearLoad(extra), b.FrontLoad(extra), kg.value, true)), noted;
  }

  /** Axles and slip, with the warnings both raise. Only the two-tool mode tells apart a soil that
  cannot pull at all, and such a run is refused anyway. */
  method AxlesAndSlip(model: Model, tyre: Tyre, job: Job, twoTools: bool)
    returns (r: Outcome<(AxleResolution, SlipSolution, real)>, warnings: seq<Warning>)
    requires model.Sound()
    ensures r == ResolvedSlip(model, tyre, job)
    ensures r.Ok? ==> warnings == AxleWarnings(r.value.0) + SlipWarnings(r.value.1)
  {
    var fitted: Outcome<AxleResolution>;
    fitted, warnings := FitAxles(job.balance, []);
    if fitted.Rejected? {
      return Rejected(fitted.reason), warnings;
    }
    var axles := fitted.value;
    var solved := SolveSlip(model, tyre, axles.rear, job.draft);
    if solved.Rejected? {
      return Rejected(solved.reason), warnings;
    }
    var slip := solved.value;
    if !slip.converged {
      if twoTools && !slip.tractionPossible {
        warnings := warnings + [NoTractionAtAnySlip];
        NoTractionIsRefused(model, tyre, axles.rear, job.draft, slip);
      } else {
        warnings := warnings + [SlipLimitReached];
        warnings := warnings + [PartialResults];
      }
    }
    var te := TractiveEfficiency(slip);
    if te.Rejected? {
      return Rejected(te.reason), warnings;
    }
    r := Ok((axles, slip, te.value));
  }

  /** Wheels, capacity, power and front ballast, in the order the orchestrators compute them. */
  method Measure(
    m: Maths, model: Model, t: Tractor, f: Field, job: Job, axles: AxleResolution, slip: SlipSolution, te: real,
    before: seq<Warning>) returns (r: Outcome<Report>)
    requires t.rearRadius > 0.0 && job.balance.Span() != 0.0
    requires before == AxleWarnings(axles) + SlipWarnings(slip)
    ensures r == Measured(m, model, t, f, job, axles, slip, te)
    ensures m.Valid() && job.balance.Span() > 0.0 && job.draft > 0.0 && r.Ok? ==> FuelInRange(r.value)
  {
    if m.Valid() && job.balance.Span() > 0.0 && job.draft > 0.0
       && Measured(m, model, t, f, job, axles, slip, te).Ok? {
      MeasuredInRange(m, model, t, f, job, axles, slip, te);
    }
    var weight := job.balance.tractorWeight;
    if weight <= 0.0 {
      return Rejected(NonPositiveInput);
    }
    var wheels :- WheelResponse(model, FrontTyre(t, f), axles.front, slip.bnRear, slip.slipPct / 100.0);
    var capacity :- FieldCapacity(f.speed, job.width, f.area, f.width);
    var power :- PowerAndFuel(m, job.draft, f.speed, te, t.transmissionPct, t.reservePct, t.ratedPto,
                              capacity.theoretical, capacity.actual, job.extraPto);
    var pet := TorquePull(t, wheels, axles);
    var warnings := before + TorqueWarnings(pet, job.draft);
    var front := FrontBallastRequired(job.balance);
    if front.None? {
      warnings := warnings + [FrontTargetUnreachable];
    }
    assert warnings == before + TorqueWarnings(pet, job.draft) + FrontWarnings(front);
    r := Ok(Report(job.draft, axles, slip, te, axles.front / weight, axles.rear / weight, wheels, capacity, power,
                   pet, front, None, warnings));
  }

  /** The last step: rear ballast at the job's target slip. Nothing else of the report changes. */
  method AddRearBallast(model: Model, tyre: Tyre, job: Job, towed: Report) returns (r: Outcome<Report>)
    ensures r == WithRearBallast(model, tyre, job, towed)
    ensures model.Sound() && job.draft > 0.0 && Solve(model, tyre, towed.axles.rear, job.draft) == Ok(towed.slip) ==>
              r.Ok? && SameButRearBallast(r.value, towed) && RearBallastMeans(model, tyre, job, r.value)
  {
    if model.Sound() && job.draft > 0.0 && Solve(model, tyre, towed.axles.rear, job.draft) == Ok(towed.slip) {
      SizedMeans(model, tyre, job, towed);
    }
    var warnings := towed.warnings;
    var rear :- RearBallastRequired(model, tyre, towed.axles.rear, job.draft, TargetSlip(job, towed.slip));
    if rear.NoNetTraction? {
      warnings := warnings + [RearPowerless];
    } else if rear.DidNotSettle? {
      warnings := warnings + [RearUnsettled];
    } else if job.atSolvedSlip && rear.kg == 0.0 {
      warnings := warnings + [RearNotRequired];
    }
    assert warnings == towed.warnings + RearWarnings(rear, job.atSolvedSlip);
    r := Ok(towed.(rearKg := KgOf(rear), warnings := warnings));
  }

  /** The chain of a job as the orchestrators run it, warnings appended as they arise. */
  method RunJob(m: Maths, model: Model, t: Tractor, f: Field, job: Job, twoTools: bool) returns (r: Outcome<Report>)
    requires model.Sound() && t.rearRadius > 0.0
    ensures r == Run(m, model, t, f, job)
  {
    var resolved, warnings := AxlesAndSlip(model, RearTyre(t, f), job, twoTools);
    var parts :- resolved;
    var (axles, slip, te) := parts;
    var towed :- Measure(m, model, t, f, job, axles, slip, te, warnings);
    r := AddRearBallast(model, RearTyre(t, f), job, towed);
  }

  /** What the report of every accepted job satisfies. */
  ghost predicate Lawful(m: Maths, t: Tractor, f: Field, job: Job, r: Report)
    requires m.Valid()
  {
    && ReportAddsUp(t, f, job, r)
    && SlipAddsUp(m, r.slip, r.axles.rear, r.wheels.rearRolling)
    && WarningsTell(job, r)
    && (job.draft > 0.0 ==>
          && RearBallastMeans(Brixius(m), RearTyre(t, f), job, r)
          && (SoundlyBalanced(job.balance) ==> InRange(job, r)))
  }

  lemma RunIsLawful(m: Maths, t: Tractor, f: Field, job: Job)
    requires m.Valid() && t.rearRadius > 0.0 && Run(m, Brixius(m), t, f, job).Ok?
    ensures Lawful(m, t, f, job, Run(m, Brixius(m), t, f, job).value)
  {
    BrixiusIsSound(m);
    RunAddsUp(m, Brixius(m), t, f, job);
    RunSlips(m, t, f, job);
    RunWarns(m, Brixius(m), t, f, job);
    if job.draft > 0.0 {
      RunsSizeRearBallast(m, Brixius(m), t, f, job);
      if SoundlyBalanced(job.balance) {
        RunsAreInRange(m, Brixius(m), t, f, job);
      }
    }
  }

  /** Where no trial slip pulls, the tractive efficiency is refused. */
  lemma NoTractionIsRefused(model: Model, tyre: Tyre, load: real, draft: real, s: SlipSolution)
    requires model.Sound() && Solve(model, tyre, load, draft) == Ok(s)
    requires !s.converged && !s.tractionPossible
    ensures TractiveEfficiency(s).Rejected?
  {
    var bn := MobilityNumber(tyre, load / 2.0);
    var d := DutyOf(model, bn, load, draft);
    assert !d.PullsAtSome(TRIALS);
    assert Trial(TRIALS) == 20.0;
    assert s.mu == d.mu(20.0) <= 0.0;
    NonPositiveEfficiency(s.mu, s.muG);
  }

  lemma NonPositiveEfficiency(mu: real, muG: real)
    requires mu <= 0.0 && muG > 0.0
    ensures mu * (1.0 - 20.0 / 100.0) / muG * 100.0 <= 0.0
  {
    QuotientAtMost(mu * 0.8, muG, 0.0);
  }

  method CalculateSingle(m: Maths, t: Tractor, f: Field, tool: Tool) returns (r: Outcome<Report>)
    requires m.Valid()
    ensures r == SingleRun(m, Brixius(m), t, f, tool)
    ensures r.Ok? ==>
              && SingleJob(t, f, tool).Ok? && Lawful(m, t, f, SingleJob(t, f, tool).value, r.value)
              && SingleBalances(t, f, tool, r.value.axles, r.value.draft)
  {
    var job :- SingleJob(t, f, tool);
    BrixiusIsSound(m);
    r := RunJob(m, Brixius(m), t, f, job, false);
    if r.Ok? {
      RunIsLawful(m, t, f, job);
      SingleRunBalances(m, Brixius(m), t, f, tool);
    }
  }

  /** A pair's draft is what its two drafts combine to. */
  predicate Combines(p: PairReport, ki: real) {
    0.0 <= ki <= 0.25 && p.report.draft == (1.0 - ki) * (p.draft1 + p.draft2)
  }

  /** Each tool's draft is reported beside the combined one, which they determine. */
  method CalculatePassivePassive(
    m: Maths, t: Tractor, f: Field, t1: Tool, t2: Tool, ki: real, override: Option<real>)
    returns (r: Outcome<PairReport>)
    requires m.Valid()
    ensures r == PassivePassiveRun(m, Brixius(m), t, f, t1, t2, ki, override)
    ensures r.Ok? ==>
              && PassivePassiveJob(t, f, t1, t2, ki, override).Ok?
              && Lawful(m, t, f, PassivePassiveJob(t, f, t1, t2, ki, override).value, r.value.report)
              && Combines(r.value, ki)
              && PairBalances(t, f, t1, t2, r.value.draft1, r.value.draft2, r.value.report.axles, r.value.report.draft)
  {
    var job :- PassivePassiveJob(t, f, t1, t2, ki, override);
    BrixiusIsSound(m);
    PairedDrafts(t, f, t1, t2, ki, override);
    var run := RunJob(m, Brixius(m), t, f, job, true);
    PairedRun(m, Brixius(m), t, f, t1, t2, ki, override, job);
    if run.Rejected? {
      return Rejected(run.reason);
    }
    RunIsLawful(m, t, f, job);
    ReportedDraft(m, Brixius(m), t, f, job);
    r := Ok(PairReport(Draft(t1, f).value, Draft(t2, f).value, run.value));
    DraftsCombine(Draft(t1, f).value, Draft(t2, f).value, run.value, ki, job);
    PairRunBalances(m, Brixius(m), t, f, t1, t2, ki, override);
  }

  lemma PairedDrafts(t: Tractor, f: Field, t1: Tool, t2: Tool, ki: real, override: Option<real>)
    requires PassivePassiveJob(t, f, t1, t2, ki, override).Ok?
    ensures Draft(t1, f).Ok? && Draft(t2, f).Ok? && t.rearRadius > 0.0
    ensures CombinedDraft(Draft(t1, f).value, Draft(t2, f).value, ki)
         == Ok(PassivePassiveJob(t, f, t1, t2, ki, override).value.draft)
  {
  }

  lemma PairedRun(
    m: Maths, model: Model, t: Tractor, f: Field, t1: Tool, t2: Tool, ki: real, override: Option<real>, job: Job)
    requires PassivePassiveJob(t, f, t1, t2, ki, override) == Ok(job)
    requires Draft(t1, f).Ok? && Draft(t2, f).Ok? && t.rearRadius > 0.0
    ensures PassivePassiveRun(m, model, t, f, t1, t2, ki, override)
         == match Run(m, model, t, f, job)
            case Ok(report) => Ok(PairReport(Draft(t1, f).value, Draft(t2, f).value, report))
            case Rejected(reason) => Rejected(reason)
  {
  }

  lemma DraftsCombine(d1: real, d2: real, report: Report, ki: real, job: Job)
    requires CombinedDraft(d1, d2, ki) == Ok(job.draft) && report.draft == job.draft
    ensures Combines(PairReport(d1, d2, report), ki)
  {
  }

  lemma ReportedDraft(m: Maths, model: Model, t: Tractor, f: Field, job: Job)
    requires t.rearRadius > 0.0 && Run(m, model, t, f, job).Ok?
    ensures Run(m, model, t, f, job).value.draft == job.draft
  {
  }

  /** The draft and the axles of a combination with a rotor. */
  ghost predicate RotorWorks(t: Tractor, f: Field, tool: Tool, rotor: Rotor, r: Report) {
    && Draft(tool, f).Ok?
    && ThrustTakesOff(Draft(tool, f).value, rotor, f.speed, r.draft)
    && exists torqueLoad: real ::
         RotorBalances(t, f, tool, rotor, r.axles, Draft(tool, f).value, r.draft, torqueLoad)
  }

  lemma RunWorks(m: Maths, model: Model, t: Tractor, f: Field, tool: Tool, rotor: Rotor)
    requires ActivePassiveRun(m, model, t, f, tool, rotor).Ok?
    ensures RotorWorks(t, f, tool, rotor, ActivePassiveRun(m, model, t, f, tool, rotor).value)
  {
    var torqueLoad := RotorRunBalances(m, model, t, f, tool, rotor);
  }

  /** A converged run asks for no rear ballast. */
  method CalculateActivePassive(m: Maths, t: Tractor, f: Field, tool: Tool, rotor: Rotor)
    returns (r: Outcome<Report>)
    requires m.Valid()
    ensures r == ActivePassiveRun(m, Brixius(m), t, f, tool, rotor)
    ensures r.Ok? ==>
              && ActivePassiveJob(t, f, tool, rotor).Ok? && ActivePassiveJob(t, f, tool, rotor).value.draft > 0.0
              && Lawful(m, t, f, ActivePassiveJob(t, f, tool, rotor).value, r.value)
              && RotorWorks(t, f, tool, rotor, r.value)
              && (r.value.slip.converged ==> NoRearBallastAsked(r.value))
  {
    var job :- ActivePassiveJob(t, f, tool, rotor);
    BrixiusIsSound(m);
    EffectiveJob(t, f, tool, rotor);
    r := RunJob(m, Brixius(m), t, f, job, false);
    if r.Ok? {
      RunIsLawful(m, t, f, job);
      RunWorks(m, Brixius(m), t, f, tool, rotor);
      if r.value.slip.converged {
        ConvergedAtSolvedSlip(m, Brixius(m), t, f, job);
      }
    }
  }
}
