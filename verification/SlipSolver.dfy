/** The trial-slip search: start at 2%, step 0.1%, stop when the pull meets the draft or at 20%. */
module SlipSolver {
  import opened Calculus
  import opened Outcomes
  import opened Traction

  const SLIP_INITIAL_PCT := 2.0
  const SLIP_INCREMENT_PCT := 0.1
  const MAX_SLIP_PCT := 20.0
  const MAX_SLIP_ITERATIONS := 500
  /** Trial steps that lie below the 20% cap. */
  const TRIALS := 180

  datatype SlipSolution = SlipSolution(
    slipPct: real,
    bnRear: real,
    mu: real,
    muG: real,
    pull: real,
    converged: bool,
    tractionPossible: bool,
    steppedPct: real)

  /** A driven axle: its net traction and its pull over slip in percent, and the draft to meet. */
  datatype Duty = Duty(mu: real -> real, pull: real -> real, draft: real) {
    predicate Meets(k: nat) {
      pull(Trial(k)) >= draft
    }

    predicate PullsAtSome(last: nat) {
      exists j: nat :: j <= last && mu(Trial(j)) > 0.0
    }
  }

  function Trial(k: nat): real {
    SLIP_INITIAL_PCT + k as real * SLIP_INCREMENT_PCT
  }

  /** The first trial from `k` on whose pull meets the draft; the cap if there is none below it. */
  function FirstMeeting(d: Duty, k: nat): (first: nat)
    requires k <= TRIALS
    ensures k <= first <= TRIALS
    ensures forall j: nat :: k <= j < first ==> !d.Meets(j)
    ensures first < TRIALS ==> d.Meets(first)
    decreases TRIALS - k, d.draft
  {
    if k == TRIALS || d.Meets(k) then k else FirstMeeting(d, k + 1)
  }

  /** Slip at which the chord through two trials reaches the draft. */
  function Interpolated(prevSlip: real, prevPull: real, slip: real, pull: real, draft: real): real
    requires pull - prevPull > 0.0
  {
    prevSlip + (draft - prevPull) * (slip - prevSlip) / (pull - prevPull)
  }

  /** The slip reported by a search that stopped on trial `k`. */
  function ReportedSlip(d: Duty, k: nat): real
    requires k <= TRIALS
    requires k < TRIALS ==> d.Meets(k)
    requires 0 < k < TRIALS ==> !d.Meets(k - 1)
  {
    if k == TRIALS then
      MAX_SLIP_PCT
    else if k == 0 then
      Trial(k)
    else
      Interpolated(Trial(k - 1), d.pull(Trial(k - 1)), Trial(k), d.pull(Trial(k)), d.draft)
  }

  function ReportAt(d: Duty, bn: real, muG: real, k: nat): SlipSolution
    requires k <= TRIALS
    requires k < TRIALS ==> d.Meets(k)
    requires 0 < k < TRIALS ==> !d.Meets(k - 1)
  {
    var slip := ReportedSlip(d, k);
    SlipSolution(slip, bn, d.mu(slip), muG, d.pull(slip), k < TRIALS, d.PullsAtSome(k),
                 if k == TRIALS then MAX_SLIP_PCT else Trial(k))
  }

  function Solution(d: Duty, bn: real, muG: real): SlipSolution {
    ReportAt(d, bn, muG, FirstMeeting(d, 0))
  }

  function DutyOf(model: Model, bn: real, load: real, draft: real): Duty {
    Duty((pct: real) => model.net(bn, pct / 100.0), (pct: real) => model.net(bn, pct / 100.0) * load, draft)
  }

  /** The whole solver, with the refusals of the wheel numeric it starts from. */
  function Solve(model: Model, tyre: Tyre, load: real, draft: real): Outcome<SlipSolution> {
    if !tyre.Positive() || load <= 0.0 then
      Rejected(NonPositiveInput)
    else
      var bn := MobilityNumber(tyre, load / 2.0);
      Ok(Solution(DutyOf(model, bn, load, draft), bn, model.envelope(bn)))
  }

  /** The search loop. Its 500-step safety net is never what ends it: the contract is that of the
  search without the net. */
  method SolveSlip(model: Model, tyre: Tyre, load: real, draft: real) returns (r: Outcome<SlipSolution>)
    ensures r == Solve(model, tyre, load, draft)
  {
    if !tyre.Positive() || load <= 0.0 {
      return Rejected(NonPositiveInput);
    }
    var bn := MobilityNumber(tyre, load / 2.0);
    var solution := SearchSlip(DutyOf(model, bn, load, draft), bn, model.envelope(bn));
    r := Ok(solution);
  }

  method SearchSlip(d: Duty, bn: real, muG: real) returns (r: SlipSolution)
    ensures r == Solution(d, bn, muG)
  {
    var slip := SLIP_INITIAL_PCT;
    var mu := 0.0;
    var pull := 0.0;
    var converged := false;
    var possible := false;
    var prev: Option<(real, real)> := None;
    var i := 0;
    ghost var k := 0;
    while i < MAX_SLIP_ITERATIONS
      invariant i == k < TRIALS
      invariant slip == Trial(k)
      invariant !converged
      invariant FirstMeeting(d, 0) == FirstMeeting(d, k)
      invariant possible <==> k > 0 && d.PullsAtSome(k - 1)
      invariant prev.Some? <==> k > 0
      invariant k > 0 ==> !d.Meets(k - 1) && prev.value == (Trial(k - 1), d.pull(Trial(k - 1)))
    {
      mu := d.mu(slip);
      PullsOneMore(d, k);
      possible := possible || mu > 0.0;
      pull := d.pull(slip);
      if pull >= d.draft {
        converged := true;
        break;
      }
      prev := Some((slip, pull));
      slip := slip + SLIP_INCREMENT_PCT;
      NextTrial(k);
      k := k + 1;
      i := i + 1;
      if slip >= MAX_SLIP_PCT {
        slip := MAX_SLIP_PCT;
        mu := d.mu(slip);
        PullsOneMore(d, k);
        possible := possible || mu > 0.0;
        pull := d.pull(slip);
        break;
      }
    }
    var stepped := slip;
    if converged && prev.Some? {
      var (prevSlip, prevPull) := prev.value;
      var span := pull - prevPull;
      if span > 0.0 {
        slip := Interpolated(prevSlip, prevPull, stepped, pull, d.draft);
        mu := d.mu(slip);
        pull := d.pull(slip);
      }
    }
    r := SlipSolution(slip, bn, mu, muG, pull, converged, possible, stepped);
  }

  lemma NextTrial(k: nat)
    requires k < TRIALS
    ensures Trial(k + 1) == Trial(k) + SLIP_INCREMENT_PCT
    ensures Trial(k + 1) >= MAX_SLIP_PCT <==> k + 1 == TRIALS
    ensures k + 1 == TRIALS ==> Trial(k + 1) == MAX_SLIP_PCT
  {
  }

  lemma PullsOneMore(d: Duty, k: nat)
    ensures d.PullsAtSome(k) <==> (k > 0 && d.PullsAtSome(k - 1)) || d.mu(Trial(k)) > 0.0
  {
    if d.PullsAtSome(k) {
      var j: nat :| j <= k && d.mu(Trial(j)) > 0.0;
      assert j == k || j <= k - 1;
    }
  }

  /** `pull` at `s` lies strictly above its chord over [a, b], `s` a share `t` of the way. */
  ghost predicate AboveChord(pull: real -> real, a: real, b: real, t: real, s: real) {
    a < b && 0.0 < t < 1.0 && s == a + t * (b - a) ==> pull(s) > (1.0 - t) * pull(a) + t * pull(b)
  }

  ghost predicate StrictlyConcave(pull: real -> real) {
    forall a: real, b: real, t: real, s: real :: AboveChord(pull, a, b, t, s)
  }

  /** What a search that stopped on trial `k` reports. */
  ghost predicate StoppedOn(d: Duty, k: nat, s: SlipSolution) {
    && k < TRIALS && s.steppedPct == Trial(k) && d.Meets(k)
    && (forall j: nat :: j < k ==> !d.Meets(j))
    && (if k == 0 then s.slipPct == 2.0 else Trial(k - 1) < s.slipPct <= Trial(k))
    && (s.pull == d.draft <==> d.pull(Trial(k)) == d.draft)
  }

  /** A converged search stops on the first trial that meets the draft and reports a slip between the
  trial before it and that trial. The pull reported is the pull at that slip and is at least the
  draft, because the curve is concave; it equals the draft exactly where the pull at the stopping
  trial does. */
  lemma ConvergedSlip(d: Duty, bn: real, muG: real)
    requires StrictlyConcave(d.pull) && Solution(d, bn, muG).converged
    ensures exists k: nat :: StoppedOn(d, k, Solution(d, bn, muG))
    ensures var s := Solution(d, bn, muG);
      2.0 <= s.slipPct < 20.0 && s.bnRear == bn && s.mu == d.mu(s.slipPct) && s.pull == d.pull(s.slipPct) >= d.draft
  {
    var k := FirstMeeting(d, 0);
    var s := ReportAt(d, bn, muG, k);
    TrialBounds(k);
    ReportedSlipMeetsDraft(d, k, s.slipPct);
    assert StoppedOn(d, k, s);
  }

  lemma ReportedSlipMeetsDraft(d: Duty, k: nat, slip: real)
    requires StrictlyConcave(d.pull)
    requires k < TRIALS && d.Meets(k) && (k > 0 ==> !d.Meets(k - 1)) && slip == ReportedSlip(d, k)
    ensures if k == 0 then slip == 2.0 else Trial(k - 1) < slip <= Trial(k)
    ensures d.pull(slip) >= d.draft && (d.pull(slip) == d.draft <==> d.pull(Trial(k)) == d.draft)
  {
    if k > 0 {
      TrialBounds(k);
      InterpolationMeetsDraft(d, Trial(k - 1), Trial(k));
    }
  }

  lemma TrialBounds(k: nat)
    requires k < TRIALS
    ensures 2.0 <= Trial(k) < 20.0
    ensures k > 0 ==> 2.0 <= Trial(k - 1) < Trial(k)
  {
  }

  /** Between a slip short of the draft and one that meets it, the interpolated slip meets it, and meets
  it exactly if and only if the upper one does. */
  lemma InterpolationMeetsDraft(d: Duty, low: real, high: real)
    requires StrictlyConcave(d.pull) && low < high && d.pull(low) < d.draft <= d.pull(high)
    ensures var s := Interpolated(low, d.pull(low), high, d.pull(high), d.draft);
      low < s <= high && d.pull(s) >= d.draft && (d.pull(s) == d.draft <==> d.pull(high) == d.draft)
  {
    var p, q := d.pull(low), d.pull(high);
    var s := Interpolated(low, p, high, q, d.draft);
    var t := InterpolationShare(low, p, high, q, d.draft);
    if t < 1.0 {
      assert AboveChord(d.pull, low, high, t, s);
    }
  }

  /** The share of the step the interpolation takes. */
  lemma InterpolationShare(low: real, p: real, high: real, q: real, draft: real) returns (t: real)
    requires low < high && p < draft <= q
    ensures 0.0 < t <= 1.0 && (t == 1.0 <==> draft == q)
    ensures var s := Interpolated(low, p, high, q, draft);
      s == low + t * (high - low) && low < s <= high && (s == high <==> t == 1.0)
    ensures (1.0 - t) * p + t * q == draft
  {
    t := ShareOfSpan(draft - p, q - p);
    ProductOverSpan(draft - p, high - low, q - p, t);
    ShareOfStep(low, high - low, t);
    assert (1.0 - t) * p + t * q == p + t * (q - p);
  }

  lemma ShareOfSpan(x: real, span: real) returns (t: real)
    requires 0.0 < x <= span
    ensures t * span == x && 0.0 < t <= 1.0 && (t == 1.0 <==> x == span)
  {
    QuotientPositive(x, span);
    t := x / span;
    if t > 1.0 {
      ScaleStrict(span, 1.0, t);
    }
  }

  lemma ProductOverSpan(x: real, step: real, span: real, t: real)
    requires span > 0.0 && t * span == x
    ensures x * step / span == t * step
  {
    assert x * step == (t * step) * span;
  }

  lemma ShareOfStep(low: real, step: real, t: real)
    requires step > 0.0 && 0.0 < t <= 1.0
    ensures low < low + t * step <= low + step && (low + t * step == low + step <==> t == 1.0)
  {
    ScaleStrict(step, 0.0, t);
    if t < 1.0 {
      ScaleStrict(step, t, 1.0);
    }
  }

  /** The pull of a loaded axle is strictly concave over slip. */
  lemma PullIsConcave(model: Model, bn: real, load: real, draft: real)
    requires model.Sound() && bn > 0.0 && load > 0.0
    ensures StrictlyConcave(DutyOf(model, bn, load, draft).pull)
  {
    var d := DutyOf(model, bn, load, draft);
    forall a: real, b: real, t: real, s: real ensures AboveChord(d.pull, a, b, t, s) {
      PullAboveChord(model, bn, load, d, a, b, t, s);
    }
  }

  lemma PullAboveChord(model: Model, bn: real, load: real, d: Duty, a: real, b: real, t: real, s: real)
    requires model.Sound() && bn > 0.0 && load > 0.0
    requires forall pct: real :: d.pull(pct) == model.net(bn, pct / 100.0) * load
    ensures AboveChord(d.pull, a, b, t, s)
  {
    if a < b && 0.0 < t < 1.0 && s == a + t * (b - a) {
      assert model.ConcaveAt(bn, a / 100.0, b / 100.0, t, s / 100.0);
      MixedPull(model.net(bn, a / 100.0), model.net(bn, b / 100.0), model.net(bn, s / 100.0), load, t,
                d.pull(a), d.pull(b), d.pull(s));
    }
  }

  /** What convergence means for the axle: at the reported slip its pull meets the draft. */
  lemma ConvergedRunPulls(model: Model, tyre: Tyre, load: real, draft: real, s: SlipSolution)
    requires model.Sound() && Solve(model, tyre, load, draft) == Ok(s) && s.converged
    ensures tyre.Positive() && load > 0.0 && 2.0 <= s.slipPct < 20.0
    ensures s.bnRear == MobilityNumber(tyre, load / 2.0)
    ensures s.mu == model.net(s.bnRear, s.slipPct / 100.0) && s.pull == s.mu * load && s.pull >= draft
  {
    ConvergedDutyPulls(model, MobilityNumber(tyre, load / 2.0), load, draft, s);
  }

  lemma ConvergedDutyPulls(model: Model, bn: real, load: real, draft: real, s: SlipSolution)
    requires model.Sound() && bn > 0.0 && load > 0.0
    requires s == Solution(DutyOf(model, bn, load, draft), bn, model.envelope(bn)) && s.converged
    ensures s.bnRear == bn && 2.0 <= s.slipPct < 20.0
    ensures s.mu == model.net(bn, s.slipPct / 100.0) && s.pull == s.mu * load && s.pull >= draft
  {
    PullIsConcave(model, bn, load, draft);
    ConvergedSlip(DutyOf(model, bn, load, draft), bn, model.envelope(bn));
    DutyAt(model, bn, load, draft, s.slipPct, s.mu, s.pull);
  }

  lemma DutyAt(model: Model, bn: real, load: real, draft: real, pct: real, mu: real, pull: real)
    requires var d := DutyOf(model, bn, load, draft); mu == d.mu(pct) && pull == d.pull(pct)
    ensures mu == model.net(bn, pct / 100.0) && pull == mu * load
  {
  }

  lemma MixedPull(x: real, y: real, z: real, load: real, t: real, x': real, y': real, z': real)
    requires load > 0.0 && z > (1.0 - t) * x + t * y
    requires x' == x * load && y' == y * load && z' == z * load
    ensures z' > (1.0 - t) * x' + t * y'
  {
    var mixed := (1.0 - t) * x + t * y;
    ScaleStrict(load, mixed, z);
    assert load * mixed == (1.0 - t) * (x * load) + t * (y * load);
  }

  /** A search converges exactly when some trial below the cap meets the draft; otherwise it reports
  the cap and the pull there, whatever that pull is. */
  lemma ConvergesIffSomeTrialMeets(d: Duty, bn: real, muG: real)
    ensures Solution(d, bn, muG).converged <==> exists k: nat :: k < TRIALS && d.Meets(k)
    ensures var s := Solution(d, bn, muG);
      !s.converged ==> s.slipPct == s.steppedPct == 20.0 && s.pull == d.pull(20.0)
  {
    var first := FirstMeeting(d, 0);
    if k: nat :| k < TRIALS && d.Meets(k) {
      assert first <= k;
    }
  }

  /** On firm soil (Bn = 100) the traction curve still rises all the way up to 20% slip. */
  lemma FirmSoilCurveRises(m: Maths, a: real, b: real)
    requires m.Valid() && 0.0 <= a < b <= 0.2
    ensures NetTraction(m, 100.0, a) < NetTraction(m, 100.0, b)
  {
    var x, y := -TRACTION_SLIP_EXPONENT_COEFF * a, -TRACTION_SLIP_EXPONENT_COEFF * b;
    FirmSoilEnvelope(m);
    ExpChord(m, y, x);
    DecayAtCap(m, b);
    MotionResistanceAtHundred(m, a);
    MotionResistanceAtHundred(m, b);
    GrossGainBeatsResistance(GrossTractionRatio(m, 100.0), m.exp(x), m.exp(y), b - a);
  }

  lemma GrossGainBeatsResistance(muG: real, ea: real, eb: real, step: real)
    requires muG >= 0.8 && eb >= 0.125 && step > 0.0
    requires ea >= eb * (1.0 + TRACTION_SLIP_EXPONENT_COEFF * step)
    ensures muG * (1.0 - eb) - muG * (1.0 - ea) > 0.05 * step
  {
    var gain, w := ea - eb, TRACTION_SLIP_EXPONENT_COEFF * step;
    assert eb * (1.0 + w) == eb + w * eb;
    Scale(w, 0.125, eb);
    Scale(gain, 0.8, muG);
    assert muG * (1.0 - eb) - muG * (1.0 - ea) == gain * muG;
    assert gain >= 0.125 * w;
  }

  lemma FirmSoilEnvelope(m: Maths)
    requires m.Valid()
    ensures GrossTractionRatio(m, 100.0) >= 0.8
  {
    assert m.SumLaw(10.0, -10.0);
    assert m.TangentLaw(10.0);
    ExpPositive(m, -10.0);
    Scale(m.exp(-10.0), 11.0, m.exp(10.0));
    assert -TRACTION_BN_EXPONENT_COEFF * 100.0 == -10.0;
  }

  lemma DecayAtCap(m: Maths, slip: real)
    requires m.Valid() && slip <= 0.2
    ensures m.exp(-TRACTION_SLIP_EXPONENT_COEFF * slip) >= 0.125
  {
    assert m.TangentLaw(-0.5);
    var h := m.exp(-0.5);
    assert m.SumLaw(-0.5, -0.5) && m.SumLaw(-1.0, -0.5);
    SquareMonotone(0.5, h);
    Scale(0.25, 0.5, h);
    Scale(h, 0.25, h * h);
    if slip < 0.2 {
      ExpMonotone(m, -1.5, -TRACTION_SLIP_EXPONENT_COEFF * slip);
    }
  }

  lemma MotionResistanceAtHundred(m: Maths, slip: real)
    requires m.Valid()
    ensures MotionResistance(m, 100.0, slip) == 0.01 + 0.05 * slip
  {
    RootPositive(m, 100.0);
    var r := m.sqrt(100.0);
    if r < 10.0 {
      ScaleStrict(r, r, 10.0);
    } else if r > 10.0 {
      ScaleStrict(r, 10.0, r);
    }
  }

  /** Interpolation overshoots: on this wheel a draft halfway between the pulls of the first two trials
  converges on the second, and the pull re-evaluated at the interpolated slip exceeds the draft. */
  lemma InterpolationOvershoots(m: Maths) returns (draft: real)
    requires m.Valid()
    ensures var r := Solve(Brixius(m), Tyre(100.0, 1.0, 1.0), 2000.0, draft);
      r.Ok? && r.value.converged && r.value.steppedPct == Trial(1) && r.value.pull > draft
  {
    assert MobilityNumber(Tyre(100.0, 1.0, 1.0), 2000.0 / 2.0) == 100.0;
    var low, high := NetTraction(m, 100.0, Trial(0) / 100.0) * 2000.0, NetTraction(m, 100.0, Trial(1) / 100.0) * 2000.0;
    draft := (low + high) / 2.0;
    FirmSoilCurveRises(m, Trial(0) / 100.0, Trial(1) / 100.0);
    BrixiusIsSound(m);
    StopsOnSecond(Brixius(m), 100.0, 2000.0, draft, low, high);
  }

  lemma StopsOnSecond(model: Model, bn: real, load: real, draft: real, low: real, high: real)
    requires model.Sound() && bn > 0.0 && load > 0.0 && low < draft < high
    requires var d := DutyOf(model, bn, load, draft); d.pull(Trial(0)) == low && d.pull(Trial(1)) == high
    ensures var s := Solution(DutyOf(model, bn, load, draft), bn, model.envelope(bn));
      s.converged && s.steppedPct == Trial(1) && s.pull > draft
  {
    var d := DutyOf(model, bn, load, draft);
    assert !d.Meets(0) && d.Meets(1);
    PullIsConcave(model, bn, load, draft);
    ConvergesIffSomeTrialMeets(d, bn, model.envelope(bn));
    ConvergedSlip(d, bn, model.envelope(bn));
    var k: nat :| StoppedOn(d, k, Solution(d, bn, model.envelope(bn)));
    assert k == 1;
  }

  /** Reaching the cap hides convergence: on this wheel a draft equal to the pull at 20% is met there,
  yet the search reports that it did not converge. */
  lemma CapHidesConvergence(m: Maths) returns (draft: real)
    requires m.Valid()
    ensures var r := Solve(Brixius(m), Tyre(100.0, 1.0, 1.0), 2000.0, draft);
      r.Ok? && !r.value.converged && r.value.slipPct == 20.0 && r.value.pull == draft > 0.0
  {
    assert MobilityNumber(Tyre(100.0, 1.0, 1.0), 2000.0 / 2.0) == 100.0;
    draft := CapPull(m);
    var d := DutyOf(Brixius(m), 100.0, 2000.0, draft);
    forall k: nat | k < TRIALS ensures !d.Meets(k) {
      ShortBelowCap(m, draft, k);
    }
    ConvergesIffSomeTrialMeets(d, 100.0, Brixius(m).envelope(100.0));
  }

  lemma CapPull(m: Maths) returns (draft: real)
    requires m.Valid()
    ensures draft == DutyOf(Brixius(m), 100.0, 2000.0, draft).pull(20.0) > 0.0
  {
    FirmSoilPulls(m);
    draft := NetTraction(m, 100.0, 0.2) * 2000.0;
  }

  lemma ShortBelowCap(m: Maths, draft: real, k: nat)
    requires m.Valid() && k < TRIALS && draft == DutyOf(Brixius(m), 100.0, 2000.0, draft).pull(20.0)
    ensures !DutyOf(Brixius(m), 100.0, 2000.0, draft).Meets(k)
  {
    TrialBounds(k);
    FirmSoilCurveRises(m, Trial(k) / 100.0, 0.2);
  }

  lemma GrossBeatsResistance(muG: real, factor: real)
    requires muG >= 0.8 && factor >= 0.6
    ensures muG * factor - 0.02 > 0.0
  {
    Scale(factor, 0.8, muG);
  }

  lemma FirmSoilPulls(m: Maths)
    requires m.Valid()
    ensures NetTraction(m, 100.0, 0.2) > 0.0
  {
    FirmSoilEnvelope(m);
    MotionResistanceAtHundred(m, 0.2);
    ExpChord(m, -1.5, 0.0);
    var factor := SlipFactor(m, 0.2);
    assert factor == 1.0 - m.exp(-1.5) >= 0.6;
    var muG := GrossTractionRatio(m, 100.0);
    assert NetTraction(m, 100.0, 0.2) == muG * factor - 0.02;
    GrossBeatsResistance(muG, factor);
  }
}
