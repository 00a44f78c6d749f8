/** The alert table: raising and updating alerts as stored readings are evaluated. */
module Alerts {
  import opened Calculus
  import opened Outcomes
  import opened Sessions
  import opened Telemetry

  datatype Level = Warning | Critical

  datatype Kind = Threshold | Deviation

  /** A session's preset for one parameter; presets are fixed when the session starts. */
  datatype Preset = Preset(target: Option<real>, warnPct: real, critPct: real)

  type Presets = map<(nat, Feed), Preset>

  datatype Alert = Alert(
    session: nat, feed: Feed, kind: Kind, level: Level, actual: real, reference: Option<real>, reading: nat,
    acknowledged: bool)
  {
    predicate OpenFor(s: nat, f: Feed) {
      !acknowledged && session == s && feed == f
    }
  }

  // --- Limits ---

  function Rising(x: real, warning: real, critical: real): Option<Level> {
    if x >= critical then Some(Critical) else if x >= warning then Some(Warning) else None
  }

  /** Generic limits of a feed; None is normal. */
  function StatusLabel(feed: Feed, value: Option<real>): Option<Level> {
    if value.None? then None
    else
      var x := value.value;
      match feed
      case GearboxTemperature => Rising(x, 85.0, 100.0)
      case Vibration => Rising(x, 3.0, 5.0)
      case WheelSlip => Rising(x, 15.0, 25.0)
      case ForwardSpeed => Rising(x, 12.0, 15.0)
      case SoilMoisture => if x <= 10.0 then Some(Critical) else if x <= 20.0 then Some(Warning) else None
      case DepthOfOperation =>
        if x <= 6.0 || x >= 30.0 then Some(Critical)
        else if x <= 8.0 || x >= 25.0 then Some(Warning)
        else None
      case _ => None
  }

  function ThresholdOf(feed: Feed, level: Level, x: real): Option<real> {
    match feed
    case GearboxTemperature => Some(if level.Critical? then 100.0 else 85.0)
    case Vibration => Some(if level.Critical? then 5.0 else 3.0)
    case WheelSlip => Some(if level.Critical? then 25.0 else 15.0)
    case SoilMoisture => Some(if level.Critical? then 10.0 else 20.0)
    case ForwardSpeed => Some(if level.Critical? then 15.0 else 12.0)
    case DepthOfOperation =>
      Some(if level.Critical? then (if x <= 6.0 then 6.0 else 30.0) else (if x <= 8.0 then 8.0 else 25.0))
    case _ => None
  }

  /** Deviation from a target in percent; a gearbox target is a maximum, so below it there is none. */
  function DeviationPct(feed: Feed, actual: real, target: real): Option<real> {
    if target == 0.0 || (feed.GearboxTemperature? && actual <= target) then None
    else Some(Abs(actual - target) / Abs(target) * 100.0)
  }

  function DeviationLevel(feed: Feed, value: Option<real>, preset: Preset): Option<Level> {
    if value.None? || preset.target.None? then None
    else
      match DeviationPct(feed, value.value, preset.target.value)
      case None => None
      case Some(pct) =>
        if pct >= preset.critPct then Some(Critical) else if pct >= preset.warnPct then Some(Warning) else None
  }

  /** Whether a value has reached a limit of its feed: moisture from above, depth from either side. */
  predicate Reaches(feed: Feed, x: real, limit: real) {
    if feed.SoilMoisture? || (feed.DepthOfOperation? && limit < 10.0) then x <= limit else x >= limit
  }

  /** A reading is critical exactly if it reaches the feed's critical limit, and a warning exactly if it only
  reaches the warning limit; an alert names the limit that was reached. Feeds without limits are normal. */
  lemma LabelIsLimitReached(feed: Feed, x: real)
    ensures var critical, warning := ThresholdOf(feed, Critical, x), ThresholdOf(feed, Warning, x);
      && (critical.Some? <==> warning.Some?)
      && (critical.None? ==> StatusLabel(feed, Some(x)) == None)
      && (critical.Some? ==>
            && (StatusLabel(feed, Some(x)) == Some(Critical) <==> Reaches(feed, x, critical.value))
            && (StatusLabel(feed, Some(x)).Some? <==> Reaches(feed, x, warning.value)))
    ensures StatusLabel(feed, None) == None
  {
  }

  /** Against a target and tolerances in percent of it, a reading is critical exactly if it is out by the
  critical share of the target, and a warning exactly if only by the warning share; a gearbox target is
  exceeded only upwards. */
  lemma DeviationIsShareOfTarget(feed: Feed, actual: real, target: real, warnPct: real, critPct: real)
    requires target != 0.0
    ensures var level := DeviationLevel(feed, Some(actual), Preset(Some(target), warnPct, critPct));
      var out := 100.0 * Abs(actual - target);
      var critical, warning := out >= critPct * Abs(target), out >= warnPct * Abs(target);
      if feed.GearboxTemperature? && actual <= target then level == None
      else (level == Some(Critical) <==> critical) && (level.Some? <==> critical || warning)
  {
    ShareReaches(Abs(actual - target), Abs(target), critPct);
    ShareReaches(Abs(actual - target), Abs(target), warnPct);
  }

  lemma ShareReaches(excess: real, size: real, pct: real)
    requires size > 0.0
    ensures excess / size * 100.0 >= pct <==> 100.0 * excess >= pct * size
  {
    var share := excess / size;
    assert share * size == excess;
    if share * 100.0 >= pct {
      Scale(size, pct, share * 100.0);
    } else {
      ScaleStrict(size, share * 100.0, pct);
    }
  }

  // --- Evaluating one reading ---

  /** Feeds that a session preset can apply to. */
  predicate HasParameter(feed: Feed) {
    !feed.Position? && !feed.OtherFeed?
  }

  predicate HasOwnerTarget(presets: Presets, session: nat, feed: Feed) {
    && HasParameter(feed) && (session, feed) in presets
    && presets[(session, feed)].target.Some? && presets[(session, feed)].target.value != 0.0
  }

  /** The one kind of alert a feed of a session ever raises. */
  function KindFor(presets: Presets, session: nat, feed: Feed): Kind {
    if HasOwnerTarget(presets, session, feed) then Deviation else Threshold
  }

  /** How far out of its limits a reading is for a session. */
  function LevelFor(presets: Presets, session: nat, n: Reading): Option<Level> {
    if HasOwnerTarget(presets, session, n.feed) then DeviationLevel(n.feed, n.value, presets[(session, n.feed)])
    else StatusLabel(n.feed, n.value)
  }

  predicate OpenAt(alerts: seq<Alert>, i: nat, session: nat, feed: Feed, kind: Kind) {
    i < |alerts| && alerts[i].OpenFor(session, feed) && alerts[i].kind == kind
  }

  /** The first open alert of a kind, or |alerts|. */
  function FirstOpen(alerts: seq<Alert>, from: nat, session: nat, feed: Feed, kind: Kind): (i: nat)
    requires from <= |alerts|
    ensures from <= i <= |alerts| && (i < |alerts| ==> OpenAt(alerts, i, session, feed, kind))
    ensures forall j :: from <= j < i ==> !OpenAt(alerts, j, session, feed, kind)
    decreases |alerts| - from
  {
    if from == |alerts| || OpenAt(alerts, from, session, feed, kind) then from
    else FirstOpen(alerts, from + 1, session, feed, kind)
  }

  function Raised(presets: Presets, session: nat, n: Reading, level: Level): Alert
    requires n.value.Some?
  {
    var kind := KindFor(presets, session, n.feed);
    var reference := if kind.Deviation? then presets[(session, n.feed)].target
                     else ThresholdOf(n.feed, level, n.value.value);
    Alert(session, n.feed, kind, level, n.value.value, reference, n.id, false)
  }

  /** The table after one reading of a session: an open threshold alert stands as it was raised, an open
  deviation alert is brought up to date, and otherwise a new alert is raised. */
  function Evaluated(presets: Presets, alerts: seq<Alert>, session: nat, n: Reading): seq<Alert> {
    var level := LevelFor(presets, session, n);
    if n.value.None? || level.None? then alerts
    else
      var kind := KindFor(presets, session, n.feed);
      var i := FirstOpen(alerts, 0, session, n.feed, kind);
      if i == |alerts| then alerts + [Raised(presets, session, n, level.value)]
      else if kind.Threshold? then alerts
      else alerts[i := Raised(presets, session, n, level.value)]
  }

  /** A stored batch; only the readings of an active session are evaluated. */
  function EvaluatedBatch(presets: Presets, alerts: seq<Alert>, session: nat, ns: seq<Reading>): seq<Alert> {
    if ns == [] then alerts
    else Evaluated(presets, EvaluatedBatch(presets, alerts, session, ns[..|ns| - 1]), session, ns[|ns| - 1])
  }

  // --- The engine ---

  class AlertBoard {
    const presets: Presets
    var alerts: seq<Alert>

    constructor (presets: Presets)
      ensures this.presets == presets && alerts == []
    {
      this.presets, alerts := presets, [];
    }

    method EvaluateThreshold(session: nat, n: Reading)
      requires KindFor(presets, session, n.feed).Threshold?
      modifies this
      ensures alerts == Evaluated(presets, old(alerts), session, n)
    {
      var level := StatusLabel(n.feed, n.value);
      if level.None? {
        return;
      }
      var i := FirstOpen(alerts, 0, session, n.feed, Threshold);
      if i < |alerts| {
        return;
      }
      var x := n.value.value;
      alerts := alerts + [Alert(session, n.feed, Threshold, level.value, x, ThresholdOf(n.feed, level.value, x),
                                n.id, false)];
    }

    method EvaluatePresetDeviation(session: nat, n: Reading, preset: Preset)
      requires KindFor(presets, session, n.feed).Deviation? && preset == presets[(session, n.feed)]
      modifies this
      ensures alerts == Evaluated(presets, old(alerts), session, n)
    {
      if n.value.None? || preset.target.None? {
        return;
      }
      var actual, target := n.value.value, preset.target.value;
      var pct := DeviationPct(n.feed, actual, target);
      if pct.None? {
        return;
      }
      var level: Level;
      if pct.value >= preset.critPct {
        level := Critical;
      } else if pct.value >= preset.warnPct {
        level := Warning;
      } else {
        return;
      }
      var i := FirstOpen(alerts, 0, session, n.feed, Deviation);
      if i < |alerts| {
        var existing := alerts[i].(actual := actual, reference := Some(target), level := level, reading := n.id);
        alerts := alerts[i := existing];
      } else {
        alerts := alerts + [Alert(session, n.feed, Deviation, level, actual, Some(target), n.id, false)];
      }
    }

    method Evaluate(n: Reading, session: Option<nat>)
      modifies this
      ensures alerts == if session.None? then old(alerts) else Evaluated(presets, old(alerts), session.value, n)
    {
      if session.None? {
        return;
      }
      if HasOwnerTarget(presets, session.value, n.feed) {
        EvaluatePresetDeviation(session.value, n, presets[(session.value, n.feed)]);
      } else {
        EvaluateThreshold(session.value, n);
      }
    }

    /** The evaluation that follows an ingest; it is skipped while the target session is paused. */
    method EvaluateRows(ns: seq<Reading>, target: Option<nat>, status: Status)
      modifies this
      ensures alerts == if target.Some? && status.Active? then
                          EvaluatedBatch(presets, old(alerts), target.value, ns)
                        else old(alerts)
    {
      if target.None? || !status.Active? {
        return;
      }
      for i := 0 to |ns|
        invariant alerts == EvaluatedBatch(presets, old(alerts), target.value, ns[..i])
      {
        assert ns[..i + 1][..i] == ns[..i];
        Evaluate(ns[i], target);
      }
      assert ns[..|ns|] == ns;
    }

    method Acknowledge(i: nat)
      requires i < |alerts|
      modifies this
      ensures alerts == old(alerts)[i := old(alerts)[i].(acknowledged := true)]
    {
      alerts := alerts[i := alerts[i].(acknowledged := true)];
    }
  }

  // --- Every run of ingests and acknowledgements ---

  datatype Event =
    | Ingest(session: nat, status: Status, readings: seq<Reading>)
    | Acknowledge(index: nat)

  /** The table, and the readings that have been evaluated, with their sessions. */
  datatype Board = Board(alerts: seq<Alert>, log: seq<(nat, Reading)>)

  function Logged(session: nat, ns: seq<Reading>): seq<(nat, Reading)> {
    seq(|ns|, i requires 0 <= i < |ns| => (session, ns[i]))
  }

  function Happen(presets: Presets, b: Board, e: Event): Board {
    match e
    case Ingest(session, status, ns) =>
      if status.Active? then
        Board(EvaluatedBatch(presets, b.alerts, session, ns), b.log + Logged(session, ns))
      else b
    case Acknowledge(i) =>
      if i < |b.alerts| then b.(alerts := b.alerts[i := b.alerts[i].(acknowledged := true)]) else b
  }

  function RunAlerts(presets: Presets, b: Board, es: seq<Event>): Board
    decreases |es|
  {
    if es == [] then b else RunAlerts(presets, Happen(presets, b, es[0]), es[1..])
  }

  /** The latest evaluated reading of a session's feed that was out of its limits. */
  function LatestOut(presets: Presets, log: seq<(nat, Reading)>, session: nat, feed: Feed): Option<Reading> {
    if log == [] then None
    else
      var (s, n) := log[|log| - 1];
      if s == session && n.feed == feed && n.value.Some? && LevelFor(presets, session, n).Some? then Some(n)
      else LatestOut(presets, log[..|log| - 1], session, feed)
  }

  predicate OfItsKind(presets: Presets, alerts: seq<Alert>) {
    forall i :: 0 <= i < |alerts| ==> alerts[i].kind == KindFor(presets, alerts[i].session, alerts[i].feed)
  }

  predicate OneOpen(alerts: seq<Alert>) {
    forall i, j :: 0 <= i < j < |alerts| && !alerts[i].acknowledged ==>
      !alerts[j].OpenFor(alerts[i].session, alerts[i].feed)
  }

  /** An open deviation alert is the alert its feed's latest out-of-tolerance reading would raise. */
  predicate UpToDate(presets: Presets, alerts: seq<Alert>, log: seq<(nat, Reading)>) {
    forall i :: 0 <= i < |alerts| && !alerts[i].acknowledged && alerts[i].kind.Deviation? ==>
      Reports(presets, alerts[i], LatestOut(presets, log, alerts[i].session, alerts[i].feed))
  }

  predicate Reports(presets: Presets, a: Alert, latest: Option<Reading>) {
    latest.Some? && Shows(presets, a, latest.value)
  }

  /** An alert that shows a reading: its value and level, and the target or the limit it went by. */
  predicate Shows(presets: Presets, a: Alert, n: Reading) {
    && a.feed == n.feed && a.reading == n.id && Some(a.actual) == n.value
    && Some(a.level) == LevelFor(presets, a.session, n)
    && a.reference.Some?
    && (if HasOwnerTarget(presets, a.session, n.feed) then
          a.kind == Deviation && a.reference == presets[(a.session, n.feed)].target
        else
          a.kind == Threshold && Reaches(n.feed, a.actual, a.reference.value))
  }

  lemma RaisedShows(presets: Presets, session: nat, n: Reading, level: Level)
    requires n.value.Some? && LevelFor(presets, session, n) == Some(level)
    ensures Shows(presets, Raised(presets, session, n, level), n)
    ensures Raised(presets, session, n, level).OpenFor(session, n.feed)
  {
    if !HasOwnerTarget(presets, session, n.feed) {
      LabelIsLimitReached(n.feed, n.value.value);
    }
  }

  predicate BoardOk(presets: Presets, b: Board) {
    OfItsKind(presets, b.alerts) && OneOpen(b.alerts) && UpToDate(presets, b.alerts, b.log)
  }

  lemma ReadingKeepsOk(presets: Presets, b: Board, session: nat, n: Reading)
    requires BoardOk(presets, b)
    ensures BoardOk(presets, Board(Evaluated(presets, b.alerts, session, n), b.log + [(session, n)]))
  {
    var after, log := Evaluated(presets, b.alerts, session, n), b.log + [(session, n)];
    assert log[..|log| - 1] == b.log;
    var kind, level := KindFor(presets, session, n.feed), LevelFor(presets, session, n);
    var i := FirstOpen(b.alerts, 0, session, n.feed, kind);
    if n.value.Some? && level.Some? {
      RaisedShows(presets, session, n, level.value);
      forall j | 0 <= j < |b.alerts| && b.alerts[j].OpenFor(session, n.feed) ensures j == i {
        assert OpenAt(b.alerts, j, session, n.feed, kind);
      }
    }
    forall j | 0 <= j < |after| && !after[j].acknowledged && after[j].kind.Deviation?
      ensures Reports(presets, after[j], LatestOut(presets, log, after[j].session, after[j].feed))
    {
      if j < |b.alerts| && after[j] == b.alerts[j] {
        assert Reports(presets, b.alerts[j], LatestOut(presets, b.log, after[j].session, after[j].feed));
      }
    }
  }

  lemma {:induction false} BatchKeepsOk(presets: Presets, b: Board, session: nat, ns: seq<Reading>)
    requires BoardOk(presets, b)
    ensures BoardOk(presets, Board(EvaluatedBatch(presets, b.alerts, session, ns), b.log + Logged(session, ns)))
  {
    if ns == [] {
      assert b.log + Logged(session, ns) == b.log;
    } else {
      var init, last := ns[..|ns| - 1], ns[|ns| - 1];
      BatchKeepsOk(presets, b, session, init);
      ReadingKeepsOk(presets, Board(EvaluatedBatch(presets, b.alerts, session, init), b.log + Logged(session, init)),
                     session, last);
      assert b.log + Logged(session, ns) == b.log + Logged(session, init) + [(session, last)];
    }
  }

  /** Over every run: a session's feed has at most one unacknowledged alert, of the one kind it can have,
  and an open deviation alert shows the latest reading that was out of tolerance. */
  lemma {:induction false} EveryRunIsOk(presets: Presets, b: Board, es: seq<Event>)
    requires BoardOk(presets, b)
    ensures BoardOk(presets, RunAlerts(presets, b, es))
    decreases |es|
  {
    if es != [] {
      if es[0].Ingest? && es[0].status.Active? {
        BatchKeepsOk(presets, b, es[0].session, es[0].readings);
      }
      EveryRunIsOk(presets, Happen(presets, b, es[0]), es[1..]);
    }
  }

  /** Nothing out of limits goes without an open alert: one that shows it, or the threshold alert that was
  open already. Within the limits nothing happens. */
  lemma OutOfLimitsIsOpen(presets: Presets, alerts: seq<Alert>, session: nat, n: Reading)
    ensures var after, level := Evaluated(presets, alerts, session, n), LevelFor(presets, session, n);
      && (level.None? ==> after == alerts)
      && (n.value.Some? && level.Some? ==>
            exists i :: 0 <= i < |after| && after[i].OpenFor(session, n.feed)
              && (Shows(presets, after[i], n) || (after[i] in alerts && after[i].kind.Threshold?)))
  {
    var after, level := Evaluated(presets, alerts, session, n), LevelFor(presets, session, n);
    if n.value.Some? && level.Some? {
      RaisedShows(presets, session, n, level.value);
      var i := FirstOpen(alerts, 0, session, n.feed, KindFor(presets, session, n.feed));
      assert after[i].OpenFor(session, n.feed);
    }
  }

  /** A target that is missing or zero leaves the generic limits in force: a reading that reaches one is alerted. */
  lemma LimitsHoldWithoutTarget(presets: Presets, alerts: seq<Alert>, session: nat, n: Reading)
    requires (session, n.feed) in presets ==> presets[(session, n.feed)].target in {None, Some(0.0)}
    requires StatusLabel(n.feed, n.value).Some?
    ensures var after := Evaluated(presets, alerts, session, n);
      exists i :: 0 <= i < |after| && after[i].OpenFor(session, n.feed)
  {
    OutOfLimitsIsOpen(presets, alerts, session, n);
  }

  /** A target takes their place: within its tolerances nothing is raised, whatever the generic limits say. */
  lemma TargetOverridesLimits(presets: Presets, alerts: seq<Alert>, session: nat, n: Reading, target: real)
    requires HasParameter(n.feed) && (session, n.feed) in presets && n.value.Some? && target != 0.0
    requires presets[(session, n.feed)].target == Some(target)
    requires var p := presets[(session, n.feed)];
      var out := 100.0 * Abs(n.value.value - target);
      out < p.critPct * Abs(target) && out < p.warnPct * Abs(target)
    ensures Evaluated(presets, alerts, session, n) == alerts
  {
    var p := presets[(session, n.feed)];
    DeviationIsShareOfTarget(n.feed, n.value.value, target, p.warnPct, p.critPct);
    assert p == Preset(Some(target), p.warnPct, p.critPct);
  }

  /** Readings of a batch change only alerts of their own session that are open, and never delete one. */
  lemma {:induction false} BatchTouchesOnlyItsSession(
    presets: Presets, alerts: seq<Alert>, session: nat, ns: seq<Reading>)
    ensures var after := EvaluatedBatch(presets, alerts, session, ns);
      && |alerts| <= |after|
      && (forall i :: 0 <= i < |alerts|
            && (alerts[i].acknowledged || alerts[i].kind.Threshold? || alerts[i].session != session)
            ==> after[i] == alerts[i])
      && (forall i :: |alerts| <= i < |after| ==> after[i].session == session)
  {
    if ns != [] {
      BatchTouchesOnlyItsSession(presets, alerts, session, ns[..|ns| - 1]);
    }
  }

  /** However long it goes on, ingesting for a paused session raises no alert for it, and leaves those it
  has as they are but for acknowledgements. */
  lemma {:induction false} PausedSessionRaisesNothing(presets: Presets, b: Board, es: seq<Event>, session: nat)
    requires forall i :: 0 <= i < |es| && es[i].Ingest? && es[i].session == session ==> !es[i].status.Active?
    ensures var after := RunAlerts(presets, b, es).alerts;
      && |b.alerts| <= |after|
      && (forall i :: |b.alerts| <= i < |after| ==> after[i].session != session)
      && (forall i :: 0 <= i < |b.alerts| ==> (after[i].session == session <==> b.alerts[i].session == session))
      && (forall i :: 0 <= i < |b.alerts| && b.alerts[i].session == session ==>
            after[i] == b.alerts[i].(acknowledged := after[i].acknowledged))
    decreases |es|
  {
    if es != [] {
      EventRaisesElsewhere(presets, b, es[0], session);
      PausedSessionRaisesNothing(presets, Happen(presets, b, es[0]), es[1..], session);
    }
  }

  lemma EventRaisesElsewhere(presets: Presets, b: Board, e: Event, session: nat)
    requires e.Ingest? && e.session == session ==> !e.status.Active?
    ensures var after := Happen(presets, b, e).alerts;
      && |b.alerts| <= |after|
      && (forall i :: |b.alerts| <= i < |after| ==> after[i].session != session)
      && (forall i :: 0 <= i < |b.alerts| ==> after[i].session == b.alerts[i].session)
      && (forall i :: 0 <= i < |b.alerts| && b.alerts[i].session == session ==>
            after[i] == b.alerts[i].(acknowledged := after[i].acknowledged))
  {
    if e.Ingest? && e.status.Active? {
      BatchKeepsSessions(presets, b.alerts, e.session, e.readings);
      BatchTouchesOnlyItsSession(presets, b.alerts, e.session, e.readings);
    }
  }

  lemma {:induction false} BatchKeepsSessions(presets: Presets, alerts: seq<Alert>, session: nat, ns: seq<Reading>)
    ensures var after := EvaluatedBatch(presets, alerts, session, ns);
      |alerts| <= |after| && forall i :: 0 <= i < |alerts| ==> after[i].session == alerts[i].session
  {
    if ns != [] {
      BatchKeepsSessions(presets, alerts, session, ns[..|ns| - 1]);
    }
  }
}
