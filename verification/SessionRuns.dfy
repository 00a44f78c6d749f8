/** Whole-run theorems about sessions: what is billed, what cannot change, what does not matter. */
module SessionRuns {
  import opened Billing
  import opened Calculus
  import opened FieldArea
  import opened Outcomes
  import opened RateCard
  import opened Rounding
  import opened SessionLaws
  import opened Sessions

  /** A session as a reader of the stored tables finds it. */
  predicate WellKept(s: Session, now: int) {
    && (s.status.Paused? <==> s.pauses != [] && s.pauses[|s.pauses| - 1].to.None?)
    && (forall i :: 0 <= i < |s.pauses| - 1 ==> s.pauses[i].to.Some?)
    && (forall i, j :: 0 <= i < j < |s.pauses| ==>
          s.pauses[i].to.Some? && s.pauses[i].to.value <= s.pauses[j].from)
    && (!s.Open() ==> forall i :: 0 <= i < |s.pauses| ==> s.pauses[i].to.Some?)
    && NetMicros(s, now) >= 0
  }

  lemma OkIsWellKept(s: Session, now: int)
    requires SessionOk(s, now)
    ensures WellKept(s, now)
  {
    OpenPauseIsLast(s.pauses, s.startedAt, AsOf(s, now));
    LedgerIsOrdered(s.pauses, s.startedAt, AsOf(s, now));
    Waits(s, now, now);
  }

  /** From an empty database, whatever the requests: every ledger is well kept, every session carries a
  positive rate in the unit of its operation, every terminated one its final charge, and no operator
  has two open sessions. */
  lemma EveryRunIsWellKept(geo: Geo, card: Card, now: int, ts: seq<Timed>)
    requires Clocked(now, ts)
    ensures var w := Run(geo, World(map[], card), ts);
      && OneOpenEach(w.sessions)
      && forall id :: id in w.sessions ==>
           var s := w.sessions[id];
           WellKept(s, LastNow(now, ts)) && Locked(s) && (!s.Open() ==> Settled(s))
  {
    RunKeepsInv(geo, World(map[], card), now, {}, ts);
    var w := Run(geo, World(map[], card), ts);
    forall id | id in w.sessions ensures WellKept(w.sessions[id], LastNow(now, ts)) {
      OkIsWellKept(w.sessions[id], LastNow(now, ts));
    }
  }

  // --- Billed time is observed time ---

  /** Time between events during which an onlooker sees the session active. */
  function Observed(geo: Geo, w: World, now: int, ts: seq<Timed>, id: nat): int
    decreases |ts|
  {
    if ts == [] then 0
    else
      (if id in w.sessions && w.sessions[id].status.Active? then ts[0].now - now else 0)
      + Observed(geo, Apply(geo, w, ts[0]), ts[0].now, ts[1..], id)
  }

  function NetSoFar(w: World, now: int, id: nat): int {
    if id in w.sessions then NetMicros(w.sessions[id], now) else 0
  }

  lemma NetAfterEvent(geo: Geo, w: World, now: int, legacy: set<nat>, t: Timed, id: nat)
    requires Inv(w, now, legacy) && now <= t.now
    ensures NetSoFar(Apply(geo, w, t), t.now, id)
         == NetSoFar(w, now, id)
            + if id in w.sessions && w.sessions[id].status.Active? then t.now - now else 0
  {
    if id in w.sessions {
      Waits(w.sessions[id], now, t.now);
      EventFollows(geo, w.sessions[id], id, t);
    }
  }

  /** Over every run a session's wall clock less its recorded pauses is the time it was seen active. */
  lemma {:induction false} NetIsObserved(geo: Geo, w: World, now: int, legacy: set<nat>, ts: seq<Timed>, id: nat)
    requires Inv(w, now, legacy) && Clocked(now, ts)
    ensures NetSoFar(Run(geo, w, ts), LastNow(now, ts), id)
         == NetSoFar(w, now, id) + Observed(geo, w, now, ts, id)
    decreases |ts|
  {
    if ts != [] {
      NetAfterEvent(geo, w, now, legacy, ts[0], id);
      EventKeepsInv(geo, w, now, legacy, ts[0]);
      NetIsObserved(geo, Apply(geo, w, ts[0]), ts[0].now, legacy, ts[1..], id);
    }
  }

  /** Minutes shown with a session; an unfinished one is measured to now. */
  function DisplayedMinutes(s: Session, now: int): real {
    var net := NetMicros(s, now) as real / 60000000.0;
    if net > 0.0 then net else 0.0
  }

  lemma WorkedIsNet(s: Session, now: int)
    requires SessionOk(s, now) && s.endedAt.Some?
    ensures NetMicros(s, now) >= 0 && WorkedOf(s) == Some(NetMicros(s, now))
  {
    Waits(s, now, now);
  }

  /** A per-hour session started and completed within a run is billed for exactly the time it was seen
  active, to the microhour, and shows that same time in minutes. Neither clamp at zero ever acts. */
  lemma BilledHoursAreObserved(geo: Geo, w: World, now: int, legacy: set<nat>, ts: seq<Timed>, id: nat)
    requires Inv(w, now, legacy) && Clocked(now, ts) && id !in w.sessions && id !in legacy
    requires var end := Run(geo, w, ts);
      id in end.sessions && end.sessions[id].status.Completed? && IsPerHour(end.sessions[id].operation)
    ensures var s := Run(geo, w, ts).sessions[id];
      var active := Observed(geo, w, now, ts, id);
      && active >= 0 && s.rate.Some?
      && s.hours == Some(BilledHours(active))
      && s.total == Some(Total(PerHour, s.rate.value, BilledHours(active)))
      && DisplayedMinutes(s, LastNow(now, ts)) == active as real / 60000000.0
  {
    RunKeepsInv(geo, w, now, legacy, ts);
    NetIsObserved(geo, w, now, legacy, ts, id);
    WorkedIsNet(Run(geo, w, ts).sessions[id], LastNow(now, ts));
  }

  // --- A session only sees its own requests ---

  function RunSession(geo: Geo, s: Session, id: nat, ts: seq<Timed>): Session
    decreases |ts|
  {
    if ts == [] then s else RunSession(geo, StepSession(geo, s, id, ts[0]), id, ts[1..])
  }

  function Concerning(ts: seq<Timed>, id: nat): seq<Timed> {
    if ts == [] then []
    else (if Concerns(ts[0].event, id) then [ts[0]] else []) + Concerning(ts[1..], id)
  }

  lemma {:induction false} RunIsLocal(geo: Geo, w: World, ts: seq<Timed>, id: nat)
    requires id in w.sessions
    ensures id in Run(geo, w, ts).sessions
    ensures Run(geo, w, ts).sessions[id] == RunSession(geo, w.sessions[id], id, ts)
    decreases |ts|
  {
    if ts != [] {
      RunIsLocal(geo, Apply(geo, w, ts[0]), ts[1..], id);
    }
  }

  lemma {:induction false} OnlyConcerningMatters(geo: Geo, s: Session, id: nat, ts: seq<Timed>)
    ensures RunSession(geo, s, id, ts) == RunSession(geo, s, id, Concerning(ts, id))
    decreases |ts|
  {
    if ts != [] {
      OnlyConcerningMatters(geo, StepSession(geo, s, id, ts[0]), id, ts[1..]);
      if Concerns(ts[0].event, id) {
        assert ([ts[0]] + Concerning(ts[1..], id))[1..] == Concerning(ts[1..], id);
      } else {
        UnconcernedStays(geo, s, id, ts[0]);
        assert [] + Concerning(ts[1..], id) == Concerning(ts[1..], id);
      }
    }
  }

  /** Two runs that agree on a session when they begin and on the requests made of that session end with
  the same session, charge and all: whatever happens to rate cards and to other sessions meanwhile. */
  lemma RateEditsDoNotReprice(geo: Geo, w: World, w': World, ts: seq<Timed>, ts': seq<Timed>, id: nat)
    requires id in w.sessions && id in w'.sessions && w.sessions[id] == w'.sessions[id]
    requires Concerning(ts, id) == Concerning(ts', id)
    ensures id in Run(geo, w, ts).sessions && id in Run(geo, w', ts').sessions
    ensures Run(geo, w, ts).sessions[id] == Run(geo, w', ts').sessions[id]
  {
    RunIsLocal(geo, w, ts, id);
    RunIsLocal(geo, w', ts', id);
    OnlyConcerningMatters(geo, w.sessions[id], id, ts);
    OnlyConcerningMatters(geo, w.sessions[id], id, ts');
  }

  /** What a run keeps of a session. */
  predicate Outlasts(s: Session, r: Session) {
    && SameWork(r, s)
    && (!s.Open() ==> r.status == s.status && r.pauses == s.pauses && r.endedAt == s.endedAt)
    && (s.finalizedAt.Some? ==> r == s.(trail := r.trail))
  }

  lemma {:induction false} SessionRunFollows(geo: Geo, s: Session, id: nat, now: int, ts: seq<Timed>)
    requires SessionOk(s, now) && Clocked(now, ts)
    ensures var r := RunSession(geo, s, id, ts);
      SessionOk(r, LastNow(now, ts)) && Outlasts(s, r)
    decreases |ts|
  {
    if ts != [] {
      var next := StepSession(geo, s, id, ts[0]);
      Waits(s, now, ts[0].now);
      EventFollows(geo, s, id, ts[0]);
      SessionRunFollows(geo, next, id, ts[0].now, ts[1..]);
      OutlastsTransitive(s, next, RunSession(geo, next, id, ts[1..]));
    }
  }

  lemma OutlastsTransitive(a: Session, b: Session, c: Session)
    requires Outlasts(a, b) && Outlasts(b, c) && (a.Open() || !b.Open())
    ensures Outlasts(a, c)
  {
  }

  /** Once a charge is final no run of requests changes anything of the session but the GPS rows stored
  with it; a terminated session stays terminated in the same way. */
  lemma FinalChargeIsFrozen(geo: Geo, w: World, now: int, legacy: set<nat>, ts: seq<Timed>, id: nat)
    requires Inv(w, now, legacy) && Clocked(now, ts) && id in w.sessions && !w.sessions[id].Open()
    ensures id in Run(geo, w, ts).sessions
    ensures var s, r := w.sessions[id], Run(geo, w, ts).sessions[id];
      && r.status == s.status && r.endedAt == s.endedAt && r.pauses == s.pauses
      && (s.finalizedAt.Some? ==> r == s.(trail := r.trail))
  {
    RunIsLocal(geo, w, ts, id);
    SessionRunFollows(geo, w.sessions[id], id, now, ts);
  }

  /** A started session is billed at the rate its owner's card held at that moment. */
  lemma BilledAtTheLockedRate(geo: Geo, w: World, now: int, legacy: set<nat>, start: Timed, ts: seq<Timed>)
    requires Inv(w, now, legacy) && Clocked(now, [start] + ts) && start.event.Start?
    requires Started(w, start.event, start.now).Some? && start.event.id !in legacy
    ensures var e := start.event;
      var end := Run(geo, w, [start] + ts);
      && e.id in end.sessions
      && var s := end.sessions[e.id];
      && s.rate == LockedRate(w.card, e.owner, e.operation) && s.rate.Some? && s.rate.value > 0
      && (s.status.Completed? ==>
            QuantityOf(s).Some? && s.total == Some(Total(UnitFor(e.operation), s.rate.value, QuantityOf(s).value)))
  {
    var e := start.event;
    assert ([start] + ts)[1..] == ts;
    EventKeepsInv(geo, w, now, legacy, start);
    var w' := Apply(geo, w, start);
    RunKeepsInv(geo, w', start.now, legacy, ts);
    RunIsLocal(geo, w', ts, e.id);
    SessionRunFollows(geo, w'.sessions[e.id], e.id, start.now, ts);
  }

  // --- Hectares and rupees ---

  /** The swath a session worked, in ha: the path through its unpaused fixes times its width. */
  function WorkedSwath(geo: Geo, s: Session, now: int): real
    requires s.width.Some?
  {
    SwathHa(PathLength(geo, Points(s.trail, PauseClosed(s.pauses, now))), s.width.value)
  }

  /** Rupees for a worked swath, and how far two roundings can take a total from them. */
  function SwathCharge(rate: nat, swath: real): real {
    rate as real / 10000.0 * swath
  }

  function RoundingMargin(rate: nat): real {
    0.005 + rate as real / 10000.0 * 0.00005
  }

  predicate Near(total: nat, charge: real, margin: real) {
    -margin <= total as real / 100.0 - charge <= margin
  }

  /** Stopping a per-hectare session bills its swath at its rate, to half a paisa and half a unit of area. */
  lemma StoppedBillIsNearSwath(geo: Geo, s: Session, now: int)
    requires s.Open() && s.finalizedAt.None? && s.rate.Some? && !s.PerHourBilled()
    requires s.width.Some? && s.width.value > 0.0
    ensures var r := Stopped(geo, s, now);
      && r.total.Some? && r.finalizedAt == Some(now)
      && Near(r.total.value, SwathCharge(s.rate.value, WorkedSwath(geo, s, now)), RoundingMargin(s.rate.value))
  {
    var area := StoredArea(geo, s.trail, PauseClosed(s.pauses, now), s.width);
    StoredAreaNearSwath(geo, s.trail, PauseClosed(s.pauses, now), s.width,
                        PathLength(geo, Points(s.trail, PauseClosed(s.pauses, now))));
    StoppedTotal(geo, s, now, area);
    AreaTimesRate(s.rate.value, area, WorkedSwath(geo, s, now));
  }

  lemma StoppedTotal(geo: Geo, s: Session, now: int, area: nat)
    requires s.finalizedAt.None? && s.rate.Some? && !s.PerHourBilled()
    requires area == StoredArea(geo, s.trail, PauseClosed(s.pauses, now), s.width)
    ensures Stopped(geo, s, now).finalizedAt == Some(now)
    ensures Stopped(geo, s, now).total == Some(Total(PerHectare, s.rate.value, area))
  {
  }

  lemma AreaTimesRate(rate: nat, area: nat, swath: real)
    requires -0.00005 <= area as real / 10000.0 - swath <= 0.00005
    ensures Near(Total(PerHectare, rate, area), SwathCharge(rate, swath), RoundingMargin(rate))
  {
    var k, ha, d := rate as real / 10000.0, area as real / 10000.0, 0.00005;
    var priced, charge, slack := GapProducts(k, ha, swath, d);
    ProductInReals(rate, area, k, ha, priced);
    TwoRoundings(Total(PerHectare, rate, area), rate * area, priced, charge, slack);
  }

  lemma TwoRoundings(total: nat, product: nat, priced: real, charge: real, slack: real)
    requires total == HalfUp(product, 1_000_000)
    requires product as real / 100000000.0 == priced && -slack <= priced - charge <= slack
    ensures Near(total, charge, 0.005 + slack)
  {
    assert 2 * product - 1_000_000 <= 2_000_000 * total <= 2 * product + 1_000_000;
  }

  lemma ProductInReals(rate: nat, area: nat, k: real, ha: real, priced: real)
    requires k == rate as real / 10000.0 && ha == area as real / 10000.0 && priced == k * ha
    ensures (rate * area) as real / 100000000.0 == priced
  {
    assert (rate * area) as real == rate as real * area as real;
  }

  lemma GapProducts(k: real, a: real, b: real, d: real) returns (x: real, y: real, slack: real)
    requires k >= 0.0 && -d <= a - b <= d
    ensures x == k * a && y == k * b && slack == k * d && -slack <= x - y <= slack
  {
    x, y, slack := k * a, k * b, k * d;
    GapBelow(k, a, b, d);
    GapBelow(k, b, a, d);
  }

  lemma GapBelow(k: real, a: real, b: real, d: real)
    requires k >= 0.0 && a - b <= d
    ensures k * a - k * b <= k * d
  {
    Scale(k, a, b + d);
    assert k * (b + d) == k * b + k * d;
  }

  // --- Fixes stamped inside a pause ---

  predicate PausedFix(t: Timed, id: nat, windows: seq<Interval>) {
    t.event.StoreFix? && t.event.id == id && IsPausedAt(t.event.fix.at, windows)
  }

  function WithoutPausedFixes(ts: seq<Timed>, id: nat, windows: seq<Interval>): seq<Timed> {
    if ts == [] then []
    else (if PausedFix(ts[0], id, windows) then [] else [ts[0]]) + WithoutPausedFixes(ts[1..], id, windows)
  }

  /** Equal but for rows that do not count against these windows. */
  predicate Alike(a: Session, b: Session, windows: seq<Interval>) {
    && a.(trail := []) == b.(trail := [])
    && Ordered(a.trail) && Ordered(b.trail)
    && Outside(a.trail, windows) == Outside(b.trail, windows)
  }

  lemma AlikeArea(geo: Geo, a: Session, b: Session)
    requires Alike(a, b, a.pauses)
    ensures StoredArea(geo, a.trail, a.pauses, a.width) == StoredArea(geo, b.trail, b.pauses, b.width)
  {
    PointsOfOutside(a.trail, b.trail, a.pauses);
  }

  lemma FinalizedIgnoresTrail(s: Session, trail: seq<Fix>, now: int)
    ensures Finalized(s.(trail := trail), now) == Finalized(s, now).(trail := trail)
  {
    ChargeKeepsQuantity(s, s.(trail := trail));
  }

  lemma FinalizedAlike(a: Session, b: Session, windows: seq<Interval>, now: int)
    requires Alike(a, b, windows)
    ensures Alike(Finalized(a, now), Finalized(b, now), windows)
  {
    assert b == a.(trail := b.trail);
    FinalizedIgnoresTrail(a, b.trail, now);
    FinalizedIgnoresTrail(a, a.trail, now);
    SameTrail(Finalized(a, now), a.trail, b.trail, windows);
  }

  lemma SameTrail(s: Session, trail: seq<Fix>, trail': seq<Fix>, windows: seq<Interval>)
    requires Ordered(trail) && Ordered(trail') && Outside(trail, windows) == Outside(trail', windows)
    ensures Alike(s.(trail := trail), s.(trail := trail'), windows)
  {
  }

  lemma WithAreaAlike(geo: Geo, a: Session, b: Session)
    requires Alike(a, b, a.pauses)
    ensures Alike(WithArea(geo, a), WithArea(geo, b), a.pauses)
  {
    AlikeArea(geo, a, b);
  }

  lemma ClosingAlike(geo: Geo, a: Session, b: Session, now: int, status: Status)
    requires Alike(a, b, PauseClosed(a.pauses, now))
    ensures Alike(WithArea(geo, Ended(a, now, status)), WithArea(geo, Ended(b, now, status)),
                  PauseClosed(a.pauses, now))
  {
    WithAreaAlike(geo, Ended(a, now, status), Ended(b, now, status));
  }

  /** One event keeps two sessions alike, if they are alike for the windows the session ends with. */
  lemma EventKeepsAlike(geo: Geo, a: Session, b: Session, id: nat, t: Timed, windows: seq<Interval>)
    requires Alike(a, b, windows)
    requires var r := StepSession(geo, a, id, t); r.Open() || r.pauses == windows
    ensures Alike(StepSession(geo, a, id, t), StepSession(geo, b, id, t), windows)
  {
    assert Accepts(a, id, t.event) == Accepts(b, id, t.event);
    if Accepts(a, id, t.event) {
      EffectKeepsAlike(geo, a, b, t, windows);
    }
  }

  lemma EffectKeepsAlike(geo: Geo, a: Session, b: Session, t: Timed, windows: seq<Interval>)
    requires Alike(a, b, windows)
    requires Effect(geo, a, t).Open() || Effect(geo, a, t).pauses == windows
    ensures Alike(Effect(geo, a, t), Effect(geo, b, t), windows)
  {
    if t.event.Stop? || t.event.Cancel? || t.event.ReadSummary? || t.event.RunReport? {
      ChargingKeepsAlike(geo, a, b, t, windows);
    } else {
      WorkKeepsAlike(geo, a, b, t, windows);
    }
  }

  /** Requests that end a session or charge it. */
  lemma ChargingKeepsAlike(geo: Geo, a: Session, b: Session, t: Timed, windows: seq<Interval>)
    requires Alike(a, b, windows)
    requires t.event.Stop? || t.event.Cancel? || t.event.ReadSummary? || t.event.RunReport?
    requires Effect(geo, a, t).Open() || Effect(geo, a, t).pauses == windows
    ensures Alike(Effect(geo, a, t), Effect(geo, b, t), windows)
  {
    match t.event
    case Stop(_, _) => StoppedAlike(geo, a, b, t.now, windows);
    case Cancel(_, _) => CancelledAlike(geo, a, b, t.now, windows);
    case ReadSummary(_) => BackfilledAlike(geo, a, b, t.now, windows);
    case RunReport(_) => BackfilledAlike(geo, a, b, t.now, windows);
  }

  /** Requests made while the work goes on. */
  lemma WorkKeepsAlike(geo: Geo, a: Session, b: Session, t: Timed, windows: seq<Interval>)
    requires Alike(a, b, windows)
    requires !t.event.Stop? && !t.event.Cancel? && !t.event.ReadSummary? && !t.event.RunReport?
    ensures Alike(Effect(geo, a, t), Effect(geo, b, t), windows)
  {
    match t.event
    case Pause(_, _) => PausedAlike(a, b, t.now, windows);
    case Resume(_, _) => ResumedAlike(a, b, t.now, windows);
    case StoreFix(_, fix) => FixAlike(a, b, fix, windows);
    case _ =>
  }

  lemma PausedAlike(a: Session, b: Session, now: int, windows: seq<Interval>)
    requires Alike(a, b, windows)
    ensures Alike(a.(status := Paused, pauses := a.pauses + [Interval(now, None)]),
                  b.(status := Paused, pauses := b.pauses + [Interval(now, None)]), windows)
  {
  }

  lemma ResumedAlike(a: Session, b: Session, now: int, windows: seq<Interval>)
    requires Alike(a, b, windows)
    ensures Alike(a.(pauses := PauseClosed(a.pauses, now), status := Active),
                  b.(pauses := PauseClosed(b.pauses, now), status := Active), windows)
  {
  }

  lemma FixAlike(a: Session, b: Session, fix: Fix, windows: seq<Interval>)
    requires Alike(a, b, windows)
    ensures Alike(a.(trail := InsertByStamp(a.trail, fix)), b.(trail := InsertByStamp(b.trail, fix)), windows)
  {
    OutsideInserted(a.trail, fix, windows);
    OutsideInserted(b.trail, fix, windows);
    InsertKeepsOrder(a.trail, fix);
    InsertKeepsOrder(b.trail, fix);
  }

  lemma StoppedAlike(geo: Geo, a: Session, b: Session, now: int, windows: seq<Interval>)
    requires Alike(a, b, windows)
    requires Stopped(geo, a, now).Open() || Stopped(geo, a, now).pauses == windows
    ensures Alike(Stopped(geo, a, now), Stopped(geo, b, now), windows)
  {
    var e := WithArea(geo, Ended(a, now, Completed));
    FinalizedKeeps(e, now);
    ClosingAlike(geo, a, b, now, Completed);
    FinalizedAlike(e, WithArea(geo, Ended(b, now, Completed)), windows, now);
  }

  lemma CancelledAlike(geo: Geo, a: Session, b: Session, now: int, windows: seq<Interval>)
    requires Alike(a, b, windows)
    requires Cancelled(geo, a, now).pauses == windows
    ensures Alike(Cancelled(geo, a, now), Cancelled(geo, b, now), windows)
  {
    ClosingAlike(geo, a, b, now, Aborted);
  }

  lemma BackfilledAlike(geo: Geo, a: Session, b: Session, now: int, windows: seq<Interval>)
    requires Alike(a, b, windows)
    requires Backfilled(geo, a, now).Open() || Backfilled(geo, a, now).pauses == windows
    ensures Alike(Backfilled(geo, a, now), Backfilled(geo, b, now), windows)
  {
    if a.status.Completed? && a.finalizedAt.None? {
      FinalizedKeeps(if a.area.None? then WithArea(geo, a) else a, now);
      if a.area.None? {
        WithAreaAlike(geo, a, b);
        FinalizedAlike(WithArea(geo, a), WithArea(geo, b), windows, now);
      } else {
        FinalizedAlike(a, b, windows, now);
      }
    }
  }

  lemma PausedFixKeepsAlike(geo: Geo, a: Session, b: Session, id: nat, t: Timed, windows: seq<Interval>)
    requires Alike(a, b, windows) && PausedFix(t, id, windows)
    ensures Alike(StepSession(geo, a, id, t), b, windows)
  {
    StoresFix(geo, a, id, t);
    PausedFixAlike(a, b, t.event.fix, windows);
  }

  lemma StoresFix(geo: Geo, s: Session, id: nat, t: Timed)
    requires t.event.StoreFix? && t.event.id == id
    ensures StepSession(geo, s, id, t) == s.(trail := InsertByStamp(s.trail, t.event.fix))
  {
  }

  lemma PausedFixAlike(a: Session, b: Session, fix: Fix, windows: seq<Interval>)
    requires Alike(a, b, windows) && IsPausedAt(fix.at, windows)
    ensures Alike(a.(trail := InsertByStamp(a.trail, fix)), b, windows)
  {
    OutsideInserted(a.trail, fix, windows);
    InsertKeepsOrder(a.trail, fix);
  }

  lemma {:induction false} RunsStayAlike(
    geo: Geo, a: Session, b: Session, id: nat, now: int, ts: seq<Timed>, windows: seq<Interval>)
    requires SessionOk(a, now) && Clocked(now, ts) && Alike(a, b, windows)
    requires RunSession(geo, a, id, ts).pauses == windows
    ensures Alike(RunSession(geo, a, id, ts), RunSession(geo, b, id, WithoutPausedFixes(ts, id, windows)), windows)
    decreases |ts|
  {
    if ts != [] {
      var t, rest := ts[0], WithoutPausedFixes(ts[1..], id, windows);
      var a' := StepSession(geo, a, id, t);
      Waits(a, now, t.now);
      EventFollows(geo, a, id, t);
      SessionRunFollows(geo, a', id, t.now, ts[1..]);
      if PausedFix(t, id, windows) {
        PausedFixKeepsAlike(geo, a, b, id, t, windows);
        assert WithoutPausedFixes(ts, id, windows) == rest;
        RunsStayAlike(geo, a', b, id, t.now, ts[1..], windows);
      } else {
        EventKeepsAlike(geo, a, b, id, t, windows);
        assert ([t] + rest)[1..] == rest;
        RunsStayAlike(geo, a', StepSession(geo, b, id, t), id, t.now, ts[1..], windows);
      }
    }
  }

  /** Leaving out of a run every fix stamped inside one of the session's pauses changes nothing about the
  session but its stored rows: same area, same charge, same note. */
  lemma PausedFixesAreFree(geo: Geo, s: Session, id: nat, now: int, ts: seq<Timed>)
    requires SessionOk(s, now) && Clocked(now, ts)
    ensures var end := RunSession(geo, s, id, ts);
      RunSession(geo, s, id, WithoutPausedFixes(ts, id, end.pauses)).(trail := []) == end.(trail := [])
  {
    RunsStayAlike(geo, s, s, id, now, ts, RunSession(geo, s, id, ts).pauses);
  }

  // --- Sessions from before rates were locked ---

  /** A completed session without a locked rate is never charged, however often it is read or reported. */
  lemma {:induction false} UnpricedStaysPending(geo: Geo, s: Session, id: nat, ts: seq<Timed>)
    requires s.status.Completed? && s.rate.None? && s.finalizedAt.None?
    ensures var r := RunSession(geo, s, id, ts); r.finalizedAt.None? && r.total == s.total && r.status.Completed?
    decreases |ts|
  {
    if ts != [] {
      UnpricedStaysPending(geo, StepSession(geo, s, id, ts[0]), id, ts[1..]);
    }
  }
}
