/** What holds of sessions over every serialized run of requests. */
module SessionLaws {
  import opened Billing
  import opened CostNotes
  import opened FieldArea
  import opened Outcomes
  import opened Sessions

  // --- The pause ledger ---

  /** Closed intervals, ordered and disjoint, between two instants. */
  predicate ClosedLedger(rows: seq<Interval>, low: int, high: int) {
    if rows == [] then low <= high
    else
      var last := rows[|rows| - 1];
      last.to.Some? && last.from <= last.to.value <= high && ClosedLedger(rows[..|rows| - 1], low, last.from)
  }

  predicate HasOpenPause(rows: seq<Interval>) {
    exists i :: 0 <= i < |rows| && rows[i].to.None?
  }

  /** The same, except that the last interval may still be open. */
  predicate Ledger(rows: seq<Interval>, low: int, high: int) {
    if rows != [] && rows[|rows| - 1].to.None? then
      rows[|rows| - 1].from <= high && ClosedLedger(rows[..|rows| - 1], low, rows[|rows| - 1].from)
    else ClosedLedger(rows, low, high)
  }

  /** A ledger spelled out: only the last interval may be open, and each starts after the previous one ended. */
  lemma {:induction false} LedgerIsOrdered(rows: seq<Interval>, low: int, high: int)
    requires Ledger(rows, low, high)
    ensures forall i :: 0 <= i < |rows| - 1 ==> rows[i].to.Some?
    ensures forall i, j :: 0 <= i < j < |rows| ==> rows[i].to.Some? && rows[i].to.value <= rows[j].from
    ensures forall i :: 0 <= i < |rows| ==> low <= rows[i].from <= rows[i].End(high) <= high
  {
    if rows != [] {
      var init, last := rows[..|rows| - 1], rows[|rows| - 1];
      ClosedIsLedger(init, low, last.from);
      LedgerIsOrdered(init, low, last.from);
      ClosedStartsLow(init, low, last.from);
    }
  }

  lemma {:induction false} ClosedIsLedger(rows: seq<Interval>, low: int, high: int)
    requires ClosedLedger(rows, low, high)
    ensures Ledger(rows, low, high) && !HasOpenPause(rows)
  {
    if rows != [] {
      ClosedIsLedger(rows[..|rows| - 1], low, rows[|rows| - 1].from);
    }
  }

  lemma {:induction false} ClosedStartsLow(rows: seq<Interval>, low: int, high: int)
    requires ClosedLedger(rows, low, high)
    ensures low <= high
  {
    if rows != [] {
      ClosedStartsLow(rows[..|rows| - 1], low, rows[|rows| - 1].from);
    }
  }

  lemma {:induction false} PausedWithinWall(rows: seq<Interval>, low: int, high: int)
    requires ClosedLedger(rows, low, high)
    ensures PausedMicros(rows, high) <= high - low
    ensures forall until: int :: PausedMicros(rows, until) == PausedMicros(rows, high)
  {
    if rows != [] {
      var init, last := rows[..|rows| - 1], rows[|rows| - 1];
      PausedWithinWall(init, low, last.from);
      ClosedStartsLow(init, low, last.from);
      forall until: int ensures PausedMicros(rows, until) == PausedMicros(rows, high) {
        assert PausedMicros(init, until) == PausedMicros(init, last.from) == PausedMicros(init, high);
      }
    }
  }

  lemma OpenPauseIsLast(rows: seq<Interval>, low: int, high: int)
    requires Ledger(rows, low, high)
    ensures HasOpenPause(rows) <==> rows != [] && rows[|rows| - 1].to.None?
  {
    if rows != [] && rows[|rows| - 1].to.None? {
      assert rows[|rows| - 1].to.None?;
    } else {
      ClosedIsLedger(rows, low, high);
    }
  }

  // --- What every session satisfies ---

  /** The instant a session's time is measured to. */
  function AsOf(s: Session, now: int): int {
    if s.endedAt.Some? then s.endedAt.value else now
  }

  /** Wall clock minus pauses, before any clamp. */
  function NetMicros(s: Session, now: int): int {
    AsOf(s, now) - s.startedAt - PausedMicros(s.pauses, AsOf(s, now))
  }

  predicate SessionOk(s: Session, now: int) {
    && Ledger(s.pauses, s.startedAt, AsOf(s, now))
    && (s.status.Paused? <==> HasOpenPause(s.pauses))
    && (s.Open() <==> s.endedAt.None?)
    && AsOf(s, now) <= now
    && (s.finalizedAt.Some? ==> !s.Open())
    && Ordered(s.trail)
  }

  /** The rate was locked at start, in the unit of the operation. */
  predicate Locked(s: Session) {
    s.rate.Some? && s.rate.value > 0 && s.unit == Some(UnitFor(s.operation))
  }

  /** A terminated session's final charge: the locked rate times the measured quantity, or nothing. */
  predicate Settled(s: Session) {
    && s.finalizedAt.Some?
    && (s.status.Aborted? ==> s.total == Some(0))
    && (s.status.Completed? ==>
          && s.rate.Some? && QuantityOf(s).Some?
          && (s.PerHourBilled() ==> s.hours == QuantityOf(s))
          && s.total == Some(Total(BilledUnit(s), s.rate.value, QuantityOf(s).value))
          && s.note == Some(Note(s.operation, BilledUnit(s), s.rate.value, QuantityOf(s).value, s.total.value)))
  }

  /** What holds of one session at `now`. Sessions that were not created by this code may lack a rate or
  a final charge. */
  predicate Kept(s: Session, now: int, legacy: bool) {
    SessionOk(s, now) && (!legacy ==> Locked(s) && (!s.Open() ==> Settled(s)))
  }

  ghost predicate Inv(w: World, now: int, legacy: set<nat>) {
    && (forall id :: id in w.sessions ==> Kept(w.sessions[id], now, id in legacy))
    && OneOpenEach(w.sessions)
  }

  predicate OneOpenEach(sessions: map<nat, Session>) {
    forall i, j | i in sessions && j in sessions && sessions[i].Open() && sessions[j].Open() ::
      sessions[i].operator == sessions[j].operator ==> i == j
  }

  predicate Clocked(now: int, ts: seq<Timed>)
    decreases |ts|
  {
    ts == [] || (now <= ts[0].now && Clocked(ts[0].now, ts[1..]))
  }

  function LastNow(now: int, ts: seq<Timed>): int
    decreases |ts|
  {
    if ts == [] then now else LastNow(ts[0].now, ts[1..])
  }

  lemma {:induction false} ClockedSplits(now: int, ts: seq<Timed>, rest: seq<Timed>)
    requires Clocked(now, ts + rest)
    ensures Clocked(now, ts) && Clocked(LastNow(now, ts), rest)
    decreases |ts|
  {
    if ts == [] {
      assert [] + rest == rest;
    } else {
      assert (ts + rest)[1..] == ts[1..] + rest;
      ClockedSplits(ts[0].now, ts[1..], rest);
    }
  }

  // --- Closing a pause ---

  /** Waiting changes what a session's net time is only while it is active. */
  lemma Waits(s: Session, now: int, later: int)
    requires SessionOk(s, now) && now <= later
    ensures SessionOk(s, later)
    ensures NetMicros(s, now) >= 0
    ensures NetMicros(s, later) == NetMicros(s, now) + if s.status.Active? then later - now else 0
  {
    var rows, low := s.pauses, s.startedAt;
    OpenPauseIsLast(rows, low, AsOf(s, now));
    if s.status.Paused? {
      var init, last := rows[..|rows| - 1], rows[|rows| - 1];
      PausedWithinWall(init, low, last.from);
      assert PausedMicros(init, now) == PausedMicros(init, later) == PausedMicros(init, last.from);
    } else {
      ClosedWaits(rows, low, AsOf(s, now), AsOf(s, later));
      PausedWithinWall(rows, low, AsOf(s, now));
      assert PausedMicros(rows, AsOf(s, later)) == PausedMicros(rows, AsOf(s, now));
    }
  }

  lemma ClosedWaits(rows: seq<Interval>, low: int, high: int, later: int)
    requires ClosedLedger(rows, low, high) && high <= later
    ensures ClosedLedger(rows, low, later)
  {
  }

  /** Closing the open interval now leaves the net time as it is. */
  lemma ClosesPause(rows: seq<Interval>, low: int, now: int)
    requires Ledger(rows, low, now)
    ensures ClosedLedger(PauseClosed(rows, now), low, now) && !HasOpenPause(PauseClosed(rows, now))
    ensures PausedMicros(PauseClosed(rows, now), now) == PausedMicros(rows, now)
  {
    if rows != [] && rows[|rows| - 1].to.None? {
      var init, last := rows[..|rows| - 1], rows[|rows| - 1];
      var closed := init + [Interval(last.from, Some(now))];
      assert closed[..|closed| - 1] == init;
      ClosedIsLedger(closed, low, now);
    } else {
      ClosedIsLedger(rows, low, now);
      NothingToClose(rows, now);
    }
  }

  lemma {:induction false} NothingToClose(rows: seq<Interval>, now: int)
    requires !HasOpenPause(rows)
    ensures PauseClosed(rows, now) == rows
  {
    if rows != [] {
      assert rows[|rows| - 1].to.Some?;
      NothingToClose(rows[..|rows| - 1], now);
    }
  }

  lemma OpensPause(rows: seq<Interval>, low: int, now: int)
    requires ClosedLedger(rows, low, now)
    ensures Ledger(rows + [Interval(now, None)], low, now) && HasOpenPause(rows + [Interval(now, None)])
    ensures PausedMicros(rows + [Interval(now, None)], now) == PausedMicros(rows, now)
  {
    var grown := rows + [Interval(now, None)];
    assert grown[..|grown| - 1] == rows && grown[|rows|].to.None?;
  }

  // --- One event ---

  /** Fields that closing and charging a session can touch. */
  predicate SameWork(a: Session, b: Session) {
    && a.operator == b.operator && a.operation == b.operation && a.startedAt == b.startedAt
    && a.rate == b.rate && a.unit == b.unit && a.gps == b.gps && a.width == b.width
  }

  lemma FinalizedKeeps(s: Session, now: int)
    ensures var f := Finalized(s, now);
      SameWork(f, s) && f.status == s.status && f.endedAt == s.endedAt && f.pauses == s.pauses && f.trail == s.trail
    ensures s.finalizedAt.None? && s.rate.Some? && QuantityOf(s).Some? && s.status.Completed?
            ==> Settled(Finalized(s, now))
  {
    ChargeKeepsQuantity(s, Finalized(s, now));
  }

  lemma ChargeKeepsQuantity(s: Session, f: Session)
    requires f.startedAt == s.startedAt && f.endedAt == s.endedAt && f.pauses == s.pauses
    requires f.unit == s.unit && f.area == s.area
    ensures QuantityOf(f) == QuantityOf(s)
  {
  }

  lemma EndedIsOk(geo: Geo, s: Session, now: int, status: Status)
    requires SessionOk(s, now) && s.Open() && (status.Completed? || status.Aborted?)
    ensures var e := WithArea(geo, Ended(s, now, status));
      && SessionOk(e.(finalizedAt := Some(now)), now) && NetMicros(e, now) == NetMicros(s, now)
      && e.finalizedAt.None? && SameWork(e, s) && e.area.Some? && e.endedAt == Some(now)
      && WorkedOf(e).Some?
  {
    ClosesPause(s.pauses, s.startedAt, now);
    var rows := PauseClosed(s.pauses, now);
    ClosedIsLedger(rows, s.startedAt, now);
    ClosedStartsLow(rows, s.startedAt, now);
  }

  /** What one event at `now` keeps of a session: it stays well formed, its net time and what was fixed at
  its start do not change, a terminal state is final, and so is a final charge. */
  predicate Follows(s: Session, r: Session, now: int) {
    && SessionOk(r, now) && NetMicros(r, now) == NetMicros(s, now) && SameWork(r, s)
    && (!s.Open() ==> r.status == s.status && r.pauses == s.pauses && r.endedAt == s.endedAt)
    && (s.finalizedAt.Some? ==> r == s.(trail := r.trail))
    && (s.Open() && !r.Open() && s.rate.Some? ==> Settled(r))
  }

  lemma StoppedFollows(geo: Geo, s: Session, now: int)
    requires SessionOk(s, now) && s.Open()
    ensures Follows(s, Stopped(geo, s, now), now)
  {
    EndedIsOk(geo, s, now, Completed);
    FinalizedKeeps(WithArea(geo, Ended(s, now, Completed)), now);
  }

  lemma CancelledFollows(geo: Geo, s: Session, now: int)
    requires SessionOk(s, now) && s.Open()
    ensures Follows(s, Cancelled(geo, s, now), now)
  {
    EndedIsOk(geo, s, now, Aborted);
  }

  lemma BackfilledFollows(geo: Geo, s: Session, now: int)
    requires SessionOk(s, now)
    ensures Follows(s, Backfilled(geo, s, now), now)
  {
    if s.status.Completed? && s.finalizedAt.None? {
      FinalizedKeeps(if s.area.None? then WithArea(geo, s) else s, now);
    }
  }

  lemma PausedFollows(s: Session, now: int)
    requires SessionOk(s, now) && s.status.Active?
    ensures Follows(s, s.(status := Paused, pauses := s.pauses + [Interval(now, None)]), now)
  {
    ActiveIsClosed(s, now);
    OpensPause(s.pauses, s.startedAt, now);
  }

  lemma ActiveIsClosed(s: Session, now: int)
    requires SessionOk(s, now) && s.status.Active?
    ensures ClosedLedger(s.pauses, s.startedAt, now)
  {
    OpenPauseIsLast(s.pauses, s.startedAt, now);
  }

  lemma ResumedFollows(s: Session, now: int)
    requires SessionOk(s, now) && s.status.Paused?
    ensures Follows(s, s.(pauses := PauseClosed(s.pauses, now), status := Active), now)
  {
    ClosesPause(s.pauses, s.startedAt, now);
    ClosedIsLedger(PauseClosed(s.pauses, now), s.startedAt, now);
  }

  lemma FixStoredFollows(s: Session, fix: Fix, now: int)
    requires SessionOk(s, now)
    ensures Follows(s, s.(trail := InsertByStamp(s.trail, fix)), now)
  {
    InsertKeepsOrder(s.trail, fix);
  }

  lemma EventFollows(geo: Geo, s: Session, id: nat, t: Timed)
    requires SessionOk(s, t.now)
    ensures Follows(s, StepSession(geo, s, id, t), t.now)
  {
    if Accepts(s, id, t.event) {
      match t.event
      case Pause(_, _) => PausedFollows(s, t.now);
      case Resume(_, _) => ResumedFollows(s, t.now);
      case Stop(_, _) => StoppedFollows(geo, s, t.now);
      case Cancel(_, _) => CancelledFollows(geo, s, t.now);
      case ReadSummary(_) => BackfilledFollows(geo, s, t.now);
      case RunReport(_) => BackfilledFollows(geo, s, t.now);
      case StoreFix(_, fix) => FixStoredFollows(s, fix, t.now);
      case _ =>
    }
  }

  // --- Every run ---

  lemma FinalStays(geo: Geo, s: Session, id: nat, t: Timed)
    requires SessionOk(s, t.now) && Settled(s)
    ensures Settled(StepSession(geo, s, id, t))
  {
    EventFollows(geo, s, id, t);
    ChargeKeepsQuantity(s, StepSession(geo, s, id, t));
  }

  predicate NotReopened(before: Session, after: Session) {
    after.operator == before.operator && (after.Open() ==> before.Open())
  }

  lemma EventKeepsSession(geo: Geo, s: Session, id: nat, now: int, t: Timed, legacy: bool)
    requires Kept(s, now, legacy) && now <= t.now
    ensures Kept(StepSession(geo, s, id, t), t.now, legacy) && NotReopened(s, StepSession(geo, s, id, t))
  {
    Waits(s, now, t.now);
    EventFollows(geo, s, id, t);
    FollowsKeeps(s, StepSession(geo, s, id, t), t.now, legacy);
    if !legacy && !s.Open() {
      FinalStays(geo, s, id, t);
    }
  }

  lemma FollowsKeeps(s: Session, r: Session, now: int, legacy: bool)
    requires Follows(s, r, now) && (!legacy ==> Locked(s))
    ensures SessionOk(r, now) && (!legacy ==> Locked(r)) && NotReopened(s, r)
    ensures !legacy && s.Open() && !r.Open() ==> Settled(r)
  {
  }

  lemma StartedIsKept(w: World, e: Event, now: int)
    requires e.Start? && Started(w, e, now).Some?
    ensures forall legacy: bool :: Kept(Started(w, e, now).value, now, legacy)
  {
  }

  predicate NoneReopened(before: map<nat, Session>, after: map<nat, Session>) {
    after.Keys == before.Keys && forall i :: i in before ==> NotReopened(before[i], after[i])
  }

  lemma FewerOpen(before: map<nat, Session>, after: map<nat, Session>)
    requires OneOpenEach(before) && NoneReopened(before, after)
    ensures OneOpenEach(after)
  {
    assert forall i :: i in after ==> NotReopened(before[i], after[i]);
  }

  lemma OneMoreOpen(before: map<nat, Session>, after: map<nat, Session>, id: nat, s: Session)
    requires OneOpenEach(after) && NoneReopened(before, after) && !HasOpenSession(before, s.operator)
    ensures OneOpenEach(after[id := s])
  {
    forall i | i in after && after[i].Open() ensures after[i].operator != s.operator {
      assert NotReopened(before[i], after[i]);
    }
  }

  lemma EventKeepsOneOpen(geo: Geo, w: World, t: Timed)
    requires OneOpenEach(w.sessions) && NoneReopened(w.sessions, StepAll(geo, w.sessions, t))
    ensures OneOpenEach(Apply(geo, w, t).sessions)
  {
    var stepped := StepAll(geo, w.sessions, t);
    FewerOpen(w.sessions, stepped);
    if t.event.Start? && Started(w, t.event, t.now).Some? {
      OneMoreOpen(w.sessions, stepped, t.event.id, Started(w, t.event, t.now).value);
    }
  }

  lemma EventKeepsInv(geo: Geo, w: World, now: int, legacy: set<nat>, t: Timed)
    requires Inv(w, now, legacy) && now <= t.now
    ensures Inv(Apply(geo, w, t), t.now, legacy)
  {
    forall id | id in w.sessions
      ensures Kept(StepSession(geo, w.sessions[id], id, t), t.now, id in legacy)
      ensures NotReopened(w.sessions[id], StepSession(geo, w.sessions[id], id, t))
    {
      EventKeepsSession(geo, w.sessions[id], id, now, t, id in legacy);
    }
    EventKeepsOneOpen(geo, w, t);
    if t.event.Start? && Started(w, t.event, t.now).Some? {
      StartedIsKept(w, t.event, t.now);
    }
  }

  /** The invariant holds after every run. */
  lemma {:induction false} RunKeepsInv(geo: Geo, w: World, now: int, legacy: set<nat>, ts: seq<Timed>)
    requires Inv(w, now, legacy) && Clocked(now, ts)
    ensures Inv(Run(geo, w, ts), LastNow(now, ts), legacy)
    decreases |ts|
  {
    if ts != [] {
      EventKeepsInv(geo, w, now, legacy, ts[0]);
      RunKeepsInv(geo, Apply(geo, w, ts[0]), ts[0].now, legacy, ts[1..]);
    }
  }
}
