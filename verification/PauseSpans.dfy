/** Pauses as the operator asks for them, and the fixes they keep out of the measured area. */
module PauseSpans {
  import opened Billing
  import opened FieldArea
  import opened Outcomes
  import opened SessionEnds
  import opened SessionLaws
  import opened SessionRuns
  import opened Sessions

  // --- Pauses, read off the requests ---

  /** The pauses that an operator's requests begin and end, from a moment when the session is active, or
  paused since some instant: each from an accepted pause to the resume, stop or cancel that ends it. Requests
  out of turn are refused and count for nothing. */
  function Spans(ts: seq<Timed>, id: nat, who: nat, since: Option<int>): seq<(int, int)>
    decreases |ts|
  {
    if ts == [] then []
    else
      EndedSpan(ts[0], id, who, since)
      + if Ends(ts[0].event, id, who) then [] else Spans(ts[1..], id, who, SinceAfter(ts[0], id, who, since))
  }

  /** The pause that a request ends, if one is running. */
  function EndedSpan(t: Timed, id: nat, who: nat, since: Option<int>): seq<(int, int)> {
    if since.Some? && (Ends(t.event, id, who) || t.event == Resume(id, who)) then [(since.value, t.now)] else []
  }

  /** When the pause began that is running after a request. */
  function SinceAfter(t: Timed, id: nat, who: nat, since: Option<int>): Option<int> {
    if t.event == Pause(id, who) && since.None? then Some(t.now)
    else if t.event == Resume(id, who) then None
    else since
  }

  /** Both ends of a pause belong to it. */
  predicate InSpan(at: int, spans: seq<(int, int)>) {
    exists i :: 0 <= i < |spans| && spans[i].0 <= at <= spans[i].1
  }

  function Closed(spans: seq<(int, int)>): seq<Interval> {
    seq(|spans|, i requires 0 <= i < |spans| => Interval(spans[i].0, Some(spans[i].1)))
  }

  function Running(since: Option<int>): seq<Interval> {
    if since.Some? then [Interval(since.value, None)] else []
  }

  /** Closed pauses cover exactly the instants between their requests. */
  lemma ClosedCover(at: int, spans: seq<(int, int)>)
    ensures IsPausedAt(at, Closed(spans)) <==> InSpan(at, spans)
  {
    var windows := Closed(spans);
    if InSpan(at, spans) {
      var i :| 0 <= i < |spans| && spans[i].0 <= at <= spans[i].1;
      assert InWindow(at, windows[i]);
    }
    if IsPausedAt(at, windows) {
      var i :| 0 <= i < |windows| && InWindow(at, windows[i]);
      assert spans[i].0 <= at <= spans[i].1;
    }
  }

  lemma ClosesRunning(base: seq<Interval>, since: Option<int>, now: int)
    requires !HasOpenPause(base)
    ensures PauseClosed(base + Running(since), now)
         == base + Closed(if since.Some? then [(since.value, now)] else [])
  {
    var rows := base + Running(since);
    if since.Some? {
      assert rows[..|rows| - 1] == base;
      assert Closed([(since.value, now)]) == [Interval(since.value, Some(now))];
    } else {
      assert rows == base && base + Closed([]) == base;
      NothingToClose(base, now);
    }
  }

  lemma MoreSpans(base: seq<Interval>, before: seq<(int, int)>, later: seq<(int, int)>)
    ensures base + Closed(before + later) == (base + Closed(before)) + Closed(later)
  {
    assert Closed(before + later) == Closed(before) + Closed(later);
  }

  /** A session whose pauses are closed, but for one running since some instant. */
  predicate PausedSince(s: Session, base: seq<Interval>, since: Option<int>) {
    s.Open() && (s.status.Paused? <==> since.Some?) && s.pauses == base + Running(since) && !HasOpenPause(base)
  }

  /** What ends a session ends its pause. */
  lemma EndClosesPause(geo: Geo, s: Session, id: nat, t: Timed, base: seq<Interval>, since: Option<int>)
    requires PausedSince(s, base, since) && Ends(t.event, id, s.operator)
    ensures StepSession(geo, s, id, t).pauses == base + Closed(EndedSpan(t, id, s.operator, since))
  {
    ClosesRunning(base, since, t.now);
    FinalizedKeeps(WithArea(geo, Ended(s, t.now, Completed)), t.now);
  }

  /** What every other request does to the pauses, told from the request alone. */
  lemma WorkMovesPause(geo: Geo, s: Session, id: nat, t: Timed, base: seq<Interval>, since: Option<int>)
    requires PausedSince(s, base, since) && !Ends(t.event, id, s.operator)
    ensures PausedSince(StepSession(geo, s, id, t), base + Closed(EndedSpan(t, id, s.operator, since)),
                        SinceAfter(t, id, s.operator, since))
  {
    assert base + Closed([]) == base && base + Running(None) == base;
    ClosesRunning(base, since, t.now);
    if t.event == Resume(id, s.operator) && since.Some? {
      OneMoreClosed(base, since.value, t.now);
    }
  }

  lemma OneMoreClosed(base: seq<Interval>, since: int, now: int)
    requires !HasOpenPause(base)
    ensures !HasOpenPause(base + Closed([(since, now)]))
    ensures base + Closed([(since, now)]) + Running(None) == base + Closed([(since, now)])
  {
  }

  /** The pauses a session ends with are those of the requests. */
  lemma {:induction false} PausesAreSpans(
    geo: Geo, s: Session, id: nat, now: int, ts: seq<Timed>, base: seq<Interval>, since: Option<int>)
    requires SessionOk(s, now) && Clocked(now, ts) && PausedSince(s, base, since)
    requires EndedBy(ts, id, s.operator).Some?
    ensures RunSession(geo, s, id, ts).pauses == base + Closed(Spans(ts, id, s.operator, since))
    decreases |ts|
  {
    var t, next := ts[0], StepSession(geo, s, id, ts[0]);
    var ended := EndedSpan(t, id, s.operator, since);
    Waits(s, now, t.now);
    EventFollows(geo, s, id, t);
    if Ends(t.event, id, s.operator) {
      EndClosesPause(geo, s, id, t, base, since);
      EndingEvent(geo, s, id, t);
      SessionRunFollows(geo, next, id, t.now, ts[1..]);
      assert ended + [] == ended;
    } else {
      var after := SinceAfter(t, id, s.operator, since);
      WorkMovesPause(geo, s, id, t, base, since);
      PausesAreSpans(geo, next, id, t.now, ts[1..], base + Closed(ended), after);
      MoreSpans(base, ended, Spans(ts[1..], id, s.operator, after));
    }
  }

  /** A session that has just been started. */
  predicate JustStarted(s: Session, now: int) {
    s.status.Active? && s.pauses == [] && s.trail == [] && SessionOk(s, now) && Locked(s)
  }

  lemma StartedPauses(geo: Geo, s: Session, id: nat, now: int, ts: seq<Timed>)
    requires JustStarted(s, now) && Clocked(now, ts) && EndedBy(ts, id, s.operator).Some?
    ensures RunSession(geo, s, id, ts).pauses == Closed(Spans(ts, id, s.operator, None))
  {
    PausesAreSpans(geo, s, id, now, ts, [], None);
  }

  // --- Fixes stamped inside a pause ---

  /** A request that stores a fix stamped between a pause and its end. */
  predicate IdleFix(t: Timed, id: nat, spans: seq<(int, int)>) {
    t.event.StoreFix? && t.event.id == id && InSpan(t.event.fix.at, spans)
  }

  function WithoutIdleFixes(ts: seq<Timed>, id: nat, spans: seq<(int, int)>): seq<Timed> {
    if ts == [] then []
    else (if IdleFix(ts[0], id, spans) then [] else [ts[0]]) + WithoutIdleFixes(ts[1..], id, spans)
  }

  lemma {:induction false} IdleIsPaused(ts: seq<Timed>, id: nat, spans: seq<(int, int)>)
    ensures WithoutPausedFixes(ts, id, Closed(spans)) == WithoutIdleFixes(ts, id, spans)
  {
    if ts != [] {
      if ts[0].event.StoreFix? {
        ClosedCover(ts[0].event.fix.at, spans);
      }
      IdleIsPaused(ts[1..], id, spans);
    }
  }

  /** Fixes neither begin nor end a pause, nor a session. */
  lemma {:induction false} FixesMoveNoPause(
    ts: seq<Timed>, id: nat, who: nat, since: Option<int>, spans: seq<(int, int)>)
    ensures Spans(WithoutIdleFixes(ts, id, spans), id, who, since) == Spans(ts, id, who, since)
    ensures EndedBy(WithoutIdleFixes(ts, id, spans), id, who) == EndedBy(ts, id, who)
    decreases |ts|
  {
    if ts != [] {
      var t, rest := ts[0], WithoutIdleFixes(ts[1..], id, spans);
      if IdleFix(t, id, spans) {
        assert WithoutIdleFixes(ts, id, spans) == rest;
        FixesMoveNoPause(ts[1..], id, who, since, spans);
      } else {
        assert ([t] + rest)[1..] == rest;
        FixesMoveNoPause(ts[1..], id, who, SinceAfter(t, id, who, since), spans);
      }
    }
  }

  /** Two runs of requests that differ only in fixes stamped inside the session's pauses, removed, added or
  altered, leave the session with the same area, hours, total and note, and all else but its stored rows. */
  lemma IdleFixesAreFree(geo: Geo, s: Session, id: nat, now: int, ts: seq<Timed>, ts': seq<Timed>)
    requires JustStarted(s, now) && Clocked(now, ts) && Clocked(now, ts')
    requires EndedBy(ts, id, s.operator).Some?
    requires var spans := Spans(ts, id, s.operator, None);
      WithoutIdleFixes(ts, id, spans) == WithoutIdleFixes(ts', id, spans)
    ensures RunSession(geo, s, id, ts).(trail := []) == RunSession(geo, s, id, ts').(trail := [])
  {
    var spans := Spans(ts, id, s.operator, None);
    FixesMoveNoPause(ts, id, s.operator, None, spans);
    FixesMoveNoPause(ts', id, s.operator, None, spans);
    LeavesOutIdle(geo, s, id, now, ts, spans);
    LeavesOutIdle(geo, s, id, now, ts', spans);
  }

  lemma LeavesOutIdle(geo: Geo, s: Session, id: nat, now: int, ts: seq<Timed>, spans: seq<(int, int)>)
    requires JustStarted(s, now) && Clocked(now, ts) && EndedBy(ts, id, s.operator).Some?
    requires spans == Spans(ts, id, s.operator, None)
    ensures RunSession(geo, s, id, ts).(trail := [])
         == RunSession(geo, s, id, WithoutIdleFixes(ts, id, spans)).(trail := [])
  {
    StartedPauses(geo, s, id, now, ts);
    PausedFixesAreFree(geo, s, id, now, ts);
    IdleIsPaused(ts, id, spans);
  }

  // --- Fixes that are measured ---

  /** The fixes stored for a session, in the order of the requests. */
  function FixesOf(ts: seq<Timed>, id: nat): seq<Fix> {
    if ts == [] then []
    else
      (if ts[0].event.StoreFix? && ts[0].event.id == id then [ts[0].event.fix] else []) + FixesOf(ts[1..], id)
  }

  lemma {:induction false} InsertAdds(rows: seq<Fix>, r: Fix)
    ensures multiset(InsertByStamp(rows, r)) == multiset(rows) + multiset{r}
  {
    if rows != [] && rows[|rows| - 1].at > r.at {
      var init, last := rows[..|rows| - 1], rows[|rows| - 1];
      InsertAdds(init, r);
      assert rows == init + [last];
    }
  }

  /** A session's rows are the fixes that were stored for it, no more and no fewer. */
  lemma {:induction false} TrailIsStored(geo: Geo, s: Session, id: nat, ts: seq<Timed>)
    ensures multiset(RunSession(geo, s, id, ts).trail) == multiset(s.trail) + multiset(FixesOf(ts, id))
    decreases |ts|
  {
    if ts != [] {
      var t, next := ts[0], StepSession(geo, s, id, ts[0]);
      TrailIsStored(geo, next, id, ts[1..]);
      if t.event.StoreFix? && t.event.id == id {
        StoresFix(geo, s, id, t);
        InsertAdds(s.trail, t.event.fix);
      } else {
        OthersKeepTrail(geo, s, id, t);
      }
    }
  }

  lemma OthersKeepTrail(geo: Geo, s: Session, id: nat, t: Timed)
    requires !(t.event.StoreFix? && t.event.id == id)
    ensures StepSession(geo, s, id, t).trail == s.trail
  {
    EndsKeepTrail(geo, s, t.now);
    BackfillKeepsTrail(geo, s, t.now);
  }

  lemma EndsKeepTrail(geo: Geo, s: Session, now: int)
    ensures Stopped(geo, s, now).trail == s.trail && Cancelled(geo, s, now).trail == s.trail
  {
    FinalizedKeeps(WithArea(geo, Ended(s, now, Completed)), now);
  }

  lemma BackfillKeepsTrail(geo: Geo, s: Session, now: int)
    ensures Backfilled(geo, s, now).trail == s.trail
  {
    FinalizedKeeps(if s.area.None? then WithArea(geo, s) else s, now);
  }

  lemma {:induction false} OutsideCounts(rows: seq<Fix>, windows: seq<Interval>, x: Fix)
    ensures multiset(Outside(rows, windows))[x] == if Counts(x, windows) then multiset(rows)[x] else 0
  {
    if rows != [] {
      var init, last := rows[..|rows| - 1], rows[|rows| - 1];
      OutsideCounts(init, windows, x);
      assert rows == init + [last];
      assert Outside(init, windows) + [] == Outside(init, windows);
    }
  }

  lemma {:induction false} PathIsOfOutside(rows: seq<Fix>, windows: seq<Interval>)
    ensures |Points(rows, windows)| == |Outside(rows, windows)|
    ensures forall i :: 0 <= i < |Points(rows, windows)| ==>
      Outside(rows, windows)[i].position == Some(Points(rows, windows)[i])
  {
    if rows != [] {
      PathIsOfOutside(rows[..|rows| - 1], windows);
    }
  }

  /** The path is made of exactly the positioned fixes that were stored and are stamped in no pause, each as
  often as it was stored, in the order of their stamps. */
  ghost predicate PathOf(rows: seq<Fix>, path: seq<Point>, stored: seq<Fix>, spans: seq<(int, int)>) {
    && |path| == |rows| && Ordered(rows)
    && (forall i :: 0 <= i < |path| ==> rows[i].position == Some(path[i]))
    && (forall x: Fix :: multiset(rows)[x]
          == if x.position.Some? && !InSpan(x.at, spans) then multiset(stored)[x] else 0)
  }

  lemma {:induction false} OutsideKeepsOrder(rows: seq<Fix>, windows: seq<Interval>)
    requires Ordered(rows)
    ensures Ordered(Outside(rows, windows))
  {
    if rows != [] {
      var init, last := rows[..|rows| - 1], rows[|rows| - 1];
      OutsideKeepsOrder(init, windows);
      OutsideIsWithin(init, windows);
      assert (Outside(init, windows) + [last])[..|Outside(init, windows)|] == Outside(init, windows);
      assert Outside(init, windows) + [] == Outside(init, windows);
    }
  }

  /** What a stop or a cancel measures. */
  lemma EndMeasures(geo: Geo, s: Session, id: nat, now: int, ts: seq<Timed>, end: Timed)
    requires JustStarted(s, now) && Clocked(now, ts + [end])
    requires EndedBy(ts, id, s.operator).None? && Ends(end.event, id, s.operator)
    ensures var before, after := RunSession(geo, s, id, ts), RunSession(geo, s, id, ts + [end]);
      && after.area == Some(StoredArea(geo, before.trail, after.pauses, s.width)) && after.finalizedAt.Some?
      && PathOf(Outside(before.trail, after.pauses), Points(before.trail, after.pauses), FixesOf(ts, id),
                Spans(ts + [end], id, s.operator, None))
  {
    var before := RunSession(geo, s, id, ts);
    ClockedSplits(now, ts, [end]);
    RunSessionSplits(geo, s, id, ts, [end]);
    assert RunSession(geo, s, id, ts + [end]) == StepSession(geo, before, id, end);
    EndedByLast(ts, id, s.operator, end);
    StartedPauses(geo, s, id, now, ts + [end]);
    FirstEndDecides(geo, s, id, now, ts);
    SessionRunFollows(geo, s, id, now, ts);
    Waits(before, LastNow(now, ts), end.now);
    EndMeasuresTrail(geo, before, id, end);
    TrailIsStored(geo, s, id, ts);
    MeasuredPath(before.trail, FixesOf(ts, id), Spans(ts + [end], id, s.operator, None));
  }

  lemma MeasuredPath(trail: seq<Fix>, stored: seq<Fix>, spans: seq<(int, int)>)
    requires Ordered(trail) && multiset(trail) == multiset(stored)
    ensures PathOf(Outside(trail, Closed(spans)), Points(trail, Closed(spans)), stored, spans)
  {
    PathIsOfOutside(trail, Closed(spans));
    OutsideKeepsOrder(trail, Closed(spans));
    forall x: Fix
      ensures multiset(Outside(trail, Closed(spans)))[x]
           == if x.position.Some? && !InSpan(x.at, spans) then multiset(stored)[x] else 0
    {
      OutsideCounts(trail, Closed(spans), x);
      ClosedCover(x.at, spans);
    }
  }

  lemma EndMeasuresTrail(geo: Geo, s: Session, id: nat, end: Timed)
    requires SessionOk(s, end.now) && s.Open() && Locked(s) && Ends(end.event, id, s.operator)
    ensures var r := StepSession(geo, s, id, end);
      r.area == Some(StoredArea(geo, s.trail, r.pauses, s.width)) && r.finalizedAt.Some?
  {
    EventFollows(geo, s, id, end);
    var e := WithArea(geo, Ended(s, end.now, Completed));
    FinalizedKeeps(e, end.now);
  }

  lemma {:induction false} RunSessionSplits(geo: Geo, s: Session, id: nat, ts: seq<Timed>, rest: seq<Timed>)
    ensures RunSession(geo, s, id, ts + rest) == RunSession(geo, RunSession(geo, s, id, ts), id, rest)
    decreases |ts|
  {
    if ts == [] {
      assert [] + rest == rest;
    } else {
      assert (ts + rest)[1..] == ts[1..] + rest;
      RunSessionSplits(geo, StepSession(geo, s, id, ts[0]), id, ts[1..], rest);
    }
  }

  lemma {:induction false} EndedByLast(ts: seq<Timed>, id: nat, who: nat, end: Timed)
    requires EndedBy(ts, id, who).None? && Ends(end.event, id, who)
    ensures EndedBy(ts + [end], id, who) == Some(end)
  {
    if ts != [] {
      assert (ts + [end])[1..] == ts[1..] + [end];
      EndedByLast(ts[1..], id, who, end);
    }
  }

  // --- The same of whole runs ---

  lemma RunFromStart(geo: Geo, w: World, now: int, legacy: set<nat>, start: Timed, ts: seq<Timed>) returns (s: Session)
    requires Inv(w, now, legacy) && Clocked(now, [start] + ts) && start.event.Start?
    requires Started(w, start.event, start.now).Some?
    ensures JustStarted(s, start.now) && Clocked(start.now, ts)
    ensures Started(w, start.event, start.now) == Some(s) && s.operator == start.event.who
    ensures s.width == start.event.width
    ensures start.event.id in Run(geo, w, [start] + ts).sessions
    ensures Run(geo, w, [start] + ts).sessions[start.event.id] == RunSession(geo, s, start.event.id, ts)
  {
    assert ([start] + ts)[1..] == ts;
    s := Started(w, start.event, start.now).value;
    StartedIsKept(w, start.event, start.now);
    assert Kept(s, start.now, false);
    RunIsLocal(geo, Apply(geo, w, start), ts, start.event.id);
  }

  /** In a run that starts a session and ends it, the fixes stamped between an accepted pause and the request
  that ended it can be left out, added or altered: area, hours, total and note stay what they are. */
  lemma FixesInPausesAreFree(
    geo: Geo, w: World, now: int, legacy: set<nat>, start: Timed, ts: seq<Timed>, ts': seq<Timed>)
    requires Inv(w, now, legacy) && Clocked(now, [start] + ts) && Clocked(now, [start] + ts') && start.event.Start?
    requires Started(w, start.event, start.now).Some?
    requires var e := start.event;
      && EndedBy(ts, e.id, e.who).Some?
      && var spans := Spans(ts, e.id, e.who, None);
      WithoutIdleFixes(ts, e.id, spans) == WithoutIdleFixes(ts', e.id, spans)
    ensures var id, end, end' := start.event.id, Run(geo, w, [start] + ts), Run(geo, w, [start] + ts');
      && id in end.sessions && id in end'.sessions
      && end.sessions[id].(trail := []) == end'.sessions[id].(trail := [])
  {
    var s := RunFromStart(geo, w, now, legacy, start, ts);
    var _ := RunFromStart(geo, w, now, legacy, start, ts');
    IdleFixesAreFree(geo, s, start.event.id, start.now, ts, ts');
  }

  /** The area a started session ends with is measured over a path of exactly the positioned fixes that were
  stored for it before it ended and are stamped in none of its pauses; whatever follows, that area stays. */
  lemma OtherFixesAreMeasured(
    geo: Geo, w: World, now: int, legacy: set<nat>, start: Timed, ts: seq<Timed>, end: Timed, rest: seq<Timed>)
    returns (trail: seq<Fix>, path: seq<Point>)
    requires Inv(w, now, legacy) && Clocked(now, [start] + ((ts + [end]) + rest)) && start.event.Start?
    requires Started(w, start.event, start.now).Some?
    requires var e := start.event; EndedBy(ts, e.id, e.who).None? && Ends(end.event, e.id, e.who)
    ensures var e := start.event;
      var final := Run(geo, w, [start] + ((ts + [end]) + rest)).sessions;
      && e.id in final
      && final[e.id].area == Some(Quantized(CoveredAreaHa(geo, path, e.width)))
      && PathOf(trail, path, FixesOf(ts, e.id), Spans(ts + [end], e.id, e.who, None))
  {
    var id := start.event.id;
    var s := RunFromStart(geo, w, now, legacy, start, (ts + [end]) + rest);
    ClockedSplits(start.now, ts + [end], rest);
    EndMeasures(geo, s, id, start.now, ts, end);
    var before, after := RunSession(geo, s, id, ts), RunSession(geo, s, id, ts + [end]);
    trail, path := Outside(before.trail, after.pauses), Points(before.trail, after.pauses);
    RunSessionSplits(geo, s, id, ts + [end], rest);
    SessionRunFollows(geo, s, id, start.now, ts + [end]);
    SessionRunFollows(geo, after, id, LastNow(start.now, ts + [end]), rest);
  }
}
