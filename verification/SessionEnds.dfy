/** How sessions end: what a stop charges, what a cancel charges, and which of the two a session came to. */
module SessionEnds {
  import opened Billing
  import opened FieldArea
  import opened Outcomes
  import opened Rounding
  import opened SessionLaws
  import opened SessionRuns
  import opened Sessions

  // --- What one request charges ---

  /** Time worked up to an instant: the wall clock less the pauses, and never less than nothing. */
  function WorkedUntil(s: Session, until: int): nat {
    var net := until - s.startedAt - PausedMicros(s.pauses, until);
    if net > 0 then net else 0
  }

  /** Paise for a worked time at a rate per hour: the hours are rounded to the microhour first. */
  function HourlyCharge(rate: nat, worked: nat): nat {
    HalfUp(rate * HalfUp(worked, 3_600), 100_000_000)
  }

  /** Paise for an area at a rate per hectare. */
  function AreaCharge(rate: nat, area: nat): nat {
    HalfUp(rate * area, 1_000_000)
  }

  lemma {:induction false} ClosingKeepsPaused(rows: seq<Interval>, now: int)
    ensures PausedMicros(PauseClosed(rows, now), now) == PausedMicros(rows, now)
  {
    if rows != [] {
      var init, last := rows[..|rows| - 1], rows[|rows| - 1];
      if last.to.None? {
        assert (init + [Interval(last.from, Some(now))])[..|init|] == init;
      } else {
        ClosingKeepsPaused(init, now);
        assert (PauseClosed(init, now) + [last])[..|PauseClosed(init, now)|] == PauseClosed(init, now);
      }
    }
  }

  /** The area a stop or a cancel at `now` measures: over the stored fixes, its own pauses closed. */
  function MeasuredAt(geo: Geo, s: Session, now: int): nat {
    StoredArea(geo, s.trail, PauseClosed(s.pauses, now), s.width)
  }

  /** What a session comes to that is ended at `until` with a measured area. */
  function ChargeOf(s: Session, until: int, area: nat): nat
    requires s.rate.Some?
  {
    if s.unit == Some(PerHour) then HourlyCharge(s.rate.value, WorkedUntil(s, until))
    else AreaCharge(s.rate.value, area)
  }

  lemma FinalizedCharges(s: Session, until: int, area: nat, now: int)
    requires s.finalizedAt.None? && s.rate.Some? && s.endedAt == Some(until) && s.startedAt <= until
    requires s.area == Some(area)
    ensures Finalized(s, now).total == Some(ChargeOf(s, until, area)) && Finalized(s, now).finalizedAt == Some(now)
    ensures Finalized(s, now).area == s.area
  {
    if s.PerHourBilled() {
      HoursOf(s, until);
    }
  }

  lemma HoursOf(s: Session, until: int)
    requires s.PerHourBilled() && s.endedAt == Some(until) && s.startedAt <= until
    ensures QuantityOf(s) == Some(HalfUp(WorkedUntil(s, until), 3_600))
  {
  }

  /** An accepted stop completes the session now, and charges its rate for the time worked until now, if it
  is billed by the hour, and else for the area; nothing else in the database changes. */
  lemma StopCharges(geo: Geo, w: World, id: nat, who: nat, now: int)
    requires id in w.sessions && w.sessions[id].operator == who && w.sessions[id].Open()
    requires w.sessions[id].finalizedAt.None? && w.sessions[id].rate.Some? && w.sessions[id].startedAt <= now
    ensures var after, s := Apply(geo, w, Timed(now, Stop(id, who))), w.sessions[id];
      && id in after.sessions && after == World(w.sessions[id := after.sessions[id]], w.card)
      && Completes(after.sessions[id], s, now, MeasuredAt(geo, s, now))
  {
    var s := w.sessions[id];
    OnlyOneChanges(geo, w, id, Timed(now, Stop(id, who)));
    assert StepSession(geo, s, id, Timed(now, Stop(id, who))) == Stopped(geo, s, now);
    StoppedCompletes(geo, s, now);
  }

  predicate Completes(r: Session, s: Session, now: int, area: nat)
    requires s.rate.Some?
  {
    && r.status == Completed && r.endedAt == Some(now) && r.finalizedAt == Some(now) && SameWork(r, s)
    && r.area == Some(area) && r.total == Some(ChargeOf(s, now, area))
  }

  lemma StoppedCompletes(geo: Geo, s: Session, now: int)
    requires s.finalizedAt.None? && s.rate.Some? && s.startedAt <= now
    ensures Completes(Stopped(geo, s, now), s, now, MeasuredAt(geo, s, now))
  {
    var e := WithArea(geo, Ended(s, now, Completed));
    FinalizedKeeps(e, now);
    FinalizedCharges(e, now, MeasuredAt(geo, s, now), now);
    ClosingKeepsPaused(s.pauses, now);
    SameCharge(e, s, now, MeasuredAt(geo, s, now));
  }

  lemma SameCharge(e: Session, s: Session, until: int, area: nat)
    requires s.rate.Some? && e.rate == s.rate && e.unit == s.unit && e.startedAt == s.startedAt
    requires PausedMicros(e.pauses, until) == PausedMicros(s.pauses, until)
    ensures ChargeOf(e, until, area) == ChargeOf(s, until, area)
  {
    assert WorkedUntil(e, until) == WorkedUntil(s, until);
  }

  /** An accepted stop of a session without a locked rate completes it and leaves its charge pending. */
  lemma StopWithoutRate(geo: Geo, w: World, id: nat, who: nat, now: int)
    requires id in w.sessions && w.sessions[id].operator == who && w.sessions[id].Open()
    requires w.sessions[id].finalizedAt.None? && w.sessions[id].rate.None?
    ensures var after, s := Apply(geo, w, Timed(now, Stop(id, who))), w.sessions[id];
      && id in after.sessions && after == World(w.sessions[id := after.sessions[id]], w.card)
      && var r := after.sessions[id];
      r.status == Completed && r.endedAt == Some(now) && r.finalizedAt.None? && r.total == s.total
  {
    OnlyOneChanges(geo, w, id, Timed(now, Stop(id, who)));
  }

  /** An accepted cancel aborts the session now and charges nothing. */
  lemma CancelChargesNothing(geo: Geo, w: World, id: nat, who: nat, now: int)
    requires id in w.sessions && w.sessions[id].operator == who && w.sessions[id].Open()
    requires w.sessions[id].finalizedAt.None?
    ensures var after, s := Apply(geo, w, Timed(now, Cancel(id, who))), w.sessions[id];
      && id in after.sessions && after == World(w.sessions[id := after.sessions[id]], w.card)
      && var r := after.sessions[id];
      && r.status == Aborted && r.endedAt == Some(now) && r.finalizedAt == Some(now) && SameWork(r, s)
      && r.area == Some(MeasuredAt(geo, s, now)) && r.total == Some(0)
  {
    OnlyOneChanges(geo, w, id, Timed(now, Cancel(id, who)));
  }

  predicate Reads(e: Event, id: nat) {
    (e.ReadSummary? && e.id == id) || (e.RunReport? && id in e.ids)
  }

  /** Reading a summary or running a report closes out a terminated session without a final charge: an
  aborted one at zero, a completed one at its rate for its recorded duration or area, or not at all while
  it has no rate. */
  lemma ReadingCharges(geo: Geo, w: World, id: nat, t: Timed)
    requires id in w.sessions && !w.sessions[id].Open() && w.sessions[id].finalizedAt.None? && Reads(t.event, id)
    requires w.sessions[id].endedAt.Some? && w.sessions[id].startedAt <= w.sessions[id].endedAt.value
    ensures id in Apply(geo, w, t).sessions
    ensures var s, r := w.sessions[id], Apply(geo, w, t).sessions[id];
      && r.status == s.status && r.endedAt == s.endedAt && SameWork(r, s)
      && (s.status.Aborted? ==> r.total == Some(0) && r.finalizedAt == Some(t.now))
      && (s.status.Completed? && s.rate.None? ==> r.total == s.total && r.finalizedAt.None?)
      && (s.status.Completed? && s.rate.Some? ==>
            r.finalizedAt == Some(t.now) && r.total == Some(ChargeOf(s, s.endedAt.value, RecordedArea(geo, s))))
  {
    var s := w.sessions[id];
    assert Apply(geo, w, t).sessions[id] == Backfilled(geo, s, t.now);
    if s.status.Completed? {
      BackfilledCharges(geo, s, t.now);
    }
  }

  lemma BackfilledCharges(geo: Geo, s: Session, now: int)
    requires s.status.Completed? && s.finalizedAt.None? && s.endedAt.Some? && s.startedAt <= s.endedAt.value
    ensures var r := Backfilled(geo, s, now);
      && r.status == s.status && r.endedAt == s.endedAt && SameWork(r, s)
      && (s.rate.None? ==> r.total == s.total && r.finalizedAt.None?)
      && (s.rate.Some? ==>
            r.finalizedAt == Some(now) && r.total == Some(ChargeOf(s, s.endedAt.value, RecordedArea(geo, s))))
  {
    var e := if s.area.None? then WithArea(geo, s) else s;
    FinalizedKeeps(e, now);
    if s.rate.Some? {
      FinalizedCharges(e, s.endedAt.value, RecordedArea(geo, s), now);
      SameCharge(e, s, s.endedAt.value, RecordedArea(geo, s));
    }
  }

  /** A session's recorded area, or else that of its fixes. */
  function RecordedArea(geo: Geo, s: Session): nat {
    if s.area.Some? then s.area.value else StoredArea(geo, s.trail, s.pauses, s.width)
  }

  // --- Which request ended a session ---

  predicate Ends(e: Event, id: nat, who: nat) {
    e == Stop(id, who) || e == Cancel(id, who)
  }

  /** The first stop or cancel of a session by its operator. */
  function EndedBy(ts: seq<Timed>, id: nat, who: nat): Option<Timed> {
    if ts == [] then None
    else if Ends(ts[0].event, id, who) then Some(ts[0])
    else EndedBy(ts[1..], id, who)
  }

  /** How an open session stands after the requests made of it. */
  predicate EndsAs(r: Session, ending: Option<Timed>) {
    match ending
    case None => r.Open() && r.endedAt.None?
    case Some(t) =>
      && r.endedAt == Some(t.now)
      && (r.status.Completed? <==> t.event.Stop?)
      && (r.status.Aborted? <==> t.event.Cancel?)
      && (t.event.Cancel? ==> r.total == Some(0))
  }

  /** An open session ends with the first stop or cancel its operator asks for: completed by a stop, aborted
  and free of charge by a cancel, and never otherwise. */
  lemma {:induction false} FirstEndDecides(geo: Geo, s: Session, id: nat, now: int, ts: seq<Timed>)
    requires SessionOk(s, now) && Clocked(now, ts) && s.Open()
    ensures EndsAs(RunSession(geo, s, id, ts), EndedBy(ts, id, s.operator))
    decreases |ts|
  {
    if ts != [] {
      var t, next := ts[0], StepSession(geo, s, id, ts[0]);
      Waits(s, now, t.now);
      EventFollows(geo, s, id, t);
      if Ends(t.event, id, s.operator) {
        EndingEvent(geo, s, id, t);
        SessionRunFollows(geo, next, id, t.now, ts[1..]);
      } else {
        OtherEventsKeepOpen(geo, s, id, t);
        FirstEndDecides(geo, next, id, t.now, ts[1..]);
      }
    }
  }

  lemma EndingEvent(geo: Geo, s: Session, id: nat, t: Timed)
    requires SessionOk(s, t.now) && s.Open() && Ends(t.event, id, s.operator)
    ensures var r := StepSession(geo, s, id, t);
      !r.Open() && EndsAs(r, Some(t)) && (t.event.Cancel? ==> r.finalizedAt.Some?)
  {
    FinalizedKeeps(WithArea(geo, Ended(s, t.now, Completed)), t.now);
  }

  lemma OtherEventsKeepOpen(geo: Geo, s: Session, id: nat, t: Timed)
    requires s.Open() && !Ends(t.event, id, s.operator)
    ensures StepSession(geo, s, id, t).Open() && StepSession(geo, s, id, t).operator == s.operator
  {
  }

  /** A session that is started in a run ends the run completed exactly if the request that ended it was a
  stop, and aborted, at no charge, exactly if it was a cancel. */
  lemma StartedSessionEndsAs(geo: Geo, w: World, now: int, legacy: set<nat>, start: Timed, ts: seq<Timed>)
    requires Inv(w, now, legacy) && Clocked(now, [start] + ts) && start.event.Start?
    requires Started(w, start.event, start.now).Some?
    ensures var e, end := start.event, Run(geo, w, [start] + ts);
      e.id in end.sessions && EndsAs(end.sessions[e.id], EndedBy(ts, e.id, e.who))
  {
    var e, after := start.event, Apply(geo, w, start);
    assert ([start] + ts)[1..] == ts;
    StartedIsKept(w, e, start.now);
    assert Kept(after.sessions[e.id], start.now, true);
    RunIsLocal(geo, after, ts, e.id);
    FirstEndDecides(geo, after.sessions[e.id], e.id, start.now, ts);
  }
}
