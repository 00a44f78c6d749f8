/** The session lifecycle as serialized transactions: what each request does to the stored state. */
module Sessions {
  import opened Billing
  import opened CostNotes
  import opened FieldArea
  import opened Outcomes
  import opened RateCard

  datatype Status = Active | Paused | Completed | Aborted

  /** A session row with its pause ledger and its GPS rows. `finalizedAt` set means the charge is final. */
  datatype Session = Session(
    operator: nat,
    operation: Operation,
    startedAt: int,
    endedAt: Option<int>,
    status: Status,
    gps: bool,
    width: Option<real>,
    unit: Option<Unit>,
    rate: Option<nat>,
    area: Option<nat>,
    hours: Option<nat>,
    total: Option<nat>,
    note: Option<string>,
    finalizedAt: Option<int>,
    pauses: seq<Interval>,
    trail: seq<Fix>)
  {
    predicate Open() {
      status.Active? || status.Paused?
    }

    predicate PerHourBilled() {
      unit == Some(PerHour)
    }
  }

  // --- Closing and charging one session ---

  const NO_RATE := "No rate was locked for this session - cost cannot be computed"
  const NO_DURATION := "Session duration unavailable - cost pending"
  const NO_AREA := "Area not computed - cost pending"
  const CANCELLED := "Session cancelled - no charge"

  /** Closes the latest open interval, if there is one. */
  function PauseClosed(rows: seq<Interval>, at: int): seq<Interval> {
    if rows == [] then []
    else
      var init, last := rows[..|rows| - 1], rows[|rows| - 1];
      if last.to.None? then init + [Interval(last.from, Some(at))] else PauseClosed(init, at) + [last]
  }

  function WithArea(geo: Geo, s: Session): Session {
    s.(area := Some(StoredArea(geo, s.trail, s.pauses, s.width)))
  }

  function BilledUnit(s: Session): Unit {
    if s.PerHourBilled() then PerHour else PerHectare
  }

  function WorkedOf(s: Session): Option<nat> {
    if s.endedAt.None? then None else WorkedMicros(s.startedAt, s.endedAt.value, s.pauses)
  }

  /** Hours or hectares, in the places they are billed and printed in. */
  function QuantityOf(s: Session): Option<nat> {
    if !s.PerHourBilled() then s.area
    else if WorkedOf(s).None? then None
    else Some(BilledHours(WorkedOf(s).value))
  }

  function Charged(s: Session, rate: nat, quantity: nat, now: int): Session {
    var total := Total(BilledUnit(s), rate, quantity);
    s.(hours := if s.PerHourBilled() then Some(quantity) else s.hours,
       total := Some(total),
       note := Some(Note(s.operation, BilledUnit(s), rate, quantity, total)),
       finalizedAt := Some(now))
  }

  /** Issues the charge once; a session without a locked rate or a quantity stays pending. */
  function Finalized(s: Session, now: int): Session {
    if s.finalizedAt.Some? then s
    else if s.rate.None? then s.(note := Some(NO_RATE))
    else
      match QuantityOf(s)
      case None => s.(note := Some(if s.PerHourBilled() then NO_DURATION else NO_AREA))
      case Some(quantity) => Charged(s, s.rate.value, quantity, now)
  }

  function CancelFinalized(s: Session, now: int): Session {
    if s.finalizedAt.Some? then s
    else s.(total := Some(0), note := Some(CANCELLED), finalizedAt := Some(now))
  }

  function Ended(s: Session, now: int, status: Status): Session {
    s.(pauses := PauseClosed(s.pauses, now), endedAt := Some(now), status := status)
  }

  function Stopped(geo: Geo, s: Session, now: int): Session {
    Finalized(WithArea(geo, Ended(s, now, Completed)), now)
  }

  function Cancelled(geo: Geo, s: Session, now: int): Session {
    CancelFinalized(WithArea(geo, Ended(s, now, Aborted)), now)
  }

  /** What reading a summary or running a report does to a terminated session without a final charge. */
  function Backfilled(geo: Geo, s: Session, now: int): Session {
    if s.finalizedAt.Some? || s.Open() then s
    else if s.status.Aborted? then CancelFinalized(s, now)
    else Finalized(if s.area.None? then WithArea(geo, s) else s, now)
  }

  // --- Requests ---

  datatype Event =
    | Start(id: nat, who: nat, owner: Option<nat>, found: bool, operation: Operation, gps: bool, width: Option<real>)
    | Pause(id: nat, who: nat)
    | Resume(id: nat, who: nat)
    | Stop(id: nat, who: nat)
    | Cancel(id: nat, who: nat)
    | ReadSummary(id: nat)
    | RunReport(ids: seq<nat>)
    | StoreFix(id: nat, fix: Fix)
    | PostRate(cardOwner: nat, op: Operation, perHa: Option<real>, perHour: Option<real>)
    | EditRate(cardOwner: nat, op: Operation, perHa: Option<real>, perHour: Option<real>)
    | DeleteRate(cardOwner: nat, op: Operation)

  datatype Timed = Timed(now: int, event: Event)

  datatype World = World(sessions: map<nat, Session>, card: Card)

  /** A new session, or None where the start is refused. `found` stands for the tractor, farmer and
  implement lookups. */
  function Started(w: World, e: Event, now: int): Option<Session>
    requires e.Start?
  {
    var rate := LockedRate(w.card, e.owner, e.operation);
    if !e.found || HasOpenSession(w.sessions, e.who) || rate.None? || e.id in w.sessions then None
    else
      Some(Session(e.who, e.operation, now, None, Active, e.gps, e.width, Some(UnitFor(e.operation)), rate,
                   None, None, None, None, None, [], []))
  }

  predicate HasOpenSession(sessions: map<nat, Session>, who: nat) {
    exists id :: id in sessions && sessions[id].operator == who && sessions[id].Open()
  }

  /** Whether a session is the one an event is about, and lets it happen. */
  predicate Accepts(s: Session, id: nat, e: Event) {
    match e
    case Pause(i, who) => i == id && who == s.operator && s.status.Active?
    case Resume(i, who) => i == id && who == s.operator && s.status.Paused?
    case Stop(i, who) => i == id && who == s.operator && s.Open()
    case Cancel(i, who) => i == id && who == s.operator && s.Open()
    case ReadSummary(i) => i == id
    case RunReport(ids) => id in ids
    case StoreFix(i, _) => i == id
    case _ => false
  }

  /** What an accepted event does to a session. */
  function Effect(geo: Geo, s: Session, t: Timed): Session {
    match t.event
    case Pause(_, _) => s.(status := Paused, pauses := s.pauses + [Interval(t.now, None)])
    case Resume(_, _) => s.(pauses := PauseClosed(s.pauses, t.now), status := Active)
    case Stop(_, _) => Stopped(geo, s, t.now)
    case Cancel(_, _) => Cancelled(geo, s, t.now)
    case ReadSummary(_) => Backfilled(geo, s, t.now)
    case RunReport(_) => Backfilled(geo, s, t.now)
    case StoreFix(_, fix) => s.(trail := InsertByStamp(s.trail, fix))
    case _ => s
  }

  function StepSession(geo: Geo, s: Session, id: nat, t: Timed): Session {
    if Accepts(s, id, t.event) then Effect(geo, s, t) else s
  }

  function StepAll(geo: Geo, sessions: map<nat, Session>, t: Timed): map<nat, Session> {
    map id | id in sessions :: StepSession(geo, sessions[id], id, t)
  }

  function StepCard(card: Card, e: Event): Card {
    match e
    case PostRate(owner, op, ha, hr) =>
      (match Posted(card, owner, op, ha, hr) case Some(c) => c case None => card)
    case EditRate(owner, op, ha, hr) =>
      (match Edited(card, owner, op, ha, hr) case Some(c) => c case None => card)
    case DeleteRate(owner, op) => card - {(owner, op)}
    case _ => card
  }

  function Apply(geo: Geo, w: World, t: Timed): World {
    var stepped := StepAll(geo, w.sessions, t);
    if t.event.Start? && Started(w, t.event, t.now).Some? then
      World(stepped[t.event.id := Started(w, t.event, t.now).value], w.card)
    else
      World(stepped, StepCard(w.card, t.event))
  }

  function Run(geo: Geo, w: World, ts: seq<Timed>): World
    decreases |ts|
  {
    if ts == [] then w else Run(geo, Apply(geo, w, ts[0]), ts[1..])
  }

  // --- The routes, step by step ---

  method CloseOpenPause(rows: seq<Interval>, at: int) returns (closed: seq<Interval>)
    ensures closed == PauseClosed(rows, at)
  {
    var i := |rows|;
    assert rows[..i] == rows && rows[i..] == [];
    while i > 0
      invariant 0 <= i <= |rows|
      invariant PauseClosed(rows, at) == PauseClosed(rows[..i], at) + rows[i..]
    {
      i := i - 1;
      assert rows[..i + 1][..i] == rows[..i] && rows[i..] == [rows[i]] + rows[i + 1..];
      if rows[i].to.None? {
        return rows[..i] + [Interval(rows[i].from, Some(at))] + rows[i + 1..];
      }
    }
    closed := rows;
  }

  method BillableHours(s: Session) returns (hours: Option<nat>)
    requires s.PerHourBilled()
    ensures hours == QuantityOf(s)
  {
    if s.endedAt.None? || s.endedAt.value < s.startedAt {
      return None;
    }
    var paused := PausedTotal(s.pauses, s.endedAt.value);
    var worked := s.endedAt.value - s.startedAt - paused;
    if worked < 0 {
      worked := 0;
    }
    hours := Some(BilledHours(worked));
  }

  method FinalizeSessionBilling(session: Session, now: int) returns (s: Session)
    ensures s == Finalized(session, now)
  {
    s := session;
    if s.finalizedAt.Some? {
      return;
    }
    if s.rate.None? {
      s := s.(note := Some(NO_RATE));
      return;
    }
    var quantity: nat;
    if s.PerHourBilled() {
      var hours := BillableHours(s);
      if hours.None? {
        s := s.(note := Some(NO_DURATION));
        return;
      }
      quantity := hours.value;
      s := s.(hours := Some(quantity));
    } else {
      if s.area.None? {
        s := s.(note := Some(NO_AREA));
        return;
      }
      quantity := s.area.value;
    }
    var unit := BilledUnit(s);
    var total := Total(unit, s.rate.value, quantity);
    s := s.(total := Some(total));
    s := s.(note := Some(Note(s.operation, unit, s.rate.value, quantity, total)));
    s := s.(finalizedAt := Some(now));
  }

  method FinalizeCancelledSession(session: Session, now: int) returns (s: Session)
    ensures s == CancelFinalized(session, now)
  {
    s := session;
    if s.finalizedAt.Some? {
      return;
    }
    s := s.(total := Some(0));
    s := s.(note := Some(CANCELLED));
    s := s.(finalizedAt := Some(now));
  }

  /** The stored state behind the routes. Every method is one committed transaction; a refused request
  returns false and changes nothing. */
  class Backend {
    const geo: Geo
    var sessions: map<nat, Session>
    var card: Card

    ghost function Snapshot(): World
      reads this
    {
      World(sessions, card)
    }

    constructor (geo: Geo, sessions: map<nat, Session>, card: Card)
      ensures this.geo == geo && Snapshot() == World(sessions, card)
    {
      this.geo, this.sessions, this.card := geo, sessions, card;
    }

    method StartSession(e: Event, now: int) returns (ok: bool)
      requires e.Start? && e.id !in sessions
      modifies this
      ensures Snapshot() == Apply(geo, old(Snapshot()), Timed(now, e))
      ensures ok <==> Started(old(Snapshot()), e, now).Some?
    {
      StepAllKeeps(geo, sessions, Timed(now, e));
      if !e.found {
        return false;
      }
      if exists id :: id in sessions && sessions[id].operator == e.who && sessions[id].Open() {
        return false;
      }
      var rate := LockedRate(card, e.owner, e.operation);
      if rate.None? {
        return false;
      }
      sessions := sessions[e.id := Session(e.who, e.operation, now, None, Active, e.gps, e.width,
                                           Some(UnitFor(e.operation)), rate, None, None, None, None, None, [], [])];
      ok := true;
    }

    method PauseSession(id: nat, who: nat, now: int) returns (ok: bool)
      modifies this
      ensures Snapshot() == Apply(geo, old(Snapshot()), Timed(now, Pause(id, who)))
      ensures ok <==> id in old(sessions) && who == old(sessions)[id].operator && old(sessions)[id].status == Active
    {
      if id !in sessions || sessions[id].operator != who || !sessions[id].status.Active? {
        NothingToDo(geo, Snapshot(), id, Timed(now, Pause(id, who)));
        return false;
      }
      var s := sessions[id];
      s := s.(status := Paused);
      s := s.(pauses := s.pauses + [Interval(now, None)]);
      OnlyOneChanges(geo, Snapshot(), id, Timed(now, Pause(id, who)));
      sessions := sessions[id := s];
      ok := true;
    }

    method ResumeSession(id: nat, who: nat, now: int) returns (ok: bool)
      modifies this
      ensures Snapshot() == Apply(geo, old(Snapshot()), Timed(now, Resume(id, who)))
      ensures ok <==> id in old(sessions) && who == old(sessions)[id].operator && old(sessions)[id].status == Paused
    {
      if id !in sessions || sessions[id].operator != who || !sessions[id].status.Paused? {
        NothingToDo(geo, Snapshot(), id, Timed(now, Resume(id, who)));
        return false;
      }
      var s := sessions[id];
      var closed := CloseOpenPause(s.pauses, now);
      s := s.(pauses := closed);
      s := s.(status := Active);
      OnlyOneChanges(geo, Snapshot(), id, Timed(now, Resume(id, who)));
      sessions := sessions[id := s];
      ok := true;
    }

    method StopSession(id: nat, who: nat, now: int) returns (ok: bool)
      modifies this
      ensures Snapshot() == Apply(geo, old(Snapshot()), Timed(now, Stop(id, who)))
      ensures ok <==> id in old(sessions) && who == old(sessions)[id].operator && old(sessions)[id].Open()
    {
      if id !in sessions || sessions[id].operator != who || !sessions[id].Open() {
        NothingToDo(geo, Snapshot(), id, Timed(now, Stop(id, who)));
        return false;
      }
      var s := sessions[id];
      var closed := CloseOpenPause(s.pauses, now);
      s := s.(pauses := closed);
      s := s.(endedAt := Some(now));
      s := s.(status := Completed);
      var area := FinalizeArea(geo, s.trail, s.pauses, s.width);
      s := s.(area := Some(area));
      s := FinalizeSessionBilling(s, now);
      OnlyOneChanges(geo, Snapshot(), id, Timed(now, Stop(id, who)));
      sessions := sessions[id := s];
      ok := true;
    }

    method CancelSession(id: nat, who: nat, now: int) returns (ok: bool)
      modifies this
      ensures Snapshot() == Apply(geo, old(Snapshot()), Timed(now, Cancel(id, who)))
      ensures ok <==> id in old(sessions) && who == old(sessions)[id].operator && old(sessions)[id].Open()
    {
      if id !in sessions || sessions[id].operator != who || !sessions[id].Open() {
        NothingToDo(geo, Snapshot(), id, Timed(now, Cancel(id, who)));
        return false;
      }
      var s := sessions[id];
      var closed := CloseOpenPause(s.pauses, now);
      s := s.(pauses := closed);
      s := s.(endedAt := Some(now));
      s := s.(status := Aborted);
      var area := FinalizeArea(geo, s.trail, s.pauses, s.width);
      s := s.(area := Some(area));
      s := FinalizeCancelledSession(s, now);
      OnlyOneChanges(geo, Snapshot(), id, Timed(now, Cancel(id, who)));
      sessions := sessions[id := s];
      ok := true;
    }

    /** Closes out one terminated session without a final charge. */
    method BackfillLegacyBilling(session: Session, now: int) returns (s: Session)
      ensures s == Backfilled(geo, session, now)
    {
      s := session;
      if s.finalizedAt.Some? {
        return;
      }
      if !s.status.Completed? && !s.status.Aborted? {
        return;
      }
      if s.status.Aborted? {
        s := FinalizeCancelledSession(s, now);
      } else {
        if s.area.None? {
          var area := FinalizeArea(geo, s.trail, s.pauses, s.width);
          s := s.(area := Some(area));
        }
        s := FinalizeSessionBilling(s, now);
      }
    }

    method Summary(id: nat, now: int)
      modifies this
      ensures Snapshot() == Apply(geo, old(Snapshot()), Timed(now, ReadSummary(id)))
    {
      if id !in sessions {
        NothingToDo(geo, Snapshot(), id, Timed(now, ReadSummary(id)));
        return;
      }
      var s := BackfillLegacyBilling(sessions[id], now);
      OnlyOneChanges(geo, Snapshot(), id, Timed(now, ReadSummary(id)));
      sessions := sessions[id := s];
    }

    /** The report's finalizer, session by session, over the ids its filters selected. */
    method FinalizeForReport(ids: seq<nat>, now: int)
      modifies this
      ensures Snapshot() == Apply(geo, old(Snapshot()), Timed(now, RunReport(ids)))
    {
      ghost var before := sessions;
      for i := 0 to |ids|
        invariant card == old(card)
        invariant sessions == StepAll(geo, before, Timed(now, RunReport(ids[..i])))
      {
        ReportsOneMore(geo, before, ids[..i], ids[i], now);
        assert ids[..i + 1] == ids[..i] + [ids[i]];
        if ids[i] in sessions {
          var s := BackfillLegacyBilling(sessions[ids[i]], now);
          sessions := sessions[ids[i] := s];
        }
      }
      assert ids[..|ids|] == ids;
    }

    method StoreGpsRow(id: nat, fix: Fix, now: int)
      modifies this
      ensures Snapshot() == Apply(geo, old(Snapshot()), Timed(now, StoreFix(id, fix)))
    {
      if id !in sessions {
        NothingToDo(geo, Snapshot(), id, Timed(now, StoreFix(id, fix)));
        return;
      }
      OnlyOneChanges(geo, Snapshot(), id, Timed(now, StoreFix(id, fix)));
      sessions := sessions[id := sessions[id].(trail := InsertByStamp(sessions[id].trail, fix))];
    }

    method UpsertOperationCharge(owner: nat, op: Operation, perHa: Option<real>, perHour: Option<real>, now: int)
      returns (ok: bool)
      modifies this
      ensures Snapshot() == Apply(geo, old(Snapshot()), Timed(now, PostRate(owner, op, perHa, perHour)))
      ensures ok <==> Posted(old(card), owner, op, perHa, perHour).Some?
    {
      StepAllKeeps(geo, sessions, Timed(now, PostRate(owner, op, perHa, perHour)));
      if IsPerHour(op) {
        if perHour.None? || perHour.value <= 0.0 {
          return false;
        }
        card := card[(owner, op) := Charge(0, Some(Kept(perHour.value)))];
      } else {
        if perHa.None? || perHa.value <= 0.0 {
          return false;
        }
        card := card[(owner, op) := Charge(Kept(perHa.value), None)];
      }
      ok := true;
    }

    method UpdateOperationCharge(owner: nat, op: Operation, perHa: Option<real>, perHour: Option<real>, now: int)
      returns (ok: bool)
      modifies this
      ensures Snapshot() == Apply(geo, old(Snapshot()), Timed(now, EditRate(owner, op, perHa, perHour)))
      ensures ok <==> Edited(old(card), owner, op, perHa, perHour).Some?
    {
      StepAllKeeps(geo, sessions, Timed(now, EditRate(owner, op, perHa, perHour)));
      if (owner, op) !in card {
        return false;
      }
      var row := card[(owner, op)];
      if IsPerHour(op) {
        var hourly := row.perHour;
        if perHour.Some? {
          if perHour.value <= 0.0 {
            return false;
          }
          hourly := Some(Kept(perHour.value));
        } else if hourly.None? || hourly.value <= 0 {
          return false;
        }
        row := row.(perHa := 0, perHour := hourly);
      } else {
        var perHectare := row.perHa;
        if perHa.Some? {
          if perHa.value <= 0.0 {
            return false;
          }
          perHectare := Kept(perHa.value);
        } else if perHectare <= 0 {
          return false;
        }
        row := row.(perHa := perHectare, perHour := None);
      }
      card := card[(owner, op) := row];
      ok := true;
    }

    method DeleteOperationCharge(owner: nat, op: Operation, now: int)
      modifies this
      ensures Snapshot() == Apply(geo, old(Snapshot()), Timed(now, DeleteRate(owner, op)))
    {
      StepAllKeeps(geo, sessions, Timed(now, DeleteRate(owner, op)));
      card := card - {(owner, op)};
    }
  }

  // --- One event, one session ---

  /** Whether an event can concern a session at all. */
  predicate Concerns(e: Event, id: nat) {
    match e
    case RunReport(ids) => id in ids
    case Start(_, _, _, _, _, _, _) => false
    case PostRate(_, _, _, _) => false
    case EditRate(_, _, _, _) => false
    case DeleteRate(_, _) => false
    case _ => e.id == id
  }

  lemma UnconcernedStays(geo: Geo, s: Session, id: nat, t: Timed)
    requires !Concerns(t.event, id)
    ensures StepSession(geo, s, id, t) == s
  {
  }

  lemma StepAllKeeps(geo: Geo, sessions: map<nat, Session>, t: Timed)
    requires forall id :: id in sessions ==> !Concerns(t.event, id)
    ensures StepAll(geo, sessions, t) == sessions
  {
    forall id | id in sessions ensures StepSession(geo, sessions[id], id, t) == sessions[id] {
      UnconcernedStays(geo, sessions[id], id, t);
    }
  }

  lemma NothingToDo(geo: Geo, w: World, id: nat, t: Timed)
    requires !t.event.Start? && StepCard(w.card, t.event) == w.card
    requires forall other :: other != id ==> !Concerns(t.event, other)
    requires id in w.sessions ==> StepSession(geo, w.sessions[id], id, t) == w.sessions[id]
    ensures Apply(geo, w, t) == w
  {
    forall other | other in w.sessions
      ensures StepSession(geo, w.sessions[other], other, t) == w.sessions[other]
    {
      if other != id {
        UnconcernedStays(geo, w.sessions[other], other, t);
      }
    }
    assert StepAll(geo, w.sessions, t) == w.sessions;
  }

  lemma OnlyOneChanges(geo: Geo, w: World, id: nat, t: Timed)
    requires !t.event.Start? && StepCard(w.card, t.event) == w.card && id in w.sessions
    requires forall other :: other != id ==> !Concerns(t.event, other)
    ensures Apply(geo, w, t) == World(w.sessions[id := StepSession(geo, w.sessions[id], id, t)], w.card)
  {
    forall other | other in w.sessions && other != id
      ensures StepSession(geo, w.sessions[other], other, t) == w.sessions[other]
    {
      UnconcernedStays(geo, w.sessions[other], other, t);
    }
    assert StepAll(geo, w.sessions, t) == w.sessions[id := StepSession(geo, w.sessions[id], id, t)];
  }

  lemma ReportsOneMore(geo: Geo, before: map<nat, Session>, ids: seq<nat>, id: nat, now: int)
    ensures var sofar := StepAll(geo, before, Timed(now, RunReport(ids)));
      StepAll(geo, before, Timed(now, RunReport(ids + [id])))
      == if id in before then sofar[id := Backfilled(geo, sofar[id], now)] else sofar
  {
    if id in before {
      BackfillTwice(geo, before[id], now);
    }
  }

  /** Reading a summary twice is reading it once. */
  lemma BackfillTwice(geo: Geo, s: Session, now: int)
    ensures Backfilled(geo, Backfilled(geo, s, now), now) == Backfilled(geo, s, now)
  {
    if s.finalizedAt.None? && s.status.Completed? {
      FinalizedTwice(if s.area.None? then WithArea(geo, s) else s, now);
    }
  }

  lemma FinalizedTwice(s: Session, now: int)
    ensures Finalized(Finalized(s, now), now) == Finalized(s, now)
    ensures Finalized(s, now).area == s.area && Finalized(s, now).status == s.status
  {
    NoteIsIrrelevant(s, Finalized(s, now).note);
  }

  lemma NoteIsIrrelevant(s: Session, note: Option<string>)
    ensures QuantityOf(s.(note := note)) == QuantityOf(s)
  {
  }
}
