/** Owners' rates over runs: what a session locks, and what it is billed at, in the amounts that were posted. */
module RateRuns {
  import opened Billing
  import opened FieldArea
  import opened Outcomes
  import opened RateCard
  import opened SessionLaws
  import opened SessionRuns
  import opened Sessions

  // --- The rate a start would lock ---

  /** Whether a request is about the rate of an owner's operation. */
  predicate Touches(e: Event, owner: nat, op: Operation) {
    (e.PostRate? || e.EditRate? || e.DeleteRate?) && e.cardOwner == owner && e.op == op
  }

  predicate TouchesNone(ts: seq<Timed>, owner: nat, op: Operation) {
    forall i :: 0 <= i < |ts| ==> !Touches(ts[i].event, owner, op)
  }

  /** A request that gives a positive amount for an operation: a posting, or an edit of a row that is there. */
  predicate Sets(card: Card, e: Event, owner: nat, op: Operation, amount: real) {
    && (e.PostRate? || (e.EditRate? && (owner, op) in card))
    && e.cardOwner == owner && e.op == op && Given(op, e.perHa, e.perHour) == Some(amount) && amount > 0.0
  }

  lemma SetRateLocks(card: Card, e: Event, owner: nat, op: Operation, amount: real)
    requires Sets(card, e, owner, op, amount)
    ensures Locks(StepCard(card, e), owner, op, amount)
  {
    AcceptedAmounts(card, owner, op, e.perHa, e.perHour);
    if e.PostRate? {
      PostedRateLocks(card, owner, op, e.perHa, e.perHour);
    } else {
      EditedRateLocks(card, owner, op, e.perHa, e.perHour);
    }
  }

  /** The rate of an operation changes only with requests about it; an edit that gives no amount leaves it, and
  a deletion takes it away. */
  lemma RateStands(card: Card, e: Event, owner: nat, op: Operation)
    ensures !Touches(e, owner, op) ==>
              LockedRate(StepCard(card, e), Some(owner), op) == LockedRate(card, Some(owner), op)
    ensures e.EditRate? && Touches(e, owner, op) && Given(op, e.perHa, e.perHour).None? ==>
              LockedRate(StepCard(card, e), Some(owner), op) == LockedRate(card, Some(owner), op)
    ensures e.DeleteRate? && Touches(e, owner, op) ==> LockedRate(StepCard(card, e), Some(owner), op) == None
  {
    match e
    case PostRate(o, p, ha, hr) =>
      if Posted(card, o, p, ha, hr).Some? {
        PostedRateLocks(card, o, p, ha, hr);
      }
    case EditRate(o, p, ha, hr) =>
      if Edited(card, o, p, ha, hr).Some? {
        EditedRateLocks(card, o, p, ha, hr);
      }
    case _ =>
  }

  lemma {:induction false} RateStandsOverRun(geo: Geo, w: World, ts: seq<Timed>, owner: nat, op: Operation)
    requires TouchesNone(ts, owner, op)
    ensures LockedRate(Run(geo, w, ts).card, Some(owner), op) == LockedRate(w.card, Some(owner), op)
    decreases |ts|
  {
    if ts != [] {
      RateStands(w.card, ts[0].event, owner, op);
      assert forall i :: 0 <= i < |ts[1..]| ==> ts[1..][i] == ts[i + 1];
      RateStandsOverRun(geo, Apply(geo, w, ts[0]), ts[1..], owner, op);
    }
  }

  // --- From the owner's amount to the bill ---

  /** All a start asks for besides the rate. */
  predicate CanStart(w: World, e: Event)
    requires e.Start?
  {
    e.found && !HasOpenSession(w.sessions, e.who) && e.id !in w.sessions
  }

  /** A start opens a session exactly where it is acceptable and there is a rate to lock, and the session carries
  that rate; a refused start changes nothing. */
  lemma StartLocksRate(geo: Geo, w: World, start: Timed)
    requires start.event.Start?
    ensures var e, after := start.event, Apply(geo, w, start);
      var rate := LockedRate(w.card, e.owner, e.operation);
      if CanStart(w, e) && rate.Some? then
        && e.id in after.sessions && after == World(w.sessions[e.id := after.sessions[e.id]], w.card)
        && var s := after.sessions[e.id];
        && s.rate == rate && s.status == Active && s.startedAt == start.now && s.pauses == [] && s.trail == []
        && s.operator == e.who && s.operation == e.operation && s.width == e.width && s.gps == e.gps
      else after == w
  {
    StepAllKeeps(geo, w.sessions, start);
  }

  /** An owner's amount, posted or edited, is what sessions of that operation are billed at from then on: as
  long as no other request is about that rate, an otherwise acceptable start opens a session with the nearest
  rate the column holds, and what it is billed when it completes is that rate times its hours, for threshing
  and grading, or its hectares. */
  lemma BilledAtTheSetRate(
    geo: Geo, w: World, now: int, legacy: set<nat>, posted: Timed, ts: seq<Timed>, start: Timed, rest: seq<Timed>,
    owner: nat, amount: real)
    requires Inv(w, now, legacy) && Clocked(now, ([posted] + ts) + ([start] + rest)) && start.event.Start?
    requires var e := start.event;
      && e.owner == Some(owner) && e.id !in legacy
      && Sets(w.card, posted.event, owner, e.operation, amount) && amount >= 0.00005
      && TouchesNone(ts, owner, e.operation) && CanStart(Run(geo, w, [posted] + ts), e)
    ensures var e, end := start.event, Run(geo, w, ([posted] + ts) + ([start] + rest)).sessions;
      && e.id in end && end[e.id].rate.Some? && Nearest(end[e.id].rate.value, amount)
      && (end[e.id].status.Completed? ==>
            && QuantityOf(end[e.id]).Some?
            && end[e.id].total == Some(Total(if e.operation in {Threshing, Grading} then PerHour else PerHectare,
                                             end[e.id].rate.value, QuantityOf(end[e.id]).value)))
  {
    var e, w' := start.event, Run(geo, w, [posted] + ts);
    assert ([posted] + ts)[1..] == ts;
    SetRateLocks(w.card, posted.event, owner, e.operation, amount);
    RateStandsOverRun(geo, Apply(geo, w, posted), ts, owner, e.operation);
    ClockedSplits(now, [posted] + ts, [start] + rest);
    RunSplits(geo, w, [posted] + ts, [start] + rest);
    RunKeepsInv(geo, w, now, legacy, [posted] + ts);
    BilledAtTheLockedRate(geo, w', LastNow(now, [posted] + ts), legacy, start, rest);
  }

  /** A rate that was deleted starts nothing until it is given again. */
  lemma NoStartAfterDeletion(
    geo: Geo, w: World, deletion: Timed, ts: seq<Timed>, start: Timed, owner: nat)
    requires start.event.Start? && start.event.owner == Some(owner)
    requires deletion.event == DeleteRate(owner, start.event.operation)
    requires TouchesNone(ts, owner, start.event.operation)
    ensures Started(Run(geo, w, [deletion] + ts), start.event, start.now).None?
  {
    assert ([deletion] + ts)[1..] == ts;
    RateStands(w.card, deletion.event, owner, start.event.operation);
    RateStandsOverRun(geo, Apply(geo, w, deletion), ts, owner, start.event.operation);
  }

  lemma {:induction false} RunSplits(geo: Geo, w: World, ts: seq<Timed>, rest: seq<Timed>)
    ensures Run(geo, w, ts + rest) == Run(geo, Run(geo, w, ts), rest)
    decreases |ts|
  {
    if ts == [] {
      assert [] + rest == rest;
    } else {
      assert (ts + rest)[1..] == ts[1..] + rest;
      RunSplits(geo, Apply(geo, w, ts[0]), ts[1..], rest);
    }
  }

  // --- Rows that can start sessions ---

  predicate CardUsable(card: Card) {
    forall row :: row in card ==> Usable(card, row.0, row.1)
  }

  /** An amount no smaller than half the smallest the column holds. */
  predicate Holdable(amount: Option<real>) {
    amount.Some? ==> amount.value <= 0.0 || amount.value >= 0.00005
  }

  predicate PostsHoldable(ts: seq<Timed>) {
    forall i :: 0 <= i < |ts| && (ts[i].event.PostRate? || ts[i].event.EditRate?) ==>
      Holdable(ts[i].event.perHa) && Holdable(ts[i].event.perHour)
  }

  /** As long as owners post amounts the column can hold, every row of the card can start sessions. */
  lemma {:induction false} CardStaysUsable(geo: Geo, w: World, ts: seq<Timed>)
    requires CardUsable(w.card) && PostsHoldable(ts)
    ensures CardUsable(Run(geo, w, ts).card)
    decreases |ts|
  {
    if ts != [] {
      CardStepUsable(w.card, ts[0].event);
      CardStaysUsable(geo, Apply(geo, w, ts[0]), ts[1..]);
    }
  }

  lemma CardStepUsable(card: Card, e: Event)
    requires CardUsable(card)
    requires e.PostRate? || e.EditRate? ==> Holdable(e.perHa) && Holdable(e.perHour)
    ensures CardUsable(StepCard(card, e))
  {
    match e
    case PostRate(owner, op, ha, hr) =>
      if Posted(card, owner, op, ha, hr).Some? {
        PostedRateLocks(card, owner, op, ha, hr);
      }
    case EditRate(owner, op, ha, hr) =>
      if Edited(card, owner, op, ha, hr).Some? {
        EditedRateLocks(card, owner, op, ha, hr);
      }
    case _ =>
  }
}
