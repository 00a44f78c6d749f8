/** The micro-batch buffer in front of the database. */
module IngestBuffer {
  import opened Ingestion
  import opened Outcomes
  import opened Sessions
  import opened Telemetry

  /** The buffer's fields as a value; `oldestAt` is when the first waiting reading arrived, in microseconds. */
  datatype Buffer = Buffer(
    items: seq<Reading>, oldestAt: Option<int>, flushes: nat, storedTotal: nat, droppedTotal: nat)

  function Appended(b: Buffer, readings: seq<Reading>, now: int): Buffer {
    if readings == [] then b
    else b.(items := b.items + readings, oldestAt := if b.items == [] then Some(now) else b.oldestAt)
  }

  function Drained(b: Buffer): Buffer {
    b.(items := [], oldestAt := None)
  }

  /** The counters after a batch that was taken out is settled. */
  function Counted(b: Buffer, taken: seq<Reading>, r: Ingested): Buffer {
    match r
    case Raised(_) => b.(droppedTotal := b.droppedTotal + |taken|)
    case Stored(readings) => b.(flushes := b.flushes + 1, storedTotal := b.storedTotal + |readings|)
  }

  function Returned(r: Ingested): nat {
    match r case Raised(_) => 0 case Stored(readings) => |readings|
  }

  /** A batch that is stored counts as one flush and as many readings as rows of it are new: where no other
  writer has an id of the batch, all rows that were not there and are not another writer's. */
  lemma CountsNewRows(b: Buffer, rows: Rows, items: seq<Reading>, session: Option<nat>, around: Surroundings)
    requires |around.others| == |Unique(items)| && IngestResult(rows, items, session, around).1.Stored?
    ensures var (after, r) := IngestResult(rows, items, session, around);
      && Counted(b, items, r)
         == b.(flushes := b.flushes + 1, storedTotal := b.storedTotal + |IdsOf(r.readings)|)
      && (IdsOf(items) !! OtherKeys(rows, items, around) ==>
            IdsOf(r.readings) == after.Keys - rows.Keys - OtherKeys(rows, items, around))
  {
    ReturnedIds(rows, items, session, around);
    CountsDistinct(b, items, IngestResult(rows, items, session, around).1.readings);
  }

  lemma CountsDistinct(b: Buffer, items: seq<Reading>, stored: seq<Reading>)
    requires Distinct(stored)
    ensures Counted(b, items, Stored(stored))
         == b.(flushes := b.flushes + 1, storedTotal := b.storedTotal + |IdsOf(stored)|)
  {
    DistinctIds(stored);
  }

  // --- The age of a buffer ---

  /** Readings arriving in a buffer, and the whole buffer being taken out. */
  datatype Change = Arrive(readings: seq<Reading>, now: int) | TakenOut

  /** A waiting reading and when it arrived. */
  datatype Pending = Pending(reading: Reading, since: int)

  function Changed(b: Buffer, c: Change): Buffer {
    match c
    case Arrive(readings, now) => Appended(b, readings, now)
    case TakenOut => Drained(b)
  }

  function Queued(queue: seq<Pending>, c: Change): seq<Pending> {
    match c
    case Arrive(readings, now) =>
      queue + seq(|readings|, i requires 0 <= i < |readings| => Pending(readings[i], now))
    case TakenOut => []
  }

  function BufferAfter(b: Buffer, cs: seq<Change>): Buffer {
    if cs == [] then b else Changed(BufferAfter(b, cs[..|cs| - 1]), cs[|cs| - 1])
  }

  function QueueAfter(queue: seq<Pending>, cs: seq<Change>): seq<Pending> {
    if cs == [] then queue else Queued(QueueAfter(queue, cs[..|cs| - 1]), cs[|cs| - 1])
  }

  /** Arrivals carry a clock that does not run backwards and has come to `until`. */
  predicate InTime(cs: seq<Change>, until: int) {
    if cs == [] then true
    else
      match cs[|cs| - 1]
      case Arrive(_, now) => now <= until && InTime(cs[..|cs| - 1], now)
      case TakenOut => InTime(cs[..|cs| - 1], until)
  }

  /** The buffer holds the queue's readings, and its age is that of the reading that has waited longest. */
  predicate Tracks(b: Buffer, queue: seq<Pending>) {
    && |queue| == |b.items| && (forall i :: 0 <= i < |queue| ==> queue[i].reading == b.items[i])
    && (b.oldestAt.Some? <==> queue != [])
    && (queue != [] ==> b.oldestAt.value == queue[0].since)
    && (forall i :: 0 <= i < |queue| ==> b.oldestAt.value <= queue[i].since)
  }

  /** After any arrivals and takings the age of a buffer is the arrival of its oldest waiting reading. */
  lemma {:induction false} AgeIsOldestArrival(b: Buffer, cs: seq<Change>, until: int)
    requires b.items == [] && b.oldestAt.None? && InTime(cs, until)
    ensures Tracks(BufferAfter(b, cs), QueueAfter([], cs))
    ensures forall i :: 0 <= i < |QueueAfter([], cs)| ==> QueueAfter([], cs)[i].since <= until
  {
    if cs != [] {
      var init, last := cs[..|cs| - 1], cs[|cs| - 1];
      AgeIsOldestArrival(b, init, if last.Arrive? then last.now else until);
    }
  }

  predicate Due(b: Buffer, maxItems: int, maxAge: int, now: int) {
    b.items != [] && (|b.items| >= maxItems || (b.oldestAt.Some? && now - b.oldestAt.value >= maxAge))
  }

  /** A flush is due exactly if a full batch is waiting, or some reading has waited the longest that is allowed. */
  lemma DueIffWaited(b: Buffer, queue: seq<Pending>, maxItems: int, maxAge: int, now: int)
    requires Tracks(b, queue) && maxItems >= 1
    ensures Due(b, maxItems, maxAge, now)
       <==> |queue| >= maxItems || exists i :: 0 <= i < |queue| && now - queue[i].since >= maxAge
  {
  }

  class ReadingBuffer {
    const maxItems: int
    const maxAge: int
    var items: seq<Reading>
    var oldestAt: Option<int>
    var flushes: nat
    var storedTotal: nat
    var droppedTotal: nat

    ghost function Value(): Buffer
      reads this
    {
      Buffer(items, oldestAt, flushes, storedTotal, droppedTotal)
    }

    ghost predicate Valid()
      reads this
    {
      1 <= maxItems && 500_000 <= maxAge && (oldestAt.Some? <==> items != [])
    }

    /** At least one reading and half a second, whatever is configured. */
    constructor (maxItems: int, maxAge: int)
      ensures Valid() && Value() == Buffer([], None, 0, 0, 0)
      ensures this.maxItems == (if maxItems > 1 then maxItems else 1)
      ensures this.maxAge == (if maxAge > 500_000 then maxAge else 500_000)
    {
      this.maxItems := if maxItems > 1 then maxItems else 1;
      this.maxAge := if maxAge > 500_000 then maxAge else 500_000;
      items, oldestAt, flushes, storedTotal, droppedTotal := [], None, 0, 0, 0;
    }

    method Add(reading: Reading, now: int)
      requires Valid()
      modifies this
      ensures Valid() && Value() == Appended(old(Value()), [reading], now)
    {
      if items == [] {
        oldestAt := Some(now);
      }
      items := items + [reading];
    }

    method AddMany(readings: seq<Reading>, now: int)
      requires Valid()
      modifies this
      ensures Valid() && Value() == Appended(old(Value()), readings, now)
    {
      if readings == [] {
        return;
      }
      if items == [] {
        oldestAt := Some(now);
      }
      items := items + readings;
    }

    /** Due as soon as there is a full batch or its oldest reading has waited long enough. */
    method IsDue(now: int) returns (due: bool)
      requires Valid()
      ensures due <==> Due(Value(), maxItems, maxAge, now)
    {
      if items == [] {
        return false;
      }
      if |items| >= maxItems {
        return true;
      }
      due := oldestAt.Some? && now - oldestAt.value >= maxAge;
    }

    method Take() returns (taken: seq<Reading>)
      requires Valid()
      modifies this
      ensures Valid() && taken == old(items) && Value() == Drained(old(Value()))
    {
      taken := items;
      items := [];
      oldestAt := None;
    }

    /** Drains and stores everything buffered. A batch that cannot be stored is counted, not kept. */
    method Flush(store: ReadingStore, sessions: map<nat, Session>, around: Surroundings, connected: bool)
      returns (stored: nat, ghost target: Option<nat>)
      requires Valid() && |around.others| == |Unique(items)|
      modifies this, store
      ensures Valid()
      ensures old(items) == [] ==> stored == 0 && Value() == old(Value()) && store.rows == old(store.rows)
      ensures old(items) != [] && !connected ==>
                && stored == 0 && store.rows == old(store.rows)
                && Value() == Counted(Drained(old(Value())), old(items), Raised(false))
      ensures old(items) != [] && connected ==>
                && IsTarget(sessions, FirstHint(old(items)), target)
                && var (after, r) := IngestResult(old(store.rows), old(items), target, around);
                && store.rows == after && stored == Returned(r)
                && Value() == Counted(Drained(old(Value())), old(items), r)
    {
      target := None;
      var taken := Take();
      if taken == [] {
        return 0, target;
      }
      if !connected {
        droppedTotal := droppedTotal + |taken|;
        return 0, target;
      }
      var r;
      r, target := store.IngestNormalizedBatch(taken, sessions, around);
      if r.Raised? {
        droppedTotal := droppedTotal + |taken|;
        return 0, target;
      }
      flushes := flushes + 1;
      storedTotal := storedTotal + |r.readings|;
      stored := |r.readings|;
    }
  }
}
