/** Producers, flushers, other writers and the stop route, interleaved step by step. */
module FlushProtocol {
  import opened IngestBuffer
  import opened Ingestion
  import opened Outcomes
  import opened Sessions
  import opened Telemetry

  /** What became of a reading that left the buffer. */
  datatype Fate = Kept(session: Option<nat>) | Duplicate | Dropped | Lost

  /** A call of flush, from the moment it is made: `mark` is how many readings had been added by then. */
  datatype Call =
    | Waiting(mark: nat)
    | Holding(mark: nat)
    | Taken(mark: nat)
    | Resolved(mark: nat, target: Option<nat>)
    | Done(mark: nat)
  {
    predicate InLock() {
      Holding? || Taken? || Resolved?
    }
  }

  /** `added` is every reading ever added, `fates` what became of those that left, `hand` the batch the
  holder of the write lock has taken out. */
  datatype State = State(
    added: seq<Reading>,
    fates: seq<Fate>,
    hand: seq<Reading>,
    buffer: Buffer,
    holder: Option<nat>,
    calls: map<nat, Call>,
    rows: Rows,
    sessions: map<nat, Session>)

  datatype Step =
    | Add(readings: seq<Reading>, now: int)
    | CallFlush(t: nat)
    | Acquire(t: nat)
    | Take(t: nat)
    | ReturnEmpty(t: nat)
    | FailToConnect(t: nat)
    | Resolve(t: nat, target: Option<nat>)
    | Commit(t: nat, around: Surroundings)
    | OtherWriter(written: Rows)
    | Lifecycle(sessions: map<nat, Session>)

  predicate Enabled(s: State, e: Step) {
    match e
    case Add(_, _) => true
    case CallFlush(t) => t in s.calls ==> s.calls[t].Done?
    case Acquire(t) => t in s.calls && s.calls[t].Waiting? && s.holder.None?
    case Take(t) => t in s.calls && s.calls[t].Holding?
    case ReturnEmpty(t) => t in s.calls && s.calls[t].Taken? && s.hand == []
    case FailToConnect(t) => t in s.calls && s.calls[t].Taken? && s.hand != []
    case Resolve(t, target) =>
      t in s.calls && s.calls[t].Taken? && s.hand != [] && IsTarget(s.sessions, FirstHint(s.hand), target)
    case Commit(t, around) => t in s.calls && s.calls[t].Resolved? && |around.others| == |Unique(s.hand)|
    case OtherWriter(_) => true
    case Lifecycle(_) => true
  }

  function FateOf(n: Reading, after: Rows, r: Ingested, session: Option<nat>): Fate {
    match r
    case Raised(_) => Dropped
    case Stored(readings) =>
      if n in readings then Kept(session) else if n.id in after then Duplicate else Lost
  }

  function FatesOf(taken: seq<Reading>, after: Rows, r: Ingested, session: Option<nat>): seq<Fate> {
    seq(|taken|, i requires 0 <= i < |taken| => FateOf(taken[i], after, r, session))
  }

  /** The batch in hand is settled and the lock released. */
  function Settle(s: State, t: nat, after: Rows, r: Ingested, session: Option<nat>): State
    requires t in s.calls
  {
    s.(fates := s.fates + FatesOf(s.hand, after, r, session), hand := [],
       buffer := Counted(s.buffer, s.hand, r), holder := None, calls := s.calls[t := Done(s.calls[t].mark)],
       rows := after)
  }

  function Next(s: State, e: Step): State
    requires Enabled(s, e)
  {
    match e
    case Add(readings, now) => s.(added := s.added + readings, buffer := Appended(s.buffer, readings, now))
    case CallFlush(t) => s.(calls := s.calls[t := Waiting(|s.added|)])
    case Acquire(t) => s.(holder := Some(t), calls := s.calls[t := Holding(s.calls[t].mark)])
    case Take(t) =>
      s.(hand := s.buffer.items, buffer := Drained(s.buffer), calls := s.calls[t := Call.Taken(s.calls[t].mark)])
    case ReturnEmpty(t) => s.(holder := None, calls := s.calls[t := Done(s.calls[t].mark)])
    case FailToConnect(t) => Settle(s, t, s.rows, Raised(false), None)
    case Resolve(t, target) => s.(calls := s.calls[t := Resolved(s.calls[t].mark, target)])
    case Commit(t, around) =>
      var target := s.calls[t].target;
      var (after, r) := IngestResult(s.rows, s.hand, target, around);
      Settle(s, t, after, r, target)
    case OtherWriter(written) => s.(rows := written + s.rows)
    case Lifecycle(sessions) => s.(sessions := sessions)
  }

  predicate CanRun(s: State, es: seq<Step>)
    decreases |es|
  {
    es == [] || (Enabled(s, es[0]) && CanRun(Next(s, es[0]), es[1..]))
  }

  function Exec(s: State, es: seq<Step>): State
    requires CanRun(s, es)
    decreases |es|
  {
    if es == [] then s else Exec(Next(s, es[0]), es[1..])
  }

  // --- What every interleaving keeps ---

  /** What a fate promises: a stored row under that session, or some row with that id. */
  predicate Holds(f: Fate, n: Reading, rows: Rows) {
    match f
    case Kept(session) => n.id in rows && rows[n.id] == Row(n, session)
    case Duplicate => n.id in rows
    case Dropped => true
    case Lost => true
  }

  function Drops(fates: seq<Fate>): nat {
    if fates == [] then 0
    else Drops(fates[..|fates| - 1]) + if fates[|fates| - 1].Dropped? then 1 else 0
  }

  predicate CallOk(s: State, t: nat)
    requires t in s.calls
  {
    match s.calls[t]
    case Waiting(m) => m <= |s.added|
    case Holding(m) => s.holder == Some(t) && s.hand == [] && m <= |s.added|
    case Taken(m) => s.holder == Some(t) && m <= |s.fates| + |s.hand|
    case Resolved(m, _) => s.holder == Some(t) && m <= |s.fates| + |s.hand|
    case Done(m) => m <= |s.fates|
  }

  /** Every reading ever added is settled, in hand or buffered, in the order it came; only the holder of
  the write lock has readings in hand; fates are true of the database; drops are counted. */
  ghost predicate Inv(s: State) {
    && |s.fates| <= |s.added|
    && s.added[|s.fates|..] == s.hand + s.buffer.items
    && (s.holder.None? ==> s.hand == [])
    && (s.holder.Some? ==> s.holder.value in s.calls && s.calls[s.holder.value].InLock())
    && (forall k :: 0 <= k < |s.fates| ==> Holds(s.fates[k], s.added[k], s.rows))
    && s.buffer.droppedTotal == Drops(s.fates)
    && (forall t :: t in s.calls ==> CallOk(s, t))
  }

  /** A process that has just started: an empty buffer, over any database. */
  function JustStarted(rows: Rows, sessions: map<nat, Session>): State {
    State([], [], [], Buffer([], None, 0, 0, 0), None, map[], rows, sessions)
  }

  lemma FreshProcessIsOk(rows: Rows, sessions: map<nat, Session>)
    ensures Inv(JustStarted(rows, sessions))
  {
  }

  lemma {:induction false} DropsAdd(a: seq<Fate>, b: seq<Fate>)
    ensures Drops(a + b) == Drops(a) + Drops(b)
  {
    if b == [] {
      assert a + b == a;
    } else {
      assert (a + b)[..|a + b| - 1] == a + b[..|b| - 1];
      DropsAdd(a, b[..|b| - 1]);
    }
  }

  lemma {:induction false} DropsOfFates(taken: seq<Reading>, after: Rows, r: Ingested, session: Option<nat>)
    ensures Drops(FatesOf(taken, after, r, session)) == if r.Raised? then |taken| else 0
  {
    if taken != [] {
      var fates := FatesOf(taken, after, r, session);
      DropsOfFates(taken[..|taken| - 1], after, r, session);
      assert fates[..|fates| - 1] == FatesOf(taken[..|taken| - 1], after, r, session);
    }
  }

  predicate Keeps(before: Rows, after: Rows) {
    forall id :: id in before ==> id in after && after[id] == before[id]
  }

  lemma SettleKeepsInv(s: State, t: nat, after: Rows, r: Ingested, session: Option<nat>)
    requires Inv(s) && t in s.calls && (s.calls[t].Taken? || s.calls[t].Resolved?)
    requires Keeps(s.rows, after)
    requires r.Stored? ==> forall n :: n in r.readings ==> n.id in after && after[n.id] == Row(n, session)
    ensures Inv(Settle(s, t, after, r, session))
  {
    var next := Settle(s, t, after, r, session);
    DropsAdd(s.fates, FatesOf(s.hand, after, r, session));
    DropsOfFates(s.hand, after, r, session);
    HandIsNext(s);
    SettledFatesHold(s, t, after, r, session);
    forall u | u in next.calls ensures CallOk(next, u) {
      assert CallOk(s, u);
      assert u != t ==> s.holder != Some(u) by {
        assert CallOk(s, t);
      }
    }
  }

  lemma SettledFatesHold(s: State, t: nat, after: Rows, r: Ingested, session: Option<nat>)
    requires |s.fates| <= |s.added| && s.added[|s.fates|..] == s.hand + s.buffer.items && t in s.calls
    requires forall k :: 0 <= k < |s.fates| ==> Holds(s.fates[k], s.added[k], s.rows)
    requires Keeps(s.rows, after)
    requires r.Stored? ==> forall n :: n in r.readings ==> n.id in after && after[n.id] == Row(n, session)
    ensures var next := Settle(s, t, after, r, session);
      |next.fates| <= |next.added| && forall k :: 0 <= k < |next.fates| ==> Holds(next.fates[k], next.added[k], after)
  {
    var next := Settle(s, t, after, r, session);
    HandIsNext(s);
    forall k | 0 <= k < |next.fates| ensures Holds(next.fates[k], next.added[k], after) {
      if k < |s.fates| {
        assert Holds(s.fates[k], s.added[k], s.rows);
      } else {
        assert s.added[k] == s.hand[k - |s.fates|];
      }
    }
  }

  lemma HandIsNext(s: State)
    requires |s.fates| <= |s.added| && s.added[|s.fates|..] == s.hand + s.buffer.items
    ensures |s.fates| + |s.hand| <= |s.added|
    ensures forall k :: 0 <= k < |s.hand| ==> s.added[|s.fates| + k] == s.hand[k]
    ensures s.added[|s.fates| + |s.hand|..] == s.buffer.items
  {
    assert s.added[|s.fates| + |s.hand|..] == s.added[|s.fates|..][|s.hand|..];
    forall k | 0 <= k < |s.hand| ensures s.added[|s.fates| + k] == s.hand[k] {
      assert s.added[|s.fates|..][k] == (s.hand + s.buffer.items)[k];
    }
  }

  lemma AddKeepsInv(s: State, readings: seq<Reading>, now: int)
    requires Inv(s)
    ensures Inv(Next(s, Add(readings, now)))
  {
    var next := Next(s, Add(readings, now));
    assert next.added[|s.fates|..] == s.added[|s.fates|..] + readings;
    assert next.buffer.items == s.buffer.items + readings;
    forall u | u in next.calls ensures CallOk(next, u) {
      assert CallOk(s, u);
    }
  }

  lemma TakeKeepsInv(s: State, t: nat)
    requires Inv(s) && Enabled(s, Take(t))
    ensures Inv(Next(s, Take(t)))
  {
    var next := Next(s, Take(t));
    assert CallOk(s, t);
    assert s.buffer.items + [] == s.buffer.items && [] + s.buffer.items == s.buffer.items;
    forall u | u in next.calls ensures CallOk(next, u) {
      assert CallOk(s, u);
    }
  }

  lemma LockKeepsInv(s: State, e: Step)
    requires Inv(s) && Enabled(s, e)
    requires e.CallFlush? || e.Acquire? || e.ReturnEmpty? || e.Resolve?
    ensures Inv(Next(s, e))
  {
    var next := Next(s, e);
    HandIsNext(s);
    forall u | u in next.calls ensures CallOk(next, u) {
      assert u in s.calls ==> CallOk(s, u);
    }
  }

  lemma WorldKeepsInv(s: State, e: Step)
    requires Inv(s) && (e.OtherWriter? || e.Lifecycle?)
    ensures Inv(Next(s, e))
  {
    var next := Next(s, e);
    forall k | 0 <= k < |next.fates| ensures Holds(next.fates[k], next.added[k], next.rows) {
      assert Holds(s.fates[k], s.added[k], s.rows);
    }
    forall u | u in next.calls ensures CallOk(next, u) {
      assert CallOk(s, u);
    }
  }

  lemma StepKeepsInv(s: State, e: Step)
    requires Inv(s) && Enabled(s, e)
    ensures Inv(Next(s, e)) && Keeps(s.rows, Next(s, e).rows)
  {
    match e
    case Add(readings, now) => AddKeepsInv(s, readings, now);
    case Take(t) => TakeKeepsInv(s, t);
    case FailToConnect(t) => SettleKeepsInv(s, t, s.rows, Raised(false), None);
    case Commit(t, around) =>
      IngestAccounts(s.rows, s.hand, s.calls[t].target, around);
      var (after, r) := IngestResult(s.rows, s.hand, s.calls[t].target, around);
      SettleKeepsInv(s, t, after, r, s.calls[t].target);
    case OtherWriter(_) => WorldKeepsInv(s, e);
    case Lifecycle(_) => WorldKeepsInv(s, e);
    case _ => LockKeepsInv(s, e);
  }

  // --- Exactly what becomes of a reading ---

  /** The fallback is refused this reading's row, nobody has stored its id, and no error is raised that
  would count the batch as dropped. */
  predicate LostHere(rows: Rows, items: seq<Reading>, session: Option<nat>, around: Surroundings, n: Reading)
    requires |around.others| == |Unique(items)|
  {
    && !around.down && FallsBack(rows, items, around)
    && n.id in around.refused && n.id !in rows.Keys + OtherKeys(rows, items, around)
    && (around.fanOutFails ==> Transaction(rows, items, session, around).1 == Stored([]))
  }

  /** A reading of a committed batch: kept if its row is new and its own; a duplicate if its id was or
  became taken; lost exactly where the row-by-row fallback was refused its row and nobody else stored its
  id; dropped only when the whole batch failed. */
  lemma FatesExactly(rows: Rows, items: seq<Reading>, session: Option<nat>, around: Surroundings, n: Reading)
    requires |around.others| == |Unique(items)| && n in items
    ensures var (after, r) := IngestResult(rows, items, session, around);
      var others := OtherKeys(rows, items, around);
      && (FateOf(n, after, r, session).Dropped? <==> r.Raised?)
      && (FateOf(n, after, r, session).Kept? ==>
            n.id !in around.raced + rows && FateOf(n, after, r, session).session == session)
      && (FateOf(n, after, r, session).Lost? <==> LostHere(rows, items, session, around, n))
      && (FateOf(n, after, r, session).Duplicate? ==>
            n.id in rows.Keys + others || exists m :: m in items && m != n && m.id == n.id)
  {
    IngestAccounts(rows, items, session, around);
    var (after, r) := IngestResult(rows, items, session, around);
    assert n.id in IdsOf(items);
    if r.Stored? && n !in r.readings && n.id in IdsOf(r.readings) {
      var m :| m in r.readings && m.id == n.id;
      assert m in items && m != n;
    }
  }

  /** The barrier is not absolute: on a lost race the fallback skips a row the database refuses, and that
  reading is neither stored nor counted as dropped. */
  lemma FallbackLosesAReading(a: Reading, b: Reading, other: Reading)
    requires a.id == other.id != b.id
    ensures var around := Surroundings(map[a.id := Row(other, None)], [map[], map[]], {b.id}, false, false, false);
      && |around.others| == |Unique([a, b])|
      && var (after, r) := IngestResult(map[], [a, b], None, around);
      && FatesOf([a, b], after, r, None) == [Duplicate, Lost] && b.id !in after
      && Counted(Buffer([], None, 0, 0, 0), [a, b], r).droppedTotal == 0
  {
    var around := Surroundings(map[a.id := Row(other, None)], [map[], map[]], {b.id}, false, false, false);
    UniquePair(a, b);
    assert a in Unique([a, b]);
    assert OtherKeys(map[], [a, b], around) == {a.id} by {
      var none: Rows := map[];
      assert [none, none][..1] == [none] && [none][..0] == [];
      assert AllKeys([none]) == {};
    }
    FatesExactly(map[], [a, b], None, around, a);
    FatesExactly(map[], [a, b], None, around, b);
    IngestAccounts(map[], [a, b], None, around);
  }

  /** Nor is the count exact: when reading the committed rows back for the display fails, what was stored
  is counted as dropped. */
  lemma FanOutFailureCountsStored(n: Reading, session: Option<nat>)
    ensures var around := Quiet().(fanOutFails := true);
      && |around.others| == |Unique([n])|
      && var (after, r) := IngestResult(map[], [n], session, around);
      && after == map[n.id := Row(n, session)] && FatesOf([n], after, r, session) == [Dropped]
      && Counted(Buffer([], None, 0, 0, 0), [n], r) == Buffer([], None, 0, 0, 1)
  {
    QuietIngest(n, session);
  }

  /** Nobody else writes, and the database answers. */
  function Quiet(): Surroundings {
    Surroundings(map[], [map[]], {}, false, false, false)
  }

  lemma QuietIngest(n: Reading, session: Option<nat>)
    ensures |Quiet().others| == |Unique([n])|
    ensures Transaction(map[], [n], session, Quiet()) == (map[n.id := Row(n, session)], Stored([n]))
    ensures Transaction(map[], [n], session, Quiet().(fanOutFails := true))
         == (map[n.id := Row(n, session)], Stored([n]))
  {
    var none: Rows := map[];
    UniqueOne(n);
    InsertOne(n, session);
    FreshOne(n);
    assert Quiet().raced + none == none && none.Keys == {};
  }

  lemma UniqueOne(n: Reading)
    ensures Unique([n]) == [n]
  {
    assert [n][..0] == [];
  }

  lemma InsertOne(n: Reading, session: Option<nat>)
    ensures InsertAbsent(map[], [n], session) == map[n.id := Row(n, session)]
  {
    assert [n][..0] == [];
  }

  lemma FreshOne(n: Reading)
    ensures Fresh([n], {}) == [n]
  {
    assert [n][..0] == [];
  }

  lemma UniquePair(a: Reading, b: Reading)
    requires a.id != b.id
    ensures Unique([a, b]) == [a, b] && IdsOf([a, b]) == {a.id, b.id}
  {
    assert [a, b] == [a] + [b] && [a, b][..1] == [a] && [a][..0] == [];
    IdsOfLast([], a);
    assert [] + [a] == [a];
    IdsOfLast([a], b);
    assert Unique([a]) == [a];
  }

  // --- Runs ---

  /** The histories only grow, and so do the stored rows. */
  predicate Grows(s: State, later: State) {
    s.added <= later.added && s.fates <= later.fates && Keeps(s.rows, later.rows)
  }

  lemma StepGrows(s: State, e: Step)
    requires Enabled(s, e) && Keeps(s.rows, Next(s, e).rows)
    ensures Grows(s, Next(s, e))
  {
  }

  lemma GrowsTransitive(a: State, b: State, c: State)
    requires Grows(a, b) && Grows(b, c)
    ensures Grows(a, c)
  {
  }

  lemma {:induction false} RunKeepsInv(s: State, es: seq<Step>)
    requires Inv(s) && CanRun(s, es)
    ensures Inv(Exec(s, es)) && Grows(s, Exec(s, es))
    decreases |es|
  {
    if es != [] {
      var next := Next(s, es[0]);
      StepKeepsInv(s, es[0]);
      StepGrows(s, es[0]);
      RunKeepsInv(next, es[1..]);
      GrowsTransitive(s, next, Exec(next, es[1..]));
    }
  }

  /** The thread makes no further call of flush. */
  predicate NoCallBy(t: nat, es: seq<Step>) {
    forall i :: 0 <= i < |es| ==> es[i] != CallFlush(t)
  }

  lemma {:induction false} MarkStays(s: State, t: nat, es: seq<Step>)
    requires t in s.calls && CanRun(s, es) && NoCallBy(t, es)
    ensures t in Exec(s, es).calls && Exec(s, es).calls[t].mark == s.calls[t].mark
    decreases |es|
  {
    if es != [] {
      assert es[0] != CallFlush(t);
      MarkStays(Next(s, es[0]), t, es[1..]);
    }
  }

  /** `flush()` as a barrier, in every interleaving: when a call returns, every reading added before it was
  made has been dealt with: its id is stored, or it is one of those counted in `droppedTotal`, or the
  fallback lost it. */
  lemma FlushIsABarrier(s: State, t: nat, es: seq<Step>)
    requires Inv(s) && CanRun(s, [CallFlush(t)] + es) && NoCallBy(t, es)
    requires var end := Exec(s, [CallFlush(t)] + es); t in end.calls && end.calls[t].Done?
    ensures var end := Exec(s, [CallFlush(t)] + es);
      && |s.added| <= |end.fates| <= |end.added| && s.added <= end.added
      && end.buffer.droppedTotal == Drops(end.fates)
      && forall k :: 0 <= k < |s.added| ==>
           Holds(end.fates[k], s.added[k], end.rows)
           && (end.fates[k].Kept? || end.fates[k].Duplicate? ==> s.added[k].id in end.rows)
  {
    var es' := [CallFlush(t)] + es;
    assert es'[0] == CallFlush(t) && es'[1..] == es;
    var called := Next(s, CallFlush(t));
    RunKeepsInv(s, es');
    MarkStays(called, t, es);
    var end := Exec(s, es');
    assert CallOk(end, t);
    forall k | 0 <= k < |s.added| ensures Holds(end.fates[k], s.added[k], end.rows) {
      assert end.added[k] == s.added[k];
    }
  }

  predicate NoneLost(fates: seq<Fate>) {
    forall k :: 0 <= k < |fates| ==> !fates[k].Lost?
  }

  predicate LosesRow(rows: Rows, items: seq<Reading>, session: Option<nat>, around: Surroundings)
    requires |around.others| == |Unique(items)|
  {
    exists k :: 0 <= k < |items| && LostHere(rows, items, session, around, items[k])
  }

  predicate Loses(s: State, e: Step)
    requires Enabled(s, e)
  {
    e.Commit? && LosesRow(s.rows, s.hand, s.calls[e.t].target, e.around)
  }

  predicate LosesSomewhere(s: State, es: seq<Step>)
    requires CanRun(s, es)
    decreases |es|
  {
    es != [] && (Loses(s, es[0]) || LosesSomewhere(Next(s, es[0]), es[1..]))
  }

  /** Over a run nothing is lost exactly when no commit of it loses a row. */
  lemma {:induction false} NothingIsLost(s: State, es: seq<Step>)
    requires CanRun(s, es)
    ensures NoneLost(Exec(s, es).fates) <==> NoneLost(s.fates) && !LosesSomewhere(s, es)
    decreases |es|
  {
    if es != [] {
      StepLoses(s, es[0]);
      NothingIsLost(Next(s, es[0]), es[1..]);
    }
  }

  lemma StepLoses(s: State, e: Step)
    requires Enabled(s, e)
    ensures NoneLost(Next(s, e).fates) <==> NoneLost(s.fates) && !Loses(s, e)
  {
    match e
    case Commit(t, around) =>
      var target := s.calls[t].target;
      var (after, r) := IngestResult(s.rows, s.hand, target, around);
      CommitLoses(s.rows, s.hand, target, around);
      NoneLostAdds(s.fates, FatesOf(s.hand, after, r, target));
    case FailToConnect(t) => NoneLostAdds(s.fates, FatesOf(s.hand, s.rows, Raised(false), None));
    case _ =>
  }

  lemma NoneLostAdds(a: seq<Fate>, b: seq<Fate>)
    ensures NoneLost(a + b) <==> NoneLost(a) && NoneLost(b)
  {
    if NoneLost(a + b) {
      assert forall k :: 0 <= k < |a| ==> a[k] == (a + b)[k];
      assert forall k :: 0 <= k < |b| ==> b[k] == (a + b)[|a| + k];
    }
  }

  lemma CommitLoses(rows: Rows, items: seq<Reading>, session: Option<nat>, around: Surroundings)
    requires |around.others| == |Unique(items)|
    ensures var (after, r) := IngestResult(rows, items, session, around);
      NoneLost(FatesOf(items, after, r, session)) <==> !LosesRow(rows, items, session, around)
  {
    var (after, r) := IngestResult(rows, items, session, around);
    forall k | 0 <= k < |items|
      ensures FatesOf(items, after, r, session)[k].Lost? <==> LostHere(rows, items, session, around, items[k])
    {
      FatesExactly(rows, items, session, around, items[k]);
    }
  }

  // --- Short runs ---

  lemma RunFive(s: State, a: Step, b: Step, c: Step, d: Step, e: Step)
    requires Enabled(s, a) && Enabled(Next(s, a), b) && Enabled(Next(Next(s, a), b), c)
    requires var third := Next(Next(Next(s, a), b), c); Enabled(third, d) && Enabled(Next(third, d), e)
    ensures CanRun(s, [a, b, c, d, e])
    ensures Exec(s, [a, b, c, d, e]) == Next(Next(Next(Next(Next(s, a), b), c), d), e)
  {
    var s3 := Next(Next(Next(s, a), b), c);
    var s5 := Next(Next(s3, d), e);
    assert CanRun(s5, []) && Exec(s5, []) == s5;
    RunsOne(Next(s3, d), e, []);
    assert [e] + [] == [e];
    RunsOne(s3, d, [e]);
    assert [d] + [e] == [d, e];
    RunsOne(Next(Next(s, a), b), c, [d, e]);
    assert [c] + [d, e] == [c, d, e];
    RunsOne(Next(s, a), b, [c, d, e]);
    assert [b] + [c, d, e] == [b, c, d, e];
    RunsOne(s, a, [b, c, d, e]);
    assert [a] + [b, c, d, e] == [a, b, c, d, e];
  }

  lemma RunsOne(s: State, a: Step, rest: seq<Step>)
    requires Enabled(s, a) && CanRun(Next(s, a), rest)
    ensures CanRun(s, [a] + rest) && Exec(s, [a] + rest) == Exec(Next(s, a), rest)
  {
    assert ([a] + rest)[1..] == rest;
  }

  // --- The machine and the buffer class ---

  /** A flush that nothing interrupts does, step by step, what the contract of `ReadingBuffer.Flush` says. */
  lemma UninterruptedFlush(s: State, t: nat, target: Option<nat>, around: Surroundings)
    requires Inv(s) && s.holder.None? && t !in s.calls && s.buffer.items != []
    requires IsTarget(s.sessions, FirstHint(s.buffer.items), target) && |around.others| == |Unique(s.buffer.items)|
    ensures var es := [CallFlush(t), Acquire(t), Take(t), Resolve(t, target), Commit(t, around)];
      var (after, r) := IngestResult(s.rows, s.buffer.items, target, around);
      && CanRun(s, es)
      && Exec(s, es).buffer == Counted(Drained(s.buffer), s.buffer.items, r)
      && Exec(s, es).rows == after
      && t in Exec(s, es).calls && Exec(s, es).calls[t] == Done(|s.added|)
  {
    RunFive(s, CallFlush(t), Acquire(t), Take(t), Resolve(t, target), Commit(t, around));
  }
}
