/** Why the stop route flushes before it closes its session: what the flush leaves in the database. */
module StopOrder {
  import opened FieldArea
  import opened FlushProtocol
  import opened IngestBuffer
  import opened Ingestion
  import opened Outcomes
  import opened Sessions
  import opened Telemetry

  // --- Attribution ---

  /** S is the one session readings can attach to. */
  predicate Sole(sessions: map<nat, Session>, id: nat) {
    AttachableId(sessions, id) && forall other :: other in sessions && AttachableId(sessions, other) ==> other == id
  }

  predicate Throughout(s: State, es: seq<Step>, id: nat)
    requires CanRun(s, es)
    decreases |es|
  {
    Sole(s.sessions, id) && (es == [] || Throughout(Next(s, es[0]), es[1..], id))
  }

  lemma SoleIsTarget(sessions: map<nat, Session>, id: nat, preferred: Option<nat>, target: Option<nat>)
    requires Sole(sessions, id) && IsTarget(sessions, preferred, target)
    ensures target == Some(id)
  {
    assert AttachableId(sessions, id);
    if preferred.Some? && AttachableId(sessions, preferred.value) {
      assert preferred.value == id;
    }
  }

  /** Readings from `b` on: those settled are stored under S if stored at all, those in hand will be. */
  predicate AttributedFrom(s: State, b: nat, id: nat) {
    && (forall k :: b <= k < |s.fates| && s.fates[k].Kept? ==> s.fates[k].session == Some(id))
    && (b < |s.fates| + |s.hand| ==>
          forall t :: t in s.calls && s.calls[t].Resolved? ==> s.calls[t].target == Some(id))
  }

  lemma StepAttributes(s: State, e: Step, b: nat, id: nat)
    requires Inv(s) && Enabled(s, e) && Sole(s.sessions, id) && AttributedFrom(s, b, id)
    ensures AttributedFrom(Next(s, e), b, id)
  {
    match e
    case Resolve(t, target) =>
      SoleIsTarget(s.sessions, id, FirstHint(s.hand), target);
      OneInLock(s, t);
    case Take(t) => OneInLock(s, t);
    case Commit(t, around) => OneInLock(s, t);
    case FailToConnect(t) => OneInLock(s, t);
    case _ =>
  }

  lemma OneInLock(s: State, t: nat)
    requires Inv(s) && t in s.calls && s.calls[t].InLock()
    ensures forall u :: u in s.calls && s.calls[u].InLock() ==> u == t
  {
    forall u | u in s.calls && s.calls[u].InLock() ensures u == t {
      assert CallOk(s, u) && CallOk(s, t);
    }
  }

  lemma {:induction false} RunAttributes(s: State, es: seq<Step>, b: nat, id: nat)
    requires Inv(s) && CanRun(s, es) && Throughout(s, es, id) && AttributedFrom(s, b, id)
    ensures AttributedFrom(Exec(s, es), b, id)
    decreases |es|
  {
    if es != [] {
      StepAttributes(s, es[0], b, id);
      StepKeepsInv(s, es[0]);
      RunAttributes(Next(s, es[0]), es[1..], b, id);
    }
  }

  // --- Rows ---

  /** No other writer stores a row under this id. */
  predicate Untouched(es: seq<Step>, id: nat) {
    forall i :: 0 <= i < |es| ==> UntouchedBy(es[i], id)
  }

  predicate UntouchedBy(e: Step, id: nat) {
    match e
    case OtherWriter(written) => id !in written
    case Commit(_, around) => id !in around.raced.Keys + AllKeys(around.others)
    case _ => true
  }

  /** A row under this id belongs to S and holds a reading that was added. */
  predicate OwnedRow(s: State, sid: nat, id: nat) {
    id in s.rows ==>
      s.rows[id].session == Some(sid) && s.rows[id].reading in s.added && s.rows[id].reading.id == id
  }

  /** What is in hand from before `b` does not bear this id. */
  predicate HandClear(s: State, b: nat, id: nat) {
    b <= |s.fates| + |s.hand| && (|s.fates| + |s.hand| == b ==> id !in IdsOf(s.hand))
  }

  lemma CommitOwns(s: State, t: nat, around: Surroundings, b: nat, sid: nat, id: nat)
    requires Inv(s) && Enabled(s, Commit(t, around)) && AttributedFrom(s, b, sid)
    requires OwnedRow(s, sid, id) && HandClear(s, b, id) && UntouchedBy(Commit(t, around), id)
    ensures OwnedRow(Next(s, Commit(t, around)), sid, id)
  {
    var target := s.calls[t].target;
    IngestAccounts(s.rows, s.hand, target, around);
    if id !in s.rows {
      NewRowsAreOurs(s.rows, s.hand, target, around, id);
      HandWasAdded(s);
    }
  }

  lemma HandWasAdded(s: State)
    requires Inv(s)
    ensures forall n :: n in s.hand ==> n in s.added
  {
    HandIsNext(s);
    forall n | n in s.hand ensures n in s.added {
      var k :| 0 <= k < |s.hand| && s.hand[k] == n;
      assert s.added[|s.fates| + k] == n;
    }
  }

  lemma StepOwns(s: State, e: Step, b: nat, sid: nat, id: nat)
    requires Inv(s) && Enabled(s, e) && AttributedFrom(s, b, sid)
    requires OwnedRow(s, sid, id) && HandClear(s, b, id) && UntouchedBy(e, id)
    ensures OwnedRow(Next(s, e), sid, id) && HandClear(Next(s, e), b, id)
  {
    match e
    case Commit(t, around) => CommitOwns(s, t, around, b, sid, id);
    case Take(t) => assert CallOk(s, t);
    case _ =>
  }

  lemma {:induction false} RunOwns(s: State, es: seq<Step>, b: nat, sid: nat, id: nat)
    requires Inv(s) && CanRun(s, es) && Throughout(s, es, sid) && AttributedFrom(s, b, sid)
    requires OwnedRow(s, sid, id) && HandClear(s, b, id) && Untouched(es, id)
    ensures OwnedRow(Exec(s, es), sid, id) && HandClear(Exec(s, es), b, id)
    decreases |es|
  {
    if es != [] {
      assert UntouchedBy(es[0], id) && Untouched(es[1..], id);
      StepAttributes(s, es[0], b, sid);
      StepOwns(s, es[0], b, sid, id);
      StepKeepsInv(s, es[0]);
      RunOwns(Next(s, es[0]), es[1..], b, sid, id);
    }
  }

  // --- The stop route's flush ---

  /** From `s`, through `es`, to a stop route whose flush, made by thread `t`, returns at the end of `es'`;
  S is the only session readings can attach to all along. */
  ghost predicate StopFlushes(s: State, es: seq<Step>, t: nat, es': seq<Step>, sid: nat) {
    && Inv(s) && CanRun(s, es) && CanRun(Exec(s, es), [CallFlush(t)] + es') && NoCallBy(t, es')
    && Throughout(s, es, sid) && Throughout(Exec(s, es), [CallFlush(t)] + es', sid)
    && var end := Exec(Exec(s, es), [CallFlush(t)] + es'); t in end.calls && end.calls[t].Done?
  }

  /** Every reading added in between and before the flush has been settled by the time it returns, and none
  of them is stored under another session or under none. */
  lemma StopFlushAttributes(s: State, es: seq<Step>, t: nat, es': seq<Step>, sid: nat)
    requires StopFlushes(s, es, t, es', sid)
    ensures var stopping := Exec(s, es);
      var end := Exec(stopping, [CallFlush(t)] + es');
      forall k :: |s.fates| + |s.hand| <= k < |stopping.added| ==>
        && k < |end.fates| && k < |end.added| && end.added[k] == stopping.added[k]
        && Holds(end.fates[k], end.added[k], end.rows)
        && (end.fates[k].Kept? ==> end.fates[k].session == Some(sid))
  {
    var b, stopping := |s.fates| + |s.hand|, Exec(s, es);
    RunKeepsInv(s, es);
    RunAttributes(s, es, b, sid);
    RunAttributes(stopping, [CallFlush(t)] + es', b, sid);
    FlushIsABarrier(stopping, t, es');
  }

  /** Nobody had or has a row under this id but the readings added since `s`. */
  predicate OnlyOurs(s: State, es: seq<Step>, t: nat, es': seq<Step>, id: nat) {
    id !in s.rows && id !in IdsOf(s.hand) && Untouched(es, id) && Untouched([CallFlush(t)] + es', id)
  }

  /** The same of rows: under an id that nobody else writes there is, once the flush returns, a row of S,
  unless the reading was dropped with its batch or lost. Whatever became of it, no other session has it. */
  lemma StopFlushOwnsRows(s: State, es: seq<Step>, t: nat, es': seq<Step>, sid: nat, k: nat)
    requires StopFlushes(s, es, t, es', sid)
    requires |s.fates| + |s.hand| <= k < |Exec(s, es).added|
    requires OnlyOurs(s, es, t, es', Exec(s, es).added[k].id)
    ensures var stopping := Exec(s, es);
      var end := Exec(stopping, [CallFlush(t)] + es');
      var id := stopping.added[k].id;
      && k < |end.fates| && OwnedRow(end, sid, id)
      && (!end.fates[k].Dropped? && !end.fates[k].Lost? ==> id in end.rows && end.rows[id].session == Some(sid))
  {
    var b, stopping := |s.fates| + |s.hand|, Exec(s, es);
    var id := stopping.added[k].id;
    RunKeepsInv(s, es);
    RunAttributes(s, es, b, sid);
    RunOwns(s, es, b, sid, id);
    RunOwns(stopping, [CallFlush(t)] + es', b, sid, id);
    StopFlushAttributes(s, es, t, es', sid);
  }

  // --- What the stop measures ---

  /** A row the path is read from: a position reading of the session. */
  predicate IsTrailRow(row: Row, sid: nat) {
    row.session == Some(sid) && row.reading.feed.Position? && row.reading.fix.Some?
  }

  /** The ids of those rows, in the order they are read. */
  predicate Selects(ids: seq<nat>, rows: Rows, sid: nat) {
    && (forall i, j :: 0 <= i < j < |ids| ==> ids[i] != ids[j])
    && (forall i :: 0 <= i < |ids| ==> ids[i] in rows && IsTrailRow(rows[ids[i]], sid))
    && (forall id :: id in rows && IsTrailRow(rows[id], sid) ==> id in ids)
  }

  function TrailOf(ids: seq<nat>, rows: Rows): seq<Fix>
    requires forall i :: 0 <= i < |ids| ==> ids[i] in rows && rows[ids[i]].reading.fix.Some?
  {
    seq(|ids|, i requires 0 <= i < |ids| => rows[ids[i]].reading.fix.value)
  }

  /** The stop measures the session over every fix that was added, while S alone could take readings, before
  its flush: each is among the rows it reads, and on the path it bills unless it fell into a pause. The
  exceptions are the ones the flush can report: dropped with a batch, or lost. A cancel, which flushes
  first too, measures the same. */
  lemma StopMeasuresEveryFix(
    geo: Geo, s: State, es: seq<Step>, t: nat, es': seq<Step>, sid: nat, k: nat, ids: seq<nat>, now: int)
    requires StopFlushes(s, es, t, es', sid)
    requires |s.fates| + |s.hand| <= k < |Exec(s, es).added|
    requires OnlyOurs(s, es, t, es', Exec(s, es).added[k].id)
    requires var n := Exec(s, es).added[k]; n.feed.Position? && n.fix.Some?
    requires var end := Exec(Exec(s, es), [CallFlush(t)] + es');
      && SamePoint(end.added, Exec(s, es).added[k])
      && Selects(ids, end.rows, sid) && sid in end.sessions
    ensures var end := Exec(Exec(s, es), [CallFlush(t)] + es');
      var fix := Exec(s, es).added[k].fix.value;
      var session := end.sessions[sid].(trail := TrailOf(ids, end.rows));
      var stopped := Stopped(geo, session, now);
      && k < |end.fates|
      && (!end.fates[k].Dropped? && !end.fates[k].Lost? ==>
            && fix in session.trail
            && stopped.area == Some(StoredArea(geo, session.trail, stopped.pauses, session.width))
            && Cancelled(geo, session, now).area == stopped.area
            && (Counts(fix, stopped.pauses) ==>
                  fix.position.value in Points(session.trail, stopped.pauses)))
  {
    var end := Exec(Exec(s, es), [CallFlush(t)] + es');
    var n := Exec(s, es).added[k];
    StopFlushOwnsRows(s, es, t, es', sid, k);
    if !end.fates[k].Dropped? && !end.fates[k].Lost? {
      assert end.rows[n.id].reading == n;
      FixIsRead(ids, end.rows, sid, n.id);
      var session := end.sessions[sid].(trail := TrailOf(ids, end.rows));
      StoppedArea(geo, session, now);
      if Counts(n.fix.value, Stopped(geo, session, now).pauses) {
        PointsInclude(session.trail, Stopped(geo, session, now).pauses, n.fix.value);
      }
    }
  }

  /** The broker's id identifies a data point. */
  predicate SamePoint(added: seq<Reading>, n: Reading) {
    forall m :: m in added && m.id == n.id ==> m == n
  }

  lemma FixIsRead(ids: seq<nat>, rows: Rows, sid: nat, id: nat)
    requires Selects(ids, rows, sid) && id in rows && IsTrailRow(rows[id], sid)
    ensures rows[id].reading.fix.value in TrailOf(ids, rows)
  {
    var i :| 0 <= i < |ids| && ids[i] == id;
    assert TrailOf(ids, rows)[i] == rows[id].reading.fix.value;
  }

  lemma StoppedArea(geo: Geo, s: Session, now: int)
    ensures var r := Stopped(geo, s, now);
      r.area == Some(StoredArea(geo, s.trail, r.pauses, s.width)) && Cancelled(geo, s, now).area == r.area
  {
  }

  // --- The other order ---

  /** A session just closed, with one reading still in the buffer. */
  function JustClosed(n: Reading, id: nat, closed: Session): State {
    State([n], [], [], Buffer([n], Some(0), 0, 0, 0), None, map[], map[], map[id := closed])
  }

  /** The other order loses the attribution: a reading still buffered when its session is closed is stored
  under no session by the flush that follows. */
  lemma FlushingAfterCompletionDetaches(n: Reading, id: nat, closed: Session)
    requires n.hint.None? && !closed.Open()
    ensures var s := JustClosed(n, id, closed);
      var es := [CallFlush(0), Acquire(0), Take(0), Resolve(0, None), Commit(0, Quiet())];
      Inv(s) && CanRun(s, es) && Exec(s, es).fates == [Kept(None)] && Exec(s, es).rows == map[n.id := Row(n, None)]
  {
    var s := JustClosed(n, id, closed);
    JustClosedIsOk(n, id, closed);
    var taken := TakesBatch(s, n);
    DetachedCommit(taken, n);
    RunFive(s, CallFlush(0), Acquire(0), Take(0), Resolve(0, None), Commit(0, Quiet()));
  }

  lemma JustClosedIsOk(n: Reading, id: nat, closed: Session)
    ensures Inv(JustClosed(n, id, closed))
  {
    var s := JustClosed(n, id, closed);
    assert s.added[0..] == s.hand + s.buffer.items;
  }

  lemma TakesBatch(s: State, n: Reading) returns (taken: State)
    requires s.calls == map[] && s.holder.None? && s.buffer.items == [n] && s.added == [n]
    ensures Enabled(s, CallFlush(0)) && Enabled(Next(s, CallFlush(0)), Acquire(0))
    ensures Enabled(Next(Next(s, CallFlush(0)), Acquire(0)), Take(0))
    ensures taken == Next(Next(Next(s, CallFlush(0)), Acquire(0)), Take(0))
    ensures taken.calls == map[0 := Call.Taken(1)] && taken.hand == [n]
    ensures taken.fates == s.fates && taken.rows == s.rows && taken.sessions == s.sessions
  {
    taken := Next(Next(Next(s, CallFlush(0)), Acquire(0)), Take(0));
  }

  lemma DetachedCommit(s: State, n: Reading)
    requires s.calls == map[0 := Call.Taken(1)] && s.hand == [n] && n.hint.None?
    requires s.fates == [] && s.rows == map[] && forall id :: id in s.sessions ==> !Attachable(s.sessions[id])
    ensures Enabled(s, Resolve(0, None)) && Enabled(Next(s, Resolve(0, None)), Commit(0, Quiet()))
    ensures var end := Next(Next(s, Resolve(0, None)), Commit(0, Quiet()));
      end.fates == [Kept(None)] && end.rows == map[n.id := Row(n, None)]
  {
    QuietIngest(n, None);
    var end := Next(Next(s, Resolve(0, None)), Commit(0, Quiet()));
    assert end.fates == [] + FatesOf([n], end.rows, Stored([n]), None);
  }
}
