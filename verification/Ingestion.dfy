/** Storing a batch of readings, and why every path of it is "insert if absent, first occurrence wins". */
module Ingestion {
  import opened Outcomes
  import opened Sessions
  import opened Telemetry

  // --- Which session a batch belongs to ---

  predicate Attachable(s: Session) {
    s.Open() && s.gps
  }

  predicate AttachableId(sessions: map<nat, Session>, id: nat) {
    id in sessions && Attachable(sessions[id])
  }

  /** The named session if it can take readings, else the attachable session started last. */
  predicate IsTarget(sessions: map<nat, Session>, preferred: Option<nat>, target: Option<nat>) {
    if preferred.Some? && AttachableId(sessions, preferred.value) then target == preferred
    else
      && (target.None? ==> forall id :: id in sessions ==> !Attachable(sessions[id]))
      && (target.Some? ==>
            && AttachableId(sessions, target.value)
            && forall id :: id in sessions && Attachable(sessions[id]) ==>
                 sessions[id].startedAt <= sessions[target.value].startedAt)
  }

  method ResolveTargetSession(sessions: map<nat, Session>, preferred: Option<nat>) returns (target: Option<nat>)
    ensures IsTarget(sessions, preferred, target)
  {
    if preferred.Some? && preferred.value in sessions && Attachable(sessions[preferred.value]) {
      return preferred;
    }
    target := None;
    var left := sessions.Keys;
    while left != {}
      invariant left <= sessions.Keys
      invariant target.None? ==> forall id :: id in sessions.Keys - left ==> !Attachable(sessions[id])
      invariant target.Some? ==>
          && AttachableId(sessions, target.value)
          && forall id :: id in sessions.Keys - left && Attachable(sessions[id]) ==>
               sessions[id].startedAt <= sessions[target.value].startedAt
      decreases left
    {
      var id :| id in left;
      left := left - {id};
      if Attachable(sessions[id])
         && (target.None? || sessions[id].startedAt > sessions[target.value].startedAt) {
        target := Some(id);
      }
    }
  }

  /** A running or paused session whose GPS tracking is on. */
  predicate Tracked(s: Session) {
    s.status in {Active, Paused} && s.gps
  }

  /** Readings go to a running or paused session that is tracked, or to none if there is no such session; a
  tracked session that is named gets them, and else none that started later. */
  lemma TargetIsTracked(sessions: map<nat, Session>, preferred: Option<nat>, target: Option<nat>)
    requires IsTarget(sessions, preferred, target)
    ensures target.None? <==> forall id :: id in sessions ==> !Tracked(sessions[id])
    ensures target.Some? ==> target.value in sessions && Tracked(sessions[target.value])
    ensures preferred.Some? && preferred.value in sessions && Tracked(sessions[preferred.value]) ==> target == preferred
    ensures target.Some? && target != preferred ==>
      forall id :: id in sessions && Tracked(sessions[id]) ==>
        sessions[id].startedAt <= sessions[target.value].startedAt
  {
    assert forall id :: id in sessions ==> Attachable(sessions[id]) == Tracked(sessions[id]);
  }

  /** The session the first hinted reading names. */
  function FirstHint(items: seq<Reading>): (hint: Option<nat>)
    ensures hint.None? ==> forall i :: 0 <= i < |items| ==> items[i].hint.None?
    ensures hint.Some? ==>
      exists i :: 0 <= i < |items| && items[i].hint == hint && forall j :: 0 <= j < i ==> items[j].hint.None?
  {
    if items == [] then None
    else if items[0].hint.Some? then items[0].hint
    else FirstHint(items[1..])
  }

  // --- Insert if absent ---

  function IdsOf(items: seq<Reading>): set<nat> {
    set r | r in items :: r.id
  }

  function InsertAbsent(rows: Rows, items: seq<Reading>, session: Option<nat>): Rows {
    if items == [] then rows
    else
      var sofar := InsertAbsent(rows, items[..|items| - 1], session);
      var last := items[|items| - 1];
      if last.id in sofar then sofar else sofar[last.id := Row(last, session)]
  }

  /** The first reading of a batch with an id. */
  function First(items: seq<Reading>, id: nat): Reading
    requires id in IdsOf(items)
  {
    if items[0].id == id then items[0] else First(items[1..], id)
  }

  lemma IdsOfLast(items: seq<Reading>, last: Reading)
    ensures IdsOf(items + [last]) == IdsOf(items) + {last.id}
  {
    var all := items + [last];
    forall id | id in IdsOf(items) + {last.id} ensures id in IdsOf(all) {
      if id == last.id {
        assert last in all;
      } else {
        var r :| r in items && r.id == id;
        assert r in all;
      }
    }
  }

  lemma {:induction false} FirstOfLonger(items: seq<Reading>, last: Reading, id: nat)
    requires id in IdsOf(items + [last])
    ensures id in IdsOf(items) ==> First(items + [last], id) == First(items, id)
    ensures id !in IdsOf(items) ==> First(items + [last], id) == last
  {
    var all := items + [last];
    if items == [] {
      IdsOfLast(items, last);
    } else {
      assert all[0] == items[0] && all[1..] == items[1..] + [last];
      assert items[0] in items;
      if all[0].id != id {
        assert id in IdsOf(all[1..]) by {
          var r :| r in all && r.id == id;
          assert r in all[1..];
        }
        FirstOfLonger(items[1..], last, id);
        assert IdsOf(items) == {items[0].id} + IdsOf(items[1..]);
      }
    }
  }

  /** What the batch leaves behind: the old rows untouched, and for each new id its first reading. */
  lemma {:induction false} InsertAbsentMeaning(rows: Rows, items: seq<Reading>, session: Option<nat>)
    ensures var after := InsertAbsent(rows, items, session);
      && after.Keys == rows.Keys + IdsOf(items)
      && (forall id :: id in rows ==> after[id] == rows[id])
      && (forall id :: id in IdsOf(items) - rows.Keys ==> after[id] == Row(First(items, id), session))
  {
    if items != [] {
      var init, last := items[..|items| - 1], items[|items| - 1];
      assert items == init + [last];
      InsertAbsentMeaning(rows, init, session);
      IdsOfLast(init, last);
      forall id | id in IdsOf(items) - rows.Keys
        ensures InsertAbsent(rows, items, session)[id] == Row(First(items, id), session)
      {
        FirstOfLonger(init, last, id);
      }
    }
  }

  /** Ingesting what is already stored changes nothing, under whatever session. */
  lemma {:induction false} ReingestChangesNothing(rows: Rows, items: seq<Reading>, session: Option<nat>)
    requires IdsOf(items) <= rows.Keys
    ensures InsertAbsent(rows, items, session) == rows
  {
    if items != [] {
      var init, last := items[..|items| - 1], items[|items| - 1];
      assert items == init + [last];
      IdsOfLast(init, last);
      ReingestChangesNothing(rows, init, session);
    }
  }

  // --- Duplicates inside the batch ---

  function Unique(items: seq<Reading>): seq<Reading> {
    if items == [] then []
    else
      var sofar := Unique(items[..|items| - 1]);
      var last := items[|items| - 1];
      if last.id in IdsOf(sofar) then sofar else sofar + [last]
  }

  predicate Distinct(items: seq<Reading>) {
    forall i, j :: 0 <= i < j < |items| ==> items[i].id != items[j].id
  }

  lemma {:induction false} UniqueIsDistinct(items: seq<Reading>)
    ensures Distinct(Unique(items)) && IdsOf(Unique(items)) == IdsOf(items)
  {
    if items != [] {
      var init, last := items[..|items| - 1], items[|items| - 1];
      assert items == init + [last];
      UniqueIsDistinct(init);
      IdsOfLast(init, last);
      IdsOfLast(Unique(init), last);
      if last.id !in IdsOf(Unique(init)) {
        DistinctLonger(Unique(init), last);
      }
    }
  }

  lemma {:induction false} UniqueInsertsTheSame(rows: Rows, items: seq<Reading>, session: Option<nat>)
    ensures InsertAbsent(rows, Unique(items), session) == InsertAbsent(rows, items, session)
  {
    if items != [] {
      var init, last := items[..|items| - 1], items[|items| - 1];
      UniqueInsertsTheSame(rows, init, session);
      UniqueIsDistinct(init);
      InsertAbsentMeaning(rows, init, session);
      if last.id !in IdsOf(Unique(init)) {
        assert (Unique(init) + [last])[..|Unique(init)|] == Unique(init);
      }
    }
  }

  /** The batch's dictionary, filled with setdefault. */
  method CollapseDuplicates(items: seq<Reading>) returns (unique: seq<Reading>)
    ensures unique == Unique(items)
  {
    unique := [];
    var seen: set<nat> := {};
    for i := 0 to |items|
      invariant unique == Unique(items[..i])
      invariant seen == IdsOf(unique)
    {
      assert items[..i + 1][..i] == items[..i];
      if items[i].id !in seen {
        IdsOfLast(unique, items[i]);
        seen := seen + {items[i].id};
        unique := unique + [items[i]];
      }
    }
    assert items[..|items|] == items;
  }

  // --- The readings that are new ---

  function Fresh(items: seq<Reading>, known: set<nat>): seq<Reading> {
    if items == [] then []
    else
      var last := items[|items| - 1];
      Fresh(items[..|items| - 1], known) + (if last.id in known then [] else [last])
  }

  lemma {:induction false} FreshOccurs(items: seq<Reading>, known: set<nat>)
    ensures forall r :: r in Fresh(items, known) <==> r in items && r.id !in known
  {
    if items != [] {
      FreshOccurs(items[..|items| - 1], known);
      assert items == items[..|items| - 1] + [items[|items| - 1]];
    }
  }

  lemma {:induction false} DistinctIds(items: seq<Reading>)
    requires Distinct(items)
    ensures |IdsOf(items)| == |items|
  {
    if items == [] {
      assert IdsOf(items) == {};
    } else {
      var init, last := items[..|items| - 1], items[|items| - 1];
      assert items == init + [last];
      IdsOfLast(init, last);
      DistinctIds(init);
      assert last.id !in IdsOf(init);
    }
  }

  lemma DistinctLonger(items: seq<Reading>, last: Reading)
    requires Distinct(items) && last.id !in IdsOf(items)
    ensures Distinct(items + [last])
  {
    assert forall i :: 0 <= i < |items| ==> items[i] in items;
  }

  lemma {:induction false} FreshIsDistinct(items: seq<Reading>, known: set<nat>)
    requires Distinct(items)
    ensures Distinct(Fresh(items, known))
  {
    if items != [] {
      var init, last := items[..|items| - 1], items[|items| - 1];
      FreshIsDistinct(init, known);
      if last.id !in known {
        FreshOccurs(init, known);
        assert forall r :: r in init ==> r.id != last.id;
        DistinctLonger(Fresh(init, known), last);
      }
    }
  }

  lemma FreshMeaning(items: seq<Reading>, known: set<nat>)
    requires Distinct(items)
    ensures Distinct(Fresh(items, known)) && IdsOf(Fresh(items, known)) == IdsOf(items) - known
    ensures forall r :: r in Fresh(items, known) <==> r in items && r.id !in known
  {
    FreshIsDistinct(items, known);
    FreshOccurs(items, known);
    assert forall id :: id in IdsOf(items) - known ==> id in IdsOf(Fresh(items, known)) by {
      forall id | id in IdsOf(items) - known ensures id in IdsOf(Fresh(items, known)) {
        var r :| r in items && r.id == id;
        assert r in Fresh(items, known);
      }
    }
  }

  /** Inserting all of a batch or only its new readings is the same. */
  lemma {:induction false} FreshInsertsTheSame(rows: Rows, items: seq<Reading>, session: Option<nat>, known: set<nat>)
    requires Distinct(items) && known <= rows.Keys
    ensures InsertAbsent(rows, Fresh(items, known), session) == InsertAbsent(rows, items, session)
  {
    if items != [] {
      var init, last := items[..|items| - 1], items[|items| - 1];
      FreshInsertsTheSame(rows, init, session, known);
      InsertAbsentMeaning(rows, init, session);
      if last.id in known {
        assert Fresh(init, known) + [] == Fresh(init, known);
      } else {
        assert (Fresh(init, known) + [last])[..|Fresh(init, known)|] == Fresh(init, known);
      }
    }
  }

  // --- One row at a time ---

  /** One row in a savepoint of its own, after what other writers committed meanwhile. A row whose id is
  taken, or that the database refuses for another reason, is skipped. */
  function StoreOne(
    sofar: (Rows, seq<Reading>), n: Reading, session: Option<nat>, others: Rows, refused: set<nat>)
    : (Rows, seq<Reading>)
  {
    var present := others + sofar.0;
    if n.id in present || n.id in refused then (present, sofar.1)
    else (present[n.id := Row(n, session)], sofar.1 + [n])
  }

  function OneByOne(rows: Rows, items: seq<Reading>, session: Option<nat>, others: seq<Rows>, refused: set<nat>)
    : (Rows, seq<Reading>)
    requires |others| == |items|
  {
    if items == [] then (rows, [])
    else
      var n := |items| - 1;
      StoreOne(OneByOne(rows, items[..n], session, others[..n], refused), items[n], session, others[n], refused)
  }

  function AllKeys(others: seq<Rows>): set<nat> {
    if others == [] then {} else AllKeys(others[..|others| - 1]) + others[|others| - 1].Keys
  }

  lemma {:induction false} OneByOneKeys(
    rows: Rows, items: seq<Reading>, session: Option<nat>, others: seq<Rows>, refused: set<nat>)
    requires |others| == |items|
    ensures var after := OneByOne(rows, items, session, others, refused).0;
      && after.Keys == rows.Keys + AllKeys(others) + (IdsOf(items) - refused)
      && (forall id :: id in rows ==> after[id] == rows[id])
  {
    if items != [] {
      var n := |items| - 1;
      assert items == items[..n] + [items[n]];
      OneByOneKeys(rows, items[..n], session, others[..n], refused);
      StoreOneKeys(OneByOne(rows, items[..n], session, others[..n], refused), items[n], session, others[n], refused,
                   rows.Keys + AllKeys(others[..n]), items[..n]);
    }
  }

  lemma StoreOneKeys(
    sofar: (Rows, seq<Reading>), n: Reading, session: Option<nat>, others: Rows, refused: set<nat>,
    known: set<nat>, init: seq<Reading>)
    requires sofar.0.Keys == known + (IdsOf(init) - refused)
    ensures var after := StoreOne(sofar, n, session, others, refused).0;
      && after.Keys == known + others.Keys + (IdsOf(init + [n]) - refused)
      && (forall id :: id in sofar.0 ==> after[id] == sofar.0[id])
  {
    IdsOfLast(init, n);
  }

  /** Rows of this batch: readings of it, under ids that were free, stored as they came. */
  predicate Ours(stored: seq<Reading>, rows: Rows, items: seq<Reading>, after: Rows, session: Option<nat>) {
    forall r :: r in stored ==> r in items && r.id !in rows && r.id in after && after[r.id] == Row(r, session)
  }

  lemma {:induction false} OneByOneStored(
    rows: Rows, items: seq<Reading>, session: Option<nat>, others: seq<Rows>, refused: set<nat>)
    requires |others| == |items| && Distinct(items)
    ensures var (after, stored) := OneByOne(rows, items, session, others, refused);
      Ours(stored, rows, items, after, session) && Distinct(stored)
  {
    if items != [] {
      var n := |items| - 1;
      var init, last := items[..n], items[n];
      var sofar := OneByOne(rows, init, session, others[..n], refused);
      OneByOneStored(rows, init, session, others[..n], refused);
      OneByOneKeys(rows, init, session, others[..n], refused);
      LastIsNew(init, last, items);
      StoreOneIsOurs(sofar, last, session, others[n], refused, rows, init, items);
    }
  }

  lemma StoreOneIsOurs(
    sofar: (Rows, seq<Reading>), n: Reading, session: Option<nat>, others: Rows, refused: set<nat>,
    rows: Rows, init: seq<Reading>, items: seq<Reading>)
    requires Ours(sofar.1, rows, init, sofar.0, session) && Distinct(sofar.1) && rows.Keys <= sofar.0.Keys
    requires n in items && forall r :: r in init ==> r.id != n.id && r in items
    ensures var (after, stored) := StoreOne(sofar, n, session, others, refused);
      Ours(stored, rows, items, after, session) && Distinct(stored)
  {
    assert n.id !in IdsOf(sofar.1);
    DistinctLonger(sofar.1, n);
  }

  lemma LastIsNew(init: seq<Reading>, last: Reading, items: seq<Reading>)
    requires items == init + [last] && Distinct(items)
    ensures forall r :: r in init ==> r.id != last.id && r in items
    ensures last in items
  {
    forall r | r in init ensures r.id != last.id && r in items {
      var i :| 0 <= i < |init| && init[i] == r;
      assert items[i] == r && items[|init|] == last;
    }
    assert items[|init|] == last;
  }

  /** Every id of the batch is stored by it, or was taken, or its row was refused. */
  lemma {:induction false} OneByOneMissing(
    rows: Rows, items: seq<Reading>, session: Option<nat>, others: seq<Rows>, refused: set<nat>)
    requires |others| == |items|
    ensures IdsOf(items)
         <= IdsOf(OneByOne(rows, items, session, others, refused).1) + rows.Keys + AllKeys(others) + refused
  {
    if items != [] {
      var n := |items| - 1;
      var init, last := items[..n], items[n];
      var sofar := OneByOne(rows, init, session, others[..n], refused);
      assert items == init + [last];
      IdsOfLast(init, last);
      OneByOneMissing(rows, init, session, others[..n], refused);
      OneByOneKeys(rows, init, session, others[..n], refused);
      IdsOfLast(sofar.1, last);
    }
  }

  /** In a batch without duplicates a reading that is not stored has an id that is not stored either. */
  lemma MissedById(stored: seq<Reading>, items: seq<Reading>, otherwise: set<nat>)
    requires Distinct(items) && (forall r :: r in stored ==> r in items) && IdsOf(items) <= IdsOf(stored) + otherwise
    ensures forall n :: n in items && n !in stored ==> n.id in otherwise
  {
    forall n | n in items && n !in stored ensures n.id in otherwise {
      assert n.id in IdsOf(items);
    }
  }

  /** However other writers interleave, the ids end as old + theirs + the batch's, no row is overwritten,
  and the readings counted are exactly those whose rows came from this batch. */
  lemma OneByOneMeaning(
    rows: Rows, items: seq<Reading>, session: Option<nat>, others: seq<Rows>, refused: set<nat>)
    requires |others| == |items| && Distinct(items)
    ensures var (after, stored) := OneByOne(rows, items, session, others, refused);
      && after.Keys == rows.Keys + AllKeys(others) + (IdsOf(items) - refused)
      && (forall id :: id in rows ==> after[id] == rows[id])
      && Ours(stored, rows, items, after, session)
      && (forall r :: r in items && r !in stored ==> r.id in refused || r.id in rows.Keys + AllKeys(others))
      && Distinct(stored)
  {
    OneByOneKeys(rows, items, session, others, refused);
    OneByOneStored(rows, items, session, others, refused);
    OneByOneMissing(rows, items, session, others, refused);
    MissedById(OneByOne(rows, items, session, others, refused).1, items, rows.Keys + AllKeys(others) + refused);
  }

  /** Left alone, one row at a time is the batch. */
  lemma {:induction false} OneByOneAlone(rows: Rows, items: seq<Reading>, session: Option<nat>, others: seq<Rows>)
    requires |others| == |items| && forall i :: 0 <= i < |others| ==> others[i] == map[]
    ensures OneByOne(rows, items, session, others, {}).0 == InsertAbsent(rows, items, session)
  {
    if items != [] {
      var n := |items| - 1;
      OneByOneAlone(rows, items[..n], session, others[..n]);
      var sofar := InsertAbsent(rows, items[..n], session);
      assert others[n] + sofar == sofar;
    }
  }

  // --- The ingestion service ---

  /** `Raised` is a database error that escapes: from the transaction, and then nothing of the batch is
  stored, or from the display fan-out that follows the commit. */
  datatype Ingested = Raised(committed: bool) | Stored(readings: seq<Reading>)

  /** What the rest of the world does during one ingest: rows committed between the lookup and the
  insert, rows committed between the savepoints of the fallback, ids whose rows the database refuses,
  whether such a refusal surfaces before a unique-index clash of the same insert, whether the database
  fails altogether, and whether it fails when a committed row is read back for the display. */
  datatype Surroundings = Surroundings(
    raced: Rows, others: seq<Rows>, refused: set<nat>, refusalFirst: bool, down: bool, fanOutFails: bool)

  /** The insert hits the unique index. */
  predicate Conflict(rows: Rows, items: seq<Reading>, around: Surroundings) {
    exists r :: r in Unique(items) && r.id !in rows && r.id in around.raced
  }

  /** The insert hits a row the database refuses. */
  predicate Refusal(rows: Rows, items: seq<Reading>, around: Surroundings) {
    exists r :: r in Unique(items) && r.id !in rows && r.id in around.refused
  }

  /** The clash is what surfaces, and the rows are retried one by one. */
  predicate FallsBack(rows: Rows, items: seq<Reading>, around: Surroundings) {
    Conflict(rows, items, around) && !(around.refusalFirst && Refusal(rows, items, around))
  }

  /** The transaction of one ingest: the rows it leaves and how it ends, in those surroundings. */
  function Transaction(rows: Rows, items: seq<Reading>, session: Option<nat>, around: Surroundings): (Rows, Ingested)
    requires |around.others| == |Unique(items)|
  {
    var before := around.raced + rows;
    if around.down then
      (before, Raised(false))
    else if FallsBack(rows, items, around) then
      var (after, stored) := OneByOne(before, Unique(items), session, around.others, around.refused);
      (after, Stored(stored))
    else if Refusal(rows, items, around) then
      (before, Raised(false))
    else
      (InsertAbsent(before, items, session), Stored(Fresh(Unique(items), rows.Keys)))
  }

  /** The display fan-out over committed rows. */
  function FanOut(stored: seq<Reading>, around: Surroundings): Ingested {
    if around.fanOutFails && stored != [] then Raised(true) else Stored(stored)
  }

  /** What one ingest leaves and returns. */
  function IngestResult(rows: Rows, items: seq<Reading>, session: Option<nat>, around: Surroundings): (Rows, Ingested)
    requires |around.others| == |Unique(items)|
  {
    var (after, r) := Transaction(rows, items, session, around);
    (after, if r.Stored? then FanOut(r.readings, around) else r)
  }

  /** Rows other writers got in during an ingest. */
  function OtherKeys(rows: Rows, items: seq<Reading>, around: Surroundings): set<nat> {
    around.raced.Keys + if FallsBack(rows, items, around) then AllKeys(around.others) else {}
  }

  /** Whichever path an ingest takes: no row that was there is touched; an error raised by the transaction
  stores nothing of the batch; otherwise the stored ids are the old ones, the other writers' and the
  batch's, only rows the fallback was refused missing, and the readings stored are exactly those whose
  rows are new and ours. They are returned unless reading them back for the display fails. */
  lemma IngestAccounts(rows: Rows, items: seq<Reading>, session: Option<nat>, around: Surroundings)
    requires |around.others| == |Unique(items)|
    ensures var (after, r) := IngestResult(rows, items, session, around);
      var own := Transaction(rows, items, session, around).1;
      && (forall id :: id in rows ==> id in after && after[id] == rows[id])
      && (r == Raised(false) ==> after == around.raced + rows)
      && (r == Raised(true) <==> around.fanOutFails && own.Stored? && own.readings != [])
      && (r != Raised(false) ==> own.Stored? && Accounted(rows, items, session, around, after, own.readings))
      && (r.Stored? ==> r == own)
  {
    if !around.down && FallsBack(rows, items, around) {
      FallbackAccounts(rows, items, session, around);
    } else if !around.down && !Refusal(rows, items, around) {
      BatchAccounts(rows, items, session, around);
    }
  }

  /** A row that appears during an ingest and is not another writer's is one of the batch's, under the
  batch's session. */
  lemma NewRowsAreOurs(rows: Rows, items: seq<Reading>, session: Option<nat>, around: Surroundings, id: nat)
    requires |around.others| == |Unique(items)|
    requires id !in rows.Keys + OtherKeys(rows, items, around)
    ensures var after := IngestResult(rows, items, session, around).0;
      id in after ==>
        id in IdsOf(items) && after[id].reading in items && after[id].reading.id == id && after[id].session == session
  {
    IngestAccounts(rows, items, session, around);
    var (after, r) := IngestResult(rows, items, session, around);
    if id in after && r != Raised(false) {
      var own := Transaction(rows, items, session, around).1.readings;
      assert id in IdsOf(own);
      var n :| n in own && n.id == id;
    }
  }

  predicate Accounted(
    rows: Rows, items: seq<Reading>, session: Option<nat>, around: Surroundings, after: Rows, stored: seq<Reading>)
  {
    && after.Keys == rows.Keys + OtherKeys(rows, items, around)
         + (IdsOf(items) - if FallsBack(rows, items, around) then around.refused else {})
    && Distinct(stored) && Ours(stored, around.raced + rows, items, after, session)
    && (forall id :: id in IdsOf(items) && id !in IdsOf(stored) ==>
          id in rows.Keys + OtherKeys(rows, items, around)
          || (FallsBack(rows, items, around) && id in around.refused))
  }

  /** The ids of the readings that are returned, where no other writer has an id of the batch: all that are
  new and not another writer's. */
  lemma ReturnedIds(rows: Rows, items: seq<Reading>, session: Option<nat>, around: Surroundings)
    requires |around.others| == |Unique(items)| && IngestResult(rows, items, session, around).1.Stored?
    ensures var (after, r) := IngestResult(rows, items, session, around);
      && Distinct(r.readings)
      && (IdsOf(items) !! OtherKeys(rows, items, around) ==>
            IdsOf(r.readings) == after.Keys - rows.Keys - OtherKeys(rows, items, around))
  {
    IngestAccounts(rows, items, session, around);
    var (after, r) := IngestResult(rows, items, session, around);
    OursAreNew(r.readings, around.raced + rows, items, after, session);
    IdsThatAreNew(IdsOf(r.readings), IdsOf(items), rows.Keys, OtherKeys(rows, items, around), after.Keys,
                  if FallsBack(rows, items, around) then around.refused else {});
  }

  lemma OursAreNew(stored: seq<Reading>, rows: Rows, items: seq<Reading>, after: Rows, session: Option<nat>)
    requires Ours(stored, rows, items, after, session)
    ensures IdsOf(stored) <= IdsOf(items) - rows.Keys && IdsOf(stored) <= after.Keys
  {
  }

  lemma IdsThatAreNew(
    stored: set<nat>, batch: set<nat>, known: set<nat>, others: set<nat>, after: set<nat>, refused: set<nat>)
    requires stored <= batch - known && stored <= after && after == known + others + (batch - refused)
    requires forall id :: id in batch && id !in stored ==> id in known + others || id in refused
    ensures batch !! others ==> stored == after - known - others
  {
    forall id | id in after - known - others ensures id in stored {
      assert id in batch;
    }
  }

  lemma FallbackAccounts(rows: Rows, items: seq<Reading>, session: Option<nat>, around: Surroundings)
    requires |around.others| == |Unique(items)| && FallsBack(rows, items, around)
    ensures var (after, stored) :=
      OneByOne(around.raced + rows, Unique(items), session, around.others, around.refused);
      && Accounted(rows, items, session, around, after, stored)
      && forall id :: id in rows ==> id in after && after[id] == rows[id]
  {
    var before, unique := around.raced + rows, Unique(items);
    UniqueIsDistinct(items);
    UniqueIsWithin(items);
    OneByOneMeaning(before, unique, session, around.others, around.refused);
    Unreturned(items, unique, OneByOne(before, unique, session, around.others, around.refused).1);
  }

  lemma BatchAccounts(rows: Rows, items: seq<Reading>, session: Option<nat>, around: Surroundings)
    requires |around.others| == |Unique(items)| && !Conflict(rows, items, around)
    ensures var after := InsertAbsent(around.raced + rows, items, session);
      && Accounted(rows, items, session, around, after, Fresh(Unique(items), rows.Keys))
      && forall id :: id in rows ==> id in after && after[id] == rows[id]
  {
    UniqueIsDistinct(items);
    InsertAbsentMeaning(around.raced + rows, items, session);
    FreshMeaning(Unique(items), rows.Keys);
    FreshAreFirst(rows, items, session, around);
  }

  lemma {:induction false} UniqueIsWithin(items: seq<Reading>)
    ensures forall n :: n in Unique(items) ==> n in items && n == First(items, n.id)
  {
    if items != [] {
      var init, last := items[..|items| - 1], items[|items| - 1];
      assert items == init + [last];
      UniqueIsWithin(init);
      UniqueIsDistinct(init);
      IdsOfLast(init, last);
      forall n | n in Unique(items) ensures n in items && n == First(items, n.id) {
        FirstOfLonger(init, last, n.id);
      }
    }
  }

  lemma Unreturned(items: seq<Reading>, unique: seq<Reading>, returned: seq<Reading>)
    requires IdsOf(unique) == IdsOf(items)
    ensures forall id :: id in IdsOf(items) && id !in IdsOf(returned) ==>
              exists n :: n in unique && n.id == id && n !in returned
  {
    forall id | id in IdsOf(items) && id !in IdsOf(returned)
      ensures exists n :: n in unique && n.id == id && n !in returned
    {
      var n :| n in unique && n.id == id;
      assert n !in returned;
    }
  }

  lemma FreshAreFirst(rows: Rows, items: seq<Reading>, session: Option<nat>, around: Surroundings)
    requires !Conflict(rows, items, around)
    ensures forall n :: n in Fresh(Unique(items), rows.Keys) ==>
              && n in items && n.id !in (around.raced + rows)
              && n.id in InsertAbsent(around.raced + rows, items, session)
              && InsertAbsent(around.raced + rows, items, session)[n.id] == Row(n, session)
  {
    var before := around.raced + rows;
    InsertAbsentMeaning(before, items, session);
    UniqueIsDistinct(items);
    UniqueIsWithin(items);
    FreshMeaning(Unique(items), rows.Keys);
    forall n | n in Fresh(Unique(items), rows.Keys) ensures n in items && n.id !in before && n.id in IdsOf(items) {
      assert n in Unique(items);
    }
  }

  /** The batch path's insert: it clashes, is refused, or does what inserting the batch would. */
  lemma BatchInsert(rows: Rows, items: seq<Reading>, session: Option<nat>, around: Surroundings)
    ensures var added, before := Fresh(Unique(items), rows.Keys), around.raced + rows;
      && Distinct(added)
      && (Conflict(rows, items, around) <==> exists n :: n in added && n.id in before)
      && (Refusal(rows, items, around) <==> exists n :: n in added && n.id in around.refused)
      && InsertAbsent(before, added, session) == InsertAbsent(before, items, session)
  {
    UniqueIsDistinct(items);
    FreshMeaning(Unique(items), rows.Keys);
    UniqueInsertsTheSame(around.raced + rows, items, session);
    FreshInsertsTheSame(around.raced + rows, Unique(items), session, rows.Keys);
  }

  class ReadingStore {
    var rows: Rows

    constructor (rows: Rows)
      ensures this.rows == rows
    {
      this.rows := rows;
    }

    /** Ids of a batch that are already stored, looked up 500 at a time. */
    method ExistingIds(ids: seq<nat>) returns (found: set<nat>)
      ensures found == set id | id in ids && id in rows
    {
      found := {};
      var start := 0;
      while start < |ids|
        invariant 0 <= start
        invariant start <= |ids| ==> found == set id | id in ids[..start] && id in rows
        invariant start > |ids| ==> found == set id | id in ids && id in rows
      {
        var stop := if start + 500 < |ids| then start + 500 else |ids|;
        var window := ids[start..stop];
        assert ids[..stop] == ids[..start] + window;
        found := found + set id | id in window && id in rows;
        assert stop == |ids| ==> ids[..stop] == ids;
        start := start + 500;
      }
      assert ids[..|ids|] == ids;
    }

    /** Rows one after the other, each isolated from the others' failures. */
    method IngestRowsIndividually(
      items: seq<Reading>, session: Option<nat>, others: seq<Rows>, refused: set<nat>)
      returns (stored: seq<Reading>)
      requires |others| == |items|
      modifies this
      ensures (rows, stored) == OneByOne(old(rows), items, session, others, refused)
    {
      stored := [];
      for i := 0 to |items|
        invariant (rows, stored) == OneByOne(old(rows), items[..i], session, others[..i], refused)
      {
        assert items[..i + 1][..i] == items[..i] && others[..i + 1][..i] == others[..i];
        rows := others[i] + rows;
        if items[i].id in rows {
          continue;
        }
        if items[i].id in refused {
          continue;
        }
        rows := rows[items[i].id := Row(items[i], session)];
        stored := stored + [items[i]];
      }
      assert items[..|items|] == items && others[..|items|] == others;
    }

    /** A whole batch: one lookup, one insert; on a unique-index race, one row at a time. */
    method IngestBatch(items: seq<Reading>, session: Option<nat>, around: Surroundings) returns (r: Ingested)
      requires |around.others| == |Unique(items)|
      modifies this
      ensures (rows, r) == IngestResult(old(rows), items, session, around)
    {
      ghost var was := rows;
      var unique := CollapseDuplicates(items);
      var ids := Ids(unique);
      var existing := ExistingIds(ids);
      var added := Select(unique, existing);
      FreshOfKnown(unique, existing, was.Keys);
      // Other writers commit between the lookup and the insert.
      rows := around.raced + rows;
      if around.down {
        return Raised(false);
      }
      BatchInsert(was, items, session, around);
      var clash := exists n :: n in added && n.id in rows;
      var refusal := exists n :: n in added && n.id in around.refused;
      if clash && !(around.refusalFirst && refusal) {
        var stored := IngestRowsIndividually(unique, session, around.others, around.refused);
        return FanOut(stored, around);
      }
      if refusal {
        return Raised(false);
      }
      InsertAll(added, session);
      r := FanOut(added, around);
    }

    /** The batch entry point: the target session is resolved once, for the whole batch. */
    method IngestNormalizedBatch(items: seq<Reading>, sessions: map<nat, Session>, around: Surroundings)
      returns (r: Ingested, ghost target: Option<nat>)
      requires items != [] && |around.others| == |Unique(items)|
      modifies this
      ensures IsTarget(sessions, FirstHint(items), target)
      ensures (rows, r) == IngestResult(old(rows), items, target, around)
    {
      var session := ResolveTargetSession(sessions, FirstHint(items));
      target := session;
      r := IngestBatch(items, session, around);
    }

    method InsertAll(added: seq<Reading>, session: Option<nat>)
      requires forall n :: n in added ==> n.id !in rows
      requires Distinct(added)
      modifies this
      ensures rows == InsertAbsent(old(rows), added, session)
    {
      for i := 0 to |added|
        invariant rows == InsertAbsent(old(rows), added[..i], session)
        invariant forall j :: i <= j < |added| ==> added[j].id !in rows
      {
        assert added[..i + 1][..i] == added[..i];
        rows := rows[added[i].id := Row(added[i], session)];
      }
      assert added[..|added|] == added;
    }
  }

  method Ids(items: seq<Reading>) returns (ids: seq<nat>)
    ensures |ids| == |items| && forall i :: 0 <= i < |items| ==> ids[i] == items[i].id
  {
    ids := seq(|items|, i requires 0 <= i < |items| => items[i].id);
  }

  method Select(items: seq<Reading>, known: set<nat>) returns (added: seq<Reading>)
    ensures added == Fresh(items, known)
  {
    added := [];
    for i := 0 to |items|
      invariant added == Fresh(items[..i], known)
    {
      assert items[..i + 1][..i] == items[..i];
      if items[i].id !in known {
        added := added + [items[i]];
      }
    }
    assert items[..|items|] == items;
  }

  lemma {:induction false} FreshOfKnown(items: seq<Reading>, known: set<nat>, stored: set<nat>)
    requires forall r :: r in items ==> (r.id in known <==> r.id in stored)
    ensures Fresh(items, known) == Fresh(items, stored)
  {
    if items != [] {
      assert items[|items| - 1] in items;
      FreshOfKnown(items[..|items| - 1], known, stored);
    }
  }
}
