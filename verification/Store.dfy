/** The rows kept by the SQLite store: entities, events, their insertion, and the
    join that reads them back grouped by entity (pkg/store). */
module Store {

  datatype EntityType = Pvc | Pod | StatefulSet | Unknown

  datatype EventType =
    | PvcAdded | PvcBound
    | PvcAttachStarted | PvcAttachEnded
    | PvcUnattachStarted | PvcUnattachEnded
    | PvcDeletingStarted | PvcDeletingEnded
    | PodAdded | PodReady | PodTerminating | PodDeleted

  /** An id of 0 means that the entity never received a row. */
  datatype Entity = Entity(id: int, name: string, uid: string, tcId: int, kind: EntityType)

  /** The random event name and the test-case id, which no reader uses, are dropped. */
  datatype Event = Event(entityId: int, kind: EventType, timestamp: int)

  datatype Db = Db(entities: seq<Entity>, events: seq<Event>)

  // ---------------------------------------------------------------- insertion

  predicate UidTaken(db: Db, uid: string) {
    exists i :: 0 <= i < |db.entities| && db.entities[i].uid == uid
  }

  /** One INSERT: a k8s UID that already has a row violates the UNIQUE constraint. */
  function InsertEntity(db: Db, e: Entity): (Db, Entity) {
    if UidTaken(db, e.uid) then (db, e)
    else
      var row := e.(id := |db.entities| + 1);
      (db.(entities := db.entities + [row]), row)
  }

  /** Rows carry consecutive ids and pairwise distinct UIDs. */
  ghost predicate WellFormed(db: Db) {
    && (forall i :: 0 <= i < |db.entities| ==> db.entities[i].id == i + 1)
    && (forall i, j :: 0 <= i < j < |db.entities| ==> db.entities[i].uid != db.entities[j].uid)
  }

  datatype Inserted = Inserted(db: Db, entities: seq<Entity>, ok: bool)

  /** What inserting es[i..] one after the other leaves behind: ids are written into the
      passed entities, and the first failure ends it. */
  function InsertFrom(db: Db, es: seq<Entity>, i: nat): Inserted
    requires i <= |es|
    decreases |es| - i
  {
    if i == |es| then Inserted(db, es, true)
    else if UidTaken(db, es[i].uid) then Inserted(db, es, false)
    else
      var (db', e') := InsertEntity(db, es[i]);
      InsertFrom(db', es[i := e'], i + 1)
  }

  method SaveEntities(db: Db, entities: array<Entity>) returns (db': Db, ok: bool)
    modifies entities
    ensures Inserted(db', entities[..], ok) == InsertFrom(db, old(entities[..]), 0)
  {
    db', ok := db, true;
    var i := 0;
    while i < entities.Length
      invariant 0 <= i <= entities.Length && ok
      invariant InsertFrom(db', entities[..], i) == InsertFrom(db, old(entities[..]), 0)
    {
      if UidTaken(db', entities[i].uid) {
        ok := false;
        return;
      }
      ghost var before := entities[..];
      var (d, e) := InsertEntity(db', entities[i]);
      db', entities[i] := d, e;
      assert entities[..] == before[i := e];
      i := i + 1;
    }
  }

  /** The UIDs of es[i..] are not taken and do not repeat. */
  predicate AllNew(db: Db, es: seq<Entity>, i: nat)
    requires i <= |es|
    decreases |es| - i
  {
    i == |es| || (!UidTaken(db, es[i].uid) && AllNew(InsertEntity(db, es[i]).0, es, i + 1))
  }

  /** In terms of the UIDs alone. */
  lemma {:induction false} AllNewMeans(db: Db, es: seq<Entity>, i: nat)
    requires i <= |es|
    ensures AllNew(db, es, i)
       <==> && (forall k :: i <= k < |es| ==> !UidTaken(db, es[k].uid))
            && (forall j, k :: i <= j < k < |es| ==> es[j].uid != es[k].uid)
    decreases |es| - i
  {
    if i < |es| && !UidTaken(db, es[i].uid) {
      var db' := InsertEntity(db, es[i]).0;
      AllNewMeans(db', es, i + 1);
      forall k | i < k < |es| ensures UidTaken(db', es[k].uid) <==> UidTaken(db, es[k].uid) || es[k].uid == es[i].uid {
        UidTakenAfterInsert(db, es[i], es[k].uid);
      }
    }
  }

  lemma {:induction false} AllNewSame(db: Db, es: seq<Entity>, fs: seq<Entity>, i: nat)
    requires i <= |es| == |fs| && es[i..] == fs[i..]
    ensures AllNew(db, es, i) == AllNew(db, fs, i)
    decreases |es| - i
  {
    if i < |es| {
      assert es[i..][0] == fs[i..][0] && es[i..][1..] == es[i + 1..] && fs[i..][1..] == fs[i + 1..];
      AllNewSame(InsertEntity(db, es[i]).0, es, fs, i + 1);
    }
  }

  /** Insertion succeeds exactly when no UID is taken or repeated; then every entity gets the next
      fresh id and the table grows by exactly the inserted rows. */
  lemma {:induction false} InsertionSucceeds(db: Db, es: seq<Entity>, i: nat)
    requires WellFormed(db) && i <= |es|
    ensures var r := InsertFrom(db, es, i);
            && WellFormed(r.db) && |r.entities| == |es|
            && (r.ok <==> AllNew(db, es, i))
            && (forall k :: 0 <= k < i ==> r.entities[k] == es[k])
            && (r.ok ==>
                  && r.db.entities == db.entities + r.entities[i..]
                  && forall k :: i <= k < |es| ==> r.entities[k] == es[k].(id := |db.entities| + 1 + k - i))
    decreases |es| - i
  {
    if i < |es| && !UidTaken(db, es[i].uid) {
      var (db', e') := InsertEntity(db, es[i]);
      InsertKeepsWellFormed(db, es[i]);
      var es' := es[i := e'];
      InsertionSucceeds(db', es', i + 1);
      AllNewSame(db', es, es', i + 1);
      var r := InsertFrom(db', es', i + 1);
      if r.ok {
        assert r.entities[i..] == [e'] + r.entities[i + 1..];
        assert db.entities + r.entities[i..] == db'.entities + r.entities[i + 1..];
      }
    }
  }

  lemma InsertKeepsWellFormed(db: Db, e: Entity)
    requires WellFormed(db)
    ensures WellFormed(InsertEntity(db, e).0)
  {
  }

  lemma UidTakenAfterInsert(db: Db, e: Entity, u: string)
    requires !UidTaken(db, e.uid)
    ensures UidTaken(InsertEntity(db, e).0, u) <==> UidTaken(db, u) || u == e.uid
  {
    var (db', e') := InsertEntity(db, e);
    if UidTaken(db, u) {
      var i :| 0 <= i < |db.entities| && db.entities[i].uid == u;
      assert db'.entities[i].uid == u;
    }
    assert db'.entities[|db.entities|] == e';
  }

  /** The uid has no row, nor will it get one from inserting those announced. */
  predicate IsNew(db: Db, announced: set<string>, uid: string) {
    !UidTaken(db, uid) && uid !in announced
  }

  /** Rows for the announced UIDs have been added, as many as there were new ones, and no event. */
  ghost predicate GrownBy(db: Db, announced: set<string>, rows: nat, db': Db) {
    && db'.events == db.events && db.entities <= db'.entities && |db'.entities| == |db.entities| + rows
    && forall u :: UidTaken(db', u) <==> !IsNew(db, announced, u)
  }

  lemma InsertGrows(db: Db, announced: set<string>, rows: nat, db': Db, e: Entity)
    requires GrownBy(db, announced, rows, db')
    ensures var (grown, row) := InsertEntity(db', e);
            if IsNew(db, announced, e.uid) then
              GrownBy(db, announced + {e.uid}, rows + 1, grown) && row == e.(id := |db.entities| + rows + 1)
            else
              GrownBy(db, announced + {e.uid}, rows, grown) && row == e
  {
    if IsNew(db, announced, e.uid) {
      forall u ensures UidTaken(InsertEntity(db', e).0, u) <==> UidTaken(db', u) || u == e.uid {
        UidTakenAfterInsert(db', e, u);
      }
    }
  }

  /** What saving a log makes of the database. */
  function InsertEvents(db: Db, events: seq<Event>): Db {
    db.(events := db.events + events)
  }

  /** SaveEvents inserts event by event: behind it the stored events are those stored before, followed
      by the log, and the entities are untouched. */
  method SaveEvents(db: Db, events: seq<Event>) returns (db': Db)
    ensures db'.events == db.events + events && db'.entities == db.entities
    ensures db' == InsertEvents(db, events)
  {
    db' := db;
    for i := 0 to |events|
      invariant db'.events == db.events + events[..i] && db'.entities == db.entities
    {
      assert events[..i + 1] == events[..i] + [events[i]];
      db' := db'.(events := db'.events + [events[i]]);
    }
    assert events[..|events|] == events;
  }

  // ------------------------------------------------------- reading back, grouped

  /** A joined row; Unscanned is one whose Scan failed and which is skipped. */
  datatype Row = Unscanned | Row(entity: Entity, event: Event)

  /** The events of the rows that belong to e, in row order. */
  function EventsOf(rows: seq<Row>, e: Entity): seq<Event> {
    if rows == [] then []
    else
      var rest := EventsOf(rows[..|rows| - 1], e);
      var last := rows[|rows| - 1];
      if last.Row? && last.entity == e then rest + [last.event] else rest
  }

  /** The row-grouping loop of GetEntitiesWithEventsByTestCaseAndEntityType. */
  method GroupRows(rows: seq<Row>) returns (ewe: map<Entity, seq<Event>>)
    ensures forall e :: e in ewe ==> ewe[e] == EventsOf(rows, e)
    ensures forall e :: e in ewe <==> EventsOf(rows, e) != []
  {
    ewe := map[];
    var i := 0;
    while i < |rows|
      invariant 0 <= i <= |rows|
      invariant forall e :: e in ewe ==> ewe[e] == EventsOf(rows[..i], e)
      invariant forall e :: e in ewe <==> EventsOf(rows[..i], e) != []
    {
      assert rows[..i + 1][..i] == rows[..i];
      if rows[i].Row? {
        var en, ev := rows[i].entity, rows[i].event;
        if en in ewe {
          ewe := ewe[en := ewe[en] + [ev]];
        } else {
          ewe := ewe[en := [ev]];
        }
      }
      i := i + 1;
    }
    assert rows[..i] == rows;
  }

  lemma {:induction false} EventsOfAppend(rows: seq<Row>, more: seq<Row>, e: Entity)
    ensures EventsOf(rows + more, e) == EventsOf(rows, e) + EventsOf(more, e)
  {
    if more == [] {
      assert rows + more == rows;
    } else {
      EventsOfAppend(rows, more[..|more| - 1], e);
      assert (rows + more)[..|rows + more| - 1] == rows + more[..|more| - 1];
    }
  }

  /** A group keeps the order of the rows: the event of row i stands behind the events of the rows before
      it and before those of the rows behind it. */
  lemma GroupKeepsOrder(rows: seq<Row>, e: Entity, i: nat)
    requires i < |rows|
    ensures EventsOf(rows, e)
         == EventsOf(rows[..i], e) + (if rows[i].Row? && rows[i].entity == e then [rows[i].event] else []) + EventsOf(rows[i + 1..], e)
  {
    EventsOfAppend(rows[..i], [rows[i]], e);
    EventsOfAppend(rows[..i] + [rows[i]], rows[i + 1..], e);
    assert [rows[i]][..0] == [];
    assert rows == rows[..i] + [rows[i]] + rows[i + 1..];
  }

  function Scanned(rows: seq<Row>): nat {
    if rows == [] then 0
    else Scanned(rows[..|rows| - 1]) + if rows[|rows| - 1].Row? then 1 else 0
  }

  function GroupSizes(keys: seq<Entity>, rows: seq<Row>): nat {
    if keys == [] then 0 else |EventsOf(rows, keys[0])| + GroupSizes(keys[1..], rows)
  }

  ghost predicate Distinct<T>(s: seq<T>) {
    forall i, j :: 0 <= i < j < |s| ==> s[i] != s[j]
  }

  /** Grouping conserves rows: over any enumeration of the keys, the group sizes add up to
      the number of scanned rows. */
  lemma {:induction false} GroupingConserves(keys: seq<Entity>, rows: seq<Row>)
    requires Distinct(keys)
    requires forall i :: 0 <= i < |rows| && rows[i].Row? ==> rows[i].entity in keys
    ensures GroupSizes(keys, rows) == Scanned(rows)
  {
    if rows == [] {
      EmptyGroups(keys);
    } else {
      GroupingConserves(keys, rows[..|rows| - 1]);
      OneGroupGrows(keys, rows);
    }
  }

  lemma {:induction false} EmptyGroups(keys: seq<Entity>)
    ensures GroupSizes(keys, []) == 0
  {
    if keys == [] {
    } else {
      EmptyGroups(keys[1..]);
    }
  }

  lemma {:induction false} OneGroupGrows(keys: seq<Entity>, rows: seq<Row>)
    requires Distinct(keys) && rows != []
    ensures var last := rows[|rows| - 1];
            GroupSizes(keys, rows) == GroupSizes(keys, rows[..|rows| - 1])
                                      + if last.Row? && last.entity in keys then 1 else 0
  {
    if keys == [] {
    } else {
      OneGroupGrows(keys[1..], rows);
      var last := rows[|rows| - 1];
      assert keys == [keys[0]] + keys[1..];
      if last.Row? && last.entity in keys[1..] { assert keys[0] != last.entity; }
    }
  }

  /** The rows the query may return: one per (entity of the kind and test case, event of that
      entity), in an order that the statement fixes only between entities. */
  ghost predicate IsQueryResult(db: Db, tcId: int, kind: EntityType, rows: seq<Row>) {
    forall e: Entity, ev: Event ::
      multiset(rows)[Row(e, ev)]
      == if e in db.entities && e.kind == kind && e.tcId == tcId && ev.entityId == e.id
         then multiset(db.events)[ev] else 0
  }

  lemma {:induction false} CountInGroup(rows: seq<Row>, e: Entity, ev: Event)
    ensures multiset(EventsOf(rows, e))[ev] == multiset(rows)[Row(e, ev)]
  {
    if rows == [] {
    } else {
      var front, last := rows[..|rows| - 1], rows[|rows| - 1];
      CountInGroup(front, e, ev);
      assert rows == front + [last];
    }
  }

  /** Whatever order the rows come in, the group of a stored entity holds exactly the stored
      events that name its id, each as often as it was stored. */
  lemma GroupIsStoredEvents(db: Db, tcId: int, kind: EntityType, rows: seq<Row>, e: Entity)
    requires IsQueryResult(db, tcId, kind, rows)
    ensures e in db.entities && e.kind == kind && e.tcId == tcId ==>
              forall ev: Event :: multiset(EventsOf(rows, e))[ev]
                               == if ev.entityId == e.id then multiset(db.events)[ev] else 0
    ensures !(e in db.entities && e.kind == kind && e.tcId == tcId) ==> EventsOf(rows, e) == []
  {
    forall ev: Event
      ensures multiset(EventsOf(rows, e))[ev] == multiset(rows)[Row(e, ev)]
    {
      CountInGroup(rows, e, ev);
    }
    if !(e in db.entities && e.kind == kind && e.tcId == tcId) && EventsOf(rows, e) != [] {
      var ev := EventsOf(rows, e)[0];
      assert ev in multiset(EventsOf(rows, e));
      assert false;
    }
  }
}
