/** What the observers of pkg/observer share: the watch stream, the polled snapshots, the
    fields of the Runner they touch, and counting over an event log. */
module Observer {
  import opened Store

  datatype Option<+T> = None | Some(value: T)

  datatype WatchKind = Added | Modified | Deleted | Other

  /** One value received from a watch channel. */
  datatype WatchData<+T> = NilObject | WrongType | Change(kind: WatchKind, obj: T)

  /** The two cases of the select statement in a watch loop. */
  datatype Input<+T> = Finish | Data(data: WatchData<T>)

  /** Crashed is a nil entity dereference, which ends the whole process. */
  datatype Phase = Looping | Draining | Returned | Crashed

  /** One poll: the listed objects and the order in which the runtime ranges over previousState. */
  datatype Poll<+T> = Poll(items: seq<T>, order: seq<string>)

  /** The part of observer.Runner that observers read and write. */
  class Runner {
    const tcId: int
    var database: Db
    var pvcShare: map<string, Entity>
    var shouldClean: bool

    constructor (tcId: int, database: Db, shouldClean: bool)
      ensures this.tcId == tcId && this.database == database
      ensures this.shouldClean == shouldClean && pvcShare == map[]
    {
      this.tcId, this.database, this.shouldClean, this.pvcShare := tcId, database, shouldClean, map[];
    }
  }

  ghost predicate Enumerates(order: seq<string>, names: set<string>) {
    Distinct(order) && forall n :: n in order <==> n in names
  }

  lemma {:induction false} EnumerationSize(order: seq<string>, names: set<string>)
    requires Enumerates(order, names)
    ensures |order| == |names|
  {
    if order == [] {
      assert names == {};
    } else {
      var front, last := order[..|order| - 1], order[|order| - 1];
      assert order == front + [last];
      EnumerationSize(front, names - {last});
    }
  }

  function Count(log: seq<Event>, kind: EventType, id: int): nat {
    if log == [] then 0
    else
      var last := log[|log| - 1];
      Count(log[..|log| - 1], kind, id) + if last.kind == kind && last.entityId == id then 1 else 0
  }

  lemma CountSnoc(log: seq<Event>, e: Event, kind: EventType, id: int)
    ensures Count(log + [e], kind, id)
         == Count(log, kind, id) + if e.kind == kind && e.entityId == id then 1 else 0
  {
    assert (log + [e])[..|log|] == log;
  }

  /** How often the log has an event of the kind. */
  function KindCount(log: seq<Event>, kind: EventType): nat {
    if log == [] then 0 else KindCount(log[..|log| - 1], kind) + if log[|log| - 1].kind == kind then 1 else 0
  }

  lemma KindCountSnoc(log: seq<Event>, e: Event, kind: EventType)
    ensures KindCount(log + [e], kind) == KindCount(log, kind) + if e.kind == kind then 1 else 0
  {
    assert (log + [e])[..|log|] == log;
  }

  /** How often the log has the event. */
  function Times(log: seq<Event>, e: Event): nat {
    if log == [] then 0 else Times(log[..|log| - 1], e) + if log[|log| - 1] == e then 1 else 0
  }

  lemma TimesSnoc(log: seq<Event>, x: Event, e: Event)
    ensures Times(log + [x], e) == Times(log, e) + if x == e then 1 else 0
  {
    assert (log + [x])[..|log|] == log;
  }

  lemma {:induction false} TimesAppend(log: seq<Event>, more: seq<Event>, e: Event)
    ensures Times(log + more, e) == Times(log, e) + Times(more, e)
  {
    if more == [] {
      assert log + more == log;
    } else {
      TimesAppend(log, more[..|more| - 1], e);
      assert (log + more)[..|log + more| - 1] == log + more[..|more| - 1];
    }
  }

  /** Each event carries the time at which the log had grown to it. */
  predicate Clocked(log: seq<Event>, clock: nat -> int) {
    forall k :: 0 <= k < |log| ==> log[k].timestamp == clock(k)
  }

  /** How many changes of the kind a stream holds. */
  function Changes<T>(stream: seq<WatchData<T>>, kind: WatchKind): nat {
    if stream == [] then 0
    else
      var d := stream[|stream| - 1];
      Changes(stream[..|stream| - 1], kind) + if d.Change? && d.kind == kind then 1 else 0
  }

  /** The names among names whose entity carries id. */
  function Owners(entities: map<string, Entity>, names: set<string>, id: int): set<string> {
    set n | n in names && n in entities && entities[n].id == id
  }

  lemma OwnersGain(entities: map<string, Entity>, names: set<string>, n: string, id: int)
    requires n !in names && n in entities
    ensures |Owners(entities, names + {n}, id)|
         == |Owners(entities, names, id)| + if entities[n].id == id then 1 else 0
  {
    if entities[n].id == id {
      assert Owners(entities, names + {n}, id) == Owners(entities, names, id) + {n};
    } else {
      assert Owners(entities, names + {n}, id) == Owners(entities, names, id);
    }
  }

  lemma OwnersStable(entities: map<string, Entity>, more: map<string, Entity>, names: set<string>, id: int)
    requires names <= entities.Keys <= more.Keys
    requires forall n :: n in entities ==> more[n] == entities[n]
    ensures Owners(more, names, id) == Owners(entities, names, id)
  {
  }

  /** No event precedes the first event of kind first for its entity. */
  predicate Ordered(log: seq<Event>, first: EventType) {
    log == [] ||
    var front, last := log[..|log| - 1], log[|log| - 1];
    Ordered(front, first) && (last.kind == first || Count(front, first, last.entityId) > 0)
  }

  lemma OrderedSnoc(log: seq<Event>, e: Event, first: EventType)
    requires Ordered(log, first) && (e.kind == first || Count(log, first, e.entityId) > 0)
    ensures Ordered(log + [e], first)
  {
    assert (log + [e])[..|log|] == log;
  }

  /** What Ordered means position by position. */
  lemma {:induction false} OrderedMeans(log: seq<Event>, first: EventType, i: nat)
    requires Ordered(log, first) && i < |log|
    ensures log[i].kind == first
         || exists j :: 0 <= j < i && log[j].kind == first && log[j].entityId == log[i].entityId
  {
    var front := log[..|log| - 1];
    if i == |log| - 1 {
      if log[i].kind != first {
        var j := CountedAt(front, first, log[i].entityId);
        assert log[j] == front[j];
      }
    } else {
      OrderedMeans(front, first, i);
      assert log[i] == front[i];
      if log[i].kind != first {
        var j :| 0 <= j < i && front[j].kind == first && front[j].entityId == front[i].entityId;
        assert log[j] == front[j];
      }
    }
  }

  lemma {:induction false} CountedAt(log: seq<Event>, kind: EventType, id: int) returns (j: nat)
    requires Count(log, kind, id) > 0
    ensures j < |log| && log[j].kind == kind && log[j].entityId == id
  {
    var last := log[|log| - 1];
    if last.kind == kind && last.entityId == id {
      j := |log| - 1;
    } else {
      j := CountedAt(log[..|log| - 1], kind, id);
    }
  }
}
