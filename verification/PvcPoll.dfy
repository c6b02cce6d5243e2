/** The polled PVC observer (pkg/observer/pvc_alt.go) and what it shares with the watch-driven one. */
module PvcPoll {
  import opened Store
  import opened Observer
  import opened PvcWatch

  datatype ListState = ListState(
    tcId: int,
    db: Db,
    share: map<string, Entity>,
    events: seq<Event>,
    entities: map<string, Entity>,
    added: set<string>,
    bound: set<string>,
    deleting: set<string>,
    previous: set<string>,
    saved: seq<seq<Event>>,
    phase: Phase)

  function ListInit(tcId: int, db: Db, share: map<string, Entity>): ListState {
    ListState(tcId, db, share, [], map[], {}, {}, {}, {}, [], Looping)
  }

  function ListLog(s: ListState, name: string, kind: EventType, now: int): ListState {
    if name in s.entities then s.(events := s.events + [Event(s.entities[name].id, kind, now)])
    else s.(phase := Crashed)
  }

  function OnItem(s: ListState, pvc: PvcObject, now: int): ListState {
    if s.phase == Crashed then s
    else if pvc.name !in s.added then
      var (db', e) := InsertEntity(s.db, Entity(0, pvc.name, pvc.uid, s.tcId, EntityType.Pvc));
      s.(db := db', entities := s.entities[pvc.name := e],
         events := s.events + [Event(e.id, PvcAdded, now)], added := s.added + {pvc.name})
    else if pvc.bound && pvc.name !in s.bound then
      var t := ListLog(s.(bound := s.bound + {pvc.name}), pvc.name, PvcBound, now);
      if t.phase == Crashed then t else t.(share := t.share[pvc.volume := t.entities[pvc.name]])
    else if pvc.deleting && pvc.name !in s.deleting then
      ListLog(s.(deleting := s.deleting + {pvc.name}), pvc.name, PvcDeletingStarted, now)
    else s
  }

  function OnItems(s: ListState, items: seq<PvcObject>, clock: nat -> int): ListState {
    if items == [] then s
    else
      var t := OnItems(s, items[..|items| - 1], clock);
      OnItem(t, items[|items| - 1], clock(|t.events|))
  }

  function OnPrevious(s: ListState, current: set<string>, name: string, now: int): ListState {
    if s.phase == Crashed || name in current then s
    else
      var t := ListLog(s, name, PvcDeletingEnded, now);
      if t.phase == Crashed then t else t.(previous := t.previous - {name})
  }

  function OnVanished(s: ListState, current: set<string>, order: seq<string>, clock: nat -> int): ListState {
    if order == [] then s
    else
      var t := OnVanished(s, current, order[..|order| - 1], clock);
      OnPrevious(t, current, order[|order| - 1], clock(|t.events|))
  }

  /** currentState is made for every poll and never written. */
  const CURRENT_STATE: set<string> := {}

  function OnPoll(s: ListState, poll: Poll<PvcObject>, clock: nat -> int): ListState {
    var t := OnVanished(OnItems(s, poll.items, clock), CURRENT_STATE, poll.order, clock);
    if t.phase == Crashed then t else t.(previous := t.previous + CURRENT_STATE)
  }

  function ListFinish(s: ListState): ListState {
    s.(db := InsertEvents(s.db, s.events), saved := s.saved + [s.events], phase := Returned)
  }

  class PvcListObserver {
    var events: seq<Event>
    var entities: map<string, Entity>
    var addedPVCs: set<string>
    var boundPVCs: set<string>
    var deletingPVCs: set<string>
    var previousState: set<string>
    var saved: seq<seq<Event>>
    var phase: Phase

    ghost function View(runner: Runner): ListState
      reads this, runner
    {
      ListState(runner.tcId, runner.database, runner.pvcShare, events, entities, addedPVCs, boundPVCs,
                deletingPVCs, previousState, saved, phase)
    }

    constructor (runner: Runner)
      ensures View(runner) == ListInit(runner.tcId, runner.database, runner.pvcShare)
    {
      events, entities, addedPVCs, boundPVCs := [], map[], {}, {};
      deletingPVCs, previousState, saved, phase := {}, {}, [], Looping;
    }

    /** The polled closure; see PodListObserver.PollOnce. */
    method PollOnce(runner: Runner, finished: bool, list: Option<seq<PvcObject>>, clock: nat -> int)
      requires phase == Looping
      modifies this, runner`database, runner`pvcShare
      ensures finished ==> View(runner) == ListFinish(old(View(runner)))
      ensures runner.database.events == old(runner.database.events) + if finished then events else []
      ensures finished || list == None ==> runner.database.entities == old(runner.database.entities)
      ensures !finished && list == None ==> View(runner) == old(View(runner)).(phase := Returned)
      ensures !finished && list.Some? ==>
                exists order :: Enumerates(order, old(previousState))
                  && View(runner) == OnPoll(old(View(runner)), Poll(list.value, order), clock)
    {
      if finished {
        runner.database := SaveEvents(runner.database, events);
        saved := saved + [events];
        phase := Returned;
        return;
      }
      if list == None {
        phase := Returned;
        return;
      }
      ghost var start := View(runner);
      ghost var order := ProcessList(runner, list.value, clock);
      PollOnlyLogs(start, Poll(list.value, order), clock);
    }

    /** A list that was answered: its items, and then the names listed before. */
    method ProcessList(runner: Runner, items: seq<PvcObject>, clock: nat -> int) returns (ghost order: seq<string>)
      requires phase == Looping
      modifies this, runner`database, runner`pvcShare
      ensures Enumerates(order, old(previousState))
      ensures View(runner) == OnPoll(old(View(runner)), Poll(items, order), clock)
    {
      ghost var start := View(runner);
      ItemsKeepPrevious(start, items, clock);
      var currentState: set<string> := {};
      ScanItems(runner, items, clock);
      order := ScanPrevious(runner, currentState, clock);
      if phase != Crashed {
        previousState := previousState + currentState;
      }
      assert View(runner) == OnPoll(start, Poll(items, order), clock);
    }

    method ScanItems(runner: Runner, items: seq<PvcObject>, clock: nat -> int)
      modifies this, runner`database, runner`pvcShare
      ensures View(runner) == OnItems(old(View(runner)), items, clock)
    {
      for i := 0 to |items|
        invariant View(runner) == OnItems(old(View(runner)), items[..i], clock)
      {
        assert items[..i + 1][..i] == items[..i];
        Visit(runner, items[i], clock(|events|));
      }
      assert items[..|items|] == items;
    }

    method ScanPrevious(runner: Runner, currentState: set<string>, clock: nat -> int) returns (ghost order: seq<string>)
      modifies this
      ensures Enumerates(order, old(previousState))
      ensures View(runner) == OnVanished(old(View(runner)), currentState, order, clock)
    {
      order := [];
      var todo := previousState;
      while todo != {}
        invariant View(runner) == OnVanished(old(View(runner)), currentState, order, clock)
        invariant Distinct(order) && forall n :: n in old(previousState) <==> n in order || n in todo
        invariant forall n :: n in order ==> n !in todo
        decreases todo
      {
        var name :| name in todo;
        todo := todo - {name};
        assert (order + [name])[..|order|] == order;
        order := order + [name];
        if phase != Crashed && name !in currentState {
          Append(name, PvcDeletingEnded, clock(|events|));
          if phase != Crashed {
            previousState := previousState - {name};
          }
        }
      }
    }

    method Visit(runner: Runner, pvc: PvcObject, now: int)
      modifies this, runner`database, runner`pvcShare
      ensures View(runner) == OnItem(old(View(runner)), pvc, now)
    {
      if phase == Crashed {
        return;
      }
      if pvc.name !in addedPVCs {
        var (db, entity) := InsertEntity(runner.database,
                                         Entity(0, pvc.name, pvc.uid, runner.tcId, EntityType.Pvc));
        runner.database := db;
        entities := entities[pvc.name := entity];
        events := events + [Event(entity.id, PvcAdded, now)];
        addedPVCs := addedPVCs + {pvc.name};
        return;
      }
      if pvc.bound && pvc.name !in boundPVCs {
        boundPVCs := boundPVCs + {pvc.name};
        Append(pvc.name, PvcBound, now);
        if phase != Crashed {
          runner.pvcShare := runner.pvcShare[pvc.volume := entities[pvc.name]];
        }
        return;
      }
      if pvc.deleting && pvc.name !in deletingPVCs {
        deletingPVCs := deletingPVCs + {pvc.name};
        Append(pvc.name, PvcDeletingStarted, now);
        return;
      }
    }

    method Append(name: string, kind: EventType, now: int)
      modifies this`events, this`phase
      ensures name in entities ==> events == old(events) + [Event(entities[name].id, kind, now)] && phase == old(phase)
      ensures name !in entities ==> events == old(events) && phase == Crashed
    {
      if name in entities {
        events := events + [Event(entities[name].id, kind, now)];
      } else {
        phase := Crashed;
      }
    }
  }

  lemma {:induction false} ItemsKeepPrevious(s: ListState, items: seq<PvcObject>, clock: nat -> int)
    ensures OnItems(s, items, clock).previous == s.previous
  {
    if items == [] {
    } else {
      ItemsKeepPrevious(s, items[..|items| - 1], clock);
    }
  }

  lemma {:induction false} ItemsOnlyLog(s: ListState, items: seq<PvcObject>, clock: nat -> int)
    ensures var t := OnItems(s, items, clock);
            && s.events <= t.events && t.saved == s.saved && (t.phase == s.phase || t.phase == Crashed)
            && t.db.events == s.db.events && s.db.entities <= t.db.entities
  {
    if items == [] {
    } else {
      ItemsOnlyLog(s, items[..|items| - 1], clock);
    }
  }

  lemma {:induction false} VanishedOnlyLog(s: ListState, current: set<string>, order: seq<string>, clock: nat -> int)
    ensures var t := OnVanished(s, current, order, clock);
            && s.events <= t.events && t.saved == s.saved && (t.phase == s.phase || t.phase == Crashed)
            && t.db.events == s.db.events && s.db.entities <= t.db.entities
  {
    if order == [] {
    } else {
      VanishedOnlyLog(s, current, order[..|order| - 1], clock);
    }
  }

  /** A poll appends to the log and saves nothing. */
  lemma PollOnlyLogs(s: ListState, poll: Poll<PvcObject>, clock: nat -> int)
    ensures var t := OnPoll(s, poll, clock);
            && s.events <= t.events && t.saved == s.saved && (t.phase == s.phase || t.phase == Crashed)
            && t.db.events == s.db.events && s.db.entities <= t.db.entities
  {
    ItemsOnlyLog(s, poll.items, clock);
    VanishedOnlyLog(OnItems(s, poll.items, clock), CURRENT_STATE, poll.order, clock);
  }

  // ------------------------------------------------------------------- whole runs

  function RunPolls(s: ListState, polls: seq<Poll<PvcObject>>, clock: nat -> int): ListState {
    if polls == [] then s
    else OnPoll(RunPolls(s, polls[..|polls| - 1], clock), polls[|polls| - 1], clock)
  }

  /** Every poll ranges over the previousState it finds. */
  ghost predicate Ranges(s: ListState, polls: seq<Poll<PvcObject>>, clock: nat -> int) {
    polls == [] ||
    var front := polls[..|polls| - 1];
    Ranges(s, front, clock) && Enumerates(polls[|polls| - 1].order, RunPolls(s, front, clock).previous)
  }

  function NamesOf(items: seq<PvcObject>): set<string> {
    set i | 0 <= i < |items| :: items[i].name
  }

  function Seen(polls: seq<Poll<PvcObject>>): set<string> {
    if polls == [] then {} else Seen(polls[..|polls| - 1]) + NamesOf(polls[|polls| - 1].items)
  }

  function ItemChanges(known: set<string>, items: seq<PvcObject>): Stream {
    if items == [] then []
    else
      var front, pvc := items[..|items| - 1], items[|items| - 1];
      ItemChanges(known, front)
      + [Change(if pvc.name in known + NamesOf(front) then Modified else Added, pvc)]
  }

  /** Never-seen names are Added, seen ones Modified. */
  function Translate(polls: seq<Poll<PvcObject>>): Stream {
    if polls == [] then []
    else
      var front := polls[..|polls| - 1];
      Translate(front) + ItemChanges(Seen(front), polls[|polls| - 1].items)
  }

  function Forget(s: ListState): State {
    State(s.tcId, s.db, s.share, s.events, s.entities, s.bound, s.deleting, s.saved, s.phase)
  }

  predicate Shaped(s: ListState) {
    && s.phase == Looping && s.previous == {}
    && s.added == s.entities.Keys && s.bound <= s.added && s.deleting <= s.added
  }

  lemma NamesSnoc(items: seq<PvcObject>, pvc: PvcObject)
    ensures NamesOf(items + [pvc]) == NamesOf(items) + {pvc.name}
  {
    var all := items + [pvc];
    assert all[|items|] == pvc;
    forall n | n in NamesOf(items) ensures n in NamesOf(all) {
      var i :| 0 <= i < |items| && items[i].name == n;
      assert all[i] == items[i];
    }
  }

  lemma ItemRefines(s: ListState, pvc: PvcObject, now: int)
    requires Shaped(s)
    ensures var t := OnItem(s, pvc, now);
            && Shaped(t) && t.added == s.added + {pvc.name}
            && Step(Forget(s), Data(Change(if pvc.name in s.added then Modified else Added, pvc)), now) == Forget(t)
  {
  }

  lemma ItemsSnoc(s: ListState, items: seq<PvcObject>, pvc: PvcObject, clock: nat -> int)
    ensures var t := OnItems(s, items, clock);
            OnItems(s, items + [pvc], clock) == OnItem(t, pvc, clock(|t.events|))
  {
    assert (items + [pvc])[..|items|] == items;
  }

  lemma ItemChangesSnoc(known: set<string>, items: seq<PvcObject>, pvc: PvcObject)
    ensures ItemChanges(known, items + [pvc])
         == ItemChanges(known, items) + [Change(if pvc.name in known + NamesOf(items) then Modified else Added, pvc)]
  {
    assert (items + [pvc])[..|items|] == items;
  }

  /** One item more, whatever the watch observer went through before. */
  lemma OneItemRefines(a: State, stream: Stream, t: ListState, pvc: PvcObject, clock: nat -> int)
    requires Shaped(t) && Run(a, stream, clock) == Forget(t)
    ensures var u := OnItem(t, pvc, clock(|t.events|));
            && Shaped(u) && u.added == t.added + {pvc.name}
            && Run(a, stream + [Change(if pvc.name in t.added then Modified else Added, pvc)], clock) == Forget(u)
  {
    ItemRefines(t, pvc, clock(|t.events|));
    RunSnoc(a, stream, Change(if pvc.name in t.added then Modified else Added, pvc), clock);
  }

  lemma {:induction false} ItemsRefine(s: ListState, items: seq<PvcObject>, clock: nat -> int)
    requires Shaped(s)
    ensures var t := OnItems(s, items, clock);
            && Shaped(t) && t.added == s.added + NamesOf(items)
            && Run(Forget(s), ItemChanges(s.added, items), clock) == Forget(t)
  {
    if items == [] {
    } else {
      var front, pvc := items[..|items| - 1], items[|items| - 1];
      assert items == front + [pvc];
      ItemsRefine(s, front, clock);
      OneItemRefines(Forget(s), ItemChanges(s.added, front), OnItems(s, front, clock), pvc, clock);
      ItemsSnoc(s, front, pvc, clock);
      ItemChangesSnoc(s.added, front, pvc);
      NamesSnoc(front, pvc);
    }
  }

  /** On the Added and Modified changes the snapshots stand for, the watch observer ends in the
      polled observer's state; previousState stays empty throughout. */
  lemma {:induction false} PollingRefinesWatching(tcId: int, db: Db, share: map<string, Entity>, polls: seq<Poll<PvcObject>>, clock: nat -> int)
    requires Ranges(ListInit(tcId, db, share), polls, clock)
    ensures var s := RunPolls(ListInit(tcId, db, share), polls, clock);
            && Shaped(s) && s.added == Seen(polls)
            && Run(Init(tcId, db, share), Translate(polls), clock) == Forget(s)
  {
    if polls == [] {
    } else {
      var front, poll := polls[..|polls| - 1], polls[|polls| - 1];
      PollingRefinesWatching(tcId, db, share, front, clock);
      var s := RunPolls(ListInit(tcId, db, share), front, clock);
      EnumerationSize(poll.order, s.previous);
      ItemsRefine(s, poll.items, clock);
      RunAppend(Init(tcId, db, share), Translate(front), ItemChanges(Seen(front), poll.items), clock);
    }
  }

  /** However the cluster interleaves deletions with those changes, the two observers agree on
      entities, published volumes and every event but the deletions, which polling never logs. */
  lemma AgreesButForDeletions(tcId: int, db: Db, share: map<string, Entity>, polls: seq<Poll<PvcObject>>, stream: Stream, clock: nat -> int)
    requires Ranges(ListInit(tcId, db, share), polls, clock)
    requires WithoutDeletions(stream) == Translate(polls)
    requires Run(Init(tcId, db, share), stream, clock).phase == Looping
    ensures Alike(Run(Init(tcId, db, share), stream, clock), Forget(RunPolls(ListInit(tcId, db, share), polls, clock)))
    ensures forall id :: Count(RunPolls(ListInit(tcId, db, share), polls, clock).events, PvcDeletingEnded, id) == 0
  {
    PollingRefinesWatching(tcId, db, share, polls, clock);
    DeletionsOnlyLog(Init(tcId, db, share), stream, clock);
    TranslationHasNoDeletions(polls);
    forall id ensures Count(RunPolls(ListInit(tcId, db, share), polls, clock).events, PvcDeletingEnded, id) == 0 {
      NoDeletionLogged(Init(tcId, db, share), Translate(polls), clock, id);
    }
  }

  /** Kind and entity of every event, in order. */
  function Kinds(log: seq<Event>): seq<(EventType, int)> {
    if log == [] then [] else Kinds(log[..|log| - 1]) + [(log[|log| - 1].kind, log[|log| - 1].entityId)]
  }

  lemma {:induction false} AllVisible(log: seq<Event>)
    requires KindCount(log, PvcDeletingEnded) == 0
    ensures Visible(log) == Kinds(log)
  {
    if log == [] {
    } else {
      AllVisible(log[..|log| - 1]);
    }
  }

  lemma {:induction false} KindsDecideCounts(log: seq<Event>, other: seq<Event>, kind: EventType)
    requires Kinds(log) == Kinds(other)
    ensures KindCount(log, kind) == KindCount(other, kind)
  {
    if log == [] || other == [] {
      assert |Kinds(log)| == |Kinds(other)|;
    } else {
      var a, b := log[|log| - 1], other[|other| - 1];
      assert Kinds(log)[|Kinds(log)| - 1] == (a.kind, a.entityId) && Kinds(other)[|Kinds(other)| - 1] == (b.kind, b.entityId);
      assert Kinds(log)[..|Kinds(log)| - 1] == Kinds(log[..|log| - 1]);
      assert Kinds(other)[..|Kinds(other)| - 1] == Kinds(other[..|other| - 1]);
      KindsDecideCounts(log[..|log| - 1], other[..|other| - 1], kind);
    }
  }

  lemma {:induction false} NoDeletions(stream: Stream)
    requires forall i :: 0 <= i < |stream| ==> !IsDeletion(stream[i])
    ensures Changes(stream, Deleted) == 0
  {
    if stream == [] {
    } else {
      NoDeletions(stream[..|stream| - 1]);
    }
  }

  /** The two logs agree in kind and entity, event by event, if and only if the cluster sent no Deleted
      change. */
  lemma LogsAgreeIffNoDeletion(tcId: int, db: Db, share: map<string, Entity>, polls: seq<Poll<PvcObject>>, stream: Stream, clock: nat -> int)
    requires Ranges(ListInit(tcId, db, share), polls, clock)
    requires WithoutDeletions(stream) == Translate(polls)
    requires Run(Init(tcId, db, share), stream, clock).phase == Looping
    ensures Kinds(Run(Init(tcId, db, share), stream, clock).events)
            == Kinds(RunPolls(ListInit(tcId, db, share), polls, clock).events)
       <==> Changes(stream, Deleted) == 0
  {
    AgreesButForDeletions(tcId, db, share, polls, stream, clock);
    DeletionsCounted(tcId, db, share, polls, stream, clock);
    var watched, polled := Run(Init(tcId, db, share), stream, clock).events, RunPolls(ListInit(tcId, db, share), polls, clock).events;
    if Changes(stream, Deleted) == 0 {
      AllVisible(watched);
      AllVisible(polled);
    }
    if Kinds(watched) == Kinds(polled) { KindsDecideCounts(watched, polled, PvcDeletingEnded); }
  }

  lemma DeletionsCounted(tcId: int, db: Db, share: map<string, Entity>, polls: seq<Poll<PvcObject>>, stream: Stream, clock: nat -> int)
    requires Ranges(ListInit(tcId, db, share), polls, clock)
    requires Run(Init(tcId, db, share), stream, clock).phase == Looping
    ensures KindCount(Run(Init(tcId, db, share), stream, clock).events, PvcDeletingEnded) == Changes(stream, Deleted)
    ensures KindCount(RunPolls(ListInit(tcId, db, share), polls, clock).events, PvcDeletingEnded) == 0
  {
    CrashesExactlyOnOrphans(tcId, db, share, stream, clock);
    RecordsReports(tcId, db, share, stream, clock);
    PollingRefinesWatching(tcId, db, share, polls, clock);
    CrashesExactlyOnOrphans(tcId, db, share, Translate(polls), clock);
    RecordsReports(tcId, db, share, Translate(polls), clock);
    TranslationHasNoDeletions(polls);
    NoDeletions(Translate(polls));
  }

  /** A claim listed once and gone from the next list: watching logs its deletion, polling does not. */
  lemma MissedDeletion(tcId: int, db: Db, share: map<string, Entity>, clock: nat -> int)
    returns (polls: seq<Poll<PvcObject>>, stream: Stream)
    ensures Ranges(ListInit(tcId, db, share), polls, clock) && WithoutDeletions(stream) == Translate(polls)
    ensures KindCount(Run(Init(tcId, db, share), stream, clock).events, PvcDeletingEnded) == 1
    ensures KindCount(RunPolls(ListInit(tcId, db, share), polls, clock).events, PvcDeletingEnded) == 0
  {
    var pvc := PvcObject("claim", "uid", false, "", false);
    var added: WatchData<PvcObject>, deleted: WatchData<PvcObject> := Change(Added, pvc), Change(Deleted, pvc);
    polls, stream := [] + [Poll([pvc], [])] + [Poll([], [])], [] + [added] + [deleted];
    OneClaimListed(pvc);
    PollingRefinesWatching(tcId, db, share, [], clock);
    PollsSnoc(ListInit(tcId, db, share), [], Poll([pvc], []), clock);
    PollingRefinesWatching(tcId, db, share, [] + [Poll([pvc], [])], clock);
    PollsSnoc(ListInit(tcId, db, share), [] + [Poll([pvc], [])], Poll([], []), clock);
    StreamSnoc([], added);
    StreamSnoc([] + [added], deleted);
    CrashesExactlyOnOrphans(tcId, db, share, stream, clock);
    DeletionsCounted(tcId, db, share, polls, stream, clock);
  }

  lemma OneClaimListed(pvc: PvcObject)
    ensures ItemChanges({}, [pvc]) == [Change(Added, pvc)]
  {
    assert [pvc][..0] == [] && NamesOf([]) == {};
  }

  lemma PollsSnoc(s: ListState, polls: seq<Poll<PvcObject>>, poll: Poll<PvcObject>, clock: nat -> int)
    ensures Ranges(s, polls + [poll], clock)
       <==> Ranges(s, polls, clock) && Enumerates(poll.order, RunPolls(s, polls, clock).previous)
    ensures Translate(polls + [poll]) == Translate(polls) + ItemChanges(Seen(polls), poll.items)
  {
    assert (polls + [poll])[..|polls|] == polls;
  }

  lemma StreamSnoc(stream: Stream, d: WatchData<PvcObject>)
    ensures WithoutDeletions(stream + [d]) == WithoutDeletions(stream) + if IsDeletion(d) then [] else [d]
    ensures HasOrphan(stream + [d]) <==> HasOrphan(stream) || Orphan(AddedNames(stream), d)
    ensures AddedNames(stream + [d]) == AddedNames(stream) + if d.Change? && d.kind == Added then {d.obj.name} else {}
    ensures Changes(stream + [d], Deleted) == Changes(stream, Deleted) + if IsDeletion(d) then 1 else 0
  {
    assert (stream + [d])[..|stream|] == stream;
  }

  /** A step logs at most one event, and a deletion only for a Deleted change. */
  lemma StepLogs(s: State, d: WatchData<PvcObject>, now: int)
    ensures var t := Step(s, Data(d), now);
            t.events != s.events ==>
              exists e :: t.events == s.events + [e] && (e.kind == PvcDeletingEnded ==> IsDeletion(d))
  {
    var t := Step(s, Data(d), now);
    if t.events != s.events {
      var e := t.events[|s.events|];
      assert t.events == s.events + [e];
    }
  }

  lemma {:induction false} NoDeletionLogged(s: State, stream: Stream, clock: nat -> int, id: int)
    requires s.events == [] && forall i :: 0 <= i < |stream| ==> !IsDeletion(stream[i])
    ensures Count(Run(s, stream, clock).events, PvcDeletingEnded, id) == 0
  {
    if stream == [] {
    } else {
      var front, last := stream[..|stream| - 1], stream[|stream| - 1];
      NoDeletionLogged(s, front, clock, id);
      var t := Run(s, front, clock);
      StepLogs(t, last, clock(|t.events|));
      var u := Run(s, stream, clock);
      if u.events != t.events {
        var e :| u.events == t.events + [e] && (e.kind == PvcDeletingEnded ==> IsDeletion(last));
        CountSnoc(t.events, e, PvcDeletingEnded, id);
      }
    }
  }

  lemma {:induction false} TranslationHasNoDeletions(polls: seq<Poll<PvcObject>>)
    ensures forall i :: 0 <= i < |Translate(polls)| ==> !IsDeletion(Translate(polls)[i])
  {
    if polls == [] {
    } else {
      var front := polls[..|polls| - 1];
      TranslationHasNoDeletions(front);
      ItemChangesHaveNoDeletions(Seen(front), polls[|polls| - 1].items);
    }
  }

  lemma {:induction false} ItemChangesHaveNoDeletions(known: set<string>, items: seq<PvcObject>)
    ensures forall i :: 0 <= i < |ItemChanges(known, items)| ==> !IsDeletion(ItemChanges(known, items)[i])
  {
    if items == [] {
    } else {
      ItemChangesHaveNoDeletions(known, items[..|items| - 1]);
    }
  }
}
