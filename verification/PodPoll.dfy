/** The polled pod observer (pkg/observer/pod_alt.go) and its account of arbitrary snapshots. */
module PodPoll {
  import opened Store
  import opened Observer
  import opened PodWatch

  datatype ListState = ListState(
    tcId: int,
    db: Db,
    events: seq<Event>,
    entities: map<string, Entity>,
    added: set<string>,
    ready: set<string>,
    terminating: set<string>,
    previous: set<string>,
    saved: seq<seq<Event>>,
    phase: Phase)

  function ListInit(tcId: int, db: Db): ListState {
    ListState(tcId, db, [], map[], {}, {}, {}, {}, [], Looping)
  }

  function NamesOf(items: seq<PodObject>): set<string> {
    set i | 0 <= i < |items| :: items[i].name
  }

  function ListLog(s: ListState, name: string, kind: EventType, now: int): ListState {
    if name in s.entities then s.(events := s.events + [Event(s.entities[name].id, kind, now)])
    else s.(phase := Crashed)
  }

  /** The body of the loop over podList.Items. */
  function OnItem(s: ListState, pod: PodObject, now: int): ListState {
    if s.phase == Crashed then s
    else if pod.name !in s.added then
      var (db', e) := InsertEntity(s.db, Entity(0, pod.name, pod.uid, s.tcId, EntityType.Pod));
      s.(db := db', entities := s.entities[pod.name := e],
         events := s.events + [Event(e.id, PodAdded, now)], added := s.added + {pod.name})
    else if pod.name !in s.ready && pod.ready then
      ListLog(s.(ready := s.ready + {pod.name}), pod.name, PodReady, now)
    else if pod.terminating && pod.name !in s.terminating then
      ListLog(s.(terminating := s.terminating + {pod.name}), pod.name, PodTerminating, now)
    else s
  }

  function OnItems(s: ListState, items: seq<PodObject>, clock: nat -> int): ListState {
    if items == [] then s
    else
      var t := OnItems(s, items[..|items| - 1], clock);
      OnItem(t, items[|items| - 1], clock(|t.events|))
  }

  /** The body of the loop over previousState. */
  function OnPrevious(s: ListState, current: set<string>, name: string, now: int): ListState {
    if s.phase == Crashed || name in current then s
    else
      var t := ListLog(s, name, PodDeleted, now);
      if t.phase == Crashed then t else t.(previous := t.previous - {name})
  }

  function OnVanished(s: ListState, current: set<string>, order: seq<string>, clock: nat -> int): ListState {
    if order == [] then s
    else
      var t := OnVanished(s, current, order[..|order| - 1], clock);
      OnPrevious(t, current, order[|order| - 1], clock(|t.events|))
  }

  /** One poll that neither finishes nor fails to list. */
  function OnPoll(s: ListState, poll: Poll<PodObject>, clock: nat -> int): ListState {
    var t := OnVanished(OnItems(s, poll.items, clock), NamesOf(poll.items), poll.order, clock);
    if t.phase == Crashed then t else t.(previous := t.previous + NamesOf(poll.items))
  }

  function ListFinish(s: ListState): ListState {
    s.(db := InsertEvents(s.db, s.events), saved := s.saved + [s.events], phase := Returned)
  }

  class PodListObserver {
    var events: seq<Event>
    var entities: map<string, Entity>
    var addedPods: set<string>
    var readyPods: set<string>
    var terminatingPods: set<string>
    var previousState: set<string>
    var saved: seq<seq<Event>>
    var phase: Phase

    ghost function View(runner: Runner): ListState
      reads this, runner
    {
      ListState(runner.tcId, runner.database, events, entities, addedPods, readyPods, terminatingPods,
                previousState, saved, phase)
    }

    constructor (runner: Runner)
      ensures View(runner) == ListInit(runner.tcId, runner.database)
    {
      events, entities, addedPods, readyPods := [], map[], {}, {};
      terminatingPods, previousState, saved, phase := {}, {}, [], Looping;
    }

    /** The polled closure. A failed List ends the polling without saving anything; otherwise
        some order of ranging over previousState explains the new state. */
    method PollOnce(runner: Runner, finished: bool, list: Option<seq<PodObject>>, clock: nat -> int)
      requires phase == Looping
      modifies this, runner`database
      ensures finished ==> View(runner) == ListFinish(old(View(runner)))
      ensures runner.database.events == old(runner.database.events) + if finished then events else []
      ensures finished || list == None ==> runner.database.entities == old(runner.database.entities)
      ensures !finished && list == None ==> View(runner) == old(View(runner)).(phase := Returned)
      ensures !finished && list.Some? ==>
                exists order :: Enumerates(order, old(previousState))
                  && View(runner) == OnPoll(old(View(runner)), Poll(list.value, order), clock)
    {
      if finished {
        runner.database := SaveEvents(runner.database, events);
        saved := saved + [events];
        phase := Returned;
        return;
      }
      if list == None {
        phase := Returned;
        return;
      }
      ghost var start := View(runner);
      ghost var order := ProcessList(runner, list.value, clock);
      PollOnlyLogs(start, Poll(list.value, order), clock);
    }

    /** A list that was answered: its items, and then the names listed before. */
    method ProcessList(runner: Runner, items: seq<PodObject>, clock: nat -> int) returns (ghost order: seq<string>)
      requires phase == Looping
      modifies this, runner`database
      ensures Enumerates(order, old(previousState))
      ensures View(runner) == OnPoll(old(View(runner)), Poll(items, order), clock)
    {
      ghost var start := View(runner);
      OnItemsKeepsPrevious(start, items, clock);
      var currentState := ScanItems(runner, items, clock);
      order := ScanPrevious(runner, currentState, clock);
      if phase != Crashed {
        previousState := previousState + currentState;
      }
      assert View(runner) == OnPoll(start, Poll(items, order), clock);
    }

    method ScanItems(runner: Runner, items: seq<PodObject>, clock: nat -> int) returns (currentState: set<string>)
      modifies this, runner`database
      ensures View(runner) == OnItems(old(View(runner)), items, clock)
      ensures currentState == NamesOf(items)
    {
      currentState := {};
      for i := 0 to |items|
        invariant View(runner) == OnItems(old(View(runner)), items[..i], clock)
        invariant currentState == NamesOf(items[..i])
      {
        assert items[..i + 1][..i] == items[..i] && items[..i + 1] == items[..i] + [items[i]];
        NamesSnoc(items[..i], items[i]);
        currentState := currentState + {items[i].name};
        Visit(runner, items[i], clock(|events|));
      }
      assert items[..|items|] == items;
    }

    method ScanPrevious(runner: Runner, currentState: set<string>, clock: nat -> int) returns (ghost order: seq<string>)
      modifies this
      ensures Enumerates(order, old(previousState))
      ensures View(runner) == OnVanished(old(View(runner)), currentState, order, clock)
    {
      order := [];
      var todo := previousState;
      while todo != {}
        invariant View(runner) == OnVanished(old(View(runner)), currentState, order, clock)
        invariant Distinct(order) && forall n :: n in old(previousState) <==> n in order || n in todo
        invariant forall n :: n in order ==> n !in todo
        decreases todo
      {
        var name :| name in todo;
        todo := todo - {name};
        assert (order + [name])[..|order|] == order;
        order := order + [name];
        if phase != Crashed && name !in currentState {
          Append(name, PodDeleted, clock(|events|));
          if phase != Crashed {
            previousState := previousState - {name};
          }
        }
      }
    }

    method Visit(runner: Runner, pod: PodObject, now: int)
      modifies this, runner`database
      ensures View(runner) == OnItem(old(View(runner)), pod, now)
    {
      if phase == Crashed {
        return;
      }
      if pod.name !in addedPods {
        var (db, entity) := InsertEntity(runner.database,
                                         Entity(0, pod.name, pod.uid, runner.tcId, EntityType.Pod));
        runner.database := db;
        entities := entities[pod.name := entity];
        events := events + [Event(entity.id, PodAdded, now)];
        addedPods := addedPods + {pod.name};
        return;
      }
      if pod.name !in readyPods && pod.ready {
        readyPods := readyPods + {pod.name};
        Append(pod.name, PodReady, now);
        return;
      }
      if pod.terminating && pod.name !in terminatingPods {
        terminatingPods := terminatingPods + {pod.name};
        Append(pod.name, PodTerminating, now);
        return;
      }
    }

    method Append(name: string, kind: EventType, now: int)
      modifies this`events, this`phase
      ensures name in entities ==> events == old(events) + [Event(entities[name].id, kind, now)] && phase == old(phase)
      ensures name !in entities ==> events == old(events) && phase == Crashed
    {
      if name in entities {
        events := events + [Event(entities[name].id, kind, now)];
      } else {
        phase := Crashed;
      }
    }
  }

  lemma {:induction false} OnItemsKeepsPrevious(s: ListState, items: seq<PodObject>, clock: nat -> int)
    ensures OnItems(s, items, clock).previous == s.previous
  {
    if items == [] {
    } else {
      OnItemsKeepsPrevious(s, items[..|items| - 1], clock);
    }
  }

  lemma {:induction false} ItemsOnlyLog(s: ListState, items: seq<PodObject>, clock: nat -> int)
    ensures var t := OnItems(s, items, clock);
            && s.events <= t.events && t.saved == s.saved && (t.phase == s.phase || t.phase == Crashed)
            && t.db.events == s.db.events && s.db.entities <= t.db.entities
  {
    if items == [] {
    } else {
      ItemsOnlyLog(s, items[..|items| - 1], clock);
    }
  }

  lemma {:induction false} VanishedOnlyLog(s: ListState, current: set<string>, order: seq<string>, clock: nat -> int)
    ensures var t := OnVanished(s, current, order, clock);
            && s.events <= t.events && t.saved == s.saved && (t.phase == s.phase || t.phase == Crashed)
            && t.db.events == s.db.events && s.db.entities <= t.db.entities
  {
    if order == [] {
    } else {
      VanishedOnlyLog(s, current, order[..|order| - 1], clock);
    }
  }

  /** A poll appends to the log and saves nothing. */
  lemma PollOnlyLogs(s: ListState, poll: Poll<PodObject>, clock: nat -> int)
    ensures var t := OnPoll(s, poll, clock);
            && s.events <= t.events && t.saved == s.saved && (t.phase == s.phase || t.phase == Crashed)
            && t.db.events == s.db.events && s.db.entities <= t.db.entities
  {
    ItemsOnlyLog(s, poll.items, clock);
    VanishedOnlyLog(OnItems(s, poll.items, clock), NamesOf(poll.items), poll.order, clock);
  }

  // ------------------------------------------------------------------- whole runs

  function RunPolls(s: ListState, polls: seq<Poll<PodObject>>, clock: nat -> int): ListState {
    if polls == [] then s
    else OnPoll(RunPolls(s, polls[..|polls| - 1], clock), polls[|polls| - 1], clock)
  }

  /** The names of the last snapshot. */
  function Latest(polls: seq<Poll<PodObject>>): set<string> {
    if polls == [] then {} else NamesOf(polls[|polls| - 1].items)
  }

  function Seen(polls: seq<Poll<PodObject>>): set<string> {
    if polls == [] then {} else Seen(polls[..|polls| - 1]) + NamesOf(polls[|polls| - 1].items)
  }

  /** Every poll ranges over exactly the names of the snapshot before it. */
  ghost predicate Ranges(polls: seq<Poll<PodObject>>) {
    polls == [] || (Ranges(polls[..|polls| - 1]) && Enumerates(polls[|polls| - 1].order, Latest(polls[..|polls| - 1])))
  }

  /** How often a pod whose entity carries id was present in one snapshot and absent from the next. */
  function Vanishings(polls: seq<Poll<PodObject>>, entities: map<string, Entity>, id: int): nat {
    if polls == [] then 0
    else
      var front := polls[..|polls| - 1];
      Vanishings(front, entities, id)
      + |Owners(entities, Latest(front) - NamesOf(polls[|polls| - 1].items), id)|
  }

  /** The recorded sets fit together, as between any two items the observer processes. */
  predicate Shaped(s: ListState) {
    && s.phase == Looping
    && s.added == s.entities.Keys
    && s.ready <= s.added && s.terminating <= s.added && s.previous <= s.added
  }

  /** For one entity id, the log has one event for each name recorded under it. */
  predicate Accounted(s: ListState, id: int) {
    && Count(s.events, PodAdded, id) == |Owners(s.entities, s.added, id)|
    && Count(s.events, PodReady, id) == |Owners(s.entities, s.ready, id)|
    && Count(s.events, PodTerminating, id) == |Owners(s.entities, s.terminating, id)|
  }

  /** Rows are owned by one name only; 0 stands for every entity without a row. */
  ghost predicate RowsUnshared(s: ListState) {
    && (forall n :: n in s.entities ==> 0 <= s.entities[n].id <= |s.db.entities|)
    && (forall n, m :: n in s.entities && m in s.entities && s.entities[n].id == s.entities[m].id != 0 ==> n == m)
  }

  predicate Extends(s: ListState, t: ListState) {
    s.entities.Keys <= t.entities.Keys && forall n :: n in s.entities ==> t.entities[n] == s.entities[n]
  }

  lemma ItemStaysShaped(s: ListState, pod: PodObject, now: int)
    requires Shaped(s)
    ensures var t := OnItem(s, pod, now);
            Shaped(t) && Extends(s, t) && t.added == s.added + {pod.name} && t.previous == s.previous
  {
  }

  lemma CountsSnoc(log: seq<Event>, e: Event, id: int)
    ensures var more := log + [e];
            var one := if e.entityId == id then 1 else 0;
            && Count(more, PodAdded, id) == Count(log, PodAdded, id) + (if e.kind == PodAdded then one else 0)
            && Count(more, PodReady, id) == Count(log, PodReady, id) + (if e.kind == PodReady then one else 0)
            && Count(more, PodTerminating, id) == Count(log, PodTerminating, id) + (if e.kind == PodTerminating then one else 0)
            && Count(more, PodDeleted, id) == Count(log, PodDeleted, id) + (if e.kind == PodDeleted then one else 0)
  {
    CountSnoc(log, e, PodAdded, id);
    CountSnoc(log, e, PodReady, id);
    CountSnoc(log, e, PodTerminating, id);
    CountSnoc(log, e, PodDeleted, id);
  }

  /** A new entity leaves the owners among the names known before as they were. */
  lemma OwnersOfKnown(entities: map<string, Entity>, name: string, e: Entity, names: set<string>, id: int)
    requires names <= entities.Keys && name !in entities
    ensures |Owners(entities[name := e], names, id)| == |Owners(entities, names, id)|
  {
    OwnersStable(entities, entities[name := e], names, id);
  }

  /** The account of one id after an entity has been added under a new name. */
  lemma NewEntityIsAccounted(s: ListState, name: string, e: Entity, now: int, id: int)
    requires s.added == s.entities.Keys && s.ready <= s.added && s.terminating <= s.added
    requires Accounted(s, id) && name !in s.added
    ensures var entities, events := s.entities[name := e], s.events + [Event(e.id, PodAdded, now)];
            && Count(events, PodAdded, id) == |Owners(entities, s.added + {name}, id)|
            && Count(events, PodReady, id) == |Owners(entities, s.ready, id)|
            && Count(events, PodTerminating, id) == |Owners(entities, s.terminating, id)|
            && Count(events, PodDeleted, id) == Count(s.events, PodDeleted, id)
  {
    CountsSnoc(s.events, Event(e.id, PodAdded, now), id);
    OwnersOfKnown(s.entities, name, e, s.added, id);
    OwnersOfKnown(s.entities, name, e, s.ready, id);
    OwnersOfKnown(s.entities, name, e, s.terminating, id);
    OwnersGain(s.entities[name := e], s.added, name, id);
  }

  lemma NewPodStaysAccounted(s: ListState, pod: PodObject, now: int, id: int)
    requires Shaped(s) && Accounted(s, id) && pod.name !in s.added
    ensures var t := OnItem(s, pod, now);
            Accounted(t, id) && Count(t.events, PodDeleted, id) == Count(s.events, PodDeleted, id)
  {
    var e := InsertEntity(s.db, Entity(0, pod.name, pod.uid, s.tcId, EntityType.Pod)).1;
    NewEntityIsAccounted(s, pod.name, e, now, id);
  }

  lemma ReadyPodStaysAccounted(s: ListState, name: string, now: int, id: int)
    requires Shaped(s) && Accounted(s, id) && name in s.added && name !in s.ready
    ensures var t := ListLog(s.(ready := s.ready + {name}), name, PodReady, now);
            Accounted(t, id) && Count(t.events, PodDeleted, id) == Count(s.events, PodDeleted, id)
  {
    CountsSnoc(s.events, Event(s.entities[name].id, PodReady, now), id);
    OwnersGain(s.entities, s.ready, name, id);
  }

  lemma TerminatingPodStaysAccounted(s: ListState, name: string, now: int, id: int)
    requires Shaped(s) && Accounted(s, id) && name in s.added && name !in s.terminating
    ensures var t := ListLog(s.(terminating := s.terminating + {name}), name, PodTerminating, now);
            Accounted(t, id) && Count(t.events, PodDeleted, id) == Count(s.events, PodDeleted, id)
  {
    CountsSnoc(s.events, Event(s.entities[name].id, PodTerminating, now), id);
    OwnersGain(s.entities, s.terminating, name, id);
  }

  lemma ItemStaysAccounted(s: ListState, pod: PodObject, now: int, id: int)
    requires Shaped(s) && Accounted(s, id)
    ensures var t := OnItem(s, pod, now);
            Accounted(t, id) && Count(t.events, PodDeleted, id) == Count(s.events, PodDeleted, id)
  {
    if pod.name !in s.added { NewPodStaysAccounted(s, pod, now, id); }
    else if pod.name !in s.ready && pod.ready { ReadyPodStaysAccounted(s, pod.name, now, id); }
    else if pod.terminating && pod.name !in s.terminating { TerminatingPodStaysAccounted(s, pod.name, now, id); }
  }

  lemma {:induction false} ItemsStayShaped(s: ListState, items: seq<PodObject>, clock: nat -> int)
    requires Shaped(s)
    ensures var t := OnItems(s, items, clock);
            Shaped(t) && Extends(s, t) && t.added == s.added + NamesOf(items) && t.previous == s.previous
  {
    if items == [] {
    } else {
      var front, pod := items[..|items| - 1], items[|items| - 1];
      ItemsStayShaped(s, front, clock);
      var t := OnItems(s, front, clock);
      ItemStaysShaped(t, pod, clock(|t.events|));
      assert items == front + [pod];
      NamesSnoc(front, pod);
    }
  }

  lemma {:induction false} ItemsStayAccounted(s: ListState, items: seq<PodObject>, clock: nat -> int, id: int)
    requires Shaped(s) && Accounted(s, id)
    ensures var t := OnItems(s, items, clock);
            Accounted(t, id) && Count(t.events, PodDeleted, id) == Count(s.events, PodDeleted, id)
  {
    if items == [] {
    } else {
      var front := items[..|items| - 1];
      ItemsStayShaped(s, front, clock);
      ItemsStayAccounted(s, front, clock, id);
      var t := OnItems(s, front, clock);
      ItemStaysAccounted(t, items[|items| - 1], clock(|t.events|), id);
    }
  }

  lemma NamesSnoc(items: seq<PodObject>, pod: PodObject)
    ensures NamesOf(items + [pod]) == NamesOf(items) + {pod.name}
  {
    var all := items + [pod];
    assert all[|items|] == pod;
    forall n | n in NamesOf(items) ensures n in NamesOf(all) {
      var i :| 0 <= i < |items| && items[i].name == n;
      assert all[i] == items[i];
    }
  }

  function Gone(current: set<string>, order: seq<string>): set<string> {
    (set n | n in order) - current
  }

  lemma {:induction false} VanishedStayShaped(s: ListState, current: set<string>, order: seq<string>, clock: nat -> int)
    requires Shaped(s) && forall n :: n in order ==> n in s.previous
    ensures var t := OnVanished(s, current, order, clock);
            Shaped(t) && t == s.(events := t.events, previous := s.previous - Gone(current, order))
  {
    if order == [] {
    } else {
      var front, name := order[..|order| - 1], order[|order| - 1];
      assert order == front + [name];
      VanishedStayShaped(s, current, front, clock);
      assert Gone(current, order) == Gone(current, front) + ({name} - current);
    }
  }

  lemma GoneSnoc(current: set<string>, order: seq<string>, name: string)
    ensures Gone(current, order + [name]) == Gone(current, order) + ({name} - current)
  {
  }

  lemma DeletedStaysAccounted(s: ListState, current: set<string>, name: string, now: int, id: int)
    requires Shaped(s) && Accounted(s, id) && name in s.added && name !in current
    ensures var t := OnPrevious(s, current, name, now);
            Accounted(t, id)
            && Count(t.events, PodDeleted, id)
               == Count(s.events, PodDeleted, id) + if s.entities[name].id == id then 1 else 0
  {
    CountsSnoc(s.events, Event(s.entities[name].id, PodDeleted, now), id);
  }

  /** One entity's Deleted events grow by exactly the vanished names that carry its id. */
  lemma {:induction false} VanishedStayAccounted(s: ListState, current: set<string>, order: seq<string>, clock: nat -> int, id: int)
    requires Shaped(s) && Accounted(s, id) && Distinct(order) && forall n :: n in order ==> n in s.previous
    ensures var t := OnVanished(s, current, order, clock);
            && Accounted(t, id)
            && Count(t.events, PodDeleted, id)
               == Count(s.events, PodDeleted, id) + |Owners(s.entities, Gone(current, order), id)|
  {
    if order == [] {
      assert Owners(s.entities, Gone(current, []), id) == {};
    } else {
      var front, name := order[..|order| - 1], order[|order| - 1];
      assert order == front + [name];
      VanishedStayShaped(s, current, front, clock);
      VanishedStayAccounted(s, current, front, clock, id);
      GoneSnoc(current, front, name);
      var t := OnVanished(s, current, front, clock);
      if name in current {
        assert Gone(current, order) == Gone(current, front);
      } else {
        assert Gone(current, order) == Gone(current, front) + {name};
        OwnersGain(s.entities, Gone(current, front), name, id);
        DeletedStaysAccounted(t, current, name, clock(|t.events|), id);
      }
    }
  }

  lemma {:induction false} VanishingsStable(polls: seq<Poll<PodObject>>, entities: map<string, Entity>, more: map<string, Entity>, id: int)
    requires Seen(polls) <= entities.Keys <= more.Keys
    requires forall n :: n in entities ==> more[n] == entities[n]
    ensures Vanishings(polls, more, id) == Vanishings(polls, entities, id)
  {
    if polls == [] {
    } else {
      var front := polls[..|polls| - 1];
      VanishingsStable(front, entities, more, id);
      LatestSeen(front);
      OwnersStable(entities, more, Latest(front) - NamesOf(polls[|polls| - 1].items), id);
    }
  }

  lemma LatestSeen(polls: seq<Poll<PodObject>>)
    ensures Latest(polls) <= Seen(polls)
  {
  }

  /** Arbitrary snapshots, duplicates included: the observer never dereferences a missing entity
      and previousState is the latest snapshot. */
  lemma {:induction false} PollingNeverCrashes(tcId: int, db: Db, polls: seq<Poll<PodObject>>, clock: nat -> int)
    requires Ranges(polls)
    ensures var s := RunPolls(ListInit(tcId, db), polls, clock);
            Shaped(s) && s.previous == Latest(polls) && s.added == Seen(polls)
  {
    if polls == [] {
    } else {
      var front, poll := polls[..|polls| - 1], polls[|polls| - 1];
      PollingNeverCrashes(tcId, db, front, clock);
      var s := RunPolls(ListInit(tcId, db), front, clock);
      ItemsStayShaped(s, poll.items, clock);
      VanishedStayShaped(OnItems(s, poll.items, clock), NamesOf(poll.items), poll.order, clock);
    }
  }

  /** Per entity id the log holds exactly one Added per seen name, one Ready and one Terminating
      per name recorded so, and one Deleted per present-then-absent transition. */
  lemma {:induction false} PollingAccount(tcId: int, db: Db, polls: seq<Poll<PodObject>>, clock: nat -> int, id: int)
    requires Ranges(polls)
    ensures var s := RunPolls(ListInit(tcId, db), polls, clock);
            Accounted(s, id) && Count(s.events, PodDeleted, id) == Vanishings(polls, s.entities, id)
  {
    if polls == [] {
      assert Owners(map[], {}, id) == {};
    } else {
      var front, poll := polls[..|polls| - 1], polls[|polls| - 1];
      PollingNeverCrashes(tcId, db, front, clock);
      PollingAccount(tcId, db, front, clock, id);
      var s := RunPolls(ListInit(tcId, db), front, clock);
      ItemsStayShaped(s, poll.items, clock);
      ItemsStayAccounted(s, poll.items, clock, id);
      var t := OnItems(s, poll.items, clock);
      VanishedStayShaped(t, NamesOf(poll.items), poll.order, clock);
      VanishedStayAccounted(t, NamesOf(poll.items), poll.order, clock, id);
      VanishingsStable(front, s.entities, t.entities, id);
      assert Gone(NamesOf(poll.items), poll.order) == Latest(front) - NamesOf(poll.items);
    }
  }

  /** The transitions of one name from a snapshot that has it to a next one that has not. */
  function Departures(polls: seq<Poll<PodObject>>, name: string): nat {
    if polls == [] then 0
    else
      var front := polls[..|polls| - 1];
      Departures(front, name) + if name in Latest(front) && name !in NamesOf(polls[|polls| - 1].items) then 1 else 0
  }

  lemma {:induction false} VanishingsOfOneName(polls: seq<Poll<PodObject>>, entities: map<string, Entity>, name: string)
    requires name in entities
    requires forall n :: n in entities && entities[n].id == entities[name].id ==> n == name
    ensures Vanishings(polls, entities, entities[name].id) == Departures(polls, name)
  {
    if polls == [] {
    } else {
      var front := polls[..|polls| - 1];
      VanishingsOfOneName(front, entities, name);
      var gone := Latest(front) - NamesOf(polls[|polls| - 1].items);
      assert Owners(entities, gone, entities[name].id) == if name in gone then {name} else {};
    }
  }

  lemma ItemStaysUnshared(s: ListState, pod: PodObject, now: int)
    requires Shaped(s) && RowsUnshared(s)
    ensures RowsUnshared(OnItem(s, pod, now))
  {
    var t := OnItem(s, pod, now);
    if pod.name !in s.added {
      forall n, m | n in t.entities && m in t.entities && t.entities[n].id == t.entities[m].id != 0
        ensures n == m
      {
        if n in s.entities && m in s.entities {
          assert t.entities[n] == s.entities[n] && t.entities[m] == s.entities[m];
        }
      }
    }
  }

  lemma {:induction false} ItemsStayUnshared(s: ListState, items: seq<PodObject>, clock: nat -> int)
    requires Shaped(s) && RowsUnshared(s)
    ensures RowsUnshared(OnItems(s, items, clock))
  {
    if items == [] {
    } else {
      var front := items[..|items| - 1];
      ItemsStayShaped(s, front, clock);
      ItemsStayUnshared(s, front, clock);
      var t := OnItems(s, front, clock);
      ItemStaysUnshared(t, items[|items| - 1], clock(|t.events|));
    }
  }

  lemma {:induction false} RowsStayUnshared(tcId: int, db: Db, polls: seq<Poll<PodObject>>, clock: nat -> int)
    requires Ranges(polls)
    ensures RowsUnshared(RunPolls(ListInit(tcId, db), polls, clock))
  {
    if polls == [] {
    } else {
      var front, poll := polls[..|polls| - 1], polls[|polls| - 1];
      RowsStayUnshared(tcId, db, front, clock);
      PollingNeverCrashes(tcId, db, front, clock);
      var s := RunPolls(ListInit(tcId, db), front, clock);
      ItemsStayShaped(s, poll.items, clock);
      ItemsStayUnshared(s, poll.items, clock);
      VanishedStayShaped(OnItems(s, poll.items, clock), NamesOf(poll.items), poll.order, clock);
    }
  }

  lemma OneOwner(s: ListState, name: string, names: set<string>)
    requires RowsUnshared(s) && name in s.entities && s.entities[name].id != 0
    ensures |Owners(s.entities, names, s.entities[name].id)| == if name in names then 1 else 0
  {
    assert Owners(s.entities, names, s.entities[name].id) == if name in names then {name} else {};
  }

  /** For a pod whose entity got a row: Added exactly once, Ready and Terminating at most once,
      Deleted exactly as often as the pod left. */
  lemma StoredPodAccount(tcId: int, db: Db, polls: seq<Poll<PodObject>>, clock: nat -> int, name: string)
    requires Ranges(polls)
    ensures var s := RunPolls(ListInit(tcId, db), polls, clock);
            && (name in s.entities <==> name in Seen(polls))
            && (name in Seen(polls) && s.entities[name].id != 0 ==>
                  var id := s.entities[name].id;
                  && Count(s.events, PodAdded, id) == 1
                  && Count(s.events, PodReady, id) == (if name in s.ready then 1 else 0)
                  && Count(s.events, PodTerminating, id) == (if name in s.terminating then 1 else 0)
                  && Count(s.events, PodDeleted, id) == Departures(polls, name))
  {
    PollingNeverCrashes(tcId, db, polls, clock);
    RowsStayUnshared(tcId, db, polls, clock);
    var s := RunPolls(ListInit(tcId, db), polls, clock);
    if name in Seen(polls) && s.entities[name].id != 0 {
      var id := s.entities[name].id;
      PollingAccount(tcId, db, polls, clock, id);
      VanishingsOfOneName(polls, s.entities, name);
      OneOwner(s, name, s.added);
      OneOwner(s, name, s.ready);
      OneOwner(s, name, s.terminating);
    }
  }

  lemma AccountedIsAdded(s: ListState, name: string)
    requires Shaped(s) && name in s.entities && Accounted(s, s.entities[name].id)
    ensures Count(s.events, PodAdded, s.entities[name].id) > 0
  {
    assert name in Owners(s.entities, s.added, s.entities[name].id);
  }

  lemma {:induction false} ItemsStayOrdered(s: ListState, items: seq<PodObject>, clock: nat -> int)
    requires Shaped(s) && Ordered(s.events, PodAdded) && forall id :: Accounted(s, id)
    ensures Ordered(OnItems(s, items, clock).events, PodAdded)
  {
    if items == [] {
    } else {
      var front, pod := items[..|items| - 1], items[|items| - 1];
      ItemsStayOrdered(s, front, clock);
      ItemsStayShaped(s, front, clock);
      var t, u := OnItems(s, front, clock), OnItems(s, items, clock);
      if u.events != t.events {
        var e := u.events[|t.events|];
        assert u.events == t.events + [e];
        if pod.name in t.entities { KnownIsAdded(s, front, clock, pod.name); }
        OrderedSnoc(t.events, e, PodAdded);
      }
    }
  }

  /** A known name's entity has its Added in the log. */
  lemma KnownIsAdded(s: ListState, items: seq<PodObject>, clock: nat -> int, name: string)
    requires Shaped(s) && name in OnItems(s, items, clock).entities && forall id :: Accounted(s, id)
    ensures var t := OnItems(s, items, clock); Count(t.events, PodAdded, t.entities[name].id) > 0
  {
    var t := OnItems(s, items, clock);
    var id := t.entities[name].id;
    ItemsStayAccounted(s, items, clock, id);
    ItemsStayShaped(s, items, clock);
    AccountedIsAdded(t, name);
  }

  lemma {:induction false} VanishedStayOrdered(s: ListState, current: set<string>, order: seq<string>, clock: nat -> int)
    requires Shaped(s) && Ordered(s.events, PodAdded) && forall id :: Accounted(s, id)
    requires Distinct(order) && forall n :: n in order ==> n in s.previous
    ensures Ordered(OnVanished(s, current, order, clock).events, PodAdded)
  {
    if order == [] {
    } else {
      var front, name := order[..|order| - 1], order[|order| - 1];
      VanishedStayOrdered(s, current, front, clock);
      VanishedStayShaped(s, current, front, clock);
      var t := OnVanished(s, current, front, clock);
      if name !in current {
        var id := t.entities[name].id;
        VanishedStayAccounted(s, current, front, clock, id);
        AccountedIsAdded(t, name);
        OrderedSnoc(t.events, Event(id, PodDeleted, clock(|t.events|)), PodAdded);
      }
    }
  }

  /** Nothing is logged for an entity before its Added. */
  lemma {:induction false} PollingLogsAddedFirst(tcId: int, db: Db, polls: seq<Poll<PodObject>>, clock: nat -> int)
    requires Ranges(polls)
    ensures Ordered(RunPolls(ListInit(tcId, db), polls, clock).events, PodAdded)
  {
    if polls == [] {
    } else {
      var front, poll := polls[..|polls| - 1], polls[|polls| - 1];
      PollingLogsAddedFirst(tcId, db, front, clock);
      PollingNeverCrashes(tcId, db, front, clock);
      var s := RunPolls(ListInit(tcId, db), front, clock);
      forall id ensures Accounted(s, id) { PollingAccount(tcId, db, front, clock, id); }
      ItemsStayShaped(s, poll.items, clock);
      ItemsStayOrdered(s, poll.items, clock);
      var t := OnItems(s, poll.items, clock);
      forall id ensures Accounted(t, id) { ItemsStayAccounted(s, poll.items, clock, id); }
      VanishedStayOrdered(t, NamesOf(poll.items), poll.order, clock);
    }
  }
}
