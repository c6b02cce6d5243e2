/** The polled VolumeAttachment observer (pkg/observer/va_alt.go). It records attachments by VA
    name but deletions by volume name, and compares the two sizes to end its drain. */
module VaPoll {
  import opened Store
  import opened Observer
  import VaWatch

  type VaObject = VaWatch.VaObject

  datatype State = State(
    events: seq<Event>,
    added: set<string>,
    attached: set<string>,
    deleting: set<string>,
    deleted: set<string>,
    previous: set<string>,
    saved: seq<seq<Event>>,
    phase: Phase)

  function Init(): State {
    State([], {}, {}, {}, {}, {}, [], Looping)
  }

  type Share = map<string, Entity>

  /** The volumes of a list that the PVC observer has published. */
  function Current(share: Share, items: seq<VaObject>): set<string> {
    set i | 0 <= i < |items| && items[i].pv.Some? && items[i].pv.value in share :: items[i].pv.value
  }

  function OnItem(s: State, share: Share, va: VaObject, now: int): State {
    if s.phase == Crashed then s
    else if va.pv == None then s.(phase := Crashed)
    else if va.pv.value !in share then s
    else
      var id := share[va.pv.value].id;
      if va.name !in s.added then
        s.(added := s.added + {va.name}, events := s.events + [Event(id, PvcAttachStarted, now)])
      else if va.attached && va.name !in s.attached then
        s.(attached := s.attached + {va.name}, events := s.events + [Event(id, PvcAttachEnded, now)])
      else if va.deleting && va.name !in s.deleting then
        s.(deleting := s.deleting + {va.name}, events := s.events + [Event(id, PvcUnattachStarted, now)])
      else s
  }

  function OnItems(s: State, share: Share, items: seq<VaObject>, clock: nat -> int): State {
    if items == [] then s
    else
      var t := OnItems(s, share, items[..|items| - 1], clock);
      OnItem(t, share, items[|items| - 1], clock(|t.events|))
  }

  /** A volume that is no longer published stays in previousState. */
  function OnPrevious(s: State, share: Share, current: set<string>, pv: string, now: int): State {
    if s.phase == Crashed || pv in current || pv !in share then s
    else s.(events := s.events + [Event(share[pv].id, PvcUnattachEnded, now)],
            deleted := s.deleted + {pv}, previous := s.previous - {pv})
  }

  function OnVanished(s: State, share: Share, current: set<string>, order: seq<string>, clock: nat -> int): State {
    if order == [] then s
    else
      var t := OnVanished(s, share, current, order[..|order| - 1], clock);
      OnPrevious(t, share, current, order[|order| - 1], clock(|t.events|))
  }

  function Save(s: State): State {
    s.(saved := s.saved + [s.events], phase := Returned)
  }

  /** One turn of the poll: whether the finish signal was waiting, what List answered, what
      PvcShare held and the order of ranging over previousState. */
  datatype Turn = Turn(finish: bool, list: Option<seq<VaObject>>, share: Share, order: seq<string>)

  /** The state after the list was processed and before the final check. */
  function Process(s: State, share: Share, items: seq<VaObject>, order: seq<string>, clock: nat -> int): State {
    var current := Current(share, items);
    var t := OnVanished(OnItems(s, share, items, clock), share, current, order, clock);
    if t.phase == Crashed then t else t.(previous := t.previous + current)
  }

  function Step(s: State, shouldClean: bool, turn: Turn, clock: nat -> int): State {
    if s.phase != Looping && s.phase != Draining then s
    else if turn.finish && (|s.attached| == |s.deleted| || !shouldClean) then Save(s)
    else
      var s1 := if turn.finish then s.(phase := Draining) else s;
      match turn.list
      case None => s1.(phase := Returned)
      case Some(items) =>
        var t := Process(s1, turn.share, items, turn.order, clock);
        if t.phase == Draining && |t.attached| == |t.deleted| then Save(t) else t
  }

  class VaListObserver {
    var events: seq<Event>
    var addedVAs: set<string>
    var attachedVAs: set<string>
    var deletingVAs: set<string>
    var deletedVAs: set<string>
    var previousState: set<string>
    var shouldExit: bool
    var saved: seq<seq<Event>>
    var returned: bool
    var crashed: bool

    ghost function View(): State
      reads this
    {
      State(events, addedVAs, attachedVAs, deletingVAs, deletedVAs, previousState, saved,
            if crashed then Crashed else if returned then Returned else if shouldExit then Draining else Looping)
    }

    constructor ()
      ensures View() == Init()
    {
      events, addedVAs, attachedVAs, deletingVAs, deletedVAs := [], {}, {}, {}, {};
      previousState, shouldExit, saved, returned, crashed := {}, false, [], false, false;
    }

    /** The polled closure. Some order of ranging over previousState explains the new state. */
    method PollOnce(runner: Runner, finished: bool, list: Option<seq<VaObject>>, clock: nat -> int)
      requires !returned && !crashed
      modifies this, runner`database
      ensures exists order :: Enumerates(order, old(previousState))
                && View() == Step(old(View()), runner.shouldClean,
                                  Turn(finished, list, runner.pvcShare, order), clock)
      ensures runner.database.events == old(runner.database.events) + if saved != old(saved) then events else []
      ensures runner.database.entities == old(runner.database.entities)
    {
      ghost var start := View();
      ghost var anyOrder := AnOrder(previousState);
      if finished {
        if |attachedVAs| == |deletedVAs| || !runner.shouldClean {
          SaveAll(runner);
          assert View() == Step(start, runner.shouldClean, Turn(finished, list, runner.pvcShare, anyOrder), clock);
          return;
        }
        shouldExit := true;
      }
      if list == None {
        returned := true;
        assert View() == Step(start, runner.shouldClean, Turn(finished, list, runner.pvcShare, anyOrder), clock);
        return;
      }
      ghost var order := ProcessList(runner.pvcShare, list.value, clock);
      if !crashed && shouldExit && |attachedVAs| == |deletedVAs| {
        SaveAll(runner);
      }
      assert View() == Step(start, runner.shouldClean, Turn(finished, list, runner.pvcShare, order), clock);
    }

    /** A list that was answered: its items, and then the volumes listed before. */
    method ProcessList(share: Share, items: seq<VaObject>, clock: nat -> int) returns (ghost order: seq<string>)
      requires !returned
      modifies this`events, this`addedVAs, this`attachedVAs, this`deletingVAs, this`deletedVAs, this`previousState, this`crashed
      ensures Enumerates(order, old(previousState))
      ensures View() == Process(old(View()), share, items, order, clock)
    {
      ghost var start := View();
      ItemsKeep(start, share, items, clock);
      var currentState := ScanItems(share, items, clock);
      order := ScanPrevious(share, currentState, clock);
      if !crashed {
        previousState := previousState + currentState;
      }
      assert View() == Process(start, share, items, order, clock);
    }

    method ScanItems(share: Share, items: seq<VaObject>, clock: nat -> int) returns (currentState: set<string>)
      requires !returned
      modifies this`events, this`addedVAs, this`attachedVAs, this`deletingVAs, this`crashed
      ensures View() == OnItems(old(View()), share, items, clock)
      ensures currentState == Current(share, items)
    {
      currentState := {};
      for i := 0 to |items|
        invariant View() == OnItems(old(View()), share, items[..i], clock)
        invariant currentState == Current(share, items[..i])
      {
        OneMoreListed(old(View()), share, items, i, clock);
        if items[i].pv.Some? && items[i].pv.value in share {
          currentState := currentState + {items[i].pv.value};
        }
        Visit(share, items[i], clock(|events|));
      }
      assert items[..|items|] == items;
    }

    method ScanPrevious(share: Share, currentState: set<string>, clock: nat -> int) returns (ghost order: seq<string>)
      modifies this`events, this`deletedVAs, this`previousState
      ensures Enumerates(order, old(previousState))
      ensures View() == OnVanished(old(View()), share, currentState, order, clock)
    {
      order := [];
      var todo := previousState;
      while todo != {}
        invariant View() == OnVanished(old(View()), share, currentState, order, clock)
        invariant Distinct(order) && forall n :: n in old(previousState) <==> n in order || n in todo
        invariant forall n :: n in order ==> n !in todo
        decreases todo
      {
        var pv :| pv in todo;
        todo := todo - {pv};
        assert (order + [pv])[..|order|] == order;
        order := order + [pv];
        if !crashed && pv !in currentState && pv in share {
          events := events + [Event(share[pv].id, PvcUnattachEnded, clock(|events|))];
          deletedVAs := deletedVAs + {pv};
          previousState := previousState - {pv};
        }
      }
    }

    method Visit(share: Share, va: VaObject, now: int)
      requires !returned
      modifies this`events, this`addedVAs, this`attachedVAs, this`deletingVAs, this`crashed
      ensures View() == OnItem(old(View()), share, va, now)
    {
      if crashed {
        return;
      }
      if va.pv == None {
        crashed := true;
        return;
      }
      if va.pv.value !in share {
        return;
      }
      var entity := share[va.pv.value];
      if va.name !in addedVAs {
        addedVAs := addedVAs + {va.name};
        events := events + [Event(entity.id, PvcAttachStarted, now)];
        return;
      }
      if va.attached && va.name !in attachedVAs {
        attachedVAs := attachedVAs + {va.name};
        events := events + [Event(entity.id, PvcAttachEnded, now)];
        return;
      }
      if va.deleting && va.name !in deletingVAs {
        deletingVAs := deletingVAs + {va.name};
        events := events + [Event(entity.id, PvcUnattachStarted, now)];
      }
    }

    method SaveAll(runner: Runner)
      modifies this`saved, this`returned, runner`database
      ensures saved == old(saved) + [events] && returned
      ensures runner.database.events == old(runner.database.events) + events
      ensures runner.database.entities == old(runner.database.entities)
    {
      runner.database := SaveEvents(runner.database, events);
      saved := saved + [events];
      returned := true;
    }
  }

  ghost function AnOrder(names: set<string>): (order: seq<string>)
    ensures Enumerates(order, names)
  {
    if names == {} then []
    else
      var n :| n in names;
      AnOrder(names - {n}) + [n]
  }

  lemma CurrentSnoc(share: Share, items: seq<VaObject>, va: VaObject)
    ensures Current(share, items + [va])
         == Current(share, items) + if va.pv.Some? && va.pv.value in share then {va.pv.value} else {}
  {
    var all := items + [va];
    assert all[|items|] == va;
    forall p | p in Current(share, items) ensures p in Current(share, all) {
      var i :| 0 <= i < |items| && items[i].pv.Some? && items[i].pv.value in share && items[i].pv.value == p;
      assert all[i] == items[i];
    }
  }

  lemma OneMoreListed(s: State, share: Share, items: seq<VaObject>, i: nat, clock: nat -> int)
    requires i < |items|
    ensures var t := OnItems(s, share, items[..i], clock);
            OnItems(s, share, items[..i + 1], clock) == OnItem(t, share, items[i], clock(|t.events|))
    ensures Current(share, items[..i + 1])
         == Current(share, items[..i])
            + if items[i].pv.Some? && items[i].pv.value in share then {items[i].pv.value} else {}
  {
    assert items[..i + 1][..i] == items[..i] && items[..i + 1] == items[..i] + [items[i]];
    CurrentSnoc(share, items[..i], items[i]);
  }

  /** Items leave deletedVAs and previousState alone, and only add to attachedVAs. */
  lemma {:induction false} ItemsKeep(s: State, share: Share, items: seq<VaObject>, clock: nat -> int)
    ensures var t := OnItems(s, share, items, clock);
            && t.deleted == s.deleted && t.previous == s.previous && t.saved == s.saved
            && s.attached <= t.attached && s.events <= t.events
            && (t.phase == s.phase || t.phase == Crashed)
  {
    if items == [] {
    } else {
      ItemsKeep(s, share, items[..|items| - 1], clock);
    }
  }

  /** The published volumes that left the list. */
  function Vanished(share: Share, current: set<string>, order: seq<string>): set<string> {
    (set pv | pv in order && pv in share) - current
  }

  lemma {:induction false} VanishedAreDeleted(s: State, share: Share, current: set<string>, order: seq<string>, clock: nat -> int)
    requires s.phase != Crashed
    ensures var t := OnVanished(s, share, current, order, clock);
            && s.events <= t.events
            && t == s.(events := t.events, deleted := s.deleted + Vanished(share, current, order),
                       previous := s.previous - Vanished(share, current, order))
  {
    if order == [] {
      assert Vanished(share, current, []) == {};
    } else {
      var front, pv := order[..|order| - 1], order[|order| - 1];
      assert order == front + [pv];
      VanishedAreDeleted(s, share, current, front, clock);
      assert Vanished(share, current, order)
          == Vanished(share, current, front) + if pv in share && pv !in current then {pv} else {};
    }
  }

  /** Processing a list appends to the log and saves nothing. */
  lemma ProcessOnlyLogs(s: State, turn: Turn, clock: nat -> int)
    requires turn.list.Some?
    ensures var t := Process(s, turn.share, turn.list.value, turn.order, clock);
            s.events <= t.events && t.saved == s.saved && (t.phase == s.phase || t.phase == Crashed)
  {
    var current := Current(turn.share, turn.list.value);
    ItemsKeep(s, turn.share, turn.list.value, clock);
    var t := OnItems(s, turn.share, turn.list.value, clock);
    if t.phase == Crashed { CrashedStays(t, turn.share, current, turn.order, clock); }
    else { VanishedAreDeleted(t, turn.share, current, turn.order, clock); }
  }

  // ------------------------------------------------------------- what a run records

  /** One AttachStarted per added VA, one AttachEnded per attached one, one UnattachStarted per
      deleting one; only added VAs get further. */
  predicate Accounted(s: State) {
    && s.attached <= s.added && s.deleting <= s.added
    && KindCount(s.events, PvcAttachStarted) == |s.added|
    && KindCount(s.events, PvcAttachEnded) == |s.attached|
    && KindCount(s.events, PvcUnattachStarted) == |s.deleting|
  }

  lemma KindsSnoc(log: seq<Event>, e: Event)
    ensures KindCount(log + [e], PvcAttachStarted) == KindCount(log, PvcAttachStarted) + if e.kind == PvcAttachStarted then 1 else 0
    ensures KindCount(log + [e], PvcAttachEnded) == KindCount(log, PvcAttachEnded) + if e.kind == PvcAttachEnded then 1 else 0
    ensures KindCount(log + [e], PvcUnattachStarted) == KindCount(log, PvcUnattachStarted) + if e.kind == PvcUnattachStarted then 1 else 0
  {
    KindCountSnoc(log, e, PvcAttachStarted);
    KindCountSnoc(log, e, PvcAttachEnded);
    KindCountSnoc(log, e, PvcUnattachStarted);
  }

  lemma EventStaysAccounted(s: State, e: Event, t: State)
    requires Accounted(s) && t.events == s.events + [e]
    requires t.attached <= t.added && t.deleting <= t.added
    requires |t.added| == |s.added| + (if e.kind == PvcAttachStarted then 1 else 0)
    requires |t.attached| == |s.attached| + (if e.kind == PvcAttachEnded then 1 else 0)
    requires |t.deleting| == |s.deleting| + (if e.kind == PvcUnattachStarted then 1 else 0)
    ensures Accounted(t)
  {
    KindsSnoc(s.events, e);
  }

  lemma ItemStaysAccounted(s: State, share: Share, va: VaObject, now: int)
    requires Accounted(s)
    ensures Accounted(OnItem(s, share, va, now))
  {
    if s.phase != Crashed && va.pv.Some? && va.pv.value in share {
      var t, id := OnItem(s, share, va, now), share[va.pv.value].id;
      if va.name !in s.added {
        EventStaysAccounted(s, Event(id, PvcAttachStarted, now), t);
      } else if va.attached && va.name !in s.attached {
        EventStaysAccounted(s, Event(id, PvcAttachEnded, now), t);
      } else if va.deleting && va.name !in s.deleting {
        EventStaysAccounted(s, Event(id, PvcUnattachStarted, now), t);
      }
    }
  }

  lemma {:induction false} ItemsStayAccounted(s: State, share: Share, items: seq<VaObject>, clock: nat -> int)
    requires Accounted(s)
    ensures Accounted(OnItems(s, share, items, clock))
  {
    if items == [] {
    } else {
      var front := items[..|items| - 1];
      ItemsStayAccounted(s, share, front, clock);
      var t := OnItems(s, share, front, clock);
      ItemStaysAccounted(t, share, items[|items| - 1], clock(|t.events|));
    }
  }

  lemma {:induction false} VanishedStayAccounted(s: State, share: Share, current: set<string>, order: seq<string>, clock: nat -> int)
    requires Accounted(s)
    ensures Accounted(OnVanished(s, share, current, order, clock))
  {
    if order == [] {
    } else {
      var front, pv := order[..|order| - 1], order[|order| - 1];
      VanishedStayAccounted(s, share, current, front, clock);
      var t := OnVanished(s, share, current, front, clock);
      if t.phase != Crashed && pv !in current && pv in share {
        KindsSnoc(t.events, Event(share[pv].id, PvcUnattachEnded, clock(|t.events|)));
      }
    }
  }

  lemma ListStaysAccounted(s: State, turn: Turn, clock: nat -> int)
    requires Accounted(s) && turn.list.Some?
    ensures Accounted(Process(s, turn.share, turn.list.value, turn.order, clock))
  {
    ItemsStayAccounted(s, turn.share, turn.list.value, clock);
    VanishedStayAccounted(OnItems(s, turn.share, turn.list.value, clock), turn.share,
                          Current(turn.share, turn.list.value), turn.order, clock);
  }

  /** In every run, whatever the lists and PvcShare hold. */
  lemma {:induction false} PollingAccount(shouldClean: bool, turns: seq<Turn>, clock: nat -> int)
    ensures Accounted(Run(shouldClean, turns, clock))
  {
    if turns == [] {
    } else {
      var front, turn := turns[..|turns| - 1], turns[|turns| - 1];
      PollingAccount(shouldClean, front, clock);
      if turn.list.Some? {
        var s := Run(shouldClean, front, clock);
        ListStaysAccounted(if turn.finish then s.(phase := Draining) else s, turn, clock);
      }
    }
  }

  // ------------------------------------------------- what the lists of a run say

  function Run(shouldClean: bool, turns: seq<Turn>, clock: nat -> int): State {
    if turns == [] then Init()
    else Step(Run(shouldClean, turns[..|turns| - 1], clock), shouldClean, turns[|turns| - 1], clock)
  }

  predicate Active(s: State) {
    s.phase == Looping || s.phase == Draining
  }

  predicate Listed(share: Share, va: VaObject) {
    va.pv.Some? && va.pv.value in share
  }

  function AddedIn(share: Share, items: seq<VaObject>): set<string> {
    if items == [] then {}
    else
      var va := items[|items| - 1];
      AddedIn(share, items[..|items| - 1]) + if Listed(share, va) then {va.name} else {}
  }

  /** A VA is recorded attached when it is listed attached and not for the first time. */
  function AttachedIn(known: set<string>, share: Share, items: seq<VaObject>): set<string> {
    if items == [] then {}
    else
      var front, va := items[..|items| - 1], items[|items| - 1];
      AttachedIn(known, share, front)
      + if Listed(share, va) && va.attached && va.name in known + AddedIn(share, front) then {va.name} else {}
  }

  predicate Panics(items: seq<VaObject>) {
    items != [] && (items[|items| - 1].pv == None || Panics(items[..|items| - 1]))
  }

  function Added(turns: seq<Turn>): set<string> {
    if turns == [] then {}
    else
      var front, last := turns[..|turns| - 1], turns[|turns| - 1];
      if last.list == None then Added(front) else Added(front) + AddedIn(last.share, last.list.value)
  }

  function Attached(turns: seq<Turn>): set<string> {
    if turns == [] then {}
    else
      var front, last := turns[..|turns| - 1], turns[|turns| - 1];
      if last.list == None then Attached(front)
      else Attached(front) + AttachedIn(Added(front), last.share, last.list.value)
  }

  /** The volumes that left the list and are still published. */
  function Left(present: set<string>, turn: Turn): set<string> {
    if turn.list == None then {} else present * turn.share.Keys - Current(turn.share, turn.list.value)
  }

  /** The volumes listed and not seen to leave. */
  function Present(turns: seq<Turn>): set<string> {
    if turns == [] then {}
    else
      var front, last := turns[..|turns| - 1], turns[|turns| - 1];
      Present(front) - Left(Present(front), last)
      + if last.list == None then {} else Current(last.share, last.list.value)
  }

  function Gone(turns: seq<Turn>): set<string> {
    if turns == [] then {}
    else
      var front := turns[..|turns| - 1];
      Gone(front) + Left(Present(front), turns[|turns| - 1])
  }

  /** Every poll ranges over exactly the volumes present. */
  ghost predicate Ranged(turns: seq<Turn>) {
    turns == [] ||
    var front := turns[..|turns| - 1];
    Ranged(front) && Enumerates(turns[|turns| - 1].order, Present(front))
  }

  predicate Finished(turns: seq<Turn>) {
    turns != [] && (turns[|turns| - 1].finish || Finished(turns[..|turns| - 1]))
  }

  /** No List failed and no list panics. */
  predicate Steady(turns: seq<Turn>) {
    turns == [] ||
    var last := turns[|turns| - 1];
    Steady(turns[..|turns| - 1]) && last.list.Some? && !Panics(last.list.value)
  }

  /** What the fields of a running observer are, in terms of the lists alone. */
  predicate Records(s: State, turns: seq<Turn>) {
    && s.added == Added(turns) && s.attached == Attached(turns)
    && s.previous == Present(turns) && s.deleted == Gone(turns)
    && s.saved == [] && (s.phase == Draining <==> Finished(turns))
  }

  lemma {:induction false} ItemsRecord(s: State, share: Share, items: seq<VaObject>, clock: nat -> int)
    requires Active(s)
    ensures var t := OnItems(s, share, items, clock);
            if Panics(items) then t.phase == Crashed
            else && t.phase == s.phase
                 && t.added == s.added + AddedIn(share, items)
                 && t.attached == s.attached + AttachedIn(s.added, share, items)
  {
    if items == [] {
    } else {
      ItemsRecord(s, share, items[..|items| - 1], clock);
    }
  }

  lemma ProcessRecords(s: State, turn: Turn, clock: nat -> int)
    requires Active(s) && turn.list.Some? && Enumerates(turn.order, s.previous)
    ensures var t := Process(s, turn.share, turn.list.value, turn.order, clock);
            && t.saved == s.saved
            && if Panics(turn.list.value) then t.phase == Crashed
               else && t.phase == s.phase
                    && t.added == s.added + AddedIn(turn.share, turn.list.value)
                    && t.attached == s.attached + AttachedIn(s.added, turn.share, turn.list.value)
                    && t.deleted == s.deleted + Left(s.previous, turn)
                    && t.previous == s.previous - Left(s.previous, turn) + Current(turn.share, turn.list.value)
  {
    var current := Current(turn.share, turn.list.value);
    ItemsKeep(s, turn.share, turn.list.value, clock);
    ItemsRecord(s, turn.share, turn.list.value, clock);
    var t := OnItems(s, turn.share, turn.list.value, clock);
    if t.phase == Crashed {
      CrashedStays(t, turn.share, current, turn.order, clock);
    } else {
      VanishedAreDeleted(t, turn.share, current, turn.order, clock);
      assert Vanished(turn.share, current, turn.order) == Left(s.previous, turn);
    }
  }

  lemma {:induction false} CrashedStays(s: State, share: Share, current: set<string>, order: seq<string>, clock: nat -> int)
    requires s.phase == Crashed
    ensures OnVanished(s, share, current, order, clock) == s
  {
    if order == [] {
    } else {
      CrashedStays(s, share, current, order[..|order| - 1], clock);
    }
  }

  // ------------------------------------------------------------ when a poll returns

  /** The signal is read while as many VAs are attached as volumes are gone. */
  predicate ExitsAtSignal(shouldClean: bool, turns: seq<Turn>) {
    turns != [] &&
    var front := turns[..|turns| - 1];
    Steady(front) && turns[|turns| - 1].finish && (!shouldClean || |Attached(front)| == |Gone(front)|)
  }

  /** That is so when the list has been processed, and the signal is in. */
  predicate ExitsAfterList(turns: seq<Turn>) {
    turns != [] && Steady(turns) && Finished(turns) && |Attached(turns)| == |Gone(turns)|
  }

  predicate Exits(shouldClean: bool, turns: seq<Turn>) {
    turns != [] &&
    (Exits(shouldClean, turns[..|turns| - 1]) || ExitsAtSignal(shouldClean, turns) || ExitsAfterList(turns))
  }

  /** The signal is read at the right moment: the observer saves and returns at once. */
  lemma SignalStep(s: State, shouldClean: bool, turns: seq<Turn>, clock: nat -> int)
    requires turns != [] && Active(s) && Records(s, turns[..|turns| - 1]) && ExitsAtSignal(shouldClean, turns)
    ensures Step(s, shouldClean, turns[|turns| - 1], clock) == Save(s)
  {
  }

  /** Otherwise a failed List ends it without saving ... */
  lemma FailedStep(s: State, shouldClean: bool, turns: seq<Turn>, clock: nat -> int)
    requires turns != [] && Active(s) && Records(s, turns[..|turns| - 1]) && Steady(turns[..|turns| - 1])
    requires !ExitsAtSignal(shouldClean, turns) && turns[|turns| - 1].list == None
    ensures var t := Step(s, shouldClean, turns[|turns| - 1], clock);
            t.phase == Returned && t.saved == [] && !Steady(turns)
  {
  }

  /** ... and a list that does not panic is recorded; the observer returns if sizes agree behind it. */
  lemma ListStep(s: State, shouldClean: bool, turns: seq<Turn>, clock: nat -> int)
    requires turns != [] && Enumerates(turns[|turns| - 1].order, Present(turns[..|turns| - 1]))
    requires Active(s) && Records(s, turns[..|turns| - 1]) && Steady(turns[..|turns| - 1])
    requires !ExitsAtSignal(shouldClean, turns) && turns[|turns| - 1].list.Some?
    ensures var t := Step(s, shouldClean, turns[|turns| - 1], clock);
            if !Steady(turns) then t.phase == Crashed && t.saved == []
            else if ExitsAfterList(turns) then t.phase == Returned && t.saved == [t.events]
            else Active(t) && Records(t, turns)
  {
    var last := turns[|turns| - 1];
    var s1 := if last.finish then s.(phase := Draining) else s;
    var t := Process(s1, last.share, last.list.value, last.order, clock);
    ProcessRecords(s1, last, clock);
    if Steady(turns) { ListRecords(s1, t, turns); }
    ListDecides(t, turns);
  }

  lemma ListDecides(t: State, turns: seq<Turn>)
    requires turns != [] && turns[|turns| - 1].list.Some? && Steady(turns[..|turns| - 1]) && t.saved == []
    requires if Steady(turns) then Active(t) && Records(t, turns) else t.phase == Crashed
    ensures var u := if t.phase == Draining && |t.attached| == |t.deleted| then Save(t) else t;
            if !Steady(turns) then u.phase == Crashed && u.saved == []
            else if ExitsAfterList(turns) then u.phase == Returned && u.saved == [u.events]
            else Active(u) && Records(u, turns)
  {
  }

  lemma ListRecords(s: State, t: State, turns: seq<Turn>)
    requires turns != [] && turns[|turns| - 1].list.Some?
    requires var front := turns[..|turns| - 1];
             s.added == Added(front) && s.attached == Attached(front) && s.previous == Present(front) && s.deleted == Gone(front)
    requires var last := turns[|turns| - 1];
             && t.added == s.added + AddedIn(last.share, last.list.value)
             && t.attached == s.attached + AttachedIn(s.added, last.share, last.list.value)
             && t.deleted == s.deleted + Left(s.previous, last)
             && t.previous == s.previous - Left(s.previous, last) + Current(last.share, last.list.value)
    ensures t.added == Added(turns) && t.attached == Attached(turns) && t.previous == Present(turns) && t.deleted == Gone(turns)
  {
  }

  lemma StepExits(s: State, shouldClean: bool, turns: seq<Turn>, clock: nat -> int)
    requires turns != [] && Enumerates(turns[|turns| - 1].order, Present(turns[..|turns| - 1]))
    requires Active(s) && Records(s, turns[..|turns| - 1]) && Steady(turns[..|turns| - 1])
    ensures var t := Step(s, shouldClean, turns[|turns| - 1], clock);
            if ExitsAtSignal(shouldClean, turns) || ExitsAfterList(turns) then t.phase == Returned && t.saved == [t.events]
            else if Steady(turns) then Active(t) && Records(t, turns)
            else !Active(t) && t.saved == []
  {
    if ExitsAtSignal(shouldClean, turns) { SignalStep(s, shouldClean, turns, clock); }
    else if turns[|turns| - 1].list == None { FailedStep(s, shouldClean, turns, clock); }
    else { ListStep(s, shouldClean, turns, clock); }
  }

  /** The exact end of the polled observer, for every run whatever the lists and PvcShare hold: it
      saves its whole log and returns at the first poll at which sizes agree, and otherwise ends
      only by a failed List or a panic. Until then its fields say what the lists said. */
  lemma {:induction false} ReturnsIffSizesAgree(shouldClean: bool, turns: seq<Turn>, clock: nat -> int)
    requires Ranged(turns)
    ensures var s := Run(shouldClean, turns, clock);
            && (s.saved == [s.events] <==> Exits(shouldClean, turns))
            && (s.saved == [] <==> !Exits(shouldClean, turns))
            && (s.saved != [] ==> s.phase == Returned)
            && (Active(s) <==> !Exits(shouldClean, turns) && Steady(turns))
            && (Active(s) ==> Records(s, turns))
  {
    if turns == [] {
    } else {
      var front := turns[..|turns| - 1];
      ReturnsIffSizesAgree(shouldClean, front, clock);
      var s := Run(shouldClean, front, clock);
      if Active(s) { StepExits(s, shouldClean, turns, clock); }
    }
  }

  // --------------------------------------------- what the log says, from the lists alone

  /** A VA is recorded deleting when it is listed deleting, not for the first time, and not
      newly attached. */
  function DeletingIn(known: set<string>, attached: set<string>, share: Share, items: seq<VaObject>): set<string> {
    if items == [] then {}
    else
      var front, va := items[..|items| - 1], items[|items| - 1];
      DeletingIn(known, attached, share, front)
      + if Listed(share, va) && va.deleting && va.name in known + AddedIn(share, front)
           && (va.attached ==> va.name in attached + AttachedIn(known, share, front)) then {va.name} else {}
  }

  function Deleting(turns: seq<Turn>): set<string> {
    if turns == [] then {}
    else
      var front, last := turns[..|turns| - 1], turns[|turns| - 1];
      if last.list == None then Deleting(front)
      else Deleting(front) + DeletingIn(Added(front), Attached(front), last.share, last.list.value)
  }

  /** The VA is of a volume that PvcShare holds entity id for. */
  predicate Of(share: Share, va: VaObject, id: int) {
    Listed(share, va) && share[va.pv.value].id == id
  }

  /** How many VAs of entity id a list is the first to name. */
  function Started(known: set<string>, share: Share, items: seq<VaObject>, id: int): nat {
    if items == [] then 0
    else
      var front, va := items[..|items| - 1], items[|items| - 1];
      Started(known, share, front, id) + if Of(share, va, id) && va.name !in known + AddedIn(share, front) then 1 else 0
  }

  /** How many become attached by it. */
  function Ended(known: set<string>, attached: set<string>, share: Share, items: seq<VaObject>, id: int): nat {
    if items == [] then 0
    else
      var front, va := items[..|items| - 1], items[|items| - 1];
      Ended(known, attached, share, front, id)
      + if Of(share, va, id) && va.name in AttachedIn(known, share, items)
           && va.name !in attached + AttachedIn(known, share, front) then 1 else 0
  }

  /** How many become deleting by it. */
  function Unattaching(known: set<string>, attached: set<string>, deleting: set<string>, share: Share,
                       items: seq<VaObject>, id: int): nat {
    if items == [] then 0
    else
      var front, va := items[..|items| - 1], items[|items| - 1];
      Unattaching(known, attached, deleting, share, front, id)
      + if Of(share, va, id) && va.name in DeletingIn(known, attached, share, items)
           && va.name !in deleting + DeletingIn(known, attached, share, front) then 1 else 0
  }

  /** The volumes among pvs that PvcShare holds entity id for. */
  function VolumesOf(share: Share, pvs: set<string>, id: int): set<string> {
    set pv | pv in pvs && pv in share && share[pv].id == id
  }

  /** What a turn behind others reports of entity id. */
  function Reports(front: seq<Turn>, turn: Turn, kind: EventType, id: int): nat {
    if turn.list == None then 0
    else
      var share, items := turn.share, turn.list.value;
      match kind
      case PvcAttachStarted => Started(Added(front), share, items, id)
      case PvcAttachEnded => Ended(Added(front), Attached(front), share, items, id)
      case PvcUnattachStarted => Unattaching(Added(front), Attached(front), Deleting(front), share, items, id)
      case PvcUnattachEnded => |VolumesOf(share, Left(Present(front), turn), id)|
      case _ => 0
  }

  /** What all turns report whose list is processed. */
  function Reported(shouldClean: bool, turns: seq<Turn>, kind: EventType, id: int): nat {
    if turns == [] then 0
    else
      var front := turns[..|turns| - 1];
      Reported(shouldClean, front, kind, id)
      + if Exits(shouldClean, front) || !Steady(front) || ExitsAtSignal(shouldClean, turns) then 0
        else Reports(front, turns[|turns| - 1], kind, id)
  }

  lemma ItemCounts(s: State, share: Share, va: VaObject, now: int, kind: EventType, id: int)
    requires Active(s) && va.pv.Some?
    ensures var t := OnItem(s, share, va, now);
            Count(t.events, kind, id) == Count(s.events, kind, id) +
              if !Of(share, va, id) then 0
              else if kind == PvcAttachStarted && va.name !in s.added then 1
              else if kind == PvcAttachEnded && va.name in s.added && va.attached && va.name !in s.attached then 1
              else if kind == PvcUnattachStarted && va.name in s.added && !(va.attached && va.name !in s.attached)
                      && va.deleting && va.name !in s.deleting then 1
              else 0
  {
    var t := OnItem(s, share, va, now);
    if t.events != s.events {
      CountSnoc(s.events, t.events[|s.events|], kind, id);
    }
  }

  /** What a list adds to the log. */
  function ReportedIn(s: State, share: Share, items: seq<VaObject>, kind: EventType, id: int): nat {
    match kind
    case PvcAttachStarted => Started(s.added, share, items, id)
    case PvcAttachEnded => Ended(s.added, s.attached, share, items, id)
    case PvcUnattachStarted => Unattaching(s.added, s.attached, s.deleting, share, items, id)
    case _ => 0
  }

  lemma OneMoreItem(s: State, share: Share, items: seq<VaObject>, kind: EventType, id: int)
    requires items != [] && items[|items| - 1].pv.Some?
    ensures var front, va := items[..|items| - 1], items[|items| - 1];
            var added, attached := s.added + AddedIn(share, front), s.attached + AttachedIn(s.added, share, front);
            var deleting := s.deleting + DeletingIn(s.added, s.attached, share, front);
            ReportedIn(s, share, items, kind, id) == ReportedIn(s, share, front, kind, id) +
              if !Of(share, va, id) then 0
              else if kind == PvcAttachStarted && va.name !in added then 1
              else if kind == PvcAttachEnded && va.name in added && va.attached && va.name !in attached then 1
              else if kind == PvcUnattachStarted && va.name in added && !(va.attached && va.name !in attached)
                      && va.deleting && va.name !in deleting then 1
              else 0
  {
  }

  lemma {:induction false} ItemsDelete(s: State, share: Share, items: seq<VaObject>, clock: nat -> int)
    requires Active(s) && !Panics(items)
    ensures OnItems(s, share, items, clock).deleting == s.deleting + DeletingIn(s.added, s.attached, share, items)
  {
    if items == [] {
    } else {
      ItemsDelete(s, share, items[..|items| - 1], clock);
      ItemsRecord(s, share, items[..|items| - 1], clock);
    }
  }

  lemma {:induction false} ItemsCount(s: State, share: Share, items: seq<VaObject>, clock: nat -> int, kind: EventType, id: int)
    requires Active(s) && !Panics(items)
    ensures Count(OnItems(s, share, items, clock).events, kind, id)
         == Count(s.events, kind, id) + ReportedIn(s, share, items, kind, id)
  {
    if items == [] {
    } else {
      var front := items[..|items| - 1];
      ItemsCount(s, share, front, clock, kind, id);
      ItemsRecord(s, share, front, clock);
      ItemsDelete(s, share, front, clock);
      var t := OnItems(s, share, front, clock);
      ItemCounts(t, share, items[|items| - 1], clock(|t.events|), kind, id);
      OneMoreItem(s, share, items, kind, id);
    }
  }

  lemma VolumesOfGain(share: Share, pvs: set<string>, pv: string, id: int)
    requires pv !in pvs && pv in share
    ensures |VolumesOf(share, pvs + {pv}, id)| == |VolumesOf(share, pvs, id)| + if share[pv].id == id then 1 else 0
  {
    if share[pv].id == id {
      assert VolumesOf(share, pvs + {pv}, id) == VolumesOf(share, pvs, id) + {pv};
    } else {
      assert VolumesOf(share, pvs + {pv}, id) == VolumesOf(share, pvs, id);
    }
  }

  lemma PreviousCounts(s: State, share: Share, current: set<string>, pv: string, now: int, kind: EventType, id: int)
    requires s.phase != Crashed
    ensures Count(OnPrevious(s, share, current, pv, now).events, kind, id)
         == Count(s.events, kind, id)
            + if kind == PvcUnattachEnded && pv !in current && pv in share && share[pv].id == id then 1 else 0
  {
    if pv in share { CountSnoc(s.events, Event(share[pv].id, PvcUnattachEnded, now), kind, id); }
  }

  lemma VanishedGain(share: Share, current: set<string>, front: seq<string>, pv: string, id: int)
    requires pv !in front
    ensures |VolumesOf(share, Vanished(share, current, front + [pv]), id)|
         == |VolumesOf(share, Vanished(share, current, front), id)|
            + if pv !in current && pv in share && share[pv].id == id then 1 else 0
  {
    if pv in share && pv !in current {
      VolumesOfGain(share, Vanished(share, current, front), pv, id);
      assert Vanished(share, current, front + [pv]) == Vanished(share, current, front) + {pv};
    } else {
      assert Vanished(share, current, front + [pv]) == Vanished(share, current, front);
    }
  }

  /** Each vanished volume is logged once, for the entity PvcShare holds for it now. */
  lemma {:induction false} VanishedAreLogged(s: State, share: Share, current: set<string>, order: seq<string>, clock: nat -> int,
                                             kind: EventType, id: int)
    requires s.phase != Crashed && Distinct(order)
    ensures Count(OnVanished(s, share, current, order, clock).events, kind, id)
         == Count(s.events, kind, id)
            + if kind == PvcUnattachEnded then |VolumesOf(share, Vanished(share, current, order), id)| else 0
  {
    if order == [] {
      assert VolumesOf(share, Vanished(share, current, []), id) == {};
    } else {
      var front, pv := order[..|order| - 1], order[|order| - 1];
      assert order == front + [pv];
      VanishedAreLogged(s, share, current, front, clock, kind, id);
      VanishedAreDeleted(s, share, current, front, clock);
      var t := OnVanished(s, share, current, front, clock);
      PreviousCounts(t, share, current, pv, clock(|t.events|), kind, id);
      VanishedGain(share, current, front, pv, id);
    }
  }

  lemma ProcessCounts(s: State, turn: Turn, clock: nat -> int, kind: EventType, id: int)
    requires Active(s) && turn.list.Some? && Enumerates(turn.order, s.previous) && !Panics(turn.list.value)
    ensures var t := Process(s, turn.share, turn.list.value, turn.order, clock);
            && Count(t.events, kind, id)
               == Count(s.events, kind, id) + ReportedIn(s, turn.share, turn.list.value, kind, id)
                  + (if kind == PvcUnattachEnded then |VolumesOf(turn.share, Left(s.previous, turn), id)| else 0)
            && t.deleting == s.deleting + DeletingIn(s.added, s.attached, turn.share, turn.list.value)
  {
    var current := Current(turn.share, turn.list.value);
    ItemsCount(s, turn.share, turn.list.value, clock, kind, id);
    ItemsDelete(s, turn.share, turn.list.value, clock);
    ItemsRecord(s, turn.share, turn.list.value, clock);
    ItemsKeep(s, turn.share, turn.list.value, clock);
    var t := OnItems(s, turn.share, turn.list.value, clock);
    VanishedAreLogged(t, turn.share, current, turn.order, clock, kind, id);
    VanishedAreDeleted(t, turn.share, current, turn.order, clock);
    assert Vanished(turn.share, current, turn.order) == Left(s.previous, turn);
  }

  lemma ReportsAre(s: State, front: seq<Turn>, turn: Turn, kind: EventType, id: int)
    requires s.added == Added(front) && s.attached == Attached(front) && s.previous == Present(front)
    requires s.deleting == Deleting(front) && turn.list.Some?
    ensures Reports(front, turn, kind, id)
         == ReportedIn(s, turn.share, turn.list.value, kind, id)
            + if kind == PvcUnattachEnded then |VolumesOf(turn.share, Left(s.previous, turn), id)| else 0
  {
  }

  lemma DeletingAre(s: State, turns: seq<Turn>, deleting: set<string>)
    requires turns != [] && turns[|turns| - 1].list.Some?
    requires var front := turns[..|turns| - 1];
             s.added == Added(front) && s.attached == Attached(front) && s.deleting == Deleting(front)
    requires deleting == s.deleting + DeletingIn(s.added, s.attached, turns[|turns| - 1].share, turns[|turns| - 1].list.value)
    ensures deleting == Deleting(turns)
  {
  }

  /** One turn of a running observer logs what the turn reports. */
  lemma ListCounts(s: State, turns: seq<Turn>, clock: nat -> int, kind: EventType, id: int)
    requires turns != [] && turns[|turns| - 1].list.Some? && !Panics(turns[|turns| - 1].list.value)
    requires var front := turns[..|turns| - 1];
             && s.added == Added(front) && s.attached == Attached(front) && s.previous == Present(front)
             && s.deleting == Deleting(front) && Enumerates(turns[|turns| - 1].order, s.previous) && Active(s)
    ensures var front, last := turns[..|turns| - 1], turns[|turns| - 1];
            var t := Process(s, last.share, last.list.value, last.order, clock);
            && Count(t.events, kind, id) == Count(s.events, kind, id) + Reports(front, last, kind, id)
            && t.deleting == Deleting(turns)
  {
    var front, last := turns[..|turns| - 1], turns[|turns| - 1];
    ProcessCounts(s, last, clock, kind, id);
    ReportsAre(s, front, last, kind, id);
    DeletingAre(s, turns, Process(s, last.share, last.list.value, last.order, clock).deleting);
  }

  lemma StepProcesses(s: State, shouldClean: bool, turns: seq<Turn>, clock: nat -> int)
    requires turns != [] && Active(s) && Records(s, turns[..|turns| - 1]) && Steady(turns[..|turns| - 1])
    requires !ExitsAtSignal(shouldClean, turns) && turns[|turns| - 1].list.Some?
    ensures var last, t := turns[|turns| - 1], Step(s, shouldClean, turns[|turns| - 1], clock);
            var u := Process(if last.finish then s.(phase := Draining) else s, last.share, last.list.value, last.order, clock);
            t.events == u.events && t.deleting == u.deleting
  {
  }

  lemma StepCounts(s: State, shouldClean: bool, turns: seq<Turn>, clock: nat -> int, kind: EventType, id: int)
    requires turns != [] && Enumerates(turns[|turns| - 1].order, Present(turns[..|turns| - 1]))
    requires Active(s) && Records(s, turns[..|turns| - 1]) && s.deleting == Deleting(turns[..|turns| - 1])
    requires Steady(turns[..|turns| - 1]) && Step(s, shouldClean, turns[|turns| - 1], clock).phase != Crashed
    ensures var t := Step(s, shouldClean, turns[|turns| - 1], clock);
            && Count(t.events, kind, id)
               == Count(s.events, kind, id)
                  + (if ExitsAtSignal(shouldClean, turns) then 0 else Reports(turns[..|turns| - 1], turns[|turns| - 1], kind, id))
            && (Active(t) ==> t.deleting == Deleting(turns))
  {
    var last := turns[|turns| - 1];
    if ExitsAtSignal(shouldClean, turns) { SignalStep(s, shouldClean, turns, clock); }
    else if last.list == None { FailedStep(s, shouldClean, turns, clock); FailedLogsNothing(s, shouldClean, last, clock); }
    else {
      ListStep(s, shouldClean, turns, clock);
      StepProcesses(s, shouldClean, turns, clock);
      ListCounts(if last.finish then s.(phase := Draining) else s, turns, clock, kind, id);
    }
  }

  lemma FailedLogsNothing(s: State, shouldClean: bool, turn: Turn, clock: nat -> int)
    requires Active(s) && turn.list == None
    ensures Step(s, shouldClean, turn, clock).events == s.events
  {
  }

  /** In every run that does not panic the log is told by the lists: of each kind and each entity it holds
      as many events as the processed lists report. A volume that left the list is reported as
      PvcUnattachEnded once, for the entity PvcShare held for it at that poll. */
  lemma {:induction false} LogTellsLists(shouldClean: bool, turns: seq<Turn>, clock: nat -> int, kind: EventType, id: int)
    requires Ranged(turns) && Run(shouldClean, turns, clock).phase != Crashed
    ensures var s := Run(shouldClean, turns, clock);
            && Count(s.events, kind, id) == Reported(shouldClean, turns, kind, id)
            && (Active(s) ==> s.deleting == Deleting(turns))
  {
    if turns == [] {
    } else {
      var front, last := turns[..|turns| - 1], turns[|turns| - 1];
      ReturnsIffSizesAgree(shouldClean, front, clock);
      var s := Run(shouldClean, front, clock);
      LogTellsLists(shouldClean, front, clock, kind, id);
      if Active(s) { StepCounts(s, shouldClean, turns, clock, kind, id); } else { NothingReported(shouldClean, turns, kind, id); }
    }
  }

  lemma {:induction false} ItemsClocked(s: State, share: Share, items: seq<VaObject>, clock: nat -> int)
    requires Clocked(s.events, clock)
    ensures Clocked(OnItems(s, share, items, clock).events, clock)
  {
    if items == [] {
    } else {
      ItemsClocked(s, share, items[..|items| - 1], clock);
    }
  }

  lemma {:induction false} VanishedClocked(s: State, share: Share, current: set<string>, order: seq<string>, clock: nat -> int)
    requires Clocked(s.events, clock)
    ensures Clocked(OnVanished(s, share, current, order, clock).events, clock)
  {
    if order == [] {
    } else {
      VanishedClocked(s, share, current, order[..|order| - 1], clock);
    }
  }

  /** Every event carries the time of its logging. */
  lemma {:induction false} LogIsClocked(shouldClean: bool, turns: seq<Turn>, clock: nat -> int)
    ensures Clocked(Run(shouldClean, turns, clock).events, clock)
  {
    if turns == [] {
    } else {
      var s, turn := Run(shouldClean, turns[..|turns| - 1], clock), turns[|turns| - 1];
      LogIsClocked(shouldClean, turns[..|turns| - 1], clock);
      if turn.list.Some? {
        var s1 := if turn.finish then s.(phase := Draining) else s;
        ItemsClocked(s1, turn.share, turn.list.value, clock);
        VanishedClocked(OnItems(s1, turn.share, turn.list.value, clock), turn.share,
                        Current(turn.share, turn.list.value), turn.order, clock);
      }
    }
  }

  lemma NothingReported(shouldClean: bool, turns: seq<Turn>, kind: EventType, id: int)
    requires turns != [] && (Exits(shouldClean, turns[..|turns| - 1]) || !Steady(turns[..|turns| - 1]))
    ensures Reported(shouldClean, turns, kind, id) == Reported(shouldClean, turns[..|turns| - 1], kind, id)
  {
  }

  // --------------------------------------------------- attachments against volumes

  function Image(pvOf: string -> string, names: set<string>): set<string> {
    set n | n in names :: pvOf(n)
  }

  ghost predicate InjectiveOn(pvOf: string -> string, names: set<string>) {
    forall n, m :: n in names && m in names && pvOf(n) == pvOf(m) ==> n == m
  }

  lemma {:induction false} ImageSize(pvOf: string -> string, names: set<string>)
    ensures |Image(pvOf, names)| <= |names|
    ensures |Image(pvOf, names)| == |names| <==> InjectiveOn(pvOf, names)
    decreases |names|
  {
    if names == {} {
      assert Image(pvOf, names) == {};
    } else {
      var n :| n in names;
      var rest := names - {n};
      ImageSize(pvOf, rest);
      if pvOf(n) in Image(pvOf, rest) {
        assert Image(pvOf, names) == Image(pvOf, rest);
      } else {
        assert Image(pvOf, names) == Image(pvOf, rest) + {pvOf(n)};
      }
    }
  }

  /** The volumes of attached VAs that are not gone. */
  function Outstanding(pvOf: string -> string, turns: seq<Turn>): set<string> {
    Image(pvOf, Attached(turns)) - Gone(turns)
  }

  /** The volumes gone of which no VA was recorded attached. */
  function Strangers(pvOf: string -> string, turns: seq<Turn>): set<string> {
    Gone(turns) - Image(pvOf, Attached(turns))
  }

  /** How many attached VAs there are beyond one per volume. */
  function Shared(pvOf: string -> string, turns: seq<Turn>): int {
    |Attached(turns)| - |Image(pvOf, Attached(turns))|
  }

  /** What comparing the sizes decides: shared and outstanding volumes are made up for by strangers. */
  lemma SizesDecide(pvOf: string -> string, turns: seq<Turn>)
    ensures |Attached(turns)| == |Gone(turns)|
       <==> Shared(pvOf, turns) + |Outstanding(pvOf, turns)| == |Strangers(pvOf, turns)|
    ensures Shared(pvOf, turns) >= 0
    ensures Shared(pvOf, turns) == 0 <==> InjectiveOn(pvOf, Attached(turns))
    ensures |Outstanding(pvOf, turns)| == 0 <==> Outstanding(pvOf, turns) == {}
    ensures |Strangers(pvOf, turns)| == 0 <==> Strangers(pvOf, turns) == {}
  {
    ImageSize(pvOf, Attached(turns));
    VaWatch.SizesDiffer(Image(pvOf, Attached(turns)), Gone(turns));
  }

  /** A running observer has processed a list behind the signal. */
  predicate AtListEnd(turns: seq<Turn>) {
    turns != [] && Steady(turns) && Finished(turns) && !Exits(true, turns[..|turns| - 1]) && !ExitsAtSignal(true, turns)
  }

  /** What the end of a poll decides once the signal is in, for any volume of each VA. The poll returns
      exactly if strangers make up for the shared and the outstanding volumes; too early, if some
      are outstanding. With nothing outstanding, shared volumes block it exactly unless strangers
      make up for them. */
  lemma DrainDecision(pvOf: string -> string, turns: seq<Turn>, clock: nat -> int)
    requires Ranged(turns)
    ensures AtListEnd(turns) ==>
              var returned := Run(true, turns, clock).phase == Returned;
              var outstanding, strangers := |Outstanding(pvOf, turns)|, |Strangers(pvOf, turns)|;
              && (returned <==> Shared(pvOf, turns) + outstanding == strangers)
              && (returned && Outstanding(pvOf, turns) != {}
                  <==> Shared(pvOf, turns) + outstanding == strangers > Shared(pvOf, turns))
              && (Outstanding(pvOf, turns) == {} ==> (!returned <==> Shared(pvOf, turns) != strangers))
  {
    ReturnsIffSizesAgree(true, turns, clock);
    SizesDecide(pvOf, turns);
  }

  /** The same when the signal is read, of the lists before it. */
  lemma SignalDecision(pvOf: string -> string, turns: seq<Turn>)
    requires turns != [] && Steady(turns[..|turns| - 1]) && turns[|turns| - 1].finish
    ensures var front := turns[..|turns| - 1];
            ExitsAtSignal(true, turns)
            <==> Shared(pvOf, front) + |Outstanding(pvOf, front)| == |Strangers(pvOf, front)|
  {
    SizesDecide(pvOf, turns[..|turns| - 1]);
  }

  // -------------------------------------------- lists without strangers

  /** Whenever a volume leaves the list, a VA of it has been recorded attached. */
  predicate NoStrangers(pvOf: string -> string, turns: seq<Turn>) {
    turns == [] || (NoStrangers(pvOf, turns[..|turns| - 1]) && Strangers(pvOf, turns) == {})
  }

  /** All attached VAs are of different volumes and exactly these are gone. */
  ghost predicate Drained(pvOf: string -> string, turns: seq<Turn>) {
    InjectiveOn(pvOf, Attached(turns)) && Gone(turns) == Image(pvOf, Attached(turns))
  }

  /** Without strangers, comparing the sizes decides whether the drain is complete. */
  lemma SizesDecideDrained(pvOf: string -> string, turns: seq<Turn>)
    ensures Strangers(pvOf, turns) == {} ==> (|Attached(turns)| == |Gone(turns)| <==> Drained(pvOf, turns))
    ensures Drained(pvOf, turns) ==> |Attached(turns)| == |Gone(turns)|
  {
    SizesDecide(pvOf, turns);
  }

  lemma {:induction false} NoStrangersBefore(pvOf: string -> string, turns: seq<Turn>, k: nat)
    requires NoStrangers(pvOf, turns) && k <= |turns|
    ensures Strangers(pvOf, turns[..k]) == {}
  {
    if k == |turns| {
      assert turns[..k] == turns;
    } else {
      NoStrangersBefore(pvOf, turns[..|turns| - 1], k);
      assert turns[..|turns| - 1][..k] == turns[..k];
    }
  }

  /** Without strangers a poll returns if and only if the drain is complete when the signal is read
      or once that very poll is processed. */
  lemma ReturnsExactlyWhenDrained(pvOf: string -> string, turns: seq<Turn>, clock: nat -> int)
    requires Ranged(turns) && turns != []
    ensures Steady(turns) && NoStrangers(pvOf, turns) && !Exits(true, turns[..|turns| - 1]) ==>
              (Run(true, turns, clock).phase == Returned
               <==> (turns[|turns| - 1].finish && Drained(pvOf, turns[..|turns| - 1]))
                    || (Finished(turns) && Drained(pvOf, turns)))
  {
    ReturnsIffSizesAgree(true, turns, clock);
    if Steady(turns) && NoStrangers(pvOf, turns) { ExitsWhenDrained(pvOf, turns); }
  }

  lemma ExitsWhenDrained(pvOf: string -> string, turns: seq<Turn>)
    requires turns != [] && Steady(turns) && NoStrangers(pvOf, turns)
    ensures ExitsAtSignal(true, turns) <==> turns[|turns| - 1].finish && Drained(pvOf, turns[..|turns| - 1])
    ensures ExitsAfterList(turns) <==> Finished(turns) && Drained(pvOf, turns)
  {
    NoStrangersBefore(pvOf, turns, |turns| - 1);
    SizesDecideDrained(pvOf, turns[..|turns| - 1]);
    SizesDecideDrained(pvOf, turns);
  }

  /** A run returned with its log saved was drained at some poll; otherwise it returned with nothing
      saved because a List failed. */
  lemma {:induction false} ReturnedMeansDrained(pvOf: string -> string, turns: seq<Turn>, clock: nat -> int)
    requires Ranged(turns) && NoStrangers(pvOf, turns) && Run(true, turns, clock).phase == Returned
    ensures var s := Run(true, turns, clock);
            || (s.saved == [s.events] && exists k :: 0 <= k <= |turns| && Drained(pvOf, turns[..k]))
            || (s.saved == [] && exists i :: 0 <= i < |turns| && turns[i].list == None)
  {
    ReturnsIffSizesAgree(true, turns, clock);
    if Exits(true, turns) { ExitIsDrained(pvOf, turns); } else { FailedList(turns, clock); }
  }

  lemma {:induction false} ExitIsDrained(pvOf: string -> string, turns: seq<Turn>)
    requires NoStrangers(pvOf, turns) && Exits(true, turns)
    ensures exists k :: 0 <= k <= |turns| && Drained(pvOf, turns[..k])
  {
    var front := turns[..|turns| - 1];
    if Exits(true, front) {
      ExitIsDrained(pvOf, front);
      var k :| 0 <= k <= |front| && Drained(pvOf, front[..k]);
      assert turns[..k] == front[..k];
    } else {
      NoStrangersBefore(pvOf, turns, |front|);
      SizesDecideDrained(pvOf, front);
      SizesDecideDrained(pvOf, turns);
      assert turns[..|turns|] == turns;
    }
  }

  lemma {:induction false} FailedList(turns: seq<Turn>, clock: nat -> int)
    requires Ranged(turns) && Run(true, turns, clock).phase == Returned && !Exits(true, turns)
    ensures exists i :: 0 <= i < |turns| && turns[i].list == None
  {
    var front, last := turns[..|turns| - 1], turns[|turns| - 1];
    ReturnsIffSizesAgree(true, front, clock);
    var s := Run(true, front, clock);
    if !Active(s) {
      FailedList(front, clock);
      var i :| 0 <= i < |front| && front[i].list == None;
      assert turns[i].list == None;
    } else if last.list.Some? {
      ListStep(s, true, turns, clock);
    }
  }

  lemma {:induction false} AttachedGrows(turns: seq<Turn>, k: nat)
    requires k <= |turns|
    ensures Attached(turns[..k]) <= Attached(turns)
  {
    if k == |turns| {
      assert turns[..k] == turns;
    } else {
      AttachedGrows(turns[..|turns| - 1], k);
      assert turns[..|turns| - 1][..k] == turns[..k];
    }
  }

  lemma SharedIsNotDrained(pvOf: string -> string, turns: seq<Turn>, k: nat, n: string, m: string)
    requires k <= |turns| && Strangers(pvOf, turns) == {}
    requires n in Attached(turns[..k]) && m in Attached(turns[..k]) && n != m && pvOf(n) == pvOf(m)
    ensures |Attached(turns)| != |Gone(turns)|
  {
    AttachedGrows(turns, k);
    SizesDecideDrained(pvOf, turns);
  }

  lemma NoExitHere(turns: seq<Turn>)
    requires turns != [] && !Exits(true, turns[..|turns| - 1])
    requires |Attached(turns[..|turns| - 1])| != |Gone(turns[..|turns| - 1])| && |Attached(turns)| != |Gone(turns)|
    ensures !Exits(true, turns)
  {
  }

  /** As long as no stranger leaves the list, two recorded attachments of one volume, as on two nodes,
      keep the observer from ever saving: the volume is counted gone only once. */
  lemma {:induction false} SharedVolumeNeverDrains(pvOf: string -> string, turns: seq<Turn>, k: nat, n: string, m: string)
    requires NoStrangers(pvOf, turns) && k <= |turns| && !Exits(true, turns[..k])
    requires n in Attached(turns[..k]) && m in Attached(turns[..k]) && n != m && pvOf(n) == pvOf(m)
    ensures !Exits(true, turns)
  {
    if k == |turns| {
      assert turns[..k] == turns;
    } else {
      var front := turns[..|turns| - 1];
      assert front[..k] == turns[..k];
      SharedVolumeNeverDrains(pvOf, front, k, n, m);
      NoStrangersBefore(pvOf, turns, |front|);
      SharedIsNotDrained(pvOf, front, k, n, m);
      SharedIsNotDrained(pvOf, turns, k, n, m);
      NoExitHere(turns);
    }
  }

  // ------------------------------------------------------------------- three runs

  const SHARE: Share := map["p" := Entity(1, "p-claim", "p-uid", 1, EntityType.Pvc),
                            "q" := Entity(2, "q-claim", "q-uid", 1, EntityType.Pvc)]

  function Va(name: string, pv: string): VaObject {
    VaWatch.VaObject(name, Some(pv), true, false)
  }

  /** The VA c is of volume q, all others of volume p. */
  function VolumeOf(name: string): string {
    if name == "c" then "q" else "p"
  }

  lemma ImageIsP(names: set<string>)
    requires names != {} && "c" !in names
    ensures Image(VolumeOf, names) == {"p"}
  {
    var n :| n in names;
    assert VolumeOf(n) == "p";
    forall m | m in names ensures VolumeOf(m) == "p" {}
  }

  function ListTurn(finish: bool, items: seq<VaObject>, order: seq<string>): Turn {
    Turn(finish, Some(items), SHARE, order)
  }

  lemma TurnSnoc(turns: seq<Turn>, next: Turn)
    requires next.list.Some?
    ensures var all, current := turns + [next], Current(next.share, next.list.value);
            && Added(all) == Added(turns) + AddedIn(next.share, next.list.value)
            && Attached(all) == Attached(turns) + AttachedIn(Added(turns), next.share, next.list.value)
            && Gone(all) == Gone(turns) + (Present(turns) * next.share.Keys - current)
            && Present(all) == Present(turns) - (Present(turns) * next.share.Keys - current) + current
            && (Steady(all) <==> Steady(turns) && !Panics(next.list.value))
            && (Finished(all) <==> Finished(turns) || next.finish)
            && (Ranged(all) <==> Ranged(turns) && Enumerates(next.order, Present(turns)))
            && all[..|all| - 1] == turns && all[|all| - 1] == next
  {
    assert (turns + [next])[..|turns|] == turns;
  }

  lemma ItemsSnoc(known: set<string>, items: seq<VaObject>, va: VaObject)
    requires va.pv.Some? && va.pv.value in SHARE && va.attached && !Panics(items)
    ensures var all := items + [va];
            && AddedIn(SHARE, all) == AddedIn(SHARE, items) + {va.name}
            && AttachedIn(known, SHARE, all)
               == AttachedIn(known, SHARE, items) + (if va.name in known + AddedIn(SHARE, items) then {va.name} else {})
            && Current(SHARE, all) == Current(SHARE, items) + {va.pv.value}
            && !Panics(all)
  {
    assert (items + [va])[..|items|] == items;
    CurrentSnoc(SHARE, items, va);
  }

  lemma OneListed(known: set<string>, va: VaObject)
    requires va.pv.Some? && va.pv.value in SHARE && va.attached
    ensures AddedIn(SHARE, [va]) == {va.name} && Current(SHARE, [va]) == {va.pv.value} && !Panics([va])
    ensures AttachedIn(known, SHARE, [va]) == if va.name in known then {va.name} else {}
  {
    ItemsSnoc(known, [], va);
    assert [] + [va] == [va] && Current(SHARE, []) == {};
  }

  lemma TwoListed(known: set<string>, va: VaObject, vb: VaObject)
    requires va.pv.Some? && va.pv.value in SHARE && va.attached
    requires vb.pv.Some? && vb.pv.value in SHARE && vb.attached && va.name != vb.name
    ensures AddedIn(SHARE, [va, vb]) == {va.name, vb.name} && Current(SHARE, [va, vb]) == {va.pv.value, vb.pv.value}
    ensures !Panics([va, vb])
    ensures AttachedIn(known, SHARE, [va, vb]) == set n | n in {va.name, vb.name} && n in known
  {
    OneListed(known, va);
    ItemsSnoc(known, [va], vb);
    assert [va] + [vb] == [va, vb];
  }

  /** What the lists say that a run needs to know of them. */
  ghost predicate Say(turns: seq<Turn>, added: set<string>, attached: set<string>, present: set<string>, gone: set<string>) {
    && Ranged(turns) && Steady(turns)
    && Added(turns) == added && Attached(turns) == attached && Present(turns) == present && Gone(turns) == gone
  }

  lemma SaySnoc(turns: seq<Turn>, added: set<string>, attached: set<string>, present: set<string>, gone: set<string>,
                finish: bool, items: seq<VaObject>, order: seq<string>, newly: set<string>, current: set<string>)
    requires Say(turns, added, attached, present, gone) && Enumerates(order, present) && present <= SHARE.Keys
    requires !Panics(items) && AttachedIn(added, SHARE, items) == newly && Current(SHARE, items) == current
    ensures Say(turns + [ListTurn(finish, items, order)], added + AddedIn(SHARE, items), attached + newly,
                current, gone + (present - current))
    ensures Finished(turns + [ListTurn(finish, items, order)]) <==> Finished(turns) || finish
  {
    TurnSnoc(turns, ListTurn(finish, items, order));
    assert present * SHARE.Keys == present && present - (present - current) + current == current;
  }

  /** A first list of new VAs and a second one of some of them. */
  lemma TwoPolls(first: seq<VaObject>, second: seq<VaObject>, order: seq<string>,
                 known: set<string>, present: set<string>, again: set<string>, current: set<string>) returns (turns: seq<Turn>)
    requires !Panics(first) && AddedIn(SHARE, first) == known && Current(SHARE, first) == present
    requires AttachedIn({}, SHARE, first) == {}
    requires !Panics(second) && AddedIn(SHARE, second) <= known && AttachedIn(known, SHARE, second) == again
    requires Current(SHARE, second) == current && Enumerates(order, present) && present <= SHARE.Keys
    ensures Say(turns, known, again, current, present - current) && !Finished(turns)
  {
    turns := [ListTurn(false, first, [])];
    SaySnoc([], {}, {}, {}, {}, false, first, [], {}, present);
    assert [] + turns == turns;
    SaySnoc(turns, known, {}, present, {}, false, second, order, again, current);
    turns := turns + [ListTurn(false, second, order)];
    assert known + AddedIn(SHARE, second) == known;
  }

  lemma {:induction false} NoExitWithoutSignal(turns: seq<Turn>)
    requires !Finished(turns)
    ensures !Exits(true, turns)
  {
    if turns == [] {
    } else {
      NoExitWithoutSignal(turns[..|turns| - 1]);
    }
  }

  /** The poll that finds the signal. */
  lemma FirstSignalDecides(front: seq<Turn>, turn: Turn, clock: nat -> int)
    requires Ranged(front + [turn]) && Steady(front + [turn]) && !Finished(front) && turn.finish
    ensures var turns := front + [turn];
            var agree := (|Attached(front)| == |Gone(front)|) || (|Attached(turns)| == |Gone(turns)|);
            Run(true, turns, clock).phase == if agree then Returned else Draining
  {
    assert (front + [turn])[..|front|] == front;
    NoExitWithoutSignal(front);
    SignalDecides(front + [turn], clock);
  }

  lemma SignalDecides(turns: seq<Turn>, clock: nat -> int)
    requires turns != [] && Ranged(turns) && Steady(turns) && Finished(turns) && turns[|turns| - 1].finish
    requires !Exits(true, turns[..|turns| - 1])
    ensures var front := turns[..|turns| - 1];
            var agree := (|Attached(front)| == |Gone(front)|) || (|Attached(turns)| == |Gone(turns)|);
            Run(true, turns, clock).phase == if agree then Returned else Draining
  {
    ReturnsIffSizesAgree(true, turns, clock);
  }

  lemma LastPoll(front: seq<Turn>, added: set<string>, attached: set<string>, present: set<string>, gone: set<string>,
                 items: seq<VaObject>, order: seq<string>, newly: set<string>, current: set<string>, clock: nat -> int)
    returns (turns: seq<Turn>)
    requires Say(front, added, attached, present, gone) && !Finished(front)
    requires Enumerates(order, present) && present <= SHARE.Keys
    requires !Panics(items) && AttachedIn(added, SHARE, items) == newly && Current(SHARE, items) == current
    ensures Ranged(turns) && Attached(turns) == attached + newly && Gone(turns) == gone + (present - current)
    ensures var agree := (|attached| == |gone|) || (|attached + newly| == |gone + (present - current)|);
            Run(true, turns, clock).phase == if agree then Returned else Draining
  {
    turns := front + [ListTurn(true, items, order)];
    SaySnoc(front, added, attached, present, gone, true, items, order, newly, current);
    FirstSignalDecides(front, ListTurn(true, items, order), clock);
  }

  /** Two polls, then one that finds the signal; left is what the last list still holds. */
  lemma ThreePolls(first: seq<VaObject>, second: seq<VaObject>, order: seq<string>, last: seq<VaObject>, lastOrder: seq<string>,
                   known: set<string>, present: set<string>, again: set<string>, current: set<string>, left: set<string>,
                   clock: nat -> int) returns (turns: seq<Turn>)
    requires !Panics(first) && AddedIn(SHARE, first) == known && Current(SHARE, first) == present
    requires AttachedIn({}, SHARE, first) == {}
    requires !Panics(second) && AddedIn(SHARE, second) <= known && AttachedIn(known, SHARE, second) == again
    requires Current(SHARE, second) == current && Enumerates(order, present) && present <= SHARE.Keys
    requires !Panics(last) && AttachedIn(known, SHARE, last) <= again && Current(SHARE, last) == left
    requires Enumerates(lastOrder, current) && current <= present
    ensures Ranged(turns) && Attached(turns) == again && Gone(turns) == present - left * current
    ensures var agree := (|again| == |present - current|) || (|again| == |present - left * current|);
            Run(true, turns, clock).phase == if agree then Returned else Draining
  {
    var front := TwoPolls(first, second, order, known, present, again, current);
    var newly := AttachedIn(known, SHARE, last);
    assert again + newly == again;
    assert (present - current) + (current - left) == present - left * current;
    turns := LastPoll(front, known, again, current, present - current, last, lastOrder, newly, left, clock);
  }

  lemma Volumes(turns: seq<Turn>, attached: set<string>, gone: set<string>)
    requires Attached(turns) == attached && Gone(turns) == gone && attached != {} && "c" !in attached
    ensures Shared(VolumeOf, turns) == |attached| - 1
    ensures Outstanding(VolumeOf, turns) == {"p"} - gone && Strangers(VolumeOf, turns) == gone - {"p"}
  {
    ImageIsP(attached);
  }

  /** The same, of VAs of volume p, in terms of volumes. */
  lemma VolumePolls(first: seq<VaObject>, second: seq<VaObject>, order: seq<string>, last: seq<VaObject>,
                    known: set<string>, present: set<string>, again: set<string>, left: set<string>, gone: set<string>,
                    shared: int, outstanding: set<string>, strangers: set<string>, agree: bool,
                    clock: nat -> int) returns (turns: seq<Turn>)
    requires !Panics(first) && AddedIn(SHARE, first) == known && Current(SHARE, first) == present
    requires AttachedIn({}, SHARE, first) == {}
    requires !Panics(second) && AddedIn(SHARE, second) <= known && AttachedIn(known, SHARE, second) == again
    requires Current(SHARE, second) == {"p"} <= present && Enumerates(order, present) && present <= SHARE.Keys
    requires !Panics(last) && AttachedIn(known, SHARE, last) <= again && Current(SHARE, last) == left
    requires again != {} && "c" !in again && shared == |again| - 1
    requires gone == present - left * {"p"} && outstanding == {"p"} - gone && strangers == gone - {"p"}
    requires agree <==> (|again| == |present - {"p"}|) || (|again| == |gone|)
    ensures Ranged(turns) && Shared(VolumeOf, turns) == shared
    ensures Outstanding(VolumeOf, turns) == outstanding && Strangers(VolumeOf, turns) == strangers
    ensures Run(true, turns, clock).phase == if agree then Returned else Draining
  {
    turns := ThreePolls(first, second, order, last, ["p"], known, present, again, {"p"}, left, clock);
    Volumes(turns, again, gone);
  }

  /** The VAs a and b of volume p are listed twice and then gone with it: nothing is outstanding,
      nothing is strange, and the observer is blocked. */
  lemma SharedVolumeBlocks(clock: nat -> int) returns (turns: seq<Turn>)
    ensures Ranged(turns) && Shared(VolumeOf, turns) == 1
    ensures Outstanding(VolumeOf, turns) == {} && Strangers(VolumeOf, turns) == {}
    ensures Run(true, turns, clock).phase == Draining
  {
    var ab := [Va("a", "p"), Va("b", "p")];
    TwoListed({}, Va("a", "p"), Va("b", "p"));
    TwoListed({"a", "b"}, Va("a", "p"), Va("b", "p"));
    turns := VolumePolls(ab, ab, ["p"], [], {"a", "b"}, {"p"}, {"a", "b"}, {}, {"p"}, 1, {}, {}, false, clock);
  }

  lemma ThirdListed(ab: seq<VaObject>)
    requires !Panics(ab) && AddedIn(SHARE, ab) == {"a", "b"} && Current(SHARE, ab) == {"p"} && AttachedIn({}, SHARE, ab) == {}
    ensures var abc := ab + [Va("c", "q")];
            && !Panics(abc) && AddedIn(SHARE, abc) == {"a", "b", "c"} && Current(SHARE, abc) == {"p", "q"}
            && AttachedIn({}, SHARE, abc) == {}
  {
    ItemsSnoc({}, ab, Va("c", "q"));
  }

  lemma TwoAgainstTwo()
    ensures {"p", "q"} == {"p", "q"} - {} * {"p"} && {"p"} - {"p", "q"} == {} && {"p", "q"} - {"p"} == {"q"}
    ensures |{"a", "b"}| == 2 && |{"p", "q"}| == 2
    ensures Enumerates(["p", "q"], {"p", "q"}) && {"p", "q"} <= SHARE.Keys
    ensures Current(SHARE, []) == {} && AttachedIn({"a", "b", "c"}, SHARE, []) == {} <= {"a", "b"}
  {
  }

  /** With a VA c of volume q, listed once and then gone, the same two do not block it. */
  lemma StrangerUnblocks(clock: nat -> int) returns (turns: seq<Turn>)
    ensures Ranged(turns) && Shared(VolumeOf, turns) == 1
    ensures Outstanding(VolumeOf, turns) == {} && Strangers(VolumeOf, turns) == {"q"}
    ensures Run(true, turns, clock).phase == Returned
  {
    var ab := [Va("a", "p"), Va("b", "p")];
    TwoListed({}, Va("a", "p"), Va("b", "p"));
    ThirdListed(ab);
    TwoListed({"a", "b", "c"}, Va("a", "p"), Va("b", "p"));
    TwoAgainstTwo();
    turns := VolumePolls(ab + [Va("c", "q")], ab, ["p", "q"], [], {"a", "b", "c"}, {"p", "q"}, {"a", "b"}, {},
                         {"p", "q"}, 1, {}, {"q"}, true, clock);
  }

  /** With a alone attached and still listed, c ends the drain too early. */
  lemma PrematureExit(clock: nat -> int) returns (turns: seq<Turn>)
    ensures Ranged(turns) && Shared(VolumeOf, turns) == 0
    ensures Outstanding(VolumeOf, turns) == {"p"} && Strangers(VolumeOf, turns) == {"q"}
    ensures Run(true, turns, clock).phase == Returned
  {
    TwoListed({}, Va("a", "p"), Va("c", "q"));
    OneListed({"a", "c"}, Va("a", "p"));
    turns := VolumePolls([Va("a", "p"), Va("c", "q")], [Va("a", "p")], ["p", "q"], [Va("a", "p")], {"a", "c"}, {"p", "q"},
                         {"a"}, {"p"}, {"q"}, 0, {"p"}, {"q"}, true, clock);
  }
}
