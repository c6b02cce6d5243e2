/** The watch-driven VolumeAttachment observer and its drain-before-exit rule (pkg/observer/va.go). */
module VaWatch {
  import opened Store
  import opened Observer

  /** pv is the optional Spec.Source.PersistentVolumeName. */
  datatype VaObject = VaObject(name: string, pv: Option<string>, attached: bool, deleting: bool)

  datatype State = State(
    events: seq<Event>,
    attached: set<string>,
    deleting: set<string>,
    deleted: set<string>,
    saved: seq<seq<Event>>,
    phase: Phase)

  function Init(): State {
    State([], {}, {}, {}, [], Looping)
  }

  function Save(s: State): State {
    s.(saved := s.saved + [s.events], phase := Returned)
  }

  function OnChange(s: State, entity: Entity, kind: WatchKind, va: VaObject, now: int): State {
    match kind
    case Added => s.(events := s.events + [Event(entity.id, PvcAttachStarted, now)])
    case Modified =>
      if va.attached && va.name !in s.attached then
        s.(attached := s.attached + {va.name}, events := s.events + [Event(entity.id, PvcAttachEnded, now)])
      else if va.deleting && va.name !in s.deleting then
        s.(deleting := s.deleting + {va.name}, events := s.events + [Event(entity.id, PvcUnattachStarted, now)])
      else s
    case Deleted =>
      var t := s.(deleted := s.deleted + {va.name}, events := s.events + [Event(entity.id, PvcUnattachEnded, now)]);
      if t.phase == Draining && |t.attached| == |t.deleted| then Save(t) else t
    case Other => s
  }

  function Step(s: State, share: map<string, Entity>, shouldClean: bool, input: Input<VaObject>, now: int): State {
    if s.phase != Looping && s.phase != Draining then s
    else match input
      case Finish =>
        if |s.attached| == |s.deleted| || !shouldClean then Save(s) else s.(phase := Draining)
      case Data(Change(kind, va)) =>
        if va.pv == None then s.(phase := Crashed)
        else if va.pv.value !in share then s
        else OnChange(s, share[va.pv.value], kind, va, now)
      case Data(_) => s
  }

  class VaObserver {
    var events: seq<Event>
    var attachedVAs: set<string>
    var deletingVAs: set<string>
    var deletedVAs: set<string>
    var shouldExit: bool
    var saved: seq<seq<Event>>
    var returned: bool
    var crashed: bool

    ghost function View(): State
      reads this
    {
      State(events, attachedVAs, deletingVAs, deletedVAs, saved,
            if crashed then Crashed else if returned then Returned else if shouldExit then Draining else Looping)
    }

    constructor ()
      ensures View() == Init()
    {
      events, attachedVAs, deletingVAs, deletedVAs, shouldExit := [], {}, {}, {}, false;
      saved, returned, crashed := [], false, false;
    }

    /** One turn of the select loop. */
    method Select(runner: Runner, input: Input<VaObject>, now: int)
      requires !returned && !crashed
      modifies this, runner`database
      ensures View() == Step(old(View()), runner.pvcShare, runner.shouldClean, input, now)
      ensures runner.database.events == old(runner.database.events) + if returned then events else []
      ensures runner.database.entities == old(runner.database.entities)
    {
      match input
      case Finish =>
        if |attachedVAs| == |deletedVAs| || !runner.shouldClean {
          SaveAll(runner);
          return;
        }
        shouldExit := true;
      case Data(NilObject) =>
      case Data(WrongType) =>
      case Data(Change(kind, va)) =>
        if va.pv == None {
          crashed := true;
          return;
        }
        if va.pv.value !in runner.pvcShare {
          return;
        }
        var entity := runner.pvcShare[va.pv.value];
        match kind {
          case Added =>
            events := events + [Event(entity.id, PvcAttachStarted, now)];
          case Modified =>
            if va.attached && va.name !in attachedVAs {
              attachedVAs := attachedVAs + {va.name};
              events := events + [Event(entity.id, PvcAttachEnded, now)];
            } else if va.deleting && va.name !in deletingVAs {
              deletingVAs := deletingVAs + {va.name};
              events := events + [Event(entity.id, PvcUnattachStarted, now)];
            }
          case Deleted =>
            deletedVAs := deletedVAs + {va.name};
            events := events + [Event(entity.id, PvcUnattachEnded, now)];
            if shouldExit && |attachedVAs| == |deletedVAs| {
              SaveAll(runner);
            }
          case Other =>
        }
    }

    method SaveAll(runner: Runner)
      modifies this`saved, this`returned, runner`database
      ensures saved == old(saved) + [events] && returned
      ensures runner.database.events == old(runner.database.events) + events
      ensures runner.database.entities == old(runner.database.entities)
    {
      runner.database := SaveEvents(runner.database, events);
      saved := saved + [events];
      returned := true;
    }
  }

  // ------------------------------------------------------------------- whole runs

  /** A turn of the loop with what PvcShare held at that moment: the environment is arbitrary. */
  datatype Turn = Turn(input: Input<VaObject>, share: map<string, Entity>, now: int)

  function Run(shouldClean: bool, turns: seq<Turn>): State {
    if turns == [] then Init()
    else
      var last := turns[|turns| - 1];
      Step(Run(shouldClean, turns[..|turns| - 1]), last.share, shouldClean, last.input, last.now)
  }

  /** The turn delivers a change of this kind for a VA of a published volume. */
  predicate Delivers(t: Turn, kind: WatchKind) {
    && t.input.Data? && t.input.data.Change? && t.input.data.kind == kind
    && t.input.data.obj.pv.Some? && t.input.data.obj.pv.value in t.share
  }

  predicate Panics(t: Turn) {
    t.input.Data? && t.input.data.Change? && t.input.data.obj.pv == None
  }

  function AttachedBy(t: Turn): set<string> {
    if Delivers(t, Modified) && t.input.data.obj.attached then {t.input.data.obj.name} else {}
  }

  function GoneBy(t: Turn): set<string> {
    if Delivers(t, Deleted) then {t.input.data.obj.name} else {}
  }

  /** The names a sequence of turns reports attached. */
  function Attached(turns: seq<Turn>): set<string> {
    if turns == [] then {} else Attached(turns[..|turns| - 1]) + AttachedBy(turns[|turns| - 1])
  }

  /** The names a sequence of turns reports deleted. */
  function Gone(turns: seq<Turn>): set<string> {
    if turns == [] then {} else Gone(turns[..|turns| - 1]) + GoneBy(turns[|turns| - 1])
  }

  predicate Finished(turns: seq<Turn>) {
    turns != [] && (turns[|turns| - 1].input.Finish? || Finished(turns[..|turns| - 1]))
  }

  predicate Active(s: State) {
    s.phase == Looping || s.phase == Draining
  }

  /** How one turn of an active observer changes its records, and when it ends it. */
  predicate Turned(s: State, t: State, shouldClean: bool, turn: Turn) {
    && t.attached == s.attached + AttachedBy(turn)
    && t.deleted == s.deleted + GoneBy(turn)
    && t.saved == (if t.phase == Returned then s.saved + [t.events] else s.saved)
    && t.phase == (
         if turn.input.Finish? then
           if |t.attached| == |t.deleted| || !shouldClean then Returned else Draining
         else if Panics(turn) then Crashed
         else if Delivers(turn, Deleted) && s.phase == Draining && |t.attached| == |t.deleted| then Returned
         else s.phase)
  }

  lemma StepTurns(s: State, shouldClean: bool, turn: Turn)
    requires Active(s)
    ensures Turned(s, Step(s, turn.share, shouldClean, turn.input, turn.now), shouldClean, turn)
  {
    if turn.input.Finish? || !turn.input.data.Change? || turn.input.data.obj.pv == None
       || turn.input.data.obj.pv.value !in turn.share {
      assert s.attached + {} == s.attached && s.deleted + {} == s.deleted;
    } else {
      ChangeTurns(s, shouldClean, turn, turn.share[turn.input.data.obj.pv.value]);
    }
  }

  lemma ChangeTurns(s: State, shouldClean: bool, turn: Turn, entity: Entity)
    requires Active(s) && turn.input.Data? && turn.input.data.Change? && Delivers(turn, turn.input.data.kind)
    ensures Turned(s, OnChange(s, entity, turn.input.data.kind, turn.input.data.obj, turn.now), shouldClean, turn)
  {
    match turn.input.data.kind
    case Added => assert s.attached + {} == s.attached && s.deleted + {} == s.deleted;
    case Modified => assert s.deleted + {} == s.deleted;
    case Deleted => assert s.attached + {} == s.attached;
    case Other => assert s.attached + {} == s.attached && s.deleted + {} == s.deleted;
  }

  /** While it runs the observer has recorded exactly what was reported, and it drains exactly
      after an unanswered finish signal; it saves its log once, on returning. */
  lemma {:induction false} RecordsReports(shouldClean: bool, turns: seq<Turn>)
    ensures var s := Run(shouldClean, turns);
            && (Active(s) ==> s.attached == Attached(turns) && s.deleted == Gone(turns) && s.saved == [])
            && (Active(s) ==> (s.phase == Draining <==> Finished(turns)))
            && (s.phase == Returned ==> s.saved == [s.events])
            && (s.phase == Crashed ==> s.saved == [])
  {
    if turns == [] {
    } else {
      var front, last := turns[..|turns| - 1], turns[|turns| - 1];
      RecordsReports(shouldClean, front);
      if Active(Run(shouldClean, front)) {
        StepTurns(Run(shouldClean, front), shouldClean, last);
      }
    }
  }

  function DeletingBy(attached: set<string>, t: Turn): set<string> {
    if Delivers(t, Modified) && t.input.data.obj.deleting && AttachedBy(t) <= attached then {t.input.data.obj.name} else {}
  }

  function DeletingNames(turns: seq<Turn>): set<string> {
    if turns == [] then {}
    else
      var front := turns[..|turns| - 1];
      DeletingNames(front) + DeletingBy(Attached(front), turns[|turns| - 1])
  }

  function Deliveries(turns: seq<Turn>, kind: WatchKind): nat {
    if turns == [] then 0
    else Deliveries(turns[..|turns| - 1], kind) + if Delivers(turns[|turns| - 1], kind) then 1 else 0
  }

  /** One event more, and one element more in at most one of the two sets. */
  predicate Grown(s: State, t: State, kind: EventType) {
    && |t.events| == |s.events| + 1 && t.events == s.events + [t.events[|s.events|]] && t.events[|s.events|].kind == kind
    && |t.attached| == |s.attached| + (if kind == PvcAttachEnded then 1 else 0)
    && |t.deleting| == |s.deleting| + (if kind == PvcUnattachStarted then 1 else 0)
  }

  /** The log holds as many events of a kind as happened. */
  predicate Tallied(s: State, added: nat, deleted: nat) {
    && KindCount(s.events, PvcAttachStarted) == added && KindCount(s.events, PvcAttachEnded) == |s.attached|
    && KindCount(s.events, PvcUnattachStarted) == |s.deleting| && KindCount(s.events, PvcUnattachEnded) == deleted
  }

  lemma GrownTallied(s: State, t: State, kind: EventType, added: nat, deleted: nat)
    requires Tallied(s, added, deleted) && Grown(s, t, kind)
    ensures Tallied(t, added + (if kind == PvcAttachStarted then 1 else 0), deleted + (if kind == PvcUnattachEnded then 1 else 0))
  {
    var e := t.events[|s.events|];
    KindCountSnoc(s.events, e, PvcAttachStarted);
    KindCountSnoc(s.events, e, PvcAttachEnded);
    KindCountSnoc(s.events, e, PvcUnattachStarted);
    KindCountSnoc(s.events, e, PvcUnattachEnded);
  }

  lemma StepDeleting(s: State, shouldClean: bool, turn: Turn)
    requires Active(s) && !Panics(turn)
    ensures Step(s, turn.share, shouldClean, turn.input, turn.now).deleting == s.deleting + DeletingBy(s.attached, turn)
  {
  }

  lemma ModifiedGrows(s: State, entity: Entity, va: VaObject, now: int)
    ensures var t := OnChange(s, entity, Modified, va, now);
            t.events == s.events || Grown(s, t, t.events[|s.events|].kind)
  {
  }

  /** What one turn adds to the sets and the log. */
  lemma StepTallies(s: State, shouldClean: bool, turn: Turn, added: nat, deleted: nat)
    requires Active(s) && !Panics(turn) && Tallied(s, added, deleted)
    ensures Tallied(Step(s, turn.share, shouldClean, turn.input, turn.now),
                    added + (if Delivers(turn, Added) then 1 else 0), deleted + (if Delivers(turn, Deleted) then 1 else 0))
  {
    if turn.input.Data? && turn.input.data.Change? && turn.input.data.obj.pv.value in turn.share {
      var entity := turn.share[turn.input.data.obj.pv.value];
      ChangeTallies(s, entity, turn.input.data.kind, turn.input.data.obj, turn.now, added, deleted);
    }
  }

  lemma ChangeTallies(s: State, entity: Entity, kind: WatchKind, va: VaObject, now: int, added: nat, deleted: nat)
    requires Tallied(s, added, deleted)
    ensures Tallied(OnChange(s, entity, kind, va, now), added + (if kind == Added then 1 else 0),
                    deleted + (if kind == Deleted then 1 else 0))
  {
    var t := OnChange(s, entity, kind, va, now);
    match kind
    case Added => GrownTallied(s, t, PvcAttachStarted, added, deleted);
    case Modified =>
      if t.events != s.events {
        ModifiedGrows(s, entity, va, now);
        GrownTallied(s, t, t.events[|s.events|].kind, added, deleted);
      }
    case Deleted => GrownTallied(s, t, PvcUnattachEnded, added, deleted);
    case Other =>
  }

  lemma ActiveBefore(shouldClean: bool, turns: seq<Turn>)
    requires turns != [] && Active(Run(shouldClean, turns))
    ensures Active(Run(shouldClean, turns[..|turns| - 1])) && !Panics(turns[|turns| - 1])
  {
    var s := Run(shouldClean, turns[..|turns| - 1]);
    if Active(s) { StepTurns(s, shouldClean, turns[|turns| - 1]); }
  }

  /** While it runs the observer has logged one event per reported Added and Deleted, and one for
      each VA recorded attached or deleting. */
  lemma {:induction false} LogsReports(shouldClean: bool, turns: seq<Turn>)
    requires Active(Run(shouldClean, turns))
    ensures var s := Run(shouldClean, turns);
            && s.deleting == DeletingNames(turns) && Tallied(s, Deliveries(turns, Added), Deliveries(turns, Deleted))
  {
    if turns == [] {
    } else {
      var front := turns[..|turns| - 1];
      ActiveBefore(shouldClean, turns);
      LogsReports(shouldClean, front);
      RecordsReports(shouldClean, front);
      StepDeleting(Run(shouldClean, front), shouldClean, turns[|turns| - 1]);
      StepTallies(Run(shouldClean, front), shouldClean, turns[|turns| - 1],
                  Deliveries(front, Added), Deliveries(front, Deleted));
    }
  }

  /** A VA is reported deleted only after it was reported attached. */
  predicate DeletedAfterAttached(turns: seq<Turn>) {
    turns == [] ||
    var front, last := turns[..|turns| - 1], turns[|turns| - 1];
    DeletedAfterAttached(front) && (Delivers(last, Deleted) ==> last.input.data.obj.name in Attached(front))
  }

  lemma SameSize<T>(a: set<T>, b: set<T>)
    requires a <= b
    ensures |a| <= |b|
    ensures |a| == |b| <==> a == b
  {
    assert b == a + (b - a);
  }

  predicate DrainsSoundly(s: State) {
    && s.deleted <= s.attached
    && (s.phase == Draining ==> s.deleted != s.attached)
    && (s.phase == Returned ==> s.deleted == s.attached)
  }

  lemma TurnDrainsSoundly(s: State, t: State, turn: Turn)
    requires DrainsSoundly(s) && Turned(s, t, true, turn) && GoneBy(turn) <= s.attached
    requires Active(s)
    ensures DrainsSoundly(t)
    ensures t.phase == Returned <==>
              && (if s.phase == Draining then Delivers(turn, Deleted) else turn.input.Finish?)
              && t.deleted == t.attached
  {
    SameSize(t.deleted, t.attached);
  }

  /** While draining, some attached VA is still to be deleted; on return none is. */
  lemma {:induction false} DrainInvariant(turns: seq<Turn>)
    requires DeletedAfterAttached(turns)
    ensures DrainsSoundly(Run(true, turns))
  {
    if turns == [] {
    } else {
      var front, last := turns[..|turns| - 1], turns[|turns| - 1];
      DrainInvariant(front);
      RecordsReports(true, front);
      var s := Run(true, front);
      if Active(s) {
        StepTurns(s, true, last);
        TurnDrainsSoundly(s, Run(true, turns), last);
      }
    }
  }

  lemma RunSnoc(shouldClean: bool, turns: seq<Turn>, next: Turn)
    ensures Run(shouldClean, turns + [next])
         == Step(Run(shouldClean, turns), next.share, shouldClean, next.input, next.now)
    ensures Attached(turns + [next]) == Attached(turns) + AttachedBy(next)
    ensures Gone(turns + [next]) == Gone(turns) + GoneBy(next)
    ensures DeletedAfterAttached(turns + [next])
       <==> DeletedAfterAttached(turns) && (Delivers(next, Deleted) ==> next.input.data.obj.name in Attached(turns))
  {
    assert (turns + [next])[..|turns|] == turns;
  }

  /** No premature and no missed exit: the step that returns is the finish signal when nothing
      is left to drain, and otherwise the Deleted step that makes the two sets equal. */
  lemma ReturnsExactlyWhenDrained(turns: seq<Turn>, next: Turn)
    requires DeletedAfterAttached(turns + [next]) && Active(Run(true, turns))
    ensures Run(true, turns + [next]).phase == Returned
       <==> && (if Finished(turns) then Delivers(next, Deleted) else next.input.Finish?)
            && Gone(turns + [next]) == Attached(turns + [next])
  {
    RunSnoc(true, turns, next);
    RecordsReports(true, turns);
    DrainInvariant(turns);
    var s := Run(true, turns);
    StepTurns(s, true, next);
    TurnDrainsSoundly(s, Run(true, turns + [next]), next);
  }

  /** After some prefix of the turns that holds the finish signal, every VA reported attached
      had been reported deleted. */
  predicate OnceDrained(turns: seq<Turn>) {
    turns != [] && ((Finished(turns) && Gone(turns) == Attached(turns)) || OnceDrained(turns[..|turns| - 1]))
  }

  predicate NoPanic(turns: seq<Turn>) {
    turns == [] || (!Panics(turns[|turns| - 1]) && NoPanic(turns[..|turns| - 1]))
  }

  /** Over whole runs that do not panic, the observer has returned if and only if it was once
      drained after the finish signal. */
  lemma {:induction false} ReturnedIffOnceDrained(turns: seq<Turn>)
    requires DeletedAfterAttached(turns) && NoPanic(turns)
    ensures Run(true, turns).phase != Crashed
    ensures Run(true, turns).phase == Returned <==> OnceDrained(turns)
  {
    if turns == [] {
    } else {
      var front, last := turns[..|turns| - 1], turns[|turns| - 1];
      assert turns == front + [last];
      ReturnedIffOnceDrained(front);
      RecordsReports(true, front);
      var s := Run(true, front);
      if Active(s) {
        StepTurns(s, true, last);
        ReturnsExactlyWhenDrained(front, last);
        if Finished(front) && !Delivers(last, Deleted) { StillDraining(front, last); }
      }
    }
  }

  /** A draining observer cannot become drained by anything but a deletion. */
  lemma StillDraining(turns: seq<Turn>, next: Turn)
    requires DeletedAfterAttached(turns) && Run(true, turns).phase == Draining
    requires !Delivers(next, Deleted)
    ensures Gone(turns + [next]) != Attached(turns + [next])
  {
    RunSnoc(true, turns, next);
    RecordsReports(true, turns);
    DrainInvariant(turns);
  }

  // ------------------------------------------------------- the drain without the assumption

  /** The turns at which sizes are compared: a finish signal, and behind it every Deleted. */
  predicate Compares(turns: seq<Turn>) {
    turns != [] &&
    var front, last := turns[..|turns| - 1], turns[|turns| - 1];
    last.input.Finish? || (Finished(front) && Delivers(last, Deleted))
  }

  /** Some prefix that does not panic ends in such a turn, and as many VAs have been reported
      deleted as attached; or nothing is to be cleaned and the finish signal is in. */
  predicate Exits(shouldClean: bool, turns: seq<Turn>) {
    turns != [] &&
    (Exits(shouldClean, turns[..|turns| - 1])
     || (NoPanic(turns) && Compares(turns)
         && (|Attached(turns)| == |Gone(turns)| || (!shouldClean && turns[|turns| - 1].input.Finish?))))
  }

  /** The exact end of the watch observer, for every stream. */
  lemma {:induction false} ReturnedIffExits(shouldClean: bool, turns: seq<Turn>)
    ensures Run(shouldClean, turns).phase == Returned <==> Exits(shouldClean, turns)
    ensures Active(Run(shouldClean, turns)) <==> !Exits(shouldClean, turns) && NoPanic(turns)
  {
    if turns == [] {
    } else {
      var front, last := turns[..|turns| - 1], turns[|turns| - 1];
      ReturnedIffExits(shouldClean, front);
      if Active(Run(shouldClean, front)) { TurnExits(shouldClean, turns); }
    }
  }

  lemma TurnExits(shouldClean: bool, turns: seq<Turn>)
    requires turns != [] && Active(Run(shouldClean, turns[..|turns| - 1]))
    ensures var s, last := Run(shouldClean, turns), turns[|turns| - 1];
            && (s.phase == Returned <==>
                  !Panics(last) && Compares(turns)
                  && (|Attached(turns)| == |Gone(turns)| || (!shouldClean && last.input.Finish?)))
            && (Active(s) || s.phase == Returned <==> !Panics(last))
  {
    var front := turns[..|turns| - 1];
    RecordsReports(shouldClean, front);
    StepTurns(Run(shouldClean, front), shouldClean, turns[|turns| - 1]);
    TurnDecides(Run(shouldClean, front), Run(shouldClean, turns), shouldClean, turns[|turns| - 1], Compares(turns));
  }

  lemma TurnDecides(s: State, t: State, shouldClean: bool, turn: Turn, compares: bool)
    requires Active(s) && Turned(s, t, shouldClean, turn)
    requires compares <==> turn.input.Finish? || (s.phase == Draining && Delivers(turn, Deleted))
    ensures t.phase == Returned <==>
              !Panics(turn) && compares && (|t.attached| == |t.deleted| || (!shouldClean && turn.input.Finish?))
    ensures Active(t) || t.phase == Returned <==> !Panics(turn)
  {
  }

  /** The turn, behind others, reports what e says: of the entity PvcShare held, at the turn's time. */
  predicate Reports(front: seq<Turn>, t: Turn, e: Event) {
    && t.input.Data? && t.input.data.Change? && Delivers(t, t.input.data.kind)
    && t.share[t.input.data.obj.pv.value].id == e.entityId && t.now == e.timestamp
    && match e.kind
       case PvcAttachStarted => t.input.data.kind == Added
       case PvcAttachEnded => AttachedBy(t) - Attached(front) != {}
       case PvcUnattachStarted => DeletingBy(Attached(front), t) - DeletingNames(front) != {}
       case PvcUnattachEnded => GoneBy(t) != {}
       case _ => false
  }

  /** How many turns do, up to the return or the panic. */
  function Reported(shouldClean: bool, turns: seq<Turn>, e: Event): nat {
    if turns == [] then 0
    else
      var front := turns[..|turns| - 1];
      Reported(shouldClean, front, e)
      + if !Exits(shouldClean, front) && NoPanic(front) && Reports(front, turns[|turns| - 1], e) then 1 else 0
  }

  lemma StepLogs(s: State, shouldClean: bool, front: seq<Turn>, turn: Turn, e: Event)
    requires Active(s) && s.attached == Attached(front) && s.deleting == DeletingNames(front)
    ensures Times(Step(s, turn.share, shouldClean, turn.input, turn.now).events, e)
         == Times(s.events, e) + if Reports(front, turn, e) then 1 else 0
  {
    if turn.input.Data? && turn.input.data.Change? && Delivers(turn, turn.input.data.kind) {
      ChangeLogs(s, front, turn, turn.share[turn.input.data.obj.pv.value], e);
    }
  }

  lemma ChangeLogs(s: State, front: seq<Turn>, turn: Turn, entity: Entity, e: Event)
    requires Active(s) && s.attached == Attached(front) && s.deleting == DeletingNames(front)
    requires turn.input.Data? && turn.input.data.Change? && Delivers(turn, turn.input.data.kind)
    requires turn.share[turn.input.data.obj.pv.value] == entity
    ensures Times(OnChange(s, entity, turn.input.data.kind, turn.input.data.obj, turn.now).events, e)
         == Times(s.events, e) + if Reports(front, turn, e) then 1 else 0
  {
    match turn.input.data.kind
    case Added => AddedLogs(s, front, turn, entity, e);
    case Modified => ModifiedLogs(s, front, turn, entity, e);
    case Deleted => DeletedLogs(s, front, turn, entity, e);
    case Other =>
  }

  lemma AddedLogs(s: State, front: seq<Turn>, turn: Turn, entity: Entity, e: Event)
    requires Delivers(turn, Added) && turn.share[turn.input.data.obj.pv.value] == entity
    ensures Times(OnChange(s, entity, Added, turn.input.data.obj, turn.now).events, e)
         == Times(s.events, e) + if Reports(front, turn, e) then 1 else 0
  {
    OnlyModified(front, turn);
    TimesSnoc(s.events, Event(entity.id, PvcAttachStarted, turn.now), e);
  }

  lemma OnlyModified(front: seq<Turn>, turn: Turn)
    requires turn.input.Data? && turn.input.data.Change? && turn.input.data.kind != Modified
    ensures AttachedBy(turn) - Attached(front) == {} && DeletingBy(Attached(front), turn) - DeletingNames(front) == {}
    ensures GoneBy(turn) != {} <==> Delivers(turn, Deleted)
  {
    if Delivers(turn, Deleted) { assert turn.input.data.obj.name in GoneBy(turn); }
  }

  lemma DeletedLogs(s: State, front: seq<Turn>, turn: Turn, entity: Entity, e: Event)
    requires Delivers(turn, Deleted) && turn.share[turn.input.data.obj.pv.value] == entity
    ensures Times(OnChange(s, entity, Deleted, turn.input.data.obj, turn.now).events, e)
         == Times(s.events, e) + if Reports(front, turn, e) then 1 else 0
  {
    OnlyModified(front, turn);
    DeletedAppends(s, turn, entity);
    TimesSnoc(s.events, Event(entity.id, PvcUnattachEnded, turn.now), e);
  }

  lemma DeletedAppends(s: State, turn: Turn, entity: Entity)
    requires Delivers(turn, Deleted)
    ensures OnChange(s, entity, Deleted, turn.input.data.obj, turn.now).events
         == s.events + [Event(entity.id, PvcUnattachEnded, turn.now)]
  {
  }

  lemma ModifiedLogs(s: State, front: seq<Turn>, turn: Turn, entity: Entity, e: Event)
    requires s.attached == Attached(front) && s.deleting == DeletingNames(front)
    requires Delivers(turn, Modified) && turn.share[turn.input.data.obj.pv.value] == entity
    ensures Times(OnChange(s, entity, Modified, turn.input.data.obj, turn.now).events, e)
         == Times(s.events, e) + if Reports(front, turn, e) then 1 else 0
  {
    NewlyReported(front, turn);
    TimesSnoc(s.events, Event(entity.id, PvcAttachEnded, turn.now), e);
    TimesSnoc(s.events, Event(entity.id, PvcUnattachStarted, turn.now), e);
  }

  lemma NewlyReported(front: seq<Turn>, turn: Turn)
    requires Delivers(turn, Modified)
    ensures var va := turn.input.data.obj;
            && (AttachedBy(turn) - Attached(front) != {} <==> va.attached && va.name !in Attached(front))
            && (DeletingBy(Attached(front), turn) - DeletingNames(front) != {}
                <==> va.deleting && va.name !in DeletingNames(front) && (va.attached ==> va.name in Attached(front)))
            && GoneBy(turn) == {}
  {
    var va := turn.input.data.obj;
    assert va.name in {va.name};
  }

  /** In every run, the log is told by the turns: it holds each event as often as turns report it. */
  lemma {:induction false} LogTellsTurns(shouldClean: bool, turns: seq<Turn>, e: Event)
    ensures Times(Run(shouldClean, turns).events, e) == Reported(shouldClean, turns, e)
  {
    if turns == [] {
    } else {
      var front := turns[..|turns| - 1];
      LogTellsTurns(shouldClean, front, e);
      ReturnedIffExits(shouldClean, front);
      var s := Run(shouldClean, front);
      if Active(s) {
        RecordsReports(shouldClean, front);
        LogsReports(shouldClean, front);
        StepLogs(s, shouldClean, front, turns[|turns| - 1], e);
      }
    }
  }

  /** Reported attached and not reported deleted. */
  function Outstanding(turns: seq<Turn>): set<string> {
    Attached(turns) - Gone(turns)
  }

  /** Reported deleted and never reported attached. */
  function Strangers(turns: seq<Turn>): set<string> {
    Gone(turns) - Attached(turns)
  }

  lemma SizesDiffer<T>(a: set<T>, b: set<T>)
    ensures |a| == |a - b| + |a * b| && |b| == |b - a| + |a * b|
  {
    assert a == (a - b) + (a * b) && b == (b - a) + (a * b);
  }

  /** What a turn of a running observer decides, in terms of the stream alone. It returns if sizes are
      compared and there are as many strangers as outstanding VAs; prematurely, if that number is
      not zero. Once nothing is outstanding behind the signal, it misses its end exactly if there
      is a stranger or the turn compares nothing. */
  lemma DrainDecision(turns: seq<Turn>)
    requires turns != [] && NoPanic(turns) && !Exits(true, turns[..|turns| - 1])
    ensures var returned := Run(true, turns).phase == Returned;
            && (returned <==> Compares(turns) && |Outstanding(turns)| == |Strangers(turns)|)
            && (returned && Outstanding(turns) != {}
                <==> Compares(turns) && |Outstanding(turns)| == |Strangers(turns)| > 0)
            && (Outstanding(turns) == {} ==>
                  (!returned <==> Strangers(turns) != {} || !Compares(turns)))
  {
    ReturnedIffExits(true, turns);
    SizesDiffer(Attached(turns), Gone(turns));
    if Outstanding(turns) != {} { assert |Outstanding(turns)| > 0; }
    if Strangers(turns) != {} { assert |Strangers(turns)| > 0; }
  }

  /** The shortest prefix at which the observer returns. */
  function ExitOf(shouldClean: bool, turns: seq<Turn>): (exit: seq<Turn>)
    requires Exits(shouldClean, turns)
    ensures exit != [] && exit <= turns && Exits(shouldClean, exit) && !Exits(shouldClean, exit[..|exit| - 1])
  {
    var front := turns[..|turns| - 1];
    if Exits(shouldClean, front) then ExitOf(shouldClean, front) else turns
  }

  lemma {:induction false} ReturnedStays(shouldClean: bool, turns: seq<Turn>)
    requires Exits(shouldClean, turns)
    ensures Run(shouldClean, turns) == Run(shouldClean, ExitOf(shouldClean, turns))
  {
    var front := turns[..|turns| - 1];
    if Exits(shouldClean, front) {
      ReturnedStays(shouldClean, front);
      ReturnedIffExits(shouldClean, front);
    }
  }

  /** The records a returned observer was left with are those of the reports up to its exit, and
      under ShouldClean they are complete exactly if none of these reports was of a stranger. */
  lemma ReturnIsCompleteIffNothingElseDeleted(turns: seq<Turn>)
    requires Exits(true, turns)
    ensures var s, exit := Run(true, turns), ExitOf(true, turns);
            && s.phase == Returned && s.attached == Attached(exit) && s.deleted == Gone(exit)
            && |Outstanding(exit)| == |Strangers(exit)|
            && (s.attached <= s.deleted <==> Strangers(exit) == {})
  {
    var exit := ExitOf(true, turns);
    var front := exit[..|exit| - 1];
    ReturnedStays(true, turns);
    ReturnedIffExits(true, turns);
    ReturnedIffExits(true, front);
    RecordsReports(true, front);
    StepTurns(Run(true, front), true, exit[|exit| - 1]);
    SizesDiffer(Attached(exit), Gone(exit));
    if Strangers(exit) == {} { assert Outstanding(exit) == {}; }
    if Outstanding(exit) == {} { assert Strangers(exit) == {}; }
  }

  function Report(kind: WatchKind, name: string, attached: bool): Turn {
    Turn(Data(Change(kind, VaObject(name, Some("pv"), attached, false))),
         map["pv" := Entity(1, "pvc", "uid", 1, EntityType.Pvc)], 1)
  }

  lemma OneAttachedOneGone()
    ensures var turns := [Report(Modified, "a", true), Report(Deleted, "b", false)];
            && Active(Run(true, turns)) && Attached(turns) == {"a"} && Gone(turns) == {"b"}
  {
    var a, b := Report(Modified, "a", true), Report(Deleted, "b", false);
    RunSnoc(true, [], a);
    RunSnoc(true, [a], b);
    assert [] + [a] == [a] && [a] + [b] == [a, b];
    StepTurns(Init(), true, a);
    StepTurns(Run(true, [a]), true, b);
  }

  /** A stranger ends the drain too early: one VA is outstanding, one stranger is deleted. */
  lemma PrematureExit()
    ensures var turns := [Report(Modified, "a", true), Report(Deleted, "b", false)] + [Turn(Finish, map[], 2)];
            && Compares(turns) && Outstanding(turns) == {"a"} && Strangers(turns) == {"b"}
            && Run(true, turns).phase == Returned
  {
    var turns, f := [Report(Modified, "a", true), Report(Deleted, "b", false)], Turn(Finish, map[], 2);
    OneAttachedOneGone();
    RunSnoc(true, turns, f);
    FinishedSnoc(turns, f);
    assert (turns + [f])[..|turns|] == turns;
    TurnExits(true, turns + [f]);
  }

  /** A stranger makes the observer miss its end: every VA attached is deleted, it still waits. */
  lemma MissedExit()
    ensures var turns := [Report(Deleted, "b", false), Turn(Finish, map[], 2)]
                         + [Report(Modified, "a", true)] + [Report(Deleted, "a", false)];
            && Compares(turns) && Outstanding(turns) == {} && Strangers(turns) == {"b"}
            && Run(true, turns).phase == Draining
  {
    var turns, d := [Report(Deleted, "b", false), Turn(Finish, map[], 2)] + [Report(Modified, "a", true)],
                    Report(Deleted, "a", false);
    AttachedBehindFinish("b", "a");
    RunSnoc(true, turns, d);
    FinishedSnoc(turns, d);
    StepTurns(Run(true, turns), true, d);
    assert |{"b"} + {"a"}| == 2;
    assert (turns + [d])[..|turns|] == turns;
  }

  /** So does an attachment reported behind its own deletion: nothing is outstanding, nothing is
      strange, and no turn compares the sizes any more. */
  lemma LateAttachment()
    ensures var turns := [Report(Deleted, "a", false), Turn(Finish, map[], 2)] + [Report(Modified, "a", true)];
            && !Compares(turns) && Outstanding(turns) == {} && Strangers(turns) == {}
            && Run(true, turns).phase == Draining
  {
    AttachedBehindFinish("a", "a");
  }

  /** A VA reported deleted, the signal, and a VA reported attached. */
  lemma AttachedBehindFinish(gone: string, late: string)
    ensures var turns := [Report(Deleted, gone, false), Turn(Finish, map[], 2)] + [Report(Modified, late, true)];
            && Run(true, turns).phase == Draining && Run(true, turns).attached == {late} && Run(true, turns).deleted == {gone}
            && Attached(turns) == {late} && Gone(turns) == {gone} && Finished(turns) && !Compares(turns)
  {
    var turns, a := [Report(Deleted, gone, false), Turn(Finish, map[], 2)], Report(Modified, late, true);
    FinishAfterDeletion(gone);
    RunSnoc(true, turns, a);
    StepTurns(Run(true, turns), true, a);
    RecordsReports(true, turns + [a]);
    FinishedSnoc(turns, a);
  }

  lemma FinishedSnoc(turns: seq<Turn>, next: Turn)
    ensures Finished(turns + [next]) <==> next.input.Finish? || Finished(turns)
  {
    assert (turns + [next])[..|turns|] == turns;
  }

  lemma FinishAfterDeletion(name: string)
    ensures var turns := [Report(Deleted, name, false), Turn(Finish, map[], 2)];
            Finished(turns) && Run(true, turns) == State([Event(1, PvcUnattachEnded, 1)], {}, {}, {name}, [], Draining)
  {
    var d, f := Report(Deleted, name, false), Turn(Finish, map[], 2);
    RunSnoc(true, [], d);
    RunSnoc(true, [d], f);
    assert [] + [d] == [d] && [d] + [f] == [d, f];
    assert Run(true, [d]).deleted == {name};
    FinishedSnoc([d], f);
  }
}
