/** The PVC and the VA observer side by side: every interleaving of their turns over the shared
    PvcShare and database, with a clock that never goes back (pkg/observer/pvc.go, va.go). */
module PvcVaSystem {
  import opened Store
  import opened Observer
  import P = PvcWatch
  import V = VaWatch
  import C = Collector

  /** PvcShare and the database live in the PVC observer's state. */
  datatype Sys = Sys(pvc: P.State, va: V.State, shouldClean: bool, now: int)

  datatype Move =
    | PvcTurn(pvcInput: Input<P.PvcObject>, at: int)
    | VaTurn(vaInput: Input<V.VaObject>, at: int)
    /** Some other goroutine inserts an entity, or saves a log. */
    | OtherInsert(entity: Entity)
    | OtherSave(log: seq<Event>)
    /** Stop erases one key of PvcShare. */
    | Erase(volume: string)

  function Start(tcId: int, db: Db, shouldClean: bool, now: int): Sys {
    Sys(P.Init(tcId, db, map[]), V.Init(), shouldClean, now)
  }

  predicate Allowed(s: Sys, m: Move) {
    (m.PvcTurn? || m.VaTurn?) ==> s.now <= m.at
  }

  /** The VA observer saves its log into the shared database when it returns. */
  function AfterVaTurn(s: Sys, input: Input<V.VaObject>, at: int): Sys {
    var va := V.Step(s.va, s.pvc.share, s.shouldClean, input, at);
    var db := if va.saved != s.va.saved then InsertEvents(s.pvc.db, va.events) else s.pvc.db;
    s.(va := va, now := at, pvc := s.pvc.(db := db))
  }

  /** A crash of either observer ends the process. */
  function Next(s: Sys, m: Move): Sys {
    if s.pvc.phase == Crashed || s.va.phase == Crashed then s
    else match m
      case PvcTurn(input, at) => s.(pvc := P.Step(s.pvc, input, at), now := at)
      case VaTurn(input, at) => AfterVaTurn(s, input, at)
      case OtherInsert(e) => s.(pvc := s.pvc.(db := InsertEntity(s.pvc.db, e).0))
      case OtherSave(log) => s.(pvc := s.pvc.(db := InsertEvents(s.pvc.db, log)))
      case Erase(v) => s.(pvc := s.pvc.(share := s.pvc.share - {v}))
  }

  function Run(s: Sys, moves: seq<Move>): Sys {
    if moves == [] then s else Next(Run(s, moves[..|moves| - 1]), moves[|moves| - 1])
  }

  predicate Monotone(s: Sys, moves: seq<Move>) {
    moves == [] ||
    var front := moves[..|moves| - 1];
    Monotone(s, front) && Allowed(Run(s, front), moves[|moves| - 1])
  }

  // -------------------------------------------------------------- what is preserved

  /** In the log, the entity was added and later bound, by time t. */
  ghost predicate AddedThenBound(log: seq<Event>, id: int, t: int) {
    exists i, j {:trigger log[i], log[j]} ::
      && 0 <= i < j < |log|
      && log[i].kind == PvcAdded && log[i].entityId == id
      && log[j].kind == PvcBound && log[j].entityId == id
      && log[i].timestamp <= log[j].timestamp <= t
  }

  lemma AddedThenBoundGrows(log: seq<Event>, more: seq<Event>, id: int, t: int, u: int)
    requires AddedThenBound(log, id, t) && log <= more && t <= u
    ensures AddedThenBound(more, id, u)
  {
    var i, j :| && 0 <= i < j < |log|
      && log[i].kind == PvcAdded && log[i].entityId == id
      && log[j].kind == PvcBound && log[j].entityId == id
      && log[i].timestamp <= log[j].timestamp <= t;
    assert more[i] == log[i] && more[j] == log[j];
  }

  /** Readings in the log do not exceed t. */
  predicate Until(log: seq<Event>, t: int) {
    forall i :: 0 <= i < |log| ==> log[i].timestamp <= t
  }

  ghost predicate EntitiesAdded(p: P.State) {
    forall n :: n in p.entities ==> Count(p.events, PvcAdded, p.entities[n].id) > 0
  }

  /** A stored entity is added once; ids not handed out yet are not in the log. */
  ghost predicate AddedOnce(p: P.State) {
    forall id {:trigger Count(p.events, PvcAdded, id)} ::
      && (id != 0 ==> Count(p.events, PvcAdded, id) <= 1)
      && (id > |p.db.entities| ==> Count(p.events, PvcAdded, id) == 0)
  }

  ghost predicate SharedBound(p: P.State, t: int) {
    forall v :: v in p.share ==> AddedThenBound(p.events, p.share[v].id, t)
  }

  ghost predicate Precedes(log: seq<Event>, vaLog: seq<Event>) {
    forall k :: 0 <= k < |vaLog| ==> AddedThenBound(log, vaLog[k].entityId, vaLog[k].timestamp)
  }

  ghost predicate Inv(s: Sys) {
    && Until(s.pvc.events, s.now)
    && EntitiesAdded(s.pvc)
    && AddedOnce(s.pvc)
    && SharedBound(s.pvc, s.now)
    && Precedes(s.pvc.events, s.va.events)
  }

  /** One turn of the PVC observer: at most one event, and what becomes of entities and share. */
  ghost predicate PvcEffect(s: P.State, t: P.State, at: int) {
    && s.events <= t.events && s.db.entities <= t.db.entities
    && (t.events == s.events ==> t.entities == s.entities && t.share == s.share)
    && (t.events != s.events ==>
          exists e :: && t.events == s.events + [e] && e.timestamp == at
            && (e.kind == PvcAdded ==>
                  && (e.entityId == 0 || (e.entityId == |s.db.entities| + 1 && |t.db.entities| == e.entityId))
                  && t.share == s.share
                  && forall n :: n in t.entities ==> t.entities[n].id == e.entityId || (n in s.entities && t.entities[n] == s.entities[n]))
            && (e.kind != PvcAdded ==>
                  && t.entities == s.entities
                  && (exists n :: n in s.entities && s.entities[n].id == e.entityId)
                  && forall v :: v in t.share ==>
                       ((v in s.share && t.share[v] == s.share[v]) || (e.kind == PvcBound && t.share[v].id == e.entityId))))
  }

  lemma PvcStepEffect(s: P.State, input: Input<P.PvcObject>, at: int)
    ensures PvcEffect(s, P.Step(s, input, at), at)
  {
    if s.phase == Looping && input.Data? && input.data.Change? {
      var kind, pvc := input.data.kind, input.data.obj;
      if kind == Added { AddEffect(s, pvc, at); } else { OtherEffect(s, kind, pvc, at); }
    }
  }

  lemma AddEffect(s: P.State, pvc: P.PvcObject, at: int)
    ensures PvcEffect(s, P.OnChange(s, Added, pvc, at), at)
  {
    var t := P.OnChange(s, Added, pvc, at);
    var e := t.events[|s.events|];
    assert t.events == s.events + [e] && e.kind == PvcAdded && t.share == s.share;
  }

  lemma OtherEffect(s: P.State, kind: WatchKind, pvc: P.PvcObject, at: int)
    requires kind != Added
    ensures PvcEffect(s, P.OnChange(s, kind, pvc, at), at)
  {
    var t := P.OnChange(s, kind, pvc, at);
    if t.events != s.events {
      var e := t.events[|s.events|];
      assert t.events == s.events + [e] && e.kind != PvcAdded && t.entities == s.entities;
      assert pvc.name in s.entities && s.entities[pvc.name].id == e.entityId;
    }
  }

  lemma EffectKeepsEntitiesAdded(s: P.State, t: P.State, at: int)
    requires PvcEffect(s, t, at) && EntitiesAdded(s)
    ensures EntitiesAdded(t)
  {
    if t.events != s.events {
      var e := t.events[|s.events|];
      assert t.events == s.events + [e];
      forall n | n in t.entities ensures Count(t.events, PvcAdded, t.entities[n].id) > 0 {
        CountSnoc(s.events, e, PvcAdded, t.entities[n].id);
      }
    }
  }

  lemma EffectKeepsAddedOnce(s: P.State, t: P.State, at: int)
    requires PvcEffect(s, t, at) && AddedOnce(s)
    ensures AddedOnce(t)
  {
    forall id
      ensures (id != 0 ==> Count(t.events, PvcAdded, id) <= 1)
           && (id > |t.db.entities| ==> Count(t.events, PvcAdded, id) == 0)
    {
      assert Count(s.events, PvcAdded, id) >= 0;
      if t.events != s.events {
        var e := t.events[|s.events|];
        assert t.events == s.events + [e];
        CountSnoc(s.events, e, PvcAdded, id);
      }
    }
  }

  lemma SaveKeepsAddedOnce(p: P.State, events: seq<Event>)
    requires AddedOnce(p)
    ensures AddedOnce(p.(db := InsertEvents(p.db, events)))
  {
    var t := p.(db := InsertEvents(p.db, events));
    forall id
      ensures (id != 0 ==> Count(t.events, PvcAdded, id) <= 1)
           && (id > |t.db.entities| ==> Count(t.events, PvcAdded, id) == 0)
    {
      assert Count(p.events, PvcAdded, id) >= 0;
    }
  }

  /** What the PVC observer publishes was added and has just been bound. */
  lemma EffectKeepsSharedBound(s: P.State, t: P.State, now: int, at: int)
    requires PvcEffect(s, t, at) && now <= at
    requires Until(s.events, now) && EntitiesAdded(s) && SharedBound(s, now)
    ensures SharedBound(t, at)
  {
    forall v | v in t.share ensures AddedThenBound(t.events, t.share[v].id, at) {
      if v in s.share && t.share[v] == s.share[v] {
        AddedThenBoundGrows(s.events, t.events, t.share[v].id, now, at);
      } else {
        var e := t.events[|s.events|];
        assert t.events == s.events + [e];
        var i := CountedAt(s.events, PvcAdded, e.entityId);
        assert t.events[i] == s.events[i] && t.events[|s.events|] == e;
        assert s.events[i].timestamp <= now;
      }
    }
  }

  lemma PvcTurnKeepsInv(s: Sys, input: Input<P.PvcObject>, at: int)
    requires Inv(s) && s.now <= at
    ensures Inv(s.(pvc := P.Step(s.pvc, input, at), now := at))
  {
    var t := P.Step(s.pvc, input, at);
    PvcStepEffect(s.pvc, input, at);
    EffectKeepsEntitiesAdded(s.pvc, t, at);
    EffectKeepsAddedOnce(s.pvc, t, at);
    EffectKeepsSharedBound(s.pvc, t, s.now, at);
    forall k | 0 <= k < |s.va.events|
      ensures AddedThenBound(t.events, s.va.events[k].entityId, s.va.events[k].timestamp)
    {
      var e := s.va.events[k];
      AddedThenBoundGrows(s.pvc.events, t.events, e.entityId, e.timestamp, e.timestamp);
    }
  }

  /** A turn of the VA observer logs at most one event, of an entity it found in PvcShare. */
  lemma VaStepEffect(s: V.State, share: map<string, Entity>, shouldClean: bool, input: Input<V.VaObject>, at: int)
    ensures var t := V.Step(s, share, shouldClean, input, at);
            t.events != s.events ==>
              exists e :: t.events == s.events + [e] && e.timestamp == at && exists v :: v in share && share[v].id == e.entityId
  {
    var t := V.Step(s, share, shouldClean, input, at);
    if t.events != s.events {
      var e := t.events[|s.events|];
      assert t.events == s.events + [e];
      var v := input.data.obj.pv.value;
      assert v in share && share[v].id == e.entityId;
    }
  }

  lemma VaTurnKeepsInv(s: Sys, input: Input<V.VaObject>, at: int)
    requires Inv(s) && s.now <= at
    ensures Inv(AfterVaTurn(s, input, at))
  {
    var t := V.Step(s.va, s.pvc.share, s.shouldClean, input, at);
    VaStepEffect(s.va, s.pvc.share, s.shouldClean, input, at);
    SharedBoundLater(s.pvc, s.now, at);
    if t.events != s.va.events {
      VaEventFollows(s.pvc, s.va.events, t.events[|s.va.events|]);
    }
    SaveKeepsAddedOnce(s.pvc, t.events);
  }

  lemma SharedBoundLater(p: P.State, now: int, at: int)
    requires SharedBound(p, now) && now <= at
    ensures SharedBound(p, at)
  {
    forall v | v in p.share ensures AddedThenBound(p.events, p.share[v].id, at) {
      AddedThenBoundGrows(p.events, p.events, p.share[v].id, now, at);
    }
  }

  lemma VaEventFollows(p: P.State, vaLog: seq<Event>, e: Event)
    requires Precedes(p.events, vaLog) && SharedBound(p, e.timestamp)
    requires exists v :: v in p.share && p.share[v].id == e.entityId
    ensures Precedes(p.events, vaLog + [e])
  {
  }

  lemma OtherInsertKeepsInv(s: Sys, e: Entity)
    requires Inv(s)
    ensures Inv(s.(pvc := s.pvc.(db := InsertEntity(s.pvc.db, e).0)))
  {
    var t := s.pvc.(db := InsertEntity(s.pvc.db, e).0);
    forall id
      ensures (id != 0 ==> Count(t.events, PvcAdded, id) <= 1)
           && (id > |t.db.entities| ==> Count(t.events, PvcAdded, id) == 0)
    {
      assert Count(s.pvc.events, PvcAdded, id) >= 0;
    }
  }

  lemma EraseKeepsInv(s: Sys, v: string)
    requires Inv(s)
    ensures Inv(s.(pvc := s.pvc.(share := s.pvc.share - {v})))
  {
    var t := s.pvc.(share := s.pvc.share - {v});
    forall id
      ensures (id != 0 ==> Count(t.events, PvcAdded, id) <= 1)
           && (id > |t.db.entities| ==> Count(t.events, PvcAdded, id) == 0)
    {
      assert Count(s.pvc.events, PvcAdded, id) >= 0;
    }
  }

  lemma NextKeepsInv(s: Sys, m: Move)
    requires Inv(s) && Allowed(s, m)
    ensures Inv(Next(s, m))
  {
    if s.pvc.phase != Crashed && s.va.phase != Crashed {
      match m
      case PvcTurn(input, at) => PvcTurnKeepsInv(s, input, at);
      case VaTurn(input, at) => VaTurnKeepsInv(s, input, at);
      case OtherInsert(e) => OtherInsertKeepsInv(s, e);
      case OtherSave(log) => SaveKeepsAddedOnce(s.pvc, log);
      case Erase(v) => EraseKeepsInv(s, v);
    }
  }

  /** In every interleaving, each VA event's entity was added and then bound in the PVC
      observer's log, no later than the VA event. */
  lemma {:induction false} VaEventsFollowBinding(tcId: int, db: Db, shouldClean: bool, now: int, moves: seq<Move>)
    requires Monotone(Start(tcId, db, shouldClean, now), moves)
    ensures Inv(Run(Start(tcId, db, shouldClean, now), moves))
  {
    if moves == [] {
    } else {
      VaEventsFollowBinding(tcId, db, shouldClean, now, moves[..|moves| - 1]);
      NextKeepsInv(Run(Start(tcId, db, shouldClean, now), moves[..|moves| - 1]), moves[|moves| - 1]);
    }
  }

  // ------------------------------------------------------ what the collector makes of it

  lemma {:induction false} OnlyOne(log: seq<Event>, kind: EventType, id: int, i: nat, j: nat)
    requires Count(log, kind, id) <= 1 && i < |log| && j < |log|
    requires log[i].kind == log[j].kind == kind && log[i].entityId == log[j].entityId == id
    ensures i == j
  {
    var front := log[..|log| - 1];
    if i < |front| && j < |front| {
      OnlyOne(front, kind, id, i, j);
    } else if i < |front| {
      CountPositive(front, kind, id, i);
    } else if j < |front| {
      CountPositive(front, kind, id, j);
    }
  }

  lemma {:induction false} CountPositive(log: seq<Event>, kind: EventType, id: int, i: nat)
    requires i < |log| && log[i].kind == kind && log[i].entityId == id
    ensures Count(log, kind, id) > 0
  {
    if i < |log| - 1 { CountPositive(log[..|log| - 1], kind, id, i); }
  }

  /** The added event of a stored entity precedes each of its attachments and bindings in time. */
  lemma AddedIsFirst(s: Sys, added: Event, later: Event)
    requires Inv(s)
    requires added in s.pvc.events && added.kind == PvcAdded && added.entityId != 0
    requires later.entityId == added.entityId
    requires later in s.va.events
    ensures added.timestamp <= later.timestamp
  {
    var k :| 0 <= k < |s.va.events| && s.va.events[k] == later;
    var log := s.pvc.events;
    assert AddedThenBound(log, later.entityId, s.va.events[k].timestamp);
    var i, j :| && 0 <= i < j < |log|
      && log[i].kind == PvcAdded && log[i].entityId == later.entityId
      && log[j].kind == PvcBound && log[j].entityId == later.entityId
      && log[i].timestamp <= log[j].timestamp <= later.timestamp;
    var a :| 0 <= a < |log| && log[a] == added;
    assert Count(log, PvcAdded, added.entityId) <= 1;
    OnlyOne(log, PvcAdded, added.entityId, i, a);
  }

  predicate VaKind(kind: EventType) {
    kind in {PvcAttachStarted, PvcAttachEnded, PvcUnattachStarted, PvcUnattachEnded}
  }

  ghost predicate NoVaKinds(log: seq<Event>) {
    forall i :: 0 <= i < |log| ==> !VaKind(log[i].kind)
  }

  ghost predicate OnlyVaKinds(log: seq<Event>) {
    forall i :: 0 <= i < |log| ==> VaKind(log[i].kind)
  }

  lemma NextKeepsKinds(s: Sys, m: Move)
    requires NoVaKinds(s.pvc.events) && OnlyVaKinds(s.va.events)
    ensures NoVaKinds(Next(s, m).pvc.events) && OnlyVaKinds(Next(s, m).va.events)
  {
  }

  lemma {:induction false} LogsKeepKinds(tcId: int, db: Db, shouldClean: bool, now: int, moves: seq<Move>)
    ensures var s := Run(Start(tcId, db, shouldClean, now), moves);
            NoVaKinds(s.pvc.events) && OnlyVaKinds(s.va.events)
  {
    if moves == [] {
    } else {
      LogsKeepKinds(tcId, db, shouldClean, now, moves[..|moves| - 1]);
      NextKeepsKinds(Run(Start(tcId, db, shouldClean, now), moves[..|moves| - 1]), moves[|moves| - 1]);
    }
  }

  // --------------------------------------------------- what ends up in the database

  function AllOf(logs: seq<seq<Event>>): multiset<Event> {
    if logs == [] then multiset{} else AllOf(logs[..|logs| - 1]) + multiset(logs[|logs| - 1])
  }

  predicate Running(s: Sys) {
    s.pvc.phase != Crashed && s.va.phase != Crashed
  }

  /** What other goroutines saved before a crash. */
  function OthersSaved(s: Sys, moves: seq<Move>): multiset<Event> {
    if moves == [] then multiset{}
    else
      var front, last := moves[..|moves| - 1], moves[|moves| - 1];
      OthersSaved(s, front) + if last.OtherSave? && Running(Run(s, front)) then multiset(last.log) else multiset{}
  }

  /** An observer that returned has saved its whole log once; until then, and when it crashed, nothing. */
  predicate SavesOnReturn(s: Sys) {
    && s.pvc.saved == (if s.pvc.phase == Returned then [s.pvc.events] else [])
    && s.va.saved == (if s.va.phase == Returned then [s.va.events] else [])
  }

  lemma AllOfOne(log: seq<Event>)
    ensures AllOf([log]) == multiset(log) && AllOf([]) == multiset{}
  {
    assert [log][..0] == [];
  }

  /** The events in the database are accounted for. */
  predicate Balanced(s: Sys, before: multiset<Event>, others: multiset<Event>) {
    && SavesOnReturn(s)
    && multiset(s.pvc.db.events) == before + AllOf(s.pvc.saved) + AllOf(s.va.saved) + others
  }

  /** A turn of the PVC observer saves its whole log and returns, or leaves the stored events alone. */
  lemma PvcStepSaves(p: P.State, input: Input<P.PvcObject>, at: int)
    ensures var t := P.Step(p, input, at);
            if p.phase == Looping && input.Finish?
            then t.phase == Returned && t.events == p.events && t.saved == p.saved + [p.events]
                 && t.db.events == p.db.events + p.events
            else t.phase in {p.phase, Crashed} && t.saved == p.saved && t.db.events == p.db.events
                 && (p.phase != Looping ==> t == p)
  {
  }

  lemma VaStepSaves(v: V.State, share: map<string, Entity>, shouldClean: bool, input: Input<V.VaObject>, at: int)
    ensures var t := V.Step(v, share, shouldClean, input, at);
            if t.phase == Returned && v.phase != Returned
            then t.saved == v.saved + [t.events] && t.saved != v.saved
            else t.saved == v.saved && (v.phase == Returned ==> t == v)
  {
  }

  lemma PvcTurnStores(s: Sys, input: Input<P.PvcObject>, at: int, before: multiset<Event>, others: multiset<Event>)
    requires Balanced(s, before, others)
    ensures Balanced(s.(pvc := P.Step(s.pvc, input, at), now := at), before, others)
  {
    PvcStepSaves(s.pvc, input, at);
    AllOfOne(s.pvc.events);
    assert [] + [s.pvc.events] == [s.pvc.events];
  }

  lemma VaTurnStores(s: Sys, input: Input<V.VaObject>, at: int, before: multiset<Event>, others: multiset<Event>)
    requires Balanced(s, before, others)
    ensures Balanced(AfterVaTurn(s, input, at), before, others)
  {
    var t, u := V.Step(s.va, s.pvc.share, s.shouldClean, input, at), AfterVaTurn(s, input, at);
    VaStepSaves(s.va, s.pvc.share, s.shouldClean, input, at);
    if t.phase == Returned && s.va.phase != Returned {
      AllOfOne(t.events);
      assert [] + [t.events] == [t.events];
      OneLogMore(s.pvc.db.events, t.events, before, AllOf(s.pvc.saved), others);
    } else {
      assert u.pvc.db.events == s.pvc.db.events;
    }
  }

  lemma OneLogMore(events: seq<Event>, log: seq<Event>, before: multiset<Event>, saved: multiset<Event>, others: multiset<Event>)
    requires multiset(events) == before + saved + multiset{} + others
    ensures multiset(events + log) == before + saved + multiset(log) + others
  {
  }

  lemma OtherSaveStores(s: Sys, log: seq<Event>, before: multiset<Event>, others: multiset<Event>)
    requires Balanced(s, before, others)
    ensures Balanced(s.(pvc := s.pvc.(db := InsertEvents(s.pvc.db, log))), before, others + multiset(log))
  {
  }

  /** In every interleaving, from any database: its events are those it held at first, the log of each
      of the two observers that has returned, and what others saved, each as often. */
  lemma {:induction false} DatabaseHoldsSavedLogs(tcId: int, db: Db, shouldClean: bool, now: int, moves: seq<Move>)
    ensures Balanced(Run(Start(tcId, db, shouldClean, now), moves), multiset(db.events),
                     OthersSaved(Start(tcId, db, shouldClean, now), moves))
  {
    if moves == [] {
    } else {
      var front, last := moves[..|moves| - 1], moves[|moves| - 1];
      DatabaseHoldsSavedLogs(tcId, db, shouldClean, now, front);
      var start := Start(tcId, db, shouldClean, now);
      var s := Run(start, front);
      if last.OtherSave? && Running(s) {
        OtherSaveStores(s, last.log, multiset(db.events), OthersSaved(start, front));
      } else {
        MoveStores(s, last, multiset(db.events), OthersSaved(start, front));
        assert OthersSaved(start, front) + multiset{} == OthersSaved(start, front);
      }
    }
  }

  lemma MoveStores(s: Sys, m: Move, before: multiset<Event>, others: multiset<Event>)
    requires Balanced(s, before, others) && !(m.OtherSave? && Running(s))
    ensures Balanced(Next(s, m), before, others)
  {
    if Running(s) {
      if m.PvcTurn? { PvcTurnStores(s, m.pvcInput, m.at, before, others); }
      else if m.VaTurn? { VaTurnStores(s, m.vaInput, m.at, before, others); }
      else { assert Next(s, m).pvc.db.events == s.pvc.db.events; }
    }
  }

  /** The whole pipeline: whatever two observers and other goroutines do to the shared database, read
      it back at any time, in any order the query allows, group the rows and measure. A stored claim
      that was added and attached has a non-negative creation time, if nobody else's events name it. */
  lemma CreationTimeNonNegative(tcId: int, db: Db, shouldClean: bool, now: int, moves: seq<Move>, rows: seq<Row>, e: Entity)
    requires Monotone(Start(tcId, db, shouldClean, now), moves)
    requires forall o :: o in db.events ==> o.entityId != e.id
    requires forall o :: o in OthersSaved(Start(tcId, db, shouldClean, now), moves) ==> o.entityId != e.id
    requires e.id != 0 && IsQueryResult(Run(Start(tcId, db, shouldClean, now), moves).pvc.db, tcId, EntityType.Pvc, rows)
    ensures var events := EventsOf(rows, e);
            C.Has(events, PvcAdded) && C.Has(events, PvcAttachEnded) ==> C.Metric(events, C.PVCCreation) >= 0
  {
    var start := Start(tcId, db, shouldClean, now);
    var s := Run(start, moves);
    VaEventsFollowBinding(tcId, db, shouldClean, now, moves);
    LogsKeepKinds(tcId, db, shouldClean, now, moves);
    DatabaseHoldsSavedLogs(tcId, db, shouldClean, now, moves);
    GroupIsStoredEvents(s.pvc.db, tcId, EntityType.Pvc, rows, e);
    if EventsOf(rows, e) != [] {
      GroupComesFromLogs(s, multiset(db.events), OthersSaved(start, moves), EventsOf(rows, e), e.id);
      GroupCreatesNonNegative(s, EventsOf(rows, e), e.id);
    }
  }

  /** Every event of the group names the id and is in the log of the observer that logs its kind. */
  ghost predicate FromLogs(s: Sys, events: seq<Event>, id: int) {
    forall i :: 0 <= i < |events| ==>
      events[i].entityId == id && events[i] in (if VaKind(events[i].kind) then s.va.events else s.pvc.events)
  }

  lemma GroupComesFromLogs(s: Sys, before: multiset<Event>, others: multiset<Event>, events: seq<Event>, id: int)
    requires Balanced(s, before, others)
    requires forall o :: o in before || o in others ==> o.entityId != id
    requires forall ev: Event :: multiset(events)[ev] == if ev.entityId == id then multiset(s.pvc.db.events)[ev] else 0
    requires NoVaKinds(s.pvc.events) && OnlyVaKinds(s.va.events)
    ensures FromLogs(s, events, id)
  {
    forall i | 0 <= i < |events|
      ensures events[i].entityId == id && events[i] in (if VaKind(events[i].kind) then s.va.events else s.pvc.events)
    {
      var ev := events[i];
      assert multiset(events)[ev] > 0 by { assert ev in multiset(events); }
      assert ev in AllOf(s.pvc.saved) || ev in AllOf(s.va.saved);
      AllOfOne(s.pvc.events);
      AllOfOne(s.va.events);
      assert ev in s.pvc.events || ev in s.va.events;
    }
  }

  lemma GroupCreatesNonNegative(s: Sys, events: seq<Event>, id: int)
    requires Inv(s) && FromLogs(s, events, id) && id != 0
    ensures C.Has(events, PvcAdded) && C.Has(events, PvcAttachEnded) ==> C.Metric(events, C.PVCCreation) >= 0
  {
    if C.Has(events, PvcAdded) && C.Has(events, PvcAttachEnded) {
      C.LastIsSome(events, PvcAdded);
      C.LastIsSome(events, PvcAttachEnded);
      var i :| 0 <= i < |events| && events[i].kind == PvcAdded && events[i].timestamp == C.Last(events, PvcAdded);
      var j :| 0 <= j < |events| && events[j].kind == PvcAttachEnded && events[j].timestamp == C.Last(events, PvcAttachEnded);
      AddedIsFirst(s, events[i], events[j]);
    }
  }

  // -------------------------------------------------------- after Stop erased PvcShare

  /** PvcShare is empty, no PVC observer is there to fill it, and the VA observer is still draining. */
  predicate Abandoned(s: Sys) {
    && s.shouldClean && s.pvc.phase != Looping && s.pvc.share == map[]
    && s.va.phase == Draining && |s.va.attached| != |s.va.deleted|
  }

  /** A VA observer that has not drained when Stop erases PvcShare never returns: it cannot
      recognise the deletions it waits for. */
  lemma {:induction false} ErasedShareNeverDrains(s: Sys, moves: seq<Move>)
    requires Abandoned(s)
    ensures var t := Run(s, moves);
            && (t.va.phase == Draining || t.va.phase == Crashed)
            && t.va.events == s.va.events && t.va.saved == s.va.saved
            && t.va.attached == s.va.attached && t.va.deleted == s.va.deleted
            && t.pvc.phase == s.pvc.phase && t.pvc.share == map[] && t.shouldClean
  {
    if moves == [] {
    } else {
      ErasedShareNeverDrains(s, moves[..|moves| - 1]);
    }
  }

  lemma {:induction false} CrashedStandsStill(s: Sys, moves: seq<Move>)
    requires s.pvc.phase == Crashed
    ensures Run(s, moves) == s
  {
    if moves == [] {
    } else {
      CrashedStandsStill(s, moves[..|moves| - 1]);
    }
  }

  lemma RunSnoc(s: Sys, moves: seq<Move>, m: Move)
    ensures Run(s, moves + [m]) == Next(Run(s, moves), m)
    ensures Monotone(s, moves + [m]) <==> Monotone(s, moves) && Allowed(Run(s, moves), m)
  {
    assert (moves + [m])[..|moves|] == moves;
  }

  lemma {:induction false} RunCons(s: Sys, m: Move, rest: seq<Move>)
    requires Allowed(s, m) && Monotone(Next(s, m), rest)
    ensures Run(s, [m] + rest) == Run(Next(s, m), rest) && Monotone(s, [m] + rest)
  {
    if rest == [] {
      RunSnoc(s, [], m);
      assert [m] + rest == [] + [m];
    } else {
      var front, last := rest[..|rest| - 1], rest[|rest| - 1];
      RunCons(s, m, front);
      RunSnoc(s, [m] + front, last);
      assert [m] + rest == ([m] + front) + [last];
    }
  }

  lemma {:induction false} LongName(names: set<string>) returns (n: string)
    ensures forall m :: m in names ==> |m| < |n|
    decreases |names|
  {
    if names == {} {
      n := "";
    } else {
      var m :| m in names;
      var rest := LongName(names - {m});
      n := m + rest + "x";
    }
  }

  /** One more VA attached, or deleted, that was not recorded before. */
  lemma VaReportGrows(s: Sys, kind: WatchKind, name: string, v: string)
    requires s.va.phase == Draining && s.pvc.phase != Crashed && v in s.pvc.share
    requires (kind == Modified && name !in s.va.attached) || (kind == Deleted && name !in s.va.deleted)
    ensures var m := VaTurn(Data(Change(kind, V.VaObject(name, Some(v), true, false))), s.now);
            var t := Next(s, m);
            && Allowed(s, m) && t.pvc.share == s.pvc.share && t.pvc.phase == s.pvc.phase && t.shouldClean == s.shouldClean
            && |t.va.attached| == |s.va.attached| + (if kind == Modified then 1 else 0)
            && |t.va.deleted| == |s.va.deleted| + (if kind == Deleted then 1 else 0)
            && t.va.phase == if kind == Deleted && |t.va.attached| == |t.va.deleted| then Returned else Draining
  {
  }

  /** With one volume published, reports of attachments and deletions bring the drain to its end. */
  lemma {:induction false} PublishedCanReturn(s: Sys, v: string) returns (moves: seq<Move>)
    requires s.va.phase == Draining && s.pvc.phase != Crashed && v in s.pvc.share
    ensures Monotone(s, moves) && Run(s, moves).va.phase == Returned
    decreases if |s.va.attached| <= |s.va.deleted| then |s.va.deleted| - |s.va.attached| + 2
              else |s.va.attached| - |s.va.deleted|
  {
    var kind := if |s.va.attached| <= |s.va.deleted| then Modified else Deleted;
    var name := LongName(if kind == Modified then s.va.attached else s.va.deleted);
    VaReportGrows(s, kind, name, v);
    var m := VaTurn(Data(Change(kind, V.VaObject(name, Some(v), true, false))), s.now);
    var t := Next(s, m);
    var rest: seq<Move> := [];
    if t.va.phase == Draining { rest := PublishedCanReturn(t, v); }
    RunCons(s, m, rest);
    moves := [m] + rest;
  }

  /** A running PVC observer can publish a volume. */
  lemma CanPublish(s: Sys) returns (m1: Move, m2: Move)
    requires s.pvc.phase == Looping && s.va.phase == Draining
    ensures Allowed(s, m1) && Allowed(Next(s, m1), m2)
    ensures var t := Next(Next(s, m1), m2);
            "v" in t.pvc.share && t.pvc.phase == Looping && t.va == s.va && t.shouldClean == s.shouldClean
  {
    var n := LongName(s.pvc.bound);
    m1 := PvcTurn(Data(Change(Added, P.PvcObject(n, "uid", false, "", false))), s.now);
    m2 := PvcTurn(Data(Change(Modified, P.PvcObject(n, "uid", true, "v", false))), s.now);
    var t := Next(s, m1);
    assert n in t.pvc.entities && n !in t.pvc.bound;
  }

  predicate CanStillEnd(s: Sys) {
    s.pvc.phase != Crashed
    && (s.pvc.share != map[] || s.pvc.phase == Looping || |s.va.attached| == |s.va.deleted|)
  }

  lemma EndsSomehow(s: Sys) returns (moves: seq<Move>)
    requires s.va.phase == Draining && CanStillEnd(s)
    ensures Monotone(s, moves) && Run(s, moves).va.phase == Returned
  {
    if s.pvc.share != map[] {
      var v :| v in s.pvc.share;
      moves := PublishedCanReturn(s, v);
    } else if s.pvc.phase == Looping {
      var m1, m2 := CanPublish(s);
      moves := PublishedCanReturn(Next(Next(s, m1), m2), "v");
      RunCons(Next(s, m1), m2, moves);
      RunCons(s, m1, [m2] + moves);
      moves := [m1] + ([m2] + moves);
    } else {
      var signal := VaTurn(Finish, s.now);
      assert Next(s, signal).va.phase == Returned;
      RunCons(s, signal, []);
      moves := [signal] + [];
    }
  }

  lemma NeverEnds(s: Sys, moves: seq<Move>)
    requires s.shouldClean && s.va.phase == Draining && !CanStillEnd(s)
    ensures Run(s, moves).va.phase != Returned
  {
    if s.pvc.phase == Crashed { CrashedStandsStill(s, moves); } else { ErasedShareNeverDrains(s, moves); }
  }

  /** The exact fate of a draining VA observer under ShouldClean: some continuation lets it return if
      and only if the process has not crashed and a volume is published, or a PVC observer can still
      publish one, or the sizes agree so that another signal would do. */
  lemma DrainCanEnd(s: Sys)
    requires s.shouldClean && s.va.phase == Draining
    ensures (exists moves :: Monotone(s, moves) && Run(s, moves).va.phase == Returned)
       <==> s.pvc.phase != Crashed
            && (s.pvc.share != map[] || s.pvc.phase == Looping || |s.va.attached| == |s.va.deleted|)
  {
    if CanStillEnd(s) {
      var moves := EndsSomehow(s);
    } else {
      forall moves ensures Run(s, moves).va.phase != Returned { NeverEnds(s, moves); }
    }
  }

  /** Start reaches such a state: a claim is added and bound, its volume attached, both observers get
      their signal, and Stop erases PvcShare. */
  lemma StopAbandons() returns (moves: seq<Move>)
    ensures var start := Start(1, Db([], []), true, 0);
            Monotone(start, moves) && Abandoned(Run(start, moves))
  {
    var start := Start(1, Db([], []), true, 0);
    var attached := AttachedRun();
    var pvcDone, vaDone := PvcTurn(Finish, 0), VaTurn(Finish, 0);
    RunSnoc(start, attached, pvcDone);
    RunSnoc(start, attached + [pvcDone], vaDone);
    RunSnoc(start, attached + [pvcDone] + [vaDone], Erase("pv"));
    moves := attached + [pvcDone] + [vaDone] + [Erase("pv")];
    assert Run(start, moves).pvc.share == map[];
  }

  lemma AttachedRun() returns (moves: seq<Move>)
    ensures var start := Start(1, Db([], []), true, 0);
            var s := Run(start, moves);
            && Monotone(start, moves) && s.shouldClean && s.now == 0
            && s.pvc.phase == Looping && s.pvc.share.Keys == {"pv"}
            && s.va.phase == Looping && |s.va.attached| == 1 && s.va.deleted == {}
  {
    var start := Start(1, Db([], []), true, 0);
    var added := PvcTurn(Data(Change(Added, P.PvcObject("claim", "uid", false, "", false))), 0);
    var bound := PvcTurn(Data(Change(Modified, P.PvcObject("claim", "uid", true, "pv", false))), 0);
    var attached := VaTurn(Data(Change(Modified, V.VaObject("va", Some("pv"), true, false))), 0);
    RunSnoc(start, [], added);
    RunSnoc(start, [] + [added], bound);
    RunSnoc(start, [] + [added] + [bound], attached);
    moves := [] + [added] + [bound] + [attached];
    var t := Run(start, [] + [added]);
    assert "claim" in t.pvc.entities && t.pvc.bound == {};
    var u := Run(start, [] + [added] + [bound]);
    assert u.pvc.share.Keys == {"pv"} && u.va == V.Init();
    assert Run(start, moves).va.attached == {"va"};
  }
}
