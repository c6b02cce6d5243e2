/** The watch-driven PVC observer, which publishes bound claims in PvcShare (pkg/observer/pvc.go). */
module PvcWatch {
  import opened Store
  import opened Observer

  datatype PvcObject = PvcObject(name: string, uid: string, bound: bool, volume: string, deleting: bool)

  datatype State = State(
    tcId: int,
    db: Db,
    share: map<string, Entity>,
    events: seq<Event>,
    entities: map<string, Entity>,
    bound: set<string>,
    deleting: set<string>,
    saved: seq<seq<Event>>,
    phase: Phase)

  function Init(tcId: int, db: Db, share: map<string, Entity>): State {
    State(tcId, db, share, [], map[], {}, {}, [], Looping)
  }

  function Log(s: State, name: string, kind: EventType, now: int): State {
    if name in s.entities then s.(events := s.events + [Event(s.entities[name].id, kind, now)])
    else s.(phase := Crashed)
  }

  function OnBound(s: State, pvc: PvcObject, now: int): State {
    var t := Log(s.(bound := s.bound + {pvc.name}), pvc.name, PvcBound, now);
    if t.phase == Crashed then t else t.(share := t.share[pvc.volume := t.entities[pvc.name]])
  }

  function OnChange(s: State, kind: WatchKind, pvc: PvcObject, now: int): State {
    match kind
    case Added =>
      var (db', e) := InsertEntity(s.db, Entity(0, pvc.name, pvc.uid, s.tcId, EntityType.Pvc));
      s.(db := db', entities := s.entities[pvc.name := e],
         events := s.events + [Event(e.id, PvcAdded, now)])
    case Modified =>
      if pvc.bound && pvc.name !in s.bound then OnBound(s, pvc, now)
      else if pvc.deleting && pvc.name !in s.deleting then
        Log(s.(deleting := s.deleting + {pvc.name}), pvc.name, PvcDeletingStarted, now)
      else s
    case Deleted => Log(s, pvc.name, PvcDeletingEnded, now)
    case Other => s
  }

  function Step(s: State, input: Input<PvcObject>, now: int): State {
    if s.phase != Looping then s
    else match input
      case Finish => s.(db := InsertEvents(s.db, s.events), saved := s.saved + [s.events], phase := Returned)
      case Data(Change(kind, pvc)) => OnChange(s, kind, pvc, now)
      case Data(_) => s
  }

  class PvcObserver {
    var events: seq<Event>
    var entities: map<string, Entity>
    var boundPVCs: set<string>
    var deletingPVCs: set<string>
    var saved: seq<seq<Event>>
    var phase: Phase

    ghost function View(runner: Runner): State
      reads this, runner
    {
      State(runner.tcId, runner.database, runner.pvcShare, events, entities, boundPVCs, deletingPVCs, saved, phase)
    }

    constructor (runner: Runner)
      ensures View(runner) == Init(runner.tcId, runner.database, runner.pvcShare)
    {
      events, entities, boundPVCs, deletingPVCs, saved, phase := [], map[], {}, {}, [], Looping;
    }

    /** One turn of the select loop. */
    method Select(runner: Runner, input: Input<PvcObject>, now: int)
      requires phase == Looping
      modifies this, runner`database, runner`pvcShare
      ensures View(runner) == Step(old(View(runner)), input, now)
      ensures runner.database.events == old(runner.database.events) + if input.Finish? then events else []
      ensures input.Finish? ==> runner.database.entities == old(runner.database.entities)
    {
      match input
      case Finish =>
        runner.database := SaveEvents(runner.database, events);
        saved := saved + [events];
        phase := Returned;
      case Data(NilObject) =>
      case Data(WrongType) =>
      case Data(Change(kind, pvc)) =>
        match kind {
          case Added =>
            var (db, entity) := InsertEntity(runner.database,
                                             Entity(0, pvc.name, pvc.uid, runner.tcId, EntityType.Pvc));
            runner.database := db;
            entities := entities[pvc.name := entity];
            events := events + [Event(entity.id, PvcAdded, now)];
          case Modified =>
            if pvc.bound && pvc.name !in boundPVCs {
              boundPVCs := boundPVCs + {pvc.name};
              Append(pvc.name, PvcBound, now);
              if phase != Crashed {
                runner.pvcShare := runner.pvcShare[pvc.volume := entities[pvc.name]];
              }
            } else if pvc.deleting && pvc.name !in deletingPVCs {
              deletingPVCs := deletingPVCs + {pvc.name};
              Append(pvc.name, PvcDeletingStarted, now);
            }
          case Deleted =>
            Append(pvc.name, PvcDeletingEnded, now);
          case Other =>
        }
    }

    method Append(name: string, kind: EventType, now: int)
      modifies this`events, this`phase
      ensures name in entities ==> events == old(events) + [Event(entities[name].id, kind, now)] && phase == old(phase)
      ensures name !in entities ==> events == old(events) && phase == Crashed
    {
      if name in entities {
        events := events + [Event(entities[name].id, kind, now)];
      } else {
        phase := Crashed;
      }
    }
  }

  // ------------------------------------------------------------------- whole runs

  type Stream = seq<WatchData<PvcObject>>

  function Run(s: State, stream: Stream, clock: nat -> int): State {
    if stream == [] then s
    else
      var t := Run(s, stream[..|stream| - 1], clock);
      Step(t, Data(stream[|stream| - 1]), clock(|t.events|))
  }

  lemma RunSnoc(s: State, stream: Stream, d: WatchData<PvcObject>, clock: nat -> int)
    ensures var t := Run(s, stream, clock);
            Run(s, stream + [d], clock) == Step(t, Data(d), clock(|t.events|))
  {
    assert (stream + [d])[..|stream|] == stream;
  }

  lemma {:induction false} RunAppend(s: State, xs: Stream, ys: Stream, clock: nat -> int)
    ensures Run(s, xs + ys, clock) == Run(Run(s, xs, clock), ys, clock)
  {
    if ys == [] {
      assert xs + ys == xs;
    } else {
      RunAppend(s, xs, ys[..|ys| - 1], clock);
      assert (xs + ys)[..|xs + ys| - 1] == xs + ys[..|ys| - 1];
    }
  }

  /** The names a stream announces. */
  function AddedNames(stream: Stream): set<string> {
    if stream == [] then {}
    else
      var d := stream[|stream| - 1];
      AddedNames(stream[..|stream| - 1]) + if d.Change? && d.kind == Added then {d.obj.name} else {}
  }

  /** A change that has something to log for a name outside known. */
  predicate Orphan(known: set<string>, d: WatchData<PvcObject>) {
    && d.Change?
    && (d.kind == Deleted || (d.kind == Modified && (d.obj.bound || d.obj.deleting)))
    && d.obj.name !in known
  }

  predicate HasOrphan(stream: Stream) {
    stream != [] &&
    var front := stream[..|stream| - 1];
    HasOrphan(front) || Orphan(AddedNames(front), stream[|stream| - 1])
  }

  predicate SetsKnown(s: State) {
    s.bound <= s.entities.Keys && s.deleting <= s.entities.Keys
  }

  lemma StepCrashesOnOrphan(s: State, d: WatchData<PvcObject>, now: int)
    requires s.phase == Looping && SetsKnown(s)
    ensures var t := Step(s, Data(d), now);
            && t.phase == (if Orphan(s.entities.Keys, d) then Crashed else Looping)
            && (t.phase == Looping ==>
                  SetsKnown(t) && t.entities.Keys == s.entities.Keys + AddedNames([d]))
  {
    assert [d][..0] == [];
  }

  lemma CrashedStays(s: State, d: WatchData<PvcObject>, now: int)
    requires s.phase == Crashed
    ensures Step(s, Data(d), now) == s
  {
  }

  /** The observer dereferences nil exactly on streams that log something for a claim before
      its Added arrived; the entity map otherwise knows exactly the announced names. */
  lemma {:induction false} CrashesExactlyOnOrphans(tcId: int, db: Db, share: map<string, Entity>, stream: Stream, clock: nat -> int)
    ensures var s := Run(Init(tcId, db, share), stream, clock);
            && s.phase == (if HasOrphan(stream) then Crashed else Looping)
            && (s.phase == Looping ==> SetsKnown(s) && s.entities.Keys == AddedNames(stream))
  {
    if stream == [] {
    } else {
      var front, d := stream[..|stream| - 1], stream[|stream| - 1];
      CrashesExactlyOnOrphans(tcId, db, share, front, clock);
      var s := Run(Init(tcId, db, share), front, clock);
      if s.phase == Looping {
        StepCrashesOnOrphan(s, d, clock(|s.events|));
        assert [d][..0] == [];
      } else {
        CrashedStays(s, d, clock(|s.events|));
      }
    }
  }

  // ------------------------------------------------------------- what a run records

  function BoundBy(d: WatchData<PvcObject>): set<string> {
    if d.Change? && d.kind == Modified && d.obj.bound then {d.obj.name} else {}
  }

  /** A report that makes a claim bound is not looked at for deletion. */
  function DeletingBy(bound: set<string>, d: WatchData<PvcObject>): set<string> {
    if d.Change? && d.kind == Modified && d.obj.deleting && BoundBy(d) <= bound then {d.obj.name} else {}
  }

  function BoundNames(stream: Stream): set<string> {
    if stream == [] then {} else BoundNames(stream[..|stream| - 1]) + BoundBy(stream[|stream| - 1])
  }

  function DeletingNames(stream: Stream): set<string> {
    if stream == [] then {}
    else
      var front := stream[..|stream| - 1];
      DeletingNames(front) + DeletingBy(BoundNames(front), stream[|stream| - 1])
  }

  function PublishedBy(bound: set<string>, d: WatchData<PvcObject>): map<string, string> {
    if BoundBy(d) <= bound then map[] else map[d.obj.volume := d.obj.name]
  }

  /** The volumes published so far, each with the claim that was bound to it last. */
  function Published(stream: Stream): map<string, string> {
    if stream == [] then map[]
    else
      var front := stream[..|stream| - 1];
      Published(front) + PublishedBy(BoundNames(front), stream[|stream| - 1])
  }

  function UidBy(d: WatchData<PvcObject>): map<string, string> {
    if d.Change? && d.kind == Added then map[d.obj.name := d.obj.uid] else map[]
  }

  /** Per announced name the UID announced last. */
  function LastUids(stream: Stream): map<string, string> {
    if stream == [] then map[] else LastUids(stream[..|stream| - 1]) + UidBy(stream[|stream| - 1])
  }

  /** Under each name there is a claim of this test case with that name and UID. */
  predicate Filed(entities: map<string, Entity>, tcId: int, uids: map<string, string>) {
    && entities.Keys == uids.Keys
    && forall n :: n in entities ==>
         entities[n].name == n && entities[n].uid == uids[n] && entities[n].tcId == tcId && entities[n].kind == EntityType.Pvc
  }

  /** PvcShare holds what it held at first, overridden by the claims that were published. */
  predicate Shares(now: map<string, Entity>, first: map<string, Entity>, published: map<string, string>) {
    && now.Keys == first.Keys + published.Keys
    && forall v :: v in now ==> if v in published then now[v].name == published[v] else now[v] == first[v]
  }

  /** One event more, and one element more in at most one of the two sets. */
  predicate Grown(s: State, t: State, kind: EventType) {
    && |t.events| == |s.events| + 1 && t.events == s.events + [t.events[|s.events|]] && t.events[|s.events|].kind == kind
    && |t.bound| == |s.bound| + (if kind == PvcBound then 1 else 0)
    && |t.deleting| == |s.deleting| + (if kind == PvcDeletingStarted then 1 else 0)
  }

  /** The log holds as many events of a kind as happened. */
  predicate Tallied(s: State, added: nat, deleted: nat) {
    && KindCount(s.events, PvcAdded) == added && KindCount(s.events, PvcBound) == |s.bound|
    && KindCount(s.events, PvcDeletingStarted) == |s.deleting| && KindCount(s.events, PvcDeletingEnded) == deleted
  }

  lemma GrownTallied(s: State, t: State, kind: EventType, added: nat, deleted: nat)
    requires Tallied(s, added, deleted) && Grown(s, t, kind)
    ensures Tallied(t, added + (if kind == PvcAdded then 1 else 0), deleted + (if kind == PvcDeletingEnded then 1 else 0))
  {
    var e := t.events[|s.events|];
    KindCountSnoc(s.events, e, PvcAdded);
    KindCountSnoc(s.events, e, PvcBound);
    KindCountSnoc(s.events, e, PvcDeletingStarted);
    KindCountSnoc(s.events, e, PvcDeletingEnded);
  }

  lemma StepSets(s: State, d: WatchData<PvcObject>, now: int)
    requires s.phase == Looping && SetsKnown(s) && !Orphan(s.entities.Keys, d)
    ensures var t := Step(s, Data(d), now);
            t.bound == s.bound + BoundBy(d) && t.deleting == s.deleting + DeletingBy(s.bound, d)
  {
  }

  lemma ModifiedGrows(s: State, pvc: PvcObject, now: int)
    requires s.phase == Looping && pvc.name in s.entities
    ensures var t := OnChange(s, Modified, pvc, now);
            t.events == s.events || Grown(s, t, t.events[|s.events|].kind)
  {
  }

  lemma PlainGrows(s: State, pvc: PvcObject, now: int)
    requires s.phase == Looping
    ensures Grown(s, OnChange(s, Added, pvc, now), PvcAdded)
    ensures pvc.name in s.entities ==> Grown(s, OnChange(s, Deleted, pvc, now), PvcDeletingEnded)
  {
  }

  lemma UnknownModified(s: State, pvc: PvcObject, now: int)
    requires s.phase == Looping && SetsKnown(s) && pvc.name !in s.entities && !Orphan(s.entities.Keys, Change(Modified, pvc))
    ensures OnChange(s, Modified, pvc, now) == s
  {
  }

  /** What one change adds to the sets and the log. */
  lemma StepTallies(s: State, d: WatchData<PvcObject>, now: int, added: nat, deleted: nat)
    requires s.phase == Looping && SetsKnown(s) && !Orphan(s.entities.Keys, d) && Tallied(s, added, deleted)
    ensures Tallied(Step(s, Data(d), now), added + (if d.Change? && d.kind == Added then 1 else 0),
                    deleted + (if d.Change? && d.kind == Deleted then 1 else 0))
  {
    if d.Change? {
      PlainGrows(s, d.obj, now);
      match d.kind
      case Added => GrownTallied(s, OnChange(s, Added, d.obj, now), PvcAdded, added, deleted);
      case Modified => ModifiedTallies(s, d.obj, now, added, deleted);
      case Deleted => GrownTallied(s, OnChange(s, Deleted, d.obj, now), PvcDeletingEnded, added, deleted);
      case Other =>
    }
  }

  lemma ModifiedTallies(s: State, pvc: PvcObject, now: int, added: nat, deleted: nat)
    requires s.phase == Looping && SetsKnown(s) && !Orphan(s.entities.Keys, Change(Modified, pvc)) && Tallied(s, added, deleted)
    ensures Tallied(OnChange(s, Modified, pvc, now), added, deleted)
  {
    if pvc.name !in s.entities {
      UnknownModified(s, pvc, now);
    } else {
      var t := OnChange(s, Modified, pvc, now);
      ModifiedGrows(s, pvc, now);
      ModifiedKinds(s, pvc, now);
      if t.events == s.events { assert t == s; } else { GrownTallied(s, t, t.events[|s.events|].kind, added, deleted); }
    }
  }

  lemma ModifiedKinds(s: State, pvc: PvcObject, now: int)
    requires s.phase == Looping && pvc.name in s.entities
    ensures var t := OnChange(s, Modified, pvc, now);
            t == s || (|t.events| > |s.events| && t.events[|s.events|].kind != PvcAdded && t.events[|s.events|].kind != PvcDeletingEnded)
  {
  }

  lemma StepKeepsTcId(s: State, d: WatchData<PvcObject>, now: int)
    ensures Step(s, Data(d), now).tcId == s.tcId
  {
  }

  lemma OnlyAddedFiles(s: State, d: WatchData<PvcObject>, now: int)
    requires s.phase == Looping && !(d.Change? && d.kind == Added)
    ensures var t := Step(s, Data(d), now); t.entities == s.entities && t.db == s.db
  {
  }

  lemma StepFiles(s: State, d: WatchData<PvcObject>, now: int, uids: map<string, string>)
    requires s.phase == Looping && Filed(s.entities, s.tcId, uids)
    ensures var t := Step(s, Data(d), now);
            t.tcId == s.tcId && Filed(t.entities, t.tcId, uids + UidBy(d))
  {
    StepKeepsTcId(s, d, now);
    if !(d.Change? && d.kind == Added) {
      OnlyAddedFiles(s, d, now);
      assert uids + map[] == uids;
    } else {
      assert uids + UidBy(d) == uids[d.obj.name := d.obj.uid];
    }
  }

  lemma StepPublishes(s: State, d: WatchData<PvcObject>, now: int, first: map<string, Entity>, published: map<string, string>)
    requires s.phase == Looping && SetsKnown(s) && !Orphan(s.entities.Keys, d)
    requires forall n :: n in s.entities ==> s.entities[n].name == n
    requires Shares(s.share, first, published)
    ensures Shares(Step(s, Data(d), now).share, first, published + PublishedBy(s.bound, d))
  {
    if BoundBy(d) <= s.bound { assert published + map[] == published; }
  }

  /** A run that does not crash has recorded exactly the claims reported bound and those reported
      deleting, and logged every Added and Deleted change and every recorded claim once. */
  lemma {:induction false} RecordsReports(tcId: int, db: Db, share: map<string, Entity>, stream: Stream, clock: nat -> int)
    requires !HasOrphan(stream)
    ensures var s := Run(Init(tcId, db, share), stream, clock);
            && s.bound == BoundNames(stream) && s.deleting == DeletingNames(stream)
            && Tallied(s, Changes(stream, Added), Changes(stream, Deleted))
  {
    if stream == [] {
    } else {
      var front, d := stream[..|stream| - 1], stream[|stream| - 1];
      RecordsReports(tcId, db, share, front, clock);
      CrashesExactlyOnOrphans(tcId, db, share, front, clock);
      var s := Run(Init(tcId, db, share), front, clock);
      StepSets(s, d, clock(|s.events|));
      StepTallies(s, d, clock(|s.events|), Changes(front, Added), Changes(front, Deleted));
    }
  }

  /** It has filed every announced claim and published each volume with the claim that was last
      bound to it. */
  lemma {:induction false} FilesAndPublishes(tcId: int, db: Db, share: map<string, Entity>, stream: Stream, clock: nat -> int)
    requires !HasOrphan(stream)
    ensures var s := Run(Init(tcId, db, share), stream, clock);
            s.tcId == tcId && Filed(s.entities, tcId, LastUids(stream)) && Shares(s.share, share, Published(stream))
  {
    if stream == [] {
    } else {
      var front, d := stream[..|stream| - 1], stream[|stream| - 1];
      FilesAndPublishes(tcId, db, share, front, clock);
      RecordsReports(tcId, db, share, front, clock);
      CrashesExactlyOnOrphans(tcId, db, share, front, clock);
      var s := Run(Init(tcId, db, share), front, clock);
      StepFiles(s, d, clock(|s.events|), LastUids(front));
      StepPublishes(s, d, clock(|s.events|), share, Published(front));
    }
  }

  // ------------------------------------------------- the log, from the stream alone

  function UidsBy(d: WatchData<PvcObject>): set<string> {
    if d.Change? && d.kind == Added then {d.obj.uid} else {}
  }

  function AnnouncedUids(stream: Stream): set<string> {
    if stream == [] then {} else AnnouncedUids(stream[..|stream| - 1]) + UidsBy(stream[|stream| - 1])
  }

  /** The announced claims that get a row: those whose UID had none. */
  function NewRows(db: Db, stream: Stream): nat {
    if stream == [] then 0
    else
      var front, d := stream[..|stream| - 1], stream[|stream| - 1];
      NewRows(db, front) + if UidsBy(d) != {} && IsNew(db, AnnouncedUids(front), d.obj.uid) then 1 else 0
  }

  /** Per announced name the id given to the one announced last; 0 if its UID had a row. */
  function HeldIds(db: Db, stream: Stream): map<string, int> {
    if stream == [] then map[]
    else
      var front, d := stream[..|stream| - 1], stream[|stream| - 1];
      if UidsBy(d) == {} then HeldIds(db, front)
      else if IsNew(db, AnnouncedUids(front), d.obj.uid) then HeldIds(db, front)[d.obj.name := |db.entities| + NewRows(db, stream)]
      else HeldIds(db, front)[d.obj.name := 0]
  }

  /** The change, with the ids held behind it, is one to be logged under the kind and the id. */
  predicate Reports(ids: map<string, int>, bound: set<string>, deleting: set<string>, d: WatchData<PvcObject>,
                    kind: EventType, id: int) {
    && d.Change? && d.obj.name in ids && ids[d.obj.name] == id
    && match kind
       case PvcAdded => d.kind == Added
       case PvcBound => BoundBy(d) - bound != {}
       case PvcDeletingStarted => DeletingBy(bound, d) - deleting != {}
       case PvcDeletingEnded => d.kind == Deleted
       case _ => false
  }

  function Reported(db: Db, stream: Stream, kind: EventType, id: int): nat {
    if stream == [] then 0
    else
      var front := stream[..|stream| - 1];
      Reported(db, front, kind, id)
      + if Reports(HeldIds(db, stream), BoundNames(front), DeletingNames(front), stream[|stream| - 1], kind, id) then 1 else 0
  }

  predicate Holds(entities: map<string, Entity>, ids: map<string, int>) {
    entities.Keys == ids.Keys && forall n :: n in entities ==> entities[n].id == ids[n]
  }

  lemma AddedFiles(s: State, pvc: PvcObject, now: int, db: Db, uids: set<string>, rows: nat, ids: map<string, int>)
    requires s.phase == Looping && GrownBy(db, uids, rows, s.db) && Holds(s.entities, ids)
    ensures var t := Step(s, Data(Change(Added, pvc)), now);
            if IsNew(db, uids, pvc.uid) then
              GrownBy(db, uids + {pvc.uid}, rows + 1, t.db) && Holds(t.entities, ids[pvc.name := |db.entities| + rows + 1])
            else
              GrownBy(db, uids + {pvc.uid}, rows, t.db) && Holds(t.entities, ids[pvc.name := 0])
  {
    InsertGrows(db, uids, rows, s.db, Entity(0, pvc.name, pvc.uid, s.tcId, EntityType.Pvc));
  }

  lemma NewlyReported(bound: set<string>, deleting: set<string>, d: WatchData<PvcObject>)
    requires d.Change?
    ensures BoundBy(d) - bound != {} <==> d.kind == Modified && d.obj.bound && d.obj.name !in bound
    ensures DeletingBy(bound, d) - deleting != {}
       <==> d.kind == Modified && d.obj.deleting && d.obj.name !in deleting && (d.obj.bound ==> d.obj.name in bound)
  {
    if d.obj.name !in bound && BoundBy(d) != {} { assert d.obj.name in BoundBy(d) - bound; }
    if d.obj.name !in deleting && DeletingBy(bound, d) != {} { assert d.obj.name in DeletingBy(bound, d) - deleting; }
  }

  lemma ModifiedLogs(s: State, pvc: PvcObject, now: int, ids: map<string, int>, kind: EventType, id: int)
    requires s.phase == Looping && pvc.name in s.entities && Holds(s.entities, ids)
    ensures Count(OnChange(s, Modified, pvc, now).events, kind, id)
         == Count(s.events, kind, id)
            + if Reports(ids, s.bound, s.deleting, Change(Modified, pvc), kind, id) then 1 else 0
  {
    NewlyReported(s.bound, s.deleting, Change(Modified, pvc));
    var t := OnChange(s, Modified, pvc, now);
    if t.events != s.events { CountSnoc(s.events, t.events[|s.events|], kind, id); }
  }

  lemma AddedLogs(s: State, pvc: PvcObject, now: int, ids: map<string, int>, kind: EventType, id: int)
    requires s.phase == Looping && Holds(OnChange(s, Added, pvc, now).entities, ids)
    ensures Count(OnChange(s, Added, pvc, now).events, kind, id)
         == Count(s.events, kind, id) + if Reports(ids, s.bound, s.deleting, Change(Added, pvc), kind, id) then 1 else 0
  {
    NewlyReported(s.bound, s.deleting, Change(Added, pvc));
    CountSnoc(s.events, Event(ids[pvc.name], PvcAdded, now), kind, id);
  }

  lemma DeletedLogs(s: State, pvc: PvcObject, now: int, ids: map<string, int>, kind: EventType, id: int)
    requires s.phase == Looping && pvc.name in s.entities && Holds(s.entities, ids)
    ensures Count(OnChange(s, Deleted, pvc, now).events, kind, id)
         == Count(s.events, kind, id) + if Reports(ids, s.bound, s.deleting, Change(Deleted, pvc), kind, id) then 1 else 0
  {
    NewlyReported(s.bound, s.deleting, Change(Deleted, pvc));
    CountSnoc(s.events, Event(ids[pvc.name], PvcDeletingEnded, now), kind, id);
  }

  /** What one change adds to the log, given the ids held behind it. */
  lemma StepLogs(s: State, d: WatchData<PvcObject>, now: int, ids: map<string, int>, kind: EventType, id: int)
    requires s.phase == Looping && SetsKnown(s) && !Orphan(s.entities.Keys, d)
    requires Holds(Step(s, Data(d), now).entities, ids)
    ensures Count(Step(s, Data(d), now).events, kind, id)
         == Count(s.events, kind, id) + if Reports(ids, s.bound, s.deleting, d, kind, id) then 1 else 0
  {
    if d.Change? {
      match d.kind
      case Added => AddedLogs(s, d.obj, now, ids, kind, id);
      case Modified =>
        if d.obj.name in s.entities { ModifiedLogs(s, d.obj, now, ids, kind, id); } else { UnknownModified(s, d.obj, now); }
      case Deleted => DeletedLogs(s, d.obj, now, ids, kind, id);
      case Other => NewlyReported(s.bound, s.deleting, d);
    }
  }

  /** A run that does not crash has stored one row for every new UID and no event, and it holds the
      ids told by the stream. */
  lemma {:induction false} RowsTellStream(tcId: int, db: Db, share: map<string, Entity>, stream: Stream, clock: nat -> int)
    requires !HasOrphan(stream)
    ensures var s := Run(Init(tcId, db, share), stream, clock);
            Holds(s.entities, HeldIds(db, stream)) && GrownBy(db, AnnouncedUids(stream), NewRows(db, stream), s.db)
  {
    if stream == [] {
    } else {
      var front, d := stream[..|stream| - 1], stream[|stream| - 1];
      RowsTellStream(tcId, db, share, front, clock);
      CrashesExactlyOnOrphans(tcId, db, share, front, clock);
      var s := Run(Init(tcId, db, share), front, clock);
      if UidsBy(d) == {} {
        OnlyAddedFiles(s, d, clock(|s.events|));
        assert AnnouncedUids(stream) == AnnouncedUids(front);
      } else {
        AddedFiles(s, d.obj, clock(|s.events|), db, AnnouncedUids(front), NewRows(db, front), HeldIds(db, front));
      }
    }
  }

  /** Of each kind and each id it has logged as many events as the stream reports: every event goes under
      the id of the claim last announced under the name. */
  lemma {:induction false} LogTellsStream(tcId: int, db: Db, share: map<string, Entity>, stream: Stream, clock: nat -> int,
                                          kind: EventType, id: int)
    requires !HasOrphan(stream)
    ensures Count(Run(Init(tcId, db, share), stream, clock).events, kind, id) == Reported(db, stream, kind, id)
  {
    if stream == [] {
    } else {
      var front, d := stream[..|stream| - 1], stream[|stream| - 1];
      LogTellsStream(tcId, db, share, front, clock, kind, id);
      CrashesExactlyOnOrphans(tcId, db, share, front, clock);
      RecordsReports(tcId, db, share, front, clock);
      RowsTellStream(tcId, db, share, stream, clock);
      var s := Run(Init(tcId, db, share), front, clock);
      StepLogs(s, d, clock(|s.events|), HeldIds(db, stream), kind, id);
    }
  }

  /** Per published volume the id its claim held when it was bound. */
  function SharedIds(db: Db, stream: Stream): map<string, int> {
    if stream == [] then map[]
    else
      var front, d := stream[..|stream| - 1], stream[|stream| - 1];
      if !(BoundBy(d) <= BoundNames(front)) && d.obj.name in HeldIds(db, front)
      then SharedIds(db, front)[d.obj.volume := HeldIds(db, front)[d.obj.name]]
      else SharedIds(db, front)
  }

  predicate SharesIds(now: map<string, Entity>, first: map<string, Entity>, ids: map<string, int>) {
    forall v :: v in now ==> if v in ids then now[v].id == ids[v] else v in first && now[v] == first[v]
  }

  lemma NotBoundKeepsShare(s: State, d: WatchData<PvcObject>, now: int)
    requires s.phase == Looping && BoundBy(d) <= s.bound
    ensures Step(s, Data(d), now).share == s.share
  {
  }

  lemma BoundShares(s: State, d: WatchData<PvcObject>, now: int)
    requires s.phase == Looping && !(BoundBy(d) <= s.bound) && d.obj.name in s.entities
    ensures Step(s, Data(d), now).share == s.share[d.obj.volume := s.entities[d.obj.name]]
  {
  }

  /** PvcShare holds each volume published under the id its claim held at that time. */
  lemma {:induction false} ShareTellsStream(tcId: int, db: Db, share: map<string, Entity>, stream: Stream, clock: nat -> int)
    requires !HasOrphan(stream)
    ensures SharesIds(Run(Init(tcId, db, share), stream, clock).share, share, SharedIds(db, stream))
  {
    if stream == [] {
    } else {
      var front, d := stream[..|stream| - 1], stream[|stream| - 1];
      ShareTellsStream(tcId, db, share, front, clock);
      CrashesExactlyOnOrphans(tcId, db, share, front, clock);
      RecordsReports(tcId, db, share, front, clock);
      RowsTellStream(tcId, db, share, front, clock);
      var s := Run(Init(tcId, db, share), front, clock);
      if BoundBy(d) <= s.bound {
        NotBoundKeepsShare(s, d, clock(|s.events|));
      } else {
        BoundShares(s, d, clock(|s.events|));
      }
    }
  }

  /** Every event carries the time of its logging. */
  lemma {:induction false} LogIsClocked(tcId: int, db: Db, share: map<string, Entity>, stream: Stream, clock: nat -> int)
    ensures Clocked(Run(Init(tcId, db, share), stream, clock).events, clock)
  {
    if stream == [] {
    } else {
      LogIsClocked(tcId, db, share, stream[..|stream| - 1], clock);
      StepClocked(Run(Init(tcId, db, share), stream[..|stream| - 1], clock), stream[|stream| - 1], clock);
    }
  }

  lemma StepClocked(s: State, d: WatchData<PvcObject>, clock: nat -> int)
    requires Clocked(s.events, clock)
    ensures Clocked(Step(s, Data(d), clock(|s.events|)).events, clock)
  {
  }

  // ----------------------------------------------------------- deletions only log

  predicate IsDeletion(d: WatchData<PvcObject>) {
    d.Change? && d.kind == Deleted
  }

  function WithoutDeletions(stream: Stream): Stream {
    if stream == [] then []
    else
      var last := stream[|stream| - 1];
      WithoutDeletions(stream[..|stream| - 1]) + if IsDeletion(last) then [] else [last]
  }

  /** Kind and entity of every event but the deletions, in order. */
  function Visible(log: seq<Event>): seq<(EventType, int)> {
    if log == [] then []
    else
      var last := log[|log| - 1];
      Visible(log[..|log| - 1]) + if last.kind == PvcDeletingEnded then [] else [(last.kind, last.entityId)]
  }

  lemma VisibleSnoc(log: seq<Event>, e: Event)
    ensures Visible(log + [e]) == Visible(log) + if e.kind == PvcDeletingEnded then [] else [(e.kind, e.entityId)]
  {
    assert (log + [e])[..|log|] == log;
  }

  /** Two runs that agree on everything but deletions and readings of the clock. */
  predicate Alike(s: State, t: State) {
    && Visible(s.events) == Visible(t.events)
    && s == t.(events := s.events)
  }

  lemma LogAlike(s: State, t: State, name: string, kind: EventType, now: int, later: int)
    requires Alike(s, t)
    ensures kind != PvcDeletingEnded ==> Alike(Log(s, name, kind, now), Log(t, name, kind, later))
    ensures kind == PvcDeletingEnded && name in s.entities ==> Alike(Log(s, name, kind, now), t)
  {
    if name in s.entities {
      VisibleSnoc(s.events, Event(s.entities[name].id, kind, now));
      VisibleSnoc(t.events, Event(t.entities[name].id, kind, later));
    }
  }

  lemma AddedAlike(s: State, t: State, pvc: PvcObject, now: int, later: int)
    requires Alike(s, t)
    ensures Alike(OnChange(s, Added, pvc, now), OnChange(t, Added, pvc, later))
  {
    var e := InsertEntity(s.db, Entity(0, pvc.name, pvc.uid, s.tcId, EntityType.Pvc)).1;
    VisibleSnoc(s.events, Event(e.id, PvcAdded, now));
    VisibleSnoc(t.events, Event(e.id, PvcAdded, later));
  }

  lemma ModifiedAlike(s: State, t: State, pvc: PvcObject, now: int, later: int)
    requires Alike(s, t)
    ensures Alike(OnChange(s, Modified, pvc, now), OnChange(t, Modified, pvc, later))
  {
    if pvc.bound && pvc.name !in s.bound {
      LogAlike(s.(bound := s.bound + {pvc.name}), t.(bound := t.bound + {pvc.name}), pvc.name, PvcBound, now, later);
    } else if pvc.deleting && pvc.name !in s.deleting {
      LogAlike(s.(deleting := s.deleting + {pvc.name}), t.(deleting := t.deleting + {pvc.name}),
               pvc.name, PvcDeletingStarted, now, later);
    }
  }

  lemma StepAlike(s: State, t: State, d: WatchData<PvcObject>, now: int, later: int)
    requires Alike(s, t) && s.phase == Looping
    ensures !IsDeletion(d) ==> Alike(Step(s, Data(d), now), Step(t, Data(d), later))
    ensures IsDeletion(d) && Step(s, Data(d), now).phase == Looping ==> Alike(Step(s, Data(d), now), t)
  {
    if d.Change? {
      match d.kind
      case Added => AddedAlike(s, t, d.obj, now, later);
      case Modified => ModifiedAlike(s, t, d.obj, now, later);
      case Deleted => LogAlike(s, t, d.obj.name, PvcDeletingEnded, now, later);
      case Other =>
    }
  }

  /** A Deleted change does nothing but log itself: dropping all of them from a stream that does
      not crash leaves entities, published volumes and the rest of the log as they were. */
  lemma {:induction false} DeletionsOnlyLog(s: State, stream: Stream, clock: nat -> int)
    requires s.phase == Looping && Run(s, stream, clock).phase == Looping
    ensures Alike(Run(s, stream, clock), Run(s, WithoutDeletions(stream), clock))
  {
    if stream == [] {
    } else {
      var front, last := stream[..|stream| - 1], stream[|stream| - 1];
      DeletionsOnlyLog(s, front, clock);
      var t, u := Run(s, front, clock), Run(s, WithoutDeletions(front), clock);
      StepAlike(t, u, last, clock(|t.events|), clock(|u.events|));
      var kept := WithoutDeletions(front);
      if IsDeletion(last) {
        assert WithoutDeletions(stream) == kept;
      } else {
        assert (kept + [last])[..|kept|] == kept;
      }
    }
  }
}
