/** The watch-driven pod observer (pkg/observer/pod.go). */
module PodWatch {
  import opened Store
  import opened Observer

  datatype PodObject = PodObject(name: string, uid: string, ready: bool, terminating: bool)

  datatype State = State(
    tcId: int,
    db: Db,
    events: seq<Event>,
    entities: map<string, Entity>,
    ready: set<string>,
    terminating: set<string>,
    saved: seq<seq<Event>>,
    phase: Phase)

  function Init(tcId: int, db: Db): State {
    State(tcId, db, [], map[], {}, {}, [], Looping)
  }

  /** Appends an event of a known entity; an unknown one is a nil dereference. */
  function Log(s: State, name: string, kind: EventType, now: int): State {
    if name in s.entities then s.(events := s.events + [Event(s.entities[name].id, kind, now)])
    else s.(phase := Crashed)
  }

  function OnChange(s: State, kind: WatchKind, pod: PodObject, now: int): State {
    match kind
    case Added =>
      var (db', e) := InsertEntity(s.db, Entity(0, pod.name, pod.uid, s.tcId, EntityType.Pod));
      s.(db := db', entities := s.entities[pod.name := e],
         events := s.events + [Event(e.id, PodAdded, now)])
    case Modified =>
      if pod.name !in s.ready && pod.ready then
        Log(s.(ready := s.ready + {pod.name}), pod.name, PodReady, now)
      else if pod.terminating && pod.name !in s.terminating then
        Log(s.(terminating := s.terminating + {pod.name}), pod.name, PodTerminating, now)
      else s
    case Deleted => Log(s, pod.name, PodDeleted, now)
    case Other => s
  }

  function Step(s: State, input: Input<PodObject>, now: int): State {
    if s.phase != Looping then s
    else match input
      case Finish => s.(db := InsertEvents(s.db, s.events), saved := s.saved + [s.events], phase := Returned)
      case Data(Change(kind, pod)) => OnChange(s, kind, pod, now)
      case Data(_) => s
  }

  class PodObserver {
    var events: seq<Event>
    var entities: map<string, Entity>
    var readyPods: set<string>
    var terminatingPods: set<string>
    var saved: seq<seq<Event>>
    var phase: Phase

    ghost function View(runner: Runner): State
      reads this, runner
    {
      State(runner.tcId, runner.database, events, entities, readyPods, terminatingPods, saved, phase)
    }

    /** StartWatching up to its loop, with a client that can be watched. */
    constructor (runner: Runner)
      ensures View(runner) == Init(runner.tcId, runner.database)
    {
      events, entities, readyPods, terminatingPods, saved, phase := [], map[], {}, {}, [], Looping;
    }

    /** One turn of the select loop. */
    method Select(runner: Runner, input: Input<PodObject>, now: int)
      requires phase == Looping
      modifies this, runner`database
      ensures View(runner) == Step(old(View(runner)), input, now)
      ensures runner.database.events == old(runner.database.events) + if input.Finish? then events else []
      ensures input.Finish? ==> runner.database.entities == old(runner.database.entities)
    {
      match input
      case Finish =>
        runner.database := SaveEvents(runner.database, events);
        saved := saved + [events];
        phase := Returned;
      case Data(NilObject) =>
      case Data(WrongType) =>
      case Data(Change(kind, pod)) =>
        match kind {
          case Added =>
            var (db, entity) := InsertEntity(runner.database,
                                             Entity(0, pod.name, pod.uid, runner.tcId, EntityType.Pod));
            runner.database := db;
            entities := entities[pod.name := entity];
            events := events + [Event(entity.id, PodAdded, now)];
          case Modified =>
            if pod.name !in readyPods && pod.ready {
              readyPods := readyPods + {pod.name};
              Append(pod.name, PodReady, now);
            } else if pod.terminating && pod.name !in terminatingPods {
              terminatingPods := terminatingPods + {pod.name};
              Append(pod.name, PodTerminating, now);
            }
          case Deleted =>
            Append(pod.name, PodDeleted, now);
          case Other =>
        }
    }

    method Append(name: string, kind: EventType, now: int)
      modifies this`events, this`phase
      ensures name in entities ==> events == old(events) + [Event(entities[name].id, kind, now)] && phase == old(phase)
      ensures name !in entities ==> events == old(events) && phase == Crashed
    {
      if name in entities {
        events := events + [Event(entities[name].id, kind, now)];
      } else {
        phase := Crashed;
      }
    }
  }

  // ------------------------------------------------------------------- whole runs

  /** A run over a stream of changes; the k-th logged event is stamped with the k-th reading. */
  function Run(s: State, stream: seq<WatchData<PodObject>>, clock: nat -> int): State {
    if stream == [] then s
    else
      var t := Run(s, stream[..|stream| - 1], clock);
      Step(t, Data(stream[|stream| - 1]), clock(|t.events|))
  }

  lemma RunSnoc(s: State, stream: seq<WatchData<PodObject>>, d: WatchData<PodObject>, clock: nat -> int)
    ensures var t := Run(s, stream, clock);
            Run(s, stream + [d], clock) == Step(t, Data(d), clock(|t.events|))
  {
    assert (stream + [d])[..|stream|] == stream;
  }

  lemma {:induction false} RunAppend(s: State, xs: seq<WatchData<PodObject>>, ys: seq<WatchData<PodObject>>, clock: nat -> int)
    ensures Run(s, xs + ys, clock) == Run(Run(s, xs, clock), ys, clock)
  {
    if ys == [] {
      assert xs + ys == xs;
    } else {
      RunAppend(s, xs, ys[..|ys| - 1], clock);
      assert (xs + ys)[..|xs + ys| - 1] == xs + ys[..|ys| - 1];
    }
  }

  /** The names a stream announces. */
  function AddedNames(stream: seq<WatchData<PodObject>>): set<string> {
    if stream == [] then {}
    else
      var d := stream[|stream| - 1];
      AddedNames(stream[..|stream| - 1]) + if d.Change? && d.kind == Added then {d.obj.name} else {}
  }

  /** A change that has something to log for a name outside known. */
  predicate Orphan(known: set<string>, d: WatchData<PodObject>) {
    && d.Change?
    && (d.kind == Deleted || (d.kind == Modified && (d.obj.ready || d.obj.terminating)))
    && d.obj.name !in known
  }

  predicate HasOrphan(stream: seq<WatchData<PodObject>>) {
    stream != [] &&
    var front := stream[..|stream| - 1];
    HasOrphan(front) || Orphan(AddedNames(front), stream[|stream| - 1])
  }

  predicate SetsKnown(s: State) {
    s.ready <= s.entities.Keys && s.terminating <= s.entities.Keys
  }

  lemma StepCrashesOnOrphan(s: State, d: WatchData<PodObject>, now: int)
    requires s.phase == Looping && SetsKnown(s)
    ensures var t := Step(s, Data(d), now);
            && t.phase == (if Orphan(s.entities.Keys, d) then Crashed else Looping)
            && (t.phase == Looping ==>
                  SetsKnown(t) && t.entities.Keys == s.entities.Keys + AddedNames([d]))
  {
    assert [d][..0] == [];
  }

  lemma CrashedStays(s: State, d: WatchData<PodObject>, now: int)
    requires s.phase == Crashed
    ensures Step(s, Data(d), now) == s
  {
  }

  /** The observer dereferences nil exactly on streams that log something for a pod before
      its Added arrived; the entity map otherwise knows exactly the announced names. */
  lemma {:induction false} CrashesExactlyOnOrphans(tcId: int, db: Db, stream: seq<WatchData<PodObject>>, clock: nat -> int)
    ensures var s := Run(Init(tcId, db), stream, clock);
            && s.phase == (if HasOrphan(stream) then Crashed else Looping)
            && (s.phase == Looping ==> SetsKnown(s) && s.entities.Keys == AddedNames(stream))
  {
    if stream == [] {
    } else {
      var front, d := stream[..|stream| - 1], stream[|stream| - 1];
      CrashesExactlyOnOrphans(tcId, db, front, clock);
      var s := Run(Init(tcId, db), front, clock);
      if s.phase == Looping {
        StepCrashesOnOrphan(s, d, clock(|s.events|));
        assert [d][..0] == [];
      } else {
        CrashedStays(s, d, clock(|s.events|));
      }
    }
  }

  // ------------------------------------------------------------- what a run records

  function ReadyBy(d: WatchData<PodObject>): set<string> {
    if d.Change? && d.kind == Modified && d.obj.ready then {d.obj.name} else {}
  }

  /** A report that makes a pod ready is not looked at for termination. */
  function TerminatingBy(ready: set<string>, d: WatchData<PodObject>): set<string> {
    if d.Change? && d.kind == Modified && d.obj.terminating && ReadyBy(d) <= ready then {d.obj.name} else {}
  }

  function ReadyNames(stream: seq<WatchData<PodObject>>): set<string> {
    if stream == [] then {} else ReadyNames(stream[..|stream| - 1]) + ReadyBy(stream[|stream| - 1])
  }

  function TerminatingNames(stream: seq<WatchData<PodObject>>): set<string> {
    if stream == [] then {}
    else
      var front := stream[..|stream| - 1];
      TerminatingNames(front) + TerminatingBy(ReadyNames(front), stream[|stream| - 1])
  }

  /** One event more, and one element more in at most one of the two sets. */
  predicate Grown(s: State, t: State, kind: EventType) {
    && |t.events| == |s.events| + 1 && t.events == s.events + [t.events[|s.events|]] && t.events[|s.events|].kind == kind
    && |t.ready| == |s.ready| + (if kind == PodReady then 1 else 0)
    && |t.terminating| == |s.terminating| + (if kind == PodTerminating then 1 else 0)
  }

  /** The log holds as many events of a kind as happened. */
  predicate Tallied(s: State, added: nat, deleted: nat) {
    && KindCount(s.events, PodAdded) == added && KindCount(s.events, PodReady) == |s.ready|
    && KindCount(s.events, PodTerminating) == |s.terminating| && KindCount(s.events, PodDeleted) == deleted
  }

  lemma GrownTallied(s: State, t: State, kind: EventType, added: nat, deleted: nat)
    requires Tallied(s, added, deleted) && Grown(s, t, kind)
    ensures Tallied(t, added + (if kind == PodAdded then 1 else 0), deleted + (if kind == PodDeleted then 1 else 0))
  {
    var e := t.events[|s.events|];
    KindCountSnoc(s.events, e, PodAdded);
    KindCountSnoc(s.events, e, PodReady);
    KindCountSnoc(s.events, e, PodTerminating);
    KindCountSnoc(s.events, e, PodDeleted);
  }

  lemma StepSets(s: State, d: WatchData<PodObject>, now: int)
    requires s.phase == Looping && SetsKnown(s) && !Orphan(s.entities.Keys, d)
    ensures var t := Step(s, Data(d), now);
            t.ready == s.ready + ReadyBy(d) && t.terminating == s.terminating + TerminatingBy(s.ready, d)
  {
  }

  lemma ModifiedGrows(s: State, pod: PodObject, now: int)
    requires s.phase == Looping && pod.name in s.entities
    ensures var t := OnChange(s, Modified, pod, now);
            t.events == s.events || Grown(s, t, t.events[|s.events|].kind)
  {
  }

  lemma PlainGrows(s: State, pod: PodObject, now: int)
    requires s.phase == Looping
    ensures Grown(s, OnChange(s, Added, pod, now), PodAdded)
    ensures pod.name in s.entities ==> Grown(s, OnChange(s, Deleted, pod, now), PodDeleted)
  {
  }

  lemma UnknownModified(s: State, pod: PodObject, now: int)
    requires s.phase == Looping && SetsKnown(s) && pod.name !in s.entities && !Orphan(s.entities.Keys, Change(Modified, pod))
    ensures OnChange(s, Modified, pod, now) == s
  {
  }

  /** What one change adds to the sets and the log. */
  lemma StepTallies(s: State, d: WatchData<PodObject>, now: int, added: nat, deleted: nat)
    requires s.phase == Looping && SetsKnown(s) && !Orphan(s.entities.Keys, d) && Tallied(s, added, deleted)
    ensures Tallied(Step(s, Data(d), now), added + (if d.Change? && d.kind == Added then 1 else 0),
                    deleted + (if d.Change? && d.kind == Deleted then 1 else 0))
  {
    if d.Change? {
      PlainGrows(s, d.obj, now);
      match d.kind
      case Added => GrownTallied(s, OnChange(s, Added, d.obj, now), PodAdded, added, deleted);
      case Modified => ModifiedTallies(s, d.obj, now, added, deleted);
      case Deleted => GrownTallied(s, OnChange(s, Deleted, d.obj, now), PodDeleted, added, deleted);
      case Other =>
    }
  }

  lemma ModifiedTallies(s: State, pod: PodObject, now: int, added: nat, deleted: nat)
    requires s.phase == Looping && SetsKnown(s) && !Orphan(s.entities.Keys, Change(Modified, pod)) && Tallied(s, added, deleted)
    ensures Tallied(OnChange(s, Modified, pod, now), added, deleted)
  {
    if pod.name !in s.entities {
      UnknownModified(s, pod, now);
    } else {
      var t := OnChange(s, Modified, pod, now);
      ModifiedGrows(s, pod, now);
      ModifiedKinds(s, pod, now);
      if t.events == s.events { assert t == s; } else { GrownTallied(s, t, t.events[|s.events|].kind, added, deleted); }
    }
  }

  lemma ModifiedKinds(s: State, pod: PodObject, now: int)
    requires s.phase == Looping && pod.name in s.entities
    ensures var t := OnChange(s, Modified, pod, now);
            t == s || (|t.events| > |s.events| && t.events[|s.events|].kind != PodAdded && t.events[|s.events|].kind != PodDeleted)
  {
  }

  function UidBy(d: WatchData<PodObject>): map<string, string> {
    if d.Change? && d.kind == Added then map[d.obj.name := d.obj.uid] else map[]
  }

  /** Per announced name the UID announced last. */
  function LastUids(stream: seq<WatchData<PodObject>>): map<string, string> {
    if stream == [] then map[] else LastUids(stream[..|stream| - 1]) + UidBy(stream[|stream| - 1])
  }

  /** Under each name there is a pod of this test case with that name and UID. */
  predicate Filed(entities: map<string, Entity>, tcId: int, uids: map<string, string>) {
    && entities.Keys == uids.Keys
    && forall n :: n in entities ==>
         entities[n].name == n && entities[n].uid == uids[n] && entities[n].tcId == tcId && entities[n].kind == EntityType.Pod
  }

  lemma StepKeepsTcId(s: State, d: WatchData<PodObject>, now: int)
    ensures Step(s, Data(d), now).tcId == s.tcId
  {
  }

  lemma OnlyAddedFiles(s: State, d: WatchData<PodObject>, now: int)
    requires s.phase == Looping && !(d.Change? && d.kind == Added)
    ensures var t := Step(s, Data(d), now); t.entities == s.entities && t.db == s.db
  {
  }

  lemma StepFiles(s: State, d: WatchData<PodObject>, now: int, uids: map<string, string>)
    requires s.phase == Looping && Filed(s.entities, s.tcId, uids)
    ensures var t := Step(s, Data(d), now);
            t.tcId == s.tcId && Filed(t.entities, t.tcId, uids + UidBy(d))
  {
    StepKeepsTcId(s, d, now);
    if !(d.Change? && d.kind == Added) {
      OnlyAddedFiles(s, d, now);
      assert uids + map[] == uids;
    } else {
      assert uids + UidBy(d) == uids[d.obj.name := d.obj.uid];
    }
  }

  /** A run that does not crash has recorded exactly the pods reported ready and those reported
      terminating, and logged every Added and Deleted change and every recorded pod once. */
  lemma {:induction false} RecordsReports(tcId: int, db: Db, stream: seq<WatchData<PodObject>>, clock: nat -> int)
    requires !HasOrphan(stream)
    ensures var s := Run(Init(tcId, db), stream, clock);
            && s.ready == ReadyNames(stream) && s.terminating == TerminatingNames(stream)
            && Tallied(s, Changes(stream, Added), Changes(stream, Deleted))
  {
    if stream == [] {
    } else {
      var front := stream[..|stream| - 1];
      RecordsReports(tcId, db, front, clock);
      CrashesExactlyOnOrphans(tcId, db, front, clock);
      var s := Run(Init(tcId, db), front, clock);
      StepSets(s, stream[|stream| - 1], clock(|s.events|));
      StepTallies(s, stream[|stream| - 1], clock(|s.events|), Changes(front, Added), Changes(front, Deleted));
    }
  }

  /** It has filed every announced pod under its name with its last UID. */
  lemma {:induction false} FilesAnnounced(tcId: int, db: Db, stream: seq<WatchData<PodObject>>, clock: nat -> int)
    requires !HasOrphan(stream)
    ensures var s := Run(Init(tcId, db), stream, clock);
            s.tcId == tcId && Filed(s.entities, tcId, LastUids(stream))
  {
    if stream == [] {
    } else {
      var front := stream[..|stream| - 1];
      FilesAnnounced(tcId, db, front, clock);
      CrashesExactlyOnOrphans(tcId, db, front, clock);
      var s := Run(Init(tcId, db), front, clock);
      StepFiles(s, stream[|stream| - 1], clock(|s.events|), LastUids(front));
    }
  }

  // ------------------------------------------------- the log, from the stream alone

  function UidsBy(d: WatchData<PodObject>): set<string> {
    if d.Change? && d.kind == Added then {d.obj.uid} else {}
  }

  function AnnouncedUids(stream: seq<WatchData<PodObject>>): set<string> {
    if stream == [] then {} else AnnouncedUids(stream[..|stream| - 1]) + UidsBy(stream[|stream| - 1])
  }

  /** The announced pods that get a row: those whose UID had none. */
  function NewRows(db: Db, stream: seq<WatchData<PodObject>>): nat {
    if stream == [] then 0
    else
      var front, d := stream[..|stream| - 1], stream[|stream| - 1];
      NewRows(db, front) + if UidsBy(d) != {} && IsNew(db, AnnouncedUids(front), d.obj.uid) then 1 else 0
  }

  /** Per announced name the id given to the one announced last; 0 if its UID had a row. */
  function HeldIds(db: Db, stream: seq<WatchData<PodObject>>): map<string, int> {
    if stream == [] then map[]
    else
      var front, d := stream[..|stream| - 1], stream[|stream| - 1];
      if UidsBy(d) == {} then HeldIds(db, front)
      else if IsNew(db, AnnouncedUids(front), d.obj.uid) then HeldIds(db, front)[d.obj.name := |db.entities| + NewRows(db, stream)]
      else HeldIds(db, front)[d.obj.name := 0]
  }

  /** The change, with the ids held behind it, is one to be logged under the kind and the id. */
  predicate Reports(ids: map<string, int>, ready: set<string>, terminating: set<string>, d: WatchData<PodObject>,
                    kind: EventType, id: int) {
    && d.Change? && d.obj.name in ids && ids[d.obj.name] == id
    && match kind
       case PodAdded => d.kind == Added
       case PodReady => ReadyBy(d) - ready != {}
       case PodTerminating => TerminatingBy(ready, d) - terminating != {}
       case PodDeleted => d.kind == Deleted
       case _ => false
  }

  function Reported(db: Db, stream: seq<WatchData<PodObject>>, kind: EventType, id: int): nat {
    if stream == [] then 0
    else
      var front := stream[..|stream| - 1];
      Reported(db, front, kind, id)
      + if Reports(HeldIds(db, stream), ReadyNames(front), TerminatingNames(front), stream[|stream| - 1], kind, id) then 1 else 0
  }

  predicate Holds(entities: map<string, Entity>, ids: map<string, int>) {
    entities.Keys == ids.Keys && forall n :: n in entities ==> entities[n].id == ids[n]
  }

  lemma AddedFiles(s: State, pod: PodObject, now: int, db: Db, uids: set<string>, rows: nat, ids: map<string, int>)
    requires s.phase == Looping && GrownBy(db, uids, rows, s.db) && Holds(s.entities, ids)
    ensures var t := Step(s, Data(Change(Added, pod)), now);
            if IsNew(db, uids, pod.uid) then
              GrownBy(db, uids + {pod.uid}, rows + 1, t.db) && Holds(t.entities, ids[pod.name := |db.entities| + rows + 1])
            else
              GrownBy(db, uids + {pod.uid}, rows, t.db) && Holds(t.entities, ids[pod.name := 0])
  {
    InsertGrows(db, uids, rows, s.db, Entity(0, pod.name, pod.uid, s.tcId, EntityType.Pod));
  }

  lemma NewlyReported(ready: set<string>, terminating: set<string>, d: WatchData<PodObject>)
    requires d.Change?
    ensures ReadyBy(d) - ready != {} <==> d.kind == Modified && d.obj.ready && d.obj.name !in ready
    ensures TerminatingBy(ready, d) - terminating != {}
       <==> d.kind == Modified && d.obj.terminating && d.obj.name !in terminating && (d.obj.ready ==> d.obj.name in ready)
  {
    if d.obj.name !in ready && ReadyBy(d) != {} { assert d.obj.name in ReadyBy(d) - ready; }
    if d.obj.name !in terminating && TerminatingBy(ready, d) != {} { assert d.obj.name in TerminatingBy(ready, d) - terminating; }
  }

  lemma ModifiedLogs(s: State, pod: PodObject, now: int, ids: map<string, int>, kind: EventType, id: int)
    requires s.phase == Looping && pod.name in s.entities && Holds(s.entities, ids)
    ensures Count(OnChange(s, Modified, pod, now).events, kind, id)
         == Count(s.events, kind, id)
            + if Reports(ids, s.ready, s.terminating, Change(Modified, pod), kind, id) then 1 else 0
  {
    NewlyReported(s.ready, s.terminating, Change(Modified, pod));
    var t := OnChange(s, Modified, pod, now);
    if t.events != s.events { CountSnoc(s.events, t.events[|s.events|], kind, id); }
  }

  lemma AddedLogs(s: State, pod: PodObject, now: int, ids: map<string, int>, kind: EventType, id: int)
    requires s.phase == Looping && Holds(OnChange(s, Added, pod, now).entities, ids)
    ensures Count(OnChange(s, Added, pod, now).events, kind, id)
         == Count(s.events, kind, id) + if Reports(ids, s.ready, s.terminating, Change(Added, pod), kind, id) then 1 else 0
  {
    NewlyReported(s.ready, s.terminating, Change(Added, pod));
    CountSnoc(s.events, Event(ids[pod.name], PodAdded, now), kind, id);
  }

  lemma DeletedLogs(s: State, pod: PodObject, now: int, ids: map<string, int>, kind: EventType, id: int)
    requires s.phase == Looping && pod.name in s.entities && Holds(s.entities, ids)
    ensures Count(OnChange(s, Deleted, pod, now).events, kind, id)
         == Count(s.events, kind, id) + if Reports(ids, s.ready, s.terminating, Change(Deleted, pod), kind, id) then 1 else 0
  {
    NewlyReported(s.ready, s.terminating, Change(Deleted, pod));
    CountSnoc(s.events, Event(ids[pod.name], PodDeleted, now), kind, id);
  }

  /** What one change adds to the log, given the ids held behind it. */
  lemma StepLogs(s: State, d: WatchData<PodObject>, now: int, ids: map<string, int>, kind: EventType, id: int)
    requires s.phase == Looping && SetsKnown(s) && !Orphan(s.entities.Keys, d)
    requires Holds(Step(s, Data(d), now).entities, ids)
    ensures Count(Step(s, Data(d), now).events, kind, id)
         == Count(s.events, kind, id) + if Reports(ids, s.ready, s.terminating, d, kind, id) then 1 else 0
  {
    if d.Change? {
      match d.kind
      case Added => AddedLogs(s, d.obj, now, ids, kind, id);
      case Modified =>
        if d.obj.name in s.entities { ModifiedLogs(s, d.obj, now, ids, kind, id); } else { UnknownModified(s, d.obj, now); }
      case Deleted => DeletedLogs(s, d.obj, now, ids, kind, id);
      case Other => NewlyReported(s.ready, s.terminating, d);
    }
  }

  /** A run that does not crash has stored one row for every new UID and no event, and it holds the
      ids told by the stream. */
  lemma {:induction false} RowsTellStream(tcId: int, db: Db, stream: seq<WatchData<PodObject>>, clock: nat -> int)
    requires !HasOrphan(stream)
    ensures var s := Run(Init(tcId, db), stream, clock);
            Holds(s.entities, HeldIds(db, stream)) && GrownBy(db, AnnouncedUids(stream), NewRows(db, stream), s.db)
  {
    if stream == [] {
    } else {
      var front, d := stream[..|stream| - 1], stream[|stream| - 1];
      RowsTellStream(tcId, db, front, clock);
      CrashesExactlyOnOrphans(tcId, db, front, clock);
      var s := Run(Init(tcId, db), front, clock);
      if UidsBy(d) == {} {
        OnlyAddedFiles(s, d, clock(|s.events|));
        assert AnnouncedUids(stream) == AnnouncedUids(front);
      } else {
        AddedFiles(s, d.obj, clock(|s.events|), db, AnnouncedUids(front), NewRows(db, front), HeldIds(db, front));
      }
    }
  }

  /** Of each kind and each id it has logged as many events as the stream reports: every event goes under
      the id of the pod last announced under the name. */
  lemma {:induction false} LogTellsStream(tcId: int, db: Db, stream: seq<WatchData<PodObject>>, clock: nat -> int,
                                          kind: EventType, id: int)
    requires !HasOrphan(stream)
    ensures Count(Run(Init(tcId, db), stream, clock).events, kind, id) == Reported(db, stream, kind, id)
  {
    if stream == [] {
    } else {
      var front, d := stream[..|stream| - 1], stream[|stream| - 1];
      LogTellsStream(tcId, db, front, clock, kind, id);
      CrashesExactlyOnOrphans(tcId, db, front, clock);
      RecordsReports(tcId, db, front, clock);
      RowsTellStream(tcId, db, stream, clock);
      var s := Run(Init(tcId, db), front, clock);
      StepLogs(s, d, clock(|s.events|), HeldIds(db, stream), kind, id);
    }
  }

  /** Every event carries the time of its logging. */
  lemma {:induction false} LogIsClocked(tcId: int, db: Db, stream: seq<WatchData<PodObject>>, clock: nat -> int)
    ensures Clocked(Run(Init(tcId, db), stream, clock).events, clock)
  {
    if stream == [] {
    } else {
      LogIsClocked(tcId, db, stream[..|stream| - 1], clock);
      StepClocked(Run(Init(tcId, db), stream[..|stream| - 1], clock), stream[|stream| - 1], clock);
    }
  }

  lemma StepClocked(s: State, d: WatchData<PodObject>, clock: nat -> int)
    requires Clocked(s.events, clock)
    ensures Clocked(Step(s, Data(d), clock(|s.events|)).events, clock)
  {
  }
}
