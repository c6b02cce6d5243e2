/** The six concrete observers under Start and Stop: every run of theirs is a run of the protocol, so
    that its theorems speak of their real logs (pkg/observer). */
module RunnerObservers {
  import opened Store
  import O = Observer
  import PodW = PodWatch
  import PvcW = PvcWatch
  import VaW = VaWatch
  import PodP = PodPoll
  import PvcP = PvcPoll
  import VaP = VaPoll
  import R = RunnerProtocol

  /** An observer with its fields. */
  datatype Concrete =
    | PodWatcher(podW: PodW.State)
    | PvcWatcher(pvcW: PvcW.State)
    | VaWatcher(vaW: VaW.State)
    | PodPoller(podP: PodP.ListState)
    | PvcPoller(pvcP: PvcP.ListState)
    | VaPoller(vaP: VaP.State)

  function PhaseOf(r: Concrete): O.Phase {
    match r
    case PodWatcher(s) => s.phase
    case PvcWatcher(s) => s.phase
    case VaWatcher(s) => s.phase
    case PodPoller(s) => s.phase
    case PvcPoller(s) => s.phase
    case VaPoller(s) => s.phase
  }

  function LogOf(r: Concrete): seq<Event> {
    match r
    case PodWatcher(s) => s.events
    case PvcWatcher(s) => s.events
    case VaWatcher(s) => s.events
    case PodPoller(s) => s.events
    case PvcPoller(s) => s.events
    case VaPoller(s) => s.events
  }

  function SavedOf(r: Concrete): seq<seq<Event>> {
    match r
    case PodWatcher(s) => s.saved
    case PvcWatcher(s) => s.saved
    case VaWatcher(s) => s.saved
    case PodPoller(s) => s.saved
    case PvcPoller(s) => s.saved
    case VaPoller(s) => s.saved
  }

  predicate Polls(r: Concrete) {
    r.PodPoller? || r.PvcPoller? || r.VaPoller?
  }

  /** One turn of a loop, with what it finds in the database and PvcShare. */
  datatype Turn =
    | PodTurn(db: Db, podInput: O.Input<PodW.PodObject>, now: int)
    | PvcTurn(db: Db, share: map<string, Entity>, pvcInput: O.Input<PvcW.PvcObject>, now: int)
    | VaTurn(share: map<string, Entity>, clean: bool, vaInput: O.Input<VaW.VaObject>, now: int)
    | PodPolled(db: Db, finish: bool, pods: O.Option<O.Poll<PodW.PodObject>>, clock: nat -> int)
    | PvcPolled(db: Db, share: map<string, Entity>, finish: bool, pvcs: O.Option<O.Poll<PvcW.PvcObject>>, clock: nat -> int)
    | VaPolled(clean: bool, turn: VaP.Turn, clock: nat -> int)

  predicate Fits(r: Concrete, turn: Turn) {
    match r
    case PodWatcher(_) => turn.PodTurn?
    case PvcWatcher(_) => turn.PvcTurn?
    case VaWatcher(_) => turn.VaTurn?
    case PodPoller(_) => turn.PodPolled?
    case PvcPoller(_) => turn.PvcPolled?
    case VaPoller(_) => turn.VaPolled?
  }

  /** The turn receives the finish signal. */
  predicate Signals(turn: Turn) {
    match turn
    case PodTurn(_, input, _) => input.Finish?
    case PvcTurn(_, _, input, _) => input.Finish?
    case VaTurn(_, _, input, _) => input.Finish?
    case PodPolled(_, finish, _, _) => finish
    case PvcPolled(_, _, finish, _, _) => finish
    case VaPolled(_, t, _) => t.finish
  }

  function Acted(r: Concrete, turn: Turn): Concrete
    requires Fits(r, turn)
  {
    match r
    case PodWatcher(s) => PodWatcher(PodW.Step(s.(db := turn.db), turn.podInput, turn.now))
    case PvcWatcher(s) => PvcWatcher(PvcW.Step(s.(db := turn.db, share := turn.share), turn.pvcInput, turn.now))
    case VaWatcher(s) => VaWatcher(VaW.Step(s, turn.share, turn.clean, turn.vaInput, turn.now))
    case PodPoller(s) =>
      var s := s.(db := turn.db);
      PodPoller(if turn.finish then PodP.ListFinish(s)
                else if turn.pods == O.None then s.(phase := O.Phase.Returned)
                else PodP.OnPoll(s, turn.pods.value, turn.clock))
    case PvcPoller(s) =>
      var s := s.(db := turn.db, share := turn.share);
      PvcPoller(if turn.finish then PvcP.ListFinish(s)
                else if turn.pvcs == O.None then s.(phase := O.Phase.Returned)
                else PvcP.OnPoll(s, turn.pvcs.value, turn.clock))
    case VaPoller(s) => VaPoller(VaP.Step(s, turn.clean, turn.turn, turn.clock))
  }

  // --------------------------------------------------------------------- the system

  datatype Place = NotSpawned | Spawned | Inside | Leaving | Gone

  datatype Goroutine = Goroutine(at: Place, own: Concrete, received: bool, gaveUp: bool)

  /** The database and PvcShare are common to all. */
  datatype Sys = Sys(main: R.Main, gs: seq<Goroutine>, waitGroup: int, db: Db, share: map<string, Entity>)

  datatype Move =
    | OfMain(m: R.Move)
    | EnterLoop(i: nat)
    | EarlyReturn(i: nat)
    | Act(i: nat, turn: Turn)
    | Done(i: nat)
    | OthersStore(entities: seq<Entity>, events: seq<Event>)
    | OthersShare(share: map<string, Entity>)

  /** The turn finds what is there. */
  predicate Finds(turn: Turn, db: Db, share: map<string, Entity>) {
    match turn
    case PodTurn(d, _, _) => d == db
    case PvcTurn(d, sh, _, _) => d == db && sh == share
    case VaTurn(sh, _, _, _) => sh == share
    case PodPolled(d, _, _, _) => d == db
    case PvcPolled(d, sh, _, _, _) => d == db && sh == share
    case VaPolled(_, t, _) => t.share == share
  }

  /** What a turn from r to t leaves in the database: a VA observer writes when it saves its log. */
  function DbAfter(db: Db, r: Concrete, t: Concrete): Db {
    match t
    case PodWatcher(s) => s.db
    case PvcWatcher(s) => s.db
    case PodPoller(s) => s.db
    case PvcPoller(s) => s.db
    case _ => if SavedOf(t) == SavedOf(r) then db else InsertEvents(db, LogOf(t))
  }

  function ShareAfter(share: map<string, Entity>, t: Concrete): map<string, Entity> {
    match t
    case PvcWatcher(s) => s.share
    case PvcPoller(s) => s.share
    case _ => share
  }

  predicate MovesMain(m: R.Move) {
    m.WaitGroupAdd? || m.Spawn? || m.StartReturns? || m.CallStop? || m.AllSent? || m.WaitReturns? || m.Timeout?
    || m.ListFails? || m.NoMismatch? || m.Mismatch?
  }

  /** A signal is a rendezvous with Stop; a turn that crashes ends the process, and no run goes on. */
  predicate Enabled(s: Sys, m: Move) {
    match m
    case OfMain(m) => MovesMain(m) && R.Enabled(AbsSys(s), m)
    case EnterLoop(i) => i < |s.gs| && s.gs[i].at == Spawned
    case EarlyReturn(i) => i < |s.gs| && s.gs[i].at == Spawned
    case Act(i, turn) =>
      && i < |s.gs| && s.gs[i].at == Inside && Fits(s.gs[i].own, turn) && Finds(turn, s.db, s.share)
      && PhaseOf(Acted(s.gs[i].own, turn)) != O.Phase.Crashed
      && (Signals(turn) ==> s.main == R.Stopping(i))
    case Done(i) => i < |s.gs| && s.gs[i].at == Leaving
    case OthersStore(_, _) => true
    case OthersShare(_) => true
  }

  function AfterAct(g: Goroutine, turn: Turn): Goroutine
    requires Fits(g.own, turn)
  {
    var r := Acted(g.own, turn);
    var returned := PhaseOf(r) == O.Phase.Returned;
    Goroutine(if returned then Leaving else Inside, r, g.received || Signals(turn), returned && SavedOf(r) == SavedOf(g.own))
  }

  function Next(s: Sys, m: Move): Sys
    requires Enabled(s, m)
  {
    match m
    case OfMain(m) =>
      s.(main := R.Next(AbsSys(s), m).main, waitGroup := R.Next(AbsSys(s), m).waitGroup,
         gs := if m.Spawn? then s.gs[s.main.k := s.gs[s.main.k].(at := Spawned)] else s.gs)
    case EnterLoop(i) => s.(gs := s.gs[i := s.gs[i].(at := Inside)])
    case EarlyReturn(i) => s.(gs := s.gs[i := s.gs[i].(at := Leaving)])
    case Act(i, turn) =>
      var h := AfterAct(s.gs[i], turn);
      s.(gs := s.gs[i := h], main := if Signals(turn) then R.Stopping(i + 1) else s.main,
         db := DbAfter(s.db, s.gs[i].own, h.own), share := ShareAfter(s.share, h.own))
    case Done(i) => s.(gs := s.gs[i := s.gs[i].(at := Gone)], waitGroup := s.waitGroup - 1)
    case OthersStore(entities, events) => s.(db := Db(s.db.entities + entities, s.db.events + events))
    case OthersShare(share) => s.(share := share)
  }

  function Run(s: Sys, moves: seq<Move>): Sys {
    if moves == [] then s
    else
      var t := Run(s, moves[..|moves| - 1]);
      if Enabled(t, moves[|moves| - 1]) then Next(t, moves[|moves| - 1]) else t
  }

  function Initial(gs: seq<Goroutine>, db: Db, share: map<string, Entity>): Sys {
    Sys(R.Starting(0, false), gs, 0, db, share)
  }

  predicate Fresh(gs: seq<Goroutine>) {
    forall i :: 0 <= i < |gs| ==>
      && gs[i].at == NotSpawned && !gs[i].received && !gs[i].gaveUp
      && PhaseOf(gs[i].own) == O.Phase.Looping && LogOf(gs[i].own) == [] && SavedOf(gs[i].own) == []
  }

  // ------------------------------------------------------------- what the protocol sees

  function Abs(g: Goroutine): R.Obs {
    var phase := match g.at
                 case NotSpawned => R.NotSpawned
                 case Spawned => R.Spawned
                 case Inside => if PhaseOf(g.own) == O.Phase.Draining then R.Draining else R.Looping
                 case Leaving => R.Leaving
                 case Gone => R.Gone;
    R.Obs(phase, LogOf(g.own), SavedOf(g.own), g.received, Polls(g.own), g.gaveUp)
  }

  function AbsAll(gs: seq<Goroutine>): (r: seq<R.Obs>)
    ensures |r| == |gs| && forall i :: 0 <= i < |gs| ==> r[i] == Abs(gs[i])
  {
    if gs == [] then [] else AbsAll(gs[..|gs| - 1]) + [Abs(gs[|gs| - 1])]
  }

  function AbsSys(s: Sys): R.Sys {
    R.Sys(s.main, AbsAll(s.gs), s.waitGroup)
  }

  lemma AbsUpdate(gs: seq<Goroutine>, i: nat, g: Goroutine)
    requires i < |gs|
    ensures AbsAll(gs[i := g]) == AbsAll(gs)[i := Abs(g)]
  {
  }

  /** One goroutine replaced. */
  lemma AbsReplaced(s: Sys, i: nat, g: Goroutine, main: R.Main, waitGroup: int, db: Db, share: map<string, Entity>)
    requires i < |s.gs|
    ensures AbsSys(s).obs[i] == Abs(s.gs[i]) && |AbsSys(s).obs| == |s.gs|
    ensures AbsSys(Sys(main, s.gs[i := g], waitGroup, db, share))
         == AbsSys(s).(obs := AbsSys(s).obs[i := Abs(g)], main := main, waitGroup := waitGroup)
  {
    AbsUpdate(s.gs, i, g);
  }

  lemma AbsPlaces(g: Goroutine)
    ensures PhaseOf(g.own) == O.Phase.Looping ==> Abs(g.(at := Inside)) == Abs(g).(phase := R.Looping)
    ensures Abs(g.(at := Leaving)) == Abs(g).(phase := R.Leaving) && Abs(g.(at := Gone)) == Abs(g).(phase := R.Gone)
    ensures Abs(g.(at := Spawned)) == Abs(g).(phase := R.Spawned)
    ensures Abs(g).phase == R.Spawned <==> g.at == Spawned
    ensures Abs(g).phase == R.Leaving <==> g.at == Leaving
  {
  }

  /** A goroutine is in its loop only while its observer runs, and only VA observers drain. */
  predicate Placed(g: Goroutine) {
    && (g.at == NotSpawned || g.at == Spawned ==> PhaseOf(g.own) == O.Phase.Looping)
    && (g.at == Inside ==>
          PhaseOf(g.own) == O.Phase.Looping || (PhaseOf(g.own) == O.Phase.Draining && (g.own.VaWatcher? || g.own.VaPoller?)))
  }

  predicate Inv(s: Sys) {
    R.Inv(AbsSys(s)) && forall i :: 0 <= i < |s.gs| ==> Placed(s.gs[i])
  }

  /** In its loop a goroutine has received the signal exactly if it drains; Stop sends to it before. */
  lemma InsideIsConsistent(s: Sys, i: nat)
    requires Inv(s) && i < |s.gs| && s.gs[i].at == Inside
    ensures var g := s.gs[i];
            && (g.received <==> PhaseOf(g.own) == O.Phase.Draining) && !g.gaveUp && SavedOf(g.own) == []
            && (s.main == R.Stopping(i) ==> PhaseOf(g.own) == O.Phase.Looping)
  {
    assert R.Consistent(AbsSys(s).obs[i], R.WasSpawned(s.main, i), R.WasSent(s.main, i));
  }

  /** A turn without the signal: work, or giving up on a failed List. */
  lemma ActRefines(g: Goroutine, turn: Turn)
    requires Fits(g.own, turn) && g.at == Inside && Placed(g) && !Signals(turn)
    requires (g.received <==> PhaseOf(g.own) == O.Phase.Draining) && !g.gaveUp && SavedOf(g.own) == []
    requires PhaseOf(Acted(g.own, turn)) != O.Phase.Crashed
    ensures var h := AfterAct(g, turn);
            && Placed(h)
            && if h.gaveUp then Polls(g.own) && Abs(h) == Abs(g).(phase := R.Leaving, gaveUp := true)
               else R.Works(Abs(g), Abs(h))
  {
    match g.own
    case PodWatcher(s) => R.PodTurnIsProtocolTurn(s.(db := turn.db), turn.podInput, turn.now);
    case PvcWatcher(s) => R.PvcTurnIsProtocolTurn(s.(db := turn.db, share := turn.share), turn.pvcInput, turn.now);
    case VaWatcher(s) => R.VaTurnIsProtocolTurn(s, turn.share, turn.clean, turn.vaInput, turn.now);
    case PodPoller(s) =>
      if turn.pods.Some? { R.PodPollIsProtocolTurn(s.(db := turn.db), turn.pods.value, turn.clock); }
    case PvcPoller(s) =>
      if turn.pvcs.Some? { R.PvcPollIsProtocolTurn(s.(db := turn.db, share := turn.share), turn.pvcs.value, turn.clock); }
    case VaPoller(s) =>
      if turn.turn.list.Some? { R.VaPollIsProtocolTurn(s, turn.clean, turn.turn, turn.clock); }
  }

  /** A turn with the signal: receiving it, and for a polled VA observer that starts to drain then
      working or giving up. */
  lemma SignalRefines(g: Goroutine, turn: Turn)
    requires Fits(g.own, turn) && g.at == Inside && Signals(turn)
    requires PhaseOf(g.own) == O.Phase.Looping && !g.received && !g.gaveUp && SavedOf(g.own) == []
    requires PhaseOf(Acted(g.own, turn)) != O.Phase.Crashed
    ensures var h := AfterAct(g, turn);
            var draining := Abs(g).(phase := R.Draining, received := true);
            && Placed(h)
            && (R.Receives(Abs(g), Abs(h))
                || (R.Receives(Abs(g), draining)
                    && (R.Works(draining, Abs(h))
                        || (Polls(g.own) && Abs(h) == draining.(phase := R.Leaving, gaveUp := true)))))
  {
    match g.own
    case PodWatcher(s) => R.PodTurnIsProtocolTurn(s.(db := turn.db), turn.podInput, turn.now);
    case PvcWatcher(s) => R.PvcTurnIsProtocolTurn(s.(db := turn.db, share := turn.share), turn.pvcInput, turn.now);
    case VaWatcher(s) => R.VaTurnIsProtocolTurn(s, turn.share, turn.clean, turn.vaInput, turn.now);
    case PodPoller(s) =>
    case PvcPoller(s) =>
    case VaPoller(s) =>
      if turn.turn.list.Some? { R.VaPollIsProtocolTurn(s, turn.clean, turn.turn, turn.clock); }
  }

  // --------------------------------------------------------------------- refinement

  lemma OneMove(s: R.Sys, m: R.Move, t: R.Sys) returns (moves: seq<R.Move>)
    requires R.Enabled(s, m) && R.Next(s, m) == t
    ensures R.Run(s, moves) == t
  {
    moves := [] + [m];
    R.RunSnoc(s, [], m);
  }

  lemma TwoMoves(s: R.Sys, m: R.Move, t: R.Sys, n: R.Move, u: R.Sys) returns (moves: seq<R.Move>)
    requires R.Enabled(s, m) && R.Next(s, m) == t && R.Enabled(t, n) && R.Next(t, n) == u
    ensures R.Run(s, moves) == u
  {
    moves := [] + [m] + [n];
    R.RunSnoc(s, [], m);
    R.RunSnoc(s, [] + [m], n);
  }

  lemma MainMoveRefines(s: Sys, m: R.Move)
    requires Enabled(s, OfMain(m))
    ensures R.Enabled(AbsSys(s), m) && R.Next(AbsSys(s), m) == AbsSys(Next(s, OfMain(m)))
  {
    if m.Spawn? {
      AbsPlaces(s.gs[s.main.k]);
      AbsReplaced(s, s.main.k, s.gs[s.main.k].(at := Spawned), Next(s, OfMain(m)).main, s.waitGroup, s.db, s.share);
    }
  }

  lemma EnterLoopRefines(s: Sys, i: nat)
    requires Inv(s) && Enabled(s, EnterLoop(i))
    ensures R.Enabled(AbsSys(s), R.EnterLoop(i)) && R.Next(AbsSys(s), R.EnterLoop(i)) == AbsSys(Next(s, EnterLoop(i)))
  {
    assert Placed(s.gs[i]);
    AbsPlaces(s.gs[i]);
    AbsReplaced(s, i, s.gs[i].(at := Inside), s.main, s.waitGroup, s.db, s.share);
  }

  lemma EarlyReturnRefines(s: Sys, i: nat)
    requires Enabled(s, EarlyReturn(i))
    ensures R.Enabled(AbsSys(s), R.EarlyReturn(i)) && R.Next(AbsSys(s), R.EarlyReturn(i)) == AbsSys(Next(s, EarlyReturn(i)))
  {
    AbsPlaces(s.gs[i]);
    AbsReplaced(s, i, s.gs[i].(at := Leaving), s.main, s.waitGroup, s.db, s.share);
  }

  lemma DoneRefines(s: Sys, i: nat)
    requires Enabled(s, Done(i))
    ensures R.Enabled(AbsSys(s), R.Done(i)) && R.Next(AbsSys(s), R.Done(i)) == AbsSys(Next(s, Done(i)))
  {
    AbsPlaces(s.gs[i]);
    AbsReplaced(s, i, s.gs[i].(at := Gone), s.main, s.waitGroup - 1, s.db, s.share);
  }

  lemma ActMoveRefines(s: Sys, i: nat, turn: Turn) returns (m: R.Move)
    requires Inv(s) && Enabled(s, Act(i, turn)) && !Signals(turn)
    ensures R.Enabled(AbsSys(s), m) && R.Next(AbsSys(s), m) == AbsSys(Next(s, Act(i, turn)))
    ensures Placed(AfterAct(s.gs[i], turn))
  {
    var h := AfterAct(s.gs[i], turn);
    InsideIsConsistent(s, i);
    ActRefines(s.gs[i], turn);
    AbsReplaced(s, i, h, s.main, s.waitGroup, DbAfter(s.db, s.gs[i].own, h.own), ShareAfter(s.share, h.own));
    m := if h.gaveUp then R.GiveUp(i) else R.Work(i, Abs(h));
  }

  /** The signal at protocol level: it ends the turn, or the observer drains and then works or gives up. */
  lemma SendRefines(a: R.Sys, i: nat, o: R.Obs) returns (m: R.Move, mid: R.Sys, more: seq<R.Move>)
    requires a.main == R.Stopping(i) && i < |a.obs|
    requires var draining := a.obs[i].(phase := R.Draining, received := true);
             || R.Receives(a.obs[i], o)
             || (R.Receives(a.obs[i], draining)
                 && (R.Works(draining, o) || (draining.polled && o == draining.(phase := R.Leaving, gaveUp := true))))
    ensures R.Enabled(a, m) && R.Next(a, m) == mid
    ensures var t := a.(obs := a.obs[i := o], main := R.Stopping(i + 1));
            || (more == [] && mid == t)
            || (|more| == 1 && R.Enabled(mid, more[0]) && R.Next(mid, more[0]) == t)
  {
    var draining := a.obs[i].(phase := R.Draining, received := true);
    if R.Receives(a.obs[i], o) {
      m, more := R.Send(o), [];
    } else {
      m, more := R.Send(draining), [if R.Works(draining, o) then R.Work(i, o) else R.GiveUp(i)];
      assert a.obs[i := draining][i := o] == a.obs[i := o];
    }
    mid := R.Next(a, m);
  }

  function AfterSignal(s: Sys, i: nat, h: Goroutine): R.Sys
    requires i < |s.gs|
  {
    R.Sys(R.Stopping(i + 1), AbsAll(s.gs)[i := Abs(h)], s.waitGroup)
  }

  lemma SignalIsAbstract(s: Sys, i: nat, turn: Turn)
    requires Enabled(s, Act(i, turn)) && Signals(turn)
    ensures AbsSys(Next(s, Act(i, turn))) == AfterSignal(s, i, AfterAct(s.gs[i], turn))
  {
    AbsUpdate(s.gs, i, AfterAct(s.gs[i], turn));
  }

  /** One protocol move when the signal ends the turn, two when the turn goes on behind it. */
  lemma SignalMoveRefines(s: Sys, i: nat, turn: Turn) returns (m: R.Move, mid: R.Sys, more: seq<R.Move>)
    requires Inv(s) && Enabled(s, Act(i, turn)) && Signals(turn)
    ensures R.Enabled(AbsSys(s), m) && R.Next(AbsSys(s), m) == mid
    ensures Placed(AfterAct(s.gs[i], turn))
    ensures var t := AfterSignal(s, i, AfterAct(s.gs[i], turn));
            || (more == [] && mid == t)
            || (|more| == 1 && R.Enabled(mid, more[0]) && R.Next(mid, more[0]) == t)
  {
    InsideIsConsistent(s, i);
    SignalRefines(s.gs[i], turn);
    m, mid, more := SendRefines(AbsSys(s), i, Abs(AfterAct(s.gs[i], turn)));
  }

  lemma StaysPlaced(s: Sys, m: Move)
    requires Inv(s) && Enabled(s, m)
    requires m.Act? ==> Placed(AfterAct(s.gs[m.i], m.turn))
    ensures forall i :: 0 <= i < |s.gs| ==> Placed(Next(s, m).gs[i])
  {
    if m.OfMain? && m.m.Spawn? { SpawnIsPlaced(s); }
  }

  lemma SpawnIsPlaced(s: Sys)
    requires Inv(s) && R.Enabled(AbsSys(s), R.Spawn)
    ensures Placed(s.gs[s.main.k].(at := Spawned))
  {
    var k := s.main.k;
    assert R.Consistent(AbsSys(s).obs[k], R.WasSpawned(s.main, k), R.WasSent(s.main, k));
    assert Placed(s.gs[k]);
  }

  /** Every move of the concrete system is one protocol move or two. */
  lemma MoveRefines(s: Sys, m: Move) returns (moves: seq<R.Move>)
    requires Inv(s) && Enabled(s, m)
    ensures R.Run(AbsSys(s), moves) == AbsSys(Next(s, m))
    ensures m.Act? ==> Placed(AfterAct(s.gs[m.i], m.turn))
  {
    var a, t := AbsSys(s), AbsSys(Next(s, m));
    match m {
      case OfMain(r) => MainMoveRefines(s, r); moves := OneMove(a, r, t);
      case EnterLoop(i) => EnterLoopRefines(s, i); moves := OneMove(a, R.EnterLoop(i), t);
      case EarlyReturn(i) => EarlyReturnRefines(s, i); moves := OneMove(a, R.EarlyReturn(i), t);
      case Done(i) => DoneRefines(s, i); moves := OneMove(a, R.Done(i), t);
      case Act(i, turn) =>
        if Signals(turn) {
          SignalIsAbstract(s, i, turn);
          var r, mid, more := SignalMoveRefines(s, i, turn);
          if more == [] { moves := OneMove(a, r, t); } else { moves := TwoMoves(a, r, mid, more[0], t); }
        } else {
          var r := ActMoveRefines(s, i, turn);
          moves := OneMove(a, r, t);
        }
      case OthersStore(_, _) => moves := [];
      case OthersShare(_) => moves := [];
    }
  }

  lemma KeepsInv(s: Sys, moves: seq<R.Move>, t: Sys)
    requires Inv(s) && R.Run(AbsSys(s), moves) == AbsSys(t) && forall i :: 0 <= i < |t.gs| ==> Placed(t.gs[i])
    ensures Inv(t)
  {
    R.RunKeepsInv(AbsSys(s), moves);
  }

  lemma MoveKeepsInv(s: Sys, m: Move) returns (moves: seq<R.Move>)
    requires Inv(s) && Enabled(s, m)
    ensures R.Run(AbsSys(s), moves) == AbsSys(Next(s, m)) && Inv(Next(s, m))
  {
    moves := MoveRefines(s, m);
    StaysPlaced(s, m);
    KeepsInv(s, moves, Next(s, m));
  }

  /** Every run of the six observers under Start and Stop is a run of the protocol. */
  lemma {:induction false} RunsRefine(gs: seq<Goroutine>, db: Db, share: map<string, Entity>, moves: seq<Move>) returns (protocol: seq<R.Move>)
    requires Fresh(gs)
    ensures R.Run(R.Initial(AbsAll(gs)), protocol) == AbsSys(Run(Initial(gs, db, share), moves)) && Inv(Run(Initial(gs, db, share), moves))
  {
    if moves == [] {
      protocol := [];
      R.WaitGroupCounts(AbsAll(gs), []);
    } else {
      var front, last := moves[..|moves| - 1], moves[|moves| - 1];
      protocol := RunsRefine(gs, db, share, front);
      var s := Run(Initial(gs, db, share), front);
      if Enabled(s, last) {
        var more := MoveKeepsInv(s, last);
        R.RunAppend(R.Initial(AbsAll(gs)), protocol, more);
        protocol := protocol + more;
      }
    }
  }

  // ------------------------------------------------------------- what the database holds

  /** How often the logs hold the event. */
  function SavedTimes(logs: seq<seq<Event>>, e: Event): nat {
    if logs == [] then 0 else SavedTimes(logs[..|logs| - 1], e) + O.Times(logs[|logs| - 1], e)
  }

  lemma SavedSnoc(logs: seq<seq<Event>>, log: seq<Event>, e: Event)
    ensures SavedTimes(logs + [log], e) == SavedTimes(logs, e) + O.Times(log, e)
  {
    assert (logs + [log])[..|logs|] == logs;
  }

  /** How often all observers have saved the event. */
  function AllSaved(gs: seq<Goroutine>, e: Event): nat {
    if gs == [] then 0 else AllSaved(gs[..|gs| - 1], e) + SavedTimes(SavedOf(gs[|gs| - 1].own), e)
  }

  lemma AllSavedSnoc(gs: seq<Goroutine>, g: Goroutine, e: Event)
    ensures AllSaved(gs + [g], e) == AllSaved(gs, e) + SavedTimes(SavedOf(g.own), e)
  {
    assert (gs + [g])[..|gs|] == gs;
  }

  lemma {:induction false} AllSavedUpdate(gs: seq<Goroutine>, i: nat, g: Goroutine, e: Event)
    requires i < |gs|
    ensures AllSaved(gs[i := g], e)
         == AllSaved(gs, e) - SavedTimes(SavedOf(gs[i].own), e) + SavedTimes(SavedOf(g.own), e)
  {
    var front := gs[..|gs| - 1];
    if i == |gs| - 1 {
      assert gs[i := g] == front + [g];
      AllSavedSnoc(front, g, e);
    } else {
      AllSavedUpdate(front, i, g, e);
      assert gs[i := g] == front[i := g] + [gs[|gs| - 1]];
      AllSavedSnoc(front[i := g], gs[|gs| - 1], e);
    }
  }

  lemma {:induction false} NothingSaved(gs: seq<Goroutine>, e: Event)
    requires Fresh(gs)
    ensures AllSaved(gs, e) == 0
  {
    if gs == [] {
    } else {
      NothingSaved(gs[..|gs| - 1], e);
    }
  }

  function OthersStored(moves: seq<Move>, e: Event): nat {
    if moves == [] then 0
    else
      var last := moves[|moves| - 1];
      OthersStored(moves[..|moves| - 1], e) + if last.OthersStore? then O.Times(last.events, e) else 0
  }

  /** A turn saves the whole log, which then stands behind what the database held, or leaves the stored
      events alone. No row of an entity is changed. */
  predicate Stores(db: Db, r: Concrete, t: Concrete) {
    var after := DbAfter(db, r, t);
    && db.entities <= after.entities
    && if SavedOf(t) == SavedOf(r) then after.events == db.events
       else SavedOf(t) == SavedOf(r) + [LogOf(t)] && after.events == db.events + LogOf(t)
  }

  lemma WatcherStores(r: Concrete, turn: Turn)
    requires Fits(r, turn) && PhaseOf(r) == O.Phase.Looping && (turn.PodTurn? || turn.PvcTurn?)
    ensures Stores(turn.db, r, Acted(r, turn))
  {
  }

  lemma VaStores(r: Concrete, turn: Turn, db: Db)
    requires r.VaWatcher? && turn.VaTurn? && VaW.Active(r.vaW)
    ensures Stores(db, r, Acted(r, turn))
  {
    VaW.StepTurns(r.vaW, turn.clean, VaW.Turn(turn.vaInput, turn.share, turn.now));
  }

  lemma PodPollStores(r: Concrete, turn: Turn)
    requires Fits(r, turn) && PhaseOf(r) == O.Phase.Looping && turn.PodPolled?
    ensures Stores(turn.db, r, Acted(r, turn))
  {
    if !turn.finish && turn.pods.Some? { PodP.PollOnlyLogs(r.podP.(db := turn.db), turn.pods.value, turn.clock); }
  }

  lemma PvcPollStores(r: Concrete, turn: Turn)
    requires Fits(r, turn) && PhaseOf(r) == O.Phase.Looping && turn.PvcPolled?
    ensures Stores(turn.db, r, Acted(r, turn))
  {
    if !turn.finish && turn.pvcs.Some? {
      PvcP.PollOnlyLogs(r.pvcP.(db := turn.db, share := turn.share), turn.pvcs.value, turn.clock);
    }
  }

  lemma VaPollStores(r: Concrete, turn: Turn, db: Db)
    requires r.VaPoller? && turn.VaPolled? && VaP.Active(r.vaP)
    ensures Stores(db, r, Acted(r, turn))
  {
    if turn.turn.list.Some? {
      VaP.ProcessOnlyLogs(r.vaP, turn.turn, turn.clock);
      VaP.ProcessOnlyLogs(r.vaP.(phase := O.Phase.Draining), turn.turn, turn.clock);
    }
  }

  lemma ActStores(g: Goroutine, turn: Turn, db: Db, share: map<string, Entity>)
    requires Fits(g.own, turn) && Finds(turn, db, share) && Placed(g) && g.at == Inside
    ensures Stores(db, g.own, Acted(g.own, turn))
  {
    match g.own
    case PodWatcher(_) => WatcherStores(g.own, turn);
    case PvcWatcher(_) => WatcherStores(g.own, turn);
    case VaWatcher(_) => VaStores(g.own, turn, db);
    case PodPoller(_) => PodPollStores(g.own, turn);
    case PvcPoller(_) => PvcPollStores(g.own, turn);
    case VaPoller(_) => VaPollStores(g.own, turn, db);
  }

  lemma StoredOnce(db: Db, r: Concrete, t: Concrete, e: Event)
    requires Stores(db, r, t)
    ensures O.Times(DbAfter(db, r, t).events, e) - O.Times(db.events, e)
         == SavedTimes(SavedOf(t), e) - SavedTimes(SavedOf(r), e)
  {
    if SavedOf(t) != SavedOf(r) {
      SavedSnoc(SavedOf(r), LogOf(t), e);
      O.TimesAppend(db.events, LogOf(t), e);
    }
  }

  lemma MoveStores(s: Sys, m: Move, e: Event)
    requires Inv(s) && Enabled(s, m)
    ensures s.db.entities <= Next(s, m).db.entities
    ensures O.Times(Next(s, m).db.events, e) - O.Times(s.db.events, e)
         == AllSaved(Next(s, m).gs, e) - AllSaved(s.gs, e) + if m.OthersStore? then O.Times(m.events, e) else 0
  {
    match m
    case OfMain(r) =>
      if r.Spawn? { AllSavedUpdate(s.gs, s.main.k, s.gs[s.main.k].(at := Spawned), e); }
    case EnterLoop(i) => AllSavedUpdate(s.gs, i, s.gs[i].(at := Inside), e);
    case EarlyReturn(i) => AllSavedUpdate(s.gs, i, s.gs[i].(at := Leaving), e);
    case Act(i, turn) =>
      var h := AfterAct(s.gs[i], turn);
      ActStores(s.gs[i], turn, s.db, s.share);
      StoredOnce(s.db, s.gs[i].own, h.own, e);
      AllSavedUpdate(s.gs, i, h, e);
    case Done(i) => AllSavedUpdate(s.gs, i, s.gs[i].(at := Gone), e);
    case OthersStore(_, events) => O.TimesAppend(s.db.events, events, e);
    case OthersShare(_) =>
  }

  /** In every run, the database holds each event as often as it did at first, as the observers have saved
      it and as others have stored it; and no row of an entity is ever changed. */
  lemma {:induction false} DatabaseHoldsLogs(gs: seq<Goroutine>, db: Db, share: map<string, Entity>, moves: seq<Move>, e: Event)
    requires Fresh(gs)
    ensures var s := Run(Initial(gs, db, share), moves);
            && O.Times(s.db.events, e) == O.Times(db.events, e) + AllSaved(s.gs, e) + OthersStored(moves, e)
            && db.entities <= s.db.entities
  {
    if moves == [] {
      NothingSaved(gs, e);
    } else {
      var front, last := moves[..|moves| - 1], moves[|moves| - 1];
      DatabaseHoldsLogs(gs, db, share, front, e);
      var s := Run(Initial(gs, db, share), front);
      if Enabled(s, last) {
        var protocol := RunsRefine(gs, db, share, front);
        MoveStores(s, last, e);
      }
    }
  }

  /** So whenever Stop has returned, in any interleaving of any observers, each of them has received its
      signal and passed its complete log to SaveEvents exactly once unless it is still draining or
      gave up polling; and all have returned if and only if the WaitGroup is at zero. */
  lemma LogsAreSaved(gs: seq<Goroutine>, db: Db, share: map<string, Entity>, moves: seq<Move>)
    requires Fresh(gs) && Run(Initial(gs, db, share), moves).main.Stopped?
    ensures var s := Run(Initial(gs, db, share), moves);
            && ((forall i :: 0 <= i < |s.gs| ==> s.gs[i].at == Gone) <==> s.waitGroup == 0)
            && (s.main.outcome == R.AllReturned ==> forall i :: 0 <= i < |s.gs| ==> s.gs[i].at == Gone)
            && forall i :: 0 <= i < |s.gs| ==>
                 var g := s.gs[i];
                 var unsaved := g.gaveUp || (g.at == Inside && PhaseOf(g.own) == O.Phase.Draining);
                 && g.received && SavedOf(g.own) == (if unsaved then [] else [LogOf(g.own)])
                 && (g.gaveUp ==> Polls(g.own))
  {
    var protocol := RunsRefine(gs, db, share, moves);
    R.StopReturned(AbsAll(gs), protocol);
    var s, a := Run(Initial(gs, db, share), moves), AbsSys(Run(Initial(gs, db, share), moves));
    forall i | 0 <= i < |s.gs|
      ensures var g := s.gs[i];
              var unsaved := g.gaveUp || (g.at == Inside && PhaseOf(g.own) == O.Phase.Draining);
              && g.received && SavedOf(g.own) == (if unsaved then [] else [LogOf(g.own)])
              && (g.gaveUp ==> Polls(g.own))
      ensures s.gs[i].at == Gone <==> a.obs[i].phase == R.Gone
    {
      assert a.obs[i] == Abs(s.gs[i]);
      assert R.Consistent(a.obs[i], R.WasSpawned(s.main, i), R.WasSent(s.main, i));
    }
  }

  /** How often all logs hold the event. */
  function AllLogged(gs: seq<Goroutine>, e: Event): nat {
    if gs == [] then 0 else AllLogged(gs[..|gs| - 1], e) + O.Times(LogOf(gs[|gs| - 1].own), e)
  }

  lemma {:induction false} SavedIsLogged(gs: seq<Goroutine>, e: Event)
    requires forall i :: 0 <= i < |gs| ==> SavedOf(gs[i].own) == [LogOf(gs[i].own)]
    ensures AllSaved(gs, e) == AllLogged(gs, e)
  {
    if gs == [] {
    } else {
      SavedIsLogged(gs[..|gs| - 1], e);
      var log := LogOf(gs[|gs| - 1].own);
      SavedSnoc([], log, e);
      assert [] + [log] == [log];
    }
  }

  /** Once Stop has returned with all observers, none of which gave up, every event any of them logged
      stands in the database, as often as it was logged. */
  lemma LogsAreStored(gs: seq<Goroutine>, db: Db, share: map<string, Entity>, moves: seq<Move>, e: Event)
    requires Fresh(gs) && Run(Initial(gs, db, share), moves).main == R.Stopped(R.AllReturned)
    ensures var s := Run(Initial(gs, db, share), moves);
            (forall i :: 0 <= i < |s.gs| ==> !s.gs[i].gaveUp) ==>
              O.Times(s.db.events, e) == O.Times(db.events, e) + AllLogged(s.gs, e) + OthersStored(moves, e)
  {
    var s := Run(Initial(gs, db, share), moves);
    LogsAreSaved(gs, db, share, moves);
    DatabaseHoldsLogs(gs, db, share, moves, e);
    if forall i :: 0 <= i < |s.gs| ==> !s.gs[i].gaveUp { SavedIsLogged(s.gs, e); }
  }
}
