/** Runner.Start and Runner.Stop against any number of observer goroutines: the WaitGroup, the
    unbuffered finish channels and the timeouts (pkg/observer/runner.go). */
module RunnerProtocol {
  import opened Store
  import O = Observer
  import PodW = PodWatch
  import PvcW = PvcWatch
  import VaW = VaWatch
  import PodP = PodPoll
  import PvcP = PvcPoll
  import VaP = VaPoll

  /** Leaving: the loop has been left and the deferred Done is still to run. */
  datatype ObsPhase = NotSpawned | Spawned | Looping | Draining | Leaving | Gone

  /** received is the finish signal; a polled observer gives up when List fails or its time is over. */
  datatype Obs = Obs(phase: ObsPhase, log: seq<Event>, saves: seq<seq<Event>>, received: bool, polled: bool, gaveUp: bool)

  datatype Outcome =
    | AllReturned      // the WaitGroup reached zero in time
    | NoVolumeLeft     // timed out, but no volume of PvcShare is left in the cluster
    | ListError        // timed out, and the volumes could not be listed
    | Hanging          // timed out twice

  datatype Main =
    | Starting(k: nat, added: bool)
    | Running
    | Stopping(k: nat)
    | Waiting
    | TimedOut
    | WaitingAgain
    | Stopped(outcome: Outcome)

  datatype Sys = Sys(main: Main, obs: seq<Obs>, waitGroup: int)

  datatype Move =
    | WaitGroupAdd | Spawn | StartReturns | CallStop
    | Send(next: Obs)                 // rendezvous of StopWatching with the observer's select
    | AllSent | WaitReturns | Timeout | ListFails | NoMismatch | Mismatch
    | EnterLoop(i: nat)
    | EarlyReturn(i: nat)             // nil client or failed Watch
    | Work(i: nat, after: Obs)        // a turn of the loop that receives no finish signal
    | GiveUp(i: nat)                  // a polled observer whose List failed or whose time is over
    | Done(i: nat)

  /** What receiving the finish signal may do: save and leave, or start draining. */
  predicate Receives(o: Obs, p: Obs) {
    && o.phase == Looping
    && (p == o.(phase := Draining, received := true)
        || p == o.(phase := Leaving, received := true, saves := o.saves + [o.log]))
  }

  /** What any other turn may do: log, and when draining also save the grown log and leave. */
  predicate Works(o: Obs, p: Obs) {
    && (o.phase == Looping || o.phase == Draining)
    && o.log <= p.log
    && (p == o.(log := p.log)
        || (o.phase == Draining && p == o.(log := p.log, saves := o.saves + [p.log], phase := Leaving)))
  }

  predicate Enabled(s: Sys, m: Move) {
    match m
    case WaitGroupAdd => s.main.Starting? && !s.main.added && s.main.k < |s.obs|
    case Spawn => s.main.Starting? && s.main.added && s.main.k < |s.obs|
    case StartReturns => s.main == Starting(|s.obs|, false)
    case CallStop => s.main == Running
    case Send(next) => s.main.Stopping? && s.main.k < |s.obs| && Receives(s.obs[s.main.k], next)
    case AllSent => s.main == Stopping(|s.obs|)
    case WaitReturns => (s.main == Waiting || s.main == WaitingAgain) && s.waitGroup == 0
    case Timeout => s.main == Waiting || s.main == WaitingAgain
    case ListFails => s.main == TimedOut
    case NoMismatch => s.main == TimedOut
    case Mismatch => s.main == TimedOut
    case EnterLoop(i) => i < |s.obs| && s.obs[i].phase == Spawned
    case EarlyReturn(i) => i < |s.obs| && s.obs[i].phase == Spawned
    case Work(i, after) => i < |s.obs| && Works(s.obs[i], after)
    case GiveUp(i) => i < |s.obs| && s.obs[i].polled && (s.obs[i].phase == Looping || s.obs[i].phase == Draining)
    case Done(i) => i < |s.obs| && s.obs[i].phase == Leaving
  }

  function Next(s: Sys, m: Move): Sys
    requires Enabled(s, m)
  {
    match m
    case WaitGroupAdd => s.(waitGroup := s.waitGroup + 1, main := Starting(s.main.k, true))
    case Spawn => s.(obs := s.obs[s.main.k := s.obs[s.main.k].(phase := Spawned)], main := Starting(s.main.k + 1, false))
    case StartReturns => s.(main := Running)
    case CallStop => s.(main := Stopping(0))
    case Send(next) => s.(obs := s.obs[s.main.k := next], main := Stopping(s.main.k + 1))
    case AllSent => s.(main := Waiting)
    case WaitReturns => s.(main := Stopped(AllReturned))
    case Timeout => s.(main := if s.main == Waiting then TimedOut else Stopped(Hanging))
    case ListFails => s.(main := Stopped(ListError))
    case NoMismatch => s.(main := Stopped(NoVolumeLeft))
    case Mismatch => s.(main := WaitingAgain)
    case EnterLoop(i) => s.(obs := s.obs[i := s.obs[i].(phase := Looping)])
    case EarlyReturn(i) => s.(obs := s.obs[i := s.obs[i].(phase := Leaving)])
    case Work(i, after) => s.(obs := s.obs[i := after])
    case GiveUp(i) => s.(obs := s.obs[i := s.obs[i].(phase := Leaving, gaveUp := true)])
    case Done(i) => s.(obs := s.obs[i := s.obs[i].(phase := Gone)], waitGroup := s.waitGroup - 1)
  }

  predicate Fresh(obs: seq<Obs>) {
    forall i :: 0 <= i < |obs| ==> obs[i] == Obs(NotSpawned, [], [], false, obs[i].polled, false)
  }

  /** A run from s: a move that is not enabled where it stands is not taken. */
  function Run(s: Sys, moves: seq<Move>): Sys {
    if moves == [] then s else Turn(Run(s, moves[..|moves| - 1]), moves[|moves| - 1])
  }

  function Turn(s: Sys, m: Move): Sys {
    if Enabled(s, m) then Next(s, m) else s
  }

  function Initial(obs: seq<Obs>): Sys {
    Sys(Starting(0, false), obs, 0)
  }

  // ---------------------------------------------------------------- the WaitGroup

  /** The observers that have been started and have not returned. */
  function Outstanding(obs: seq<Obs>): nat {
    if obs == [] then 0
    else
      Outstanding(obs[..|obs| - 1])
      + if obs[|obs| - 1].phase == NotSpawned || obs[|obs| - 1].phase == Gone then 0 else 1
  }

  predicate Out(o: Obs) {
    o.phase != NotSpawned && o.phase != Gone
  }

  lemma {:induction false} OutstandingUpdate(obs: seq<Obs>, i: nat, o: Obs)
    requires i < |obs|
    ensures Outstanding(obs[i := o])
         == Outstanding(obs) - (if Out(obs[i]) then 1 else 0) + (if Out(o) then 1 else 0)
  {
    var front := obs[..|obs| - 1];
    if i == |obs| - 1 {
      assert obs[i := o][..|obs| - 1] == front;
    } else {
      OutstandingUpdate(front, i, o);
      assert obs[i := o][..|obs| - 1] == front[i := o];
    }
  }

  lemma {:induction false} NoneOutstanding(obs: seq<Obs>)
    requires Outstanding(obs) == 0
    ensures forall i :: 0 <= i < |obs| ==> !Out(obs[i])
  {
    if obs == [] {
    } else {
      NoneOutstanding(obs[..|obs| - 1]);
    }
  }

  lemma {:induction false} FreshNotOutstanding(obs: seq<Obs>)
    requires Fresh(obs)
    ensures Outstanding(obs) == 0
  {
    if obs == [] {
    } else {
      FreshNotOutstanding(obs[..|obs| - 1]);
    }
  }

  /** Added and not yet returned; Add(1) comes before the goroutine is spawned. */
  function NotReturned(s: Sys): nat {
    Outstanding(s.obs) + if s.main.Starting? && s.main.added then 1 else 0
  }

  /** How far the main goroutine has got with the observer at position i. */
  predicate WasSpawned(main: Main, i: nat) {
    main.Starting? ==> i < main.k
  }

  predicate WasSent(main: Main, i: nat) {
    !main.Starting? && main != Running && (main.Stopping? ==> i < main.k)
  }

  /** The bookkeeping of one observer against the main goroutine. */
  predicate Consistent(o: Obs, spawned: bool, sent: bool) {
    && (o.phase == NotSpawned <==> !spawned)
    && (o.received <==> sent)
    && (o.phase == NotSpawned || o.phase == Spawned || o.phase == Looping ==> !o.received && o.saves == [])
    && (o.phase == Draining ==> o.received && o.saves == [])
    && (o.saves == [] || o.saves == [o.log])
    && (o.gaveUp ==> o.polled && o.saves == [] && (o.phase == Leaving || o.phase == Gone))
    && (!o.gaveUp && o.received && (o.phase == Leaving || o.phase == Gone) ==> o.saves == [o.log])
  }

  predicate Inv(s: Sys) {
    && s.waitGroup == NotReturned(s)
    && (s.main.Starting? ==> s.main.k <= |s.obs| && (s.main.added ==> s.main.k < |s.obs|))
    && (s.main.Stopping? ==> s.main.k <= |s.obs|)
    && (forall i :: 0 <= i < |s.obs| ==> Consistent(s.obs[i], WasSpawned(s.main, i), WasSent(s.main, i)))
    && (s.main == Stopped(AllReturned) ==> forall i :: 0 <= i < |s.obs| ==> s.obs[i].phase == Gone)
  }

  lemma MoveOfMainKeepsInv(s: Sys, m: Move)
    requires Inv(s) && Enabled(s, m)
    requires m.WaitGroupAdd? || m.StartReturns? || m.CallStop? || m.AllSent? || m.WaitReturns? || m.Timeout?
          || m.ListFails? || m.NoMismatch? || m.Mismatch?
    ensures Inv(Next(s, m))
  {
    if m == WaitReturns {
      NoneOutstanding(s.obs);
      forall i | 0 <= i < |s.obs| ensures s.obs[i].phase == Gone {
        assert Consistent(s.obs[i], WasSpawned(s.main, i), WasSent(s.main, i));
      }
    }
  }

  lemma MoveOfObserverKeepsInv(s: Sys, i: nat, o: Obs, done: int)
    requires Inv(s) && i < |s.obs|
    requires s.obs[i].phase != NotSpawned && s.obs[i].phase != Gone
    requires Consistent(o, true, WasSent(s.main, i))
    requires done == if Out(o) then 0 else 1
    ensures Inv(s.(obs := s.obs[i := o], waitGroup := s.waitGroup - done))
  {
    OutstandingUpdate(s.obs, i, o);
  }

  lemma SpawnKeepsInv(s: Sys)
    requires Inv(s) && Enabled(s, Spawn)
    ensures Inv(Next(s, Spawn))
  {
    var k := s.main.k;
    OutstandingUpdate(s.obs, k, s.obs[k].(phase := Spawned));
    assert Consistent(s.obs[k], false, false);
  }

  lemma SendKeepsInv(s: Sys, next: Obs)
    requires Inv(s) && Enabled(s, Send(next))
    ensures Inv(Next(s, Send(next)))
  {
    var k := s.main.k;
    OutstandingUpdate(s.obs, k, next);
    assert Consistent(s.obs[k], true, false);
  }

  lemma StepOfObserverKeepsInv(s: Sys, i: nat, o: Obs)
    requires Inv(s) && i < |s.obs|
    requires (s.obs[i].phase == Spawned && (o == s.obs[i].(phase := Looping) || o == s.obs[i].(phase := Leaving)))
          || Works(s.obs[i], o)
          || (s.obs[i].polled && (s.obs[i].phase == Looping || s.obs[i].phase == Draining) && o == s.obs[i].(phase := Leaving, gaveUp := true))
    ensures Inv(s.(obs := s.obs[i := o]))
  {
    assert Consistent(s.obs[i], WasSpawned(s.main, i), WasSent(s.main, i));
    MoveOfObserverKeepsInv(s, i, o, 0);
  }

  lemma DoneKeepsInv(s: Sys, i: nat)
    requires Inv(s) && Enabled(s, Done(i))
    ensures Inv(Next(s, Done(i)))
  {
    assert Consistent(s.obs[i], WasSpawned(s.main, i), WasSent(s.main, i));
    MoveOfObserverKeepsInv(s, i, s.obs[i].(phase := Gone), 1);
  }

  lemma NextKeepsInv(s: Sys, m: Move)
    requires Inv(s) && Enabled(s, m)
    ensures Inv(Next(s, m))
  {
    match m
    case Spawn => SpawnKeepsInv(s);
    case Send(next) => SendKeepsInv(s, next);
    case EnterLoop(i) => StepOfObserverKeepsInv(s, i, s.obs[i].(phase := Looping));
    case EarlyReturn(i) => StepOfObserverKeepsInv(s, i, s.obs[i].(phase := Leaving));
    case Work(i, after) => StepOfObserverKeepsInv(s, i, after);
    case GiveUp(i) => StepOfObserverKeepsInv(s, i, s.obs[i].(phase := Leaving, gaveUp := true));
    case Done(i) => DoneKeepsInv(s, i);
    case _ => MoveOfMainKeepsInv(s, m);
  }

  lemma {:induction false} RunKeepsInv(s: Sys, moves: seq<Move>)
    requires Inv(s)
    ensures Inv(Run(s, moves))
  {
    if moves == [] {
    } else {
      RunKeepsInv(s, moves[..|moves| - 1]);
      var t := Run(s, moves[..|moves| - 1]);
      if Enabled(t, moves[|moves| - 1]) { NextKeepsInv(t, moves[|moves| - 1]); }
    }
  }

  /** In every interleaving of Start, the observers and Stop, the WaitGroup counter is the number
      of observers not yet returned, so it never goes negative. */
  lemma WaitGroupCounts(obs: seq<Obs>, moves: seq<Move>)
    requires Fresh(obs)
    ensures var s := Run(Initial(obs), moves);
            Inv(s) && s.waitGroup == NotReturned(s) >= 0
  {
    FreshNotOutstanding(obs);
    RunKeepsInv(Initial(obs), moves);
  }

  // ------------------------------------------------------------------ what Stop answers

  /** How often a move is taken in a run. */
  function Taken(s: Sys, moves: seq<Move>, m: Move): nat {
    if moves == [] then 0
    else
      var front, last := moves[..|moves| - 1], moves[|moves| - 1];
      Taken(s, front, m) + if last == m && Enabled(Run(s, front), m) then 1 else 0
  }

  /** Where Stop stands, by what happened to it. */
  predicate Tells(main: Main, zeros: nat, timeouts: nat, fails: nat, none: nat, some: nat) {
    && zeros == (if main == Stopped(AllReturned) then 1 else 0)
    && fails == (if main == Stopped(ListError) then 1 else 0)
    && none == (if main == Stopped(NoVolumeLeft) then 1 else 0)
    && (main == Stopped(AllReturned) ==> timeouts == some <= 1)
    && (main == WaitingAgain ==> timeouts == some == 1)
    && (main == Stopped(Hanging) ==> timeouts == 2 && some == 1)
    && (main == TimedOut || fails + none == 1 ==> timeouts == 1 && some == 0)
    && (main.Starting? || main == Running || main.Stopping? || main == Waiting ==> timeouts == some == 0)
  }

  function By(m: Move, n: Move): nat {
    if m == n then 1 else 0
  }

  lemma MoveTells(s: Sys, m: Move, zeros: nat, timeouts: nat, fails: nat, none: nat, some: nat)
    requires Enabled(s, m) && Tells(s.main, zeros, timeouts, fails, none, some)
    ensures Tells(Next(s, m).main, zeros + By(m, WaitReturns), timeouts + By(m, Timeout), fails + By(m, ListFails),
                  none + By(m, NoMismatch), some + By(m, Mismatch))
  {
  }

  /** The answer of Stop is decided by what happened: it waits for the WaitGroup, and again after a timeout
      if a published volume is still in the cluster; a second timeout means hanging. */
  lemma {:induction false} AnswerTells(obs: seq<Obs>, moves: seq<Move>)
    ensures var s := Initial(obs);
            Tells(Run(s, moves).main, Taken(s, moves, WaitReturns), Taken(s, moves, Timeout), Taken(s, moves, ListFails),
                  Taken(s, moves, NoMismatch), Taken(s, moves, Mismatch))
  {
    if moves == [] {
    } else {
      var front, last := moves[..|moves| - 1], moves[|moves| - 1];
      AnswerTells(obs, front);
      var s, t := Initial(obs), Run(Initial(obs), front);
      if Enabled(t, last) {
        MoveTells(t, last, Taken(s, front, WaitReturns), Taken(s, front, Timeout), Taken(s, front, ListFails),
                  Taken(s, front, NoMismatch), Taken(s, front, Mismatch));
      }
    }
  }

  /** When waitTimeout reports normal completion every observer has received its signal and
      returned, and has saved its complete log exactly once unless it gave up polling, which no
      watch observer does. */
  lemma NormalCompletion(obs: seq<Obs>, moves: seq<Move>)
    requires Fresh(obs) && Run(Initial(obs), moves).main == Stopped(AllReturned)
    ensures var s := Run(Initial(obs), moves);
            forall i :: 0 <= i < |s.obs| ==>
              && s.obs[i].phase == Gone && s.obs[i].received
              && (s.obs[i].gaveUp ==> s.obs[i].polled)
              && (!s.obs[i].gaveUp ==> s.obs[i].saves == [s.obs[i].log])
  {
    WaitGroupCounts(obs, moves);
    var s := Run(Initial(obs), moves);
    forall i | 0 <= i < |s.obs|
      ensures s.obs[i].received && (s.obs[i].gaveUp ==> s.obs[i].polled)
      ensures !s.obs[i].gaveUp ==> s.obs[i].saves == [s.obs[i].log]
    {
      assert Consistent(s.obs[i], WasSpawned(s.main, i), WasSent(s.main, i));
    }
  }

  predicate AllGone(obs: seq<Obs>) {
    forall i :: 0 <= i < |obs| ==> obs[i].phase == Gone
  }

  lemma {:induction false} GoneNotOutstanding(obs: seq<Obs>)
    requires AllGone(obs)
    ensures Outstanding(obs) == 0
  {
    if obs == [] {
    } else {
      GoneNotOutstanding(obs[..|obs| - 1]);
    }
  }

  /** The log of an observer is not saved: it is still draining, or it gave up polling. */
  predicate Unsaved(o: Obs) {
    o.phase == Draining || o.gaveUp
  }

  /** What holds whenever Stop has returned, whatever it returned: every observer got its signal and
      has saved its complete log exactly once unless it is draining or gave up; all have returned
      if and only if the WaitGroup is at zero, and none is draining then. */
  lemma StopReturned(obs: seq<Obs>, moves: seq<Move>)
    requires Fresh(obs) && Run(Initial(obs), moves).main.Stopped?
    ensures var s := Run(Initial(obs), moves);
            && (AllGone(s.obs) <==> s.waitGroup == 0)
            && (s.main.outcome == AllReturned ==> AllGone(s.obs))
            && forall i :: 0 <= i < |s.obs| ==>
                 && s.obs[i].received
                 && (s.obs[i].phase == Draining || s.obs[i].phase == Leaving || s.obs[i].phase == Gone)
                 && s.obs[i].saves == (if Unsaved(s.obs[i]) then [] else [s.obs[i].log])
  {
    WaitGroupCounts(obs, moves);
    var s := Run(Initial(obs), moves);
    forall i | 0 <= i < |s.obs|
      ensures s.obs[i].received && s.obs[i].saves == (if Unsaved(s.obs[i]) then [] else [s.obs[i].log])
      ensures s.obs[i].phase == Draining || s.obs[i].phase == Leaving || s.obs[i].phase == Gone
    {
      assert Consistent(s.obs[i], WasSpawned(s.main, i), WasSent(s.main, i));
    }
    if s.waitGroup == 0 { NoneOutstanding(s.obs); }
    if AllGone(s.obs) { GoneNotOutstanding(s.obs); }
  }

  /** The two outcomes without an error. */
  predicate Succeeds(outcome: Outcome) {
    outcome == AllReturned || outcome == NoVolumeLeft
  }

  /** When Stop returned without an error, some log is not saved if and only if an observer gave up
      polling or, in the outcome NoVolumeLeft alone and with the WaitGroup above zero, is still
      draining. */
  lemma ErrorFreeStopLosesLog(obs: seq<Obs>, moves: seq<Move>)
    requires Fresh(obs)
    requires var main := Run(Initial(obs), moves).main; main.Stopped? && Succeeds(main.outcome)
    ensures var s := Run(Initial(obs), moves);
            (exists i :: 0 <= i < |s.obs| && s.obs[i].saves != [s.obs[i].log])
            <==> || (exists i :: 0 <= i < |s.obs| && s.obs[i].gaveUp)
                 || (s.main.outcome == NoVolumeLeft && s.waitGroup > 0
                     && exists i :: 0 <= i < |s.obs| && s.obs[i].phase == Draining)
  {
    StopReturned(obs, moves);
    WaitGroupCounts(obs, moves);
    var s := Run(Initial(obs), moves);
    if i :| 0 <= i < |s.obs| && s.obs[i].saves != [s.obs[i].log] {
      assert Unsaved(s.obs[i]);
      assert s.obs[i].phase == Draining ==> s.waitGroup != 0;
    }
    if i :| 0 <= i < |s.obs| && s.obs[i].gaveUp { assert s.obs[i].saves == []; }
    if i :| 0 <= i < |s.obs| && s.obs[i].phase == Draining { assert s.obs[i].saves == []; }
  }

  const FRESH := Obs(NotSpawned, [], [], false, false, false)
  const DRAINING := Obs(Draining, [], [], true, false, false)

  lemma ObserverStarts()
    ensures Run(Initial([FRESH]), [WaitGroupAdd, Spawn] + [StartReturns, EnterLoop(0)])
         == Sys(Running, [FRESH.(phase := Looping)], 1)
  {
    var start := Initial([FRESH]);
    var added := start.(main := Starting(0, true), waitGroup := 1);
    var spawned := Sys(Starting(1, false), [FRESH.(phase := Spawned)], 1);
    var running := spawned.(main := Running);
    PairLeads(start, WaitGroupAdd, added, Spawn, spawned);
    PairLeads(spawned, StartReturns, running, EnterLoop(0), running.(obs := [FRESH.(phase := Looping)]));
    RunAppend(start, [WaitGroupAdd, Spawn], [StartReturns, EnterLoop(0)]);
  }

  lemma StopTimesOut()
    ensures Run(Sys(Running, [FRESH.(phase := Looping)], 1), [CallStop, Send(DRAINING)] + [AllSent, Timeout])
         == Sys(TimedOut, [DRAINING], 1)
  {
    var running := Sys(Running, [FRESH.(phase := Looping)], 1);
    var sent := Sys(Stopping(1), [DRAINING], 1);
    PairLeads(running, CallStop, running.(main := Stopping(0)), Send(DRAINING), sent);
    PairLeads(sent, AllSent, sent.(main := Waiting), Timeout, sent.(main := TimedOut));
    RunAppend(running, [CallStop, Send(DRAINING)], [AllSent, Timeout]);
  }

  /** That case exists: after a timeout with no volume left in the cluster the observer is still
      draining and its log is not saved. */
  lemma NoErrorWithoutReturn()
    ensures exists moves :: Run(Initial([FRESH]), moves) == Sys(Stopped(NoVolumeLeft), [DRAINING], 1)
  {
    var started, stopped := [WaitGroupAdd, Spawn] + [StartReturns, EnterLoop(0)], [CallStop, Send(DRAINING)] + [AllSent, Timeout];
    ObserverStarts();
    StopTimesOut();
    RunAppend(Initial([FRESH]), started, stopped);
    RunSnoc(Initial([FRESH]), started + stopped, NoMismatch);
  }

  lemma PairLeads(s: Sys, m: Move, t: Sys, n: Move, u: Sys)
    requires Turn(s, m) == t && Turn(t, n) == u
    ensures Run(s, [m, n]) == u
  {
    RunSnoc(s, [], m);
    RunSnoc(s, [m], n);
    assert [] + [m] == [m] && [m] + [n] == [m, n];
  }

  lemma {:induction false} RunAppend(s: Sys, moves: seq<Move>, more: seq<Move>)
    ensures Run(s, moves + more) == Run(Run(s, moves), more)
  {
    if more == [] {
      assert moves + more == moves;
    } else {
      var front, last := more[..|more| - 1], more[|more| - 1];
      RunAppend(s, moves, front);
      RunSnoc(s, moves + front, last);
      assert moves + more == (moves + front) + [last];
    }
  }

  lemma RunSnoc(s: Sys, moves: seq<Move>, m: Move)
    ensures Run(s, moves + [m]) == Turn(Run(s, moves), m)
  {
    assert (moves + [m])[..|moves|] == moves;
  }

  // ------------------------------------------------------------- when Stop gets stuck

  /** Stop is sending to an observer that has left. */
  predicate Blocked(s: Sys, k: nat) {
    s.main == Stopping(k) && k < |s.obs| && (s.obs[k].phase == Leaving || s.obs[k].phase == Gone)
  }

  lemma TurnStaysBlocked(s: Sys, m: Move, k: nat)
    requires Blocked(s, k)
    ensures Blocked(Turn(s, m), k) && |Turn(s, m).obs| == |s.obs|
  {
  }

  /** An observer that left before its signal was received leaves StopWatching without a receiver:
      no continuation gets Stop past it. */
  lemma {:induction false} LeftObserverBlocksStop(s: Sys, moves: seq<Move>)
    requires s.main.Stopping? && s.main.k < |s.obs|
    requires s.obs[s.main.k].phase == Leaving || s.obs[s.main.k].phase == Gone
    ensures var t := Run(s, moves);
            && t.main == s.main && |t.obs| == |s.obs|
            && (t.obs[s.main.k].phase == Leaving || t.obs[s.main.k].phase == Gone)
  {
    if moves == [] {
    } else {
      LeftObserverBlocksStop(s, moves[..|moves| - 1]);
      TurnStaysBlocked(Run(s, moves[..|moves| - 1]), moves[|moves| - 1], s.main.k);
    }
  }

  /** A nil client is enough: the observer returns before its loop, and Stop never does. */
  lemma EarlyReturnBlocksStop(more: seq<Move>)
    ensures var stopping := Run(Initial([FRESH]), [WaitGroupAdd, Spawn] + [StartReturns, EarlyReturn(0)] + [CallStop]);
            && stopping == Sys(Stopping(0), [FRESH.(phase := Leaving)], 1)
            && Run(stopping, more).main == Stopping(0)
  {
    var start := Initial([FRESH]);
    var spawned := Sys(Starting(1, false), [FRESH.(phase := Spawned)], 1);
    var running := Sys(Running, [FRESH.(phase := Spawned)], 1);
    var left := Sys(Running, [FRESH.(phase := Leaving)], 1);
    PairLeads(start, WaitGroupAdd, start.(main := Starting(0, true), waitGroup := 1), Spawn, spawned);
    PairLeads(spawned, StartReturns, running, EarlyReturn(0), left);
    RunAppend(start, [WaitGroupAdd, Spawn], [StartReturns, EarlyReturn(0)]);
    RunSnoc(start, [WaitGroupAdd, Spawn] + [StartReturns, EarlyReturn(0)], CallStop);
    LeftObserverBlocksStop(left.(main := Stopping(0)), more);
  }

  /** Stop gets past the observer it is sending to, in some continuation, exactly if that observer
      has not left. */
  lemma SendCompletesIffNotLeft(obs: seq<Obs>, moves: seq<Move>)
    requires Fresh(obs)
    requires var s := Run(Initial(obs), moves); s.main.Stopping? && s.main.k < |s.obs|
    ensures var s := Run(Initial(obs), moves);
            (exists more :: Run(s, more).main == Stopping(s.main.k + 1))
            <==> s.obs[s.main.k].phase == Spawned || s.obs[s.main.k].phase == Looping
  {
    WaitGroupCounts(obs, moves);
    var s := Run(Initial(obs), moves);
    var k := s.main.k;
    assert Consistent(s.obs[k], true, false);
    if s.obs[k].phase == Leaving || s.obs[k].phase == Gone {
      forall more ensures Run(s, more).main == s.main { LeftObserverBlocksStop(s, more); }
    } else {
      SignalIsReceived(s, k);
    }
  }

  lemma SignalIsReceived(s: Sys, k: nat)
    requires s.main == Stopping(k) && k < |s.obs| && (s.obs[k].phase == Spawned || s.obs[k].phase == Looping)
    ensures exists more :: Run(s, more).main == Stopping(k + 1)
  {
    var looping := s.obs[k].(phase := Looping);
    var next := looping.(phase := Draining, received := true);
    RunSnoc(s, [], EnterLoop(k));
    RunSnoc(s, [EnterLoop(k)], Send(next));
    assert [] + [EnterLoop(k)] == [EnterLoop(k)];
    assert Run(s, [EnterLoop(k)]).obs[k] == looping;
    assert Run(s, [EnterLoop(k)] + [Send(next)]).main == Stopping(k + 1);
  }

  // --------------------------------------------------- the six observers are such observers

  /** What the protocol sees of a concrete observer in or after its loop. */
  function Abstract(phase: O.Phase, log: seq<Event>, saved: seq<seq<Event>>, received: bool, polled: bool): Obs {
    Obs(if phase == O.Phase.Looping then Looping
        else if phase == O.Phase.Draining then Draining
        else Leaving,
        log, saved, received, polled, false)
  }

  lemma PodTurnIsProtocolTurn(s: PodW.State, input: O.Input<PodW.PodObject>, now: int)
    requires s.phase == O.Phase.Looping && PodW.Step(s, input, now).phase != O.Phase.Crashed
    ensures var t := PodW.Step(s, input, now);
            var o := Abstract(s.phase, s.events, s.saved, false, false);
            if input.Finish? then Receives(o, Abstract(t.phase, t.events, t.saved, true, false))
            else Works(o, Abstract(t.phase, t.events, t.saved, false, false))
  {
  }

  lemma PvcTurnIsProtocolTurn(s: PvcW.State, input: O.Input<PvcW.PvcObject>, now: int)
    requires s.phase == O.Phase.Looping && PvcW.Step(s, input, now).phase != O.Phase.Crashed
    ensures var t := PvcW.Step(s, input, now);
            var o := Abstract(s.phase, s.events, s.saved, false, false);
            if input.Finish? then Receives(o, Abstract(t.phase, t.events, t.saved, true, false))
            else Works(o, Abstract(t.phase, t.events, t.saved, false, false))
  {
  }

  /** The VA observer receives one signal; it may go on working after it. */
  lemma VaTurnIsProtocolTurn(s: VaW.State, share: map<string, Entity>, clean: bool, input: O.Input<VaW.VaObject>, now: int)
    requires s.phase == O.Phase.Looping || (s.phase == O.Phase.Draining && !input.Finish?)
    requires VaW.Step(s, share, clean, input, now).phase != O.Phase.Crashed
    ensures var t := VaW.Step(s, share, clean, input, now);
            var received := s.phase == O.Phase.Draining;
            var o := Abstract(s.phase, s.events, s.saved, received, false);
            if input.Finish? then Receives(o, Abstract(t.phase, t.events, t.saved, true, false))
            else Works(o, Abstract(t.phase, t.events, t.saved, received, false))
  {
  }

  lemma PodPollIsProtocolTurn(s: PodP.ListState, poll: O.Poll<PodW.PodObject>, clock: nat -> int)
    requires s.phase == O.Phase.Looping
    ensures var o, t := Abstract(s.phase, s.events, s.saved, false, true), PodP.ListFinish(s);
            Receives(o, Abstract(t.phase, t.events, t.saved, true, true))
    ensures var o, t := Abstract(s.phase, s.events, s.saved, false, true), PodP.OnPoll(s, poll, clock);
            t.phase != O.Phase.Crashed ==> Works(o, Abstract(t.phase, t.events, t.saved, false, true))
  {
    PodP.PollOnlyLogs(s, poll, clock);
  }

  lemma PvcPollIsProtocolTurn(s: PvcP.ListState, poll: O.Poll<PvcW.PvcObject>, clock: nat -> int)
    requires s.phase == O.Phase.Looping
    ensures var o, t := Abstract(s.phase, s.events, s.saved, false, true), PvcP.ListFinish(s);
            Receives(o, Abstract(t.phase, t.events, t.saved, true, true))
    ensures var o, t := Abstract(s.phase, s.events, s.saved, false, true), PvcP.OnPoll(s, poll, clock);
            t.phase != O.Phase.Crashed ==> Works(o, Abstract(t.phase, t.events, t.saved, false, true))
  {
    PvcP.PollOnlyLogs(s, poll, clock);
  }

  /** A VA poll that finds the signal waiting receives it, and if it starts draining goes on to
      work; List fails for a poll that gives up. */
  lemma VaPollIsProtocolTurn(s: VaP.State, clean: bool, turn: VaP.Turn, clock: nat -> int)
    requires s.phase == O.Phase.Looping || (s.phase == O.Phase.Draining && !turn.finish)
    requires turn.list.Some? && VaP.Step(s, clean, turn, clock).phase != O.Phase.Crashed
    ensures var t := VaP.Step(s, clean, turn, clock);
            var received := s.phase == O.Phase.Draining;
            var o, p := Abstract(s.phase, s.events, s.saved, received, true),
                        Abstract(t.phase, t.events, t.saved, received || turn.finish, true);
            var draining := o.(phase := Draining, received := true);
            if turn.finish then Receives(o, p) || (Receives(o, draining) && Works(draining, p)) else Works(o, p)
  {
    VaP.ProcessOnlyLogs(if turn.finish then s.(phase := O.Phase.Draining) else s, turn, clock);
  }
}
