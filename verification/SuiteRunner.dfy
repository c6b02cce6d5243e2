/** The accounting of RunSuites: iterations, stop flag and success counter (pkg/testcore/runner/perf-runner.go). */
module SuiteRunner {
  import opened Store

  /** One suite of one storage class. */
  datatype Task = Task(storageClass: string, index: nat)

  /** Per storage class the number of its suites. */
  type Suites = map<string, nat>

  function SizeOf(suites: Suites, sc: string): nat {
    if sc in suites then suites[sc] else 0
  }

  function TasksOf(sc: string, n: nat): seq<Task> {
    if n == 0 then [] else TasksOf(sc, n - 1) + [Task(sc, n - 1)]
  }

  /** What one iteration executes, class by class. */
  function Tasks(scDBs: seq<string>, suites: Suites): seq<Task> {
    if scDBs == [] then []
    else
      var sc := scDBs[|scDBs| - 1];
      Tasks(scDBs[..|scDBs| - 1], suites) + TasksOf(sc, SizeOf(suites, sc))
  }

  lemma {:induction false} TasksOfAre(sc: string, n: nat)
    ensures |TasksOf(sc, n)| == n && Distinct(TasksOf(sc, n))
    ensures forall t :: t in TasksOf(sc, n) <==> t.storageClass == sc && t.index < n
  {
    if n > 0 { TasksOfAre(sc, n - 1); }
  }

  /** With distinct classes an iteration holds every suite exactly once. */
  lemma {:induction false} TasksAreSuites(scDBs: seq<string>, suites: Suites)
    requires Distinct(scDBs)
    ensures Distinct(Tasks(scDBs, suites))
    ensures forall t :: t in Tasks(scDBs, suites) <==> t.storageClass in scDBs && t.index < SizeOf(suites, t.storageClass)
  {
    if scDBs == [] {
    } else {
      var front, sc := scDBs[..|scDBs| - 1], scDBs[|scDBs| - 1];
      TasksAreSuites(front, suites);
      TasksOfAre(sc, SizeOf(suites, sc));
      assert scDBs == front + [sc];
      var a, b := Tasks(front, suites), TasksOf(sc, SizeOf(suites, sc));
      forall i, j | 0 <= i < |a| && 0 <= j < |b| ensures a[i] != b[j] {
        assert a[i] in a && b[j] in b;
      }
    }
  }

  // --------------------------------------------------------- executed against counted

  ghost function CountedOver(classes: set<string>, suites: Suites): nat
    requires classes <= suites.Keys
  {
    if classes == {} then 0
    else
      var sc :| sc in classes;
      suites[sc] + CountedOver(classes - {sc}, suites)
  }

  lemma {:induction false} CountedWithout(classes: set<string>, suites: Suites, sc: string)
    requires classes <= suites.Keys && sc in classes
    ensures CountedOver(classes, suites) == suites[sc] + CountedOver(classes - {sc}, suites)
    decreases |classes|
  {
    var x :| x in classes && CountedOver(classes, suites) == suites[x] + CountedOver(classes - {x}, suites);
    if x != sc {
      CountedWithout(classes - {x}, suites, sc);
      CountedWithout(classes - {sc}, suites, x);
      assert classes - {x} - {sc} == classes - {sc} - {x};
    }
  }

  /** All suites of the map, each counted once. */
  ghost function CountedTotal(suites: Suites): nat {
    CountedOver(suites.Keys, suites)
  }

  /** The deferred count over the map, in whatever order it ranges. */
  method TotalNumberOfSuites(suites: Suites) returns (total: nat)
    ensures total == CountedTotal(suites)
  {
    total := 0;
    var todo := suites.Keys;
    while todo != {}
      invariant todo <= suites.Keys && total + CountedOver(todo, suites) == CountedTotal(suites)
      decreases todo
    {
      var sc :| sc in todo;
      CountedWithout(todo, suites, sc);
      total := total + suites[sc];
      todo := todo - {sc};
    }
  }

  /** No class that has suites is listed twice. */
  ghost predicate NoneTwice(scDBs: seq<string>, suites: Suites) {
    forall i, j :: 0 <= i < j < |scDBs| && scDBs[i] == scDBs[j] ==> SizeOf(suites, scDBs[i]) == 0
  }

  function Known(scDBs: seq<string>, suites: Suites): set<string> {
    set i | 0 <= i < |scDBs| && scDBs[i] in suites :: scDBs[i]
  }

  lemma KnownSnoc(front: seq<string>, sc: string, suites: Suites)
    ensures Known(front + [sc], suites) == Known(front, suites) + if sc in suites then {sc} else {}
  {
    var all := front + [sc];
    assert all[|front|] == sc;
    forall c | c in Known(front, suites) ensures c in Known(all, suites) {
      var i :| 0 <= i < |front| && front[i] in suites && front[i] == c;
      assert all[i] == c;
    }
  }

  lemma NoneTwiceSnoc(front: seq<string>, sc: string, suites: Suites)
    ensures NoneTwice(front + [sc], suites)
       <==> NoneTwice(front, suites) && (sc in Known(front, suites) ==> suites[sc] == 0)
  {
    var all := front + [sc];
    assert all[|front|] == sc && all[..|front|] == front;
    if NoneTwice(all, suites) {
      forall i, j | 0 <= i < j < |front| && front[i] == front[j] ensures SizeOf(suites, front[i]) == 0 {
        assert all[i] == front[i] && all[j] == front[j];
      }
      if sc in Known(front, suites) {
        var i :| 0 <= i < |front| && front[i] in suites && front[i] == sc;
        assert all[i] == all[|front|];
      }
    }
  }

  /** What an iteration executes is at least what is counted of the listed classes, and exactly that
      if and only if no class with suites is listed twice. */
  lemma {:induction false} ExecutedAgainstKnown(scDBs: seq<string>, suites: Suites)
    ensures |Tasks(scDBs, suites)| >= CountedOver(Known(scDBs, suites), suites)
    ensures |Tasks(scDBs, suites)| == CountedOver(Known(scDBs, suites), suites) <==> NoneTwice(scDBs, suites)
  {
    if scDBs == [] {
      assert Known(scDBs, suites) == {};
    } else {
      var front, sc := scDBs[..|scDBs| - 1], scDBs[|scDBs| - 1];
      assert scDBs == front + [sc];
      ExecutedAgainstKnown(front, suites);
      TasksOfAre(sc, SizeOf(suites, sc));
      KnownSnoc(front, sc, suites);
      NoneTwiceSnoc(front, sc, suites);
      if sc in suites && sc !in Known(front, suites) {
        CountedWithout(Known(scDBs, suites), suites, sc);
        assert Known(scDBs, suites) - {sc} == Known(front, suites);
      } else {
        assert Known(scDBs, suites) == Known(front, suites);
      }
    }
  }

  /** With the listed classes exactly the keys of the map, the counted total is what an iteration
      executes if and only if no class with suites is listed twice; otherwise it is less. */
  lemma ExecutedIsCountedIffNoneTwice(scDBs: seq<string>, suites: Suites)
    requires forall sc :: sc in scDBs <==> sc in suites
    ensures |Tasks(scDBs, suites)| >= CountedTotal(suites)
    ensures |Tasks(scDBs, suites)| == CountedTotal(suites) <==> NoneTwice(scDBs, suites)
  {
    ExecutedAgainstKnown(scDBs, suites);
    assert Known(scDBs, suites) == suites.Keys;
  }

  // ------------------------------------------------------------ sequential execution

  function CountTrue(results: seq<bool>): nat {
    if results == [] then 0 else CountTrue(results[..|results| - 1]) + if results[|results| - 1] then 1 else 0
  }

  /** What one turn of the outer loop meets: whether the stop flag is set when it begins, and if
      not, which suites succeed, in the order of the tasks. */
  datatype Pass = Pass(stopSeen: bool, results: seq<bool>)

  function Successes(script: seq<Pass>): nat {
    if script == [] then 0 else Successes(script[..|script| - 1]) + CountTrue(script[|script| - 1].results)
  }

  /** The positions of the successes: pass by pass, suite by suite. */
  function Succeeded(script: seq<Pass>): set<(nat, nat)> {
    set k: nat, j: nat | k < |script| && j < |script[k].results| && script[k].results[j] :: (k, j)
  }

  function TruePositions(results: seq<bool>): set<nat> {
    set j: nat | j < |results| && results[j]
  }

  lemma {:induction false} CountTrueIsSize(results: seq<bool>)
    ensures CountTrue(results) == |TruePositions(results)|
  {
    if results == [] {
    } else {
      var front, last := results[..|results| - 1], results[|results| - 1];
      CountTrueIsSize(front);
      assert TruePositions(results) == TruePositions(front) + if last then {|front|} else {};
    }
  }

  function Paired(k: nat, positions: set<nat>): set<(nat, nat)> {
    set j | j in positions :: (k, j)
  }

  lemma PairedMore(k: nat, positions: set<nat>, j: nat)
    requires j !in positions
    ensures Paired(k, positions + {j}) == Paired(k, positions) + {(k, j)} && (k, j) !in Paired(k, positions)
  {
  }

  lemma {:induction false} PairedSize(k: nat, positions: set<nat>)
    ensures |Paired(k, positions)| == |positions|
    decreases |positions|
  {
    if positions == {} {
      assert Paired(k, positions) == {};
    } else {
      var j :| j in positions;
      var rest := positions - {j};
      PairedSize(k, rest);
      PairedMore(k, rest, j);
      assert positions == rest + {j};
    }
  }

  lemma SucceededMore(script: seq<Pass>, pass: Pass)
    ensures Succeeded(script + [pass]) == Succeeded(script) + Paired(|script|, TruePositions(pass.results))
    ensures Succeeded(script) !! Paired(|script|, TruePositions(pass.results))
  {
    var all := script + [pass];
    forall k, j | (k, j) in Succeeded(all) ensures (k, j) in Succeeded(script) + Paired(|script|, TruePositions(pass.results)) {
      if k < |script| { assert all[k] == script[k]; }
    }
    forall k, j | (k, j) in Succeeded(script) ensures (k, j) in Succeeded(all) {
      assert all[k] == script[k];
    }
  }

  lemma SucceededSnoc(script: seq<Pass>, pass: Pass)
    ensures |Succeeded(script + [pass])| == |Succeeded(script)| + |TruePositions(pass.results)|
  {
    SucceededMore(script, pass);
    PairedSize(|script|, TruePositions(pass.results));
  }

  /** The success counter is the number of pairs of a pass and a suite that succeeded in it. */
  lemma {:induction false} SuccessesArePairs(script: seq<Pass>)
    ensures Successes(script) == |Succeeded(script)|
  {
    if script == [] {
      assert Succeeded(script) == {};
    } else {
      var front, last := script[..|script| - 1], script[|script| - 1];
      SuccessesArePairs(front);
      CountTrueIsSize(last.results);
      SucceededSnoc(front, last);
      assert script == front + [last];
    }
  }

  datatype End = AtLimit | AtStop | StillRunning

  class Runner {
    var succeededSuites: nat
    var iterationNum: int

    constructor (iterationNum: int)
      ensures this.iterationNum == iterationNum && succeededSuites == 0
    {
      this.iterationNum, this.succeededSuites := iterationNum, 0;
    }

    /** RunSuites in sequential mode against any finite script of passes. The run ends at the
        first pass that finds the stop flag set, or behind as many passes as the limit says. The counter
        is the number of the successes of the completed passes, and IterationNum is left at the limit
        or at one above the completed passes. It is one of the runs of the system below: that in
        which every suite is taken in turn and a true result is a counted success. */
    method RunSuites(scDBs: seq<string>, suites: Suites, script: seq<Pass>) returns (end: End, completed: nat)
      requires forall k :: 0 <= k < |script| ==> |script[k].results| == |Tasks(scDBs, suites)|
      modifies this
      ensures completed <= |script| && forall k :: 0 <= k < completed ==> !script[k].stopSeen
      ensures succeededSuites == |Succeeded(script[..completed])|
      ensures var s := Run(Init(|Tasks(scDBs, suites)|, old(iterationNum), true), ScriptMoves(script[..completed], end));
              && s.counter == succeededSuites && (Ended(s) ==> s.iter == iterationNum)
              && s.phase == (if end == AtLimit then ByLimit else if end == AtStop then ByStop else Top)
      ensures old(iterationNum) > 0 ==> completed <= old(iterationNum)
      ensures end == AtLimit <==> old(iterationNum) > 0 && completed == old(iterationNum)
      ensures end == AtStop ==> completed < |script| && script[completed].stopSeen
      ensures end == StillRunning ==> completed == |script|
      ensures iterationNum == (if end == AtLimit then completed else if end == AtStop then completed + 1 else old(iterationNum))
    {
      var iter;
      succeededSuites := 0;
      end, completed, iter := Loop(scDBs, suites, script);
      SuccessesArePairs(script[..completed]);
      ScriptEnds(|Tasks(scDBs, suites)|, iterationNum, true, script[..completed], end);
      if end != StillRunning {
        iterationNum := iter;
      }
    }

    /** The loop, up to where it is left. */
    method Loop(scDBs: seq<string>, suites: Suites, script: seq<Pass>) returns (end: End, completed: nat, iter: nat)
      requires forall k :: 0 <= k < |script| ==> |script[k].results| == |Tasks(scDBs, suites)|
      requires succeededSuites == 0
      modifies this`succeededSuites
      ensures completed <= |script| && forall k :: 0 <= k < completed ==> !script[k].stopSeen
      ensures succeededSuites == Successes(script[..completed])
      ensures iterationNum > 0 ==> completed <= iterationNum
      ensures end == AtLimit <==> iterationNum > 0 && completed == iterationNum
      ensures end == AtStop ==> completed < |script| && script[completed].stopSeen
      ensures end == StillRunning ==> completed == |script|
      ensures iter == if end == AtLimit then completed else completed + 1
    {
      iter := 1;
      completed := 0;
      while true
        invariant iter == completed + 1 && completed <= |script|
        invariant iterationNum > 0 ==> completed < iterationNum
        invariant forall k :: 0 <= k < completed ==> !script[k].stopSeen
        invariant succeededSuites == Successes(script[..completed])
        decreases |script| - completed
      {
        if completed == |script| {
          return StillRunning, completed, iter;
        }
        if script[completed].stopSeen {
          return AtStop, completed, iter;
        }
        ExecuteAll(scDBs, suites, script[completed].results);
        assert script[..completed + 1][..completed] == script[..completed];
        completed := completed + 1;
        if iterationNum > 0 && iter >= iterationNum {
          return AtLimit, completed, iter;
        }
        iter := iter + 1;
      }
    }

    method ExecuteAll(scDBs: seq<string>, suites: Suites, results: seq<bool>)
      requires |results| == |Tasks(scDBs, suites)|
      modifies this`succeededSuites
      ensures succeededSuites == old(succeededSuites) + CountTrue(results)
    {
      var at := 0;
      for i := 0 to |scDBs|
        invariant at == |Tasks(scDBs[..i], suites)| <= |results|
        invariant succeededSuites == old(succeededSuites) + CountTrue(results[..at])
      {
        var size := SizeOf(suites, scDBs[i]);
        TasksOfMore(scDBs, suites, i);
        TasksGrow(scDBs, suites, i + 1);
        ExecuteClass(results, at, size);
        at := at + size;
      }
      assert scDBs[..|scDBs|] == scDBs && results[..at] == results;
    }

    /** The suites of one storage class, whose results start at first. */
    method ExecuteClass(results: seq<bool>, first: nat, size: nat)
      requires first + size <= |results|
      modifies this`succeededSuites
      ensures succeededSuites == old(succeededSuites) - CountTrue(results[..first]) + CountTrue(results[..first + size])
    {
      for j := 0 to size
        invariant succeededSuites == old(succeededSuites) - CountTrue(results[..first]) + CountTrue(results[..first + j])
      {
        assert results[..first + j + 1][..first + j] == results[..first + j];
        if results[first + j] {
          succeededSuites := succeededSuites + 1;
        }
      }
    }
  }

  lemma TasksOfMore(scDBs: seq<string>, suites: Suites, i: nat)
    requires i < |scDBs|
    ensures |Tasks(scDBs[..i + 1], suites)| == |Tasks(scDBs[..i], suites)| + SizeOf(suites, scDBs[i])
  {
    assert scDBs[..i + 1][..i] == scDBs[..i];
    TasksOfAre(scDBs[i], SizeOf(suites, scDBs[i]));
  }

  lemma {:induction false} TasksGrow(scDBs: seq<string>, suites: Suites, i: nat)
    requires i <= |scDBs|
    ensures |Tasks(scDBs[..i], suites)| <= |Tasks(scDBs, suites)|
    decreases |scDBs| - i
  {
    if i < |scDBs| {
      assert scDBs[..i + 1][..i] == scDBs[..i];
      TasksGrow(scDBs, suites, i + 1);
    } else {
      assert scDBs[..i] == scDBs;
    }
  }

  // ------------------------------------------------------------ interleaved execution

  /** A suite that succeeded reads the shared counter and then writes it back plus one. */
  datatype TaskState = Pending | Running | HasRead(seen: nat) | Finished

  datatype Phase = Top | Executing | ByStop | ByLimit

  /** counter is SucceededSuites; executed and successes are what really happened. */
  datatype Sys = Sys(
    limit: int, sequential: bool,
    phase: Phase, iter: nat, stop: bool,
    tasks: seq<TaskState>, counter: nat,
    executed: seq<nat>, successes: nat)

  datatype Move =
    | SetStop
    | LoopTop
    | Start(i: nat)
    | Fail(i: nat)
    | ReadCounter(i: nat)
    | WriteCounter(i: nat)
    | EndIteration

  function Repeat<T>(n: nat, x: T): (r: seq<T>)
    ensures |r| == n && forall i :: 0 <= i < n ==> r[i] == x
  {
    if n == 0 then [] else Repeat(n - 1, x) + [x]
  }

  function Init(n: nat, limit: int, sequential: bool): Sys {
    Sys(limit, sequential, Top, 1, false, Repeat(n, Pending), 0, Repeat(n, 0), 0)
  }

  predicate AllFinished(tasks: seq<TaskState>) {
    forall i :: 0 <= i < |tasks| ==> tasks[i] == Finished
  }

  predicate Enabled(s: Sys, m: Move) {
    match m
    case SetStop => true
    case LoopTop => s.phase == Top
    case Start(i) =>
      && s.phase == Executing && i < |s.tasks| && s.tasks[i] == Pending
      && (s.sequential ==> forall j :: 0 <= j < i ==> s.tasks[j] == Finished)
    case Fail(i) => s.phase == Executing && i < |s.tasks| && s.tasks[i] == Running
    case ReadCounter(i) => s.phase == Executing && i < |s.tasks| && s.tasks[i] == Running
    case WriteCounter(i) => s.phase == Executing && i < |s.tasks| && s.tasks[i].HasRead?
    case EndIteration => s.phase == Executing && AllFinished(s.tasks)
  }

  function Next(s: Sys, m: Move): Sys
    requires Enabled(s, m) && |s.executed| == |s.tasks|
  {
    match m
    case SetStop => s.(stop := true)
    case LoopTop =>
      if s.stop then s.(phase := ByStop)
      else s.(phase := Executing, tasks := Repeat(|s.tasks|, Pending))
    case Start(i) => s.(tasks := s.tasks[i := Running])
    case Fail(i) => s.(tasks := s.tasks[i := Finished], executed := s.executed[i := s.executed[i] + 1])
    case ReadCounter(i) => s.(tasks := s.tasks[i := HasRead(s.counter)])
    case WriteCounter(i) =>
      s.(tasks := s.tasks[i := Finished], counter := s.tasks[i].seen + 1,
         executed := s.executed[i := s.executed[i] + 1], successes := s.successes + 1)
    case EndIteration =>
      if s.limit > 0 && s.iter >= s.limit then s.(phase := ByLimit)
      else s.(phase := Top, iter := s.iter + 1)
  }

  function Run(s: Sys, moves: seq<Move>): Sys {
    if moves == [] then s else Turn(Run(s, moves[..|moves| - 1]), moves[|moves| - 1])
  }

  function Turn(s: Sys, m: Move): Sys {
    if |s.executed| == |s.tasks| && Enabled(s, m) then Next(s, m) else s
  }

  /** Iterations that were completed. */
  function Completed(s: Sys): int {
    if s.phase == ByLimit then s.iter else s.iter - 1
  }

  function FinishedIn(tasks: seq<TaskState>): nat {
    if tasks == [] then 0
    else FinishedIn(tasks[..|tasks| - 1]) + if tasks[|tasks| - 1] == Finished then 1 else 0
  }

  lemma {:induction false} FinishedUpdate(tasks: seq<TaskState>, i: nat, t: TaskState)
    requires i < |tasks|
    ensures FinishedIn(tasks[i := t])
         == FinishedIn(tasks) - (if tasks[i] == Finished then 1 else 0) + (if t == Finished then 1 else 0)
  {
    var front := tasks[..|tasks| - 1];
    if i == |tasks| - 1 {
      assert tasks[i := t][..|tasks| - 1] == front;
    } else {
      FinishedUpdate(front, i, t);
      assert tasks[i := t][..|tasks| - 1] == front[i := t];
    }
  }

  lemma {:induction false} FinishedAll(tasks: seq<TaskState>)
    ensures FinishedIn(tasks) <= |tasks|
    ensures AllFinished(tasks) ==> FinishedIn(tasks) == |tasks|
    ensures (forall i :: 0 <= i < |tasks| ==> tasks[i] == Pending) ==> FinishedIn(tasks) == 0
  {
    if tasks == [] {
    } else {
      FinishedAll(tasks[..|tasks| - 1]);
    }
  }

  /** Executions that count for the iteration under way. */
  function Partial(s: Sys): nat {
    if s.phase == Executing then FinishedIn(s.tasks) else 0
  }

  predicate Counted(s: Sys) {
    && s.iter >= 1 && |s.executed| == |s.tasks| && (s.limit > 0 ==> s.iter <= s.limit)
    && (s.phase == ByLimit ==> s.limit > 0 && s.iter == s.limit)
    && (forall i :: 0 <= i < |s.tasks| ==>
          s.executed[i] == Completed(s) + if s.phase == Executing && s.tasks[i] == Finished then 1 else 0)
    && s.successes <= Completed(s) * |s.tasks| + Partial(s)
  }

  /** No reading of the counter, stored or pending, exceeds the true number of successes. */
  predicate NeverTooMany(s: Sys) {
    s.counter <= s.successes && forall i :: 0 <= i < |s.tasks| && s.tasks[i].HasRead? ==> s.tasks[i].seen <= s.successes
  }

  lemma NextNeverTooMany(s: Sys, m: Move)
    requires |s.executed| == |s.tasks| && Enabled(s, m) && NeverTooMany(s)
    ensures NeverTooMany(Next(s, m))
  {
  }

  lemma FinishKeepsCounted(s: Sys, i: nat, t: Sys)
    requires Counted(s) && s.phase == Executing && i < |s.tasks| && s.tasks[i] != Finished
    requires t == s.(tasks := s.tasks[i := Finished], executed := s.executed[i := s.executed[i] + 1],
                     counter := t.counter, successes := t.successes)
    requires t.successes <= s.successes + 1
    ensures Counted(t)
  {
    FinishedUpdate(s.tasks, i, Finished);
  }

  lemma WorkKeepsCounted(s: Sys, i: nat, t: TaskState)
    requires Counted(s) && s.phase == Executing && i < |s.tasks| && s.tasks[i] != Finished && t != Finished
    ensures Counted(s.(tasks := s.tasks[i := t]))
  {
    FinishedUpdate(s.tasks, i, t);
  }

  lemma TopKeepsCounted(s: Sys)
    requires Counted(s) && s.phase == Top
    ensures Counted(Next(s, LoopTop))
  {
    FinishedAll(Repeat(|s.tasks|, Pending));
  }

  lemma OneIterationMore(k: nat, n: nat)
    ensures (k + 1) * n == k * n + n
  {
  }

  lemma EndKeepsCounted(s: Sys)
    requires Counted(s) && Enabled(s, EndIteration)
    ensures Counted(Next(s, EndIteration))
  {
    FinishedAll(s.tasks);
    OneIterationMore(s.iter - 1, |s.tasks|);
  }

  lemma NextKeepsCounted(s: Sys, m: Move)
    requires Counted(s) && Enabled(s, m)
    ensures Counted(Next(s, m))
  {
    match m
    case SetStop =>
    case LoopTop => TopKeepsCounted(s);
    case Start(i) => WorkKeepsCounted(s, i, Running);
    case ReadCounter(i) => WorkKeepsCounted(s, i, HasRead(s.counter));
    case Fail(i) => FinishKeepsCounted(s, i, Next(s, m));
    case WriteCounter(i) => FinishKeepsCounted(s, i, Next(s, m));
    case EndIteration => EndKeepsCounted(s);
  }

  /** In sequential mode at most one suite is under way, so no update of the counter is lost. */
  predicate OneAtATime(s: Sys) {
    && s.counter == s.successes
    && (forall i, j :: 0 <= i < j < |s.tasks| && s.tasks[i] != Finished ==> s.phase == Executing ==> s.tasks[j] == Pending)
    && (forall i :: 0 <= i < |s.tasks| && s.tasks[i].HasRead? && s.phase == Executing ==> s.tasks[i].seen == s.counter)
  }

  lemma NextOneAtATime(s: Sys, m: Move)
    requires s.sequential && |s.executed| == |s.tasks| && Enabled(s, m) && OneAtATime(s)
    ensures OneAtATime(Next(s, m))
  {
  }

  lemma {:induction false} RunIsCounted(n: nat, limit: int, sequential: bool, moves: seq<Move>)
    ensures var s := Run(Init(n, limit, sequential), moves);
            && |s.tasks| == n && s.limit == limit && s.sequential == sequential
            && Counted(s) && NeverTooMany(s) && (sequential ==> OneAtATime(s))
  {
    if moves == [] {
      FinishedAll(Init(n, limit, sequential).tasks);
    } else {
      RunIsCounted(n, limit, sequential, moves[..|moves| - 1]);
      var s, m := Run(Init(n, limit, sequential), moves[..|moves| - 1]), moves[|moves| - 1];
      if Enabled(s, m) {
        NextKeepsCounted(s, m);
        NextNeverTooMany(s, m);
        if sequential { NextOneAtATime(s, m); }
      }
    }
  }

  /** A run that ends at its iteration limit executed every suite exactly that often, in every
      interleaving. */
  lemma LimitExecutesEachSuite(n: nat, limit: int, sequential: bool, moves: seq<Move>)
    requires Run(Init(n, limit, sequential), moves).phase == ByLimit
    ensures var s := Run(Init(n, limit, sequential), moves);
            limit > 0 && s.iter == limit && |s.executed| == n && forall i :: 0 <= i < n ==> s.executed[i] == limit
  {
    RunIsCounted(n, limit, sequential, moves);
  }

  /** What the deferred function reports: the counter over all suites times IterationNum, which is
      iter by then. */
  function Ratio(s: Sys, total: nat): real
    requires total > 0 && s.iter > 0
  {
    s.counter as real / (total * s.iter) as real
  }

  const THRESHOLD: real := 0.9

  predicate Ended(s: Sys) {
    s.phase == ByLimit || s.phase == ByStop
  }

  /** At every stop point of every interleaving of n suites the reported ratio is at most the true
      successes over the same denominator, and in sequential mode equal to that; if no more suites
      are executed than counted, both lie between 0 and 1. */
  lemma RatioNeverOverstates(n: nat, total: nat, limit: int, sequential: bool, moves: seq<Move>)
    requires total > 0 && Ended(Run(Init(n, limit, sequential), moves))
    ensures var s := Run(Init(n, limit, sequential), moves);
            && s.iter > 0
            && 0.0 <= Ratio(s, total) <= s.successes as real / (total * s.iter) as real
            && (sequential ==> Ratio(s, total) == s.successes as real / (total * s.iter) as real)
            && (n <= total ==> s.successes as real / (total * s.iter) as real <= 1.0)
  {
    RunIsCounted(n, limit, sequential, moves);
    var s := Run(Init(n, limit, sequential), moves);
    MulMono(Completed(s), s.iter, n);
    if n <= total { MulMono(n, total, s.iter); }
    Bounds(s.counter, s.successes, total * s.iter);
  }

  lemma MulMono(a: int, b: int, n: nat)
    requires a <= b
    ensures a * n <= b * n == n * b
  {
  }

  lemma Bounds(a: nat, b: nat, c: nat)
    requires a <= b && c > 0
    ensures 0.0 <= a as real / c as real <= b as real / c as real
    ensures b <= c ==> b as real / c as real <= 1.0
  {
    QuotientOrder(a as real, b as real, c as real);
    if b <= c { QuotientOrder(b as real, c as real, c as real); }
    QuotientOrder(0.0, a as real, c as real);
  }

  lemma QuotientOrder(a: real, b: real, c: real)
    requires a <= b && c > 0.0
    ensures a / c <= b / c && c / c == 1.0 && 0.0 / c == 0.0
  {
  }

  /** Stopping leaves iter one above the completed iterations, so a stopped run can report more
      than the threshold only after ten of them, however well its suites did. */
  lemma StoppedRunNeedsTenIterations(n: nat, limit: int, sequential: bool, moves: seq<Move>)
    requires n > 0 && Run(Init(n, limit, sequential), moves).phase == ByStop
    ensures var s := Run(Init(n, limit, sequential), moves);
            && s.iter == Completed(s) + 1 > 0
            && (Ratio(s, n) > THRESHOLD ==> Completed(s) >= 10)
            && (s.counter == Completed(s) * n ==> (Ratio(s, n) > THRESHOLD <==> Completed(s) >= 10))
  {
    RunIsCounted(n, limit, sequential, moves);
    var s := Run(Init(n, limit, sequential), moves);
    StoppedAbove(s.counter, s.iter - 1, n);
  }

  lemma StoppedAbove(c: nat, k: nat, n: nat)
    requires n > 0 && c <= k * n
    ensures n * (k + 1) > 0
    ensures c as real / (n * (k + 1)) as real > THRESHOLD ==> k >= 10
    ensures c == k * n ==> (c as real / (n * (k + 1)) as real > THRESHOLD <==> k >= 10)
  {
    assert n * (k + 1) == k * n + n;
    RatioAbove(c, n * (k + 1));
    MulOrder(k, 9, n);
  }

  lemma RatioAbove(c: nat, d: nat)
    requires d > 0
    ensures c as real / d as real > THRESHOLD <==> 10 * c > 9 * d
  {
    var q := c as real / d as real;
    assert q * d as real == c as real;
    if q > THRESHOLD { assert q * d as real > THRESHOLD * d as real; }
    if 10 * c > 9 * d { assert c as real > THRESHOLD * d as real; }
  }

  lemma MulOrder(a: int, b: int, n: nat)
    requires n > 0
    ensures a * n > b * n <==> a > b
  {
    if a > b {
      MulMono(b + 1, a, n);
      assert (b + 1) * n == b * n + n;
    } else {
      MulMono(a, b, n);
    }
  }

  lemma QuotientAboveOne(a: real, b: real)
    requires a > b > 0.0
    ensures a / b > 1.0
  {
    assert a / b * b == a;
  }

  // ---------------------------------------------- sequential execution is one of the runs

  /** A suite that succeeds reads and writes the counter, one that fails does not. */
  function TaskMoves(i: nat, success: bool): seq<Move> {
    if success then [Start(i), ReadCounter(i), WriteCounter(i)] else [Start(i), Fail(i)]
  }

  function ResultMoves(results: seq<bool>): seq<Move> {
    if results == [] then []
    else ResultMoves(results[..|results| - 1]) + TaskMoves(|results| - 1, results[|results| - 1])
  }

  function PassesMoves(script: seq<Pass>): seq<Move> {
    if script == [] then []
    else PassesMoves(script[..|script| - 1]) + ([LoopTop] + ResultMoves(script[|script| - 1].results) + [EndIteration])
  }

  /** All passes, and the flag set behind them if it ends them. */
  function ScriptMoves(script: seq<Pass>, end: End): seq<Move> {
    PassesMoves(script) + if end == AtStop then [SetStop, LoopTop] else []
  }

  lemma {:induction false} RunAppend(s: Sys, moves: seq<Move>, more: seq<Move>)
    ensures Run(s, moves + more) == Run(Run(s, moves), more)
  {
    if more == [] {
      assert moves + more == moves;
    } else {
      var front, last := more[..|more| - 1], more[|more| - 1];
      RunAppend(s, moves, front);
      RunAppendOne(s, moves, front, last);
      assert more == front + [last];
    }
  }

  lemma RunAppendOne(s: Sys, moves: seq<Move>, front: seq<Move>, last: Move)
    requires Run(s, moves + front) == Run(Run(s, moves), front)
    ensures Run(s, moves + (front + [last])) == Run(Run(s, moves), front + [last])
  {
    RunSnoc(s, moves + front, last);
    RunSnoc(Run(s, moves), front, last);
    assert moves + (front + [last]) == moves + front + [last];
  }

  lemma RunSnoc(s: Sys, moves: seq<Move>, m: Move)
    ensures Run(s, moves + [m]) == Turn(Run(s, moves), m)
  {
    assert (moves + [m])[..|moves|] == moves;
  }

  lemma RunsTwo(s: Sys, m: Move, n: Move)
    ensures Run(s, [m]) == Turn(s, m) && Run(s, [m, n]) == Turn(Turn(s, m), n)
  {
    assert [m][..0] == [] && [m, n][..1] == [m];
  }

  lemma RunsThree(s: Sys, m: Move, n: Move, o: Move)
    ensures Run(s, [m, n, o]) == Turn(Turn(Turn(s, m), n), o)
  {
    RunsTwo(s, m, n);
    assert [m, n, o][..2] == [m, n];
  }

  /** t is s with some more counted successes, in the same iteration. */
  predicate Advanced(s: Sys, t: Sys, more: nat) {
    && t.counter == s.counter + more && t.iter == s.iter && t.stop == s.stop
    && t.limit == s.limit && t.sequential == s.sequential
    && |t.tasks| == |s.tasks| == |t.executed|
  }

  predicate DoneUpTo(s: Sys, k: nat) {
    && s.phase == Executing && k <= |s.tasks| == |s.executed|
    && (forall i :: 0 <= i < k ==> s.tasks[i] == Finished) && (forall i :: k <= i < |s.tasks| ==> s.tasks[i] == Pending)
  }

  predicate BetweenIterations(s: Sys) {
    s.phase == Top && !s.stop && |s.executed| == |s.tasks|
  }

  lemma TaskRuns(s: Sys, k: nat, success: bool)
    requires DoneUpTo(s, k) && k < |s.tasks|
    ensures var t := Run(s, TaskMoves(k, success)); DoneUpTo(t, k + 1) && Advanced(s, t, if success then 1 else 0)
  {
    if success {
      RunsThree(s, Start(k), ReadCounter(k), WriteCounter(k));
      SuccessTurns(s, k);
    } else {
      RunsTwo(s, Start(k), Fail(k));
      FailureTurns(s, k);
    }
  }

  lemma SuccessTurns(s: Sys, k: nat)
    requires DoneUpTo(s, k) && k < |s.tasks|
    ensures var t := Turn(Turn(Turn(s, Start(k)), ReadCounter(k)), WriteCounter(k)); DoneUpTo(t, k + 1) && Advanced(s, t, 1)
  {
  }

  lemma FailureTurns(s: Sys, k: nat)
    requires DoneUpTo(s, k) && k < |s.tasks|
    ensures var t := Turn(Turn(s, Start(k)), Fail(k)); DoneUpTo(t, k + 1) && Advanced(s, t, 0)
  {
  }

  lemma {:induction false} ResultsRun(s: Sys, results: seq<bool>)
    requires DoneUpTo(s, 0) && |results| <= |s.tasks|
    ensures var t := Run(s, ResultMoves(results)); DoneUpTo(t, |results|) && Advanced(s, t, CountTrue(results))
  {
    if results == [] {
    } else {
      var front := results[..|results| - 1];
      ResultsRun(s, front);
      TaskRuns(Run(s, ResultMoves(front)), |front|, results[|front|]);
      RunAppend(s, ResultMoves(front), TaskMoves(|front|, results[|front|]));
    }
  }

  /** One pass of the loop: all suites are executed, and the iteration is ended. */
  lemma PassRuns(s: Sys, results: seq<bool>)
    requires BetweenIterations(s) && |results| == |s.tasks|
    ensures var t := Run(s, [LoopTop] + ResultMoves(results) + [EndIteration]);
            && t.counter == s.counter + CountTrue(results) && |t.tasks| == |t.executed| == |s.tasks| && t.limit == s.limit
            && (if s.limit > 0 && s.iter >= s.limit then t.phase == ByLimit && t.iter == s.iter
                else BetweenIterations(t) && t.iter == s.iter + 1)
  {
    RunsTwo(s, LoopTop, LoopTop);
    var s1 := Turn(s, LoopTop);
    ResultsRun(s1, results);
    RunAppend(s, [LoopTop], ResultMoves(results));
    RunAppend(s, [LoopTop] + ResultMoves(results), [EndIteration]);
    var s2 := Run(s1, ResultMoves(results));
    RunsTwo(s2, EndIteration, EndIteration);
  }

  /** The passes of a script are a run of the system, in either mode, in which every true result is a counted
      success; it is at its limit exactly if that many passes are completed. */
  lemma {:induction false} ScriptRuns(n: nat, limit: int, sequential: bool, script: seq<Pass>)
    requires forall k :: 0 <= k < |script| ==> |script[k].results| == n
    requires limit > 0 ==> |script| <= limit
    ensures var s := Run(Init(n, limit, sequential), PassesMoves(script));
            && PassesMoves(script) == ScriptMoves(script, AtLimit) == ScriptMoves(script, StillRunning)
            && s.counter == Successes(script) && |s.tasks| == |s.executed| == n && s.limit == limit
            && (if limit > 0 && |script| == limit then s.phase == ByLimit && s.iter == |script|
                else BetweenIterations(s) && s.iter == |script| + 1)
  {
    if script == [] {
    } else {
      var front, last := script[..|script| - 1], script[|script| - 1];
      ScriptRuns(n, limit, sequential, front);
      var s := Run(Init(n, limit, sequential), PassesMoves(front));
      PassRuns(s, last.results);
      RunAppend(Init(n, limit, sequential), PassesMoves(front), [LoopTop] + ResultMoves(last.results) + [EndIteration]);
    }
  }

  lemma StoppedScriptRuns(n: nat, limit: int, sequential: bool, script: seq<Pass>)
    requires forall k :: 0 <= k < |script| ==> |script[k].results| == n
    requires limit > 0 ==> |script| < limit
    ensures var s := Run(Init(n, limit, sequential), ScriptMoves(script, AtStop));
            s.counter == Successes(script) && s.phase == ByStop && s.iter == |script| + 1
  {
    ScriptRuns(n, limit, sequential, script);
    var s := Run(Init(n, limit, sequential), PassesMoves(script));
    RunsTwo(s, SetStop, LoopTop);
    RunAppend(Init(n, limit, sequential), PassesMoves(script), [SetStop, LoopTop]);
  }

  lemma ScriptEnds(n: nat, limit: int, sequential: bool, script: seq<Pass>, end: End)
    requires forall k :: 0 <= k < |script| ==> |script[k].results| == n
    requires limit > 0 ==> |script| <= limit
    requires end == AtLimit <==> limit > 0 && |script| == limit
    ensures var s := Run(Init(n, limit, sequential), ScriptMoves(script, end));
            && s.counter == Successes(script)
            && (end == AtLimit ==> s.phase == ByLimit && s.iter == |script|)
            && (end == AtStop ==> s.phase == ByStop && s.iter == |script| + 1)
            && (end == StillRunning ==> s.phase == Top)
  {
    if end == AtStop { StoppedScriptRuns(n, limit, sequential, script); } else { ScriptRuns(n, limit, sequential, script); }
  }

  // --------------------------------------------------------- runs whose suites all succeed

  /** k passes in which all n suites succeed. */
  function AllSucceed(n: nat, k: nat): seq<Pass> {
    Repeat(k, Pass(false, Repeat(n, true)))
  }

  lemma {:induction false} AllTrue(n: nat)
    ensures CountTrue(Repeat(n, true)) == n
  {
    if n > 0 {
      AllTrue(n - 1);
      assert Repeat(n, true)[..n - 1] == Repeat(n - 1, true);
    }
  }

  lemma {:induction false} AllCounted(n: nat, k: nat)
    ensures Successes(AllSucceed(n, k)) == k * n
  {
    if k == 0 {
    } else {
      AllCounted(n, k - 1);
      AllTrue(n);
      assert AllSucceed(n, k)[..k - 1] == AllSucceed(n, k - 1);
      OneIterationMore(k - 1, n);
    }
  }

  lemma RunToLimit(n: nat, limit: nat, sequential: bool) returns (moves: seq<Move>)
    requires limit > 0
    ensures var s := Run(Init(n, limit, sequential), moves);
            s.phase == ByLimit && s.iter == limit && s.counter == limit * n
  {
    moves := PassesMoves(AllSucceed(n, limit));
    ScriptRuns(n, limit, sequential, AllSucceed(n, limit));
    AllCounted(n, limit);
  }

  lemma RunToStop(n: nat, limit: int, sequential: bool, k: nat) returns (moves: seq<Move>)
    requires limit <= 0
    ensures var s := Run(Init(n, limit, sequential), moves);
            s.phase == ByStop && s.iter == k + 1 && s.counter == k * n
  {
    moves := ScriptMoves(AllSucceed(n, k), AtStop);
    StoppedScriptRuns(n, limit, sequential, AllSucceed(n, k));
    AllCounted(n, k);
  }

  /** One suite, one iteration completed with success, then the stop flag: the run reports a half. */
  lemma StoppedRunUnderstates(sequential: bool) returns (moves: seq<Move>)
    ensures var s := Run(Init(1, -1, sequential), moves);
            s.phase == ByStop && s.iter > 0 && Completed(s) == 1 && s.counter == 1 && Ratio(s, 1) == 0.5
  {
    moves := RunToStop(1, -1, sequential, 1);
  }

  /** If more suites are executed than counted, some run reports more than 1. */
  lemma SomeRatioAboveOne(n: nat, total: nat, limit: int, sequential: bool) returns (moves: seq<Move>)
    requires n > total > 0
    ensures var s := Run(Init(n, limit, sequential), moves);
            Ended(s) && s.iter > 0 && Ratio(s, total) > 1.0
  {
    if limit > 0 {
      moves := RunToLimit(n, limit, sequential);
      MoreThanCounted(n, total, limit, limit);
      QuotientAboveOne((limit * n) as real, (total * limit) as real);
    } else {
      moves := RunToStop(n, limit, sequential, total + 1);
      MoreThanCounted(n, total, total + 1, total + 2);
      QuotientAboveOne(((total + 1) * n) as real, (total * (total + 2)) as real);
    }
  }

  lemma MoreThanCounted(n: nat, total: nat, completed: nat, iter: nat)
    requires n > total > 0 && completed > 0 && (iter == completed || (completed == total + 1 && iter == total + 2))
    ensures completed * n > total * iter > 0
  {
    MulMono(total + 1, n, completed);
    assert (total + 1) * completed == total * completed + completed;
    assert total * (total + 2) == total * (total + 1) + total;
  }

  /** The reported ratio is at most 1 in every interleaving and at every stop point, for any limit and
      mode, if and only if no more suites are executed than counted. */
  lemma RatioWithinOneIff(n: nat, total: nat, limit: int, sequential: bool)
    requires total > 0
    ensures (forall moves :: Ended(Run(Init(n, limit, sequential), moves)) ==>
               Run(Init(n, limit, sequential), moves).iter > 0 && Ratio(Run(Init(n, limit, sequential), moves), total) <= 1.0)
       <==> n <= total
  {
    if n <= total {
      forall moves | Ended(Run(Init(n, limit, sequential), moves))
        ensures Run(Init(n, limit, sequential), moves).iter > 0 && Ratio(Run(Init(n, limit, sequential), moves), total) <= 1.0
      {
        RatioNeverOverstates(n, total, limit, sequential, moves);
      }
    } else {
      var moves := SomeRatioAboveOne(n, total, limit, sequential);
    }
  }

  /** So, with the classes exactly the map keys, the ratio stays within 1 in every interleaving if and
      only if no class with suites is listed twice. */
  lemma RatioWithinOneIffNoneTwice(scDBs: seq<string>, suites: Suites, limit: int, sequential: bool)
    requires (forall sc :: sc in scDBs <==> sc in suites) && CountedTotal(suites) > 0
    ensures (forall moves :: Ended(Run(Init(|Tasks(scDBs, suites)|, limit, sequential), moves)) ==>
               Run(Init(|Tasks(scDBs, suites)|, limit, sequential), moves).iter > 0
               && Ratio(Run(Init(|Tasks(scDBs, suites)|, limit, sequential), moves), CountedTotal(suites)) <= 1.0)
       <==> NoneTwice(scDBs, suites)
  {
    ExecutedIsCountedIffNoneTwice(scDBs, suites);
    RatioWithinOneIff(|Tasks(scDBs, suites)|, CountedTotal(suites), limit, sequential);
  }

  lemma OneClassTwice()
    ensures |Tasks(["sc", "sc"], map["sc" := 1])| == 2 && CountedTotal(map["sc" := 1]) == 1
  {
    var suites: Suites := map["sc" := 1];
    TasksOfAre("sc", 1);
    assert ["sc", "sc"][..1] == ["sc"] && ["sc"][..0] == [];
    assert |Tasks(["sc"], suites)| == 1;
    CountedWithout(suites.Keys, suites, "sc");
    assert suites.Keys - {"sc"} == {};
  }

  /** One class with one suite, listed twice: one iteration reports 2. */
  lemma RepeatedClassOverstates(sequential: bool) returns (moves: seq<Move>)
    ensures var scDBs, suites := ["sc", "sc"], map["sc" := 1];
            var s := Run(Init(|Tasks(scDBs, suites)|, 1, sequential), moves);
            Ended(s) && CountedTotal(suites) == 1 && s.iter > 0 && Ratio(s, 1) == 2.0
  {
    OneClassTwice();
    moves := RunToLimit(2, 1, sequential);
  }
}
