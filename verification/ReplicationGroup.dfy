/** Failover and reprotect actions on a replication group (pkg/k8sclient/resources/replicationgroup/rg.go). */
module ReplicationGroup {
  import opened Text

  function PreState(action: string, driver: string): string {
    if action == "FAILOVER_REMOTE" || action == "FAILOVER_LOCAL" then "SYNCHRONIZED"
    else if Contains(action, "REPROTECT") then
      if Contains(driver, "powermax") then "SUSPENDED" else "FAILEDOVER"
    else "SYNCHRONIZED"
  }

  function PostState(action: string, driver: string): string {
    if action == "FAILOVER_REMOTE" || action == "FAILOVER_LOCAL" then
      if Contains(driver, "powermax") then "SUSPENDED" else "FAILEDOVER"
    else if Contains(action, "REPROTECT") then "SYNCHRONIZED"
    else "SYNCHRONIZED"
  }

  /** One poll of the wait: the context was cancelled, or a state was read. */
  datatype Poll = Cancelled | Read(state: string)

  datatype Outcome = Reached | Interrupted | TimedOut | UpdateFailed

  /** What stablelize makes of the polls the timeout allows. */
  function Stabilized(polls: seq<Poll>, expected: string): Outcome {
    if polls == [] then TimedOut
    else if polls[0] == Cancelled then Interrupted
    else if polls[0].state == expected then Reached
    else Stabilized(polls[1..], expected)
  }

  predicate Observed(polls: seq<Poll>, expected: string) {
    exists k :: 0 <= k < |polls| && polls[k] == Read(expected) && forall j :: 0 <= j < k ==> polls[j] != Cancelled
  }

  /** The wait succeeds exactly if the expected state is read before a cancellation. */
  lemma {:induction false} ReachedIffObserved(polls: seq<Poll>, expected: string)
    ensures Stabilized(polls, expected) == Reached <==> Observed(polls, expected)
  {
    if polls == [] {
    } else {
      var rest := polls[1..];
      ReachedIffObserved(rest, expected);
      if polls[0] != Cancelled && Observed(rest, expected) {
        var k :| 0 <= k < |rest| && rest[k] == Read(expected) && forall j :: 0 <= j < k ==> rest[j] != Cancelled;
        assert polls[k + 1] == Read(expected);
        assert forall j :: 0 < j < k + 1 ==> polls[j] == rest[j - 1];
      }
      if Observed(polls, expected) && polls[0] != Read(expected) {
        var k :| 0 <= k < |polls| && polls[k] == Read(expected) && forall j :: 0 <= j < k ==> polls[j] != Cancelled;
        assert rest[k - 1] == Read(expected);
        assert forall j :: 0 <= j < k - 1 ==> rest[j] == polls[j + 1];
      }
    }
  }

  class RG {
    const driver: string
    var action: string            // rg.Object.Spec.Action
    var submitted: seq<string>    // the actions passed to Update, in order

    constructor (driver: string)
      ensures this.driver == driver && submitted == [] && action == ""
    {
      this.driver, this.action, this.submitted := driver, "", [];
    }

    method Stabilize(action: string, expected: string, polls: seq<Poll>) returns (r: Outcome)
      modifies this`action
      ensures this.action == action
      ensures r == Stabilized(polls, expected)
    {
      this.action := action;
      var i := 0;
      while i < |polls|
        invariant 0 <= i <= |polls|
        invariant Stabilized(polls, expected) == Stabilized(polls[i..], expected)
      {
        if polls[i] == Cancelled {
          return Interrupted;
        }
        if polls[i].state == expected {
          return Reached;
        }
        assert polls[i..][1..] == polls[i + 1..];
        i := i + 1;
      }
      assert polls[i..] == [];
      return TimedOut;
    }

    /** ExecuteAction, with what the polls before and after the update read and whether Update
        succeeds. The action is submitted only after its pre-state was observed. */
    method ExecuteAction(action: string, before: seq<Poll>, updateSucceeds: bool, after: seq<Poll>) returns (r: Outcome)
      modifies this
      ensures this.action == action
      ensures submitted == if Observed(before, PreState(action, driver)) then old(submitted) + [action] else old(submitted)
      ensures r == Reached <==>
                && Observed(before, PreState(action, driver)) && updateSucceeds && Observed(after, PostState(action, driver))
      ensures r == Executed(action, driver, before, updateSucceeds, after)
    {
      ReachedIffObserved(before, PreState(action, driver));
      ReachedIffObserved(after, PostState(action, driver));
      r := Stabilize(action, PreState(action, driver), before);
      if r != Reached {
        return;
      }
      this.action := action;
      submitted := submitted + [action];
      if !updateSucceeds {
        return UpdateFailed;
      }
      r := Stabilize(action, PostState(action, driver), after);
    }
  }

  function Executed(action: string, driver: string, before: seq<Poll>, updateSucceeds: bool, after: seq<Poll>): Outcome {
    var first := Stabilized(before, PreState(action, driver));
    if first != Reached then first
    else if !updateSucceeds then UpdateFailed
    else Stabilized(after, PostState(action, driver))
  }

  // ------------------------------------------------------------------ chains of actions

  predicate IsFailover(action: string) {
    action == "FAILOVER_REMOTE" || action == "FAILOVER_LOCAL"
  }

  predicate IsReprotect(action: string) {
    !IsFailover(action) && Contains(action, "REPROTECT")
  }

  /** What a cluster lets one action see: while nothing is submitted the state does not change;
      after a submission it reaches the desired state in the end, through any others. */
  datatype Execution = Execution(action: string, before: seq<Poll>, after: seq<Poll>)

  predicate Steady(polls: seq<Poll>, state: string) {
    polls != [] && forall k :: 0 <= k < |polls| ==> polls[k] == Read(state)
  }

  predicate Arrives(polls: seq<Poll>, state: string) {
    polls != [] && polls[|polls| - 1] == Read(state) && forall k :: 0 <= k < |polls| ==> polls[k] != Cancelled
  }

  /** The cluster's state after the first actions, starting SYNCHRONIZED. */
  function StateAfter(chain: seq<Execution>, driver: string): string {
    if chain == [] then "SYNCHRONIZED" else PostState(chain[|chain| - 1].action, driver)
  }

  ghost predicate ReachingCluster(chain: seq<Execution>, driver: string) {
    chain == [] ||
    var front, last := chain[..|chain| - 1], chain[|chain| - 1];
    && ReachingCluster(front, driver)
    && Steady(last.before, StateAfter(front, driver)) && Arrives(last.after, PostState(last.action, driver))
  }

  predicate Completes(chain: seq<Execution>, driver: string) {
    chain == [] ||
    var last := chain[|chain| - 1];
    Completes(chain[..|chain| - 1], driver) && Executed(last.action, driver, last.before, true, last.after) == Reached
  }

  /** Every action is a failover or a reprotect. */
  predicate OfTwoKinds(chain: seq<Execution>) {
    forall k :: 0 <= k < |chain| ==> IsFailover(chain[k].action) || IsReprotect(chain[k].action)
  }

  /** Failovers at the even places, reprotects at the odd ones. */
  predicate Alternates(chain: seq<Execution>) {
    forall k :: 0 <= k < |chain| ==> (IsFailover(chain[k].action) <==> k % 2 == 0)
  }

  /** The post-state of each kind of action is the pre-state of the other, and never its own. */
  lemma KindsChain(f: string, r: string, driver: string)
    requires IsFailover(f) && IsReprotect(r)
    ensures PostState(f, driver) == PreState(r, driver) != PreState(f, driver)
    ensures PostState(r, driver) == PreState(f, driver) == "SYNCHRONIZED"
    ensures PostState(f, driver) == if Contains(driver, "powermax") then "SUSPENDED" else "FAILEDOVER"
  {
  }

  lemma ArrivingIsObserved(polls: seq<Poll>, state: string)
    requires Arrives(polls, state)
    ensures Observed(polls, state)
  {
    var k := |polls| - 1;
    assert polls[k] == Read(state) && forall j :: 0 <= j < k ==> polls[j] != Cancelled;
  }

  lemma SteadyObserves(polls: seq<Poll>, state: string, expected: string)
    requires Steady(polls, state)
    ensures Observed(polls, expected) <==> state == expected
  {
    if state == expected {
      assert polls[0] == Read(expected);
    }
  }

  /** On such a cluster an action completes exactly if the state is its pre-state. */
  lemma CompletesInPreState(x: Execution, driver: string, state: string)
    requires Steady(x.before, state) && Arrives(x.after, PostState(x.action, driver))
    ensures Executed(x.action, driver, x.before, true, x.after) == Reached <==> PreState(x.action, driver) == state
  {
    ReachedIffObserved(x.before, PreState(x.action, driver));
    ReachedIffObserved(x.after, PostState(x.action, driver));
    ArrivingIsObserved(x.after, PostState(x.action, driver));
    SteadyObserves(x.before, state, PreState(x.action, driver));
  }

  lemma OneMore(chain: seq<Execution>)
    requires chain != []
    ensures var front, last := chain[..|chain| - 1], chain[|chain| - 1];
            && (OfTwoKinds(chain) <==> OfTwoKinds(front) && (IsFailover(last.action) || IsReprotect(last.action)))
            && (Alternates(chain) <==> Alternates(front) && (IsFailover(last.action) <==> |front| % 2 == 0))
  {
    var front := chain[..|chain| - 1];
    assert forall k :: 0 <= k < |front| ==> front[k] == chain[k];
  }

  /** The state behind a chain is the pre-state of the actions of the kind it does not end with. */
  lemma StateMeans(chain: seq<Execution>, action: string, driver: string)
    requires OfTwoKinds(chain) && (IsFailover(action) || IsReprotect(action))
    ensures PreState(action, driver) == StateAfter(chain, driver)
       <==> (IsFailover(action) <==> chain == [] || !IsFailover(chain[|chain| - 1].action))
    ensures StateAfter(chain, driver) == "SYNCHRONIZED" <==> chain == [] || !IsFailover(chain[|chain| - 1].action)
  {
    if chain != [] {
      var previous := chain[|chain| - 1].action;
      assert IsFailover(previous) || IsReprotect(previous);
    }
  }

  /** For every driver and length: a chain of failovers and reprotects from SYNCHRONIZED never
      stalls if and only if it alternates, beginning with a failover; after an even number of
      alternating actions the state is SYNCHRONIZED, after an odd number it is not. */
  lemma {:induction false} ChainsCompleteIffAlternating(chain: seq<Execution>, driver: string)
    requires ReachingCluster(chain, driver) && OfTwoKinds(chain)
    ensures Completes(chain, driver) <==> Alternates(chain)
    ensures Alternates(chain) ==> (StateAfter(chain, driver) == "SYNCHRONIZED" <==> |chain| % 2 == 0)
  {
    if chain == [] {
    } else {
      var front, last := chain[..|chain| - 1], chain[|chain| - 1];
      OneMore(chain);
      ChainsCompleteIffAlternating(front, driver);
      CompletesInPreState(last, driver, StateAfter(front, driver));
      StateMeans(front, last.action, driver);
    }
  }
}
