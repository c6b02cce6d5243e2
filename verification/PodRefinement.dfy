/** The polled pod observer against the watch-driven one. */
module PodRefinement {
  import opened Store
  import opened Observer
  import opened PodWatch
  import opened PodPoll

  type Stream = seq<WatchData<PodObject>>

  /** The polled observer's state as the watch observer keeps it. */
  function Forget(s: ListState): State {
    State(s.tcId, s.db, s.events, s.entities, s.ready, s.terminating, s.saved, s.phase)
  }

  /** A deletion tells the watch observer no more than the name. */
  function Tombstone(name: string): PodObject {
    PodObject(name, "", false, false)
  }

  /** Added for a name outside known and not listed earlier, Modified for the others. */
  function ItemChanges(known: set<string>, items: seq<PodObject>): Stream {
    if items == [] then []
    else
      var front, pod := items[..|items| - 1], items[|items| - 1];
      ItemChanges(known, front)
      + [Change(if pod.name in known + NamesOf(front) then Modified else Added, pod)]
  }

  function GoneChanges(current: set<string>, order: seq<string>): Stream {
    if order == [] then []
    else
      var front, name := order[..|order| - 1], order[|order| - 1];
      GoneChanges(current, front) + if name in current then [] else [Change(Deleted, Tombstone(name))]
  }

  /** The stream the snapshots stand for: never-seen names are Added, seen ones Modified,
      vanished ones Deleted. */
  function Translate(polls: seq<Poll<PodObject>>): Stream {
    if polls == [] then []
    else
      var front, poll := polls[..|polls| - 1], polls[|polls| - 1];
      Translate(front) + ItemChanges(Seen(front), poll.items) + GoneChanges(NamesOf(poll.items), poll.order)
  }

  lemma ItemRefines(s: ListState, pod: PodObject, now: int)
    requires Shaped(s)
    ensures Step(Forget(s), Data(Change(if pod.name in s.added then Modified else Added, pod)), now)
         == Forget(OnItem(s, pod, now))
  {
  }

  lemma {:induction false} ItemsRefine(s: ListState, items: seq<PodObject>, clock: nat -> int)
    requires Shaped(s)
    ensures Run(Forget(s), ItemChanges(s.added, items), clock) == Forget(OnItems(s, items, clock))
  {
    if items == [] {
    } else {
      var front, pod := items[..|items| - 1], items[|items| - 1];
      ItemsRefine(s, front, clock);
      ItemsStayShaped(s, front, clock);
      var t := OnItems(s, front, clock);
      ItemRefines(t, pod, clock(|t.events|));
      RunSnoc(Forget(s), ItemChanges(s.added, front), Change(if pod.name in t.added then Modified else Added, pod), clock);
    }
  }

  lemma {:induction false} GoneRefine(s: ListState, current: set<string>, order: seq<string>, clock: nat -> int)
    requires Shaped(s) && forall n :: n in order ==> n in s.previous
    ensures Run(Forget(s), GoneChanges(current, order), clock) == Forget(OnVanished(s, current, order, clock))
  {
    if order == [] {
    } else {
      var front, name := order[..|order| - 1], order[|order| - 1];
      GoneRefine(s, current, front, clock);
      VanishedStayShaped(s, current, front, clock);
      var changes := GoneChanges(current, front);
      if name in current {
        assert changes + [] == changes;
      } else {
        assert GoneChanges(current, order)[..|changes|] == changes;
      }
    }
  }

  /** Fed with the translated stream, the watch observer ends in the polled observer's state:
      same rows, same entities, same log. */
  lemma {:induction false} PollingRefinesWatching(tcId: int, db: Db, polls: seq<Poll<PodObject>>, clock: nat -> int)
    requires Ranges(polls)
    ensures Run(Init(tcId, db), Translate(polls), clock) == Forget(RunPolls(ListInit(tcId, db), polls, clock))
  {
    if polls == [] {
    } else {
      var front, poll := polls[..|polls| - 1], polls[|polls| - 1];
      PollingRefinesWatching(tcId, db, front, clock);
      PollingNeverCrashes(tcId, db, front, clock);
      PollRefines(RunPolls(ListInit(tcId, db), front, clock), Init(tcId, db), Translate(front), poll, clock);
      PollingNeverCrashes(tcId, db, polls, clock);
    }
  }

  lemma PollRefines(s: ListState, start: State, before: Stream, poll: Poll<PodObject>, clock: nat -> int)
    requires Shaped(s) && Run(start, before, clock) == Forget(s) && Enumerates(poll.order, s.previous)
    ensures Run(start, before + ItemChanges(s.added, poll.items) + GoneChanges(NamesOf(poll.items), poll.order), clock)
         == Forget(OnPoll(s, poll, clock))
  {
    ItemsRefine(s, poll.items, clock);
    ItemsStayShaped(s, poll.items, clock);
    GoneRefine(OnItems(s, poll.items, clock), NamesOf(poll.items), poll.order, clock);
    VanishedStayShaped(OnItems(s, poll.items, clock), NamesOf(poll.items), poll.order, clock);
    RunAppend(start, before, ItemChanges(s.added, poll.items), clock);
    RunAppend(start, before + ItemChanges(s.added, poll.items), GoneChanges(NamesOf(poll.items), poll.order), clock);
  }

  // --------------------------------------------- the stream a cluster would have sent

  /** A cluster announces a pod again when it comes back after it vanished. */
  function Announced(polls: seq<Poll<PodObject>>): Stream {
    if polls == [] then []
    else
      var front, poll := polls[..|polls| - 1], polls[|polls| - 1];
      Announced(front) + ItemChanges(Latest(front), poll.items) + GoneChanges(NamesOf(poll.items), poll.order)
  }

  /** No name is listed again after a snapshot that lacked it. */
  predicate NoReturn(polls: seq<Poll<PodObject>>) {
    polls == [] ||
    var front := polls[..|polls| - 1];
    NoReturn(front) && NamesOf(polls[|polls| - 1].items) * Seen(front) <= Latest(front)
  }

  lemma {:induction false} AddedAppend(xs: Stream, ys: Stream)
    ensures Changes(xs + ys, Added) == Changes(xs, Added) + Changes(ys, Added)
  {
    if ys == [] {
      assert xs + ys == xs;
    } else {
      AddedAppend(xs, ys[..|ys| - 1]);
      assert (xs + ys)[..|xs + ys| - 1] == xs + ys[..|ys| - 1];
    }
  }

  lemma {:induction false} FewerKnownMoreAdded(present: set<string>, seen: set<string>, items: seq<PodObject>)
    requires present <= seen
    ensures NamesOf(items) * seen <= present ==> ItemChanges(present, items) == ItemChanges(seen, items)
    ensures Changes(ItemChanges(present, items), Added) >= Changes(ItemChanges(seen, items), Added)
    ensures !(NamesOf(items) * seen <= present) ==>
              Changes(ItemChanges(present, items), Added) > Changes(ItemChanges(seen, items), Added)
  {
    if items == [] {
    } else {
      var front, pod := items[..|items| - 1], items[|items| - 1];
      FewerKnownMoreAdded(present, seen, front);
      assert items == front + [pod];
      NamesSnoc(front, pod);
      AddedAppend(ItemChanges(present, front),
                       [Change(if pod.name in present + NamesOf(front) then Modified else Added, pod)]);
      AddedAppend(ItemChanges(seen, front),
                       [Change(if pod.name in seen + NamesOf(front) then Modified else Added, pod)]);
    }
  }

  lemma {:induction false} ReturnsAreAnnounced(polls: seq<Poll<PodObject>>)
    ensures NoReturn(polls) ==> Announced(polls) == Translate(polls)
    ensures Changes(Announced(polls), Added) >= Changes(Translate(polls), Added)
    ensures !NoReturn(polls) ==> Changes(Announced(polls), Added) > Changes(Translate(polls), Added)
  {
    if polls == [] {
    } else {
      var front, poll := polls[..|polls| - 1], polls[|polls| - 1];
      ReturnsAreAnnounced(front);
      FewerKnownMoreAdded(Latest(front), Seen(front), poll.items);
      var gone := GoneChanges(NamesOf(poll.items), poll.order);
      AddedAppend(Announced(front), ItemChanges(Latest(front), poll.items));
      AddedAppend(Announced(front) + ItemChanges(Latest(front), poll.items), gone);
      AddedAppend(Translate(front), ItemChanges(Seen(front), poll.items));
      AddedAppend(Translate(front) + ItemChanges(Seen(front), poll.items), gone);
    }
  }

  lemma LogsEveryAdded(tcId: int, db: Db, stream: Stream, clock: nat -> int)
    ensures var s := Run(Init(tcId, db), stream, clock);
            s.phase == Looping ==> KindCount(s.events, PodAdded) == Changes(stream, Added)
  {
    CrashesExactlyOnOrphans(tcId, db, stream, clock);
    if !HasOrphan(stream) { RecordsReports(tcId, db, stream, clock); }
  }

  /** addedPods is never cleared, so polling agrees with watching the cluster exactly when no
      pod name ever returns. */
  lemma AgreesWithClusterExactlyWithoutReturns(tcId: int, db: Db, polls: seq<Poll<PodObject>>, clock: nat -> int)
    requires Ranges(polls)
    ensures Run(Init(tcId, db), Announced(polls), clock) == Forget(RunPolls(ListInit(tcId, db), polls, clock))
       <==> NoReturn(polls)
  {
    PollingRefinesWatching(tcId, db, polls, clock);
    PollingNeverCrashes(tcId, db, polls, clock);
    ReturnsAreAnnounced(polls);
    LogsEveryAdded(tcId, db, Announced(polls), clock);
    LogsEveryAdded(tcId, db, Translate(polls), clock);
  }

  lemma PollsSnoc(polls: seq<Poll<PodObject>>, poll: Poll<PodObject>)
    ensures Ranges(polls + [poll]) <==> Ranges(polls) && Enumerates(poll.order, Latest(polls))
    ensures Latest(polls + [poll]) == NamesOf(poll.items) && Seen(polls + [poll]) == Seen(polls) + NamesOf(poll.items)
    ensures NoReturn(polls + [poll]) <==> NoReturn(polls) && NamesOf(poll.items) * Seen(polls) <= Latest(polls)
  {
    assert (polls + [poll])[..|polls|] == polls;
  }

  /** One pod listed, missing from the next list, and listed again. */
  lemma ReturningPod(tcId: int, db: Db, clock: nat -> int) returns (polls: seq<Poll<PodObject>>)
    ensures Ranges(polls) && !NoReturn(polls)
    ensures Run(Init(tcId, db), Announced(polls), clock) != Forget(RunPolls(ListInit(tcId, db), polls, clock))
  {
    var pod := PodObject("a", "uid", true, false);
    NamesSnoc([], pod);
    assert [] + [pod] == [pod] && NamesOf([]) == {};
    var first: seq<Poll<PodObject>> := [] + [Poll([pod], [])];
    PollsSnoc([], Poll([pod], []));
    PollsSnoc(first, Poll([], ["a"]));
    PollsSnoc(first + [Poll([], ["a"])], Poll([pod], []));
    polls := first + [Poll([], ["a"])] + [Poll([pod], [])];
    assert "a" in NamesOf([pod]) * Seen(first + [Poll([], ["a"])]);
    AgreesWithClusterExactlyWithoutReturns(tcId, db, polls, clock);
  }
}
