# cert-csi: a verified model of its observers, its metrics and its runner

cert-csi drives Kubernetes test suites. While a suite runs, concurrent observers turn cluster
changes into an event log; a collector turns the log into stage timings; a plotter buckets them;
a runner repeats the suites and reports a success ratio. This project models that pipeline and
five self-contained cores beside it in Dafny 4.11, and proves what each of them promises over
every input, every run or every interleaving. Where the code does not keep a promise, a lemma says
exactly when it does, and a lemma with a concrete input, or a whole family of inputs, shows it
failing.

`dafny verify dfyconfig.toml` checks everything.

## How it is laid out

| file | what it models |
|---|---|
| `Store.dfy` | entity and event rows, insertion with its UNIQUE constraint, the joined query and its grouping loop |
| `Observer.dfy` | watch changes, polls, the fields of the Runner the observers share, counting over a log |
| `PodWatch.dfy`, `PvcWatch.dfy`, `VaWatch.dfy` | the three watch observers: a class per observer, a `Select` method per turn |
| `PodPoll.dfy`, `PvcPoll.dfy`, `VaPoll.dfy` | the three polled observers: a class per observer, a `PollOnce` method per poll |
| `PodRefinement.dfy` | the polled pod observer against the watch observer |
| `PvcVaSystem.dfy` | PVC and VA observer side by side over the shared `PvcShare`, down to the collector's metric |
| `RunnerProtocol.dfy` | `Start`, `Stop` and any number of observer goroutines: WaitGroup, unbuffered channels, timeouts |
| `RunnerObservers.dfy` | the six concrete observers under `Start` and `Stop`, refining that protocol |
| `Collector.dfy`, `Plotter.dfy` | stage samples, summaries, the inclusion filter, the histogram |
| `ParseDuration.dfy` | the regular expression of five optional slots against a token scan; printing; longevity |
| `SuiteRunner.dfy` | iteration, stop flag and success counter, sequential and interleaved |
| `Suites.dfy` | batches, flat indices and `df` output |
| `Text.dfy`, `Reporter.dfy` | substring search; the file of `export VAR=path` lines |
| `ReplicationGroup.dfy` | failover and reprotect actions with their pre- and post-states |

Each observer is a class whose fields are the maps, sets and slices of its goroutine. One turn of
its loop is a method that is proved equal to a step function on a value of those fields (`View`),
and the theorems are about runs of that function. A Go `map[string]bool` that only ever holds
`true` is a set, a `sync.Map` a map, a nil dereference the phase `Crashed`. Ranging over a Go map
takes an arbitrary order, which the method returns as a witness or the theorem quantifies over.
The clock is an arbitrary function or an arbitrary non-decreasing reading. Go's int64 arithmetic,
the saturation of `time.Time.Sub` and truncating division are written out.

## What came out

Promises that hold in general:

* the log of each observer is told by what it was shown, per kind and entity; saving appends it to the
  stored events, which at every moment are those stored before and all logs saved since;
* every VA event of every interleaving follows the binding of its claim, so the creation time that
  comes out at the far end of store, query, grouping and collector is never negative;
* the VA observer's drain has no premature and no missed exit, if VAs are deleted only after they
  were recorded attached; and the WaitGroup protocol loses no observer and no log;
* the polled pod observer ends in the state of the watch observer fed with the changes its
  snapshots stand for;
* the success counter is the number of successes, and sequential execution is one of the interleavings
  whose reported ratio is bounded;
* repeated matching of an all-optional regular expression is a simple token scan, and parsing
  undoes printing;
* batching, restoring and cloning are lossless, histograms and groupings conserve what they count,
  the path file obeys the laws of a key-value store.

Places where the code promises less than one might expect, each with its exact condition and an input
at which it shows:

* `addedPods` is never cleared, so polling agrees with what a cluster announces if and only if no
  pod name returns (`PodRefinement.AgreesWithClusterExactlyWithoutReturns`, `ReturningPod`).
* The polled PVC observer never records a deletion, so its log agrees with the watched one if and only
  if the cluster sent none (`PvcPoll.LogsAgreeIffNoDeletion`, `MissedDeletion`).
* Draining compares only sizes. For every stream, the watch observer returns if and only if at some
  finish signal, or at some Deleted behind it, as many VAs have been reported deleted as attached
  (`VaWatch.ReturnedIffExits`). So a turn that compares returns exactly if there are as many deleted
  strangers as outstanding VAs, too early if that number is not zero, and the end is missed with a
  stranger, or when the last attachment is reported behind its deletion (`VaWatch.DrainDecision`,
  `PrematureExit`, `MissedExit`, `LateAttachment`).
* The polled VA observer counts attachments by VA and deletions by volume. For every run it returns
  at the first poll at which the two sizes agree (`VaPoll.ReturnsIffSizesAgree`), that is if volumes
  gone without a recorded attachment make up for attachments that share a volume and for volumes
  still attached (`VaPoll.DrainDecision`, `SignalDecision`). Two attachments of one volume therefore
  keep it draining as long as no such stranger leaves the list (`VaPoll.SharedVolumeNeverDrains`,
  `SharedVolumeBlocks`), a stranger lets it go (`StrangerUnblocks`), and a stranger can let it go too
  early (`PrematureExit`).
* A VA observer still draining when `Stop` erases `PvcShare` can return in some continuation if and
  only if the process has not crashed and a volume is published, or a PVC observer still runs, or
  the sizes agree so that another signal would do, which `Stop` does not send
  (`PvcVaSystem.DrainCanEnd`); `Start` reaches a state without any of these
  (`PvcVaSystem.StopAbandons`).
* When `Stop` has returned without an error, a log is unsaved if and only if a polled observer gave up
  or, after a timeout that found no volume left, an observer is still draining
  (`RunnerProtocol.ErrorFreeStopLosesLog`, `NoErrorWithoutReturn`).
* An observer that left early (a nil client, a failed Watch or List) blocks `Stop` for ever; some
  continuation gets `Stop` past an observer if and only if it has not left
  (`RunnerProtocol.SendCompletesIffNotLeft`, `EarlyReturnBlocksStop`).
* A run that is stopped, by its duration or otherwise, divides by one iteration too many: it cannot
  pass the 0.9 threshold before ten completed iterations
  (`SuiteRunner.StoppedRunNeedsTenIterations`, `StoppedRunUnderstates`).
* The ratio stays within 1 in every interleaving if and only if no storage class with suites is
  listed twice (`SuiteRunner.RatioWithinOneIffNoneTwice`, `RepeatedClassOverstates`).
* An end without a start is measured from the zero Time and taken for the longest duration
  (`Collector.UnstartedIsMaximal`); with exact division the average is exact if and only if the sum
  fits (`Collector.AverageIsExactIffSumFits`), and two of those durations wrap it and pull the
  average below the minimum (`Collector.AverageOutsideWhenSumWraps`). The code divides float64
  values, which loses exactness above 2^53 nanoseconds; that rounding is not modelled.
* A histogram reaching 3000 seconds has gaps exactly where no duration falls
  (`Plotter.BucketsSpanTheSamples`, `GapBehind3000`).
* A binding of the path file survives another variable's update if and only if neither path contains
  the other's export (`Reporter.SurvivesOtherUpdate`, `LostBinding`).

The comments in pkg/observer/pvc_alt.go promise deletions as in the watch variant
(pkg/observer/pvc_alt.go:146), and the log text of pkg/observer/va_alt.go:73 promises to wait for
all deletions; the model follows the code in both.

## Model

| member | source | states |
|---|---|---|
| `Store.SaveEntities` | pkg/store/sqlite.go:431-455 | the loop writes fresh ids into the passed array up to the first UNIQUE violation and leaves the rest as they were |
| `Store.AllNewMeans` | pkg/store/sqlite.go:108-118 | the step-by-step UNIQUE check over a batch means: no UID is already stored and none repeats in the batch |
| `Store.InsertionSucceeds` | pkg/store/sqlite.go:431-455 | insertion succeeds if and only if all UIDs are new and distinct; then every entity gets the next id, the table grows by exactly these rows, and ids and UIDs stay unique |
| `Store.InsertGrows` | pkg/store/sqlite.go:431-455 | inserting one entity more adds a row with the next id exactly if neither the first table nor the announced UIDs have its UID, and leaves every other row and all events as they were |
| `Store.SaveEvents` | pkg/store/sqlite.go:216-241 | the loop over a log leaves the stored events followed by the log, in order, and no entity changed |
| `Store.GroupRows` | pkg/store/sqlite.go:330-343 | the map holds, for exactly the entities that have a scanned row, their events in row order |
| `Store.GroupingConserves` | pkg/store/sqlite.go:330-343 | over any listing of the keys the group sizes add up to the number of scanned rows |
| `Store.GroupKeepsOrder` | pkg/store/sqlite.go:330-343 | the event of a row stands in its group behind the events of the rows before it and before those of the rows behind it |
| `Store.GroupIsStoredEvents` | pkg/store/sqlite.go:311-343 | in whatever order the join returns its rows, an entity's group is exactly the multiset of stored events naming its id; other entities have none |
| `Observer.OrderedMeans` | pkg/observer/pod_alt.go:98-105 | the recursive order condition on a log means that every event is preceded by a first event of its entity |
| `PodWatch.PodObserver.constructor` | pkg/observer/pod.go:59-63 | a new observer is in the initial state of the step function |
| `PodWatch.PodObserver.Select` | pkg/observer/pod.go:65-151 | one turn of the select loop changes fields and database exactly as the step function says, for every input including nil, wrong type and unknown kind; at the finish signal the whole log is put behind the stored events and no entity is changed, at any other turn the stored events stay |
| `PodWatch.CrashesExactlyOnOrphans` | pkg/observer/pod.go:112-146 | the observer dereferences nil if and only if the stream logs something for a pod before its Added; otherwise it knows exactly the announced names |
| `PodWatch.RecordsReports` | pkg/observer/pod.go:87-146 | a run that does not crash has recorded exactly the pods reported ready and terminating, and logged every Added and Deleted change and every recorded pod exactly once |
| `PodWatch.FilesAnnounced` | pkg/observer/pod.go:89-103 | such a run has filed every announced pod under its name with its last UID, as a pod of its test case |
| `PodWatch.RowsTellStream` | pkg/observer/pod.go:89-103 | such a run has stored one row for every announced UID that had none and no event, and holds for each name the id of the pod announced last, 0 if its UID had a row |
| `PodWatch.LogTellsStream` | pkg/observer/pod.go:89-146 | of each kind and each entity id such a run has logged as many events as the stream reports, each under the id of the pod last announced under the name |
| `PodWatch.LogIsClocked` | pkg/observer/pod.go:96-145 | every event carries the time of its logging |
| `PodPoll.PodListObserver.constructor` | pkg/observer/pod_alt.go:49-55 | a new observer is in the initial state |
| `PodPoll.PodListObserver.PollOnce` | pkg/observer/pod_alt.go:57-156 | one poll saves and ends on the finish signal, putting the whole log behind the stored events, ends without saving on a failed List, and otherwise processes the list and then the previous names in some order |
| `PodPoll.PodListObserver.ScanItems` | pkg/observer/pod_alt.go:78-135 | the loop over the list handles item after item and collects exactly the listed names |
| `PodPoll.PodListObserver.ScanPrevious` | pkg/observer/pod_alt.go:137-149 | ranging over previousState while deleting from it visits every earlier name exactly once |
| `PodPoll.PodListObserver.Visit` | pkg/observer/pod_alt.go:82-134 | one item is Added, Ready or Terminating at most, in that priority, or leaves everything as it was |
| `PodPoll.PollingNeverCrashes` | pkg/observer/pod_alt.go:71-153 | for arbitrary snapshots, duplicates included, no missing entity is dereferenced, previousState is the latest snapshot and addedPods every name ever seen |
| `PodPoll.PollingAccount` | pkg/observer/pod_alt.go:78-149 | per entity id the log holds one Added per name, one Ready and one Terminating per name recorded so, and one Deleted per present-then-absent transition |
| `PodPoll.RowsStayUnshared` | pkg/observer/pod_alt.go:82-97 | no two names share a stored row in any run |
| `PodPoll.StoredPodAccount` | pkg/observer/pod_alt.go:78-149 | a stored pod that was ever seen has exactly one Added, at most one Ready and one Terminating, and as many Deleted as departures |
| `PodPoll.PollingLogsAddedFirst` | pkg/observer/pod_alt.go:82-146 | nothing is logged for an entity before its Added, in any run |
| `PodRefinement.PollingRefinesWatching` | pkg/observer/pod_alt.go:78-160 | fed with the translated snapshots the watch observer ends with the same rows, entities, sets and log as the polled observer |
| `PodRefinement.ReturnsAreAnnounced` | pkg/observer/pod_alt.go:82-107 | the cluster's own stream equals the translation when no name returns, and otherwise holds strictly more Added changes |
| `PodRefinement.AgreesWithClusterExactlyWithoutReturns` | pkg/observer/pod_alt.go:105-107 | polling and watching the same cluster agree if and only if no pod name is listed again after a snapshot without it |
| `PodRefinement.ReturningPod` | pkg/observer/pod_alt.go:105-107 | a pod listed, missing and listed again makes the two disagree |
| `PvcWatch.PvcObserver.constructor` | pkg/observer/pvc.go:58-62 | a new observer is in the initial state |
| `PvcWatch.PvcObserver.Select` | pkg/observer/pvc.go:64-152 | one turn changes fields, database and PvcShare exactly as the step function says; a claim is published when it is first seen bound; at the finish signal the whole log is put behind the stored events |
| `PvcWatch.CrashesExactlyOnOrphans` | pkg/observer/pvc.go:111-146 | nil is dereferenced if and only if the stream logs something for a claim before its Added |
| `PvcWatch.RecordsReports` | pkg/observer/pvc.go:86-147 | a run that does not crash has recorded exactly the claims reported bound and deleting, and logged every Added and Deleted change and every recorded claim exactly once |
| `PvcWatch.FilesAndPublishes` | pkg/observer/pvc.go:88-124 | such a run has filed every announced claim under its name with its last UID, and PvcShare holds, besides what it held, each published volume with the claim that was last bound to it |
| `PvcWatch.RowsTellStream` | pkg/observer/pvc.go:88-102 | such a run has stored one row for every announced UID that had none and no event, and holds for each name the id of the claim announced last, 0 if its UID had a row |
| `PvcWatch.ShareTellsStream` | pkg/observer/pvc.go:111-124 | PvcShare holds each published volume under the id its claim held when it was first seen bound |
| `PvcWatch.LogTellsStream` | pkg/observer/pvc.go:88-147 | of each kind and each entity id such a run has logged as many events as the stream reports, each under the id of the claim last announced under the name |
| `PvcWatch.LogIsClocked` | pkg/observer/pvc.go:95-146 | every event carries the time of its logging |
| `PvcWatch.DeletionsOnlyLog` | pkg/observer/pvc.go:140-147 | dropping all Deleted changes from a stream leaves entities, published volumes and all other events as they were |
| `PvcPoll.PvcListObserver.constructor` | pkg/observer/pvc_alt.go:55-61 | a new observer is in the initial state |
| `PvcPoll.PvcListObserver.PollOnce` | pkg/observer/pvc_alt.go:63-163 | one poll saves and ends, putting the whole log behind the stored events, fails, or processes the list as the step function says, with currentState left empty as in the code |
| `PvcPoll.PollingRefinesWatching` | pkg/observer/pvc_alt.go:84-142 | on the Added and Modified part of the translated snapshots the watch observer reaches the polled observer's state; previousState stays empty |
| `PvcPoll.AgreesButForDeletions` | pkg/observer/pvc_alt.go:77-160 | for every stream that adds deletions to that part the two observers agree on everything but deletion events, of which polling logs none |
| `PvcPoll.LogsAgreeIffNoDeletion` | pkg/observer/pvc_alt.go:77-160 | the two logs agree in kind and entity, event by event, if and only if the cluster sent no Deleted change |
| `PvcPoll.MissedDeletion` | pkg/observer/pvc_alt.go:77-160 | a claim listed once and then gone: watching logs its deletion, polling does not |
| `VaWatch.VaObserver.constructor` | pkg/observer/va.go:58-63 | a new observer is in the initial state |
| `VaWatch.VaObserver.Select` | pkg/observer/va.go:65-159 | one turn changes the fields exactly as the step function says, and exactly when the observer returns it puts the whole log behind the stored events |
| `VaWatch.RecordsReports` | pkg/observer/va.go:65-159 | while it runs the observer has recorded exactly the reported attachments and deletions and drains exactly after a finish signal; the log is saved once, on returning |
| `VaWatch.LogsReports` | pkg/observer/va.go:99-142 | while it runs the log has one event per reported Added and Deleted and one per VA recorded attached or deleting |
| `VaWatch.LogTellsTurns` | pkg/observer/va.go:99-142 | in every run the log holds each event, with its kind, entity and time, exactly as often as turns before the return or the panic report it, for the entity PvcShare held for the volume at that turn |
| `VaWatch.DrainInvariant` | pkg/observer/va.go:67-80 | while draining the deleted set is a strict subset of the attached set, on return they are equal |
| `VaWatch.ReturnsExactlyWhenDrained` | pkg/observer/va.go:67-152 | the observer returns at a step if and only if that step is the finish signal with nothing left, or the Deleted step that makes the sets equal |
| `VaWatch.ReturnedIffOnceDrained` | pkg/observer/va.go:67-152 | over whole runs it has returned if and only if it was once drained after the finish signal |
| `VaWatch.ReturnedIffExits` | pkg/observer/va.go:67-152 | for every stream and either ShouldClean the observer has returned if and only if some prefix without a panic ends in a finish signal, or in a Deleted behind one, with as many VAs reported deleted as attached, or in a finish signal with nothing to clean |
| `VaWatch.DrainDecision` | pkg/observer/va.go:67-152 | a turn of a running observer returns if and only if it compares sizes and there are as many strangers as outstanding VAs, prematurely if and only if that number is positive, and with nothing outstanding it misses its end if and only if there is a stranger or it compares nothing |
| `VaWatch.ReturnIsCompleteIffNothingElseDeleted` | pkg/observer/va.go:69-152 | the records at return are those of the reports up to the first such prefix, and complete if and only if none of these deleted a VA never reported attached |
| `VaWatch.PrematureExit` | pkg/observer/va.go:69-77 | a stream with one VA outstanding and one stranger deleted on which the observer returns |
| `VaWatch.MissedExit` | pkg/observer/va.go:144-152 | a stream with nothing outstanding and one stranger on which the observer still waits |
| `VaWatch.LateAttachment` | pkg/observer/va.go:110-118 | a stream with nothing outstanding and no stranger on which it still waits, the attachment being reported last |
| `VaPoll.VaListObserver.constructor` | pkg/observer/va_alt.go:53-59 | a new observer is in the initial state |
| `VaPoll.VaListObserver.PollOnce` | pkg/observer/va_alt.go:61-172 | one poll, with the finish test before and the drain test after the list, changes the fields as the step function says for some order of ranging; the whole log is put behind the stored events exactly when it is saved |
| `VaPoll.VanishedAreDeleted` | pkg/observer/va_alt.go:136-155 | ranging over previousState records as deleted, and drops from it, exactly the still published volumes that left the list |
| `VaPoll.PollingAccount` | pkg/observer/va_alt.go:87-134 | in every run each added, attached and deleting VA was logged exactly once, and only added ones get further |
| `VaPoll.ReturnsIffSizesAgree` | pkg/observer/va_alt.go:61-172 | for every run, whatever lists and PvcShare hold, the observer saves its log and returns at the first poll at which, when the signal is read or once the list is processed, as many VAs are attached as volumes gone, both read off the lists; otherwise it ends only by a failed List or a panic, and until then its fields are what the lists say |
| `VaPoll.LogTellsLists` | pkg/observer/va_alt.go:87-155 | in every run that does not panic the log is told by the lists alone, per kind and entity id: one AttachStarted per VA first listed, one AttachEnded and one UnattachStarted per VA that becomes attached or deleting, and one UnattachEnded for each volume that left a processed list, all for the entity PvcShare held for the volume at that poll |
| `VaPoll.LogIsClocked` | pkg/observer/va_alt.go:98-152 | every event carries the time of its logging |
| `VaPoll.SizesDecide` | pkg/observer/va_alt.go:111-161 | for any volume of each VA the sizes agree if and only if volumes gone that were never attached make up for attachments sharing a volume and for attached volumes not gone |
| `VaPoll.DrainDecision` | pkg/observer/va_alt.go:87-169 | when the end of a poll returns, when that is too early, and when shared volumes block it although nothing is outstanding, each if and only if, in these three numbers |
| `VaPoll.SignalDecision` | pkg/observer/va_alt.go:62-72 | the same when the signal is read |
| `VaPoll.SizesDecideDrained` | pkg/observer/va_alt.go:64-161 | if every volume gone belongs to an attached VA, agreeing sizes mean that the VAs are of different volumes and exactly these are gone |
| `VaPoll.ReturnsExactlyWhenDrained` | pkg/observer/va_alt.go:62-169 | for lists from which only volumes of attached VAs leave, a poll returns if and only if the drain is complete when the signal is read or once that poll is processed |
| `VaPoll.ReturnedMeansDrained` | pkg/observer/va_alt.go:62-178 | for such lists a return either saved the log with the drain complete at some poll, or saved nothing after a failed List |
| `VaPoll.SharedVolumeNeverDrains` | pkg/observer/va_alt.go:111-152 | for such lists two recorded attachments of one volume keep the observer from ever saving |
| `VaPoll.SharedVolumeBlocks` | pkg/observer/va_alt.go:111-161 | a run of two VAs of one volume, listed and gone, that keeps draining |
| `VaPoll.StrangerUnblocks` | pkg/observer/va_alt.go:111-161 | the same run returns when a VA of another volume was listed once and then gone |
| `VaPoll.PrematureExit` | pkg/observer/va_alt.go:64-72 | a run that returns at the signal although its one attached VA is still listed |
| `PvcVaSystem.VaEventsFollowBinding` | pkg/observer/va.go:93-107 | in every interleaving of both observers, other inserts and erasures, each VA event's entity was added and then bound in the PVC log, no later than the VA event |
| `PvcVaSystem.AddedIsFirst` | pkg/observer/pvc.go:102-124 | the one Added event of a stored claim is no later than any of its VA events |
| `PvcVaSystem.DatabaseHoldsSavedLogs` | pkg/store/sqlite.go:216-241 | in every interleaving the stored events are, as a multiset, those stored at first, the logs both observers saved and the logs others saved |
| `PvcVaSystem.CreationTimeNonNegative` | pkg/collector/collector.go:239 | when the query returns the events the run itself left in the database, in any order, a stored claim whose events nobody else wrote and that was added and attached has a non-negative creation time |
| `PvcVaSystem.ErasedShareNeverDrains` | pkg/observer/runner.go:92-96 | with PvcShare erased, no PVC observer running and the sizes different, a draining VA observer logs, records and saves nothing more and never returns |
| `PvcVaSystem.DrainCanEnd` | pkg/observer/va.go:93-152 | a draining VA observer can return in some continuation if and only if the process has not crashed and a volume is published, or a PVC observer still runs, or the sizes agree |
| `PvcVaSystem.StopAbandons` | pkg/observer/runner.go:86-132 | a run from the start to a draining VA observer with PvcShare erased and the PVC observer gone |
| `RunnerProtocol.WaitGroupCounts` | pkg/observer/runner.go:77-147 | in every interleaving the WaitGroup counter is the number of observers not yet returned, so never negative |
| `RunnerProtocol.AnswerTells` | pkg/observer/runner.go:86-133 | the outcome of Stop is decided by the moves taken: how often the WaitGroup was seen at zero, a wait timed out, the volumes could not be listed, none was left or some were; only a second timeout means hanging |
| `RunnerProtocol.NormalCompletion` | pkg/observer/runner.go:135-147 | when waitTimeout reports completion, every observer got its signal and returned, and saved its complete log exactly once unless it gave up polling, which no watch observer does |
| `RunnerProtocol.StopReturned` | pkg/observer/runner.go:86-133 | whenever Stop has returned, with whatever outcome, all observers have returned if and only if the WaitGroup is at zero, each got its signal, and each has saved its complete log exactly once unless it is draining or gave up polling |
| `RunnerProtocol.ErrorFreeStopLosesLog` | pkg/observer/runner.go:99-132 | after a Stop without an error a log is unsaved if and only if an observer gave up polling or, with no volume left and the WaitGroup above zero, one is still draining |
| `RunnerProtocol.NoErrorWithoutReturn` | pkg/observer/runner.go:99-132 | a run in which Stop ends without an error while an observer is still draining, its log unsaved |
| `RunnerProtocol.LeftObserverBlocksStop` | pkg/observer/runner.go:88-90 | once Stop reaches an observer that has left, no continuation moves it on |
| `RunnerProtocol.EarlyReturnBlocksStop` | pkg/observer/pod.go:45-48 | an observer with a nil client returns before its loop, and no continuation gets Stop past it |
| `RunnerProtocol.SendCompletesIffNotLeft` | pkg/observer/pod.go:45-56 | in every reachable state some continuation gets Stop past the observer it is sending to if and only if that observer has not left |
| `RunnerProtocol.PodTurnIsProtocolTurn` | pkg/observer/pod.go:65-74 | every turn of the concrete pod observer is a turn the protocol allows |
| `RunnerProtocol.PvcTurnIsProtocolTurn` | pkg/observer/pvc.go:64-73 | every turn of the concrete PVC observer is a turn the protocol allows |
| `RunnerProtocol.VaTurnIsProtocolTurn` | pkg/observer/va.go:65-152 | every turn of the concrete VA observer, draining included, is a turn the protocol allows |
| `RunnerProtocol.PodPollIsProtocolTurn` | pkg/observer/pod_alt.go:57-156 | every poll of the concrete polled pod observer is a turn the protocol allows |
| `RunnerProtocol.PvcPollIsProtocolTurn` | pkg/observer/pvc_alt.go:63-163 | every poll of the concrete polled PVC observer is a turn the protocol allows |
| `RunnerProtocol.VaPollIsProtocolTurn` | pkg/observer/va_alt.go:61-172 | every poll of the concrete polled VA observer, which may receive the signal and work in one poll, is one or two turns the protocol allows |
| `RunnerObservers.RunsRefine` | pkg/observer/runner.go:77-147 | every run of any number of the six concrete observers under Start and Stop is a run of the protocol |
| `RunnerObservers.LogsAreSaved` | pkg/observer/runner.go:86-133 | so once Stop has returned, every concrete observer has passed its real, complete log to SaveEvents exactly once unless it is draining or gave up polling, and all have returned if and only if the WaitGroup is at zero |
| `RunnerObservers.DatabaseHoldsLogs` | pkg/store/sqlite.go:216-241 | in every run of any number of the six observers over one database, that holds each event as often as it did at first, as observers have saved it and as others have stored it, and no entity row is ever changed |
| `RunnerObservers.LogsAreStored` | pkg/observer/runner.go:86-147 | once Stop has returned with all observers, none of which gave up polling, every event any of them logged stands in the database as often as it was logged |
| `Collector.EnterTimestamps` | pkg/collector/collector.go:200-204 | per event type the timestamp of the last event in row order, and the zero Time for a type that is missing |
| `Collector.LastIsAt` | pkg/collector/collector.go:200-204 | that timestamp is the one of the last event of the type, behind which there is no other, and the zero Time only stands for none |
| `Collector.SubIsNearest` | pkg/collector/collector.go:207-208 | a duration is the int64 nearest to the difference of the two times |
| `Collector.FindMaxAndMin` | pkg/collector/collector.go:265-277 | both are attained and bound every sample |
| `Collector.FindAvg` | pkg/collector/collector.go:279-285 | the wrapped int64 sum divided by the number of samples, truncated |
| `Collector.TruncDivRounds` | pkg/collector/collector.go:284 | the quotient is rounded toward zero |
| `Collector.SumAppend` | pkg/collector/collector.go:280-283 | the total over a list is that over its parts added, and that of one sample is the sample |
| `Collector.CalculateMetricsOfStages` | pkg/collector/collector.go:255-263 | every stage gets the summary of its own samples; indexing sample 0 needs non-empty lists |
| `Collector.MeasureEntity` | pkg/collector/collector.go:199-213 | one entity appends one row and one sample to every stage list |
| `Collector.GetMetrics` | pkg/collector/collector.go:188-253 | one row per grouped entity in whatever order, one sample per entity and stage, so no list is empty, and every stage summarized |
| `Collector.GetPodsMetrics` | pkg/collector/collector.go:188-216 | one row per pod, in which creation took from PodAdded to PodReady and deletion from PodTerminating to PodDeleted, each the difference of the last timestamps of the two kinds or the int64 nearest to it; the two stages are summarized unless there is no pod |
| `Collector.GetPVCsMetrics` | pkg/collector/collector.go:218-253 | one row per claim, in which binding took from PvcAdded to PvcBound, attachment from PvcAttachStarted to PvcAttachEnded, creation from PvcAdded to PvcAttachEnded, deletion and unattachment from their started to their ended event; the five stages are summarized |
| `Collector.AverageInBetween` | pkg/collector/collector.go:279-285 | Min, Avg and Max are ordered and Avg is the truncated exact mean as long as the sum fits |
| `Collector.AverageIsExactIffSumFits` | pkg/collector/collector.go:279-285 | Avg is the truncated exact mean if and only if the sum of the samples fits an int64 |
| `Collector.AverageOutsideWhenSumWraps` | pkg/collector/collector.go:279-285 | two maximal samples wrap the sum and put Avg below Min |
| `Collector.IncludedBySigns` | pkg/plotter/plotter.go:885-890 | a summary is included if and only if no sample is negative and some sample is positive, as long as the sum fits |
| `Collector.IncludedIffOrdered` | pkg/plotter/plotter.go:885-890 | a stage is included if and only if it ends no earlier than it starts for every entity and takes time for one |
| `Collector.UnfinishedIsRejected` | pkg/collector/collector.go:199-249 | one entity with a start and no end makes Min negative and the stage rejected, even when the sum wraps |
| `Collector.RangeOrderDoesNotMatter` | pkg/collector/collector.go:199-252 | any two orders of ranging over the grouped map give a stage the same summary |
| `Collector.UnstartedIsMaximal` | pkg/collector/collector.go:207-208 | an end without a start counts as the largest duration |
| `Plotter.Buckets` | pkg/plotter/plotter.go:72-103 | the keys are the laid-out range, cut at 3000, and every rounded duration; each count is the number of durations rounding to its key, and along any listing of the keys the counts add up to the number of entities |
| `Plotter.HasListing` | pkg/plotter/plotter.go:107-112 | the keys of a bucket map can be listed without repetition, as ranging over it does |
| `Plotter.RoundIsNearest` | pkg/plotter/plotter.go:77-97 | a duration goes to the nearest whole second, and from halfway to the one further from zero |
| `Plotter.HistogramConserves` | pkg/plotter/plotter.go:90-99 | over any list of distinct buckets that holds every rounded duration the numbers of durations add up to all of them |
| `Plotter.BucketsSpanTheSamples` | pkg/plotter/plotter.go:77-85 | the keys are exactly the integers from rounded Min to rounded Max if and only if each integer from 3000 on in that range has a duration, in particular below 3000 |
| `Plotter.GapBehind3000` | pkg/plotter/plotter.go:79-81 | samples of 0 and 4000 seconds have exactly the buckets 0 to 2999 and 4000 |
| `ParseDuration.Take` | pkg/utils/parseduration.go:47-61 | a field still zero takes the number of a submatch, in either letter case, and any other keeps its value |
| `ParseDuration.Parse` | pkg/utils/parseduration.go:42-67 | for every string the loop over the matches yields the fields of the token scan and fails exactly when their duration is zero |
| `ParseDuration.MatchesAreScanned` | pkg/utils/parseduration.go:43-45 | the submatches of all matches are, in order, exactly the scanned tokens of the string |
| `ParseDuration.AllAreMatches` | pkg/utils/parseduration.go:43 | every submatch is empty or a maximal digit run with the letter of its slot |
| `ParseDuration.LettersOfUnits` | pkg/utils/parseduration.go:43 | w, d, h, m and s, in either case, are the slots in this order |
| `ParseDuration.DecimalSnoc` | pkg/utils/parseduration.go:48 | digits are read in base ten |
| `ParseDuration.AtoiOfItoa` | pkg/utils/parseduration.go:48 | a printed number is read as itself, or as the largest int64 when it exceeds that |
| `ParseDuration.DurationIsTotal` | pkg/utils/parseduration.go:70-78 | the wrapping arithmetic is the exact total of 7-day weeks, 24-hour days, 60-minute hours and 60-second minutes in nanoseconds, wrapped once, and exact as long as that fits |
| `ParseDuration.UnitsNest` | pkg/utils/parseduration.go:27-78 | 60 seconds may be carried into a minute, 60 minutes into an hour, 24 hours into a day and 7 days into a week, any number of times, without changing the duration |
| `ParseDuration.SecondIs` | pkg/utils/parseduration.go:76 | a second more is 10^9 nanoseconds more |
| `ParseDuration.ParsePrint` | pkg/utils/parseduration.go:42-67 | parsing any printed list of components, in either case, gives per unit its first non-zero value |
| `ParseDuration.PrintAllRoundTrip` | pkg/utils/parseduration.go:42-67 | printing all five fields and parsing gives them back unless the duration is zero |
| `ParseDuration.PrintAllIs` | pkg/utils/parseduration.go:43 | the printed text is the five numbers, each followed by its letter |
| `ParseDuration.ZeroDuration` | pkg/utils/parseduration.go:63-65 | for totals that fit a zero duration means all fields are zero, so every positive one is read back |
| `ParseDuration.PrintSomeRoundTrip` | pkg/utils/parseduration.go:42-67 | printing only the non-zero fields in any order and parsing gives the duration back |
| `ParseDuration.NumberIsIterations` | pkg/testcore/runner/perf-runner.go:110-127 | a printed number is never taken for a duration but for the number of iterations, or for one iteration when it exceeds an int64 |
| `ParseDuration.SignedIsIterations` | pkg/testcore/runner/perf-runner.go:116-121 | so is a number with a sign |
| `ParseDuration.TextIsOneIteration` | pkg/testcore/runner/perf-runner.go:119-121 | a text without a digit means one iteration |
| `ParseDuration.DurationIsLongevity` | pkg/testcore/runner/perf-runner.go:110-127 | a printed duration whose total is positive and fits is taken for exactly that running time |
| `SuiteRunner.TasksAreSuites` | pkg/testcore/runner/perf-runner.go:321-329 | with distinct storage classes one iteration holds every suite exactly once |
| `SuiteRunner.TotalNumberOfSuites` | pkg/testcore/runner/perf-runner.go:241-244 | for every map the deferred count is the total over its classes, in whatever order it ranges |
| `SuiteRunner.ExecutedIsCountedIffNoneTwice` | pkg/testcore/runner/perf-runner.go:241-329 | with the listed classes exactly the map keys, an iteration executes at least the counted total, and exactly that if and only if no class with suites is listed twice |
| `SuiteRunner.Runner.RunSuites` | pkg/testcore/runner/perf-runner.go:238-355 | against any script of stop flags and results the run ends at the stop flag or the limit; the counter is the number of pairs of a completed pass and a suite that succeeded in it; IterationNum is the limit or one above the completed passes; and it is the run of the interleaved system in which every suite is taken in turn and a true result is a counted success, with the same counter, end and iteration |
| `SuiteRunner.Runner.ExecuteAll` | pkg/testcore/runner/perf-runner.go:321-329 | one sequential iteration adds exactly its number of true results |
| `SuiteRunner.SuccessesArePairs` | pkg/testcore/runner/perf-runner.go:195-196 | the number of successes of a script is the size of the set of pairs of a pass and a position whose result is true |
| `SuiteRunner.ScriptRuns` | pkg/testcore/runner/perf-runner.go:277-354 | the passes of a script, a true result being a write of the counter and a false one none, are a run of the system, in either mode, that counts exactly its successes and is at its limit exactly if that many passes are completed |
| `SuiteRunner.LimitExecutesEachSuite` | pkg/testcore/runner/perf-runner.go:332-336 | in every interleaving a run that ends at its limit executed every suite exactly that often |
| `SuiteRunner.RatioNeverOverstates` | pkg/testcore/runner/perf-runner.go:196-246 | with the unsynchronised counter, at every stop point of every interleaving the ratio is at least 0 and at most the true successes over the same denominator, sequentially it is equal to that, and both are at most 1 if no more suites are executed than counted |
| `SuiteRunner.RatioWithinOneIff` | pkg/testcore/runner/perf-runner.go:196-246 | for any limit and mode the ratio is at most 1 in every interleaving if and only if no more suites are executed than counted |
| `SuiteRunner.RatioWithinOneIffNoneTwice` | pkg/testcore/runner/perf-runner.go:196-329 | with the classes exactly the map keys that is so if and only if no class with suites is listed twice |
| `SuiteRunner.StoppedRunNeedsTenIterations` | pkg/testcore/runner/perf-runner.go:277-354 | a stopped run passes the threshold only after ten iterations, and after ten if all its suites succeeded |
| `SuiteRunner.StoppedRunUnderstates` | pkg/testcore/runner/perf-runner.go:277-354 | a run stopped after one successful iteration of one suite reports a half |
| `SuiteRunner.RepeatedClassOverstates` | pkg/testcore/runner/perf-runner.go:241-246 | one class with one suite, listed twice: a run of one iteration reports 2 |
| `Suites.ConcatAt` | pkg/testcore/suites/perf-suites.go:1616 | the flat index j+i*size is in bounds and finds entry j of part i |
| `Suites.VolumeSuite.ApplyDefaults` | pkg/testcore/suites/perf-suites.go:1512-1519 | numbers that are not positive become five volumes and one pod |
| `Suites.VolumeSuite.CreateVolumes` | pkg/testcore/suites/perf-suites.go:1531-1556 | the pods' volume lists together are the list of all volumes, in order of creation |
| `Suites.VolumeSuite.SnapshotVolumes` | pkg/testcore/suites/perf-suites.go:1563-1605 | slices of at most ten, all but the last full, concatenate to all volumes, and the snapshots match them position by position |
| `Suites.VolumeSuite.RestoreVolumes` | pkg/testcore/suites/perf-suites.go:1611-1633 | the flat index visits every source exactly once, in order and in bounds, for all pod and volume numbers |
| `Suites.VolumeSuite.RunReplication` | pkg/testcore/suites/perf-suites.go:1506-1633 | pod i has the volumes created in its turn, and its restored volume j comes from the snapshot of its volume j, named after it with the prefix snap- |
| `Suites.VolumeSuite.RunClone` | pkg/testcore/suites/perf-suites.go:2315-2370 | pod i has the volumes created in its turn, and its clone j comes from its volume j |
| `Suites.CheckSize` | pkg/testcore/suites/perf-suites.go:1944-1976 | the loop over the split output returns the size left by stepping six fields from field twelve, 0 for none, an error for a size that is no number |
| `Suites.FieldsOfLayout` | pkg/testcore/suites/perf-suites.go:1956 | splitting on blanks and newlines undoes laying words out with any such gaps |
| `Suites.CheckSizeReadsTable` | pkg/testcore/suites/perf-suites.go:1954-1975 | on any df table the result is the size column of the last row whose mount field contains the path, and 0 if there is none |
| `Suites.CheckSizeReadsNumber` | pkg/testcore/suites/perf-suites.go:1965-1975 | when that column holds a printed number that fits, this is the result, and an error when it does not fit |
| `Text.ContainsMeans` | pkg/reporter/reporter.go:369 | substring search finds the part at any position |
| `Reporter.SplitJoin` | pkg/reporter/reporter.go:365-379 | splitting undoes joining for lines without newlines |
| `Reporter.AddPathToFile` | pkg/reporter/reporter.go:360-380 | the loop with its found flag writes the updated content |
| `Reporter.Overwrite` | pkg/reporter/reporter.go:367-373 | overwriting in place replaces exactly the binding lines and finds whether there is one |
| `Reporter.UpdateBinds` | pkg/reporter/reporter.go:360-380 | afterwards the variable is bound to the path alone, all other lines keep text and place, and a line is added if and only if none bound it |
| `Reporter.LineIs` | pkg/reporter/reporter.go:368-377 | the line written is export, the variable, an equals sign and the path; a file without a line for the variable gets it at its end and is otherwise unchanged |
| `Reporter.LastUpdateWins` | pkg/reporter/reporter.go:360-380 | a later update overrides an earlier one as if that had never been; repeating one changes nothing |
| `Reporter.BindsOtherOnlyInPath` | pkg/reporter/reporter.go:369 | a line of one variable is taken for another's if and only if its path contains that one's export |
| `Reporter.SurvivesOtherUpdate` | pkg/reporter/reporter.go:360-380 | a binding survives another variable's update if and only if neither path contains the other's export |
| `Reporter.LostBinding` | pkg/reporter/reporter.go:368-373 | a path that is another variable's export takes that variable's line away |
| `Reporter.UpdatesCommute` | pkg/reporter/reporter.go:360-380 | updates of different variables in either order leave both bound |
| `ReplicationGroup.RG.Stabilize` | pkg/k8sclient/resources/replicationgroup/rg.go:175-213 | the polling loop reaches, is cancelled or times out as its polls say, and sets the action |
| `ReplicationGroup.ReachedIffObserved` | pkg/k8sclient/resources/replicationgroup/rg.go:192-210 | waiting succeeds if and only if the expected state is read before a cancellation |
| `ReplicationGroup.RG.ExecuteAction` | pkg/k8sclient/resources/replicationgroup/rg.go:101-139 | an action is submitted if and only if its pre-state was observed, and completes if and only if the update succeeds and its post-state is observed |
| `ReplicationGroup.KindsChain` | pkg/k8sclient/resources/replicationgroup/rg.go:151-173 | for every driver the post-state of each kind of action is the pre-state of the other and never its own; behind a failover it is SUSPENDED for powermax and FAILEDOVER for any other driver |
| `ReplicationGroup.CompletesInPreState` | pkg/k8sclient/resources/replicationgroup/rg.go:101-139 | on a steady cluster that reaches desired states an action completes if and only if the state is its pre-state |
| `ReplicationGroup.ChainsCompleteIffAlternating` | pkg/k8sclient/resources/replicationgroup/rg.go:101-173 | a chain of any length from SYNCHRONIZED never stalls if and only if failovers and reprotects alternate, and exactly the even lengths end SYNCHRONIZED |

## Left out

- Random suffixes, event names and the test-case id of an event: dropped, no reader uses them.
- Errors of SaveEntities other than the UNIQUE violation, and errors of SaveEvents: the first are logged and otherwise ignored, the second only end the observer that is returning anyway.
- The SQLite engine, SQL text, and prepared statements: rows are sequences with consecutive ids, the join is any arrangement of the matching pairs.
- Kubernetes calls, and the early returns of the suites and of ExecuteAction when one of them fails: the cluster is a stream of changes, snapshots or polls and a function that names created volumes.
- `wait.PollImmediate`, sleeping and the 24-hour limit: a polled observer whose time is over ends like one whose List failed; a wait is the finite list of polls the timeout allows.
- Changes of PvcShare while the polled VA observer is inside one poll: it is constant within a poll and arbitrary between polls. The watch observer reads it at every turn, as in the code.
- RunnerObservers.LogsAreSaved: a turn that crashes ends the process and is not run on from. Besides the turns of the observers, moves of others may store rows and change PvcShare in any way, of which the erasure by Stop is one.
- Observer processes as Go schedules them: one turn of a select loop, one poll, one read or one write of the success counter is a step; turns interleave arbitrarily.
- SuiteRunner.RatioNeverOverstates: reads the counter as an integer and the ratio as a real; float64 rounding is not modelled.
- Collector.FindAvg: truncates the exact quotient; the rounding of the float64 conversion is not modelled.
- Collector.AverageInBetween: is about that exact quotient, which float64 values leave above 2^53 nanoseconds.
- Collector.AverageIsExactIffSumFits: is about that exact quotient, too.
- SuiteRunner.Runner.RunSuites: the script of passes is finite, so a run without a limit and without a stop is followed to the end of its script only.
- Reconnecting to the cluster between iterations, signal handling, cancelled iteration contexts, hooks and cool-down: none of them touches the accounting.
- `EntityNumberObserver`, `ContainerMetricsObserver`, the functional runner, report templates, plots and file paths: plumbing, or counting that would only add easy members.
- validateCustomName, access modes and custom names of the clone suite: they do not affect which volume is cloned.
