# A verified model of the file-backed API server and its kubelet

The repository is a small Kubernetes: an API server whose objects are JSON files, and a kubelet
that keeps one Docker container per pod container. This project models the parts where
several parties act on shared state, and proves what they keep in every run.

**Storage.** One JSON file per object, one persisted version counter shared by all
resources, a ring of recent events and a set of watch channels. Two models:

- `Protocol*` runs writers, watches and `Stop` calls as threads, one action per step
  (lock, read, bump, persist, rename, append, offer, unlock), with crashes between any
  two steps, file-system faults, and panics that end one request only. Results are in
  `ProtocolTheorems`, `ProtocolProgress` (locks), `ProtocolPanics`, `ProtocolStreams` and
  `ProtocolSnapshots` (what a watch is sent) and `ProtocolLists` (lists read between the
  steps of the others, and watches that resume from a version); `ProtocolRuns` and
  `ProtocolListRuns` have whole runs from the start to states one would not want; the other
  `Protocol*` modules are the parts of the invariant.
- `Atomic`, `Watches` and `Lists` take each write as one step, while lists are still read
  file by file. `Broadcaster` and `Store` are the classes, with the loops of the source,
  and are proved against the functions of `Ring` and `Atomic`.

`Counter` and `Decimal` are the counter and its text; `Paths`, `Tree`, `Layout` and
`Writes` the keys, the directory walk, the tree as a flat map and the writing of files.

**Kubelet.** `Docker` is the daemon, whose calls may fail at any time; `Reconciler` has
the worker's passes and the reapers as methods; `PodStatus` the status report; `StatusLoop`
its way through the API server back to the kubelet, by merge patch (section 2 of RFC 7396,
in `Json`); `PhaseRuns` the phase the API server shows over runs of passes; `Strategy` and
`Deletion` two-phase deletion; `Reaper` all parties interleaved.

**Logs.** `LogOptions` has the encoder and the two decoders of log options.

## What turned out not to hold

These are properties one would expect and the code does not have. Each is stated with
the exact condition under which it does hold, or with a run that shows the failure.

- The counter is a `uint64` and wraps; versions grow exactly below its top
  (`Counter.GrowsAcrossRestart`).
- `Delete` removes the file before it takes a version. If the version cannot be
  persisted the removal stays and is never announced (`Store.Store.Delete`; the entry
  `LostRemoval` in `ProtocolTheorems.NoLostUpdate`). A watch that has missed nothing by a panic
  is right about a key exactly when no such removal came after it had the object
  (`ProtocolTheorems.WatchTracksFiles`, `ProtocolTheorems.UnseenIsLost`).
- A watch channel holds 100 signals. During `publish`, a subscriber whose buffer is full
  makes the publisher call `Stop`, whose hook needs the mutex it holds: it never gets out
  (`ProtocolProgress.OverflowIff`, `ProtocolProgress.OverflowBlocksForever`,
  `ProtocolRuns.PublisherBlocks`).
- Nobody receives before `Watch` returns. It returns an open channel with its whole snapshot
  or replay exactly when those are at most 100 signals (`Store.Store.Watch`). With 101 its own
  delivery closes the channel, which is subscribed all the same, and the next matching event
  may panic (`ProtocolRuns.SnapshotOverflowPanics`). With 102 it may panic itself, and leaves
  the broadcaster mutex locked for good (`ProtocolRuns.SnapshotOverflowLocks`,
  `ProtocolProgress.DeadWatchLocks`). But for this and a full buffer during `publish` there is
  no deadlock (`ProtocolProgress.DeadlockFree`).
- `Stop`, or a cancelled context, before `Watch` has returned makes later events panic too
  (`ProtocolRuns.EarlyStopPanics`). Without these two nothing panics
  (`ProtocolPanics.OrderlyNeverPanics`).
- A publisher that panics has not told the subscribers it had not come to, and never does
  (`ProtocolRuns.PanicLosesEvent`); nothing else makes a live watch miss an event
  (`ProtocolPanics.MissedSince`).
- An empty ring accepts every start version, so a replay is right about what was
  published before the store was opened exactly when it starts at or above the version
  at opening (`Watches.ReplayExactSinceOpening`).
- A replay is refused needlessly exactly when its start lies in a gap just below the ring
  (`Watches.RefusalExact`, `Watches.RefusalMayBeConservative`).
- With concurrent writers a list followed by a watch from its version, or a watch that is
  resumed, can miss an object for good. It does exactly when the last event of the key was
  announced before the watch began, is not above the version or was evicted by then, and is
  newer than the copy the client has (`ProtocolLists.ListThenWatchIff`,
  `ProtocolLists.ReconnectIff`). Both happen: a version in flight while the list is read
  (`ProtocolListRuns.InFlightMissed`), and two versions announced out of order of which the
  newer one is evicted first, so that the ring seems to reach back far enough
  (`ProtocolListRuns.EvictedMissed`). Without the two it always works
  (`ProtocolLists.ListThenWatchWorks`, `ProtocolLists.ReconnectWorks`).
- A watch cut inside its snapshot resumes correctly exactly when each object it had not
  received yet is newer than the one it resumes from, or was changed since
  (`Lists.SnapshotCut`, `Lists.CutLosesObject`).
- Walks skip names that start with a dot, `Get` does not (`Layout.WalkSees`). So a watch or a
  list is right about an unchanged object exactly when its name has no leading dot or it was
  asked for by its own key (`Lists.SnapshotView`, `Lists.ListThenWatch`).
- The key of a cluster-scoped object passes for the prefix of a namespace. A watch of that
  key matches no event of the object (`Paths.OwnKeyMatches`), and its snapshot and `Count`
  find nothing, while `Get` finds the object (`Layout.OwnKeyUnseen`).
- The kubelet's final deletion goes by name. It removes the pod the pass worked for
  exactly when the name has had a pod ever since (`Deletion.RemovesItsOwnPodIff`); with
  a stale cache a second pass removes the successor of a deleted pod
  (`Deletion.StalePassRemovesSuccessor`).
- The status loop settles exactly when no time stamp comes from the clock
  (`StatusLoop.SettlesIff`).
- A status report does not clear the reason and message of an earlier failure. They are
  those of the last report exactly when it has them or there never were any
  (`StatusLoop.ExplanationIsCurrentIff`).
- A failure that comes back after a complete pass is not reported again: the memory of
  reported failures is cleared by deletion only (`PhaseRuns.RecurrenceUnseen`). The phase is
  Failed exactly when a pass failed with news and none has recovered since
  (`PhaseRuns.FailedIff`).
- A failed container listing passes for a pod without containers, so the delete handler
  then leaves them to the orphan reaper (`Reconciler.Reconciler.ReapByUID`).
- `previous` is read by the API server only: it can make a query fail there that the
  kubelet accepts, and it is not passed on (`LogOptions.DecodersAgreeIff`,
  `LogOptions.ProxyIsTransparent`).

## Model

| member | source | states |
|---|---|---|
| Decimal.UintRoundTrip | internal/fsstorage/counter.go:49-65 | Printing and parsing a uint64 gives it back. |
| Decimal.IntRoundTrip | internal/apiserver/podlogs.go:193-201 | Every int64, the smallest included, survives printing and parsing. |
| Decimal.LoadFormatted | internal/fsstorage/counter.go:37-57 | A persisted version is read back unchanged, and never below 1. |
| Decimal.DecimalTexts | internal/fsstorage/counter.go:49-65 | What the texts look like, and which texts are not numbers. |
| Decimal.OutOfRange | internal/apiserver/podlogs.go:193-201 | Numbers beyond 64 bits are refused. |
| Decimal.LoadPadded | internal/fsstorage/counter.go:45-52 | White space around a persisted version does not count. |
| Decimal.LoadBlank | internal/fsstorage/counter.go:37-48 | Without a version file, or with a blank one, versions start at 1. |
| Counter.Counter.Persist | internal/fsstorage/counter.go:59-80 | For each failing system call, what `.rv` and `.rv.tmp` hold afterwards: only a completed rename touches `.rv`. |
| Counter.Counter.Next | internal/fsstorage/counter.go:83-92 | Issues the successor and persists it, or rolls back and issues nothing; below the top memory and disk agree; at the top comes 0. |
| Counter.Counter.Current | internal/fsstorage/counter.go:95-99 | The value a restart would load. |
| Counter.Open | internal/fsstorage/counter.go:25-33 | A counter exactly when `.rv` is absent, or can be read and is blank or a uint64, starting from that value. |
| Counter.GrowsAcrossRestart | internal/fsstorage/counter.go:83-92 | The next version after a restart is larger if and only if the counter was below its top; at the top it starts again from 1. |
| ProtocolTheorems.InvKept | internal/fsstorage/store.go:209-455 | Every step of every thread, and every crash, keeps the invariant of the protocol. |
| ProtocolTheorems.RunInv | internal/fsstorage/store.go:598-703 | The invariant holds in every state of every run. |
| ProtocolTheorems.WatchTracksFiles | internal/fsstorage/store.go:641-702 | In every interleaving, what a subscribed watch from version 0 was sent folds to exactly the file of a matching key with no change on its way, if and only if no removal of the key is unseen by it; for a key it neither lists nor was told of, if and only if there is no file. Only a key of which it missed an event by a panic is excepted. |
| ProtocolTheorems.UnseenIsLost | internal/fsstorage/store.go:327-334 | While nobody changes the key, an unseen removal is one that got no version. |
| ProtocolTheorems.NoLostUpdate | internal/fsstorage/store.go:361-453 | Each file is the composition, in ascending order of version, of exactly the requests that took effect, each decided on the result of the one before. |
| ProtocolTheorems.Announcements | internal/fsstorage/store.go:218-453 | In every run, an announced creation found no object; an announced update found one that met its precondition, or none if it may create; an announced deletion found one that met its precondition. The event is Added exactly if there was none, Deleted exactly for a deletion, else Modified, and has the new object, or the last one, with its version. |
| ProtocolTheorems.RefusedIff | internal/fsstorage/store.go:223-412 | What a request has to read in the file to be refused, or to change nothing; then it only releases the key. |
| ProtocolTheorems.FinishedTakesNoVersion | internal/fsstorage/store.go:406-412 | A request that is refused, or whose object encodes as before, takes no version. |
| ProtocolTheorems.RingAscendsPerKey | internal/fsstorage/store.go:218-259 | Events of one key are in the ring in strictly ascending order of version, across deletion and re-creation. |
| ProtocolTheorems.InversionsOverlap | internal/fsstorage/watch.go:26 | Two events out of order are of different keys, and the later one's request had begun when the earlier one was announced. |
| ProtocolTheorems.VersionsSurviveCrashes | internal/fsstorage/counter.go:37-92 | Through any crashes, issued versions ascend strictly, and none, nor any stored object's, exceeds what a restart loads. |
| ProtocolTheorems.NewVersionsExceed | internal/fsstorage/counter.go:83-92 | A version issued at any step exceeds all issued before, in files or in announcements. |
| ProtocolProgress.DeadlockFree | internal/fsstorage/store.go:218-259 | As long as no publisher has met a full buffer and no watch has panicked over its own signals, some thread can step if one is unfinished; all other panics release what they hold. |
| ProtocolProgress.OverflowIff | internal/fsstorage/watch.go:114-143 | A publisher calls `Stop` on a subscriber if and only if the key matches, 100 signals are buffered and `stopCh` is open; then it can do nothing else. |
| ProtocolProgress.StillBlocked | internal/fsstorage/watch.go:125-143 | No step of any thread gets the publisher out of that `Stop`. |
| ProtocolProgress.OverflowBlocksForever | internal/fsstorage/watch.go:77-122 | Once a publisher met a full buffer it holds its two mutexes until the process ends, whatever the others do. |
| ProtocolRuns.PublisherBlocks | internal/fsstorage/watch.go:114-122 | A run without faults or `Stop` calls that gets there. |
| ProtocolProgress.DeadWatchLocks | internal/fsstorage/store.go:643-700 | After a watch panicked over its own signals the broadcaster mutex stays locked, and ring and subscriptions stay as they are, until the process ends. |
| ProtocolRuns.SnapshotOverflowLocks | internal/fsstorage/store.go:648-700 | A run that gets there: a watch of 102 objects, without any `Stop` call. |
| ProtocolPanics.OrderlyNeverPanics | internal/fsstorage/watch.go:114-143 | In every run in which watches are stopped only after `Watch` has returned them, and start with at most 100 signals, nothing panics. |
| ProtocolPanics.MissedSince | internal/fsstorage/watch.go:37-54 | A live watch misses an event only if its publisher panicked before it came to the watch. |
| ProtocolRuns.PanicLosesEvent | internal/fsstorage/watch.go:37-54 | A run after which nothing is under way and an open subscriber does not show an object, for such a panic. |
| ProtocolRuns.ClosedSubscriberPanics | internal/fsstorage/watch.go:114-124 | Conversely, while a subscriber has a closed channel and nothing is under way, creating a matching object can panic. |
| ProtocolRuns.EarlyStopPanics | internal/fsstorage/store.go:639-699 | A run that panics after a `Stop` between snapshot and subscription. |
| ProtocolRuns.SnapshotOverflowPanics | internal/fsstorage/store.go:648-699 | A run that panics after a watch of 101 objects, without any `Stop` call. |
| ProtocolStreams.WatchIsSent | internal/fsstorage/store.go:678-699 | In every interleaving, an accepted watch from a version is sent the events above it that the ring held when it began, then all matching events published since, in that order. |
| ProtocolSnapshots.SnapshotIsSent | internal/fsstorage/store.go:648-677 | In every interleaving, a watch from version 0 is sent each object of its snapshot once, as an addition, under a key it is about; then, exactly if it was asked for, one bookmark, with a version between those announced before and the counter; then changes only. |
| ProtocolStreams.RefusedWhen | internal/fsstorage/watch.go:58-65 | A watch is refused if and only if its version is above 0, below the current one and more than one below the oldest event of the ring. |
| ProtocolStreams.RefusedIsTold | internal/fsstorage/store.go:680-686 | In every run, a refused watch is sent the error and nothing else, unless it was stopped already. |
| ProtocolLists.LookedAt | internal/fsstorage/store.go:457-542 | Each key that a list read between the steps of writers covers has the content its file had at one of the list's own steps. |
| ProtocolLists.ResumedIff | internal/fsstorage/store.go:678-699 | A client with any copy of a settled key that watches from any version ends up with the file if and only if the last event was not left out, or the copy is not older than it. |
| ProtocolLists.ListThenWatchIff | internal/fsstorage/store.go:467-541 | The same for a list and a watch from its version, in every interleaving, also for keys the list does not look at. |
| ProtocolLists.LostListThenWatch | internal/fsstorage/store.go:327-334 | After a removal without a version they are right exactly when neither showed the object. |
| ProtocolLists.ListThenWatchWorks | internal/fsstorage/store.go:467-541 | If no version was in flight when the list took its own, and the ring has evicted in order, they are right about every settled key the list looks at. |
| ProtocolLists.ReconnectIff | internal/fsstorage/store.go:678-699 | A watch cut after any part of what it was sent and resumed from any version ends up right under the condition of `ResumedIff`. |
| ProtocolLists.ReconnectWorks | internal/fsstorage/store.go:678-699 | A client that is right at a moment with no version in flight, and resumes from a version not above the counter then, is right again, if the ring has evicted in order. |
| ProtocolListRuns.InFlightMissed | internal/fsstorage/store.go:467-541 | A run in which a list and a watch from its version miss an object, for a version in flight. |
| ProtocolListRuns.EvictedMissed | internal/fsstorage/watch.go:58-73 | For every capacity of the ring, a run in which they miss one for an eviction out of order, though nothing was in flight. |
| ProtocolProgress.SilentAfterUnsubscribe | internal/fsstorage/watch.go:75-82 | After it left the subscriptions a watch is sent nothing more, and does not come back. |
| Atomic.ValidKept | internal/fsstorage/store.go:209-455 | Each request keeps versions ascending and each file equal to what the history makes of it. |
| Atomic.ValidSteps | internal/fsstorage/store.go:209-455 | The same over any sequence of requests of this and of other resources. |
| Broadcaster.Watcher.Deliver | internal/fsstorage/watch.go:114-143 | What becomes of the channel and of the caller for each state of the channel: room, full with or without the hook, closed. |
| Broadcaster.Broadcaster.Publish | internal/fsstorage/watch.go:37-54 | The ring is the cut history; publishing is sure to return when every concerned watcher has room, hangs or panics only at one that has none, and gives the event to exactly the matching ones. |
| Ring.TrimKeeps | internal/fsstorage/watch.go:41-44 | The ring has the latest events, as many as its capacity. |
| Ring.SelectsConcerned | internal/fsstorage/watch.go:45-53 | A watch is concerned by an event of any key, of its namespace, or of its one key. |
| Broadcaster.Broadcaster.ReplayLocked | internal/fsstorage/watch.go:58-73 | The loop computes the replay function. |
| Broadcaster.Broadcaster.Stop | internal/fsstorage/watch.go:125-143 | Only the first call counts; it closes the channel, and ends the subscription only if the hook was set. |
| Watches.ReplayExact | internal/fsstorage/watch.go:58-73 | An accepted replay is exactly the events of the whole history above the start: nothing evicted is missing, gaps or not. |
| Watches.ReplayExactSinceOpening | internal/fsstorage/watch.go:59-65 | It is right about every possible past if and only if it starts at or above the version at opening. |
| Watches.RefusalExact | internal/fsstorage/watch.go:62-65 | A replay is refused exactly when an event above its start was evicted, if and only if its start does not lie in a gap just below the ring. |
| Watches.RefusalMayBeConservative | internal/fsstorage/watch.go:62-65 | Steps from an empty store after which a replay is refused though nothing was evicted. |
| Watches.StreamIsComplete | internal/fsstorage/store.go:678-699 | An accepted watch is offered every matching event above its start, replayed or live, in order. |
| Watches.CutStream | internal/fsstorage/store.go:678-699 | What follows an event in a stream is the stream from that event's version. |
| Watches.Reconnect | internal/fsstorage/store.go:678-699 | A watch cut after any event and resumed from its version gets, unless refused, exactly what an uncut watch gets. |
| Lists.ListThenWatch | internal/fsstorage/store.go:467-541 | A list read file by file while writes go on, followed by an accepted watch from its version, gives the current file of a covered key if and only if the list looks at it, or it was changed since, or there is none. |
| Lists.SnapshotView | internal/fsstorage/store.go:648-669 | A snapshot shows the file of a matching key if and only if it looks at it or there is none. |
| Lists.SnapshotCut | internal/fsstorage/store.go:648-697 | A watch cut inside its snapshot and resumed any time later ends up right if and only if each object not yet received is newer than the last one received or was changed since; the last one received is not older than the opening. |
| Lists.CutLosesObject | internal/fsstorage/store.go:648-697 | Two creations after which it does not. |
| Lists.SnapshotSize | internal/fsstorage/store.go:544-560 | A walk visits as many objects as there are matching files it looks at. |
| Store.Store.NextRV | internal/fsstorage/store.go:89 | The next version, or none and no change. |
| Store.Store.Create | internal/fsstorage/store.go:209-261 | If the key is taken, KeyExists and no change. Else, but for a fault, the object is stored with the next version, announced as Added and returned; what each fault leaves. |
| Store.Store.Delete | internal/fsstorage/store.go:286-348 | NotFound, or PreconditionFailed, and no change; else, but for a fault, the object goes, is announced as Deleted with the next version and returned; without a version it is gone all the same, unannounced. |
| Store.Store.Remove | internal/fsstorage/store.go:327-348 | The file goes first; the removal is announced exactly if a version can be had. |
| Store.Store.GuaranteedUpdate | internal/fsstorage/store.go:350-455 | NotFound, PreconditionFailed or the failure of the callback, and no change; no change either if the callback returns what it got. Else, but for a fault, what it returns is stored with the next version and announced, as Added if there was no object and as Modified if there was. |
| Store.Store.Walk | internal/fsstorage/store.go:722-754 | Every matching object that walks look at, once. |
| Store.Store.GetList | internal/fsstorage/store.go:457-542 | The objects of all matching files that walks look at, each once, and the version at the start. |
| Store.Store.Count | internal/fsstorage/store.go:544-560 | The number of matching objects that walks look at. |
| Store.Store.SendSnapshot | internal/fsstorage/store.go:648-677 | The channel gets each such object once, as an addition, then the bookmark if asked for, up to 100 signals; one more closes it. |
| Store.Store.SendReplay | internal/fsstorage/store.go:678-697 | The channel gets the matching events of the replay with the same limit, or the error alone. |
| Store.Store.Watch | internal/fsstorage/store.go:598-703 | From version 0: each object of the snapshot as an addition, then the bookmark with the current version if and only if it was asked for, as far as 100 signals reach. For each start version: it returns an open channel with the whole snapshot or replay if and only if that is at most 100 signals; else it is closed and subscribed; a refused watch is not subscribed. |
| Paths.ParseBuild | internal/fsstorage/store.go:103-122 | A key parses to the address it was built from, with or without a trailing slash. |
| Paths.ParsePrefixes | internal/fsstorage/store.go:126-140 | Prefixes of a resource, a namespace and a namespaced object are told apart; the key of a cluster-scoped object reads as a namespace. |
| Paths.KeyTexts | internal/fsstorage/store.go:142-154 | The text of keys and of file paths. |
| Paths.ParseOthers | internal/fsstorage/store.go:103-140 | The key of a resource names no object, empty and longer keys are refused; of a prefix the first three segments count. |
| Paths.PrefixMatches | internal/fsstorage/store.go:609-637 | A watch of a resource, of a namespace or of one object is told of exactly those objects. |
| Paths.OwnKeyMatches | internal/apiserver/storage.go:74-83 | A watch of an object's own key gets its events if and only if the object has a namespace. |
| Paths.ObjectPathInjective | internal/fsstorage/store.go:142-147 | Different addresses have different files. |
| Tree.WalkObjects | internal/fsstorage/store.go:722-754 | The recursive walk visits each visible file below a directory exactly once. |
| Layout.RunHolds | internal/fsstorage/store.go:142-154 | After any run of writes, interrupted writes, removals and counter updates the tree holds exactly the stored objects. |
| Layout.ChangeShows | internal/fsstorage/store.go:180-205 | After any run, a write carried through stores its data, a removal takes the object away, and neither touches another object. |
| Writes.FileTree.AtomicWrite | internal/fsstorage/store.go:181-205 | The changes to the tree, one by one, for each failing system call. |
| Writes.WriteIsAtomic | internal/fsstorage/store.go:180-205 | Interrupted after any of these changes, or failed, a write leaves the old content or all of the new. |
| Layout.WalkSees | internal/fsstorage/store.go:722-741 | A walk visits a stored object if and only if it is in the prefix and its name does not start with a dot. |
| Layout.WalkSeesOnly | internal/fsstorage/store.go:719-741 | It visits no temporary and no version file. |
| Layout.CountIsSize | internal/fsstorage/store.go:544-560 | As many files are visited as there are stored objects in the prefix whose names have no leading dot. |
| Layout.Get | internal/fsstorage/store.go:263-284 | On the tree left by any run of changes: the stored object of the key, or none. |
| Layout.Walk | internal/fsstorage/store.go:722-754 | On such a tree: visits as many files as there are listed objects. |
| Layout.Count | internal/fsstorage/store.go:544-560 | On such a tree: 1 or 0 as `Get` finds the single object or not, else the number of listed objects. |
| Layout.Stats | internal/fsstorage/store.go:562-580 | On such a tree: the number of listed objects, which is the sum of the counts of the resources, and their average size. |
| Layout.TotalGrows | internal/fsstorage/store.go:562-580 | The average is that of the lengths of the stored objects. |
| Layout.OwnKeyUnseen | internal/fsstorage/store.go:126-140 | `Count` and a snapshot under the own key of a cluster-scoped object see nothing. |
| Layout.StatsIsSum | internal/fsstorage/store.go:562-580 | That number is the sum of the counts of the resources. |
| PodStatus.PodStatusFromViews | internal/kubelet/translate.go:219-322 | The flag loop reports what the declarative rule says: phase, message of the last failed container, earliest start, one status per container; the default branch cannot be reached. |
| PodStatus.PhaseReported | internal/kubelet/translate.go:302-314 | The phase is Failed if and only if some container exited with another code than 0 or for lack of memory, Pending if and only if none did and one is missing, Succeeded if and only if all exited with 0. |
| PodStatus.MessageReported | internal/kubelet/translate.go:284-292 | The message is about the last container that failed, and says OOMKilled if and only if Docker does, with its exit code. |
| PodStatus.StartReported | internal/kubelet/translate.go:255-297 | The start time is that of the container that started first; a running one without a start time counts as started now. |
| PodStatus.ContainerReported | internal/kubelet/translate.go:237-283 | The status of each container, field by field. |
| PodStatus.ReportsDetermine | internal/kubelet/translate.go:219-322 | The rule leaves one status only. |
| PodStatus.OrderIndependent | internal/kubelet/translate.go:237-322 | Phase and start time do not depend on the order of the containers. |
| PodStatus.RunForward | internal/kubelet/translate.go:302-314 | Along any run of containers going from absent to running to exited the phase only moves forward and never leaves Failed or Succeeded. |
| Reconciler.ContainerNameInjective | internal/kubelet/translate.go:37-39 | Container names determine the container, and the pod when UIDs have no underscore. |
| Reconciler.ContainerNameCollision | internal/kubelet/translate.go:37-39 | With underscores in UIDs two containers can share a name. |
| Reconciler.SecondsExact | internal/kubelet/reconciler.go:254-257 | A period in seconds becomes that many thousand million nanoseconds, for up to 292 years; beyond, the lowest 64 bits of that. |
| Reconciler.ContainerSpecsFromPod | internal/kubelet/translate.go:89-148 | Specs in spec order with name, image and UID; the first has the network mode "", each other one "container:" and the name of the first; a pod without containers is rejected, and so is one with a container that cannot be resolved, for the first of these. |
| Reconciler.PrefixGrows | internal/kubelet/reconciler.go:214-244 | Making the next container keeps the existing ones a prefix of the spec. |
| Reconciler.TriesStayPrefixed | internal/kubelet/reconciler.go:214-244 | A history of attempts to create a container whose predecessors exist keeps to prefixes, at every point. |
| Reconciler.Reconciler.LivePassLeads | internal/kubelet/reconciler.go:209-247 | Whatever fails in it, a pass over a live pod consists of such attempts. |
| Reconciler.RunKeepsPrefix | internal/kubelet/reconciler.go:214-244 | Over any run of such passes and of steps on other pods, the containers of a pod are the first ones of its spec, so the first is there if any is. |
| Reconciler.Reconciler.MakeContainer | internal/kubelet/reconciler.go:223-242 | The exact calls for a missing container, whichever of them fails. |
| Reconciler.Reconciler.EnsureContainer | internal/kubelet/reconciler.go:217-244 | The same for any container; it is made, or fails to be made, only if it was missing. |
| Reconciler.Reconciler.EnsureContainers | internal/kubelet/reconciler.go:214-244 | The calls of the loop in order; whenever it tries to create a container, those before it exist; if making one fails, that one was missing at the start. Each creation comes right after a successful pull of its image; the first container gets a network of its own, and every other one joins that of the first, which exists at that point of the history. |
| Reconciler.Reconciler.MarkFailedOnce | internal/kubelet/reconciler.go:313-328 | A failure is reported, with phase Failed and reason KubeletLite, unless the same one was reported before; it is remembered exactly if the report was not rejected. |
| Reconciler.Reconciler.ReconcileLive | internal/kubelet/reconciler.go:209-247 | All of the above for a pass over a live pod, and what it reports in each case. |
| Reconciler.Reconciler.PatchPodStatus | internal/kubelet/reconciler.go:330-340 | One patch is sent, and the pass is tried again exactly if it was rejected; a pod that is gone counts as patched. |
| Reconciler.Reconciler.FailuresReported | internal/kubelet/reconciler.go:219-245 | A failed pull or creation ends the pass and is reported as the failure of the pod, unless it was before; a missing answer of Docker is not, and the pass is tried again. |
| Reconciler.Reconciler.ReconcilePod | internal/kubelet/reconciler.go:194-247 | No call for a pod without UID, the terminating pass once it is marked, else the live one. |
| Reconciler.CompletePassHasAll | internal/kubelet/reconciler.go:214-246 | A complete pass leaves every container of the spec in place, and has seen each. |
| Reconciler.NoneCreated | internal/kubelet/reconciler.go:219-223 | A pass that starts with all containers in place only inspects, however it ends. |
| Reconciler.HaltsInOrder | internal/kubelet/reconciler.go:261-274 | In the trace of a terminating pass each container is found absent or asked to stop with the pod's grace, after all that follow it in the spec. |
| Reconciler.TerminatesInReverse | internal/kubelet/reconciler.go:252-274 | A terminating pass that gets through has found every container of the spec absent or asked it to stop, the last one first, with the period of the pod in nanoseconds, or 30 seconds if it has none. |
| Reconciler.TerminatingCalls | internal/kubelet/reconciler.go:252-274 | A terminating pass asks Docker for nothing else: it only inspects, and stops what it has just found, with the period of the pod in nanoseconds, or 30 seconds. |
| Reconciler.Reconciler.StopContainers | internal/kubelet/reconciler.go:261-274 | The loop makes exactly that trace; a failed inspection ends it, a failed stop does not. |
| Reconciler.Reconciler.TerminatePod | internal/kubelet/reconciler.go:249-282 | The force-delete is sent if and only if all containers were handled; the pass is tried again exactly if they were not or it was rejected. |
| Reconciler.Reconciler.ContainerNamesForPod | internal/kubelet/reconciler.go:284-311 | Names in spec order, else those of a label scan, none when that fails. |
| Reconciler.Reconciler.ReapByUID | internal/kubelet/reconciler.go:342-365 | Removes all containers of the UID and no others, each right after asking it to stop within ten seconds, or says that a removal failed; but a failed listing passes for none. |
| Reconciler.Reconciler.HandleDelete | internal/kubelet/reconciler.go:97-114 | Forgets the failure of the pod and reaps its UID. |
| Reconciler.Reconciler.ReapOrphans | internal/kubelet/reconciler.go:367-410 | No container of a known pod is removed; every other labelled one is, right after it was asked to stop within ten seconds, unless its removal failed. |
| Reaper.RunInv | internal/kubelet/reconciler.go:127-192 | The invariant of cache, worker, delete handler and reaper over every run, with a lagging cache and restarts. |
| Reaper.NeverTakesFromKnownPods | internal/kubelet/reconciler.go:369-402 | No step of any party takes a container from a pod in the cache or on the API server. |
| Reaper.HandlerIsComplete | internal/kubelet/reconciler.go:97-114 | A delete handler that gets through leaves no container of the pod, unless the worker makes one meanwhile. |
| Reaper.PassIsComplete | internal/kubelet/reconciler.go:369-410 | A container left by a pass of the reaper is of a known pod, or its removal failed, or the worker made it meanwhile. |
| Reaper.QuietPassIsComplete | internal/kubelet/reconciler.go:369-410 | A pass without failures during which the worker makes nothing leaves only containers of known pods. |
| Reaper.StaysClean | internal/kubelet/reconciler.go:178-192 | Once a deleted pod has no container and no pass in flight, it never has one again. |
| Reaper.PassInFlightLeaks | internal/kubelet/reconciler.go:97-114 | A run from the start in which a pass in flight leaves a container behind the delete handler, without a failing call or a restart. |
| Strategy.CheckGracefulDelete | internal/apiserver/strategy.go:138-156 | Keeps a period that was asked for, else fills in that of the pod, else 30 seconds, and is graceful if and only if that is positive; the cases without options and without a pod. |
| Strategy.PrepareStatusUpdate | internal/apiserver/strategy.go:204-214 | Metadata and spec are those of the old pod, and the status that of the new one. |
| Deletion.RunInv | internal/apiserver/strategy.go:106-119 | The history of a name stays in order over every run of users, cache and kubelet. |
| Deletion.MarkStays | internal/apiserver/strategy.go:204-214 | Once a pod is marked nothing unmarks it, no patch of the kubelet either, whatever it contains, and its period never grows. |
| Deletion.LaterPassesTerminate | internal/kubelet/reconciler.go:205-207 | Once the cache has the mark, every later pass over the pod is a terminating one. |
| Deletion.RemovedBy | internal/apiserver/strategy.go:138-156 | A pod is only removed by the kubelet's deletion or by a forced one; the first other deletion marks it with the period asked for, its own, or 30 seconds, and later ones only shorten that. |
| Deletion.DeletesOnlyWhenHandled | internal/kubelet/reconciler.go:252-282 | The kubelet's deletion comes after Docker was asked about every container of the pod that was read, and to stop each it still had, in reverse order with the period of the mark in nanoseconds; that pod is removed only marked. |
| Deletion.RemovesItsOwnPodIff | internal/kubelet/reconciler.go:276-282 | The deletion removes the pod the pass read if and only if the name has had a pod ever since. |
| Deletion.StalePassRemovesSuccessor | internal/kubelet/reconciler.go:276-282 | A run in which it removes an unmarked successor, with no forced deletion. |
| Json.MergePatchIdempotent | internal/kubelet/reconciler.go:330-340 | Patching twice with the same merge patch is patching once. |
| StatusLoop.RepeatedReportIsUnchanged | internal/fsstorage/store.go:402-412 | A report that is in already takes no version and announces nothing. |
| StatusLoop.SettlesIff | internal/kubelet/translate.go:247-273 | While Docker shows the same, a later report changes nothing if and only if no time stamp comes from the clock. |
| StatusLoop.ExplanationIsCurrentIff | internal/kubelet/reconciler.go:330-336 | After any sequence of reports the stored reason, or message, is that of the last report if and only if it has one or none was ever stored. |
| StatusLoop.OldReasonStays | internal/kubelet/reconciler.go:330-336 | A reason, or a message, outlives all reports without one that follow it. |
| StatusLoop.WhoExplains | internal/kubelet/translate.go:219-322 | Failed pulls and creations give both; reports from inspections give no reason, and a message if and only if a container has failed. |
| StatusLoop.StoredPhase | internal/kubelet/translate.go:302-314 | The phase text that is stored after a report got through, in terms of what Docker shows. |
| StatusLoop.StoredMessage | internal/kubelet/translate.go:287-291 | The message that is stored then, word by word. |
| StatusLoop.StoredContainer | internal/kubelet/translate.go:237-283 | What is stored then of each container: name, readiness, ID, and why it waits or how it ended. |
| StatusLoop.FieldsShow | internal/kubelet/translate.go:219-225 | Addresses and start time of a report, in seconds, as they are sent. |
| PhaseRuns.LivePassAttempts | internal/kubelet/reconciler.go:209-247 | What a live pass sends and remembers is what `PhaseRuns.Do` makes of it and of the reply; it is tried again exactly if the report was rejected, or it ended early without one. |
| PhaseRuns.OnePass | internal/kubelet/reconciler.go:246-246 | A phase other than Failed comes back only with a report of a complete pass in which no container has failed; Failed comes only with a report of a failed container or of a failure with another text. |
| PhaseRuns.FailedIff | internal/kubelet/reconciler.go:209-247 | After any run of passes the phase is Failed if and only if a pass failed so, or it was Failed before, and none has recovered since. |
| PhaseRuns.RecurrenceUnseen | internal/kubelet/reconciler.go:313-328 | A failure that was reported changes nothing when it comes back with the same text, whatever was reported in between. |
| LogOptions.ParseLogOptions | internal/kubelet/logs.go:190-237 | Succeeds exactly on queries whose shared keys are good, with the decoded values; else names the first bad key in its order. |
| LogOptions.ConvertURLValuesToPodLogOptions | internal/apiserver/podlogs.go:37-86 | The same with `previous` and its own order, keeping fields the query does not set. |
| LogOptions.DecodedReads | internal/kubelet/logs.go:190-237 | What the decoders read: of twelve spellings of a flag six mean true, numbers are decimal, an absent value changes nothing. |
| LogOptions.BadTexts | internal/kubelet/logs.go:190-237 | Any other text of a flag or a number is bad. |
| LogOptions.Blamed | internal/apiserver/podlogs.go:37-86 | Which of several bad numbers each decoder complains of. |
| LogOptions.EncodeLogQuery | internal/apiserver/podlogs.go:179-203 | The query says of each option what it is and nothing else. |
| LogOptions.RoundTrip | internal/apiserver/podlogs.go:177-203 | Decoding undoes encoding for all options. |
| LogOptions.DecodersAgreeIff | internal/kubelet/logs.go:190-237 | The decoders accept the same query if and only if `previous` is good or both refuse it. |
| LogOptions.ProxyIsTransparent | internal/apiserver/podlogs.go:122-134 | Through the API server the kubelet gets what it would have read in the client's query. |

## Hypotheses

- Codecs round-trip, objects carry the namespace and name of their key, and encoding is
  equality of objects.
- Watches have a predicate that matches everything; namespaces and single objects are
  filtered. In `Protocol`, `Atomic`, `Watches`, `Lists` and `Store` they have a recursive key
  or the key of an object in a namespace; `Paths.OwnKeyMatches` and `Layout.OwnKeyUnseen`
  say what the key of a cluster-scoped object does.
- `Atomic`, `Watches` and `Lists` are about what a watch is offered. The receiver gets all of
  it while its channel has room; `Store`, `Broadcaster` and `Protocol` have the limit.
- In `Protocol`, `Store`, `Watches` and `Lists` versions stay below the top of a `uint64`;
  `Counter` has the top too.
- A panic ends its request only, after its deferred calls: the HTTP server of the API server
  recovers it (internal/apiserver/apiserver.go:307-309).
- In `Protocol`, versions that other resources take have the effect of a write that fails
  after it took its version.
- In `Reconciler`, a container that was just created and started is still there at the second
  inspection of the same pass. If another party removed it in between, the code ignores that
  it is missing and reports a zero view, which counts as exited with code 0.
- In `PhaseRuns`, nobody else writes the status of the pod.
- In `Deletion`, the calls of one terminating pass to Docker are one step. The generic
  registry of `k8s.io/apiserver` is modelled by its contract: an update keeps the deletion
  fields, a marked pod only has its period shortened, a period of zero removes it, and a
  negative one counts as one second.
- In `Reaper`, the API server never gives a UID twice and containers are named after their
  pod's UID; UIDs contain no underscore.

Where code and documentation differ, the code is modelled. The ring holds 1000 events, not
256 as the repository's README says (the capacity is a parameter here). The comment that the ring is
ordered by version holds with atomic writers only. The note at the head of `reconciler.go`
that there is no branch for deletion timestamps is outdated, as is the single-container
limit in the repository's README.

## Left out

- ProtocolTheorems.WatchTracksFiles: says nothing of predicates, because snapshots are not filtered by them.
- Watches.Reconnect: is about whole requests; for requests that interleave see `ProtocolLists.ReconnectIff`.
- Lists.ListThenWatch: is about whole requests; for requests that interleave see `ProtocolLists.ListThenWatchIff`.
- Lists.SnapshotCut: does not cover a resume from an object that is older than the opening, whose replay is `Watches.ReplayExactSinceOpening`.
- Store.Store.Watch: does not keep the mutex locked after its own panic; `Protocol` does.
- Layout.Get: does not model keys with `.` or `..` segments, which the code cleans and so reads as another key.
- Layout.Count: does not model keys with `.` or `..` segments, for the same reason.
- Reconciler.ContainerSpecsFromPod: does not model command, environment, mounts, pull policy, restart and labels other than the pod's UID; resolving them succeeds or fails with a text.
- Reconciler.Reconciler.ReapByUID: does not say in which order containers stop, because it follows Docker's.
- StatusLoop.SettlesIff: encodes a time stamp as its second, not as text.
- Paths.ObjectPathInjective: does not model cleaning of `.` and `..` in paths; well-formed segments have none.
- UIDs that the store fills in on creation, time to live, and errors other than those of the file system.
- The registry, informers, work queue and codecs of the Kubernetes libraries, beyond the contracts above.
- Docker's SDK, HTTP proxying, log streaming, server wiring, certificates and scripts: plumbing.
- Projection of ConfigMaps and Secrets, environment resolution (a failure with a text here), events, logging, rate limits.
- Tables, field selectors, option defaults, pull policies, secret folding, choice of a container for logs: easy members.
- Percent encoding of queries: a query is a map from keys to lists of values.
