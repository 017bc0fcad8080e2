# logr: a verified model

logr is an asynchronous logger. A call of `Log` puts a record on a bounded queue; one read loop takes
records off and fans them out to every target host whose filter lists the level; each host has a bounded
queue and a reader goroutine of its own that formats and writes. Flush is a control record that travels
through both stages; Shutdown is a flush, a flag, the closing of channels and a wait, first for the read
loop and then for each host.

The project models that pipeline and proves what it guarantees in every reachable state, over every
interleaving of producers, the read loop, the readers, Flush, Shutdown, AddTarget, RemoveTargets and filter
growth, with queues of any capacity. It also shows where the guarantees end. Around the pipeline it models
the level cache, the TCP target's retry loop, buffer-pool ownership, the key=value printers, field
truncation, Sugar's argument parser and the JSON formatter's key prefixing.

## How the pipeline is modelled

`Pipeline` is a step system: each channel operation, lock acquisition, atomic access and loop iteration is
one step, and a step carries the outcome of every choice the code leaves open (which ready branch a `select`
takes, what a queue-full handler answers, whether a wait times out, how a write ends). A run is any sequence
of enabled steps, and a state is reachable if some run from the start leads to it. States carry histories
which no step looks at: what entered and left `lgr.in`, whose fan-out began, and, per host, the fate of
everything offered to it.

Goroutines that share state by channels are modelled on values because what matters is their interleaving.
Code that runs within one goroutine keeps its own form: `HostObject` is `TargetHost` as an object with the
loops of `start` and `flush`, each method proved to be a run of the step machine; the level caches, the
filters, the TCP target, the printers, the truncation pass and the JSON key defaults are classes, and the
argument parser is a loop.

| module | models |
|---|---|
| `Basics`, `TargetHost`, `HostHistory`, `HostObject` | one host: queue, reader, `Log`, counters (target.go) |
| `Pipeline` | the step system of both stages (logr.go, target.go) |
| `PipelineInvariant`, `PipelineProtocol`, `PipelineLifecycle` | its inductive invariant, in parts |
| `PipelineCalls`, `PipelineRoll`, `PipelineErrors`, `PipelineChoices` | calls and their fates, the target list, error results, and what can happen at each position |
| `PipelineTheorems`, `PipelineShutdown`, `FlushProgress`, `NilReturns` | the main results |
| `PipelineLimits`, `PipelineRuns` | where they end, and runs that get there |
| `ReaderGoroutines` | the goroutines behind one reader: panic, recovery and restart (target.go) |
| `Filters`, `LevelCache`, `LevelCoherence` | filters, the two caches, coherence under concurrency |
| `Tcp` | the retry and reconnect loop |
| `BufferPool`, `FieldLimits` | ownership of pooled buffers; truncation of a shared field slice |
| `FieldText`, `FieldUnique`, `FieldWriter`, `TextReadBack`, `SugarArgs`, `JsonKeys` | text: printers, parsers, keys |

## Where the code and its comments differ

The model follows the code.

- logr.go:299-302 says adding records blocks until a flush is complete; nothing in the code makes producers
  wait, and the flush barrier is proved with producers running.
- logr.go:304-307 returns nil without flushing when there are no targets; see `PipelineRuns.NilWithRecordStranded`. With targets
  too, and contrary to logr.go:371, a record accepted after Shutdown's flush can stay in `lgr.in`; see
  `PipelineRuns.NilWithLateRecord`. `NilReturns.NilEmptyIff` says exactly when it cannot.
- logr.go:475-478 discards a flush record found while another flush drains, and that flush is never
  acknowledged; see `PipelineRuns.SecondFlushDiscarded`. Neither is one that `enqueue` drops or times out, or
  that is queued when the loop quits; see `PipelineRuns.FlushTurnedAway` and `PipelineRuns.FlushLeftBehind`.
- logr.go:492 waits for a nested flush record that may have been refused, dropped or timed out, or left queued by
  a reader that saw quit first, and logr.go:494 sends to a caller that may have given up; each blocks the read
  loop for good. `PipelineLimits.LoopMovesIff` says exactly when, `FlushProgress.AcknowledgedIffDue` when a flush
  is sure to be acknowledged.
- target.go:149-156 reports nothing when the context expires, so a nil from Shutdown does not mean that every
  reader has exited; see `PipelineRuns.NilWithReaderAlive`.
- formatter.go:31-45 cuts bytes, not runes.
- levelcache.go:50-56 stops one ID short of the largest, so looking that ID up in the sync.Map cache panics
  until it has been stored; see `LevelCache.SyncMapLevelCache.Get`.
- filterstd.go:33-35 hands a non-standard level back with its own stack-trace flag although the cache is
  keyed by ID alone; `Filters.StdFilterKeyedById` says for exactly which IDs that is harmless.
- logr.go:231-232 asks for a cache reset when levels change; `LevelCoherence.GrowthNoticedIff` says what is
  seen without one, and `LevelCoherence.ResetRestoresIff` which lookups in progress undo one.

## Model

| member | source | states |
|---|---|---|
| `PipelineTheorems.ReachableInv` | logr.go:88-495 | the two-stage invariant holds in every reachable state |
| `PipelineTheorems.InvKept` | logr.go:416-495 | every step of every goroutine keeps the invariant |
| `PipelineTheorems.HandledInOrder` | logr.go:416-465 | in every reachable state, what a host has handled is a duplicate-free subsequence of the order of entry to `lgr.in` |
| `PipelineTheorems.RefinesSync` | target.go:160-250 | in every reachable state, a host that kept its filter and turned nothing away has finished, is writing or still holds, in order, exactly what a synchronous logger would have written for the records brought to it |
| `PipelineTheorems.FlushedEqualsSync` | logr.go:468-495 | at a flush acknowledgement, with nothing turned away and no failing write, a host has written exactly the synchronous output for all records fanned out since it was added |
| `PipelineTheorems.FlushBarrier` | logr.go:304-322 | at a flush acknowledgement every registered host is empty and idle, and each record that entered before the flush record has a final fate at each host (or predates the host), producers running or not |
| `PipelineShutdown.SettledFromThenOn` | logr.go:304-322 | in every state after the acknowledgement, each record accepted before the flush record has a final fate at every host registered then (or predates it) and is in neither queue stage |
| `PipelineShutdown.SettledKept` | logr.go:468-495 | every step of every goroutine keeps that |
| `PipelineTheorems.FlushSignalledOnce` | logr.go:494 | a flush is acknowledged at most once, and only if its record went through `lgr.in` |
| `PipelineTheorems.WriteRecAlwaysListed` | target.go:252-257 | with filters that only grow, the "how did we get here?" branch cannot be taken; all that is handled, queued or being written is enabled |
| `PipelineTheorems.Conservation` | target.go:160-250 | the records offered to a host are, as a multiset, those refused, dropped, timed out, written, failed, lost, in flight and queued |
| `PipelineTheorems.OfferedOnce` | logr.go:443-460 | no record is offered to a host twice, or again while it is being sent |
| `PipelineTheorems.ExactlyOneFate` | logr.go:443-460 | each record handed to a host is in exactly one of nine places, once; any other record is in none |
| `PipelineTheorems.CountersExact` | target.go:231-304 | logged, error, dropped and blocked counters equal successful writes, failed writes, handler drops and slow-path entries, although `flush` writes without counting: when it runs, its queue is empty and the read loop waits for it |
| `PipelineShutdown.CleanShutdown` | logr.go:348-382 | when Shutdown returns nil after a flush, the read loop is gone, every target was shut down once and every reader has exited unless its wait was cut short; every record accepted before the flush is settled at every host and waits nowhere, what is left in `lgr.in` was accepted later, and with nothing accepted later both stages are empty |
| `NilReturns.NilEmptyIff` | logr.go:360-372 | once quit is closed, every nil return of Shutdown finds `lgr.in` empty if and only if there can be none, or no call is inside `enqueue` and `lgr.in` is empty or still being drained for a flush; expiring contexts make no difference |
| `NilReturns.NilComesIff` | logr.go:360-381 | once quit is closed Shutdown can still return nil, and then with no context expiring, if and only if the caller of the flush being served still waits and the host the loop waits for can signal |
| `NilReturns.ComesToNil` | logr.go:360-381 | the run to a nil return, from any position of the loop and of RemoveTargets, waiting for every reader |
| `NilReturns.SureStays` | logr.go:348-382 | what is sure to leave `lgr.in` empty stays so, over every run |
| `NilReturns.ReaderGoneIff` | target.go:149-156 | while a host's Shutdown waits, its reader is sure to be gone when the target is shut down if and only if it has exited already; in any case it is gone unless the context has expired |
| `PipelineTheorems.HostLifecycle` | target.go:142-157 | a host's quit and done are closed and its target shut down at most once; after a target shutdown whose context did not expire its reader can take no step |
| `ReaderGoroutines.OneReader` | target.go:221-250 | over all panics and restarts at most one goroutine of a host reads, writes or flushes, none while another has still to start its successor or close done; done is closed at most once and nobody reads after that |
| `ReaderGoroutines.PlayReachable` | target.go:221-250 | every run of the goroutines, the panicking ones in their deferred functions included, is a run of the pipeline with one reader per host, so all results about it hold of the goroutines |
| `ReaderGoroutines.ActIsStep` | target.go:221-250 | each act of a goroutine is one step of the one reader, or none |
| `ReaderGoroutines.GoroutinesReach` | target.go:221-250 | conversely the goroutines can do all that the one-reader pipeline does; a panic never leaves a host without a reader |
| `ReaderGoroutines.ActOk` | target.go:221-229 | every act keeps at most one goroutine per host active |
| `ReaderGoroutines.PcUnseen` | target.go:221-250 | no other step depends on where the reader stands |
| `PipelineTheorems.LoopLifecycle` | logr.go:360-372 | `lgr.quit` and `lgr.done` are closed at most once, done only after quit, quit only after the flag |
| `PipelineRoll.RolledTargets` | logr.go:88-118 | in every run the registered targets are those AddTarget added and RemoveTargets has not removed, in order of addition; each host has the queue size it was made with, and its first filter plus all that CustomFilter.Add has added |
| `PipelineRoll.RegisteredIff` | logr.go:204-229 | every host that nobody has shut down is registered, in order of addition; before the sweep and outside RemoveTargets the registered hosts are exactly those |
| `PipelineRoll.RemovesExactly` | logr.go:204-229 | over its whole run, whatever else happens meanwhile, RemoveTargets ends with the list it started from less the selected hosts, in order, each of them shut down |
| `PipelineRoll.GrowTakesEffect` | filtercustom.go:36-47 | CustomFilter.Add can happen at any moment, enables exactly the added levels at that host and touches no other |
| `PipelineErrors.NilIffNothingFailed` | logr.go:366-382 | over all runs, Shutdown past its last host returns nil if and only if its wait for the loop was not cut short and no host failed in its sweep, by being shut down already or by its target reporting an error |
| `PipelineErrors.RemovalNilIff` | logr.go:205-228 | RemoveTargets returns nil if and only if no host it removed failed |
| `PipelineErrors.ErrorsAreReal` | logr.go:348-382 | at every point of every run the error results so far say exactly whether something has failed |
| `PipelineCalls.LogCallFate` | logr.go:249-284 | conservation at the first stage: every Log call begun, and no other, is inside `enqueue`, or was accepted, dropped by the handler or timed out, in exactly one of these; its record has entered `lgr.in` if and only if it was accepted |
| `PipelineCalls.LeavesEnqueue` | logr.go:272-284 | a call leaves `enqueue` only by a push, a handler's drop or a timeout |
| `PipelineCalls.CallsLive` | logr.go:304-365 | in every run each call of Log, Flush or Shutdown is where its life so far puts it |
| `PipelineCalls.FlushReturns` | logr.go:304-322 | a Flush that had targets returns nil only if acknowledged, and an acknowledged flush waits no longer: Flush has returned nil, Shutdown has gone on to swap the flag |
| `PipelineCalls.RunLinBounded` | logr.go:62 | `lgr.in` never holds more than its capacity |
| `PipelineChoices.LoopChoices` | logr.go:416-495 | what the read loop can do at each position: the ready branches of its selects, and nothing else |
| `PipelineChoices.LogChoices` | target.go:160-182 | what `Log` can do at each of its selects, by the filter, the flag, the room and the handler |
| `PipelineChoices.ReaderChoices` | target.go:231-304 | what a reader can do at each position |
| `PipelineChoices.CallChoices` | logr.go:272-322 | what a call of Log, Flush or Shutdown can do at each position |
| `PipelineChoices.TargetsChoices` | logr.go:348-382 | what Shutdown, RemoveTargets and AddTarget can do at each position |
| `PipelineChoices.KillChoices` | target.go:142-157 | the order of a host's shutdown, and its wait for the reader or the context |
| `PipelineTheorems.NoLogAfterShutdown` | logr.go:132-136 | no call begun after the flag is set ever gets anything into `lgr.in` |
| `PipelineInvariant.FifoKept` | logr.go:427-434 | `lgr.in` is first in first out, and records are fanned out in the order they leave it |
| `PipelineInvariant.ShapeKept` | logr.go:204-229 | the target list stays well formed, and RemoveTargets excludes the read loop and Shutdown's sweep |
| `PipelineInvariant.HostsAfter` | logr.go:443-495 | each step touches each host only as one step of that host's machine allows |
| `PipelineInvariant.CtlKept` | logr.go:489-493 | a nested flush record is always last in its host's queue while the read loop waits for it, and nowhere otherwise |
| `PipelineInvariant.FilterKept` | logr.go:455-458 | everything in a host's queue was listed when offered and still is |
| `PipelineInvariant.CounterKept` | target.go:231-250 | every step keeps the counters equal to what the histories say |
| `PipelineProtocol.FanoutKept` | logr.go:443-460 | a registered host has been brought every record fanned out since it was added, but for the one in progress |
| `PipelineProtocol.FlushKept` | logr.go:489-493 | every host a flush has passed stays drained until the flush ends |
| `PipelineProtocol.AckKept` | logr.go:468-495 | a flush being served has left `lgr.in` and was not acknowledged before |
| `PipelineLifecycle.RestKept` | logr.go:348-382 | once the last accepted message is an acknowledged flush, the pipeline stays empty whatever else is done |
| `PipelineLifecycle.LifeKept` | target.go:142-157 | flag, quit, done and target shutdown of each host happen in that order, whoever shuts it down |
| `PipelineLifecycle.AliveKept` | logr.go:204-229 | a registered host is shut down only by Shutdown or by the RemoveTargets that is removing it |
| `PipelineLifecycle.SweepKept` | logr.go:374-380 | Shutdown, without error so far, has shut down the target of each host before its position |
| `FlushProgress.AcknowledgedIffDue` | logr.go:468-495 | with producers quiet and the target list fixed, a flush is acknowledged under every schedule of the pipeline's goroutines if and only if it is due: its caller waits, it is being served or is next with quit open, no target it has yet to visit is shut down, and no nested record is lost or left to a reader that may quit; other callers may be in progress and other flushes queued behind |
| `FlushProgress.FlushIsAcknowledged` | logr.go:468-495 | those goroutines take a number of steps bounded by a measure of the first state, and cannot all be stuck before a due flush is acknowledged, for all queue capacities of at least one |
| `FlushProgress.StepExists` | logr.go:468-495 | while a due flush is not acknowledged some goroutine of the pipeline can move |
| `FlushProgress.DueKept` | logr.go:468-495 | a due flush stays due until it is acknowledged |
| `FlushProgress.SpoilerSpoils` | logr.go:427-437 | a flush that is not due need not become due: some step leaves it so |
| `FlushProgress.RunsEnd` | logr.go:416-495 | a run of those goroutines is never longer than the measure |
| `FlushProgress.StepWorks` | target.go:221-304 | every step of those goroutines decreases a measure over both stages and all positions |
| `PipelineRuns.DueReachable` | logr.go:304-316 | a run of the code leads to a due flush |
| `PipelineLimits.DrainDiscards` | logr.go:472-482 | a flush record met while another flush drains is discarded |
| `PipelineLimits.DiscardedForever` | logr.go:472-482 | and is never acknowledged in any continuation |
| `PipelineLimits.GiveUpWedges` | logr.go:494 | a caller that gives up while the loop waits to signal it wedges the loop |
| `PipelineLimits.LostNestedFlushWedges` | logr.go:489-493 | so does a nested flush record that is refused, dropped or timed out |
| `PipelineLimits.QuitWedges` | target.go:245-247 | so does a reader that quits with the nested record still queued |
| `PipelineLimits.WedgedForever` | logr.go:489-494 | no continuation whatever moves a wedged loop: it takes nothing from `lgr.in` and acknowledges nothing |
| `PipelineLimits.LoopMovesIff` | logr.go:489-494 | at either wait of `flush` some continuation moves the loop on if and only if it is not wedged: the caller still waits, or the reader is about to signal or has the nested record queued and has not exited |
| `PipelineLimits.TurnedAwayForever` | logr.go:304-316 | a flush record that `enqueue` dropped or timed out is never acknowledged |
| `PipelineLimits.StoppedForever` | logr.go:436-437 | once the loop has quit nothing is taken or acknowledged, whatever is left in `lgr.in` |
| `PipelineRuns.SecondFlushDiscarded` | logr.go:472-482 | a run in which a queued flush is discarded while its caller waits |
| `PipelineRuns.GiveUpReachable` | logr.go:494 | a run that wedges the loop by a caller giving up |
| `PipelineRuns.NestedDropReachable` | target.go:160-171 | a run that wedges it by a full host queue and a handler that drops |
| `PipelineRuns.NestedAbandoned` | target.go:233-247 | a run that wedges it by a reader quitting first, with nothing dropped and no flush timed out |
| `PipelineRuns.FlushTurnedAway` | logr.go:273-278 | a run in which the flush record is dropped by a handler and its caller left waiting |
| `PipelineRuns.FlushLeftBehind` | logr.go:425-437 | a run in which the loop quits with a flush record queued |
| `PipelineRuns.NilWithReaderAlive` | target.go:149-156 | a run in which Shutdown returns nil after a flush and a reader has not exited |
| `PipelineRuns.NilWithLateRecord` | logr.go:348-372 | a run in which Shutdown, with a target, no context expired and the reader gone, returns nil with a record in `lgr.in` that was accepted after its flush |
| `PipelineRuns.NilWithRecordStranded` | logr.go:304-307 | a run in which Shutdown returns nil without a flush, as there are no targets, with a record left in `lgr.in` |
| `TargetHost.QueueTouch` | target.go:160-250 | a host's queue is always the admitted messages not yet taken, and never over capacity |
| `HostHistory.AdmittedIsSync` | target.go:160-182 | with nothing turned away, what is admitted is the synchronous output |
| `HostHistory.AdmittedInOrder` | target.go:160-182 | what is admitted keeps the order of fan-out |
| `HostObject.RunConserves` | target.go:221-304 | any run of the reader only moves messages along from queue to taken |
| `HostObject.HandleIsRun` | target.go:231-250 | one loop iteration is one or two steps of the machine |
| `HostObject.Queue.WriteRec` | target.go:252-269 | a record not listed is an error and nothing is written; a listed one is written, fails or panics |
| `HostObject.Queue.Flush` | target.go:285-304 | `flush` is a run of the machine that ends about to signal with the queue empty, or in a panic |
| `HostObject.Queue.Start` | target.go:221-250 | `start` is a run of the machine; left alone it ends only after seeing quit, blocked on its signal, or at its select with nothing queued and quit open |
| `HostObject.Queue.FinishOff` | target.go:231-304 | a reader met in the middle of a write or of a flush gets, as a run of the machine, to its select, its signal or its end |
| `HostObject.Queue.Log` | target.go:160-182 | wherever the reader is: refused when shut down, admitted when there is room, dropped as the handler says, otherwise counted as blocked and then admitted or timed out |
| `HostObject.Queue.Block` | target.go:172-181 | the slow path, with the reader, wherever it is, going on meanwhile |
| `HostObject.Queue.Shutdown` | target.go:142-157 | wherever the reader is: a second call changes nothing and is an error; the first closes quit once, waits, and shuts the target down whether or not the reader has exited, and reports what the target reports |
| `Filters.StdFilterThreshold` | filterstd.go:12-43 | enabled exactly up to the filter's own level; a stack trace for one level means one for every more severe level if and only if the filter enables no non-standard level above its stack-trace threshold |
| `Filters.StdFilterLevel` | filterstd.go:12-43 | an enabled level is logged as the library's level with its ID if there is one, else as itself, with a stack trace from the filter's threshold or its own flag |
| `Filters.StdFilterKeyedById` | filterstd.go:17-38 | the answer depends on the ID alone if and only if the ID is standard, disabled, or below the stack-trace threshold |
| `Filters.AddedIs` | filtercustom.go:36-47 | adding enables exactly the added IDs on top of the old ones; the last level with an ID wins |
| `Filters.CustomFilter.Add` | filtercustom.go:36-47 | the loop computes that map and never disables an ID |
| `Filters.CustomFilter.GetEnabledLevel` | filtercustom.go:22-33 | enabled exactly when the ID is in the map, with the map's stack-trace flag and a name filled in if missing |
| `LevelCache.ArrayLevelCache.Get` | levelcache.go:69-78 | a hit exactly for the remembered IDs; IDs above the maximum read disabled |
| `LevelCache.ArrayLevelCache.Put` | levelcache.go:80-89 | remembers one status and no other changes; fails exactly above the maximum |
| `LevelCache.ArrayLevelCache.Clear` | levelcache.go:91-98 | forgets every ID |
| `LevelCache.SyncMapLevelCache.Get` | levelcache.go:33-40 | the same map; panics if and only if the ID is the largest and was never stored |
| `LevelCache.SyncMapLevelCache.Put` | levelcache.go:42-48 | the same map |
| `LevelCache.SyncMapLevelCache.Clear` | levelcache.go:50-56 | forgets every ID but the largest |
| `LevelCache.Scan` | logr.go:144-160 | the scan with its early break gives the status of asking every host |
| `LevelCache.IsLevelEnabled` | logr.go:132-166 | a lookup in the array cache answers as the full scan does and leaves the cache right |
| `LevelCache.IsLevelEnabledSync` | logr.go:132-166 | so does one in the sync.Map cache, which panics if and only if the ID is the largest and the logger is not shut down |
| `LevelCoherence.CoherentKept` | logr.go:88-166 | every step of a lookup, AddTarget, RemoveTargets or reset keeps coherence |
| `LevelCoherence.CacheCoherent` | logr.go:132-235 | over every interleaving with unchanged filters, outside a writer's critical section each remembered status is the full scan's |
| `LevelCoherence.HostsFollow` | logr.go:113-226 | lookups scan the hosts that AddTarget, RemoveTargets and CustomFilter.Add have left |
| `LevelCoherence.StartsCoherent` | levelcache.go:29-67 | both caches start coherent, each for the IDs its clear covers |
| `LevelCoherence.EnabledStaysTrue` | filtercustom.go:36-47 | with growing filters and no reset, a remembered Enabled is always true |
| `LevelCoherence.StartsSound` | levelcache.go:29-67 | and is so from the start |
| `LevelCoherence.GrowthNoticedIff` | logr.go:139-142 | without a reset, the remembered status of a newly enabled ID is the full scan's if and only if it said enabled and its stack-trace flag is what another host, the added level or the formatter asks for |
| `LevelCoherence.TraceGoesStale` | logr.go:139-142 | the remembered stack-trace flag can be wrong either way |
| `LevelCoherence.ResetRestoresIff` | logr.go:231-235 | clearing an ID's entry makes every later reading of it right, as long as no more levels with this ID are added, if and only if every lookup of it in progress will store what is right |
| `LevelCoherence.ResetRestores` | logr.go:233-235 | so with no lookup of the ID in progress, a reset restores coherence for it, whatever was added before |
| `LevelCoherence.CoherentAtKept` | logr.go:88-166 | only enabling this very ID can spoil its coherence |
| `LevelCoherence.ResetRaces` | logr.go:139-163 | with a lookup in progress, a reset after adding a level can leave it remembered as disabled |
| `Tcp.Target.Write` | targets/tcp.go:168-204 | never returns an error; sends the record, and returns the full count, if and only if some turn takes it whole before shutdown is seen, returns zero if and only if shutdown is seen first, and leaves on the connections exactly what those turns took |
| `Tcp.Target.Attempt` | targets/tcp.go:179-200 | one turn sends exactly if there is a connection and it takes everything; the bytes taken are on the wire, and a failed write gives the connection up |
| `Tcp.Target.Connect` | targets/tcp.go:74-110 | the open connection is reused, otherwise one more is opened if the dial succeeds, and without a connection the result is an error |
| `Tcp.Target.Shutdown` | targets/tcp.go:160-164 | closes the connection and the channel; the stream stays whole |
| `Tcp.InOrder` | targets/tcp.go:168-204 | the bytes the connections took, each less the copy it broke off in, are joined every sent record once in call order |
| `Tcp.AtLeastOnce` | targets/tcp.go:168-204 | every sent record lies whole on some connection, right after its predecessors there |
| `Tcp.NextConnectionRepeats` | targets/tcp.go:168-204 | a connection breaks off inside a copy of one record, and the next starts with that record, in full or in prefix |
| `Tcp.BackoffBounds` | targets/tcp.go:242-253 | pauses never shrink, stay between the two constants and reach the maximum after fifteen failures |
| `BufferPool.OwnedKept` | logr.go:398-412 | every borrow, append, write, release and collection keeps ownership: pooled buffers are empty, small, there once and held by nobody |
| `BufferPool.OneRecordPerWrite` | target.go:259-268 | in every interleaving each `Write` gets the bytes of exactly its own record, no buffer has two holders, and each borrow is released once or still held |
| `BufferPool.ReleasedWhere` | logr.go:407-412 | a released buffer goes to the pool, empty, if and only if pooling is on and it is below the size limit; no other buffer moves |
| `BufferPool.BorrowedEmpty` | logr.go:398-403 | a borrowed buffer is empty and out of the pool, new or not |
| `BufferPool.GoneForGood` | logr.go:398-412 | a buffer that is neither pooled nor held is never handed out again |
| `BufferPool.FormatThenWrite` | target.go:259-268 | once the rest of the text is appended the write can be made, and hands over the record's whole text |
| `BufferPool.WrittenOnce` | target.go:259-268 | a record is handed over once, and its buffer can then only be released |
| `FieldText.ParseRoundTrip` | formatter.go:122-162 | the printed text of string fields without `=` in keys or quotes in values is read back exactly |
| `FieldText.RoundTripIff` | formatter.go:122-162 | this parser gives back a list of fields of any kind if and only if all are such string fields |
| `FieldText.TextInjective` | formatter.go:122-162 | different lists of such fields print differently |
| `FieldText.QuotesAmbiguous` | field.go:68-86 | quotes inside values are not escaped: for any two values that need quotes, a one-field list shares its text with a two-field list |
| `FieldText.EqualsAmbiguous` | formatter.go:135-148 | nor are equals signs in keys: the same for any value under a key that continues like a field |
| `FieldUnique.UniqueIff` | formatter.go:122-162 | the text of a list of string fields determines the list if and only if it is empty or has one field that reads in one way only; no list of two or more has a text of its own |
| `FieldUnique.SingleIff` | formatter.go:135-148 | one field has a text of its own if and only if what a value prints as follows no equals sign but its own, and its key does not go on like another field |
| `FieldUnique.ToOne` | formatter.go:122-133 | any list prints as one field, whose key runs on if the list has several |
| `FieldUnique.QuotedIff` | field.go:68-86 | the texts a string value prints as, exactly, and that quoting can be undone |
| `FieldWriter.Sink.Writes` | formatter.go:60-70 | for a writer failing anywhere, a prefix of the joined strings is written, its length returned, and the error reported |
| `FieldWriter.Sink.WriteWithColor` | formatter.go:184-210 | the coloured text or a prefix; after an error nothing more |
| `FieldWriter.Sink.QuoteString` | field.go:68-86 | the text, in quotes exactly if a character needs it, or a prefix |
| `FieldWriter.Sink.WriteArray` | field.go:170-200 | the comma join of the elements, or a prefix with the error; fails exactly on a failed write or an element whose own LogWrite fails |
| `FieldWriter.Sink.WriteMap` | field.go:202-237 | the comma join of key=element in iteration order, or a prefix with the error; fails exactly on a failed write or an element whose own LogWrite fails |
| `FieldWriter.Sink.ValueString` | field.go:94-246 | a field's value text or a prefix; fails exactly on a failed write, an invalid value or a LogWrite that fails of itself |
| `FieldWriter.Sink.WriteField` | formatter.go:135-148 | separator, coloured key, equals sign and value, or a prefix |
| `FieldWriter.Sink.WriteFields` | formatter.go:122-133 | the fields with separators between them, or a prefix; succeeds exactly if no write failed and no field is bad in itself |
| `FieldWriter.Sink.WriteStacktrace` | formatter.go:165-181 | two lines per frame, leaving out what a frame lacks, or a prefix |
| `TextReadBack.FieldsAreJoin` | formatter.go:122-133 | the fields print joined by the separator, each with its key in the colour |
| `TextReadBack.ArrayReadBack` | field.go:170-200 | cutting an array's text at its commas gives the elements back, if they have none |
| `TextReadBack.MapReadBack` | field.go:202-237 | and a map's text its entries, keys before the first equals sign |
| `TextReadBack.ColorReadBack` | formatter.go:184-210 | a coloured text gives its colour and text back, and switches the colour off |
| `TextReadBack.DigitsReadBack` | formatter.go:171-173 | numbers print in decimal without leading zeros, and are read back |
| `TextReadBack.ValueReadBack` | field.go:94-246 | a string prints as it is if it has only letters, digits and the seven safe signs, and in quotes otherwise; arrays and maps as comma joins; the rest as they are |
| `TextReadBack.TraceReadBack` | formatter.go:165-181 | cutting a trace at its newlines gives its lines back, frame by frame |
| `TextReadBack.SplitJoin` | formatter.go:122-133 | splitting undoes joining when no part has the separator |
| `FieldLimits.LimitStable` | formatter.go:32-45 | cutting twice is cutting once, and the result is at most three bytes over the limit |
| `FieldLimits.LimitIsStart` | formatter.go:32-38 | a cut text is the first bytes up to the limit and three dots |
| `FieldLimits.CutAgain` | formatter.go:47-54 | wrapping a stringer again, or cutting a cut string again, does not change a field's text |
| `FieldLimits.Logr.LimitRec` | logr.go:249-271 | message and each field of limited type are cut in place; the rest is left |
| `FieldLimits.Logr.LogM` | logger.go:60-64 | one record per enabled level, in order, all sharing one slice cut once per record, and each shows every text cut exactly once |
| `SugarArgs.ItemsConsumeAll` | sugar.go:168-197 | the arguments are a sentence of the grammar, each consumed once, in order |
| `SugarArgs.ItemsUnique` | sugar.go:168-197 | and of only one |
| `SugarArgs.CleanRoundTrip` | sugar.go:168-197 | fields and string-key pairs come back as given, with no complaint |
| `SugarArgs.ComplaintsExact` | sugar.go:177-190 | each key that is no string is complained about once, at its position, and a dangling argument by itself; nothing else is |
| `SugarArgs.ArgsToFields` | sugar.go:168-197 | the loop ends, returns the fields of the sentence and complains about each bad key and the dangling argument |
| `JsonKeys.LeastPrefix` | formatters/json.go:172-180 | the result is the key under the least number of underscores that is not reserved |
| `JsonKeys.AddedAtMost` | formatters/json.go:172-180 | one underscore per reserved key at most |
| `JsonKeys.FourSuffice` | formatters/json.go:172-180 | four at most with the formatter's four keys |
| `JsonKeys.CollisionOnlyByUnderscores` | formatters/json.go:172-180 | two keys are confused only if they differ by leading underscores |
| `JsonKeys.Json.ApplyDefaultKeyNames` | formatters/json.go:96-112 | empty names get their defaults, others are kept, and none is empty afterwards |

## Left out

- Logr's own object form: `start`, `fanout`, `flush`, `enqueue` (but for its truncation pass), Shutdown and RemoveTargets of logr.go are steps of a state machine on values; what is not captured is their in-place update of shared slices.
- Restarts of the read loop of logr.go: `fanout` recovers from its own panics, and nothing else in the loop panics in the model, so the loop's own recovery (logr.go:416-424) never acts; the restart of a host's reader is modelled in `ReaderGoroutines`.
- HostObject.Queue.Log: lets the reader go on only while the second select blocks; every other interleaving of sender and reader is covered by the step machine only. The same goes for HostObject.Queue.Shutdown and the wait for h.done.
- NilReturns.NilEmptyIff: speaks of loggers whose queues, `lgr.in` and each host's, hold at least one message.
- FlushProgress.AcknowledgedIffDue: speaks of runs in which no nested flush record is dropped or timed out from the given state on, while RemoveTargets is not at work and every host's queue holds at least one record.
- Queues of capacity zero (rendezvous channels): progress needs a capacity of one; the safety results hold for every capacity, but with zero the model never hands a message over.
- Time: timeouts and expiring contexts are steps that may happen at any moment; no duration is modelled. The writer preference of the read-write lock is not modelled either.
- AddTarget racing Shutdown: it is part of every run, but the shutdown result speaks of the hosts registered when Shutdown returns.
- Filters other than growing ones: in the pipeline a host's filter changes only as `CustomFilter.Add` changes it.
- Callbacks that panic, log or flush from inside a handler or from ReportError; panics inside `fanout` and its recovery.
- Metrics gauges and updaters, Logr's own logged and error counters, and what ReportError prints.
- LogRec.prep, WithTime, stack frames and callers; level colours; `With`.
- Logger.Log's level check inside the pipeline: a producer may start with any level while the flag is clear, which allows more runs than the cache would.
- FieldWriter.Sink.ValueString: a LogWrite writes its text in one go and reports a failed write; one that hides a failed write is not modelled.
- Tcp.Target.Write: the network is a finite script, so a `Write` that retries for ever appears as all its finite parts; dialling, TLS, deadlines, the socket monitor and reports are not modelled beyond their effect on a turn.
- BufferPool: formatters that keep or replace the buffer they are given; a built-in formatter appends to it and returns it.
- FieldText.ParseRoundTrip: excludes keys with an equals sign and values with quotes, for which a text need not be readable; `FieldUnique.UniqueIff` says which texts belong to one list only among all lists of string fields. The text of numbers, times and floats is taken as given.
- FieldLimits.Logr.LogM: truncates right after creating each record, before any reader looks at the shared slice; a reader formatting an earlier record meanwhile is a data race outside the model.
- JSON encoding, the GELF and plain formatters, config, options, the standard-library adapter, `fieldForAny`, and the file, syslog, writer and testing targets.
- formatters/json.go:172-180 leaves the caller key out of the reserved keys, and so does the model.
