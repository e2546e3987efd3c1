# OmniTest in Dafny

A model of OmniTest, a distributed HTTP load tester, with proofs about its concurrent
cores: the load-run engine, the controller-agent command protocol, the WebSocket hub, the
metric aggregation, and the arithmetic and text code around them.

`dafny verify dfyconfig.toml` checks the whole project.

## How the system is modelled

Code whose difficulty is interleaving is a step system: a `State`, an `Event` per atomic
operation of each goroutine (lock, channel, atomic counter), `Enabled`, `Apply`, and `Exec`
over event lists. Properties are proved of every reachable state or of every run. Objects
that are updated in place are also classes, whose methods are proved equal to the functions
the step systems are built from. Loops that fill slices or maps are methods with loops.

| file | what it models |
|---|---|
| `Collector.dfy` | `Record` and `Snapshot` split into their atomic operations, with one recorder and one snapshot goroutine; `Result` |
| `SnapshotContents.dfy` | what a snapshot shows of the results recorded so far |
| `Engine.dfy` | `runner.Run`: main goroutine with `Pool.Start`, workers, collector goroutine, snapshot goroutine, result channel, shutdown order |
| `RequestOrder.dfy` | which requests a worker issues, how often and in which order |
| `EngineRuns.dfy` | the engine: spawning, waiting, and the VUsers its snapshots show |
| `RampUp.dfy` | spawn times of `Pool.Start` under an exact ticker |
| `AgentManager.dfy` | the agent table and its bounded command channels, as functions and as a class |
| `CommandQueues.dfy` | the same table under concurrent callers; an enqueue or dequeue is two steps |
| `Staleness.dfy` | heartbeats and the ten-second health check on an integer clock |
| `Scheduler.dfy` | the split of VUsers over the online agents |
| `StartOnce.dfy` | uniqueness of start commands through the queues |
| `Deployment.dfy` | the end-to-end system: handlers, queues, one engine per delivered start command, reports, merged view |
| `StartLoop.dfy` | the loop of the run handler that enqueues the start commands |
| `Reporting.dfy` | which snapshot of which execution the controller stores for an agent |
| `LoadBound.dfy` | the load bound of that system |
| `MergedView.dfy` | the snapshots behind every merged view, and its accuracy for them |
| `Agent.dfy` | overlapping executions on one agent and `StopTest` |
| `Aggregator.dfy` | the latest-report map, the merged view, its accuracy |
| `Hub.dfy` | registration, teardown, broadcast and eviction of WebSocket clients |
| `HubDelivery.dfy` | what reaches a client, how often and in which order |
| `HubHistory.dfy` | the hub state in terms of the run that led to it |
| `HubClosing.dfy` | when a client's channel is closed a second time |
| `Threshold.dfy` | threshold evaluation, its printed values, and the condition parser, with a printer |
| `RunVerdicts.dfy` | what the thresholds of a finished run judge, in terms of the results sent |
| `Placeholders.dfy` | `${VAR}` expansion |
| `Config.dfy` | validation, target lookup, and what a validated scenario means for the engine |
| `Histogram.dfy`, `Arithmetic.dfy`, `Ranges.dfy`, `Wrappers.dfy` | nearest-rank percentiles, integer-by-real products, ranges of naturals, `Option` |

## What the code does not keep

Where a property one would like fails, the model keeps the code's behaviour, shows an
input, and states the exact condition.

* A snapshot can show more errors than requests, because the two counters are read one after
  the other while `Record` runs: an error rate of 200 percent is reachable
  (`Collector.ErrorRateCanExceedOne`). The excess is never more than one. From a state in
  which recorder and snapshots rest, some later snapshot can do so if and only if every
  request so far has failed, and then the next one can (`Collector.OvershootExactly`); one
  recorded success rules it out for good.
* A cancelled run can shut down if and only if `NewTicker` does not panic, and its request
  list is not empty or it has no VUsers (`Engine.ShutdownExactly`). `NewTicker` panics with
  more than one VUser and a ramp-up above zero but below one nanosecond per VUser. Validation
  rules out the empty request list and not the short ramp-up (`Config.ValidatedRunShutsDown`).
* A client's channel can be closed twice, a panic. In every run that takes an eviction, which
  a broadcast schedules on finding the client's buffer full (`HubClosing.SecondCloseNeedsEviction`).
  Once it is scheduled, a second close is reachable without any further broadcast
  (`HubClosing.EvictionLeadsToSecondClose`); and one is reachable at all if and only if the
  client is registered or has an eviction scheduled (`HubClosing.SecondCloseExactly`). No run
  in which an eviction and the reader's teardown both finish goes without the panic
  (`HubClosing.OneCloserFinishes`).
* An accepted command can end up on a channel that no lookup finds. Following an enqueue from
  its own lookup through any run, that is so if and only if the agent was removed since that
  lookup, before or after the send (`CommandQueues.AcceptedButOrphaned`).
* With overlapping executions on one agent, an execution may be running while the status is
  idle and no stop can reach it; `StopTest` answers true if and only if the last begin has no
  end after it and is of that run (`Agent.StopTargets`, `Agent.OverlapHidesExecution`). A stop
  reaches a given execution of its run if and only if that is the one begun last, with no end
  after it (`Agent.HiddenExactly`).
* "<" and ">=" are not always opposite verdicts: on "nan" all four operators fail
  (`Threshold.NaNDefeatsBoth`). They are if and only if the text after the operator does not
  begin, after spaces, with "nan" in any case (`Threshold.Complements`).
* An agent's share can be zero VUsers, if and only if the total does not exceed its position,
  counted from 0 (`Scheduler.ShareZeroExactly`); the shares of a negative total add up to it
  only when it divides evenly (`Scheduler.SharesSum`).

## Assumptions

* Floating point is `real`. Rounding is not modelled, and decimal literals in conditions are
  within the range of a float64 (beyond it the scan fails and leaves the threshold at 0).
* The HDR histogram is the sequence of the recorded microsecond values with nearest-rank
  (ceiling) percentiles; its bucket resolution is not modelled. Latencies in the engine are at
  most one hour, the histogram's configured limit; the `Collector` class covers the others.
* An HTTP call is an arbitrary result that may return at any time.
* Clocks are integers in nanoseconds; health-check and ramp-up ticks are exact. In the engine
  the ramp-up tick may come at any time and the snapshot ticker holds one pending tick.
* The sections under a write lock of the hub and of the agent table are single steps, and so
  is handing an assignment list to a new test run. Broadcasts under the read lock, and
  enqueues and dequeues, are several steps.
* Cancelled contexts are flags. Command channels and clients are numbered in order of
  creation instead of being references.

## Model

| member | source | states |
|---|---|---|
| `LoadBound.ReportedLoadBound` | internal/controller/aggregator.go:98-103 | in every reachable state of the whole system the merged `ActiveVUsers` of a run is between 0 and the `TotalVUsers` it asked for, through queues, engines, lost and late reports and cleanups |
| `LoadBound.SpawnedLoadBound` | internal/api/handler.go:394-440 | the VUsers ever spawned for a run on all agents together never exceed its total, and the active ones never exceed the spawned ones |
| `LoadBound.OneExecutionPerAgent` | internal/agent/agent.go:192-202 | no two executions of a run are on one agent, and each consumed a dequeue of its own |
| `LoadBound.BoundAttained` | internal/worker/worker.go:47-73 | the load bound is tight for every total from 1 to 2^31 - 1: a reachable state has spawned it all |
| `Deployment.StepKeepsInv` | internal/api/handler.go:430-440 | every step of handlers, queues, engines, reports and cleanups keeps: assignments sum to the total, issued starts are assigned, executions run delivered starts, stored reports fit the assignment (that every assignment is started is `StartLoop.PassedAreStarted`) |
| `StartLoop.PassedAreStarted` | internal/api/handler.go:430-440 | in every reachable state each assignment the loop has passed had a start command enqueued, for its agent, with the share in 32 bits and the scenario of the run |
| `StartLoop.StartsArePassed` | internal/api/handler.go:430-440 | every start command of a run is that of an assignment the loop has passed, with its share and scenario |
| `StartLoop.StartsAreAssignments` | internal/api/handler.go:430-440 | when the loop is done the start commands of the run are exactly its assignments, one each |
| `LoadBound.FoldWithin` | internal/controller/aggregator.go:98-124 | reports of distinct assigned agents, each within its assignment, fold to at most the sum of the assignments |
| `MergedView.SnapshotsBehind` | internal/controller/aggregator.go:41-53 | in every reachable state of the whole system the stored reports of a run are those of snapshots its executions took, each agent's by an execution on that agent |
| `Reporting.LatestShown` | internal/controller/aggregator.go:41-53 | along any run of the whole system the controller stores for an agent exactly the last report that arrived since the last cleanup of the run, and it is that of the snapshot which the execution sent then, numbered by its sends so far |
| `Reporting.SentInOrder` | internal/agent/agent.go:282-299 | an execution sends its snapshots one after the other, none twice and none skipped |
| `MergedView.MergedViewAccurate` | internal/controller/aggregator.go:95-131 | so in every reachable state, for the snapshots behind the stored reports: the merged requests, errors, active VUsers and rate are the sums over them, the merged average is within a millisecond below the mean of their histogram means weighted by the requests they count, and merged and pooled percentiles lie between two that contributing agents report |
| `StartOnce.StartDeliveredOnce` | internal/controller/agent_manager.go:81-142 | if each (run, agent) start is enqueued by one call, no channel or pair of channels ever accepts it twice, at most one dequeue delivers it, only to that agent, and it is the command that was enqueued |
| `StartOnce.StepKeepsInv` | internal/controller/agent_manager.go:39-142 | every step of the queues keeps the uniqueness of puts, accepted and delivered starts and the chain from delivery back to put |
| `Engine.StepKeepsInv` | internal/runner/runner.go:55-146 | every step of main, workers, collector and snapshot goroutine keeps counters, shutdown order, conservation of results and bounds (the order of the requests is `RequestOrder.IssuesInOrder`) |
| `RequestOrder.IssuesInOrder` | internal/worker/worker.go:85-101 | in every reachable state the k-th request a worker has issued is number k modulo the length of the list, and it has issued as many as it produced results, plus the one in flight |
| `RequestOrder.IssuesEvenly` | internal/worker/worker.go:85-101 | a worker with m results has issued each request of a list of n exactly m / n times, those before position m mod n once more; after complete rounds every one equally often |
| `EngineRuns.WorkersGoOn` | internal/worker/worker.go:79-102 | a worker that is not gone can always go on, unless the channel is full, and then the collector can; before cancellation it neither returns nor drops a result |
| `EngineRuns.SendsExactly` | internal/runner/runner.go:55-60 | in every reachable state a worker with a result can send it exactly while fewer than 1000 or fewer than 100 per VUser are waiting |
| `EngineRuns.CapacityExact` | internal/runner/runner.go:55-60 | the channel holds the larger of 1000 and 100 per VUser |
| `EngineRuns.AllSpawned` | internal/worker/worker.go:47-72 | once `Start` has returned every VUser was spawned, unless a cancellation cut a ramp-up short |
| `EngineRuns.RampUpWaits` | internal/worker/worker.go:61-71 | in a ramp-up no VUser but the first is spawned without having received a tick of its own |
| `EngineRuns.SnapshotShowsActive` | internal/runner/runner.go:81-84 | every snapshot shows the VUsers of the run and how many workers were between increment and decrement when it was called |
| `Engine.DrivesCollector` | internal/runner/runner.go:72-90 | the collector of every engine run is in a state its recorder and snapshot goroutine reach, so what is said of those holds of `Run` |
| `Engine.EngineSnapshotDrift` | internal/runner/runner.go:81-90 | every snapshot an engine takes shows its samples and at most one request more, at most one error more than requests, and totals that never decrease |
| `Engine.CloseSafety` | internal/runner/runner.go:125-139 | no send or close hits a closed channel, the only panic is that of a ticker without interval before any worker exists; the active counter counts the workers between increment and decrement, is at most the number spawned, and 0 once `Wait` returned |
| `Engine.ResultConservation` | internal/worker/worker.go:85-101 | produced results = recorded + in the collector's hands + in the channel + held + dropped; each worker drops at most one and only after cancellation; the histogram gets results in the order of sending |
| `Engine.ReturnedTotalsExact` | internal/runner/runner.go:128-146 | the result `Run` returns counts exactly the results sent and the failed ones among them; successes + errors = total and minimum ≤ P50 ≤ P95 ≤ P99 ≤ maximum (its rates are `Engine.ReturnedRatesExact`) |
| `Engine.ReturnedLatenciesExact` | internal/runner/runner.go:128-146 | P50, P95, P99, maximum and minimum of the returned result are the nearest-rank percentiles 50, 95, 99, 100 and 0 of the latencies of the results sent, and its average is their truncated mean; all 0 when none was sent |
| `Engine.ReturnedRatesExact` | internal/runner/runner.go:128-146 | the returned error rate times the results sent is the number of failures among them, the average rate is the results sent per second, and the peak is the maximum over the returned snapshots |
| `Engine.ReturnedCountersExact` | internal/metrics/collector.go:103-129 | when `Run` returns, the collector's histogram holds exactly the latencies of the results sent, in order |
| `Engine.ReturnedMissesFew` | internal/worker/worker.go:96-100 | when `Run` returns, at most one produced result per VUser is missing from the total |
| `Engine.ReturnedPeakExact` | internal/metrics/collector.go:70-78 | when `Run` returns, its peak is the exact maximum of its snapshots' rates, and their windows plus the leftover make the total |
| `Engine.LateWork` | internal/worker/worker.go:85-101 | after cancellation a worker sends at most one more result and one spawned then issues no request |
| `Engine.RankDescends` | internal/worker/worker.go:61-101 | after cancellation every engine step lowers a ranking over spawner, workers, channel, collector and snapshots |
| `Engine.ShutdownBounded` | internal/runner/runner.go:125-139 | every run from a reachable cancelled state has at most rank + 10 per tick engine steps |
| `Engine.DeadlockFree` | internal/runner/runner.go:125-139 | after cancellation no engine step is possible exactly when everything is done (workers gone, channel closed and empty, collector and snapshots finished) or `NewTicker` panicked |
| `Engine.ShutdownCompletes` | internal/runner/runner.go:125-146 | from every reachable cancelled state engine steps alone lead to the end, unless the ticker panics |
| `Engine.ShutdownExactly` | internal/worker/worker.go:57-101 | a reachable cancelled run can end exactly when its ramp-up interval does not round to zero and its request list is not empty or it has no VUsers |
| `Collector.SnapshotDrift` | internal/metrics/collector.go:41-68 | in every interleaving of the atomic operations: histogram count ≤ total ≤ histogram count + 1, errors ≤ total + 1, both totals nondecreasing over snapshots |
| `Collector.SnapshotsCredible` | internal/metrics/collector.go:51-67 | every snapshot's samples are at least one microsecond, and its total counts them and at most one more |
| `SnapshotContents.ContentsExact` | internal/metrics/collector.go:62-100 | in every interleaving a snapshot holds exactly the latencies of the first n results, for some n, and the errors and bytes of the first n or n + 1 |
| `SnapshotContents.RateExact` | internal/metrics/collector.go:70-74 | the rate of every snapshot is its window, or for an empty window the average since the start |
| `SnapshotContents.ErrorRateExact` | internal/metrics/collector.go:80-83 | the error rate of every snapshot times its total is its errors |
| `SnapshotContents.LastRateExact` | internal/metrics/collector.go:75 | between snapshots the rate kept as last is that of the last snapshot |
| `Collector.ErrorRateCanExceedOne` | internal/metrics/collector.go:67-83 | the error bound is reached: one request, two errors, error rate 2.0 |
| `Collector.FailureBetweenLoads` | internal/metrics/collector.go:67-68 | from any quiet state a failure between the two loads gives a next snapshot with one error more than the counters had |
| `Collector.OvershootExactly` | internal/metrics/collector.go:67-83 | from a reachable state at rest, the next snapshot can show more errors than requests exactly when every request so far has failed, and so can any later one, however many requests are recorded in between |
| `Collector.ResultCoherent` | internal/metrics/collector.go:103-141 | with at most as many errors as requests a result's outcomes add up, its error rate lies between 0 and 1 and its latencies are ordered |
| `Collector.ResultDescribes` | internal/metrics/collector.go:131-136 | each latency of a result is the nearest-rank percentile of its own rank, the average the truncated mean |
| `Collector.ResultRates` | internal/metrics/collector.go:107-120 | the error rate of a result times its requests is its errors; totals, average rate, peak and snapshots are those of the run |
| `Collector.AverageMeans` | internal/metrics/collector.go:116-119 | the average rate times the seconds is the total, and it is 0 without duration |
| `Collector.QuiescentCountersExact` | internal/metrics/collector.go:41-59 | once the recorder is done every counter and the histogram are exact functions of the recorded results |
| `Collector.WindowConservation` | internal/metrics/collector.go:70-78 | swapped-out windows plus the leftover equal the total; the peak is the exact maximum of snapshot rates, so total ≤ snapshots × peak + leftover |
| `Collector.StepKeepsInv` | internal/metrics/collector.go:41-100 | every atomic operation of recorder and snapshot goroutine keeps the counter, lock, window and drift invariants |
| `Collector.RecordAlone` | internal/metrics/collector.go:41-59 | the atomic operations of `Record` without interference have the effect of the sequential `Record` |
| `Collector.SnapshotAlone` | internal/metrics/collector.go:62-100 | the same for `Snapshot` |
| `Collector.Collector.Record` | internal/metrics/collector.go:41-59 | the new counters and histogram; untrackable latencies are counted but not stored |
| `Collector.Collector.TakeSnapshot` | internal/metrics/collector.go:62-100 | the new state and the returned snapshot |
| `Collector.Collector.Result` | internal/metrics/collector.go:103-141 | returns the result that `Collector.ResultDescribes` and `Collector.ResultRates` describe, coherent whenever errors do not exceed requests |
| `Histogram.Percentile` | internal/metrics/collector.go:92-94 | the least recorded value that at least p percent of the values do not exceed; 0 when empty |
| `Histogram.PercentileMonotone` | internal/metrics/collector.go:92-94 | a higher percentile is never smaller |
| `RampUp.Start` | internal/worker/worker.go:47-72 | the spawn times; a panic exactly when 0 < ramp-up < VUsers and VUsers > 1 |
| `RampUp.RampUpLine` | internal/worker/worker.go:57-71 | spawned by time t = min(V, t/i + 1) with i = R/V, never behind the line V·t/R until V is reached, all strictly before R |
| `RampUp.SpawnedCount` | internal/worker/worker.go:57-71 | the closed form of the number spawned by time t |
| `CommandQueues.QueueRefinement` | internal/controller/agent_manager.go:39-142 | over all interleavings both maps have the same keys, no channel holds more than 10 commands, accepted = delivered followed by pending in FIFO order |
| `CommandQueues.EnqueueTruth` | internal/controller/agent_manager.go:81-124 | an enqueue returns true exactly when there was room and it appended its command; false changes nothing |
| `CommandQueues.UnknownAgentRefused` | internal/controller/agent_manager.go:82-88 | a call for an agent unknown at its lookup answers false or nothing at once, stays so whatever follows, and touches no queue |
| `CommandQueues.ReRegisterLosesNothing` | internal/controller/agent_manager.go:39-49 | registering a present agent keeps its channel, every pending command and every other agent |
| `CommandQueues.AcceptedButOrphaned` | internal/controller/agent_manager.go:82-98 | in any run after an enqueue's lookup: answering true means the looked-up channel accepted the command, and that channel is still the agent's exactly when the agent was never removed since the lookup |
| `CommandQueues.CurrentExactly` | internal/controller/agent_manager.go:183-187 | along any run a channel that lookups find stays so exactly when its owner is never removed |
| `CommandQueues.OrphanedForever` | internal/controller/agent_manager.go:183-187 | a channel dropped by `Remove` is never found again, whatever follows |
| `CommandQueues.RemoveCanOrphan` | internal/controller/agent_manager.go:82-91 | such a lost, accepted command is reachable |
| `CommandQueues.StepKeepsInv` | internal/controller/agent_manager.go:39-234 | every critical section and channel operation keeps the table invariant and the operation log |
| `AgentManager.AgentManager.RegisterAgent` | internal/controller/agent_manager.go:39-49 | stamps and stores the agent, creates a channel only when there is none |
| `AgentManager.AgentManager.HeartbeatFrom` | internal/controller/agent_manager.go:60-73 | updates a known agent, ignores an unknown one |
| `AgentManager.AgentManager.RemoveAgent` | internal/controller/agent_manager.go:183-187 | removes the agent and its channel entry |
| `AgentManager.AgentManager.Enqueue` | internal/controller/agent_manager.go:81-124 | a bounded non-blocking send on the agent's channel, false for an unknown agent |
| `AgentManager.AgentManager.DequeueCommand` | internal/controller/agent_manager.go:127-142 | a non-blocking receive in FIFO order |
| `AgentManager.AgentManager.OnlineAgents` | internal/controller/agent_manager.go:145-156 | lists exactly the agents that are not offline, each once, in any map order |
| `AgentManager.AgentManager.MarkStaleOffline` | internal/controller/agent_manager.go:219-234 | exactly the agents silent for more than 30 s become offline |
| `Staleness.OnlineAreFresh` | internal/controller/agent_manager.go:145-156 | every agent listed as online has a heartbeat at most 40 s old |
| `Staleness.OfflineExactly` | internal/controller/agent_manager.go:205-227 | an agent is offline exactly when its last contact was more than 30 s old at the last health check |
| `Staleness.LoadExactly` | internal/controller/agent_manager.go:60-73 | status, CPU, memory and active VUsers in the table are those of the last registration or heartbeat, but for offline marks of the health check; the maximum is that of the last registration |
| `Staleness.SteadyStaysOnline` | internal/controller/agent_manager.go:60-73 | an agent never silent for more than 30 s is never marked offline |
| `Staleness.FortySecondsReached` | internal/controller/agent_manager.go:223-225 | the 40 s bound is reached |
| `Scheduler.Scheduler.Allocate` | internal/controller/scheduler.go:20-42 | fails exactly when no agent is online, otherwise assigns every online agent once |
| `Scheduler.AssignsOnline` | internal/controller/scheduler.go:20-42 | an allocation names exactly the online agents, each once, in the order of the listing |
| `Scheduler.SharesDescend` | internal/controller/scheduler.go:29-39 | the larger shares come first |
| `Scheduler.SharesSum` | internal/controller/scheduler.go:26-39 | the shares add up to the total exactly when it is not negative or divides evenly |
| `Scheduler.SharesBalanced` | internal/controller/scheduler.go:26-39 | any two shares differ by at most one and lie between 0 and a non-negative total |
| `Scheduler.ShareZeroExactly` | internal/controller/scheduler.go:26-39 | an agent gets no VUser exactly when the total does not exceed its position |
| `Scheduler.SharesOptimal` | internal/controller/scheduler.go:26-39 | no split of the same total over the same agents has a smaller maximum or a larger minimum |
| `Scheduler.SharesIgnoreOrder` | internal/controller/scheduler.go:20-42 | two listings of the same table have the same agents and the same shares by position |
| `Aggregator.Aggregator.OnMetricReport` | internal/controller/aggregator.go:41-57 | stores the report as the agent's latest and returns the merged view |
| `Aggregator.Aggregator.Aggregate` | internal/controller/aggregator.go:80-134 | the merged view is a fold over the agents, whatever order the map yields; nothing for an unknown run |
| `Aggregator.Aggregator.Cleanup` | internal/controller/aggregator.go:137-141 | forgets exactly that run |
| `Aggregator.FoldRemove` | internal/controller/aggregator.go:98-124 | the fold may take any agent first |
| `Aggregator.LatestExactly` | internal/controller/aggregator.go:41-53 | the incrementally kept map holds exactly the last report of each agent in the full report log since the run's last cleanup |
| `Aggregator.PooledMeanAccuracy` | internal/controller/aggregator.go:106-131 | when some agent has requests, A ≤ M < A + 1 ms for the merged average A and the mean M of the untruncated histogram means, each weighted by the requests its snapshot counts and divided by all of them |
| `Aggregator.TotalsAreSums` | internal/controller/aggregator.go:100-103 | merged rate, requests, errors and active VUsers are the sums over the snapshots of the agents |
| `Aggregator.WeightIsRequests` | internal/controller/aggregator.go:106-113 | the weight of the fold is the number of requests the snapshots count |
| `Aggregator.LevelIsWeightedMean` | internal/controller/aggregator.go:108-130 | each merged percentile times all requests is the sum of the agents' own percentiles, in whole milliseconds, each times its requests |
| `Aggregator.NothingRequested` | internal/controller/aggregator.go:126-131 | without requests the merged average and percentiles are 0 |
| `Aggregator.LinesAreSnapshots` | internal/controller/aggregator.go:115-123 | the per-agent lines show rate, active VUsers, requests and errors of the snapshot of that agent |
| `Aggregator.PercentileSoundness` | internal/controller/aggregator.go:105-130 | for the reports agents send for their snapshots, in whole milliseconds: each merged percentile lies between those two contributing agents report, and so does the true percentile of all their samples pooled, in whole milliseconds |
| `Aggregator.AggregatedBetween` | internal/controller/aggregator.go:105-130 | for any reports the merged percentile lies between the least and the greatest of the contributing agents |
| `Aggregator.ReportOrdered` | internal/agent/agent.go:287-293 | a report has P50 ≤ P95 ≤ P99 |
| `Aggregator.AggregationOrdered` | internal/controller/aggregator.go:126-131 | merging preserves P50 ≤ P95 ≤ P99 |
| `Agent.StopTargets` | internal/agent/agent.go:316-325 | for any overlapping executions `StopTest` answers true exactly when the last begin, with no end after it, is of that run; it then cancels that execution, and every other one is left as it was |
| `Agent.HiddenExactly` | internal/agent/agent.go:256-270 | an executing test is cancelled after a stop of its run exactly when it already was or is the one begun last with no end after it |
| `Agent.CancelledExactly` | internal/agent/agent.go:256-325 | along any run the context of an execution is cancelled exactly when its own cleanup ran, or a stop of its run or the shutdown came while it was the one begun last with no end after it |
| `Agent.FailedParseIsFinal` | internal/agent/agent.go:245-249 | an execution whose scenario does not parse never begins, ends or gets cancelled, whatever follows |
| `Agent.StatusExactly` | internal/agent/agent.go:256-270 | the status is running exactly while the last begin has no end after it |
| `Agent.OverlapHidesExecution` | internal/agent/agent.go:256-270 | overlapping executions can leave one running, status idle and unreachable by a stop |
| `Agent.Agent.BeginExecution` | internal/agent/agent.go:256-261 | the fields after an execution begins |
| `Agent.Agent.EndExecution` | internal/agent/agent.go:263-270 | the fields after an execution's cleanup |
| `Agent.Agent.Stop` | internal/agent/agent.go:316-325 | cancels the active execution when the run matches |
| `HubDelivery.DeliverySafety` | internal/ws/hub.go:150-166 | a client in the map has an open channel, so `broadcast` never sends on a closed one; buffers hold at most 256 |
| `HubDelivery.ExactlyOnce` | internal/ws/hub.go:103-157 | a registered client with no scheduled eviction has received or buffered every broadcast since it joined exactly once, except those still in progress; at most the last one taken is unwritten |
| `HubDelivery.SerialInOrder` | internal/ws/hub.go:150-157 | without overlapping broadcasts the stream is exactly the broadcasts since joining, in order |
| `HubHistory.RegisteredExactly` | internal/ws/hub.go:63-79 | along any run a client is in the map exactly when its connection was accepted and neither its teardown nor an eviction has deleted it since |
| `HubHistory.JoinedExactly` | internal/ws/hub.go:63-65 | the broadcasts a client is not owed are those begun before its connection was accepted |
| `HubHistory.OverlappedExactly` | internal/ws/hub.go:150-151 | broadcasts count as overlapped exactly when one began while another held the read lock |
| `HubHistory.EvictionsExactly` | internal/ws/hub.go:153-164 | evictions of a client are scheduled exactly by the visits that find 256 messages waiting, one each |
| `HubClosing.SecondCloseNeedsEviction` | internal/ws/hub.go:156-164 | in every run a second close of a client's channel comes only after a broadcast scheduled its eviction |
| `HubClosing.EvictionLeadsToSecondClose` | internal/ws/hub.go:75-81 | once an eviction is scheduled, a second close is reachable with no further broadcast, also while broadcasts are in progress |
| `HubClosing.SecondCloseExactly` | internal/ws/hub.go:75-81 | a second close of a client's channel is still reachable exactly when the client is registered or has an eviction scheduled |
| `HubClosing.OneCloserFinishes` | internal/ws/hub.go:75-81 | of a client's reader and evictions at most one ever gets past its close: if a second one does, the program has panicked |
| `HubClosing.OverflowReachable` | internal/ws/hub.go:156-164 | evictions, and so second closes, do happen |
| `Hub.VisitOrderIrrelevant` | internal/ws/hub.go:153-166 | the visits of one broadcast have the same outcome in every order |
| `Hub.Hub.HandleWebSocket` | internal/ws/hub.go:57-65 | a new client with an open empty channel joins the map |
| `Hub.Hub.Broadcast` | internal/ws/hub.go:143-167 | offers the message to every client in the map, once each |
| `Hub.Hub.Forget` | internal/ws/hub.go:76-78 | the client leaves the map, its channel is not yet closed |
| `Threshold.Evaluate` | internal/threshold/threshold.go:11-55 | one verdict per rule in order, quoting the rule, with the printed actual value and the outcome that `Threshold.VerdictMeans` explains; an unknown metric fails |
| `Threshold.VerdictMeans` | internal/threshold/threshold.go:23-49 | for each of the six metrics the printed text read back is the number judged, and that number is the whole milliseconds of that latency, 100 times the error rate (printed to half a hundredth) or the total; every other name fails as unknown |
| `RunVerdicts.VerdictOfRun` | internal/threshold/threshold.go:20-55 | a verdict on a returned run judges the nearest-rank 50th, 95th or 99th percentile or the truncated mean of the latencies sent, or their number, by its metric |
| `RunVerdicts.FailuresOfRun` | internal/threshold/threshold.go:36-38 | a verdict on failures judges 100 times the rate whose product with the results sent is the failures among them |
| `Threshold.ActualReadsBack` | internal/threshold/threshold.go:23-49 | the printed actual value read as a threshold is the compared value, to half a hundredth for the percentage |
| `Threshold.ConditionRoundTrip` | internal/threshold/threshold.go:59-105 | evaluating a printed condition (operator, decimal, unit, spaces) is the comparison it means, seconds counting 1000 |
| `Threshold.OperatorMeans` | internal/threshold/threshold.go:64-104 | each of the four operators is the comparison of its name, with every plain decimal |
| `Threshold.UnitMeans` | internal/threshold/threshold.go:80-91 | seconds count 1000; percent signs and plain numbers count as they are |
| `Threshold.EverydayConditions` | internal/threshold/threshold.go:57-105 | "< 250ms", "< 1.5s" and "<-1%" are the comparisons with 250, 1500 and -1 |
| `Threshold.InfiniteConditions` | internal/threshold/threshold.go:81-104 | "inf" in any case, with or without a sign, is above or below every actual value |
| `Threshold.NumberlessIsZero` | internal/threshold/threshold.go:80-91 | a text that begins with no number leaves the threshold at 0, whatever unit it ends with |
| `Threshold.Complements` | internal/threshold/threshold.go:64-104 | "<" and ">=", "<=" and ">" are complements on a text after the operator exactly when it does not begin with "nan" |
| `Threshold.NaNDefeatsBoth` | internal/threshold/threshold.go:91-102 | "< nan" and ">= nan" both fail, whatever the actual value |
| `Threshold.VerdictMonotone` | internal/threshold/threshold.go:94-104 | every condition text is monotone in the actual value in the direction of its operator |
| `Placeholders.NoOverlap` | internal/config/config.go:13 | two placeholders never overlap |
| `Placeholders.UniqueDecomposition` | internal/config/config.go:13 | every string decomposes into literals and placeholders in exactly one canonical way |
| `Placeholders.ExpandIsSubstitution` | internal/config/config.go:110-118 | literals and unset placeholders are kept, set ones replaced by their value, which is not rescanned |
| `Placeholders.DistributesExactly` | internal/config/config.go:110-118 | expansion distributes over a join in every environment exactly when no placeholder straddles it |
| `Config.Validate` | internal/config/config.go:38-90 | reports nothing exactly for well-formed configurations, otherwise the fault that comes first in checking order |
| `Config.WellFormedExactly` | internal/config/config.go:38-90 | a configuration has no fault exactly when it has targets and scenarios, target names are distinct, every name, URL, method and path is there, every scenario names a target and every count is at least one |
| `Config.CheckingOrder` | internal/config/config.go:38-90 | the checking order of the faults is total, and spelled out |
| `Config.Prepare` | internal/runner/runner.go:24-39 | the first scenario and the first target with its name, or the error |
| `Config.TargetUnique` | internal/config/config.go:46-69 | in a validated configuration a scenario's target exists and is unique |
| `Config.ValidatedRunShutsDown` | internal/config/config.go:70-78 | a validated scenario, its VUsers overridden by any assignment, can always be shut down once cancelled, except exactly when 0 < ramp-up < VUsers and VUsers > 1 |

## Left out

- The database, gRPC and generated code, HTTP transport and routing, YAML decoding, WebSocket framing and ping timing, CLI flags, dashboard, reports and terminal output: I/O and plumbing. Only the events they trigger are modelled.
- "One active run per test" in `runTest`: check-then-insert without a transaction, so it does not hold for concurrent handlers; run ids are assumed fresh.
- HDR histogram internals: not part of this model, see Assumptions.
- Float rounding: `real` is used, since the order of summation in `Aggregate` follows map iteration.
- Delivery of stop commands: the queue may be full or the stop may precede the start, so no delivery is claimed; stop commands are ordinary events of the queues.
- `MaxVUsers`: `Allocate` ignores it, and so does the model.
- Order of broadcasts made by concurrent `OnMetricReport` calls: not claimed; `Aggregator.OnMetricReport` is the single-caller view, in which no cleanup comes between storing and merging.
- Staleness.OnlineAreFresh: `SetStatus` is excluded, since it could set an offline agent online without a heartbeat.
- Threshold.ConditionRoundTrip: number tokens with exponents, underscores or hexadecimal digits are read by an arbitrary function `foreign`; the printer prints plain decimals.
- Collector.Collector.Record, Collector.Collector.TakeSnapshot, Hub.Hub.Broadcast and the other class methods: they are the single-caller view; what concurrent callers see is stated by the step systems.
- RampUp.RampUpLine: no cancellation during ramp-up and exact ticks; the engine covers cancellation and arbitrary ticks.
- LoadBound.ReportedLoadBound: reports come only from executions started by delivered commands; forged reports are not considered. The conversion of assignments to 32 bits is modelled with wrap-around and needs no assumption.
- Engine.StepKeepsInv: `runner.Run` and `worker.Pool` are step systems on values and not classes, since their goroutines interleave; update in place is not captured. The same holds for the handler loops of `runTest` and `stopTest`, which are events of `Deployment` and `CommandQueues`.
- The agent's reconnection and the load numbers in its heartbeats: agents appear only through the registrations, heartbeats, polls and reports they cause.
