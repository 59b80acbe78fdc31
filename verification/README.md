# SensorKit model

SensorKit automates an observatory: controllers are driven to demanded operating states, programs offer observing time, and a
schedule decides which mode and programs are in effect. This project models the algorithms and protocols at its core and proves
what they promise.

- **Dependency graphs** (`DagGraph`, `DagRun`, `DagMeaning`, `DagConfluence`, `DagEarlySkip`, `DagRunner`). Topological sorting with cycle extraction, and the execution of a
  graph: skip cascades, overrides, failure policies and the dispatch loop. The bookkeeping rules are atomic events, enabled only where the run
  loop makes them: skips between override passes, passes in ascending id order, ends of tasks once all else has settled. Every method
  of the run state extends a log of such events, so a theorem about logs is a theorem about every execution, whichever tasks end
  first and in whatever order sets are visited.
- **Intervals and the schedule** (`IntervalTrees`, `IntervalSweep`, `IntervalStack`, `Schedule`, `DailyRange`). Each heap sweep,
  chop and slice is proved against a point-by-point meaning. The meanings compose into one statement about the intent read from
  the schedule at any time. An interval tree is a mutable finite set of half-open intervals.
- **Controller lifecycle** (`Failure`, `Procedure`, `Reactor`, `RecoveryDelay`, `TaskCall`, `Supervisor`,
  `Supervised`). Values and step
  functions describe procedures, the reactor, the failure counts and the state supervisor; classes with the same fields as
  SensorKit's update them in place and are proved equal to those functions. Safety is proved over whole runs, in which time passes,
  demand changes, tasks end and reactors restart in any order.
- **Constraints, leases, elections, watches, sessions** (`Constraint`, `Lease`, `Election`, `FileWatch`, `SessionMonitor`). Holds
  that survive restarts; leases fenced by revisions; dependency-aware elections; watches with deferred teardown; attribution of
  program events to a session.

Clocks, event ids, task outcomes, store answers and cancellations are parameters or freely chosen events. Times are integers.

Four promises hold only under a condition, and the condition is part of what is proved:

- A restarted optional constraint shows clear while a hold is carried over (core/src/sensorkit/auto/constraint.py:99-113).
  `Constraint.HonouredExactly` says for which configurations the hold is honoured.
- The delay after a failed recovery attempt is not kept when a positive stable period is shorter than it: the counts expire, a
  lifecycle procedure starts, and its start clears the delay (core/src/sensorkit/auto/failure.py:93-102).
  `RecoveryDelay.WaitsExactly` says for which configurations every run keeps it.
- With overrides, completion order can decide a status (core/src/sensorkit/common/dag.py:391-413): a node overridden as ok may
  be reached by the same pass that overrides, as skipped, a lower-numbered node it depends hard on. `DagMeaning.Confluence`
  covers every graph without such a pair, so every graph without overrides, and graphs with such pairs in which the dependent
  waits for no more than that dependency and what the dependency waits for. `DagConfluence.ApartExactly` shows that of all
  conditions on single hard edges the absence of such pairs is the weakest that suffices, `DagConfluence.OrderingDecides` that
  beyond it the overrides and hard edges of a graph no longer decide the matter, and `DagEarlySkip.TransitiveTieRaces` that
  waiting for what the dependency transitively waits for is already too much.
- The election's output is documented to come in topological order (core/src/sensorkit/common/graph.py:82-88), but the dependencies of
  a downvoted subject are not visited before it. `Election.OrderedExactly` says when the order is kept, and
  `Election.DependencyLast` gives an election in which it is not.

## Model

| member | source | states |
|---|---|---|
| `DagGraph.TopoOrder` | core/src/sensorkit/common/dag.py:83-109 | sorts exactly the graphs that are closed under dependencies and acyclic, giving a permutation with every dependency before its dependents; otherwise reports a dependency that names no node, exactly when there is one, or a genuine dependency cycle |
| `DagGraph.KahnTurn` | core/src/sensorkit/common/dag.py:99-101 | consuming one queued node keeps every counter equal to the number of unconsumed dependencies, and the queue equal to the nodes whose counter is exhausted, without repeats |
| `DagGraph.StuckWait` | core/src/sensorkit/common/dag.py:103-107 | every node the counting loop could not order depends on another such node, so the cycle search never takes the minimum of an empty set |
| `DagGraph.FindCycle` | core/src/sensorkit/common/dag.py:111-124 | terminates, and what it returns follows dependency edges and closes on itself within the stuck nodes |
| `DagGraph.OrderRanks` | core/src/sensorkit/common/dag.py:83-109 | a topological order makes the dependencies well-founded: each ranks below its dependents |
| `DagGraph.RankedAcyclic` | core/src/sensorkit/common/dag.py:83-109 | well-founded dependencies leave no closed walk of any length |
| `DagGraph.GraphBuilder.Add` | core/src/sensorkit/common/dag.py:185-197 | appends one node, with the next id and its two kinds of edges, and changes nothing else |
| `DagGraph.GraphBuilder.Build` | core/src/sensorkit/common/dag.py:209-218 | builds exactly the closed acyclic graphs, with every hard edge also an ordering edge, and refuses any other with the unknown dependency or cycle that is wrong with it |
| `DagRun.RunPartition` | core/src/sensorkit/common/dag.py:333-349 | at every point of every run each node is in exactly one of resolved, in flight and waiting |
| `DagRun.RunGrows` | core/src/sensorkit/common/dag.py:369-436 | results are written once and never change, nodes leave the waiting set for good, a stopped run stays stopped |
| `DagRun.AtMostOnce` | core/src/sensorkit/common/dag.py:415-431 | no run dispatches a node twice or gives one two results |
| `DagRun.DispatchSafe` | core/src/sensorkit/common/dag.py:354-367 | a node is dispatched only after each dependency was resolved, each hard one ok or declared `continue` |
| `DagRun.StopHolds` | core/src/sensorkit/common/dag.py:421-431 | after a failure whose policy is `stop`, nothing is dispatched and no override is taken for the rest of the run |
| `DagMeaning.RunInPass` | core/src/sensorkit/common/dag.py:391-413 | during an override pass a waiting node is blocked only by nodes that this pass overrode before, as skipped |
| `DagMeaning.SkipEnds` | core/src/sensorkit/common/dag.py:369-384 | a node is skipped only if the graph and the task outcomes leave nothing else for it, whatever is still open |
| `DagMeaning.OverrideEnds` | core/src/sensorkit/common/dag.py:391-399 | an override is recorded as the graph and the task outcomes say, also when the pass reaches a node right after a rival that blocks it |
| `DagMeaning.RunRight` | core/src/sensorkit/common/dag.py:351-431 | in every uncancelled run each resolved node ends as the graph says, wherever nodes overridden as ok are firm: they wait for no more than a rival and what the rival waits for |
| `DagMeaning.RunMeaning` | core/src/sensorkit/common/dag.py:351-431 | where no overrides collide, and so wherever there are none, each resolved node of every uncancelled run has the plain meaning: skipped iff a hard dependency that spreads failure is not ok, else what its override or dispatch says |
| `DagMeaning.Confluence` | core/src/sensorkit/common/dag.py:510-559 | two complete or partial runs with the same task outcomes agree on the status of every node they both resolve, whatever the completion order, wherever nodes overridden as ok are firm |
| `DagConfluence.FirmConfluent` | core/src/sensorkit/common/dag.py:510-559 | a buildable graph whose nodes overridden as ok are firm is confluent for all outcomes of its tasks |
| `DagConfluence.Race` | core/src/sensorkit/common/dag.py:391-413 | on a graph of two tasks and two colliding overrides, runs in which every task returns end the dependent ok or skipped, as the ends of the tasks come out of one wait or of two |
| `DagConfluence.ApartExactly` | core/src/sensorkit/common/dag.py:391-413 | a condition on single hard edges makes every buildable graph that meets it confluent if and only if it admits no edge whose overrides collide |
| `DagConfluence.OrderingDecides` | core/src/sensorkit/common/dag.py:391-413 | around any two colliding overrides there are two graphs with the same nodes and hard edges, one confluent and one not |
| `DagEarlySkip.TransitiveTieRaces` | core/src/sensorkit/common/dag.py:369-413 | a dependent that waits only for its rival and for what the rival transitively waits for can still race, because a skip resolves a node before what that node waits for |
| `DagRun.RunExplained` | core/src/sensorkit/common/dag.py:369-384 | in every run a skipped node has a blocking hard dependency, of the same override reason if the skip is excused and itself unexcused if not |
| `DagRun.SkipRoot` | core/src/sensorkit/common/dag.py:369-389 | with nonempty reasons each skip traces along blocking hard edges to its root: for an excused skip an override with that very reason, for any other a node that failed or was cancelled |
| `DagRunner.SkipsLeast` | core/src/sensorkit/common/dag.py:386-389 | any order of skip events that leaves nothing blocked has skipped exactly the least set closed under having a blocking hard dependency |
| `DagRunner.RunState.Blockers` | core/src/sensorkit/common/dag.py:354-367 | finds exactly the hard dependencies whose results keep the node from running |
| `DagRunner.RunState.SkipPass` | core/src/sensorkit/common/dag.py:369-384 | skips only blocked nodes, and reports no movement exactly when nothing waiting was blocked |
| `DagRunner.RunState.ResolveSkips` | core/src/sensorkit/common/dag.py:386-389 | the set skipped is the least fixpoint, whatever order the waiting set is visited in; other results are untouched |
| `DagRunner.RunState.OverridePass` | core/src/sensorkit/common/dag.py:391-399 | records overrides of ready nodes only, and reports no movement exactly when no override is left to take |
| `DagRunner.RunState.Settle` | core/src/sensorkit/common/dag.py:401-413 | ends with nothing blocked and, unless the run is stopping, no override left to take, having dispatched nothing |
| `DagRunner.RunState.StartReady` | core/src/sensorkit/common/dag.py:551-559 | leaves no waiting node ready unless the run is stopping |
| `DagRunner.RunState.Record` | core/src/sensorkit/common/dag.py:421-431 | records one ended task and stops the run exactly when it failed under a `stop` policy |
| `DagRunner.RunState.CancelPending` | core/src/sensorkit/common/dag.py:433-436 | every waiting node becomes cancelled, so that all nodes have a result; no earlier result changes |
| `DagRunner.LowestIsReady` | core/src/sensorkit/common/dag.py:513-519 | when nothing is in flight, a waiting node of least rank has all its dependencies resolved |
| `DagRunner.NoDeadlock` | core/src/sensorkit/common/dag.py:513-519 | with nothing in flight and nothing ready, nothing is waiting |
| `DagRunner.Execute` | core/src/sensorkit/common/dag.py:489-549 | for every graph the builder accepts the deadlock error is unreachable; the outcome is an aborted report exactly if a wait was cut short and every cancellation claimed, and one not claimed is passed on; results by then stay, what was in flight is recorded as it ended, whatever waited is cancelled, and without a cancellation or a stop nothing is given up |
| `DagRunner.RunState.Drain` | core/src/sensorkit/common/dag.py:438-471 | every task in flight is recorded as it ended, and a cancellation is declined exactly if the caller is not asked or does not claim it |
| `DagRunner.EndsPlainly` | core/src/sensorkit/common/dag.py:489-549 | a run that nothing cancelled and no failure stopped ends every node with its plain meaning, if no overrides collide |
| `IntervalTrees.ChopMeaning` | core/src/sensorkit/common/interval.py:127-144 | chopping a range empties exactly that range and changes the meaning nowhere else |
| `IntervalTrees.SliceMeaning` | core/src/sensorkit/common/interval.py:147-165 | slicing at a point changes no meaning, leaves nothing straddling it and makes nothing straddle another point |
| `IntervalSweep.MergeInputs` | core/src/sensorkit/common/interval.py:37-44 | merging the tagged inputs loses and repeats no span: the count covering any time is that of the inputs |
| `IntervalSweep.SweepEdges` | core/src/sensorkit/common/interval.py:44-54 | the edge list is in time order, rises and falls exactly once per span, and never falls where nothing is active, even if an input overlaps itself |
| `IntervalSweep.NetIsBalance` | core/src/sensorkit/common/interval.py:62-79 | the running count at a time is the balance of the edges up to it |
| `IntervalSweep.KeysAt` | core/src/sensorkit/common/interval.py:62-79 | between two edges the active tags are exactly those of the inputs covering that time |
| `IntervalSweep.CombineTrees` | core/src/sensorkit/common/interval.py:15-79 | what the sweep adds is disjoint and says of every time exactly which inputs cover it, their tags in input order |
| `IntervalSweep.CoverFull` | core/src/sensorkit/common/interval.py:82-124 | the number of covering spans reaches the number of inputs exactly when all inputs cover |
| `IntervalSweep.DepthAt` | core/src/sensorkit/common/interval.py:113-124 | between edges the depth counter is the number of covering inputs |
| `IntervalSweep.IntersectTrees` | core/src/sensorkit/common/interval.py:82-124 | for one or more disjoint inputs, what is added is disjoint and covers a time exactly when every input does; for none, nothing is added |
| `IntervalStack.Overlay` | core/src/sensorkit/common/interval.py:139-144 | chopping a range and adding an interval there overrides the meaning on exactly that range and keeps the tree disjoint |
| `IntervalStack.StackTrees` | core/src/sensorkit/common/interval.py:127-144 | the stacked tree is disjoint and shows at every time the data of the last input covering it |
| `IntervalStack.StampMeaning` | core/src/sensorkit/common/interval.py:154-165 | once nothing straddles its ends, a stamp merges the data of exactly the times it covers |
| `IntervalStack.StampTrees` | core/src/sensorkit/common/interval.py:147-165 | stamping by disjoint stamps, in any order, merges at each time the one stamp covering it and leaves the rest |
| `Schedule.MergeOverlaps` | core/src/sensorkit/auto/mode.py:34-41 | merging overlaps yields disjoint spans that cover exactly what was covered |
| `Schedule.EvaluateMode` | core/src/sensorkit/auto/mode.py:27-44 | a mode is in force at a time exactly when every criterion evaluates and covers it; a failing or null-yielding criterion disables the mode |
| `Schedule.SortModes` | core/src/sensorkit/auto/mode.py:46-48 | the reversed stable sort puts standby modes before operate modes and keeps the configured order within each |
| `Schedule.RankOffers` | core/src/sensorkit/auto/scheduler.py:113-117 | ranks all enabled offers, and only those, by configured priority, in offered order at a tie |
| `Schedule.RankedPrograms` | core/src/sensorkit/auto/scheduler.py:113-125 | filtering the ranked programs by coverage lists each enabled program with an offer at that time exactly once, in priority order |
| `Schedule.CreateSchedule` | core/src/sensorkit/auto/scheduler.py:166-200 | the schedule is disjoint and at every time is the stacked mode with the combined offers merged in |
| `Schedule.ScheduleAt` | core/src/sensorkit/auto/scheduler.py:166-200 | at any time the schedule holds nothing outside every mode, and else one intent: the last mode in stacking order that holds, with the covering programs |
| `Schedule.Scheduler.Update` | core/src/sensorkit/auto/scheduler.py:78-127 | after an update the schedule means at every time what the modes, offers and priorities mean there, and the offer history is brought up to date; it fails, changing nothing, exactly when an enabled program with an offer is not configured |
| `Schedule.Scheduler.SupportAfterActivity` | core/src/sensorkit/auto/scheduler.py:129-148 | the history keeps what ended within the last hour, of what it held, of the present offers, and of previous offers that vanished while under way, recorded as ended now |
| `Schedule.Scheduler.GetIntent` | core/src/sensorkit/auto/scheduler.py:68-76 | at most one interval covers the time, so the assertion never fires; the intent is absent exactly when no mode holds, names the mode in effect and lists exactly the enabled programs with an offer, in priority order |
| `Schedule.ModeAtSorted` | core/src/sensorkit/auto/scheduler.py:57-58 | stacking the sorted modes puts in effect the last operate mode that holds, or else the last standby mode that holds |
| `Schedule.OperateWins` | core/src/sensorkit/auto/mode.py:46-48 | whenever any operate mode holds, an operate mode is in effect |
| `DailyRange.ParseTimeOfDay` | core/src/sensorkit/common/time.py:62-88 | the first match of a time of day at or after the lower bound, and an out-of-range error exactly when the window is short of one day and holds no match |
| `DailyRange.ParseTimeRange` | core/src/sensorkit/common/time.py:152-187 | never out of range: the end falls within the day after the reference, the start within the day before that end |
| `DailyRange.TwoOccurrences` | core/src/sensorkit/auto/mode.py:92-126 | one occurrence and its repetition a day later hold exactly the instants of the day whose time of day is in the cyclic range |
| `DailyRange.Evaluate` | core/src/sensorkit/auto/mode.py:92-126 | two nonempty intervals in order, which cover an instant of the day from the reference exactly when its time of day is in the cyclic range, all day when start and end coincide |
| `Failure.FailureState.RecordFailure` | core/src/sensorkit/auto/failure.py:112-124 | only the first failure of a procedure counts, expired counts are reset first, and only a count short of recovery sets a retry delay |
| `Failure.FailureState.RecordRecovery` | core/src/sensorkit/auto/failure.py:130-139 | counts the attempt, leaves one failure and delays the retry |
| `Failure.FailureState.RecordFailedEmergency` | core/src/sensorkit/auto/failure.py:150-154 | attempts start over after the cycle delay, failures stay counted |
| `Failure.FailureState.RecordFailedAttempt` | core/src/sensorkit/auto/failure.py:141-148 | counts the attempt, and delays the next only if it is not to be the emergency shutdown |
| `Procedure.StepCalls` | core/src/sensorkit/auto/procedures.py:166-216 | every step keeps released calls definite, and a procedure that finished owning up to nothing has no call or cleanup left open |
| `Procedure.StepSettles` | core/src/sensorkit/auto/procedures.py:292-307 | interruption only rises, and a finished procedure stays as it ended |
| `Procedure.Accountable` | core/src/sensorkit/auto/procedures.py:338-416 | a dispatched controller task is never lost track of, and an interrupted procedure dispatches none |
| `Procedure.CleanupRuns` | core/src/sensorkit/auto/procedures.py:166-207 | a procedure whose logic threw has begun a stop or an abort before it is done, and one whose stop left work behind has begun an abort, unless it was itself cancelled |
| `Procedure.HistoryShows` | core/src/sensorkit/auto/procedures.py:138-157 | over whole runs what was achieved, commanded and recovered, and the faults of logic, tasking and cleanup, are those of what happened, the first where several are possible |
| `Procedure.ErrorOfCalls` | core/src/sensorkit/auto/procedures.py:270-290 | without a fault of tasking or logic a procedure reports the first of its calls that was declined or that failed with no abort asked for, and calls that ended otherwise report nothing |
| `Procedure.UnrecoverableIsEmergency` | core/src/sensorkit/auto/procedures.py:847-897 | only an emergency shutdown ends as unrecoverable |
| `Procedure.LifecycleProcedure.SendTask` | core/src/sensorkit/auto/procedures.py:309-319 | a task is sent exactly when the procedure is uninterrupted and supervision is healthy |
| `Procedure.LifecycleProcedure.DropResolved` | core/src/sensorkit/auto/procedures.py:334-336 | a call stops being tracked only once its outcome is definite |
| `Procedure.LifecycleProcedure.Close` | core/src/sensorkit/auto/procedures.py:166-207 | whatever may still be active at the end leaves the procedure unresolved |
| `Reactor.RunSingleWriter` | core/src/sensorkit/auto/reactor.py:143-167 | in every run each procedure but the current one has finished with all its controller tasks definite |
| `Reactor.StartIsSafe` | core/src/sensorkit/auto/reactor.py:320-323 | a new procedure starts only when every procedure the run started before has finished, and every controller task any of them dispatched was rejected, failed or succeeded |
| `Reactor.EvaluationInterrupts` | core/src/sensorkit/auto/reactor.py:169-205 | an evaluation aborts a running procedure if demand is withdrawn, the reactor disabled or a failure counted, otherwise leaves recovery alone, ends one of changed demand or lost state, and leaves any other as it was |
| `Reactor.NoSendOnceHalted` | core/src/sensorkit/auto/procedures.py:292-319 | once interrupted, a procedure sends no task, and none is sent until another procedure has been started |
| `Reactor.EvaluationRests` | core/src/sensorkit/auto/reactor.py:143-167 | an unhealthy evaluation, and a disabled one with nothing running, end the run; without demand nothing is started |
| `Reactor.EvaluationStartsDemand` | core/src/sensorkit/auto/reactor.py:207-267 | where nothing runs, recovery is started if enough failures count and no delay is left, an emergency shutdown if its attempts are used up, and otherwise what is demanded, unless a delay or a settling task holds it back |
| `Reactor.ConcludeCounts` | core/src/sensorkit/auto/reactor.py:269-318 | the end of a procedure changes counts and deadlines by its kind and error, case by case and in full |
| `Reactor.InterruptionRises` | core/src/sensorkit/auto/reactor.py:143-205 | a running procedure is not replaced and its interruption only rises |
| `Reactor.RunEscalation` | core/src/sensorkit/auto/reactor.py:207-233 | in every run of reactors over one failure history the attempts counted are those concluded since the last reset, and never exceed the configured number |
| `Reactor.Escalates` | core/src/sensorkit/auto/reactor.py:207-233 | emergency shutdown starts only after exactly the configured number of concluded attempts, a recovery only after fewer, and, if the stable period is no shorter than the delay, only after the delay of a failed attempt |
| `Reactor.OneFailurePerProcedure` | core/src/sensorkit/auto/failure.py:112-119 | between two counted failures a procedure was started |
| `Reactor.ControllerReactor.ConcludeProcedure` | core/src/sensorkit/auto/reactor.py:269-318 | concluding updates counts, deadlines and the end of the run by the kind of procedure and its error, case by case |
| `Reactor.ControllerReactor.DispatchDemand` | core/src/sensorkit/auto/reactor.py:207-233 | starts recovery, the demanded procedure or nothing, as the counts, deadlines and a settling execution decide |
| `Reactor.ControllerReactor.EvaluateInput` | core/src/sensorkit/auto/reactor.py:143-167 | one evaluation over the mutable reactor, procedure and failure state is the decision the runs are proved about |
| `RecoveryDelay.PatientWaits` | core/src/sensorkit/auto/failure.py:98-102 | under a patient configuration every run waits out the delay after a failed attempt |
| `RecoveryDelay.ImpatientRecovers` | core/src/sensorkit/auto/failure.py:98-102 | where a positive stable period is shorter than the delay, some run recovers before the delay has passed |
| `RecoveryDelay.WaitsExactly` | core/src/sensorkit/auto/failure.py:141-148 | every run waits out the delay of a failed, non-final attempt if and only if the configuration is patient |
| `TaskCall.Call.SettleOutcome` | core/src/sensorkit/core/executor.py:259-273 | the result of a call is set at most once |
| `TaskCall.Call.Send` | core/src/sensorkit/core/executor.py:172-238 | a call is sent at most once and only with events subscribed; a declined or lost request settles the result at once, and only an accepted execution leaves it open |
| `TaskCall.VerdictDecidesRelease` | core/src/sensorkit/auto/procedures.py:166-207 | a procedure may stop tracking a call exactly when the controller declined it or reported its end, and a call still tracked without that leaves the procedure unresolved |
| `TaskCall.Call.Follow` | core/src/sensorkit/core/executor.py:307-345 | the result says what the controller did with the execution, or that its end is unknown when the event or the follower is lost, and abort requests are sent until one is accepted |
| `Supervised.Refines` | core/src/sensorkit/auto/lifecycle.py:225-242 | a reactor under its supervisor makes a run of the reactor alone, so everything proved of those runs holds of it |
| `Supervised.FirstFailure` | core/src/sensorkit/auto/supervisor.py:384-390 | a report counts a failure exactly if it contradicts the expectation and none has been counted since a procedure was started; it is then the first since an expectation was set, no recovery is running, and a commanded transition has had its grace period |
| `Supervisor.IdsRise` | core/src/sensorkit/auto/supervisor.py:301-316 | under any interleaving of queued updates and fresh reads the processed event id never decreases |
| `Supervisor.OneFailurePerExpectation` | core/src/sensorkit/auto/supervisor.py:384-390 | between two failures a new expectation was set |
| `Supervisor.GracePeriodPassed` | core/src/sensorkit/auto/supervisor.py:353-382 | a commanded transition fails only once the grace period has passed since a mismatch, with no transition report processed and no expectation set in between |
| `Supervisor.UnknownNeverFails` | core/src/sensorkit/auto/supervisor.py:363-364 | under an unknown expectation no report counts as a failure |
| `Supervisor.ControllerStateSupervisor.ProcessState` | core/src/sensorkit/auto/supervisor.py:301-316 | the processed state is replaced only by a newer one, and the latest is compared with the expectation |
| `Supervisor.ControllerStateSupervisor.Compare` | core/src/sensorkit/auto/supervisor.py:353-382 | case by case: fails a settled state that was left and a transition out of grace, starts and keeps the grace period, ends it at a match, and adopts the first settled state without target |
| `Lease.WriteRises` | core/src/sensorkit/backend/fake.py:344-396 | a write happens exactly when the given revision is the latest, and then has the next revision |
| `Lease.RunFenced` | core/src/sensorkit/backend/fake.py:344-427 | in every run revisions rise, the expirer guards the latest revision, and no holder knows a revision the store has not reached |
| `Lease.OneHolder` | core/src/sensorkit/backend/lease.py:44-74 | over every interleaving revisions strictly increase and at most one lease matches the live entry, which names its owner |
| `Lease.DisplacedIsPowerless` | core/src/sensorkit/backend/lease.py:126-157 | a lease that does not match the live entry can neither refresh nor delete it, and its expiry leaves the store as it was |
| `Lease.DisplacedForever` | core/src/sensorkit/backend/lease.py:44-157 | once displaced, no sequence of later steps lets the lease match the entry again |
| `Lease.OwnerRefreshes` | core/src/sensorkit/backend/lease.py:126-138 | the matching holder, with no answer outstanding, does refresh, with one new revision, and still matches |
| `Lease.StaysMatched` | core/src/sensorkit/backend/lease.py:126-157 | the lease that matches goes on matching until it is given up or its time to live runs out, whatever other clients do |
| `Lease.AcquiresFree` | core/src/sensorkit/backend/lease.py:44-74 | an acquisition succeeds exactly when no lease holds the key, and what it writes expires on its own exactly if its time to live is not zero |
| `Lease.KeyIsFreed` | core/src/sensorkit/backend/fake.py:375-377 | the matching holder frees the key by giving the lease up, and the time to live frees it without |
| `Lease.FakeStore.CreateKey` | core/src/sensorkit/backend/fake.py:398-413 | creates over a missing or deleted entry and refuses a live one |
| `Lease.FakeStore.DeleteKey` | core/src/sensorkit/backend/fake.py:425-427 | deletes exactly the revision named |
| `Lease.LeaseClient.GiveUp` | core/src/sensorkit/backend/lease.py:140-157 | an unexpired lease deletes its own revision, and a refused deletion leaves it unexpired |
| `Constraint.RunInv` | core/src/sensorkit/auto/constraint.py:132-241 | the deadline in effect survives every crash and restart: what remains of it is at least what the last clear call or evaluator end requires |
| `Constraint.HoldRespected` | core/src/sensorkit/auto/constraint.py:329-376 | across any chain of evaluators, timeouts and restarts a required constraint is never shown clear before the hold has passed since the first clear call or evaluator end after the last `constrain` |
| `Constraint.NeverAlreadyHolding` | core/src/sensorkit/auto/constraint.py:218-229 | the already-holding error is unreachable from a clear call |
| `Constraint.HoldLength` | core/src/sensorkit/auto/constraint.py:152-229 | clearing an active constraint begins a hold that ends exactly the configured time later, and a restart resumes exactly what was left or not begun |
| `Constraint.ShowsClear` | core/src/sensorkit/auto/constraint.py:198-207 | after a call to clear a ready constraint shows clear exactly when no hold is in effect |
| `Constraint.ClearsInTime` | core/src/sensorkit/auto/constraint.py:209-216 | once cleared and ready, a constraint shows clear as soon as its hold has run out and its task has woken |
| `Constraint.OptionalShowsClear` | core/src/sensorkit/auto/constraint.py:99-113 | a restarted optional constraint shows clear although it carries a hold over |
| `Constraint.HonouredExactly` | core/src/sensorkit/auto/constraint.py:99-113 | every run honours the hold if and only if the constraint is required or holds nothing |
| `Constraint.ConstraintEvaluator.MarkClear` | core/src/sensorkit/auto/constraint.py:152-165 | clearing an active constraint begins its hold and shows it held; clearing fails, changing nothing, exactly when a hold is to start but one is in effect |
| `Constraint.ConstraintEvaluator.EndHold` | core/src/sensorkit/auto/constraint.py:209-216 | an elapsed hold leaves no deadline and no task, and a ready evaluator shows what it intends |
| `Constraint.ConstraintManager.SetState` | core/src/sensorkit/auto/constraint.py:304-327 | one constraint report replaces its entry and keeps both derived sets exact |
| `Constraint.ConstraintManager.ReadyMeansAll` | core/src/sensorkit/auto/constraint.py:304-327 | the ready event is set exactly when every constraint has reported and none is unready |
| `Constraint.ConstraintManager.IsConstrained` | core/src/sensorkit/auto/constraint.py:264-265 | constrained exactly when some constraint has reported anything but clear |
| `Election.TalliesFollow` | core/src/sensorkit/common/graph.py:28-55 | moving one vote in the tally of its subject keeps every tally equal to the number of sources voting each way |
| `Election.StateElection.Vote` | core/src/sensorkit/common/graph.py:28-55 | sets or clears one vote, keeps every other, and keeps all tallies exact |
| `Election.UpheldSteps` | core/src/sensorkit/common/graph.py:57-80 | a subject is upheld exactly when it is not voted down and all it depends on is upheld |
| `Election.StateElection.EvaluateSubject` | core/src/sensorkit/common/graph.py:57-80 | each subject output is right, belongs to the domain and follows its dependencies; only an unvoted root is passed over |
| `Election.StateElection.Evaluate` | core/src/sensorkit/common/graph.py:82-95 | maps exactly the voted subjects of the graph, closed under dependencies of those not voted down, each to whether no downvote lies on it or on anything it depends on, dependencies first |
| `Election.KeysCover` | core/src/sensorkit/common/graph.py:82-95 | whatever the order of the keys, exactly the domain is output, each subject once and after its dependencies unless it is voted down |
| `Election.DownvoteFirst` | core/src/sensorkit/common/graph.py:63-65 | for a downvoted subject with a dependency in the domain there is an order of the keys whose output is not in topological order |
| `Election.OrderedExactly` | core/src/sensorkit/common/graph.py:82-95 | the output is in topological order for every order of the keys if and only if nothing a downvoted subject depends on is in the domain |
| `Election.DependencyLast` | core/src/sensorkit/common/graph.py:57-95 | an election of two subjects that outputs the one voted down before the one it depends on |
| `Election.OrderIndependent` | core/src/sensorkit/common/graph.py:82-95 | the result does not depend on the order of the keys |
| `FileWatch.RunInv` | core/src/sensorkit/common/filewatch.py:209-294 | under every interleaving the watches are exactly those of directories that someone has subscribed to and not withdrawn, with those subscribers and the recursion first asked for, each is scheduled, and whatever is scheduled is live or awaits the reaper |
| `FileWatch.SubscribedIsScheduled` | core/src/sensorkit/common/filewatch.py:209-232 | an accepted subscription not yet withdrawn has its watch scheduled |
| `FileWatch.DrainedIsExact` | core/src/sensorkit/common/filewatch.py:257-294 | once the reaper has caught up, exactly the live watches are scheduled |
| `FileWatch.WatchManager.AddSubscriber` | core/src/sensorkit/common/filewatch.py:209-232 | refuses exactly a recursive subscriber of a watch that is not recursive, and otherwise shares or schedules the watch |
| `FileWatch.WatchManager.RemoveSubscriber` | core/src/sensorkit/common/filewatch.py:234-255 | the last subscriber queues the teardown and the others keep the watch |
| `FileWatch.WatchManager.TearDown` | core/src/sensorkit/common/filewatch.py:275-294 | a watch re-added with the same recursion is spared, any other is torn down |
| `SessionMonitor.ReadMeaning` | core/src/sensorkit/core/program.py:327-361 | for any snapshot older than the buffered events, among them or still to come, the few fields of the monitor hold the progress, the first fault and the ending that the whole stream defines |
| `SessionMonitor.MarkedOwns` | core/src/sensorkit/core/program.py:340-355 | the test against the current session and its last id decides exactly whether the latest tagged report or activation before the event, the snapshot among them, is a tagged report of the session |
| `SessionMonitor.Credited` | core/src/sensorkit/core/program.py:327-361 | before the ending, an untagged report or inactive event is credited to the session exactly when the latest tagged report or activation before it is a tagged report of it, and only a credited report changes the execution state |
| `SessionMonitor.StaleHistory` | core/src/sensorkit/core/program.py:340-355 | untagged history from before a tagged snapshot changes nothing, so it ends no session |
| `SessionMonitor.OutcomeKept` | core/src/sensorkit/core/program.py:327-361 | the first fault and the ending never change once set |
| `SessionMonitor.ProgramTaskingMonitor.Bind` | core/src/sensorkit/core/program.py:227-243 | a bound monitor refuses another session; a fresh one first observes the snapshot |
| `SessionMonitor.ProgramTaskingMonitor.ReadEvents` | core/src/sensorkit/core/program.py:263-278 | returns, in their order, exactly the buffered events that belong to the session where they stand in the stream |

## Left out

- DagMeaning.Confluence: of a single graph whose colliding overrides are not firm it says nothing; there the ids, the ordering edges and the possible ends of other tasks together decide whether a race exists.
- DagRun.SkipRoot: requires nonempty override reasons, because the code tests reasons for truthiness and an empty one leaves its skip unexcused.
- DagRunner.Execute: a results dictionary supplied by the caller, payloads, groups, per-node delays and the texts of a report are not modelled; which tasks a wait finds done is a free choice.
- DagGraph.TopoOrder: node ids are positions in the node list, as the builder assigns them; formatting and reports are not modelled.
- IntervalTrees.IntervalTree: the balanced tree and `heapq` are represented by their abstract contracts, a finite set and an ordered queue; null intervals are refused as the library refuses them.
- Schedule.Scheduler.Update: what the modes' criteria make of the offer history and the previous offers is an input of the modes' evaluation, not derived.
- DailyRange.Evaluate: time-of-day specs on clocks with a fixed offset only; symbols such as sunset, deltas, time zones with daylight saving time and the parsing of spec strings are not modelled.
- Procedure.Accountable: program tasking is reduced to two events, work that may remain active and a tasking fault; its reconciliation, activation and adoption are not modelled.
- Reactor.StartIsSafe: the lifecycle context is one comparable value; the callbacks that publish steps and the wait for wake-ups are not modelled, evaluations may happen at any time.
- Supervised.Refines: a supervisor and the reactor run it is made for begin in one step, and an expectation given up by a failed lifecycle task is an event of its own.
- Reactor.Escalates: the delay is stated there under a stable period no shorter than it; the exact condition is `RecoveryDelay.WaitsExactly`.
- TaskCall.Call.Follow: one request and its end; observation of execution states, cancellation of the result future by a holder and the loop that runs a program's tasks, with its fault retention, are not modelled.
- Supervisor.GracePeriodPassed: connection health and the settled-state queries of other components are not modelled.
- Lease.OneHolder: one lease key with enforcement on; the expiry of a lease by its holder is one atomic step of store and client; unrevisioned writes to the key are not modelled.
- Lease.LeaseClient.GiveUp: the refresh queue of a lease group and its waiters are not modelled.
- Constraint.HoldRespected: details, reasons and the timing of publication are not modelled; a timeout of a constraint task is a restart.
- Election.StateElection.Evaluate: acyclicity is given as a ranking of subjects; on a cyclic graph the recursion need not end.
- FileWatch.RunInv: the observer, emitters and delivery of file events are not modelled, nor is the reset of the manager between runs.
- SessionMonitor.ReadMeaning: a snapshot between two buffered events that is not itself delivered is excluded, since buffering begins before the snapshot is read; waiting and closing are not modelled.
- Message transport, command line, configuration files, deployment code and astronomy are outside this model.
