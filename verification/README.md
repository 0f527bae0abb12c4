# Verified model of the Unified MPC runtime

This project models the stateful core of the repository and proves what it promises, under every
interleaving of its awaits, every crash point and every reply of its collaborators. The collaborators
(tunnel provider, Codex runtime, SQLite repositories, Git, D-Bus, the file system) appear as parameters
whose replies are arbitrary, or as atomic compare-and-swap cells.

Check everything with `dafny verify dfyconfig.toml`.

| files | what they model |
|---|---|
| `Gateway*.dfy` | The tunnel lifecycle: start, stop, health monitor, recovery and reconnect as a step machine with suspended continuations; tunnel ownership; what stop guarantees; the service object |
| `Swarm*.dfy`, `ResultPaging.dfy` | The agent swarm: cycle check, the three-phase tick, cancel, admission leases, progress and termination, generalised from 4 tasks to any number; paging of results |
| `GoalReplay*.dfy`, `GoalCatchUp.dfy` | Goal snapshots caught up by paged replay of a shared, growing and pruned log |
| `GoalLock.dfy` | The promise-chain lock per goal |
| `Admission*.dfy` | Workspace admission receipts and their read-then-swap writers |
| `EventStream.dfy`, `EventPump.dfy`, `SnapshotWorkers.dfy` | The multiplexed server-sent event stream: opening cursor, polling pump, snapshot workers |
| `GuardedRebase.dfy`, `Rebase*.dfy` | The guarded rebase as a durable-receipt protocol with crashes and races |
| `AccessibleTree.dfy`, `ObjectPaths.dfy`, `QuotedStrings.dfy` | The bounded breadth-first AT-SPI collection and its two parsers |
| `Recovery*.dfy` | Recovery Trash: delete, backup and restore, cut after any effect |
| `Pixels.dfy`, `PixelDecoder.dfy` | Decoding X11 images to RGBA |
| `Prelude.dfy` | `Option` and `Result` |

Objects whose methods update fields are classes; each of their methods is proved equal to a function of
the model, and the theorems are about those functions. Code that awaits is cut at its awaits.

## What the code does not keep

The model follows the code. Where an expected property fails, one lemma exhibits a failing run or
input and another says exactly when it fails. Each entry names the two.

- A failing `start` writes ERROR after awaiting its tunnel's stop without looking at the generation again
  (gateway-service.ts:327-331). It can put ERROR under a tunnel promoted meanwhile, which a later start then
  overwrites without stopping it (`PromotedTunnelCanBeLost`, `CoherentRun`), and undo a returned `stop`
  (`StopCanBeUndone`, `StopIsFinalExactlyWhen`).
- A `stop` superseded by a `start` leaves the old lease in place, gateway-service.ts:358-366
  (`LeaseSurvivesSupersededStop`, `StopClearsLeaseExactlyWhen`).
- The verdict of a health probe in flight is charged to whichever tunnel is in service when it arrives,
  gateway-service.ts:435-446. Enough of them stop a tunnel that was never probed (`StaleProbesStopNewTunnel`,
  `MischargedExactlyWhen`).
- A swarm that becomes `termination_unverified` in a tick is terminal, so it is neither ticked nor cancelled
  again; a sibling that was running stays running under its lease (`WorkerCanBeOrphaned`,
  `TickLeavesUnfinishedExactlyWhen`).
- The comment at goal-runtime-control-plane-service.ts:1136-1138 says that a snapshot without newer retained
  events of its goal is still valid. That holds only if none of the goal's own events past the cursor was pruned
  (`RecoveryCanMissAnEvent`, `RecoveryCompleteExactlyWhen`).
- A catch-up from cursor zero looks at no replay window: it folds the goal's retained events and returns the
  result even if earlier ones were pruned (`ZeroCursorCanMissAnEvent`, `ZeroCursorCompleteExactlyWhen`).
- `updatedAt` of a caught-up snapshot is the time of the last record of a page, of whichever goal, and so
  depends on the page size; projection and cursor do not (`UpdatedAtDependsOnPageSize`, `UpdatedAtExactlyWhen`).
- Invalidating an admission receipt keeps its generation, so a writer that read before can replace it by a
  valid successor (`InvalidationCanBeOvertaken`, `RevalidatedExactlyWhen`).
- A record of a goal without a snapshot in its workspace's read can lie at or below the opening cursor of an
  event stream (`UnsnapshottedGoalIsLost`, `LostExactlyWhen`).
- A metadata update restores the whole workspace row it read, so it can take back the base a concurrent
  guarded rebase has just written, and REBASED is still returned (`BaseUpdateCanBeLost`, `RebasedMeans`).
- A page of fewer than four bytes can end early (`PairEndsEarly`, `ReassemblyExactlyWhen`).
- A delete cut between its rename and its last metadata write leaves its content safe but its item refused
  (`MovedButNotReady`, `RestorableExactlyWhenComplete`).
- Capture requests are accepted up to 64,000,000 pixels; decoding refuses more than 2,097,152
  (`AcceptedButTooLarge`, `AcceptedDecodesExactlyWhen`).

## Model

| member | source | states |
|---|---|---|
| GatewayRuns.TunnelCustody | apps/cf-gateway/src/gateway-service.ts:217-375 | In every run from the initial state every tunnel a provider yielded has exactly one owner (promoted, pending slot, bound to a suspended stop, already stopped, or overwritten); stop() is called on it at most once and it is promoted at most once, and only after its own probe returned 2xx |
| GatewayRuns.CoherentExactlyWhen | apps/cf-gateway/src/gateway-service.ts:327-331 | A promoted tunnel goes with a healthy state and its own URL, and is never overwritten, by every event but one: exactly the failure exit that writes ERROR after awaiting a tunnel's stop, under a promoted tunnel, breaks it |
| GatewayRuns.CoherentRun | apps/cf-gateway/src/gateway-service.ts:217-375 | Over whole runs: coherence holds throughout if and only if no such failure exit resumes under a promoted tunnel, and then no promoted tunnel is overwritten |
| GatewayRuns.PromotedTunnelCanBeLost | apps/cf-gateway/src/gateway-service.ts:327-331 | There is a run in which a promoted tunnel is overwritten without ever being stopped |
| GatewayStop.StopWins | apps/cf-gateway/src/gateway-service.ts:339-375 | If stop is the last lifecycle call then, whatever timers, probes, recoveries and stale starts do, once it has returned there is no URL, lease, promoted or pending tunnel, and the state is STOPPED unless a failed start was still stopping its tunnel; when no start or stop is left every tunnel was stopped |
| GatewayStop.StopIsFinalExactlyWhen | apps/cf-gateway/src/gateway-service.ts:327-331 | After a returned stop STOPPED survives every run without a lifecycle call if and only if no failed start is still awaiting the stop of its tunnel |
| GatewayStop.StopCanBeUndone | apps/cf-gateway/src/gateway-service.ts:327-331 | A state is reachable in which a returned stop can still be undone that way |
| GatewayStop.StoppingStep | apps/cf-gateway/src/gateway-service.ts:228-336 | After a stop has begun no event but a lifecycle call promotes a tunnel, starts a new failure, or takes a returned stop out of STOPPED, save the failure exit |
| GatewayCaveats.StopClearsLeaseExactlyWhen | apps/cf-gateway/src/gateway-service.ts:358-367 | The last step of a stop clears the session lease exactly when no newer call has drawn a generation |
| GatewayCaveats.LeaseSurvivesSupersededStop | apps/cf-gateway/src/gateway-service.ts:358-366 | From every connected state, stop followed by start before the stop returned leaves the old lease held while INITIALIZING |
| GatewayMonitor.MischargedExactlyWhen | apps/cf-gateway/src/gateway-service.ts:426-465 | In every run a health probe's failing verdict is charged to a tunnel other than the one it was sent to if and only if the bridge is in service and the probed tunnel has been given up (stopped, bound to be stopped, or overwritten); that other tunnel is stopped if and only if the failure count then reaches the threshold; a 2xx verdict clears another tunnel's failures under the same condition |
| GatewayMonitor.StaleProbesStopNewTunnel | apps/cf-gateway/src/gateway-service.ts:435-446 | For every threshold and from every watched state there is a run of as many stops and starts, each leaving a probe in flight, after which the verdicts of those probes stop the last tunnel, to which none of them was sent |
| GatewayMonitor.TrackedRun | apps/cf-gateway/src/gateway-service.ts:419-441 | In every run a healthy bridge that is meant to run has a promoted tunnel whose URL is the one probed, and every probe in flight was sent to a tunnel that had been promoted |
| GatewayOwnership.SoundStep | apps/cf-gateway/src/gateway-service.ts:217-375 | Every event keeps the ownership invariant: generations, pending records, the partition of tunnels among owners, at-most-once stops and promotions |
| GatewayOwnership.SoundPromote | apps/cf-gateway/src/gateway-service.ts:306-318 | Promotion moves a probed tunnel out of its pending record into the promoted slot and keeps the ownership invariant |
| GatewayOwnership.SoundBeginStop | apps/cf-gateway/src/gateway-service.ts:339-357 | A stop keeps the ownership invariant: each tunnel it finds is stopped or bound to be stopped |
| GatewayOwnership.SoundOpenAfterStale | apps/cf-gateway/src/gateway-service.ts:228-256 | A start that takes over from a pending start stops the tunnel it took exactly once |
| GatewayProbe.ProbeWithRetry | apps/cf-gateway/src/gateway-service.ts:592-656 | The readiness loop returns 2xx exactly when some attempt answered 2xx and all before it were refused and went on; it reports supersession exactly when some attempt met it; any other status is an attempt's answer or 0 |
| GatewayObject.GatewayService.StartFrom | apps/cf-gateway/src/gateway-service.ts:217-256 | The object takes exactly the step machine's transition: start up to its first await takes the machine's start transition: healthy shortcut, take-over of a predecessor, new pending record |
| GatewayObject.GatewayService.AfterStaleStop | apps/cf-gateway/src/gateway-service.ts:237-256 | The object takes exactly the step machine's transition: start after its predecessor's tunnel was stopped: superseded exit or new pending record |
| GatewayObject.GatewayService.AfterProvider | apps/cf-gateway/src/gateway-service.ts:276-293 | The object takes exactly the step machine's transition: start after the provider's tunnel: superseded stop, invalid URL, or probe |
| GatewayObject.GatewayService.AfterProbe | apps/cf-gateway/src/gateway-service.ts:295-330 | The object takes exactly the step machine's transition: start after its probe: superseded stop, promotion, or failure stop |
| GatewayObject.GatewayService.AfterFailStop | apps/cf-gateway/src/gateway-service.ts:327-333 | The object takes exactly the step machine's transition: the failure exit after the stop: ERROR, without another look at the generation |
| GatewayObject.GatewayService.StopService | apps/cf-gateway/src/gateway-service.ts:339-375 | The object takes exactly the step machine's transition: stop up to its first await: cancels, detaches and stops what it finds |
| GatewayObject.GatewayService.AfterStop | apps/cf-gateway/src/gateway-service.ts:356-375 | The object takes exactly the step machine's transition: stop after an await: the next tunnel, the superseded exit, or the final cleanup |
| GatewayObject.GatewayService.ConnectSession | apps/cf-gateway/src/gateway-service.ts:377-398 | The object takes exactly the step machine's transition: connecting a session leases only a healthy bridge and arms the lease timer |
| GatewayObject.GatewayService.DisconnectSession | apps/cf-gateway/src/gateway-service.ts:408-417 | The object takes exactly the step machine's transition: disconnecting clears the lease and falls back to BRIDGE_HEALTHY or STOPPED |
| GatewayObject.GatewayService.AfterHealthProbe | apps/cf-gateway/src/gateway-service.ts:435-446 | The object takes exactly the step machine's transition: the monitor after its probe: reset, count a failure, or begin recovery |
| GatewayObject.GatewayService.Recover | apps/cf-gateway/src/gateway-service.ts:449-465 | The object takes exactly the step machine's transition: recovery drops lease, URL and tunnel, writes ERROR and stops the tunnel before it reconnects |
| GatewayObject.GatewayService.AttemptReconnect | apps/cf-gateway/src/gateway-service.ts:474-483 | The object takes exactly the step machine's transition: the reconnect timer starts the bridge if it is still desired |
| SwarmGraph.CycleSearch.Visit | packages/application/src/agent-swarm-service.ts:479-487 | One recursive visit: true means the graph has a cycle; false means the id and everything below it is visited, the grey set is as before, and the visited ids extend a topological order; it ends because fewer ids are left unentered |
| SwarmGraph.HasCycle | packages/application/src/agent-swarm-service.ts:475-489 | True exactly when the dependency graph has a cycle, for any task list (unknown ids, duplicates and self-dependencies included); false comes with a topological order of all tasks |
| SwarmGraph.ValidateStart | packages/application/src/agent-swarm-service.ts:456-473 | Accepts exactly the requests that satisfy all published conditions, acyclicity included; the permission and cycle refusals are given exactly when due |
| SwarmTheorems.DependencySafety | packages/application/src/agent-swarm-service.ts:310-318 | A task is queued, launched or completed only after all its direct and transitive dependencies completed |
| SwarmTheorems.NeverLaunched | packages/application/src/agent-swarm-service.ts:310-370 | Once a direct or transitive dependency failed, was cancelled or is unverified, no run queues or launches the task |
| SwarmTheorems.Reachable | packages/application/src/agent-swarm-service.ts:283-389 | Reachable states satisfy the invariant, and a swarm of N tasks sees at most 3N task-row updates over its whole life |
| SwarmTheorems.EveryIteration | packages/application/src/agent-swarm-service.ts:283-379 | After every iteration of every loop inside a tick or cancel the invariant holds and at most maxConcurrency tasks are running |
| SwarmTheorems.LeaseConservation | packages/application/src/agent-swarm-service.ts:391-447 | The controller reserves exactly cost times the held leases; running or possibly running workers hold one; an unheld lease has no unreleased durable binding; unless a durable release failed, no other task holds one |
| SwarmTheorems.LeaseDrops | packages/application/src/agent-swarm-service.ts:431-442 | A lease leaves the live map only with its task finished, its controller entry gone and its durable binding released |
| SwarmSafety.StepSound | packages/application/src/agent-swarm-service.ts:283-379 | Every iteration keeps the invariant, and each row update pays for itself with a strictly lower rank (blocked 3, queued 2, running 1, terminal 0) |
| SwarmSafety.PollSteps | packages/application/src/agent-swarm-service.ts:286-307 | Polling a running task moves it to completed, failed or unverified only, and settles its lease accordingly |
| SwarmSafety.ResolveSteps | packages/application/src/agent-swarm-service.ts:310-318 | Resolving a blocked task, judged on the rows read at the start of the phase, fails it or queues it only when its dependencies completed |
| SwarmSafety.LaunchSteps | packages/application/src/agent-swarm-service.ts:320-377 | A launch attempt keeps cap, dependency and lease invariants under every reply of the admission, run, persist and stop ports |
| SwarmSafety.CancelSteps | packages/application/src/agent-swarm-service.ts:216-230 | Cancelling a task ends it as cancelled or unverified with the matching lease state |
| SwarmSafety.LoopSound | packages/application/src/agent-swarm-service.ts:283-379 | After any number of iterations of any loop the invariant holds, no row rose in rank, and rows not yet visited are as they were read |
| SwarmRuns.CancelGood | packages/application/src/agent-swarm-service.ts:204-237 | A cancel of a live swarm leaves every task terminal; the swarm is termination_unverified exactly when some task is, and cancelled otherwise |
| SwarmRuns.TickGood | packages/application/src/agent-swarm-service.ts:283-379 | A tick keeps the invariant and stores a swarm state that is true of the rows |
| SwarmRuns.RunGood | packages/application/src/agent-swarm-service.ts:268-379 | Through every run of ticks and cancels terminal rows never change and no row rises in rank |
| SwarmProgress.StartableIsValidated | packages/application/src/agent-swarm-service.ts:456-489 | Every accepted request satisfies what the progress theorems assume, with the order the cycle search produced |
| SwarmProgress.Progress | packages/application/src/agent-swarm-service.ts:310-389 | No deadlock: while the swarm is not terminal some task is running, queued, or blocked with its dependencies settled |
| SwarmProgress.TickProgress | packages/application/src/agent-swarm-service.ts:283-379 | A tick of a swarm that is not terminal updates a row unless a worker is still alive or unavailable, capacity is refused, or the signal is aborted |
| SwarmProgress.Terminates | packages/application/src/agent-swarm-service.ts:268-389 | When workers end and capacity is granted, a swarm of N tasks is terminal after at most 3N ticks |
| SwarmOutcome.TickReaches | packages/application/src/agent-swarm-service.ts:283-389 | Each task's state after a tick, told from the rows and the ports' replies before it: polls first, then dependencies judged on the polled states, then launches in order while there is room and the signal is not aborted |
| SwarmOutcome.TickLeavesUnfinishedExactlyWhen | packages/application/src/agent-swarm-service.ts:283-389 | A tick ends the swarm while a task is unfinished if and only if, told from the rows and replies before it, one task ends unverified (its handle or prompt is lost, or its worker was neither recorded nor stopped) and one runs on, waits or has just been launched |
| SwarmOutcome.RunLeavesUnfinishedExactlyWhen | packages/application/src/agent-swarm-service.ts:216-389 | Over whole runs of ticks and cancels: the swarm ends terminal with an unfinished task if and only if that happened in one of its ticks |
| SwarmOutcome.LeavesUnfinishedExactlyWhen | packages/application/src/agent-swarm-service.ts:379-389 | A swarm outside a tick is terminal with an unfinished task if and only if it has an unverified task and a task that is not terminal |
| SwarmOrphans.OrphanedForever | packages/application/src/agent-swarm-service.ts:214-214 | A worker left running by a terminal swarm stays so, lease included, through every later tick and cancel |
| SwarmOrphans.WorkerCanBeOrphaned | packages/application/src/agent-swarm-service.ts:268-300 | Such a worker occurs in a reachable state: its sibling's handle was lost |
| SwarmObject.HeldRest | packages/application/src/agent-swarm-service.ts:322-323 | Leaving the launch loop at a held task is the same as visiting and skipping the rest |
| SwarmObject.SwarmService.RunTick | packages/application/src/agent-swarm-service.ts:283-379 | The object computes exactly the model's function: a tick, with its three loops over rows read once each |
| SwarmObject.SwarmService.PollRunning | packages/application/src/agent-swarm-service.ts:286-307 | The object computes exactly the model's function: the polling loop |
| SwarmObject.SwarmService.ResolveBlocked | packages/application/src/agent-swarm-service.ts:309-318 | The object computes exactly the model's function: the dependency loop, with its set of failed ids |
| SwarmObject.SwarmService.LaunchQueued | packages/application/src/agent-swarm-service.ts:320-377 | The object computes exactly the model's function: the launch loop, with its local count of running workers and its early exit |
| SwarmObject.SwarmService.RunCancel | packages/application/src/agent-swarm-service.ts:204-237 | The object computes exactly the model's function: cancel, past its authorization |
| SwarmObject.SwarmService.RefreshSwarmState | packages/application/src/agent-swarm-service.ts:381-389 | The object computes exactly the model's function: the swarm state derived from the rows |
| SwarmObject.SwarmService.ReleaseTaskAdmission | packages/application/src/agent-swarm-service.ts:431-442 | The object computes exactly the model's function: durable release, then controller release, then the lease |
| SwarmObject.SwarmService.RetainTaskAdmissionAsUnverified | packages/application/src/agent-swarm-service.ts:420-429 | The object computes exactly the model's function: the binding marked unverified, the lease kept |
| SwarmObject.SwarmService.PersistTaskAdmission | packages/application/src/agent-swarm-service.ts:391-418 | The object computes exactly the model's function: the durable binding of a launched worker |
| ResultPaging.Utf8Page | packages/application/src/agent-swarm-service.ts:584-596 | The loop over code points returns the page the budget pays for |
| ResultPaging.PageIsGreatest | packages/application/src/agent-swarm-service.ts:584-596 | A page is a piece of the text within the byte limit, ends inside no surrogate pair, is as long as the limit allows, and its next offset lies behind it and inside the text |
| ResultPaging.ReassemblyExactlyWhen | packages/application/src/agent-swarm-service.ts:239-257 | Following nextOffset gives back the rest of the text if and only if every code point fits a page |
| ResultPaging.Reassembly | packages/application/src/agent-swarm-service.ts:239-257 | With at least four bytes a page, following the cursor from 0 gives back exactly the stored text |
| ResultPaging.PairEndsEarly | packages/application/src/agent-swarm-service.ts:594-594 | With three bytes a leading surrogate pair is reported as the end |
| GoalReplay.FoldsChain | packages/application/src/goal-runtime-control-plane-service.ts:1084-1124 | Catching up to any stored snapshot and on from there is one fold |
| GoalReplay.NoneBeyondCursor | packages/application/src/goal-runtime-control-plane-service.ts:1100-1121 | Between a caught-up snapshot's cursor and the place it was read to lies no event of its goal |
| GoalCatchUp.ControlPlane.CatchUp | packages/application/src/goal-runtime-control-plane-service.ts:1045-1125 | Unless unseen events were pruned, the result is one fold of the projector over the goal's events after the cursor, at least as far as the log reached at the call, whatever the page size, interleaving and concurrent appends; every stored snapshot is such a fold; the loop ends; it fails only if that fold is rejected (or, from cursor zero, at pageSize own events). From cursor zero it is in every case the fold of the goal's retained events; past a missed window in every case what recovery makes of a fold so far; and updatedAt is the time of the last record of the page that holds the goal's last one |
| GoalCatchUp.ControlPlane.ReplayPages | packages/application/src/goal-runtime-control-plane-service.ts:1081-1124 | The page loop: the same, stored snapshots and updatedAt included, and recovery after a missed window |
| GoalCatchUp.ControlPlane.ReplayOwn | packages/application/src/goal-runtime-control-plane-service.ts:1051-1079 | The zero-cursor path: exactly the fold of the goal's retained events, refused exactly from pageSize of them on |
| GoalCatchUp.ControlPlane.TakePage | packages/application/src/goal-runtime-control-plane-service.ts:1098-1120 | A page moves the snapshot exactly if it holds records of the goal, and stamps it with the time of the page's last record |
| GoalCatchUp.ControlPlane.FoldPage | packages/application/src/goal-runtime-control-plane-service.ts:1099-1112 | A page advances the fold by exactly its records of the goal, or the whole fold is rejected |
| GoalCatchUp.ControlPlane.RecoverAfterReplayWindowMiss | packages/application/src/goal-runtime-control-plane-service.ts:1127-1166 | Recovery returns the snapshot itself, or rebuilds it from the durable goal and the retained tail, passing over rejected events |
| GoalCatchUp.ControlPlane.AppendAndReplay | packages/application/src/goal-runtime-control-plane-service.ts:1021-1043 | A rejected preview appends nothing; otherwise the returned snapshot has folded the event in |
| GoalCatchUp.PageIsNext | packages/storage/src/goal-runtime-event-repository.ts:306-346 | A page whose window was not missed is the next stretch of the log |
| GoalReplayTheorems.ReplayIsDeterministic | packages/application/src/goal-runtime-control-plane-service.ts:1045-1125 | Two catch-ups that cover the same events of the goal agree in projection and cursor: page size and path do not matter |
| GoalReplayTheorems.CursorIsLargest | packages/application/src/goal-runtime-control-plane-service.ts:1100-1121 | The cursor of a caught-up snapshot is the largest sequence among the covered events |
| GoalReplayTheorems.RecoveryCompleteExactlyWhen | packages/application/src/goal-runtime-control-plane-service.ts:1130-1139 | When recovery keeps the snapshot, that is the complete fold if and only if no event of the goal past the cursor was pruned |
| GoalReplayTheorems.RecoveryCanMissAnEvent | packages/application/src/goal-runtime-control-plane-service.ts:1136-1139 | It is not always: a pruned event of the goal itself can be missed for good |
| GoalReplayTheorems.ZeroCursorCompleteExactlyWhen | packages/application/src/goal-runtime-control-plane-service.ts:1048-1083 | A snapshot the zero-cursor path returns is the fold of all the goal's records if and only if none of them was pruned, or the pruned ones fold to a projection from which the retained ones, if any, lead to the same result |
| GoalReplayTheorems.ZeroCursorCanMissAnEvent | packages/application/src/goal-runtime-control-plane-service.ts:1048-1083 | The other case occurs: the path looks at no replay window, and returns the old snapshot although a record of the goal was pruned |
| GoalReplayTheorems.UpdatedAtExactlyWhen | packages/application/src/goal-runtime-control-plane-service.ts:1114-1122 | updatedAt of a paged catch-up is the same for every page size if and only if all covered records from the goal's last one on were recorded at the same time |
| GoalReplayTheorems.UpdatedAtDependsOnPageSize | packages/application/src/goal-runtime-control-plane-service.ts:1114-1122 | One log, one cursor and two page sizes with different updatedAt |
| GoalLock.MutualExclusion | packages/application/src/goal-runtime-control-plane-service.ts:1168-1182 | In every interleaving at most one operation of a goal runs, and its calls run in order of arrival |
| GoalLock.ChainsAreTheBusyGoals | packages/application/src/goal-runtime-control-plane-service.ts:1168-1182 | The chain map holds exactly the goals with an unfinished call, so it is empty when idle |
| GoalLock.NeverStuck | packages/application/src/goal-runtime-control-plane-service.ts:1168-1182 | The first unfinished call of a goal runs or may begin |
| GoalLock.BeginExactlyWhen | packages/application/src/goal-runtime-control-plane-service.ts:1172-1175 | A call may begin if and only if every earlier call of its goal has finished |
| GoalLock.GoalChains.EnterLock | packages/application/src/goal-runtime-control-plane-service.ts:1168-1175 | Arrival: remembers the chain it found and publishes its own |
| GoalLock.GoalChains.LeaveLock | packages/application/src/goal-runtime-control-plane-service.ts:1178-1181 | The finally block: releases the gate and removes the chain if it is still its own |
| AdmissionChain.OneChain | packages/application/src/goal-runtime-control-plane-service.ts:122-791 | After any interleaving of the admission writers the stored receipts are generations 1, 2, 3, ..., one winner each, and kind, project, goal, checkpoint, repository, worktree, branch and base never change along them |
| AdmissionChain.NoSupersededGeneration | packages/application/src/goal-runtime-control-plane-service.ts:345-371 | A validation accepts no generation below the one current when it read: only the one it read, or the one it stored itself |
| AdmissionChain.WinnerIsCurrent | packages/storage/src/workspace-repository.ts:103-155 | A swap succeeds only for a writer that had read the receipt stored last |
| AdmissionChain.DecisionsBuildOnReads | packages/application/src/goal-runtime-control-plane-service.ts:122-791 | Every writer's decision swaps only the successor of the receipt it read, with the same place and source, and answers ADMITTED only for a valid one |
| AdmissionInvalidation.RevalidatedExactlyWhen | packages/storage/src/workspace-repository.ts:103-200 | In every reachable store: some run makes an invalidated cell valid again if and only if a process holds a copy of its receipt from before the invalidation and its operation fits it (a classification, or a binding with that receipt's goal, generation, lease and, for a recovery, head and changed fingerprint) |
| AdmissionInvalidation.ProvenRun | packages/application/src/goal-runtime-control-plane-service.ts:122-791 | Every stored receipt of every run names a goal and a project, has a lease, agreeing heads and, by its kind, the complete Git source or the snapshot it was captured from |
| AdmissionInvalidation.SwapsNeedFit | packages/application/src/goal-runtime-control-plane-service.ts:122-332 | A writer decides to swap only if its operation fits the receipt it read, whatever it observes |
| AdmissionInvalidation.FitsSwaps | packages/application/src/goal-runtime-control-plane-service.ts:122-791 | For every valid stored receipt and every operation that fits it there is an observation under which the writer swaps |
| AdmissionInvalidation.InvalidationCanBeOvertaken | packages/storage/src/workspace-repository.ts:157-200 | That happens in a reachable state: invalidation does not change the generation |
| AdmissionInvalidation.StaysInvalid | packages/storage/src/workspace-repository.ts:157-200 | With no copy outstanding that its operation fits, an invalidated cell stays as it is through every run |
| Admission.ReceiptCell.CompareAndSwap | packages/storage/src/workspace-repository.ts:103-155 | Saved exactly under the published conditions; the cell is then the new receipt, and otherwise unchanged |
| Admission.ReceiptCell.Invalidate | packages/storage/src/workspace-repository.ts:157-200 | Invalidates exactly the expected generation and keeps everything else |
| EventStream.NoLoss | apps/web/src/web-server.ts:1643-1659 | Every retained record whose goal has a snapshot in its workspace's read (or that read failed or is empty), and every later record, is covered by a sent snapshot or lies above the opening cursor |
| EventStream.LostExactlyWhen | apps/web/src/web-server.ts:1643-1659 | A retained record is neither covered by a sent snapshot nor above the opening cursor if and only if its workspace's read succeeded with snapshots but none of its goal, and no lagging workspace holds the cursor below it |
| EventStream.UnsnapshottedGoalIsLost | apps/web/src/web-server.ts:2430-2447 | The loss occurs: without a snapshot of its goal a retained record can lie below the cursor |
| EventStream.MultiplexedSnapshotCursor | apps/web/src/web-server.ts:1643-1659 | The cursor loop computes the fold of lowered workspace cursors |
| EventStream.CursorIsLow | apps/web/src/web-server.ts:1643-1659 | The cursor is at most that of every workspace that is not caught up |
| EventStream.BoundsBound | packages/storage/src/goal-runtime-event-repository.ts:363-392 | A retained record lies within its workspace's bounds and below the latest of all |
| EventPump.ExactlyOnce | apps/web/src/web-server.ts:1786-1844 | Over any number of pumps whose windows are not missed the events sent are one contiguous stretch of the log from the cursor on: each record once, in increasing sequence, none left out |
| EventPump.AllSent | apps/web/src/web-server.ts:1831-1832 | Enough pumps send every record the views show |
| EventPump.EveryRecordReachesTheClient | apps/web/src/web-server.ts:1700-1844 | Opening and pump together: a record of a snapshotted goal reaches the client in a snapshot or as an event once the pumps have passed it |
| EventPump.NotMissedMeansRetained | packages/storage/src/goal-runtime-event-repository.ts:393-394 | If no window is missed, nothing past the cursor was pruned in any workspace |
| EventPump.Stream.Open | apps/web/src/web-server.ts:1700-1752 | Opening: it resumes from the requested cursor with a page of events exactly when that cursor was given, its window is retained and it is not ahead of a non-empty log; otherwise it sends every workspace's snapshot or error at their common cursor |
| EventPump.Stream.Pump | apps/web/src/web-server.ts:1786-1837 | One pump: resnapshot when ahead, snapshots of missed workspaces, then the page; says whether more is waiting |
| EventPump.Stream.PumpAll | apps/web/src/web-server.ts:1786-1844 | Scheduled pumps write exactly the contiguous stretch of events |
| SnapshotWorkers.AllFilledOnce | apps/web/src/web-server.ts:1607-1641 | When all workers have returned, every workspace has its one result |
| SnapshotWorkers.RunSound | apps/web/src/web-server.ts:1616-1639 | In every interleaving an index is claimed by one worker and no filled result is overwritten |
| RebaseTheorems.GitRunsFenced | packages/application/src/goal-workspace-service.ts:713-776 | Git runs only for a caller whose own started receipt is the latest, and for one caller at a time |
| RebaseTheorems.RevisionsIncreaseOverRuns | packages/storage/src/workspace-repository.ts:222-310 | Receipt revisions never decrease, and an unchanged revision means an unchanged receipt |
| RebaseTheorems.BlockedForever | packages/application/src/goal-workspace-service.ts:713-719 | A latest started receipt without its caller, or recovery_required, blocks every later attempt through every run |
| RebaseTheorems.NoUnsafeCrashPoint | packages/application/src/goal-workspace-service.ts:769-943 | At no point is a head moved under a still valid admission unless the latest receipt is that operation's and unfinished; a completed receipt means its admission is invalidated or replaced |
| RebaseTheorems.RebasedMeans | packages/application/src/goal-workspace-service.ts:898-943 | REBASED means the completed receipt stored over the caller's own started one, its admission generation current and invalidated; and the base is the new base if and only if no metadata update restored a row since it was written, or the last one restored a row with the new base |
| RebaseTheorems.BaseUpdateCanBeLost | packages/application/src/goal-workspace-service.ts:993-1021 | A concurrent metadata update that read the row before can write the old base back, and REBASED is still returned |
| RebaseSafety.StepSound | packages/application/src/goal-workspace-service.ts:607-943 | Every step of every caller, crash, and environment change keeps the protocol's invariant |
| RebaseObject.GoalWorkspaceService.CompareAndSwapBaseRebaseReceipt | packages/storage/src/workspace-repository.ts:222-310 | The object takes exactly the protocol's step: the receipt is swapped exactly when revision, lease, admission generation and operation all match, and nothing else changes |
| RebaseObject.GoalWorkspaceService.InvalidateAdmissionReceipt | packages/storage/src/workspace-repository.ts:157-203 | The object takes exactly the protocol's step: the admission is invalidated exactly when its generation is still the expected one |
| RebaseObject.GoalWorkspaceService.FindWorkspace | packages/application/src/goal-workspace-service.ts:614-625 | The object takes exactly the protocol's step: refused unless the caller holds the row's unexpired lease |
| RebaseObject.GoalWorkspaceService.ReadAdmission | packages/application/src/goal-workspace-service.ts:639-665 | The object takes exactly the protocol's step: refused unless the valid admission matches the request, its lease, checkpoint and base |
| RebaseObject.GoalWorkspaceService.Decide | packages/application/src/goal-workspace-service.ts:667-711 | The object takes exactly the protocol's step: goes on only with unchanged head and content and a moved, descendant base of an unpublished branch |
| RebaseObject.GoalWorkspaceService.ReadRebaseReceipt | packages/application/src/goal-workspace-service.ts:713-720 | The object takes exactly the protocol's step: an unfinished or recovery receipt ends the call |
| RebaseObject.GoalWorkspaceService.StoreStarted | packages/application/src/goal-workspace-service.ts:725-763 | The object takes exactly the protocol's step: the started receipt is swapped in, or the call has been raced |
| RebaseObject.GoalWorkspaceService.RunGit | packages/application/src/goal-workspace-service.ts:765-800 | The object takes exactly the protocol's step: Git's three outcomes, and which of them leave the admission to be fenced |
| RebaseObject.GoalWorkspaceService.FenceAdmission | packages/application/src/goal-workspace-service.ts:773-802 | The object takes exactly the protocol's step: the admission is invalidated before the recovery receipt |
| RebaseObject.GoalWorkspaceService.StoreRecovery | packages/application/src/goal-workspace-service.ts:777-830 | The object takes exactly the protocol's step: the recovery receipt, and CONFLICT when either write was refused |
| RebaseObject.GoalWorkspaceService.InvalidateAdmission | packages/application/src/goal-workspace-service.ts:833-861 | The object takes exactly the protocol's step: a moved head invalidates its admission, or needs recovery |
| RebaseObject.GoalWorkspaceService.FindWorkspaceAgain | packages/application/src/goal-workspace-service.ts:993-1013 | The object takes exactly the protocol's step: the metadata update re-reads the row and checks the lease |
| RebaseObject.GoalWorkspaceService.RestoreWithNewBase | packages/application/src/goal-workspace-service.ts:1014-1020 | The object takes exactly the protocol's step: the row as it was read is written back whole with the new base |
| RebaseObject.GoalWorkspaceService.StoreCompleted | packages/application/src/goal-workspace-service.ts:895-943 | The object takes exactly the protocol's step: the completed receipt decides between REBASED and a raced completion |
| AccessibleTree.CollectAccessibles | native/linux-host/src/atspi.rs:176-216 | Records are distinct non-root paths in rising depth, each reached by a walk of its depth; if no cap fired they are exactly the paths within maxDepth, each at its shortest distance; a cap fires only with maxItems records or more than twice maxItems child links; it ends, and fails only on a failed query within the bound |
| AccessibleTree.ExactAtEnd | native/linux-host/src/atspi.rs:176-216 | An emptied queue means exactly the non-root paths within the bound, at shortest distances |
| AccessibleTree.VisitFront | native/linux-host/src/atspi.rs:182-199 | Visiting the front entry keeps the layering of the queue and the record order |
| AccessibleTree.QueueChildren | native/linux-host/src/atspi.rs:205-212 | Queueing children keeps the invariant, and completeness if none was dropped |
| ObjectPaths.RoundTrip | native/linux-host/src/atspi.rs:384-431 | Up to 256 distinct valid paths, written with delimiters and parsed, come back as the same list |
| ObjectPaths.QuotedRoundTrip | native/linux-host/src/atspi.rs:384-431 | The same for the quoted reply form |
| ObjectPaths.ParseSound | native/linux-host/src/atspi.rs:384-431 | On any input the results are at most 256 distinct valid paths, each standing delimited in the input |
| ObjectPaths.ReadObjectPaths | native/linux-host/src/atspi.rs:384-431 | The cursor loop computes the parse |
| ObjectPaths.ValidExactlyWhen | native/linux-host/src/atspi.rs:433-446 | A path is valid exactly when it is the root, or words joined by single slashes after a leading one, within 512 bytes |
| QuotedStrings.ReadFirstQuoted | native/linux-host/src/atspi.rs:353-382 | The flag loop computes the first quoted string |
| QuotedStrings.RoundTrip | native/linux-host/src/atspi.rs:353-382 | For every string and either quote, printing with backslash escapes and reading gives back the string, whatever text follows |
| QuotedStrings.ReadExactlyWhen | native/linux-host/src/atspi.rs:353-382 | A string is read exactly when the text holds a delimited one, and then it is the decoded text between the first quote and its first bare match |
| RecoveryTheorems.NothingLost | packages/application/src/file-service.ts:726-857 | Through any sequence of deletes, external replacements and restores, each cut after any effect, every complete content stays complete at a path or in Recovery Trash |
| RecoveryTheorems.DeleteThenRestore | packages/application/src/file-service.ts:726-857 | A completed delete, restored, gives back the whole disk, by rename or by copy, in either direction |
| RecoveryTheorems.RollbackUndoes | packages/application/src/file-service.ts:826-842 | Restoring the returned rollback gives back the files of before the restore, and the rollback of that redoes it |
| RecoveryTheorems.RestorableExactlyWhenComplete | packages/application/src/file-service.ts:735-750 | The item of a cut delete can be restored if and only if every effect of the delete took place |
| RecoveryTheorems.MovedButNotReady | packages/application/src/file-service.ts:807-809 | Cut between the move and the last metadata write the file is gone from its path and its item is refused as not ready |
| RecoveryTrash.MoveSaves | packages/application/src/file-service.ts:726-754 | At every point of a delete the file is at its path or complete in its item, and nothing else changes |
| RecoveryTrash.CopySaves | packages/application/src/file-service.ts:756-777 | A backup changes no file, and ends holding the file's content |
| RecoveryTrash.ExternalSaves | packages/application/src/file-service.ts:627-646 | At every point of a prepared external replacement the replaced file is at its path or complete in its backup |
| RecoveryTrash.RestoreKeepsAll | packages/application/src/file-service.ts:779-857 | At every point of a restore no complete content is lost |
| RecoveryTrash.ReplaceReturns | packages/application/src/file-service.ts:826-842 | At every point of a replacing restore the payload is in its item or at its path, and the replaced file at its path or in the rollback item |
| RecoveryObject.RecoveryService.MoveToRecoveryTrash | packages/application/src/file-service.ts:726-754 | The method passes through exactly the model's points, in order |
| RecoveryObject.RecoveryService.CopyToRecoveryTrash | packages/application/src/file-service.ts:756-777 | The method passes through exactly the model's points, in order |
| RecoveryObject.RecoveryService.RestoreDeletedFile | packages/application/src/file-service.ts:796-857 | Refuses exactly under the published conditions, changing nothing, and otherwise passes through exactly the model's points |
| PixelDecoder.DecodePixels | native/linux-host/src/x11.rs:722-765 | Succeeds if and only if the masks are present, the output is within 8 MiB and the data reaches the end of the last row; the output is then the decoded rows, 4 bytes a pixel; nothing is read out of range and no offset overflows |
| PixelDecoder.DecodeRow | native/linux-host/src/x11.rs:742-762 | A row succeeds exactly when its last pixel lies inside the data, and appends its pixels |
| PixelDecoder.PixelAt | native/linux-host/src/x11.rs:741-763 | The four bytes at 4(row*width+column) are the scaled channels and opacity of the word at row*stride+column*bytesPerPixel |
| PixelDecoder.AcceptedDecodesExactlyWhen | native/linux-host/src/x11.rs:589-599 | An accepted capture with a full image decodes if and only if it has at most 2,097,152 pixels |
| Pixels.ReadWord | native/linux-host/src/x11.rs:746-757 | The folds with shifts and or read the word of the bytes in either order, within 32 bits |
| Pixels.OrdersMirror | native/linux-host/src/x11.rs:746-757 | Each byte order reads the other's reversal |
| Pixels.ScaleIsNearest | native/linux-host/src/x11.rs:767-775 | A component is a nearest integer to 255*value/maximum, without clamping, 0 for no bits and 255 for all bits of the mask |
| Pixels.ScaleIsMonotone | native/linux-host/src/x11.rs:767-775 | A larger channel value never gives a smaller component |
| Pixels.ChannelOfContiguous | native/linux-host/src/x11.rs:771-773 | For a contiguous mask the channel value is exactly its bits of the pixel |

## Left out

- Gateway: `applyConfiguration`, `lastError`, latency, connector registration, the backoff delay and its jitter; timers may fire at any time. `tunnel.stop()` is assumed not to reject. Two starts may not receive the same tunnel handle.
- Swarm: `tick` and `cancel` are serialised steps. As written, `tick` stores `running` after an awaited launch without reading the task again, so an overlapping `cancel` could be overwritten. A cancel without a live entry, the downgrade of tasks at restart, result text, redaction and the per-start idempotency lookup are not modelled; neither are other services that release the same controller operations.
- `SwarmObject.SwarmService.ReleaseAllTaskAdmissions` visits tasks in row order; the order of the lease map makes no difference to the result.
- Result cursors are numbers; their decimal form and the clamping of `maxBytes` to 1..16384 are not modelled.
- `GoalCatchUp.ControlPlane.CatchUp`: `projectGoalRuntimeEvent` is an arbitrary partial function, and snapshots are stored under the goal lock, so the snapshot repository's refusal of a backward cursor never arises; corrupt rows are not modelled.
- Admission: the classifier of an observation is an arbitrary function, the joined runtime identity is one number, and receipt ids (hashes) and the best-effort catch of port errors are folded into a refused swap.
- `EventPump.ExactlyOnce`: pumps whose window is missed or whose cursor is ahead send snapshots instead, and are specified by `EventPump.Stream.Pump` alone; read time-outs close the stream and are not modelled, nor are back-pressure and keep-alives.
- Guarded rebase: workspace kind, branch and checkpoint-revision checks that only restate an input condition, the recovery ref, and the canonical base pin after completion. `guardedRebase` of the Git adapter is a port: it moves the head only from the expected one, or reports an error. The stretches between awaits are methods proved to take the protocol's steps; runs interleave those steps.
- `RebaseTheorems.RebasedMeans`: the base need not be the new one, because the code restores a row it read before; the lemma states exactly when it is.
- AT-SPI: running gdbus, its time-outs and output limit, and the JSON of the answer. `depth.saturating_add` cannot saturate within the depth bound.
- Recovery Trash: `purgeRecoveryItemsOlderThan`, version 1 metadata, the permission checks, and files created by others between the existence check of a restore and its rename. Directories are empty when deleted, as the code demands.
- `countOccurrences` and the split/join edit, relocation, custody, publishing, continuation services, HTTP routing, settings, CLI, doctor checks: one-branch facts or guards over storage.
- X11 connections, PNG encoding and the keyboard tables.
