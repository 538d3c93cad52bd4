# The workflow engine of agentflow, modelled and proved in Dafny

agentflow runs workflows: graphs of agent, ticket, approval, halt and closed nodes, executed in
waves by an asyncio executor whose node states are checkpointed row by row in a store that API
processes, workers and an approval sweeper share. This project models that engine and the protocol
around it, and proves what the design promises of them.

`dafny verify dfyconfig.toml` verifies all files together.

## What is modelled

**The graph and its meaning.** `Dags` holds the graph, its loading (`Build`, Kahn's cycle check,
join consistency, ancestors). `States` holds the node states and the executor's pure decisions: which
edges are active, what a pending node may do next (`Decide`), which outputs are refused (`Refused`),
what an approval turns into (`Outcome`), what a checkpoint gives back (`Restored`). `Evaluation` gives
a workflow its meaning: the states that one pass in topological order yields once outputs and verdicts
are fixed, shown to be the only solution of the equations "each node's state follows from its sources".

**Every interleaving of one run.** `Runs` is a transition system whose state has the node states in
memory, the node rows in the store, the calls of `run` under way with the tasks of their waves, the
rows still to be written, and the approvals judged so far. Every await of the executor is a point at
which another action may come in: another task of the wave, a write, an approver, the sweeper, a pause
request, another call of `run` on the same executor whatever the earlier ones are doing (which is what
approving does without a queue), a crash, a restart from the rows. `RunSafety` and `RunTheorems` prove
what every reachable state has; `Confluence` that all runs that end done end as the one pass does;
`Joins` what joins and conditions promise of steps and of whole runs, told by statuses and outputs;
`Pauses` that pauses leave no trace; `Readiness` that launched nodes stay ready; `Halts` when halt nodes
stay apart from all others; and `Stories`, `ForeignConditions` and `LostWrites` tell the runs in which
something goes wrong. `Verdicts` says which outputs let a node end as done. `Stops` compares the two ways
of stopping a run.

**The executor itself.** `Executor.DAGExecutor` is the class, with its fields, its loops over
node order and the in-memory store of `Store`. What the runner would answer for each node, when approvals
are opened and when one is judged are parameters. Each method takes steps of the transition system (the
ghost relation `Leads`), so that all theorems about reachable states hold of the object; `Passes`
holds the fixpoint of the approval and skip passes and its measure.

**The protocol.** `Approvals` is one approval raced over by approvers, sweepers and the clock;
`Sweeper` is the sweeper's class. `ControlPlane` is the step system of creators, workers, stop and
pause commands over the run rows and the quota locks, which may expire; `ForcedPauses` and `Quotas` say
when the exclusion of executors and the quota fail. `Series` and `Traces` hold runs of that system.
`Workers` and `Service` are the classes `Worker` and `RunService`, whose methods are series of its
steps; `Locks` has the two lock services. `Idempotency` is the attempt ledger with its retry loop.

**Smaller cores.** `JsonScan` cuts the JSON object out of an agent's reply, `Paths` (with `Texts`)
parses paths and resolves params and conditions, `References` says what a reference stands for,
`Tickets` creates one ticket per source, `ConfigSync` decides by a fingerprint whether a cached
configuration is still good, and `ConfigCalls` interleaves its calls, await by await. `Values` and
`Sets` are shared.

Awaits inside a class method are not interleaved there: the classes show what one undisturbed call
does, the step systems beside them what every interleaving can do.

## What the code does not promise

Where a property fails, the code is modelled as it is and the exact condition is proved.

- A condition may name any node, not only the source of its edge, and `!=` on an output that is not
  there holds (the comment in agentflow/core/expressions.py says otherwise). Then the order in which
  nodes finish decides: `ForeignConditions.ForeignConditionDivergesIff` has two runs of one graph over the same
  outputs and verdicts that both end done, and says exactly when one has judged an approval and the
  other skipped it.
  Confluence is therefore stated for graphs whose conditions read their own source (`SelfConditioned`).
- Approving without a queue calls `run` again while an earlier call may still be inside a wave
  (agentflow/service.py:426-468). The later call raises the stall error exactly if it has nothing left
  to do while another call is executing a node (`RunTheorems.StallsExactlyBesideOthers`), and this
  happens (`Stories.StallHappens`). A call beside which no other is at work never stalls
  (`RunTheorems.NeverStalls`).
- In the same situation an agent can start beside a halt node and after it: `Stories.AgentBeginsBesideHalt`,
  `Stories.AgentBeginsAfterHalt`. Halts stay apart from other nodes exactly as long as no wave is launched
  beside a task of the other kind: `Halts.HaltAloneBreaksIff`, `Halts.HaltsStayAloneIff`. A caller that
  calls `run` again only when every earlier call has returned never launches one
  (`Halts.CarefulIsUnmixed`). That no call is inside a wave would not be enough: two calls at a boundary
  may each launch one.
- A launched node may no longer be ready when its turn comes, if its condition reads a node of its own
  wave: `ForeignConditions.LaunchedIsReadyIff`. Where conditions read their own source this does not happen:
  `Readiness.ReadyUntilExecuted`.
- A crash that loses the outstanding row of an approval already taken in memory can leave the node behind
  it done and the approval waiting again (`LostWrites.DoneBeforeItsApproval`). Without such a loss every
  node that has started has its join satisfied: `Joins.StartedNodesAreJoined`.
- A pause forced on a run that some process owns lets two workers hold it, and only then:
  `ForcedPauses.ForcedPauseDoublesIff`, with a whole run in `ForcedPauses.ForcedPauseLetsTwoRun`.
- The quota can be exceeded. In any state the count breaks exactly if, with no room left, a last write
  revives a run that was stopped, or a creator passes the check, which then counts no other creator that
  has passed it: `Quotas.CountBreaksIff`. The latter takes a quota lock that was lost, after its 15
  seconds, while its holder was inside. If neither a revival nor such a loss happens the quota is kept:
  `Quotas.QuotaIsKept`. Both happen: `Quotas.StopLetsQuotaBeExceeded`, `Quotas.LostLockLetsQuotaBeExceeded`.
- A death between writing an approval node and its approval row leaves the node waiting for ever, with
  nothing that anybody could judge: `Approvals.UnopenedForEver`, `Approvals.UnopenedHappens`.
- A death between judging an approval and writing its node strands the approval for ever:
  `Approvals.StrandedForEver`, `Approvals.StrandedHappens`.
- A reply whose JSON object holds three backticks does not reach the parser as it was written:
  `JsonScan.ObjectIsExtractedIff`.
- Overlapping calls for one tenant's configuration can answer with another table than they have read:
  `ConfigCalls.OvertakenAnswerIff`. One that reuses what it found can answer with the old one
  (`ConfigSync.OverlapAnswersStale`); one that rebuilds returns what is cached after its await, be it
  older (`ConfigCalls.ReturnsTheLastBuilt`, `ConfigCalls.OlderAnswerAfterCaching`).
- A release of the Redis lock can free another holder's lock, and a refresh extend it. The token belongs
  to the lock object, which all coroutines of a process share: `Locks.DeleteIsForeignIff`,
  `Locks.ReleaseAtOnceIsForeignIff`, `Locks.RefreshExtendsIff`; it happens both within a process
  (`Locks.SiblingReleaseFreesForeignLock`) and between processes (`Locks.LateDeleteFreesForeignLock`).
- Stopping a run on a worker overwrites failed nodes, stopping it in the service does not; the service
  overwrites approvals judged elsewhere, a worker does not: `Stops.StopsDifferOnFailuresOnly`.

## Model

| member | source | states |
|---|---|---|
| `Dags.CheckCycle` | agentflow/core/dag.py:365-383 | Kahn's check accepts exactly the acyclic graphs, parallel edges and self-loops included |
| `Dags.CountEdges` | agentflow/core/dag.py:366-372 | the counters and adjacency lists are the in-degrees and the successors, with multiplicity |
| `Dags.Build` | agentflow/core/dag.py:184-272 | loading a snapshot, without the strict checks, succeeds exactly if all edges join known nodes, the graph is acyclic and all joins are consistent; each failure names its cause; every edge keeps its ends and its condition, and takes its target's condition exactly if it has none and is alone there; every node keeps the rest and gets the edges that lead to it |
| `Dags.ConditionMayStandOnEither` | agentflow/core/dag.py:265-268 | the loaded graph is the same whether a condition stands on a node or on the only edge that leads to it |
| `Dags.CheckJoins` | agentflow/core/dag.py:385-405 | accepts exactly the graphs in which `all` joins require some of their own sources and `any` joins require none |
| `Dags.TransitiveUpstreams` | agentflow/core/dag.py:416-426 | returns exactly the nodes with a path of at least one edge to the given one |
| `Dags.AcyclicHasOrder` | agentflow/core/dag.py:365-383 | every graph that passes the check has a topological order of its nodes |
| `Paths.CheckParamsRefs` | agentflow/core/dag.py:428-452 | accepts exactly the graphs whose params reference only the node itself and its ancestors |
| `Paths.AcceptedParamsReadAncestors` | agentflow/core/dag.py:428-452 | the params of an accepted node resolve alike whatever the outputs of the nodes beside or below it |
| `Evaluation.OnePassIsTheSolution` | agentflow/executor/dag_executor.py:504-537 | whichever topological order it follows, one pass computes the one and only assignment in which every node's state follows from its sources' |
| `Evaluation.SolutionExists` | agentflow/executor/dag_executor.py:504-537 | every loaded graph whose conditions read their own source has such an assignment, for all outputs and verdicts |
| `Evaluation.DecisionAgrees` | agentflow/executor/dag_executor.py:521-537 | a decision taken early, on any partial state that agrees with the solution, is the decision of the solution |
| `Joins.DecisionFollowsJoin` | agentflow/executor/dag_executor.py:504-537 | a loaded node is ready exactly if it is a root, or its `all` join has every required source, or any other join one source, that has put something out with the edge's condition true; else it is skipped exactly if all its sources have ended |
| `Joins.TurnFollowsJoin` | agentflow/executor/dag_executor.py:920-928 | in any state a task that takes its turn runs its pending node if the join holds, skips it if it never can, and leaves it otherwise |
| `Joins.OpeningFollowsJoin` | agentflow/executor/dag_executor.py:651-678 | in any state an approval is opened exactly if its join holds and skipped exactly if it never can |
| `Joins.SkippingFollowsJoin` | agentflow/executor/dag_executor.py:619-649 | in any state the boundary skips a pending node exactly if a halt has been executed, or it is no approval and its join can never hold |
| `Joins.WaveFollowsJoins` | agentflow/executor/dag_executor.py:539-558 | a wave is exactly the pending nodes whose joins hold, approvals apart, or the halt nodes among them if there are any |
| `Joins.StartedNodesAreJoined` | agentflow/executor/dag_executor.py:504-537 | over any interleaving, overlapping calls, failures and crashes that lose no outstanding write: every node that has started has its join satisfied by the statuses and outputs as they stand, and every skipped node, a halt apart, has all its sources ended and its join unsatisfied |
| `Joins.RunningNodesAreJoined` | agentflow/executor/dag_executor.py:504-537 | in every reachable state whatever, a running node has its join satisfied |
| `Joins.DoneRunsObeyJoins` | agentflow/executor/dag_executor.py:1041-1090 | when a run of a halt-free graph ends done, over any crashes and restarts, exactly the nodes whose joins are satisfied by how it has ended have run |
| `Joins.SkippedNodesAreNotJoined` | agentflow/executor/dag_executor.py:533-537 | in every reachable state of a halt-free graph a skipped node does not have its join satisfied |
| `LostWrites.DoneBeforeItsApproval` | agentflow/executor/dag_executor.py:1119-1130 | a run in which a crash before the approval's row is written leaves the node behind it done and the approval waiting |
| `Evaluation.ActiveAgrees` | agentflow/executor/dag_executor.py:504-514 | an active edge stays active, and a terminal source settles its edge for good |
| `Evaluation.ForeignConditionFlipsIff` | agentflow/core/expressions.py:53-65 | while a node other than the edge's source has not run, what it puts out changes the decision on the target exactly if the condition says of that output something else than of null |
| `ForeignConditions.ForeignConditionDivergesIff` | agentflow/executor/dag_executor.py:504-537 | two runs of one loaded graph, every node putting out the same and the approval getting the same verdict, both end done, with the source of the approval's edge ending first in one and last in the other; the approval ends alike exactly if the condition, which reads a third node, says the same of that node's output as of null |
| `RunTheorems.SafeRun` | agentflow/executor/dag_executor.py:1041-1169 | no sequence of actions, overlapping calls of `run`, crashes and restarts included, leaves the invariant: whose tasks are whose, rows that track memory, no refused output done, done runs final |
| `Halts.HaltAloneBreaksIff` | agentflow/executor/dag_executor.py:539-558 | in any reachable state with halts apart from other nodes, overlapping calls included, a step ends that exactly if it launches a wave beside a task of the other kind |
| `Halts.HaltsStayAloneIff` | agentflow/executor/dag_executor.py:539-558 | over whole runs, overlapping calls, crashes and restarts included, halts stay apart throughout exactly if no wave is launched beside a task of the other kind |
| `Halts.HaltContainment` | agentflow/executor/dag_executor.py:447-461 | in every such run, whenever a node starts, all that is launched or being executed is of its kind, and if it is no halt node no halt is done in memory or in the store |
| `Halts.CarefulIsUnmixed` | agentflow/executor/dag_executor.py:1041-1090 | a caller that calls `run` again only when every earlier call has returned never launches such a wave |
| `Halts.CarefulHaltContainment` | agentflow/executor/dag_executor.py:447-461 | so for such a caller halts are contained in every run |
| `Halts.HaltIsForever` | agentflow/executor/dag_executor.py:539-558 | in runs without such a wave, once a halt is recorded, nothing but halt nodes ever starts, over any crashes and resumes |
| `Readiness.ReadyUntilExecuted` | agentflow/executor/dag_executor.py:920-928 | where conditions read their own source: in every reachable state, overlapping calls, failures, crashes and restarts included, a launched node that has not begun is ready, and runs if it is pending at its turn |
| `Readiness.ReadyStays` | agentflow/executor/dag_executor.py:504-537 | a ready node stays ready whatever else changes, as long as nodes that have an output keep it |
| `ForeignConditions.LaunchedIsReadyIff` | agentflow/executor/dag_executor.py:920-928 | where a condition reads another node of the wave: once that has ended the launched node is still ready exactly if the condition holds of its output, and is skipped otherwise |
| `Stories.AgentBeginsBesideHalt` | agentflow/service.py:426-468 | when calls overlap: an approval is refused while an agent runs, `run` is called again, and another agent may begin while the halt node is being executed |
| `Stories.AgentBeginsAfterHalt` | agentflow/service.py:426-468 | and it may begin after the halt node is done in memory and in the store |
| `RunTheorems.StallsIff` | agentflow/executor/dag_executor.py:1076-1090 | on any node states, a settled boundary with nothing ready or waiting stalls exactly if some node is running, failed or cancelled |
| `RunTheorems.StallsExactlyBesideOthers` | agentflow/executor/dag_executor.py:1076-1090 | in every reachable state a call of `run` that has nothing left to do raises the stall error exactly if another call is executing a node |
| `RunTheorems.NeverStalls` | agentflow/executor/dag_executor.py:1052-1090 | in every reachable or restored state, whatever has overlapped before, a call of `run` beside which every other has returned does not raise the stall error |
| `Stories.StallHappens` | agentflow/service.py:426-468 | the stall is reached: an approval is given while an agent runs, and the second call finds nothing to do |
| `Verdicts.DoneOutputsAreAffirmed` | agentflow/executor/dag_executor.py:704-731 | in every reachable state no agent or ticket node stands as done, in memory or store, with tester or smoke-tester `passed`, reviewer `approved`, ticket-done `delivered`, merger `merged`, ci-builder `built` or deployer `deployed` false, or with an unmet delivery named in its health record |
| `Verdicts.FinishIsDoneIff` | agentflow/executor/dag_executor.py:986-1039 | in any state a returned output leaves its node done exactly if it neither denies its own success nor names an unmet delivery, failed otherwise, and the output is kept in both cases |
| `Verdicts.AnythingButFalseIsAccepted` | agentflow/executor/dag_executor.py:707-716 | an output without a health record whose conclusions are missing, null or anything but false is accepted |
| `Verdicts.OutcomeSays` | agentflow/executor/dag_executor.py:1111-1126 | a judged approval puts out its status, whether it was approved, by whom, the comment and the upstream outputs; a time-out puts out a refusal and its reason |
| `Verdicts.UpstreamsAreSources` | agentflow/executor/dag_executor.py:1116-1118 | the upstream outputs are those of the sources of the in-edges, by name, and no others |
| `RunTheorems.DoneMeansDone` | agentflow/executor/dag_executor.py:1063-1086 | a run that reports done has only terminal nodes, none failed, no aborting rejection, no refused output |
| `RunTheorems.CheckpointIsFaithful` | agentflow/executor/dag_executor.py:1138-1169 | in every reachable state, overlapping calls included, restoring gives back the memory state of each node whose row is written; running and failed nodes start over, and an approval judged elsewhere has the outcome of the verdict on record |
| `RunTheorems.PendingWasNeverOpened` | agentflow/executor/dag_executor.py:651-678 | a pending node has never had an approval opened or judged, so an approval row is created only once |
| `Confluence.EveryDoneRunIsTheOnePass` | agentflow/executor/dag_executor.py:1041-1090 | on a halt-free graph whose conditions read their own source, every run that ends done, over any interleaving, overlapping calls of `run`, failures, crashes and resumes, has the states of the one pass |
| `Confluence.DoneRunsAgree` | agentflow/executor/dag_executor.py:1138-1169 | two such runs, crashed and resumed on the way or not, end with the same statuses |
| `Confluence.OnCourseStep` | agentflow/executor/dag_executor.py:958-1039 | every action keeps memory, rows and verdicts in agreement with the one pass, stale rows included |
| `Pauses.NoWaveWhilePausing` | agentflow/executor/dag_executor.py:1077-1078 | in any state, while a pause is requested no wave is launched and the run does not stop to wait for an approval; it can only end, when everything has, or pause |
| `Pauses.PausesAreTransparent` | agentflow/executor/dag_executor.py:1077-1078 | a run paused and resumed any number of times, from the store or by calling `run` on the paused executor, with approvals given while it is paused or just before, elsewhere or on that executor, launches the same waves and ends in the same state as without the pauses, halts included |
| `Pauses.CaughtUp` | agentflow/executor/dag_executor.py:1138-1169 | where the one run stops for a pause, the other takes the verdicts that the store has already, and then is exactly the executor that a restart builds from the rows |
| `Pauses.SleepIsTransparent` | agentflow/service.py:426-468 | while the one run is paused, the other takes each verdict when its row is written, by somebody else or by the paused executor, and stays exactly what a restart would build; calling `run` again gives that too |
| `Passes.SettleSettles` | agentflow/executor/dag_executor.py:1052-1062 | alternating the approval and the skip pass ends in a state where neither has anything left to decide, and only pending nodes changed |
| `Passes.FixpointIsSettled` | agentflow/executor/dag_executor.py:619-678 | a state that one round of both passes leaves alone has no approval and no skip to decide |
| `Passes.AdvancesShrinks` | agentflow/executor/dag_executor.py:1052-1062 | a round that changes anything leaves strictly fewer pending nodes |
| `Executor.DAGExecutor.constructor` | agentflow/executor/dag_executor.py:330-354 | a new executor is the start of the transition system |
| `Executor.DAGExecutor.FromCheckpoint` | agentflow/executor/dag_executor.py:1138-1169 | the loop over the rows keeps terminal and waiting rows, starts all else over, and is the restart step of the system |
| `Executor.DAGExecutor.RequestPause` | agentflow/executor/dag_executor.py:356-358 | sets the request and nothing else |
| `Executor.DAGExecutor.ProcessSkips` | agentflow/executor/dag_executor.py:619-649 | memory becomes the skip pass of before, everything pending after a halt; each change is a step of the system with its row written |
| `Executor.DAGExecutor.ProcessApprovals` | agentflow/executor/dag_executor.py:651-678 | memory becomes the approval pass of before, and the approvals table gains exactly one row for each node that began to wait: waiting, with its deadline, nobody named |
| `Executor.DAGExecutor.OpenOne` | agentflow/executor/dag_executor.py:659-677 | an approval is opened for the first time, its node waits, and its row has the deadline of that moment and the node's timeout |
| `Executor.TimeoutIs` | agentflow/executor/dag_executor.py:660-663 | the timeout is the node's parameter, an hour if it has none |
| `Executor.DAGExecutor.SettleBoundary` | agentflow/executor/dag_executor.py:1052-1062 | reaches the settled state in at most one round more than nodes leave the pending state |
| `Executor.DAGExecutor.ReadyNodes` | agentflow/executor/dag_executor.py:539-558 | exactly the ready nodes without repetition, or only the ready halt nodes if there are any |
| `Executor.DAGExecutor.BeginNode` | agentflow/executor/dag_executor.py:920-1000 | a task runs its node exactly if it is still pending and ready when its turn comes |
| `Executor.DAGExecutor.EndNode` | agentflow/executor/dag_executor.py:986-1039 | given what the runner came back with: a returned output is kept, and its node is done exactly if the output is neither denied nor undelivered, else failed; without an output the node fails; the row is written |
| `Executor.DAGExecutor.RunWave` | agentflow/executor/dag_executor.py:1079-1082 | under any scheduling a wave either ends with no task left or with a failure, has taken a node out of the pending ones, and leaves every node that has ended as the runner's answer demands |
| `Executor.DAGExecutor.RejectedAbortNode` | agentflow/executor/dag_executor.py:463-495 | finds a node exactly if some approval that aborts on rejection is rejected |
| `Executor.DAGExecutor.Run` | agentflow/executor/dag_executor.py:1041-1090 | for all answers of the runner: always returns, within as many waves as nodes are pending, through steps of the system, with a result that tells the states and every node that has ended as its answer demands; called again after it has returned it goes on, and after a failure it fails without a wave |
| `Executor.DAGExecutor.Approve` | agentflow/executor/dag_executor.py:1095-1133 | judges exactly if the node waits and the compare-and-set succeeds at that moment, reports a time-out exactly if it has lost to one, and only a judgement changes anything: row, verdict and node |
| `Store.MemoryStore.CasUpdateRunStatus` | agentflow/statestore/memory.py:95-100 | succeeds exactly if the run has the expected status, and changes that run only |
| `Store.MemoryStore.CountActiveRuns` | agentflow/statestore/memory.py:88-93 | the number of the tenant's runs in an active status |
| `Store.MemoryStore.PutNode` | agentflow/statestore/memory.py:103-104 | writes one row of one run |
| `Store.MemoryStore.UpdateNodeStatus` | agentflow/statestore/memory.py:109-113 | sets the status, the output only when one is given, and makes a row that is missing |
| `Store.MemoryStore.CasUpdateApproval` | agentflow/statestore/memory.py:142-161 | succeeds exactly if the row has the expected status and stands on the right side of its deadline; writes approver and comment only when given |
| `Store.MemoryStore.GetSucceededAttempt` | agentflow/statestore/memory.py:180-189 | the oldest success on record for the run, node and key |
| `Approvals.DeadlineDecides` | agentflow/statestore/base.py:27-39 | at every moment exactly one of judging and timing out can go through on an open row with a deadline |
| `Approvals.OpenedOnceJudgedOnceOnTime` | agentflow/statestore/memory.py:142-161 | under any interleaving an approval is opened at most once, leaves WAITING at most once, is judged before its deadline and timed out at or after it |
| `Approvals.OneWinner` | agentflow/approval/sweeper.py:73-119 | of any number of approvers and sweepers at most one wins |
| `Approvals.VerdictIsFinal` | agentflow/executor/dag_executor.py:1095-1133 | once an approval row has left WAITING it never changes again |
| `Approvals.NodeMatchesApproval` | agentflow/approval/sweeper.py:94-104 | the stored node status is the one that the approval row, or its absence, demands, exactly unless some process is between its two writes or has died there |
| `Approvals.UnopenedIff` | agentflow/executor/dag_executor.py:661-677 | a node is left waiting without an approval row exactly by the death of its executor between the two writes |
| `Approvals.UnopenedForEver` | agentflow/executor/dag_executor.py:661-677 | then it waits for ever, restarts included, and nobody ever wins its approval |
| `Approvals.UnopenedHappens` | agentflow/executor/dag_executor.py:661-677 | a behaviour from the start that leads there, at every time and with every time-out |
| `Approvals.StrandedForEver` | agentflow/executor/dag_executor.py:1104-1130 | a death between the two writes leaves the approval judged and its node waiting, whatever happens later |
| `Approvals.StrandedHappens` | agentflow/executor/dag_executor.py:1104-1130 | a behaviour from the start that leads there, for every verdict of an approver in time and for the time-out by a sweeper |
| `Sweeper.ApprovalSweeper.Scan` | agentflow/approval/sweeper.py:73-119 | closes exactly the waiting approvals whose deadline has passed, gives each node the time-out outcome, publishes for each run exactly as many resumes as approvals of it were closed, and touches nothing else |
| `ControlPlane.AtMostOneExecutor` | agentflow/worker.py:158-294 | for any number of workers and messages, duplicated or reordered, with crashes, stops and releases but no forced pause, a run has at most one process from its claim to its last write |
| `ForcedPauses.ForcedPauseDoublesIff` | agentflow/service.py:333-341 | after forcing a pause, and without another one, two processes may come to hold the run exactly if some process owns it at that moment, be it only its creator that has not queued it yet |
| `ForcedPauses.HolderIsDoubled` | agentflow/worker.py:242-271 | if a process holds the run, a resume message to any other worker is claimed as well, by any fresh process |
| `ForcedPauses.ForcedPauseLetsTwoRun` | agentflow/worker.py:179-184 | a pause forced between claim and lease leads to two live executors, in a run from the empty state |
| `Quotas.QuotaIsKept` | agentflow/service.py:187-226 | over any creates, claims, pauses, stops, forced pauses and ends in which no last write revives a run that is over and no quota lock is lost while its holder is inside, no tenant ever has more active runs than its quota |
| `Quotas.CountBreaksIff` | agentflow/service.py:187-226 | in any state, lost locks included: a step takes a tenant's active runs together with its admitted creators above the quota exactly if no room is left and it revives a run of the tenant or lets a creator pass the check |
| `Quotas.CountIsKeptIff` | agentflow/service.py:187-226 | over whole runs: they stay within the quota exactly if no step takes room that is not there |
| `Quotas.BrokenCountShowsIff` | agentflow/service.py:206-226 | in any state the creators that have passed the check can exceed the quota by inserting their runs exactly if they and the active runs are above it together |
| `Quotas.RevivedWasStopped` | agentflow/worker.py:214-215 | a run that a last write revives is one that a stop has cancelled |
| `Quotas.StopLetsQuotaBeExceeded` | agentflow/worker.py:214-215 | a run from the empty state in which a stop frees the room, a second run is created, and the first comes back as paused: two active runs under a quota of one |
| `Quotas.LostLockLetsQuotaBeExceeded` | agentflow/lock/memory.py:14-26 | a run from the empty state in which the quota lock expires between the check and the insertion: two active runs under a quota of one |
| `Workers.Worker.HandleTrigger` | agentflow/worker.py:158-186 | claims exactly the queued runs, takes the lease, and is a series of steps of the control plane |
| `Workers.Worker.CmdResume` | agentflow/worker.py:242-271 | claims exactly the paused runs and those waiting for approval |
| `Workers.Worker.CmdPause` | agentflow/worker.py:273-280 | reaches the executor of a run of this worker, and is dropped otherwise |
| `Workers.Worker.Finish` | agentflow/worker.py:198-216 | the task is forgotten and its lease gone before the status is written |
| `Workers.Worker.CmdStop` | agentflow/worker.py:282-294 | whoever executes the run here is cancelled with its lease, and the run is cancelled whatever its status was |
| `Workers.Worker.MarkCancelled` | agentflow/worker.py:297-309 | the loop cancels exactly the nodes that a restore does not keep as terminal |
| `Stops.StopsDifferOnFailuresOnly` | agentflow/service.py:280-294 | in every reachable state, for each node with nothing left to write, rows that are missing included: worker and service leave the same row of a stopped run exactly if the node has not failed and is no approval judged elsewhere |
| `Stops.StopsAgreeIff` | agentflow/worker.py:297-309 | for any memory and any rows: when the two leave the same row |
| `Service.RunService.AcquireTenantLock` | agentflow/service.py:134-143 | polls until the lock comes free; gives up only if it was held at every look up to the deadline; looks a bounded number of times |
| `Service.RunService.Create` | agentflow/service.py:187-226 | creates, queues and triggers exactly when lock and quota allow, also while another creator of the tenant holds the lock, then by waiting for it; releases the lock in every case but the time-out, and is a series of steps of the control plane |
| `Service.RunService.PauseRun` | agentflow/service.py:322-352 | forces exactly a running run that surely has no lease, commands otherwise; a forced pause lets two processes hold the run exactly if somebody owned it |
| `Locks.InMemoryLock.Acquire` | agentflow/lock/memory.py:14-20 | succeeds exactly if no unexpired entry is there |
| `Locks.InMemoryLock.Refresh` | agentflow/lock/memory.py:28-41 | extends exactly an unexpired entry, whoever made it |
| `Locks.InMemoryLock.IsLocked` | agentflow/lock/memory.py:43-51 | answers for the moment, and dropping an expired entry changes no answer from then on |
| `Locks.RefreshExtendsIff` | agentflow/lock/redis.py:36-67 | under any interleaving a refresh goes through exactly if the key is unexpired and as the client read it, and then extends the lock of its holder, the client itself or another one of the same lock object |
| `Locks.RefreshIsOwn` | agentflow/lock/redis.py:36-67 | if no other client has its token, a refresh that changes the key extends the refreshing client's own unexpired lock |
| `Locks.LostOnlyByDelete` | agentflow/lock/redis.py:20-67 | a held lock is lost exactly by a delete, by the clock passing its expiry, or by a refresh to zero with its token |
| `Locks.DeleteIsForeignIff` | agentflow/lock/redis.py:31-34 | under any interleaving a delete frees somebody else's lock exactly if the key is unexpired and the client is not its holder; if the key is as the client read it, exactly if a client of the same lock object holds it |
| `Locks.ReleaseAtOnceIsForeignIff` | agentflow/lock/redis.py:31-34 | a release with no step between its statements frees somebody else's lock exactly if a client of the same lock object holds it |
| `Locks.SiblingReleaseFreesForeignLock` | agentflow/lock/redis.py:22-34 | for any two clients of one lock object: the first comes back after its lock has expired and releases the second's |
| `Locks.LateDeleteFreesForeignLock` | agentflow/lock/redis.py:31-34 | for all clients and times to live, a release whose lock expires between its two statements frees the next holder's lock |
| `Idempotency.Execute` | agentflow/executor/idempotency.py:23-77 | for all answers of the world: a recorded success is returned without acting; otherwise attempts are made up to the first success or to the allowed number, each performed, recorded in order and told truly; when all fail, the result is negative evidence or the error as the node says |
| `Idempotency.Replay` | agentflow/executor/dag_executor.py:862-918 | over any sequence of calls ledger and world keep their accounts, and once a keyed call has returned an output every later one returns the same |
| `Idempotency.CallKeepsAccounts` | agentflow/executor/idempotency.py:23-77 | each call keeps the account: a keyed operation has gone through as often as the ledger says, and at most once |
| `Idempotency.KeyedIff` | agentflow/executor/dag_executor.py:680-702 | exactly the nodes that declare a key and those whose agent has side effects are keyed, also when the declared key resolves to nothing |
| `Idempotency.KeyIs` | agentflow/executor/dag_executor.py:680-702 | the key is the declared one, in whatever run, if it resolves to something; else the run's and the node's names, if one is declared or the agent is committer, infra-remediator, ticket-done, merger or deployer; else none |
| `Idempotency.AtMostOnce` | agentflow/executor/idempotency.py:43-49 | with the accounts in order no keyed operation has been performed twice |
| `JsonScan.ExtractJson` | agentflow/agents/scopes.py:195-237 | the one-pass scan with depth, in-string and escape flags hands on exactly the text that the recursive definition cuts out |
| `JsonScan.ObjectIsExtractedIff` | agentflow/agents/scopes.py:195-237 | whatever comes before it without an opening brace, fences and earlier code blocks included, and whatever follows it, a serialized object reaches the parser to the character if and only if its text holds no fence |
| `JsonScan.StripSplits` | agentflow/agents/scopes.py:195-237 | stripping fences from a text acts separately on what comes before the first brace and on the rest |
| `JsonScan.ExtractedHasNoFence` | agentflow/agents/scopes.py:195-237 | nothing handed to the parser holds a fence, not even one put together from the remains of others |
| `JsonScan.ObjectIsCutOut` | agentflow/agents/scopes.py:195-237 | from its first brace a written object, nested and with any escapes, is exactly what the scanner cuts out |
| `JsonScan.StandardStyleIsSound` | agentflow/agents/scopes.py:195-237 | the standard serializer, on one line or indented, is among those the round trip is about |
| `Paths.ParsePath` | agentflow/executor/dag_executor.py:249-271 | the index loop computes the recursive grammar, abandoned and unclosed brackets included |
| `Paths.ParseInvertsRender` | agentflow/executor/dag_executor.py:249-271 | parsing inverts rendering for all integer indices and all names without dot and bracket |
| `Paths.WalkValue` | agentflow/executor/dag_executor.py:274-287 | the cursor loop follows the steps, negative indices counted from the end, and gives null where a step leads nowhere |
| `Paths.ResolveReadsOnlyRefs` | agentflow/executor/dag_executor.py:290-319 | resolving a param at any depth reads the outputs of the nodes it names and no others |
| `References.InputReferenceReads` | agentflow/executor/dag_executor.py:290-315 | a reference to an input stands for the value that its names and indices lead to, negative ones from the end, and for null if there is none |
| `References.OutputReferenceReads` | agentflow/executor/dag_executor.py:290-311 | a reference to a node's output likewise, in that node's output |
| `References.ResolvesInPlace` | agentflow/executor/dag_executor.py:314-319 | resolving a param replaces its leaves by what they stand for, each in its place, at any depth |
| `References.PlainTextStays` | agentflow/executor/dag_executor.py:290-319 | any text that is no reference stands for itself |
| `Paths.GetPathValue` | agentflow/core/expressions.py:15-28 | the loop over the dotted parts computes the lookup, null where a part is missing |
| `Paths.ParamAndConditionAgree` | agentflow/core/expressions.py:15-28 | on an output path without indices a param and a condition see the same value |
| `Paths.EdgeConditionReads` | agentflow/core/expressions.py:53-65 | the condition that the edge decision evaluates is the comparison of the looked-up value with the literal |
| `Values.EqualMeans` | agentflow/core/expressions.py:53-65 | what equal means in a condition: texts by characters, numbers and truth values by value, null only itself, nothing of one kind with another |
| `Texts.ParseIntText` | agentflow/executor/dag_executor.py:249-271 | decimal text of any integer parses back to it |
| `Tickets.OneTicketPerSource` | agentflow/api/ticket_store.py:180-226 | under any interleaving of callers all that come back for one source have the same ticket, and at most one of them has created it |
| `Tickets.SomeoneCreatedIt` | agentflow/api/ticket_store.py:180-226 | if none has died, exactly one of the callers of a source says that it created the ticket |
| `Tickets.TableStaysUnique` | agentflow/api/ticket_store.py:59-59 | no two rows for one source, no row that cannot be read back, no number drawn twice |
| `Tickets.NumbersAreConsecutive` | agentflow/api/ticket_store.py:228-244 | under any interleaving the numbers of a day are handed out one by one from one on, none left out |
| `Tickets.NumberTextInjective` | agentflow/api/ticket_store.py:228-244 | different numbers are spelt differently, beyond four digits too |
| `ConfigSync.FingerprintIsFaithful` | agentflow/agents/config_sync.py:27-29 | after any writes stamped later than what was there, row count and newest stamp are the same exactly if the table is |
| `ConfigSync.SameStampIsMissed` | agentflow/api/agent_store.py:85-100 | an update that repeats the newest stamp goes unnoticed, so the clock must move |
| `ConfigSync.IndexOfListing` | agentflow/agents/agent_config.py:79-83 | the resolver's dictionary is the table, in whatever order the rows were listed |
| `ConfigSync.KeysAreSeparate` | agentflow/agents/config_sync.py:43-47 | different tenants have different cache keys; no name and the empty one stand for the local tenant |
| `ConfigSync.TenantConfigSync.Resolver` | agentflow/agents/config_sync.py:43-75 | within the interval the cached resolver and no change; past it the table as read, rebuilt exactly if either table changed |
| `ConfigCalls.EveryCheckAnswersFresh` | agentflow/agents/config_sync.py:43-75 | from a cold cache, over any writes by a strictly increasing clock and any overlapping calls, a call beside which, from its start until it returns, no other for its tenant reaches the cache answers with the agent table that it read |
| `ConfigCalls.OvertakenAnswerIff` | agentflow/agents/config_sync.py:50-75 | over all such runs: a call reuses what it found exactly if the cache has been built from just the two tables that it read, and is then wrong exactly if it found another table; one that rebuilds is wrong exactly if by its return the cache has been built from another table |
| `ConfigCalls.ReturnsTheLastBuilt` | agentflow/agents/config_sync.py:66-75 | a call that rebuilds and awaits returns the table that a call for its tenant has built from last, its own only if no other has built since |
| `ConfigCalls.OlderAnswerAfterCaching` | agentflow/agents/config_sync.py:66-75 | for all tables and every write, a run from a cold cache in which a call that has read the new table returns the old one |
| `ConfigSync.OverlapAnswersStale` | agentflow/agents/config_sync.py:50-64 | of two calls that overlap a change, the second to finish answers with the configuration from before it |

## Left out

- Node states keep status and output. Resolved params, timing, token usage and error texts are not
  modelled; a failure that comes from the runner leaves a null output.
- What halt and closed nodes put out is arbitrary, as is every runner's output; LLM calls, tools,
  traces, audit and metrics are not part of this model.
- The text of conditions and the coercion of their literals: conditions are given parsed, and
  malformed ones, which raise, do not occur. Numbers compare as reals.
- Health records that are not well-formed, on which the delivery guard raises an error of another kind.
- The guard on unsupported artifacts, which reads tool logs.
- `on_failure: continue`, by which a failed agent node is recorded as done with the failure for an output;
  in the model that is a runner's output like any other.
- Tasks left behind by a failed wave go on in the transition system until the executor is restored;
  a restart is taken to come after they have ended.
- Resuming without a queue (agentflow/service.py:354-374) builds a second executor for the run without
  looking at its status. `Runs` has one executor object for a run at a time, with any number of calls
  on it; two executor objects over the same rows are outside every theorem.
- Inside the classes calls do not overlap: `Executor.DAGExecutor.Run` starts when no other call is at work.
- Stopped runs are modelled at the level of run rows and node rows (`Workers`), not inside the engine:
  no action of `Runs` makes a node cancelled.
- Runs without a queue execute in the API process and take neither claim nor lease; they are not part
  of `ControlPlane`.
- Resuming counts the run itself against the quota, and wake-ups can be lost: no liveness of messages
  is claimed.
- Identifiers drawn at random are taken to be fresh; workspace preparation and the decoding of the
  extracted JSON are foreign calls.
- Integer text is ASCII; digits of other scripts, which Python also accepts, do not occur.
- SQLite, PostgreSQL, Kafka and the HTTP endpoints are not part of this model; the store is the
  in-memory one.
- Confluence.EveryDoneRunIsTheOnePass: does not cover halt nodes, because a crash inside a wave can
  change which nodes ran before the halt, and compares approval outputs up to the upstream outputs they
  record, which depend on timing.
- Dags.Build: leaves out the strict checks on node kinds and on `on_reject`, which saving a workflow makes
  and loading a snapshot does not.
- Halts.HaltContainment: supposes that no wave is launched beside a task of the other kind, because
  otherwise it is false (`Stories.AgentBeginsBesideHalt`); `Halts.HaltAloneBreaksIff` is the exact condition.
- Pauses.PausesAreTransparent: supposes that when the run stops for a pause every other call of `run`
  has returned and no row is outstanding; and that the paused executor, before `run` is called on it
  again, has written its verdicts and that none has been written by others that it still waits for.
- ControlPlane.AtMostOneExecutor: leaves forced pauses out, because with them it is false;
  `ForcedPauses.ForcedPauseDoublesIff` is the exact condition.
- Quotas.QuotaIsKept: leaves out revived runs and lost quota locks, because with them it is false;
  `Quotas.CountBreaksIff` is the exact condition on a step.
- Idempotency.Replay: does not cover a death between an action and its record, after which the action
  is repeated, a store that fails to record, nor an attempt that is given up as timed out after its effect
  has happened (agentflow/executor/dag_executor.py:901-909): in the model an action has an effect exactly
  if it reports success.
- Tickets.SomeoneCreatedIt: supposes that no caller dies; one that dies after its insertion leaves a
  ticket that nobody reports as created.
