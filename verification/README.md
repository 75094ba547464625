# A verified model of the cogniflow engine

This project models, in Dafny, the parts of cogniflow whose correctness is hardest to see by
reading: the workflow supervisor that dispatches graph nodes concurrently and re-runs loop
bodies, the graph builder it rests on, the event buses and the two protocols built on them,
the Kafka trigger, version history, the two secret vaults, evaluation scoring, and the
bracket search used to find JSON in model output. Every claim is a `lemma` or the `ensures`
of a method.

## How the model is laid out

- **Graph.** `Workflow`, `Graph`, `Dag` hold nodes, edges, paths and counts. `TopoSort`,
  `Closures` and `DagBuild` are the builder in its imperative form: three-colour traversal,
  ancestor walk, loop-body queue, validation; `Closures` also holds the editor's versions.
- **Scheduler.** `Scheduler` is the supervisor as a state machine over values. A flight is a
  dispatched goroutine; a step lets any flight read its upstream data, or hands the result of
  any flight that has read to the supervisor. `IsRun` ranges over every sequence of such
  steps, `After` is the state it leads to, and results are arbitrary unless a handler is
  named. `SchedulerInvariant`, `SchedulerSteps` and `LoopSteps` prove the step invariant,
  `LoopBound` the bound and termination, `LoopFree`, `Completion`, `Sequential` and
  `Confluence` the loop-free theorems. `Reading` says what a node reads, `Conditional` which of
  the nodes behind a branching node run, and `Reports` what a run records and returns, each in
  terms of the graph and of the steps of the run. `Supervisor` is the implementation with its
  mutable maps, proved to take exactly the machine's steps, and `Context` the execution
  context it keeps its outputs in.
- **Loops.** `LoopCauses` says why a node is dispatched or skipped, `LoopSure` which body nodes
  run in every pass, `LoopIsolation` and `LoopPasses` what a pass is, `LoopExit` what happens
  behind the exit edges, `LoopCompletion` what is left at the end of a run, and `LoopStalls`
  which graphs always run to their end. Independence of the order with loops is a diamond
  argument in four steps: `Delivery` (signals may be delivered in any order), `Landings` (a
  result may land before or after signals under way), `Diamond` and `StepsCommute` (any two
  steps commute), `LoopConfluence` (whole runs). `LoopMeaning` is the one-at-a-time meaning of
  a workflow with a loop; `LoopSimulation` follows it turn by turn with one run, and
  `LoopOutcome` concludes for all runs. `LoopController` is the shipped controller and what a
  run with it comes to. `LoopExample` builds the smallest loop and takes it past its first
  pass and to the end of its passes, `StallExample` two loops that stall, so that the
  hypotheses of the loop theorems are seen to be met.
- **Streams.** `EventBus` is the bus as a machine over values, `EventHub` the class that
  implements it, `RunProtocol` the engine's persist, announce, close order, `EvalStream` the
  evaluation handler's subscribe, then read status order. In both, other users of the bus may
  act between any two steps.
- **Kafka.** `Kafka` holds the consumer loops and the machine they implement.
- **Storage and secrets.** `Tables` is how a definition is written to and read from the node,
  edge and configuration tables; `Versions` and `VersionStore` the version history; `Crypto`
  the nonce-first cipher layout; `ConfigVault`, `VaultRounds` and `VaultLoops` the
  configuration vault, `VaultReadBack` what a client reads back of what it sent, `VaultHistory` the vault together with the version history;
  `GraderVault` the vault for grader API keys.
- **Evaluation.** `Scoring` is verdicts, tallies and the browser's live counts; `Brackets` the
  backward bracket search.

## Hypotheses

- `Built` is what `DagBuild.Build` establishes when node ids are distinct. `NoReservedIds`
  says no node is called `_initial` or `_loop_state`.
- `Runnable` adds, for a graph with a loop, what the builder does not check: every forward
  predecessor of a body node is the controller or a body node, every forward successor of a
  body node is a body node, every loop-back edge starts in the body, every body node without
  forward successor has a loop-back edge, and `max_iterations` is at least 1.
- `Sure` says that edges without labels lead to a body node from one that every pass dispatches,
  so that it runs in every pass; without labels in the body every body node is sure to run.
  `Assured` says that the body of a loop is not empty and that every source of a loop-back
  edge is sure to run. Both are read off the graph. `Assured` is needed only where a theorem
  says that a loop comes to its end, and `LoopStalls.StallsExactly` shows that it is needed.
- Handlers are arbitrary; where a theorem needs determinism, `Handler` is a function of the
  node and of the data it read, and `Obeys` asks the received results to follow it up to the
  first failure (a failure cancels the other flights, so anything may follow it).
- GCM, base64 and text encoding are abstract functions of which only the laws in `Crypto` are
  used: sealing adds a 16-byte tag (section 7.1 of NIST SP 800-38D), opening undoes sealing,
  base64 decoding undoes encoding (section 4 of RFC 4648). `Crypto.LawsCanBeMet` shows the
  laws consistent.

## What does not hold

- The comment at backend/internal/engine/runner.go:37-38 says the exit branch fires when
  `max_iterations` is reached. The engine does not do that. `LoopExit.ExitFires` shows for
  every run that the exit edges of a controller that left its loop are live iff its last
  action was `exit`, and that the engine overrules the controller only in starting no further
  pass. The shipped handler does answer `exit` at the cap
  (backend/internal/node/builtin/loop_controller/handler.go:79-85), so
  `LoopController.LeavesByExit` holds of it; a mocked controller bypasses its handler
  (backend/internal/engine/runner.go:405-415) and may answer `loop_body` for ever.
  `LoopExample.CapUsedUp` gives that run: what lies behind the loop is skipped, and the run
  succeeds with the output of the loop body.
- A loop can stall: the run ends, without an error, while the loop still waits for a loop-back
  edge. A graph never stalls if and only if its loop is `Assured`: `LoopStalls.StallsExactly`
  shows both directions, `LoopCompletion.StallIsFinal` that nothing ends a stall. The builder
  accepts graphs that are not: `StallExample.SilentEnd` gives a run in which both edges of the
  controller lead to the same node and which succeeds with no output,
  `StallExample.BranchStalls` one in which the loop-back edge is behind a label and which is
  reported as if every sink had been suppressed.
- A stream handler can wait for ever if the final status write fails and it reads the status
  after it, or if its buffer is full when the end is announced, the write having succeeded:
  `EvalStream.FailedWriteLosesTheEnd` and `EvalStream.FullBufferLosesTheEnd` give the runs,
  `EvalStream.Stream.ToldIffReached` the exact condition.
- The comment at backend/internal/eval/runner.go:245-247 says that the store always shows the
  final status once the events are drained. `RunProtocol.ReadAfterDrain` shows that it does
  exactly when the status write succeeded, and that otherwise it never will.
- `EncryptValue` is not idempotent on the empty string, whose ciphertext has 28 bytes:
  `GraderVault.Vault.EncryptValueTwice` states exactly that. `EncryptGraders` leaves empty
  keys alone and is idempotent without exception.
- A case without graders passes as a smoke test, and becomes an error when its only grader
  errors: `Scoring.ErrorIsNeutral` states when an erring grader changes nothing.
- Connecting a loop controller to itself in the editor makes the forward graph cyclic;
  `Closures.OnConnect` shows that this is the only such connection into a controller, and
  that the second of the editor's two checks never adds anything to the first.

## Model

| member | source | states |
|---|---|---|
| Confluence.ScheduleIndependence | backend/internal/engine/runner.go:107-212 | every finished run of a loop-free workflow, in whatever order results arrive, fails exactly when some node fails in the one-at-a-time evaluation, and otherwise executed, skipped, output and returned exactly what that evaluation does |
| Confluence.OrderIsIrrelevant | backend/internal/engine/runner.go:138-212 | any two finished runs agree on failing, and if they do not fail on executed and skipped nodes, all outputs and the report |
| LoopConfluence.OneOutcome | backend/internal/engine/runner.go:138-212 | with loops and labels in the body, and deterministic handlers: if one complete run has no error then no run has one, none is longer, and all complete runs end in the same state, passes, results, skipped nodes and outputs included |
| LoopConfluence.AnyOrder | backend/internal/engine/runner.go:138-212 | any two complete runs agree on failing, and if they do not fail on the whole state and the report |
| LoopOutcome.RunsMeanThis | backend/internal/engine/runner.go:39-213 | with loops, stalls and labels in the body, and deterministic handlers: every complete run has an error if the one-at-a-time meaning has one, and otherwise ends with its outputs, executed and skipped nodes and passes, and returns its report |
| LoopOutcome.MeaningsAgree | backend/internal/engine/runner.go:170-182 | without a loop that meaning is the one-at-a-time evaluation, failures and report included |
| StepsCommute.Commutes | backend/internal/engine/runner.go:138-195 | in every state of an error-free run, two steps of different flights, reads or results, a controller's included, can be taken in either order and lead to the same state |
| Delivery.Permuted | backend/internal/engine/runner.go:107-129 | what the routing and the recursive suppression lead to does not depend on the order of the edges |
| Confluence.AncestorSettled | backend/internal/engine/dag.go:212-233 | when a node has been dispatched every transitive ancestor has settled, so reading upstream data early or late makes no difference |
| Confluence.ReadsSequentialInputs | backend/internal/engine/context.go:29-43 | what a dispatched node reads is what the one-at-a-time evaluation gives it |
| Reading.NodesRead | backend/internal/engine/context.go:29-43 | in every run of every built graph, failures and ill-formed loops included, a node in flight holds, key by key, the initial data, the latest output of every node with a path to it that had succeeded when it read, for a controller that has started a pass also the number of passes and the latest outputs of its body, and nothing else |
| Reading.RunStores | backend/internal/engine/runner.go:53-57 | in every run the initial data, the number of passes and each node's latest output are stored, and nothing else |
| Conditional.ConditionalRouting | backend/internal/engine/runner.go:302-322 | once a node outside the loop has succeeded, the target of its edge, if entered by that edge only, has been dispatched once or else skipped: dispatched without a label, with a label iff it is the text of matched_rule, or failing that iff result is true and the label "true" or result is false and the label another |
| Conditional.TrueOrFalse | backend/internal/engine/runner.go:318-320 | the answer true dispatches the node behind the "true" edge and skips the one behind the "false" edge, the answer false the other way round |
| Conditional.Decided | backend/internal/engine/runner.go:107-129 | in every run, failures included, once all edges into a node outside the loop have reported it was dispatched exactly once if some routed edge into it fires, and otherwise skipped and never dispatched |
| Reports.FailedReport | backend/internal/engine/runner.go:197-199 | a failed run, of any graph, returns no output, the error of the first failure received, and of exactly the nodes that handed over a result the last one |
| Reports.CleanReport | backend/internal/engine/runner.go:200-212 | a run without failures returns the latest output of exactly the sinks that have succeeded, the last result of every node, and the suppression error iff there is no such sink and one was skipped |
| Reports.RunRecords | backend/internal/engine/runner.go:142-155 | after any steps the recorded results are the last ones handed over, and the error is that of the first failure |
| Sequential.MeaningConsistent | backend/internal/engine/runner.go:170-182 | the one-at-a-time evaluation is a consistent whole: a node is triggered iff it is a root or an allowed edge from an executed node leads to it, and then says what its handler answers to its ancestors' final outputs |
| LoopBound.DispatchBound | backend/internal/engine/runner.go:83-88 | for every well-formed loop, every behaviour and every order, dispatches and unread results never exceed the channel capacity, so no send blocks |
| LoopBound.CapacityIs | backend/internal/engine/runner.go:327-338 | the capacity is the number of nodes, plus for a controller its cap times one more than the size of its body, and at least 1 |
| LoopBound.RunsAreFinite | backend/internal/engine/runner.go:138-195 | no run is longer than twice the capacity, and a run can go on exactly while something is in flight |
| LoopIsolation.IterationIsolation | backend/internal/engine/runner.go:233-281 | whenever the controller is in flight with k executions behind it, no body node is in flight, each was dispatched and completed at most k times, and exactly k times if edges without labels lead to it, and for k >= 1 the controller reads iteration k and each body node's latest output |
| LoopIsolation.ControllerRunsAlone | backend/internal/engine/runner.go:184-194 | with branch labels in the body and failures allowed, nothing of the body is in flight while the controller is, and the controller is in flight once |
| LoopPasses.OncePerPass | backend/internal/engine/runner.go:256-281 | as long as no pass is started, every node is dispatched at most once, failures and labels included |
| LoopPasses.PassStarts | backend/internal/engine/runner.go:220-281 | a received result starts a pass exactly if it is a success of a controller before any failure, its action is "loop_body" and the cap is not reached; the pass dispatches every body node that no body edge leads to, once, and nothing else; any other success of a controller is the one its edges are routed by |
| LoopPasses.PassIsLeast | backend/internal/engine/runner.go:170-182 | after a pass every body node was executed or skipped in it, and the executed ones are the least set closed under the nodes every pass dispatches and allowed body edges |
| LoopCauses.RunWhy | backend/internal/engine/runner.go:63-77 | in every run with a loop, the live flag of a node holds iff it is dispatched by every pass or a routed in-edge was allowed, a dispatched node is a root or has the flag, and a skipped one has not |
| LoopExit.ExitFires | backend/internal/engine/runner.go:283-290 | once the controller has left its loop, a node entered by exit edges only was dispatched, once, iff the last action was exit, and skipped otherwise; a last action loop_body means that the passes were used up |
| LoopStalls.StallsExactly | backend/internal/engine/runner.go:184-195 | every run that comes to rest without an error has executed or skipped every node, whatever the nodes answer, if and only if the loop body is not empty and edges without labels lead to every source of a loop-back edge from a node that every pass dispatches |
| LoopStalls.NeverStalled | backend/internal/engine/runner.go:184-195 | no state of any run of such a graph, failed runs included, is stalled |
| LoopCompletion.StallCause | backend/internal/engine/runner.go:184-195 | an error-free run at rest has executed or skipped every node unless the loop is not over, and then its body is empty or the source of a loop-back edge was skipped in this pass |
| LoopCompletion.StallIsFinal | backend/internal/engine/runner.go:184-195 | such a loop never starts another pass and is never left, whatever else happens |
| LoopStalls.LoopCompletes | backend/internal/engine/runner.go:233-281 | an error-free run at rest of such a graph has left the loop and executed or skipped every node |
| LoopController.LeavesByExit | backend/internal/node/builtin/loop_controller/handler.go:70-106 | in every error-free run the shipped controller runs at most max_iterations + 1 times; once it has left the loop the number of passes is the least k at which the exit condition holds of the data it read on execution k + 1, or max_iterations if there is none; it has answered exit, with k and with which of the two was the reason, and the nodes behind the loop are dispatched once |
| LoopController.LoopRunsItsCourse | backend/internal/node/builtin/loop_controller/handler.go:18-36 | when such a run comes to rest, on a graph that cannot stall, the controller was skipped, or left with exit after the k passes just described, having run k + 1 times, each body node at most k times and each that is sure to run k times |
| LoopController.RequiredCap | backend/internal/node/builtin/loop_controller/handler.go:163-178 | the cap the handler reads, if it can, is the one the engine counts to |
| LoopController.HandlerFails | backend/internal/node/builtin/loop_controller/handler.go:70-100 | the handler fails exactly when the cap is missing or no number, or when the cap is not reached and the exit condition cannot be evaluated |
| StallExample.SilentEnd | backend/internal/engine/runner.go:256-281 | a controller that asks for a pass over an empty body ends the run with the node behind it neither executed nor skipped, no output and no error |
| StallExample.BuildPair | backend/internal/engine/dag.go:119-139 | the builder accepts a controller whose two labelled edges lead to the same node |
| StallExample.PairIsRunnable | backend/internal/engine/dag.go:178-210 | the loop theorems cover that graph, whose loop body is empty |
| StallExample.BuildFork | backend/internal/engine/dag.go:48-142 | the builder accepts a loop whose loop-back edge is behind a label |
| StallExample.BranchStalls | backend/internal/engine/runner.go:170-194 | that graph has a run that stalls because the source of the loop-back edge is skipped: it never runs, the node behind the loop is neither executed nor skipped, and the report says that every sink was suppressed |
| LoopExample.BuildExample | backend/internal/engine/dag.go:48-142 | the builder accepts a controller that allows one pass, one body node and one exit node |
| LoopExample.SecondTurn | backend/internal/engine/runner.go:233-281 | that graph has a run in which the controller is in flight after one pass and isolation holds for that pass |
| LoopExample.CapUsedUp | backend/internal/engine/runner.go:405-415 | that graph has a run in which the one pass is used up and the controller asks for another: nothing is launched, the exit node is skipped, and the report holds the output of the body and no error |
| LoopSteps.RunKeeps | backend/internal/engine/runner.go:138-195 | the step invariant over every run, loops included |
| LoopSteps.BodyRests | backend/internal/engine/runner.go:263-271 | when the controller is due again every body node has settled and none is in flight |
| Completion.StepInvariant | backend/internal/engine/runner.go:63-77 | in every reachable state of a loop-free run, failures and parallel edges included, a counter is the number of in-edges not yet routed, the live flag holds iff a routed in-edge was allowed, nothing is dispatched twice or both dispatched and skipped |
| Completion.NothingAfterFailure | backend/internal/engine/runner.go:142-159 | after the first error is received nothing is dispatched or skipped and the first error stays, on any graph |
| Completion.FailureCausality | backend/internal/engine/runner.go:138-159 | each forward predecessor of a recorded node is recorded as succeeded or skipped |
| Completion.RecordedIsDispatched | backend/internal/engine/runner.go:99-105 | at the end exactly the dispatched nodes have a recorded result |
| Completion.Completeness | backend/internal/engine/runner.go:107-136 | at the end of an error-free run every node was executed exactly once or skipped, and the executed set is the least one closed under roots and allowed edges |
| Completion.ReturnedSinks | backend/internal/engine/runner.go:197-212 | the suppression error is returned exactly when every sink was skipped, otherwise the output keys are exactly the executed sinks |
| SupervisorImpl.RunDag | backend/internal/engine/runner.go:39-213 | the supervisor terminates with the report of a complete run, which is the one-at-a-time report, with loops or without, unless that fails, and which every other complete run returns too |
| SupervisorImpl.OutcomeIsMeant | backend/internal/engine/runner.go:138-212 | whatever a complete run returns is the report of the one-at-a-time meaning, or an error if that has one |
| SupervisorImpl.OutcomeIsUnique | backend/internal/engine/runner.go:138-212 | whatever a run can return, with loops or without, it is always the same report or always an error |
| SupervisorImpl.Drive | backend/internal/engine/runner.go:138-195 | the receive loop terminates whichever flight moves next |
| SupervisorImpl.Supervisor.PropagateSkip | backend/internal/engine/runner.go:113-129 | recursive suppression is delivery of one suppressed signal and of all it sends on |
| SupervisorImpl.Supervisor.SuppressOut | backend/internal/engine/runner.go:125-128 | a skipped node suppresses each of its out-edges in order |
| SupervisorImpl.Supervisor.Begin | backend/internal/engine/runner.go:131-136 | the roots are dispatched, in any order |
| SupervisorImpl.Supervisor.RouteOut | backend/internal/engine/runner.go:170-182 | out-edges are delivered in order, live when allowed and suppressed when not |
| SupervisorImpl.Supervisor.RouteBack | backend/internal/engine/runner.go:184-194 | loop-back edges of the node are delivered in order |
| SupervisorImpl.Supervisor.CountBodyInternalPredecessors | backend/internal/engine/runner.go:358-366 | the number of predecessors inside the body |
| SupervisorImpl.Supervisor.CountLoopBack | backend/internal/engine/runner.go:265-271 | the number of loop-back edges into the controller |
| SupervisorImpl.Supervisor.Publish | backend/internal/engine/runner.go:234-254 | the pass number is stored and it and the body become visible to the controller |
| SupervisorImpl.Supervisor.ResetLoop | backend/internal/engine/runner.go:256-271 | the counters and flags of the body and the counter of the controller are reset |
| SupervisorImpl.Supervisor.HandleLoopIteration | backend/internal/engine/runner.go:220-290 | starts a pass exactly when the controller asks for one and the cap allows it, otherwise marks the body skipped |
| SupervisorImpl.Supervisor.Take | backend/internal/engine/runner.go:138-195 | one turn of the loop is one receive step of the machine |
| SupervisorImpl.Supervisor.Book | backend/internal/engine/runner.go:142-159 | results and the first error are recorded |
| SupervisorImpl.Supervisor.ReadUpstream | backend/internal/engine/runner.go:431-435 | a goroutine reads its upstream data as one step |
| SupervisorImpl.ComputeMaxDispatches | backend/internal/engine/runner.go:327-338 | the sum over the loops, in any order, at least 1 |
| SupervisorImpl.Conclude | backend/internal/engine/runner.go:197-212 | the report of the final state |
| Context.ExecutionContext.Set | backend/internal/engine/context.go:17-21 | one output replaced, all others kept |
| Context.ExecutionContext.MergeUpstream | backend/internal/engine/context.go:29-43 | key by key: the initial data when there is any, the outputs of the given ancestors that have one, and nothing else |
| Context.ExecutionContext.SinkOutputs | backend/internal/engine/context.go:46-59 | key by key: exactly the outputs of the nodes without successors that have one |
| Workflow.BothBranchesFire | backend/internal/engine/runner.go:302-322 | the one situation in which two differently labelled edges fire together |
| Workflow.WhichEdgesFire | backend/internal/engine/runner.go:302-322 | exactly when one edge fires, by what its source is and has answered: always without a label; behind a controller iff the action is the label; else iff matched_rule is the label, or failing that iff a boolean result agrees with the label being "true" |
| Workflow.MaxIterations | backend/internal/engine/runner.go:340-353 | the cap is the number configured, a float truncated toward zero, and 10 when it is missing or no number |
| TopoSort.Sort | backend/internal/engine/dag.go:245-295 | succeeds exactly on acyclic graphs, with a duplicate-free listing of the nodes in which every edge points later; otherwise reports a cycle |
| TopoSort.Traversal.Visit | backend/internal/engine/dag.go:255-272 | a visit finishes its node, extends the finishing order and restores the grey path, or has met a cycle |
| TopoSort.Reverse | backend/internal/engine/dag.go:289-292 | swapping from both ends reverses |
| Closures.CollectAncestors | backend/internal/engine/dag.go:215-233 | exactly the transitive predecessors |
| Closures.GetAncestors | frontend/src/stores/useWorkflowStore.ts:312-326 | exactly the transitive predecessors along forward edges, the engine's answer |
| Closures.ComputeLoopBodyNodes | backend/internal/engine/dag.go:178-210 | exactly the nodes reached from loop_body targets by paths that avoid the controller and its other targets |
| Closures.GetLoopBodyDescendants | frontend/src/stores/useWorkflowStore.ts:331-349 | exactly what the first loop_body edge leads to |
| Closures.AddEdgeAcyclic | frontend/src/stores/useWorkflowStore.ts:142-151 | a new edge closes a cycle iff it is a self-loop or its target already leads to its source |
| Closures.OnConnect | frontend/src/stores/useWorkflowStore.ts:138-162 | an edge is marked loop-back iff it enters a controller that already leads to its source; connecting any other node into a controller keeps the forward graph acyclic |
| DagBuild.ValidateLoopConstraints | backend/internal/engine/dag.go:145-170 | accepts exactly at most one controller and unlabelled loop-back edges into it |
| DagBuild.ValidateControllers | backend/internal/engine/dag.go:119-139 | accepts exactly when every controller has a loop_body and an exit edge |
| DagBuild.Build | backend/internal/engine/dag.go:48-142 | succeeds exactly when at most one node is a loop.controller, every edge joins listed nodes, loop-back edges have no label and lead to the controller, the other edges form no cycle, and a controller has an edge labelled loop_body and one labelled exit; with distinct ids yields exact adjacency, order, ancestors and loop bodies |
| EventBus.HistorySafe | backend/internal/engine/event.go:45-83 | over every sequence of operations only open channels are registered, each once, and nothing is sent to a closed channel |
| EventBus.Delivery | backend/internal/engine/event.go:70-83 | a subscriber has been sent an in-order part of what was published to its run while it was subscribed, all of it if its buffer was never full |
| EventBus.PublishReaches | backend/internal/engine/event.go:45-83 | an event reaches every open channel of its run that holds fewer than 256, is dropped for those that are full, and leaves every other channel alone |
| EventHub.Hub.Join | backend/internal/engine/event.go:45-50 | subscribing is the machine's subscribe step and keeps the bus safe |
| EventHub.Hub.Send | backend/internal/engine/event.go:74-83 | the send loop is the machine's publish step and keeps the bus safe |
| EventHub.Hub.Leave | backend/internal/engine/event.go:52-66 | the search, removal and close are the machine's cleanup step and keep the bus safe |
| RunProtocol.PersistedBeforeKnown | backend/internal/engine/engine.go:99-145 | when the handle's channel is closed, or any subscriber of the run has accepted a terminal event, both store writes were attempted; a status write that succeeded has left failed for a failed run and succeeded for any other, one that did not the running status; the node results are there iff their write succeeded; the event tells how the run ended, and a closed handle was offered it |
| RunProtocol.ReadAfterDrain | backend/internal/eval/runner.go:245-260 | from the close of the handle's channel on the stored status does not change: failed or succeeded as the run was, if the status write succeeded, and running otherwise |
| RunProtocol.EndsOnce | backend/internal/engine/engine.go:111-130 | whether the run failed is what its execution returned, and does not change afterwards |
| EvalStream.Stream.NoLostEnd | backend/internal/eval/ws_handler.go:41-60 | in every interleaving, after the announcement a waiting handler has the end event in its channel exactly if it was subscribed in time and had room, after a successful write it always was in time, and the event says completed iff the write succeeded |
| EvalStream.Stream.ToldIffReached | backend/internal/eval/ws_handler.go:101-116 | a waiting handler can still be told iff its channel was open and had room at the announcement |
| EvalStream.Stream.BacklogDrains | backend/internal/eval/ws_handler.go:101-116 | k + 1 receives reach an end event at position k |
| EvalStream.Stream.StaysSilent | backend/internal/eval/event.go:81-97 | a waiting handler without the end event after the announcement is never told, whatever happens |
| EvalStream.FailedWriteLosesTheEnd | backend/internal/eval/runner.go:182-201 | the run in which a failed write leaves a late handler waiting for ever |
| EvalStream.FullBufferLosesTheEnd | backend/internal/eval/event.go:81-97 | the run in which a buffer that is full at the announcement leaves a handler that connected in time waiting for ever, after a successful write |
| Kafka.AtLeastOnce | backend/internal/trigger/kafka.go:101-144 | over every run of failures and reconnects every offset below the committed one was dispatched successfully, and nothing was passed over |
| Kafka.CommitsOnlyGrow | backend/internal/trigger/kafka.go:136-142 | the committed offset never moves back |
| Kafka.ExactlyOnce | backend/internal/trigger/kafka.go:101-144 | no message is dispatched twice iff no failed commit is directly followed by a reconnect and later by a dispatch; without failed commits the offsets are 0, 1, 2, ... and all are committed |
| Kafka.BackoffDoubles | backend/internal/trigger/kafka.go:112-135 | the wait is 2 to the number of failures in a row, capped at 30 seconds and never below 1 |
| Kafka.Consumer.Consume | backend/internal/trigger/kafka.go:101-144 | the consume loop takes the machine's steps until an error or cancellation |
| Kafka.Consumer.Run | backend/internal/trigger/kafka.go:78-96 | the reconnect loop takes the machine's steps to the end |
| Tables.InsertConfigs | backend/internal/store/mysql/workflow_store.go:571-599 | succeeds exactly when every sensitive value is a ciphertext |
| Tables.InsertNodes | backend/internal/store/mysql/workflow_store.go:528-569 | succeeds exactly when ids are unique and sensitive values are ciphertexts, with one row per node |
| Tables.InsertEdges | backend/internal/store/mysql/workflow_store.go:601-620 | succeeds exactly when edge ids are unique |
| Tables.WriteDefinition | backend/internal/store/mysql/workflow_store.go:511-526 | replaces everything or fails |
| Tables.LoadAfterInsert | backend/internal/store/mysql/workflow_store.go:689-733 | reading back gives the ciphertexts bit for bit, what JSON makes of the rest and the retry policy with its default, and writing that again changes nothing |
| Versions.ReviveCapture | backend/internal/store/mysql/workflow_version_store.go:45-117 | a node comes back from its snapshot iff everything marked sensitive was a ciphertext |
| Versions.ReviveCaptureAll | backend/internal/store/mysql/workflow_version_store.go:45-117 | a definition the tables accept comes back as one with the same rows and the same snapshot |
| Versions.NumberedAlways | backend/internal/store/mysql/workflow_version_store.go:121-150 | over every sequence of writes, snapshots, restores and purges the versions of a workflow are numbered exactly from 1 to the number of snapshots and of restores that went through since the last purge |
| Versions.VersionsStay | backend/internal/store/mysql/workflow_version_store.go:124-150 | a version never changes until its history is purged |
| Versions.RestoreIsExact | backend/internal/store/mysql/workflow_version_store.go:267-338 | restoring a version makes the live rows those of the captured definition, ciphertexts included, appends the same snapshot as the next version, and changes nothing else |
| Versions.RestoreBringsBack | backend/internal/store/mysql/workflow_version_store.go:267-338 | whatever happened since a definition was recorded, restoring its version brings its rows back |
| VersionStore.WorkflowToSnapshot | backend/internal/store/mysql/workflow_version_store.go:45-70 | the loop captures every node in order |
| VersionStore.SnapshotToWorkflow | backend/internal/store/mysql/workflow_version_store.go:75-117 | fails exactly when a sensitive value is not base64 text |
| VersionStore.Store.MaxVersion | backend/internal/store/mysql/workflow_version_store.go:132-136 | the largest number in use |
| VersionStore.Store.CreateWorkflowVersion | backend/internal/store/mysql/workflow_version_store.go:156-168 | one record transaction, or no change when the database fails |
| VersionStore.Store.RestoreWorkflowVersion | backend/internal/store/mysql/workflow_version_store.go:267-338 | one restore transaction, with its exact conditions, not found and a failing database included |
| Crypto.Cipher.DecryptEncrypt | backend/internal/crypto/encrypt.go:28-69 | a ciphertext is the 12 bytes of the nonce and then what was sealed under it, 28 bytes more than the plaintext, and decryption undoes encryption |
| Crypto.Cipher.TextRoundTrip | backend/internal/crypto/encrypt.go:28-69 | the same for texts; at least 29 bytes exactly for non-empty ones |
| ConfigVault.Vault.RoundExact | backend/internal/crypto/config_vault.go:222-269 | for any registry, a masked round leaves every decrypted value of a node iff each sealed key is still declared sensitive (or its secret is the mask) and no plain mask sits under a key declared sensitive |
| ConfigVault.Vault.RoundKeepsRow | backend/internal/crypto/config_vault.go:222-269 | with an unchanged registry a round cannot fail, encrypts nothing and keeps the row bit for bit |
| ConfigVault.Vault.UpdateSeals | backend/internal/crypto/config_vault.go:222-269 | whatever a client sends, what is stored is sealed, in step with the registry, and every secret is the stored ciphertext or an encryption of what was sent; an update never encrypts the mask; under keys that are not sensitive exactly what was sent is stored |
| VaultReadBack.UpdateReadsBack | backend/internal/crypto/config_vault.go:188-269 | after every update of healthy tables each node, loaded and decrypted, shows under every key exactly what was sent, except that the mask under a sensitive key shows the secret that was there before, or nothing; exactly the texts under sensitive keys are stored as ciphertexts, those for the mask bit for bit as before; type, retry policy, header, edges and the set of nodes are as sent |
| VaultReadBack.CreateReadsBack | backend/internal/crypto/config_vault.go:144-160 | the same after a create, where the mask is a text like any other |
| VaultReadBack.UpdateGoesThrough | backend/internal/crypto/config_vault.go:217-269 | an update goes through exactly if no node id and no edge id repeats and the random source does not fail for a text under a sensitive key other than the mask |
| VaultReadBack.CreateGoesThrough | backend/internal/crypto/config_vault.go:144-160 | the same for a create, the mask included |
| VaultRounds.UpdatesStayHealthy | backend/internal/crypto/config_vault.go:188-216 | every update leaves readable tables that agree with the registry |
| VaultRounds.CreatesHealthy | backend/internal/crypto/config_vault.go:144-160 | a create leaves readable tables that agree with the registry |
| VaultHistory.AlwaysHealthy | backend/internal/crypto/config_vault.go:144-216 | over every sequence of creates, updates, restores and purges, recorded or not, every live table is readable and agrees with the registry, and every version can be restored to such a table |
| VaultHistory.RestoreAndEcho | backend/internal/crypto/config_vault.go:313-322 | after any such sequence every version of a live workflow can be restored, and a masked round of any live workflow, restored or not, changes nothing |
| VaultRounds.EchoChangesNothing | backend/internal/crypto/config_vault.go:188-216 | sending back what was read, masked, always goes through and changes no table |
| VaultRounds.RoundsChangeNothing | backend/internal/crypto/config_vault.go:165-216 | any number of masked rounds changes no table |
| VaultLoops.ProtectNode | backend/internal/crypto/config_vault.go:222-269 | the key loop, in any key order, makes of every secret a ciphertext that decrypts to it, of the mask of an update the stored ciphertext or nothing, and changes no other value; it fails exactly when the random source fails for a secret other than that mask |
| VaultLoops.EncryptNodes | backend/internal/crypto/config_vault.go:473-502 | every node is sealed in place, for creates and for updates |
| VaultLoops.DecryptNodes | backend/internal/crypto/config_vault.go:508-532 | every node is opened in place; fails exactly when a ciphertext does not decrypt |
| VaultLoops.MaskSensitiveConfig | backend/internal/api/workflow_handler.go:304-315 | every present sensitive value becomes "***", nothing else changes |
| VaultLoops.UpdateWorkflow | backend/internal/crypto/config_vault.go:188-205 | not found for an unknown workflow; otherwise goes through exactly when no id repeats and the random source does not fail, changes no other workflow, and leaves in healthy tables what the request sent, as read back key by key |
| GraderVault.Vault.EncryptTwice | backend/internal/eval/vault.go:40-75 | encrypting twice equals encrypting once, and leaves no readable key |
| GraderVault.Vault.DecryptUndoes | backend/internal/eval/vault.go:80-108 | decryption gives the graders back iff none of their keys looked encrypted |
| GraderVault.Vault.EncryptsKeyOnly | backend/internal/eval/vault.go:40-75 | only a text under api_key of an llm_judge or checklist that is not empty, not the mask and not encrypted already is replaced, by "enc:" and the base64 of a ciphertext that decrypts to it; without a nonce that fails |
| GraderVault.Vault.DecryptsPrefixedOnly | backend/internal/eval/vault.go:80-108 | a key behind "enc:" is decoded and decrypted, or that fails; nothing else changes |
| GraderVault.Vault.EncryptValueTwice | backend/internal/eval/vault.go:132-144 | idempotent exactly on non-empty values |
| GraderVault.Vault.DecryptValueUndoes | backend/internal/eval/vault.go:148-161 | inverse exactly on values that did not look encrypted |
| GraderVault.Vault.EncryptGraders | backend/internal/eval/vault.go:40-75 | the loop encrypts each grader, failing exactly when one encryption fails |
| GraderVault.Vault.DecryptGraders | backend/internal/eval/vault.go:80-108 | the loop decrypts each grader, failing exactly when a prefixed key does not decode or decrypt |
| Scoring.ErrorIsNeutral | backend/internal/eval/runner.go:343-364 | an erring grader changes nothing iff the case has another grader or its run failed |
| Scoring.PassIsMonotone | backend/internal/eval/runner.go:343-364 | turning a fail into a pass never loses a pass |
| Scoring.Drain | backend/internal/eval/runner.go:245-257 | each captured node has the output of its last success |
| Scoring.EvaluateGraders | backend/internal/eval/runner.go:285-341 | one verdict per grader, in order, with the exact error cases |
| Scoring.VerdictHasMeaning | backend/internal/eval/runner.go:245-341 | a grader with a node grades the output of that node's last success, one without a node the final output of a run that did not fail; with nothing to grade, or no grader, the verdict is an error |
| Scoring.ExecuteTestCase | backend/internal/eval/runner.go:205-379 | a run that did not end or failed, and a case all of whose graders err, is an error and does not pass; else a case without graders passes, and one with graders iff the number of passes is at least the threshold times the number of verdicts that are no errors; in particular if no verdict is a fail and the threshold is at most 1 |
| Scoring.Tally | backend/internal/eval/runner.go:170-180 | every position of the outcomes is counted once, as an error, else as passed, else as failed |
| Scoring.RunCases | backend/internal/eval/runner.go:112-182 | every case is scored as above, and the tally counts the positions that passed and those that are errors |
| Scoring.LiveErrorAgrees | frontend/src/pages/EvalRunDetailPage.tsx:131-133 | the browser tells errors exactly as the server does |
| Scoring.LiveCountsAgree | frontend/src/pages/EvalRunDetailPage.tsx:131-136 | in whatever order results arrive the live counts never exceed the tally, and equal it once all have arrived |
| Brackets.ExtractJson | backend/internal/eval/graders/llm_judge.go:118-136 | for every preamble, group and trailer without closing brace, exactly the group; otherwise the text |
| Brackets.ExtractJsonArray | backend/internal/eval/graders/checklist.go:160-178 | the same for square brackets |
| Brackets.LastGroupUnique | backend/internal/eval/graders/llm_judge.go:118-136 | at most one group ends with the last closing bracket |

## Left out

- Node handlers other than the loop controller, expression and template languages and output parsers: a handler is an arbitrary function or an arbitrary result, and so is the evaluation of an exit condition.
- Retries and back-off of nodes: folded into the one result a dispatched node sends.
- Go's memory model, cancellation and time-outs: every supervisor step, publication and transaction is atomic.
- AES-GCM, base64, JSON and SQL: abstract codecs and maps; JSON is modelled only where it changes a value (bytes become base64 text, whole numbers floats, empty configurations disappear).
- Loops that are not well formed: no claim beyond what holds of any graph (`Completion.NothingAfterFailure`, `Reading.NodesRead`, `Reports.FailedReport`, `Reports.CleanReport`).
- Duplicate node ids in a workflow: the builder is modelled, but its exactness is claimed for distinct ids.
- DagBuild.Build: the order of sorted slices (ancestors, traversal start) is modelled as sets and as any listing of the ids, so results hold for every order.
- Closures.OnConnect: React Flow's own removal of duplicate edges is not modelled.
- RunProtocol and EvalStream: the store reads and writes of a run's own record are one step each; other writers of the same status are not modelled.
- The live stream of ordinary workflow runs, which reads the status before it subscribes: the no-lost-end theorem is not claimed for it.
- Kafka.AtLeastOnce: one partition with one consumer; rebalancing and log truncation are not modelled.
- Tables.LoadAfterInsert: label, position and output parsers are one field, and the order of rows is not modelled.
- VersionStore.Store.RestoreWorkflowVersion: which statement of a transaction the database fails at is not modelled; a failure is one parameter and rolls everything back.
- The SMTP password path of the configuration vault: a prefix check only.
- Scoring.PassIsMonotone: floating-point rounding of pass rates; rates are exact rationals.
- Scoring.ExecuteTestCase: the same; at the threshold the comparison is that of exact rationals.
- Conditional.ConditionalRouting: branch labels inside a loop body, where a node may be dispatched once in every pass; `LoopPasses.PassIsLeast` covers them.
- HTTP handlers, authentication, organisations, plugins, e-mail, cron and SQS triggers, retrieval, and the user interface.
