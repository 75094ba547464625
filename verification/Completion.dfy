/** What holds of every loop-free run: the step invariant, failure causality, and what
    is executed, skipped and returned once nothing is in flight. */
module Completion {
  import opened Workflow
  import opened Graph
  import opened DagModel
  import opened Scheduler
  import opened SchedulerInvariant
  import opened LoopFree

  // ---- The step invariant ----

  /** What the counters, flags and sets of `s` say about `v`. */
  ghost predicate NodeInvariant(dag: Dag, s: State, v: NodeId)
  {
    && v in s.pending && s.pending[v] == CountFrom(dag.forward, dag.nodes.Keys - s.routed.Keys - s.skipped, v)
    && (v in s.hasLive <==> exists e :: e in dag.forward && e.target == v && Fires(dag, s.routed, e))
    && s.launched[v] <= 1
    && !(v in s.launched && v in s.skipped)
    && (v in s.launched || v in s.skipped <==> s.pending[v] == 0)
  }

  lemma StateInvariant(dag: Dag, s: State, v: NodeId)
    requires FreeState(dag, s) && v in dag.nodes
    ensures NodeInvariant(dag, s, v)
  {
    assert CountOK(dag, NO_LOOP, s, [], v) && OnceOK(s, v);
    assert LiveOK(dag, s, [], v) && CauseOK(dag, s, v);
    CountSame(dag.forward, dag.nodes.Keys - Settled(s), dag.nodes.Keys - s.routed.Keys - s.skipped, v);
  }

  /** In every reachable state, failures and parallel edges included: a counter is the
      number of in-edges whose source has neither been routed nor skipped; the live flag
      says whether some routed in-edge was allowed; nothing is dispatched twice, or both
      dispatched and skipped. */
  lemma StepInvariant(dag: Dag, init: Data, steps: seq<Step>, v: NodeId)
    requires IsLoopFree(dag) && IsRun(dag, init, steps) && v in dag.nodes
    ensures NodeInvariant(dag, After(dag, init, steps), v)
  {
    RunFree(dag, init, steps);
    StateInvariant(dag, After(dag, init, steps), v);
  }

  // ---- Failures ----

  /** Nothing was dispatched or skipped between `early` and `late`, and the error stayed. */
  ghost predicate Halted(early: State, late: State)
  {
    && late.launched == early.launched && late.dispatched == early.dispatched
    && late.skipped == early.skipped && late.firstErr == early.firstErr
  }

  lemma ApplyHalted(dag: Dag, s: State, step: Step)
    requires s.firstErr != None
    ensures Halted(s, Apply(dag, s, step))
  {
    match step
    case Read(_) =>
    case Recv(f, r) => ReceiveHalted(dag, s, f, r);
  }

  lemma ReceiveHalted(dag: Dag, s: State, f: Flight, r: Outcome)
    requires s.firstErr != None
    ensures Halted(s, Receive(dag, s, f, r))
  {
    assert Receive(dag, s, f, r) == Record(s, f, r);
  }

  /** A failure, received now or before, leaves an error. */
  lemma FailureStays(dag: Dag, s: State, f: Flight, r: Outcome)
    requires s.firstErr != None || r.Failed?
    ensures Receive(dag, s, f, r).firstErr != None
  {
  }

  /** Once a failure is received nothing is dispatched or skipped any more, whatever the
      graph, and the first error stays. */
  lemma {:induction false} NothingAfterFailure(dag: Dag, init: Data, steps: seq<Step>, k: nat)
    requires k <= |steps| && After(dag, init, steps[..k]).firstErr != None
    ensures Halted(After(dag, init, steps[..k]), After(dag, init, steps))
  {
    if k == |steps| {
      assert steps[..k] == steps;
    } else {
      var front := steps[..|steps| - 1];
      assert front[..k] == steps[..k];
      NothingAfterFailure(dag, init, front, k);
      ApplyHalted(dag, After(dag, init, front), steps[|steps| - 1]);
    }
  }

  /** Every forward predecessor of a recorded node was skipped or recorded as succeeded. */
  lemma FailureCausality(dag: Dag, init: Data, steps: seq<Step>, e: Edge)
    requires IsLoopFree(dag) && IsRun(dag, init, steps) && e in dag.forward
    ensures var s := After(dag, init, steps);
      e.target in s.nodeResults ==>
        e.source in s.skipped || (e.source in s.nodeResults && s.nodeResults[e.source].NodeSucceeded?)
  {
    RunFree(dag, init, steps);
    var s := After(dag, init, steps);
    assert e.source in dag.nodes && e.target in dag.nodes;
    if e.target in s.nodeResults {
      assert RecordOK(s, e.target) && RecordOK(s, e.source);
      PredsSettled(dag, s, e);
    }
  }

  /** At the end of a run exactly the dispatched nodes are recorded. */
  lemma RecordedIsDispatched(dag: Dag, init: Data, steps: seq<Step>, v: NodeId)
    requires IsLoopFree(dag) && IsRun(dag, init, steps) && Quiescent(After(dag, init, steps))
    ensures var s := After(dag, init, steps); v in s.nodeResults <==> v in dag.nodes && v in s.launched
  {
    RunFree(dag, init, steps);
    var s := After(dag, init, steps);
    if v in dag.nodes {
      assert RecordOK(s, v) && CauseOK(dag, s, v);
    }
  }

  lemma PredsSettled(dag: Dag, s: State, e: Edge)
    requires Adjacent(dag) && Inv(dag, NO_LOOP, s, []) && e in dag.forward
    requires e.target in s.started || e.target in s.skipped
    ensures IsSettled(s, e.source)
  {
    assert CountOK(dag, NO_LOOP, s, [], e.target) && OnceOK(s, e.target);
    CountZero(dag.forward, dag.nodes.Keys - Settled(s), e.target);
  }

  // ---- Completeness at quiescence ----

  /** Nothing is in flight and nothing failed. */
  ghost predicate Completed(dag: Dag, s: State)
  {
    FreeState(dag, s) && Quiescent(s) && s.firstErr == None
  }

  lemma {:induction false} AllSettled(dag: Dag, s: State, v: NodeId)
    requires IsLoopFree(dag) && Completed(dag, s) && v in dag.nodes
    ensures IsSettled(s, v)
    decreases IndexOf(dag.order, v)
  {
    forall e | e in dag.forward && e.target == v
      ensures IsSettled(s, e.source)
    {
      assert PointsLater(dag.order, e);
      AllSettled(dag, s, e.source);
    }
    CountZero(dag.forward, dag.nodes.Keys - Settled(s), v);
    assert CountOK(dag, NO_LOOP, s, [], v) && CauseOK(dag, s, v) && RecordOK(s, v);
  }

  /** `v` is a root, or an allowed edge leads to it from a node of `executed`. */
  predicate Justified(dag: Dag, routing: map<NodeId, Data>, executed: set<NodeId>, v: NodeId)
  {
    IsRoot(dag, v) || exists e :: e in dag.forward && e.target == v && e.source in executed && Fires(dag, routing, e)
  }

  lemma ExecutedOrSkipped(dag: Dag, s: State, v: NodeId)
    requires IsLoopFree(dag) && Completed(dag, s) && v in dag.nodes
    ensures v in s.routed <==> v !in s.skipped
    ensures v in s.routed <==> s.launched[v] == 1
    ensures v in s.routed <==> Justified(dag, s.routed, s.routed.Keys, v)
  {
    AllSettled(dag, s, v);
    assert CauseOK(dag, s, v) && OnceOK(s, v) && LiveOK(dag, s, [], v);
    assert AnyFires(dag, s.routed, v) <==>
           exists e :: e in dag.forward && e.target == v && e.source in s.routed.Keys && Fires(dag, s.routed, e);
  }

  lemma {:induction false} ExecutedIsLeast(dag: Dag, s: State, x: set<NodeId>, v: NodeId)
    requires IsLoopFree(dag) && Completed(dag, s) && v in dag.nodes && v in s.routed
    requires forall w :: w in dag.nodes && Justified(dag, s.routed, x, w) ==> w in x
    ensures v in x
    decreases IndexOf(dag.order, v)
  {
    ExecutedOrSkipped(dag, s, v);
    if !IsRoot(dag, v) {
      var e :| e in dag.forward && e.target == v && e.source in s.routed.Keys && Fires(dag, s.routed, e);
      assert PointsLater(dag.order, e);
      ExecutedIsLeast(dag, s, x, e.source);
      assert Justified(dag, s.routed, x, v);
    }
  }

  /** The executed nodes of `s` are exactly the justified ones, and no smaller set is closed. */
  ghost predicate LeastExecuted(dag: Dag, s: State)
  {
    && (forall v :: v in dag.nodes ==> (v in s.routed <==> Justified(dag, s.routed, s.routed.Keys, v)))
    && (forall x: set<NodeId> ::
          (forall v :: v in dag.nodes && Justified(dag, s.routed, x, v) ==> v in x) ==> s.routed.Keys <= x)
  }

  lemma CompletedIsLeast(dag: Dag, s: State)
    requires IsLoopFree(dag) && Completed(dag, s)
    ensures LeastExecuted(dag, s)
  {
    forall v | v in dag.nodes
      ensures v in s.routed <==> Justified(dag, s.routed, s.routed.Keys, v)
    {
      ExecutedOrSkipped(dag, s, v);
    }
    forall x: set<NodeId>, v |
      (forall w :: w in dag.nodes && Justified(dag, s.routed, x, w) ==> w in x) && v in s.routed
      ensures v in x
    {
      ExecutedIsLeast(dag, s, x, v);
    }
  }

  /** Every node ran exactly once or was skipped. */
  ghost predicate OnceOrSkipped(dag: Dag, s: State)
  {
    && s.routed.Keys == dag.nodes.Keys - s.skipped
    && forall v :: v in dag.nodes ==> s.launched[v] == (if v in s.skipped then 0 else 1)
  }

  lemma CompletedOnce(dag: Dag, s: State)
    requires IsLoopFree(dag) && Completed(dag, s)
    ensures OnceOrSkipped(dag, s)
  {
    forall v | v in dag.nodes
      ensures v in s.routed <==> v !in s.skipped
      ensures s.launched[v] == (if v in s.skipped then 0 else 1)
    {
      ExecutedOrSkipped(dag, s, v);
      assert CauseOK(dag, s, v);
    }
  }

  /** When an error-free run ends, every node was executed exactly once or skipped, and
      the executed set is the least one that contains the roots and whatever an allowed
      edge from an executed node leads to. */
  lemma Completeness(dag: Dag, init: Data, steps: seq<Step>)
    requires IsLoopFree(dag) && IsRun(dag, init, steps)
    requires Quiescent(After(dag, init, steps)) && After(dag, init, steps).firstErr == None
    ensures OnceOrSkipped(dag, After(dag, init, steps)) && LeastExecuted(dag, After(dag, init, steps))
  {
    RunFree(dag, init, steps);
    CompletedOnce(dag, After(dag, init, steps));
    CompletedIsLeast(dag, After(dag, init, steps));
  }

  // ---- What the run returns ----

  /** The keys the runner reserves are not node ids. */
  predicate NoReservedIds(dag: Dag)
  {
    INITIAL !in dag.nodes && LOOP_STATE !in dag.nodes
  }

  /** The last node in topological order has no successor. */
  lemma LastIsSink(dag: Dag)
    requires Built(dag) && |dag.order| > 0
    ensures dag.IsSink(dag.order[|dag.order| - 1])
  {
    var v := dag.order[|dag.order| - 1];
    assert v in dag.order;
    NoTargets(dag.forward, v);
    forall e | e in dag.forward
      ensures e.source != v
    {
      assert PointsLater(dag.order, e) && e.target in dag.order;
    }
    assert dag.successors[v] == [];
  }

  /** The run reports that everything was suppressed exactly when every sink was skipped;
      otherwise it returns the outputs of exactly the executed sinks. */
  ghost predicate ReportsSinks(dag: Dag, s: State, report: Report)
  {
    && (report.error != None <==> forall v :: dag.IsSink(v) ==> v in s.skipped)
    && (report.error != None ==> report.error == Some(ALL_SUPPRESSED))
    && (report.error == None ==> forall v :: v in report.final <==> dag.IsSink(v) && v in s.routed)
    && (forall v :: v in report.final ==> v in s.outputs && report.final[v] == s.outputs[v])
  }

  lemma CompletedSink(dag: Dag, s: State, v: NodeId)
    requires IsLoopFree(dag) && NoReservedIds(dag) && Completed(dag, s) && dag.IsSink(v)
    ensures v in SinkOutputs(dag, s.outputs) <==> v in s.routed
    ensures v in s.routed <==> v !in s.skipped
  {
    ExecutedOrSkipped(dag, s, v);
    assert RecordOK(s, v);
  }

  lemma ReportOfSinks(dag: Dag, s: State, last: NodeId)
    requires s.firstErr == None && dag.IsSink(last) && s.skipped <= dag.nodes.Keys
    requires forall v :: dag.IsSink(v) ==> (v in SinkOutputs(dag, s.outputs) <==> v in s.routed)
    requires forall v :: dag.IsSink(v) ==> (v in s.routed <==> v !in s.skipped)
    ensures ReportsSinks(dag, s, Finish(dag, s))
  {
    var final := SinkOutputs(dag, s.outputs);
    if final == map[] {
      assert last !in final;
    } else {
      var v :| v in final;
      assert dag.IsSink(v);
    }
  }

  lemma CompletedReport(dag: Dag, s: State)
    requires IsLoopFree(dag) && NoReservedIds(dag) && Completed(dag, s) && |dag.order| > 0
    ensures ReportsSinks(dag, s, Finish(dag, s))
  {
    forall v | dag.IsSink(v)
      ensures v in SinkOutputs(dag, s.outputs) <==> v in s.routed
      ensures v in s.routed <==> v !in s.skipped
    {
      CompletedSink(dag, s, v);
    }
    LastIsSink(dag);
    ReportOfSinks(dag, s, dag.order[|dag.order| - 1]);
  }

  lemma ReturnedSinks(dag: Dag, init: Data, steps: seq<Step>)
    requires IsLoopFree(dag) && NoReservedIds(dag) && dag.nodes != map[] && IsRun(dag, init, steps)
    requires Quiescent(After(dag, init, steps)) && After(dag, init, steps).firstErr == None
    ensures ReportsSinks(dag, After(dag, init, steps), Finish(dag, After(dag, init, steps)))
  {
    RunFree(dag, init, steps);
    var v :| v in dag.nodes;
    assert v in dag.order;
    CompletedReport(dag, After(dag, init, steps));
  }
}
