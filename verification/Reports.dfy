/** What a run reports, read off its steps: which result every node is recorded with, which error
    the run ends with, and what it returns. */
module Reports {
  import opened Workflow
  import opened DagModel
  import opened Scheduler
  import opened SchedulerInvariant
  import opened LoopFree
  import opened LoopIsolation
  import opened Completion
  import opened Delivery
  import opened Landings
  import opened Diamond
  import opened Reading

  // ---- What receiving a result records ----

  /** The result is recorded under its node, over any earlier one; the first error stays. */
  predicate Books(s: State, t: State, f: Flight, r: Outcome)
  {
    && t.nodeResults == s.nodeResults[f.node := if r.Failed? then NodeFailed(r.error) else NodeSucceeded(r.output)]
    && t.firstErr == (if r.Failed? && s.firstErr == None then Some(r.error) else s.firstErr)
  }

  lemma DeliverBooks(dag: Dag, s: State, u: State, f: Flight, r: Outcome, todo: seq<Signal>)
    requires Books(s, u, f, r)
    ensures Books(s, Deliver(dag, u, todo), f, r)
  {
    DeliverSame(dag, u, todo);
  }

  lemma HaltBooks(dag: Dag, s: State, f: Flight, r: Outcome)
    requires r.Failed? || s.firstErr != None
    ensures Books(s, Receive(dag, s, f, r), f, r)
  {
    assert Receive(dag, s, f, r) == Record(s, f, r);
  }

  lemma QuitsBooks(dag: Dag, l: Loop, s: State, f: Flight, r: Outcome)
    requires r.Succeeded?
    ensures Books(s, Quits(l, s, f, r), f, r)
  {
  }

  lemma ReceiveBooks(dag: Dag, s: State, f: Flight, r: Outcome)
    ensures Books(s, Receive(dag, s, f, r), f, r)
  {
    if r.Failed? || s.firstErr != None {
      HaltBooks(dag, s, f, r);
    } else if dag.TypeOf(f.node) != LOOP_CONTROLLER {
      ReceiveLands(dag, s, f, r);
      LandingLands(s, f, r);
      DeliverBooks(dag, s, Landing(s, f, r), f, r, SignalsOf(dag, f.node, r.routing));
    } else if Iterates(dag, s, f.node, r.routing) {
      ReceiveStarts(dag, s, f, r);
      PassesRecords(dag, s, f, r);
    } else {
      var l := Loop({f.node}, dag.BodyOf(f.node));
      ReceiveQuits(dag, l, s, f, r);
      QuitsBooks(dag, l, s, f, r);
      DeliverBooks(dag, s, Quits(l, s, f, r), f, r, SignalsOf(dag, f.node, r.routing));
    }
  }

  // ---- The records of a whole run ----

  predicate ResultFor(x: Step, v: NodeId)
  {
    x.Recv? && x.flight.node == v
  }

  /** Step `k` hands over the last result of `v`. */
  predicate LastResult(steps: seq<Step>, k: nat, v: NodeId)
  {
    && k < |steps| && ResultFor(steps[k], v)
    && forall j :: k < j < |steps| ==> !ResultFor(steps[j], v)
  }

  predicate Failure(x: Step)
  {
    x.Recv? && x.outcome.Failed?
  }

  /** Step `k` is the first that hands over an error. */
  predicate FirstFailure(steps: seq<Step>, k: nat)
  {
    && k < |steps| && Failure(steps[k])
    && forall j :: 0 <= j < k ==> !Failure(steps[j])
  }

  /** `v` is recorded with its last result, and not at all without one. */
  ghost predicate RecordedFor(steps: seq<Step>, results: map<NodeId, NodeResult>, v: NodeId)
  {
    && (v in results <==> exists k: nat :: LastResult(steps, k, v))
    && forall k: nat :: LastResult(steps, k, v) ==>
         results[v] ==
           (if steps[k].outcome.Failed? then NodeFailed(steps[k].outcome.error)
            else NodeSucceeded(steps[k].outcome.output))
  }

  /** The error of the first failure, and none without a failure. */
  ghost predicate ErrorOf(steps: seq<Step>, s: State)
  {
    && (s.firstErr == None <==> forall x :: x in steps ==> !Failure(x))
    && forall k: nat :: FirstFailure(steps, k) ==> s.firstErr == Some(steps[k].outcome.error)
  }

  lemma LastOfFront(steps: seq<Step>, k: nat, v: NodeId)
    requires steps != []
    ensures LastResult(steps, k, v) <==>
      if ResultFor(steps[|steps| - 1], v) then k == |steps| - 1 else LastResult(steps[..|steps| - 1], k, v)
  {
    var front := steps[..|steps| - 1];
    if LastResult(front, k, v) && !ResultFor(steps[|steps| - 1], v) {
      forall j | k < j < |steps|
        ensures !ResultFor(steps[j], v)
      {
        assert j < |front| ==> front[j] == steps[j];
      }
    }
    if LastResult(steps, k, v) && k < |front| {
      assert forall j :: k < j < |front| ==> front[j] == steps[j];
    }
  }

  lemma LastIsNew(steps: seq<Step>, results: map<NodeId, NodeResult>, v: NodeId)
    requires steps != [] && ResultFor(steps[|steps| - 1], v) && v in results
    requires var r := steps[|steps| - 1].outcome;
      results[v] == if r.Failed? then NodeFailed(r.error) else NodeSucceeded(r.output)
    ensures RecordedFor(steps, results, v)
  {
    assert LastResult(steps, |steps| - 1, v);
    forall k: nat | LastResult(steps, k, v)
      ensures k == |steps| - 1
    {
      LastOfFront(steps, k, v);
    }
  }

  lemma LastIsOld(steps: seq<Step>, was: map<NodeId, NodeResult>, results: map<NodeId, NodeResult>, v: NodeId)
    requires steps != [] && !ResultFor(steps[|steps| - 1], v) && RecordedFor(steps[..|steps| - 1], was, v)
    requires (v in results <==> v in was) && (v in was ==> results[v] == was[v])
    ensures RecordedFor(steps, results, v)
  {
    var front := steps[..|steps| - 1];
    forall k: nat
      ensures LastResult(steps, k, v) <==> LastResult(front, k, v)
      ensures LastResult(front, k, v) ==> steps[k] == front[k]
    {
      LastOfFront(steps, k, v);
    }
    if v in was {
      var k: nat :| LastResult(front, k, v);
      assert LastResult(steps, k, v);
    }
  }

  lemma LastFor(steps: seq<Step>, was: map<NodeId, NodeResult>, results: map<NodeId, NodeResult>, v: NodeId)
    requires steps != [] && RecordedFor(steps[..|steps| - 1], was, v)
    requires var x := steps[|steps| - 1];
      results == if x.Recv? then was[x.flight.node :=
        if x.outcome.Failed? then NodeFailed(x.outcome.error) else NodeSucceeded(x.outcome.output)] else was
    ensures RecordedFor(steps, results, v)
  {
    if ResultFor(steps[|steps| - 1], v) {
      LastIsNew(steps, results, v);
    } else {
      LastIsOld(steps, was, results, v);
    }
  }

  lemma ErrorNext(steps: seq<Step>, s: State, t: State)
    requires steps != [] && ErrorOf(steps[..|steps| - 1], s)
    requires var x := steps[|steps| - 1];
      t.firstErr == if Failure(x) && s.firstErr == None then Some(x.outcome.error) else s.firstErr
    ensures ErrorOf(steps, t)
  {
    var front, x := steps[..|steps| - 1], steps[|steps| - 1];
    assert forall y :: y in steps <==> y in front || y == x;
    forall k: nat | FirstFailure(steps, k)
      ensures t.firstErr == Some(steps[k].outcome.error)
    {
      if k < |front| {
        assert front[k] == steps[k] && forall j :: 0 <= j < k ==> front[j] == steps[j];
        assert FirstFailure(front, k);
      } else {
        assert forall j :: 0 <= j < |front| ==> !Failure(steps[j]);
        assert forall y :: y in front ==> !Failure(y);
      }
    }
  }

  lemma StepRecords(dag: Dag, s: State, x: Step)
    ensures match x
      case Read(_) => Apply(dag, s, x).nodeResults == s.nodeResults && Apply(dag, s, x).firstErr == s.firstErr
      case Recv(f, r) => Books(s, Apply(dag, s, x), f, r)
  {
    match x
    case Read(_) =>
    case Recv(f, r) => ReceiveBooks(dag, s, f, r);
  }

  /** The records of a run, of any graph whatever: every node that has handed over a result is recorded
      with its last one and no other node is, and the run's error is that of the first failure. */
  lemma {:induction false} RunRecords(dag: Dag, init: Data, steps: seq<Step>)
    ensures forall v :: RecordedFor(steps, After(dag, init, steps).nodeResults, v)
    ensures ErrorOf(steps, After(dag, init, steps))
  {
    if steps != [] {
      var front, x := steps[..|steps| - 1], steps[|steps| - 1];
      var s, t := After(dag, init, front), After(dag, init, steps);
      RunRecords(dag, init, front);
      StepRecords(dag, s, x);
      ErrorNext(steps, s, t);
      forall v
        ensures RecordedFor(steps, t.nodeResults, v)
      {
        LastFor(steps, s.nodeResults, t.nodeResults, v);
      }
    }
  }

  // ---- The report ----

  /** A failed run: it returns no output, the error of its first failure, and of every node that has
      handed over a result the last one, of no other node any. */
  lemma FailedReport(dag: Dag, init: Data, steps: seq<Step>, k: nat)
    requires FirstFailure(steps, k)
    ensures var report := Finish(dag, After(dag, init, steps));
      && report.final == map[] && report.error == Some(steps[k].outcome.error)
      && forall v :: RecordedFor(steps, report.nodeResults, v)
  {
    RunRecords(dag, init, steps);
    FinishedWithError(dag, After(dag, init, steps));
  }

  lemma FinishedWithError(dag: Dag, s: State)
    requires s.firstErr != None
    ensures Finish(dag, s) == Report(map[], s.nodeResults, s.firstErr)
  {
  }

  /** `final` has the latest output of `v` exactly if `v` is a sink that has succeeded. */
  ghost predicate ReturnedFor(dag: Dag, steps: seq<Step>, final: map<NodeId, Data>, v: NodeId)
  {
    && (v in final <==> v in dag.nodes && v in dag.successors && dag.successors[v] == [] && Outs(steps, v) != [])
    && (v in final ==> final[v] == Outs(steps, v)[|Outs(steps, v)| - 1])
  }

  /** Some node without successors was skipped. */
  ghost predicate SinkSkipped(dag: Dag, s: State)
  {
    exists v :: v in s.skipped && (v !in dag.successors || dag.successors[v] == [])
  }

  lemma SinkReturned(dag: Dag, steps: seq<Step>, s: State, v: NodeId)
    requires Adjacent(dag) && (v in dag.nodes ==> LatestOK(Outs(steps, v), s, v))
    ensures ReturnedFor(dag, steps, SinkOutputs(dag, s.outputs), v)
  {
  }

  lemma FinishedWithout(dag: Dag, s: State)
    requires s.firstErr == None
    ensures Finish(dag, s).nodeResults == s.nodeResults && Finish(dag, s).final == SinkOutputs(dag, s.outputs)
    ensures Finish(dag, s).error == if SinkOutputs(dag, s.outputs) == map[] && SinkSkipped(dag, s)
                                    then Some("all sink branches were suppressed by conditional routing") else None
  {
  }

  /** A run without a failure returns, of every sink that has succeeded, the latest output, unless
      there is none and some sink was skipped: then it returns the error that says so. The node
      results are the last ones. */
  lemma CleanReport(dag: Dag, init: Data, steps: seq<Step>)
    requires Built(dag) && NoReservedIds(dag) && IsRun(dag, init, steps) && (forall x :: x in steps ==> !Failure(x))
    ensures var report := Finish(dag, After(dag, init, steps));
      && (forall v :: ReturnedFor(dag, steps, report.final, v))
      && (forall v :: RecordedFor(steps, report.nodeResults, v))
      && report.error == if report.final == map[] && SinkSkipped(dag, After(dag, init, steps))
                         then Some("all sink branches were suppressed by conditional routing") else None
  {
    RunRecords(dag, init, steps);
    RunStores(dag, init, steps);
    var s := After(dag, init, steps);
    FinishedWithout(dag, s);
    forall v
      ensures ReturnedFor(dag, steps, SinkOutputs(dag, s.outputs), v)
    {
      SinkReturned(dag, steps, s, v);
    }
  }
}
