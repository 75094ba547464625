/** Conditional routing over whole runs: which of the nodes behind a branching node are dispatched
    and which are skipped, for every graph whose loop is well formed and every run, failures
    included. */
module Conditional {
  import opened Workflow
  import opened Graph
  import opened DagModel
  import opened Scheduler
  import opened SchedulerInvariant
  import opened SchedulerSteps
  import opened LoopSteps
  import opened LoopBound
  import opened LoopFree
  import opened LoopCauses
  import opened LoopExit
  import opened LoopCompletion
  import opened LoopPasses
  import opened Delivery
  import opened Landings
  import opened Diamond
  import opened StepsCommute
  import opened Reports

  /** `v` is neither a controller nor in the body of one. */
  ghost predicate Outside(dag: Dag, v: NodeId)
  {
    v in dag.nodes && forall c :: c in dag.Controllers() ==> v != c && v !in dag.BodyOf(c)
  }

  lemma OutsideLoop(dag: Dag, v: NodeId)
    requires Runnable(dag) && Outside(dag, v)
    ensures Shape(dag, LoopOf(dag)) && v !in LoopOf(dag).ctrl && v !in LoopOf(dag).body
  {
    RunnableShape(dag);
  }

  // ---- Dispatched at most once ----

  /** `v` was dispatched once or not at all. */
  predicate Single(s: State, v: NodeId)
  {
    s.launched[v] == if v in s.started then 1 else 0
  }

  lemma PassedSingle(dag: Dag, s: State, t: State, f: Flight, r: Outcome, v: NodeId)
    requires r.Succeeded? && Passed(dag, s, t, f, r) && v != f.node && v !in dag.BodyOf(f.node) && Single(s, v)
    ensures Single(t, v)
  {
    PassedCount(dag, s, t, f.node, v);
    LoopExit.PassedLaunches(dag, s, t, f, v);
  }

  lemma PassSingle(dag: Dag, l: Loop, s: State, f: Flight, r: Outcome, v: NodeId)
    requires Shape(dag, l) && f.node in l.ctrl && r.Succeeded? && s.firstErr == None && v !in l.ctrl && v !in l.body
    requires Iterates(dag, s, f.node, r.routing) && Single(s, v)
    ensures Single(Receive(dag, s, f, r), v)
  {
    TypeOfController(dag, l, f.node);
    ReceiveStarts(dag, s, f, r);
    PassesIsPassed(dag, s, f, r);
    PassedSingle(dag, s, Passes(dag, s, f, r), f, r, v);
  }

  lemma ApplySingle(dag: Dag, l: Loop, s: State, x: Step, v: NodeId)
    requires Shape(dag, l) && Inv(dag, l, s, []) && Enabled(s, x) && v !in l.ctrl && v !in l.body && Single(s, v)
    ensures Single(Apply(dag, s, x), v)
  {
    ApplyWithin(dag, l, s, x, v);
    if Apply(dag, s, x).passes != s.passes {
      PassStep(dag, l, s, x.flight, x.outcome);
      PassSingle(dag, l, s, x.flight, x.outcome, v);
    }
  }

  lemma {:induction false} RunSingle(dag: Dag, l: Loop, init: Data, steps: seq<Step>, v: NodeId)
    requires Shape(dag, l) && IsRun(dag, init, steps) && v !in l.ctrl && v !in l.body
    ensures Single(After(dag, init, steps), v)
  {
    if steps != [] {
      LastStep(dag, init, steps);
      RunSingle(dag, l, init, steps[..|steps| - 1], v);
      RunKeeps(dag, l, init, steps[..|steps| - 1]);
      ApplySingle(dag, l, After(dag, init, steps[..|steps| - 1]), steps[|steps| - 1], v);
    }
  }

  // ---- Decided as soon as everything has reported ----

  predicate Handled(s: State, v: NodeId)
  {
    PendingOf(s, v) == 0 ==> v in s.started || v in s.skipped
  }

  /** After a failure nothing is counted, dispatched or skipped any more. */
  lemma StillHandled(dag: Dag, s: State, x: Step, v: NodeId)
    requires Handled(s, v) && (x.Read? || s.firstErr != None || x.outcome.Failed?)
    ensures Handled(Apply(dag, s, x), v)
  {
    match x
    case Read(_) =>
    case Recv(f, r) =>
      assert Apply(dag, s, x) == Record(s, f, r);
      RecordHandled(s, f, r, v);
  }

  lemma RecordHandled(s: State, f: Flight, r: Outcome, v: NodeId)
    requires Handled(s, v)
    ensures Handled(Record(s, f, r), v)
  {
  }

  lemma {:induction false} RunHandled(dag: Dag, l: Loop, init: Data, steps: seq<Step>, v: NodeId)
    requires Shape(dag, l) && IsRun(dag, init, steps) && v in dag.nodes && v !in l.ctrl && v !in l.body
    ensures Handled(After(dag, init, steps), v)
  {
    if After(dag, init, steps).firstErr == None {
      RunPrompt(dag, l, init, steps);
      assert DoneOK(After(dag, init, steps), v);
    } else {
      assert steps != [];
      LastStep(dag, init, steps);
      var s, x := After(dag, init, steps[..|steps| - 1]), steps[|steps| - 1];
      RunHandled(dag, l, init, steps[..|steps| - 1], v);
      if x.Recv? {
        ReceiveBooks(dag, s, x.flight, x.outcome);
      }
      StillHandled(dag, s, x, v);
    }
  }

  /** Every edge into `v` has reported. */
  ghost predicate AllReported(dag: Dag, s: State, v: NodeId)
  {
    forall e :: e in dag.forward && e.target == v ==> IsSettled(s, e.source)
  }

  lemma NothingOwed(dag: Dag, l: Loop, s: State, v: NodeId)
    requires Inv(dag, l, s, []) && v in dag.nodes && v !in l.ctrl && v !in l.body && AllReported(dag, s, v)
    ensures PendingOf(s, v) == 0 && !(v in s.started && v in s.skipped)
  {
    assert CountOK(dag, l, s, [], v) && OnceOK(s, v);
    CountZero(dag.forward, dag.nodes.Keys - Settled(s), v);
  }

  /** The fate of a node. In every run, failures included, once all edges into a node outside the
      loop have reported, the node has been dispatched exactly once if some routed edge into it
      fires, and skipped and never dispatched if none does. */
  lemma Decided(dag: Dag, init: Data, steps: seq<Step>, v: NodeId)
    requires Runnable(dag) && IsRun(dag, init, steps) && Outside(dag, v) && dag.Preds(v) != []
    requires AllReported(dag, After(dag, init, steps), v)
    ensures var s := After(dag, init, steps);
      if AnyFires(dag, s.routed, v) then s.launched[v] == 1 && v !in s.skipped
      else s.launched[v] == 0 && v in s.skipped
  {
    OutsideLoop(dag, v);
    var l, s := LoopOf(dag), After(dag, init, steps);
    RunKeeps(dag, l, init, steps);
    RunWhy(dag, l, init, steps);
    RunSingle(dag, l, init, steps, v);
    RunHandled(dag, l, init, steps, v);
    NothingOwed(dag, l, s, v);
    assert HeardOK(dag, l, s, [], v) && WhyOK(dag, l, s, v);
  }

  // ---- An answer stays ----

  /** The answer `routing` of `u` is the one its edges were routed by. */
  predicate Answered(s: State, u: NodeId, routing: Data)
  {
    u in s.routed && s.routed[u] == routing
  }

  lemma ReceiveAnswers(dag: Dag, l: Loop, s: State, f: Flight, r: Outcome)
    requires Shape(dag, l) && f.node !in l.ctrl && r.Succeeded? && s.firstErr == None
    ensures Answered(Receive(dag, s, f, r), f.node, r.routing)
  {
    TypeOfController(dag, l, f.node);
    ReceiveLands(dag, s, f, r);
    LandingLands(s, f, r);
    DeliverSame(dag, Landing(s, f, r), SignalsOf(dag, f.node, r.routing));
  }

  lemma DeliverStillAnswers(dag: Dag, s: State, todo: seq<Signal>, u: NodeId, routing: Data)
    requires Answered(s, u, routing)
    ensures Answered(Deliver(dag, s, todo), u, routing)
  {
    DeliverSame(dag, s, todo);
  }

  lemma QuitsStillAnswers(l: Loop, s: State, f: Flight, r: Outcome, u: NodeId, routing: Data)
    requires r.Succeeded? && f.node != u && Answered(s, u, routing)
    ensures Answered(Quits(l, s, f, r), u, routing)
  {
    LandingLands(s, f, r);
    QuitsMarks(l, s, f, r);
  }

  lemma RecordStillAnswers(s: State, f: Flight, r: Outcome, u: NodeId, routing: Data)
    requires Answered(s, u, routing)
    ensures Answered(Record(s, f, r), u, routing)
  {
  }

  lemma ReceiveStillAnswers(dag: Dag, l: Loop, s: State, f: Flight, r: Outcome, u: NodeId, routing: Data)
    requires f.node in l.ctrl <==> dag.TypeOf(f.node) == LOOP_CONTROLLER
    requires f.node in l.ctrl ==> dag.BodyOf(f.node) == l.body
    requires f.node != u && u !in l.body && Answered(s, u, routing)
    ensures Answered(Receive(dag, s, f, r), u, routing)
  {
    if r.Failed? || s.firstErr != None {
      assert Receive(dag, s, f, r) == Record(s, f, r);
      RecordStillAnswers(s, f, r, u, routing);
    } else if f.node !in l.ctrl {
      ReceiveLands(dag, s, f, r);
      LandingLands(s, f, r);
      DeliverStillAnswers(dag, Landing(s, f, r), SignalsOf(dag, f.node, r.routing), u, routing);
    } else if Iterates(dag, s, f.node, r.routing) {
      ReceiveStarts(dag, s, f, r);
      PassesRecords(dag, s, f, r);
    } else {
      ReceiveQuits(dag, l, s, f, r);
      QuitsStillAnswers(l, s, f, r, u, routing);
      DeliverStillAnswers(dag, Quits(l, s, f, r), SignalsOf(dag, f.node, r.routing), u, routing);
    }
  }

  lemma {:induction false} AnswerStays(
    dag: Dag, l: Loop, init: Data, steps: seq<Step>, k: nat, u: NodeId, routing: Data)
    requires Shape(dag, l) && IsRun(dag, init, steps) && k <= |steps| && u !in l.body
    requires Answered(After(dag, init, steps[..k]), u, routing)
    ensures Answered(After(dag, init, steps), u, routing)
  {
    if k == |steps| {
      assert steps[..k] == steps;
    } else {
      var front := steps[..|steps| - 1];
      assert front[..k] == steps[..k];
      LastStep(dag, init, steps);
      AnswerStays(dag, l, init, front, k, u, routing);
      RunKeeps(dag, l, init, front);
      StepStillAnswers(dag, l, After(dag, init, front), steps[|steps| - 1], u, routing);
    }
  }

  lemma AnswersNow(dag: Dag, l: Loop, init: Data, steps: seq<Step>, k: nat)
    requires Shape(dag, l) && Answers(dag, init, steps, k) && steps[k].flight.node !in l.ctrl
    ensures Answered(After(dag, init, steps[..k + 1]), steps[k].flight.node, steps[k].outcome.routing)
  {
    assert steps[..k + 1][..k] == steps[..k];
    ReceiveAnswers(dag, l, After(dag, init, steps[..k]), steps[k].flight, steps[k].outcome);
  }

  lemma StepStillAnswers(dag: Dag, l: Loop, s: State, x: Step, u: NodeId, routing: Data)
    requires Shape(dag, l) && Inv(dag, l, s, []) && Enabled(s, x) && u !in l.body && Answered(s, u, routing)
    ensures Answered(Apply(dag, s, x), u, routing)
  {
    match x
    case Read(_) =>
    case Recv(f, r) =>
      assert FlightOK(l, s, f);
      TypeOfController(dag, l, f.node);
      ReceiveStillAnswers(dag, l, s, f, r, u, routing);
  }

  /** Step `k` hands over a success while nothing has failed. */
  ghost predicate Answers(dag: Dag, init: Data, steps: seq<Step>, k: nat)
  {
    k < |steps| && steps[k].Recv? && steps[k].outcome.Succeeded? && After(dag, init, steps[..k]).firstErr == None
  }

  // ---- One edge ----

  /** `e` is the only edge into its target, and neither of its ends is part of the loop. */
  ghost predicate OnlyEdge(dag: Dag, e: Edge)
  {
    && e in dag.forward && Outside(dag, e.source) && Outside(dag, e.target) && |dag.Preds(e.target)| == 1
    && forall f :: f in dag.forward && f.target == e.target ==> f == e
  }

  predicate Taken(s: State, v: NodeId)
  {
    s.launched[v] == 1 && v !in s.skipped
  }

  predicate PassedOver(s: State, v: NodeId)
  {
    s.launched[v] == 0 && v in s.skipped
  }

  lemma EdgeDecides(dag: Dag, init: Data, steps: seq<Step>, k: nat, e: Edge)
    requires Runnable(dag) && IsRun(dag, init, steps) && Answers(dag, init, steps, k) && OnlyEdge(dag, e)
    requires steps[k].flight.node == e.source
    ensures var s := After(dag, init, steps);
      if BranchAllows(e, steps[k].outcome.routing, dag.TypeOf(e.source)) then Taken(s, e.target)
      else PassedOver(s, e.target)
  {
    OutsideLoop(dag, e.source);
    AnswersNow(dag, LoopOf(dag), init, steps, k);
    AnswerStays(dag, LoopOf(dag), init, steps, k + 1, e.source, steps[k].outcome.routing);
    Decided(dag, init, steps, e.target);
    OneFires(dag, After(dag, init, steps), e);
  }

  lemma OneFires(dag: Dag, s: State, e: Edge)
    requires OnlyEdge(dag, e)
    ensures AnyFires(dag, s.routed, e.target) <==> Fires(dag, s.routed, e)
  {
  }

  /** Conditional routing. Let a node outside the loop succeed, in any run, before anything has
      failed, and let `e` be one of its edges and the only one into its target. From then on the
      target has been dispatched, exactly once, or else skipped and never dispatched: dispatched
      if `e` has no label; with a label, if the label is the text the node gave as "matched_rule";
      if it gave none, but a boolean as "result", exactly if the boolean is true and the label is
      "true" or it is false and the label another; and skipped if it gave neither. */
  lemma ConditionalRouting(dag: Dag, init: Data, steps: seq<Step>, k: nat, e: Edge)
    requires Runnable(dag) && IsRun(dag, init, steps) && Answers(dag, init, steps, k) && OnlyEdge(dag, e)
    requires steps[k].flight.node == e.source
    ensures var s, v, out := After(dag, init, steps), e.target, steps[k].outcome.routing;
      && (Taken(s, v) || PassedOver(s, v))
      && (e.branch == None ==> Taken(s, v))
      && forall wanted :: e.branch == Some(wanted) ==>
           (Taken(s, v) <==>
            if "matched_rule" in out && out["matched_rule"].Text? then out["matched_rule"] == Text(wanted)
            else "result" in out && out["result"] == Flag(wanted == "true"))
  {
    EdgeDecides(dag, init, steps, k, e);
    WhichEdgesFire(e, steps[k].outcome.routing, dag.TypeOf(e.source));
    assert e.source !in dag.Controllers() && dag.TypeOf(e.source) != "loop.controller";
  }

  /** A node with a "true" and a "false" edge to nodes entered by nothing else: the answer true
      dispatches the first and skips the second, the answer false the other way round. */
  lemma TrueOrFalse(dag: Dag, init: Data, steps: seq<Step>, k: nat, yes: Edge, no: Edge)
    requires Runnable(dag) && IsRun(dag, init, steps) && Answers(dag, init, steps, k)
    requires OnlyEdge(dag, yes) && OnlyEdge(dag, no) && steps[k].flight.node == yes.source == no.source
    requires yes.branch == Some("true") && no.branch == Some("false")
    requires var out := steps[k].outcome.routing;
      !("matched_rule" in out && out["matched_rule"].Text?) && "result" in out && out["result"].Flag?
    ensures var s := After(dag, init, steps);
      if steps[k].outcome.routing["result"].flag
      then s.launched[yes.target] == 1 && s.launched[no.target] == 0 && no.target in s.skipped
      else s.launched[no.target] == 1 && s.launched[yes.target] == 0 && yes.target in s.skipped
  {
    ConditionalRouting(dag, init, steps, k, yes);
    ConditionalRouting(dag, init, steps, k, no);
  }
}
