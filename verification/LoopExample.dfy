/** The smallest loop: a controller that allows one pass, one body node and an exit node. It shows
    that the hypotheses of the loop theorems can be met past the first pass, and what the engine
    does when the passes are used up and the controller still asks for another one. */
module LoopExample {
  import opened Workflow
  import opened Graph
  import opened DagModel
  import opened Scheduler
  import opened LoopBound
  import opened Completion
  import opened LoopIsolation
  import opened LoopSure
  import Closures
  import DagBuild
  import TopoSort
  import opened SchedulerInvariant
  import opened LoopSteps
  import opened LoopExit
  import opened Landings

  const ONE_PASS: Data := map["max_iterations" := Int(1)]
  const NODES := [Node("c", LOOP_CONTROLLER, ONE_PASS), Node("b", "work", map[]), Node("x", "end", map[])]
  const ENTER := Edge("1", "c", "b", Some(LOOP_BODY), false)
  const LEAVE := Edge("2", "c", "x", Some(EXIT), false)
  const BACK := Edge("3", "b", "c", None, true)
  const EDGES := [ENTER, LEAVE, BACK]

  lemma Partitioned()
    ensures Closures.Forward(EDGES) == [ENTER, LEAVE] && DagBuild.Backward(EDGES) == [BACK]
  {
    assert EDGES[..2] == [ENTER, LEAVE] && [ENTER, LEAVE][..1] == [ENTER] && [ENTER][..0] == [];
    assert Closures.Forward([ENTER]) == [ENTER] && DagBuild.Backward([ENTER]) == [];
    assert Closures.Forward([ENTER, LEAVE]) == [ENTER, LEAVE] && DagBuild.Backward([ENTER, LEAVE]) == [];
  }

  lemma NodesOfExample()
    ensures DagBuild.NodeMap(NODES) == map["c" := NODES[0], "b" := NODES[1], "x" := NODES[2]]
    ensures DagBuild.CountControllers(NODES) == 1 && DagBuild.DistinctIds(NODES)
  {
    var one, two := [NODES[0]], [NODES[0], NODES[1]];
    assert NODES[..2] == two && two[..1] == one && one[..0] == [];
    assert DagBuild.CountControllers(one) == 1 && DagBuild.NodeMap(one) == map["c" := NODES[0]];
    assert DagBuild.CountControllers(two) == 1 && DagBuild.NodeMap(two) == map["c" := NODES[0], "b" := NODES[1]];
  }

  lemma ForwardIsAcyclic()
    ensures Acyclic([ENTER, LEAVE])
  {
    var order := ["c", "b", "x"];
    assert order[1..] == ["b", "x"] && order[1..][1..] == ["x"];
    assert IndexOf(order, "c") == 0 && IndexOf(order, "b") == 1 && IndexOf(order, "x") == 2;
    assert PointsLater(order, ENTER) && PointsLater(order, LEAVE);
    TopoSort.SortedIsAcyclic(order, {"c", "b", "x"}, [ENTER, LEAVE]);
  }

  lemma EdgesFit()
    ensures DagBuild.EdgesOK(NODES, [ENTER, LEAVE], [BACK])
  {
    NodesOfExample();
  }

  lemma LabelsFit()
    ensures DagBuild.LabelsOK(NODES, [ENTER, LEAVE])
  {
    assert ENTER in [ENTER, LEAVE] && LEAVE in [ENTER, LEAVE];
    assert DagBuild.HasLabel([ENTER, LEAVE], "c", LOOP_BODY) && DagBuild.HasLabel([ENTER, LEAVE], "c", EXIT);
  }

  lemma IsAcceptable()
    ensures DagBuild.Acceptable(NODES, EDGES)
  {
    Partitioned();
    EdgesFit();
    ForwardIsAcyclic();
    LabelsFit();
  }

  /** What the built graph of the example looks like. */
  ghost predicate IsExample(dag: Dag)
  {
    && Built(dag) && dag.nodes == map["c" := NODES[0], "b" := NODES[1], "x" := NODES[2]]
    && dag.forward == [ENTER, LEAVE] && dag.loopBack == [BACK]
  }

  method BuildExample() returns (dag: Dag)
    ensures IsExample(dag)
  {
    IsAcceptable();
    Partitioned();
    NodesOfExample();
    var r := DagBuild.Build(NODES, EDGES);
    dag := r.value;
  }

  lemma EdgeLists()
    ensures OutOf([ENTER, LEAVE], "c") == [ENTER, LEAVE]
    ensures OutOf([ENTER, LEAVE], "b") == OutOf([ENTER, LEAVE], "x") == []
    ensures SourcesInto([ENTER, LEAVE], "c") == [] && SourcesInto([ENTER, LEAVE], "b") == ["c"]
    ensures SourcesInto([ENTER, LEAVE], "x") == ["c"] && TargetsFrom([ENTER, LEAVE], "b") == []
  {
    assert [ENTER, LEAVE][..1] == [ENTER] && [ENTER][..0] == [];
    assert OutOf([ENTER], "c") == [ENTER] && OutOf([ENTER], "b") == OutOf([ENTER], "x") == [];
    assert SourcesInto([ENTER], "c") == [] && SourcesInto([ENTER], "b") == ["c"] && SourcesInto([ENTER], "x") == [];
    assert TargetsFrom([ENTER], "b") == [];
  }

  lemma Neighbours(dag: Dag)
    requires IsExample(dag)
    ensures dag.Out("c") == [ENTER, LEAVE] && dag.Out("b") == [] && dag.Out("x") == []
    ensures dag.Preds("c") == [] && dag.Preds("b") == ["c"] && dag.Preds("x") == ["c"] && dag.IsSink("b")
    ensures dag.Controllers() == {"c"}
  {
    EdgeLists();
    assert dag.outEdges["c"] == OutOf(dag.forward, "c") && dag.outEdges["b"] == OutOf(dag.forward, "b");
    assert dag.outEdges["x"] == OutOf(dag.forward, "x");
    assert dag.predecessors["c"] == SourcesInto(dag.forward, "c");
    assert dag.predecessors["b"] == SourcesInto(dag.forward, "b");
    assert dag.predecessors["x"] == SourcesInto(dag.forward, "x");
    assert dag.successors["b"] == TargetsFrom(dag.forward, "b");
  }

  lemma OnlyBody(v: NodeId)
    ensures InBody([ENTER, LEAVE], [ENTER, LEAVE], "c", v) <==> v == "b"
  {
    var edges := [ENTER, LEAVE];
    assert ENTER in edges && LEAVE in edges && EntersBody(edges, "b") && "b" !in ExitTargets(edges);
    assert IsBodyPath(edges, edges, "c", ["b"]) && ["b"][|["b"]| - 1] == "b";
    forall p | IsBodyPath(edges, edges, "c", p)
      ensures p[|p| - 1] == "b"
    {
      assert p[0] == "b" && (|p| >= 2 ==> HasEdge(edges, p[0], p[0 + 1]));
    }
  }

  lemma BodyOfExample(dag: Dag)
    requires IsExample(dag)
    ensures dag.BodyOf("c") == {"b"}
  {
    Neighbours(dag);
    assert "c" in dag.loopBody;
    forall v
      ensures v in dag.loopBody["c"] <==> v == "b"
    {
      OnlyBody(v);
    }
  }

  lemma ExampleIsWellFormed(dag: Dag)
    requires dag.BodyOf("c") == {"b"} && dag.forward == [ENTER, LEAVE] && dag.loopBack == [BACK]
    requires dag.ConfigOf("c") == ONE_PASS
    ensures WellFormedLoop(dag, "c")
  {
    assert BACK in dag.loopBack && BACK.source == "b";
  }

  lemma NamesAreFree(dag: Dag)
    requires dag.nodes.Keys == {"c", "b", "x"}
    ensures NoReservedIds(dag)
  {
  }

  lemma BodyIsHead(dag: Dag)
    requires dag.Preds("b") == ["c"]
    ensures Sure(dag, {"b"}, "b")
  {
    assert ["c"][..0] == [] && CountIn(["c"], {"b"}) == 0;
    HeadIsSure(dag, {"b"}, "b");
  }

  /** The example meets the hypotheses of the loop theorems. */
  lemma ExampleIsRunnable(dag: Dag)
    requires IsExample(dag)
    ensures Runnable(dag)
  {
    BodyOfExample(dag);
    ControllersOfExample(dag);
    ExampleIsWellFormed(dag);
    OnlyLoop(dag);
  }

  lemma ControllersOfExample(dag: Dag)
    requires dag.nodes == map["c" := NODES[0], "b" := NODES[1], "x" := NODES[2]]
    ensures dag.Controllers() == {"c"} && dag.ConfigOf("c") == ONE_PASS
  {
  }

  lemma OnlyLoop(dag: Dag)
    requires Built(dag) && dag.Controllers() == {"c"} && WellFormedLoop(dag, "c")
    ensures Runnable(dag)
  {
  }

  lemma ExampleFacts(dag: Dag)
    requires IsExample(dag)
    ensures NoReservedIds(dag) && dag.Controllers() == {"c"} && dag.BodyOf("c") == {"b"}
    ensures Sure(dag, {"b"}, "b")
  {
    Neighbours(dag);
    BodyOfExample(dag);
    NamesAreFree(dag);
    BodyIsHead(dag);
  }

  // ---- Two turns of the controller ----

  const AGAIN: Data := map["action" := Text(LOOP_BODY)]

  /** What the two turns depend on. */
  predicate Wired(dag: Dag)
  {
    && dag.TypeOf("c") == LOOP_CONTROLLER && dag.TypeOf("b") == "work" && dag.ConfigOf("c") == ONE_PASS
    && dag.BodyOf("c") == {"b"} && dag.Preds("b") == ["c"] && dag.loopBack == [BACK]
    && dag.Out("c") == [ENTER, LEAVE] && dag.Out("b") == [] && dag.Out("x") == []
  }

  lemma ExampleIsWired(dag: Dag)
    requires IsExample(dag)
    ensures Wired(dag) && Roots(dag) == {"c"}
  {
    Neighbours(dag);
    BodyOfExample(dag);
    RootOfExample(dag);
  }

  lemma RootOfExample(dag: Dag)
    requires dag.nodes.Keys == {"c", "b", "x"} && dag.Preds("c") == [] && dag.Preds("b") == ["c"]
    requires dag.Preds("x") == ["c"]
    ensures Roots(dag) == {"c"}
  {
  }

  lemma SmallCounts()
    ensures CountIn(["c"], {"b"}) == 0 && LoopBackCount([BACK], "c") == 1
    ensures BackSignals([BACK], "b") == [Signal("c", Back)]
    ensures Flights({"b"}) == {Waiting("b")}
  {
    assert ["c"][..0] == [] && [BACK][..0] == [];
  }

  lemma RootsOfExample(dag: Dag)
    requires dag.BodyOf("c") == {"b"} && dag.Preds("b") == ["c"]
    ensures BodyRoots(dag, "c") == {"b"}
  {
    SmallCounts();
  }

  lemma FirstPass(dag: Dag, s: State, t: State, f: Flight, r: Outcome)
    requires Wired(dag) && f.node == "c" && r.Succeeded? && Passed(dag, s, t, f, r)
    ensures t.inflight == s.inflight - multiset{f} + multiset{Waiting("b")} && t.firstErr == s.firstErr
    ensures PendingOf(t, "c") == 1
  {
    SmallCounts();
    RootsOfExample(dag);
    PassPendingAt(dag, s.pending, "c", "c");
    assert multiset({Waiting("b")}) == multiset{Waiting("b")};
  }

  /** The controller's answer starts the first pass. */
  lemma PassStarts(dag: Dag, s: State, inputs: Inputs)
    requires Wired(dag) && s.inflight == multiset{Running("c", inputs)} && s.firstErr == None
    requires s.loopIterations == map[]
    ensures var t := Receive(dag, s, Running("c", inputs), Succeeded(AGAIN, AGAIN));
      t.inflight == multiset{Waiting("b")} && t.firstErr == None && PendingOf(t, "c") == 1
  {
    var f, r := Running("c", inputs), Succeeded(AGAIN, AGAIN);
    assert Iterates(dag, s, "c", AGAIN);
    Diamond.ReceiveStarts(dag, s, f, r);
    PassesIsPassed(dag, s, f, r);
    FirstPass(dag, s, Passes(dag, s, f, r), f, r);
  }

  /** The body node's result sends the controller on its second turn. */
  lemma PassEnds(dag: Dag, s: State, inputs: Inputs, output: Data)
    requires Wired(dag) && s.inflight == multiset{Running("b", inputs)} && s.firstErr == None && PendingOf(s, "c") == 1
    ensures var t := Receive(dag, s, Running("b", inputs), Succeeded(output, output));
      t.inflight == multiset{Waiting("c")} && t.firstErr == None
  {
    var r := Routing(dag, Record(s, Running("b", inputs), Succeeded(output, output)), "b", output);
    SmallCounts();
    assert SignalsOf(dag, "b", output) == [Signal("c", Back)];
    Delivery.DeliverOne(dag, r, Signal("c", Back));
  }

  lemma StartOfExample(dag: Dag, init: Data)
    requires Roots(dag) == {"c"}
    ensures IsRun(dag, init, []) && Outs([], "c") == []
    ensures var s := After(dag, init, []);
      s.inflight == multiset{Waiting("c")} && s.firstErr == None && s.loopIterations == map[] && "x" !in s.outputs
  {
    assert Flights({"c"}) == {Waiting("c")};
  }

  /** The first pass is under way: the body node waits to read, and the controller for the body node. */
  lemma FirstTurn(dag: Dag, init: Data) returns (steps: seq<Step>)
    requires Wired(dag) && Roots(dag) == {"c"}
    ensures IsRun(dag, init, steps) && |Outs(steps, "c")| == 1
    ensures var s := After(dag, init, steps);
      s.inflight == multiset{Waiting("b")} && s.firstErr == None && PendingOf(s, "c") == 1 && "x" !in s.outputs
  {
    StartOfExample(dag, init);
    var inputs;
    steps, inputs := ReadIt(dag, init, [], "c");
    PassStarts(dag, After(dag, init, steps), inputs);
    StoresOutput(dag, After(dag, init, steps), Running("c", inputs), AGAIN);
    steps := Answer(dag, init, steps, "c", inputs, AGAIN);
  }

  /** The pass is over: the controller is in flight again, having read its data. */
  lemma TwoTurns(dag: Dag, init: Data, output: Data) returns (steps: seq<Step>, inputs: Inputs)
    requires Wired(dag) && Roots(dag) == {"c"}
    ensures IsRun(dag, init, steps) && |Outs(steps, "c")| == 1
    ensures After(dag, init, steps).inflight == multiset{Running("c", inputs)}
    ensures After(dag, init, steps).firstErr == None
    ensures OnePassOutputs(After(dag, init, steps), output)
  {
    steps := FirstTurn(dag, init);
    steps, inputs := ReadIt(dag, init, steps, "b");
    PassEnds(dag, After(dag, init, steps), inputs, output);
    StoresOutput(dag, After(dag, init, steps), Running("b", inputs), output);
    steps := Answer(dag, init, steps, "b", inputs, output);
    steps, inputs := ReadIt(dag, init, steps, "c");
  }

  /** What is stored once the body has run and the exit node has not. */
  predicate OnePassOutputs(s: State, output: Data)
  {
    "x" !in s.outputs && "b" in s.outputs && s.outputs["b"] == output
  }

  /** A result changes the output of its own node and, for a controller, the loop state. */
  ghost predicate Stored(s: State, t: State, v: NodeId, output: Data)
  {
    && v in t.outputs && t.outputs[v] == output
    && forall w :: w != v && w != LOOP_STATE ==>
         (w in t.outputs <==> w in s.outputs) && (w in t.outputs ==> t.outputs[w] == s.outputs[w])
  }

  lemma ReportedStores(dag: Dag, l: Loop, s: State, t: State, f: Flight, output: Data)
    requires StepsCommute.Reported(dag, l, s, t, f, Succeeded(output, output)) && f.node != LOOP_STATE
    ensures Stored(s, t, f.node, output)
  {
  }

  lemma StoresOutput(dag: Dag, s: State, f: Flight, output: Data)
    requires Wired(dag) && f.node in {"c", "b"} && s.firstErr == None
    ensures Stored(s, Receive(dag, s, f, Succeeded(output, output)), f.node, output)
  {
    var l := Loop({"c"}, {"b"});
    assert f.node in l.ctrl <==> dag.TypeOf(f.node) == LOOP_CONTROLLER;
    StepsCommute.ReceiveReports(dag, l, s, f, Succeeded(output, output));
    ReportedStores(dag, l, s, Receive(dag, s, f, Succeeded(output, output)), f, output);
  }

  /** A run of the example in which the controller is in flight with one execution behind it,
      so that the isolation theorem speaks about a completed pass. */
  lemma SecondTurn(dag: Dag, init: Data, output: Data) returns (steps: seq<Step>, inputs: Inputs)
    requires IsExample(dag)
    ensures IsRun(dag, init, steps) && After(dag, init, steps).firstErr == None
    ensures Running("c", inputs) in After(dag, init, steps).inflight
    ensures Isolated(dag, {"b"}, steps, After(dag, init, steps), Running("c", inputs), 1) && Sure(dag, {"b"}, "b")
  {
    ExampleIsWired(dag);
    ExampleIsRunnable(dag);
    ExampleFacts(dag);
    steps, inputs := TwoTurns(dag, init, output);
    IterationIsolation(dag, init, steps, Running("c", inputs));
  }

  // ---- The passes are used up ----

  /** With no pass left, an answer that asks for another one leaves the loop with nothing in flight. */
  lemma NothingLaunched(dag: Dag, s: State, inputs: Inputs)
    requires Wired(dag) && s.inflight == multiset{Running("c", inputs)} && s.firstErr == None
    requires IterationsOf(s, "c") == 1 && PendingOf(s, "b") == 0 && "x" !in s.hasLive
    ensures var t := Receive(dag, s, Running("c", inputs), Succeeded(AGAIN, AGAIN));
      t.inflight == multiset{} && t.firstErr == None && "c" in t.routed && t.routed["c"] == AGAIN
  {
    var l, f, r := Loop({"c"}, {"b"}), Running("c", inputs), Succeeded(AGAIN, AGAIN);
    var u := Quits(l, s, f, r);
    Diamond.ReceiveQuits(dag, l, s, f, r);
    CapSignals(dag);
    Diamond.LandingLands(s, f, r);
    Diamond.QuitsMarks(l, s, f, r);
    DeliverTwo(dag, u);
    Diamond.DeliverSame(dag, u, SignalsOf(dag, "c", AGAIN));
  }

  lemma CapSignals(dag: Dag)
    requires Wired(dag)
    ensures SignalsOf(dag, "c", AGAIN) == [Signal("b", Live), Signal("x", Suppressed)]
  {
    assert [ENTER, LEAVE][..1] == [ENTER] && [ENTER][..0] == [] && [BACK][..0] == [];
    assert OutSignals([ENTER], AGAIN, LOOP_CONTROLLER) == [Signal("b", Live)];
    assert OutSignals([ENTER, LEAVE], AGAIN, LOOP_CONTROLLER) == [Signal("b", Live), Signal("x", Suppressed)];
    assert BackSignals([BACK], "c") == [];
  }

  lemma DeliverTwo(dag: Dag, u: State)
    requires PendingOf(u, "b") <= 0 && "x" !in u.hasLive && dag.Out("x") == []
    ensures Deliver(dag, u, [Signal("b", Live), Signal("x", Suppressed)]).inflight == u.inflight
  {
    var y, z := Signal("b", Live), Signal("x", Suppressed);
    Delivery.DeliverAppend(dag, u, [y], [z]);
    assert [y] + [z] == [y, z];
    DeliverQuietly(dag, u, y);
    DeliverQuietly(dag, Counted(u, y), z);
  }

  lemma DeliverQuietly(dag: Dag, u: State, z: Signal)
    requires React(u, z) != Launches && (React(u, z) == Skips ==> dag.Out(z.target) == [])
    ensures Deliver(dag, u, [z]) == Absorb(u, z) && Absorb(u, z).inflight == u.inflight
  {
    Delivery.DeliverOne(dag, u, z);
  }

  /** The state before the controller's second answer, as far as the answer depends on it. */
  lemma BeforeTheCap(dag: Dag, init: Data, steps: seq<Step>, inputs: Inputs)
    requires IsExample(dag) && IsRun(dag, init, steps) && |Outs(steps, "c")| == 1
    requires var s := After(dag, init, steps); s.inflight == multiset{Running("c", inputs)} && s.firstErr == None
    ensures var s := After(dag, init, steps);
      IterationsOf(s, "c") == 1 && PendingOf(s, "b") == 0 && "x" !in s.hasLive
  {
    ExampleIsRunnable(dag);
    ExampleFacts(dag);
    RunnableShape(dag);
    var l, s := LoopOf(dag), After(dag, init, steps);
    RunKeeps(dag, l, init, steps);
    RunWitness(dag, l, init, steps);
    OnlyEnteredByExit(dag);
    RunGate(dag, l, init, steps, "c", "x");
    assert Running("c", inputs) in s.inflight;
    CapState(dag, l, steps, s, Running("c", inputs));
  }

  lemma CapState(dag: Dag, l: Loop, steps: seq<Step>, s: State, f: Flight)
    requires Shape(dag, l) && Inv(dag, l, s, []) && Histories(dag, l, steps, s) && f in s.inflight && f.node in l.ctrl
    requires "b" in l.body && |Outs(steps, f.node)| == 1 && StandsOK(s, f.node, "x")
    ensures IterationsOf(s, f.node) == 1 && PendingOf(s, "b") == 0 && "x" !in s.hasLive
  {
    assert FlightOK(l, s, f);
    assert RunsOK(Outs(steps, f.node), s, f.node);
    BodyRests(dag, l, s, f.node);
  }

  lemma OnlyEnteredByExit(dag: Dag)
    requires dag.forward == [ENTER, LEAVE] && "x" in dag.nodes
    ensures OnlyByExit(dag, "c", "x")
  {
    assert LEAVE in dag.forward;
  }

  lemma ReadIt(dag: Dag, init: Data, steps: seq<Step>, v: NodeId) returns (more: seq<Step>, inputs: Inputs)
    requires IsRun(dag, init, steps) && After(dag, init, steps).inflight == multiset{Waiting(v)}
    ensures IsRun(dag, init, more) && forall w :: Outs(more, w) == Outs(steps, w)
    ensures var s, t := After(dag, init, steps), After(dag, init, more);
      t == s.(inflight := multiset{Running(v, inputs)})
  {
    var s := After(dag, init, steps);
    more, inputs := steps + [Read(v)], Upstream(s, v);
    RunExtends(dag, init, steps, Read(v));
    assert more[..|more| - 1] == steps;
  }

  lemma Answer(dag: Dag, init: Data, steps: seq<Step>, v: NodeId, inputs: Inputs, output: Data)
    returns (more: seq<Step>)
    requires IsRun(dag, init, steps) && After(dag, init, steps).inflight == multiset{Running(v, inputs)}
    ensures IsRun(dag, init, more) && forall w :: Outs(more, w) == Outs(steps, w) + (if w == v then [output] else [])
    ensures After(dag, init, more) ==
      Receive(dag, After(dag, init, steps), Running(v, inputs), Succeeded(output, output))
  {
    var step := Recv(Running(v, inputs), Succeeded(output, output));
    more := steps + [step];
    RunExtends(dag, init, steps, step);
    assert more[..|more| - 1] == steps;
  }

  lemma ReturnsTheBody(dag: Dag, s: State, output: Data)
    requires dag.nodes.Keys == {"c", "b", "x"} && dag.IsSink("b") && dag.IsSink("x") && !dag.IsSink("c")
    requires OnePassOutputs(s, output) && s.firstErr == None
    ensures Finish(dag, s) == Report(map["b" := output], s.nodeResults, None)
  {
    var final := SinkOutputs(dag, s.outputs);
    assert final == map["b" := output] && "b" in final;
  }

  lemma SinksOfExample(dag: Dag)
    requires IsExample(dag)
    ensures dag.IsSink("b") && dag.IsSink("x") && !dag.IsSink("c")
  {
    var both := [ENTER, LEAVE];
    assert both[..1] == [ENTER] && [ENTER][..0] == [];
    assert TargetsFrom([ENTER], "x") == [] && TargetsFrom([ENTER], "b") == [] && TargetsFrom([ENTER], "c") == ["b"];
    assert dag.successors["b"] == TargetsFrom(both, "b") && dag.successors["x"] == TargetsFrom(both, "x");
    assert dag.successors["c"] == TargetsFrom(both, "c");
  }

  /** The passes are used up and the controller, for example a mocked one, still asks for another:
      the run ends, the exit node is skipped and never launched, no error is reported, and the
      report holds the output of the loop body as if it were the result of the workflow. */
  lemma CapUsedUp(dag: Dag, init: Data, output: Data) returns (steps: seq<Step>)
    requires IsExample(dag)
    ensures IsRun(dag, init, steps) && Quiescent(After(dag, init, steps)) && |Outs(steps, "c")| == 2
    ensures var s := After(dag, init, steps);
      && "c" in s.routed && s.routed["c"] == AGAIN && "x" in s.skipped && s.launched["x"] == 0
      && Finish(dag, s) == Report(map["b" := output], s.nodeResults, None)
  {
    ExampleIsWired(dag);
    var inputs;
    steps, inputs := TwoTurns(dag, init, output);
    BeforeTheCap(dag, init, steps, inputs);
    NothingLaunched(dag, After(dag, init, steps), inputs);
    StoresOutput(dag, After(dag, init, steps), Running("c", inputs), AGAIN);
    steps := Answer(dag, init, steps, "c", inputs, AGAIN);
    AfterTheCap(dag, init, steps, output);
  }

  lemma AfterTheCap(dag: Dag, init: Data, steps: seq<Step>, output: Data)
    requires IsExample(dag) && IsRun(dag, init, steps)
    requires var s := After(dag, init, steps);
      OnePassOutputs(s, output) && s.firstErr == None && "c" in s.routed && s.routed["c"] == AGAIN
    ensures var s := After(dag, init, steps);
      "x" in s.skipped && s.launched["x"] == 0 && Finish(dag, s) == Report(map["b" := output], s.nodeResults, None)
  {
    SinksOfExample(dag);
    ReturnsTheBody(dag, After(dag, init, steps), output);
    ExitSkipped(dag, init, steps);
  }

  lemma ExitSkipped(dag: Dag, init: Data, steps: seq<Step>)
    requires IsExample(dag) && IsRun(dag, init, steps)
    requires var s := After(dag, init, steps); "c" in s.routed && s.routed["c"] == AGAIN
    ensures var s := After(dag, init, steps); "x" in s.skipped && s.launched["x"] == 0
  {
    ExampleIsRunnable(dag);
    Neighbours(dag);
    OnlyEnteredByExit(dag);
    ExitFires(dag, init, steps, "c", "x");
  }
}
