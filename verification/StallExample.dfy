/** The two ways a loop can stall. In the first graph both labelled edges of the controller lead to
    the same node, so that its loop has no body; in the second the source of the loop-back edge
    is behind a label. The builder accepts both. */
module StallExample {
  import opened Workflow
  import opened Graph
  import opened DagModel
  import opened Scheduler
  import opened SchedulerInvariant
  import opened LoopBound
  import opened LoopExample
  import opened Completion
  import opened LoopIsolation
  import opened LoopCauses
  import opened LoopSure
  import opened LoopExit
  import opened LoopCompletion
  import opened LoopStalls
  import opened Landings

  const PAIR := [Node("c", LOOP_CONTROLLER, ONE_PASS), Node("x", "end", map[])]
  const ASIDE := Edge("1", "c", "x", Some(LOOP_BODY), false)
  const BOTH := [ASIDE, LEAVE]

  lemma AllForward()
    ensures Closures.Forward(BOTH) == BOTH && DagBuild.Backward(BOTH) == []
  {
    assert BOTH[..1] == [ASIDE] && [ASIDE][..0] == [];
    assert Closures.Forward([ASIDE]) == [ASIDE] && DagBuild.Backward([ASIDE]) == [];
  }

  lemma NodesOfPair()
    ensures DagBuild.NodeMap(PAIR) == map["c" := PAIR[0], "x" := PAIR[1]]
    ensures DagBuild.CountControllers(PAIR) == 1 && DagBuild.DistinctIds(PAIR)
  {
    var one := [PAIR[0]];
    assert PAIR[..1] == one && one[..0] == [];
    assert DagBuild.CountControllers(one) == 1 && DagBuild.NodeMap(one) == map["c" := PAIR[0]];
  }

  lemma PairIsAcceptable()
    ensures DagBuild.Acceptable(PAIR, BOTH)
  {
    AllForward();
    NodesOfPair();
    var order := ["c", "x"];
    assert order[1..] == ["x"] && IndexOf(order, "c") == 0 && IndexOf(order, "x") == 1;
    assert PointsLater(order, ASIDE) && PointsLater(order, LEAVE);
    TopoSort.SortedIsAcyclic(order, {"c", "x"}, BOTH);
    assert ASIDE in BOTH && LEAVE in BOTH;
    assert DagBuild.HasLabel(BOTH, "c", LOOP_BODY) && DagBuild.HasLabel(BOTH, "c", EXIT);
  }

  ghost predicate IsPair(dag: Dag)
  {
    Built(dag) && dag.nodes == map["c" := PAIR[0], "x" := PAIR[1]] && dag.forward == BOTH && dag.loopBack == []
  }

  method BuildPair() returns (dag: Dag)
    ensures IsPair(dag)
  {
    PairIsAcceptable();
    AllForward();
    NodesOfPair();
    var r := DagBuild.Build(PAIR, BOTH);
    dag := r.value;
  }

  lemma ListsOfPair()
    ensures OutOf(BOTH, "c") == BOTH && SourcesInto(BOTH, "c") == [] && SourcesInto(BOTH, "x") == ["c", "c"]
    ensures TargetsFrom(BOTH, "x") == [] && TargetsFrom(BOTH, "c") == ["x", "x"]
  {
    assert BOTH[..1] == [ASIDE] && [ASIDE][..0] == [];
    assert OutOf([ASIDE], "c") == [ASIDE] && SourcesInto([ASIDE], "c") == [] && SourcesInto([ASIDE], "x") == ["c"];
    assert TargetsFrom([ASIDE], "x") == [] && TargetsFrom([ASIDE], "c") == ["x"];
  }

  lemma EdgesOfPair(dag: Dag)
    requires IsPair(dag)
    ensures dag.Out("c") == BOTH && dag.Preds("c") == [] && dag.Preds("x") == ["c", "c"]
    ensures dag.IsSink("x") && !dag.IsSink("c")
  {
    ListsOfPair();
    assert dag.outEdges["c"] == OutOf(BOTH, "c");
    assert dag.predecessors["c"] == SourcesInto(BOTH, "c") && dag.predecessors["x"] == SourcesInto(BOTH, "x");
    assert dag.successors["c"] == TargetsFrom(BOTH, "c") && dag.successors["x"] == TargetsFrom(BOTH, "x");
  }

  lemma ControllersOfPair(dag: Dag)
    requires dag.nodes == map["c" := PAIR[0], "x" := PAIR[1]]
    ensures dag.Controllers() == {"c"} && dag.TypeOf("c") == LOOP_CONTROLLER && dag.ConfigOf("c") == ONE_PASS
  {
  }

  lemma NoBodyPath(v: NodeId)
    ensures !InBody(BOTH, BOTH, "c", v)
  {
    assert LEAVE in BOTH && "x" in ExitTargets(BOTH);
    assert forall w :: EntersBody(BOTH, w) ==> w == "x";
  }

  lemma BodyIsEmpty(dag: Dag)
    requires IsPair(dag)
    ensures dag.BodyOf("c") == {}
  {
    EdgesOfPair(dag);
    assert "c" in dag.loopBody;
    forall v
      ensures v !in dag.loopBody["c"]
    {
      NoBodyPath(v);
    }
  }

  lemma PairIsWellFormed(dag: Dag)
    requires dag.BodyOf("c") == {} && dag.loopBack == [] && dag.ConfigOf("c") == ONE_PASS
    ensures WellFormedLoop(dag, "c")
  {
  }

  /** The theorems about loops cover the pair. */
  lemma PairIsRunnable(dag: Dag)
    requires IsPair(dag)
    ensures Runnable(dag) && dag.BodyOf("c") == {}
  {
    BodyIsEmpty(dag);
    ControllersOfPair(dag);
    PairIsWellFormed(dag);
    OnlyLoop(dag);
  }

  /** What the run depends on. */
  predicate Bare(dag: Dag)
  {
    && dag.TypeOf("c") == LOOP_CONTROLLER && dag.ConfigOf("c") == ONE_PASS && dag.BodyOf("c") == {}
    && dag.nodes.Keys == {"c", "x"} && dag.Preds("c") == [] && dag.Preds("x") == ["c", "c"]
    && dag.Controllers() == {"c"} && !dag.IsSink("c")
  }

  /** What has happened when the controller has asked for a pass over nothing. */
  predicate PassedNothing(s: State)
  {
    && Quiescent(s) && s.firstErr == None && s.passes == 1 && !s.exited
    && s.skipped == {} && s.routed == map[] && "x" !in s.outputs
  }

  /** The state before: nothing but the controller has been touched. */
  predicate JustStarted(s: State)
  {
    && s.firstErr == None && s.passes == 0 && !s.exited && s.loopIterations == map[]
    && s.skipped == {} && s.routed == map[] && "x" !in s.outputs
  }

  lemma Untouched(dag: Dag, s: State, t: State, f: Flight, r: Outcome)
    requires r.Succeeded? && f.node == "c" && dag.BodyOf("c") == {} && Passed(dag, s, t, f, r)
    requires JustStarted(s) && s.inflight == multiset{f}
    ensures PassedNothing(t)
  {
    assert BodyRoots(dag, "c") == {} && Flights({}) == {};
  }

  lemma NothingToPass(dag: Dag, s: State, f: Flight)
    requires dag.TypeOf("c") == LOOP_CONTROLLER && dag.ConfigOf("c") == ONE_PASS && dag.BodyOf("c") == {}
    requires s.inflight == multiset{f} && f.node == "c" && JustStarted(s)
    ensures PassedNothing(Receive(dag, s, f, Succeeded(AGAIN, AGAIN)))
  {
    var r := Succeeded(AGAIN, AGAIN);
    assert Iterates(dag, s, "c", AGAIN);
    Diamond.ReceiveStarts(dag, s, f, r);
    PassesIsPassed(dag, s, f, r);
    Untouched(dag, s, Passes(dag, s, f, r), f, r);
  }

  lemma StartOfPair(dag: Dag, init: Data)
    requires dag.nodes.Keys == {"c", "x"} && dag.Preds("c") == [] && dag.Preds("x") == ["c", "c"]
    ensures IsRun(dag, init, []) && JustStarted(After(dag, init, []))
    ensures After(dag, init, []).inflight == multiset{Waiting("c")}
  {
    assert Roots(dag) == {"c"};
    StartOfExample(dag, init);
  }

  lemma EmptyReport(dag: Dag, s: State)
    requires dag.nodes.Keys == {"c", "x"} && !dag.IsSink("c") && PassedNothing(s)
    ensures Finish(dag, s) == Report(map[], s.nodeResults, None)
  {
    assert SinkOutputs(dag, s.outputs) == map[];
  }

  /** The run is over with the loop stalled, and with neither an output nor an error to report. */
  ghost predicate SilentlyOver(dag: Dag, s: State)
  {
    && Quiescent(s) && Stalled(dag, LoopOf(dag), s) && !IsSettled(s, "x")
    && Finish(dag, s) == Report(map[], s.nodeResults, None)
  }

  lemma StalledAfter(dag: Dag, s: State)
    requires Bare(dag) && PassedNothing(s)
    ensures SilentlyOver(dag, s)
  {
    EmptyReport(dag, s);
  }

  /** A controller that asks for a pass over an empty body: nothing is dispatched, the run is over
      with the loop stalled and the node behind the loop neither executed nor skipped, and the
      report has no output and no error. */
  lemma SilentEnd(dag: Dag, init: Data) returns (steps: seq<Step>)
    requires IsPair(dag)
    ensures IsRun(dag, init, steps) && SilentlyOver(dag, After(dag, init, steps))
  {
    PairIsBare(dag);
    steps := AskOnce(dag, init);
    StalledAfter(dag, After(dag, init, steps));
  }

  lemma PairIsBare(dag: Dag)
    requires IsPair(dag)
    ensures Bare(dag)
  {
    EdgesOfPair(dag);
    ControllersOfPair(dag);
    BodyIsEmpty(dag);
  }

  lemma AskOnce(dag: Dag, init: Data) returns (steps: seq<Step>)
    requires Bare(dag)
    ensures IsRun(dag, init, steps) && PassedNothing(After(dag, init, steps))
  {
    StartOfPair(dag, init);
    var inputs;
    steps, inputs := ReadIt(dag, init, [], "c");
    NothingToPass(dag, After(dag, init, steps), Running("c", inputs));
    steps := Answer(dag, init, steps, "c", inputs, AGAIN);
  }

  // ---- A source that is skipped ----

  const TRIO_NODES := [
    Node("c", LOOP_CONTROLLER, ONE_PASS), Node("b", "work", map[]), Node("d", "work", map[]), Node("x", "end", map[])]
  const MAYBE := Edge("3", "b", "d", Some("yes"), false)
  const RETURN := Edge("4", "d", "c", None, true)
  const ONWARD := [ENTER, LEAVE, MAYBE]
  const FORK := [ENTER, LEAVE, MAYBE, RETURN]

  lemma ForkParts()
    ensures Closures.Forward(FORK) == ONWARD && DagBuild.Backward(FORK) == [RETURN]
  {
    assert FORK[..3] == ONWARD && ONWARD[..2] == [ENTER, LEAVE] && [ENTER, LEAVE][..1] == [ENTER] && [ENTER][..0] == [];
    assert Closures.Forward([ENTER]) == [ENTER] && DagBuild.Backward([ENTER]) == [];
    assert Closures.Forward([ENTER, LEAVE]) == [ENTER, LEAVE] && DagBuild.Backward([ENTER, LEAVE]) == [];
    assert Closures.Forward(ONWARD) == ONWARD && DagBuild.Backward(ONWARD) == [];
  }

  const TRIO_MAP := map["c" := TRIO_NODES[0], "b" := TRIO_NODES[1], "d" := TRIO_NODES[2], "x" := TRIO_NODES[3]]

  lemma NodesOfFork()
    ensures DagBuild.NodeMap(TRIO_NODES) == TRIO_MAP
    ensures DagBuild.CountControllers(TRIO_NODES) == 1 && DagBuild.DistinctIds(TRIO_NODES)
  {
    var one, two, three := TRIO_NODES[..1], TRIO_NODES[..2], TRIO_NODES[..3];
    assert three[..2] == two && two[..1] == one && one[..0] == [];
    assert DagBuild.CountControllers(one) == 1 && DagBuild.NodeMap(one) == map["c" := TRIO_NODES[0]];
    assert DagBuild.CountControllers(two) == 1;
    assert DagBuild.NodeMap(two) == map["c" := TRIO_NODES[0], "b" := TRIO_NODES[1]];
    assert DagBuild.CountControllers(three) == 1;
    assert DagBuild.NodeMap(three) == map["c" := TRIO_NODES[0], "b" := TRIO_NODES[1], "d" := TRIO_NODES[2]];
  }

  lemma ForkOrder()
    ensures var order := ["c", "b", "d", "x"];
      IndexOf(order, "c") == 0 && IndexOf(order, "b") == 1 && IndexOf(order, "d") == 2 && IndexOf(order, "x") == 3
  {
    var order := ["c", "b", "d", "x"];
    assert order[1..] == ["b", "d", "x"] && order[1..][1..] == ["d", "x"] && order[1..][1..][1..] == ["x"];
    assert IndexOf(["x"], "x") == 0 && IndexOf(["d", "x"], "x") == 1 && IndexOf(["b", "d", "x"], "x") == 2;
    assert IndexOf(["d", "x"], "d") == 0 && IndexOf(["b", "d", "x"], "d") == 1;
  }

  lemma ForkIsAcyclic()
    ensures Acyclic(ONWARD)
  {
    ForkOrder();
    var order := ["c", "b", "d", "x"];
    assert PointsLater(order, ENTER) && PointsLater(order, LEAVE) && PointsLater(order, MAYBE);
    TopoSort.SortedIsAcyclic(order, {"c", "b", "d", "x"}, ONWARD);
  }

  lemma ForkEdgesFit()
    ensures DagBuild.EdgesOK(TRIO_NODES, ONWARD, [RETURN])
  {
    NodesOfFork();
    ForkEnds(TRIO_MAP);
  }

  lemma ForkEnds(all: map<NodeId, Node>)
    requires all == TRIO_MAP
    ensures forall e :: e in ONWARD ==> e.source in all && e.target in all
    ensures DagBuild.IsController(all, "c") && "d" in all
  {
  }

  lemma ForkLabelsFit()
    ensures DagBuild.LabelsOK(TRIO_NODES, ONWARD)
  {
    assert ENTER in ONWARD && LEAVE in ONWARD;
    assert DagBuild.HasLabel(ONWARD, "c", LOOP_BODY) && DagBuild.HasLabel(ONWARD, "c", EXIT);
  }

  lemma ForkIsAcceptable()
    ensures DagBuild.Acceptable(TRIO_NODES, FORK)
  {
    ForkParts();
    ForkEdgesFit();
    ForkIsAcyclic();
    ForkLabelsFit();
  }

  ghost predicate IsFork(dag: Dag)
  {
    Built(dag) && dag.nodes == TRIO_MAP && dag.forward == ONWARD && dag.loopBack == [RETURN]
  }

  method BuildFork() returns (dag: Dag)
    ensures IsFork(dag)
  {
    ForkIsAcceptable();
    ForkParts();
    NodesOfFork();
    var r := DagBuild.Build(TRIO_NODES, FORK);
    dag := r.value;
  }

  lemma ForkOut()
    ensures OutOf(ONWARD, "c") == [ENTER, LEAVE] && SourcesInto(ONWARD, "d") == ["b"]
  {
    assert ONWARD[..2] == [ENTER, LEAVE] && [ENTER, LEAVE][..1] == [ENTER] && [ENTER][..0] == [];
    assert OutOf([ENTER], "c") == [ENTER] && OutOf([ENTER, LEAVE], "c") == [ENTER, LEAVE];
    assert SourcesInto([ENTER], "d") == [] && SourcesInto([ENTER, LEAVE], "d") == [];
  }

  lemma ForkTargets()
    ensures TargetsFrom(ONWARD, "c") != [] && TargetsFrom(ONWARD, "b") != []
    ensures TargetsFrom(ONWARD, "d") == [] && TargetsFrom(ONWARD, "x") == []
  {
    NoTargets(ONWARD, "c");
    NoTargets(ONWARD, "b");
    NoTargets(ONWARD, "d");
    NoTargets(ONWARD, "x");
    assert ENTER in ONWARD && MAYBE in ONWARD;
  }

  lemma ForkGraph(dag: Dag)
    requires IsFork(dag)
    ensures dag.Out("c") == [ENTER, LEAVE] && dag.Preds("d") == ["b"]
    ensures dag.IsSink("d") && dag.IsSink("x") && !dag.IsSink("c") && !dag.IsSink("b") && dag.successors["d"] == []
  {
    ForkOut();
    ForkTargets();
    assert dag.outEdges["c"] == OutOf(ONWARD, "c") && dag.predecessors["d"] == SourcesInto(ONWARD, "d");
    assert dag.successors["c"] == TargetsFrom(ONWARD, "c") && dag.successors["b"] == TargetsFrom(ONWARD, "b");
    assert dag.successors["d"] == TargetsFrom(ONWARD, "d") && dag.successors["x"] == TargetsFrom(ONWARD, "x");
  }

  lemma ForkStep(u: NodeId, v: NodeId)
    requires HasEdge(ONWARD, u, v)
    ensures u == "c" || (u == "b" && v == "d")
  {
  }

  predicate FromBToD(p: seq<NodeId>, i: nat)
  {
    i + 1 < |p| && p[i] == "b" && p[i + 1] == "d"
  }

  lemma ForkPath(p: seq<NodeId>)
    requires IsBodyPath(ONWARD, [ENTER, LEAVE], "c", p)
    ensures p == ["b"] || p == ["b", "d"]
  {
    forall i: nat | i + 1 < |p|
      ensures FromBToD(p, i)
    {
      assert HasEdge(ONWARD, p[i], p[i + 1]) && p[i] in p;
      ForkStep(p[i], p[i + 1]);
    }
    assert p[0] == "b" && (|p| >= 2 ==> FromBToD(p, 0)) && (|p| >= 3 ==> FromBToD(p, 1));
  }

  lemma ForkMember(v: NodeId)
    ensures InBody(ONWARD, [ENTER, LEAVE], "c", v) <==> v == "b" || v == "d"
  {
    var out := [ENTER, LEAVE];
    assert ENTER in out && LEAVE in out && MAYBE in ONWARD && EntersBody(out, "b") && HasEdge(ONWARD, "b", "d");
    assert IsBodyPath(ONWARD, out, "c", ["b"]) && ["b"][|["b"]| - 1] == "b";
    assert IsBodyPath(ONWARD, out, "c", ["b", "d"]) && ["b", "d"][|["b", "d"]| - 1] == "d";
    forall p | IsBodyPath(ONWARD, out, "c", p)
      ensures p[|p| - 1] == "b" || p[|p| - 1] == "d"
    {
      ForkPath(p);
    }
  }

  lemma ForkBodyNodes(body: set<NodeId>)
    requires forall v :: v in body <==> InBody(ONWARD, [ENTER, LEAVE], "c", v)
    ensures body == {"b", "d"}
  {
    forall v
      ensures v in body <==> v in {"b", "d"}
    {
      ForkMember(v);
    }
  }

  lemma ForkBody(dag: Dag)
    requires IsFork(dag)
    ensures dag.BodyOf("c") == {"b", "d"}
  {
    ForkGraph(dag);
    ForkControllers(dag);
    assert "c" in dag.loopBody;
    ForkBodyNodes(dag.loopBody["c"]);
  }

  lemma ForkControllers(dag: Dag)
    requires dag.nodes == TRIO_MAP
    ensures dag.Controllers() == {"c"} && dag.ConfigOf("c") == ONE_PASS && NoReservedIds(dag)
  {
  }

  lemma ForkIsWellFormed(dag: Dag)
    requires dag.BodyOf("c") == {"b", "d"} && dag.forward == ONWARD && dag.loopBack == [RETURN]
    requires dag.ConfigOf("c") == ONE_PASS && !dag.IsSink("b")
    ensures WellFormedLoop(dag, "c")
  {
    assert RETURN in dag.loopBack && RETURN.source == "d";
  }

  lemma ForkIsRunnable(dag: Dag)
    requires IsFork(dag)
    ensures Runnable(dag)
  {
    ForkGraph(dag);
    ForkBody(dag);
    ForkControllers(dag);
    ForkIsWellFormed(dag);
    OnlyLoop(dag);
  }

  /** No edge without a label leads to the source of the loop-back edge. */
  lemma ForkNotAssured(dag: Dag)
    requires dag.BodyOf("c") == {"b", "d"} && dag.forward == ONWARD && dag.loopBack == [RETURN]
    requires dag.Preds("d") == ["b"]
    ensures !Assured(dag, "c")
  {
    var body := {"b", "d"};
    assert RETURN in dag.loopBack && ["b"][..0] == [] && CountIn(["b"], body) == 1;
    assert forall u :: !PlainStep(dag, body, u, "d");
    forall p | IsSurePath(dag, body, p)
      ensures p[|p| - 1] != "d"
    {
      assert |p| >= 2 ==> PlainStep(dag, body, p[|p| - 2], p[|p| - 2 + 1]);
    }
  }

  /** The run is over with the loop stalled: the source of the loop-back edge was skipped and never ran,
      and the node behind the loop is neither executed nor skipped. */
  predicate SourceSkipped(s: State)
  {
    Quiescent(s) && InLoop(s) && "d" in s.skipped && s.launched["d"] == 0 && !IsSettled(s, "x") && s.launched["x"] == 0
  }

  lemma ForkEnd(dag: Dag, l: Loop, s: State)
    requires Shape(dag, l) && l == Loop({"c"}, {"b", "d"}) && dag.ConfigOf("c") == ONE_PASS && dag.loopBack == [RETURN]
    requires OnlyByExit(dag, "c", "x") && "x" in dag.nodes && "c" in dag.nodes
    requires IsoInv(dag, l, s) && LeftOK(dag, s, "c") && StandsOK(s, "c", "x") && Stalled(dag, l, s) && Quiescent(s)
    ensures SourceSkipped(s)
  {
    ForkCounts(dag, l, s);
    ExitWaits(dag, l, s);
  }

  lemma ExitWaits(dag: Dag, l: Loop, s: State)
    requires Inv(dag, l, s, []) && OnlyByExit(dag, "c", "x") && "c" in dag.nodes && InLoop(s) && LeftOK(dag, s, "c")
    requires "x" !in l.body && "x" !in l.ctrl && "c" in l.ctrl && StandsOK(s, "c", "x")
    ensures !IsSettled(s, "x") && s.launched["x"] == 0
  {
    StillWaiting(dag, l, s, "c", "x");
    assert OnceOK(s, "x");
  }

  lemma ForkCounts(dag: Dag, l: Loop, s: State)
    requires l == Loop({"c"}, {"b", "d"}) && dag.ConfigOf("c") == ONE_PASS && "d" in dag.nodes && "d" in s.skipped
    requires Once(dag, l, s) && LoopFacts(dag, l, s) && Turns(dag, l, s) && InLoop(s)
    ensures s.launched["d"] == 0
  {
    assert TurnsOK(dag, l, s, "d") && OnceOK(s, "d");
  }

  lemma ForkReport(dag: Dag, s: State)
    requires dag.nodes.Keys == {"c", "b", "d", "x"} && !dag.IsSink("c") && !dag.IsSink("b")
    requires "d" in dag.successors && dag.successors["d"] == []
    requires s.firstErr == None && "d" in s.skipped && "d" !in s.outputs && "x" !in s.outputs
    ensures Finish(dag, s) == Report(map[], s.nodeResults, Some(ALL_SUPPRESSED))
  {
    assert SinkOutputs(dag, s.outputs) == map[];
  }

  lemma NoOutput(dag: Dag, l: Loop, init: Data, steps: seq<Step>, v: NodeId)
    requires Shape(dag, l) && NoReservedIds(dag) && IsRun(dag, init, steps) && After(dag, init, steps).firstErr == None
    requires v in dag.nodes && After(dag, init, steps).launched[v] == 0
    ensures v !in After(dag, init, steps).outputs
  {
    RunCompleted(dag, l, init, steps, v);
    RunWitness(dag, l, init, steps);
    assert LatestOK(Outs(steps, v), After(dag, init, steps), v);
  }

  lemma ForkFacts(dag: Dag, l: Loop, init: Data, steps: seq<Step>)
    requires Shape(dag, l) && "c" in l.ctrl && OnlyByExit(dag, "c", "x") && IsRun(dag, init, steps)
    ensures IsoInv(dag, l, After(dag, init, steps)) && LeftOK(dag, After(dag, init, steps), "c")
    ensures StandsOK(After(dag, init, steps), "c", "x")
  {
    RunTurns(dag, l, init, steps);
    RunLeft(dag, l, init, steps, "c");
    RunGate(dag, l, init, steps, "c", "x");
  }

  lemma ForkRun(dag: Dag, l: Loop, init: Data, steps: seq<Step>)
    requires Shape(dag, l) && l == Loop({"c"}, {"b", "d"}) && dag.ConfigOf("c") == ONE_PASS && dag.loopBack == [RETURN]
    requires OnlyByExit(dag, "c", "x") && "c" in dag.nodes && NoReservedIds(dag) && "d" in dag.nodes
    requires IsRun(dag, init, steps) && After(dag, init, steps).firstErr == None
    requires Quiescent(After(dag, init, steps)) && Stalled(dag, l, After(dag, init, steps))
    ensures SourceSkipped(After(dag, init, steps))
    ensures "d" !in After(dag, init, steps).outputs && "x" !in After(dag, init, steps).outputs
  {
    ForkFacts(dag, l, init, steps);
    ForkEnd(dag, l, After(dag, init, steps));
    NoOutput(dag, l, init, steps, "d");
    NoOutput(dag, l, init, steps, "x");
  }

  lemma ForkPlayed(dag: Dag, init: Data) returns (steps: seq<Step>)
    requires Runnable(dag) && "c" in dag.Controllers() && !Assured(dag, "c")
    ensures IsRun(dag, init, steps) && Quiescent(After(dag, init, steps)) && After(dag, init, steps).firstErr == None
    ensures Shape(dag, LoopOf(dag)) && LoopOf(dag) == Loop({"c"}, dag.BodyOf("c"))
    ensures Stalled(dag, LoopOf(dag), After(dag, init, steps))
  {
    steps := Played(dag, init, v => Reply(dag, "c", v), []);
    ScriptStalls(dag, init, steps, "c");
    StallCause(dag, init, steps);
    RunnableShape(dag);
  }

  lemma ForkExit(dag: Dag)
    requires dag.forward == ONWARD && "x" in dag.nodes
    ensures OnlyByExit(dag, "c", "x")
  {
    assert LEAVE in dag.forward;
  }

  /** What the run of the fork depends on. */
  ghost predicate ForkWired(dag: Dag)
  {
    && Runnable(dag) && dag.Controllers() == {"c"} && dag.BodyOf("c") == {"b", "d"} && !Assured(dag, "c")
    && dag.ConfigOf("c") == ONE_PASS && dag.loopBack == [RETURN] && OnlyByExit(dag, "c", "x") && NoReservedIds(dag)
    && dag.nodes.Keys == {"c", "b", "d", "x"} && !dag.IsSink("c") && !dag.IsSink("b")
    && "d" in dag.successors && dag.successors["d"] == []
  }

  lemma ForkIsWired(dag: Dag)
    requires IsFork(dag)
    ensures ForkWired(dag)
  {
    ForkIsRunnable(dag);
    ForkGraph(dag);
    ForkBody(dag);
    ForkControllers(dag);
    ForkNotAssured(dag);
    ForkExit(dag);
  }

  /** A loop-back edge behind a label that its source does not allow: the run stalls, and is reported as
      if conditional routing had suppressed every sink. */
  lemma BranchStalls(dag: Dag, init: Data) returns (steps: seq<Step>)
    requires IsFork(dag)
    ensures IsRun(dag, init, steps) && SourceSkipped(After(dag, init, steps))
    ensures Suppressed(dag, After(dag, init, steps))
  {
    ForkIsWired(dag);
    steps := ForkPlayed(dag, init);
    ForkRun(dag, LoopOf(dag), init, steps);
    ForkReport(dag, After(dag, init, steps));
  }

  predicate Suppressed(dag: Dag, s: State)
  {
    Finish(dag, s) == Report(map[], s.nodeResults, Some(ALL_SUPPRESSED))
  }
}
