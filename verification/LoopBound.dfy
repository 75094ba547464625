/** Termination and the dispatch bound, for loop-free graphs and well-formed loops alike. */
module LoopBound {
  import opened Workflow
  import opened Graph
  import opened DagModel
  import opened Scheduler
  import opened SchedulerInvariant
  import opened SchedulerSteps
  import opened LoopSteps

  /** A loop that can only be entered through its controller, is only left through it,
      and reports back to it from wherever its body ends. */
  ghost predicate WellFormedLoop(dag: Dag, c: NodeId)
  {
    var body := dag.BodyOf(c);
    && (forall e :: e in dag.forward && e.target in body ==> e.source == c || e.source in body)
    && (forall e :: e in dag.forward && e.source in body ==> e.target in body)
    && (forall e :: e in dag.loopBack ==> e.source in body)
    && (forall b :: b in body && dag.IsSink(b) ==> exists e :: e in dag.loopBack && e.source == b)
    && MaxIterations(dag.ConfigOf(c)) >= 1
  }

  /** A built graph without a loop, or whose loop is well formed. */
  ghost predicate Runnable(dag: Dag)
  {
    Built(dag) && forall c :: c in dag.Controllers() ==> WellFormedLoop(dag, c)
  }

  ghost function LoopOf(dag: Dag): Loop
  {
    if dag.Controllers() == {} then Loop({}, {})
    else
      var c :| c in dag.Controllers();
      Loop(dag.Controllers(), dag.BodyOf(c))
  }

  /** A body node is a node of the graph, is entered by a forward edge, and is neither
      the controller nor one of its exit targets. */
  lemma BodyMember(dag: Dag, c: NodeId, b: NodeId)
    requires Adjacent(dag) && c in dag.nodes && InBody(dag.forward, dag.Out(c), c, b)
    ensures b in dag.nodes && Entered(dag, b) && b != c && b !in ExitTargets(dag.Out(c))
  {
    var p :| IsBodyPath(dag.forward, dag.Out(c), c, p) && p[|p| - 1] == b;
    assert b in p;
    assert dag.Out(c) == dag.outEdges[c];
    if |p| >= 2 {
      assert HasEdge(dag.forward, p[|p| - 2], p[|p| - 2 + 1]);
      var e :| e in dag.forward && e.source == p[|p| - 2] && e.target == b;
    }
  }

  lemma BodyFacts(dag: Dag, c: NodeId)
    requires Built(dag) && c in dag.Controllers()
    ensures dag.BodyOf(c) <= dag.nodes.Keys && c !in dag.BodyOf(c)
    ensures forall b :: b in dag.BodyOf(c) ==> Entered(dag, b) && b !in ExitTargets(dag.Out(c))
  {
    forall b | b in dag.BodyOf(c)
      ensures b in dag.nodes && Entered(dag, b) && b != c && b !in ExitTargets(dag.Out(c))
    {
      BodyMember(dag, c, b);
    }
  }

  lemma LoopEdges(dag: Dag, c: NodeId, e: Edge)
    requires Built(dag) && c in dag.Controllers() && WellFormedLoop(dag, c) && e in dag.forward
    ensures EdgeRule(Loop({c}, dag.BodyOf(c)), e)
  {
    BodyFacts(dag, c);
    if e.source == c && e.target in dag.BodyOf(c) {
      assert dag.Out(c) == dag.outEdges[c];
      assert e in dag.Out(c);
    }
  }

  lemma LoopLeaves(dag: Dag, c: NodeId, b: NodeId)
    requires Built(dag) && c in dag.Controllers() && WellFormedLoop(dag, c) && b in dag.BodyOf(c)
    ensures Leaves(dag, b)
  {
    BodyFacts(dag, c);
    if dag.successors[b] == [] {
      assert dag.IsSink(b);
    } else {
      MembersFrom(dag.forward, b);
      assert dag.successors[b][0] in TargetsFrom(dag.forward, b);
    }
  }

  lemma LoopShape(dag: Dag, c: NodeId)
    requires Built(dag) && c in dag.Controllers() && WellFormedLoop(dag, c)
    ensures dag.Controllers() == {c} && Shape(dag, Loop({c}, dag.BodyOf(c)))
  {
    var l := Loop({c}, dag.BodyOf(c));
    BodyFacts(dag, c);
    forall e | e in dag.forward ensures EdgeRule(l, e) { LoopEdges(dag, c, e); }
    forall b | b in l.body ensures Leaves(dag, b) { LoopLeaves(dag, c, b); }
  }

  lemma RunnableShape(dag: Dag)
    requires Runnable(dag)
    ensures Shape(dag, LoopOf(dag))
    ensures forall c :: c in dag.Controllers() ==> LoopOf(dag) == Loop({c}, dag.BodyOf(c))
  {
    if dag.Controllers() == {} {
      assert forall e :: e in dag.forward ==> EdgeRule(LoopOf(dag), e);
    } else {
      var c :| c in dag.Controllers();
      LoopShape(dag, c);
    }
  }

  // ---- The bound ----

  lemma SumOne(f: NodeId -> int, c: NodeId)
    ensures Sum(f, {c}) == f(c)
  {
    assert {c} - {c} == {};
  }

  /** The capacity covers every node once, and the share of the loop if there is one. */
  lemma CapacityCovers(dag: Dag)
    ensures dag.loopBody.Keys == {} ==> |dag.nodes| <= MaxDispatches(dag)
    ensures forall c :: dag.loopBody.Keys == {c} ==> |dag.nodes| + LoopShare(dag)(c) <= MaxDispatches(dag)
  {
    forall c | dag.loopBody.Keys == {c}
      ensures |dag.nodes| + LoopShare(dag)(c) <= MaxDispatches(dag)
    {
      SumOne(LoopShare(dag), c);
    }
  }

  /** The capacity as a number: the nodes, and for a controller its cap times one more than its body, but at
      least one. */
  lemma CapacityIs(dag: Dag, c: NodeId)
    requires Built(dag)
    ensures dag.Controllers() == {} ==> MaxDispatches(dag) == if |dag.nodes| < 1 then 1 else |dag.nodes|
    ensures var all := |dag.nodes| + MaxIterations(dag.ConfigOf(c)) * (|dag.BodyOf(c)| + 1);
      c in dag.Controllers() ==> MaxDispatches(dag) == if all < 1 then 1 else all
  {
    if c in dag.Controllers() {
      assert dag.loopBody.Keys == {c};
      CapacityWith(dag, c);
    } else if dag.Controllers() == {} {
      CapacityWithout(dag);
    }
  }

  lemma CapacityWithout(dag: Dag)
    requires dag.loopBody.Keys == {}
    ensures MaxDispatches(dag) == if |dag.nodes| < 1 then 1 else |dag.nodes|
  {
  }

  lemma CapacityWith(dag: Dag, c: NodeId)
    requires dag.loopBody.Keys == {c}
    ensures MaxDispatches(dag) ==
      var all := |dag.nodes| + MaxIterations(dag.ConfigOf(c)) * (|dag.BodyOf(c)| + 1);
      if all < 1 then 1 else all
  {
    SumOne(LoopShare(dag), c);
  }

  lemma DispatchesFit(l: Loop, s: State, nodes: set<NodeId>, cap: nat)
    requires Budget(l, s) && s.started <= nodes && s.passes <= cap
    ensures s.received <= s.dispatched <= |nodes| + PassBudget(l, cap)
  {
    SubsetSize(s.started, nodes);
    ProductGrows(s.passes, cap, |l.body| + 1);
  }

  lemma ShareIsBudget(dag: Dag, l: Loop, c: NodeId, cap: nat)
    requires l.body == dag.BodyOf(c) && cap == MaxIterations(dag.ConfigOf(c))
    ensures LoopShare(dag)(c) == PassBudget(l, cap)
  {
  }

  lemma BudgetFits(dag: Dag, l: Loop, s: State)
    requires Runnable(dag) && l == LoopOf(dag) && Inv(dag, l, s, [])
    ensures s.received <= s.dispatched <= MaxDispatches(dag)
  {
    RunnableShape(dag);
    assert dag.loopBody.Keys == dag.Controllers();
    if c :| c in dag.Controllers() {
      LoopFits(dag, l, s, c);
    } else {
      NodesFit(dag, l, s);
    }
  }

  lemma NodesFit(dag: Dag, l: Loop, s: State)
    requires dag.loopBody.Keys == {} && Budget(l, s) && s.started <= dag.nodes.Keys && s.passes == 0
    ensures s.received <= s.dispatched <= MaxDispatches(dag)
  {
    CapacityCovers(dag);
    assert |dag.nodes.Keys| == |dag.nodes|;
    DispatchesFit(l, s, dag.nodes.Keys, 0);
  }

  lemma LoopFits(dag: Dag, l: Loop, s: State, c: NodeId)
    requires dag.loopBody.Keys == {c} && l.body == dag.BodyOf(c) && Budget(l, s) && s.started <= dag.nodes.Keys
    requires s.passes <= MaxIterations(dag.ConfigOf(c))
    ensures s.received <= s.dispatched <= MaxDispatches(dag)
  {
    var cap: nat := MaxIterations(dag.ConfigOf(c));
    CapacityCovers(dag);
    assert |dag.nodes.Keys| == |dag.nodes|;
    DispatchesFit(l, s, dag.nodes.Keys, cap);
    ShareIsBudget(dag, l, c, cap);
  }

  lemma ProductGrows(a: nat, b: nat, k: nat)
    requires a <= b
    ensures a * k <= b * k
  {
  }

  /** Whatever the nodes answer and in whatever order, the number of dispatches never
      exceeds the capacity of the result channel, so no send ever blocks. */
  lemma DispatchBound(dag: Dag, init: Data, steps: seq<Step>)
    requires Runnable(dag) && IsRun(dag, init, steps)
    ensures var s := After(dag, init, steps);
      s.received <= s.dispatched <= MaxDispatches(dag) && |s.inflight| <= MaxDispatches(dag)
  {
    RunnableShape(dag);
    RunKeeps(dag, LoopOf(dag), init, steps);
    BudgetFits(dag, LoopOf(dag), After(dag, init, steps));
  }

  // ---- Every run is finite ----

  function Waiters(flights: multiset<Flight>): set<Flight>
  {
    set f | f in flights && f.Waiting?
  }

  lemma WaitersLaunch(flights: multiset<Flight>, v: NodeId)
    requires Waiting(v) !in flights
    ensures |Waiters(flights + multiset{Waiting(v)})| == |Waiters(flights)| + 1
  {
    assert Waiters(flights + multiset{Waiting(v)}) == Waiters(flights) + {Waiting(v)};
  }

  lemma WaitersRead(flights: multiset<Flight>, v: NodeId, inputs: Inputs)
    requires flights[Waiting(v)] == 1
    ensures |Waiters(flights - multiset{Waiting(v)} + multiset{Running(v, inputs)})| == |Waiters(flights)| - 1
  {
    assert Waiters(flights - multiset{Waiting(v)} + multiset{Running(v, inputs)}) == Waiters(flights) - {Waiting(v)};
  }

  lemma WaitersLand(flights: multiset<Flight>, f: Flight)
    requires f.Running?
    ensures Waiters(flights - multiset{f}) == Waiters(flights)
  {
  }

  /** How many flights have read their data, plus how many results were received. */
  function Progress(s: State): int
  {
    s.dispatched - |Waiters(s.inflight)| + s.received
  }

  lemma DispatchProgress(s: State, v: NodeId)
    requires Waiting(v) !in s.inflight
    ensures Progress(Dispatch(s, v)) == Progress(s)
  {
    WaitersLaunch(s.inflight, v);
  }

  lemma AbsorbProgress(dag: Dag, l: Loop, s: State, sig: Signal)
    requires Airborne(l, s) && SignalFits(dag, l, s, sig)
    ensures Progress(Absorb(s, sig)) == Progress(s)
  {
    var u := Counted(s, sig);
    assert Progress(u) == Progress(s);
    match React(s, sig)
    case Launches =>
      ReactOnIdle(dag, l, s, sig);
      DispatchProgress(u, sig.target);
    case _ =>
  }

  lemma DeliverProgress(dag: Dag, l: Loop, s: State, todo: seq<Signal>)
    requires Fenced(dag, l) && Inv(dag, l, s, todo)
    ensures Progress(Deliver(dag, s, todo)) == Progress(s)
  {
    ghost var keeps := (t, rest) => Inv(dag, l, t, rest) && Progress(t) == Progress(s);
    forall t, rest | rest != [] && keeps(t, rest)
      ensures keeps(Absorb(t, rest[0]), SentOn(dag, t, rest[0]) + rest[1..])
    {
      AbsorbKeeps(dag, l, t, rest);
      CountedKeeps(dag, l, t, rest);
      AbsorbProgress(dag, l, t, rest[0]);
    }
    DeliverInduction(dag, s, todo, keeps);
  }

  lemma PassProgress(dag: Dag, l: Loop, s: State, t: State, c: NodeId, roots: set<NodeId>)
    requires Airborne(l, s) && BodyAtRest(l, s) && NewPass(dag, l, s, t, c, roots)
    ensures Progress(t) == Progress(s)
  {
    WaitersPass(s.inflight, roots);
  }

  lemma WaitersPass(flights: multiset<Flight>, roots: set<NodeId>)
    requires forall f :: f in flights ==> f.node !in roots
    ensures |Waiters(flights + multiset(Flights(roots)))| == |Waiters(flights)| + |roots|
  {
    FlightsSize(roots);
    assert Waiters(flights + multiset(Flights(roots))) == Waiters(flights) + Flights(roots);
    assert Waiters(flights) !! Flights(roots);
  }

  lemma ControllerProgress(dag: Dag, l: Loop, s: State, c: NodeId, routing: Data)
    requires Shape(dag, l) && Inv(dag, l, s, []) && Landed(dag, l, s, c)
    requires c in l.ctrl && dag.TypeOf(c) == LOOP_CONTROLLER && dag.BodyOf(c) == l.body
    ensures Progress(Schedule(dag, s, c, routing)) == Progress(s)
  {
    if Iterates(dag, s, c, routing) {
      BodyRests(dag, l, s, c);
      StartPassIsNewPass(dag, l, s, c);
      PassProgress(dag, l, s, StartPass(dag, s, c), c, BodyRoots(dag, c));
    } else {
      LeaveKeeps(dag, l, s, c, routing);
      DeliverProgress(dag, l, Left(l, s, c, routing), SignalsOf(dag, c, routing));
      assert Routing(dag, s, c, routing) == Left(l, s, c, routing);
    }
  }

  lemma OrdinaryProgress(dag: Dag, l: Loop, s: State, v: NodeId, routing: Data)
    requires Fenced(dag, l) && Inv(dag, l, s, []) && Landed(dag, l, s, v)
    requires v !in l.ctrl && dag.TypeOf(v) != LOOP_CONTROLLER
    ensures Progress(Schedule(dag, s, v, routing)) == Progress(s)
  {
    FireKeeps(dag, l, s, v, routing);
    DeliverProgress(dag, l, Fired(s, v, routing), SignalsOf(dag, v, routing));
    assert Routing(dag, s, v, routing) == Fired(s, v, routing);
  }

  lemma AcceptProgress(dag: Dag, l: Loop, s: State, v: NodeId, r: Outcome)
    requires Shape(dag, l) && Inv(dag, l, s, []) && Landed(dag, l, s, v)
    ensures Progress(Accept(dag, s, v, r)) == Progress(s)
  {
    if r.Succeeded? && s.firstErr == None {
      if v in l.ctrl {
        ControllerProgress(dag, l, s, v, r.routing);
      } else {
        OrdinaryProgress(dag, l, s, v, r.routing);
      }
    }
  }

  lemma ReadProgress(dag: Dag, l: Loop, s: State, v: NodeId)
    requires Airborne(l, s) && Waiting(v) in s.inflight
    ensures Progress(Apply(dag, s, Read(v))) == Progress(s) + 1
  {
    assert FlightOK(l, s, Waiting(v));
    WaitersRead(s.inflight, v, Upstream(s, v));
  }

  lemma RecordProgress(s: State, f: Flight, r: Outcome)
    requires f.Running?
    ensures Progress(Record(s, f, r)) == Progress(s) + 1
  {
    WaitersLand(s.inflight, f);
  }

  lemma ApplyProgress(dag: Dag, l: Loop, s: State, step: Step)
    requires Shape(dag, l) && Inv(dag, l, s, []) && Enabled(s, step)
    ensures Progress(Apply(dag, s, step)) == Progress(s) + 1
  {
    match step
    case Read(v) => ReadProgress(dag, l, s, v);
    case Recv(f, r) =>
      RecordKeeps(dag, l, s, f, r);
      RecordProgress(s, f, r);
      AcceptProgress(dag, l, Record(s, f, r), f.node, r);
  }

  lemma {:induction false} RunProgress(dag: Dag, l: Loop, init: Data, steps: seq<Step>)
    requires Shape(dag, l) && IsRun(dag, init, steps)
    ensures Progress(After(dag, init, steps)) == |steps|
  {
    if steps == [] {
      var s := Start(dag, init);
      FlightsSize(s.started);
      assert Waiters(s.inflight) == Flights(s.started);
    } else {
      var front := steps[..|steps| - 1];
      RunProgress(dag, l, init, front);
      RunKeeps(dag, l, init, front);
      ApplyProgress(dag, l, After(dag, init, front), steps[|steps| - 1]);
    }
  }

  /** The supervisor terminates: no run, not even one whose controller always asks for
      another pass, is longer than two steps per dispatch the channel allows for; and as
      long as something is in flight, the run can go on. */
  lemma RunsAreFinite(dag: Dag, init: Data, steps: seq<Step>)
    requires Runnable(dag) && IsRun(dag, init, steps)
    ensures |steps| <= 2 * MaxDispatches(dag)
    ensures var s := After(dag, init, steps);
      !Quiescent(s) <==> exists step :: Enabled(s, step)
  {
    RunnableShape(dag);
    RunProgress(dag, LoopOf(dag), init, steps);
    DispatchBound(dag, init, steps);
    var s := After(dag, init, steps);
    if !Quiescent(s) {
      var f :| f in s.inflight;
      match f
      case Waiting(v) => assert Enabled(s, Read(v));
      case Running(_, _) => assert Enabled(s, Recv(f, Failed("")));
    }
  }
}
