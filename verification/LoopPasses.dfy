/** What one pass over a loop body executes, branch labels in the body included. */
module LoopPasses {
  import opened Workflow
  import opened Graph
  import opened DagModel
  import opened Scheduler
  import opened SchedulerInvariant
  import opened LoopSteps
  import opened LoopBound
  import opened LoopFree
  import opened LoopCauses
  import opened LoopSure
  import opened LoopIsolation
  import opened Delivery
  import opened Landings
  import opened Diamond
  import opened StepsCommute

  // ---- At most once ----

  /** From `s` to `t`, `b` was dispatched at most once: exactly if it is marked as dispatched now and was not before. */
  predicate OnceMore(s: State, t: State, b: NodeId)
  {
    && (b in s.started ==> b in t.started)
    && t.launched[b] == s.launched[b] + (if b in t.started && b !in s.started then 1 else 0)
  }

  lemma DeliverOnceMore(dag: Dag, l: Loop, s: State, todo: seq<Signal>, b: NodeId)
    requires Fenced(dag, l) && Inv(dag, l, s, todo)
    ensures OnceMore(s, Deliver(dag, s, todo), b)
  {
    ghost var keeps := (t, rest) => Inv(dag, l, t, rest) && OnceMore(s, t, b);
    forall t, rest | rest != [] && keeps(t, rest)
      ensures keeps(Absorb(t, rest[0]), SentOn(dag, t, rest[0]) + rest[1..])
    {
      AbsorbKeeps(dag, l, t, rest);
      CountedKeeps(dag, l, t, rest);
      AbsorbOnceMore(dag, l, s, t, rest[0], b);
    }
    DeliverInduction(dag, s, todo, keeps);
  }

  lemma AbsorbOnceMore(dag: Dag, l: Loop, s: State, t: State, sig: Signal, b: NodeId)
    requires SignalFits(dag, l, t, sig) && OnceMore(s, t, b)
    ensures OnceMore(s, Absorb(t, sig), b)
  {
    ReactOnIdle(dag, l, t, sig);
    AbsorbTouches(t, sig);
  }

  /** `t` comes after `s`, and unless a pass was started in between, `b` was dispatched at most once. */
  predicate Within(s: State, t: State, b: NodeId)
  {
    s.passes <= t.passes && (s.passes == t.passes ==> OnceMore(s, t, b))
  }

  lemma LandingWithin(dag: Dag, l: Loop, s: State, f: Flight, r: Outcome, b: NodeId)
    requires Fenced(dag, l) && Inv(dag, l, s, []) && s.firstErr == None && f in s.inflight && r.Succeeded?
    requires f.node !in l.ctrl && dag.TypeOf(f.node) != LOOP_CONTROLLER
    ensures Within(s, Receive(dag, s, f, r), b)
  {
    var u, todo := Landing(s, f, r), SignalsOf(dag, f.node, r.routing);
    LandingLands(s, f, r);
    LandingBeside(dag, l, s, [], f, r);
    assert todo + [] == todo;
    ReceiveLands(dag, s, f, r);
    DeliverSame(dag, u, todo);
    DeliverOnceMore(dag, l, u, todo, b);
  }

  lemma QuitsWithin(dag: Dag, l: Loop, s: State, f: Flight, r: Outcome, b: NodeId)
    requires Shape(dag, l) && Inv(dag, l, s, []) && s.firstErr == None && f in s.inflight && r.Succeeded?
    requires f.node in l.ctrl && !Iterates(dag, s, f.node, r.routing)
    ensures Within(s, Receive(dag, s, f, r), b)
  {
    var u, todo := Quits(l, s, f, r), SignalsOf(dag, f.node, r.routing);
    TypeOfController(dag, l, f.node);
    LandingLands(s, f, r);
    QuitsMarks(l, s, f, r);
    QuitsKeeps(dag, l, s, f, r);
    ReceiveQuits(dag, l, s, f, r);
    DeliverSame(dag, u, todo);
    DeliverOnceMore(dag, l, u, todo, b);
  }

  lemma HaltWithin(dag: Dag, s: State, f: Flight, r: Outcome, b: NodeId)
    requires r.Failed? || s.firstErr != None
    ensures Within(s, Receive(dag, s, f, r), b)
  {
    assert Receive(dag, s, f, r) == Record(s, f, r);
  }

  lemma ApplyWithin(dag: Dag, l: Loop, s: State, step: Step, b: NodeId)
    requires Shape(dag, l) && Inv(dag, l, s, []) && Enabled(s, step)
    ensures Within(s, Apply(dag, s, step), b)
  {
    match step
    case Read(_) =>
    case Recv(f, r) =>
      TypeOfController(dag, l, f.node);
      if r.Failed? || s.firstErr != None {
        HaltWithin(dag, s, f, r, b);
      } else if f.node !in l.ctrl {
        LandingWithin(dag, l, s, f, r, b);
      } else if Iterates(dag, s, f.node, r.routing) {
        ReceiveStarts(dag, s, f, r);
        PassesRecords(dag, s, f, r);
      } else {
        QuitsWithin(dag, l, s, f, r, b);
      }
  }

  lemma {:induction false} RunWithin(dag: Dag, l: Loop, init: Data, steps: seq<Step>, k: nat, b: NodeId)
    requires Shape(dag, l) && IsRun(dag, init, steps) && k <= |steps|
    ensures Within(After(dag, init, steps[..k]), After(dag, init, steps), b)
  {
    if k == |steps| {
      assert steps[..k] == steps;
    } else {
      var front := steps[..|steps| - 1];
      assert front[..k] == steps[..k];
      LastStep(dag, init, steps);
      RunWithin(dag, l, init, front, k, b);
      RunKeeps(dag, l, init, front);
      ApplyWithin(dag, l, After(dag, init, front), steps[|steps| - 1], b);
    }
  }

  /** As long as no pass is started, every node is dispatched at most once. */
  lemma OncePerPass(dag: Dag, init: Data, steps: seq<Step>, k: nat, b: NodeId)
    requires Runnable(dag) && IsRun(dag, init, steps) && k <= |steps|
    requires After(dag, init, steps[..k]).passes == After(dag, init, steps).passes
    ensures OnceMore(After(dag, init, steps[..k]), After(dag, init, steps), b)
  {
    RunnableShape(dag);
    RunWithin(dag, LoopOf(dag), init, steps, k, b);
  }

  // ---- When a pass starts, and what it dispatches at once ----

  /** Only a controller that is granted another pass changes the number of passes. */
  lemma PassStep(dag: Dag, l: Loop, s: State, f: Flight, r: Outcome)
    requires Shape(dag, l) && Receive(dag, s, f, r).passes != s.passes
    ensures r.Succeeded? && s.firstErr == None && f.node in l.ctrl && Iterates(dag, s, f.node, r.routing)
  {
    if r.Failed? || s.firstErr != None {
      HaltWithin(dag, s, f, r, f.node);
    } else {
      TypeOfController(dag, l, f.node);
      LandingLands(s, f, r);
      var todo := SignalsOf(dag, f.node, r.routing);
      if f.node !in l.ctrl {
        ReceiveLands(dag, s, f, r);
        DeliverSame(dag, Landing(s, f, r), todo);
      } else if !Iterates(dag, s, f.node, r.routing) {
        ReceiveQuits(dag, l, s, f, r);
        QuitsMarks(l, s, f, r);
        DeliverSame(dag, Quits(l, s, f, r), todo);
      }
    }
  }

  /** The result of `f` asks for another pass and the cap allows it. */
  predicate AsksForPass(dag: Dag, s: State, f: Flight, r: Outcome)
  {
    && r.Succeeded? && s.firstErr == None && f.node in dag.Controllers()
    && "action" in r.routing && r.routing["action"] == Text("loop_body")
    && s.passes < MaxIterations(dag.ConfigOf(f.node))
  }

  /** `v` is in the body of `c` and no edge of the body leads to it. */
  ghost predicate BeginsBody(dag: Dag, c: NodeId, v: NodeId)
  {
    v in dag.BodyOf(c) && forall e :: e in dag.forward && e.target == v ==> e.source !in dag.BodyOf(c)
  }

  lemma RootsBegin(dag: Dag, c: NodeId, v: NodeId)
    requires Adjacent(dag) && dag.BodyOf(c) <= dag.nodes.Keys
    ensures v in BodyRoots(dag, c) <==> BeginsBody(dag, c, v)
  {
    if v in dag.BodyOf(c) {
      assert dag.Preds(v) == dag.predecessors[v];
      CountInSources(dag.forward, dag.BodyOf(c), v);
      CountZero(dag.forward, dag.BodyOf(c), v);
    }
  }

  lemma AsksIsIterates(dag: Dag, l: Loop, s: State, f: Flight, r: Outcome)
    requires Shape(dag, l) && LoopFacts(dag, l, s)
    ensures AsksForPass(dag, s, f, r) <==>
      r.Succeeded? && s.firstErr == None && f.node in l.ctrl && Iterates(dag, s, f.node, r.routing)
  {
  }

  lemma StartsLaunch(dag: Dag, s: State, f: Flight, r: Outcome, v: NodeId)
    requires Adjacent(dag) && dag.BodyOf(f.node) <= dag.nodes.Keys && r.Succeeded?
    ensures Passes(dag, s, f, r).launched[v] == s.launched[v] + if BeginsBody(dag, f.node, v) then 1 else 0
  {
    PassesFlying(dag, s, f, r);
    RootsBegin(dag, f.node, v);
  }

  lemma QuitsRoutes(dag: Dag, l: Loop, s: State, f: Flight, r: Outcome)
    requires r.Succeeded? && s.firstErr == None && dag.TypeOf(f.node) == LOOP_CONTROLLER && dag.BodyOf(f.node) == l.body
    requires !Iterates(dag, s, f.node, r.routing)
    ensures var t := Receive(dag, s, f, r); f.node in t.routed && t.routed[f.node] == r.routing && t.passes == s.passes
  {
    ReceiveQuits(dag, l, s, f, r);
    LandingLands(s, f, r);
    QuitsMarks(l, s, f, r);
    DeliverSame(dag, Quits(l, s, f, r), SignalsOf(dag, f.node, r.routing));
  }

  /** Passes. Whatever is received, in any run, a pass is started exactly if a controller succeeds before
      anything has failed, its "action" is "loop_body" and the cap is not reached. Starting one
      dispatches every body node that no body edge leads to, once, and nothing else; a controller
      whose success starts none is routed by that success. */
  lemma PassStarts(dag: Dag, init: Data, steps: seq<Step>, f: Flight, r: Outcome)
    requires Runnable(dag) && IsRun(dag, init, steps) && f in After(dag, init, steps).inflight
    ensures var s := After(dag, init, steps); var t := Receive(dag, s, f, r);
      && t.passes == s.passes + (if AsksForPass(dag, s, f, r) then 1 else 0)
      && (AsksForPass(dag, s, f, r) ==>
            forall v :: t.launched[v] == s.launched[v] + if BeginsBody(dag, f.node, v) then 1 else 0)
      && (r.Succeeded? && s.firstErr == None && f.node in dag.Controllers() && !AsksForPass(dag, s, f, r) ==>
            f.node in t.routed && t.routed[f.node] == r.routing)
  {
    RunnableShape(dag);
    var l, s := LoopOf(dag), After(dag, init, steps);
    RunKeeps(dag, l, init, steps);
    AsksIsIterates(dag, l, s, f, r);
    ReceivePass(dag, l, s, f, r);
  }

  lemma ReceivePass(dag: Dag, l: Loop, s: State, f: Flight, r: Outcome)
    requires Shape(dag, l)
    requires AsksForPass(dag, s, f, r) <==>
      r.Succeeded? && s.firstErr == None && f.node in l.ctrl && Iterates(dag, s, f.node, r.routing)
    ensures var t := Receive(dag, s, f, r);
      && t.passes == s.passes + (if AsksForPass(dag, s, f, r) then 1 else 0)
      && (AsksForPass(dag, s, f, r) ==>
            forall v :: t.launched[v] == s.launched[v] + if BeginsBody(dag, f.node, v) then 1 else 0)
      && (r.Succeeded? && s.firstErr == None && f.node in l.ctrl && !AsksForPass(dag, s, f, r) ==>
            f.node in t.routed && t.routed[f.node] == r.routing)
  {
    TypeOfController(dag, l, f.node);
    if AsksForPass(dag, s, f, r) {
      ReceiveStarts(dag, s, f, r);
      PassesRecords(dag, s, f, r);
      forall v
        ensures Passes(dag, s, f, r).launched[v] == s.launched[v] + if BeginsBody(dag, f.node, v) then 1 else 0
      {
        StartsLaunch(dag, s, f, r, v);
      }
    } else {
      if Receive(dag, s, f, r).passes != s.passes {
        PassStep(dag, l, s, f, r);
      }
      if r.Succeeded? && s.firstErr == None && f.node in l.ctrl {
        QuitsRoutes(dag, l, s, f, r);
      }
    }
  }

  // ---- Exactly the least set ----

  /** `v` is dispatched by every pass, or an allowed body edge leads to it from a node of `executed`. */
  predicate PassJustified(dag: Dag, body: set<NodeId>, routing: map<NodeId, Data>, executed: set<NodeId>, v: NodeId)
  {
    || IsHead(dag, body, v)
    || exists e ::
         e in dag.forward && e.target == v && e.source in body && e.source in executed && Fires(dag, routing, e)
  }

  /** The body nodes executed in this pass are the justified ones, and no smaller set is closed. */
  ghost predicate LeastPass(dag: Dag, body: set<NodeId>, s: State)
  {
    && (forall b :: b in body ==> (b in s.routed <==> PassJustified(dag, body, s.routed, s.routed.Keys, b)))
    && (forall x: set<NodeId> ::
          (forall b :: b in body && PassJustified(dag, body, s.routed, x, b) ==> b in x) ==> s.routed.Keys * body <= x)
  }

  /** Every body node has been executed or skipped in this pass. */
  ghost predicate PassOver(l: Loop, s: State)
  {
    InLoop(s) && l.ctrl !! s.routed.Keys && forall b :: b in l.body ==> IsSettled(s, b)
  }

  lemma FiresInside(dag: Dag, l: Loop, s: State, b: NodeId)
    requires Fenced(dag, l) && b in l.body && l.ctrl !! s.routed.Keys
    ensures AnyFires(dag, s.routed, b) <==>
      exists e ::
        e in dag.forward && e.target == b && e.source in l.body && e.source in s.routed && Fires(dag, s.routed, e)
  {
    forall e | e in dag.forward && e.target == b && Fires(dag, s.routed, e)
      ensures e.source in l.body
    {
      assert EdgeRule(l, e);
    }
  }

  lemma ExecutedInPass(dag: Dag, l: Loop, s: State, b: NodeId)
    requires Shape(dag, l) && Inv(dag, l, s, []) && Why(dag, l, s, []) && PassOver(l, s) && b in l.body
    ensures b in s.routed <==> PassJustified(dag, l.body, s.routed, s.routed.Keys, b)
    ensures b in s.routed <==> b !in s.skipped
  {
    assert HeardOK(dag, l, s, [], b) && WhyOK(dag, l, s, b) && OnceOK(s, b);
    NotARoot(dag, l, b);
    FiresInside(dag, l, s, b);
  }

  lemma {:induction false} LeastInPass(dag: Dag, l: Loop, s: State, x: set<NodeId>, b: NodeId)
    requires Shape(dag, l) && Inv(dag, l, s, []) && Why(dag, l, s, []) && PassOver(l, s) && b in l.body && b in s.routed
    requires forall w :: w in l.body && PassJustified(dag, l.body, s.routed, x, w) ==> w in x
    ensures b in x
    decreases IndexOf(dag.order, b)
  {
    ExecutedInPass(dag, l, s, b);
    if !IsHead(dag, l.body, b) {
      var e :| e in dag.forward && e.target == b && e.source in l.body && e.source in s.routed &&
               Fires(dag, s.routed, e);
      assert PointsLater(dag.order, e);
      LeastInPass(dag, l, s, x, e.source);
      assert PassJustified(dag, l.body, s.routed, x, b);
    }
  }

  lemma OverIsLeast(dag: Dag, l: Loop, s: State)
    requires Shape(dag, l) && Inv(dag, l, s, []) && Why(dag, l, s, []) && PassOver(l, s)
    ensures LeastPass(dag, l.body, s)
  {
    forall b | b in l.body
      ensures b in s.routed <==> PassJustified(dag, l.body, s.routed, s.routed.Keys, b)
    {
      ExecutedInPass(dag, l, s, b);
    }
    forall x: set<NodeId>, b |
      (forall w :: w in l.body && PassJustified(dag, l.body, s.routed, x, w) ==> w in x) && b in s.routed.Keys * l.body
      ensures b in x
    {
      LeastInPass(dag, l, s, x, b);
    }
  }

  /** What a pass executes. Whenever the controller is in flight after a pass, failures allowed, every
      body node was executed or skipped in that pass, and the executed ones are the least set that
      contains the nodes every pass dispatches and whatever an allowed body edge from an executed
      one leads to. */
  lemma PassIsLeast(dag: Dag, init: Data, steps: seq<Step>, f: Flight)
    requires Runnable(dag) && IsRun(dag, init, steps) && f in After(dag, init, steps).inflight
    requires f.node in dag.Controllers() && After(dag, init, steps).passes > 0
    ensures LeastPass(dag, dag.BodyOf(f.node), After(dag, init, steps))
    ensures forall b :: b in dag.BodyOf(f.node) ==> IsSettled(After(dag, init, steps), b)
  {
    RunnableShape(dag);
    var l, s := LoopOf(dag), After(dag, init, steps);
    RunKeeps(dag, l, init, steps);
    RunWhy(dag, l, init, steps);
    assert FlightOK(l, s, f);
    BodyRests(dag, l, s, f.node);
    forall b | b in l.body
      ensures IsSettled(s, b)
    {
      BodyDone(dag, l, s, f.node, b);
    }
    OverIsLeast(dag, l, s);
  }
}
