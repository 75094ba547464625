/** How a loop is left: whether the nodes behind it run is decided by the controller's last
    action alone, whether or not the iteration cap has been reached. */
module LoopExit {
  import opened Workflow
  import opened Graph
  import opened DagModel
  import opened Scheduler
  import opened SchedulerInvariant
  import opened SchedulerSteps
  import opened LoopSteps
  import opened LoopBound
  import opened LoopFree
  import opened Delivery
  import opened Landings
  import opened Diamond
  import opened StepsCommute

  /** `v` is entered by exit edges of the controller `c` and by nothing else. */
  ghost predicate OnlyByExit(dag: Dag, c: NodeId, v: NodeId)
  {
    && v in dag.nodes && HasEdge(dag.forward, c, v)
    && forall e :: e in dag.forward && e.target == v ==> e.source == c && e.branch == Some(EXIT)
  }

  /** The controller has left the loop with the action "exit". */
  predicate Exits(s: State, c: NodeId)
  {
    c in s.routed && TextAt(s.routed[c], "action") == EXIT
  }

  /** How `v` stands while signals are under way: whatever reaches it is live iff the controller exits. */
  ghost predicate ExitOK(s: State, todo: seq<Signal>, c: NodeId, v: NodeId)
  {
    && (forall sig :: sig in todo && sig.target == v ==> sig.kind == (if Exits(s, c) then Live else Suppressed))
    && StandsOK(s, c, v)
  }

  predicate StandsOK(s: State, c: NodeId, v: NodeId)
  {
    && (v in s.hasLive ==> Exits(s, c)) && s.launched[v] == (if v in s.started then 1 else 0)
    && (v in s.started ==> Exits(s, c)) && (v in s.skipped ==> !Exits(s, c))
    && (PendingOf(s, v) == 0 ==> v in s.started || v in s.skipped)
  }

  lemma TouchedStands(s: State, t: State, x: Signal, p: Reaction, c: NodeId, v: NodeId)
    requires Touched(s, t, x, p) && StandsOK(s, c, v)
    requires x.target == v ==>
      x.kind == (if Exits(s, c) then Live else Suppressed) && v !in s.started && v !in s.skipped
    requires x.target == v ==> PendingOf(s, v) >= 1 && p == React(s, x)
    ensures StandsOK(t, c, v)
  {
  }

  lemma ExitNotLoop(dag: Dag, l: Loop, c: NodeId, v: NodeId)
    requires Shape(dag, l) && c in l.ctrl && OnlyByExit(dag, c, v)
    ensures v !in l.body && v !in l.ctrl && v != c
  {
    var e :| e in dag.forward && e.source == c && e.target == v;
    assert EdgeRule(l, e) && PointsLater(dag.order, e);
  }

  lemma AbsorbExit(dag: Dag, l: Loop, s: State, todo: seq<Signal>, c: NodeId, v: NodeId)
    requires Fenced(dag, l) && OnlyByExit(dag, c, v) && v !in l.body && c !in l.body
    requires todo != [] && SignalFits(dag, l, s, todo[0]) && ExitOK(s, todo, c, v)
    ensures ExitOK(Absorb(s, todo[0]), SentOn(dag, s, todo[0]) + todo[1..], c, v)
  {
    var x, t := todo[0], Absorb(s, todo[0]);
    assert x in todo;
    AbsorbTouches(s, x);
    TouchedStands(s, t, x, React(s, x), c, v);
    SuppressKinds(dag.Out(x.target));
    forall sig | sig in SentOn(dag, s, x) + todo[1..] && sig.target == v
      ensures sig.kind == (if Exits(t, c) then Live else Suppressed)
    {
      if sig in todo[1..] {
        assert sig in todo;
      } else {
        var e :| e in dag.Out(x.target) && e.target == v;
        assert dag.Out(x.target) == dag.outEdges[x.target];
      }
    }
  }

  lemma DeliverExit(dag: Dag, l: Loop, s: State, todo: seq<Signal>, c: NodeId, v: NodeId)
    requires Fenced(dag, l) && OnlyByExit(dag, c, v) && v !in l.body && c !in l.body && Inv(dag, l, s, todo)
    requires ExitOK(s, todo, c, v)
    ensures StandsOK(Deliver(dag, s, todo), c, v)
  {
    ghost var keeps := (t, rest) => Inv(dag, l, t, rest) && ExitOK(t, rest, c, v);
    forall t, rest | rest != [] && keeps(t, rest)
      ensures keeps(Absorb(t, rest[0]), SentOn(dag, t, rest[0]) + rest[1..])
    {
      AbsorbKeeps(dag, l, t, rest);
      CountedKeeps(dag, l, t, rest);
      AbsorbExit(dag, l, t, rest, c, v);
    }
    DeliverInduction(dag, s, todo, keeps);
  }

  /** An ordinary node sends nothing to `v`. */
  lemma SentElsewhere(dag: Dag, l: Loop, u: NodeId, routing: Data, c: NodeId, v: NodeId)
    requires Fenced(dag, l) && OnlyByExit(dag, c, v) && v !in l.ctrl && u != c && u in dag.nodes
    ensures forall sig :: sig in SignalsOf(dag, u, routing) ==> sig.target != v
  {
    OutKinds(dag.Out(u), routing, dag.TypeOf(u));
    BackKinds(dag.loopBack, u);
    assert dag.Out(u) == dag.outEdges[u];
    assert forall e :: e in dag.Out(u) ==> e.target != v;
  }

  lemma LandsExit(dag: Dag, l: Loop, s: State, f: Flight, r: Outcome, c: NodeId, v: NodeId)
    requires Fenced(dag, l) && OnlyByExit(dag, c, v) && v !in l.ctrl && f.node != c && f.node in dag.nodes
    requires r.Succeeded?
    requires StandsOK(s, c, v)
    ensures ExitOK(Landing(s, f, r), SignalsOf(dag, f.node, r.routing), c, v)
  {
    SentElsewhere(dag, l, f.node, r.routing, c, v);
    LandingLands(s, f, r);
    StandsAlike(s, Landing(s, f, r), c, v);
  }

  /** How `v` stands depends on a few facts only. */
  lemma StandsAlike(s: State, t: State, c: NodeId, v: NodeId)
    requires StandsOK(s, c, v) && Exits(t, c) == Exits(s, c) && PendingOf(t, v) == PendingOf(s, v)
    requires (v in t.hasLive <==> v in s.hasLive) && (v in t.started <==> v in s.started)
    requires (v in t.skipped <==> v in s.skipped)
    requires t.launched[v] == s.launched[v]
    ensures StandsOK(t, c, v)
  {
  }

  /** Before the controller is routed, `v` is still waiting. */
  lemma StillWaiting(dag: Dag, l: Loop, s: State, c: NodeId, v: NodeId)
    requires Inv(dag, l, s, []) && OnlyByExit(dag, c, v) && v !in l.body && v !in l.ctrl && c in dag.nodes
    requires !IsSettled(s, c)
    ensures v !in s.skipped && v !in s.started
  {
    assert CountOK(dag, l, s, [], v) && OnceOK(s, v);
    CountZero(dag.forward, dag.nodes.Keys - Settled(s), v);
  }

  /** What the leaving controller sends to `v` is live iff its action is "exit". */
  lemma SentByController(dag: Dag, l: Loop, c: NodeId, routing: Data, v: NodeId)
    requires Fenced(dag, l) && OnlyByExit(dag, c, v) && v !in l.ctrl && c in dag.nodes
    requires dag.TypeOf(c) == LOOP_CONTROLLER
    ensures forall sig :: sig in SignalsOf(dag, c, routing) && sig.target == v ==>
      sig.kind == if TextAt(routing, "action") == EXIT then Live else Suppressed
  {
    OutKinds(dag.Out(c), routing, LOOP_CONTROLLER);
    BackKinds(dag.loopBack, c);
    assert dag.Out(c) == dag.outEdges[c];
    forall sig | sig in SignalsOf(dag, c, routing) && sig.target == v
      ensures sig.kind == if TextAt(routing, "action") == EXIT then Live else Suppressed
    {
      assert sig in OutSignals(dag.Out(c), routing, LOOP_CONTROLLER);
      var e :| e in dag.Out(c) && e.target == v &&
               sig.kind == (if BranchAllows(e, routing, LOOP_CONTROLLER) then Live else Suppressed);
    }
  }

  lemma QuitsStands(l: Loop, s: State, f: Flight, r: Outcome, v: NodeId)
    requires r.Succeeded? && v !in l.body && f.node !in s.routed && StandsOK(s, f.node, v) && v !in s.skipped
    requires v !in s.started
    ensures StandsOK(Quits(l, s, f, r), f.node, v)
  {
    LandingLands(s, f, r);
    QuitsMarks(l, s, f, r);
  }

  lemma QuitsExit(dag: Dag, l: Loop, s: State, f: Flight, r: Outcome, v: NodeId)
    requires Fenced(dag, l) && OnlyByExit(dag, f.node, v) && v !in l.ctrl && v !in l.body && f.node in dag.nodes
    requires r.Succeeded? && dag.TypeOf(f.node) == LOOP_CONTROLLER && f.node !in s.routed && StandsOK(s, f.node, v)
    requires v !in s.skipped && v !in s.started
    ensures ExitOK(Quits(l, s, f, r), SignalsOf(dag, f.node, r.routing), f.node, v)
  {
    SentByController(dag, l, f.node, r.routing, v);
    QuitsStands(l, s, f, r, v);
  }

  lemma PassedExit(dag: Dag, s: State, t: State, f: Flight, r: Outcome, v: NodeId)
    requires r.Succeeded? && Passed(dag, s, t, f, r) && v != f.node && v !in dag.BodyOf(f.node)
    requires f.node !in dag.BodyOf(f.node)
    requires StandsOK(s, f.node, v)
    ensures StandsOK(t, f.node, v)
  {
    PassedCount(dag, s, t, f.node, v);
    PassedLaunches(dag, s, t, f, v);
    StandsAlike(s, t, f.node, v);
  }

  lemma PassedCount(dag: Dag, s: State, t: State, c: NodeId, v: NodeId)
    requires PassedCounters(dag, s, t, c) && v != c && v !in dag.BodyOf(c)
    ensures PendingOf(t, v) == PendingOf(s, v)
    ensures (v in t.hasLive <==> v in s.hasLive) && (v in t.started <==> v in s.started)
    ensures (v in t.skipped <==> v in s.skipped)
  {
    PassPendingAt(dag, s.pending, c, v);
  }

  lemma PassedLaunches(dag: Dag, s: State, t: State, f: Flight, v: NodeId)
    requires PassedFlying(dag, s, t, f) && v !in dag.BodyOf(f.node)
    ensures t.launched[v] == s.launched[v]
  {
    assert v !in BodyRoots(dag, f.node);
    assert multiset(BodyRoots(dag, f.node))[v] == 0;
  }

  // ---- The controller's own record ----

  /** A routed controller has left the loop; if it still asked for another pass, the cap was used up. */
  predicate LeftOK(dag: Dag, s: State, c: NodeId)
  {
    c in s.routed ==>
      s.exited && (TextAt(s.routed[c], "action") == LOOP_BODY ==> IterationsOf(s, c) >= MaxIterations(dag.ConfigOf(c)))
  }

  lemma LeftAlike(dag: Dag, s: State, t: State, c: NodeId)
    requires LeftOK(dag, s, c) && t.exited == s.exited && t.loopIterations == s.loopIterations
    requires (c in t.routed <==> c in s.routed) && (c in t.routed ==> t.routed[c] == s.routed[c])
    ensures LeftOK(dag, t, c)
  {
  }

  lemma QuitsLeft(dag: Dag, l: Loop, s: State, f: Flight, r: Outcome)
    requires r.Succeeded? && !Iterates(dag, s, f.node, r.routing)
    ensures LeftOK(dag, Quits(l, s, f, r), f.node)
  {
    LandingLands(s, f, r);
    QuitsMarks(l, s, f, r);
  }

  lemma ReceiveLeft(dag: Dag, l: Loop, s: State, f: Flight, r: Outcome, c: NodeId)
    requires Shape(dag, l) && Inv(dag, l, s, []) && f in s.inflight && c in l.ctrl && LeftOK(dag, s, c)
    ensures LeftOK(dag, Receive(dag, s, f, r), c)
  {
    FlightNotCalm(l, dag, s, f);
    TypeOfController(dag, l, f.node);
    if r.Failed? || s.firstErr != None {
      assert Receive(dag, s, f, r) == Record(s, f, r);
      LeftAlike(dag, s, Record(s, f, r), c);
    } else if f.node !in l.ctrl {
      LandingLeft(dag, s, f, r, c);
    } else {
      OnlyController(dag, l, c);
      ControllerLeft(dag, l, s, f, r);
    }
  }

  lemma LandingLeft(dag: Dag, s: State, f: Flight, r: Outcome, c: NodeId)
    requires r.Succeeded? && s.firstErr == None && dag.TypeOf(f.node) != LOOP_CONTROLLER && f.node != c
    requires LeftOK(dag, s, c)
    ensures LeftOK(dag, Receive(dag, s, f, r), c)
  {
    var u, todo := Landing(s, f, r), SignalsOf(dag, f.node, r.routing);
    ReceiveLands(dag, s, f, r);
    LandingLands(s, f, r);
    LeftAlike(dag, s, u, c);
    DeliverSame(dag, u, todo);
    LeftAlike(dag, u, Deliver(dag, u, todo), c);
  }

  lemma ControllerLeft(dag: Dag, l: Loop, s: State, f: Flight, r: Outcome)
    requires r.Succeeded? && s.firstErr == None && dag.TypeOf(f.node) == LOOP_CONTROLLER && dag.BodyOf(f.node) == l.body
    requires f.node !in s.routed
    ensures LeftOK(dag, Receive(dag, s, f, r), f.node)
  {
    if Iterates(dag, s, f.node, r.routing) {
      ReceiveStarts(dag, s, f, r);
      PassesIsPassed(dag, s, f, r);
    } else {
      var u, todo := Quits(l, s, f, r), SignalsOf(dag, f.node, r.routing);
      ReceiveQuits(dag, l, s, f, r);
      QuitsLeft(dag, l, s, f, r);
      DeliverSame(dag, u, todo);
      LeftAlike(dag, u, Deliver(dag, u, todo), f.node);
    }
  }

  lemma {:induction false} RunLeft(dag: Dag, l: Loop, init: Data, steps: seq<Step>, c: NodeId)
    requires Shape(dag, l) && c in l.ctrl && IsRun(dag, init, steps)
    ensures LeftOK(dag, After(dag, init, steps), c)
  {
    if steps != [] {
      var front := steps[..|steps| - 1];
      RunLeft(dag, l, init, front, c);
      RunKeeps(dag, l, init, front);
      var s := After(dag, init, front);
      match steps[|steps| - 1]
      case Read(w) => LeftAlike(dag, s, Apply(dag, s, Read(w)), c);
      case Recv(f, r) => ReceiveLeft(dag, l, s, f, r, c);
    }
  }

  // ---- Every step ----

  lemma OrdinaryGate(dag: Dag, l: Loop, s: State, f: Flight, r: Outcome, c: NodeId, v: NodeId)
    requires Fenced(dag, l) && OnlyByExit(dag, c, v) && v !in l.ctrl && v !in l.body && c in l.ctrl
    requires Inv(dag, l, s, []) && f in s.inflight && f.node !in l.ctrl && dag.TypeOf(f.node) != LOOP_CONTROLLER
    requires r.Succeeded? && s.firstErr == None && StandsOK(s, c, v)
    ensures StandsOK(Receive(dag, s, f, r), c, v)
  {
    var u, todo := Landing(s, f, r), SignalsOf(dag, f.node, r.routing);
    FlightNotCalm(l, dag, s, f);
    LandsExit(dag, l, s, f, r, c, v);
    LandingBeside(dag, l, s, [], f, r);
    assert todo + [] == todo;
    ReceiveLands(dag, s, f, r);
    DeliverExit(dag, l, u, todo, c, v);
  }

  lemma QuittingGate(dag: Dag, l: Loop, s: State, f: Flight, r: Outcome, v: NodeId)
    requires Shape(dag, l) && OnlyByExit(dag, f.node, v) && f.node in l.ctrl
    requires Inv(dag, l, s, []) && f in s.inflight && r.Succeeded? && s.firstErr == None && StandsOK(s, f.node, v)
    requires !Iterates(dag, s, f.node, r.routing)
    ensures StandsOK(Receive(dag, s, f, r), f.node, v)
  {
    var u, todo := Quits(l, s, f, r), SignalsOf(dag, f.node, r.routing);
    ExitNotLoop(dag, l, f.node, v);
    FlightNotCalm(l, dag, s, f);
    TypeOfController(dag, l, f.node);
    StillWaiting(dag, l, s, f.node, v);
    QuitsExit(dag, l, s, f, r, v);
    QuitsKeeps(dag, l, s, f, r);
    ReceiveQuits(dag, l, s, f, r);
    DeliverExit(dag, l, u, todo, f.node, v);
  }

  lemma PassingGate(dag: Dag, l: Loop, s: State, f: Flight, r: Outcome, v: NodeId)
    requires Shape(dag, l) && OnlyByExit(dag, f.node, v) && f.node in l.ctrl
    requires Inv(dag, l, s, []) && f in s.inflight && r.Succeeded? && s.firstErr == None && StandsOK(s, f.node, v)
    requires Iterates(dag, s, f.node, r.routing)
    ensures StandsOK(Receive(dag, s, f, r), f.node, v)
  {
    ExitNotLoop(dag, l, f.node, v);
    FlightNotCalm(l, dag, s, f);
    TypeOfController(dag, l, f.node);
    ReceiveStarts(dag, s, f, r);
    PassesIsPassed(dag, s, f, r);
    PassedExit(dag, s, Passes(dag, s, f, r), f, r, v);
  }

  lemma RecordGate(dag: Dag, s: State, f: Flight, r: Outcome, c: NodeId, v: NodeId)
    requires StandsOK(s, c, v)
    ensures StandsOK(Record(s, f, r), c, v)
  {
    StandsAlike(s, Record(s, f, r), c, v);
  }

  lemma ReceiveGate(dag: Dag, l: Loop, s: State, f: Flight, r: Outcome, c: NodeId, v: NodeId)
    requires Shape(dag, l) && OnlyByExit(dag, c, v) && c in l.ctrl && Inv(dag, l, s, []) && f in s.inflight
    requires StandsOK(s, c, v)
    ensures StandsOK(Receive(dag, s, f, r), c, v)
  {
    ExitNotLoop(dag, l, c, v);
    TypeOfController(dag, l, f.node);
    if r.Failed? || s.firstErr != None {
      assert Receive(dag, s, f, r) == Record(s, f, r);
      RecordGate(dag, s, f, r, c, v);
    } else if f.node !in l.ctrl {
      OrdinaryGate(dag, l, s, f, r, c, v);
    } else if Iterates(dag, s, f.node, r.routing) {
      PassingGate(dag, l, s, f, r, v);
    } else {
      QuittingGate(dag, l, s, f, r, v);
    }
  }

  lemma StartGate(dag: Dag, l: Loop, init: Data, c: NodeId, v: NodeId)
    requires Shape(dag, l) && c in l.ctrl && OnlyByExit(dag, c, v)
    ensures StandsOK(Start(dag, init), c, v)
  {
    StartKeeps(dag, l, init);
    ExitNotLoop(dag, l, c, v);
    StillWaiting(dag, l, Start(dag, init), c, v);
    var s := Start(dag, init);
    assert v !in Roots(dag) && multiset(Roots(dag))[v] == 0;
    assert CountOK(dag, l, s, [], v);
    CountZero(dag.forward, dag.nodes.Keys - Settled(s), v);
  }

  lemma {:induction false} RunGate(dag: Dag, l: Loop, init: Data, steps: seq<Step>, c: NodeId, v: NodeId)
    requires Shape(dag, l) && c in l.ctrl && OnlyByExit(dag, c, v) && IsRun(dag, init, steps)
    ensures StandsOK(After(dag, init, steps), c, v)
  {
    if steps == [] {
      StartGate(dag, l, init, c, v);
    } else {
      var front := steps[..|steps| - 1];
      RunGate(dag, l, init, front, c, v);
      RunKeeps(dag, l, init, front);
      var s := After(dag, init, front);
      match steps[|steps| - 1]
      case Read(w) =>
        StandsAlike(s, Apply(dag, s, Read(w)), c, v);
      case Recv(f, r) => ReceiveGate(dag, l, s, f, r, c, v);
    }
  }

  /** Leaving a loop. In every run of every graph whose loop is well formed, once the controller has
      left the loop, a node entered by its exit edges only has been dispatched, exactly once, if the
      controller's last action was "exit", and skipped otherwise. The engine does not fire the exit
      edge by itself: a controller that still asks for another pass when the iterations are used
      up leaves the loop with the nodes behind it skipped. */
  lemma ExitFires(dag: Dag, init: Data, steps: seq<Step>, c: NodeId, v: NodeId)
    requires Runnable(dag) && IsRun(dag, init, steps) && c in dag.Controllers() && OnlyByExit(dag, c, v)
    requires c in After(dag, init, steps).routed
    ensures var s := After(dag, init, steps);
      var action := TextAt(s.routed[c], "action");
      && (action == "exit" <==> s.launched[v] == 1) && (action != "exit" <==> v in s.skipped && s.launched[v] == 0)
      && (action == "loop_body" ==> IterationsOf(s, c) == MaxIterations(dag.ConfigOf(c)))
  {
    RunnableShape(dag);
    RunGate(dag, LoopOf(dag), init, steps, c, v);
    RunLeft(dag, LoopOf(dag), init, steps, c);
    RunKeeps(dag, LoopOf(dag), init, steps);
    OwesNothing(dag, LoopOf(dag), After(dag, init, steps), c, v);
  }

  lemma OwesNothing(dag: Dag, l: Loop, s: State, c: NodeId, v: NodeId)
    requires Shape(dag, l) && Inv(dag, l, s, []) && c in l.ctrl && OnlyByExit(dag, c, v) && c in s.routed
    ensures PendingOf(s, v) == 0 && !(v in s.started && v in s.skipped)
    ensures IterationsOf(s, c) <= MaxIterations(dag.ConfigOf(c))
  {
    ExitNotLoop(dag, l, c, v);
    assert CountOK(dag, l, s, [], v) && OnceOK(s, v);
    CountZero(dag.forward, dag.nodes.Keys - Settled(s), v);
  }
}
