/** What is left when nothing is in flight and nothing has failed: every node has been executed or
    skipped, or the loop waits for an edge that will never report, and that for good. */
module LoopCompletion {
  import opened Workflow
  import opened Graph
  import opened DagModel
  import opened Scheduler
  import opened SchedulerInvariant
  import opened LoopSteps
  import opened LoopBound
  import opened LoopFree
  import opened LoopCauses
  import opened Completion
  import opened Delivery
  import opened Landings
  import opened Diamond
  import opened StepsCommute
  import opened LoopExit

  // ---- The controller's record ----

  /** What a successful result does to the record of a controller. */
  ghost predicate Routes(dag: Dag, s: State, t: State, f: Flight, r: Outcome, c: NodeId)
    requires r.Succeeded?
  {
    if f.node != c then
      && t.passes == s.passes && t.exited == s.exited
      && (c in t.routed <==> c in s.routed) && (c in s.routed ==> t.routed[c] == s.routed[c])
    else if Iterates(dag, s, c, r.routing) then
      t.passes == s.passes + 1 && t.exited == s.exited && c !in t.routed
    else t.passes == s.passes && t.exited && c in t.routed && t.routed[c] == r.routing
  }

  lemma ControllerRecord(dag: Dag, l: Loop, s: State, f: Flight, r: Outcome, c: NodeId)
    requires Shape(dag, l) && Inv(dag, l, s, []) && s.firstErr == None && f in s.inflight && r.Succeeded? && c in l.ctrl
    ensures Routes(dag, s, Receive(dag, s, f, r), f, r, c)
  {
    TypeOfController(dag, l, f.node);
    assert FlightOK(l, s, f);
    if f.node !in l.ctrl {
      OrdinaryRoutes(dag, s, f, r, c);
    } else {
      ControllerRoutes(dag, l, s, f, r);
    }
  }

  lemma OrdinaryRoutes(dag: Dag, s: State, f: Flight, r: Outcome, c: NodeId)
    requires s.firstErr == None && r.Succeeded? && f.node != c && dag.TypeOf(f.node) != LOOP_CONTROLLER
    ensures Routes(dag, s, Receive(dag, s, f, r), f, r, c)
  {
    LandingLands(s, f, r);
    ReceiveLands(dag, s, f, r);
    DeliverSame(dag, Landing(s, f, r), SignalsOf(dag, f.node, r.routing));
  }

  lemma ControllerRoutes(dag: Dag, l: Loop, s: State, f: Flight, r: Outcome)
    requires s.firstErr == None && r.Succeeded? && dag.TypeOf(f.node) == LOOP_CONTROLLER && dag.BodyOf(f.node) == l.body
    requires f.node !in s.routed
    ensures Routes(dag, s, Receive(dag, s, f, r), f, r, f.node)
  {
    if Iterates(dag, s, f.node, r.routing) {
      ReceiveStarts(dag, s, f, r);
      PassesRecords(dag, s, f, r);
    } else {
      LandingLands(s, f, r);
      ReceiveQuits(dag, l, s, f, r);
      QuitsMarks(l, s, f, r);
      DeliverSame(dag, Quits(l, s, f, r), SignalsOf(dag, f.node, r.routing));
    }
  }

  // ---- An empty loop ----

  /** The controller of a loop without a body is not dispatched again once it has asked for a pass. */
  predicate DeadEnd(l: Loop, s: State)
  {
    l.body == {} && Looping(s) ==> l.ctrl !! s.started && !s.exited
  }

  lemma AbsorbIdles(dag: Dag, l: Loop, s: State, todo: seq<Signal>)
    requires todo != [] && SignalsOK(dag, l, s, todo) && Looping(s) && l.ctrl !! s.started
    requires forall sig :: sig in todo ==> sig.kind != Back
    ensures l.ctrl !! Absorb(s, todo[0]).started
    ensures forall sig :: sig in SentOn(dag, s, todo[0]) + todo[1..] ==> sig.kind != Back
  {
    assert SignalOK(dag, l, s, todo[0]);
    AbsorbTouches(s, todo[0]);
    SuppressKinds(dag.Out(todo[0].target));
    forall sig | sig in SentOn(dag, s, todo[0]) + todo[1..]
      ensures sig.kind != Back
    {
      assert sig in todo[1..] ==> sig in todo;
    }
  }

  lemma DeliverIdles(dag: Dag, l: Loop, s: State, todo: seq<Signal>)
    requires Fenced(dag, l) && Inv(dag, l, s, todo) && Looping(s) && l.ctrl !! s.started
    requires forall sig :: sig in todo ==> sig.kind != Back
    ensures l.ctrl !! Deliver(dag, s, todo).started
  {
    ghost var keeps := (t: State, rest: seq<Signal>) =>
      Inv(dag, l, t, rest) && Looping(t) && l.ctrl !! t.started && forall sig :: sig in rest ==> sig.kind != Back;
    forall t, rest | rest != [] && keeps(t, rest)
      ensures keeps(Absorb(t, rest[0]), SentOn(dag, t, rest[0]) + rest[1..])
    {
      AbsorbKeeps(dag, l, t, rest);
      AbsorbIdles(dag, l, t, rest);
      AbsorbTouches(t, rest[0]);
    }
    DeliverInduction(dag, s, todo, keeps);
  }

  lemma NoBackEdges(dag: Dag, l: Loop, v: NodeId, routing: Data)
    requires Fenced(dag, l) && l.body == {}
    ensures forall sig :: sig in SignalsOf(dag, v, routing) ==> sig.kind != Back
  {
    OutKinds(dag.Out(v), routing, dag.TypeOf(v));
    BackKinds(dag.loopBack, v);
  }

  lemma OrdinaryDeadEnd(dag: Dag, l: Loop, s: State, f: Flight, r: Outcome)
    requires Fenced(dag, l) && Inv(dag, l, s, []) && DeadEnd(l, s) && l.body == {} && Looping(s) && s.firstErr == None
    requires f in s.inflight && r.Succeeded? && f.node !in l.ctrl && dag.TypeOf(f.node) != LOOP_CONTROLLER
    ensures l.ctrl !! Receive(dag, s, f, r).started
  {
    var u, todo := Landing(s, f, r), SignalsOf(dag, f.node, r.routing);
    LandingBeside(dag, l, s, [], f, r);
    assert todo + [] == todo;
    LandingLands(s, f, r);
    NoBackEdges(dag, l, f.node, r.routing);
    ReceiveLands(dag, s, f, r);
    DeliverIdles(dag, l, u, todo);
  }

  lemma ControllerDeadEnd(dag: Dag, l: Loop, s: State, f: Flight, r: Outcome)
    requires Shape(dag, l) && Inv(dag, l, s, []) && DeadEnd(l, s) && s.firstErr == None
    requires f in s.inflight && r.Succeeded? && f.node in l.ctrl
    ensures DeadEnd(l, Receive(dag, s, f, r))
  {
    assert FlightOK(l, s, f);
    ControllerRecord(dag, l, s, f, r, f.node);
    TypeOfController(dag, l, f.node);
    if Iterates(dag, s, f.node, r.routing) {
      ReceiveStarts(dag, s, f, r);
      PassesCounters(dag, s, f, r);
    }
  }

  lemma ReceiveDeadEnd(dag: Dag, l: Loop, s: State, f: Flight, r: Outcome, c: NodeId)
    requires Shape(dag, l) && Inv(dag, l, s, []) && DeadEnd(l, s) && f in s.inflight && c in l.ctrl
    ensures DeadEnd(l, Receive(dag, s, f, r))
  {
    TypeOfController(dag, l, f.node);
    if r.Failed? || s.firstErr != None {
      OnlyRecorded(dag, s, f, r);
    } else if f.node in l.ctrl {
      ControllerDeadEnd(dag, l, s, f, r);
    } else {
      OrdinaryRoutes(dag, s, f, r, c);
      if l.body == {} && Looping(s) {
        OrdinaryDeadEnd(dag, l, s, f, r);
      }
    }
  }

  /** After an error a result is recorded and leads to nothing. */
  lemma OnlyRecorded(dag: Dag, s: State, f: Flight, r: Outcome)
    requires r.Failed? || s.firstErr != None
    ensures var t := Receive(dag, s, f, r);
      t.passes == s.passes && t.exited == s.exited && t.skipped == s.skipped && t.started == s.started
  {
  }

  lemma {:induction false} RunDeadEnd(dag: Dag, l: Loop, init: Data, steps: seq<Step>)
    requires Shape(dag, l) && IsRun(dag, init, steps)
    ensures DeadEnd(l, After(dag, init, steps))
  {
    RunKeeps(dag, l, init, steps);
    if c :| c in l.ctrl && steps != [] {
      LastStep(dag, init, steps);
      RunDeadEnd(dag, l, init, steps[..|steps| - 1]);
      RunKeeps(dag, l, init, steps[..|steps| - 1]);
      ApplyDeadEnd(dag, l, After(dag, init, steps[..|steps| - 1]), steps[|steps| - 1], c);
    }
  }

  lemma ApplyDeadEnd(dag: Dag, l: Loop, s: State, step: Step, c: NodeId)
    requires Shape(dag, l) && Inv(dag, l, s, []) && DeadEnd(l, s) && Enabled(s, step) && c in l.ctrl
    ensures DeadEnd(l, Apply(dag, s, step))
  {
    match step
    case Read(_) =>
    case Recv(f, r) => ReceiveDeadEnd(dag, l, s, f, r, c);
  }

  // ---- Nothing is left behind ----

  predicate Flying(s: State, v: NodeId)
  {
    exists f :: f in s.inflight && f.node == v
  }

  /** A node that owes nothing has been dispatched or skipped, and a dispatched node is in flight
      until it is routed. */
  ghost predicate DoneOK(s: State, v: NodeId)
  {
    && (PendingOf(s, v) == 0 ==> v in s.started || v in s.skipped)
    && (v in s.started && v !in s.routed ==> Flying(s, v))
  }

  /** The controller of a loop without a body has asked for a pass. */
  predicate Abandoned(l: Loop, s: State, v: NodeId)
  {
    l.body == {} && Looping(s) && v in l.ctrl
  }

  ghost predicate Prompt(dag: Dag, l: Loop, s: State)
  {
    forall v {:trigger DoneOK(s, v)} :: v in dag.nodes && !Frozen(l, s, v) && !Abandoned(l, s, v) ==> DoneOK(s, v)
  }

  lemma FlyingMore(s: State, t: State, v: NodeId)
    requires Flying(s, v) && s.inflight <= t.inflight
    ensures Flying(t, v)
  {
    var f :| f in s.inflight && f.node == v;
    assert f in t.inflight;
  }

  lemma TouchedDone(s: State, t: State, x: Signal, p: Reaction, v: NodeId)
    requires Touched(s, t, x, p) && DoneOK(s, v) && (v == x.target && PendingOf(t, v) == 0 ==> p != Waits)
    ensures DoneOK(t, v)
  {
    if v in s.started && v !in s.routed {
      FlyingMore(s, t, v);
    }
    if p == Launches && v == x.target {
      assert Waiting(v) in t.inflight;
    }
  }

  /** A target that owes nothing more is dispatched or skipped. */
  lemma ReactsAtZero(dag: Dag, l: Loop, s: State, x: Signal)
    requires SignalFits(dag, l, s, x) && !Frozen(l, s, x.target) && PendingOf(s, x.target) == 1
    ensures React(s, x) != Waits
  {
  }

  lemma AbsorbPrompt(dag: Dag, l: Loop, s: State, x: Signal)
    requires SignalFits(dag, l, s, x) && Prompt(dag, l, s)
    ensures Prompt(dag, l, Absorb(s, x))
  {
    var t := Absorb(s, x);
    AbsorbTouches(s, x);
    forall v | v in dag.nodes && !Frozen(l, t, v) && !Abandoned(l, t, v)
      ensures DoneOK(t, v)
    {
      assert DoneOK(s, v);
      if v == x.target && PendingOf(t, v) == 0 {
        ReactsAtZero(dag, l, s, x);
      }
      TouchedDone(s, t, x, React(s, x), v);
    }
  }

  lemma DeliverPrompt(dag: Dag, l: Loop, s: State, todo: seq<Signal>)
    requires Fenced(dag, l) && Inv(dag, l, s, todo) && Prompt(dag, l, s)
    ensures Prompt(dag, l, Deliver(dag, s, todo))
  {
    ghost var keeps := (t, rest) => Inv(dag, l, t, rest) && Prompt(dag, l, t);
    forall t, rest | rest != [] && keeps(t, rest)
      ensures keeps(Absorb(t, rest[0]), SentOn(dag, t, rest[0]) + rest[1..])
    {
      AbsorbKeeps(dag, l, t, rest);
      CountedKeeps(dag, l, t, rest);
      AbsorbPrompt(dag, l, t, rest[0]);
    }
    DeliverInduction(dag, s, todo, keeps);
  }

  /** A flight of another node survives a landing. */
  lemma FlyingOn(s: State, f: Flight, v: NodeId)
    requires Flying(s, v) && f.node != v
    ensures exists g :: g in s.inflight - multiset{f} && g.node == v
  {
    var g :| g in s.inflight && g.node == v;
    assert g in s.inflight - multiset{f};
  }

  lemma LandsPrompt(dag: Dag, l: Loop, s: State, t: State, f: Flight, r: Outcome)
    requires r.Succeeded? && Prompt(dag, l, s) && Lands(s, t, f, r)
    ensures Prompt(dag, l, t)
  {
    forall v | v in dag.nodes && !Frozen(l, t, v) && !Abandoned(l, t, v)
      ensures DoneOK(t, v)
    {
      assert DoneOK(s, v);
      if v in s.started && v !in s.routed && v != f.node {
        FlyingOn(s, f, v);
      }
    }
  }

  lemma MarkedPrompt(dag: Dag, l: Loop, s: State)
    requires Prompt(dag, l, s)
    ensures Prompt(dag, l, Marked(l, s))
  {
    var t := Marked(l, s);
    forall v | v in dag.nodes && !Frozen(l, t, v) && !Abandoned(l, t, v)
      ensures DoneOK(t, v)
    {
      assert DoneOK(s, v);
      if Flying(s, v) {
        FlyingMore(s, t, v);
      }
    }
  }

  lemma PassedRoot(dag: Dag, s: State, t: State, f: Flight, v: NodeId)
    requires PassedCounters(dag, s, t, f.node) && PassedFlying(dag, s, t, f) && v in BodyRoots(dag, f.node)
    ensures DoneOK(t, v)
  {
    assert Waiting(v) in Flights(BodyRoots(dag, f.node));
    assert Waiting(v) in t.inflight;
  }

  lemma PassedIdle(dag: Dag, s: State, t: State, c: NodeId, v: NodeId)
    requires PassedCounters(dag, s, t, c) && c !in dag.BodyOf(c) && v !in BodyRoots(dag, c)
    requires v == c || v in dag.BodyOf(c)
    requires v == c ==> LoopBackCount(dag.loopBack, c) > 0
    ensures DoneOK(t, v)
  {
    PassPendingAt(dag, s.pending, c, v);
  }

  lemma PassedOther(dag: Dag, s: State, t: State, f: Flight, v: NodeId)
    requires PassedCounters(dag, s, t, f.node) && PassedFlying(dag, s, t, f)
    requires t.routed == s.routed - dag.BodyOf(f.node)
    requires v != f.node && v !in dag.BodyOf(f.node) && DoneOK(s, v)
    ensures DoneOK(t, v)
  {
    PassPendingAt(dag, s.pending, f.node, v);
    if v in s.started && v !in s.routed {
      FlyingOn(s, f, v);
      var g :| g in s.inflight - multiset{f} && g.node == v;
      assert g in t.inflight;
    }
  }

  lemma PassedDone(dag: Dag, l: Loop, s: State, t: State, f: Flight, r: Outcome, v: NodeId)
    requires r.Succeeded? && Passed(dag, s, t, f, r) && dag.BodyOf(f.node) == l.body && f.node !in l.body
    requires DoneOK(s, v) && (v == f.node ==> LoopBackCount(dag.loopBack, f.node) > 0)
    ensures DoneOK(t, v)
  {
    if v in BodyRoots(dag, f.node) {
      PassedRoot(dag, s, t, f, v);
    } else if v == f.node || v in l.body {
      PassedIdle(dag, s, t, f.node, v);
    } else {
      PassedOther(dag, s, t, f, v);
    }
  }

  lemma PassesPrompt(dag: Dag, l: Loop, s: State, f: Flight, r: Outcome)
    requires r.Succeeded? && Prompt(dag, l, s) && !s.exited && dag.BodyOf(f.node) == l.body && f.node !in l.body
    requires f.node in l.ctrl && (l.body != {} ==> LoopBackCount(dag.loopBack, f.node) > 0) && !Abandoned(l, s, f.node)
    ensures Prompt(dag, l, Passes(dag, s, f, r))
  {
    PassesIsPassed(dag, s, f, r);
    PassedPrompt(dag, l, s, Passes(dag, s, f, r), f, r);
  }

  lemma PassedPrompt(dag: Dag, l: Loop, s: State, t: State, f: Flight, r: Outcome)
    requires r.Succeeded? && Prompt(dag, l, s) && !s.exited && dag.BodyOf(f.node) == l.body && f.node !in l.body
    requires f.node in l.ctrl && (l.body != {} ==> LoopBackCount(dag.loopBack, f.node) > 0)
    requires Passed(dag, s, t, f, r)
    ensures Prompt(dag, l, t)
  {
    forall v | v in dag.nodes && !Frozen(l, t, v) && !Abandoned(l, t, v)
      ensures DoneOK(t, v)
    {
      StillPrompt(dag, l, s, t, v);
      PassedDone(dag, l, s, t, f, r, v);
    }
  }

  lemma StillPrompt(dag: Dag, l: Loop, s: State, t: State, v: NodeId)
    requires Prompt(dag, l, s) && v in dag.nodes && !s.exited && t.passes > 0 && !Abandoned(l, t, v)
    ensures DoneOK(s, v)
  {
    assert !Abandoned(l, s, v);
  }

  // ---- Every run ----

  /** Some loop-back edge leads to the controller, unless the body is empty. */
  lemma {:induction false} BackEdgeFrom(dag: Dag, l: Loop, b: NodeId)
    requires Shape(dag, l) && b in l.body
    ensures exists e :: e in dag.loopBack && e.target in l.ctrl
    decreases |dag.order| - IndexOf(dag.order, b)
  {
    assert Leaves(dag, b);
    if e :| e in dag.loopBack && e.source == b {
      assert e.target in l.ctrl;
    } else {
      var e :| e in dag.forward && e.source == b;
      assert EdgeRule(l, e) && PointsLater(dag.order, e);
      BackEdgeFrom(dag, l, e.target);
    }
  }

  lemma {:induction false} SomeBackEdge(loopBack: seq<Edge>, e: Edge)
    requires e in loopBack
    ensures LoopBackCount(loopBack, e.target) > 0
  {
    var front, last := loopBack[..|loopBack| - 1], loopBack[|loopBack| - 1];
    if e != last {
      assert e in front;
      SomeBackEdge(front, e);
    }
  }

  /** A body with something in it leads back to its controller. */
  lemma BodyLeadsBack(dag: Dag, l: Loop, c: NodeId)
    requires Shape(dag, l) && c in l.ctrl && l.body != {}
    ensures LoopBackCount(dag.loopBack, c) > 0
  {
    var b :| b in l.body;
    BackEdgeFrom(dag, l, b);
    var e :| e in dag.loopBack && e.target in l.ctrl;
    SomeBackEdge(dag.loopBack, e);
  }

  lemma ReceivePrompt(dag: Dag, l: Loop, s: State, f: Flight, r: Outcome)
    requires Shape(dag, l) && Inv(dag, l, s, []) && Prompt(dag, l, s) && s.firstErr == None
    requires f in s.inflight && r.Succeeded? && DeadEnd(l, s)
    ensures Prompt(dag, l, Receive(dag, s, f, r))
  {
    TypeOfController(dag, l, f.node);
    LandingLands(s, f, r);
    LandsPrompt(dag, l, s, Landing(s, f, r), f, r);
    if f.node !in l.ctrl {
      OrdinaryPrompt(dag, l, s, f, r);
    } else {
      ControllerPrompt(dag, l, s, f, r);
    }
  }

  lemma OrdinaryPrompt(dag: Dag, l: Loop, s: State, f: Flight, r: Outcome)
    requires Fenced(dag, l) && Inv(dag, l, s, []) && s.firstErr == None && f in s.inflight && r.Succeeded?
    requires f.node !in l.ctrl && dag.TypeOf(f.node) != LOOP_CONTROLLER && Prompt(dag, l, Landing(s, f, r))
    ensures Prompt(dag, l, Receive(dag, s, f, r))
  {
    var todo := SignalsOf(dag, f.node, r.routing);
    LandingBeside(dag, l, s, [], f, r);
    assert todo + [] == todo;
    ReceiveLands(dag, s, f, r);
    DeliverPrompt(dag, l, Landing(s, f, r), todo);
  }

  lemma ControllerPrompt(dag: Dag, l: Loop, s: State, f: Flight, r: Outcome)
    requires Shape(dag, l) && Inv(dag, l, s, []) && Prompt(dag, l, s) && s.firstErr == None
    requires f in s.inflight && r.Succeeded? && f.node in l.ctrl && Prompt(dag, l, Landing(s, f, r))
    requires DeadEnd(l, s)
    ensures Prompt(dag, l, Receive(dag, s, f, r))
  {
    TypeOfController(dag, l, f.node);
    if Iterates(dag, s, f.node, r.routing) {
      assert FlightOK(l, s, f);
      BodyRests(dag, l, s, f.node);
      ReceiveStarts(dag, s, f, r);
      if l.body != {} {
        BodyLeadsBack(dag, l, f.node);
      }
      PassesPrompt(dag, l, s, f, r);
    } else {
      QuitsKeeps(dag, l, s, f, r);
      QuitsMarks(l, s, f, r);
      MarkedPrompt(dag, l, Landing(s, f, r));
      ReceiveQuits(dag, l, s, f, r);
      DeliverPrompt(dag, l, Quits(l, s, f, r), SignalsOf(dag, f.node, r.routing));
    }
  }

  lemma ReadPrompt(dag: Dag, l: Loop, s: State, v: NodeId)
    requires Prompt(dag, l, s) && Waiting(v) in s.inflight
    ensures Prompt(dag, l, Apply(dag, s, Read(v)))
  {
    var t := Apply(dag, s, Read(v));
    assert Running(v, Upstream(s, v)) in t.inflight;
    forall w | w in dag.nodes && !Frozen(l, t, w) && !Abandoned(l, t, w)
      ensures DoneOK(t, w)
    {
      assert DoneOK(s, w);
      if w != v && Flying(s, w) {
        FlyingOn(s, Waiting(v), w);
        var g :| g in s.inflight - multiset{Waiting(v)} && g.node == w;
        assert g in t.inflight;
      }
    }
  }

  lemma StartPrompt(dag: Dag, l: Loop, init: Data)
    ensures Prompt(dag, l, Start(dag, init))
  {
    var s := Start(dag, init);
    forall v | v in dag.nodes
      ensures DoneOK(s, v)
    {
      if v in Roots(dag) {
        assert Waiting(v) in Flights(Roots(dag));
        assert Waiting(v) in s.inflight;
      }
    }
  }

  /** Nodes are prompt as long as there is no error. */
  ghost predicate Promptly(dag: Dag, l: Loop, s: State)
  {
    s.firstErr == None ==> Prompt(dag, l, s)
  }

  lemma {:induction false} RunPrompt(dag: Dag, l: Loop, init: Data, steps: seq<Step>)
    requires Shape(dag, l) && IsRun(dag, init, steps)
    ensures Promptly(dag, l, After(dag, init, steps))
  {
    if steps == [] {
      StartPrompt(dag, l, init);
    } else {
      var front, step := steps[..|steps| - 1], steps[|steps| - 1];
      RunPrompt(dag, l, init, front);
      RunKeeps(dag, l, init, front);
      RunDeadEnd(dag, l, init, front);
      ApplyPrompt(dag, l, After(dag, init, front), step);
    }
  }

  lemma ApplyPrompt(dag: Dag, l: Loop, s: State, step: Step)
    requires Shape(dag, l) && Inv(dag, l, s, []) && Enabled(s, step) && Promptly(dag, l, s) && DeadEnd(l, s)
    ensures Promptly(dag, l, Apply(dag, s, step))
  {
    if s.firstErr != None {
      ApplyHalted(dag, s, step);
    } else {
      match step
      case Read(v) => ReadPrompt(dag, l, s, v);
      case Recv(f, r) =>
        if r.Failed? {
          FailureStays(dag, s, f, r);
        } else {
          ReceivePrompt(dag, l, s, f, r);
        }
    }
  }

  // ---- When nothing is in flight ----

  /** With nothing in flight, whatever was dispatched has been routed. */
  lemma StartedIsRouted(dag: Dag, l: Loop, s: State, v: NodeId)
    requires Prompt(dag, l, s) && Quiescent(s) && v in dag.nodes && !Frozen(l, s, v) && !Abandoned(l, s, v)
    requires PendingOf(s, v) == 0
    ensures IsSettled(s, v)
  {
    assert DoneOK(s, v);
  }

  /** While a loop runs and nothing is in flight, every body node has settled. */
  lemma {:induction false} BodyFinished(dag: Dag, l: Loop, s: State, b: NodeId)
    requires Shape(dag, l) && Inv(dag, l, s, []) && Prompt(dag, l, s) && Quiescent(s) && InLoop(s) && b in l.body
    ensures IsSettled(s, b)
    decreases IndexOf(dag.order, b)
  {
    forall e | e in dag.forward && e.target == b && e.source in l.body
      ensures e.source !in l.body - Settled(s)
    {
      assert PointsLater(dag.order, e);
      BodyFinished(dag, l, s, e.source);
    }
    CountZero(dag.forward, l.body - Settled(s), b);
    assert CountOK(dag, l, s, [], b);
    StartedIsRouted(dag, l, s, b);
  }

  /** The loop waits for a loop-back edge that will never report: its body is empty, or the source
      of the edge was skipped in this pass. */
  ghost predicate Stalled(dag: Dag, l: Loop, s: State)
  {
    InLoop(s) && (l.body == {} || exists e :: e in dag.loopBack && e.source in s.skipped)
  }

  /** A loop that is not stalled is over when nothing is in flight. */
  lemma LoopIsOver(dag: Dag, l: Loop, s: State)
    requires Shape(dag, l) && Inv(dag, l, s, []) && Promptly(dag, l, s) && s.firstErr == None && Quiescent(s)
    requires forall c :: c in l.ctrl ==> LeftOK(dag, s, c)
    ensures InLoop(s) ==> Stalled(dag, l, s)
  {
    if InLoop(s) && !Stalled(dag, l, s) {
      forall e | e in dag.loopBack
        ensures e.source in s.routed
      {
        BodyFinished(dag, l, s, e.source);
      }
      var c :| c in l.ctrl;
      AllBackReported(dag, l, s, c);
      StartedIsRouted(dag, l, s, c);
    }
  }

  lemma AllBackReported(dag: Dag, l: Loop, s: State, c: NodeId)
    requires Fenced(dag, l) && Counts(dag, l, s, []) && Looping(s) && !s.exited && c in l.ctrl
    requires forall e :: e in dag.loopBack ==> e.source in s.routed
    ensures PendingOf(s, c) == 0
  {
    CountZero(dag.loopBack, dag.nodes.Keys - s.routed.Keys, c);
    assert CountOK(dag, l, s, [], c);
  }

  /** Outside a running loop, with nothing in flight, every node has settled. */
  lemma {:induction false} EveryNodeSettled(dag: Dag, l: Loop, s: State, v: NodeId)
    requires Shape(dag, l) && Inv(dag, l, s, []) && Prompt(dag, l, s) && Quiescent(s) && !InLoop(s) && v in dag.nodes
    ensures IsSettled(s, v)
    decreases IndexOf(dag.order, v)
  {
    if Frozen(l, s, v) || (v in l.ctrl && s.exited) {
      assert l.body <= s.skipped && l.ctrl <= s.routed.Keys;
    } else {
      forall e | e in dag.forward && e.target == v
        ensures e.source !in dag.nodes.Keys - Settled(s)
      {
        assert PointsLater(dag.order, e);
        EveryNodeSettled(dag, l, s, e.source);
      }
      CountZero(dag.forward, dag.nodes.Keys - Settled(s), v);
      assert CountOK(dag, l, s, [], v);
      StartedIsRouted(dag, l, s, v);
    }
  }

  ghost predicate Finished(dag: Dag, s: State)
  {
    forall v {:trigger IsSettled(s, v)} :: v in dag.nodes ==> IsSettled(s, v)
  }

  /** Why a run stops short. When an error-free run of a graph whose loop is well formed comes to
      rest, every node was executed or skipped unless the loop is not over, and then its body is
      empty or the source of one of its loop-back edges was skipped in this pass. */
  lemma StallCause(dag: Dag, init: Data, steps: seq<Step>)
    requires Runnable(dag) && IsRun(dag, init, steps)
    requires Quiescent(After(dag, init, steps)) && After(dag, init, steps).firstErr == None
    ensures Finished(dag, After(dag, init, steps)) <==> !InLoop(After(dag, init, steps))
    ensures InLoop(After(dag, init, steps)) ==> Stalled(dag, LoopOf(dag), After(dag, init, steps))
  {
    RunnableShape(dag);
    var l, s := LoopOf(dag), After(dag, init, steps);
    RunKeeps(dag, l, init, steps);
    RunPrompt(dag, l, init, steps);
    forall c | c in l.ctrl
      ensures LeftOK(dag, s, c) && DeadEnd(l, s)
    {
      RunLeft(dag, l, init, steps, c);
      RunDeadEnd(dag, l, init, steps);
    }
    RestCompletes(dag, l, s);
  }

  lemma RestCompletes(dag: Dag, l: Loop, s: State)
    requires Shape(dag, l) && Inv(dag, l, s, []) && Promptly(dag, l, s) && s.firstErr == None && Quiescent(s)
    requires forall c :: c in l.ctrl ==> LeftOK(dag, s, c) && DeadEnd(l, s)
    ensures Finished(dag, s) <==> !InLoop(s)
    ensures InLoop(s) ==> Stalled(dag, l, s)
  {
    LoopIsOver(dag, l, s);
    if InLoop(s) {
      var c :| c in l.ctrl;
      assert !IsSettled(s, c);
    } else {
      forall v | v in dag.nodes
        ensures IsSettled(s, v)
      {
        EveryNodeSettled(dag, l, s, v);
      }
    }
  }

  // ---- A stall is for good ----

  lemma DeliverSkipsMore(dag: Dag, s: State, todo: seq<Signal>)
    ensures s.skipped <= Deliver(dag, s, todo).skipped
  {
    ghost var keeps := (t: State, rest: seq<Signal>) => s.skipped <= t.skipped;
    forall t, rest | rest != [] && keeps(t, rest)
      ensures keeps(Absorb(t, rest[0]), SentOn(dag, t, rest[0]) + rest[1..])
    {
      AbsorbTouches(t, rest[0]);
    }
    DeliverInduction(dag, s, todo, keeps);
  }

  lemma StalledIdles(dag: Dag, l: Loop, s: State, c: NodeId)
    requires Fenced(dag, l) && Inv(dag, l, s, []) && DeadEnd(l, s) && Stalled(dag, l, s) && c in l.ctrl
    requires forall d :: d in l.ctrl ==> c == d
    ensures c !in s.started
  {
    if l.body != {} {
      var e :| e in dag.loopBack && e.source in s.skipped;
      assert CountOK(dag, l, s, [], c) && OnceOK(s, c) && OnceOK(s, e.source);
      CountZero(dag.loopBack, dag.nodes.Keys - s.routed.Keys, c);
    }
  }

  lemma StaysStalled(dag: Dag, l: Loop, s: State, t: State)
    requires Stalled(dag, l, s) && t.passes == s.passes && t.exited == s.exited && s.skipped <= t.skipped
    ensures Stalled(dag, l, t)
  {
    if l.body != {} {
      var e :| e in dag.loopBack && e.source in s.skipped;
      assert e.source in t.skipped;
    }
  }

  lemma OrdinaryStalls(dag: Dag, l: Loop, s: State, f: Flight, r: Outcome)
    requires Stalled(dag, l, s) && s.firstErr == None && r.Succeeded? && dag.TypeOf(f.node) != LOOP_CONTROLLER
    ensures Stalled(dag, l, Receive(dag, s, f, r))
  {
    var u, todo := Landing(s, f, r), SignalsOf(dag, f.node, r.routing);
    LandingLands(s, f, r);
    ReceiveLands(dag, s, f, r);
    DeliverSame(dag, u, todo);
    DeliverSkipsMore(dag, u, todo);
    StaysStalled(dag, l, s, Deliver(dag, u, todo));
  }

  lemma ApplyStalls(dag: Dag, l: Loop, s: State, step: Step)
    requires Shape(dag, l) && Inv(dag, l, s, []) && DeadEnd(l, s) && Stalled(dag, l, s) && Enabled(s, step)
    ensures Stalled(dag, l, Apply(dag, s, step))
  {
    match step
    case Read(v) => StaysStalled(dag, l, s, Apply(dag, s, step));
    case Recv(f, r) =>
      if r.Failed? || s.firstErr != None {
        OnlyRecorded(dag, s, f, r);
        StaysStalled(dag, l, s, Receive(dag, s, f, r));
      } else {
        ControllerGrounded(dag, l, s, f);
        OrdinaryStalls(dag, l, s, f, r);
      }
  }

  lemma ControllerGrounded(dag: Dag, l: Loop, s: State, f: Flight)
    requires Shape(dag, l) && Inv(dag, l, s, []) && DeadEnd(l, s) && Stalled(dag, l, s) && f in s.inflight
    ensures dag.TypeOf(f.node) != LOOP_CONTROLLER
  {
    assert FlightOK(l, s, f);
    TypeOfController(dag, l, f.node);
    if f.node in l.ctrl {
      StalledIdles(dag, l, s, f.node);
    }
  }

  /** A loop that is stalled stays stalled, whatever the other nodes do: no later step of the run
      starts another pass or leaves the loop. */
  lemma {:induction false} StallIsFinal(dag: Dag, init: Data, steps: seq<Step>, k: nat)
    requires Runnable(dag) && IsRun(dag, init, steps) && k <= |steps|
    requires Stalled(dag, LoopOf(dag), After(dag, init, steps[..k]))
    ensures Stalled(dag, LoopOf(dag), After(dag, init, steps))
  {
    if k == |steps| {
      assert steps[..k] == steps;
    } else {
      var front, l := steps[..|steps| - 1], LoopOf(dag);
      assert front[..k] == steps[..k];
      StallIsFinal(dag, init, front, k);
      RunnableShape(dag);
      RunKeeps(dag, l, init, front);
      RunDeadEnd(dag, l, init, front);
      ApplyStalls(dag, l, After(dag, init, front), steps[|steps| - 1]);
    }
  }
}
