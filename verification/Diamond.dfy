/** Any two steps that are possible in a reachable state of an error-free run can be taken in
    either order, with the same result. */
module Diamond {
  import opened Workflow
  import opened Graph
  import opened DagModel
  import opened Scheduler
  import opened SchedulerInvariant
  import opened SchedulerSteps
  import opened LoopSteps
  import opened LoopFree
  import opened Completion
  import opened Delivery
  import opened Landings

  // ---- Landing beside signals that are still under way ----

  /** An ordinary result lands beside signals that are still under way. */
  lemma LandingBeside(dag: Dag, l: Loop, s: State, todo: seq<Signal>, g: Flight, r: Outcome)
    requires Fenced(dag, l) && Inv(dag, l, s, todo) && g in s.inflight && g.node !in l.ctrl && r.Succeeded?
    ensures Inv(dag, l, Landing(s, g, r), SignalsOf(dag, g.node, r.routing) + todo)
  {
    RecordBeside(dag, l, s, todo, g, r);
    FiredBeside(dag, l, Record(s, g, r), todo, g.node, r.routing);
  }

  // ---- What receiving a result comes to ----

  lemma ReceiveLands(dag: Dag, s: State, f: Flight, r: Outcome)
    requires r.Succeeded? && s.firstErr == None && dag.TypeOf(f.node) != LOOP_CONTROLLER
    ensures Receive(dag, s, f, r) == Deliver(dag, Landing(s, f, r), SignalsOf(dag, f.node, r.routing))
  {
    var t := Record(s, f, r);
    assert Routing(dag, t, f.node, r.routing) == Landing(s, f, r);
  }

  lemma ReceiveQuits(dag: Dag, l: Loop, s: State, f: Flight, r: Outcome)
    requires r.Succeeded? && s.firstErr == None && dag.TypeOf(f.node) == LOOP_CONTROLLER && dag.BodyOf(f.node) == l.body
    requires !Iterates(dag, s, f.node, r.routing)
    ensures Receive(dag, s, f, r) == Deliver(dag, Quits(l, s, f, r), SignalsOf(dag, f.node, r.routing))
  {
    var t := Record(s, f, r);
    assert !Iterates(dag, t, f.node, r.routing);
    assert Routing(dag, t, f.node, r.routing) == Quits(l, s, f, r);
  }

  lemma ReceiveStarts(dag: Dag, s: State, f: Flight, r: Outcome)
    requires r.Succeeded? && s.firstErr == None && dag.TypeOf(f.node) == LOOP_CONTROLLER
    requires Iterates(dag, s, f.node, r.routing)
    ensures Receive(dag, s, f, r) == Passes(dag, s, f, r)
  {
    assert Iterates(dag, Record(s, f, r), f.node, r.routing);
  }

  /** A delivery leaves alone what only results change. */
  lemma DeliverSame(dag: Dag, s: State, todo: seq<Signal>)
    ensures SameOutside(s, Deliver(dag, s, todo))
  {
    ghost var keeps := (t: State, rest: seq<Signal>) => SameOutside(s, t);
    forall t, rest | rest != [] && keeps(t, rest)
      ensures keeps(Absorb(t, rest[0]), SentOn(dag, t, rest[0]) + rest[1..])
    {
      AbsorbTouches(t, rest[0]);
    }
    DeliverInduction(dag, s, todo, keeps);
  }

  // ---- Two landings ----

  lemma TwoLess<T>(m: multiset<T>, f: T, g: T)
    ensures m - multiset{f} - multiset{g} == m - multiset{g} - multiset{f}
    ensures f != g && g in m ==> g in m - multiset{f}
  {
  }

  lemma MapTwice<K, V>(m: map<K, V>, a: K, i: V, b: K, j: V)
    requires a != b
    ensures m[a := i][b := j] == m[b := j][a := i]
  {
  }

  /** A landed result, field by field. */
  ghost predicate Lands(s: State, t: State, f: Flight, r: Outcome)
    requires r.Succeeded?
  {
    && t.inflight == s.inflight - multiset{f} && t.received == s.received + 1
    && t.nodeResults == s.nodeResults[f.node := NodeSucceeded(r.output)]
    && t.outputs == s.outputs[f.node := r.output] && t.routed == s.routed[f.node := r.routing]
    && SameBeside(s, t)
  }

  /** The fields a landing does not touch. */
  predicate SameBeside(s: State, t: State)
  {
    && t.pending == s.pending && t.skipped == s.skipped && t.hasLive == s.hasLive && t.ancestors == s.ancestors
    && t.loopIterations == s.loopIterations && t.dispatched == s.dispatched && t.firstErr == s.firstErr
    && t.started == s.started && t.launched == s.launched && t.passes == s.passes && t.exited == s.exited
  }

  lemma LandingLands(s: State, f: Flight, r: Outcome)
    requires r.Succeeded?
    ensures Lands(s, Landing(s, f, r), f, r)
  {
  }

  lemma LandsTwice(s: State, sf: State, sfg: State, sg: State, sgf: State, f: Flight, q: Outcome, g: Flight, r: Outcome)
    requires q.Succeeded? && r.Succeeded? && f.node != g.node
    requires Lands(s, sf, f, q) && Lands(sf, sfg, g, r) && Lands(s, sg, g, r) && Lands(sg, sgf, f, q)
    ensures sfg == sgf
  {
    TwoLess(s.inflight, f, g);
    MapTwice(s.nodeResults, f.node, NodeSucceeded(q.output), g.node, NodeSucceeded(r.output));
    MapTwice(s.outputs, f.node, q.output, g.node, r.output);
    MapTwice(s.routed, f.node, q.routing, g.node, r.routing);
    SameState(sfg, sgf);
  }

  lemma LandingTwice(s: State, f: Flight, q: Outcome, g: Flight, r: Outcome)
    requires q.Succeeded? && r.Succeeded? && f.node != g.node
    ensures Landing(Landing(s, f, q), g, r) == Landing(Landing(s, g, r), f, q)
  {
    var sf, sg := Landing(s, f, q), Landing(s, g, r);
    LandingLands(s, f, q);
    LandingLands(s, g, r);
    LandingLands(sf, g, r);
    LandingLands(sg, f, q);
    LandsTwice(s, sf, Landing(sf, g, r), sg, Landing(sg, f, q), f, q, g, r);
  }

  /** Leaving a loop is a landing after which the body is marked as skipped. */
  function Marked(l: Loop, s: State): State
  {
    s.(skipped := s.skipped + l.body, exited := true)
  }

  lemma QuitsMarks(l: Loop, s: State, f: Flight, r: Outcome)
    requires r.Succeeded?
    ensures Quits(l, s, f, r) == Marked(l, Landing(s, f, r))
  {
  }

  lemma LandingMarked(l: Loop, s: State, g: Flight, r: Outcome)
    requires r.Succeeded?
    ensures Landing(Marked(l, s), g, r) == Marked(l, Landing(s, g, r))
  {
  }

  lemma QuitsLanding(l: Loop, s: State, f: Flight, q: Outcome, g: Flight, r: Outcome)
    requires q.Succeeded? && r.Succeeded? && f.node != g.node
    ensures Landing(Quits(l, s, f, q), g, r) == Quits(l, Landing(s, g, r), f, q)
  {
    QuitsMarks(l, s, f, q);
    LandingMarked(l, Landing(s, f, q), g, r);
    LandingTwice(s, f, q, g, r);
    QuitsMarks(l, Landing(s, g, r), f, q);
  }

  lemma FlightsBeside(m: multiset<Flight>, f: Flight, g: Flight, more: multiset<Flight>)
    requires f != g && g in m
    ensures m - multiset{f} + more - multiset{g} == m - multiset{g} - multiset{f} + more
  {
  }

  lemma PassesLanding(dag: Dag, s: State, f: Flight, q: Outcome, g: Flight, r: Outcome)
    requires q.Succeeded? && r.Succeeded? && f.node != g.node && g in s.inflight
    requires g.node !in dag.BodyOf(f.node) && g.node != LOOP_STATE
    ensures Landing(Passes(dag, s, f, q), g, r) == Passes(dag, Landing(s, g, r), f, q)
  {
    var t, sg := Passes(dag, s, f, q), Landing(s, g, r);
    var tg, u := Landing(t, g, r), Passes(dag, sg, f, q);
    PassesIsPassed(dag, s, f, q);
    PassesIsPassed(dag, sg, f, q);
    LandingLands(s, g, r);
    LandingLands(t, g, r);
    PassedLandingRecords(dag, s, t, f, q, g, r, sg, tg, u);
    PassedLandingRest(dag, s, t, f, q, g, r, sg, tg, u);
  }

  lemma RoutedBeside(routed: map<NodeId, Data>, body: set<NodeId>, v: NodeId, routing: Data)
    requires v !in body
    ensures (routed - body)[v := routing] == routed[v := routing] - body
  {
  }

  lemma PassedLandingRecords(
    dag: Dag, s: State, t: State, f: Flight, q: Outcome, g: Flight, r: Outcome, sg: State, tg: State, u: State)
    requires q.Succeeded? && r.Succeeded? && f.node != g.node && g.node !in dag.BodyOf(f.node) && g.node != LOOP_STATE
    requires PassedRecords(dag, s, t, f, q) && Lands(s, sg, g, r) && Lands(t, tg, g, r)
    requires PassedRecords(dag, sg, u, f, q)
    ensures tg.nodeResults == u.nodeResults && tg.outputs == u.outputs && tg.loopIterations == u.loopIterations
    ensures tg.ancestors == u.ancestors && tg.routed == u.routed && tg.received == u.received
    ensures tg.passes == u.passes && tg.exited == u.exited && tg.firstErr == u.firstErr
  {
    var c, pass := f.node, map["iteration" := Int(IterationsOf(s, f.node) + 1)];
    MapTwice(s.nodeResults, c, NodeSucceeded(q.output), g.node, NodeSucceeded(r.output));
    MapTwice(s.outputs, c, q.output, g.node, r.output);
    MapTwice(s.outputs[c := q.output], LOOP_STATE, pass, g.node, r.output);
    RoutedBeside(s.routed, dag.BodyOf(c), g.node, r.routing);
  }

  lemma PassedLandingRest(
    dag: Dag, s: State, t: State, f: Flight, q: Outcome, g: Flight, r: Outcome, sg: State, tg: State, u: State)
    requires q.Succeeded? && r.Succeeded? && f.node != g.node && g in s.inflight
    requires PassedCounters(dag, s, t, f.node) && PassedFlying(dag, s, t, f)
    requires PassedCounters(dag, sg, u, f.node) && PassedFlying(dag, sg, u, f)
    requires Lands(s, sg, g, r) && Lands(t, tg, g, r)
    requires tg.nodeResults == u.nodeResults && tg.outputs == u.outputs && tg.loopIterations == u.loopIterations
    requires tg.ancestors == u.ancestors && tg.routed == u.routed && tg.received == u.received
    requires tg.passes == u.passes && tg.exited == u.exited && tg.firstErr == u.firstErr
    ensures tg == u
  {
    FlyingAlike(dag, s, t, f, g, r, sg, tg, u);
    CountersAlike(dag, s, t, f.node, g, r, sg, tg, u);
    SameState(tg, u);
  }

  lemma FlyingAlike(dag: Dag, s: State, t: State, f: Flight, g: Flight, r: Outcome, sg: State, tg: State, u: State)
    requires r.Succeeded? && f.node != g.node && g in s.inflight
    requires PassedFlying(dag, s, t, f) && PassedFlying(dag, sg, u, f) && Lands(s, sg, g, r) && Lands(t, tg, g, r)
    ensures tg.inflight == u.inflight && tg.launched == u.launched && tg.dispatched == u.dispatched
  {
    FlightsBeside(s.inflight, f, g, multiset(Flights(BodyRoots(dag, f.node))));
  }

  lemma CountersAlike(dag: Dag, s: State, t: State, c: NodeId, g: Flight, r: Outcome, sg: State, tg: State, u: State)
    requires r.Succeeded? && PassedCounters(dag, s, t, c) && PassedCounters(dag, sg, u, c)
    requires Lands(s, sg, g, r) && Lands(t, tg, g, r)
    ensures tg.pending == u.pending && tg.skipped == u.skipped && tg.hasLive == u.hasLive && tg.started == u.started
  {
  }

  // ---- Two results ----

  lemma OtherFlight(l: Loop, s: State, f: Flight, g: Flight)
    requires Airborne(l, s) && f in s.inflight && g in s.inflight && f != g
    ensures f.node != g.node && g in s.inflight - multiset{f} && f in s.inflight - multiset{g}
  {
  }

  /** An ordinary result after another one: both land, then both sets of signals are delivered. */
  lemma LandsThenLands(dag: Dag, l: Loop, s: State, f: Flight, q: Outcome, g: Flight, r: Outcome)
    requires Fenced(dag, l) && Inv(dag, l, s, []) && f in s.inflight && g in s.inflight && f != g
    requires q.Succeeded? && r.Succeeded? && s.firstErr == None
    requires f.node !in l.ctrl && g.node !in l.ctrl
    requires dag.TypeOf(f.node) != LOOP_CONTROLLER && dag.TypeOf(g.node) != LOOP_CONTROLLER
    ensures var a, b := SignalsOf(dag, f.node, q.routing), SignalsOf(dag, g.node, r.routing);
      && Receive(dag, Receive(dag, s, f, q), g, r) == Deliver(dag, Landing(Landing(s, f, q), g, r), a + b)
      && g in Receive(dag, s, f, q).inflight
  {
    var a, b, u := SignalsOf(dag, f.node, q.routing), SignalsOf(dag, g.node, r.routing), Landing(s, f, q);
    OtherFlight(l, s, f, g);
    ReceiveLands(dag, s, f, q);
    LandingThrough(dag, u, a, g, r);
    DeliverSame(dag, u, a);
    ReceiveLands(dag, Deliver(dag, u, a), g, r);
    DeliverAppend(dag, Landing(u, g, r), a, b);
  }

  lemma EitherOrder(dag: Dag, l: Loop, u: State, a: seq<Signal>, b: seq<Signal>)
    requires Fenced(dag, l) && Inv(dag, l, u, b + a)
    ensures Deliver(dag, u, a + b) == Deliver(dag, u, b + a)
  {
    assert multiset(a + b) == multiset(b + a);
    Permuted(dag, l, u, b + a, a + b);
  }

  lemma BothLanded(dag: Dag, l: Loop, s: State, f: Flight, q: Outcome, g: Flight, r: Outcome)
    requires Fenced(dag, l) && Inv(dag, l, s, []) && f in s.inflight && g in s.inflight && f != g
    requires q.Succeeded? && r.Succeeded? && f.node !in l.ctrl && g.node !in l.ctrl
    ensures var a, b := SignalsOf(dag, f.node, q.routing), SignalsOf(dag, g.node, r.routing);
      var u := Landing(Landing(s, f, q), g, r); Deliver(dag, u, a + b) == Deliver(dag, u, b + a)
  {
    var a, b := SignalsOf(dag, f.node, q.routing), SignalsOf(dag, g.node, r.routing);
    TwoLandings(dag, l, s, f, q, g, r);
    EitherOrder(dag, l, Landing(Landing(s, f, q), g, r), a, b);
  }

  lemma TwoLandings(dag: Dag, l: Loop, s: State, f: Flight, q: Outcome, g: Flight, r: Outcome)
    requires Fenced(dag, l) && Inv(dag, l, s, []) && f in s.inflight && g in s.inflight && f != g
    requires q.Succeeded? && r.Succeeded? && f.node !in l.ctrl && g.node !in l.ctrl
    ensures Inv(
      dag, l, Landing(Landing(s, f, q), g, r), SignalsOf(dag, g.node, r.routing) + SignalsOf(dag, f.node, q.routing))
  {
    var u, a := Landing(s, f, q), SignalsOf(dag, f.node, q.routing);
    OtherFlight(l, s, f, g);
    LandingLands(s, f, q);
    LandingBeside(dag, l, s, [], f, q);
    assert a + [] == a;
    LandingBeside(dag, l, u, a, g, r);
  }

  lemma ResultsCommute(dag: Dag, l: Loop, s: State, f: Flight, q: Outcome, g: Flight, r: Outcome)
    requires Fenced(dag, l) && Inv(dag, l, s, []) && f in s.inflight && g in s.inflight && f != g
    requires q.Succeeded? && r.Succeeded? && s.firstErr == None
    requires f.node !in l.ctrl && g.node !in l.ctrl
    requires dag.TypeOf(f.node) != LOOP_CONTROLLER && dag.TypeOf(g.node) != LOOP_CONTROLLER
    ensures Receive(dag, Receive(dag, s, f, q), g, r) == Receive(dag, Receive(dag, s, g, r), f, q)
    ensures g in Receive(dag, s, f, q).inflight && f in Receive(dag, s, g, r).inflight
  {
    var a, b := SignalsOf(dag, f.node, q.routing), SignalsOf(dag, g.node, r.routing);
    OtherFlight(l, s, f, g);
    LandsThenLands(dag, l, s, f, q, g, r);
    LandsThenLands(dag, l, s, g, r, f, q);
    LandingTwice(s, f, q, g, r);
    BothLanded(dag, l, s, f, q, g, r);
  }

  // ---- A controller's result and another one ----

  /** While the controller is in flight, no other node in flight belongs to the loop or has edges into it. */
  lemma SignalsOutside(dag: Dag, l: Loop, s: State, f: Flight, g: Flight, routing: Data)
    requires Shape(dag, l) && Inv(dag, l, s, []) && f in s.inflight && g in s.inflight && f != g && f.node in l.ctrl
    ensures l.ctrl == {f.node} && g.node !in l.ctrl && g.node !in l.body && Outside(l, SignalsOf(dag, g.node, routing))
  {
    FlightBeside(dag, l, s, f, g);
    OnlyController(dag, l, f.node);
    SentBeside(dag, l, s, f.node, g.node, routing);
  }

  /** What is in flight together with the controller is outside the loop. */
  lemma FlightBeside(dag: Dag, l: Loop, s: State, f: Flight, g: Flight)
    requires Shape(dag, l) && Inv(dag, l, s, []) && f in s.inflight && g in s.inflight && f != g && f.node in l.ctrl
    ensures f.node in s.started && g.node !in l.ctrl && g.node !in l.body
    ensures g.node in dag.nodes && g.node in s.started && g.node !in s.routed
  {
    assert FlightOK(l, s, f) && FlightOK(l, s, g);
    OtherFlight(l, s, f, g);
    BodyRests(dag, l, s, f.node);
  }

  lemma SentBeside(dag: Dag, l: Loop, s: State, c: NodeId, v: NodeId, routing: Data)
    requires Fenced(dag, l) && Inv(dag, l, s, []) && l.ctrl == {c} && c in s.started
    requires v !in l.ctrl && v !in l.body && v in s.started && v !in s.routed && v in dag.nodes
    ensures Outside(l, SignalsOf(dag, v, routing))
  {
    OutKinds(dag.Out(v), routing, dag.TypeOf(v));
    BackKinds(dag.loopBack, v);
    forall e | e in dag.Out(v)
      ensures e.target !in l.body && e.target !in l.ctrl
    {
      EdgeBeside(dag, l, s, c, v, e);
    }
  }

  lemma EdgeBeside(dag: Dag, l: Loop, s: State, c: NodeId, v: NodeId, e: Edge)
    requires Fenced(dag, l) && Inv(dag, l, s, []) && l.ctrl == {c} && c in s.started && e in dag.Out(v)
    requires v !in l.ctrl && v !in l.body && v in s.started && v !in s.routed && v in dag.nodes
    ensures e.target !in l.body && e.target !in l.ctrl
  {
    assert dag.Out(v) == dag.outEdges[v];
    assert EdgeRule(l, e) && OnceOK(s, v);
    if e.target == c {
      ControllerPreds(dag, l, s, [], c, e);
    }
  }

  lemma BesideController(dag: Dag, l: Loop, s: State, f: Flight, g: Flight, r: Outcome)
    requires Shape(dag, l) && Inv(dag, l, s, []) && f in s.inflight && g in s.inflight && f != g && f.node in l.ctrl
    requires r.Succeeded?
    ensures l.ctrl == {f.node} && g.node !in l.ctrl && g.node !in l.body && f.node != g.node
    ensures f in Landing(s, g, r).inflight && g in s.inflight - multiset{f}
    ensures Beside(dag, l, f, Landing(s, g, r), SignalsOf(dag, g.node, r.routing))
  {
    OtherFlight(l, s, f, g);
    SignalsOutside(dag, l, s, f, g, r.routing);
    LandedBeside(dag, l, s, f, g, r);
  }

  lemma LandedBeside(dag: Dag, l: Loop, s: State, f: Flight, g: Flight, r: Outcome)
    requires Fenced(dag, l) && Inv(dag, l, s, []) && g in s.inflight && f in s.inflight - multiset{g}
    requires g.node !in l.ctrl
    requires r.Succeeded? && Outside(l, SignalsOf(dag, g.node, r.routing))
    ensures f in Landing(s, g, r).inflight && Beside(dag, l, f, Landing(s, g, r), SignalsOf(dag, g.node, r.routing))
  {
    var b := SignalsOf(dag, g.node, r.routing);
    LandingBeside(dag, l, s, [], g, r);
    assert b + [] == b;
  }

  /** A pass started before or after another result. */
  lemma PassCommutes(dag: Dag, l: Loop, s: State, f: Flight, q: Outcome, g: Flight, r: Outcome)
    requires Shape(dag, l) && Inv(dag, l, s, []) && f in s.inflight && g in s.inflight && f != g && f.node in l.ctrl
    requires q.Succeeded? && r.Succeeded? && s.firstErr == None && g.node != LOOP_STATE
    requires Iterates(dag, s, f.node, q.routing)
    ensures Receive(dag, Receive(dag, s, f, q), g, r) == Receive(dag, Receive(dag, s, g, r), f, q)
    ensures g in Receive(dag, s, f, q).inflight && f in Receive(dag, s, g, r).inflight
  {
    var b, u := SignalsOf(dag, g.node, r.routing), Landing(s, g, r);
    BesideController(dag, l, s, f, g, r);
    ReceiveStarts(dag, s, f, q);
    PassesIsPassed(dag, s, f, q);
    ReceiveLands(dag, Passes(dag, s, f, q), g, r);
    PassesLanding(dag, s, f, q, g, r);
    PassesThrough(dag, l, u, b, f, q);
    ReceiveLands(dag, s, g, r);
    DeliverSame(dag, u, b);
    ReceiveStarts(dag, Deliver(dag, u, b), f, q);
  }

  /** The invariant once a controller has left its loop, before anything is delivered. */
  lemma QuitsKeeps(dag: Dag, l: Loop, s: State, f: Flight, q: Outcome)
    requires Shape(dag, l) && Inv(dag, l, s, []) && f in s.inflight && f.node in l.ctrl && q.Succeeded?
    requires !Iterates(dag, s, f.node, q.routing)
    ensures Inv(dag, l, Quits(l, s, f, q), SignalsOf(dag, f.node, q.routing))
  {
    RecordKeeps(dag, l, s, f, q);
    assert !Iterates(dag, Record(s, f, q), f.node, q.routing);
    LeaveKeeps(dag, l, Record(s, f, q), f.node, q.routing);
  }

  lemma BothLeft(dag: Dag, l: Loop, s: State, f: Flight, q: Outcome, g: Flight, r: Outcome)
    requires Shape(dag, l) && Inv(dag, l, s, []) && f in s.inflight && f.node in l.ctrl
    requires q.Succeeded? && r.Succeeded? && g in s.inflight - multiset{f} && g.node !in l.ctrl
    requires !Iterates(dag, s, f.node, q.routing)
    ensures var a, b := SignalsOf(dag, f.node, q.routing), SignalsOf(dag, g.node, r.routing);
      var u := Landing(Quits(l, s, f, q), g, r); Deliver(dag, u, a + b) == Deliver(dag, u, b + a)
  {
    var a, b := SignalsOf(dag, f.node, q.routing), SignalsOf(dag, g.node, r.routing);
    QuitsKeeps(dag, l, s, f, q);
    LandingBeside(dag, l, Quits(l, s, f, q), a, g, r);
    EitherOrder(dag, l, Landing(Quits(l, s, f, q), g, r), a, b);
  }

  /** The controller leaves, then another result is received. */
  lemma QuitsThenLands(dag: Dag, l: Loop, s: State, f: Flight, q: Outcome, g: Flight, r: Outcome)
    requires q.Succeeded? && r.Succeeded? && s.firstErr == None && g in s.inflight - multiset{f}
    requires dag.TypeOf(f.node) == LOOP_CONTROLLER && dag.BodyOf(f.node) == l.body
    requires !Iterates(dag, s, f.node, q.routing)
    requires dag.TypeOf(g.node) != LOOP_CONTROLLER
    ensures var a, b := SignalsOf(dag, f.node, q.routing), SignalsOf(dag, g.node, r.routing);
      Receive(dag, Receive(dag, s, f, q), g, r) == Deliver(dag, Landing(Quits(l, s, f, q), g, r), a + b)
    ensures g in Receive(dag, s, f, q).inflight
  {
    var a, b, u := SignalsOf(dag, f.node, q.routing), SignalsOf(dag, g.node, r.routing), Quits(l, s, f, q);
    ReceiveQuits(dag, l, s, f, q);
    LandingThrough(dag, u, a, g, r);
    DeliverSame(dag, u, a);
    ReceiveLands(dag, Deliver(dag, u, a), g, r);
    DeliverAppend(dag, Landing(u, g, r), a, b);
  }

  /** Another result is received, then the controller leaves. */
  lemma LandsThenQuits(dag: Dag, l: Loop, s: State, f: Flight, q: Outcome, g: Flight, r: Outcome)
    requires Fenced(dag, l) && l.ctrl == {f.node} && q.Succeeded? && r.Succeeded? && s.firstErr == None
    requires f.node != g.node
    requires dag.TypeOf(f.node) == LOOP_CONTROLLER && dag.BodyOf(f.node) == l.body
    requires !Iterates(dag, s, f.node, q.routing)
    requires dag.TypeOf(g.node) != LOOP_CONTROLLER
    requires Beside(dag, l, f, Landing(s, g, r), SignalsOf(dag, g.node, r.routing))
    ensures var a, b := SignalsOf(dag, f.node, q.routing), SignalsOf(dag, g.node, r.routing);
      Receive(dag, Receive(dag, s, g, r), f, q) == Deliver(dag, Landing(Quits(l, s, f, q), g, r), b + a)
    ensures f in Receive(dag, s, g, r).inflight
  {
    var a, b, u := SignalsOf(dag, f.node, q.routing), SignalsOf(dag, g.node, r.routing), Landing(s, g, r);
    ReceiveLands(dag, s, g, r);
    QuitsThrough(dag, l, u, b, f, q);
    DeliverSame(dag, u, b);
    ReceiveQuits(dag, l, Deliver(dag, u, b), f, q);
    DeliverAppend(dag, Quits(l, u, f, q), b, a);
    QuitsLanding(l, s, f, q, g, r);
  }

  lemma QuitCommutes(dag: Dag, l: Loop, s: State, f: Flight, q: Outcome, g: Flight, r: Outcome)
    requires Shape(dag, l) && Inv(dag, l, s, []) && f in s.inflight && g in s.inflight && f != g && f.node in l.ctrl
    requires q.Succeeded? && r.Succeeded? && s.firstErr == None && !Iterates(dag, s, f.node, q.routing)
    ensures Receive(dag, Receive(dag, s, f, q), g, r) == Receive(dag, Receive(dag, s, g, r), f, q)
    ensures g in Receive(dag, s, f, q).inflight && f in Receive(dag, s, g, r).inflight
  {
    BesideController(dag, l, s, f, g, r);
    QuitsThenLands(dag, l, s, f, q, g, r);
    LandsThenQuits(dag, l, s, f, q, g, r);
    BothLeft(dag, l, s, f, q, g, r);
  }

  /** Two successful results can be received in either order. */
  lemma ReceivesCommute(dag: Dag, l: Loop, s: State, f: Flight, q: Outcome, g: Flight, r: Outcome)
    requires Shape(dag, l) && Inv(dag, l, s, []) && f in s.inflight && g in s.inflight && f != g
    requires q.Succeeded? && r.Succeeded? && s.firstErr == None && f.node != LOOP_STATE && g.node != LOOP_STATE
    ensures Receive(dag, Receive(dag, s, f, q), g, r) == Receive(dag, Receive(dag, s, g, r), f, q)
    ensures g in Receive(dag, s, f, q).inflight && f in Receive(dag, s, g, r).inflight
  {
    assert FlightOK(l, s, f) && FlightOK(l, s, g);
    if f.node in l.ctrl {
      ControllerCommutes(dag, l, s, f, q, g, r);
    } else if g.node in l.ctrl {
      ControllerCommutes(dag, l, s, g, r, f, q);
    } else {
      ResultsCommute(dag, l, s, f, q, g, r);
    }
  }

  lemma ControllerCommutes(dag: Dag, l: Loop, s: State, f: Flight, q: Outcome, g: Flight, r: Outcome)
    requires Shape(dag, l) && Inv(dag, l, s, []) && f in s.inflight && g in s.inflight && f != g && f.node in l.ctrl
    requires q.Succeeded? && r.Succeeded? && s.firstErr == None && g.node != LOOP_STATE
    ensures Receive(dag, Receive(dag, s, f, q), g, r) == Receive(dag, Receive(dag, s, g, r), f, q)
    ensures g in Receive(dag, s, f, q).inflight && f in Receive(dag, s, g, r).inflight
  {
    if Iterates(dag, s, f.node, q.routing) {
      PassCommutes(dag, l, s, f, q, g, r);
    } else {
      QuitCommutes(dag, l, s, f, q, g, r);
    }
  }

  // ---- Reading and receiving ----

  /** `x` is not in flight: it has settled, or it is a controller whose body is at work. */
  predicate Calm(l: Loop, s: State, x: NodeId)
  {
    IsSettled(s, x) || (x in l.ctrl && Looping(s) && x !in s.started)
  }

  /** `x` has been decided about, now or for the loop as a whole. */
  predicate Past(l: Loop, s: State, x: NodeId)
  {
    x in s.started || x in s.skipped || (x in l.ctrl && Looping(s))
  }

  /** The controller is not in flight. */
  predicate Grounded(l: Loop, s: State)
  {
    forall c :: c in l.ctrl ==> c in s.routed || c !in s.started
  }

  lemma SourceOfController(dag: Dag, l: Loop, s: State, e: Edge)
    requires Fenced(dag, l) && Inv(dag, l, s, []) && e in dag.forward && e.target in l.ctrl && Past(l, s, e.target)
    ensures IsSettled(s, e.source)
  {
    if Looping(s) {
      assert ReadyOK(l, s, e);
    } else {
      assert CountOK(dag, l, s, [], e.target) && OnceOK(s, e.target);
      CountZero(dag.forward, dag.nodes.Keys - Settled(s), e.target);
    }
  }

  lemma SourceCalm(dag: Dag, l: Loop, s: State, e: Edge)
    requires Fenced(dag, l) && Inv(dag, l, s, []) && e in dag.forward && e.target !in l.ctrl
    requires Past(l, s, e.target) && !Frozen(l, s, e.target) && (e.target in l.body ==> Grounded(l, s))
    ensures Calm(l, s, e.source)
  {
    assert EdgeRule(l, e) && CountOK(dag, l, s, [], e.target) && OnceOK(s, e.target);
    CountZero(dag.forward, Sources(dag, l, s, e.target) - Settled(s), e.target);
  }

  lemma CalmIsPast(dag: Dag, l: Loop, s: State, x: NodeId)
    requires Inv(dag, l, s, []) && x in dag.nodes && !Frozen(l, s, x) && Calm(l, s, x)
    ensures Past(l, s, x)
  {
    assert OnceOK(s, x);
  }

  /** `x` counts as begun in the current phase of the loop. */
  predicate Begun(l: Loop, s: State, x: NodeId)
  {
    Past(l, s, x) && !Frozen(l, s, x) && (x in l.body ==> Grounded(l, s))
  }

  ghost predicate CalmEdge(dag: Dag, l: Loop, s: State, e: Edge)
  {
    Begun(l, s, e.target) ==> e.source in dag.nodes && Calm(l, s, e.source) && Begun(l, s, e.source)
  }

  lemma EveryEdgeCalm(dag: Dag, l: Loop, s: State, e: Edge)
    requires Fenced(dag, l) && Inv(dag, l, s, []) && e in dag.forward
    ensures CalmEdge(dag, l, s, e)
  {
    if Begun(l, s, e.target) {
      assert EdgeRule(l, e);
      if e.target in l.ctrl {
        SourceOfController(dag, l, s, e);
      } else {
        SourceCalm(dag, l, s, e);
      }
      CalmIsPast(dag, l, s, e.source);
    }
  }

  /** Every node on a path to a node that has begun is calm. */
  lemma {:induction false} PathCalm(dag: Dag, l: Loop, s: State, p: seq<NodeId>, i: nat)
    requires forall e {:trigger CalmEdge(dag, l, s, e)} :: e in dag.forward ==> CalmEdge(dag, l, s, e)
    requires IsPath(dag.forward, p) && i < |p| - 1 && Begun(l, s, p[|p| - 1])
    ensures Calm(l, s, p[i]) && Begun(l, s, p[i])
    decreases |p| - i
  {
    assert HasEdge(dag.forward, p[i], p[i + 1]);
    var e :| e in dag.forward && e.source == p[i] && e.target == p[i + 1];
    if i + 1 < |p| - 1 {
      PathCalm(dag, l, s, p, i + 1);
    }
    assert CalmEdge(dag, l, s, e);
  }

  lemma FlightNotCalm(l: Loop, dag: Dag, s: State, f: Flight)
    requires Inv(dag, l, s, []) && f in s.inflight
    ensures !Calm(l, s, f.node) && f.node in dag.nodes && f.node in s.started && !Frozen(l, s, f.node)
  {
    assert FlightOK(l, s, f);
    assert OnceOK(s, f.node);
  }

  /** No ancestor of a node in flight is in flight. */
  lemma AncestorNotInFlight(dag: Dag, l: Loop, s: State, f: Flight, g: Flight)
    requires Shape(dag, l) && ExactAncestors(dag) && Inv(dag, l, s, []) && f in s.inflight && g in s.inflight
    ensures g.node in dag.nodes && f.node !in dag.ancestors[g.node]
  {
    FlightNotCalm(l, dag, s, f);
    FlightNotCalm(l, dag, s, g);
    if g.node in l.body {
      BodyInFlight(dag, l, s, g);
    }
    if f.node in dag.ancestors[g.node] {
      var p :| |p| >= 2 && PathBetween(dag.forward, p, f.node, g.node);
      forall e | e in dag.forward
        ensures CalmEdge(dag, l, s, e)
      {
        EveryEdgeCalm(dag, l, s, e);
      }
      PathCalm(dag, l, s, p, 0);
    }
  }

  lemma BodyInFlight(dag: Dag, l: Loop, s: State, g: Flight)
    requires Shape(dag, l) && Inv(dag, l, s, []) && g in s.inflight && g.node in l.body
    ensures Grounded(l, s)
  {
    forall c | c in l.ctrl && c in s.started && c !in s.routed
      ensures false
    {
      BodyRests(dag, l, s, c);
    }
  }

  /** What each node sees: its ancestors and, for a controller that has started a pass, the number
      of the pass and the body. */
  ghost predicate SeesOK(dag: Dag, l: Loop, s: State, v: NodeId)
  {
    v in s.ancestors && v in dag.ancestors &&
    s.ancestors[v] == dag.ancestors[v] + (if v in l.ctrl && Looping(s) then {LOOP_STATE} + l.body else {})
  }

  ghost predicate Sees(dag: Dag, l: Loop, s: State)
  {
    forall v {:trigger SeesOK(dag, l, s, v)} :: v in dag.nodes ==> SeesOK(dag, l, s, v)
  }

  lemma MergeBeside(outputs: map<NodeId, Data>, ids: set<NodeId>, u: NodeId, data: Data)
    requires u !in ids && u != INITIAL
    ensures MergeUpstream(outputs[u := data], ids) == MergeUpstream(outputs, ids)
  {
  }

  /** While a controller waits to read, nothing of its body is in flight. */
  lemma BodyUnseen(dag: Dag, l: Loop, s: State, f: Flight, v: NodeId)
    requires Shape(dag, l) && Inv(dag, l, s, []) && f in s.inflight && Waiting(v) in s.inflight && v in l.ctrl
    ensures f.node !in l.body
  {
    assert FlightOK(l, s, Waiting(v));
    BodyRests(dag, l, s, v);
  }

  /** What a node waiting to read sees is not among what another flight can change. */
  lemma NotSeen(dag: Dag, l: Loop, s: State, f: Flight, v: NodeId)
    requires Shape(dag, l) && ExactAncestors(dag) && NoReservedIds(dag) && Inv(dag, l, s, []) && Sees(dag, l, s)
    requires f in s.inflight && Waiting(v) in s.inflight && f != Waiting(v)
    ensures f.node != v && f.node in dag.nodes && v in dag.nodes && v in s.ancestors && f.node !in s.ancestors[v]
    ensures f.node in l.ctrl ==> v !in l.ctrl && LOOP_STATE !in s.ancestors[v]
  {
    AncestorNotInFlight(dag, l, s, f, Waiting(v));
    FlightNotCalm(l, dag, s, f);
    OtherFlight(l, s, f, Waiting(v));
    if v in l.ctrl {
      BodyUnseen(dag, l, s, f, v);
      OnlyController(dag, l, v);
    }
    assert SeesOK(dag, l, s, v);
    SeenFrom(dag, l, s, f.node, v);
  }

  lemma SeenFrom(dag: Dag, l: Loop, s: State, u: NodeId, v: NodeId)
    requires Adjacent(dag) && ExactAncestors(dag) && NoReservedIds(dag) && SeesOK(dag, l, s, v) && v in dag.nodes
    requires u in dag.nodes
    requires u !in dag.ancestors[v] && (v in l.ctrl ==> u !in l.body && u !in l.ctrl)
    ensures u !in s.ancestors[v] && (u in l.ctrl ==> LOOP_STATE !in s.ancestors[v])
  {
    if LOOP_STATE in dag.ancestors[v] {
      AncestorsAreNodes(dag, v, LOOP_STATE);
    }
  }

  lemma AncestorsAreNodes(dag: Dag, v: NodeId, u: NodeId)
    requires Adjacent(dag) && ExactAncestors(dag) && v in dag.nodes && u in dag.ancestors[v]
    ensures u in dag.nodes
  {
    var p :| |p| >= 2 && PathBetween(dag.forward, p, u, v);
    assert HasEdge(dag.forward, p[0], p[0 + 1]);
  }
}
