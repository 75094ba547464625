/** Reading and receiving can be exchanged, and so can any two steps. */
module StepsCommute {
  import opened Workflow
  import opened DagModel
  import opened Scheduler
  import opened SchedulerInvariant
  import opened SchedulerSteps
  import opened LoopSteps
  import opened LoopFree
  import opened Completion
  import opened Delivery
  import opened Landings
  import opened Diamond

  // ---- What a received result changes for others ----

  /** The outputs and what nodes see after a successful result. */
  ghost predicate Reported(dag: Dag, l: Loop, s: State, t: State, f: Flight, r: Outcome)
    requires r.Succeeded?
  {
    if f.node in l.ctrl && Iterates(dag, s, f.node, r.routing) then
      && t.outputs == s.outputs[f.node := r.output][LOOP_STATE := map["iteration" := Int(IterationsOf(s, f.node) + 1)]]
      && t.ancestors ==
           s.ancestors[f.node := (if f.node in s.ancestors then s.ancestors[f.node] else {}) + {LOOP_STATE} + l.body]
      && t.passes == s.passes + 1
    else t.outputs == s.outputs[f.node := r.output] && t.ancestors == s.ancestors && t.passes == s.passes
  }

  lemma ReceiveReports(dag: Dag, l: Loop, s: State, f: Flight, r: Outcome)
    requires r.Succeeded? && s.firstErr == None && (f.node in l.ctrl <==> dag.TypeOf(f.node) == LOOP_CONTROLLER)
    requires f.node in l.ctrl ==> dag.BodyOf(f.node) == l.body
    ensures Reported(dag, l, s, Receive(dag, s, f, r), f, r) && Receive(dag, s, f, r).firstErr == None
  {
    var todo := SignalsOf(dag, f.node, r.routing);
    if f.node !in l.ctrl {
      ReceiveLands(dag, s, f, r);
      DeliverSame(dag, Landing(s, f, r), todo);
    } else if Iterates(dag, s, f.node, r.routing) {
      ReceiveStarts(dag, s, f, r);
      PassesRecords(dag, s, f, r);
    } else {
      ReceiveQuits(dag, l, s, f, r);
      DeliverSame(dag, Quits(l, s, f, r), todo);
    }
  }

  lemma TypeOfController(dag: Dag, l: Loop, v: NodeId)
    requires Shape(dag, l)
    ensures v in l.ctrl <==> dag.TypeOf(v) == LOOP_CONTROLLER
    ensures v in l.ctrl ==> dag.BodyOf(v) == l.body
  {
  }

  lemma ReportedSees(dag: Dag, l: Loop, s: State, t: State, f: Flight, r: Outcome)
    requires r.Succeeded? && Reported(dag, l, s, t, f, r) && Sees(dag, l, s) && f.node in dag.nodes
    requires forall c, d :: c in l.ctrl && d in l.ctrl ==> c == d
    ensures Sees(dag, l, t)
  {
    assert SeesOK(dag, l, s, f.node);
    forall v | v in dag.nodes
      ensures SeesOK(dag, l, t, v)
    {
      assert SeesOK(dag, l, s, v);
    }
  }

  lemma ReportedUpstream(dag: Dag, l: Loop, s: State, t: State, f: Flight, r: Outcome, v: NodeId)
    requires r.Succeeded? && Reported(dag, l, s, t, f, r) && v in s.ancestors && f.node != v && f.node != INITIAL
    requires f.node !in s.ancestors[v] && (f.node in l.ctrl ==> LOOP_STATE !in s.ancestors[v])
    ensures Upstream(t, v) == Upstream(s, v)
  {
    MergeBeside(s.outputs, s.ancestors[v], f.node, r.output);
    if f.node in l.ctrl && Iterates(dag, s, f.node, r.routing) {
      var state := map["iteration" := Int(IterationsOf(s, f.node) + 1)];
      MergeBeside(s.outputs[f.node := r.output], s.ancestors[v], LOOP_STATE, state);
    }
  }

  // ---- Reading before or after a result ----

  lemma Replaced(m: multiset<Flight>, f: Flight, w: Flight, x: Flight)
    requires f != w && w in m
    ensures m - multiset{f} - multiset{w} + multiset{x} == m - multiset{w} + multiset{x} - multiset{f} || f == x
    ensures f in m ==> m - multiset{f} - multiset{w} + multiset{x} == m - multiset{w} + multiset{x} - multiset{f}
    ensures w in m - multiset{f}
  {
  }

  lemma ReadsLanding(s: State, v: NodeId, inputs: Inputs, f: Flight, r: Outcome)
    requires r.Succeeded? && f in s.inflight && Waiting(v) in s.inflight && f != Waiting(v)
    ensures Landing(Reads(s, v, inputs), f, r) == Reads(Landing(s, f, r), v, inputs)
    ensures Waiting(v) in Landing(s, f, r).inflight
  {
    Replaced(s.inflight, f, Waiting(v), Running(v, inputs));
  }

  lemma ReadsQuits(l: Loop, s: State, v: NodeId, inputs: Inputs, f: Flight, r: Outcome)
    requires r.Succeeded? && f in s.inflight && Waiting(v) in s.inflight && f != Waiting(v)
    ensures Quits(l, Reads(s, v, inputs), f, r) == Reads(Quits(l, s, f, r), v, inputs)
    ensures Waiting(v) in Quits(l, s, f, r).inflight
  {
    ReadsLanding(s, v, inputs, f, r);
    QuitsMarks(l, s, f, r);
    QuitsMarks(l, Reads(s, v, inputs), f, r);
  }

  lemma MoreFlights(m: multiset<Flight>, f: Flight, w: Flight, x: Flight, more: multiset<Flight>)
    requires f != w && w in m && f in m
    ensures m - multiset{w} + multiset{x} - multiset{f} + more == m - multiset{f} + more - multiset{w} + multiset{x}
    ensures w in m - multiset{f} + more
  {
  }

  lemma ReadsPasses(dag: Dag, s: State, v: NodeId, inputs: Inputs, f: Flight, r: Outcome)
    requires r.Succeeded? && f in s.inflight && Waiting(v) in s.inflight && f != Waiting(v)
    ensures Passes(dag, Reads(s, v, inputs), f, r) == Reads(Passes(dag, s, f, r), v, inputs)
    ensures Waiting(v) in Passes(dag, s, f, r).inflight
  {
    var t, u := Reads(s, v, inputs), Passes(dag, s, f, r);
    PassesIsPassed(dag, s, f, r);
    PassesIsPassed(dag, t, f, r);
    PassedReads(dag, s, v, inputs, f, r, u, Passes(dag, t, f, r));
  }

  lemma PassedReads(dag: Dag, s: State, v: NodeId, inputs: Inputs, f: Flight, r: Outcome, u: State, w: State)
    requires r.Succeeded? && f in s.inflight && Waiting(v) in s.inflight && f != Waiting(v)
    requires Passed(dag, s, u, f, r) && Passed(dag, Reads(s, v, inputs), w, f, r)
    ensures w == Reads(u, v, inputs) && Waiting(v) in u.inflight
  {
    var t := Reads(s, v, inputs);
    PassedFlyingElse(dag, s, v, inputs, f, u, w);
    PassedCountersElse(dag, s, t, f.node, u, w);
    PassedRecordsElse(dag, s, t, f, r, u, w);
    SameState(w, Reads(u, v, inputs));
  }

  lemma PassedFlyingElse(dag: Dag, s: State, v: NodeId, inputs: Inputs, f: Flight, u: State, w: State)
    requires f in s.inflight && Waiting(v) in s.inflight && f != Waiting(v)
    requires PassedFlying(dag, s, u, f) && PassedFlying(dag, Reads(s, v, inputs), w, f)
    ensures w.inflight == Reads(u, v, inputs).inflight && Waiting(v) in u.inflight
    ensures w.launched == u.launched && w.dispatched == u.dispatched
  {
    MoreFlights(s.inflight, f, Waiting(v), Running(v, inputs), multiset(Flights(BodyRoots(dag, f.node))));
  }

  /** Two passes started from states that differ in their flights only differ in their flights only. */
  lemma PassedCountersElse(dag: Dag, s: State, t: State, c: NodeId, u: State, w: State)
    requires PassedCounters(dag, s, u, c) && PassedCounters(dag, t, w, c)
    requires t.pending == s.pending && t.skipped == s.skipped && t.hasLive == s.hasLive && t.started == s.started
    ensures w.pending == u.pending && w.skipped == u.skipped && w.hasLive == u.hasLive && w.started == u.started
  {
  }

  lemma PassedRecordsElse(dag: Dag, s: State, t: State, f: Flight, r: Outcome, u: State, w: State)
    requires r.Succeeded? && PassedRecords(dag, s, u, f, r) && PassedRecords(dag, t, w, f, r) && SameOutside(s, t)
    ensures SameOutside(u, w)
  {
  }

  lemma ReceiveReads(dag: Dag, l: Loop, s: State, v: NodeId, inputs: Inputs, f: Flight, r: Outcome)
    requires r.Succeeded? && s.firstErr == None && f in s.inflight && Waiting(v) in s.inflight && f != Waiting(v)
    requires f.node in l.ctrl <==> dag.TypeOf(f.node) == LOOP_CONTROLLER
    requires f.node in l.ctrl ==> dag.BodyOf(f.node) == l.body
    ensures Receive(dag, Reads(s, v, inputs), f, r) == Reads(Receive(dag, s, f, r), v, inputs)
    ensures Waiting(v) in Receive(dag, s, f, r).inflight
  {
    var t, todo := Reads(s, v, inputs), SignalsOf(dag, f.node, r.routing);
    if f.node !in l.ctrl {
      ReceiveLands(dag, s, f, r);
      ReceiveLands(dag, t, f, r);
      ReadsLanding(s, v, inputs, f, r);
      ReadsThrough(dag, Landing(s, f, r), todo, v, inputs);
    } else if Iterates(dag, s, f.node, r.routing) {
      assert Iterates(dag, t, f.node, r.routing);
      ReceiveStarts(dag, s, f, r);
      ReceiveStarts(dag, t, f, r);
      ReadsPasses(dag, s, v, inputs, f, r);
    } else {
      assert !Iterates(dag, t, f.node, r.routing);
      ReceiveQuits(dag, l, s, f, r);
      ReceiveQuits(dag, l, t, f, r);
      ReadsQuits(l, s, v, inputs, f, r);
      ReadsThrough(dag, Quits(l, s, f, r), todo, v, inputs);
    }
  }

  // ---- Any two steps ----

  /** A step that does not bring a failure. */
  predicate Succeeds(step: Step)
  {
    step.Recv? ==> step.outcome.Succeeded?
  }

  /** The two steps are taken by different flights. */
  predicate Independent(x: Step, y: Step)
  {
    if x.Read? && y.Read? then x.node != y.node
    else x.Recv? && y.Recv? ==> x.flight != y.flight
  }

  /** What is kept by every step of an error-free run and makes steps commute. */
  ghost predicate Steady(dag: Dag, l: Loop, s: State)
  {
    Inv(dag, l, s, []) && Sees(dag, l, s) && s.firstErr == None
  }

  ghost predicate Ready(dag: Dag, l: Loop)
  {
    Shape(dag, l) && ExactAncestors(dag) && NoReservedIds(dag)
  }

  lemma ReadsTwice(dag: Dag, s: State, v: NodeId, w: NodeId)
    requires v != w && Waiting(v) in s.inflight && Waiting(w) in s.inflight
    ensures Apply(dag, Apply(dag, s, Read(v)), Read(w)) == Apply(dag, Apply(dag, s, Read(w)), Read(v))
    ensures Enabled(Apply(dag, s, Read(v)), Read(w)) && Enabled(Apply(dag, s, Read(w)), Read(v))
  {
    var a, b := Running(v, Upstream(s, v)), Running(w, Upstream(s, w));
    SwapTwice(s.inflight, Waiting(v), a, Waiting(w), b);
  }

  lemma SwapTwice(m: multiset<Flight>, x: Flight, a: Flight, y: Flight, b: Flight)
    requires x != y && x in m && y in m && a != y && b != x
    ensures m - multiset{x} + multiset{a} - multiset{y} + multiset{b} ==
      m - multiset{y} + multiset{b} - multiset{x} + multiset{a}
    ensures y in m - multiset{x} + multiset{a} && x in m - multiset{y} + multiset{b}
  {
  }

  lemma ReadAndReceive(dag: Dag, l: Loop, s: State, v: NodeId, f: Flight, r: Outcome)
    requires Ready(dag, l) && Steady(dag, l, s) && Waiting(v) in s.inflight && f in s.inflight && f.Running?
    requires r.Succeeded?
    ensures Apply(dag, Apply(dag, s, Read(v)), Recv(f, r)) == Apply(dag, Apply(dag, s, Recv(f, r)), Read(v))
    ensures Enabled(Apply(dag, s, Read(v)), Recv(f, r)) && Enabled(Apply(dag, s, Recv(f, r)), Read(v))
  {
    SameUpstream(dag, l, s, v, f, r);
    TypeOfController(dag, l, f.node);
    ReceiveReads(dag, l, s, v, Upstream(s, v), f, r);
    StillThere(s.inflight, Waiting(v), Running(v, Upstream(s, v)), f);
  }

  lemma StillThere(m: multiset<Flight>, w: Flight, x: Flight, f: Flight)
    requires f in m && f != w
    ensures f in m - multiset{w} + multiset{x}
  {
  }

  lemma SameUpstream(dag: Dag, l: Loop, s: State, v: NodeId, f: Flight, r: Outcome)
    requires Ready(dag, l) && Steady(dag, l, s) && Waiting(v) in s.inflight && f in s.inflight && f.Running?
    requires r.Succeeded?
    ensures Upstream(Receive(dag, s, f, r), v) == Upstream(s, v)
  {
    NotSeen(dag, l, s, f, v);
    TypeOfController(dag, l, f.node);
    ReceiveReports(dag, l, s, f, r);
    ReportedUpstream(dag, l, s, Receive(dag, s, f, r), f, r, v);
  }

  /** Two independent successful steps can be taken in either order, with the same result. */
  lemma Commutes(dag: Dag, l: Loop, s: State, x: Step, y: Step)
    requires Ready(dag, l) && Steady(dag, l, s) && Enabled(s, x) && Enabled(s, y)
    requires Succeeds(x) && Succeeds(y) && Independent(x, y)
    ensures Enabled(Apply(dag, s, x), y) && Enabled(Apply(dag, s, y), x)
    ensures Apply(dag, Apply(dag, s, x), y) == Apply(dag, Apply(dag, s, y), x)
  {
    match (x, y)
    case (Read(v), Read(w)) => ReadsTwice(dag, s, v, w);
    case (Read(v), Recv(g, r)) => ReadAndReceive(dag, l, s, v, g, r);
    case (Recv(f, q), Read(w)) => ReadAndReceive(dag, l, s, w, f, q);
    case (Recv(f, q), Recv(g, r)) =>
      NodesNotReserved(dag, l, s, f);
      NodesNotReserved(dag, l, s, g);
      ReceivesCommute(dag, l, s, f, q, g, r);
  }

  lemma NodesNotReserved(dag: Dag, l: Loop, s: State, f: Flight)
    requires NoReservedIds(dag) && Inv(dag, l, s, []) && f in s.inflight
    ensures f.node in dag.nodes && f.node != LOOP_STATE && f.node != INITIAL
  {
    FlightNotCalm(l, dag, s, f);
  }

  /** Successful steps keep a state steady. */
  lemma StaysSteady(dag: Dag, l: Loop, s: State, x: Step)
    requires Ready(dag, l) && Steady(dag, l, s) && Enabled(s, x) && Succeeds(x)
    ensures Steady(dag, l, Apply(dag, s, x))
  {
    ApplyKeeps(dag, l, s, x);
    match x
    case Read(v) =>
      forall w | w in dag.nodes
        ensures SeesOK(dag, l, Apply(dag, s, x), w)
      {
        assert SeesOK(dag, l, s, w);
      }
    case Recv(f, r) => ReceiveSees(dag, l, s, f, r);
  }

  lemma ReceiveSees(dag: Dag, l: Loop, s: State, f: Flight, r: Outcome)
    requires Ready(dag, l) && Steady(dag, l, s) && f in s.inflight && r.Succeeded?
    ensures Sees(dag, l, Receive(dag, s, f, r)) && Receive(dag, s, f, r).firstErr == None
  {
    FlightNotCalm(l, dag, s, f);
    TypeOfController(dag, l, f.node);
    ReceiveReports(dag, l, s, f, r);
    ReportedSees(dag, l, s, Receive(dag, s, f, r), f, r);
  }

  lemma StartIsSteady(dag: Dag, l: Loop, init: Data)
    requires Ready(dag, l)
    ensures Steady(dag, l, Start(dag, init))
  {
    StartKeeps(dag, l, init);
    StartSees(dag, l, init);
  }

  lemma StartSees(dag: Dag, l: Loop, init: Data)
    requires dag.ancestors.Keys == dag.nodes.Keys
    ensures Sees(dag, l, Start(dag, init)) && Start(dag, init).firstErr == None
  {
    var s := Start(dag, init);
    forall v | v in dag.nodes
      ensures SeesOK(dag, l, s, v)
    {
      assert dag.ancestors[v] + {} == dag.ancestors[v];
    }
  }
}
