/** Why nodes are dispatched or skipped, loops and branch labels in their bodies included. */
module LoopCauses {
  import opened Workflow
  import opened Graph
  import opened DagModel
  import opened Scheduler
  import opened SchedulerInvariant
  import opened LoopSteps
  import opened LoopFree
  import opened Delivery
  import opened Landings
  import opened Diamond
  import opened StepsCommute

  // ---- The invariant ----

  /** The loop is between its first pass and its exit. */
  predicate InLoop(s: State)
  {
    Looping(s) && !s.exited
  }

  /** `v` is dispatched at the start of every pass. */
  predicate Heads(dag: Dag, l: Loop, s: State, v: NodeId)
  {
    Looping(s) && v in l.body && CountIn(dag.Preds(v), l.body) == 0
  }

  /** `v` has heard of a live edge exactly if it is dispatched at the start of a pass or some routed
      edge was allowed. */
  ghost predicate HeardOK(dag: Dag, l: Loop, s: State, todo: seq<Signal>, v: NodeId)
  {
    Heard(s, todo, v) <==> Heads(dag, l, s, v) || AnyFires(dag, s.routed, v)
  }

  /** A controller that was dispatched once has a reason to be dispatched again. */
  predicate Recalled(l: Loop, s: State, v: NodeId)
  {
    v in l.ctrl && Looping(s)
  }

  /** Why `v` was dispatched or skipped. */
  predicate WhyOK(dag: Dag, l: Loop, s: State, v: NodeId)
  {
    && (v in s.started || Recalled(l, s, v) ==> IsRoot(dag, v) || v in s.hasLive)
    && (IsRoot(dag, v) ==> v in s.started || Recalled(l, s, v))
    && (v in s.skipped ==> v !in s.hasLive)
  }

  ghost predicate Why(dag: Dag, l: Loop, s: State, todo: seq<Signal>)
  {
    && (forall v {:trigger HeardOK(dag, l, s, todo, v)} ::
          v in dag.nodes && !Frozen(l, s, v) ==> HeardOK(dag, l, s, todo, v))
    && (forall v {:trigger WhyOK(dag, l, s, v)} :: v in dag.nodes && !Frozen(l, s, v) ==> WhyOK(dag, l, s, v))
  }

  // ---- Delivering signals ----

  lemma AbsorbHeardOK(dag: Dag, l: Loop, s: State, todo: seq<Signal>, v: NodeId)
    requires todo != [] && HeardOK(dag, l, s, todo, v)
    ensures HeardOK(dag, l, Absorb(s, todo[0]), SentOn(dag, s, todo[0]) + todo[1..], v)
  {
    AbsorbHeard(dag, s, todo, v);
    AbsorbTouches(s, todo[0]);
  }

  lemma TouchedElsewhere(dag: Dag, l: Loop, s: State, t: State, x: Signal, p: Reaction, v: NodeId)
    requires Touched(s, t, x, p) && WhyOK(dag, l, s, v) && v != x.target
    ensures WhyOK(dag, l, t, v)
  {
  }

  lemma TouchedHere(dag: Dag, l: Loop, s: State, t: State, x: Signal)
    requires Touched(s, t, x, React(s, x)) && SignalFits(dag, l, s, x) && WhyOK(dag, l, s, x.target)
    requires !Frozen(l, s, x.target)
    ensures WhyOK(dag, l, t, x.target)
  {
  }

  lemma AbsorbWhy(dag: Dag, l: Loop, s: State, todo: seq<Signal>)
    requires todo != [] && SignalFits(dag, l, s, todo[0]) && Why(dag, l, s, todo)
    ensures Why(dag, l, Absorb(s, todo[0]), SentOn(dag, s, todo[0]) + todo[1..])
  {
    var t, more := Absorb(s, todo[0]), SentOn(dag, s, todo[0]) + todo[1..];
    AbsorbTouches(s, todo[0]);
    forall v | v in dag.nodes && !Frozen(l, t, v)
      ensures HeardOK(dag, l, t, more, v) && WhyOK(dag, l, t, v)
    {
      assert HeardOK(dag, l, s, todo, v) && WhyOK(dag, l, s, v);
      AbsorbHeardOK(dag, l, s, todo, v);
      if v == todo[0].target {
        TouchedHere(dag, l, s, t, todo[0]);
      } else {
        TouchedElsewhere(dag, l, s, t, todo[0], React(s, todo[0]), v);
      }
    }
  }

  lemma DeliverWhy(dag: Dag, l: Loop, s: State, todo: seq<Signal>)
    requires Fenced(dag, l) && Inv(dag, l, s, todo) && Why(dag, l, s, todo)
    ensures Why(dag, l, Deliver(dag, s, todo), [])
  {
    ghost var keeps := (t, rest) => Inv(dag, l, t, rest) && Why(dag, l, t, rest);
    forall t, rest | rest != [] && keeps(t, rest)
      ensures keeps(Absorb(t, rest[0]), SentOn(dag, t, rest[0]) + rest[1..])
    {
      AbsorbKeeps(dag, l, t, rest);
      CountedKeeps(dag, l, t, rest);
      AbsorbWhy(dag, l, t, rest);
    }
    DeliverInduction(dag, s, todo, keeps);
  }

  // ---- Results ----

  /** A node that is routed, the controller of a loop that is left included. */
  lemma RoutedWhy(dag: Dag, l: Loop, s: State, t: State, u: NodeId, routing: Data)
    requires Adjacent(dag) && u in dag.nodes && u !in s.routed && Why(dag, l, s, [])
    requires t.routed == s.routed[u := routing] && t.hasLive == s.hasLive && t.started == s.started
    requires t.passes == s.passes && (s.exited ==> t.exited)
    requires forall v :: !Frozen(l, t, v) ==> (v in t.skipped <==> v in s.skipped)
    ensures Why(dag, l, t, SignalsOf(dag, u, routing))
  {
    forall v | v in dag.nodes && !Frozen(l, t, v)
      ensures HeardOK(dag, l, t, SignalsOf(dag, u, routing), v) && WhyOK(dag, l, t, v)
    {
      assert HeardOK(dag, l, s, [], v) && WhyOK(dag, l, s, v);
      FireHeard(dag, s, t, u, routing, v);
      FireFires(dag, s.routed, u, routing, v);
    }
  }

  lemma LandingWhy(dag: Dag, l: Loop, s: State, f: Flight, r: Outcome)
    requires Fenced(dag, l) && Inv(dag, l, s, []) && Why(dag, l, s, []) && s.firstErr == None
    requires f in s.inflight && r.Succeeded? && f.node !in l.ctrl && dag.TypeOf(f.node) != LOOP_CONTROLLER
    ensures Why(dag, l, Receive(dag, s, f, r), [])
  {
    var u, todo := Landing(s, f, r), SignalsOf(dag, f.node, r.routing);
    FlightNotCalm(l, dag, s, f);
    assert FlightOK(l, s, f);
    LandingLands(s, f, r);
    RoutedWhy(dag, l, s, u, f.node, r.routing);
    LandingBeside(dag, l, s, [], f, r);
    assert todo + [] == todo;
    ReceiveLands(dag, s, f, r);
    DeliverWhy(dag, l, u, todo);
  }

  lemma QuitsWhy(dag: Dag, l: Loop, s: State, f: Flight, r: Outcome)
    requires Shape(dag, l) && Inv(dag, l, s, []) && Why(dag, l, s, []) && s.firstErr == None
    requires f in s.inflight && r.Succeeded? && f.node in l.ctrl && !Iterates(dag, s, f.node, r.routing)
    ensures Why(dag, l, Receive(dag, s, f, r), [])
  {
    var u, todo := Quits(l, s, f, r), SignalsOf(dag, f.node, r.routing);
    TypeOfController(dag, l, f.node);
    assert FlightOK(l, s, f);
    LandingLands(s, f, r);
    QuitsMarks(l, s, f, r);
    RoutedWhy(dag, l, s, u, f.node, r.routing);
    QuitsKeeps(dag, l, s, f, r);
    ReceiveQuits(dag, l, s, f, r);
    DeliverWhy(dag, l, u, todo);
  }

  // ---- A new pass ----

  /** Nothing of the body is routed when a pass starts, so no edge inside it fires. */
  lemma FreshBody(dag: Dag, l: Loop, routed: map<NodeId, Data>, v: NodeId)
    requires Fenced(dag, l) && v in l.body && routed.Keys !! l.body && routed.Keys !! l.ctrl
    ensures !AnyFires(dag, routed, v)
  {
    forall e | e in dag.forward && e.target == v
      ensures !Fires(dag, routed, e)
    {
      assert EdgeRule(l, e);
    }
  }

  /** Outside the body, it makes no difference that the body is not routed any more. */
  lemma SameOutsideBody(dag: Dag, l: Loop, routed: map<NodeId, Data>, v: NodeId)
    requires Fenced(dag, l) && v !in l.body
    ensures AnyFires(dag, routed - l.body, v) <==> AnyFires(dag, routed, v)
  {
    forall e | e in dag.forward && e.target == v
      ensures Fires(dag, routed - l.body, e) <==> Fires(dag, routed, e)
    {
      assert EdgeRule(l, e);
    }
  }

  lemma EnteredHasPreds(dag: Dag, e: Edge)
    requires Adjacent(dag) && e in dag.forward
    ensures !IsRoot(dag, e.target)
  {
    var v := e.target;
    MembersInto(dag.forward, v);
    assert e.source in SourcesInto(dag.forward, v);
    assert dag.predecessors[v] == SourcesInto(dag.forward, v);
  }

  lemma NotARoot(dag: Dag, l: Loop, b: NodeId)
    requires Shape(dag, l) && b in l.body
    ensures !IsRoot(dag, b)
  {
    assert Entered(dag, b);
    var e :| e in dag.forward && e.target == b;
    EnteredHasPreds(dag, e);
  }

  lemma PassedBodyWhy(dag: Dag, l: Loop, s: State, t: State, f: Flight, r: Outcome, v: NodeId)
    requires Fenced(dag, l) && r.Succeeded? && Passed(dag, s, t, f, r)
    requires f.node in l.ctrl && dag.BodyOf(f.node) == l.body
    requires v in l.body && !IsRoot(dag, v) && l.ctrl !! s.routed.Keys
    ensures HeardOK(dag, l, t, [], v) && WhyOK(dag, l, t, v)
  {
    FreshBody(dag, l, t.routed, v);
    assert v in BodyRoots(dag, f.node) <==> Heads(dag, l, t, v);
  }

  lemma PassedOutside(dag: Dag, s: State, t: State, c: NodeId, v: NodeId)
    requires PassedCounters(dag, s, t, c) && v !in dag.BodyOf(c)
    ensures (v in t.hasLive <==> v in s.hasLive) && (v in t.skipped <==> v in s.skipped)
    ensures v in t.started <==> v in s.started && v != c
  {
    assert v !in BodyRoots(dag, c);
  }

  lemma PassedOutsideWhy(dag: Dag, l: Loop, s: State, t: State, c: NodeId, v: NodeId)
    requires Fenced(dag, l) && t.passes == s.passes + 1 && t.routed == s.routed - l.body
    requires (v in t.hasLive <==> v in s.hasLive) && (v in t.skipped <==> v in s.skipped)
    requires v in t.started <==> v in s.started && v != c
    requires v !in l.body && c in s.started && (v in l.ctrl <==> v == c)
    requires HeardOK(dag, l, s, [], v) && WhyOK(dag, l, s, v)
    ensures HeardOK(dag, l, t, [], v) && WhyOK(dag, l, t, v)
  {
    SameOutsideBody(dag, l, s.routed, v);
  }

  lemma PassesWhy(dag: Dag, l: Loop, s: State, f: Flight, r: Outcome)
    requires Shape(dag, l) && Inv(dag, l, s, []) && Why(dag, l, s, []) && s.firstErr == None
    requires f in s.inflight && r.Succeeded? && f.node in l.ctrl && Iterates(dag, s, f.node, r.routing)
    ensures Why(dag, l, Receive(dag, s, f, r), [])
  {
    var t := Passes(dag, s, f, r);
    TypeOfController(dag, l, f.node);
    ReceiveStarts(dag, s, f, r);
    PassesIsPassed(dag, s, f, r);
    assert FlightOK(l, s, f);
    OnlyController(dag, l, f.node);
    BodyRests(dag, l, s, f.node);
    forall v | v in dag.nodes && !Frozen(l, t, v)
      ensures HeardOK(dag, l, t, [], v) && WhyOK(dag, l, t, v)
    {
      assert HeardOK(dag, l, s, [], v) && WhyOK(dag, l, s, v);
      if v in l.body {
        NotARoot(dag, l, v);
        PassedBodyWhy(dag, l, s, t, f, r, v);
      } else {
        PassedOutside(dag, s, t, f.node, v);
        PassedOutsideWhy(dag, l, s, t, f.node, v);
      }
    }
  }

  // ---- Every run ----

  lemma WhyFrame(dag: Dag, l: Loop, s: State, t: State)
    requires Why(dag, l, s, []) && t.hasLive == s.hasLive && t.routed == s.routed && t.started == s.started
    requires t.skipped == s.skipped && t.passes == s.passes && t.exited == s.exited
    ensures Why(dag, l, t, [])
  {
    forall v | v in dag.nodes && !Frozen(l, t, v)
      ensures HeardOK(dag, l, t, [], v) && WhyOK(dag, l, t, v)
    {
      assert HeardOK(dag, l, s, [], v) && WhyOK(dag, l, s, v);
    }
  }

  lemma ApplyWhy(dag: Dag, l: Loop, s: State, step: Step)
    requires Shape(dag, l) && Inv(dag, l, s, []) && Why(dag, l, s, []) && Enabled(s, step)
    ensures Why(dag, l, Apply(dag, s, step), [])
  {
    match step
    case Read(v) => WhyFrame(dag, l, s, Apply(dag, s, step));
    case Recv(f, r) =>
      TypeOfController(dag, l, f.node);
      if r.Failed? || s.firstErr != None {
        RecordWhy(dag, l, s, f, r);
      } else if f.node !in l.ctrl {
        LandingWhy(dag, l, s, f, r);
      } else if Iterates(dag, s, f.node, r.routing) {
        PassesWhy(dag, l, s, f, r);
      } else {
        QuitsWhy(dag, l, s, f, r);
      }
  }

  lemma RecordWhy(dag: Dag, l: Loop, s: State, f: Flight, r: Outcome)
    requires Why(dag, l, s, []) && (r.Failed? || s.firstErr != None)
    ensures Why(dag, l, Receive(dag, s, f, r), [])
  {
    assert Receive(dag, s, f, r) == Record(s, f, r);
    WhyFrame(dag, l, s, Record(s, f, r));
  }

  lemma StartWhy(dag: Dag, l: Loop, init: Data)
    ensures Why(dag, l, Start(dag, init), [])
  {
    var s := Start(dag, init);
    forall v | v in dag.nodes
      ensures HeardOK(dag, l, s, [], v) && WhyOK(dag, l, s, v)
    {
    }
  }

  /** In every run, failures included, live flags and dispatches have their causes. */
  lemma {:induction false} RunWhy(dag: Dag, l: Loop, init: Data, steps: seq<Step>)
    requires Shape(dag, l) && IsRun(dag, init, steps)
    ensures Why(dag, l, After(dag, init, steps), [])
  {
    if steps == [] {
      StartWhy(dag, l, init);
    } else {
      LastStep(dag, init, steps);
      RunWhy(dag, l, init, steps[..|steps| - 1]);
      RunKeeps(dag, l, init, steps[..|steps| - 1]);
      ApplyWhy(dag, l, After(dag, init, steps[..|steps| - 1]), steps[|steps| - 1]);
    }
  }
}
