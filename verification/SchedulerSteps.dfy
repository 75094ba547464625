/** Every step of the supervisor keeps the invariant, so every reachable state has it. */
module SchedulerSteps {
  import opened Workflow
  import opened Graph
  import opened DagModel
  import opened Scheduler
  import opened SchedulerInvariant

  lemma {:induction false} FlightsSize(nodes: set<NodeId>)
    ensures |Flights(nodes)| == |nodes|
  {
    if nodes != {} {
      var v :| v in nodes;
      FlightsSize(nodes - {v});
      assert Flights(nodes) == Flights(nodes - {v}) + {Waiting(v)};
    }
  }

  lemma StartCounts(dag: Dag, l: Loop, init: Data)
    requires Adjacent(dag)
    ensures Counts(dag, l, Start(dag, init), [])
    ensures forall v :: v in Start(dag, init).started && v in dag.nodes ==>
      CountFrom(dag.forward, dag.nodes.Keys, v) == 0
  {
    var s := Start(dag, init);
    forall v | v in dag.nodes
      ensures CountOK(dag, l, s, [], v) && PendingOf(s, v) == CountFrom(dag.forward, dag.nodes.Keys, v)
    {
      assert dag.Preds(v) == dag.predecessors[v];
      CountAll(dag.forward, dag.nodes.Keys, v);
      assert Settled(s) == {};
      assert dag.nodes.Keys - Settled(s) == dag.nodes.Keys;
      CountSame(dag.forward, Sources(dag, l, s, v) - Settled(s), dag.nodes.Keys, v);
    }
  }

  lemma StartBody(dag: Dag, l: Loop, init: Data)
    requires Shape(dag, l)
    ensures Start(dag, init).started !! l.body
  {
    forall b | b in l.body
      ensures b !in Start(dag, init).started
    {
      StartCounts(dag, l, init);
      assert Entered(dag, b);
      CountZero(dag.forward, dag.nodes.Keys, b);
    }
  }

  lemma StartAirborne(dag: Dag, l: Loop, init: Data)
    ensures Once(dag, l, Start(dag, init)) && Airborne(l, Start(dag, init))
    ensures Budget(l, Start(dag, init))
  {
    var s := Start(dag, init);
    FlightsSize(s.started);
    forall v | v in dag.nodes
      ensures OnceOK(s, v)
    {
    }
    forall f | f in s.inflight
      ensures FlightOK(l, s, f)
    {
    }
  }

  lemma StartFacts(dag: Dag, l: Loop, init: Data)
    requires Start(dag, init).started !! l.body
    requires forall c :: c in l.ctrl ==> MaxIterations(dag.ConfigOf(c)) >= 1
    ensures LoopFacts(dag, l, Start(dag, init)) && Domains(dag, Start(dag, init))
  {
  }

  lemma StartKeeps(dag: Dag, l: Loop, init: Data)
    requires Shape(dag, l)
    ensures Inv(dag, l, Start(dag, init), [])
  {
    StartCounts(dag, l, init);
    StartAirborne(dag, l, init);
    StartBody(dag, l, init);
    StartFacts(dag, l, init);
  }

  lemma ReadKeeps(dag: Dag, l: Loop, s: State, v: NodeId)
    requires Inv(dag, l, s, []) && Waiting(v) in s.inflight
    ensures Inv(dag, l, Apply(dag, s, Read(v)), [])
  {
    var t := Apply(dag, s, Read(v));
    CountsFrame(dag, l, s, t, []);
    var g := Running(v, Upstream(s, v));
    assert FlightOK(l, s, Waiting(v));
    assert g !in s.inflight;
    forall f | f in t.inflight
      ensures FlightOK(l, t, f)
    {
      assert f == g || (f in s.inflight && f != Waiting(v));
      assert f in s.inflight ==> FlightOK(l, s, f);
    }
    OnceFrame(dag, l, s, t);
    FactsFrame(dag, l, s, t);
  }

  lemma OnceFrame(dag: Dag, l: Loop, s: State, t: State)
    requires Once(dag, l, s)
    requires t.pending == s.pending && t.skipped == s.skipped && t.routed == s.routed && t.started == s.started
    requires t.exited == s.exited
    ensures Once(dag, l, t)
  {
    forall w | w in dag.nodes && !Frozen(l, t, w)
      ensures OnceOK(t, w)
    {
      assert OnceOK(s, w);
    }
  }

  lemma FactsFrame(dag: Dag, l: Loop, s: State, t: State)
    requires LoopFacts(dag, l, s)
    requires t.skipped == s.skipped && t.routed == s.routed && t.started == s.started && t.hasLive == s.hasLive
    requires t.loopIterations == s.loopIterations && t.passes == s.passes && t.exited == s.exited
    ensures LoopFacts(dag, l, t)
  {
    forall e | e in dag.forward && Looping(t)
      ensures ReadyOK(l, t, e)
    {
      assert ReadyOK(l, s, e);
    }
  }

  /** `v` has completed but its out-edges have not been routed. */
  ghost predicate Landed(dag: Dag, l: Loop, s: State, v: NodeId)
  {
    && v in dag.nodes && v in s.started && v !in s.routed && v !in s.skipped
    && !Frozen(l, s, v) && PendingOf(s, v) == 0
    && forall f :: f in s.inflight ==> f.node != v
  }

  /** Recording a result keeps the invariant, whatever signals are still under way. */
  lemma RecordBeside(dag: Dag, l: Loop, s: State, todo: seq<Signal>, f: Flight, r: Outcome)
    requires Inv(dag, l, s, todo) && f in s.inflight
    ensures Inv(dag, l, Record(s, f, r), todo) && Landed(dag, l, Record(s, f, r), f.node)
  {
    var t := Record(s, f, r);
    CountsFrame(dag, l, s, t, todo);
    OnceFrame(dag, l, s, t);
    FactsFrame(dag, l, s, t);
    assert FlightOK(l, s, f);
    assert OnceOK(s, f.node);
    forall g | g in t.inflight
      ensures FlightOK(l, t, g) && g.node != f.node
    {
      assert FlightOK(l, s, g);
    }
  }

  lemma RecordKeeps(dag: Dag, l: Loop, s: State, f: Flight, r: Outcome)
    requires Inv(dag, l, s, []) && f in s.inflight
    ensures Inv(dag, l, Record(s, f, r), [])
    ensures Landed(dag, l, Record(s, f, r), f.node)
  {
    RecordBeside(dag, l, s, [], f, r);
  }

  // ---- Routing an ordinary node ----

  lemma NoBackSignals(dag: Dag, l: Loop, v: NodeId, w: NodeId)
    requires forall e :: e in dag.loopBack ==> e.source in l.body && e.target in l.ctrl
    requires v !in l.body || w !in l.ctrl
    ensures CountFrom(dag.loopBack, {v}, w) == 0
  {
    CountZero(dag.loopBack, {v}, w);
  }

  /** A body node completes only while the loop is running. */
  ghost predicate Routable(dag: Dag, l: Loop, s: State, v: NodeId)
  {
    Landed(dag, l, s, v) && v !in l.ctrl && (v in l.body ==> Looping(s) && !s.exited)
  }

  /** The state in which an ordinary node's out-edges are about to be routed. */
  function Fired(s: State, v: NodeId, routing: Data): State
  {
    s.(routed := s.routed[v := routing])
  }

  lemma SignalsCount(dag: Dag, v: NodeId, routing: Data, w: NodeId)
    requires Adjacent(dag) && v in dag.nodes
    ensures SigCount(SignalsOf(dag, v, routing), w) == CountFrom(dag.forward, {v}, w) + CountFrom(dag.loopBack, {v}, w)
  {
    assert dag.Out(v) == dag.outEdges[v];
    OutCount(dag.forward, v, routing, dag.TypeOf(v), w);
    BackCount(dag.loopBack, v, w);
    SigCountAppend(OutSignals(dag.Out(v), routing, dag.TypeOf(v)), BackSignals(dag.loopBack, v), w);
  }

  lemma FireSignals(dag: Dag, l: Loop, s: State, v: NodeId, routing: Data)
    requires Fenced(dag, l) && LoopFacts(dag, l, s) && Routable(dag, l, s, v)
    ensures SignalsOK(dag, l, Fired(s, v, routing), SignalsOf(dag, v, routing))
  {
    var t := Fired(s, v, routing);
    OutKinds(dag.Out(v), routing, dag.TypeOf(v));
    BackKinds(dag.loopBack, v);
    assert dag.Out(v) == dag.outEdges[v];
    forall sig | sig in SignalsOf(dag, v, routing)
      ensures SignalOK(dag, l, t, sig)
    {
      if sig in OutSignals(dag.Out(v), routing, dag.TypeOf(v)) {
        var e :| e in dag.Out(v) && e.target == sig.target;
        assert EdgeRule(l, e);
        if Looping(s) && sig.target in l.ctrl {
          NoEdgeToController(dag, l, s, v, sig.target);
        }
      }
    }
  }

  lemma FireOnce(dag: Dag, l: Loop, s: State, v: NodeId, routing: Data)
    requires Once(dag, l, s) && Airborne(l, s) && Routable(dag, l, s, v)
    ensures Once(dag, l, Fired(s, v, routing)) && Airborne(l, Fired(s, v, routing))
  {
    var t := Fired(s, v, routing);
    forall w | w in dag.nodes && !Frozen(l, t, w)
      ensures OnceOK(t, w)
    {
      assert OnceOK(s, w);
    }
    forall f | f in t.inflight
      ensures FlightOK(l, t, f)
    {
      assert FlightOK(l, s, f);
    }
  }

  lemma FireFacts(dag: Dag, l: Loop, s: State, v: NodeId, routing: Data)
    requires LoopFacts(dag, l, s)
    ensures LoopFacts(dag, l, Fired(s, v, routing))
  {
    var t := Fired(s, v, routing);
    forall e | e in dag.forward && Looping(t)
      ensures ReadyOK(l, t, e)
    {
      assert ReadyOK(l, s, e);
    }
  }

  lemma FiredCounts(dag: Dag, l: Loop, s: State, todo: seq<Signal>, v: NodeId, routing: Data)
    requires Fenced(dag, l) && Counts(dag, l, s, todo) && LoopFacts(dag, l, s) && Routable(dag, l, s, v)
    ensures Counts(dag, l, Fired(s, v, routing), SignalsOf(dag, v, routing) + todo)
  {
    var t, more := Fired(s, v, routing), SignalsOf(dag, v, routing);
    forall w | w in dag.nodes && !Frozen(l, t, w)
      ensures CountOK(dag, l, t, more + todo, w)
    {
      assert CountOK(dag, l, s, todo, w);
      SignalsCount(dag, v, routing, w);
      SigCountAppend(more, todo, w);
      FiredUnreported(dag, l, s, v, routing, w);
    }
  }

  lemma FiredUnreported(dag: Dag, l: Loop, s: State, v: NodeId, routing: Data, w: NodeId)
    requires Fenced(dag, l) && LoopFacts(dag, l, s) && Routable(dag, l, s, v)
    ensures Unreported(dag, l, s, w) ==
      Unreported(dag, l, Fired(s, v, routing), w) + CountFrom(dag.forward, {v}, w) + CountFrom(dag.loopBack, {v}, w)
  {
    var t := Fired(s, v, routing);
    if w in l.ctrl && Looping(s) {
      NoEdgeToController(dag, l, s, v, w);
      var rest := dag.nodes.Keys - s.routed.Keys;
      assert dag.nodes.Keys - t.routed.Keys == rest - {v};
      CountSplit(dag.loopBack, rest, v, w);
    } else {
      NoBackSignals(dag, l, v, w);
      assert Settled(t) == Settled(s) + {v};
      UnreportedDrops(dag, l, s, t, v, w);
    }
  }

  lemma FiredSignals(dag: Dag, l: Loop, s: State, todo: seq<Signal>, v: NodeId, routing: Data)
    requires Fenced(dag, l) && SignalsOK(dag, l, s, todo) && LoopFacts(dag, l, s) && Routable(dag, l, s, v)
    ensures SignalsOK(dag, l, Fired(s, v, routing), SignalsOf(dag, v, routing) + todo)
  {
    FireSignals(dag, l, s, v, routing);
    var t := Fired(s, v, routing);
    forall sig | sig in todo
      ensures SignalOK(dag, l, t, sig)
    {
      assert SignalOK(dag, l, s, sig);
    }
  }

  lemma FiredBeside(dag: Dag, l: Loop, s: State, todo: seq<Signal>, v: NodeId, routing: Data)
    requires Fenced(dag, l) && Inv(dag, l, s, todo) && Routable(dag, l, s, v)
    ensures Inv(dag, l, Fired(s, v, routing), SignalsOf(dag, v, routing) + todo)
  {
    FiredCounts(dag, l, s, todo, v, routing);
    FiredSignals(dag, l, s, todo, v, routing);
    FireOnce(dag, l, s, v, routing);
    FireFacts(dag, l, s, v, routing);
  }

  lemma FireKeeps(dag: Dag, l: Loop, s: State, v: NodeId, routing: Data)
    requires Fenced(dag, l) && Inv(dag, l, s, []) && Routable(dag, l, s, v)
    ensures Inv(dag, l, Fired(s, v, routing), SignalsOf(dag, v, routing))
  {
    FiredBeside(dag, l, s, [], v, routing);
    assert SignalsOf(dag, v, routing) + [] == SignalsOf(dag, v, routing);
  }
}
