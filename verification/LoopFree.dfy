/** What loop-free runs add to the invariant: why a node is dispatched or skipped, what
    is recorded about it, and what is left when nothing is in flight any more. */
module LoopFree {
  import opened Workflow
  import opened DagModel
  import opened Scheduler
  import opened SchedulerInvariant
  import opened SchedulerSteps
  import opened LoopBound

  const NO_LOOP := Loop({}, {})

  /** A built graph without a loop controller. */
  ghost predicate IsLoopFree(dag: Dag)
  {
    Built(dag) && dag.Controllers() == {}
  }

  lemma LoopFreeShape(dag: Dag)
    requires IsLoopFree(dag)
    ensures Runnable(dag) && Shape(dag, NO_LOOP) && forall e :: e !in dag.loopBack
    ensures forall v :: dag.TypeOf(v) != LOOP_CONTROLLER
  {
    RunnableShape(dag);
    forall v
      ensures dag.TypeOf(v) != LOOP_CONTROLLER
    {
      assert v !in dag.Controllers();
    }
  }

  predicate IsRoot(dag: Dag, v: NodeId)
  {
    |dag.Preds(v)| == 0
  }

  /** `e` leaves a node that was routed and its branch was allowed. */
  predicate Fires(dag: Dag, routing: map<NodeId, Data>, e: Edge)
  {
    e.source in routing && BranchAllows(e, routing[e.source], dag.TypeOf(e.source))
  }

  predicate AnyFires(dag: Dag, routing: map<NodeId, Data>, v: NodeId)
  {
    exists e :: e in dag.forward && e.target == v && Fires(dag, routing, e)
  }

  /** The live flag of `v` is set, or a live signal is on its way. */
  predicate Heard(s: State, todo: seq<Signal>, v: NodeId)
  {
    v in s.hasLive || Signal(v, Live) in todo
  }

  /** `v` has heard of a live edge exactly if some routed edge was allowed. */
  ghost predicate LiveOK(dag: Dag, s: State, todo: seq<Signal>, v: NodeId)
  {
    Heard(s, todo, v) <==> AnyFires(dag, s.routed, v)
  }

  /** Why `v` was dispatched or skipped, and that it was dispatched at most once. */
  ghost predicate CauseOK(dag: Dag, s: State, v: NodeId)
  {
    && (PendingOf(s, v) == 0 ==> v in s.started || v in s.skipped)
    && (IsRoot(dag, v) ==> v in s.started)
    && (v in s.started ==> IsRoot(dag, v) || v in s.hasLive)
    && (v in s.skipped ==> v !in s.hasLive)
    && s.launched[v] == (if v in s.started then 1 else 0)
  }

  ghost predicate Causes(dag: Dag, s: State, todo: seq<Signal>)
  {
    && (forall v {:trigger LiveOK(dag, s, todo, v)} :: v in dag.nodes ==> LiveOK(dag, s, todo, v))
    && (forall v {:trigger CauseOK(dag, s, v)} :: v in dag.nodes ==> CauseOK(dag, s, v))
  }

  ghost predicate FreeInv(dag: Dag, s: State, todo: seq<Signal>)
  {
    Inv(dag, NO_LOOP, s, todo) && Causes(dag, s, todo)
  }

  lemma AbsorbFlags(s: State, sig: Signal)
    ensures Absorb(s, sig).hasLive == Counted(s, sig).hasLive
  {
    var u, v := Counted(s, sig), sig.target;
    SameFlags(u, v);
  }

  lemma SameFlags(s: State, v: NodeId)
    ensures Dispatch(s, v).hasLive == s.hasLive && Skip(s, v).hasLive == s.hasLive
  {
  }

  lemma HeardMore(s: State, t: State, todo: seq<Signal>, more: seq<Signal>, v: NodeId)
    requires todo != [] && t.hasLive == Counted(s, todo[0]).hasLive && Signal(v, Live) !in more
    ensures Heard(t, more + todo[1..], v) <==> Heard(s, todo, v)
  {
    var live, rest := Signal(v, Live), todo[1..];
    assert live in todo <==> live == todo[0] || live in rest;
    assert live in more + rest <==> live in more || live in rest;
  }

  /** Absorbing a signal turns a live signal into a live flag and adds no other. */
  lemma AbsorbHeard(dag: Dag, s: State, todo: seq<Signal>, v: NodeId)
    requires todo != []
    ensures Heard(Absorb(s, todo[0]), SentOn(dag, s, todo[0]) + todo[1..], v) <==> Heard(s, todo, v)
  {
    SuppressKinds(dag.Out(todo[0].target));
    AbsorbFlags(s, todo[0]);
    HeardMore(s, Absorb(s, todo[0]), todo, SentOn(dag, s, todo[0]), v);
  }

  lemma AbsorbLive(dag: Dag, s: State, todo: seq<Signal>, v: NodeId)
    requires todo != [] && LiveOK(dag, s, todo, v)
    ensures LiveOK(dag, Absorb(s, todo[0]), SentOn(dag, s, todo[0]) + todo[1..], v)
  {
    AbsorbHeard(dag, s, todo, v);
  }

  lemma CauseFrame(dag: Dag, s: State, t: State, v: NodeId)
    requires CauseOK(dag, s, v) && PendingOf(t, v) == PendingOf(s, v)
    requires (v in t.started <==> v in s.started) && (v in t.skipped <==> v in s.skipped)
    requires (v in t.hasLive <==> v in s.hasLive) && t.launched[v] == s.launched[v]
    ensures CauseOK(dag, t, v)
  {
  }

  lemma DispatchCauseElsewhere(dag: Dag, s: State, w: NodeId, v: NodeId)
    requires CauseOK(dag, s, v) && v != w
    ensures CauseOK(dag, Dispatch(s, w), v)
  {
    assert multiset{w}[v] == 0;
    CauseFrame(dag, s, Dispatch(s, w), v);
  }

  lemma AbsorbCauseElsewhere(dag: Dag, s: State, sig: Signal, v: NodeId)
    requires CauseOK(dag, s, v) && v != sig.target
    ensures CauseOK(dag, Absorb(s, sig), v)
  {
    var u := Counted(s, sig);
    CountedCauseElsewhere(dag, s, sig, v);
    match React(s, sig)
    case Waits =>
    case Launches => DispatchCauseElsewhere(dag, u, sig.target, v);
    case Skips => SkipCauseElsewhere(dag, u, sig.target, v);
  }

  lemma CountedCauseElsewhere(dag: Dag, s: State, sig: Signal, v: NodeId)
    requires CauseOK(dag, s, v) && v != sig.target
    ensures CauseOK(dag, Counted(s, sig), v)
  {
    CauseFrame(dag, s, Counted(s, sig), v);
  }

  lemma SkipCauseElsewhere(dag: Dag, s: State, w: NodeId, v: NodeId)
    requires CauseOK(dag, s, v) && v != w
    ensures CauseOK(dag, Skip(s, w), v)
  {
    CauseFrame(dag, s, Skip(s, w), v);
  }

  lemma AbsorbCause(dag: Dag, s: State, sig: Signal)
    requires SignalFits(dag, NO_LOOP, s, sig) && s.passes == 0 && CauseOK(dag, s, sig.target)
    ensures CauseOK(dag, Absorb(s, sig), sig.target)
  {
    match React(s, sig)
    case Waits => assert PendingOf(Counted(s, sig), sig.target) != 0;
    case Launches => assert sig.target in Counted(s, sig).hasLive;
    case Skips => assert !IsRoot(dag, sig.target);
  }

  lemma NoPasses(dag: Dag, s: State)
    requires LoopFacts(dag, NO_LOOP, s)
    ensures s.passes == 0
  {
  }

  lemma AbsorbFree(dag: Dag, s: State, todo: seq<Signal>)
    requires Fenced(dag, NO_LOOP) && FreeInv(dag, s, todo) && todo != []
    ensures FreeInv(dag, Absorb(s, todo[0]), SentOn(dag, s, todo[0]) + todo[1..])
  {
    AbsorbKeeps(dag, NO_LOOP, s, todo);
    CountedKeeps(dag, NO_LOOP, s, todo);
    NoPasses(dag, s);
    var t, more := Absorb(s, todo[0]), SentOn(dag, s, todo[0]);
    forall v | v in dag.nodes
      ensures LiveOK(dag, t, more + todo[1..], v) && CauseOK(dag, t, v)
    {
      assert LiveOK(dag, s, todo, v);
      AbsorbLive(dag, s, todo, v);
      assert CauseOK(dag, s, v);
      if v == todo[0].target {
        AbsorbCause(dag, s, todo[0]);
      } else {
        AbsorbCauseElsewhere(dag, s, todo[0], v);
      }
    }
  }

  lemma DeliverFree(dag: Dag, s: State, todo: seq<Signal>)
    requires Fenced(dag, NO_LOOP) && FreeInv(dag, s, todo)
    ensures FreeInv(dag, Deliver(dag, s, todo), [])
  {
    ghost var keeps := (t, rest) => FreeInv(dag, t, rest);
    forall t, rest | rest != [] && keeps(t, rest)
      ensures keeps(Absorb(t, rest[0]), SentOn(dag, t, rest[0]) + rest[1..])
    {
      AbsorbFree(dag, t, rest);
    }
    DeliverInduction(dag, s, todo, keeps);
  }

  /** Routing `u` makes exactly its allowed edges fire. */
  lemma FireFires(dag: Dag, routed: map<NodeId, Data>, u: NodeId, routing: Data, v: NodeId)
    requires u !in routed
    ensures AnyFires(dag, routed[u := routing], v) <==>
      AnyFires(dag, routed, v) ||
      exists e :: e in dag.forward && e.source == u && e.target == v && BranchAllows(e, routing, dag.TypeOf(u))
  {
    var after := routed[u := routing];
    forall e | e in dag.forward
      ensures Fires(dag, after, e) <==>
        Fires(dag, routed, e) || (e.source == u && BranchAllows(e, routing, dag.TypeOf(u)))
    {
    }
  }

  /** Routing `u` lets the targets of its allowed edges hear of it, and no others. */
  lemma FireHeard(dag: Dag, s: State, t: State, u: NodeId, routing: Data, v: NodeId)
    requires Adjacent(dag) && u in dag.nodes && t.hasLive == s.hasLive
    ensures Heard(t, SignalsOf(dag, u, routing), v) <==>
      Heard(s, [], v) ||
      exists e :: e in dag.forward && e.source == u && e.target == v && BranchAllows(e, routing, dag.TypeOf(u))
  {
    OutKinds(dag.Out(u), routing, dag.TypeOf(u));
    assert dag.Out(u) == dag.outEdges[u];
    BackKinds(dag.loopBack, u);
    forall e | e in dag.forward && e.source == u
      ensures e in dag.Out(u)
    {
    }
  }

  lemma FireLive(dag: Dag, s: State, u: NodeId, routing: Data, v: NodeId)
    requires Adjacent(dag) && u in dag.nodes && u !in s.routed && LiveOK(dag, s, [], v)
    ensures LiveOK(dag, Fired(s, u, routing), SignalsOf(dag, u, routing), v)
  {
    FireHeard(dag, s, Fired(s, u, routing), u, routing, v);
    FireFires(dag, s.routed, u, routing, v);
  }

  lemma FireFree(dag: Dag, s: State, u: NodeId, routing: Data)
    requires IsLoopFree(dag) && FreeInv(dag, s, []) && Landed(dag, NO_LOOP, s, u)
    ensures FreeInv(dag, Fired(s, u, routing), SignalsOf(dag, u, routing))
  {
    LoopFreeShape(dag);
    FireKeeps(dag, NO_LOOP, s, u, routing);
    forall v | v in dag.nodes
      ensures LiveOK(dag, Fired(s, u, routing), SignalsOf(dag, u, routing), v) && CauseOK(dag, Fired(s, u, routing), v)
    {
      assert LiveOK(dag, s, [], v) && CauseOK(dag, s, v);
      FireLive(dag, s, u, routing, v);
    }
  }

  // ---- What is recorded about a run ----

  /** A node is recorded once its flight has landed, and as succeeded if it was routed. */
  ghost predicate RecordOK(s: State, v: NodeId)
  {
    && (v in s.nodeResults <==> v in s.started && forall f :: f in s.inflight ==> f.node != v)
    && (v in s.routed ==> v in s.nodeResults && v in s.outputs && s.nodeResults[v] == NodeSucceeded(s.outputs[v]))
    && (s.firstErr == None && v in s.nodeResults ==> v in s.routed)
    && (v in s.outputs ==> v in s.nodeResults || v == INITIAL || v == LOOP_STATE)
  }

  ghost predicate Records(dag: Dag, s: State)
  {
    && s.nodeResults.Keys <= dag.nodes.Keys
    && (forall k :: k in s.outputs ==> k in dag.nodes || k == INITIAL || k == LOOP_STATE)
    && forall v {:trigger RecordOK(s, v)} :: v in dag.nodes ==> RecordOK(s, v)
  }

  /** Delivery only dispatches and skips: it leaves results, outputs and flights alone. */
  ghost predicate SameRecords(s: State, t: State)
  {
    && t.nodeResults == s.nodeResults && t.outputs == s.outputs && t.routed == s.routed
    && t.firstErr == s.firstErr && t.ancestors == s.ancestors && t.received == s.received
    && s.started <= t.started && s.inflight <= t.inflight
    && (forall f :: f in t.inflight ==> f in s.inflight || f == Waiting(f.node))
    && (forall f :: f in t.inflight && f !in s.inflight ==> f.node !in s.started)
    && (forall v :: v in t.started && v !in s.started ==> Waiting(v) in t.inflight)
  }

  lemma AbsorbRecords(dag: Dag, s: State, t: State, sig: Signal)
    requires SameRecords(s, t) && SignalFits(dag, NO_LOOP, t, sig)
    ensures SameRecords(s, Absorb(t, sig))
  {
    match React(t, sig)
    case Waits =>
    case Launches =>
      assert sig.target !in t.started;
      DispatchRecords(s, Counted(t, sig), sig.target);
    case Skips =>
  }

  lemma DispatchRecords(s: State, t: State, v: NodeId)
    requires SameRecords(s, t) && v !in t.started
    ensures SameRecords(s, Dispatch(t, v))
  {
  }

  lemma DeliverRecords(dag: Dag, s: State, todo: seq<Signal>)
    requires Fenced(dag, NO_LOOP) && Inv(dag, NO_LOOP, s, todo)
    ensures SameRecords(s, Deliver(dag, s, todo))
  {
    ghost var keeps := (t, rest) => Inv(dag, NO_LOOP, t, rest) && SameRecords(s, t);
    forall t, rest | rest != [] && keeps(t, rest)
      ensures keeps(Absorb(t, rest[0]), SentOn(dag, t, rest[0]) + rest[1..])
    {
      AbsorbKeeps(dag, NO_LOOP, t, rest);
      CountedKeeps(dag, NO_LOOP, t, rest);
      AbsorbRecords(dag, s, t, rest[0]);
    }
    DeliverInduction(dag, s, todo, keeps);
  }

  lemma RecordsCarry(s: State, t: State, v: NodeId)
    requires SameRecords(s, t) && RecordOK(s, v)
    ensures RecordOK(t, v)
  {
    if v in s.started {
      assert forall f :: f in t.inflight && f.node == v ==> f in s.inflight;
      assert forall f :: f in s.inflight ==> f in t.inflight;
    }
  }

  // ---- Every step ----

  lemma CausesFrame(dag: Dag, s: State, t: State)
    requires Causes(dag, s, [])
    requires t.pending == s.pending && t.skipped == s.skipped && t.hasLive == s.hasLive
    requires t.started == s.started && t.routed == s.routed && t.launched == s.launched
    ensures Causes(dag, t, [])
  {
    forall v | v in dag.nodes
      ensures LiveOK(dag, t, [], v) && CauseOK(dag, t, v)
    {
      assert LiveOK(dag, s, [], v) && CauseOK(dag, s, v);
    }
  }

  /** The invariant of loop-free runs, between two steps. */
  ghost predicate FreeState(dag: Dag, s: State)
  {
    FreeInv(dag, s, []) && Records(dag, s)
  }

  lemma StartCauses(dag: Dag, init: Data)
    ensures Causes(dag, Start(dag, init), [])
  {
    var s := Start(dag, init);
    forall v | v in dag.nodes
      ensures LiveOK(dag, s, [], v) && CauseOK(dag, s, v)
    {
    }
  }

  lemma StartRecords(dag: Dag, init: Data)
    ensures Records(dag, Start(dag, init))
  {
    var s := Start(dag, init);
    forall v | v in dag.nodes
      ensures RecordOK(s, v)
    {
      assert v in s.started ==> Waiting(v) in s.inflight;
    }
  }

  lemma ReadRecords(dag: Dag, s: State, v: NodeId)
    requires Records(dag, s) && Waiting(v) in s.inflight
    ensures Records(dag, Apply(dag, s, Read(v)))
  {
    var t := Apply(dag, s, Read(v));
    var g := Running(v, Upstream(s, v));
    assert g in t.inflight;
    forall w | w in dag.nodes
      ensures RecordOK(t, w)
    {
      assert RecordOK(s, w);
      assert forall f :: f in t.inflight ==> f in s.inflight || f == g;
      assert forall f :: f in s.inflight && f != Waiting(v) ==> f in t.inflight;
    }
  }

  lemma ReadFree(dag: Dag, s: State, v: NodeId)
    requires FreeState(dag, s) && Waiting(v) in s.inflight
    ensures FreeState(dag, Apply(dag, s, Read(v)))
  {
    ReadKeeps(dag, NO_LOOP, s, v);
    CausesFrame(dag, s, Apply(dag, s, Read(v)));
    ReadRecords(dag, s, v);
  }

  /** A result that stops scheduling: a failure, or a success after a failure. */
  lemma HaltRecords(dag: Dag, s: State, f: Flight, r: Outcome)
    requires Records(dag, s) && f in s.inflight && f.node in dag.nodes && f.node in s.started && f.node !in s.routed
    requires forall g :: g in Record(s, f, r).inflight ==> g.node != f.node
    requires Record(s, f, r).firstErr != None
    ensures Records(dag, Record(s, f, r))
  {
    var t := Record(s, f, r);
    forall w | w in dag.nodes
      ensures RecordOK(t, w)
    {
      assert RecordOK(s, w);
      assert forall g :: g in s.inflight && g != f ==> g in t.inflight;
    }
  }

  function Landing(s: State, f: Flight, r: Outcome): State
    requires r.Succeeded?
  {
    Fired(Record(s, f, r), f.node, r.routing)
  }

  lemma LandRecords(dag: Dag, s: State, f: Flight, r: Outcome)
    requires Records(dag, s) && f in s.inflight && f.node in dag.nodes && f.node in s.started && f.node !in s.routed
    requires r.Succeeded? && forall g :: g in Record(s, f, r).inflight ==> g.node != f.node
    ensures Records(dag, Landing(s, f, r))
  {
    var t := Landing(s, f, r);
    forall w | w in dag.nodes
      ensures RecordOK(t, w)
    {
      assert RecordOK(s, w);
      assert forall g :: g in s.inflight && g != f ==> g in t.inflight;
    }
  }

  lemma DeliverKeepsRecords(dag: Dag, s: State, todo: seq<Signal>)
    requires Fenced(dag, NO_LOOP) && FreeInv(dag, s, todo) && Records(dag, s)
    ensures FreeState(dag, Deliver(dag, s, todo))
  {
    DeliverFree(dag, s, todo);
    DeliverRecords(dag, s, todo);
    var t := Deliver(dag, s, todo);
    forall w | w in dag.nodes
      ensures RecordOK(t, w)
    {
      assert RecordOK(s, w);
      RecordsCarry(s, t, w);
    }
  }

  /** A successful result in an error-free run is routed by delivering its signals. */
  lemma ReceiveRoutes(dag: Dag, s: State, f: Flight, r: Outcome)
    requires (forall v :: dag.TypeOf(v) != LOOP_CONTROLLER) && r.Succeeded? && s.firstErr == None
    ensures Receive(dag, s, f, r) == Deliver(dag, Landing(s, f, r), SignalsOf(dag, f.node, r.routing))
  {
    var t := Record(s, f, r);
    assert Routing(dag, t, f.node, r.routing) == Landing(s, f, r);
  }

  lemma ReceiveGoesOn(dag: Dag, s: State, f: Flight, r: Outcome)
    requires IsLoopFree(dag) && Fenced(dag, NO_LOOP) && (forall v :: dag.TypeOf(v) != LOOP_CONTROLLER)
    requires r.Succeeded? && s.firstErr == None && FreeInv(dag, Record(s, f, r), []) && Records(dag, Landing(s, f, r))
    requires Landed(dag, NO_LOOP, Record(s, f, r), f.node)
    ensures FreeState(dag, Receive(dag, s, f, r))
  {
    FireFree(dag, Record(s, f, r), f.node, r.routing);
    DeliverKeepsRecords(dag, Landing(s, f, r), SignalsOf(dag, f.node, r.routing));
    ReceiveRoutes(dag, s, f, r);
  }

  lemma ReceiveFree(dag: Dag, s: State, f: Flight, r: Outcome)
    requires IsLoopFree(dag) && FreeState(dag, s) && f in s.inflight
    ensures FreeState(dag, Receive(dag, s, f, r))
  {
    LoopFreeShape(dag);
    RecordFree(dag, s, f, r);
    if Record(s, f, r).firstErr != None {
      HaltRecords(dag, s, f, r);
    } else {
      LandRecords(dag, s, f, r);
      ReceiveGoesOn(dag, s, f, r);
    }
  }

  lemma RecordFree(dag: Dag, s: State, f: Flight, r: Outcome)
    requires Fenced(dag, NO_LOOP) && FreeInv(dag, s, []) && f in s.inflight
    ensures FlightOK(NO_LOOP, s, f) && FreeInv(dag, Record(s, f, r), [])
    ensures Landed(dag, NO_LOOP, Record(s, f, r), f.node)
  {
    RecordKeeps(dag, NO_LOOP, s, f, r);
    CausesFrame(dag, s, Record(s, f, r));
    assert FlightOK(NO_LOOP, s, f);
  }

  lemma {:induction false} RunFree(dag: Dag, init: Data, steps: seq<Step>)
    requires IsLoopFree(dag) && IsRun(dag, init, steps)
    ensures FreeState(dag, After(dag, init, steps))
  {
    if steps == [] {
      LoopFreeShape(dag);
      StartKeeps(dag, NO_LOOP, init);
      StartCauses(dag, init);
      StartRecords(dag, init);
    } else {
      var front := steps[..|steps| - 1];
      RunFree(dag, init, front);
      var s := After(dag, init, front);
      match steps[|steps| - 1]
      case Read(v) => ReadFree(dag, s, v);
      case Recv(f, r) => ReceiveFree(dag, s, f, r);
    }
  }
}
