/** What a node reads: in every run of every built graph, well-formed loop or not, the data of a
    node in flight is said key by key in terms of the graph and of the results received before. */
module Reading {
  import opened Workflow
  import opened DagModel
  import opened Scheduler
  import opened SchedulerInvariant
  import opened LoopBound
  import opened LoopFree
  import opened LoopIsolation
  import opened Completion
  import opened Delivery
  import opened Landings
  import opened Diamond

  // ---- Only nodes of the graph are dispatched ----

  predicate Inside(dag: Dag, todo: seq<Signal>)
  {
    forall sig :: sig in todo ==> sig.target in dag.nodes
  }

  /** Everything in flight was in flight before, or is a node of the graph that has not read yet. */
  ghost predicate Joined(dag: Dag, s: State, t: State)
  {
    forall f :: f in t.inflight ==> f in s.inflight || (f.Waiting? && f.node in dag.nodes)
  }

  lemma SentInside(dag: Dag, s: State, sig: Signal)
    requires Adjacent(dag)
    ensures Inside(dag, SentOn(dag, s, sig))
  {
    SuppressKinds(dag.Out(sig.target));
    assert sig.target in dag.nodes ==> dag.Out(sig.target) == dag.outEdges[sig.target];
  }

  lemma SignalsInside(dag: Dag, v: NodeId, routing: Data)
    requires Adjacent(dag) && LoopRules(dag)
    ensures Inside(dag, SignalsOf(dag, v, routing))
  {
    OutKinds(dag.Out(v), routing, dag.TypeOf(v));
    BackKinds(dag.loopBack, v);
    assert v in dag.nodes ==> dag.Out(v) == dag.outEdges[v];
  }

  lemma DeliverJoins(dag: Dag, s: State, todo: seq<Signal>)
    requires Adjacent(dag) && Inside(dag, todo)
    ensures Joined(dag, s, Deliver(dag, s, todo))
  {
    ghost var keeps := (t: State, rest: seq<Signal>) => Joined(dag, s, t) && Inside(dag, rest);
    forall t, rest | rest != [] && keeps(t, rest)
      ensures keeps(Absorb(t, rest[0]), SentOn(dag, t, rest[0]) + rest[1..])
    {
      AbsorbTouches(t, rest[0]);
      SentInside(dag, t, rest[0]);
    }
    DeliverInduction(dag, s, todo, keeps);
  }

  // ---- What receiving a result does to what nodes read from ----

  /** A success is stored under its node; a pass also publishes its number and lets the controller
      see it and the body. Nothing else that nodes read from changes. */
  ghost predicate Files(dag: Dag, s: State, t: State, f: Flight, r: Outcome)
  {
    if r.Failed? then t.outputs == s.outputs && SameSight(s, t)
    else if t.passes == s.passes then t.outputs == s.outputs[f.node := r.output] && SameSight(s, t)
    else f.node in dag.Controllers() && PassedRecords(dag, s, t, f, r)
  }

  predicate SameSight(s: State, t: State)
  {
    t.ancestors == s.ancestors && t.loopIterations == s.loopIterations && t.passes == s.passes
  }

  lemma RootsInside(dag: Dag, c: NodeId)
    requires Built(dag)
    ensures BodyRoots(dag, c) <= dag.nodes.Keys
  {
    if c in dag.Controllers() {
      BodyFacts(dag, c);
    }
  }

  lemma PassFiles(dag: Dag, s: State, f: Flight, r: Outcome)
    requires Built(dag) && r.Succeeded? && s.firstErr == None && dag.TypeOf(f.node) == LOOP_CONTROLLER
    requires Iterates(dag, s, f.node, r.routing)
    ensures Files(dag, s, Receive(dag, s, f, r), f, r) && Joined(dag, s, Receive(dag, s, f, r))
  {
    ReceiveStarts(dag, s, f, r);
    PassesRecords(dag, s, f, r);
    PassesFlying(dag, s, f, r);
    RootsInside(dag, f.node);
    PassJoins(dag, s, Receive(dag, s, f, r), f);
  }

  lemma PassJoins(dag: Dag, s: State, t: State, f: Flight)
    requires PassedFlying(dag, s, t, f) && BodyRoots(dag, f.node) <= dag.nodes.Keys
    ensures Joined(dag, s, t)
  {
  }

  /** The state right before the signals of a landed result are delivered. */
  ghost predicate Arrived(dag: Dag, s: State, u: State, f: Flight, r: Outcome)
    requires r.Succeeded?
  {
    u.inflight == s.inflight - multiset{f} && u.outputs == s.outputs[f.node := r.output] && SameSight(s, u)
  }

  lemma DeliverFiles(dag: Dag, s: State, u: State, f: Flight, r: Outcome)
    requires Built(dag) && r.Succeeded? && Arrived(dag, s, u, f, r)
    ensures var t := Deliver(dag, u, SignalsOf(dag, f.node, r.routing)); Files(dag, s, t, f, r) && Joined(dag, s, t)
  {
    var todo := SignalsOf(dag, f.node, r.routing);
    SignalsInside(dag, f.node, r.routing);
    DeliverSame(dag, u, todo);
    DeliverJoins(dag, u, todo);
  }

  lemma HaltFiles(dag: Dag, s: State, f: Flight, r: Outcome)
    requires r.Failed? || s.firstErr != None
    ensures Files(dag, s, Receive(dag, s, f, r), f, r) && Joined(dag, s, Receive(dag, s, f, r))
  {
    assert Receive(dag, s, f, r) == Record(s, f, r);
  }

  lemma QuitsArrives(dag: Dag, l: Loop, s: State, f: Flight, r: Outcome)
    requires r.Succeeded?
    ensures Arrived(dag, s, Quits(l, s, f, r), f, r)
  {
  }

  lemma ReceiveFiles(dag: Dag, s: State, f: Flight, r: Outcome)
    requires Built(dag)
    ensures Files(dag, s, Receive(dag, s, f, r), f, r) && Joined(dag, s, Receive(dag, s, f, r))
  {
    if r.Failed? || s.firstErr != None {
      HaltFiles(dag, s, f, r);
    } else if dag.TypeOf(f.node) != LOOP_CONTROLLER {
      ReceiveLands(dag, s, f, r);
      LandingLands(s, f, r);
      DeliverFiles(dag, s, Landing(s, f, r), f, r);
    } else if Iterates(dag, s, f.node, r.routing) {
      PassFiles(dag, s, f, r);
    } else {
      var l := Loop({f.node}, dag.BodyOf(f.node));
      ReceiveQuits(dag, l, s, f, r);
      QuitsArrives(dag, l, s, f, r);
      DeliverFiles(dag, s, Quits(l, s, f, r), f, r);
    }
  }

  // ---- What is there to be read, in every run ----

  /** Node `v` sees its ancestors, and a controller also the number of the pass and its body once a pass was started. */
  ghost predicate SightOK(dag: Dag, s: State, v: NodeId)
  {
    && v in dag.ancestors && v in s.ancestors
    && s.ancestors[v] ==
         dag.ancestors[v] + (if v in dag.Controllers() && s.passes > 0 then {LOOP_STATE} + dag.BodyOf(v) else {})
    && (v in dag.Controllers() ==> IterationsOf(s, v) == s.passes)
  }

  ghost predicate StoredReserved(dag: Dag, init: Data, s: State)
  {
    && INITIAL in s.outputs && s.outputs[INITIAL] == init
    && LOOP_STATE in s.outputs && s.outputs[LOOP_STATE] == Iteration(s.passes)
    && s.outputs.Keys <= dag.nodes.Keys + {INITIAL, LOOP_STATE}
  }

  /** What is stored: the initial data, the number of passes, and each node's latest output. */
  ghost predicate Stored(dag: Dag, init: Data, steps: seq<Step>, s: State)
  {
    && StoredReserved(dag, init, s)
    && forall v {:trigger LatestOK(Outs(steps, v), s, v)} :: v in dag.nodes ==> LatestOK(Outs(steps, v), s, v)
  }

  ghost predicate Sighted(dag: Dag, s: State)
  {
    forall v {:trigger SightOK(dag, s, v)} :: v in dag.nodes ==> SightOK(dag, s, v)
  }

  ghost predicate InGraph(dag: Dag, s: State)
  {
    forall f :: f in s.inflight ==> f.node in dag.nodes
  }

  lemma ReceiveLatest(dag: Dag, steps: seq<Step>, s: State, t: State, f: Flight, r: Outcome, v: NodeId)
    requires v in dag.nodes && NoReservedIds(dag) && Files(dag, s, t, f, r) && LatestOK(Outs(steps, v), s, v)
    ensures LatestOK(Outs(steps + [Recv(f, r)], v), t, v)
  {
    OutsAppend(steps, Recv(f, r), v);
  }

  lemma ReceiveReserved(dag: Dag, init: Data, s: State, t: State, f: Flight, r: Outcome)
    requires NoReservedIds(dag) && f.node in dag.nodes && StoredReserved(dag, init, s) && Files(dag, s, t, f, r)
    requires f.node in dag.Controllers() ==> SightOK(dag, s, f.node)
    ensures StoredReserved(dag, init, t)
  {
  }

  lemma ReceiveStores(dag: Dag, init: Data, steps: seq<Step>, s: State, t: State, f: Flight, r: Outcome)
    requires NoReservedIds(dag) && f.node in dag.nodes && Stored(dag, init, steps, s) && Files(dag, s, t, f, r)
    requires f.node in dag.Controllers() ==> SightOK(dag, s, f.node)
    ensures Stored(dag, init, steps + [Recv(f, r)], t)
  {
    ReceiveReserved(dag, init, s, t, f, r);
    forall v | v in dag.nodes
      ensures LatestOK(Outs(steps + [Recv(f, r)], v), t, v)
    {
      assert LatestOK(Outs(steps, v), s, v);
      ReceiveLatest(dag, steps, s, t, f, r, v);
    }
  }

  lemma ReceiveSights(dag: Dag, s: State, t: State, f: Flight, r: Outcome)
    requires LoopRules(dag) && Sighted(dag, s) && f.node in dag.nodes && Files(dag, s, t, f, r)
    ensures Sighted(dag, t)
  {
    assert SightOK(dag, s, f.node);
    forall v | v in dag.nodes
      ensures SightOK(dag, t, v)
    {
      assert SightOK(dag, s, v);
    }
  }

  // ---- What one flight has read ----

  /** Node `u` is one whose output `v` may read in state `s`. */
  ghost predicate MayRead(dag: Dag, s: State, v: NodeId, u: NodeId)
  {
    Reaches(dag.forward, u, v) || (v in dag.Controllers() && s.passes > 0 && u in dag.BodyOf(v))
  }

  /** Of node `u`, `v` has the latest output, exactly if there is one and `v` may read it. */
  ghost predicate FoundNode(dag: Dag, past: seq<Step>, s: State, v: NodeId, inputs: Inputs, u: NodeId)
  {
    && (u in inputs <==> Outs(past, u) != [] && MayRead(dag, s, v, u))
    && (u in inputs ==> inputs[u] == Outs(past, u)[|Outs(past, u)| - 1])
  }

  /** Of the reserved keys, `v` has the initial data, and the number of passes if it is a controller that has
      started one. */
  ghost predicate FoundReserved(dag: Dag, init: Data, s: State, v: NodeId, inputs: Inputs)
  {
    && "_initial" in inputs && inputs["_initial"] == init
    && ("_loop_state" in inputs <==> v in dag.Controllers() && s.passes > 0)
    && ("_loop_state" in inputs ==> inputs["_loop_state"] == map["iteration" := Int(s.passes)])
  }

  /** `inputs` is what `v` finds in the state `s` the steps `past` lead to, and nothing else. */
  ghost predicate FoundBy(dag: Dag, init: Data, past: seq<Step>, s: State, v: NodeId, inputs: Inputs)
  {
    && FoundReserved(dag, init, s, v, inputs)
    && (forall u {:trigger FoundNode(dag, past, s, v, inputs, u)} ::
          u in dag.nodes ==> FoundNode(dag, past, s, v, inputs, u))
    && inputs.Keys <= dag.nodes.Keys + {"_initial", "_loop_state"}
    && forall k :: k in inputs ==> k in s.outputs && inputs[k] == s.outputs[k]
  }

  /** `v` read `inputs` at step `k`. */
  ghost predicate ReadAt(dag: Dag, init: Data, steps: seq<Step>, k: nat, v: NodeId, inputs: Inputs)
  {
    && k < |steps| && steps[k] == Read(v)
    && FoundBy(dag, init, steps[..k], After(dag, init, steps[..k]), v, inputs)
  }

  ghost predicate HasRead(dag: Dag, init: Data, steps: seq<Step>, f: Flight)
  {
    f.Running? ==> exists k: nat :: ReadAt(dag, init, steps, k, f.node, f.inputs)
  }

  lemma ReachedFrom(dag: Dag, v: NodeId, k: NodeId)
    requires Adjacent(dag) && Reaches(dag.forward, k, v)
    ensures k in dag.nodes
  {
    var p :| |p| >= 2 && PathBetween(dag.forward, p, k, v);
    assert HasEdge(dag.forward, p[0], p[0 + 1]);
  }

  /** The keys in sight of `v` are the nodes it may read, and the number of passes for a controller. */
  lemma InSight(dag: Dag, s: State, v: NodeId, k: NodeId)
    requires Built(dag) && v in dag.nodes && SightOK(dag, s, v)
    ensures k in dag.nodes && k != LOOP_STATE ==> (k in s.ancestors[v] <==> MayRead(dag, s, v, k))
    ensures k !in dag.nodes ==> (k in s.ancestors[v] <==> k == LOOP_STATE && v in dag.Controllers() && s.passes > 0)
  {
    if k in dag.ancestors[v] {
      ReachedFrom(dag, v, k);
    }
    if v in dag.Controllers() {
      BodyFacts(dag, v);
    }
  }

  lemma UpstreamNode(dag: Dag, past: seq<Step>, s: State, v: NodeId, u: NodeId)
    requires Built(dag) && NoReservedIds(dag) && v in dag.nodes && u in dag.nodes && SightOK(dag, s, v)
    requires LatestOK(Outs(past, u), s, u)
    ensures FoundNode(dag, past, s, v, Upstream(s, v), u)
  {
    InSight(dag, s, v, u);
  }

  lemma UpstreamReserved(dag: Dag, init: Data, s: State, v: NodeId)
    requires Built(dag) && NoReservedIds(dag) && v in dag.nodes && SightOK(dag, s, v)
    requires INITIAL in s.outputs && s.outputs[INITIAL] == init
    requires LOOP_STATE in s.outputs && s.outputs[LOOP_STATE] == Iteration(s.passes)
    ensures FoundReserved(dag, init, s, v, Upstream(s, v))
  {
    InSight(dag, s, v, LOOP_STATE);
  }

  /** What the goroutine of `v` gets is what is to be found. */
  lemma UpstreamIsFound(dag: Dag, init: Data, past: seq<Step>, s: State, v: NodeId)
    requires Built(dag) && NoReservedIds(dag) && v in dag.nodes && Stored(dag, init, past, s) && SightOK(dag, s, v)
    ensures FoundBy(dag, init, past, s, v, Upstream(s, v))
  {
    UpstreamReserved(dag, init, s, v);
    forall u | u in dag.nodes
      ensures FoundNode(dag, past, s, v, Upstream(s, v), u)
    {
      assert LatestOK(Outs(past, u), s, u);
      UpstreamNode(dag, past, s, v, u);
    }
  }

  lemma ReadEarlier(dag: Dag, init: Data, steps: seq<Step>, x: Step, k: nat, v: NodeId, inputs: Inputs)
    requires ReadAt(dag, init, steps, k, v, inputs)
    ensures ReadAt(dag, init, steps + [x], k, v, inputs)
  {
    assert (steps + [x])[..k] == steps[..k];
  }

  lemma StillRead(dag: Dag, init: Data, steps: seq<Step>, x: Step, f: Flight)
    requires HasRead(dag, init, steps, f)
    ensures HasRead(dag, init, steps + [x], f)
  {
    if f.Running? {
      var k: nat :| ReadAt(dag, init, steps, k, f.node, f.inputs);
      ReadEarlier(dag, init, steps, x, k, f.node, f.inputs);
    }
  }

  lemma JustRead(dag: Dag, init: Data, steps: seq<Step>, v: NodeId, inputs: Inputs)
    requires FoundBy(dag, init, steps, After(dag, init, steps), v, inputs)
    ensures HasRead(dag, init, steps + [Read(v)], Running(v, inputs))
  {
    assert (steps + [Read(v)])[..|steps|] == steps;
    assert ReadAt(dag, init, steps + [Read(v)], |steps|, v, inputs);
  }

  // ---- Every run ----

  /** What holds after every run. */
  ghost predicate Legible(dag: Dag, init: Data, steps: seq<Step>, s: State)
  {
    && Stored(dag, init, steps, s) && Sighted(dag, s) && InGraph(dag, s)
    && forall f {:trigger HasRead(dag, init, steps, f)} :: f in s.inflight ==> HasRead(dag, init, steps, f)
  }

  lemma StartLegible(dag: Dag, init: Data)
    requires Built(dag) && NoReservedIds(dag)
    ensures Legible(dag, init, [], Start(dag, init))
  {
    StartHolds(dag, init, Start(dag, init));
    FreshLegible(dag, init, Start(dag, init));
  }

  lemma FreshLegible(dag: Dag, init: Data, s: State)
    requires dag.ancestors.Keys == dag.nodes.Keys && NoReservedIds(dag)
    requires s.outputs == map[INITIAL := init, LOOP_STATE := Iteration(0)] && s.ancestors == dag.ancestors
    requires s.loopIterations == map[] && s.passes == 0
    requires forall f :: f in s.inflight ==> f.Waiting? && f.node in dag.nodes
    ensures Legible(dag, init, [], s)
  {
    forall v | v in dag.nodes
      ensures LatestOK(Outs([], v), s, v)
    {
    }
    forall v | v in dag.nodes
      ensures SightOK(dag, s, v)
    {
    }
  }

  lemma StartHolds(dag: Dag, init: Data, s: State)
    requires s == Start(dag, init)
    ensures s.outputs == map[INITIAL := init, LOOP_STATE := Iteration(0)] && s.ancestors == dag.ancestors
    ensures s.loopIterations == map[] && s.passes == 0
    ensures forall f :: f in s.inflight ==> f.Waiting? && f.node in dag.nodes
  {
  }

  lemma ReadLegible(dag: Dag, init: Data, steps: seq<Step>, s: State, v: NodeId)
    requires Built(dag) && NoReservedIds(dag) && s == After(dag, init, steps) && Legible(dag, init, steps, s)
    requires Waiting(v) in s.inflight
    ensures Legible(dag, init, steps + [Read(v)], Apply(dag, s, Read(v)))
  {
    assert SightOK(dag, s, v);
    UpstreamIsFound(dag, init, steps, s, v);
    JustRead(dag, init, steps, v, Upstream(s, v));
    ReadsLegible(dag, init, steps, s, Apply(dag, s, Read(v)), v, Upstream(s, v));
  }

  lemma ReadsLegible(dag: Dag, init: Data, steps: seq<Step>, s: State, t: State, v: NodeId, inputs: Inputs)
    requires Legible(dag, init, steps, s) && Waiting(v) in s.inflight && t.outputs == s.outputs && SameSight(s, t)
    requires forall f :: f in t.inflight ==> f in s.inflight || f == Running(v, inputs)
    requires HasRead(dag, init, steps + [Read(v)], Running(v, inputs))
    ensures Legible(dag, init, steps + [Read(v)], t)
  {
    ReadChanges(dag, init, steps, s, t, v);
    forall f | f in t.inflight
      ensures HasRead(dag, init, steps + [Read(v)], f)
    {
      if f in s.inflight {
        StillRead(dag, init, steps, Read(v), f);
      }
    }
  }

  lemma ReadChanges(dag: Dag, init: Data, steps: seq<Step>, s: State, t: State, v: NodeId)
    requires Stored(dag, init, steps, s) && Sighted(dag, s) && t.outputs == s.outputs && SameSight(s, t)
    ensures Stored(dag, init, steps + [Read(v)], t) && Sighted(dag, t)
  {
    forall u | u in dag.nodes
      ensures LatestOK(Outs(steps + [Read(v)], u), t, u)
    {
      OutsAppend(steps, Read(v), u);
      assert LatestOK(Outs(steps, u), s, u);
    }
    forall u | u in dag.nodes
      ensures SightOK(dag, t, u)
    {
      assert SightOK(dag, s, u);
    }
  }

  lemma ReceiveLegible(dag: Dag, init: Data, steps: seq<Step>, s: State, f: Flight, r: Outcome)
    requires Built(dag) && NoReservedIds(dag) && Legible(dag, init, steps, s) && f in s.inflight
    ensures Legible(dag, init, steps + [Recv(f, r)], Receive(dag, s, f, r))
  {
    var t := Receive(dag, s, f, r);
    assert SightOK(dag, s, f.node);
    ReceiveFiles(dag, s, f, r);
    ReceiveStores(dag, init, steps, s, t, f, r);
    ReceiveSights(dag, s, t, f, r);
    forall g | g in t.inflight
      ensures HasRead(dag, init, steps + [Recv(f, r)], g)
    {
      if g.Running? {
        StillRead(dag, init, steps, Recv(f, r), g);
      }
    }
  }

  lemma {:induction false} RunLegible(dag: Dag, init: Data, steps: seq<Step>)
    requires Built(dag) && NoReservedIds(dag) && IsRun(dag, init, steps)
    ensures Legible(dag, init, steps, After(dag, init, steps))
  {
    if steps == [] {
      StartLegible(dag, init);
    } else {
      LastStep(dag, init, steps);
      RunLegible(dag, init, steps[..|steps| - 1]);
      match steps[|steps| - 1]
      case Read(v) => ReadLegible(dag, init, steps[..|steps| - 1], After(dag, init, steps[..|steps| - 1]), v);
      case Recv(f, r) => ReceiveLegible(dag, init, steps[..|steps| - 1], After(dag, init, steps[..|steps| - 1]), f, r);
    }
  }

  /** What a node reads. In every run of every built graph, whatever its loop looks like and whatever
      failed, a node in flight that has its data read it at some step of the run, and holds, key by
      key, the run's initial data and the latest output, at that step, of every node with a path to
      it; a controller that has started a pass also holds the number of passes and the latest
      outputs of its body; and nothing else. */
  lemma NodesRead(dag: Dag, init: Data, steps: seq<Step>, v: NodeId, inputs: Inputs)
    requires Built(dag) && NoReservedIds(dag) && IsRun(dag, init, steps)
    requires Running(v, inputs) in After(dag, init, steps).inflight
    ensures v in dag.nodes && "_initial" in inputs && inputs["_initial"] == init
    ensures exists k: nat :: ReadAt(dag, init, steps, k, v, inputs)
  {
    RunLegible(dag, init, steps);
    assert HasRead(dag, init, steps, Running(v, inputs));
    var k: nat :| ReadAt(dag, init, steps, k, v, inputs);
  }

  /** What is stored for later readers: in every run, the initial data, the number of passes and each
      node's latest output, and nothing else. */
  lemma RunStores(dag: Dag, init: Data, steps: seq<Step>)
    requires Built(dag) && NoReservedIds(dag) && IsRun(dag, init, steps)
    ensures var s := After(dag, init, steps);
      && INITIAL in s.outputs && s.outputs[INITIAL] == init
      && LOOP_STATE in s.outputs && s.outputs[LOOP_STATE] == map["iteration" := Int(s.passes)]
      && s.outputs.Keys <= dag.nodes.Keys + {INITIAL, LOOP_STATE}
      && forall v :: v in dag.nodes ==> LatestOK(Outs(steps, v), s, v)
  {
    RunLegible(dag, init, steps);
    forall v | v in dag.nodes
      ensures LatestOK(Outs(steps, v), After(dag, init, steps), v)
    {
      assert Stored(dag, init, steps, After(dag, init, steps));
    }
  }
}
