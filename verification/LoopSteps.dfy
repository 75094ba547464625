/** The two ways a loop controller's result is processed keep the invariant: another
    pass over the body, or leaving the loop. Both rest on the body being at rest. */
module LoopSteps {
  import opened Workflow
  import opened Graph
  import opened DagModel
  import opened Scheduler
  import opened SchedulerInvariant
  import opened SchedulerSteps

  // ---- The body is at rest when the controller reports ----

  /** Once every loop-back source has completed, every body node has settled: follow
      forward edges to a node with a loop-back edge. */
  lemma {:induction false} BodySettled(dag: Dag, l: Loop, s: State, b: NodeId)
    requires Shape(dag, l) && Counts(dag, l, s, []) && Once(dag, l, s)
    requires Looping(s) && !s.exited && b in l.body
    requires forall e :: e in dag.loopBack ==> e.source in s.routed
    ensures IsSettled(s, b)
    decreases |dag.order| - IndexOf(dag.order, b)
  {
    assert Leaves(dag, b);
    if e :| e in dag.forward && e.source == b {
      assert EdgeRule(l, e) && PointsLater(dag.order, e);
      BodySettled(dag, l, s, e.target);
      assert OnceOK(s, e.target) && CountOK(dag, l, s, [], e.target);
      CountZero(dag.forward, l.body - Settled(s), e.target);
    }
  }

  /** A dispatched controller has heard from every loop-back edge. */
  lemma BackEdgesRouted(dag: Dag, l: Loop, s: State, c: NodeId)
    requires Shape(dag, l) && Counts(dag, l, s, []) && c in l.ctrl && PendingOf(s, c) == 0
    requires Looping(s)
    ensures forall e :: e in dag.loopBack ==> e.source in s.routed
  {
    assert CountOK(dag, l, s, [], c);
    CountZero(dag.loopBack, dag.nodes.Keys - s.routed.Keys, c);
  }

  /** Nothing of the body is in flight, and after a pass every body node owes nothing. */
  ghost predicate BodyAtRest(l: Loop, s: State)
  {
    && (forall f :: f in s.inflight ==> f.node !in l.body)
    && (Looping(s) ==> forall b :: b in l.body ==> PendingOf(s, b) == 0)
  }

  /** While the controller is dispatched and not routed, the body is at rest. */
  lemma BodyRests(dag: Dag, l: Loop, s: State, c: NodeId)
    requires Shape(dag, l) && Inv(dag, l, s, []) && c in l.ctrl && c in s.started && c !in s.routed
    ensures !s.exited && BodyAtRest(l, s)
  {
    assert !s.exited && OnceOK(s, c);
    if Looping(s) {
      BackEdgesRouted(dag, l, s, c);
    }
    forall b | b in l.body && Looping(s)
      ensures IsSettled(s, b) && OnceOK(s, b)
    {
      BodySettled(dag, l, s, b);
    }
    forall f | f in s.inflight
      ensures f.node !in l.body
    {
      assert FlightOK(l, s, f);
    }
  }

  // ---- What a new pass records ----

  /** What a new pass does to the records of a run. */
  predicate PassRecorded(dag: Dag, s: State, t: State, c: NodeId)
  {
    var pass := IterationsOf(s, c) + 1;
    && t.nodeResults == s.nodeResults && t.loopIterations == s.loopIterations[c := pass]
    && t.outputs == s.outputs[LOOP_STATE := map["iteration" := Int(pass)]]
    && t.routed == s.routed - dag.BodyOf(c) && t.received == s.received
    && t.passes == s.passes + 1 && t.exited == s.exited && t.firstErr == s.firstErr
  }

  lemma StartPassRecords(dag: Dag, s: State, c: NodeId)
    ensures PassRecorded(dag, s, StartPass(dag, s, c), c)
  {
  }

  lemma StartPassShows(dag: Dag, s: State, c: NodeId)
    ensures StartPass(dag, s, c).ancestors ==
      s.ancestors[c := (if c in s.ancestors then s.ancestors[c] else {}) + {LOOP_STATE} + dag.BodyOf(c)]
  {
  }

  lemma StartPassFlies(dag: Dag, s: State, c: NodeId)
    ensures StartPass(dag, s, c).inflight == s.inflight + multiset(Flights(BodyRoots(dag, c)))
  {
  }

  // ---- Leaving the loop ----

  function Left(l: Loop, s: State, c: NodeId, routing: Data): State
  {
    s.(routed := s.routed[c := routing], skipped := s.skipped + l.body, exited := true)
  }

  /** Outside the body the counters do not notice that the body was marked skipped. */
  lemma LeftUnreported(dag: Dag, l: Loop, s: State, c: NodeId, routing: Data, w: NodeId)
    requires Fenced(dag, l) && w !in l.body
    ensures Unreported(dag, l, Left(l, s, c, routing), w) == Unreported(dag, l, Fired(s, c, routing), w)
  {
    var t, u := Left(l, s, c, routing), Fired(s, c, routing);
    forall e | e in dag.forward && e.target == w
      ensures e.source !in l.body
    {
      assert EdgeRule(l, e);
    }
    CountSame(dag.forward, Sources(dag, l, t, w) - Settled(t), Sources(dag, l, u, w) - Settled(u), w);
  }

  lemma LeftCounts(dag: Dag, l: Loop, s: State, c: NodeId, routing: Data)
    requires Fenced(dag, l) && Counts(dag, l, s, []) && LoopFacts(dag, l, s) && Landed(dag, l, s, c)
    requires c in l.ctrl && !s.exited
    ensures Counts(dag, l, Left(l, s, c, routing), SignalsOf(dag, c, routing))
  {
    var t, u, todo := Left(l, s, c, routing), Fired(s, c, routing), SignalsOf(dag, c, routing);
    forall w | w in dag.nodes && !Frozen(l, t, w)
      ensures CountOK(dag, l, t, todo, w)
    {
      assert CountOK(dag, l, s, [], w);
      LeftUnreported(dag, l, s, c, routing, w);
      SignalsCount(dag, c, routing, w);
      NoBackSignals(dag, l, c, w);
      if w in l.ctrl && Looping(s) {
        NoEdgeToController(dag, l, s, c, w);
        CountSame(dag.loopBack, dag.nodes.Keys - s.routed.Keys, dag.nodes.Keys - u.routed.Keys, w);
      } else {
        assert Settled(u) == Settled(s) + {c};
        UnreportedDrops(dag, l, s, u, c, w);
      }
    }
  }

  /** The controller's loop_body edges are live on the way out only at the iteration cap,
      and then every body counter is already at zero. */
  lemma LeftSignal(dag: Dag, l: Loop, s: State, c: NodeId, routing: Data, e: Edge, kind: Kind)
    requires Fenced(dag, l) && LoopFacts(dag, l, s) && Landed(dag, l, s, c) && BodyAtRest(l, s)
    requires c in l.ctrl && dag.TypeOf(c) == LOOP_CONTROLLER && MaxIterations(dag.ConfigOf(c)) >= 1
    requires !s.exited && !Iterates(dag, s, c, routing) && e in dag.forward && e.source == c
    requires kind == (if BranchAllows(e, routing, LOOP_CONTROLLER) then Live else Suppressed)
    ensures SignalOK(dag, l, Left(l, s, c, routing), Signal(e.target, kind))
  {
    assert EdgeRule(l, e);
    if Looping(s) && e.target in l.ctrl {
      NoEdgeToController(dag, l, s, c, e.target);
      assert false;
    }
    if e.target in l.body && kind == Live {
      assert TextAt(routing, "action") == LOOP_BODY;
      assert Looping(s);
    }
  }

  lemma LeftSignals(dag: Dag, l: Loop, s: State, c: NodeId, routing: Data)
    requires Fenced(dag, l) && LoopFacts(dag, l, s) && Landed(dag, l, s, c) && BodyAtRest(l, s)
    requires c in l.ctrl && dag.TypeOf(c) == LOOP_CONTROLLER && MaxIterations(dag.ConfigOf(c)) >= 1
    requires !s.exited && !Iterates(dag, s, c, routing)
    ensures SignalsOK(dag, l, Left(l, s, c, routing), SignalsOf(dag, c, routing))
  {
    OutKinds(dag.Out(c), routing, LOOP_CONTROLLER);
    BackKinds(dag.loopBack, c);
    assert dag.Out(c) == dag.outEdges[c];
    forall sig | sig in SignalsOf(dag, c, routing)
      ensures SignalOK(dag, l, Left(l, s, c, routing), sig)
    {
      assert sig in OutSignals(dag.Out(c), routing, LOOP_CONTROLLER);
      var e :| e in dag.Out(c) && e.target == sig.target &&
               sig.kind == (if BranchAllows(e, routing, LOOP_CONTROLLER) then Live else Suppressed);
      LeftSignal(dag, l, s, c, routing, e, sig.kind);
    }
  }

  lemma LeftOnce(dag: Dag, l: Loop, s: State, c: NodeId, routing: Data)
    requires Once(dag, l, s) && Airborne(l, s) && Landed(dag, l, s, c) && BodyAtRest(l, s) && !s.exited
    ensures Once(dag, l, Left(l, s, c, routing)) && Airborne(l, Left(l, s, c, routing))
  {
    var t := Left(l, s, c, routing);
    forall w | w in dag.nodes && !Frozen(l, t, w)
      ensures OnceOK(t, w)
    {
      assert OnceOK(s, w);
    }
    forall f | f in t.inflight
      ensures FlightOK(l, t, f)
    {
      assert FlightOK(l, s, f);
    }
  }

  lemma LeftFacts(dag: Dag, l: Loop, s: State, c: NodeId, routing: Data)
    requires LoopFacts(dag, l, s) && c in l.ctrl && l.ctrl !! l.body
    requires forall d :: d in l.ctrl ==> d == c
    ensures LoopFacts(dag, l, Left(l, s, c, routing))
  {
    var t := Left(l, s, c, routing);
    forall e | e in dag.forward && Looping(t)
      ensures ReadyOK(l, t, e)
    {
      assert ReadyOK(l, s, e);
    }
  }

  lemma LeaveKeeps(dag: Dag, l: Loop, s: State, c: NodeId, routing: Data)
    requires Shape(dag, l) && Inv(dag, l, s, []) && Landed(dag, l, s, c)
    requires c in l.ctrl && !Iterates(dag, s, c, routing)
    ensures Inv(dag, l, Left(l, s, c, routing), SignalsOf(dag, c, routing))
  {
    BodyRests(dag, l, s, c);
    LeftCounts(dag, l, s, c, routing);
    LeftSignals(dag, l, s, c, routing);
    LeftOnce(dag, l, s, c, routing);
    LeftFacts(dag, l, s, c, routing);
  }

  // ---- Another pass ----

  lemma {:induction false} LoopBackCounted(loopBack: seq<Edge>, from: set<NodeId>, c: NodeId)
    requires forall e :: e in loopBack ==> e.source in from
    ensures LoopBackCount(loopBack, c) == CountFrom(loopBack, from, c)
  {
    if loopBack != [] {
      assert loopBack[|loopBack| - 1] in loopBack;
      LoopBackCounted(loopBack[..|loopBack| - 1], from, c);
    }
  }

  ghost predicate PassPendingOK(dag: Dag, l: Loop, s: State, t: State, c: NodeId, w: NodeId)
  {
    PendingOf(t, w) ==
      if w == c then LoopBackCount(dag.loopBack, c)
      else if w in l.body then CountIn(dag.Preds(w), l.body)
      else PendingOf(s, w)
  }

  /** What a new pass does to the counters and the sets, with `roots` the body nodes it dispatches. */
  ghost predicate NewPass(dag: Dag, l: Loop, s: State, t: State, c: NodeId, roots: set<NodeId>)
  {
    && (forall w {:trigger PassPendingOK(dag, l, s, t, c, w)} :: PassPendingOK(dag, l, s, t, c, w))
    && roots <= l.body && (forall b :: b in roots ==> PendingOf(t, b) == 0)
    && PassSets(l, s, t, c, roots)
  }

  ghost predicate PassSets(l: Loop, s: State, t: State, c: NodeId, roots: set<NodeId>)
  {
    && t.skipped == s.skipped - l.body && t.routed == s.routed - l.body
    && t.hasLive == s.hasLive - l.body + roots && t.started == s.started - l.body - {c} + roots
    && t.inflight == s.inflight + multiset(Flights(roots))
    && t.dispatched == s.dispatched + |roots| && t.received == s.received
    && t.passes == s.passes + 1 && t.exited == s.exited
    && IterationsOf(t, c) == IterationsOf(s, c) + 1
  }

  lemma PassPendingAt(dag: Dag, pending: map<NodeId, int>, c: NodeId, w: NodeId)
    ensures var after := PassPending(dag, pending, c);
      && (w == c ==> w in after && after[w] == LoopBackCount(dag.loopBack, c))
      && (w != c && w in dag.BodyOf(c) ==> w in after && after[w] == CountIn(dag.Preds(w), dag.BodyOf(c)))
      && (w != c && w !in dag.BodyOf(c) ==> (w in after <==> w in pending) && (w in after ==> after[w] == pending[w]))
  {
  }

  lemma PassPendingKeys(dag: Dag, pending: map<NodeId, int>, c: NodeId)
    ensures PassPending(dag, pending, c).Keys == pending.Keys + dag.BodyOf(c) + {c}
  {
    forall w
      ensures w in PassPending(dag, pending, c) <==> w in pending.Keys + dag.BodyOf(c) + {c}
    {
      PassPendingAt(dag, pending, c, w);
    }
  }

  lemma StartPassSets(dag: Dag, l: Loop, s: State, c: NodeId)
    requires dag.BodyOf(c) == l.body && c !in l.body
    ensures PassSets(l, s, StartPass(dag, s, c), c, BodyRoots(dag, c))
  {
  }

  lemma StartPassPending(dag: Dag, l: Loop, s: State, c: NodeId, w: NodeId)
    requires dag.BodyOf(c) == l.body && c !in l.body
    ensures PassPendingOK(dag, l, s, StartPass(dag, s, c), c, w)
    ensures w in BodyRoots(dag, c) ==> w in l.body && PendingOf(StartPass(dag, s, c), w) == 0
  {
    PassPendingAt(dag, s.pending, c, w);
  }

  lemma StartPassIsNewPass(dag: Dag, l: Loop, s: State, c: NodeId)
    requires dag.BodyOf(c) == l.body && c !in l.body
    ensures NewPass(dag, l, s, StartPass(dag, s, c), c, BodyRoots(dag, c))
  {
    var t := StartPass(dag, s, c);
    StartPassSets(dag, l, s, c);
    forall w
      ensures PassPendingOK(dag, l, s, t, c, w)
      ensures w in BodyRoots(dag, c) ==> w in l.body && PendingOf(t, w) == 0
    {
      StartPassPending(dag, l, s, c, w);
    }
  }

  lemma PassCountBody(dag: Dag, l: Loop, s: State, t: State, c: NodeId, w: NodeId)
    requires Adjacent(dag) && PassPendingOK(dag, l, s, t, c, w)
    requires t.skipped !! l.body && t.routed.Keys !! l.body && Looping(t)
    requires w in dag.nodes && w in l.body && w != c && w !in l.ctrl
    ensures CountOK(dag, l, t, [], w)
  {
    assert dag.Preds(w) == dag.predecessors[w];
    CountInSources(dag.forward, l.body, w);
    CountSame(dag.forward, l.body - Settled(t), l.body, w);
  }

  lemma PassCountOther(dag: Dag, l: Loop, s: State, t: State, c: NodeId, w: NodeId)
    requires Fenced(dag, l) && PassPendingOK(dag, l, s, t, c, w) && CountOK(dag, l, s, [], w)
    requires t.skipped == s.skipped - l.body && t.routed.Keys == s.routed.Keys - l.body
    requires w !in l.body && w != c && w !in l.ctrl
    ensures CountOK(dag, l, t, [], w)
  {
    forall e | e in dag.forward && e.target == w
      ensures e.source !in l.body
    {
      assert EdgeRule(l, e);
    }
    CountSame(dag.forward, dag.nodes.Keys - Settled(s), dag.nodes.Keys - Settled(t), w);
  }

  lemma PassCounts(dag: Dag, l: Loop, s: State, t: State, c: NodeId, roots: set<NodeId>)
    requires Fenced(dag, l) && Counts(dag, l, s, []) && !s.exited && NewPass(dag, l, s, t, c, roots)
    requires l.body <= dag.nodes.Keys && l.ctrl == {c}
    ensures Counts(dag, l, t, [])
  {
    forall w | w in dag.nodes && !Frozen(l, t, w)
      ensures CountOK(dag, l, t, [], w)
    {
      assert PassPendingOK(dag, l, s, t, c, w);
      if w in l.body {
        PassCountBody(dag, l, s, t, c, w);
      } else if w == c {
        LoopBackCounted(dag.loopBack, dag.nodes.Keys - t.routed.Keys, c);
      } else {
        assert CountOK(dag, l, s, [], w);
        PassCountOther(dag, l, s, t, c, w);
      }
    }
  }

  lemma PassOnce(dag: Dag, l: Loop, s: State, t: State, c: NodeId, roots: set<NodeId>)
    requires Once(dag, l, s) && Landed(dag, l, s, c) && !s.exited && NewPass(dag, l, s, t, c, roots)
    requires c !in l.body
    ensures Once(dag, l, t)
  {
    forall w | w in dag.nodes && !Frozen(l, t, w)
      ensures OnceOK(t, w)
    {
      assert OnceOK(s, w) && PassPendingOK(dag, l, s, t, c, w);
    }
  }

  lemma PassAirborne(dag: Dag, l: Loop, s: State, t: State, c: NodeId, roots: set<NodeId>)
    requires Airborne(l, s) && Landed(dag, l, s, c) && BodyAtRest(l, s) && !s.exited && NewPass(dag, l, s, t, c, roots)
    requires c !in l.body
    ensures Airborne(l, t)
  {
    forall f | f in t.inflight
      ensures FlightOK(l, t, f)
    {
      if f in s.inflight {
        assert FlightOK(l, s, f);
        assert f !in Flights(roots);
      }
    }
  }

  /** Every forward predecessor of a completed controller has settled. */
  lemma PredsReported(dag: Dag, l: Loop, s: State, c: NodeId, e: Edge)
    requires Fenced(dag, l) && Counts(dag, l, s, []) && LoopFacts(dag, l, s) && Landed(dag, l, s, c)
    requires c in l.ctrl && e in dag.forward && e.target == c
    ensures IsSettled(s, e.source)
  {
    if Looping(s) {
      assert ReadyOK(l, s, e);
    } else {
      assert CountOK(dag, l, s, [], c);
      CountZero(dag.forward, dag.nodes.Keys - Settled(s), c);
    }
  }

  lemma PassReady(dag: Dag, l: Loop, s: State, t: State, c: NodeId, e: Edge)
    requires Fenced(dag, l) && Counts(dag, l, s, []) && LoopFacts(dag, l, s) && Landed(dag, l, s, c)
    requires l.ctrl == {c} && e in dag.forward
    requires t.skipped == s.skipped - l.body && t.routed == s.routed - l.body
    ensures ReadyOK(l, t, e)
  {
    assert EdgeRule(l, e);
    if e.target == c {
      PredsReported(dag, l, s, c, e);
    }
  }

  lemma PassFacts(dag: Dag, l: Loop, s: State, t: State, c: NodeId)
    requires LoopFacts(dag, l, s) && l.ctrl == {c} && c !in s.skipped && !s.exited
    requires s.passes < MaxIterations(dag.ConfigOf(c))
    requires t.skipped == s.skipped - l.body && t.passes == s.passes + 1 && t.exited == s.exited
    requires IterationsOf(t, c) == IterationsOf(s, c) + 1
    requires forall e :: e in dag.forward ==> ReadyOK(l, t, e)
    ensures LoopFacts(dag, l, t)
  {
  }

  lemma DropSize(s: set<NodeId>, body: set<NodeId>, c: NodeId)
    ensures |s| <= |s - body - {c}| + |body| + 1
  {
    var rest := s - body - {c};
    SubsetSize(s, rest + body + {c});
    assert |rest + body| <= |rest| + |body|;
    assert |rest + body + {c}| <= |rest + body| + 1;
  }

  lemma SubsetSize(a: set<NodeId>, b: set<NodeId>)
    requires a <= b
    ensures |a| <= |b|
  {
    assert b == a + (b - a);
  }

  lemma NextBudget(l: Loop, n: nat)
    ensures PassBudget(l, n + 1) == PassBudget(l, n) + |l.body| + 1
  {
    assert (n + 1) * (|l.body| + 1) == n * (|l.body| + 1) + (|l.body| + 1);
  }

  lemma PassBudgetKeeps(dag: Dag, l: Loop, s: State, t: State, c: NodeId, roots: set<NodeId>)
    requires Budget(l, s) && c !in l.body && NewPass(dag, l, s, t, c, roots)
    ensures Budget(l, t)
  {
    var kept := s.started - l.body - {c};
    FlightsSize(roots);
    DropSize(s.started, l.body, c);
    assert kept !! roots;
    assert |kept + roots| == |kept| + |roots|;
    NextBudget(l, s.passes);
  }

  lemma PassKeeps(dag: Dag, l: Loop, s: State, t: State, c: NodeId, roots: set<NodeId>)
    requires Fenced(dag, l) && Inv(dag, l, s, []) && Landed(dag, l, s, c) && BodyAtRest(l, s)
    requires l.ctrl == {c} && l.body <= dag.nodes.Keys && !s.exited
    requires NewPass(dag, l, s, t, c, roots) && t.pending.Keys == s.pending.Keys
    requires s.passes < MaxIterations(dag.ConfigOf(c))
    ensures Inv(dag, l, t, [])
  {
    PassCounts(dag, l, s, t, c, roots);
    PassOnce(dag, l, s, t, c, roots);
    PassAirborne(dag, l, s, t, c, roots);
    forall e | e in dag.forward
      ensures ReadyOK(l, t, e)
    {
      PassReady(dag, l, s, t, c, e);
    }
    PassFacts(dag, l, s, t, c);
    PassBudgetKeeps(dag, l, s, t, c, roots);
  }

  // ---- Every step ----

  lemma OnlyController(dag: Dag, l: Loop, c: NodeId)
    requires Shape(dag, l) && c in l.ctrl
    ensures l.ctrl == {c} && dag.nodes.Keys + l.body + {c} == dag.nodes.Keys
  {
  }

  lemma ControllerPasses(dag: Dag, l: Loop, s: State, t: State, c: NodeId, roots: set<NodeId>)
    requires Fenced(dag, l) && Inv(dag, l, s, []) && Landed(dag, l, s, c) && BodyAtRest(l, s) && !s.exited
    requires l.ctrl == {c} && dag.nodes.Keys + l.body + {c} == dag.nodes.Keys
    requires IterationsOf(s, c) < MaxIterations(dag.ConfigOf(c))
    requires NewPass(dag, l, s, t, c, roots) && t.pending.Keys == s.pending.Keys + l.body + {c}
    ensures Inv(dag, l, t, [])
  {
    PassKeeps(dag, l, s, t, c, roots);
  }

  lemma ScheduleOrdinary(dag: Dag, l: Loop, s: State, v: NodeId, routing: Data)
    requires Fenced(dag, l) && Inv(dag, l, s, []) && Landed(dag, l, s, v)
    requires v !in l.ctrl && dag.TypeOf(v) != LOOP_CONTROLLER
    ensures Inv(dag, l, Schedule(dag, s, v, routing), [])
  {
    FireKeeps(dag, l, s, v, routing);
    DeliverKeeps(dag, l, Fired(s, v, routing), SignalsOf(dag, v, routing));
    assert Routing(dag, s, v, routing) == Fired(s, v, routing);
  }

  lemma ScheduleController(dag: Dag, l: Loop, s: State, c: NodeId, routing: Data)
    requires Shape(dag, l) && Inv(dag, l, s, []) && Landed(dag, l, s, c)
    requires c in l.ctrl && dag.TypeOf(c) == LOOP_CONTROLLER && dag.BodyOf(c) == l.body
    ensures Inv(dag, l, Schedule(dag, s, c, routing), [])
  {
    if Iterates(dag, s, c, routing) {
      OnlyController(dag, l, c);
      BodyRests(dag, l, s, c);
      StartPassIsNewPass(dag, l, s, c);
      PassPendingKeys(dag, s.pending, c);
      ControllerPasses(dag, l, s, StartPass(dag, s, c), c, BodyRoots(dag, c));
    } else {
      LeaveKeeps(dag, l, s, c, routing);
      DeliverKeeps(dag, l, Left(l, s, c, routing), SignalsOf(dag, c, routing));
      assert Routing(dag, s, c, routing) == Left(l, s, c, routing);
    }
  }

  lemma ScheduleKeeps(dag: Dag, l: Loop, s: State, v: NodeId, routing: Data)
    requires Shape(dag, l) && Inv(dag, l, s, []) && Landed(dag, l, s, v)
    ensures Inv(dag, l, Schedule(dag, s, v, routing), [])
  {
    if v in l.ctrl {
      ScheduleController(dag, l, s, v, routing);
    } else {
      ScheduleOrdinary(dag, l, s, v, routing);
    }
  }

  lemma AcceptKeeps(dag: Dag, l: Loop, s: State, v: NodeId, r: Outcome)
    requires Shape(dag, l) && Inv(dag, l, s, []) && Landed(dag, l, s, v)
    ensures Inv(dag, l, Accept(dag, s, v, r), [])
  {
    if r.Succeeded? && s.firstErr == None {
      ScheduleKeeps(dag, l, s, v, r.routing);
    }
  }

  lemma ReceiveKeeps(dag: Dag, l: Loop, s: State, f: Flight, r: Outcome)
    requires Shape(dag, l) && Inv(dag, l, s, []) && f in s.inflight
    ensures Inv(dag, l, Receive(dag, s, f, r), [])
  {
    RecordKeeps(dag, l, s, f, r);
    AcceptKeeps(dag, l, Record(s, f, r), f.node, r);
  }

  lemma ApplyKeeps(dag: Dag, l: Loop, s: State, step: Step)
    requires Shape(dag, l) && Inv(dag, l, s, []) && Enabled(s, step)
    ensures Inv(dag, l, Apply(dag, s, step), [])
  {
    match step
    case Read(v) => ReadKeeps(dag, l, s, v);
    case Recv(f, r) => ReceiveKeeps(dag, l, s, f, r);
  }

  /** Every state every run reaches satisfies the invariant. */
  lemma {:induction false} RunKeeps(dag: Dag, l: Loop, init: Data, steps: seq<Step>)
    requires Shape(dag, l) && IsRun(dag, init, steps)
    ensures Inv(dag, l, After(dag, init, steps), [])
  {
    if steps == [] {
      StartKeeps(dag, l, init);
    } else {
      var front := steps[..|steps| - 1];
      RunKeeps(dag, l, init, front);
      ApplyKeeps(dag, l, After(dag, init, front), steps[|steps| - 1]);
    }
  }
}
