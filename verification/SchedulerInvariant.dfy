/** What every step of the supervisor keeps, for loop-free graphs and for well-formed
    loops, whatever the nodes answer and in whatever order they answer. */
module SchedulerInvariant {
  import opened Workflow
  import opened Graph
  import opened DagModel
  import opened Scheduler

  // ---- Counting signals ----

  function SigCount(todo: seq<Signal>, v: NodeId): nat
  {
    if todo == [] then 0 else (if todo[0].target == v then 1 else 0) + SigCount(todo[1..], v)
  }

  lemma {:induction false} SigCountAppend(a: seq<Signal>, b: seq<Signal>, v: NodeId)
    ensures SigCount(a + b, v) == SigCount(a, v) + SigCount(b, v)
  {
    if a == [] {
      assert a + b == b;
    } else {
      assert (a + b)[1..] == a[1..] + b;
      SigCountAppend(a[1..], b, v);
    }
  }

  lemma {:induction false} SigCountZero(todo: seq<Signal>, v: NodeId)
    ensures SigCount(todo, v) == 0 <==> forall sig :: sig in todo ==> sig.target != v
  {
    if todo != [] {
      SigCountZero(todo[1..], v);
      assert forall sig :: sig in todo <==> sig == todo[0] || sig in todo[1..];
    }
  }

  lemma {:induction false} SuppressCount(edges: seq<Edge>, u: NodeId, v: NodeId)
    ensures SigCount(SuppressAll(OutOf(edges, u)), v) == CountFrom(edges, {u}, v)
  {
    if edges != [] {
      var front, last := edges[..|edges| - 1], edges[|edges| - 1];
      SuppressCount(front, u, v);
      if last.source == u {
        var out := OutOf(front, u);
        assert (out + [last])[..|out|] == out;
        SigCountAppend(SuppressAll(out), [Signal(last.target, Suppressed)], v);
      } else {
        assert OutOf(front, u) + [] == OutOf(front, u);
      }
    }
  }

  lemma {:induction false} OutCount(edges: seq<Edge>, u: NodeId, routing: Data, kind: string, v: NodeId)
    ensures SigCount(OutSignals(OutOf(edges, u), routing, kind), v) == CountFrom(edges, {u}, v)
  {
    if edges != [] {
      var front, last := edges[..|edges| - 1], edges[|edges| - 1];
      OutCount(front, u, routing, kind, v);
      if last.source == u {
        var out := OutOf(front, u);
        assert (out + [last])[..|out|] == out;
        SigCountAppend(OutSignals(out, routing, kind),
                       [Signal(last.target, if BranchAllows(last, routing, kind) then Live else Suppressed)], v);
      } else {
        assert OutOf(front, u) + [] == OutOf(front, u);
      }
    }
  }

  lemma {:induction false} BackCount(loopBack: seq<Edge>, u: NodeId, v: NodeId)
    ensures SigCount(BackSignals(loopBack, u), v) == CountFrom(loopBack, {u}, v)
  {
    if loopBack != [] {
      var front, last := loopBack[..|loopBack| - 1], loopBack[|loopBack| - 1];
      BackCount(front, u, v);
      SigCountAppend(BackSignals(front, u), if last.source == u then [Signal(last.target, Back)] else [], v);
    }
  }

  /** Which signals a suppressed node, and a completed node, can send. */
  lemma {:induction false} SuppressKinds(edges: seq<Edge>)
    ensures forall sig :: sig in SuppressAll(edges) ==>
      sig.kind == Suppressed && exists e :: e in edges && e.target == sig.target
  {
    if edges != [] {
      SuppressKinds(edges[..|edges| - 1]);
      assert edges[|edges| - 1] in edges;
    }
  }

  lemma {:induction false} OutKinds(edges: seq<Edge>, routing: Data, kind: string)
    ensures forall sig :: sig in OutSignals(edges, routing, kind) ==>
      exists e :: e in edges && e.target == sig.target &&
                  sig.kind == (if BranchAllows(e, routing, kind) then Live else Suppressed)
    ensures forall e :: e in edges ==>
      Signal(e.target, if BranchAllows(e, routing, kind) then Live else Suppressed) in OutSignals(edges, routing, kind)
  {
    if edges != [] {
      var front, last := edges[..|edges| - 1], edges[|edges| - 1];
      OutKinds(front, routing, kind);
      assert forall e :: e in edges <==> e in front || e == last;
      var sig := Signal(last.target, if BranchAllows(last, routing, kind) then Live else Suppressed);
      assert OutSignals(edges, routing, kind) == OutSignals(front, routing, kind) + [sig];
    }
  }

  lemma {:induction false} BackKinds(loopBack: seq<Edge>, u: NodeId)
    ensures forall sig :: sig in BackSignals(loopBack, u) ==>
      sig.kind == Back && exists e :: e in loopBack && e.source == u && e.target == sig.target
  {
    if loopBack != [] {
      BackKinds(loopBack[..|loopBack| - 1], u);
      assert loopBack[|loopBack| - 1] in loopBack;
    }
  }

  // ---- The graphs covered ----

  /** The loop of a graph: its controller, if any, and the body of that controller. */
  datatype Loop = Loop(ctrl: set<NodeId>, body: set<NodeId>)

  /** Some forward or loop-back edge leaves `b`. */
  ghost predicate Leaves(dag: Dag, b: NodeId)
  {
    (exists e :: e in dag.forward && e.source == b) || (exists e :: e in dag.loopBack && e.source == b)
  }

  ghost predicate Entered(dag: Dag, b: NodeId)
  {
    exists e :: e in dag.forward && e.target == b
  }

  /** Forward edges enter the body from the controller or the body only, along
      loop_body edges in the first case, and never leave it. */
  predicate EdgeRule(l: Loop, e: Edge)
  {
    && (e.target in l.body ==> e.source in l.body || (e.source in l.ctrl && e.branch == Some(LOOP_BODY)))
    && (e.source in l.body ==> e.target in l.body)
  }

  /** The body is fenced off: forward edges obey the edge rule and loop-back edges run
      from the body to the controller. */
  ghost predicate Fenced(dag: Dag, l: Loop)
  {
    && Adjacent(dag)
    && l.ctrl !! l.body && l.ctrl <= dag.nodes.Keys
    && (forall e {:trigger EdgeRule(l, e)} :: e in dag.forward ==> EdgeRule(l, e))
    && (forall e :: e in dag.loopBack ==> e.source in l.body && e.target in l.ctrl)
  }

  /** Either there is no controller at all, or the one loop is well formed. */
  ghost predicate Shape(dag: Dag, l: Loop)
  {
    && Fenced(dag, l)
    && IsTopologicalOrder(dag.order, dag.nodes.Keys, dag.forward)
    && l.ctrl == dag.Controllers()
    && (forall c, d :: c in l.ctrl && d in l.ctrl ==> c == d)
    && (forall c :: c in l.ctrl ==> dag.BodyOf(c) == l.body && MaxIterations(dag.ConfigOf(c)) >= 1)
    && l.body <= dag.nodes.Keys
    && (forall b {:trigger Leaves(dag, b)} :: b in l.body ==> Leaves(dag, b))
    && (forall b {:trigger Entered(dag, b)} :: b in l.body ==> Entered(dag, b))
  }

  // ---- The invariant ----

  predicate Looping(s: State)
  {
    s.passes > 0
  }

  /** The loop is over for good and `v` belongs to its body: its counters no longer matter. */
  predicate Frozen(l: Loop, s: State, v: NodeId)
  {
    s.exited && v in l.body
  }

  predicate IsSettled(s: State, v: NodeId)
  {
    v in s.routed || v in s.skipped
  }

  function Settled(s: State): set<NodeId>
  {
    s.routed.Keys + s.skipped
  }

  /** The sources whose edges the counter of `v` currently counts. */
  function Sources(dag: Dag, l: Loop, s: State, v: NodeId): set<NodeId>
  {
    if v in l.body && Looping(s) then l.body else dag.nodes.Keys
  }

  /** How many edges into `v` have not reported yet. */
  function Unreported(dag: Dag, l: Loop, s: State, v: NodeId): nat
  {
    if v in l.ctrl && Looping(s) then CountFrom(dag.loopBack, dag.nodes.Keys - s.routed.Keys, v)
    else CountFrom(dag.forward, Sources(dag, l, s, v) - Settled(s), v)
  }

  ghost predicate Domains(dag: Dag, s: State)
  {
    && s.pending.Keys == dag.nodes.Keys
    && s.started <= dag.nodes.Keys && s.skipped <= dag.nodes.Keys && s.routed.Keys <= dag.nodes.Keys
  }

  /** The counter of `v` is the number of edges that have not reported, given the
      signals still to be delivered. */
  ghost predicate CountOK(dag: Dag, l: Loop, s: State, todo: seq<Signal>, v: NodeId)
  {
    PendingOf(s, v) == Unreported(dag, l, s, v) + SigCount(todo, v)
  }

  ghost predicate Counts(dag: Dag, l: Loop, s: State, todo: seq<Signal>)
  {
    forall v {:trigger CountOK(dag, l, s, todo, v)} :: v in dag.nodes && !Frozen(l, s, v) ==>
      CountOK(dag, l, s, todo, v)
  }

  /** A dispatched or skipped node owes nothing, and is not both. */
  predicate OnceOK(s: State, v: NodeId)
  {
    && (v in s.started || v in s.skipped ==> PendingOf(s, v) == 0)
    && !(v in s.started && v in s.skipped)
    && (v in s.routed ==> v in s.started)
  }

  ghost predicate Once(dag: Dag, l: Loop, s: State)
  {
    forall v {:trigger OnceOK(s, v)} :: v in dag.nodes && !Frozen(l, s, v) ==> OnceOK(s, v)
  }

  predicate FlightOK(l: Loop, s: State, f: Flight)
  {
    s.inflight[f] == 1 && f.node in s.started && f.node !in s.routed && !Frozen(l, s, f.node)
  }

  ghost predicate Airborne(l: Loop, s: State)
  {
    && (forall f :: f in s.inflight ==> FlightOK(l, s, f))
    && (forall f, g :: f in s.inflight && g in s.inflight && f.node == g.node ==> f == g)
  }

  /** What the phase of the loop says about a signal still to be delivered. */
  predicate SignalOK(dag: Dag, l: Loop, s: State, sig: Signal)
  {
    && sig.target in dag.nodes
    && (Looping(s) && sig.target in l.ctrl ==> sig.kind == Back)
    && (sig.kind == Back ==> Looping(s) && !s.exited && sig.target in l.ctrl)
    && (sig.target in l.body && s.exited && sig.kind == Live ==> PendingOf(s, sig.target) <= 0)
    && (sig.target in l.body && !Looping(s) && !s.exited ==> sig.kind == Suppressed)
  }

  ghost predicate SignalsOK(dag: Dag, l: Loop, s: State, todo: seq<Signal>)
  {
    forall sig :: sig in todo ==> SignalOK(dag, l, s, sig)
  }

  predicate ReadyOK(l: Loop, s: State, e: Edge)
  {
    e.target in l.ctrl ==> IsSettled(s, e.source)
  }

  ghost predicate LoopFacts(dag: Dag, l: Loop, s: State)
  {
    && (forall c :: c in l.ctrl ==> IterationsOf(s, c) == s.passes <= MaxIterations(dag.ConfigOf(c)))
    && (Looping(s) ==> l.ctrl != {} && s.skipped !! l.ctrl)
    && (Looping(s) ==> forall e {:trigger ReadyOK(l, s, e)} :: e in dag.forward ==> ReadyOK(l, s, e))
    && (s.exited ==> l.body <= s.skipped && l.ctrl <= s.routed.Keys)
    && (!Looping(s) && !s.exited ==> s.started !! l.body && s.hasLive !! l.body)
  }

  /** The dispatches `passes` passes over the body can add. */
  function PassBudget(l: Loop, passes: nat): nat
  {
    passes * (|l.body| + 1)
  }

  ghost predicate Budget(l: Loop, s: State)
  {
    && s.received + |s.inflight| == s.dispatched
    && s.dispatched <= |s.started| + PassBudget(l, s.passes)
  }

  /** The invariant, with `todo` the signals not delivered yet. */
  ghost predicate Inv(dag: Dag, l: Loop, s: State, todo: seq<Signal>)
  {
    && Domains(dag, s)
    && Counts(dag, l, s, todo)
    && Once(dag, l, s)
    && Airborne(l, s)
    && SignalsOK(dag, l, s, todo)
    && LoopFacts(dag, l, s)
    && Budget(l, s)
  }

  // ---- Delivering one signal ----

  lemma CountedCounts(dag: Dag, l: Loop, s: State, todo: seq<Signal>)
    requires Counts(dag, l, s, todo) && todo != []
    ensures Counts(dag, l, Counted(s, todo[0]), todo[1..])
    ensures var v := todo[0].target; v in dag.nodes && !Frozen(l, s, v) ==> PendingOf(s, v) >= 1
  {
    var t := Counted(s, todo[0]);
    if todo[0].target in dag.nodes && !Frozen(l, s, todo[0].target) {
      assert CountOK(dag, l, s, todo, todo[0].target);
    }
    forall w | w in dag.nodes && !Frozen(l, t, w)
      ensures CountOK(dag, l, t, todo[1..], w)
    {
      assert CountOK(dag, l, s, todo, w);
    }
  }

  lemma CountedOnce(dag: Dag, l: Loop, s: State, sig: Signal)
    requires Once(dag, l, s) && sig.target in dag.nodes
    requires !Frozen(l, s, sig.target) ==> PendingOf(s, sig.target) >= 1
    ensures Once(dag, l, Counted(s, sig))
    ensures !Frozen(l, s, sig.target) ==>
      sig.target !in s.started && sig.target !in s.skipped && sig.target !in s.routed
  {
    var t := Counted(s, sig);
    if !Frozen(l, s, sig.target) {
      assert OnceOK(s, sig.target);
    }
    forall w | w in dag.nodes && !Frozen(l, t, w)
      ensures OnceOK(t, w)
    {
      assert OnceOK(s, w);
    }
  }

  lemma CountedSignals(dag: Dag, l: Loop, s: State, todo: seq<Signal>)
    requires SignalsOK(dag, l, s, todo) && todo != []
    ensures SignalsOK(dag, l, Counted(s, todo[0]), todo[1..])
  {
    forall sig | sig in todo[1..]
      ensures SignalOK(dag, l, Counted(s, todo[0]), sig)
    {
      assert sig in todo;
    }
  }

  lemma CountedLoopFacts(dag: Dag, l: Loop, s: State, sig: Signal)
    requires LoopFacts(dag, l, s) && SignalOK(dag, l, s, sig)
    ensures LoopFacts(dag, l, Counted(s, sig))
  {
    var t := Counted(s, sig);
    forall e | e in dag.forward && Looping(t)
      ensures ReadyOK(l, t, e)
    {
      assert ReadyOK(l, s, e);
    }
  }

  /** The target of a signal about to be delivered is still waiting for it, unless the loop is over. */
  ghost predicate SignalFits(dag: Dag, l: Loop, s: State, sig: Signal)
  {
    var v := sig.target;
    && SignalOK(dag, l, s, sig)
    && (if Frozen(l, s, v) then v in s.skipped
        else v !in s.started && v !in s.skipped && v !in s.routed && PendingOf(s, v) >= 1)
    && (!Looping(s) && !s.exited ==> s.hasLive !! l.body)
  }

  lemma CountedKeeps(dag: Dag, l: Loop, s: State, todo: seq<Signal>)
    requires Inv(dag, l, s, todo) && todo != []
    ensures Inv(dag, l, Counted(s, todo[0]), todo[1..]) && SignalFits(dag, l, s, todo[0])
  {
    assert todo[0] in todo;
    assert SignalOK(dag, l, s, todo[0]);
    CountedCounts(dag, l, s, todo);
    CountedOnce(dag, l, s, todo[0]);
    CountedSignals(dag, l, s, todo);
    CountedLoopFacts(dag, l, s, todo[0]);
  }

  // ---- Dispatching a node ----

  ghost predicate Idle(dag: Dag, l: Loop, s: State, v: NodeId)
  {
    && v in dag.nodes && !Frozen(l, s, v)
    && v !in s.started && v !in s.skipped && v !in s.routed
    && PendingOf(s, v) == 0
  }

  /** The counters and signals only depend on part of the state. */
  lemma CountsFrame(dag: Dag, l: Loop, s: State, t: State, todo: seq<Signal>)
    requires Counts(dag, l, s, todo) && SignalsOK(dag, l, s, todo)
    requires t.pending == s.pending && t.skipped == s.skipped && t.routed == s.routed
    requires t.passes == s.passes && t.exited == s.exited
    ensures Counts(dag, l, t, todo) && SignalsOK(dag, l, t, todo)
  {
    forall w | w in dag.nodes && !Frozen(l, t, w)
      ensures CountOK(dag, l, t, todo, w)
    {
      assert CountOK(dag, l, s, todo, w);
    }
    forall sig | sig in todo
      ensures SignalOK(dag, l, t, sig)
    {
      assert SignalOK(dag, l, s, sig);
    }
  }

  lemma DispatchAirborne(l: Loop, s: State, v: NodeId)
    requires Airborne(l, s) && !Frozen(l, s, v) && v !in s.started && v !in s.routed
    ensures Airborne(l, Dispatch(s, v))
  {
    var t := Dispatch(s, v);
    assert Waiting(v) !in s.inflight;
    forall f | f in t.inflight
      ensures FlightOK(l, t, f)
    {
      assert f in s.inflight ==> FlightOK(l, s, f);
    }
    forall f, g | f in t.inflight && g in t.inflight && f.node == g.node
      ensures f == g
    {
      assert f in s.inflight ==> FlightOK(l, s, f);
      assert g in s.inflight ==> FlightOK(l, s, g);
    }
  }

  lemma DispatchOnce(dag: Dag, l: Loop, s: State, v: NodeId)
    requires Once(dag, l, s) && Idle(dag, l, s, v)
    ensures Once(dag, l, Dispatch(s, v))
  {
    forall w | w in dag.nodes && !Frozen(l, Dispatch(s, v), w)
      ensures OnceOK(Dispatch(s, v), w)
    {
      assert OnceOK(s, w);
    }
  }

  lemma DispatchLoopFacts(dag: Dag, l: Loop, s: State, v: NodeId)
    requires LoopFacts(dag, l, s)
    requires !Looping(s) && !s.exited ==> v !in l.body
    ensures LoopFacts(dag, l, Dispatch(s, v))
  {
    var t := Dispatch(s, v);
    forall e | e in dag.forward && Looping(t)
      ensures ReadyOK(l, t, e)
    {
      assert ReadyOK(l, s, e);
    }
  }

  lemma DispatchKeeps(dag: Dag, l: Loop, s: State, todo: seq<Signal>, v: NodeId)
    requires Inv(dag, l, s, todo) && Idle(dag, l, s, v)
    requires !Looping(s) && !s.exited ==> v !in l.body
    ensures Inv(dag, l, Dispatch(s, v), todo)
  {
    var t := Dispatch(s, v);
    CountsFrame(dag, l, s, t, todo);
    DispatchAirborne(l, s, v);
    DispatchOnce(dag, l, s, v);
    DispatchLoopFacts(dag, l, s, v);
    assert |t.started| == |s.started| + 1;
  }

  // ---- Settling one more node ----

  /** When `v` settles, every counter owes exactly the forward edges leaving `v`. */
  lemma UnreportedDrops(dag: Dag, l: Loop, s: State, t: State, v: NodeId, w: NodeId)
    requires forall e {:trigger EdgeRule(l, e)} :: e in dag.forward ==> EdgeRule(l, e)
    requires v in dag.nodes
    requires v !in Settled(s) && Settled(t) == Settled(s) + {v} && t.passes == s.passes
    requires Looping(s) ==> w !in l.ctrl && (w in l.body ==> v !in l.ctrl)
    ensures Unreported(dag, l, s, w) == Unreported(dag, l, t, w) + CountFrom(dag.forward, {v}, w)
  {
    var from := Sources(dag, l, s, w);
    assert from - Settled(t) == from - Settled(s) - {v};
    if v in from {
      CountSplit(dag.forward, from - Settled(s), v, w);
    } else {
      assert from - Settled(t) == from - Settled(s);
      CountZero(dag.forward, {v}, w);
      forall e | e in dag.forward
        ensures !(e.source in {v} && e.target == w)
      {
        assert EdgeRule(l, e);
      }
    }
  }

  /** A node that settles while the loop runs has no forward edge to the controller. */
  lemma NoEdgeToController(dag: Dag, l: Loop, s: State, v: NodeId, w: NodeId)
    requires LoopFacts(dag, l, s)
    requires Looping(s) && !IsSettled(s, v) && w in l.ctrl
    ensures CountFrom(dag.forward, {v}, w) == 0
    ensures !exists e :: e in dag.forward && e.source == v && e.target == w
  {
    CountZero(dag.forward, {v}, w);
    forall e | e in dag.forward
      ensures !(e.source == v && e.target == w)
    {
      assert ReadyOK(l, s, e);
    }
  }

  lemma SkipCounts(dag: Dag, l: Loop, s: State, todo: seq<Signal>, v: NodeId)
    requires Fenced(dag, l) && Counts(dag, l, s, todo) && LoopFacts(dag, l, s) && Idle(dag, l, s, v)
    requires Looping(s) ==> v !in l.ctrl
    ensures Counts(dag, l, Skip(s, v), SuppressAll(dag.Out(v)) + todo)
  {
    var t, more := Skip(s, v), SuppressAll(dag.Out(v));
    forall w | w in dag.nodes && !Frozen(l, t, w)
      ensures CountOK(dag, l, t, more + todo, w)
    {
      assert CountOK(dag, l, s, todo, w);
      SigCountAppend(more, todo, w);
      assert dag.Out(v) == dag.outEdges[v];
      SuppressCount(dag.forward, v, w);
      if w in l.ctrl && Looping(s) {
        NoEdgeToController(dag, l, s, v, w);
      } else {
        assert Settled(t) == Settled(s) + {v};
        UnreportedDrops(dag, l, s, t, v, w);
      }
    }
  }

  lemma SkipSignals(dag: Dag, l: Loop, s: State, todo: seq<Signal>, v: NodeId)
    requires Adjacent(dag) && SignalsOK(dag, l, s, todo) && LoopFacts(dag, l, s) && Idle(dag, l, s, v)
    ensures SignalsOK(dag, l, Skip(s, v), SuppressAll(dag.Out(v)) + todo)
  {
    var t, more := Skip(s, v), SuppressAll(dag.Out(v));
    SuppressKinds(dag.Out(v));
    assert dag.Out(v) == dag.outEdges[v];
    forall sig | sig in more + todo
      ensures SignalOK(dag, l, t, sig)
    {
      if sig in todo {
        assert SignalOK(dag, l, s, sig);
      } else if Looping(s) && sig.target in l.ctrl {
        NoEdgeToController(dag, l, s, v, sig.target);
      }
    }
  }

  lemma SkipOnce(dag: Dag, l: Loop, s: State, v: NodeId)
    requires Once(dag, l, s) && Idle(dag, l, s, v)
    ensures Once(dag, l, Skip(s, v))
  {
    forall w | w in dag.nodes && !Frozen(l, Skip(s, v), w)
      ensures OnceOK(Skip(s, v), w)
    {
      assert OnceOK(s, w);
    }
  }

  lemma SkipLoopFacts(dag: Dag, l: Loop, s: State, v: NodeId)
    requires LoopFacts(dag, l, s) && (Looping(s) ==> v !in l.ctrl)
    ensures LoopFacts(dag, l, Skip(s, v))
  {
    var t := Skip(s, v);
    forall e | e in dag.forward && Looping(t)
      ensures ReadyOK(l, t, e)
    {
      assert ReadyOK(l, s, e);
    }
  }

  lemma SkipKeeps(dag: Dag, l: Loop, s: State, todo: seq<Signal>, v: NodeId)
    requires Fenced(dag, l) && Inv(dag, l, s, todo) && Idle(dag, l, s, v)
    requires Looping(s) ==> v !in l.ctrl
    ensures Inv(dag, l, Skip(s, v), SuppressAll(dag.Out(v)) + todo)
  {
    var t := Skip(s, v);
    SkipCounts(dag, l, s, todo, v);
    SkipSignals(dag, l, s, todo, v);
    SkipOnce(dag, l, s, v);
    SkipLoopFacts(dag, l, s, v);
    forall f | f in t.inflight
      ensures FlightOK(l, t, f)
    {
      assert FlightOK(l, s, f);
    }
  }

  /** A target that is dispatched or skipped was idle. */
  lemma ReactOnIdle(dag: Dag, l: Loop, s: State, sig: Signal)
    requires SignalFits(dag, l, s, sig)
    ensures var u, v := Counted(s, sig), sig.target;
      && (React(s, sig) != Waits ==> Idle(dag, l, u, v))
      && (React(s, sig) == Launches ==> !Looping(u) && !u.exited ==> v !in l.body)
      && (React(s, sig) == Skips ==> Looping(u) ==> v !in l.ctrl)
  {
  }

  lemma AbsorbKeeps(dag: Dag, l: Loop, s: State, todo: seq<Signal>)
    requires Fenced(dag, l) && Inv(dag, l, s, todo) && todo != []
    ensures Inv(dag, l, Absorb(s, todo[0]), SentOn(dag, s, todo[0]) + todo[1..])
  {
    CountedKeeps(dag, l, s, todo);
    ReactOnIdle(dag, l, s, todo[0]);
    var u, v := Counted(s, todo[0]), todo[0].target;
    assert [] + todo[1..] == todo[1..];
    match React(s, todo[0])
    case Waits =>
    case Launches => DispatchKeeps(dag, l, u, todo[1..], v);
    case Skips => SkipKeeps(dag, l, u, todo[1..], v);
  }

  /** Induction over a delivery: what every absorbed signal keeps, the delivery keeps. */
  lemma {:induction false} DeliverInduction(dag: Dag, s: State, todo: seq<Signal>, keeps: (State, seq<Signal>) -> bool)
    requires keeps(s, todo)
    requires forall t, rest :: rest != [] && keeps(t, rest) ==>
      keeps(Absorb(t, rest[0]), SentOn(dag, t, rest[0]) + rest[1..])
    ensures keeps(Deliver(dag, s, todo), [])
    decreases dag.nodes.Keys - s.skipped, |todo|
  {
    if todo != [] {
      AbsorbShrinks(dag, s, todo[0]);
      DeliverInduction(dag, Absorb(s, todo[0]), SentOn(dag, s, todo[0]) + todo[1..], keeps);
    }
  }

  lemma DeliverKeeps(dag: Dag, l: Loop, s: State, todo: seq<Signal>)
    requires Fenced(dag, l) && Inv(dag, l, s, todo)
    ensures Inv(dag, l, Deliver(dag, s, todo), [])
  {
    ghost var keeps := (t, rest) => Inv(dag, l, t, rest);
    forall t, rest | rest != [] && keeps(t, rest)
      ensures keeps(Absorb(t, rest[0]), SentOn(dag, t, rest[0]) + rest[1..])
    {
      AbsorbKeeps(dag, l, t, rest);
    }
    DeliverInduction(dag, s, todo, keeps);
  }
}
