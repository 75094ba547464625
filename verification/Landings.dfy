/** What a received result does to the state apart from delivering signals, and that it makes no
    difference whether it happens before or after a delivery it has nothing to do with. */
module Landings {
  import opened Workflow
  import opened Graph
  import opened DagModel
  import opened Scheduler
  import opened SchedulerInvariant
  import opened LoopSteps
  import opened LoopFree
  import opened Delivery

  // ---- A change that a delivery does not notice ----

  ghost predicate Unnoticed(dag: Dag, put: State -> State, s: State, x: Signal)
  {
    Absorb(put(s), x) == put(Absorb(s, x)) && SentOn(dag, put(s), x) == SentOn(dag, s, x)
  }

  lemma {:induction false} DeliverThrough(
    dag: Dag, put: State -> State, ok: (State, seq<Signal>) -> bool, s: State, todo: seq<Signal>)
    requires ok(s, todo)
    requires forall t, x, rest {:trigger ok(t, [x] + rest)} ::
      ok(t, [x] + rest) ==> ok(Absorb(t, x), SentOn(dag, t, x) + rest) && Unnoticed(dag, put, t, x)
    ensures Deliver(dag, put(s), todo) == put(Deliver(dag, s, todo)) && ok(Deliver(dag, s, todo), [])
    decreases dag.nodes.Keys - s.skipped, |todo|
  {
    if todo != [] {
      var x, rest := todo[0], todo[1..];
      assert todo == [x] + rest;
      assert ok(s, [x] + rest);
      AbsorbShrinks(dag, s, x);
      DeliverThrough(dag, put, ok, Absorb(s, x), SentOn(dag, s, x) + rest);
    }
  }

  // ---- An ordinary node's result ----

  /** Which reaction a signal gets depends on three fields only. */
  lemma SameReact(dag: Dag, s: State, t: State, x: Signal)
    requires PendingOf(t, x.target) == PendingOf(s, x.target)
    requires (x.target in t.skipped <==> x.target in s.skipped) && (x.target in t.hasLive <==> x.target in s.hasLive)
    ensures React(t, x) == React(s, x) && SentOn(dag, t, x) == SentOn(dag, s, x)
  {
  }

  lemma WithOneLess<T>(m: multiset<T>, g: T, x: T, added: bool)
    requires g in m
    ensures WithOne(m - multiset{g}, x, added) == WithOne(m, x, added) - multiset{g}
  {
  }

  lemma LandingTouched(s: State, g: Flight, r: Outcome, x: Signal, p: Reaction, sx: State, tx: State)
    requires r.Succeeded? && g in s.inflight && Touched(s, sx, x, p) && Touched(Landing(s, g, r), tx, x, p)
    ensures tx == Landing(sx, g, r)
  {
    WithOneLess(s.inflight, g, Waiting(x.target), p == Launches);
    SameState(tx, Landing(sx, g, r));
  }

  lemma LandingUnnoticed(dag: Dag, s: State, g: Flight, r: Outcome, x: Signal)
    requires r.Succeeded? && g in s.inflight
    ensures Absorb(Landing(s, g, r), x) == Landing(Absorb(s, x), g, r)
    ensures SentOn(dag, Landing(s, g, r), x) == SentOn(dag, s, x)
    ensures g in Absorb(s, x).inflight
  {
    var t := Landing(s, g, r);
    SameReact(dag, s, t, x);
    AbsorbTouches(s, x);
    AbsorbTouches(t, x);
    LandingTouched(s, g, r, x, React(s, x), Absorb(s, x), Absorb(t, x));
  }

  lemma LandingThrough(dag: Dag, s: State, todo: seq<Signal>, g: Flight, r: Outcome)
    requires r.Succeeded? && g in s.inflight
    ensures Deliver(dag, Landing(s, g, r), todo) == Landing(Deliver(dag, s, todo), g, r)
    ensures g in Deliver(dag, s, todo).inflight
  {
    ghost var put := (t: State) => Landing(t, g, r);
    ghost var ok := (t: State, rest: seq<Signal>) => g in t.inflight;
    forall t, x, rest | ok(t, [x] + rest)
      ensures ok(Absorb(t, x), SentOn(dag, t, x) + rest) && Unnoticed(dag, put, t, x)
    {
      LandingUnnoticed(dag, t, g, r, x);
    }
    DeliverThrough(dag, put, ok, s, todo);
  }

  // ---- A flight reading its data ----

  /** Flight `v` has read `inputs`. */
  function Reads(s: State, v: NodeId, inputs: Inputs): State
  {
    s.(inflight := s.inflight - multiset{Waiting(v)} + multiset{Running(v, inputs)})
  }

  lemma WithOneSwapped<T>(m: multiset<T>, g: T, h: T, x: T, added: bool)
    requires g in m
    ensures WithOne(m - multiset{g} + multiset{h}, x, added) == WithOne(m, x, added) - multiset{g} + multiset{h}
  {
  }

  lemma ReadsTouched(s: State, v: NodeId, inputs: Inputs, x: Signal, p: Reaction, sx: State, tx: State)
    requires Waiting(v) in s.inflight && Touched(s, sx, x, p) && Touched(Reads(s, v, inputs), tx, x, p)
    ensures tx == Reads(sx, v, inputs)
  {
    WithOneSwapped(s.inflight, Waiting(v), Running(v, inputs), Waiting(x.target), p == Launches);
    SameState(tx, Reads(sx, v, inputs));
  }

  lemma ReadsUnnoticed(dag: Dag, s: State, v: NodeId, inputs: Inputs, x: Signal)
    requires Waiting(v) in s.inflight
    ensures Absorb(Reads(s, v, inputs), x) == Reads(Absorb(s, x), v, inputs)
    ensures SentOn(dag, Reads(s, v, inputs), x) == SentOn(dag, s, x)
    ensures Waiting(v) in Absorb(s, x).inflight
  {
    var t := Reads(s, v, inputs);
    SameReact(dag, s, t, x);
    AbsorbTouches(s, x);
    AbsorbTouches(t, x);
    ReadsTouched(s, v, inputs, x, React(s, x), Absorb(s, x), Absorb(t, x));
  }

  lemma ReadsThrough(dag: Dag, s: State, todo: seq<Signal>, v: NodeId, inputs: Inputs)
    requires Waiting(v) in s.inflight
    ensures Deliver(dag, Reads(s, v, inputs), todo) == Reads(Deliver(dag, s, todo), v, inputs)
    ensures Waiting(v) in Deliver(dag, s, todo).inflight
  {
    ghost var put := (t: State) => Reads(t, v, inputs);
    ghost var ok := (t: State, rest: seq<Signal>) => Waiting(v) in t.inflight;
    forall t, x, rest | ok(t, [x] + rest)
      ensures ok(Absorb(t, x), SentOn(dag, t, x) + rest) && Unnoticed(dag, put, t, x)
    {
      ReadsUnnoticed(dag, t, v, inputs, x);
    }
    DeliverThrough(dag, put, ok, s, todo);
  }

  // ---- A controller's result ----

  /** The controller leaves the loop: its result is recorded, and the body marked as skipped. */
  function Quits(l: Loop, s: State, f: Flight, r: Outcome): State
    requires r.Succeeded?
  {
    Left(l, Record(s, f, r), f.node, r.routing)
  }

  lemma WithMore<T>(s: set<T>, body: set<T>, x: T, added: bool)
    ensures With(s + body, x, added) == With(s, x, added) + body
  {
  }

  lemma QuitsTouched(l: Loop, s: State, f: Flight, r: Outcome, x: Signal, p: Reaction, sx: State, tx: State)
    requires r.Succeeded? && f in s.inflight && Touched(s, sx, x, p) && Touched(Quits(l, s, f, r), tx, x, p)
    ensures tx == Quits(l, sx, f, r)
  {
    WithOneLess(s.inflight, f, Waiting(x.target), p == Launches);
    WithMore(s.skipped, l.body, x.target, p == Skips);
    SameState(tx, Quits(l, sx, f, r));
  }

  lemma QuitsUnnoticed(dag: Dag, l: Loop, s: State, f: Flight, r: Outcome, x: Signal)
    requires r.Succeeded? && f in s.inflight && x.target !in l.body
    ensures Absorb(Quits(l, s, f, r), x) == Quits(l, Absorb(s, x), f, r)
    ensures SentOn(dag, Quits(l, s, f, r), x) == SentOn(dag, s, x)
    ensures f in Absorb(s, x).inflight
  {
    var t := Quits(l, s, f, r);
    SameReact(dag, s, t, x);
    AbsorbTouches(s, x);
    AbsorbTouches(t, x);
    QuitsTouched(l, s, f, r, x, React(s, x), Absorb(s, x), Absorb(t, x));
  }

  /** The controller asks for another pass: its result is recorded, and the pass started. */
  function Passes(dag: Dag, s: State, f: Flight, r: Outcome): State
    requires r.Succeeded?
  {
    StartPass(dag, Record(s, f, r), f.node)
  }

  lemma PassPendingElsewhere(dag: Dag, pending: map<NodeId, int>, c: NodeId, w: NodeId, i: int)
    requires w != c && w !in dag.BodyOf(c)
    ensures PassPending(dag, pending[w := i], c) == PassPending(dag, pending, c)[w := i]
    ensures w in PassPending(dag, pending, c) <==> w in pending
    ensures w in pending ==> PassPending(dag, pending, c)[w] == pending[w]
  {
  }

  lemma WithLess<T>(s: set<T>, body: set<T>, x: T, added: bool)
    requires x !in body
    ensures With(s - body, x, added) == With(s, x, added) - body
  {
  }

  lemma WithOneMore<T>(m: multiset<T>, extra: multiset<T>, x: T, added: bool)
    ensures WithOne(m + extra, x, added) == WithOne(m, x, added) + extra
  {
  }

  /** A started pass, field by field. */
  ghost predicate Passed(dag: Dag, s: State, t: State, f: Flight, r: Outcome)
    requires r.Succeeded?
  {
    PassedCounters(dag, s, t, f.node) && PassedFlying(dag, s, t, f) && PassedRecords(dag, s, t, f, r)
  }

  ghost predicate PassedCounters(dag: Dag, s: State, t: State, c: NodeId)
  {
    var body, roots := dag.BodyOf(c), BodyRoots(dag, c);
    && t.pending == PassPending(dag, s.pending, c)
    && t.skipped == s.skipped - body && t.hasLive == s.hasLive - body + roots
    && t.started == s.started - body - {c} + roots
  }

  ghost predicate PassedFlying(dag: Dag, s: State, t: State, f: Flight)
  {
    var roots := BodyRoots(dag, f.node);
    && t.inflight == s.inflight - multiset{f} + multiset(Flights(roots)) && t.launched == s.launched + multiset(roots)
    && t.dispatched == s.dispatched + |roots|
  }

  /** What a pass does to the fields that no delivery touches. */
  ghost predicate PassedRecords(dag: Dag, s: State, t: State, f: Flight, r: Outcome)
    requires r.Succeeded?
  {
    var c, pass := f.node, IterationsOf(s, f.node) + 1;
    && t.nodeResults == s.nodeResults[c := NodeSucceeded(r.output)]
    && t.outputs == s.outputs[c := r.output][LOOP_STATE := map["iteration" := Int(pass)]]
    && t.loopIterations == s.loopIterations[c := pass]
    && t.ancestors == s.ancestors[c := (if c in s.ancestors then s.ancestors[c] else {}) + {LOOP_STATE} + dag.BodyOf(c)]
    && t.routed == s.routed - dag.BodyOf(c) && t.received == s.received + 1
    && t.passes == s.passes + 1 && t.exited == s.exited && t.firstErr == s.firstErr
  }

  lemma PassesCounters(dag: Dag, s: State, f: Flight, r: Outcome)
    requires r.Succeeded?
    ensures PassedCounters(dag, s, Passes(dag, s, f, r), f.node)
  {
  }

  lemma PassesFlying(dag: Dag, s: State, f: Flight, r: Outcome)
    requires r.Succeeded?
    ensures PassedFlying(dag, s, Passes(dag, s, f, r), f)
  {
  }

  lemma PassesRecords(dag: Dag, s: State, f: Flight, r: Outcome)
    requires r.Succeeded?
    ensures PassedRecords(dag, s, Passes(dag, s, f, r), f, r)
  {
    var u := Record(s, f, r);
    StartPassRecords(dag, u, f.node);
    StartPassShows(dag, u, f.node);
    RecordThenPass(dag, s, u, Passes(dag, s, f, r), f, r);
  }

  lemma RecordThenPass(dag: Dag, s: State, u: State, t: State, f: Flight, r: Outcome)
    requires r.Succeeded? && u == Record(s, f, r) && PassRecorded(dag, u, t, f.node)
    requires t.ancestors == u.ancestors[f.node :=
      (if f.node in u.ancestors then u.ancestors[f.node] else {}) + {LOOP_STATE} + dag.BodyOf(f.node)]
    ensures PassedRecords(dag, s, t, f, r)
  {
  }

  lemma PassesIsPassed(dag: Dag, s: State, f: Flight, r: Outcome)
    requires r.Succeeded?
    ensures Passed(dag, s, Passes(dag, s, f, r), f, r)
  {
    PassesCounters(dag, s, f, r);
    PassesFlying(dag, s, f, r);
    PassesRecords(dag, s, f, r);
  }

  lemma PassedPending(dag: Dag, s: State, t: State, c: NodeId, x: Signal, p: Reaction, sx: State, tx: State, u: State)
    requires x.target != c && x.target !in dag.BodyOf(c)
    requires t.pending == PassPending(dag, s.pending, c) && u.pending == PassPending(dag, sx.pending, c)
    requires Touched(s, sx, x, p) && Touched(t, tx, x, p)
    ensures tx.pending == u.pending
  {
    var w := x.target;
    PassPendingElsewhere(dag, s.pending, c, w, PendingOf(s, w) - 1);
    PendingElsewhere(dag, s, t, c, w);
  }

  lemma PendingElsewhere(dag: Dag, s: State, t: State, c: NodeId, w: NodeId)
    requires w != c && w !in dag.BodyOf(c) && t.pending == PassPending(dag, s.pending, c)
    ensures PendingOf(t, w) == PendingOf(s, w)
  {
  }

  lemma RemadeSet(s: set<NodeId>, cut: set<NodeId>, roots: set<NodeId>, w: NodeId, added: bool)
    requires w !in cut
    ensures With(s - cut + roots, w, added) == With(s, w, added) - cut + roots
  {
  }

  lemma PassedSets(dag: Dag, s: State, t: State, c: NodeId, x: Signal, p: Reaction, sx: State, tx: State, u: State)
    requires x.target != c && x.target !in dag.BodyOf(c)
    requires PassedCounters(dag, s, t, c) && Touched(s, sx, x, p) && Touched(t, tx, x, p)
    requires PassedCounters(dag, sx, u, c)
    ensures tx.pending == u.pending && tx.skipped == u.skipped && tx.hasLive == u.hasLive && tx.started == u.started
  {
    var body, roots, w := dag.BodyOf(c), BodyRoots(dag, c), x.target;
    PassedPending(dag, s, t, c, x, p, sx, tx, u);
    WithLess(s.skipped, body, w, p == Skips);
    RemadeSet(s.hasLive, body, roots, w, x.kind == Live);
    RemadeSet(s.started, body + {c}, roots, w, p == Launches);
    assert s.started - body - {c} == s.started - (body + {c}) && sx.started - body - {c} == sx.started - (body + {c});
  }

  lemma PassedFlights(dag: Dag, s: State, t: State, f: Flight, x: Signal, p: Reaction, sx: State, tx: State, u: State)
    requires f in s.inflight
    requires PassedFlying(dag, s, t, f) && Touched(s, sx, x, p) && Touched(t, tx, x, p) && PassedFlying(dag, sx, u, f)
    ensures tx.inflight == u.inflight && tx.launched == u.launched && tx.dispatched == u.dispatched
  {
    var roots := BodyRoots(dag, f.node);
    WithOneLess(s.inflight, f, Waiting(x.target), p == Launches);
    WithOneMore(s.inflight - multiset{f}, multiset(Flights(roots)), Waiting(x.target), p == Launches);
    WithOneMore(s.launched, multiset(roots), x.target, p == Launches);
  }

  lemma PassesUnnoticed(dag: Dag, s: State, f: Flight, r: Outcome, x: Signal)
    requires r.Succeeded? && f in s.inflight && x.target != f.node && x.target !in dag.BodyOf(f.node)
    ensures Absorb(Passes(dag, s, f, r), x) == Passes(dag, Absorb(s, x), f, r)
    ensures SentOn(dag, Passes(dag, s, f, r), x) == SentOn(dag, s, x)
    ensures f in Absorb(s, x).inflight
  {
    var t, sx := Passes(dag, s, f, r), Absorb(s, x);
    PassesIsPassed(dag, s, f, r);
    PassedReact(dag, s, t, f.node, x);
    AbsorbTouches(s, x);
    AbsorbTouches(t, x);
    PassesIsPassed(dag, sx, f, r);
    var tx, u := Absorb(t, x), Passes(dag, sx, f, r);
    PassedSets(dag, s, t, f.node, x, React(s, x), sx, tx, u);
    PassedFlights(dag, s, t, f, x, React(s, x), sx, tx, u);
    PassedSame(dag, s, t, f, r, sx, tx, u);
  }

  lemma PassedReact(dag: Dag, s: State, t: State, c: NodeId, x: Signal)
    requires PassedCounters(dag, s, t, c) && x.target != c && x.target !in dag.BodyOf(c)
    ensures React(t, x) == React(s, x) && SentOn(dag, t, x) == SentOn(dag, s, x)
  {
    PendingElsewhere(dag, s, t, c, x.target);
    assert x.target !in BodyRoots(dag, c);
    SameReact(dag, s, t, x);
  }

  lemma PassedSame(dag: Dag, s: State, t: State, f: Flight, r: Outcome, sx: State, tx: State, u: State)
    requires r.Succeeded? && SameOutside(s, sx) && SameOutside(t, tx)
    requires PassedRecords(dag, s, t, f, r) && PassedRecords(dag, sx, u, f, r)
    requires tx.pending == u.pending && tx.skipped == u.skipped && tx.hasLive == u.hasLive && tx.started == u.started
    requires tx.inflight == u.inflight && tx.launched == u.launched && tx.dispatched == u.dispatched
    ensures tx == u
  {
    SameState(tx, u);
  }

  // ---- Deliveries beside a controller in flight ----

  /** No signal is for the loop. */
  ghost predicate Outside(l: Loop, todo: seq<Signal>)
  {
    forall sig :: sig in todo ==> sig.target !in l.body && sig.target !in l.ctrl
  }

  /** While the controller is dispatched and not routed, its forward predecessors have settled. */
  lemma ControllerPreds(dag: Dag, l: Loop, s: State, todo: seq<Signal>, c: NodeId, e: Edge)
    requires Fenced(dag, l) && Inv(dag, l, s, todo) && c in l.ctrl && c in s.started && e in dag.forward
    requires e.target == c
    ensures IsSettled(s, e.source)
  {
    if Looping(s) {
      assert ReadyOK(l, s, e);
    } else {
      assert CountOK(dag, l, s, todo, c) && OnceOK(s, c);
      CountZero(dag.forward, dag.nodes.Keys - Settled(s), c);
    }
  }

  ghost predicate Beside(dag: Dag, l: Loop, f: Flight, t: State, rest: seq<Signal>)
  {
    Inv(dag, l, t, rest) && f in t.inflight && Outside(l, rest)
  }

  lemma SkippedOutside(dag: Dag, l: Loop, s: State, todo: seq<Signal>, c: NodeId, v: NodeId)
    requires Fenced(dag, l) && Inv(dag, l, s, todo) && l.ctrl == {c} && c in s.started
    requires v !in l.body && v !in l.ctrl && !IsSettled(s, v)
    ensures Outside(l, SuppressAll(dag.Out(v)))
  {
    SuppressKinds(dag.Out(v));
    forall e | e in dag.Out(v)
      ensures e.target !in l.body && e.target !in l.ctrl
    {
      assert dag.Out(v) == dag.outEdges[v];
      assert EdgeRule(l, e);
      if e.target == c {
        ControllerPreds(dag, l, s, todo, c, e);
      }
    }
  }

  lemma BesideKept(dag: Dag, l: Loop, f: Flight, t: State, x: Signal, rest: seq<Signal>)
    requires Fenced(dag, l) && l.ctrl == {f.node} && Beside(dag, l, f, t, [x] + rest)
    ensures Beside(dag, l, f, Absorb(t, x), SentOn(dag, t, x) + rest)
    ensures x.target !in l.body && x.target != f.node
  {
    assert x in [x] + rest;
    assert FlightOK(l, t, f);
    AbsorbOne(dag, l, t, x, rest);
    AbsorbTouches(t, x);
    SentOutside(dag, l, t, x, rest, f.node);
  }

  lemma AbsorbOne(dag: Dag, l: Loop, t: State, x: Signal, rest: seq<Signal>)
    requires Fenced(dag, l) && Inv(dag, l, t, [x] + rest)
    ensures Inv(dag, l, Absorb(t, x), SentOn(dag, t, x) + rest) && SignalFits(dag, l, t, x)
  {
    var todo := [x] + rest;
    assert todo[0] == x && todo[1..] == rest;
    AbsorbKeeps(dag, l, t, todo);
    CountedKeeps(dag, l, t, todo);
  }

  lemma SentOutside(dag: Dag, l: Loop, t: State, x: Signal, rest: seq<Signal>, c: NodeId)
    requires Fenced(dag, l) && Inv(dag, l, t, [x] + rest) && l.ctrl == {c} && c in t.started && Outside(l, [x] + rest)
    requires !IsSettled(t, x.target)
    ensures Outside(l, SentOn(dag, t, x) + rest)
  {
    var todo := [x] + rest;
    assert x in todo;
    if React(t, x) == Skips {
      SkippedOutside(dag, l, t, todo, c, x.target);
    }
    assert forall sig :: sig in rest ==> sig in todo;
  }

  lemma QuitsThrough(dag: Dag, l: Loop, s: State, todo: seq<Signal>, f: Flight, r: Outcome)
    requires Fenced(dag, l) && l.ctrl == {f.node} && r.Succeeded? && Beside(dag, l, f, s, todo)
    ensures Deliver(dag, Quits(l, s, f, r), todo) == Quits(l, Deliver(dag, s, todo), f, r)
    ensures f in Deliver(dag, s, todo).inflight
  {
    ghost var put := (t: State) => Quits(l, t, f, r);
    ghost var ok := (t: State, rest: seq<Signal>) => Beside(dag, l, f, t, rest);
    forall t, x, rest | ok(t, [x] + rest)
      ensures ok(Absorb(t, x), SentOn(dag, t, x) + rest) && Unnoticed(dag, put, t, x)
    {
      BesideKept(dag, l, f, t, x, rest);
      QuitsUnnoticed(dag, l, t, f, r, x);
    }
    DeliverThrough(dag, put, ok, s, todo);
  }

  lemma PassesThrough(dag: Dag, l: Loop, s: State, todo: seq<Signal>, f: Flight, r: Outcome)
    requires Fenced(dag, l) && l.ctrl == {f.node} && dag.BodyOf(f.node) == l.body && r.Succeeded?
    requires Beside(dag, l, f, s, todo)
    ensures Deliver(dag, Passes(dag, s, f, r), todo) == Passes(dag, Deliver(dag, s, todo), f, r)
    ensures f in Deliver(dag, s, todo).inflight
  {
    ghost var put := (t: State) => Passes(dag, t, f, r);
    ghost var ok := (t: State, rest: seq<Signal>) => Beside(dag, l, f, t, rest);
    forall t, x, rest | ok(t, [x] + rest)
      ensures ok(Absorb(t, x), SentOn(dag, t, x) + rest) && Unnoticed(dag, put, t, x)
    {
      BesideKept(dag, l, f, t, x, rest);
      PassesUnnoticed(dag, t, f, r, x);
    }
    DeliverThrough(dag, put, ok, s, todo);
  }
}
