/** A run that takes the nodes one at a time does what the one-at-a-time meaning says, turn by turn:
    ordinary nodes, the nodes of a pass, and the controller with all its passes. */
module LoopSimulation {
  import opened Workflow
  import opened Graph
  import opened DagModel
  import opened Scheduler
  import opened SchedulerInvariant
  import opened LoopSteps
  import opened LoopFree
  import opened LoopCauses
  import opened LoopSure
  import opened LoopIsolation
  import opened Completion
  import opened Sequential
  import opened Confluence
  import opened Landings
  import opened Diamond
  import opened StepsCommute
  import opened LoopConfluence
  import opened LoopExit
  import opened LoopCompletion
  import opened LoopMeaning

  // ---- Runs that follow the handlers ----

  /** Some run of the handlers leads to `s`. */
  ghost predicate Reached(dag: Dag, h: Handler, init: Data, s: State)
  {
    exists steps :: IsRun(dag, init, steps) && Obeys(h, steps) && After(dag, init, steps) == s
  }

  /** What holds of every state that a run without an error reaches. */
  ghost predicate Sound(dag: Dag, l: Loop, s: State)
  {
    && Inv(dag, l, s, []) && Why(dag, l, s, []) && Prompt(dag, l, s) && Sees(dag, l, s) && DeadEnd(l, s)
    && s.firstErr == None && forall c :: c in l.ctrl ==> LeftOK(dag, s, c)
  }

  lemma {:induction false} RunSteady(dag: Dag, l: Loop, init: Data, steps: seq<Step>)
    requires Ready(dag, l) && IsRun(dag, init, steps) && After(dag, init, steps).firstErr == None
    ensures Steady(dag, l, After(dag, init, steps))
  {
    if steps == [] {
      StartIsSteady(dag, l, init);
    } else {
      LastStep(dag, init, steps);
      LastStepSucceeds(dag, init, steps);
      RunSteady(dag, l, init, steps[..|steps| - 1]);
      StaysSteady(dag, l, After(dag, init, steps[..|steps| - 1]), steps[|steps| - 1]);
    }
  }

  lemma ReachedIsSound(dag: Dag, l: Loop, h: Handler, init: Data, s: State)
    requires Ready(dag, l) && Reached(dag, h, init, s) && s.firstErr == None
    ensures Sound(dag, l, s)
  {
    var steps :| IsRun(dag, init, steps) && Obeys(h, steps) && After(dag, init, steps) == s;
    RunSteady(dag, l, init, steps);
    RunWhy(dag, l, init, steps);
    RunPrompt(dag, l, init, steps);
    RunDeadEnd(dag, l, init, steps);
    forall c | c in l.ctrl
      ensures LeftOK(dag, s, c)
    {
      RunLeft(dag, l, init, steps, c);
    }
  }

  lemma ReachesNext(dag: Dag, h: Handler, init: Data, s: State, x: Step)
    requires Reached(dag, h, init, s) && Enabled(s, x) && Honest(h, x)
    ensures Reached(dag, h, init, Apply(dag, s, x))
  {
    var steps :| IsRun(dag, init, steps) && Obeys(h, steps) && After(dag, init, steps) == s;
    RunExtends(dag, init, steps, x);
    ObeysMore(h, steps, x);
  }

  // ---- One node at a time ----

  /** No flight has read its data yet. */
  predicate AllWaiting(s: State)
  {
    forall f :: f in s.inflight ==> f.Waiting?
  }

  /** `v` reads its data. */
  function Informed(dag: Dag, s: State, v: NodeId): State
  {
    Apply(dag, s, Read(v))
  }

  /** `v` reads its data and answers. */
  function Executed(dag: Dag, h: Handler, s: State, v: NodeId): State
  {
    Receive(dag, Informed(dag, s, v), Running(v, Upstream(s, v)), h(v, Upstream(s, v)))
  }

  lemma ExecutedIsReached(dag: Dag, h: Handler, init: Data, s: State, v: NodeId)
    requires Reached(dag, h, init, s) && Waiting(v) in s.inflight
    ensures Reached(dag, h, init, Executed(dag, h, s, v))
    ensures h(v, Upstream(s, v)).Failed? ==> Executed(dag, h, s, v).firstErr != None
  {
    var u, f, r := Informed(dag, s, v), Running(v, Upstream(s, v)), h(v, Upstream(s, v));
    ReachesNext(dag, h, init, s, Read(v));
    assert f in u.inflight;
    ReachesNext(dag, h, init, u, Recv(f, r));
    if r.Failed? {
      FailureStays(dag, u, f, r);
    }
  }

  lemma OneReader(dag: Dag, s: State, v: NodeId, t: State)
    requires AllWaiting(s)
    requires forall g :: g in t.inflight && g.Running? ==>
      g in Informed(dag, s, v).inflight - multiset{Running(v, Upstream(s, v))}
    ensures AllWaiting(t)
  {
    var f := Running(v, Upstream(s, v));
    assert s.inflight[f] == 0;
  }

  /** What an ordinary node's execution does to the records. */
  ghost predicate Added(s: State, t: State, v: NodeId, r: Outcome)
    requires r.Succeeded?
  {
    && t.firstErr == None && t.outputs == s.outputs[v := r.output] && t.routed == s.routed[v := r.routing]
    && t.passes == s.passes && t.exited == s.exited && s.skipped <= t.skipped && AllWaiting(t)
  }

  lemma OrdinaryExecuted(dag: Dag, l: Loop, h: Handler, s: State, v: NodeId)
    requires Shape(dag, l) && s.firstErr == None && AllWaiting(s) && v !in l.ctrl && h(v, Upstream(s, v)).Succeeded?
    ensures Added(s, Executed(dag, h, s, v), v, h(v, Upstream(s, v)))
  {
    var u, f, r := Informed(dag, s, v), Running(v, Upstream(s, v)), h(v, Upstream(s, v));
    TypeOfController(dag, l, v);
    ReceiveFlights(dag, l, u, f, r);
    OneReader(dag, s, v, Executed(dag, h, s, v));
    ReceiveLands(dag, u, f, r);
    LandingLands(u, f, r);
    DeliverSame(dag, Landing(u, f, r), SignalsOf(dag, v, r.routing));
    DeliverSkipsMore(dag, Landing(u, f, r), SignalsOf(dag, v, r.routing));
  }

  /** What the controller's execution does to the records. */
  ghost predicate Turned(dag: Dag, l: Loop, s: State, t: State, c: NodeId, r: Outcome)
    requires r.Succeeded?
  {
    t.firstErr == None && AllWaiting(t) &&
    if Iterates(dag, s, c, r.routing) then
      && t.outputs == s.outputs[c := r.output][LOOP_STATE := Iteration(IterationsOf(s, c) + 1)]
      && t.routed == s.routed - l.body && t.skipped == s.skipped - l.body
      && t.passes == s.passes + 1 && t.exited == s.exited
    else
      && t.outputs == s.outputs[c := r.output] && t.routed == s.routed[c := r.routing]
      && s.skipped + l.body <= t.skipped && t.passes == s.passes && t.exited
  }

  lemma ControllerExecuted(dag: Dag, l: Loop, h: Handler, s: State, c: NodeId)
    requires Shape(dag, l) && s.firstErr == None && AllWaiting(s) && c in l.ctrl && h(c, Upstream(s, c)).Succeeded?
    ensures Turned(dag, l, s, Executed(dag, h, s, c), c, h(c, Upstream(s, c)))
  {
    var u, f, r := Informed(dag, s, c), Running(c, Upstream(s, c)), h(c, Upstream(s, c));
    TypeOfController(dag, l, c);
    ReceiveFlights(dag, l, u, f, r);
    OneReader(dag, s, c, Executed(dag, h, s, c));
    if Iterates(dag, s, c, r.routing) {
      assert Iterates(dag, u, c, r.routing);
      PassExecuted(dag, l, s, u, f, r);
    } else {
      assert !Iterates(dag, u, c, r.routing);
      LeftExecuted(dag, l, s, u, f, r);
    }
  }

  lemma PassExecuted(dag: Dag, l: Loop, s: State, u: State, f: Flight, r: Outcome)
    requires r.Succeeded? && u.firstErr == None && dag.TypeOf(f.node) == LOOP_CONTROLLER && dag.BodyOf(f.node) == l.body
    requires Iterates(dag, u, f.node, r.routing) && u.exited == s.exited && u.loopIterations == s.loopIterations
    requires u.outputs == s.outputs && u.routed == s.routed && u.skipped == s.skipped && u.passes == s.passes
    ensures var t := Receive(dag, u, f, r);
      && t.outputs == s.outputs[f.node := r.output][LOOP_STATE := Iteration(IterationsOf(s, f.node) + 1)]
      && t.routed == s.routed - l.body && t.skipped == s.skipped - l.body && t.firstErr == None
      && t.passes == s.passes + 1 && t.exited == s.exited
  {
    ReceiveStarts(dag, u, f, r);
    PassesRecords(dag, u, f, r);
    PassesCounters(dag, u, f, r);
    PassFields(dag, l, s, u, Passes(dag, u, f, r), f, r);
  }

  lemma PassFields(dag: Dag, l: Loop, s: State, u: State, t: State, f: Flight, r: Outcome)
    requires r.Succeeded? && PassedRecords(dag, u, t, f, r) && t.skipped == u.skipped - dag.BodyOf(f.node)
    requires u.firstErr == None && dag.BodyOf(f.node) == l.body
    requires u.exited == s.exited && u.loopIterations == s.loopIterations
    requires u.outputs == s.outputs && u.routed == s.routed && u.skipped == s.skipped && u.passes == s.passes
    ensures t.outputs == s.outputs[f.node := r.output][LOOP_STATE := Iteration(IterationsOf(s, f.node) + 1)]
    ensures t.routed == s.routed - l.body && t.skipped == s.skipped - l.body && t.firstErr == None
    ensures t.passes == s.passes + 1 && t.exited == s.exited
  {
    assert IterationsOf(u, f.node) == IterationsOf(s, f.node);
  }

  lemma LeftExecuted(dag: Dag, l: Loop, s: State, u: State, f: Flight, r: Outcome)
    requires r.Succeeded? && u.firstErr == None && dag.TypeOf(f.node) == LOOP_CONTROLLER && dag.BodyOf(f.node) == l.body
    requires !Iterates(dag, u, f.node, r.routing)
    requires u.outputs == s.outputs && u.routed == s.routed && u.skipped == s.skipped && u.passes == s.passes
    ensures var t := Receive(dag, u, f, r);
      && t.outputs == s.outputs[f.node := r.output] && t.routed == s.routed[f.node := r.routing] && t.firstErr == None
      && s.skipped + l.body <= t.skipped && t.passes == s.passes && t.exited
  {
    var w, todo := Quits(l, u, f, r), SignalsOf(dag, f.node, r.routing);
    ReceiveQuits(dag, l, u, f, r);
    LandingLands(u, f, r);
    QuitsMarks(l, u, f, r);
    DeliverSame(dag, w, todo);
    DeliverSkipsMore(dag, w, todo);
  }

  // ---- A state that is like an account ----

  /** What the account says of a node whose turn has been, and that it says nothing of the others. */
  ghost predicate LikeAt(l: Loop, s: State, m: Account, seen: set<NodeId>, v: NodeId)
  {
    if v in seen then
      && (v in s.skipped <==> v in m.skipped)
      && (IsSettled(s, v) || (Looping(s) && v !in s.started && v !in l.body))
    else v !in s.routed && v !in m.skipped
  }

  ghost predicate SameRecord(s: State, m: Account)
  {
    && s.outputs == m.outputs && s.routed == m.routing && s.passes == m.passes && s.exited == m.over
    && s.firstErr == None && m.error == None && AllWaiting(s)
  }

  ghost predicate Like(dag: Dag, l: Loop, s: State, m: Account, seen: set<NodeId>)
  {
    && SameRecord(s, m) && m.skipped <= dag.nodes.Keys
    && forall v {:trigger LikeAt(l, s, m, seen, v)} :: v in dag.nodes ==> LikeAt(l, s, m, seen, v)
  }

  /** The sources the counter of `v` waits for have had their turn. */
  ghost predicate Preceded(dag: Dag, l: Loop, s: State, seen: set<NodeId>, v: NodeId)
  {
    forall e :: e in dag.forward && e.target == v && e.source in Sources(dag, l, s, v) ==> e.source in seen
  }

  ghost predicate AllDecided(dag: Dag, l: Loop, s: State, v: NodeId)
  {
    forall e :: e in dag.forward && e.target == v && e.source in Sources(dag, l, s, v) ==> IsSettled(s, e.source)
  }

  /** A node that is waiting for its turn. */
  predicate Next(dag: Dag, l: Loop, s: State, seen: set<NodeId>, v: NodeId)
  {
    v in dag.nodes && v !in seen && !(v in l.ctrl && Looping(s)) && !Frozen(l, s, v)
  }

  /** The reason to dispatch `v`. */
  predicate Called(dag: Dag, l: Loop, s: State, v: NodeId)
  {
    IsRoot(dag, v) || Heads(dag, l, s, v) || AnyFires(dag, s.routed, v)
  }

  lemma Owing(dag: Dag, l: Loop, s: State, v: NodeId)
    requires Inv(dag, l, s, []) && v in dag.nodes && !Frozen(l, s, v) && !(v in l.ctrl && Looping(s))
    ensures PendingOf(s, v) == 0 <==> AllDecided(dag, l, s, v)
    ensures PendingOf(s, v) >= 0
  {
    assert CountOK(dag, l, s, [], v);
    CountZero(dag.forward, Sources(dag, l, s, v) - Settled(s), v);
  }

  /** When all its predecessors are decided, a node is dispatched if it is called and skipped otherwise. */
  lemma DueNode(dag: Dag, l: Loop, s: State, m: Account, seen: set<NodeId>, v: NodeId)
    requires Sound(dag, l, s) && Like(dag, l, s, m, seen) && Next(dag, l, s, seen, v) && AllDecided(dag, l, s, v)
    ensures if Called(dag, l, s, v) then Waiting(v) in s.inflight && v !in s.skipped else v in s.skipped
    ensures v !in s.routed && v !in m.skipped
  {
    Owing(dag, l, s, v);
    assert LikeAt(l, s, m, seen, v) && DoneOK(s, v) && OnceOK(s, v);
    assert HeardOK(dag, l, s, [], v) && WhyOK(dag, l, s, v);
    if Called(dag, l, s, v) {
      var f :| f in s.inflight && f.node == v;
      assert f == Waiting(v);
    }
  }

  /** Otherwise it is left alone. */
  lemma BlockedNode(dag: Dag, l: Loop, s: State, v: NodeId)
    requires Inv(dag, l, s, []) && v in dag.nodes && !Frozen(l, s, v) && v !in l.ctrl && !AllDecided(dag, l, s, v)
    ensures v !in s.started && v !in s.skipped && v !in s.routed
  {
    Owing(dag, l, s, v);
    assert OnceOK(s, v);
  }

  // ---- What has had its turn stays as it is ----

  /** Outside the body, what precedes a node that had its turn had its turn. */
  ghost predicate Closed(dag: Dag, l: Loop, seen: set<NodeId>)
  {
    forall e :: e in dag.forward && e.target in seen && e.target !in l.body ==> e.source in seen
  }

  lemma SettledStays(dag: Dag, l: Loop, s: State, t: State, w: NodeId)
    requires Inv(dag, l, s, []) && Inv(dag, l, t, []) && w in dag.nodes && IsSettled(s, w)
    requires t.exited == s.exited && s.skipped <= t.skipped && s.routed.Keys <= t.routed.Keys
    ensures IsSettled(t, w) && (w in t.skipped <==> w in s.skipped)
  {
    if Frozen(l, s, w) {
      assert l.body <= s.skipped;
    } else {
      assert OnceOK(s, w) && OnceOK(t, w);
    }
  }

  /** A controller that waits for its body goes on waiting when another node is executed. */
  lemma ControllerStays(dag: Dag, l: Loop, s: State, t: State, v: NodeId, c: NodeId)
    requires Shape(dag, l) && Sound(dag, l, s) && Sound(dag, l, t) && c in l.ctrl && Looping(s)
    requires t.passes == s.passes && t.exited == s.exited && t.routed.Keys == s.routed.Keys + {v}
    requires v !in l.body && v != c
    requires !IsSettled(s, c) && c !in s.started
    ensures !IsSettled(t, c) && c !in t.started
  {
    if l.body != {} {
      SameBackCount(dag, l, s, t, v, c);
      OwesMore(dag, l, s, c);
    }
    assert OnceOK(t, c);
  }

  lemma OwesMore(dag: Dag, l: Loop, s: State, c: NodeId)
    requires Prompt(dag, l, s) && c in dag.nodes && c !in l.body && l.body != {} && !IsSettled(s, c) && c !in s.started
    ensures PendingOf(s, c) != 0
  {
    assert DoneOK(s, c);
  }

  lemma SameBackCount(dag: Dag, l: Loop, s: State, t: State, v: NodeId, c: NodeId)
    requires Fenced(dag, l) && Counts(dag, l, s, []) && Counts(dag, l, t, []) && c in l.ctrl && Looping(s) && Looping(t)
    requires t.routed.Keys == s.routed.Keys + {v} && v !in l.body
    ensures PendingOf(t, c) == PendingOf(s, c)
  {
    assert CountOK(dag, l, s, [], c) && CountOK(dag, l, t, [], c);
    CountSame(dag.loopBack, dag.nodes.Keys - s.routed.Keys, dag.nodes.Keys - t.routed.Keys, c);
  }

  /** The controller, if it waits for its body, goes on waiting. */
  ghost predicate StillWaits(l: Loop, s: State, t: State, seen: set<NodeId>)
  {
    forall c :: c in l.ctrl && c in seen && Looping(s) && !IsSettled(s, c) ==> !IsSettled(t, c) && c !in t.started
  }

  lemma ControllersStay(dag: Dag, l: Loop, s: State, t: State, m: Account, seen: set<NodeId>, v: NodeId)
    requires Shape(dag, l) && Sound(dag, l, s) && Sound(dag, l, t) && Like(dag, l, s, m, seen)
    requires t.passes == s.passes && t.exited == s.exited && t.routed.Keys == s.routed.Keys + {v}
    requires v !in seen && v !in l.ctrl && (Looping(s) && l.ctrl <= seen ==> v !in l.body)
    ensures StillWaits(l, s, t, seen)
  {
    forall c | c in l.ctrl && c in seen && Looping(s) && !IsSettled(s, c)
      ensures !IsSettled(t, c) && c !in t.started
    {
      OnlyController(dag, l, c);
      NotStarted(dag, l, s, m, seen, c);
      ControllerStays(dag, l, s, t, v, c);
    }
  }

  /** A node left undecided stays undecided when a later one is executed. */
  lemma {:induction false} UndecidedStays(
    dag: Dag, l: Loop, s: State, t: State, m: Account, seen: set<NodeId>, w: NodeId)
    requires Fenced(dag, l) && IsTopologicalOrder(dag.order, dag.nodes.Keys, dag.forward)
    requires Inv(dag, l, s, []) && Prompt(dag, l, s) && Inv(dag, l, t, []) && t.passes == s.passes
    requires Like(dag, l, s, m, seen) && Closed(dag, l, seen) && StillWaits(l, s, t, seen)
    requires w in seen && w in dag.nodes && w !in l.body && !IsSettled(s, w)
    ensures !IsSettled(t, w) && w !in t.started
    decreases IndexOf(dag.order, w)
  {
    NotStarted(dag, l, s, m, seen, w);
    if !(w in l.ctrl && Looping(s)) {
      var e := Blocking(dag, l, s, w);
      assert e.source in seen && e.source in dag.nodes && PointsLater(dag.order, e);
      UndecidedStays(dag, l, s, t, m, seen, e.source);
      StillBlocked(dag, l, t, e);
    }
  }

  lemma NotStarted(dag: Dag, l: Loop, s: State, m: Account, seen: set<NodeId>, w: NodeId)
    requires Like(dag, l, s, m, seen) && w in dag.nodes && w in seen && !IsSettled(s, w)
    ensures w !in s.started && Looping(s)
  {
    assert LikeAt(l, s, m, seen, w);
  }

  /** A node that has not been dispatched although its turn has come waits for a predecessor. */
  lemma Blocking(dag: Dag, l: Loop, s: State, w: NodeId) returns (e: Edge)
    requires Fenced(dag, l) && Inv(dag, l, s, []) && Prompt(dag, l, s) && w in dag.nodes && w !in l.body
    requires !(w in l.ctrl && Looping(s)) && !IsSettled(s, w) && w !in s.started
    ensures e in dag.forward && e.target == w && e.source !in l.body && !IsSettled(s, e.source)
  {
    Owing(dag, l, s, w);
    assert DoneOK(s, w);
    e :| e in dag.forward && e.target == w && e.source in Sources(dag, l, s, w) && !IsSettled(s, e.source);
    assert EdgeRule(l, e);
  }

  lemma StillBlocked(dag: Dag, l: Loop, t: State, e: Edge)
    requires Fenced(dag, l) && Inv(dag, l, t, []) && e in dag.forward && e.target !in l.body && !IsSettled(t, e.source)
    requires !(e.target in l.ctrl && Looping(t))
    ensures !IsSettled(t, e.target) && e.target !in t.started
  {
    Owing(dag, l, t, e.target);
    assert OnceOK(t, e.target);
  }

  // ---- An ordinary node's turn ----

  /** Some run of the handlers leads to an error if the account has one, and otherwise to a state like it. */
  ghost predicate Simulated(dag: Dag, l: Loop, h: Handler, init: Data, m: Account, seen: set<NodeId>)
  {
    if m.error != None then exists s :: Reached(dag, h, init, s) && s.firstErr != None
    else exists s :: Reached(dag, h, init, s) && Like(dag, l, s, m, seen)
  }

  lemma SameInputs(dag: Dag, l: Loop, s: State, m: Account, v: NodeId)
    requires Sees(dag, l, s) && v in dag.nodes && v !in l.ctrl && s.outputs == m.outputs
    ensures Upstream(s, v) == MergeUpstream(m.outputs, AncestorsOf(dag, v))
  {
    assert SeesOK(dag, l, s, v);
    assert dag.ancestors[v] + {} == dag.ancestors[v];
  }

  /** What `t` says of `w` is what `s` says. */
  predicate StaysOK(l: Loop, s: State, t: State, w: NodeId)
  {
    && (w in t.skipped <==> w in s.skipped)
    && (IsSettled(t, w) || (Looping(t) && w !in t.started && w !in l.body))
  }

  lemma AddedLike(dag: Dag, l: Loop, s: State, t: State, m: Account, seen: set<NodeId>, v: NodeId, r: Outcome)
    requires Like(dag, l, s, m, seen) && v in dag.nodes && v !in seen && r.Succeeded? && Added(s, t, v, r)
    requires v !in t.skipped
    requires forall w {:trigger StaysOK(l, s, t, w)} :: w in dag.nodes && w in seen ==> StaysOK(l, s, t, w)
    ensures Like(dag, l, t, m.(outputs := m.outputs[v := r.output], routing := m.routing[v := r.routing]), seen + {v})
  {
    var n := m.(outputs := m.outputs[v := r.output], routing := m.routing[v := r.routing]);
    forall w | w in dag.nodes
      ensures LikeAt(l, t, n, seen + {v}, w)
    {
      assert LikeAt(l, s, m, seen, w);
      assert w in seen ==> StaysOK(l, s, t, w);
    }
  }

  lemma AddedStays(dag: Dag, l: Loop, s: State, t: State, m: Account, seen: set<NodeId>, v: NodeId, r: Outcome)
    requires Shape(dag, l) && Sound(dag, l, s) && Sound(dag, l, t) && Like(dag, l, s, m, seen) && Closed(dag, l, seen)
    requires Next(dag, l, s, seen, v) && v !in l.ctrl && (Looping(s) && l.ctrl <= seen ==> v !in l.body)
    requires r.Succeeded? && Added(s, t, v, r)
    ensures Like(dag, l, t, m.(outputs := m.outputs[v := r.output], routing := m.routing[v := r.routing]), seen + {v})
  {
    RoutedNotSkipped(dag, l, t, v);
    AddedKeys(s, t, v, r);
    SeenAllStay(dag, l, s, t, m, seen, v);
    AddedLike(dag, l, s, t, m, seen, v, r);
  }

  lemma AddedKeys(s: State, t: State, v: NodeId, r: Outcome)
    requires r.Succeeded? && Added(s, t, v, r)
    ensures t.routed.Keys == s.routed.Keys + {v}
  {
  }

  lemma SeenAllStay(dag: Dag, l: Loop, s: State, t: State, m: Account, seen: set<NodeId>, v: NodeId)
    requires Shape(dag, l) && Sound(dag, l, s) && Sound(dag, l, t) && Like(dag, l, s, m, seen) && Closed(dag, l, seen)
    requires v !in seen && v !in l.ctrl && (Looping(s) && l.ctrl <= seen ==> v !in l.body)
    requires t.passes == s.passes && t.exited == s.exited && t.routed.Keys == s.routed.Keys + {v}
    requires s.skipped <= t.skipped
    ensures forall w {:trigger StaysOK(l, s, t, w)} :: w in dag.nodes && w in seen ==> StaysOK(l, s, t, w)
  {
    forall w | w in dag.nodes && w in seen
      ensures StaysOK(l, s, t, w)
    {
      SeenStays(dag, l, s, t, m, seen, v, w);
    }
  }

  lemma RoutedNotSkipped(dag: Dag, l: Loop, t: State, v: NodeId)
    requires Once(dag, l, t) && v in dag.nodes && !Frozen(l, t, v) && v in t.routed
    ensures v !in t.skipped
  {
    assert OnceOK(t, v);
  }

  lemma SeenStays(dag: Dag, l: Loop, s: State, t: State, m: Account, seen: set<NodeId>, v: NodeId, w: NodeId)
    requires Shape(dag, l) && Sound(dag, l, s) && Sound(dag, l, t) && Like(dag, l, s, m, seen) && Closed(dag, l, seen)
    requires v !in seen && v !in l.ctrl && (Looping(s) && l.ctrl <= seen ==> v !in l.body)
    requires t.passes == s.passes && t.exited == s.exited && t.routed.Keys == s.routed.Keys + {v}
    requires s.skipped <= t.skipped
    requires w in dag.nodes && w in seen
    ensures StaysOK(l, s, t, w)
  {
    assert LikeAt(l, s, m, seen, w);
    if IsSettled(s, w) {
      SettledStays(dag, l, s, t, w);
    } else {
      ControllersStay(dag, l, s, t, m, seen, v);
      UndecidedStays(dag, l, s, t, m, seen, w);
    }
  }

  lemma AskedSimulates(dag: Dag, l: Loop, h: Handler, init: Data, s: State, m: Account, seen: set<NodeId>, v: NodeId)
    requires Ready(dag, l) && Reached(dag, h, init, s) && Like(dag, l, s, m, seen) && Closed(dag, l, seen)
    requires Next(dag, l, s, seen, v) && v !in l.ctrl && (Looping(s) && l.ctrl <= seen ==> v !in l.body)
    requires Waiting(v) in s.inflight
    ensures Simulated(dag, l, h, init, Ask(h, m, v, AncestorsOf(dag, v)), seen + {v})
  {
    ReachedIsSound(dag, l, h, init, s);
    SameInputs(dag, l, s, m, v);
    ExecutedIsReached(dag, h, init, s, v);
    var t, r := Executed(dag, h, s, v), h(v, Upstream(s, v));
    if r.Succeeded? {
      OrdinaryExecuted(dag, l, h, s, v);
      ReachedIsSound(dag, l, h, init, t);
      AddedStays(dag, l, s, t, m, seen, v, r);
    }
  }

  lemma SkippedLike(dag: Dag, l: Loop, s: State, m: Account, seen: set<NodeId>, v: NodeId)
    requires Like(dag, l, s, m, seen) && v in dag.nodes && v !in seen && v in s.skipped
    ensures Like(dag, l, s, m.(skipped := m.skipped + {v}), seen + {v})
  {
    var n := m.(skipped := m.skipped + {v});
    forall w | w in dag.nodes
      ensures LikeAt(l, s, n, seen + {v}, w)
    {
      assert LikeAt(l, s, m, seen, w);
    }
  }

  lemma BlockedLike(dag: Dag, l: Loop, s: State, m: Account, seen: set<NodeId>, v: NodeId)
    requires Like(dag, l, s, m, seen) && v in dag.nodes && v !in seen && v !in s.skipped && v !in s.started
    requires Looping(s) && v !in l.body
    ensures Like(dag, l, s, m, seen + {v})
  {
    forall w | w in dag.nodes
      ensures LikeAt(l, s, m, seen + {v}, w)
    {
      assert LikeAt(l, s, m, seen, w);
    }
  }

  /** The turn of a node whose predecessors are decided, in a pass or outside the loop. */
  lemma DecideSimulates(
    dag: Dag, l: Loop, h: Handler, init: Data, s: State, m: Account, seen: set<NodeId>, v: NodeId, triggered: bool)
    requires Ready(dag, l) && Reached(dag, h, init, s) && Like(dag, l, s, m, seen) && Closed(dag, l, seen)
    requires Next(dag, l, s, seen, v) && v !in l.ctrl && (Looping(s) && l.ctrl <= seen ==> v !in l.body)
    requires AllDecided(dag, l, s, v) && (triggered <==> Called(dag, l, s, v))
    ensures Simulated(dag, l, h, init, Decide(dag, h, m, v, triggered), seen + {v})
  {
    ReachedIsSound(dag, l, h, init, s);
    DueNode(dag, l, s, m, seen, v);
    if triggered {
      AskedSimulates(dag, l, h, init, s, m, seen, v);
    } else {
      SkippedLike(dag, l, s, m, seen, v);
    }
  }

  lemma SameDecisions(dag: Dag, l: Loop, s: State, m: Account, seen: set<NodeId>, v: NodeId)
    requires Adjacent(dag) && Like(dag, l, s, m, seen) && Preceded(dag, l, s, seen, v) && !(v in l.body && Looping(s))
    ensures Due(dag, m, v) <==> AllDecided(dag, l, s, v)
  {
    forall e | e in dag.forward && e.target == v
      ensures Known(m, e.source) <==> IsSettled(s, e.source)
    {
      assert e.source in dag.nodes && LikeAt(l, s, m, seen, e.source);
    }
  }

  /** The turn of a node outside the loop, or of a body node before any pass. */
  lemma VisitSimulates(dag: Dag, l: Loop, h: Handler, init: Data, m: Account, seen: set<NodeId>, s: State, v: NodeId)
    requires Ready(dag, l) && Reached(dag, h, init, s) && Like(dag, l, s, m, seen) && Closed(dag, l, seen)
    requires Next(dag, l, s, seen, v) && v !in l.ctrl && Preceded(dag, l, s, seen, v) && !(v in l.body && Looping(s))
    ensures Simulated(dag, l, h, init, VisitNode(dag, h, m, v), seen + {v})
  {
    NotKnown(dag, l, s, m, seen, v);
    SameDecisions(dag, l, s, m, seen, v);
    if Due(dag, m, v) {
      DecideSimulates(dag, l, h, init, s, m, seen, v, Triggered(dag, m.routing, v));
    } else {
      ReachedIsSound(dag, l, h, init, s);
      BlockedNode(dag, l, s, v);
      BlockedWhileLooping(dag, l, s, m, seen, v);
      BlockedLike(dag, l, s, m, seen, v);
    }
  }

  lemma NotKnown(dag: Dag, l: Loop, s: State, m: Account, seen: set<NodeId>, v: NodeId)
    requires Like(dag, l, s, m, seen) && v in dag.nodes && v !in seen
    ensures !Known(m, v)
  {
    assert LikeAt(l, s, m, seen, v);
  }

  lemma BlockedWhileLooping(dag: Dag, l: Loop, s: State, m: Account, seen: set<NodeId>, v: NodeId)
    requires Adjacent(dag) && Like(dag, l, s, m, seen) && Preceded(dag, l, s, seen, v) && !AllDecided(dag, l, s, v)
    ensures Looping(s)
  {
    var e :| e in dag.forward && e.target == v && e.source in Sources(dag, l, s, v) && !IsSettled(s, e.source);
    assert LikeAt(l, s, m, seen, e.source);
  }

  // ---- A pass ----

  function BodyBefore(dag: Dag, body: set<NodeId>, k: nat): set<NodeId>
  {
    set b | b in body && IndexOf(dag.order, b) < k
  }

  /** A body node's predecessors in the body have been executed or skipped in this pass. */
  lemma BodyDue(dag: Dag, l: Loop, s: State, m: Account, seen: set<NodeId>, v: NodeId, k: nat)
    requires Shape(dag, l) && Like(dag, l, s, m, seen) && Looping(s) && v in l.body && IndexOf(dag.order, v) == k
    requires BodyBefore(dag, l.body, k) <= seen
    ensures AllDecided(dag, l, s, v)
  {
    forall e | e in dag.forward && e.target == v && e.source in Sources(dag, l, s, v)
      ensures IsSettled(s, e.source)
    {
      assert PointsLater(dag.order, e);
      assert e.source in BodyBefore(dag, l.body, k);
      assert LikeAt(l, s, m, seen, e.source);
    }
  }

  lemma OneMoreBody(dag: Dag, body: set<NodeId>, k: nat)
    requires IsTopologicalOrder(dag.order, dag.nodes.Keys, dag.forward) && k < |dag.order|
    ensures IndexOf(dag.order, dag.order[k]) == k
    ensures BodyBefore(dag, body, k + 1) ==
      BodyBefore(dag, body, k) + (if dag.order[k] in body then {dag.order[k]} else {})
  {
    IndexInOrder(dag, k);
  }

  /** The nodes before the loop: neither the controller nor the body is among them. */
  ghost predicate Upstreams(dag: Dag, l: Loop, seen: set<NodeId>)
  {
    Closed(dag, l, seen) && seen !! l.body && seen !! l.ctrl && l.ctrl != {}
  }

  lemma PassVisitSimulates(
    dag: Dag, l: Loop, h: Handler, init: Data, m: Account, seen: set<NodeId>, k: nat)
    requires Ready(dag, l) && Upstreams(dag, l, seen) && k < |dag.order| && m.error == None && m.passes > 0 && !m.over
    requires dag.order[k] in l.body && Simulated(dag, l, h, init, m, seen + BodyBefore(dag, l.body, k))
    ensures Simulated(
      dag, l, h, init, PassVisit(dag, l.body, h, m, dag.order[k]), seen + BodyBefore(dag, l.body, k) + {dag.order[k]})
  {
    var v, before := dag.order[k], seen + BodyBefore(dag, l.body, k);
    var s :| Reached(dag, h, init, s) && Like(dag, l, s, m, before);
    OneMoreBody(dag, l.body, k);
    BodyDue(dag, l, s, m, before, v, k);
    NotARoot(dag, l, v);
    assert v in dag.order;
    DecideSimulates(
      dag, l, h, init, s, m, before, v, IsHead(dag, l.body, v) || AnyFires(dag, m.routing, v));
  }

  /** In the middle of a pass, with the first `k` nodes of the order done. */
  ghost predicate MidPass(dag: Dag, l: Loop, h: Handler, init: Data, seen: set<NodeId>, m: Account, k: nat)
  {
    m.passes > 0 && !m.over && Simulated(dag, l, h, init, m, seen + BodyBefore(dag, l.body, k))
  }

  lemma WholePass(dag: Dag, l: Loop, h: Handler, init: Data, m: Account, seen: set<NodeId>)
    requires Ready(dag, l) && Upstreams(dag, l, seen) && MidPass(dag, l, h, init, seen, m, 0)
    ensures MidPass(dag, l, h, init, seen, Pass(dag, l.body, h, m), |dag.order|)
  {
    ghost var ok := (n: Account, j: nat) => MidPass(dag, l, h, init, seen, n, j);
    forall j: nat, n: Account | j < |dag.order| && n == PassUpTo(dag, l.body, h, m, j) && ok(n, j)
      ensures ok(PassVisitor(dag, l.body, h)(n, dag.order[j]), j + 1)
    {
      PassGoesOn(dag, l, h, init, n, seen, j);
    }
    FoldInduction(PassVisitor(dag, l.body, h), m, dag.order, |dag.order|, ok);
  }

  lemma PassSimulates(dag: Dag, l: Loop, h: Handler, init: Data, m: Account, seen: set<NodeId>)
    requires Ready(dag, l) && Upstreams(dag, l, seen) && m.passes > 0 && !m.over && Simulated(dag, l, h, init, m, seen)
    ensures Simulated(dag, l, h, init, Pass(dag, l.body, h, m), seen + l.body)
  {
    assert seen + BodyBefore(dag, l.body, 0) == seen;
    WholePass(dag, l, h, init, m, seen);
    WholeBody(dag, l);
  }

  lemma VisitInPass(dag: Dag, body: set<NodeId>, h: Handler, m: Account, v: NodeId)
    ensures PassVisit(dag, body, h, m, v).passes == m.passes && PassVisit(dag, body, h, m, v).over == m.over
    ensures m.error != None || v !in body ==> PassVisit(dag, body, h, m, v) == m
  {
  }

  lemma PassGoesOn(dag: Dag, l: Loop, h: Handler, init: Data, m: Account, seen: set<NodeId>, k: nat)
    requires Ready(dag, l) && Upstreams(dag, l, seen) && k < |dag.order| && MidPass(dag, l, h, init, seen, m, k)
    ensures MidPass(dag, l, h, init, seen, PassVisit(dag, l.body, h, m, dag.order[k]), k + 1)
  {
    var v, before := dag.order[k], seen + BodyBefore(dag, l.body, k);
    OneMoreBody(dag, l.body, k);
    VisitInPass(dag, l.body, h, m, v);
    if m.error == None && v in l.body {
      PassVisitSimulates(dag, l, h, init, m, seen, k);
      assert seen + BodyBefore(dag, l.body, k + 1) == before + {v};
    } else {
      SameBefore(dag, l, h, init, m, before, seen + BodyBefore(dag, l.body, k + 1));
    }
  }

  lemma SameBefore(dag: Dag, l: Loop, h: Handler, init: Data, m: Account, seen: set<NodeId>, again: set<NodeId>)
    requires Simulated(dag, l, h, init, m, seen) && (m.error != None || again == seen)
    ensures Simulated(dag, l, h, init, m, again)
  {
  }

  // ---- The controller's turn ----

  ghost predicate AllKnown(m: Account, seen: set<NodeId>)
  {
    forall w :: w in seen ==> Known(m, w)
  }

  lemma PassKeepsKnown(dag: Dag, body: set<NodeId>, h: Handler, m: Account, w: NodeId)
    requires Known(m, w)
    ensures Known(Pass(dag, body, h, m), w)
  {
    ghost var ok := (n: Account, j: nat) => Known(n, w);
    FoldInduction(PassVisitor(dag, body, h), m, dag.order, |dag.order|, ok);
  }

  lemma ControllerInputs(dag: Dag, l: Loop, s: State, m: Account, c: NodeId)
    requires Sees(dag, l, s) && c in dag.nodes && c in l.ctrl && dag.BodyOf(c) == l.body
    requires s.outputs == m.outputs && s.passes == m.passes
    ensures Upstream(s, c) == MergeUpstream(m.outputs, Visible(dag, m, c))
  {
    assert SeesOK(dag, l, s, c);
  }

  lemma BeginLike(dag: Dag, l: Loop, s: State, t: State, m: Account, c: NodeId, seen: set<NodeId>, r: Outcome)
    requires Like(dag, l, s, m, seen) && AllKnown(m, seen - l.body) && dag.BodyOf(c) == l.body
    requires c !in seen && r.Succeeded? && Iterates(dag, s, c, r.routing) && Turned(dag, l, s, t, c, r)
    requires IterationsOf(s, c) == m.passes
    ensures Like(dag, l, t, Begin(dag, m, c, r.output), seen - l.body)
  {
    var n := Begin(dag, m, c, r.output);
    forall w | w in dag.nodes
      ensures LikeAt(l, t, n, seen - l.body, w)
    {
      assert LikeAt(l, s, m, seen, w);
    }
  }

  lemma LeaveLike(dag: Dag, l: Loop, s: State, t: State, m: Account, c: NodeId, seen: set<NodeId>, r: Outcome)
    requires Like(dag, l, s, m, seen) && AllKnown(m, seen - l.body) && dag.BodyOf(c) == l.body
    requires l.body <= dag.nodes.Keys
    requires c !in seen && c in dag.nodes && c !in l.body && Once(dag, l, t)
    requires r.Succeeded? && !Iterates(dag, s, c, r.routing) && Turned(dag, l, s, t, c, r)
    ensures Like(dag, l, t, Leave(dag, m, c, r.output, r.routing), seen + l.body + {c})
  {
    var n := Leave(dag, m, c, r.output, r.routing);
    forall w | w in dag.nodes
      ensures LikeAt(l, t, n, seen + l.body + {c}, w)
    {
      assert LikeAt(l, s, m, seen, w);
      if w !in l.body {
        assert OnceOK(t, w) && (w in seen - l.body ==> Known(m, w));
      }
    }
  }

  /** When every loop-back edge has reported, the controller is in flight again. */
  lemma Recalls(dag: Dag, l: Loop, s: State, m: Account, seen: set<NodeId>, c: NodeId)
    requires Shape(dag, l) && Sound(dag, l, s) && Like(dag, l, s, m, seen) && c in l.ctrl && c !in seen
    requires c in dag.nodes
    requires dag.BodyOf(c) == l.body && InLoop(s) && Reports(dag, m, c)
    ensures Waiting(c) in s.inflight
  {
    AllBackReported(dag, l, s, c);
    assert LikeAt(l, s, m, seen, c) && DoneOK(s, c);
    var f :| f in s.inflight && f.node == c;
    assert f == Waiting(c);
  }

  /** Otherwise it is not dispatched again. */
  lemma StalledLike(dag: Dag, l: Loop, s: State, m: Account, seen: set<NodeId>, c: NodeId)
    requires Shape(dag, l) && Sound(dag, l, s) && Like(dag, l, s, m, seen) && c in l.ctrl && c !in seen
    requires c in dag.nodes
    requires dag.BodyOf(c) == l.body && InLoop(s) && !Reports(dag, m, c)
    ensures Like(dag, l, s, m, seen + {c})
  {
    assert LikeAt(l, s, m, seen, c) && OnceOK(s, c);
    if l.body != {} && c in s.started {
      BackEdgesRouted(dag, l, s, c);
    }
    BlockedLike(dag, l, s, m, seen, c);
  }

  /** What the controller answers in `s`, and that the answer can be received. */
  lemma ControllerAsked(dag: Dag, l: Loop, h: Handler, init: Data, s: State, m: Account, seen: set<NodeId>, c: NodeId)
    requires Ready(dag, l) && c in l.ctrl && dag.BodyOf(c) == l.body && c in dag.nodes
    requires Reached(dag, h, init, s) && Like(dag, l, s, m, seen) && Waiting(c) in s.inflight
    ensures Upstream(s, c) == MergeUpstream(m.outputs, Visible(dag, m, c)) && IterationsOf(s, c) == m.passes
    ensures var t, r := Executed(dag, h, s, c), h(c, Upstream(s, c));
      && Reached(dag, h, init, t) && (r.Failed? ==> t.firstErr != None)
      && (r.Succeeded? ==> Turned(dag, l, s, t, c, r) && Once(dag, l, t))
  {
    ReachedIsSound(dag, l, h, init, s);
    ControllerInputs(dag, l, s, m, c);
    ExecutedIsReached(dag, h, init, s, c);
    if h(c, Upstream(s, c)).Succeeded? {
      ControllerExecuted(dag, l, h, s, c);
      ReachedIsSound(dag, l, h, init, Executed(dag, h, s, c));
    }
  }

  /** The controller's answer: an error, another pass, or the end of the loop. */
  lemma AnswerSimulates(
    dag: Dag, l: Loop, h: Handler, init: Data, s: State, t: State, m: Account, seen: set<NodeId>, c: NodeId, r: Outcome)
    requires dag.BodyOf(c) == l.body && AllKnown(m, seen - l.body) && Like(dag, l, s, m, seen) && c !in seen
    requires c in dag.nodes && l.body <= dag.nodes.Keys && c !in l.body && IterationsOf(s, c) == m.passes
    requires Reached(dag, h, init, t) && (r.Failed? ==> t.firstErr != None)
    requires r.Succeeded? ==> Turned(dag, l, s, t, c, r) && Once(dag, l, t)
    ensures r.Failed? ==> Simulated(dag, l, h, init, m.(error := Some(r.error)), seen + l.body + {c})
    ensures r.Succeeded? && GoesOn(dag, m, c, r.routing) ==>
      Simulated(dag, l, h, init, Begin(dag, m, c, r.output), seen - l.body)
    ensures r.Succeeded? && !GoesOn(dag, m, c, r.routing) ==>
      Simulated(dag, l, h, init, Leave(dag, m, c, r.output, r.routing), seen + l.body + {c})
  {
    if r.Succeeded? {
      if GoesOn(dag, m, c, r.routing) {
        BeginLike(dag, l, s, t, m, c, seen, r);
      } else {
        LeaveLike(dag, l, s, t, m, c, seen, r);
      }
    }
  }

  lemma SameSeen(seen: set<NodeId>, body: set<NodeId>, up: set<NodeId>, ctrl: set<NodeId>, c: NodeId)
    requires seen - body == up && up !! ctrl && c in ctrl && c !in body
    ensures c !in seen && seen + body + {c} == up + body + {c}
  {
    assert forall w :: w in seen <==> w in up || (w in seen && w in body);
  }

  /** Some run of the handlers leads to a state like the account with the controller waiting to read. */
  ghost predicate Poised(dag: Dag, l: Loop, h: Handler, init: Data, m: Account, seen: set<NodeId>, c: NodeId)
  {
    exists s :: Reached(dag, h, init, s) && Like(dag, l, s, m, seen) && Waiting(c) in s.inflight
  }

  /** What the nodes before the loop and the loop itself have to do with each other. */
  ghost predicate Placed(dag: Dag, l: Loop, m: Account, up: set<NodeId>, c: NodeId)
  {
    && l.ctrl == {c} && dag.BodyOf(c) == l.body && c in dag.nodes && l.body <= dag.nodes.Keys && c !in l.body
    && Upstreams(dag, l, up) && AllKnown(m, up) && !m.over
  }

  /** The three things the controller can answer, and what each simulates. */
  ghost predicate Foreseen(
    dag: Dag, l: Loop, h: Handler, init: Data, m: Account, up: set<NodeId>, c: NodeId, r: Outcome)
  {
    && (r.Failed? ==> Simulated(dag, l, h, init, m.(error := Some(r.error)), up + l.body + {c}))
    && (r.Succeeded? && GoesOn(dag, m, c, r.routing) ==>
          Simulated(dag, l, h, init, Begin(dag, m, c, r.output), up))
    && (r.Succeeded? && !GoesOn(dag, m, c, r.routing) ==>
          Simulated(dag, l, h, init, Leave(dag, m, c, r.output, r.routing), up + l.body + {c}))
  }

  lemma ControllerSimulates(
    dag: Dag, l: Loop, h: Handler, init: Data, m: Account, up: set<NodeId>, seen: set<NodeId>, c: NodeId)
    requires Ready(dag, l) && Placed(dag, l, m, up, c) && Poised(dag, l, h, init, m, seen, c) && seen - l.body == up
    ensures Foreseen(dag, l, h, init, m, up, c, h(c, MergeUpstream(m.outputs, Visible(dag, m, c))))
  {
    var s :| Reached(dag, h, init, s) && Like(dag, l, s, m, seen) && Waiting(c) in s.inflight;
    SameSeen(seen, l.body, up, l.ctrl, c);
    ControllerAsked(dag, l, h, init, s, m, seen, c);
    AnswerSimulates(dag, l, h, init, s, Executed(dag, h, s, c), m, seen, c, h(c, Upstream(s, c)));
  }

  lemma BeginKnown(dag: Dag, m: Account, c: NodeId, output: Data, up: set<NodeId>)
    requires AllKnown(m, up) && up !! dag.BodyOf(c)
    ensures AllKnown(Begin(dag, m, c, output), up)
  {
  }

  /** How the controller's turn unfolds. */
  lemma IterateUnfolds(dag: Dag, h: Handler, m: Account, c: NodeId, r: Outcome, ok: Account -> bool)
    requires r == h(c, MergeUpstream(m.outputs, Visible(dag, m, c)))
    requires r.Failed? ==> ok(m.(error := Some(r.error)))
    requires r.Succeeded? && GoesOn(dag, m, c, r.routing) ==> ok(Continue(dag, h, Begin(dag, m, c, r.output), c))
    requires r.Succeeded? && !GoesOn(dag, m, c, r.routing) ==> ok(Leave(dag, m, c, r.output, r.routing))
    ensures ok(Iterate(dag, h, m, c))
  {
  }

  lemma BeginPlaced(dag: Dag, l: Loop, m: Account, up: set<NodeId>, c: NodeId, output: Data)
    requires Placed(dag, l, m, up, c)
    ensures Placed(dag, l, Begin(dag, m, c, output), up, c)
  {
    BeginKnown(dag, m, c, output, up);
  }

  lemma PassPlaced(dag: Dag, l: Loop, h: Handler, m: Account, up: set<NodeId>, c: NodeId)
    requires Placed(dag, l, m, up, c)
    ensures Placed(dag, l, Pass(dag, l.body, h, m), up, c)
    ensures Pass(dag, l.body, h, m).passes == m.passes
  {
    OnePass(dag, l.body, h, m);
    forall w | w in up
      ensures Known(Pass(dag, l.body, h, m), w)
    {
      PassKeepsKnown(dag, l.body, h, m, w);
    }
  }

  /** The controller's turn, one pass after the other, from a state in which it is in flight. */
  lemma {:induction false} IterateSimulates(
    dag: Dag, l: Loop, h: Handler, init: Data, m: Account, up: set<NodeId>, seen: set<NodeId>, c: NodeId)
    requires Ready(dag, l) && Placed(dag, l, m, up, c) && Poised(dag, l, h, init, m, seen, c) && seen - l.body == up
    requires m.error == None
    ensures Simulated(dag, l, h, init, Iterate(dag, h, m, c), up + l.body + {c})
    decreases MaxIterations(dag.ConfigOf(c)) - m.passes, 1
  {
    var r := h(c, MergeUpstream(m.outputs, Visible(dag, m, c)));
    ghost var ok := n => Simulated(dag, l, h, init, n, up + l.body + {c});
    ControllerSimulates(dag, l, h, init, m, up, seen, c);
    if r.Succeeded? && GoesOn(dag, m, c, r.routing) {
      BeginPlaced(dag, l, m, up, c, r.output);
      ContinueSimulates(dag, l, h, init, Begin(dag, m, c, r.output), up, c);
    }
    IterateUnfolds(dag, h, m, c, r, ok);
  }

  /** After a pass either the controller waits to read, or the loop has stalled. */
  lemma AfterPass(dag: Dag, l: Loop, h: Handler, init: Data, n: Account, up: set<NodeId>, c: NodeId)
    requires Ready(dag, l) && Placed(dag, l, n, up, c) && n.error == None && n.passes > 0
    requires Simulated(dag, l, h, init, n, up + l.body)
    ensures if Reports(dag, n, c) then Poised(dag, l, h, init, n, up + l.body, c)
      else Simulated(dag, l, h, init, n, up + l.body + {c})
  {
    var s :| Reached(dag, h, init, s) && Like(dag, l, s, n, up + l.body);
    ReachedIsSound(dag, l, h, init, s);
    if Reports(dag, n, c) {
      Recalls(dag, l, s, n, up + l.body, c);
    } else {
      StalledLike(dag, l, s, n, up + l.body, c);
    }
  }

  /** The rest of the loop from the start of a pass. */
  lemma {:induction false} ContinueSimulates(
    dag: Dag, l: Loop, h: Handler, init: Data, m: Account, up: set<NodeId>, c: NodeId)
    requires Ready(dag, l) && Placed(dag, l, m, up, c) && Simulated(dag, l, h, init, m, up)
    requires m.error == None && m.passes > 0
    ensures Simulated(dag, l, h, init, Continue(dag, h, m, c), up + l.body + {c})
    decreases MaxIterations(dag.ConfigOf(c)) - m.passes, 2
  {
    var n := Pass(dag, l.body, h, m);
    PassSimulates(dag, l, h, init, m, up);
    if n.error == None {
      PassPlaced(dag, l, h, m, up, c);
      AfterPass(dag, l, h, init, n, up, c);
      if Reports(dag, n, c) {
        assert up + l.body - l.body == up;
        IterateSimulates(dag, l, h, init, n, up, up + l.body, c);
      }
    }
  }

  lemma WholeBody(dag: Dag, l: Loop)
    requires Shape(dag, l)
    ensures BodyBefore(dag, l.body, |dag.order|) == l.body
  {
    forall b | b in l.body
      ensures IndexOf(dag.order, b) < |dag.order|
    {
      assert b in dag.order;
    }
  }
}
