/** Iteration isolation: while the controller of a well-formed loop is in flight nothing of its body
    is; every pass runs each body node at most once, and exactly once if it is sure to run; and
    the controller then sees exactly that pass. */
module LoopIsolation {
  import opened Workflow
  import opened DagModel
  import opened Scheduler
  import opened SchedulerInvariant
  import opened SchedulerSteps
  import opened LoopSteps
  import opened LoopBound
  import opened LoopFree
  import opened Completion
  import opened Delivery
  import opened Landings
  import opened Diamond
  import opened StepsCommute
  import opened LoopCauses
  import opened LoopSure

  // ---- Each body node at most once per pass ----

  /** `b` was dispatched at most once in every earlier pass, and at most once in this one; exactly
      once if it is sure to run. */
  ghost predicate TurnsOK(dag: Dag, l: Loop, s: State, b: NodeId)
  {
    var turns := s.passes - 1 + (if b in s.started then 1 else 0);
    s.launched[b] <= turns && (Sure(dag, l.body, b) ==> s.launched[b] == turns)
  }

  ghost predicate Turns(dag: Dag, l: Loop, s: State)
  {
    && (InLoop(s) ==> forall b {:trigger TurnsOK(dag, l, s, b)} :: b in l.body ==> TurnsOK(dag, l, s, b))
    && (!Looping(s) && !s.exited ==> forall b :: b in l.body ==> s.launched[b] == 0)
  }

  ghost predicate IsoInv(dag: Dag, l: Loop, s: State)
  {
    Inv(dag, l, s, []) && Why(dag, l, s, []) && Turns(dag, l, s)
  }

  lemma AbsorbTurns(dag: Dag, l: Loop, s: State, sig: Signal)
    requires SignalFits(dag, l, s, sig) && Turns(dag, l, s)
    ensures Turns(dag, l, Absorb(s, sig))
  {
    var t := Absorb(s, sig);
    AbsorbTouches(s, sig);
    ReactOnIdle(dag, l, s, sig);
    forall b | b in l.body && InLoop(t)
      ensures TurnsOK(dag, l, t, b)
    {
      assert TurnsOK(dag, l, s, b);
    }
  }

  lemma DeliverTurns(dag: Dag, l: Loop, s: State, todo: seq<Signal>)
    requires Fenced(dag, l) && Inv(dag, l, s, todo) && Turns(dag, l, s)
    ensures Turns(dag, l, Deliver(dag, s, todo))
  {
    ghost var keeps := (t, rest) => Inv(dag, l, t, rest) && Turns(dag, l, t);
    forall t, rest | rest != [] && keeps(t, rest)
      ensures keeps(Absorb(t, rest[0]), SentOn(dag, t, rest[0]) + rest[1..])
    {
      AbsorbKeeps(dag, l, t, rest);
      CountedKeeps(dag, l, t, rest);
      AbsorbTurns(dag, l, t, rest[0]);
    }
    DeliverInduction(dag, s, todo, keeps);
  }

  /** Every body node that is sure to run has completed when the controller runs again. */
  lemma BodyCompleted(dag: Dag, l: Loop, s: State, c: NodeId, b: NodeId)
    requires Shape(dag, l) && IsoInv(dag, l, s) && c in l.ctrl && c in s.started && c !in s.routed
    requires Looping(s) && b in l.body && Sure(dag, l.body, b)
    ensures b in s.routed && b in s.started
  {
    BodyRests(dag, l, s, c);
    assert OnceOK(s, c);
    BackEdgesRouted(dag, l, s, c);
    BodySettled(dag, l, s, b);
    SureStays(dag, l, s, b);
    assert OnceOK(s, b);
  }

  lemma PassTurns(dag: Dag, l: Loop, s: State, t: State, c: NodeId, roots: set<NodeId>)
    requires Turns(dag, l, s) && !s.exited && NewPass(dag, l, s, t, c, roots) && c !in l.body
    requires t.launched == s.launched + multiset(roots)
    requires Looping(s) ==> forall b :: b in l.body && Sure(dag, l.body, b) ==> b in s.started
    ensures Turns(dag, l, t)
  {
    forall b | b in l.body
      ensures TurnsOK(dag, l, t, b)
    {
      assert Looping(s) ==> TurnsOK(dag, l, s, b);
    }
  }

  lemma TurnsFrame(dag: Dag, l: Loop, s: State, t: State)
    requires Turns(dag, l, s) && t.launched == s.launched && t.started == s.started
    requires t.passes == s.passes && t.exited == s.exited
    ensures Turns(dag, l, t)
  {
    forall b | b in l.body && InLoop(t)
      ensures TurnsOK(dag, l, t, b)
    {
      assert TurnsOK(dag, l, s, b);
    }
  }

  // ---- Every step ----

  lemma ControllerTurns(dag: Dag, l: Loop, s: State, f: Flight, r: Outcome)
    requires Shape(dag, l) && IsoInv(dag, l, s) && s.firstErr == None && f in s.inflight && r.Succeeded?
    requires f.node in l.ctrl
    ensures Turns(dag, l, Receive(dag, s, f, r))
  {
    TypeOfController(dag, l, f.node);
    assert FlightOK(l, s, f);
    BodyRests(dag, l, s, f.node);
    if Iterates(dag, s, f.node, r.routing) {
      forall b | b in l.body && Sure(dag, l.body, b) && Looping(s)
        ensures b in s.started
      {
        BodyCompleted(dag, l, s, f.node, b);
      }
      ReceiveStarts(dag, s, f, r);
      RecordedPass(dag, l, s, f, r);
    } else {
      LeavingTurns(dag, l, s, f, r);
    }
  }

  lemma RecordedPass(dag: Dag, l: Loop, s: State, f: Flight, r: Outcome)
    requires Shape(dag, l) && Turns(dag, l, s) && !s.exited && r.Succeeded? && f.node in l.ctrl
    requires Looping(s) ==> forall b :: b in l.body && Sure(dag, l.body, b) ==> b in s.started
    ensures Turns(dag, l, Passes(dag, s, f, r))
  {
    var u := Record(s, f, r);
    TypeOfController(dag, l, f.node);
    TurnsFrame(dag, l, s, u);
    StartPassIsNewPass(dag, l, u, f.node);
    PassesFlying(dag, s, f, r);
    PassTurns(dag, l, u, Passes(dag, s, f, r), f.node, BodyRoots(dag, f.node));
  }

  lemma LeavingTurns(dag: Dag, l: Loop, s: State, f: Flight, r: Outcome)
    requires Shape(dag, l) && Inv(dag, l, s, []) && s.firstErr == None && f in s.inflight && r.Succeeded?
    requires f.node in l.ctrl && !Iterates(dag, s, f.node, r.routing)
    ensures Turns(dag, l, Receive(dag, s, f, r))
  {
    TypeOfController(dag, l, f.node);
    QuitsKeeps(dag, l, s, f, r);
    ReceiveQuits(dag, l, s, f, r);
    assert Turns(dag, l, Quits(l, s, f, r));
    DeliverTurns(dag, l, Quits(l, s, f, r), SignalsOf(dag, f.node, r.routing));
  }

  lemma OrdinaryTurns(dag: Dag, l: Loop, s: State, f: Flight, r: Outcome)
    requires Fenced(dag, l) && IsoInv(dag, l, s) && s.firstErr == None && f in s.inflight && r.Succeeded?
    requires f.node !in l.ctrl && dag.TypeOf(f.node) != LOOP_CONTROLLER
    ensures Turns(dag, l, Receive(dag, s, f, r))
  {
    var u, todo := Landing(s, f, r), SignalsOf(dag, f.node, r.routing);
    LandingLands(s, f, r);
    TurnsFrame(dag, l, s, u);
    LandingBeside(dag, l, s, [], f, r);
    assert todo + [] == todo;
    ReceiveLands(dag, s, f, r);
    DeliverTurns(dag, l, u, todo);
  }

  lemma HaltTurns(dag: Dag, l: Loop, s: State, f: Flight, r: Outcome)
    requires Turns(dag, l, s) && (r.Failed? || s.firstErr != None)
    ensures Turns(dag, l, Receive(dag, s, f, r))
  {
    assert Receive(dag, s, f, r) == Record(s, f, r);
    TurnsFrame(dag, l, s, Record(s, f, r));
  }

  lemma ApplyTurns(dag: Dag, l: Loop, s: State, step: Step)
    requires Shape(dag, l) && IsoInv(dag, l, s) && Enabled(s, step)
    ensures Turns(dag, l, Apply(dag, s, step))
  {
    match step
    case Read(v) => TurnsFrame(dag, l, s, Apply(dag, s, step));
    case Recv(f, r) =>
      TypeOfController(dag, l, f.node);
      if r.Failed? || s.firstErr != None {
        HaltTurns(dag, l, s, f, r);
      } else if f.node in l.ctrl {
        ControllerTurns(dag, l, s, f, r);
      } else {
        OrdinaryTurns(dag, l, s, f, r);
      }
  }

  lemma {:induction false} RunTurns(dag: Dag, l: Loop, init: Data, steps: seq<Step>)
    requires Shape(dag, l) && IsRun(dag, init, steps)
    ensures IsoInv(dag, l, After(dag, init, steps))
  {
    RunKeeps(dag, l, init, steps);
    RunWhy(dag, l, init, steps);
    if steps == [] {
      StartBody(dag, l, init);
    } else {
      LastStep(dag, init, steps);
      RunTurns(dag, l, init, steps[..|steps| - 1]);
      ApplyTurns(dag, l, After(dag, init, steps[..|steps| - 1]), steps[|steps| - 1]);
    }
  }

  // ---- What the controller sees ----

  /** The successive outputs of `v` in a run. */
  function Outs(steps: seq<Step>, v: NodeId): seq<Data>
  {
    if steps == [] then []
    else
      var front, last := Outs(steps[..|steps| - 1], v), steps[|steps| - 1];
      if last.Recv? && last.flight.node == v && last.outcome.Succeeded? then front + [last.outcome.output] else front
  }

  function Iteration(k: nat): Data
  {
    map["iteration" := Int(k)]
  }

  /** The stored output of `v` is its latest one, if it has one. */
  predicate LatestOK(outs: seq<Data>, s: State, v: NodeId)
  {
    if |outs| == 0 then v !in s.outputs else v in s.outputs && s.outputs[v] == outs[|outs| - 1]
  }

  predicate RunsOK(outs: seq<Data>, s: State, c: NodeId)
  {
    |outs| == s.passes + (if c in s.routed then 1 else 0)
  }

  ghost predicate Histories(dag: Dag, l: Loop, steps: seq<Step>, s: State)
  {
    && (forall v {:trigger LatestOK(Outs(steps, v), s, v)} :: v in dag.nodes ==> LatestOK(Outs(steps, v), s, v))
    && (forall c {:trigger RunsOK(Outs(steps, c), s, c)} :: c in l.ctrl ==> RunsOK(Outs(steps, c), s, c))
  }

  /** The loop state is published, and the controller reads it and the body. */
  ghost predicate Published(l: Loop, s: State)
  {
    Looping(s) ==>
      && LOOP_STATE in s.outputs && s.outputs[LOOP_STATE] == Iteration(s.passes)
      && forall c :: c in l.ctrl ==> c in s.ancestors && l.body + {LOOP_STATE} <= s.ancestors[c]
  }

  /** The number of the pass, and the latest output of every body node that has one. */
  ghost predicate SeesPass(l: Loop, s: State, f: Flight)
    requires f.Running?
  {
    && LOOP_STATE in f.inputs && f.inputs[LOOP_STATE] == Iteration(s.passes)
    && forall b :: b in l.body ==>
         (b in f.inputs <==> b in s.outputs) && (b in f.inputs ==> f.inputs[b] == s.outputs[b])
  }

  ghost predicate Seen(l: Loop, s: State)
  {
    Looping(s) ==> forall f :: f in s.inflight && f.Running? && f.node in l.ctrl ==> SeesPass(l, s, f)
  }

  ghost predicate Witnessed(dag: Dag, l: Loop, steps: seq<Step>, s: State)
  {
    Histories(dag, l, steps, s) && Published(l, s) && Seen(l, s)
  }

  /** Delivery leaves outputs and histories alone and only adds flights that have not read yet. */
  ghost predicate Untouched(s: State, t: State)
  {
    && t.outputs == s.outputs && t.routed == s.routed && t.ancestors == s.ancestors
    && t.passes == s.passes && t.exited == s.exited && t.firstErr == s.firstErr
    && forall f :: f in t.inflight ==> f in s.inflight || f.Waiting?
  }

  lemma AbsorbUntouched(s: State, t: State, sig: Signal)
    requires Untouched(s, t)
    ensures Untouched(s, Absorb(t, sig))
  {
    match React(t, sig)
    case Waits =>
    case Launches =>
    case Skips =>
  }

  lemma DeliverUntouched(dag: Dag, s: State, todo: seq<Signal>)
    ensures Untouched(s, Deliver(dag, s, todo))
  {
    ghost var keeps := (t: State, rest: seq<Signal>) => Untouched(s, t);
    forall t, rest | rest != [] && keeps(t, rest)
      ensures keeps(Absorb(t, rest[0]), SentOn(dag, t, rest[0]) + rest[1..])
    {
      AbsorbUntouched(s, t, rest[0]);
    }
    DeliverInduction(dag, s, todo, keeps);
  }

  /** Receiving a result adds only flights that have not read yet. */
  lemma ReceiveFlights(dag: Dag, l: Loop, s: State, f: Flight, r: Outcome)
    requires r.Succeeded? && s.firstErr == None && (f.node in l.ctrl <==> dag.TypeOf(f.node) == LOOP_CONTROLLER)
    requires f.node in l.ctrl ==> dag.BodyOf(f.node) == l.body
    ensures forall g :: g in Receive(dag, s, f, r).inflight && g.Running? ==> g in s.inflight - multiset{f}
  {
    var todo := SignalsOf(dag, f.node, r.routing);
    LandingLands(s, f, r);
    if f.node !in l.ctrl {
      ReceiveLands(dag, s, f, r);
      DeliverUntouched(dag, Landing(s, f, r), todo);
    } else if Iterates(dag, s, f.node, r.routing) {
      ReceiveStarts(dag, s, f, r);
      PassesFlying(dag, s, f, r);
    } else {
      ReceiveQuits(dag, l, s, f, r);
      QuitsMarks(l, s, f, r);
      DeliverUntouched(dag, Quits(l, s, f, r), todo);
    }
  }

  lemma UntouchedWitness(dag: Dag, l: Loop, steps: seq<Step>, s: State, t: State)
    requires Witnessed(dag, l, steps, s) && Untouched(s, t)
    ensures Witnessed(dag, l, steps, t)
  {
    forall v | v in dag.nodes ensures LatestOK(Outs(steps, v), t, v) { assert LatestOK(Outs(steps, v), s, v); }
    forall c | c in l.ctrl ensures RunsOK(Outs(steps, c), t, c) { assert RunsOK(Outs(steps, c), s, c); }
    forall f | f in t.inflight && f.Running? && f.node in l.ctrl && Looping(t)
      ensures SeesPass(l, t, f)
    {
      assert SeesPass(l, s, f);
    }
  }

  lemma OutsAppend(steps: seq<Step>, step: Step, v: NodeId)
    ensures Outs(steps + [step], v) ==
      if step.Recv? && step.flight.node == v && step.outcome.Succeeded? then Outs(steps, v) + [step.outcome.output]
      else Outs(steps, v)
  {
    assert (steps + [step])[..|steps|] == steps;
  }

  /** The histories do not change when a flight reads, nor when a result is not a success. */
  lemma QuietHistories(dag: Dag, l: Loop, steps: seq<Step>, step: Step, s: State, t: State)
    requires Histories(dag, l, steps, s) && !(step.Recv? && step.outcome.Succeeded?)
    requires t.outputs == s.outputs && t.routed == s.routed && t.passes == s.passes && t.exited == s.exited
    ensures Histories(dag, l, steps + [step], t)
  {
    forall v ensures Outs(steps + [step], v) == Outs(steps, v) { OutsAppend(steps, step, v); }
    forall v | v in dag.nodes ensures LatestOK(Outs(steps + [step], v), t, v) { assert LatestOK(Outs(steps, v), s, v); }
    forall c | c in l.ctrl ensures RunsOK(Outs(steps + [step], c), t, c) { assert RunsOK(Outs(steps, c), s, c); }
  }

  /** What a re-dispatched controller reads. */
  lemma ControllerReads(l: Loop, s: State, c: NodeId)
    requires Published(l, s) && c in l.ctrl && Looping(s)
    ensures SeesPass(l, s, Running(c, Upstream(s, c)))
  {
  }

  lemma ReadSeen(dag: Dag, l: Loop, s: State, v: NodeId)
    requires Seen(l, s) && (v in l.ctrl && Looping(s) ==> SeesPass(l, s, Running(v, Upstream(s, v))))
    ensures Seen(l, Apply(dag, s, Read(v)))
  {
    var t := Apply(dag, s, Read(v));
    forall f | f in t.inflight && f.Running? && f.node in l.ctrl && Looping(t)
      ensures SeesPass(l, t, f)
    {
      assert f in s.inflight ==> SeesPass(l, s, f);
    }
  }

  lemma ReadWitness(dag: Dag, l: Loop, steps: seq<Step>, s: State, v: NodeId)
    requires Witnessed(dag, l, steps, s)
    ensures Witnessed(dag, l, steps + [Read(v)], Apply(dag, s, Read(v)))
  {
    QuietHistories(dag, l, steps, Read(v), s, Apply(dag, s, Read(v)));
    if v in l.ctrl && Looping(s) {
      ControllerReads(l, s, v);
    }
    ReadSeen(dag, l, s, v);
  }

  // ---- A successful result ----

  /** An ordinary node's result: its history grows by its output and it counts as routed. */
  lemma FireHistories(dag: Dag, l: Loop, steps: seq<Step>, s: State, f: Flight, r: Outcome)
    requires Histories(dag, l, steps, s) && r.Succeeded? && f.node !in l.ctrl
    ensures Histories(dag, l, steps + [Recv(f, r)], Fired(Record(s, f, r), f.node, r.routing))
  {
    var t, more := Fired(Record(s, f, r), f.node, r.routing), steps + [Recv(f, r)];
    forall v | v in dag.nodes
      ensures LatestOK(Outs(more, v), t, v)
    {
      OutsAppend(steps, Recv(f, r), v);
      assert LatestOK(Outs(steps, v), s, v);
    }
    forall c | c in l.ctrl
      ensures RunsOK(Outs(more, c), t, c)
    {
      OutsAppend(steps, Recv(f, r), c);
      assert RunsOK(Outs(steps, c), s, c);
    }
  }

  lemma FireSeen(l: Loop, s: State, f: Flight, r: Outcome)
    requires Published(l, s) && Seen(l, s) && r.Succeeded? && f.node != LOOP_STATE
    requires f.node in l.body ==> forall g :: g in s.inflight ==> g.node !in l.ctrl
    ensures var t := Fired(Record(s, f, r), f.node, r.routing); Published(l, t) && Seen(l, t)
  {
    var t := Fired(Record(s, f, r), f.node, r.routing);
    forall g | g in t.inflight && g.Running? && g.node in l.ctrl && Looping(t)
      ensures SeesPass(l, t, g)
    {
      assert g in s.inflight && SeesPass(l, s, g);
    }
  }

  /** Nothing of the body is in flight together with the controller. */
  lemma ControllerAlone(dag: Dag, l: Loop, s: State, f: Flight, g: Flight)
    requires Shape(dag, l) && Inv(dag, l, s, []) && f in s.inflight && g in s.inflight && g.node in l.ctrl
    ensures f.node !in l.body
  {
    assert FlightOK(l, s, g);
    BodyRests(dag, l, s, g.node);
  }

  lemma ReceiveFires(dag: Dag, s: State, f: Flight, r: Outcome)
    requires r.Succeeded? && s.firstErr == None && dag.TypeOf(f.node) != LOOP_CONTROLLER
    ensures Receive(dag, s, f, r) ==
      Deliver(dag, Fired(Record(s, f, r), f.node, r.routing), SignalsOf(dag, f.node, r.routing))
  {
    assert Routing(dag, Record(s, f, r), f.node, r.routing) == Fired(Record(s, f, r), f.node, r.routing);
  }

  lemma FireWitness(dag: Dag, l: Loop, steps: seq<Step>, s: State, f: Flight, r: Outcome)
    requires Shape(dag, l) && Inv(dag, l, s, []) && Witnessed(dag, l, steps, s) && NoReservedIds(dag)
    requires f in s.inflight && r.Succeeded? && f.node !in l.ctrl
    ensures Witnessed(dag, l, steps + [Recv(f, r)], Fired(Record(s, f, r), f.node, r.routing))
  {
    forall g | g in s.inflight && f.node in l.body
      ensures g.node !in l.ctrl
    {
      if g.node in l.ctrl {
        ControllerAlone(dag, l, s, f, g);
      }
    }
    FireHistories(dag, l, steps, s, f, r);
    FireSeen(l, s, f, r);
  }

  lemma OrdinaryWitness(dag: Dag, l: Loop, steps: seq<Step>, s: State, f: Flight, r: Outcome)
    requires Shape(dag, l) && Inv(dag, l, s, []) && Witnessed(dag, l, steps, s) && NoReservedIds(dag)
    requires f in s.inflight && r.Succeeded? && s.firstErr == None && f.node !in l.ctrl
    requires dag.TypeOf(f.node) != LOOP_CONTROLLER
    ensures Witnessed(dag, l, steps + [Recv(f, r)], Receive(dag, s, f, r))
  {
    var t := Fired(Record(s, f, r), f.node, r.routing);
    FireWitness(dag, l, steps, s, f, r);
    DeliverUntouched(dag, t, SignalsOf(dag, f.node, r.routing));
    UntouchedWitness(dag, l, steps + [Recv(f, r)], t, Deliver(dag, t, SignalsOf(dag, f.node, r.routing)));
    ReceiveFires(dag, s, f, r);
  }

  // ---- The controller's result ----

  /** A new pass: the controller's own history grows by one. */
  lemma PassHistories(dag: Dag, l: Loop, steps: seq<Step>, s: State, t: State, f: Flight, r: Outcome)
    requires Histories(dag, l, steps, s) && r.Succeeded? && l.ctrl == {f.node} && f.node !in l.body
    requires f.node !in s.routed
    requires t.routed == s.routed - l.body && t.passes == s.passes + 1 && t.exited == s.exited
    requires t.outputs == s.outputs[f.node := r.output][LOOP_STATE := Iteration(t.passes)] && NoReservedIds(dag)
    ensures Histories(dag, l, steps + [Recv(f, r)], t)
  {
    var more := steps + [Recv(f, r)];
    forall v | v in dag.nodes
      ensures LatestOK(Outs(more, v), t, v)
    {
      OutsAppend(steps, Recv(f, r), v);
      assert LatestOK(Outs(steps, v), s, v);
    }
    forall c | c in l.ctrl
      ensures RunsOK(Outs(more, c), t, c)
    {
      OutsAppend(steps, Recv(f, r), c);
      assert RunsOK(Outs(steps, c), s, c);
    }
  }

  lemma PassSeen(l: Loop, s: State, t: State, c: NodeId, roots: set<NodeId>)
    requires l.ctrl == {c} && (forall g :: g in s.inflight ==> g.node != c)
    requires t.inflight == s.inflight + multiset(Flights(roots))
    requires c in t.ancestors && l.body + {LOOP_STATE} <= t.ancestors[c]
    requires LOOP_STATE in t.outputs && t.outputs[LOOP_STATE] == Iteration(t.passes)
    ensures Published(l, t) && Seen(l, t)
  {
  }

  /** What a new pass publishes. */
  ghost predicate PassShown(l: Loop, s: State, t: State, c: NodeId, roots: set<NodeId>)
  {
    && t.outputs == s.outputs[LOOP_STATE := Iteration(t.passes)] && t.passes == s.passes + 1
    && t.routed == s.routed - l.body && t.exited == s.exited
    && t.inflight == s.inflight + multiset(Flights(roots))
    && c in t.ancestors && l.body + {LOOP_STATE} <= t.ancestors[c]
  }

  lemma RecordedIsShown(dag: Dag, l: Loop, s: State, t: State, c: NodeId)
    requires dag.BodyOf(c) == l.body && IterationsOf(s, c) == s.passes && PassRecorded(dag, s, t, c)
    requires t.ancestors ==
      s.ancestors[c := (if c in s.ancestors then s.ancestors[c] else {}) + {LOOP_STATE} + dag.BodyOf(c)]
    requires t.inflight == s.inflight + multiset(Flights(BodyRoots(dag, c)))
    ensures PassShown(l, s, t, c, BodyRoots(dag, c))
  {
  }

  lemma PassPublishes(dag: Dag, l: Loop, s: State, c: NodeId)
    requires dag.BodyOf(c) == l.body && IterationsOf(s, c) == s.passes
    ensures PassShown(l, s, StartPass(dag, s, c), c, BodyRoots(dag, c))
  {
    StartPassRecords(dag, s, c);
    StartPassShows(dag, s, c);
    StartPassFlies(dag, s, c);
    RecordedIsShown(dag, l, s, StartPass(dag, s, c), c);
  }

  lemma PassWitness(dag: Dag, l: Loop, steps: seq<Step>, s: State, u: State, f: Flight, r: Outcome)
    requires Histories(dag, l, steps, s) && r.Succeeded? && l.ctrl == {f.node} && f.node !in l.body
    requires NoReservedIds(dag)
    requires f.node !in s.routed
    requires u == Record(s, f, r) && (forall g :: g in u.inflight ==> g.node != f.node)
    requires dag.BodyOf(f.node) == l.body && IterationsOf(s, f.node) == s.passes
    ensures Witnessed(dag, l, steps + [Recv(f, r)], StartPass(dag, u, f.node))
  {
    var t := StartPass(dag, u, f.node);
    PassPublishes(dag, l, u, f.node);
    PassHistories(dag, l, steps, s, t, f, r);
    PassSeen(l, u, t, f.node, BodyRoots(dag, f.node));
  }

  lemma LeftWitness(dag: Dag, l: Loop, steps: seq<Step>, s: State, f: Flight, r: Outcome)
    requires Witnessed(dag, l, steps, s) && r.Succeeded? && l.ctrl == {f.node} && f.node !in l.body
    requires f.node !in s.routed
    requires f.node != LOOP_STATE && forall g :: g in Record(s, f, r).inflight ==> g.node != f.node
    ensures Witnessed(dag, l, steps + [Recv(f, r)], Left(l, Record(s, f, r), f.node, r.routing))
  {
    var t, more := Left(l, Record(s, f, r), f.node, r.routing), steps + [Recv(f, r)];
    forall v | v in dag.nodes
      ensures LatestOK(Outs(more, v), t, v)
    {
      OutsAppend(steps, Recv(f, r), v);
      assert LatestOK(Outs(steps, v), s, v);
    }
    forall c | c in l.ctrl
      ensures RunsOK(Outs(more, c), t, c)
    {
      OutsAppend(steps, Recv(f, r), c);
      assert RunsOK(Outs(steps, c), s, c);
    }
  }

  lemma ControllerFacts(dag: Dag, l: Loop, s: State, f: Flight, r: Outcome)
    requires Shape(dag, l) && Inv(dag, l, s, []) && f in s.inflight && f.node in l.ctrl
    ensures l.ctrl == {f.node} && f.node !in l.body && f.node !in s.routed && f.node in dag.nodes
    ensures dag.BodyOf(f.node) == l.body && dag.TypeOf(f.node) == LOOP_CONTROLLER
    ensures IterationsOf(s, f.node) == s.passes
    ensures forall g :: g in Record(s, f, r).inflight ==> g.node != f.node
  {
    OnlyController(dag, l, f.node);
    RecordKeeps(dag, l, s, f, r);
    assert FlightOK(l, s, f);
  }

  lemma ReceivePasses(dag: Dag, s: State, f: Flight, r: Outcome)
    requires r.Succeeded? && s.firstErr == None && dag.TypeOf(f.node) == LOOP_CONTROLLER
    requires Iterates(dag, s, f.node, r.routing)
    ensures Receive(dag, s, f, r) == StartPass(dag, Record(s, f, r), f.node)
  {
    assert Iterates(dag, Record(s, f, r), f.node, r.routing);
  }

  lemma ReceiveLeaves(dag: Dag, l: Loop, s: State, f: Flight, r: Outcome)
    requires r.Succeeded? && s.firstErr == None && dag.TypeOf(f.node) == LOOP_CONTROLLER && dag.BodyOf(f.node) == l.body
    requires !Iterates(dag, s, f.node, r.routing)
    ensures Receive(dag, s, f, r) ==
      Deliver(dag, Left(l, Record(s, f, r), f.node, r.routing), SignalsOf(dag, f.node, r.routing))
  {
    assert !Iterates(dag, Record(s, f, r), f.node, r.routing);
    assert Routing(dag, Record(s, f, r), f.node, r.routing) == Left(l, Record(s, f, r), f.node, r.routing);
  }

  lemma LeaveWitness(dag: Dag, l: Loop, steps: seq<Step>, t: State, todo: seq<Signal>)
    requires Witnessed(dag, l, steps, t)
    ensures Witnessed(dag, l, steps, Deliver(dag, t, todo))
  {
    DeliverUntouched(dag, t, todo);
    UntouchedWitness(dag, l, steps, t, Deliver(dag, t, todo));
  }

  lemma ControllerWitness(dag: Dag, l: Loop, steps: seq<Step>, s: State, f: Flight, r: Outcome)
    requires Shape(dag, l) && Inv(dag, l, s, []) && Witnessed(dag, l, steps, s) && NoReservedIds(dag)
    requires f in s.inflight && r.Succeeded? && s.firstErr == None && f.node in l.ctrl
    ensures Witnessed(dag, l, steps + [Recv(f, r)], Receive(dag, s, f, r))
  {
    ControllerFacts(dag, l, s, f, r);
    if Iterates(dag, s, f.node, r.routing) {
      ReceivePasses(dag, s, f, r);
      PassWitness(dag, l, steps, s, Record(s, f, r), f, r);
    } else {
      ReceiveLeaves(dag, l, s, f, r);
      LeftWitness(dag, l, steps, s, f, r);
      var t := Left(l, Record(s, f, r), f.node, r.routing);
      LeaveWitness(dag, l, steps + [Recv(f, r)], t, SignalsOf(dag, f.node, r.routing));
    }
  }

  // ---- The theorem ----

  lemma ReceiveWitness(dag: Dag, l: Loop, steps: seq<Step>, s: State, f: Flight, r: Outcome)
    requires Shape(dag, l) && Inv(dag, l, s, []) && Witnessed(dag, l, steps, s) && NoReservedIds(dag)
    requires f in s.inflight && r.Succeeded? && s.firstErr == None
    ensures Witnessed(dag, l, steps + [Recv(f, r)], Receive(dag, s, f, r))
  {
    if f.node in l.ctrl {
      ControllerWitness(dag, l, steps, s, f, r);
    } else {
      OrdinaryWitness(dag, l, steps, s, f, r);
    }
  }

  /** The history of a run that has not failed. */
  ghost predicate Chronicle(dag: Dag, l: Loop, steps: seq<Step>, s: State)
  {
    s.firstErr == None ==> Witnessed(dag, l, steps, s)
  }

  lemma ApplyWitness(dag: Dag, l: Loop, steps: seq<Step>, s: State, step: Step)
    requires Shape(dag, l) && Inv(dag, l, s, []) && NoReservedIds(dag) && Enabled(s, step)
    requires Chronicle(dag, l, steps, s)
    ensures Chronicle(dag, l, steps + [step], Apply(dag, s, step))
  {
    match step
    case Read(v) =>
      if s.firstErr == None {
        ReadWitness(dag, l, steps, s, v);
      }
    case Recv(f, r) =>
      if s.firstErr != None || r.Failed? {
        FailureStays(dag, s, f, r);
      } else {
        ReceiveWitness(dag, l, steps, s, f, r);
      }
  }

  lemma {:induction false} RunWitness(dag: Dag, l: Loop, init: Data, steps: seq<Step>)
    requires Shape(dag, l) && NoReservedIds(dag) && IsRun(dag, init, steps)
    ensures Chronicle(dag, l, steps, After(dag, init, steps))
  {
    if steps == [] {
      StartWitness(dag, l, init);
    } else {
      LastStep(dag, init, steps);
      RunWitness(dag, l, init, steps[..|steps| - 1]);
      RunKeeps(dag, l, init, steps[..|steps| - 1]);
      ApplyWitness(dag, l, steps[..|steps| - 1], After(dag, init, steps[..|steps| - 1]), steps[|steps| - 1]);
    }
  }

  lemma StartWitness(dag: Dag, l: Loop, init: Data)
    requires NoReservedIds(dag)
    ensures Witnessed(dag, l, [], Start(dag, init))
  {
    var s := Start(dag, init);
    forall v | v in dag.nodes ensures LatestOK(Outs([], v), s, v) { }
    forall c ensures RunsOK(Outs([], c), s, c) { }
  }

  // ---- Every dispatch completes once ----

  /** The dispatches of `v` that have completed. */
  function Done(s: State, v: NodeId): int
  {
    s.launched[v] as int - (if v in s.started && v !in s.routed then 1 else 0)
  }

  lemma DeliverDone(dag: Dag, l: Loop, s: State, todo: seq<Signal>, v: NodeId)
    requires Fenced(dag, l) && Inv(dag, l, s, todo)
    ensures Done(Deliver(dag, s, todo), v) == Done(s, v)
  {
    ghost var keeps := (t, rest) => Inv(dag, l, t, rest) && Done(t, v) == Done(s, v);
    forall t, rest | rest != [] && keeps(t, rest)
      ensures keeps(Absorb(t, rest[0]), SentOn(dag, t, rest[0]) + rest[1..])
    {
      AbsorbKeeps(dag, l, t, rest);
      CountedKeeps(dag, l, t, rest);
      AbsorbDone(dag, l, t, rest[0], v);
    }
    DeliverInduction(dag, s, todo, keeps);
  }

  lemma AbsorbDone(dag: Dag, l: Loop, s: State, sig: Signal, v: NodeId)
    requires SignalFits(dag, l, s, sig)
    ensures Done(Absorb(s, sig), v) == Done(s, v)
  {
    ReactOnIdle(dag, l, s, sig);
    AbsorbTouches(s, sig);
  }

  /** A body node is not half done when a pass starts. */
  lemma BodyDone(dag: Dag, l: Loop, s: State, c: NodeId, b: NodeId)
    requires Shape(dag, l) && Inv(dag, l, s, []) && c in l.ctrl && c in s.started && c !in s.routed && b in l.body
    ensures Done(s, b) == s.launched[b] && (Looping(s) ==> IsSettled(s, b))
  {
    BodyRests(dag, l, s, c);
    assert OnceOK(s, c) && OnceOK(s, b);
    if Looping(s) {
      BackEdgesRouted(dag, l, s, c);
      BodySettled(dag, l, s, b);
    }
  }

  lemma PassedDone(dag: Dag, s: State, t: State, f: Flight, r: Outcome, v: NodeId)
    requires r.Succeeded? && Passed(dag, s, t, f, r) && f.node !in dag.BodyOf(f.node)
    requires f.node in s.started && f.node !in s.routed && (v in dag.BodyOf(f.node) ==> Done(s, v) == s.launched[v])
    ensures Done(t, v) == Done(s, v) + (if v == f.node then 1 else 0)
  {
    PassedLaunches(dag, s, t, f, v);
    if v !in dag.BodyOf(f.node) {
      PassedOutside(dag, s, t, f.node, v);
    }
  }

  lemma PassedLaunches(dag: Dag, s: State, t: State, f: Flight, v: NodeId)
    requires PassedFlying(dag, s, t, f) && PassedCounters(dag, s, t, f.node)
    ensures t.launched[v] == s.launched[v] + (if v in BodyRoots(dag, f.node) then 1 else 0)
    ensures v in dag.BodyOf(f.node) && f.node !in dag.BodyOf(f.node) ==>
      (v in t.started <==> v in BodyRoots(dag, f.node))
    ensures v in BodyRoots(dag, f.node) ==> v in dag.BodyOf(f.node)
  {
  }

  lemma ReceiveDone(dag: Dag, l: Loop, s: State, f: Flight, r: Outcome, v: NodeId)
    requires Shape(dag, l) && Inv(dag, l, s, []) && s.firstErr == None && f in s.inflight && r.Succeeded?
    ensures Done(Receive(dag, s, f, r), v) == Done(s, v) + (if v == f.node then 1 else 0)
  {
    TypeOfController(dag, l, f.node);
    assert FlightOK(l, s, f);
    if f.node !in l.ctrl {
      LandingDone(dag, l, s, f, r, v);
    } else if Iterates(dag, s, f.node, r.routing) {
      ReceiveStarts(dag, s, f, r);
      PassesIsPassed(dag, s, f, r);
      if v in l.body {
        BodyDone(dag, l, s, f.node, v);
      }
      PassedDone(dag, s, Passes(dag, s, f, r), f, r, v);
    } else {
      QuitsDone(dag, l, s, f, r, v);
    }
  }

  lemma LandingDone(dag: Dag, l: Loop, s: State, f: Flight, r: Outcome, v: NodeId)
    requires Fenced(dag, l) && Inv(dag, l, s, []) && s.firstErr == None && f in s.inflight && r.Succeeded?
    requires f.node !in l.ctrl && dag.TypeOf(f.node) != LOOP_CONTROLLER
    ensures Done(Receive(dag, s, f, r), v) == Done(s, v) + (if v == f.node then 1 else 0)
  {
    var u, todo := Landing(s, f, r), SignalsOf(dag, f.node, r.routing);
    assert FlightOK(l, s, f);
    LandsOneDone(s, f, r, v);
    LandingBeside(dag, l, s, [], f, r);
    assert todo + [] == todo;
    ReceiveLands(dag, s, f, r);
    DeliverDone(dag, l, u, todo, v);
  }

  lemma LandsOneDone(s: State, f: Flight, r: Outcome, v: NodeId)
    requires r.Succeeded? && f.node in s.started && f.node !in s.routed
    ensures Done(Landing(s, f, r), v) == Done(s, v) + (if v == f.node then 1 else 0)
  {
    LandingLands(s, f, r);
  }

  lemma QuitsDone(dag: Dag, l: Loop, s: State, f: Flight, r: Outcome, v: NodeId)
    requires Shape(dag, l) && Inv(dag, l, s, []) && s.firstErr == None && f in s.inflight && r.Succeeded?
    requires f.node in l.ctrl && !Iterates(dag, s, f.node, r.routing)
    ensures Done(Receive(dag, s, f, r), v) == Done(s, v) + (if v == f.node then 1 else 0)
  {
    var u, todo := Quits(l, s, f, r), SignalsOf(dag, f.node, r.routing);
    TypeOfController(dag, l, f.node);
    assert FlightOK(l, s, f);
    QuitsOneDone(l, s, f, r, v);
    QuitsKeeps(dag, l, s, f, r);
    ReceiveQuits(dag, l, s, f, r);
    DeliverDone(dag, l, u, todo, v);
  }

  lemma QuitsOneDone(l: Loop, s: State, f: Flight, r: Outcome, v: NodeId)
    requires r.Succeeded? && f.node in s.started && f.node !in s.routed
    ensures Done(Quits(l, s, f, r), v) == Done(s, v) + (if v == f.node then 1 else 0)
  {
    LandsOneDone(s, f, r, v);
    QuitsMarks(l, s, f, r);
  }

  /** As long as nothing has failed, the completed dispatches of a node are its outputs. */
  predicate CompletedOK(outs: seq<Data>, s: State, v: NodeId)
  {
    s.firstErr == None ==> |outs| == Done(s, v)
  }

  lemma ApplyCompleted(dag: Dag, l: Loop, steps: seq<Step>, s: State, step: Step, v: NodeId)
    requires Shape(dag, l) && Inv(dag, l, s, []) && Enabled(s, step) && CompletedOK(Outs(steps, v), s, v)
    ensures CompletedOK(Outs(steps + [step], v), Apply(dag, s, step), v)
  {
    OutsAppend(steps, step, v);
    if s.firstErr != None {
      ApplyHalted(dag, s, step);
    } else if step.Recv? {
      if step.outcome.Succeeded? {
        ReceiveDone(dag, l, s, step.flight, step.outcome, v);
      } else {
        FailureStays(dag, s, step.flight, step.outcome);
      }
    }
  }

  lemma {:induction false} RunCompleted(dag: Dag, l: Loop, init: Data, steps: seq<Step>, v: NodeId)
    requires Shape(dag, l) && IsRun(dag, init, steps)
    ensures CompletedOK(Outs(steps, v), After(dag, init, steps), v)
  {
    if steps != [] {
      LastStep(dag, init, steps);
      RunCompleted(dag, l, init, steps[..|steps| - 1], v);
      RunKeeps(dag, l, init, steps[..|steps| - 1]);
      ApplyCompleted(dag, l, steps[..|steps| - 1], After(dag, init, steps[..|steps| - 1]), steps[|steps| - 1], v);
    }
  }

  // ---- The theorem about passes ----

  /** What holds of the body node `b` when the controller is in flight after `k` executions: it ran at
      most `k` times, and exactly `k` times if it is sure to run; and the controller has read its
      latest output, if it has one. */
  ghost predicate IsolatedAt(dag: Dag, body: set<NodeId>, steps: seq<Step>, s: State, f: Flight, k: nat, b: NodeId)
  {
    var outs := Outs(steps, b);
    && s.launched[b] == |outs| <= k && (Sure(dag, body, b) ==> |outs| == k)
    && (k >= 1 && f.Running? ==>
          (b in f.inputs <==> |outs| > 0) && (b in f.inputs ==> f.inputs[b] == outs[|outs| - 1]))
  }

  /** What holds whenever the controller is in flight after `k` completed executions. */
  ghost predicate Isolated(dag: Dag, body: set<NodeId>, steps: seq<Step>, s: State, f: Flight, k: nat)
  {
    && (forall g :: g in s.inflight ==> g.node !in body)
    && (k >= 1 && f.Running? ==> LOOP_STATE in f.inputs && f.inputs[LOOP_STATE] == Iteration(k))
    && (forall b {:trigger IsolatedAt(dag, body, steps, s, f, k, b)} :: b in body ==>
          IsolatedAt(dag, body, steps, s, f, k, b))
  }

  lemma IsolatedNode(dag: Dag, l: Loop, s: State, c: NodeId, b: NodeId)
    requires Shape(dag, l) && IsoInv(dag, l, s) && c in l.ctrl && c in s.started && c !in s.routed && b in l.body
    ensures Done(s, b) == s.launched[b] <= s.passes && (Sure(dag, l.body, b) ==> s.launched[b] == s.passes)
  {
    BodyRests(dag, l, s, c);
    BodyDone(dag, l, s, c, b);
    if Looping(s) {
      assert TurnsOK(dag, l, s, b);
      if Sure(dag, l.body, b) {
        BodyCompleted(dag, l, s, c, b);
      }
    }
  }

  lemma SeesLatest(dag: Dag, l: Loop, steps: seq<Step>, s: State, f: Flight, b: NodeId)
    requires l.body <= dag.nodes.Keys && Histories(dag, l, steps, s) && f.Running? && SeesPass(l, s, f) && b in l.body
    ensures var outs := Outs(steps, b);
      (b in f.inputs <==> |outs| > 0) && (b in f.inputs ==> f.inputs[b] == outs[|outs| - 1])
  {
    assert LatestOK(Outs(steps, b), s, b);
  }

  lemma IsolatedState(dag: Dag, l: Loop, steps: seq<Step>, s: State, f: Flight)
    requires Shape(dag, l) && IsoInv(dag, l, s) && Witnessed(dag, l, steps, s) && s.firstErr == None
    requires forall b :: b in l.body ==> CompletedOK(Outs(steps, b), s, b)
    requires f in s.inflight && f.node in l.ctrl
    ensures Isolated(dag, l.body, steps, s, f, |Outs(steps, f.node)|)
  {
    assert FlightOK(l, s, f);
    assert RunsOK(Outs(steps, f.node), s, f.node);
    BodyRests(dag, l, s, f.node);
    forall b | b in l.body
      ensures IsolatedAt(dag, l.body, steps, s, f, s.passes, b)
    {
      IsolatedNode(dag, l, s, f.node, b);
      assert CompletedOK(Outs(steps, b), s, b);
      if Looping(s) && f.Running? {
        SeesLatest(dag, l, steps, s, f, b);
      }
    }
  }

  /** Iteration isolation. In an error-free run of a well-formed loop, whenever the controller is in
      flight with `k` executions behind it: no body node is in flight, every body node was
      dispatched and completed at most `k` times, and exactly `k` times if it is sure to run, as
      every body node is when the body has no branch labels; and for k >= 1 the data the
      controller read hold the iteration number `k` and each body node's latest output, which
      for one that is sure to run is that of pass `k`. */
  lemma IterationIsolation(dag: Dag, init: Data, steps: seq<Step>, f: Flight)
    requires Runnable(dag) && NoReservedIds(dag) && IsRun(dag, init, steps)
    requires After(dag, init, steps).firstErr == None && f in After(dag, init, steps).inflight
    requires f.node in dag.Controllers()
    ensures Isolated(dag, dag.BodyOf(f.node), steps, After(dag, init, steps), f, |Outs(steps, f.node)|)
    ensures PlainBody(dag, LoopOf(dag)) ==> forall b :: b in dag.BodyOf(f.node) ==> Sure(dag, dag.BodyOf(f.node), b)
  {
    RunnableShape(dag);
    var l := LoopOf(dag);
    RunTurns(dag, l, init, steps);
    RunWitness(dag, l, init, steps);
    forall b | b in l.body
      ensures CompletedOK(Outs(steps, b), After(dag, init, steps), b)
    {
      RunCompleted(dag, l, init, steps, b);
    }
    IsolatedState(dag, l, steps, After(dag, init, steps), f);
    forall b | b in l.body && PlainBody(dag, l)
      ensures Sure(dag, l.body, b)
    {
      PlainIsSure(dag, l, b);
    }
  }

  /** Even with branch labels in the body, and failures, nothing of the body is in flight
      while the controller is. */
  lemma ControllerRunsAlone(dag: Dag, init: Data, steps: seq<Step>, f: Flight, g: Flight)
    requires Runnable(dag) && IsRun(dag, init, steps)
    requires f in After(dag, init, steps).inflight && f.node in dag.Controllers()
    requires g in After(dag, init, steps).inflight
    ensures g.node !in dag.BodyOf(f.node) && (g.node == f.node ==> g == f)
  {
    RunnableShape(dag);
    RunKeeps(dag, LoopOf(dag), init, steps);
    ControllerAlone(dag, LoopOf(dag), After(dag, init, steps), g, f);
  }
}
