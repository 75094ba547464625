/** The supervisor as the runner implements it: counters and flags updated in place by
    loops and a recursive suppression, each proved against the state machine. */
module SupervisorImpl {
  import opened Workflow
  import opened Graph
  import opened DagModel
  import opened Scheduler
  import opened LoopBound
  import opened LoopSteps
  import opened LoopFree
  import opened Completion
  import opened Sequential
  import opened Confluence
  import LoopConfluence
  import opened LoopMeaning
  import LoopOutcome
  import opened Delivery
  import Context

  // ---- Signal lists piecewise ----

  lemma SuppressStep(edges: seq<Edge>, i: nat)
    requires i < |edges|
    ensures SuppressAll(edges[..i + 1]) == SuppressAll(edges[..i]) + [Signal(edges[i].target, Suppressed)]
  {
    assert edges[..i + 1][..i] == edges[..i];
  }

  lemma OutStep(edges: seq<Edge>, routing: Data, kind: string, i: nat)
    requires i < |edges|
    ensures OutSignals(edges[..i + 1], routing, kind) ==
      OutSignals(edges[..i], routing, kind) +
        [Signal(edges[i].target, if BranchAllows(edges[i], routing, kind) then Live else Suppressed)]
  {
    assert edges[..i + 1][..i] == edges[..i];
  }

  lemma BackStep(loopBack: seq<Edge>, v: NodeId, i: nat)
    requires i < |loopBack|
    ensures BackSignals(loopBack[..i + 1], v) ==
      BackSignals(loopBack[..i], v) + (if loopBack[i].source == v then [Signal(loopBack[i].target, Back)] else [])
  {
    assert loopBack[..i + 1][..i] == loopBack[..i];
  }

  lemma SumAssociates<T>(a: multiset<T>, b: set<T>, x: T)
    requires x !in b
    ensures a + multiset(b + {x}) == a + multiset(b) + multiset{x}
  {
  }

  lemma OneMoreFlight(before: multiset<Flight>, done: set<NodeId>, v: NodeId)
    requires v !in done
    ensures before + multiset(Flights(done + {v})) == before + multiset(Flights(done)) + multiset{Waiting(v)}
  {
    assert Flights(done + {v}) == Flights(done) + {Waiting(v)};
    SumAssociates(before, Flights(done), Waiting(v));
  }

  /** What dispatching the nodes of `done` adds to the counter, the flights and the histories. */
  ghost predicate Spawned(
    n: int, flights: multiset<Flight>, nodes: set<NodeId>, log: multiset<NodeId>, done: set<NodeId>,
    m: int, more: multiset<Flight>, all: set<NodeId>, longer: multiset<NodeId>)
  {
    && m == n + |done| && more == flights + multiset(Flights(done))
    && all == nodes + done && longer == log + multiset(done)
  }

  lemma OneMoreSpawned(
    n: int, flights: multiset<Flight>, nodes: set<NodeId>, log: multiset<NodeId>, due: set<NodeId>, rest: set<NodeId>,
    v: NodeId, m: int, more: multiset<Flight>, all: set<NodeId>, longer: multiset<NodeId>)
    requires v in rest && rest <= due && Spawned(n, flights, nodes, log, due - rest, m, more, all, longer)
    ensures Spawned(n, flights, nodes, log, due - (rest - {v}),
                    m + 1, more + multiset{Waiting(v)}, all + {v}, longer + multiset{v})
  {
    var done := due - rest;
    assert due - (rest - {v}) == done + {v};
    OneMoreFlight(flights, done, v);
    SumAssociates(log, done, v);
    assert nodes + done + {v} == nodes + (done + {v});
  }

  lemma AllSpawned(
    n: int, flights: multiset<Flight>, nodes: set<NodeId>, log: multiset<NodeId>, due: set<NodeId>,
    m: int, more: multiset<Flight>, all: set<NodeId>, longer: multiset<NodeId>)
    ensures Spawned(n, flights, nodes, log, due - due, n, flights, nodes, log)
    ensures Spawned(n, flights, nodes, log, due - {}, m, more, all, longer) ==>
      Spawned(n, flights, nodes, log, due, m, more, all, longer)
  {
    assert due - due == {} && Flights({}) == {} && due - {} == due;
  }

  lemma ResetOne(before: map<NodeId, int>, count: NodeId -> int, done: set<NodeId>, b: NodeId)
    requires b !in done
    ensures Overlaid(before, count, done)[b := count(b)] == Overlaid(before, count, done + {b})
  {
  }

  /** A map with the entries of `nodes` recomputed. */
  function Overlaid(before: map<NodeId, int>, count: NodeId -> int, nodes: set<NodeId>): map<NodeId, int>
  {
    before + map x | x in nodes :: count(x)
  }

  lemma RootsOfPass(dag: Dag, pending: map<NodeId, int>, c: NodeId, roots: set<NodeId>)
    requires c !in dag.BodyOf(c)
    requires roots == set b | b in dag.BodyOf(c) && PassPending(dag, pending, c)[b] == 0
    ensures roots == BodyRoots(dag, c)
  {
    forall b | b in dag.BodyOf(c)
      ensures PassPending(dag, pending, c)[b] == CountIn(dag.Preds(b), dag.BodyOf(c))
    {
      PassPendingAt(dag, pending, c, b);
    }
  }

  class Supervisor {
    const dag: Dag
    var pending: map<NodeId, int>
    var skipped: set<NodeId>
    var hasLive: set<NodeId>
    const context: Context.ExecutionContext
    var ancestors: map<NodeId, set<NodeId>>
    var nodeResults: map<NodeId, NodeResult>
    var loopIterations: map<NodeId, nat>
    var dispatched: nat
    var received: nat
    var firstErr: Option<string>
    var inflight: multiset<Flight>
    ghost var started: set<NodeId>
    ghost var routed: map<NodeId, Data>
    ghost var launched: multiset<NodeId>
    ghost var passes: nat
    ghost var exited: bool

    /** The variables and the history as one state of the machine. */
    ghost function Snapshot(): State
      reads this, context
    {
      State(pending, skipped, hasLive, context.outputs, ancestors, nodeResults, loopIterations, dispatched, received,
            firstErr, inflight, started, routed, launched, passes, exited)
    }

    constructor (dag: Dag, init: Data)
      ensures this.dag == dag && fresh(context) && Snapshot() == Fresh(dag, init)
    {
      this.dag := dag;
      context := new Context.ExecutionContext();
      pending := map v | v in dag.nodes :: |dag.Preds(v)|;
      skipped, hasLive := {}, {};
      ancestors, nodeResults, loopIterations := dag.ancestors, map[], map[];
      dispatched, received, firstErr := 0, 0, None;
      inflight := multiset{};
      started, routed, launched := {}, map[], multiset{};
      passes, exited := 0, false;
      new;
      context.Set(INITIAL, init);
      context.Set(LOOP_STATE, map["iteration" := Int(0)]);
    }

    /** Starts the goroutine of `v`. */
    method Spawn(v: NodeId)
      modifies `dispatched, `inflight, `started, `launched
      ensures dispatched == old(dispatched) + 1 && inflight == old(inflight) + multiset{Waiting(v)}
      ensures started == old(started) + {v} && launched == old(launched) + multiset{v}
    {
      dispatched, inflight := dispatched + 1, inflight + multiset{Waiting(v)};
      started, launched := started + {v}, launched + multiset{v};
    }

    method Launch(v: NodeId)
      modifies `dispatched, `inflight, `started, `launched
      ensures Snapshot() == Dispatch(old(Snapshot()), v)
    {
      Spawn(v);
    }

    /** Dispatches the nodes of a set one by one, in any order. */
    method LaunchAll(nodes: set<NodeId>)
      modifies `dispatched, `inflight, `started, `launched
      ensures Snapshot() == DispatchAll(old(Snapshot()), nodes)
    {
      SpawnAll(nodes);
    }

    method SpawnAll(nodes: set<NodeId>)
      modifies `dispatched, `inflight, `started, `launched
      ensures dispatched == old(dispatched) + |nodes| && inflight == old(inflight) + multiset(Flights(nodes))
      ensures started == old(started) + nodes && launched == old(launched) + multiset(nodes)
    {
      var rest := nodes;
      ghost var n, flights, before, log := dispatched, inflight, started, launched;
      AllSpawned(n, flights, before, log, nodes, dispatched, inflight, started, launched);
      while rest != {}
        invariant rest <= nodes
        invariant Spawned(n, flights, before, log, nodes - rest, dispatched, inflight, started, launched)
        decreases rest
      {
        var v :| v in rest;
        OneMoreSpawned(n, flights, before, log, nodes, rest, v, dispatched, inflight, started, launched);
        Spawn(v);
        rest := rest - {v};
      }
      AllSpawned(n, flights, before, log, nodes, dispatched, inflight, started, launched);
    }

    /** Dispatches the roots. */
    method Begin(ghost init: Data)
      requires Snapshot() == Fresh(dag, init)
      modifies this
      ensures Snapshot() == Start(dag, init)
    {
      var roots := set v | v in pending && pending[v] == 0;
      assert pending == Fresh(dag, init).pending;
      assert roots == Roots(dag);
      LaunchAll(roots);
    }

    /** Counts one report to `v` down. */
    method Count(v: NodeId, ghost kind: Kind)
      requires kind != Live
      modifies this
      ensures Snapshot() == Counted(old(Snapshot()), Signal(v, kind))
      ensures v in pending && pending[v] == PendingOf(old(Snapshot()), v) - 1 && skipped == old(skipped)
      ensures hasLive == old(hasLive)
    {
      pending := pending[v := (if v in pending then pending[v] else 0) - 1];
      SameState(Snapshot(), Counted(old(Snapshot()), Signal(v, kind)));
    }

    method Mark(v: NodeId)
      modifies this
      ensures Snapshot() == Skip(old(Snapshot()), v) && skipped == old(skipped) + {v}
    {
      skipped := skipped + {v};
      SameState(Snapshot(), Skip(old(Snapshot()), v));
    }

    /** Suppressed edge into `v`: counts it, and if nothing else is owed dispatches `v` or
        skips it together with everything only it leads to. */
    method PropagateSkip(v: NodeId)
      modifies this
      ensures Snapshot() == Deliver(dag, old(Snapshot()), [Signal(v, Suppressed)])
      ensures old(skipped) <= skipped
      decreases dag.nodes.Keys - skipped, 1
    {
      ghost var before := Snapshot();
      DeliverOne(dag, before, Signal(v, Suppressed));
      Count(v, Suppressed);
      if pending[v] > 0 || v in skipped {
        return;
      }
      if v in hasLive {
        Launch(v);
        return;
      }
      Mark(v);
      assert skipped - {v} == before.skipped;
      SuppressOut(v);
    }

    /** Suppresses every edge leaving the skipped node `v`. */
    method SuppressOut(v: NodeId)
      requires v in skipped
      modifies this
      ensures Snapshot() == Deliver(dag, old(Snapshot()), SuppressAll(dag.Out(v)))
      ensures old(skipped) <= skipped
      decreases dag.nodes.Keys - (skipped - {v}), 0
    {
      var out := dag.Out(v);
      ghost var before := Snapshot();
      for i := 0 to |out|
        invariant Snapshot() == Deliver(dag, before, SuppressAll(out[..i]))
        invariant before.skipped <= skipped
      {
        assert v in dag.nodes.Keys - (before.skipped - {v});
        PropagateSkip(out[i].target);
        SuppressStep(out, i);
        DeliverAppend(dag, before, SuppressAll(out[..i]), [Signal(out[i].target, Suppressed)]);
      }
      assert out[..|out|] == out;
    }

    /** Counts one live report to `v`. */
    method CountLive(v: NodeId)
      modifies `pending, `hasLive
      ensures Snapshot() == Counted(old(Snapshot()), Signal(v, Live))
      ensures v in pending && pending[v] == PendingOf(old(Snapshot()), v) - 1
    {
      hasLive := hasLive + {v};
      pending := pending[v := (if v in pending then pending[v] else 0) - 1];
    }

    /** Live edge into `v`. */
    method Fire(v: NodeId)
      modifies this
      ensures Snapshot() == Deliver(dag, old(Snapshot()), [Signal(v, Live)])
    {
      ghost var before := Snapshot();
      DeliverOne(dag, before, Signal(v, Live));
      CountLive(v);
      if pending[v] == 0 {
        Launch(v);
      }
    }

    /** Loop-back edge into the controller `v`. */
    method ReportBack(v: NodeId)
      modifies this
      ensures Snapshot() == Deliver(dag, old(Snapshot()), [Signal(v, Back)])
    {
      ghost var before := Snapshot();
      DeliverOne(dag, before, Signal(v, Back));
      Count(v, Back);
      if pending[v] == 0 {
        Launch(v);
      }
    }

    method RouteOut(v: NodeId, routing: Data)
      modifies this
      ensures Snapshot() == Deliver(dag, old(Snapshot()), OutSignals(dag.Out(v), routing, dag.TypeOf(v)))
    {
      var out, kind := dag.Out(v), dag.TypeOf(v);
      ghost var before := Snapshot();
      for i := 0 to |out|
        invariant Snapshot() == Deliver(dag, before, OutSignals(out[..i], routing, kind))
      {
        if BranchAllows(out[i], routing, kind) {
          Fire(out[i].target);
        } else {
          PropagateSkip(out[i].target);
        }
        OutStep(out, routing, kind, i);
        DeliverAppend(dag, before, OutSignals(out[..i], routing, kind),
                      [Signal(out[i].target, if BranchAllows(out[i], routing, kind) then Live else Suppressed)]);
      }
      assert out[..|out|] == out;
    }

    method RouteBack(v: NodeId)
      modifies this
      ensures Snapshot() == Deliver(dag, old(Snapshot()), BackSignals(dag.loopBack, v))
    {
      ghost var before := Snapshot();
      for i := 0 to |dag.loopBack|
        invariant Snapshot() == Deliver(dag, before, BackSignals(dag.loopBack[..i], v))
      {
        ghost var soFar := BackSignals(dag.loopBack[..i], v);
        BackStep(dag.loopBack, v, i);
        if dag.loopBack[i].source == v {
          ReportBack(dag.loopBack[i].target);
          DeliverAppend(dag, before, soFar, [Signal(dag.loopBack[i].target, Back)]);
        } else {
          assert soFar + [] == soFar;
        }
      }
      assert dag.loopBack[..|dag.loopBack|] == dag.loopBack;
    }

    method CountBodyInternalPredecessors(b: NodeId, body: set<NodeId>) returns (count: nat)
      ensures count == CountIn(dag.Preds(b), body)
    {
      var preds := dag.Preds(b);
      count := 0;
      for i := 0 to |preds|
        invariant count == CountIn(preds[..i], body)
      {
        assert preds[..i + 1][..i] == preds[..i];
        if preds[i] in body {
          count := count + 1;
        }
      }
      assert preds[..|preds|] == preds;
    }

    method CountLoopBack(c: NodeId) returns (count: nat)
      ensures count == LoopBackCount(dag.loopBack, c)
    {
      count := 0;
      for i := 0 to |dag.loopBack|
        invariant count == LoopBackCount(dag.loopBack[..i], c)
      {
        assert dag.loopBack[..i + 1][..i] == dag.loopBack[..i];
        if dag.loopBack[i].target == c {
          count := count + 1;
        }
      }
      assert dag.loopBack[..|dag.loopBack|] == dag.loopBack;
    }

    /** Resets the counters and flags of the body nodes, in any order. */
    method ResetCounters(body: set<NodeId>)
      modifies `pending, `skipped, `hasLive
      ensures pending == old(pending) + map b | b in body :: CountIn(dag.Preds(b), body)
      ensures skipped == old(skipped) - body && hasLive == old(hasLive) - body
    {
      var rest := body;
      ghost var done := {};
      while rest != {}
        invariant done + rest == body && done !! rest
        invariant pending == Overlaid(old(pending), x => CountIn(dag.Preds(x), body), done)
        invariant skipped == old(skipped) - done && hasLive == old(hasLive) - done
        decreases rest
      {
        var b :| b in rest;
        var count := CountBodyInternalPredecessors(b, body);
        pending := pending[b := count];
        ResetOne(old(pending), x => CountIn(dag.Preds(x), body), done, b);
        skipped, hasLive := skipped - {b}, hasLive - {b};
        done, rest := done + {b}, rest - {b};
      }
      assert done == body;
    }

    method SetPass(c: NodeId, pass: nat, visible: set<NodeId>)
      modifies `loopIterations, `ancestors, `passes, context
      ensures loopIterations == old(loopIterations)[c := pass] && passes == old(passes) + 1
      ensures context.outputs == old(context.outputs)[LOOP_STATE := map["iteration" := Int(pass)]]
      ensures ancestors == old(ancestors)[c := visible]
    {
      loopIterations := loopIterations[c := pass];
      context.Set(LOOP_STATE, map["iteration" := Int(pass)]);
      ancestors := ancestors[c := visible];
      passes := passes + 1;
    }

    /** Publishes the pass number and makes it and the body visible to the controller. */
    method Publish(c: NodeId)
      modifies `loopIterations, `ancestors, `passes, context
      ensures Snapshot() == Announce(dag, old(Snapshot()), c)
    {
      ghost var before := Snapshot();
      var pass := (if c in loopIterations then loopIterations[c] else 0) + 1;
      var visible := (if c in ancestors then ancestors[c] else {}) + {LOOP_STATE} + dag.BodyOf(c);
      SetPass(c, pass, visible);
      SameState(Snapshot(), Announce(dag, before, c));
    }

    /** Resets the counters of the body and of its controller `c` and finds the body nodes
        that can start at once. */
    method ResetLoop(c: NodeId) returns (roots: set<NodeId>)
      requires c !in dag.BodyOf(c)
      modifies `pending, `skipped, `hasLive
      ensures pending == PassPending(dag, old(pending), c) && roots == BodyRoots(dag, c)
      ensures skipped == old(skipped) - dag.BodyOf(c) && hasLive == old(hasLive) - dag.BodyOf(c) + roots
    {
      var body := dag.BodyOf(c);
      ghost var before := pending;
      ResetCounters(body);
      var backs := CountLoopBack(c);
      pending := pending[c := backs];
      assert pending == PassPending(dag, before, c);
      roots := set b | b in body && pending[b] == 0;
      RootsOfPass(dag, before, c, roots);
      hasLive := hasLive + roots;
    }

    method Prepare(c: NodeId) returns (roots: set<NodeId>)
      requires c !in dag.BodyOf(c)
      modifies this
      ensures Snapshot() == ResetBody(dag, old(Snapshot()), c) && roots == BodyRoots(dag, c)
    {
      ghost var before := Snapshot();
      roots := ResetLoop(c);
      started, routed := started - dag.BodyOf(c) - {c}, routed - dag.BodyOf(c);
      SameState(Snapshot(), ResetBody(dag, before, c));
    }

    /** Another pass over the body of the controller `c`. */
    method Iterate(c: NodeId)
      requires c !in dag.BodyOf(c)
      modifies this, context
      ensures Snapshot() == StartPass(dag, old(Snapshot()), c)
    {
      Publish(c);
      var roots := Prepare(c);
      LaunchAll(roots);
    }

    /** A controller's result: starts another pass, or marks the body as skipped and lets
        the caller route the controller's edges. */
    method HandleLoopIteration(c: NodeId, routing: Data) returns (again: bool)
      requires c !in dag.BodyOf(c)
      modifies this, context
      ensures again == Iterates(dag, old(Snapshot()), c, routing)
      ensures again ==> Snapshot() == StartPass(dag, old(Snapshot()), c)
      ensures !again ==> Snapshot() == old(Snapshot()).(skipped := old(skipped) + dag.BodyOf(c))
    {
      var done := if c in loopIterations then loopIterations[c] else 0;
      again := TextAt(routing, "action") == LOOP_BODY && done < MaxIterations(dag.ConfigOf(c));
      if again {
        Iterate(c);
      } else {
        skipped := skipped + dag.BodyOf(c);
      }
    }

    /** Routes the edges of a completed node. */
    method Route(v: NodeId, routing: Data)
      modifies this
      ensures Snapshot() == Deliver(dag, old(Snapshot()), SignalsOf(dag, v, routing))
    {
      ghost var before := Snapshot();
      RouteOut(v, routing);
      RouteBack(v);
      DeliverAppend(dag, before, OutSignals(dag.Out(v), routing, dag.TypeOf(v)), BackSignals(dag.loopBack, v));
    }

    /** Records that the edges of `v` are about to be routed. */
    ghost method NoteRouted(v: NodeId, routing: Data)
      modifies `routed, `exited
      ensures routed == old(routed)[v := routing] && exited == (old(exited) || dag.TypeOf(v) == LOOP_CONTROLLER)
    {
      routed := routed[v := routing];
      exited := exited || dag.TypeOf(v) == LOOP_CONTROLLER;
    }

    method ScheduleSuccessors(v: NodeId, routing: Data)
      requires v !in dag.BodyOf(v)
      modifies this, context
      ensures Snapshot() == Schedule(dag, old(Snapshot()), v, routing)
    {
      ghost var before := Snapshot();
      if dag.TypeOf(v) == LOOP_CONTROLLER {
        var again := HandleLoopIteration(v, routing);
        if again {
          return;
        }
      }
      NoteRouted(v, routing);
      SameState(Snapshot(), Routing(dag, before, v, routing));
      Route(v, routing);
    }

    method BookFailure(f: Flight, error: string)
      modifies `inflight, `received, `nodeResults, `firstErr
      ensures inflight == old(inflight) - multiset{f} && received == old(received) + 1
      ensures nodeResults == old(nodeResults)[f.node := NodeFailed(error)]
      ensures firstErr == (if old(firstErr) == None then Some(error) else old(firstErr))
    {
      inflight := inflight - multiset{f};
      received := received + 1;
      nodeResults := nodeResults[f.node := NodeFailed(error)];
      if firstErr == None {
        firstErr := Some(error);
      }
    }

    method BookSuccess(f: Flight, output: Data)
      modifies `inflight, `received, `nodeResults, context
      ensures inflight == old(inflight) - multiset{f} && received == old(received) + 1
      ensures nodeResults == old(nodeResults)[f.node := NodeSucceeded(output)]
      ensures context.outputs == old(context.outputs)[f.node := output]
    {
      inflight := inflight - multiset{f};
      received := received + 1;
      nodeResults := nodeResults[f.node := NodeSucceeded(output)];
      context.Set(f.node, output);
    }

    /** One received result, up to the point where successors are scheduled. */
    method Book(f: Flight, r: Outcome)
      modifies this, context
      ensures Snapshot() == Record(old(Snapshot()), f, r)
    {
      ghost var before := Snapshot();
      match r {
        case Failed(error) =>
          BookFailure(f, error);
          SameState(Snapshot(), Record(before, f, r));
        case Succeeded(output, _) =>
          BookSuccess(f, output);
          SameState(Snapshot(), Record(before, f, r));
      }
    }

    /** One turn of the supervisor loop. */
    method Take(f: Flight, r: Outcome)
      requires f.node !in dag.BodyOf(f.node)
      modifies this, context
      ensures Snapshot() == Receive(dag, old(Snapshot()), f, r)
    {
      Book(f, r);
      if r.Failed? || firstErr != None {
        return;
      }
      ScheduleSuccessors(f.node, r.routing);
    }

    /** The goroutine of `v` reads its upstream data. */
    method ReadUpstream(v: NodeId)
      modifies `inflight
      ensures Snapshot() == Apply(dag, old(Snapshot()), Read(v))
    {
      var merged := context.MergeUpstream(if v in ancestors then ancestors[v] else {});
      inflight := inflight - multiset{Waiting(v)} + multiset{Running(v, merged)};
    }
  }

  // ---- The whole run ----

  /** No node belongs to its own loop body. */
  lemma NotOwnBody(dag: Dag, v: NodeId)
    requires Built(dag)
    ensures v !in dag.BodyOf(v)
  {
    if v in dag.loopBody {
      BodyFacts(dag, v);
    }
  }

  /** The terms of a sum can be taken in any order. */
  lemma {:induction false} SumPick(f: NodeId -> int, ids: set<NodeId>, c: NodeId)
    requires c in ids
    ensures Sum(f, ids) == f(c) + Sum(f, ids - {c})
  {
    var d :| d in ids && Sum(f, ids) == f(d) + Sum(f, ids - {d});
    if d != c {
      SumPick(f, ids - {d}, c);
      SumPick(f, ids - {c}, d);
      assert ids - {d} - {c} == ids - {c} - {d};
    }
  }

  /** The capacity of the result channel. */
  method ComputeMaxDispatches(dag: Dag) returns (base: int)
    ensures base == MaxDispatches(dag)
  {
    base := |dag.nodes|;
    var rest := dag.loopBody.Keys;
    while rest != {}
      invariant base + Sum(LoopShare(dag), rest) == |dag.nodes| + Sum(LoopShare(dag), dag.loopBody.Keys)
      decreases rest
    {
      var c :| c in rest;
      SumPick(LoopShare(dag), rest, c);
      base := base + MaxIterations(dag.ConfigOf(c)) * (|dag.BodyOf(c)| + 1);
      rest := rest - {c};
    }
    if base < 1 {
      base := 1;
    }
  }

  lemma SomethingInFlight(dag: Dag, init: Data, steps: seq<Step>)
    requires Runnable(dag) && IsRun(dag, init, steps)
    ensures var s := After(dag, init, steps); s.received < s.dispatched <==> s.inflight != multiset{}
  {
    RunnableShape(dag);
    RunKeeps(dag, LoopOf(dag), init, steps);
  }

  /** `report` is what some complete run of the workflow with handlers `h` returns. */
  ghost predicate IsOutcome(dag: Dag, h: Handler, init: Data, report: Report)
  {
    exists steps :: IsRun(dag, init, steps) && Obeys(h, steps) && Quiescent(After(dag, init, steps)) &&
                    report == Finish(dag, After(dag, init, steps))
  }

  /** Lets any one goroutine in flight take its next step. */
  method Advance(sup: Supervisor, h: Handler, ghost init: Data, ghost steps: seq<Step>) returns (ghost more: seq<Step>)
    requires Built(sup.dag) && sup.inflight != multiset{}
    requires IsRun(sup.dag, init, steps) && Obeys(h, steps) && sup.Snapshot() == After(sup.dag, init, steps)
    modifies sup, sup.context
    ensures |more| == |steps| + 1 && IsRun(sup.dag, init, more) && Obeys(h, more)
    ensures sup.Snapshot() == After(sup.dag, init, more)
  {
    var f :| f in sup.inflight;
    ghost var step := Read(f.node);
    match f {
      case Waiting(v) => sup.ReadUpstream(v);
      case Running(v, inputs) =>
        NotOwnBody(sup.dag, v);
        step := Recv(f, h(v, inputs));
        sup.Take(f, h(v, inputs));
    }
    RunExtends(sup.dag, init, steps, step);
    ObeysMore(h, steps, step);
    more := steps + [step];
  }

  /** What a finished run reports, in terms of the sequential evaluation. */
  lemma OutcomeIsSequential(dag: Dag, h: Handler, init: Data, report: Report)
    requires IsOutcome(dag, h, init, report) && IsLoopFree(dag) && NoReservedIds(dag)
    ensures var m := Meaning(dag, h, init);
      if m.failed == map[] then report == SequentialReport(dag, m) else report.error != None
  {
    var steps :| IsRun(dag, init, steps) && Obeys(h, steps) && Quiescent(After(dag, init, steps)) &&
                 report == Finish(dag, After(dag, init, steps));
    ScheduleIndependence(dag, h, init, steps);
  }

  /** What a finished run reports, in terms of the one-at-a-time meaning with loops. */
  lemma OutcomeIsMeant(dag: Dag, h: Handler, init: Data, report: Report)
    requires Runnable(dag) && NoReservedIds(dag) && IsOutcome(dag, h, init, report)
    ensures var m := FullMeaning(dag, h, init);
      if m.error == None then report == FullReport(dag, m) else report.error != None
  {
    var steps :| IsRun(dag, init, steps) && Obeys(h, steps) && Quiescent(After(dag, init, steps)) &&
                 report == Finish(dag, After(dag, init, steps));
    LoopOutcome.RunsMeanThis(dag, h, init, steps);
  }

  /** Whatever order results arrive in, with loops or without: two complete runs return the same
      report, or both return an error. */
  lemma OutcomeIsUnique(dag: Dag, h: Handler, init: Data, report: Report, other: Report)
    requires Runnable(dag) && NoReservedIds(dag) && IsOutcome(dag, h, init, report) && IsOutcome(dag, h, init, other)
    ensures report == other || (report.error != None && other.error != None)
  {
    var a :| IsRun(dag, init, a) && Obeys(h, a) && Quiescent(After(dag, init, a)) &&
             report == Finish(dag, After(dag, init, a));
    var b :| IsRun(dag, init, b) && Obeys(h, b) && Quiescent(After(dag, init, b)) &&
             other == Finish(dag, After(dag, init, b));
    LoopConfluence.AnyOrder(dag, h, init, a, b);
  }

  /** The supervisor loop: it always terminates, whatever order results are taken in. */
  method Drive(dag: Dag, init: Data, h: Handler) returns (report: Report)
    requires Runnable(dag)
    ensures IsOutcome(dag, h, init, report)
  {
    var sup := new Supervisor(dag, init);
    sup.Begin(init);
    ghost var steps: seq<Step>, bound := [], 2 * MaxDispatches(dag);
    while sup.received < sup.dispatched
      invariant sup.dag == dag && fresh(sup) && fresh(sup.context) && IsRun(dag, init, steps) && Obeys(h, steps)
      invariant sup.Snapshot() == After(dag, init, steps)
      decreases bound - |steps|
    {
      SomethingInFlight(dag, init, steps);
      steps := Advance(sup, h, init, steps);
      RunsAreFinite(dag, init, steps);
    }
    report := Conclude(sup);
    EndIsOutcome(dag, h, init, steps, report);
  }

  lemma EndIsOutcome(dag: Dag, h: Handler, init: Data, steps: seq<Step>, report: Report)
    requires Runnable(dag) && IsRun(dag, init, steps) && Obeys(h, steps)
    requires var s := After(dag, init, steps); s.received >= s.dispatched && report == Finish(dag, s)
    ensures IsOutcome(dag, h, init, report)
  {
    SomethingInFlight(dag, init, steps);
  }

  /** Runs a workflow to the end. The report is that of some complete run, and it is what running the
      nodes one at a time returns, with loops or without, unless that fails: then so does the run.
      Every other complete run returns the same, or fails as well. */
  method RunDag(dag: Dag, init: Data, h: Handler) returns (report: Report)
    requires Runnable(dag)
    ensures IsOutcome(dag, h, init, report)
    ensures IsLoopFree(dag) && NoReservedIds(dag) ==>
      var m := Meaning(dag, h, init);
      if m.failed == map[] then report == SequentialReport(dag, m) else report.error != None
    ensures NoReservedIds(dag) ==>
      var m := FullMeaning(dag, h, init);
      if m.error == None then report == FullReport(dag, m) else report.error != None
    ensures NoReservedIds(dag) ==>
      forall other :: IsOutcome(dag, h, init, other) ==>
        report == other || (report.error != None && other.error != None)
  {
    if dag.nodes == map[] {
      report := Report(map[], map[], None);
      EmptyRun(dag, h, init);
    } else {
      report := Drive(dag, init, h);
    }
    if IsLoopFree(dag) && NoReservedIds(dag) {
      OutcomeIsSequential(dag, h, init, report);
    }
    if NoReservedIds(dag) {
      OutcomeIsMeant(dag, h, init, report);
    }
    forall other | NoReservedIds(dag) && IsOutcome(dag, h, init, other)
      ensures report == other || (report.error != None && other.error != None)
    {
      OutcomeIsUnique(dag, h, init, report, other);
    }
  }

  /** A workflow without nodes has nothing to run. */
  lemma EmptyRun(dag: Dag, h: Handler, init: Data)
    requires dag.nodes == map[]
    ensures IsOutcome(dag, h, init, Report(map[], map[], None))
  {
    var s := Start(dag, init);
    assert Roots(dag) == {};
    assert s == After(dag, init, []);
    assert SinkOutputs(dag, s.outputs) == map[];
    assert IsRun(dag, init, []) && Obeys(h, []) && Quiescent(s) && Finish(dag, s) == Report(map[], map[], None);
  }

  /** What the run returns once the supervisor loop has ended. */
  method Conclude(sup: Supervisor) returns (report: Report)
    ensures report == Finish(sup.dag, sup.Snapshot())
  {
    if sup.firstErr != None {
      return Report(map[], sup.nodeResults, sup.firstErr);
    }
    var final := sup.context.SinkOutputs(sup.dag);
    if final == map[] && exists v :: v in sup.skipped && (v !in sup.dag.successors || sup.dag.successors[v] == []) {
      return Report(map[], sup.nodeResults, Some(ALL_SUPPRESSED));
    }
    return Report(final, sup.nodeResults, None);
  }
}
