/** Schedule independence: whatever the order in which results arrive, a loop-free run
    with deterministic handlers ends like the sequential evaluation. */
module Confluence {
  import opened Workflow
  import opened DagModel
  import opened Scheduler
  import opened SchedulerInvariant
  import opened SchedulerSteps
  import opened LoopFree
  import opened Completion
  import opened Sequential

  predicate NoFailures(steps: seq<Step>)
  {
    forall i :: 0 <= i < |steps| && steps[i].Recv? ==> steps[i].outcome.Succeeded?
  }

  predicate ObeysAt(h: Handler, steps: seq<Step>, i: nat)
    requires i < |steps|
  {
    steps[i].Recv? && steps[i].flight.Running? && NoFailures(steps[..i]) ==>
      steps[i].outcome == h(steps[i].flight.node, steps[i].flight.inputs)
  }

  /** Up to the first failure, every received result is what the handlers answer to the data
      the flight read. The first failure cancels the other flights, so that what arrives
      after it may be anything. */
  predicate Obeys(h: Handler, steps: seq<Step>)
  {
    forall i {:trigger ObeysAt(h, steps, i)} :: 0 <= i < |steps| ==> ObeysAt(h, steps, i)
  }

  lemma ObeysFront(h: Handler, steps: seq<Step>)
    requires Obeys(h, steps) && steps != []
    ensures Obeys(h, steps[..|steps| - 1])
  {
    var front := steps[..|steps| - 1];
    forall i | 0 <= i < |front|
      ensures ObeysAt(h, front, i)
    {
      assert ObeysAt(h, steps, i) && steps[..i] == front[..i];
    }
  }

  lemma ObeysMore(h: Handler, steps: seq<Step>, step: Step)
    requires Obeys(h, steps)
    requires step.Recv? && step.flight.Running? ==> step.outcome == h(step.flight.node, step.flight.inputs)
    ensures Obeys(h, steps + [step])
  {
    var more := steps + [step];
    forall i | 0 <= i < |more|
      ensures ObeysAt(h, more, i)
    {
      if i < |steps| {
        assert ObeysAt(h, steps, i) && more[..i] == steps[..i];
      }
    }
  }

  /** A run without an error has received no failure. */
  lemma {:induction false} ErrorFree(dag: Dag, init: Data, steps: seq<Step>)
    requires After(dag, init, steps).firstErr == None
    ensures NoFailures(steps)
  {
    if steps != [] {
      LastStepSucceeds(dag, init, steps);
      ErrorFree(dag, init, steps[..|steps| - 1]);
      NoFailuresMore(steps);
    }
  }

  lemma LastStepSucceeds(dag: Dag, init: Data, steps: seq<Step>)
    requires steps != [] && After(dag, init, steps).firstErr == None
    ensures After(dag, init, steps[..|steps| - 1]).firstErr == None
    ensures steps[|steps| - 1].Recv? ==> steps[|steps| - 1].outcome.Succeeded?
  {
    BeforeNoError(dag, After(dag, init, steps[..|steps| - 1]), steps[|steps| - 1]);
  }

  lemma NoFailuresMore(steps: seq<Step>)
    requires steps != [] && NoFailures(steps[..|steps| - 1])
    requires steps[|steps| - 1].Recv? ==> steps[|steps| - 1].outcome.Succeeded?
    ensures NoFailures(steps)
  {
    assert forall i :: 0 <= i < |steps| - 1 ==> steps[..|steps| - 1][i] == steps[i];
  }

  /** No error after a step means that there was none before it and that the step brought none. */
  lemma BeforeNoError(dag: Dag, s: State, step: Step)
    requires Apply(dag, s, step).firstErr == None
    ensures s.firstErr == None && (step.Recv? ==> step.outcome.Succeeded?)
  {
    if s.firstErr != None {
      ApplyHalted(dag, s, step);
    } else if step.Recv? && step.outcome.Failed? {
      FailureStays(dag, s, step.flight, step.outcome);
    }
  }

  /** A routed node has the output and the routing output of the sequential evaluation. */
  predicate AgreesAt(s: State, m: Evaluation, v: NodeId)
  {
    v in s.routed ==>
      v in m.routing && s.routed[v] == m.routing[v] && v in s.outputs && v in m.outputs && s.outputs[v] == m.outputs[v]
  }

  ghost predicate Agrees(dag: Dag, s: State, m: Evaluation)
  {
    forall v {:trigger AgreesAt(s, m, v)} :: v in dag.nodes ==> AgreesAt(s, m, v)
  }

  /** A flight that has read its data has read what the sequential evaluation would give it. */
  ghost predicate FlightsAgree(dag: Dag, init: Data, s: State, m: Evaluation)
  {
    forall f :: f in s.inflight && f.Running? ==> f.inputs == SeqInputs(dag, init, m.outputs, f.node)
  }

  ghost predicate Following(dag: Dag, init: Data, s: State, m: Evaluation)
  {
    && Agrees(dag, s, m)
    && FlightsAgree(dag, init, s, m)
    && s.ancestors == dag.ancestors
    && INITIAL in s.outputs && s.outputs[INITIAL] == init
    && LOOP_STATE in s.outputs && s.outputs[LOOP_STATE] == map["iteration" := Int(0)]
  }

  // ---- Dispatch and suppression follow the sequential evaluation ----

  /** A dispatched node is triggered in the sequential evaluation, a skipped one is not. */
  ghost predicate DecidedAt(dag: Dag, s: State, m: Evaluation, v: NodeId)
  {
    && (v in s.started ==> Triggered(dag, m.routing, v))
    && (v in s.skipped ==> !Triggered(dag, m.routing, v))
  }

  lemma EdgeAgrees(dag: Dag, h: Handler, init: Data, s: State, m: Evaluation, e: Edge)
    requires AgreesAt(s, m, e.source) && Consistent(dag, h, init, m, e.source) && DecidedAt(dag, s, m, e.source)
    requires IsSettled(s, e.source)
    ensures Fires(dag, s.routed, e) <==> Fires(dag, m.routing, e)
  {
  }

  lemma {:induction false} Decided(dag: Dag, h: Handler, init: Data, s: State, v: NodeId)
    requires IsLoopFree(dag) && NoReservedIds(dag) && FreeState(dag, s) && v in dag.nodes
    requires Agrees(dag, s, Meaning(dag, h, init))
    ensures DecidedAt(dag, s, Meaning(dag, h, init), v)
    decreases IndexOf(dag.order, v)
  {
    var m := Meaning(dag, h, init);
    if v in s.started || v in s.skipped {
      forall e | e in dag.forward && e.target == v
        ensures Fires(dag, s.routed, e) <==> Fires(dag, m.routing, e)
      {
        assert PointsLater(dag.order, e);
        Decided(dag, h, init, s, e.source);
        PredsSettled(dag, s, e);
        MeaningConsistent(dag, h, init, e.source);
        assert AgreesAt(s, m, e.source);
        EdgeAgrees(dag, h, init, s, m, e);
      }
      assert CauseOK(dag, s, v) && LiveOK(dag, s, [], v) && OnceOK(s, v);
    }
  }

  // ---- Every ancestor has settled when a node reads ----

  /** The source of an edge into a dispatched or skipped node has settled, so it was itself
      dispatched or skipped. */
  ghost predicate SourceSettled(dag: Dag, s: State, e: Edge)
  {
    (e.target in s.started || e.target in s.skipped) ==>
      e.source in dag.nodes && IsSettled(s, e.source) && (e.source in s.started || e.source in s.skipped)
  }

  lemma {:induction false} PathSettled(dag: Dag, s: State, p: seq<NodeId>, i: nat)
    requires forall e {:trigger SourceSettled(dag, s, e)} :: e in dag.forward ==> SourceSettled(dag, s, e)
    requires IsPath(dag.forward, p) && i < |p| - 1 && p[|p| - 1] in s.started
    ensures p[i] in dag.nodes && IsSettled(s, p[i]) && (p[i] in s.started || p[i] in s.skipped)
    decreases |p| - i
  {
    assert HasEdge(dag.forward, p[i], p[i + 1]);
    var e :| e in dag.forward && e.source == p[i] && e.target == p[i + 1];
    if i + 1 < |p| - 1 {
      PathSettled(dag, s, p, i + 1);
    }
    assert SourceSettled(dag, s, e);
  }

  lemma AncestorSettled(dag: Dag, s: State, u: NodeId, v: NodeId)
    requires Built(dag) && Inv(dag, NO_LOOP, s, []) && v in s.started && v in dag.nodes && u in dag.ancestors[v]
    ensures u in dag.nodes && IsSettled(s, u)
  {
    var p :| |p| >= 2 && PathBetween(dag.forward, p, u, v);
    forall e | e in dag.forward
      ensures SourceSettled(dag, s, e)
    {
      if e.target in s.started || e.target in s.skipped {
        PredsSettled(dag, s, e);
        assert OnceOK(s, e.source);
      }
    }
    PathSettled(dag, s, p, 0);
  }

  /** A settled node has the same output in the run as in the sequential evaluation, or none in both. */
  lemma SettledOutput(dag: Dag, h: Handler, init: Data, s: State, m: Evaluation, u: NodeId)
    requires AgreesAt(s, m, u) && RecordOK(s, u) && OnceOK(s, u) && Consistent(dag, h, init, m, u)
    requires DecidedAt(dag, s, m, u)
    requires IsSettled(s, u) && s.firstErr == None && u != INITIAL && u != LOOP_STATE
    ensures (u in s.outputs <==> u in m.outputs) && (u in s.outputs ==> s.outputs[u] == m.outputs[u])
  {
  }

  lemma AncestorOutput(dag: Dag, h: Handler, init: Data, s: State, u: NodeId, v: NodeId)
    requires IsLoopFree(dag) && NoReservedIds(dag) && FreeState(dag, s) && s.firstErr == None
    requires v in s.started && v in dag.nodes && u in dag.ancestors[v]
    requires Agrees(dag, s, Meaning(dag, h, init))
    ensures SameOutput(init, s, Meaning(dag, h, init), u)
  {
    AncestorSettled(dag, s, u, v);
    Decided(dag, h, init, s, u);
    MeaningConsistent(dag, h, init, u);
    SettledNode(dag, h, init, s, Meaning(dag, h, init), u);
  }

  lemma SettledNode(dag: Dag, h: Handler, init: Data, s: State, m: Evaluation, u: NodeId)
    requires FreeState(dag, s) && s.firstErr == None && NoReservedIds(dag) && u in dag.nodes && IsSettled(s, u)
    requires Agrees(dag, s, m) && Consistent(dag, h, init, m, u) && DecidedAt(dag, s, m, u)
    ensures SameOutput(init, s, m, u)
  {
    assert AgreesAt(s, m, u) && RecordOK(s, u) && OnceOK(s, u);
    SettledOutput(dag, h, init, s, m, u);
  }

  lemma ReadsSequentialInputs(dag: Dag, h: Handler, init: Data, s: State, v: NodeId)
    requires IsLoopFree(dag) && NoReservedIds(dag) && FreeState(dag, s) && s.firstErr == None
    requires Agrees(dag, s, Meaning(dag, h, init)) && v in s.started && v in dag.nodes
    requires s.ancestors == dag.ancestors && INITIAL in s.outputs && s.outputs[INITIAL] == init
    ensures Upstream(s, v) == SeqInputs(dag, init, Meaning(dag, h, init).outputs, v)
  {
    var m := Meaning(dag, h, init);
    MeaningDomain(dag, h, init, INITIAL);
    forall u | u in dag.ancestors[v]
      ensures SameOutput(init, s, m, u)
    {
      AncestorOutput(dag, h, init, s, u, v);
    }
    InputsFromOutputs(dag, init, s, m, v);
  }

  predicate SameOutput(init: Data, s: State, m: Evaluation, u: NodeId)
  {
    var context := Context(init, m.outputs);
    (u in s.outputs <==> u in context) && (u in s.outputs ==> s.outputs[u] == context[u])
  }

  lemma InputsFromOutputs(dag: Dag, init: Data, s: State, m: Evaluation, v: NodeId)
    requires v in dag.ancestors && s.ancestors == dag.ancestors && INITIAL in s.outputs && s.outputs[INITIAL] == init
    requires INITIAL !in m.outputs
    requires forall u {:trigger SameOutput(init, s, m, u)} :: u in dag.ancestors[v] ==> SameOutput(init, s, m, u)
    ensures Upstream(s, v) == SeqInputs(dag, init, m.outputs, v)
  {
    var context := Context(init, m.outputs);
    forall u | u == INITIAL || u in dag.ancestors[v]
      ensures u in s.outputs <==> u in context
      ensures u in s.outputs ==> s.outputs[u] == context[u]
    {
      assert u != INITIAL ==> SameOutput(init, s, m, u);
    }
    MergeAgrees(s.outputs, context, dag.ancestors[v]);
  }

  // ---- The relation is kept ----

  lemma StartFollows(dag: Dag, h: Handler, init: Data)
    ensures Following(dag, init, Start(dag, init), Meaning(dag, h, init))
  {
    var s, m := Start(dag, init), Meaning(dag, h, init);
    assert forall v :: AgreesAt(s, m, v);
  }

  lemma ReadFlightsAgree(dag: Dag, init: Data, s: State, m: Evaluation, v: NodeId)
    requires Following(dag, init, s, m) && Upstream(s, v) == SeqInputs(dag, init, m.outputs, v)
    ensures Following(dag, init, Apply(dag, s, Read(v)), m)
  {
    var t := Apply(dag, s, Read(v));
    forall w | w in dag.nodes
      ensures AgreesAt(t, m, w)
    {
      assert AgreesAt(s, m, w);
    }
  }

  lemma ReadFollows(dag: Dag, h: Handler, init: Data, s: State, v: NodeId)
    requires IsLoopFree(dag) && NoReservedIds(dag) && FreeState(dag, s) && s.firstErr == None
    requires Following(dag, init, s, Meaning(dag, h, init)) && Waiting(v) in s.inflight
    ensures Following(dag, init, Apply(dag, s, Read(v)), Meaning(dag, h, init))
  {
    assert FlightOK(NO_LOOP, s, Waiting(v));
    ReadsSequentialInputs(dag, h, init, s, v);
    ReadFlightsAgree(dag, init, s, Meaning(dag, h, init), v);
  }

  /** A node in flight answers as in the sequential evaluation. */
  lemma AnswersAlike(dag: Dag, h: Handler, init: Data, s: State, f: Flight)
    requires IsLoopFree(dag) && NoReservedIds(dag) && FreeState(dag, s)
    requires Following(dag, init, s, Meaning(dag, h, init)) && f in s.inflight && f.Running?
    ensures f.node in dag.nodes
    ensures var m := Meaning(dag, h, init);
      match h(f.node, f.inputs)
      case Succeeded(output, routing) =>
        f.node in m.outputs && m.outputs[f.node] == output && f.node in m.routing && m.routing[f.node] == routing
      case Failed(error) => f.node in m.failed
  {
    assert FlightOK(NO_LOOP, s, f);
    Decided(dag, h, init, s, f.node);
    MeaningConsistent(dag, h, init, f.node);
  }

  lemma LandingFollows(dag: Dag, init: Data, s: State, m: Evaluation, f: Flight, r: Outcome)
    requires Following(dag, init, s, m) && f in s.inflight && r.Succeeded?
    requires f.node != INITIAL && f.node != LOOP_STATE
    requires f.node in m.outputs && m.outputs[f.node] == r.output && f.node in m.routing
    requires m.routing[f.node] == r.routing
    ensures Following(dag, init, Landing(s, f, r), m)
  {
    var t := Landing(s, f, r);
    forall w | w in dag.nodes
      ensures AgreesAt(t, m, w)
    {
      assert AgreesAt(s, m, w);
    }
    assert forall g :: g in t.inflight ==> g in s.inflight;
  }

  lemma CarryFollows(dag: Dag, init: Data, s: State, t: State, m: Evaluation)
    requires Following(dag, init, s, m) && SameRecords(s, t)
    ensures Following(dag, init, t, m)
  {
    forall w | w in dag.nodes
      ensures AgreesAt(t, m, w)
    {
      assert AgreesAt(s, m, w);
    }
    forall f | f in t.inflight && f.Running?
      ensures f.inputs == SeqInputs(dag, init, m.outputs, f.node)
    {
      assert f in s.inflight;
    }
  }

  lemma ReceiveFollows(dag: Dag, h: Handler, init: Data, s: State, f: Flight, r: Outcome)
    requires IsLoopFree(dag) && NoReservedIds(dag) && FreeState(dag, s) && s.firstErr == None
    requires Following(dag, init, s, Meaning(dag, h, init)) && f in s.inflight && f.Running?
    requires r == h(f.node, f.inputs) && r.Succeeded?
    ensures Following(dag, init, Receive(dag, s, f, r), Meaning(dag, h, init))
  {
    var m, t := Meaning(dag, h, init), Landing(s, f, r);
    AnswersAlike(dag, h, init, s, f);
    LandingFollows(dag, init, s, m, f, r);
    LoopFreeShape(dag);
    RecordKeeps(dag, NO_LOOP, s, f, r);
    FireKeeps(dag, NO_LOOP, Record(s, f, r), f.node, r.routing);
    DeliverRecords(dag, t, SignalsOf(dag, f.node, r.routing));
    CarryFollows(dag, init, t, Deliver(dag, t, SignalsOf(dag, f.node, r.routing)), m);
    ReceiveRoutes(dag, s, f, r);
  }

  /** A run that has not failed follows the sequential evaluation; one that has failed did
      so because some node fails there too. */
  ghost predicate Tracks(dag: Dag, init: Data, s: State, m: Evaluation)
  {
    if s.firstErr == None then Following(dag, init, s, m) else m.failed != map[]
  }

  lemma FailureTracks(dag: Dag, init: Data, s: State, m: Evaluation, f: Flight, r: Outcome)
    requires r.Failed? && f.node in m.failed
    ensures Tracks(dag, init, Receive(dag, s, f, r), m)
  {
    assert Receive(dag, s, f, r) == Record(s, f, r);
  }

  lemma SuccessTracks(dag: Dag, h: Handler, init: Data, s: State, f: Flight, r: Outcome)
    requires IsLoopFree(dag) && NoReservedIds(dag) && FreeState(dag, s) && s.firstErr == None
    requires Following(dag, init, s, Meaning(dag, h, init)) && f in s.inflight && f.Running?
    requires r == h(f.node, f.inputs) && r.Succeeded?
    ensures Tracks(dag, init, Receive(dag, s, f, r), Meaning(dag, h, init))
  {
    ReceiveFollows(dag, h, init, s, f, r);
    KeepsNoError(dag, s, f, r);
  }

  lemma HaltTracks(dag: Dag, init: Data, s: State, m: Evaluation, f: Flight, r: Outcome)
    requires s.firstErr != None && m.failed != map[]
    ensures Tracks(dag, init, Receive(dag, s, f, r), m)
  {
    ApplyHalted(dag, s, Recv(f, r));
  }

  lemma ReceiveTracks(dag: Dag, h: Handler, init: Data, s: State, f: Flight, r: Outcome)
    requires IsLoopFree(dag) && NoReservedIds(dag) && FreeState(dag, s) && f in s.inflight && f.Running?
    requires Tracks(dag, init, s, Meaning(dag, h, init)) && (s.firstErr == None ==> r == h(f.node, f.inputs))
    ensures Tracks(dag, init, Receive(dag, s, f, r), Meaning(dag, h, init))
  {
    if s.firstErr != None {
      HaltTracks(dag, init, s, Meaning(dag, h, init), f, r);
    } else if r.Succeeded? {
      SuccessTracks(dag, h, init, s, f, r);
    } else {
      AnswersAlike(dag, h, init, s, f);
      FailureTracks(dag, init, s, Meaning(dag, h, init), f, r);
    }
  }

  lemma KeepsNoError(dag: Dag, s: State, f: Flight, r: Outcome)
    requires IsLoopFree(dag) && FreeState(dag, s) && f in s.inflight && r.Succeeded? && s.firstErr == None
    ensures Receive(dag, s, f, r).firstErr == None
  {
    LoopFreeShape(dag);
    RecordKeeps(dag, NO_LOOP, s, f, r);
    FireKeeps(dag, NO_LOOP, Record(s, f, r), f.node, r.routing);
    DeliverRecords(dag, Landing(s, f, r), SignalsOf(dag, f.node, r.routing));
    ReceiveRoutes(dag, s, f, r);
  }

  lemma {:induction false} RunTracks(dag: Dag, h: Handler, init: Data, steps: seq<Step>)
    requires IsLoopFree(dag) && NoReservedIds(dag) && IsRun(dag, init, steps) && Obeys(h, steps)
    ensures Tracks(dag, init, After(dag, init, steps), Meaning(dag, h, init))
  {
    if steps == [] {
      StartFollows(dag, h, init);
    } else {
      var front := steps[..|steps| - 1];
      ObeysFront(h, steps);
      RunTracks(dag, h, init, front);
      RunFree(dag, init, front);
      var s := After(dag, init, front);
      if s.firstErr == None {
        ErrorFree(dag, init, front);
      }
      assert ObeysAt(h, steps, |steps| - 1);
      match steps[|steps| - 1]
      case Read(v) =>
        if s.firstErr == None {
          ReadFollows(dag, h, init, s, v);
        }
      case Recv(f, r) => ReceiveTracks(dag, h, init, s, f, r);
    }
  }

  // ---- The end of a run ----

  /** `s` holds exactly what the sequential evaluation produced. */
  ghost predicate EndsLike(dag: Dag, init: Data, s: State, m: Evaluation)
  {
    && m.failed == map[]
    && s.routed == m.routing && s.outputs == Context(init, m.outputs)
    && s.skipped == dag.nodes.Keys - m.outputs.Keys
    && s.nodeResults == (map v | v in m.outputs :: NodeSucceeded(m.outputs[v]))
  }

  ghost predicate EndAt(s: State, m: Evaluation, v: NodeId)
  {
    && v !in m.failed
    && (v in s.routed <==> v in m.routing) && (v in s.routed ==> s.routed[v] == m.routing[v])
    && (v in s.outputs <==> v in m.outputs) && (v in s.outputs ==> s.outputs[v] == m.outputs[v])
    && (v in s.skipped <==> v !in m.outputs)
    && (v in s.nodeResults <==> v in m.outputs)
    && (v in s.nodeResults ==> s.nodeResults[v] == NodeSucceeded(m.outputs[v]))
  }

  lemma EndLocally(dag: Dag, h: Handler, init: Data, s: State, m: Evaluation, v: NodeId)
    requires AgreesAt(s, m, v) && RecordOK(s, v) && OnceOK(s, v) && Consistent(dag, h, init, m, v)
    requires DecidedAt(dag, s, m, v)
    requires (v in s.routed <==> v !in s.skipped) && s.firstErr == None && v != INITIAL && v != LOOP_STATE
    ensures EndAt(s, m, v)
  {
  }

  lemma EndsAtNode(dag: Dag, h: Handler, init: Data, s: State, v: NodeId)
    requires IsLoopFree(dag) && NoReservedIds(dag) && Completed(dag, s) && v in dag.nodes
    requires Agrees(dag, s, Meaning(dag, h, init))
    ensures EndAt(s, Meaning(dag, h, init), v)
  {
    ExecutedOrSkipped(dag, s, v);
    Decided(dag, h, init, s, v);
    MeaningConsistent(dag, h, init, v);
    assert AgreesAt(s, Meaning(dag, h, init), v) && RecordOK(s, v) && OnceOK(s, v);
    EndLocally(dag, h, init, s, Meaning(dag, h, init), v);
  }

  lemma OutputsFromNodes(dag: Dag, init: Data, s: State, m: Evaluation)
    requires forall v {:trigger EndAt(s, m, v)} :: v in dag.nodes ==> EndAt(s, m, v)
    requires m.outputs.Keys <= dag.nodes.Keys && NoReservedIds(dag)
    requires forall k :: k in s.outputs ==> k in dag.nodes || k == INITIAL || k == LOOP_STATE
    requires INITIAL in s.outputs && s.outputs[INITIAL] == init
    requires LOOP_STATE in s.outputs && s.outputs[LOOP_STATE] == map["iteration" := Int(0)]
    ensures s.outputs == Context(init, m.outputs)
  {
    var context := Context(init, m.outputs);
    forall k
      ensures k in s.outputs <==> k in context
      ensures k in s.outputs ==> s.outputs[k] == context[k]
    {
      assert k in dag.nodes ==> EndAt(s, m, k);
    }
  }

  /** Agreement at every node, and nothing else stored, is agreement of the whole state. */
  lemma EndsFromNodes(dag: Dag, init: Data, s: State, m: Evaluation)
    requires forall v {:trigger EndAt(s, m, v)} :: v in dag.nodes ==> EndAt(s, m, v)
    requires forall v :: v in m.outputs || v in m.routing || v in m.failed ==> v in dag.nodes
    requires s.routed.Keys <= dag.nodes.Keys && s.skipped <= dag.nodes.Keys && s.nodeResults.Keys <= dag.nodes.Keys
    requires forall k :: k in s.outputs ==> k in dag.nodes || k == INITIAL || k == LOOP_STATE
    requires INITIAL in s.outputs && s.outputs[INITIAL] == init && NoReservedIds(dag)
    requires LOOP_STATE in s.outputs && s.outputs[LOOP_STATE] == map["iteration" := Int(0)]
    ensures EndsLike(dag, init, s, m)
  {
    OutputsFromNodes(dag, init, s, m);
    assert forall v :: v in dag.nodes ==> EndAt(s, m, v);
    assert m.failed == map[];
    assert s.routed == m.routing;
    assert s.skipped == dag.nodes.Keys - m.outputs.Keys;
  }

  lemma CompletedEnds(dag: Dag, h: Handler, init: Data, s: State)
    requires IsLoopFree(dag) && NoReservedIds(dag) && Completed(dag, s)
    requires Following(dag, init, s, Meaning(dag, h, init))
    ensures EndsLike(dag, init, s, Meaning(dag, h, init))
  {
    var m := Meaning(dag, h, init);
    forall v
      ensures v in m.outputs || v in m.routing || v in m.failed ==> v in dag.nodes
    {
      MeaningDomain(dag, h, init, v);
    }
    forall v | v in dag.nodes
      ensures EndAt(s, m, v)
    {
      EndsAtNode(dag, h, init, s, v);
    }
    EndsFromNodes(dag, init, s, m);
  }

  lemma SameFinal(dag: Dag, init: Data, outputs: map<NodeId, Data>)
    requires NoReservedIds(dag)
    ensures SinkOutputs(dag, Context(init, outputs)) ==
      map v | v in dag.nodes && dag.IsSink(v) && v in outputs :: outputs[v]
  {
  }

  lemma SameReport(dag: Dag, init: Data, s: State, m: Evaluation)
    requires EndsLike(dag, init, s, m) && s.firstErr == None && NoReservedIds(dag)
    requires dag.nodes == map[] || ReportsSinks(dag, s, Finish(dag, s))
    ensures Finish(dag, s) == SequentialReport(dag, m)
  {
    SameFinal(dag, init, m.outputs);
    var final := SinkOutputs(dag, s.outputs);
    if dag.nodes != map[] {
      assert final == map[] <==> forall v :: dag.IsSink(v) ==> v in s.skipped;
    }
  }

  /** Schedule independence. Every finished run of a loop-free workflow with deterministic
      handlers fails exactly when the sequential evaluation has a failing node, and
      otherwise has executed, skipped, output and returned exactly what it does. */
  lemma ScheduleIndependence(dag: Dag, h: Handler, init: Data, steps: seq<Step>)
    requires IsLoopFree(dag) && NoReservedIds(dag) && IsRun(dag, init, steps) && Obeys(h, steps)
    requires Quiescent(After(dag, init, steps))
    ensures var s, m := After(dag, init, steps), Meaning(dag, h, init);
      && (s.firstErr == None <==> m.failed == map[])
      && (m.failed == map[] ==> EndsLike(dag, init, s, m) && Finish(dag, s) == SequentialReport(dag, m))
  {
    RunTracks(dag, h, init, steps);
    RunFree(dag, init, steps);
    var s := After(dag, init, steps);
    if s.firstErr == None {
      CompletedEnds(dag, h, init, s);
      if dag.nodes != map[] {
        ReturnedSinks(dag, init, steps);
      }
      SameReport(dag, init, s, Meaning(dag, h, init));
    }
  }

  /** Two finished runs of the same workflow differ at most in which error they report. */
  lemma OrderIsIrrelevant(dag: Dag, h: Handler, init: Data, a: seq<Step>, b: seq<Step>)
    requires IsLoopFree(dag) && NoReservedIds(dag)
    requires IsRun(dag, init, a) && Obeys(h, a) && Quiescent(After(dag, init, a))
    requires IsRun(dag, init, b) && Obeys(h, b) && Quiescent(After(dag, init, b))
    ensures var s, t := After(dag, init, a), After(dag, init, b);
      && (s.firstErr == None <==> t.firstErr == None)
      && (s.firstErr == None ==>
            && s.routed == t.routed && s.skipped == t.skipped && s.outputs == t.outputs
            && Finish(dag, s) == Finish(dag, t))
  {
    ScheduleIndependence(dag, h, init, a);
    ScheduleIndependence(dag, h, init, b);
  }
}
