/** Every complete run of a workflow with a loop ends like its one-at-a-time meaning: some run takes
    the nodes in that order, and all complete runs end alike. */
module LoopOutcome {
  import opened Workflow
  import opened DagModel
  import opened Scheduler
  import opened SchedulerInvariant
  import opened LoopSteps
  import opened LoopBound
  import opened LoopFree
  import opened Completion
  import opened Sequential
  import opened Confluence
  import opened Landings
  import opened Diamond
  import opened StepsCommute
  import opened LoopConfluence
  import opened LoopMeaning
  import opened LoopSimulation

  // ---- The whole workflow ----

  function First(dag: Dag, k: nat): set<NodeId>
  {
    set v | v in dag.nodes && IndexOf(dag.order, v) < k
  }

  /** The nodes whose turn has been after `k` turns: the first `k` nodes, and the body once the
      controller's turn has dealt with it. */
  function SeenAt(dag: Dag, l: Loop, m: Account, k: nat): set<NodeId>
  {
    First(dag, k) + (if m.passes > 0 || m.over then l.body else {})
  }

  lemma FirstGrows(dag: Dag, k: nat)
    requires IsTopologicalOrder(dag.order, dag.nodes.Keys, dag.forward) && k < |dag.order|
    ensures var v := dag.order[k];
      v in dag.nodes && v !in First(dag, k) && IndexOf(dag.order, v) == k && First(dag, k + 1) == First(dag, k) + {v}
  {
    IndexInOrder(dag, k);
    assert dag.order[k] in dag.order;
    forall v | v in dag.nodes && IndexOf(dag.order, v) == k
      ensures v == dag.order[k]
    {
      assert v in dag.order;
    }
  }

  lemma SeenGrows(first: set<NodeId>, body: set<NodeId>, before: bool, after: bool, v: NodeId)
    requires before ==> after
    ensures var all, more := if before then body else {}, if after then body else {};
      && (before == after ==> first + {v} + more == first + all + {v})
      && (after ==> first + {v} + more == first + all + body + {v})
  {
  }

  lemma SeenIsClosed(dag: Dag, l: Loop, m: Account, k: nat)
    requires Shape(dag, l)
    ensures Closed(dag, l, SeenAt(dag, l, m, k))
  {
    forall e | e in dag.forward && e.target in SeenAt(dag, l, m, k) && e.target !in l.body
      ensures e.source in SeenAt(dag, l, m, k)
    {
      assert PointsLater(dag.order, e);
    }
  }

  lemma SeenPrecedes(dag: Dag, l: Loop, m: Account, k: nat, v: NodeId)
    requires Shape(dag, l) && IndexOf(dag.order, v) == k
    ensures forall e :: e in dag.forward && e.target == v ==> e.source in SeenAt(dag, l, m, k)
  {
    forall e | e in dag.forward && e.target == v
      ensures e.source in SeenAt(dag, l, m, k)
    {
      assert PointsLater(dag.order, e);
    }
  }

  /** Before the controller's turn there has been no pass. */
  lemma NoPassBefore(dag: Dag, h: Handler, init: Data, k: nat)
    requires k <= |dag.order| && forall j :: 0 <= j < k ==> dag.TypeOf(dag.order[j]) != LOOP_CONTROLLER
    ensures Tell(dag, h, init, k).passes == 0 && !Tell(dag, h, init, k).over
  {
    ghost var ok := (m: Account, j: nat) => j <= k ==> m.passes == 0 && !m.over;
    FoldInduction(Turner(dag, h), Opening(init), dag.order, k, ok);
  }

  lemma NoneBefore(dag: Dag, l: Loop, c: NodeId, k: nat)
    requires Shape(dag, l) && c in l.ctrl && k < |dag.order| && dag.order[k] == c
    ensures forall j :: 0 <= j < k ==> dag.TypeOf(dag.order[j]) != LOOP_CONTROLLER
  {
    forall j | 0 <= j < k
      ensures dag.TypeOf(dag.order[j]) != LOOP_CONTROLLER
    {
      TypeOfController(dag, l, dag.order[j]);
      OnlyController(dag, l, c);
    }
  }

  lemma OpeningSimulates(dag: Dag, l: Loop, h: Handler, init: Data)
    ensures Simulated(dag, l, h, init, Opening(init), SeenAt(dag, l, Opening(init), 0))
  {
    var s, m := Start(dag, init), Opening(init);
    assert IsRun(dag, init, []) && Obeys(h, []) && After(dag, init, []) == s;
    forall v | v in dag.nodes
      ensures LikeAt(l, s, m, SeenAt(dag, l, m, 0), v)
    {
    }
    assert Like(dag, l, s, m, SeenAt(dag, l, m, 0));
  }

  /** Without a pass, whatever had its turn is known. */
  lemma KnownBefore(dag: Dag, l: Loop, s: State, m: Account, seen: set<NodeId>)
    requires Like(dag, l, s, m, seen) && !Looping(s) && seen <= dag.nodes.Keys
    ensures AllKnown(m, seen)
  {
    forall w | w in seen
      ensures Known(m, w)
    {
      assert LikeAt(l, s, m, seen, w);
    }
  }

  /** The controller's predecessors are decided when its turn comes. */
  lemma ControllerDue(dag: Dag, l: Loop, s: State, m: Account, seen: set<NodeId>, c: NodeId)
    requires Adjacent(dag) && Like(dag, l, s, m, seen) && !Looping(s) && Preceded(dag, l, s, seen, c)
    ensures AllDecided(dag, l, s, c)
  {
    forall e | e in dag.forward && e.target == c && e.source in Sources(dag, l, s, c)
      ensures IsSettled(s, e.source)
    {
      assert LikeAt(l, s, m, seen, e.source);
    }
  }

  lemma SeenSoFar(dag: Dag, l: Loop, m: Account, n: Account, k: nat)
    requires Shape(dag, l) && k < |dag.order| && (m.passes > 0 || m.over ==> n.passes > 0 || n.over)
    ensures var v, seen := dag.order[k], SeenAt(dag, l, m, k);
      && v in dag.nodes && IndexOf(dag.order, v) == k && (v in seen <==> v in l.body && (m.passes > 0 || m.over))
      && (n.passes == m.passes && n.over == m.over ==> SeenAt(dag, l, n, k + 1) == seen + {v})
      && (n.passes > 0 || n.over ==> SeenAt(dag, l, n, k + 1) == seen + l.body + {v})
  {
    FirstGrows(dag, k);
    SeenGrows(First(dag, k), l.body, m.passes > 0 || m.over, n.passes > 0 || n.over, dag.order[k]);
  }

  /** The controller's turn comes: it waits to read, or has been skipped. */
  lemma ControllerCalled(dag: Dag, l: Loop, h: Handler, init: Data, m: Account, up: set<NodeId>, c: NodeId)
    requires Ready(dag, l) && Simulated(dag, l, h, init, m, up) && m.error == None && m.passes == 0 && !m.over
    requires c in dag.nodes && c !in up && c !in l.body && up <= dag.nodes.Keys
    requires forall e :: e in dag.forward && e.target == c ==> e.source in up
    ensures AllKnown(m, up)
    ensures if Triggered(dag, m.routing, c) then Poised(dag, l, h, init, m, up, c)
      else Simulated(dag, l, h, init, m.(skipped := m.skipped + {c}), up + {c})
  {
    var s :| Reached(dag, h, init, s) && Like(dag, l, s, m, up);
    ReachedIsSound(dag, l, h, init, s);
    KnownBefore(dag, l, s, m, up);
    ControllerDue(dag, l, s, m, up, c);
    DueNode(dag, l, s, m, up, c);
    if !Triggered(dag, m.routing, c) {
      SkippedLike(dag, l, s, m, up, c);
    }
  }

  lemma ControllerTurn(dag: Dag, l: Loop, h: Handler, init: Data, m: Account, up: set<NodeId>, c: NodeId)
    requires Ready(dag, l) && Simulated(dag, l, h, init, m, up) && m.error == None && m.passes == 0 && !m.over
    requires Upstreams(dag, l, up) && up <= dag.nodes.Keys && l.ctrl == {c} && dag.BodyOf(c) == l.body && c in dag.nodes
    requires l.body <= dag.nodes.Keys && c !in l.body && up - l.body == up
    requires forall e :: e in dag.forward && e.target == c ==> e.source in up
    ensures if Triggered(dag, m.routing, c) then Simulated(dag, l, h, init, Iterate(dag, h, m, c), up + l.body + {c})
      else Simulated(dag, l, h, init, m.(skipped := m.skipped + {c}), up + {c})
  {
    ControllerCalled(dag, l, h, init, m, up, c);
    if Triggered(dag, m.routing, c) {
      IterateSimulates(dag, l, h, init, m, up, up, c);
    }
  }

  lemma TurnOfController(dag: Dag, h: Handler, m: Account, c: NodeId)
    requires dag.TypeOf(c) == LOOP_CONTROLLER && m.error == None
    ensures Triggered(dag, m.routing, c) ==> Turn(dag, h, m, c) == Iterate(dag, h, m, c)
    ensures !Triggered(dag, m.routing, c) ==> Turn(dag, h, m, c) == m.(skipped := m.skipped + {c})
  {
  }

  /** Once the loop is left the body is known to be skipped. */
  lemma BodyKnown(dag: Dag, l: Loop, s: State, m: Account, seen: set<NodeId>, v: NodeId)
    requires LoopFacts(dag, l, s) && Like(dag, l, s, m, seen) && s.exited && v in l.body && v in seen && v in dag.nodes
    ensures Known(m, v)
  {
    assert LikeAt(l, s, m, seen, v);
  }

  lemma OrdinaryTurn(dag: Dag, l: Loop, h: Handler, init: Data, m: Account, k: nat, v: NodeId)
    requires Ready(dag, l) && k < |dag.order| && dag.order[k] == v && v !in l.ctrl && m.error == None
    requires Simulated(dag, l, h, init, m, SeenAt(dag, l, m, k))
    ensures var n := Turn(dag, h, m, v); Simulated(dag, l, h, init, n, SeenAt(dag, l, n, k + 1))
  {
    TypeOfController(dag, l, v);
    if v in l.body && (m.passes > 0 || m.over) {
      SeenSoFar(dag, l, m, m, k);
      SameSet(SeenAt(dag, l, m, k), v);
      PastTurn(dag, l, h, init, m, SeenAt(dag, l, m, k), v);
    } else {
      NotInBody(dag, l, h, m, v);
      SeenSoFar(dag, l, m, VisitNode(dag, h, m, v), k);
      FirstTurn(dag, l, h, init, m, k, v);
    }
  }

  lemma SameSet(seen: set<NodeId>, v: NodeId)
    requires v in seen
    ensures seen + {v} == seen
  {
  }

  lemma FirstTurn(dag: Dag, l: Loop, h: Handler, init: Data, m: Account, k: nat, v: NodeId)
    requires Ready(dag, l) && k < |dag.order| && v in dag.nodes && IndexOf(dag.order, v) == k && v !in l.ctrl
    requires v !in SeenAt(dag, l, m, k) && !(v in l.body && (m.passes > 0 || m.over)) && m.error == None
    requires Simulated(dag, l, h, init, m, SeenAt(dag, l, m, k))
    ensures Simulated(dag, l, h, init, VisitNode(dag, h, m, v), SeenAt(dag, l, m, k) + {v})
  {
    SeenIsClosed(dag, l, m, k);
    SeenPrecedes(dag, l, m, k, v);
    FreshTurn(dag, l, h, init, m, SeenAt(dag, l, m, k), v);
  }

  /** A body node whose turn has been, in a pass or when the loop was left. */
  lemma PastTurn(dag: Dag, l: Loop, h: Handler, init: Data, m: Account, seen: set<NodeId>, v: NodeId)
    requires Ready(dag, l) && Simulated(dag, l, h, init, m, seen) && m.error == None
    requires v in l.body && v in seen && v in dag.nodes && (m.passes > 0 || m.over) && dag.TypeOf(v) != LOOP_CONTROLLER
    ensures Turn(dag, h, m, v) == m
  {
    var s :| Reached(dag, h, init, s) && Like(dag, l, s, m, seen);
    ReachedIsSound(dag, l, h, init, s);
    TurnedBefore(dag, l, h, s, m, seen, v);
  }

  lemma FreshTurn(dag: Dag, l: Loop, h: Handler, init: Data, m: Account, seen: set<NodeId>, v: NodeId)
    requires Ready(dag, l) && Simulated(dag, l, h, init, m, seen) && m.error == None && Closed(dag, l, seen)
    requires v in dag.nodes && v !in seen && v !in l.ctrl && !(v in l.body && (m.passes > 0 || m.over))
    requires forall e :: e in dag.forward && e.target == v ==> e.source in seen
    ensures Simulated(dag, l, h, init, VisitNode(dag, h, m, v), seen + {v})
  {
    var s :| Reached(dag, h, init, s) && Like(dag, l, s, m, seen);
    VisitSimulates(dag, l, h, init, m, seen, s, v);
  }

  lemma TurnedBefore(dag: Dag, l: Loop, h: Handler, s: State, m: Account, seen: set<NodeId>, v: NodeId)
    requires Shape(dag, l) && LoopFacts(dag, l, s) && Like(dag, l, s, m, seen)
    requires v in l.body && v in seen && v in dag.nodes
    requires (m.passes > 0 || m.over) && dag.TypeOf(v) != LOOP_CONTROLLER
    ensures Turn(dag, h, m, v) == m
  {
    if m.passes > 0 {
      var c :| c in l.ctrl;
      assert c in dag.Controllers() && v in dag.BodyOf(c);
    } else {
      BodyKnown(dag, l, s, m, seen, v);
    }
  }

  lemma NotInBody(dag: Dag, l: Loop, h: Handler, m: Account, v: NodeId)
    requires Shape(dag, l) && !(v in l.body && m.passes > 0) && dag.TypeOf(v) != LOOP_CONTROLLER
    ensures Turn(dag, h, m, v) == VisitNode(dag, h, m, v)
    ensures VisitNode(dag, h, m, v).passes == m.passes && VisitNode(dag, h, m, v).over == m.over
  {
    assert forall c :: c in dag.Controllers() ==> dag.BodyOf(c) == l.body;
  }

  lemma TurnSimulates(dag: Dag, l: Loop, h: Handler, init: Data, m: Account, k: nat)
    requires Ready(dag, l) && k < |dag.order| && Simulated(dag, l, h, init, m, SeenAt(dag, l, m, k))
    requires dag.order[k] in l.ctrl ==> m.passes == 0 && !m.over
    ensures var n := Turn(dag, h, m, dag.order[k]); Simulated(dag, l, h, init, n, SeenAt(dag, l, n, k + 1))
  {
    var v := dag.order[k];
    if m.error == None {
      if v in l.ctrl {
        ControllersTurn(dag, l, h, init, m, k, v);
      } else {
        OrdinaryTurn(dag, l, h, init, m, k, v);
      }
    }
  }

  lemma ControllerPlace(dag: Dag, l: Loop, m: Account, k: nat, c: NodeId)
    requires Shape(dag, l) && k < |dag.order| && dag.order[k] == c && c in l.ctrl && m.passes == 0 && !m.over
    ensures l.ctrl == {c} && dag.BodyOf(c) == l.body && c in dag.nodes && l.body <= dag.nodes.Keys && c !in l.body
    ensures dag.TypeOf(c) == LOOP_CONTROLLER && SeenAt(dag, l, m, k) == First(dag, k)
    ensures Upstreams(dag, l, First(dag, k)) && First(dag, k) - l.body == First(dag, k)
    ensures forall e :: e in dag.forward && e.target == c ==> e.source in First(dag, k)
  {
    OnlyController(dag, l, c);
    TypeOfController(dag, l, c);
    assert SeenAt(dag, l, m, k) == First(dag, k);
    FirstGrows(dag, k);
    BodyLater(dag, l, c, k);
    SeenIsClosed(dag, l, m, k);
    SeenPrecedes(dag, l, m, k, c);
  }

  lemma ControllersTurn(dag: Dag, l: Loop, h: Handler, init: Data, m: Account, k: nat, c: NodeId)
    requires Ready(dag, l) && k < |dag.order| && dag.order[k] == c && c in l.ctrl && m.passes == 0 && !m.over
    requires m.error == None && Simulated(dag, l, h, init, m, SeenAt(dag, l, m, k))
    ensures var n := Turn(dag, h, m, c); Simulated(dag, l, h, init, n, SeenAt(dag, l, n, k + 1))
  {
    var n := Turn(dag, h, m, c);
    ControllerPlace(dag, l, m, k, c);
    TurnOfController(dag, h, m, c);
    ControllerTurn(dag, l, h, init, m, First(dag, k), c);
    SeenSoFar(dag, l, m, n, k);
  }

  /** The body comes after its controller. */
  lemma {:induction false} AfterController(dag: Dag, l: Loop, c: NodeId, b: NodeId)
    requires Shape(dag, l) && l.ctrl == {c} && b in l.body
    ensures IndexOf(dag.order, c) < IndexOf(dag.order, b)
    decreases IndexOf(dag.order, b)
  {
    assert Entered(dag, b);
    var e :| e in dag.forward && e.target == b;
    assert EdgeRule(l, e) && PointsLater(dag.order, e);
    if e.source in l.body {
      AfterController(dag, l, c, e.source);
    }
  }

  lemma BodyLater(dag: Dag, l: Loop, c: NodeId, k: nat)
    requires Shape(dag, l) && l.ctrl == {c} && IndexOf(dag.order, c) == k
    ensures First(dag, k) !! l.body
  {
    forall b | b in l.body
      ensures b !in First(dag, k)
    {
      AfterController(dag, l, c, b);
    }
  }

  lemma TellSimulates(dag: Dag, l: Loop, h: Handler, init: Data)
    requires Ready(dag, l)
    ensures var m := FullMeaning(dag, h, init); Simulated(dag, l, h, init, m, SeenAt(dag, l, m, |dag.order|))
  {
    ghost var ok := (m: Account, j: nat) => Simulated(dag, l, h, init, m, SeenAt(dag, l, m, j));
    OpeningSimulates(dag, l, h, init);
    forall j: nat, m: Account | j < |dag.order| && m == Tell(dag, h, init, j) && ok(m, j)
      ensures ok(Turner(dag, h)(m, dag.order[j]), j + 1)
    {
      BeforeController(dag, l, h, init, j);
      TurnSimulates(dag, l, h, init, m, j);
    }
    FoldInduction(Turner(dag, h), Opening(init), dag.order, |dag.order|, ok);
  }

  lemma BeforeController(dag: Dag, l: Loop, h: Handler, init: Data, j: nat)
    requires Shape(dag, l) && j < |dag.order|
    ensures dag.order[j] in l.ctrl ==> Tell(dag, h, init, j).passes == 0 && !Tell(dag, h, init, j).over
  {
    if dag.order[j] in l.ctrl {
      NoneBefore(dag, l, dag.order[j], j);
      NoPassBefore(dag, h, init, j);
    }
  }

  // ---- Every run ends like the meaning ----

  ghost predicate EndsAs(s: State, m: Account)
  {
    && s.outputs == m.outputs && s.routed == m.routing && s.skipped == m.skipped
    && s.passes == m.passes && s.exited == m.over && s.firstErr == None
  }

  /** When every node has had its turn, nothing is in flight. */
  lemma AllSeen(dag: Dag, l: Loop, s: State, m: Account, seen: set<NodeId>)
    requires Sound(dag, l, s) && Like(dag, l, s, m, seen) && dag.nodes.Keys <= seen
    ensures Quiescent(s) && EndsAs(s, m)
  {
    forall v | v in dag.nodes
      ensures IsSettled(s, v) || v !in s.started
    {
      assert LikeAt(l, s, m, seen, v);
    }
    if f :| f in s.inflight {
      StillFlying(dag, l, s, f);
    }
    forall v | v in dag.nodes
      ensures v in s.skipped <==> v in m.skipped
    {
      assert LikeAt(l, s, m, seen, v);
    }
  }

  lemma StillFlying(dag: Dag, l: Loop, s: State, f: Flight)
    requires Inv(dag, l, s, []) && f in s.inflight
    ensures f.node in dag.nodes && f.node in s.started && !IsSettled(s, f.node)
  {
    assert FlightOK(l, s, f);
    assert OnceOK(s, f.node);
  }

  lemma AllNodesSeen(dag: Dag, l: Loop, m: Account)
    requires IsTopologicalOrder(dag.order, dag.nodes.Keys, dag.forward)
    ensures dag.nodes.Keys <= SeenAt(dag, l, m, |dag.order|)
  {
    forall v | v in dag.nodes
      ensures v in First(dag, |dag.order|)
    {
      assert v in dag.order;
    }
  }

  /** Some run of the handlers ends like the meaning, or runs into an error if the meaning does. */
  lemma SomeRun(dag: Dag, h: Handler, init: Data) returns (steps: seq<Step>)
    requires Runnable(dag) && NoReservedIds(dag)
    ensures IsRun(dag, init, steps) && Obeys(h, steps)
    ensures var m, s := FullMeaning(dag, h, init), After(dag, init, steps);
      if m.error == None then Quiescent(s) && EndsAs(s, m) else s.firstErr != None
  {
    RunnableReady(dag);
    var l, m := LoopOf(dag), FullMeaning(dag, h, init);
    TellSimulates(dag, l, h, init);
    var s :| Reached(dag, h, init, s) &&
             if m.error != None then s.firstErr != None else Like(dag, l, s, m, SeenAt(dag, l, m, |dag.order|));
    if m.error == None {
      ReachedIsSound(dag, l, h, init, s);
      AllNodesSeen(dag, l, m);
      AllSeen(dag, l, s, m, SeenAt(dag, l, m, |dag.order|));
    }
    steps :| IsRun(dag, init, steps) && Obeys(h, steps) && After(dag, init, steps) == s;
  }

  // ---- The report ----

  /** The recorded results are the outputs of the nodes. */
  ghost predicate ResultsOK(dag: Dag, s: State)
  {
    s.nodeResults == map v | v in s.outputs && v in dag.nodes :: NodeSucceeded(s.outputs[v])
  }

  lemma OutputRecorded(dag: Dag, s: State, t: State, v: NodeId, output: Data)
    requires ResultsOK(dag, s) && v in dag.nodes && NoReservedIds(dag)
    requires t.nodeResults == s.nodeResults[v := NodeSucceeded(output)]
    requires t.outputs == s.outputs[v := output] ||
      (LOOP_STATE in t.outputs && t.outputs == s.outputs[v := output][LOOP_STATE := t.outputs[LOOP_STATE]])
    ensures ResultsOK(dag, t)
  {
  }

  lemma ReceiveResults(dag: Dag, l: Loop, s: State, f: Flight, r: Outcome)
    requires Shape(dag, l) && NoReservedIds(dag) && ResultsOK(dag, s) && s.firstErr == None && r.Succeeded?
    requires f.node in dag.nodes
    ensures ResultsOK(dag, Receive(dag, s, f, r))
  {
    TypeOfController(dag, l, f.node);
    LandingLands(s, f, r);
    var todo := SignalsOf(dag, f.node, r.routing);
    if f.node !in l.ctrl {
      ReceiveLands(dag, s, f, r);
      DeliverSame(dag, Landing(s, f, r), todo);
    } else if Iterates(dag, s, f.node, r.routing) {
      ReceiveStarts(dag, s, f, r);
      PassesRecords(dag, s, f, r);
    } else {
      ReceiveQuits(dag, l, s, f, r);
      QuitsMarks(l, s, f, r);
      DeliverSame(dag, Quits(l, s, f, r), todo);
    }
    OutputRecorded(dag, s, Receive(dag, s, f, r), f.node, r.output);
  }

  lemma ApplyResults(dag: Dag, l: Loop, s: State, x: Step)
    requires Shape(dag, l) && NoReservedIds(dag) && ResultsOK(dag, s) && s.firstErr == None && Inv(dag, l, s, [])
    requires Enabled(s, x) && Succeeds(x)
    ensures ResultsOK(dag, Apply(dag, s, x))
  {
    match x
    case Read(_) =>
    case Recv(f, r) =>
      StillFlying(dag, l, s, f);
      ReceiveResults(dag, l, s, f, r);
  }

  lemma {:induction false} RunResults(dag: Dag, l: Loop, init: Data, steps: seq<Step>)
    requires Shape(dag, l) && NoReservedIds(dag) && IsRun(dag, init, steps) && After(dag, init, steps).firstErr == None
    ensures ResultsOK(dag, After(dag, init, steps))
  {
    if steps == [] {
      StartResults(dag, init);
    } else {
      LastStep(dag, init, steps);
      LastStepSucceeds(dag, init, steps);
      RunResults(dag, l, init, steps[..|steps| - 1]);
      RunKeeps(dag, l, init, steps[..|steps| - 1]);
      ApplyResults(dag, l, After(dag, init, steps[..|steps| - 1]), steps[|steps| - 1]);
    }
  }

  lemma StartResults(dag: Dag, init: Data)
    requires NoReservedIds(dag)
    ensures ResultsOK(dag, Start(dag, init))
  {
  }

  lemma SameFullReport(dag: Dag, s: State, m: Account)
    requires EndsAs(s, m) && ResultsOK(dag, s)
    ensures Finish(dag, s) == FullReport(dag, m)
  {
  }

  // ---- The theorem ----

  /** The meaning of a workflow with a loop. For every graph whose loop, if it has one, is well formed,
      labels in the body included, and deterministic handlers: however its results arrive, every
      complete run has an error if the one-at-a-time meaning has one, and otherwise ends with its
      outputs, its executed and skipped nodes and its number of passes, and returns its report. */
  lemma RunsMeanThis(dag: Dag, h: Handler, init: Data, steps: seq<Step>)
    requires Runnable(dag) && NoReservedIds(dag)
    requires IsRun(dag, init, steps) && Obeys(h, steps) && Quiescent(After(dag, init, steps))
    ensures var m, s := FullMeaning(dag, h, init), After(dag, init, steps);
      if m.error == None then EndsAs(s, m) && Finish(dag, s) == FullReport(dag, m) else s.firstErr != None
  {
    var canonical := SomeRun(dag, h, init);
    if After(dag, init, steps).firstErr == None {
      OneOutcome(dag, h, init, steps, canonical);
    } else if FullMeaning(dag, h, init).error == None {
      OneOutcome(dag, h, init, canonical, steps);
    }
    if FullMeaning(dag, h, init).error == None {
      RunnableShape(dag);
      RunResults(dag, LoopOf(dag), init, steps);
      SameFullReport(dag, After(dag, init, steps), FullMeaning(dag, h, init));
    }
  }

  /** Handlers can be followed to the end of a run. */
  lemma ToTheEnd(dag: Dag, h: Handler, init: Data, steps: seq<Step>) returns (all: seq<Step>)
    requires Runnable(dag) && IsRun(dag, init, steps) && Obeys(h, steps)
    ensures IsRun(dag, init, all) && Obeys(h, all) && Quiescent(After(dag, init, all))
    decreases 2 * MaxDispatches(dag) - |steps|
  {
    var s := After(dag, init, steps);
    if Quiescent(s) {
      all := steps;
    } else {
      var f :| f in s.inflight;
      var x := match f
        case Waiting(v) => Read(v)
        case Running(v, inputs) => Recv(f, h(v, inputs));
      RunExtends(dag, init, steps, x);
      ObeysMore(h, steps, x);
      RunsAreFinite(dag, init, steps + [x]);
      all := ToTheEnd(dag, h, init, steps + [x]);
    }
  }

  /** Without a loop the two meanings agree. */
  lemma MeaningsAgree(dag: Dag, h: Handler, init: Data)
    requires IsLoopFree(dag) && NoReservedIds(dag)
    ensures var m, n := Meaning(dag, h, init), FullMeaning(dag, h, init);
      && (m.failed == map[] <==> n.error == None)
      && (n.error == None ==>
            n.routing == m.routing && n.outputs == Context(init, m.outputs) && n.passes == 0 && !n.over &&
            FullReport(dag, n) == SequentialReport(dag, m))
  {
    LoopFreeShape(dag);
    var steps := ToTheEnd(dag, h, init, []);
    ScheduleIndependence(dag, h, init, steps);
    RunsMeanThis(dag, h, init, steps);
    NoPassBefore(dag, h, init, |dag.order|);
  }
}
