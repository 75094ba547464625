/** Which graphs can stall: a loop comes to its end in every error-free run exactly if its body is
    not empty and every source of a loop-back edge is sure to run in every pass. */
module LoopStalls {
  import opened Workflow
  import opened Graph
  import opened DagModel
  import opened Scheduler
  import opened SchedulerInvariant
  import opened LoopSteps
  import opened LoopBound
  import opened LoopFree
  import opened Landings
  import opened Diamond
  import opened StepsCommute
  import opened LoopCompletion
  import opened LoopCauses
  import opened LoopSure
  import Closures

  // ---- The condition on the graph ----

  /** The body is not empty, and every source of a loop-back edge is sure to run. */
  ghost predicate Assured(dag: Dag, c: NodeId)
  {
    dag.BodyOf(c) != {} && forall e :: e in dag.loopBack ==> Sure(dag, dag.BodyOf(c), e.source)
  }

  /** In no state of any run, failed ones included, is the loop of an assured graph stalled. */
  lemma NeverStalled(dag: Dag, init: Data, steps: seq<Step>, c: NodeId)
    requires Runnable(dag) && c in dag.Controllers() && Assured(dag, c) && IsRun(dag, init, steps)
    ensures !Stalled(dag, LoopOf(dag), After(dag, init, steps))
  {
    RunnableShape(dag);
    var l, s := LoopOf(dag), After(dag, init, steps);
    RunKeeps(dag, l, init, steps);
    RunWhy(dag, l, init, steps);
    forall e | e in dag.loopBack && InLoop(s)
      ensures e.source !in s.skipped
    {
      SureStays(dag, l, s, e.source);
    }
  }

  /** When the loop of an assured graph comes to rest without an error, it is over and every node
      was executed or skipped. */
  lemma LoopCompletes(dag: Dag, init: Data, steps: seq<Step>)
    requires Runnable(dag) && IsRun(dag, init, steps) && forall c :: c in dag.Controllers() ==> Assured(dag, c)
    requires Quiescent(After(dag, init, steps)) && After(dag, init, steps).firstErr == None
    ensures !InLoop(After(dag, init, steps)) && Finished(dag, After(dag, init, steps))
  {
    StallCause(dag, init, steps);
    if c :| c in dag.Controllers() {
      NeverStalled(dag, init, steps, c);
    } else {
      RunnableShape(dag);
      RunKeeps(dag, LoopOf(dag), init, steps);
    }
  }

  // ---- A script for the nodes ----

  /** Every result is a success with the routing the script has for its node. */
  predicate Scripted(script: NodeId -> Data, steps: seq<Step>)
  {
    forall x :: x in steps && x.Recv? ==> x.outcome == Succeeded(map[], script(x.flight.node))
  }

  /** A script can be followed to the end of a run. */
  lemma Played(dag: Dag, init: Data, script: NodeId -> Data, steps: seq<Step>) returns (all: seq<Step>)
    requires Runnable(dag) && IsRun(dag, init, steps) && Scripted(script, steps)
    ensures IsRun(dag, init, all) && Scripted(script, all) && Quiescent(After(dag, init, all))
    decreases 2 * MaxDispatches(dag) - |steps|
  {
    var s := After(dag, init, steps);
    if Quiescent(s) {
      all := steps;
    } else {
      var f :| f in s.inflight;
      var x := match f
        case Waiting(v) => Read(v)
        case Running(v, _) => Recv(f, Succeeded(map[], script(v)));
      RunExtends(dag, init, steps, x);
      RunsAreFinite(dag, init, steps + [x]);
      all := Played(dag, init, script, steps + [x]);
    }
  }

  /** What is routed is routed as the script says, and nothing has failed. */
  ghost predicate Follows(script: NodeId -> Data, s: State)
  {
    s.firstErr == None && forall v :: v in s.routed ==> s.routed[v] == script(v)
  }

  lemma ReceiveFollows(dag: Dag, l: Loop, script: NodeId -> Data, s: State, f: Flight, r: Outcome)
    requires Shape(dag, l) && Follows(script, s) && r == Succeeded(map[], script(f.node))
    ensures Follows(script, Receive(dag, s, f, r))
  {
    TypeOfController(dag, l, f.node);
    LandingLands(s, f, r);
    if f.node !in l.ctrl {
      ReceiveLands(dag, s, f, r);
      DeliverSame(dag, Landing(s, f, r), SignalsOf(dag, f.node, r.routing));
    } else if Iterates(dag, s, f.node, r.routing) {
      ReceiveStarts(dag, s, f, r);
      PassesRecords(dag, s, f, r);
    } else {
      ReceiveQuits(dag, l, s, f, r);
      QuitsMarks(l, s, f, r);
      DeliverSame(dag, Quits(l, s, f, r), SignalsOf(dag, f.node, r.routing));
    }
  }

  lemma ScriptedFront(script: NodeId -> Data, steps: seq<Step>)
    requires Scripted(script, steps) && steps != []
    ensures Scripted(script, steps[..|steps| - 1])
    ensures var x := steps[|steps| - 1]; x.Recv? ==> x.outcome == Succeeded(map[], script(x.flight.node))
  {
    assert steps[|steps| - 1] in steps;
  }

  lemma ApplyFollows(dag: Dag, l: Loop, script: NodeId -> Data, s: State, x: Step)
    requires Shape(dag, l) && Follows(script, s)
    requires x.Recv? ==> x.outcome == Succeeded(map[], script(x.flight.node))
    ensures Follows(script, Apply(dag, s, x))
  {
    match x
    case Read(_) =>
    case Recv(f, r) => ReceiveFollows(dag, l, script, s, f, r);
  }

  lemma {:induction false} RunFollows(dag: Dag, l: Loop, init: Data, script: NodeId -> Data, steps: seq<Step>)
    requires Shape(dag, l) && IsRun(dag, init, steps) && Scripted(script, steps)
    ensures Follows(script, After(dag, init, steps))
  {
    if steps != [] {
      LastStep(dag, init, steps);
      ScriptedFront(script, steps);
      RunFollows(dag, l, init, script, steps[..|steps| - 1]);
      ApplyFollows(dag, l, script, After(dag, init, steps[..|steps| - 1]), steps[|steps| - 1]);
    }
  }

  // ---- A script that stalls ----

  /** `e` leads on to the controller. */
  ghost predicate LeadsTo(dag: Dag, c: NodeId, e: Edge)
  {
    e in dag.forward && (e.target == c || Reaches(dag.forward, e.target, c))
  }

  ghost predicate HasOnward(dag: Dag, c: NodeId, v: NodeId)
  {
    exists e :: LeadsTo(dag, c, e) && e.source == v
  }

  ghost function Onward(dag: Dag, c: NodeId, v: NodeId): (e: Edge)
    requires HasOnward(dag, c, v)
    ensures LeadsTo(dag, c, e) && e.source == v
  {
    var e :| LeadsTo(dag, c, e) && e.source == v;
    e
  }

  /** What allows the edge `e` and no other label. */
  function Allowing(e: Edge): Data
  {
    if e.branch == None then map[] else map["matched_rule" := Text(e.branch.value)]
  }

  /** The controller asks for a pass, body nodes allow no label, and the other nodes allow an edge that
      leads on to the controller, if they have one. */
  ghost function Reply(dag: Dag, c: NodeId, v: NodeId): Data
  {
    if v == c then map["action" := Text(LOOP_BODY)]
    else if v in dag.BodyOf(c) || !HasOnward(dag, c, v) then map[]
    else Allowing(Onward(dag, c, v))
  }

  /** A body node answers with nothing, so that only edges without labels fire inside the body. */
  lemma FiresUnlabelled(dag: Dag, l: Loop, s: State, c: NodeId, e: Edge)
    requires Shape(dag, l) && l.ctrl == {c} && Follows(v => Reply(dag, c, v), s) && c !in s.routed
    requires e in dag.forward && e.target in l.body && Fires(dag, s.routed, e)
    ensures e.source in l.body && PlainStep(dag, l.body, e.source, e.target)
  {
    assert EdgeRule(l, e);
    TypeOfController(dag, l, e.source);
    assert s.routed[e.source] == Reply(dag, c, e.source) == map[];
  }

  /** Under that script, only what is sure to run is dispatched in a pass. */
  lemma {:induction false} StartedIsSure(dag: Dag, l: Loop, s: State, c: NodeId, b: NodeId)
    requires Shape(dag, l) && l.ctrl == {c} && Follows(v => Reply(dag, c, v), s) && c !in s.routed
    requires Once(dag, l, s) && Why(dag, l, s, []) && InLoop(s) && b in l.body && b in s.started
    ensures Sure(dag, l.body, b)
    decreases IndexOf(dag.order, b)
  {
    assert HeardOK(dag, l, s, [], b) && WhyOK(dag, l, s, b);
    NotARoot(dag, l, b);
    if Heads(dag, l, s, b) {
      HeadIsSure(dag, l.body, b);
    } else {
      var e :| e in dag.forward && e.target == b && Fires(dag, s.routed, e);
      FiresUnlabelled(dag, l, s, c, e);
      assert OnceOK(s, e.source) && PointsLater(dag.order, e);
      StartedIsSure(dag, l, s, c, e.source);
      SureExtends(dag, l.body, e.source, b);
    }
  }

  /** Under that script, the controller of a loop that is not assured is not dispatched again. */
  lemma NotRecalled(dag: Dag, l: Loop, s: State, c: NodeId)
    requires Shape(dag, l) && l.ctrl == {c} && dag.BodyOf(c) == l.body && !Assured(dag, c)
    requires Follows(v => Reply(dag, c, v), s) && c !in s.routed
    requires Inv(dag, l, s, []) && Why(dag, l, s, []) && DeadEnd(l, s) && InLoop(s)
    ensures c !in s.started
  {
    if l.body != {} && c in s.started {
      var e :| e in dag.loopBack && !Sure(dag, l.body, e.source);
      assert OnceOK(s, c);
      BackEdgesRouted(dag, l, s, c);
      assert OnceOK(s, e.source);
      StartedIsSure(dag, l, s, c, e.source);
    }
  }

  /** A state in which the loop has not been left. */
  ghost predicate Inside(l: Loop, s: State)
  {
    !s.exited && l.ctrl !! s.routed.Keys
  }

  lemma ReceiveInside(dag: Dag, l: Loop, s: State, f: Flight, r: Outcome, c: NodeId)
    requires Shape(dag, l) && l.ctrl == {c} && dag.BodyOf(c) == l.body && !Assured(dag, c)
    requires Follows(v => Reply(dag, c, v), s) && Inside(l, s)
    requires Inv(dag, l, s, []) && Why(dag, l, s, []) && DeadEnd(l, s)
    requires f in s.inflight && r == Succeeded(map[], Reply(dag, c, f.node))
    ensures Inside(l, Receive(dag, s, f, r))
  {
    assert FlightOK(l, s, f);
    if f.node == c {
      if Looping(s) {
        NotRecalled(dag, l, s, c);
      }
      assert Iterates(dag, s, c, r.routing);
    }
    ControllerRecord(dag, l, s, f, r, c);
  }

  lemma {:induction false} RunInside(dag: Dag, l: Loop, init: Data, steps: seq<Step>, c: NodeId)
    requires Shape(dag, l) && l.ctrl == {c} && dag.BodyOf(c) == l.body && !Assured(dag, c)
    requires IsRun(dag, init, steps) && Scripted(v => Reply(dag, c, v), steps)
    ensures Inside(l, After(dag, init, steps))
  {
    if steps != [] {
      LastStep(dag, init, steps);
      ScriptedFront(v => Reply(dag, c, v), steps);
      RunInside(dag, l, init, steps[..|steps| - 1], c);
      NextInside(dag, l, init, steps[..|steps| - 1], steps[|steps| - 1], c);
    }
  }

  lemma NextInside(dag: Dag, l: Loop, init: Data, steps: seq<Step>, x: Step, c: NodeId)
    requires Shape(dag, l) && l.ctrl == {c} && dag.BodyOf(c) == l.body && !Assured(dag, c)
    requires IsRun(dag, init, steps) && Scripted(v => Reply(dag, c, v), steps) && Inside(l, After(dag, init, steps))
    requires Enabled(After(dag, init, steps), x)
    requires x.Recv? ==> x.outcome == Succeeded(map[], Reply(dag, c, x.flight.node))
    ensures Inside(l, Apply(dag, After(dag, init, steps), x))
  {
    RunFollows(dag, l, init, v => Reply(dag, c, v), steps);
    RunKeeps(dag, l, init, steps);
    RunWhy(dag, l, init, steps);
    RunDeadEnd(dag, l, init, steps);
    match x
    case Read(_) =>
    case Recv(f, r) => ReceiveInside(dag, l, After(dag, init, steps), f, r, c);
  }

  // ---- The script reaches the controller ----

  /** An executed node outside the body fires an edge that leads on to the controller, if it has one. */
  lemma ReplyFires(dag: Dag, l: Loop, s: State, c: NodeId, v: NodeId)
    requires Shape(dag, l) && l.ctrl == {c} && dag.BodyOf(c) == l.body && Follows(v => Reply(dag, c, v), s)
    requires v in s.routed && v != c && v !in l.body && HasOnward(dag, c, v)
    ensures Fires(dag, s.routed, Onward(dag, c, v))
  {
    TypeOfController(dag, l, v);
    assert s.routed[v] == Reply(dag, c, v) == Allowing(Onward(dag, c, v));
  }

  /** The target of an edge that fires is not skipped, and has run if everything has settled. */
  lemma FiredRuns(dag: Dag, l: Loop, s: State, e: Edge)
    requires Adjacent(dag) && Why(dag, l, s, []) && !s.exited && e in dag.forward && Fires(dag, s.routed, e)
    ensures e.target !in s.skipped
  {
    assert HeardOK(dag, l, s, [], e.target) && WhyOK(dag, l, s, e.target);
  }

  /** From an executed node that leads to the controller, executed nodes lead all the way. */
  lemma {:induction false} Arrives(dag: Dag, l: Loop, s: State, c: NodeId, v: NodeId)
    requires Shape(dag, l) && l.ctrl == {c} && dag.BodyOf(c) == l.body && Follows(v => Reply(dag, c, v), s)
    requires Why(dag, l, s, []) && !s.exited && !Looping(s) && Inv(dag, l, s, []) && Finished(dag, s)
    requires v in s.routed && HasOnward(dag, c, v) && v != c && v in dag.nodes
    ensures c !in s.skipped
    decreases |dag.order| - IndexOf(dag.order, v)
  {
    assert OnceOK(s, v);
    ReplyFires(dag, l, s, c, v);
    var e := Onward(dag, c, v);
    FiredRuns(dag, l, s, e);
    assert IsSettled(s, e.target) && PointsLater(dag.order, e);
    if e.target != c {
      StillLeads(dag, c, e.target);
      Arrives(dag, l, s, c, e.target);
    }
  }

  lemma StillLeads(dag: Dag, c: NodeId, v: NodeId)
    requires Reaches(dag.forward, v, c)
    ensures HasOnward(dag, c, v)
  {
    var p :| |p| >= 2 && PathBetween(dag.forward, p, v, c);
    assert HasEdge(dag.forward, p[0], p[0 + 1]);
    var e :| e in dag.forward && e.source == p[0] && e.target == p[1];
    if |p| > 2 {
      var q := p[1..];
      forall i | 0 <= i < |q| - 1
        ensures HasEdge(dag.forward, q[i], q[i + 1])
      {
        assert HasEdge(dag.forward, p[i + 1], p[i + 1 + 1]);
      }
      assert PathBetween(dag.forward, q, e.target, c);
    }
    assert LeadsTo(dag, c, e);
  }

  /** Every node is a root or is reached from one. */
  lemma {:induction false} RootAbove(dag: Dag, v: NodeId) returns (r: NodeId)
    requires Adjacent(dag) && IsTopologicalOrder(dag.order, dag.nodes.Keys, dag.forward) && v in dag.nodes
    ensures r in dag.nodes && IsRoot(dag, r) && (r == v || Reaches(dag.forward, r, v))
    decreases IndexOf(dag.order, v)
  {
    if IsRoot(dag, v) {
      r := v;
    } else {
      assert dag.Preds(v) == SourcesInto(dag.forward, v);
      MembersInto(dag.forward, v);
      assert dag.Preds(v)[0] in SourcesInto(dag.forward, v);
      var e :| e in dag.forward && e.target == v;
      assert PointsLater(dag.order, e);
      r := RootAbove(dag, e.source);
      assert HasEdge(dag.forward, e.source, v);
      Closures.ReachesAppend(dag.forward, r, e.source, v);
    }
  }

  /** At the end of the script the controller has run. */
  lemma ControllerReached(dag: Dag, l: Loop, s: State, c: NodeId)
    requires Shape(dag, l) && l.ctrl == {c} && dag.BodyOf(c) == l.body && Follows(v => Reply(dag, c, v), s)
    requires Why(dag, l, s, []) && !s.exited && !Looping(s) && Inv(dag, l, s, []) && Finished(dag, s)
    ensures c in s.routed
  {
    var r := RootAbove(dag, c);
    assert WhyOK(dag, l, s, r) && OnceOK(s, r);
    if r != c {
      assert IsSettled(s, r);
      StillLeads(dag, c, r);
      Arrives(dag, l, s, c, r);
    }
    assert IsSettled(s, c);
  }

  /** The run of the script ends in a stall. */
  lemma ScriptStalls(dag: Dag, init: Data, steps: seq<Step>, c: NodeId)
    requires Runnable(dag) && c in dag.Controllers() && !Assured(dag, c)
    requires IsRun(dag, init, steps) && Scripted(v => Reply(dag, c, v), steps) && Quiescent(After(dag, init, steps))
    ensures After(dag, init, steps).firstErr == None && InLoop(After(dag, init, steps))
  {
    RunnableShape(dag);
    var l, s := LoopOf(dag), After(dag, init, steps);
    RunFollows(dag, l, init, v => Reply(dag, c, v), steps);
    RunInside(dag, l, init, steps, c);
    StallCause(dag, init, steps);
    if !Looping(s) {
      RunKeeps(dag, l, init, steps);
      RunWhy(dag, l, init, steps);
      ControllerReached(dag, l, s, c);
    }
  }

  // ---- The condition is exact ----

  /** Every run that comes to rest without an error has executed or skipped every node. */
  ghost predicate AlwaysFinishes(dag: Dag)
  {
    forall init, steps {:trigger IsRun(dag, init, steps)} ::
      IsRun(dag, init, steps) && Quiescent(After(dag, init, steps)) && After(dag, init, steps).firstErr == None ==>
        Finished(dag, After(dag, init, steps))
  }

  /** Which loops stall. Whatever the nodes answer and in whatever order, a graph with a well-formed
      loop runs to its end unless a node fails, if and only if the body of the loop is not empty
      and every source of a loop-back edge is reached by edges without labels from a node that
      every pass dispatches. */
  lemma StallsExactly(dag: Dag, c: NodeId)
    requires Runnable(dag) && c in dag.Controllers()
    ensures AlwaysFinishes(dag) <==> Assured(dag, c)
  {
    if Assured(dag, c) {
      forall init, steps | IsRun(dag, init, steps) && Quiescent(After(dag, init, steps)) &&
                           After(dag, init, steps).firstErr == None
        ensures Finished(dag, After(dag, init, steps))
      {
        RunnableShape(dag);
        LoopCompletes(dag, init, steps);
      }
    } else {
      var steps := Played(dag, map[], v => Reply(dag, c, v), []);
      ScriptStalls(dag, map[], steps, c);
      StallCause(dag, map[], steps);
    }
  }
}
