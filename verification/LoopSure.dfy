/** The body nodes that run in every pass, whatever the nodes answer: edges without labels lead to
    them from a node that every pass dispatches. */
module LoopSure {
  import opened Workflow
  import opened Graph
  import opened DagModel
  import opened Scheduler
  import opened SchedulerInvariant
  import opened LoopFree
  import opened LoopCauses

  // ---- Paths without labels ----

  /** Every pass dispatches `v` at its start. */
  predicate IsHead(dag: Dag, body: set<NodeId>, v: NodeId)
  {
    v in body && CountIn(dag.Preds(v), body) == 0
  }

  /** An edge without a label leads from `u` to `v`, inside the body. */
  predicate PlainStep(dag: Dag, body: set<NodeId>, u: NodeId, v: NodeId)
  {
    u in body && v in body && exists e :: e in dag.forward && e.source == u && e.target == v && e.branch == None
  }

  ghost predicate IsSurePath(dag: Dag, body: set<NodeId>, p: seq<NodeId>)
  {
    |p| >= 1 && IsHead(dag, body, p[0]) && forall i :: 0 <= i < |p| - 1 ==> PlainStep(dag, body, p[i], p[i + 1])
  }

  /** Edges without labels lead to `b` from a node that every pass dispatches. */
  ghost predicate Sure(dag: Dag, body: set<NodeId>, b: NodeId)
  {
    exists p :: IsSurePath(dag, body, p) && p[|p| - 1] == b
  }

  lemma SureExtends(dag: Dag, body: set<NodeId>, u: NodeId, v: NodeId)
    requires Sure(dag, body, u) && PlainStep(dag, body, u, v)
    ensures Sure(dag, body, v)
  {
    var p :| IsSurePath(dag, body, p) && p[|p| - 1] == u;
    var q := p + [v];
    forall i | 0 <= i < |q| - 1
      ensures PlainStep(dag, body, q[i], q[i + 1])
    {
      assert i < |p| - 1 ==> PlainStep(dag, body, p[i], p[i + 1]);
    }
    assert IsSurePath(dag, body, q) && q[|q| - 1] == v;
  }

  lemma HeadIsSure(dag: Dag, body: set<NodeId>, v: NodeId)
    requires IsHead(dag, body, v)
    ensures Sure(dag, body, v)
  {
    assert IsSurePath(dag, body, [v]) && [v][|[v]| - 1] == v;
  }

  lemma HasNoBodyPreds(dag: Dag, body: set<NodeId>, v: NodeId)
    requires Adjacent(dag) && v in dag.nodes
    ensures CountIn(dag.Preds(v), body) == 0 <==> forall e :: e in dag.forward && e.target == v ==> e.source !in body
  {
    assert dag.predecessors[v] == SourcesInto(dag.forward, v);
    CountInSources(dag.forward, body, v);
    CountZero(dag.forward, body, v);
  }

  /** No edge leaving a body node carries a branch label. */
  ghost predicate PlainBody(dag: Dag, l: Loop)
  {
    forall e :: e in dag.forward && e.source in l.body ==> e.branch == None
  }

  /** Without labels in the body every body node is sure to run. */
  lemma {:induction false} PlainIsSure(dag: Dag, l: Loop, b: NodeId)
    requires Shape(dag, l) && PlainBody(dag, l) && b in l.body
    ensures Sure(dag, l.body, b)
    decreases IndexOf(dag.order, b)
  {
    HasNoBodyPreds(dag, l.body, b);
    if e :| e in dag.forward && e.target == b && e.source in l.body {
      assert PointsLater(dag.order, e);
      PlainIsSure(dag, l, e.source);
      assert PlainStep(dag, l.body, e.source, b);
      SureExtends(dag, l.body, e.source, b);
    } else {
      HeadIsSure(dag, l.body, b);
    }
  }

  // ---- What is sure to run is never skipped ----

  lemma FiresPlain(dag: Dag, l: Loop, s: State, u: NodeId, v: NodeId)
    requires PlainStep(dag, l.body, u, v) && u in s.routed
    ensures AnyFires(dag, s.routed, v)
  {
    var e :| e in dag.forward && e.source == u && e.target == v && e.branch == None;
    assert Fires(dag, s.routed, e);
  }

  /** A skipped body node has only settled predecessors in the body. */
  lemma SkippedAfter(dag: Dag, l: Loop, s: State, u: NodeId, v: NodeId)
    requires Fenced(dag, l) && Counts(dag, l, s, []) && Once(dag, l, s) && InLoop(s) && v in dag.nodes
    requires PlainStep(dag, l.body, u, v) && v in s.skipped
    ensures IsSettled(s, u)
  {
    assert CountOK(dag, l, s, [], v) && OnceOK(s, v);
    CountZero(dag.forward, l.body - Settled(s), v);
  }

  /** A body node that has heard of a live edge is not skipped. */
  lemma HeardNotSkipped(dag: Dag, l: Loop, s: State, v: NodeId)
    requires Why(dag, l, s, []) && InLoop(s) && v in dag.nodes && v in l.body
    requires IsHead(dag, l.body, v) || AnyFires(dag, s.routed, v)
    ensures v !in s.skipped
  {
    assert HeardOK(dag, l, s, [], v) && WhyOK(dag, l, s, v);
  }

  lemma PlainNotSkipped(dag: Dag, l: Loop, s: State, u: NodeId, v: NodeId)
    requires Fenced(dag, l) && Counts(dag, l, s, []) && Once(dag, l, s) && Why(dag, l, s, []) && InLoop(s)
    requires PlainStep(dag, l.body, u, v) && v in dag.nodes && u !in s.skipped
    ensures v !in s.skipped
  {
    if v in s.skipped {
      SkippedAfter(dag, l, s, u, v);
      FiresPlain(dag, l, s, u, v);
      HeardNotSkipped(dag, l, s, v);
    }
  }

  /** Induction along a path without labels. */
  lemma {:induction false} AlongPath(dag: Dag, body: set<NodeId>, p: seq<NodeId>, i: nat, ok: NodeId -> bool)
    requires IsSurePath(dag, body, p) && i < |p| && ok(p[0])
    requires forall u, v :: PlainStep(dag, body, u, v) && ok(u) ==> ok(v)
    ensures ok(p[i])
  {
    if i > 0 {
      AlongPath(dag, body, p, i - 1, ok);
      assert PlainStep(dag, body, p[i - 1], p[i - 1 + 1]);
    }
  }

  /** What is sure to run is never skipped while the loop runs. */
  lemma SureStays(dag: Dag, l: Loop, s: State, b: NodeId)
    requires Fenced(dag, l) && Inv(dag, l, s, []) && Why(dag, l, s, []) && InLoop(s) && l.body <= dag.nodes.Keys
    requires Sure(dag, l.body, b)
    ensures b in l.body && b !in s.skipped
  {
    var p :| IsSurePath(dag, l.body, p) && p[|p| - 1] == b;
    ghost var ok := v => v in l.body && v !in s.skipped;
    HeardNotSkipped(dag, l, s, p[0]);
    forall u, v | PlainStep(dag, l.body, u, v) && ok(u)
      ensures ok(v)
    {
      PlainNotSkipped(dag, l, s, u, v);
    }
    AlongPath(dag, l.body, p, |p| - 1, ok);
  }
}
