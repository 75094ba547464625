/** The reference meaning of a loop-free workflow: run the nodes one at a time in
    topological order. */
module Sequential {
  import opened Workflow
  import opened DagModel
  import opened Scheduler
  import opened LoopFree
  import opened Completion

  /** The node handlers, taken together: a deterministic answer to the upstream data. */
  type Handler = (NodeId, Inputs) -> Outcome

  /** What the nodes visited so far produced; nodes not triggered are in none of the maps. */
  datatype Evaluation = Evaluation(outputs: map<NodeId, Data>, routing: map<NodeId, Data>, failed: map<NodeId, string>)

  function Context(init: Data, outputs: map<NodeId, Data>): map<NodeId, Data>
  {
    map[INITIAL := init, LOOP_STATE := map["iteration" := Int(0)]] + outputs
  }

  function SeqInputs(dag: Dag, init: Data, outputs: map<NodeId, Data>, v: NodeId): Inputs
  {
    MergeUpstream(Context(init, outputs), if v in dag.ancestors then dag.ancestors[v] else {})
  }

  predicate Triggered(dag: Dag, routing: map<NodeId, Data>, v: NodeId)
  {
    IsRoot(dag, v) || AnyFires(dag, routing, v)
  }

  function Visit(dag: Dag, h: Handler, init: Data, before: Evaluation, v: NodeId): Evaluation
  {
    if !Triggered(dag, before.routing, v) then before
    else
      match h(v, SeqInputs(dag, init, before.outputs, v))
      case Succeeded(output, routing) =>
        before.(outputs := before.outputs[v := output], routing := before.routing[v := routing])
      case Failed(error) => before.(failed := before.failed[v := error])
  }

  /** Visits the first `k` nodes of an order one after the other. */
  function Fold<A>(visit: (A, NodeId) -> A, start: A, order: seq<NodeId>, k: nat): A
    requires k <= |order|
  {
    if k == 0 then start else visit(Fold(visit, start, order, k - 1), order[k - 1])
  }

  /** What every visit keeps, a fold keeps. */
  lemma {:induction false} FoldInduction<A>(
    visit: (A, NodeId) -> A, start: A, order: seq<NodeId>, k: nat, ok: (A, nat) -> bool)
    requires k <= |order| && ok(start, 0)
    requires forall j: nat, a: A {:trigger ok(a, j)} ::
      j < |order| && a == Fold(visit, start, order, j) && ok(a, j) ==> ok(visit(a, order[j]), j + 1)
    ensures ok(Fold(visit, start, order, k), k)
  {
    if k > 0 {
      FoldInduction(visit, start, order, k - 1, ok);
    }
  }

  const NOTHING := Evaluation(map[], map[], map[])

  function Visitor(dag: Dag, h: Handler, init: Data): (Evaluation, NodeId) -> Evaluation
  {
    (before, v) => Visit(dag, h, init, before, v)
  }

  /** The evaluation of the first `k` nodes of the topological order. */
  function Evaluate(dag: Dag, h: Handler, init: Data, k: nat): Evaluation
    requires k <= |dag.order|
  {
    Fold(Visitor(dag, h, init), NOTHING, dag.order, k)
  }

  function Meaning(dag: Dag, h: Handler, init: Data): Evaluation
  {
    Evaluate(dag, h, init, |dag.order|)
  }

  /** The two evaluations say the same about `u`. */
  ghost predicate SameAt(a: Evaluation, b: Evaluation, u: NodeId)
  {
    Said(a, u) == Said(b, u)
  }

  /** What an evaluation says about one node. */
  datatype Saying = Saying(output: Option<Data>, routing: Option<Data>, error: Option<string>)

  function Said(e: Evaluation, u: NodeId): Saying
  {
    Saying(At(e.outputs, u), At(e.routing, u), At(e.failed, u))
  }

  function At<T>(m: map<NodeId, T>, u: NodeId): Option<T>
  {
    if u in m then Some(m[u]) else None
  }

  /** A visit says nothing new about other nodes. */
  ghost predicate Local(visit: (Evaluation, NodeId) -> Evaluation)
  {
    forall e, v, u {:trigger Said(visit(e, v), u)} :: u != v ==> Said(visit(e, v), u) == Said(e, u)
  }

  lemma VisitorIsLocal(dag: Dag, h: Handler, init: Data)
    ensures Local(Visitor(dag, h, init))
  {
  }

  /** Visiting other nodes does not change what was decided about `u`. */
  lemma {:induction false} FoldStable(
    visit: (Evaluation, NodeId) -> Evaluation, order: seq<NodeId>, k: nat, m: nat, u: NodeId)
    requires Local(visit) && k <= m <= |order| && forall j :: k <= j < m ==> order[j] != u
    ensures SameAt(Fold(visit, NOTHING, order, k), Fold(visit, NOTHING, order, m), u)
  {
    if k < m {
      FoldStable(visit, order, k, m - 1, u);
      var before := Fold(visit, NOTHING, order, m - 1);
      assert Said(visit(before, order[m - 1]), u) == Said(before, u);
    }
  }

  /** A node is not mentioned before its turn, and its turn decides what is said of it. */
  lemma FoldVisited(visit: (Evaluation, NodeId) -> Evaluation, order: seq<NodeId>, i: nat)
    requires Local(visit) && i < |order| && forall j :: 0 <= j < |order| && j != i ==> order[j] != order[i]
    ensures Said(Fold(visit, NOTHING, order, i), order[i]) == Saying(None, None, None)
    ensures SameAt(visit(Fold(visit, NOTHING, order, i), order[i]), Fold(visit, NOTHING, order, |order|), order[i])
  {
    FoldStable(visit, order, 0, i, order[i]);
    FoldStable(visit, order, i + 1, |order|, order[i]);
  }

  lemma IndexInOrder(dag: Dag, k: nat)
    requires IsTopologicalOrder(dag.order, dag.nodes.Keys, dag.forward) && k < |dag.order|
    ensures IndexOf(dag.order, dag.order[k]) == k
  {
  }

  /** Visiting later nodes does not change what was decided about earlier ones. */
  lemma Stable(dag: Dag, h: Handler, init: Data, k: nat, m: nat, u: NodeId)
    requires IsTopologicalOrder(dag.order, dag.nodes.Keys, dag.forward)
    requires k <= m <= |dag.order| && IndexOf(dag.order, u) < k
    ensures SameAt(Evaluate(dag, h, init, k), Evaluate(dag, h, init, m), u)
  {
    forall j | k <= j < |dag.order|
      ensures dag.order[j] != u
    {
      IndexInOrder(dag, j);
    }
    VisitorIsLocal(dag, h, init);
    FoldStable(Visitor(dag, h, init), dag.order, k, m, u);
  }

  /** Nothing is said about a node before it is visited. */
  lemma Unvisited(dag: Dag, h: Handler, init: Data, k: nat, u: NodeId)
    requires k <= |dag.order| && k <= IndexOf(dag.order, u)
    ensures Said(Evaluate(dag, h, init, k), u) == Saying(None, None, None)
  {
    VisitorIsLocal(dag, h, init);
    FoldStable(Visitor(dag, h, init), dag.order, 0, k, u);
  }

  lemma AncestorEarlier(dag: Dag, u: NodeId, v: NodeId)
    requires Built(dag) && v in dag.nodes && u in dag.ancestors[v]
    ensures IndexOf(dag.order, u) < IndexOf(dag.order, v)
  {
    var p :| |p| >= 2 && PathBetween(dag.forward, p, u, v);
    PathRises(dag.order, dag.nodes.Keys, dag.forward, p, 0);
  }

  lemma MergeAgrees(a: map<NodeId, Data>, b: map<NodeId, Data>, ids: set<NodeId>)
    requires forall k :: k == INITIAL || k in ids ==> (k in a <==> k in b) && (k in a ==> a[k] == b[k])
    ensures MergeUpstream(a, ids) == MergeUpstream(b, ids)
  {
  }

  /** Inputs depend only on what the evaluations say about earlier nodes. */
  lemma InputsAgree(dag: Dag, init: Data, a: Evaluation, b: Evaluation, v: NodeId)
    requires v in dag.ancestors && forall u :: u in dag.ancestors[v] ==> SameAt(a, b, u)
    requires INITIAL !in a.outputs && INITIAL !in b.outputs
    ensures SeqInputs(dag, init, a.outputs, v) == SeqInputs(dag, init, b.outputs, v)
  {
    var x, y := Context(init, a.outputs), Context(init, b.outputs);
    forall k | k == INITIAL || k in dag.ancestors[v]
      ensures k in x <==> k in y
      ensures k in x ==> x[k] == y[k]
    {
      assert k in dag.ancestors[v] ==> SameAt(a, b, k);
    }
    MergeAgrees(x, y, dag.ancestors[v]);
  }

  lemma TriggerAgrees(dag: Dag, a: Evaluation, b: Evaluation, v: NodeId)
    requires forall e :: e in dag.forward && e.target == v ==> SameAt(a, b, e.source)
    ensures Triggered(dag, a.routing, v) <==> Triggered(dag, b.routing, v)
  {
    forall e | e in dag.forward && e.target == v
      ensures Fires(dag, a.routing, e) <==> Fires(dag, b.routing, e)
    {
      assert SameAt(a, b, e.source);
    }
  }

  /** What the evaluation says about `v` is what `v` answers, if it is triggered at all. */
  ghost predicate Consistent(dag: Dag, h: Handler, init: Data, m: Evaluation, v: NodeId)
  {
    if Triggered(dag, m.routing, v) then
      match h(v, SeqInputs(dag, init, m.outputs, v))
      case Succeeded(output, routing) =>
        v in m.outputs && m.outputs[v] == output && v in m.routing && m.routing[v] == routing && v !in m.failed
      case Failed(error) => v in m.failed && m.failed[v] == error && v !in m.outputs && v !in m.routing
    else v !in m.outputs && v !in m.routing && v !in m.failed
  }

  lemma VisitConsistent(dag: Dag, h: Handler, init: Data, before: Evaluation, m: Evaluation, v: NodeId)
    requires v !in before.outputs && v !in before.routing && v !in before.failed
    requires SameAt(Visit(dag, h, init, before, v), m, v)
    requires Triggered(dag, before.routing, v) <==> Triggered(dag, m.routing, v)
    requires SeqInputs(dag, init, before.outputs, v) == SeqInputs(dag, init, m.outputs, v)
    ensures Consistent(dag, h, init, m, v)
  {
  }

  lemma TriggerDecided(dag: Dag, h: Handler, init: Data, i: nat, v: NodeId)
    requires IsTopologicalOrder(dag.order, dag.nodes.Keys, dag.forward) && i == IndexOf(dag.order, v)
    ensures Triggered(dag, Evaluate(dag, h, init, i).routing, v) <==> Triggered(dag, Meaning(dag, h, init).routing, v)
  {
    forall e | e in dag.forward && e.target == v
      ensures SameAt(Evaluate(dag, h, init, i), Meaning(dag, h, init), e.source)
    {
      assert PointsLater(dag.order, e);
      Stable(dag, h, init, i, |dag.order|, e.source);
    }
    TriggerAgrees(dag, Evaluate(dag, h, init, i), Meaning(dag, h, init), v);
  }

  lemma InputsDecided(dag: Dag, h: Handler, init: Data, i: nat, v: NodeId)
    requires Built(dag) && NoReservedIds(dag) && v in dag.nodes && i == IndexOf(dag.order, v)
    ensures SeqInputs(dag, init, Evaluate(dag, h, init, i).outputs, v) ==
      SeqInputs(dag, init, Meaning(dag, h, init).outputs, v)
  {
    forall u | u in dag.ancestors[v]
      ensures SameAt(Evaluate(dag, h, init, i), Meaning(dag, h, init), u)
    {
      AncestorEarlier(dag, u, v);
      Stable(dag, h, init, i, |dag.order|, u);
    }
    Unvisited(dag, h, init, i, INITIAL);
    Unvisited(dag, h, init, |dag.order|, INITIAL);
    InputsAgree(dag, init, Evaluate(dag, h, init, i), Meaning(dag, h, init), v);
  }

  lemma VisitedOnce(dag: Dag, h: Handler, init: Data, i: nat, v: NodeId)
    requires IsTopologicalOrder(dag.order, dag.nodes.Keys, dag.forward) && i < |dag.order| && dag.order[i] == v
    ensures Said(Evaluate(dag, h, init, i), v) == Saying(None, None, None)
    ensures SameAt(Visit(dag, h, init, Evaluate(dag, h, init, i), v), Meaning(dag, h, init), v)
  {
    VisitorIsLocal(dag, h, init);
    FoldVisited(Visitor(dag, h, init), dag.order, i);
  }

  lemma MeaningConsistent(dag: Dag, h: Handler, init: Data, v: NodeId)
    requires Built(dag) && NoReservedIds(dag) && v in dag.nodes
    ensures Consistent(dag, h, init, Meaning(dag, h, init), v)
  {
    var i := IndexOf(dag.order, v);
    assert v in dag.order;
    VisitedOnce(dag, h, init, i, v);
    TriggerDecided(dag, h, init, i, v);
    InputsDecided(dag, h, init, i, v);
    VisitConsistent(dag, h, init, Evaluate(dag, h, init, i), Meaning(dag, h, init), v);
  }

  /** Only nodes of the graph are evaluated. */
  lemma MeaningDomain(dag: Dag, h: Handler, init: Data, u: NodeId)
    requires Built(dag)
    ensures var m := Meaning(dag, h, init); u in m.outputs || u in m.routing || u in m.failed ==> u in dag.nodes
  {
    if u !in dag.nodes {
      Unvisited(dag, h, init, |dag.order|, u);
    }
  }

  /** What running the nodes one at a time returns. */
  function SequentialReport(dag: Dag, m: Evaluation): Report
  {
    var results := map v | v in m.outputs :: NodeSucceeded(m.outputs[v]);
    var final := map v | v in dag.nodes && dag.IsSink(v) && v in m.outputs :: m.outputs[v];
    if final == map[] && dag.nodes != map[] then Report(map[], results, Some(ALL_SUPPRESSED))
    else Report(final, results, None)
  }
}
