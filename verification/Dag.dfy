/** The built graph the runner works on, and what it means for it to be built correctly. */
module DagModel {
  import opened Workflow
  import opened Graph

  /** The adjacency structure of one workflow. `forward` is the list of forward edges
      the adjacency maps are made from; slices whose order nothing depends on
      (ancestors, loop bodies) are sets. */
  datatype Dag = Dag(
    nodes: map<NodeId, Node>,
    forward: seq<Edge>,
    successors: map<NodeId, seq<NodeId>>,
    predecessors: map<NodeId, seq<NodeId>>,
    outEdges: map<NodeId, seq<Edge>>,
    order: seq<NodeId>,
    ancestors: map<NodeId, set<NodeId>>,
    loopBack: seq<Edge>,
    loopBody: map<NodeId, set<NodeId>>)
  {
    /** Map reads with the zero value for a missing key, as map indexing gives. */
    function TypeOf(v: NodeId): string
    {
      if v in nodes then nodes[v].typeId else ""
    }

    function ConfigOf(v: NodeId): Data
    {
      if v in nodes then nodes[v].config else map[]
    }

    function Out(v: NodeId): seq<Edge>
    {
      if v in nodes && v in outEdges then outEdges[v] else []
    }

    function Preds(v: NodeId): seq<NodeId>
    {
      if v in predecessors then predecessors[v] else []
    }

    function BodyOf(c: NodeId): set<NodeId>
    {
      if c in loopBody then loopBody[c] else {}
    }

    function Controllers(): set<NodeId>
    {
      set v | v in nodes && nodes[v].typeId == LOOP_CONTROLLER
    }

    predicate IsSink(v: NodeId)
    {
      v in nodes && (v !in successors || successors[v] == [])
    }
  }

  predicate HasEdge(edges: seq<Edge>, u: NodeId, v: NodeId)
  {
    exists e :: e in edges && e.source == u && e.target == v
  }

  /** `p` walks along edges. */
  predicate IsPath(edges: seq<Edge>, p: seq<NodeId>)
  {
    |p| >= 1 && forall i :: 0 <= i < |p| - 1 ==> HasEdge(edges, p[i], p[i + 1])
  }

  ghost predicate PathBetween(edges: seq<Edge>, p: seq<NodeId>, u: NodeId, v: NodeId)
  {
    IsPath(edges, p) && p[0] == u && p[|p| - 1] == v
  }

  /** Some path of at least one edge leads from `u` to `v`. */
  ghost predicate Reaches(edges: seq<Edge>, u: NodeId, v: NodeId)
  {
    exists p :: |p| >= 2 && PathBetween(edges, p, u, v)
  }

  ghost predicate Acyclic(edges: seq<Edge>)
  {
    forall v :: !Reaches(edges, v, v)
  }

  function IndexOf(order: seq<NodeId>, v: NodeId): (i: nat)
    ensures i <= |order|
    ensures i < |order| ==> order[i] == v
    ensures forall j :: 0 <= j < i ==> order[j] != v
    ensures v in order <==> i < |order|
  {
    if order == [] || order[0] == v then 0 else 1 + IndexOf(order[1..], v)
  }

  predicate PointsLater(order: seq<NodeId>, e: Edge)
  {
    IndexOf(order, e.source) < IndexOf(order, e.target)
  }

  /** A duplicate-free listing of `nodes` in which every edge points later. */
  ghost predicate IsTopologicalOrder(order: seq<NodeId>, nodes: set<NodeId>, edges: seq<Edge>)
  {
    && (forall v :: v in order <==> v in nodes)
    && (forall i, j :: 0 <= i < j < |order| ==> order[i] != order[j])
    && (forall e {:trigger PointsLater(order, e)} :: e in edges ==> PointsLater(order, e))
  }

  /** Along a path, positions in a topological order rise. */
  lemma {:induction false} PathRises(order: seq<NodeId>, nodes: set<NodeId>, edges: seq<Edge>, p: seq<NodeId>, i: nat)
    requires IsTopologicalOrder(order, nodes, edges) && IsPath(edges, p) && i < |p| - 1
    ensures IndexOf(order, p[i]) < IndexOf(order, p[|p| - 1])
    decreases |p| - i
  {
    assert HasEdge(edges, p[i], p[i + 1]);
    var e :| e in edges && e.source == p[i] && e.target == p[i + 1];
    assert PointsLater(order, e);
    if i + 1 < |p| - 1 {
      PathRises(order, nodes, edges, p, i + 1);
    }
  }

  /** The adjacency maps say exactly what the edge list says. */
  ghost predicate Adjacent(dag: Dag)
  {
    && (forall e :: e in dag.forward ==> e.source in dag.nodes && e.target in dag.nodes)
    && dag.outEdges.Keys == dag.predecessors.Keys == dag.successors.Keys == dag.nodes.Keys
    && (forall v {:trigger dag.outEdges[v]} :: v in dag.nodes ==> dag.outEdges[v] == OutOf(dag.forward, v))
    && (forall v {:trigger dag.predecessors[v]} ::
          v in dag.nodes ==> dag.predecessors[v] == SourcesInto(dag.forward, v))
    && (forall v {:trigger dag.successors[v]} :: v in dag.nodes ==> dag.successors[v] == TargetsFrom(dag.forward, v))
  }

  ghost predicate ExactAncestors(dag: Dag)
  {
    && dag.ancestors.Keys == dag.nodes.Keys
    && forall v, u :: v in dag.nodes ==> (u in dag.ancestors[v] <==> Reaches(dag.forward, u, v))
  }

  /** The targets of a controller's edges that do not enter the loop body. */
  function ExitTargets(out: seq<Edge>): set<NodeId>
  {
    set e | e in out && e.branch != Some(LOOP_BODY) :: e.target
  }

  /** `v` is the target of a loop_body edge among `out`. */
  predicate EntersBody(out: seq<Edge>, v: NodeId)
  {
    exists e :: e in out && e.branch == Some(LOOP_BODY) && e.target == v
  }

  /** `p` starts at a loop_body target and avoids the controller and its exit targets. */
  ghost predicate IsBodyPath(edges: seq<Edge>, out: seq<Edge>, c: NodeId, p: seq<NodeId>)
  {
    && IsPath(edges, p)
    && EntersBody(out, p[0])
    && forall x :: x in p ==> x != c && x !in ExitTargets(out)
  }

  /** `v` is reachable from a loop_body target of the controller `c`, whose out-edges are
      `out`, without passing through `c` or one of its exit targets. */
  ghost predicate InBody(edges: seq<Edge>, out: seq<Edge>, c: NodeId, v: NodeId)
  {
    exists p :: IsBodyPath(edges, out, c, p) && p[|p| - 1] == v
  }

  ghost predicate ExactBodies(dag: Dag)
  {
    && dag.loopBody.Keys == dag.Controllers()
    && forall c, v :: c in dag.loopBody ==> (v in dag.loopBody[c] <==> InBody(dag.forward, dag.Out(c), c, v))
  }

  /** What the builder checks about loop-back edges and controllers. */
  ghost predicate LoopRules(dag: Dag)
  {
    && (forall c, d :: c in dag.Controllers() && d in dag.Controllers() ==> c == d)
    && (forall e :: e in dag.loopBack ==> e.branch == None && e.source in dag.nodes && e.target in dag.Controllers())
  }

  /** Everything a successful build guarantees. */
  ghost predicate Built(dag: Dag)
  {
    && Adjacent(dag)
    && IsTopologicalOrder(dag.order, dag.nodes.Keys, dag.forward)
    && ExactAncestors(dag)
    && ExactBodies(dag)
    && LoopRules(dag)
  }
}
