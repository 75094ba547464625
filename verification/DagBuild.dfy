/** Building and validating the graph of a workflow. */
module DagBuild {
  import opened Workflow
  import opened Graph
  import opened DagModel
  import TopoSort
  import Closures

  const TOO_MANY_CONTROLLERS := "at most one loop.controller node is permitted per workflow"
  const LABELLED_LOOP_BACK := "loop-back edge must not have a branch_label"
  const BAD_LOOP_BACK_TARGET := "loop-back edge must target a loop.controller node"
  const UNKNOWN_NODE := "edge references unknown node"
  const NO_LOOP_BODY := "loop.controller node must have an outgoing edge labelled loop_body"
  const NO_EXIT := "loop.controller node must have an outgoing edge labelled exit"

  function Backward(edges: seq<Edge>): (r: seq<Edge>)
    ensures forall e :: e in r <==> e in edges && e.isLoopBack
  {
    if edges == [] then []
    else
      var last := edges[|edges| - 1];
      assert forall e :: e in edges <==> e in edges[..|edges| - 1] || e == last;
      Backward(edges[..|edges| - 1]) + (if last.isLoopBack then [last] else [])
  }

  /** No later node has the id of the node at `i`. */
  predicate LastOfId(nodes: seq<Node>, i: nat)
    requires i < |nodes|
  {
    forall j :: i < j < |nodes| ==> nodes[j].id != nodes[i].id
  }

  /** The node map a list of nodes induces: a later node replaces an earlier one of the same id. */
  function NodeMap(nodes: seq<Node>): (r: map<NodeId, Node>)
    ensures forall v :: v in r <==> exists n :: n in nodes && n.id == v
    ensures forall v :: v in r ==> r[v] in nodes && r[v].id == v
  {
    if nodes == [] then map[]
    else
      var last := nodes[|nodes| - 1];
      assert forall n :: n in nodes <==> n in nodes[..|nodes| - 1] || n == last;
      NodeMap(nodes[..|nodes| - 1])[last.id := last]
  }

  lemma {:induction false} LastIsMapped(nodes: seq<Node>, i: nat)
    requires i < |nodes| && LastOfId(nodes, i)
    ensures nodes[i].id in NodeMap(nodes) && NodeMap(nodes)[nodes[i].id] == nodes[i]
  {
    var front, last := nodes[..|nodes| - 1], nodes[|nodes| - 1];
    if i < |front| {
      assert forall j :: i <= j < |front| ==> front[j] == nodes[j];
      assert last.id != nodes[i].id;
      LastIsMapped(front, i);
    }
  }

  function CountControllers(nodes: seq<Node>): nat
  {
    if nodes == [] then 0
    else CountControllers(nodes[..|nodes| - 1]) + (if nodes[|nodes| - 1].typeId == LOOP_CONTROLLER then 1 else 0)
  }

  predicate IsController(nodes: map<NodeId, Node>, v: NodeId)
  {
    v in nodes && nodes[v].typeId == LOOP_CONTROLLER
  }

  predicate HasLabel(edges: seq<Edge>, c: NodeId, wanted: string)
  {
    exists e :: e in edges && e.source == c && e.branch == Some(wanted)
  }

  /** At most one controller, loop-back edges into it without a label, known endpoints. */
  ghost predicate EdgesOK(nodes: seq<Node>, forward: seq<Edge>, back: seq<Edge>)
  {
    var all := NodeMap(nodes);
    && CountControllers(nodes) <= 1
    && (forall e :: e in back ==> e.branch == None && IsController(all, e.target) && e.source in all)
    && (forall e :: e in forward ==> e.source in all && e.target in all)
  }

  /** Every controller has a loop_body and an exit edge. */
  ghost predicate LabelsOK(nodes: seq<Node>, forward: seq<Edge>)
  {
    forall n :: n in nodes && n.typeId == LOOP_CONTROLLER ==>
      HasLabel(forward, n.id, LOOP_BODY) && HasLabel(forward, n.id, EXIT)
  }

  /** Exactly the workflows the builder accepts. */
  ghost predicate Acceptable(nodes: seq<Node>, edges: seq<Edge>)
  {
    var forward := Closures.Forward(edges);
    EdgesOK(nodes, forward, Backward(edges)) && Acyclic(forward) && LabelsOK(nodes, forward)
  }

  /** The same, spelled out: at most one node is a loop.controller; every edge joins listed nodes; a
      loop-back edge has no label and leads to the controller; the other edges form no cycle;
      and every controller has one of them labelled loop_body and one labelled exit. */
  ghost predicate WellFormed(nodes: seq<Node>, edges: seq<Edge>)
  {
    && AtMostOne(nodes) && EndsListed(nodes, edges) && LabelledControllers(nodes, edges)
    && !(exists v :: Reaches(Closures.Forward(edges), v, v))
  }

  predicate AtMostOne(nodes: seq<Node>)
  {
    forall i, j :: 0 <= i < j < |nodes| ==>
      !(nodes[i].typeId == "loop.controller" && nodes[j].typeId == "loop.controller")
  }

  ghost predicate EndsListed(nodes: seq<Node>, edges: seq<Edge>)
  {
    && (forall e :: e in edges ==> Listed(nodes, e.source) && Listed(nodes, e.target))
    && (forall e :: e in edges && e.isLoopBack ==> e.branch == None && LeadsToController(nodes, e.target))
  }

  ghost predicate LabelledControllers(nodes: seq<Node>, edges: seq<Edge>)
  {
    forall n :: n in nodes && n.typeId == "loop.controller" ==>
      && (exists e :: e in edges && !e.isLoopBack && e.source == n.id && e.branch == Some("loop_body"))
      && (exists e :: e in edges && !e.isLoopBack && e.source == n.id && e.branch == Some("exit"))
  }

  ghost predicate Listed(nodes: seq<Node>, v: NodeId)
  {
    exists n :: n in nodes && n.id == v
  }

  /** The last node listed under `v` is a controller. */
  ghost predicate LeadsToController(nodes: seq<Node>, v: NodeId)
  {
    exists i :: 0 <= i < |nodes| && nodes[i].id == v && LastOfId(nodes, i) && nodes[i].typeId == "loop.controller"
  }

  predicate DistinctIds(nodes: seq<Node>)
  {
    forall i, j :: 0 <= i < j < |nodes| ==> nodes[i].id != nodes[j].id
  }

  // ---- The steps ----

  method Partition(edges: seq<Edge>) returns (forward: seq<Edge>, back: seq<Edge>)
    ensures forward == Closures.Forward(edges) && back == Backward(edges)
  {
    forward, back := [], [];
    for i := 0 to |edges|
      invariant forward == Closures.Forward(edges[..i]) && back == Backward(edges[..i])
    {
      assert edges[..i + 1][..i] == edges[..i];
      if edges[i].isLoopBack {
        back := back + [edges[i]];
      } else {
        forward := forward + [edges[i]];
      }
    }
    assert edges[..|edges|] == edges;
  }

  method IndexNodes(nodes: seq<Node>) returns (all: map<NodeId, Node>, controllers: nat)
    ensures all == NodeMap(nodes) && controllers == CountControllers(nodes)
  {
    all, controllers := map[], 0;
    for i := 0 to |nodes|
      invariant all == NodeMap(nodes[..i]) && controllers == CountControllers(nodes[..i])
    {
      assert nodes[..i + 1][..i] == nodes[..i];
      all := all[nodes[i].id := nodes[i]];
      if nodes[i].typeId == LOOP_CONTROLLER {
        controllers := controllers + 1;
      }
    }
    assert nodes[..|nodes|] == nodes;
  }

  method ValidateLoopConstraints(nodes: seq<Node>, back: seq<Edge>) returns (error: Option<string>)
    ensures error == None <==>
      (&& CountControllers(nodes) <= 1
       && forall e :: e in back ==> e.branch == None && IsController(NodeMap(nodes), e.target))
  {
    var all, controllers := IndexNodes(nodes);
    if controllers > 1 {
      return Some(TOO_MANY_CONTROLLERS);
    }
    for i := 0 to |back|
      invariant forall j :: 0 <= j < i ==> back[j].branch == None && IsController(all, back[j].target)
    {
      assert back[i] in back;
      if back[i].branch != None {
        return Some(LABELLED_LOOP_BACK);
      }
      if !IsController(all, back[i].target) {
        return Some(BAD_LOOP_BACK_TARGET);
      }
    }
    return None;
  }

  datatype Adjacency = Adjacency(
    successors: map<NodeId, seq<NodeId>>,
    predecessors: map<NodeId, seq<NodeId>>,
    outEdges: map<NodeId, seq<Edge>>)

  /** The maps say exactly what the edge list says about every node. */
  ghost predicate Describes(a: Adjacency, all: set<NodeId>, forward: seq<Edge>)
  {
    && a.successors.Keys == a.predecessors.Keys == a.outEdges.Keys == all
    && (forall v {:trigger a.successors[v]} :: v in all ==> a.successors[v] == TargetsFrom(forward, v))
    && (forall v {:trigger a.predecessors[v]} :: v in all ==> a.predecessors[v] == SourcesInto(forward, v))
    && (forall v {:trigger a.outEdges[v]} :: v in all ==> a.outEdges[v] == OutOf(forward, v))
  }

  function AddEdge(a: Adjacency, e: Edge): Adjacency
    requires e.source in a.successors && e.target in a.predecessors && e.source in a.outEdges
  {
    Adjacency(
      a.successors[e.source := a.successors[e.source] + [e.target]],
      a.predecessors[e.target := a.predecessors[e.target] + [e.source]],
      a.outEdges[e.source := a.outEdges[e.source] + [e]])
  }

  lemma AddEdgeDescribes(a: Adjacency, all: set<NodeId>, forward: seq<Edge>, e: Edge)
    requires Describes(a, all, forward) && e.source in all && e.target in all
    ensures Describes(AddEdge(a, e), all, forward + [e])
  {
    var b, more := AddEdge(a, e), forward + [e];
    forall v | v in all
      ensures b.successors[v] == TargetsFrom(more, v) && b.predecessors[v] == SourcesInto(more, v)
      ensures b.outEdges[v] == OutOf(more, v)
    {
      AppendEdge(forward, e, v);
      AddEdgeAt(a, e, v);
    }
  }

  lemma AddEdgeAt(a: Adjacency, e: Edge, v: NodeId)
    requires e.source in a.successors && e.target in a.predecessors && e.source in a.outEdges
    requires v in a.successors && v in a.predecessors && v in a.outEdges
    ensures var b := AddEdge(a, e);
      && b.successors[v] == a.successors[v] + (if e.source == v then [e.target] else [])
      && b.predecessors[v] == a.predecessors[v] + (if e.target == v then [e.source] else [])
      && b.outEdges[v] == a.outEdges[v] + (if e.source == v then [e] else [])
  {
  }

  /** Fills the adjacency maps, one forward edge at a time; fails on an unknown endpoint. */
  method FillAdjacency(all: map<NodeId, Node>, forward: seq<Edge>) returns (a: Adjacency, ok: bool)
    ensures ok <==> forall e :: e in forward ==> e.source in all && e.target in all
    ensures ok ==> Describes(a, all.Keys, forward)
  {
    a := Adjacency(map v | v in all :: [], map v | v in all :: [], map v | v in all :: []);
    for i := 0 to |forward|
      invariant Describes(a, all.Keys, forward[..i])
      invariant forall e :: e in forward[..i] ==> e.source in all && e.target in all
    {
      assert forward[..i + 1] == forward[..i] + [forward[i]];
      assert forward[i] in forward;
      if forward[i].source !in all || forward[i].target !in all {
        return a, false;
      }
      AddEdgeDescribes(a, all.Keys, forward[..i], forward[i]);
      a := AddEdge(a, forward[i]);
    }
    assert forward[..|forward|] == forward;
    return a, true;
  }

  method Known(all: map<NodeId, Node>, edges: seq<Edge>) returns (ok: bool)
    ensures ok <==> forall e :: e in edges ==> e.source in all && e.target in all
  {
    for i := 0 to |edges|
      invariant forall j :: 0 <= j < i ==> edges[j].source in all && edges[j].target in all
    {
      assert edges[i] in edges;
      if edges[i].source !in all || edges[i].target !in all {
        return false;
      }
    }
    return true;
  }

  /** The ids of the nodes, in some order. */
  method ListIds(all: set<NodeId>) returns (ids: seq<NodeId>)
    ensures forall v :: v in ids <==> v in all
  {
    ids := [];
    var rest := all;
    while rest != {}
      invariant rest <= all && forall v :: v in ids <==> v in all - rest
      decreases rest
    {
      var v :| v in rest;
      ids := ids + [v];
      rest := rest - {v};
    }
  }

  method AllAncestors(all: set<NodeId>, a: Adjacency, ghost forward: seq<Edge>)
    returns (ancestors: map<NodeId, set<NodeId>>)
    requires Describes(a, all, forward) && forall e :: e in forward ==> e.source in all && e.target in all
    ensures ancestors.Keys == all
    ensures forall v, u :: v in all ==> (u in ancestors[v] <==> Reaches(forward, u, v))
  {
    ancestors := map[];
    var rest := all;
    while rest != {}
      invariant rest <= all && ancestors.Keys == all - rest
      invariant forall v, u :: v in ancestors ==> (u in ancestors[v] <==> Reaches(forward, u, v))
      decreases rest
    {
      var v :| v in rest;
      var above := Closures.CollectAncestors(v, a.predecessors, forward);
      ancestors := ancestors[v := above];
      rest := rest - {v};
    }
  }

  method AllBodies(nodes: seq<Node>, a: Adjacency, ghost all: set<NodeId>, ghost forward: seq<Edge>)
    returns (bodies: map<NodeId, set<NodeId>>)
    requires Describes(a, all, forward) && (forall e :: e in forward ==> e.source in all && e.target in all)
    requires forall n :: n in nodes ==> n.id in all
    ensures forall c :: c in bodies <==> exists n :: n in nodes && n.id == c && n.typeId == LOOP_CONTROLLER
    ensures forall c, v :: c in bodies ==> (v in bodies[c] <==> InBody(forward, OutOf(forward, c), c, v))
  {
    bodies := map[];
    for i := 0 to |nodes|
      invariant forall c :: c in bodies <==> exists n :: n in nodes[..i] && n.id == c && n.typeId == LOOP_CONTROLLER
      invariant forall c, v :: c in bodies ==> (v in bodies[c] <==> InBody(forward, OutOf(forward, c), c, v))
    {
      assert forall n :: n in nodes[..i + 1] <==> n in nodes[..i] || n == nodes[i];
      if nodes[i].typeId == LOOP_CONTROLLER {
        var c := nodes[i].id;
        assert nodes[i] in nodes;
        assert a.outEdges[c] == OutOf(forward, c);
        var body := Closures.ComputeLoopBodyNodes(c, a.outEdges[c], a.successors, forward);
        bodies := bodies[c := body];
      }
    }
    assert nodes[..|nodes|] == nodes;
  }

  method LabelsOf(out: seq<Edge>) returns (hasBody: bool, hasExit: bool)
    ensures hasBody <==> exists e :: e in out && e.branch == Some(LOOP_BODY)
    ensures hasExit <==> exists e :: e in out && e.branch == Some(EXIT)
  {
    hasBody, hasExit := false, false;
    for i := 0 to |out|
      invariant hasBody <==> exists e :: e in out[..i] && e.branch == Some(LOOP_BODY)
      invariant hasExit <==> exists e :: e in out[..i] && e.branch == Some(EXIT)
    {
      assert forall e :: e in out[..i + 1] <==> e in out[..i] || e == out[i];
      if out[i].branch == Some(LOOP_BODY) {
        hasBody := true;
      }
      if out[i].branch == Some(EXIT) {
        hasExit := true;
      }
    }
    assert out[..|out|] == out;
  }

  ghost predicate NodeLabelsOK(forward: seq<Edge>, n: Node)
  {
    n.typeId == LOOP_CONTROLLER ==> HasLabel(forward, n.id, LOOP_BODY) && HasLabel(forward, n.id, EXIT)
  }

  method ControllerLabels(a: Adjacency, id: NodeId, ghost all: set<NodeId>, ghost forward: seq<Edge>)
    returns (hasBody: bool, hasExit: bool)
    requires Describes(a, all, forward) && id in all
    ensures hasBody == HasLabel(forward, id, LOOP_BODY) && hasExit == HasLabel(forward, id, EXIT)
  {
    assert a.outEdges[id] == OutOf(forward, id);
    hasBody, hasExit := LabelsOf(a.outEdges[id]);
  }

  method ValidateControllers(nodes: seq<Node>, a: Adjacency, ghost all: set<NodeId>, ghost forward: seq<Edge>)
    returns (error: Option<string>)
    requires Describes(a, all, forward) && forall n :: n in nodes ==> n.id in all
    ensures error == None <==> LabelsOK(nodes, forward)
  {
    for i := 0 to |nodes|
      invariant forall j :: 0 <= j < i ==> NodeLabelsOK(forward, nodes[j])
    {
      if nodes[i].typeId == LOOP_CONTROLLER {
        assert nodes[i] in nodes;
        var hasBody, hasExit := ControllerLabels(a, nodes[i].id, all, forward);
        if !hasBody {
          assert !NodeLabelsOK(forward, nodes[i]);
          return Some(NO_LOOP_BODY);
        }
        if !hasExit {
          assert !NodeLabelsOK(forward, nodes[i]);
          return Some(NO_EXIT);
        }
      }
    }
    return None;
  }

  // ---- The builder ----

  lemma {:induction false} TwoControllers(nodes: seq<Node>, i: nat, j: nat)
    requires i < j < |nodes| && nodes[i].typeId == LOOP_CONTROLLER && nodes[j].typeId == LOOP_CONTROLLER
    ensures CountControllers(nodes) >= 2
  {
    var front := nodes[..|nodes| - 1];
    if j < |nodes| - 1 {
      TwoControllers(front, i, j);
    } else {
      OneController(front, i);
    }
  }

  lemma {:induction false} OneController(nodes: seq<Node>, i: nat)
    requires i < |nodes| && nodes[i].typeId == LOOP_CONTROLLER
    ensures CountControllers(nodes) >= 1
  {
    if i < |nodes| - 1 {
      OneController(nodes[..|nodes| - 1], i);
    }
  }

  lemma SoleController(nodes: seq<Node>, c: NodeId, d: NodeId)
    requires CountControllers(nodes) <= 1 && IsController(NodeMap(nodes), c) && IsController(NodeMap(nodes), d)
    ensures c == d
  {
    var i := ListedController(nodes, c);
    var j := ListedController(nodes, d);
    if i < j {
      TwoControllers(nodes, i, j);
    } else if j < i {
      TwoControllers(nodes, j, i);
    }
  }

  lemma ListedController(nodes: seq<Node>, c: NodeId) returns (i: nat)
    requires IsController(NodeMap(nodes), c)
    ensures i < |nodes| && nodes[i].id == c && nodes[i].typeId == LOOP_CONTROLLER
  {
    i :| 0 <= i < |nodes| && nodes[i] == NodeMap(nodes)[c];
  }

  /** With distinct ids a node's entry in the node map is that node. */
  lemma DistinctLookup(nodes: seq<Node>, n: Node)
    requires DistinctIds(nodes) && n in nodes
    ensures n.id in NodeMap(nodes) && NodeMap(nodes)[n.id] == n
  {
    var m := NodeMap(nodes)[n.id];
    var i :| 0 <= i < |nodes| && nodes[i] == n;
    var j :| 0 <= j < |nodes| && nodes[j] == m;
  }

  lemma BodiesExact(dag: Dag)
    requires Adjacent(dag) && forall c :: c in dag.loopBody <==> IsController(dag.nodes, c)
    requires forall c, v :: c in dag.loopBody ==>
      (v in dag.loopBody[c] <==> InBody(dag.forward, OutOf(dag.forward, c), c, v))
    ensures ExactBodies(dag)
  {
    forall c | c in dag.loopBody
      ensures dag.Out(c) == OutOf(dag.forward, c)
    {
      assert dag.Out(c) == dag.outEdges[c];
    }
  }

  lemma BodyKeys(nodes: seq<Node>, dag: Dag)
    requires DistinctIds(nodes) && dag.nodes == NodeMap(nodes)
    requires forall c :: c in dag.loopBody <==> exists n :: n in nodes && n.id == c && n.typeId == LOOP_CONTROLLER
    ensures forall c :: c in dag.loopBody <==> IsController(dag.nodes, c)
  {
    forall c
      ensures c in dag.loopBody <==> IsController(dag.nodes, c)
    {
      ControllerListed(nodes, dag.nodes, c);
    }
  }

  /** A node of the map is a controller exactly when a controller of that id is listed. */
  lemma ControllerListed(nodes: seq<Node>, all: map<NodeId, Node>, c: NodeId)
    requires DistinctIds(nodes) && all == NodeMap(nodes)
    ensures IsController(all, c) <==> exists n :: n in nodes && n.id == c && n.typeId == LOOP_CONTROLLER
  {
    if n :| n in nodes && n.id == c && n.typeId == LOOP_CONTROLLER {
      DistinctLookup(nodes, n);
    }
    if IsController(all, c) {
      assert all[c] in nodes && all[c].id == c;
    }
  }

  lemma RulesHold(nodes: seq<Node>, dag: Dag)
    requires CountControllers(nodes) <= 1 && dag.nodes == NodeMap(nodes)
    requires forall e :: e in dag.loopBack ==>
      e.branch == None && IsController(dag.nodes, e.target) && e.source in dag.nodes
    ensures LoopRules(dag)
  {
    forall c, d | c in dag.Controllers() && d in dag.Controllers()
      ensures c == d
    {
      SoleController(nodes, c, d);
    }
  }

  /** What the checks before the sort establish. */
  datatype Draft = Draft(all: map<NodeId, Node>, forward: seq<Edge>, back: seq<Edge>, adjacency: Adjacency)

  ghost predicate Drafted(nodes: seq<Node>, edges: seq<Edge>, d: Draft)
  {
    && d.all == NodeMap(nodes) && d.forward == Closures.Forward(edges) && d.back == Backward(edges)
    && EdgesOK(nodes, d.forward, d.back) && Describes(d.adjacency, d.all.Keys, d.forward)
  }

  /** The checks on edges and controllers, and the adjacency maps. */
  method CheckEdges(nodes: seq<Node>, edges: seq<Edge>) returns (r: Result<Draft>)
    ensures r.Ok? <==> EdgesOK(nodes, Closures.Forward(edges), Backward(edges))
    ensures r.Ok? ==> Drafted(nodes, edges, r.value)
  {
    var forward, back := Partition(edges);
    var error := ValidateLoopConstraints(nodes, back);
    if error != None {
      return Err(error.value);
    }
    var all, _ := IndexNodes(nodes);
    var a, ok := FillAdjacency(all, forward);
    if !ok {
      return Err(UNKNOWN_NODE);
    }
    var known := Known(all, back);
    if !known {
      return Err(UNKNOWN_NODE);
    }
    return Ok(Draft(all, forward, back, a));
  }

  /** Order, ancestors, bodies and the labels of the controllers. */
  method Complete(nodes: seq<Node>, ghost edges: seq<Edge>, d: Draft) returns (r: Result<Dag>)
    requires Drafted(nodes, edges, d)
    ensures r.Ok? <==> Acyclic(d.forward) && LabelsOK(nodes, d.forward)
    ensures r.Ok? ==> r.value.nodes == d.all && r.value.forward == d.forward && r.value.loopBack == d.back
    ensures r.Ok? && DistinctIds(nodes) ==> Built(r.value)
  {
    var a := d.adjacency;
    var ids := ListIds(d.all.Keys);
    var order := TopoSort.Sort(ids, a.successors, d.forward);
    if order.Err? {
      return Err(order.error);
    }
    assert forall n :: n in nodes ==> n.id in d.all;
    var ancestors := AllAncestors(d.all.Keys, a, d.forward);
    var bodies := AllBodies(nodes, a, d.all.Keys, d.forward);
    var error := ValidateControllers(nodes, a, d.all.Keys, d.forward);
    if error != None {
      return Err(error.value);
    }
    var dag := Dag(d.all, d.forward, a.successors, a.predecessors, a.outEdges, order.value, ancestors, d.back, bodies);
    Assembled(nodes, dag, a);
    return Ok(dag);
  }

  /** Builds the graph. It succeeds exactly on the acceptable workflows, and with distinct
      node ids the result has exact adjacency, order, ancestors and loop bodies. */
  method Build(nodes: seq<Node>, edges: seq<Edge>) returns (r: Result<Dag>)
    ensures r.Ok? <==> Acceptable(nodes, edges)
    ensures r.Ok? <==> WellFormed(nodes, edges)
    ensures r.Ok? ==> r.value.nodes == NodeMap(nodes)
    ensures r.Ok? ==> r.value.forward == Closures.Forward(edges) && r.value.loopBack == Backward(edges)
    ensures r.Ok? && DistinctIds(nodes) ==> Built(r.value)
  {
    AcceptsWellFormed(nodes, edges);
    var draft := CheckEdges(nodes, edges);
    if draft.Err? {
      return Err(draft.error);
    }
    r := Complete(nodes, edges, draft.value);
  }

  lemma {:induction false} ControllersCounted(nodes: seq<Node>)
    ensures CountControllers(nodes) <= 1 <==> AtMostOne(nodes)
    ensures CountControllers(nodes) == 0 <==> forall i :: 0 <= i < |nodes| ==> nodes[i].typeId != "loop.controller"
  {
    if nodes != [] {
      var front := nodes[..|nodes| - 1];
      ControllersCounted(front);
      assert forall i :: 0 <= i < |front| ==> front[i] == nodes[i];
    }
  }

  lemma {:induction false} LastListed(nodes: seq<Node>, v: NodeId) returns (i: nat)
    requires Listed(nodes, v)
    ensures i < |nodes| && nodes[i].id == v && LastOfId(nodes, i)
  {
    if nodes[|nodes| - 1].id == v {
      i := |nodes| - 1;
    } else {
      var front := nodes[..|nodes| - 1];
      var n :| n in nodes && n.id == v;
      assert n in front;
      i := LastListed(front, v);
      assert forall j :: i < j < |front| ==> front[j] == nodes[j];
    }
  }

  lemma ControllerIsLast(nodes: seq<Node>, v: NodeId)
    ensures IsController(NodeMap(nodes), v) <==> LeadsToController(nodes, v)
  {
    if Listed(nodes, v) {
      var i := LastListed(nodes, v);
      LastIsMapped(nodes, i);
      forall j | 0 <= j < |nodes| && nodes[j].id == v && LastOfId(nodes, j)
        ensures j == i
      {
        assert !(i < j) && !(j < i);
      }
    }
  }

  lemma AcceptsWellFormed(nodes: seq<Node>, edges: seq<Edge>)
    ensures Acceptable(nodes, edges) <==> WellFormed(nodes, edges)
  {
    ControllersCounted(nodes);
    EndsSpelledOut(nodes, edges);
    LabelsSpelledOut(nodes, edges);
  }

  lemma EndsSpelledOut(nodes: seq<Node>, edges: seq<Edge>)
    ensures EdgesOK(nodes, Closures.Forward(edges), Backward(edges)) <==>
      CountControllers(nodes) <= 1 && EndsListed(nodes, edges)
  {
    var all, forward, back := NodeMap(nodes), Closures.Forward(edges), Backward(edges);
    forall e | e in edges
      ensures e.source in all <==> Listed(nodes, e.source)
      ensures e.target in all <==> Listed(nodes, e.target)
      ensures IsController(all, e.target) <==> LeadsToController(nodes, e.target)
      ensures e in forward <==> !e.isLoopBack
      ensures e in back <==> e.isLoopBack
    {
      ControllerIsLast(nodes, e.target);
    }
  }

  lemma LabelsSpelledOut(nodes: seq<Node>, edges: seq<Edge>)
    ensures LabelsOK(nodes, Closures.Forward(edges)) <==> LabelledControllers(nodes, edges)
  {
    var forward := Closures.Forward(edges);
    forall n | n in nodes
      ensures HasLabel(forward, n.id, LOOP_BODY) <==>
        exists e :: e in edges && !e.isLoopBack && e.source == n.id && e.branch == Some("loop_body")
      ensures HasLabel(forward, n.id, EXIT) <==>
        exists e :: e in edges && !e.isLoopBack && e.source == n.id && e.branch == Some("exit")
    {
    }
  }

  lemma Assembled(nodes: seq<Node>, dag: Dag, a: Adjacency)
    requires dag.nodes == NodeMap(nodes) && CountControllers(nodes) <= 1
    requires Describes(a, dag.nodes.Keys, dag.forward)
    requires dag.successors == a.successors && dag.predecessors == a.predecessors && dag.outEdges == a.outEdges
    requires forall e :: e in dag.forward ==> e.source in dag.nodes && e.target in dag.nodes
    requires forall e :: e in dag.loopBack ==>
      e.branch == None && IsController(dag.nodes, e.target) && e.source in dag.nodes
    requires IsTopologicalOrder(dag.order, dag.nodes.Keys, dag.forward) && ExactAncestors(dag)
    requires forall c :: c in dag.loopBody <==> exists n :: n in nodes && n.id == c && n.typeId == LOOP_CONTROLLER
    requires forall c, v :: c in dag.loopBody ==>
      (v in dag.loopBody[c] <==> InBody(dag.forward, OutOf(dag.forward, c), c, v))
    ensures DistinctIds(nodes) ==> Built(dag)
  {
    if DistinctIds(nodes) {
      assert Adjacent(dag);
      BodyKeys(nodes, dag);
      BodiesExact(dag);
      RulesHold(nodes, dag);
    }
  }
}
