/** Edge lists, the adjacency they induce, and how many edges run between given nodes. */
module Graph {
  import opened Workflow

  /** The edges leaving `u`, in list order. */
  function OutOf(edges: seq<Edge>, u: NodeId): (r: seq<Edge>)
    ensures forall e :: e in r <==> e in edges && e.source == u
  {
    if edges == [] then []
    else
      var last := edges[|edges| - 1];
      assert forall e :: e in edges <==> e in edges[..|edges| - 1] || e == last;
      OutOf(edges[..|edges| - 1], u) + (if last.source == u then [last] else [])
  }

  /** The source of every edge entering `v`, in list order and with repetitions. */
  function SourcesInto(edges: seq<Edge>, v: NodeId): seq<NodeId>
  {
    if edges == [] then []
    else
      var last := edges[|edges| - 1];
      SourcesInto(edges[..|edges| - 1], v) + (if last.target == v then [last.source] else [])
  }

  /** The target of every edge leaving `u`, in list order and with repetitions. */
  function TargetsFrom(edges: seq<Edge>, u: NodeId): seq<NodeId>
  {
    if edges == [] then []
    else
      var last := edges[|edges| - 1];
      TargetsFrom(edges[..|edges| - 1], u) + (if last.source == u then [last.target] else [])
  }

  /** How many edges run from a node of `from` to `v`; parallel edges count separately. */
  function CountFrom(edges: seq<Edge>, from: set<NodeId>, v: NodeId): nat
  {
    if edges == [] then 0
    else
      var last := edges[|edges| - 1];
      CountFrom(edges[..|edges| - 1], from, v) + (if last.source in from && last.target == v then 1 else 0)
  }

  /** How many of the nodes listed in `ids` belong to `from`. */
  function CountIn(ids: seq<NodeId>, from: set<NodeId>): nat
  {
    if ids == [] then 0
    else CountIn(ids[..|ids| - 1], from) + (if ids[|ids| - 1] in from then 1 else 0)
  }

  lemma {:induction false} CountZero(edges: seq<Edge>, from: set<NodeId>, v: NodeId)
    ensures CountFrom(edges, from, v) == 0 <==> forall e :: e in edges ==> !(e.source in from && e.target == v)
  {
    if edges != [] {
      var last := edges[|edges| - 1];
      CountZero(edges[..|edges| - 1], from, v);
      assert forall e :: e in edges <==> e in edges[..|edges| - 1] || e == last;
    }
  }

  lemma {:induction false} CountSplit(edges: seq<Edge>, from: set<NodeId>, u: NodeId, v: NodeId)
    requires u in from
    ensures CountFrom(edges, from, v) == CountFrom(edges, from - {u}, v) + CountFrom(edges, {u}, v)
  {
    if edges != [] {
      CountSplit(edges[..|edges| - 1], from, u, v);
    }
  }

  /** Only the sources that actually occur matter. */
  lemma {:induction false} CountSame(edges: seq<Edge>, a: set<NodeId>, b: set<NodeId>, v: NodeId)
    requires forall e :: e in edges && e.target == v ==> (e.source in a <==> e.source in b)
    ensures CountFrom(edges, a, v) == CountFrom(edges, b, v)
  {
    if edges != [] {
      var last := edges[|edges| - 1];
      assert last in edges;
      CountSame(edges[..|edges| - 1], a, b, v);
    }
  }

  lemma {:induction false} CountInSources(edges: seq<Edge>, from: set<NodeId>, v: NodeId)
    ensures CountIn(SourcesInto(edges, v), from) == CountFrom(edges, from, v)
  {
    if edges != [] {
      var last := edges[|edges| - 1];
      var front := SourcesInto(edges[..|edges| - 1], v);
      CountInSources(edges[..|edges| - 1], from, v);
      if last.target == v {
        assert (front + [last.source])[..|front|] == front;
      } else {
        assert front + [] == front;
      }
    }
  }

  lemma {:induction false} CountAll(edges: seq<Edge>, nodes: set<NodeId>, v: NodeId)
    requires forall e :: e in edges ==> e.source in nodes
    ensures |SourcesInto(edges, v)| == CountFrom(edges, nodes, v)
  {
    if edges != [] {
      assert edges[|edges| - 1] in edges;
      CountAll(edges[..|edges| - 1], nodes, v);
    }
  }

  lemma {:induction false} MembersInto(edges: seq<Edge>, v: NodeId)
    ensures forall u :: u in SourcesInto(edges, v) <==> exists e :: e in edges && e.source == u && e.target == v
  {
    if edges != [] {
      var last := edges[|edges| - 1];
      MembersInto(edges[..|edges| - 1], v);
      assert forall e :: e in edges <==> e in edges[..|edges| - 1] || e == last;
    }
  }

  lemma {:induction false} MembersFrom(edges: seq<Edge>, u: NodeId)
    ensures forall v :: v in TargetsFrom(edges, u) <==> exists e :: e in edges && e.source == u && e.target == v
  {
    if edges != [] {
      var last := edges[|edges| - 1];
      MembersFrom(edges[..|edges| - 1], u);
      assert forall e :: e in edges <==> e in edges[..|edges| - 1] || e == last;
    }
  }

  lemma {:induction false} NoTargets(edges: seq<Edge>, u: NodeId)
    ensures TargetsFrom(edges, u) == [] <==> forall e :: e in edges ==> e.source != u
  {
    if edges != [] {
      var last := edges[|edges| - 1];
      NoTargets(edges[..|edges| - 1], u);
      assert forall e :: e in edges <==> e in edges[..|edges| - 1] || e == last;
    }
  }

  /** What one more edge at the end adds to the adjacency of `v`. */
  lemma AppendEdge(edges: seq<Edge>, e: Edge, v: NodeId)
    ensures OutOf(edges + [e], v) == OutOf(edges, v) + (if e.source == v then [e] else [])
    ensures SourcesInto(edges + [e], v) == SourcesInto(edges, v) + (if e.target == v then [e.source] else [])
    ensures TargetsFrom(edges + [e], v) == TargetsFrom(edges, v) + (if e.source == v then [e.target] else [])
  {
    assert (edges + [e])[..|edges|] == edges;
  }
}
