/** The three-colour depth-first topological sort. */
module TopoSort {
  import opened Workflow
  import opened Graph
  import opened DagModel

  datatype Color = Grey | Black

  /** Consecutive nodes are joined by edges. */
  ghost predicate Chain(edges: seq<Edge>, p: seq<NodeId>)
  {
    forall i {:trigger Link(edges, p, i)} :: 0 <= i < |p| - 1 ==> Link(edges, p, i)
  }

  ghost predicate Link(edges: seq<Edge>, p: seq<NodeId>, i: nat)
    requires i + 1 < |p|
  {
    HasEdge(edges, p[i], p[i + 1])
  }

  lemma ChainGrows(edges: seq<Edge>, p: seq<NodeId>, v: NodeId)
    requires Chain(edges, p) && (p != [] ==> HasEdge(edges, p[|p| - 1], v))
    ensures Chain(edges, p + [v])
  {
    forall i | 0 <= i < |p|
      ensures Link(edges, p + [v], i)
    {
      assert i < |p| - 1 ==> Link(edges, p, i);
    }
  }

  lemma ChainShrinks(edges: seq<Edge>, p: seq<NodeId>)
    requires Chain(edges, p) && p != []
    ensures Chain(edges, p[..|p| - 1])
  {
    var q := p[..|p| - 1];
    forall i | 0 <= i < |q| - 1
      ensures Link(edges, q, i)
    {
      assert Link(edges, p, i);
    }
  }

  ghost predicate Distinct(p: seq<NodeId>)
  {
    forall i, j :: 0 <= i < j < |p| ==> p[i] != p[j]
  }

  /** Every edge leaving a listed node leads to a node listed before it. */
  ghost predicate PostOrder(edges: seq<Edge>, order: seq<NodeId>)
  {
    forall i {:trigger LeadsBack(edges, order, i)} :: 0 <= i < |order| ==> LeadsBack(edges, order, i)
  }

  ghost predicate LeadsBack(edges: seq<Edge>, order: seq<NodeId>, i: nat)
    requires i < |order|
  {
    forall e :: e in edges && e.source == order[i] ==> e.target in order[..i]
  }

  /** A grey node is met again: the grey path from it closes a cycle. */
  lemma ClosesCycle(edges: seq<Edge>, stack: seq<NodeId>, id: NodeId)
    requires Chain(edges, stack) && id in stack && HasEdge(edges, stack[|stack| - 1], id)
    ensures !Acyclic(edges)
  {
    var k :| 0 <= k < |stack| && stack[k] == id;
    var p := stack[k..] + [id];
    forall i | 0 <= i < |p| - 1
      ensures HasEdge(edges, p[i], p[i + 1])
    {
      if i + 1 < |stack| - k {
        assert Link(edges, stack, k + i);
      }
    }
    assert |p| >= 2 && PathBetween(edges, p, id, id);
    assert Reaches(edges, id, id);
  }

  lemma PostOrderGrows(edges: seq<Edge>, order: seq<NodeId>, id: NodeId)
    requires PostOrder(edges, order) && forall e :: e in edges && e.source == id ==> e.target in order
    ensures PostOrder(edges, order + [id])
  {
    var more := order + [id];
    forall i | 0 <= i < |more|
      ensures LeadsBack(edges, more, i)
    {
      if i < |order| {
        assert LeadsBack(edges, order, i);
        assert more[..i] == order[..i];
      } else {
        assert more[..i] == order;
      }
    }
  }

  /** Where a successor list leads: along edges, to nodes that have successor lists. */
  ghost predicate Leads(edges: seq<Edge>, successors: map<NodeId, seq<NodeId>>, id: NodeId)
    requires id in successors
  {
    && (forall j {:trigger successors[id][j]} :: 0 <= j < |successors[id]| ==>
          successors[id][j] in successors && HasEdge(edges, id, successors[id][j]))
    && (forall e :: e in edges && e.source == id ==> e.target in successors[id])
  }

  lemma ListLeads(edges: seq<Edge>, successors: map<NodeId, seq<NodeId>>, id: NodeId)
    requires id in successors && successors[id] == TargetsFrom(edges, id)
    requires forall e :: e in edges ==> e.source in successors && e.target in successors
    ensures Leads(edges, successors, id)
  {
    MembersFrom(edges, id);
    var next := successors[id];
    forall j | 0 <= j < |next|
      ensures next[j] in successors && HasEdge(edges, id, next[j])
    {
      assert next[j] in TargetsFrom(edges, id);
    }
  }

  predicate Listed(nodes: seq<NodeId>, order: seq<NodeId>)
  {
    forall j :: 0 <= j < |nodes| ==> nodes[j] in order
  }

  lemma ListedGrows(next: seq<NodeId>, i: nat, before: seq<NodeId>, order: seq<NodeId>)
    requires i < |next| && Listed(next[..i], before) && before <= order && next[i] in order
    ensures Listed(next[..i + 1], order)
  {
    forall j | 0 <= j < i
      ensures next[j] in order
    {
      assert next[..i][j] in before;
    }
  }

  lemma AllListed(edges: seq<Edge>, successors: map<NodeId, seq<NodeId>>, id: NodeId, order: seq<NodeId>)
    requires id in successors && Leads(edges, successors, id) && Listed(successors[id][..|successors[id]|], order)
    ensures forall e :: e in edges && e.source == id ==> e.target in order
  {
    var next := successors[id];
    assert next[..|next|] == next;
  }

  lemma FewerLeft(all: set<NodeId>, before: set<NodeId>, now: set<NodeId>, id: NodeId)
    requires id in all && id in now && before <= now
    ensures all - now < all - (before - {id})
  {
    assert id in all - (before - {id});
  }

  /** The state of one traversal: colours (white is absence), the finished nodes in
      order, and the grey path as ghost state. */
  class Traversal {
    const successors: map<NodeId, seq<NodeId>>
    ghost const edges: seq<Edge>
    var color: map<NodeId, Color>
    var order: seq<NodeId>
    ghost var stack: seq<NodeId>

    ghost predicate Adjacency()
    {
      forall v {:trigger Leads(edges, successors, v)} :: v in successors ==> Leads(edges, successors, v)
    }

    ghost predicate Colors()
      reads this
    {
      && (forall v :: v in color && color[v] == Grey <==> v in stack)
      && (forall v :: v in color && color[v] == Black <==> v in order)
      && color.Keys <= successors.Keys
    }

    ghost predicate Valid()
      reads this
    {
      Adjacency() && Colors() && Distinct(order) && Chain(edges, stack) && PostOrder(edges, order)
    }

    constructor (successors: map<NodeId, seq<NodeId>>, ghost edges: seq<Edge>)
      requires forall e :: e in edges ==> e.source in successors && e.target in successors
      requires forall v {:trigger successors[v]} :: v in successors ==> successors[v] == TargetsFrom(edges, v)
      ensures Valid() && this.successors == successors && this.edges == edges && color == map[] && order == []
      ensures stack == []
    {
      this.successors, this.edges := successors, edges;
      color, order, stack := map[], [], [];
      forall v | v in successors
        ensures Leads(edges, successors, v)
      {
        ListLeads(edges, successors, v);
      }
    }

    method Enter(id: NodeId)
      requires Valid() && id in successors && id !in color
      requires stack != [] ==> HasEdge(edges, stack[|stack| - 1], id)
      modifies this
      ensures Valid() && stack == old(stack) + [id] && order == old(order) && color == old(color)[id := Grey]
    {
      ChainGrows(edges, stack, id);
      color := color[id := Grey];
      stack := stack + [id];
      assert forall v :: v in stack <==> v in old(stack) || v == id;
    }

    method Finish(id: NodeId)
      requires Valid() && stack != [] && stack[|stack| - 1] == id && id !in stack[..|stack| - 1]
      requires forall e :: e in edges && e.source == id ==> e.target in order
      modifies this
      ensures Valid() && stack == old(stack)[..|old(stack)| - 1] && order == old(order) + [id]
      ensures color.Keys == old(color).Keys
    {
      assert id in stack;
      assert id !in order;
      PostOrderGrows(edges, order, id);
      ChainShrinks(edges, stack);
      color := color[id := Black];
      order := order + [id];
      stack := stack[..|stack| - 1];
      assert forall v :: v in old(stack) <==> v in stack || v == id;
    }

    /** Visits `id` from the end of the grey path; fails only when a grey node is met again. */
    method Visit(id: NodeId) returns (ok: bool)
      requires Valid() && id in successors
      requires stack != [] ==> HasEdge(edges, stack[|stack| - 1], id)
      modifies this
      ensures ok ==>
        Valid() && stack == old(stack) && id in order && old(order) <= order && old(color).Keys <= color.Keys
      ensures !ok ==> !Acyclic(edges)
      decreases successors.Keys - color.Keys, 1
    {
      if id in color {
        if color[id] == Grey {
          ClosesCycle(edges, stack, id);
          return false;
        }
        return true;
      }
      ghost var path, colored := stack, color.Keys;
      assert id !in stack;
      Enter(id);
      assert color.Keys - {id} == colored;
      ok := VisitSuccessors(id);
      if ok {
        Finish(id);
        assert stack == path;
      }
    }

    /** Visits every successor of the newest grey node. */
    method VisitSuccessors(id: NodeId) returns (ok: bool)
      requires Valid() && id in successors && id in color
      requires stack != [] && stack[|stack| - 1] == id
      modifies this
      ensures ok ==> Valid() && stack == old(stack) && old(order) <= order && old(color).Keys <= color.Keys
      ensures ok ==> forall e :: e in edges && e.source == id ==> e.target in order
      ensures !ok ==> !Acyclic(edges)
      decreases successors.Keys - (color.Keys - {id}), 0
    {
      var next := successors[id];
      assert Leads(edges, successors, id);
      ghost var started := color.Keys;
      for i := 0 to |next|
        invariant Valid() && stack == old(stack) && old(order) <= order && started <= color.Keys
        invariant Listed(next[..i], order)
      {
        FewerLeft(successors.Keys, started, color.Keys, id);
        ghost var before := order;
        var fine := Visit(next[i]);
        if !fine {
          return false;
        }
        ListedGrows(next, i, before, order);
      }
      AllListed(edges, successors, id, order);
      return true;
    }
  }

  // ---- The sort ----

  function Reversed(s: seq<NodeId>): (r: seq<NodeId>)
    ensures |r| == |s|
  {
    if s == [] then [] else Reversed(s[1..]) + [s[0]]
  }

  lemma {:induction false} ReversedAt(s: seq<NodeId>, k: nat)
    requires k < |s|
    ensures Reversed(s)[k] == s[|s| - 1 - k]
  {
    if k < |s| - 1 {
      ReversedAt(s[1..], k);
    }
  }

  /** Turns finishing order into source-first order by swapping from both ends. */
  method Reverse(s: seq<NodeId>) returns (r: seq<NodeId>)
    ensures r == Reversed(s)
  {
    r := s;
    var i, j := 0, |s| - 1;
    while i < j
      invariant 0 <= i <= j + 1 && j == |s| - 1 - i && |r| == |s|
      invariant forall k :: i <= k <= j ==> r[k] == s[k]
      invariant forall k :: 0 <= k < i ==> r[k] == s[|s| - 1 - k] && r[|s| - 1 - k] == s[k]
    {
      var first, last := r[i], r[j];
      r := r[i := last][j := first];
      i, j := i + 1, j - 1;
    }
    forall k | 0 <= k < |s|
      ensures r[k] == Reversed(s)[k]
    {
      ReversedAt(s, k);
      assert k > j ==> r[|s| - 1 - (|s| - 1 - k)] == s[|s| - 1 - k];
    }
  }

  lemma IndexReversed(order: seq<NodeId>, k: nat)
    requires Distinct(order) && k < |order|
    ensures IndexOf(Reversed(order), order[k]) == |order| - 1 - k
  {
    var r, i := Reversed(order), |order| - 1 - k;
    ReversedDistinct(order);
    ReversedAt(order, i);
    assert |order| - 1 - i == k && r[i] == order[k];
    IndexAt(r, i);
  }

  /** In a duplicate-free listing a node is found where it stands. */
  lemma IndexAt(s: seq<NodeId>, i: nat)
    requires Distinct(s) && i < |s|
    ensures IndexOf(s, s[i]) == i
  {
    var j := IndexOf(s, s[i]);
    assert s[i] in s && s[j] == s[i];
  }

  lemma ReversedMembers(order: seq<NodeId>, v: NodeId)
    ensures v in Reversed(order) <==> v in order
  {
    forall k | 0 <= k < |order|
      ensures Reversed(order)[k] == order[|order| - 1 - k] && order[k] == Reversed(order)[|order| - 1 - k]
    {
      ReversedAt(order, k);
      ReversedAt(order, |order| - 1 - k);
    }
  }

  lemma ReversedDistinct(order: seq<NodeId>)
    requires Distinct(order)
    ensures Distinct(Reversed(order))
  {
    forall i, j | 0 <= i < j < |order|
      ensures Reversed(order)[i] != Reversed(order)[j]
    {
      ReversedAt(order, i);
      ReversedAt(order, j);
    }
  }

  /** The reverse of a complete finishing order is a topological order. */
  lemma PostOrderSorts(order: seq<NodeId>, nodes: set<NodeId>, edges: seq<Edge>)
    requires Distinct(order) && PostOrder(edges, order) && (forall v :: v in order <==> v in nodes)
    requires forall e :: e in edges ==> e.source in nodes
    ensures IsTopologicalOrder(Reversed(order), nodes, edges)
  {
    ReversedDistinct(order);
    forall v
      ensures v in Reversed(order) <==> v in nodes
    {
      ReversedMembers(order, v);
    }
    forall e | e in edges
      ensures PointsLater(Reversed(order), e)
    {
      assert e.source in order;
      var i :| 0 <= i < |order| && order[i] == e.source;
      assert LeadsBack(edges, order, i);
      assert e.target in order[..i];
      var j :| 0 <= j < i && order[j] == e.target;
      IndexReversed(order, i);
      IndexReversed(order, j);
    }
  }

  /** A graph with a topological order has no cycle. */
  lemma SortedIsAcyclic(order: seq<NodeId>, nodes: set<NodeId>, edges: seq<Edge>)
    requires IsTopologicalOrder(order, nodes, edges)
    ensures Acyclic(edges)
  {
    forall v
      ensures !Reaches(edges, v, v)
    {
      forall p | |p| >= 2 && IsPath(edges, p)
        ensures !PathBetween(edges, p, v, v)
      {
        PathRises(order, nodes, edges, p, 0);
      }
    }
  }

  const CYCLE_DETECTED := "cycle detected"

  /** Sorts the nodes listed in `ids`; succeeds exactly when the graph has no cycle, and then
      returns a duplicate-free listing of the nodes in which every edge points later. */
  method Sort(ids: seq<NodeId>, successors: map<NodeId, seq<NodeId>>, ghost edges: seq<Edge>)
    returns (r: Result<seq<NodeId>>)
    requires forall v :: v in ids <==> v in successors
    requires forall e :: e in edges ==> e.source in successors && e.target in successors
    requires forall v {:trigger successors[v]} :: v in successors ==> successors[v] == TargetsFrom(edges, v)
    ensures r.Ok? <==> Acyclic(edges)
    ensures r.Ok? ==> IsTopologicalOrder(r.value, successors.Keys, edges)
    ensures r.Err? ==> r.error == CYCLE_DETECTED
  {
    var t := new Traversal(successors, edges);
    for i := 0 to |ids|
      invariant t.Valid() && t.stack == [] && t.successors == successors && t.edges == edges
      invariant forall j :: 0 <= j < i ==> ids[j] in t.order
    {
      if ids[i] !in t.color {
        var ok := t.Visit(ids[i]);
        if !ok {
          return Err(CYCLE_DETECTED);
        }
      }
    }
    var sorted := Reverse(t.order);
    forall v
      ensures v in t.order <==> v in successors.Keys
    {
      assert v in t.order ==> v in t.color;
    }
    PostOrderSorts(t.order, successors.Keys, edges);
    SortedIsAcyclic(sorted, successors.Keys, edges);
    return Ok(sorted);
  }
}
