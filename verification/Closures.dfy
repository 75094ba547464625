/** The graph closures: ancestors as the engine and the editor compute them, the body of
    a loop, and the editor's decision whether a new edge closes a loop. */
module Closures {
  import opened Workflow
  import opened Graph
  import opened DagModel

  // ---- Paths ----

  lemma EdgeReaches(edges: seq<Edge>, u: NodeId, v: NodeId)
    requires HasEdge(edges, u, v)
    ensures Reaches(edges, u, v)
  {
    var p := [u, v];
    assert |p| >= 2 && PathBetween(edges, p, u, v);
  }

  lemma ReachesPrepend(edges: seq<Edge>, u: NodeId, v: NodeId, w: NodeId)
    requires HasEdge(edges, u, v) && Reaches(edges, v, w)
    ensures Reaches(edges, u, w)
  {
    var p :| |p| >= 2 && PathBetween(edges, p, v, w);
    var q := [u] + p;
    forall i | 0 <= i < |q| - 1
      ensures HasEdge(edges, q[i], q[i + 1])
    {
      if i > 0 {
        assert HasEdge(edges, p[i - 1], p[i - 1 + 1]);
      }
    }
    assert |q| >= 2 && PathBetween(edges, q, u, w);
  }

  // ---- Ancestors ----

  /** Every edge into `v` comes from a node of `found`. */
  ghost predicate PredsIn(edges: seq<Edge>, found: set<NodeId>, v: NodeId)
  {
    forall e :: e in edges && e.target == v ==> e.source in found
  }

  lemma {:induction false} BackClosed(edges: seq<Edge>, found: set<NodeId>, start: NodeId, p: seq<NodeId>, i: nat)
    requires PredsIn(edges, found, start) && (forall v :: v in found ==> PredsIn(edges, found, v))
    requires IsPath(edges, p) && p[|p| - 1] == start && i < |p| - 1
    ensures p[i] in found
    decreases |p| - i
  {
    assert HasEdge(edges, p[i], p[i + 1]);
    var e :| e in edges && e.source == p[i] && e.target == p[i + 1];
    if i + 1 < |p| - 1 {
      BackClosed(edges, found, start, p, i + 1);
    }
    assert PredsIn(edges, found, p[i + 1]);
  }

  /** A set of nodes that reach `start`, closed under predecessors, is the whole ancestor set. */
  lemma ExactAncestorSet(edges: seq<Edge>, found: set<NodeId>, start: NodeId)
    requires PredsIn(edges, found, start) && (forall v :: v in found ==> PredsIn(edges, found, v))
    requires forall u :: u in found ==> Reaches(edges, u, start)
    ensures forall u :: u in found <==> Reaches(edges, u, start)
  {
    forall u | Reaches(edges, u, start)
      ensures u in found
    {
      var p :| |p| >= 2 && PathBetween(edges, p, u, start);
      BackClosed(edges, found, start, p, 0);
    }
  }

  /** Every node found beyond `base` has all its predecessors found. */
  ghost predicate ClosedSince(edges: seq<Edge>, found: set<NodeId>, base: set<NodeId>)
  {
    forall v :: v in found && v !in base ==> PredsIn(edges, found, v)
  }

  lemma ClosedFurther(edges: seq<Edge>, a: set<NodeId>, b: set<NodeId>, c: set<NodeId>)
    requires a <= b <= c && ClosedSince(edges, b, a) && ClosedSince(edges, c, b)
    ensures ClosedSince(edges, c, a)
  {
    forall v | v in c && v !in a
      ensures PredsIn(edges, c, v)
    {
      assert v in b ==> PredsIn(edges, b, v);
    }
  }

  /** The recursive walk up the predecessor lists. */
  class AncestorWalk {
    const predecessors: map<NodeId, seq<NodeId>>
    ghost const edges: seq<Edge>
    ghost const start: NodeId
    var visited: set<NodeId>

    ghost predicate Valid()
      reads this
    {
      && (forall e :: e in edges ==> e.source in predecessors && e.target in predecessors)
      && (forall v {:trigger predecessors[v]} :: v in predecessors ==> predecessors[v] == SourcesInto(edges, v))
      && visited <= predecessors.Keys
      && (forall u :: u in visited ==> Reaches(edges, u, start))
    }

    constructor (predecessors: map<NodeId, seq<NodeId>>, ghost edges: seq<Edge>, ghost start: NodeId)
      requires forall e :: e in edges ==> e.source in predecessors && e.target in predecessors
      requires forall v {:trigger predecessors[v]} :: v in predecessors ==> predecessors[v] == SourcesInto(edges, v)
      ensures Valid() && visited == {} && this.predecessors == predecessors && this.edges == edges
      ensures this.start == start
    {
      this.predecessors, this.edges, this.start := predecessors, edges, start;
      visited := {};
    }

    /** Visits everything above `id`: afterwards `id` and every newly visited node have all
        their predecessors visited. */
    method Walk(id: NodeId)
      requires Valid() && id in predecessors && (id == start || Reaches(edges, id, start))
      modifies this
      ensures Valid() && old(visited) <= visited && PredsIn(edges, visited, id)
      ensures ClosedSince(edges, visited, old(visited))
      decreases predecessors.Keys - visited, 1
    {
      var preds := predecessors[id];
      MembersInto(edges, id);
      for i := 0 to |preds|
        invariant Valid() && old(visited) <= visited && ClosedSince(edges, visited, old(visited))
        invariant forall j :: 0 <= j < i ==> preds[j] in visited
      {
        assert preds[i] in SourcesInto(edges, id);
        ghost var before := visited;
        Ascend(preds[i], id);
        ClosedFurther(edges, old(visited), before, visited);
      }
      forall e | e in edges && e.target == id
        ensures e.source in visited
      {
        assert e.source in preds;
      }
    }

    /** Visits the predecessor `pred` of `id` unless it was visited. */
    method Ascend(pred: NodeId, ghost id: NodeId)
      requires Valid() && pred in predecessors && HasEdge(edges, pred, id) && (id == start || Reaches(edges, id, start))
      modifies this
      ensures Valid() && old(visited) + {pred} <= visited && ClosedSince(edges, visited, old(visited))
      decreases predecessors.Keys - visited, 0
    {
      if pred !in visited {
        if id == start {
          EdgeReaches(edges, pred, id);
        } else {
          ReachesPrepend(edges, pred, id, start);
        }
        assert pred in predecessors.Keys - visited;
        visited := visited + {pred};
        Walk(pred);
      }
    }
  }

  /** All transitive predecessors of `id`, as the engine collects them. */
  method CollectAncestors(id: NodeId, predecessors: map<NodeId, seq<NodeId>>, ghost edges: seq<Edge>)
    returns (result: set<NodeId>)
    requires id in predecessors && forall e :: e in edges ==> e.source in predecessors && e.target in predecessors
    requires forall v {:trigger predecessors[v]} :: v in predecessors ==> predecessors[v] == SourcesInto(edges, v)
    ensures forall u :: u in result <==> Reaches(edges, u, id)
  {
    var walk := new AncestorWalk(predecessors, edges, id);
    walk.Walk(id);
    result := walk.visited;
    ExactAncestorSet(edges, result, id);
  }

  function Forward(edges: seq<Edge>): (r: seq<Edge>)
    ensures forall e :: e in r <==> e in edges && !e.isLoopBack
  {
    if edges == [] then []
    else
      var last := edges[|edges| - 1];
      assert forall e :: e in edges <==> e in edges[..|edges| - 1] || e == last;
      Forward(edges[..|edges| - 1]) + (if last.isLoopBack then [] else [last])
  }

  function Endpoints(edges: seq<Edge>): set<NodeId>
  {
    (set e | e in edges :: e.source) + (set e | e in edges :: e.target)
  }

  /** Every edge into a node already expanded comes from a known ancestor. */
  ghost predicate Expanded(edges: seq<Edge>, ancestors: set<NodeId>, queue: seq<NodeId>, v: NodeId)
  {
    v in queue || PredsIn(edges, ancestors, v)
  }

  /** All transitive predecessors of `id`, as the editor collects them: a queue over the
      forward edges. */
  method GetAncestors(id: NodeId, edges: seq<Edge>) returns (ancestors: set<NodeId>)
    ensures forall u :: u in ancestors <==> Reaches(Forward(edges), u, id)
  {
    var forward := Forward(edges);
    ancestors := {};
    var queue := [id];
    while queue != []
      invariant ancestors <= Endpoints(forward)
      invariant forall u :: u in ancestors ==> Reaches(forward, u, id)
      invariant forall q :: q in queue ==> q == id || q in ancestors
      invariant forall v :: v == id || v in ancestors ==> Expanded(forward, ancestors, queue, v)
      decreases Endpoints(forward) - ancestors, |queue|
    {
      var current := queue[0];
      ghost var before, pending := ancestors, queue;
      queue := queue[1..];
      assert forall v :: v in pending <==> v == current || v in queue;
      ancestors, queue := ExpandUp(forward, current, id, ancestors, queue);
    }
    assert forall v :: v == id || v in ancestors ==> PredsIn(forward, ancestors, v) by {
      forall v | v == id || v in ancestors
        ensures PredsIn(forward, ancestors, v)
      {
        assert Expanded(forward, ancestors, queue, v);
      }
    }
    ExactAncestorSet(forward, ancestors, id);
  }

  /** Adds the sources of the edges into `current` that are not known yet. */
  method ExpandUp(forward: seq<Edge>, current: NodeId, ghost id: NodeId, found: set<NodeId>, pending: seq<NodeId>)
    returns (ancestors: set<NodeId>, queue: seq<NodeId>)
    requires found <= Endpoints(forward) && (forall u :: u in found ==> Reaches(forward, u, id))
    requires current == id || current in found
    ensures found <= ancestors <= Endpoints(forward) && (forall u :: u in ancestors ==> Reaches(forward, u, id))
    ensures PredsIn(forward, ancestors, current)
    ensures forall q :: q in queue <==> q in pending || q in ancestors - found
    ensures ancestors == found ==> queue == pending
  {
    ancestors, queue := found, pending;
    for i := 0 to |forward|
      invariant found <= ancestors <= Endpoints(forward)
      invariant forall u :: u in ancestors ==> Reaches(forward, u, id)
      invariant forall j :: 0 <= j < i && forward[j].target == current ==> forward[j].source in ancestors
      invariant forall q :: q in queue <==> q in pending || q in ancestors - found
      invariant ancestors == found ==> queue == pending
    {
      var e := forward[i];
      if e.target == current && e.source !in ancestors {
        assert HasEdge(forward, e.source, current);
        if current == id {
          EdgeReaches(forward, e.source, current);
        } else {
          ReachesPrepend(forward, e.source, current, id);
        }
        ancestors := ancestors + {e.source};
        queue := queue + [e.source];
      }
    }
  }

  // ---- Loop bodies ----

  /** `v` may belong to the body: it is neither the controller nor an exit target. */
  predicate Inside(out: seq<Edge>, c: NodeId, v: NodeId)
  {
    v != c && v !in ExitTargets(out)
  }

  lemma BodyEntry(edges: seq<Edge>, out: seq<Edge>, c: NodeId, v: NodeId)
    requires EntersBody(out, v) && Inside(out, c, v)
    ensures InBody(edges, out, c, v)
  {
    assert IsBodyPath(edges, out, c, [v]) && [v][|[v]| - 1] == v;
  }

  lemma BodyExtends(edges: seq<Edge>, out: seq<Edge>, c: NodeId, u: NodeId, v: NodeId)
    requires InBody(edges, out, c, u) && HasEdge(edges, u, v) && Inside(out, c, v)
    ensures InBody(edges, out, c, v)
  {
    var p :| IsBodyPath(edges, out, c, p) && p[|p| - 1] == u;
    var q := p + [v];
    forall i | 0 <= i < |q| - 1
      ensures HasEdge(edges, q[i], q[i + 1])
    {
      if i + 1 < |p| {
        assert HasEdge(edges, p[i], p[i + 1]);
      }
    }
    assert IsBodyPath(edges, out, c, q) && q[|q| - 1] == v;
  }

  /** Every allowed successor of `v` is in the body or waits in the queue. */
  ghost predicate NextIn(edges: seq<Edge>, out: seq<Edge>, c: NodeId, body: set<NodeId>, queue: seq<NodeId>, v: NodeId)
  {
    forall e :: e in edges && e.source == v && Inside(out, c, e.target) ==> e.target in body || e.target in queue
  }

  lemma {:induction false} BodyComplete(
    edges: seq<Edge>, out: seq<Edge>, c: NodeId, body: set<NodeId>, p: seq<NodeId>, i: nat)
    requires IsBodyPath(edges, out, c, p) && i < |p|
    requires forall v :: EntersBody(out, v) && Inside(out, c, v) ==> v in body
    requires forall v :: v in body ==> NextIn(edges, out, c, body, [], v)
    ensures p[i] in body
  {
    assert p[i] in p && Inside(out, c, p[i]);
    if i > 0 {
      BodyComplete(edges, out, c, body, p, i - 1);
      assert HasEdge(edges, p[i - 1], p[i - 1 + 1]);
      var e :| e in edges && e.source == p[i - 1] && e.target == p[i];
      assert NextIn(edges, out, c, body, [], p[i - 1]);
    }
  }

  /** The targets of the loop_body edges, in order. */
  method BodyEntries(out: seq<Edge>) returns (queue: seq<NodeId>)
    ensures forall v :: v in queue <==> EntersBody(out, v)
  {
    queue := [];
    for i := 0 to |out|
      invariant forall v :: v in queue <==> EntersBody(out[..i], v)
    {
      assert forall e :: e in out[..i + 1] <==> e in out[..i] || e == out[i];
      if out[i].branch == Some(LOOP_BODY) {
        queue := queue + [out[i].target];
      }
    }
    assert out[..|out|] == out;
  }

  /** Appends the successors that are allowed and not in the body yet. */
  method EnqueueNext(next: seq<NodeId>, out: seq<Edge>, c: NodeId, body: set<NodeId>, queue: seq<NodeId>)
    returns (r: seq<NodeId>)
    ensures queue <= r
    ensures forall v :: v in r ==> v in queue || (v in next && Inside(out, c, v))
    ensures forall v :: v in next && Inside(out, c, v) ==> v in body || v in r
  {
    r := queue;
    for i := 0 to |next|
      invariant queue <= r
      invariant forall v :: v in r ==> v in queue || (v in next && Inside(out, c, v))
      invariant forall j :: 0 <= j < i && Inside(out, c, next[j]) ==> next[j] in body || next[j] in r
    {
      if next[i] !in body && Inside(out, c, next[i]) {
        r := r + [next[i]];
      }
    }
  }

  /** What the breadth-first search over the body keeps. */
  ghost predicate Searching(edges: seq<Edge>, out: seq<Edge>, c: NodeId, body: set<NodeId>, queue: seq<NodeId>)
  {
    && (forall v :: v in body ==> InBody(edges, out, c, v))
    && (forall q :: q in queue && Inside(out, c, q) ==> InBody(edges, out, c, q))
    && (forall v :: EntersBody(out, v) && Inside(out, c, v) ==> v in body || v in queue)
    && (forall v :: v in body ==> NextIn(edges, out, c, body, queue, v))
  }

  lemma DropsHead(edges: seq<Edge>, out: seq<Edge>, c: NodeId, body: set<NodeId>, queue: seq<NodeId>)
    requires Searching(edges, out, c, body, queue) && queue != [] && (queue[0] in body || !Inside(out, c, queue[0]))
    ensures Searching(edges, out, c, body, queue[1..])
  {
    assert forall v :: v in queue <==> v == queue[0] || v in queue[1..];
    forall v | v in body
      ensures NextIn(edges, out, c, body, queue[1..], v)
    {
      assert NextIn(edges, out, c, body, queue, v);
    }
  }

  lemma AddsHead(edges: seq<Edge>, out: seq<Edge>, c: NodeId, body: set<NodeId>, queue: seq<NodeId>, r: seq<NodeId>)
    requires Searching(edges, out, c, body, queue) && queue != [] && Inside(out, c, queue[0])
    requires queue[1..] <= r && NextIn(edges, out, c, body + {queue[0]}, r, queue[0])
    requires forall v :: v in r ==> v in queue[1..] || (HasEdge(edges, queue[0], v) && Inside(out, c, v))
    ensures Searching(edges, out, c, body + {queue[0]}, r)
  {
    assert forall v :: v in queue <==> v == queue[0] || v in queue[1..];
    assert forall v :: v in queue[1..] ==> v in r;
    assert InBody(edges, out, c, queue[0]);
    forall q | q in r && Inside(out, c, q)
      ensures InBody(edges, out, c, q)
    {
      if q !in queue[1..] {
        BodyExtends(edges, out, c, queue[0], q);
      }
    }
    forall v | v in body
      ensures NextIn(edges, out, c, body + {queue[0]}, r, v)
    {
      assert NextIn(edges, out, c, body, queue, v);
    }
  }

  /** The body of the loop controlled by `c`, whose out-edges are `out`. */
  method ComputeLoopBodyNodes(c: NodeId, out: seq<Edge>, successors: map<NodeId, seq<NodeId>>, ghost edges: seq<Edge>)
    returns (body: set<NodeId>)
    requires forall e :: e in edges ==> e.source in successors && e.target in successors
    requires forall v {:trigger successors[v]} :: v in successors ==> successors[v] == TargetsFrom(edges, v)
    requires forall e :: e in out ==> e.target in successors
    ensures forall v :: v in body <==> InBody(edges, out, c, v)
  {
    body := {};
    var queue := BodyEntries(out);
    forall q | q in queue && Inside(out, c, q) ensures InBody(edges, out, c, q) { BodyEntry(edges, out, c, q); }
    while queue != []
      invariant body <= successors.Keys && (forall q :: q in queue ==> q in successors)
      invariant Searching(edges, out, c, body, queue)
      decreases successors.Keys - body, |queue|
    {
      var current := queue[0];
      assert current in queue;
      if current in body || !Inside(out, c, current) {
        DropsHead(edges, out, c, body, queue);
        queue := queue[1..];
      } else {
        var next := successors[current];
        MembersFrom(edges, current);
        var more := EnqueueNext(next, out, c, body + {current}, queue[1..]);
        AddsHead(edges, out, c, body, queue, more);
        body, queue := body + {current}, more;
      }
    }
    forall v | InBody(edges, out, c, v)
      ensures v in body
    {
      var p :| IsBodyPath(edges, out, c, p) && p[|p| - 1] == v;
      BodyComplete(edges, out, c, body, p, |p| - 1);
    }
  }

  // ---- Connecting two nodes in the editor ----

  lemma {:induction false} NewEdgePath(edges: seq<Edge>, e: Edge, p: seq<NodeId>, i: nat)
    requires IsPath(edges + [e], p) && i < |p| - 1
    requires !Reaches(edges, p[i], p[|p| - 1])
    ensures (p[i] == e.source || Reaches(edges, p[i], e.source))
    ensures (e.target == p[|p| - 1] || Reaches(edges, e.target, p[|p| - 1]))
    decreases |p| - i
  {
    assert HasEdge(edges + [e], p[i], p[i + 1]);
    var d :| d in edges + [e] && d.source == p[i] && d.target == p[i + 1];
    if i + 1 == |p| - 1 {
      if d in edges {
        EdgeReaches(edges, p[i], p[i + 1]);
      }
    } else if d in edges {
      assert HasEdge(edges, p[i], p[i + 1]);
      if Reaches(edges, p[i + 1], p[|p| - 1]) {
        ReachesPrepend(edges, p[i], p[i + 1], p[|p| - 1]);
      }
      NewEdgePath(edges, e, p, i + 1);
      if p[i + 1] == e.source {
        EdgeReaches(edges, p[i], e.source);
      } else {
        ReachesPrepend(edges, p[i], p[i + 1], e.source);
      }
    } else if !Reaches(edges, p[i + 1], p[|p| - 1]) {
      NewEdgePath(edges, e, p, i + 1);
    }
  }

  lemma {:induction false} ReachesJoin(edges: seq<Edge>, p: seq<NodeId>, i: nat, w: NodeId)
    requires IsPath(edges, p) && i < |p| && Reaches(edges, p[|p| - 1], w)
    ensures Reaches(edges, p[i], w)
    decreases |p| - i
  {
    if i < |p| - 1 {
      ReachesJoin(edges, p, i + 1, w);
      assert HasEdge(edges, p[i], p[i + 1]);
      ReachesPrepend(edges, p[i], p[i + 1], w);
    }
  }

  lemma ReachesTrans(edges: seq<Edge>, u: NodeId, v: NodeId, w: NodeId)
    requires Reaches(edges, u, v) && Reaches(edges, v, w)
    ensures Reaches(edges, u, w)
  {
    var p :| |p| >= 2 && PathBetween(edges, p, u, v);
    ReachesJoin(edges, p, 0, w);
  }

  lemma ReachesMore(edges: seq<Edge>, e: Edge, u: NodeId, v: NodeId)
    requires Reaches(edges, u, v)
    ensures Reaches(edges + [e], u, v)
  {
    var p :| |p| >= 2 && PathBetween(edges, p, u, v);
    forall i | 0 <= i < |p| - 1
      ensures HasEdge(edges + [e], p[i], p[i + 1])
    {
      assert HasEdge(edges, p[i], p[i + 1]);
      var d :| d in edges && d.source == p[i] && d.target == p[i + 1];
      assert d in edges + [e];
    }
    assert PathBetween(edges + [e], p, u, v);
  }

  /** A new edge closes a cycle exactly when its target already leads to its source. */
  lemma AddEdgeAcyclic(edges: seq<Edge>, e: Edge)
    requires Acyclic(edges)
    ensures Acyclic(edges + [e]) <==> e.source != e.target && !Reaches(edges, e.target, e.source)
  {
    var more := edges + [e];
    assert e in more && HasEdge(more, e.source, e.target);
    if e.source == e.target {
      EdgeReaches(more, e.source, e.target);
    } else if Reaches(edges, e.target, e.source) {
      ReachesMore(edges, e, e.target, e.source);
      ReachesPrepend(more, e.source, e.target, e.source);
    } else {
      forall v
        ensures !Reaches(more, v, v)
      {
        if Reaches(more, v, v) {
          var p :| |p| >= 2 && PathBetween(more, p, v, v);
          NewEdgePath(edges, e, p, 0);
          if e.target != v && v != e.source {
            ReachesTrans(edges, e.target, v, e.source);
          }
        }
      }
    }
  }

  /** Every node the search has expanded has all its successors found. */
  ghost predicate ExpandedDown(edges: seq<Edge>, visited: set<NodeId>, queue: seq<NodeId>, v: NodeId)
  {
    v in queue || forall e :: e in edges && e.source == v ==> e.target in visited
  }

  lemma {:induction false} DownClosed(edges: seq<Edge>, visited: set<NodeId>, p: seq<NodeId>, i: nat)
    requires IsPath(edges, p) && p[0] in visited && i < |p|
    requires forall v :: v in visited ==> ExpandedDown(edges, visited, [], v)
    ensures p[i] in visited
  {
    if i > 0 {
      DownClosed(edges, visited, p, i - 1);
      assert HasEdge(edges, p[i - 1], p[i - 1 + 1]);
      assert ExpandedDown(edges, visited, [], p[i - 1]);
    }
  }

  lemma ReachesAppend(edges: seq<Edge>, u: NodeId, v: NodeId, w: NodeId)
    requires (u == v || Reaches(edges, u, v)) && HasEdge(edges, v, w)
    ensures Reaches(edges, u, w)
  {
    EdgeReaches(edges, v, w);
    if u != v {
      ReachesTrans(edges, u, v, w);
    }
  }

  /** Adds the targets of the edges out of `current` that are not known yet. */
  method ExpandDown(forward: seq<Edge>, current: NodeId, ghost start: NodeId, found: set<NodeId>, pending: seq<NodeId>)
    returns (visited: set<NodeId>, queue: seq<NodeId>)
    requires found <= Endpoints(forward) && (forall v :: v in found ==> v == start || Reaches(forward, start, v))
    requires current in found
    ensures found <= visited <= Endpoints(forward)
    ensures (forall v :: v in visited ==> v == start || Reaches(forward, start, v))
    ensures forall e :: e in forward && e.source == current ==> e.target in visited
    ensures forall q :: q in queue <==> q in pending || q in visited - found
    ensures visited == found ==> queue == pending
  {
    visited, queue := found, pending;
    for i := 0 to |forward|
      invariant found <= visited <= Endpoints(forward)
      invariant forall v :: v in visited ==> v == start || Reaches(forward, start, v)
      invariant forall j :: 0 <= j < i && forward[j].source == current ==> forward[j].target in visited
      invariant forall q :: q in queue <==> q in pending || q in visited - found
      invariant visited == found ==> queue == pending
    {
      var e := forward[i];
      if e.source == current && e.target !in visited {
        assert HasEdge(forward, current, e.target);
        ReachesAppend(forward, start, current, e.target);
        visited := visited + {e.target};
        queue := queue + [e.target];
      }
    }
  }

  /** The first loop_body target of `c` among the forward edges. */
  function BodyStart(forward: seq<Edge>, c: NodeId): (r: Option<NodeId>)
    ensures r.Some? ==> exists e :: e in forward && e.source == c && e.branch == Some(LOOP_BODY) && e.target == r.value
    ensures r.None? ==> forall e :: e in forward && e.source == c ==> e.branch != Some(LOOP_BODY)
  {
    if forward == [] then None
    else if forward[0].source == c && forward[0].branch == Some(LOOP_BODY) then Some(forward[0].target)
    else BodyStart(forward[1..], c)
  }

  /** Everything the first loop_body edge of `c` leads to. */
  method GetLoopBodyDescendants(c: NodeId, edges: seq<Edge>) returns (visited: set<NodeId>)
    ensures BodyStart(Forward(edges), c) == None ==> visited == {}
    ensures BodyStart(Forward(edges), c).Some? ==> var start := BodyStart(Forward(edges), c).value;
      forall v :: v in visited <==> v == start || Reaches(Forward(edges), start, v)
  {
    var forward := Forward(edges);
    if BodyStart(forward, c) == None {
      return {};
    }
    var start := BodyStart(forward, c).value;
    visited := {start};
    var queue := [start];
    while queue != []
      invariant start in visited && visited <= Endpoints(forward)
      invariant forall v :: v in visited ==> v == start || Reaches(forward, start, v)
      invariant forall q :: q in queue ==> q in visited
      invariant forall v :: v in visited ==> ExpandedDown(forward, visited, queue, v)
      decreases Endpoints(forward) - visited, |queue|
    {
      var current := queue[0];
      ghost var pending := queue;
      queue := queue[1..];
      assert forall v :: v in pending <==> v == current || v in queue;
      visited, queue := ExpandDown(forward, current, start, visited, queue);
    }
    forall v | Reaches(forward, start, v)
      ensures v in visited
    {
      var p :| |p| >= 2 && PathBetween(forward, p, start, v);
      DownClosed(forward, visited, p, |p| - 1);
    }
  }

  lemma ForwardAppend(edges: seq<Edge>, e: Edge)
    ensures Forward(edges + [e]) == Forward(edges) + (if e.isLoopBack then [] else [e])
  {
    assert (edges + [e])[..|edges|] == edges;
  }

  /** In an acyclic graph a controller is not below its own loop_body edge. */
  lemma NotBelowItself(forward: seq<Edge>, c: NodeId)
    requires Acyclic(forward) && BodyStart(forward, c).Some?
    ensures var start := BodyStart(forward, c).value; start != c && !Reaches(forward, start, c)
  {
    var start := BodyStart(forward, c).value;
    assert HasEdge(forward, c, start);
    EdgeReaches(forward, c, start);
    if Reaches(forward, start, c) {
      ReachesPrepend(forward, c, start, c);
    }
  }

  /** Whatever the loop_body edge of `c` leads to is reached from `c`. */
  lemma BelowMeansReached(forward: seq<Edge>, c: NodeId, v: NodeId)
    requires BodyStart(forward, c).Some?
    requires v == BodyStart(forward, c).value || Reaches(forward, BodyStart(forward, c).value, v)
    ensures Reaches(forward, c, v)
  {
    var start := BodyStart(forward, c).value;
    assert HasEdge(forward, c, start);
    EdgeReaches(forward, c, start);
    if v != start {
      ReachesPrepend(forward, c, start, v);
    }
  }

  /** Draws an edge in the editor. An edge into a loop controller is marked as loop-back
      when the controller already leads to its source, so that the forward graph stays
      acyclic exactly unless a controller is connected to itself. */
  method OnConnect(types: map<NodeId, string>, edges: seq<Edge>, id: string, source: NodeId, target: NodeId)
    returns (r: seq<Edge>)
    ensures |r| == |edges| + 1 && r[..|edges|] == edges && r[|edges|].source == source && r[|edges|].target == target
    ensures r[|edges|].isLoopBack <==>
      target in types && types[target] == "loop.controller" && Reaches(Forward(edges), target, source)
    ensures target in types && types[target] == LOOP_CONTROLLER && Acyclic(Forward(edges)) ==>
      (Acyclic(Forward(r)) <==> source != target)
  {
    var isController := target in types && types[target] == LOOP_CONTROLLER;
    var above := GetAncestors(source, edges);
    var below := GetLoopBodyDescendants(target, edges);
    var edge := Edge(id, source, target, None, isController && (target in above || source in below));
    r := edges + [edge];
    ForwardAppend(edges, edge);
    if source in below {
      BelowMeansReached(Forward(edges), target, source);
    }
    if isController && Acyclic(Forward(edges)) {
      AddEdgeAcyclic(Forward(edges), edge);
      if BodyStart(Forward(edges), target).Some? {
        NotBelowItself(Forward(edges), target);
      }
      if edge.isLoopBack {
        assert Forward(r) == Forward(edges);
        assert !Reaches(Forward(edges), source, source);
      }
    }
  }
}
