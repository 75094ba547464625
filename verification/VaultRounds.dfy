/** Whole workflows through the vault: the in-place loops, and what any number of masked
    rounds and other updates do to the stored tables. */
module VaultRounds {
  import opened Workflow
  import opened Crypto
  import opened Tables
  import opened ConfigVault

  /** The draws for the node at each index of a request. */
  type NodeDraws = nat -> Draws

  datatype Request = Request(header: Header, nodes: seq<StoredNode>, edges: seq<Edge>)

  function Existing(live: Live, id: NodeId): Option<StoredNode>
  {
    if id in live.nodes then Some(LoadNode(id, live.nodes[id])) else None
  }

  ghost predicate AllProtectable(v: Vault, draws: NodeDraws, live: Live, nodes: seq<StoredNode>)
  {
    forall i {:trigger nodes[i]} :: 0 <= i < |nodes| ==>
      v.Protectable(draws(i), Existing(live, nodes[i].id), true, nodes[i])
  }

  ghost function ProtectedAll(v: Vault, draws: NodeDraws, live: Live, req: Request): Definition
    requires AllProtectable(v, draws, live, req.nodes)
  {
    Definition(req.header,
      seq(|req.nodes|,
        i requires 0 <= i < |req.nodes| => v.Protected(draws(i), Existing(live, req.nodes[i].id), true, req.nodes[i])),
      req.edges)
  }

  /** An update that goes through, and the tables it leaves. */
  ghost predicate Updates(v: Vault, draws: NodeDraws, live: Live, req: Request, after: Live)
  {
    && AllProtectable(v, draws, live, req.nodes)
    && Writable(ProtectedAll(v, draws, live, req))
    && after == TableOf(v.b64, ProtectedAll(v, draws, live, req))
  }

  // ---- The tables stay healthy ----

  /** What the tables hold for a node can be read, and agrees with the registry. */
  ghost predicate Healthy(v: Vault, live: Live, id: NodeId)
  {
    id in live.nodes ==>
      var s := LoadNode(id, live.nodes[id]);
      IsStored(s) && v.Readable(s) && v.InStep(s)
  }

  ghost predicate AllHealthy(v: Vault, live: Live)
  {
    forall id {:trigger Healthy(v, live, id)} :: Healthy(v, live, id)
  }

  /** Whatever is sent for a node, what the vault makes of it is healthy once stored. */
  lemma RequestHealthy(v: Vault, draws: Draws, existing: Option<StoredNode>, updating: bool, n: StoredNode)
    requires v.Lawful() && v.IsRequest(n) && v.Protectable(draws, existing, updating, n)
    requires existing.Some? ==> IsStored(existing.value) && v.Readable(existing.value)
    ensures var p := v.Protected(draws, existing, updating, n);
      && p.Sealed() && p.id == n.id
      && var s := LoadNode(n.id, NodeRowOf(v.b64, p)); IsStored(s) && v.Readable(s) && v.InStep(s)
  {
    var p := v.Protected(draws, existing, updating, n);
    v.UpdateSeals(draws, existing, updating, n);
    LoadAfterInsert(v.b64, p);
    var s := Settled(v.b64, p);
    forall k | k in s.Config() && s.Marks(k)
      ensures v.cipher.DecryptText(s.Config()[k].bytes).Ok?
    {
      assert k in v.registry(n.typeId) && p.Marks(k);
    }
  }

  ghost predicate AllRequests(v: Vault, nodes: seq<StoredNode>)
  {
    forall i :: 0 <= i < |nodes| ==> v.IsRequest(nodes[i])
  }

  /** Whatever clients send, the stored tables stay healthy. */
  lemma UpdatesStayHealthy(v: Vault, draws: NodeDraws, live: Live, req: Request, after: Live)
    requires v.Lawful() && AllHealthy(v, live) && Updates(v, draws, live, req, after) && AllRequests(v, req.nodes)
    ensures AllHealthy(v, after)
  {
    var d := ProtectedAll(v, draws, live, req);
    NodeTableHolds(v.b64, d.nodes);
    forall id
      ensures Healthy(v, after, id)
    {
      if id in after.nodes {
        var i :| 0 <= i < |d.nodes| && d.nodes[i].id == id;
        assert Healthy(v, live, req.nodes[i].id);
        RequestHealthy(v, draws(i), Existing(live, req.nodes[i].id), true, req.nodes[i]);
      }
    }
  }

  /** What a create writes: every node is sealed, the mask included, and nothing was stored before. */
  ghost predicate AllCreatable(v: Vault, draws: NodeDraws, nodes: seq<StoredNode>)
  {
    forall i {:trigger nodes[i]} :: 0 <= i < |nodes| ==> v.Protectable(draws(i), None, false, nodes[i])
  }

  ghost function CreatedAll(v: Vault, draws: NodeDraws, req: Request): Definition
    requires AllCreatable(v, draws, req.nodes)
  {
    Definition(req.header,
      seq(|req.nodes|, i requires 0 <= i < |req.nodes| => v.Protected(draws(i), None, false, req.nodes[i])), req.edges)
  }

  ghost predicate Creates(v: Vault, draws: NodeDraws, req: Request, after: Live)
  {
    && AllCreatable(v, draws, req.nodes) && Writable(CreatedAll(v, draws, req))
    && after == TableOf(v.b64, CreatedAll(v, draws, req))
  }

  lemma CreatesHealthy(v: Vault, draws: NodeDraws, req: Request, after: Live)
    requires v.Lawful() && Creates(v, draws, req, after) && AllRequests(v, req.nodes)
    ensures AllHealthy(v, after)
  {
    var nodes := CreatedAll(v, draws, req).nodes;
    NodeTableHolds(v.b64, nodes);
    forall id
      ensures Healthy(v, after, id)
    {
      if id in after.nodes {
        var i :| 0 <= i < |nodes| && nodes[i].id == id;
        RequestHealthy(v, draws(i), None, false, req.nodes[i]);
      }
    }
  }

  // ---- Masked rounds ----

  /** What a client sends back that reads a workflow, in any order, and changes nothing. */
  ghost predicate IsEcho(v: Vault, live: Live, req: Request)
    requires AllHealthy(v, live)
  {
    && req.header == live.header && DistinctEdges(req.edges) && EdgeTable(req.edges) == live.edges
    && DistinctNodes(req.nodes)
    && (forall id :: id in live.nodes <==> exists i :: 0 <= i < |req.nodes| && req.nodes[i].id == id)
    && (forall i :: 0 <= i < |req.nodes| ==> EchoesAt(v, live, req.nodes[i]))
  }

  ghost predicate EchoesAt(v: Vault, live: Live, n: StoredNode)
    requires AllHealthy(v, live)
  {
    n.id in live.nodes && (assert Healthy(v, live, n.id); n == v.Incoming(LoadNode(n.id, live.nodes[n.id])))
  }

  lemma InsertAfterLoad(b64: Base64, id: NodeId, row: NodeRow)
    requires IsStored(LoadNode(id, row))
    ensures NodeRowOf(b64, LoadNode(id, row)) == row
  {
    assert NodeRowOf(b64, LoadNode(id, row)).configs == row.configs;
  }

  lemma EchoNode(v: Vault, draws: Draws, live: Live, n: StoredNode)
    requires v.Lawful() && AllHealthy(v, live) && EchoesAt(v, live, n)
    ensures v.Protectable(draws, Existing(live, n.id), true, n)
    ensures var p := v.Protected(draws, Existing(live, n.id), true, n);
      p.id == n.id && p.Sealed() && NodeRowOf(v.b64, p) == live.nodes[n.id]
  {
    assert Healthy(v, live, n.id);
    var s := LoadNode(n.id, live.nodes[n.id]);
    v.RoundKeepsRow(draws, s);
    LoadAfterInsert(v.b64, v.Protected(draws, Some(s), true, n));
    InsertAfterLoad(v.b64, n.id, live.nodes[n.id]);
  }

  /** With an unchanged registry, an echo always goes through, whatever the random source does,
      and leaves every table as it was. */
  lemma EchoChangesNothing(v: Vault, draws: NodeDraws, live: Live, req: Request)
    requires v.Lawful() && AllHealthy(v, live) && IsEcho(v, live, req)
    ensures Updates(v, draws, live, req, live)
  {
    forall i | 0 <= i < |req.nodes|
      ensures v.Protectable(draws(i), Existing(live, req.nodes[i].id), true, req.nodes[i])
    {
      EchoNode(v, draws(i), live, req.nodes[i]);
    }
    EchoTable(v, draws, live, req);
  }

  lemma EchoTable(v: Vault, draws: NodeDraws, live: Live, req: Request)
    requires v.Lawful() && AllHealthy(v, live) && IsEcho(v, live, req) && AllProtectable(v, draws, live, req.nodes)
    ensures var d := ProtectedAll(v, draws, live, req);
      DistinctNodes(d.nodes) && AllSealed(d.nodes) && NodeTable(v.b64, d.nodes) == live.nodes
  {
    var d := ProtectedAll(v, draws, live, req);
    forall i | 0 <= i < |d.nodes|
      ensures d.nodes[i].id == req.nodes[i].id && d.nodes[i].Sealed()
      ensures d.nodes[i].id in live.nodes && live.nodes[d.nodes[i].id] == NodeRowOf(v.b64, d.nodes[i])
    {
      EchoNode(v, draws(i), live, req.nodes[i]);
    }
    forall id | id in live.nodes
      ensures exists i :: 0 <= i < |d.nodes| && d.nodes[i].id == id
    {
      var i :| 0 <= i < |req.nodes| && req.nodes[i].id == id;
      assert d.nodes[i].id == id;
    }
    TableIsUnique(v.b64, d.nodes, live.nodes);
  }

  /** One round: some echo of `live`, updated with some draws, leaves `after`. */
  ghost predicate IsRound(v: Vault, live: Live, after: Live)
  {
    AllHealthy(v, live) && exists draws: NodeDraws, req :: IsEcho(v, live, req) && Updates(v, draws, live, req, after)
  }

  lemma RoundIsIdentity(v: Vault, live: Live, after: Live)
    requires v.Lawful() && IsRound(v, live, after)
    ensures after == live
  {
    var draws: NodeDraws, req :| IsEcho(v, live, req) && Updates(v, draws, live, req, after);
    EchoChangesNothing(v, draws, live, req);
  }

  ghost predicate RoundAt(v: Vault, lives: seq<Live>, i: nat)
    requires i + 1 < |lives|
  {
    IsRound(v, lives[i], lives[i + 1])
  }

  /** Any number of masked rounds leaves the stored tables, and so every secret, unchanged. */
  lemma {:induction false} RoundsChangeNothing(v: Vault, lives: seq<Live>, k: nat)
    requires v.Lawful() && k < |lives|
    requires forall i {:trigger RoundAt(v, lives, i)} :: 0 <= i < |lives| - 1 ==> RoundAt(v, lives, i)
    ensures lives[k] == lives[0]
  {
    if k > 0 {
      RoundsChangeNothing(v, lives, k - 1);
      assert RoundAt(v, lives, k - 1);
      RoundIsIdentity(v, lives[k - 1], lives[k]);
    }
  }
}
