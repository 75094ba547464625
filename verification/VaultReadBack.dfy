/** What is read back after a write: the nodes of a workflow that was created or updated, loaded from
    the tables and decrypted, are compared key by key with what the client sent. */
module VaultReadBack {
  import opened Workflow
  import opened Crypto
  import opened Tables
  import opened ConfigVault
  import opened VaultRounds

  // ---- One key of one node ----

  /** The client sent a text under a sensitive key. */
  predicate SentSecret(v: Vault, n: StoredNode, k: string)
  {
    k in n.Config() && k in v.registry(n.typeId) && n.Config()[k].Text?
  }

  /** An update was sent the mask under a sensitive key. */
  predicate SentMask(v: Vault, updating: bool, n: StoredNode, k: string)
  {
    updating && SentSecret(v, n, k) && n.Config()[k] == Text("***")
  }

  /** A ciphertext was stored under `k` before. */
  predicate HadSecret(existing: Option<StoredNode>, k: string)
  {
    existing.Some? && k in existing.value.Config() && existing.value.Config()[k].Bytes?
  }

  /** How `s`, what is stored for a node that was sent as `n`, stands at key `k`: a secret is stored
      as a ciphertext that decrypts to what was sent; the mask keeps the ciphertext that was stored,
      or leaves nothing if none was; every other value is stored as it was sent; and a key that
      was not sent is not there. */
  ghost predicate StoredAsSent(
    v: Vault, existing: Option<StoredNode>, updating: bool, n: StoredNode, s: StoredNode, k: string)
  {
    && (k in s.Config() <==> k in n.Config() && (SentMask(v, updating, n, k) ==> HadSecret(existing, k)))
    && (k in s.Config() ==> (s.Marks(k) <==> SentSecret(v, n, k)))
    && (k in s.Config() && SentMask(v, updating, n, k) ==> s.Config()[k] == existing.value.Config()[k])
    && (k in s.Config() && SentSecret(v, n, k) && !SentMask(v, updating, n, k) ==>
          s.Config()[k].Bytes? && v.cipher.DecryptText(s.Config()[k].bytes) == Ok(n.Config()[k].text))
    && (k in s.Config() && !SentSecret(v, n, k) ==> s.Config()[k] == n.Config()[k])
  }

  /** What a reader is shown under `k` once the node is decrypted: what was sent, or for the mask what was
      there before. */
  ghost predicate ShownAsSent(
    v: Vault, existing: Option<StoredNode>, updating: bool, n: StoredNode, shown: Data, k: string)
    requires existing.Some? ==> v.Readable(existing.value)
  {
    && (k in shown <==> k in n.Config() && (SentMask(v, updating, n, k) ==> HadSecret(existing, k)))
    && (k in shown ==>
          shown[k] == if SentMask(v, updating, n, k) then v.Opened(existing.value).Config()[k] else n.Config()[k])
  }

  lemma ProtectedAt(v: Vault, draws: Draws, existing: Option<StoredNode>, updating: bool, n: StoredNode, k: string)
    requires v.Lawful() && n.sensitive == map[] && v.Protectable(draws, existing, updating, n)
    ensures StoredAsSent(v, existing, updating, n, v.Protected(draws, existing, updating, n), k)
  {
    var fate := v.FateOf(draws, existing, updating, n, k);
    if k in n.Config() {
      assert !fate.Failed?;
      if SentSecret(v, n, k) && !SentMask(v, updating, n, k) {
        v.cipher.TextRoundTrip(draws(k), n.Config()[k].text);
      }
    }
  }

  /** Writing and reading back changes no value of a request. */
  lemma SettledAt(
    v: Vault, existing: Option<StoredNode>, updating: bool, n: StoredNode, p: StoredNode, k: string)
    requires v.IsRequest(n) && StoredAsSent(v, existing, updating, n, p, k)
    ensures StoredAsSent(v, existing, updating, n, Settled(v.b64, p), k)
  {
    var s := Settled(v.b64, p);
    assert k in s.Config() <==> k in p.Config();
    assert k in p.Config() ==> s.Marks(k) == p.Marks(k);
  }

  lemma ShownAt(v: Vault, existing: Option<StoredNode>, updating: bool, n: StoredNode, s: StoredNode, k: string)
    requires v.Readable(s) && s.config.Some? && StoredAsSent(v, existing, updating, n, s, k)
    requires existing.Some? ==> IsStored(existing.value) && v.Readable(existing.value)
    ensures ShownAsSent(v, existing, updating, n, v.Opened(s).Config(), k)
  {
    assert k in v.Opened(s).Config() <==> k in s.Config();
    if SentMask(v, updating, n, k) && HadSecret(existing, k) {
      assert existing.value.Marks(k);
      assert v.Opened(existing.value).Config()[k] == v.PlainValue(existing.value, k);
    }
  }

  // ---- One node ----

  /** The policy that is read back: "no retries, one second" is what a missing one is written as. */
  predicate RetryAsSent(sent: Option<Retry>, stored: Option<Retry>)
  {
    stored == if sent == Some(Retry(0, 1000)) then None else sent
  }

  ghost predicate NodeAsSent(v: Vault, existing: Option<StoredNode>, updating: bool, n: StoredNode, s: StoredNode)
  {
    && s.id == n.id && s.typeId == n.typeId && s.details.look == n.details.look
    && RetryAsSent(n.details.retry, s.details.retry)
    && forall k {:trigger StoredAsSent(v, existing, updating, n, s, k)} :: StoredAsSent(v, existing, updating, n, s, k)
  }

  lemma NodeReadsBack(v: Vault, draws: Draws, existing: Option<StoredNode>, updating: bool, n: StoredNode)
    requires v.Lawful() && v.IsRequest(n) && v.Protectable(draws, existing, updating, n)
    ensures var p := v.Protected(draws, existing, updating, n);
      p.Sealed() && p.id == n.id && NodeAsSent(v, existing, updating, n, LoadNode(n.id, NodeRowOf(v.b64, p)))
  {
    var p := v.Protected(draws, existing, updating, n);
    v.UpdateSeals(draws, existing, updating, n);
    LoadAfterInsert(v.b64, p);
    var s := Settled(v.b64, p);
    forall k
      ensures StoredAsSent(v, existing, updating, n, s, k)
    {
      ProtectedAt(v, draws, existing, updating, n, k);
      SettledAt(v, existing, updating, n, p, k);
    }
  }

  lemma NodeShows(v: Vault, existing: Option<StoredNode>, updating: bool, n: StoredNode, s: StoredNode)
    requires NodeAsSent(v, existing, updating, n, s) && v.Readable(s) && s.config.Some?
    requires existing.Some? ==> IsStored(existing.value) && v.Readable(existing.value)
    ensures forall k :: ShownAsSent(v, existing, updating, n, v.Opened(s).Config(), k)
  {
    forall k
      ensures ShownAsSent(v, existing, updating, n, v.Opened(s).Config(), k)
    {
      assert StoredAsSent(v, existing, updating, n, s, k);
      ShownAt(v, existing, updating, n, s, k);
    }
  }

  // ---- A whole workflow ----

  /** What is stored for the node sent as `n`, which before was `existing`. */
  ghost predicate HoldsNode(v: Vault, existing: Option<StoredNode>, updating: bool, after: Live, n: StoredNode)
  {
    && n.id in after.nodes
    && var s := LoadNode(n.id, after.nodes[n.id]);
      && NodeAsSent(v, existing, updating, n, s) && v.Readable(s)
      && (existing.Some? ==> v.Readable(existing.value))
      && forall k :: ShownAsSent(v, existing, updating, n, v.Opened(s).Config(), k)
  }

  /** The header and the edges are the ones sent, and there are no other nodes and edges. */
  ghost predicate HoldsRest(req: Request, after: Live)
  {
    && after.header == req.header
    && (forall id :: id in after.nodes <==> exists i :: 0 <= i < |req.nodes| && req.nodes[i].id == id)
    && (forall id :: id in after.edges <==> exists i :: 0 <= i < |req.edges| && req.edges[i].id == id)
    && (forall i :: 0 <= i < |req.edges| ==>
          req.edges[i].id in after.edges && after.edges[req.edges[i].id] == req.edges[i])
  }

  /** What is stored is what was sent; `live` is what was stored before, nothing for a create. */
  ghost predicate HoldsRequest(v: Vault, live: Option<Live>, req: Request, after: Live)
  {
    && HoldsRest(req, after)
    && forall i {:trigger req.nodes[i]} :: 0 <= i < |req.nodes| ==>
         var existing := if live.Some? then Existing(live.value, req.nodes[i].id) else None;
         HoldsNode(v, existing, live.Some?, after, req.nodes[i])
  }

  lemma TableHoldsRest(b64: Base64, d: Definition, req: Request)
    requires Writable(d) && d.header == req.header && d.edges == req.edges && |d.nodes| == |req.nodes|
    requires forall i :: 0 <= i < |d.nodes| ==> d.nodes[i].id == req.nodes[i].id
    ensures HoldsRest(req, TableOf(b64, d))
  {
    var after := TableOf(b64, d);
    NodeTableHolds(b64, d.nodes);
    EdgeTableHolds(d.edges);
    forall id
      ensures id in after.nodes <==> exists i :: 0 <= i < |req.nodes| && req.nodes[i].id == id
    {
      if id in after.nodes {
        var i :| 0 <= i < |d.nodes| && d.nodes[i].id == id;
        assert req.nodes[i].id == id;
      }
      if i :| 0 <= i < |req.nodes| && req.nodes[i].id == id {
        assert d.nodes[i].id in after.nodes;
      }
    }
  }

  lemma TableHoldsNode(
    v: Vault, draws: Draws, existing: Option<StoredNode>, updating: bool, d: Definition, i: nat, n: StoredNode)
    requires v.Lawful() && Writable(d) && i < |d.nodes| && v.IsRequest(n)
    requires v.Protectable(draws, existing, updating, n) && d.nodes[i] == v.Protected(draws, existing, updating, n)
    requires existing.Some? ==> IsStored(existing.value) && v.Readable(existing.value)
    ensures HoldsNode(v, existing, updating, TableOf(v.b64, d), n)
  {
    NodeTableHolds(v.b64, d.nodes);
    NodeReadsBack(v, draws, existing, updating, n);
    RequestHealthy(v, draws, existing, updating, n);
    NodeShows(v, existing, updating, n, LoadNode(n.id, NodeRowOf(v.b64, d.nodes[i])));
  }

  /** Reading back an update. Of every update that goes through on healthy tables, each node, loaded
      from the tables and decrypted, shows under every key exactly what the client sent, except that
      the mask under a sensitive key shows the secret that was there before, or nothing if there
      was none; the texts under sensitive keys, and nothing else, are stored as ciphertexts, those
      for the mask bit for bit as before; header, edges and the set of nodes are the ones sent. */
  lemma UpdateReadsBack(v: Vault, draws: NodeDraws, live: Live, req: Request, after: Live)
    requires v.Lawful() && AllHealthy(v, live) && Updates(v, draws, live, req, after) && AllRequests(v, req.nodes)
    ensures HoldsRequest(v, Some(live), req, after)
  {
    var d := ProtectedAll(v, draws, live, req);
    TableHoldsRest(v.b64, d, req);
    forall i | 0 <= i < |req.nodes|
      ensures HoldsNode(v, Existing(live, req.nodes[i].id), true, after, req.nodes[i])
    {
      assert Healthy(v, live, req.nodes[i].id);
      TableHoldsNode(v, draws(i), Existing(live, req.nodes[i].id), true, d, i, req.nodes[i]);
    }
  }

  /** Reading back a create: every value as it was sent, the mask included, and the texts under sensitive keys stored
      as ciphertexts. */
  lemma CreateReadsBack(v: Vault, draws: NodeDraws, req: Request, after: Live)
    requires v.Lawful() && Creates(v, draws, req, after) && AllRequests(v, req.nodes)
    ensures HoldsRequest(v, None, req, after)
  {
    var d := CreatedAll(v, draws, req);
    TableHoldsRest(v.b64, d, req);
    forall i | 0 <= i < |req.nodes|
      ensures HoldsNode(v, None, false, after, req.nodes[i])
    {
      TableHoldsNode(v, draws(i), None, false, d, i, req.nodes[i]);
    }
  }

  // ---- When a write goes through ----

  /** Everything that has to be encrypted gets a nonce. */
  ghost predicate NoncesFor(v: Vault, draws: NodeDraws, updating: bool, nodes: seq<StoredNode>)
  {
    forall i, k :: 0 <= i < |nodes| && SentSecret(v, nodes[i], k) && !SentMask(v, updating, nodes[i], k) ==>
      draws(i)(k).Some?
  }

  lemma NodeProtectable(v: Vault, draws: Draws, existing: Option<StoredNode>, updating: bool, n: StoredNode)
    ensures v.Protectable(draws, existing, updating, n) <==>
      forall k :: SentSecret(v, n, k) && !SentMask(v, updating, n, k) ==> draws(k).Some?
  {
    forall k | k in n.Config()
      ensures v.FateOf(draws, existing, updating, n, k).Failed? <==>
        SentSecret(v, n, k) && !SentMask(v, updating, n, k) && draws(k).None?
    {
    }
  }

  lemma AllNoncesProtect(v: Vault, draws: NodeDraws, live: Live, nodes: seq<StoredNode>)
    ensures AllProtectable(v, draws, live, nodes) <==> NoncesFor(v, draws, true, nodes)
  {
    forall i | 0 <= i < |nodes|
      ensures v.Protectable(draws(i), Existing(live, nodes[i].id), true, nodes[i]) <==>
        forall k :: SentSecret(v, nodes[i], k) && !SentMask(v, true, nodes[i], k) ==> draws(i)(k).Some?
    {
      NodeProtectable(v, draws(i), Existing(live, nodes[i].id), true, nodes[i]);
    }
  }

  lemma ProtectedWritable(v: Vault, draws: NodeDraws, live: Live, req: Request)
    requires v.Lawful() && AllRequests(v, req.nodes) && AllProtectable(v, draws, live, req.nodes)
    ensures Writable(ProtectedAll(v, draws, live, req)) <==> DistinctNodes(req.nodes) && DistinctEdges(req.edges)
  {
    var d := ProtectedAll(v, draws, live, req);
    forall i | 0 <= i < |req.nodes|
      ensures d.nodes[i].id == req.nodes[i].id && d.nodes[i].Sealed()
    {
      v.UpdateSeals(draws(i), Existing(live, req.nodes[i].id), true, req.nodes[i]);
    }
  }

  /** An update goes through exactly if no node id and no edge id repeats and the random source does
      not fail for a text under a sensitive key other than the mask. */
  lemma UpdateGoesThrough(v: Vault, draws: NodeDraws, live: Live, req: Request)
    requires v.Lawful() && AllRequests(v, req.nodes)
    ensures (exists after :: Updates(v, draws, live, req, after)) <==>
      DistinctNodes(req.nodes) && DistinctEdges(req.edges) && NoncesFor(v, draws, true, req.nodes)
  {
    AllNoncesProtect(v, draws, live, req.nodes);
    if AllProtectable(v, draws, live, req.nodes) {
      ProtectedWritable(v, draws, live, req);
      if Writable(ProtectedAll(v, draws, live, req)) {
        assert Updates(v, draws, live, req, TableOf(v.b64, ProtectedAll(v, draws, live, req)));
      }
    }
  }

  lemma CreatedWritable(v: Vault, draws: NodeDraws, req: Request)
    requires v.Lawful() && AllRequests(v, req.nodes) && AllCreatable(v, draws, req.nodes)
    ensures Writable(CreatedAll(v, draws, req)) <==> DistinctNodes(req.nodes) && DistinctEdges(req.edges)
  {
    var d := CreatedAll(v, draws, req);
    forall i | 0 <= i < |req.nodes|
      ensures d.nodes[i].id == req.nodes[i].id && d.nodes[i].Sealed()
    {
      v.UpdateSeals(draws(i), None, false, req.nodes[i]);
    }
  }

  /** A create goes through exactly if no node id and no edge id repeats and the random source does
      not fail for a text under a sensitive key, the mask included. */
  lemma CreateGoesThrough(v: Vault, draws: NodeDraws, req: Request)
    requires v.Lawful() && AllRequests(v, req.nodes)
    ensures (exists after :: Creates(v, draws, req, after)) <==>
      DistinctNodes(req.nodes) && DistinctEdges(req.edges) && NoncesFor(v, draws, false, req.nodes)
  {
    forall i | 0 <= i < |req.nodes|
      ensures v.Protectable(draws(i), None, false, req.nodes[i]) <==>
        forall k :: SentSecret(v, req.nodes[i], k) && !SentMask(v, false, req.nodes[i], k) ==> draws(i)(k).Some?
    {
      NodeProtectable(v, draws(i), None, false, req.nodes[i]);
    }
    assert AllCreatable(v, draws, req.nodes) <==> NoncesFor(v, draws, false, req.nodes);
    if AllCreatable(v, draws, req.nodes) {
      CreatedWritable(v, draws, req);
      if Writable(CreatedAll(v, draws, req)) {
        assert Creates(v, draws, req, TableOf(v.b64, CreatedAll(v, draws, req)));
      }
    }
  }
}
