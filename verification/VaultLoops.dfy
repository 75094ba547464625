/** The vault's loops, which change the nodes of a workflow in place. */
module VaultLoops {
  import opened Workflow
  import opened Crypto
  import opened Tables
  import opened ConfigVault
  import opened VaultRounds
  import opened VaultReadBack

  function Lookup(existing: map<NodeId, StoredNode>, id: NodeId): Option<StoredNode>
  {
    if id in existing then Some(existing[id]) else None
  }

  /** How far the loop is with key `k`: not looked at yet, or given its fate. */
  ghost predicate Progressed(fate: Fate, n: StoredNode, config: Data, sensitive: map<string, bool>, k: string)
  {
    && !fate.Failed?
    && (k in config <==> k in n.Config() && !fate.Dropped?)
    && (k in config ==> config[k] == if fate.SealedAs? then Bytes(fate.ciphertext) else n.Config()[k])
    && (k in sensitive <==> k in n.sensitive || fate.SealedAs?)
    && (k in sensitive ==> sensitive[k] == (fate.SealedAs? || n.sensitive[k]))
  }

  ghost function FateSoFar(
    v: Vault, draws: Draws, existing: Option<StoredNode>, updating: bool, n: StoredNode, todo: set<string>,
    k: string): Fate
  {
    if k in todo then Untouched else v.FateOf(draws, existing, updating, n, k)
  }

  lemma AllProgressed(
    v: Vault, draws: Draws, existing: Option<StoredNode>, updating: bool, n: StoredNode, config: Data,
    sensitive: map<string, bool>)
    requires n.config.Some?
    requires forall k {:trigger v.FateOf(draws, existing, updating, n, k)} ::
      Progressed(v.FateOf(draws, existing, updating, n, k), n, config, sensitive, k)
    ensures v.Protectable(draws, existing, updating, n)
    ensures n.(config := Some(config), sensitive := sensitive) == v.Protected(draws, existing, updating, n)
  {
    var p := v.Protected(draws, existing, updating, n);
    forall k
      ensures k in config <==> k in p.config.value
      ensures k in config ==> config[k] == p.config.value[k]
      ensures k in sensitive <==> k in p.sensitive
      ensures k in sensitive ==> sensitive[k] == p.sensitive[k]
    {
      assert Progressed(v.FateOf(draws, existing, updating, n, k), n, config, sensitive, k);
    }
    assert config == p.config.value && sensitive == p.sensitive;
  }

  /** The sealed node, key by key. */
  lemma ProtectedAsSent(v: Vault, draws: Draws, existing: Option<StoredNode>, updating: bool, n: StoredNode)
    requires v.Protectable(draws, existing, updating, n)
    ensures var p := v.Protected(draws, existing, updating, n);
      && p.id == n.id && p.typeId == n.typeId && p.details == n.details
      && (v.Lawful() && n.sensitive == map[] ==> forall k :: StoredAsSent(v, existing, updating, n, p, k))
  {
    if v.Lawful() && n.sensitive == map[] {
      forall k
        ensures StoredAsSent(v, existing, updating, n, v.Protected(draws, existing, updating, n), k)
      {
        ProtectedAt(v, draws, existing, updating, n, k);
      }
    }
  }

  /** Seals the secrets of one node key by key; fails exactly when the random source fails for a
      secret other than the mask of an update. Of a node from a request every secret becomes
      a ciphertext of itself, the mask the stored ciphertext or nothing, and no other value
      changes. */
  method ProtectNode(v: Vault, draws: Draws, existing: Option<StoredNode>, updating: bool, n: StoredNode)
    returns (r: Result<StoredNode>)
    ensures r.Ok? <==> v.Protectable(draws, existing, updating, n)
    ensures r.Ok? <==> forall k :: SentSecret(v, n, k) && !SentMask(v, updating, n, k) ==> draws(k).Some?
    ensures r.Ok? ==> r.value == v.Protected(draws, existing, updating, n)
    ensures r.Ok? ==> r.value.id == n.id && r.value.typeId == n.typeId && r.value.details == n.details
    ensures r.Ok? && v.Lawful() && n.sensitive == map[] ==>
      forall k :: StoredAsSent(v, existing, updating, n, r.value, k)
  {
    NodeProtectable(v, draws, existing, updating, n);
    if n.config == None {
      ProtectedAsSent(v, draws, existing, updating, n);
      return Ok(n);
    }
    var config, sensitive := n.config.value, n.sensitive;
    var todo := v.registry(n.typeId);
    while todo != {}
      invariant todo <= v.registry(n.typeId)
      invariant forall k {:trigger FateSoFar(v, draws, existing, updating, n, todo, k)} ::
        Progressed(FateSoFar(v, draws, existing, updating, n, todo, k), n, config, sensitive, k)
    {
      var k :| k in todo;
      ghost var before, config0, sensitive0 := todo, config, sensitive;
      assert Progressed(FateSoFar(v, draws, existing, updating, n, todo, k), n, config, sensitive, k);
      if k in config && config[k].Text? {
        var text := config[k].text;
        if updating && text == MASK {
          if existing.Some? && k in existing.value.Config() && existing.value.Config()[k].Bytes? {
            config, sensitive := config[k := existing.value.Config()[k]], sensitive[k := true];
          } else {
            config := config - {k};
          }
        } else {
          var sealed := v.cipher.EncryptText(draws(k), text);
          if sealed.Err? {
            assert v.FateOf(draws, existing, updating, n, k).Failed?;
            return Err(sealed.error);
          }
          config, sensitive := config[k := Bytes(sealed.value)], sensitive[k := true];
        }
      }
      todo := todo - {k};
      forall x
        ensures Progressed(FateSoFar(v, draws, existing, updating, n, todo, x), n, config, sensitive, x)
      {
        assert Progressed(FateSoFar(v, draws, existing, updating, n, before, x), n, config0, sensitive0, x);
      }
    }
    forall k
      ensures Progressed(v.FateOf(draws, existing, updating, n, k), n, config, sensitive, k)
    {
      assert Progressed(FateSoFar(v, draws, existing, updating, n, todo, k), n, config, sensitive, k);
    }
    AllProgressed(v, draws, existing, updating, n, config, sensitive);
    ProtectedAsSent(v, draws, existing, updating, n);
    return Ok(n.(config := Some(config), sensitive := sensitive));
  }

  /** Seals every node in place. On success each is what the vault makes of it; after a
      failure the caller abandons the save. */
  method EncryptNodes(
    v: Vault, draws: NodeDraws, existing: map<NodeId, StoredNode>, updating: bool, nodes: array<StoredNode>)
    returns (error: Option<string>)
    modifies nodes
    ensures error == None <==>
      forall i :: 0 <= i < nodes.Length ==>
        v.Protectable(draws(i), Lookup(existing, old(nodes[i]).id), updating, old(nodes[i]))
    ensures error == None ==> forall i :: 0 <= i < nodes.Length ==>
      nodes[i] == v.Protected(draws(i), Lookup(existing, old(nodes[i]).id), updating, old(nodes[i]))
  {
    for i := 0 to nodes.Length
      invariant forall j :: i <= j < nodes.Length ==> nodes[j] == old(nodes[j])
      invariant forall j :: 0 <= j < i ==>
        && v.Protectable(draws(j), Lookup(existing, old(nodes[j]).id), updating, old(nodes[j]))
        && nodes[j] == v.Protected(draws(j), Lookup(existing, old(nodes[j]).id), updating, old(nodes[j]))
    {
      var p := ProtectNode(v, draws(i), Lookup(existing, nodes[i].id), updating, nodes[i]);
      if p.Err? {
        return Some(p.error);
      }
      nodes[i] := p.value;
    }
    return None;
  }

  /** Decrypts one node key by key; fails exactly when some ciphertext does not decrypt. */
  method OpenNode(v: Vault, n: StoredNode) returns (r: Result<StoredNode>)
    ensures r.Ok? <==> v.Readable(n)
    ensures r.Ok? ==> r.value == v.Opened(n)
  {
    if n.config == None {
      return Ok(n);
    }
    var config := n.config.value;
    var todo := n.sensitive.Keys;
    while todo != {}
      invariant todo <= n.sensitive.Keys && config.Keys == n.Config().Keys
      invariant forall k :: k in config && (k in todo || !n.Marks(k) || !n.Config()[k].Bytes?) ==>
        config[k] == n.Config()[k]
      invariant forall k :: k in config && k !in todo && n.Marks(k) && n.Config()[k].Bytes? ==>
        var plain := v.cipher.DecryptText(n.Config()[k].bytes); plain.Ok? && config[k] == Text(plain.value)
    {
      var k :| k in todo;
      if n.Marks(k) && k in config && config[k].Bytes? {
        var plain := v.cipher.DecryptText(config[k].bytes);
        if plain.Err? {
          return Err(plain.error);
        }
        config := config[k := Text(plain.value)];
      }
      todo := todo - {k};
    }
    assert v.Readable(n) && config == v.Opened(n).config.value;
    return Ok(n.(config := Some(config)));
  }

  method DecryptNodes(v: Vault, nodes: array<StoredNode>) returns (error: Option<string>)
    modifies nodes
    ensures error == None <==> forall i :: 0 <= i < nodes.Length ==> v.Readable(old(nodes[i]))
    ensures error == None ==> forall i :: 0 <= i < nodes.Length ==> nodes[i] == v.Opened(old(nodes[i]))
  {
    for i := 0 to nodes.Length
      invariant forall j :: i <= j < nodes.Length ==> nodes[j] == old(nodes[j])
      invariant forall j :: 0 <= j < i ==> v.Readable(old(nodes[j])) && nodes[j] == v.Opened(old(nodes[j]))
    {
      var plain := OpenNode(v, nodes[i]);
      if plain.Err? {
        return Some(plain.error);
      }
      nodes[i] := plain.value;
    }
    return None;
  }

  method MaskNode(n: StoredNode) returns (m: StoredNode)
    ensures m == Masked(n)
  {
    if n.config == None {
      return n;
    }
    var config := n.config.value;
    var todo := n.sensitive.Keys;
    while todo != {}
      invariant todo <= n.sensitive.Keys && config.Keys == n.Config().Keys
      invariant forall k :: k in config ==> config[k] == if k !in todo && n.Marks(k) then Text(MASK) else n.Config()[k]
    {
      var k :| k in todo;
      if n.Marks(k) && k in config {
        config := config[k := Text(MASK)];
      }
      todo := todo - {k};
    }
    assert config == Masked(n).config.value;
    return n.(config := Some(config));
  }

  method MaskSensitiveConfig(nodes: array<StoredNode>)
    modifies nodes
    ensures forall i :: 0 <= i < nodes.Length ==> nodes[i] == Masked(old(nodes[i]))
  {
    for i := 0 to nodes.Length
      invariant forall j :: i <= j < nodes.Length ==> nodes[j] == old(nodes[j])
      invariant forall j :: 0 <= j < i ==> nodes[j] == Masked(old(nodes[j]))
    {
      nodes[i] := MaskNode(nodes[i]);
    }
  }

  method LoadExisting(live: Live) returns (existing: map<NodeId, StoredNode>)
    ensures forall id :: Lookup(existing, id) == Existing(live, id)
  {
    existing := map[];
    var todo := live.nodes.Keys;
    while todo != {}
      invariant todo <= live.nodes.Keys && existing.Keys == live.nodes.Keys - todo
      invariant forall id :: id in existing ==> existing[id] == LoadNode(id, live.nodes[id])
    {
      var id :| id in todo;
      existing := existing[id := LoadNode(id, live.nodes[id])];
      todo := todo - {id};
    }
  }

  /** Fails with not found for an unknown workflow; otherwise goes through exactly when nothing
      fails to encrypt and the tables accept the result, and changes that workflow only. What
      a request leaves in healthy tables is what it sent. */
  method UpdateWorkflow(
    v: Vault, draws: NodeDraws, tables: map<string, Live>, id: string, header: Header, nodes: array<StoredNode>,
    edges: seq<Edge>)
    returns (r: Result<map<string, Live>>)
    modifies nodes
    ensures id !in tables ==> r == Err(NOT_FOUND) && nodes[..] == old(nodes[..])
    ensures r.Ok? ==> id in tables && id in r.value && r.value == tables[id := r.value[id]]
    ensures r.Ok? ==> Updates(v, draws, tables[id], Request(header, old(nodes[..]), edges), r.value[id])
    ensures r.Err? && id in tables ==>
      forall after :: !Updates(v, draws, tables[id], Request(header, old(nodes[..]), edges), after)
    ensures v.Lawful() && AllRequests(v, old(nodes[..])) && id in tables ==>
      (r.Ok? <==> DistinctNodes(old(nodes[..])) && DistinctEdges(edges) && NoncesFor(v, draws, true, old(nodes[..])))
    ensures r.Ok? && v.Lawful() && AllRequests(v, old(nodes[..])) && AllHealthy(v, tables[id]) ==>
      HoldsRequest(v, Some(tables[id]), Request(header, old(nodes[..]), edges), r.value[id])
  {
    if id !in tables {
      return Err(NOT_FOUND);
    }
    ghost var req := Request(header, nodes[..], edges);
    if v.Lawful() && AllRequests(v, req.nodes) {
      UpdateGoesThrough(v, draws, tables[id], req);
    }
    var existing := LoadExisting(tables[id]);
    var error := EncryptNodes(v, draws, existing, true, nodes);
    if error.Some? {
      assert !AllProtectable(v, draws, tables[id], req.nodes);
      return Err(error.value);
    }
    assert AllProtectable(v, draws, tables[id], req.nodes);
    assert nodes[..] == ProtectedAll(v, draws, tables[id], req).nodes;
    var written := WriteDefinition(v.b64, Definition(header, nodes[..], edges));
    if written.Err? {
      return Err(written.error);
    }
    assert Updates(v, draws, tables[id], req, written.value);
    if v.Lawful() && AllRequests(v, req.nodes) && AllHealthy(v, tables[id]) {
      UpdateReadsBack(v, draws, tables[id], req, written.value);
    }
    return Ok(tables[id := written.value]);
  }
}
