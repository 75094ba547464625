/** The node, edge and configuration tables: how a definition is written and read back. */
module Tables {
  import opened Workflow
  import opened Crypto

  const NOT_FOUND := "not found"

  datatype Retry = Retry(max: nat, backoffMs: nat)

  /** The back-off written for a node without a retry policy. */
  const DEFAULT_BACKOFF := 1000

  /** Label, position and output parsers travel together as `look`. */
  datatype Details = Details(look: nat, retry: Option<Retry>)

  /** A missing `config` is a nil map; `sensitive` is empty when nil. */
  datatype StoredNode = StoredNode(
    id: NodeId,
    typeId: string,
    details: Details,
    config: Option<Data>,
    sensitive: map<string, bool>)
  {
    predicate Marks(key: string)
    {
      key in sensitive && sensitive[key]
    }

    function Config(): Data
    {
      if config.Some? then config.value else map[]
    }

    /** Every value marked sensitive is a ciphertext. */
    predicate Sealed()
    {
      forall k :: k in Config() && Marks(k) ==> Config()[k].Bytes?
    }
  }

  datatype Header = Header(name: string, description: string, trigger: string, timeoutSeconds: int, schema: string)

  datatype Definition = Definition(header: Header, nodes: seq<StoredNode>, edges: seq<Edge>)

  datatype ConfigRow = PlainRow(json: Value) | EncryptedRow(ciphertext: seq<byte>)

  datatype NodeRow = NodeRow(typeId: string, look: nat, retryMax: nat, retryMs: nat, configs: map<string, ConfigRow>)

  datatype Live = Live(header: Header, nodes: map<NodeId, NodeRow>, edges: map<string, Edge>)

  /** A value after being written as JSON and read back: bytes become base64 text, whole
      numbers become floats. */
  function AsJson(b64: Base64, v: Value): (r: Value)
    ensures !r.Bytes? && !r.Int?
    ensures v.Bytes? ==> r == Text(b64.encode(v.bytes))
    ensures v.Int? ==> r == Float(v.number as real)
    ensures !v.Bytes? && !v.Int? ==> r == v
  {
    match v
    case Bytes(b) => Text(b64.encode(b))
    case Int(n) => Float(n as real)
    case _ => v
  }

  // ---- Writing ----

  function ConfigRowOf(b64: Base64, n: StoredNode, k: string): ConfigRow
    requires n.Sealed() && k in n.Config()
  {
    if n.Marks(k) then EncryptedRow(n.Config()[k].bytes) else PlainRow(AsJson(b64, n.Config()[k]))
  }

  /** A missing retry policy is written as no retries with the default back-off. */
  function RetryRow(retry: Option<Retry>): Retry
  {
    if retry.Some? then retry.value else Retry(0, DEFAULT_BACKOFF)
  }

  function NodeRowOf(b64: Base64, n: StoredNode): NodeRow
    requires n.Sealed()
  {
    var retry := RetryRow(n.details.retry);
    NodeRow(n.typeId, n.details.look, retry.max, retry.backoffMs, map k | k in n.Config() :: ConfigRowOf(b64, n, k))
  }

  predicate DistinctNodes(nodes: seq<StoredNode>)
  {
    forall i, j :: 0 <= i < j < |nodes| ==> nodes[i].id != nodes[j].id
  }

  predicate DistinctEdges(edges: seq<Edge>)
  {
    forall i, j :: 0 <= i < j < |edges| ==> edges[i].id != edges[j].id
  }

  predicate AllSealed(nodes: seq<StoredNode>)
  {
    forall i :: 0 <= i < |nodes| ==> nodes[i].Sealed()
  }

  /** What the tables accept: unique ids, and ciphertexts under every sensitive key. */
  predicate Writable(d: Definition)
  {
    DistinctNodes(d.nodes) && AllSealed(d.nodes) && DistinctEdges(d.edges)
  }

  function NodeTable(b64: Base64, nodes: seq<StoredNode>): map<NodeId, NodeRow>
    requires AllSealed(nodes)
  {
    if nodes == [] then map[]
    else NodeTable(b64, nodes[..|nodes| - 1])[nodes[|nodes| - 1].id := NodeRowOf(b64, nodes[|nodes| - 1])]
  }

  function EdgeTable(edges: seq<Edge>): map<string, Edge>
  {
    if edges == [] then map[] else EdgeTable(edges[..|edges| - 1])[edges[|edges| - 1].id := edges[|edges| - 1]]
  }

  /** What the tables hold for a definition. */
  function TableOf(b64: Base64, d: Definition): Live
    requires Writable(d)
  {
    Live(d.header, NodeTable(b64, d.nodes), EdgeTable(d.edges))
  }

  /** The node table holds one row for every node and nothing else. */
  lemma {:induction false} NodeTableHolds(b64: Base64, nodes: seq<StoredNode>)
    requires DistinctNodes(nodes) && AllSealed(nodes)
    ensures forall i :: 0 <= i < |nodes| ==>
      nodes[i].id in NodeTable(b64, nodes) && NodeTable(b64, nodes)[nodes[i].id] == NodeRowOf(b64, nodes[i])
    ensures forall id :: id in NodeTable(b64, nodes) ==> exists i :: 0 <= i < |nodes| && nodes[i].id == id
  {
    if nodes != [] {
      var front := nodes[..|nodes| - 1];
      NodeTableHolds(b64, front);
      forall i | 0 <= i < |front|
        ensures nodes[i].id in NodeTable(b64, nodes) && NodeTable(b64, nodes)[nodes[i].id] == NodeRowOf(b64, nodes[i])
      {
        assert front[i] == nodes[i];
      }
      forall id | id in NodeTable(b64, nodes)
        ensures exists i :: 0 <= i < |nodes| && nodes[i].id == id
      {
        if id in NodeTable(b64, front) {
          var i :| 0 <= i < |front| && front[i].id == id;
          assert nodes[i].id == id;
        }
      }
    }
  }

  lemma {:induction false} EdgeTableHolds(edges: seq<Edge>)
    requires DistinctEdges(edges)
    ensures forall i :: 0 <= i < |edges| ==>
      edges[i].id in EdgeTable(edges) && EdgeTable(edges)[edges[i].id] == edges[i]
    ensures forall id :: id in EdgeTable(edges) ==> exists i :: 0 <= i < |edges| && edges[i].id == id
  {
    if edges != [] {
      var front := edges[..|edges| - 1];
      EdgeTableHolds(front);
      forall i | 0 <= i < |front|
        ensures edges[i].id in EdgeTable(edges) && EdgeTable(edges)[edges[i].id] == edges[i]
      {
        assert front[i] == edges[i];
      }
      forall id | id in EdgeTable(edges)
        ensures exists i :: 0 <= i < |edges| && edges[i].id == id
      {
        if id in EdgeTable(front) {
          var i :| 0 <= i < |front| && front[i].id == id;
          assert edges[i].id == id;
        }
      }
    }
  }

  /** A table that agrees with every node and holds nothing else is the nodes' table. */
  lemma TableIsUnique(b64: Base64, nodes: seq<StoredNode>, rows: map<NodeId, NodeRow>)
    requires DistinctNodes(nodes) && AllSealed(nodes)
    requires forall i :: 0 <= i < |nodes| ==> nodes[i].id in rows && rows[nodes[i].id] == NodeRowOf(b64, nodes[i])
    requires forall id :: id in rows ==> exists i :: 0 <= i < |nodes| && nodes[i].id == id
    ensures NodeTable(b64, nodes) == rows
  {
    NodeTableHolds(b64, nodes);
    var table := NodeTable(b64, nodes);
    assert table.Keys == rows.Keys;
    forall id | id in rows
      ensures table[id] == rows[id]
    {
      var i :| 0 <= i < |nodes| && nodes[i].id == id;
    }
  }

  /** Nodes with the same ids and the same rows fill the same table. */
  lemma {:induction false} SameTable(b64: Base64, nodes: seq<StoredNode>, others: seq<StoredNode>)
    requires AllSealed(nodes) && AllSealed(others) && |nodes| == |others|
    requires forall i :: 0 <= i < |nodes| ==>
      nodes[i].id == others[i].id && NodeRowOf(b64, nodes[i]) == NodeRowOf(b64, others[i])
    ensures NodeTable(b64, nodes) == NodeTable(b64, others)
  {
    if nodes != [] {
      SameTable(b64, nodes[..|nodes| - 1], others[..|others| - 1]);
    }
  }

  method InsertConfigs(b64: Base64, n: StoredNode) returns (r: Result<map<string, ConfigRow>>)
    ensures r.Ok? <==> n.Sealed()
    ensures r.Ok? ==> r.value == NodeRowOf(b64, n).configs
  {
    var rows: map<string, ConfigRow> := map[];
    var todo := n.Config().Keys;
    while todo != {}
      invariant todo <= n.Config().Keys && rows.Keys == n.Config().Keys - todo
      invariant forall k :: k in rows ==> (n.Marks(k) ==> n.Config()[k].Bytes?)
      invariant forall k :: k in rows ==>
        rows[k] == if n.Marks(k) then EncryptedRow(n.Config()[k].bytes) else PlainRow(AsJson(b64, n.Config()[k]))
    {
      var k :| k in todo;
      var v := n.Config()[k];
      if n.Marks(k) {
        if !v.Bytes? {
          return Err("sensitive value is not bytes");
        }
        rows := rows[k := EncryptedRow(v.bytes)];
      } else {
        rows := rows[k := PlainRow(AsJson(b64, v))];
      }
      todo := todo - {k};
    }
    return Ok(rows);
  }

  lemma GrowNodes(b64: Base64, nodes: seq<StoredNode>, i: nat)
    requires i < |nodes| && DistinctNodes(nodes[..i]) && AllSealed(nodes[..i])
    ensures DistinctNodes(nodes[..i + 1]) <==> nodes[i].id !in NodeTable(b64, nodes[..i])
    ensures AllSealed(nodes[..i + 1]) <==> nodes[i].Sealed()
    ensures nodes[i].Sealed() ==>
      NodeTable(b64, nodes[..i + 1]) == NodeTable(b64, nodes[..i])[nodes[i].id := NodeRowOf(b64, nodes[i])]
    ensures DistinctNodes(nodes) ==> DistinctNodes(nodes[..i + 1])
    ensures AllSealed(nodes) ==> AllSealed(nodes[..i + 1])
  {
    var front, all := nodes[..i], nodes[..i + 1];
    NodeTableHolds(b64, front);
    assert all == front + [nodes[i]] && all[..i] == front;
    if nodes[i].id in NodeTable(b64, front) {
      var j :| 0 <= j < |front| && front[j].id == nodes[i].id;
      assert all[j].id == all[i].id;
    }
  }

  lemma GrowEdges(edges: seq<Edge>, i: nat)
    requires i < |edges| && DistinctEdges(edges[..i])
    ensures DistinctEdges(edges[..i + 1]) <==> edges[i].id !in EdgeTable(edges[..i])
    ensures EdgeTable(edges[..i + 1]) == EdgeTable(edges[..i])[edges[i].id := edges[i]]
    ensures DistinctEdges(edges) ==> DistinctEdges(edges[..i + 1])
  {
    var front, all := edges[..i], edges[..i + 1];
    EdgeTableHolds(front);
    assert all[..i] == front;
    assert forall j :: 0 <= j < i ==> all[j] == front[j];
    if edges[i].id in EdgeTable(front) {
      var j :| 0 <= j < |front| && front[j].id == edges[i].id;
      assert all[j].id == all[i].id;
    }
  }

  /** Fails exactly when an id repeats or a sensitive value is not a ciphertext. */
  method InsertNodes(b64: Base64, nodes: seq<StoredNode>) returns (r: Result<map<NodeId, NodeRow>>)
    ensures r.Ok? <==> DistinctNodes(nodes) && AllSealed(nodes)
    ensures r.Ok? ==> r.value == NodeTable(b64, nodes)
  {
    var rows: map<NodeId, NodeRow> := map[];
    for i := 0 to |nodes|
      invariant DistinctNodes(nodes[..i]) && AllSealed(nodes[..i]) && rows == NodeTable(b64, nodes[..i])
    {
      var n := nodes[i];
      GrowNodes(b64, nodes, i);
      if n.id in rows {
        return Err("duplicate node");
      }
      var configs := InsertConfigs(b64, n);
      if configs.Err? {
        return Err(configs.error);
      }
      var retry := Retry(0, DEFAULT_BACKOFF);
      if n.details.retry.Some? {
        retry := n.details.retry.value;
      }
      rows := rows[n.id := NodeRow(n.typeId, n.details.look, retry.max, retry.backoffMs, configs.value)];
    }
    assert nodes[..|nodes|] == nodes;
    return Ok(rows);
  }

  method InsertEdges(edges: seq<Edge>) returns (r: Result<map<string, Edge>>)
    ensures r.Ok? <==> DistinctEdges(edges)
    ensures r.Ok? ==> r.value == EdgeTable(edges)
  {
    var rows: map<string, Edge> := map[];
    for i := 0 to |edges|
      invariant DistinctEdges(edges[..i]) && rows == EdgeTable(edges[..i])
    {
      GrowEdges(edges, i);
      if edges[i].id in rows {
        return Err("duplicate edge");
      }
      rows := rows[edges[i].id := edges[i]];
    }
    assert edges[..|edges|] == edges;
    return Ok(rows);
  }

  /** Replaces everything stored for a workflow, or fails and writes nothing. */
  method WriteDefinition(b64: Base64, d: Definition) returns (r: Result<Live>)
    ensures r.Ok? <==> Writable(d)
    ensures r.Ok? ==> r.value == TableOf(b64, d)
  {
    var nodes := InsertNodes(b64, d.nodes);
    if nodes.Err? {
      return Err(nodes.error);
    }
    var edges := InsertEdges(d.edges);
    if edges.Err? {
      return Err(edges.error);
    }
    return Ok(Live(d.header, nodes.value, edges.value));
  }

  // ---- Reading ----

  function ValueOf(row: ConfigRow): Value
  {
    match row
    case PlainRow(v) => v
    case EncryptedRow(c) => Bytes(c)
  }

  /** No retries with the default back-off is read as a missing retry policy. */
  function LoadRetry(max: nat, backoffMs: nat): Option<Retry>
  {
    if max > 0 || backoffMs != DEFAULT_BACKOFF then Some(Retry(max, backoffMs)) else None
  }

  /** A retry policy after being written and read back: only "no retries, default back-off" is lost. */
  function SettledRetry(retry: Option<Retry>): (r: Option<Retry>)
    ensures r == LoadRetry(RetryRow(retry).max, RetryRow(retry).backoffMs) && RetryRow(r) == RetryRow(retry)
  {
    if retry == Some(Retry(0, DEFAULT_BACKOFF)) then None else retry
  }

  function LoadNode(id: NodeId, row: NodeRow): StoredNode
  {
    StoredNode(id, row.typeId, Details(row.look, LoadRetry(row.retryMax, row.retryMs)),
      Some(map k | k in row.configs :: ValueOf(row.configs[k])),
      map k | k in row.configs :: row.configs[k].EncryptedRow?)
  }

  /** What writing a node and reading it back comes to: ciphertexts are kept bit for bit, the
      other values are what JSON makes of them, and every key is marked one way or the other. */
  function Settled(b64: Base64, n: StoredNode): StoredNode
  {
    n.(details := n.details.(retry := SettledRetry(n.details.retry)),
       config := Some(map k | k in n.Config() :: if n.Marks(k) then n.Config()[k] else AsJson(b64, n.Config()[k])),
       sensitive := map k | k in n.Config() :: n.Marks(k))
  }

  lemma LoadAfterInsert(b64: Base64, n: StoredNode)
    requires n.Sealed()
    ensures LoadNode(n.id, NodeRowOf(b64, n)) == Settled(b64, n)
    ensures Settled(b64, n).Sealed() && NodeRowOf(b64, Settled(b64, n)) == NodeRowOf(b64, n)
  {
    var row, s := NodeRowOf(b64, n), Settled(b64, n);
    LoadedConfig(b64, n);
    assert NodeRowOf(b64, s).configs == row.configs by {
      forall k | k in n.Config()
        ensures ConfigRowOf(b64, s, k) == ConfigRowOf(b64, n, k)
      {
      }
    }
  }

  lemma LoadedConfig(b64: Base64, n: StoredNode)
    requires n.Sealed()
    ensures LoadNode(n.id, NodeRowOf(b64, n)).config == Settled(b64, n).config
    ensures LoadNode(n.id, NodeRowOf(b64, n)).sensitive == Settled(b64, n).sensitive
    ensures Settled(b64, n).Sealed() && forall k :: k in n.Config() ==> Settled(b64, n).Marks(k) == n.Marks(k)
  {
    var row, s := NodeRowOf(b64, n), Settled(b64, n);
    forall k | k in n.Config()
      ensures ValueOf(row.configs[k]) == s.Config()[k] && row.configs[k].EncryptedRow? == s.sensitive[k]
    {
    }
    assert LoadNode(n.id, row).config.value == s.config.value;
  }
}
