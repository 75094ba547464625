/** Version history: numbered snapshots of a workflow's definition, and restoring one. */
module Versions {
  import opened Workflow
  import opened Crypto
  import opened Tables

  type WorkflowId = string

  /** A node as it is kept in the JSON text of a version. */
  datatype SnapshotNode = SnapshotNode(
    id: NodeId,
    typeId: string,
    details: Details,
    config: Option<Data>,
    sensitive: map<string, bool>)
  {
    predicate Marks(key: string)
    {
      key in sensitive && sensitive[key]
    }

    function Config(): Data
    {
      if config.Some? then config.value else map[]
    }
  }

  datatype Snapshot = Snapshot(header: Header, nodes: seq<SnapshotNode>, edges: seq<Edge>)

  // ---- One node ----

  /** Taking a snapshot and writing it as JSON; an empty configuration is omitted. */
  function Capture(b64: Base64, n: StoredNode): SnapshotNode
  {
    SnapshotNode(n.id, n.typeId, n.details,
      if n.Config() == map[] then None else Some(map k | k in n.Config() :: AsJson(b64, n.Config()[k])),
      n.sensitive)
  }

  predicate Decodes(b64: Base64, v: Value)
  {
    v.Text? && b64.decode(v.text).Some?
  }

  predicate Revivable(b64: Base64, sn: SnapshotNode)
  {
    forall k :: k in sn.Config() && sn.Marks(k) ==> Decodes(b64, sn.Config()[k])
  }

  function Revive(b64: Base64, sn: SnapshotNode): StoredNode
    requires Revivable(b64, sn)
  {
    StoredNode(sn.id, sn.typeId, sn.details,
      Some(map k | k in sn.Config() ::
        if sn.Marks(k) then Bytes(b64.decode(sn.Config()[k].text).value) else sn.Config()[k]),
      sn.sensitive)
  }

  /** A node with its ciphertexts and with what JSON makes of its other values. */
  function Kept(b64: Base64, n: StoredNode): StoredNode
  {
    n.(config := Some(map k | k in n.Config() :: if n.Marks(k) then n.Config()[k] else AsJson(b64, n.Config()[k])))
  }

  /** Reviving a captured node gives the node back, ciphertexts bit for bit, if and only if
      everything marked sensitive was a ciphertext. */
  lemma ReviveCapture(b64: Base64, n: StoredNode)
    requires b64.Lawful()
    ensures n.Sealed() <==> Revivable(b64, Capture(b64, n)) && Revive(b64, Capture(b64, n)) == Kept(b64, n)
    ensures n.Sealed() ==>
      && Capture(b64, Kept(b64, n)) == Capture(b64, n) && Kept(b64, n).Sealed()
      && NodeRowOf(b64, Kept(b64, n)) == NodeRowOf(b64, n)
  {
    var sn, kept := Capture(b64, n), Kept(b64, n);
    assert sn.Config() == map k | k in n.Config() :: AsJson(b64, n.Config()[k]);
    if n.Sealed() {
      assert Revive(b64, sn).config.value == kept.config.value;
      assert forall k :: k in n.Config() ==> AsJson(b64, kept.Config()[k]) == AsJson(b64, n.Config()[k]);
      assert Capture(b64, kept).Config() == sn.Config();
      assert NodeRowOf(b64, kept).configs == NodeRowOf(b64, n).configs;
    } else if Revivable(b64, sn) {
      var k :| k in n.Config() && n.Marks(k) && !n.Config()[k].Bytes?;
      assert Revive(b64, sn).Config()[k].Bytes?;
    }
  }

  // ---- A definition ----

  function CaptureAll(b64: Base64, d: Definition): Snapshot
  {
    Snapshot(d.header, seq(|d.nodes|, i requires 0 <= i < |d.nodes| => Capture(b64, d.nodes[i])), d.edges)
  }

  predicate AllRevivable(b64: Base64, nodes: seq<SnapshotNode>)
  {
    forall i :: 0 <= i < |nodes| ==> Revivable(b64, nodes[i])
  }

  function ReviveAll(b64: Base64, s: Snapshot): Definition
    requires AllRevivable(b64, s.nodes)
  {
    Definition(s.header, seq(|s.nodes|, i requires 0 <= i < |s.nodes| => Revive(b64, s.nodes[i])), s.edges)
  }

  /** A definition the tables accept comes back from its snapshot: it is accepted again, fills
      the tables with the same rows, and its own snapshot is the same snapshot. */
  lemma ReviveCaptureAll(b64: Base64, d: Definition)
    requires b64.Lawful() && Writable(d)
    ensures AllRevivable(b64, CaptureAll(b64, d).nodes)
    ensures var e := ReviveAll(b64, CaptureAll(b64, d));
      && Writable(e) && TableOf(b64, e) == TableOf(b64, d) && CaptureAll(b64, e) == CaptureAll(b64, d)
      && |e.nodes| == |d.nodes| && (forall i :: 0 <= i < |d.nodes| ==> e.nodes[i] == Kept(b64, d.nodes[i]))
  {
    var s := CaptureAll(b64, d);
    forall i | 0 <= i < |d.nodes|
      ensures Returns(b64, d.nodes[i])
    {
      ReviveCapture(b64, d.nodes[i]);
    }
    assert forall i :: 0 <= i < |d.nodes| ==> s.nodes[i] == Capture(b64, d.nodes[i]) && Returns(b64, d.nodes[i]);
    var e := ReviveAll(b64, s);
    assert forall i :: 0 <= i < |d.nodes| ==> e.nodes[i] == Kept(b64, d.nodes[i]) && Returns(b64, d.nodes[i]);
    assert CaptureAll(b64, e).nodes == s.nodes;
    SameTable(b64, e.nodes, d.nodes);
  }

  /** What a captured node keeps when it is revived. */
  predicate Returns(b64: Base64, n: StoredNode)
  {
    && n.Sealed() && Revivable(b64, Capture(b64, n)) && Revive(b64, Capture(b64, n)) == Kept(b64, n)
    && Capture(b64, Kept(b64, n)) == Capture(b64, n) && Kept(b64, n).Sealed()
    && NodeRowOf(b64, Kept(b64, n)) == NodeRowOf(b64, n)
  }

  // ---- The store ----

  datatype VersionKey = VersionKey(workflow: WorkflowId, number: nat)

  datatype Db = Db(live: map<WorkflowId, Live>, versions: map<VersionKey, Snapshot>)

  ghost function Numbers(versions: map<VersionKey, Snapshot>, id: WorkflowId): set<nat>
  {
    set key | key in versions && key.workflow == id :: key.number
  }

  ghost function MaxOf(s: set<nat>): (m: nat)
    ensures s != {} ==> m in s
    ensures s == {} ==> m == 0
    ensures forall x :: x in s ==> x <= m
  {
    if s == {} then 0
    else
      var x :| x in s;
      var m := MaxOf(s - {x});
      assert forall y :: y in s ==> y == x || y in s - {x};
      if m > x then m else x
  }

  /** The number the next version gets: one more than the largest in use, 1 when there is none. */
  ghost function NextNumber(versions: map<VersionKey, Snapshot>, id: WorkflowId): nat
  {
    MaxOf(Numbers(versions, id)) + 1
  }

  /** Each operation is one transaction. `Write` is a create or an update of the live tables. */
  datatype Op =
    | Write(id: WorkflowId, definition: Definition)
    | Record(id: WorkflowId, definition: Definition)
    | Restore(id: WorkflowId, number: nat)
    | Purge(id: WorkflowId)

  /** When a restore goes through: the version exists, it can be revived into something the
      tables accept, and the workflow still exists. */
  ghost predicate CanRestore(b64: Base64, db: Db, id: WorkflowId, number: nat)
  {
    && VersionKey(id, number) in db.versions && id in db.live
    && AllRevivable(b64, db.versions[VersionKey(id, number)].nodes)
    && Writable(ReviveAll(b64, db.versions[VersionKey(id, number)]))
  }

  ghost function Append(b64: Base64, db: Db, id: WorkflowId, d: Definition): Db
  {
    db.(versions := db.versions[VersionKey(id, NextNumber(db.versions, id)) := CaptureAll(b64, d)])
  }

  /** The store after a transaction; one that fails is rolled back. */
  ghost function Perform(b64: Base64, db: Db, op: Op): Db
  {
    match op
    case Write(id, d) => if Writable(d) then db.(live := db.live[id := TableOf(b64, d)]) else db
    case Record(id, d) => Append(b64, db, id, d)
    case Restore(id, number) =>
      if CanRestore(b64, db, id, number) then
        var d := ReviveAll(b64, db.versions[VersionKey(id, number)]);
        Append(b64, db.(live := db.live[id := TableOf(b64, d)]), id, d)
      else db
    case Purge(id) => db.(versions := map key | key in db.versions && key.workflow != id :: db.versions[key])
  }

  ghost function PerformAll(b64: Base64, db: Db, ops: seq<Op>): Db
  {
    if ops == [] then db else Perform(b64, PerformAll(b64, db, ops[..|ops| - 1]), ops[|ops| - 1])
  }

  // ---- Numbers ----

  ghost predicate NumberedTo(versions: map<VersionKey, Snapshot>, id: WorkflowId, n: nat)
  {
    forall k: nat :: VersionKey(id, k) in versions <==> 1 <= k <= n
  }

  lemma NextAfter(versions: map<VersionKey, Snapshot>, id: WorkflowId, n: nat)
    requires NumberedTo(versions, id, n)
    ensures NextNumber(versions, id) == n + 1
  {
    assert forall k :: k in Numbers(versions, id) <==> VersionKey(id, k) in versions;
    if n > 0 {
      assert VersionKey(id, n) in versions;
    }
  }

  lemma AppendNumbered(b64: Base64, db: Db, other: WorkflowId, d: Definition, id: WorkflowId, n: nat)
    requires NumberedTo(db.versions, id, n)
    ensures NumberedTo(Append(b64, db, other, d).versions, id, if other == id then n + 1 else n)
  {
    NextAfter(db.versions, id, n);
  }

  /** How many versions of a workflow were made since its history was last purged: one by every record and one
      by every restore that goes through. */
  ghost function Made(b64: Base64, start: Db, ops: seq<Op>, id: WorkflowId): nat
  {
    if ops == [] then 0
    else
      var front, op := ops[..|ops| - 1], ops[|ops| - 1];
      var before := Made(b64, start, front, id);
      if op.Write? || op.id != id then before
      else if op.Purge? then 0
      else if op.Restore? && !CanRestore(b64, PerformAll(b64, start, front), id, op.number) then before
      else before + 1
  }

  /** Over every sequence of operations the versions of a workflow are numbered exactly from 1 to the number of
      versions made since the last purge. */
  lemma {:induction false} NumberedAlways(b64: Base64, live: map<WorkflowId, Live>, ops: seq<Op>, id: WorkflowId)
    ensures NumberedTo(PerformAll(b64, Db(live, map[]), ops).versions, id, Made(b64, Db(live, map[]), ops, id))
  {
    if ops != [] {
      var front, op := ops[..|ops| - 1], ops[|ops| - 1];
      NumberedAlways(b64, live, front, id);
      var db, n := PerformAll(b64, Db(live, map[]), front), Made(b64, Db(live, map[]), front, id);
      match op
      case Record(other, d) => AppendNumbered(b64, db, other, d, id, n);
      case Restore(other, k) =>
        if CanRestore(b64, db, other, k) {
          var d := ReviveAll(b64, db.versions[VersionKey(other, k)]);
          AppendNumbered(b64, db.(live := db.live[other := TableOf(b64, d)]), other, d, id, n);
        }
      case Purge(other) =>
      case Write(_, _) =>
    }
  }

  // ---- Permanence ----

  lemma FreshNumber(versions: map<VersionKey, Snapshot>, id: WorkflowId)
    ensures VersionKey(id, NextNumber(versions, id)) !in versions
  {
    assert forall k :: VersionKey(id, k) in versions ==> k in Numbers(versions, id);
  }

  /** A version is never changed: it stays what it was until the history is purged. */
  lemma {:induction false} VersionsStay(b64: Base64, db: Db, ops: seq<Op>, key: VersionKey)
    requires key in db.versions && Purge(key.workflow) !in ops
    ensures var after := PerformAll(b64, db, ops); key in after.versions && after.versions[key] == db.versions[key]
  {
    if ops != [] {
      var front, op := ops[..|ops| - 1], ops[|ops| - 1];
      assert op in ops;
      VersionsStay(b64, db, front, key);
      FreshNumber(PerformAll(b64, db, front).versions, key.workflow);
    }
  }

  // ---- Restoring ----

  /** A restore of a version that captured an acceptable definition always succeeds while the
      workflow exists: the live tables become that definition's rows, ciphertexts included,
      and the next version is the restored snapshot again. Nothing else changes. */
  lemma RestoreIsExact(b64: Base64, db: Db, id: WorkflowId, k: nat, d: Definition)
    requires b64.Lawful() && Writable(d) && id in db.live
    requires VersionKey(id, k) in db.versions && db.versions[VersionKey(id, k)] == CaptureAll(b64, d)
    ensures CanRestore(b64, db, id, k)
    ensures Perform(b64, db, Restore(id, k)) ==
      Db(db.live[id := TableOf(b64, d)], db.versions[VersionKey(id, NextNumber(db.versions, id)) := CaptureAll(b64, d)])
  {
    ReviveCaptureAll(b64, d);
  }

  /** Whatever happens after a definition was recorded as version `k` short of purging,
      restoring `k` brings back its rows and appends it as the newest version. */
  lemma RestoreBringsBack(b64: Base64, db: Db, id: WorkflowId, d: Definition, between: seq<Op>)
    requires b64.Lawful() && Writable(d) && Purge(id) !in between
    requires id in PerformAll(b64, Perform(b64, db, Record(id, d)), between).live
    ensures var k := NextNumber(db.versions, id);
      var before := PerformAll(b64, Perform(b64, db, Record(id, d)), between);
      var after := Perform(b64, before, Restore(id, k));
      var newest := VersionKey(id, NextNumber(before.versions, id));
      && after.live == before.live[id := TableOf(b64, d)]
      && newest !in before.versions
      && after.versions == before.versions[newest := CaptureAll(b64, d)]
  {
    var k := NextNumber(db.versions, id);
    var recorded := Perform(b64, db, Record(id, d));
    VersionsStay(b64, recorded, between, VersionKey(id, k));
    var before := PerformAll(b64, recorded, between);
    RestoreIsExact(b64, before, id, k, d);
    FreshNumber(before.versions, id);
  }
}
