/** The vault over the version store: creates, updates, restores and purges of any number of
    workflows, with an unchanged registry. */
module VaultHistory {
  import opened Tables
  import opened ConfigVault
  import opened VaultRounds
  import V = Versions

  /** Recording a version after a save is best effort: `recorded` says whether it succeeded. */
  datatype VaultOp =
    | Create(id: V.WorkflowId, draws: NodeDraws, req: Request, recorded: bool)
    | Update(id: V.WorkflowId, draws: NodeDraws, req: Request, recorded: bool)
    | Restore(id: V.WorkflowId, number: nat)
    | Purge(id: V.WorkflowId)

  /** Writes a definition to the live tables and, if that works, its snapshot to the history. */
  ghost function Save(v: Vault, db: V.Db, id: V.WorkflowId, d: Definition, recorded: bool): V.Db
    requires Writable(d)
  {
    var saved := db.(live := db.live[id := TableOf(v.b64, d)]);
    if recorded then V.Append(v.b64, saved, id, d) else saved
  }

  /** The store after an operation; one that fails changes nothing. */
  ghost function Perform(v: Vault, db: V.Db, op: VaultOp): V.Db
  {
    match op
    case Create(id, draws, req, recorded) =>
      if id !in db.live && AllCreatable(v, draws, req.nodes) && Writable(CreatedAll(v, draws, req))
      then Save(v, db, id, CreatedAll(v, draws, req), recorded) else db
    case Update(id, draws, req, recorded) =>
      if id in db.live && AllProtectable(v, draws, db.live[id], req.nodes) &&
        Writable(ProtectedAll(v, draws, db.live[id], req))
      then Save(v, db, id, ProtectedAll(v, draws, db.live[id], req), recorded) else db
    case Restore(id, number) => V.Perform(v.b64, db, V.Restore(id, number))
    case Purge(id) => V.Perform(v.b64, db, V.Purge(id))
  }

  ghost function PerformAll(v: Vault, ops: seq<VaultOp>): V.Db
  {
    if ops == [] then V.Db(map[], map[]) else Perform(v, PerformAll(v, ops[..|ops| - 1]), ops[|ops| - 1])
  }

  /** Clients send requests decoded from JSON. */
  ghost predicate FromClients(v: Vault, op: VaultOp)
  {
    op.Create? || op.Update? ==> AllRequests(v, op.req.nodes)
  }

  // ---- Everything stored is sound ----

  ghost predicate LiveSound(v: Vault, db: V.Db, id: V.WorkflowId)
  {
    id in db.live ==> AllHealthy(v, db.live[id])
  }

  /** A snapshot captured some definition whose tables are healthy. */
  ghost predicate SnapshotSound(v: Vault, s: V.Snapshot)
  {
    exists d :: Writable(d) && s == V.CaptureAll(v.b64, d) && AllHealthy(v, TableOf(v.b64, d))
  }

  ghost predicate VersionSound(v: Vault, db: V.Db, key: V.VersionKey)
  {
    key in db.versions ==> SnapshotSound(v, db.versions[key])
  }

  ghost predicate Sound(v: Vault, db: V.Db)
  {
    && (forall id {:trigger LiveSound(v, db, id)} :: LiveSound(v, db, id))
    && (forall key {:trigger VersionSound(v, db, key)} :: VersionSound(v, db, key))
  }

  lemma SaveKeeps(v: Vault, db: V.Db, id: V.WorkflowId, d: Definition, recorded: bool)
    requires Sound(v, db) && Writable(d) && AllHealthy(v, TableOf(v.b64, d))
    ensures Sound(v, Save(v, db, id, d, recorded))
  {
    var after := Save(v, db, id, d, recorded);
    forall other
      ensures LiveSound(v, after, other)
    {
      assert LiveSound(v, db, other);
    }
    forall key
      ensures VersionSound(v, after, key)
    {
      assert VersionSound(v, db, key);
      assert SnapshotSound(v, V.CaptureAll(v.b64, d));
    }
  }

  lemma RestoreKeeps(v: Vault, db: V.Db, id: V.WorkflowId, number: nat)
    requires v.Lawful() && Sound(v, db)
    ensures Sound(v, V.Perform(v.b64, db, V.Restore(id, number)))
  {
    if V.CanRestore(v.b64, db, id, number) {
      var key := V.VersionKey(id, number);
      assert VersionSound(v, db, key);
      var d :| Writable(d) && db.versions[key] == V.CaptureAll(v.b64, d) && AllHealthy(v, TableOf(v.b64, d));
      V.RestoreIsExact(v.b64, db, id, number, d);
      SaveKeeps(v, db, id, d, true);
    }
  }

  lemma PurgeKeeps(v: Vault, db: V.Db, id: V.WorkflowId)
    requires Sound(v, db)
    ensures Sound(v, V.Perform(v.b64, db, V.Purge(id)))
  {
    var after := V.Perform(v.b64, db, V.Purge(id));
    forall other
      ensures LiveSound(v, after, other)
    {
      assert LiveSound(v, db, other);
    }
    forall key
      ensures VersionSound(v, after, key)
    {
      assert VersionSound(v, db, key);
    }
  }

  lemma PerformKeeps(v: Vault, db: V.Db, op: VaultOp)
    requires v.Lawful() && Sound(v, db) && FromClients(v, op)
    ensures Sound(v, Perform(v, db, op))
  {
    match op
    case Create(id, draws, req, recorded) =>
      if AllCreatable(v, draws, req.nodes) && Writable(CreatedAll(v, draws, req)) {
        CreatesHealthy(v, draws, req, TableOf(v.b64, CreatedAll(v, draws, req)));
        SaveKeeps(v, db, id, CreatedAll(v, draws, req), recorded);
      }
    case Update(id, draws, req, recorded) =>
      assert LiveSound(v, db, id);
      if id in db.live && AllProtectable(v, draws, db.live[id], req.nodes) &&
        Writable(ProtectedAll(v, draws, db.live[id], req)) {
        var d := ProtectedAll(v, draws, db.live[id], req);
        UpdatesStayHealthy(v, draws, db.live[id], req, TableOf(v.b64, d));
        SaveKeeps(v, db, id, d, recorded);
      }
    case Restore(id, number) => RestoreKeeps(v, db, id, number);
    case Purge(id) => PurgeKeeps(v, db, id);
  }

  /** Over every sequence of creates, updates, restores and purges, every live table can be read
      and agrees with the registry, and every version can be restored to such a table. */
  lemma {:induction false} AlwaysHealthy(v: Vault, ops: seq<VaultOp>)
    requires v.Lawful() && forall op :: op in ops ==> FromClients(v, op)
    ensures Sound(v, PerformAll(v, ops))
  {
    if ops == [] {
      var db := PerformAll(v, ops);
      assert forall id :: LiveSound(v, db, id);
      assert forall key :: VersionSound(v, db, key);
    } else {
      assert ops[|ops| - 1] in ops;
      AlwaysHealthy(v, ops[..|ops| - 1]);
      PerformKeeps(v, PerformAll(v, ops[..|ops| - 1]), ops[|ops| - 1]);
    }
  }

  /** After any such sequence, a restore of any recorded version of a live workflow succeeds, and a
      masked round of any live workflow, restored or not, changes nothing. */
  lemma RestoreAndEcho(v: Vault, ops: seq<VaultOp>, id: V.WorkflowId, number: nat, draws: NodeDraws, req: Request)
    requires v.Lawful() && forall op :: op in ops ==> FromClients(v, op)
    requires id in PerformAll(v, ops).live
    ensures V.VersionKey(id, number) in PerformAll(v, ops).versions ==>
      V.CanRestore(v.b64, PerformAll(v, ops), id, number)
    ensures AllHealthy(v, PerformAll(v, ops).live[id])
    ensures IsEcho(v, PerformAll(v, ops).live[id], req) ==>
      Updates(v, draws, PerformAll(v, ops).live[id], req, PerformAll(v, ops).live[id])
  {
    AlwaysHealthy(v, ops);
    var db := PerformAll(v, ops);
    assert LiveSound(v, db, id);
    if IsEcho(v, db.live[id], req) {
      EchoChangesNothing(v, draws, db.live[id], req);
    }
    var key := V.VersionKey(id, number);
    assert VersionSound(v, db, key);
    if key in db.versions {
      var d :| Writable(d) && db.versions[key] == V.CaptureAll(v.b64, d) && AllHealthy(v, TableOf(v.b64, d));
      V.RestoreIsExact(v.b64, db, id, number, d);
    }
  }
}
