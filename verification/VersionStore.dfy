/** The version store as it is implemented: snapshots built in loops, the next number read
    from the table, and a restore that writes only once nothing can fail any more. */
module VersionStore {
  import opened Workflow
  import opened Crypto
  import opened Tables
  import opened Versions

  method WorkflowToSnapshot(b64: Base64, d: Definition) returns (s: Snapshot)
    ensures s == CaptureAll(b64, d)
  {
    var nodes := [];
    for i := 0 to |d.nodes|
      invariant |nodes| == i && forall j :: 0 <= j < i ==> nodes[j] == Capture(b64, d.nodes[j])
    {
      nodes := nodes + [Capture(b64, d.nodes[i])];
    }
    s := Snapshot(d.header, nodes, d.edges);
  }

  method ReviveNode(b64: Base64, sn: SnapshotNode) returns (r: Result<StoredNode>)
    ensures r.Ok? <==> Revivable(b64, sn)
    ensures r.Ok? ==> r.value == Revive(b64, sn)
  {
    var config: Data := map[];
    var todo := sn.Config().Keys;
    while todo != {}
      invariant todo <= sn.Config().Keys && config.Keys == sn.Config().Keys - todo
      invariant forall k :: k in config && sn.Marks(k) ==> Decodes(b64, sn.Config()[k])
      invariant forall k :: k in config ==>
        config[k] == if sn.Marks(k) then Bytes(b64.decode(sn.Config()[k].text).value) else sn.Config()[k]
    {
      var k :| k in todo;
      var v := sn.Config()[k];
      if sn.Marks(k) {
        if !v.Text? {
          return Err("sensitive config is not a string");
        }
        var decoded := b64.decode(v.text);
        if decoded == None {
          return Err("base64 decode");
        }
        config := config[k := Bytes(decoded.value)];
      } else {
        config := config[k := v];
      }
      todo := todo - {k};
    }
    assert Revivable(b64, sn) && config == Revive(b64, sn).config.value;
    return Ok(StoredNode(sn.id, sn.typeId, sn.details, Some(config), sn.sensitive));
  }

  /** Fails exactly when some sensitive value is not base64 text. */
  method SnapshotToWorkflow(b64: Base64, s: Snapshot) returns (r: Result<Definition>)
    ensures r.Ok? <==> AllRevivable(b64, s.nodes)
    ensures r.Ok? ==> r.value == ReviveAll(b64, s)
  {
    var nodes := [];
    for i := 0 to |s.nodes|
      invariant |nodes| == i
      invariant forall j :: 0 <= j < i ==> Revivable(b64, s.nodes[j]) && nodes[j] == Revive(b64, s.nodes[j])
    {
      var node := ReviveNode(b64, s.nodes[i]);
      if node.Err? {
        return Err(node.error);
      }
      nodes := nodes + [node.value];
    }
    return Ok(Definition(s.header, nodes, s.edges));
  }

  class Store {
    const b64: Base64
    var live: map<WorkflowId, Live>
    var versions: map<VersionKey, Snapshot>

    ghost function Contents(): Db
      reads this
    {
      Db(live, versions)
    }

    constructor (b64: Base64, live: map<WorkflowId, Live>)
      ensures this.b64 == b64 && Contents() == Db(live, map[])
    {
      this.b64, this.live, versions := b64, live, map[];
    }

    method MaxVersion(id: WorkflowId) returns (m: nat)
      ensures m == MaxOf(Numbers(versions, id))
    {
      m := 0;
      var todo := versions.Keys;
      while todo != {}
        invariant todo <= versions.Keys
        invariant m == 0 || m in Numbers(versions, id)
        invariant forall key :: key in versions && key !in todo && key.workflow == id ==> key.number <= m
      {
        var key :| key in todo;
        if key.workflow == id && key.number > m {
          m := key.number;
        }
        todo := todo - {key};
      }
      var top := MaxOf(Numbers(versions, id));
      assert top in Numbers(versions, id) ==> VersionKey(id, top) in versions;
    }

    /** Records the definition under the next free number. `fault` is an error of the database in
        the transaction, which then changes nothing. */
    method CreateWorkflowVersion(id: WorkflowId, d: Definition, fault: Option<string>) returns (error: Option<string>)
      modifies this
      ensures error == fault
      ensures Contents() == if fault == None then Perform(b64, old(Contents()), Record(id, d)) else old(Contents())
    {
      if fault.Some? {
        return fault;
      }
      AppendVersion(id, d);
      return None;
    }

    method AppendVersion(id: WorkflowId, d: Definition)
      modifies `versions
      ensures Contents() == Perform(b64, old(Contents()), Record(id, d))
    {
      var snapshot := WorkflowToSnapshot(b64, d);
      var m := MaxVersion(id);
      versions := versions[VersionKey(id, m + 1) := snapshot];
    }

    /** Succeeds exactly when the database does not fail, the version exists, it revives into
        something the tables accept and the workflow exists; otherwise nothing changes. */
    method RestoreWorkflowVersion(id: WorkflowId, number: nat, fault: Option<string>) returns (r: Result<Definition>)
      modifies this
      ensures r.Ok? <==> fault == None && CanRestore(b64, old(Contents()), id, number)
      ensures Contents() ==
        if fault == None then Perform(b64, old(Contents()), Restore(id, number)) else old(Contents())
      ensures r.Ok? ==> r.value == ReviveAll(b64, old(versions)[VersionKey(id, number)])
      ensures fault == None && VersionKey(id, number) !in old(versions) ==> r == Err(NOT_FOUND)
      ensures fault.Some? ==> r == Err(fault.value)
    {
      if fault.Some? {
        return Err(fault.value);
      }
      var key := VersionKey(id, number);
      if key !in versions {
        return Err(NOT_FOUND);
      }
      r := SnapshotToWorkflow(b64, versions[key]);
      if r.Err? {
        return;
      }
      var written := WriteDefinition(b64, r.value);
      if written.Err? {
        return Err(written.error);
      }
      if id !in live {
        return Err(NOT_FOUND);
      }
      live := live[id := written.value];
      AppendVersion(id, r.value);
    }
  }
}
