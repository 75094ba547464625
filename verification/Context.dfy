/** The run-scoped store of node outputs. */
module Context {
  import opened Workflow
  import opened DagModel
  import Scheduler

  class ExecutionContext {
    var outputs: map<NodeId, Data>

    constructor ()
      ensures outputs == map[]
    {
      outputs := map[];
    }

    /** Stores a node's output over whatever an earlier pass left there. */
    method Set(id: NodeId, data: Data)
      modifies this
      ensures outputs == old(outputs)[id := data]
    {
      outputs := outputs[id := data];
    }

    /** The initial data, when present, and the outputs of those ancestors that have one, visiting
        the ancestors in any order. */
    method MergeUpstream(ids: set<NodeId>) returns (merged: Scheduler.Inputs)
      ensures merged == Scheduler.MergeUpstream(outputs, ids)
      ensures INITIAL in outputs ==> INITIAL in merged
      ensures forall k :: k in ids && k in outputs ==> k in merged
      ensures forall k :: k in merged ==> k in outputs && merged[k] == outputs[k] && (k == INITIAL || k in ids)
    {
      merged := map[];
      if INITIAL in outputs {
        merged := merged[INITIAL := outputs[INITIAL]];
      }
      var todo := ids;
      while todo != {}
        invariant todo <= ids
        invariant merged.Keys == set k | k in outputs && (k == INITIAL || k in ids - todo)
        invariant forall k :: k in merged ==> merged[k] == outputs[k]
      {
        var id :| id in todo;
        if id in outputs {
          merged := merged[id := outputs[id]];
        }
        todo := todo - {id};
      }
    }

    /** The outputs of the nodes without successors, visiting the nodes in any order. */
    method SinkOutputs(dag: Dag) returns (result: map<NodeId, Data>)
      ensures result == Scheduler.SinkOutputs(dag, outputs)
      ensures forall v :: v in result <==> v in dag.nodes && v in outputs && dag.IsSink(v)
      ensures forall v :: v in result ==> result[v] == outputs[v]
    {
      result := map[];
      var todo := dag.nodes.Keys;
      while todo != {}
        invariant todo <= dag.nodes.Keys
        invariant result.Keys == set v | v in dag.nodes && v !in todo && dag.IsSink(v) && v in outputs
        invariant forall v :: v in result ==> result[v] == outputs[v]
      {
        var v :| v in todo;
        if dag.IsSink(v) && v in outputs {
          result := result[v := outputs[v]];
        }
        todo := todo - {v};
      }
    }
  }
}
