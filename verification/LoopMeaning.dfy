/** The reference meaning of a workflow with a loop: run the nodes one at a time in topological
    order, and when the controller's turn comes, run it and its body, pass by pass, to the end. */
module LoopMeaning {
  import opened Workflow
  import opened DagModel
  import opened Scheduler
  import opened LoopFree
  import opened Sequential
  import opened LoopSure
  import opened LoopIsolation

  /** What has been computed so far. For body nodes, `routing` and `skipped` tell of the latest pass. */
  datatype Account = Account(
    outputs: map<NodeId, Data>,
    routing: map<NodeId, Data>,
    skipped: set<NodeId>,
    passes: nat,
    over: bool,
    error: Option<string>)

  function Opening(init: Data): Account
  {
    Account(map[INITIAL := init, LOOP_STATE := Iteration(0)], map[], {}, 0, false, None)
  }

  predicate Known(m: Account, v: NodeId)
  {
    v in m.routing || v in m.skipped
  }

  /** Every predecessor of `v` has been executed or skipped. */
  predicate Due(dag: Dag, m: Account, v: NodeId)
  {
    forall e :: e in dag.forward && e.target == v ==> Known(m, e.source)
  }

  function AncestorsOf(dag: Dag, v: NodeId): set<NodeId>
  {
    if v in dag.ancestors then dag.ancestors[v] else {}
  }

  /** `v` is executed on the outputs of `ids`. */
  function Ask(h: Handler, m: Account, v: NodeId, ids: set<NodeId>): Account
  {
    match h(v, MergeUpstream(m.outputs, ids))
    case Succeeded(output, routing) =>
      m.(outputs := m.outputs[v := output], routing := m.routing[v := routing])
    case Failed(error) => m.(error := Some(error))
  }

  function Decide(dag: Dag, h: Handler, m: Account, v: NodeId, triggered: bool): Account
  {
    if triggered then Ask(h, m, v, AncestorsOf(dag, v)) else m.(skipped := m.skipped + {v})
  }

  /** An ordinary node's turn. It is left undecided if the loop before it has stalled. */
  function VisitNode(dag: Dag, h: Handler, m: Account, v: NodeId): Account
  {
    if m.error != None || Known(m, v) || !Due(dag, m, v) then m
    else Decide(dag, h, m, v, Triggered(dag, m.routing, v))
  }

  // ---- The loop ----

  /** A body node's turn in a pass. */
  function PassVisit(dag: Dag, body: set<NodeId>, h: Handler, m: Account, v: NodeId): Account
  {
    if m.error != None || v !in body then m
    else Decide(dag, h, m, v, IsHead(dag, body, v) || AnyFires(dag, m.routing, v))
  }

  function PassVisitor(dag: Dag, body: set<NodeId>, h: Handler): (Account, NodeId) -> Account
  {
    (m, v) => PassVisit(dag, body, h, m, v)
  }

  /** The first `k` nodes of the order, as far as they belong to the body. */
  function PassUpTo(dag: Dag, body: set<NodeId>, h: Handler, m: Account, k: nat): Account
    requires k <= |dag.order|
  {
    Fold(PassVisitor(dag, body, h), m, dag.order, k)
  }

  function Pass(dag: Dag, body: set<NodeId>, h: Handler, m: Account): Account
  {
    PassUpTo(dag, body, h, m, |dag.order|)
  }

  lemma OnePass(dag: Dag, body: set<NodeId>, h: Handler, m: Account)
    ensures Pass(dag, body, h, m).passes == m.passes && Pass(dag, body, h, m).over == m.over
  {
    ghost var ok := (n: Account, j: nat) => n.passes == m.passes && n.over == m.over;
    FoldInduction(PassVisitor(dag, body, h), m, dag.order, |dag.order|, ok);
  }

  /** A pass begins: the body forgets the previous one, apart from its outputs. */
  function Begin(dag: Dag, m: Account, c: NodeId, output: Data): Account
  {
    m.(outputs := m.outputs[c := output][LOOP_STATE := Iteration(m.passes + 1)],
       routing := m.routing - dag.BodyOf(c),
       skipped := m.skipped - dag.BodyOf(c),
       passes := m.passes + 1)
  }

  /** The loop is left: the controller counts as executed and the body as skipped. */
  function Leave(dag: Dag, m: Account, c: NodeId, output: Data, routing: Data): Account
  {
    m.(outputs := m.outputs[c := output],
       routing := m.routing[c := routing],
       skipped := m.skipped + dag.BodyOf(c),
       over := true)
  }

  /** Every loop-back edge reports at the end of a pass. */
  predicate Reports(dag: Dag, m: Account, c: NodeId)
  {
    dag.BodyOf(c) != {} && forall e :: e in dag.loopBack ==> e.source in m.routing
  }

  function Visible(dag: Dag, m: Account, c: NodeId): set<NodeId>
  {
    AncestorsOf(dag, c) + (if m.passes > 0 then {LOOP_STATE} + dag.BodyOf(c) else {})
  }

  /** The controller asks for another pass and the cap allows it. */
  predicate GoesOn(dag: Dag, m: Account, c: NodeId, routing: Data)
  {
    TextAt(routing, "action") == LOOP_BODY && m.passes < MaxIterations(dag.ConfigOf(c))
  }

  /** The controller's turn, and as many passes as it takes. */
  function Iterate(dag: Dag, h: Handler, m: Account, c: NodeId): (r: Account)
    ensures r.error == None ==> r.over || r.passes > 0
    decreases MaxIterations(dag.ConfigOf(c)) - m.passes, 1
  {
    match h(c, MergeUpstream(m.outputs, Visible(dag, m, c)))
    case Failed(error) => m.(error := Some(error))
    case Succeeded(output, routing) =>
      if GoesOn(dag, m, c, routing) then Continue(dag, h, Begin(dag, m, c, output), c)
      else Leave(dag, m, c, output, routing)
  }

  /** A pass, and if every loop-back edge reports, the controller's next turn. */
  function Continue(dag: Dag, h: Handler, m: Account, c: NodeId): (r: Account)
    requires m.passes > 0
    ensures r.error == None ==> r.over || r.passes > 0
    decreases MaxIterations(dag.ConfigOf(c)) - m.passes, 2
  {
    var n := Pass(dag, dag.BodyOf(c), h, m);
    OnePass(dag, dag.BodyOf(c), h, m);
    if n.error == None && Reports(dag, n, c) then Iterate(dag, h, n, c) else n
  }

  // ---- The whole workflow ----

  /** The turn of `v`. Body nodes have had theirs if a pass was made. */
  function Turn(dag: Dag, h: Handler, m: Account, v: NodeId): Account
  {
    if dag.TypeOf(v) == LOOP_CONTROLLER then
      if m.error != None then m
      else if Triggered(dag, m.routing, v) then Iterate(dag, h, m, v)
      else m.(skipped := m.skipped + {v})
    else if m.passes > 0 && (exists c :: c in dag.Controllers() && v in dag.BodyOf(c)) then m
    else VisitNode(dag, h, m, v)
  }

  function Turner(dag: Dag, h: Handler): (Account, NodeId) -> Account
  {
    (m, v) => Turn(dag, h, m, v)
  }

  /** What has been computed after the first `k` turns. */
  function Tell(dag: Dag, h: Handler, init: Data, k: nat): Account
    requires k <= |dag.order|
  {
    Fold(Turner(dag, h), Opening(init), dag.order, k)
  }

  function FullMeaning(dag: Dag, h: Handler, init: Data): Account
  {
    Tell(dag, h, init, |dag.order|)
  }

  /** What running the nodes one at a time returns. */
  function FullReport(dag: Dag, m: Account): Report
  {
    var results := map v | v in m.outputs && v in dag.nodes :: NodeSucceeded(m.outputs[v]);
    var final := SinkOutputs(dag, m.outputs);
    if final == map[] && exists v :: v in m.skipped && (v !in dag.successors || dag.successors[v] == []) then
      Report(map[], results, Some(ALL_SUPPRESSED))
    else Report(final, results, None)
  }
}
