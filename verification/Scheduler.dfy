/** The supervisor of one run as a state machine over values. A step either lets a
    dispatched goroutine read its upstream data or hands one finished result to the
    supervisor; any goroutine in flight may take the next step. */
module Scheduler {
  import opened Workflow
  import opened Graph
  import opened DagModel

  type Inputs = map<NodeId, Data>

  /** What a node sends back: its output with the pre-parser routing output, or an error. */
  datatype Outcome = Succeeded(output: Data, routing: Data) | Failed(error: string)

  datatype NodeResult = NodeSucceeded(output: Data) | NodeFailed(error: string)

  /** A goroutine in flight: before or after it has read its upstream data. */
  datatype Flight = Waiting(node: NodeId) | Running(node: NodeId, inputs: Inputs)

  /** The supervisor's variables. The last five are history: the nodes dispatched since
      their counters were last reset, the routing output of every node whose out-edges
      were routed since then, every dispatch ever made, the passes over a loop body
      started so far, and whether a controller's own out-edges were routed. */
  datatype State = State(
    pending: map<NodeId, int>,
    skipped: set<NodeId>,
    hasLive: set<NodeId>,
    outputs: map<NodeId, Data>,
    ancestors: map<NodeId, set<NodeId>>,
    nodeResults: map<NodeId, NodeResult>,
    loopIterations: map<NodeId, nat>,
    dispatched: nat,
    received: nat,
    firstErr: Option<string>,
    inflight: multiset<Flight>,
    started: set<NodeId>,
    routed: map<NodeId, Data>,
    launched: multiset<NodeId>,
    passes: nat,
    exited: bool)

  /** How one edge reports to its target: it fired, it was suppressed, or it is a
      loop-back edge of a completed node. */
  datatype Kind = Live | Suppressed | Back
  datatype Signal = Signal(target: NodeId, kind: Kind)

  function PendingOf(s: State, v: NodeId): int
  {
    if v in s.pending then s.pending[v] else 0
  }

  function IterationsOf(s: State, c: NodeId): nat
  {
    if c in s.loopIterations then s.loopIterations[c] else 0
  }

  function Dispatch(s: State, v: NodeId): State
  {
    s.(dispatched := s.dispatched + 1,
       inflight := s.inflight + multiset{Waiting(v)},
       started := s.started + {v},
       launched := s.launched + multiset{v})
  }

  function Flights(nodes: set<NodeId>): set<Flight>
  {
    set b | b in nodes :: Waiting(b)
  }

  /** Dispatches every node of a set; the order does not show. */
  function DispatchAll(s: State, nodes: set<NodeId>): State
  {
    s.(dispatched := s.dispatched + |nodes|,
       inflight := s.inflight + multiset(Flights(nodes)),
       started := s.started + nodes,
       launched := s.launched + multiset(nodes))
  }

  function SuppressAll(edges: seq<Edge>): seq<Signal>
  {
    if edges == [] then [] else SuppressAll(edges[..|edges| - 1]) + [Signal(edges[|edges| - 1].target, Suppressed)]
  }

  function OutSignals(edges: seq<Edge>, routing: Data, sourceType: string): seq<Signal>
  {
    if edges == [] then []
    else
      var last := edges[|edges| - 1];
      var kind := if BranchAllows(last, routing, sourceType) then Live else Suppressed;
      OutSignals(edges[..|edges| - 1], routing, sourceType) + [Signal(last.target, kind)]
  }

  function BackSignals(loopBack: seq<Edge>, source: NodeId): seq<Signal>
  {
    if loopBack == [] then []
    else
      var last := loopBack[|loopBack| - 1];
      BackSignals(loopBack[..|loopBack| - 1], source) +
        (if last.source == source then [Signal(last.target, Back)] else [])
  }

  /** What a signal leads to once it is counted: the target still waits (or was already
      handled), is dispatched, or is skipped. */
  datatype Reaction = Waits | Launches | Skips

  function React(s: State, sig: Signal): Reaction
  {
    var v, left := sig.target, PendingOf(s, sig.target) - 1;
    if sig.kind == Suppressed then
      if left > 0 || v in s.skipped then Waits
      else if v in s.hasLive then Launches
      else Skips
    else if left == 0 then Launches
    else Waits
  }

  /** `s` after a signal has been counted down and nothing else. */
  function Counted(s: State, sig: Signal): State
  {
    s.(pending := s.pending[sig.target := PendingOf(s, sig.target) - 1],
       hasLive := if sig.kind == Live then s.hasLive + {sig.target} else s.hasLive)
  }

  function Skip(s: State, v: NodeId): State
  {
    s.(skipped := s.skipped + {v})
  }

  /** The effect of one signal. */
  function Absorb(s: State, sig: Signal): State
  {
    match React(s, sig)
    case Waits => Counted(s, sig)
    case Launches => Dispatch(Counted(s, sig), sig.target)
    case Skips => Skip(Counted(s, sig), sig.target)
  }

  /** The signals a newly skipped target sends on. */
  function SentOn(dag: Dag, s: State, sig: Signal): seq<Signal>
  {
    if React(s, sig) == Skips then SuppressAll(dag.Out(sig.target)) else []
  }

  lemma RemoveOne(all: set<NodeId>, gone: set<NodeId>, v: NodeId)
    requires v !in gone
    ensures if v in all then all - (gone + {v}) < all - gone else all - (gone + {v}) == all - gone
  {
    assert v in all ==> v in all - gone;
  }

  /** A signal either leaves fewer nodes to skip or sends nothing on. */
  lemma AbsorbShrinks(dag: Dag, s: State, sig: Signal)
    ensures
      || (SentOn(dag, s, sig) == [] && dag.nodes.Keys - Absorb(s, sig).skipped == dag.nodes.Keys - s.skipped)
      || dag.nodes.Keys - Absorb(s, sig).skipped < dag.nodes.Keys - s.skipped
  {
    if React(s, sig) == Skips {
      RemoveOne(dag.nodes.Keys, s.skipped, sig.target);
    }
  }

  /** Delivers signals in order; those a skipped node sends on go first, which is the
      depth-first order of the recursive propagation. */
  function Deliver(dag: Dag, s: State, todo: seq<Signal>): State
    decreases dag.nodes.Keys - s.skipped, |todo|
  {
    if todo == [] then s
    else
      AbsorbShrinks(dag, s, todo[0]);
      Deliver(dag, Absorb(s, todo[0]), SentOn(dag, s, todo[0]) + todo[1..])
  }

  /** The controller wants another pass and the cap allows it. */
  predicate Iterates(dag: Dag, s: State, c: NodeId, routing: Data)
  {
    TextAt(routing, "action") == LOOP_BODY && IterationsOf(s, c) < MaxIterations(dag.ConfigOf(c))
  }

  function LoopBackCount(loopBack: seq<Edge>, c: NodeId): nat
  {
    if loopBack == [] then 0
    else LoopBackCount(loopBack[..|loopBack| - 1], c) + (if loopBack[|loopBack| - 1].target == c then 1 else 0)
  }

  /** The body nodes a new pass dispatches at once. */
  function BodyRoots(dag: Dag, c: NodeId): set<NodeId>
  {
    set b | b in dag.BodyOf(c) && CountIn(dag.Preds(b), dag.BodyOf(c)) == 0
  }

  /** The counters of a new pass: body nodes wait for the body, the controller for its loop-back edges. */
  function PassPending(dag: Dag, pending: map<NodeId, int>, c: NodeId): map<NodeId, int>
  {
    (pending + map b | b in dag.BodyOf(c) :: CountIn(dag.Preds(b), dag.BodyOf(c)))[c := LoopBackCount(dag.loopBack, c)]
  }

  /** Counts the pass, publishes its number, and lets the controller see it and the body. */
  function Announce(dag: Dag, s: State, c: NodeId): State
  {
    var pass := IterationsOf(s, c) + 1;
    s.(loopIterations := s.loopIterations[c := pass],
       outputs := s.outputs[LOOP_STATE := map["iteration" := Int(pass)]],
       ancestors := s.ancestors[c := (if c in s.ancestors then s.ancestors[c] else {}) + {LOOP_STATE} + dag.BodyOf(c)],
       passes := s.passes + 1)
  }

  /** Resets the counters and flags of the body and of its controller for another pass. */
  function ResetBody(dag: Dag, s: State, c: NodeId): State
  {
    var body := dag.BodyOf(c);
    s.(pending := PassPending(dag, s.pending, c),
       skipped := s.skipped - body,
       hasLive := s.hasLive - body + BodyRoots(dag, c),
       started := s.started - body - {c},
       routed := s.routed - body)
  }

  /** Starts the next pass over the loop body: resets it and dispatches its roots. */
  function StartPass(dag: Dag, s: State, c: NodeId): State
  {
    DispatchAll(ResetBody(dag, Announce(dag, s, c), c), BodyRoots(dag, c))
  }

  /** The signals a completed node sends along its forward and loop-back edges. */
  function SignalsOf(dag: Dag, v: NodeId, routing: Data): seq<Signal>
  {
    OutSignals(dag.Out(v), routing, dag.TypeOf(v)) + BackSignals(dag.loopBack, v)
  }

  /** The state in which the out-edges of `v` are about to be routed. */
  function Routing(dag: Dag, s: State, v: NodeId, routing: Data): State
  {
    s.(routed := s.routed[v := routing],
       skipped := if dag.TypeOf(v) == LOOP_CONTROLLER then s.skipped + dag.BodyOf(v) else s.skipped,
       exited := s.exited || dag.TypeOf(v) == LOOP_CONTROLLER)
  }

  /** A successful result that is routed: another pass, or normal routing. */
  function Schedule(dag: Dag, s: State, v: NodeId, routing: Data): State
  {
    if dag.TypeOf(v) == LOOP_CONTROLLER && Iterates(dag, s, v, routing) then StartPass(dag, s, v)
    else Deliver(dag, Routing(dag, s, v, routing), SignalsOf(dag, v, routing))
  }

  /** The bookkeeping for one received result, before any successor is scheduled. */
  function Record(s: State, f: Flight, r: Outcome): State
  {
    var t := s.(inflight := s.inflight - multiset{f}, received := s.received + 1);
    match r
    case Failed(error) =>
      t.(nodeResults := t.nodeResults[f.node := NodeFailed(error)],
         firstErr := if t.firstErr == None then Some(error) else t.firstErr)
    case Succeeded(output, _) =>
      t.(nodeResults := t.nodeResults[f.node := NodeSucceeded(output)],
         outputs := t.outputs[f.node := output])
  }

  /** Successors are scheduled only for a success, and only while nothing has failed. */
  function Accept(dag: Dag, s: State, v: NodeId, r: Outcome): State
  {
    if r.Failed? || s.firstErr != None then s else Schedule(dag, s, v, r.routing)
  }

  /** One turn of the supervisor loop on the result `r` of flight `f`. */
  function Receive(dag: Dag, s: State, f: Flight, r: Outcome): State
  {
    Accept(dag, Record(s, f, r), f.node, r)
  }

  /** The upstream data of `v`: the run's initial data and the outputs its ancestors have so far. */
  function MergeUpstream(outputs: map<NodeId, Data>, ids: set<NodeId>): Inputs
  {
    map k | k in outputs && (k == INITIAL || k in ids) :: outputs[k]
  }

  function Upstream(s: State, v: NodeId): Inputs
  {
    MergeUpstream(s.outputs, if v in s.ancestors then s.ancestors[v] else {})
  }

  /** The variables before anything is dispatched. */
  function Fresh(dag: Dag, init: Data): State
  {
    State(
      map v | v in dag.nodes :: |dag.Preds(v)|, {}, {},
      map[INITIAL := init, LOOP_STATE := map["iteration" := Int(0)]],
      dag.ancestors, map[], map[], 0, 0, None, multiset{}, {}, map[], multiset{}, 0, false)
  }

  function Roots(dag: Dag): set<NodeId>
  {
    set v | v in dag.nodes && |dag.Preds(v)| == 0
  }

  /** The state after all roots are dispatched. */
  function Start(dag: Dag, init: Data): State
  {
    DispatchAll(Fresh(dag, init), Roots(dag))
  }

  datatype Step = Read(node: NodeId) | Recv(flight: Flight, outcome: Outcome)

  predicate Enabled(s: State, step: Step)
  {
    match step
    case Read(v) => Waiting(v) in s.inflight
    case Recv(f, _) => f.Running? && f in s.inflight
  }

  function Apply(dag: Dag, s: State, step: Step): State
  {
    match step
    case Read(v) => s.(inflight := s.inflight - multiset{Waiting(v)} + multiset{Running(v, Upstream(s, v))})
    case Recv(f, r) => Receive(dag, s, f, r)
  }

  /** The state a sequence of steps leads to. */
  function After(dag: Dag, init: Data, steps: seq<Step>): State
  {
    if steps == [] then Start(dag, init)
    else Apply(dag, After(dag, init, steps[..|steps| - 1]), steps[|steps| - 1])
  }

  /** Every step of the sequence can be taken when its turn comes: an arbitrary arrival order. */
  predicate IsRun(dag: Dag, init: Data, steps: seq<Step>)
  {
    steps == [] ||
    (IsRun(dag, init, steps[..|steps| - 1]) && Enabled(After(dag, init, steps[..|steps| - 1]), steps[|steps| - 1]))
  }

  /** A run is a shorter run and one more step. */
  lemma LastStep(dag: Dag, init: Data, steps: seq<Step>)
    requires IsRun(dag, init, steps) && steps != []
    ensures var front, last := steps[..|steps| - 1], steps[|steps| - 1];
      && steps == front + [last] && IsRun(dag, init, front) && Enabled(After(dag, init, front), last)
      && After(dag, init, steps) == Apply(dag, After(dag, init, front), last)
  {
  }

  lemma RunExtends(dag: Dag, init: Data, steps: seq<Step>, step: Step)
    requires IsRun(dag, init, steps) && Enabled(After(dag, init, steps), step)
    ensures IsRun(dag, init, steps + [step])
    ensures After(dag, init, steps + [step]) == Apply(dag, After(dag, init, steps), step)
  {
    assert (steps + [step])[..|steps|] == steps;
  }

  /** Nothing is in flight: the supervisor loop ends. */
  predicate Quiescent(s: State)
  {
    s.inflight == multiset{}
  }

  datatype Report = Report(final: map<NodeId, Data>, nodeResults: map<NodeId, NodeResult>, error: Option<string>)

  const ALL_SUPPRESSED := "all sink branches were suppressed by conditional routing"

  function SinkOutputs(dag: Dag, outputs: map<NodeId, Data>): map<NodeId, Data>
  {
    map v | v in dag.nodes && dag.IsSink(v) && v in outputs :: outputs[v]
  }

  /** What the run returns once the supervisor loop has ended. */
  function Finish(dag: Dag, s: State): Report
  {
    if s.firstErr != None then Report(map[], s.nodeResults, s.firstErr)
    else
      var final := SinkOutputs(dag, s.outputs);
      if final == map[] && exists v :: v in s.skipped && (v !in dag.successors || dag.successors[v] == []) then
        Report(map[], s.nodeResults, Some(ALL_SUPPRESSED))
      else Report(final, s.nodeResults, None)
  }

  /** The channel capacity the runner allots. */
  ghost function MaxDispatches(dag: Dag): int
  {
    var base := |dag.nodes| + Sum(LoopShare(dag), dag.loopBody.Keys);
    if base < 1 then 1 else base
  }

  /** A controller's cap times one dispatch of every body node and of itself. */
  function LoopShare(dag: Dag): NodeId -> int
  {
    c => MaxIterations(dag.ConfigOf(c)) * (|dag.BodyOf(c)| + 1)
  }

  ghost function Sum(f: NodeId -> int, ids: set<NodeId>): int
  {
    if ids == {} then 0
    else
      var c :| c in ids;
      f(c) + Sum(f, ids - {c})
  }
}
