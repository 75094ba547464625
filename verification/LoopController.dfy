/** The shipped loop controller: how it decides, and what a run whose controller it is comes to. */
module LoopController {
  import opened Workflow
  import opened DagModel
  import opened Scheduler
  import opened SchedulerInvariant
  import opened LoopSteps
  import opened LoopBound
  import opened LoopSure
  import opened LoopIsolation
  import opened Completion
  import opened Diamond
  import opened StepsCommute
  import opened LoopConfluence
  import opened LoopExit
  import opened LoopCompletion
  import opened LoopStalls

  // ---- The handler ----

  /** The evaluator of exit conditions: an expression and the upstream data to a truth value or an error. */
  type Evaluator = (string, Inputs) -> Result<bool>

  const CAP_REQUIRED := "loop.controller: max_iterations is required"
  const CAP_NOT_A_NUMBER := "loop.controller: max_iterations must be a number"
  const CONDITION_FAILED := "loop.controller: exit_condition: "

  /** The cap as the handler reads it, which knows no default. */
  function RequiredCap(config: Data): (r: Result<int>)
    ensures r.Ok? ==> r.value == MaxIterations(config)
  {
    if "max_iterations" !in config then Err(CAP_REQUIRED)
    else
      match config["max_iterations"]
      case Float(x) => Ok(Truncate(x))
      case Int(n) => Ok(n)
      case _ => Err(CAP_NOT_A_NUMBER)
  }

  /** The number of passes the engine has published, zero when there is none to be read. */
  function CurrentIteration(inputs: Inputs): int
  {
    if LOOP_STATE !in inputs || "iteration" !in inputs[LOOP_STATE] then 0
    else
      match inputs[LOOP_STATE]["iteration"]
      case Float(x) => Truncate(x)
      case Int(n) => n
      case _ => 0
  }

  function Leave(iteration: int, reason: string): Data
  {
    map["action" := Text(EXIT), "iteration" := Int(iteration), "exit_reason" := Text(reason)]
  }

  function Again(iteration: int): Data
  {
    map["action" := Text(LOOP_BODY), "iteration" := Int(iteration)]
  }

  /** Whether the loop goes on: the cap first, then the exit condition if there is one. */
  function Execute(config: Data, holds: Evaluator, inputs: Inputs): Result<Data>
  {
    match RequiredCap(config)
    case Err(error) => Err(error)
    case Ok(cap) =>
      var iteration := CurrentIteration(inputs);
      var condition := TextAt(config, "exit_condition");
      if iteration >= cap then Ok(Leave(iteration, "max_iterations"))
      else if condition == "" then Ok(Again(iteration))
      else
        match holds(condition, inputs)
        case Err(error) => Err(CONDITION_FAILED + error)
        case Ok(true) => Ok(Leave(iteration, "condition"))
        case Ok(false) => Ok(Again(iteration))
  }

  /** An exit condition is configured. */
  predicate HasCondition(config: Data, condition: string)
  {
    "exit_condition" in config && config["exit_condition"] == Text(condition) && condition != ""
  }

  /** The exit condition, if there is one, did not hold of `inputs`. */
  ghost predicate GoesOn(config: Data, holds: Evaluator, inputs: Inputs)
  {
    forall condition {:trigger HasCondition(config, condition)} ::
      HasCondition(config, condition) ==> holds(condition, inputs) == Ok(false)
  }

  /** After `k` passes the controller leaves with `routing`: at the cap, or because the exit condition held of
      `inputs`, and says which. */
  ghost predicate Stops(config: Data, holds: Evaluator, inputs: Inputs, k: int, routing: Data)
  {
    && (k >= MaxIterations(config) ||
        exists condition :: HasCondition(config, condition) && holds(condition, inputs) == Ok(true))
    && routing == map[
         "action" := Text("exit"),
         "iteration" := Int(k),
         "exit_reason" := Text(if k < MaxIterations(config) then "condition" else "max_iterations")]
  }

  /** A controller that has read as many passes as the engine counts is given another pass exactly when it asks
      for one; it asks while the cap is not reached and the exit condition does not hold. */
  lemma Decides(dag: Dag, s: State, c: NodeId, holds: Evaluator, inputs: Inputs)
    requires CurrentIteration(inputs) == IterationsOf(s, c) && Execute(dag.ConfigOf(c), holds, inputs).Ok?
    ensures var config, routing := dag.ConfigOf(c), Execute(dag.ConfigOf(c), holds, inputs).value;
      if Iterates(dag, s, c, routing) then GoesOn(config, holds, inputs)
      else Stops(config, holds, inputs, IterationsOf(s, c), routing)
  {
    var config := dag.ConfigOf(c);
    var condition := TextAt(config, "exit_condition");
    assert condition != "" ==> HasCondition(config, condition);
    assert forall x :: HasCondition(config, x) ==> x == condition;
  }

  /** When the handler fails: the cap is missing or not a number, or the cap is not reached and the exit condition
      cannot be evaluated. */
  lemma HandlerFails(config: Data, holds: Evaluator, inputs: Inputs)
    ensures "max_iterations" !in config ==>
      Execute(config, holds, inputs) == Err("loop.controller: max_iterations is required")
    ensures "max_iterations" in config && !config["max_iterations"].Int? && !config["max_iterations"].Float? ==>
      Execute(config, holds, inputs) == Err("loop.controller: max_iterations must be a number")
    ensures "max_iterations" in config && (config["max_iterations"].Int? || config["max_iterations"].Float?) ==>
      (Execute(config, holds, inputs).Err? <==>
       && CurrentIteration(inputs) < MaxIterations(config)
       && exists condition :: HasCondition(config, condition) && holds(condition, inputs).Err?)
  {
    var condition := TextAt(config, "exit_condition");
    assert condition != "" ==> HasCondition(config, condition);
    assert forall x :: HasCondition(config, x) ==> x == condition;
  }

  // ---- Runs under the shipped controller ----

  /** A success of `c` carries what the handler decides on the data the flight has read. */
  predicate AnswersAs(dag: Dag, holds: Evaluator, c: NodeId, x: Step)
  {
    x.Recv? && x.flight.Running? && x.flight.node == c && x.outcome.Succeeded? ==>
      Execute(dag.ConfigOf(c), holds, x.flight.inputs) == Ok(x.outcome.routing)
  }

  predicate Shipped(dag: Dag, holds: Evaluator, c: NodeId, steps: seq<Step>)
  {
    forall x {:trigger AnswersAs(dag, holds, c, x)} :: x in steps ==> AnswersAs(dag, holds, c, x)
  }

  predicate CountedBy(l: Loop, s: State, f: Flight)
  {
    f.Running? && f.node in l.ctrl ==> CurrentIteration(f.inputs) == s.passes
  }

  /** The number of passes is published, and is what a controller in flight has read. */
  ghost predicate Tallied(l: Loop, s: State)
  {
    && LOOP_STATE in s.outputs && s.outputs[LOOP_STATE] == Iteration(s.passes)
    && forall f {:trigger CountedBy(l, s, f)} :: f in s.inflight ==> CountedBy(l, s, f)
  }

  /** The data the successive successful executions of `c` have read. */
  function Readings(steps: seq<Step>, c: NodeId): seq<Inputs>
  {
    if steps == [] then []
    else
      var front, last := Readings(steps[..|steps| - 1], c), steps[|steps| - 1];
      if last.Recv? && last.flight.Running? && last.flight.node == c && last.outcome.Succeeded?
      then front + [last.flight.inputs] else front
  }

  lemma ReadingsAppend(steps: seq<Step>, x: Step, c: NodeId)
    ensures Readings(steps + [x], c) ==
      if x.Recv? && x.flight.Running? && x.flight.node == c && x.outcome.Succeeded?
      then Readings(steps, c) + [x.flight.inputs] else Readings(steps, c)
  {
    assert (steps + [x])[..|steps|] == steps;
  }

  /** One reading for every pass, of which the exit condition did not hold, and once the loop was left one more, on
      which the controller stopped. */
  ghost predicate Steered(dag: Dag, holds: Evaluator, seen: seq<Inputs>, s: State, c: NodeId)
  {
    && |seen| == s.passes + (if c in s.routed then 1 else 0)
    && (forall i :: 0 <= i < s.passes ==> GoesOn(dag.ConfigOf(c), holds, seen[i]))
    && (c in s.routed ==> Stops(dag.ConfigOf(c), holds, seen[s.passes], s.passes, s.routed[c]))
  }

  lemma ReadTallied(dag: Dag, l: Loop, s: State, v: NodeId)
    requires Tallied(l, s) && Sees(dag, l, s) && l.ctrl <= dag.nodes.Keys
    ensures Tallied(l, Apply(dag, s, Read(v)))
  {
    var t := Apply(dag, s, Read(v));
    forall f | f in t.inflight
      ensures CountedBy(l, t, f)
    {
      if f in s.inflight {
        assert CountedBy(l, s, f);
      } else if v in l.ctrl {
        assert SeesOK(dag, l, s, v);
      }
    }
  }

  lemma ReportedTallied(dag: Dag, l: Loop, s: State, t: State, f: Flight, r: Outcome)
    requires r.Succeeded? && Tallied(l, s) && Reported(dag, l, s, t, f, r) && f.node != LOOP_STATE
    requires f.node in l.ctrl ==> IterationsOf(s, f.node) == s.passes
    requires forall g :: g in t.inflight && g.Running? ==> g in s.inflight && (f.node in l.ctrl ==> g.node !in l.ctrl)
    ensures Tallied(l, t)
  {
    forall g | g in t.inflight
      ensures CountedBy(l, t, g)
    {
      if g.Running? {
        assert CountedBy(l, s, g);
      }
    }
  }

  lemma ReceiveTallied(dag: Dag, l: Loop, s: State, f: Flight, r: Outcome)
    requires Ready(dag, l) && Steady(dag, l, s) && Tallied(l, s) && f in s.inflight && r.Succeeded?
    ensures Tallied(l, Receive(dag, s, f, r))
  {
    TypeOfController(dag, l, f.node);
    FlightNotCalm(l, dag, s, f);
    ReceiveReports(dag, l, s, f, r);
    ReceiveFlights(dag, l, s, f, r);
    OthersInFlight(l, s, Receive(dag, s, f, r), f);
    ReportedTallied(dag, l, s, Receive(dag, s, f, r), f, r);
  }

  lemma OthersInFlight(l: Loop, s: State, t: State, f: Flight)
    requires Airborne(l, s) && f in s.inflight && (forall c, d :: c in l.ctrl && d in l.ctrl ==> c == d)
    requires forall g :: g in t.inflight && g.Running? ==> g in s.inflight - multiset{f}
    ensures forall g :: g in t.inflight && g.Running? ==> g in s.inflight && (f.node in l.ctrl ==> g.node !in l.ctrl)
  {
    forall g | g in t.inflight && g.Running?
      ensures g in s.inflight && (f.node in l.ctrl ==> g.node !in l.ctrl)
    {
      OtherThanLanded(l, s, f, g);
    }
  }

  lemma OtherThanLanded(l: Loop, s: State, f: Flight, g: Flight)
    requires Airborne(l, s) && f in s.inflight && g in s.inflight - multiset{f}
    requires forall c, d :: c in l.ctrl && d in l.ctrl ==> c == d
    ensures f.node in l.ctrl ==> g.node !in l.ctrl
  {
    assert FlightOK(l, s, f);
    assert g != f;
  }

  // ---- How often the controller runs, and how it leaves ----

  /** What is known of the controller `c` after `steps`: how often it has run and how it left. */
  ghost predicate Course(dag: Dag, holds: Evaluator, steps: seq<Step>, s: State, c: NodeId)
  {
    RunsOK(Outs(steps, c), s, c) && Steered(dag, holds, Readings(steps, c), s, c)
  }

  lemma RoutesCourse(
    dag: Dag, l: Loop, holds: Evaluator, steps: seq<Step>, s: State, t: State, f: Flight, r: Outcome, c: NodeId)
    requires r.Succeeded? && f.Running? && f.node == c && Routes(dag, s, t, f, r, c)
    requires Course(dag, holds, steps, s, c) && c !in s.routed
    requires c in l.ctrl && CountedBy(l, s, f) && IterationsOf(s, c) == s.passes
    requires AnswersAs(dag, holds, c, Recv(f, r))
    ensures Course(dag, holds, steps + [Recv(f, r)], t, c)
  {
    OutsAppend(steps, Recv(f, r), c);
    ReadingsAppend(steps, Recv(f, r), c);
    Decides(dag, s, c, holds, f.inputs);
  }

  lemma BesideCourse(
    dag: Dag, holds: Evaluator, steps: seq<Step>, s: State, t: State, f: Flight, r: Outcome, c: NodeId)
    requires r.Succeeded? && Routes(dag, s, t, f, r, c) && Course(dag, holds, steps, s, c) && f.node != c
    ensures Course(dag, holds, steps + [Recv(f, r)], t, c)
  {
    OutsAppend(steps, Recv(f, r), c);
    ReadingsAppend(steps, Recv(f, r), c);
  }

  lemma ReceiveCourse(dag: Dag, l: Loop, holds: Evaluator, steps: seq<Step>, s: State, f: Flight, r: Outcome, c: NodeId)
    requires Ready(dag, l) && Steady(dag, l, s) && Tallied(l, s) && Course(dag, holds, steps, s, c) && c in l.ctrl
    requires f in s.inflight && f.Running? && r.Succeeded? && AnswersAs(dag, holds, c, Recv(f, r))
    ensures Course(dag, holds, steps + [Recv(f, r)], Receive(dag, s, f, r), c)
  {
    var t := Receive(dag, s, f, r);
    ControllerRecord(dag, l, s, f, r, c);
    assert CountedBy(l, s, f) && FlightOK(l, s, f);
    if f.node == c {
      RoutesCourse(dag, l, holds, steps, s, t, f, r, c);
    } else {
      BesideCourse(dag, holds, steps, s, t, f, r, c);
    }
  }

  /** What a run keeps as long as there is no error. */
  ghost predicate OnTrack(dag: Dag, l: Loop, holds: Evaluator, steps: seq<Step>, s: State, c: NodeId)
  {
    s.firstErr == None ==> Steady(dag, l, s) && Tallied(l, s) && Course(dag, holds, steps, s, c)
  }

  lemma SuccessOnTrack(dag: Dag, l: Loop, holds: Evaluator, steps: seq<Step>, s: State, x: Step, c: NodeId)
    requires Ready(dag, l) && c in l.ctrl && OnTrack(dag, l, holds, steps, s, c) && s.firstErr == None && Enabled(s, x)
    requires Succeeds(x) && AnswersAs(dag, holds, c, x)
    ensures OnTrack(dag, l, holds, steps + [x], Apply(dag, s, x), c)
  {
    StaysSteady(dag, l, s, x);
    match x
    case Read(v) =>
      ReadTallied(dag, l, s, v);
      OutsAppend(steps, x, c);
      ReadingsAppend(steps, x, c);
    case Recv(f, r) =>
      ReceiveTallied(dag, l, s, f, r);
      ReceiveCourse(dag, l, holds, steps, s, f, r, c);
  }

  lemma StepOnTrack(dag: Dag, l: Loop, holds: Evaluator, steps: seq<Step>, s: State, x: Step, c: NodeId)
    requires Ready(dag, l) && c in l.ctrl && OnTrack(dag, l, holds, steps, s, c) && Enabled(s, x)
    requires AnswersAs(dag, holds, c, x)
    ensures OnTrack(dag, l, holds, steps + [x], Apply(dag, s, x), c)
  {
    if s.firstErr != None {
      ApplyHalted(dag, s, x);
    } else if Succeeds(x) {
      SuccessOnTrack(dag, l, holds, steps, s, x, c);
    } else {
      FailureStays(dag, s, x.flight, x.outcome);
    }
  }

  lemma StartOnTrack(dag: Dag, l: Loop, holds: Evaluator, init: Data, c: NodeId)
    requires Ready(dag, l)
    ensures OnTrack(dag, l, holds, [], Start(dag, init), c)
  {
    StartIsSteady(dag, l, init);
    var s := Start(dag, init);
    forall f | f in s.inflight
      ensures CountedBy(l, s, f)
    {
    }
  }

  lemma {:induction false} RunOnTrack(dag: Dag, l: Loop, holds: Evaluator, init: Data, steps: seq<Step>, c: NodeId)
    requires Ready(dag, l) && c in l.ctrl && IsRun(dag, init, steps) && Shipped(dag, holds, c, steps)
    ensures OnTrack(dag, l, holds, steps, After(dag, init, steps), c)
  {
    if steps == [] {
      StartOnTrack(dag, l, holds, init, c);
    } else {
      LastStep(dag, init, steps);
      ShippedFront(dag, holds, c, steps);
      RunOnTrack(dag, l, holds, init, steps[..|steps| - 1], c);
      StepOnTrack(
        dag, l, holds, steps[..|steps| - 1], After(dag, init, steps[..|steps| - 1]), steps[|steps| - 1], c);
    }
  }

  lemma ShippedFront(dag: Dag, holds: Evaluator, c: NodeId, steps: seq<Step>)
    requires Shipped(dag, holds, c, steps) && steps != []
    ensures Shipped(dag, holds, c, steps[..|steps| - 1]) && AnswersAs(dag, holds, c, steps[|steps| - 1])
  {
    assert steps[|steps| - 1] in steps;
  }

  /** The loop was left after `s.passes` passes: the data of every execution before the last did not meet
      the exit condition, and the last one met it or was at the cap. */
  ghost predicate LeftInTime(dag: Dag, holds: Evaluator, seen: seq<Inputs>, s: State, c: NodeId)
    requires c in s.routed
  {
    var config, k, cap := dag.ConfigOf(c), s.passes, MaxIterations(dag.ConfigOf(c));
    && |seen| == k + 1 && k <= cap
    && (forall condition, i :: HasCondition(config, condition) && 0 <= i < k ==> holds(condition, seen[i]) == Ok(false))
    && (forall condition :: HasCondition(config, condition) && k < cap ==> holds(condition, seen[k]) == Ok(true))
    && ((forall condition :: !HasCondition(config, condition)) ==> k == cap)
    && s.routed[c] == map[
         "action" := Text("exit"),
         "iteration" := Int(k),
         "exit_reason" := Text(if k < cap then "condition" else "max_iterations")]
  }

  lemma SteeredInTime(dag: Dag, holds: Evaluator, seen: seq<Inputs>, s: State, c: NodeId)
    requires c in s.routed && Steered(dag, holds, seen, s, c) && s.passes <= MaxIterations(dag.ConfigOf(c))
    ensures LeftInTime(dag, holds, seen, s, c)
  {
  }

  /** The shipped controller. In every error-free run, finished or not, of every graph whose loop is
      well formed, labels in the body included, it has run at most `max_iterations` + 1 times. Once
      it has left the loop, the number of passes is the least `k` at which the exit condition
      holds of the data the controller read on its execution number `k` + 1, or `max_iterations`
      if there is none; it has said "exit", for which of the two reasons, and after how
      many passes; and the node behind an exit edge is dispatched, exactly once. */
  lemma LeavesByExit(dag: Dag, holds: Evaluator, init: Data, steps: seq<Step>, c: NodeId)
    requires Runnable(dag) && NoReservedIds(dag) && c in dag.Controllers() && IsRun(dag, init, steps)
    requires Shipped(dag, holds, c, steps) && After(dag, init, steps).firstErr == None
    ensures |Outs(steps, c)| <= MaxIterations(dag.ConfigOf(c)) + 1
    ensures var s := After(dag, init, steps);
      c in s.routed ==>
        && LeftInTime(dag, holds, Readings(steps, c), s, c) && |Outs(steps, c)| == s.passes + 1
        && forall v :: OnlyByExit(dag, c, v) ==> s.launched[v] == 1
  {
    RunnableReady(dag);
    var s := After(dag, init, steps);
    RunOnTrack(dag, LoopOf(dag), holds, init, steps, c);
    assert Steered(dag, holds, Readings(steps, c), s, c);
    RunKeeps(dag, LoopOf(dag), init, steps);
    if c in s.routed {
      SteeredInTime(dag, holds, Readings(steps, c), s, c);
      SaysExit(dag, holds, Readings(steps, c), s, c);
      AllExits(dag, init, steps, c);
    }
  }

  lemma SaysExit(dag: Dag, holds: Evaluator, seen: seq<Inputs>, s: State, c: NodeId)
    requires c in s.routed && LeftInTime(dag, holds, seen, s, c)
    ensures TextAt(s.routed[c], "action") == EXIT
  {
  }

  lemma AllExits(dag: Dag, init: Data, steps: seq<Step>, c: NodeId)
    requires Runnable(dag) && c in dag.Controllers() && IsRun(dag, init, steps) && c in After(dag, init, steps).routed
    requires TextAt(After(dag, init, steps).routed[c], "action") == EXIT
    ensures forall v :: OnlyByExit(dag, c, v) ==> After(dag, init, steps).launched[v] == 1
  {
    forall v | OnlyByExit(dag, c, v)
      ensures After(dag, init, steps).launched[v] == 1
    {
      ExitFires(dag, init, steps, c, v);
    }
  }

  // ---- A whole loop ----

  /** Once the loop is over, `outs`, the outputs of a body node, are at most one for every pass, and
      one for every pass if the node is sure to run. */
  predicate TotalOK(sure: bool, outs: seq<Data>, s: State)
  {
    s.firstErr == None && s.exited ==> |outs| <= s.passes && (sure ==> |outs| == s.passes)
  }

  lemma ReceiveTotal(dag: Dag, l: Loop, steps: seq<Step>, s: State, f: Flight, r: Outcome, c: NodeId, b: NodeId)
    requires Shape(dag, l) && IsoInv(dag, l, s) && CompletedOK(Outs(steps, b), s, b) && s.firstErr == None
    requires f in s.inflight && r.Succeeded? && c in l.ctrl && b in l.body
    requires TotalOK(Sure(dag, l.body, b), Outs(steps, b), s)
    ensures TotalOK(Sure(dag, l.body, b), Outs(steps + [Recv(f, r)], b), Receive(dag, s, f, r))
  {
    assert FlightOK(l, s, f);
    ControllerRecord(dag, l, s, f, r, c);
    OutsAppend(steps, Recv(f, r), b);
    if f.node == c {
      IsolatedNode(dag, l, s, c, b);
    }
  }

  lemma ApplyTotal(dag: Dag, l: Loop, steps: seq<Step>, s: State, x: Step, c: NodeId, b: NodeId)
    requires Shape(dag, l) && IsoInv(dag, l, s) && CompletedOK(Outs(steps, b), s, b) && Enabled(s, x)
    requires c in l.ctrl && b in l.body && TotalOK(Sure(dag, l.body, b), Outs(steps, b), s)
    ensures TotalOK(Sure(dag, l.body, b), Outs(steps + [x], b), Apply(dag, s, x))
  {
    if s.firstErr != None {
      ApplyHalted(dag, s, x);
    } else {
      match x
      case Read(v) => OutsAppend(steps, x, b);
      case Recv(f, r) =>
        if r.Succeeded? {
          ReceiveTotal(dag, l, steps, s, f, r, c, b);
        } else {
          FailureStays(dag, s, f, r);
        }
    }
  }

  lemma {:induction false} RunTotal(dag: Dag, l: Loop, init: Data, steps: seq<Step>, c: NodeId, b: NodeId)
    requires Shape(dag, l) && IsRun(dag, init, steps) && c in l.ctrl && b in l.body
    ensures TotalOK(Sure(dag, l.body, b), Outs(steps, b), After(dag, init, steps))
  {
    if steps != [] {
      LastStep(dag, init, steps);
      RunTotal(dag, l, init, steps[..|steps| - 1], c, b);
      NextTotal(dag, l, init, steps[..|steps| - 1], steps[|steps| - 1], c, b);
    }
  }

  lemma NextTotal(dag: Dag, l: Loop, init: Data, steps: seq<Step>, x: Step, c: NodeId, b: NodeId)
    requires Shape(dag, l) && IsRun(dag, init, steps) && Enabled(After(dag, init, steps), x)
    requires c in l.ctrl && b in l.body && TotalOK(Sure(dag, l.body, b), Outs(steps, b), After(dag, init, steps))
    ensures TotalOK(Sure(dag, l.body, b), Outs(steps + [x], b), Apply(dag, After(dag, init, steps), x))
  {
    RunTurns(dag, l, init, steps);
    RunCompleted(dag, l, init, steps, b);
    ApplyTotal(dag, l, steps, After(dag, init, steps), x, c, b);
  }

  /** A whole loop. When an error-free run with the shipped controller `c` comes to rest, and the loop
      is assured, then either `c` was skipped and never ran, or it left the loop with "exit" after
      `k` passes, `k` being the least at which the exit condition held of what the controller read,
      or `max_iterations`; `c` has run `k` + 1 times, every body node at most `k` times, every
      body node that is sure to run `k` times, and every node behind an exit edge once. */
  lemma LoopRunsItsCourse(dag: Dag, holds: Evaluator, init: Data, steps: seq<Step>, c: NodeId)
    requires Runnable(dag) && NoReservedIds(dag) && c in dag.Controllers() && Assured(dag, c)
    requires IsRun(dag, init, steps) && Shipped(dag, holds, c, steps)
    requires Quiescent(After(dag, init, steps)) && After(dag, init, steps).firstErr == None
    ensures var s := After(dag, init, steps);
      if c in s.routed then RanItsCourse(dag, holds, steps, s, c) else c in s.skipped && |Outs(steps, c)| == 0
  {
    RunnableReady(dag);
    var l, s := LoopOf(dag), After(dag, init, steps);
    LoopCompletes(dag, init, steps);
    RunOnTrack(dag, l, holds, init, steps, c);
    assert IsSettled(s, c);
    if c in s.routed {
      LeavesByExit(dag, holds, init, steps, c);
      RunLeft(dag, l, init, steps, c);
      AllTotals(dag, l, init, steps, c);
    }
  }

  lemma AllTotals(dag: Dag, l: Loop, init: Data, steps: seq<Step>, c: NodeId)
    requires Shape(dag, l) && IsRun(dag, init, steps) && c in l.ctrl
    ensures forall b :: b in l.body ==> TotalOK(Sure(dag, l.body, b), Outs(steps, b), After(dag, init, steps))
  {
    forall b | b in l.body
      ensures TotalOK(Sure(dag, l.body, b), Outs(steps, b), After(dag, init, steps))
    {
      RunTotal(dag, l, init, steps, c, b);
    }
  }

  /** The loop of `c` was run and left. */
  ghost predicate RanItsCourse(dag: Dag, holds: Evaluator, steps: seq<Step>, s: State, c: NodeId)
    requires c in s.routed
  {
    var k, body := s.passes, dag.BodyOf(c);
    && LeftInTime(dag, holds, Readings(steps, c), s, c) && |Outs(steps, c)| == k + 1
    && (forall b :: b in body ==> |Outs(steps, b)| <= k && (Sure(dag, body, b) ==> |Outs(steps, b)| == k))
    && (forall v :: OnlyByExit(dag, c, v) ==> s.launched[v] == 1)
  }
}
