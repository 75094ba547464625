/** Scoring an evaluation: verdicts of one case, the tally of a run, and the counts the
    browser keeps while results are still arriving. Pass rates are exact rationals. */
module Scoring {
  import opened Workflow

  datatype Verdict = Pass | Fail | Error

  /** A grader on a node's output or, without a node, on the final output of the workflow.
      An unavailable grader cannot be built. */
  datatype Grader = Grader(node: Option<NodeId>, available: bool, grade: Data -> Verdict)

  datatype NodeEvent = NodeSucceeded(node: NodeId, output: Data) | OtherEvent(tag: nat)

  /** How the workflow run of a case went: it could not start, its record could not be read,
      or it ended with a status and a final output. `events` is what its channel delivered. */
  datatype Execution =
    | NotStarted
    | Unreadable(events: seq<NodeEvent>)
    | Ended(failed: bool, output: Data, events: seq<NodeEvent>)

  /** The part of a stored result that scoring looks at. */
  datatype CaseResult = CaseResult(workflowFailed: bool, verdicts: seq<Verdict>, passed: bool)

  datatype Outcome = Outcome(passed: bool, isErr: bool)

  // ---- Verdicts of one case ----

  function Passes(verdicts: seq<Verdict>): nat
  {
    multiset(verdicts)[Pass]
  }

  function Evaluable(verdicts: seq<Verdict>): nat
  {
    |verdicts| - multiset(verdicts)[Error]
  }

  predicate Errored(runFailed: bool, verdicts: seq<Verdict>)
  {
    runFailed || (|verdicts| > 0 && Evaluable(verdicts) == 0)
  }

  predicate CasePasses(runFailed: bool, verdicts: seq<Verdict>, threshold: real)
  {
    !Errored(runFailed, verdicts) &&
    (verdicts == [] || Passes(verdicts) as real / Evaluable(verdicts) as real >= threshold)
  }

  lemma Inserted(a: seq<Verdict>, v: Verdict, b: seq<Verdict>)
    ensures multiset(a + [v] + b) == multiset(a + b) + multiset{v}
  {
  }

  lemma AllErrors(verdicts: seq<Verdict>)
    ensures Evaluable(verdicts) == 0 <==> forall i :: 0 <= i < |verdicts| ==> verdicts[i] == Error
  {
    if verdicts != [] {
      var front, last := verdicts[..|verdicts| - 1], verdicts[|verdicts| - 1];
      assert verdicts == front + [last];
      AllErrors(front);
    }
  }

  /** A grader that errors, wherever it stands, changes nothing about a case, if and only if
      the case has another grader or its run failed; a case without graders passes as a smoke
      test until its only grader errors. */
  lemma ErrorIsNeutral(runFailed: bool, a: seq<Verdict>, b: seq<Verdict>, threshold: real)
    ensures
      && Errored(runFailed, a + [Error] + b) == Errored(runFailed, a + b)
      && CasePasses(runFailed, a + [Error] + b, threshold) == CasePasses(runFailed, a + b, threshold)
      <==> runFailed || a + b != []
  {
    Inserted(a, Error, b);
  }

  lemma RateRises(p: nat, q: nat, e: nat)
    requires e > 0 && p <= q
    ensures p as real / e as real <= q as real / e as real
  {
    var x, y, d := p as real, q as real, e as real;
    assert y / d - x / d == (y - x) / d;
  }

  /** Turning a failing verdict into a passing one never loses a pass, and never makes or
      unmakes an error. */
  lemma PassIsMonotone(runFailed: bool, a: seq<Verdict>, b: seq<Verdict>, threshold: real)
    ensures Errored(runFailed, a + [Pass] + b) == Errored(runFailed, a + [Fail] + b)
    ensures CasePasses(runFailed, a + [Fail] + b, threshold) ==> CasePasses(runFailed, a + [Pass] + b, threshold)
  {
    Inserted(a, Fail, b);
    Inserted(a, Pass, b);
    var before, after := a + [Fail] + b, a + [Pass] + b;
    if Evaluable(before) > 0 {
      RateRises(Passes(before), Passes(after), Evaluable(before));
    }
  }

  // ---- Executing a case ----

  /** The output of the last success of a node, if it is to be captured. */
  function Captured(events: seq<NodeEvent>, wanted: set<NodeId>, id: NodeId): Option<Data>
  {
    if events == [] then None
    else
      match events[|events| - 1]
      case NodeSucceeded(n, output) =>
        if n == id && n in wanted then Some(output) else Captured(events[..|events| - 1], wanted, id)
      case OtherEvent(_) => Captured(events[..|events| - 1], wanted, id)
  }

  method Drain(events: seq<NodeEvent>, wanted: set<NodeId>) returns (outputs: map<NodeId, Data>)
    ensures forall id :: (if id in outputs then Some(outputs[id]) else None) == Captured(events, wanted, id)
  {
    outputs := map[];
    for i := 0 to |events|
      invariant forall id :: (if id in outputs then Some(outputs[id]) else None) == Captured(events[..i], wanted, id)
    {
      assert events[..i + 1][..i] == events[..i];
      match events[i] {
        case NodeSucceeded(n, output) =>
          if n in wanted {
            outputs := outputs[n := output];
          }
        case OtherEvent(_) =>
      }
    }
    assert events[..|events|] == events;
  }

  function Wanted(graders: seq<Grader>): set<NodeId>
  {
    set i | 0 <= i < |graders| && graders[i].node.Some? :: graders[i].node.value
  }

  /** A grader errs when it has nothing to look at or cannot be built. */
  function VerdictOf(g: Grader, graders: seq<Grader>, run: Execution): Verdict
    requires run.Ended?
  {
    match g.node
    case Some(id) =>
      (match Captured(run.events, Wanted(graders), id)
       case None => Error
       case Some(data) => if g.available then g.grade(data) else Error)
    case None => if run.failed || !g.available then Error else g.grade(run.output)
  }

  predicate RunFailed(run: Execution)
  {
    !run.Ended? || run.failed
  }

  function Verdicts(graders: seq<Grader>, run: Execution): seq<Verdict>
  {
    if run.Ended? then seq(|graders|, i requires 0 <= i < |graders| => VerdictOf(graders[i], graders, run))
    else seq(|graders|, _ => Error)
  }

  function ResultOf(graders: seq<Grader>, run: Execution, threshold: real): CaseResult
  {
    CaseResult(RunFailed(run), Verdicts(graders, run), CasePasses(RunFailed(run), Verdicts(graders, run), threshold))
  }

  function OutcomeOf(r: CaseResult): Outcome
  {
    Outcome(r.passed, Errored(r.workflowFailed, r.verdicts))
  }

  // ---- What the result of a case means ----

  /** Event `k` is the last success of node `id`. */
  predicate LastSuccess(events: seq<NodeEvent>, id: NodeId, k: nat)
  {
    && k < |events| && events[k].NodeSucceeded? && events[k].node == id
    && forall j :: k < j < |events| ==> !(events[j].NodeSucceeded? && events[j].node == id)
  }

  lemma {:induction false} CapturedIsLast(events: seq<NodeEvent>, wanted: set<NodeId>, id: NodeId)
    requires id in wanted
    ensures Captured(events, wanted, id) == None <==> forall k: nat :: !LastSuccess(events, id, k)
    ensures forall k: nat :: LastSuccess(events, id, k) ==> Captured(events, wanted, id) == Some(events[k].output)
  {
    if events != [] {
      var front, last := events[..|events| - 1], events[|events| - 1];
      CapturedIsLast(front, wanted, id);
      if last.NodeSucceeded? && last.node == id {
        assert LastSuccess(events, id, |events| - 1);
      } else {
        assert forall k: nat :: k < |front| ==> front[k] == events[k];
        forall k: nat
          ensures LastSuccess(events, id, k) <==> LastSuccess(front, id, k)
        {
        }
      }
    }
  }

  /** What the verdict of a grader on a run that ended comes from: the grade of the last output of its node or,
      without a node, of the final output of a run that did not fail; an error when there is
      nothing to grade or no grader. */
  ghost predicate VerdictMeans(g: Grader, run: Execution, verdict: Verdict)
    requires run.Ended?
  {
    match g.node
    case Some(id) =>
      && (forall k: nat :: LastSuccess(run.events, id, k) && g.available ==> verdict == g.grade(run.events[k].output))
      && ((forall k: nat :: !LastSuccess(run.events, id, k)) || !g.available ==> verdict == Error)
    case None => verdict == if run.failed || !g.available then Error else g.grade(run.output)
  }

  lemma VerdictHasMeaning(graders: seq<Grader>, i: nat, run: Execution)
    requires run.Ended? && i < |graders|
    ensures VerdictMeans(graders[i], run, VerdictOf(graders[i], graders, run))
  {
    match graders[i].node
    case Some(id) => CapturedIsLast(run.events, Wanted(graders), id);
    case None =>
  }

  /** The positions of one verdict. */
  ghost function Positions(verdicts: seq<Verdict>, v: Verdict): set<nat>
  {
    set i | 0 <= i < |verdicts| && verdicts[i] == v
  }

  lemma {:induction false} PositionsCount(verdicts: seq<Verdict>, v: Verdict)
    ensures |Positions(verdicts, v)| == multiset(verdicts)[v]
  {
    if verdicts != [] {
      var front, last := verdicts[..|verdicts| - 1], verdicts[|verdicts| - 1];
      assert verdicts == front + [last];
      PositionsCount(front, v);
      assert Positions(verdicts, v) == Positions(front, v) + if last == v then {|front|} else {};
    }
  }

  /** How many graders gave a verdict other than an error. */
  ghost function Judged(verdicts: seq<Verdict>): nat
  {
    |Positions(verdicts, Pass)| + |Positions(verdicts, Fail)|
  }

  lemma {:induction false} JudgedCount(verdicts: seq<Verdict>)
    ensures Judged(verdicts) == Evaluable(verdicts)
  {
    PositionsCount(verdicts, Pass);
    PositionsCount(verdicts, Fail);
    VerdictsAdd(verdicts);
  }

  lemma {:induction false} VerdictsAdd(verdicts: seq<Verdict>)
    ensures multiset(verdicts)[Pass] + multiset(verdicts)[Fail] + multiset(verdicts)[Error] == |verdicts|
  {
    if verdicts != [] {
      var front, last := verdicts[..|verdicts| - 1], verdicts[|verdicts| - 1];
      assert verdicts == front + [last];
      VerdictsAdd(front);
      assert last == Pass || last == Fail || last == Error;
    }
  }

  /** The result of a case in terms of its verdicts, position by position. A run that did not end, or that
      failed, is an error; so is a case all of whose graders err. Otherwise a case without graders
      passes, and one with graders exactly if the passes are at least the threshold's share of
      the verdicts that are no errors. */
  ghost predicate ScoredRight(graders: seq<Grader>, run: Execution, threshold: real, r: CaseResult, isErr: bool)
  {
    && |r.verdicts| == |graders| && r.workflowFailed == (!run.Ended? || run.failed)
    && (forall i :: 0 <= i < |graders| ==>
          if run.Ended? then VerdictMeans(graders[i], run, r.verdicts[i]) else r.verdicts[i] == Error)
    && (isErr <==>
        r.workflowFailed || (graders != [] && forall i :: 0 <= i < |graders| ==> r.verdicts[i] == Error))
    && (isErr ==> !r.passed)
    && (!isErr && graders == [] ==> r.passed)
    && (!isErr && graders != [] ==>
          (r.passed <==> |Positions(r.verdicts, Pass)| as real >= threshold * Judged(r.verdicts) as real))
    && (!isErr && threshold <= 1.0 && |Positions(r.verdicts, Fail)| == 0 ==> r.passed)
  }

  lemma RateAtLeast(p: nat, n: nat, threshold: real)
    requires n > 0
    ensures p as real / n as real >= threshold <==> p as real >= threshold * n as real
  {
    var x, y := p as real, n as real;
    assert x / y * y == x;
    if x / y >= threshold {
      assert (x / y - threshold) * y >= 0.0;
    } else {
      assert (threshold - x / y) * y > 0.0;
    }
  }

  lemma AllPassMeet(p: nat, n: nat, threshold: real)
    requires p == n && threshold <= 1.0
    ensures p as real >= threshold * n as real
  {
    assert (1.0 - threshold) * n as real >= 0.0;
  }

  lemma RateDecides(verdicts: seq<Verdict>, threshold: real)
    requires Evaluable(verdicts) > 0
    ensures CasePasses(false, verdicts, threshold) <==>
      |Positions(verdicts, Pass)| as real >= threshold * Judged(verdicts) as real
    ensures threshold <= 1.0 && |Positions(verdicts, Fail)| == 0 ==> CasePasses(false, verdicts, threshold)
  {
    var p, n := |Positions(verdicts, Pass)|, Judged(verdicts);
    PositionsCount(verdicts, Pass);
    JudgedCount(verdicts);
    RateAtLeast(p, n, threshold);
    assert CasePasses(false, verdicts, threshold) <==> p as real / n as real >= threshold;
    if threshold <= 1.0 && p == n {
      AllPassMeet(p, n, threshold);
    }
  }

  lemma ResultIsRight(graders: seq<Grader>, run: Execution, threshold: real)
    ensures var r := ResultOf(graders, run, threshold);
      ScoredRight(graders, run, threshold, r, OutcomeOf(r).isErr)
  {
    var verdicts := Verdicts(graders, run);
    forall i | 0 <= i < |graders| && run.Ended?
      ensures VerdictMeans(graders[i], run, verdicts[i])
    {
      VerdictHasMeaning(graders, i, run);
    }
    AllErrors(verdicts);
    if Evaluable(verdicts) > 0 {
      RateDecides(verdicts, threshold);
    }
  }

  method EvaluateGraders(graders: seq<Grader>, run: Execution) returns (verdicts: seq<Verdict>, passCount: nat)
    requires run.Ended?
    ensures verdicts == Verdicts(graders, run) && passCount == Passes(verdicts)
  {
    var outputs := Drain(run.events, Wanted(graders));
    verdicts, passCount := [], 0;
    for i := 0 to |graders|
      invariant |verdicts| == i && passCount == Passes(verdicts)
      invariant forall j :: 0 <= j < i ==> verdicts[j] == VerdictOf(graders[j], graders, run)
    {
      var g := graders[i];
      var verdict := Error;
      if g.node.Some? {
        assert (if g.node.value in outputs then Some(outputs[g.node.value]) else None) ==
          Captured(run.events, Wanted(graders), g.node.value);
        if g.node.value in outputs && g.available {
          verdict := g.grade(outputs[g.node.value]);
        }
      } else if !run.failed && g.available {
        verdict := g.grade(run.output);
      }
      if verdict == Pass {
        passCount := passCount + 1;
      }
      verdicts := verdicts + [verdict];
    }
  }

  method CountErrors(verdicts: seq<Verdict>) returns (errors: nat)
    ensures errors == multiset(verdicts)[Error] <= |verdicts|
  {
    errors := 0;
    for i := 0 to |verdicts|
      invariant errors == multiset(verdicts[..i])[Error] <= i
    {
      assert verdicts[..i + 1] == verdicts[..i] + [verdicts[i]];
      if verdicts[i] == Error {
        errors := errors + 1;
      }
    }
    assert verdicts[..|verdicts|] == verdicts;
  }

  method ExecuteTestCase(graders: seq<Grader>, run: Execution, threshold: real)
    returns (result: CaseResult, passed: bool, isErr: bool)
    ensures result == ResultOf(graders, run, threshold) && Outcome(passed, isErr) == OutcomeOf(result)
    ensures ScoredRight(graders, run, threshold, result, isErr) && result.passed == passed
  {
    if !run.Ended? {
      ResultIsRight(graders, run, threshold);
      return CaseResult(true, seq(|graders|, _ => Error), false), false, true;
    }
    var verdicts, passCount := EvaluateGraders(graders, run);
    var errors := CountErrors(verdicts);
    var evaluable := |verdicts| - errors;
    isErr := run.failed || (|graders| > 0 && evaluable == 0);
    passed := false;
    if !isErr {
      passed := |graders| == 0 || passCount as real / evaluable as real >= threshold;
    }
    result := CaseResult(run.failed, verdicts, passed);
    assert result == ResultOf(graders, run, threshold) && isErr == OutcomeOf(result).isErr;
    ResultIsRight(graders, run, threshold);
  }

  // ---- The tally ----

  function CountIf<T>(s: seq<T>, p: T -> bool): nat
  {
    if s == [] then 0 else CountIf(s[..|s| - 1], p) + if p(s[|s| - 1]) then 1 else 0
  }

  ghost function Where<T(!new)>(s: seq<T>, p: T -> bool): set<nat>
  {
    set i | 0 <= i < |s| && p(s[i])
  }

  lemma {:induction false} CountIsWhere<T(!new)>(s: seq<T>, p: T -> bool)
    ensures CountIf(s, p) == |Where(s, p)|
  {
    if s != [] {
      var front, last := s[..|s| - 1], s[|s| - 1];
      CountIsWhere(front, p);
      assert Where(s, p) == Where(front, p) + if p(last) then {|front|} else {};
    }
  }

  /** The three counts, as numbers of positions. */
  lemma CountsPositions(s: seq<Outcome>)
    ensures CountIf(s, (o: Outcome) => o.isErr) == |set i | 0 <= i < |s| && s[i].isErr|
    ensures CountIf(s, (o: Outcome) => !o.isErr && o.passed) == |set i | 0 <= i < |s| && !s[i].isErr && s[i].passed|
    ensures CountIf(s, (o: Outcome) => !o.isErr && !o.passed) == |set i | 0 <= i < |s| && !s[i].isErr && !s[i].passed|
  {
    CountIsWhere(s, (o: Outcome) => o.isErr);
    CountIsWhere(s, (o: Outcome) => !o.isErr && o.passed);
    CountIsWhere(s, (o: Outcome) => !o.isErr && !o.passed);
    assert (set i | 0 <= i < |s| && s[i].isErr) == Where(s, (o: Outcome) => o.isErr);
    assert (set i | 0 <= i < |s| && !s[i].isErr && s[i].passed) == Where(s, (o: Outcome) => !o.isErr && o.passed);
    assert (set i | 0 <= i < |s| && !s[i].isErr && !s[i].passed) == Where(s, (o: Outcome) => !o.isErr && !o.passed);
  }

  datatype Counts = Counts(passed: nat, failed: nat, errors: nat)

  /** Every case is counted once: as an error, else as passed, else as failed. */
  method Tally(outcomes: array<Outcome>) returns (c: Counts)
    ensures c.passed + c.failed + c.errors == outcomes.Length
    ensures c.errors == CountIf(outcomes[..], (o: Outcome) => o.isErr)
    ensures c.passed == CountIf(outcomes[..], (o: Outcome) => !o.isErr && o.passed)
    ensures c.failed == CountIf(outcomes[..], (o: Outcome) => !o.isErr && !o.passed)
    ensures var s := outcomes[..];
      && c.errors == |set i | 0 <= i < |s| && s[i].isErr|
      && c.passed == |set i | 0 <= i < |s| && !s[i].isErr && s[i].passed|
      && c.failed == |set i | 0 <= i < |s| && !s[i].isErr && !s[i].passed|
  {
    var passed, failed, errors := 0, 0, 0;
    for i := 0 to outcomes.Length
      invariant passed + failed + errors == i
      invariant errors == CountIf(outcomes[..i], (o: Outcome) => o.isErr)
      invariant passed == CountIf(outcomes[..i], (o: Outcome) => !o.isErr && o.passed)
      invariant failed == CountIf(outcomes[..i], (o: Outcome) => !o.isErr && !o.passed)
    {
      assert outcomes[..i + 1][..i] == outcomes[..i];
      if outcomes[i].isErr {
        errors := errors + 1;
      } else if outcomes[i].passed {
        passed := passed + 1;
      } else {
        failed := failed + 1;
      }
    }
    assert outcomes[..outcomes.Length] == outcomes[..];
    CountsPositions(outcomes[..]);
    return Counts(passed, failed, errors);
  }

  datatype TestCase = TestCase(graders: seq<Grader>, run: Execution)

  /** One case, as the goroutine that fills its slot runs it. */
  method RunCase(test: TestCase, threshold: real) returns (result: CaseResult, outcome: Outcome)
    ensures result == ResultOf(test.graders, test.run, threshold) && outcome == OutcomeOf(result)
  {
    var passed, isErr;
    result, passed, isErr := ExecuteTestCase(test.graders, test.run, threshold);
    outcome := Outcome(passed, isErr);
  }

  /** Runs every case, fills its slot of the outcome array, and tallies. */
  method RunCases(cases: seq<TestCase>, threshold: real) returns (results: seq<CaseResult>, c: Counts)
    ensures |results| == |cases|
    ensures forall i :: 0 <= i < |cases| ==>
      results[i] == ResultOf(cases[i].graders, cases[i].run, threshold)
    ensures c == TallyOf(results) && c.passed + c.failed + c.errors == |cases|
    ensures FromCases(results)
    ensures forall i :: 0 <= i < |cases| ==>
      ScoredRight(cases[i].graders, cases[i].run, threshold, results[i], IsLiveError(results[i]))
    ensures c.passed == |set i | 0 <= i < |results| && results[i].passed|
    ensures c.errors == |set i | 0 <= i < |results| && IsLiveError(results[i])|
  {
    var outcomes := new Outcome[|cases|](_ => Outcome(false, false));
    results := [];
    for i := 0 to |cases|
      invariant |results| == i
      invariant forall j :: 0 <= j < i ==>
        results[j] == ResultOf(cases[j].graders, cases[j].run, threshold)
      invariant forall j :: 0 <= j < i ==> outcomes[j] == OutcomeOf(results[j])
    {
      var result, outcome := RunCase(cases[i], threshold);
      outcomes[i] := outcome;
      results := results + [result];
    }
    c := Tally(outcomes);
    CountThrough(results, outcomes[..], (o: Outcome) => o.isErr);
    CountThrough(results, outcomes[..], (o: Outcome) => !o.isErr && o.passed);
    CountThrough(results, outcomes[..], (o: Outcome) => !o.isErr && !o.passed);
    ResultsFromCases(cases, results, threshold);
    TallyPositions(results);
  }

  lemma TallyPositions(results: seq<CaseResult>)
    requires FromCases(results)
    ensures TallyOf(results).passed == |set i | 0 <= i < |results| && results[i].passed|
    ensures TallyOf(results).errors == |set i | 0 <= i < |results| && IsLiveError(results[i])|
  {
    LiveIsTally(results);
    CountIsWhere(results, (r: CaseResult) => r.passed);
    CountIsWhere(results, IsLiveError);
    assert (set i | 0 <= i < |results| && results[i].passed) == Where(results, (r: CaseResult) => r.passed);
    assert (set i | 0 <= i < |results| && IsLiveError(results[i])) == Where(results, IsLiveError);
  }

  lemma ResultsFromCases(cases: seq<TestCase>, results: seq<CaseResult>, threshold: real)
    requires |results| == |cases|
    requires forall i :: 0 <= i < |cases| ==>
      results[i] == ResultOf(cases[i].graders, cases[i].run, threshold)
    ensures FromCases(results)
    ensures forall i :: 0 <= i < |cases| ==>
      ScoredRight(cases[i].graders, cases[i].run, threshold, results[i], IsLiveError(results[i]))
  {
    forall i | 0 <= i < |cases|
      ensures ScoredRight(cases[i].graders, cases[i].run, threshold, results[i], IsLiveError(results[i]))
    {
      ResultIsRight(cases[i].graders, cases[i].run, threshold);
      LiveErrorAgrees(cases[i].graders, cases[i].run, threshold);
    }
    forall r | r in results
      ensures IsLiveError(r) == OutcomeOf(r).isErr && !(r.passed && IsLiveError(r))
    {
      var i :| 0 <= i < |results| && results[i] == r;
      LiveErrorAgrees(cases[i].graders, cases[i].run, threshold);
    }
  }

  ghost function TallyOf(results: seq<CaseResult>): Counts
  {
    Counts(
      CountOutcomes(results, (o: Outcome) => !o.isErr && o.passed),
      CountOutcomes(results, (o: Outcome) => !o.isErr && !o.passed),
      CountOutcomes(results, (o: Outcome) => o.isErr))
  }

  function CountOutcomes(results: seq<CaseResult>, p: Outcome -> bool): nat
  {
    CountIf(results, (r: CaseResult) => p(OutcomeOf(r)))
  }

  lemma {:induction false} CountThrough(results: seq<CaseResult>, outcomes: seq<Outcome>, p: Outcome -> bool)
    requires |results| == |outcomes| && forall i :: 0 <= i < |results| ==> outcomes[i] == OutcomeOf(results[i])
    ensures CountIf(outcomes, p) == CountOutcomes(results, p)
  {
    if results != [] {
      CountThrough(results[..|results| - 1], outcomes[..|outcomes| - 1], p);
    }
  }

  // ---- The browser ----

  predicate IsLiveError(r: CaseResult)
  {
    r.workflowFailed || (|r.verdicts| > 0 && forall i :: 0 <= i < |r.verdicts| ==> r.verdicts[i] == Error)
  }

  function LiveCounts(live: seq<CaseResult>): Counts
  {
    var passed, errors := CountIf(live, (r: CaseResult) => r.passed), CountIf(live, IsLiveError);
    Counts(passed, if |live| >= passed + errors then |live| - passed - errors else 0, errors)
  }

  lemma {:induction false} CountWithout<T>(s: seq<T>, i: nat, p: T -> bool)
    requires i < |s|
    ensures CountIf(s, p) == CountIf(s[..i] + s[i + 1..], p) + if p(s[i]) then 1 else 0
    ensures multiset(s) == multiset(s[..i] + s[i + 1..]) + multiset{s[i]}
  {
    var last := |s| - 1;
    assert s == s[..i] + [s[i]] + s[i + 1..];
    if i < last {
      var front := s[..last];
      CountWithout(front, i, p);
      assert (s[..i] + s[i + 1..])[..last - 1] == front[..i] + front[i + 1..];
    } else {
      assert s[..i] + s[i + 1..] == s[..last];
    }
  }

  /** A count over part of some elements, in whatever order, is at most the count over all. */
  lemma {:induction false} CountAtMost<T>(part: seq<T>, all: seq<T>, p: T -> bool)
    requires multiset(part) <= multiset(all)
    ensures CountIf(part, p) <= CountIf(all, p)
  {
    if part != [] {
      var front, last := part[..|part| - 1], part[|part| - 1];
      assert part == front + [last];
      assert last in multiset(all);
      var i :| 0 <= i < |all| && all[i] == last;
      CountWithout(all, i, p);
      var rest := all[..i] + all[i + 1..];
      assert multiset(part) == multiset(front) + multiset{last} && multiset(all) == multiset(rest) + multiset{last};
      forall x
        ensures multiset(front)[x] <= multiset(rest)[x]
      {
        assert multiset(part)[x] <= multiset(all)[x];
      }
      CountAtMost(front, rest, p);
    }
  }

  lemma {:induction false} CountsAdd<T>(s: seq<T>, p: T -> bool, q: T -> bool, r: T -> bool)
    requires forall x :: x in s ==> (p(x) && !q(x) && !r(x)) || (!p(x) && q(x) && !r(x)) || (!p(x) && !q(x) && r(x))
    ensures CountIf(s, p) + CountIf(s, q) + CountIf(s, r) == |s|
  {
    if s != [] {
      CountsAdd(s[..|s| - 1], p, q, r);
    }
  }

  lemma {:induction false} CountSame<T>(s: seq<T>, p: T -> bool, q: T -> bool)
    requires forall x :: x in s ==> p(x) == q(x)
    ensures CountIf(s, p) == CountIf(s, q)
  {
    if s != [] {
      CountSame(s[..|s| - 1], p, q);
    }
  }

  /** A result never passes and errs at once, and the browser tells errors as the server does. */
  lemma LiveErrorAgrees(graders: seq<Grader>, run: Execution, threshold: real)
    ensures var r := ResultOf(graders, run, threshold);
      IsLiveError(r) == OutcomeOf(r).isErr && !(r.passed && IsLiveError(r))
  {
    AllErrors(Verdicts(graders, run));
  }

  ghost predicate FromCases(results: seq<CaseResult>)
  {
    forall r :: r in results ==> IsLiveError(r) == OutcomeOf(r).isErr && !(r.passed && IsLiveError(r))
  }

  /** The browser's counts are the server's tally of the results it has received. */
  lemma LiveIsTally(live: seq<CaseResult>)
    requires FromCases(live)
    ensures LiveCounts(live) == TallyOf(live)
  {
    CountSame(live, IsLiveError, (r: CaseResult) => ((o: Outcome) => o.isErr)(OutcomeOf(r)));
    CountSame(live, (r: CaseResult) => r.passed,
      (r: CaseResult) => ((o: Outcome) => !o.isErr && o.passed)(OutcomeOf(r)));
    CountsAdd(live, (r: CaseResult) => r.passed, IsLiveError,
      (r: CaseResult) => ((o: Outcome) => !o.isErr && !o.passed)(OutcomeOf(r)));
  }

  /** Results may arrive in any order and some may be missing: the live counts never exceed
      the server's tally, and equal it once every result has arrived. */
  lemma LiveCountsAgree(results: seq<CaseResult>, live: seq<CaseResult>)
    requires FromCases(results) && multiset(live) <= multiset(results)
    ensures var shown, tally := LiveCounts(live), TallyOf(results);
      && shown.passed <= tally.passed && shown.failed <= tally.failed && shown.errors <= tally.errors
      && (multiset(live) == multiset(results) ==> shown == tally)
  {
    forall r | r in live
      ensures r in results
    {
      assert r in multiset(live);
    }
    LiveIsTally(live);
    ghost var passed := (r: CaseResult) => ((o: Outcome) => !o.isErr && o.passed)(OutcomeOf(r));
    ghost var failed := (r: CaseResult) => ((o: Outcome) => !o.isErr && !o.passed)(OutcomeOf(r));
    ghost var errors := (r: CaseResult) => ((o: Outcome) => o.isErr)(OutcomeOf(r));
    CountAtMost(live, results, passed);
    CountAtMost(live, results, failed);
    CountAtMost(live, results, errors);
    if multiset(live) == multiset(results) {
      CountAtMost(results, live, passed);
      CountAtMost(results, live, failed);
      CountAtMost(results, live, errors);
    }
  }
}
