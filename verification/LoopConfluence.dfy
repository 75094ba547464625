/** The order in which results arrive is irrelevant, with loops: once one complete run of a
    workflow with deterministic handlers has no error, no run has, and all complete runs end in
    the same state. */
module LoopConfluence {
  import opened Workflow
  import opened DagModel
  import opened Scheduler
  import opened SchedulerInvariant
  import opened LoopBound
  import opened Completion
  import opened Sequential
  import opened Confluence
  import opened StepsCommute

  /** The result brought by a step is what the handlers answer. */
  predicate Honest(h: Handler, x: Step)
  {
    x.Recv? && x.flight.Running? ==> x.outcome == h(x.flight.node, x.flight.inputs)
  }

  /** `steps` leads from `s` to the end of the run, in `t`. */
  ghost predicate Completes(dag: Dag, h: Handler, s: State, steps: seq<Step>, t: State)
    decreases |steps|
  {
    if steps == [] then Quiescent(s) && t == s
    else Enabled(s, steps[0]) && Honest(h, steps[0]) && Completes(dag, h, Apply(dag, s, steps[0]), steps[1..], t)
  }

  lemma {:induction false} ErrorStays(dag: Dag, h: Handler, s: State, steps: seq<Step>, t: State)
    requires Completes(dag, h, s, steps, t) && s.firstErr != None
    ensures t.firstErr != None
    decreases |steps|
  {
    if steps != [] {
      ApplyHalted(dag, s, steps[0]);
      ErrorStays(dag, h, Apply(dag, s, steps[0]), steps[1..], t);
    }
  }

  // ---- One step off a complete run ----

  /** An honest step either fails, which leaves an error, or keeps `ok`. */
  ghost predicate KeepsAt(dag: Dag, h: Handler, ok: State -> bool, s: State, x: Step)
  {
    ok(s) && Enabled(s, x) && Honest(h, x) ==>
      if Succeeds(x) then ok(Apply(dag, s, x)) else Apply(dag, s, x).firstErr != None
  }

  /** A successful honest step does not get in the way of another one, and commutes with it if that succeeds too. */
  ghost predicate CrossesAt(dag: Dag, h: Handler, ok: State -> bool, s: State, x: Step, y: Step)
  {
    ok(s) && Enabled(s, x) && Enabled(s, y) && Honest(h, x) && Honest(h, y) && Succeeds(y) && x != y ==>
      && Enabled(Apply(dag, s, y), x)
      && (Succeeds(x) ==>
            Enabled(Apply(dag, s, x), y) && Apply(dag, Apply(dag, s, x), y) == Apply(dag, Apply(dag, s, y), x))
  }

  /** A property of states under which honest steps that succeed commute, and which they keep. */
  ghost predicate Diamonds(dag: Dag, h: Handler, ok: State -> bool)
  {
    && (forall s, x {:trigger KeepsAt(dag, h, ok, s, x)} :: KeepsAt(dag, h, ok, s, x))
    && (forall s, x, y {:trigger CrossesAt(dag, h, ok, s, x, y)} :: CrossesAt(dag, h, ok, s, x, y))
  }

  /** If a complete error-free run starts with other steps, taking `x` first costs nothing: a
      complete run that is one step shorter leads to the same end. */
  lemma {:induction false} Strip(dag: Dag, h: Handler, ok: State -> bool, s: State, steps: seq<Step>, t: State, x: Step)
    returns (more: seq<Step>)
    requires Diamonds(dag, h, ok) && ok(s) && Completes(dag, h, s, steps, t) && t.firstErr == None
    requires Enabled(s, x) && Honest(h, x)
    ensures |steps| == |more| + 1 && Completes(dag, h, Apply(dag, s, x), more, t) && Succeeds(x)
    decreases |steps|
  {
    var y := steps[0];
    var sy := Apply(dag, s, y);
    assert KeepsAt(dag, h, ok, s, y) && CrossesAt(dag, h, ok, s, x, y);
    if !Succeeds(y) {
      ErrorStays(dag, h, sy, steps[1..], t);
    }
    if x == y {
      more := steps[1..];
    } else {
      var rest := Strip(dag, h, ok, sy, steps[1..], t, x);
      more := [y] + rest;
      assert more[1..] == rest;
    }
  }

  /** Steps of different flights are independent; honest steps of the same flight are the same. */
  lemma HonestIndependent(h: Handler, s: State, x: Step, y: Step)
    requires Enabled(s, x) && Enabled(s, y) && Honest(h, x) && Honest(h, y) && x != y
    ensures Independent(x, y)
  {
  }

  lemma StaysEnabled(dag: Dag, l: Loop, s: State, x: Step, y: Step)
    requires Ready(dag, l) && Steady(dag, l, s) && Enabled(s, x) && Enabled(s, y) && Succeeds(y) && Independent(x, y)
    ensures Enabled(Apply(dag, s, y), x)
  {
    match x
    case Read(_) => Commutes(dag, l, s, x, y);
    case Recv(f, _) => Commutes(dag, l, s, Recv(f, Succeeded(map[], map[])), y);
  }

  lemma SteadyDiamonds(dag: Dag, l: Loop, h: Handler)
    requires Ready(dag, l)
    ensures Diamonds(dag, h, s => Steady(dag, l, s))
  {
    ghost var ok := (s: State) => Steady(dag, l, s);
    forall s, x
      ensures KeepsAt(dag, h, ok, s, x)
    {
      if ok(s) && Enabled(s, x) {
        if Succeeds(x) {
          StaysSteady(dag, l, s, x);
        } else {
          FailureStays(dag, s, x.flight, x.outcome);
        }
      }
    }
    forall s, x, y
      ensures CrossesAt(dag, h, ok, s, x, y)
    {
      if ok(s) && Enabled(s, x) && Enabled(s, y) && Honest(h, x) && Honest(h, y) && Succeeds(y) && x != y {
        HonestIndependent(h, s, x, y);
        StaysEnabled(dag, l, s, x, y);
        if Succeeds(x) {
          Commutes(dag, l, s, x, y);
        }
      }
    }
  }

  // ---- Whole runs ----

  lemma {:induction false} PrefixIsRun(dag: Dag, init: Data, steps: seq<Step>, k: nat)
    requires IsRun(dag, init, steps) && k <= |steps|
    ensures IsRun(dag, init, steps[..k])
    ensures k < |steps| ==> Enabled(After(dag, init, steps[..k]), steps[k])
    ensures k < |steps| ==> After(dag, init, steps[..k + 1]) == Apply(dag, After(dag, init, steps[..k]), steps[k])
  {
    if k < |steps| {
      assert steps[..k + 1][..k] == steps[..k];
    }
    if k == |steps| {
      assert steps[..k] == steps;
    } else {
      var front := steps[..|steps| - 1];
      assert front[..k] == steps[..k];
      if k < |front| {
        PrefixIsRun(dag, init, front, k);
      } else {
        assert steps[..k] == front;
      }
    }
  }

  lemma {:induction false} RunCompletes(dag: Dag, h: Handler, init: Data, a: seq<Step>, k: nat)
    requires IsRun(dag, init, a) && Obeys(h, a) && Quiescent(After(dag, init, a)) && NoFailures(a) && k <= |a|
    ensures Completes(dag, h, After(dag, init, a[..k]), a[k..], After(dag, init, a))
    decreases |a| - k
  {
    if k == |a| {
      assert a[..k] == a;
    } else {
      PrefixIsRun(dag, init, a, k);
      RunCompletes(dag, h, init, a, k + 1);
      assert ObeysAt(h, a, k) && NoFailures(a[..k]);
      assert a[k..][0] == a[k] && a[k..][1..] == a[k + 1..];
    }
  }

  /** The states a run passes through. */
  ghost predicate Trace(dag: Dag, ss: seq<State>, b: seq<Step>)
  {
    |ss| == |b| + 1 && forall i {:trigger TraceAt(dag, ss, b, i)} :: 0 <= i < |b| ==> TraceAt(dag, ss, b, i)
  }

  ghost predicate TraceAt(dag: Dag, ss: seq<State>, b: seq<Step>, i: nat)
    requires i < |b| && |ss| == |b| + 1
  {
    Enabled(ss[i], b[i]) && ss[i + 1] == Apply(dag, ss[i], b[i])
  }

  lemma TraceOf(dag: Dag, init: Data, b: seq<Step>) returns (ss: seq<State>)
    requires IsRun(dag, init, b)
    ensures Trace(dag, ss, b) && ss[0] == Start(dag, init) && ss[|b|] == After(dag, init, b)
  {
    ss := seq(|b| + 1, i requires 0 <= i <= |b| => After(dag, init, b[..i]));
    forall i | 0 <= i < |b|
      ensures TraceAt(dag, ss, b, i)
    {
      PrefixIsRun(dag, init, b, i);
    }
    assert b[..|b|] == b && b[..0] == [];
  }

  /** A state from which `more` completes the run in `t`. */
  ghost predicate OnCourse(dag: Dag, h: Handler, ok: State -> bool, s: State, more: seq<Step>, t: State)
  {
    ok(s) && Completes(dag, h, s, more, t)
  }

  lemma FollowOne(dag: Dag, h: Handler, ok: State -> bool, s: State, rest: seq<Step>, t: State, x: Step)
    returns (more: seq<Step>)
    requires Diamonds(dag, h, ok) && OnCourse(dag, h, ok, s, rest, t) && t.firstErr == None && Enabled(s, x)
    requires Honest(h, x)
    ensures |rest| == |more| + 1 && OnCourse(dag, h, ok, Apply(dag, s, x), more, t) && Succeeds(x)
  {
    more := Strip(dag, h, ok, s, rest, t, x);
    assert KeepsAt(dag, h, ok, s, x);
  }

  /** However far another run has got, it can be completed to the same end. */
  lemma {:induction false} Follows(
    dag: Dag, h: Handler, ok: State -> bool, ss: seq<State>, b: seq<Step>, a: seq<Step>, t: State, k: nat)
    returns (more: seq<Step>)
    requires Diamonds(dag, h, ok) && Trace(dag, ss, b) && Obeys(h, b)
    requires OnCourse(dag, h, ok, ss[0], a, t) && t.firstErr == None && k <= |b|
    ensures |a| == |more| + k && OnCourse(dag, h, ok, ss[k], more, t) && NoFailures(b[..k])
  {
    if k == 0 {
      more := a;
    } else {
      var rest := Follows(dag, h, ok, ss, b, a, t, k - 1);
      HonestAt(h, b, k - 1);
      assert TraceAt(dag, ss, b, k - 1);
      more := FollowOne(dag, h, ok, ss[k - 1], rest, t, b[k - 1]);
      OneMoreSuccess(b, k - 1);
    }
  }

  lemma HonestAt(h: Handler, b: seq<Step>, k: nat)
    requires Obeys(h, b) && k < |b| && NoFailures(b[..k])
    ensures Honest(h, b[k])
  {
    assert ObeysAt(h, b, k);
  }

  lemma OneMoreSuccess(b: seq<Step>, k: nat)
    requires k < |b| && NoFailures(b[..k]) && Succeeds(b[k])
    ensures NoFailures(b[..k + 1])
  {
    assert b[..k + 1] == b[..k] + [b[k]];
  }

  /** A complete run is over exactly when nothing is in flight. */
  lemma OverWhenQuiescent(dag: Dag, h: Handler, s: State, steps: seq<Step>, t: State)
    requires Completes(dag, h, s, steps, t)
    ensures Quiescent(s) <==> steps == []
    ensures Quiescent(s) ==> s == t
  {
  }

  /** Confluence with loops. Take any graph the builder accepts whose loop, if it has one, is well
      formed, labels in the body included, and deterministic handlers. If some complete run has no
      error, then no run has one, none is longer, and every complete run ends in the same state:
      the same passes, results, skipped nodes, outputs and report. */
  lemma OneOutcome(dag: Dag, h: Handler, init: Data, a: seq<Step>, b: seq<Step>)
    requires Runnable(dag) && NoReservedIds(dag)
    requires IsRun(dag, init, a) && Obeys(h, a) && Quiescent(After(dag, init, a))
    requires After(dag, init, a).firstErr == None
    requires IsRun(dag, init, b) && Obeys(h, b)
    ensures After(dag, init, b).firstErr == None && |b| <= |a|
    ensures Quiescent(After(dag, init, b)) <==> |b| == |a|
    ensures Quiescent(After(dag, init, b)) ==> After(dag, init, b) == After(dag, init, a)
  {
    RunnableReady(dag);
    var l := LoopOf(dag);
    SteadyDiamonds(dag, l, h);
    StartIsSteady(dag, l, init);
    WholeRun(dag, h, init, a);
    SameEnd(dag, h, s => Steady(dag, l, s), init, a, After(dag, init, a), b);
  }

  lemma SameEnd(dag: Dag, h: Handler, ok: State -> bool, init: Data, a: seq<Step>, t: State, b: seq<Step>)
    requires Diamonds(dag, h, ok) && ok(Start(dag, init)) && Completes(dag, h, Start(dag, init), a, t)
    requires t.firstErr == None
    requires IsRun(dag, init, b) && Obeys(h, b)
    ensures var s := After(dag, init, b);
      s.firstErr == None && |b| <= |a| && (Quiescent(s) <==> |b| == |a|) && (Quiescent(s) ==> s == t)
  {
    var ss := TraceOf(dag, init, b);
    TraceEnds(dag, h, ok, ss, b, a, t);
  }

  lemma WholeRun(dag: Dag, h: Handler, init: Data, a: seq<Step>)
    requires IsRun(dag, init, a) && Obeys(h, a)
    requires Quiescent(After(dag, init, a)) && After(dag, init, a).firstErr == None
    ensures Completes(dag, h, Start(dag, init), a, After(dag, init, a))
  {
    ErrorFree(dag, init, a);
    RunCompletes(dag, h, init, a, 0);
    assert a[..0] == [] && a[0..] == a;
  }

  lemma TraceEnds(dag: Dag, h: Handler, ok: State -> bool, ss: seq<State>, b: seq<Step>, a: seq<Step>, t: State)
    requires Diamonds(dag, h, ok) && Trace(dag, ss, b) && Obeys(h, b)
    requires OnCourse(dag, h, ok, ss[0], a, t) && t.firstErr == None
    ensures var s := ss[|b|];
      s.firstErr == None && |b| <= |a| && (Quiescent(s) <==> |b| == |a|) && (Quiescent(s) ==> s == t)
  {
    var more := Follows(dag, h, ok, ss, b, a, t, |b|);
    if ss[|b|].firstErr != None {
      ErrorStays(dag, h, ss[|b|], more, t);
    }
    OverWhenQuiescent(dag, h, ss[|b|], more, t);
  }

  lemma RunnableReady(dag: Dag)
    requires Runnable(dag) && NoReservedIds(dag)
    ensures Ready(dag, LoopOf(dag))
  {
    RunnableShape(dag);
  }

  /** Any two complete runs agree on failing, and otherwise on everything. */
  lemma AnyOrder(dag: Dag, h: Handler, init: Data, a: seq<Step>, b: seq<Step>)
    requires Runnable(dag) && NoReservedIds(dag)
    requires IsRun(dag, init, a) && Obeys(h, a) && Quiescent(After(dag, init, a))
    requires IsRun(dag, init, b) && Obeys(h, b) && Quiescent(After(dag, init, b))
    ensures var s, t := After(dag, init, a), After(dag, init, b);
      && (s.firstErr == None <==> t.firstErr == None)
      && (s.firstErr == None ==> s == t && Finish(dag, s) == Finish(dag, t))
  {
    if After(dag, init, a).firstErr == None {
      OneOutcome(dag, h, init, a, b);
    } else if After(dag, init, b).firstErr == None {
      OneOutcome(dag, h, init, b, a);
    }
  }
}
