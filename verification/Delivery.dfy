/** Delivering signals in any order comes to the same state. */
module Delivery {
  import opened Workflow
  import opened DagModel
  import opened Scheduler
  import opened SchedulerInvariant

  lemma SameState(a: State, b: State)
    requires a.pending == b.pending && a.skipped == b.skipped && a.hasLive == b.hasLive && a.outputs == b.outputs
    requires a.ancestors == b.ancestors && a.nodeResults == b.nodeResults && a.loopIterations == b.loopIterations
    requires a.dispatched == b.dispatched && a.received == b.received && a.firstErr == b.firstErr
    requires a.inflight == b.inflight && a.started == b.started && a.routed == b.routed && a.launched == b.launched
    requires a.passes == b.passes && a.exited == b.exited
    ensures a == b
  {
  }

  // ---- Delivering signals piecewise ----

  lemma {:induction false} DeliverAppend(dag: Dag, s: State, a: seq<Signal>, b: seq<Signal>)
    ensures Deliver(dag, s, a + b) == Deliver(dag, Deliver(dag, s, a), b)
    decreases dag.nodes.Keys - s.skipped, |a|
  {
    if a == [] {
      assert a + b == b;
    } else {
      AbsorbShrinks(dag, s, a[0]);
      var more := SentOn(dag, s, a[0]);
      assert more + (a + b)[1..] == (more + a[1..]) + b;
      DeliverAppend(dag, Absorb(s, a[0]), more + a[1..], b);
    }
  }

  lemma DeliverOne(dag: Dag, s: State, sig: Signal)
    ensures Deliver(dag, s, [sig]) == Deliver(dag, Absorb(s, sig), SentOn(dag, s, sig))
  {
    assert SentOn(dag, s, sig) + [sig][1..] == SentOn(dag, s, sig);
  }

  // ---- Two signals ----

  lemma CountedTwice(s: State, x: Signal, y: Signal)
    ensures Counted(Counted(s, x), y) == Counted(Counted(s, y), x)
  {
    var a, b := Counted(Counted(s, x), y), Counted(Counted(s, y), x);
    assert a.pending == b.pending && a.hasLive == b.hasLive;
  }

  /** How two signals to the same target are met when the target waits for both of them. */
  ghost predicate BothFit(dag: Dag, l: Loop, s: State, x: Signal, y: Signal)
  {
    && SignalFits(dag, l, s, x) && SignalFits(dag, l, s, y)
    && (x.target == y.target && !Frozen(l, s, x.target) ==> PendingOf(s, x.target) >= 2)
  }

  /** The first of two signals to one target only counts. */
  lemma FirstWaits(dag: Dag, l: Loop, s: State, x: Signal, y: Signal)
    requires BothFit(dag, l, s, x, y) && x.target == y.target
    ensures React(s, x) == Waits && Absorb(s, x) == Counted(s, x) && SentOn(dag, s, x) == []
  {
  }

  lemma SameReaction(dag: Dag, l: Loop, s: State, x: Signal, y: Signal)
    requires BothFit(dag, l, s, x, y) && x.target == y.target
    ensures React(Counted(s, x), y) == React(Counted(s, y), x)
  {
  }

  lemma SameTarget(dag: Dag, l: Loop, s: State, x: Signal, y: Signal)
    requires BothFit(dag, l, s, x, y) && x.target == y.target
    ensures Absorb(Absorb(s, x), y) == Absorb(Absorb(s, y), x)
    ensures SentOn(dag, Absorb(s, x), y) + SentOn(dag, s, x) == SentOn(dag, Absorb(s, y), x) + SentOn(dag, s, y)
  {
    FirstWaits(dag, l, s, x, y);
    FirstWaits(dag, l, s, y, x);
    SameReaction(dag, l, s, x, y);
    CountedTwice(s, x, y);
  }

  function With<T>(s: set<T>, x: T, added: bool): set<T>
  {
    if added then s + {x} else s
  }

  function WithOne<T>(s: multiset<T>, x: T, added: bool): multiset<T>
  {
    if added then s + multiset{x} else s
  }

  lemma WithTwice<T>(s: set<T>, x: T, p: bool, y: T, q: bool)
    ensures With(With(s, x, p), y, q) == With(With(s, y, q), x, p)
  {
  }

  lemma WithOneTwice<T>(s: multiset<T>, x: T, p: bool, y: T, q: bool)
    ensures WithOne(WithOne(s, x, p), y, q) == WithOne(WithOne(s, y, q), x, p)
  {
  }

  /** `t` is `s` after a signal with reaction `r`, field by field. */
  ghost predicate Touched(s: State, t: State, sig: Signal, r: Reaction)
  {
    var v := sig.target;
    && t.pending == s.pending[v := PendingOf(s, v) - 1]
    && t.hasLive == With(s.hasLive, v, sig.kind == Live)
    && t.skipped == With(s.skipped, v, r == Skips)
    && t.started == With(s.started, v, r == Launches)
    && t.launched == WithOne(s.launched, v, r == Launches)
    && t.inflight == WithOne(s.inflight, Waiting(v), r == Launches)
    && t.dispatched == s.dispatched + (if r == Launches then 1 else 0)
    && SameOutside(s, t)
  }

  /** The fields a delivery never touches. */
  predicate SameOutside(s: State, t: State)
  {
    && t.outputs == s.outputs && t.ancestors == s.ancestors && t.nodeResults == s.nodeResults
    && t.loopIterations == s.loopIterations && t.received == s.received && t.firstErr == s.firstErr
    && t.routed == s.routed && t.passes == s.passes && t.exited == s.exited
  }

  lemma AbsorbTouches(s: State, sig: Signal)
    ensures Touched(s, Absorb(s, sig), sig, React(s, sig))
  {
    match React(s, sig)
    case Waits => WaitTouches(s, sig);
    case Launches => LaunchTouches(s, sig);
    case Skips => SkipTouches(s, sig);
  }

  lemma WaitTouches(s: State, sig: Signal)
    ensures Touched(s, Counted(s, sig), sig, Waits)
  {
  }

  lemma LaunchTouches(s: State, sig: Signal)
    ensures Touched(s, Dispatch(Counted(s, sig), sig.target), sig, Launches)
  {
  }

  lemma SkipTouches(s: State, sig: Signal)
    ensures Touched(s, Skip(Counted(s, sig), sig.target), sig, Skips)
  {
  }

  /** A signal does not notice another one to a different target. */
  lemma OtherTarget(dag: Dag, s: State, t: State, x: Signal, r: Reaction, y: Signal)
    requires Touched(s, t, x, r) && x.target != y.target
    ensures React(t, y) == React(s, y) && SentOn(dag, t, y) == SentOn(dag, s, y)
  {
    assert PendingOf(t, y.target) == PendingOf(s, y.target);
  }

  lemma PendingCommutes(pending: map<NodeId, int>, a: NodeId, i: int, b: NodeId, j: int)
    requires a != b
    ensures pending[a := i][b := j] == pending[b := j][a := i]
  {
  }

  lemma TouchTwice(
    s: State, sx: State, sxy: State, sy: State, syx: State, x: Signal, p: Reaction, y: Signal, q: Reaction)
    requires Touched(s, sx, x, p) && Touched(sx, sxy, y, q) && Touched(s, sy, y, q) && Touched(sy, syx, x, p)
    requires x.target != y.target
    ensures sxy == syx
  {
    PendingCommutes(s.pending, x.target, PendingOf(s, x.target) - 1, y.target, PendingOf(s, y.target) - 1);
    var v, w := x.target, y.target;
    WithTwice(s.hasLive, v, x.kind == Live, w, y.kind == Live);
    WithTwice(s.skipped, v, p == Skips, w, q == Skips);
    WithTwice(s.started, v, p == Launches, w, q == Launches);
    WithOneTwice(s.launched, v, p == Launches, w, q == Launches);
    WithOneTwice(s.inflight, Waiting(v), p == Launches, Waiting(w), q == Launches);
    assert PendingOf(sx, w) == PendingOf(s, w) && PendingOf(sy, v) == PendingOf(s, v);
  }

  lemma AbsorbCommutes(dag: Dag, l: Loop, s: State, x: Signal, y: Signal)
    requires BothFit(dag, l, s, x, y)
    ensures Absorb(Absorb(s, x), y) == Absorb(Absorb(s, y), x)
    ensures multiset(SentOn(dag, Absorb(s, x), y) + SentOn(dag, s, x)) ==
      multiset(SentOn(dag, Absorb(s, y), x) + SentOn(dag, s, y))
  {
    if x.target == y.target {
      SameTarget(dag, l, s, x, y);
    } else {
      var sx, sy, p, q := Absorb(s, x), Absorb(s, y), React(s, x), React(s, y);
      AbsorbTouches(s, x);
      AbsorbTouches(s, y);
      OtherTarget(dag, s, sx, x, p, y);
      OtherTarget(dag, s, sy, y, q, x);
      AbsorbTouches(sx, y);
      AbsorbTouches(sy, x);
      TouchTwice(s, sx, Absorb(sx, y), sy, Absorb(sy, x), x, p, y, q);
    }
  }

  // ---- Any order ----

  lemma {:induction false} SigCountWithout(todo: seq<Signal>, i: nat, v: NodeId)
    requires i < |todo|
    ensures SigCount(todo, v) == SigCount(todo[..i] + todo[i + 1..], v) + (if todo[i].target == v then 1 else 0)
  {
    SigCountAppend(todo[..i], todo[i..], v);
    SigCountAppend(todo[..i], todo[i + 1..], v);
    assert todo == todo[..i] + todo[i..] && todo[i..][1..] == todo[i + 1..];
  }

  lemma WithoutOne<T>(a: seq<T>, i: nat)
    requires i < |a|
    ensures multiset(a) == multiset(a[..i] + a[i + 1..]) + multiset{a[i]}
    ensures multiset(a[..i] + a[i + 1..]) == multiset(a) - multiset{a[i]}
  {
    assert a == a[..i] + [a[i]] + a[i + 1..];
  }

  /** What is left of `b` without one occurrence of `x`. */
  lemma DropOne(b: seq<Signal>, x: Signal, v: NodeId) returns (rest: seq<Signal>)
    requires x in b
    ensures multiset(rest) == multiset(b) - multiset{x} && |b| == |rest| + 1
    ensures SigCount(b, v) == SigCount(rest, v) + (if x.target == v then 1 else 0)
  {
    var i :| 0 <= i < |b| && b[i] == x;
    rest := b[..i] + b[i + 1..];
    WithoutOne(b, i);
    SigCountWithout(b, i, v);
  }

  lemma TailOf<T>(a: seq<T>)
    requires a != []
    ensures multiset(a[1..]) == multiset(a) - multiset{a[0]}
  {
    WithoutOne(a, 0);
    assert a[..0] + a[1..] == a[1..];
  }

  lemma {:induction false} SigCountPermuted(a: seq<Signal>, b: seq<Signal>, v: NodeId)
    requires multiset(a) == multiset(b)
    ensures SigCount(a, v) == SigCount(b, v)
    decreases |a|
  {
    if a == [] {
      assert |multiset(b)| == 0;
    } else {
      assert a[0] in multiset(b);
      var rest := DropOne(b, a[0], v);
      TailOf(a);
      SigCountPermuted(a[1..], rest, v);
    }
  }

  /** The invariant does not depend on the order of the signals. */
  lemma InvPermuted(dag: Dag, l: Loop, s: State, a: seq<Signal>, b: seq<Signal>)
    requires Inv(dag, l, s, a) && multiset(a) == multiset(b)
    ensures Inv(dag, l, s, b)
  {
    forall v | v in dag.nodes && !Frozen(l, s, v)
      ensures CountOK(dag, l, s, b, v)
    {
      assert CountOK(dag, l, s, a, v);
      SigCountPermuted(a, b, v);
    }
    forall sig | sig in b
      ensures SignalOK(dag, l, s, sig)
    {
      assert sig in multiset(a);
    }
  }

  lemma TwoCounted(x: Signal, y: Signal, rest: seq<Signal>)
    requires x.target == y.target
    ensures SigCount([x, y] + rest, x.target) >= 2
  {
    SigCountAppend([x, y], rest, x.target);
    assert [x, y][1..] == [y] && [y][1..] == [];
  }

  lemma HeadFits(dag: Dag, l: Loop, s: State, x: Signal, y: Signal, rest: seq<Signal>)
    requires Inv(dag, l, s, [x, y] + rest)
    ensures SignalFits(dag, l, s, x)
    ensures x.target == y.target && !Frozen(l, s, x.target) ==> PendingOf(s, x.target) >= 2
  {
    var todo := [x, y] + rest;
    CountedKeeps(dag, l, s, todo);
    if x.target == y.target && !Frozen(l, s, x.target) {
      assert CountOK(dag, l, s, todo, x.target);
      TwoCounted(x, y, rest);
    }
  }

  /** Two signals of a delivery that is under way. */
  lemma PairFits(dag: Dag, l: Loop, s: State, x: Signal, y: Signal, rest: seq<Signal>)
    requires Inv(dag, l, s, [x, y] + rest)
    ensures BothFit(dag, l, s, x, y)
  {
    InvPermuted(dag, l, s, [x, y] + rest, [y, x] + rest);
    HeadFits(dag, l, s, x, y, rest);
    HeadFits(dag, l, s, y, x, rest);
  }

  /** The two orders of absorbing `x` and `y` lead to the same state and send the same on. */
  ghost predicate Commute(dag: Dag, s: State, x: Signal, y: Signal)
  {
    && Absorb(Absorb(s, x), y) == Absorb(Absorb(s, y), x)
    && multiset(SentOn(dag, Absorb(s, x), y) + SentOn(dag, s, x)) ==
       multiset(SentOn(dag, Absorb(s, y), x) + SentOn(dag, s, y))
  }

  /** A property of deliveries under way that is kept, does not depend on the order of the
      signals, and lets any two of them be exchanged. */
  ghost predicate Exchangeable(dag: Dag, ok: (State, seq<Signal>) -> bool)
  {
    && (forall t, a, b {:trigger ok(t, a), ok(t, b)} :: ok(t, a) && multiset(a) == multiset(b) ==> ok(t, b))
    && (forall t, x, rest {:trigger ok(t, [x] + rest)} ::
          ok(t, [x] + rest) ==> ok(Absorb(t, x), SentOn(dag, t, x) + rest))
    && (forall t, x, y, rest {:trigger ok(t, [x, y] + rest)} :: ok(t, [x, y] + rest) ==> Commute(dag, t, x, y))
  }

  lemma DeliverHead(dag: Dag, s: State, x: Signal, rest: seq<Signal>)
    ensures Deliver(dag, s, [x] + rest) == Deliver(dag, Absorb(s, x), SentOn(dag, s, x) + rest)
  {
    assert ([x] + rest)[1..] == rest;
  }

  /** What two orders with different heads have in common. */
  lemma DifferentHeads(a: seq<Signal>, b: seq<Signal>) returns (rest: seq<Signal>)
    requires multiset(a) == multiset(b) && a != [] && b != [] && a[0] != b[0]
    ensures multiset(a[1..]) == multiset([b[0]] + rest) && multiset(b[1..]) == multiset([a[0]] + rest)
    ensures multiset(a) == multiset([a[0], b[0]] + rest) && |a| == |rest| + 2
  {
    var x, y := a[0], b[0];
    Headed(x, a[1..]);
    Headed(y, b[1..]);
    assert a == [x] + a[1..] && b == [y] + b[1..];
    rest := CommonPart(x, a[1..], y, b[1..]);
    Headed(x, rest);
    Headed(y, rest);
    Headed(x, [y] + rest);
    assert [x, y] + rest == [x] + ([y] + rest);
  }

  lemma CommonPart(x: Signal, left: seq<Signal>, y: Signal, right: seq<Signal>) returns (rest: seq<Signal>)
    requires x != y && multiset(left) + multiset{x} == multiset(right) + multiset{y}
    ensures multiset(left) == multiset(rest) + multiset{y} && multiset(right) == multiset(rest) + multiset{x}
    ensures |left| == |rest| + 1
  {
    Exchanged(multiset(left), x, multiset(right), y);
    rest := DropOne(left, y, "");
  }

  lemma Exchanged(left: multiset<Signal>, x: Signal, right: multiset<Signal>, y: Signal)
    requires x != y && left + multiset{x} == right + multiset{y}
    ensures y in left && left == left - multiset{y} + multiset{y} && right == left - multiset{y} + multiset{x}
  {
    assert (left + multiset{x})[y] == (right + multiset{y})[y];
    forall z
      ensures right[z] == (left - multiset{y} + multiset{x})[z]
    {
      assert (left + multiset{x})[z] == (right + multiset{y})[z];
    }
  }

  lemma Headed(x: Signal, rest: seq<Signal>)
    ensures multiset([x] + rest) == multiset(rest) + multiset{x}
  {
  }

  lemma Rotated(m: seq<Signal>, tail: seq<Signal>, y: Signal, rest: seq<Signal>)
    requires multiset(tail) == multiset([y] + rest)
    ensures multiset(m + tail) == multiset([y] + (m + rest))
  {
    assert multiset(m + tail) == multiset(m) + multiset(tail);
    assert multiset([y] + rest) == multiset{y} + multiset(rest);
    assert multiset([y] + (m + rest)) == multiset{y} + (multiset(m) + multiset(rest));
  }

  lemma Joined(p: seq<Signal>, m: seq<Signal>, q: seq<Signal>, n: seq<Signal>, rest: seq<Signal>)
    requires multiset(p + m) == multiset(q + n)
    ensures multiset(p + (m + rest)) == multiset(q + (n + rest))
  {
    assert p + (m + rest) == (p + m) + rest && q + (n + rest) == (q + n) + rest;
  }

  /** A delivery comes to the same state whatever order the signals are in: with different heads,
      both orders pass through the state in which both heads are absorbed. */
  lemma {:induction false} PermutedAbstractly(
    dag: Dag, ok: (State, seq<Signal>) -> bool, s: State, a: seq<Signal>, b: seq<Signal>)
    requires Exchangeable(dag, ok) && ok(s, a) && ok(s, b) && multiset(a) == multiset(b)
    ensures Deliver(dag, s, a) == Deliver(dag, s, b)
    decreases dag.nodes.Keys - s.skipped, |a|, 3
  {
    assert |a| == |multiset(a)| == |multiset(b)| == |b|;
    if a != [] {
      if a[0] == b[0] {
        SameHeads(dag, ok, s, a, b);
      } else {
        OtherHeads(dag, ok, s, a, b);
      }
    }
  }

  lemma {:induction false} SameHeads(
    dag: Dag, ok: (State, seq<Signal>) -> bool, s: State, a: seq<Signal>, b: seq<Signal>)
    requires Exchangeable(dag, ok) && ok(s, a) && ok(s, b) && multiset(a) == multiset(b)
    requires a != [] && b != [] && a[0] == b[0]
    ensures Deliver(dag, s, a) == Deliver(dag, s, b)
    decreases dag.nodes.Keys - s.skipped, |a|, 0
  {
    var x := a[0];
    var m := SentOn(dag, s, x);
    assert a == [x] + a[1..] && b == [x] + b[1..];
    AbsorbShrinks(dag, s, x);
    TailOf(a);
    TailOf(b);
    assert multiset(m + a[1..]) == multiset(m) + multiset(a[1..]) == multiset(m + b[1..]);
    assert ok(s, [x] + a[1..]) && ok(s, [x] + b[1..]);
    PermutedAbstractly(dag, ok, Absorb(s, x), m + a[1..], m + b[1..]);
  }

  /** Delivering the head `x` and then anything that amounts to `y` and `rest`. */
  lemma {:induction false} ThenOther(
    dag: Dag, ok: (State, seq<Signal>) -> bool, s: State, x: Signal, tail: seq<Signal>, y: Signal, rest: seq<Signal>)
    requires Exchangeable(dag, ok) && ok(s, [x] + tail) && multiset(tail) == multiset([y] + rest)
    ensures var sx, m := Absorb(s, x), SentOn(dag, s, x);
      && Deliver(dag, s, [x] + tail) == Deliver(dag, Absorb(sx, y), SentOn(dag, sx, y) + (m + rest))
      && ok(Absorb(sx, y), SentOn(dag, sx, y) + (m + rest))
    decreases dag.nodes.Keys - s.skipped, |tail| + 1, 0
  {
    var sx, m := Absorb(s, x), SentOn(dag, s, x);
    AbsorbShrinks(dag, s, x);
    DeliverHead(dag, s, x, tail);
    Rotated(m, tail, y, rest);
    assert ok(sx, m + tail);
    assert ok(sx, [y] + (m + rest));
    PermutedAbstractly(dag, ok, sx, m + tail, [y] + (m + rest));
    DeliverHead(dag, sx, y, m + rest);
  }

  lemma {:induction false} OtherHeads(
    dag: Dag, ok: (State, seq<Signal>) -> bool, s: State, a: seq<Signal>, b: seq<Signal>)
    requires Exchangeable(dag, ok) && ok(s, a) && ok(s, b) && multiset(a) == multiset(b) && |a| == |b|
    requires a != [] && b != [] && a[0] != b[0]
    ensures Deliver(dag, s, a) == Deliver(dag, s, b)
    decreases dag.nodes.Keys - s.skipped, |a|, 2
  {
    var x, y := a[0], b[0];
    var rest := DifferentHeads(a, b);
    assert a == [x] + a[1..] && b == [y] + b[1..];
    assert ok(s, [x, y] + rest);
    HeadsMeet(dag, ok, s, x, a[1..], y, b[1..], rest);
  }

  /** Two absorbed signals leave fewer nodes to skip, or send nothing on. */
  lemma TwoShrink(dag: Dag, s: State, x: Signal, y: Signal)
    ensures var sx := Absorb(s, x);
      || (SentOn(dag, s, x) == [] && SentOn(dag, sx, y) == [] &&
          dag.nodes.Keys - Absorb(sx, y).skipped == dag.nodes.Keys - s.skipped)
      || dag.nodes.Keys - Absorb(sx, y).skipped < dag.nodes.Keys - s.skipped
  {
    AbsorbShrinks(dag, s, x);
    AbsorbShrinks(dag, Absorb(s, x), y);
  }

  lemma {:induction false} HeadsMeet(
    dag: Dag, ok: (State, seq<Signal>) -> bool, s: State,
    x: Signal, left: seq<Signal>, y: Signal, right: seq<Signal>, rest: seq<Signal>)
    requires Exchangeable(dag, ok) && ok(s, [x] + left) && ok(s, [y] + right) && ok(s, [x, y] + rest)
    requires multiset(left) == multiset([y] + rest) && multiset(right) == multiset([x] + rest)
    requires |left| == |right| == |rest| + 1
    ensures Deliver(dag, s, [x] + left) == Deliver(dag, s, [y] + right)
    decreases dag.nodes.Keys - s.skipped, |left| + 1, 1
  {
    assert Commute(dag, s, x, y);
    ThenOther(dag, ok, s, x, left, y, rest);
    ThenOther(dag, ok, s, y, right, x, rest);
    var sx, sy, m, n := Absorb(s, x), Absorb(s, y), SentOn(dag, s, x), SentOn(dag, s, y);
    var p, q := SentOn(dag, sx, y), SentOn(dag, sy, x);
    TwoShrink(dag, s, x, y);
    Joined(p, m, q, n, rest);
    PermutedAbstractly(dag, ok, Absorb(sx, y), p + (m + rest), q + (n + rest));
  }

  /** Under the invariant, deliveries do not depend on the order of the signals. */
  lemma Permuted(dag: Dag, l: Loop, s: State, a: seq<Signal>, b: seq<Signal>)
    requires Fenced(dag, l) && Inv(dag, l, s, a) && multiset(a) == multiset(b)
    ensures Deliver(dag, s, a) == Deliver(dag, s, b)
  {
    ghost var ok := (t, rest) => Inv(dag, l, t, rest);
    forall t, c, d | ok(t, c) && multiset(c) == multiset(d)
      ensures ok(t, d)
    {
      InvPermuted(dag, l, t, c, d);
    }
    forall t, x, rest | ok(t, [x] + rest)
      ensures ok(Absorb(t, x), SentOn(dag, t, x) + rest)
    {
      AbsorbKeeps(dag, l, t, [x] + rest);
      assert ([x] + rest)[1..] == rest;
    }
    forall t, x, y, rest | ok(t, [x, y] + rest)
      ensures Commute(dag, t, x, y)
    {
      PairFits(dag, l, t, x, y, rest);
      AbsorbCommutes(dag, l, t, x, y);
    }
    PermutedAbstractly(dag, ok, s, a, b);
  }
}
