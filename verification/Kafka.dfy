/** The Kafka trigger: fetch a message, dispatch a run for it, commit its offset; after a
    read or dispatch error wait, and resume from the committed offset with a new reader. */
module Kafka {

  const MIN_BACKOFF := 1
  const MAX_BACKOFF := 30

  /** How the environment answers one turn of the consumer: the fetch fails, the dispatch of
      the fetched message fails, or the dispatch succeeds and the commit does or does not. */
  datatype Reply =
    | FetchFailed(cancelled: bool)
    | DispatchFailed(cancelled: bool)
    | Handled(committed: bool)
  {
    predicate Stops()
    {
      !Handled? && cancelled
    }

    predicate Reconnects()
    {
      !Handled? && !cancelled
    }
  }

  /** The group offset of the partition, the next offset the reader fetches, the offsets
      dispatched successfully so far, and the wait after the next failure in seconds. */
  datatype Progress = Progress(committed: nat, position: nat, delivered: seq<nat>, backoff: nat)

  const START := Progress(0, 0, [], MIN_BACKOFF)

  function Min(a: nat, b: nat): nat
  {
    if a <= b then a else b
  }

  function React(p: Progress, r: Reply): Progress
  {
    match r
    case Handled(ok) =>
      Progress(if ok then p.position + 1 else p.committed, p.position + 1, p.delivered + [p.position], MIN_BACKOFF)
    case _ => if r.cancelled then p else p.(position := p.committed, backoff := Min(p.backoff * 2, MAX_BACKOFF))
  }

  function After(script: seq<Reply>): Progress
  {
    if script == [] then START else React(After(script[..|script| - 1]), script[|script| - 1])
  }

  /** Cancellation ends the run, so it can only be the last answer. */
  ghost predicate IsScript(script: seq<Reply>)
  {
    forall i :: 0 <= i < |script| - 1 ==> !script[i].Stops()
  }

  // ---- At least once ----

  ghost predicate Covers(delivered: seq<nat>, bound: nat)
  {
    forall o :: 0 <= o < bound ==> o in delivered
  }

  /** One past the highest offset dispatched so far. */
  function High(delivered: seq<nat>): (h: nat)
    ensures forall o :: o in delivered ==> o < h
    ensures h > 0 ==> h - 1 in delivered
  {
    if delivered == [] then 0
    else
      var front, last := delivered[..|delivered| - 1], delivered[|delivered| - 1];
      var h := High(front);
      assert forall o :: o in delivered ==> o in front || o == last;
      if last < h then h else last + 1
  }

  /** At least once: whatever fails, every offset below the committed one, and below the
      reader's position, has been dispatched successfully; nothing was passed over. */
  lemma {:induction false} AtLeastOnce(script: seq<Reply>)
    ensures var p := After(script);
      && p.committed <= p.position <= High(p.delivered)
      && Covers(p.delivered, High(p.delivered))
      && Covers(p.delivered, p.committed)
  {
    if script != [] {
      AtLeastOnce(script[..|script| - 1]);
      var p := After(script[..|script| - 1]);
      DeliveredNext(p.delivered, p.position);
    }
  }

  lemma DeliveredNext(delivered: seq<nat>, o: nat)
    requires Covers(delivered, High(delivered)) && o <= High(delivered)
    ensures Covers(delivered + [o], High(delivered + [o]))
    ensures o < High(delivered + [o]) && High(delivered) <= High(delivered + [o])
  {
    var grown := delivered + [o];
    assert grown[..|grown| - 1] == delivered;
  }

  /** The committed offset never moves back. */
  lemma CommitsOnlyGrow(script: seq<Reply>, more: seq<Reply>)
    ensures After(script).committed <= After(script + more).committed
    decreases |more|
  {
    if more == [] {
      assert script + more == script;
    } else {
      var front := more[..|more| - 1];
      assert (script + more)[..|script + more| - 1] == script + front;
      CommitsOnlyGrow(script, front);
      AtLeastOnce(script + front);
    }
  }

  // ---- Exactly once ----

  /** A reply at `j` whose commit fails, the consumer reconnecting right after it. */
  predicate Rewinds(script: seq<Reply>, j: nat)
  {
    j + 1 < |script| && script[j] == Handled(false) && script[j + 1].Reconnects()
  }

  ghost predicate Rewound(script: seq<Reply>)
  {
    exists j :: 0 <= j < |script| && Rewinds(script, j)
  }

  /** The consumer reconnects right after a failed commit, and handles a message after that. */
  ghost predicate LosesCommit(script: seq<Reply>)
  {
    exists j, k :: 0 <= j < |script| && Rewinds(script, j) && j + 1 < k < |script| && script[k].Handled?
  }

  ghost predicate EachOnce(delivered: seq<nat>)
  {
    forall i, j :: 0 <= i < j < |delivered| ==> delivered[i] != delivered[j]
  }

  /** The offsets 0, 1, 2, ... in order. */
  ghost predicate InOrder(delivered: seq<nat>)
  {
    forall i :: 0 <= i < |delivered| ==> delivered[i] == i
  }

  lemma RewoundGrows(front: seq<Reply>, r: Reply)
    ensures Rewound(front + [r]) <==> Rewound(front) || (front != [] && Rewinds(front + [r], |front| - 1))
    ensures LosesCommit(front + [r]) <==> LosesCommit(front) || (Rewound(front) && r.Handled?)
  {
    var script := front + [r];
    assert forall j :: 0 <= j < |front| - 1 ==> Rewinds(script, j) == Rewinds(front, j);
    assert forall j :: |front| - 1 <= j ==> !Rewinds(front, j);
    if LosesCommit(front) {
      var j, k :| 0 <= j < |front| && Rewinds(front, j) && j + 1 < k < |front| && front[k].Handled?;
      assert Rewinds(script, j) && script[k].Handled?;
    }
    if Rewound(front) && r.Handled? {
      var j :| 0 <= j < |front| && Rewinds(front, j);
      assert Rewinds(script, j) && script[|front|].Handled?;
    }
    if LosesCommit(script) {
      var j, k :| 0 <= j < |script| && Rewinds(script, j) && j + 1 < k < |script| && script[k].Handled?;
      assert Rewinds(front, j) && (k < |front| ==> front[k].Handled?);
    }
  }

  /** The reader is ahead of the group offset exactly after a failed commit. */
  ghost predicate Trails(script: seq<Reply>)
  {
    After(script).committed < After(script).position <==> script != [] && script[|script| - 1] == Handled(false)
  }

  lemma TrailsAlways(script: seq<Reply>)
    requires forall i :: 0 <= i < |script| ==> !script[i].Stops()
    ensures Trails(script)
  {
    if script != [] {
      AtLeastOnce(script[..|script| - 1]);
    }
  }

  /** Where the reader stands relative to what was dispatched. */
  ghost predicate Placed(p: Progress, rewound: bool, loses: bool)
  {
    && (!rewound ==> !loses && p.position == |p.delivered|)
    && (rewound && !loses ==> p.position < |p.delivered|)
    && (!loses ==> InOrder(p.delivered))
    && (loses ==> !EachOnce(p.delivered))
  }

  lemma {:induction false} AlwaysPlaced(script: seq<Reply>)
    requires IsScript(script)
    ensures Placed(After(script), Rewound(script), LosesCommit(script))
  {
    if script != [] {
      var front, r := script[..|script| - 1], script[|script| - 1];
      assert script == front + [r];
      AlwaysPlaced(front);
      AtLeastOnce(front);
      TrailsAlways(front);
      RewoundGrows(front, r);
      PlacedStep(After(front), r, Rewound(front), LosesCommit(front));
    }
  }

  lemma PlacedStep(p: Progress, r: Reply, rewound: bool, loses: bool)
    requires Placed(p, rewound, loses) && p.committed <= p.position
    ensures
      Placed(React(p, r), rewound || (p.committed < p.position && r.Reconnects()), loses || (rewound && r.Handled?))
  {
    if loses {
      RepeatStays(p.delivered, p.position);
    } else if rewound && r.Handled? {
      var grown := p.delivered + [p.position];
      assert grown[p.position] == grown[|p.delivered|];
    }
  }

  lemma RepeatStays(delivered: seq<nat>, o: nat)
    requires !EachOnce(delivered)
    ensures !EachOnce(delivered + [o])
  {
    var i, j :| 0 <= i < j < |delivered| && delivered[i] == delivered[j];
    assert (delivered + [o])[i] == (delivered + [o])[j];
  }

  /** Exactly once: no message is dispatched twice if and only if no failed commit is directly
      followed by a reconnect and later by another dispatch; then the dispatched offsets are
      0, 1, 2, ... in order. In particular it holds whenever no commit fails. */
  lemma ExactlyOnce(script: seq<Reply>)
    requires IsScript(script)
    ensures EachOnce(After(script).delivered) <==> !LosesCommit(script)
    ensures !LosesCommit(script) ==> InOrder(After(script).delivered)
    ensures Handled(false) !in script ==>
      InOrder(After(script).delivered) && After(script).committed == |After(script).delivered|
  {
    AlwaysPlaced(script);
    if Handled(false) !in script {
      assert !Rewound(script);
      AlwaysCommitted(script);
    }
  }

  lemma {:induction false} AlwaysCommitted(script: seq<Reply>)
    requires Handled(false) !in script
    ensures After(script).committed == After(script).position
  {
    if script != [] {
      AlwaysCommitted(script[..|script| - 1]);
    }
  }

  // ---- Backoff ----

  /** Failures since the last successful dispatch. */
  function Streak(script: seq<Reply>): nat
  {
    if script == [] || script[|script| - 1].Handled? then 0
    else Streak(script[..|script| - 1]) + if script[|script| - 1].cancelled then 0 else 1
  }

  function Power(n: nat): (r: nat)
    ensures r >= 1
  {
    if n == 0 then 1 else 2 * Power(n - 1)
  }

  /** The wait doubles with every failure in a row from 1 second up to 30. */
  lemma {:induction false} BackoffDoubles(script: seq<Reply>)
    ensures 1 <= After(script).backoff <= 30
    ensures After(script).backoff == if Power(Streak(script)) < 30 then Power(Streak(script)) else 30
  {
    if script != [] {
      BackoffDoubles(script[..|script| - 1]);
    }
  }

  // ---- The loops ----

  class Consumer {
    var committed: nat
    var position: nat
    var delivered: seq<nat>
    var backoff: nat

    ghost function Contents(): Progress
      reads this
    {
      Progress(committed, position, delivered, backoff)
    }

    constructor ()
      ensures Contents() == START
    {
      committed, position, delivered, backoff := 0, 0, [], MIN_BACKOFF;
    }

    /** Reads until an error or cancellation, or until the answers run out; true asks for a new reader. */
    method Consume(script: seq<Reply>, from: nat) returns (next: nat, reconnect: bool)
      requires from <= |script|
      requires Contents() == After(script[..from])
      modifies this
      ensures from <= next <= |script|
      ensures reconnect ==> from < next && script[next - 1].Reconnects()
      ensures !reconnect ==> next == |script| || (next > 0 && script[next - 1].Stops())
      ensures (if reconnect then Contents().(position := committed) else Contents()) == After(script[..next])
    {
      next := from;
      while next < |script|
        invariant from <= next <= |script|
        invariant Contents() == After(script[..next])
      {
        var reply := script[next];
        next := next + 1;
        assert script[..next][..next - 1] == script[..next - 1];
        match reply {
          case Handled(ok) =>
            delivered := delivered + [position];
            backoff := MIN_BACKOFF;
            if ok {
              committed := position + 1;
            }
            position := position + 1;
          case _ =>
            if reply.cancelled {
              return next, false;
            }
            backoff := Min(backoff * 2, MAX_BACKOFF);
            return next, true;
        }
      }
      return next, false;
    }

    /** Reconnects until told to stop: the answers are all consumed, unless one of them was a cancellation. */
    method Run(script: seq<Reply>)
      requires IsScript(script) && Contents() == START
      modifies this
      ensures Contents() == After(script)
    {
      var next, reconnect := 0, true;
      while reconnect
        invariant next <= |script|
        invariant (if reconnect then Contents().(position := committed) else Contents()) == After(script[..next])
        invariant !reconnect ==> next == |script|
        decreases |script| - next, reconnect
      {
        position := committed;  // a new reader resumes from the group offset
        next, reconnect := Consume(script, next);
      }
      assert script[..next] == script;
    }
  }
}
