/** The order in which a finished run is made known: persist, announce, close. Every other
    user of the bus may act between any two steps. */
module RunProtocol {
  import opened Workflow
  import opened EventBus

  datatype NodeEvent = Progress(node: NodeId, tag: nat) | RunSucceeded | RunFailed

  datatype RunStatus = StatusRunning | StatusSucceeded | StatusFailed

  /** Where the background goroutine of the run is. */
  datatype Stage = Executing | Persisting | Saving | Announcing | Closing | Done

  /** The bus, the goroutine, and the stored record of the run: its status and whether its node
      results are there. `write` and `save` are how the two store writes went, once attempted. */
  datatype World = World(
    bus: Bus<NodeEvent>,
    stage: Stage,
    failed: bool,
    status: RunStatus,
    resultsStored: bool,
    write: Option<bool>,
    save: Option<bool>)

  datatype Move =
    | Finish(failed: bool)
    | Persist(ok: bool)
    | Save(ok: bool)
    | Announce
    | Close
    | Other(op: Op<NodeEvent>)

  predicate IsTerminal(e: NodeEvent)
  {
    e.RunSucceeded? || e.RunFailed?
  }

  function TerminalEvent(failed: bool): NodeEvent
  {
    if failed then RunFailed else RunSucceeded
  }

  function FinalStatus(failed: bool): RunStatus
  {
    if failed then StatusFailed else StatusSucceeded
  }

  /** Others neither close the run's own channel nor announce the end of the run. */
  predicate CanMove(run: RunId, handle: ChanId, w: World, m: Move)
  {
    match m
    case Finish(_) => w.stage == Executing
    case Persist(_) => w.stage == Persisting
    case Save(_) => w.stage == Saving
    case Announce => w.stage == Announcing
    case Close => w.stage == Closing && Allowed(w.bus, Cleanup(handle))
    case Other(op) =>
      && Allowed(w.bus, op) && op != Cleanup(handle)
      && (op.Publish? && op.run == run ==> !IsTerminal(op.event))
  }

  function DoMove(run: RunId, handle: ChanId, w: World, m: Move): World
    requires CanMove(run, handle, w, m)
  {
    match m
    case Finish(failed) => w.(stage := Persisting, failed := failed)
    case Persist(ok) => w.(stage := Saving, write := Some(ok), status := if ok then FinalStatus(w.failed) else w.status)
    case Save(ok) => w.(stage := Announcing, save := Some(ok), resultsStored := ok || w.resultsStored)
    case Announce => w.(stage := Closing, bus := Perform(w.bus, Publish(run, TerminalEvent(w.failed))))
    case Close => w.(stage := Done, bus := Perform(w.bus, Cleanup(handle)))
    case Other(op) => w.(bus := Perform(w.bus, op))
  }

  /** The run record exists and its channel has just been subscribed to a safe bus. */
  ghost predicate Begins(run: RunId, handle: ChanId, w: World)
  {
    && Safe(w.bus) && handle in w.bus.channels && !w.bus.channels[handle].closed
    && w.bus.channels[handle].run == run
    && (forall id :: id in w.bus.channels && w.bus.channels[id].run == run ==> w.bus.channels[id].offered == [])
    && w.stage == Executing && w.status == StatusRunning && !w.resultsStored && w.write == None && w.save == None
  }

  /** A sequence of worlds, each following from the one before by some move. */
  ghost predicate IsExecution(run: RunId, handle: ChanId, ws: seq<World>)
  {
    && |ws| >= 1 && Begins(run, handle, ws[0])
    && forall i {:trigger FollowsAt(run, handle, ws, i)} :: 0 <= i < |ws| - 1 ==> FollowsAt(run, handle, ws, i)
  }

  ghost predicate FollowsAt(run: RunId, handle: ChanId, ws: seq<World>, i: nat)
    requires i + 1 < |ws|
  {
    Follows(run, handle, ws[i], ws[i + 1])
  }

  ghost predicate Follows(run: RunId, handle: ChanId, w: World, x: World)
  {
    exists m :: CanMove(run, handle, w, m) && x == DoMove(run, handle, w, m)
  }

  /** What a channel of the run tells about how far the run is. */
  predicate TellsTruth(run: RunId, handle: ChanId, w: World, id: ChanId)
  {
    id in w.bus.channels && w.bus.channels[id].run == run ==>
      && (forall e :: e in w.bus.channels[id].offered && IsTerminal(e) ==>
            w.stage in {Closing, Done} && e == TerminalEvent(w.failed))
      && (id == handle ==> (w.bus.channels[id].closed <==> w.stage == Done))
      && (id == handle && w.stage in {Closing, Done} ==> TerminalEvent(w.failed) in w.bus.channels[id].offered)
  }

  ghost predicate Orderly(run: RunId, handle: ChanId, w: World)
  {
    && Safe(w.bus) && handle in w.bus.channels && w.bus.channels[handle].run == run
    && (forall id {:trigger TellsTruth(run, handle, w, id)} :: TellsTruth(run, handle, w, id))
    && (w.write.Some? <==> w.stage !in {Executing, Persisting})
    && (w.save.Some? <==> w.stage !in {Executing, Persisting, Saving})
    && w.status == (if w.write == Some(true) then FinalStatus(w.failed) else StatusRunning)
    && (w.resultsStored <==> w.save == Some(true))
  }

  /** Both store writes have been attempted, and the stored record is what they left. */
  predicate Recorded(w: World)
  {
    && w.write.Some? && w.save.Some?
    && w.status == (if !w.write.value then StatusRunning else if w.failed then StatusFailed else StatusSucceeded)
    && w.resultsStored == w.save.value
  }

  lemma PublishTells(run: RunId, handle: ChanId, w: World, to: RunId, e: NodeEvent, id: ChanId)
    requires Orderly(run, handle, w)
    ensures var after := Perform(w.bus, Publish(to, e));
      && (id in after.channels <==> id in w.bus.channels)
      && (id in after.channels ==>
            && after.channels[id].run == w.bus.channels[id].run
            && after.channels[id].closed == w.bus.channels[id].closed
            && after.channels[id].offered == w.bus.channels[id].offered + (if id in w.bus.Subs(to) then [e] else []))
      && (id in w.bus.Subs(to) ==> id in w.bus.channels && w.bus.channels[id].run == to)
      && (id in w.bus.channels && !w.bus.channels[id].closed ==> id in w.bus.Subs(w.bus.channels[id].run))
  {
    assert ListOK(w.bus, to) && ChannelOK(w.bus, id);
    OfferAllAt(w.bus.channels, w.bus.Subs(to), e, id);
  }

  lemma OtherTells(run: RunId, handle: ChanId, w: World, op: Op<NodeEvent>, id: ChanId)
    requires Orderly(run, handle, w) && CanMove(run, handle, w, Other(op))
    ensures TellsTruth(run, handle, DoMove(run, handle, w, Other(op)), id)
  {
    assert TellsTruth(run, handle, w, id);
    match op
    case Publish(to, e) => PublishTells(run, handle, w, to, e, id);
    case Subscribe(_, _) =>
    case Cleanup(_) =>
    case Take(_) =>
  }

  lemma MoveKeepsOrder(run: RunId, handle: ChanId, w: World, m: Move)
    requires Orderly(run, handle, w) && CanMove(run, handle, w, m)
    ensures Orderly(run, handle, DoMove(run, handle, w, m))
  {
    var x := DoMove(run, handle, w, m);
    match m {
      case Announce => PublishSafe(w.bus, run, TerminalEvent(w.failed));
      case Close => CleanupSafe(w.bus, handle);
      case Other(op) => PerformSafe(w.bus, op);
      case _ =>
    }
    forall id
      ensures TellsTruth(run, handle, x, id)
    {
      assert TellsTruth(run, handle, w, id);
      match m
      case Announce => PublishTells(run, handle, w, run, TerminalEvent(w.failed), id);
      case Other(op) => OtherTells(run, handle, w, op, id);
      case _ =>
    }
    HandleStays(run, handle, w, m);
  }

  lemma HandleStays(run: RunId, handle: ChanId, w: World, m: Move)
    requires Orderly(run, handle, w) && CanMove(run, handle, w, m)
    ensures var x := DoMove(run, handle, w, m); handle in x.bus.channels && x.bus.channels[handle].run == run
  {
    match m
    case Announce => PublishTells(run, handle, w, run, TerminalEvent(w.failed), handle);
    case Other(op) =>
      if op.Publish? {
        PublishTells(run, handle, w, op.run, op.event, handle);
      }
    case _ =>
  }

  lemma {:induction false} ExecutionIsOrderly(run: RunId, handle: ChanId, ws: seq<World>)
    requires IsExecution(run, handle, ws)
    ensures Orderly(run, handle, ws[|ws| - 1])
  {
    var n := |ws|;
    if n == 1 {
      forall id
        ensures TellsTruth(run, handle, ws[0], id)
      {
      }
    } else {
      var front := ws[..n - 1];
      forall i | 0 <= i < |front| - 1
        ensures FollowsAt(run, handle, front, i)
      {
        assert FollowsAt(run, handle, ws, i);
      }
      ExecutionIsOrderly(run, handle, front);
      assert FollowsAt(run, handle, ws, n - 2);
      var m :| CanMove(run, handle, ws[n - 2], m) && ws[n - 1] == DoMove(run, handle, ws[n - 2], m);
      MoveKeepsOrder(run, handle, ws[n - 2], m);
    }
  }

  /** Channel `id` of the run has accepted the terminal event `e`. */
  predicate AcceptedEnd(run: RunId, w: World, id: ChanId, e: NodeEvent)
  {
    id in w.bus.channels && w.bus.channels[id].run == run && IsTerminal(e) && e in w.bus.channels[id].accepted
  }

  /** When the channel of a run handle is closed, or some channel of the run has accepted a
      terminal event, both store writes have been attempted: a status write that succeeded has
      left the final status, one that failed the running status, and likewise for the node
      results. The accepted event tells how the run ended, and a closed handle was offered it. */
  lemma PersistedBeforeKnown(run: RunId, handle: ChanId, ws: seq<World>)
    requires IsExecution(run, handle, ws)
    ensures var w := ws[|ws| - 1];
      && handle in w.bus.channels
      && (w.bus.channels[handle].closed ==>
            Recorded(w) && (if w.failed then RunFailed else RunSucceeded) in w.bus.channels[handle].offered)
      && (forall id, e :: AcceptedEnd(run, w, id, e) ==>
            Recorded(w) && e == if w.failed then RunFailed else RunSucceeded)
  {
    ExecutionIsOrderly(run, handle, ws);
    var w := ws[|ws| - 1];
    assert TellsTruth(run, handle, w, handle);
    forall id, e | AcceptedEnd(run, w, id, e)
      ensures Recorded(w) && e == TerminalEvent(w.failed)
    {
      assert ChannelOK(w.bus, id) && TellsTruth(run, handle, w, id);
      SubsequenceMember(w.bus.channels[id].accepted, w.bus.channels[id].offered, e);
    }
  }

  /** What a reader that drained the handle's channel to its end finds in the store: the final
      status exactly when the status write succeeded, and never a status that is still to come. */
  lemma ReadAfterDrain(run: RunId, handle: ChanId, ws: seq<World>, k: nat)
    requires IsExecution(run, handle, ws) && k < |ws|
    requires handle in ws[k].bus.channels && ws[k].bus.channels[handle].closed
    ensures ws[|ws| - 1].status == ws[k].status && ws[|ws| - 1].resultsStored == ws[k].resultsStored
    ensures ws[k].write == Some(true) ==> ws[k].status == if ws[k].failed then StatusFailed else StatusSucceeded
    ensures ws[k].write == Some(false) ==> ws[k].status == StatusRunning
    ensures ws[k].write.Some? && ws[k].save == Some(ws[k].resultsStored)
  {
    StaysRecorded(run, handle, ws, k, |ws| - 1);
    PrefixIsExecution(run, handle, ws, k);
    PersistedBeforeKnown(run, handle, ws[..k + 1]);
  }

  /** How the run ended, success or failure, is decided when it ends and is not changed later. */
  lemma {:induction false} EndsOnce(run: RunId, handle: ChanId, ws: seq<World>, k: nat, n: nat, failed: bool)
    requires IsExecution(run, handle, ws) && k < n < |ws|
    requires ws[k].stage == Executing && ws[k + 1] == DoMove(run, handle, ws[k], Finish(failed))
    ensures ws[n].stage != Executing && ws[n].failed == failed
  {
    if n > k + 1 {
      EndsOnce(run, handle, ws, k, n - 1, failed);
      assert FollowsAt(run, handle, ws, n - 1);
    }
  }

  lemma PrefixIsExecution(run: RunId, handle: ChanId, ws: seq<World>, k: nat)
    requires IsExecution(run, handle, ws) && k < |ws|
    ensures IsExecution(run, handle, ws[..k + 1])
  {
    var front := ws[..k + 1];
    forall i | 0 <= i < |front| - 1
      ensures FollowsAt(run, handle, front, i)
    {
      assert FollowsAt(run, handle, ws, i);
    }
  }

  lemma {:induction false} StaysRecorded(run: RunId, handle: ChanId, ws: seq<World>, k: nat, n: nat)
    requires IsExecution(run, handle, ws) && k <= n < |ws|
    requires handle in ws[k].bus.channels && ws[k].bus.channels[handle].closed
    ensures ws[n].stage == Done && ws[n].status == ws[k].status && ws[n].resultsStored == ws[k].resultsStored
  {
    if k == n {
      PrefixIsExecution(run, handle, ws, k);
      ExecutionIsOrderly(run, handle, ws[..k + 1]);
      assert TellsTruth(run, handle, ws[k], handle);
    } else {
      StaysRecorded(run, handle, ws, k, n - 1);
      assert FollowsAt(run, handle, ws, n - 1);
    }
  }

  lemma {:induction false} SubsequenceMember<E>(a: seq<E>, b: seq<E>, e: E)
    requires IsSubsequence(a, b) && e in a
    ensures e in b
    decreases |b|
  {
    if IsSubsequence(a, b[..|b| - 1]) {
      SubsequenceMember(a, b[..|b| - 1], e);
    } else if e in a[..|a| - 1] {
      SubsequenceMember(a[..|a| - 1], b[..|b| - 1], e);
    } else {
      assert e == b[|b| - 1];
    }
  }
}
