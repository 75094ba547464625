/** The event bus: subscriber channels per run, non-blocking publication, and cleanup.
    The engine's bus and the evaluation bus are this machine with different events. */
module EventBus {

  type RunId = string
  type ChanId = nat

  const CAPACITY := 256

  /** A channel. `buffer` is what the receiver has not taken yet. The rest is history:
      every event offered while the channel was registered, those that entered the
      buffer, and how many were dropped because it was full. */
  datatype Channel<E> =
    Channel(run: RunId, buffer: seq<E>, closed: bool, offered: seq<E>, accepted: seq<E>, dropped: nat)

  datatype Bus<E> = Bus(subscribers: map<RunId, seq<ChanId>>, channels: map<ChanId, Channel<E>>)
  {
    function Subs(run: RunId): seq<ChanId>
    {
      if run in subscribers then subscribers[run] else []
    }
  }

  function Offer<E>(ch: Channel<E>, e: E): Channel<E>
  {
    if |ch.buffer| < CAPACITY then
      ch.(buffer := ch.buffer + [e], offered := ch.offered + [e], accepted := ch.accepted + [e])
    else ch.(offered := ch.offered + [e], dropped := ch.dropped + 1)
  }

  function OfferAll<E>(channels: map<ChanId, Channel<E>>, ids: seq<ChanId>, e: E): map<ChanId, Channel<E>>
  {
    if ids == [] then channels
    else
      var before := OfferAll(channels, ids[..|ids| - 1], e);
      var id := ids[|ids| - 1];
      if id in before then before[id := Offer(before[id], e)] else before
  }

  function Remove(ids: seq<ChanId>, id: ChanId): seq<ChanId>
  {
    if ids == [] then [] else if ids[0] == id then ids[1..] else [ids[0]] + Remove(ids[1..], id)
  }

  /** The operations, in the order a run of the program performs them. */
  datatype Op<E> =
    | Subscribe(run: RunId, id: ChanId)
    | Publish(run: RunId, event: E)
    | Cleanup(id: ChanId)
    | Take(id: ChanId)

  /** A channel is created once; its cleanup runs once; a receiver takes what is there. A
      second close, or a send on a closed channel, would panic. */
  predicate Allowed<E(==)>(b: Bus<E>, op: Op<E>)
  {
    match op
    case Subscribe(_, id) => id !in b.channels
    case Publish(_, _) => true
    case Cleanup(id) => id in b.channels && !b.channels[id].closed
    case Take(id) => id in b.channels && b.channels[id].buffer != []
  }

  function Unregister<E>(b: Bus<E>, run: RunId, id: ChanId): map<RunId, seq<ChanId>>
  {
    var rest := Remove(b.Subs(run), id);
    if rest == [] then b.subscribers - {run} else b.subscribers[run := rest]
  }

  function Perform<E>(b: Bus<E>, op: Op<E>): Bus<E>
    requires Allowed(b, op)
  {
    match op
    case Subscribe(run, id) =>
      Bus(b.subscribers[run := b.Subs(run) + [id]], b.channels[id := Channel(run, [], false, [], [], 0)])
    case Publish(run, e) => b.(channels := OfferAll(b.channels, b.Subs(run), e))
    case Cleanup(id) =>
      var ch := b.channels[id];
      Bus(Unregister(b, ch.run, id), b.channels[id := ch.(closed := true)])
    case Take(id) =>
      var ch := b.channels[id];
      b.(channels := b.channels[id := ch.(buffer := ch.buffer[1..])])
  }

  // ---- Safety ----

  ghost predicate Distinct(ids: seq<ChanId>)
  {
    forall i, j :: 0 <= i < j < |ids| ==> ids[i] != ids[j]
  }

  /** `a` is what is left of `b` after leaving some elements out. */
  predicate IsSubsequence<E(==)>(a: seq<E>, b: seq<E>)
  {
    a == [] ||
    (b != [] && (IsSubsequence(a, b[..|b| - 1]) ||
                 (a[|a| - 1] == b[|b| - 1] && IsSubsequence(a[..|a| - 1], b[..|b| - 1]))))
  }

  /** An open channel is registered under its own run; what it accepted is an in-order part
      of what it was offered, and all of it if nothing was dropped. */
  predicate ChannelOK<E(==)>(b: Bus<E>, id: ChanId)
  {
    id in b.channels ==>
      var ch := b.channels[id];
      (!ch.closed <==> id in b.Subs(ch.run)) && HistoryOK(ch)
  }

  /** The subscribers of a run are open channels of that run, each listed once. */
  ghost predicate ListOK<E>(b: Bus<E>, run: RunId)
  {
    && Distinct(b.Subs(run))
    && (run in b.subscribers ==> b.subscribers[run] != [])
    && forall id :: id in b.Subs(run) ==> id in b.channels && b.channels[id].run == run && !b.channels[id].closed
  }

  ghost predicate Safe<E>(b: Bus<E>)
  {
    && (forall id {:trigger ChannelOK(b, id)} :: ChannelOK(b, id))
    && (forall run {:trigger ListOK(b, run)} :: ListOK(b, run))
  }

  lemma {:induction false} RemoveMembers(ids: seq<ChanId>, id: ChanId)
    requires Distinct(ids)
    ensures forall x :: x in Remove(ids, id) <==> x in ids && x != id
    ensures Distinct(Remove(ids, id))
  {
    if ids != [] {
      RemoveMembers(ids[1..], id);
      assert forall x :: x in ids <==> x == ids[0] || x in ids[1..];
      assert ids[0] !in ids[1..];
      assert ids[0] !in Remove(ids[1..], id);
    }
  }

  lemma {:induction false} OfferAllAt<E>(channels: map<ChanId, Channel<E>>, ids: seq<ChanId>, e: E, id: ChanId)
    requires Distinct(ids)
    ensures var after := OfferAll(channels, ids, e);
      && (id in after <==> id in channels)
      && (id in channels ==> after[id] == if id in ids then Offer(channels[id], e) else channels[id])
  {
    if ids != [] {
      var front, last := ids[..|ids| - 1], ids[|ids| - 1];
      assert Distinct(front) && last !in front;
      assert forall x :: x in ids <==> x in front || x == last;
      OfferAllAt(channels, front, e, id);
      OfferAllAt(channels, front, e, last);
    }
  }

  lemma SubsequenceGrows<E>(a: seq<E>, b: seq<E>, e: E)
    requires IsSubsequence(a, b)
    ensures IsSubsequence(a, b + [e]) && IsSubsequence(a + [e], b + [e])
  {
    assert (b + [e])[..|b|] == b && (a + [e])[..|a|] == a;
  }

  lemma SuffixGrows<E>(all: seq<E>, part: seq<E>, e: E)
    requires |part| <= |all| && part == all[|all| - |part|..]
    ensures part + [e] == (all + [e])[|all| - |part|..]
  {
  }

  /** What a channel keeps about what it was offered and what it accepted. */
  predicate HistoryOK<E(==)>(ch: Channel<E>)
  {
    && |ch.buffer| <= CAPACITY && |ch.buffer| <= |ch.accepted|
    && ch.buffer == ch.accepted[|ch.accepted| - |ch.buffer|..]
    && IsSubsequence(ch.accepted, ch.offered)
    && |ch.offered| == |ch.accepted| + ch.dropped
    && (ch.dropped == 0 ==> ch.accepted == ch.offered)
  }

  lemma OfferOK<E>(ch: Channel<E>, e: E)
    requires HistoryOK(ch)
    ensures HistoryOK(Offer(ch, e))
  {
    SubsequenceGrows(ch.accepted, ch.offered, e);
    if |ch.buffer| < CAPACITY {
      TakenOK(ch, e);
    }
  }

  lemma TakenOK<E>(ch: Channel<E>, e: E)
    requires HistoryOK(ch) && |ch.buffer| < CAPACITY && IsSubsequence(ch.accepted + [e], ch.offered + [e])
    ensures HistoryOK(Offer(ch, e))
  {
    SuffixGrows(ch.accepted, ch.buffer, e);
  }

  lemma SubscribeSafe<E>(b: Bus<E>, run: RunId, id: ChanId)
    requires Safe(b) && id !in b.channels
    ensures Safe(Perform(b, Subscribe(run, id)))
  {
    var after := Perform(b, Subscribe(run, id));
    assert ListOK(b, run);
    forall x
      ensures ChannelOK(after, x)
    {
      assert ChannelOK(b, x);
    }
    forall r
      ensures ListOK(after, r)
    {
      assert ListOK(b, r);
    }
  }

  lemma PublishSafe<E>(b: Bus<E>, run: RunId, e: E)
    requires Safe(b)
    ensures Safe(Perform(b, Publish(run, e)))
  {
    var after := Perform(b, Publish(run, e));
    assert ListOK(b, run);
    forall x
      ensures ChannelOK(after, x) && (x in after.channels <==> x in b.channels)
      ensures x in b.channels ==>
        after.channels[x].run == b.channels[x].run && after.channels[x].closed == b.channels[x].closed
    {
      assert ChannelOK(b, x);
      OfferAllAt(b.channels, b.Subs(run), e, x);
      if x in b.channels {
        OfferOK(b.channels[x], e);
      }
    }
    forall r
      ensures ListOK(after, r)
    {
      assert ListOK(b, r);
    }
  }

  /** What publishing does to one channel: an open channel of the run takes the event while it holds
      fewer than 256, and drops it otherwise; every other channel is left alone. */
  lemma PublishReaches<E>(b: Bus<E>, run: RunId, e: E, id: ChanId)
    requires Safe(b) && id in b.channels
    ensures var ch, after := b.channels[id], Perform(b, Publish(run, e)).channels;
      && id in after
      && if ch.closed || ch.run != run then after[id] == ch
         else
           && after[id].offered == ch.offered + [e] && after[id].run == run && !after[id].closed
           && after[id].buffer == ch.buffer + (if |ch.buffer| < 256 then [e] else [])
           && after[id].accepted == ch.accepted + (if |ch.buffer| < 256 then [e] else [])
           && after[id].dropped == ch.dropped + if |ch.buffer| < 256 then 0 else 1
  {
    assert ListOK(b, run) && ChannelOK(b, id);
    OfferAllAt(b.channels, b.Subs(run), e, id);
  }

  lemma UnregisterSubs<E>(b: Bus<E>, run: RunId, id: ChanId, r: RunId, after: Bus<E>)
    requires after.subscribers == Unregister(b, run, id)
    ensures after.Subs(r) == if r == run then Remove(b.Subs(run), id) else b.Subs(r)
    ensures r == run && r in after.subscribers ==> after.subscribers[r] != []
    ensures r != run ==> (r in after.subscribers <==> r in b.subscribers)
  {
  }

  lemma CleanupSafe<E>(b: Bus<E>, id: ChanId)
    requires Safe(b) && Allowed(b, Cleanup(id))
    ensures Safe(Perform(b, Cleanup(id)))
  {
    var after, run := Perform(b, Cleanup(id)), b.channels[id].run;
    assert ListOK(b, run) && ChannelOK(b, id);
    RemoveMembers(b.Subs(run), id);
    forall x
      ensures ChannelOK(after, x)
    {
      assert ChannelOK(b, x);
      if x in b.channels {
        UnregisterSubs(b, run, id, b.channels[x].run, after);
      }
    }
    forall r
      ensures ListOK(after, r)
    {
      assert ListOK(b, r);
      UnregisterSubs(b, run, id, r, after);
    }
  }

  lemma TakeSafe<E>(b: Bus<E>, id: ChanId)
    requires Safe(b) && Allowed(b, Take(id))
    ensures Safe(Perform(b, Take(id)))
  {
    var after := Perform(b, Take(id));
    forall x
      ensures ChannelOK(after, x)
    {
      assert ChannelOK(b, x);
    }
    forall r
      ensures ListOK(after, r)
    {
      assert ListOK(b, r);
    }
  }

  lemma PerformSafe<E>(b: Bus<E>, op: Op<E>)
    requires Safe(b) && Allowed(b, op)
    ensures Safe(Perform(b, op))
  {
    match op
    case Subscribe(run, id) => SubscribeSafe(b, run, id);
    case Publish(run, e) => PublishSafe(b, run, e);
    case Cleanup(id) => CleanupSafe(b, id);
    case Take(id) => TakeSafe(b, id);
  }

  // ---- Whole runs ----

  /** The bus after a sequence of operations, starting empty. */
  function BusAfter<E>(ops: seq<Op<E>>): Bus<E>
    requires IsHistory(ops)
    decreases |ops|, 1
  {
    if ops == [] then Bus(map[], map[]) else Perform(BusAfter(ops[..|ops| - 1]), ops[|ops| - 1])
  }

  predicate IsHistory<E(==)>(ops: seq<Op<E>>)
    decreases |ops|, 0
  {
    ops == [] || (IsHistory(ops[..|ops| - 1]) && Allowed(BusAfter(ops[..|ops| - 1]), ops[|ops| - 1]))
  }

  /** In every history only open channels are registered, each exactly once, and every
      channel holds an in-order part of what it was offered. */
  lemma {:induction false} HistorySafe<E>(ops: seq<Op<E>>)
    requires IsHistory(ops)
    ensures Safe(BusAfter(ops))
  {
    if ops != [] {
      HistorySafe(ops[..|ops| - 1]);
      PerformSafe(BusAfter(ops[..|ops| - 1]), ops[|ops| - 1]);
    }
  }

  /** Where a channel stands in a history. */
  datatype Phase = Unborn | Open(run: RunId) | Closed

  function PhaseOf<E>(ops: seq<Op<E>>, id: ChanId): Phase
  {
    if ops == [] then Unborn
    else
      var before := PhaseOf(ops[..|ops| - 1], id);
      match ops[|ops| - 1]
      case Subscribe(run, x) => if x == id then Open(run) else before
      case Cleanup(x) => if x == id then Closed else before
      case _ => before
  }

  /** The events published to the run of channel `id` between its subscription and its cleanup. */
  function Heard<E>(ops: seq<Op<E>>, id: ChanId): seq<E>
  {
    if ops == [] then []
    else
      var front := ops[..|ops| - 1];
      match ops[|ops| - 1]
      case Publish(run, e) => if PhaseOf(front, id) == Open(run) then Heard(front, id) + [e] else Heard(front, id)
      case _ => Heard(front, id)
  }

  predicate MatchesHistory<E(==)>(b: Bus<E>, phase: Phase, heard: seq<E>, id: ChanId)
  {
    match phase
    case Unborn => id !in b.channels && heard == []
    case Open(run) =>
      id in b.channels && b.channels[id].run == run && !b.channels[id].closed && b.channels[id].offered == heard
    case Closed => id in b.channels && b.channels[id].closed && b.channels[id].offered == heard
  }

  lemma {:induction false} HeardIsOffered<E>(ops: seq<Op<E>>, id: ChanId)
    requires IsHistory(ops)
    ensures MatchesHistory(BusAfter(ops), PhaseOf(ops, id), Heard(ops, id), id)
  {
    if ops != [] {
      var front := ops[..|ops| - 1];
      HeardIsOffered(front, id);
      HistorySafe(front);
      var b := BusAfter(front);
      match ops[|ops| - 1]
      case Publish(run, e) =>
        assert ListOK(b, run) && ChannelOK(b, id);
        OfferAllAt(b.channels, b.Subs(run), e, id);
      case Subscribe(_, _) =>
      case Cleanup(_) =>
      case Take(_) =>
    }
  }

  /** Delivery: whatever a subscriber has been sent is an in-order part of the events
      published to its run while it was subscribed, and all of them if its buffer was
      never full. */
  lemma Delivery<E>(ops: seq<Op<E>>, id: ChanId)
    requires IsHistory(ops) && id in BusAfter(ops).channels
    ensures var ch := BusAfter(ops).channels[id];
      && IsSubsequence(ch.accepted, Heard(ops, id))
      && (ch.dropped == 0 ==> ch.accepted == Heard(ops, id))
      && (ch.closed <==> PhaseOf(ops, id) == Closed)
  {
    HistorySafe(ops);
    HeardIsOffered(ops, id);
    assert ChannelOK(BusAfter(ops), id);
  }
}
