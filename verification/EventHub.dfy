/** The event bus as it is implemented: a map of subscriber lists updated in place, with a
    send loop for publication and a search loop for cleanup. */
module EventHub {
  import opened EventBus

  lemma {:induction false} RemoveAt(ids: seq<ChanId>, id: ChanId, i: nat)
    requires i < |ids| && ids[i] == id && forall j :: 0 <= j < i ==> ids[j] != id
    ensures Remove(ids, id) == ids[..i] + ids[i + 1..]
  {
    if i > 0 {
      RemoveAt(ids[1..], id, i - 1);
      assert ids[..i] == [ids[0]] + ids[1..][..i - 1];
      assert ids[i + 1..] == ids[1..][i..];
    }
  }

  lemma {:induction false} RemoveAbsent(ids: seq<ChanId>, id: ChanId)
    requires id !in ids
    ensures Remove(ids, id) == ids
  {
    if ids != [] {
      RemoveAbsent(ids[1..], id);
    }
  }

  class Hub<E> {
    var subscribers: map<RunId, seq<ChanId>>
    var channels: map<ChanId, Channel<E>>
    var next: ChanId

    ghost function Contents(): Bus<E>
      reads this
    {
      Bus(subscribers, channels)
    }

    /** Channel ids are handed out once, and the bus is safe. */
    ghost predicate Valid()
      reads this
    {
      Safe(Contents()) && forall id :: id in channels ==> id < next
    }

    constructor ()
      ensures Valid() && Contents() == Bus(map[], map[])
    {
      subscribers, channels, next := map[], map[], 0;
      new;
      forall id
        ensures ChannelOK(Contents(), id)
      {
      }
      forall run
        ensures ListOK(Contents(), run)
      {
      }
    }

    method Join(run: RunId) returns (id: ChanId)
      requires Valid()
      modifies this
      ensures Valid() && Allowed(old(Contents()), Subscribe(run, id))
      ensures Contents() == Perform(old(Contents()), Subscribe(run, id))
    {
      id := next;
      ghost var before := Contents();
      channels := channels[id := Channel(run, [], false, [], [], 0)];
      subscribers := subscribers[run := (if run in subscribers then subscribers[run] else []) + [id]];
      next := next + 1;
      SubscribeSafe(before, run, id);
    }

    /** Sends without blocking to every subscriber of the run, in order. */
    method Send(run: RunId, e: E)
      requires Valid()
      modifies this
      ensures Valid() && Contents() == Perform(old(Contents()), Publish(run, e))
    {
      ghost var before := Contents();
      var subs := if run in subscribers then subscribers[run] else [];
      for i := 0 to |subs|
        invariant subscribers == before.subscribers && next == old(next)
        invariant channels == OfferAll(before.channels, subs[..i], e)
      {
        assert subs[..i + 1][..i] == subs[..i];
        if subs[i] in channels {
          channels := channels[subs[i] := Offer(channels[subs[i]], e)];
        }
      }
      assert subs[..|subs|] == subs;
      PublishSafe(before, run, e);
      assert ListOK(before, run);
      forall id | id in channels
        ensures id < next
      {
        OfferAllAt(before.channels, subs, e, id);
      }
    }

    /** Finds the channel in its run's list, takes it out, drops an empty list, closes the channel. */
    method Leave(id: ChanId)
      requires Valid() && Allowed(Contents(), Cleanup(id))
      modifies this
      ensures Valid() && Contents() == Perform(old(Contents()), Cleanup(id))
    {
      ghost var before := Contents();
      var run := channels[id].run;
      var subs := if run in subscribers then subscribers[run] else [];
      var rest := subs;
      for i := 0 to |subs|
        invariant rest == subs && forall j :: 0 <= j < i ==> subs[j] != id
      {
        if subs[i] == id {
          rest := subs[..i] + subs[i + 1..];
          RemoveAt(subs, id, i);
          break;
        }
      }
      if id !in subs {
        RemoveAbsent(subs, id);
      }
      subscribers := if rest == [] then subscribers - {run} else subscribers[run := rest];
      channels := channels[id := channels[id].(closed := true)];
      CleanupSafe(before, id);
    }
  }
}
