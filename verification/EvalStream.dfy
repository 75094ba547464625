/** The evaluation stream: a runner that writes the final status and then announces it, and
    a stream handler that subscribes and then reads the status, with every other user of
    the bus acting between any two of their steps. */
module EvalStream {
  import opened EventBus

  datatype EvalEvent =
    | CaseStarted(name: string)
    | CaseCompleted(name: string, passed: bool)
    | EvalCompleted
    | EvalFailed

  /** The runner: executing cases, done writing the final status, done announcing it. */
  datatype Writer = Working | Wrote(ok: bool) | Announced(ok: bool)

  /** The handler: not connected; subscribed and about to read the status; answering from
      the store; waiting for events; told of the end by an event; or disconnected. */
  datatype Reader = Absent | Checking | FromStore | Waiting | Told | Gone

  /** `early` and `room` record, at the announcement, whether the handler's channel was open
      and whether it had room. */
  datatype World = World(bus: Bus<EvalEvent>, writer: Writer, completed: bool, reader: Reader, early: bool, room: bool)

  datatype Move =
    | Progress(event: EvalEvent)
    | Write(ok: bool)
    | Announce
    | Connect
    | ReadStatus
    | Receive
    | Disconnect
    | Other(op: Op<EvalEvent>)

  predicate IsEnd(e: EvalEvent)
  {
    e.EvalCompleted? || e.EvalFailed?
  }

  /** A failed status write is announced as a failed run. */
  function EndEvent(ok: bool): EvalEvent
  {
    if ok then EvalCompleted else EvalFailed
  }

  /** The run under observation and the handler's channel. */
  datatype Stream = Stream(run: RunId, me: ChanId)
  {
    /** Others leave the handler's channel alone and do not announce the end of this run. */
    predicate Foreign(op: Op<EvalEvent>)
    {
      match op
      case Publish(to, e) => to == run ==> !IsEnd(e)
      case Subscribe(_, id) => id != me
      case Cleanup(id) => id != me
      case Take(id) => id != me
    }

    predicate IsOpen(w: World)
    {
      me in w.bus.channels && !w.bus.channels[me].closed
    }

    function Buffer(w: World): seq<EvalEvent>
    {
      if me in w.bus.channels then w.bus.channels[me].buffer else []
    }

    predicate CanMove(w: World, m: Move)
    {
      match m
      case Progress(e) => w.writer == Working && !IsEnd(e)
      case Write(_) => w.writer == Working
      case Announce => w.writer.Wrote?
      case Connect => w.reader == Absent && Allowed(w.bus, Subscribe(run, me))
      case ReadStatus => w.reader == Checking
      case Receive => w.reader == Waiting && Allowed(w.bus, Take(me))
      case Disconnect => Allowed(w.bus, Cleanup(me))
      case Other(op) => Allowed(w.bus, op) && Foreign(op)
    }

    function DoMove(w: World, m: Move): World
      requires CanMove(w, m)
    {
      match m
      case Progress(e) => w.(bus := Perform(w.bus, Publish(run, e)))
      case Write(ok) => w.(writer := Wrote(ok), completed := ok)
      case Announce =>
        w.(writer := Announced(w.writer.ok), early := IsOpen(w), room := |Buffer(w)| < CAPACITY,
           bus := Perform(w.bus, Publish(run, EndEvent(w.writer.ok))))
      case Connect => w.(reader := Checking, bus := Perform(w.bus, Subscribe(run, me)))
      case ReadStatus => w.(reader := if w.completed then FromStore else Waiting)
      case Receive =>
        w.(reader := if IsEnd(Buffer(w)[0]) then Told else Waiting, bus := Perform(w.bus, Take(me)))
      case Disconnect =>
        w.(reader := if w.reader in {Checking, Waiting} then Gone else w.reader, bus := Perform(w.bus, Cleanup(me)))
      case Other(op) => w.(bus := Perform(w.bus, op))
    }

    predicate Possible(w: World, ms: seq<Move>)
      decreases |ms|, 0
    {
      ms == [] || (Possible(w, ms[..|ms| - 1]) && CanMove(WorldAfter(w, ms[..|ms| - 1]), ms[|ms| - 1]))
    }

    function WorldAfter(w: World, ms: seq<Move>): World
      requires Possible(w, ms)
      decreases |ms|, 1
    {
      if ms == [] then w else DoMove(WorldAfter(w, ms[..|ms| - 1]), ms[|ms| - 1])
    }

    /** The run is being worked on, the bus is safe and the handler's channel does not exist yet. */
    ghost predicate Begins(w: World)
    {
      Safe(w.bus) && me !in w.bus.channels && w.writer == Working && !w.completed && w.reader == Absent
    }

    predicate EndIn(es: seq<EvalEvent>)
    {
      exists i :: 0 <= i < |es| && IsEnd(es[i])
    }

    /** What the handler knows agrees with what the runner did. */
    ghost predicate Sound(w: World)
    {
      && Safe(w.bus)
      && (w.reader == Absent <==> me !in w.bus.channels)
      && (me in w.bus.channels ==> w.bus.channels[me].run == run)
      && (w.reader in {Checking, Waiting} ==> IsOpen(w))
      && (w.completed <==> w.writer == Wrote(true) || w.writer == Announced(true))
      && (w.reader == FromStore ==> w.completed)
      && (w.reader == Told ==> w.writer.Announced? && w.early && w.room)
      && (forall i :: 0 <= i < |Buffer(w)| && IsEnd(Buffer(w)[i]) ==>
            w.writer.Announced? && Buffer(w)[i] == EndEvent(w.writer.ok))
      && (w.reader in {Checking, Waiting} && w.writer.Announced? ==> (EndIn(Buffer(w)) <==> w.early && w.room))
      && (w.writer.Announced? && w.reader == Absent ==> !w.early)
      && (w.writer == Announced(true) && w.reader == Waiting ==> w.early)
      && (EndIn(Buffer(w)) ==> w.writer.Announced? && w.early && w.room)
    }

    // ---- One step ----

    lemma PublishSeen(w: World, to: RunId, e: EvalEvent)
      requires Sound(w)
      ensures var after := Perform(w.bus, Publish(to, e));
        && Safe(after)
        && (me in after.channels <==> me in w.bus.channels)
        && (me in after.channels ==>
              && after.channels[me].run == run && after.channels[me].closed == w.bus.channels[me].closed
              && after.channels[me].buffer ==
                Buffer(w) + (if to == run && IsOpen(w) && |Buffer(w)| < CAPACITY then [e] else []))
    {
      PublishSafe(w.bus, to, e);
      assert ListOK(w.bus, to) && ListOK(w.bus, run) && ChannelOK(w.bus, me);
      OfferAllAt(w.bus.channels, w.bus.Subs(to), e, me);
    }

    /** Publishing something that is not the end changes nothing the handler relies on. */
    lemma ProgressKeeps(w: World, to: RunId, e: EvalEvent)
      requires Sound(w) && (to == run ==> !IsEnd(e))
      ensures Sound(w.(bus := Perform(w.bus, Publish(to, e))))
    {
      PublishSeen(w, to, e);
      var x := w.(bus := Perform(w.bus, Publish(to, e)));
      assert EndIn(Buffer(x)) ==> EndIn(Buffer(w));
      assert EndIn(Buffer(w)) ==> EndIn(Buffer(x)) by {
        if EndIn(Buffer(w)) {
          var i :| 0 <= i < |Buffer(w)| && IsEnd(Buffer(w)[i]);
          assert IsEnd(Buffer(x)[i]);
        }
      }
    }

    lemma AnnounceKeeps(w: World)
      requires Sound(w) && w.writer.Wrote?
      ensures Sound(DoMove(w, Announce))
    {
      var e, x := EndEvent(w.writer.ok), DoMove(w, Announce);
      PublishSeen(w, run, e);
      if x.early && x.room {
        assert IsEnd(Buffer(x)[|Buffer(w)|]);
      }
    }

    lemma ReceiveKeeps(w: World)
      requires Sound(w) && CanMove(w, Receive)
      ensures Sound(DoMove(w, Receive))
    {
      var x := DoMove(w, Receive);
      TakeSafe(w.bus, me);
      var es := Buffer(w);
      assert Buffer(x) == es[1..];
      if EndIn(es) {
        var i :| 0 <= i < |es| && IsEnd(es[i]);
        assert i > 0 ==> IsEnd(es[1..][i - 1]);
      }
    }

    lemma OtherKeeps(w: World, op: Op<EvalEvent>)
      requires Sound(w) && Allowed(w.bus, op) && Foreign(op)
      ensures Sound(w.(bus := Perform(w.bus, op)))
    {
      if op.Publish? {
        ProgressKeeps(w, op.run, op.event);
      } else {
        PerformSafe(w.bus, op);
        assert Buffer(w.(bus := Perform(w.bus, op))) == Buffer(w);
      }
    }

    lemma MoveKeeps(w: World, m: Move)
      requires Sound(w) && CanMove(w, m)
      ensures Sound(DoMove(w, m))
    {
      match m
      case Progress(e) => ProgressKeeps(w, run, e);
      case Write(_) =>
      case Announce => AnnounceKeeps(w);
      case Connect => SubscribeSafe(w.bus, run, me);
      case ReadStatus =>
      case Receive => ReceiveKeeps(w);
      case Disconnect => CleanupSafe(w.bus, me);
      case Other(op) => OtherKeeps(w, op);
    }

    lemma {:induction false} RunKeeps(w: World, ms: seq<Move>)
      requires Sound(w) && Possible(w, ms)
      ensures Sound(WorldAfter(w, ms))
    {
      if ms != [] {
        RunKeeps(w, ms[..|ms| - 1]);
        MoveKeeps(WorldAfter(w, ms[..|ms| - 1]), ms[|ms| - 1]);
      }
    }

    // ---- What the handler can count on ----

    /** Once the end is announced, a waiting handler has the end event in its channel exactly
        when it was subscribed in time and had room; after a successful write it always was
        subscribed in time. A handler that was told, or that read the status, is right. */
    lemma NoLostEnd(w: World, ms: seq<Move>)
      requires Begins(w) && Possible(w, ms)
      ensures var x := WorldAfter(w, ms);
        && (x.writer.Announced? && x.reader == Waiting ==>
              && (EndIn(Buffer(x)) <==> x.early && x.room)
              && (x.writer.ok ==> x.early)
              && forall i :: 0 <= i < |Buffer(x)| && IsEnd(Buffer(x)[i]) ==>
                   Buffer(x)[i] == if x.writer.ok then EvalCompleted else EvalFailed)
        && (x.reader == FromStore ==> x.writer in {Wrote(true), Announced(true)})
        && (x.reader == Told ==> x.writer.Announced?)
    {
      RunKeeps(w, ms);
    }

    /** A waiting handler whose channel holds the end at position `k` is told after `k + 1` receives. */
    lemma {:induction false} BacklogDrains(w: World, k: nat)
      requires Sound(w) && w.reader == Waiting && k < |Buffer(w)| && IsEnd(Buffer(w)[k])
      requires forall i :: 0 <= i < k ==> !IsEnd(Buffer(w)[i])
      ensures Possible(w, seq(k + 1, _ => Receive)) && WorldAfter(w, seq(k + 1, _ => Receive)).reader == Told
    {
      Drained(w, k, k);
    }

    lemma {:induction false} Drained(w: World, k: nat, n: nat)
      requires Sound(w) && w.reader == Waiting && k < |Buffer(w)| && IsEnd(Buffer(w)[k])
      requires forall i :: 0 <= i < k ==> !IsEnd(Buffer(w)[i])
      requires n <= k
      ensures var ms := seq(n + 1, _ => Receive);
        && Possible(w, ms)
        && WorldAfter(w, ms).reader == (if n < k then Waiting else Told)
        && me in WorldAfter(w, ms).bus.channels
        && Buffer(WorldAfter(w, ms)) == Buffer(w)[n + 1..]
    {
      var ms := seq(n + 1, _ => Receive);
      var front := seq(n, _ => Receive);
      assert ms[..n] == front;
      if n == 0 {
        assert Possible(w, front) && WorldAfter(w, front) == w;
      } else {
        Drained(w, k, n - 1);
      }
    }

    /** A waiting handler that has no end event in its channel after the announcement is never told. */
    lemma {:induction false} StaysSilent(w: World, ms: seq<Move>)
      requires Sound(w) && w.writer.Announced? && w.reader == Waiting && !EndIn(Buffer(w)) && Possible(w, ms)
      ensures var x := WorldAfter(w, ms);
        Sound(x) && x.writer.Announced? && x.early == w.early && x.room == w.room && x.reader in {Waiting, Gone}
    {
      if ms != [] {
        StaysSilent(w, ms[..|ms| - 1]);
        MoveKeeps(WorldAfter(w, ms[..|ms| - 1]), ms[|ms| - 1]);
      }
    }

    lemma {:induction false} FirstEnd(es: seq<EvalEvent>) returns (k: nat)
      requires EndIn(es)
      ensures k < |es| && IsEnd(es[k]) && forall i :: 0 <= i < k ==> !IsEnd(es[i])
    {
      if IsEnd(es[0]) {
        return 0;
      }
      var i :| 0 <= i < |es| && IsEnd(es[i]);
      assert IsEnd(es[1..][i - 1]);
      k := FirstEnd(es[1..]);
      k := k + 1;
      assert forall j :: 0 < j < k ==> es[j] == es[1..][j - 1];
    }

    /** After the announcement a waiting handler still can be told of the end if and only if
        its channel was open and had room at the announcement; after a successful write, if
        and only if it had room. */
    lemma ToldIffReached(w: World, ms: seq<Move>)
      requires Begins(w) && Possible(w, ms)
      requires var x := WorldAfter(w, ms); x.writer.Announced? && x.reader == Waiting
      ensures var x := WorldAfter(w, ms);
        && ((exists more :: Possible(x, more) && WorldAfter(x, more).reader == Told) <==> x.early && x.room)
        && (x.writer.ok ==> x.early)
    {
      RunKeeps(w, ms);
      var x := WorldAfter(w, ms);
      if EndIn(Buffer(x)) {
        var k := FirstEnd(Buffer(x));
        BacklogDrains(x, k);
      } else {
        forall more | Possible(x, more)
          ensures WorldAfter(x, more).reader != Told
        {
          StaysSilent(x, more);
        }
      }
    }
  }

  const NEW_RUN: World := World(Bus(map[], map[]), Working, false, Absent, false, false)

  const LATE_AFTER_FAILED_WRITE: seq<Move> := [Write(false), Announce, Connect, ReadStatus]

  /** Without a successful write the law fails: a handler that connects after the
      announcement reads a status that is not final and is never told of the end. */
  lemma FailedWriteLosesTheEnd(s: Stream, ms: seq<Move>)
    ensures s.Begins(NEW_RUN) && s.Possible(NEW_RUN, LATE_AFTER_FAILED_WRITE)
    ensures var x := s.WorldAfter(NEW_RUN, LATE_AFTER_FAILED_WRITE);
      x.reader == Waiting && (s.Possible(x, ms) ==> s.WorldAfter(x, ms).reader in {Waiting, Gone})
  {
    var lost := LATE_AFTER_FAILED_WRITE;
    EmptyBusSafe();
    var w1 := s.DoMove(NEW_RUN, Write(false));
    var w2 := s.DoMove(w1, Announce);
    var w3 := s.DoMove(w2, Connect);
    assert lost[..3] == [Write(false), Announce, Connect] && lost[..3][..2] == [Write(false), Announce];
    assert lost[..3][..2][..1] == [Write(false)] && lost[..3][..2][..1][..0] == [];
    assert s.Possible(NEW_RUN, [Write(false)]) && s.WorldAfter(NEW_RUN, [Write(false)]) == w1;
    assert s.Possible(NEW_RUN, lost[..3][..2]) && s.WorldAfter(NEW_RUN, lost[..3][..2]) == w2;
    assert s.Possible(NEW_RUN, lost[..3]) && s.WorldAfter(NEW_RUN, lost[..3]) == w3;
    s.RunKeeps(NEW_RUN, lost);
    if s.Possible(s.WorldAfter(NEW_RUN, lost), ms) {
      s.StaysSilent(s.WorldAfter(NEW_RUN, lost), ms);
    }
  }

  /** The handler connects in time, and `n` events of its run fill its buffer before it takes any. */
  function Backlog(n: nat): seq<Move>
  {
    [Connect, ReadStatus] + seq(n, _ => Progress(CaseStarted("")))
  }

  lemma ConnectsInTime(s: Stream)
    ensures s.Possible(NEW_RUN, [Connect, ReadStatus])
    ensures var x := s.WorldAfter(NEW_RUN, [Connect, ReadStatus]);
      s.Sound(x) && x.writer == Working && x.reader == Waiting && s.Buffer(x) == []
  {
    EmptyBusSafe();
    var w1 := s.DoMove(NEW_RUN, Connect);
    assert [Connect][..0] == [] && [Connect, ReadStatus][..1] == [Connect];
    assert s.Possible(NEW_RUN, []) && s.WorldAfter(NEW_RUN, []) == NEW_RUN;
    assert s.Possible(NEW_RUN, [Connect]) && s.WorldAfter(NEW_RUN, [Connect]) == w1;
    assert s.Possible(NEW_RUN, [Connect, ReadStatus]);
    s.RunKeeps(NEW_RUN, [Connect, ReadStatus]);
  }

  lemma {:induction false} BacklogGrows(s: Stream, n: nat)
    requires n <= CAPACITY
    ensures s.Possible(NEW_RUN, Backlog(n))
    ensures var x := s.WorldAfter(NEW_RUN, Backlog(n));
      s.Sound(x) && x.writer == Working && x.reader == Waiting && |s.Buffer(x)| == n
  {
    var ms := Backlog(n);
    if n == 0 {
      assert ms == [Connect, ReadStatus];
      ConnectsInTime(s);
    } else {
      assert ms[..|ms| - 1] == Backlog(n - 1);
      BacklogGrows(s, n - 1);
      var x := s.WorldAfter(NEW_RUN, Backlog(n - 1));
      s.PublishSeen(x, s.run, CaseStarted(""));
      s.MoveKeeps(x, Progress(CaseStarted("")));
    }
  }

  /** Without room the law fails as well, after a successful write: a handler that was connected
      in time and whose buffer is full at the announcement is never told of the end. */
  lemma FullBufferLosesTheEnd(s: Stream, ms: seq<Move>)
    ensures s.Possible(NEW_RUN, Backlog(256) + [Write(true), Announce])
    ensures var x := s.WorldAfter(NEW_RUN, Backlog(256) + [Write(true), Announce]);
      && x.writer == Announced(true) && x.early && !x.room && x.reader == Waiting
      && (s.Possible(x, ms) ==> s.WorldAfter(x, ms).reader in {Waiting, Gone})
  {
    var some := Backlog(CAPACITY);
    BacklogGrows(s, CAPACITY);
    OneMoreMove(s, NEW_RUN, some, Write(true));
    s.MoveKeeps(s.WorldAfter(NEW_RUN, some), Write(true));
    OneMoreMove(s, NEW_RUN, some + [Write(true)], Announce);
    s.MoveKeeps(s.WorldAfter(NEW_RUN, some + [Write(true)]), Announce);
    assert some + [Write(true)] + [Announce] == some + [Write(true), Announce];
    var x := s.WorldAfter(NEW_RUN, some + [Write(true), Announce]);
    if s.Possible(x, ms) {
      s.StaysSilent(x, ms);
    }
  }

  lemma OneMoreMove(s: Stream, w: World, ms: seq<Move>, m: Move)
    requires s.Possible(w, ms) && s.CanMove(s.WorldAfter(w, ms), m)
    ensures s.Possible(w, ms + [m]) && s.WorldAfter(w, ms + [m]) == s.DoMove(s.WorldAfter(w, ms), m)
  {
    assert (ms + [m])[..|ms + [m]| - 1] == ms;
  }

  lemma EmptyBusSafe()
    ensures Safe(NEW_RUN.bus)
  {
    HistorySafe<EvalEvent>([]);
  }
}
