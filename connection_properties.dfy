/** What the connection thread promises, about one iteration and about whole
    histories of iterations interleaved with what other threads do. */
module ConnectionProperties {
  import opened ClientModel
  import opened Connection

  // ---------------------------------------------------------------------------
  // One iteration
  // ---------------------------------------------------------------------------

  /** A connect attempt is made exactly when no live socket is installed and
      the client is not marked connected; a connected client is never
      reconnected, even without a socket. */
  lemma StepReconnect(l: Link, m: Moment)
    ensures Step(l, m).1.reconnectAttempted <==> !l.socketUp && !l.connected
    ensures Step(l, m).0.socketUp == if !l.socketUp && !l.connected then m.connectSucceeds else l.socketUp
  {
  }

  /** A heartbeat is offered exactly when strictly more than 100 ms have passed
      since the last send; the send time then becomes `now` whether or not the
      queue took it, and otherwise the send time and the queue stay as they were. */
  lemma StepHeartbeat(l: Link, m: Moment)
    ensures Step(l, m).1.heartbeatOffered <==> m.now - l.lastSent > 100
    ensures Step(l, m).0.lastSent == if m.now - l.lastSent > 100 then m.now else l.lastSent
    ensures Step(l, m).1.heartbeatQueued <==> m.now - l.lastSent > 100 && |l.queue| < l.capacity
    ensures Step(l, m).0.queue == if Step(l, m).1.heartbeatQueued then l.queue + [Heartbeat] else l.queue
  {
  }

  /** The liveness decision, taken against the send time as step 2 left it:
      disconnect exactly on a gap above 800 while connected, connect exactly
      on a gap below 800 while not connected, never both. */
  lemma StepLiveness(l: Link, m: Moment)
    ensures var g := Gap(l.lastReceived, Step(l, m).0.lastSent);
      && (Step(l, m).1.disconnectNotified <==> g > 800 && l.connected)
      && (Step(l, m).1.connectNotified <==> g < 800 && !l.connected)
    ensures !(Step(l, m).1.disconnectNotified && Step(l, m).1.connectNotified)
  {
  }

  /** A gap of exactly 800 ms triggers neither notification. */
  lemma StepExactThresholdKeepsVerdict(l: Link, m: Moment)
    requires Gap(l.lastReceived, Step(l, m).0.lastSent) == 800
    ensures !Step(l, m).1.disconnectNotified && !Step(l, m).1.connectNotified
    ensures Step(l, m).0.connected == l.connected
  {
  }

  /** Off the threshold, the verdict after an iteration is the comparison itself. */
  lemma StepVerdictFollowsGap(l: Link, m: Moment)
    requires Gap(l.lastReceived, Step(l, m).0.lastSent) != 800
    ensures Step(l, m).0.connected <==> Gap(l.lastReceived, Step(l, m).0.lastSent) < 800
  {
  }

  /** After an iteration the send time is at most 100 ms behind the clock. */
  lemma StepSendTimeIsRecent(l: Link, m: Moment)
    ensures Step(l, m).0.lastSent >= m.now - 100
    ensures l.lastSent <= m.now ==> Step(l, m).0.lastSent <= m.now
  {
  }

  /** A peer silent for more than 900 ms is judged disconnected by the next
      iteration. (900, not 800: the send time may lag the clock by 100 ms.) */
  lemma SilentPeerIsDisconnected(l: Link, m: Moment)
    requires l.lastReceived + 900 < m.now
    ensures !Step(l, m).0.connected
    ensures !Step(l, m).1.connectNotified
  {
  }

  /** A peer whose last heartbeat is within 700 ms of the clock is judged
      connected, and never disconnected, when the clock has not gone back. */
  lemma ChattyPeerStaysConnected(l: Link, m: Moment)
    requires l.lastSent <= m.now
    requires m.now - 700 < l.lastReceived < m.now + 700
    ensures Step(l, m).0.connected
    ensures !Step(l, m).1.disconnectNotified
  {
  }

  // ---------------------------------------------------------------------------
  // Histories
  // ---------------------------------------------------------------------------

  /** Number of iterations whose heartbeat the queue accepted. */
  function QueuedCount(rs: seq<Report>): nat
  {
    if rs == [] then 0 else (if rs[0].heartbeatQueued then 1 else 0) + QueuedCount(rs[1..])
  }

  /** The clock readings of the iterations that offered a heartbeat, in order. */
  function OfferTimes(rs: seq<Report>): seq<int>
  {
    if rs == [] then [] else (if rs[0].heartbeatOffered then [rs[0].at] else []) + OfferTimes(rs[1..])
  }

  /** Replaying two histories one after the other is replaying their
      concatenation. */
  lemma {:induction false} ReplayAppend(l: Link, a: seq<Event>, b: seq<Event>)
    ensures Replay(l, a + b).0 == Replay(Replay(l, a).0, b).0
    ensures Replay(l, a + b).1 == Replay(l, a).1 + Replay(Replay(l, a).0, b).1
    decreases |a|
  {
    if a == [] {
      assert a + b == b;
    } else {
      assert (a + b)[0] == a[0];
      assert (a + b)[1..] == a[1..] + b;
      ReplayAppend(Apply(l, a[0]).0, a[1..], b);
    }
  }

  /** Disabling is final: a disabled client stays disabled whatever else
      happens, and its loop runs no further iteration. */
  lemma {:induction false} DisabledStaysIdle(l: Link, es: seq<Event>)
    requires !l.enabled
    ensures !Replay(l, es).0.enabled
    ensures Replay(l, es).1 == []
    decreases |es|
  {
    if es != [] {
      DisabledStaysIdle(Apply(l, es[0]).0, es[1..]);
    }
  }

  /** After a Disable event no iteration reports anything: the loop has exited. */
  lemma NoIterationAfterDisable(l: Link, before: seq<Event>, after: seq<Event>)
    ensures Replay(l, before + [Disable] + after).1 == Replay(l, before).1
  {
    var p := Replay(l, before).0;
    ReplayAppend(l, before, [Disable] + after);
    assert before + [Disable] + after == before + ([Disable] + after);
    assert ([Disable] + after)[1..] == after;
    DisabledStaysIdle(p.(enabled := false), after);
  }

  /** The connection loop alone never writes the receive time, and an enabled
      loop reports once per clock reading. */
  lemma {:induction false} TicksKeepReceiveTime(l: Link, ms: seq<Moment>)
    ensures Replay(l, Ticks(ms)).0.lastReceived == l.lastReceived
    ensures |Replay(l, Ticks(ms)).1| == if l.enabled then |ms| else 0
    decreases |ms|
  {
    if ms != [] {
      var es := Ticks(ms);
      assert es[1..] == Ticks(ms[1..]);
      TicksKeepReceiveTime(Apply(l, es[0]).0, ms[1..]);
    }
  }

  /** Whatever producers, the transmit pathway and the loop do, the queue
      never exceeds its capacity. */
  lemma {:induction false} ReplayQueueBounded(l: Link, es: seq<Event>)
    requires |l.queue| <= l.capacity
    ensures |Replay(l, es).0.queue| <= l.capacity
    decreases |es|
  {
    if es != [] {
      ReplayQueueBounded(Apply(l, es[0]).0, es[1..]);
    }
  }

  /** The loop's own effect on the queue: it keeps the messages already
      queued in order and adds heartbeats at the tail, one per accepted offer. */
  lemma {:induction false} TicksQueue(l: Link, ms: seq<Moment>)
    ensures var q := Replay(l, Ticks(ms)).0.queue;
      && |q| == |l.queue| + QueuedCount(Replay(l, Ticks(ms)).1)
      && q[..|l.queue|] == l.queue
      && (forall i :: |l.queue| <= i < |q| ==> q[i] == Heartbeat)
    decreases |ms|
  {
    if ms != [] {
      var es := Ticks(ms);
      assert es[1..] == Ticks(ms[1..]);
      var first := Apply(l, es[0]);
      var rest := Replay(first.0, es[1..]);
      TicksQueue(first.0, ms[1..]);
      if l.enabled {
        StepHeartbeat(l, ms[0]);
        var r := Step(l, ms[0]).1;
        assert first.1 + rest.1 == [r] + rest.1;
        assert ([r] + rest.1)[1..] == rest.1;
      } else {
        assert first.1 + rest.1 == rest.1;
      }
      var q := rest.0.queue;
      assert q[..|l.queue|] == first.0.queue[..|l.queue|];
    }
  }

  /** At most one notification per iteration, over any history. */
  lemma {:induction false} ReplayNotifiesAtMostOnce(l: Link, es: seq<Event>)
    ensures forall r :: r in Replay(l, es).1 ==> !(r.disconnectNotified && r.connectNotified)
    decreases |es|
  {
    if es != [] {
      if es[0].Tick? && l.enabled {
        StepLiveness(l, es[0].moment);
      }
      ReplayNotifiesAtMostOnce(Apply(l, es[0]).0, es[1..]);
    }
  }

  /** Offer times of one report followed by more. */
  lemma OfferTimesCons(r: Report, rs: seq<Report>)
    ensures OfferTimes([r] + rs) == (if r.heartbeatOffered then [r.at] else []) + OfferTimes(rs)
  {
    assert ([r] + rs)[1..] == rs;
  }

  /** Consecutive heartbeat offers are more than 100 ms apart, the first more
      than 100 ms after the initial send time, and the send time at the end is
      the last offer's clock reading. */
  lemma {:induction false} HeartbeatCadence(l: Link, es: seq<Event>)
    ensures var ts := OfferTimes(Replay(l, es).1);
      && (|ts| > 0 ==> ts[0] - l.lastSent > 100)
      && (forall k :: 0 < k < |ts| ==> ts[k] - ts[k - 1] > 100)
      && Replay(l, es).0.lastSent == if |ts| == 0 then l.lastSent else ts[|ts| - 1]
    decreases |es|
  {
    if es != [] {
      var first := Apply(l, es[0]);
      var rest := Replay(first.0, es[1..]);
      assert Replay(l, es).0 == rest.0;
      assert Replay(l, es).1 == first.1 + rest.1;
      HeartbeatCadence(first.0, es[1..]);
      if es[0].Tick? && l.enabled {
        var m := es[0].moment;
        StepHeartbeat(l, m);
        var r := Step(l, m).1;
        assert first.1 == [r];
        OfferTimesCons(r, rest.1);
      } else {
        assert first.1 == [];
        assert first.1 + rest.1 == rest.1;
      }
    }
  }

  /** Between iterations the verdict stands: a stretch of history in which
      no iteration runs leaves `connected` as it was. */
  lemma {:induction false} VerdictStandsWithoutIteration(l: Link, es: seq<Event>)
    requires Replay(l, es).1 == []
    ensures Replay(l, es).0.connected == l.connected
    decreases |es|
  {
    if es != [] {
      var first := Apply(l, es[0]);
      var rest := Replay(first.0, es[1..]);
      assert Replay(l, es).1 == first.1 + rest.1;
      assert |first.1| == 0 && |rest.1| == 0;
      VerdictStandsWithoutIteration(first.0, es[1..]);
    }
  }

  /** Events other than ticks run no iteration. */
  lemma {:induction false} NonTicksRunNoIteration(l: Link, es: seq<Event>)
    requires forall i :: 0 <= i < |es| ==> !es[i].Tick?
    ensures Replay(l, es).1 == []
    decreases |es|
  {
    if es != [] {
      var first := Apply(l, es[0]);
      NonTicksRunNoIteration(first.0, es[1..]);
      assert first.1 == [];
      assert first.1 + Replay(first.0, es[1..]).1 == [];
    }
  }

  /** Across any history, the verdict is that of the most recent liveness
      evaluation, whatever events without an iteration follow it: connected
      when the gap at that evaluation was below 800, disconnected when above;
      exactly 800 keeps the verdict from before that iteration. */
  lemma ConnectedReflectsLastEvaluation(l: Link, es: seq<Event>, m: Moment, after: seq<Event>)
    requires Replay(l, es).0.enabled
    requires forall i :: 0 <= i < |after| ==> !after[i].Tick?
    ensures var e := Replay(l, es + [Tick(m)]).0;
      var f := Replay(l, es + [Tick(m)] + after).0;
      var g := Gap(e.lastReceived, e.lastSent);
      (g < 800 ==> f.connected) && (g > 800 ==> !f.connected)
      && (g == 800 ==> f.connected == Replay(l, es).0.connected)
  {
    ReplayAppend(l, es, [Tick(m)]);
    var p := Replay(l, es).0;
    assert Replay(p, [Tick(m)]).0 == Step(p, m).0;
    StepLiveness(p, m);
    var e := Replay(l, es + [Tick(m)]).0;
    ReplayAppend(l, es + [Tick(m)], after);
    NonTicksRunNoIteration(e, after);
    VerdictStandsWithoutIteration(e, after);
  }

  /** 850 ms of silence is not always enough: a peer last heard from at 0,
      with the last heartbeat sent at 750, is still judged connected at 850,
      since no heartbeat is due and the gap is 750. */
  lemma SilenceOf850IsNotEnough()
    ensures Step(Link(true, true, true, [], 1, 750, 0), Moment(850, true)).0.connected
  {
  }
}
