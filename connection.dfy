/** The heartbeat / reconnect state machine of the link's connection thread.

    The pure part (Link, Step, Replay) says what one loop iteration and a
    whole history do to the thread's timestamps and the client's state; the
    class ConnectionThread is the imperative loop, proved equal to it. */
module Connection {
  import opened ClientModel

  /** A heartbeat is due once strictly more than this many milliseconds have
      passed since the last one was sent. */
  const HeartbeatInterval: int := 100
  /** Liveness threshold on |lastReceived - lastSent|, in milliseconds. */
  const LivenessThreshold: int := 800

  /** What the environment decides during one iteration: the clock reading
      taken after the reconnect check, and the outcome a connect attempt
      would have if one is made. */
  datatype Moment = Moment(now: int, connectSucceeds: bool)

  /** Everything one iteration reads or writes: the client's state and the
      thread's two heartbeat timestamps. */
  datatype Link = Link(
    enabled: bool,
    connected: bool,
    socketUp: bool,
    queue: seq<Message>,
    capacity: nat,
    lastSent: int,
    lastReceived: int)

  /** What one iteration did, in the order it did it. */
  datatype Report = Report(
    at: int,
    reconnectAttempted: bool,
    heartbeatOffered: bool,
    heartbeatQueued: bool,
    disconnectNotified: bool,
    connectNotified: bool)

  /** What can happen to the link between two iterations, besides the
      iterations themselves: the receiver pathway records a heartbeat, a
      producer offers a message, the transmit pathway takes the oldest
      message, the socket drops, or the client is disabled. */
  datatype Event =
    | Tick(moment: Moment)
    | HeartbeatReceived(time: int)
    | Enqueue(message: Message)
    | Take
    | SocketDropped
    | Disable

  /** Java's Math.abs of the difference, without the 64-bit overflow: the
      larger of the two differences. */
  function Gap(received: int, sent: int): (g: nat)
    ensures received - sent <= g && sent - received <= g
    ensures g == received - sent || g == sent - received
  {
    if received >= sent then received - sent else sent - received
  }

  /** Step 1: reconnect when no live socket is installed and the client is
      not marked connected. */
  predicate NeedsReconnect(l: Link)
  {
    !l.socketUp && !l.connected
  }

  /** Step 2: a heartbeat is due when more than the interval has elapsed. */
  predicate HeartbeatDue(l: Link, now: int)
  {
    now - l.lastSent > HeartbeatInterval
  }

  /** One iteration of the loop body, for an enabled client. It never
      writes the enabled flag, the capacity or the receive time, and it keeps
      the queue within capacity. */
  function Step(l: Link, m: Moment): (r: (Link, Report))
    ensures r.0.enabled == l.enabled && r.0.capacity == l.capacity
    ensures r.0.lastReceived == l.lastReceived
    ensures |l.queue| <= l.capacity ==> |r.0.queue| <= l.capacity
  {
    // step 1: reconnect check
    var reconnect := NeedsReconnect(l);
    var l1 := if reconnect then l.(socketUp := m.connectSucceeds) else l;
    // step 2: heartbeat emission; the send time advances whatever the offer returns
    var offered := HeartbeatDue(l1, m.now);
    var queued := offered && |l1.queue| < l1.capacity;
    var l2 :=
      if offered then l1.(lastSent := m.now, queue := if queued then l1.queue + [Heartbeat] else l1.queue)
      else l1;
    // step 3: liveness evaluation against the possibly updated send time
    var gap := Gap(l2.lastReceived, l2.lastSent);
    var drop := gap > LivenessThreshold && l2.connected;
    var l3 := if drop then l2.(connected := false) else l2;
    var raise := gap < LivenessThreshold && !l3.connected;
    var l4 := if raise then l3.(connected := true) else l3;
    (l4, Report(m.now, reconnect, offered, queued, drop, raise))
  }

  /** The effect of one event. The loop condition is checked before every
      iteration, so a tick of a disabled client does nothing; only a tick of
      an enabled client reports or changes the connected verdict, and only a
      tick moves the send time. */
  function Apply(l: Link, e: Event): (r: (Link, seq<Report>))
    ensures r.0.capacity == l.capacity
    ensures |r.1| == if e.Tick? && l.enabled then 1 else 0
    ensures !e.Tick? ==> r.0.lastSent == l.lastSent
    ensures !(e.Tick? && l.enabled) ==> r.0.connected == l.connected
  {
    match e
    case Tick(m) => if l.enabled then (Step(l, m).0, [Step(l, m).1]) else (l, [])
    case HeartbeatReceived(t) => (l.(lastReceived := t), [])
    case Enqueue(msg) => (if |l.queue| < l.capacity then l.(queue := l.queue + [msg]) else l, [])
    case Take => (if l.queue == [] then l else l.(queue := l.queue[1..]), [])
    case SocketDropped => (l.(socketUp := false), [])
    case Disable => (l.(enabled := false), [])
  }

  /** A whole history, with the reports of the iterations that ran: at most
      one per event, and the queue capacity never changes. */
  function Replay(l: Link, es: seq<Event>): (r: (Link, seq<Report>))
    ensures |r.1| <= |es|
    ensures r.0.capacity == l.capacity
    decreases |es|
  {
    if es == [] then (l, [])
    else
      var first := Apply(l, es[0]);
      var rest := Replay(first.0, es[1..]);
      (rest.0, first.1 + rest.1)
  }

  /** The history the connection loop alone produces from a run of clock readings. */
  function Ticks(ms: seq<Moment>): seq<Event>
  {
    seq(|ms|, i requires 0 <= i < |ms| => Tick(ms[i]))
  }

  class ConnectionThread {
    const client: Client
    var lastSent: int
    var lastReceived: int

    ghost predicate Valid()
      reads this, client
    {
      client.Valid()
    }

    /** The state one iteration works on. */
    ghost function Snapshot(): Link
      reads this, client
    {
      Link(client.enabled, client.connected, client.socketUp, client.queue, client.capacity,
           lastSent, lastReceived)
    }

    /** The send time starts at the clock reading taken at construction, the
        receive time at zero. */
    constructor (client: Client, startTime: int)
      requires client.Valid()
      ensures Valid()
      ensures this.client == client
      ensures lastSent == startTime && lastReceived == 0
    {
      this.client := client;
      lastSent := startTime;
      lastReceived := 0;
    }

    /** Called by the receiver pathway: overwrites the receive time, with no
        monotonicity check. */
    method UpdateLastReceivedHeartbeatTime(time: int)
      modifies this`lastReceived
      ensures Snapshot() == Apply(old(Snapshot()), HeartbeatReceived(time)).0
      ensures lastReceived == time
    {
      lastReceived := time;
    }

    /** One body of the `while (enabled)` loop, sleeps left out. */
    method Tick(m: Moment) returns (report: Report)
      requires Valid()
      modifies this, client
      ensures Valid()
      ensures Snapshot() == Step(old(Snapshot()), m).0
      ensures report == Step(old(Snapshot()), m).1
    {
      var reconnect := !client.socketUp && !client.connected;
      if reconnect {
        client.TryConnecting(m.connectSucceeds);
      }

      var offered := m.now - lastSent > HeartbeatInterval;
      var queued := false;
      if offered {
        queued := client.Offer(Heartbeat);  // the result does not affect what follows
        lastSent := m.now;
      }

      var dropped, raised := false, false;
      if Gap(lastReceived, lastSent) > LivenessThreshold && client.connected {
        client.NotifyDisconnected();
        dropped := true;
      }
      if Gap(lastReceived, lastSent) < LivenessThreshold && !client.connected {
        client.NotifyConnected();
        raised := true;
      }
      report := Report(m.now, reconnect, offered, queued, dropped, raised);
    }

    /** The loop: iterates while the client is enabled, one clock reading per
        iteration, and returns what each iteration did. Other threads' events
        do not occur while it runs (see Replay for histories that have them). */
    method Run(moments: seq<Moment>) returns (reports: seq<Report>)
      requires Valid()
      modifies this, client
      ensures Valid()
      ensures Snapshot() == Replay(old(Snapshot()), Ticks(moments)).0
      ensures reports == Replay(old(Snapshot()), Ticks(moments)).1
    {
      reports := [];
      var i := 0;
      while i < |moments| && client.enabled
        invariant 0 <= i <= |moments|
        invariant Valid()
        invariant Replay(old(Snapshot()), Ticks(moments)).0 == Replay(Snapshot(), Ticks(moments[i..])).0
        invariant Replay(old(Snapshot()), Ticks(moments)).1 == reports + Replay(Snapshot(), Ticks(moments[i..])).1
      {
        assert Ticks(moments[i..]) == [Event.Tick(moments[i])] + Ticks(moments[i + 1..]);
        var r := Tick(moments[i]);
        reports := reports + [r];
        i := i + 1;
      }
      if i < |moments| {
        DisabledTicksAreIdle(Snapshot(), moments[i..]);
      }
    }
  }

  /** The loop condition: a disabled client's loop makes no connect
      attempt, offers nothing, notifies nobody and changes no state. */
  lemma {:induction false} DisabledTicksAreIdle(l: Link, ms: seq<Moment>)
    requires !l.enabled
    ensures Replay(l, Ticks(ms)).0 == l
    ensures Replay(l, Ticks(ms)).1 == []
    decreases |ms|
  {
    if ms != [] {
      var es := Ticks(ms);
      assert es[1..] == Ticks(ms[1..]);
      DisabledTicksAreIdle(l, ms[1..]);
    }
  }
}
