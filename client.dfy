/** The parts of the link's Client that the connection thread reads and changes.
    The Client's own source is not part of this model: its socket, its listener
    fan-out and its blocking queue are reduced to the state they leave behind. */
module ClientModel {

  /** An outbound wire unit. The heartbeat carries no payload; every other
      message a producer enqueues is opaque here. */
  datatype Message = Heartbeat | Payload(tag: nat, body: seq<int>)

  class Client {
    /** Process-lifetime switch; the connection thread runs while it holds. */
    var enabled: bool
    /** The liveness verdict, set and cleared only by the notify operations. */
    var connected: bool
    /** Stands for "a socket is installed and it reports being connected". */
    var socketUp: bool
    /** The bounded outbound message queue, oldest message first. */
    var queue: seq<Message>
    const capacity: nat

    ghost predicate Valid()
      reads this
    {
      |queue| <= capacity
    }

    /** A fresh client: no socket yet, not connected, empty queue. */
    constructor (capacity: nat, enabled: bool)
      ensures Valid()
      ensures this.capacity == capacity && this.enabled == enabled
      ensures !connected && !socketUp && queue == []
    {
      this.capacity := capacity;
      this.enabled := enabled;
      connected := false;
      socketUp := false;
      queue := [];
    }

    /** One connect attempt to the fixed endpoint. Its outcome comes from the
        network and is a parameter here; it never touches `connected`. */
    method TryConnecting(succeeds: bool)
      modifies this`socketUp
      ensures socketUp == succeeds
    {
      socketUp := succeeds;
    }

    /** Inserts at the tail when there is room and reports whether it did. */
    method Offer(m: Message) returns (accepted: bool)
      requires Valid()
      modifies this`queue
      ensures Valid()
      ensures accepted <==> old(|queue|) < capacity
      ensures queue == if accepted then old(queue) + [m] else old(queue)
    {
      accepted := |queue| < capacity;
      if accepted {
        queue := queue + [m];
      }
    }

    method NotifyConnected()
      modifies this`connected
      ensures connected
    {
      connected := true;
    }

    method NotifyDisconnected()
      modifies this`connected
      ensures !connected
    {
      connected := false;
    }
  }
}
