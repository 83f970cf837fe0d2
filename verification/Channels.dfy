/** The bounded work channels between the server and the Ruby workers. */
module Channels {
  import opened Bytes

  /** Requests and deliveries are opaque here; a number stands for each. */
  type Request = nat
  type Delivery = nat

  /** A channel's receiving end: what is queued, and whether a sender is left. */
  datatype Queue = Queue(items: seq<nat>, open: bool)

  function Pop(q: Queue): Queue
    requires q.items != []
  {
    q.(items := q.items[1..])
  }

  /** Nothing queued and nobody left to queue anything. */
  predicate Drained(q: Queue) {
    q.items == [] && !q.open
  }

  datatype Sent = Done | Full | Disconnected

  class Channel {
    const capacity: nat
    var items: seq<nat>
    /** A sender is left, and a receiver is left. */
    var open: bool
    var heard: bool
    /** What receivers have taken. */
    var taken: seq<nat>

    constructor (capacity: nat)
      ensures this.capacity == capacity && Contents() == Queue([], true) && heard && taken == []
    {
      this.capacity := capacity;
      items, open, heard, taken := [], true, true, [];
    }

    function Contents(): Queue
      reads this
    {
      Queue(items, open)
    }

    /** Everything ever queued. */
    function Accepted(): seq<nat>
      reads this
    {
      taken + items
    }

    method TrySend(x: nat) returns (sent: Sent)
      modifies this`items
      ensures sent == if !heard then Disconnected else if |old(items)| < capacity then Done else Full
      ensures items == old(items) + if sent.Done? then [x] else []
      ensures Accepted() == old(Accepted()) + if sent.Done? then [x] else []
    {
      if !heard {
        return Disconnected;
      }
      if |items| < capacity {
        assert taken + (items + [x]) == (taken + items) + [x];
        items := items + [x];
        return Done;
      }
      return Full;
    }

    /** `try_recv`: a channel without senders still gives up what is queued. */
    method TryRecv() returns (item: Option<nat>, closed: bool)
      modifies this`items, this`taken
      ensures Accepted() == old(Accepted())
      ensures old(items) != [] ==> item == Some(old(items)[0]) && Contents() == Pop(old(Contents())) && !closed
      ensures old(items) == [] ==> item == None && Contents() == old(Contents()) && closed == !open
    {
      if items != [] {
        assert (taken + [items[0]]) + items[1..] == taken + items;
        item, closed := Some(items[0]), false;
        items, taken := items[1..], taken + [items[0]];
      } else {
        item, closed := None, !open;
      }
    }
  }
}
