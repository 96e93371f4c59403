/** Buffered Go channels, seen by one thread at a time.

    A channel is a FIFO queue with a fixed capacity. Where Go would block the
    calling goroutine (a send on a full channel, a receive on an empty one),
    the operation here does not take place, leaves the channel as it was and
    says so; the caller decides what a blocked goroutine means at that point. */
module Channels {
  import opened Wrappers

  class Channel<T> {
    const capacity: nat
    var items: seq<T>

    /** Go never holds more than `capacity` values in a buffered channel. */
    ghost predicate Valid()
      reads this
    {
      |items| <= capacity
    }

    /** `make(chan T, capacity)` */
    constructor (capacity: nat)
      ensures this.capacity == capacity && items == [] && Valid()
    {
      this.capacity := capacity;
      items := [];
    }

    /** A send would block. */
    predicate Full()
      reads this
    {
      |items| >= capacity
    }

    /** `ch <- x`, or a blocked sender when the channel is full. */
    method Send(x: T) returns (sent: bool)
      modifies this
      ensures sent == !old(Full())
      ensures items == if sent then old(items) + [x] else old(items)
      ensures old(Valid()) ==> Valid()
    {
      sent := |items| < capacity;
      if sent {
        items := items + [x];
      }
    }

    /** `x := <-ch`, or a blocked receiver (None) when the channel is empty. */
    method Receive() returns (r: Option<T>)
      modifies this
      ensures old(items) == [] ==> r == None && items == []
      ensures old(items) != [] ==> r == Some(old(items)[0]) && items == old(items)[1..]
      ensures old(Valid()) ==> Valid()
    {
      if items == [] {
        r := None;
      } else {
        r := Some(items[0]);
        items := items[1..];
      }
    }
  }
}
