/** A FreeRTOS queue (xQueueCreate, xQueueSend, xQueueSendFromISR,
    xQueueReceive) as a bounded FIFO. Blocking is not modelled: a blocking
    send or receive requires room or an item, the interrupt-context send and
    the receive with a timeout report failure instead. */
module Queues {
  import opened Wrappers

  class BoundedQueue<T> {
    /** The queued items, oldest first. */
    var items: seq<T>
    /** The depth given to xQueueCreate. */
    const capacity: nat

    ghost predicate Valid()
      reads this
    {
      |items| <= capacity
    }

    /** xQueueCreate(capacity, ...): an empty queue. */
    constructor (capacity: nat)
      ensures Valid()
      ensures this.capacity == capacity && items == []
    {
      this.capacity := capacity;
      items := [];
    }

    predicate IsFull()
      reads this
    {
      |items| >= capacity
    }

    /** xQueueSend(q, &x, portMAX_DELAY) once the queue has room. */
    method Send(x: T)
      requires Valid() && !IsFull()
      modifies this
      ensures Valid()
      ensures items == old(items) + [x]
    {
      items := items + [x];
    }

    /** xQueueSendFromISR: never waits; a full queue drops the item. */
    method SendFromIsr(x: T) returns (ok: bool)
      requires Valid()
      modifies this
      ensures Valid()
      ensures ok <==> |old(items)| < capacity
      ensures items == if ok then old(items) + [x] else old(items)
    {
      ok := |items| < capacity;
      if ok {
        items := items + [x];
      }
    }

    /** xQueueReceive(q, &x, portMAX_DELAY) once an item is queued: the oldest. */
    method Receive() returns (x: T)
      requires Valid() && items != []
      modifies this
      ensures Valid()
      ensures x == old(items)[0] && items == old(items)[1..]
    {
      x := items[0];
      items := items[1..];
    }

    /** xQueueReceive with a finite timeout: the oldest item, or None when the
        queue is empty (nothing can arrive while waiting in a sequential model). */
    method TryReceive() returns (r: Option<T>)
      requires Valid()
      modifies this
      ensures Valid()
      ensures r.None? <==> old(items) == []
      ensures r.Some? ==> r.value == old(items)[0] && items == old(items)[1..]
      ensures r.None? ==> items == old(items)
    {
      if items == [] {
        r := None;
      } else {
        r := Some(items[0]);
        items := items[1..];
      }
    }
  }
}
