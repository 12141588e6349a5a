/**
 * The FIFO queues stages communicate through. A queue is an object: two
 * stages that hold the same queue see the same items.
 */
module Queues {

  class Queue<T> {
    /** The items waiting in the queue, head first. */
    var items: seq<T>

    constructor ()
      ensures items == []
    {
      items := [];
    }

    predicate Empty()
      reads this
    {
      items == []
    }

    /** Non-blocking put: the value joins the tail. */
    method Put(v: T)
      modifies this
      ensures items == old(items) + [v]
    {
      items := items + [v];
    }

    /** Removes and returns the head; callers check `Empty()` first, as the core always does. */
    method Get() returns (v: T)
      requires items != []
      modifies this
      ensures v == old(items)[0]
      ensures items == old(items)[1..]
      ensures old(items) == [v] + items
    {
      v := items[0];
      items := items[1..];
    }
  }
}
