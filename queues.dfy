/**
 * Python's `queue.Queue` as the program uses it: a FIFO of items with
 * `put`, `empty` and `get`. Thread safety is not modelled; every call
 * happens in one sequential order.
 */
module Queues {

  class Queue<T> {
    /** The queued items, oldest first. */
    var items: seq<T>

    constructor ()
      ensures items == []
    {
      items := [];
    }

    /** `q.put(x)`: `x` joins the back of the queue. */
    method Put(x: T)
      modifies this
      ensures items == old(items) + [x]
    {
      items := items + [x];
    }

    /** `q.empty()`. */
    method Empty() returns (e: bool)
      ensures e <==> items == []
    {
      e := items == [];
    }

    /**
     * `q.get()` on a queue the caller found non-empty: the oldest item
     * leaves the queue. (On an empty queue `get` would block; every caller
     * in the program checks `empty()` first.)
     */
    method Get() returns (x: T)
      requires items != []
      modifies this
      ensures x == old(items)[0] && items == old(items)[1..]
    {
      x := items[0];
      items := items[1..];
    }
  }
}
