/** A Go channel, seen as a FIFO queue with a closed flag. Capacity, and so a
    sender waiting on a full channel, is not modelled; a receiver waiting on an
    empty open channel is excluded by a precondition. */
module Queues {

  import opened Wrappers

  class Chan<T> {
    var items: seq<T>
    var closed: bool

    /** `make(chan T, n)`. */
    constructor ()
      ensures items == [] && !closed
    {
      items := [];
      closed := false;
    }

    /** `c <- x`. Sending on a closed channel panics, so it is excluded. */
    method Send(x: T)
      requires !closed
      modifies this
      ensures items == old(items) + [x] && !closed
    {
      items := items + [x];
    }

    /** `x, ok := <-c` (and one turn of `for x := range c`): the oldest item,
        or None once the channel is closed and drained. */
    method Recv() returns (x: Option<T>)
      requires items != [] || closed
      modifies this
      ensures old(items) != [] ==> x == Some(old(items)[0]) && items == old(items)[1..]
      ensures old(items) == [] ==> x == None && items == []
      ensures closed == old(closed)
    {
      if items == [] {
        x := None;
      } else {
        x := Some(items[0]);
        items := items[1..];
      }
    }

    /** `close(c)`. Closing twice panics, so it is excluded. */
    method Close()
      requires !closed
      modifies this
      ensures closed && items == old(items)
    {
      closed := true;
    }
  }
}
