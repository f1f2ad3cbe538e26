/** Go's send-only channel `chan<- T`, seen as the sequence of values sent on it. */
module Channels {

  class Channel<T> {
    /** Everything sent so far, oldest first. */
    var sent: seq<T>

    constructor ()
      ensures sent == []
    {
      sent := [];
    }

    /** `ch <- x` */
    method Send(x: T)
      modifies this
      ensures sent == old(sent) + [x]
    {
      sent := sent + [x];
    }
  }
}
