/** The handoff channel between the intercept handlers and the consumer:
    a FIFO of tagged records with a closed flag. Closing it is what ends the
    consumer's iteration once everything put before has been delivered. */
module Channels {
  import opened Records

  class Channel {
    /** Everything accepted so far, in arrival order. */
    var items: seq<Tagged>
    var closed: bool

    constructor ()
      ensures items == [] && !closed
    {
      items := [];
      closed := false;
    }

    /** Best-effort put: after close the item is refused, which the source
        signals by raising `queue.Full`; here `accepted` is false. */
    method Put(t: Tagged) returns (accepted: bool)
      modifies this
      ensures accepted == !old(closed)
      ensures closed == old(closed)
      ensures items == if accepted then old(items) + [t] else old(items)
    {
      accepted := !closed;
      if accepted {
        items := items + [t];
      }
    }

    /** `no_more_input`: idempotent close; nothing already put is lost. */
    method NoMoreInput()
      modifies this
      ensures closed && items == old(items)
    {
      closed := true;
    }
  }
}
