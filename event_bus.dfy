/** The message bus as seen by a producer: every successful publish appends the
    event to a ghost outbox, in publish order. Partitioning, delivery and the
    asynchronous completion callback are not part of this model. */
module EventBus {

  class Outbox<T> {
    ghost var sent: seq<T>

    constructor ()
      ensures sent == []
    {
      sent := [];
    }

    /** `fails` stands for the exception the producer may throw; a failed
        publish leaves nothing in the outbox. */
    method Publish(event: T, fails: bool) returns (delivered: bool)
      modifies this
      ensures delivered == !fails
      ensures sent == if fails then old(sent) else old(sent) + [event]
    {
      delivered := !fails;
      if !fails {
        sent := sent + [event];
      }
    }
  }
}
