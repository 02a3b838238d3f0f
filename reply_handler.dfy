/** `ClientReplyHandler`: the per-operation queue through which the reader
    thread hands replies to the caller waiting for them. The blocking
    `poll(timeout)` is modelled by its two outcomes: a reply is queued, or
    none is and the wait times out. */
module ReplyHandlers {
  import opened Base
  import opened JavaStrings
  import opened RemoteCommunications

  const INTERRUPTED_INFO: string :=
    "Interrupted while waiting for a reply because of underlying communication channel problems"

  /** The additional info of the `TIMEOUT` exception. */
  function TimeoutInfo(timeoutSeconds: int): string {
    "Did not receive a reply for " + IntToString(timeoutSeconds) + " seconds"
  }

  class ClientReplyHandler<ReplyType> {
    /** `replyQ`, an unbounded `LinkedBlockingQueue`: head first. */
    var replyQ: seq<ReplyType>
    /** `timeoutSeconds`, final. */
    const timeoutSeconds: int

    constructor (timeoutSeconds: int)
      ensures this.timeoutSeconds == timeoutSeconds && replyQ == []
    {
      this.timeoutSeconds := timeoutSeconds;
      replyQ := [];
    }

    /** `getReply()`. `interrupted` says whether the waiting thread is
        interrupted; an interrupted wait fails with `DISCONNECTED` whatever
        is queued. Otherwise the oldest reply is removed and returned, and an
        empty queue means the wait times out with `TIMEOUT`, leaving the queue
        as it is. */
    method GetReply(interrupted: bool) returns (r: Result<ReplyType, RemoteCommunicationsException>)
      modifies this`replyQ
      ensures interrupted ==>
                r == Failure(RemoteCommunicationsException(Disconnected, Some(INTERRUPTED_INFO))) &&
                replyQ == old(replyQ)
      ensures !interrupted && old(replyQ) == [] ==>
                r == Failure(RemoteCommunicationsException(Timeout, Some(TimeoutInfo(timeoutSeconds)))) &&
                replyQ == []
      ensures !interrupted && old(replyQ) != [] ==>
                r == Success(old(replyQ)[0]) && replyQ == old(replyQ)[1..]
    {
      if interrupted {
        return Failure(RemoteCommunicationsException(Disconnected, Some(INTERRUPTED_INFO)));
      }
      if replyQ == [] {
        return Failure(RemoteCommunicationsException(Timeout, Some(TimeoutInfo(timeoutSeconds))));
      }
      r := Success(replyQ[0]);
      replyQ := replyQ[1..];
    }

    /** `insertReply(reply)`: `put` on an unbounded queue never blocks; the
        reply joins the tail. */
    method InsertReply(reply: ReplyType)
      modifies this`replyQ
      ensures replyQ == old(replyQ) + [reply]
    {
      replyQ := replyQ + [reply];
    }
  }

  /** A reply that arrives after its caller timed out is not discarded: the
      next caller receives it, even though it answers the earlier request. */
  method LateReplyGoesToNextCaller<ReplyType>(h: ClientReplyHandler<ReplyType>, late: ReplyType)
    returns (first: Result<ReplyType, RemoteCommunicationsException>, second: Result<ReplyType, RemoteCommunicationsException>)
    requires h.replyQ == []
    modifies h
    ensures first.Failure? && first.error.errorType == Timeout
    ensures second == Success(late) && h.replyQ == []
  {
    first := h.GetReply(false);
    h.InsertReply(late);
    second := h.GetReply(false);
  }
}
