/** `<Server>ClientServiceImpl`, the generated client: one synchronous call
    method per service, and the data handler that routes what the server
    sends back to the reply handler of the operation or to the callback the
    application registered for it. The Velocity `#foreach`/`#if` expansion
    over the services is the `services` parameter. */
module ClientServices {
  import opened Base
  import opened RemoteCommunications
  import opened Protocol
  import opened ServiceConfiguration
  import opened Transceivers
  import opened ServiceProxies
  import opened ReplyHandlers

  /** `timeoutSeconds`: how long a call waits for its reply. */
  const TIMEOUT_SECONDS: int := 60

  /** What `handleDataIndication` does with one payload. */
  datatype ClientAction =
    | InsertReply(op: string, reply: Message)
    | InvokeCallback(op: string, message: Message)
    | Drop(reason: DropReason)

  /** The routing `handleDataIndication` performs: `<op>Response` to the reply
      handler of an operation with a response, `<op>Callback` to the callback
      of an operation with a callback, everything else to the default
      branch. */
  function ClientRoute(services: seq<Service>, pb: Protobuf, payload: seq<Byte>): (a: ClientAction)
    ensures a.InsertReply? ==>
              HasResponseService(services, a.op) &&
              pb.parseContainer(payload).Some? &&
              pb.parseContainer(payload).value.messageType == MessageType(a.op, Response) &&
              pb.parseMessage(FindService(services, a.op).value.responseType.value,
                              pb.parseContainer(payload).value.messageData) == Some(a.reply)
    ensures a.InvokeCallback? ==>
              HasCallbackService(services, a.op) &&
              pb.parseContainer(payload).Some? &&
              pb.parseContainer(payload).value.messageType == MessageType(a.op, Callback) &&
              pb.parseMessage(FindService(services, a.op).value.callbackType.value,
                              pb.parseContainer(payload).value.messageData) == Some(a.message)
    ensures a == Drop(UndecodableEnvelope) <==> pb.parseContainer(payload).None?
    // and conversely: every payload of these shapes is delivered, or dropped for its data
    ensures var c := pb.parseContainer(payload);
            a.InsertReply? <==>
              c.Some? && c.value.messageType.kind == Response &&
              HasResponseService(services, c.value.messageType.serviceName) &&
              pb.parseMessage(FindService(services, c.value.messageType.serviceName).value.responseType.value,
                              c.value.messageData).Some?
    ensures var c := pb.parseContainer(payload);
            a.InvokeCallback? <==>
              c.Some? && c.value.messageType.kind == Callback &&
              HasCallbackService(services, c.value.messageType.serviceName) &&
              pb.parseMessage(FindService(services, c.value.messageType.serviceName).value.callbackType.value,
                              c.value.messageData).Some?
    ensures var c := pb.parseContainer(payload);
            a == Drop(UndecodableData) <==>
              c.Some? &&
              ((c.value.messageType.kind == Response &&
                HasResponseService(services, c.value.messageType.serviceName) &&
                pb.parseMessage(FindService(services, c.value.messageType.serviceName).value.responseType.value,
                                c.value.messageData).None?) ||
               (c.value.messageType.kind == Callback &&
                HasCallbackService(services, c.value.messageType.serviceName) &&
                pb.parseMessage(FindService(services, c.value.messageType.serviceName).value.callbackType.value,
                                c.value.messageData).None?))
  {
    match pb.parseContainer(payload)
    case None => Drop(UndecodableEnvelope)
    case Some(c) =>
      var op := c.messageType.serviceName;
      match FindService(services, op)
      case None => Drop(UnhandledType)
      case Some(s) =>
        if c.messageType.kind == Response && s.HasResponse() then
          match pb.parseMessage(s.responseType.value, c.messageData)
          case None => Drop(UndecodableData)
          case Some(m) => InsertReply(op, m)
        else if c.messageType.kind == Callback && s.HasCallback() then
          match pb.parseMessage(s.callbackType.value, c.messageData)
          case None => Drop(UndecodableData)
          case Some(m) => InvokeCallback(op, m)
        else Drop(UnhandledType)
  }

  /** A response the server sends for operation `s` reaches that operation's
      reply handler. */
  lemma ResponseReachesItsHandler(services: seq<Service>, pb: Protobuf, s: Service, reply: Message)
    requires pb.Lawful() && DistinctNames(services) && s in services
    requires s.HasResponse() && reply.typeName == s.responseType.value
    ensures ClientRoute(services, pb, pb.Envelope(s.serviceName, Response, reply)) == InsertReply(s.serviceName, reply)
  {
    var j :| 0 <= j < |services| && services[j] == s;
    FindServiceUnique(services, j);
    pb.OpenEnvelope(s.serviceName, Response, reply);
  }

  /** A callback the server sends for operation `s` reaches the callback the
      application registered for it. */
  lemma CallbackReachesItsCallback(services: seq<Service>, pb: Protobuf, s: Service, message: Message)
    requires pb.Lawful() && DistinctNames(services) && s in services
    requires s.HasCallback() && message.typeName == s.callbackType.value
    ensures ClientRoute(services, pb, pb.Envelope(s.serviceName, Callback, message)) == InvokeCallback(s.serviceName, message)
  {
    var j :| 0 <= j < |services| && services[j] == s;
    FindServiceUnique(services, j);
    pb.OpenEnvelope(s.serviceName, Callback, message);
  }

  /** The reply handlers the constructor creates: one per operation with a
      response, each new, empty and waiting at most `TIMEOUT_SECONDS`. */
  method CreateReplyHandlers(services: seq<Service>) returns (handlers: map<string, ClientReplyHandler<Message>>)
    requires DistinctNames(services)
    ensures forall op :: op in handlers <==> HasResponseService(services, op)
    ensures forall op :: op in handlers ==>
              fresh(handlers[op]) && handlers[op].timeoutSeconds == TIMEOUT_SECONDS && handlers[op].replyQ == []
    ensures forall op1, op2 :: op1 in handlers && op2 in handlers && op1 != op2 ==> handlers[op1] != handlers[op2]
  {
    handlers := map[];
    for i := 0 to |services|
      invariant forall op :: op in handlers <==>
                  exists j :: 0 <= j < i && services[j].serviceName == op && services[j].HasResponse()
      invariant forall op :: op in handlers ==>
                  fresh(handlers[op]) && handlers[op].timeoutSeconds == TIMEOUT_SECONDS && handlers[op].replyQ == []
      invariant forall op1, op2 :: op1 in handlers && op2 in handlers && op1 != op2 ==> handlers[op1] != handlers[op2]
    {
      if services[i].HasResponse() {
        var h := new ClientReplyHandler<Message>(TIMEOUT_SECONDS);
        handlers := handlers[services[i].serviceName := h];
      }
    }
    forall op
      ensures op in handlers <==> HasResponseService(services, op)
    {
      HasResponseServiceIff(services, op);
    }
  }

  class ClientServiceImpl {
    const services: seq<Service>
    const pb: Protobuf
    /** The `ServiceProxy` part of the object (the generated class extends it). */
    const proxy: ServiceProxy
    /** `client<op>ReplyHandler`, for every operation with a response. */
    const replyHandlers: map<string, ClientReplyHandler<Message>>
    /** The calls made on the `client<op>Callback` objects the application
        registered, oldest first. */
    var callbacksInvoked: seq<(string, Message)>

    ghost predicate Valid()
      reads this, proxy, proxy.clientDataTransceiver
    {
      proxy.Valid() && WellFormed(services) &&
      (forall op :: op in replyHandlers <==> HasResponseService(services, op)) &&
      (forall op :: op in replyHandlers ==> replyHandlers[op].timeoutSeconds == TIMEOUT_SECONDS) &&
      (forall op1, op2 :: op1 in replyHandlers && op2 in replyHandlers && op1 != op2 ==>
                            replyHandlers[op1] != replyHandlers[op2])
    }

    /** The constructor: no connection yet, and an empty reply handler per
        operation with a response. */
    constructor (services: seq<Service>, pb: Protobuf, host: string, port: int)
      requires WellFormed(services)
      ensures Valid() && this.services == services && this.pb == pb
      ensures fresh(proxy) && proxy.clientDataTransceiver == null && proxy.host == host && proxy.port == port
      ensures forall op :: op in replyHandlers ==> fresh(replyHandlers[op]) && replyHandlers[op].replyQ == []
      ensures callbacksInvoked == []
    {
      var handlers := CreateReplyHandlers(services);
      this.services := services;
      this.pb := pb;
      proxy := new ServiceProxy(host, port);
      replyHandlers := handlers;
      callbacksInvoked := [];
    }

    /** The first half of the call method generated for service `op`:
        `checkDataTransceiver()`, then the `<op>Request` envelope is sent,
        and a failed send goes through `handleSendException`. `connect` is
        the failure of a connection attempt, `sendFault` the failure of the
        send. The transceiver the request goes out on is returned as `used`. */
    method SendRequest(op: string, request: Message, connect: Option<IOException>, sendFault: Option<WriteFault>)
      returns (r: Outcome<RemoteCommunicationsException>, ghost used: SocketDataTransceiver?)
      requires proxy.Valid() && |pb.Envelope(op, Request, request)| <= INT_MAX
      modifies proxy, proxy.clientDataTransceiver
      ensures proxy.Valid()
      ensures old(proxy.clientDataTransceiver) == null && connect.Some? ==>
                used == null && proxy.clientDataTransceiver == null &&
                r == Fail(RemoteCommunicationsException(CannotConnect, connect.value.message))
      ensures old(proxy.clientDataTransceiver) != null ==>
                used == old(proxy.clientDataTransceiver) &&
                used.output == old(used.output) + SentBytes(pb.Envelope(op, Request, request), sendFault)
      ensures old(proxy.clientDataTransceiver) == null && connect.None? ==>
                used != null && fresh(used) &&
                used.output == SentBytes(pb.Envelope(op, Request, request), sendFault)
      ensures used != null && sendFault.Some? ==>
                proxy.clientDataTransceiver == null &&
                r == Fail(RemoteCommunicationsException(Disconnected, sendFault.value.error.message))
      ensures used != null && sendFault.None? ==> proxy.clientDataTransceiver == used && r == Pass
    {
      var checked := proxy.CheckDataTransceiver(connect);
      if checked.Fail? {
        r, used := checked, null;
        return;
      }
      var t := proxy.clientDataTransceiver;
      used := t;
      var sent := t.Send(pb.Envelope(op, Request, request), sendFault);
      if sent.Fail? {
        r := HandleSendException(sent.error);
        return;
      }
      r := Pass;
    }

    /** `handleSendException(e)`: the failure is reported from the calling
        thread, which drops the transceiver, and becomes a `DISCONNECTED`
        exception carrying the message of `e`. */
    method HandleSendException(e: IOException) returns (r: Outcome<RemoteCommunicationsException>)
      requires proxy.Valid()
      modifies proxy`clientDataTransceiver
      ensures proxy.Valid() && proxy.clientDataTransceiver == null
      ensures r == Fail(RemoteCommunicationsException(Disconnected, e.message))
    {
      proxy.HandleCommunicationsError(Foreground);
      r := Fail(RemoteCommunicationsException(Disconnected, e.message));
    }

    /** The call method generated for service `op`: the request is sent as
        `SendRequest` says; an operation with a response then waits for it on
        its own reply handler (`interrupted` says whether that wait is
        interrupted), any other returns at once. */
    method Call(op: string, request: Message, connect: Option<IOException>,
                sendFault: Option<WriteFault>, interrupted: bool)
      returns (r: Result<Option<Message>, RemoteCommunicationsException>, ghost used: SocketDataTransceiver?)
      requires Valid()
      requires FindService(services, op).Some? && FindService(services, op).value.requestType == Some(request.typeName)
      requires |pb.Envelope(op, Request, request)| <= INT_MAX
      modifies proxy, proxy.clientDataTransceiver, replyHandlers.Values
      ensures Valid()
      ensures old(proxy.clientDataTransceiver) == null && connect.Some? ==>
                used == null && proxy.clientDataTransceiver == null &&
                r == Failure(RemoteCommunicationsException(CannotConnect, connect.value.message))
      ensures old(proxy.clientDataTransceiver) != null ==>
                used == old(proxy.clientDataTransceiver) &&
                used.output == old(used.output) + SentBytes(pb.Envelope(op, Request, request), sendFault)
      ensures old(proxy.clientDataTransceiver) == null && connect.None? ==>
                used != null && fresh(used) &&
                used.output == SentBytes(pb.Envelope(op, Request, request), sendFault)
      ensures used != null && sendFault.Some? ==>
                proxy.clientDataTransceiver == null &&
                r == Failure(RemoteCommunicationsException(Disconnected, sendFault.value.error.message))
      ensures used != null && sendFault.None? && !HasResponseService(services, op) ==>
                proxy.clientDataTransceiver == used && r == Success(None)
      ensures used != null && sendFault.None? && HasResponseService(services, op) ==>
                proxy.clientDataTransceiver == used &&
                var q := old(replyHandlers[op].replyQ);
                (interrupted ==>
                   r == Failure(RemoteCommunicationsException(Disconnected, Some(INTERRUPTED_INFO))) &&
                   replyHandlers[op].replyQ == q) &&
                (!interrupted && q == [] ==>
                   r == Failure(RemoteCommunicationsException(Timeout, Some(TimeoutInfo(TIMEOUT_SECONDS)))) &&
                   replyHandlers[op].replyQ == []) &&
                (!interrupted && q != [] ==>
                   r == Success(Some(q[0])) && replyHandlers[op].replyQ == q[1..])
      // no other reply handler is touched
      ensures forall k :: k in replyHandlers && (k != op || used == null || sendFault.Some?) ==>
                replyHandlers[k].replyQ == old(replyHandlers[k].replyQ)
    {
      var sent;
      sent, used := SendRequest(op, request, connect, sendFault);
      if sent.Fail? {
        r := Failure(sent.error);
        return;
      }
      if FindService(services, op).value.HasResponse() {
        var reply := replyHandlers[op].GetReply(interrupted);
        match reply
        case Success(m) => r := Success(Some(m));
        case Failure(e) => r := Failure(e);
      } else {
        r := Success(None);
      }
    }

    /** `handleDataIndication(payload)`, run by the reader thread for every
        payload the server sends: the reply or callback the payload holds is
        delivered as `ClientRoute` says, and nothing else changes. */
    method HandleDataIndication(payload: ByteArray)
      requires Valid()
      modifies replyHandlers.Values, this`callbacksInvoked
      ensures Valid()
      ensures var a := ClientRoute(services, pb, payload);
              (a.InsertReply? ==>
                 replyHandlers[a.op].replyQ == old(replyHandlers[a.op].replyQ) + [a.reply]) &&
              (forall k :: k in replyHandlers && !(a.InsertReply? && k == a.op) ==>
                 replyHandlers[k].replyQ == old(replyHandlers[k].replyQ)) &&
              callbacksInvoked ==
                (if a.InvokeCallback? then old(callbacksInvoked) + [(a.op, a.message)] else old(callbacksInvoked))
    {
      var envelope := pb.parseContainer(payload);
      if envelope.None? {
        // cannot decode data
        return;
      }
      var c := envelope.value;
      var op := c.messageType.serviceName;
      var service := FindService(services, op);
      if service.Some? && c.messageType.kind == Response && service.value.HasResponse() {
        var response := pb.parseMessage(service.value.responseType.value, c.messageData);
        if response.Some? {
          replyHandlers[op].InsertReply(response.value);
        }
      } else if service.Some? && c.messageType.kind == Callback && service.value.HasCallback() {
        var message := pb.parseMessage(service.value.callbackType.value, c.messageData);
        if message.Some? {
          callbacksInvoked := callbacksInvoked + [(op, message.value)];
        }
      }
      // default: the message type cannot be processed
    }
  }

  /** A response already delivered by the reader thread is what the next call
      of its operation returns. */
  method DeliveredReplyIsReturned(c: ClientServiceImpl, s: Service, request: Message, reply: Message)
    returns (r: Result<Option<Message>, RemoteCommunicationsException>)
    requires c.Valid() && c.pb.Lawful() && s in c.services
    requires s.requestType == Some(request.typeName) && s.HasResponse() && reply.typeName == s.responseType.value
    requires s.serviceName in c.replyHandlers && c.replyHandlers[s.serviceName].replyQ == []
    requires |c.pb.Envelope(s.serviceName, Request, request)| <= INT_MAX
    requires |c.pb.Envelope(s.serviceName, Response, reply)| <= INT_MAX
    modifies c.proxy, c.proxy.clientDataTransceiver, c.replyHandlers.Values, c`callbacksInvoked
    ensures r == Success(Some(reply))
  {
    ResponseReachesItsHandler(c.services, c.pb, s, reply);
    c.HandleDataIndication(c.pb.Envelope(s.serviceName, Response, reply));
    var j :| 0 <= j < |c.services| && c.services[j] == s;
    FindServiceUnique(c.services, j);
    ghost var used;
    r, used := c.Call(s.serviceName, request, None, None, false);
  }
}
