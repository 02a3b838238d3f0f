/** `<Server>ClientHandler`, the generated server-side handler of one client
    connection: it decodes each request, passes it to the application's
    service implementation and sends back the response, and it sends the
    callbacks the application issues. */
module ClientHandlers {
  import opened Base
  import opened JavaStrings
  import opened RemoteCommunications
  import opened Protocol
  import opened ServiceConfiguration
  import opened Transceivers

  /** The text in front of the `IOException` message in the info of a failed
      callback send. */
  const CALLBACK_SEND_FAILURE: string := "Communications Error while trying to send reply to client. Info:"

  /** What `handleDataIndication` does with one payload: serve a request of
      operation `op` (passing the handler itself as callback when
      `withCallback`, sending a response when `respond`), or drop it. */
  datatype ServerAction =
    | Serve(op: string, request: Message, withCallback: bool, respond: bool)
    | Unserved(reason: DropReason)

  /** The routing `handleDataIndication` performs: an `<op>Request` of a listed
      operation whose data parses as its request type is served; every other
      message type goes to the default branch. */
  function ServerRoute(services: seq<Service>, pb: Protobuf, payload: seq<Byte>): (a: ServerAction)
    requires WellFormed(services)
    ensures a.Serve? ==>
              FindService(services, a.op).Some? &&
              a.withCallback == FindService(services, a.op).value.HasCallback() &&
              a.respond == FindService(services, a.op).value.HasResponse() &&
              pb.parseContainer(payload).Some? &&
              pb.parseContainer(payload).value.messageType == MessageType(a.op, Request) &&
              pb.parseMessage(FindService(services, a.op).value.requestType.value,
                              pb.parseContainer(payload).value.messageData) == Some(a.request)
    ensures a == Unserved(UndecodableEnvelope) <==> pb.parseContainer(payload).None?
    // and conversely: every request of a listed operation is served, or dropped for its data
    ensures var c := pb.parseContainer(payload);
            a.Serve? <==>
              c.Some? && c.value.messageType.kind == Request &&
              FindService(services, c.value.messageType.serviceName).Some? &&
              pb.parseMessage(FindService(services, c.value.messageType.serviceName).value.requestType.value,
                              c.value.messageData).Some?
    ensures var c := pb.parseContainer(payload);
            a == Unserved(UndecodableData) <==>
              c.Some? && c.value.messageType.kind == Request &&
              FindService(services, c.value.messageType.serviceName).Some? &&
              pb.parseMessage(FindService(services, c.value.messageType.serviceName).value.requestType.value,
                              c.value.messageData).None?
  {
    match pb.parseContainer(payload)
    case None => Unserved(UndecodableEnvelope)
    case Some(c) =>
      match FindService(services, c.messageType.serviceName)
      case None => Unserved(UnhandledType)
      case Some(s) =>
        if c.messageType.kind != Request then Unserved(UnhandledType)
        else
          match pb.parseMessage(s.requestType.value, c.messageData)
          case None => Unserved(UndecodableData)
          case Some(request) => Serve(s.serviceName, request, s.HasCallback(), s.HasResponse())
  }

  /** A request a client sends for operation `s` is served by `s`'s handler,
      with a callback exactly when `s` has one, and answered exactly when `s`
      has a response. */
  lemma RequestReachesItsHandler(services: seq<Service>, pb: Protobuf, s: Service, request: Message)
    requires pb.Lawful() && WellFormed(services) && s in services
    requires s.requestType == Some(request.typeName)
    ensures ServerRoute(services, pb, pb.Envelope(s.serviceName, Request, request)) ==
              Serve(s.serviceName, request, s.HasCallback(), s.HasResponse())
  {
    var j :| 0 <= j < |services| && services[j] == s;
    FindServiceUnique(services, j);
    pb.OpenEnvelope(s.serviceName, Request, request);
  }

  class ClientHandler {
    const services: seq<Service>
    const pb: Protobuf
    /** `serviceHandler`, the application's implementation of the server
        service interface: the response to a request of an operation, given
        whether a callback is passed along. */
    const serviceHandler: (string, Message, bool) -> Message
    const serverDataTransceiver: SocketDataTransceiver
    /** The calls made on `serviceHandler`, oldest first. */
    var handled: seq<(string, Message, bool)>

    ghost predicate Valid()
      reads this, serverDataTransceiver
    {
      WellFormed(services) && !serverDataTransceiver.writeLockHeld
    }

    /** The constructor, on an accepted socket: a transceiver whose reader is
        created but not started. */
    constructor (services: seq<Service>, pb: Protobuf, serviceHandler: (string, Message, bool) -> Message, id: nat)
      requires WellFormed(services)
      ensures Valid() && this.services == services && this.pb == pb && this.serviceHandler == serviceHandler
      ensures fresh(serverDataTransceiver) && serverDataTransceiver.id == id
      ensures serverDataTransceiver.output == [] && !serverDataTransceiver.readerStarted
      ensures !serverDataTransceiver.socketClosed && handled == []
    {
      this.services := services;
      this.pb := pb;
      this.serviceHandler := serviceHandler;
      serverDataTransceiver := new SocketDataTransceiver(id);
      handled := [];
    }

    /** `initialize()`: starts the transceiver's reader. */
    method Initialize()
      requires Valid()
      modifies serverDataTransceiver`readerStarted
      ensures Valid() && serverDataTransceiver.readerStarted
    {
      serverDataTransceiver.Initialize();
    }

    /** `handleDataIndication(payload)`, run by the reader thread for every
        payload the client sends. A served request is passed to the service
        handler; when its operation has a response, exactly one
        `<op>Response` envelope holding the handler's answer is sent.
        `sendFault` is the failure of that send, which is only logged:
        nothing is closed and nothing is raised. */
    method HandleDataIndication(payload: ByteArray, sendFault: Option<WriteFault>)
      requires Valid()
      requires var a := ServerRoute(services, pb, payload);
               a.Serve? && a.respond ==>
                 |pb.Envelope(a.op, Response, serviceHandler(a.op, a.request, a.withCallback))| <= INT_MAX
      modifies this`handled, serverDataTransceiver`output, serverDataTransceiver`writeLockHeld
      ensures Valid()
      ensures var a := ServerRoute(services, pb, payload);
              handled == (if a.Serve? then old(handled) + [(a.op, a.request, a.withCallback)] else old(handled)) &&
              serverDataTransceiver.output ==
                old(serverDataTransceiver.output) +
                (if a.Serve? && a.respond
                 then SentBytes(pb.Envelope(a.op, Response, serviceHandler(a.op, a.request, a.withCallback)), sendFault)
                 else [])
    {
      var envelope := pb.parseContainer(payload);
      if envelope.None? {
        // cannot decode data
        return;
      }
      var c := envelope.value;
      var service := FindService(services, c.messageType.serviceName);
      if service.None? || c.messageType.kind != Request {
        // default: the message type cannot be processed
        return;
      }
      var s := service.value;
      var request := pb.parseMessage(s.requestType.value, c.messageData);
      if request.None? {
        // cannot decode data
        return;
      }
      var withCallback := s.HasCallback();
      handled := handled + [(s.serviceName, request.value, withCallback)];
      if s.HasResponse() {
        var response := serviceHandler(s.serviceName, request.value, withCallback);
        var sent := serverDataTransceiver.Send(pb.Envelope(s.serviceName, Response, response), sendFault);
        // a failed send is only logged
      }
    }

    /** `handleCommunicationsError()`: the reader thread stops on its own, so
        there is nothing to do. */
    method HandleCommunicationsError()
      requires Valid()
      ensures Valid()
    {
    }

    /** `<op>Callback(callbackMessage)`: sends the message as an `<op>Callback`
        envelope. A failed send raises `DISCONNECTED` with the send failure's
        message behind `CALLBACK_SEND_FAILURE`. */
    method SendCallback(op: string, callbackMessage: Message, fault: Option<WriteFault>)
      returns (r: Outcome<RemoteCommunicationsException>)
      requires Valid() && HasCallbackService(services, op)
      requires |pb.Envelope(op, Callback, callbackMessage)| <= INT_MAX
      modifies serverDataTransceiver`output, serverDataTransceiver`writeLockHeld
      ensures Valid()
      ensures serverDataTransceiver.output ==
                old(serverDataTransceiver.output) + SentBytes(pb.Envelope(op, Callback, callbackMessage), fault)
      ensures r == (if fault.None? then Pass
                    else Fail(RemoteCommunicationsException(Disconnected,
                                Some(CALLBACK_SEND_FAILURE + StringValueOf(fault.value.error.message)))))
    {
      var sent := serverDataTransceiver.Send(pb.Envelope(op, Callback, callbackMessage), fault);
      if sent.Fail? {
        return Fail(RemoteCommunicationsException(Disconnected,
                      Some(CALLBACK_SEND_FAILURE + StringValueOf(sent.error.message))));
      }
      return Pass;
    }
  }
}
