/** A whole call across a connected client and server, the two halves of the
    generated code working over one socket in each direction. */
module Exchanges {
  import opened Base
  import opened Framing
  import opened RemoteCommunications
  import opened Protocol
  import opened ServiceConfiguration
  import opened Transceivers
  import opened ReaderThreads
  import opened ClientServices
  import opened ClientHandlers

  /** A reader thread that finds exactly one packet on the wire hands its
      payload on once and then reports the end of the stream. */
  lemma ReadOnePacket(p: ByteArray)
    ensures Decode(Frame(p)) == Decoded([p], EndOfStream)
  {
    DecodeFrame(p, []);
    assert Frame(p) + [] == Frame(p);
  }

  /** The client half of the call: the request goes out on the client's
      transceiver, reconnecting first when there is none, and `wire` is the
      one packet it adds to the stream towards the server. */
  method ClientSends(client: ClientServiceImpl, op: string, request: Message, server: ClientHandler)
    returns (wire: seq<Byte>)
    requires client.Valid() && |client.pb.Envelope(op, Request, request)| <= INT_MAX
    requires client.proxy.clientDataTransceiver != server.serverDataTransceiver
    modifies client.proxy, client.proxy.clientDataTransceiver
    ensures client.Valid() && client.proxy.clientDataTransceiver != null
    ensures client.proxy.clientDataTransceiver != server.serverDataTransceiver
    ensures wire == Frame(client.pb.Envelope(op, Request, request))
  {
    var before := if client.proxy.clientDataTransceiver == null then 0
                  else |client.proxy.clientDataTransceiver.output|;
    var sent;
    ghost var used;
    sent, used := client.SendRequest(op, request, None, None);
    wire := client.proxy.clientDataTransceiver.output[before..];
  }

  /** The server half: its reader reads the request packet, the handler
      serves it, and `answer` is the one response packet it sends back. */
  method ServerServes(server: ClientHandler, wire: seq<Byte>, s: Service, request: Message)
    returns (answer: seq<Byte>)
    requires server.Valid() && server.pb.Lawful() && s in server.services
    requires s.HasResponse() && s.requestType == Some(request.typeName)
    requires |server.pb.Envelope(s.serviceName, Request, request)| <= INT_MAX
    requires |server.pb.Envelope(s.serviceName, Response,
                                 server.serviceHandler(s.serviceName, request, s.HasCallback()))| <= INT_MAX
    requires wire == Frame(server.pb.Envelope(s.serviceName, Request, request))
    modifies server`handled, server.serverDataTransceiver`output, server.serverDataTransceiver`writeLockHeld
    ensures server.Valid()
    ensures server.handled == old(server.handled) + [(s.serviceName, request, s.HasCallback())]
    ensures answer == Frame(server.pb.Envelope(s.serviceName, Response,
                                               server.serviceHandler(s.serviceName, request, s.HasCallback())))
  {
    ReadOnePacket(server.pb.Envelope(s.serviceName, Request, request));
    var requests, reports, end := Run(wire);
    RequestReachesItsHandler(server.services, server.pb, s, request);
    var before := |server.serverDataTransceiver.output|;
    server.HandleDataIndication(requests[0], None);
    answer := server.serverDataTransceiver.output[before..];
  }

  /** The client's reader reads the response packet and the caller waiting
      on the operation's reply handler gets the response. */
  method ClientReceives(client: ClientServiceImpl, answer: seq<Byte>, s: Service, response: Message)
    returns (reply: Result<Message, RemoteCommunicationsException>)
    requires client.Valid() && client.pb.Lawful() && s in client.services
    requires s.HasResponse() && response.typeName == s.responseType.value
    requires s.serviceName in client.replyHandlers && client.replyHandlers[s.serviceName].replyQ == []
    requires |client.pb.Envelope(s.serviceName, Response, response)| <= INT_MAX
    requires answer == Frame(client.pb.Envelope(s.serviceName, Response, response))
    modifies client.replyHandlers.Values, client`callbacksInvoked
    ensures client.Valid()
    ensures reply == Success(response)
  {
    ReadOnePacket(client.pb.Envelope(s.serviceName, Response, response));
    var responses, reports, end := Run(answer);
    ResponseReachesItsHandler(client.services, client.pb, s, response);
    client.HandleDataIndication(responses[0]);
    reply := client.replyHandlers[s.serviceName].GetReply(false);
  }

  /** One call of an operation with a response: the client sends the
      request, the server's reader reads it off the wire and the handler
      serves it with the application's service implementation, the client's
      reader reads the response off the wire and delivers it, and the caller
      waiting on the operation's reply handler gets exactly the
      implementation's answer. The server records exactly this one call. */
  method RequestResponseExchange(client: ClientServiceImpl, server: ClientHandler, s: Service, request: Message)
    returns (reply: Result<Message, RemoteCommunicationsException>)
    requires client.Valid() && server.Valid()
    requires client.services == server.services && client.pb == server.pb && client.pb.Lawful()
    requires s in client.services && s.HasResponse() && s.requestType == Some(request.typeName)
    requires server.serviceHandler(s.serviceName, request, s.HasCallback()).typeName == s.responseType.value
    requires s.serviceName in client.replyHandlers && client.replyHandlers[s.serviceName].replyQ == []
    requires client.proxy.clientDataTransceiver != server.serverDataTransceiver
    requires |client.pb.Envelope(s.serviceName, Request, request)| <= INT_MAX
    requires |client.pb.Envelope(s.serviceName, Response,
                                 server.serviceHandler(s.serviceName, request, s.HasCallback()))| <= INT_MAX
    modifies client.proxy, client.proxy.clientDataTransceiver, client.replyHandlers.Values, client`callbacksInvoked
    modifies server`handled, server.serverDataTransceiver`output, server.serverDataTransceiver`writeLockHeld
    ensures reply == Success(server.serviceHandler(s.serviceName, request, s.HasCallback()))
    ensures server.handled == old(server.handled) + [(s.serviceName, request, s.HasCallback())]
  {
    var wire := ClientSends(client, s.serviceName, request, server);
    var answer := ServerServes(server, wire, s, request);
    reply := ClientReceives(client, answer, s, server.serviceHandler(s.serviceName, request, s.HasCallback()));
  }

  /** A concrete run of one call over the reference codec: an `echo`
      operation whose implementation answers with the request's bytes. The
      assumptions of the exchange above can all be met. */
  method EchoExchange() returns (reply: Result<Message, RemoteCommunicationsException>)
    ensures reply == Success(Message("p.Res", [7]))
  {
    ReferenceCodecLawful();
    var s := Service("echo", Some("p.Req"), Some("p.Res"), None);
    var pb := ReferenceCodec();
    var client := new ClientServiceImpl([s], pb, "localhost", 8080);
    var server := new ClientHandler([s], pb, (op: string, m: Message, withCallback: bool) => Message("p.Res", m.fields), 0);
    assert FindService([s], "echo") == Some(s);
    reply := RequestResponseExchange(client, server, s, Message("p.Req", [7]));
  }
}
