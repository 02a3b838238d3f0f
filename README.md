# xsrpcj in Dafny

xsrpcj generates a Java client/server RPC stack from a JSON service
description. Each server has a name, a port, a Java package and a list of
services. Each service has a name, a request type, and optionally a response
type and a callback type. The generator (`XsRPCJGenerator`) expands Velocity
templates into Java sources. It writes the infrastructure classes once, and
for each server it writes the server side, the client side and a protobuf
message-container file.

The generated runtime works over a TCP socket:
- Every message is a length-prefixed frame: a big-endian 32-bit size
  followed by the bytes of a protobuf `MessageContainer`. The container
  carries the operation and its kind (request, response, callback) and the
  encoded message.
- `SocketDataTransceiver` writes frames under a write lock.
- A `SocketDataTransceiverReaderThread` reads frames and hands each payload
  to a data handler. On the first I/O error it reports once to an error
  handler and stops.
- On the client, `ServiceProxy` (re)creates the transceiver lazily and
  drops it after a communications error. The generated
  `ClientServiceImplementation` sends a request and blocks on a
  `ClientReplyHandler` queue for the reply. Its data handler routes
  responses to those queues and callbacks to the application.
- On the server, the generated `ClientHandler` decodes each request, calls
  the application's service handler and sends the response back. It also
  sends callbacks.

This project models that runtime and the generator's pure and imperative
helpers, and proves properties of the model:
- Framing round trips, and a reader loop proved against a decoding function.
- The error-reporting protocol of the proxy, including stale reports from
  an old reader thread.
- Routing of every message kind on both sides.
- A complete request/response exchange from client to server and back.
- The generator's import lists, file names and output file list.

Conventions of the model:
- Threads are modelled sequentially. A thread is a `ThreadId`: the reader
  thread of transceiver `n`, or the foreground.
- Blocking with a timeout means "the queue is empty at the poll".
- I/O faults are parameters, for example `Option<IOException>` or a
  `WriteFault` that records how many bytes were written before the error.
- Protobuf is a parameter (`Protocol.Protobuf`). Its ghost `Lawful()`
  states the round-trip laws the generated code relies on. Serialization
  yields unbounded byte sequences, and `Protocol.ReferenceCodecLawful` proves
  that a concrete codec, `Protocol.ReferenceCodec`, meets the laws. So the
  members that assume them are not vacuous. Only an envelope of at most
  `Integer.MAX_VALUE` bytes fits a Java `byte[]`, and the members that send
  one require that.
- Velocity's `#foreach`/`#if` over the services is a `services` parameter
  of the generated classes.

## Model

| member | source | states |
|---|---|---|
| JavaStrings.SegmentsJoin | src/main/java/org/xsrpcj/gen/ServiceConfigurationReader.java:83 | splitting on '.' loses nothing: re-joining all the segments with '.' gives back the original string |
| JavaStrings.DropTrailingEmptyAllEmpty | src/main/java/org/xsrpcj/gen/ServiceConfigurationReader.java:83 | Java `split` returns an empty array exactly when every segment is empty |
| JavaStrings.LastOfSplitDotFree | src/main/java/org/xsrpcj/gen/ServiceConfigurationReader.java:83-84 | a dot-free type name is its own last segment |
| JavaStrings.LastOfSplitQualified | src/main/java/org/xsrpcj/gen/ServiceConfigurationReader.java:83-84 | for a qualified name `p.c` with a non-empty, dot-free `c`, the last element of the split is `c` |
| JavaStrings.LastOfSplitDotFreeResult | src/main/java/org/xsrpcj/gen/XsRPCJGenerator.java:655-658 | a class name taken from a split never contains a dot |
| JavaStrings.LastOfSplitUndefined | src/main/java/org/xsrpcj/gen/XsRPCJGenerator.java:655-658 | indexing `length-1` fails (ArrayIndexOutOfBounds) exactly when the name is non-empty and all dots |
| JavaStrings.ReplaceCharInverse | src/main/java/org/xsrpcj/gen/XsRPCJGenerator.java:644 | replacing '.' by '/' is undone by the reverse replacement when the input has no '/' |
| RemoteCommunications.RemoteCommunicationsException.GetMessage | src/main/resources/templates/infrastructure/RemoteCommunicationsException.java:21-22 | the message starts with the header and the error type's name; with no reason nothing follows, with a reason the separator and the reason follow |
| RemoteCommunications.ParseGetMessage | src/main/resources/templates/infrastructure/RemoteCommunicationsException.java:21-25 | the error type and the optional reason can be read back from the exception's message |
| RemoteCommunications.MessageDeterminesException | src/main/resources/templates/infrastructure/RemoteCommunicationsException.java:21-33 | two exceptions with the same message have the same type and reason, so the message is injective |
| Framing.ReadIntWriteInt | src/main/resources/templates/infrastructure/SocketDataTransceiver.java:134 | reading back the four bytes `writeInt` puts on the stream yields the same signed 32-bit value |
| Framing.WriteIntReadInt | target/classes/templates/infrastructure/SocketDataTransceiverReaderThread.java:64 | every four-byte header `readInt` accepts is exactly what `writeInt` of its value produces |
| Framing.Frame | src/main/resources/templates/infrastructure/SocketDataTransceiver.java:128-142 | a frame is four header bytes longer than its payload |
| Framing.DecodeFrame | target/classes/templates/infrastructure/SocketDataTransceiverReaderThread.java:64-77 | the reader takes one frame off the front of the stream, dispatches its payload and goes on with the rest |
| Framing.DecodeFrames | target/classes/templates/infrastructure/SocketDataTransceiverReaderThread.java:55-93 | a stream of frames is read back as exactly its payloads, in order, ending at end of stream |
| Framing.FramesAppend | src/main/resources/templates/infrastructure/SocketDataTransceiver.java:120-152 | frames sent one after the other are concatenated on the stream |
| Framing.DecodeSound | target/classes/templates/infrastructure/SocketDataTransceiverReaderThread.java:55-93 | whatever the input, the dispatched payloads framed again are a prefix of it, and decoding what follows that prefix dispatches nothing more and ends the same way |
| ReaderThreads.Run | target/classes/templates/infrastructure/SocketDataTransceiverReaderThread.java:55-93 | the reader loop dispatches exactly the payloads the decoding function gives. It reports one error at end of stream and none when a negative size stops it |
| ReaderThreads.RunOnFrames | target/classes/templates/infrastructure/SocketDataTransceiverReaderThread.java:55-93 | on a stream made of frames the reader dispatches every payload in order, then reports one error |
| ReaderThreads.ThreadCounter.GetThreadCount | target/classes/templates/infrastructure/SocketDataTransceiverReaderThread.java:96-102 | the count stays in 1..Integer.MAX_VALUE; it is the previous count plus one, and wraps to 1 after MAX_VALUE |
| Transceivers.SocketDataTransceiver.constructor | src/main/resources/templates/infrastructure/SocketDataTransceiver.java:82-99 | a new transceiver has written nothing, its reader is not started, its socket is open and the lock is free |
| Transceivers.SocketDataTransceiver.Initialize | src/main/resources/templates/infrastructure/SocketDataTransceiver.java:104-109 | starts the reader thread and changes nothing else |
| Transceivers.SocketDataTransceiver.Send | src/main/resources/templates/infrastructure/SocketDataTransceiver.java:120-152 | a successful send appends exactly one frame; a failed send appends the bytes written before the fault and raises its IOException; the lock is released either way |
| Transceivers.SocketDataTransceiver.CloseSocket | src/main/resources/templates/infrastructure/SocketDataTransceiver.java:170-177 | returns true exactly when the close did not fail, and the socket is closed exactly then |
| Transceivers.SendTwice | src/main/resources/templates/infrastructure/SocketDataTransceiver.java:120-152 | two sends leave two whole frames that the reader decodes back to the two payloads, in order |
| ReplyHandlers.ClientReplyHandler.constructor | src/main/resources/templates/infrastructure/ClientReplyHandler.java:24-32 | a new handler has an empty queue and the given timeout |
| ReplyHandlers.ClientReplyHandler.GetReply | src/main/resources/templates/infrastructure/ClientReplyHandler.java:39-52 | interruption gives DISCONNECTED with the fixed reason; an empty queue gives TIMEOUT with the timeout in the reason; otherwise the oldest reply is returned and removed |
| ReplyHandlers.ClientReplyHandler.InsertReply | src/main/resources/templates/infrastructure/ClientReplyHandler.java:61-63 | the reply is appended at the tail of the queue |
| ReplyHandlers.LateReplyGoesToNextCaller | src/main/resources/templates/infrastructure/ClientReplyHandler.java:39-63 | a reply that arrives after its caller timed out stays queued and is returned to the next caller of the same operation |
| ServiceProxies.ServiceProxy.constructor | src/main/resources/templates/infrastructure/ServiceProxy.java:43-46 | host and port are kept and there is no transceiver yet |
| ServiceProxies.ServiceProxy.CheckDataTransceiver | src/main/resources/templates/infrastructure/ServiceProxy.java:64-80 | an existing transceiver is kept; otherwise a failed connect gives CANNOT_CONNECT with the I/O message, and a successful one installs a fresh transceiver whose reader is started |
| ServiceProxies.ServiceProxy.HandleCommunicationsError | src/main/resources/templates/infrastructure/ServiceProxy.java:94-130 | a report from the current reader thread or from the foreground clears the transceiver; a report from an older reader thread, or with none set, changes nothing |
| ServiceProxies.ServiceProxy.Finished | src/main/resources/templates/infrastructure/ServiceProxy.java:138-143 | with no transceiver it returns true; otherwise it returns the result of closing the socket, and the transceiver stays |
| ServiceProxies.StaleReportAfterReconnect | src/main/resources/templates/infrastructure/ServiceProxy.java:94-120 | after a foreground error and a reconnect, a late report from the old reader thread leaves the new transceiver in place |
| ServiceProxies.CurrentReaderReportClears | src/main/resources/templates/infrastructure/ServiceProxy.java:101-112 | a report from the current reader thread clears the transceiver |
| Protocol.Protobuf.OpenEnvelope | target/classes/templates/client/ClientServiceImplementation.java:89-90 | with a lawful protobuf, parsing an envelope gives back its operation and kind, and parsing its data with the message type's `parseFrom` gives back the message |
| ServiceConfiguration.ClassNameOf | src/main/java/org/xsrpcj/gen/ServiceConfigurationReader.java:79-104 | null exactly for an absent type; out of bounds exactly for an all-dots name; a dot-free name is itself; a result never contains a dot |
| ServiceConfiguration.ClassNameQualified | src/main/java/org/xsrpcj/gen/XsRPCJGenerator.java:655-658 | the class name of `package.Name` is `Name` |
| ServiceConfiguration.Service.ServiceNameUpper | src/main/java/org/xsrpcj/gen/ServiceConfigurationReader.java:65-67 | same length and same tail as the name; the first letter is not lower case and changes only from `a`..`z` to its upper-case letter |
| ServiceConfiguration.ServiceNameUpperIdempotent | src/main/java/org/xsrpcj/gen/ServiceConfigurationReader.java:65-67 | upper-casing twice is upper-casing once, and a name already starting with a non-lower-case letter is unchanged |
| ServiceConfiguration.FindService | target/classes/templates/client/ClientServiceImplementation.java:136-191 | a found service is in the list with the looked-up name; not found means no service has that name |
| ServiceConfiguration.FindServiceUnique | target/classes/templates/client/ClientServiceImplementation.java:136-191 | with distinct names every service is found under its own name, so the generated `switch` has one case per operation |
| ServiceConfiguration.HasResponseServiceIff | src/main/java/org/xsrpcj/gen/ServiceConfigurationReader.java:106-112 | an operation has a response exactly when some service of that name declares a response type |
| ClientServices.ClientRoute | target/classes/templates/client/ClientServiceImplementation.java:111-194 | a reply is queued exactly when the envelope is a response to an operation with a response and its data parses as that response type; the queued reply is the parsed message. The same holds for callbacks with the callback type. Payloads are dropped as undecodable exactly when the envelope does not parse, and for their data exactly when the data of such a response or callback does not parse |
| ClientServices.ResponseReachesItsHandler | target/classes/templates/client/ClientServiceImplementation.java:137-159 | every well-typed response the server can send is queued for its own operation |
| ClientServices.CallbackReachesItsCallback | target/classes/templates/client/ClientServiceImplementation.java:164-180 | every well-typed callback the server can send reaches its own operation's callback |
| ClientServices.CreateReplyHandlers | target/classes/templates/client/ClientServiceImplementation.java:61-65 | there is one reply handler per operation with a response and none for the others; each is new, empty, has the 60-second timeout, and no two are shared |
| ClientServices.ClientServiceImpl.constructor | target/classes/templates/client/ClientServiceImplementation.java:57-73 | the client starts with no transceiver, with fresh empty reply handlers and no callbacks invoked |
| ClientServices.ClientServiceImpl.SendRequest | target/classes/templates/client/ClientServiceImplementation.java:87-97 | a failed connect gives CANNOT_CONNECT and sends nothing. Otherwise exactly the request envelope is sent on the (possibly new) transceiver. A send fault clears the transceiver and gives DISCONNECTED |
| ClientServices.ClientServiceImpl.HandleSendException | target/classes/templates/client/ClientServiceImplementation.java:209-219 | clears the transceiver and raises DISCONNECTED with the I/O message |
| ClientServices.ClientServiceImpl.Call | target/classes/templates/client/ClientServiceImplementation.java:78-105 | connect and send failures surface as in SendRequest. A one-way operation returns nothing. A request/response operation returns the result of its own reply handler, and every other reply queue is unchanged |
| ClientServices.ClientServiceImpl.HandleDataIndication | target/classes/templates/client/ClientServiceImplementation.java:111-194 | does what ClientRoute decides: appends the reply to exactly its operation's queue, or records the callback, or changes nothing |
| ClientServices.DeliveredReplyIsReturned | target/classes/templates/client/ClientServiceImplementation.java:99-104 | a reply delivered for an operation is what the next call of that operation returns |
| ClientHandlers.ServerRoute | src/main/resources/templates/server/ClientHandler.java:67-172 | a request is served exactly when the envelope is a request of a listed operation and its data parses as that operation's request type; the served request is the parsed message. The service handler gets the callback flag of the service, and a response is sent exactly when it has one. Payloads are dropped as undecodable exactly when the envelope does not parse, and for their data exactly when such a request's data does not parse |
| ClientHandlers.RequestReachesItsHandler | src/main/resources/templates/server/ClientHandler.java:92-143 | every well-typed request a client can send reaches its own operation's handler |
| ClientHandlers.ClientHandler.constructor | src/main/resources/templates/server/ClientHandler.java:55-59 | the handler owns a new transceiver that has written nothing, with its reader not yet started |
| ClientHandlers.ClientHandler.Initialize | src/main/resources/templates/server/ClientHandler.java:61-63 | starts the transceiver's reader thread |
| ClientHandlers.ClientHandler.HandleDataIndication | src/main/resources/templates/server/ClientHandler.java:67-172 | a served request is passed to the service handler. When the operation has a response, exactly the response envelope is sent; nothing is sent otherwise |
| ClientHandlers.ClientHandler.SendCallback | src/main/resources/templates/server/ClientHandler.java:188-211 | sends exactly the callback envelope; a write fault raises DISCONNECTED with the fixed prefix and the I/O message |
| Exchanges.ReadOnePacket | target/classes/templates/infrastructure/SocketDataTransceiverReaderThread.java:55-93 | one frame on the stream is read as exactly its payload, followed by end of stream |
| Exchanges.ClientSends | target/classes/templates/client/ClientServiceImplementation.java:87-97 | what a connected client puts on the wire for a call is exactly one frame holding the request envelope |
| Exchanges.ServerServes | src/main/resources/templates/server/ClientHandler.java:92-134 | the server reads that frame, runs the handler once on the request and writes exactly one frame holding the response envelope |
| Exchanges.ClientReceives | target/classes/templates/client/ClientServiceImplementation.java:99-159 | the client reads that frame, queues the response and the waiting call returns it |
| Exchanges.RequestResponseExchange | target/classes/templates/client/ClientServiceImplementation.java:78-105 | end to end: a call returns exactly what the server's service handler computed for that request, and the handler ran once |
| Exchanges.EchoExchange | target/classes/templates/client/ClientServiceImplementation.java:78-105 | over a concrete lawful codec, a call of an `echo` operation returns exactly the message its server implementation built from the request |
| Generator.GeneratorCounter.constructor | src/main/java/org/xsrpcj/gen/XsRPCJGenerator.java:68-69 | a new counter starts at -1 |
| Generator.GeneratorCounter.GetNext | src/main/java/org/xsrpcj/gen/XsRPCJGenerator.java:71-74 | each call returns one more than the previous value and stores it |
| Generator.DrawNumbers | src/main/java/org/xsrpcj/gen/XsRPCJGenerator.java:68-74 | a fresh counter numbers successive entries 0, 1, 2, ... |
| Generator.FilePath | src/main/java/org/xsrpcj/gen/XsRPCJGenerator.java:643-647 | the package with each '.' turned into '/', then '/', then the file name, character by character |
| Generator.FilePathPackage | src/main/java/org/xsrpcj/gen/XsRPCJGenerator.java:643-647 | the package can be read back from the directory part of the path |
| Generator.FilePathInjective | src/main/java/org/xsrpcj/gen/XsRPCJGenerator.java:643-647 | for slash-free packages and file names, different (package, file) pairs never share a path |
| Generator.FirstIndex | src/main/java/org/xsrpcj/gen/XsRPCJGenerator.java:331-344 | the index of the first occurrence of an element |
| Generator.DedupElements | src/main/java/org/xsrpcj/gen/XsRPCJGenerator.java:331-344 | the `contains` check keeps exactly the elements of the input |
| Generator.DedupDistinct | src/main/java/org/xsrpcj/gen/XsRPCJGenerator.java:331-344 | the import list has no duplicates |
| Generator.DedupFirstOccurrenceOrder | src/main/java/org/xsrpcj/gen/XsRPCJGenerator.java:331-344 | imports appear in the order of their first declaration |
| Generator.ClassImports | src/main/java/org/xsrpcj/gen/XsRPCJGenerator.java:331-344 | the import-collection loop (request, response, callback type of each service, skipping ones already present) computes the duplicate-free list of declared types |
| Generator.DeclaredTypesElements | src/main/java/org/xsrpcj/gen/XsRPCJGenerator.java:331-344 | a type is among the declared types exactly when some service declares it as request, response or callback type |
| Generator.ImportListContents | src/main/java/org/xsrpcj/gen/XsRPCJGenerator.java:481-493 | a type is imported exactly when some service declares it, which is the import list of all four service-level classes |
| Generator.GenerateCallbackInterfaces | src/main/java/org/xsrpcj/gen/XsRPCJGenerator.java:289-314 | for services whose callback names and callback class names can be formed (`CallbackNamesDefined`): returns the callback interface names of the services with a callback, in order, and writes each to its path under the sub-package |
| Generator.CallbackNamesElements | src/main/java/org/xsrpcj/gen/XsRPCJGenerator.java:441-463 | a name is a callback interface exactly when some service with a callback gives it |
| Generator.CallbackInterfaceNameInjective | src/main/java/org/xsrpcj/gen/XsRPCJGenerator.java:445 | two services give the same interface name only when their upper-cased names are equal |
| Generator.CallbackInterfaceNamesCanCollide | src/main/java/org/xsrpcj/gen/XsRPCJGenerator.java:296 | services `notify` and `Notify` both produce `ChatNotifyClientCallback`, so the second file overwrites the first |
| Generator.GenerateInfrastructureFiles | src/main/java/org/xsrpcj/gen/XsRPCJGenerator.java:237-254 | writes the eight infrastructure classes, in the fixed order, under the infrastructure package |
| Generator.GenerateServerFiles | src/main/java/org/xsrpcj/gen/XsRPCJGenerator.java:410-431 | writes the server callback interfaces, then the service interface, the client handler and the server class |
| Generator.GenerateClientFiles | src/main/java/org/xsrpcj/gen/XsRPCJGenerator.java:263-280 | writes the client callback interfaces, then the service interface and its implementation |
| Generator.GenerateServerOutputs | src/main/java/org/xsrpcj/gen/XsRPCJGenerator.java:188-201 | for one server: the server files if requested, then the client files if requested, then the proto file |
| Generator.GenerateSourceFiles | src/main/java/org/xsrpcj/gen/XsRPCJGenerator.java:158-201 | writes exactly the file list GeneratedFiles describes: infrastructure first when requested, then each server's outputs in server order |
| Generator.ProtoFilesOnly | src/main/java/org/xsrpcj/gen/XsRPCJGenerator.java:188-201 | with neither `-client` nor `-server`, one proto file per server is still written |
| Generator.InfrastructureFirst | src/main/java/org/xsrpcj/gen/XsRPCJGenerator.java:184-186 | with `-infrastructure` the first eight files are the infrastructure classes |
| Generator.AllUnderSourcePath | src/main/java/org/xsrpcj/gen/XsRPCJGenerator.java:188-201 | every per-server output path is spelled starting with the source generation path and '/' (a string fact: the proto file, `/../proto/`, lies beside the source directory) |
| Generator.ParseArguments | src/main/java/org/xsrpcj/gen/XsRPCJGenerator.java:91-129 | usage exactly when there are fewer than 3 or more than 5 arguments, or no flag is present. Otherwise each flag is set exactly when it appears, the JSON file is the last argument and the source path the one before |

## Left out

- Velocity itself: template text, the generated Java and `.proto` contents, `FileWriter` and `mkdirs`. The generator is modelled by the list of paths it writes, in order.
- The `protoc` invocation and the `PROTOC_PATH` environment read (XsRPCJGenerator.java:105 and 204-225) are external processes and are not modelled. The proto output path is modelled.
- Reading the JSON description with Gson (`parseSeviceConfigurationFile`). The parsed `ServiceDescription` is a parameter. A missing file, which only logs and returns, is not modelled.
- The proto template `MessageContainer.proto` is not part of this model. The counter's use there is modelled only as successive `GetNext` calls.
- Generator.GeneratorCounter.GetNext: the Java `int` would wrap after 2^31-1 calls. The model uses unbounded integers.
- Envelopes of more than `Integer.MAX_VALUE` bytes cannot be held in a Java `byte[]`, and protobuf does not serialize them. The sending members (`SendRequest`, `Call`, `ClientHandler.HandleDataIndication`, `SendCallback`, and the exchange methods) require the envelope they send to fit. The model does not say what happens to a larger one.
- `Server.java` (the accept loop) and the interface-only templates (`ClientServiceInterface`, `ClientCallbackInterface`, `ServerServiceInterface`, `ServerCallbackInterface`, `DataHandler`, `ErrorHandler`) declare no behaviour beyond their names and imports.
- Real threads, `synchronized`, `ReentrantLock` and blocking waits. The model is sequential. The write lock is a ghost flag. A timed-out poll is an empty queue, and an interruption is a parameter.
- Logging and `toString` everywhere, including the `System.out` message in ServiceProxy.java:108-110.
- Transceivers.SocketDataTransceiver.IsDataTransceiverThread compares a thread with its own reader thread. It is a plain predicate with no contract; `ThreadId` makes the comparison exact.
- ReaderThreads.Run: a huge positive size that makes `new byte[]` throw `OutOfMemoryError` is not modelled. Every non-negative size is treated as readable when the bytes are there.
- Generator.GenerateCallbackInterfaces, Generator.GenerateServerFiles, Generator.GenerateClientFiles, Generator.GenerateServerOutputs and Generator.GenerateSourceFiles require `CallbackNamesDefined` for every server. So every service with a callback has a non-empty name and a callback type that is not all dots. In Java, an empty name makes `getServiceNameUpper` throw `StringIndexOutOfBoundsException` (XsRPCJGenerator.java:296 and 445). An all-dots type makes `getClassName` throw `ArrayIndexOutOfBoundsException` (XsRPCJGenerator.java:303 and 452, via 655-658). `generateSourceFiles` catches only `IOException` (XsRPCJGenerator.java:169), so the run stops after the files already written, and no proto file follows. The model does not describe that partial output.
- The templates read `serviceNameUpper` and the request, response and callback class names of every service. When one of these throws while a template is rendered, Velocity ends the run part-way. Templates are not modelled, so neither is that abort.
- ServiceConfiguration.Service.ServiceNameUpper requires a non-empty name. Java throws `StringIndexOutOfBoundsException` on an empty name, which is never caught. Upper-casing is ASCII only, while Java's `toUpperCase` is locale- and Unicode-aware.
- ClientServices.ClientServiceImpl.HandleDataIndication: the application's callbacks are recorded, not run. Their side effects and exceptions are not modelled. `InterruptedException` from `put` on the unbounded queue cannot happen and is not modelled.
- ClientHandlers.ClientHandler.HandleDataIndication: the application's service handler is a total function. An exception it throws and a `null` response are not modelled. The send failure after a response is written is only logged in the source (ClientHandler.java:127-133), and the model drops it too.
- ClientHandlers.ClientHandler.HandleCommunicationsError only logs in the source. The model changes nothing and states only the handler invariant.
- The client implementation `extends ServiceProxy` in Java. The model composes a `ServiceProxy` object instead.
- ClientServices.ClientServiceImpl.Call: replies that arrive while a call waits are modelled as replies queued before the poll.
- The class-name accessors (`RequestClassName`, `ResponseClassName`, `CallbackClassName`) are plain functions with no contract. Their properties are stated on `ClassNameOf`.
- The `serverimpl` sub-package and the `ServerServiceInterfaceImpl` template are declared but never generated.
