/** The protobuf layer the generated code relies on, as an abstract codec:
    every server has a `MessageContainer` envelope whose `MessageType` names
    an operation and a kind, and whose data is the serialized application
    message. `parseFrom` is a partial decode, `toByteArray` a total encode. */
module Protocol {
  import opened Base

  /** The three suffixes of the `MessageType` constants. */
  datatype MessageKind = Request | Response | Callback

  /** A `MessageType` constant: `<serviceName><kind>`. */
  datatype MessageType = MessageType(serviceName: string, kind: MessageKind)

  /** An application message: the fully qualified protobuf type it belongs
      to, and its fields, kept abstract as bytes. */
  datatype Message = Message(typeName: string, fields: seq<Byte>)

  /** A `MessageContainer`: its `messageType` and its `messageData`. */
  datatype MessageContainer = MessageContainer(messageType: MessageType, messageData: seq<Byte>)

  /** Why a received payload is dropped: the envelope does not parse, its
      data does not parse as the message type of the operation, or the
      receiving side has no branch for its message type. */
  datatype DropReason = UndecodableEnvelope | UndecodableData | UnhandledType

  /** The generated protobuf classes: `MessageContainer.parseFrom`,
      `MessageContainer.toByteArray`, and `<type>.parseFrom` /
      `<message>.toByteArray` for application messages. */
  datatype Protobuf = Protobuf(
    parseContainer: seq<Byte> -> Option<MessageContainer>,
    containerToBytes: MessageContainer -> seq<Byte>,
    parseMessage: (string, seq<Byte>) -> Option<Message>,
    messageToBytes: Message -> seq<Byte>)
  {
    /** What protobuf guarantees: parsing what was serialized gives it back,
        and a parse through a type's `parseFrom` yields a message of that
        type. */
    ghost predicate Lawful() {
      (forall c :: parseContainer(containerToBytes(c)) == Some(c)) &&
      (forall m: Message :: parseMessage(m.typeName, messageToBytes(m)) == Some(m)) &&
      (forall t, b :: parseMessage(t, b).Some? ==> parseMessage(t, b).value.typeName == t)
    }

    /** `MessageContainer.newBuilder().setMessageType(<op><kind>)
        .setMessageData(ByteString.copyFrom(msg.toByteArray())).build()
        .toByteArray()`: the payload one send carries. Only an envelope of
        at most `INT_MAX` bytes fits a Java `byte[]`; the members that send
        one say so. */
    function Envelope(op: string, kind: MessageKind, msg: Message): seq<Byte> {
      containerToBytes(MessageContainer(MessageType(op, kind), messageToBytes(msg)))
    }

    /** Receiving an envelope: parsing the container gives back the operation
        and the kind it was built with, and parsing its data with the
        `parseFrom` of the message's type gives back the message. */
    lemma OpenEnvelope(op: string, kind: MessageKind, msg: Message)
      requires Lawful()
      ensures var c := parseContainer(Envelope(op, kind, msg));
              c.Some? && c.value.messageType == MessageType(op, kind) &&
              parseMessage(msg.typeName, c.value.messageData) == Some(msg)
    {
    }
  }

  // ---------------------------------------------------------------------
  // A reference codec: the laws above can be met

  /** A service name on the wire: every character as a marker byte 1 and
      its three code-point bytes, then a terminating 0. */
  function EncodeName(name: string): (b: seq<Byte>)
    ensures |b| == 4 * |name| + 1
  {
    if name == [] then [0]
    else
      var n := name[0] as int;
      [1, n / 0x1_0000, (n / 0x100) % 0x100, n % 0x100] + EncodeName(name[1..])
  }

  /** Reads an `EncodeName` prefix: the name and the bytes after it. */
  function DecodeName(b: seq<Byte>): Option<(string, seq<Byte>)>
    decreases |b|
  {
    if |b| == 0 then None
    else if b[0] == 0 then Some(([], b[1..]))
    else if b[0] != 1 || |b| < 4 then None
    else
      var n: int := b[1] as int * 0x1_0000 + b[2] as int * 0x100 + b[3] as int;
      if !(0 <= n < 0xD800 || 0xE000 <= n < 0x11_0000) then None
      else
        match DecodeName(b[4..])
        case None => None
        case Some((tail, rest)) => Some(([n as char] + tail, rest))
  }

  function KindByte(kind: MessageKind): Byte {
    match kind
    case Request => 0
    case Response => 1
    case Callback => 2
  }

  function KindOf(b: Byte): Option<MessageKind> {
    if b == 0 then Some(Request)
    else if b == 1 then Some(Response)
    else if b == 2 then Some(Callback)
    else None
  }

  /** The container on the wire: the service name, the kind byte, then the
      message data. */
  function ContainerBytes(c: MessageContainer): seq<Byte> {
    EncodeName(c.messageType.serviceName) + [KindByte(c.messageType.kind)] + c.messageData
  }

  function ParseContainerBytes(b: seq<Byte>): Option<MessageContainer> {
    match DecodeName(b)
    case None => None
    case Some((name, rest)) =>
      if |rest| == 0 then None
      else
        match KindOf(rest[0])
        case None => None
        case Some(kind) => Some(MessageContainer(MessageType(name, kind), rest[1..]))
  }

  /** As in protobuf, a message's bytes do not carry its type: the type is
      the one whose `parseFrom` reads them. */
  function ReferenceCodec(): Protobuf {
    Protobuf(ParseContainerBytes, ContainerBytes,
             (t: string, b: seq<Byte>) => Some(Message(t, b)),
             (m: Message) => m.fields)
  }

  lemma {:induction false} DecodeEncodeName(name: string, rest: seq<Byte>)
    ensures DecodeName(EncodeName(name) + rest) == Some((name, rest))
  {
    if name != [] {
      var n := name[0] as int;
      var b := EncodeName(name) + rest;
      assert b == [1, n / 0x1_0000, (n / 0x100) % 0x100, n % 0x100] + (EncodeName(name[1..]) + rest);
      CodePointBytes(n);
      assert b[4..] == EncodeName(name[1..]) + rest;
      DecodeEncodeName(name[1..], rest);
      assert [n as char] + name[1..] == name;
    } else {
      assert (EncodeName(name) + rest)[1..] == rest;
    }
  }

  lemma CodePointBytes(n: int)
    requires 0 <= n < 0x11_0000
    ensures (n / 0x1_0000) * 0x1_0000 + ((n / 0x100) % 0x100) * 0x100 + n % 0x100 == n
  {
    assert n / 0x100 == (n / 0x1_0000) * 0x100 + (n / 0x100) % 0x100;
  }

  lemma ReferenceCodecLawful()
    ensures ReferenceCodec().Lawful()
  {
    forall c: MessageContainer
      ensures ParseContainerBytes(ContainerBytes(c)) == Some(c)
    {
      var k := KindByte(c.messageType.kind);
      DecodeEncodeName(c.messageType.serviceName, [k] + c.messageData);
      assert ContainerBytes(c) == EncodeName(c.messageType.serviceName) + ([k] + c.messageData);
    }
  }
}
