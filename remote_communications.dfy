/** The error taxonomy of the generated runtime: the
    `RemoteCommunicationsErrorType` enumeration and the checked
    `RemoteCommunicationsException` that every client call may raise. */
module RemoteCommunications {
  import opened Base

  /** `RemoteCommunicationsErrorType`. */
  datatype ErrorType = CannotConnect | Disconnected | Timeout {
    /** `Enum.name()`: the constant's identifier as written in Java. */
    function Name(): string {
      match this
      case CannotConnect => "CANNOT_CONNECT"
      case Disconnected => "DISCONNECTED"
      case Timeout => "TIMEOUT"
    }
  }

  const MESSAGE_HEADER: string := "Remote communications exception. Type:"
  const INFO_SEPARATOR: string := " additional info:"

  /** `RemoteCommunicationsException(errorType, optionalInfo)`. The two fields
      are the final fields the constructor sets, so `getErrorType` and
      `getOptionalReason` are the destructors `errorType` and `optionalReason`;
      a null `optionalInfo` is `None`. */
  datatype RemoteCommunicationsException = RemoteCommunicationsException(errorType: ErrorType, optionalReason: Option<string>) {

    /** The message handed to `Exception(String)` by the constructor. */
    function GetMessage(): (m: string)
      ensures MESSAGE_HEADER + errorType.Name() <= m
      ensures optionalReason.None? ==> |m| == |MESSAGE_HEADER + errorType.Name()|
      ensures optionalReason.Some? ==>
                m[|MESSAGE_HEADER + errorType.Name()|..] == INFO_SEPARATOR + optionalReason.value
    {
      MESSAGE_HEADER + errorType.Name() + (if optionalReason.None? then "" else INFO_SEPARATOR + optionalReason.value)
    }
  }

  /** Reads a message back: the error type named after the header, and the
      text after the separator if there is one. */
  function ParseMessage(m: string): Option<RemoteCommunicationsException> {
    if !(MESSAGE_HEADER <= m) then None
    else
      var rest := m[|MESSAGE_HEADER|..];
      if |rest| == 0 then None
      else
        var t := if rest[0] == 'C' then CannotConnect else if rest[0] == 'D' then Disconnected else Timeout;
        var name := t.Name();
        if rest == name then Some(RemoteCommunicationsException(t, None))
        else if name + INFO_SEPARATOR <= rest then
          Some(RemoteCommunicationsException(t, Some(rest[|name + INFO_SEPARATOR|..])))
        else None
  }

  /** The message loses nothing: type and additional info can be read back. */
  lemma ParseGetMessage(e: RemoteCommunicationsException)
    ensures ParseMessage(e.GetMessage()) == Some(e)
  {
    var m := e.GetMessage();
    var name := e.errorType.Name();
    var rest := m[|MESSAGE_HEADER|..];
    assert MESSAGE_HEADER + name <= m;
    assert rest[..|name|] == name;
    match e.optionalReason
    case None =>
      assert rest == name;
    case Some(info) =>
      assert rest == name + INFO_SEPARATOR + info;
      assert rest[|name + INFO_SEPARATOR|..] == info;
  }

  /** Hence two exceptions with the same message are the same exception. */
  lemma MessageDeterminesException(e1: RemoteCommunicationsException, e2: RemoteCommunicationsException)
    requires e1.GetMessage() == e2.GetMessage()
    ensures e1 == e2
  {
    ParseGetMessage(e1);
    ParseGetMessage(e2);
  }
}
