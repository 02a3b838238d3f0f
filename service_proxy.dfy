/** `ServiceProxy`: the client-side owner of the connection. It creates a
    transceiver lazily before each call, drops it when a communications
    error is reported, and tells a report from the current reader thread
    apart from a late one sent by the reader of a transceiver it has already
    replaced. */
module ServiceProxies {
  import opened Base
  import opened RemoteCommunications
  import opened Transceivers

  class ServiceProxy {
    const host: string
    const port: int
    /** `clientDataTransceiver`; null when there is no connection. */
    var clientDataTransceiver: SocketDataTransceiver?
    /** The id the next transceiver's reader thread gets: every transceiver
        created so far has a smaller one, so reader threads are never
        confused with each other. */
    var nextId: nat

    ghost predicate Valid()
      reads this, clientDataTransceiver
    {
      clientDataTransceiver != null ==>
        clientDataTransceiver.id < nextId &&
        clientDataTransceiver.readerStarted &&
        !clientDataTransceiver.writeLockHeld
    }

    constructor (host: string, port: int)
      ensures Valid() && this.host == host && this.port == port
      ensures clientDataTransceiver == null && nextId == 0
    {
      this.host := host;
      this.port := port;
      clientDataTransceiver := null;
      nextId := 0;
    }

    /** `checkDataTransceiver()`. With a transceiver present nothing changes.
        Without one, a new transceiver connects to host:port and its reader
        is started; `connect` is the `IOException` the connection attempt
        throws, if it does, and becomes a `CANNOT_CONNECT` exception carrying
        its message, with no transceiver kept. */
    method CheckDataTransceiver(connect: Option<IOException>) returns (r: Outcome<RemoteCommunicationsException>)
      requires Valid()
      modifies this
      ensures Valid()
      ensures old(clientDataTransceiver) != null ==>
                r == Pass && clientDataTransceiver == old(clientDataTransceiver) && nextId == old(nextId)
      ensures old(clientDataTransceiver) == null && connect.Some? ==>
                r == Fail(RemoteCommunicationsException(CannotConnect, connect.value.message)) &&
                clientDataTransceiver == null && nextId == old(nextId)
      ensures old(clientDataTransceiver) == null && connect.None? ==>
                r == Pass && clientDataTransceiver != null && fresh(clientDataTransceiver) &&
                clientDataTransceiver.id == old(nextId) && clientDataTransceiver.output == [] &&
                !clientDataTransceiver.socketClosed && nextId == old(nextId) + 1
    {
      if clientDataTransceiver == null {
        if connect.Some? {
          return Fail(RemoteCommunicationsException(CannotConnect, connect.value.message));
        }
        // getDataTransceiverInstance()
        var t := new SocketDataTransceiver(nextId);
        nextId := nextId + 1;
        clientDataTransceiver := t;
        t.Initialize();
      }
      return Pass;
    }

    /** `handleCommunicationsError()`, called on thread `caller`. With no
        transceiver it does nothing. A report from a reader thread clears the
        transceiver only when that thread is the current transceiver's
        reader; a report from any other thread always clears it. */
    method HandleCommunicationsError(caller: ThreadId)
      requires Valid()
      modifies this`clientDataTransceiver
      ensures Valid()
      ensures old(clientDataTransceiver) == null ==> clientDataTransceiver == null
      ensures old(clientDataTransceiver) != null && caller.Reader? ==>
                clientDataTransceiver ==
                  (if old(clientDataTransceiver).IsDataTransceiverThread(caller) then null
                   else old(clientDataTransceiver))
      ensures old(clientDataTransceiver) != null && caller == Foreground ==> clientDataTransceiver == null
    {
      if clientDataTransceiver == null {
        // already handled
      } else if caller.Reader? {
        if clientDataTransceiver.IsDataTransceiverThread(caller) {
          clientDataTransceiver := null;
        } else {
          // a late report from the reader of a replaced transceiver
        }
      } else {
        clientDataTransceiver := null;
      }
    }

    /** `finished()`: closes the socket of the transceiver if there is one and
        says whether that worked; the field itself is left as it is. */
    method Finished(closeFault: Option<IOException>) returns (ok: bool)
      requires Valid()
      modifies clientDataTransceiver
      ensures Valid() && clientDataTransceiver == old(clientDataTransceiver)
      ensures old(clientDataTransceiver) == null ==> ok
      ensures old(clientDataTransceiver) != null ==>
                ok == (old(clientDataTransceiver.socketClosed) || closeFault.None?) &&
                clientDataTransceiver.socketClosed == ok
    {
      if clientDataTransceiver != null {
        ok := clientDataTransceiver.CloseSocket(closeFault);
        return;
      }
      return true;
    }
  }

  /** The race the thread check resolves: a send fails, the next call
      reconnects, and only then does the reader of the first transceiver
      report its own failure. The report is ignored and the new transceiver
      stays. */
  method StaleReportAfterReconnect(p: ServiceProxy) returns (first: SocketDataTransceiver, second: SocketDataTransceiver)
    requires p.Valid() && p.clientDataTransceiver != null
    modifies p
    ensures p.Valid() && first == old(p.clientDataTransceiver)
    ensures fresh(second) && p.clientDataTransceiver == second && second != first
  {
    first := p.clientDataTransceiver;
    p.HandleCommunicationsError(Foreground);
    var r := p.CheckDataTransceiver(None);
    second := p.clientDataTransceiver;
    p.HandleCommunicationsError(Reader(first.id));
  }

  /** The same report from the current reader, with no reconnection in
      between, does clear the transceiver. */
  method CurrentReaderReportClears(p: ServiceProxy)
    requires p.Valid() && p.clientDataTransceiver != null
    modifies p
    ensures p.Valid() && p.clientDataTransceiver == null
  {
    p.HandleCommunicationsError(Reader(p.clientDataTransceiver.id));
  }
}
