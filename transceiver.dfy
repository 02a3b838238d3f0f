/** `SocketDataTransceiver`: the one object that performs socket I/O for a
    connection. It writes packets under a write lock, owns one reader
    thread, and can say whether a thread is that reader. */
module Transceivers {
  import opened Base
  import opened Framing

  /** The thread that runs a piece of code: the reader thread of the
      transceiver with the given id, or any other (foreground) thread. */
  datatype ThreadId = Reader(transceiverId: nat) | Foreground

  /** A `java.io.IOException`; `getMessage()` may be null. */
  datatype IOException = IOException(message: Option<string>)

  /** How a socket's output stream fails during one `send`: it throws
      `error` after accepting `written` bytes of the packet (a `written` at or
      beyond the packet's length means the final `flush` throws). */
  datatype WriteFault = WriteFault(written: nat, error: IOException)

  /** The bytes one `send(data)` leaves on the output stream: the whole packet,
      or the part of it accepted before the fault. */
  function SentBytes(data: ByteArray, fault: Option<WriteFault>): seq<Byte> {
    match fault
    case None => Frame(data)
    case Some(f) => Frame(data)[..Min(f.written, |Frame(data)|)]
  }

  class SocketDataTransceiver {
    /** Identity of the reader thread this transceiver owns. */
    const id: nat
    /** Everything written to the socket's output stream so far. */
    var output: seq<Byte>
    /** Whether the reader thread has been started. */
    var readerStarted: bool
    var socketClosed: bool
    /** The `ReentrantLock writeLock`; one send at a time holds it. */
    ghost var writeLockHeld: bool

    /** Both constructors: the socket is connected (or was accepted), the
        output stream is open and the reader thread is created but not
        started. */
    constructor (id: nat)
      ensures this.id == id
      ensures output == [] && !readerStarted && !socketClosed && !writeLockHeld
    {
      this.id := id;
      output := [];
      readerStarted := false;
      socketClosed := false;
      writeLockHeld := false;
    }

    /** `initialize()`: starts the reader thread. */
    method Initialize()
      modifies this`readerStarted
      ensures readerStarted
    {
      readerStarted := true;
    }

    /** `send(data)`: under the write lock, the size header, then the payload,
        then a flush. On success exactly one packet is appended to the output;
        on a failure the bytes accepted before it; in both cases the lock is
        released. */
    method Send(data: ByteArray, fault: Option<WriteFault>) returns (r: Outcome<IOException>)
      requires !writeLockHeld
      modifies this`output, this`writeLockHeld
      ensures !writeLockHeld
      ensures fault.None? ==> r == Pass && output == old(output) + Frame(data)
      ensures fault.Some? ==> r == Fail(fault.value.error) &&
                              output == old(output) + Frame(data)[..Min(fault.value.written, |Frame(data)|)]
      ensures output == old(output) + SentBytes(data, fault)
    {
      Lock();
      var header := WriteInt(|data|);
      if fault.Some? && fault.value.written < |header| {
        Write(header[..fault.value.written]);
        Unlock();
        return Fail(fault.value.error);
      }
      Write(header);
      if fault.Some? && fault.value.written < |header| + |data| {
        Write(data[..fault.value.written - |header|]);
        assert header + data[..fault.value.written - |header|] == Frame(data)[..fault.value.written];
        Unlock();
        return Fail(fault.value.error);
      }
      Write(data);
      // flush
      if fault.Some? {
        Unlock();
        return Fail(fault.value.error);
      }
      Unlock();
      return Pass;
    }

    ghost method Lock()
      requires !writeLockHeld
      modifies this`writeLockHeld
      ensures writeLockHeld
    {
      writeLockHeld := true;
    }

    ghost method Unlock()
      requires writeLockHeld
      modifies this`writeLockHeld
      ensures !writeLockHeld
    {
      writeLockHeld := false;
    }

    /** A write on the output stream; only the holder of the write lock writes. */
    method Write(bytes: seq<Byte>)
      requires writeLockHeld
      modifies this`output
      ensures output == old(output) + bytes
    {
      output := output + bytes;
    }

    /** `isDataTransceiverThread(thread)`: whether `thread` is the reader
        thread this transceiver owns. */
    predicate IsDataTransceiverThread(thread: ThreadId) {
      thread == Reader(id)
    }

    /** `closeSocket()`: true when `Socket.close` returns, false when it throws.
        Closing a closed socket returns at once. */
    method CloseSocket(fault: Option<IOException>) returns (ok: bool)
      modifies this`socketClosed
      ensures ok == (old(socketClosed) || fault.None?)
      ensures socketClosed == ok
    {
      if socketClosed {
        return true;
      }
      if fault.Some? {
        return false;
      }
      socketClosed := true;
      return true;
    }
  }

  /** Two sends in a row on one transceiver: whole packets, in call order,
      which the peer's reader reads back as the two payloads. */
  method SendTwice(t: SocketDataTransceiver, a: ByteArray, b: ByteArray)
    requires !t.writeLockHeld
    modifies t
    ensures t.output == old(t.output) + Frames([a, b])
    ensures Decode(t.output[|old(t.output)|..]) == Decoded([a, b], EndOfStream)
  {
    var ra := t.Send(a, None);
    var rb := t.Send(b, None);
    assert Frames([a, b]) == Frame(a) + Frames([b]);
    assert Frames([b]) == Frame(b) + Frames([]);
    assert t.output[|old(t.output)|..] == Frames([a, b]);
    DecodeFrames([a, b]);
  }
}
