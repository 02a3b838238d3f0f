/** `SocketDataTransceiverReaderThread`: the background task of a transceiver
    that reads packets from the socket, hands each payload to the data
    handler and, on the first I/O failure, tells the error handler once and
    stops. */
module ReaderThreads {
  import opened Base
  import opened Framing

  /** `run()`. The socket's input stream is `input`, all the bytes that
      arrive before the peer closes or the connection fails; reading past
      its end is the `IOException` the loop catches. The data handler's
      calls are returned in order as `dispatched`, the error handler's as
      the count `errorReports`. */
  method Run(input: seq<Byte>) returns (dispatched: seq<ByteArray>, errorReports: nat, end: StreamEnd)
    ensures Decoded(dispatched, end) == Decode(input)
    ensures errorReports == (if end == EndOfStream then 1 else 0)
  {
    dispatched := [];
    errorReports := 0;
    var pos := 0;
    while true
      invariant 0 <= pos <= |input|
      invariant errorReports == 0
      invariant ReadSoFar(input, pos, dispatched)
      decreases |input| - pos
    {
      // readInt
      if |input| - pos < 4 {
        DecodeShortAt(input, pos);
        StopAt(input, pos, dispatched, EndOfStream);
        errorReports := errorReports + 1;
        end := EndOfStream;
        return;
      }
      var payloadSize := ReadInt(input[pos..pos + 4]);
      // new byte[payloadSize]: an exception the loop does not catch
      if payloadSize < 0 {
        DecodeNoFrameAt(input, pos, payloadSize);
        StopAt(input, pos, dispatched, NegativeSize(payloadSize));
        end := NegativeSize(payloadSize);
        return;
      }
      // readFully
      if |input| - (pos + 4) < payloadSize {
        DecodeNoFrameAt(input, pos, payloadSize);
        StopAt(input, pos, dispatched, EndOfStream);
        errorReports := errorReports + 1;
        end := EndOfStream;
        return;
      }
      var payload: ByteArray := input[pos + 4..pos + 4 + payloadSize];
      AdvanceAt(input, pos, payloadSize, dispatched);
      // dataHandler.handleDataIndication(payload)
      dispatched := dispatched + [payload];
      pos := pos + 4 + payloadSize;
    }
  }

  /** The loop invariant of `Run`: the payloads handed on so far, followed by
      what the rest of the stream decodes to, are what the whole stream
      decodes to. */
  ghost predicate ReadSoFar(input: seq<Byte>, pos: nat, dispatched: seq<ByteArray>)
    requires pos <= |input|
  {
    Decode(input) == Decoded(dispatched + Decode(input[pos..]).payloads, Decode(input[pos..]).end)
  }

  lemma StopAt(input: seq<Byte>, pos: nat, dispatched: seq<ByteArray>, end: StreamEnd)
    requires pos <= |input| && ReadSoFar(input, pos, dispatched)
    requires Decode(input[pos..]) == Decoded([], end)
    ensures Decode(input) == Decoded(dispatched, end)
  {
    assert dispatched + [] == dispatched;
  }

  lemma AdvanceAt(input: seq<Byte>, pos: nat, size: int, dispatched: seq<ByteArray>)
    requires pos + 4 <= |input| && size == ReadInt(input[pos..pos + 4])
    requires 0 <= size <= |input| - (pos + 4)
    requires ReadSoFar(input, pos, dispatched)
    ensures var p: ByteArray := input[pos + 4..pos + 4 + size];
            ReadSoFar(input, pos + 4 + size, dispatched + [p])
  {
    var p: ByteArray := input[pos + 4..pos + 4 + size];
    DecodeFrameAt(input, pos, size);
    var rest := Decode(input[pos + 4 + size..]);
    assert dispatched + ([p] + rest.payloads) == (dispatched + [p]) + rest.payloads;
  }

  /** A reader fed the frames of successive sends hands on exactly the sent
      payloads, in order, and reports the end of the stream once. */
  method RunOnFrames(payloads: seq<ByteArray>) returns (dispatched: seq<ByteArray>, errorReports: nat)
    ensures dispatched == payloads && errorReports == 1
  {
    var end;
    dispatched, errorReports, end := Run(Frames(payloads));
    DecodeFrames(payloads);
  }

  /** The static `threadCount` shared by all reader threads, used to number
      their names. */
  class ThreadCounter {
    var threadCount: int

    ghost predicate Valid()
      reads this
    {
      0 <= threadCount <= INT_MAX
    }

    /** `private static int threadCount = 0`. */
    constructor ()
      ensures Valid() && threadCount == 0
    {
      threadCount := 0;
    }

    /** `getThreadCount()`: the next number in 1..`Integer.MAX_VALUE`,
        starting over at 1 after `Integer.MAX_VALUE`. */
    method GetThreadCount() returns (n: int)
      requires Valid()
      modifies this
      ensures Valid()
      ensures 1 <= n <= INT_MAX
      ensures n == (if old(threadCount) == INT_MAX then 1 else old(threadCount) + 1)
      ensures threadCount == n
    {
      if threadCount == INT_MAX {
        threadCount := 0;
      }
      threadCount := threadCount + 1;
      n := threadCount;
    }
  }
}
