/** The packet encoding shared by both ends of a connection:
    `[4-byte big-endian payload size][payload]`, written by
    `SocketDataTransceiver.send` through `DataOutputStream.writeInt` and read
    back by the reader thread through `DataInputStream.readInt` and
    `readFully`. */
module Framing {
  import opened Base

  /** `DataOutputStream.writeInt`: the two's-complement value, high byte first. */
  function WriteInt(i: int): (b: seq<Byte>)
    requires IsJavaInt(i)
    ensures |b| == 4
  {
    var u := if i < 0 then i + 0x1_0000_0000 else i;
    [u / 0x100_0000, (u % 0x100_0000) / 0x1_0000, (u % 0x1_0000) / 0x100, u % 0x100]
  }

  /** `DataInputStream.readInt`: four bytes, high byte first, read as a
      signed 32-bit value. */
  function ReadInt(b: seq<Byte>): (i: int)
    requires |b| == 4
    ensures IsJavaInt(i)
  {
    var u: int := b[0] as int * 0x100_0000 + b[1] as int * 0x1_0000 + b[2] as int * 0x100 + b[3] as int;
    if u > INT_MAX then u - 0x1_0000_0000 else u
  }

  lemma ReadIntWriteInt(i: int)
    requires IsJavaInt(i)
    ensures ReadInt(WriteInt(i)) == i
  {
    var u := if i < 0 then i + 0x1_0000_0000 else i;
    var b := WriteInt(i);
    assert u == b[0] * 0x100_0000 + (u % 0x100_0000);
    assert u % 0x100_0000 == b[1] * 0x1_0000 + (u % 0x1_0000);
    assert u % 0x1_0000 == b[2] * 0x100 + b[3];
  }

  lemma WriteIntReadInt(b: seq<Byte>)
    requires |b| == 4
    ensures WriteInt(ReadInt(b)) == b
  {
    var r2: int := b[2] as int * 0x100 + b[3] as int;
    var r1: int := b[1] as int * 0x1_0000 + r2;
    var u: int := b[0] as int * 0x100_0000 + r1;
    var high: int := b[0] as int * 0x100 + b[1] as int;
    assert u == high * 0x1_0000 + r2;
    assert u == (high * 0x100 + b[2] as int) * 0x100 + b[3] as int;
    DivModUnique(u, b[0], r1, 0x100_0000);
    DivModUnique(r1, b[1], r2, 0x1_0000);
    DivModUnique(u, high, r2, 0x1_0000);
    DivModUnique(r2, b[2], b[3], 0x100);
    DivModUnique(u, high * 0x100 + b[2] as int, b[3], 0x100);
    WriteIntDigits(ReadInt(b), u);
  }

  /** `WriteInt` in terms of the unsigned value `u` it encodes. */
  lemma WriteIntDigits(i: int, u: int)
    requires IsJavaInt(i) && u == (if i < 0 then i + 0x1_0000_0000 else i)
    ensures WriteInt(i) == [u / 0x100_0000, (u % 0x100_0000) / 0x1_0000, (u % 0x1_0000) / 0x100, u % 0x100]
  {
  }

  lemma DivModUnique(x: int, q: int, r: int, d: int)
    requires d > 0 && x == q * d + r && 0 <= r < d
    ensures x / d == q && x % d == r
  {
    var q', r' := x / d, x % d;
    assert x == q' * d + r';
    assert (q - q') * d == r' - r;
    if q > q' {
      MulAtLeast(q - q', d);
    } else if q < q' {
      MulAtLeast(q' - q, d);
    }
  }

  lemma MulAtLeast(a: int, d: int)
    requires a >= 1 && d > 0
    ensures a * d >= d
  {
  }

  /** The bytes `send` writes for one payload: size header, then the payload. */
  function Frame(payload: ByteArray): (f: seq<Byte>)
    ensures |f| == 4 + |payload|
  {
    WriteInt(|payload|) + payload
  }

  /** The bytes written by successive successful sends. */
  function Frames(payloads: seq<ByteArray>): seq<Byte>
  {
    if payloads == [] then [] else Frame(payloads[0]) + Frames(payloads[1..])
  }

  /** How the reader's loop ends. `EndOfStream`: `readInt` or `readFully`
      ran out of bytes, an `IOException` the loop catches. `NegativeSize`:
      the header read as a negative `int`, so `new byte[size]` throws a
      `NegativeArraySizeException`, which the loop does not catch. */
  datatype StreamEnd = EndOfStream | NegativeSize(size: int)

  /** What a reader makes of an input stream: the payloads it hands on, in
      order, and how it stops. */
  datatype Decoded = Decoded(payloads: seq<ByteArray>, end: StreamEnd)

  /** The frames of an input stream, read one after the other until the
      stream runs out or a header is negative. */
  function Decode(input: seq<Byte>): (d: Decoded)
    decreases |input|
  {
    if |input| < 4 then Decoded([], EndOfStream)
    else
      var size := ReadInt(input[..4]);
      if size < 0 then Decoded([], NegativeSize(size))
      else if |input| - 4 < size then Decoded([], EndOfStream)
      else
        var rest := Decode(input[4 + size..]);
        Decoded([input[4..4 + size]] + rest.payloads, rest.end)
  }

  /** `Decode` on the part of `input` from `pos` on, when what is left is
      shorter than a header. */
  lemma DecodeShortAt(input: seq<Byte>, pos: nat)
    requires pos <= |input| && |input| - pos < 4
    ensures Decode(input[pos..]) == Decoded([], EndOfStream)
  {
  }

  /** `Decode` on the part of `input` from `pos` on, when its header is read
      as `size` and the rest is too short for `size` bytes (`size` < 0 means
      the allocation fails first). */
  lemma DecodeNoFrameAt(input: seq<Byte>, pos: nat, size: int)
    requires pos + 4 <= |input| && size == ReadInt(input[pos..pos + 4])
    requires size < 0 || |input| - (pos + 4) < size
    ensures Decode(input[pos..]) == Decoded([], if size < 0 then NegativeSize(size) else EndOfStream)
  {
    assert input[pos..][..4] == input[pos..pos + 4];
  }

  /** `Decode` on the part of `input` from `pos` on, when a whole frame of
      `size` bytes starts there: that frame's payload, then what follows. */
  lemma DecodeFrameAt(input: seq<Byte>, pos: nat, size: int)
    requires pos + 4 <= |input| && size == ReadInt(input[pos..pos + 4])
    requires 0 <= size <= |input| - (pos + 4)
    ensures Decode(input[pos..]) ==
              Decoded([input[pos + 4..pos + 4 + size]] + Decode(input[pos + 4 + size..]).payloads,
                      Decode(input[pos + 4 + size..]).end)
  {
    var s := input[pos..];
    assert s[..4] == input[pos..pos + 4];
    assert s[4..4 + size] == input[pos + 4..pos + 4 + size];
    assert s[4 + size..] == input[pos + 4 + size..];
  }

  // ---------------------------------------------------------------------
  // Round trip

  lemma DecodeFrame(p: ByteArray, rest: seq<Byte>)
    ensures Decode(Frame(p) + rest) == Decoded([p] + Decode(rest).payloads, Decode(rest).end)
  {
    var input := Frame(p) + rest;
    ReadIntWriteInt(|p|);
    assert input[..4] == WriteInt(|p|);
    assert input[4..4 + |p|] == p;
    assert input[4 + |p|..] == rest;
  }

  /** Sent frames followed by any further bytes: the reader hands on the sent
      payloads, in order, before whatever the further bytes give. */
  lemma {:induction false} DecodeFramesThen(ps: seq<ByteArray>, rest: seq<Byte>)
    ensures Decode(Frames(ps) + rest) == Decoded(ps + Decode(rest).payloads, Decode(rest).end)
  {
    if ps == [] {
      assert Frames(ps) + rest == rest;
      assert ps + Decode(rest).payloads == Decode(rest).payloads;
    } else {
      DecodeFramesThen(ps[1..], rest);
      DecodeFramesStep(ps[0], ps[1..], rest);
      assert [ps[0]] + ps[1..] == ps;
    }
  }

  /** One more frame in front. */
  lemma DecodeFramesStep(p: ByteArray, tail: seq<ByteArray>, rest: seq<Byte>)
    requires Decode(Frames(tail) + rest) == Decoded(tail + Decode(rest).payloads, Decode(rest).end)
    ensures Decode(Frames([p] + tail) + rest) == Decoded(([p] + tail) + Decode(rest).payloads, Decode(rest).end)
  {
    FramesCons(p, tail);
    AppendAssoc(Frame(p), Frames(tail), rest);
    DecodeFrame(p, Frames(tail) + rest);
    AppendAssoc([p], tail, Decode(rest).payloads);
  }

  /** Reading back a stream produced by sends yields the sent payloads, in
      order, and the reader then stops at the end of the stream. */
  lemma DecodeFrames(ps: seq<ByteArray>)
    ensures Decode(Frames(ps)) == Decoded(ps, EndOfStream)
  {
    DecodeFramesThen(ps, []);
    assert Frames(ps) + [] == Frames(ps);
    assert ps + [] == ps;
  }

  /** Frames of successive sends concatenate. */
  lemma {:induction false} FramesAppend(ps: seq<ByteArray>, qs: seq<ByteArray>)
    ensures Frames(ps + qs) == Frames(ps) + Frames(qs)
  {
    if ps != [] {
      FramesAppend(ps[1..], qs);
      assert (ps + qs)[0] == ps[0];
      assert (ps + qs)[1..] == ps[1..] + qs;
      assert Frames(ps + qs) == Frame(ps[0]) + (Frames(ps[1..]) + Frames(qs));
    } else {
      assert ps + qs == qs;
    }
  }

  // ---------------------------------------------------------------------
  // Soundness: nothing partial is handed on

  /** A stream that starts with a complete frame starts with the encoding of
      that frame's payload. */
  lemma SplitFirstFrame(input: seq<Byte>, size: int)
    requires |input| >= 4 && size == ReadInt(input[..4]) && 0 <= size <= |input| - 4
    ensures Frame(input[4..4 + size]) == input[..4 + size]
  {
    WriteIntReadInt(input[..4]);
    assert input[..4 + size] == input[..4] + input[4..4 + size];
  }

  /** The frames of a non-empty list: the first, then the others. */
  lemma FramesCons(p: ByteArray, tail: seq<ByteArray>)
    ensures Frames([p] + tail) == Frame(p) + Frames(tail)
  {
    assert ([p] + tail)[1..] == tail;
  }

  /** A prefix of `input` up to `k`, followed by a prefix of what comes
      after `k`, is a prefix of `input`. */
  lemma PrefixThen(input: seq<Byte>, k: nat, a: seq<Byte>, b: seq<Byte>)
    requires k <= |input| && a == input[..k] && b <= input[k..]
    ensures a + b <= input && input[|a + b|..] == input[k..][|b|..]
  {
    assert input == a + input[k..];
    assert input[k..] == b + input[k..][|b|..];
    assert input == (a + b) + input[k..][|b|..];
  }

  /** The first frame of a stream, followed by frames that re-encode to a
      prefix of what comes after it, re-encodes to a prefix of the stream. */
  lemma FirstFrameSound(input: seq<Byte>, size: int, tail: seq<ByteArray>)
    requires |input| >= 4 && size == ReadInt(input[..4]) && 0 <= size <= |input| - 4
    requires Frames(tail) <= input[4 + size..]
    ensures var p: ByteArray := input[4..4 + size]; var ps := [p] + tail;
            Frames(ps) <= input &&
            input[|Frames(ps)|..] == input[4 + size..][|Frames(tail)|..]
  {
    var p: ByteArray := input[4..4 + size];
    SplitFirstFrame(input, size);
    FramesCons(p, tail);
    PrefixThen(input, 4 + size, Frame(p), Frames(tail));
  }

  /** Whatever a reader hands on re-encodes to a prefix of its input, and what
      follows that prefix holds no complete frame: a short or closed stream
      never yields a partial payload. */
  lemma {:induction false} DecodeSound(input: seq<Byte>)
    ensures Frames(Decode(input).payloads) <= input
    ensures Decode(input[|Frames(Decode(input).payloads)|..]) == Decoded([], Decode(input).end)
    decreases |input|
  {
    if |input| >= 4 && 0 <= ReadInt(input[..4]) <= |input| - 4 {
      var size := ReadInt(input[..4]);
      var rest := input[4 + size..];
      DecodeSound(rest);
      FirstFrameSound(input, size, Decode(rest).payloads);
    } else {
      assert input[0..] == input;
    }
  }
}
