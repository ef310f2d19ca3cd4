/** The broker's wire format: a four-byte little-endian length, then that many bytes. */
module Framing {
  import opened Wrappers
  import opened Base64

  const CONTROL_FRAME_MAX := 1024 * 1024

  const CHUNK_PAYLOAD_MAX := 256 * 1024

  datatype FrameError = ShortPrefix | ZeroLength | TooLarge | ShortBody | WriteFailed

  function Le32(n: nat): (b: seq<Byte>)
    requires n < 0x1_0000_0000
    ensures |b| == 4
  {
    [n % 256, n / 256 % 256, n / 65536 % 256, n / 16777216]
  }

  function FromLe32(b: seq<Byte>): nat
    requires |b| == 4
  {
    var b0: int, b1: int, b2: int, b3: int := b[0], b[1], b[2], b[3];
    b0 + 256 * b1 + 65536 * b2 + 16777216 * b3
  }

  lemma LengthRoundTrip(n: nat)
    requires n < 0x1_0000_0000
    ensures FromLe32(Le32(n)) == n
  {
    var q1, q2, q3 := n / 256, n / 65536, n / 16777216;
    assert n == 256 * q1 + n % 256;
    assert q1 / 256 == q2 && q1 == 256 * q2 + q1 % 256;
    assert q2 / 256 == q3 && q2 == 256 * q3 + q2 % 256;
  }

  function Frame(body: seq<Byte>): seq<Byte>
    requires |body| <= CONTROL_FRAME_MAX
  {
    Le32(|body|) + body
  }

  /** One frame from the front of a finite stream: its body and what is left. */
  function Parse(stream: seq<Byte>): Result<(seq<Byte>, seq<Byte>), FrameError> {
    if |stream| < 4 then Err(ShortPrefix)
    else
      var n := FromLe32(stream[..4]);
      if n == 0 then Err(ZeroLength)
      else if n > CONTROL_FRAME_MAX then Err(TooLarge)
      else if |stream| < 4 + n then Err(ShortBody)
      else Ok((stream[4..4 + n], stream[4 + n..]))
  }

  /** A stream being read until it ends. */
  class Reader {
    var pending: seq<Byte>

    constructor (stream: seq<Byte>)
      ensures pending == stream
    {
      pending := stream;
    }

    /** Exactly `n` bytes, or the end of the stream too early. */
    method ReadExact(n: nat) returns (r: Option<seq<Byte>>)
      modifies this
      ensures if n <= |old(pending)| then r == Some(old(pending)[..n]) && pending == old(pending)[n..]
              else r == None && pending == []
    {
      if n <= |pending| {
        r := Some(pending[..n]);
        pending := pending[n..];
      } else {
        r := None;
        pending := [];
      }
    }

    method ReadFrame() returns (r: Result<seq<Byte>, FrameError>)
      modifies this
      ensures match Parse(old(pending))
              case Ok((body, rest)) => r == Ok(body) && pending == rest
              case Err(error) => r == Err(error)
    {
      var prefix := ReadExact(4);
      if prefix.None? {
        return Err(ShortPrefix);
      }
      var n := FromLe32(prefix.value);
      if n == 0 {
        return Err(ZeroLength);
      }
      if n > CONTROL_FRAME_MAX {
        return Err(TooLarge);
      }
      var body := ReadExact(n);
      if body.None? {
        return Err(ShortBody);
      }
      assert old(pending)[4..][..n] == old(pending)[4..4 + n];
      assert old(pending)[4..][n..] == old(pending)[4 + n..];
      return Ok(body.value);
    }
  }

  /** A stream being written; a failed write may have sent part of its bytes. */
  class Writer {
    var sent: seq<Byte>

    constructor ()
      ensures sent == []
    {
      sent := [];
    }

    method WriteAll(bytes: seq<Byte>) returns (ok: bool)
      modifies this
      ensures ok ==> sent == old(sent) + bytes
      ensures !ok ==> old(sent) <= sent <= old(sent) + bytes
    {
      var n :| 0 <= n <= |bytes|;
      if n == |bytes| {
        sent := sent + bytes;
        return true;
      }
      sent := sent + bytes[..n];
      assert old(sent) + bytes == sent + bytes[n..];
      return false;
    }

    method WriteFrame(body: seq<Byte>) returns (r: Result<(), FrameError>)
      modifies this
      ensures |body| > CONTROL_FRAME_MAX ==> r == Err(TooLarge) && sent == old(sent)
      ensures |body| <= CONTROL_FRAME_MAX ==> r == Ok(()) || r == Err(WriteFailed)
      ensures r.Ok? ==> sent == old(sent) + Frame(body)
      ensures r == Err(WriteFailed) ==> old(sent) <= sent <= old(sent) + Frame(body)
    {
      if |body| > CONTROL_FRAME_MAX {
        return Err(TooLarge);
      }
      var ok := WriteAll(Le32(|body|));
      if !ok {
        assert old(sent) + Frame(body) == old(sent) + Le32(|body|) + body;
        return Err(WriteFailed);
      }
      ok := WriteAll(body);
      assert old(sent) + Frame(body) == old(sent) + Le32(|body|) + body;
      return if ok then Ok(()) else Err(WriteFailed);
    }
  }

  // ----- round trips -----

  /** A frame is read back in front of anything, exactly when its body is not empty: the writer accepts an empty body,
      the reader refuses it. */
  lemma FrameRoundTrip(body: seq<Byte>, rest: seq<Byte>)
    requires |body| <= CONTROL_FRAME_MAX
    ensures body != [] ==> Parse(Frame(body) + rest) == Ok((body, rest))
    ensures body == [] ==> Parse(Frame(body) + rest) == Err(ZeroLength)
  {
    LengthRoundTrip(|body|);
    var stream := Frame(body) + rest;
    assert stream[..4] == Le32(|body|);
    assert stream[4..4 + |body|] == body && stream[4 + |body|..] == rest;
  }

  /** What the reader makes of any four bytes and what follows: a little-endian length from one byte to one mebibyte, and
      that many bytes. */
  lemma ParseExactly(b0: Byte, b1: Byte, b2: Byte, b3: Byte, rest: seq<Byte>)
    ensures var n: int := b0 + 256 * b1 + 65536 * b2 + 16777216 * b3;
            Parse([b0, b1, b2, b3] + rest)
            == if n == 0 then Err(ZeroLength)
               else if n > 1048576 then Err(TooLarge)
               else if n > |rest| then Err(ShortBody)
               else Ok((rest[..n], rest[n..]))
  {
    var stream: seq<Byte> := [b0, b1, b2, b3] + rest;
    assert stream[..4] == [b0, b1, b2, b3];
    var n := FromLe32(stream[..4]);
    assert n == b0 + 256 * b1 + 65536 * b2 + 16777216 * b3;
    if n <= |rest| {
      assert stream[4..4 + n] == rest[..n] && stream[4 + n..] == rest[n..];
    }
  }

  ghost predicate Sendable(bodies: seq<seq<Byte>>) {
    forall i :: 0 <= i < |bodies| ==> 0 < |bodies[i]| <= CONTROL_FRAME_MAX
  }

  /** The bytes of several frames, one after the other. */
  function Frames(bodies: seq<seq<Byte>>): seq<Byte>
    requires forall i :: 0 <= i < |bodies| ==> |bodies[i]| <= CONTROL_FRAME_MAX
  {
    if bodies == [] then [] else Frame(bodies[0]) + Frames(bodies[1..])
  }

  /** Every body a reader gets before the stream ends or breaks. */
  function Bodies(stream: seq<Byte>): seq<seq<Byte>>
    decreases |stream|
  {
    match Parse(stream)
    case Err(_) => []
    case Ok((body, rest)) => [body] + Bodies(rest)
  }

  lemma {:induction false} BodiesOfFrames(bodies: seq<seq<Byte>>)
    requires Sendable(bodies)
    ensures Bodies(Frames(bodies)) == bodies
  {
    if bodies != [] {
      FrameRoundTrip(bodies[0], Frames(bodies[1..]));
      BodiesOfFrames(bodies[1..]);
    }
  }

  /** A stream cut anywhere yields a prefix of what was sent: no body is invented, changed or reordered. */
  lemma {:induction false} CutStream(bodies: seq<seq<Byte>>, stream: seq<Byte>)
    requires Sendable(bodies)
    requires stream <= Frames(bodies)
    ensures Bodies(stream) <= bodies
  {
    if bodies == [] {
      assert stream == [];
    } else {
      var first := Frame(bodies[0]);
      if |first| <= |stream| {
        var rest := stream[|first|..];
        assert stream == first + rest;
        FrameRoundTrip(bodies[0], rest);
        assert rest <= Frames(bodies[1..]);
        CutStream(bodies[1..], rest);
        assert bodies == [bodies[0]] + bodies[1..];
      } else {
        CutFrame(bodies[0], stream);
      }
    }
  }

  lemma CutFrame(body: seq<Byte>, stream: seq<Byte>)
    requires 0 < |body| <= CONTROL_FRAME_MAX
    requires |stream| < |Frame(body)| && stream <= Frame(body)
    ensures Parse(stream).Err?
  {
    LengthRoundTrip(|body|);
    if |stream| >= 4 {
      assert stream[..4] == Frame(body)[..4] == Le32(|body|);
    }
  }

  // ----- stream frames -----

  /** The byte of an ASCII character. */
  function ByteOf(c: char): Byte {
    if c as int < 128 then c as int else 0
  }

  function AsciiBytes(s: string): (b: seq<Byte>)
    ensures |b| == |s| && forall i :: 0 <= i < |s| ==> b[i] == ByteOf(s[i])
  {
    seq(|s|, i requires 0 <= i < |s| => ByteOf(s[i]))
  }

  function StdinOpening(): string {
    "{\"t\":\"stdin\",\"d\":\""
  }

  function StdinClosing(): string {
    "\"}"
  }

  /** The JSON body of a stdin frame; base64 text needs no escaping. */
  function StdinBody(chunk: seq<Byte>): (body: seq<Byte>)
    ensures |body| == |Encode(chunk)| + 20
  {
    AsciiBytes(StdinOpening()) + AsciiBytes(Encode(chunk)) + AsciiBytes(StdinClosing())
  }

  function FromAscii(b: seq<Byte>): (s: string)
    ensures |s| == |b| && forall i :: 0 <= i < |b| ==> s[i] == b[i] as char
  {
    seq(|b|, i requires 0 <= i < |b| => b[i] as char)
  }

  /** The payload of a stdin body, when it is one. */
  function StdinPayload(body: seq<Byte>): Option<seq<Byte>> {
    var opening, closing := AsciiBytes(StdinOpening()), AsciiBytes(StdinClosing());
    if |body| < 20 || body[..18] != opening || body[|body| - 2..] != closing then None
    else Decode(FromAscii(body[18..|body| - 2]))
  }

  lemma AsciiRoundTrip(s: string)
    requires forall c :: c in s ==> IsSymbol(c)
    ensures FromAscii(AsciiBytes(s)) == s
  {
    forall i | 0 <= i < |s|
      ensures FromAscii(AsciiBytes(s))[i] == s[i]
    {
      assert s[i] in s;
    }
  }

  lemma StdinRoundTrip(chunk: seq<Byte>)
    ensures StdinPayload(StdinBody(chunk)) == Some(chunk)
  {
    RoundTrip(chunk);
    EncodeSymbols(chunk);
    hide Decode, Encode, Value;
    var body := StdinBody(chunk);
    var opening, closing := AsciiBytes(StdinOpening()), AsciiBytes(StdinClosing());
    assert |opening| == 18 && |closing| == 2;
    hide StdinOpening, StdinClosing;
    var middle := AsciiBytes(Encode(chunk));
    assert body == opening + middle + closing;
    assert body[..18] == opening && body[|body| - 2..] == closing && body[18..|body| - 2] == middle;
    AsciiRoundTrip(Encode(chunk));
  }

  /** The text of a stdin body. */
  lemma StdinText(chunk: seq<Byte>)
    ensures FromAscii(StdinBody(chunk)) == "{\"t\":\"stdin\",\"d\":\"" + Encode(chunk) + "\"}"
  {
    EncodeSymbols(chunk);
    OpeningAscii();
    hide Encode, StdinOpening, StdinClosing;
    var text := StdinOpening() + Encode(chunk) + StdinClosing();
    var bytes := FromAscii(StdinBody(chunk));
    assert |bytes| == |text|;
    forall i | 0 <= i < |text|
      ensures bytes[i] == text[i]
    {
      assert i >= 18 && i < 18 + |Encode(chunk)| ==> text[i] in Encode(chunk);
    }
  }

  lemma OpeningAscii()
    ensures StdinOpening() == "{\"t\":\"stdin\",\"d\":\"" && StdinClosing() == "\"}"
    ensures |StdinOpening()| == 18 && forall i :: 0 <= i < 18 ==> StdinOpening()[i] as int < 128
    ensures |StdinClosing()| == 2 && forall i :: 0 <= i < 2 ==> StdinClosing()[i] as int < 128
  {
  }

  /** A full chunk fits a frame after base64 and its JSON envelope. */
  lemma ChunkFits(chunk: seq<Byte>)
    requires |chunk| <= CHUNK_PAYLOAD_MAX
    ensures 0 < |StdinBody(chunk)| <= CONTROL_FRAME_MAX
  {
    EncodedLength(chunk);
  }

  // ----- console input -----

  /** Consecutive pieces of at most `n` bytes, as `slice::chunks` cuts them. */
  function Chunks(data: seq<Byte>, n: nat): (parts: seq<seq<Byte>>)
    requires n > 0
    ensures forall i :: 0 <= i < |parts| ==> 0 < |parts[i]| <= n
  {
    if data == [] then [] else if |data| <= n then [data] else [data[..n]] + Chunks(data[n..], n)
  }

  function Concat(parts: seq<seq<Byte>>): seq<Byte> {
    if parts == [] then [] else parts[0] + Concat(parts[1..])
  }

  lemma {:induction false} ChunksConcat(data: seq<Byte>, n: nat)
    requires n > 0
    ensures Concat(Chunks(data, n)) == data
  {
    if |data| > n {
      ChunksConcat(data[n..], n);
      assert data == data[..n] + data[n..];
    } else if data != [] {
      assert Chunks(data, n)[1..] == [];
    }
  }

  function StdinBodies(chunks: seq<seq<Byte>>): (bodies: seq<seq<Byte>>)
    ensures |bodies| == |chunks| && forall i :: 0 <= i < |chunks| ==> bodies[i] == StdinBody(chunks[i])
  {
    seq(|chunks|, i requires 0 <= i < |chunks| => StdinBody(chunks[i]))
  }

  /** What the far end makes of the frames: the payloads, in order, until one is not a stdin frame. */
  function Keystrokes(bodies: seq<seq<Byte>>): seq<Byte> {
    if bodies == [] then []
    else
      match StdinPayload(bodies[0])
      case None => []
      case Some(chunk) => chunk + Keystrokes(bodies[1..])
  }

  lemma {:induction false} KeystrokesOfBodies(chunks: seq<seq<Byte>>)
    ensures Keystrokes(StdinBodies(chunks)) == Concat(chunks)
  {
    hide StdinBody, StdinPayload;
    if chunks != [] {
      StdinRoundTrip(chunks[0]);
      KeystrokesOfBodies(chunks[1..]);
      assert StdinBodies(chunks)[1..] == StdinBodies(chunks[1..]);
    }
  }

  lemma ChunksSendable(data: seq<Byte>)
    ensures Sendable(StdinBodies(Chunks(data, CHUNK_PAYLOAD_MAX)))
  {
    var chunks := Chunks(data, CHUNK_PAYLOAD_MAX);
    forall i | 0 <= i < |chunks|
      ensures 0 < |StdinBody(chunks[i])| <= CONTROL_FRAME_MAX
    {
      ChunkFits(chunks[i]);
    }
  }

  /** Console input of any size arrives unchanged. */
  lemma ConsoleDelivers(data: seq<Byte>)
    ensures var bodies := StdinBodies(Chunks(data, CHUNK_PAYLOAD_MAX));
            Sendable(bodies) && Keystrokes(Bodies(Frames(bodies))) == data
  {
    var chunks := Chunks(data, CHUNK_PAYLOAD_MAX);
    ChunksSendable(data);
    BodiesOfFrames(StdinBodies(chunks));
    KeystrokesOfBodies(chunks);
    ChunksConcat(data, CHUNK_PAYLOAD_MAX);
  }

  lemma {:induction false} KeystrokesPrefix(shorter: seq<seq<Byte>>, bodies: seq<seq<Byte>>)
    requires shorter <= bodies
    ensures Keystrokes(shorter) <= Keystrokes(bodies)
  {
    if shorter != [] {
      KeystrokesPrefix(shorter[1..], bodies[1..]);
    }
  }

  /** Console input cut off anywhere arrives as a prefix. */
  lemma CutConsole(data: seq<Byte>, stream: seq<Byte>)
    requires Sendable(StdinBodies(Chunks(data, CHUNK_PAYLOAD_MAX)))
    requires stream <= Frames(StdinBodies(Chunks(data, CHUNK_PAYLOAD_MAX)))
    ensures Keystrokes(Bodies(stream)) <= data
  {
    hide Bodies, Keystrokes, Frames, Sendable;
    var bodies := StdinBodies(Chunks(data, CHUNK_PAYLOAD_MAX));
    CutStream(bodies, stream);
    KeystrokesPrefix(Bodies(stream), bodies);
    KeystrokesOfBodies(Chunks(data, CHUNK_PAYLOAD_MAX));
    ChunksConcat(data, CHUNK_PAYLOAD_MAX);
  }

  lemma {:induction false} FramesPush(bodies: seq<seq<Byte>>, body: seq<Byte>)
    requires Sendable(bodies) && 0 < |body| <= CONTROL_FRAME_MAX
    ensures Frames(bodies + [body]) == Frames(bodies) + Frame(body)
  {
    if bodies == [] {
      assert bodies + [body] == [body];
      assert Frames([body]) == Frame(body) + Frames([]);
    } else {
      FramesPush(bodies[1..], body);
      assert (bodies + [body])[1..] == bodies[1..] + [body];
    }
  }

  lemma NoFrames(bodies: seq<seq<Byte>>)
    ensures Frames(bodies[..0]) == []
  {
  }

  /** The wire after one more frame, still a prefix of the whole. */
  lemma FramesUpTo(bodies: seq<seq<Byte>>, i: nat)
    requires Sendable(bodies) && i < |bodies|
    ensures Frames(bodies[..i + 1]) == Frames(bodies[..i]) + Frame(bodies[i])
    ensures Frames(bodies[..i + 1]) <= Frames(bodies)
  {
    hide Frame, Frames;
    FramesPush(bodies[..i], bodies[i]);
    assert bodies[..i] + [bodies[i]] == bodies[..i + 1];
    FramesPrefix(bodies, i + 1);
  }

  class ConsoleWriter {
    const writer: Writer

    constructor (writer: Writer)
      ensures this.writer == writer
    {
      this.writer := writer;
    }

    /** All of the input is on the wire, or a prefix of its frames and an error. */
    method Send(data: seq<Byte>) returns (r: Result<(), FrameError>)
      modifies writer
      ensures Sendable(StdinBodies(Chunks(data, CHUNK_PAYLOAD_MAX)))
      ensures var wire := Frames(StdinBodies(Chunks(data, CHUNK_PAYLOAD_MAX)));
              if r.Ok? then writer.sent == old(writer.sent) + wire
              else old(writer.sent) <= writer.sent <= old(writer.sent) + wire
    {
      hide StdinBody, Chunks, Frame, Frames;
      var chunks := Chunks(data, CHUNK_PAYLOAD_MAX);
      ghost var bodies := StdinBodies(chunks);
      ChunksSendable(data);
      ghost var start := writer.sent;
      NoFrames(bodies);
      for i := 0 to |chunks|
        invariant writer.sent == start + Frames(bodies[..i])
      {
        FramesUpTo(bodies, i);
        r := writer.WriteFrame(StdinBody(chunks[i]));
        if r.Err? {
          return;
        }
      }
      assert bodies[..|chunks|] == bodies;
      return Ok(());
    }
  }

  lemma {:induction false} FramesPrefix(bodies: seq<seq<Byte>>, n: nat)
    requires Sendable(bodies) && n <= |bodies|
    ensures Frames(bodies[..n]) <= Frames(bodies)
  {
    if n > 0 {
      FramesPrefix(bodies[1..], n - 1);
      assert bodies[..n][1..] == bodies[1..][..n - 1];
    }
  }
}
