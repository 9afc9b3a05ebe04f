/**
 The frame codec (FrameCodec in src/shared/protocol.js): version byte, type byte, stream
 id as a big-endian 32-bit integer, payload.
 */
module FrameCodec {
  import opened Protocol
  import opened Words

  const VERSION: byte := 1
  const HEADER := 6

  datatype Frame = Frame(kind: byte, streamId: nat, payload: Bytes)

  datatype Parsed = Ok(frame: Frame) | FrameTooShort | UnsupportedVersion(version: byte)

  // What a WebSocket message event carries: one buffer, or the fragments of the message.
  datatype RawData = Whole(bytes: Bytes) | Fragments(parts: seq<Bytes>)

  /** A number stored in one byte of a buffer. */
  function ToByte(x: int): byte {
    (x % 256) as byte
  }

  /** Byte k (0 is the most significant) of v in big-endian order. */
  function BigEndian(v: nat): (r: Bytes)
    ensures |r| == 4
  {
    [ToByte(v / 0x100_0000), ToByte(v / 0x1_0000), ToByte(v / 0x100), ToByte(v)]
  }

  function ReadUInt32BE(b: Bytes): nat
    requires |b| == 4
  {
    b[0] as int * 0x100_0000 + b[1] as int * 0x1_0000 + b[2] as int * 0x100 + b[3] as int
  }

  /** What buildFrame produces. */
  function Layout(kind: int, streamId: int, payload: Bytes): Bytes {
    [VERSION, ToByte(kind)] + BigEndian(ToUint32(streamId)) + payload
  }

  function ToBuffer(data: RawData): Bytes {
    match data
    case Whole(bytes) => bytes
    case Fragments(parts) => Flatten(parts)
  }

  function Parse(data: RawData): Parsed {
    var buf := ToBuffer(data);
    if |buf| < HEADER then FrameTooShort
    else if buf[0] != VERSION then UnsupportedVersion(buf[0])
    else Ok(Frame(buf[1], ReadUInt32BE(buf[2..6]), buf[6..]))
  }

  /** buildFrame: fills a buffer of the right size in place. */
  method BuildFrame(kind: int, streamId: int, payload: array<byte>) returns (frame: array<byte>)
    ensures fresh(frame) && frame[..] == Layout(kind, streamId, payload[..])
  {
    frame := new byte[HEADER + payload.Length];
    var id := ToUint32(streamId);
    frame[0] := VERSION;
    frame[1] := ToByte(kind);
    frame[2] := ToByte(id / 0x100_0000);
    frame[3] := ToByte(id / 0x1_0000);
    frame[4] := ToByte(id / 0x100);
    frame[5] := ToByte(id);
    ghost var head := frame[..HEADER];
    for i := 0 to payload.Length
      invariant frame[..HEADER] == head
      invariant frame[HEADER..HEADER + i] == payload[..i]
    {
      frame[HEADER + i] := payload[i];
    }
    assert frame[..] == head + payload[..];
  }

  lemma BigEndianInverse(v: nat)
    requires v < TWO_32
    ensures ReadUInt32BE(BigEndian(v)) == v
  {
    assert v / 0x1_0000 == v / 0x100_0000 * 256 + (v / 0x1_0000) % 256;
    assert v / 0x100 == v / 0x1_0000 * 256 + (v / 0x100) % 256;
  }

  lemma ReadInverse(b: Bytes)
    requires |b| == 4
    ensures ReadUInt32BE(b) < TWO_32 && BigEndian(ReadUInt32BE(b)) == b
  {
    var v := ReadUInt32BE(b);
    assert v / 0x100 == b[0] as int * 0x1_0000 + b[1] as int * 0x100 + b[2] as int;
    assert v / 0x1_0000 == b[0] as int * 0x100 + b[1] as int;
    assert v / 0x100_0000 == b[0] as int;
  }

  /** Parsing what was built gives back type, id and payload; out-of-range numbers wrap. */
  lemma ParseBuilt(kind: int, streamId: int, payload: Bytes)
    ensures Parse(Whole(Layout(kind, streamId, payload))) == Ok(Frame(ToByte(kind), ToUint32(streamId), payload))
    ensures 0 <= kind < 256 && 0 <= streamId < TWO_32 ==>
      ToByte(kind) as int == kind && ToUint32(streamId) == streamId
  {
    var f := Layout(kind, streamId, payload);
    BigEndianInverse(ToUint32(streamId));
    assert f[2..6] == BigEndian(ToUint32(streamId));
    assert f[6..] == payload;
  }

  /** Building what was parsed gives back the message; and exactly these messages parse. */
  lemma BuildParsed(data: RawData)
    ensures Parse(data).Ok? <==> |ToBuffer(data)| >= HEADER && ToBuffer(data)[0] == VERSION
    ensures Parse(data).Ok? ==>
      var f := Parse(data).frame;
      f.streamId < TWO_32 && Layout(f.kind as int, f.streamId, f.payload) == ToBuffer(data)
  {
    var buf := ToBuffer(data);
    if Parse(data).Ok? {
      ReadInverse(buf[2..6]);
      assert buf == [buf[0], buf[1]] + buf[2..6] + buf[6..];
    }
  }

  /** However a message is fragmented, it parses the same. */
  lemma FragmentsParseAlike(parts: seq<Bytes>, more: seq<Bytes>)
    ensures Parse(Fragments(parts + more)) == Parse(Whole(Flatten(parts) + Flatten(more)))
  {
    FlattenConcat(parts, more);
  }

  /** The bytes on the wire: 1, the type, the stream id from its most significant byte on, the payload. */
  lemma WireFormat(kind: int, streamId: int, payload: Bytes)
    requires 0 <= kind < 256 && 0 <= streamId < TWO_32
    ensures var f := Layout(kind, streamId, payload);
            && |f| == 6 + |payload| && f[0] == 1 && f[1] as int == kind && f[6..] == payload
            && f[2] as int * 16777216 + f[3] as int * 65536 + f[4] as int * 256 + f[5] as int == streamId
  {
    BigEndianInverse(streamId);
    assert Layout(kind, streamId, payload)[2..6] == BigEndian(streamId);
  }

  /** Exactly the messages of six bytes or more that start with 1 are frames; each other names its fault. */
  lemma WhatParses(data: RawData)
    ensures var b := ToBuffer(data);
            && (Parse(data).FrameTooShort? <==> |b| < 6)
            && (Parse(data).UnsupportedVersion? <==> |b| >= 6 && b[0] != 1)
            && (Parse(data).UnsupportedVersion? ==> Parse(data).version == b[0])
            && (Parse(data).Ok? ==> Parse(data).frame.kind == b[1] && Parse(data).frame.payload == b[6..])
  {
  }
}
