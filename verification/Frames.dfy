/** Yamux frames and the stateful frame codec (crates/tokio-yamux/src/frame.rs). */
module Frames {
  import opened Prelude

  const PROTOCOL_VERSION: byte := 0
  const RESERVED_STREAM_ID: u32 := 0
  const HEADER_SIZE: nat := 12
  const INITIAL_STREAM_WINDOW: u32 := 256 * 1024

  type StreamId = u32

  datatype FrameType = Data | WindowUpdate | Ping | GoAway

  /** The sixteen flag bits: four named ones, the remaining twelve as one number. */
  datatype Flags = Flags(syn: bool, ack: bool, fin: bool, rst: bool, other: nat)

  const NO_FLAGS := Flags(false, false, false, false, 0)
  const SYN := NO_FLAGS.(syn := true)
  const ACK := NO_FLAGS.(ack := true)

  datatype Header = Header(version: byte, ty: FrameType, flags: Flags, streamId: StreamId, length: u32)

  datatype Frame = Frame(header: Header, body: Option<seq<byte>>)

  function DataFrame(flags: Flags, id: StreamId, body: seq<byte>): Frame
    requires |body| <= U32_MAX
  {
    Frame(Header(PROTOCOL_VERSION, Data, flags, id, |body|), Some(body))
  }

  function WindowUpdateFrame(flags: Flags, id: StreamId, delta: u32): Frame {
    Frame(Header(PROTOCOL_VERSION, WindowUpdate, flags, id, delta), None)
  }

  function PingFrame(flags: Flags, pingId: u32): Frame {
    Frame(Header(PROTOCOL_VERSION, Ping, flags, RESERVED_STREAM_ID, pingId), None)
  }

  function GoAwayFrame(code: u32): Frame {
    Frame(Header(PROTOCOL_VERSION, GoAway, NO_FLAGS, RESERVED_STREAM_ID, code), None)
  }

  /** The frames the constructors build and the decoder yields. */
  predicate WellFormed(f: Frame) {
    && f.header.version == PROTOCOL_VERSION
    && f.header.flags.other < 0x1000
    && (f.header.ty == Data <==> f.body.Some?)
    && (f.body.Some? ==> |f.body.value| == f.header.length)
  }

  predicate FitsFrameLimit(f: Frame, max: u32) {
    f.header.ty == Data ==> f.header.length <= max
  }

  // ---------------------------------------------------------------- encoding

  function Bit(b: bool): nat {
    if b then 1 else 0
  }

  function FlagBits(f: Flags): u16
    requires f.other < 0x1000
  {
    Bit(f.syn) + 2 * (Bit(f.ack) + 2 * (Bit(f.fin) + 2 * (Bit(f.rst) + 2 * f.other)))
  }

  function FlagsOf(v: u16): Flags {
    Flags(v % 2 == 1, v / 2 % 2 == 1, v / 2 / 2 % 2 == 1, v / 2 / 2 / 2 % 2 == 1, v / 2 / 2 / 2 / 2)
  }

  function TypeByte(t: FrameType): byte {
    match t
    case Data => 0
    case WindowUpdate => 1
    case Ping => 2
    case GoAway => 3
  }

  function TypeOf(b: byte): Option<FrameType> {
    if b == 0 then Some(Data) else if b == 1 then Some(WindowUpdate)
    else if b == 2 then Some(Ping) else if b == 3 then Some(GoAway) else None
  }

  function PutU16(v: u16): seq<byte> {
    [v / 0x100, v % 0x100]
  }

  function PutU32(v: u32): seq<byte> {
    [v / 0x100 / 0x100 / 0x100, v / 0x100 / 0x100 % 0x100, v / 0x100 % 0x100, v % 0x100]
  }

  function GetU16(b: seq<byte>): u16
    requires |b| == 2
  {
    0x100 * (b[0] as nat) + b[1] as nat
  }

  function GetU32(b: seq<byte>): u32
    requires |b| == 4
  {
    0x100 * (0x100 * (0x100 * (b[0] as nat) + b[1] as nat) + b[2] as nat) + b[3] as nat
  }

  function EncodeHeader(h: Header): seq<byte>
    requires h.flags.other < 0x1000
  {
    [h.version, TypeByte(h.ty)] + PutU16(FlagBits(h.flags)) + PutU32(h.streamId) + PutU32(h.length)
  }

  function Encode(f: Frame): seq<byte>
    requires WellFormed(f)
  {
    EncodeHeader(f.header) + if f.body.Some? then f.body.value else []
  }

  function EncodeAll(fs: seq<Frame>): seq<byte>
    requires forall f <- fs :: WellFormed(f)
  {
    if fs == [] then [] else Encode(fs[0]) + EncodeAll(fs[1..])
  }

  // ---------------------------------------------------------------- decoding

  datatype DecodeError = BadVersion(version: byte) | BadType(ty: byte) | TooLong(length: u32)

  datatype HeaderResult = Good(header: Header) | Bad(error: DecodeError)

  /** Header checks in the decoder's order: version, type, then the length of a DATA frame. */
  function ParseHeader(b: seq<byte>, max: u32): HeaderResult
    requires |b| == HEADER_SIZE
  {
    if b[0] != PROTOCOL_VERSION then Bad(BadVersion(b[0]))
    else if TypeOf(b[1]).None? then Bad(BadType(b[1]))
    else
      var h := Header(b[0], TypeOf(b[1]).value, FlagsOf(GetU16(b[2..4])), GetU32(b[4..8]), GetU32(b[8..12]));
      if h.ty == Data && h.length > max then Bad(TooLong(h.length)) else Good(h)
  }

  function BodyLength(h: Header): nat {
    if h.ty == Data then h.length else 0
  }

  datatype Decoder = Decoder(unused: Option<Header>, max: u32)

  datatype Decoded = NeedMore | Item(frame: Frame) | Fail(error: DecodeError)

  datatype DecodeStepResult = DecodeStepResult(decoder: Decoder, rest: seq<byte>, outcome: Decoded)

  /** Second half of a decode call: a header is at hand, the body may still be incomplete. */
  function TakeBody(h: Header, max: u32, src: seq<byte>): DecodeStepResult {
    if |src| < BodyLength(h) then DecodeStepResult(Decoder(Some(h), max), src, NeedMore)
    else
      DecodeStepResult(Decoder(None, max), src[BodyLength(h)..],
                       Item(Frame(h, if h.ty == Data then Some(src[..BodyLength(h)]) else None)))
  }

  function DecodeStep(d: Decoder, src: seq<byte>): DecodeStepResult {
    if src == [] then DecodeStepResult(d, src, NeedMore)
    else if d.unused.Some? then TakeBody(d.unused.value, d.max, src)
    else if |src| < HEADER_SIZE then DecodeStepResult(d, src, NeedMore)
    else
      match ParseHeader(src[..HEADER_SIZE], d.max)
      case Bad(e) => DecodeStepResult(d, src[HEADER_SIZE..], Fail(e))
      case Good(h) => TakeBody(h, d.max, src[HEADER_SIZE..])
  }

  datatype DecodeRun = DecodeRun(frames: seq<Frame>, decoder: Decoder, rest: seq<byte>, error: Option<DecodeError>)

  /** What `Framed` does after each read: decode until more input is needed or a call fails. */
  function DecodeAll(d: Decoder, src: seq<byte>): DecodeRun
    decreases |src|, d.unused.Some?
  {
    var r := DecodeStep(d, src);
    match r.outcome
    case NeedMore => DecodeRun([], r.decoder, r.rest, None)
    case Fail(e) => DecodeRun([], r.decoder, r.rest, Some(e))
    case Item(f) =>
      var more := DecodeAll(r.decoder, r.rest);
      more.(frames := [f] + more.frames)
  }

  /** Input arrives in chunks; the retained header and the undecoded bytes carry over. */
  function DecodeChunks(d: Decoder, buffered: seq<byte>, chunks: seq<seq<byte>>): DecodeRun
    decreases |chunks|
  {
    if chunks == [] then DecodeRun([], d, buffered, None)
    else
      var r := DecodeAll(d, buffered + chunks[0]);
      if r.error.Some? then r
      else
        var more := DecodeChunks(r.decoder, r.rest, chunks[1..]);
        more.(frames := r.frames + more.frames)
  }

  // ------------------------------------------------------- reference grammar

  datatype Parsed = Parsed(frames: seq<Frame>, rest: seq<byte>, error: Option<DecodeError>)

  datatype First = Short | Broken(error: DecodeError) | Cut(frame: Frame, size: nat)

  function FirstFrame(b: seq<byte>, max: u32): First {
    if |b| < HEADER_SIZE then Short
    else
      match ParseHeader(b[..HEADER_SIZE], max)
      case Bad(e) => Broken(e)
      case Good(h) =>
        var size := HEADER_SIZE + BodyLength(h);
        if |b| < size then Short
        else Cut(Frame(h, if h.ty == Data then Some(b[HEADER_SIZE..size]) else None), size)
  }

  lemma FirstFrameSize(b: seq<byte>, max: u32)
    ensures FirstFrame(b, max).Cut? ==> HEADER_SIZE <= FirstFrame(b, max).size <= |b|
  {
    hide ParseHeader;
  }

  /** Stateless reference: cut a byte string into frames, looking at it as a whole. */
  function Parse(b: seq<byte>, max: u32): Parsed
    decreases |b|
  {
    FirstFrameSize(b, max);
    match FirstFrame(b, max)
    case Short => Parsed([], b, None)
    case Broken(e) => Parsed([], b, Some(e))
    case Cut(f, size) =>
      var more := Parse(b[size..], max);
      more.(frames := [f] + more.frames)
  }

  /** The retained header is a DATA header that passed its checks and whose body is not empty. */
  predicate ValidDecoder(d: Decoder) {
    d.unused.Some? ==>
      && d.unused.value.version == PROTOCOL_VERSION
      && d.unused.value.ty == Data
      && d.unused.value.flags.other < 0x1000
      && 0 < d.unused.value.length <= d.max
  }

  /** The bytes a decoder has taken off the wire and not yet turned into frames. */
  function Undecoded(d: Decoder, src: seq<byte>): seq<byte>
    requires ValidDecoder(d)
  {
    (if d.unused.Some? then EncodeHeader(d.unused.value) else []) + src
  }

  lemma U32RoundTrip(v: u32)
    ensures GetU32(PutU32(v)) == v
  {}

  lemma U32Canonical(b: seq<byte>)
    requires |b| == 4
    ensures PutU32(GetU32(b)) == b
  {
    var high: nat := 0x100 * (b[0] as nat) + b[1] as nat;
    var mid: nat := 0x100 * high + b[2] as nat;
    ByteDigits(mid, b[3]);
    ByteDigits(high, b[2]);
    ByteDigits(b[0] as nat, b[1]);
  }

  lemma ByteDigits(high: nat, low: byte)
    ensures (0x100 * high + low as nat) / 0x100 == high && (0x100 * high + low as nat) % 0x100 == low
  {}

  lemma BitDigits(b: bool, high: nat)
    ensures (Bit(b) + 2 * high) / 2 == high && ((Bit(b) + 2 * high) % 2 == 1 <==> b)
  {}

  lemma FlagsRoundTrip(f: Flags)
    requires f.other < 0x1000
    ensures FlagsOf(FlagBits(f)) == f
  {
    var v3 := Bit(f.rst) + 2 * f.other;
    var v2 := Bit(f.fin) + 2 * v3;
    var v1 := Bit(f.ack) + 2 * v2;
    BitDigits(f.syn, v1);
    BitDigits(f.ack, v2);
    BitDigits(f.fin, v3);
    BitDigits(f.rst, f.other);
  }

  lemma FlagBitsOf(v: u16)
    ensures FlagsOf(v).other < 0x1000 && FlagBits(FlagsOf(v)) == v
  {
    var v1 := v / 2;
    var v2 := v1 / 2;
    var v3 := v2 / 2;
    assert v == Bit(v % 2 == 1) + 2 * v1;
    assert v1 == Bit(v1 % 2 == 1) + 2 * v2;
    assert v2 == Bit(v2 % 2 == 1) + 2 * v3;
    assert v3 == Bit(v3 % 2 == 1) + 2 * (v3 / 2);
  }

  lemma FlagFieldRoundTrip(f: Flags)
    requires f.other < 0x1000
    ensures FlagsOf(GetU16(PutU16(FlagBits(f)))) == f
  {
    var v := FlagBits(f);
    assert GetU16(PutU16(v)) == v;
    FlagsRoundTrip(f);
  }

  lemma FlagFieldCanonical(b: seq<byte>)
    requires |b| == 2
    ensures FlagsOf(GetU16(b)).other < 0x1000
    ensures PutU16(FlagBits(FlagsOf(GetU16(b)))) == b
  {
    hide FlagsOf, FlagBits;
    FlagBitsOf(GetU16(b));
    ByteDigits(b[0] as nat, b[1]);
  }

  lemma FieldSizes(h: Header)
    requires h.flags.other < 0x1000
    ensures |PutU16(FlagBits(h.flags))| == 2 && |PutU32(h.streamId)| == 4 && |PutU32(h.length)| == 4
    ensures |EncodeHeader(h)| == HEADER_SIZE
  {}

  lemma HeaderRoundTrip(h: Header, max: u32)
    requires h.version == PROTOCOL_VERSION && h.flags.other < 0x1000
    requires h.ty == Data ==> h.length <= max
    ensures ParseHeader(EncodeHeader(h), max) == Good(h)
  {
    var b := EncodeHeader(h);
    FieldSizes(h);
    hide FlagsOf, FlagBits, GetU16, PutU16, GetU32, PutU32;
    FlagFieldRoundTrip(h.flags);
    U32RoundTrip(h.streamId);
    U32RoundTrip(h.length);
    assert b[2..4] == PutU16(FlagBits(h.flags));
    assert b[4..8] == PutU32(h.streamId);
    assert b[8..12] == PutU32(h.length);
  }

  lemma HeaderCanonical(b: seq<byte>, max: u32)
    requires |b| == HEADER_SIZE
    requires ParseHeader(b, max).Good?
    ensures var h := ParseHeader(b, max).header;
      && h.flags.other < 0x1000
      && h.version == PROTOCOL_VERSION
      && (h.ty == Data ==> h.length <= max)
      && EncodeHeader(h) == b
  {
    hide FlagsOf, FlagBits, GetU16, PutU16, GetU32, PutU32;
    FlagFieldCanonical(b[2..4]);
    U32Canonical(b[4..8]);
    U32Canonical(b[8..12]);
    assert b == [b[0], b[1]] + b[2..4] + b[4..8] + b[8..12];
  }

  lemma FirstEncoded(f: Frame, tail: seq<byte>, max: u32)
    requires WellFormed(f) && FitsFrameLimit(f, max)
    ensures FirstFrame(Encode(f) + tail, max) == Cut(f, |Encode(f)|)
    ensures HEADER_SIZE <= |Encode(f)|
  {
    hide ParseHeader, EncodeHeader;
    var b := Encode(f) + tail;
    HeaderRoundTrip(f.header, max);
    FieldSizes(f.header);
    assert b[..HEADER_SIZE] == EncodeHeader(f.header);
    var size := HEADER_SIZE + BodyLength(f.header);
    assert |Encode(f)| == size;
    if f.body.Some? {
      assert b[HEADER_SIZE..size] == f.body.value;
    }
  }

  lemma ParseEncoded(f: Frame, tail: seq<byte>, max: u32)
    requires WellFormed(f) && FitsFrameLimit(f, max)
    ensures var more := Parse(tail, max);
      Parse(Encode(f) + tail, max) == more.(frames := [f] + more.frames)
  {
    hide FirstFrame, Encode;
    FirstEncoded(f, tail, max);
    assert (Encode(f) + tail)[|Encode(f)|..] == tail;
  }

  /** A decode result agrees with the reference on the bytes `b` that were there to decode. */
  ghost predicate Agrees(r: DecodeStepResult, b: seq<byte>, max: u32) {
    && ValidDecoder(r.decoder)
    && r.decoder.max == max
    && match r.outcome
       case NeedMore => FirstFrame(b, max) == Short && Undecoded(r.decoder, r.rest) == b
       case Fail(e) => FirstFrame(b, max) == Broken(e)
       case Item(f) =>
         && WellFormed(f) && FitsFrameLimit(f, max)
         && b == Encode(f) + Undecoded(r.decoder, r.rest)
  }

  /** Once a header is at hand it does not matter in which call it was read. */
  lemma TakeBodyIsFirst(h: Header, max: u32, src: seq<byte>)
    requires h.version == PROTOCOL_VERSION && h.flags.other < 0x1000
    requires h.ty == Data ==> h.length <= max
    ensures Agrees(TakeBody(h, max, src), EncodeHeader(h) + src, max)
  {
    hide ParseHeader, EncodeHeader;
    HeaderRoundTrip(h, max);
    FieldSizes(h);
    var b := EncodeHeader(h) + src;
    assert b[..HEADER_SIZE] == EncodeHeader(h);
    if |src| >= BodyLength(h) {
      var n := BodyLength(h);
      assert src == src[..n] + src[n..];
      ConcatAssoc(EncodeHeader(h), src[..n], src[n..]);
      ConcatEmpty(EncodeHeader(h));
      ConcatEmpty(src[n..]);
    }
  }

  lemma FreshStepIsFirst(d: Decoder, src: seq<byte>)
    requires d.unused.None?
    ensures Agrees(DecodeStep(d, src), src, d.max)
  {
    hide ParseHeader, EncodeHeader;
    ConcatEmpty(src);
    if |src| >= HEADER_SIZE && ParseHeader(src[..HEADER_SIZE], d.max).Good? {
      hide Agrees, TakeBody;
      var h := ParseHeader(src[..HEADER_SIZE], d.max).header;
      HeaderCanonical(src[..HEADER_SIZE], d.max);
      assert src == src[..HEADER_SIZE] + src[HEADER_SIZE..];
      TakeBodyIsFirst(h, d.max, src[HEADER_SIZE..]);
    }
  }

  /** One decode call agrees with the reference on the first frame. */
  lemma DecodeStepIsFirst(d: Decoder, src: seq<byte>)
    requires ValidDecoder(d)
    ensures Agrees(DecodeStep(d, src), Undecoded(d, src), d.max)
  {
    hide ParseHeader, EncodeHeader;
    if d.unused.None? {
      FreshStepIsFirst(d, src);
      ConcatEmpty(src);
    } else {
      var h := d.unused.value;
      TakeBodyIsFirst(h, d.max, src);
      if src == [] {
        FieldSizes(h);
        HeaderRoundTrip(h, d.max);
        ConcatEmpty(EncodeHeader(h));
        assert EncodeHeader(h)[..HEADER_SIZE] == EncodeHeader(h);
      }
    }
  }

  lemma {:induction false} DecodeAllIsParse(d: Decoder, src: seq<byte>)
    requires ValidDecoder(d)
    ensures var r := DecodeAll(d, src);
      var p := Parse(Undecoded(d, src), d.max);
      && r.frames == p.frames
      && r.error == p.error
      && ValidDecoder(r.decoder)
      && r.decoder.max == d.max
      && (r.error.None? ==> Undecoded(r.decoder, r.rest) == p.rest)
    decreases |src|, d.unused.Some?
  {
    hide DecodeStep, FirstFrame, Undecoded, Encode;
    DecodeStepIsFirst(d, src);
    var r := DecodeStep(d, src);
    if r.outcome.Item? {
      ParseEncoded(r.outcome.frame, Undecoded(r.decoder, r.rest), d.max);
      DecodeStepShrinks(d, src);
      DecodeAllIsParse(r.decoder, r.rest);
    }
  }

  lemma DecodeStepShrinks(d: Decoder, src: seq<byte>)
    ensures var r := DecodeStep(d, src);
      r.outcome.Item? ==> |r.rest| < |src| || (|r.rest| == |src| && d.unused.Some? && r.decoder.unused.None?)
  {
    hide ParseHeader;
  }

  lemma FirstStable(a: seq<byte>, b: seq<byte>, max: u32)
    ensures FirstFrame(a, max) != Short ==> FirstFrame(a + b, max) == FirstFrame(a, max)
  {
    hide ParseHeader;
    if |a| >= HEADER_SIZE {
      assert (a + b)[..HEADER_SIZE] == a[..HEADER_SIZE];
      var hr := ParseHeader(a[..HEADER_SIZE], max);
      if hr.Good? && |a| >= HEADER_SIZE + BodyLength(hr.header) {
        var size := HEADER_SIZE + BodyLength(hr.header);
        assert (a + b)[HEADER_SIZE..size] == a[HEADER_SIZE..size];
      }
    }
  }

  /** The reference grammar reads left to right: a suffix cannot change what a prefix said. */
  lemma {:induction false} ParseConcat(a: seq<byte>, b: seq<byte>, max: u32)
    ensures var p := Parse(a, max);
      var q := Parse(a + b, max);
      if p.error.Some? then q.frames == p.frames && q.error == p.error
      else
        var more := Parse(p.rest + b, max);
        q == more.(frames := p.frames + more.frames)
    decreases |a|
  {
    hide FirstFrame;
    FirstFrameSize(a, max);
    FirstStable(a, b, max);
    match FirstFrame(a, max)
    case Broken(_) =>
    case Short =>
      ConcatEmpty(Parse(a + b, max).frames);
    case Cut(f, size) =>
      ParseConcat(a[size..], b, max);
      ConcatSuffix(a, b, size);
      var tail := Parse(a[size..], max);
      ConcatAssoc([f], tail.frames, Parse(tail.rest + b, max).frames);
  }

  lemma UndecodedMore(d: Decoder, src: seq<byte>, more: seq<byte>)
    requires ValidDecoder(d)
    ensures Undecoded(d, src + more) == Undecoded(d, src) + more
  {
    hide EncodeHeader;
  }

  /** How the input is cut into chunks never shows: frames, error and undecoded bytes are
      those of parsing the whole input at once. This holds for malformed input as well. */
  lemma {:induction false} ChunkingInvariance(d: Decoder, buffered: seq<byte>, chunks: seq<seq<byte>>)
    requires ValidDecoder(d)
    requires Parse(Undecoded(d, buffered), d.max) == Parsed([], Undecoded(d, buffered), None)
    ensures var r := DecodeChunks(d, buffered, chunks);
      var p := Parse(Undecoded(d, buffered) + Flatten(chunks), d.max);
      && r.frames == p.frames
      && r.error == p.error
      && ValidDecoder(r.decoder)
      && (r.error.None? ==> Undecoded(r.decoder, r.rest) == p.rest)
    decreases |chunks|
  {
    hide FirstFrame, EncodeHeader;
    var u := Undecoded(d, buffered);
    if chunks == [] {
      ConcatEmpty(u);
    } else {
      var src := buffered + chunks[0];
      DecodeAllIsParse(d, src);
      UndecodedMore(d, buffered, chunks[0]);
      hide Undecoded, DecodeAll, Parse;
      ParseConcat(u + chunks[0], Flatten(chunks[1..]), d.max);
      ConcatAssoc(u, chunks[0], Flatten(chunks[1..]));
      var r := DecodeAll(d, src);
      if r.error.None? {
        ParseRestIsStuck(u + chunks[0], d.max);
        ChunkingInvariance(r.decoder, r.rest, chunks[1..]);
      }
    }
  }

  lemma {:induction false} ParseRestIsStuck(b: seq<byte>, max: u32)
    requires Parse(b, max).error.None?
    ensures var r := Parse(b, max).rest; Parse(r, max) == Parsed([], r, None)
    decreases |b|
  {
    hide FirstFrame;
    FirstFrameSize(b, max);
    var first := FirstFrame(b, max);
    if first.Cut? {
      ParseRestIsStuck(b[first.size..], max);
    }
  }

  lemma {:induction false} ParseEncodeAll(fs: seq<Frame>, max: u32)
    requires forall f <- fs :: WellFormed(f) && FitsFrameLimit(f, max)
    ensures Parse(EncodeAll(fs), max) == Parsed(fs, [], None)
  {
    if fs != [] {
      ParseEncodeAll(fs[1..], max);
      ParseEncoded(fs[0], EncodeAll(fs[1..]), max);
      assert [fs[0]] + fs[1..] == fs;
    }
  }

  /** Every frame list survives the codec under every split of its encoding into chunks,
      and no byte and no header is left behind. */
  lemma DecodeIsChunkingIndependent(fs: seq<Frame>, chunks: seq<seq<byte>>, max: u32)
    requires forall f <- fs :: WellFormed(f) && FitsFrameLimit(f, max)
    requires Flatten(chunks) == EncodeAll(fs)
    ensures DecodeChunks(Decoder(None, max), [], chunks) == DecodeRun(fs, Decoder(None, max), [], None)
  {
    ParseEncodeAll(fs, max);
    ChunkingInvariance(Decoder(None, max), [], chunks);
    assert [] + Flatten(chunks) == EncodeAll(fs);
    DecodeChunksKeepsMax(Decoder(None, max), [], chunks);
  }

  lemma {:induction false} DecodeAllKeepsMax(d: Decoder, src: seq<byte>)
    ensures DecodeAll(d, src).decoder.max == d.max
    decreases |src|, d.unused.Some?
  {
    var r := DecodeStep(d, src);
    if r.outcome.Item? {
      DecodeAllKeepsMax(r.decoder, r.rest);
    }
  }

  lemma {:induction false} DecodeChunksKeepsMax(d: Decoder, buffered: seq<byte>, chunks: seq<seq<byte>>)
    ensures DecodeChunks(d, buffered, chunks).decoder.max == d.max
    decreases |chunks|
  {
    if chunks != [] {
      DecodeAllKeepsMax(d, buffered + chunks[0]);
      var r := DecodeAll(d, buffered + chunks[0]);
      DecodeChunksKeepsMax(r.decoder, r.rest, chunks[1..]);
    }
  }

  // ------------------------------------------------------------ the codec object

  /** The codec object: `decode` consumes from the front of its buffer and may keep a header. */
  class FrameCodec {
    var unusedDataHeader: Option<Header>
    var maxFrameSize: u32

    function View(): Decoder
      reads this
    {
      Decoder(unusedDataHeader, maxFrameSize)
    }

    constructor (max: u32)
      ensures View() == Decoder(None, max)
    {
      unusedDataHeader := None;
      maxFrameSize := max;
    }

    method Decode(src: seq<byte>) returns (outcome: Decoded, rest: seq<byte>)
      modifies this
      ensures DecodeStep(old(View()), src) == DecodeStepResult(View(), rest, outcome)
    {
      if src == [] {
        return NeedMore, src;
      }
      var header: Header;
      rest := src;
      if unusedDataHeader.Some? {
        header := unusedDataHeader.value;
        unusedDataHeader := None;
      } else if |src| >= HEADER_SIZE {
        var head := src[..HEADER_SIZE];
        rest := src[HEADER_SIZE..];
        if head[0] != PROTOCOL_VERSION {
          return Fail(BadVersion(head[0])), rest;
        }
        var ty := TypeOf(head[1]);
        if ty.None? {
          return Fail(BadType(head[1])), rest;
        }
        var flags := FlagsOf(GetU16(head[2..4]));
        var streamId := GetU32(head[4..8]);
        var length := GetU32(head[8..12]);
        if ty.value == Data && length > maxFrameSize {
          return Fail(TooLong(length)), rest;
        }
        header := Header(head[0], ty.value, flags, streamId, length);
      } else {
        return NeedMore, src;
      }
      if header.ty == Data {
        if |rest| < header.length {
          unusedDataHeader := Some(header);
          return NeedMore, rest;
        }
        outcome := Item(Frame(header, Some(rest[..header.length])));
        rest := rest[header.length..];
      } else {
        outcome := Item(Frame(header, None));
      }
    }

    /** Appends exactly one frame that the reference grammar reads back, whatever follows. */
    method EncodeFrame(item: Frame, dst: seq<byte>) returns (out: seq<byte>)
      requires WellFormed(item)
      ensures out == dst + Encode(item)
      ensures FitsFrameLimit(item, maxFrameSize) ==> Parse(out[|dst|..], maxFrameSize) == Parsed([item], [], None)
    {
      out := dst + [item.header.version] + [TypeByte(item.header.ty)];
      out := out + PutU16(FlagBits(item.header.flags));
      out := out + PutU32(item.header.streamId);
      out := out + PutU32(item.header.length);
      if item.body.Some? {
        out := out + item.body.value;
      }
      assert out == dst + Encode(item);
      assert out[|dst|..] == Encode(item) + [];
      if FitsFrameLimit(item, maxFrameSize) {
        ParseEncoded(item, [], maxFrameSize);
      }
    }
  }
}
