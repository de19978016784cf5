/** The byte layout of yamux frames (crates/tokio-yamux/src/frame.rs; the yamux specification,
    "Framing"): fixed positions, network byte order, one bit per flag. */
module FrameForms {
  import opened Prelude
  import opened Frames

  /** The network-order number in the four bytes at `at`. */
  function Word32(b: seq<byte>, at: nat): nat
    requires at + 4 <= |b|
  {
    0x100_0000 * b[at] as nat + 0x1_0000 * b[at + 1] as nat + 0x100 * b[at + 2] as nat + b[at + 3] as nat
  }

  predicate FlagForm(v: nat, f: Flags) {
    && (f.syn <==> v % 2 == 1)
    && (f.ack <==> v / 2 % 2 == 1)
    && (f.fin <==> v / 4 % 2 == 1)
    && (f.rst <==> v / 8 % 2 == 1)
    && f.other == v / 16
  }

  /** Version, type, flags, stream and length, in twelve bytes. */
  predicate HeaderForm(b: seq<byte>, h: Header) {
    && |b| == 12
    && b[0] == h.version
    && (match b[1] case 0 => h.ty.Data? case 1 => h.ty.WindowUpdate? case 2 => h.ty.Ping? case 3 => h.ty.GoAway? case _ => false)
    && FlagForm(0x100 * b[2] as nat + b[3] as nat, h.flags)
    && Word32(b, 4) == h.streamId
    && Word32(b, 8) == h.length
  }

  lemma Digits(v: u32)
    ensures var b := PutU32(v);
      0x100_0000 * b[0] as nat + 0x1_0000 * b[1] as nat + 0x100 * b[2] as nat + b[3] as nat == v
  {
    U32RoundTrip(v);
  }

  lemma FlagDigits(v: u16)
    ensures FlagForm(v, FlagsOf(v))
  {
    Halves(v);
  }

  lemma Halves(v: nat)
    ensures v / 2 / 2 == v / 4 && v / 2 / 2 / 2 == v / 8 && v / 2 / 2 / 2 / 2 == v / 16
  {}

  /** Every header is written in that form. */
  lemma HeaderOnTheWire(h: Header)
    requires h.flags.other < 0x1000
    ensures HeaderForm(EncodeHeader(h), h)
  {
    var b := EncodeHeader(h);
    FieldSizes(h);
    hide FlagsOf, FlagBits, PutU32, FlagForm;
    var v := FlagBits(h.flags);
    FlagsRoundTrip(h.flags);
    FlagDigits(v);
    Digits(h.streamId);
    Digits(h.length);
    assert b[2] == v / 0x100 && b[3] == v % 0x100;
    assert b[4..8] == PutU32(h.streamId) && b[8..12] == PutU32(h.length);
    forall i | 0 <= i < 4
      ensures b[4 + i] == PutU32(h.streamId)[i] && b[8 + i] == PutU32(h.length)[i]
    {
      assert b[4 + i] == b[4..8][i] && b[8 + i] == b[8..12][i];
    }
  }

  /** And twelve bytes are taken exactly when they are version 0, one of the four types and, for a
      DATA frame, no longer than the limit; the first check that fails names the error. */
  lemma HeaderTaken(b: seq<byte>, max: u32)
    requires |b| == 12
    ensures match ParseHeader(b, max)
      case Good(h) => b[0] == 0 && b[1] <= 3 && (b[1] == 0 ==> Word32(b, 8) <= max) && HeaderForm(b, h)
      case Bad(BadVersion(v)) => b[0] != 0 && v == b[0]
      case Bad(BadType(t)) => b[0] == 0 && b[1] > 3 && t == b[1]
      case Bad(TooLong(n)) => b[0] == 0 && b[1] == 0 && Word32(b, 8) > max && n == Word32(b, 8)
  {
    hide FlagsOf, FlagForm;
    FlagDigits(GetU16(b[2..4]));
  }

  /** The frames the streams and the session build, as bytes. */
  lemma ConstructorsOnTheWire(id: StreamId, n: u32, body: seq<byte>)
    requires |body| <= U32_MAX
    ensures var data := Encode(DataFrame(NO_FLAGS, id, body));
      |data| == 12 + |body| && data[..4] == [0, 0, 0, 0] && Word32(data, 4) == id && Word32(data, 8) == |body| && data[12..] == body
    ensures var open := Encode(WindowUpdateFrame(SYN, id, n));
      |open| == 12 && open[..4] == [0, 1, 0, 1] && Word32(open, 4) == id && Word32(open, 8) == n
    ensures var refusal := Encode(WindowUpdateFrame(ACK.(rst := true), id, 0));
      |refusal| == 12 && refusal[..4] == [0, 1, 0, 10] && Word32(refusal, 4) == id && Word32(refusal, 8) == 0
    ensures var fin := Encode(WindowUpdateFrame(NO_FLAGS.(fin := true), id, 0));
      |fin| == 12 && fin[..4] == [0, 1, 0, 4] && Word32(fin, 4) == id && Word32(fin, 8) == 0
    ensures var ping := Encode(PingFrame(SYN, n));
      |ping| == 12 && ping[..4] == [0, 2, 0, 1] && Word32(ping, 4) == 0 && Word32(ping, 8) == n
    ensures var goAway := Encode(GoAwayFrame(n));
      |goAway| == 12 && goAway[..4] == [0, 3, 0, 0] && Word32(goAway, 4) == 0 && Word32(goAway, 8) == n
  {
    var data, refusal := DataFrame(NO_FLAGS, id, body), WindowUpdateFrame(ACK.(rst := true), id, 0);
    Shape(data);
    Shape(WindowUpdateFrame(SYN, id, n));
    Shape(refusal);
    Shape(WindowUpdateFrame(NO_FLAGS.(fin := true), id, 0));
    Shape(PingFrame(SYN, n));
    Shape(GoAwayFrame(n));
  }

  lemma Shape(f: Frame)
    requires WellFormed(f)
    ensures var b := Encode(f);
      && |b| == 12 + BodyLength(f.header)
      && b[0] == f.header.version && b[1] == TypeByte(f.header.ty)
      && b[2] == FlagBits(f.header.flags) / 0x100 && b[3] == FlagBits(f.header.flags) % 0x100
      && b[..4] == [b[0], b[1], b[2], b[3]]
      && Word32(b, 4) == f.header.streamId && Word32(b, 8) == f.header.length
      && (f.body.Some? ==> b[12..] == f.body.value)
  {
    hide HeaderForm, FlagBits;
    FieldSizes(f.header);
    HeaderOnTheWire(f.header);
    HeaderWords(EncodeHeader(f.header), f.header);
    var b, h := Encode(f), EncodeHeader(f.header);
    assert b[..12] == h;
    assert forall i | 0 <= i < 12 :: b[i] == h[i];
  }

  lemma HeaderWords(b: seq<byte>, h: Header)
    requires HeaderForm(b, h)
    ensures |b| == 12 && Word32(b, 4) == h.streamId && Word32(b, 8) == h.length
  {}
}
