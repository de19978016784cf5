/** The WebSocket carrier: frame printer and parser, masking and message reassembly
    (crates/espejismo-core/src/underlay.rs; RFC 6455, sections 5.2 to 5.5). */
module WebSocket {
  import opened Prelude

  datatype Role = Client | Server

  function Peer(role: Role): Role {
    if role == Client then Server else Client
  }

  const OP_CONTINUATION: byte := 0x0
  const OP_TEXT: byte := 0x1
  const OP_BINARY: byte := 0x2
  const OP_CLOSE: byte := 0x8
  const OP_PING: byte := 0x9
  const OP_PONG: byte := 0xa

  datatype WsFrame =
    | Data(payload: seq<byte>)
    | DataStart(payload: seq<byte>)
    | Continuation(payload: seq<byte>, final: bool)
    | Ping(payload: seq<byte>)
    | Pong
    | Close(payload: seq<byte>)

  // ------------------------------------------------------------------ big endian

  function ToBytes(v: nat, n: nat): seq<byte> {
    if n == 0 then [] else ToBytes(v / 0x100, n - 1) + [v % 0x100]
  }

  function FromBytes(b: seq<byte>): nat {
    if b == [] then 0 else 0x100 * FromBytes(b[..|b| - 1]) + b[|b| - 1] as nat
  }

  function Pow256(n: nat): nat {
    if n == 0 then 1 else 0x100 * Pow256(n - 1)
  }

  lemma {:induction false} ToFromBytes(v: nat, n: nat)
    requires v < Pow256(n)
    ensures |ToBytes(v, n)| == n && FromBytes(ToBytes(v, n)) == v
  {
    if n > 0 {
      ToFromBytes(v / 0x100, n - 1);
      var high := ToBytes(v / 0x100, n - 1);
      assert (high + [v % 0x100])[..n - 1] == high;
    }
  }

  lemma {:induction false} FromToBytes(b: seq<byte>)
    ensures FromBytes(b) < Pow256(|b|) && ToBytes(FromBytes(b), |b|) == b
  {
    if b != [] {
      var n := |b| - 1;
      FromToBytes(b[..n]);
      var high := FromBytes(b[..n]);
      assert (0x100 * high + b[n] as nat) / 0x100 == high && (0x100 * high + b[n] as nat) % 0x100 == b[n];
      assert b[..n] + [b[n]] == b;
    }
  }

  // --------------------------------------------------------------------- masking

  function Pow2(n: nat): nat {
    if n == 0 then 1 else 2 * Pow2(n - 1)
  }

  /** Exclusive or of the `n` low bits. */
  function XorBits(a: nat, b: nat, n: nat): (r: nat)
    ensures r < Pow2(n)
  {
    if n == 0 then 0 else (if a % 2 == b % 2 then 0 else 1) + 2 * XorBits(a / 2, b / 2, n - 1)
  }

  function Xor(a: byte, b: byte): byte {
    assert Pow2(8) == 2 * Pow2(7) == 4 * Pow2(6) == 8 * Pow2(5) == 16 * Pow2(4) == 256;
    XorBits(a, b, 8)
  }

  /** `apply_websocket_mask` on values. */
  function Masked(payload: seq<byte>, mask: seq<byte>): seq<byte>
    requires |mask| == 4
  {
    seq(|payload|, i requires 0 <= i < |payload| => Xor(payload[i], mask[i % 4]))
  }

  lemma {:induction false} XorBitsTwice(a: nat, b: nat, n: nat)
    requires a < Pow2(n)
    ensures XorBits(XorBits(a, b, n), b, n) == a
  {
    if n > 0 {
      XorBitsTwice(a / 2, b / 2, n - 1);
      var x := XorBits(a / 2, b / 2, n - 1);
      var bit := if a % 2 == b % 2 then 0 else 1;
      assert (bit + 2 * x) / 2 == x && (bit + 2 * x) % 2 == bit;
    }
  }

  lemma XorTwice(a: byte, b: byte)
    ensures Xor(Xor(a, b), b) == a
  {
    assert Pow2(8) == 2 * Pow2(7) == 4 * Pow2(6) == 8 * Pow2(5) == 16 * Pow2(4) == 256;
    XorBitsTwice(a, b, 8);
  }

  /** Masking is its own inverse, byte by byte and in place. */
  lemma MaskTwice(payload: seq<byte>, mask: seq<byte>)
    requires |mask| == 4
    ensures Masked(Masked(payload, mask), mask) == payload
  {
    forall i | 0 <= i < |payload|
      ensures Masked(Masked(payload, mask), mask)[i] == payload[i]
    {
      XorTwice(payload[i], mask[i % 4]);
    }
  }

  method ApplyMask(payload: array<byte>, mask: array<byte>)
    requires mask.Length == 4 && payload != mask
    modifies payload
    ensures payload[..] == Masked(old(payload[..]), mask[..])
  {
    var i := 0;
    while i < payload.Length
      invariant 0 <= i <= payload.Length
      invariant forall k | 0 <= k < i :: payload[k] == Xor(old(payload[k]), mask[k % 4])
      invariant forall k | i <= k < payload.Length :: payload[k] == old(payload[k])
      invariant mask[..] == old(mask[..])
    {
      payload[i] := Xor(payload[i], mask[i % 4]);
      i := i + 1;
    }
  }

  // ---------------------------------------------------------------------- writing

  function LengthField(n: nat, maskBit: byte): seq<byte>
    requires maskBit == 0 || maskBit == 0x80
  {
    if n <= 125 then [maskBit + n]
    else if n <= 65_535 then [maskBit + 126] + ToBytes(n, 2)
    else [maskBit + 127] + ToBytes(n, 8)
  }

  /** A frame on the wire; the mask is present exactly when the sender is a client. */
  function Print(final: bool, opcode: byte, mask: Option<seq<byte>>, payload: seq<byte>): seq<byte>
    requires opcode < 0x10
    requires mask.Some? ==> |mask.value| == 4
  {
    [(if final then 0x80 else 0) + opcode as nat]
    + (LengthField(|payload|, if mask.Some? then 0x80 else 0)
       + if mask.Some? then mask.value + Masked(payload, mask.value) else payload)
  }

  /** `write_ws_frame`: every written frame is final; `mask` is the random key a client draws. */
  function WriteFrame(role: Role, opcode: byte, payload: seq<byte>, mask: seq<byte>): seq<byte>
    requires opcode < 0x10 && |mask| == 4
  {
    Print(true, opcode, if role == Client then Some(mask) else None, payload)
  }

  // ---------------------------------------------------------------------- reading

  datatype Reject =
    | Truncated | ReservedBits | NotMinimal | HighBit | TooLong | FragmentedControl | LongControl
    | WrongMask | TextFrame | BadClose | BadOpcode

  /** A frame as it stands on the wire, unmasked. */
  datatype Raw = Raw(final: bool, opcode: byte, mask: Option<seq<byte>>, payload: seq<byte>)

  datatype Read<+T> = Got(value: T, rest: seq<byte>) | Refused(why: Reject)

  function ReadLength(second: byte, b: seq<byte>): Read<nat> {
    var short := second % 0x80;
    if short == 126 then
      if |b| < 2 then Refused(Truncated)
      else
        var n := FromBytes(b[..2]);
        if n < 126 then Refused(NotMinimal) else Got(n, b[2..])
    else if short == 127 then
      if |b| < 8 then Refused(Truncated)
      else
        var n := FromBytes(b[..8]);
        if n >= 0x8000_0000_0000_0000 then Refused(HighBit)
        else if n <= 65_535 then Refused(NotMinimal)
        else Got(n, b[8..])
    else Got(short, b)
  }

  function ReadBody(final: bool, opcode: byte, masked: bool, n: nat, b: seq<byte>): Read<Raw> {
    if masked && |b| < 4 then Refused(Truncated)
    else
      var body := if masked then b[4..] else b;
      if |body| < n then Refused(Truncated)
      else if masked then Got(Raw(final, opcode, Some(b[..4]), Masked(body[..n], b[..4])), body[n..])
      else Got(Raw(final, opcode, None, body[..n]), body[n..])
  }

  /** The part of `read_ws_frame` before the opcode is looked at. */
  function ReadRaw(role: Role, max: nat, b: seq<byte>): Read<Raw> {
    if |b| < 2 then Refused(Truncated)
    else if b[0] / 0x10 % 8 != 0 then Refused(ReservedBits)
    else
      match ReadLength(b[1], b[2..])
      case Refused(why) => Refused(why)
      case Got(n, rest) =>
        var final := b[0] >= 0x80;
        var opcode := b[0] % 0x10;
        var masked := b[1] >= 0x80;
        if n > max then Refused(TooLong)
        else if opcode >= 8 && !final then Refused(FragmentedControl)
        else if opcode >= 8 && n > 125 then Refused(LongControl)
        else if masked != (role == Server) then Refused(WrongMask)
        else ReadBody(final, opcode, masked, n, rest)
  }

  predicate ValidCloseCode(code: nat) {
    1000 <= code <= 1003 || 1007 <= code <= 1014 || 2000 <= code <= 2999 || 3000 <= code <= 4999
  }

  predicate ValidClose(payload: seq<byte>, utf8: seq<byte> -> bool) {
    payload == [] || (|payload| >= 2 && ValidCloseCode(FromBytes(payload[..2])) && utf8(payload[2..]))
  }

  function Classify(r: Raw, utf8: seq<byte> -> bool): Read<WsFrame> {
    if r.opcode == OP_TEXT then Refused(TextFrame)
    else if r.opcode == OP_CONTINUATION then Got(Continuation(r.payload, r.final), [])
    else if r.opcode == OP_BINARY then Got(if r.final then Data(r.payload) else DataStart(r.payload), [])
    else if r.opcode == OP_CLOSE then
      if ValidClose(r.payload, utf8) then Got(Close(r.payload), []) else Refused(BadClose)
    else if r.opcode == OP_PING then Got(Ping(r.payload), [])
    else if r.opcode == OP_PONG then Got(Pong, [])
    else Refused(BadOpcode)
  }

  /** `read_ws_frame`; UTF-8 validity of a close reason is a parameter. */
  function ReadFrame(role: Role, max: nat, utf8: seq<byte> -> bool, b: seq<byte>): Read<WsFrame> {
    match ReadRaw(role, max, b)
    case Refused(why) => Refused(why)
    case Got(r, rest) =>
      match Classify(r, utf8)
      case Refused(why) => Refused(why)
      case Got(f, _) => Got(f, rest)
  }

  // ------------------------------------------------------------------- round trip

  lemma TakeBytes(v: nat, n: nat, tail: seq<byte>)
    requires v < Pow256(n)
    ensures var b := ToBytes(v, n) + tail;
      |ToBytes(v, n)| == n && |b| >= n && FromBytes(b[..n]) == v && b[n..] == tail
  {
    ToFromBytes(v, n);
    var b := ToBytes(v, n) + tail;
    assert b[..n] == ToBytes(v, n) && b[n..] == tail;
  }

  lemma SecondByte(maskBit: byte, short: nat)
    requires maskBit == 0 || maskBit == 0x80
    requires short <= 127
    ensures (maskBit as nat + short) % 0x80 == short
    ensures maskBit as nat + short >= 0x80 <==> maskBit == 0x80
  {}

  lemma LengthRoundTrip(n: nat, maskBit: byte, tail: seq<byte>)
    requires maskBit == 0 || maskBit == 0x80
    requires n < 0x8000_0000_0000_0000
    ensures var f := LengthField(n, maskBit);
      && f != []
      && ReadLength(f[0], f[1..] + tail) == Got(n, tail)
      && (f[0] >= 0x80 <==> maskBit == 0x80)
  {
    hide ToBytes, FromBytes, Pow256;
    var f := LengthField(n, maskBit);
    if n <= 125 {
      ConcatEmpty(tail);
      SecondByte(maskBit, n);
      assert f[1..] == [];
    } else if n <= 65_535 {
      Pow256Of2();
      TakeBytes(n, 2, tail);
      SecondByte(maskBit, 126);
      assert f[1..] == ToBytes(n, 2);
    } else {
      Pow256Of8();
      TakeBytes(n, 8, tail);
      SecondByte(maskBit, 127);
      assert f[1..] == ToBytes(n, 8);
    }
  }

  lemma Pow256Of2()
    ensures Pow256(2) == 0x1_0000
  {
    assert Pow256(1) == 0x100 * Pow256(0);
  }

  lemma Pow256Of8()
    ensures Pow256(8) == 0x1_0000_0000_0000_0000
    ensures Pow256(7) == 0x100_0000_0000_0000
  {
    assert Pow256(1) == 0x100 && Pow256(2) == 0x1_0000 && Pow256(3) == 0x100_0000 && Pow256(4) == 0x1_0000_0000;
    assert Pow256(5) == 0x100_0000_0000 && Pow256(6) == 0x1_0000_0000_0000;
  }

  lemma LengthCanonical(second: byte, b: seq<byte>)
    requires ReadLength(second, b).Got?
    ensures var r := ReadLength(second, b);
      [second] + b == LengthField(r.value, if second >= 0x80 then 0x80 else 0) + r.rest
  {
    hide ToBytes, FromBytes, Pow256;
    var r := ReadLength(second, b);
    var maskBit: byte := if second >= 0x80 then 0x80 else 0;
    var short := second % 0x80;
    assert second == maskBit as nat + short;
    if short == 126 {
      Pow256Of2();
      FromToBytes(b[..2]);
      assert b == b[..2] + b[2..];
      ConcatAssoc([second], b[..2], b[2..]);
    } else if short == 127 {
      FromToBytes(b[..8]);
      assert b == b[..8] + b[8..];
      ConcatAssoc([second], b[..8], b[8..]);
    }
  }

  /** A raw frame that passes every check of the reader. */
  predicate Acceptable(role: Role, max: nat, r: Raw) {
    && r.opcode < 0x10
    && |r.payload| <= max && |r.payload| < 0x8000_0000_0000_0000
    && (r.opcode >= 8 ==> r.final && |r.payload| <= 125)
    && (r.mask.Some? <==> role == Server)
    && (r.mask.Some? ==> |r.mask.value| == 4)
  }

  function BodyBytes(r: Raw): seq<byte>
    requires r.mask.Some? ==> |r.mask.value| == 4
  {
    if r.mask.Some? then r.mask.value + Masked(r.payload, r.mask.value) else r.payload
  }

  function MaskBit(r: Raw): byte {
    if r.mask.Some? then 0x80 else 0
  }

  /** A printed frame, cut where the reader cuts it. */
  lemma PrintShape(r: Raw, tail: seq<byte>)
    requires r.opcode < 0x10
    requires r.mask.Some? ==> |r.mask.value| == 4
    ensures var b := Print(r.final, r.opcode, r.mask, r.payload) + tail;
      var field := LengthField(|r.payload|, MaskBit(r));
      && |b| >= 2 && field != []
      && b[0] == (if r.final then 0x80 else 0) + r.opcode as nat
      && b[1] == field[0]
      && b[2..] == field[1..] + (BodyBytes(r) + tail)
  {
    hide Masked, LengthField;
    LengthFieldNonEmpty(|r.payload|, MaskBit(r));
    var field := LengthField(|r.payload|, MaskBit(r));
    var body := BodyBytes(r);
    var first: byte := (if r.final then 0x80 else 0) + r.opcode as nat;
    var b := Print(r.final, r.opcode, r.mask, r.payload) + tail;
    assert field == [field[0]] + field[1..];
    ConcatAssoc([first], field + body, tail);
    ConcatAssoc(field, body, tail);
    ConcatAssoc([field[0]], field[1..], body + tail);
    assert b == [first] + ([field[0]] + (field[1..] + (body + tail)));
    TwoHeads(first, field[0], field[1..] + (body + tail));
  }

  lemma LengthFieldNonEmpty(n: nat, maskBit: byte)
    requires maskBit == 0 || maskBit == 0x80
    ensures LengthField(n, maskBit) != []
  {}

  lemma TwoHeads(x: byte, y: byte, z: seq<byte>)
    ensures var b := [x] + ([y] + z); |b| >= 2 && b[0] == x && b[1] == y && b[2..] == z
  {}

  /** Reading what was printed gives the frame back and leaves exactly what follows it. */
  lemma RawRoundTrip(role: Role, max: nat, r: Raw, tail: seq<byte>)
    requires Acceptable(role, max, r)
    ensures ReadRaw(role, max, Print(r.final, r.opcode, r.mask, r.payload) + tail) == Got(r, tail)
  {
    hide Print, LengthField, ReadLength, ReadBody, BodyBytes;
    PrintShape(r, tail);
    LengthRoundTrip(|r.payload|, MaskBit(r), BodyBytes(r) + tail);
    BodyRoundTrip(r, tail);
  }

  lemma BodyRoundTrip(r: Raw, tail: seq<byte>)
    requires r.mask.Some? ==> |r.mask.value| == 4
    ensures ReadBody(r.final, r.opcode, r.mask.Some?, |r.payload|, BodyBytes(r) + tail) == Got(r, tail)
  {
    var n := |r.payload|;
    if r.mask.Some? {
      var mask, hidden := r.mask.value, Masked(r.payload, r.mask.value);
      var b := (mask + hidden) + tail;
      assert b[..4] == mask && b[4..] == hidden + tail;
      assert (hidden + tail)[..n] == hidden && (hidden + tail)[n..] == tail;
      MaskTwice(r.payload, mask);
    } else {
      assert (r.payload + tail)[..n] == r.payload && (r.payload + tail)[n..] == tail;
    }
  }

  /** Canonicity: the reader accepts no two encodings of one frame. Whatever it consumed is
      exactly what printing the frame with the same mask produces. */
  lemma RawCanonical(role: Role, max: nat, b: seq<byte>)
    requires ReadRaw(role, max, b).Got?
    ensures var g := ReadRaw(role, max, b);
      && g.value.opcode < 0x10
      && (g.value.mask.Some? ==> |g.value.mask.value| == 4)
      && b == Print(g.value.final, g.value.opcode, g.value.mask, g.value.payload) + g.rest
  {
    hide LengthField, ReadLength, ReadBody, Masked;
    var g := ReadRaw(role, max, b);
    var r := g.value;
    var len := ReadLength(b[1], b[2..]);
    LengthCanonical(b[1], b[2..]);
    BodyCanonical(b[0] >= 0x80, b[0] % 0x10, b[1] >= 0x80, len.value, len.rest);
    FirstByte(b[0]);
    var field := LengthField(len.value, MaskBit(r));
    assert b == [b[0]] + ([b[1]] + b[2..]);
    ConcatAssoc(field, BodyBytes(r), g.rest);
    ConcatAssoc([b[0]], field + BodyBytes(r), g.rest);
  }

  lemma FirstByte(x: byte)
    requires x / 0x10 % 8 == 0
    ensures x == (if x >= 0x80 then 0x80 else 0) + x % 0x10
  {}

  lemma BodyCanonical(final: bool, opcode: byte, masked: bool, n: nat, b: seq<byte>)
    requires ReadBody(final, opcode, masked, n, b).Got?
    ensures var g := ReadBody(final, opcode, masked, n, b);
      var r := g.value;
      && r.final == final && r.opcode == opcode && |r.payload| == n
      && (r.mask.Some? <==> masked)
      && (r.mask.Some? ==> |r.mask.value| == 4)
      && b == BodyBytes(r) + g.rest
  {
    if masked {
      var body := b[4..];
      MaskTwice(body[..n], b[..4]);
      assert b == b[..4] + (body[..n] + body[n..]);
      ConcatAssoc(b[..4], body[..n], body[n..]);
    } else {
      assert b == b[..n] + b[n..];
    }
  }

  function OpcodeOf(f: WsFrame): byte {
    match f
    case Data(_) => OP_BINARY
    case DataStart(_) => OP_BINARY
    case Continuation(_, _) => OP_CONTINUATION
    case Ping(_) => OP_PING
    case Pong => OP_PONG
    case Close(_) => OP_CLOSE
  }

  /** Unfragmented frames whose payload the reader keeps. */
  predicate Whole(f: WsFrame) {
    f.Data? || f.Ping? || f.Close?
  }

  /** For both roles and every mask: the peer reads back exactly the frame that was written, as
      long as the payload is within its limits. */
  lemma WriteThenRead(role: Role, max: nat, utf8: seq<byte> -> bool, f: WsFrame, mask: seq<byte>, tail: seq<byte>)
    requires Whole(f) && |mask| == 4
    requires |f.payload| <= max && |f.payload| < 0x8000_0000_0000_0000
    requires !f.Data? ==> |f.payload| <= 125
    requires f.Close? ==> ValidClose(f.payload, utf8)
    ensures ReadFrame(Peer(role), max, utf8, WriteFrame(role, OpcodeOf(f), f.payload, mask) + tail) == Got(f, tail)
  {
    var r := Raw(true, OpcodeOf(f), if role == Client then Some(mask) else None, f.payload);
    RawRoundTrip(Peer(role), max, r, tail);
  }

  /** And conversely: every accepted data, ping or close frame, written again with the mask it
      carried, reproduces the bytes it was read from. */
  lemma ReadThenWrite(role: Role, max: nat, utf8: seq<byte> -> bool, b: seq<byte>)
    requires ReadFrame(role, max, utf8, b).Got? && Whole(ReadFrame(role, max, utf8, b).value)
    ensures var g := ReadFrame(role, max, utf8, b);
      exists mask | |mask| == 4 :: b == WriteFrame(Peer(role), OpcodeOf(g.value), g.value.payload, mask) + g.rest
  {
    hide ReadRaw, Print;
    RawCanonical(role, max, b);
    var r := ReadRaw(role, max, b).value;
    MaskPresent(role, max, b);
    var mask := if r.mask.Some? then r.mask.value else [0, 0, 0, 0];
    var g := ReadFrame(role, max, utf8, b);
    assert b == WriteFrame(Peer(role), OpcodeOf(g.value), g.value.payload, mask) + g.rest;
  }

  lemma MaskPresent(role: Role, max: nat, b: seq<byte>)
    requires ReadRaw(role, max, b).Got?
    ensures ReadRaw(role, max, b).value.mask.Some? <==> role == Server
    ensures ReadRaw(role, max, b).value.opcode >= 8 ==> ReadRaw(role, max, b).value.final
  {}

  // ------------------------------------------------------------------ reading and writing in place

  /** `write_ws_frame`: the header is built byte by byte and a copy of the payload masked in place. */
  method WriteWsFrame(role: Role, opcode: byte, payload: seq<byte>, mask: array<byte>) returns (written: seq<byte>)
    requires opcode < 0x10 && mask.Length == 4
    ensures written == WriteFrame(role, opcode, payload, mask[..])
  {
    hide ToBytes, Masked, Xor;
    var masked := role == Client;
    var maskBit: byte := if masked then 0x80 else 0;
    var header: seq<byte> := [0x80 + opcode as nat];
    if |payload| <= 125 {
      header := header + [maskBit + |payload|];
    } else if |payload| <= 65_535 {
      header := header + [maskBit + 126];
      ConcatAssoc([0x80 + opcode as nat], [maskBit + 126], ToBytes(|payload|, 2));
      header := header + ToBytes(|payload|, 2);
    } else {
      header := header + [maskBit + 127];
      ConcatAssoc([0x80 + opcode as nat], [maskBit + 127], ToBytes(|payload|, 8));
      header := header + ToBytes(|payload|, 8);
    }
    ghost var field := LengthField(|payload|, maskBit);
    if masked {
      header := header + mask[..];
      var maskedPayload := new byte[|payload|](i requires 0 <= i < |payload| => payload[i]);
      assert maskedPayload[..] == payload;
      ApplyMask(maskedPayload, mask);
      ConcatAssoc([0x80 + opcode as nat] + field, mask[..], maskedPayload[..]);
      ConcatAssoc([0x80 + opcode as nat], field, mask[..] + maskedPayload[..]);
      written := header + maskedPayload[..];
    } else {
      ConcatAssoc([0x80 + opcode as nat], field, payload);
      written := header + payload;
    }
  }

  /** A reader with the bytes it has not consumed. */
  class WsReader {
    var input: seq<byte>

    constructor (input: seq<byte>)
      ensures this.input == input
    {
      this.input := input;
    }

    method ReadExact(n: nat) returns (bytes: Option<seq<byte>>)
      modifies this
      ensures bytes.Some? <==> n <= |old(input)|
      ensures bytes.Some? ==> bytes.value == old(input)[..n] && input == old(input)[n..]
    {
      if n <= |input| {
        bytes := Some(input[..n]);
        input := input[n..];
      } else {
        bytes := None;
      }
    }

    /** The extended length, if the two header bytes announce one. */
    method ReadLen(second: byte) returns (len: Read<nat>)
      modifies this
      ensures match ReadLength(second, old(input))
        case Refused(why) => len == Refused(why)
        case Got(n, rest) => len == Got(n, []) && input == rest
    {
      var short := second as nat % 0x80;
      len := Got(short, []);
      if short == 126 {
        var bytes := ReadExact(2);
        if bytes.None? {
          return Refused(Truncated);
        }
        var n := FromBytes(bytes.value);
        if n < 126 {
          return Refused(NotMinimal);
        }
        len := Got(n, []);
      } else if short == 127 {
        var bytes := ReadExact(8);
        if bytes.None? {
          return Refused(Truncated);
        }
        var n := FromBytes(bytes.value);
        if n >= 0x8000_0000_0000_0000 {
          return Refused(HighBit);
        }
        if n <= 65_535 {
          return Refused(NotMinimal);
        }
        len := Got(n, []);
      }
    }

    method ReadPayload(final: bool, opcode: byte, masked: bool, n: nat) returns (raw: Read<Raw>)
      modifies this
      ensures match ReadBody(final, opcode, masked, n, old(input))
        case Refused(why) => raw == Refused(why)
        case Got(r, rest) => raw == Got(r, []) && input == rest
    {
      var mask := [];
      if masked {
        var bytes := ReadExact(4);
        if bytes.None? {
          return Refused(Truncated);
        }
        mask := bytes.value;
      }
      var body := ReadExact(n);
      if body.None? {
        return Refused(Truncated);
      }
      var payload := body.value;
      if masked {
        var buffer := new byte[n](i requires 0 <= i < n => payload[i]);
        assert buffer[..] == payload;
        var key := new byte[4](i requires 0 <= i < 4 => mask[i]);
        assert key[..] == mask;
        ApplyMask(buffer, key);
        payload := buffer[..];
      }
      raw := Got(Raw(final, opcode, if masked then Some(mask) else None, payload), []);
    }

    /** `read_ws_frame`: on success exactly the frame's bytes are consumed. */
    method ReadWsFrame(role: Role, max: nat, utf8: seq<byte> -> bool) returns (frame: Read<WsFrame>)
      modifies this
      ensures match ReadFrame(role, max, utf8, old(input))
        case Refused(why) => frame == Refused(why)
        case Got(f, rest) => frame == Got(f, []) && input == rest
    {
      var head := ReadExact(2);
      if head.None? {
        return Refused(Truncated);
      }
      var first, second := head.value[0] as nat, head.value[1];
      if first / 0x10 % 8 != 0 {
        return Refused(ReservedBits);
      }
      var opcode, final, masked := first % 0x10, first >= 0x80, second >= 0x80;
      var len := ReadLen(second);
      if len.Refused? {
        return Refused(len.why);
      }
      if len.value > max {
        return Refused(TooLong);
      }
      if opcode >= 8 {
        if !final {
          return Refused(FragmentedControl);
        }
        if len.value > 125 {
          return Refused(LongControl);
        }
      }
      if masked != (role == Server) {
        return Refused(WrongMask);
      }
      var raw := ReadPayload(final, opcode, masked, len.value);
      if raw.Refused? {
        return Refused(raw.why);
      }
      frame := Classify(raw.value, utf8);
    }
  }
}
