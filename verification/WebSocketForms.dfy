/** What WebSocket frames look like on the wire, bit by bit and byte by byte, and exactly which byte
    strings the reader takes (crates/espejismo-core/src/underlay.rs; RFC 6455, sections 5.2, 5.3, 5.5
    and 7.4). */
module WebSocketForms {
  import opened Prelude
  import opened WebSocket

  // --------------------------------------------------------------------- masking

  /** Bit `k` of a number, the lowest first. */
  predicate Bit(a: nat, k: nat)
    decreases k
  {
    if k == 0 then a % 2 == 1 else Bit(a / 2, k - 1)
  }

  lemma {:induction false} XorBitAt(a: nat, b: nat, n: nat, k: nat)
    requires k < n
    ensures Bit(XorBits(a, b, n), k) <==> Bit(a, k) != Bit(b, k)
    decreases n
  {
    var rest := XorBits(a / 2, b / 2, n - 1);
    var low := if a % 2 == b % 2 then 0 else 1;
    assert XorBits(a, b, n) == low + 2 * rest;
    assert (low + 2 * rest) / 2 == rest;
    if k > 0 {
      XorBitAt(a / 2, b / 2, n - 1, k - 1);
    }
  }

  /** A bit of the exclusive or is set exactly where the two bytes differ. */
  lemma XorIsExclusiveOr(a: byte, b: byte, k: nat)
    requires k < 8
    ensures Bit(Xor(a, b), k) <==> Bit(a, k) != Bit(b, k)
  {
    XorBitAt(a, b, 8, k);
  }

  lemma {:induction false} BitsDecide(a: nat, b: nat, n: nat)
    requires a < Pow2(n) && b < Pow2(n)
    requires forall k | 0 <= k < n :: Bit(a, k) == Bit(b, k)
    ensures a == b
  {
    if n > 0 {
      assert Bit(a, 0) == Bit(b, 0);
      forall k | 0 <= k < n - 1
        ensures Bit(a / 2, k) == Bit(b / 2, k)
      {
        assert Bit(a, k + 1) == Bit(b, k + 1);
      }
      BitsDecide(a / 2, b / 2, n - 1);
    }
  }

  /** Eight bits make a byte, so the bits below say everything about a masked payload. */
  lemma BitsMakeBytes(a: byte, b: byte)
    requires forall k | 0 <= k < 8 :: Bit(a, k) == Bit(b, k)
    ensures a == b
  {
    assert Pow2(8) == 2 * Pow2(7) == 4 * Pow2(6) == 8 * Pow2(5) == 16 * Pow2(4) == 256;
    BitsDecide(a, b, 8);
  }

  /** Byte `i` of a masked payload differs from the payload exactly in the bits of key byte `i` mod 4. */
  lemma MaskedBits(payload: seq<byte>, key: seq<byte>, i: nat, k: nat)
    requires |key| == 4 && i < |payload| && k < 8
    ensures |Masked(payload, key)| == |payload|
    ensures Bit(Masked(payload, key)[i], k) <==> Bit(payload[i], k) != Bit(key[i % 4], k)
  {
    XorIsExclusiveOr(payload[i], key[i % 4], k);
  }

  lemma {:induction false} ZeroHasNoBits(k: nat)
    ensures !Bit(0, k)
  {
    if k > 0 {
      ZeroHasNoBits(k - 1);
    }
  }

  lemma ZeroKeyChangesNothing(payload: seq<byte>)
    ensures Masked(payload, [0, 0, 0, 0]) == payload
  {
    var key: seq<byte> := [0, 0, 0, 0];
    forall i | 0 <= i < |payload|
      ensures Masked(payload, key)[i] == payload[i]
    {
      forall k | 0 <= k < 8
        ensures Bit(Masked(payload, key)[i], k) == Bit(payload[i], k)
      {
        MaskedBits(payload, key, i, k);
        ZeroHasNoBits(k);
      }
      BitsMakeBytes(Masked(payload, key)[i], payload[i]);
    }
  }

  // ------------------------------------------------------------------- wire form

  /** The network-order number in `b` at `at`. */
  function Word16(b: seq<byte>, at: nat): nat
    requires at + 2 <= |b|
  {
    0x100 * b[at] as nat + b[at + 1] as nat
  }

  function Word64(b: seq<byte>, at: nat): nat
    requires at + 8 <= |b|
  {
    0x100_0000_0000_0000 * b[at] as nat + 0x1_0000_0000_0000 * b[at + 1] as nat + 0x100_0000_0000 * b[at + 2] as nat
    + 0x1_0000_0000 * b[at + 3] as nat + 0x100_0000 * b[at + 4] as nat + 0x1_0000 * b[at + 5] as nat + 0x100 * b[at + 6] as nat + b[at + 7] as nat
  }

  function HeaderLength(n: nat): nat {
    if n <= 125 then 2 else if n <= 65_535 then 4 else 10
  }

  /** Section 5.2 of RFC 6455: FIN and opcode, then the mask bit with a 7-bit length, or 126 and a
      16-bit length, or 127 and a 64-bit length. */
  predicate HeaderForm(b: seq<byte>, final: bool, opcode: byte, masked: bool, n: nat) {
    && HeaderLength(n) <= |b|
    && b[0] == (if final then 0x80 else 0) + opcode as nat
    && b[1] == (if masked then 0x80 else 0) + (if n <= 125 then n else if n <= 65_535 then 126 else 127)
    && (125 < n <= 65_535 ==> Word16(b, 2) == n)
    && (65_535 < n ==> Word64(b, 2) == n)
  }

  /** Then the key, if there is one, and the payload with the bits of the key turned over. */
  predicate BodyForm(b: seq<byte>, h: nat, key: Option<seq<byte>>, payload: seq<byte>) {
    match key
    case None => b[Min(h, |b|)..] == payload
    case Some(key) =>
      && |b| == h + 4 + |payload|
      && b[h..h + 4] == key
      && forall i, k | 0 <= i < |payload| && 0 <= k < 8 ::
           Bit(b[h + 4 + i], k) <==> Bit(payload[i], k) != Bit(key[i % 4], k)
  }

  lemma NextByte(b: seq<byte>, k: nat)
    requires k < |b|
    ensures FromBytes(b[..k + 1]) == 0x100 * FromBytes(b[..k]) + b[k]
  {
    assert b[..k + 1][..k] == b[..k];
  }

  lemma TwoBytes(b: seq<byte>)
    requires |b| >= 2
    ensures FromBytes(b[..2]) == Word16(b, 0)
  {
    NextByte(b, 0);
    NextByte(b, 1);
    assert b[..0] == [];
  }

  lemma EightBytes(b: seq<byte>)
    requires |b| >= 8
    ensures FromBytes(b[..8]) == Word64(b, 0)
  {
    hide FromBytes;
    TwoBytes(b);
    NextByte(b, 2);
    NextByte(b, 3);
    NextByte(b, 4);
    NextByte(b, 5);
    NextByte(b, 6);
    NextByte(b, 7);
  }

  lemma LengthForm(n: nat, maskBit: byte)
    requires n < 0x1_0000_0000_0000_0000 && (maskBit == 0 || maskBit == 0x80)
    ensures var field := LengthField(n, maskBit);
      && |field| == HeaderLength(n) - 1
      && field[0] == maskBit as nat + (if n <= 125 then n else if n <= 65_535 then 126 else 127)
      && (125 < n <= 65_535 ==> Word16(field, 1) == n)
      && (65_535 < n ==> Word64(field, 1) == n)
  {
    hide ToBytes, FromBytes, Pow256;
    if 125 < n <= 65_535 {
      Pow256Of2();
      TakeBytes(n, 2, []);
      ConcatEmpty(ToBytes(n, 2));
      TwoBytes(ToBytes(n, 2));
    } else if 65_535 < n {
      Pow256Of8();
      TakeBytes(n, 8, []);
      ConcatEmpty(ToBytes(n, 8));
      EightBytes(ToBytes(n, 8));
    }
  }

  /** Every frame the writer prints has that form. */
  lemma PrintForm(final: bool, opcode: byte, key: Option<seq<byte>>, payload: seq<byte>)
    requires opcode < 0x10 && (key.Some? ==> |key.value| == 4)
    requires |payload| < 0x1_0000_0000_0000_0000
    ensures var b := Print(final, opcode, key, payload);
      && HeaderForm(b, final, opcode, key.Some?, |payload|)
      && BodyForm(b, HeaderLength(|payload|), key, payload)
  {
    hide LengthField, Masked;
    var n := |payload|;
    var field := LengthField(n, if key.Some? then 0x80 else 0);
    LengthForm(n, if key.Some? then 0x80 else 0);
    var first: byte := (if final then 0x80 else 0) + opcode as nat;
    var body := if key.Some? then key.value + Masked(payload, key.value) else payload;
    var b := Print(final, opcode, key, payload);
    assert b == [first] + (field + body);
    HeaderBytes(first, field, body);
    if key.Some? {
      KeyedBody(b, HeaderLength(n), key.value, payload);
    }
  }

  lemma HeaderBytes(first: byte, field: seq<byte>, body: seq<byte>)
    ensures var b := [first] + (field + body);
      && |b| == 1 + |field| + |body|
      && b[0] == first
      && (forall i | 0 <= i < |field| :: b[i + 1] == field[i])
      && b[1 + |field|..] == body
  {
    var b := [first] + (field + body);
    assert b == ([first] + field) + body;
  }

  lemma KeyedBody(b: seq<byte>, h: nat, key: seq<byte>, payload: seq<byte>)
    requires |key| == 4 && h <= |b| && b[h..] == key + Masked(payload, key)
    ensures BodyForm(b, h, Some(key), payload)
  {
    var body := b[h..];
    assert |Masked(payload, key)| == |payload|;
    assert body[..4] == key && b[h..h + 4] == body[..4];
    forall i, k | 0 <= i < |payload| && 0 <= k < 8
      ensures Bit(b[h + 4 + i], k) <==> Bit(payload[i], k) != Bit(key[i % 4], k)
    {
      assert b[h + 4 + i] == body[4 + i] == Masked(payload, key)[i];
      MaskedBits(payload, key, i, k);
    }
  }

  // --------------------------------------------------------------------- reading

  /** The reader takes exactly the printed frames that pass its limits, and stops right behind them. */
  lemma ReadsExactly(role: Role, max: nat, b: seq<byte>, r: Raw, rest: seq<byte>)
    ensures ReadRaw(role, max, b) == Got(r, rest) <==>
      Acceptable(role, max, r) && b == Print(r.final, r.opcode, r.mask, r.payload) + rest
  {
    hide Print;
    if ReadRaw(role, max, b) == Got(r, rest) {
      RawCanonical(role, max, b);
      AcceptedIsAcceptable(role, max, b);
    }
    if Acceptable(role, max, r) && b == Print(r.final, r.opcode, r.mask, r.payload) + rest {
      RawRoundTrip(role, max, r, rest);
    }
  }

  lemma AcceptedIsAcceptable(role: Role, max: nat, b: seq<byte>)
    requires ReadRaw(role, max, b).Got?
    ensures Acceptable(role, max, ReadRaw(role, max, b).value)
  {
    hide ReadBody, ReadLength;
    var len := ReadLength(b[1], b[2..]);
    BodyCanonical(b[0] >= 0x80, b[0] % 0x10, b[1] >= 0x80, len.value, len.rest);
    ShortLength(b[1], b[2..]);
  }

  lemma ShortLength(second: byte, b: seq<byte>)
    requires ReadLength(second, b).Got?
    ensures ReadLength(second, b).value < 0x8000_0000_0000_0000
  {
    if |b| >= 2 {
      TwoBytes(b);
    }
  }

  /** Status codes nobody may send: below 1000, the three and the one the RFC reserves, its unassigned
      range, and everything above the private range. */
  predicate ForbiddenCode(code: nat) {
    code < 1000 || code == 1004 || code == 1005 || code == 1006 || 1015 <= code < 2000 || code >= 5000
  }

  /** What becomes of a well-formed frame: text, unknown opcodes and malformed closes are refused,
      everything else keeps its opcode and payload. */
  predicate Understood(r: Raw, utf8: seq<byte> -> bool) {
    || r.opcode in {0x0, 0x2, 0x9, 0xA}
    || (r.opcode == 0x8
        && (r.payload != [] ==> |r.payload| >= 2 && !ForbiddenCode(Word16(r.payload, 0)) && utf8(r.payload[2..])))
  }

  lemma FramesUnderstood(role: Role, max: nat, utf8: seq<byte> -> bool, b: seq<byte>)
    ensures ReadFrame(role, max, utf8, b).Got? <==>
      ReadRaw(role, max, b).Got? && Understood(ReadRaw(role, max, b).value, utf8)
    ensures ReadFrame(role, max, utf8, b).Got? ==>
      var r, f := ReadRaw(role, max, b).value, ReadFrame(role, max, utf8, b).value;
      && ReadFrame(role, max, utf8, b).rest == ReadRaw(role, max, b).rest
      && OpcodeOf(f) == r.opcode
      && (!f.Pong? ==> f.payload == r.payload)
      && (f.Data? ==> r.final) && (f.DataStart? ==> !r.final) && (f.Continuation? ==> f.final == r.final)
  {
    hide ReadRaw, Classify, Understood;
    if ReadRaw(role, max, b).Got? {
      ClassifyUnderstands(ReadRaw(role, max, b).value, utf8);
    }
  }

  lemma ClassifyUnderstands(r: Raw, utf8: seq<byte> -> bool)
    ensures Classify(r, utf8).Got? <==> Understood(r, utf8)
    ensures Classify(r, utf8).Got? ==>
      var f := Classify(r, utf8).value;
      && OpcodeOf(f) == r.opcode
      && (!f.Pong? ==> f.payload == r.payload)
      && (f.Data? ==> r.final) && (f.DataStart? ==> !r.final) && (f.Continuation? ==> f.final == r.final)
  {
    if |r.payload| >= 2 {
      TwoBytes(r.payload);
    }
  }
}
