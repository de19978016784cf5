/** One direction of the transport: encoded bytes on their way to the peer's decoder. */
module Wires {
  import opened Prelude
  import opened Frames

  /** Bytes not yet read by the receiver, and the receiver's codec with its read buffer. */
  datatype Wire = Wire(bytes: seq<byte>, codec: Decoder, buffered: seq<byte>)

  function NewWire(max: u32): Wire {
    Wire([], Decoder(None, max), [])
  }

  function SendOn(w: Wire, f: Frame): Wire
    requires WellFormed(f)
  {
    w.(bytes := w.bytes + Encode(f))
  }

  /** The transport hands over any number of the waiting bytes. */
  function FeedOn(w: Wire, n: nat): Wire
    requires n <= |w.bytes|
  {
    w.(bytes := w.bytes[n..], buffered := w.buffered + w.bytes[..n])
  }

  function AfterDecode(w: Wire): Wire {
    var r := DecodeStep(w.codec, w.buffered);
    w.(codec := r.decoder, buffered := r.rest)
  }

  function Stream(w: Wire): seq<byte>
    requires ValidDecoder(w.codec)
  {
    Undecoded(w.codec, w.buffered) + w.bytes
  }

  /** The frames between the sender's queue and the receiver's next decoded frame. */
  function InFlight(w: Wire): seq<Frame>
    requires ValidDecoder(w.codec)
  {
    Parse(Stream(w), w.codec.max).frames
  }

  ghost predicate WireOk(w: Wire, max: u32) {
    && ValidDecoder(w.codec)
    && w.codec.max == max
    && Parse(Stream(w), max).error.None?
    && Parse(Stream(w), max).rest == []
  }

  lemma NewWireOk(max: u32)
    ensures WireOk(NewWire(max), max) && InFlight(NewWire(max)) == []
  {
    assert Stream(NewWire(max)) == [];
  }

  /** A byte wire is a queue of frames: sending appends, however the bytes travel. */
  lemma SendAppends(w: Wire, f: Frame, max: u32)
    requires WireOk(w, max)
    requires WellFormed(f) && FitsFrameLimit(f, max)
    ensures WireOk(SendOn(w, f), max)
    ensures InFlight(SendOn(w, f)) == InFlight(w) + [f]
  {
    hide Undecoded, Encode, Parse;
    ConcatAssoc(Undecoded(w.codec, w.buffered), w.bytes, Encode(f));
    ParseConcat(Stream(w), Encode(f), max);
    ConcatEmpty(Encode(f));
    ParseOne(f, max);
  }

  lemma ParseOne(f: Frame, max: u32)
    requires WellFormed(f) && FitsFrameLimit(f, max)
    ensures Parse(Encode(f), max) == Parsed([f], [], None)
  {
    hide Encode;
    ParseEncoded(f, [], max);
    ConcatEmpty(Encode(f));
    ConcatEmpty([f]);
    assert Parse([], max) == Parsed([], [], None);
  }

  lemma FeedMovesNothing(w: Wire, n: nat, max: u32)
    requires WireOk(w, max) && n <= |w.bytes|
    ensures WireOk(FeedOn(w, n), max)
    ensures InFlight(FeedOn(w, n)) == InFlight(w)
  {
    hide Parse;
    UndecodedMore(w.codec, w.buffered, w.bytes[..n]);
    hide Undecoded;
    assert w.bytes == w.bytes[..n] + w.bytes[n..];
    ConcatAssoc(Undecoded(w.codec, w.buffered), w.bytes[..n], w.bytes[n..]);
  }

  /** Decoding takes the oldest frame off the queue, or waits; it never fails. */
  lemma DecodePops(w: Wire, max: u32)
    requires WireOk(w, max)
    ensures var out := DecodeStep(w.codec, w.buffered).outcome;
      var w' := AfterDecode(w);
      && WireOk(w', max)
      && !out.Fail?
      && (out.NeedMore? ==> InFlight(w') == InFlight(w))
      && (out.Item? ==> InFlight(w) == [out.frame] + InFlight(w') && WellFormed(out.frame))
  {
    hide DecodeStep, Undecoded, Encode, FirstFrame;
    DecodeStepIsFirst(w.codec, w.buffered);
    var r := DecodeStep(w.codec, w.buffered);
    var u := Undecoded(w.codec, w.buffered);
    if r.outcome.Fail? {
      FirstStable(u, w.bytes, max);
    } else if r.outcome.Item? {
      var u' := Undecoded(r.decoder, r.rest);
      ConcatAssoc(Encode(r.outcome.frame), u', w.bytes);
      ParseEncoded(r.outcome.frame, u' + w.bytes, max);
    }
  }
}
