/** The two pumps of the WebSocket carrier: message reassembly on the reading side, chunking on the
    writing side, and the byte stream they carry together
    (crates/espejismo-core/src/underlay.rs, `spawn_websocket_io`). */
module Pumps {
  import opened Prelude
  import opened WebSocket

  /** The reader pump between frames: the partial message, what the application has been given,
      the control frames written back, and whether the pump has ended. */
  datatype Pump = Pump(partial: Option<seq<byte>>, app: seq<byte>, replies: seq<WsReply>, ended: bool)

  datatype WsReply = PongReply(payload: seq<byte>) | CloseReply(payload: seq<byte>)

  const START := Pump(None, [], [], false)

  function PumpStep(p: Pump, limit: nat, f: WsFrame): Pump {
    if p.ended then p
    else
      match f
      case Data(payload) =>
        if p.partial.Some? then p.(ended := true) else p.(app := p.app + payload)
      case DataStart(payload) =>
        if p.partial.Some? || |payload| > limit then p.(ended := true) else p.(partial := Some(payload))
      case Continuation(payload, final) =>
        if p.partial.None? || |p.partial.value| + |payload| > limit then p.(ended := true)
        else if final then p.(partial := None, app := p.app + (p.partial.value + payload))
        else p.(partial := Some(p.partial.value + payload))
      case Ping(payload) => p.(replies := p.replies + [PongReply(payload)])
      case Close(payload) => p.(replies := p.replies + [CloseReply(payload)], ended := true)
      case Pong => p
  }

  function PumpAll(p: Pump, limit: nat, fs: seq<WsFrame>): Pump
    decreases |fs|
  {
    if fs == [] then p else PumpAll(PumpStep(p, limit, fs[0]), limit, fs[1..])
  }

  /** Reference: the data frames of a frame sequence, without interleaved pings and pongs. */
  function WithoutPings(fs: seq<WsFrame>): seq<WsFrame> {
    if fs == [] then []
    else (if fs[0].Ping? || fs[0].Pong? then [] else [fs[0]]) + WithoutPings(fs[1..])
  }

  /** Reference: the number of frames of the message begun by `fs[0]`, if it is there in full and
      stays within the limit. */
  function MessageEnd(fs: seq<WsFrame>, size: nat, limit: nat): Option<nat> {
    if fs == [] || !fs[0].Continuation? || size + |fs[0].payload| > limit then None
    else if fs[0].final then Some(1)
    else
      match MessageEnd(fs[1..], size + |fs[0].payload|, limit)
      case None => None
      case Some(n) => Some(n + 1)
  }

  function Payloads(fs: seq<WsFrame>): seq<byte> {
    if fs == [] then []
    else (if fs[0].Pong? then [] else fs[0].payload) + Payloads(fs[1..])
  }

  /** Reference: the complete messages before the first illegal frame, split off one by one. */
  function Messages(fs: seq<WsFrame>, limit: nat): seq<seq<byte>>
    decreases |fs|
  {
    if fs == [] then []
    else if fs[0].Data? then [fs[0].payload] + Messages(fs[1..], limit)
    else if fs[0].DataStart? && |fs[0].payload| <= limit then
      match MessageEnd(fs[1..], |fs[0].payload|, limit)
      case None => []
      case Some(n) =>
        if n < |fs| then [Payloads(fs[..n + 1])] + Messages(fs[n + 1..], limit) else []
    else []
  }

  predicate Bounded(p: Pump, limit: nat) {
    p.partial.Some? ==> |p.partial.value| <= limit
  }

  lemma {:induction false} EndedStays(p: Pump, limit: nat, fs: seq<WsFrame>)
    requires p.ended
    ensures PumpAll(p, limit, fs) == p
    decreases |fs|
  {
    if fs != [] {
      EndedStays(p, limit, fs[1..]);
    }
  }

  /** Pings and pongs change nothing about the data. */
  lemma {:induction false} PingsAreInvisible(p: Pump, q: Pump, limit: nat, fs: seq<WsFrame>)
    requires q == p.(replies := q.replies)
    ensures var a := PumpAll(p, limit, fs);
      var b := PumpAll(q, limit, WithoutPings(fs));
      b == a.(replies := b.replies)
    decreases |fs|
  {
    if fs != [] {
      var rest := WithoutPings(fs[1..]);
      if fs[0].Ping? || fs[0].Pong? {
        ConcatEmpty(rest);
        PingsAreInvisible(PumpStep(p, limit, fs[0]), q, limit, fs[1..]);
      } else {
        assert ([fs[0]] + rest)[1..] == rest;
        PingsAreInvisible(PumpStep(p, limit, fs[0]), PumpStep(q, limit, fs[0]), limit, fs[1..]);
      }
    }
  }

  lemma {:induction false} PumpConcat(p: Pump, limit: nat, a: seq<WsFrame>, b: seq<WsFrame>)
    ensures PumpAll(p, limit, a + b) == PumpAll(PumpAll(p, limit, a), limit, b)
    decreases |a|
  {
    if a == [] {
      ConcatEmpty(b);
    } else {
      ConcatTail(a, b);
      PumpConcat(PumpStep(p, limit, a[0]), limit, a[1..], b);
    }
  }

  predicate NoPings(fs: seq<WsFrame>) {
    forall i | 0 <= i < |fs| :: !fs[i].Ping? && !fs[i].Pong?
  }

  /** Inside a message: the pump completes it exactly when the reference does. */
  lemma {:induction false} PumpMessage(p: Pump, limit: nat, fs: seq<WsFrame>)
    requires !p.ended && p.partial.Some? && Bounded(p, limit)
    requires NoPings(fs)
    ensures match MessageEnd(fs, |p.partial.value|, limit)
      case None => PumpAll(p, limit, fs).app == p.app
      case Some(n) =>
        && 0 < n <= |fs|
        && PumpAll(p, limit, fs[..n]) == p.(partial := None, app := p.app + (p.partial.value + Payloads(fs[..n])))
    decreases |fs|
  {
    if fs != [] {
      var f := fs[0];
      var q := PumpStep(p, limit, f);
      if !f.Continuation? || |p.partial.value| + |f.payload| > limit {
        EndedStays(q, limit, fs[1..]);
      } else if f.final {
        assert fs[..1] == [f];
        assert fs[..1][1..] == [];
        ConcatEmpty(f.payload);
      } else {
        PumpMessage(q, limit, fs[1..]);
        var r := MessageEnd(fs[1..], |q.partial.value|, limit);
        if r.Some? {
          var n := r.value;
          assert fs[..n + 1][1..] == fs[1..][..n];
          ConcatAssoc(p.partial.value, f.payload, Payloads(fs[1..][..n]));
        }
      }
    }
  }

  lemma {:induction false} PumpIsMessages(p: Pump, limit: nat, fs: seq<WsFrame>)
    requires !p.ended && p.partial.None? && NoPings(fs)
    ensures PumpAll(p, limit, fs).app == p.app + Flatten(Messages(fs, limit))
    decreases |fs|
  {
    if fs == [] {
      ConcatEmpty(p.app);
    } else {
      var f := fs[0];
      var q := PumpStep(p, limit, f);
      if f.Data? {
        PumpIsMessages(q, limit, fs[1..]);
        FlattenHead(f.payload, Messages(fs[1..], limit));
        ConcatAssoc(p.app, f.payload, Flatten(Messages(fs[1..], limit)));
      } else if f.DataStart? && |f.payload| <= limit {
        PumpMessage(q, limit, fs[1..]);
        var r := MessageEnd(fs[1..], |f.payload|, limit);
        if r.Some? {
          PumpWholeMessage(p, limit, fs, r.value);
        } else {
          ConcatEmpty(p.app);
        }
      } else {
        EndedStays(q, limit, fs[1..]);
        ConcatEmpty(p.app);
      }
    }
  }

  lemma FlattenHead(x: seq<byte>, xs: seq<seq<byte>>)
    ensures Flatten([x] + xs) == x + Flatten(xs)
  {
    assert ([x] + xs)[1..] == xs;
  }

  lemma {:induction false} PumpWholeMessage(p: Pump, limit: nat, fs: seq<WsFrame>, n: nat)
    requires !p.ended && p.partial.None? && NoPings(fs)
    requires fs != [] && fs[0].DataStart? && |fs[0].payload| <= limit
    requires MessageEnd(fs[1..], |fs[0].payload|, limit) == Some(n)
    requires 0 < n < |fs|
    requires var q := PumpStep(p, limit, fs[0]);
      PumpAll(q, limit, fs[1..][..n]) == q.(partial := None, app := q.app + (fs[0].payload + Payloads(fs[1..][..n])))
    ensures PumpAll(p, limit, fs).app == p.app + Flatten(Messages(fs, limit))
    decreases |fs|, 0
  {
    var q := PumpStep(p, limit, fs[0]);
    var rest := fs[n + 1..];
    var message := Payloads(fs[..n + 1]);
    assert fs[..n + 1][1..] == fs[1..][..n];
    assert fs[1..] == fs[1..][..n] + rest;
    PumpConcat(q, limit, fs[1..][..n], rest);
    var after := PumpAll(q, limit, fs[1..][..n]);
    PumpIsMessages(after, limit, rest);
    FlattenHead(message, Messages(rest, limit));
    ConcatAssoc(p.app, message, Flatten(Messages(rest, limit)));
  }

  lemma {:induction false} WithoutPingsHasNone(fs: seq<WsFrame>)
    ensures NoPings(WithoutPings(fs))
  {
    if fs != [] {
      WithoutPingsHasNone(fs[1..]);
    }
  }

  /** Reassembly: over every frame sequence the application gets exactly the complete messages
      before the first illegal frame, in order; interleaved pings change nothing. */
  lemma ReassemblyDeliversMessages(limit: nat, fs: seq<WsFrame>)
    ensures PumpAll(START, limit, fs).app == Flatten(Messages(WithoutPings(fs), limit))
  {
    PingsAreInvisible(START, START, limit, fs);
    WithoutPingsHasNone(fs);
    PumpIsMessages(START, limit, WithoutPings(fs));
    ConcatEmpty(Flatten(Messages(WithoutPings(fs), limit)));
  }

  /** The partial buffer never exceeds the limit, and ending the pump never releases it. */
  lemma {:induction false} PartialStaysBounded(p: Pump, limit: nat, fs: seq<WsFrame>)
    requires Bounded(p, limit)
    ensures Bounded(PumpAll(p, limit, fs), limit)
    decreases |fs|
  {
    if fs != [] {
      PartialStaysBounded(PumpStep(p, limit, fs[0]), limit, fs[1..]);
    }
  }

  /** Reference: one answer for each ping, and one for a close. */
  function Answers(fs: seq<WsFrame>): seq<WsReply> {
    if fs == [] then []
    else
      (if fs[0].Ping? then [PongReply(fs[0].payload)]
       else if fs[0].Close? then [CloseReply(fs[0].payload)]
       else [])
      + Answers(fs[1..])
  }

  /** Every ping is answered once, in order, with its own payload, until the pump ends. */
  lemma {:induction false} PingsAreAnsweredInOrder(p: Pump, limit: nat, fs: seq<WsFrame>)
    ensures var after := PumpAll(p, limit, fs);
      && after.replies <= p.replies + Answers(fs)
      && p.replies <= after.replies
      && (!after.ended ==> after.replies == p.replies + Answers(fs))
    decreases |fs|
  {
    if fs == [] {
      ConcatEmpty(p.replies);
    } else {
      var q := PumpStep(p, limit, fs[0]);
      var own := Answers(fs)[..|Answers(fs)| - |Answers(fs[1..])|];
      PingsAreAnsweredInOrder(q, limit, fs[1..]);
      if p.ended || q.ended {
        EndedStays(q, limit, fs[1..]);
      } else {
        ConcatAssoc(p.replies, own, Answers(fs[1..]));
        assert q.replies == p.replies + own;
      }
    }
  }

  // ------------------------------------------------------------------- the byte level

  lemma ReadConsumes(role: Role, max: nat, utf8: seq<byte> -> bool, b: seq<byte>)
    ensures var g := ReadFrame(role, max, utf8, b); g.Got? ==> |g.rest| < |b|
  {}

  /** The reader loop on bytes: it ends at the first frame it cannot read. */
  function ReadAll(role: Role, max: nat, utf8: seq<byte> -> bool, p: Pump, b: seq<byte>): Pump
    decreases |b|
  {
    if p.ended then p
    else
      ReadConsumes(role, max, utf8, b);
      match ReadFrame(role, max, utf8, b)
      case Refused(_) => p.(ended := true)
      case Got(f, rest) => ReadAll(role, max, utf8, PumpStep(p, max, f), rest)
  }

  const IO_BUFFER := 16_384

  /** What one side puts on the wire: chunks read from its application, pongs and a close sent by
      its reader pump, each under the mask drawn for it. */
  datatype Item =
    | Chunk(payload: seq<byte>, mask: seq<byte>)
    | PongItem(payload: seq<byte>, mask: seq<byte>)
    | CloseItem(payload: seq<byte>, mask: seq<byte>)

  predicate ItemOk(i: Item, max: nat, utf8: seq<byte> -> bool) {
    && |i.mask| == 4
    && |i.payload| <= max
    && (i.Chunk? ==> |i.payload| <= IO_BUFFER)
    && (!i.Chunk? ==> |i.payload| <= 125)
    && (i.CloseItem? ==> ValidClose(i.payload, utf8))
  }

  predicate ItemsOk(items: seq<Item>, max: nat, utf8: seq<byte> -> bool) {
    forall i | 0 <= i < |items| :: ItemOk(items[i], max, utf8)
  }

  function Opcode(i: Item): byte {
    match i
    case Chunk(_, _) => OP_BINARY
    case PongItem(_, _) => OP_PONG
    case CloseItem(_, _) => OP_CLOSE
  }

  function Wire(role: Role, items: seq<Item>): seq<byte>
    requires forall i | 0 <= i < |items| :: |items[i].mask| == 4
  {
    if items == [] then []
    else WriteFrame(role, Opcode(items[0]), items[0].payload, items[0].mask) + Wire(role, items[1..])
  }

  /** What the application wrote before the first close. */
  function Written(items: seq<Item>): seq<byte> {
    if items == [] || items[0].CloseItem? then []
    else (if items[0].Chunk? then items[0].payload else []) + Written(items[1..])
  }

  function FrameOf(i: Item): WsFrame {
    match i
    case Chunk(payload, _) => Data(payload)
    case PongItem(_, _) => Pong
    case CloseItem(payload, _) => Close(payload)
  }

  lemma ItemRoundTrip(role: Role, max: nat, utf8: seq<byte> -> bool, i: Item, tail: seq<byte>)
    requires ItemOk(i, max, utf8)
    ensures ReadFrame(Peer(role), max, utf8, WriteFrame(role, Opcode(i), i.payload, i.mask) + tail) == Got(FrameOf(i), tail)
  {
    hide Print, ReadRaw;
    if i.PongItem? {
      RawRoundTrip(Peer(role), max, Raw(true, OP_PONG, if role == Client then Some(i.mask) else None, i.payload), tail);
    } else {
      WriteThenRead(role, max, utf8, FrameOf(i), i.mask, tail);
    }
  }

  /** The composed pumps: whatever is written by one role and read by the other arrives in order,
      for every choice of masks, chunk sizes and interleaved pongs, up to the first close. */
  lemma {:induction false} PumpsCompose(role: Role, max: nat, utf8: seq<byte> -> bool, p: Pump, items: seq<Item>)
    requires ItemsOk(items, max, utf8)
    requires !p.ended && p.partial.None?
    ensures var after := ReadAll(Peer(role), max, utf8, p, Wire(role, items));
      after.app == p.app + Written(items) && after.partial.None?
    decreases |items|
  {
    hide ReadFrame, WriteFrame;
    if items == [] {
      ConcatEmpty(p.app);
      NothingToRead(Peer(role), max, utf8);
    } else {
      var i := items[0];
      ItemRoundTrip(role, max, utf8, i, Wire(role, items[1..]));
      var q := PumpStep(p, max, FrameOf(i));
      if i.CloseItem? {
        ConcatEmpty(p.app);
      } else {
        PumpsCompose(role, max, utf8, q, items[1..]);
        if i.Chunk? {
          ConcatAssoc(p.app, i.payload, Written(items[1..]));
        } else {
          ConcatEmpty(Written(items[1..]));
        }
      }
    }
  }

  lemma NothingToRead(role: Role, max: nat, utf8: seq<byte> -> bool)
    ensures ReadFrame(role, max, utf8, []).Refused?
  {}

  /** Everything the application wrote, closes or not. */
  function AllChunks(items: seq<Item>): seq<byte> {
    if items == [] then [] else (if items[0].Chunk? then items[0].payload else []) + AllChunks(items[1..])
  }

  predicate HasClose(items: seq<Item>) {
    exists i | 0 <= i < |items| :: items[i].CloseItem?
  }

  /** Something is written behind a close. */
  predicate CloseBeforeChunk(items: seq<Item>) {
    exists i, j | 0 <= i < j < |items| :: items[i].CloseItem? && items[j].Chunk? && items[j].payload != []
  }

  lemma {:induction false} NoBytesIff(items: seq<Item>)
    ensures AllChunks(items) == [] <==> forall j | 0 <= j < |items| && items[j].Chunk? :: items[j].payload == []
  {
    if items != [] {
      NoBytesIff(items[1..]);
      if AllChunks(items) == [] {
        forall j | 0 <= j < |items| && items[j].Chunk?
          ensures items[j].payload == []
        {
          assert j > 0 ==> items[j] == items[1..][j - 1];
        }
      }
    }
  }

  /** What is written before the first close is a prefix of what is written, and all of it exactly when
      nothing is written behind a close. */
  lemma {:induction false} WrittenIsAllIff(items: seq<Item>)
    ensures Written(items) <= AllChunks(items)
    ensures Written(items) == AllChunks(items) <==> !CloseBeforeChunk(items)
  {
    if items != [] {
      var rest := items[1..];
      WrittenIsAllIff(rest);
      if items[0].CloseItem? {
        NoBytesIff(rest);
        ConcatEmpty(AllChunks(rest));
        ChunkBehindClose(items);
      } else {
        var own := if items[0].Chunk? then items[0].payload else [];
        assert (own + AllChunks(rest))[|own|..] == AllChunks(rest) && (own + Written(rest))[|own|..] == Written(rest);
        SameBehindOther(items);
      }
    }
  }

  lemma ChunkBehindClose(items: seq<Item>)
    requires items != [] && items[0].CloseItem?
    ensures CloseBeforeChunk(items) <==> exists j | 0 <= j < |items[1..]| :: items[1..][j].Chunk? && items[1..][j].payload != []
  {
    if i, j :| 0 <= i < j < |items| && items[i].CloseItem? && items[j].Chunk? && items[j].payload != [] {
      assert items[1..][j - 1] == items[j];
    }
    if j :| 0 <= j < |items[1..]| && items[1..][j].Chunk? && items[1..][j].payload != [] {
      assert items[0].CloseItem? && items[j + 1] == items[1..][j];
    }
  }

  lemma SameBehindOther(items: seq<Item>)
    requires items != [] && !items[0].CloseItem?
    ensures CloseBeforeChunk(items) <==> CloseBeforeChunk(items[1..])
  {
    if i, j :| 0 <= i < j < |items| && items[i].CloseItem? && items[j].Chunk? && items[j].payload != [] {
      assert items[1..][i - 1] == items[i] && items[1..][j - 1] == items[j];
    }
    if i, j :| 0 <= i < j < |items[1..]| && items[1..][i].CloseItem? && items[1..][j].Chunk? && items[1..][j].payload != [] {
      assert items[i + 1] == items[1..][i] && items[j + 1] == items[1..][j];
    }
  }

  /** The writer loop: `sizes` says how much each read of the application gives, `masks` what the
      random generator draws; at end of input a close is written. */
  method WriterPump(max: nat, input: seq<byte>, sizes: seq<nat>, masks: nat -> seq<byte>) returns (items: seq<Item>)
    requires max >= 1024
    requires forall k :: |masks(k)| == 4
    ensures Written(items) == input && !CloseBeforeChunk(items)
    ensures forall utf8 :: ItemsOk(items, max, utf8)
    ensures items != [] && items[|items| - 1] == CloseItem([], masks(|items| - 1))
    ensures forall i | 0 <= i < |items| - 1 :: items[i].Chunk? && items[i].payload != []
  {
    var at := 0;
    items := [];
    while at < |input|
      invariant 0 <= at <= |input|
      invariant Written(items) == input[..at]
      invariant forall i | 0 <= i < |items| :: items[i].Chunk? && items[i].payload != []
      invariant forall i | 0 <= i < |items| :: |items[i].mask| == 4 && |items[i].payload| <= Min(IO_BUFFER, max)
    {
      var wanted := if |items| < |sizes| && sizes[|items|] > 0 then sizes[|items|] else 1;
      var n := Min(wanted, Min(Min(IO_BUFFER, max), |input| - at));
      var chunk := Chunk(input[at..at + n], masks(|items|));
      WrittenSnoc(items, chunk);
      assert input[..at] + input[at..at + n] == input[..at + n];
      items := items + [chunk];
      at := at + n;
    }
    assert input[..at] == input;
    WrittenSnoc(items, CloseItem([], masks(|items|)));
    items := items + [CloseItem([], masks(|items|))];
  }

  lemma {:induction false} WrittenSnoc(items: seq<Item>, i: Item)
    requires forall k | 0 <= k < |items| :: items[k].Chunk?
    ensures Written(items + [i]) == if i.Chunk? then Written(items) + i.payload else Written(items)
    decreases |items|
  {
    if items == [] {
      assert items + [i] == [i];
      ConcatEmpty(i.payload);
    } else {
      ConcatTail(items, [i]);
      WrittenSnoc(items[1..], i);
      if i.Chunk? {
        ConcatAssoc(items[0].payload, Written(items[1..]), i.payload);
      }
    }
  }

  /** Byte-stream identity: whatever one side puts on the wire, cut into chunks in any way, masked with
      any keys, with pongs and closes anywhere, the other application gets a prefix of what was
      written, and all of it if and only if nothing is written behind a close. */
  lemma ByteStreamIdentityIff(role: Role, max: nat, utf8: seq<byte> -> bool, sent: seq<Item>)
    requires ItemsOk(sent, max, utf8)
    ensures var app := ReadAll(Peer(role), max, utf8, START, Wire(role, sent)).app;
      app <= AllChunks(sent) && (app == AllChunks(sent) <==> !CloseBeforeChunk(sent))
  {
    hide Wire, ReadAll, CloseBeforeChunk;
    PumpsCompose(role, max, utf8, START, sent);
    WrittenIsAllIff(sent);
    ConcatEmpty(Written(sent));
  }

  /** The byte behind the close never arrives. */
  lemma ChunkBehindCloseIsLost(role: Role, max: nat, utf8: seq<byte> -> bool, mask: seq<byte>)
    requires |mask| == 4 && max >= 1024
    ensures var sent := [CloseItem([], mask), Chunk([7], mask)];
      && ItemsOk(sent, max, utf8)
      && AllChunks(sent) == [7]
      && ReadAll(Peer(role), max, utf8, START, Wire(role, sent)).app == []
  {
    hide Wire, ReadAll;
    var sent := [CloseItem([], mask), Chunk([7], mask)];
    PumpsCompose(role, max, utf8, START, sent);
    assert sent[1..] == [Chunk([7], mask)] && sent[1..][1..] == [];
    assert AllChunks(sent[1..]) == [7] + AllChunks([]);
  }

  // --------------------------------------------------------------------- the object

  /** The reader task: `fragmented_message` and the application half it writes to. */
  class ReaderPump {
    const role: Role
    const max: nat
    var fragmented: Option<seq<byte>>
    var app: seq<byte>
    var replies: seq<WsReply>
    var ended: bool

    function View(): Pump
      reads this
    {
      Pump(fragmented, app, replies, ended)
    }

    constructor (role: Role, maxFrameBytes: nat)
      ensures View() == START && this.role == role && max == Max(maxFrameBytes, 1024)
    {
      this.role := role;
      max := Max(maxFrameBytes, 1024);
      fragmented, app, replies, ended := None, [], [], false;
    }

    method Handle(f: WsFrame)
      requires !ended
      modifies this
      ensures View() == PumpStep(old(View()), max, f)
    {
      match f
      case Data(payload) =>
        if fragmented.Some? {
          ended := true;
        } else {
          app := app + payload;
        }
      case DataStart(payload) =>
        if fragmented.Some? || |payload| > max {
          ended := true;
        } else {
          fragmented := Some(payload);
        }
      case Continuation(payload, final) =>
        if fragmented.None? || |fragmented.value| + |payload| > max {
          ended := true;
        } else {
          fragmented := Some(fragmented.value + payload);
          if final {
            app := app + fragmented.value;
            fragmented := None;
          }
        }
      case Ping(payload) =>
        replies := replies + [PongReply(payload)];
      case Close(payload) =>
        replies := replies + [CloseReply(payload)];
        ended := true;
      case Pong =>
    }

    /** The reader loop over a wire. */
    method Run(utf8: seq<byte> -> bool, wire: seq<byte>)
      modifies this
      ensures ended && View() == ReadAll(role, max, utf8, old(View()), wire)
    {
      var b := wire;
      while !ended
        invariant ReadAll(role, max, utf8, View(), b) == ReadAll(role, max, utf8, old(View()), wire)
        decreases |b|, if ended then 0 else 1
      {
        ReadConsumes(role, max, utf8, b);
        match ReadFrame(role, max, utf8, b)
        case Refused(_) =>
          ended := true;
        case Got(f, rest) =>
          Handle(f);
          b := rest;
      }
    }
  }
}
