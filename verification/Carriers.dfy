/** Both directions of a WebSocket carrier: on each side a writer pump that takes bytes from its
    application and a reader pump that may write replies onto the same wire
    (crates/espejismo-core/src/underlay.rs, `spawn_websocket_io`). */
module Carriers {
  import opened Prelude
  import opened WebSocket
  import opened Pumps

  /** One side. `sent` lists what it has put on the wire, `wrote` the bytes its writer pump has taken
      from the application, `seen` counts the frames its reader pump has taken off the other wire. Once
      the application has ended its output, `shut`, nothing more can be written to the wire. */
  datatype Side = Side(pump: Pump, seen: nat, incoming: seq<byte>, sent: seq<Item>, wrote: seq<byte>, shut: bool)

  datatype Carrier = Carrier(left: Side, right: Side, role: Role, leftMax: nat, rightMax: nat)

  const NEW_SIDE := Side(START, 0, [], [], [], false)

  function Swap(c: Carrier): Carrier {
    Carrier(c.right, c.left, Peer(c.role), c.rightMax, c.leftMax)
  }

  /** Each side's chunks fit the other's limit; both limits have the floor of 1024. */
  predicate Matching(c: Carrier) {
    && c.leftMax >= 1024 && c.rightMax >= 1024
    && Min(IO_BUFFER, c.leftMax) <= c.rightMax && Min(IO_BUFFER, c.rightMax) <= c.leftMax
  }

  // ------------------------------------------------------------------------- steps

  /** Steps of the left side; the right side makes the same ones on the swapped carrier. */
  datatype Step =
    | Send(data: seq<byte>, mask: seq<byte>)   // the writer pump reads some bytes
    | Finish(mask: seq<byte>)                  // the application ends its output
    | Receive(mask: seq<byte>)                 // the reader pump takes a frame

  predicate Enabled(c: Carrier, s: Step, utf8: seq<byte> -> bool) {
    && |s.mask| == 4
    && match s
       case Send(data, _) => !c.left.shut && data != [] && |data| <= Min(IO_BUFFER, c.leftMax)
       case Finish(_) => !c.left.shut
       case Receive(_) => !c.left.pump.ended && ReadFrame(c.role, c.leftMax, utf8, c.left.incoming).Got?
  }

  function Put(c: Carrier, i: Item): Carrier
    requires |i.mask| == 4
  {
    c.(left := c.left.(sent := c.left.sent + [i]),
       right := c.right.(incoming := c.right.incoming + WriteFrame(c.role, Opcode(i), i.payload, i.mask)))
  }

  /** A reply goes onto this side's wire, unless that is shut: then a pong ends the reader and a close
      is simply not sent. */
  function Reply(c: Carrier, f: WsFrame, mask: seq<byte>): Carrier
    requires |mask| == 4
  {
    match f
    case Ping(payload) =>
      if c.left.shut then c.(left := c.left.(pump := c.left.pump.(ended := true))) else Put(c, PongItem(payload, mask))
    case Close(payload) => if c.left.shut then c else Put(c, CloseItem(payload, mask))
    case _ => c
  }

  function Next(c: Carrier, s: Step, utf8: seq<byte> -> bool): Carrier
    requires Enabled(c, s, utf8)
  {
    match s
    case Send(data, mask) => Put(c.(left := c.left.(wrote := c.left.wrote + data)), Chunk(data, mask))
    case Finish(mask) => Put(c.(left := c.left.(shut := true)), CloseItem([], mask))
    case Receive(mask) =>
      var g := ReadFrame(c.role, c.leftMax, utf8, c.left.incoming);
      var l := c.left.(pump := PumpStep(c.left.pump, c.leftMax, g.value), seen := c.left.seen + 1, incoming := g.rest);
      Reply(c.(left := l), g.value, mask)
  }

  // --------------------------------------------------------------------- invariant

  /** What left's reader pump has and has not taken of what right has sent. */
  ghost predicate Reading(c: Carrier, utf8: seq<byte> -> bool) {
    var l, r := c.left, c.right;
    && l.seen <= |r.sent|
    && ItemsOk(r.sent, c.leftMax, utf8)
    && AllChunks(r.sent) == r.wrote
    && l.incoming == Wire(Peer(c.role), r.sent[l.seen..])
    && l.pump.partial.None?
    && l.pump.app == Written(r.sent[..l.seen])
    && (l.pump.ended <==> HasClose(r.sent[..l.seen]))
  }

  /** Right closes on its own account or because left did first; it writes behind its close only in
      the second case. */
  predicate Closing(c: Carrier) {
    && (HasClose(c.right.sent) && !c.right.shut ==> c.left.shut)
    && (CloseBeforeChunk(c.right.sent) ==> c.left.shut)
  }

  ghost predicate Inv(c: Carrier, utf8: seq<byte> -> bool) {
    && Matching(c)
    && Reading(c, utf8) && Reading(Swap(c), utf8)
    && Closing(c) && Closing(Swap(c))
  }

  // ------------------------------------------------------------ items and the wire

  lemma {:induction false} WireConcat(role: Role, a: seq<Item>, b: seq<Item>)
    requires forall i | 0 <= i < |a| :: |a[i].mask| == 4
    requires forall i | 0 <= i < |b| :: |b[i].mask| == 4
    ensures forall i | 0 <= i < |a + b| :: |(a + b)[i].mask| == 4
    ensures Wire(role, a + b) == Wire(role, a) + Wire(role, b)
    decreases |a|
  {
    hide WriteFrame;
    if a == [] {
      ConcatEmpty(b);
      ConcatEmpty(Wire(role, b));
    } else {
      ConcatTail(a, b);
      WireConcat(role, a[1..], b);
      ConcatAssoc(WriteFrame(role, Opcode(a[0]), a[0].payload, a[0].mask), Wire(role, a[1..]), Wire(role, b));
    }
  }

  lemma WireOne(role: Role, i: Item)
    requires |i.mask| == 4
    ensures Wire(role, [i]) == WriteFrame(role, Opcode(i), i.payload, i.mask)
  {
    hide WriteFrame;
    assert [i][1..] == [];
    ConcatEmpty(WriteFrame(role, Opcode(i), i.payload, i.mask));
  }

  lemma {:induction false} AllChunksSnoc(items: seq<Item>, i: Item)
    ensures AllChunks(items + [i]) == AllChunks(items) + if i.Chunk? then i.payload else []
    decreases |items|
  {
    if items == [] {
      assert [] + [i] == [i] && [i][1..] == [];
      ConcatEmpty(if i.Chunk? then i.payload else []);
    } else {
      ConcatTail(items, [i]);
      AllChunksSnoc(items[1..], i);
      ConcatAssoc(if items[0].Chunk? then items[0].payload else [], AllChunks(items[1..]), if i.Chunk? then i.payload else []);
    }
  }

  /** Reading one more item. */
  lemma {:induction false} WrittenNext(items: seq<Item>, n: nat)
    requires n < |items| && !HasClose(items[..n])
    ensures Written(items[..n + 1]) == Written(items[..n]) + if items[n].Chunk? then items[n].payload else []
    decreases n
  {
    if n == 0 {
      assert items[..1] == [items[0]] && items[..1][1..] == [];
      ConcatEmpty(if items[0].Chunk? then items[0].payload else []);
    } else {
      assert items[..n][0] == items[0] && !items[0].CloseItem?;
      NoCloseBehind(items, n);
      WrittenNext(items[1..], n - 1);
      assert items[..n + 1][1..] == items[1..][..n] && items[..n][1..] == items[1..][..n - 1];
      ConcatAssoc(if items[0].Chunk? then items[0].payload else [], Written(items[1..][..n - 1]),
                  if items[n].Chunk? then items[n].payload else []);
    }
  }

  lemma NoCloseBehind(items: seq<Item>, n: nat)
    requires 0 < n <= |items| && !HasClose(items[..n])
    ensures !HasClose(items[1..][..n - 1])
  {
    var rest := items[1..][..n - 1];
    forall i | 0 <= i < |rest|
      ensures !rest[i].CloseItem?
    {
      assert rest[i] == items[..n][i + 1];
    }
  }

  /** Nothing is written behind the first close. */
  lemma {:induction false} WrittenStops(items: seq<Item>, n: nat)
    requires n <= |items| && HasClose(items[..n])
    ensures Written(items[..n]) == Written(items)
    decreases n
  {
    if !items[0].CloseItem? {
      var i :| 0 <= i < n && items[..n][i].CloseItem?;
      assert items[1..][..n - 1][i - 1] == items[i];
      assert items[..n][1..] == items[1..][..n - 1];
      WrittenStops(items[1..], n - 1);
    }
  }

  lemma ClosesSnoc(items: seq<Item>, i: Item)
    ensures HasClose(items + [i]) <==> HasClose(items) || i.CloseItem?
    ensures CloseBeforeChunk(items + [i])
      <==> CloseBeforeChunk(items) || (HasClose(items) && i.Chunk? && i.payload != [])
  {
    var more := items + [i];
    var n := |items|;
    assert more[n] == i;
    assert forall k | 0 <= k < n :: more[k] == items[k];
    if CloseBeforeChunk(items) {
      var a, b :| 0 <= a < b < n && items[a].CloseItem? && items[b].Chunk? && items[b].payload != [];
      assert more[a].CloseItem? && more[b].Chunk? && more[b].payload != [];
    }
    if HasClose(items) && i.Chunk? && i.payload != [] {
      var a :| 0 <= a < n && items[a].CloseItem?;
      assert more[a].CloseItem? && more[n].Chunk? && more[n].payload != [];
    }
  }

  // -------------------------------------------------------------------- every step

  /** An item joins left's wire: what right has still to read grows by it. */
  lemma PutReading(c: Carrier, i: Item, d: Carrier, utf8: seq<byte> -> bool)
    requires Reading(Swap(c), utf8) && ItemOk(i, c.rightMax, utf8)
    requires d == Put(c, i).(left := d.left) && d.left.sent == c.left.sent + [i]
    requires d.left.wrote == c.left.wrote + if i.Chunk? then i.payload else []
    ensures Reading(Swap(d), utf8)
  {
    hide WriteFrame, ItemOk, Wire, Written;
    var sent, n := c.left.sent, c.right.seen;
    assert (sent + [i])[n..] == sent[n..] + [i] && (sent + [i])[..n] == sent[..n];
    assert Peer(Peer(c.role)) == c.role;
    ItemMasks(sent, c.rightMax, utf8);
    ItemMask(i, c.rightMax, utf8);
    WireConcat(c.role, sent[n..], [i]);
    WireOne(c.role, i);
    AllChunksSnoc(sent, i);
  }

  lemma ItemMask(i: Item, max: nat, utf8: seq<byte> -> bool)
    requires ItemOk(i, max, utf8)
    ensures |i.mask| == 4
  {}

  lemma ItemMasks(items: seq<Item>, max: nat, utf8: seq<byte> -> bool)
    requires ItemsOk(items, max, utf8)
    ensures forall i | 0 <= i < |items| :: |items[i].mask| == 4
  {}

  lemma PutClosing(c: Carrier, i: Item, d: Carrier)
    requires Closing(c) && Closing(Swap(c))
    requires d.left.sent == c.left.sent + [i] && d.right.sent == c.right.sent && d.right.shut == c.right.shut
    requires d.left.shut == (c.left.shut || i.CloseItem?) || (d.left.shut == c.left.shut && d.right.shut)
    requires !c.left.shut
    ensures Closing(d) && Closing(Swap(d))
  {
    hide CloseBeforeChunk, HasClose;
    ClosesSnoc(c.left.sent, i);
  }

  /** What a frame taken off the wire is. */
  lemma NextItem(c: Carrier, utf8: seq<byte> -> bool)
    requires Reading(c, utf8) && c.left.seen < |c.right.sent|
    ensures var i := c.right.sent[c.left.seen];
      && ItemOk(i, c.leftMax, utf8)
      && ReadFrame(c.role, c.leftMax, utf8, c.left.incoming)
         == Got(FrameOf(i), Wire(Peer(c.role), c.right.sent[c.left.seen + 1..]))
  {
    hide ReadFrame, WriteFrame, ItemOk;
    var sent, n := c.right.sent, c.left.seen;
    ItemMasks(sent, c.leftMax, utf8);
    assert sent[n..][0] == sent[n] && sent[n..][1..] == sent[n + 1..];
    ItemRoundTrip(Peer(c.role), c.leftMax, utf8, sent[n], Wire(Peer(c.role), sent[n + 1..]));
    assert Peer(Peer(c.role)) == c.role;
  }

  /** The reader is never stuck: as long as it has not ended, whatever is on its wire it can take. */
  lemma ReaderIsNeverStuck(c: Carrier, utf8: seq<byte> -> bool, mask: seq<byte>)
    requires Inv(c, utf8) && !c.left.pump.ended && |mask| == 4
    ensures c.left.incoming != [] <==> Enabled(c, Receive(mask), utf8)
  {
    hide ReadFrame;
    if c.left.seen < |c.right.sent| {
      NextItem(c, utf8);
    }
    NothingToRead(c.role, c.leftMax, utf8);
  }

  lemma TakeReading(c: Carrier, utf8: seq<byte> -> bool)
    requires Reading(c, utf8) && !c.left.pump.ended && c.left.seen < |c.right.sent|
    ensures var f := FrameOf(c.right.sent[c.left.seen]);
      var l := c.left.(pump := PumpStep(c.left.pump, c.leftMax, f), seen := c.left.seen + 1,
                       incoming := Wire(Peer(c.role), c.right.sent[c.left.seen + 1..]));
      Reading(c.(left := l), utf8)
  {
    hide Wire, ItemOk;
    var sent, n := c.right.sent, c.left.seen;
    WrittenNext(sent, n);
    ConcatEmpty(c.left.pump.app);
    assert sent[..n + 1] == sent[..n] + [sent[n]];
    ClosesSnoc(sent[..n], sent[n]);
  }

  lemma SendInv(c: Carrier, data: seq<byte>, mask: seq<byte>, utf8: seq<byte> -> bool)
    requires Inv(c, utf8) && Enabled(c, Send(data, mask), utf8)
    ensures Inv(Next(c, Send(data, mask), utf8), utf8)
  {
    hide Wire, WriteFrame, CloseBeforeChunk, HasClose, ReadFrame;
    var d := Next(c, Send(data, mask), utf8);
    PutReading(c, Chunk(data, mask), d, utf8);
    PutClosing(c, Chunk(data, mask), d);
  }

  lemma FinishInv(c: Carrier, mask: seq<byte>, utf8: seq<byte> -> bool)
    requires Inv(c, utf8) && Enabled(c, Finish(mask), utf8)
    ensures Inv(Next(c, Finish(mask), utf8), utf8)
  {
    hide Wire, WriteFrame, CloseBeforeChunk, HasClose, ReadFrame;
    var d := Next(c, Finish(mask), utf8);
    ConcatEmpty(c.left.wrote);
    PutReading(c, CloseItem([], mask), d, utf8);
    PutClosing(c, CloseItem([], mask), d);
  }

  lemma ReceiveInv(c: Carrier, mask: seq<byte>, utf8: seq<byte> -> bool)
    requires Inv(c, utf8) && Enabled(c, Receive(mask), utf8)
    ensures Inv(Next(c, Receive(mask), utf8), utf8)
  {
    hide ReadFrame, Wire, WriteFrame, CloseBeforeChunk, Written, AllChunks;
    ReaderIsNeverStuck(c, utf8, mask);
    SomethingLeft(c, utf8);
    NextItem(c, utf8);
    TakeReading(c, utf8);
    var i := c.right.sent[c.left.seen];
    var f := FrameOf(i);
    var l := c.left.(pump := PumpStep(c.left.pump, c.leftMax, f), seen := c.left.seen + 1,
                     incoming := Wire(Peer(c.role), c.right.sent[c.left.seen + 1..]));
    var taken := c.(left := l);
    assert Reading(Swap(taken), utf8);
    if i.CloseItem? && !c.left.shut {
      assert HasClose(c.right.sent);
      var reply := CloseItem(i.payload, mask);
      ConcatEmpty(c.left.wrote);
      var d := Put(taken, reply);
      PutReading(taken, reply, d, utf8);
      PutClosing(taken, reply, d);
    }
  }

  lemma SomethingLeft(c: Carrier, utf8: seq<byte> -> bool)
    requires Reading(c, utf8) && c.left.incoming != []
    ensures c.left.seen < |c.right.sent|
  {
    hide WriteFrame;
  }

  lemma StepInv(c: Carrier, s: Step, utf8: seq<byte> -> bool)
    requires Inv(c, utf8) && Enabled(c, s, utf8)
    ensures Inv(Next(c, s, utf8), utf8)
  {
    hide Inv, Next, Enabled;
    match s
    case Send(data, mask) => SendInv(c, data, mask, utf8);
    case Finish(mask) => FinishInv(c, mask, utf8);
    case Receive(mask) => ReceiveInv(c, mask, utf8);
  }

  // -------------------------------------------------------------------- whole runs

  datatype Turn = ByLeft(s: Step) | ByRight(s: Step)

  function Take(c: Carrier, t: Turn, utf8: seq<byte> -> bool): Carrier
    requires Enabled(if t.ByLeft? then c else Swap(c), t.s, utf8)
  {
    if t.ByLeft? then Next(c, t.s, utf8) else Swap(Next(Swap(c), t.s, utf8))
  }

  ghost predicate Runs(c: Carrier, turns: seq<Turn>, end: Carrier, utf8: seq<byte> -> bool)
    decreases |turns|
  {
    if turns == [] then end == c
    else
      && Enabled(if turns[0].ByLeft? then c else Swap(c), turns[0].s, utf8)
      && Runs(Take(c, turns[0], utf8), turns[1..], end, utf8)
  }

  lemma SwapTwice(c: Carrier)
    ensures Swap(Swap(c)) == c
  {}

  lemma InvSwap(c: Carrier, utf8: seq<byte> -> bool)
    requires Inv(c, utf8)
    ensures Inv(Swap(c), utf8)
  {
    SwapTwice(c);
  }

  lemma {:induction false} RunInv(c: Carrier, turns: seq<Turn>, end: Carrier, utf8: seq<byte> -> bool)
    requires Inv(c, utf8) && Runs(c, turns, end, utf8)
    ensures Inv(end, utf8)
    decreases |turns|
  {
    hide Inv, Next, Enabled;
    if turns != [] {
      var t := turns[0];
      if t.ByLeft? {
        StepInv(c, t.s, utf8);
      } else {
        InvSwap(c, utf8);
        StepInv(Swap(c), t.s, utf8);
        InvSwap(Next(Swap(c), t.s, utf8), utf8);
      }
      RunInv(Take(c, t, utf8), turns[1..], end, utf8);
    }
  }

  function NewCarrier(role: Role, leftMax: nat, rightMax: nat): Carrier {
    Carrier(NEW_SIDE, NEW_SIDE, role, leftMax, rightMax)
  }

  lemma NewCarrierInv(role: Role, leftMax: nat, rightMax: nat, utf8: seq<byte> -> bool)
    requires Matching(NewCarrier(role, leftMax, rightMax))
    ensures Inv(NewCarrier(role, leftMax, rightMax), utf8)
  {}

  /** A side has read everything it will ever read of what was sent so far. */
  predicate ReadUp(s: Side) {
    s.pump.ended || s.incoming == []
  }

  lemma SideReads(c: Carrier, utf8: seq<byte> -> bool)
    requires Inv(c, utf8)
    ensures c.left.pump.app <= c.right.wrote
    ensures ReadUp(c.left) ==> (c.left.pump.app == c.right.wrote <==> !CloseBeforeChunk(c.right.sent))
    ensures CloseBeforeChunk(c.right.sent) ==> c.left.shut
  {
    hide CloseBeforeChunk, Wire, Written, AllChunks, ItemOk;
    var sent, n := c.right.sent, c.left.seen;
    WrittenIsAllIff(sent);
    WrittenGrows(sent, n);
    if ReadUp(c.left) {
      ReadUpIsAllWritten(c, utf8);
    }
  }

  lemma ReadUpIsAllWritten(c: Carrier, utf8: seq<byte> -> bool)
    requires Reading(c, utf8) && ReadUp(c.left)
    ensures c.left.pump.app == Written(c.right.sent)
  {
    hide Wire, Written, AllChunks, ItemOk;
    var sent, n := c.right.sent, c.left.seen;
    if c.left.pump.ended {
      WrittenStops(sent, n);
    } else {
      WireIsNotEmpty(Peer(c.role), sent[n..], c.leftMax, utf8);
      assert sent[..n] == sent;
    }
  }

  lemma WireIsNotEmpty(role: Role, items: seq<Item>, max: nat, utf8: seq<byte> -> bool)
    requires ItemsOk(items, max, utf8) && Wire(role, items) == []
    ensures items == []
  {}

  lemma {:induction false} WrittenGrows(items: seq<Item>, n: nat)
    requires n <= |items|
    ensures Written(items[..n]) <= Written(items)
    decreases n
  {
    if n > 0 && !items[0].CloseItem? {
      assert items[..n][1..] == items[1..][..n - 1];
      WrittenGrows(items[1..], n - 1);
    }
  }

  /** Two applications over one carrier, in every run and in both directions: each has read a prefix of
      what the other wrote; once it has read up, it has all of it if and only if the other wrote nothing
      behind a close; and only a side that ended its own output can miss anything. */
  lemma CarriersDeliver(role: Role, leftMax: nat, rightMax: nat, utf8: seq<byte> -> bool, turns: seq<Turn>, end: Carrier, c: Carrier)
    requires Matching(NewCarrier(role, leftMax, rightMax))
    requires Runs(NewCarrier(role, leftMax, rightMax), turns, end, utf8)
    requires c == end || c == Swap(end)
    ensures c.left.pump.app <= c.right.wrote
    ensures ReadUp(c.left) ==> (c.left.pump.app == c.right.wrote <==> !CloseBeforeChunk(c.right.sent))
    ensures ReadUp(c.left) && !c.left.shut ==> c.left.pump.app == c.right.wrote
  {
    hide Inv, CloseBeforeChunk;
    NewCarrierInv(role, leftMax, rightMax, utf8);
    RunInv(NewCarrier(role, leftMax, rightMax), turns, end, utf8);
    InvSwap(end, utf8);
    SideReads(c, utf8);
  }

  /** The loss is real: left ends its output, right's reader replies with a close while right's writer
      goes on, and left's reader stops at that close. */
  lemma HalfCloseLosesBytes(role: Role, max: nat, utf8: seq<byte> -> bool, mask: seq<byte>) returns (end: Carrier)
    requires max >= 1024 && |mask| == 4
    ensures Runs(NewCarrier(role, max, max),
                 [ByLeft(Finish(mask)), ByRight(Receive(mask)), ByRight(Send([7], mask)), ByLeft(Receive(mask))], end, utf8)
    ensures ReadUp(end.left) && end.left.pump.app == [] && end.right.wrote == [7]
  {
    hide ReadFrame, WriteFrame;
    var c0 := NewCarrier(role, max, max);
    var finish, receive, send := Finish(mask), Receive(mask), Send([7], mask);
    var close := CloseItem([], mask);
    var bytes := WriteFrame(role, OP_CLOSE, [], mask);
    var reply := WriteFrame(Peer(role), OP_CLOSE, [], mask);
    var chunk := WriteFrame(Peer(role), OP_BINARY, [7], mask);
    assert Peer(Peer(role)) == role;
    ItemRoundTrip(role, max, utf8, close, []);
    ItemRoundTrip(Peer(role), max, utf8, close, chunk);
    ConcatEmpty(bytes);
    ConcatEmpty(reply);
    var c1 := Take(c0, ByLeft(finish), utf8);
    assert c1.right.incoming == bytes;
    var c2 := Take(c1, ByRight(receive), utf8);
    assert c2.left.incoming == reply && !c2.right.shut;
    var c3 := Take(c2, ByRight(send), utf8);
    assert c3.left.incoming == reply + chunk && c3.right.wrote == [7];
    end := Take(c3, ByLeft(receive), utf8);
    assert end.left.pump.ended && end.left.pump.app == [];
    FourTurns(c0, c1, c2, c3, end, ByLeft(finish), ByRight(receive), ByRight(send), ByLeft(receive), utf8);
  }

  lemma FourTurns(c0: Carrier, c1: Carrier, c2: Carrier, c3: Carrier, c4: Carrier,
                  t0: Turn, t1: Turn, t2: Turn, t3: Turn, utf8: seq<byte> -> bool)
    requires Runs(c0, [t0], c1, utf8) && Runs(c1, [t1], c2, utf8) && Runs(c2, [t2], c3, utf8) && Runs(c3, [t3], c4, utf8)
    ensures Runs(c0, [t0, t1, t2, t3], c4, utf8)
  {
    hide Next, Enabled, Take;
    assert [t0][1..] == [] && [t1][1..] == [] && [t2][1..] == [] && [t3][1..] == [];
    assert [t2, t3][1..] == [t3];
    assert [t1, t2, t3][1..] == [t2, t3];
    assert [t0, t1, t2, t3][1..] == [t1, t2, t3];
    assert Runs(c2, [t2, t3], c4, utf8);
    assert Runs(c1, [t1, t2, t3], c4, utf8);
  }
}
