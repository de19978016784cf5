/** What every poll of one stream conserves: credit, advertised window and byte order. */
module Accounting {
  import opened Prelude
  import opened Frames
  import opened Streams

  // ------------------------------------------------------ measures of frame lists

  function DataLength(f: Frame): nat {
    if f.header.ty == Data then f.header.length else 0
  }

  function CreditOf(f: Frame): nat {
    if f.header.ty == WindowUpdate then f.header.length else 0
  }

  function BodyOf(f: Frame): seq<byte> {
    if f.header.ty == Data && f.body.Some? then f.body.value else []
  }

  function DataBytes(fs: seq<Frame>): nat {
    if fs == [] then 0 else DataLength(fs[0]) + DataBytes(fs[1..])
  }

  function Credit(fs: seq<Frame>): nat {
    if fs == [] then 0 else CreditOf(fs[0]) + Credit(fs[1..])
  }

  function Payload(fs: seq<Frame>): seq<byte> {
    if fs == [] then [] else BodyOf(fs[0]) + Payload(fs[1..])
  }

  lemma {:induction false} MeasuresConcat(a: seq<Frame>, b: seq<Frame>)
    ensures DataBytes(a + b) == DataBytes(a) + DataBytes(b)
    ensures Credit(a + b) == Credit(a) + Credit(b)
    ensures Payload(a + b) == Payload(a) + Payload(b)
  {
    if a == [] {
      ConcatEmpty(b);
      ConcatEmpty(Payload(b));
    } else {
      ConcatTail(a, b);
      MeasuresConcat(a[1..], b);
      ConcatAssoc(BodyOf(a[0]), Payload(a[1..]), Payload(b));
    }
  }

  lemma MeasuresOne(f: Frame)
    ensures DataBytes([f]) == DataLength(f)
    ensures Credit([f]) == CreditOf(f)
    ensures Payload([f]) == BodyOf(f)
  {
    assert [f][1..] == [];
    ConcatEmpty(BodyOf(f));
  }

  lemma MeasuresSnoc(a: seq<Frame>, f: Frame)
    ensures DataBytes(a + [f]) == DataBytes(a) + DataLength(f)
    ensures Credit(a + [f]) == Credit(a) + CreditOf(f)
    ensures Payload(a + [f]) == Payload(a) + BodyOf(f)
  {
    MeasuresConcat(a, [f]);
    MeasuresOne(f);
  }

  /** The frames among a list of events, in order. */
  function FramesOf(events: seq<StreamEvent>): seq<Frame> {
    if events == [] then []
    else (if events[0].SendFrame? then [events[0].frame] else []) + FramesOf(events[1..])
  }

  lemma {:induction false} FramesOfConcat(a: seq<StreamEvent>, b: seq<StreamEvent>)
    ensures FramesOf(a + b) == FramesOf(a) + FramesOf(b)
  {
    if a == [] {
      ConcatEmpty(b);
      ConcatEmpty(FramesOf(b));
    } else {
      ConcatTail(a, b);
      FramesOfConcat(a[1..], b);
      ConcatAssoc(if a[0].SendFrame? then [a[0].frame] else [], FramesOf(a[1..]), FramesOf(b));
    }
  }

  lemma FramesOfOne(e: StreamEvent)
    ensures FramesOf([e]) == if e.SendFrame? then [e.frame] else []
  {
    assert [e][1..] == [];
  }

  // ------------------------------------------------------- measures of a stream

  /** Frames a conforming peer puts into a stream's channel. */
  predicate StreamFrame(f: Frame) {
    && WellFormed(f)
    && (f.header.ty == Data || f.header.ty == WindowUpdate)
    && (f.header.flags.rst ==> f.header.ty == WindowUpdate)
  }

  predicate StreamFrames(fs: seq<Frame>) {
    forall i | 0 <= i < |fs| :: StreamFrame(fs[i])
  }

  predicate NoEmptyChunk(chunks: seq<seq<byte>>) {
    forall i | 0 <= i < |chunks| :: chunks[i] != []
  }

  /** Credit the stream may still spend once its queued window updates are applied. */
  function SendTotal(s: Stream): nat {
    s.sendWindow as nat + Credit(s.inbox.queue)
  }

  /** Receive window left once its queued data is accepted. */
  function RecvTotal(s: Stream): int {
    s.recvWindow as int - DataBytes(s.inbox.queue)
  }

  /** Bytes received and not yet read, in order. */
  function Unread(s: Stream): seq<byte> {
    Flatten(s.readBuf) + Payload(s.inbox.queue)
  }

  /** Receive credit that has been freed by the reader and not yet advertised. */
  function Gap(s: Stream): int {
    s.maxRecvWindow as int - |Flatten(s.readBuf)| - s.recvWindow as int
  }

  predicate Accepting(s: Stream) {
    !StopsReading(s.state)
  }

  /** The part of a stream's health that is local bookkeeping, whatever the peer does. */
  ghost predicate WellKept(s: Stream) {
    && NoEmptyChunk(s.readBuf)
    && 0 <= Gap(s)
    && (Accepting(s) ==> 2 * Gap(s) < s.maxRecvWindow)
  }

  /** What the peer's conformance and the local bookkeeping guarantee between polls. */
  ghost predicate Safe(s: Stream) {
    && StreamFrames(s.inbox.queue)
    && NoEmptyChunk(s.readBuf)
    && 0 <= RecvTotal(s)
    && SendTotal(s) <= U32_MAX
    && 0 <= Gap(s)
  }

  ghost predicate Healthy(s: Stream) {
    && Safe(s)
    && (Accepting(s) ==> 2 * Gap(s) < s.maxRecvWindow)
  }

  /** The opening flag has been sent. */
  predicate Underway(state: StreamState) {
    state != Init && state != SynReceived
  }

  /** Frames a stream may emit: its own, and without SYN once it is under way. */
  predicate Emitted(sent: seq<Frame>, id: StreamId, underway: bool) {
    forall i | 0 <= i < |sent| ::
      && StreamFrame(sent[i])
      && sent[i].header.streamId == id
      && (underway ==> !sent[i].header.flags.syn)
  }

  /** Bookkeeping of one step: `sent` frames left, `taken` bytes were read, `given` were written. */
  ghost predicate Balanced(s: Stream, t: Stream, sent: seq<Frame>, taken: seq<byte>, given: seq<byte>) {
    && SendTotal(t) + |given| == SendTotal(s)
    && RecvTotal(t) == RecvTotal(s) + Credit(sent)
    && Unread(s) == taken + Unread(t)
    && DataBytes(sent) == |given|
    && Payload(sent) == given
    && t.id == s.id
    && t.maxRecvWindow == s.maxRecvWindow
    && t.inbox.closed == s.inbox.closed
    && Emitted(sent, s.id, Underway(s.state))
    && (Underway(s.state) ==> Underway(t.state))
  }

  lemma BalancedTrans(s: Stream, t: Stream, u: Stream, f: seq<Frame>, g: seq<Frame>, a: seq<byte>, b: seq<byte>)
    requires Balanced(s, t, f, [], [])
    requires Balanced(t, u, g, a, b)
    ensures Balanced(s, u, f + g, a, b)
  {
    hide SendTotal, RecvTotal, Unread, Emitted, DataBytes, Credit, Payload;
    MeasuresConcat(f, g);
    EmittedConcat(f, g, s.id, Underway(s.state), Underway(t.state));
    ConcatEmpty(Unread(t));
    ConcatEmpty(b);
  }

  lemma EmittedConcat(f: seq<Frame>, g: seq<Frame>, id: StreamId, first: bool, second: bool)
    requires Emitted(f, id, first) && Emitted(g, id, second) && (first ==> second)
    ensures Emitted(f + g, id, first)
  {}

  // ------------------------------------------------------------------- draining

  lemma HandleFrameBalanced(s: Stream, f: Frame, q: seq<Frame>)
    requires s.inbox.queue == [f] + q
    requires Safe(s)
    requires !StopsReading(s.state)
    ensures var r := HandleFrame(WithQueue(s, q), f);
      && r.error.None?
      && Safe(r.s)
      && Balanced(s, r.s, [], [], [])
      && (Accepting(r.s) ==> Gap(r.s) == Gap(s))
      && Gap(s) <= Gap(r.s)
  {
    assert s.inbox.queue[0] == f && s.inbox.queue[1..] == q;
    assert StreamFrame(s.inbox.queue[0]);
    var r := HandleFrame(WithQueue(s, q), f);
    ConcatEmpty(Unread(s));
    ConcatEmpty(Unread(r.s));
    if f.header.ty == WindowUpdate {
      assert BodyOf(f) == [];
      ConcatEmpty(Payload(q));
    } else if f.header.length > 0 && r.s.state != Reset {
      FlattenSnoc(s.readBuf, f.body.value);
      ConcatAssoc(Flatten(s.readBuf), f.body.value, Payload(q));
    } else {
      assert BodyOf(f) == [];
      ConcatEmpty(Payload(q));
    }
  }

  /** A drain between conforming peers meets no protocol error and moves nothing but the
      boundary between what is queued and what is accounted. */
  lemma {:induction false} DrainBalanced(s: Stream)
    requires Safe(s)
    ensures var d := Drain(s);
      && !IsProtocolError(d.error)
      && Safe(d.s)
      && Balanced(s, d.s, [], [], [])
      && (Accepting(d.s) ==> Accepting(s) && Gap(d.s) == Gap(s))
      && (d.error.None? ==> d.s.inbox.queue == [])
    decreases |s.inbox.queue|
  {
    if !StopsReading(s.state) && !s.inbox.terminated && s.inbox.queue != [] {
      var q := s.inbox.queue;
      assert q == [q[0]] + q[1..];
      HandleFrameBalanced(s, q[0], q[1..]);
      HandleFrameKeeps(WithQueue(s, q[1..]), q[0]);
      var r := HandleFrame(WithQueue(s, q[1..]), q[0]);
      hide HandleFrame;
      hide Balanced;
      DrainBalanced(r.s);
      BalancedTrans(s, r.s, Drain(r.s).s, [], [], [], []);
    } else {
      BalancedIdle(s, Drain(s).s);
    }
  }

  lemma BalancedIdle(s: Stream, t: Stream)
    requires t.sendWindow == s.sendWindow && t.recvWindow == s.recvWindow && t.readBuf == s.readBuf
    requires t.inbox.queue == s.inbox.queue && t.inbox.closed == s.inbox.closed
    requires t.id == s.id && t.maxRecvWindow == s.maxRecvWindow
    requires Underway(s.state) ==> Underway(t.state)
    ensures Balanced(s, t, [], [], [])
    ensures Gap(t) == Gap(s)
    ensures Safe(s) ==> Safe(t)
  {
    ConcatEmpty(Unread(s));
  }

  // -------------------------------------------------------------------- reading

  /** The copy loop is a take on the flattened buffer, and never leaves an empty chunk behind. */
  lemma {:induction false} CopyOutIsTake(chunks: seq<seq<byte>>, room: nat)
    requires NoEmptyChunk(chunks)
    ensures var (bytes, rest) := CopyOut(chunks, room);
      && bytes + Flatten(rest) == Flatten(chunks)
      && |bytes| == Min(room, |Flatten(chunks)|)
      && NoEmptyChunk(rest)
  {
    if chunks == [] || room == 0 {
      ConcatEmpty(Flatten(chunks));
    } else if |chunks[0]| <= room {
      CopyOutIsTake(chunks[1..], room - |chunks[0]|);
      var (bytes, rest) := CopyOut(chunks[1..], room - |chunks[0]|);
      ConcatAssoc(chunks[0], bytes, Flatten(rest));
    } else {
      var head := chunks[0][room..];
      assert ([head] + chunks[1..])[1..] == chunks[1..];
      assert chunks[0] == chunks[0][..room] + head;
      ConcatAssoc(chunks[0][..room], head, Flatten(chunks[1..]));
    }
  }

  lemma SendWindowUpdateBalanced(s: Stream)
    requires Safe(s)
    ensures var u := SendWindowUpdate(s, true);
      && u.error.None?
      && Safe(u.s)
      && (0 < s.maxRecvWindow ==> 2 * Gap(u.s) < s.maxRecvWindow)
      && Balanced(s, u.s, FramesOf(u.events), [], [])
      && u.s.state == Opened(s.state)
  {
    var u := SendWindowUpdate(s, true);
    ConcatEmpty(Unread(s));
    if u.events != [] {
      FramesOfOne(u.events[0]);
      MeasuresOne(u.events[0].frame);
    }
  }

  lemma ReadBufferBalanced(s: Stream, room: nat)
    requires Safe(s)
    ensures var (bytes, rest) := CopyOut(s.readBuf, room);
      var t := s.(readBuf := rest);
      Safe(t) && Balanced(s, t, [], bytes, [])
  {
    CopyOutIsTake(s.readBuf, room);
    var (bytes, rest) := CopyOut(s.readBuf, room);
    ConcatAssoc(bytes, Flatten(rest), Payload(s.inbox.queue));
  }

  lemma BalancedRead(s: Stream, t: Stream, u: Stream, a: seq<byte>, g: seq<Frame>)
    requires Balanced(s, t, [], a, [])
    requires Balanced(t, u, g, [], [])
    ensures Balanced(s, u, g, a, [])
  {
    hide SendTotal, RecvTotal, Unread;
    ConcatEmpty(Unread(u));
  }

  lemma DeliverBalanced(s: Stream, room: nat)
    requires Safe(s) && 0 < s.maxRecvWindow
    ensures var r := Deliver(s, room, true);
      && r.outcome == Ready
      && Healthy(r.s)
      && Balanced(s, r.s, FramesOf(r.events), r.bytes, [])
      && SendGoAway !in r.events
  {
    var (bytes, rest) := CopyOut(s.readBuf, room);
    var t := s.(readBuf := rest);
    ReadBufferBalanced(s, room);
    if !StopsReading(s.state) {
      SendWindowUpdateBalanced(t);
      var u := SendWindowUpdate(t, true);
      BalancedRead(s, t, u.s, bytes, FramesOf(u.events));
    }
  }

  lemma DrainBlockingBalanced(s: Stream, t: Task)
    requires Healthy(s)
    ensures var d := DrainBlocking(s.(readWake := Some(t)), t);
      && !IsProtocolError(d.error)
      && Healthy(d.s)
      && Balanced(s, d.s, [], [], [])
  {
    var s1 := s.(readWake := Some(t));
    BalancedIdle(s, s1);
    DrainBalanced(s1);
    var d := Drain(s1).s;
    var e := DrainBlocking(s1, t).s;
    hide Drain;
    BalancedIdle(d, e);
    hide Balanced;
    BalancedTrans(s, s1, d, [], [], [], []);
    BalancedTrans(s, d, e, [], [], [], []);
    ConcatEmpty<Frame>([]);
  }

  /** The drain of a read or peek, up to the point where bytes are copied. */
  lemma AwaitBytesBalanced(s: Stream, t: Task)
    requires Healthy(s)
    ensures match AwaitBytes(s, t, true)
      case Settled(r) =>
        && r.outcome != Failed(InvalidData) && r.outcome != Failed(BrokenPipe)
        && r.bytes == [] && r.events == []
        && Healthy(r.s) && Balanced(s, r.s, [], [], [])
      case Serve(d, _) =>
        && Healthy(d) && Balanced(s, d, [], [], [])
  {
    hide Balanced, Healthy, DrainBlocking;
    BalancedIdle(s, s);
    DrainBlockingBalanced(s, t);
  }

  /** No poll between conforming peers reports a protocol error, and each one balances. */
  lemma PollReadBalanced(s: Stream, t: Task, room: nat)
    requires Healthy(s) && 0 < s.maxRecvWindow
    ensures var r := PollRead(s, t, room, true);
      && r.outcome != Failed(InvalidData) && r.outcome != Failed(BrokenPipe)
      && Healthy(r.s)
      && Balanced(s, r.s, FramesOf(r.events), r.bytes, [])
      && SendGoAway !in r.events
  {
    hide Drain, Balanced, Deliver, Healthy;
    AwaitBytesBalanced(s, t);
    var b := AwaitBytes(s, t, true);
    hide AwaitBytes;
    if b.Serve? {
      HealthyIsSafe(b.s);
      BalancedKeepsMax(s, b.s);
      DeliverBalanced(b.s, room);
      var r := Deliver(b.s, room, true);
      BalancedTrans(s, b.s, r.s, [], FramesOf(r.events), r.bytes, []);
      ConcatEmpty(FramesOf(r.events));
    }
  }

  lemma HealthyIsSafe(s: Stream)
    requires Healthy(s)
    ensures Safe(s)
  {}

  lemma BalancedKeepsMax(s: Stream, t: Stream)
    requires Balanced(s, t, [], [], [])
    ensures t.maxRecvWindow == s.maxRecvWindow
  {}

  /** Peeking returns what a read of the same size would return, and consumes nothing. */
  lemma PeekIsReadWithoutConsuming(s: Stream, t: Task, room: nat)
    requires Healthy(s) && 0 < s.maxRecvWindow
    ensures var p := PollPeek(s, t, room, true);
      var r := PollRead(s, t, room, true);
      && p.bytes == r.bytes && p.outcome == r.outcome
      && p.events == []
      && Healthy(p.s) && Balanced(s, p.s, [], [], [])
  {
    hide Drain, Balanced, Healthy;
    AwaitBytesBalanced(s, t);
    var b := AwaitBytes(s, t, true);
    hide AwaitBytes;
    if b.Serve? {
      HealthyIsSafe(b.s);
      BalancedKeepsMax(s, b.s);
      DeliverBalanced(b.s, room);
    }
  }

  // -------------------------------------------------------------------- writing

  lemma WriteDrainBalanced(s: Stream, blocking: Option<Task>)
    requires Healthy(s)
    ensures var r := WriteDrain(s, blocking, true);
      && r.events == [] && r.bytes == []
      && Healthy(r.s)
      && Balanced(s, r.s, [], [], [])
      && (r.outcome.Failed? <==> RefusesWrites(r.s.state))
      && r.outcome != Pending
  {
    DrainBalanced(s);
    var d := Drain(s).s;
    var r := WriteDrain(s, blocking, true);
    hide Drain;
    BalancedIdle(d, r.s);
    BalancedTrans(s, d, r.s, [], [], [], []);
    ConcatEmpty<Frame>([]);
  }

  lemma WriteOutBalanced(s: Stream, data: seq<byte>)
    requires Healthy(s)
    ensures var r := WriteOut(s, data, true);
      && r.outcome == Ready
      && Healthy(r.s)
      && Balanced(s, r.s, FramesOf(r.events), [], r.bytes)
      && r.bytes == data[..Min(s.sendWindow, |data|)]
      && |r.events| == 1 && r.events[0].SendFrame?
  {
    var r := WriteOut(s, data, true);
    FramesOfOne(r.events[0]);
    MeasuresOne(r.events[0].frame);
    ConcatEmpty(Unread(s));
  }

  lemma ParkAndRedrainBalanced(s: Stream, t: Task)
    requires Healthy(s)
    ensures var r := ParkAndRedrain(s, t, true);
      && r.events == [] && r.bytes == []
      && Healthy(r.s)
      && Balanced(s, r.s, [], [], [])
      && (r.outcome == Pending ==> r.s.sendWindow == 0)
      && (r.outcome == Ready ==> !RefusesWrites(r.s.state))
  {
    hide WriteDrain, Balanced, Gap, Safe;
    var parked := s.(writeWake := Some(t));
    BalancedIdle(s, parked);
    var blocking := if s.readWake == Some(t) || s.readWake.None? then Some(t) else None;
    WriteDrainBalanced(parked, blocking);
    var second := WriteDrain(parked, blocking, true);
    var r := ParkAndRedrain(s, t, true);
    BalancedIdle(second.s, r.s);
    ConcatEmpty<Frame>([]);
    BalancedTrans(s, parked, second.s, [], [], [], []);
    BalancedTrans(s, second.s, r.s, [], [], [], []);
  }

  lemma PollWriteBalanced(s: Stream, t: Task, data: seq<byte>)
    requires Healthy(s)
    ensures var r := PollWrite(s, t, data, true);
      && Healthy(r.s)
      && Balanced(s, r.s, FramesOf(r.events), [], r.bytes)
      && SendGoAway !in r.events
      && r.bytes <= data
      && (r.outcome == Pending ==> r.s.sendWindow == 0)
  {
    hide WriteDrain, Balanced, Healthy, ParkAndRedrain, WriteOut;
    var blocking := if s.readWake.Some? then None else Some(t);
    WriteDrainBalanced(s, blocking);
    var first := WriteDrain(s, blocking, true);
    var ready := first;
    if first.outcome == Ready && first.s.sendWindow == 0 {
      ParkAndRedrainBalanced(first.s, t);
      ready := ParkAndRedrain(first.s, t, true);
      BalancedTrans(s, first.s, ready.s, [], [], [], []);
      ConcatEmpty<Frame>([]);
    }
    if ready.outcome == Ready {
      WriteOutBalanced(ready.s, data);
      var r := WriteOut(ready.s, data, true);
      BalancedTrans(s, ready.s, r.s, [], FramesOf(r.events), [], r.bytes);
      ConcatEmpty(FramesOf(r.events));
      ConcatEmpty(r.events);
    }
  }

  // ------------------------------------------------------------ opening, closing

  lemma ShutdownBalanced(s: Stream)
    requires Healthy(s)
    ensures var r := Shutdown(s, true);
      && r.outcome == Ready && r.bytes == []
      && Healthy(r.s)
      && Balanced(s, r.s, FramesOf(r.events), [], [])
      && SendGoAway !in r.events
  {
    hide Gap, Safe, SendTotal, RecvTotal, Unread, Shutdown, FramesOf;
    ShutdownShape(s, true);
    var r := Shutdown(s, true);
    BalancedIdle(s, r.s);
    FinalMeasures(s.id);
    if FramesOf(r.events) != [] {
      var fin := WindowUpdateFrame(NO_FLAGS.(fin := true), s.id, 0);
      hide Balanced, Healthy;
      BalancedWithFinal(s, r.s, fin);
      assert FramesOf(r.events) == [fin];
    }
  }

  /** A frame without payload and credit changes no books. */
  lemma BalancedWithFinal(s: Stream, t: Stream, f: Frame)
    requires Balanced(s, t, [], [], [])
    requires StreamFrame(f) && f.header.streamId == s.id && !f.header.flags.syn
    requires DataBytes([f]) == 0 && Credit([f]) == 0 && Payload([f]) == []
    ensures Balanced(s, t, [f], [], [])
  {
    hide SendTotal, RecvTotal, Unread, DataBytes, Credit, Payload;
    NothingMeasures();
  }

  lemma NothingMeasures()
    ensures DataBytes([]) == 0 && Credit([]) == 0 && Payload([]) == []
  {}

  /** What the two closing events weigh. */
  lemma FinalMeasures(id: StreamId)
    ensures var f := WindowUpdateFrame(NO_FLAGS.(fin := true), id, 0);
      && FramesOf([SendFrame(f), StreamClosed(id)]) == [f] && FramesOf([SendFrame(f)]) == [f]
      && FramesOf([StreamClosed(id)]) == []
      && DataBytes([f]) == 0 && Credit([f]) == 0 && Payload([f]) == []
  {
    var fin, last := SendFrame(WindowUpdateFrame(NO_FLAGS.(fin := true), id, 0)), StreamClosed(id);
    FramesOfOne(fin);
    FramesOfOne(last);
    FramesOfConcat([fin], [last]);
    assert [fin] + [last] == [fin, last];
    MeasuresOne(fin.frame);
  }

  /** The handle and the one event of `create_stream`. */
  lemma CreatedShape(id: StreamId, state: StreamState, max: u32)
    requires INITIAL_STREAM_WINDOW <= max
    requires state == Init || state == SynReceived
    ensures var c := Created(id, state, max);
      var f := WindowUpdateFrame(OpeningFlags(state), id, max - INITIAL_STREAM_WINDOW);
      && c.error.None?
      && c.s == Fresh(id, Opened(state), max).(recvWindow := max)
      && c.events == [SendFrame(f)] && FramesOf(c.events) == [f]
  {
    assert Flatten(Fresh(id, state, max).readBuf) == [];
    FramesOfOne(SendFrame(WindowUpdateFrame(OpeningFlags(state), id, max - INITIAL_STREAM_WINDOW)));
  }

  /** A session-created stream starts healthy: its first frame advertises the whole window. */
  lemma CreatedBalanced(id: StreamId, state: StreamState, max: u32)
    requires INITIAL_STREAM_WINDOW <= max
    requires state == Init || state == SynReceived
    ensures var c := Created(id, state, max);
      && c.error.None?
      && Healthy(c.s) && Gap(c.s) == 0
      && Balanced(Fresh(id, state, max), c.s, FramesOf(c.events), [], [])
      && c.events == [SendFrame(WindowUpdateFrame(OpeningFlags(state), id, max - INITIAL_STREAM_WINDOW))]
  {
    var s := Fresh(id, state, max);
    assert Flatten(s.readBuf) == [];
    SendWindowUpdateBalanced(s);
  }

  // ------------------------------------------------------------------ any action

  predicate ByApplication(a: Action) {
    a.Read? || a.Peek? || a.Write? || a.CloseWrite?
  }

  /** Bytes the action hands to the reader. */
  function Taken(a: Action, r: PollResult): seq<byte> {
    if a.Read? then r.bytes else []
  }

  /** Bytes the action accepts from the writer. */
  function Given(a: Action, r: PollResult): seq<byte> {
    if a.Write? then r.bytes else []
  }

  /** Whatever the application does with a healthy stream, the books balance, the stream stays
      healthy and no protocol error is raised. */
  lemma PollBalanced(s: Stream, a: Action)
    requires Healthy(s) && 0 < s.maxRecvWindow
    requires ByApplication(a)
    ensures var r := Poll(s, a, true);
      && Healthy(r.s)
      && Balanced(s, r.s, FramesOf(r.events), Taken(a, r), Given(a, r))
      && SendGoAway !in r.events
  {
    hide PollRead, PollPeek, PollWrite, Shutdown, Healthy, Balanced;
    match a
    case Read(t, room) => PollReadBalanced(s, t, room);
    case Peek(t, room) => PeekIsReadWithoutConsuming(s, t, room);
    case Write(t, data) => PollWriteBalanced(s, t, data);
    case CloseWrite => ShutdownBalanced(s);
  }

  lemma DropBalanced(s: Stream)
    ensures Balanced(s, s, FramesOf(DropEvents(s, true)), [], [])
    ensures SendGoAway !in DropEvents(s, true)
  {
    hide SendTotal, RecvTotal, Unread;
    ConcatEmpty(Unread(s));
    var last := StreamClosed(s.id);
    FramesOfOne(last);
    var events := DropEvents(s, true);
    if events != [] && events[0].SendFrame? {
      FramesOfOne(events[0]);
      MeasuresOne(events[0].frame);
      FramesOfConcat([events[0]], [last]);
    }
  }
}
