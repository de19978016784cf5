/** What a poll answers, told from the stream and the frames queued for it before the poll
    (crates/tokio-yamux/src/stream.rs). */
module Answers {
  import opened Prelude
  import opened Frames
  import opened Streams
  import opened Accounting
  import opened Delivery
  import opened WakeUps
  import opened Starvation

  // --------------------------------------------------- where the queued frames lead

  predicate Acknowledged(q: seq<Frame>) {
    q != [] && (q[0].header.flags.ack || Acknowledged(q[1..]))
  }

  /** Reference: the state the queued frames lead to. */
  function StateAhead(s: Stream): StreamState {
    match s.state
    case RemoteClosing | Closed | Reset => s.state
    case _ =>
      if s.inbox.terminated then RemoteClosing
      else
        match EndingOf(s.inbox.queue)
        case ByRst => Reset
        case ByFin => if s.state == LocalClosing then Closed else RemoteClosing
        case StillOpen =>
          if s.inbox.closed then RemoteClosing
          else if s.state == SynSent && Acknowledged(s.inbox.queue) then Established
          else s.state
  }

  /** Reference: the send window with the credit the queued frames add up to the end of the stream. */
  function WindowAhead(s: Stream): nat {
    match s.state
    case RemoteClosing | Closed | Reset => s.sendWindow
    case _ => s.sendWindow as nat + if s.inbox.terminated then 0 else Credit(Seen(s.inbox.queue))
  }

  lemma {:induction false} DrainLandsThere(s: Stream)
    requires !IsProtocolError(Drain(s).error)
    ensures Drain(s).s.state == StateAhead(s)
    ensures Drain(s).s.sendWindow == WindowAhead(s)
    decreases |s.inbox.queue|
  {
    if !StopsReading(s.state) && !s.inbox.terminated && s.inbox.queue != [] {
      var q := s.inbox.queue;
      SeenHead(q);
      var t := WithQueue(s, q[1..]);
      HandleFrameErrs(t, q[0]);
      HandleFrameReference(t, q[0]);
      HandleFrameOpens(t, q[0]);
      var r := HandleFrame(t, q[0]);
      hide HandleFrame, Seen, Credit;
      DrainLandsThere(r.s);
    }
  }

  lemma HandleFrameOpens(s: Stream, f: Frame)
    requires Draining(s) && HandleFrame(s, f).error.None?
    ensures !f.header.flags.fin && !f.header.flags.rst ==>
      HandleFrame(s, f).s.state == if s.state == SynSent && f.header.flags.ack then Established else s.state
  {}

  // ------------------------------------------------------------------------- writing

  /** The flag a stream's first frame carries. */
  function FirstFlag(state: StreamState): Flags {
    match state
    case Init => SYN
    case SynReceived => ACK
    case _ => NO_FLAGS
  }

  /** The answer to a write when the queued frames lead to `state` and `window`. */
  predicate WriteAnswer(id: StreamId, state: StreamState, window: nat, data: seq<byte>, r: PollResult) {
    var refuses := state == LocalClosing || state == Closed || state == Reset;
    var bytes := data[..Min(window, |data|)];
    && (r.outcome.Failed? <==> refuses)
    && (r.outcome.Failed? ==> r.outcome.kind == BrokenPipe)
    && (r.outcome == Pending <==> !refuses && window == 0)
    && (r.outcome != Ready ==> r.bytes == [] && r.events == [] && r.s.sendWindow == window)
    && (r.outcome == Ready ==>
          && r.bytes == bytes && |bytes| <= U32_MAX
          && r.events == [SendFrame(DataFrame(FirstFlag(state), id, bytes))]
          && r.s.sendWindow as nat == window - |bytes|)
  }

  lemma WriteDrainLands(s: Stream, blocking: Option<Task>)
    requires !IsProtocolError(Drain(s).error)
    ensures var d := Drain(s);
      var r := WriteDrain(s, blocking, true);
      && r.s.state == d.s.state && r.s.sendWindow == d.s.sendWindow && r.s.id == d.s.id
      && r.s.inbox.queue == d.s.inbox.queue && r.s.inbox.closed == d.s.inbox.closed
      && r.s.inbox.terminated == d.s.inbox.terminated
      && r.events == [] && r.bytes == []
      && r.outcome == (if RefusesWrites(d.s.state) then Failed(BrokenPipe) else Ready)
  {
    hide Drain;
  }

  lemma WriteOutSends(s: Stream, data: seq<byte>)
    ensures var r := WriteOut(s, data, true);
      var bytes := data[..Min(s.sendWindow, |data|)];
      && r.outcome == Ready && r.bytes == bytes
      && r.events == [SendFrame(DataFrame(FirstFlag(s.state), s.id, bytes))]
      && r.s.sendWindow as nat == s.sendWindow as nat - |bytes|
  {}

  /** A writer that finds nothing left to drain parks. */
  lemma ParkWaits(s: Stream, t: Task)
    requires s.sendWindow == 0
    requires s.state == RemoteClosing || (Flowing(s) && s.inbox.queue == [] && !s.inbox.closed)
    ensures var r := ParkAndRedrain(s, t, true);
      r.outcome == Pending && r.bytes == [] && r.events == [] && r.s.sendWindow == 0
  {
    hide ParkAndRedrain;
    if s.state == RemoteClosing {
      ParkAfterFin(s, t, true);
    } else {
      ParkOnEmpty(s, t, true);
    }
  }

  /** Where a drain stops, there is nothing left to drain. */
  lemma DrainSettles(s: Stream)
    requires !IsProtocolError(Drain(s).error) && !RefusesWrites(Drain(s).s.state)
    ensures var t := Drain(s).s;
      t.state == RemoteClosing || (Flowing(t) && t.inbox.queue == [] && !t.inbox.closed)
  {
    hide Drain;
    DrainWakes(s);
    DrainErrorStops(s);
    DrainStaysOpen(s);
  }

  lemma {:induction false} DrainStaysOpen(s: Stream)
    ensures Drain(s).error.None? ==> !StopsReading(Drain(s).s.state) && !Drain(s).s.inbox.terminated
    decreases |s.inbox.queue|
  {
    if !StopsReading(s.state) && !s.inbox.terminated && s.inbox.queue != [] {
      var q := s.inbox.queue;
      var r := HandleFrame(WithQueue(s, q[1..]), q[0]);
      HandleFrameKeeps(WithQueue(s, q[1..]), q[0]);
      hide HandleFrame;
      if r.error.None? {
        DrainStaysOpen(r.s);
      }
    }
  }

  /** Every write on a live stream between conforming peers. */
  lemma WriteAnswers(s: Stream, t: Task, data: seq<byte>)
    requires Healthy(s)
    ensures WriteAnswer(s.id, StateAhead(s), WindowAhead(s), data, PollWrite(s, t, data, true))
  {
    hide Drain, WriteDrain, ParkAndRedrain, WriteOut, StateAhead, WindowAhead, Healthy, Balanced, Safe;
    HealthyIsSafe(s);
    DrainBalanced(s);
    BalancedKeepsId(s, Drain(s).s);
    DrainLandsThere(s);
    var blocking := if s.readWake.Some? then None else Some(t);
    WriteDrainLands(s, blocking);
    var first := WriteDrain(s, blocking, true);
    if !RefusesWrites(first.s.state) {
      DrainSettles(s);
      if first.s.sendWindow == 0 {
        ParkWaits(first.s, t);
      } else {
        WriteOutSends(first.s, data);
        ConcatEmpty(WriteOut(first.s, data, true).events);
      }
    }
  }

  lemma BalancedKeepsId(s: Stream, t: Stream)
    requires Balanced(s, t, [], [], [])
    ensures t.id == s.id && RecvTotal(t) == RecvTotal(s) && Unread(t) == Unread(s) && t.maxRecvWindow == s.maxRecvWindow
  {
    ConcatEmpty(Unread(t));
  }

  // ------------------------------------------------------------------------- reading

  /** The answer to a read of a stream that goes on: everything unread, up to the room there is. The freed
      credit is announced with the first frame of the stream, and later when it is half a window. */
  predicate ReadAnswer(s: Stream, state: StreamState, room: nat, r: PollResult) {
    var owed := Unread(s);
    var bytes := owed[..Min(room, |owed|)];
    var freed := s.maxRecvWindow as int - (|owed| - |bytes|) - RecvTotal(s);
    && r.bytes == bytes
    && (r.outcome == Pending <==> owed == []) && (r.outcome == Ready <==> owed != [])
    && (owed == [] ==> r.events == [])
    && (owed != [] ==>
          && 0 <= freed <= U32_MAX
          && r.events ==
             if FirstFlag(state) != NO_FLAGS || 2 * freed >= s.maxRecvWindow
             then [SendFrame(WindowUpdateFrame(FirstFlag(state), s.id, freed))]
             else [])
  }

  lemma DeliverSends(s: Stream, room: nat)
    requires Safe(s) && Accepting(s) && s.inbox.queue == []
    ensures var r := Deliver(s, room, true);
      var owed := Flatten(s.readBuf);
      var bytes := owed[..Min(room, |owed|)];
      var freed := s.maxRecvWindow as int - (|owed| - |bytes|) - s.recvWindow as int;
      && r.outcome == Ready && r.bytes == bytes
      && 0 <= freed <= U32_MAX
      && r.events ==
         if FirstFlag(s.state) != NO_FLAGS || 2 * freed >= s.maxRecvWindow
         then [SendFrame(WindowUpdateFrame(FirstFlag(s.state), s.id, freed))]
         else []
  {
    hide CopyOut;
    CopyOutIsTake(s.readBuf, room);
    var (bytes, rest) := CopyOut(s.readBuf, room);
    assert bytes == (bytes + Flatten(rest))[..|bytes|];
  }

  lemma ChunksHoldBytes(chunks: seq<seq<byte>>)
    requires NoEmptyChunk(chunks)
    ensures chunks == [] <==> Flatten(chunks) == []
  {
    if chunks != [] {
      assert chunks[0] != [];
    }
  }

  /** Every read of a live stream that the queued frames leave open. */
  lemma ReadAnswersOpen(s: Stream, t: Task, room: nat)
    requires Healthy(s)
    requires StateAhead(s) != RemoteClosing && StateAhead(s) != Closed && StateAhead(s) != Reset
    ensures ReadAnswer(s, StateAhead(s), room, PollRead(s, t, room, true))
  {
    hide Drain, Deliver, Healthy, Balanced, Safe, StateAhead, Unread, RecvTotal;
    var s1 := s.(readWake := Some(t));
    HealthyIsSafe(s);
    DrainBalanced(s);
    DrainIgnoresReader(s, Some(t));
    BalancedKeepsId(s, Drain(s).s);
    DrainLandsThere(s);
    DrainErrorStops(s);
    OpenAheadIsOpen(s);
    var d := DrainBlocking(s1, t).s;
    assert Drain(s).error.None?;
    OpenMeasures(s, Drain(s).s, d);
    ChunksHoldBytes(d.readBuf);
    if d.readBuf != [] {
      DeliverSends(d, room);
    }
  }

  lemma OpenAheadIsOpen(s: Stream)
    requires StateAhead(s) != RemoteClosing && StateAhead(s) != Closed && StateAhead(s) != Reset
    ensures !StopsReading(s.state)
  {}

  lemma OpenMeasures(s: Stream, u: Stream, d: Stream)
    requires Safe(u) && u.inbox.queue == []
    requires Unread(u) == Unread(s) && RecvTotal(u) == RecvTotal(s)
    requires d == u.(readWake := d.readWake, inbox := u.inbox.(waker := d.inbox.waker))
    ensures Safe(d) && NoEmptyChunk(d.readBuf)
    ensures Unread(s) == Flatten(d.readBuf) && RecvTotal(s) == d.recvWindow
  {
    ConcatEmpty(Flatten(u.readBuf));
  }

  /** A read of a stream that has ended, or is about to, announces nothing. */
  lemma EndedReadsAreSilent(s: Stream, t: Task, room: nat)
    requires Healthy(s)
    requires StateAhead(s) == RemoteClosing || StateAhead(s) == Closed || StateAhead(s) == Reset
    ensures PollRead(s, t, room, true).events == []
  {
    hide Drain, Healthy, Balanced, Safe, StateAhead, CopyOut;
    HealthyIsSafe(s);
    DrainBalanced(s);
    DrainIgnoresReader(s, Some(t));
    DrainLandsThere(s);
  }

  // ----------------------------------------------------------------- waking the reader

  /** The first frame of a queue is handled, and adds to the buffer exactly when it has a body. */
  lemma HeadBuffers(s: Stream)
    requires Safe(s) && s.inbox.queue != [] && !StopsReading(s.state)
    ensures var q := s.inbox.queue;
      var r := HandleFrame(WithQueue(s, q[1..]), q[0]);
      && r.error.None? && Safe(r.s) && r.s.inbox.queue == q[1..]
      && (r.s.state == Reset || |r.s.readBuf| == |s.readBuf| + if BodyOf(q[0]) == [] then 0 else 1)
  {
    var q := s.inbox.queue;
    assert q == [q[0]] + q[1..];
    assert StreamFrame(q[0]);
    HandleFrameBalanced(s, q[0], q[1..]);
    HandleFrameKeeps(WithQueue(s, q[1..]), q[0]);
    hide HandleFrame, Balanced, Safe;
    HandleFrameBuffers(WithQueue(s, q[1..]), q[0]);
  }

  lemma PayloadHead(q: seq<Frame>)
    requires q != []
    ensures Payload(q) != [] <==> BodyOf(q[0]) != [] || Payload(q[1..]) != []
  {
    assert |Payload(q)| == |BodyOf(q[0])| + |Payload(q[1..])|;
  }

  /** A drain that goes on adds to the buffer exactly when there is payload in the queue. */
  lemma {:induction false} BufferGrows(s: Stream)
    requires Safe(s) && Drain(s).error.None?
    ensures |s.readBuf| <= |Drain(s).s.readBuf|
    ensures Drain(s).hasNew && |Drain(s).s.readBuf| != |s.readBuf| <==> Payload(s.inbox.queue) != []
    decreases |s.inbox.queue|
  {
    hide HandleFrame, Safe, Payload;
    var q := s.inbox.queue;
    if q == [] {
      NoPayload();
    } else {
      HeadBuffers(s);
      PayloadHead(q);
      var r := HandleFrame(WithQueue(s, q[1..]), q[0]);
      DrainStaysOpen(r.s);
      BufferGrows(r.s);
    }
  }

  lemma NoPayload()
    ensures Payload([]) == []
  {}

  lemma HandleFrameBuffers(s: Stream, f: Frame)
    requires StreamFrame(f) && HandleFrame(s, f).error.None?
    ensures var t := HandleFrame(s, f).s;
      t.state == Reset || |t.readBuf| == |s.readBuf| + if BodyOf(f) == [] then 0 else 1
  {}

  /** What a parked reader has to hear about: the end of the stream, or payload on a stream that goes on. */
  predicate NewsForReader(s: Stream) {
    match StateAhead(s)
    case RemoteClosing => s.state != RemoteClosing
    case Closed | Reset => false
    case _ => Payload(s.inbox.queue) != []
  }

  /** A write that drains the channel wakes the parked reader exactly when there is news, and then takes
      the registration off. */
  lemma WriteTellsReader(s: Stream, t: Task, data: seq<byte>)
    requires Healthy(s) && s.readWake.Some?
    ensures var r := PollWrite(s, t, data, true);
      && r.s.readWake == (if NewsForReader(s) then None else s.readWake)
      && (NewsForReader(s) ==> s.readWake.value in r.woken)
      && r.woken <= Wake(s.writeWake) + (if NewsForReader(s) then Wake(s.readWake) else {})
  {
    hide Drain, WriteDrain, ParkAndRedrain, WriteOut, StateAhead, Healthy, Balanced, Safe, Payload;
    HealthyIsSafe(s);
    DrainBalanced(s);
    DrainLandsThere(s);
    WriteDrainTells(s);
    var first := WriteDrain(s, None, true);
    WriteDrainLands(s, None);
    if !RefusesWrites(first.s.state) {
      DrainSettles(s);
      if first.s.sendWindow == 0 {
        ParkIsQuiet(first.s, t);
      } else {
        WriteOutWakes(first.s, data, true);
      }
    }
  }

  lemma WriteDrainTells(s: Stream)
    requires Safe(s) && !IsProtocolError(Drain(s).error) && Drain(s).s.state == StateAhead(s)
    ensures var r := WriteDrain(s, None, true);
      && r.s.readWake == (if NewsForReader(s) then None else s.readWake)
      && (NewsForReader(s) && s.readWake.Some? ==> s.readWake.value in r.woken)
      && r.woken <= Wake(s.writeWake) + (if NewsForReader(s) then Wake(s.readWake) else {})
  {
    hide Drain, StateAhead, Safe, Payload;
    DrainWakes(s);
    DrainStaysOpen(s);
    DrainErrorStops(s);
    if Drain(s).error.None? {
      BufferGrows(s);
    }
  }

  lemma ParkIsQuiet(s: Stream, t: Task)
    requires s.sendWindow == 0
    requires s.state == RemoteClosing || (Flowing(s) && s.inbox.queue == [] && !s.inbox.closed)
    ensures var r := ParkAndRedrain(s, t, true);
      r.outcome == Pending && r.woken == {} && r.s.readWake == s.readWake
  {
    hide ParkAndRedrain;
    if s.state == RemoteClosing {
      ParkAfterFin(s, t, true);
    } else {
      ParkOnEmpty(s, t, true);
    }
  }

  // ----------------------------------------------------------------- protocol errors

  /** Frame `k` breaks the protocol once the frames before it are handled: more data than the window
      announced, more credit than a window can hold, or a frame that is not a stream's. */
  predicate Offends(s: Stream, k: nat)
    requires k < |s.inbox.queue|
  {
    var q := s.inbox.queue;
    var h := q[k].header;
    match h.ty
    case Data => DataBytes(q[..k]) + h.length as nat > s.recvWindow as nat
    case WindowUpdate => s.sendWindow as nat + Credit(q[..k]) + h.length as nat > U32_MAX
    case _ => true
  }

  ghost predicate BreaksProtocol(s: Stream) {
    !StopsReading(s.state) && !s.inbox.terminated
    && exists k | 0 <= k < |s.inbox.queue| :: EndingOf(s.inbox.queue[..k]) == StillOpen && Offends(s, k)
  }

  lemma FirstOffends(s: Stream)
    requires Draining(s) && s.inbox.queue != []
    ensures var q := s.inbox.queue;
      HandleFrame(WithQueue(s, q[1..]), q[0]).error.Some? <==> Offends(s, 0)
  {
    assert s.inbox.queue[..0] == [];
  }

  lemma LaterOffends(s: Stream, k: nat)
    requires Draining(s) && 0 < k < |s.inbox.queue|
    requires HandleFrame(WithQueue(s, s.inbox.queue[1..]), s.inbox.queue[0]).error.None?
    ensures var q := s.inbox.queue;
      var t := HandleFrame(WithQueue(s, q[1..]), q[0]).s;
      && t.inbox.queue == q[1..]
      && (Offends(s, k) <==> Offends(t, k - 1))
      && (EndingOf(q[..k]) == StillOpen <==>
            !q[0].header.flags.fin && !q[0].header.flags.rst && EndingOf(q[1..][..k - 1]) == StillOpen)
  {
    var q := s.inbox.queue;
    assert q[..k][1..] == q[1..][..k - 1];
    assert q[k] == q[1..][k - 1];
  }

  /** A drain meets a protocol error exactly when a frame it gets to offends. */
  lemma {:induction false} DrainFailsIff(s: Stream)
    ensures IsProtocolError(Drain(s).error) <==> BreaksProtocol(s)
    decreases |s.inbox.queue|
  {
    var q := s.inbox.queue;
    if !StopsReading(s.state) && !s.inbox.terminated && q != [] {
      var t := WithQueue(s, q[1..]);
      var r := HandleFrame(t, q[0]);
      HandleFrameErrs(t, q[0]);
      HandleFrameKeeps(t, q[0]);
      FirstOffends(s);
      if r.error.Some? {
        assert q[..0] == [];
        assert EndingOf(q[..0]) == StillOpen && Offends(s, 0);
      } else {
        HandleFrameReference(t, q[0]);
        DrainFailsIff(r.s);
        hide HandleFrame, Drain, Offends;
        RestOffends(s, r.s);
      }
    }
  }

  lemma RestOffends(s: Stream, t: Stream)
    requires Draining(s) && s.inbox.queue != [] && !Offends(s, 0)
    requires HandleFrame(WithQueue(s, s.inbox.queue[1..]), s.inbox.queue[0]).error.None?
    requires t == HandleFrame(WithQueue(s, s.inbox.queue[1..]), s.inbox.queue[0]).s
    ensures BreaksProtocol(s) <==> BreaksProtocol(t)
  {
    var q := s.inbox.queue;
    HandleFrameReference(WithQueue(s, q[1..]), q[0]);
    hide HandleFrame, Offends, EndingOf;
    if BreaksProtocol(s) {
      var k :| 0 <= k < |q| && EndingOf(q[..k]) == StillOpen && Offends(s, k);
      LaterOffends(s, k);
      assert EndingOf(t.inbox.queue[..k - 1]) == StillOpen && Offends(t, k - 1);
    }
    if BreaksProtocol(t) {
      var k :| 0 <= k < |t.inbox.queue| && EndingOf(t.inbox.queue[..k]) == StillOpen && Offends(t, k);
      LaterOffends(s, k + 1);
      assert EndingOf(q[..k + 1]) == StillOpen && Offends(s, k + 1);
    }
  }

  /** Whatever the peer sends: a poll fails the session exactly when the queue breaks the protocol. The
      reader is told so, the writer sees a broken pipe, and the stream is closed for writing. */
  lemma ProtocolErrorsEndTheSession(s: Stream, t: Task, room: nat, data: seq<byte>)
    ensures forall r | r == PollRead(s, t, room, true) || r == PollPeek(s, t, room, true) ::
      && (SendGoAway in r.events <==> BreaksProtocol(s))
      && (r.outcome == Failed(InvalidData) <==> BreaksProtocol(s))
      && (BreaksProtocol(s) ==> r.events == [SendGoAway] && r.bytes == [] && r.s.state == LocalClosing)
    ensures var r := PollWrite(s, t, data, true);
      && (SendGoAway in r.events <==> BreaksProtocol(s))
      && (BreaksProtocol(s) ==>
            r.events == [SendGoAway] && r.bytes == [] && r.outcome == Failed(BrokenPipe) && r.s.state == LocalClosing)
  {
    hide BreaksProtocol;
    DrainFailsIff(s);
    ReadFailsIff(s, t, room);
    WriteFailsIff(s, t, data);
  }

  lemma ReadFailsIff(s: Stream, t: Task, room: nat)
    ensures forall r | r == PollRead(s, t, room, true) || r == PollPeek(s, t, room, true) ::
      && (SendGoAway in r.events <==> IsProtocolError(Drain(s).error))
      && (r.outcome == Failed(InvalidData) <==> IsProtocolError(Drain(s).error))
      && (IsProtocolError(Drain(s).error) ==> r.events == [SendGoAway] && r.bytes == [] && r.s.state == LocalClosing)
  {
    DrainOfStopped(s);
    DrainIgnoresReader(s, Some(t));
    hide Drain, Deliver, CopyOut;
    var d := DrainBlocking(s.(readWake := Some(t)), t);
    DeliverOnlyAnnounces(d.s, room);
  }

  lemma DrainOfStopped(s: Stream)
    ensures StopsReading(s.state) ==> !IsProtocolError(Drain(s).error)
  {}

  lemma DeliverOnlyAnnounces(s: Stream, room: nat)
    ensures var r := Deliver(s, room, true);
      SendGoAway !in r.events && r.outcome != Failed(InvalidData)
  {
    hide CopyOut;
  }

  lemma WriteFailsIff(s: Stream, t: Task, data: seq<byte>)
    ensures var r := PollWrite(s, t, data, true);
      && (SendGoAway in r.events <==> IsProtocolError(Drain(s).error))
      && (IsProtocolError(Drain(s).error) ==>
            r.events == [SendGoAway] && r.bytes == [] && r.outcome == Failed(BrokenPipe) && r.s.state == LocalClosing)
  {
    hide Drain, ParkAndRedrain, WriteOut;
    var blocking := if s.readWake.Some? then None else Some(t);
    if !IsProtocolError(Drain(s).error) {
      WriteDrainLands(s, blocking);
      var first := WriteDrain(s, blocking, true);
      if !RefusesWrites(first.s.state) {
        DrainSettles(s);
        if first.s.sendWindow == 0 {
          ParkWaits(first.s, t);
        } else {
          WriteOutSends(first.s, data);
        }
      }
    }
  }

  // ------------------------------------------------------------------------ dropping

  /** A drop tells the peer in five states, and always tells the session unless that has been done. */
  lemma DropTells(s: Stream)
    ensures var told := s.state == Init || s.state == SynSent || s.state == SynReceived || s.state == Established
                        || s.state == RemoteClosing;
      var reset := SendFrame(WindowUpdateFrame(FirstFlag(s.state).(rst := true), s.id, 0));
      DropEvents(s, true) ==
        if told then [reset, StreamClosed(s.id)]
        else if s.state == Closed then []
        else [StreamClosed(s.id)]
    ensures DropEvents(s, false) == []
  {}
}
