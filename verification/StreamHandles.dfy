/** The substream handle as the source has it: an object whose polls update its fields, drain its
    frame channel and append to the session's event queue (crates/tokio-yamux/src/stream.rs).
    Every method is proved against the functions of module Streams. */
module StreamHandles {
  import opened Prelude
  import opened Frames
  import opened Streams

  /** The receiving half of the bounded frame channel. */
  class FrameReceiver {
    var queue: seq<Frame>
    var closed: bool
    var terminated: bool
    var waker: Option<Task>

    function View(): Channel
      reads this
    {
      Channel(queue, closed, terminated, waker)
    }

    constructor ()
      ensures View() == EMPTY_CHANNEL
    {
      queue, closed, terminated, waker := [], false, false, None;
    }
  }

  /** The sending half of the unbounded event channel; `open` while the session exists. */
  class EventSender {
    var events: seq<StreamEvent>
    var open: bool

    constructor ()
      ensures events == [] && open
    {
      events, open := [], true;
    }

    /** `unbounded_send`: fails exactly when the receiver is gone. */
    method Send(event: StreamEvent) returns (ok: bool)
      modifies this`events
      ensures ok == open
      ensures events == old(events) + Notify(event, open)
    {
      ok := open;
      if open {
        events := events + [event];
      }
    }
  }

  class StreamHandle {
    const id: StreamId
    const maxRecvWindow: u32
    const frameReceiver: FrameReceiver
    const eventSender: EventSender
    var state: StreamState
    var recvWindow: u32
    var sendWindow: u32
    var readBuf: seq<seq<byte>>
    var writeableWake: Option<Task>
    var readableWake: Option<Task>

    function View(): Stream
      reads this, frameReceiver
    {
      Stream(id, state, maxRecvWindow, recvWindow, sendWindow, readBuf, writeableWake, readableWake,
             frameReceiver.View())
    }

    constructor (id: StreamId, events: EventSender, frames: FrameReceiver, state: StreamState, max: u32)
      requires state == Init || state == SynReceived
      requires frames.View() == EMPTY_CHANNEL
      ensures View() == Fresh(id, state, max)
      ensures frameReceiver == frames && eventSender == events
    {
      this.id := id;
      this.maxRecvWindow := max;
      this.frameReceiver := frames;
      this.eventSender := events;
      this.state := state;
      recvWindow, sendWindow := INITIAL_STREAM_WINDOW, INITIAL_STREAM_WINDOW;
      readBuf, writeableWake, readableWake := [], None, None;
    }

    // ----------------------------------------------------------- outbound frames

    method GetFlags() returns (flags: Flags)
      modifies this`state
      ensures flags == OpeningFlags(old(state))
      ensures state == Opened(old(state))
    {
      if state == Init {
        state := SynSent;
        flags := SYN;
      } else if state == SynReceived {
        state := Established;
        flags := ACK;
      } else {
        flags := NO_FLAGS;
      }
    }

    /** `receive_credit_delta`: the checked fold over the buffered chunk lengths. */
    method ReceiveCreditDelta() returns (delta: Option<u32>)
      ensures delta == CreditDelta(maxRecvWindow, recvWindow, |Flatten(readBuf)|)
    {
      var buffered: nat := 0;
      var i := 0;
      while i < |readBuf|
        invariant 0 <= i <= |readBuf|
        invariant buffered + |Flatten(readBuf[i..])| == |Flatten(readBuf)|
        invariant buffered <= U32_MAX
      {
        if buffered + |readBuf[i]| > U32_MAX {
          return None;
        }
        buffered := buffered + |readBuf[i]|;
        assert readBuf[i..][1..] == readBuf[i + 1..];
        i := i + 1;
      }
      if buffered + recvWindow > maxRecvWindow {
        return None;
      }
      delta := Some(maxRecvWindow - buffered - recvWindow);
    }

    method SendWindowUpdate() returns (error: Option<StreamError>)
      modifies this`state, this`recvWindow, eventSender`events
      ensures var r := Streams.SendWindowUpdate(old(View()), eventSender.open);
        View() == r.s && error == r.error && eventSender.events == old(eventSender.events) + r.events
    {
      var delta := ReceiveCreditDelta();
      if delta.None? {
        return Some(InvalidMsgType);
      }
      var flags := GetFlags();
      if delta.value * 2 < maxRecvWindow && flags == NO_FLAGS {
        return None;
      }
      var ok := eventSender.Send(SendFrame(WindowUpdateFrame(flags, id, delta.value)));
      if !ok {
        return Some(SessionShutdown);
      }
      recvWindow := recvWindow + delta.value;
      error := None;
    }

    method SendData(data: seq<byte>) returns (error: Option<StreamError>)
      requires |data| <= U32_MAX
      modifies this`state, eventSender`events
      ensures var r := Streams.SendData(old(View()), data, eventSender.open);
        View() == r.s && error == r.error && eventSender.events == old(eventSender.events) + r.events
    {
      var flags := GetFlags();
      var ok := eventSender.Send(SendFrame(DataFrame(flags, id, data)));
      error := if ok then None else Some(SessionShutdown);
    }

    method SendFinal(fin: bool) returns (error: Option<StreamError>)
      modifies this`state, eventSender`events
      ensures var r := Streams.SendFinal(old(View()), fin, eventSender.open);
        View() == r.s && error == r.error && eventSender.events == old(eventSender.events) + r.events
    {
      var flags := GetFlags();
      flags := flags.(fin := fin, rst := !fin);
      var ok := eventSender.Send(SendFrame(WindowUpdateFrame(flags, id, 0)));
      error := if ok then None else Some(SessionShutdown);
    }

    // ------------------------------------------------------------ inbound frames

    method ProcessFlags(flags: Flags) returns (ok: bool)
      modifies this`state
      ensures Streams.ProcessFlags(old(state), flags) == FlagResult(state, ok)
    {
      if flags.ack && state == SynSent {
        state := Established;
      }
      if flags.fin {
        match state {
          case Init | SynSent | SynReceived | Established => state := RemoteClosing;
          case LocalClosing => state := Closed;
          case _ => return false;
        }
      }
      if flags.rst {
        state := Reset;
      }
      ok := true;
    }

    method HandleWindowUpdate(frame: Frame) returns (error: Option<StreamError>, woken: set<Task>)
      modifies this`state, this`sendWindow, this`writeableWake
      ensures Streams.HandleWindowUpdate(old(View()), frame) == FrameResult(View(), error, woken)
    {
      var ok := ProcessFlags(frame.header.flags);
      if !ok {
        return Some(UnexpectedFlag), {};
      }
      if sendWindow as nat + frame.header.length as nat > U32_MAX {
        return Some(InvalidMsgType), {};
      }
      sendWindow := sendWindow + frame.header.length;
      woken := Wake(writeableWake);
      writeableWake := None;
      error := None;
    }

    method HandleData(frame: Frame) returns (error: Option<StreamError>, woken: set<Task>)
      modifies this`state, this`recvWindow, this`readBuf
      ensures Streams.HandleData(old(View()), frame) == FrameResult(View(), error, woken)
    {
      woken := {};
      var ok := ProcessFlags(frame.header.flags);
      if !ok {
        return Some(UnexpectedFlag), {};
      }
      var length := frame.header.length;
      if length > recvWindow {
        return Some(RecvWindowExceeded), {};
      }
      if frame.body.Some? && length > 0 && state != Reset {
        readBuf := readBuf + [frame.body.value];
      }
      recvWindow := recvWindow - length;
      error := None;
    }

    method HandleFrame(frame: Frame) returns (error: Option<StreamError>, woken: set<Task>)
      modifies this`state, this`sendWindow, this`writeableWake, this`recvWindow, this`readBuf
      ensures Streams.HandleFrame(old(View()), frame) == FrameResult(View(), error, woken)
    {
      match frame.header.ty {
        case WindowUpdate => error, woken := HandleWindowUpdate(frame);
        case Data => error, woken := HandleData(frame);
        case _ => error, woken := Some(InvalidMsgType), {};
      }
    }

    /** The drain loop shared by `recv_frames` (with a task to register) and `try_recv_frames`. */
    method DrainFrames(cx: Option<Task>) returns (hasNew: bool, error: Option<StreamError>, woken: set<Task>)
      modifies this, frameReceiver
      ensures (if cx.Some? then DrainBlocking(old(View()), cx.value) else Drain(old(View())))
              == DrainResult(View(), error, hasNew, woken)
    {
      hasNew, error, woken := false, None, {};
      ghost var start := View();
      while true
        invariant var d := Drain(View());
          Drain(start) == d.(hasNew := hasNew || d.hasNew, woken := woken + d.woken)
        decreases |frameReceiver.queue|
      {
        if state == RemoteClosing {
          return hasNew, Some(SubStreamRemoteClosing), woken;
        }
        if state == Reset || state == Closed {
          return hasNew, Some(SessionShutdown), woken;
        }
        if frameReceiver.terminated {
          state := RemoteClosing;
          return hasNew, Some(SubStreamRemoteClosing), woken;
        }
        if frameReceiver.queue != [] {
          var frame := frameReceiver.queue[0];
          frameReceiver.queue := frameReceiver.queue[1..];
          ghost var before := View();
          HandleFrameKeeps(before, frame);
          var e, w := HandleFrame(frame);
          woken := woken + w;
          if e.Some? {
            return hasNew, e, woken;
          }
          hasNew := true;
        } else if frameReceiver.closed {
          state := RemoteClosing;
          frameReceiver.terminated := true;
          return hasNew, Some(SubStreamRemoteClosing), woken;
        } else {
          if cx.Some? {
            frameReceiver.waker := cx;
          }
          return hasNew, None, woken;
        }
      }
    }

    /** `recv_frames_wake` and its blocking variant: drain for the writer, wake the parked reader. */
    method DrainForWriter(cx: Option<Task>) returns (error: Option<StreamError>, woken: set<Task>)
      modifies this, frameReceiver
      ensures var d := DrainAndWake(old(View()), cx); View() == d.s && error == d.error && woken == d.woken
    {
      var bufLen := |readBuf|;
      var before := state;
      var hasNew;
      hasNew, error, woken := DrainFrames(cx);
      if (state == RemoteClosing && before != RemoteClosing) || (error.None? && hasNew && bufLen != |readBuf|) {
        woken := woken + Wake(readableWake);
        readableWake := None;
      }
    }

    /** `send_go_away`: give up on the stream and ask the session for a GoAway. */
    method GiveUp()
      modifies this`state, eventSender`events
      ensures View() == old(View()).(state := LocalClosing)
      ensures eventSender.events == old(eventSender.events) + Notify(SendGoAway, eventSender.open)
    {
      state := LocalClosing;
      var _ := eventSender.Send(SendGoAway);
    }

    // --------------------------------------------------------------------- polls

    method CheckSelfState() returns (r: SelfState)
      ensures r == Streams.CheckSelfState(View())
    {
      if readBuf == [] {
        match state {
          case RemoteClosing | Closed => return AtEof;
          case Reset => return WasReset;
          case _ => return Unsettled;
        }
      }
      r := Unsettled;
    }

    /** Everything a read or a peek does before it copies bytes out. */
    method AwaitBytes(t: Task) returns (settled: bool, outcome: Outcome, woken: set<Task>)
      modifies this, frameReceiver, eventSender`events
      ensures match Streams.AwaitBytes(old(View()), t, eventSender.open)
        case Settled(r) => settled && View() == r.s && outcome == r.outcome && woken == r.woken
                           && eventSender.events == old(eventSender.events) + r.events
        case Serve(s, w) => !settled && View() == s && woken == w && eventSender.events == old(eventSender.events)
      ensures !settled ==> readBuf != []
    {
      woken := {};
      outcome := Pending;
      settled := true;
      var own := CheckSelfState();
      if own == AtEof {
        outcome := Ready;
        return;
      }
      if own == WasReset {
        outcome := Failed(ConnectionReset);
        return;
      }
      readableWake := Some(t);
      var hasNew, error;
      hasNew, error, woken := DrainFrames(Some(t));
      if IsProtocolError(error) {
        GiveUp();
        outcome := Failed(InvalidData);
        return;
      }
      own := CheckSelfState();
      if own == AtEof {
        outcome := Ready;
      } else if own == WasReset {
        outcome := Failed(ConnectionReset);
      } else {
        settled := readBuf == [];
      }
    }

    /** The copy loop of `poll_read`: chunks are split in place, then the emptied ones drained. */
    method CopyOut(room: nat) returns (bytes: seq<byte>)
      modifies this`readBuf
      ensures Streams.CopyOut(old(readBuf), room) == (bytes, readBuf)
    {
      bytes := [];
      var offset: int := -1;
      var i := 0;
      ghost var chunks := readBuf;
      CopyStarts(chunks, room);
      while i < |readBuf|
        invariant 0 <= i <= |readBuf| == |chunks|
        invariant |bytes| <= room
        invariant readBuf[i..] == chunks[i..]
        invariant -1 <= offset < i
        invariant (offset == i - 1 && Continues(chunks, i, room, bytes))
          || (i > 0 && offset == i - 2 && |bytes| == room
              && Streams.CopyOut(chunks, room) == (bytes, [readBuf[i - 1]] + chunks[i..]))
      {
        var n := Min(room - |bytes|, |readBuf[i]|);
        if n == 0 {
          break;
        }
        var chunk := readBuf[i];
        assert chunks[i..][0] == chunk && chunks[i..][1..] == chunks[i + 1..];
        assert Continues(chunks, i, room, bytes);
        CopyOneChunk(chunks, i, room, bytes);
        bytes := bytes + chunk[..n];
        readBuf := readBuf[i := chunk[n..]];
        if readBuf[i] == [] {
          assert chunk[..n] == chunk;
          offset := i;
        }
        i := i + 1;
      }
      ConcatEmpty(bytes);
      if offset == i - 1 {
        assert readBuf[offset + 1..] == chunks[i..];
      } else {
        assert readBuf[offset + 1..] == [readBuf[i - 1]] + chunks[i..];
      }
      if offset >= 0 {
        readBuf := readBuf[offset + 1..];
      } else {
        assert readBuf == readBuf[0..];
      }
    }

    static lemma CopyStarts(chunks: seq<seq<byte>>, room: nat)
      ensures Continues(chunks, 0, room, [])
    {
      assert chunks[0..] == chunks;
      ConcatEmpty(Streams.CopyOut(chunks, room).0);
    }

    /** The copy loop of `poll_peek`: the same bytes, and the chunks stay as they are. */
    method PeekOut(room: nat) returns (bytes: seq<byte>)
      ensures bytes == Streams.CopyOut(readBuf, room).0
    {
      bytes := [];
      var i := 0;
      CopyStarts(readBuf, room);
      while i < |readBuf|
        invariant 0 <= i <= |readBuf| && |bytes| <= room
        invariant Continues(readBuf, i, room, bytes)
          || (|bytes| == room && Streams.CopyOut(readBuf, room).0 == bytes)
      {
        var n := Min(room - |bytes|, |readBuf[i]|);
        if n == 0 {
          break;
        }
        CopyOneChunk(readBuf, i, room, bytes);
        assert n == |readBuf[i]| ==> readBuf[i][..n] == readBuf[i];
        bytes := bytes + readBuf[i][..n];
        i := i + 1;
      }
      ConcatEmpty(bytes);
    }

    /** The first `i` chunks have been copied whole; the rest is still to be copied. */
    static ghost predicate Continues(chunks: seq<seq<byte>>, i: nat, room: nat, bytes: seq<byte>)
      requires i <= |chunks|
    {
      && |bytes| <= room
      && var (more, rest) := Streams.CopyOut(chunks[i..], room - |bytes|);
         Streams.CopyOut(chunks, room) == (bytes + more, rest)
    }

    static lemma CopyOneChunk(chunks: seq<seq<byte>>, i: nat, room: nat, bytes: seq<byte>)
      requires i < |chunks| && Continues(chunks, i, room, bytes)
      requires |bytes| < room && chunks[i] != []
      ensures |chunks[i]| <= room - |bytes| ==> Continues(chunks, i + 1, room, bytes + chunks[i])
      ensures |chunks[i]| > room - |bytes| ==>
        var n := room - |bytes|;
        Streams.CopyOut(chunks, room) == (bytes + chunks[i][..n], [chunks[i][n..]] + chunks[i + 1..])
    {
      assert chunks[i..][0] == chunks[i] && chunks[i..][1..] == chunks[i + 1..];
      if |chunks[i]| <= room - |bytes| {
        var (more, rest) := Streams.CopyOut(chunks[i + 1..], room - |bytes| - |chunks[i]|);
        ConcatAssoc(bytes, chunks[i], more);
      }
    }

    method PollRead(t: Task, room: nat) returns (bytes: seq<byte>, outcome: Outcome, woken: set<Task>)
      modifies this, frameReceiver, eventSender`events
      ensures var r := Streams.PollRead(old(View()), t, room, eventSender.open);
        && View() == r.s && bytes == r.bytes && outcome == r.outcome && woken == r.woken
        && eventSender.events == old(eventSender.events) + r.events
    {
      bytes := [];
      var settled;
      settled, outcome, woken := AwaitBytes(t);
      if settled {
        return;
      }
      bytes := CopyOut(room);
      outcome := Ready;
      if state != RemoteClosing && state != Closed && state != Reset {
        var error := SendWindowUpdate();
        if error.Some? {
          bytes, outcome := [], Failed(BrokenPipe);
        }
      }
    }

    method PollPeek(t: Task, room: nat) returns (bytes: seq<byte>, outcome: Outcome, woken: set<Task>)
      modifies this, frameReceiver, eventSender`events
      ensures var r := Streams.PollPeek(old(View()), t, room, eventSender.open);
        && View() == r.s && bytes == r.bytes && outcome == r.outcome && woken == r.woken
        && eventSender.events == old(eventSender.events) + r.events
    {
      bytes := [];
      var settled;
      settled, outcome, woken := AwaitBytes(t);
      if settled {
        return;
      }
      bytes := PeekOut(room);
      outcome := Ready;
    }

    /** One drain of `poll_write`; `blocked` says the stream refuses writes afterwards. */
    method WriteDrain(cx: Option<Task>) returns (blocked: bool, woken: set<Task>)
      modifies this, frameReceiver, eventSender`events
      ensures var r := Streams.WriteDrain(old(View()), cx, eventSender.open);
        && View() == r.s && woken == r.woken && blocked == r.outcome.Failed?
        && eventSender.events == old(eventSender.events) + r.events
    {
      var error;
      error, woken := DrainForWriter(cx);
      if IsProtocolError(error) {
        GiveUp();
      }
      blocked := state == Reset || state == LocalClosing || state == Closed;
    }

    /** A zero window: park the writer, then drain once more before giving up. */
    method ParkAndRedrain(t: Task) returns (outcome: Outcome, woken: set<Task>)
      modifies this, frameReceiver, eventSender`events
      ensures var r := Streams.ParkAndRedrain(old(View()), t, eventSender.open);
        && View() == r.s && outcome == r.outcome && woken == r.woken
        && eventSender.events == old(eventSender.events) + r.events
    {
      hide DrainAndWake;
      writeableWake := Some(t);
      var readerIsCurrentTask := readableWake == Some(t);
      var blocked;
      blocked, woken := WriteDrain(if readerIsCurrentTask || readableWake.None? then Some(t) else None);
      if blocked {
        return Failed(BrokenPipe), woken;
      }
      if sendWindow > 0 {
        writeableWake := None;
        outcome := Ready;
      } else {
        outcome := Pending;
      }
    }

    method WriteOut(data: seq<byte>) returns (accepted: seq<byte>, outcome: Outcome)
      modifies this`state, this`sendWindow, eventSender`events
      ensures var r := Streams.WriteOut(old(View()), data, eventSender.open);
        && View() == r.s && accepted == r.bytes && outcome == r.outcome && r.woken == {}
        && eventSender.events == old(eventSender.events) + r.events
    {
      var n := Min(sendWindow, |data|);
      var error := SendData(data[..n]);
      if error.Some? {
        return [], Failed(BrokenPipe);
      }
      sendWindow := sendWindow - n;
      accepted, outcome := data[..n], Ready;
    }

    method PollWrite(t: Task, data: seq<byte>) returns (accepted: seq<byte>, outcome: Outcome, woken: set<Task>)
      modifies this, frameReceiver, eventSender`events
      ensures var r := Streams.PollWrite(old(View()), t, data, eventSender.open);
        && View() == r.s && accepted == r.bytes && outcome == r.outcome && woken == r.woken
        && eventSender.events == old(eventSender.events) + r.events
    {
      hide Streams.WriteDrain, Streams.ParkAndRedrain, Streams.WriteOut;
      WriteDrainOutcome(View(), if readableWake.Some? then None else Some(t), eventSender.open);
      ParkNoBytes(Streams.WriteDrain(View(), if readableWake.Some? then None else Some(t), eventSender.open).s, t, eventSender.open);
      ghost var start := eventSender.events;
      accepted, outcome := [], Failed(BrokenPipe);
      var blocked;
      blocked, woken := WriteDrain(if readableWake.Some? then None else Some(t));
      ghost var drained := eventSender.events[|start|..];
      assert eventSender.events == start + drained;
      if blocked {
        return;
      }
      if sendWindow == 0 {
        var more;
        outcome, more := ParkAndRedrain(t);
        woken := woken + more;
        ghost var again := eventSender.events[|start| + |drained|..];
        ConcatAssoc(start, drained, again);
        drained := drained + again;
        if outcome != Ready {
          return;
        }
      }
      accepted, outcome := WriteOut(data);
      ConcatAssoc(start, drained, eventSender.events[|start| + |drained|..]);
    }

    static lemma WriteDrainOutcome(s: Stream, cx: Option<Task>, live: bool)
      ensures var r := Streams.WriteDrain(s, cx, live);
        r.bytes == [] && (r.outcome == Ready || r.outcome == Failed(BrokenPipe))
    {
      hide DrainAndWake;
    }

    static lemma ParkNoBytes(s: Stream, t: Task, live: bool)
      ensures Streams.ParkAndRedrain(s, t, live).bytes == []
    {
      hide DrainAndWake;
    }

    /** `close`, as `poll_shutdown` calls it. */
    method PollShutdown() returns (outcome: Outcome)
      modifies this`state, eventSender`events
      ensures var r := Shutdown(old(View()), eventSender.open);
        View() == r.s && outcome == r.outcome && eventSender.events == old(eventSender.events) + r.events
    {
      hide Shutdown;
      ShutdownShape(View(), eventSender.open);
      outcome := Ready;
      match state {
        case SynSent | SynReceived | Established | Init =>
          state := LocalClosing;
          var error := SendFinal(true);
          if error.Some? {
            outcome := Failed(BrokenPipe);
          }
        case RemoteClosing =>
          state := Closed;
          var error := SendFinal(true);
          if error.Some? {
            return Failed(BrokenPipe);
          }
          var ok := eventSender.Send(StreamClosed(id));
          if !ok {
            outcome := Failed(BrokenPipe);
          }
        case Reset | Closed | LocalClosing =>
          state := Closed;
          var ok := eventSender.Send(StreamClosed(id));
          if !ok {
            outcome := Failed(BrokenPipe);
          }
      }
    }

    /** `Drop`. */
    method Drop()
      modifies this`state, eventSender`events
      ensures eventSender.events == old(eventSender.events) + DropEvents(old(View()), eventSender.open)
    {
      if eventSender.open && state != Closed {
        if state != LocalClosing && state != Reset {
          var _ := SendFinal(false);
        }
        var _ := eventSender.Send(StreamClosed(id));
      }
    }
  }
}
