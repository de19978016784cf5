/** The order in which a session-created stream may put frames on the wire. */
module Lifecycle {
  import opened Prelude
  import opened Frames
  import opened Streams
  import opened Accounting

  /** A stream on a live session, with every frame it has emitted so far. */
  datatype Life = Life(s: Stream, sent: seq<Frame>)

  function Born(id: StreamId, state: StreamState, max: u32): Life {
    var c := Created(id, state, max);
    Life(c.s, FramesOf(c.events))
  }

  function Live(l: Life, a: Action): Life {
    var r := Poll(l.s, a, true);
    Life(r.s, l.sent + FramesOf(r.events))
  }

  function LiveAll(l: Life, actions: seq<Action>): Life
    decreases |actions|
  {
    if actions == [] then l else LiveAll(Live(l, actions[0]), actions[1..])
  }

  predicate PlainUpdate(f: Frame) {
    f.header.ty == WindowUpdate && f.header.flags == NO_FLAGS
  }

  /** The promise to the peer: the opening flag comes first and only once, and nothing but
      flagless window updates follows a FIN. */
  ghost predicate Orderly(sent: seq<Frame>, opening: Flags) {
    && sent != []
    && sent[0].header.flags == opening
    && (forall i | 0 < i < |sent| :: !sent[i].header.flags.syn && !sent[i].header.flags.ack)
    && (forall i, j | 0 <= i < j < |sent| && sent[i].header.flags.fin :: PlainUpdate(sent[j]))
    && (forall i | 0 <= i < |sent| - 1 :: !sent[i].header.flags.rst)
  }

  /** As long as a stream still reads, a lost channel has a reset queued as its last frame: a session
      drops its sender only behind a delivered reset, or once the stream is done. */
  predicate Held(s: Stream) {
    && !s.inbox.terminated
    && (s.inbox.closed && !StopsReading(s.state) ==> EndsInReset(s.inbox.queue))
  }

  predicate EndsInReset(queue: seq<Frame>) {
    queue != [] && queue[|queue| - 1].header.flags.rst
  }

  /** What a session does to a stream: it drops the sender only then, sends nothing afterwards, and
      no poll meets a protocol error on what is left in the channel. */
  predicate Proper(s: Stream, a: Action) {
    && (a.SenderDropped? ==> StopsReading(s.state) || EndsInReset(s.inbox.queue))
    && (a.Arrive? ==> !s.inbox.closed)
    && (s.inbox.closed ==> SendGoAway !in Poll(s, a, true).events)
  }

  predicate ProperAll(l: Life, actions: seq<Action>)
    decreases |actions|
  {
    actions == [] || (Proper(l.s, actions[0]) && ProperAll(Live(l, actions[0]), actions[1..]))
  }

  /** What is left of `Held` after a step with these events. */
  predicate StillHeld(s: Stream, t: Stream, events: seq<StreamEvent>) {
    && !t.inbox.terminated
    && t.inbox.closed == s.inbox.closed
    && (SendGoAway !in events ==> Held(t))
  }

  predicate DoneWriting(state: StreamState) {
    state == LocalClosing || state == Closed || state == Reset
  }

  ghost predicate FinSent(sent: seq<Frame>) {
    exists i :: 0 <= i < |sent| && sent[i].header.flags.fin
  }

  ghost predicate Disciplined(l: Life, opening: Flags) {
    && Orderly(l.sent, opening)
    && (forall i | 0 <= i < |l.sent| :: !l.sent[i].header.flags.rst)
    && l.s.state != Init && l.s.state != SynReceived
    && Held(l.s)
    && (FinSent(l.sent) ==> DoneWriting(l.s.state))
  }

  /** Frames from the session never reopen a stream that has stopped writing. */
  lemma {:induction false} DrainStates(s: Stream)
    requires s.state != Init && s.state != SynReceived
    requires Held(s)
    ensures var r := Drain(s);
      && r.s.state != Init && r.s.state != SynReceived
      && !r.s.inbox.terminated && r.s.inbox.closed == s.inbox.closed
      && (!IsProtocolError(r.error) ==> Held(r.s))
      && r.s.id == s.id
      && (DoneWriting(s.state) ==> DoneWriting(r.s.state))
    decreases |s.inbox.queue|
  {
    if !StopsReading(s.state) && s.inbox.queue != [] {
      var q := s.inbox.queue;
      var r := HandleFrame(WithQueue(s, q[1..]), q[0]);
      HandleFrameKeeps(WithQueue(s, q[1..]), q[0]);
      if r.error.None? {
        assert |q| > 1 ==> q[1..][|q| - 2] == q[|q| - 1];
        DrainStates(r.s);
      } else {
        HandleFrameErrors(WithQueue(s, q[1..]), q[0]);
      }
    }
  }

  lemma HandleFrameErrors(s: Stream, f: Frame)
    ensures var e := HandleFrame(s, f).error; e.Some? ==> IsProtocolError(e)
  {}

  /** What one action can emit, and what it does to the state. */
  lemma ActionEmits(s: Stream, a: Action)
    requires s.state != Init && s.state != SynReceived
    requires Held(s) && Proper(s, a)
    ensures var r := Poll(s, a, true);
      var sent := FramesOf(r.events);
      && r.s.state != Init && r.s.state != SynReceived
      && Held(r.s)
      && (DoneWriting(s.state) ==> DoneWriting(r.s.state))
      && |sent| <= 1
      && (sent != [] ==>
          || PlainUpdate(sent[0])
          || (sent[0].header.flags == NO_FLAGS && !DoneWriting(s.state))
          || (sent[0].header.flags == NO_FLAGS.(fin := true) && !DoneWriting(s.state) && DoneWriting(r.s.state)))
  {
    match a
    case Read(t, room) => ReadEmits(s, t, room);
    case Peek(t, room) => ReadEmits(s, t, room);
    case Write(t, data) => WriteEmits(s, t, data);
    case CloseWrite => ShutdownEmits(s);
    case Arrive(f) =>
    case SenderDropped =>
  }

  lemma ShutdownEmits(s: Stream)
    requires s.state != Init && s.state != SynReceived
    ensures var r := Shutdown(s, true);
      var sent := FramesOf(r.events);
      && DoneWriting(r.s.state)
      && r.s.inbox == s.inbox
      && |sent| <= 1
      && (sent != [] ==> sent[0].header.flags == NO_FLAGS.(fin := true) && !DoneWriting(s.state))
  {
    hide Shutdown;
    ShutdownShape(s, true);
    FinalMeasures(s.id);
  }

  lemma AwaitBytesStates(s: Stream, t: Task)
    requires s.state != Init && s.state != SynReceived
    requires Held(s)
    ensures var b := AwaitBytes(s, t, true);
      var s' := if b.Settled? then b.result.s else b.s;
      && s'.state != Init && s'.state != SynReceived
      && StillHeld(s, s', if b.Settled? then b.result.events else [])
      && (DoneWriting(s.state) ==> DoneWriting(s'.state))
      && (b.Settled? ==> FramesOf(b.result.events) == [])
  {
    hide Drain, FramesOf;
    DrainStates(s.(readWake := Some(t)));
    FramesOfOne(SendGoAway);
    NoFrames();
  }

  lemma NoFrames()
    ensures FramesOf([]) == []
  {}

  lemma ReadEmits(s: Stream, t: Task, room: nat)
    requires s.state != Init && s.state != SynReceived
    requires Held(s)
    ensures forall r | r == PollRead(s, t, room, true) || r == PollPeek(s, t, room, true) ::
      var sent := FramesOf(r.events);
      && r.s.state != Init && r.s.state != SynReceived
      && StillHeld(s, r.s, r.events)
      && (DoneWriting(s.state) ==> DoneWriting(r.s.state))
      && |sent| <= 1
      && (sent != [] ==> PlainUpdate(sent[0]))
  {
    hide AwaitBytes, Deliver, CopyOut, FramesOf;
    AwaitBytesStates(s, t);
    var b := AwaitBytes(s, t, true);
    NoFrames();
    if b.Serve? {
      DeliverEmits(b.s, room);
    }
  }

  lemma DeliverEmits(s: Stream, room: nat)
    requires s.state != Init && s.state != SynReceived
    ensures var r := Deliver(s, room, true);
      var sent := FramesOf(r.events);
      && r.s.state == s.state && r.s.inbox == s.inbox
      && SendGoAway !in r.events
      && |sent| <= 1 && (sent != [] ==> PlainUpdate(sent[0]))
  {
    hide CopyOut, FramesOf;
    NoFrames();
    var r := Deliver(s, room, true);
    if r.events != [] {
      FramesOfOne(r.events[0]);
    }
  }

  lemma WriteDrainStates(s: Stream, blocking: Option<Task>)
    requires s.state != Init && s.state != SynReceived
    requires Held(s)
    ensures var r := WriteDrain(s, blocking, true);
      && r.s.state != Init && r.s.state != SynReceived
      && StillHeld(s, r.s, r.events)
      && (DoneWriting(s.state) ==> r.outcome.Failed? && DoneWriting(r.s.state))
      && FramesOf(r.events) == []
      && (!r.outcome.Failed? ==> r.events == [])
  {
    hide Drain;
    DrainStates(s);
    FramesOfOne(SendGoAway);
  }

  lemma ParkStates(s: Stream, t: Task)
    requires s.state != Init && s.state != SynReceived
    requires Held(s)
    ensures var r := ParkAndRedrain(s, t, true);
      && r.s.state != Init && r.s.state != SynReceived
      && StillHeld(s, r.s, r.events)
      && FramesOf(r.events) == []
  {
    hide WriteDrain;
    var blocking := if s.readWake == Some(t) || s.readWake.None? then Some(t) else None;
    WriteDrainStates(s.(writeWake := Some(t)), blocking);
  }

  lemma WriteEmits(s: Stream, t: Task, data: seq<byte>)
    requires s.state != Init && s.state != SynReceived
    requires Held(s)
    ensures var r := PollWrite(s, t, data, true);
      var sent := FramesOf(r.events);
      && r.s.state != Init && r.s.state != SynReceived
      && StillHeld(s, r.s, r.events)
      && (DoneWriting(s.state) ==> DoneWriting(r.s.state))
      && |sent| <= 1
      && (sent != [] ==> sent[0].header.flags == NO_FLAGS && !DoneWriting(s.state))
  {
    hide WriteDrain, ParkAndRedrain;
    var blocking := if s.readWake.Some? then None else Some(t);
    WriteDrainStates(s, blocking);
    var first := WriteDrain(s, blocking, true);
    if !first.outcome.Failed? {
      var ready := first;
      if first.s.sendWindow == 0 {
        ParkStates(first.s, t);
        var again := ParkAndRedrain(first.s, t, true);
        FramesOfConcat(first.events, again.events);
        ready := again.(events := first.events + again.events);
      }
      var out := WriteOut(ready.s, data, true);
      FramesOfOne(out.events[0]);
      FramesOfConcat(ready.events, out.events);
    }
  }

  lemma OrderlySnoc(sent: seq<Frame>, f: Frame, opening: Flags)
    requires Orderly(sent, opening)
    requires forall i | 0 <= i < |sent| :: !sent[i].header.flags.rst
    requires !f.header.flags.syn && !f.header.flags.ack
    requires FinSent(sent) ==> PlainUpdate(f)
    ensures Orderly(sent + [f], opening)
    ensures FinSent(sent + [f]) ==> FinSent(sent) || f.header.flags.fin
  {
    var more := sent + [f];
    assert forall i | 0 <= i < |sent| :: more[i] == sent[i];
  }

  lemma LiveDisciplined(l: Life, a: Action, opening: Flags)
    requires Disciplined(l, opening) && Proper(l.s, a)
    ensures Disciplined(Live(l, a), opening)
  {
    hide Poll;
    ActionEmits(l.s, a);
    var sent := FramesOf(Poll(l.s, a, true).events);
    if sent == [] {
      ConcatEmpty(l.sent);
    } else {
      assert sent == [sent[0]];
      OrderlySnoc(l.sent, sent[0], opening);
    }
  }

  lemma {:induction false} LiveAllDisciplined(l: Life, actions: seq<Action>, opening: Flags)
    requires Disciplined(l, opening) && ProperAll(l, actions)
    ensures Disciplined(LiveAll(l, actions), opening)
    decreases |actions|
  {
    if actions != [] {
      LiveDisciplined(l, actions[0], opening);
      LiveAllDisciplined(Live(l, actions[0]), actions[1..], opening);
    }
  }

  lemma BornDisciplined(id: StreamId, state: StreamState, max: u32)
    requires INITIAL_STREAM_WINDOW <= max
    requires state == Init || state == SynReceived
    ensures Disciplined(Born(id, state, max), OpeningFlags(state))
  {
    hide Created;
    CreatedShape(id, state, max);
  }

  /** Over every run of polls, arriving frames and the loss of the channel behind a reset, and through
      the final drop: SYN or ACK is carried by the first frame alone, at most one FIN is sent, and
      only flagless window updates come after it; a RST can only come last. */
  lemma StreamLifecycle(id: StreamId, state: StreamState, max: u32, actions: seq<Action>)
    requires INITIAL_STREAM_WINDOW <= max
    requires state == Init || state == SynReceived
    requires ProperAll(Born(id, state, max), actions)
    ensures var l := LiveAll(Born(id, state, max), actions);
      && Orderly(l.sent, OpeningFlags(state))
      && Orderly(l.sent + FramesOf(DropEvents(l.s, true)), OpeningFlags(state))
  {
    var opening := OpeningFlags(state);
    BornDisciplined(id, state, max);
    LiveAllDisciplined(Born(id, state, max), actions, opening);
    var l := LiveAll(Born(id, state, max), actions);
    hide LiveAll, Born;
    DropOrderly(l, opening);
  }

  /** A session that keeps its sender is proper, whatever it sends. */
  lemma {:induction false} HoldingTheSenderIsProper(l: Life, actions: seq<Action>)
    requires !l.s.inbox.closed && !l.s.inbox.terminated && l.s.state != Init && l.s.state != SynReceived
    requires forall i | 0 <= i < |actions| :: !actions[i].SenderDropped?
    ensures ProperAll(l, actions)
    decreases |actions|
  {
    if actions != [] {
      OpenStaysOpen(l.s, actions[0]);
      HoldingTheSenderIsProper(Live(l, actions[0]), actions[1..]);
    }
  }

  /** While the session keeps its sender the order holds against any frames a peer may send, protocol
      errors included. */
  lemma HeldStreamIsOrderly(id: StreamId, state: StreamState, max: u32, actions: seq<Action>)
    requires INITIAL_STREAM_WINDOW <= max
    requires state == Init || state == SynReceived
    requires forall i | 0 <= i < |actions| :: !actions[i].SenderDropped?
    ensures var l := LiveAll(Born(id, state, max), actions);
      && Orderly(l.sent, OpeningFlags(state))
      && Orderly(l.sent + FramesOf(DropEvents(l.s, true)), OpeningFlags(state))
  {
    hide LiveAll, Orderly, DropEvents;
    CreatedShape(id, state, max);
    HoldingTheSenderIsProper(Born(id, state, max), actions);
    StreamLifecycle(id, state, max, actions);
  }

  lemma OpenStaysOpen(s: Stream, a: Action)
    requires s.state != Init && s.state != SynReceived
    requires !s.inbox.closed && !s.inbox.terminated && !a.SenderDropped?
    ensures var t := Poll(s, a, true).s;
      && !t.inbox.closed && !t.inbox.terminated && t.state != Init && t.state != SynReceived
  {
    hide PollRead, PollPeek, PollWrite, Shutdown;
    match a
    case Read(t, room) => ReadEmits(s, t, room);
    case Peek(t, room) => ReadEmits(s, t, room);
    case Write(t, data) => WriteEmits(s, t, data);
    case CloseWrite => ShutdownEmits(s);
    case Arrive(f) =>
  }

  lemma DropOrderly(l: Life, opening: Flags)
    requires Disciplined(l, opening)
    ensures Orderly(l.sent + FramesOf(DropEvents(l.s, true)), opening)
  {
    var last := StreamClosed(l.s.id);
    FramesOfOne(last);
    var events := DropEvents(l.s, true);
    if events == [] || events == [last] {
      ConcatEmpty(l.sent);
    } else {
      FramesOfOne(events[0]);
      FramesOfConcat([events[0]], [last]);
      OrderlySnoc(l.sent, events[0].frame, opening);
    }
  }

  /** What the order of the session protects from: a closed stream whose channel is lost with no reset
      in it would go on to `RemoteClosing`, from where closing again sends a second FIN. */
  lemma LostChannelSendsSecondFin(s: Stream, t: Task, room: nat)
    requires s.state == LocalClosing && s.inbox == EMPTY_CHANNEL && s.readBuf == []
    ensures !Proper(s, SenderDropped)
    ensures var lost := Disconnect(s).s;
      var read := PollRead(lost, t, room, true).s;
      var sent := FramesOf(Shutdown(read, true).events);
      sent == [WindowUpdateFrame(NO_FLAGS.(fin := true), s.id, 0)]
  {
    hide PollRead, Shutdown;
    LostRead(s, t, room);
    ShutdownShape(PollRead(Disconnect(s).s, t, room, true).s, true);
    FinalMeasures(s.id);
  }

  lemma LostRead(s: Stream, t: Task, room: nat)
    requires s.state == LocalClosing && s.inbox == EMPTY_CHANNEL && s.readBuf == []
    ensures var read := PollRead(Disconnect(s).s, t, room, true).s; read.state == RemoteClosing && read.id == s.id
  {
    hide HandleFrame, CopyOut, SendWindowUpdate;
  }
}
