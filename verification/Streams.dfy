/** The substream state machine as functions on values (crates/tokio-yamux/src/stream.rs).
    Every poll maps a stream to its successor, the events it sends to its session and the
    tasks it wakes. `live` says whether the session's event receiver still exists. */
module Streams {
  import opened Prelude
  import opened Frames

  type Task = nat

  datatype StreamState =
    | Init | SynSent | SynReceived | Established | LocalClosing | RemoteClosing | Closed | Reset

  datatype StreamEvent = SendFrame(frame: Frame) | StreamClosed(id: StreamId) | SendGoAway

  datatype StreamError =
    | InvalidMsgType | RecvWindowExceeded | UnexpectedFlag | SubStreamRemoteClosing | SessionShutdown

  /** The bounded frame channel, seen from its receiver: a FIFO with one waker slot. `closed`
      is set once the session drops its sender, `terminated` once the receiver has seen that. */
  datatype Channel = Channel(queue: seq<Frame>, closed: bool, terminated: bool, waker: Option<Task>)

  datatype Stream = Stream(
    id: StreamId,
    state: StreamState,
    maxRecvWindow: u32,
    recvWindow: u32,
    sendWindow: u32,
    readBuf: seq<seq<byte>>,
    writeWake: Option<Task>,
    readWake: Option<Task>,
    inbox: Channel)

  const EMPTY_CHANNEL := Channel([], false, false, None)

  function Fresh(id: StreamId, state: StreamState, max: u32): Stream {
    Stream(id, state, max, INITIAL_STREAM_WINDOW, INITIAL_STREAM_WINDOW, [], None, None, EMPTY_CHANNEL)
  }

  function WithQueue(s: Stream, queue: seq<Frame>): Stream {
    s.(inbox := s.inbox.(queue := queue))
  }

  function Wake(w: Option<Task>): set<Task> {
    if w.Some? then {w.value} else {}
  }

  // ------------------------------------------------------------- inbound frames

  datatype FlagResult = FlagResult(state: StreamState, ok: bool)

  function ProcessFlags(state: StreamState, flags: Flags): FlagResult {
    var acked := if flags.ack && state == SynSent then Established else state;
    if !flags.fin then FlagResult(if flags.rst then Reset else acked, true)
    else
      match acked
      case Init | SynSent | SynReceived | Established =>
        FlagResult(if flags.rst then Reset else RemoteClosing, true)
      case LocalClosing =>
        FlagResult(if flags.rst then Reset else Closed, true)
      case _ => FlagResult(acked, false)
  }

  datatype FrameResult = FrameResult(s: Stream, error: Option<StreamError>, woken: set<Task>)

  function HandleWindowUpdate(s: Stream, f: Frame): FrameResult {
    var r := ProcessFlags(s.state, f.header.flags);
    var s1 := s.(state := r.state);
    if !r.ok then FrameResult(s1, Some(UnexpectedFlag), {})
    else if s.sendWindow as nat + f.header.length as nat > U32_MAX then FrameResult(s1, Some(InvalidMsgType), {})
    else
      FrameResult(s1.(sendWindow := s.sendWindow + f.header.length, writeWake := None), None, Wake(s.writeWake))
  }

  function HandleData(s: Stream, f: Frame): FrameResult {
    var r := ProcessFlags(s.state, f.header.flags);
    var s1 := s.(state := r.state);
    if !r.ok then FrameResult(s1, Some(UnexpectedFlag), {})
    else if f.header.length > s.recvWindow then FrameResult(s1, Some(RecvWindowExceeded), {})
    else
      var keep := f.body.Some? && f.header.length > 0 && r.state != Reset;
      var buf := if keep then s.readBuf + [f.body.value] else s.readBuf;
      FrameResult(s1.(readBuf := buf, recvWindow := s.recvWindow - f.header.length), None, {})
  }

  function HandleFrame(s: Stream, f: Frame): FrameResult {
    match f.header.ty
    case WindowUpdate => HandleWindowUpdate(s, f)
    case Data => HandleData(s, f)
    case _ => FrameResult(s, Some(InvalidMsgType), {})
  }

  datatype DrainResult = DrainResult(s: Stream, error: Option<StreamError>, hasNew: bool, woken: set<Task>)

  /** `try_recv_frames`: handle queued frames until the queue is empty or the stream stops reading. */
  function Drain(s: Stream): DrainResult
    decreases |s.inbox.queue|
  {
    if s.state == RemoteClosing then DrainResult(s, Some(SubStreamRemoteClosing), false, {})
    else if s.state == Reset || s.state == Closed then DrainResult(s, Some(SessionShutdown), false, {})
    else if s.inbox.terminated then
      DrainResult(s.(state := RemoteClosing), Some(SubStreamRemoteClosing), false, {})
    else if s.inbox.queue != [] then
      var q := s.inbox.queue;
      var r := HandleFrame(WithQueue(s, q[1..]), q[0]);
      if r.error.Some? then DrainResult(r.s, r.error, false, r.woken)
      else
        HandleFrameKeeps(WithQueue(s, q[1..]), q[0]);
        var more := Drain(r.s);
        more.(hasNew := true, woken := r.woken + more.woken)
    else if s.inbox.closed then
      DrainResult(s.(state := RemoteClosing, inbox := s.inbox.(terminated := true)),
                  Some(SubStreamRemoteClosing), false, {})
    else DrainResult(s, None, false, {})
  }

  lemma HandleFrameKeeps(s: Stream, f: Frame)
    ensures var t := HandleFrame(s, f).s;
      && t.inbox == s.inbox
      && t.id == s.id
      && t.maxRecvWindow == s.maxRecvWindow
      && t.readWake == s.readWake
      && (t.writeWake == s.writeWake || t.writeWake.None?)
  {}

  /** `recv_frames`: as above, and leave the polling task in the channel's waker slot. */
  function DrainBlocking(s: Stream, t: Task): DrainResult {
    var r := Drain(s);
    if r.error.Some? then r else r.(s := r.s.(inbox := r.s.inbox.(waker := Some(t))))
  }

  /** The write side's drain: wake the parked reader when it has something new to look at. */
  function DrainAndWake(s: Stream, blocking: Option<Task>): DrainResult {
    var r := if blocking.Some? then DrainBlocking(s, blocking.value) else Drain(s);
    var notify :=
      || (r.s.state == RemoteClosing && s.state != RemoteClosing)
      || (r.error.None? && r.hasNew && |r.s.readBuf| != |s.readBuf|);
    if notify then r.(s := r.s.(readWake := None), woken := r.woken + Wake(r.s.readWake)) else r
  }

  predicate IsProtocolError(e: Option<StreamError>) {
    e == Some(UnexpectedFlag) || e == Some(RecvWindowExceeded) || e == Some(InvalidMsgType)
  }

  // ------------------------------------------------------------ outbound frames

  function OpeningFlags(state: StreamState): Flags {
    if state == Init then SYN else if state == SynReceived then ACK else NO_FLAGS
  }

  function Opened(state: StreamState): StreamState {
    if state == Init then SynSent else if state == SynReceived then Established else state
  }

  datatype SendResult = SendResult(s: Stream, events: seq<StreamEvent>, error: Option<StreamError>)

  /** `receive_credit_delta`: None where the source reports `InvalidMsgType`. */
  function CreditDelta(max: u32, recvWindow: u32, buffered: nat): Option<u32> {
    if buffered > U32_MAX || buffered + recvWindow > max then None
    else Some(max - buffered - recvWindow)
  }

  function SendWindowUpdate(s: Stream, live: bool): SendResult {
    var delta := CreditDelta(s.maxRecvWindow, s.recvWindow, |Flatten(s.readBuf)|);
    if delta.None? then SendResult(s, [], Some(InvalidMsgType))
    else
      var flags := OpeningFlags(s.state);
      var s1 := s.(state := Opened(s.state));
      if delta.value * 2 < s.maxRecvWindow && flags == NO_FLAGS then SendResult(s1, [], None)
      else if !live then SendResult(s1, [], Some(SessionShutdown))
      else
        SendResult(s1.(recvWindow := s.recvWindow + delta.value),
                   [SendFrame(WindowUpdateFrame(flags, s.id, delta.value))], None)
  }

  function SendData(s: Stream, data: seq<byte>, live: bool): SendResult
    requires |data| <= U32_MAX
  {
    var s1 := s.(state := Opened(s.state));
    if live then SendResult(s1, [SendFrame(DataFrame(OpeningFlags(s.state), s.id, data))], None)
    else SendResult(s1, [], Some(SessionShutdown))
  }

  /** A zero-credit window update carrying the opening flags plus FIN or RST. */
  function SendFinal(s: Stream, fin: bool, live: bool): SendResult {
    var flags := OpeningFlags(s.state).(fin := fin, rst := !fin);
    var s1 := s.(state := Opened(s.state));
    if live then SendResult(s1, [SendFrame(WindowUpdateFrame(flags, s.id, 0))], None)
    else SendResult(s1, [], Some(SessionShutdown))
  }

  /** The frame a session answers a stream with when its backlog or its table is full. */
  function RejectFrame(id: StreamId): Frame {
    WindowUpdateFrame(ACK.(rst := true), id, 0)
  }

  function Notify(event: StreamEvent, live: bool): seq<StreamEvent> {
    if live then [event] else []
  }

  // ---------------------------------------------------------------------- polls

  datatype IoKind = ConnectionReset | InvalidData | BrokenPipe

  datatype Outcome = Ready | Pending | Failed(kind: IoKind)

  /** `bytes` are the bytes handed to the reader, or the bytes accepted from the writer. */
  datatype PollResult =
    PollResult(s: Stream, events: seq<StreamEvent>, woken: set<Task>, bytes: seq<byte>, outcome: Outcome)

  datatype SelfState = Unsettled | AtEof | WasReset

  function CheckSelfState(s: Stream): SelfState {
    if s.readBuf != [] then Unsettled
    else if s.state == RemoteClosing || s.state == Closed then AtEof
    else if s.state == Reset then WasReset
    else Unsettled
  }

  /** The copy loop of `poll_read`: bytes copied into `room`, and the chunks that remain. */
  function CopyOut(chunks: seq<seq<byte>>, room: nat): (seq<byte>, seq<seq<byte>>) {
    if chunks == [] || room == 0 || chunks[0] == [] then ([], chunks)
    else if |chunks[0]| <= room then
      var (bytes, rest) := CopyOut(chunks[1..], room - |chunks[0]|);
      (chunks[0] + bytes, rest)
    else (chunks[0][..room], [chunks[0][room..]] + chunks[1..])
  }

  datatype Buffered = Settled(result: PollResult) | Serve(s: Stream, woken: set<Task>)

  /** The part `poll_read` and `poll_peek` share: settle the poll, or end up with buffered bytes. */
  function AwaitBytes(s: Stream, t: Task, live: bool): Buffered {
    match CheckSelfState(s)
    case AtEof => Settled(PollResult(s, [], {}, [], Ready))
    case WasReset => Settled(PollResult(s, [], {}, [], Failed(ConnectionReset)))
    case Unsettled =>
      var d := DrainBlocking(s.(readWake := Some(t)), t);
      if IsProtocolError(d.error) then
        Settled(PollResult(d.s.(state := LocalClosing), Notify(SendGoAway, live), d.woken, [], Failed(InvalidData)))
      else
        match CheckSelfState(d.s)
        case AtEof => Settled(PollResult(d.s, [], d.woken, [], Ready))
        case WasReset => Settled(PollResult(d.s, [], d.woken, [], Failed(ConnectionReset)))
        case Unsettled =>
          if d.s.readBuf == [] then Settled(PollResult(d.s, [], d.woken, [], Pending)) else Serve(d.s, d.woken)
  }

  predicate StopsReading(state: StreamState) {
    state == RemoteClosing || state == Closed || state == Reset
  }

  function Deliver(s: Stream, room: nat, live: bool): PollResult {
    var (bytes, rest) := CopyOut(s.readBuf, room);
    var s1 := s.(readBuf := rest);
    if StopsReading(s.state) then PollResult(s1, [], {}, bytes, Ready)
    else
      var u := SendWindowUpdate(s1, live);
      if u.error.Some? then PollResult(u.s, u.events, {}, [], Failed(BrokenPipe))
      else PollResult(u.s, u.events, {}, bytes, Ready)
  }

  function PollRead(s: Stream, t: Task, room: nat, live: bool): PollResult {
    match AwaitBytes(s, t, live)
    case Settled(r) => r
    case Serve(d, woken) => Deliver(d, room, live).(woken := woken)
  }

  function PollPeek(s: Stream, t: Task, room: nat, live: bool): PollResult {
    match AwaitBytes(s, t, live)
    case Settled(r) => r
    case Serve(d, woken) => PollResult(d, [], woken, CopyOut(d.readBuf, room).0, Ready)
  }

  predicate RefusesWrites(state: StreamState) {
    state == Reset || state == LocalClosing || state == Closed
  }

  /** One inbound drain of `poll_write`, with the protocol-error reaction folded in. */
  function WriteDrain(s: Stream, blocking: Option<Task>, live: bool): PollResult {
    var d := DrainAndWake(s, blocking);
    if IsProtocolError(d.error) then
      PollResult(d.s.(state := LocalClosing), Notify(SendGoAway, live), d.woken, [], Failed(BrokenPipe))
    else PollResult(d.s, [], d.woken, [], if RefusesWrites(d.s.state) then Failed(BrokenPipe) else Ready)
  }

  function WriteOut(s: Stream, data: seq<byte>, live: bool): PollResult {
    var n := Min(s.sendWindow, |data|);
    var r := SendData(s, data[..n], live);
    if r.error.Some? then PollResult(r.s, r.events, {}, [], Failed(BrokenPipe))
    else PollResult(r.s.(sendWindow := s.sendWindow - n), r.events, {}, data[..n], Ready)
  }

  /** The second drain, after the writer has parked itself on a zero window. */
  function ParkAndRedrain(s: Stream, t: Task, live: bool): PollResult {
    var blocking := if s.readWake == Some(t) || s.readWake.None? then Some(t) else None;
    var r := WriteDrain(s.(writeWake := Some(t)), blocking, live);
    if r.outcome.Failed? then r
    else if r.s.sendWindow == 0 then r.(outcome := Pending)
    else r.(s := r.s.(writeWake := None))
  }

  function PollWrite(s: Stream, t: Task, data: seq<byte>, live: bool): PollResult {
    var first := WriteDrain(s, if s.readWake.Some? then None else Some(t), live);
    if first.outcome.Failed? then first
    else
      var ready :=
        if first.s.sendWindow > 0 then first
        else
          var again := ParkAndRedrain(first.s, t, live);
          again.(events := first.events + again.events, woken := first.woken + again.woken);
      if ready.outcome != Ready then ready
      else
        var r := WriteOut(ready.s, data, live);
        r.(events := ready.events + r.events, woken := ready.woken + r.woken)
  }

  /** `close`, as called by `poll_shutdown`. */
  function Shutdown(s: Stream, live: bool): PollResult {
    match s.state
    case Init | SynSent | SynReceived | Established =>
      // The state moves first, so the FIN never carries opening flags.
      var r := SendFinal(s.(state := LocalClosing), true, live);
      PollResult(r.s, r.events, {}, [], if r.error.Some? then Failed(BrokenPipe) else Ready)
    case RemoteClosing =>
      var r := SendFinal(s.(state := Closed), true, live);
      if r.error.Some? then PollResult(r.s, r.events, {}, [], Failed(BrokenPipe))
      else PollResult(r.s, r.events + Notify(StreamClosed(s.id), live), {}, [], Ready)
    case _ =>
      PollResult(s.(state := Closed), Notify(StreamClosed(s.id), live), {}, [],
                 if live then Ready else Failed(BrokenPipe))
  }

  predicate OpenForWriting(state: StreamState) {
    state == Init || state == SynSent || state == SynReceived || state == Established
  }

  /** Closing in one line: what is sent, and where the state goes. */
  lemma ShutdownShape(s: Stream, live: bool)
    ensures var r := Shutdown(s, live);
      var fin := SendFrame(WindowUpdateFrame(NO_FLAGS.(fin := true), s.id, 0));
      && r.s == s.(state := if OpenForWriting(s.state) then LocalClosing else Closed)
      && r.outcome == (if live then Ready else Failed(BrokenPipe)) && r.bytes == [] && r.woken == {}
      && r.events ==
         if !live then []
         else if OpenForWriting(s.state) then [fin]
         else if s.state == RemoteClosing then [fin, StreamClosed(s.id)]
         else [StreamClosed(s.id)]
  {}

  /** `Drop`: the events sent when the handle goes away. */
  function DropEvents(s: Stream, live: bool): seq<StreamEvent> {
    if !live || s.state == Closed then []
    else if s.state == LocalClosing || s.state == Reset then [StreamClosed(s.id)]
    else SendFinal(s, false, live).events + [StreamClosed(s.id)]
  }

  // ------------------------------------------------------- the session's side

  /** `try_send` into the channel: the frame is queued and the parked receiver is woken. */
  function Push(s: Stream, f: Frame): PollResult {
    PollResult(s.(inbox := s.inbox.(queue := s.inbox.queue + [f], waker := None)), [], Wake(s.inbox.waker), [], Ready)
  }

  /** The session drops its sender. */
  function Disconnect(s: Stream): PollResult {
    PollResult(s.(inbox := s.inbox.(closed := true, waker := None)), [], Wake(s.inbox.waker), [], Ready)
  }

  /** `create_stream`: a fresh handle and the window update it announces itself with. */
  function Created(id: StreamId, state: StreamState, max: u32): SendResult {
    SendWindowUpdate(Fresh(id, state, max), true)
  }

  /** What can happen to one stream: polls by arbitrary tasks, frames and the loss of the channel. */
  datatype Action =
    | Read(t: Task, room: nat)
    | Peek(t: Task, room: nat)
    | Write(t: Task, data: seq<byte>)
    | CloseWrite
    | Arrive(frame: Frame)
    | SenderDropped

  function Poll(s: Stream, a: Action, live: bool): PollResult {
    match a
    case Read(t, room) => PollRead(s, t, room, live)
    case Peek(t, room) => PollPeek(s, t, room, live)
    case Write(t, data) => PollWrite(s, t, data, live)
    case CloseWrite => Shutdown(s, live)
    case Arrive(f) => Push(s, f)
    case SenderDropped => Disconnect(s)
  }
}
