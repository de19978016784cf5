/** Two sessions, any number of streams and a byte transport in each direction.

    Every step of the left session or of its application is listed; the right side makes the same
    steps on the swapped link. The application never shuts the session down and the transport does
    not fail; within that, steps interleave arbitrarily, channels may refuse frames whenever they
    like, and the transport delivers any number of bytes at a time. */
module Links {
  import opened Prelude
  import opened Frames
  import opened Streams
  import opened Accounting
  import opened Duplex
  import opened Sessions
  import opened Wires

  /** A handle, the bytes written to and read from it, and whether it has been dropped. */
  datatype Handle = Handle(s: Streams.Stream, dropped: bool, wrote: seq<byte>, read: seq<byte>)

  /** A session with its handles. While `batch` is not empty the session is inside one
      `distribute_to_substream` call, and `blocked` are the streams it has stopped offering to. */
  datatype Peer = Peer(m: Session, handles: map<StreamId, Handle>, batch: seq<Frame>, blocked: set<StreamId>)

  datatype Link = Link(left: Peer, right: Peer, lr: Wire, rl: Wire)

  function SwapLink(l: Link): Link {
    Link(l.right, l.left, l.rl, l.lr)
  }

  function NewPeer(role: Role, config: Config): Peer {
    Peer(NewSession(role, config), map[], [], {})
  }

  function NewLink(client: Config, server: Config): Link {
    Link(NewPeer(Client, client), NewPeer(Server, server), NewWire(server.maxWindow), NewWire(client.maxWindow))
  }

  // ---------------------------------------------------------------------- steps

  datatype Move =
    | OpenMove
    | ActMove(id: StreamId, a: Action)
    | DropMove(id: StreamId)
    | AcceptMove
    | EventMove
    | TransmitMove
    | FeedMove(n: nat)
    | DecodeMove
    | BeginSortMove
    | SortMove(answer: Answer)
    | KeepAliveMove(now: nat)

  /** What a channel can answer: only a dropped handle disconnects. */
  predicate Plausible(p: Peer, f: Frame, answer: Answer) {
    f.header.streamId in p.handles ==>
      (answer == Disconnected <==> p.handles[f.header.streamId].dropped)
  }

  predicate CanMove(l: Link, mv: Move) {
    var p := l.left;
    match mv
    case OpenMove => OpenStream(p.m).OpenOk?
    case ActMove(id, a) => id in p.handles && !p.handles[id].dropped && id !in p.m.backlog && ByApplication(a)
    case DropMove(id) => id in p.handles && !p.handles[id].dropped && id !in p.m.backlog
    case AcceptMove => p.m.backlog != []
    case EventMove => p.batch == [] && p.m.events != []
    case TransmitMove => p.batch == [] && p.m.writePending != [] && WellFormed(p.m.writePending[0])
    case FeedMove(n) => n <= |l.rl.bytes|
    case DecodeMove => p.batch == []
    case BeginSortMove => p.batch == []
    case SortMove(answer) => p.batch != [] && Plausible(p, p.batch[0], answer)
    case KeepAliveMove(now) => p.batch == [] && KeepAlive(p.m, now).Some?
  }

  function Emit(p: Peer, id: StreamId, h: Handle, events: seq<StreamEvent>): Peer {
    p.(m := p.m.(events := p.m.events + events), handles := p.handles[id := h])
  }

  /** The session drops its sender for a stream it had registered. */
  function Forget(p: Peer, id: StreamId): Peer {
    if id in p.m.streams && id in p.handles then
      p.(m := p.m.(streams := p.m.streams - {id}),
         handles := p.handles[id := p.handles[id].(s := Disconnect(p.handles[id].s).s)])
    else p.(m := p.m.(streams := p.m.streams - {id}))
  }

  /** The handle a sorted frame ends up with: born, refused, pushed to, or cut off. */
  function HandleAfterSort(p: Peer, f: Frame, r: Sorted): map<StreamId, Handle> {
    var id := f.header.streamId;
    var known :=
      if r.born.Some? then p.handles[id := Handle(r.born.value, false, [], [])]
      else if f.header.flags.syn && id !in p.blocked && id !in p.handles then
        p.handles[id := Handle(Fresh(id, SynReceived, p.m.config.maxWindow), true, [], [])]
      else p.handles;
    var pushed :=
      if r.fate == Delivered && id in known then known[id := known[id].(s := Push(known[id].s, f).s)] else known;
    if id in p.m.streams + (if r.born.Some? then {id} else {}) && id !in r.session.streams && id in pushed then
      pushed[id := pushed[id].(s := Disconnect(pushed[id].s).s)]
    else pushed
  }

  function SortPeer(p: Peer, answer: Answer): Peer
    requires p.batch != []
  {
    var r := SortOne(p.m, p.blocked, p.batch[0], answer);
    Peer(r.session, HandleAfterSort(p, p.batch[0], r), if r.stop then [] else p.batch[1..], r.blocked)
  }

  function Make(l: Link, mv: Move): Link
    requires CanMove(l, mv)
  {
    var p := l.left;
    match mv
    case OpenMove =>
      var o := OpenStream(p.m);
      l.(left := p.(m := o.session, handles := p.handles[p.m.nextId := Handle(o.stream, false, [], [])]))
    case ActMove(id, a) =>
      var h := p.handles[id];
      var r := Poll(h.s, a, true);
      l.(left := Emit(p, id, h.(s := r.s, wrote := h.wrote + Given(a, r), read := h.read + Taken(a, r)), r.events))
    case DropMove(id) =>
      var h := p.handles[id];
      l.(left := Emit(p, id, h.(dropped := true), DropEvents(h.s, true)))
    case AcceptMove =>
      l.(left := p.(m := p.m.(backlog := p.m.backlog[1..])))
    case EventMove =>
      var e := p.m.events[0];
      var q := p.(m := p.m.(events := p.m.events[1..]));
      l.(left := if e.StreamClosed? then Forget(q, e.id) else q.(m := HandleEvent(q.m, e)))
    case TransmitMove =>
      l.(left := p.(m := p.m.(writePending := p.m.writePending[1..])), lr := SendOn(l.lr, p.m.writePending[0]))
    case FeedMove(n) =>
      l.(rl := FeedOn(l.rl, n))
    case DecodeMove =>
      var out := DecodeStep(l.rl.codec, l.rl.buffered).outcome;
      l.(left := if out.Item? then p.(m := HandleFrameIn(p.m, out.frame)) else p, rl := AfterDecode(l.rl))
    case BeginSortMove =>
      l.(left := p.(m := p.m.(readPending := []), batch := p.m.readPending, blocked := {}))
    case SortMove(answer) =>
      l.(left := SortPeer(p, answer))
    case KeepAliveMove(now) =>
      l.(left := p.(m := KeepAlive(p.m, now).value))
  }

  // ----------------------------------------------------- the view of one stream

  /** Everything left has sent and right's channels have not yet received, oldest first. */
  function Pipe(l: Link): seq<Frame>
    requires ValidDecoder(l.lr.codec)
  {
    (l.right.m.readPending + l.right.batch) + (InFlight(l.lr) + (l.left.m.writePending + FramesOf(l.left.m.events)))
  }

  function EndOf(p: Peer, id: StreamId): End {
    if id in p.handles then
      var h := p.handles[id];
      End(h.s, if id in p.m.streams then Attached else Detached, Opens(p.m.role, id), h.dropped, h.wrote, h.read)
    else UnbornEnd(id, Opens(p.m.role, id), p.m.config.maxWindow)
  }

  predicate Decodable(l: Link) {
    ValidDecoder(l.lr.codec) && ValidDecoder(l.rl.codec)
  }

  function PairOf(l: Link, id: StreamId): Pair
    requires Decodable(l)
  {
    Pair(EndOf(l.left, id), EndOf(l.right, id), Only(Pipe(l), id), Only(Pipe(SwapLink(l)), id))
  }

  // ------------------------------------------------------------------ invariant

  /** Frames of the session itself, or of a stream. */
  predicate Routable(f: Frame) {
    && WellFormed(f)
    && (f.header.ty == Ping <==> f.header.streamId == RESERVED_STREAM_ID)
    && f.header.ty != GoAway
  }

  predicate AllRoutable(fs: seq<Frame>) {
    forall i | 0 <= i < |fs| :: Routable(fs[i])
  }

  predicate ForStreams(fs: seq<Frame>) {
    forall i | 0 <= i < |fs| :: fs[i].header.streamId != RESERVED_STREAM_ID
  }

  ghost predicate PeerOk(p: Peer) {
    && INITIAL_STREAM_WINDOW <= p.m.config.maxWindow
    && FirstId(p.m.role) <= p.m.nextId && Opens(p.m.role, p.m.nextId)
    && !p.m.localGoAway && !p.m.remoteGoAway && !p.m.eof
    && (forall id | id in p.handles ::
          && id != RESERVED_STREAM_ID
          && p.handles[id].s.id == id && p.handles[id].s.maxRecvWindow == p.m.config.maxWindow
          && (Opens(p.m.role, id) ==> id < p.m.nextId))
    && (forall id | id in p.m.streams :: id in p.handles)
    && (forall i | 0 <= i < |p.m.events| :: p.m.events[i] != SendGoAway)
    && (p.batch != [] ==> BlockedCovers(p.m, p.blocked))
    && ForStreams(p.m.readPending) && ForStreams(p.batch)
  }

  ghost predicate HalfOk(l: Link) {
    && PeerOk(l.left)
    && WireOk(l.lr, l.right.m.config.maxWindow)
    && AllRoutable(Pipe(l))
    && l.left.m.role != l.right.m.role
  }

  ghost predicate LinkInv(l: Link) {
    && HalfOk(l) && HalfOk(SwapLink(l))
    && (forall id: StreamId | id != RESERVED_STREAM_ID :: Inv(PairOf(l, id)))
  }

  lemma SwapView(l: Link, id: StreamId)
    requires Decodable(l)
    ensures PairOf(SwapLink(l), id) == Swap(PairOf(l, id))
  {
    assert SwapLink(SwapLink(l)) == l;
  }

  lemma LinkInvSwap(l: Link)
    requires LinkInv(l)
    ensures LinkInv(SwapLink(l))
  {
    assert SwapLink(SwapLink(l)) == l;
    forall id: StreamId | id != RESERVED_STREAM_ID
      ensures Inv(PairOf(SwapLink(l), id))
    {
      SwapView(l, id);
      InvSwap(PairOf(l, id));
    }
  }

  // -------------------------------------------------------- steps that move no stream

  /** The parts of a pipe, filtered. */
  lemma PipeParts(l: Link, id: StreamId)
    requires Decodable(l)
    ensures Only(Pipe(l), id) ==
            (Only(l.right.m.readPending, id) + Only(l.right.batch, id))
            + (Only(InFlight(l.lr), id) + (Only(l.left.m.writePending, id) + Only(FramesOf(l.left.m.events), id)))
  {
    hide Only, InFlight, FramesOf;
    var r, b, w, q, e := l.right.m.readPending, l.right.batch, InFlight(l.lr), l.left.m.writePending, FramesOf(l.left.m.events);
    OnlyConcat(r + b, w + (q + e), id);
    OnlyConcat(r, b, id);
    OnlyConcat(w, q + e, id);
    OnlyConcat(q, e, id);
  }

  /** Streams whose ends and pipes are untouched keep their invariant. */
  lemma QuietStep(l: Link, l': Link)
    requires LinkInv(l) && Decodable(l')
    requires forall id: StreamId | id != RESERVED_STREAM_ID ::
      && EndOf(l'.left, id) == EndOf(l.left, id) && EndOf(l'.right, id) == EndOf(l.right, id)
      && Only(Pipe(l'), id) == Only(Pipe(l), id)
      && Only(Pipe(SwapLink(l')), id) == Only(Pipe(SwapLink(l)), id)
    ensures forall id: StreamId | id != RESERVED_STREAM_ID :: Inv(PairOf(l', id))
  {
    hide Inv, EndOf, Pipe, Only;
    forall id: StreamId | id != RESERVED_STREAM_ID
      ensures Inv(PairOf(l', id))
    {
      assert PairOf(l', id) == PairOf(l, id);
    }
  }

  lemma SamePipes(l: Link, l': Link)
    requires LinkInv(l) && Decodable(l')
    requires Pipe(l') == Pipe(l) && Pipe(SwapLink(l')) == Pipe(SwapLink(l))
    requires forall id: StreamId :: EndOf(l'.left, id) == EndOf(l.left, id)
    requires l'.right == l.right
    requires PeerOk(l'.left) && l'.left.m.role == l.left.m.role && l'.left.m.config == l.left.m.config
    requires WireOk(l'.lr, l'.right.m.config.maxWindow) && WireOk(l'.rl, l'.left.m.config.maxWindow)
    ensures LinkInv(l')
  {
    hide EndOf, Pipe, Only, Inv, PeerOk, WireOk;
    QuietStep(l, l');
  }

  lemma AcceptMoveInv(l: Link)
    requires LinkInv(l) && CanMove(l, AcceptMove)
    ensures LinkInv(Make(l, AcceptMove))
  {
    hide Only, Inv, WireOk, InFlight;
    WireOkDecodes(l);
    SamePipes(l, Make(l, AcceptMove));
  }

  lemma FeedMoveInv(l: Link, n: nat)
    requires LinkInv(l) && CanMove(l, FeedMove(n))
    ensures LinkInv(Make(l, FeedMove(n)))
  {
    hide Only, Inv, WireOk, InFlight, PeerOk;
    FeedMovesNothing(l.rl, n, l.left.m.config.maxWindow);
    WireOkDecodes(l);
    var l' := Make(l, FeedMove(n));
    WireOkDecodes(l');
    SamePipes(l, l');
  }

  lemma WireOkDecodes(l: Link)
    requires WireOk(l.lr, l.right.m.config.maxWindow) && WireOk(l.rl, l.left.m.config.maxWindow)
    ensures Decodable(l)
  {}

  lemma BeginSortMoveInv(l: Link)
    requires LinkInv(l) && CanMove(l, BeginSortMove)
    ensures LinkInv(Make(l, BeginSortMove))
  {
    hide Inv, WireOk, InFlight;
    var l' := Make(l, BeginSortMove);
    ConcatEmpty(l.left.m.readPending);
    WireOkDecodes(l);
    assert Pipe(SwapLink(l')) == Pipe(SwapLink(l));
    assert PeerOk(l'.left);
    SamePipes(l, l');
  }

  // ---------------------------------------------------------------- frames on their way out

  lemma {:induction false} OnlyContains(fs: seq<Frame>, i: nat)
    requires i < |fs|
    ensures fs[i] in Only(fs, fs[i].header.streamId)
    decreases |fs|
  {
    if i > 0 {
      OnlyContains(fs[1..], i - 1);
    }
  }

  /** Anything waiting to be sent is small enough for the peer's decoder. */
  lemma WaitingFits(l: Link, f: Frame)
    requires LinkInv(l) && f in l.left.m.writePending
    ensures WellFormed(f) && FitsFrameLimit(f, l.right.m.config.maxWindow)
  {
    WireOkDecodes(l);
    hide Inv, WireOk, InFlight, Only;
    assert f in Pipe(l);
    var i :| 0 <= i < |Pipe(l)| && Pipe(l)[i] == f;
    assert Routable(f);
    if f.header.streamId != RESERVED_STREAM_ID {
      var id := f.header.streamId;
      OnlyContains(Pipe(l), i);
      assert Inv(PairOf(l, id));
      PipeFits(l, id, f);
    }
  }

  lemma PipeFits(l: Link, id: StreamId, f: Frame)
    requires Decodable(l) && Inv(PairOf(l, id))
    requires PeerOk(l.right)
    requires f in Only(Pipe(l), id)
    ensures FitsFrameLimit(f, l.right.m.config.maxWindow)
  {
    hide Only, Pipe;
    var p := PairOf(l, id);
    assert DirectionOk(p);
    var i :| 0 <= i < |p.out| && p.out[i] == f;
  }

  lemma TransmitMoveInv(l: Link)
    requires LinkInv(l) && CanMove(l, TransmitMove)
    ensures LinkInv(Make(l, TransmitMove))
  {
    hide Only, Inv, WireOk, InFlight, FramesOf;
    var l' := Make(l, TransmitMove);
    var f := l.left.m.writePending[0];
    WaitingFits(l, f);
    SendAppends(l.lr, f, l.right.m.config.maxWindow);
    WireOkDecodes(l);
    WireOkDecodes(l');
    var rest := l.left.m.writePending[1..];
    assert l.left.m.writePending == [f] + rest;
    var e := FramesOf(l.left.m.events);
    ConcatAssoc([f], rest, e);
    ConcatAssoc(InFlight(l.lr), [f], rest + e);
    assert Pipe(l') == Pipe(l);
    SamePipes(l, l');
  }

  /** A session frame joins the outgoing queue, between the streams' frames. */
  lemma QueuePingInv(l: Link, l': Link, f: Frame)
    requires LinkInv(l)
    requires f.header.ty == Ping && Routable(f)
    requires l' == l.(left := l'.left)
    requires l'.left == l.left.(m := l'.left.m)
    requires l'.left.m == l.left.m.(writePending := l.left.m.writePending + [f],
                                    pings := l'.left.m.pings, pingId := l'.left.m.pingId)
    ensures LinkInv(l')
  {
    WireOkDecodes(l);
    hide Inv, WireOk, InFlight, FramesOf, Only;
    forall id: StreamId | id != RESERVED_STREAM_ID
      ensures Only(Pipe(l'), id) == Only(Pipe(l), id)
    {
      PipeParts(l, id);
      PipeParts(l', id);
      OnlyConcat(l.left.m.writePending, [f], id);
      OnlyOne(f, id);
      ConcatEmpty(Only(l.left.m.writePending, id));
    }
    assert Pipe(SwapLink(l')) == Pipe(SwapLink(l));
    assert AllRoutable(Pipe(l')) by {
      PingRoutable(l.right.m.readPending + l.right.batch, InFlight(l.lr), l.left.m.writePending, f, FramesOf(l.left.m.events));
    }
    assert PeerOk(l'.left);
    QuietStep(l, l');
  }

  lemma PingRoutable(a: seq<Frame>, b: seq<Frame>, c: seq<Frame>, f: Frame, d: seq<Frame>)
    requires AllRoutable(a + (b + (c + d))) && Routable(f)
    ensures AllRoutable(a + (b + ((c + [f]) + d)))
  {
    RoutableParts(a, b + (c + d));
    RoutableParts(b, c + d);
    RoutableParts(c, d);
  }

  lemma RoutableParts(a: seq<Frame>, b: seq<Frame>)
    ensures AllRoutable(a + b) <==> AllRoutable(a) && AllRoutable(b)
  {
    if AllRoutable(a + b) {
      assert forall i | 0 <= i < |a| :: (a + b)[i] == a[i];
      assert forall i | 0 <= i < |b| :: (a + b)[|a| + i] == b[i];
    }
  }

  lemma KeepAliveMoveInv(l: Link, now: nat)
    requires LinkInv(l) && CanMove(l, KeepAliveMove(now))
    ensures LinkInv(Make(l, KeepAliveMove(now)))
  {
    hide LinkInv;
    var l' := Make(l, KeepAliveMove(now));
    if l'.left.m != l.left.m {
      QueuePingInv(l, l', PingFrame(SYN, l'.left.m.pingId));
    } else {
      assert l' == l;
    }
  }

  // ----------------------------------------------------------- steps of one stream

  /** One stream changes and keeps its invariant; the others are untouched. */
  lemma OneStream(l: Link, l': Link, id: StreamId)
    requires LinkInv(l) && Decodable(l') && id != RESERVED_STREAM_ID
    requires Inv(PairOf(l', id))
    requires forall k: StreamId | k != RESERVED_STREAM_ID && k != id ::
      && EndOf(l'.left, k) == EndOf(l.left, k)
      && Only(Pipe(l'), k) == Only(Pipe(l), k)
      && Only(Pipe(SwapLink(l')), k) == Only(Pipe(SwapLink(l)), k)
    requires l'.right == l.right
    ensures forall k: StreamId | k != RESERVED_STREAM_ID :: Inv(PairOf(l', k))
  {
    hide Inv, EndOf, Pipe, Only;
    forall k: StreamId | k != RESERVED_STREAM_ID
      ensures Inv(PairOf(l', k))
    {
      if k != id {
        assert PairOf(l', k) == PairOf(l, k);
      }
    }
  }

  lemma {:induction false} OnlyOwn(sent: seq<Frame>, id: StreamId, k: StreamId)
    requires Emitted(sent, id, true) || Emitted(sent, id, false)
    ensures Only(sent, k) == if k == id then sent else []
  {
    if sent != [] {
      assert Emitted(sent[1..], id, true) || Emitted(sent[1..], id, false);
      OnlyOwn(sent[1..], id, k);
      assert sent == [sent[0]] + sent[1..];
    }
  }

  /** New events append their frames to the pipe. */
  lemma EventsExtendPipe(l: Link, l': Link, events: seq<StreamEvent>)
    requires Decodable(l) && l'.lr == l.lr
    requires l'.left.m.events == l.left.m.events + events
    requires l'.left.m.writePending == l.left.m.writePending
    requires l'.right == l.right
    ensures Pipe(l') == Pipe(l) + FramesOf(events)
  {
    hide InFlight;
    FramesOfConcat(l.left.m.events, events);
    var r, w, q, e, n := l.right.m.readPending + l.right.batch, InFlight(l.lr), l.left.m.writePending,
                         FramesOf(l.left.m.events), FramesOf(events);
    ConcatAssoc(q, e, n);
    ConcatAssoc(w, q + e, n);
    ConcatAssoc(r, w + (q + e), n);
  }

  /** The shape of every step in which stream `id` of the left peer emits frames. */
  lemma EmitInv(l: Link, l': Link, id: StreamId, events: seq<StreamEvent>, next: Pair)
    requires LinkInv(l) && id != RESERVED_STREAM_ID
    requires l' == l.(left := l'.left)
    requires l'.left.m.events == l.left.m.events + events
    requires l'.left.m == l.left.m.(events := l'.left.m.events, nextId := l'.left.m.nextId, streams := l'.left.m.streams)
    requires l'.left.batch == l.left.batch && l'.left.blocked == l.left.blocked
    requires PeerOk(l'.left)
    requires Emitted(FramesOf(events), id, true) || Emitted(FramesOf(events), id, false)
    requires forall k: StreamId | k != id :: EndOf(l'.left, k) == EndOf(l.left, k)
    requires Inv(next)
    requires Decodable(l) && next == PairOf(l, id).(left := EndOf(l'.left, id), out := PairOf(l, id).out + FramesOf(events))
    ensures LinkInv(l')
  {
    hide Inv, EndOf, WireOk, InFlight, PeerOk, Only;
    var sent := FramesOf(events);
    EventsExtendPipe(l, l', events);
    assert Pipe(SwapLink(l')) == Pipe(SwapLink(l));
    forall k: StreamId
      ensures Only(Pipe(l'), k) == Only(Pipe(l), k) + if k == id then sent else []
    {
      OnlyConcat(Pipe(l), sent, k);
      OnlyOwn(sent, id, k);
    }
    forall k: StreamId
      ensures k != id ==> Only(Pipe(l'), k) == Only(Pipe(l), k)
    {
      ConcatEmpty(Only(Pipe(l), k));
    }
    assert PairOf(l', id) == next;
    assert AllRoutable(Pipe(l')) by {
      RoutableParts(Pipe(l), sent);
    }
    OneStream(l, l', id);
  }

  lemma LinkFacts(l: Link, id: StreamId)
    requires LinkInv(l) && id != RESERVED_STREAM_ID
    ensures Decodable(l) && PeerOk(l.left) && PeerOk(l.right)
    ensures Inv(PairOf(l, id))
  {
    hide PeerOk, Inv, EndOf, Only, Pipe;
    WireOkDecodes(l);
  }

  lemma EmitPeerOk(p: Peer, id: StreamId, h: Handle, events: seq<StreamEvent>)
    requires PeerOk(p) && id in p.handles
    requires h.s.id == id && h.s.maxRecvWindow == p.m.config.maxWindow
    requires SendGoAway !in events
    ensures PeerOk(Emit(p, id, h, events))
  {
    hide Only;
  }

  lemma ActMoveInv(l: Link, id: StreamId, a: Action)
    requires LinkInv(l) && CanMove(l, ActMove(id, a))
    ensures LinkInv(Make(l, ActMove(id, a)))
  {
    hide LinkInv, Inv, Poll, PeerOk, Pipe, Only, Emitted;
    HandleIdOk(l, id);
    LinkFacts(l, id);
    var l' := Make(l, ActMove(id, a));
    var p := PairOf(l, id);
    var h := l.left.handles[id];
    ActInv(p, a);
    ActKeepsBooks(p, a);
    var r := Poll(h.s, a, true);
    var h' := h.(s := r.s, wrote := h.wrote + Given(a, r), read := h.read + Taken(a, r));
    EmitPeerOk(l.left, id, h', r.events);
    EmitInv(l, l', id, r.events, Next(p, Act(a)));
  }

  lemma HandleIdOk(l: Link, id: StreamId)
    requires LinkInv(l) && id in l.left.handles
    ensures id != RESERVED_STREAM_ID
    ensures l.left.handles[id].s.id == id && l.left.handles[id].s.maxRecvWindow == l.left.m.config.maxWindow
  {
    hide Inv, EndOf, Only, Pipe;
  }

  lemma ActKeepsBooks(p: Pair, a: Action)
    requires Inv(p) && Enabled(p, Act(a))
    ensures var r := Poll(p.left.s, a, true); r.s.id == p.left.s.id && r.s.maxRecvWindow == p.left.s.maxRecvWindow
  {
    hide Poll;
    InvHealthy(p);
    PollBalanced(p.left.s, a);
  }

  lemma DropMoveInv(l: Link, id: StreamId)
    requires LinkInv(l) && CanMove(l, DropMove(id))
    ensures LinkInv(Make(l, DropMove(id)))
  {
    hide LinkInv, Inv, DropEvents, PeerOk, Pipe, Only, Emitted;
    HandleIdOk(l, id);
    LinkFacts(l, id);
    var l' := Make(l, DropMove(id));
    var p := PairOf(l, id);
    var h := l.left.handles[id];
    DropInv(p);
    EmitPeerOk(l.left, id, h.(dropped := true), DropEvents(h.s, true));
    EmitInv(l, l', id, DropEvents(h.s, true), Next(p, Drop));
  }

  lemma OpenPeerOk(p: Peer, s: Streams.Stream, events: seq<StreamEvent>)
    requires PeerOk(p) && p.m.nextId as nat + 2 <= U32_MAX
    requires s.id == p.m.nextId && s.maxRecvWindow == p.m.config.maxWindow
    requires SendGoAway !in events
    ensures var id := p.m.nextId;
      && id != RESERVED_STREAM_ID && id !in p.handles && id !in p.m.streams && Opens(p.m.role, id)
      && PeerOk(p.(m := p.m.(nextId := id + 2, streams := p.m.streams + {id}, events := p.m.events + events),
                   handles := p.handles[id := Handle(s, false, [], [])]))
  {
    hide Only;
  }

  lemma OpenMoveInv(l: Link)
    requires LinkInv(l) && CanMove(l, OpenMove)
    ensures LinkInv(Make(l, OpenMove))
    ensures l.left.m.nextId !in l.left.handles
  {
    hide LinkInv, Inv, Created, PeerOk, Pipe, Only, Emitted;
    var l' := Make(l, OpenMove);
    var id := l.left.m.nextId;
    NextIdOk(l);
    LinkFacts(l, id);
    var p := PairOf(l, id);
    OpenInv(p);
    InvEnd(p);
    BirthFacts(p.left);
    var c := Created(id, Init, l.left.m.config.maxWindow);
    OpenPeerOk(l.left, c.s, c.events);
    EmitInv(l, l', id, c.events, Next(p, Open));
  }

  lemma NextIdOk(l: Link)
    requires LinkInv(l)
    ensures var id := l.left.m.nextId;
      id != RESERVED_STREAM_ID && Opens(l.left.m.role, id) && id !in l.left.handles && id !in l.left.m.streams
  {
    hide Inv, EndOf, Only, Pipe;
  }

  lemma InvEnd(p: Pair)
    requires Inv(p)
    ensures EndOk(p.left)
  {}

  lemma BirthFacts(e: End)
    requires EndOk(e) && e.phase == Unborn
    ensures var c := Created(e.s.id, BirthState(e.opener), e.s.maxRecvWindow);
      && c.s.id == e.s.id && c.s.maxRecvWindow == e.s.maxRecvWindow
      && Emitted(FramesOf(c.events), e.s.id, false)
      && SendGoAway !in c.events
  {
    CreatedBalanced(e.s.id, BirthState(e.opener), e.s.maxRecvWindow);
  }

  // -------------------------------------------------------------- events and decoding

  lemma ForgetInv(l: Link, id: StreamId)
    requires LinkInv(l)
    ensures LinkInv(l.(left := Forget(l.left, id)))
  {
    hide Inv, Only, InFlight;
    var l' := l.(left := Forget(l.left, id));
    WireOkDecodes(l);
    assert Pipe(l') == Pipe(l) && Pipe(SwapLink(l')) == Pipe(SwapLink(l));
    if id in l.left.m.streams {
      LinkFacts(l, id);
      ForgetPeerOk(l.left, id);
      DetachInv(PairOf(l, id));
      assert PairOf(l', id) == Next(PairOf(l, id), Detach);
      hide EndOf, Pipe, WireOk, PeerOk;
      ForgetOthers(l.left, id);
      OneStream(l, l', id);
    } else {
      assert Forget(l.left, id).m.streams == l.left.m.streams;
      assert l' == l;
    }
  }

  lemma ForgetOthers(p: Peer, id: StreamId)
    ensures forall k: StreamId | k != id :: EndOf(Forget(p, id), k) == EndOf(p, k)
  {}

  lemma ForgetPeerOk(p: Peer, id: StreamId)
    requires PeerOk(p) && id in p.m.streams
    ensures PeerOk(Forget(p, id))
  {
    hide Only;
  }

  lemma EventMoveInv(l: Link)
    requires LinkInv(l) && CanMove(l, EventMove)
    ensures LinkInv(Make(l, EventMove))
  {
    hide Inv, Only, InFlight, WireOk;
    var p := l.left;
    var e := p.m.events[0];
    var q := p.(m := p.m.(events := p.m.events[1..]));
    WireOkDecodes(l);
    assert p.m.events[0] != SendGoAway;
    assert PeerOk(q);
    if e.SendFrame? {
      var l' := Make(l, EventMove);
      ConcatAssoc(p.m.writePending, [e.frame], FramesOf(p.m.events[1..]));
      assert Pipe(l') == Pipe(l);
      assert PeerOk(l'.left);
      SamePipes(l, l');
    } else {
      var l1 := l.(left := q);
      ConcatEmpty(FramesOf(p.m.events[1..]));
      assert Pipe(l1) == Pipe(l);
      SamePipes(l, l1);
      ForgetInv(l1, e.id);
    }
  }

  /** A frame leaves the wire and joins the frames waiting to be distributed. */
  lemma ReceiveInv(l: Link, l': Link, f: Frame)
    requires LinkInv(l) && l.left.batch == []
    requires WireOk(l'.rl, l.left.m.config.maxWindow) && Decodable(l) && Decodable(l')
    requires InFlight(l.rl) == [f] + InFlight(l'.rl)
    requires f.header.streamId != RESERVED_STREAM_ID
    requires l' == l.(left := l.left.(m := l.left.m.(readPending := l.left.m.readPending + [f])), rl := l'.rl)
    ensures LinkInv(l')
  {
    hide Inv, Only, InFlight, WireOk, FramesOf;
    var rp, w, y := l.left.m.readPending, InFlight(l'.rl), l.right.m.writePending + FramesOf(l.right.m.events);
    ConcatEmpty(rp);
    ConcatEmpty(rp + [f]);
    ConcatAssoc([f], w, y);
    ConcatAssoc(rp, [f], w + y);
    assert Pipe(SwapLink(l')) == Pipe(SwapLink(l));
    assert PeerOk(l'.left);
    SamePipes(l, l');
  }

  /** A session frame leaves the wire: no stream notices. */
  lemma TakePingInv(l: Link, l': Link, f: Frame)
    requires LinkInv(l) && l.left.batch == []
    requires WireOk(l'.rl, l.left.m.config.maxWindow) && Decodable(l) && Decodable(l')
    requires InFlight(l.rl) == [f] + InFlight(l'.rl)
    requires f.header.streamId == RESERVED_STREAM_ID
    requires l' == l.(rl := l'.rl)
    ensures LinkInv(l')
  {
    hide Inv, WireOk, FramesOf, EndOf, PeerOk, Only;
    var rp, w, y := l.left.m.readPending + l.left.batch, InFlight(l'.rl), l.right.m.writePending + FramesOf(l.right.m.events);
    forall id: StreamId | id != RESERVED_STREAM_ID
      ensures Only(Pipe(SwapLink(l')), id) == Only(Pipe(SwapLink(l)), id)
    {
      PipeParts(SwapLink(l'), id);
      PipeParts(SwapLink(l), id);
      OnlyConcat([f], w, id);
      OnlyOne(f, id);
      ConcatEmpty(Only(w, id));
    }
    RoutableParts(rp, ([f] + w) + y);
    RoutableParts([f] + w, y);
    RoutableParts([f], w);
    RoutableParts(rp, w + y);
    RoutableParts(w, y);
    assert Pipe(l') == Pipe(l);
    QuietStep(l, l');
  }

  lemma DecodeMoveInv(l: Link)
    requires LinkInv(l) && CanMove(l, DecodeMove)
    ensures LinkInv(Make(l, DecodeMove))
  {
    hide LinkInv, DecodeStep, InFlight, WireOk;
    LinkWires(l);
    var max := l.left.m.config.maxWindow;
    DecodePops(l.rl, max);
    var out := DecodeStep(l.rl.codec, l.rl.buffered).outcome;
    var l1 := l.(rl := AfterDecode(l.rl));
    var l' := Make(l, DecodeMove);
    WireOkDecodes(l1);
    if out.NeedMore? {
      SameFlightInv(l, l1);
    } else {
      DecodedInv(l, l1, out.frame);
    }
  }

  lemma DecodedInv(l: Link, l1: Link, f: Frame)
    requires LinkInv(l) && l.left.batch == []
    requires Decodable(l) && Decodable(l1) && WireOk(l1.rl, l.left.m.config.maxWindow)
    requires InFlight(l.rl) == [f] + InFlight(l1.rl)
    requires l1 == l.(rl := l1.rl)
    ensures LinkInv(l1.(left := l.left.(m := HandleFrameIn(l.left.m, f))))
  {
    hide LinkInv, InFlight, WireOk;
    var l' := l1.(left := l.left.(m := HandleFrameIn(l.left.m, f)));
    NextIsRoutable(l, f, InFlight(l1.rl));
    if f.header.ty == Ping {
      TakePingInv(l, l1, f);
      if f.header.flags.syn {
        QueuePingInv(l1, l', PingFrame(ACK, f.header.length));
      } else {
        PingAnswered(l1, l');
      }
    } else {
      ReceiveInv(l, l', f);
    }
  }

  lemma LinkWires(l: Link)
    requires LinkInv(l)
    ensures Decodable(l)
    ensures WireOk(l.lr, l.right.m.config.maxWindow) && WireOk(l.rl, l.left.m.config.maxWindow)
  {
    hide Inv, Only, InFlight, PeerOk, AllRoutable;
  }

  lemma SameFlightInv(l: Link, l': Link)
    requires LinkInv(l) && Decodable(l) && Decodable(l')
    requires WireOk(l'.rl, l.left.m.config.maxWindow) && InFlight(l'.rl) == InFlight(l.rl)
    requires l' == l.(rl := l'.rl)
    ensures LinkInv(l')
  {
    hide Inv, Only, InFlight, WireOk, FramesOf, PeerOk;
    SamePipes(l, l');
  }

  lemma NextIsRoutable(l: Link, f: Frame, rest: seq<Frame>)
    requires LinkInv(l) && Decodable(l)
    requires InFlight(l.rl) == [f] + rest
    ensures Routable(f)
  {
    hide Inv, Only, InFlight, WireOk, FramesOf;
    var rp, y := l.left.m.readPending + l.left.batch, l.right.m.writePending + FramesOf(l.right.m.events);
    RoutableParts(rp, ([f] + rest) + y);
    RoutableParts([f] + rest, y);
    RoutableParts([f], rest);
    assert AllRoutable([f]);
    assert [f][0] == f;
  }

  lemma PingAnswered(l: Link, l': Link)
    requires LinkInv(l)
    requires l' == l.(left := l.left.(m := l.left.m.(pings := l'.left.m.pings)))
    ensures LinkInv(l')
  {
    hide Inv, Only, InFlight, WireOk, FramesOf;
    WireOkDecodes(l);
    SamePipes(l, l');
  }

  // ------------------------------------------------------------------------- sorting

  /** The inbound pipe without the frame being sorted. */
  function PipeAfter(l: Link): seq<Frame>
    requires Decodable(l) && l.left.batch != []
  {
    (l.left.m.readPending + l.left.batch[1..]) +
    (InFlight(l.rl) + (l.right.m.writePending + FramesOf(l.right.m.events)))
  }

  /** An unblocked frame at the head of the batch is the oldest frame of its stream. */
  lemma HeadOfPipe(l: Link, k: StreamId)
    requires LinkInv(l) && Decodable(l) && l.left.batch != []
    requires l.left.batch[0].header.streamId !in l.left.blocked
    ensures var f := l.left.batch[0];
      Only(Pipe(SwapLink(l)), k) ==
      (if k == f.header.streamId then [f] else []) + Only(PipeAfter(l), k)
  {
    hide InFlight, FramesOf, WireOk, Inv, Only;
    var f, rp, rest := l.left.batch[0], l.left.m.readPending, l.left.batch[1..];
    var w := InFlight(l.rl) + (l.right.m.writePending + FramesOf(l.right.m.events));
    var one := Only([f], k);
    assert l.left.batch == [f] + rest;
    OnlyConcat(rp + l.left.batch, w, k);
    OnlyConcat(rp, l.left.batch, k);
    OnlyConcat([f], rest, k);
    OnlyConcat(rp + rest, w, k);
    OnlyConcat(rp, rest, k);
    OnlyOne(f, k);
    if k == f.header.streamId {
      assert BlockedCovers(l.left.m, l.left.blocked);
      assert Only(rp, k) == [];
      ConcatEmpty(one + Only(rest, k));
      ConcatEmpty(Only(rest, k));
      ConcatAssoc(one, Only(rest, k), Only(w, k));
    } else {
      ConcatEmpty(Only(rest, k));
      ConcatEmpty(Only(PipeAfter(l), k));
    }
  }

  /** What the SYN discipline says about the oldest frame of a stream. */
  lemma SynMeansUnborn(p: Pair)
    requires Inv(p) && p.back != []
    ensures p.back[0].header.flags.syn <==> p.left.phase == Unborn
    ensures p.left.phase == Unborn ==> !p.left.opener
  {
    hide SendTotal, RecvTotal, Unread, Gap;
    assert SynDiscipline(p) && SynDiscipline(Swap(p));
  }

  /** Assembling a sorting step: the frame leaves the pipe, its stream keeps its invariant, and
      nothing of any other stream moves. */
  lemma SortedInv(l: Link, l': Link)
    requires LinkInv(l) && Decodable(l) && l.left.batch != []
    requires l.left.batch[0].header.streamId !in l.left.blocked
    requires l.left.batch[0].header.streamId != RESERVED_STREAM_ID
    requires l' == l.(left := l'.left)
    requires PeerOk(l'.left) && l'.left.m.role == l.left.m.role && l'.left.m.config == l.left.m.config
    requires l'.left.m.readPending == l.left.m.readPending && l'.left.batch == l.left.batch[1..]
    requires AllRoutable(Pipe(l'))
    requires forall k: StreamId | k != l.left.batch[0].header.streamId ::
      EndOf(l'.left, k) == EndOf(l.left, k) && Only(Pipe(l'), k) == Only(Pipe(l), k)
    requires Inv(PairOf(l', l.left.batch[0].header.streamId))
    ensures LinkInv(l')
  {
    hide InFlight, FramesOf, WireOk, Inv, Only, EndOf, PeerOk;
    var f := l.left.batch[0];
    assert Pipe(SwapLink(l')) == PipeAfter(l);
    forall k: StreamId | k != f.header.streamId
      ensures Only(Pipe(SwapLink(l')), k) == Only(Pipe(SwapLink(l)), k)
    {
      HeadOfPipe(l, k);
      ConcatEmpty(Only(PipeAfter(l), k));
    }
    assert AllRoutable(Pipe(SwapLink(l'))) by {
      var rp, rest := l.left.m.readPending, l.left.batch[1..];
      var w := InFlight(l.rl) + (l.right.m.writePending + FramesOf(l.right.m.events));
      assert l.left.batch == [f] + rest;
      RoutableParts(rp + l.left.batch, w);
      RoutableParts(rp, [f] + rest);
      RoutableParts([f], rest);
      RoutableParts(rp, rest);
      RoutableParts(rp + rest, w);
    }
    OneStream(l, l', f.header.streamId);
  }

  /** The stream's pair with its oldest inbound frame taken off. */
  lemma PairAfterSort(l: Link, l': Link)
    requires LinkInv(l) && Decodable(l) && l.left.batch != []
    requires l.left.batch[0].header.streamId !in l.left.blocked
    requires l' == l.(left := l'.left)
    requires l'.left.m.readPending == l.left.m.readPending && l'.left.batch == l.left.batch[1..]
    ensures var id := l.left.batch[0].header.streamId;
      var p := PairOf(l, id);
      && p.back != [] && p.back[0] == l.left.batch[0]
      && PairOf(l', id) == Pair(EndOf(l'.left, id), p.right, Only(Pipe(l'), id), p.back[1..])
  {
    hide InFlight, FramesOf, WireOk, Inv, Only, EndOf, PeerOk;
    var id := l.left.batch[0].header.streamId;
    HeadOfPipe(l, id);
    var back := Only(PipeAfter(l), id);
    assert Pipe(SwapLink(l')) == PipeAfter(l);
    assert ([l.left.batch[0]] + back)[1..] == back;
  }

  lemma DetachThenDiscard(p: Pair)
    requires Inv(p) && Enabled(p, Detach) && p.back != []
    ensures Inv(Next(Next(p, Detach), Discard))
  {
    hide Inv;
    DetachInv(p);
    DiscardInv(Next(p, Detach));
  }

  /** A frame that creates nothing changes at most the routing and the handle of its stream. */
  lemma RoutedShape(p: Peer, answer: Answer)
    requires p.batch != []
    requires var f := p.batch[0]; !f.header.flags.syn && f.header.streamId !in p.blocked
    requires p.batch[0].header.streamId in p.handles
    requires p.batch[0].header.streamId in p.m.streams ==> answer != Full
    ensures var f := p.batch[0];
      var id := f.header.streamId;
      var h := p.handles[id];
      var known := id in p.m.streams;
      var gone := known && (answer == Disconnected || f.header.flags.rst);
      var s := if known && answer == Accepted then Push(h.s, f).s else h.s;
      SortPeer(p, answer)
      == Peer(p.m.(streams := if gone then p.m.streams - {id} else p.m.streams),
              p.handles[id := h.(s := if gone then Disconnect(s).s else s)], p.batch[1..], p.blocked)
  {
    hide Push, Disconnect;
    var id := p.batch[0].header.streamId;
    assert p.handles[id := p.handles[id]] == p.handles;
    if id in p.m.streams {
      assert p.m.streams + {} == p.m.streams;
    }
  }

  /** The peer after a frame that created nothing: a known stream takes it or loses it. */
  lemma RoutedPeer(p: Peer, answer: Answer)
    requires p.batch != []
    requires var f := p.batch[0]; !f.header.flags.syn && f.header.streamId !in p.blocked
    requires Plausible(p, p.batch[0], answer)
    requires p.batch[0].header.streamId in p.handles
    requires p.batch[0].header.streamId in p.m.streams ==> answer != Full
    requires PeerOk(p)
    ensures var f := p.batch[0];
      var id := f.header.streamId;
      var q := SortPeer(p, answer);
      var e := EndOf(p, id);
      && PeerOk(q)
      && q.m == p.m.(streams := q.m.streams)
      && q.batch == p.batch[1..]
      && (forall k: StreamId | k != id :: EndOf(q, k) == EndOf(p, k))
      && (e.phase == Detached ==> EndOf(q, id) == e)
      && (e.phase == Attached && answer == Accepted ==>
            var t := e.(s := Push(e.s, f).s);
            EndOf(q, id) == if f.header.flags.rst then t.(s := Disconnect(t.s).s, phase := Detached) else t)
      && (e.phase == Attached && answer == Disconnected ==>
            EndOf(q, id) == e.(s := Disconnect(e.s).s, phase := Detached))
      && (e.phase == Attached && answer == Accepted ==> !e.dropped)
  {
    hide Only, SortPeer, Fresh, PeerOk;
    RoutedShape(p, answer);
    var id := p.batch[0].header.streamId;
    ReroutedPeerOk(p, SortPeer(p, answer), id);
    HandleFacts(p, id);
  }

  lemma HandleFacts(p: Peer, id: StreamId)
    requires PeerOk(p) && id in p.handles
    ensures p.handles[id].s.id == id && p.handles[id].s.maxRecvWindow == p.m.config.maxWindow
  {
    hide Only;
  }

  /** Dropping a route or touching one handle's channel keeps a peer in order. */
  lemma ReroutedPeerOk(p: Peer, q: Peer, id: StreamId)
    requires id in p.handles && p.batch != [] && id in q.handles
    requires q.m == p.m.(streams := q.m.streams) && q.m.streams <= p.m.streams
    requires q.handles == p.handles[id := q.handles[id]] && q.batch == p.batch[1..] && q.blocked == p.blocked
    requires q.handles[id].s.id == p.handles[id].s.id && q.handles[id].s.maxRecvWindow == p.handles[id].s.maxRecvWindow
    requires PeerOk(p)
    ensures PeerOk(q)
  {
    hide Only;
  }

  /** What routing a frame does to the pair of its stream: it is discarded, delivered, or cut off. */
  lemma RoutedPairInv(l: Link, l': Link, answer: Answer)
    requires CanMove(l, SortMove(answer)) && l' == Make(l, SortMove(answer))
    requires var f := l.left.batch[0]; !f.header.flags.syn && f.header.streamId !in l.left.blocked
    requires l.left.batch[0].header.streamId in l.left.m.streams ==> answer != Full
    requires Decodable(l) && Decodable(l') && LinkInv(l)
    ensures Inv(PairOf(l', l.left.batch[0].header.streamId))
  {
    hide LinkInv, PeerOk, EndOf, Pipe, Only, SortPeer, Inv, Created, Poll, DropEvents, FramesOf, RejectFrame, Push, Disconnect;
    var f := l.left.batch[0];
    var id := f.header.streamId;
    BatchIdOk(l);
    LinkFacts(l, id);
    var p := PairOf(l, id);
    PairHead(l);
    SynMeansUnborn(p);
    BornHasHandle(l.left, id);
    RoutedPeer(l.left, answer);
    PairAfterSort(l, l');
    PipeKept(l, l');
    if p.left.phase == Detached {
      DiscardInv(p);
      assert PairOf(l', id) == Next(p, Discard);
    } else if answer == Accepted {
      DeliverInv(p);
      assert PairOf(l', id) == Next(p, Deliver);
    } else {
      DetachThenDiscard(p);
      assert PairOf(l', id) == Next(Next(p, Detach), Discard);
    }
  }

  lemma SortRoutedInv(l: Link, answer: Answer)
    requires CanMove(l, SortMove(answer))
    requires var f := l.left.batch[0]; !f.header.flags.syn && f.header.streamId !in l.left.blocked
    requires l.left.batch[0].header.streamId in l.left.m.streams ==> answer != Full
    requires LinkInv(l)
    ensures LinkInv(Make(l, SortMove(answer)))
  {
    hide LinkInv, PeerOk, EndOf, Pipe, Only, SortPeer, Inv;
    var l' := Make(l, SortMove(answer));
    var id := l.left.batch[0].header.streamId;
    BatchIdOk(l);
    LinkFacts(l, id);
    PairHead(l);
    SynMeansUnborn(PairOf(l, id));
    BornHasHandle(l.left, id);
    RoutedPeer(l.left, answer);
    PipeKept(l, l');
    LinkRoutable(l);
    RoutedPairInv(l, l', answer);
    SortedInv(l, l');
  }

  lemma BatchIdOk(l: Link)
    requires LinkInv(l) && l.left.batch != []
    ensures l.left.batch[0].header.streamId != RESERVED_STREAM_ID
  {
    hide Inv, EndOf, Only, Pipe;
  }

  lemma PairHead(l: Link)
    requires LinkInv(l) && Decodable(l) && l.left.batch != []
    requires l.left.batch[0].header.streamId !in l.left.blocked
    ensures var p := PairOf(l, l.left.batch[0].header.streamId); p.back != [] && p.back[0] == l.left.batch[0]
  {
    hide Inv, EndOf, Only, Pipe, LinkInv;
    HeadOfPipe(l, l.left.batch[0].header.streamId);
  }

  lemma BornHasHandle(p: Peer, id: StreamId)
    requires PeerOk(p)
    ensures EndOf(p, id).phase != Unborn <==> id in p.handles
    ensures EndOf(p, id).phase == Attached <==> id in p.m.streams
  {}

  lemma PipeKept(l: Link, l': Link)
    requires Decodable(l) && l' == l.(left := l'.left)
    requires l'.left.m.writePending == l.left.m.writePending && l'.left.m.events == l.left.m.events
    ensures Pipe(l') == Pipe(l)
  {}

  lemma LinkRoutable(l: Link)
    requires LinkInv(l) && Decodable(l)
    ensures AllRoutable(Pipe(l))
  {
    hide Inv, EndOf, Only, Pipe;
  }

  /** A frame that is queued back stays where it was in its stream's order. */
  lemma SortRequeuedInv(l: Link, answer: Answer)
    requires CanMove(l, SortMove(answer))
    requires SortOne(l.left.m, l.left.blocked, l.left.batch[0], answer) ==
             Sorted(l.left.m.(readPending := l.left.m.readPending + [l.left.batch[0]]),
                    l.left.blocked + {l.left.batch[0].header.streamId}, Requeued, None, false)
    requires l.left.batch[0].header.flags.syn ==> l.left.batch[0].header.streamId in l.left.blocked
    requires LinkInv(l)
    ensures LinkInv(Make(l, SortMove(answer)))
  {
    hide Inv, WireOk, InFlight, SortOne, Only, FramesOf, PeerOk;
    var p := l.left;
    var f := p.batch[0];
    var l' := Make(l, SortMove(answer));
    WireOkDecodes(l);
    assert p.batch == [f] + p.batch[1..];
    ConcatAssoc(p.m.readPending, [f], p.batch[1..]);
    assert Pipe(SwapLink(l')) == Pipe(SwapLink(l));
    assert l'.left.handles == p.handles;
    RequeuedPeerOk(p, l'.left, answer);
    SamePipes(l, l');
  }

  lemma RequeuedPeerOk(p: Peer, q: Peer, answer: Answer)
    requires p.batch != [] && q.handles == p.handles && q.batch == p.batch[1..]
    requires q.m == p.m.(readPending := p.m.readPending + [p.batch[0]])
    requires SortOne(p.m, p.blocked, p.batch[0], answer).session == q.m
    requires SortOne(p.m, p.blocked, p.batch[0], answer).blocked == q.blocked
    requires PeerOk(p)
    ensures PeerOk(q)
  {
    hide SortOne, Only;
    SortOneOrder(p.m, p.blocked, p.batch[0], answer);
  }

  /** The peer after an inbound SYN has created a stream. */
  function AcceptedAs(p: Peer, c: SendResult): Peer
    requires p.batch != []
  {
    var f := p.batch[0];
    var id := f.header.streamId;
    var s := Push(c.s, f).s;
    var m := p.m.(backlog := p.m.backlog + [id], events := p.m.events + c.events);
    if f.header.flags.rst then
      Peer(m, p.handles[id := Handle(Disconnect(s).s, false, [], [])], p.batch[1..], p.blocked)
    else
      Peer(m.(streams := p.m.streams + {id}), p.handles[id := Handle(s, false, [], [])], p.batch[1..], p.blocked)
  }

  lemma AcceptedShape(p: Peer, answer: Answer)
    requires p.batch != []
    requires var f := p.batch[0]; f.header.flags.syn && f.header.streamId !in p.blocked
    requires Roomy(p.m) && !p.m.localGoAway
    requires p.batch[0].header.streamId !in p.handles && p.batch[0].header.streamId !in p.m.streams
    ensures SortPeer(p, answer) == AcceptedAs(p, Created(p.batch[0].header.streamId, SynReceived, p.m.config.maxWindow))
  {
    hide Created, Push, Disconnect;
    var id := p.batch[0].header.streamId;
    assert p.m.streams + {id} - {id} == p.m.streams;
  }

  lemma AcceptedPeer(p: Peer, answer: Answer)
    requires p.batch != []
    requires var f := p.batch[0];
      f.header.flags.syn && f.header.streamId !in p.blocked && f.header.streamId != RESERVED_STREAM_ID
    requires Roomy(p.m) && p.batch[0].header.streamId !in p.handles && !Opens(p.m.role, p.batch[0].header.streamId)
    requires PeerOk(p)
    ensures var f := p.batch[0];
      var id := f.header.streamId;
      var q := SortPeer(p, answer);
      var c := Created(id, SynReceived, p.m.config.maxWindow);
      var t := End(Push(c.s, f).s, Attached, false, false, [], []);
      && PeerOk(q)
      && q.m == p.m.(streams := q.m.streams, backlog := p.m.backlog + [id], events := p.m.events + c.events)
      && q.batch == p.batch[1..]
      && (forall k: StreamId | k != id :: EndOf(q, k) == EndOf(p, k))
      && EndOf(q, id) == if f.header.flags.rst then t.(s := Disconnect(t.s).s, phase := Detached) else t
  {
    hide Only, Created, SortPeer, Roomy, Push, Disconnect;
    var id := p.batch[0].header.streamId;
    var c := Created(id, SynReceived, p.m.config.maxWindow);
    BirthFacts(UnbornEnd(id, false, p.m.config.maxWindow));
    AcceptedShape(p, answer);
    PushKeeps(c.s, p.batch[0]);
    AcceptedPeerOk(p, c);
  }

  lemma PushKeeps(s: Streams.Stream, f: Frame)
    ensures var t := Push(s, f).s; t.id == s.id && t.maxRecvWindow == s.maxRecvWindow
    ensures var t := Disconnect(Push(s, f).s).s; t.id == s.id && t.maxRecvWindow == s.maxRecvWindow
  {}

  lemma AcceptedPeerOk(p: Peer, c: SendResult)
    requires p.batch != [] && p.batch[0].header.streamId !in p.handles
    requires p.batch[0].header.streamId != RESERVED_STREAM_ID && !Opens(p.m.role, p.batch[0].header.streamId)
    requires c.s.id == p.batch[0].header.streamId && c.s.maxRecvWindow == p.m.config.maxWindow && SendGoAway !in c.events
    requires PeerOk(p)
    ensures PeerOk(AcceptedAs(p, c))
  {
    hide Only, Push, Disconnect;
    PushKeeps(c.s, p.batch[0]);
  }

  lemma SortAcceptedInv(l: Link, answer: Answer)
    requires CanMove(l, SortMove(answer))
    requires var f := l.left.batch[0]; f.header.flags.syn && f.header.streamId !in l.left.blocked
    requires Roomy(l.left.m)
    requires LinkInv(l)
    ensures LinkInv(Make(l, SortMove(answer)))
  {
    hide LinkInv, PeerOk, EndOf, Pipe, Only, SortPeer, Inv, Created, Roomy, Emitted;
    var l' := Make(l, SortMove(answer));
    var f := l.left.batch[0];
    var id := f.header.streamId;
    BatchIdOk(l);
    LinkFacts(l, id);
    var p := PairOf(l, id);
    PairHead(l);
    SynMeansUnborn(p);
    UnbornFacts(l.left, id);
    AcceptedPeer(l.left, answer);
    PairAfterSort(l, l');
    LinkRoutable(l);
    AcceptInv(p);
    InvEnd(p);
    BirthFacts(p.left);
    SentOnPipe(l, l', id, Created(id, SynReceived, l.left.m.config.maxWindow).events);
    SortedInv(l, l');
  }

  lemma UnbornFacts(p: Peer, id: StreamId)
    requires PeerOk(p) && EndOf(p, id).phase == Unborn
    ensures id !in p.handles && id !in p.m.streams
    ensures EndOf(p, id) == UnbornEnd(id, Opens(p.m.role, id), p.m.config.maxWindow)
  {}

  lemma SentOnPipe(l: Link, l': Link, id: StreamId, events: seq<StreamEvent>)
    requires Decodable(l) && l' == l.(left := l'.left)
    requires l'.left.m.events == l.left.m.events + events
    requires l'.left.m.writePending == l.left.m.writePending
    requires Emitted(FramesOf(events), id, false) && id != RESERVED_STREAM_ID
    requires AllRoutable(Pipe(l))
    ensures AllRoutable(Pipe(l'))
    ensures forall k: StreamId :: Only(Pipe(l'), k) == Only(Pipe(l), k) + if k == id then FramesOf(events) else []
    ensures forall k: StreamId | k != id :: Only(Pipe(l'), k) == Only(Pipe(l), k)
  {
    hide Pipe, Only;
    var sent := FramesOf(events);
    EventsExtendPipe(l, l', events);
    RoutableParts(Pipe(l), sent);
    forall k: StreamId
      ensures Only(Pipe(l'), k) == Only(Pipe(l), k) + if k == id then sent else []
    {
      OnlyConcat(Pipe(l), sent, k);
      OnlyOwn(sent, id, k);
      ConcatEmpty(Only(Pipe(l), k));
    }
    forall k: StreamId | k != id
      ensures Only(Pipe(l'), k) == Only(Pipe(l), k)
    {
      ConcatEmpty(Only(Pipe(l), k));
    }
  }

  lemma RejectedShape(p: Peer, answer: Answer)
    requires p.batch != []
    requires var f := p.batch[0]; f.header.flags.syn && f.header.streamId !in p.blocked
    requires !Roomy(p.m) && !p.m.localGoAway
    requires p.batch[0].header.streamId !in p.handles && p.batch[0].header.streamId !in p.m.streams
    ensures var id := p.batch[0].header.streamId;
      SortPeer(p, answer)
      == Peer(p.m.(writePending := p.m.writePending + [RejectFrame(id)]),
              p.handles[id := Handle(Fresh(id, SynReceived, p.m.config.maxWindow), true, [], [])], p.batch[1..], p.blocked)
  {
    hide Fresh, RejectFrame, Push, Disconnect;
  }

  /** The peer after it has refused an inbound SYN. */
  lemma RejectedPeer(p: Peer, answer: Answer)
    requires p.batch != []
    requires var f := p.batch[0];
      f.header.flags.syn && f.header.streamId !in p.blocked && f.header.streamId != RESERVED_STREAM_ID
    requires !Roomy(p.m) && p.batch[0].header.streamId !in p.handles && !Opens(p.m.role, p.batch[0].header.streamId)
    requires PeerOk(p)
    ensures var f := p.batch[0];
      var id := f.header.streamId;
      var q := SortPeer(p, answer);
      && PeerOk(q)
      && q.m == p.m.(writePending := p.m.writePending + [RejectFrame(id)])
      && q.batch == p.batch[1..]
      && (forall k: StreamId | k != id :: EndOf(q, k) == EndOf(p, k))
      && EndOf(q, id) == EndOf(p, id).(phase := Detached, dropped := true)
  {
    hide Only, SortPeer, RejectFrame, Roomy;
    RejectedShape(p, answer);
  }

  lemma SortRejectedInv(l: Link, answer: Answer)
    requires CanMove(l, SortMove(answer))
    requires var f := l.left.batch[0]; f.header.flags.syn && f.header.streamId !in l.left.blocked
    requires !Roomy(l.left.m)
    requires LinkInv(l)
    ensures LinkInv(Make(l, SortMove(answer)))
  {
    hide LinkInv, PeerOk, EndOf, Pipe, Only, SortPeer, Inv, Roomy;
    var l' := Make(l, SortMove(answer));
    var f := l.left.batch[0];
    var id := f.header.streamId;
    BatchIdOk(l);
    LinkFacts(l, id);
    var p := PairOf(l, id);
    PairHead(l);
    SynMeansUnborn(p);
    UnbornFacts(l.left, id);
    RejectedPeer(l.left, answer);
    PairAfterSort(l, l');
    LinkRoutable(l);
    RejectInv(p);
    UnbornSilent(p);
    ReplyOnPipe(l, l', RejectFrame(id));
    SortedInv(l, l');
  }

  lemma UnbornSilent(p: Pair)
    requires Inv(p) && p.left.phase == Unborn
    ensures p.out == []
  {}

  /** A session's own reply for a stream overtakes nothing: the stream has nothing queued. */
  lemma ReplyOnPipe(l: Link, l': Link, f: Frame)
    requires Decodable(l) && l' == l.(left := l'.left)
    requires l'.left.m.events == l.left.m.events
    requires l'.left.m.writePending == l.left.m.writePending + [f]
    requires Only(Pipe(l), f.header.streamId) == []
    requires AllRoutable(Pipe(l)) && Routable(f)
    ensures AllRoutable(Pipe(l'))
    ensures Only(Pipe(l'), f.header.streamId) == [] + [f]
    ensures forall k: StreamId | k != f.header.streamId :: Only(Pipe(l'), k) == Only(Pipe(l), k)
  {
    hide Only, InFlight, FramesOf;
    PingRoutable(l.right.m.readPending + l.right.batch, InFlight(l.lr), l.left.m.writePending, f, FramesOf(l.left.m.events));
    forall k: StreamId
      ensures k != f.header.streamId ==> Only(Pipe(l'), k) == Only(Pipe(l), k)
      ensures k == f.header.streamId ==> Only(Pipe(l'), k) == [f]
    {
      PipeParts(l, k);
      PipeParts(l', k);
      OnlyConcat(l.left.m.writePending, [f], k);
      OnlyOne(f, k);
      ConcatEmpty(Only(l.left.m.writePending, k));
      ConcatEmpty([f]);
    }
  }

  lemma SortMoveInv(l: Link, answer: Answer)
    requires CanMove(l, SortMove(answer))
    requires LinkInv(l)
    ensures LinkInv(Make(l, SortMove(answer)))
  {
    hide LinkInv, Make, Created;
    var p := l.left;
    var f := p.batch[0];
    var id := f.header.streamId;
    if id in p.blocked {
      assert p.blocked + {id} == p.blocked;
      SortRequeuedInv(l, answer);
    } else if f.header.flags.syn {
      if Roomy(p.m) {
        SortAcceptedInv(l, answer);
      } else {
        SortRejectedInv(l, answer);
      }
    } else if id in p.m.streams && answer == Full {
      SortRequeuedInv(l, answer);
    } else {
      SortRoutedInv(l, answer);
    }
  }

  // ---------------------------------------------------------------- whole runs

  /** Every step of the left side keeps the link invariant. */
  lemma MoveInv(l: Link, mv: Move)
    requires CanMove(l, mv)
    requires LinkInv(l)
    ensures LinkInv(Make(l, mv))
  {
    hide LinkInv, Make, CanMove;
    match mv
    case OpenMove => OpenMoveInv(l);
    case ActMove(id, a) => ActMoveInv(l, id, a);
    case DropMove(id) => DropMoveInv(l, id);
    case AcceptMove => AcceptMoveInv(l);
    case EventMove => EventMoveInv(l);
    case TransmitMove => TransmitMoveInv(l);
    case FeedMove(n) => FeedMoveInv(l, n);
    case DecodeMove => DecodeMoveInv(l);
    case BeginSortMove => BeginSortMoveInv(l);
    case SortMove(answer) => SortMoveInv(l, answer);
    case KeepAliveMove(now) => KeepAliveMoveInv(l, now);
  }

  /** A move by either side. */
  datatype Turn = ByLeft(mv: Move) | ByRight(mv: Move)

  predicate CanTurn(l: Link, t: Turn) {
    CanMove(if t.ByLeft? then l else SwapLink(l), t.mv)
  }

  function Take(l: Link, t: Turn): Link
    requires CanTurn(l, t)
  {
    if t.ByLeft? then Make(l, t.mv) else SwapLink(Make(SwapLink(l), t.mv))
  }

  /** A run: each turn is possible in the state the previous ones lead to. */
  ghost predicate Runs(l: Link, turns: seq<Turn>, end: Link)
    decreases |turns|
  {
    if turns == [] then end == l
    else CanTurn(l, turns[0]) && Runs(Take(l, turns[0]), turns[1..], end)
  }

  lemma {:induction false} RunInv(l: Link, turns: seq<Turn>, end: Link)
    requires LinkInv(l) && Runs(l, turns, end)
    ensures LinkInv(end)
    decreases |turns|
  {
    hide LinkInv, CanMove, Make;
    if turns != [] {
      var t := turns[0];
      if t.ByLeft? {
        MoveInv(l, t.mv);
      } else {
        LinkInvSwap(l);
        MoveInv(SwapLink(l), t.mv);
        LinkInvSwap(Make(SwapLink(l), t.mv));
      }
      RunInv(Take(l, t), turns[1..], end);
    }
  }

  lemma NewLinkInv(client: Config, server: Config)
    requires INITIAL_STREAM_WINDOW <= client.maxWindow && INITIAL_STREAM_WINDOW <= server.maxWindow
    ensures LinkInv(NewLink(client, server))
  {
    var l := NewLink(client, server);
    NewWireOk(server.maxWindow);
    NewWireOk(client.maxWindow);
    WireOkMeansDecodable(l);
    hide WireOk, InFlight, Inv, PairOf;
    assert Pipe(l) == [] && Pipe(SwapLink(l)) == [];
    forall id: StreamId | id != RESERVED_STREAM_ID
      ensures Inv(PairOf(l, id))
    {
      NewPair(client, server, id);
    }
  }

  lemma WireOkMeansDecodable(l: Link)
    requires WireOk(l.lr, l.right.m.config.maxWindow) && WireOk(l.rl, l.left.m.config.maxWindow)
    ensures Decodable(l)
  {}

  lemma NewPair(client: Config, server: Config, id: StreamId)
    requires INITIAL_STREAM_WINDOW <= client.maxWindow && INITIAL_STREAM_WINDOW <= server.maxWindow
    requires Decodable(NewLink(client, server))
    requires Pipe(NewLink(client, server)) == [] && Pipe(SwapLink(NewLink(client, server))) == []
    ensures Inv(PairOf(NewLink(client, server), id))
  {
    hide Inv, Pipe, Fresh;
    var l := NewLink(client, server);
    if Opens(Client, id) {
      InitialInv(id, client.maxWindow, server.maxWindow);
      assert PairOf(l, id) == Initial(id, client.maxWindow, server.maxWindow);
    } else {
      InitialInv(id, server.maxWindow, client.maxWindow);
      assert PairOf(l, id) == Swap(Initial(id, server.maxWindow, client.maxWindow));
      InvSwap(Initial(id, server.maxWindow, client.maxWindow));
    }
  }

  // ------------------------------------------------------- what moves leave alone

  lemma KeepAliveKeeps(m: Session, now: nat)
    ensures var k := KeepAlive(m, now);
      k.Some? ==> k.value == m.(pings := k.value.pings, pingId := k.value.pingId, writePending := k.value.writePending)
  {}

  lemma FrameInKeeps(m: Session, f: Frame)
    ensures var h := HandleFrameIn(m, f);
      h == m.(readPending := h.readPending, writePending := h.writePending, pings := h.pings,
              remoteGoAway := h.remoteGoAway, localGoAway := h.localGoAway)
  {}

  lemma HandleEventKeeps(m: Session, e: StreamEvent)
    requires !e.StreamClosed?
    ensures var h := HandleEvent(m, e); h == m.(writePending := h.writePending, localGoAway := h.localGoAway)
  {}

  /** Moves that touch neither handles nor events nor routing. */
  predicate Idle(mv: Move) {
    mv.AcceptMove? || mv.TransmitMove? || mv.FeedMove? || mv.DecodeMove? || mv.BeginSortMove? || mv.KeepAliveMove?
  }

  lemma IdleKeepsPeer(l: Link, mv: Move)
    requires CanMove(l, mv) && Idle(mv)
    ensures var p, q := l.left, Make(l, mv).left;
      && q.handles == p.handles && q.m.events == p.m.events && q.m.streams == p.m.streams
      && q.m.role == p.m.role && q.m.config == p.m.config && q.m.nextId == p.m.nextId
    ensures Make(l, mv).right == l.right
  {
    hide DecodeStep, SendOn, FeedOn, AfterDecode, KeepAlive, HandleFrameIn;
    match mv
    case KeepAliveMove(now) => KeepAliveKeeps(l.left.m, now);
    case DecodeMove =>
      var out := DecodeStep(l.rl.codec, l.rl.buffered).outcome;
      if out.Item? {
        FrameInKeeps(l.left.m, out.frame);
      }
    case _ =>
  }
}
