/** The promises of a pair of yamux sessions, over every run of the link. */
module Yamux {
  import opened Prelude
  import opened Frames
  import opened Streams
  import opened Accounting
  import opened Duplex
  import opened Sessions
  import opened Wires
  import opened Links

  /** Every frame of a stream on its way from left to right: still in right's channel, or anywhere
      between left's event queue and right's distribution. */
  function Flight(l: Link, id: StreamId): seq<Frame>
    requires Decodable(l) && id in l.right.handles
  {
    l.right.handles[id].s.inbox.queue + Only(Pipe(l), id)
  }

  predicate Shared(l: Link, id: StreamId) {
    id in l.left.handles && id in l.right.handles
  }

  /** Left's send window, the data under way to right and the credit under way to left never add
      up to more than right's receive window, and add up to exactly it while both sessions still
      know the stream. */
  ghost predicate CreditBalances(l: Link, id: StreamId)
    requires Decodable(l) && Shared(l, id)
  {
    var sum := l.left.handles[id].s.sendWindow as nat
               + DataBytes(Flight(l, id)) + Credit(Flight(SwapLink(l), id));
    && sum <= l.right.handles[id].s.recvWindow
    && (id in l.left.m.streams && id in l.right.m.streams ==> sum == l.right.handles[id].s.recvWindow)
  }

  lemma CreditView(l: Link, id: StreamId)
    requires Decodable(l) && Shared(l, id)
    requires Inv(PairOf(l, id))
    ensures CreditBalances(l, id)
  {
    hide Only, Pipe;
    var p := PairOf(l, id);
    assert CreditConserved(p);
    MeasuresConcat(p.right.s.inbox.queue, p.out);
    MeasuresConcat(p.left.s.inbox.queue, p.back);
  }

  lemma SharedFacts(l: Link, id: StreamId)
    requires LinkInv(l) && Shared(l, id)
    ensures id != RESERVED_STREAM_ID && Decodable(l)
    ensures Inv(PairOf(l, id)) && Inv(PairOf(SwapLink(l), id))
  {
    HandleIdOk(l, id);
    LinkFacts(l, id);
    hide LinkInv;
    SwapView(l, id);
    InvSwap(PairOf(l, id));
  }

  /** Credit conservation: in every run, for every stream both sides know, in both directions. */
  lemma CreditConservation(client: Config, server: Config, turns: seq<Turn>, end: Link, id: StreamId)
    requires INITIAL_STREAM_WINDOW <= client.maxWindow && INITIAL_STREAM_WINDOW <= server.maxWindow
    requires Runs(NewLink(client, server), turns, end)
    requires Shared(end, id)
    ensures Decodable(end) && CreditBalances(end, id) && CreditBalances(SwapLink(end), id)
  {
    hide LinkInv, NewLink, CreditBalances;
    NewLinkInv(client, server);
    RunInv(NewLink(client, server), turns, end);
    SharedFacts(end, id);
    CreditView(end, id);
    CreditView(SwapLink(end), id);
  }

  /** Byte-stream fidelity, through event queue, write queue, codec, distribution, channel and
      read buffer: what one side has read is a prefix of what the other side wrote; and while the
      reading session knows the stream, the rest is buffered or on its way, in order. */
  lemma ByteStreamFidelity(client: Config, server: Config, turns: seq<Turn>, end: Link, id: StreamId)
    requires INITIAL_STREAM_WINDOW <= client.maxWindow && INITIAL_STREAM_WINDOW <= server.maxWindow
    requires Runs(NewLink(client, server), turns, end)
    requires Shared(end, id)
    ensures end.right.handles[id].read <= end.left.handles[id].wrote
    ensures end.left.handles[id].read <= end.right.handles[id].wrote
    ensures Decodable(end) && (id in end.right.m.streams ==>
      end.left.handles[id].wrote ==
      end.right.handles[id].read + (Flatten(end.right.handles[id].s.readBuf) + Payload(Flight(end, id))))
  {
    hide LinkInv, NewLink, Flight;
    NewLinkInv(client, server);
    RunInv(NewLink(client, server), turns, end);
    SharedFacts(end, id);
    FidelityView(end, id);
    FidelityView(SwapLink(end), id);
  }

  lemma FidelityView(l: Link, id: StreamId)
    requires Decodable(l) && Shared(l, id)
    requires Inv(PairOf(l, id))
    ensures l.right.handles[id].read <= l.left.handles[id].wrote
    ensures id in l.right.m.streams ==>
      l.left.handles[id].wrote ==
      l.right.handles[id].read + (Flatten(l.right.handles[id].s.readBuf) + Payload(Flight(l, id)))
  {
    hide Only, Pipe;
    var p := PairOf(l, id);
    assert BytesInOrder(p);
    var s := p.right.s;
    MeasuresConcat(s.inbox.queue, p.out);
    ConcatAssoc(p.right.read, Unread(s), Payload(p.out));
    ConcatAssoc(Flatten(s.readBuf), Payload(s.inbox.queue), Payload(p.out));
  }

  /** Either side of the link, seen as the left one. */
  predicate SideOf(l: Link, end: Link) {
    l == end || l == SwapLink(end)
  }

  lemma SideInv(client: Config, server: Config, turns: seq<Turn>, end: Link, l: Link)
    requires INITIAL_STREAM_WINDOW <= client.maxWindow && INITIAL_STREAM_WINDOW <= server.maxWindow
    requires Runs(NewLink(client, server), turns, end)
    requires SideOf(l, end)
    ensures LinkInv(l)
  {
    hide LinkInv, NewLink;
    NewLinkInv(client, server);
    RunInv(NewLink(client, server), turns, end);
    LinkInvSwap(end);
  }

  /** No poll of the left side reports `InvalidData` or asks for a GoAway. */
  ghost predicate PollsAreQuiet(l: Link) {
    forall id, a | CanMove(l, ActMove(id, a)) ::
      var r := Poll(l.left.handles[id].s, a, true);
      SendGoAway !in r.events && r.outcome != Failed(InvalidData)
  }

  /** No frame makes the left side leave its distribution early. */
  ghost predicate SortingNeverStops(l: Link) {
    forall answer | CanMove(l, SortMove(answer)) ::
      !SortOne(l.left.m, l.left.blocked, l.left.batch[0], answer).stop
  }

  /** Between two of these sessions no protocol error arises: no poll asks for a GoAway, neither
      session has sent or received one, no inbound SYN names a stream that already exists, and the
      codec never rejects a frame. */
  lemma NoProtocolError(client: Config, server: Config, turns: seq<Turn>, end: Link, l: Link)
    requires INITIAL_STREAM_WINDOW <= client.maxWindow && INITIAL_STREAM_WINDOW <= server.maxWindow
    requires Runs(NewLink(client, server), turns, end)
    requires SideOf(l, end)
    ensures !l.left.m.localGoAway && !l.left.m.remoteGoAway
    ensures PollsAreQuiet(l) && SortingNeverStops(l)
    ensures !DecodeStep(l.rl.codec, l.rl.buffered).outcome.Fail?
  {
    hide LinkInv, NewLink, SideOf, Poll, SortOne;
    SideInv(client, server, turns, end, l);
    GoAwayFree(l);
    forall id, a | CanMove(l, ActMove(id, a))
      ensures SendGoAway !in Poll(l.left.handles[id].s, a, true).events
      ensures Poll(l.left.handles[id].s, a, true).outcome != Failed(InvalidData)
    {
      QuietPoll(l, id, a);
    }
    forall answer | CanMove(l, SortMove(answer))
      ensures !SortOne(l.left.m, l.left.blocked, l.left.batch[0], answer).stop
    {
      SortNeverStops(l, answer);
    }
    LinkWires(l);
    DecodePops(l.rl, l.left.m.config.maxWindow);
  }

  lemma GoAwayFree(l: Link)
    requires LinkInv(l)
    ensures !l.left.m.localGoAway && !l.left.m.remoteGoAway
  {
    hide Inv, EndOf, Only, Pipe;
  }

  lemma QuietPoll(l: Link, id: StreamId, a: Action)
    requires CanMove(l, ActMove(id, a)) && LinkInv(l)
    ensures var r := Poll(l.left.handles[id].s, a, true);
      SendGoAway !in r.events && r.outcome != Failed(InvalidData)
  {
    hide LinkInv, Inv, Pipe, Only, Poll, PeerOk, Emitted;
    HandleIdOk(l, id);
    LinkFacts(l, id);
    var p := PairOf(l, id);
    ActInv(p, a);
    InvalidDataMeansGoAway(p.left.s, a);
  }

  /** `InvalidData` is reported exactly together with a request for a GoAway. */
  lemma InvalidDataMeansGoAway(s: Streams.Stream, a: Action)
    ensures var r := Poll(s, a, true); r.outcome == Failed(InvalidData) ==> SendGoAway in r.events
  {
    hide DrainBlocking, DrainAndWake, CopyOut, SendWindowUpdate;
    match a
    case Write(t, data) => assert PollWrite(s, t, data, true).outcome != Failed(InvalidData);
    case _ =>
  }

  lemma StopsOnlyOn(m: Session, blocked: set<StreamId>, f: Frame, answer: Answer)
    ensures SortOne(m, blocked, f, answer).stop ==>
      f.header.flags.syn && f.header.streamId !in blocked && (m.localGoAway || f.header.streamId in m.streams)
  {
    hide Created, RejectFrame;
  }

  lemma SortNeverStops(l: Link, answer: Answer)
    requires CanMove(l, SortMove(answer)) && LinkInv(l)
    ensures !SortOne(l.left.m, l.left.blocked, l.left.batch[0], answer).stop
  {
    hide LinkInv, Inv, EndOf, Only, Pipe, SortOne, PeerOk;
    var f := l.left.batch[0];
    var id := f.header.streamId;
    StopsOnlyOn(l.left.m, l.left.blocked, f, answer);
    GoAwayFree(l);
    if f.header.flags.syn && id !in l.left.blocked {
      BatchIdOk(l);
      LinkFacts(l, id);
      PairHead(l);
      SynMeansUnborn(PairOf(l, id));
      UnbornFacts(l.left, id);
    }
  }

  /** No window deadlock: with nothing unread and nothing under way, a writer's window exceeds
      half of what its peer can buffer. */
  lemma WriterCanProceed(client: Config, server: Config, turns: seq<Turn>, end: Link, l: Link, id: StreamId)
    requires INITIAL_STREAM_WINDOW <= client.maxWindow && INITIAL_STREAM_WINDOW <= server.maxWindow
    requires Runs(NewLink(client, server), turns, end)
    requires SideOf(l, end)
    requires Decodable(l) && Shared(l, id)
    requires id in l.left.m.streams && id in l.right.m.streams
    requires !l.right.handles[id].dropped && Accepting(l.right.handles[id].s)
    requires l.right.handles[id].s.readBuf == []
    requires Flight(l, id) == [] && Flight(SwapLink(l), id) == []
    ensures 2 * l.left.handles[id].s.sendWindow > l.right.handles[id].s.maxRecvWindow
  {
    hide LinkInv, NewLink, Only, Pipe, SideOf;
    SideInv(client, server, turns, end, l);
    SharedFacts(l, id);
    NoWindowDeadlock(PairOf(l, id));
  }

  predicate SameRole(m: Session, m': Session) {
    m'.config == m.config && m'.role == m.role && m.nextId <= m'.nextId
  }

  lemma SortKeepsRole(m: Session, blocked: set<StreamId>, f: Frame, answer: Answer)
    ensures SameRole(m, SortOne(m, blocked, f, answer).session)
  {
    hide Created, RejectFrame;
  }

  lemma EventKeepsRole(l: Link)
    requires CanMove(l, EventMove)
    ensures SameRole(l.left.m, Make(l, EventMove).left.m) && Make(l, EventMove).right == l.right
  {
    hide Disconnect, HandleEvent;
    var e := l.left.m.events[0];
    if !e.StreamClosed? {
      HandleEventKeeps(l.left.m.(events := l.left.m.events[1..]), e);
    }
  }

  lemma MoveKeepsRole(l: Link, mv: Move)
    requires CanMove(l, mv)
    ensures var l' := Make(l, mv);
      && SameRole(l.left.m, l'.left.m) && l'.right == l.right
      && (mv.OpenMove? ==> l'.left.m.nextId == l.left.m.nextId + 2 && l.left.m.nextId in l'.left.handles)
  {
    if Idle(mv) {
      hide Make, CanMove;
      IdleKeepsPeer(l, mv);
    } else if mv.EventMove? {
      hide Make, CanMove;
      EventKeepsRole(l);
    } else {
      hide Poll, DropEvents, Created, SortOne, HandleAfterSort;
      if mv.SortMove? {
        SortKeepsRole(l.left.m, l.left.blocked, l.left.batch[0], mv.answer);
      }
    }
  }

  /** Stream ids never collide: whenever a session can open a stream, the id it issues has its
      role's parity, is larger than every id it issued before, and is unknown to both sides; the
      next one is larger again, and opening fails rather than wrap around. */
  lemma StreamIdsNeverCollide(client: Config, server: Config, turns: seq<Turn>, end: Link, l: Link)
    requires INITIAL_STREAM_WINDOW <= client.maxWindow && INITIAL_STREAM_WINDOW <= server.maxWindow
    requires Runs(NewLink(client, server), turns, end)
    requires SideOf(l, end)
    ensures CanMove(l, OpenMove) <==> l.left.m.nextId as nat + 2 <= U32_MAX
    ensures CanMove(l, OpenMove) ==>
      var id := l.left.m.nextId;
      && Opens(l.left.m.role, id) && l.left.m.role != l.right.m.role
      && id !in l.left.handles && id !in l.right.handles
      && (forall k | k in l.left.handles && Opens(l.left.m.role, k) :: k < id)
      && id in Make(l, OpenMove).left.handles
      && Make(l, OpenMove).left.m.nextId == id + 2
  {
    hide LinkInv, NewLink, SideOf;
    SideInv(client, server, turns, end, l);
    IdFacts(l);
    if CanMove(l, OpenMove) {
      MoveKeepsRole(l, OpenMove);
    }
  }

  lemma IdFacts(l: Link)
    requires LinkInv(l)
    ensures var id := l.left.m.nextId;
      && Opens(l.left.m.role, id) && l.left.m.role != l.right.m.role
      && id !in l.left.handles && id !in l.right.handles
      && (forall k | k in l.left.handles && Opens(l.left.m.role, k) :: k < id)
    ensures !Dead(l.left.m) && !l.left.m.remoteGoAway && l.left.m.nextId !in l.left.m.streams
  {
    hide Inv, Only, Pipe;
    var id := l.left.m.nextId;
    NextIdOk(l);
    LinkFacts(l, id);
    var p := PairOf(l, id);
    OpenerFirst(p);
  }

  lemma OpenerFirst(p: Pair)
    requires Inv(p) && p.left.opener && p.left.phase == Unborn
    ensures p.right.phase == Unborn
  {}

  // ------------------------------------------------------------------ dropped handles

  /** A drop is heard: in every run and on both sides, once a handle was dropped in a state in which that
      resets the stream, the last frame of the stream on its way to the peer is a reset, or the peer has
      had the stream and no longer routes it. */
  lemma DropIsTold(client: Config, server: Config, turns: seq<Turn>, end: Link, l: Link, id: StreamId)
    requires INITIAL_STREAM_WINDOW <= client.maxWindow && INITIAL_STREAM_WINDOW <= server.maxWindow
    requires Runs(NewLink(client, server), turns, end)
    requires SideOf(l, end)
    requires id in l.left.handles && l.left.handles[id].dropped
    requires l.left.handles[id].s.state in {Init, SynSent, SynReceived, Established, RemoteClosing}
    ensures Decodable(l)
    ensures var onTheWay := Only(Pipe(l), id);
      || (onTheWay != [] && onTheWay[|onTheWay| - 1].header.flags.rst)
      || (id in l.right.handles && id !in l.right.m.streams)
  {
    hide LinkInv, NewLink, SideOf, Books, Only, Pipe;
    SideInv(client, server, turns, end, l);
    HandleIdOk(l, id);
    LinkFacts(l, id);
    assert Told(PairOf(l, id));
  }

  // ------------------------------------------------------------------------ backlog

  predicate WithinBacklog(p: Peer, config: Config) {
    p.m.config == config && |p.m.backlog| <= config.acceptBacklog
  }

  lemma SortWithinBacklog(m: Session, blocked: set<StreamId>, f: Frame, answer: Answer)
    requires |m.backlog| <= m.config.acceptBacklog
    ensures |SortOne(m, blocked, f, answer).session.backlog| <= m.config.acceptBacklog
  {
    hide Created, RejectFrame;
  }

  lemma MoveWithinBacklog(l: Link, mv: Move, config: Config)
    requires CanMove(l, mv) && WithinBacklog(l.left, config)
    ensures WithinBacklog(Make(l, mv).left, config) && Make(l, mv).right == l.right
  {
    MoveKeepsRole(l, mv);
    hide Poll, DropEvents, Created, SortOne, HandleAfterSort, KeepAlive, HandleFrameIn, HandleEvent, DecodeStep, SendOn,
      FeedOn, AfterDecode, Forget;
    match mv
    case SortMove(answer) => SortWithinBacklog(l.left.m, l.left.blocked, l.left.batch[0], answer);
    case KeepAliveMove(now) => KeepAliveKeeps(l.left.m, now);
    case DecodeMove =>
      var out := DecodeStep(l.rl.codec, l.rl.buffered).outcome;
      if out.Item? {
        FrameInKeeps(l.left.m, out.frame);
      }
    case EventMove => EventKeepsBacklog(l);
    case OpenMove => OpenKeepsBacklog(l.left.m);
    case _ =>
  }

  lemma OpenKeepsBacklog(m: Session)
    ensures OpenStream(m).session.backlog == m.backlog
  {
    hide Created;
  }

  lemma EventKeepsBacklog(l: Link)
    requires CanMove(l, EventMove)
    ensures Make(l, EventMove).left.m.backlog == l.left.m.backlog
  {
    hide Disconnect;
  }

  lemma {:induction false} RunsWithinBacklog(l: Link, turns: seq<Turn>, end: Link, left: Config, right: Config)
    requires Runs(l, turns, end) && WithinBacklog(l.left, left) && WithinBacklog(l.right, right)
    ensures WithinBacklog(end.left, left) && WithinBacklog(end.right, right)
    decreases |turns|
  {
    hide CanMove, Make, WithinBacklog;
    if turns != [] {
      var t := turns[0];
      if t.ByLeft? {
        MoveWithinBacklog(l, t.mv, left);
      } else {
        MoveWithinBacklog(SwapLink(l), t.mv, right);
      }
      RunsWithinBacklog(Take(l, t), turns[1..], end, left, right);
    }
  }

  /** No run holds more streams waiting to be accepted than either side's configured backlog. */
  lemma BacklogIsBounded(client: Config, server: Config, turns: seq<Turn>, end: Link)
    requires Runs(NewLink(client, server), turns, end)
    ensures |end.left.m.backlog| <= client.acceptBacklog && |end.right.m.backlog| <= server.acceptBacklog
  {
    hide Runs;
    RunsWithinBacklog(NewLink(client, server), turns, end, client, server);
  }
}
