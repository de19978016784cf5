/** Whether a session hears that a handle is gone, so that it can take the stream out of its table
    (crates/tokio-yamux/src/stream.rs, session.rs). */
module Releases {
  import opened Prelude
  import opened Frames
  import opened Streams
  import opened Accounting
  import opened Duplex
  import opened Sessions
  import opened Links
  import opened Yamux
  import opened Lives

  // ------------------------------------------------------------------- one handle

  function EndState(s: Streams.Stream, actions: seq<Action>): StreamState
    decreases |actions|
  {
    if actions == [] then s.state else EndState(Poll(s, actions[0], true).s, actions[1..])
  }

  /** Everything a handle tells its session, up to and including its drop. */
  function Reports(s: Streams.Stream, actions: seq<Action>): seq<StreamEvent>
    decreases |actions|
  {
    if actions == [] then DropEvents(s, true)
    else
      var r := Poll(s, actions[0], true);
      r.events + Reports(r.s, actions[1..])
  }

  /** The application closes a stream that is no longer open for writing. */
  predicate ClosesAgain(s: Streams.Stream, actions: seq<Action>)
    decreases |actions|
  {
    actions != []
    && ((actions[0].CloseWrite? && !OpenForWriting(s.state))
        || ClosesAgain(Poll(s, actions[0], true).s, actions[1..]))
  }

  lemma PollReports(s: Streams.Stream, a: Action)
    ensures var r := Poll(s, a, true);
      && (StreamClosed(s.id) in r.events <==> a.CloseWrite? && !OpenForWriting(s.state))
      && r.s.id == s.id
  {
    match a
    case Read(t, room) =>
      hide PollRead;
      ReadCloses(s, t, room);
      ReadKeepsId(s, t, room);
    case Peek(t, room) =>
      hide PollPeek;
      ReadCloses(s, t, room);
      ReadKeepsId(s, t, room);
    case Write(t, data) =>
      hide PollWrite;
      WriteCloses(s, t, data);
      WriteKeepsId(s, t, data);
    case CloseWrite => ShutdownShape(s, true);
    case _ =>
  }

  lemma ReadKeepsId(s: Streams.Stream, t: Task, room: nat)
    ensures PollRead(s, t, room, true).s.id == s.id && PollPeek(s, t, room, true).s.id == s.id
  {
    hide CopyOut, Drain;
    DrainKeepsId(s.(readWake := Some(t)));
  }

  lemma {:induction false} DrainKeepsId(s: Streams.Stream)
    ensures Drain(s).s.id == s.id
    decreases |s.inbox.queue|
  {
    if !StopsReading(s.state) && !s.inbox.terminated && s.inbox.queue != [] {
      var q := s.inbox.queue;
      HandleFrameKeeps(WithQueue(s, q[1..]), q[0]);
      var r := HandleFrame(WithQueue(s, q[1..]), q[0]);
      hide HandleFrame;
      if r.error.None? {
        DrainKeepsId(r.s);
      }
    }
  }

  lemma WriteDrainKeepsId(s: Streams.Stream, blocking: Option<Task>)
    ensures WriteDrain(s, blocking, true).s.id == s.id
  {
    hide Drain;
    DrainKeepsId(s);
  }

  lemma WriteKeepsId(s: Streams.Stream, t: Task, data: seq<byte>)
    ensures PollWrite(s, t, data, true).s.id == s.id
  {
    hide WriteDrain;
    var first := WriteDrain(s, if s.readWake.Some? then None else Some(t), true);
    WriteDrainKeepsId(s, if s.readWake.Some? then None else Some(t));
    var parked := first.s.(writeWake := Some(t));
    WriteDrainKeepsId(parked, Some(t));
    WriteDrainKeepsId(parked, None);
  }

  /** Whatever happens to a handle: its session hears that it is gone, unless it was dropped closed and the
      application never closed it again. That is the stream which was closed here first and then by the
      peer: its last FIN makes it `Closed` without a word. */
  lemma {:induction false} SessionHearsIff(s: Streams.Stream, actions: seq<Action>)
    ensures StreamClosed(s.id) in Reports(s, actions) <==> EndState(s, actions) != Closed || ClosesAgain(s, actions)
    decreases |actions|
  {
    if actions != [] {
      PollReports(s, actions[0]);
      hide Poll;
      SessionHearsIff(Poll(s, actions[0], true).s, actions[1..]);
    }
  }

  /** The unheard end: close, read the peer's FIN, drop. */
  lemma SecondFinIsSilent(s: Streams.Stream, t: Task, room: nat)
    requires OpenForWriting(s.state) && s.readBuf == [] && !s.inbox.terminated
    requires s.inbox.queue == [WindowUpdateFrame(NO_FLAGS.(fin := true), s.id, 0)]
    ensures StreamClosed(s.id) !in Reports(s, [CloseWrite, Read(t, room)])
  {
    var closed := Shutdown(s, true).s;
    ShutdownShape(s, true);
    var fin := s.inbox.queue[0];
    FinCloses(closed, fin, t, room);
    hide Shutdown, PollRead;
    var actions := [CloseWrite, Read(t, room)];
    assert actions[1..] == [Read(t, room)] && [Read(t, room)][1..] == [];
    SessionHearsIff(s, actions);
    assert EndState(closed, actions[1..]) == PollRead(closed, t, room, true).s.state;
    assert !ClosesAgain(closed, actions[1..]);
  }

  lemma FinCloses(s: Streams.Stream, f: Frame, t: Task, room: nat)
    requires s.state == LocalClosing && s.readBuf == [] && !s.inbox.terminated
    requires s.inbox.queue == [f] && f == WindowUpdateFrame(NO_FLAGS.(fin := true), s.id, 0)
    ensures PollRead(s, t, room, true).s.state == Closed
  {
    var u := s.(readWake := Some(t));
    var q := u.inbox.queue;
    assert q[0] == f && q[1..] == [];
    var h := HandleFrame(WithQueue(u, q[1..]), q[0]);
    assert h.error.None? && h.s.state == Closed;
    assert Drain(h.s).s == h.s;
    assert Drain(u).s == h.s;
  }

  // --------------------------------------------------------------------- whole runs

  /** The session still routes a stream whose handle is gone, and nothing queued will tell it. */
  predicate Unheard(p: Peer, id: StreamId) {
    id in p.handles && p.handles[id].dropped && id in p.m.streams && StreamClosed(id) !in p.m.events
  }

  predicate UnheardOnlyClosed(p: Peer) {
    forall id | id in p.handles :: Unheard(p, id) ==> p.handles[id].s.state == Closed
  }

  lemma DropLeavesWord(s: Streams.Stream)
    ensures s.state != Closed ==> StreamClosed(s.id) in DropEvents(s, true)
  {}

  lemma ActDropHeard(l: Link, mv: Move)
    requires CanMove(l, mv) && (mv.ActMove? || mv.DropMove?)
    requires UnheardOnlyClosed(l.left) && l.left.handles[mv.id].s.id == mv.id
    ensures UnheardOnlyClosed(Make(l, mv).left)
  {
    hide Poll, DropEvents;
    DropLeavesWord(l.left.handles[mv.id].s);
    var p, q := l.left, Make(l, mv).left;
    forall id | id in q.handles && Unheard(q, id)
      ensures q.handles[id].s.state == Closed
    {
      if id != mv.id {
        assert Unheard(p, id);
      }
    }
  }

  lemma EventHeard(l: Link)
    requires CanMove(l, EventMove) && UnheardOnlyClosed(l.left)
    ensures UnheardOnlyClosed(Make(l, EventMove).left)
  {
    hide HandleEvent;
    var p, q := l.left, Make(l, EventMove).left;
    var e := p.m.events[0];
    assert p.m.events == [e] + p.m.events[1..];
    if !e.StreamClosed? {
      HandleEventKeeps(p.m.(events := p.m.events[1..]), e);
    }
    forall id | id in q.handles && Unheard(q, id)
      ensures q.handles[id].s.state == Closed
    {
      assert Unheard(p, id);
    }
  }

  lemma OpenHeard(l: Link)
    requires CanMove(l, OpenMove) && UnheardOnlyClosed(l.left)
    ensures UnheardOnlyClosed(Make(l, OpenMove).left)
  {
    hide Created;
    var p, q := l.left, Make(l, OpenMove).left;
    forall id | id in q.handles && Unheard(q, id)
      ensures q.handles[id].s.state == Closed
    {
      assert Unheard(p, id);
    }
  }

  lemma RouteRoutes(m: Session, blocked: set<StreamId>, f: Frame, answer: Answer, born: Option<Streams.Stream>)
    ensures var r := Route(m, blocked, f, answer, born);
      && (forall k | k != f.header.streamId :: k in r.session.streams <==> k in m.streams)
      && r.session.streams <= m.streams && r.session.events == m.events && r.born == born
  {}

  lemma SortOneRoutes(m: Session, blocked: set<StreamId>, f: Frame, answer: Answer)
    ensures var r := SortOne(m, blocked, f, answer);
      && (forall k | k != f.header.streamId :: k in r.session.streams <==> k in m.streams)
      && (r.born.None? ==> r.session.streams <= m.streams)
      && m.events <= r.session.events
      && (forall k :: StreamClosed(k) in r.session.events ==> StreamClosed(k) in m.events)
  {
    var id := f.header.streamId;
    CreatedQuietly(id, m.config.maxWindow);
    hide Created, RejectFrame, Route;
    RouteRoutes(m, blocked, f, answer, None);
    RouteRoutes(m.(writePending := m.writePending + [RejectFrame(id)]), blocked, f, answer, None);
    var o := Register(m, id, SynReceived);
    if o.OpenOk? {
      RouteRoutes(o.session.(backlog := o.session.backlog + [id]), blocked, f, Accepted, Some(o.stream));
    }
  }

  lemma CreatedQuietly(id: StreamId, max: u32)
    ensures forall k :: StreamClosed(k) !in Created(id, SynReceived, max).events
  {}

  /** What sorting one frame does to dropped handles: at most one is new, refused and not routed. */
  lemma HandlesAfterSort(p: Peer, f: Frame, r: Sorted)
    requires forall id | id in p.m.streams :: id in p.handles
    requires r.born.None? ==> r.session.streams <= p.m.streams
    ensures var handles := HandleAfterSort(p, f, r);
      && (forall k | k != f.header.streamId && k in handles :: k in p.handles && handles[k] == p.handles[k])
      && (forall k | k in p.handles :: k in handles)
      && var id := f.header.streamId;
         (id in handles && handles[id].dropped && id in r.session.streams ==>
            id in p.handles && p.handles[id].dropped && handles[id].s.state == p.handles[id].s.state)
  {
    hide Fresh;
  }

  lemma SortedHandles(p: Peer, answer: Answer)
    requires p.batch != [] && forall id | id in p.m.streams :: id in p.handles
    ensures var q := SortPeer(p, answer);
      && p.m.events <= q.m.events
      && (forall id | id in q.handles && q.handles[id].dropped && id in q.m.streams ::
            id in p.handles && p.handles[id].dropped && id in p.m.streams && q.handles[id].s.state == p.handles[id].s.state)
  {
    var r := SortOne(p.m, p.blocked, p.batch[0], answer);
    SortOneRoutes(p.m, p.blocked, p.batch[0], answer);
    HandlesAfterSort(p, p.batch[0], r);
    SortedBorn(p, answer);
    hide SortOne, HandleAfterSort;
  }

  /** A stream is born with a live handle. */
  lemma SortedBorn(p: Peer, answer: Answer)
    requires p.batch != []
    ensures var f := p.batch[0];
      var r := SortOne(p.m, p.blocked, f, answer);
      var handles := HandleAfterSort(p, f, r);
      r.born.Some? ==> f.header.streamId in handles && !handles[f.header.streamId].dropped
  {
    hide SortOne, Fresh;
  }

  lemma SortHeard(l: Link, answer: Answer)
    requires CanMove(l, SortMove(answer)) && UnheardOnlyClosed(l.left)
    requires forall id | id in l.left.m.streams :: id in l.left.handles
    ensures UnheardOnlyClosed(Make(l, SortMove(answer)).left)
  {
    hide SortPeer;
    SortedHandles(l.left, answer);
    var p, q := l.left, SortPeer(l.left, answer);
    forall id | id in q.handles && Unheard(q, id)
      ensures q.handles[id].s.state == Closed
    {
      assert Unheard(p, id);
    }
  }

  lemma PeerFacts(p: Peer)
    requires PeerOk(p)
    ensures forall id | id in p.m.streams :: id in p.handles
    ensures forall id | id in p.handles :: p.handles[id].s.id == id
  {
    hide BlockedCovers;
  }

  lemma MoveHeard(l: Link, mv: Move)
    requires CanMove(l, mv) && UnheardOnlyClosed(l.left)
    requires PeerOk(l.left)
    ensures UnheardOnlyClosed(Make(l, mv).left)
  {
    PeerFacts(l.left);
    hide PeerOk, Make;
    if Idle(mv) {
      IdleKeepsPeer(l, mv);
      var p, q := l.left, Make(l, mv).left;
      forall id | id in q.handles && Unheard(q, id)
        ensures q.handles[id].s.state == Closed
      {
        assert Unheard(p, id);
      }
    } else if mv.EventMove? {
      EventHeard(l);
    } else if mv.OpenMove? {
      OpenHeard(l);
    } else if mv.SortMove? {
      SortHeard(l, mv.answer);
    } else {
      ActDropHeard(l, mv);
    }
  }

  lemma {:induction false} RunsHeard(l: Link, turns: seq<Turn>, end: Link)
    requires Runs(l, turns, end) && UnheardOnlyClosed(l.left) && UnheardOnlyClosed(l.right)
    requires LinkInv(l)
    ensures UnheardOnlyClosed(end.left) && UnheardOnlyClosed(end.right)
    decreases |turns|
  {
    hide CanMove, Make, UnheardOnlyClosed, PeerOk, LinkInv;
    if turns != [] {
      var t := turns[0];
      var side := if t.ByLeft? then l else SwapLink(l);
      LinkInvSwap(l);
      SidePeerOk(side);
      MoveHeard(side, t.mv);
      MoveKeepsRole(side, t.mv);
      MoveInv(side, t.mv);
      LinkInvSwap(Make(side, t.mv));
      RunsHeard(Take(l, t), turns[1..], end);
    }
  }

  lemma SidePeerOk(l: Link)
    requires LinkInv(l)
    ensures PeerOk(l.left)
  {
    hide Inv, PeerOk;
  }

  /** In every run and on both sides: a session that still routes a stream whose handle was dropped has the
      notice in its queue, except for streams dropped in state `Closed`. */
  lemma DropReachesTheSession(client: Config, server: Config, turns: seq<Turn>, end: Link, l: Link, id: StreamId)
    requires INITIAL_STREAM_WINDOW <= client.maxWindow && INITIAL_STREAM_WINDOW <= server.maxWindow
    requires Runs(NewLink(client, server), turns, end)
    requires SideOf(l, end)
    requires id in l.left.handles && l.left.handles[id].dropped && l.left.handles[id].s.state != Closed
    ensures id in l.left.m.streams ==> StreamClosed(id) in l.left.m.events
  {
    hide LinkInv, Runs;
    NewLinkInv(client, server);
    RunsHeard(NewLink(client, server), turns, end);
    assert id in l.left.m.streams && StreamClosed(id) !in l.left.m.events ==> Unheard(l.left, id);
  }

  /** And handling the notice takes the stream out of the table, that stream only. */
  lemma NoticeReleases(l: Link)
    requires CanMove(l, EventMove) && l.left.m.events[0].StreamClosed?
    ensures var m := l.left.m;
      Make(l, EventMove).left.m == m.(events := m.events[1..], streams := m.streams - {m.events[0].id})
      == HandleEvent(m.(events := m.events[1..]), m.events[0])
  {
    hide Disconnect;
  }

  /** An unheard stream keeps its place in the table whatever its side does, until the next frame of the
      stream arrives. */
  lemma UnheardStays(l: Link, mv: Move, id: StreamId)
    requires CanMove(l, mv) && Unheard(l.left, id)
    requires mv.SortMove? ==> l.left.batch[0].header.streamId != id
    requires PeerOk(l.left)
    ensures Unheard(Make(l, mv).left, id)
  {
    PeerFacts(l.left);
    FreshIds(l.left);
    hide PeerOk;
    if Idle(mv) {
      hide Make;
      IdleKeepsPeer(l, mv);
    } else if mv.EventMove? {
      hide HandleEvent;
      var p := l.left;
      var e := p.m.events[0];
      assert p.m.events == [e] + p.m.events[1..];
      if !e.StreamClosed? {
        HandleEventKeeps(p.m.(events := p.m.events[1..]), e);
      }
    } else if mv.SortMove? {
      hide SortPeer;
      OthersUnsorted(l.left, mv.answer, id);
    } else if mv.OpenMove? {
      hide Created;
      OpenSaysNothing(l.left.m, id);
    } else {
      hide Poll, DropEvents;
      OthersSilent(l.left.handles[mv.id].s, mv, id);
    }
  }

  lemma FreshIds(p: Peer)
    requires PeerOk(p)
    ensures p.m.nextId !in p.handles
  {
    hide BlockedCovers;
  }

  lemma OpenSaysNothing(m: Session, id: StreamId)
    requires OpenStream(m).OpenOk?
    ensures StreamClosed(id) in OpenStream(m).session.events <==> StreamClosed(id) in m.events
    ensures m.streams <= OpenStream(m).session.streams
  {
    CreatedSaysNothing(m.nextId, Init, m.config.maxWindow, id);
    hide Created;
  }

  lemma CreatedSaysNothing(k: StreamId, state: StreamState, max: u32, id: StreamId)
    ensures StreamClosed(id) !in Created(k, state, max).events
  {}

  lemma OthersUnsorted(p: Peer, answer: Answer, id: StreamId)
    requires p.batch != [] && p.batch[0].header.streamId != id && Unheard(p, id)
    requires forall k | k in p.m.streams :: k in p.handles
    ensures Unheard(SortPeer(p, answer), id)
  {
    var r := SortOne(p.m, p.blocked, p.batch[0], answer);
    SortOneRoutes(p.m, p.blocked, p.batch[0], answer);
    HandlesAfterSort(p, p.batch[0], r);
    hide SortOne, HandleAfterSort;
    assert id in p.handles;
  }

  lemma OthersSilent(s: Streams.Stream, mv: Move, id: StreamId)
    requires mv.ActMove? || mv.DropMove?
    requires s.id != id
    requires mv.ActMove? ==> ByApplication(mv.a)
    ensures mv.ActMove? ==> StreamClosed(id) !in Poll(s, mv.a, true).events
    ensures StreamClosed(id) !in DropEvents(s, true)
  {
    if mv.ActMove? {
      hide Poll;
      PollCloses(s, mv.a, id);
    }
  }
}
