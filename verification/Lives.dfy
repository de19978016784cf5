/** The life of every stream over every run of a link: what its handle puts on the wire, from the
    opening frame to the last, without any assumption on when the sessions drop their senders. */
module Lives {
  import opened Prelude
  import opened Frames
  import opened Streams
  import opened Accounting
  import opened Duplex
  import opened Sessions
  import opened Links
  import opened Lifecycle
  import opened Yamux

  /** The events a move of the left side adds to its session's queue. */
  function NewEvents(l: Link, mv: Move): seq<StreamEvent>
    requires CanMove(l, mv)
  {
    var before, after := l.left.m.events, Make(l, mv).left.m.events;
    if |before| <= |after| then after[|before|..] else []
  }

  /** The frames that left's handle of a stream has emitted in a run, oldest first. */
  function SentBy(l: Link, turns: seq<Turn>, id: StreamId): seq<Frame>
    decreases |turns|
  {
    if turns == [] || !CanTurn(l, turns[0]) then []
    else
      (if turns[0].ByLeft? then Only(FramesOf(NewEvents(l, turns[0].mv)), id) else [])
      + SentBy(Take(l, turns[0]), turns[1..], id)
  }

  function Opening(opener: bool): Flags {
    OpeningFlags(BirthState(opener))
  }

  /** The books of one stream at one end: a live handle is disciplined, its session closes the channel
      of a stream it still routes never, and reports of its closing are true. */
  ghost predicate LifeOk(e: End, events: seq<StreamEvent>, sent: seq<Frame>) {
    var closing := StreamClosed(e.s.id) in events;
    if e.phase == Unborn then sent == [] && !closing
    else if e.dropped then sent == [] || Orderly(sent, Opening(e.opener))
    else
      && Disciplined(Life(e.s, sent), Opening(e.opener))
      && (e.phase == Attached ==> !e.s.inbox.closed)
      && (closing ==> e.s.state == Closed)
  }

  // --------------------------------------------------------------------- single polls

  /** A poll reports the closing of its own stream only, and only when it has closed it for good. */
  lemma PollCloses(s: Streams.Stream, a: Action, x: StreamId)
    requires ByApplication(a)
    ensures var r := Poll(s, a, true);
      && (StreamClosed(x) in r.events ==> x == s.id && r.s.state == Closed)
      && (s.state == Closed ==> r.s.state == Closed)
  {
    hide CopyOut, HandleFrame;
    match a
    case Read(t, room) => ReadCloses(s, t, room);
    case Peek(t, room) => ReadCloses(s, t, room);
    case Write(t, data) => WriteCloses(s, t, data);
    case CloseWrite =>
  }

  lemma ReadCloses(s: Streams.Stream, t: Task, room: nat)
    ensures forall r | r == PollRead(s, t, room, true) || r == PollPeek(s, t, room, true) ::
      && (forall x :: StreamClosed(x) !in r.events)
      && (s.state == Closed ==> r.s.state == Closed)
  {
    hide CopyOut, HandleFrame;
  }

  lemma WriteCloses(s: Streams.Stream, t: Task, data: seq<byte>)
    ensures var r := PollWrite(s, t, data, true);
      && (forall x :: StreamClosed(x) !in r.events)
      && (s.state == Closed ==> r.s.state == Closed)
  {
    hide DrainAndWake, HandleFrame;
    ClosedStays(s, if s.readWake.Some? then None else Some(t));
  }

  lemma ClosedStays(s: Streams.Stream, blocking: Option<Task>)
    ensures s.state == Closed ==>
      DrainAndWake(s, blocking).s.state == Closed && !IsProtocolError(DrainAndWake(s, blocking).error)
  {
    hide HandleFrame;
  }

  // ------------------------------------------------------------------ steps of one end

  lemma ActLife(e: End, a: Action, events: seq<StreamEvent>, sent: seq<Frame>)
    requires e.phase != Unborn && !e.dropped && ByApplication(a)
    requires LifeOk(e, events, sent)
    requires var r := Poll(e.s, a, true);
      SendGoAway !in r.events && r.s.inbox.closed == e.s.inbox.closed && r.s.id == e.s.id
    ensures var r := Poll(e.s, a, true);
      LifeOk(e.(s := r.s, wrote := e.wrote + Given(a, r), read := e.read + Taken(a, r)), events + r.events,
             sent + FramesOf(r.events))
  {
    hide Poll, Disciplined;
    LiveDisciplined(Life(e.s, sent), a, Opening(e.opener));
    PollCloses(e.s, a, e.s.id);
  }

  lemma DropLife(e: End, events: seq<StreamEvent>, sent: seq<Frame>)
    requires e.phase != Unborn && !e.dropped && LifeOk(e, events, sent)
    ensures LifeOk(e.(dropped := true), events + DropEvents(e.s, true), sent + FramesOf(DropEvents(e.s, true)))
  {
    hide Disciplined, Orderly, DropEvents;
    DropOrderly(Life(e.s, sent), Opening(e.opener));
  }

  lemma BornLife(e: End, events: seq<StreamEvent>)
    requires EndOk(e) && e.phase == Unborn && LifeOk(e, events, [])
    ensures var c := Created(e.s.id, BirthState(e.opener), e.s.maxRecvWindow);
      && LifeOk(e.(s := c.s, phase := Attached), events + c.events, FramesOf(c.events))
      && !c.s.inbox.closed
  {
    hide Disciplined, Gap, WellKept;
    BornDisciplined(e.s.id, BirthState(e.opener), e.s.maxRecvWindow);
    CreatedFacts(e.s.id, BirthState(e.opener), e.s.maxRecvWindow);
  }

  lemma CreatedFacts(id: StreamId, state: StreamState, max: u32)
    requires INITIAL_STREAM_WINDOW <= max
    requires state == Init || state == SynReceived
    ensures var c := Created(id, state, max);
      !c.s.inbox.closed && c.s.id == id && forall x :: StreamClosed(x) !in c.events
  {}

  /** A frame is pushed, and the sender dropped behind it if it was a reset. */
  lemma PushLife(e: End, f: Frame, events: seq<StreamEvent>, sent: seq<Frame>)
    requires e.phase == Attached && !e.dropped && LifeOk(e, events, sent)
    ensures var t := e.(s := Push(e.s, f).s);
      LifeOk(if f.header.flags.rst then t.(s := Disconnect(t.s).s, phase := Detached) else t, events, sent)
  {
    var l := Life(e.s, sent);
    var opening := Opening(e.opener);
    assert FramesOf([]) == [];
    ConcatEmpty(sent);
    assert Disciplined(Life(Push(e.s, f).s, sent), opening) by {
      hide Disciplined;
      LiveDisciplined(l, Arrive(f), opening);
    }
    if f.header.flags.rst {
      hide Disciplined;
      LiveDisciplined(Life(Push(e.s, f).s, sent), SenderDropped, opening);
    }
  }

  /** The session drops its sender for a stream that has closed, or whose handle is gone. */
  lemma DetachLife(e: End, events: seq<StreamEvent>, sent: seq<Frame>)
    requires e.phase == Attached && LifeOk(e, events, sent)
    requires e.dropped || e.s.state == Closed
    ensures LifeOk(e.(s := Disconnect(e.s).s, phase := Detached), events, sent)
  {
    if !e.dropped {
      hide Disciplined;
      assert FramesOf([]) == [];
      ConcatEmpty(sent);
      LiveDisciplined(Life(e.s, sent), SenderDropped, Opening(e.opener));
    }
  }

  lemma FewerEvents(e: End, events: seq<StreamEvent>, fewer: seq<StreamEvent>, sent: seq<Frame>)
    requires LifeOk(e, events, sent) && forall x | x in fewer :: x in events || (x.StreamClosed? ==> x.id != e.s.id)
    ensures LifeOk(e, fewer, sent)
  {}

  // ------------------------------------------------------------------------- moves

  lemma NewEventsAre(l: Link, mv: Move, events: seq<StreamEvent>)
    requires CanMove(l, mv) && Make(l, mv).left.m.events == l.left.m.events + events
    ensures NewEvents(l, mv) == events
  {}

  /** The invariant of one stream at the left end, as a run goes on. */
  ghost predicate LeftLife(l: Link, id: StreamId, sent: seq<Frame>) {
    LifeOk(EndOf(l.left, id), l.left.m.events, sent)
  }

  /** A move of the left side keeps it. */
  ghost predicate MoveKeeps(l: Link, mv: Move, id: StreamId, sent: seq<Frame>)
    requires CanMove(l, mv)
  {
    LeftLife(Make(l, mv), id, sent + Only(FramesOf(NewEvents(l, mv)), id))
  }

  lemma EndId(l: Link, id: StreamId)
    requires LinkInv(l)
    ensures EndOf(l.left, id).s.id == id
  {
    if id in l.left.handles {
      HandleIdOk(l, id);
    }
  }

  /** Another stream emits: nothing of this one changes. */
  lemma OthersLife(l: Link, mv: Move, k: StreamId, id: StreamId, events: seq<StreamEvent>, sent: seq<Frame>)
    requires CanMove(l, mv) && LinkInv(l) && LeftLife(l, id, sent) && k != id
    requires Make(l, mv).left.m.events == l.left.m.events + events
    requires EndOf(Make(l, mv).left, id) == EndOf(l.left, id)
    requires forall x | x in events && x.StreamClosed? :: x.id == k
    requires Emitted(FramesOf(events), k, true) || Emitted(FramesOf(events), k, false)
    ensures MoveKeeps(l, mv, id, sent)
  {
    hide Make, CanMove, LinkInv, EndOf, LifeOk, Emitted, Only, FramesOf;
    NewEventsAre(l, mv, events);
    OnlyOwn(FramesOf(events), k, id);
    ConcatEmpty(sent);
    EndId(l, id);
    FewerEvents(EndOf(l.left, id), l.left.m.events, l.left.m.events + events, sent);
  }

  lemma OwnFrames(l: Link, mv: Move, id: StreamId, events: seq<StreamEvent>)
    requires CanMove(l, mv)
    requires Make(l, mv).left.m.events == l.left.m.events + events
    requires Emitted(FramesOf(events), id, true) || Emitted(FramesOf(events), id, false)
    ensures Only(FramesOf(NewEvents(l, mv)), id) == FramesOf(events)
  {
    hide Make, CanMove, Emitted, Only, FramesOf;
    NewEventsAre(l, mv, events);
    OnlyOwn(FramesOf(events), id, id);
  }

  lemma ActFacts(l: Link, k: StreamId, a: Action)
    requires CanMove(l, ActMove(k, a)) && LinkInv(l)
    ensures var e := EndOf(l.left, k);
      var r := Poll(e.s, a, true);
      && e.phase != Unborn && !e.dropped
      && r.s.id == k && r.s.inbox.closed == e.s.inbox.closed
      && (Emitted(FramesOf(r.events), k, true) || Emitted(FramesOf(r.events), k, false))
      && SendGoAway !in r.events
      && (forall x | x in r.events && x.StreamClosed? :: x.id == k)
  {
    hide LinkInv, Inv, Poll, PeerOk, Pipe, Only, Emitted;
    QuietPoll(l, k, a);
    HandleIdOk(l, k);
    LinkFacts(l, k);
    var p := PairOf(l, k);
    var r := Poll(p.left.s, a, true);
    InvEnd(p);
    InvHealthy(p);
    PollBalanced(p.left.s, a);
    forall x | x in r.events && x.StreamClosed?
      ensures x.id == k
    {
      PollCloses(p.left.s, a, x.id);
    }
  }

  lemma ActMoveLife(l: Link, k: StreamId, a: Action, id: StreamId, sent: seq<Frame>)
    requires CanMove(l, ActMove(k, a)) && LinkInv(l) && LeftLife(l, id, sent)
    ensures MoveKeeps(l, ActMove(k, a), id, sent)
  {
    hide LinkInv, Poll, LifeOk, Emitted, Only, FramesOf;
    var mv := ActMove(k, a);
    ActFacts(l, k, a);
    var r := Poll(EndOf(l.left, k).s, a, true);
    if k == id {
      EndId(l, id);
      ActLife(EndOf(l.left, id), a, l.left.m.events, sent);
      OwnFrames(l, mv, id, r.events);
    } else {
      OthersLife(l, mv, k, id, r.events, sent);
    }
  }

  lemma DropFacts(l: Link, k: StreamId)
    requires CanMove(l, DropMove(k)) && LinkInv(l)
    ensures var e := EndOf(l.left, k);
      var events := DropEvents(e.s, true);
      && e.phase != Unborn && !e.dropped
      && (Emitted(FramesOf(events), k, true) || Emitted(FramesOf(events), k, false))
      && (forall x | x in events && x.StreamClosed? :: x.id == k)
  {
    hide LinkInv, Inv, PeerOk, Pipe, Only, Emitted;
    HandleIdOk(l, k);
    LinkFacts(l, k);
    InvHealthy(PairOf(l, k));
    DropBalanced(l.left.handles[k].s);
  }

  lemma DropMoveLife(l: Link, k: StreamId, id: StreamId, sent: seq<Frame>)
    requires CanMove(l, DropMove(k)) && LinkInv(l) && LeftLife(l, id, sent)
    ensures MoveKeeps(l, DropMove(k), id, sent)
  {
    hide LinkInv, DropEvents, LifeOk, Emitted, Only, FramesOf;
    DropFacts(l, k);
    var events := DropEvents(EndOf(l.left, k).s, true);
    if k == id {
      DropLife(EndOf(l.left, id), l.left.m.events, sent);
      OwnFrames(l, DropMove(k), id, events);
    } else {
      OthersLife(l, DropMove(k), k, id, events, sent);
    }
  }

  lemma OpenShape(l: Link, id: StreamId)
    requires CanMove(l, OpenMove)
    requires l.left.m.nextId !in l.left.handles
    ensures var k := l.left.m.nextId;
      var c := Created(k, Init, l.left.m.config.maxWindow);
      && Make(l, OpenMove).left.m.events == l.left.m.events + c.events
      && EndOf(Make(l, OpenMove).left, id)
         == if k == id then End(c.s, Attached, Opens(l.left.m.role, id), false, [], []) else EndOf(l.left, id)
  {
    hide Created;
  }

  lemma OpenMoveLife(l: Link, id: StreamId, sent: seq<Frame>)
    requires CanMove(l, OpenMove) && LinkInv(l) && LeftLife(l, id, sent)
    ensures MoveKeeps(l, OpenMove, id, sent)
  {
    hide LinkInv, Created, LifeOk, Emitted, Only, FramesOf, PeerOk, Make, EndOf, Inv, Pipe, EndOk;
    var k := l.left.m.nextId;
    NextIdOk(l);
    LinkFacts(l, k);
    InvEnd(PairOf(l, k));
    NewEnd(l.left, k);
    BirthFacts(EndOf(l.left, k));
    PeerWindow(l.left);
    CreatedFacts(k, Init, l.left.m.config.maxWindow);
    OpenShape(l, id);
    var c := Created(k, Init, l.left.m.config.maxWindow);
    if k == id {
      NothingSent(EndOf(l.left, id), l.left.m.events, sent);
      BornLife(EndOf(l.left, id), l.left.m.events);
      OwnFrames(l, OpenMove, id, c.events);
      ConcatEmpty(FramesOf(c.events));
    } else {
      OthersLife(l, OpenMove, k, id, c.events, sent);
    }
  }

  lemma NewEnd(p: Peer, id: StreamId)
    requires id !in p.handles
    ensures EndOf(p, id) == UnbornEnd(id, Opens(p.m.role, id), p.m.config.maxWindow)
  {}

  lemma PeerWindow(p: Peer)
    requires PeerOk(p)
    ensures INITIAL_STREAM_WINDOW <= p.m.config.maxWindow
  {
    hide Only;
  }

  lemma NothingSent(e: End, events: seq<StreamEvent>, sent: seq<Frame>)
    requires e.phase == Unborn && LifeOk(e, events, sent)
    ensures sent == []
  {}

  lemma ForgetEnd(p: Peer, x: StreamId, id: StreamId)
    ensures var e := EndOf(p, id);
      EndOf(Forget(p, x), id)
      == if x == id && e.phase == Attached then e.(s := Disconnect(e.s).s, phase := Detached) else e
    ensures Forget(p, x).m.events == p.m.events
  {
    hide Disconnect;
  }

  /** A session that handles an event: it adds none, and only a report of closing cuts a stream off. */
  lemma EventKeepsEnd(l: Link, id: StreamId)
    requires CanMove(l, EventMove)
    ensures Make(l, EventMove).left.m.events == l.left.m.events[1..]
    ensures var e := EndOf(l.left, id);
      EndOf(Make(l, EventMove).left, id)
      == if l.left.m.events[0] == StreamClosed(id) && e.phase == Attached then e.(s := Disconnect(e.s).s, phase := Detached) else e
  {
    hide Disconnect, Forget, HandleEvent, Fresh;
    var p := l.left;
    var e := p.m.events[0];
    var q := p.(m := p.m.(events := p.m.events[1..]));
    assert EndOf(q, id) == EndOf(p, id);
    if e.StreamClosed? {
      ForgetEnd(q, e.id, id);
    } else {
      HandleEventKeeps(q.m, e);
    }
  }

  lemma EventMoveLife(l: Link, id: StreamId, sent: seq<Frame>)
    requires CanMove(l, EventMove) && LeftLife(l, id, sent) && EndOf(l.left, id).s.id == id
    ensures MoveKeeps(l, EventMove, id, sent)
  {
    hide Make, EndOf, LifeOk, Disconnect;
    EventKeepsEnd(l, id);
    assert NewEvents(l, EventMove) == [];
    assert Only(FramesOf([]), id) == [];
    ConcatEmpty(sent);
    var before, events := EndOf(l.left, id), l.left.m.events;
    assert events[0] in events;
    if events[0] == StreamClosed(id) && before.phase == Attached {
      ClosingIsTrue(before, events, sent);
      DetachLife(before, events, sent);
    }
    FewerEvents(EndOf(Make(l, EventMove).left, id), events, events[1..], sent);
  }

  lemma ClosingIsTrue(e: End, events: seq<StreamEvent>, sent: seq<Frame>)
    requires LifeOk(e, events, sent) && e.phase != Unborn && StreamClosed(e.s.id) in events
    ensures e.dropped || e.s.state == Closed
  {}

  lemma IdleMoveLife(l: Link, mv: Move, id: StreamId, sent: seq<Frame>)
    requires CanMove(l, mv) && LeftLife(l, id, sent) && Idle(mv)
    ensures MoveKeeps(l, mv, id, sent)
  {
    hide LifeOk, Make;
    IdleKeepsPeer(l, mv);
    assert EndOf(Make(l, mv).left, id) == EndOf(l.left, id);
    QuietLife(l, mv, id, sent);
  }

  lemma QuietLife(l: Link, mv: Move, id: StreamId, sent: seq<Frame>)
    requires CanMove(l, mv) && LeftLife(l, id, sent)
    requires Make(l, mv).left.m.events == l.left.m.events
    requires LifeOk(EndOf(Make(l, mv).left, id), l.left.m.events, sent)
    ensures MoveKeeps(l, mv, id, sent)
  {
    hide Make, CanMove, LifeOk;
    ConcatEmpty(l.left.m.events);
    NewEventsAre(l, mv, []);
    assert Only(FramesOf([]), id) == [];
    ConcatEmpty(sent);
  }

  // ----------------------------------------------------------------- sorting a frame

  lemma SortRequeuedLife(l: Link, answer: Answer, id: StreamId, sent: seq<Frame>)
    requires CanMove(l, SortMove(answer)) && LeftLife(l, id, sent)
    requires var f := l.left.batch[0];
      f.header.streamId in l.left.blocked || (!f.header.flags.syn && f.header.streamId in l.left.m.streams && answer == Full)
    ensures MoveKeeps(l, SortMove(answer), id, sent)
  {
    hide LifeOk;
    assert EndOf(Make(l, SortMove(answer)).left, id) == EndOf(l.left, id);
    QuietLife(l, SortMove(answer), id, sent);
  }

  lemma SortAcceptedLife(l: Link, answer: Answer, id: StreamId, sent: seq<Frame>)
    requires CanMove(l, SortMove(answer)) && l.left.batch != []
    requires var f := l.left.batch[0]; f.header.flags.syn && f.header.streamId !in l.left.blocked
    requires Roomy(l.left.m)
    requires LinkInv(l) && LeftLife(l, id, sent)
    ensures MoveKeeps(l, SortMove(answer), id, sent)
  {
    hide LinkInv, PeerOk, EndOf, Pipe, Only, SortPeer, Inv, Created, Roomy, Emitted, LifeOk, FramesOf;
    var f := l.left.batch[0];
    var k := f.header.streamId;
    BatchIdOk(l);
    LinkFacts(l, k);
    PairHead(l);
    SynMeansUnborn(PairOf(l, k));
    UnbornFacts(l.left, k);
    AcceptedPeer(l.left, answer);
    InvEnd(PairOf(l, k));
    BirthFacts(EndOf(l.left, k));
    CreatedFacts(k, SynReceived, l.left.m.config.maxWindow);
    var c := Created(k, SynReceived, l.left.m.config.maxWindow);
    if k == id {
      var e := EndOf(l.left, id);
      NothingSent(e, l.left.m.events, sent);
      BornLife(e, l.left.m.events);
      PushLife(e.(s := c.s, phase := Attached), f, l.left.m.events + c.events, FramesOf(c.events));
      OwnFrames(l, SortMove(answer), id, c.events);
      ConcatEmpty(FramesOf(c.events));
    } else {
      OthersLife(l, SortMove(answer), k, id, c.events, sent);
    }
  }

  lemma SortRejectedLife(l: Link, answer: Answer, id: StreamId, sent: seq<Frame>)
    requires CanMove(l, SortMove(answer)) && l.left.batch != []
    requires var f := l.left.batch[0]; f.header.flags.syn && f.header.streamId !in l.left.blocked
    requires !Roomy(l.left.m)
    requires LinkInv(l) && LeftLife(l, id, sent)
    ensures MoveKeeps(l, SortMove(answer), id, sent)
  {
    hide LinkInv, PeerOk, EndOf, Pipe, Only, SortPeer, Inv, Roomy, FramesOf, Orderly, Disciplined;
    var k := l.left.batch[0].header.streamId;
    BatchIdOk(l);
    LinkFacts(l, k);
    PairHead(l);
    SynMeansUnborn(PairOf(l, k));
    UnbornFacts(l.left, k);
    RejectedPeer(l.left, answer);
    QuietLife(l, SortMove(answer), id, sent);
  }

  lemma SortRoutedLife(l: Link, answer: Answer, id: StreamId, sent: seq<Frame>)
    requires CanMove(l, SortMove(answer)) && l.left.batch != []
    requires var f := l.left.batch[0]; !f.header.flags.syn && f.header.streamId !in l.left.blocked
    requires l.left.batch[0].header.streamId in l.left.m.streams ==> answer != Full
    requires LinkInv(l) && LeftLife(l, id, sent)
    ensures MoveKeeps(l, SortMove(answer), id, sent)
  {
    hide LinkInv, PeerOk, Pipe, Only, SortPeer, Inv, LifeOk, FramesOf;
    var f := l.left.batch[0];
    var k := f.header.streamId;
    BatchIdOk(l);
    LinkFacts(l, k);
    PairHead(l);
    SynMeansUnborn(PairOf(l, k));
    BornHasHandle(l.left, k);
    RoutedPeer(l.left, answer);
    var e := EndOf(l.left, k);
    if k == id && e.phase == Attached {
      if answer == Accepted {
        hide EndOf;
        PushLife(e, f, l.left.m.events, sent);
      } else {
        assert e.dropped;
        DetachLife(e, l.left.m.events, sent);
      }
    }
    QuietLife(l, SortMove(answer), id, sent);
  }

  lemma SortMoveLife(l: Link, answer: Answer, id: StreamId, sent: seq<Frame>)
    requires CanMove(l, SortMove(answer)) && LinkInv(l) && LeftLife(l, id, sent)
    ensures MoveKeeps(l, SortMove(answer), id, sent)
  {
    hide LinkInv, Make, LeftLife, MoveKeeps;
    var p := l.left;
    var f := p.batch[0];
    if f.header.streamId in p.blocked {
      SortRequeuedLife(l, answer, id, sent);
    } else if f.header.flags.syn {
      if Roomy(p.m) {
        SortAcceptedLife(l, answer, id, sent);
      } else {
        SortRejectedLife(l, answer, id, sent);
      }
    } else if f.header.streamId in p.m.streams && answer == Full {
      SortRequeuedLife(l, answer, id, sent);
    } else {
      SortRoutedLife(l, answer, id, sent);
    }
  }

  // -------------------------------------------------------------------- whole runs

  /** Every move of the left side keeps the books of every stream. */
  lemma MoveLife(l: Link, mv: Move, id: StreamId, sent: seq<Frame>)
    requires CanMove(l, mv) && LinkInv(l) && LeftLife(l, id, sent)
    ensures MoveKeeps(l, mv, id, sent)
  {
    hide LinkInv, Make, CanMove, LeftLife, MoveKeeps;
    match mv
    case OpenMove => OpenMoveLife(l, id, sent);
    case ActMove(k, a) => ActMoveLife(l, k, a, id, sent);
    case DropMove(k) => DropMoveLife(l, k, id, sent);
    case EventMove =>
      EndId(l, id);
      EventMoveLife(l, id, sent);
    case SortMove(answer) => SortMoveLife(l, answer, id, sent);
    case _ => IdleMoveLife(l, mv, id, sent);
  }

  lemma {:induction false} RunLife(l: Link, turns: seq<Turn>, end: Link, id: StreamId, sent: seq<Frame>)
    requires LinkInv(l) && Runs(l, turns, end) && LeftLife(l, id, sent)
    ensures LeftLife(end, id, sent + SentBy(l, turns, id))
    decreases |turns|
  {
    hide LinkInv, CanMove, Make, LifeOk, NewEvents, Only;
    if turns == [] {
      ConcatEmpty(sent);
    } else {
      var t := turns[0];
      var next := Take(l, t);
      var now := if t.ByLeft? then Only(FramesOf(NewEvents(l, t.mv)), id) else [];
      if t.ByLeft? {
        MoveInv(l, t.mv);
        MoveLife(l, t.mv, id, sent);
      } else {
        LinkInvSwap(l);
        MoveInv(SwapLink(l), t.mv);
        LinkInvSwap(Make(SwapLink(l), t.mv));
        MoveKeepsRole(SwapLink(l), t.mv);
        ConcatEmpty(sent);
      }
      RunLife(next, turns[1..], end, id, sent + now);
      ConcatAssoc(sent, now, SentBy(next, turns[1..], id));
    }
  }

  lemma NewSideIsOrderly(l: Link, turns: seq<Turn>, end: Link, id: StreamId)
    requires LinkInv(l) && l.left.handles == map[] && l.left.m.events == []
    requires Runs(l, turns, end)
    ensures var sent := SentBy(l, turns, id); sent == [] || Orderly(sent, Opening(Opens(l.left.m.role, id)))
  {
    hide LinkInv, Disciplined, Orderly, SentBy;
    RunLife(l, turns, end, id, []);
    ConcatEmpty(SentBy(l, turns, id));
    RunKeepsRole(l, turns, end);
    DisciplinedIsOrderly(Life(EndOf(end.left, id).s, SentBy(l, turns, id)), Opening(Opens(l.left.m.role, id)));
  }

  /** The same run, told from the other side. */
  function Mirror(turns: seq<Turn>): seq<Turn> {
    if turns == [] then []
    else [if turns[0].ByLeft? then ByRight(turns[0].mv) else ByLeft(turns[0].mv)] + Mirror(turns[1..])
  }

  lemma {:induction false} MirrorRuns(l: Link, turns: seq<Turn>, end: Link)
    requires Runs(l, turns, end)
    ensures Runs(SwapLink(l), Mirror(turns), SwapLink(end))
    decreases |turns|
  {
    hide CanMove, Make;
    if turns != [] {
      MirrorRuns(Take(l, turns[0]), turns[1..], end);
      var m := Mirror(turns);
      assert m[1..] == Mirror(turns[1..]);
      assert SwapLink(SwapLink(l)) == l;
      assert Take(SwapLink(l), m[0]) == SwapLink(Take(l, turns[0]));
    }
  }

  /** In every run of two sessions, whenever they drop their senders, and on both sides: the frames a
      stream's handle has emitted start with its only SYN or ACK, hold at most one FIN, and after it
      only flagless window updates; a RST comes last. A refused stream emits nothing. */
  lemma EveryStreamIsOrderly(client: Config, server: Config, turns: seq<Turn>, end: Link, id: StreamId)
    requires INITIAL_STREAM_WINDOW <= client.maxWindow && INITIAL_STREAM_WINDOW <= server.maxWindow
    requires Runs(NewLink(client, server), turns, end)
    ensures var sent := SentBy(NewLink(client, server), turns, id);
      sent == [] || Orderly(sent, Opening(Opens(Client, id)))
    ensures var sent := SentBy(SwapLink(NewLink(client, server)), Mirror(turns), id);
      sent == [] || Orderly(sent, Opening(Opens(Server, id)))
  {
    hide LinkInv, Orderly, SentBy, Runs;
    var l := NewLink(client, server);
    NewLinkInv(client, server);
    NewSideIsOrderly(l, turns, end, id);
    LinkInvSwap(l);
    MirrorRuns(l, turns, end);
    NewSideIsOrderly(SwapLink(l), Mirror(turns), SwapLink(end), id);
  }

  lemma DisciplinedIsOrderly(l: Life, opening: Flags)
    ensures Disciplined(l, opening) ==> Orderly(l.sent, opening)
  {}

  lemma {:induction false} RunKeepsRole(l: Link, turns: seq<Turn>, end: Link)
    requires Runs(l, turns, end)
    ensures end.left.m.role == l.left.m.role
    decreases |turns|
  {
    hide CanMove, Make;
    if turns != [] {
      var t := turns[0];
      MoveKeepsRole(if t.ByLeft? then l else SwapLink(l), t.mv);
      RunKeepsRole(Take(l, t), turns[1..], end);
    }
  }
}
