/** Wake-ups inside a link: every handle of every run is watched, and a writer whose peer has read
    everything is never left asleep. */
module Progress {
  import opened Prelude
  import opened Frames
  import opened Streams
  import opened Accounting
  import opened Duplex
  import opened Sessions
  import opened Links
  import opened Yamux
  import opened Lives
  import opened WakeUps
  import opened Starvation

  // --------------------------------------------------- what a move does to one handle

  /** The stream a move of the left side creates under an id, if it does. */
  function Birth(l: Link, mv: Move, id: StreamId): Option<Streams.Stream>
    requires CanMove(l, mv)
  {
    match mv
    case OpenMove => if id == l.left.m.nextId then Some(OpenStream(l.left.m).stream) else None
    case SortMove(answer) =>
      if l.left.batch[0].header.streamId == id then SortOne(l.left.m, l.left.blocked, l.left.batch[0], answer).born else None
    case _ => None
  }

  /** What a move of the left side does to its handle of a stream: a poll, a frame, a disconnection. */
  function Happens(l: Link, mv: Move, id: StreamId): seq<Action>
    requires CanMove(l, mv)
  {
    match mv
    case ActMove(k, a) => if k == id then [a] else []
    case EventMove =>
      if l.left.m.events[0] == StreamClosed(id) && id in l.left.m.streams && id in l.left.handles then [SenderDropped] else []
    case SortMove(answer) =>
      var f := l.left.batch[0];
      var r := SortOne(l.left.m, l.left.blocked, f, answer);
      if f.header.streamId != id then []
      else
        (if r.fate == Delivered then [Arrive(f)] else [])
        + (if (id in l.left.m.streams || r.born.Some?) && id !in r.session.streams then [SenderDropped] else [])
    case _ => []
  }

  function WorldAfter(l: Link, mv: Move, id: StreamId, w: Option<World>): Option<World>
    requires CanMove(l, mv)
  {
    var born := Birth(l, mv, id);
    var now := if born.Some? then Some(World(born.value, {}, {}, None)) else w;
    if now.Some? then Some(WakeUps.Run(now.value, Happens(l, mv, id), true)) else None
  }

  /** Left's handle of a stream over a run, with the polls it owes and is owed. */
  function WorldOf(l: Link, turns: seq<Turn>, id: StreamId, w: Option<World>): Option<World>
    decreases |turns|
  {
    if turns == [] || !CanTurn(l, turns[0]) then w
    else
      WorldOf(Take(l, turns[0]), turns[1..], id,
              if turns[0].ByLeft? then WorldAfter(l, turns[0].mv, id, w) else w)
  }

  ghost predicate WorldOk(e: End, w: Option<World>) {
    && (e.phase == Unborn ==> w.None?)
    && (e.phase != Unborn && !e.dropped ==> w.Some? && w.value.s == e.s && Heard(w.value))
  }

  /** Between two sessions every poll is quiet. */
  lemma PollsAreQuietInLinks(l: Link, k: StreamId, a: Action)
    requires CanMove(l, ActMove(k, a)) && LinkInv(l)
    ensures Quiet(l.left.handles[k].s, a) && StreamFrames(l.left.handles[k].s.inbox.queue)
  {
    hide LinkInv, Inv, PeerOk, Pipe, Only, Drain;
    HandleIdOk(l, k);
    LinkFacts(l, k);
    InvHealthy(PairOf(l, k));
    HealthyIsSafe(l.left.handles[k].s);
    DrainBalanced(l.left.handles[k].s);
  }

  // ------------------------------------------------------------------------- moves

  ghost predicate MoveKeepsWorld(l: Link, mv: Move, id: StreamId, w: Option<World>)
    requires CanMove(l, mv)
  {
    WorldOk(EndOf(Make(l, mv).left, id), WorldAfter(l, mv, id, w))
  }

  /** Nothing happens to this handle. */
  lemma QuietWorld(l: Link, mv: Move, id: StreamId, w: Option<World>)
    requires CanMove(l, mv) && WorldOk(EndOf(l.left, id), w)
    requires Birth(l, mv, id).None? && Happens(l, mv, id) == []
    requires EndOf(Make(l, mv).left, id) == EndOf(l.left, id)
      || (EndOf(Make(l, mv).left, id).dropped && EndOf(Make(l, mv).left, id).phase != Unborn)
    ensures MoveKeepsWorld(l, mv, id, w)
  {
    hide Make, EndOf, Birth, Happens, Heard;
  }

  lemma ActMoveWorld(l: Link, k: StreamId, a: Action, id: StreamId, w: Option<World>)
    requires CanMove(l, ActMove(k, a)) && LinkInv(l) && WorldOk(EndOf(l.left, id), w)
    ensures MoveKeepsWorld(l, ActMove(k, a), id, w)
  {
    hide LinkInv, Poll, Heard;
    PollsAreQuietInLinks(l, k, a);
    if k == id {
      ActKeepsWorld(a, w.value);
    } else {
      QuietWorld(l, ActMove(k, a), id, w);
    }
  }

  lemma OpenActs(l: Link, id: StreamId)
    requires CanMove(l, OpenMove)
    ensures Birth(l, OpenMove, id)
      == if id == l.left.m.nextId then Some(Created(id, Init, l.left.m.config.maxWindow).s) else None
    ensures Happens(l, OpenMove, id) == []
  {
    hide Created;
  }

  lemma OpenMoveWorld(l: Link, id: StreamId, w: Option<World>)
    requires CanMove(l, OpenMove) && LinkInv(l) && WorldOk(EndOf(l.left, id), w)
    ensures MoveKeepsWorld(l, OpenMove, id, w)
  {
    hide LinkInv, Heard, PeerOk, Created, Make, EndOf, CanMove, Birth, Happens, Inv, Pipe, Only;
    var k := l.left.m.nextId;
    NextIdOk(l);
    LinkFacts(l, k);
    PeerWindow(l.left);
    NewWorld(k, Init, l.left.m.config.maxWindow);
    OpenShape(l, id);
    OpenActs(l, id);
    if k != id {
      QuietWorld(l, OpenMove, id, w);
    }
  }

  lemma EventMoveWorld(l: Link, id: StreamId, w: Option<World>)
    requires CanMove(l, EventMove) && WorldOk(EndOf(l.left, id), w)
    ensures MoveKeepsWorld(l, EventMove, id, w)
  {
    hide Make, Heard, Disconnect;
    EventKeepsEnd(l, id);
    if Happens(l, EventMove, id) == [] {
      QuietWorld(l, EventMove, id, w);
    } else if !EndOf(l.left, id).dropped {
      DropKeepsWorld(EndOf(l.left, id).s, w.value);
    }
  }

  lemma IdleMoveWorld(l: Link, mv: Move, id: StreamId, w: Option<World>)
    requires CanMove(l, mv) && WorldOk(EndOf(l.left, id), w)
    requires Idle(mv) || mv.DropMove?
    ensures MoveKeepsWorld(l, mv, id, w)
  {
    hide Heard, DropEvents;
    if Idle(mv) {
      hide Make;
      IdleKeepsPeer(l, mv);
      assert EndOf(Make(l, mv).left, id) == EndOf(l.left, id);
      QuietWorld(l, mv, id, w);
    } else {
      QuietWorld(l, mv, id, w);
    }
  }

  // ----------------------------------------------------------------- sorting a frame

  lemma SortOtherWorld(l: Link, answer: Answer, id: StreamId, w: Option<World>)
    requires CanMove(l, SortMove(answer)) && WorldOk(EndOf(l.left, id), w)
    requires EndOf(Make(l, SortMove(answer)).left, id) == EndOf(l.left, id)
    requires l.left.batch[0].header.streamId != id
    ensures MoveKeepsWorld(l, SortMove(answer), id, w)
  {
    hide Make, EndOf, Heard, SortOne;
    QuietWorld(l, SortMove(answer), id, w);
  }

  lemma SortRequeuedWorld(l: Link, answer: Answer, id: StreamId, w: Option<World>)
    requires CanMove(l, SortMove(answer)) && WorldOk(EndOf(l.left, id), w)
    requires var f := l.left.batch[0];
      f.header.streamId in l.left.blocked || (!f.header.flags.syn && f.header.streamId in l.left.m.streams && answer == Full)
    ensures MoveKeepsWorld(l, SortMove(answer), id, w)
  {
    hide Heard;
    assert EndOf(Make(l, SortMove(answer)).left, id) == EndOf(l.left, id);
    QuietWorld(l, SortMove(answer), id, w);
  }

  lemma AcceptedActs(l: Link, answer: Answer)
    requires CanMove(l, SortMove(answer)) && l.left.batch != []
    requires var f := l.left.batch[0]; f.header.flags.syn && f.header.streamId !in l.left.blocked
    requires Roomy(l.left.m) && !l.left.m.localGoAway && l.left.batch[0].header.streamId !in l.left.m.streams
    ensures var f := l.left.batch[0];
      var id := f.header.streamId;
      && Birth(l, SortMove(answer), id) == Some(Created(id, SynReceived, l.left.m.config.maxWindow).s)
      && Happens(l, SortMove(answer), id) == if f.header.flags.rst then [Arrive(f), SenderDropped] else [Arrive(f)]
  {
    hide Created, Roomy;
  }

  lemma SortAcceptedWorld(l: Link, answer: Answer, id: StreamId, w: Option<World>)
    requires CanMove(l, SortMove(answer)) && l.left.batch != []
    requires var f := l.left.batch[0]; f.header.flags.syn && f.header.streamId !in l.left.blocked
    requires Roomy(l.left.m)
    requires LinkInv(l) && WorldOk(EndOf(l.left, id), w)
    ensures MoveKeepsWorld(l, SortMove(answer), id, w)
  {
    hide LinkInv, PeerOk, EndOf, Pipe, Only, SortPeer, Inv, Created, Roomy, Heard, Push, Disconnect, Birth, Happens;
    var f := l.left.batch[0];
    var k := f.header.streamId;
    BatchIdOk(l);
    LinkFacts(l, k);
    PairHead(l);
    SynMeansUnborn(PairOf(l, k));
    UnbornFacts(l.left, k);
    AcceptedPeer(l.left, answer);
    if k == id {
      GoAwayFree(l);
      AcceptedActs(l, answer);
      PeerWindow(l.left);
      NewWorld(k, SynReceived, l.left.m.config.maxWindow);
      var s := Created(k, SynReceived, l.left.m.config.maxWindow).s;
      PushKeepsWorld(s, f, World(s, {}, {}, None));
    } else {
      SortOtherWorld(l, answer, id, w);
    }
  }

  lemma RejectedActs(l: Link, answer: Answer)
    requires CanMove(l, SortMove(answer)) && l.left.batch != []
    requires var f := l.left.batch[0]; f.header.flags.syn && f.header.streamId !in l.left.blocked
    requires !Roomy(l.left.m) && !l.left.m.localGoAway && l.left.batch[0].header.streamId !in l.left.m.streams
    ensures var id := l.left.batch[0].header.streamId;
      Birth(l, SortMove(answer), id).None? && Happens(l, SortMove(answer), id) == []
  {
    hide RejectFrame, Roomy;
  }

  lemma SortRejectedWorld(l: Link, answer: Answer, id: StreamId, w: Option<World>)
    requires CanMove(l, SortMove(answer)) && l.left.batch != []
    requires var f := l.left.batch[0]; f.header.flags.syn && f.header.streamId !in l.left.blocked
    requires !Roomy(l.left.m)
    requires LinkInv(l) && WorldOk(EndOf(l.left, id), w)
    ensures MoveKeepsWorld(l, SortMove(answer), id, w)
  {
    hide LinkInv, PeerOk, EndOf, Pipe, Only, SortPeer, Inv, Roomy, Heard, Birth, Happens;
    var k := l.left.batch[0].header.streamId;
    BatchIdOk(l);
    LinkFacts(l, k);
    PairHead(l);
    SynMeansUnborn(PairOf(l, k));
    UnbornFacts(l.left, k);
    RejectedPeer(l.left, answer);
    if k == id {
      GoAwayFree(l);
      RejectedActs(l, answer);
      QuietWorld(l, SortMove(answer), id, w);
    } else {
      SortOtherWorld(l, answer, id, w);
    }
  }

  lemma RoutedActs(l: Link, answer: Answer)
    requires CanMove(l, SortMove(answer)) && l.left.batch != []
    requires var f := l.left.batch[0]; !f.header.flags.syn && f.header.streamId !in l.left.blocked
    requires l.left.batch[0].header.streamId in l.left.m.streams ==> answer != Full
    ensures var f := l.left.batch[0];
      var id := f.header.streamId;
      && Birth(l, SortMove(answer), id).None?
      && Happens(l, SortMove(answer), id) ==
         if id !in l.left.m.streams then []
         else if answer == Disconnected then [SenderDropped]
         else if f.header.flags.rst then [Arrive(f), SenderDropped]
         else [Arrive(f)]
  {}

  lemma SortRoutedWorld(l: Link, answer: Answer, id: StreamId, w: Option<World>)
    requires CanMove(l, SortMove(answer)) && l.left.batch != []
    requires var f := l.left.batch[0]; !f.header.flags.syn && f.header.streamId !in l.left.blocked
    requires l.left.batch[0].header.streamId in l.left.m.streams ==> answer != Full
    requires LinkInv(l) && WorldOk(EndOf(l.left, id), w)
    ensures MoveKeepsWorld(l, SortMove(answer), id, w)
  {
    hide LinkInv, PeerOk, EndOf, Pipe, Only, SortPeer, Inv, Heard, Push, Disconnect, Birth, Happens;
    var f := l.left.batch[0];
    var k := f.header.streamId;
    BatchIdOk(l);
    LinkFacts(l, k);
    PairHead(l);
    SynMeansUnborn(PairOf(l, k));
    BornHasHandle(l.left, k);
    RoutedPeer(l.left, answer);
    RoutedActs(l, answer);
    var e := EndOf(l.left, k);
    if k != id {
      SortOtherWorld(l, answer, id, w);
    } else if e.phase == Detached {
      QuietWorld(l, SortMove(answer), id, w);
    } else if !e.dropped {
      PlausibleEnd(l.left, f, answer);
      PushKeepsWorld(e.s, f, w.value);
    }
  }

  lemma PlausibleEnd(p: Peer, f: Frame, answer: Answer)
    requires Plausible(p, f, answer) && f.header.streamId in p.handles && !EndOf(p, f.header.streamId).dropped
    ensures answer != Disconnected
  {}

  lemma SortMoveWorld(l: Link, answer: Answer, id: StreamId, w: Option<World>)
    requires CanMove(l, SortMove(answer)) && LinkInv(l) && WorldOk(EndOf(l.left, id), w)
    ensures MoveKeepsWorld(l, SortMove(answer), id, w)
  {
    hide LinkInv, Make, WorldOk, MoveKeepsWorld, EndOf;
    var p := l.left;
    var f := p.batch[0];
    if f.header.streamId in p.blocked {
      SortRequeuedWorld(l, answer, id, w);
    } else if f.header.flags.syn {
      if Roomy(p.m) {
        SortAcceptedWorld(l, answer, id, w);
      } else {
        SortRejectedWorld(l, answer, id, w);
      }
    } else if f.header.streamId in p.m.streams && answer == Full {
      SortRequeuedWorld(l, answer, id, w);
    } else {
      SortRoutedWorld(l, answer, id, w);
    }
  }

  // -------------------------------------------------------------------- whole runs

  lemma MoveWorld(l: Link, mv: Move, id: StreamId, w: Option<World>)
    requires CanMove(l, mv) && LinkInv(l) && WorldOk(EndOf(l.left, id), w)
    ensures MoveKeepsWorld(l, mv, id, w)
  {
    hide LinkInv, Make, CanMove, WorldOk, MoveKeepsWorld, EndOf;
    match mv
    case OpenMove => OpenMoveWorld(l, id, w);
    case ActMove(k, a) => ActMoveWorld(l, k, a, id, w);
    case EventMove => EventMoveWorld(l, id, w);
    case SortMove(answer) => SortMoveWorld(l, answer, id, w);
    case _ => IdleMoveWorld(l, mv, id, w);
  }

  lemma {:induction false} RunWorld(l: Link, turns: seq<Turn>, end: Link, id: StreamId, w: Option<World>)
    requires LinkInv(l) && Links.Runs(l, turns, end) && WorldOk(EndOf(l.left, id), w)
    ensures LinkInv(end) && WorldOk(EndOf(end.left, id), WorldOf(l, turns, id, w))
    decreases |turns|
  {
    hide LinkInv, CanMove, Make, WorldOk, WorldAfter;
    RunInv(l, turns, end);
    if turns != [] {
      var t := turns[0];
      var next := Take(l, t);
      if t.ByLeft? {
        MoveInv(l, t.mv);
        MoveWorld(l, t.mv, id, w);
        RunWorld(next, turns[1..], end, id, WorldAfter(l, t.mv, id, w));
      } else {
        LinkInvSwap(l);
        MoveInv(SwapLink(l), t.mv);
        LinkInvSwap(Make(SwapLink(l), t.mv));
        MoveKeepsRole(SwapLink(l), t.mv);
        RunWorld(next, turns[1..], end, id, w);
      }
    }
  }

  /** What holds of one side of a run at its end: every live handle is watched with its debts, and a
      writer parked on a reset stream has been woken; and where its peer has read everything and nothing
      is under way, a parked writer has been woken too, so with no debts outstanding no writer is
      parked. */
  ghost predicate Progresses(end: Link, id: StreamId, world: Option<World>)
    requires Decodable(end)
  {
    id in end.left.handles && !end.left.handles[id].dropped ==>
      && world.Some? && world.value.s == end.left.handles[id].s
      && Heard(world.value)
      && (world.value.s.state == Reset && world.value.parked.Some? ==> world.value.parked.value in world.value.writeDue)
      && (ReadOut(end, id) && Flowing(world.value.s) && world.value.parked.Some? ==>
            world.value.parked.value in world.value.writeDue)
  }

  /** Both sessions route the stream, its reader takes more data, has read what there was, and nothing
      of the stream is under way. */
  predicate ReadOut(end: Link, id: StreamId)
    requires Decodable(end)
  {
    && Shared(end, id)
    && id in end.left.m.streams && id in end.right.m.streams
    && !end.right.handles[id].dropped && Accepting(end.right.handles[id].s)
    && end.right.handles[id].s.readBuf == []
    && Flight(end, id) == [] && Flight(SwapLink(end), id) == []
  }

  lemma SideProgresses(l: Link, turns: seq<Turn>, end: Link, id: StreamId)
    requires LinkInv(l) && l.left.handles == map[] && Links.Runs(l, turns, end)
    ensures Decodable(end) && Progresses(end, id, WorldOf(l, turns, id, None))
  {
    hide LinkInv, WorldOf, Heard, Flight;
    RunWorld(l, turns, end, id, None);
    LinkDecodes(end);
    var world := WorldOf(l, turns, id, None);
    if world.Some? {
      HeardMeansOwed(world.value);
    }
    if id in end.left.handles && !end.left.handles[id].dropped && ReadOut(end, id) {
      SharedFacts(end, id);
      ReadOutHasWindow(end, id);
      if Flowing(world.value.s) {
        WindowMeansOwed(world.value);
      }
    }
  }

  lemma LinkDecodes(l: Link)
    requires LinkInv(l)
    ensures Decodable(l)
  {
    hide Inv, EndOf, Only, Pipe, PeerOk;
    WireOkDecodes(l);
  }

  lemma ReadOutHasWindow(end: Link, id: StreamId)
    requires Decodable(end) && ReadOut(end, id)
    requires Inv(PairOf(end, id))
    ensures end.left.handles[id].s.sendWindow > 0
  {
    hide Only, Pipe;
    NoWindowDeadlock(PairOf(end, id));
  }

  lemma HeardMeansOwed(w: World)
    ensures Heard(w) && w.s.state == Reset && w.parked.Some? ==> w.parked.value in w.writeDue
  {
    hide Watched;
  }

  lemma WindowMeansOwed(w: World)
    requires Heard(w) && Flowing(w.s) && w.s.sendWindow > 0
    ensures w.parked.Some? ==> w.parked.value in w.writeDue
  {}

  /** In every run of two sessions, on both sides. */
  lemma WritersProgress(client: Config, server: Config, turns: seq<Turn>, end: Link, id: StreamId)
    requires INITIAL_STREAM_WINDOW <= client.maxWindow && INITIAL_STREAM_WINDOW <= server.maxWindow
    requires Links.Runs(NewLink(client, server), turns, end)
    ensures Decodable(end) && Progresses(end, id, WorldOf(NewLink(client, server), turns, id, None))
    ensures Decodable(SwapLink(end))
      && Progresses(SwapLink(end), id, WorldOf(SwapLink(NewLink(client, server)), Mirror(turns), id, None))
  {
    hide LinkInv, Links.Runs, WorldOf, Progresses;
    var l := NewLink(client, server);
    NewLinkInv(client, server);
    SideProgresses(l, turns, end, id);
    LinkInvSwap(l);
    MirrorRuns(l, turns, end);
    SideProgresses(SwapLink(l), Mirror(turns), SwapLink(end), id);
  }
}
