/** The session's bookkeeping as functions on values (crates/tokio-yamux/src/session.rs).
    Sending into a stream's channel is an output of these functions, and how a channel answers
    is an input; so is how far the transport takes queued frames. */
module Sessions {
  import opened Prelude
  import opened Frames
  import opened Streams

  datatype Role = Client | Server

  datatype Config = Config(acceptBacklog: nat, maxStreamCount: nat, maxWindow: u32)

  datatype Session = Session(
    role: Role,
    config: Config,
    nextId: u32,
    remoteGoAway: bool,
    localGoAway: bool,
    eof: bool,
    pings: map<u32, nat>,
    pingId: u32,
    streams: set<StreamId>,
    backlog: seq<StreamId>,
    writePending: seq<Frame>,
    readPending: seq<Frame>,
    events: seq<StreamEvent>)

  const PROTOCOL_ERROR: u32 := 1
  const NORMAL_TERMINATION: u32 := 0
  const PING_TIMEOUT_SECS: nat := 30

  function FirstId(role: Role): u32 {
    if role == Client then 1 else 2
  }

  /** Clients open odd streams, servers even ones. */
  predicate Opens(role: Role, id: StreamId) {
    id % 2 == FirstId(role) % 2
  }

  function NewSession(role: Role, config: Config): Session {
    Session(role, config, FirstId(role), false, false, false, map[], 0, {}, [], [], [], [])
  }

  predicate Dead(m: Session) {
    (m.remoteGoAway && m.localGoAway) || m.eof
  }

  // ------------------------------------------------------------ opening streams

  datatype OpenResult = OpenOk(session: Session, stream: Stream) | OpenErr(session: Session, error: OpenError)

  datatype OpenError = ShutDown | PeerWentAway | Exhausted | Duplicate

  /** Registers the stream and lets the new handle announce its window. */
  function Register(m: Session, id: StreamId, state: StreamState): OpenResult {
    if id in m.streams then OpenErr(m, Duplicate)
    else
      var c := Created(id, state, m.config.maxWindow);
      OpenOk(m.(streams := m.streams + {id}, events := m.events + c.events), c.s)
  }

  function OpenStream(m: Session): OpenResult {
    if Dead(m) then OpenErr(m, ShutDown)
    else if m.remoteGoAway then OpenErr(m, PeerWentAway)
    else if m.nextId as nat + 2 > U32_MAX then OpenErr(m, Exhausted)
    else Register(m.(nextId := m.nextId + 2), m.nextId, Init)
  }

  // ------------------------------------------------------------------- go-away

  /** At most one GoAway is ever queued; queueing it drops everything queued before. */
  function GoAwayWithCode(m: Session, code: u32): Session {
    if m.localGoAway then m
    else m.(writePending := [GoAwayFrame(code)], localGoAway := true)
  }

  function HandleGoAway(m: Session): Session {
    GoAwayWithCode(m.(remoteGoAway := true, writePending := []), NORMAL_TERMINATION)
  }

  // ------------------------------------------------------------ sorting inbound frames

  /** A channel's answer to `poll_ready` and `try_send`. */
  datatype Answer = Accepted | Full | Disconnected

  /** One frame of `distribute_to_substream`: where it went, and whether the loop returns early. */
  datatype Sorted = Sorted(session: Session, blocked: set<StreamId>, fate: Fate, born: Option<Stream>, stop: bool)

  datatype Fate = Delivered | Requeued | Lost

  predicate Roomy(m: Session) {
    |m.streams| < m.config.maxStreamCount && |m.backlog| < m.config.acceptBacklog
  }

  /** Offer the frame to its channel. */
  function Route(m: Session, blocked: set<StreamId>, f: Frame, answer: Answer, born: Option<Stream>): Sorted {
    var id := f.header.streamId;
    if id !in m.streams then Sorted(m, blocked, Lost, born, false)
    else
      match answer
      case Accepted =>
        Sorted(if f.header.flags.rst then m.(streams := m.streams - {id}) else m, blocked, Delivered, born, false)
      case Full => Sorted(m.(readPending := m.readPending + [f]), blocked + {id}, Requeued, born, false)
      case Disconnected => Sorted(m.(streams := m.streams - {id}), blocked, Lost, born, false)
  }

  function SortOne(m: Session, blocked: set<StreamId>, f: Frame, answer: Answer): Sorted {
    var id := f.header.streamId;
    if id in blocked then Sorted(m.(readPending := m.readPending + [f]), blocked, Requeued, None, false)
    else if !f.header.flags.syn then Route(m, blocked, f, answer, None)
    else if m.localGoAway then
      Sorted(m.(writePending := m.writePending + [WindowUpdateFrame(NO_FLAGS.(rst := true), id, 0)]),
             blocked, Lost, None, true)
    else if Roomy(m) then
      match Register(m, id, SynReceived)
      case OpenErr(_, _) => Sorted(GoAwayWithCode(m, PROTOCOL_ERROR), blocked, Lost, None, true)
      case OpenOk(m1, s) =>
        // A new channel is empty, so the frame that created it always fits.
        Route(m1.(backlog := m1.backlog + [id]), blocked, f, Accepted, Some(s))
    else Route(m.(writePending := m.writePending + [RejectFrame(id)]), blocked, f, answer, None)
  }

  /** The whole loop over a batch, with the frames that reached channels in order. */
  datatype Distribution =
    Distribution(session: Session, delivered: seq<Frame>, born: seq<Stream>, stopped: bool)

  function Distribute(m: Session, batch: seq<Frame>, blocked: set<StreamId>, answers: seq<Answer>): Distribution
    requires |answers| == |batch|
    decreases |batch|
  {
    if batch == [] then Distribution(m, [], [], false)
    else
      var r := SortOne(m, blocked, batch[0], answers[0]);
      var now := if r.fate == Delivered then [batch[0]] else [];
      var born := if r.born.Some? then [r.born.value] else [];
      if r.stop then Distribution(r.session, now, born, true)
      else
        var more := Distribute(r.session, batch[1..], r.blocked, answers[1..]);
        Distribution(more.session, now + more.delivered, born + more.born, more.stopped)
  }

  function DistributeAll(m: Session, answers: seq<Answer>): Distribution
    requires |answers| == |m.readPending|
  {
    Distribute(m.(readPending := []), m.readPending, {}, answers)
  }

  // ------------------------------------------------------- the rest of the loop

  function HandlePing(m: Session, f: Frame): Session {
    if f.header.flags.syn then m.(writePending := m.writePending + [PingFrame(ACK, f.header.length)])
    else if f.header.flags.ack then m.(pings := map k | k in m.pings && k > f.header.length :: m.pings[k])
    else m
  }

  /** One keepalive tick; None is the timeout that ends the session. */
  function KeepAlive(m: Session, now: nat): Option<Session> {
    if exists k :: k in m.pings && now > m.pings[k] + PING_TIMEOUT_SECS then None
    else if m.pings != map[] then Some(m)
    else
      var id := if m.pingId == U32_MAX then 0 else m.pingId + 1;
      Some(m.(pingId := id, pings := m.pings[id := now], writePending := m.writePending + [PingFrame(SYN, id)]))
  }

  function HandleEvent(m: Session, e: StreamEvent): Session {
    match e
    case SendFrame(f) => m.(writePending := m.writePending + [f])
    case StreamClosed(id) => m.(streams := m.streams - {id})
    case SendGoAway => GoAwayWithCode(m, PROTOCOL_ERROR)
  }

  function HandleFrameIn(m: Session, f: Frame): Session {
    match f.header.ty
    case Data | WindowUpdate => m.(readPending := m.readPending + [f])
    case Ping => HandlePing(m, f)
    case GoAway => HandleGoAway(m)
  }

  // ---------------------------------------------------- order-preserving distribution

  /** The frames of one stream, in order. */
  function Only(fs: seq<Frame>, id: StreamId): seq<Frame> {
    if fs == [] then []
    else (if fs[0].header.streamId == id then [fs[0]] else []) + Only(fs[1..], id)
  }

  lemma {:induction false} OnlyConcat(a: seq<Frame>, b: seq<Frame>, id: StreamId)
    ensures Only(a + b, id) == Only(a, id) + Only(b, id)
  {
    if a == [] {
      ConcatEmpty(b);
      ConcatEmpty(Only(b, id));
    } else {
      ConcatTail(a, b);
      OnlyConcat(a[1..], b, id);
      ConcatAssoc(if a[0].header.streamId == id then [a[0]] else [], Only(a[1..], id), Only(b, id));
    }
  }

  lemma OnlyOne(f: Frame, id: StreamId)
    ensures Only([f], id) == if f.header.streamId == id then [f] else []
  {
    assert [f][1..] == [];
  }

  /** A stream that is not blocked has nothing queued back from this batch. */
  ghost predicate BlockedCovers(m: Session, blocked: set<StreamId>) {
    forall id: StreamId :: id !in blocked ==> Only(m.readPending, id) == []
  }

  /** Nothing of this stream is lost: no early return, and its entry stays in place. */
  ghost predicate Kept(m: Session, batch: seq<Frame>, blocked: set<StreamId>, answers: seq<Answer>, id: StreamId)
    requires |answers| == |batch|
    decreases |batch|
  {
    batch == [] ||
    var r := SortOne(m, blocked, batch[0], answers[0]);
    && !r.stop
    && (batch[0].header.streamId == id ==> r.fate != Lost)
    && Kept(r.session, batch[1..], r.blocked, answers[1..], id)
  }

  lemma SortOneFate(m: Session, blocked: set<StreamId>, f: Frame, answer: Answer)
    ensures var r := SortOne(m, blocked, f, answer);
      && blocked <= r.blocked
      && (r.fate == Requeued ==> r.session.readPending == m.readPending + [f] && f.header.streamId in r.blocked)
      && (r.fate != Requeued ==> r.session.readPending == m.readPending)
      && (r.fate == Delivered ==> f.header.streamId !in blocked)
  {
    hide Created, RejectFrame;
  }

  lemma SortOneOrder(m: Session, blocked: set<StreamId>, f: Frame, answer: Answer)
    requires BlockedCovers(m, blocked)
    ensures var r := SortOne(m, blocked, f, answer); BlockedCovers(r.session, r.blocked)
  {
    hide SortOne;
    SortOneFate(m, blocked, f, answer);
    var r := SortOne(m, blocked, f, answer);
    forall id: StreamId | id !in r.blocked
      ensures Only(r.session.readPending, id) == []
    {
      OnlyConcat(m.readPending, [f], id);
      OnlyOne(f, id);
    }
  }

  /** For every batch and every pattern of channel answers, what a stream's channel receives
      followed by what is queued back for it is what was waiting for it, in order. */
  lemma {:induction false} DistributionKeepsOrder(
    m: Session, batch: seq<Frame>, blocked: set<StreamId>, answers: seq<Answer>, id: StreamId)
    requires |answers| == |batch|
    requires BlockedCovers(m, blocked)
    requires Kept(m, batch, blocked, answers, id)
    ensures var d := Distribute(m, batch, blocked, answers);
      Only(d.delivered, id) + Only(d.session.readPending, id) == Only(m.readPending, id) + Only(batch, id)
    decreases |batch|
  {
    if batch == [] {
      ConcatEmpty(Only(m.readPending, id));
    } else {
      hide SortOne, BlockedCovers;
      var f := batch[0];
      SortOneOrder(m, blocked, f, answers[0]);
      SortOneFate(m, blocked, f, answers[0]);
      var r := SortOne(m, blocked, f, answers[0]);
      DistributionKeepsOrder(r.session, batch[1..], r.blocked, answers[1..], id);
      var more := Distribute(r.session, batch[1..], r.blocked, answers[1..]);
      var one := Only([f], id);
      assert batch == [f] + batch[1..];
      OnlyConcat([f], batch[1..], id);
      OnlyConcat(m.readPending, [f], id);
      OnlyOne(f, id);
      var tail := Only(batch[1..], id);
      if r.fate == Delivered {
        OnlyConcat([f], more.delivered, id);
        ConcatAssoc(one, Only(more.delivered, id), Only(more.session.readPending, id));
        if f.header.streamId == id {
          NothingQueuedBack(m, blocked, id);
          ConcatEmpty(tail);
          ConcatEmpty(one + tail);
        } else {
          ConcatEmpty(tail);
          ConcatEmpty(Only(more.delivered, id) + Only(more.session.readPending, id));
        }
      } else {
        ConcatEmpty(more.delivered);
        ConcatAssoc(Only(m.readPending, id), one, tail);
        ConcatEmpty(tail);
        ConcatEmpty(Only(m.readPending, id));
      }
    }
  }

  lemma NothingQueuedBack(m: Session, blocked: set<StreamId>, id: StreamId)
    requires BlockedCovers(m, blocked) && id !in blocked
    ensures Only(m.readPending, id) == []
  {}

  /** Inbound SYNs name new streams and the session still accepts them: no early return. */
  ghost predicate CleanSyns(m: Session, batch: seq<Frame>) {
    && !m.localGoAway
    && (forall i | 0 <= i < |batch| && batch[i].header.flags.syn :: batch[i].header.streamId !in m.streams)
    && (forall i, j | 0 <= i < j < |batch| && batch[i].header.flags.syn && batch[j].header.flags.syn ::
          batch[i].header.streamId != batch[j].header.streamId)
  }

  /** The stream's channel never reports its receiver gone, and a reset comes last. */
  ghost predicate StaysOpen(batch: seq<Frame>, answers: seq<Answer>, id: StreamId)
    requires |answers| == |batch|
  {
    && (forall i | 0 <= i < |batch| && batch[i].header.streamId == id :: answers[i] != Disconnected)
    && (forall i, j | 0 <= i < j < |batch| && batch[i].header.streamId == id && batch[j].header.streamId == id ::
          !batch[i].header.flags.rst)
  }

  lemma SortOneClean(m: Session, blocked: set<StreamId>, batch: seq<Frame>, answer: Answer)
    requires batch != [] && CleanSyns(m, batch)
    ensures var r := SortOne(m, blocked, batch[0], answer);
      && !r.stop
      && CleanSyns(r.session, batch[1..])
      && (forall id | id in m.streams :: id in r.session.streams || id == batch[0].header.streamId)
  {
    hide Created, RejectFrame;
    var r := SortOne(m, blocked, batch[0], answer);
    var rest := batch[1..];
    assert r.session.streams <= m.streams + if batch[0].header.flags.syn then {batch[0].header.streamId} else {};
    forall i | 0 <= i < |rest| && rest[i].header.flags.syn
      ensures rest[i].header.streamId !in r.session.streams
    {
      assert rest[i] == batch[i + 1];
    }
  }

  /** The condition under which order and content are kept, on the inputs of the call alone. */
  lemma {:induction false} LiveStreamIsKept(
    m: Session, batch: seq<Frame>, blocked: set<StreamId>, answers: seq<Answer>, id: StreamId)
    requires |answers| == |batch|
    requires CleanSyns(m, batch) && StaysOpen(batch, answers, id)
    requires id in m.streams || Only(batch, id) == [] || id in blocked
    ensures Kept(m, batch, blocked, answers, id)
    decreases |batch|
  {
    if batch != [] {
      SortOneClean(m, blocked, batch, answers[0]);
      SortOneLive(m, blocked, batch[0], answers[0], id);
      SortOneFate(m, blocked, batch[0], answers[0]);
      var r := SortOne(m, blocked, batch[0], answers[0]);
      hide SortOne;
      var rest := batch[1..];
      assert StaysOpen(rest, answers[1..], id) by {
        assert forall i | 0 <= i < |rest| :: rest[i] == batch[i + 1] && answers[1..][i] == answers[i + 1];
      }
      if id !in r.session.streams && id !in r.blocked {
        assert (batch[0].header.streamId == id && batch[0].header.flags.rst) || Only(batch, id) == [];
        NoneLeft(rest, id, batch);
      }
      LiveStreamIsKept(r.session, rest, r.blocked, answers[1..], id);
    }
  }

  lemma SortOneLive(m: Session, blocked: set<StreamId>, f: Frame, answer: Answer, id: StreamId)
    requires f.header.flags.syn ==> f.header.streamId !in m.streams
    requires !m.localGoAway
    requires f.header.streamId == id ==> answer != Disconnected && (id in m.streams || id in blocked)
    ensures var r := SortOne(m, blocked, f, answer);
      && (f.header.streamId == id ==> r.fate != Lost)
      && (id in m.streams && id !in r.session.streams ==> f.header.streamId == id && f.header.flags.rst)
  {
    hide Created, RejectFrame;
  }

  lemma {:induction false} NoneLeft(rest: seq<Frame>, id: StreamId, batch: seq<Frame>)
    requires batch != [] && rest == batch[1..]
    requires Only(batch, id) == [] ||
             (forall j | 0 < j < |batch| :: batch[j].header.streamId != id)
    ensures Only(rest, id) == []
  {
    if Only(batch, id) != [] {
      NoneAt(rest, id);
    }
  }

  lemma {:induction false} NoneAt(fs: seq<Frame>, id: StreamId)
    requires forall j | 0 <= j < |fs| :: fs[j].header.streamId != id
    ensures Only(fs, id) == []
  {
    if fs != [] {
      NoneAt(fs[1..], id);
    }
  }

  /** One call of `distribute_to_substream`: a blocked stream neither reorders its own frames nor
      costs another stream any of its frames. */
  lemma DistributePreservesStreams(m: Session, answers: seq<Answer>, id: StreamId)
    requires |answers| == |m.readPending|
    requires CleanSyns(m, m.readPending) && StaysOpen(m.readPending, answers, id)
    requires id in m.streams
    ensures var d := DistributeAll(m, answers);
      Only(d.delivered, id) + Only(d.session.readPending, id) == Only(m.readPending, id)
  {
    var start := m.(readPending := []);
    assert BlockedCovers(start, {});
    LiveStreamIsKept(start, m.readPending, {}, answers, id);
    DistributionKeepsOrder(start, m.readPending, {}, answers, id);
    ConcatEmpty(Only(m.readPending, id));
  }

  // --------------------------------------------------------------- keepalive probes

  /** Probes never pile up: a tick keeps at most one ping outstanding, and an answer to it
      leaves none. */
  lemma OnePingOutstanding(m: Session, now: nat, f: Frame)
    requires |m.pings| <= 1
    ensures KeepAlive(m, now).Some? ==> |KeepAlive(m, now).value.pings| <= 1
    ensures |HandlePing(m, f).pings| <= 1
    ensures f.header.flags == ACK && f.header.length in m.pings ==> HandlePing(m, f).pings == map[]
  {
    var after := HandlePing(m, f).pings;
    assert after.Keys <= m.pings.Keys;
    SubsetSize(after.Keys, m.pings.Keys);
    if f.header.length in m.pings {
      Singleton(m.pings.Keys, f.header.length);
    }
  }

  lemma SubsetSize<T>(a: set<T>, b: set<T>)
    requires a <= b
    ensures |a| <= |b|
  {
    assert b == a + (b - a);
  }

  lemma Singleton<T>(a: set<T>, x: T)
    requires x in a && |a| <= 1
    ensures a == {x}
  {
    assert |a - {x}| == 0;
  }
}
