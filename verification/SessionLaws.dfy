/** What a session answers, told from its fields and the frame at hand
    (crates/tokio-yamux/src/session.rs). */
module SessionLaws {
  import opened Prelude
  import opened Frames
  import opened Streams
  import opened Sessions

  // ----------------------------------------------------------------- inbound SYNs

  /** An unblocked SYN for a new stream makes one exactly while table and backlog have room; otherwise
      nothing changes but that one refusal is queued. */
  lemma SynAdmission(m: Session, blocked: set<StreamId>, f: Frame, answer: Answer)
    requires f.header.flags.syn && f.header.streamId !in blocked && f.header.streamId !in m.streams && !m.localGoAway
    ensures var id := f.header.streamId;
      var r := SortOne(m, blocked, f, answer);
      var room := |m.streams| < m.config.maxStreamCount && |m.backlog| < m.config.acceptBacklog;
      && !r.stop && r.blocked == blocked
      && (r.born.Some? <==> room)
      && (room ==>
            && r.session.streams == (if f.header.flags.rst then m.streams else m.streams + {id})
            && r.session.backlog == m.backlog + [id]
            && r.session.writePending == m.writePending
            && r.fate == Delivered
            && r.born.value.id == id)
      && (!room ==>
            && r.session == m.(writePending := m.writePending + [WindowUpdateFrame(ACK.(rst := true), id, 0)])
            && r.fate == Lost)
  {
    hide Created;
    CreatedKeepsId(f.header.streamId, m.config.maxWindow);
    if f.header.flags.rst {
      assert m.streams + {f.header.streamId} - {f.header.streamId} == m.streams;
    }
  }

  lemma CreatedKeepsId(id: StreamId, max: u32)
    ensures Created(id, SynReceived, max).s.id == id
  {}

  /** A born stream announces itself with one ACK, behind everything announced before. */
  lemma BirthIsAcknowledged(m: Session, blocked: set<StreamId>, f: Frame, answer: Answer)
    requires SortOne(m, blocked, f, answer).born.Some?
    requires INITIAL_STREAM_WINDOW <= m.config.maxWindow
    ensures SortOne(m, blocked, f, answer).session.events
      == m.events + [SendFrame(WindowUpdateFrame(ACK, f.header.streamId, m.config.maxWindow - INITIAL_STREAM_WINDOW))]
  {
    var id := f.header.streamId;
    CreatedEvents(id, SynReceived, m.config.maxWindow);
    hide Created;
  }

  lemma CreatedEvents(id: StreamId, state: StreamState, max: u32)
    requires INITIAL_STREAM_WINDOW <= max && (state == Init || state == SynReceived)
    ensures Created(id, state, max).events
      == [SendFrame(WindowUpdateFrame(if state == Init then SYN else ACK, id, max - INITIAL_STREAM_WINDOW))]
  {
    assert Flatten(Fresh(id, state, max).readBuf) == [];
  }

  /** The other SYNs: a session that has said goodbye resets the stream, and a SYN for a stream it already
      knows is a protocol error while it would accept a new one. Both end the batch. */
  lemma SynRefusedOtherwise(m: Session, blocked: set<StreamId>, f: Frame, answer: Answer)
    requires f.header.flags.syn && f.header.streamId !in blocked
    ensures var id := f.header.streamId;
      var r := SortOne(m, blocked, f, answer);
      var room := |m.streams| < m.config.maxStreamCount && |m.backlog| < m.config.acceptBacklog;
      && (r.stop <==> m.localGoAway || (room && id in m.streams))
      && (m.localGoAway ==>
            r.session == m.(writePending := m.writePending + [WindowUpdateFrame(NO_FLAGS.(rst := true), id, 0)]))
      && (!m.localGoAway && room && id in m.streams ==>
            r.session == m.(localGoAway := true, writePending := [GoAwayFrame(1)]))
  {
    hide Created;
  }

  // ---------------------------------------------------------------- frames of known streams

  /** Any other frame: delivered exactly when its channel takes it, kept back when the channel is full or
      an earlier frame of the stream is, lost when nobody is there. A delivered reset and a vanished
      receiver end the routing. */
  lemma FrameRouting(m: Session, blocked: set<StreamId>, f: Frame, answer: Answer)
    requires !f.header.flags.syn
    ensures var id := f.header.streamId;
      var r := SortOne(m, blocked, f, answer);
      && (r.fate == Delivered <==> id !in blocked && id in m.streams && answer == Accepted)
      && (r.fate == Requeued <==> id in blocked || (id in m.streams && answer == Full))
      && r.blocked == (if r.fate == Requeued then blocked + {id} else blocked)
      && r.session.readPending == m.readPending + (if r.fate == Requeued then [f] else [])
      && r.session.streams ==
         (if id !in blocked && ((r.fate == Delivered && f.header.flags.rst) || answer == Disconnected) then m.streams - {id} else m.streams)
      && r.session == m.(readPending := r.session.readPending, streams := r.session.streams)
      && r.born.None? && !r.stop
  {
    ConcatEmpty(m.readPending);
    if f.header.streamId in blocked {
      assert blocked + {f.header.streamId} == blocked;
    }
  }

  /** Every channel that takes its frames gets all of them, whatever happens to the others. */
  lemma {:induction false} WillingChannelsGetAll(
    m: Session, batch: seq<Frame>, blocked: set<StreamId>, answers: seq<Answer>, id: StreamId)
    requires |answers| == |batch|
    requires forall i | 0 <= i < |batch| && batch[i].header.streamId == id :: answers[i] == Accepted
    requires id !in blocked && Only(m.readPending, id) == []
    ensures Only(Distribute(m, batch, blocked, answers).session.readPending, id) == []
    decreases |batch|
  {
    if batch != [] {
      SortOneFate(m, blocked, batch[0], answers[0]);
      WillingIsNotBlocked(m, blocked, batch[0], answers[0], id);
      var r := SortOne(m, blocked, batch[0], answers[0]);
      hide SortOne;
      OnlyConcat(m.readPending, [batch[0]], id);
      OnlyOne(batch[0], id);
      var rest, later := batch[1..], answers[1..];
      assert forall i | 0 <= i < |rest| :: rest[i] == batch[i + 1] && later[i] == answers[i + 1];
      if !r.stop {
        WillingChannelsGetAll(r.session, rest, r.blocked, later, id);
      }
    }
  }

  lemma WillingIsNotBlocked(m: Session, blocked: set<StreamId>, f: Frame, answer: Answer, id: StreamId)
    requires id !in blocked && (f.header.streamId == id ==> answer == Accepted)
    ensures var r := SortOne(m, blocked, f, answer);
      id !in r.blocked && (f.header.streamId == id ==> r.fate != Requeued)
  {
    hide Created;
  }

  /** One call of `distribute_to_substream`: a stream whose channel takes frames has received all that
      were waiting for it. */
  lemma DistributeReaches(m: Session, answers: seq<Answer>, id: StreamId)
    requires |answers| == |m.readPending|
    requires CleanSyns(m, m.readPending) && StaysOpen(m.readPending, answers, id) && id in m.streams
    requires forall i | 0 <= i < |m.readPending| && m.readPending[i].header.streamId == id :: answers[i] == Accepted
    ensures Only(DistributeAll(m, answers).delivered, id) == Only(m.readPending, id)
  {
    DistributePreservesStreams(m, answers, id);
    WillingChannelsGetAll(m.(readPending := []), m.readPending, {}, answers, id);
    ConcatEmpty(Only(DistributeAll(m, answers).delivered, id));
  }

  // -------------------------------------------------------------------- opening

  /** `open_stream`: a fresh identifier is handed out exactly while the session lives, the peer has not
      said goodbye and identifiers are left. */
  lemma OpenAnswers(m: Session)
    requires m.nextId !in m.streams && INITIAL_STREAM_WINDOW <= m.config.maxWindow
    ensures var o := OpenStream(m);
      && (o.OpenOk? <==> !m.eof && !m.remoteGoAway && m.nextId as nat + 2 <= U32_MAX)
      && (o.OpenOk? ==>
            && o.stream.id == m.nextId
            && o.session == m.(nextId := m.nextId + 2, streams := m.streams + {m.nextId},
                               events := m.events + [SendFrame(WindowUpdateFrame(SYN, m.nextId, m.config.maxWindow - INITIAL_STREAM_WINDOW))]))
      && (o.OpenErr? ==> o.session == m)
  {
    CreatedEvents(m.nextId, Init, m.config.maxWindow);
    OpenedKeepsId(m.nextId, m.config.maxWindow);
    hide Created;
  }

  lemma OpenedKeepsId(id: StreamId, max: u32)
    ensures Created(id, Init, max).s.id == id
  {}

  // ---------------------------------------------------------------------- probes

  /** A probe and its echo: the tick queues one SYN ping, the peer echoes its number, and the echo leaves
      no probe behind. */
  lemma ProbeIsEchoed(m: Session, peer: Session, now: nat)
    requires m.pings == map[]
    ensures var ticked := KeepAlive(m, now);
      && ticked.Some?
      && var id := if m.pingId as nat == U32_MAX then 0 else m.pingId + 1;
         var probe, echo := PingFrame(SYN, id), PingFrame(ACK, id);
      && ticked.value.writePending == m.writePending + [probe]
      && HandleFrameIn(peer, probe) == peer.(writePending := peer.writePending + [echo])
      && HandleFrameIn(ticked.value, echo) == ticked.value.(pings := map[])
  {
    var ticked := KeepAlive(m, now).value;
    var echo := PingFrame(ACK, ticked.pingId);
    assert ticked.pings == map[ticked.pingId := now];
    assert HandlePing(ticked, echo).pings == map[];
  }

  /** An unanswered probe ends the session at the first tick more than thirty seconds later, not before;
      until then no other is sent. */
  lemma SilenceEndsTheSession(m: Session, sent: nat, now: nat)
    requires m.pings == map[]
    ensures KeepAlive(m, sent).Some?
    ensures var waiting := KeepAlive(m, sent).value;
      KeepAlive(waiting, now) == if now > sent + 30 then None else Some(waiting)
  {
    var waiting := KeepAlive(m, sent).value;
    assert waiting.pings == map[waiting.pingId := sent];
    assert waiting.pingId in waiting.pings;
  }

  // --------------------------------------------------------------------- go-away

  /** The goodbye: the first side queues one GoAway in place of everything queued, the second answers with
      one of its own and is finished, and the answer finishes the first without a third. */
  lemma GoAwayHandshake(m: Session, peer: Session, code: u32)
    requires !m.localGoAway && !peer.localGoAway
    ensures var leaving := GoAwayWithCode(m, code);
      var answering := HandleFrameIn(peer, GoAwayFrame(code));
      var done := HandleFrameIn(leaving.(writePending := []), GoAwayFrame(0));
      && leaving == m.(localGoAway := true, writePending := [GoAwayFrame(code)])
      && answering == peer.(localGoAway := true, remoteGoAway := true, writePending := [GoAwayFrame(0)])
      && Dead(answering) && OpenStream(answering) == OpenErr(answering, ShutDown)
      && Dead(done) && done.writePending == []
  {}

  datatype Step =
    | Event(e: StreamEvent)
    | Inbound(f: Frame)
    | Sort(blocked: set<StreamId>, f: Frame, answer: Answer)
    | Tick(now: nat)
    | Opening
    | Leaving(code: u32)
    | Transmitted

  /** A session and the frames it has handed to the transport. */
  datatype Talk = Talk(m: Session, sent: seq<Frame>)

  function Next(t: Talk, step: Step): Talk {
    var m := t.m;
    match step
    case Event(e) => t.(m := HandleEvent(m, e))
    case Inbound(f) => t.(m := HandleFrameIn(m, f))
    case Sort(blocked, f, answer) => t.(m := SortOne(m, blocked, f, answer).session)
    case Tick(now) => if KeepAlive(m, now).Some? then t.(m := KeepAlive(m, now).value) else t
    case Opening => t.(m := OpenStream(m).session)
    case Leaving(code) => t.(m := GoAwayWithCode(m, code))
    case Transmitted =>
      if m.writePending == [] then t
      else Talk(m.(writePending := m.writePending[1..]), t.sent + [m.writePending[0]])
  }

  function NextAll(t: Talk, steps: seq<Step>): Talk
    decreases |steps|
  {
    if steps == [] then t else NextAll(Next(t, steps[0]), steps[1..])
  }

  function Goodbyes(fs: seq<Frame>): nat {
    if fs == [] then 0 else (if fs[0].header.ty == GoAway then 1 else 0) + Goodbyes(fs[1..])
  }

  lemma {:induction false} GoodbyesConcat(a: seq<Frame>, b: seq<Frame>)
    ensures Goodbyes(a + b) == Goodbyes(a) + Goodbyes(b)
  {
    if a == [] {
      ConcatEmpty(b);
    } else {
      ConcatTail(a, b);
      GoodbyesConcat(a[1..], b);
    }
  }

  lemma GoodbyesOne(f: Frame)
    ensures Goodbyes([f]) == if f.header.ty == GoAway then 1 else 0
  {
    assert [f][1..] == [];
  }

  /** Streams never send a GoAway of their own. */
  predicate StreamSteps(steps: seq<Step>) {
    forall i | 0 <= i < |steps| :: steps[i].Event? && steps[i].e.SendFrame? ==> steps[i].e.frame.header.ty != GoAway
  }

  /** How a step changes what is queued: nothing, all of it gone, one more frame, or the GoAway alone. */
  predicate Queues(m: Session, n: Session) {
    || (n.localGoAway == m.localGoAway
        && (|| n.writePending == m.writePending
            || n.writePending == []
            || (|n.writePending| > 0
                && n.writePending == m.writePending + [n.writePending[|n.writePending| - 1]]
                && n.writePending[|n.writePending| - 1].header.ty != GoAway)))
    || (!m.localGoAway && n.localGoAway && |n.writePending| == 1)
  }

  lemma SortQueues(m: Session, blocked: set<StreamId>, f: Frame, answer: Answer)
    ensures Queues(m, SortOne(m, blocked, f, answer).session)
  {
    var id := f.header.streamId;
    hide Created, Route;
    RouteQueuesNothing(m, blocked, f, answer, None);
    RouteQueuesNothing(m.(writePending := m.writePending + [RejectFrame(id)]), blocked, f, answer, None);
    var o := Register(m, id, SynReceived);
    if o.OpenOk? {
      RouteQueuesNothing(o.session.(backlog := o.session.backlog + [id]), blocked, f, Accepted, Some(o.stream));
    }
  }

  lemma RouteQueuesNothing(m: Session, blocked: set<StreamId>, f: Frame, answer: Answer, born: Option<Stream>)
    ensures var r := Route(m, blocked, f, answer, born);
      r.session.writePending == m.writePending && r.session.localGoAway == m.localGoAway
  {}

  lemma StepQueues(t: Talk, step: Step)
    requires StreamSteps([step]) && !step.Transmitted?
    ensures Queues(t.m, Next(t, step).m) && Next(t, step).sent == t.sent
  {
    hide Created, SortOne;
    assert [step][0] == step;
    if step.Sort? {
      SortQueues(t.m, step.blocked, step.f, step.answer);
    }
  }

  lemma QueuedGoodbyes(m: Session, n: Session)
    requires Queues(m, n)
    ensures (m.localGoAway ==> n.localGoAway) && (n.localGoAway == m.localGoAway ==> Goodbyes(n.writePending) <= Goodbyes(m.writePending))
    ensures n.localGoAway != m.localGoAway ==> Goodbyes(n.writePending) <= 1
  {
    if n.writePending != [] && n.writePending != m.writePending {
      var last := n.writePending[|n.writePending| - 1];
      GoodbyesConcat(m.writePending, [last]);
      GoodbyesOne(last);
      if n.localGoAway != m.localGoAway {
        assert n.writePending == [last];
      }
    } else if n.localGoAway != m.localGoAway {
      assert n.writePending == [n.writePending[0]];
      GoodbyesOne(n.writePending[0]);
    }
  }

  lemma StepGoodbyes(t: Talk, step: Step)
    requires StreamSteps([step])
    requires Goodbyes(t.sent) + Goodbyes(t.m.writePending) <= if t.m.localGoAway then 1 else 0
    ensures var u := Next(t, step);
      Goodbyes(u.sent) + Goodbyes(u.m.writePending) <= if u.m.localGoAway then 1 else 0
  {
    if step.Transmitted? {
      if t.m.writePending != [] {
        GoodbyesConcat(t.sent, [t.m.writePending[0]]);
        GoodbyesOne(t.m.writePending[0]);
      }
    } else {
      StepQueues(t, step);
      hide Next, Queues;
      QueuedGoodbyes(t.m, Next(t, step).m);
    }
  }

  /** Whatever happens, a session says goodbye at most once. */
  lemma {:induction false} OneGoodbye(t: Talk, steps: seq<Step>)
    requires StreamSteps(steps)
    requires Goodbyes(t.sent) + Goodbyes(t.m.writePending) <= if t.m.localGoAway then 1 else 0
    ensures var end := NextAll(t, steps);
      Goodbyes(end.sent) + Goodbyes(end.m.writePending) <= if end.m.localGoAway then 1 else 0
    decreases |steps|
  {
    hide Next;
    if steps != [] {
      assert steps[0] == [steps[0]][0];
      StepGoodbyes(t, steps[0]);
      var rest := steps[1..];
      assert forall i | 0 <= i < |rest| :: rest[i] == steps[i + 1];
      OneGoodbye(Next(t, steps[0]), rest);
    }
  }

  lemma OneGoodbyeFromTheStart(role: Role, config: Config, steps: seq<Step>)
    requires StreamSteps(steps)
    ensures var end := NextAll(Talk(NewSession(role, config), []), steps);
      Goodbyes(end.sent) <= 1 && (Goodbyes(end.sent) == 1 ==> end.m.localGoAway)
  {
    OneGoodbye(Talk(NewSession(role, config), []), steps);
  }
}
