/** What a reader gets out of a stream, over every frame sequence and every series of reads. */
module Delivery {
  import opened Prelude
  import opened Frames
  import opened Streams
  import opened Accounting

  datatype Ending = StillOpen | ByFin | ByRst

  /** Reference: the payload up to and including the first FIN frame, or before the first RST. */
  function Deliverable(fs: seq<Frame>): seq<byte> {
    if fs == [] || fs[0].header.flags.rst then []
    else BodyOf(fs[0]) + if fs[0].header.flags.fin then [] else Deliverable(fs[1..])
  }

  function EndingOf(fs: seq<Frame>): Ending {
    if fs == [] then StillOpen
    else if fs[0].header.flags.rst then ByRst
    else if fs[0].header.flags.fin then ByFin
    else EndingOf(fs[1..])
  }

  lemma {:induction false} DeliverableSnoc(fs: seq<Frame>, f: Frame)
    ensures EndingOf(fs) == StillOpen ==>
      && Deliverable(fs + [f]) == Deliverable(fs) + Deliverable([f])
      && EndingOf(fs + [f]) == EndingOf([f])
    ensures EndingOf(fs) != StillOpen ==>
      && Deliverable(fs + [f]) == Deliverable(fs)
      && EndingOf(fs + [f]) == EndingOf(fs)
  {
    if fs == [] {
      ConcatEmpty([f]);
      ConcatEmpty(Deliverable([f]));
    } else {
      ConcatTail(fs, [f]);
      DeliverableSnoc(fs[1..], f);
      if !fs[0].header.flags.rst && !fs[0].header.flags.fin {
        ConcatAssoc(BodyOf(fs[0]), Deliverable(fs[1..]), Deliverable([f]));
      }
    }
  }

  /** A stream, the bytes its reader has been given and every frame that was queued for it. */
  datatype Reading = Reading(s: Stream, got: seq<byte>, arrived: seq<Frame>)

  function Advance(h: Reading, a: Action): Reading {
    var r := Poll(h.s, a, true);
    Reading(r.s, if a.Read? then h.got + r.bytes else h.got,
            if a.Arrive? then h.arrived + [a.frame] else h.arrived)
  }

  function AdvanceAll(h: Reading, actions: seq<Action>): Reading
    decreases |actions|
  {
    if actions == [] then h else AdvanceAll(Advance(h, actions[0]), actions[1..])
  }

  /** Closing again does no harm if the queue holds no more payload and already ends the stream. */
  predicate HarmlessAgain(s: Stream) {
    && s.state == LocalClosing
    && Deliverable(s.inbox.queue) == []
    && (EndingOf(s.inbox.queue) == ByFin || (s.inbox.closed && EndingOf(s.inbox.queue) == StillOpen))
  }

  /** Frames as the codec yields them, on a channel the session still holds. A close is allowed
      where it cannot cut the read side short; a poll must not have met a protocol error. */
  predicate Fair(h: Reading, a: Action) {
    && (a.Arrive? ==> WellFormed(a.frame) && !h.s.inbox.closed)
    && (a.CloseWrite? ==> (h.s.state != LocalClosing && h.s.state != Reset) || HarmlessAgain(h.s))
    && SendGoAway !in Poll(h.s, a, true).events
  }

  predicate FairAll(h: Reading, actions: seq<Action>)
    decreases |actions|
  {
    actions == [] || (Fair(h, actions[0]) && FairAll(Advance(h, actions[0]), actions[1..]))
  }

  /** What the queued frames will still add, if the stream goes on reading. */
  function Upcoming(s: Stream): seq<byte> {
    if StopsReading(s.state) then [] else Deliverable(s.inbox.queue)
  }

  /** The bytes a stream still owes its reader. */
  function Owed(s: Stream): seq<byte> {
    Flatten(s.readBuf) + Upcoming(s)
  }

  predicate AllWellFormed(fs: seq<Frame>) {
    forall i | 0 <= i < |fs| :: WellFormed(fs[i])
  }

  /** Shape facts that hold whatever the peer sends. */
  ghost predicate Sound(s: Stream) {
    && AllWellFormed(s.inbox.queue)
    && NoEmptyChunk(s.readBuf)
    && 0 <= Gap(s)
    && (s.inbox.terminated ==> s.inbox.closed && s.inbox.queue == [] && StopsReading(s.state))
  }

  /** How the stream's state tells which terminal frame, if any, has been handled. */
  ghost predicate StateTells(s: Stream, arrived: seq<Frame>) {
    && (s.state == Reset ==> EndingOf(arrived) == ByRst)
    && (s.state == RemoteClosing || s.state == Closed ==>
          EndingOf(arrived) == ByFin || (s.inbox.closed && EndingOf(arrived) == StillOpen))
    && (!StopsReading(s.state) ==> EndingOf(arrived) == EndingOf(s.inbox.queue))
  }

  ghost predicate Faithful(h: Reading) {
    && Sound(h.s)
    && StateTells(h.s, h.arrived)
    && h.got + Owed(h.s) == Deliverable(h.arrived)
  }

  // ------------------------------------------------------------------- draining

  lemma HandleFrameOwed(s: Stream, f: Frame, q: seq<Frame>)
    requires s.inbox.queue == [f] + q
    requires Sound(s) && !StopsReading(s.state)
    requires HandleFrame(WithQueue(s, q), f).error.None?
    ensures var t := HandleFrame(WithQueue(s, q), f).s;
      && Sound(t)
      && Owed(t) == Owed(s)
      && (!StopsReading(t.state) ==> EndingOf(q) == EndingOf(s.inbox.queue))
      && (t.state == Reset ==> EndingOf(s.inbox.queue) == ByRst)
      && (t.state == RemoteClosing || t.state == Closed ==> EndingOf(s.inbox.queue) == ByFin)
  {
    hide Owed, Sound;
    HandleFrameSound(s, f, q);
    HandleFrameKeepsOwed(s, f, q);
    HandleFrameEnds(s, f, q);
  }

  lemma HandleFrameEnds(s: Stream, f: Frame, q: seq<Frame>)
    requires s.inbox.queue == [f] + q && !StopsReading(s.state)
    requires HandleFrame(WithQueue(s, q), f).error.None?
    ensures var t := HandleFrame(WithQueue(s, q), f).s;
      && (!StopsReading(t.state) ==> EndingOf(q) == EndingOf(s.inbox.queue))
      && (t.state == Reset ==> EndingOf(s.inbox.queue) == ByRst)
      && (t.state == RemoteClosing || t.state == Closed ==> EndingOf(s.inbox.queue) == ByFin)
  {
    assert s.inbox.queue[0] == f && s.inbox.queue[1..] == q;
  }

  lemma HandleFrameSound(s: Stream, f: Frame, q: seq<Frame>)
    requires s.inbox.queue == [f] + q
    requires Sound(s) && !StopsReading(s.state)
    requires HandleFrame(WithQueue(s, q), f).error.None?
    ensures Sound(HandleFrame(WithQueue(s, q), f).s)
  {
    hide ProcessFlags;
    assert s.inbox.queue[0] == f && s.inbox.queue[1..] == q;
    assert WellFormed(s.inbox.queue[0]);
    assert forall i | 0 <= i < |q| :: q[i] == s.inbox.queue[i + 1];
    if f.body.Some? {
      FlattenSnoc(s.readBuf, f.body.value);
    }
  }

  lemma HandleFrameKeepsOwed(s: Stream, f: Frame, q: seq<Frame>)
    requires s.inbox.queue == [f] + q
    requires Sound(s) && !StopsReading(s.state)
    requires HandleFrame(WithQueue(s, q), f).error.None?
    ensures Owed(HandleFrame(WithQueue(s, q), f).s) == Owed(s)
  {
    hide Gap;
    assert s.inbox.queue[0] == f && s.inbox.queue[1..] == q;
    assert WellFormed(s.inbox.queue[0]);
    var t := HandleFrame(WithQueue(s, q), f).s;
    if f.header.ty == Data && f.header.length > 0 && t.state != Reset {
      FlattenSnoc(s.readBuf, f.body.value);
      ConcatAssoc(Flatten(s.readBuf), f.body.value, if f.header.flags.fin then [] else Deliverable(q));
    } else if t.state != Reset {
      assert BodyOf(f) == [];
    }
    ConcatEmpty(Flatten(s.readBuf));
    ConcatEmpty(Deliverable(q));
  }

  lemma {:induction false} DrainOwed(s: Stream, arrived: seq<Frame>)
    requires Sound(s) && StateTells(s, arrived)
    requires !IsProtocolError(Drain(s).error)
    ensures var d := Drain(s);
      && Sound(d.s) && StateTells(d.s, arrived)
      && Owed(d.s) == Owed(s)
      && d.s.readWake == s.readWake
      && (d.error.None? ==> d.s.inbox.queue == [] && !StopsReading(d.s.state))
    decreases |s.inbox.queue|
  {
    if !StopsReading(s.state) && !s.inbox.terminated && s.inbox.queue != [] {
      var q := s.inbox.queue;
      assert q == [q[0]] + q[1..];
      HandleFrameOwed(s, q[0], q[1..]);
      HandleFrameKeeps(WithQueue(s, q[1..]), q[0]);
      var r := HandleFrame(WithQueue(s, q[1..]), q[0]);
      hide HandleFrame, Owed;
      DrainOwed(r.s, arrived);
    } else if !StopsReading(s.state) && s.inbox.closed {
      ConcatEmpty(Flatten(s.readBuf));
    }
  }

  lemma SoundIgnoresWakers(s: Stream, t: Stream, arrived: seq<Frame>)
    requires Sound(s) && StateTells(s, arrived)
    requires t.state == s.state && t.readBuf == s.readBuf
    requires t.recvWindow == s.recvWindow && t.maxRecvWindow == s.maxRecvWindow
    requires t.inbox == s.inbox.(waker := t.inbox.waker)
    ensures Sound(t) && StateTells(t, arrived) && Owed(t) == Owed(s)
  {}

  lemma DrainBlockingOwed(s: Stream, t: Task, arrived: seq<Frame>)
    requires Sound(s) && StateTells(s, arrived)
    requires !IsProtocolError(DrainBlocking(s.(readWake := Some(t)), t).error)
    ensures var d := DrainBlocking(s.(readWake := Some(t)), t);
      && Sound(d.s) && StateTells(d.s, arrived)
      && Owed(d.s) == Owed(s)
      && (d.error.None? ==> d.s.inbox.queue == [] && !StopsReading(d.s.state))
      && (d.error.Some? ==> StopsReading(d.s.state))
  {
    hide Drain, Owed, Sound, StateTells;
    var s1 := s.(readWake := Some(t));
    SoundIgnoresWakers(s, s1, arrived);
    DrainOwed(s1, arrived);
    DrainErrorStops(s1);
    SoundIgnoresWakers(Drain(s1).s, DrainBlocking(s1, t).s, arrived);
  }

  lemma {:induction false} DrainErrorStops(s: Stream)
    ensures var d := Drain(s);
      d.error.Some? && !IsProtocolError(d.error) ==> StopsReading(d.s.state)
    decreases |s.inbox.queue|
  {
    if !StopsReading(s.state) && !s.inbox.terminated && s.inbox.queue != [] {
      var q := s.inbox.queue;
      var r := HandleFrame(WithQueue(s, q[1..]), q[0]);
      HandleFrameKeeps(WithQueue(s, q[1..]), q[0]);
      if r.error.None? {
        DrainErrorStops(r.s);
      }
    }
  }

  // -------------------------------------------------------------------- actions

  /** The outcome a reader must see next, given what it is still owed and how the stream ends. */
  ghost predicate ReadAnswers(owed: seq<byte>, ending: Ending, closed: bool, room: nat, r: PollResult) {
    if owed != [] then r.outcome == Ready && r.bytes == owed[..Min(room, |owed|)]
    else
      && r.bytes == []
      && (r.outcome == Failed(ConnectionReset) <==> ending == ByRst)
      && (r.outcome == Ready <==> ending == ByFin || (ending == StillOpen && closed))
      && (r.outcome == Pending <==> ending == StillOpen && !closed)
  }

  lemma DeliverOwed(s: Stream, room: nat, arrived: seq<Frame>)
    requires Sound(s) && StateTells(s, arrived) && s.readBuf != []
    ensures var r := Deliver(s, room, true);
      && r.outcome == Ready
      && Sound(r.s) && (StopsReading(s.state) <==> StopsReading(r.s.state))
      && r.s.inbox == s.inbox && (StopsReading(s.state) ==> r.s.state == s.state)
      && Owed(s) == r.bytes + Owed(r.s)
      && |r.bytes| == Min(room, |Flatten(s.readBuf)|)
  {
    CopyOutIsTake(s.readBuf, room);
    var (bytes, rest) := CopyOut(s.readBuf, room);
    var t := s.(readBuf := rest);
    var r := Deliver(s, room, true);
    assert Gap(t) >= Gap(s);
    ConcatAssoc(bytes, Flatten(rest), Upcoming(s));
    assert Flatten(s.readBuf) == s.readBuf[0] + Flatten(s.readBuf[1..]);
  }

  lemma ReadFaithful(h: Reading, t: Task, room: nat)
    requires Faithful(h)
    requires SendGoAway !in PollRead(h.s, t, room, true).events
    ensures var r := PollRead(h.s, t, room, true);
      && Faithful(Advance(h, Read(t, room)))
      && (exists owed ::
          && h.got + owed == Deliverable(h.arrived)
          && ReadAnswers(owed, EndingOf(h.arrived), h.s.inbox.closed, room, r))
  {
    var r := PollRead(h.s, t, room, true);
    var owed := Owed(h.s);
    AwaitOwed(h.s, t, h.arrived);
    hide Sound, StateTells, Deliver, AwaitBytes;
    var b := AwaitBytes(h.s, t, true);
    if b.Serve? {
      DeliverOwed(b.s, room, h.arrived);
      DeliverTells(b.s, room, h.arrived);
      ConcatAssoc(h.got, r.bytes, Owed(r.s));
    } else {
      ConcatEmpty(h.got);
    }
    assert h.got + owed == Deliverable(h.arrived);
    assert ReadAnswers(owed, EndingOf(h.arrived), h.s.inbox.closed, room, r);
  }

  lemma DeliverTells(s: Stream, room: nat, arrived: seq<Frame>)
    requires Sound(s) && StateTells(s, arrived) && s.readBuf != []
    ensures StateTells(Deliver(s, room, true).s, arrived)
  {
    DeliverOwed(s, room, arrived);
  }

  /** Everything before the copy loop: either bytes are at hand, or the stream says how it stands. */
  lemma AwaitOwed(s: Stream, t: Task, arrived: seq<Frame>)
    requires Sound(s) && StateTells(s, arrived)
    requires var b := AwaitBytes(s, t, true); b.Settled? ==> SendGoAway !in b.result.events
    ensures var b := AwaitBytes(s, t, true);
      var s' := if b.Settled? then b.result.s else b.s;
      && Sound(s') && StateTells(s', arrived) && Owed(s') == Owed(s)
      && (b.Serve? ==> b.s.readBuf != [] && Flatten(b.s.readBuf) == Owed(s) != [])
      && (b.Settled? ==>
          && Owed(s) == [] && b.result.bytes == [] && b.result.events == []
          && (b.result.outcome == Failed(ConnectionReset) <==> EndingOf(arrived) == ByRst)
          && (b.result.outcome == Ready <==>
                EndingOf(arrived) == ByFin || (EndingOf(arrived) == StillOpen && s.inbox.closed))
          && (b.result.outcome == Pending <==> EndingOf(arrived) == StillOpen && !s.inbox.closed))
  {
    var d := DrainBlocking(s.(readWake := Some(t)), t);
    hide DrainBlocking;
    if CheckSelfState(s) == Unsettled && !IsProtocolError(d.error) {
      DrainBlockingOwed(s, t, arrived);
      DrainBlockingCloses(s, t);
      ConcatEmpty(Flatten(d.s.readBuf));
    }
  }

  lemma {:induction false} DrainCloses(s: Stream)
    ensures var d := Drain(s);
      && d.s.inbox.closed == s.inbox.closed
      && (d.error.None? ==> !s.inbox.closed)
    decreases |s.inbox.queue|
  {
    if !StopsReading(s.state) && !s.inbox.terminated && s.inbox.queue != [] {
      var q := s.inbox.queue;
      var r := HandleFrame(WithQueue(s, q[1..]), q[0]);
      HandleFrameKeeps(WithQueue(s, q[1..]), q[0]);
      if r.error.None? {
        DrainCloses(r.s);
      }
    }
  }

  lemma DrainBlockingCloses(s: Stream, t: Task)
    ensures var d := DrainBlocking(s.(readWake := Some(t)), t);
      && d.s.inbox.closed == s.inbox.closed
      && (d.error.None? ==> !s.inbox.closed)
  {
    hide Drain;
    DrainCloses(s.(readWake := Some(t)));
  }

  lemma PeekFaithful(h: Reading, t: Task, room: nat)
    requires Faithful(h)
    requires SendGoAway !in PollPeek(h.s, t, room, true).events
    ensures Faithful(Advance(h, Peek(t, room)))
  {
    hide Sound, StateTells, AwaitBytes;
    AwaitOwed(h.s, t, h.arrived);
  }

  lemma WriteDrainOwed(s: Stream, blocking: Option<Task>, arrived: seq<Frame>)
    requires Sound(s) && StateTells(s, arrived)
    requires SendGoAway !in WriteDrain(s, blocking, true).events
    ensures var r := WriteDrain(s, blocking, true);
      Sound(r.s) && StateTells(r.s, arrived) && Owed(r.s) == Owed(s) && r.events == []
  {
    hide Drain, Owed, Sound, StateTells;
    var d := DrainAndWake(s, blocking);
    assert d.error == Drain(s).error;
    assert IsProtocolError(d.error) ==> WriteDrain(s, blocking, true).events == [SendGoAway];
    DrainOwed(s, arrived);
    SoundIgnoresWakers(Drain(s).s, d.s, arrived);
  }

  lemma WriteOutOwed(s: Stream, data: seq<byte>, arrived: seq<Frame>)
    requires Sound(s) && StateTells(s, arrived)
    ensures var r := WriteOut(s, data, true);
      Sound(r.s) && StateTells(r.s, arrived) && Owed(r.s) == Owed(s)
  {}

  lemma ParkOwed(s: Stream, t: Task, arrived: seq<Frame>)
    requires Sound(s) && StateTells(s, arrived)
    requires SendGoAway !in ParkAndRedrain(s, t, true).events
    ensures var r := ParkAndRedrain(s, t, true);
      Sound(r.s) && StateTells(r.s, arrived) && Owed(r.s) == Owed(s) && r.events == []
  {
    hide WriteDrain, Owed, Sound, StateTells;
    var blocking := if s.readWake == Some(t) || s.readWake.None? then Some(t) else None;
    var parked := s.(writeWake := Some(t));
    SoundIgnoresWakers(s, parked, arrived);
    WriteDrainOwed(parked, blocking, arrived);
    SoundIgnoresWakers(WriteDrain(parked, blocking, true).s, ParkAndRedrain(s, t, true).s, arrived);
  }

  lemma WriteFaithful(h: Reading, t: Task, data: seq<byte>)
    requires Faithful(h)
    requires SendGoAway !in PollWrite(h.s, t, data, true).events
    ensures Faithful(Advance(h, Write(t, data)))
  {
    hide WriteDrain, ParkAndRedrain, WriteOut, Sound, StateTells;
    var blocking := if h.s.readWake.Some? then None else Some(t);
    var first := WriteDrain(h.s, blocking, true);
    if SendGoAway in first.events {
      WriteKeepsEvents(h.s, t, data);
    }
    WriteDrainOwed(h.s, blocking, h.arrived);
    var ready := first;
    if !first.outcome.Failed? && first.s.sendWindow == 0 {
      if SendGoAway in ParkAndRedrain(first.s, t, true).events {
        WriteKeepsEvents(h.s, t, data);
      }
      ParkOwed(first.s, t, h.arrived);
      ready := ParkAndRedrain(first.s, t, true);
    }
    WriteOutOwed(ready.s, data, h.arrived);
  }

  /** Nothing a write poll has emitted in its drains is forgotten in its result. */
  lemma WriteKeepsEvents(s: Stream, t: Task, data: seq<byte>)
    ensures var first := WriteDrain(s, if s.readWake.Some? then None else Some(t), true);
      var events := PollWrite(s, t, data, true).events;
      && (SendGoAway in first.events ==> SendGoAway in events)
      && (!first.outcome.Failed? && first.s.sendWindow == 0 ==>
            (SendGoAway in ParkAndRedrain(first.s, t, true).events ==> SendGoAway in events))
  {
    hide WriteDrain, ParkAndRedrain, WriteOut;
  }

  lemma ShutdownOwed(s: Stream, arrived: seq<Frame>)
    requires Sound(s) && StateTells(s, arrived)
    requires s.state != LocalClosing && s.state != Reset
    ensures var r := Shutdown(s, true);
      Sound(r.s) && StateTells(r.s, arrived) && Owed(r.s) == Owed(s)
  {}

  lemma PushOwed(s: Stream, f: Frame, arrived: seq<Frame>)
    requires Sound(s) && StateTells(s, arrived)
    requires WellFormed(f) && !s.inbox.closed
    ensures var t := Push(s, f).s;
      && Sound(t) && StateTells(t, arrived + [f])
      && Owed(t) == Owed(s) + if EndingOf(arrived) == StillOpen then Deliverable([f]) else []
  {
    hide Deliverable, EndingOf;
    var q := s.inbox.queue;
    DeliverableSnoc(q, f);
    DeliverableSnoc(arrived, f);
    ConcatAssoc(Flatten(s.readBuf), Deliverable(q), Deliverable([f]));
    ConcatEmpty(Owed(s));
  }

  lemma ArriveFaithful(h: Reading, f: Frame)
    requires Faithful(h) && Fair(h, Arrive(f))
    ensures Faithful(Advance(h, Arrive(f)))
  {
    hide Sound, StateTells, Owed, Deliverable, EndingOf, Push;
    PushOwed(h.s, f, h.arrived);
    DeliverableSnoc(h.arrived, f);
    ConcatAssoc(h.got, Owed(h.s), Deliverable([f]));
    ConcatEmpty(Owed(h.s));
  }

  lemma AdvanceFaithful(h: Reading, a: Action)
    requires Faithful(h) && Fair(h, a)
    ensures Faithful(Advance(h, a))
  {
    match a
    case Read(t, room) => ReadFaithful(h, t, room);
    case Peek(t, room) => PeekFaithful(h, t, room);
    case Write(t, data) => WriteFaithful(h, t, data);
    case CloseWrite =>
      if HarmlessAgain(h.s) {
        SecondCloseIsHarmlessIff(h);
      } else {
        ShutdownOwed(h.s, h.arrived);
      }
    case Arrive(f) => ArriveFaithful(h, f);
    case SenderDropped =>
  }

  lemma {:induction false} AdvanceAllFaithful(h: Reading, actions: seq<Action>)
    requires Faithful(h) && FairAll(h, actions)
    ensures Faithful(AdvanceAll(h, actions))
    decreases |actions|
  {
    if actions != [] {
      hide Faithful, Fair, Advance;
      AdvanceFaithful(h, actions[0]);
      AdvanceAllFaithful(Advance(h, actions[0]), actions[1..]);
    }
  }

  /** For every fair run of a session-created stream, the reader has exactly a prefix of the
      payload before an RST, or up to and including a FIN frame; and its next read returns the
      rest of it up to its room, or -- once it has all -- ConnectionReset exactly after an RST,
      end-of-file exactly after a FIN or a lost channel, and Pending exactly while open. */
  lemma TerminalDelivery(id: StreamId, state: StreamState, max: u32, actions: seq<Action>, t: Task, room: nat)
    requires INITIAL_STREAM_WINDOW <= max
    requires state == Init || state == SynReceived
    requires FairAll(Reading(Created(id, state, max).s, [], []), actions + [Read(t, room)])
    ensures var h := AdvanceAll(Reading(Created(id, state, max).s, [], []), actions);
      && h.got <= Deliverable(h.arrived)
      && ReadAnswers(Deliverable(h.arrived)[|h.got|..], EndingOf(h.arrived), h.s.inbox.closed, room,
                     PollRead(h.s, t, room, true))
  {
    var h0 := Reading(Created(id, state, max).s, [], []);
    CreatedBalanced(id, state, max);
    assert Faithful(h0);
    hide Faithful, Fair, Advance, Created;
    FairSplit(h0, actions, Read(t, room));
    AdvanceAllFaithful(h0, actions);
    TerminalAnswer(AdvanceAll(h0, actions), t, room);
  }

  lemma TerminalAnswer(h: Reading, t: Task, room: nat)
    requires Faithful(h) && Fair(h, Read(t, room))
    ensures h.got <= Deliverable(h.arrived)
    ensures ReadAnswers(Deliverable(h.arrived)[|h.got|..], EndingOf(h.arrived), h.s.inbox.closed, room,
                        PollRead(h.s, t, room, true))
  {
    ReadFaithful(h, t, room);
    var r := PollRead(h.s, t, room, true);
    hide PollRead, Faithful, Deliverable, ReadAnswers;
    var owed :| h.got + owed == Deliverable(h.arrived)
                && ReadAnswers(owed, EndingOf(h.arrived), h.s.inbox.closed, room, r);
    assert Deliverable(h.arrived)[|h.got|..] == owed;
  }

  lemma {:induction false} FairSplit(h: Reading, actions: seq<Action>, last: Action)
    requires FairAll(h, actions + [last])
    ensures FairAll(h, actions) && Fair(AdvanceAll(h, actions), last)
    decreases |actions|
  {
    hide Fair, Advance;
    if actions == [] {
      ConcatEmpty([last]);
    } else {
      ConcatTail(actions, [last]);
      FairSplit(Advance(h, actions[0]), actions[1..], last);
    }
  }

  /** When closing again does no harm: a reader's books survive it exactly if the queue holds no more
      payload and already ends the stream, with a FIN or a lost channel. */
  lemma SecondCloseIsHarmlessIff(h: Reading)
    requires Faithful(h) && (h.s.state == LocalClosing || h.s.state == Reset)
    ensures Faithful(Advance(h, CloseWrite)) <==> HarmlessAgain(h.s)
  {
    var after := Advance(h, CloseWrite);
    var buffered, rest := Flatten(h.s.readBuf), Deliverable(h.s.inbox.queue);
    assert after.s == h.s.(state := Closed) && after.got == h.got;
    assert Owed(after.s) == buffered + [];
    ConcatEmpty(buffered);
    if h.s.state == LocalClosing {
      assert |h.got + (buffered + rest)| == |h.got + buffered| + |rest|;
      ConcatEmpty(h.got + buffered);
    }
  }

  /** Closing a second time is where the read side is cut short: bytes the peer sent before its
      FIN are still queued, and the next read reports end-of-file instead of returning them. */
  lemma SecondCloseTruncates(s: Stream, t: Task, room: nat)
    requires s.state == LocalClosing && s.readBuf == []
    ensures var closed := Shutdown(s, true).s;
      var r := PollRead(closed, t, room, true);
      r.bytes == [] && r.outcome == Ready && r.s.inbox == s.inbox
  {}

  /** And closing a stream that was reset hides the reset: the next read reports end-of-file. */
  lemma CloseHidesReset(s: Stream, t: Task, room: nat)
    requires s.state == Reset && s.readBuf == []
    ensures PollRead(s, t, room, true).outcome == Failed(ConnectionReset)
    ensures PollRead(Shutdown(s, true).s, t, room, true).outcome == Ready
  {}
}
