/** No lost wake-up: a writer parked on a zero window is always about to be looked at again.

    The polls of one stream run on arbitrary tasks, interleaved with frames arriving from the
    session. A woken task owes a poll: `readDue` holds the tasks that were woken while recorded
    as the stream's reader and have not polled a read since, `writeDue` the parked writer once
    it has been woken. The hypothesis of the source's hand-off is that these debts are paid. */
module WakeUps {
  import opened Prelude
  import opened Frames
  import opened Streams

  datatype World = World(s: Stream, readDue: set<Task>, writeDue: set<Task>, parked: Option<Task>)

  /** A woken task that is recorded in `slot`. */
  function Due(woken: set<Task>, slot: Option<Task>): set<Task> {
    woken * Wake(slot)
  }

  function AfterRead(w: World, t: Task, r: PollResult): World {
    World(r.s, w.readDue - {t}, w.writeDue + Due(r.woken, w.parked), w.parked)
  }

  /** Frames and disconnection wake whoever is in the channel's waker slot. */
  function AfterSession(w: World, r: PollResult): World {
    World(r.s, w.readDue + Due(r.woken, w.s.readWake), w.writeDue + Due(r.woken, w.parked), w.parked)
  }

  function AfterWrite(w: World, t: Task, r: PollResult): World {
    World(r.s,
          w.readDue + Due(r.woken, w.s.readWake),
          (w.writeDue - {t}) + Due(r.woken, w.parked) + Due(r.woken, Some(t)),
          if r.outcome == Pending then Some(t) else None)
  }

  function Act(w: World, a: Action, live: bool): World {
    var r := Poll(w.s, a, live);
    match a
    case Read(t, _) => AfterRead(w, t, r)
    case Peek(t, _) => AfterRead(w, t, r)
    case Write(t, _) => AfterWrite(w, t, r)
    case CloseWrite => World(r.s, w.readDue, w.writeDue, None)
    case Arrive(_) => AfterSession(w, r)
    case SenderDropped => AfterSession(w, r)
  }

  function Run(w: World, actions: seq<Action>, live: bool): World
    decreases |actions|
  {
    if actions == [] then w else Run(Act(w, actions[0], live), actions[1..], live)
  }

  /** The stream still exchanges frames in both directions: no FIN, RST or close so far. */
  predicate Flowing(s: Stream) {
    && (s.state == Init || s.state == SynSent || s.state == SynReceived || s.state == Established)
    && !s.inbox.terminated
  }

  /** The task in the channel's waker slot, if it is the parked writer or the recorded reader. */
  predicate Listening(s: Stream, writer: Task) {
    s.inbox.waker.Some? && (s.inbox.waker == Some(writer) || s.inbox.waker == s.readWake)
  }

  predicate ReaderCovered(w: World) {
    w.s.readWake.Some? ==> w.s.readWake.value in w.readDue || w.s.inbox.waker == w.s.readWake
  }

  predicate WriterCovered(w: World) {
    w.parked.Some? ==>
      || w.parked.value in w.writeDue
      || (w.s.sendWindow == 0 && w.s.writeWake == w.parked
          && (w.readDue != {} || Listening(w.s, w.parked.value)))
  }

  predicate SlotMeansEmpty(s: Stream) {
    s.inbox.waker.Some? ==> s.inbox.queue == [] && !s.inbox.closed
  }

  ghost predicate Covered(w: World) {
    && SlotMeansEmpty(w.s)
    && (Flowing(w.s) ==> ReaderCovered(w) && WriterCovered(w))
  }

  // ------------------------------------------------------------- drains and wakers

  /** Handling frames either leaves the writer alone or wakes it. */
  lemma {:induction false} DrainWakes(s: Stream)
    ensures var d := Drain(s);
      && d.s.readWake == s.readWake
      && d.s.inbox.waker == s.inbox.waker
      && d.s.inbox.closed == s.inbox.closed
      && |d.s.inbox.queue| <= |s.inbox.queue|
      && (d.error.None? ==> d.s.inbox.queue == [] && !d.s.inbox.closed)
      && (Flowing(d.s) && !IsProtocolError(d.error) ==> Flowing(s) && d.error.None?)
      && (|| (d.woken == {} && d.s.writeWake == s.writeWake && d.s.sendWindow == s.sendWindow)
          || (d.woken == Wake(s.writeWake) && d.s.writeWake.None?))
    decreases |s.inbox.queue|
  {
    if !StopsReading(s.state) && !s.inbox.terminated && s.inbox.queue != [] {
      var q := s.inbox.queue;
      var r := HandleFrame(WithQueue(s, q[1..]), q[0]);
      HandleFrameKeeps(WithQueue(s, q[1..]), q[0]);
      if r.error.None? {
        DrainWakes(r.s);
      }
    }
  }

  lemma AwaitBytesWakes(s: Stream, t: Task, live: bool)
    requires SlotMeansEmpty(s)
    ensures var b := AwaitBytes(s, t, live);
      var s' := if b.Settled? then b.result.s else b.s;
      var woken := if b.Settled? then b.result.woken else b.woken;
      && SlotMeansEmpty(s')
      && (Flowing(s') ==>
          && Flowing(s)
          && s'.inbox.waker == Some(t) && s'.readWake == Some(t)
          && (|| (woken == {} && s'.writeWake == s.writeWake && s'.sendWindow == s.sendWindow)
              || woken == Wake(s.writeWake)))
  {
    hide Drain;
    DrainWakes(s.(readWake := Some(t)));
  }

  lemma DeliverWakes(s: Stream, room: nat, live: bool)
    ensures var r := Deliver(s, room, live);
      && r.s.inbox == s.inbox && r.s.readWake == s.readWake && r.s.writeWake == s.writeWake
      && r.s.sendWindow == s.sendWindow && r.woken == {}
      && (Flowing(r.s) ==> Flowing(s))
  {}

  lemma ReadCovered(w: World, t: Task, r: PollResult, live: bool)
    requires Covered(w)
    requires (exists room :: r == PollRead(w.s, t, room, live)) || (exists room :: r == PollPeek(w.s, t, room, live))
    ensures Covered(AfterRead(w, t, r))
  {
    hide AwaitBytes, Deliver;
    AwaitBytesWakes(w.s, t, live);
    var b := AwaitBytes(w.s, t, live);
    if b.Serve? {
      forall room {
        DeliverWakes(b.s, room, live);
      }
    }
  }

  lemma WriteDrainWakes(s: Stream, blocking: Option<Task>, live: bool)
    requires SlotMeansEmpty(s)
    ensures var r := WriteDrain(s, blocking, live);
      && SlotMeansEmpty(r.s)
      && (Flowing(r.s) ==>
          && Flowing(s) && r.outcome == Ready
          && r.s.inbox.waker == (if blocking.Some? then blocking else s.inbox.waker)
          && (r.s.readWake == s.readWake || (r.s.readWake.None? && Wake(s.readWake) <= r.woken))
          && (|| (r.s.writeWake == s.writeWake && r.s.sendWindow == s.sendWindow)
              || (Wake(s.writeWake) <= r.woken && r.s.writeWake.None?)))
  {
    hide Drain;
    DrainWakes(s);
  }

  /** Parking leaves the writer woken, listening itself, or covered by the reader. */
  lemma ParkCovered(w: World, s: Stream, t: Task, live: bool)
    requires SlotMeansEmpty(s)
    requires Flowing(s) ==> s.readWake.Some? ==> s.readWake.value in w.readDue || s.inbox.waker == s.readWake
    requires s.sendWindow == 0
    ensures var r := ParkAndRedrain(s, t, live);
      && SlotMeansEmpty(r.s)
      && (Flowing(r.s) ==>
          && Flowing(s)
          && (r.s.readWake == s.readWake || (r.s.readWake.None? && Wake(s.readWake) <= r.woken))
          && (r.s.readWake.Some? ==> r.s.readWake.value in w.readDue || r.s.inbox.waker == r.s.readWake)
          && (r.outcome == Pending ==>
              || t in r.woken
              || (r.s.sendWindow == 0 && r.s.writeWake == Some(t)
                  && (w.readDue + Due(r.woken, s.readWake) != {} || Listening(r.s, t)))))
  {
    hide WriteDrain;
    var blocking := if s.readWake == Some(t) || s.readWake.None? then Some(t) else None;
    WriteDrainWakes(s.(writeWake := Some(t)), blocking, live);
    var r := ParkAndRedrain(s, t, live);
    if Flowing(r.s) && blocking.None? && r.s.readWake.None? {
      assert s.readWake.value in Due(r.woken, s.readWake);
    }
  }

  lemma WriteOutWakes(s: Stream, data: seq<byte>, live: bool)
    ensures var r := WriteOut(s, data, live);
      && r.s.inbox == s.inbox && r.s.readWake == s.readWake && r.woken == {}
      && r.outcome != Pending
      && (Flowing(r.s) ==> Flowing(s))
  {}

  lemma WriteCovered(w: World, t: Task, data: seq<byte>, live: bool)
    requires Covered(w)
    ensures Covered(AfterWrite(w, t, PollWrite(w.s, t, data, live)))
  {
    hide WriteDrain, ParkAndRedrain, WriteOut;
    var blocking := if w.s.readWake.Some? then None else Some(t);
    WriteDrainWakes(w.s, blocking, live);
    var first := WriteDrain(w.s, blocking, live);
    var ready := first;
    if !first.outcome.Failed? && first.s.sendWindow == 0 {
      ParkCovered(w, first.s, t, live);
      ready := ParkAndRedrain(first.s, t, live);
    }
    WriteOutWakes(ready.s, data, live);
  }

  lemma ActCovered(w: World, a: Action, live: bool)
    requires Covered(w)
    ensures Covered(Act(w, a, live))
  {
    match a
    case Read(t, room) => ReadCovered(w, t, PollRead(w.s, t, room, live), live);
    case Peek(t, room) => ReadCovered(w, t, PollPeek(w.s, t, room, live), live);
    case Write(t, data) => WriteCovered(w, t, data, live);
    case CloseWrite =>
    case Arrive(f) =>
      if w.s.inbox.waker.Some? {
        assert w.s.inbox.waker.value in Push(w.s, f).woken;
      }
    case SenderDropped =>
  }

  lemma {:induction false} RunCovered(w: World, actions: seq<Action>, live: bool)
    requires Covered(w)
    ensures Covered(Run(w, actions, live))
    decreases |actions|
  {
    if actions != [] {
      ActCovered(w, actions[0], live);
      RunCovered(Act(w, actions[0], live), actions[1..], live);
    }
  }

  /** While the stream flows and its writer is parked: the writer has been woken as soon as there is
      credit; a frame nobody has looked at means some task owes a poll; and with no frame waiting,
      either a poll is owed or the next frame (or the loss of the channel) makes one owed. */
  ghost predicate PollIsOwed(w: World, live: bool, next: Frame) {
    Flowing(w.s) && w.parked.Some? ==>
      && (w.s.sendWindow > 0 ==> w.parked.value in w.writeDue)
      && (w.s.inbox.queue != [] || w.s.inbox.closed ==> w.parked.value in w.writeDue || w.readDue != {})
      && (var after := Act(w, Arrive(next), live); w.parked.value in after.writeDue || after.readDue != {})
      && (var after := Act(w, SenderDropped, live); w.parked.value in after.writeDue || after.readDue != {})
  }

  lemma CoveredOwesAPoll(w: World, live: bool, next: Frame)
    requires Covered(w)
    ensures PollIsOwed(w, live, next)
  {
    if Flowing(w.s) && w.parked.Some? && Listening(w.s, w.parked.value) {
      var t := w.s.inbox.waker.value;
      assert t in Push(w.s, next).woken && t in Disconnect(w.s).woken;
      if Some(t) == w.parked {
        assert t in Due(Push(w.s, next).woken, w.parked) && t in Due(Disconnect(w.s).woken, w.parked);
      } else {
        assert t in Due(Push(w.s, next).woken, w.s.readWake) && t in Due(Disconnect(w.s).woken, w.s.readWake);
      }
    }
  }

  /** No wake-up is lost, in every run from a new stream. */
  lemma NoLostWakeUp(start: Stream, actions: seq<Action>, live: bool, next: Frame)
    requires start.inbox == EMPTY_CHANNEL && start.readWake.None? && start.writeWake.None?
    ensures PollIsOwed(Run(World(start, {}, {}, None), actions, live), live, next)
  {
    var w := World(start, {}, {}, None);
    assert Covered(w);
    hide Covered, PollIsOwed, Act;
    RunCovered(w, actions, live);
    CoveredOwesAPoll(Run(w, actions, live), live, next);
  }

  /** Paying a debt makes progress: the poll that is owed looks at every waiting frame, so a
      reader that polls hands the parked writer any credit that had arrived. */
  lemma OwedReadServesWriter(w: World, t: Task, room: nat, live: bool)
    requires Covered(w) && Flowing(w.s) && w.parked.Some?
    ensures var after := Act(w, Read(t, room), live);
      Flowing(after.s) ==>
        && after.s.inbox.queue == []
        && (after.s.sendWindow > 0 ==> w.parked.value in after.writeDue)
        && after.s.inbox.waker == Some(t) == after.s.readWake
  {
    hide AwaitBytes, Deliver;
    ActCovered(w, Read(t, room), live);
    AwaitBytesWakes(w.s, t, live);
    var b := AwaitBytes(w.s, t, live);
    if b.Serve? {
      DeliverWakes(b.s, room, live);
    }
  }
}
