/** What becomes of a parked writer when its stream ends: the frames that end a stream while another
    task drains them can leave the writer asleep for good. The exact inputs, and runs. */
module Starvation {
  import opened Prelude
  import opened Frames
  import opened Streams
  import opened Accounting
  import opened Delivery
  import opened WakeUps

  /** The frames a drain handles: up to and including the first FIN or RST. */
  function Seen(q: seq<Frame>): seq<Frame> {
    if q == [] then []
    else [q[0]] + if q[0].header.flags.fin || q[0].header.flags.rst then [] else Seen(q[1..])
  }

  /** No window update among them. */
  predicate Silent(fs: seq<Frame>) {
    forall i | 0 <= i < |fs| :: fs[i].header.ty != WindowUpdate
  }

  predicate Draining(s: Stream) {
    Flowing(s) || (s.state == LocalClosing && !s.inbox.terminated)
  }

  /** The poll meets no protocol error, as between two of these sessions. */
  predicate Quiet(s: Stream, a: Action) {
    a.Read? || a.Peek? || a.Write? ==> !IsProtocolError(Drain(s).error)
  }

  // ------------------------------------------------------------------------- drains

  lemma SeenHead(q: seq<Frame>)
    requires q != []
    ensures var last := q[0].header.flags.fin || q[0].header.flags.rst;
      && Credit(Seen(q)) == CreditOf(q[0]) + (if last then 0 else Credit(Seen(q[1..])))
      && (Silent(Seen(q)) <==> q[0].header.ty != WindowUpdate && (last || Silent(Seen(q[1..]))))
  {
    var rest := if q[0].header.flags.fin || q[0].header.flags.rst then [] else Seen(q[1..]);
    assert ([q[0]] + rest)[1..] == rest;
    if Silent(Seen(q)) {
      forall i | 0 <= i < |rest|
        ensures rest[i].header.ty != WindowUpdate
      {
        assert Seen(q)[i + 1] == rest[i];
      }
    }
  }

  /** What handling one frame does to the writer and to the state. */
  lemma HandleFrameReference(s: Stream, f: Frame)
    requires Draining(s) && HandleFrame(s, f).error.None?
    ensures var r := HandleFrame(s, f);
      && r.s.sendWindow as nat == s.sendWindow as nat + CreditOf(f)
      && (f.header.flags.rst ==> r.s.state == Reset)
      && (f.header.flags.fin && !f.header.flags.rst ==>
            r.s.state == if s.state == LocalClosing then Closed else RemoteClosing)
      && (!f.header.flags.fin && !f.header.flags.rst ==>
            Draining(r.s) && (r.s.state == LocalClosing <==> s.state == LocalClosing))
      && (if f.header.ty == WindowUpdate then r.woken == Wake(s.writeWake) && r.s.writeWake.None?
          else r.woken == {} && r.s.writeWake == s.writeWake)
      && r.s.inbox == s.inbox
  {}

  /** A drain without a protocol error, by what is in the queue. */
  ghost predicate DrainsAs(s: Stream, d: DrainResult) {
    var q := s.inbox.queue;
    var ending := EndingOf(q);
    && d.s.sendWindow as nat == s.sendWindow as nat + Credit(Seen(q))
    && (ending == ByRst ==> d.s.state == Reset)
    && (ending == ByFin ==> d.s.state == if s.state == LocalClosing then Closed else RemoteClosing)
    && (ending == StillOpen && s.inbox.closed ==> d.s.state == RemoteClosing)
    && (ending == StillOpen && !s.inbox.closed ==>
          Draining(d.s) && (d.s.state == LocalClosing <==> s.state == LocalClosing) && d.error.None?)
    && (d.error.None? ==> ending == StillOpen && !s.inbox.closed)
    && (if Silent(Seen(q)) then d.woken == {} && d.s.writeWake == s.writeWake
        else d.woken == Wake(s.writeWake) && d.s.writeWake.None?)
  }

  lemma {:induction false} DrainReference(s: Stream)
    requires Draining(s) && !IsProtocolError(Drain(s).error)
    ensures DrainsAs(s, Drain(s))
    decreases |s.inbox.queue|
  {
    var q := s.inbox.queue;
    if q != [] {
      SeenHead(q);
      var t := WithQueue(s, q[1..]);
      var r := HandleFrame(t, q[0]);
      HandleFrameErrs(t, q[0]);
      HandleFrameReference(t, q[0]);
      hide HandleFrame;
      if !q[0].header.flags.fin && !q[0].header.flags.rst {
        DrainReference(r.s);
      }
    }
  }

  lemma HandleFrameErrs(s: Stream, f: Frame)
    ensures var e := HandleFrame(s, f).error; e.Some? ==> IsProtocolError(e)
  {}

  // -------------------------------------------------------------------- the exact inputs

  predicate Stopped(state: StreamState) {
    state == RemoteClosing || state == Reset
  }

  /** A writer parked on a stream that has ended, and nobody owes it a poll. */
  predicate Lost(w: World) {
    Stopped(w.s.state) && w.parked.Some? && w.parked.value !in w.writeDue
  }

  /** The queue ends the stream before it says anything to the writer. */
  predicate EndsUnheard(s: Stream) {
    Silent(Seen(s.inbox.queue)) && (EndingOf(s.inbox.queue) != StillOpen || s.inbox.closed)
  }

  /** The queue half-closes the stream, and what it says before leaves the window at zero. */
  predicate EndsWithoutCredit(s: Stream) {
    && ((EndingOf(s.inbox.queue) == ByFin && s.state != LocalClosing)
        || (EndingOf(s.inbox.queue) == StillOpen && s.inbox.closed))
    && s.sendWindow as nat + Credit(Seen(s.inbox.queue)) == 0
  }

  /** The polls that lose a writer, by what they find: a reader that drains the end of the stream past
      a sleeping writer, or a writer that parks on a zero window behind a FIN. */
  predicate Strands(w: World, a: Action) {
    match a
    case Read(_, _) => Flowing(w.s) && w.parked.Some? && w.parked.value !in w.writeDue && EndsUnheard(w.s)
    case Peek(_, _) => Flowing(w.s) && w.parked.Some? && w.parked.value !in w.writeDue && EndsUnheard(w.s)
    case Write(t, _) =>
      || (w.s.state == RemoteClosing && w.s.sendWindow == 0)
      || (Draining(w.s) && EndsWithoutCredit(w.s) && w.s.readWake != Some(t)
          && (Silent(Seen(w.s.inbox.queue)) || w.s.writeWake != Some(t)))
    case _ => false
  }

  /** The invariant of quiet runs: beside the cover of a flowing stream, a recorded reader of a locally
      closed stream is covered, no writer is parked on a closed stream, and the waker slot of an ended
      stream is empty. */
  ghost predicate Watched(w: World) {
    && Covered(w)
    && (w.s.state == LocalClosing ==> ReaderCovered(w))
    && (w.s.state == LocalClosing || w.s.state == Closed ==> w.parked.None?)
    && (Stopped(w.s.state) ==> w.s.inbox.waker.None?)
    && (w.s.inbox.terminated ==> w.s.state == RemoteClosing || w.s.state == Closed)
  }

  // -------------------------------------------------------------------------- reading

  /** The same writer, and the same state but for the opening of the stream. */
  predicate SameForWriter(s: Stream, t: Stream) {
    && (s.state == t.state || (OpenForWriting(s.state) && OpenForWriting(t.state)))
    && s.sendWindow == t.sendWindow && s.writeWake == t.writeWake
    && s.inbox.terminated == t.inbox.terminated
  }

  lemma AwaitIsDrain(s: Stream, t: Task, live: bool)
    requires Draining(s) && !IsProtocolError(Drain(s).error)
    ensures var d := Drain(s);
      var b := AwaitBytes(s, t, live);
      var s' := if b.Settled? then b.result.s else b.s;
      && (if b.Settled? then b.result.woken else b.woken) == d.woken
      && SameForWriter(s', d.s) && s'.readWake == Some(t)
      && s'.inbox.waker == if d.error.None? then Some(t) else s.inbox.waker
  {
    hide Drain;
    DrainIgnoresReader(s, Some(t));
    DrainWakes(s);
  }

  /** A read of a draining stream is its drain, as far as writer and state go. */
  lemma ReadIsDrain(s: Stream, t: Task, room: nat, live: bool)
    requires Draining(s) && !IsProtocolError(Drain(s).error)
    ensures var d := Drain(s);
      forall r | r == PollRead(s, t, room, live) || r == PollPeek(s, t, room, live) ::
        && r.woken == d.woken
        && SameForWriter(r.s, d.s) && r.s.readWake == Some(t)
        && r.s.inbox.waker == if d.error.None? then Some(t) else s.inbox.waker
  {
    hide Drain, AwaitBytes, Deliver, CopyOut;
    AwaitIsDrain(s, t, live);
    var b := AwaitBytes(s, t, live);
    if b.Serve? {
      DeliverWakes(b.s, room, live);
      DeliverKeepsState(b.s, room, live);
    }
  }

  lemma {:induction false} DrainIgnoresReader(s: Stream, reader: Option<Task>)
    ensures Drain(s.(readWake := reader)) == var d := Drain(s); d.(s := d.s.(readWake := reader))
    decreases |s.inbox.queue|
  {
    if !StopsReading(s.state) && !s.inbox.terminated && s.inbox.queue != [] {
      var q := s.inbox.queue;
      var t := WithQueue(s, q[1..]);
      HandleIgnoresReader(t, q[0], reader);
      var r := HandleFrame(t, q[0]);
      HandleFrameKeeps(t, q[0]);
      hide HandleFrame;
      if r.error.None? {
        DrainIgnoresReader(r.s, reader);
      }
    }
  }

  lemma HandleIgnoresReader(s: Stream, f: Frame, reader: Option<Task>)
    ensures HandleFrame(s.(readWake := reader), f) == var r := HandleFrame(s, f); r.(s := r.s.(readWake := reader))
  {}

  lemma DeliverKeepsState(s: Stream, room: nat, live: bool)
    ensures var r := Deliver(s, room, live);
      r.s.state == s.state || (OpenForWriting(r.s.state) && OpenForWriting(s.state))
  {
    hide CopyOut;
  }

  /** A read of a stream that has stopped reading changes nothing for the writer. */
  lemma ReadOfStopped(s: Stream, t: Task, room: nat, live: bool)
    requires StopsReading(s.state)
    ensures forall r | r == PollRead(s, t, room, live) || r == PollPeek(s, t, room, live) ::
      && r.woken == {} && r.s.state == s.state && r.s.sendWindow == s.sendWindow && r.s.inbox == s.inbox
  {
    hide CopyOut;
  }

  lemma ReadWatched(w: World, t: Task, room: nat, r: PollResult, live: bool)
    requires Watched(w) && !IsProtocolError(Drain(w.s).error)
    requires r == PollRead(w.s, t, room, live) || r == PollPeek(w.s, t, room, live)
    ensures var after := AfterRead(w, t, r);
      && Watched(after)
      && (!Lost(w) ==>
            (Lost(after) <==> Flowing(w.s) && w.parked.Some? && w.parked.value !in w.writeDue && EndsUnheard(w.s)))
  {
    hide PollRead, PollPeek, Drain;
    ReadCovered(w, t, r, live);
    if StopsReading(w.s.state) {
      ReadOfStopped(w.s, t, room, live);
    } else {
      ReadIsDrain(w.s, t, room, live);
      DrainReference(w.s);
      DrainWakes(w.s);
      DrainEnds(w.s);
    }
  }

  /** A channel is found terminated exactly when its stream was draining it at the end. */
  lemma {:induction false} DrainEnds(s: Stream)
    requires Draining(s)
    ensures Drain(s).s.inbox.terminated ==> Drain(s).s.state == RemoteClosing
    decreases |s.inbox.queue|
  {
    if s.inbox.queue != [] {
      var q := s.inbox.queue;
      var t := WithQueue(s, q[1..]);
      var r := HandleFrame(t, q[0]);
      HandleFrameKeeps(t, q[0]);
      if r.error.None? && !StopsReading(r.s.state) {
        HandleFrameReference(t, q[0]);
        hide HandleFrame;
        DrainEnds(r.s);
      }
    }
  }

  // -------------------------------------------------------------------------- writing

  /** Behind a FIN nothing is drained: the window is all there is to write with. */
  lemma WriteDrainAfterFin(s: Stream, blocking: Option<Task>, live: bool)
    requires s.state == RemoteClosing
    ensures WriteDrain(s, blocking, live) == PollResult(s, [], {}, [], Ready)
  {}

  lemma ParkAfterFin(s: Stream, t: Task, live: bool)
    requires s.state == RemoteClosing && s.sendWindow == 0
    ensures ParkAndRedrain(s, t, live) == PollResult(s.(writeWake := Some(t)), [], {}, [], Pending)
  {
    hide WriteDrain;
    var blocking := if s.readWake == Some(t) || s.readWake.None? then Some(t) else None;
    WriteDrainAfterFin(s.(writeWake := Some(t)), blocking, live);
  }

  lemma WriteOutAfterFin(s: Stream, data: seq<byte>, live: bool)
    requires s.state == RemoteClosing
    ensures var r := WriteOut(s, data, live);
      && r.s == s.(sendWindow := r.s.sendWindow) && r.woken == {}
      && (if live then r.outcome == Ready && |r.bytes| == Min(s.sendWindow, |data|) else r.outcome.Failed? && r.bytes == [])
      && r.s.sendWindow as nat + |r.bytes| == s.sendWindow as nat
  {}

  /** A write behind a FIN makes progress exactly while there is window left, and takes it off. */
  lemma WriteAfterFin(s: Stream, t: Task, data: seq<byte>, live: bool)
    requires s.state == RemoteClosing
    ensures var r := PollWrite(s, t, data, live);
      && r.s.state == RemoteClosing && r.s.inbox == s.inbox && r.woken == {}
      && (r.outcome == Pending <==> s.sendWindow == 0)
      && (live && s.sendWindow > 0 ==> r.outcome == Ready && |r.bytes| == Min(s.sendWindow, |data|))
      && r.s.sendWindow as nat + |r.bytes| == s.sendWindow as nat
  {
    hide WriteDrain, ParkAndRedrain, WriteOut;
    WriteDrainAfterFin(s, if s.readWake.Some? then None else Some(t), live);
    if s.sendWindow == 0 {
      ParkAfterFin(s, t, live);
    } else {
      WriteOutAfterFin(s, data, live);
    }
  }

  /** The write side's drain of a draining stream. */
  lemma WriteDrainIs(s: Stream, blocking: Option<Task>, live: bool)
    requires Draining(s) && !IsProtocolError(Drain(s).error)
    ensures var d := Drain(s);
      var r := WriteDrain(s, blocking, live);
      var told := d.s.state == RemoteClosing || (d.error.None? && d.hasNew && |d.s.readBuf| != |s.readBuf|);
      && SameForWriter(r.s, d.s) && r.s.state == d.s.state
      && r.woken == d.woken + (if told then Wake(s.readWake) else {})
      && r.s.readWake == (if told then None else s.readWake)
      && r.outcome == (if RefusesWrites(d.s.state) then Failed(BrokenPipe) else Ready)
      && r.s.inbox.waker == (if blocking.Some? && d.error.None? then blocking else s.inbox.waker)
      && r.s.inbox.queue == d.s.inbox.queue && r.s.inbox.closed == d.s.inbox.closed
  {
    hide Drain;
    DrainWakes(s);
  }

  /** A write that drains a live stream into its half-close: it is pending exactly on a zero window. */
  lemma WriteIntoFin(s: Stream, t: Task, data: seq<byte>, live: bool)
    requires Draining(s) && !IsProtocolError(Drain(s).error) && Drain(s).s.state == RemoteClosing
    requires Drain(s).error.Some?
    ensures var d := Drain(s);
      var r := PollWrite(s, t, data, live);
      && r.s.state == RemoteClosing && r.s.inbox.waker == s.inbox.waker
      && (r.outcome == Pending <==> d.s.sendWindow == 0)
      && r.woken == d.woken + Wake(s.readWake)
      && r.s.inbox.terminated == d.s.inbox.terminated
  {
    hide Drain, WriteDrain, ParkAndRedrain, WriteOut;
    var blocking := if s.readWake.Some? then None else Some(t);
    WriteDrainIs(s, blocking, live);
    var first := WriteDrain(s, blocking, live);
    if first.s.sendWindow == 0 {
      ParkAfterFin(first.s, t, live);
    } else {
      WriteOutAfterFin(first.s, data, live);
    }
  }

  lemma EmptyDrain(s: Stream)
    requires Draining(s) && s.inbox.queue == [] && !s.inbox.closed
    ensures Drain(s) == DrainResult(s, None, false, {})
  {}

  /** A writer that parks on a stream with nothing to drain. */
  lemma ParkOnEmpty(s: Stream, t: Task, live: bool)
    requires Flowing(s) && s.inbox.queue == [] && !s.inbox.closed && s.sendWindow == 0
    ensures var r := ParkAndRedrain(s, t, live);
      var waker := if s.readWake == Some(t) || s.readWake.None? then Some(t) else s.inbox.waker;
      r == PollResult(s.(writeWake := Some(t), inbox := s.inbox.(waker := waker)), [], {}, [], Pending)
  {
    hide Drain;
    EmptyDrain(s.(writeWake := Some(t)));
  }

  /** A write on a stream that goes on leaves it flowing; any other write is refused. */
  lemma WriteElsewhere(s: Stream, t: Task, data: seq<byte>, live: bool)
    requires Draining(s) && !IsProtocolError(Drain(s).error) && Drain(s).s.state != RemoteClosing
    ensures var d := Drain(s);
      var r := PollWrite(s, t, data, live);
      && (RefusesWrites(d.s.state) ==> r == WriteDrain(s, if s.readWake.Some? then None else Some(t), live) && r.outcome.Failed?)
      && (!RefusesWrites(d.s.state) ==> Flowing(r.s))
  {
    hide Drain, WriteDrain, WriteOut, ParkAndRedrain, Seen;
    DrainReference(s);
    DrainWakes(s);
    var blocking := if s.readWake.Some? then None else Some(t);
    WriteDrainIs(s, blocking, live);
    var first := WriteDrain(s, blocking, live);
    if !RefusesWrites(Drain(s).s.state) {
      var ready := first;
      if first.s.sendWindow == 0 {
        ParkOnEmpty(first.s, t, live);
        ready := ParkAndRedrain(first.s, t, live);
      }
      WriteOutFlows(ready.s, data, live);
    }
  }

  lemma WriteOutFlows(s: Stream, data: seq<byte>, live: bool)
    ensures Flowing(s) ==> Flowing(WriteOut(s, data, live).s)
  {}

  lemma WriteOfStopped(s: Stream, t: Task, data: seq<byte>, live: bool)
    requires s.state == Reset || s.state == Closed
    ensures var r := PollWrite(s, t, data, live);
      r.outcome.Failed? && r.s == s && r.woken == {}
  {}

  lemma WriteWatched(w: World, t: Task, data: seq<byte>, live: bool)
    requires Watched(w) && !IsProtocolError(Drain(w.s).error)
    ensures var after := AfterWrite(w, t, PollWrite(w.s, t, data, live));
      && Watched(after)
      && (!Lost(w) ==> (Lost(after) <==> Strands(w, Write(t, data))))
  {
    hide PollWrite, Drain, Seen;
    WriteCovered(w, t, data, live);
    if w.s.state == RemoteClosing {
      WriteAfterFin(w.s, t, data, live);
    } else if StopsReading(w.s.state) {
      WriteOfStopped(w.s, t, data, live);
    } else {
      DrainReference(w.s);
      DrainEnds(w.s);
      if Drain(w.s).s.state == RemoteClosing {
        WriteIntoFin(w.s, t, data, live);
      } else {
        WriteElsewhere(w.s, t, data, live);
        WriteRefusedKeepsReader(w, t, live);
      }
    }
  }

  /** A refused write on a locally closed stream still looks after the reader. */
  lemma WriteRefusedKeepsReader(w: World, t: Task, live: bool)
    requires Watched(w) && Draining(w.s) && !IsProtocolError(Drain(w.s).error)
    ensures var r := WriteDrain(w.s, if w.s.readWake.Some? then None else Some(t), live);
      && (w.s.state == LocalClosing && r.s.state == LocalClosing ==> ReaderCovered(AfterWrite(w, t, r)))
      && (Stopped(r.s.state) ==> r.s.inbox.waker.None?)
      && (r.s.inbox.terminated ==> r.s.state == RemoteClosing)
  {
    hide Drain, WriteDrain, Seen;
    DrainReference(w.s);
    DrainEnds(w.s);
    WriteDrainIs(w.s, if w.s.readWake.Some? then None else Some(t), live);
  }

  // ----------------------------------------------------------------------- every step

  /** One step of a quiet run keeps the watch, and loses a writer that was not lost exactly when it is
      one of the stranding polls. */
  lemma LostIff(w: World, a: Action, live: bool)
    requires Watched(w) && Quiet(w.s, a)
    ensures Watched(Act(w, a, live))
    ensures !Lost(w) ==> (Lost(Act(w, a, live)) <==> Strands(w, a))
  {
    hide Drain, PollRead, PollPeek, PollWrite, Covered;
    match a
    case Read(t, room) => ReadWatched(w, t, room, PollRead(w.s, t, room, live), live);
    case Peek(t, room) => ReadWatched(w, t, room, PollPeek(w.s, t, room, live), live);
    case Write(t, data) => WriteWatched(w, t, data, live);
    case CloseWrite => CloseWatched(w, live);
    case Arrive(f) => SessionWatched(w, a, live);
    case SenderDropped => SessionWatched(w, a, live);
  }

  lemma CloseWatched(w: World, live: bool)
    requires Watched(w)
    ensures Watched(Act(w, CloseWrite, live)) && !Lost(Act(w, CloseWrite, live))
  {
    hide Shutdown;
    ActCovered(w, CloseWrite, live);
    ShutdownShape(w.s, live);
  }

  lemma SessionWatched(w: World, a: Action, live: bool)
    requires Watched(w) && (a.Arrive? || a.SenderDropped?)
    ensures Watched(Act(w, a, live)) && (Lost(Act(w, a, live)) <==> Lost(w))
  {
    ActCovered(w, a, live);
    if w.s.inbox.waker.Some? {
      assert w.s.inbox.waker.value in Poll(w.s, a, live).woken;
    }
  }

  /** The first frame that ends the stream is a payload with RST, and no window update stands before it. */
  predicate ResetFirst(q: seq<Frame>) {
    exists k | 0 <= k < |q| :: ResetAt(q, k)
  }

  predicate ResetAt(q: seq<Frame>, k: nat)
    requires k < |q|
  {
    && q[k].header.flags.rst && q[k].header.ty != WindowUpdate
    && forall i | 0 <= i < k :: !q[i].header.flags.rst && !q[i].header.flags.fin && q[i].header.ty != WindowUpdate
  }

  lemma {:induction false} ResetFirstIs(q: seq<Frame>)
    ensures ResetFirst(q) <==> EndingOf(q) == ByRst && Silent(Seen(q))
  {
    if q != [] {
      SeenHead(q);
      ResetFirstIs(q[1..]);
      var last := q[0].header.flags.fin || q[0].header.flags.rst;
      if ResetFirst(q) && !last {
        var k :| 0 <= k < |q| && ResetAt(q, k);
        assert k > 0 && q[0].header.ty != WindowUpdate;
        assert ResetAt(q[1..], k - 1);
      }
      if !last && q[0].header.ty != WindowUpdate && ResetFirst(q[1..]) {
        var k :| 0 <= k < |q[1..]| && ResetAt(q[1..], k);
        assert ResetAt(q, k + 1);
      }
      if q[0].header.flags.rst && q[0].header.ty != WindowUpdate {
        assert ResetAt(q, 0);
      }
      if ResetFirst(q) && last {
        var k :| 0 <= k < |q| && ResetAt(q, k);
        assert k == 0;
      }
    }
  }

  /** A reader's poll, without a protocol error, leaves a sleeping writer asleep on a reset stream exactly
      when the queue holds such a reset. */
  lemma ResetLosesWriterIff(w: World, t: Task, room: nat, live: bool)
    requires Watched(w) && Flowing(w.s) && !IsProtocolError(Drain(w.s).error)
    requires w.parked.Some? && w.parked.value !in w.writeDue
    ensures var after := Act(w, Read(t, room), live);
      after.s.state == Reset && after.parked == w.parked && w.parked.value !in after.writeDue
      <==> ResetFirst(w.s.inbox.queue)
  {
    hide PollRead, Drain, Seen;
    ReadIsDrain(w.s, t, room, live);
    DrainReference(w.s);
    ResetFirstIs(w.s.inbox.queue);
  }

  // ----------------------------------------------------------------------- whole runs

  predicate QuietRun(w: World, actions: seq<Action>, live: bool)
    decreases |actions|
  {
    actions == [] || (Quiet(w.s, actions[0]) && QuietRun(Act(w, actions[0], live), actions[1..], live))
  }

  predicate NeverLost(w: World, actions: seq<Action>, live: bool)
    decreases |actions|
  {
    !Lost(w) && (actions == [] || NeverLost(Act(w, actions[0], live), actions[1..], live))
  }

  predicate NeverStrands(w: World, actions: seq<Action>, live: bool)
    decreases |actions|
  {
    actions == [] || (!Strands(w, actions[0]) && NeverStrands(Act(w, actions[0], live), actions[1..], live))
  }

  lemma {:induction false} RunWatched(w: World, actions: seq<Action>, live: bool)
    requires Watched(w) && !Lost(w) && QuietRun(w, actions, live)
    ensures NeverLost(w, actions, live) <==> NeverStrands(w, actions, live)
    ensures NeverLost(w, actions, live) ==> !Lost(Run(w, actions, live))
    ensures Watched(Run(w, actions, live))
    decreases |actions|
  {
    hide Watched, Act, Strands, Lost, Quiet;
    if actions != [] {
      LostIff(w, actions[0], live);
      if Lost(Act(w, actions[0], live)) {
        StillWatched(Act(w, actions[0], live), actions[1..], live);
      } else {
        RunWatched(Act(w, actions[0], live), actions[1..], live);
      }
    }
  }

  lemma {:induction false} StillWatched(w: World, actions: seq<Action>, live: bool)
    requires Watched(w) && QuietRun(w, actions, live)
    ensures Watched(Run(w, actions, live))
    decreases |actions|
  {
    hide Watched, Act, Quiet;
    if actions != [] {
      LostIff(w, actions[0], live);
      StillWatched(Act(w, actions[0], live), actions[1..], live);
    }
  }

  /** In every run of a new stream that meets no protocol error, beyond its FIN or RST too: a parked
      writer of an ended stream is owed a poll, at every moment, if and only if no poll of the run is a
      stranding one; and a recorded reader of a stream closed on this side only is owed a poll or is
      woken by the next frame. */
  lemma WriterIsLostIff(start: Stream, actions: seq<Action>, live: bool)
    requires start.inbox == EMPTY_CHANNEL && start.readWake.None? && start.writeWake.None? && OpenForWriting(start.state)
    requires QuietRun(World(start, {}, {}, None), actions, live)
    ensures var w := World(start, {}, {}, None);
      && (NeverLost(w, actions, live) <==> NeverStrands(w, actions, live))
      && (Run(w, actions, live).s.state == LocalClosing ==> ReaderCovered(Run(w, actions, live)))
  {
    hide Act, Run, NeverLost, NeverStrands, QuietRun;
    var w := World(start, {}, {}, None);
    RunWatched(w, actions, live);
  }

  predicate WriterSleeps(actions: seq<Action>) {
    forall i | 0 <= i < |actions| :: !actions[i].Write? && !actions[i].CloseWrite?
  }

  /** A lost writer stays lost: no frame, no read and no disconnection ever wakes it. */
  lemma {:induction false} LostForGood(w: World, actions: seq<Action>, live: bool)
    requires Watched(w) && Lost(w) && WriterSleeps(actions)
    ensures Lost(Run(w, actions, live)) && Run(w, actions, live).parked == w.parked
    decreases |actions|
  {
    if actions != [] {
      LostStep(w, actions[0], live);
      hide Act, Watched, Lost;
      LostForGood(Act(w, actions[0], live), actions[1..], live);
    }
  }

  lemma LostStep(w: World, a: Action, live: bool)
    requires Watched(w) && Lost(w) && !a.Write? && !a.CloseWrite?
    ensures Watched(Act(w, a, live)) && Lost(Act(w, a, live)) && Act(w, a, live).parked == w.parked
  {
    hide PollRead, PollPeek;
    LostIff(w, a, live);
    match a
    case Read(t, room) => ReadOfStopped(w.s, t, room, live);
    case Peek(t, room) => ReadOfStopped(w.s, t, room, live);
    case _ =>
  }

  // --------------------------------------------------------------------- behind a FIN

  /** Bytes a run accepts from writers. */
  function BytesAccepted(w: World, actions: seq<Action>, live: bool): nat
    decreases |actions|
  {
    if actions == [] then 0
    else
      (if actions[0].Write? then |Poll(w.s, actions[0], live).bytes| else 0)
      + BytesAccepted(Act(w, actions[0], live), actions[1..], live)
  }

  function Arrived(actions: seq<Action>): seq<Frame> {
    if actions == [] then [] else (if actions[0].Arrive? then [actions[0].frame] else []) + Arrived(actions[1..])
  }

  /** After a FIN, in every later run without a close of this side: the stream stays half-closed, what
      writers get rid of comes off the window held at the FIN, to the byte, and every frame that
      arrives, credit included, stays in the channel. */
  lemma {:induction false} NoCreditAfterFin(w: World, actions: seq<Action>, live: bool)
    requires w.s.state == RemoteClosing
    requires forall i | 0 <= i < |actions| :: !actions[i].CloseWrite?
    ensures var after := Run(w, actions, live);
      && after.s.state == RemoteClosing
      && after.s.sendWindow as nat + BytesAccepted(w, actions, live) == w.s.sendWindow as nat
      && after.s.inbox.queue == w.s.inbox.queue + Arrived(actions)
    decreases |actions|
  {
    if actions == [] {
      ConcatEmpty(w.s.inbox.queue);
    } else {
      var a := actions[0];
      FinStep(w, a, live);
      hide Act, Poll;
      NoCreditAfterFin(Act(w, a, live), actions[1..], live);
      ConcatAssoc(w.s.inbox.queue, if a.Arrive? then [a.frame] else [], Arrived(actions[1..]));
    }
  }

  lemma FinStep(w: World, a: Action, live: bool)
    requires w.s.state == RemoteClosing && !a.CloseWrite?
    ensures var after := Act(w, a, live);
      && after.s.state == RemoteClosing
      && after.s.sendWindow as nat + (if a.Write? then |Poll(w.s, a, live).bytes| else 0) == w.s.sendWindow as nat
      && after.s.inbox.queue == w.s.inbox.queue + if a.Arrive? then [a.frame] else []
  {
    hide PollRead, PollPeek, PollWrite;
    ConcatEmpty(w.s.inbox.queue);
    match a
    case Read(t, room) => ReadOfStopped(w.s, t, room, live);
    case Peek(t, room) => ReadOfStopped(w.s, t, room, live);
    case Write(t, data) => WriteAfterFin(w.s, t, data, live);
    case _ =>
  }

  // ------------------------------------------------------------------------- the runs

  /** An established stream with a used-up window. */
  function Spent(id: StreamId): Stream {
    Fresh(id, Established, INITIAL_STREAM_WINDOW).(sendWindow := 0)
  }

  lemma ReadOfEmpty(s: Stream, t: Task, room: nat, live: bool)
    requires Flowing(s) && s.inbox.queue == [] && !s.inbox.closed && s.readBuf == []
    ensures PollRead(s, t, room, live)
      == PollResult(s.(readWake := Some(t), inbox := s.inbox.(waker := Some(t))), [], {}, [], Pending)
  {
    hide Drain;
    EmptyDrain(s.(readWake := Some(t)));
  }

  lemma WriteOfSpent(s: Stream, t: Task, data: seq<byte>, live: bool)
    requires Flowing(s) && s.inbox.queue == [] && !s.inbox.closed && s.sendWindow == 0
    requires s.readWake.Some? && s.readWake != Some(t)
    ensures PollWrite(s, t, data, live) == PollResult(s.(writeWake := Some(t)), [], {}, [], Pending)
  {
    hide Drain, ParkAndRedrain;
    EmptyDrain(s);
    ParkOnEmpty(s, t, live);
  }

  lemma ReadOfReset(s: Stream, f: Frame, t: Task, room: nat, live: bool)
    requires s.state == Established && s.inbox == Channel([f], false, false, None) && s.readBuf == [] && s.recvWindow > 0
    requires f == DataFrame(NO_FLAGS.(rst := true), s.id, [7])
    ensures var r := PollRead(s, t, room, live);
      && r.s == s.(readWake := Some(t), state := Reset, recvWindow := s.recvWindow - 1, inbox := EMPTY_CHANNEL)
      && r.woken == {}
  {
    var asked := s.(readWake := Some(t));
    assert [f][1..] == [];
    var r := HandleFrame(WithQueue(asked, []), f);
    assert r == FrameResult(asked.(state := Reset, recvWindow := s.recvWindow - 1, inbox := EMPTY_CHANNEL), None, {});
    assert Drain(r.s) == DrainResult(r.s, Some(SessionShutdown), false, {});
    assert Drain(asked) == DrainResult(r.s, Some(SessionShutdown), true, {});
    hide Drain;
  }

  /** The reader waits in the channel's slot, the writer for credit. */
  function BothWait(id: StreamId): World {
    World(Spent(id).(readWake := Some(1), writeWake := Some(2), inbox := EMPTY_CHANNEL.(waker := Some(1))), {}, {}, Some(2))
  }

  lemma ReadThenPark(id: StreamId, live: bool)
    ensures Act(Act(World(Spent(id), {}, {}, None), Read(1, 1), live), Write(2, [9]), live) == BothWait(id)
  {
    hide PollRead, PollWrite;
    var w0 := World(Spent(id), {}, {}, None);
    ReadOfEmpty(w0.s, 1, 1, live);
    var w1 := Act(w0, Read(1, 1), live);
    WriteOfSpent(w1.s, 2, [9], live);
  }

  lemma ResetThenRead(id: StreamId, live: bool)
    ensures var f := DataFrame(NO_FLAGS.(rst := true), id, [7]);
      var s := BothWait(id).s;
      Act(Act(BothWait(id), Arrive(f), live), Read(1, 1), live)
      == World(s.(state := Reset, recvWindow := s.recvWindow - 1, inbox := EMPTY_CHANNEL), {}, {}, Some(2))
  {
    hide PollRead;
    var f := DataFrame(NO_FLAGS.(rst := true), id, [7]);
    assert [] + [f] == [f];
    var w := Act(BothWait(id), Arrive(f), live);
    assert w.readDue == {1} && w.writeDue == {};
    ReadOfReset(w.s, f, 1, 1, live);
  }

  /** A payload that comes with a reset wakes the reader; its poll ends the stream past the sleeping
      writer. */
  lemma ResetStrandsTheWriter(id: StreamId, live: bool)
    ensures var f := DataFrame(NO_FLAGS.(rst := true), id, [7]);
      var w := Run(World(Spent(id), {}, {}, None), [Read(1, 1), Write(2, [9]), Arrive(f), Read(1, 1)], live);
      && w.s.state == Reset && w.parked == Some(2) && w.s.inbox.queue == []
      && w.readDue == {} && w.writeDue == {} && Lost(w) && Watched(w)
  {
    hide Act, Run;
    var f := DataFrame(NO_FLAGS.(rst := true), id, [7]);
    ReadThenPark(id, live);
    ResetThenRead(id, live);
    FourActs(World(Spent(id), {}, {}, None), Read(1, 1), Write(2, [9]), Arrive(f), Read(1, 1), live);
  }

  lemma FourActs(w: World, a: Action, b: Action, c: Action, d: Action, live: bool)
    ensures Run(w, [a, b, c, d], live) == Act(Act(Act(Act(w, a, live), b, live), c, live), d, live)
  {
    hide Act;
    assert [a, b, c, d][1..] == [b, c, d] && [b, c, d][1..] == [c, d] && [c, d][1..] == [d] && [d][1..] == [];
    var w1 := Act(w, a, live);
    var w2 := Act(w1, b, live);
    var w3 := Act(w2, c, live);
    assert Run(w3, [d], live) == Act(w3, d, live);
    assert Run(w2, [c, d], live) == Run(w3, [d], live);
    assert Run(w1, [b, c, d], live) == Run(w2, [c, d], live);
  }

  /** A peer that half-closes and keeps reading starves the writer: the credit it sends stays in the
      channel, nobody owes a poll, and the loss of the channel changes nothing. */
  lemma FinStarvesTheWriter(s: Stream, t: Task, data: seq<byte>, credit: Frame, live: bool)
    requires s.state == RemoteClosing && s.sendWindow == 0 && s.inbox == EMPTY_CHANNEL
    ensures var w := Run(World(s, {}, {}, None), [Write(t, data), Arrive(credit), SenderDropped], live);
      && Lost(w) && w.parked == Some(t) && w.s.inbox.queue == [credit]
      && w.readDue == {} && w.writeDue == {} && w.s.sendWindow == 0
  {
    hide PollWrite;
    var w0 := World(s, {}, {}, None);
    WriteAfterFin(s, t, data, live);
    var actions := [Write(t, data), Arrive(credit), SenderDropped];
    assert actions[1..] == [Arrive(credit), SenderDropped] && actions[1..][1..] == [SenderDropped];
    var w1 := Act(w0, actions[0], live);
    assert w1.s.inbox == EMPTY_CHANNEL && w1.parked == Some(t) && w1.writeDue == {} && w1.readDue == {};
    var w2 := Act(w1, Arrive(credit), live);
    assert [] + [credit] == [credit];
    assert Run(w2, [SenderDropped], live) == Act(w2, SenderDropped, live);
  }

  // ------------------------------------------------------------- between conforming peers

  predicate ResetLost(w: World) {
    w.s.state == Reset && Lost(w)
  }

  ghost predicate Heard(w: World) {
    Watched(w) && !ResetLost(w)
  }

  lemma NoResetFirst(q: seq<Frame>)
    requires StreamFrames(q)
    ensures !(EndingOf(q) == ByRst && Silent(Seen(q)))
  {
    ResetFirstIs(q);
  }

  /** A conforming peer puts its resets on window updates, and those are heard: no poll leaves a writer
      asleep on a reset stream. */
  lemma ConformingResetsAreHeard(w: World, a: Action, live: bool)
    requires Heard(w) && Quiet(w.s, a) && StreamFrames(w.s.inbox.queue)
    ensures Heard(Act(w, a, live))
  {
    hide PollRead, PollPeek, PollWrite, Drain, Seen, Shutdown;
    LostIff(w, a, live);
    match a
    case Read(t, room) => ReadIsHeard(w, t, room, live);
    case Peek(t, room) => ReadIsHeard(w, t, room, live);
    case Write(t, data) => WriteIsHeard(w, t, data, live);
    case CloseWrite => ShutdownShape(w.s, live);
    case Arrive(f) => SessionWatched(w, a, live);
    case SenderDropped => SessionWatched(w, a, live);
  }

  lemma ReadIsHeard(w: World, t: Task, room: nat, live: bool)
    requires Heard(w) && !IsProtocolError(Drain(w.s).error) && StreamFrames(w.s.inbox.queue)
    ensures !ResetLost(Act(w, Read(t, room), live)) && !ResetLost(Act(w, Peek(t, room), live))
  {
    hide PollRead, PollPeek, Drain, Seen;
    if StopsReading(w.s.state) {
      ReadOfStopped(w.s, t, room, live);
    } else {
      ReadIsDrain(w.s, t, room, live);
      DrainReference(w.s);
      NoResetFirst(w.s.inbox.queue);
    }
  }

  lemma WriteIsHeard(w: World, t: Task, data: seq<byte>, live: bool)
    requires Heard(w) && !IsProtocolError(Drain(w.s).error)
    ensures !ResetLost(Act(w, Write(t, data), live))
  {
    hide PollWrite, Drain, Seen, WriteDrain;
    if w.s.state == RemoteClosing {
      WriteAfterFin(w.s, t, data, live);
    } else if StopsReading(w.s.state) {
      WriteOfStopped(w.s, t, data, live);
    } else {
      DrainReference(w.s);
      if Drain(w.s).s.state == RemoteClosing {
        WriteIntoFin(w.s, t, data, live);
      } else {
        WriteElsewhere(w.s, t, data, live);
      }
    }
  }

  // ------------------------------------------------------------------ single actions

  lemma RunOne(w: World, a: Action)
    ensures Run(w, [a], true) == Act(w, a, true)
  {
    hide Act;
    assert [a][1..] == [];
  }

  lemma RunTwo(w: World, a: Action, b: Action)
    ensures Run(w, [a, b], true) == Act(Act(w, a, true), b, true)
  {
    hide Act;
    assert [a, b][1..] == [b];
    RunOne(Act(w, a, true), b);
  }

  lemma ActIsPoll(w: World, a: Action)
    ensures Act(w, a, true).s == Poll(w.s, a, true).s
  {
    hide Poll;
  }

  lemma ActKeepsWorld(a: Action, w: World)
    requires Heard(w) && Quiet(w.s, a) && StreamFrames(w.s.inbox.queue)
    ensures Run(w, [a], true).s == Poll(w.s, a, true).s && Heard(Run(w, [a], true))
  {
    hide Poll, Act, Heard, Quiet;
    RunOne(w, a);
    ActIsPoll(w, a);
    ConformingResetsAreHeard(w, a, true);
  }

  lemma SessionIsHeard(w: World, a: Action)
    requires Heard(w) && (a.Arrive? || a.SenderDropped?)
    ensures Heard(Act(w, a, true))
  {
    SessionWatched(w, a, true);
  }

  lemma PushKeepsWorld(s: Stream, f: Frame, w: World)
    requires w.s == s && Heard(w)
    ensures var one := Run(w, [Arrive(f)], true); one.s == Push(s, f).s && Heard(one)
    ensures var two := Run(w, [Arrive(f), SenderDropped], true); two.s == Disconnect(Push(s, f).s).s && Heard(two)
  {
    hide Act, Heard, Push, Disconnect;
    RunOne(w, Arrive(f));
    RunTwo(w, Arrive(f), SenderDropped);
    ActIsPoll(w, Arrive(f));
    SessionIsHeard(w, Arrive(f));
    ActIsPoll(Act(w, Arrive(f), true), SenderDropped);
    SessionIsHeard(Act(w, Arrive(f), true), SenderDropped);
  }

  lemma DropKeepsWorld(s: Stream, w: World)
    requires w.s == s && Heard(w)
    ensures var one := Run(w, [SenderDropped], true); one.s == Disconnect(s).s && Heard(one)
  {
    hide Act, Heard, Disconnect;
    RunOne(w, SenderDropped);
    ActIsPoll(w, SenderDropped);
    SessionIsHeard(w, SenderDropped);
  }

  lemma NewWorld(id: StreamId, state: StreamState, max: u32)
    requires INITIAL_STREAM_WINDOW <= max
    requires state == Init || state == SynReceived
    ensures Heard(World(Created(id, state, max).s, {}, {}, None))
  {
    hide Created;
    CreatedShape(id, state, max);
  }
}
