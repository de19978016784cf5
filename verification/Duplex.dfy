/** One stream between two endpoints, whatever the sessions in between do with its frames.

    A pair holds the two ends and, per direction, the frames that have left one end and not yet
    reached the other end's channel. Sessions may hold frames back for as long as they like; they
    may drop them only once they have dropped the stream. Steps are written for the left end, the
    right end's steps are the same on the swapped pair. */
module Duplex {
  import opened Prelude
  import opened Frames
  import opened Streams
  import opened Accounting

  /** Unborn: no handle yet. Attached: the session routes frames to the handle's channel.
      Detached: the session has dropped its entry and discards further frames. */
  datatype Phase = Unborn | Attached | Detached

  datatype End = End(s: Stream, phase: Phase, opener: bool, dropped: bool, wrote: seq<byte>, read: seq<byte>)

  datatype Pair = Pair(left: End, right: End, out: seq<Frame>, back: seq<Frame>)

  function Swap(p: Pair): Pair {
    Pair(p.right, p.left, p.back, p.out)
  }

  function BirthState(opener: bool): StreamState {
    if opener then Init else SynReceived
  }

  function UnbornEnd(id: StreamId, opener: bool, max: u32): End {
    End(Fresh(id, BirthState(opener), max), Unborn, opener, false, [], [])
  }

  function Initial(id: StreamId, leftMax: u32, rightMax: u32): Pair {
    Pair(UnbornEnd(id, true, leftMax), UnbornEnd(id, false, rightMax), [], [])
  }

  // ---------------------------------------------------------------------- steps

  datatype Step =
    | Open                     // open_stream
    | Accept                   // an inbound SYN creates the handle and is delivered to it
    | Reject                   // an inbound SYN is refused
    | Act(a: Action)           // a poll by the application
    | Drop                     // the application drops the handle
    | Deliver                  // the session moves a frame into the channel
    | Discard                  // the session drops a frame of a stream it no longer knows
    | Detach                   // the session drops its entry

  predicate Enabled(p: Pair, step: Step) {
    var e := p.left;
    match step
    case Open => e.phase == Unborn && e.opener
    case Accept => e.phase == Unborn && !e.opener && p.back != [] && p.back[0].header.flags.syn
    case Reject => e.phase == Unborn && !e.opener && p.back != [] && p.back[0].header.flags.syn
    case Act(a) => e.phase != Unborn && !e.dropped && ByApplication(a)
    case Drop => e.phase != Unborn && !e.dropped
    case Deliver => e.phase == Attached && !e.dropped && p.back != []
    case Discard => e.phase == Detached && p.back != []
    case Detach => e.phase == Attached
  }

  /** The session drops its entry: also right after it has handed over a reset. */
  function CutIf(p: Pair, cut: bool): Pair {
    if cut then p.(left := p.left.(s := Disconnect(p.left.s).s, phase := Detached)) else p
  }

  /** The oldest inbound frame moves into the channel. */
  function Handed(p: Pair): Pair
    requires p.back != []
  {
    p.(left := p.left.(s := Push(p.left.s, p.back[0]).s), back := p.back[1..])
  }

  /** The oldest inbound frame creates the handle and moves into its channel. */
  function Admitted(p: Pair): Pair
    requires p.back != []
  {
    var e := p.left;
    var c := Created(e.s.id, SynReceived, e.s.maxRecvWindow);
    p.(left := e.(s := Push(c.s, p.back[0]).s, phase := Attached), out := p.out + FramesOf(c.events),
       back := p.back[1..])
  }

  function Next(p: Pair, step: Step): Pair
    requires Enabled(p, step)
  {
    var e := p.left;
    match step
    case Open =>
      var c := Created(e.s.id, Init, e.s.maxRecvWindow);
      p.(left := e.(s := c.s, phase := Attached), out := p.out + FramesOf(c.events))
    case Accept => CutIf(Admitted(p), p.back[0].header.flags.rst)
    case Reject =>
      p.(left := e.(phase := Detached, dropped := true), out := p.out + [RejectFrame(e.s.id)], back := p.back[1..])
    case Act(a) =>
      var r := Poll(e.s, a, true);
      p.(left := e.(s := r.s, wrote := e.wrote + Given(a, r), read := e.read + Taken(a, r)),
         out := p.out + FramesOf(r.events))
    case Drop =>
      p.(left := e.(dropped := true), out := p.out + FramesOf(DropEvents(e.s, true)))
    case Deliver => CutIf(Handed(p), p.back[0].header.flags.rst)
    case Discard =>
      p.(back := p.back[1..])
    case Detach => CutIf(p, true)
  }

  // ------------------------------------------------------------------ invariant

  ghost predicate EndOk(e: End) {
    && INITIAL_STREAM_WINDOW <= e.s.maxRecvWindow
    && (e.phase == Unborn ==> e == UnbornEnd(e.s.id, e.opener, e.s.maxRecvWindow))
    && (e.phase != Unborn && !e.dropped ==> Underway(e.s.state) && WellKept(e.s))
    && NoEmptyChunk(e.s.readBuf) && 0 <= Gap(e.s)
  }

  predicate NoSyn(fs: seq<Frame>) {
    forall i | 0 <= i < |fs| :: !fs[i].header.flags.syn
  }

  /** Frames on their way to an end: this stream's, and no DATA frame larger than its window. */
  predicate InTransit(fs: seq<Frame>, id: StreamId, max: u32) {
    forall i | 0 <= i < |fs| ::
      StreamFrame(fs[i]) && fs[i].header.streamId == id && FitsFrameLimit(fs[i], max)
  }

  /** The SYN is the first frame the opener sends; it is gone once the acceptor exists. */
  ghost predicate SynDiscipline(p: Pair) {
    && (p.left.phase == Unborn ==> p.out == [])
    && (p.left.opener && p.left.phase == Unborn ==> p.right.phase == Unborn)
    && (p.left.opener && p.left.phase != Unborn && p.right.phase == Unborn ==>
          p.out != [] && p.out[0].header.flags.syn && NoSyn(p.out[1..]))
    && (!p.left.opener || p.right.phase != Unborn ==> NoSyn(p.out))
  }

  /** Left's credit plus data and credit under way never exceed what right will accept; nothing
      is missing while both sessions know the stream. */
  ghost predicate CreditConserved(p: Pair) {
    var sum := SendTotal(p.left.s) + DataBytes(p.out) + Credit(p.back);
    && sum <= RecvTotal(p.right.s)
    && (p.left.phase != Detached && p.right.phase != Detached ==> sum == RecvTotal(p.right.s))
  }

  /** Bytes read and buffered on the right are what was written on the left, in order. */
  ghost predicate BytesInOrder(p: Pair) {
    var here := p.right.read + Unread(p.right.s);
    && here <= p.left.wrote
    && (p.right.phase != Detached ==> p.left.wrote == here + Payload(p.out))
  }

  ghost predicate DirectionOk(p: Pair) {
    && EndOk(p.left)
    && p.left.s.id == p.right.s.id
    && p.left.opener != p.right.opener
    && InTransit(p.out, p.left.s.id, p.right.s.maxRecvWindow)
    && StreamFrames(p.right.s.inbox.queue)
    && SynDiscipline(p)
    && CreditConserved(p)
    && BytesInOrder(p)
  }

  ghost predicate Books(p: Pair) {
    DirectionOk(p) && DirectionOk(Swap(p))
  }

  /** The states in which a drop resets the stream. */
  predicate ResetsOnDrop(state: StreamState) {
    state == Init || state == SynSent || state == SynReceived || state == Established || state == RemoteClosing
  }

  predicate EndsWithReset(fs: seq<Frame>) {
    fs != [] && fs[|fs| - 1].header.flags.rst
  }

  /** Once left's handle was dropped in one of them, the last thing on the way to right is a reset, or
      right's session no longer routes the stream. */
  predicate Told(p: Pair) {
    p.left.dropped && ResetsOnDrop(p.left.s.state) ==> EndsWithReset(p.out) || p.right.phase == Detached
  }

  ghost predicate Inv(p: Pair) {
    Books(p) && Told(p) && Told(Swap(p))
  }

  // ---------------------------------------------------------------- consequences

  /** The peer's books bound the local ones: a stream inside the invariant is healthy. */
  lemma BooksHealthy(p: Pair)
    requires Books(p)
    requires p.left.phase != Unborn && !p.left.dropped
    ensures Healthy(p.left.s)
    ensures SendTotal(p.left.s) <= p.right.s.maxRecvWindow
  {
    assert Swap(p).right == p.left;
  }

  lemma InitialBooks(id: StreamId, leftMax: u32, rightMax: u32)
    requires INITIAL_STREAM_WINDOW <= leftMax && INITIAL_STREAM_WINDOW <= rightMax
    ensures Books(Initial(id, leftMax, rightMax))
  {}

  // ---------------------------------------------------------------- preservation

  /** A step in which left's stream balances and its frames join the outgoing pipe. */
  lemma BalancedStepBooks(p: Pair, t: Stream, sent: seq<Frame>, taken: seq<byte>, given: seq<byte>, dropped: bool)
    requires Books(p)
    requires p.left.phase != Unborn && !p.left.dropped
    requires Balanced(p.left.s, t, sent, taken, given)
    requires WellKept(t) && StreamFrames(t.inbox.queue)
    ensures Books(p.(left := p.left.(s := t, dropped := dropped, wrote := p.left.wrote + given, read := p.left.read + taken),
                   out := p.out + sent))
  {
    var e := p.left.(s := t, dropped := dropped, wrote := p.left.wrote + given, read := p.left.read + taken);
    var q := p.(left := e, out := p.out + sent);
    hide Gap, SendTotal, RecvTotal, Unread;
    BalancedForward(p, q, t, sent, taken, given);
    BalancedBackward(p, q, t, sent, taken, given);
  }

  lemma BalancedForward(p: Pair, q: Pair, t: Stream, sent: seq<Frame>, taken: seq<byte>, given: seq<byte>)
    requires Books(p)
    requires p.left.phase != Unborn && !p.left.dropped
    requires Balanced(p.left.s, t, sent, taken, given)
    requires WellKept(t)
    requires q == p.(left := q.left, out := p.out + sent)
    requires q.left == p.left.(s := t, dropped := q.left.dropped,
                               wrote := p.left.wrote + given, read := p.left.read + taken)
    ensures DirectionOk(q)
  {
    hide Unread, SendTotal, RecvTotal, Gap;
    MeasuresConcat(p.out, sent);
    BooksHealthy(p);
    ForwardFits(p, sent, given);
    ForwardSyns(p, q, sent);
    ForwardBytes(p, q, sent, given);
  }

  lemma ForwardFits(p: Pair, sent: seq<Frame>, given: seq<byte>)
    requires InTransit(p.out, p.left.s.id, p.right.s.maxRecvWindow)
    requires Emitted(sent, p.left.s.id, true) && DataBytes(sent) <= |given| <= p.right.s.maxRecvWindow
    ensures InTransit(p.out + sent, p.left.s.id, p.right.s.maxRecvWindow)
  {
    SentFits(sent, p.right.s.maxRecvWindow, |given|);
  }

  lemma ForwardSyns(p: Pair, q: Pair, sent: seq<Frame>)
    requires SynDiscipline(p) && p.left.phase != Unborn && NoSyn(sent)
    requires q.left.opener == p.left.opener && q.left.phase == p.left.phase && q.right == p.right && q.out == p.out + sent
    ensures SynDiscipline(q)
  {
    if p.left.opener && p.right.phase == Unborn {
      ConcatTail(p.out, sent);
    }
  }

  lemma ForwardBytes(p: Pair, q: Pair, sent: seq<Frame>, given: seq<byte>)
    requires BytesInOrder(p) && Payload(sent) == given && Payload(p.out + sent) == Payload(p.out) + Payload(sent)
    requires q.left.wrote == p.left.wrote + given && q.right == p.right && q.out == p.out + sent
    ensures BytesInOrder(q)
  {
    hide Unread;
    ConcatAssoc(p.right.read + Unread(p.right.s), Payload(p.out), given);
  }

  lemma BalancedBackward(p: Pair, q: Pair, t: Stream, sent: seq<Frame>, taken: seq<byte>, given: seq<byte>)
    requires Books(p)
    requires p.left.phase != Unborn && !p.left.dropped
    requires Balanced(p.left.s, t, sent, taken, given)
    requires StreamFrames(t.inbox.queue)
    requires q == p.(left := q.left, out := p.out + sent)
    requires q.left == p.left.(s := t, dropped := q.left.dropped,
                               wrote := p.left.wrote + given, read := p.left.read + taken)
    ensures DirectionOk(Swap(q))
  {
    hide Gap, SendTotal, RecvTotal, Unread;
    assert DirectionOk(Swap(p));
    MeasuresConcat(p.out, sent);
    ConcatAssoc(p.left.read, taken, Unread(t));
  }

  lemma {:induction false} SentFits(sent: seq<Frame>, max: u32, total: nat)
    requires DataBytes(sent) <= total <= max
    ensures forall i | 0 <= i < |sent| :: FitsFrameLimit(sent[i], max)
  {
    if sent != [] {
      SentFits(sent[1..], max, total);
      assert forall i | 0 < i < |sent| :: sent[i] == sent[1..][i - 1];
    }
  }

  lemma ActBooks(p: Pair, a: Action)
    requires Books(p) && Enabled(p, Act(a))
    ensures Books(Next(p, Act(a)))
    ensures SendGoAway !in Poll(p.left.s, a, true).events
    ensures Emitted(FramesOf(Poll(p.left.s, a, true).events), p.left.s.id, true)
  {
    BooksHealthy(p);
    PollBalanced(p.left.s, a);
    var r := Poll(p.left.s, a, true);
    HealthyParts(r.s);
    BalancedEmits(p.left.s, r.s, FramesOf(r.events), Taken(a, r), Given(a, r));
    hide Books, Balanced, Healthy, Poll;
    BalancedStepBooks(p, r.s, FramesOf(r.events), Taken(a, r), Given(a, r), p.left.dropped);
  }

  lemma BalancedEmits(s: Stream, t: Stream, sent: seq<Frame>, taken: seq<byte>, given: seq<byte>)
    requires Balanced(s, t, sent, taken, given)
    ensures Emitted(sent, s.id, Underway(s.state))
  {}

  lemma HealthyParts(s: Stream)
    requires Healthy(s)
    ensures WellKept(s) && StreamFrames(s.inbox.queue)
  {}

  lemma DropBooks(p: Pair)
    requires Books(p) && Enabled(p, Drop)
    ensures Books(Next(p, Drop))
    ensures SendGoAway !in DropEvents(p.left.s, true)
    ensures Emitted(FramesOf(DropEvents(p.left.s, true)), p.left.s.id, true)
  {
    BooksHealthy(p);
    HealthyParts(p.left.s);
    DropBalanced(p.left.s);
    BalancedEmits(p.left.s, p.left.s, FramesOf(DropEvents(p.left.s, true)), [], []);
    hide Books, Balanced, Healthy, DropEvents;
    ConcatEmpty(p.left.wrote);
    ConcatEmpty(p.left.read);
    BalancedStepBooks(p, p.left.s, FramesOf(DropEvents(p.left.s, true)), [], [], true);
  }

  lemma PushTotals(s: Stream, f: Frame)
    ensures var t := Push(s, f).s;
      && SendTotal(t) == SendTotal(s) + CreditOf(f)
      && RecvTotal(t) == RecvTotal(s) - DataLength(f)
      && Unread(t) == Unread(s) + BodyOf(f)
  {
    MeasuresSnoc(s.inbox.queue, f);
    ConcatAssoc(Flatten(s.readBuf), Payload(s.inbox.queue), BodyOf(f));
  }

  lemma PopMeasures(fs: seq<Frame>)
    requires fs != []
    ensures DataBytes(fs) == DataLength(fs[0]) + DataBytes(fs[1..])
    ensures Credit(fs) == CreditOf(fs[0]) + Credit(fs[1..])
    ensures Payload(fs) == BodyOf(fs[0]) + Payload(fs[1..])
  {}

  /** A frame moves from the pipe into left's channel. */
  lemma DeliverBooks(p: Pair)
    requires Books(p) && Enabled(p, Deliver)
    ensures Books(Handed(p))
  {
    var f := p.back[0];
    var q := Handed(p);
    PushTotals(p.left.s, f);
    PopMeasures(p.back);
    assert DirectionOk(Swap(p));
    assert StreamFrame(p.back[0]);
    hide Gap, SendTotal, RecvTotal, Unread;
    DeliverForward(p, q);
    DeliverBackward(p, q);
  }

  lemma DeliverForward(p: Pair, q: Pair)
    requires Books(p) && Enabled(p, Deliver) && q == Handed(p)
    requires SendTotal(q.left.s) == SendTotal(p.left.s) + CreditOf(p.back[0])
    requires Credit(p.back) == CreditOf(p.back[0]) + Credit(p.back[1..])
    ensures DirectionOk(q)
  {
    hide SendTotal, RecvTotal, Unread;
  }

  lemma DeliverBackward(p: Pair, q: Pair)
    requires Books(p) && Enabled(p, Deliver) && q == Handed(p)
    requires RecvTotal(q.left.s) == RecvTotal(p.left.s) - DataLength(p.back[0])
    requires DataBytes(p.back) == DataLength(p.back[0]) + DataBytes(p.back[1..])
    requires Unread(q.left.s) == Unread(p.left.s) + BodyOf(p.back[0])
    requires Payload(p.back) == BodyOf(p.back[0]) + Payload(p.back[1..])
    ensures DirectionOk(Swap(q))
  {
    hide SendTotal, RecvTotal, Unread, Gap, DataBytes, Credit, Payload;
    var body := BodyOf(p.back[0]);
    assert DirectionOk(Swap(p));
    ConcatAssoc(p.left.read, Unread(p.left.s), body);
    ConcatAssoc(p.left.read + Unread(p.left.s), body, Payload(p.back[1..]));
    assert SynDiscipline(Swap(q));
  }

  lemma DiscardBooks(p: Pair)
    requires Books(p) && Enabled(p, Discard)
    ensures Books(Next(p, Discard))
  {
    hide SendTotal, RecvTotal, Unread, Gap;
    assert DirectionOk(Swap(p));
    PopMeasures(p.back);
  }

  lemma DetachBooks(p: Pair)
    requires Books(p) && Enabled(p, Detach)
    ensures Books(Next(p, Detach))
  {
    hide SendTotal, RecvTotal, Unread, Gap, DataBytes, Credit, Payload;
    DisconnectTotals(p.left.s);
    assert DirectionOk(Swap(p));
  }

  lemma DisconnectTotals(s: Stream)
    ensures var t := Disconnect(s).s;
      && SendTotal(t) == SendTotal(s) && RecvTotal(t) == RecvTotal(s)
      && Unread(t) == Unread(s) && Gap(t) == Gap(s)
  {}

  /** A handle is born announcing its whole window; nothing else about its books is new. */
  lemma BirthBooks(e: End)
    requires EndOk(e) && e.phase == Unborn
    ensures var c := Created(e.s.id, BirthState(e.opener), e.s.maxRecvWindow);
      var sent := FramesOf(c.events);
      && sent == [WindowUpdateFrame(OpeningFlags(BirthState(e.opener)), e.s.id, e.s.maxRecvWindow - INITIAL_STREAM_WINDOW)]
      && DataBytes(sent) == 0 && Payload(sent) == []
      && Balanced(e.s, c.s, sent, [], [])
      && WellKept(c.s) && Underway(c.s.state)
      && c.s.inbox == EMPTY_CHANNEL
  {
    hide Created, Balanced, Gap, SendTotal, RecvTotal, Unread;
    CreatedShape(e.s.id, BirthState(e.opener), e.s.maxRecvWindow);
    CreatedBalanced(e.s.id, BirthState(e.opener), e.s.maxRecvWindow);
    var c := Created(e.s.id, BirthState(e.opener), e.s.maxRecvWindow);
    MeasuresOne(FramesOf(c.events)[0]);
  }

  lemma OpenBooks(p: Pair)
    requires Books(p) && Enabled(p, Open)
    ensures Books(Next(p, Open))
  {
    hide Created, SendTotal, RecvTotal, Unread, Gap, DataBytes, Payload, Balanced;
    var e := p.left;
    BirthBooks(e);
    var c := Created(e.s.id, Init, e.s.maxRecvWindow);
    var sent := FramesOf(c.events);
    BalancedParts(e.s, c.s, sent);
    OpenForward(p, Next(p, Open), sent);
    OpenBackward(p, Next(p, Open), sent);
  }

  lemma OpenForward(p: Pair, q: Pair, sent: seq<Frame>)
    requires Books(p) && Enabled(p, Open)
    requires q == p.(left := q.left, out := p.out + sent)
    requires q.left == p.left.(s := q.left.s, phase := Attached)
    requires q.left.s.id == p.left.s.id && q.left.s.maxRecvWindow == p.left.s.maxRecvWindow
    requires sent == [WindowUpdateFrame(SYN, p.left.s.id, p.left.s.maxRecvWindow - INITIAL_STREAM_WINDOW)]
    requires WellKept(q.left.s) && Underway(q.left.s.state)
    requires SendTotal(q.left.s) == SendTotal(p.left.s)
    requires DataBytes(sent) == 0 && Payload(sent) == []
    ensures DirectionOk(q)
  {
    hide SendTotal, RecvTotal, Unread, Gap;
    ConcatEmpty(sent);
    assert p.out == [] && q.out == sent;
  }

  lemma OpenBackward(p: Pair, q: Pair, sent: seq<Frame>)
    requires Books(p) && Enabled(p, Open)
    requires q == p.(left := q.left, out := p.out + sent)
    requires q.left == p.left.(s := q.left.s, phase := Attached)
    requires q.left.s.id == p.left.s.id && q.left.s.maxRecvWindow == p.left.s.maxRecvWindow
    requires q.left.s.inbox == EMPTY_CHANNEL
    requires RecvTotal(q.left.s) == RecvTotal(p.left.s) + Credit(sent)
    requires Unread(q.left.s) == Unread(p.left.s)
    ensures DirectionOk(Swap(q))
  {
    hide SendTotal, RecvTotal, Unread, Gap;
    assert DirectionOk(Swap(p));
    ConcatEmpty(sent);
    assert p.out == [] && q.out == sent;
  }

  lemma BalancedParts(s: Stream, t: Stream, sent: seq<Frame>)
    requires Balanced(s, t, sent, [], [])
    ensures SendTotal(t) == SendTotal(s)
    ensures RecvTotal(t) == RecvTotal(s) + Credit(sent)
    ensures Unread(t) == Unread(s)
    ensures DataBytes(sent) == 0 && Payload(sent) == []
    ensures t.id == s.id && t.maxRecvWindow == s.maxRecvWindow
    ensures Emitted(sent, s.id, Underway(s.state))
  {
    ConcatEmpty(Unread(t));
  }

  lemma AcceptBooks(p: Pair)
    requires Books(p) && Enabled(p, Accept)
    ensures Books(Admitted(p))
  {
    hide Created, SendTotal, RecvTotal, Unread, Gap, DataBytes, Credit, Payload, Balanced, Push;
    var e := p.left;
    var c := Created(e.s.id, SynReceived, e.s.maxRecvWindow);
    AcceptedBooks(e, p.back[0]);
    PopMeasures(p.back);
    AcceptForward(p, Admitted(p), FramesOf(c.events));
    AcceptBackward(p, Admitted(p), FramesOf(c.events));
  }

  lemma AcceptedBooks(e: End, f: Frame)
    requires EndOk(e) && e.phase == Unborn && !e.opener
    ensures var c := Created(e.s.id, SynReceived, e.s.maxRecvWindow);
      var sent := FramesOf(c.events);
      var t := Push(c.s, f).s;
      && sent == [WindowUpdateFrame(ACK, e.s.id, e.s.maxRecvWindow - INITIAL_STREAM_WINDOW)]
      && DataBytes(sent) == 0 && Payload(sent) == []
      && WellKept(t) && Underway(t.state)
      && t.inbox.queue == [f]
      && t.id == e.s.id && t.maxRecvWindow == e.s.maxRecvWindow
      && SendTotal(t) == SendTotal(e.s) + CreditOf(f)
      && RecvTotal(t) == RecvTotal(e.s) + Credit(sent) - DataLength(f)
      && Unread(t) == Unread(e.s) + BodyOf(f)
  {
    hide Created, SendTotal, RecvTotal, Unread, DataBytes, Credit, Payload, Balanced;
    BirthBooks(e);
    var c := Created(e.s.id, SynReceived, e.s.maxRecvWindow);
    BalancedParts(e.s, c.s, FramesOf(c.events));
    PushTotals(c.s, f);
    ConcatEmpty([f]);
  }

  lemma AcceptForward(p: Pair, q: Pair, sent: seq<Frame>)
    requires Books(p) && Enabled(p, Accept)
    requires q.right == p.right && q.out == p.out + sent && q.back == p.back[1..]
    requires q.left == p.left.(s := q.left.s, phase := Attached)
    requires sent == [WindowUpdateFrame(ACK, p.left.s.id, p.left.s.maxRecvWindow - INITIAL_STREAM_WINDOW)]
    requires WellKept(q.left.s) && Underway(q.left.s.state)
    requires q.left.s.id == p.left.s.id && q.left.s.maxRecvWindow == p.left.s.maxRecvWindow
    requires SendTotal(q.left.s) == SendTotal(p.left.s) + CreditOf(p.back[0])
    requires Credit(p.back) == CreditOf(p.back[0]) + Credit(p.back[1..])
    requires DataBytes(sent) == 0 && Payload(sent) == []
    ensures DirectionOk(q)
  {
    hide SendTotal, RecvTotal, Unread, Gap;
    ConcatEmpty(sent);
    assert p.out == [] && q.out == sent;
    ConcatEmpty(p.right.read + Unread(p.right.s));
    assert DirectionOk(Swap(p));
  }

  lemma AcceptBackward(p: Pair, q: Pair, sent: seq<Frame>)
    requires Books(p) && Enabled(p, Accept)
    requires q.right == p.right && q.out == p.out + sent && q.back == p.back[1..]
    requires q.left == p.left.(s := q.left.s, phase := Attached)
    requires q.left.s.inbox.queue == [p.back[0]]
    requires q.left.s.id == p.left.s.id && q.left.s.maxRecvWindow == p.left.s.maxRecvWindow
    requires RecvTotal(q.left.s) == RecvTotal(p.left.s) + Credit(sent) - DataLength(p.back[0])
    requires DataBytes(p.back) == DataLength(p.back[0]) + DataBytes(p.back[1..])
    requires Unread(q.left.s) == Unread(p.left.s) + BodyOf(p.back[0])
    requires Payload(p.back) == BodyOf(p.back[0]) + Payload(p.back[1..])
    ensures DirectionOk(Swap(q))
  {
    hide SendTotal, RecvTotal, Unread, Gap, DataBytes, Payload;
    var body := BodyOf(p.back[0]);
    assert DirectionOk(Swap(p));
    assert p.out == [];
    ConcatEmpty(sent);
    ConcatAssoc(p.left.read, Unread(p.left.s), body);
    ConcatAssoc(p.left.read + Unread(p.left.s), body, Payload(p.back[1..]));
    assert SynDiscipline(Swap(q)) by {
      assert NoSyn(p.back[1..]);
    }
  }

  lemma RejectBooks(p: Pair)
    requires Books(p) && Enabled(p, Reject)
    ensures Books(Next(p, Reject))
  {
    var q := Next(p, Reject);
    hide SendTotal, RecvTotal, Unread, Gap;
    assert DirectionOk(Swap(p));
    PopMeasures(p.back);
    MeasuresOne(RejectFrame(p.left.s.id));
    ConcatEmpty([RejectFrame(p.left.s.id)]);
    assert p.out == [] && q.out == [RejectFrame(p.left.s.id)];
    ConcatEmpty(p.right.read + Unread(p.right.s));
    assert DirectionOk(q);
    assert DirectionOk(Swap(q)) by {
      assert NoSyn(p.back[1..]);
    }
  }

  // -------------------------------------------------------------- what a drop tells

  lemma InitialInv(id: StreamId, leftMax: u32, rightMax: u32)
    requires INITIAL_STREAM_WINDOW <= leftMax && INITIAL_STREAM_WINDOW <= rightMax
    ensures Inv(Initial(id, leftMax, rightMax))
  {
    hide Books;
    InitialBooks(id, leftMax, rightMax);
  }

  lemma InvHealthy(p: Pair)
    requires Inv(p)
    requires p.left.phase != Unborn && !p.left.dropped
    ensures Healthy(p.left.s)
    ensures SendTotal(p.left.s) <= p.right.s.maxRecvWindow
  {
    hide Healthy;
    BooksHealthy(p);
  }

  lemma ActInv(p: Pair, a: Action)
    requires Inv(p) && Enabled(p, Act(a))
    ensures Inv(Next(p, Act(a)))
    ensures SendGoAway !in Poll(p.left.s, a, true).events
    ensures Emitted(FramesOf(Poll(p.left.s, a, true).events), p.left.s.id, true)
  {
    hide Books, Poll;
    ActBooks(p, a);
  }

  lemma DropInv(p: Pair)
    requires Inv(p) && Enabled(p, Drop)
    ensures Inv(Next(p, Drop))
    ensures SendGoAway !in DropEvents(p.left.s, true)
    ensures Emitted(FramesOf(DropEvents(p.left.s, true)), p.left.s.id, true)
  {
    hide Books, DropEvents;
    DropBooks(p);
    if ResetsOnDrop(p.left.s.state) {
      DropEndsWithReset(p.left.s);
    }
  }

  lemma DropEndsWithReset(s: Stream)
    requires ResetsOnDrop(s.state)
    ensures EndsWithReset(FramesOf(DropEvents(s, true)))
  {
    var reset := WindowUpdateFrame(OpeningFlags(s.state).(rst := true), s.id, 0);
    assert DropEvents(s, true) == [SendFrame(reset)] + [StreamClosed(s.id)];
    FramesOfConcat([SendFrame(reset)], [StreamClosed(s.id)]);
    FramesOfOne(SendFrame(reset));
    FramesOfOne(StreamClosed(s.id));
  }

  /** The oldest frame of a told stream is not its last, or it is the reset. */
  lemma LastIsReset(p: Pair)
    requires p.back != [] && Told(Swap(p))
    ensures p.right.dropped && ResetsOnDrop(p.right.s.state) ==>
      EndsWithReset(p.back[1..]) || p.back[0].header.flags.rst || p.left.phase == Detached
  {}

  lemma DeliverInv(p: Pair)
    requires Inv(p) && Enabled(p, Deliver)
    ensures Inv(Next(p, Deliver))
  {
    hide Books;
    DeliverBooks(p);
    LastIsReset(p);
    if p.back[0].header.flags.rst {
      DetachBooks(Handed(p));
    }
  }

  lemma DiscardInv(p: Pair)
    requires Inv(p) && Enabled(p, Discard)
    ensures Inv(Next(p, Discard))
  {
    hide Books;
    DiscardBooks(p);
  }

  lemma DetachInv(p: Pair)
    requires Inv(p) && Enabled(p, Detach)
    ensures Inv(Next(p, Detach))
  {
    hide Books;
    DetachBooks(p);
  }

  lemma OpenInv(p: Pair)
    requires Inv(p) && Enabled(p, Open)
    ensures Inv(Next(p, Open))
  {
    OpenFindsNobody(p);
    hide Books, Created;
    OpenBooks(p);
  }

  lemma OpenFindsNobody(p: Pair)
    requires Books(p) && Enabled(p, Open)
    ensures !p.left.dropped && !p.right.dropped
  {
    hide SendTotal, RecvTotal, Unread, Gap;
    assert DirectionOk(Swap(p));
    assert EndOk(p.right);
  }

  lemma AcceptInv(p: Pair)
    requires Inv(p) && Enabled(p, Accept)
    ensures Inv(Next(p, Accept))
  {
    hide Books, Created, Told, Admitted;
    AcceptBooks(p);
    AcceptTells(p);
    if p.back[0].header.flags.rst {
      AdmittedIsAttached(p);
      DetachBooks(Admitted(p));
    }
  }

  lemma AdmittedIsAttached(p: Pair)
    requires p.back != []
    ensures Admitted(p).left.phase == Attached
  {
    hide Created, Push;
  }

  lemma AcceptTells(p: Pair)
    requires Inv(p) && Enabled(p, Accept)
    ensures Told(Next(p, Accept)) && Told(Swap(Next(p, Accept)))
  {
    hide Books, Created, Push, Disconnect;
    AcceptFinds(p);
    LastIsReset(p);
  }

  lemma AcceptFinds(p: Pair)
    requires Books(p) && p.left.phase == Unborn
    ensures !p.left.dropped
  {
    hide SendTotal, RecvTotal, Unread, Gap;
    assert EndOk(p.left);
  }

  lemma RejectInv(p: Pair)
    requires Inv(p) && Enabled(p, Reject)
    ensures Inv(Next(p, Reject))
  {
    hide Books;
    RejectBooks(p);
  }

  /** Every step of either end keeps the invariant. */
  lemma StepInv(p: Pair, step: Step)
    requires Inv(p) && Enabled(p, step)
    ensures Inv(Next(p, step))
  {
    hide Inv, Next, Enabled;
    match step
    case Open => OpenInv(p);
    case Accept => AcceptInv(p);
    case Reject => RejectInv(p);
    case Act(a) => ActInv(p, a);
    case Drop => DropInv(p);
    case Deliver => DeliverInv(p);
    case Discard => DiscardInv(p);
    case Detach => DetachInv(p);
  }

  lemma InvSwap(p: Pair)
    requires Inv(p)
    ensures Inv(Swap(p))
  {
    assert Swap(Swap(p)) == p;
  }

  /** No window deadlock: when nothing of the stream is under way or unread, the writer may send
      more than half of the peer's window. */
  lemma NoWindowDeadlock(p: Pair)
    requires Inv(p)
    requires p.left.phase != Detached && p.right.phase == Attached && !p.right.dropped
    requires Accepting(p.right.s) && p.right.s.readBuf == []
    requires p.out == [] && p.back == [] && p.left.s.inbox.queue == [] && p.right.s.inbox.queue == []
    ensures 2 * p.left.s.sendWindow > p.right.s.maxRecvWindow
  {
    assert Flatten(p.right.s.readBuf) == [];
    assert DirectionOk(Swap(p));
    assert EndOk(p.right);
  }
}
