/** The session as the source has it: an object whose queues and tables are updated in place
    (crates/tokio-yamux/src/session.rs). Channel and transport readiness are inputs; frames given
    to channels, handles created and frames given to the transport are outputs. Every method is
    proved against the functions of module Sessions. */
module SessionObjects {
  import opened Prelude
  import opened Frames
  import opened Streams
  import opened Sessions

  /** The transport's answer to `poll_ready`, and whether a flush is still pending after it. */
  datatype SinkAnswer = SinkReady | SinkNotReady(flushPending: bool)

  class SessionObject {
    const role: Role
    const config: Config
    var nextStreamId: u32
    var remoteGoAway: bool
    var localGoAway: bool
    var eof: bool
    var pings: map<u32, nat>
    var pingId: u32
    var streams: set<StreamId>
    var pendingStreams: seq<StreamId>
    var writePendingFrames: seq<Frame>
    var readPendingFrames: seq<Frame>
    var events: seq<StreamEvent>

    function View(): Session
      reads this
    {
      Session(role, config, nextStreamId, remoteGoAway, localGoAway, eof, pings, pingId, streams, pendingStreams,
              writePendingFrames, readPendingFrames, events)
    }

    constructor (role: Role, config: Config)
      requires config.maxWindow >= INITIAL_STREAM_WINDOW
      ensures View() == NewSession(role, config)
    {
      this.role, this.config := role, config;
      nextStreamId := match role case Client => 1 case Server => 2;
      remoteGoAway, localGoAway, eof := false, false, false;
      pings, pingId := map[], 0;
      streams, pendingStreams, writePendingFrames, readPendingFrames, events := {}, [], [], [], [];
    }

    predicate IsDead()
      reads this
    {
      (remoteGoAway && localGoAway) || eof
    }

    // ------------------------------------------------------------- opening streams

    method CreateStream(id: StreamId, state: StreamState) returns (stream: Option<Stream>)
      modifies this`streams, this`events
      ensures match Register(old(View()), id, state)
        case OpenOk(m, s) => View() == m && stream == Some(s)
        case OpenErr(m, _) => View() == m && stream == None
    {
      if id in streams {
        return None;
      }
      streams := streams + {id};
      var announced := Created(id, state, config.maxWindow);
      events := events + announced.events;
      stream := Some(announced.s);
    }

    method OpenStream() returns (r: Option<Stream>, error: Option<OpenError>)
      modifies this`nextStreamId, this`streams, this`events
      ensures match Sessions.OpenStream(old(View()))
        case OpenOk(m, s) => View() == m && r == Some(s) && error == None
        case OpenErr(m, e) => View() == m && r == None && error == Some(e)
    {
      if IsDead() {
        return None, Some(ShutDown);
      }
      if remoteGoAway {
        return None, Some(PeerWentAway);
      }
      var id := nextStreamId;
      if nextStreamId as nat + 2 > U32_MAX {
        return None, Some(Exhausted);
      }
      nextStreamId := nextStreamId + 2;
      r := CreateStream(id, Init);
      error := if r.Some? then None else Some(Duplicate);
    }

    // -------------------------------------------------------------------- sending

    /** `send_all`: frames leave in order while the transport takes them. A session that is
        already dead takes one frame off its queue and gives up. */
    method SendAll(sink: seq<SinkAnswer>) returns (sent: seq<Frame>, blocked: bool)
      modifies this`writePendingFrames
      ensures View() == old(View()).(writePending := writePendingFrames)
      ensures !IsDead() ==> sent + writePendingFrames == old(writePendingFrames)
      ensures !IsDead() && !blocked ==> writePendingFrames == []
      ensures IsDead() ==> sent == [] && !blocked
      ensures IsDead() ==>
        writePendingFrames == if old(writePendingFrames) == [] then [] else old(writePendingFrames[1..])
    {
      sent, blocked := [], false;
      var k := 0;
      while writePendingFrames != []
        invariant 0 <= k <= |sink| + 1
        invariant sent + writePendingFrames == old(writePendingFrames)
        invariant IsDead() ==> sent == []
        decreases |writePendingFrames| + |sink| + 1 - k
      {
        var frame := writePendingFrames[0];
        writePendingFrames := writePendingFrames[1..];
        if IsDead() {
          break;
        }
        var answer := if k < |sink| then sink[k] else SinkNotReady(true);
        if answer.SinkReady? {
          sent := sent + [frame];
          k := if k < |sink| then k + 1 else k;
        } else {
          writePendingFrames := [frame] + writePendingFrames;
          if answer.flushPending {
            return sent, true;
          }
          k := k + 1;
        }
      }
    }

    /** `send_go_away_with_code`, up to the transport. */
    method SendGoAwayWithCode(code: u32)
      modifies this`writePendingFrames, this`localGoAway
      ensures View() == GoAwayWithCode(old(View()), code)
    {
      if localGoAway {
        return;
      }
      writePendingFrames := [];
      writePendingFrames := writePendingFrames + [GoAwayFrame(code)];
      localGoAway := true;
    }

    // ---------------------------------------------------------------- distribution

    /** `distribute_to_substream`. `answers[i]` is what the i-th frame's channel answers if asked. */
    method DistributeToSubstream(answers: seq<Answer>)
      returns (delivered: seq<Frame>, born: seq<Stream>, stopped: bool)
      requires |answers| == |readPendingFrames|
      modifies this
      ensures DistributeAll(old(View()), answers) == Distribution(View(), delivered, born, stopped)
    {
      hide SortOne, Distribute;
      delivered, born, stopped := [], [], false;
      var blocked: set<StreamId> := {};
      var batch := readPendingFrames;
      readPendingFrames := [];
      var i := 0;
      ghost var goal := DistributeAll(old(View()), answers);
      assert batch[0..] == batch && answers[0..] == answers;
      ConcatEmpty(goal.delivered);
      ConcatEmpty(goal.born);
      while i < |batch|
        invariant 0 <= i <= |batch| == |answers|
        invariant var rest := Distribute(View(), batch[i..], blocked, answers[i..]);
          goal == Distribution(rest.session, delivered + rest.delivered, born + rest.born, rest.stopped)
      {
        DistributeUnrolls(View(), batch, blocked, answers, i, delivered, born);
        var fate, stream, stop;
        fate, stream, stop, blocked := SortFrame(batch[i], blocked, answers[i]);
        delivered := delivered + if fate == Delivered then [batch[i]] else [];
        born := born + if stream.Some? then [stream.value] else [];
        if stop {
          stopped := true;
          return;
        }
        i := i + 1;
      }
      DistributeEnds(View(), blocked);
      ConcatEmpty(delivered);
      ConcatEmpty(born);
    }

    static lemma DistributeUnrolls(m: Session, batch: seq<Frame>, blocked: set<StreamId>, answers: seq<Answer>, i: nat,
                                   delivered: seq<Frame>, born: seq<Stream>)
      requires i < |batch| == |answers|
      ensures var r := SortOne(m, blocked, batch[i], answers[i]);
        var d := Distribute(m, batch[i..], blocked, answers[i..]);
        var now := if r.fate == Delivered then [batch[i]] else [];
        var one := if r.born.Some? then [r.born.value] else [];
        if r.stop then d == Distribution(r.session, now, one, true)
        else
          var rest := Distribute(r.session, batch[i + 1..], r.blocked, answers[i + 1..]);
          && d.session == rest.session && d.stopped == rest.stopped
          && delivered + d.delivered == (delivered + now) + rest.delivered
          && born + d.born == (born + one) + rest.born
    {
      hide SortOne;
      assert batch[i..][0] == batch[i] && batch[i..][1..] == batch[i + 1..];
      assert answers[i..][0] == answers[i] && answers[i..][1..] == answers[i + 1..];
      var r := SortOne(m, blocked, batch[i], answers[i]);
      var rest := Distribute(r.session, batch[i + 1..], r.blocked, answers[i + 1..]);
      ConcatAssoc(delivered, if r.fate == Delivered then [batch[i]] else [], rest.delivered);
      ConcatAssoc(born, if r.born.Some? then [r.born.value] else [], rest.born);
    }

    static lemma DistributeEnds(m: Session, blocked: set<StreamId>)
      ensures Distribute(m, [], blocked, []) == Distribution(m, [], [], false)
    {}

    /** The loop body: accept or refuse a SYN, then offer the frame to its channel. */
    method SortFrame(frame: Frame, wasBlocked: set<StreamId>, answer: Answer)
      returns (fate: Fate, stream: Option<Stream>, stop: bool, blocked: set<StreamId>)
      modifies this
      ensures SortOne(old(View()), wasBlocked, frame, answer) == Sorted(View(), blocked, fate, stream, stop)
    {
      hide Route, Created;
      fate, stream, stop, blocked := Lost, None, false, wasBlocked;
      var id := frame.header.streamId;
      if id in blocked {
        readPendingFrames := readPendingFrames + [frame];
        return Requeued, None, false, blocked;
      }
      var channel := answer;
      if frame.header.flags.syn {
        if localGoAway {
          writePendingFrames := writePendingFrames + [WindowUpdateFrame(NO_FLAGS.(rst := true), id, 0)];
          return Lost, None, true, blocked;
        }
        if |streams| < config.maxStreamCount && |pendingStreams| < config.acceptBacklog {
          stream := CreateStream(id, SynReceived);
          if stream.None? {
            SendGoAwayWithCode(PROTOCOL_ERROR);
            return Lost, None, true, blocked;
          }
          pendingStreams := pendingStreams + [id];
          channel := Accepted;
        } else {
          writePendingFrames := writePendingFrames + [RejectFrame(id)];
        }
      }
      fate, blocked := Offer(frame, blocked, channel, stream);
    }

    /** The end of the loop body: the frame is offered to its channel. */
    method Offer(frame: Frame, wasBlocked: set<StreamId>, channel: Answer, ghost born: Option<Stream>)
      returns (fate: Fate, blocked: set<StreamId>)
      modifies this`streams, this`readPendingFrames
      ensures Route(old(View()), wasBlocked, frame, channel, born) == Sorted(View(), blocked, fate, born, false)
    {
      fate, blocked := Lost, wasBlocked;
      var id := frame.header.streamId;
      if id in streams {
        match channel {
          case Accepted =>
            fate := Delivered;
            if frame.header.flags.rst {
              streams := streams - {id};
            }
          case Full =>
            readPendingFrames := readPendingFrames + [frame];
            blocked := blocked + {id};
            fate := Requeued;
          case Disconnected =>
            streams := streams - {id};
        }
      }
    }

    // ----------------------------------------------------------- the rest of the loop

    method HandlePing(frame: Frame)
      modifies this`writePendingFrames, this`pings
      ensures View() == Sessions.HandlePing(old(View()), frame)
    {
      if frame.header.flags.syn {
        writePendingFrames := writePendingFrames + [PingFrame(ACK, frame.header.length)];
      } else if frame.header.flags.ack {
        var pingId := frame.header.length;
        pings := pings - {pingId};
        pings := map k | k in pings && k >= pingId :: pings[k];
      }
    }

    method KeepAlive(now: nat) returns (timedOut: bool)
      modifies this`writePendingFrames, this`pings, this`pingId
      ensures timedOut == Sessions.KeepAlive(old(View()), now).None?
      ensures View() == if timedOut then old(View()) else Sessions.KeepAlive(old(View()), now).value
    {
      timedOut := exists k | k in pings :: now > pings[k] + PING_TIMEOUT_SECS;
      if timedOut || pings != map[] {
        return;
      }
      pingId := if pingId == U32_MAX then 0 else pingId + 1;
      writePendingFrames := writePendingFrames + [PingFrame(SYN, pingId)];
      pings := pings[pingId := now];
    }

    method HandleGoAway()
      modifies this`remoteGoAway, this`localGoAway, this`writePendingFrames
      ensures View() == Sessions.HandleGoAway(old(View()))
    {
      remoteGoAway := true;
      writePendingFrames := [];
      if !localGoAway {
        SendGoAwayWithCode(NORMAL_TERMINATION);
      }
    }

    method HandleFrame(frame: Frame)
      modifies this
      ensures View() == HandleFrameIn(old(View()), frame)
    {
      match frame.header.ty {
        case Data | WindowUpdate => readPendingFrames := readPendingFrames + [frame];
        case Ping => HandlePing(frame);
        case GoAway => HandleGoAway();
      }
    }

    method HandleEvent(event: StreamEvent)
      modifies this`writePendingFrames, this`streams, this`localGoAway
      ensures View() == Sessions.HandleEvent(old(View()), event)
    {
      match event {
        case SendFrame(frame) => writePendingFrames := writePendingFrames + [frame];
        case StreamClosed(id) => streams := streams - {id};
        case SendGoAway => SendGoAwayWithCode(PROTOCOL_ERROR);
      }
    }
  }
}
