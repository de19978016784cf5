/** The pool object: lane layout, selection, reservation and pruning as the loops of
    crates/espejismo-client/src/tunnel.rs, proved against the value model. */
module LanePools {
  import opened Prelude
  import opened Lanes
  import opened Boards
  import opened LaneAccounts

  /** `lane_kinds`: interactive lanes first, then bulk lanes, cut to the maximum and filled up with
      interactive lanes to the minimum. */
  method LaneKinds(interactive: nat, bulk: nat, minimum: nat, maximum: nat) returns (kinds: seq<Kind>)
    ensures |kinds| == Max(Min(Max(interactive, 1) + bulk, Max(maximum, 1)), Max(Min(minimum, maximum), 1))
    ensures forall i | 0 <= i < |kinds| ::
      kinds[i] == Bulk <==> Max(interactive, 1) <= i < Min(Max(interactive, 1) + bulk, Max(maximum, 1))
    ensures kinds[0] == Interactive
  {
    kinds := seq(Max(interactive, 1), _ => Interactive);
    kinds := kinds + seq(bulk, _ => Bulk);
    if |kinds| > Max(maximum, 1) {
      kinds := kinds[..Max(maximum, 1)];
    }
    ghost var built := |kinds|;
    while |kinds| < Max(Min(minimum, maximum), 1)
      invariant built <= |kinds| <= Max(built, Max(Min(minimum, maximum), 1))
      invariant forall i | 0 <= i < |kinds| :: kinds[i] == Bulk <==> Max(interactive, 1) <= i < built
    {
      kinds := kinds + [Interactive];
    }
  }

  /** The filter of a selection: one kind, or no filter. */
  predicate Passes(lane: Lane, wanted: Option<Kind>) {
    wanted.None? || lane.kind == wanted.value
  }

  /** The loop of `min_by_key` over the lanes that pass the filter. */
  method MinByScore(lanes: seq<Lane>, busy: set<nat>, wanted: Option<Kind>) returns (best: Option<nat>)
    ensures best.None? ==> forall j | 0 <= j < |lanes| :: !Passes(lanes[j], wanted)
    ensures wanted.None? && lanes != [] ==> best.Some?
    ensures best.Some? ==>
      && best.value < |lanes|
      && Passes(lanes[best.value], wanted)
      && (forall j | 0 <= j < |lanes| && Passes(lanes[j], wanted) ::
            && ScoreAt(lanes, busy, best.value) <= ScoreAt(lanes, busy, j)
            && (j < best.value ==> ScoreAt(lanes, busy, best.value) < ScoreAt(lanes, busy, j)))
  {
    hide Score;
    best := None;
    var i := 0;
    while i < |lanes|
      invariant 0 <= i <= |lanes|
      invariant best.None? ==> forall j | 0 <= j < i :: !Passes(lanes[j], wanted)
      invariant wanted.None? && i > 0 ==> best.Some?
      invariant best.Some? ==>
        && best.value < i
        && Passes(lanes[best.value], wanted)
        && (forall j | 0 <= j < i && Passes(lanes[j], wanted) ::
              && ScoreAt(lanes, busy, best.value) <= ScoreAt(lanes, busy, j)
              && (j < best.value ==> ScoreAt(lanes, busy, best.value) < ScoreAt(lanes, busy, j)))
    {
      if Passes(lanes[i], wanted) {
        if best.None? || ScoreAt(lanes, busy, i) < ScoreAt(lanes, busy, best.value) {
          best := Some(i);
        }
      }
      i := i + 1;
    }
  }

  /** `TunnelManager`: the lanes and the runtime state they are published to. The unresolved
      reservations and the metered streams belong to the callers; they appear as ghost arguments. */
  class LanePool {
    var lanes: seq<Lane>
    const runtime: RuntimeState
    const minConnections: nat

    ghost predicate Valid()
      reads this, runtime
    {
      runtime.Valid() && forall i | 0 <= i < |lanes| :: lanes[i].id == i
    }

    ghost function View(waiting: seq<Ticket>, streams: seq<Ticket>): World
      reads this, runtime
    {
      World(lanes, waiting, streams, runtime.tunnelLanes)
    }

    constructor (interactive: nat, bulk: nat, minimum: nat, maximum: nat)
      ensures Valid() && fresh(runtime) && Fresh(View([], []))
      ensures lanes != [] && lanes[0].kind == Interactive && 1 <= minConnections <= |lanes|
      ensures forall i | 0 <= i < |lanes| :: lanes[i] == Lane(i, lanes[i].kind, false, NEW_HEALTH, 0, 0)
    {
      var kinds := LaneKinds(interactive, bulk, minimum, maximum);
      lanes := seq(|kinds|, i requires 0 <= i < |kinds| => Lane(i, kinds[i], false, NEW_HEALTH, 0, 0));
      minConnections := Max(Min(minimum, |kinds|), 1);
      runtime := new RuntimeState();
    }

    /** `select_and_reserve_lane`: nothing is chosen only when there are no lanes at all. */
    method SelectAndReserve(kind: Kind, busy: set<nat>) returns (lane: Option<nat>)
      requires Valid()
      modifies this
      ensures Valid()
      ensures lane.None? <==> old(lanes) == []
      ensures lane.None? ==> lanes == old(lanes)
      ensures lane.Some? ==> IsChoice(old(lanes), busy, kind, lane.value) && lanes == Reserve(old(lanes), lane.value)
    {
      hide Score;
      lane := MinByScore(lanes, busy, Some(kind));
      if lane.None? {
        assert !HasKind(lanes, kind);
        lane := MinByScore(lanes, busy, None);
      } else {
        assert HasKind(lanes, kind);
      }
      if lane.None? {
        return;
      }
      assert IsChoice(lanes, busy, kind, lane.value);
      var h := lanes[lane.value].health;
      lanes := lanes[lane.value := lanes[lane.value].(health := h.(pending := SatAdd(h.pending, 1)))];
    }

    /** `prune_idle_lanes`: `clock(i)` is the instant at which lane `i` is looked at. */
    method PruneIdle(clock: nat -> nat)
      requires Valid()
      modifies this
      ensures Valid() && Pruned(old(lanes), lanes, minConnections, clock)
    {
      var connected := CountConnected();
      if connected <= minConnections {
        return;
      }
      var i := 0;
      while i < |lanes| && connected > minConnections
        invariant 0 <= i <= |lanes| == |old(lanes)|
        invariant connected == Connected(lanes) >= minConnections
        invariant forall k | 0 <= k < |lanes| ::
          lanes[k] == old(lanes)[k]
          || (Idle(old(lanes)[k], clock(k)) && lanes[k] == old(lanes)[k].(connected := false))
        invariant forall k | i <= k < |lanes| :: lanes[k] == old(lanes)[k]
        invariant forall k | 0 <= k < i :: !Idle(lanes[k], clock(k))
        decreases |lanes| - i
      {
        if ShouldPrune(connected, minConnections, lanes[i].health, clock(i)) {
          if lanes[i].connected {
            ConnectedUpdate(lanes, i);
            lanes := lanes[i := lanes[i].(connected := false)];
            connected := connected - 1;
          }
        }
        i := i + 1;
      }
    }

    method CountConnected() returns (connected: nat)
      ensures connected == Connected(lanes)
    {
      connected := 0;
      var i := 0;
      while i < |lanes|
        invariant 0 <= i <= |lanes|
        invariant connected == Connected(lanes[..i])
      {
        ConnectedSnoc(lanes, i);
        if lanes[i].connected {
          connected := connected + 1;
        }
        i := i + 1;
      }
      assert lanes[..i] == lanes;
    }

    method PublishLane(i: nat)
      requires Valid() && i < |lanes|
      modifies runtime
      ensures Valid() && runtime.tunnelLanes == Published(old(runtime.tunnelLanes), RowOf(lanes[i]))
    {
      var lane := lanes[i];
      var h := lane.health;
      runtime.UpdateTunnelLane(
        Row(lane.id, h.active, h.pending, h.opens, h.failures,
            SatAdd(h.bytesUp, lane.inflightUp), SatAdd(h.bytesDown, lane.inflightDown), Score(h)));
    }

    /** `record_open_success`: a reservation becomes a stream. */
    method RecordOpenSuccess(i: nat, latencyMs: u64, now: nat, ghost waiting: seq<Ticket>, ghost streams: seq<Ticket>, ghost k: nat)
      requires Valid() && i < |lanes| && k < |waiting| && waiting[k].lane == i
      modifies this, runtime
      ensures Valid()
      ensures View(Without(waiting, k), streams + [Ticket(i, 0, 0)])
        == DoOpenSuccess(old(View(waiting, streams)), k, latencyMs, now)
    {
      var h := lanes[i].health;
      h := h.(pending := SatSub(h.pending, 1));
      h := h.(active := SatAdd(h.active, 1));
      h := h.(opens := SatAdd(h.opens, 1));
      h := h.(openLatencyMs := latencyMs, lastActivity := Some(now), lastError := false);
      lanes := lanes[i := lanes[i].(health := h)];
      PublishLane(i);
    }

    /** `release_lane_reservation`. */
    method ReleaseReservation(i: nat, now: nat, ghost waiting: seq<Ticket>, ghost streams: seq<Ticket>, ghost k: nat)
      requires Valid() && i < |lanes| && k < |waiting| && waiting[k].lane == i
      modifies this, runtime
      ensures Valid()
      ensures View(Without(waiting, k), streams) == DoRelease(old(View(waiting, streams)), k, now)
    {
      var h := lanes[i].health;
      h := h.(pending := SatSub(h.pending, 1), lastActivity := Some(now));
      lanes := lanes[i := lanes[i].(health := h)];
      PublishLane(i);
    }

    /** `record_stream_bytes`: a lane id nobody has is ignored. */
    method RecordStreamBytes(id: nat, up: u64, down: u64, elapsedNanos: nat, now: nat,
                             ghost waiting: seq<Ticket>, ghost streams: seq<Ticket>, ghost k: nat)
      requires Valid() && k < |streams| && streams[k] == Ticket(id, up, down)
      modifies this, runtime
      ensures Valid()
      ensures id < |old(lanes)| ==>
        View(waiting, Without(streams, k)) == DoRecord(old(View(waiting, streams)), k, elapsedNanos, now)
      ensures id >= |old(lanes)| ==> lanes == old(lanes) && runtime.tunnelLanes == old(runtime.tunnelLanes)
    {
      var i := 0;
      while i < |lanes| && lanes[i].id != id
        invariant 0 <= i <= |lanes|
        invariant forall j | 0 <= j < i :: lanes[j].id != id
      {
        i := i + 1;
      }
      if i == |lanes| {
        return;
      }
      var lane := lanes[i];
      lane := lane.(inflightUp := SatSub(lane.inflightUp, up));
      lane := lane.(inflightDown := SatSub(lane.inflightDown, down));
      var h := lane.health;
      h := h.(bytesUp := SatAdd(h.bytesUp, up));
      h := h.(bytesDown := SatAdd(h.bytesDown, down));
      if elapsedNanos != 0 {
        h := h.(bpsUp := Ewma(h.bpsUp, BitsPerSecond(up, elapsedNanos)));
        h := h.(bpsDown := Ewma(h.bpsDown, BitsPerSecond(down, elapsedNanos)));
      }
      h := h.(active := SatSub(h.active, 1), lastActivity := Some(now));
      lanes := lanes[i := lane.(health := h)];
      PublishLane(i);
    }
  }

  /** `MeteredTunnelStream`: one stream's byte counts, mirrored into its lane and the snapshot. */
  class MeteredStream {
    const pool: LanePool
    const lane: nat
    var up: u64
    var down: u64

    ghost predicate Valid()
      reads this, pool, pool.runtime
    {
      pool.Valid() && lane < |pool.lanes|
    }

    constructor (pool: LanePool, lane: nat)
      requires pool.Valid() && lane < |pool.lanes|
      ensures Valid() && this.pool == pool && this.lane == lane && up == 0 && down == 0
    {
      this.pool, this.lane := pool, lane;
      up, down := 0, 0;
    }

    /** A completed poll: `sent` bytes written or `received` bytes read. */
    method Meter(sent: u64, received: u64, ghost waiting: seq<Ticket>, ghost streams: seq<Ticket>, ghost k: nat)
      requires Valid() && k < |streams| && streams[k] == Ticket(lane, up, down)
      modifies this, pool, pool.runtime
      ensures Valid()
      ensures pool.View(waiting, streams[k := Ticket(lane, up, down)])
        == DoPoll(old(pool.View(waiting, streams)), k, sent, received)
    {
      up := SatAdd(up, sent);
      down := SatAdd(down, received);
      var l := pool.lanes[lane];
      pool.lanes := pool.lanes[lane := l.(inflightUp := Wrap(l.inflightUp, sent), inflightDown := Wrap(l.inflightDown, received))];
      pool.runtime.AddTunnelLaneBytes(lane, sent, received);
    }
  }
}
