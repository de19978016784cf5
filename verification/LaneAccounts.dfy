/** Lane accounting over whole runs: reservations, stream opens, metered polls, records, errors and
    pruning, against the counters of the lanes and the published snapshot
    (crates/espejismo-client/src/tunnel.rs, crates/espejismo-core/src/runtime_state.rs). */
module LaneAccounts {
  import opened Prelude
  import opened Lanes
  import opened Boards

  /** An unresolved reservation, or a metered stream with its own byte counts. */
  datatype Ticket = Ticket(lane: nat, up: u64, down: u64)

  datatype World = World(lanes: seq<Lane>, waiting: seq<Ticket>, streams: seq<Ticket>, board: seq<Row>)

  /** Each poll, each record and each health update is one step. */
  datatype Step =
    | ReserveLane(kind: Kind, busy: set<nat>, lane: nat)
    | Announce(lane: nat, now: nat)
    | OpenSuccess(ticket: nat, latencyMs: u64, now: nat)
    | Release(ticket: nat, now: nat)
    | LaneError(lane: nat, now: nat)
    | LaneConnected(lane: nat, now: nat)
    | SetControl(lane: nat, on: bool)
    | RttSample(lane: nat, ms: u64, now: nat)
    | Poll(stream: nat, lane: nat, up: u64, down: u64)
    | Record(stream: nat, elapsedNanos: nat, now: nat)
    | PruneLanes(minimum: nat, clock: nat -> nat, after: seq<Lane>)

  // ------------------------------------------------------------------ single steps

  function Wrap(a: u64, b: u64): u64 {
    (a as nat + b as nat) % (U64_MAX + 1)
  }

  /** The row `publish_lane` writes. */
  function RowOf(lane: Lane): Row {
    var h := lane.health;
    Row(lane.id, h.active, h.pending, h.opens, h.failures,
        SatAdd(h.bytesUp, lane.inflightUp), SatAdd(h.bytesDown, lane.inflightDown), Score(h))
  }

  function Put(w: World, i: nat, lane: Lane): World
    requires i < |w.lanes|
  {
    w.(lanes := w.lanes[i := lane], board := Published(w.board, RowOf(lane)))
  }

  function Without(ts: seq<Ticket>, k: nat): seq<Ticket>
    requires k < |ts|
  {
    ts[..k] + ts[k + 1..]
  }

  function BitsPerSecond(bytes: u64, elapsedNanos: nat): u64
    requires elapsedNanos > 0
  {
    QuotientFits(bytes as nat * 8_000_000_000, elapsedNanos);
    Min(U64_MAX, bytes as nat * 8_000_000_000 / elapsedNanos)
  }

  function Ewma(previous: u64, sample: u64): u64 {
    if previous == 0 then sample else Quotient(SatAdd(SatMul(previous, 3), sample), 4)
  }

  function Recorded(h: Health, t: Ticket, elapsedNanos: nat, now: nat): Health {
    var paced :=
      if elapsedNanos == 0 then h
      else h.(bpsUp := Ewma(h.bpsUp, BitsPerSecond(t.up, elapsedNanos)),
              bpsDown := Ewma(h.bpsDown, BitsPerSecond(t.down, elapsedNanos)));
    paced.(bytesUp := SatAdd(h.bytesUp, t.up), bytesDown := SatAdd(h.bytesDown, t.down),
           active := SatSub(h.active, 1), lastActivity := Some(now))
  }

  function Trimmed(trend: seq<u64>): seq<u64> {
    if |trend| > 16 then trend[|trend| - 16..] else trend
  }

  predicate Enabled(w: World, s: Step) {
    match s
    case ReserveLane(kind, busy, lane) => IsChoice(w.lanes, busy, kind, lane)
    case Announce(lane, _) => lane < |w.lanes|
    case OpenSuccess(k, _, _) => k < |w.waiting| && w.waiting[k].lane < |w.lanes|
    case Release(k, _) => k < |w.waiting| && w.waiting[k].lane < |w.lanes|
    case LaneError(lane, _) => lane < |w.lanes|
    case LaneConnected(lane, _) => lane < |w.lanes|
    case SetControl(lane, _) => lane < |w.lanes|
    case RttSample(lane, _, _) => lane < |w.lanes|
    case Poll(k, lane, _, _) => k < |w.streams| && w.streams[k].lane == lane < |w.lanes|
    case Record(k, _, _) => k < |w.streams| && w.streams[k].lane < |w.lanes|
    case PruneLanes(minimum, clock, after) => Pruned(w.lanes, after, minimum, clock)
  }

  function Update(w: World, i: nat, h: Health): World
    requires i < |w.lanes|
  {
    Put(w, i, w.lanes[i].(health := h))
  }

  function DoOpenSuccess(w: World, k: nat, latencyMs: u64, now: nat): World
    requires k < |w.waiting| && w.waiting[k].lane < |w.lanes|
  {
    var i := w.waiting[k].lane;
    var h := w.lanes[i].health;
    Update(w.(waiting := Without(w.waiting, k), streams := w.streams + [Ticket(i, 0, 0)]), i,
           h.(pending := SatSub(h.pending, 1), active := SatAdd(h.active, 1), opens := SatAdd(h.opens, 1),
              openLatencyMs := latencyMs, lastActivity := Some(now), lastError := false))
  }

  function DoRelease(w: World, k: nat, now: nat): World
    requires k < |w.waiting| && w.waiting[k].lane < |w.lanes|
  {
    var i := w.waiting[k].lane;
    var h := w.lanes[i].health;
    Update(w.(waiting := Without(w.waiting, k)), i, h.(pending := SatSub(h.pending, 1), lastActivity := Some(now)))
  }

  function DoPoll(w: World, k: nat, up: u64, down: u64): World
    requires k < |w.streams| && w.streams[k].lane < |w.lanes|
  {
    var t := w.streams[k];
    var lane := w.lanes[t.lane];
    w.(streams := w.streams[k := Ticket(t.lane, SatAdd(t.up, up), SatAdd(t.down, down))],
       lanes := w.lanes[t.lane := lane.(inflightUp := Wrap(lane.inflightUp, up), inflightDown := Wrap(lane.inflightDown, down))],
       board := Added(w.board, t.lane, up, down))
  }

  function DoRecord(w: World, k: nat, elapsedNanos: nat, now: nat): World
    requires k < |w.streams| && w.streams[k].lane < |w.lanes|
  {
    var t := w.streams[k];
    var lane := w.lanes[t.lane];
    Put(w.(streams := Without(w.streams, k)), t.lane,
        lane.(inflightUp := SatSub(lane.inflightUp, t.up), inflightDown := SatSub(lane.inflightDown, t.down),
              health := Recorded(lane.health, t, elapsedNanos, now)))
  }

  function Apply(w: World, s: Step): World
    requires Enabled(w, s)
  {
    match s
    case ReserveLane(_, _, lane) => w.(lanes := Reserve(w.lanes, lane), waiting := w.waiting + [Ticket(lane, 0, 0)])
    case Announce(lane, now) => Update(w, lane, w.lanes[lane].health.(lastActivity := Some(now)))
    case OpenSuccess(k, latencyMs, now) => DoOpenSuccess(w, k, latencyMs, now)
    case Release(k, now) => DoRelease(w, k, now)
    case LaneError(lane, now) =>
      var h := w.lanes[lane].health;
      Update(w, lane, h.(failures := SatAdd(h.failures, 1), lastActivity := Some(now), lastError := true))
    case LaneConnected(lane, now) =>
      Update(w, lane, w.lanes[lane].health.(lastActivity := Some(now), lastError := false))
    case SetControl(lane, on) => w.(lanes := w.lanes[lane := w.lanes[lane].(connected := on)])
    case RttSample(lane, ms, now) =>
      var h := w.lanes[lane].health;
      Update(w, lane, h.(lastRttMs := Some(ms), rttTrendMs := Trimmed(h.rttTrendMs + [ms]), lastActivity := Some(now)))
    case Poll(k, _, up, down) => DoPoll(w, k, up, down)
    case Record(k, elapsedNanos, now) => DoRecord(w, k, elapsedNanos, now)
    case PruneLanes(_, _, after) => w.(lanes := after)
  }

  // -------------------------------------------------------------------- the ledger

  datatype Part = Each | Up | Down

  function Weight(t: Ticket, part: Part): nat {
    match part
    case Each => 1
    case Up => t.up as nat
    case Down => t.down as nat
  }

  /** Tickets of a lane, counted or weighed by one of their byte counts. */
  function On(ts: seq<Ticket>, lane: nat, part: Part): nat {
    if ts == [] then 0 else (if ts[0].lane == lane then Weight(ts[0], part) else 0) + On(ts[1..], lane, part)
  }

  /** Reference: the bytes metered on a lane, read off the run itself. */
  function Metered(steps: seq<Step>, lane: nat, part: Part): nat
    requires part != Each
  {
    if steps == [] then 0
    else
      Metered(steps[..|steps| - 1], lane, part)
      + var s := steps[|steps| - 1];
        if s.Poll? && s.lane == lane then (if part == Up then s.up as nat else s.down as nat) else 0
  }

  predicate Follows(w: World, steps: seq<Step>)
    decreases |steps|, 0
  {
    steps == [] || (Follows(w, steps[..|steps| - 1])
                    && Enabled(Run(w, steps[..|steps| - 1]), steps[|steps| - 1]))
  }

  function Run(w: World, steps: seq<Step>): World
    requires Follows(w, steps)
    decreases |steps|, 1
  {
    if steps == [] then w else Apply(Run(w, steps[..|steps| - 1]), steps[|steps| - 1])
  }

  lemma {:induction false} OnConcat(a: seq<Ticket>, b: seq<Ticket>, lane: nat, part: Part)
    ensures On(a + b, lane, part) == On(a, lane, part) + On(b, lane, part)
  {
    if a == [] {
      ConcatEmpty(b);
    } else {
      ConcatTail(a, b);
      OnConcat(a[1..], b, lane, part);
    }
  }

  lemma OnOne(t: Ticket, lane: nat, part: Part)
    ensures On([t], lane, part) == if t.lane == lane then Weight(t, part) else 0
  {
    assert [t][1..] == [];
  }

  lemma OnSnoc(ts: seq<Ticket>, t: Ticket, lane: nat, part: Part)
    ensures On(ts + [t], lane, part) == On(ts, lane, part) + if t.lane == lane then Weight(t, part) else 0
  {
    OnConcat(ts, [t], lane, part);
    OnOne(t, lane, part);
  }

  lemma OnWithout(ts: seq<Ticket>, k: nat, lane: nat, part: Part)
    requires k < |ts|
    ensures On(ts, lane, part) == On(Without(ts, k), lane, part) + if ts[k].lane == lane then Weight(ts[k], part) else 0
  {
    assert ts == ts[..k] + ([ts[k]] + ts[k + 1..]);
    OnConcat(ts[..k], [ts[k]] + ts[k + 1..], lane, part);
    OnConcat([ts[k]], ts[k + 1..], lane, part);
    OnConcat(ts[..k], ts[k + 1..], lane, part);
    OnOne(ts[k], lane, part);
  }

  lemma OnUpdate(ts: seq<Ticket>, k: nat, t: Ticket, lane: nat, part: Part)
    requires k < |ts| && ts[k].lane == t.lane
    ensures On(ts[k := t], lane, part)
      == On(ts, lane, part) + if t.lane == lane then Weight(t, part) - Weight(ts[k], part) else 0
  {
    OnWithout(ts, k, lane, part);
    OnWithout(ts[k := t], k, lane, part);
    assert ts[k := t][..k] == ts[..k] && ts[k := t][k + 1..] == ts[k + 1..];
  }

  lemma {:induction false} OnAtMost(ts: seq<Ticket>, lane: nat)
    ensures On(ts, lane, Each) <= |ts|
  {
    if ts != [] {
      OnAtMost(ts[1..], lane);
    }
  }

  // ----------------------------------------------------------------- the invariant

  predicate Counted(lane: Lane, i: nat, waiting: seq<Ticket>, streams: seq<Ticket>, up: nat, down: nat) {
    && lane.id == i
    && lane.health.pending as nat == On(waiting, i, Each)
    && lane.health.active as nat == On(streams, i, Each)
    && lane.inflightUp as nat == On(streams, i, Up)
    && lane.inflightDown as nat == On(streams, i, Down)
    && lane.health.bytesUp as nat + lane.inflightUp as nat == up
    && lane.health.bytesDown as nat + lane.inflightDown as nat == down
  }

  /** The published row agrees; a lane that has none has carried nothing. */
  predicate Posted(lane: Lane, row: Option<Row>, up: nat, down: nat) {
    match row
    case None => lane.health.active == 0 && up == 0 && down == 0
    case Some(r) =>
      && r.bytesUp as nat == up
      && r.bytesDown as nat == down
      && r.active == lane.health.active
      && r.pending <= lane.health.pending
  }

  predicate Placed(w: World) {
    && (forall k | 0 <= k < |w.waiting| :: w.waiting[k].lane < |w.lanes|)
    && (forall k | 0 <= k < |w.streams| :: w.streams[k].lane < |w.lanes|)
    && Ordered(w.board)
  }

  predicate LaneOk(w: World, i: nat, up: nat, down: nat)
    requires i < |w.lanes|
  {
    && Counted(w.lanes[i], i, w.waiting, w.streams, up, down)
    && Posted(w.lanes[i], Lookup(w.board, i), up, down)
  }

  predicate Agrees(w: World, steps: seq<Step>) {
    && Placed(w)
    && |w.waiting| + |w.streams| <= |steps|
    && forall i | 0 <= i < |w.lanes| :: LaneOk(w, i, Metered(steps, i, Up), Metered(steps, i, Down))
  }

  /** Lanes as a new manager has them. */
  predicate Fresh(w: World) {
    && w.waiting == [] && w.streams == [] && w.board == []
    && forall i | 0 <= i < |w.lanes| :: w.lanes[i] == Lane(i, w.lanes[i].kind, false, NEW_HEALTH, 0, 0)
  }

  /** No counter reaches the top of u64. */
  predicate InRange(w: World, steps: seq<Step>) {
    && |steps| <= U64_MAX
    && forall i | 0 <= i < |w.lanes| :: Metered(steps, i, Up) <= U64_MAX && Metered(steps, i, Down) <= U64_MAX
  }

  /** Replacing lane `i` and publishing it: other lanes only need their tickets untouched. */
  lemma PutOk(w: World, v: World, i: nat, j: nat, up: nat, down: nat)
    requires i < |w.lanes| && |v.lanes| == |w.lanes| && j < |w.lanes|
    requires Placed(w) && v.lanes == w.lanes[i := v.lanes[i]] && v.lanes[i].id == i
    requires v.board == Published(w.board, RowOf(v.lanes[i]))
    requires up <= U64_MAX && down <= U64_MAX
    requires Counted(v.lanes[j], j, v.waiting, v.streams, up, down)
    requires j != i ==> Posted(w.lanes[j], Lookup(w.board, j), up, down)
    ensures LaneOk(v, j, up, down)
  {
    hide Score, On, Published;
    PublishedLookup(w.board, RowOf(v.lanes[i]), j);
  }

  lemma ReserveOk(w: World, lane: nat, j: nat, up: nat, down: nat)
    requires lane < |w.lanes| && j < |w.lanes| && LaneOk(w, j, up, down)
    requires |w.waiting| < U64_MAX
    ensures LaneOk(w.(lanes := Reserve(w.lanes, lane), waiting := w.waiting + [Ticket(lane, 0, 0)]), j, up, down)
  {
    hide On, Lookup;
    OnSnoc(w.waiting, Ticket(lane, 0, 0), j, Each);
    OnAtMost(w.waiting, j);
  }

  /** A health update that moves no counter keeps the accounts. */
  lemma UpdateOk(w: World, i: nat, h: Health, j: nat, up: nat, down: nat)
    requires i < |w.lanes| && j < |w.lanes| && Placed(w) && LaneOk(w, j, up, down)
    requires up <= U64_MAX && down <= U64_MAX && w.lanes[i].id == i
    requires var o := w.lanes[i].health;
      h.active == o.active && h.pending == o.pending && h.bytesUp == o.bytesUp && h.bytesDown == o.bytesDown
    ensures LaneOk(Update(w, i, h), j, up, down)
  {
    hide Score, On, Published, Lookup;
    PutOk(w, Update(w, i, h), i, j, up, down);
  }

  lemma OpenSuccessOk(w: World, k: nat, latencyMs: u64, now: nat, j: nat, up: nat, down: nat)
    requires Placed(w) && k < |w.waiting| && w.waiting[k].lane < |w.lanes| && j < |w.lanes|
    requires LaneOk(w, j, up, down) && w.lanes[w.waiting[k].lane].id == w.waiting[k].lane
    requires up <= U64_MAX && down <= U64_MAX && |w.streams| < U64_MAX
    ensures LaneOk(DoOpenSuccess(w, k, latencyMs, now), j, up, down)
  {
    hide Score, On, Published, Lookup, Without;
    var i := w.waiting[k].lane;
    OnWithout(w.waiting, k, j, Each);
    OnSnoc(w.streams, Ticket(i, 0, 0), j, Each);
    OnSnoc(w.streams, Ticket(i, 0, 0), j, Up);
    OnSnoc(w.streams, Ticket(i, 0, 0), j, Down);
    OnAtMost(w.streams, j);
    PutOk(w, DoOpenSuccess(w, k, latencyMs, now), i, j, up, down);
  }

  lemma ReleaseOk(w: World, k: nat, now: nat, j: nat, up: nat, down: nat)
    requires Placed(w) && k < |w.waiting| && w.waiting[k].lane < |w.lanes| && j < |w.lanes|
    requires LaneOk(w, j, up, down) && w.lanes[w.waiting[k].lane].id == w.waiting[k].lane
    requires up <= U64_MAX && down <= U64_MAX
    ensures LaneOk(DoRelease(w, k, now), j, up, down)
  {
    hide Score, On, Published, Lookup, Without;
    OnWithout(w.waiting, k, j, Each);
    PutOk(w, DoRelease(w, k, now), w.waiting[k].lane, j, up, down);
  }

  lemma RecordOk(w: World, k: nat, elapsedNanos: nat, now: nat, j: nat, up: nat, down: nat)
    requires Placed(w) && k < |w.streams| && w.streams[k].lane < |w.lanes| && j < |w.lanes|
    requires LaneOk(w, j, up, down) && w.lanes[w.streams[k].lane].id == w.streams[k].lane
    requires up <= U64_MAX && down <= U64_MAX
    ensures LaneOk(DoRecord(w, k, elapsedNanos, now), j, up, down)
  {
    hide Score, On, Published, Lookup, Without, Ewma, BitsPerSecond;
    OnWithout(w.streams, k, j, Each);
    OnWithout(w.streams, k, j, Up);
    OnWithout(w.streams, k, j, Down);
    PutOk(w, DoRecord(w, k, elapsedNanos, now), w.streams[k].lane, j, up, down);
  }

  lemma PollOk(w: World, k: nat, up: u64, down: u64, j: nat, before: nat, beforeDown: nat)
    requires Placed(w) && k < |w.streams| && w.streams[k].lane < |w.lanes| && j < |w.lanes|
    requires LaneOk(w, j, before, beforeDown)
    requires w.streams[k].lane == j ==> before + up as nat <= U64_MAX && beforeDown + down as nat <= U64_MAX
    ensures var hit := w.streams[k].lane == j;
      LaneOk(DoPoll(w, k, up, down), j,
             before + if hit then up as nat else 0, beforeDown + if hit then down as nat else 0)
  {
    hide On, Added, Lookup;
    var t := w.streams[k];
    var now := Ticket(t.lane, SatAdd(t.up, up), SatAdd(t.down, down));
    OnUpdate(w.streams, k, now, j, Each);
    OnUpdate(w.streams, k, now, j, Up);
    OnUpdate(w.streams, k, now, j, Down);
    OnWithout(w.streams, k, j, Each);
    OnWithout(w.streams, k, j, Up);
    OnWithout(w.streams, k, j, Down);
    AddedLookup(w.board, t.lane, up, down, j);
  }

  // ------------------------------------------------------------------- every step

  lemma MeteredStep(steps: seq<Step>, s: Step, lane: nat, part: Part)
    requires part != Each
    ensures Metered(steps + [s], lane, part)
      == Metered(steps, lane, part)
         + if s.Poll? && s.lane == lane then (if part == Up then s.up as nat else s.down as nat) else 0
  {
    assert (steps + [s])[..|steps|] == steps;
  }

  lemma StepOk(w: World, steps: seq<Step>, s: Step, j: nat)
    requires Enabled(w, s) && Agrees(w, steps) && j < |w.lanes|
    requires |steps| < U64_MAX
    requires Metered(steps + [s], j, Up) <= U64_MAX && Metered(steps + [s], j, Down) <= U64_MAX
    ensures |Apply(w, s).lanes| == |w.lanes|
    ensures LaneOk(Apply(w, s), j, Metered(steps + [s], j, Up), Metered(steps + [s], j, Down))
  {
    hide LaneOk, Metered, Score, Placed, IsChoice, Pruned;
    MeteredStep(steps, s, j, Up);
    MeteredStep(steps, s, j, Down);
    var up, down := Metered(steps, j, Up), Metered(steps, j, Down);
    assert LaneOk(w, j, up, down);
    IdsOk(w, steps);
    match s
    case ReserveLane(kind, busy, lane) =>
      ChoiceExists(w.lanes, busy, kind, lane);
      ReserveOk(w, lane, j, up, down);
    case Announce(lane, now) => UpdateOk(w, lane, w.lanes[lane].health.(lastActivity := Some(now)), j, up, down);
    case OpenSuccess(k, latencyMs, now) => OpenSuccessOk(w, k, latencyMs, now, j, up, down);
    case Release(k, now) => ReleaseOk(w, k, now, j, up, down);
    case LaneError(lane, now) =>
      var h := w.lanes[lane].health;
      UpdateOk(w, lane, h.(failures := SatAdd(h.failures, 1), lastActivity := Some(now), lastError := true), j, up, down);
    case LaneConnected(lane, now) =>
      UpdateOk(w, lane, w.lanes[lane].health.(lastActivity := Some(now), lastError := false), j, up, down);
    case SetControl(lane, on) => ControlOk(w, w.lanes[lane := w.lanes[lane].(connected := on)], j, up, down);
    case RttSample(lane, ms, now) =>
      var h := w.lanes[lane].health;
      UpdateOk(w, lane, h.(lastRttMs := Some(ms), rttTrendMs := Trimmed(h.rttTrendMs + [ms]), lastActivity := Some(now)), j, up, down);
    case Poll(k, _, u, d) => PollOk(w, k, u, d, j, up, down);
    case Record(k, elapsedNanos, now) => RecordOk(w, k, elapsedNanos, now, j, up, down);
    case PruneLanes(minimum, clock, after) =>
      PrunedShape(w.lanes, after, minimum, clock, j);
      ControlOk(w, after, j, up, down);
  }

  lemma ChoiceExists(lanes: seq<Lane>, busy: set<nat>, kind: Kind, i: nat)
    requires IsChoice(lanes, busy, kind, i)
    ensures i < |lanes|
  {}

  lemma PrunedShape(before: seq<Lane>, after: seq<Lane>, minimum: nat, clock: nat -> nat, j: nat)
    requires Pruned(before, after, minimum, clock) && j < |before|
    ensures |after| == |before| && after[j] == before[j].(connected := after[j].connected)
  {}

  lemma ControlOk(w: World, after: seq<Lane>, j: nat, up: nat, down: nat)
    requires j < |w.lanes| == |after| && LaneOk(w, j, up, down)
    requires after[j] == w.lanes[j].(connected := after[j].connected)
    ensures LaneOk(w.(lanes := after), j, up, down)
  {}

  lemma IdsOk(w: World, steps: seq<Step>)
    requires Agrees(w, steps)
    ensures forall i | 0 <= i < |w.lanes| :: w.lanes[i].id == i
  {
    forall i | 0 <= i < |w.lanes|
      ensures w.lanes[i].id == i
    {
      assert LaneOk(w, i, Metered(steps, i, Up), Metered(steps, i, Down));
    }
  }

  lemma StepPlaced(w: World, steps: seq<Step>, s: Step)
    requires Enabled(w, s) && Agrees(w, steps)
    ensures Placed(Apply(w, s))
    ensures |Apply(w, s).waiting| + |Apply(w, s).streams| <= |steps| + 1
  {
    hide LaneOk, Score, Eligible, Published, Added;
    match s
    case Poll(_, lane, up, down) => AddedOrdered(w.board, lane, up, down);
    case ReserveLane(_, _, _) =>
    case SetControl(_, _) =>
    case PruneLanes(_, _, _) =>
    case _ =>
      forall row
        ensures Ordered(Published(w.board, row))
      {
        PublishedOrdered(w.board, row);
      }
  }

  /** Over every run the books balance: recorded plus in-flight bytes of a lane are the bytes the
      polls metered on it and the bytes its published row shows; its pending and active counts are
      its unresolved reservations and its unrecorded streams. */
  lemma {:induction false} LaneAccountsAgree(w: World, steps: seq<Step>)
    requires Fresh(w) && Follows(w, steps) && InRange(w, steps)
    ensures |Run(w, steps).lanes| == |w.lanes|
    ensures Agrees(Run(w, steps), steps)
  {
    hide LaneOk, Apply, Enabled, Placed;
    if steps == [] {
      FreshAgrees(w);
    } else {
      var before, s := steps[..|steps| - 1], steps[|steps| - 1];
      assert steps == before + [s];
      MeteredGrows(w, before, s);
      LaneAccountsAgree(w, before);
      var v := Run(w, before);
      StepPlaced(v, before, s);
      StepKeepsLanes(v, s);
      forall i | 0 <= i < |v.lanes|
        ensures LaneOk(Apply(v, s), i, Metered(steps, i, Up), Metered(steps, i, Down))
      {
        StepOk(v, before, s, i);
      }
    }
  }

  lemma StepKeepsLanes(w: World, s: Step)
    requires Enabled(w, s)
    ensures |Apply(w, s).lanes| == |w.lanes|
  {
    hide Score, Published, Added;
  }

  lemma FreshAgrees(w: World)
    requires Fresh(w)
    ensures Agrees(w, [])
  {}

  lemma MeteredGrows(w: World, steps: seq<Step>, s: Step)
    requires InRange(w, steps + [s])
    ensures InRange(w, steps)
  {
    forall i | 0 <= i < |w.lanes|
      ensures Metered(steps, i, Up) <= U64_MAX && Metered(steps, i, Down) <= U64_MAX
    {
      MeteredStep(steps, s, i, Up);
      MeteredStep(steps, s, i, Down);
    }
  }

  // ------------------------------------------------------------------- consequences

  /** No saturating subtraction saturates: what is taken off a counter is there. */
  lemma NoSubtractionSaturates(w: World, steps: seq<Step>, k: nat)
    requires Fresh(w) && Follows(w, steps) && InRange(w, steps)
    ensures var v := Run(w, steps);
      && (k < |v.waiting| ==> v.waiting[k].lane < |v.lanes| && v.lanes[v.waiting[k].lane].health.pending >= 1)
      && (k < |v.streams| ==>
            var t := v.streams[k];
            && t.lane < |v.lanes|
            && v.lanes[t.lane].health.active >= 1
            && v.lanes[t.lane].inflightUp >= t.up
            && v.lanes[t.lane].inflightDown >= t.down)
  {
    LaneAccountsAgree(w, steps);
    TicketsAreCounted(Run(w, steps), steps, k);
  }

  lemma TicketsAreCounted(v: World, steps: seq<Step>, k: nat)
    requires Agrees(v, steps)
    ensures k < |v.waiting| ==> v.lanes[v.waiting[k].lane].health.pending >= 1
    ensures k < |v.streams| ==>
      var t := v.streams[k];
      v.lanes[t.lane].health.active >= 1 && v.lanes[t.lane].inflightUp >= t.up && v.lanes[t.lane].inflightDown >= t.down
  {
    hide On, Metered, Lookup;
    if k < |v.waiting| {
      var i := v.waiting[k].lane;
      assert LaneOk(v, i, Metered(steps, i, Up), Metered(steps, i, Down));
      OnWithout(v.waiting, k, i, Each);
    }
    if k < |v.streams| {
      var i := v.streams[k].lane;
      assert LaneOk(v, i, Metered(steps, i, Up), Metered(steps, i, Down));
      OnWithout(v.streams, k, i, Each);
      OnWithout(v.streams, k, i, Up);
      OnWithout(v.streams, k, i, Down);
    }
  }

  /** In every run, pruning disconnects no lane that carries a stream or a reservation. */
  lemma PruningSparesLiveLanes(w: World, steps: seq<Step>, minimum: nat, clock: nat -> nat, after: seq<Lane>, t: Ticket)
    requires Fresh(w) && Follows(w, steps) && InRange(w, steps)
    requires Pruned(Run(w, steps).lanes, after, minimum, clock)
    requires t in Run(w, steps).waiting || t in Run(w, steps).streams
    ensures t.lane < |after| && after[t.lane] == Run(w, steps).lanes[t.lane]
  {
    hide Run, Follows, InRange, Connected;
    var v := Run(w, steps);
    LaneAccountsAgree(w, steps);
    if t in v.waiting {
      var k :| 0 <= k < |v.waiting| && v.waiting[k] == t;
      TicketsAreCounted(v, steps, k);
    } else {
      var k :| 0 <= k < |v.streams| && v.streams[k] == t;
      TicketsAreCounted(v, steps, k);
    }
  }
}
