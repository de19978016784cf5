/** The tunnel lane pool as values: scores, lane selection, reservation and idle pruning
    (crates/espejismo-client/src/tunnel.rs). */
module Lanes {
  import opened Prelude

  datatype Kind = Interactive | Bulk

  /** The counters of `LaneHealth` that scoring, pruning and accounting read. Instants are
      nanoseconds. */
  datatype Health = Health(
    active: u64,
    pending: u64,
    opens: u64,
    failures: u64,
    bytesUp: u64,
    bytesDown: u64,
    bpsUp: u64,
    bpsDown: u64,
    openLatencyMs: u64,
    lastRttMs: Option<u64>,
    rttTrendMs: seq<u64>,
    lastActivity: Option<nat>,
    lastError: bool)

  datatype Lane = Lane(id: nat, kind: Kind, connected: bool, health: Health, inflightUp: u64, inflightDown: u64)

  const NEW_HEALTH := Health(0, 0, 0, 0, 0, 0, 0, 0, 0, None, [], None, false)

  function SatAdd(a: u64, b: u64): u64 {
    Min(U64_MAX, a as nat + b as nat)
  }

  function SatMul(a: u64, b: u64): u64 {
    Min(U64_MAX, a as nat * b as nat)
  }

  function SatSub(a: u64, b: u64): u64 {
    if b <= a then a as nat - b as nat else 0
  }

  // ---------------------------------------------------------------------- scoring

  function SumRtts(rtts: seq<u64>, sum: u64): u64 {
    if rtts == [] then sum else SumRtts(rtts[1..], SatAdd(sum, rtts[0]))
  }

  function AverageRttMs(h: Health): u64 {
    if h.rttTrendMs != [] then Quotient(SumRtts(h.rttTrendMs, 0), |h.rttTrendMs|)
    else if h.lastRttMs.Some? then h.lastRttMs.value
    else 0
  }

  function Quotient(a: u64, d: nat): u64
    requires d > 0
  {
    QuotientFits(a, d);
    a as nat / d
  }

  lemma QuotientFits(a: nat, d: nat)
    requires d > 0
    ensures 0 <= a / d <= a
  {
    var q := a / d;
    assert a == d * q + a % d;
    TimesPositive(d, q);
  }

  lemma TimesPositive(d: int, q: int)
    requires d >= 1
    ensures q >= 0 ==> d * q >= q
    ensures q < 0 ==> d * q <= q
  {
    assert d * q == (d - 1) * q + q;
  }

  function Load(h: Health): u64 {
    SatAdd(h.active, h.pending)
  }

  function FailurePenalty(h: Health): u64 {
    Quotient(SatMul(h.failures, 200_000_000), Max(SatAdd(h.opens, h.failures), 1))
  }

  function Credit(h: Health): u64 {
    Min(Quotient(SatAdd(h.bpsUp, h.bpsDown), 1_000), 500_000)
  }

  /** `lane_score_from_health`, saturating operation by saturating operation. */
  function Score(h: Health): u64 {
    SatSub(
      SatAdd(
        SatAdd(
          SatAdd(
            SatAdd(SatMul(Load(h), 1_000_000), FailurePenalty(h)),
            if h.lastError then 500_000_000 else 0),
          SatMul(AverageRttMs(h), 1_000)),
        SatMul(h.openLatencyMs, 100)),
      Credit(h))
  }

  /** Everything in a score that is neither load nor throughput credit. */
  function Penalty(h: Health): nat {
    FailurePenalty(h) as nat
    + (if h.lastError then 500_000_000 else 0)
    + SatMul(AverageRttMs(h), 1_000) as nat
    + SatMul(h.openLatencyMs, 100) as nat
  }

  /** The score as one sum, saturated once at the top and once at zero. */
  function Total(load: nat, penalty: nat, credit: nat): nat {
    var sum := Min(U64_MAX, 1_000_000 * load + penalty);
    if credit <= sum then sum - credit else 0
  }

  lemma ScoreIsTotal(h: Health)
    ensures Score(h) as nat == Total(Load(h) as nat, Penalty(h), Credit(h) as nat)
    ensures Credit(h) as nat <= 500_000
  {}

  /** One load and penalty scores below another whatever the two throughput credits are. */
  ghost predicate AlwaysBelow(low: nat, penalty: nat, high: nat, otherPenalty: nat) {
    forall c: nat, d: nat | c <= 500_000 && d <= 500_000 :: Total(low, penalty, c) < Total(high, otherPenalty, d)
  }

  /** A less loaded lane beats a more loaded one whatever their throughput credits are, exactly as
      long as the lower score is half a unit of load away from the top of u64. */
  lemma LowerLoadWins(low: nat, high: nat, penalty: nat)
    requires low < high
    ensures AlwaysBelow(low, penalty, high, penalty) <==> 1_000_000 * low + penalty + 500_000 < U64_MAX
  {
    if 1_000_000 * low + penalty + 500_000 >= U64_MAX {
      assert Total(low, penalty, 0) >= Total(high, penalty, 500_000);
    }
  }

  /** How bad news weighs against load: between lanes that are alike except for a standing error, the
      healthy one is preferred for all throughput credits exactly as long as it carries at most 499
      streams more. */
  lemma ErrorCostsFiveHundredStreams(good: Health, bad: Health)
    requires !good.lastError && bad == good.(active := bad.active, pending := bad.pending, lastError := true)
    requires 1_000_000 * Load(bad) as nat + Penalty(bad) <= U64_MAX
    ensures AlwaysBelow(Load(good) as nat, Penalty(good), Load(bad) as nat, Penalty(bad))
      <==> Load(good) as nat <= Load(bad) as nat + 499
  {
    assert Penalty(bad) == Penalty(good) + 500_000_000;
    if Load(good) as nat > Load(bad) as nat + 499 {
      assert Total(Load(good) as nat, Penalty(good), 0) >= Total(Load(bad) as nat, Penalty(bad), 500_000);
    }
  }

  /** Failures weigh at most two hundred streams, and that much exactly when no open ever succeeded. */
  lemma FailuresCostTwoHundredStreams(h: Health)
    requires h.opens as nat + h.failures as nat <= U64_MAX / 200_000_000
    ensures FailurePenalty(h) as nat <= 200_000_000
    ensures FailurePenalty(h) as nat == 200_000_000 <==> h.failures > 0 && h.opens == 0
    ensures h.failures == 0 ==> FailurePenalty(h) == 0
  {
    var attempts := Max(h.opens as nat + h.failures as nat, 1);
    var scaled := h.failures as nat * 200_000_000;
    QuotientBounds(scaled, attempts, 200_000_000);
    QuotientBounds(scaled, attempts, 200_000_001);
  }

  lemma QuotientBounds(a: nat, d: nat, q: nat)
    requires d > 0
    ensures a / d < q <==> a < d * q
  {
    var p := a / d;
    assert a == d * p + a % d;
    ScaleUp(d, q, p);
    ScaleUp(d, p + 1, q);
  }

  lemma ScaleUp(d: nat, x: nat, y: nat)
    ensures x <= y ==> d * x <= d * y
  {
    assert d * y == d * x + d * (y - x);
  }

  // -------------------------------------------------------------------- selection

  predicate HasKind(lanes: seq<Lane>, kind: Kind) {
    exists i | 0 <= i < |lanes| :: lanes[i].kind == kind
  }

  /** Lanes of the wanted kind, or all of them when there are none. */
  predicate Eligible(lanes: seq<Lane>, kind: Kind, i: nat)
    requires i < |lanes|
  {
    lanes[i].kind == kind || !HasKind(lanes, kind)
  }

  /** `lane_score`: a lane whose health is locked at that moment scores half of the range. */
  function ScoreAt(lanes: seq<Lane>, busy: set<nat>, i: nat): u64
    requires i < |lanes|
  {
    if i in busy then U64_MAX / 2 else Score(lanes[i].health)
  }

  /** The lane that selection returns: the first one with the least score among the eligible. */
  predicate IsChoice(lanes: seq<Lane>, busy: set<nat>, kind: Kind, i: nat) {
    && i < |lanes|
    && Eligible(lanes, kind, i)
    && (forall j | 0 <= j < |lanes| && Eligible(lanes, kind, j) :: ScoreAt(lanes, busy, i) <= ScoreAt(lanes, busy, j))
    && (forall j | 0 <= j < i && Eligible(lanes, kind, j) :: ScoreAt(lanes, busy, i) < ScoreAt(lanes, busy, j))
  }

  function Reserve(lanes: seq<Lane>, i: nat): (after: seq<Lane>)
    requires i < |lanes|
    ensures |after| == |lanes|
  {
    var h := lanes[i].health;
    lanes[i := lanes[i].(health := h.(pending := SatAdd(h.pending, 1)))]
  }

  // ---------------------------------------------------------------------- balance

  /** An open: the kind it asks for, the lanes whose health is locked when it selects, and the lane it
      is given. */
  datatype Request = Request(kind: Kind, busy: set<nat>, lane: nat)

  /** A run of reservations, each one going to the lane that selection returns. */
  predicate Chosen(lanes: seq<Lane>, requests: seq<Request>)
    decreases |requests|
  {
    requests == [] || (IsChoice(lanes, requests[0].busy, requests[0].kind, requests[0].lane)
                       && Chosen(Reserve(lanes, requests[0].lane), requests[1..]))
  }

  function ReserveAll(lanes: seq<Lane>, requests: seq<Request>): (after: seq<Lane>)
    requires Chosen(lanes, requests)
    ensures |after| == |lanes|
    decreases |requests|
  {
    if requests == [] then lanes else ReserveAll(Reserve(lanes, requests[0].lane), requests[1..])
  }

  predicate OfKind(lanes: seq<Lane>, kind: Kind, i: nat) {
    i < |lanes| && lanes[i].kind == kind
  }

  /** Lanes of one kind that differ at most in load and throughput, none loaded above `top`. */
  predicate Alike(lanes: seq<Lane>, kind: Kind, penalty: nat, top: nat) {
    forall i | 0 <= i < |lanes| && lanes[i].kind == kind ::
      && Penalty(lanes[i].health) == penalty
      && lanes[i].health.active as nat + lanes[i].health.pending as nat <= top
  }

  predicate WithinOne(lanes: seq<Lane>, kind: Kind) {
    forall i, j | 0 <= i < |lanes| && 0 <= j < |lanes| && lanes[i].kind == kind && lanes[j].kind == kind ::
      Load(lanes[i].health) as nat <= Load(lanes[j].health) as nat + 1
  }

  predicate Least(lanes: seq<Lane>, kind: Kind, i: nat) {
    && OfKind(lanes, kind, i)
    && forall j | 0 <= j < |lanes| && lanes[j].kind == kind :: Load(lanes[i].health) <= Load(lanes[j].health)
  }

  /** One reservation keeps the loads within one exactly when it goes to a least loaded lane. */
  lemma ReserveIsEvenIff(lanes: seq<Lane>, kind: Kind, i: nat)
    requires OfKind(lanes, kind, i) && WithinOne(lanes, kind)
    requires lanes[i].health.active as nat + lanes[i].health.pending as nat < U64_MAX
    ensures WithinOne(Reserve(lanes, i), kind) <==> Least(lanes, kind, i)
  {
    var after := Reserve(lanes, i);
    assert Load(after[i].health) as nat == Load(lanes[i].health) as nat + 1;
    if WithinOne(after, kind) {
      forall j | 0 <= j < |lanes| && lanes[j].kind == kind
        ensures Load(lanes[i].health) <= Load(lanes[j].health)
      {
        assert after[i].kind == kind && after[j].kind == kind;
      }
    }
  }

  // ------------------------------------------------------------ which lane is taken

  /** An idle lane that is taken before every locked one of its kind. */
  predicate IdleServes(lanes: seq<Lane>, busy: set<nat>, kind: Kind) {
    exists i | 0 <= i < |lanes| :: lanes[i].kind == kind && i !in busy && BeatsLocked(lanes, busy, kind, i)
  }

  predicate BeatsLocked(lanes: seq<Lane>, busy: set<nat>, kind: Kind, i: nat)
    requires i < |lanes|
  {
    forall j | 0 <= j < |lanes| && lanes[j].kind == kind && j in busy ::
      Score(lanes[i].health) < U64_MAX / 2 || (Score(lanes[i].health) == U64_MAX / 2 && i < j)
  }

  predicate FirstLocked(lanes: seq<Lane>, busy: set<nat>, kind: Kind, i: nat) {
    && OfKind(lanes, kind, i) && i in busy
    && forall j | 0 <= j < i && lanes[j].kind == kind :: j !in busy
  }

  /** What a selection needs to be even, on its inputs alone: while an idle lane is taken, some least
      loaded lane must be idle; otherwise the first locked lane must be a least loaded one. */
  predicate EvenChoice(lanes: seq<Lane>, busy: set<nat>, kind: Kind) {
    if IdleServes(lanes, busy, kind) then exists i | 0 <= i < |lanes| :: Least(lanes, kind, i) && i !in busy
    else exists i | 0 <= i < |lanes| :: Least(lanes, kind, i) && FirstLocked(lanes, busy, kind, i)
  }

  /** Among idle lanes the one selection returns is least loaded. */
  lemma ChoiceBeatsIdle(lanes: seq<Lane>, busy: set<nat>, kind: Kind, i: nat, j: nat, penalty: nat, top: nat)
    requires IsChoice(lanes, busy, kind, i) && OfKind(lanes, kind, i) && OfKind(lanes, kind, j)
    requires i !in busy && j !in busy
    requires Alike(lanes, kind, penalty, top)
    requires 1_000_000 * top + penalty + 500_000 < U64_MAX
    ensures Load(lanes[i].health) <= Load(lanes[j].health)
  {
    hide Score, Penalty, Credit;
    var a, b := lanes[i].health, lanes[j].health;
    ScoreIsTotal(a);
    ScoreIsTotal(b);
    assert Eligible(lanes, kind, j);
    assert ScoreAt(lanes, busy, i) <= ScoreAt(lanes, busy, j);
    if Load(b) < Load(a) {
      LowerLoadWins(Load(b) as nat, Load(a) as nat, penalty);
    }
  }

  lemma IdleChoiceServes(lanes: seq<Lane>, busy: set<nat>, kind: Kind, i: nat)
    requires IsChoice(lanes, busy, kind, i) && OfKind(lanes, kind, i) && i !in busy
    ensures IdleServes(lanes, busy, kind)
  {
    hide Score;
    forall j | 0 <= j < |lanes| && lanes[j].kind == kind && j in busy
      ensures Score(lanes[i].health) < U64_MAX / 2 || (Score(lanes[i].health) == U64_MAX / 2 && i < j)
    {
      assert Eligible(lanes, kind, j);
      assert ScoreAt(lanes, busy, i) <= ScoreAt(lanes, busy, j);
      if j < i {
        assert ScoreAt(lanes, busy, i) < ScoreAt(lanes, busy, j);
      }
    }
    assert BeatsLocked(lanes, busy, kind, i);
  }

  lemma LockedChoiceIsFirst(lanes: seq<Lane>, busy: set<nat>, kind: Kind, i: nat)
    requires IsChoice(lanes, busy, kind, i) && OfKind(lanes, kind, i) && i in busy
    ensures FirstLocked(lanes, busy, kind, i) && !IdleServes(lanes, busy, kind)
  {
    hide Score;
    forall j | 0 <= j < |lanes| && lanes[j].kind == kind
      ensures j < i ==> j !in busy
      ensures j !in busy ==> !BeatsLocked(lanes, busy, kind, j)
    {
      assert Eligible(lanes, kind, j);
      assert ScoreAt(lanes, busy, i) <= ScoreAt(lanes, busy, j);
      if j < i {
        assert ScoreAt(lanes, busy, i) < ScoreAt(lanes, busy, j);
      }
    }
  }

  /** Selection returns a least loaded lane of its kind if and only if its inputs are even. */
  lemma ChoiceIsLeastLoadedIff(lanes: seq<Lane>, busy: set<nat>, kind: Kind, i: nat, penalty: nat, top: nat)
    requires IsChoice(lanes, busy, kind, i) && OfKind(lanes, kind, i)
    requires Alike(lanes, kind, penalty, top)
    requires 1_000_000 * top + penalty + 500_000 < U64_MAX
    ensures Least(lanes, kind, i) <==> EvenChoice(lanes, busy, kind)
  {
    hide IdleServes, Alike, IsChoice, Score, BeatsLocked;
    if i in busy {
      LockedChoiceIsFirst(lanes, busy, kind, i);
      forall j | FirstLocked(lanes, busy, kind, j)
        ensures j == i
      {}
    } else {
      IdleChoiceServes(lanes, busy, kind, i);
      if EvenChoice(lanes, busy, kind) {
        var k :| 0 <= k < |lanes| && Least(lanes, kind, k) && k !in busy;
        ChoiceBeatsIdle(lanes, busy, kind, i, k, penalty, top);
      }
    }
  }

  /** While scores stay below half of the range, a locked lane is taken only when all of its kind are
      locked: balance needs an idle least loaded lane, or all of them locked and the first least loaded. */
  lemma EvenChoiceBelowHalf(lanes: seq<Lane>, busy: set<nat>, kind: Kind, penalty: nat, top: nat)
    requires Alike(lanes, kind, penalty, top)
    requires 1_000_000 * top + penalty < U64_MAX / 2
    ensures EvenChoice(lanes, busy, kind) <==>
      || (exists i | 0 <= i < |lanes| :: Least(lanes, kind, i) && i !in busy)
      || ((forall j | 0 <= j < |lanes| && lanes[j].kind == kind :: j in busy)
          && exists i | 0 <= i < |lanes| :: Least(lanes, kind, i) && FirstLocked(lanes, busy, kind, i))
  {
    hide Score, Penalty, Credit;
    if i :| 0 <= i < |lanes| && lanes[i].kind == kind && i !in busy {
      ScoreIsTotal(lanes[i].health);
      assert BeatsLocked(lanes, busy, kind, i);
    }
  }

  /** A run of opens meets a lane of this kind. */
  predicate Serves(lanes: seq<Lane>, asked: Kind, kind: Kind) {
    HasKind(lanes, kind) && (asked == kind || !HasKind(lanes, asked))
  }

  /** A request is served by a lane of a kind exactly when it asks for that kind or its own has no
      lanes, and then it could as well have asked for it. */
  lemma ChoiceOfKind(lanes: seq<Lane>, r: Request, kind: Kind)
    requires IsChoice(lanes, r.busy, r.kind, r.lane)
    ensures lanes[r.lane].kind == kind <==> Serves(lanes, r.kind, kind)
    ensures lanes[r.lane].kind == kind ==> IsChoice(lanes, r.busy, kind, r.lane)
  {
    hide Score;
    assert HasKind(lanes, lanes[r.lane].kind);
    if HasKind(lanes, r.kind) {
      assert lanes[r.lane].kind == r.kind;
    } else {
      forall j | 0 <= j < |lanes|
        ensures lanes[j].kind != r.kind && Eligible(lanes, r.kind, j)
      {}
    }
  }

  /** Every selection of a run that serves this kind is even. */
  predicate EvenRun(lanes: seq<Lane>, requests: seq<Request>, kind: Kind)
    requires Chosen(lanes, requests)
    decreases |requests|
  {
    requests == [] || ((Serves(lanes, requests[0].kind, kind) ==> EvenChoice(lanes, requests[0].busy, kind))
                       && EvenRun(Reserve(lanes, requests[0].lane), requests[1..], kind))
  }

  /** The loads are within one after every reservation of a run. */
  predicate StaysWithinOne(lanes: seq<Lane>, requests: seq<Request>, kind: Kind)
    requires Chosen(lanes, requests)
    decreases |requests|
  {
    requests == [] || (var next := Reserve(lanes, requests[0].lane);
                       WithinOne(next, kind) && StaysWithinOne(next, requests[1..], kind))
  }

  lemma ReserveKeepsAlike(lanes: seq<Lane>, kind: Kind, i: nat, penalty: nat, top: nat)
    requires i < |lanes| && Alike(lanes, kind, penalty, top)
    ensures Alike(Reserve(lanes, i), kind, penalty, top + 1)
  {
    hide FailurePenalty, AverageRttMs, Penalty;
    var after := Reserve(lanes, i);
    forall j | 0 <= j < |lanes| && after[j].kind == kind
      ensures Penalty(after[j].health) == penalty
      ensures after[j].health.active as nat + after[j].health.pending as nat <= top + 1
    {
      PenaltyIgnoresPending(lanes[j].health, after[j].health.pending);
    }
  }

  lemma PenaltyIgnoresPending(h: Health, pending: u64)
    ensures Penalty(h.(pending := pending)) == Penalty(h)
  {}

  lemma OneReservation(lanes: seq<Lane>, kind: Kind, r: Request, penalty: nat, top: nat)
    requires IsChoice(lanes, r.busy, r.kind, r.lane)
    requires Alike(lanes, kind, penalty, top) && WithinOne(lanes, kind)
    requires 1_000_000 * top + penalty + 500_000 < U64_MAX
    ensures WithinOne(Reserve(lanes, r.lane), kind)
      <==> (Serves(lanes, r.kind, kind) ==> EvenChoice(lanes, r.busy, kind))
  {
    hide Score, Penalty, EvenChoice, Serves;
    ChoiceOfKind(lanes, r, kind);
    if lanes[r.lane].kind == kind {
      ChoiceIsLeastLoadedIff(lanes, r.busy, kind, r.lane, penalty, top);
      hide IsChoice;
      ReserveIsEvenIff(lanes, kind, r.lane);
    }
  }

  /** Any number of reservations, of either kind and with any lanes locked: the loads of otherwise equal
      lanes of one kind stay within one of each other if and only if every selection is even. */
  lemma {:induction false} ReservationsStayWithinOneIff(lanes: seq<Lane>, requests: seq<Request>, kind: Kind, penalty: nat, top: nat)
    requires Chosen(lanes, requests)
    requires Alike(lanes, kind, penalty, top) && WithinOne(lanes, kind)
    requires 1_000_000 * (top + |requests|) + penalty + 500_000 < U64_MAX
    ensures StaysWithinOne(lanes, requests, kind) <==> EvenRun(lanes, requests, kind)
    decreases |requests|
  {
    hide Alike, WithinOne, Score, Eligible, Serves, EvenChoice;
    if requests != [] {
      var r := requests[0];
      OneReservation(lanes, kind, r, penalty, top);
      if WithinOne(Reserve(lanes, r.lane), kind) {
        ReserveKeepsAlike(lanes, kind, r.lane, penalty, top);
        ReservationsStayWithinOneIff(Reserve(lanes, r.lane), requests[1..], kind, penalty, top + 1);
      }
    }
  }

  /** When no open meets a locked lane of the kind, every selection is even. */
  predicate NoneLocked(lanes: seq<Lane>, requests: seq<Request>, kind: Kind) {
    forall n, i | 0 <= n < |requests| && 0 <= i < |lanes| && lanes[i].kind == kind :: i !in requests[n].busy
  }

  lemma {:induction false} UnlockedRunsAreEven(lanes: seq<Lane>, requests: seq<Request>, kind: Kind, penalty: nat, top: nat)
    requires Chosen(lanes, requests) && NoneLocked(lanes, requests, kind)
    requires Alike(lanes, kind, penalty, top)
    requires 1_000_000 * (top + |requests|) + penalty + 500_000 < U64_MAX
    ensures EvenRun(lanes, requests, kind)
    decreases |requests|
  {
    hide Alike, Score, Eligible, Serves;
    if requests != [] {
      var r := requests[0];
      ChoiceOfKind(lanes, r, kind);
      if lanes[r.lane].kind == kind {
        UnlockedChoiceIsEven(lanes, r.busy, kind, r.lane, penalty, top);
      }
      hide EvenChoice;
      ReserveKeepsAlike(lanes, kind, r.lane, penalty, top);
      UnlockedRunsAreEven(Reserve(lanes, r.lane), requests[1..], kind, penalty, top + 1);
    }
  }

  lemma UnlockedChoiceIsEven(lanes: seq<Lane>, busy: set<nat>, kind: Kind, i: nat, penalty: nat, top: nat)
    requires IsChoice(lanes, busy, kind, i) && OfKind(lanes, kind, i)
    requires forall j | 0 <= j < |lanes| && lanes[j].kind == kind :: j !in busy
    requires Alike(lanes, kind, penalty, top)
    requires 1_000_000 * top + penalty + 500_000 < U64_MAX
    ensures EvenChoice(lanes, busy, kind)
  {
    hide IdleServes, Alike, IsChoice, Score, EvenChoice;
    forall j | 0 <= j < |lanes| && lanes[j].kind == kind
      ensures Load(lanes[i].health) <= Load(lanes[j].health)
    {
      ChoiceBeatsIdle(lanes, busy, kind, i, j, penalty, top);
    }
    ChoiceIsLeastLoadedIff(lanes, busy, kind, i, penalty, top);
  }

  // --------------------------------------------------------------- pending counts

  predicate SameActive(lanes: seq<Lane>, kind: Kind, active: nat) {
    forall i | 0 <= i < |lanes| && lanes[i].kind == kind :: lanes[i].health.active as nat == active
  }

  predicate PendingWithinOne(lanes: seq<Lane>, kind: Kind) {
    forall i, j | 0 <= i < |lanes| && 0 <= j < |lanes| && lanes[i].kind == kind && lanes[j].kind == kind ::
      lanes[i].health.pending as nat <= lanes[j].health.pending as nat + 1
  }

  predicate PendingStaysWithinOne(lanes: seq<Lane>, requests: seq<Request>, kind: Kind)
    requires Chosen(lanes, requests)
    decreases |requests|
  {
    requests == [] || (var next := Reserve(lanes, requests[0].lane);
                       PendingWithinOne(next, kind) && PendingStaysWithinOne(next, requests[1..], kind))
  }

  lemma PendingIsLoad(lanes: seq<Lane>, kind: Kind, penalty: nat, active: nat, top: nat)
    requires SameActive(lanes, kind, active) && Alike(lanes, kind, penalty, top) && top <= U64_MAX
    ensures PendingWithinOne(lanes, kind) <==> WithinOne(lanes, kind)
  {
    hide Penalty;
    forall i | 0 <= i < |lanes| && lanes[i].kind == kind
      ensures Load(lanes[i].health) as nat == active + lanes[i].health.pending as nat
    {}
    if WithinOne(lanes, kind) {
      forall i, j | 0 <= i < |lanes| && 0 <= j < |lanes| && lanes[i].kind == kind && lanes[j].kind == kind
        ensures lanes[i].health.pending as nat <= lanes[j].health.pending as nat + 1
      {}
    }
  }

  lemma {:induction false} PendingStaysLikeLoad(lanes: seq<Lane>, requests: seq<Request>, kind: Kind, penalty: nat, active: nat, top: nat)
    requires Chosen(lanes, requests) && SameActive(lanes, kind, active)
    requires Alike(lanes, kind, penalty, top) && top + |requests| <= U64_MAX
    ensures PendingStaysWithinOne(lanes, requests, kind) <==> StaysWithinOne(lanes, requests, kind)
    decreases |requests|
  {
    hide Score, Eligible, Alike, WithinOne, PendingWithinOne, Penalty;
    if requests != [] {
      var next := Reserve(lanes, requests[0].lane);
      ReserveKeepsAlike(lanes, kind, requests[0].lane, penalty, top);
      assert SameActive(next, kind, active);
      PendingIsLoad(next, kind, penalty, active, top + 1);
      PendingStaysLikeLoad(next, requests[1..], kind, penalty, active, top + 1);
    }
  }

  /** In particular their pending counts: lanes that start with nothing pending and the same number of
      active streams share the opens evenly, at every moment, if and only if every selection is even. */
  lemma PendingWithinOneIff(lanes: seq<Lane>, requests: seq<Request>, kind: Kind, penalty: nat, active: nat)
    requires Chosen(lanes, requests)
    requires Alike(lanes, kind, penalty, active) && SameActive(lanes, kind, active)
    requires 1_000_000 * (active + |requests|) + penalty + 500_000 < U64_MAX
    ensures PendingStaysWithinOne(lanes, requests, kind) <==> EvenRun(lanes, requests, kind)
  {
    hide Chosen, Penalty, EvenRun, StaysWithinOne, PendingStaysWithinOne;
    ReservationsStayWithinOneIff(lanes, requests, kind, penalty, active);
    PendingStaysLikeLoad(lanes, requests, kind, penalty, active, active);
  }

  // ---------------------------------------------------------------- a locked lane

  /** Two equal lanes, the second with one stream. */
  const UNEVEN: seq<Lane> := [
    Lane(0, Interactive, true, NEW_HEALTH, 0, 0),
    Lane(1, Interactive, true, NEW_HEALTH.(active := 1), 0, 0)]

  /** A selection that finds the less loaded lane locked gives the next stream to the other one: the
      loads are two apart. */
  lemma LockedLaneTipsTheBalance()
    ensures WithinOne(UNEVEN, Interactive) && IsChoice(UNEVEN, {0}, Interactive, 1)
    ensures !WithinOne(Reserve(UNEVEN, 1), Interactive) && !EvenChoice(UNEVEN, {0}, Interactive)
  {
    hide Score, EvenChoice;
    var lanes := UNEVEN;
    ScoreIsTotal(lanes[1].health);
    assert Penalty(lanes[1].health) == 0;
    assert ScoreAt(lanes, {0}, 1) as nat <= 1_000_000 && ScoreAt(lanes, {0}, 0) == U64_MAX / 2;
    var after := Reserve(lanes, 1);
    assert Load(after[1].health) as nat == 2 && Load(after[0].health) == 0;
    assert Penalty(lanes[0].health) == 0;
    OneReservation(lanes, Interactive, Request(Interactive, {0}, 1), 0, 1);
    assert HasKind(lanes, Interactive);
  }

  // ------------------------------------------------------------ the saturated case

  /** Two lanes so loaded that the load term saturates, the first with full throughput credit. */
  const PILED: nat := 18_446_744_073_710

  function Overloaded(pending: u64): seq<Lane>
  {
    var h := NEW_HEALTH.(active := PILED, pending := pending);
    [Lane(0, Interactive, true, h.(bpsUp := 500_000_000), 0, 0),
     Lane(1, Interactive, true, NEW_HEALTH.(active := PILED), 0, 0)]
  }

  lemma OverloadedChoice(pending: u64)
    requires pending as nat <= 1_000_000
    ensures IsChoice(Overloaded(pending), {}, Interactive, 0)
  {
    hide Score, Penalty;
    var lanes := Overloaded(pending);
    ScoreIsTotal(lanes[0].health);
    ScoreIsTotal(lanes[1].health);
    assert Credit(lanes[0].health) == 500_000 && Credit(lanes[1].health) == 0;
    assert ScoreAt(lanes, {}, 0) < ScoreAt(lanes, {}, 1);
  }

  /** Above the bound every reservation goes to the same lane: the balance is lost for good. */
  lemma {:induction false} SaturatedScoresPileUp(pending: nat, n: nat)
    requires pending + n <= 1_000_000
    ensures Chosen(Overloaded(pending), seq(n, _ => Request(Interactive, {}, 0)))
    ensures ReserveAll(Overloaded(pending), seq(n, _ => Request(Interactive, {}, 0))) == Overloaded(pending + n)
    decreases n
  {
    hide IsChoice;
    if n > 0 {
      var lanes := Overloaded(pending);
      var requests := seq(n, _ => Request(Interactive, {}, 0));
      assert requests[1..] == seq(n - 1, _ => Request(Interactive, {}, 0));
      OverloadedChoice(pending);
      assert Reserve(lanes, 0) == Overloaded(pending + 1);
      SaturatedScoresPileUp(pending + 1, n - 1);
    }
  }

  // ---------------------------------------------------------------------- pruning

  const IDLE_AFTER: nat := 300_000_000_000

  predicate IdleLongEnough(lastActivity: Option<nat>, now: nat) {
    lastActivity.Some? && now >= lastActivity.value && now - lastActivity.value >= IDLE_AFTER
  }

  predicate ShouldPrune(connected: nat, minimum: nat, h: Health, now: nat) {
    connected > minimum && h.active == 0 && h.pending == 0 && IdleLongEnough(h.lastActivity, now)
  }

  function Connected(lanes: seq<Lane>): (n: nat)
    ensures n <= |lanes|
  {
    if lanes == [] then 0 else (if lanes[0].connected then 1 else 0) + Connected(lanes[1..])
  }

  /** Prunable at the instant it is looked at, with room above the minimum. */
  predicate Idle(lane: Lane, now: nat) {
    lane.connected && lane.health.active == 0 && lane.health.pending == 0 && IdleLongEnough(lane.health.lastActivity, now)
  }

  /** What one pass of pruning may do: only idle lanes lose their connection, never below the
      minimum, and none that is idle stays connected while there is room. */
  predicate Pruned(before: seq<Lane>, after: seq<Lane>, minimum: nat, clock: nat -> nat) {
    && |after| == |before|
    && (forall i | 0 <= i < |before| ::
          after[i] == before[i] || (Idle(before[i], clock(i)) && after[i] == before[i].(connected := false)))
    && Connected(after) >= Min(Connected(before), minimum)
    && (Connected(after) > minimum ==> forall i | 0 <= i < |after| :: !Idle(after[i], clock(i)))
  }

  lemma {:induction false} ConnectedUpdate(lanes: seq<Lane>, i: nat)
    requires i < |lanes| && lanes[i].connected
    ensures Connected(lanes[i := lanes[i].(connected := false)]) == Connected(lanes) - 1
    decreases |lanes|
  {
    var after := lanes[i := lanes[i].(connected := false)];
    if i == 0 {
      assert after[1..] == lanes[1..];
    } else {
      assert after[1..] == lanes[1..][i - 1 := lanes[i].(connected := false)];
      ConnectedUpdate(lanes[1..], i - 1);
    }
  }

  lemma {:induction false} ConnectedSnoc(lanes: seq<Lane>, n: nat)
    requires n < |lanes|
    ensures Connected(lanes[..n + 1]) == Connected(lanes[..n]) + if lanes[n].connected then 1 else 0
    decreases n
  {
    if n == 0 {
      assert lanes[..1] == [lanes[0]];
      assert lanes[..1][1..] == [];
    } else {
      ConnectedSnoc(lanes[1..], n - 1);
      assert lanes[..n + 1][1..] == lanes[1..][..n];
      assert lanes[..n][1..] == lanes[1..][..n - 1];
    }
  }
}
