/** What the health of a lane remembers of a run, and what its score makes of it
    (crates/espejismo-client/src/tunnel.rs). */
module LaneRecords {
  import opened Prelude
  import opened Lanes
  import opened Boards
  import opened LaneAccounts

  // ------------------------------------------------------------------ what happened

  /** The lane whose health a step writes. */
  function LaneOf(w: World, s: Step): Option<nat>
    requires Enabled(w, s)
  {
    match s
    case OpenSuccess(k, _, _) => Some(w.waiting[k].lane)
    case Release(k, _) => Some(w.waiting[k].lane)
    case Record(k, _, _) => Some(w.streams[k].lane)
    case Announce(lane, _) => Some(lane)
    case LaneError(lane, _) => Some(lane)
    case LaneConnected(lane, _) => Some(lane)
    case RttSample(lane, _, _) => Some(lane)
    case _ => None
  }

  /** Reference: the steps of a run that wrote the health of a lane, in order. */
  function Written(w: World, steps: seq<Step>, lane: nat): seq<Step>
    requires Follows(w, steps)
  {
    if steps == [] then []
    else
      var before := steps[..|steps| - 1];
      var last := steps[|steps| - 1];
      Written(w, before, lane) + if LaneOf(Run(w, before), last) == Some(lane) then [last] else []
  }

  function Opens(written: seq<Step>): nat {
    if written == [] then 0
    else Opens(written[..|written| - 1]) + if written[|written| - 1].OpenSuccess? then 1 else 0
  }

  function Failures(written: seq<Step>): nat {
    if written == [] then 0
    else Failures(written[..|written| - 1]) + if written[|written| - 1].LaneError? then 1 else 0
  }

  function Samples(written: seq<Step>): seq<u64> {
    if written == [] then []
    else
      var last := written[|written| - 1];
      Samples(written[..|written| - 1]) + if last.RttSample? then [last.ms] else []
  }

  /** The last thing heard about a lane was an error: neither an open nor a connection came after it. */
  predicate Failing(written: seq<Step>) {
    written != [] &&
    var last := written[|written| - 1];
    last.LaneError? || (!last.OpenSuccess? && !last.LaneConnected? && Failing(written[..|written| - 1]))
  }

  function LastLatency(written: seq<Step>): u64 {
    if written == [] then 0
    else
      var last := written[|written| - 1];
      if last.OpenSuccess? then last.latencyMs else LastLatency(written[..|written| - 1])
  }

  function When(s: Step): nat {
    match s
    case OpenSuccess(_, _, now) => now
    case Release(_, now) => now
    case Record(_, _, now) => now
    case Announce(_, now) => now
    case LaneError(_, now) => now
    case LaneConnected(_, now) => now
    case RttSample(_, _, now) => now
    case _ => 0
  }

  function LastSixteen(samples: seq<u64>): seq<u64> {
    samples[if |samples| <= 16 then 0 else |samples| - 16..]
  }

  ghost predicate Remembers(h: Health, written: seq<Step>) {
    && h.opens as nat == Min(U64_MAX, Opens(written))
    && h.failures as nat == Min(U64_MAX, Failures(written))
    && h.rttTrendMs == LastSixteen(Samples(written))
    && h.lastRttMs == (if Samples(written) == [] then None else Some(Samples(written)[|Samples(written)| - 1]))
    && h.openLatencyMs == LastLatency(written)
    && (h.lastError <==> Failing(written))
    && h.lastActivity == (if written == [] then None else Some(When(written[|written| - 1])))
  }

  // -------------------------------------------------------------------- one step

  lemma TrimSnoc(samples: seq<u64>, ms: u64)
    ensures Trimmed(LastSixteen(samples) + [ms]) == LastSixteen(samples + [ms])
  {}

  /** A step that writes the health of a lane. */
  lemma WriterRemembers(w: World, s: Step, lane: nat, written: seq<Step>)
    requires Enabled(w, s) && lane < |w.lanes| && LaneOf(w, s) == Some(lane)
    requires Remembers(w.lanes[lane].health, written)
    ensures |Apply(w, s).lanes| == |w.lanes| && Remembers(Apply(w, s).lanes[lane].health, written + [s])
  {
    hide Score, Published, Added, Ewma, BitsPerSecond, Trimmed, LastSixteen;
    var more := written + [s];
    assert more[..|more| - 1] == written;
    if s.RttSample? {
      TrimSnoc(Samples(written), s.ms);
    } else {
      ConcatEmpty(Samples(written));
    }
  }

  /** Any other step leaves its records alone. */
  lemma OthersRemember(w: World, s: Step, lane: nat, written: seq<Step>)
    requires Enabled(w, s) && lane < |w.lanes| && LaneOf(w, s) != Some(lane)
    requires Remembers(w.lanes[lane].health, written)
    ensures |Apply(w, s).lanes| == |w.lanes| && Remembers(Apply(w, s).lanes[lane].health, written)
  {
    hide Score, Published, Added, Ewma, BitsPerSecond, Trimmed, LastSixteen, Opens, Failures, Samples, Failing, LastLatency, When;
    if s.PruneLanes? {
      PrunedShape(w.lanes, s.after, s.minimum, s.clock, lane);
    }
  }

  /** Over every run of a new pool: the health of a lane holds the number of its opens and of its failures,
      its last sixteen round trips, the latency of its last open, whether it is failing, and when it was
      last heard of. */
  lemma {:induction false} HealthIsHistory(w: World, steps: seq<Step>, lane: nat)
    requires Fresh(w) && Follows(w, steps) && lane < |w.lanes|
    ensures |Run(w, steps).lanes| == |w.lanes|
    ensures Remembers(Run(w, steps).lanes[lane].health, Written(w, steps, lane))
    decreases |steps|
  {
    if steps != [] {
      var before, last := steps[..|steps| - 1], steps[|steps| - 1];
      HealthIsHistory(w, before, lane);
      var v := Run(w, before);
      var written := Written(w, before, lane);
      hide Remembers, Apply, Fresh, Enabled;
      ConcatEmpty(written);
      if LaneOf(v, last) == Some(lane) {
        WriterRemembers(v, last, lane, written);
      } else {
        OthersRemember(v, last, lane, written);
      }
    }
  }

  /** A lane may be pruned only when nothing happened on it for five minutes. */
  lemma PrunedAfterFiveMinutes(w: World, steps: seq<Step>, lane: nat, connected: nat, minimum: nat, now: nat)
    requires Fresh(w) && Follows(w, steps) && lane < |w.lanes|
    ensures |Run(w, steps).lanes| == |w.lanes|
    ensures var written := Written(w, steps, lane);
      var l := Run(w, steps).lanes[lane];
      ShouldPrune(connected, minimum, l.health, now) <==>
        && connected > minimum && l.health.active == 0 && l.health.pending == 0
        && written != [] && now >= When(written[|written| - 1]) + 300_000_000_000
  {
    HealthIsHistory(w, steps, lane);
    hide Run, Written, Opens, Failures, Samples, Failing, LastLatency, LastSixteen;
  }

  // ----------------------------------------------------------------------- scoring

  function Sum(samples: seq<u64>): nat {
    if samples == [] then 0 else samples[0] as nat + Sum(samples[1..])
  }

  lemma {:induction false} SumSaturates(samples: seq<u64>, from: u64)
    ensures SumRtts(samples, from) as nat == Min(U64_MAX, from as nat + Sum(samples))
  {
    if samples != [] {
      SumSaturates(samples[1..], SatAdd(from, samples[0]));
    }
  }

  /** The round trip a score uses is the mean of the samples, rounded down. */
  lemma RoundTripIsMean(h: Health)
    requires h.rttTrendMs != [] && Sum(h.rttTrendMs) <= U64_MAX
    ensures var n := |h.rttTrendMs|;
      n * AverageRttMs(h) as nat <= Sum(h.rttTrendMs) < n * (AverageRttMs(h) as nat + 1)
  {
    var n, total := |h.rttTrendMs|, Sum(h.rttTrendMs);
    SumSaturates(h.rttTrendMs, 0);
    Rounded(total, n);
  }

  lemma Rounded(a: nat, d: nat)
    requires d > 0
    ensures d * (a / d) <= a < d * (a / d + 1)
  {
    assert a == d * (a / d) + a % d;
    assert d * (a / d + 1) == d * (a / d) + d;
  }

  /** Failures weigh as the share of failed opens, two hundred million for all of them. */
  lemma FailuresWeighAsShare(h: Health)
    requires 0 < h.opens as nat + h.failures as nat <= U64_MAX / 200_000_000
    ensures var all := h.opens as nat + h.failures as nat;
      all * FailurePenalty(h) as nat <= 200_000_000 * h.failures as nat < all * (FailurePenalty(h) as nat + 1)
  {
    Rounded(200_000_000 * h.failures as nat, h.opens as nat + h.failures as nat);
  }

  /** One point of credit per kilobit in a second, both ways together, up to half a stream. */
  lemma ThroughputIsCredited(h: Health)
    requires h.bpsUp as nat + h.bpsDown as nat <= U64_MAX
    ensures var bps := h.bpsUp as nat + h.bpsDown as nat;
      if bps >= 500_000_000 then Lanes.Credit(h) == 500_000
      else 1_000 * Lanes.Credit(h) as nat <= bps < 1_000 * (Lanes.Credit(h) as nat + 1)
  {}

  /** In a score where one stream is a million: a thousand for each millisecond of round trip, a hundred for
      each of open latency, five hundred streams for a standing error. */
  lemma DelaysWeigh(h: Health)
    requires AverageRttMs(h) as nat <= U64_MAX / 1_000 && h.openLatencyMs as nat <= U64_MAX / 100
    ensures Penalty(h) == FailurePenalty(h) as nat + (if h.lastError then 500 * 1_000_000 else 0)
      + 1_000 * AverageRttMs(h) as nat + 100 * h.openLatencyMs as nat
  {
    hide FailurePenalty, AverageRttMs;
  }

  /** The rate a finished stream reports: its bits over its seconds, rounded down. */
  lemma RateIsBitsOverTime(bytes: u64, elapsedNanos: nat)
    requires elapsedNanos > 0 && 8 * bytes as nat * 1_000_000_000 <= U64_MAX * elapsedNanos
    ensures var bps := BitsPerSecond(bytes, elapsedNanos) as nat;
      bps * elapsedNanos <= 8 * bytes as nat * 1_000_000_000 < (bps + 1) * elapsedNanos
  {
    var bits := 8 * bytes as nat * 1_000_000_000;
    assert bits == bytes as nat * 8_000_000_000;
    Rounded(bits, elapsedNanos);
    if bits / elapsedNanos > U64_MAX {
      TimesMore(elapsedNanos, U64_MAX + 1, bits / elapsedNanos);
    }
    Commutes(bits / elapsedNanos, elapsedNanos);
    Commutes(bits / elapsedNanos + 1, elapsedNanos);
  }

  lemma TimesMore(d: nat, x: nat, y: nat)
    requires d > 0 && x <= y
    ensures d * x <= d * y
    ensures x > 0 ==> d * x > d * (x - 1)
  {
    assert d * y == d * x + d * (y - x);
    if x > 0 {
      assert d * x == d * (x - 1) + d;
    }
  }

  lemma Commutes(x: nat, y: nat)
    ensures x * y == y * x
  {}

  /** The running rate takes a quarter of the way to each new sample; it stays between the two, and a
      steady sample is a fixed point. */
  lemma RateFollowsSamples(previous: u64, sample: u64)
    requires 3 * previous as nat + sample as nat <= U64_MAX
    ensures previous == 0 ==> Ewma(previous, sample) == sample
    ensures previous > 0 ==>
      4 * Ewma(previous, sample) as nat <= 3 * previous as nat + sample as nat < 4 * (Ewma(previous, sample) as nat + 1)
    ensures previous > 0 ==> Min(previous, sample) <= Ewma(previous, sample) as nat <= Max(previous, sample)
    ensures 4 * sample as nat <= U64_MAX ==> Ewma(sample, sample) == sample
  {}

  // --------------------------------------------------------------------- selection

  /** Selection has exactly one answer as long as there are lanes: of the wanted kind if there is one. */
  lemma OneChoice(lanes: seq<Lane>, busy: set<nat>, kind: Kind)
    requires lanes != []
    ensures exists i: nat :: IsChoice(lanes, busy, kind, i)
    ensures forall i: nat, j: nat | IsChoice(lanes, busy, kind, i) && IsChoice(lanes, busy, kind, j) :: i == j
    ensures forall i: nat | IsChoice(lanes, busy, kind, i) ::
      lanes[i].kind == kind <==> exists j | 0 <= j < |lanes| :: lanes[j].kind == kind
  {
    hide Score;
    if HasKind(lanes, kind) {
      var k :| 0 <= k < |lanes| && lanes[k].kind == kind;
      assert Eligible(lanes, kind, k);
    } else {
      assert Eligible(lanes, kind, 0);
    }
    var i := FirstLeast(lanes, busy, kind, |lanes|);
    assert IsChoice(lanes, busy, kind, i);
  }

  /** The first least score among the eligible of the first `n` lanes. */
  lemma FirstLeast(lanes: seq<Lane>, busy: set<nat>, kind: Kind, n: nat) returns (i: nat)
    requires n <= |lanes| && exists k | 0 <= k < n :: Eligible(lanes, kind, k)
    ensures i < n && Eligible(lanes, kind, i)
    ensures forall j | 0 <= j < n && Eligible(lanes, kind, j) :: ScoreAt(lanes, busy, i) <= ScoreAt(lanes, busy, j)
    ensures forall j | 0 <= j < i && Eligible(lanes, kind, j) :: ScoreAt(lanes, busy, i) < ScoreAt(lanes, busy, j)
  {
    hide Score, Eligible, ScoreAt;
    if exists k | 0 <= k < n - 1 :: Eligible(lanes, kind, k) {
      i := FirstLeast(lanes, busy, kind, n - 1);
      if Eligible(lanes, kind, n - 1) && ScoreAt(lanes, busy, n - 1) < ScoreAt(lanes, busy, i) {
        i := n - 1;
      }
    } else {
      i := n - 1;
    }
  }
}
