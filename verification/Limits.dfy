/** Per-user quota and bandwidth limits over real time (crates/espejismo-server/src/limits.rs). */
module Limits {
  import opened Prelude

  /** Seconds. */
  type Duration = d: real | d >= 0.0

  datatype Config = Config(quota: Option<u64>, window: Duration, rate: Option<u64>)

  datatype Account = Account(config: Config, windowStarted: real, used: u64, nextSend: real)

  const NO_LIMITS := Config(None, 0.0, None)

  function NewAccount(config: Config, now: real): Account {
    Account(config, now, 0, now)
  }

  /** Clock readings are part of a call: one when the window is refreshed, one when the send time
      is planned. */
  datatype Call =
    | EnsureOpen(at: real)
    | Transfer(bytes: u64, at: real, sendAt: real)

  datatype Outcome = Open | Refused | Planned(wake: Option<real>) | Panicked

  // ------------------------------------------------------------------- single calls

  function RefreshWindow(a: Account, now: real): Account {
    if a.config.quota.Some? && a.config.window != 0.0 && now - a.windowStarted >= a.config.window
    then a.(windowStarted := now, used := 0)
    else a
  }

  function Charged(a: Account, bytes: u64): Option<Account> {
    if a.config.quota.None? then Some(a)
    else
      var next := Min(U64_MAX, a.used as nat + bytes as nat);
      if next > a.config.quota.value as nat then None else Some(a.(used := next))
  }

  /** A zero rate divides by zero, and the resulting duration panics. */
  function Throttled(a: Account, bytes: u64, now: real): (Account, Outcome) {
    if a.config.rate.None? then (a, Planned(None))
    else
      var wake := if a.nextSend < now then now else a.nextSend;
      if a.config.rate.value == 0 then (a.(nextSend := wake), Panicked)
      else (a.(nextSend := wake + bytes as real / a.config.rate.value as real), Planned(Some(wake)))
  }

  function DoEnsureOpen(a: Account, now: real): (Account, Outcome) {
    var b := RefreshWindow(a, now);
    (b, if b.config.quota.Some? && b.used >= b.config.quota.value then Refused else Open)
  }

  function DoTransfer(a: Account, bytes: u64, at: real, sendAt: real): (Account, Outcome) {
    if bytes == 0 then (a, Planned(None))
    else
      var b := RefreshWindow(a, at);
      match Charged(b, bytes)
      case None => (b, Refused)
      case Some(c) => Throttled(c, bytes, sendAt)
  }

  function Do(a: Account, c: Call): (Account, Outcome) {
    match c
    case EnsureOpen(at) => DoEnsureOpen(a, at)
    case Transfer(bytes, at, sendAt) => DoTransfer(a, bytes, at, sendAt)
  }

  // -------------------------------------------------------------------------- runs

  /** An accepted chunk: when it was charged, in which window, and when it may be sent. */
  datatype Entry = Entry(bytes: u64, at: real, window: real, sendAt: real, wake: Option<real>)

  /** Calls in clock order. */
  predicate Timely(calls: seq<Call>, from: real)
    decreases |calls|
  {
    calls == [] || (from <= calls[0].at
                    && (calls[0].Transfer? ==> calls[0].at <= calls[0].sendAt)
                    && Timely(calls[1..], Last(calls[0])))
  }

  function Last(c: Call): real {
    if c.Transfer? then c.sendAt else c.at
  }

  function After(a: Account, calls: seq<Call>): Account
    decreases |calls|
  {
    if calls == [] then a else After(Do(a, calls[0]).0, calls[1..])
  }

  /** The entry of a call, if it let bytes through. */
  function Accepted(a: Account, c: Call): seq<Entry> {
    if c.Transfer? && c.bytes > 0 && Do(a, c).1.Planned?
    then [Entry(c.bytes, c.at, Do(a, c).0.windowStarted, c.sendAt, Do(a, c).1.wake)]
    else []
  }

  function Log(a: Account, calls: seq<Call>): seq<Entry>
    decreases |calls|
  {
    if calls == [] then [] else Accepted(a, calls[0]) + Log(Do(a, calls[0]).0, calls[1..])
  }

  function Bytes(log: seq<Entry>): nat {
    if log == [] then 0 else log[0].bytes as nat + Bytes(log[1..])
  }

  // --------------------------------------------------------------------- bandwidth

  /** The time a number of bytes takes at a rate. */
  function Pace(bytes: nat, rate: nat): real
    requires rate > 0
  {
    bytes as real / rate as real
  }

  /** Every entry is planned no earlier than `from` plus the bytes before it at the rate. */
  predicate Paced(log: seq<Entry>, rate: nat, from: real)
    requires rate > 0
  {
    forall k | 0 <= k < |log| :: log[k].wake.Some? && from + Pace(Bytes(log[..k]), rate) <= log[k].wake.value
  }

  predicate PacedBetween(log: seq<Entry>, rate: nat, i: nat, j: nat)
    requires rate > 0 && i <= j < |log|
  {
    && log[i].wake.Some? && log[j].wake.Some?
    && log[i].wake.value + Pace(Bytes(log[i..j]), rate) <= log[j].wake.value
  }

  predicate WakesPaced(log: seq<Entry>, rate: nat)
    requires rate > 0
  {
    forall i, j | 0 <= i <= j < |log| :: PacedBetween(log, rate, i, j)
  }

  lemma AddPaces(a: nat, b: nat, rate: nat)
    requires rate > 0
    ensures Pace(a, rate) + Pace(b, rate) == Pace(a + b, rate)
  {
    assert (a + b) as real == a as real + b as real;
    DivideSum(a as real, b as real, rate as real);
  }

  lemma NoBytesNoTime(rate: nat)
    requires rate > 0
    ensures Pace(0, rate) == 0.0
  {}

  lemma DivideSum(x: real, y: real, r: real)
    requires r > 0.0
    ensures x / r + y / r == (x + y) / r
  {
    assert (x / r + y / r) * r == x + y;
  }

  lemma DoPlans(a: Account, c: Call, rate: nat)
    requires rate > 0 && a.config.rate == Some(rate)
    ensures var b := Do(a, c).0;
      && b.config == a.config
      && (Accepted(a, c) == [] ==> b.nextSend == a.nextSend)
      && (Accepted(a, c) != [] ==>
            var e := Accepted(a, c)[0];
            && Accepted(a, c) == [e]
            && e.wake.Some?
            && (e.wake.value == a.nextSend || e.wake.value == e.sendAt)
            && a.nextSend <= e.wake.value && e.sendAt <= e.wake.value
            && b.nextSend == e.wake.value + Pace(e.bytes as nat, rate))
  {}

  lemma {:induction false} NextSendOnlyGrows(a: Account, calls: seq<Call>, rate: nat)
    requires rate > 0 && a.config.rate == Some(rate)
    ensures Paced(Log(a, calls), rate, a.nextSend)
    decreases |calls|
  {
    hide Do, Accepted, Pace;
    if calls != [] {
      var c := calls[0];
      DoPlans(a, c, rate);
      var b := Do(a, c).0;
      NextSendOnlyGrows(b, calls[1..], rate);
      var rest := Log(b, calls[1..]);
      if Accepted(a, c) == [] {
        ConcatEmpty(rest);
        SoonerIsPaced(rest, rate, b.nextSend, a.nextSend);
      } else {
        PrependPaced(Accepted(a, c)[0], rest, rate, a.nextSend, b.nextSend);
      }
    }
  }

  lemma SoonerIsPaced(log: seq<Entry>, rate: nat, from: real, sooner: real)
    requires rate > 0 && sooner <= from && Paced(log, rate, from)
    ensures Paced(log, rate, sooner)
  {}

  lemma PrependPaced(e: Entry, rest: seq<Entry>, rate: nat, from: real, next: real)
    requires rate > 0 && Paced(rest, rate, next)
    requires e.wake.Some? && from <= e.wake.value && next == e.wake.value + Pace(e.bytes as nat, rate)
    ensures Paced([e] + rest, rate, from)
  {
    hide Pace;
    NoBytesNoTime(rate);
    var log := [e] + rest;
    forall k | 0 <= k < |log|
      ensures log[k].wake.Some? && from + Pace(Bytes(log[..k]), rate) <= log[k].wake.value
    {
      if k > 0 {
        assert log[..k][1..] == rest[..k - 1];
        AddPaces(e.bytes as nat, Bytes(rest[..k - 1]), rate);
        assert log[k] == rest[k - 1];
      } else {
        assert log[..0] == [];
      }
    }
  }

  lemma {:induction false} LogIsPaced(a: Account, calls: seq<Call>, rate: nat)
    requires rate > 0 && a.config.rate == Some(rate)
    ensures WakesPaced(Log(a, calls), rate)
    decreases |calls|
  {
    hide Do, Accepted, Pace;
    if calls != [] {
      var c := calls[0];
      DoPlans(a, c, rate);
      var b := Do(a, c).0;
      var rest := Log(b, calls[1..]);
      LogIsPaced(b, calls[1..], rate);
      if Accepted(a, c) == [] {
        ConcatEmpty(rest);
      } else {
        NextSendOnlyGrows(b, calls[1..], rate);
        PrependWakes(Accepted(a, c)[0], rest, rate, b.nextSend);
      }
    }
  }

  lemma PrependWakes(e: Entry, rest: seq<Entry>, rate: nat, next: real)
    requires rate > 0 && WakesPaced(rest, rate) && Paced(rest, rate, next)
    requires e.wake.Some? && next == e.wake.value + Pace(e.bytes as nat, rate)
    ensures WakesPaced([e] + rest, rate)
  {
    hide PacedBetween;
    forall i, j | 0 <= i <= j < |[e] + rest|
      ensures PacedBetween([e] + rest, rate, i, j)
    {
      if i == 0 {
        FirstWake(e, rest, rate, next, j);
      } else {
        LaterWake(e, rest, rate, i, j);
      }
    }
  }

  lemma FirstWake(e: Entry, rest: seq<Entry>, rate: nat, next: real, j: nat)
    requires rate > 0 && Paced(rest, rate, next) && j <= |rest|
    requires e.wake.Some? && next == e.wake.value + Pace(e.bytes as nat, rate)
    ensures PacedBetween([e] + rest, rate, 0, j)
  {
    hide Pace;
    PrependPaced(e, rest, rate, e.wake.value, next);
    assert ([e] + rest)[0..j] == ([e] + rest)[..j];
  }

  lemma LaterWake(e: Entry, rest: seq<Entry>, rate: nat, i: nat, j: nat)
    requires rate > 0 && 0 < i <= j <= |rest| && PacedBetween(rest, rate, i - 1, j - 1)
    ensures PacedBetween([e] + rest, rate, i, j)
  {
    hide Pace;
    assert ([e] + rest)[i..j] == rest[i - 1..j - 1];
  }

  /** Bandwidth over whole runs: between the send times of two accepted chunks no more bytes pass
      than the rate allows for the time between them. */
  lemma BandwidthBound(a: Account, calls: seq<Call>, rate: nat, i: nat, j: nat)
    requires rate > 0 && a.config.rate == Some(rate)
    requires i <= j < |Log(a, calls)|
    ensures var log := Log(a, calls);
      && log[i].wake.Some? && log[j].wake.Some?
      && Bytes(log[i..j]) as real <= rate as real * (log[j].wake.value - log[i].wake.value)
  {
    hide Log, Bytes;
    LogIsPaced(a, calls, rate);
    var log := Log(a, calls);
    assert PacedBetween(log, rate, i, j);
    ScaleUp(Bytes(log[i..j]) as real, rate as real, log[i].wake.value, log[j].wake.value);
  }

  lemma ScaleUp(b: real, r: real, from: real, to: real)
    requires r > 0.0 && from + b / r <= to
    ensures b <= r * (to - from)
  {
    var d := b / r;
    assert b == r * d;
    assert r * (to - from - d) >= 0.0;
  }

  /** And no chunk waits longer than that: each wake is the arrival of some chunk, or the backlog
      the account started with, followed without a gap by the bytes accepted since. */
  predicate NoIdling(log: seq<Entry>, rate: nat, from: real, j: nat)
    requires rate > 0 && j < |log| && log[j].wake.Some?
  {
    || log[j].wake.value == from + Pace(Bytes(log[..j]), rate)
    || exists i | 0 <= i <= j :: log[j].wake.value == log[i].sendAt + Pace(Bytes(log[i..j]), rate)
  }

  lemma {:induction false} WorkConserving(a: Account, calls: seq<Call>, rate: nat, j: nat)
    requires rate > 0 && a.config.rate == Some(rate)
    requires j < |Log(a, calls)|
    ensures Log(a, calls)[j].wake.Some? && Log(a, calls)[j].sendAt <= Log(a, calls)[j].wake.value
    ensures NoIdling(Log(a, calls), rate, a.nextSend, j)
    decreases |calls|
  {
    hide Do, Accepted, Pace;
    NoBytesNoTime(rate);
    var log := Log(a, calls);
    var c := calls[0];
    var b := Do(a, c).0;
    DoPlans(a, c, rate);
    var rest := Log(b, calls[1..]);
    if Accepted(a, c) == [] {
      ConcatEmpty(rest);
      WorkConserving(b, calls[1..], rate, j);
    } else {
      var e := log[0];
      assert log == [e] + rest;
      if j == 0 {
        assert log[..0] == [] && log[0..0] == [];
        assert e.wake.value == a.nextSend || e.wake.value == log[0].sendAt;
      } else {
        WorkConserving(b, calls[1..], rate, j - 1);
        PrependNoIdling(e, rest, rate, a.nextSend, b.nextSend, j);
      }
    }
  }

  lemma PrependNoIdling(e: Entry, rest: seq<Entry>, rate: nat, from: real, next: real, j: nat)
    requires rate > 0 && 0 < j <= |rest|
    requires e.wake.Some? && next == e.wake.value + Pace(e.bytes as nat, rate)
    requires e.wake.value == from || e.wake.value == e.sendAt
    requires rest[j - 1].wake.Some? && NoIdling(rest, rate, next, j - 1)
    ensures NoIdling([e] + rest, rate, from, j)
  {
    hide Pace;
    var log := [e] + rest;
    assert log[..j][1..] == rest[..j - 1];
    assert log[j] == rest[j - 1];
    if log[j].wake.value == next + Pace(Bytes(rest[..j - 1]), rate) {
      AddPaces(e.bytes as nat, Bytes(rest[..j - 1]), rate);
      assert log[0..j] == log[..j];
      assert log[j].wake.value == e.wake.value + Pace(Bytes(log[..j]), rate);
      if e.wake.value == e.sendAt {
        assert log[j].wake.value == log[0].sendAt + Pace(Bytes(log[0..j]), rate);
      }
    } else {
      var i :| 0 <= i <= j - 1 && rest[j - 1].wake.value == rest[i].sendAt + Pace(Bytes(rest[i..j - 1]), rate);
      assert log[i + 1..j] == rest[i..j - 1];
      assert log[j].wake.value == log[i + 1].sendAt + Pace(Bytes(log[i + 1..j]), rate);
    }
  }

  // ------------------------------------------------------------------------- quota

  /** Bytes accepted in the window that started at `window`. */
  function InWindow(log: seq<Entry>, window: real): nat {
    if log == [] then 0 else (if log[0].window == window then log[0].bytes as nat else 0) + InWindow(log[1..], window)
  }

  /** Bytes accepted in the half-open interval from `from` to `to`. */
  function Between(log: seq<Entry>, from: real, to: real): nat {
    if log == [] then 0
    else (if from <= log[0].at < to then log[0].bytes as nat else 0) + Between(log[1..], from, to)
  }

  /** Every chunk lies in its window, windows start at least one length apart, and none starts
      before `from` without having started there. */
  predicate Windowed(log: seq<Entry>, length: real, from: real) {
    && (forall k | 0 <= k < |log| :: log[k].window <= log[k].at < log[k].window + length)
    && (forall k | 0 <= k < |log| :: log[k].window == from || log[k].window >= from + length)
    && (forall k, l | 0 <= k <= l < |log| :: log[k].window == log[l].window || log[l].window >= log[k].window + length)
  }

  lemma {:induction false} LogIsWindowed(a: Account, calls: seq<Call>, from: real)
    requires a.config.quota.Some? && a.config.window > 0.0
    requires Timely(calls, from) && a.windowStarted <= from
    ensures Windowed(Log(a, calls), a.config.window, a.windowStarted)
    decreases |calls|
  {
    hide Do, Accepted, Windowed;
    if calls == [] {
      NothingWindowed(a.config.window, a.windowStarted);
    } else {
      var c := calls[0];
      var b := Do(a, c).0;
      DoKeepsWindow(a, c, from);
      LogIsWindowed(b, calls[1..], Last(c));
      var rest := Log(b, calls[1..]);
      if Accepted(a, c) == [] {
        ConcatEmpty(rest);
        WindowedFromEarlier(rest, a.config.window, b.windowStarted, a.windowStarted);
      } else {
        PrependWindowed(Accepted(a, c)[0], rest, a.config.window, a.windowStarted);
      }
    }
  }

  lemma DoKeepsWindow(a: Account, c: Call, from: real)
    requires a.config.quota.Some? && a.config.window > 0.0 && a.windowStarted <= from
    requires from <= c.at && (c.Transfer? ==> c.at <= c.sendAt)
    ensures var b := Do(a, c).0;
      && b.config == a.config
      && b.windowStarted <= Last(c)
      && (b.windowStarted == a.windowStarted || b.windowStarted >= a.windowStarted + a.config.window)
    ensures Accepted(a, c) != [] ==>
      var e := Accepted(a, c)[0];
      && Accepted(a, c) == [e]
      && e.window == Do(a, c).0.windowStarted
      && e.window <= e.at < e.window + a.config.window
  {}

  lemma NothingWindowed(length: real, from: real)
    ensures Windowed([], length, from)
  {}

  lemma WindowedFromEarlier(log: seq<Entry>, length: real, from: real, earlier: real)
    requires length > 0.0 && Windowed(log, length, from)
    requires from == earlier || from >= earlier + length
    ensures Windowed(log, length, earlier)
  {}

  lemma PrependWindowed(e: Entry, rest: seq<Entry>, length: real, from: real)
    requires length > 0.0 && e.window <= e.at < e.window + length
    requires e.window == from || e.window >= from + length
    requires Windowed(rest, length, e.window)
    ensures Windowed([e] + rest, length, from)
  {
    var log := [e] + rest;
    forall k | 0 <= k < |log|
      ensures log[k].window <= log[k].at < log[k].window + length
      ensures log[k].window == from || log[k].window >= from + length
    {
      if k > 0 {
        assert log[k] == rest[k - 1];
      }
    }
    forall k, l | 0 <= k <= l < |log|
      ensures log[k].window == log[l].window || log[l].window >= log[k].window + length
    {
      if l > 0 {
        assert log[l] == rest[l - 1];
        if k > 0 {
          assert log[k] == rest[k - 1];
        }
      }
    }
  }

  /** What is left of the quota bounds what the current window may still accept. */
  lemma {:induction false} WindowQuota(a: Account, calls: seq<Call>, from: real, quota: nat, window: real)
    requires a.config.quota == Some(quota) && quota < U64_MAX && a.used as nat <= quota && a.config.window > 0.0
    requires Timely(calls, from) && a.windowStarted <= from
    ensures InWindow(Log(a, calls), window) + (if window == a.windowStarted then a.used as nat else 0) <= quota
    decreases |calls|
  {
    if calls != [] {
      var c := calls[0];
      var b := Do(a, c).0;
      DoKeepsWindow(a, c, from);
      DoKeepsQuota(a, c, quota);
      WindowQuota(b, calls[1..], Last(c), quota, window);
      var rest := Log(b, calls[1..]);
      if Accepted(a, c) == [] {
        ConcatEmpty(rest);
        if b.windowStarted != a.windowStarted && window == a.windowStarted {
          NothingInOldWindow(b, calls[1..], Last(c), window);
        }
      } else {
        assert ([Accepted(a, c)[0]] + rest)[1..] == rest;
        if b.windowStarted != a.windowStarted && window == a.windowStarted {
          NothingInOldWindow(b, calls[1..], Last(c), window);
        }
      }
    }
  }

  lemma DoKeepsQuota(a: Account, c: Call, quota: nat)
    requires a.config.quota == Some(quota) && quota < U64_MAX && a.used as nat <= quota && a.config.window > 0.0
    ensures var b := Do(a, c).0;
      && b.used as nat <= quota
      && (Accepted(a, c) == [] && b.windowStarted == a.windowStarted ==> b.used >= a.used)
      && (Accepted(a, c) != [] ==>
            var e := Accepted(a, c)[0];
            && e.window == b.windowStarted
            && b.used as nat == e.bytes as nat + if b.windowStarted == a.windowStarted && !Refreshes(a, c) then a.used as nat else 0)
      && (Refreshes(a, c) ==> b.windowStarted == c.at)
      && (!Refreshes(a, c) ==> b.windowStarted == a.windowStarted)
  {}

  predicate Refreshes(a: Account, c: Call) {
    RefreshWindow(a, c.at) != a && !(c.Transfer? && c.bytes == 0)
  }

  lemma NothingInOldWindow(a: Account, calls: seq<Call>, from: real, window: real)
    requires a.config.quota.Some? && a.config.window > 0.0
    requires Timely(calls, from) && a.windowStarted <= from
    requires window < a.windowStarted
    ensures InWindow(Log(a, calls), window) == 0
  {
    LogIsWindowed(a, calls, from);
    NoneInWindow(Log(a, calls), window);
  }

  lemma {:induction false} NoneInWindow(log: seq<Entry>, window: real)
    requires forall k | 0 <= k < |log| :: log[k].window != window
    ensures InWindow(log, window) == 0
  {
    if log != [] {
      NoneInWindow(log[1..], window);
    }
  }

  /** At most the quota in every window and at most twice the quota in every half-open interval of
      one window length. */
  lemma QuotaPerWindowAndInterval(a: Account, calls: seq<Call>, from: real, quota: nat, window: real, t: real)
    requires a.config.quota == Some(quota) && quota < U64_MAX && a.used as nat <= quota && a.config.window > 0.0
    requires Timely(calls, from) && a.windowStarted <= from
    ensures InWindow(Log(a, calls), window) <= quota
    ensures Between(Log(a, calls), t, t + a.config.window) <= 2 * quota
  {
    hide Log, InWindow, Between;
    forall w
      ensures InWindow(Log(a, calls), w) <= quota
    {
      WindowQuota(a, calls, from, quota, w);
    }
    LogIsWindowed(a, calls, from);
    IntervalQuota(Log(a, calls), a.config.window, a.windowStarted, t, quota);
  }

  lemma {:induction false} IntervalQuota(log: seq<Entry>, length: real, from: real, t: real, quota: nat)
    requires length > 0.0 && Windowed(log, length, from)
    requires forall w :: InWindow(log, w) <= quota
    ensures Between(log, t, t + length) <= 2 * quota
    decreases |log|
  {
    if log != [] {
      if !(t <= log[0].at < t + length) {
        forall w
          ensures InWindow(log[1..], w) <= quota
        {
          assert InWindow(log, w) <= quota;
        }
        IntervalQuota(log[1..], length, from, t, quota);
      } else {
        TwoWindowsReach(log, length, from, t, quota);
      }
    }
  }

  /** Only two windows reach into an interval of one length. */
  lemma TwoWindowsReach(log: seq<Entry>, length: real, from: real, t: real, quota: nat)
    requires length > 0.0 && Windowed(log, length, from)
    requires forall w :: InWindow(log, w) <= quota
    requires log != [] && t <= log[0].at < t + length
    ensures Between(log, t, t + length) <= 2 * quota
  {
    hide InWindow, Between;
    var first := log[0].window;
    if k :| 0 <= k < |log| && t <= log[k].at < t + length && log[k].window != first {
      var second := log[k].window;
      forall l | 0 <= l < |log| && t <= log[l].at < t + length
        ensures log[l].window == first || log[l].window == second
      {
        var early, late := if k <= l then k else l, if k <= l then l else k;
        assert log[early].window == log[late].window || log[late].window >= log[early].window + length;
      }
      CoveredBy(log, t, t + length, first, second);
      assert InWindow(log, first) <= quota && InWindow(log, second) <= quota;
    } else {
      CoveredBy(log, t, t + length, first, first);
      assert InWindow(log, first) <= quota;
    }
  }

  lemma {:induction false} CoveredBy(log: seq<Entry>, from: real, to: real, first: real, second: real)
    requires forall k | 0 <= k < |log| && from <= log[k].at < to :: log[k].window == first || log[k].window == second
    ensures Between(log, from, to) <= InWindow(log, first) + InWindow(log, second)
  {
    if log != [] {
      CoveredBy(log[1..], from, to, first, second);
    }
  }

  /** A quota of `u64::MAX` never refuses, because the sum saturates: per-window accounting holds
      over all runs exactly for the smaller quotas. */
  ghost predicate QuotaHolds(config: Config)
    requires config.quota.Some?
  {
    forall calls: seq<Call>, now: real, window: real | Timely(calls, now) ::
      InWindow(Log(NewAccount(config, now), calls), window) <= config.quota.value as nat
  }

  lemma QuotaHoldsIffBelowMax(config: Config)
    requires config.quota.Some? && config.window > 0.0
    requires config.rate.Some? ==> config.rate.value > 0
    ensures QuotaHolds(config) <==> config.quota.value as nat < U64_MAX
  {
    if config.quota.value as nat < U64_MAX {
      forall calls: seq<Call>, now: real, window: real | Timely(calls, now)
        ensures InWindow(Log(NewAccount(config, now), calls), window) <= config.quota.value as nat
      {
        WindowQuota(NewAccount(config, now), calls, now, config.quota.value as nat, window);
      }
    } else {
      MaxQuotaLeaks(config);
    }
  }

  lemma MaxQuotaLeaks(config: Config)
    requires config.quota == Some(U64_MAX) && config.window > 0.0
    requires config.rate.Some? ==> config.rate.value > 0
    ensures !QuotaHolds(config)
  {
    var c := Transfer(U64_MAX, 0.0, 0.0);
    var calls := [c, c];
    var a := NewAccount(config, 0.0);
    assert calls[1..] == [c] && [c][1..] == [];
    var b := Do(a, c).0;
    assert Accepted(a, c) != [] && Accepted(a, c)[0].window == 0.0;
    assert Accepted(b, c) != [] && Accepted(b, c)[0].window == 0.0;
    var log := Log(a, calls);
    assert Log(b, [c]) == Accepted(b, c) + Log(Do(b, c).0, []);
    assert log == [Accepted(a, c)[0], Accepted(b, c)[0]];
    TwoInWindow(log[0], log[1]);
    assert InWindow(log, 0.0) > U64_MAX;
    assert Timely(calls, 0.0);
  }

  lemma TwoInWindow(e: Entry, f: Entry)
    requires e.window == f.window
    ensures InWindow([e, f], e.window) == e.bytes as nat + f.bytes as nat
  {
    assert [e, f][1..] == [f] && [f][1..] == [];
    assert InWindow([f], e.window) == f.bytes as nat;
  }

  /** Without a window length nothing is ever given back: the quota bounds the whole run. */
  lemma {:induction false} QuotaForever(a: Account, calls: seq<Call>, quota: nat)
    requires a.config.quota == Some(quota) && quota < U64_MAX && a.used as nat <= quota && a.config.window == 0.0
    ensures a.used as nat + Bytes(Log(a, calls)) <= quota
    decreases |calls|
  {
    if calls != [] {
      var c := calls[0];
      var b := Do(a, c).0;
      QuotaForever(b, calls[1..], quota);
      var rest := Log(b, calls[1..]);
      if Accepted(a, c) == [] {
        ConcatEmpty(rest);
      } else {
        assert ([Accepted(a, c)[0]] + rest)[1..] == rest;
      }
    }
  }

  // ---------------------------------------------------------------------- registry

  /** Unknown users are created on demand, without limits; zero bytes touch nothing. */
  function DoFor(accounts: map<string, Account>, user: string, c: Call): (map<string, Account>, Outcome) {
    if c.Transfer? && c.bytes == 0 then (accounts, Planned(None))
    else
      var a := if user in accounts then accounts[user] else NewAccount(NO_LIMITS, c.at);
      (accounts[user := Do(a, c).0], Do(a, c).1)
  }

  function RunFor(accounts: map<string, Account>, calls: seq<(string, Call)>): map<string, Account>
    decreases |calls|
  {
    if calls == [] then accounts else RunFor(DoFor(accounts, calls[0].0, calls[0].1).0, calls[1..])
  }

  function Own(calls: seq<(string, Call)>, user: string): seq<Call> {
    if calls == [] then [] else (if calls[0].0 == user then [calls[0].1] else []) + Own(calls[1..], user)
  }

  /** Reference: the account a user's own calls start from. An unknown user gets one without limits at
      the first call that is not a transfer of zero bytes. */
  function Start(accounts: map<string, Account>, own: seq<Call>, user: string): Option<Account> {
    if user in accounts then Some(accounts[user])
    else if own == [] then None
    else if own[0].Transfer? && own[0].bytes == 0 then Start(accounts, own[1..], user)
    else Some(NewAccount(NO_LIMITS, own[0].at))
  }

  /** Users do not share anything: the account of any user, configured or created on demand, is after a
      mixed run the one its own calls alone lead to. */
  lemma {:induction false} UsersAreIndependent(accounts: map<string, Account>, calls: seq<(string, Call)>, user: string)
    ensures var start := Start(accounts, Own(calls, user), user);
      && (user in RunFor(accounts, calls) <==> start.Some?)
      && (start.Some? ==> RunFor(accounts, calls)[user] == After(start.value, Own(calls, user)))
    decreases |calls|
  {
    if calls != [] {
      var next := DoFor(accounts, calls[0].0, calls[0].1).0;
      UsersAreIndependent(next, calls[1..], user);
      var rest := Own(calls[1..], user);
      if calls[0].0 == user {
        assert ([calls[0].1] + rest)[1..] == rest;
        if user !in accounts && next == accounts {
          assert calls[0].1.Transfer? && calls[0].1.bytes == 0;
        }
      } else {
        ConcatEmpty(rest);
        SameStart(accounts, next, rest, user);
      }
    }
  }

  lemma {:induction false} SameStart(a: map<string, Account>, b: map<string, Account>, own: seq<Call>, user: string)
    requires user in a <==> user in b
    requires user in a ==> a[user] == b[user]
    ensures Start(a, own, user) == Start(b, own, user)
  {
    if own != [] {
      SameStart(a, b, own[1..], user);
    }
  }

  function Opened(configs: seq<(string, Config)>, now: real): map<string, Account> {
    if configs == [] then map[]
    else
      var last := configs[|configs| - 1];
      Opened(configs[..|configs| - 1], now)[last.0 := NewAccount(last.1, now)]
  }

  /** A configured user starts with nothing used; the last configuration of a name wins. */
  lemma {:induction false} AccountsStartEmpty(configs: seq<(string, Config)>, now: real, i: nat)
    requires i < |configs| && forall j | i < j < |configs| :: configs[j].0 != configs[i].0
    ensures configs[i].0 in Opened(configs, now)
    ensures Opened(configs, now)[configs[i].0] == NewAccount(configs[i].1, now)
  {
    var n := |configs| - 1;
    if i < n {
      assert configs[..n][i] == configs[i];
      AccountsStartEmpty(configs[..n], now, i);
    }
  }

  class UserLimitRegistry {
    var inner: map<string, Account>

    constructor (configs: seq<(string, Config)>, now: real)
      ensures inner == Opened(configs, now)
    {
      var states: map<string, Account> := map[];
      var i := 0;
      while i < |configs|
        invariant 0 <= i <= |configs|
        invariant states == Opened(configs[..i], now)
      {
        assert configs[..i + 1][..i] == configs[..i];
        states := states[configs[i].0 := NewAccount(configs[i].1, now)];
        i := i + 1;
      }
      assert configs[..i] == configs;
      inner := states;
    }

    method StateForUser(user: string, now: real) returns (state: Account)
      modifies this
      ensures state == if user in old(inner) then old(inner)[user] else NewAccount(NO_LIMITS, now)
      ensures inner == old(inner)[user := state]
    {
      if user !in inner {
        inner := inner[user := NewAccount(NO_LIMITS, now)];
      }
      state := inner[user];
    }

    method EnsureOpenFor(user: string, at: real) returns (outcome: Outcome)
      modifies this
      ensures (inner, outcome) == DoFor(old(inner), user, EnsureOpen(at))
    {
      var state := StateForUser(user, at);
      if state.config.quota.Some? && state.config.window != 0.0 && at - state.windowStarted >= state.config.window {
        state := state.(windowStarted := at, used := 0);
      }
      inner := inner[user := state];
      assert inner == old(inner)[user := state];
      if state.config.quota.Some? && state.used >= state.config.quota.value {
        return Refused;
      }
      outcome := Open;
    }

    method AccountAndThrottle(user: string, bytes: u64, at: real, sendAt: real) returns (outcome: Outcome)
      modifies this
      ensures (inner, outcome) == DoFor(old(inner), user, Transfer(bytes, at, sendAt))
    {
      if bytes == 0 {
        return Planned(None);
      }
      var state := StateForUser(user, at);
      if state.config.quota.Some? && state.config.window != 0.0 && at - state.windowStarted >= state.config.window {
        state := state.(windowStarted := at, used := 0);
      }
      if state.config.quota.Some? {
        var next := Min(U64_MAX, state.used as nat + bytes as nat);
        if next > state.config.quota.value as nat {
          inner := inner[user := state];
          assert inner == old(inner)[user := state];
          return Refused;
        }
        state := state.(used := next);
      }
      outcome := Planned(None);
      if state.config.rate.Some? {
        if state.nextSend < sendAt {
          state := state.(nextSend := sendAt);
        }
        var wake := state.nextSend;
        if state.config.rate.value == 0 {
          outcome := Panicked;
        } else {
          state := state.(nextSend := wake + bytes as real / state.config.rate.value as real);
          outcome := Planned(Some(wake));
        }
      }
      inner := inner[user := state];
      assert inner == old(inner)[user := state];
    }
  }
}
