/** When a user's calls are refused, told from the calls and the bytes let through alone
    (crates/espejismo-server/src/limits.rs). */
module Quotas {
  import opened Prelude
  import opened Limits

  // ------------------------------------------------------------ windows from the calls

  /** A transfer of zero bytes does not look at the account. */
  predicate Touches(c: Call) {
    c.EnsureOpen? || c.bytes > 0
  }

  /** Reference: the start of the running window. A window ends at the first call a whole length or
      more after its start, and that call starts the next one. */
  function WindowStart(length: real, start: real, calls: seq<Call>): real
    decreases |calls|
  {
    if calls == [] then start
    else
      var c := calls[0];
      WindowStart(length, if Touches(c) && c.at >= start + length then c.at else start, calls[1..])
  }

  /** Reference: the window a call at `t` falls in. */
  function WindowOf(length: real, start: real, calls: seq<Call>, t: real): real {
    var running := WindowStart(length, start, calls);
    if t >= running + length then t else running
  }

  // ------------------------------------------------------------------ what was charged

  /** The entry of a call that was not refused. A zero rate makes the call panic after the charge. */
  function Passed(a: Account, c: Call): seq<Entry> {
    if c.Transfer? && c.bytes > 0 && !Do(a, c).1.Refused?
    then [Entry(c.bytes, c.at, Do(a, c).0.windowStarted, c.sendAt, if Do(a, c).1.Planned? then Do(a, c).1.wake else None)]
    else []
  }

  function Ledger(a: Account, calls: seq<Call>): seq<Entry>
    decreases |calls|
  {
    if calls == [] then [] else Passed(a, calls[0]) + Ledger(Do(a, calls[0]).0, calls[1..])
  }

  /** Without a zero rate the ledger is the log of accepted chunks. */
  lemma {:induction false} LedgerIsLog(a: Account, calls: seq<Call>)
    requires a.config.rate != Some(0)
    ensures Ledger(a, calls) == Log(a, calls)
    decreases |calls|
  {
    if calls != [] {
      LedgerIsLog(Do(a, calls[0]).0, calls[1..]);
    }
  }

  // ------------------------------------------------------------------------ one window

  lemma {:induction false} WindowsAdvance(length: real, start: real, calls: seq<Call>)
    requires length > 0.0
    ensures WindowStart(length, start, calls) >= start
    decreases |calls|
  {
    if calls != [] {
      var c := calls[0];
      WindowsAdvance(length, if Touches(c) && c.at >= start + length then c.at else start, calls[1..]);
    }
  }

  predicate NoneAfter(log: seq<Entry>, window: real) {
    forall k | 0 <= k < |log| :: log[k].window <= window
  }

  /** What one call does to the running window and its total. */
  lemma CallCharges(a: Account, c: Call)
    requires a.config.quota.Some? && a.config.window > 0.0
    ensures var b := Do(a, c).0;
      var turns := Touches(c) && c.at >= a.windowStarted + a.config.window;
      var before := if turns then 0 else a.used as nat;
      && b.config == a.config
      && b.windowStarted == (if turns then c.at else a.windowStarted)
      && b.used as nat == Min(U64_MAX, before + Bytes(Passed(a, c)))
      && |Passed(a, c)| <= 1
      && (Passed(a, c) != [] ==> Passed(a, c)[0].window == b.windowStarted)
  {
    if Passed(a, c) != [] {
      OneEntry(Passed(a, c)[0]);
    }
  }

  lemma OneEntry(e: Entry)
    ensures Bytes([e]) == e.bytes as nat
    ensures InWindow([e], e.window) == e.bytes as nat
    ensures forall w | w != e.window :: InWindow([e], w) == 0
  {
    assert [e][1..] == [];
  }

  lemma InWindowFirst(first: seq<Entry>, rest: seq<Entry>, window: real)
    requires |first| <= 1
    ensures InWindow(first + rest, window) == InWindow(first, window) + InWindow(rest, window)
    ensures Bytes(first + rest) == Bytes(first) + Bytes(rest)
  {
    if first == [] {
      ConcatEmpty(rest);
    } else {
      OneEntry(first[0]);
      ConcatTail(first, rest);
      assert first == [first[0]];
      assert first[1..] + rest == rest;
    }
  }

  ghost predicate Booked(a: Account, calls: seq<Call>) {
    var end := After(a, calls);
    var running := WindowStart(a.config.window, a.windowStarted, calls);
    var carried := if running == a.windowStarted then a.used as nat else 0;
    && end.config == a.config
    && end.windowStarted == running
    && end.used as nat == Min(U64_MAX, carried + InWindow(Ledger(a, calls), running))
    && NoneAfter(Ledger(a, calls), running)
  }

  /** The counter is the running window's share of the ledger, up to saturation. */
  lemma {:induction false} CounterIsLedger(a: Account, calls: seq<Call>)
    requires a.config.quota.Some? && a.config.window > 0.0
    ensures Booked(a, calls)
    decreases |calls|
  {
    hide Do, Passed;
    if calls != [] {
      var c, rest := calls[0], calls[1..];
      var b := Do(a, c).0;
      CallCharges(a, c);
      CounterIsLedger(b, rest);
      WindowsAdvance(a.config.window, b.windowStarted, rest);
      var running := WindowStart(a.config.window, b.windowStarted, rest);
      InWindowFirst(Passed(a, c), Ledger(b, rest), running);
      if Passed(a, c) != [] {
        OneEntry(Passed(a, c)[0]);
        assert Passed(a, c) == [Passed(a, c)[0]];
      }
    }
  }

  lemma {:induction false} NewWindowIsEmpty(log: seq<Entry>, running: real, t: real)
    requires NoneAfter(log, running) && running < t
    ensures InWindow(log, t) == 0
  {
    if log != [] {
      var rest := log[1..];
      assert forall k | 0 <= k < |rest| :: rest[k] == log[k + 1];
      NewWindowIsEmpty(rest, running, t);
    }
  }

  /** The answers an account gives at `t` when `spent` bytes already count against its quota: an open is
      refused exactly when they reach the quota, a transfer exactly when it would pass it (a sum that
      saturates never passes the largest quota). */
  ghost predicate AnswersFor(a: Account, quota: nat, spent: nat, t: real) {
    && Do(a, EnsureOpen(t)).1 == (if spent >= quota then Refused else Open)
    && forall bytes: u64, sendAt: real | bytes > 0 ::
         var answer := Do(a, Transfer(bytes, t, sendAt)).1;
         && (answer.Refused? <==> spent + bytes as nat > quota && quota < U64_MAX)
         && (!answer.Refused? ==> (answer.Panicked? <==> a.config.rate == Some(0)) && !answer.Open?)
  }

  /** Over every run of a fresh account with a quota per window: what counts at `t` are the bytes the
      ledger holds for the window `t` falls in. */
  lemma QuotaAnswers(config: Config, now: real, calls: seq<Call>, t: real)
    requires config.quota.Some? && config.window > 0.0
    ensures var a := NewAccount(config, now);
      var spent := InWindow(Ledger(a, calls), WindowOf(config.window, now, calls, t));
      AnswersFor(After(a, calls), config.quota.value as nat, spent, t)
  {
    var a := NewAccount(config, now);
    CounterIsLedger(a, calls);
    var running := WindowStart(config.window, now, calls);
    if t >= running + config.window {
      NewWindowIsEmpty(Ledger(a, calls), running, t);
    }
    hide After, Ledger, WindowStart, InWindow;
    QuotaDecides(After(a, calls), InWindow(Ledger(a, calls), WindowOf(config.window, now, calls, t)), t);
  }

  lemma QuotaDecides(a: Account, spent: nat, t: real)
    requires a.config.quota.Some?
    requires a.config.window >= 0.0
    requires if a.config.window > 0.0 && t >= a.windowStarted + a.config.window then spent == 0 else a.used as nat == Min(U64_MAX, spent)
    ensures AnswersFor(a, a.config.quota.value as nat, spent, t)
  {}

  // ------------------------------------------------------------- no window, no quota

  lemma {:induction false} CounterNeverReset(a: Account, calls: seq<Call>)
    requires a.config.quota.Some? && a.config.window == 0.0
    ensures After(a, calls).config == a.config
    ensures After(a, calls).used as nat == Min(U64_MAX, a.used as nat + Bytes(Ledger(a, calls)))
    decreases |calls|
  {
    hide Do, Passed;
    if calls != [] {
      var c, rest := calls[0], calls[1..];
      var b := Do(a, c).0;
      CallChargesForever(a, c);
      CounterNeverReset(b, rest);
      InWindowFirst(Passed(a, c), Ledger(b, rest), 0.0);
    }
  }

  lemma CallChargesForever(a: Account, c: Call)
    requires a.config.quota.Some? && a.config.window == 0.0
    ensures var b := Do(a, c).0;
      && b.config == a.config
      && b.used as nat == Min(U64_MAX, a.used as nat + Bytes(Passed(a, c)))
      && |Passed(a, c)| <= 1
  {
    if Passed(a, c) != [] {
      OneEntry(Passed(a, c)[0]);
    }
  }

  /** With a window of zero length everything ever let through counts. */
  lemma QuotaAnswersForever(config: Config, now: real, calls: seq<Call>, t: real)
    requires config.quota.Some? && config.window == 0.0
    ensures var a := NewAccount(config, now);
      AnswersFor(After(a, calls), config.quota.value as nat, Bytes(Ledger(a, calls)), t)
  {
    var a := NewAccount(config, now);
    CounterNeverReset(a, calls);
    hide After, Ledger, Bytes;
    QuotaDecides(After(a, calls), Bytes(Ledger(a, calls)), t);
  }

  /** Without a quota nothing is refused. */
  lemma {:induction false} NoQuotaNeverRefuses(a: Account, calls: seq<Call>, c: Call)
    requires a.config.quota.None?
    ensures After(a, calls).config == a.config
    ensures Do(After(a, calls), c).1 != Refused
    ensures c.EnsureOpen? ==> Do(After(a, calls), c).1 == Open
    decreases |calls|
  {
    if calls != [] {
      NoQuotaNeverRefuses(Do(a, calls[0]).0, calls[1..], c);
    }
  }

  // ------------------------------------------------------------------------ registry

  /** A configured user is answered by that user's own calls alone. */
  lemma RegistryAnswers(configs: seq<(string, Config)>, i: nat, now: real, calls: seq<(string, Call)>, c: Call)
    requires i < |configs| && forall j | i < j < |configs| :: configs[j].0 != configs[i].0
    requires Touches(c)
    ensures var user, config := configs[i].0, configs[i].1;
      DoFor(RunFor(Opened(configs, now), calls), user, c).1 == Do(After(NewAccount(config, now), Own(calls, user)), c).1
  {
    AccountsStartEmpty(configs, now, i);
    UsersAreIndependent(Opened(configs, now), calls, configs[i].0);
  }

  /** `ensure_open` and `account_and_throttle` of a configured user with a quota per window, on the log. */
  lemma RegistryQuota(configs: seq<(string, Config)>, i: nat, now: real, calls: seq<(string, Call)>, t: real, bytes: u64, sendAt: real)
    requires i < |configs| && forall j | i < j < |configs| :: configs[j].0 != configs[i].0
    requires configs[i].1.quota.Some? && configs[i].1.quota.value as nat < U64_MAX && configs[i].1.window > 0.0
    requires configs[i].1.rate != Some(0) && bytes > 0
    ensures var user, config := configs[i].0, configs[i].1;
      var here := RunFor(Opened(configs, now), calls);
      var own := Own(calls, user);
      var spent := InWindow(Log(NewAccount(config, now), own), WindowOf(config.window, now, own, t));
      && (DoFor(here, user, EnsureOpen(t)).1.Refused? <==> spent >= config.quota.value as nat)
      && (DoFor(here, user, Transfer(bytes, t, sendAt)).1.Planned? <==> spent + bytes as nat <= config.quota.value as nat)
  {
    var user, config := configs[i].0, configs[i].1;
    var own := Own(calls, user);
    RegistryAnswers(configs, i, now, calls, EnsureOpen(t));
    RegistryAnswers(configs, i, now, calls, Transfer(bytes, t, sendAt));
    LedgerIsLog(NewAccount(config, now), own);
    QuotaAnswers(config, now, own, t);
    CounterIsLedger(NewAccount(config, now), own);
  }
}
