/** The bounded cache of resolved names as a refinement of an unbounded expiring map, and the
    collection of resolver answers (crates/espejismo-core/src/dns.rs). */
module Dns {
  import opened Prelude

  datatype SocketAddr = SocketAddr(ip: nat, port: u16)

  /** Instants are nanoseconds. */
  datatype Entry = Entry(addrs: seq<SocketAddr>, expires: nat)

  type Entries = map<string, Entry>

  const CACHE_TTL: nat := 60_000_000_000
  const CAPACITY: nat := 256

  function LiveKeys(entries: Entries, now: nat): set<string> {
    set k | k in entries && now < entries[k].expires
  }

  function Retained(entries: Entries, now: nat): Entries {
    map k | k in LiveKeys(entries, now) :: entries[k]
  }

  /** What a lookup answers. */
  function Answer(entries: Entries, key: string, now: nat): Option<seq<SocketAddr>> {
    if key in entries && now < entries[key].expires then Some(entries[key].addrs) else None
  }

  function Fresh(addrs: seq<SocketAddr>, now: nat, ttl: nat): Entry {
    Entry(addrs, now + Min(ttl, CACHE_TTL))
  }

  // ------------------------------------------------------------------------- steps

  /** `victim` is the key evicted by an insertion; which of several earliest ones it is depends on
      the iteration order of the hash map. */
  datatype Op =
    | Get(key: string, now: nat)
    | Insert(key: string, addrs: seq<SocketAddr>, now: nat, ttl: nat, victim: Option<string>)

  predicate MustEvict(entries: Entries, key: string, now: nat) {
    |LiveKeys(entries, now)| >= CAPACITY && key !in LiveKeys(entries, now)
  }

  /** An earliest-expiring live entry. */
  predicate IsEarliest(entries: Entries, now: nat, k: string) {
    && k in LiveKeys(entries, now)
    && forall l | l in LiveKeys(entries, now) :: entries[k].expires <= entries[l].expires
  }

  predicate Allowed(entries: Entries, op: Op) {
    op.Insert? ==>
      && (op.victim.Some? <==> MustEvict(entries, op.key, op.now))
      && (op.victim.Some? ==> IsEarliest(entries, op.now, op.victim.value))
  }

  function Bounded(entries: Entries, op: Op): Entries {
    match op
    case Get(key, now) => if key in entries && entries[key].expires <= now then entries - {key} else entries
    case Insert(key, addrs, now, ttl, victim) =>
      var live := Retained(entries, now);
      (if victim.Some? then live - {victim.value} else live)[key := Fresh(addrs, now, ttl)]
  }

  /** Reference: a map that remembers the latest insertion of every key for ever. */
  function Unbounded(all: Entries, op: Op): Entries {
    match op
    case Get(_, _) => all
    case Insert(key, addrs, now, ttl, _) => all[key := Fresh(addrs, now, ttl)]
  }

  // ------------------------------------------------------------------- invariants

  /** Everything cached is the latest insertion of its key, and there is room for no more than the
      capacity. */
  predicate Sound(entries: Entries, all: Entries) {
    && |entries| <= CAPACITY
    && forall k | k in entries :: k in all && entries[k] == all[k]
  }

  /** Nothing live is missing. */
  predicate Complete(entries: Entries, all: Entries, now: nat) {
    forall k | k in LiveKeys(all, now) :: k in entries
  }

  lemma RetainedKeys(entries: Entries, now: nat)
    ensures Retained(entries, now).Keys == LiveKeys(entries, now)
    ensures |Retained(entries, now)| == |LiveKeys(entries, now)| <= |entries|
  {
    SubsetSize(LiveKeys(entries, now), entries.Keys);
  }

  lemma {:induction false} SubsetSize(a: set<string>, b: set<string>)
    requires a <= b
    ensures |a| <= |b|
    decreases |a|
  {
    if a != {} {
      var x :| x in a;
      SubsetSize(a - {x}, b - {x});
    }
  }

  lemma InsertSize(entries: Entries, op: Op)
    requires op.Insert? && Allowed(entries, op) && |entries| <= CAPACITY
    ensures |Bounded(entries, op)| <= CAPACITY
  {
    var live := LiveKeys(entries, op.now);
    RetainedKeys(entries, op.now);
    var left := if op.victim.Some? then live - {op.victim.value} else live;
    assert Bounded(entries, op).Keys == left + {op.key};
  }

  /** Every operation keeps the cache sound, whatever the clock does. */
  lemma StepSound(entries: Entries, all: Entries, op: Op)
    requires Sound(entries, all) && Allowed(entries, op)
    ensures Sound(Bounded(entries, op), Unbounded(all, op))
  {
    if op.Insert? {
      InsertSize(entries, op);
    } else {
      SubsetSize(Bounded(entries, op).Keys, entries.Keys);
    }
  }

  // -------------------------------------------------------------------------- runs

  predicate Follows(entries: Entries, ops: seq<Op>)
    decreases |ops|
  {
    ops == [] || (Allowed(entries, ops[0]) && Follows(Bounded(entries, ops[0]), ops[1..]))
  }

  function After(entries: Entries, ops: seq<Op>): Entries
    decreases |ops|
  {
    if ops == [] then entries else After(Bounded(entries, ops[0]), ops[1..])
  }

  function AfterAll(all: Entries, ops: seq<Op>): Entries
    decreases |ops|
  {
    if ops == [] then all else AfterAll(Unbounded(all, ops[0]), ops[1..])
  }

  lemma {:induction false} RunSound(entries: Entries, all: Entries, ops: seq<Op>)
    requires Sound(entries, all) && Follows(entries, ops)
    ensures Sound(After(entries, ops), AfterAll(all, ops))
    decreases |ops|
  {
    hide Sound, Bounded, Unbounded;
    if ops != [] {
      StepSound(entries, all, ops[0]);
      RunSound(Bounded(entries, ops[0]), Unbounded(all, ops[0]), ops[1..]);
    }
  }

  /** Reference: the last insertion of a key in a run, if there is one. */
  function LastInsert(ops: seq<Op>, key: string): (last: Option<Op>)
    ensures last.Some? ==> last.value.Insert? && last.value.key == key
  {
    if ops == [] then None
    else
      var later := LastInsert(ops[1..], key);
      if later.Some? then later
      else if ops[0].Insert? && ops[0].key == key then Some(ops[0])
      else None
  }

  lemma {:induction false} UnboundedIsLastInsert(all: Entries, ops: seq<Op>, key: string)
    ensures match LastInsert(ops, key)
      case None => Answering(AfterAll(all, ops), key) == Answering(all, key)
      case Some(op) => Answering(AfterAll(all, ops), key) == Some(Fresh(op.addrs, op.now, op.ttl))
    decreases |ops|
  {
    if ops != [] {
      UnboundedIsLastInsert(Unbounded(all, ops[0]), ops[1..], key);
    }
  }

  function Answering(entries: Entries, key: string): Option<Entry> {
    if key in entries then Some(entries[key]) else None
  }

  /** Over every run and whatever the clock does: at most 256 entries, and a hit gives the addresses
      of the last insertion of its key, no longer after it than its time to live or one minute. */
  lemma HitsAreLatest(ops: seq<Op>, key: string, now: nat)
    requires Follows(map[], ops)
    ensures |After(map[], ops)| <= 256
    ensures var hit := Answer(After(map[], ops), key, now);
      hit.Some? ==>
        && hit == Answer(AfterAll(map[], ops), key, now)
        && LastInsert(ops, key).Some?
        && var last := LastInsert(ops, key).value;
          hit.value == last.addrs && now < last.now + Min(last.ttl, 60_000_000_000)
  {
    RunSound(map[], map[], ops);
    UnboundedIsLastInsert(map[], ops, key);
  }

  /** An insertion evicts only when it must, and then only an earliest-expiring live entry. */
  lemma OnlyEarliestEvicted(entries: Entries, op: Op, k: string)
    requires op.Insert? && Allowed(entries, op)
    requires k in LiveKeys(entries, op.now) && k != op.key && k !in Bounded(entries, op)
    ensures IsEarliest(entries, op.now, k) && |LiveKeys(entries, op.now)| >= CAPACITY && op.key !in LiveKeys(entries, op.now)
    ensures forall l | l in LiveKeys(entries, op.now) && l != k :: l in Bounded(entries, op) && (l != op.key ==> Bounded(entries, op)[l] == entries[l])
  {}

  // -------------------------------------------------------------- exact agreement

  lemma SameLive(entries: Entries, all: Entries, now: nat)
    requires Sound(entries, all) && Complete(entries, all, now)
    ensures LiveKeys(entries, now) == LiveKeys(all, now)
  {
    forall k
      ensures k in LiveKeys(entries, now) <==> k in LiveKeys(all, now)
    {}
  }

  predicate Room(all: Entries, key: string, now: nat) {
    key in LiveKeys(all, now) || |LiveKeys(all, now)| < CAPACITY
  }

  /** An insertion into a cache that agrees with the unbounded map keeps the agreement exactly when
      the key is live already or fewer than 256 keys are. */
  lemma InsertAgreesIff(entries: Entries, all: Entries, op: Op)
    requires Sound(entries, all) && Allowed(entries, op) && op.Insert?
    requires Complete(entries, all, op.now)
    ensures Complete(Bounded(entries, op), Unbounded(all, op), op.now) <==> Room(all, op.key, op.now)
  {
    SameLive(entries, all, op.now);
    var after, reference := Bounded(entries, op), Unbounded(all, op);
    if op.victim.Some? {
      var v := op.victim.value;
      assert v != op.key && v in LiveKeys(reference, op.now) && v !in after;
    } else {
      forall k | k in LiveKeys(reference, op.now)
        ensures k in after
      {
        assert k == op.key || k in LiveKeys(all, op.now);
      }
    }
  }

  /** Time never runs backwards, and every insertion finds room. */
  predicate Roomy(all: Entries, ops: seq<Op>, from: nat)
    decreases |ops|
  {
    ops == [] || (from <= ops[0].now
                  && (ops[0].Insert? ==> Room(all, ops[0].key, ops[0].now))
                  && Roomy(Unbounded(all, ops[0]), ops[1..], ops[0].now))
  }

  lemma LaterIsComplete(entries: Entries, all: Entries, now: nat, later: nat)
    requires Complete(entries, all, now) && now <= later
    ensures Complete(entries, all, later)
  {
    assert LiveKeys(all, later) <= LiveKeys(all, now);
  }

  lemma StepComplete(entries: Entries, all: Entries, op: Op, from: nat)
    requires Sound(entries, all) && Allowed(entries, op) && Complete(entries, all, from) && from <= op.now
    requires op.Insert? ==> Room(all, op.key, op.now)
    ensures Complete(Bounded(entries, op), Unbounded(all, op), op.now)
  {
    LaterIsComplete(entries, all, from, op.now);
    if op.Insert? {
      InsertAgreesIff(entries, all, op);
    }
  }

  lemma {:induction false} RunComplete(entries: Entries, all: Entries, ops: seq<Op>, from: nat, now: nat, key: string)
    requires Sound(entries, all) && Follows(entries, ops) && Complete(entries, all, from) && Roomy(all, ops, from)
    requires from <= now && forall i | 0 <= i < |ops| :: ops[i].now <= now
    ensures Answer(After(entries, ops), key, now) == Answer(AfterAll(all, ops), key, now)
    decreases |ops|
  {
    hide Sound, Bounded, Unbounded, Complete;
    if ops == [] {
      LaterIsComplete(entries, all, from, now);
      CompleteAnswers(entries, all, now, key);
    } else {
      StepSound(entries, all, ops[0]);
      StepComplete(entries, all, ops[0], from);
      RunComplete(Bounded(entries, ops[0]), Unbounded(all, ops[0]), ops[1..], ops[0].now, now, key);
    }
  }

  lemma CompleteAnswers(entries: Entries, all: Entries, now: nat, key: string)
    requires Sound(entries, all) && Complete(entries, all, now)
    ensures Answer(entries, key, now) == Answer(all, key, now)
  {
    SameLive(entries, all, now);
    assert key in LiveKeys(entries, now) <==> key in LiveKeys(all, now);
  }

  /** In every run in which time does not go back and insertions find room, the cache answers
      exactly like the unbounded map. */
  lemma CacheIsUnboundedMap(ops: seq<Op>, key: string, now: nat)
    requires Follows(map[], ops) && Roomy(map[], ops, 0)
    requires forall i | 0 <= i < |ops| :: ops[i].now <= now
    ensures Answer(After(map[], ops), key, now) == Answer(AfterAll(map[], ops), key, now)
  {
    RunComplete(map[], map[], ops, 0, now, key);
  }

  predicate Monotone(ops: seq<Op>, from: nat)
    decreases |ops|
  {
    ops == [] || (from <= ops[0].now && Monotone(ops[1..], ops[0].now))
  }

  /** After every operation, every key has the same answer in both maps. */
  ghost predicate AgreesThroughout(entries: Entries, all: Entries, ops: seq<Op>)
    decreases |ops|
  {
    ops == [] ||
    var b, u := Bounded(entries, ops[0]), Unbounded(all, ops[0]);
    && (forall key :: Answer(b, key, ops[0].now) == Answer(u, key, ops[0].now))
    && AgreesThroughout(b, u, ops[1..])
  }

  lemma AgreementIsCompleteness(entries: Entries, all: Entries, now: nat)
    requires Sound(entries, all)
    ensures Complete(entries, all, now) <==> forall key :: Answer(entries, key, now) == Answer(all, key, now)
  {
    if Complete(entries, all, now) {
      forall key
        ensures Answer(entries, key, now) == Answer(all, key, now)
      {
        CompleteAnswers(entries, all, now, key);
      }
    } else {
      var k :| k in LiveKeys(all, now) && k !in entries;
      assert Answer(entries, k, now) != Answer(all, k, now);
    }
  }

  /** Room at every insertion is exactly what it takes: over a whole run with monotone time the cache
      and the unbounded map agree throughout if and only if every insertion finds room. */
  lemma {:induction false} AgreesThroughoutIff(entries: Entries, all: Entries, ops: seq<Op>, from: nat)
    requires Sound(entries, all) && Complete(entries, all, from)
    requires Follows(entries, ops) && Monotone(ops, from)
    ensures AgreesThroughout(entries, all, ops) <==> Roomy(all, ops, from)
    decreases |ops|
  {
    hide Sound, Complete, Bounded, Unbounded, Room;
    if ops != [] {
      var op := ops[0];
      var b, u := Bounded(entries, op), Unbounded(all, op);
      StepSound(entries, all, op);
      AgreementIsCompleteness(b, u, op.now);
      LaterIsComplete(entries, all, from, op.now);
      if op.Insert? {
        InsertAgreesIff(entries, all, op);
      } else {
        StepComplete(entries, all, op, from);
      }
      if Complete(b, u, op.now) {
        AgreesThroughoutIff(b, u, ops[1..], op.now);
      }
    }
  }

  /** For a positive time to live, finding room is the same as leaving at most 256 live keys. */
  lemma RoomIsAtMostCapacity(all: Entries, op: Op)
    requires op.Insert? && op.ttl > 0 && |LiveKeys(all, op.now)| <= CAPACITY
    ensures Room(all, op.key, op.now) <==> |LiveKeys(Unbounded(all, op), op.now)| <= CAPACITY
  {
    assert LiveKeys(Unbounded(all, op), op.now) == LiveKeys(all, op.now) + {op.key};
  }

  /** After every operation at most 256 keys are live, and every insertion has a positive time to live. */
  predicate AtMostCapacity(all: Entries, ops: seq<Op>)
    decreases |ops|
  {
    ops == [] ||
    var after := Unbounded(all, ops[0]);
    && (ops[0].Insert? ==> ops[0].ttl > 0)
    && |LiveKeys(after, ops[0].now)| <= CAPACITY
    && AtMostCapacity(after, ops[1..])
  }

  /** Over a whole run with positive times to live, room at every insertion is the same as at most 256
      live keys after every operation. */
  lemma {:induction false} RoomyIsAtMostCapacity(all: Entries, ops: seq<Op>, from: nat)
    requires Monotone(ops, from) && |LiveKeys(all, from)| <= CAPACITY
    requires forall i | 0 <= i < |ops| :: ops[i].Insert? ==> ops[i].ttl > 0
    ensures Roomy(all, ops, from) <==> AtMostCapacity(all, ops)
    decreases |ops|
  {
    hide Room, Unbounded;
    if ops != [] {
      var op := ops[0];
      FewerLater(all, from, op.now);
      if op.Insert? {
        RoomIsAtMostCapacity(all, op);
      } else {
        GetKeepsAll(all, op);
      }
      if |LiveKeys(Unbounded(all, op), op.now)| <= CAPACITY {
        RoomyIsAtMostCapacity(Unbounded(all, op), ops[1..], op.now);
      }
    }
  }

  lemma GetKeepsAll(all: Entries, op: Op)
    requires op.Get?
    ensures Unbounded(all, op) == all
  {}

  lemma FewerLater(all: Entries, now: nat, later: nat)
    requires now <= later
    ensures |LiveKeys(all, later)| <= |LiveKeys(all, now)|
  {
    SubsetSize(LiveKeys(all, later), LiveKeys(all, now));
  }

  /** So with at most 256 live keys at once the cache answers exactly like the unbounded map. */
  lemma AtMostCapacityIsUnboundedMap(ops: seq<Op>, key: string, now: nat)
    requires Follows(map[], ops) && Monotone(ops, 0) && AtMostCapacity(map[], ops)
    requires forall i | 0 <= i < |ops| :: ops[i].now <= now
    ensures Answer(After(map[], ops), key, now) == Answer(AfterAll(map[], ops), key, now)
  {
    PositiveTtls(map[], ops);
    assert LiveKeys(map[], 0) == {};
    RoomyIsAtMostCapacity(map[], ops, 0);
    CacheIsUnboundedMap(ops, key, now);
  }

  /** Which answer that is: the addresses last inserted for the key, until its time to live or one minute
      is over, whichever comes first. */
  lemma CacheAnswers(ops: seq<Op>, key: string, now: nat)
    requires Follows(map[], ops) && Roomy(map[], ops, 0)
    requires forall i | 0 <= i < |ops| :: ops[i].now <= now
    ensures Answer(After(map[], ops), key, now) ==
      match LastInsert(ops, key)
      case None => None
      case Some(last) => if now < last.now + Min(last.ttl, 60_000_000_000) then Some(last.addrs) else None
  {
    CacheIsUnboundedMap(ops, key, now);
    UnboundedIsLastInsert(map[], ops, key);
  }

  /** And an insertion is served that long in any case, with room or without. */
  lemma InsertIsServed(entries: Entries, op: Op, t: nat)
    requires op.Insert?
    ensures Answer(Bounded(entries, op), op.key, t)
      == if t < op.now + Min(op.ttl, 60_000_000_000) then Some(op.addrs) else None
  {}

  lemma {:induction false} PositiveTtls(all: Entries, ops: seq<Op>)
    requires AtMostCapacity(all, ops)
    ensures forall i | 0 <= i < |ops| :: ops[i].Insert? ==> ops[i].ttl > 0
    decreases |ops|
  {
    if ops != [] {
      PositiveTtls(Unbounded(all, ops[0]), ops[1..]);
    }
  }

  // ---------------------------------------------------------------- a zero time to live

  function Name(i: nat): string {
    seq(i, _ => 'x')
  }

  /** The cache after `n` names, all live until one minute. */
  function Crowd(n: nat): Entries {
    if n == 0 then map[] else Crowd(n - 1)[Name(n - 1) := Entry([], CACHE_TTL)]
  }

  lemma {:induction false} CrowdSize(n: nat)
    ensures |Crowd(n)| == n && LiveKeys(Crowd(n), 0) == Crowd(n).Keys
    ensures forall k | k in Crowd(n) :: |k| < n && Crowd(n)[k] == Entry([], CACHE_TTL)
  {
    if n > 0 {
      CrowdSize(n - 1);
      JoinCrowd(Crowd(n - 1), Name(n - 1), n - 1);
    }
  }

  lemma JoinCrowd(crowd: Entries, name: string, n: nat)
    requires |crowd| == n && |name| == n
    requires forall k | k in crowd :: |k| < n && crowd[k] == Entry([], CACHE_TTL)
    ensures var after := crowd[name := Entry([], CACHE_TTL)];
      && |after| == n + 1 && LiveKeys(after, 0) == after.Keys
      && forall k | k in after :: |k| < n + 1 && after[k] == Entry([], CACHE_TTL)
  {
    var after := crowd[name := Entry([], CACHE_TTL)];
    assert after.Keys == crowd.Keys + {name};
    assert forall k | k in after :: k in LiveKeys(after, 0);
  }

  /** Insertions of the names from `i` to `n` at the same instant. */
  function Arrivals(i: nat, n: nat): seq<Op>
    requires i <= n
    decreases n - i
  {
    if i == n then [] else [Insert(Name(i), [], 0, CACHE_TTL, None)] + Arrivals(i + 1, n)
  }

  lemma {:induction false} CrowdIsReached(i: nat, n: nat)
    requires i <= n <= CAPACITY
    ensures Follows(Crowd(i), Arrivals(i, n)) && After(Crowd(i), Arrivals(i, n)) == Crowd(n)
    decreases n - i
  {
    hide Crowd;
    if i < n {
      CrowdGrows(i);
      var op := Insert(Name(i), [], 0, CACHE_TTL, None);
      assert ([op] + Arrivals(i + 1, n))[1..] == Arrivals(i + 1, n);
      CrowdIsReached(i + 1, n);
    }
  }

  lemma CrowdGrows(i: nat)
    requires i < CAPACITY
    ensures var op := Insert(Name(i), [], 0, CACHE_TTL, None);
      Allowed(Crowd(i), op) && Bounded(Crowd(i), op) == Crowd(i + 1)
  {
    CrowdSize(i);
    assert Retained(Crowd(i), 0) == Crowd(i);
  }

  /** A zero time to live still takes a place: after 256 insertions, one more that is never live
      evicts a live entry, although no more than 256 keys are live at any time. */
  lemma ZeroTtlEvictsLiveEntry() returns (op: Op)
    ensures op.Insert? && op.ttl == 0
    ensures Follows(map[], Arrivals(0, CAPACITY)) && After(map[], Arrivals(0, CAPACITY)) == Crowd(CAPACITY)
    ensures Allowed(Crowd(CAPACITY), op)
    ensures |LiveKeys(Unbounded(Crowd(CAPACITY), op), op.now)| == CAPACITY
    ensures !Complete(Bounded(Crowd(CAPACITY), op), Unbounded(Crowd(CAPACITY), op), op.now)
  {
    hide Crowd, Follows, After, Arrivals, Bounded, Complete;
    EmptyCrowd();
    CrowdIsReached(0, CAPACITY);
    CrowdSize(CAPACITY);
    var crowd := Crowd(CAPACITY);
    var v :| v in crowd.Keys;
    op := Insert(Name(CAPACITY), [], 0, 0, Some(v));
    assert |op.key| == CAPACITY;
    assert LiveKeys(Unbounded(crowd, op), 0) == LiveKeys(crowd, 0);
    CrowdAgrees(crowd);
    InsertAgreesIff(crowd, crowd, op);
  }

  lemma EmptyCrowd()
    ensures Crowd(0) == map[]
  {}

  lemma CrowdAgrees(entries: Entries)
    ensures Complete(entries, entries, 0)
  {}

  // --------------------------------------------------------------------- the object

  class DnsCache {
    var entries: Entries

    constructor ()
      ensures entries == map[]
    {
      entries := map[];
    }

    method Lookup(authority: string, now: nat) returns (addrs: Option<seq<SocketAddr>>)
      modifies this
      ensures addrs == Answer(old(entries), authority, now)
      ensures entries == Bounded(old(entries), Get(authority, now))
    {
      if authority in entries {
        if now < entries[authority].expires {
          return Some(entries[authority].addrs);
        }
        entries := entries - {authority};
      }
      addrs := None;
    }

    /** The loop of `min_by_key` over the entries, in the order the hash map gives them. */
    method Earliest() returns (key: string)
      requires entries != map[]
      ensures key in entries && forall l | l in entries :: entries[key].expires <= entries[l].expires
    {
      var left := entries.Keys;
      key :| key in left;
      left := left - {key};
      while left != {}
        invariant left <= entries.Keys && key in entries
        invariant forall l | l in entries && l !in left :: entries[key].expires <= entries[l].expires
        decreases |left|
      {
        var k :| k in left;
        if entries[k].expires < entries[key].expires {
          key := k;
        }
        left := left - {k};
      }
    }

    method InsertWithTtl(authority: string, addrs: seq<SocketAddr>, now: nat, ttl: nat) returns (victim: Option<string>)
      modifies this
      ensures Allowed(old(entries), Insert(authority, addrs, now, ttl, victim))
      ensures entries == Bounded(old(entries), Insert(authority, addrs, now, ttl, victim))
    {
      RetainedKeys(entries, now);
      entries := map k | k in entries && now < entries[k].expires :: entries[k];
      assert entries == Retained(old(entries), now);
      victim := None;
      if |entries| >= CAPACITY && authority !in entries {
        var oldest := Earliest();
        victim := Some(oldest);
        entries := entries - {oldest};
      }
      var expires := now + Min(ttl, CACHE_TTL);
      entries := entries[authority := Entry(addrs, expires)];
    }
  }

  // ------------------------------------------------------------ resolver answers

  /** First occurrences, in order. */
  function Distinct(addrs: seq<SocketAddr>): seq<SocketAddr> {
    if addrs == [] then []
    else
      var rest, last := addrs[..|addrs| - 1], addrs[|addrs| - 1];
      if last in rest then Distinct(rest) else Distinct(rest) + [last]
  }

  function FirstAt(addrs: seq<SocketAddr>, a: SocketAddr): (i: nat)
    requires a in addrs
    ensures i < |addrs| && addrs[i] == a && a !in addrs[..i]
  {
    if addrs[0] == a then 0 else
      var i := FirstAt(addrs[1..], a);
      assert addrs[..i + 1] == [addrs[0]] + addrs[1..][..i];
      i + 1
  }

  lemma FirstAtUnique(addrs: seq<SocketAddr>, i: nat)
    requires i < |addrs| && addrs[i] !in addrs[..i]
    ensures FirstAt(addrs, addrs[i]) == i
  {}

  /** The same addresses, each once, in the order in which they first came. */
  lemma {:induction false} DistinctKeepsFirsts(addrs: seq<SocketAddr>)
    ensures forall a :: a in Distinct(addrs) <==> a in addrs
    ensures forall i, j | 0 <= i < j < |Distinct(addrs)| ::
      FirstAt(addrs, Distinct(addrs)[i]) < FirstAt(addrs, Distinct(addrs)[j])
  {
    if addrs != [] {
      var n := |addrs| - 1;
      var rest, last := addrs[..n], addrs[n];
      assert addrs == rest + [last];
      DistinctKeepsFirsts(rest);
      var d := Distinct(addrs);
      forall i | 0 <= i < |Distinct(rest)|
        ensures FirstAt(addrs, Distinct(rest)[i]) == FirstAt(rest, Distinct(rest)[i])
      {
        var a := Distinct(rest)[i];
        assert a in rest;
        var k := FirstAt(rest, a);
        assert addrs[..k] == rest[..k];
        FirstAtUnique(addrs, k);
      }
      if last !in rest {
        FirstAtUnique(addrs, n);
      }
    }
  }

  /** `collect_addresses`: an error exactly when the resolver gave nothing. */
  method CollectAddresses(addrs: seq<SocketAddr>) returns (kept: Option<seq<SocketAddr>>)
    ensures kept.None? <==> addrs == []
    ensures kept.Some? ==> kept.value == Distinct(addrs)
  {
    var seen: set<SocketAddr> := {};
    var list: seq<SocketAddr> := [];
    var i := 0;
    while i < |addrs|
      invariant 0 <= i <= |addrs|
      invariant forall a :: a in seen <==> a in addrs[..i]
      invariant list == Distinct(addrs[..i])
      invariant list == [] <==> i == 0
    {
      assert addrs[..i + 1] == addrs[..i] + [addrs[i]];
      if addrs[i] !in seen {
        seen := seen + {addrs[i]};
        list := list + [addrs[i]];
      }
      i := i + 1;
    }
    assert addrs[..i] == addrs;
    kept := if list == [] then None else Some(list);
  }
}
