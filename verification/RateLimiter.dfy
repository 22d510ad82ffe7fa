/** The verdicts, policies and commands shared by both limiter implementations. */
module RateLimiting {
  import opened Wrappers

  datatype Decision = Decision(allowed: bool, remaining: int, retryAfter: int)

  datatype Policy = Policy(limit: int, windowSeconds: int) {
    predicate IsEnforced() {
      limit > 0
    }
  }

  datatype Command =
    | Hit(key: string, limit: int, window: int)
    | Peek(key: string, limit: int)
    | Reset(key: string)

  function Max(a: int, b: int): int {
    if a < b then b else a
  }

  function Min(a: int, b: int): int {
    if a < b then a else b
  }

  /** A whole number of seconds. */
  predicate Whole(x: real) {
    x == x.Floor as real
  }

  /** Python's `int(x)`: truncation toward zero. */
  function Truncate(x: real): int {
    if x >= 0.0 then x.Floor else -((-x).Floor)
  }
}

/** The per-process limiter: a dictionary of counters with absolute expiry times. */
module InMemoryLimiter {
  import opened Wrappers
  import opened RateLimiting

  datatype Counter = Counter(count: int, expiresAt: real)
  type Counters = map<string, Counter>

  function Lookup(m: Counters, key: string): Counter {
    if key in m then m[key] else Counter(0, 0.0)
  }

  /** The counter after charging one attempt at `now`. */
  function Charged(c: Counter, window: int, now: real): Counter {
    if c.expiresAt <= now then Counter(1, now + window as real) else c.(count := c.count + 1)
  }

  function Decide(count: int, limit: int, ttl: real, counted: bool): Decision {
    var allowed := if counted then count <= limit else count < limit;
    Decision(allowed, Max(limit - count, 0), if allowed then 0 else Max(Truncate(ttl), 1))
  }

  /** The verdict of `peek`. */
  function Peeked(m: Counters, key: string, limit: int, now: real): Decision {
    var c := Lookup(m, key);
    if c.expiresAt <= now then Decide(0, limit, 0.0, false)
    else Decide(c.count, limit, c.expiresAt - now, false)
  }

  /** The counters and the verdict after one command. */
  function Apply(m: Counters, command: Command, now: real): (Counters, Option<Decision>) {
    match command
    case Hit(key, limit, window) =>
      var c := Charged(Lookup(m, key), window, now);
      (m[key := c], Some(Decide(c.count, limit, c.expiresAt - now, true)))
    case Peek(key, limit) => (m, Some(Peeked(m, key, limit, now)))
    case Reset(key) => (m - {key}, None)
  }

  /**
   * `remaining` counts the further hits this instant allows: there is one exactly if it is positive, and
   * it counts down.
   */
  lemma RemainingCountsDown(m: Counters, key: string, limit: int, window: int, now: real)
    requires window > 0
    ensures var (m', d) := Apply(m, Command.Hit(key, limit, window), now);
            var (m'', next) := Apply(m', Command.Hit(key, limit, window), now);
            && (next.value.allowed <==> d.value.remaining > 0)
            && next.value.remaining == Max(d.value.remaining - 1, 0)
            && (Peeked(m', key, limit, now).allowed <==> next.value.allowed)
            && Peeked(m', key, limit, now).remaining == d.value.remaining
  {
  }

  /** On a whole-second clock a refused hit says exactly when the next one is let through. */
  lemma RetryTellsWhen(m: Counters, key: string, limit: int, window: int, now: real, later: real)
    requires limit > 0 && window > 0 && Whole(now) && Whole(Lookup(m, key).expiresAt) && now <= later
    requires !Apply(m, Command.Hit(key, limit, window), now).1.value.allowed
    ensures var (m', d) := Apply(m, Command.Hit(key, limit, window), now);
            Apply(m', Command.Hit(key, limit, window), later).1.value.allowed <==>
                later >= now + d.value.retryAfter as real
  {
    var c := Lookup(m, key);
    assert c.expiresAt - now == (c.expiresAt.Floor - now.Floor) as real;
  }

  class InMemoryRateLimiter {
    var counters: Counters

    constructor ()
      ensures counters == map[]
    {
      counters := map[];
    }

    method Hit(key: string, limit: int, window: int, now: real) returns (d: Decision)
      modifies this
      ensures (counters, Some(d)) == Apply(old(counters), Command.Hit(key, limit, window), now)
    {
      var count, expiresAt := 0, 0.0;
      if key in counters {
        count, expiresAt := counters[key].count, counters[key].expiresAt;
      }
      if expiresAt <= now {
        count, expiresAt := 0, now + window as real;
      }
      count := count + 1;
      counters := counters[key := Counter(count, expiresAt)];
      d := Decide(count, limit, expiresAt - now, true);
    }

    method Peek(key: string, limit: int, now: real) returns (d: Decision)
      ensures d == Peeked(counters, key, limit, now)
    {
      var count, expiresAt := 0, 0.0;
      if key in counters {
        count, expiresAt := counters[key].count, counters[key].expiresAt;
      }
      if expiresAt <= now {
        return Decide(0, limit, 0.0, false);
      }
      d := Decide(count, limit, expiresAt - now, false);
    }

    method Reset(key: string)
      modifies this
      ensures counters == Apply(old(counters), Command.Reset(key), 0.0).0
    {
      counters := counters - {key};
    }
  }
}

/** The shared limiter: INCR, TTL and EXPIRE on a Redis server with a whole-second clock. */
module RedisLimiter {
  import opened Wrappers
  import opened RateLimiting

  datatype Item = Item(count: int, expireAt: Option<int>)
  type Keyspace = map<string, Item>

  /** A key past its expiry is gone, whether or not the server has dropped it yet. */
  predicate Live(s: Keyspace, key: string, now: int) {
    key in s && (s[key].expireAt.None? || now < s[key].expireAt.value)
  }

  function Count(s: Keyspace, key: string, now: int): int {
    if Live(s, key, now) then s[key].count else 0
  }

  function Ttl(s: Keyspace, key: string, now: int): int {
    if !Live(s, key, now) then -2
    else if s[key].expireAt.None? then -1
    else s[key].expireAt.value - now
  }

  function Incr(s: Keyspace, key: string, now: int): Keyspace {
    s[key := if Live(s, key, now) then s[key].(count := s[key].count + 1) else Item(1, None)]
  }

  /** EXPIRE with a non-positive time deletes the key. */
  function Expire(s: Keyspace, key: string, seconds: int, now: int): Keyspace {
    if !Live(s, key, now) then s
    else if seconds <= 0 then s - {key}
    else s[key := s[key].(expireAt := Some(now + seconds))]
  }

  function Decide(count: int, limit: int, ttl: int, counted: bool): Decision {
    var allowed := if counted then count <= limit else count < limit;
    Decision(allowed, Max(limit - count, 0), if allowed then 0 else Max(ttl, 1))
  }

  /** The keyspace and the verdict after one command. */
  function Apply(s: Keyspace, command: Command, now: int): (Keyspace, Option<Decision>) {
    match command
    case Hit(key, limit, window) =>
      var counted := Incr(s, key, now);
      var ttl := Ttl(counted, key, now);
      if ttl < 0 then
        (Expire(counted, key, window, now), Some(Decide(counted[key].count, limit, window, true)))
      else
        (counted, Some(Decide(counted[key].count, limit, ttl, true)))
    case Peek(key, limit) =>
      (s, Some(Decide(Count(s, key, now), limit, Max(Ttl(s, key, now), 0), false)))
    case Reset(key) => (s - {key}, None)
  }

  class RedisRateLimiter {
    var keyspace: Keyspace

    constructor ()
      ensures keyspace == map[]
    {
      keyspace := map[];
    }

    method Hit(key: string, limit: int, window: int, now: int) returns (d: Decision)
      modifies this
      ensures (keyspace, Some(d)) == Apply(old(keyspace), Command.Hit(key, limit, window), now)
    {
      keyspace := Incr(keyspace, key, now);
      var count, ttl := Count(keyspace, key, now), Ttl(keyspace, key, now);
      if ttl < 0 {
        keyspace := Expire(keyspace, key, window, now);
        ttl := window;
      }
      d := Decide(count, limit, ttl, true);
    }

    method Peek(key: string, limit: int, now: int) returns (d: Decision)
      ensures Some(d) == Apply(keyspace, Command.Peek(key, limit), now).1
    {
      var count, ttl := Count(keyspace, key, now), Ttl(keyspace, key, now);
      d := Decide(count, limit, Max(ttl, 0), false);
    }

    method Reset(key: string)
      modifies this
      ensures keyspace == Apply(old(keyspace), Command.Reset(key), 0).0
    {
      keyspace := keyspace - {key};
    }
  }
}

/** Both limiters give the same verdicts on a whole-second clock. */
module LimiterEquivalence {
  import opened Wrappers
  import opened RateLimiting
  import InMemoryLimiter
  import RedisLimiter

  datatype Timed = Timed(command: Command, at: nat)

  /** The commands carry non-decreasing times, none before `start`. */
  predicate Ordered(run: seq<Timed>, start: nat) {
    run == [] || (start <= run[0].at && Ordered(run[1..], run[0].at))
  }

  function MemoryVerdicts(m: InMemoryLimiter.Counters, run: seq<Timed>): seq<Option<Decision>>
    decreases |run|
  {
    if run == [] then []
    else
      var (m', d) := InMemoryLimiter.Apply(m, run[0].command, run[0].at as real);
      [d] + MemoryVerdicts(m', run[1..])
  }

  function RedisVerdicts(s: RedisLimiter.Keyspace, run: seq<Timed>): seq<Option<Decision>>
    decreases |run|
  {
    if run == [] then []
    else
      var (s', d) := RedisLimiter.Apply(s, run[0].command, run[0].at);
      [d] + RedisVerdicts(s', run[1..])
  }

  /** At time `now` one key is live in both stores with the same count and expiry, or in neither. */
  predicate AgreesOn(m: InMemoryLimiter.Counters, s: RedisLimiter.Keyspace, now: nat, key: string) {
    if key in m && now as real < m[key].expiresAt then
      RedisLimiter.Live(s, key, now) && s[key].count == m[key].count
      && s[key].expireAt.Some? && s[key].expireAt.value as real == m[key].expiresAt
    else !RedisLimiter.Live(s, key, now)
  }

  ghost predicate Agrees(m: InMemoryLimiter.Counters, s: RedisLimiter.Keyspace, now: nat) {
    forall key: string :: AgreesOn(m, s, now, key)
  }

  lemma AgreesLater(m: InMemoryLimiter.Counters, s: RedisLimiter.Keyspace, now: nat, later: nat)
    requires Agrees(m, s, now) && now <= later
    ensures Agrees(m, s, later)
  {
    forall key: string ensures AgreesOn(m, s, later, key) {
      assert AgreesOn(m, s, now, key);
    }
  }

  lemma WholeSeconds(e: int, now: nat)
    ensures Truncate(e as real - now as real) == if e >= now then e - now else -(now - e)
  {
    if e >= now {
      assert e as real - now as real == (e - now) as real;
    } else {
      assert -(e as real - now as real) == (now - e) as real;
    }
  }

  lemma SameHit(m: InMemoryLimiter.Counters, s: RedisLimiter.Keyspace, key: string, limit: int, window: int, now: nat)
    requires AgreesOn(m, s, now, key)
    ensures var (m', d), (s', d') := InMemoryLimiter.Apply(m, Hit(key, limit, window), now as real),
        RedisLimiter.Apply(s, Hit(key, limit, window), now);
            && d == d' && AgreesOn(m', s', now, key)
            && (forall k: string :: k != key && AgreesOn(m, s, now, k) ==> AgreesOn(m', s', now, k))
  {
    if RedisLimiter.Live(s, key, now) {
      WholeSeconds(s[key].expireAt.value, now);
    } else {
      WholeSeconds(now + window, now);
      assert now as real + window as real == (now + window) as real;
    }
  }

  lemma SamePeek(m: InMemoryLimiter.Counters, s: RedisLimiter.Keyspace, key: string, limit: int, now: nat)
    requires AgreesOn(m, s, now, key)
    ensures InMemoryLimiter.Apply(m, Peek(key, limit), now as real).1 == RedisLimiter.Apply(s, Peek(key, limit), now).1
  {
    if RedisLimiter.Live(s, key, now) {
      WholeSeconds(s[key].expireAt.value, now);
    }
  }

  lemma SameVerdict(m: InMemoryLimiter.Counters, s: RedisLimiter.Keyspace, command: Command, now: nat)
    requires Agrees(m, s, now)
    ensures InMemoryLimiter.Apply(m, command, now as real).1 == RedisLimiter.Apply(s, command, now).1
    ensures Agrees(InMemoryLimiter.Apply(m, command, now as real).0, RedisLimiter.Apply(s, command, now).0, now)
  {
    var m', s' := InMemoryLimiter.Apply(m, command, now as real).0, RedisLimiter.Apply(s, command, now).0;
    assert AgreesOn(m, s, now, command.key);
    match command
    case Hit(key, limit, window) =>
      SameHit(m, s, key, limit, window, now);
      forall k: string ensures AgreesOn(m', s', now, k) {
        assert AgreesOn(m, s, now, k);
      }
    case Peek(key, limit) => SamePeek(m, s, key, limit, now);
    case Reset(key) =>
      forall k: string ensures AgreesOn(m', s', now, k) {
        assert AgreesOn(m, s, now, k);
      }
  }

  /**
   * Over any sequence of hits, peeks and resets, whatever the keys, limits and windows, the two
   * limiters answer identically, although one keeps expired counters and the other drops them.
   */
  lemma {:induction false} SameVerdicts(
      m: InMemoryLimiter.Counters, s: RedisLimiter.Keyspace, run: seq<Timed>, start: nat)
    requires Agrees(m, s, start) && Ordered(run, start)
    ensures MemoryVerdicts(m, run) == RedisVerdicts(s, run)
    decreases |run|
  {
    if run != [] {
      var now := run[0].at;
      AgreesLater(m, s, start, now);
      SameVerdict(m, s, run[0].command, now);
      SameVerdicts(InMemoryLimiter.Apply(m, run[0].command, now as real).0,
                   RedisLimiter.Apply(s, run[0].command, now).0, run[1..], now);
    }
  }
}

/** How many attempts a fixed window lets through in any interval of the window's length. */
module FixedWindow {
  import opened Wrappers
  import opened RateLimiting
  import opened InMemoryLimiter

  datatype Timed = Timed(command: Command, at: real)

  predicate Ordered(run: seq<Timed>) {
    && (forall i :: 0 <= i < |run| ==> 0.0 <= run[i].at)
    && (forall i, j :: 0 <= i < j < |run| ==> run[i].at <= run[j].at)
  }

  /** Every hit on the key uses this limit and window, and nothing resets the key. */
  predicate Uniform(run: seq<Timed>, key: string, limit: int, window: int) {
    forall i :: 0 <= i < |run| ==>
      match run[i].command
      case Hit(k, l, w) => k == key ==> l == limit && w == window
      case Peek(_, _) => true
      case Reset(k) => k != key
  }

  /** A later hit of the same kind keeps a run ordered and uniform. */
  lemma HitAppended(run: seq<Timed>, hit: Timed, key: string, limit: int, window: int)
    requires Ordered(run) && Uniform(run, key, limit, window) && hit.command == Hit(key, limit, window)
    requires 0.0 <= hit.at && (run != [] ==> run[|run| - 1].at <= hit.at)
    ensures Ordered(run + [hit]) && Uniform(run + [hit], key, limit, window)
  {
    forall i | 0 <= i < |run| ensures run[i].at <= hit.at {
      assert run[i].at <= run[|run| - 1].at;
    }
  }

  /** The counters after a run that starts from empty counters. */
  function State(run: seq<Timed>): Counters {
    if run == [] then map[]
    else
      var n := |run| - 1;
      Apply(State(run[..n]), run[n].command, run[n].at).0
  }

  /** The i-th command is a hit on the key that was allowed. */
  predicate AllowedHit(run: seq<Timed>, i: nat, key: string)
    requires i < |run|
  {
    var d := Apply(State(run[..i]), run[i].command, run[i].at).1;
    run[i].command.Hit? && run[i].command.key == key && d.Some? && d.value.allowed
  }

  /** The number of allowed hits on the key at times in `[lo, hi)`. */
  function AllowedWithin(run: seq<Timed>, key: string, lo: real, hi: real): nat {
    if run == [] then 0
    else
      var n := |run| - 1;
      AllowedWithin(run[..n], key, lo, hi) + (if lo <= run[n].at < hi && AllowedHit(run, n, key) then 1 else 0)
  }

  /** One more command leaves the earlier commands' verdicts as they were. */
  lemma AllowedWithinStep(run: seq<Timed>, next: Timed, key: string, lo: real, hi: real)
    ensures AllowedWithin(run + [next], key, lo, hi)
         == AllowedWithin(run, key, lo, hi)
          + (if lo <= next.at < hi && AllowedHit(run + [next], |run|, key) then 1 else 0)
    ensures State(run + [next]) == Apply(State(run), next.command, next.at).0
  {
    assert (run + [next])[..|run|] == run;
  }

  /**
   * The counted hits split into `current`, those in the counter's present window, and `earlier`.
   * An interval that starts after a window opened misses that window's opening hit; an interval
   * that reaches back before the present window opened has used up its earlier budget.
   */
  ghost predicate Split(c: Counter, current: nat, earlier: nat, limit: int, window: real, lo: real) {
    var start := c.expiresAt - window;
    && c.count >= 1
    && current <= Max(Min(c.count, limit) - (if start < lo then 1 else 0), 0)
    && (lo + window <= start ==> current == 0)
    && (current + earlier > 0 ==> lo < c.expiresAt)
    && (earlier > 0 ==> lo < start)
    && earlier <= Max((if start < lo + window then limit else 2 * limit) - 1, 0)
  }

  /** A hit inside the present window: it joins the current hits if it is counted. */
  lemma HitInside(c: Counter, current: nat, earlier: nat, limit: int, window: real, lo: real, now: real, counted: bool)
    requires window > 0.0 && c.expiresAt - window <= now < c.expiresAt
    requires Split(c, current, earlier, limit, window, lo)
    requires counted ==> lo <= now < lo + window && c.count + 1 <= limit
    ensures Split(c.(count := c.count + 1), if counted then current + 1 else current, earlier, limit, window, lo)
  {
  }

  /** A hit that opens a window: all counted hits so far become earlier ones. */
  lemma HitOpens(c: Counter, current: nat, earlier: nat, limit: int, window: real, lo: real, now: real, counted: bool)
    requires window > 0.0 && c.expiresAt <= now
    requires (current == 0 && earlier == 0) || Split(c, current, earlier, limit, window, lo)
    requires counted ==> lo <= now < lo + window && 1 <= limit
    ensures Split(Counter(1, now + window), if counted then 1 else 0, current + earlier, limit, window, lo)
  {
  }

  /** The split of a run accounts for every counted hit. */
  ghost predicate Accounts(
      run: seq<Timed>, key: string, limit: int, window: int, lo: real, current: nat, earlier: nat)
  {
    && AllowedWithin(run, key, lo, lo + window as real) == current + earlier
    && (key !in State(run) ==> current == 0 && earlier == 0)
    && (key in State(run) ==>
          && Split(State(run)[key], current, earlier, limit, window as real, lo)
          && run != [] && State(run)[key].expiresAt - window as real <= run[|run| - 1].at)
  }

  lemma LastIsHit(run: seq<Timed>, key: string, limit: int, window: int)
    requires run != [] && run[|run| - 1].command == Hit(key, limit, window)
    ensures var n := |run| - 1;
            var c := Charged(Lookup(State(run[..n]), key), window, run[n].at);
            && State(run) == State(run[..n])[key := c]
            && (AllowedHit(run, n, key) <==> c.count <= limit)
  {
  }

  lemma AfterHit(run: seq<Timed>, key: string, limit: int, window: int, lo: real, current: nat, earlier: nat)
    returns (current': nat, earlier': nat)
    requires window > 0 && Ordered(run) && run != [] && run[|run| - 1].command == Hit(key, limit, window)
    requires Accounts(run[..|run| - 1], key, limit, window, lo, current, earlier)
    ensures Accounts(run, key, limit, window, lo, current', earlier')
  {
    var n, w := |run| - 1, window as real;
    var now, c := run[n].at, Lookup(State(run[..n]), key);
    var counted := lo <= now < lo + w && AllowedHit(run, n, key);
    LastIsHit(run, key, limit, window);
    if now < c.expiresAt {
      HitInside(c, current, earlier, limit, w, lo, now, counted);
      current', earlier' := if counted then current + 1 else current, earlier;
    } else {
      HitOpens(c, current, earlier, limit, w, lo, now, counted);
      current', earlier' := if counted then 1 else 0, current + earlier;
    }
  }

  lemma AfterOther(run: seq<Timed>, key: string, limit: int, window: int, lo: real, current: nat, earlier: nat)
    requires Ordered(run) && run != [] && !(run[|run| - 1].command.Hit? && run[|run| - 1].command.key == key)
    requires run[|run| - 1].command != Reset(key)
    requires Accounts(run[..|run| - 1], key, limit, window, lo, current, earlier)
    ensures Accounts(run, key, limit, window, lo, current, earlier)
  {
  }

  lemma {:induction false} WindowSplit(run: seq<Timed>, key: string, limit: int, window: int, lo: real)
    returns (current: nat, earlier: nat)
    requires window > 0 && Ordered(run) && Uniform(run, key, limit, window)
    ensures Accounts(run, key, limit, window, lo, current, earlier)
    decreases |run|
  {
    if run == [] {
      return 0, 0;
    }
    var n := |run| - 1;
    current, earlier := WindowSplit(run[..n], key, limit, window, lo);
    if run[n].command.Hit? && run[n].command.key == key {
      current, earlier := AfterHit(run, key, limit, window, lo, current, earlier);
    } else {
      AfterOther(run, key, limit, window, lo, current, earlier);
    }
  }

  /**
   * Any half-open interval as long as the window contains at most `2 * limit - 1` allowed hits:
   * one fewer than the documented 2x, because no such interval holds the opening hit of a window
   * together with a hit of the next one.
   */
  lemma FixedWindowBound(run: seq<Timed>, key: string, limit: int, window: int, lo: real)
    requires Ordered(run) && Uniform(run, key, limit, window)
    ensures AllowedWithin(run, key, lo, lo + window as real) <= Max(2 * limit - 1, 0)
  {
    if window > 0 {
      var current, earlier := WindowSplit(run, key, limit, window, lo);
    } else {
      NothingWithin(run, key, lo, lo + window as real);
    }
  }

  lemma {:induction false} NothingWithin(run: seq<Timed>, key: string, lo: real, hi: real)
    requires hi <= lo
    ensures AllowedWithin(run, key, lo, hi) == 0
  {
    if run != [] {
      NothingWithin(run[..|run| - 1], key, lo, hi);
    }
  }

  // ---------------------------------------------------------------- the bound is attained

  /** The run followed by `count` more hits at one instant. */
  function Burst(before: seq<Timed>, hit: Timed, count: nat): seq<Timed> {
    if count == 0 then before else Burst(before, hit, count - 1) + [hit]
  }

  lemma {:induction false} BurstOrdered(
      before: seq<Timed>, hit: Timed, count: nat, key: string, limit: int, window: int)
    requires Ordered(before) && Uniform(before, key, limit, window) && hit.command == Hit(key, limit, window)
    requires 0.0 <= hit.at && forall i :: 0 <= i < |before| ==> before[i].at <= hit.at
    ensures var run := Burst(before, hit, count);
            Ordered(run) && Uniform(run, key, limit, window) && forall i :: 0 <= i < |run| ==> run[i].at <= hit.at
  {
    if count > 0 {
      BurstOrdered(before, hit, count - 1, key, limit, window);
    }
  }

  /** One allowed hit inside the present window adds one to the counter and one to the count. */
  lemma AllowedOnce(before: seq<Timed>, key: string, limit: int, window: int, at: real, lo: real, hi: real)
    requires lo <= at < hi
    requires var c := Charged(Lookup(State(before), key), window, at); c.count <= limit
    ensures var run := before + [Timed(Hit(key, limit, window), at)];
            && State(run) == State(before)[key := Charged(Lookup(State(before), key), window, at)]
            && AllowedWithin(run, key, lo, hi) == AllowedWithin(before, key, lo, hi) + 1
  {
    var next := Timed(Hit(key, limit, window), at);
    AllowedWithinStep(before, next, key, lo, hi);
    assert (before + [next])[..|before|] == before;
  }

  /** A hit within the budget is let through, wherever it falls. */
  lemma HitCounted(before: seq<Timed>, key: string, limit: int, window: int, at: real, lo: real, hi: real)
    requires Charged(Lookup(State(before), key), window, at).count <= limit
    ensures var run := before + [Timed(Hit(key, limit, window), at)];
            && State(run) == State(before)[key := Charged(Lookup(State(before), key), window, at)]
            && AllowedWithin(run, key, lo, hi) == AllowedWithin(before, key, lo, hi) + (if lo <= at < hi then 1 else 0)
  {
    var next := Timed(Hit(key, limit, window), at);
    AllowedWithinStep(before, next, key, lo, hi);
    assert (before + [next])[..|before|] == before;
  }

  /** The counters after `count` more hits in the present window. */
  function Bumped(m: Counters, key: string, count: nat): Counters
    requires key in m
  {
    m[key := m[key].(count := m[key].count + count)]
  }

  /** The run has led to these counters after this many counted hits. */
  ghost predicate Reaches(run: seq<Timed>, m: Counters, key: string, lo: real, hi: real, counted: nat) {
    State(run) == m && AllowedWithin(run, key, lo, hi) == counted
  }

  lemma OneMore(run: seq<Timed>, m: Counters, hit: Timed, lo: real, hi: real, counted: nat)
    requires hit.command.Hit? && hit.command.key in m && lo <= hit.at < hi && hit.at < m[hit.command.key].expiresAt
    requires Reaches(run, m, hit.command.key, lo, hi, counted)
    requires m[hit.command.key].count + 1 <= hit.command.limit
    ensures Reaches(run + [hit], Bumped(m, hit.command.key, 1), hit.command.key, lo, hi, counted + 1)
  {
    var c := hit.command;
    AllowedOnce(run, c.key, c.limit, c.window, hit.at, lo, hi);
    assert hit == Timed(Hit(c.key, c.limit, c.window), hit.at);
  }

  lemma {:induction false} BurstCounts(
      before: seq<Timed>, m: Counters, hit: Timed, count: nat, lo: real, hi: real, counted: nat)
    requires hit.command.Hit? && hit.command.key in m && lo <= hit.at < hi && hit.at < m[hit.command.key].expiresAt
    requires Reaches(before, m, hit.command.key, lo, hi, counted)
    requires m[hit.command.key].count + count <= hit.command.limit
    ensures Reaches(Burst(before, hit, count), Bumped(m, hit.command.key, count), hit.command.key, lo, hi, counted +
        count)
    decreases count
  {
    var key := hit.command.key;
    if count == 0 {
      assert Bumped(m, key, 0) == m;
    } else {
      BurstCounts(before, m, hit, count - 1, lo, hi, counted);
      OneMore(Burst(before, hit, count - 1), Bumped(m, key, count - 1), hit, lo, hi, counted + count - 1);
      assert Bumped(Bumped(m, key, count - 1), key, 1) == Bumped(m, key, count);
    }
  }

  /** A window opened at 0, the rest of its budget spent at `mid`, then the next window opened. */
  function WindowOpened(key: string, limit: int, window: int, mid: real): seq<Timed>
    requires limit > 0
  {
    var hit, w := Hit(key, limit, window), window as real;
    Burst([Timed(hit, 0.0)], Timed(hit, mid), limit - 1) + [Timed(hit, w)]
  }

  /** ... and the rest of the next budget spent at that instant. */
  function BothWindows(key: string, limit: int, window: int, mid: real): seq<Timed>
    requires limit > 0
  {
    Burst(WindowOpened(key, limit, window, mid), Timed(Hit(key, limit, window), window as real), limit - 1)
  }

  lemma BothWindowsOrdered(key: string, limit: int, window: int, mid: real)
    requires limit > 0 && 0.0 < mid < window as real
    ensures var run := BothWindows(key, limit, window, mid); Ordered(run) && Uniform(run, key, limit, window)
  {
    var hit, w := Hit(key, limit, window), window as real;
    BurstOrdered([Timed(hit, 0.0)], Timed(hit, mid), limit - 1, key, limit, window);
    BurstOrdered(WindowOpened(key, limit, window, mid), Timed(hit, w), limit - 1, key, limit, window);
  }

  lemma OpeningCounts(hit: Timed, lo: real, hi: real)
    requires hit.command.Hit? && hit.command.limit > 0 && hit.command.window > 0 && hit.at == 0.0 < lo
    ensures Reaches([hit], map[hit.command.key := Counter(1, hit.command.window as real)], hit.command.key, lo, hi, 0)
  {
    AllowedWithinStep([], hit, hit.command.key, lo, hi);
    assert [] + [hit] == [hit];
  }

  lemma NextWindowOpens(run: seq<Timed>, hit: Timed, counted: nat, lo: real, hi: real)
    requires hit.command.Hit? && hit.command.limit > 0 && lo <= hit.at < hi
    requires Reaches(run, map[hit.command.key := Counter(hit.command.limit, hit.at)], hit.command.key, lo, hi, counted)
    ensures var next := Counter(1, hit.at + hit.command.window as real);
            Reaches(run + [hit], map[hit.command.key := next], hit.command.key, lo, hi, counted + 1)
  {
    var c := hit.command;
    AllowedOnce(run, c.key, c.limit, c.window, hit.at, lo, hi);
    assert hit == Timed(Hit(c.key, c.limit, c.window), hit.at);
  }

  lemma FirstWindowCount(key: string, limit: int, window: int, mid: real)
    requires limit > 0 && 0.0 < mid < window as real
    ensures var hit := Hit(key, limit, window);
            Reaches(Burst([Timed(hit, 0.0)], Timed(hit, mid), limit - 1), map[key := Counter(limit, window as real)],
                    key, mid, mid + window as real, limit - 1)
  {
    var hit := Hit(key, limit, window);
    var opening, m := [Timed(hit, 0.0)], map[key := Counter(1, window as real)];
    OpeningCounts(Timed(hit, 0.0), mid, mid + window as real);
    BurstCounts(opening, m, Timed(hit, mid), limit - 1, mid, mid + window as real, 0);
    assert Bumped(m, key, limit - 1) == map[key := Counter(limit, window as real)];
  }

  lemma BothWindowsCount(key: string, limit: int, window: int, mid: real)
    requires limit > 0 && 0.0 < mid < window as real
    ensures AllowedWithin(BothWindows(key, limit, window, mid), key, mid, mid + window as real) == 2 * limit - 1
  {
    var w, hit := window as real, Hit(key, limit, window);
    var next := map[key := Counter(1, w + w)];
    FirstWindowCount(key, limit, window, mid);
    NextWindowOpens(Burst([Timed(hit, 0.0)], Timed(hit, mid), limit - 1), Timed(hit, w), limit - 1, mid, mid + w);
    BurstCounts(WindowOpened(key, limit, window, mid), next, Timed(hit, w), limit - 1, mid, mid + w, limit);
  }

  /** The run obeys the bound's hypotheses and lets `2 * limit - 1` hits through from `lo` on. */
  ghost predicate Attains(run: seq<Timed>, key: string, limit: int, window: int, lo: real) {
    Ordered(run) && Uniform(run, key, limit, window)
    && AllowedWithin(run, key, lo, lo + window as real) == 2 * limit - 1
  }

  /** For every positive limit and window some run reaches the bound exactly. */
  lemma BoundAttained(key: string, limit: int, window: int)
    requires limit > 0 && window > 0
    ensures exists run, lo :: Attains(run, key, limit, window, lo)
  {
    var run, lo := BothWindows(key, limit, window, 0.5), 0.5;
    BothWindowsOrdered(key, limit, window, 0.5);
    BothWindowsCount(key, limit, window, 0.5);
    assert Attains(run, key, limit, window, lo);
  }

  // ---------------------------------------------------------------- when the window slides

  /** The interval from `lo` on, as long as the window, holds no more allowed hits than the limit. */
  ghost predicate WithinLimit(run: seq<Timed>, key: string, limit: int, window: int, lo: real) {
    AllowedWithin(run, key, lo, lo + window as real) <= Max(limit, 0)
  }

  /** What a sliding window promises: that of every run and every interval. */
  ghost predicate Slides(key: string, limit: int, window: int) {
    forall run, lo :: Ordered(run) && Uniform(run, key, limit, window) ==> WithinLimit(run, key, limit, window, lo)
  }

  /** The fixed window keeps the sliding promise if and only if the limit is at most 1 or the window is empty. */
  lemma SlidesExactly(key: string, limit: int, window: int)
    ensures Slides(key, limit, window) <==> limit <= 1 || window <= 0
  {
    if limit <= 1 || window <= 0 {
      forall run, lo | Ordered(run) && Uniform(run, key, limit, window)
        ensures WithinLimit(run, key, limit, window, lo)
      {
        FixedWindowBound(run, key, limit, window, lo);
        if window <= 0 {
          NothingWithin(run, key, lo, lo + window as real);
        }
      }
    } else {
      BoundAttained(key, limit, window);
      var run, lo :| Attains(run, key, limit, window, lo);
      assert !WithinLimit(run, key, limit, window, lo);
    }
  }
}
