/**
 * The fixed window of the shared limiter. On a whole-second clock it counts what the in-memory
 * limiter counts, so the bound carries over; what a whole-second clock adds is a window of one
 * second that really slides.
 */
module RedisWindow {
  import opened Wrappers
  import opened RateLimiting
  import InMemoryLimiter
  import LimiterEquivalence
  import RedisLimiter
  import FixedWindow

  type Run = seq<FixedWindow.Timed>

  predicate AllWhole(run: Run) {
    forall i {:trigger run[i]} :: 0 <= i < |run| ==> Whole(run[i].at)
  }

  /** The commands are ordered in time and fall on whole seconds. */
  predicate WholeSeconds(run: Run) {
    FixedWindow.Ordered(run) && AllWhole(run)
  }

  /** The keyspace after a run that starts on an empty server. */
  function State(run: Run): RedisLimiter.Keyspace {
    if run == [] then map[]
    else
      var n := |run| - 1;
      RedisLimiter.Apply(State(run[..n]), run[n].command, run[n].at.Floor).0
  }

  /** The i-th command is a hit on the key that was allowed. */
  predicate AllowedHit(run: Run, i: nat, key: string)
    requires i < |run|
  {
    var d := RedisLimiter.Apply(State(run[..i]), run[i].command, run[i].at.Floor).1;
    run[i].command.Hit? && run[i].command.key == key && d.Some? && d.value.allowed
  }

  /** The number of allowed hits on the key at times in `[lo, hi)`. */
  function AllowedWithin(run: Run, key: string, lo: real, hi: real): nat {
    if run == [] then 0
    else
      var n := |run| - 1;
      AllowedWithin(run[..n], key, lo, hi) + (if lo <= run[n].at < hi && AllowedHit(run, n, key) then 1 else 0)
  }

  // ---------------------------------------------------------------- the same counts

  lemma WholeNat(x: real) returns (n: nat)
    requires Whole(x) && 0.0 <= x
    ensures n == x.Floor && n as real == x
  {
    n := x.Floor;
  }

  /** The stores agree at every whole second from the last command on. */
  lemma {:induction false} StatesAgree(run: Run, now: nat)
    requires WholeSeconds(run) && (run != [] ==> run[|run| - 1].at <= now as real)
    ensures LimiterEquivalence.Agrees(FixedWindow.State(run), State(run), now)
    decreases |run|
  {
    if run == [] {
      forall key: string ensures LimiterEquivalence.AgreesOn(map[], map[], now, key) {
      }
    } else {
      var n := |run| - 1;
      var at := WholeNat(run[n].at);
      StatesAgree(run[..n], at);
      LimiterEquivalence.SameVerdict(FixedWindow.State(run[..n]), State(run[..n]), run[n].command, at);
      LimiterEquivalence.AgreesLater(FixedWindow.State(run), State(run), at, now);
    }
  }

  lemma SameAllowed(run: Run, i: nat, key: string)
    requires WholeSeconds(run) && i < |run|
    ensures AllowedHit(run, i, key) <==> FixedWindow.AllowedHit(run, i, key)
  {
    var at := WholeNat(run[i].at);
    StatesAgree(run[..i], at);
    LimiterEquivalence.SameVerdict(FixedWindow.State(run[..i]), State(run[..i]), run[i].command, at);
  }

  lemma {:induction false} SameCount(run: Run, key: string, lo: real, hi: real)
    requires WholeSeconds(run)
    ensures AllowedWithin(run, key, lo, hi) == FixedWindow.AllowedWithin(run, key, lo, hi)
  {
    if run != [] {
      SameCount(run[..|run| - 1], key, lo, hi);
      SameAllowed(run, |run| - 1, key);
    }
  }

  /** The bound of the shared limiter: at most `2 * limit - 1` in any interval of the window's length. */
  lemma RedisWindowBound(run: Run, key: string, limit: int, window: int, lo: real)
    requires WholeSeconds(run) && FixedWindow.Uniform(run, key, limit, window)
    ensures AllowedWithin(run, key, lo, lo + window as real) <= Max(2 * limit - 1, 0)
  {
    SameCount(run, key, lo, lo + window as real);
    FixedWindow.FixedWindowBound(run, key, limit, window, lo);
  }

  // ---------------------------------------------------------------- when the window slides

  /** What a sliding window promises, of every whole-second run and every interval. */
  ghost predicate Slides(key: string, limit: int, window: int) {
    forall run, lo :: WholeSeconds(run) && FixedWindow.Uniform(run, key, limit, window) ==>
      WithinLimit(run, key, limit, window, lo)
  }

  ghost predicate WithinLimit(run: Run, key: string, limit: int, window: int, lo: real) {
    AllowedWithin(run, key, lo, lo + window as real) <= Max(limit, 0)
  }

  /** With a window of one second: the counted hits all belong to the window opened at their instant. */
  ghost predicate Accounts(run: Run, key: string, limit: int, lo: real) {
    var m, counted := FixedWindow.State(run), FixedWindow.AllowedWithin(run, key, lo, lo + 1.0);
    if key !in m then counted == 0
    else
      var c := m[key];
      var start := c.expiresAt - 1.0;
      && run != [] && start <= run[|run| - 1].at && Whole(start) && c.count >= 1
      && counted <= (if start < lo then 0 else if start < lo + 1.0 then Max(Min(c.count, limit), 0) else Max(limit, 0))
  }

  lemma WholeStep(x: real, y: real)
    requires Whole(x) && Whole(y) && x < y
    ensures x + 1.0 <= y
  {
    assert x.Floor + 1 <= y.Floor;
    assert x + 1.0 == (x.Floor + 1) as real;
  }

  lemma SecondHit(run: Run, key: string, limit: int, lo: real)
    requires WholeSeconds(run) && run != [] && run[|run| - 1].command == Hit(key, limit, 1)
    requires Accounts(run[..|run| - 1], key, limit, lo)
    ensures Accounts(run, key, limit, lo)
  {
    var n := |run| - 1;
    var now, c := run[n].at, InMemoryLimiter.Lookup(FixedWindow.State(run[..n]), key);
    FixedWindow.LastIsHit(run, key, limit, 1);
    if key in FixedWindow.State(run[..n]) {
      var start := c.expiresAt - 1.0;
      if start < now {
        WholeStep(start, now);
      }
    }
    assert now + 1 as real - 1.0 == now;
  }

  lemma SecondOther(run: Run, key: string, limit: int, lo: real)
    requires WholeSeconds(run) && run != [] && !(run[|run| - 1].command.Hit? && run[|run| - 1].command.key == key)
    requires run[|run| - 1].command != Reset(key)
    requires Accounts(run[..|run| - 1], key, limit, lo)
    ensures Accounts(run, key, limit, lo)
  {
    var n := |run| - 1;
    var m, m' := FixedWindow.State(run[..n]), FixedWindow.State(run);
    assert key in m' <==> key in m;
    assert key in m ==> m'[key] == m[key];
  }

  lemma {:induction false} SecondsAccount(run: Run, key: string, limit: int, lo: real)
    requires WholeSeconds(run) && FixedWindow.Uniform(run, key, limit, 1)
    ensures Accounts(run, key, limit, lo)
    decreases |run|
  {
    if run != [] {
      var n := |run| - 1;
      SecondsAccount(run[..n], key, limit, lo);
      if run[n].command.Hit? && run[n].command.key == key {
        SecondHit(run, key, limit, lo);
      } else {
        SecondOther(run, key, limit, lo);
      }
    }
  }

  lemma OneSecondSlides(run: Run, key: string, limit: int, lo: real)
    requires WholeSeconds(run) && FixedWindow.Uniform(run, key, limit, 1)
    ensures WithinLimit(run, key, limit, 1, lo)
  {
    SecondsAccount(run, key, limit, lo);
    SameCount(run, key, lo, lo + 1.0);
    assert 1 as real == 1.0;
  }

  lemma {:induction false} BurstIsWhole(before: Run, hit: FixedWindow.Timed, count: nat)
    requires AllWhole(before) && Whole(hit.at)
    ensures AllWhole(FixedWindow.Burst(before, hit, count))
  {
    if count > 0 {
      BurstIsWhole(before, hit, count - 1);
    }
  }

  /** From two seconds on the bound is attained on whole seconds too. */
  lemma RedisBoundAttained(key: string, limit: int, window: int)
    requires limit > 0 && window > 1
    ensures var run := FixedWindow.BothWindows(key, limit, window, 1.0);
            && WholeSeconds(run) && FixedWindow.Uniform(run, key, limit, window)
            && AllowedWithin(run, key, 1.0, 1.0 + window as real) == 2 * limit - 1
  {
    var run, hit, w := FixedWindow.BothWindows(key, limit, window, 1.0), Hit(key, limit, window), window as real;
    FixedWindow.BothWindowsOrdered(key, limit, window, 1.0);
    assert AllWhole(FixedWindow.WindowOpened(key, limit, window, 1.0)) by {
      BurstIsWhole([FixedWindow.Timed(hit, 0.0)], FixedWindow.Timed(hit, 1.0), limit - 1);
    }
    BurstIsWhole(FixedWindow.WindowOpened(key, limit, window, 1.0), FixedWindow.Timed(hit, w), limit - 1);
    FixedWindow.BothWindowsCount(key, limit, window, 1.0);
    SameCount(run, key, 1.0, 1.0 + w);
  }

  /** On a whole-second clock a window of one second slides as well, and no longer one does with a limit above 1. */
  lemma RedisSlidesExactly(key: string, limit: int, window: int)
    ensures Slides(key, limit, window) <==> limit <= 1 || window <= 1
  {
    if limit <= 1 || window <= 1 {
      forall run, lo | WholeSeconds(run) && FixedWindow.Uniform(run, key, limit, window)
        ensures WithinLimit(run, key, limit, window, lo)
      {
        RedisWindowBound(run, key, limit, window, lo);
        if window == 1 {
          OneSecondSlides(run, key, limit, lo);
        } else if window <= 0 {
          SameCount(run, key, lo, lo + window as real);
          FixedWindow.NothingWithin(run, key, lo, lo + window as real);
        }
      }
    } else {
      RedisBoundAttained(key, limit, window);
      assert !WithinLimit(FixedWindow.BothWindows(key, limit, window, 1.0), key, limit, window, 1.0);
    }
  }
}
