/** Brute force is capped for each address and for each account, whatever else the limiter counts. */
module Lockout {
  import opened Wrappers
  import opened Entities
  import opened RateLimiting
  import opened InMemoryLimiter
  import opened LoginLimits
  import FixedWindow

  datatype Timed = Timed(event: Event, at: real)
  type Run = seq<Timed>

  /** A run with the counters before each event and, at the end, after the last one, and with the verdicts. */
  datatype Trace = Trace(run: Run, counters: seq<Counters>, verdicts: seq<Option<Verdict>>) {
    predicate Fits() {
      |counters| == |run| + 1 && |verdicts| == |run|
    }
  }

  /** Event `i` was served as specified; it has a verdict only if it is a login attempt. */
  predicate Serves(p: Policies, tr: Trace, i: nat)
    requires tr.Fits() && i < |tr.run|
  {
    (tr.counters[i + 1], tr.verdicts[i]) == Serve(p, tr.counters[i], tr.run[i].event, tr.run[i].at)
  }

  /** The trace is what the service does with the serialised run. */
  ghost predicate Served(p: Policies, tr: Trace) {
    tr.Fits() && forall i: nat :: i < |tr.run| ==> Serves(p, tr, i)
  }

  /** The verdicts clients of the run see, when no counter was kept before it. */
  ghost predicate Answers(p: Policies, run: Run, verdicts: seq<Option<Verdict>>) {
    exists counters :: FromNothing(p, Trace(run, counters, verdicts))
  }

  ghost predicate FromNothing(p: Policies, tr: Trace) {
    Served(p, tr) && tr.counters[0] == map[]
  }

  /** Every run has its verdicts. */
  lemma {:induction false} RunIsAnswered(p: Policies, run: Run) returns (tr: Trace)
    ensures tr.run == run && FromNothing(p, tr)
    decreases |run|
  {
    if run == [] {
      tr := Trace([], [map[]], []);
    } else {
      var n := |run| - 1;
      var before := RunIsAnswered(p, run[..n]);
      var (m, v) := Serve(p, before.counters[n], run[n].event, run[n].at);
      tr := Trace(run, before.counters + [m], before.verdicts + [v]);
      forall i: nat | i < |run| ensures Serves(p, tr, i) {
        if i < n {
          assert Serves(p, before, i);
        }
      }
    }
  }

  predicate Ordered(run: Run) {
    && (forall i :: 0 <= i < |run| ==> 0.0 <= run[i].at)
    && (forall i, j :: 0 <= i < j < |run| ==> run[i].at <= run[j].at)
  }

  // ---------------------------------------------------------------- counters stay within their limits

  /** What a counter belongs to. */
  datatype Subject = Ip(ip: string) | Account(email: string) {
    function Key(): string {
      if Ip? then IpKey(ip) else AccountKey(email)
    }

    function Policy(p: Policies): Policy {
      if Ip? then p.ip else p.account
    }

    /** A failed attempt of this kind is charged to the subject. */
    predicate Charges(a: Attempt) {
      if Ip? then a.ip == Some(ip) else a.email == email
    }

    predicate Concerns(e: Event) {
      e.Attempted? && Charges(e.attempt)
    }
  }

  /** What one attempt does to one counter. */
  lemma TryOnKey(p: Policies, m: Counters, a: Attempt, now: real, s: Subject)
    requires s.Policy(p).IsEnforced()
    ensures var (m', v) := Try(p, m, a, now);
            var c := Charged(Lookup(m, s.Key()), s.Policy(p).windowSeconds, now);
            if v.Failed? && s.Charges(a) then s.Key() in m' && m'[s.Key()] == c && c.count <= s.Policy(p).limit
            else if v.Passed? && s.Account? && s.Charges(a) then s.Key() !in m'
            else (s.Key() in m' <==> s.Key() in m) && Lookup(m', s.Key()) == Lookup(m, s.Key())
  {
    KeysDistinct(if s.Ip? then s.ip else "", a.email);
    KeysDistinct(if a.ip.Some? then a.ip.value else "", if s.Account? then s.email else "");
    KeysInjective(if s.Ip? then s.ip else s.email, if s.Ip? && a.ip.Some? then a.ip.value else a.email);
  }

  /** What one event does to one counter: a request to another counter does nothing. */
  lemma ServeOnKey(p: Policies, m: Counters, e: Event, now: real, s: Subject)
    requires s.Policy(p).IsEnforced()
    ensures var (m', v) := Serve(p, m, e, now);
            var c := Charged(Lookup(m, s.Key()), s.Policy(p).windowSeconds, now);
            if v == Some(Failed) && s.Concerns(e) then s.Key() in m' && m'[s.Key()] == c && c.count <= s.Policy(p).limit
            else if v == Some(Passed) && s.Account? && s.Concerns(e) then s.Key() !in m'
            else (s.Key() in m' <==> s.Key() in m) && Lookup(m', s.Key()) == Lookup(m, s.Key())
  {
    match e
    case Attempted(a) => TryOnKey(p, m, a, now, s);
    case Throttled(surface, policy) =>
      SurfacesApart(surface, if s.Ip? then s.ip else "", if s.Account? then s.email else "");
  }

  /** Serialised events never push a login counter past its limit. */
  lemma {:induction false} CountersBounded(p: Policies, tr: Trace, s: Subject, k: nat)
    requires Served(p, tr) && k <= |tr.run| && s.Policy(p).IsEnforced()
    requires Lookup(tr.counters[0], s.Key()).count <= s.Policy(p).limit
    ensures Lookup(tr.counters[k], s.Key()).count <= s.Policy(p).limit
  {
    if k > 0 {
      CountersBounded(p, tr, s, k - 1);
      assert Serves(p, tr, k - 1);
      ServeOnKey(p, tr.counters[k - 1], tr.run[k - 1].event, tr.run[k - 1].at, s);
    }
  }

  // ---------------------------------------------------------------- the lock

  /** The account's counter is full and its window has not ended. */
  predicate Locked(p: Policies, m: Counters, email: string, now: real) {
    var c := Lookup(m, AccountKey(email));
    p.account.IsEnforced() && c.count >= p.account.limit && now < c.expiresAt
  }

  /** The account guard refuses exactly while the account is locked. */
  lemma GuardIsLock(p: Policies, m: Counters, email: string, now: real)
    ensures GuardAccount(p, m, email, now).Some? <==> Locked(p, m, email, now)
  {
  }

  /** The address guard refuses exactly a known address whose counter is full before its window ends. */
  lemma IpGuardIsExact(p: Policies, m: Counters, ip: Option<string>, now: real)
    ensures GuardIp(p, m, ip, now).Some? <==>
              && p.ip.IsEnforced() && ip.Some?
              && Lookup(m, IpKey(ip.value)).count >= p.ip.limit && now < Lookup(m, IpKey(ip.value)).expiresAt
  {
  }

  predicate TurnedAway(v: Option<Verdict>) {
    v.Some? && v.value.Refused?
  }

  lemma LockedStep(p: Policies, m: Counters, e: Event, now: real, email: string)
    requires Locked(p, m, email, now)
    ensures var (m', v) := Serve(p, m, e, now);
            && Lookup(m', AccountKey(email)) == Lookup(m, AccountKey(email))
            && (Account(email).Concerns(e) ==> TurnedAway(v))
  {
    ServeOnKey(p, m, e, now, Account(email));
    GuardIsLock(p, m, email, now);
  }

  /**
   * From a full account counter, whatever is requested before its window ends: the counter stands
   * still and every attempt on the account is refused, also one with the right password.
   */
  lemma {:induction false} LockHolds(p: Policies, tr: Trace, from: nat, until: nat, email: string)
    requires Served(p, tr) && from <= until <= |tr.run| && p.account.IsEnforced()
    requires Lookup(tr.counters[from], AccountKey(email)).count >= p.account.limit
    requires var end := Lookup(tr.counters[from], AccountKey(email)).expiresAt;
             forall k: nat :: from <= k < until ==> tr.run[k].at < end
    ensures Lookup(tr.counters[until], AccountKey(email)) == Lookup(tr.counters[from], AccountKey(email))
    ensures forall k: nat ::
        from <= k < until && Account(email).Concerns(tr.run[k].event) ==> TurnedAway(tr.verdicts[k])
    decreases until
  {
    if from < until {
      var k := until - 1;
      LockHolds(p, tr, from, k, email);
      assert Serves(p, tr, k);
      LockedStep(p, tr.counters[k], tr.run[k].event, tr.run[k].at, email);
    }
  }

  predicate WholeRun(run: Run) {
    forall i {:trigger run[i]} :: 0 <= i < |run| ==> 0.0 <= run[i].at && Whole(run[i].at)
  }

  lemma WholeSum(x: real, seconds: int)
    requires Whole(x)
    ensures Whole(x + seconds as real)
  {
    assert x + seconds as real == (x.Floor + seconds) as real;
  }

  /** On a whole-second clock every window ends on a whole second. */
  lemma {:induction false} WholeWindows(p: Policies, tr: Trace, k: nat, email: string)
    requires FromNothing(p, tr) && WholeRun(tr.run) && k <= |tr.run| && p.account.IsEnforced()
    ensures Whole(Lookup(tr.counters[k], AccountKey(email)).expiresAt)
  {
    if k > 0 {
      WholeWindows(p, tr, k - 1, email);
      assert Serves(p, tr, k - 1);
      ServeOnKey(p, tr.counters[k - 1], tr.run[k - 1].event, tr.run[k - 1].at, Account(email));
      WholeSum(tr.run[k - 1].at, p.account.windowSeconds);
    }
  }

  lemma RetryReachesEnd(p: Policies, m: Counters, email: string, now: real)
    requires GuardAccount(p, m, email, now).Some? && Whole(now) && Whole(Lookup(m, AccountKey(email)).expiresAt)
    ensures now + GuardAccount(p, m, email, now).value.retryAfter as real == Lookup(m, AccountKey(email)).expiresAt
  {
    var c := Lookup(m, AccountKey(email));
    GuardIsLock(p, m, email, now);
    assert c.expiresAt - now == (c.expiresAt.Floor - now.Floor) as real;
  }

  /**
   * On a whole-second clock `retryAfter` is exact: the lock holds through every event less than
   * that many seconds later and is gone at that second, whatever was requested meanwhile.
   */
  lemma RetryAfterIsExact(p: Policies, tr: Trace, from: nat, until: nat, email: string, now: real)
    requires FromNothing(p, tr) && WholeRun(tr.run) && from <= until <= |tr.run| && Whole(now)
    requires GuardAccount(p, tr.counters[from], email, now).Some?
    requires var seconds := GuardAccount(p, tr.counters[from], email, now).value.retryAfter;
             forall k: nat :: from <= k < until ==> tr.run[k].at < now + seconds as real
    ensures forall k: nat ::
        from <= k < until && Account(email).Concerns(tr.run[k].event) ==> TurnedAway(tr.verdicts[k])
    ensures var end := now + GuardAccount(p, tr.counters[from], email, now).value.retryAfter as real;
            forall t: real :: GuardAccount(p, tr.counters[until], email, t).Some? <==> t < end
  {
    var m, m' := tr.counters[from], tr.counters[until];
    GuardIsLock(p, m, email, now);
    WholeWindows(p, tr, from, email);
    RetryReachesEnd(p, m, email, now);
    LockHolds(p, tr, from, until, email);
    forall t: real ensures GuardAccount(p, m', email, t).Some? <==> t < Lookup(m, AccountKey(email)).expiresAt {
      GuardIsLock(p, m', email, t);
    }
  }

  /** The account lock, in one run's verdicts: attempt `i` is told to come back `seconds` later. */
  predicate LockedOut(run: Run, verdicts: seq<Option<Verdict>>, i: nat, email: string, seconds: int)
    requires |verdicts| == |run|
  {
    i < |run| && Account(email).Concerns(run[i].event) && verdicts[i] == Some(Refused(AccountLocked(seconds)))
  }

  /** The attempt is refused before `end`; the first event from `end` on is not locked out. */
  predicate OpensAt(run: Run, verdicts: seq<Option<Verdict>>, k: nat, end: real)
    requires |verdicts| == |run| && 0 < k < |run|
  {
    && (run[k].at < end ==> TurnedAway(verdicts[k]))
    && (run[k - 1].at < end <= run[k].at ==> !(TurnedAway(verdicts[k]) && verdicts[k].value.error.AccountLocked?))
  }

  /** Once an attempt was told to come back in some seconds, the account is locked for exactly these seconds. */
  lemma LockSpansRetryAfter(
      p: Policies, run: Run, verdicts: seq<Option<Verdict>>, i: nat, email: string, seconds: int, k: nat)
    requires Answers(p, run, verdicts) && Ordered(run) && WholeRun(run)
    requires |verdicts| == |run| && LockedOut(run, verdicts, i, email, seconds)
    requires i < k < |run| && Account(email).Concerns(run[k].event)
    ensures OpensAt(run, verdicts, k, run[i].at + seconds as real)
  {
    var counters :| FromNothing(p, Trace(run, counters, verdicts));
    var tr := Trace(run, counters, verdicts);
    assert Serves(p, tr, i);
    LockSaysWhen(p, counters[i], run[i].event.attempt, run[i].at, seconds);
    if run[k - 1].at < run[i].at + seconds as real {
      RetryAfterIsExact(p, tr, i, k, email, run[i].at);
      assert Serves(p, tr, k);
      LockDecides(p, counters[k], run[k].event.attempt, run[k].at);
    }
  }

  lemma LockSaysWhen(p: Policies, m: Counters, a: Attempt, now: real, seconds: int)
    requires Try(p, m, a, now).1 == Refused(AccountLocked(seconds))
    ensures GuardAccount(p, m, a.email, now) == Some(AccountLocked(seconds))
  {
  }

  lemma LockDecides(p: Policies, m: Counters, a: Attempt, now: real)
    ensures var v := Try(p, m, a, now).1;
            if GuardAccount(p, m, a.email, now).Some? then v.Refused? else v.Refused? ==> !v.error.AccountLocked?
  {
  }

  // ---------------------------------------------------------------- failed checks per window

  /** Event `k` is a failed check charged to the subject at a time in `[lo, hi)`. */
  predicate Fails(run: Run, verdicts: seq<Option<Verdict>>, s: Subject, k: nat, lo: real, hi: real)
    requires |verdicts| == |run| && k < |run|
  {
    lo <= run[k].at < hi && s.Concerns(run[k].event) && verdicts[k] == Some(Failed)
  }

  /** The failed checks among the events `from` to `to`. */
  function FailedBetween(
      run: Run, verdicts: seq<Option<Verdict>>, s: Subject, from: nat, until: nat, lo: real, hi: real): nat
    requires |verdicts| == |run| && from <= until <= |run|
    decreases until
  {
    if from == until then 0
    else
      FailedBetween(run, verdicts, s, from, until - 1, lo, hi) +
          (if Fails(run, verdicts, s, until - 1, lo, hi) then 1 else 0)
  }

  /** No attempt on the account succeeds among these events; an address has no notion of success. */
  predicate NoSuccess(run: Run, verdicts: seq<Option<Verdict>>, s: Subject, from: nat, until: nat)
    requires |verdicts| == |run| && from <= until <= |run|
  {
    forall k {:trigger verdicts[k]} ::
      from <= k < until && s.Account? && s.Concerns(run[k].event) ==> verdicts[k] != Some(Passed)
  }

  lemma {:induction false} EarlierStartCountsMore(
      run: Run, verdicts: seq<Option<Verdict>>, s: Subject, from: nat, until: nat, lo: real, hi: real)
    requires |verdicts| == |run| && 0 < from <= until <= |run|
    ensures FailedBetween(run, verdicts, s, from, until, lo, hi) <=
        FailedBetween(run, verdicts, s, from - 1, until, lo, hi)
    decreases until
  {
    if from < until {
      EarlierStartCountsMore(run, verdicts, s, from, until - 1, lo, hi);
    }
  }

  /** The commands that reach the subject's counter: one hit for each failed check. */
  function Hits(policy: Policy, tr: Trace, s: Subject, from: nat, until: nat): seq<FixedWindow.Timed>
    requires tr.Fits() && from <= until <= |tr.run|
    decreases until
  {
    if from == until then []
    else
      var k := until - 1;
      Hits(policy, tr, s, from, k)
      + (if s.Concerns(tr.run[k].event) && tr.verdicts[k] == Some(Failed)
         then [FixedWindow.Timed(Hit(s.Key(), policy.limit, policy.windowSeconds), tr.run[k].at)] else [])
  }

  lemma HitsStep(policy: Policy, tr: Trace, s: Subject, from: nat, k: nat)
    requires tr.Fits() && from <= k < |tr.run|
    ensures var before, after := Hits(policy, tr, s, from, k), Hits(policy, tr, s, from, k + 1);
            var hit := FixedWindow.Timed(Hit(s.Key(), policy.limit, policy.windowSeconds), tr.run[k].at);
            if s.Concerns(tr.run[k].event) && tr.verdicts[k] == Some(Failed) then after == before + [hit]
            else after == before
  {
  }

  lemma {:induction false} HitsOrdered(policy: Policy, tr: Trace, s: Subject, from: nat, until: nat)
    requires tr.Fits() && Ordered(tr.run) && from <= until <= |tr.run|
    ensures var hits := Hits(policy, tr, s, from, until);
            && FixedWindow.Ordered(hits)
            && FixedWindow.Uniform(hits, s.Key(), policy.limit, policy.windowSeconds)
            && (hits != [] ==> from < until && hits[|hits| - 1].at <= tr.run[until - 1].at)
    decreases until
  {
    if from < until {
      var k := until - 1;
      var before := Hits(policy, tr, s, from, k);
      HitsOrdered(policy, tr, s, from, k);
      HitsStep(policy, tr, s, from, k);
      assert before != [] ==> tr.run[k - 1].at <= tr.run[k].at;
      if Hits(policy, tr, s, from, until) != before {
        var hit := FixedWindow.Timed(Hit(s.Key(), policy.limit, policy.windowSeconds), tr.run[k].at);
        FixedWindow.HitAppended(before, hit, s.Key(), policy.limit, policy.windowSeconds);
      }
    }
  }

  /** The limiter sees the same counter, and lets every one of these hits through. */
  ghost predicate Mirrors(policy: Policy, tr: Trace, s: Subject, from: nat, until: nat, lo: real, hi: real)
    requires tr.Fits() && from <= until <= |tr.run|
  {
    var hits, m := Hits(policy, tr, s, from, until), tr.counters[until];
    && (s.Key() in FixedWindow.State(hits) <==> s.Key() in m)
    && Lookup(FixedWindow.State(hits), s.Key()) == Lookup(m, s.Key())
    && FixedWindow.AllowedWithin(hits, s.Key(), lo, hi) == FailedBetween(tr.run, tr.verdicts, s, from, until, lo, hi)
  }

  lemma MirrorsFailure(p: Policies, tr: Trace, s: Subject, from: nat, k: nat, lo: real, hi: real)
    requires Served(p, tr) && from <= k < |tr.run| && s.Policy(p).IsEnforced()
    requires Mirrors(s.Policy(p), tr, s, from, k, lo, hi)
    requires s.Concerns(tr.run[k].event) && tr.verdicts[k] == Some(Failed)
    ensures Mirrors(s.Policy(p), tr, s, from, k + 1, lo, hi)
  {
    var policy, at := s.Policy(p), tr.run[k].at;
    assert Serves(p, tr, k);
    ServeOnKey(p, tr.counters[k], tr.run[k].event, at, s);
    HitsStep(policy, tr, s, from, k);
    FixedWindow.HitCounted(Hits(policy, tr, s, from, k), s.Key(), policy.limit, policy.windowSeconds, at, lo, hi);
  }

  lemma MirrorsOther(p: Policies, tr: Trace, s: Subject, from: nat, k: nat, lo: real, hi: real)
    requires Served(p, tr) && from <= k < |tr.run| && s.Policy(p).IsEnforced()
    requires Mirrors(s.Policy(p), tr, s, from, k, lo, hi)
    requires !(s.Concerns(tr.run[k].event) && tr.verdicts[k] == Some(Failed))
    requires s.Account? && s.Concerns(tr.run[k].event) ==> tr.verdicts[k] != Some(Passed)
    ensures Mirrors(s.Policy(p), tr, s, from, k + 1, lo, hi)
  {
    assert Serves(p, tr, k);
    ServeOnKey(p, tr.counters[k], tr.run[k].event, tr.run[k].at, s);
    HitsStep(s.Policy(p), tr, s, from, k);
  }

  lemma {:induction false} StretchMirrors(p: Policies, tr: Trace, s: Subject, from: nat, until: nat, lo: real, hi: real)
    requires Served(p, tr) && from <= until <= |tr.run| && s.Policy(p).IsEnforced() && s.Key() !in tr.counters[from]
    requires NoSuccess(tr.run, tr.verdicts, s, from, until)
    ensures Mirrors(s.Policy(p), tr, s, from, until, lo, hi)
    decreases until
  {
    if from < until {
      var k := until - 1;
      StretchMirrors(p, tr, s, from, k, lo, hi);
      if s.Concerns(tr.run[k].event) && tr.verdicts[k] == Some(Failed) {
        MirrorsFailure(p, tr, s, from, k, lo, hi);
      } else {
        MirrorsOther(p, tr, s, from, k, lo, hi);
      }
    }
  }

  lemma FreshStretchBound(p: Policies, tr: Trace, s: Subject, from: nat, until: nat, lo: real)
    requires Served(p, tr) && Ordered(tr.run) && from <= until <= |tr.run| && s.Policy(p).IsEnforced()
    requires NoSuccess(tr.run, tr.verdicts, s, from, until) && s.Key() !in tr.counters[from]
    ensures var hi := lo + s.Policy(p).windowSeconds as real;
            FailedBetween(tr.run, tr.verdicts, s, from, until, lo, hi) <= 2 * s.Policy(p).limit - 1
  {
    var policy := s.Policy(p);
    StretchMirrors(p, tr, s, from, until, lo, lo + policy.windowSeconds as real);
    HitsOrdered(policy, tr, s, from, until);
    FixedWindow.FixedWindowBound(Hits(policy, tr, s, from, until), s.Key(), policy.limit, policy.windowSeconds, lo);
  }

  /** A success clears the account's counter. */
  lemma SuccessClears(p: Policies, tr: Trace, email: string, k: nat)
    requires Served(p, tr) && k < |tr.run| && p.account.IsEnforced()
    requires Account(email).Concerns(tr.run[k].event) && tr.verdicts[k] == Some(Passed)
    ensures AccountKey(email) !in tr.counters[k + 1]
  {
    assert Serves(p, tr, k);
    ServeOnKey(p, tr.counters[k], tr.run[k].event, tr.run[k].at, Account(email));
  }

  /** At the start and right after a success there is no counter; elsewhere the stretch extends backwards. */
  lemma {:induction false} StretchBound(p: Policies, tr: Trace, s: Subject, from: nat, until: nat, lo: real)
    requires FromNothing(p, tr) && Ordered(tr.run) && from <= until <= |tr.run| && s.Policy(p).IsEnforced()
    requires NoSuccess(tr.run, tr.verdicts, s, from, until)
    ensures var hi := lo + s.Policy(p).windowSeconds as real;
            FailedBetween(tr.run, tr.verdicts, s, from, until, lo, hi) <= 2 * s.Policy(p).limit - 1
    decreases from
  {
    if s.Key() !in tr.counters[from] {
      FreshStretchBound(p, tr, s, from, until, lo);
    } else {
      if s.Account? && s.Concerns(tr.run[from - 1].event) && tr.verdicts[from - 1] == Some(Passed) {
        SuccessClears(p, tr, s.email, from - 1);
      }
      StretchBound(p, tr, s, from - 1, until, lo);
      EarlierStartCountsMore(tr.run, tr.verdicts, s, from, until, lo, lo + s.Policy(p).windowSeconds as real);
    }
  }

  /**
   * In any window-length interval at most `2 * limit - 1` passwords are checked and found wrong
   * among events without a success on the subject: between two successes of an account, and in
   * the whole run for an address.
   */
  lemma FailedChecksBound(
      p: Policies, run: Run, verdicts: seq<Option<Verdict>>, s: Subject, from: nat, until: nat, lo: real)
    requires Answers(p, run, verdicts) && Ordered(run) && s.Policy(p).IsEnforced()
    requires |verdicts| == |run| && from <= until <= |run| && NoSuccess(run, verdicts, s, from, until)
    ensures var hi := lo + s.Policy(p).windowSeconds as real;
            FailedBetween(run, verdicts, s, from, until, lo, hi) <= 2 * s.Policy(p).limit - 1
  {
    var counters :| FromNothing(p, Trace(run, counters, verdicts));
    StretchBound(p, Trace(run, counters, verdicts), s, from, until, lo);
  }

  /** An address is bounded over the whole of every run, whatever succeeds. */
  lemma FailedChecksPerAddress(p: Policies, run: Run, verdicts: seq<Option<Verdict>>, ip: string, lo: real)
    requires Answers(p, run, verdicts) && Ordered(run) && p.ip.IsEnforced() && |verdicts| == |run|
    ensures FailedBetween(run, verdicts, Ip(ip), 0, |run|, lo, lo + p.ip.windowSeconds as real) <= 2 * p.ip.limit - 1
  {
    FailedChecksBound(p, run, verdicts, Ip(ip), 0, |run|, lo);
  }
}
