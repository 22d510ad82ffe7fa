/** Login attempts against the shared limiter: on a whole-second clock its clients see the same verdicts. */
module RedisLockout {
  import opened Wrappers
  import opened Entities
  import opened RateLimiting
  import opened LoginLimits
  import opened Lockout
  import InMemoryLimiter
  import LimiterEquivalence
  import R = RedisLimiter

  function PeekAt(s: R.Keyspace, key: string, limit: int, now: int): Decision {
    R.Apply(s, Peek(key, limit), now).1.value
  }

  /** The refusal, if any, before the password is looked at: the address first, then the account. */
  function Gate(p: Policies, s: R.Keyspace, a: Attempt, now: int): Option<AppError> {
    if p.ip.IsEnforced() && a.ip.Some? && !PeekAt(s, IpKey(a.ip.value), p.ip.limit, now).allowed
    then Some(RateLimited(PeekAt(s, IpKey(a.ip.value), p.ip.limit, now).retryAfter))
    else if p.account.IsEnforced() && !PeekAt(s, AccountKey(a.email), p.account.limit, now).allowed
    then Some(AccountLocked(PeekAt(s, AccountKey(a.email), p.account.limit, now).retryAfter))
    else None
  }

  /** One hit, if the rule is enforced. */
  function HitFor(policy: Policy, s: R.Keyspace, key: string, now: int): R.Keyspace {
    if policy.IsEnforced() then R.Apply(s, Hit(key, policy.limit, policy.windowSeconds), now).0 else s
  }

  function Try(p: Policies, s: R.Keyspace, a: Attempt, now: int): (R.Keyspace, Verdict) {
    var refusal := Gate(p, s, a, now);
    if refusal.Some? then (s, Refused(refusal.value))
    else if a.valid then (R.Apply(s, Reset(AccountKey(a.email)), now).0, Passed)
    else
      var charged := if a.ip.Some? then HitFor(p.ip, s, IpKey(a.ip.value), now) else s;
      (HitFor(p.account, charged, AccountKey(a.email), now), Failed)
  }

  function Serve(p: Policies, s: R.Keyspace, e: Event, now: int): (R.Keyspace, Option<Verdict>) {
    match e
    case Attempted(a) =>
      var (s', v) := Try(p, s, a, now);
      (s', Some(v))
    case Throttled(surface, policy) => (HitFor(policy, s, surface.Key(), now), None)
  }

  // ---------------------------------------------------------------- one event

  lemma SameHitFor(policy: Policy, m: InMemoryLimiter.Counters, s: R.Keyspace, key: string, now: nat)
    requires LimiterEquivalence.Agrees(m, s, now) && policy.IsEnforced()
    ensures var m' := InMemoryLimiter.Apply(m, Hit(key, policy.limit, policy.windowSeconds), now as real).0;
            LimiterEquivalence.Agrees(m', HitFor(policy, s, key, now), now)
  {
    LimiterEquivalence.SameVerdict(m, s, Hit(key, policy.limit, policy.windowSeconds), now);
  }

  lemma SameCharge(p: Policies, m: InMemoryLimiter.Counters, s: R.Keyspace, a: Attempt, now: nat)
    requires LimiterEquivalence.Agrees(m, s, now)
    ensures var charged := if a.ip.Some? then HitFor(p.ip, s, IpKey(a.ip.value), now) else s;
            var s' := HitFor(p.account, charged, AccountKey(a.email), now);
            LimiterEquivalence.Agrees(Charge(p, m, a.ip, a.email, now as real), s', now)
  {
    var charged := if a.ip.Some? then HitFor(p.ip, s, IpKey(a.ip.value), now) else s;
    var m' := ChargeIp(p, m, a.ip, now as real);
    if p.ip.IsEnforced() && a.ip.Some? {
      SameHitFor(p.ip, m, s, IpKey(a.ip.value), now);
    }
    assert LimiterEquivalence.Agrees(m', charged, now);
    if p.account.IsEnforced() {
      SameHitFor(p.account, m', charged, AccountKey(a.email), now);
    }
  }

  lemma SameGate(p: Policies, m: InMemoryLimiter.Counters, s: R.Keyspace, a: Attempt, now: nat)
    requires LimiterEquivalence.Agrees(m, s, now)
    ensures LoginLimits.Gate(p, m, a.ip, a.email, now as real) == Gate(p, s, a, now)
  {
    if a.ip.Some? {
      assert LimiterEquivalence.AgreesOn(m, s, now, IpKey(a.ip.value));
      LimiterEquivalence.SamePeek(m, s, IpKey(a.ip.value), p.ip.limit, now);
    }
    assert LimiterEquivalence.AgreesOn(m, s, now, AccountKey(a.email));
    LimiterEquivalence.SamePeek(m, s, AccountKey(a.email), p.account.limit, now);
  }

  lemma SameTry(p: Policies, m: InMemoryLimiter.Counters, s: R.Keyspace, a: Attempt, now: nat)
    requires LimiterEquivalence.Agrees(m, s, now)
    ensures LoginLimits.Try(p, m, a, now as real).1 == Try(p, s, a, now).1
    ensures LimiterEquivalence.Agrees(LoginLimits.Try(p, m, a, now as real).0, Try(p, s, a, now).0, now)
  {
    SameGate(p, m, s, a, now);
    SameCharge(p, m, s, a, now);
    LimiterEquivalence.SameVerdict(m, s, Reset(AccountKey(a.email)), now);
  }

  lemma SameServe(p: Policies, m: InMemoryLimiter.Counters, s: R.Keyspace, e: Event, now: nat)
    requires LimiterEquivalence.Agrees(m, s, now)
    ensures LoginLimits.Serve(p, m, e, now as real).1 == Serve(p, s, e, now).1
    ensures LimiterEquivalence.Agrees(LoginLimits.Serve(p, m, e, now as real).0, Serve(p, s, e, now).0, now)
  {
    match e
    case Attempted(a) => SameTry(p, m, s, a, now);
    case Throttled(surface, policy) =>
      if policy.IsEnforced() {
        SameHitFor(policy, m, s, surface.Key(), now);
      }
  }

  // ---------------------------------------------------------------- every run

  /** A whole-second run with the keyspace before each event and after the last, and with the verdicts. */
  datatype SharedTrace = SharedTrace(run: Run, keyspaces: seq<R.Keyspace>, verdicts: seq<Option<Verdict>>) {
    predicate Fits() {
      |keyspaces| == |run| + 1 && |verdicts| == |run|
    }
  }

  predicate Serves(p: Policies, tr: SharedTrace, i: nat)
    requires tr.Fits() && i < |tr.run|
  {
    (tr.keyspaces[i + 1], tr.verdicts[i]) == Serve(p, tr.keyspaces[i], tr.run[i].event, tr.run[i].at.Floor)
  }

  ghost predicate FromNothing(p: Policies, tr: SharedTrace) {
    tr.Fits() && tr.keyspaces[0] == map[] && forall i: nat :: i < |tr.run| ==> Serves(p, tr, i)
  }

  /** The verdicts clients of the run see, when the server was empty before it. */
  ghost predicate Answers(p: Policies, run: Run, verdicts: seq<Option<Verdict>>) {
    exists keyspaces :: FromNothing(p, SharedTrace(run, keyspaces, verdicts))
  }

  /** Step by step both limiters reach agreeing stores and give the same verdict. */
  lemma {:induction false} SameTrace(p: Policies, tr: SharedTrace, local: Trace, k: nat)
    requires FromNothing(p, tr) && Lockout.FromNothing(p, local) && local.run == tr.run
    requires Ordered(tr.run) && WholeRun(tr.run) && k <= |tr.run|
    ensures var now := if k < |tr.run| then tr.run[k].at.Floor else if k == 0 then 0 else tr.run[k - 1].at.Floor;
            now >= 0 && LimiterEquivalence.Agrees(local.counters[k], tr.keyspaces[k], now)
    ensures forall i: nat :: i < k ==> local.verdicts[i] == tr.verdicts[i]
    decreases k
  {
    var now: nat := if k < |tr.run| then tr.run[k].at.Floor else if k == 0 then 0 else tr.run[k - 1].at.Floor;
    if k == 0 {
      forall key: string ensures LimiterEquivalence.AgreesOn(local.counters[0], tr.keyspaces[0], now, key) {
      }
    } else {
      var before := k - 1;
      SameTrace(p, tr, local, before);
      var at: nat := tr.run[before].at.Floor;
      assert at as real == tr.run[before].at;
      assert Serves(p, tr, before) && Lockout.Serves(p, local, before);
      SameServe(p, local.counters[before], tr.keyspaces[before], tr.run[before].event, at);
      LimiterEquivalence.AgreesLater(local.counters[k], tr.keyspaces[k], at, now);
    }
  }

  /** Whatever the shared limiter answers over a whole-second run, the in-memory limiter answers too. */
  lemma SharedAnswersAlike(p: Policies, run: Run, verdicts: seq<Option<Verdict>>)
    requires Answers(p, run, verdicts) && Ordered(run) && WholeRun(run)
    ensures Lockout.Answers(p, run, verdicts)
  {
    var keyspaces :| FromNothing(p, SharedTrace(run, keyspaces, verdicts));
    var local := RunIsAnswered(p, run);
    SameTrace(p, SharedTrace(run, keyspaces, verdicts), local, |run|);
    assert local.verdicts == verdicts;
    assert local == Trace(run, local.counters, verdicts);
  }

  /** With the shared limiter too, the account is locked for exactly the announced seconds. */
  lemma SharedLockSpansRetryAfter(
      p: Policies, run: Run, verdicts: seq<Option<Verdict>>, i: nat, email: string, seconds: int, k: nat)
    requires Answers(p, run, verdicts) && Ordered(run) && WholeRun(run)
    requires |verdicts| == |run| && LockedOut(run, verdicts, i, email, seconds)
    requires i < k < |run| && Account(email).Concerns(run[k].event)
    ensures OpensAt(run, verdicts, k, run[i].at + seconds as real)
  {
    SharedAnswersAlike(p, run, verdicts);
    LockSpansRetryAfter(p, run, verdicts, i, email, seconds, k);
  }

  /** ... and failed checks have the same bound, per address and per account between successes. */
  lemma SharedFailedChecksBound(
      p: Policies, run: Run, verdicts: seq<Option<Verdict>>, s: Subject, from: nat, until: nat, lo: real)
    requires Answers(p, run, verdicts) && Ordered(run) && WholeRun(run) && s.Policy(p).IsEnforced()
    requires |verdicts| == |run| && from <= until <= |run| && NoSuccess(run, verdicts, s, from, until)
    ensures var hi := lo + s.Policy(p).windowSeconds as real;
            FailedBetween(run, verdicts, s, from, until, lo, hi) <= 2 * s.Policy(p).limit - 1
  {
    SharedAnswersAlike(p, run, verdicts);
    FailedChecksBound(p, run, verdicts, s, from, until, lo);
  }
}
