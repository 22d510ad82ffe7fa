/** The two login counters: which are consulted, in which order, and which are charged. */
module LoginLimits {
  import opened Wrappers
  import opened Entities
  import opened RateLimiting
  import opened InMemoryLimiter

  datatype Policies = Policies(ip: Policy, account: Policy)

  function IpKey(ip: string): string {
    "login:ip:" + ip
  }

  function AccountKey(email: string): string {
    "login:user:" + email
  }

  lemma KeysDistinct(ip: string, email: string)
    ensures IpKey(ip) != AccountKey(email)
  {
    assert IpKey(ip)[6] == 'i' && AccountKey(email)[6] == 'u';
  }

  lemma KeysInjective(a: string, b: string)
    ensures IpKey(a) == IpKey(b) ==> a == b
    ensures AccountKey(a) == AccountKey(b) ==> a == b
  {
    assert IpKey(a)[9..] == a && IpKey(b)[9..] == b;
    assert AccountKey(a)[11..] == a && AccountKey(b)[11..] == b;
  }

  function GuardIp(p: Policies, m: Counters, ip: Option<string>, now: real): Option<AppError> {
    if !p.ip.IsEnforced() || ip.None? then None
    else
      var d := Peeked(m, IpKey(ip.value), p.ip.limit, now);
      if d.allowed then None else Some(RateLimited(d.retryAfter))
  }

  function GuardAccount(p: Policies, m: Counters, email: string, now: real): Option<AppError> {
    if !p.account.IsEnforced() then None
    else
      var d := Peeked(m, AccountKey(email), p.account.limit, now);
      if d.allowed then None else Some(AccountLocked(d.retryAfter))
  }

  /** The refusal, if any, before the password is looked at. */
  function Gate(p: Policies, m: Counters, ip: Option<string>, email: string, now: real): Option<AppError> {
    var refusal := GuardIp(p, m, ip, now);
    if refusal.Some? then refusal else GuardAccount(p, m, email, now)
  }

  function ChargeIp(p: Policies, m: Counters, ip: Option<string>, now: real): Counters {
    if p.ip.IsEnforced() && ip.Some?
    then Apply(m, Hit(IpKey(ip.value), p.ip.limit, p.ip.windowSeconds), now).0
    else m
  }

  function ChargeAccount(p: Policies, m: Counters, email: string, now: real): Counters {
    if p.account.IsEnforced()
    then Apply(m, Hit(AccountKey(email), p.account.limit, p.account.windowSeconds), now).0
    else m
  }

  /** Charge a failed attempt to both counters. */
  function Charge(p: Policies, m: Counters, ip: Option<string>, email: string, now: real): Counters {
    ChargeAccount(p, ChargeIp(p, m, ip, now), email, now)
  }

  /** One login attempt as the limiters see it; `valid` is what the credential check would say. */
  datatype Attempt = Attempt(ip: Option<string>, email: string, valid: bool)

  datatype Verdict = Refused(error: AppError) | Failed | Passed

  /** The counters and the verdict after one attempt. */
  function Try(p: Policies, m: Counters, a: Attempt, now: real): (Counters, Verdict) {
    var refusal := Gate(p, m, a.ip, a.email, now);
    if refusal.Some? then (m, Refused(refusal.value))
    else if a.valid then (m - {AccountKey(a.email)}, Passed)
    else (Charge(p, m, a.ip, a.email, now), Failed)
  }

  /** Charge one request to a counter that judges what it charges; the refusal, if any. */
  function Throttle(policy: Policy, m: Counters, key: string, now: real): (Counters, Option<AppError>) {
    if !policy.IsEnforced() then (m, None)
    else
      var (m', d) := Apply(m, Hit(key, policy.limit, policy.windowSeconds), now);
      (m', if d.value.allowed then None else Some(RateLimited(d.value.retryAfter)))
  }

  /** Throttling by address applies only when the address is known. */
  function ThrottleIp(
      policy: Policy, m: Counters, prefix: string, device: Device, now: real): (Counters, Option<AppError>)
  {
    if device.ipAddress.None? then (m, None) else Throttle(policy, m, prefix + device.ipAddress.value, now)
  }

  /** The other counters the service keeps in the same limiter. */
  datatype Surface = RegisterIp(ip: string) | ForgotEmail(email: string) | ForgotIp(ip: string) | ResetIp(ip: string) {
    function Key(): string {
      match this
      case RegisterIp(ip) => "register:ip:" + ip
      case ForgotEmail(email) => "forgot-password:" + email
      case ForgotIp(ip) => "forgot-password:ip:" + ip
      case ResetIp(ip) => "reset-password:ip:" + ip
    }
  }

  /** None of them is a login counter. */
  lemma SurfacesApart(surface: Surface, ip: string, email: string)
    ensures surface.Key() != IpKey(ip) && surface.Key() != AccountKey(email)
  {
    assert IpKey(ip)[0] == 'l' && AccountKey(email)[0] == 'l' && surface.Key()[0] != 'l';
  }

  /** What reaches the limiter: a login attempt, or a request charged to one of the other counters. */
  datatype Event = Attempted(attempt: Attempt) | Throttled(surface: Surface, policy: Policy)

  /** The counters after one event and, for an attempt, its verdict. */
  function Serve(p: Policies, m: Counters, e: Event, now: real): (Counters, Option<Verdict>) {
    match e
    case Attempted(a) =>
      var (m', v) := Try(p, m, a, now);
      (m', Some(v))
    case Throttled(surface, policy) => (Throttle(policy, m, surface.Key(), now).0, None)
  }
}

/** Requests limited by one counter of their own: registrations, forgotten passwords, resets. */
module Throttling {
  import opened Wrappers
  import opened Entities
  import opened RateLimiting
  import opened InMemoryLimiter
  import opened LoginLimits
  import FixedWindow

  /** The counters after requests at these times. */
  function After(policy: Policy, key: string, times: seq<real>): Counters {
    if times == [] then map[]
    else
      var n := |times| - 1;
      Throttle(policy, After(policy, key, times[..n]), key, times[n]).0
  }

  predicate Admitted(policy: Policy, key: string, times: seq<real>, i: nat)
    requires i < |times|
  {
    Throttle(policy, After(policy, key, times[..i]), key, times[i]).1.None?
  }

  /** The requests let through at times in `[lo, hi)`. */
  function AdmittedWithin(policy: Policy, key: string, times: seq<real>, lo: real, hi: real): nat {
    if times == [] then 0
    else
      var n := |times| - 1;
      AdmittedWithin(policy, key, times[..n], lo, hi)
      + (if lo <= times[n] < hi && Admitted(policy, key, times, n) then 1 else 0)
  }

  predicate Ordered(times: seq<real>) {
    && (forall i :: 0 <= i < |times| ==> 0.0 <= times[i])
    && (forall i, j :: 0 <= i < j < |times| ==> times[i] <= times[j])
  }

  function Hits(policy: Policy, key: string, times: seq<real>): seq<FixedWindow.Timed> {
    if times == [] then []
    else
      var n := |times| - 1;
      Hits(policy, key, times[..n]) + [FixedWindow.Timed(Hit(key, policy.limit, policy.windowSeconds), times[n])]
  }

  lemma {:induction false} HitsOrdered(policy: Policy, key: string, times: seq<real>)
    requires Ordered(times)
    ensures var hits := Hits(policy, key, times);
            && |hits| == |times| && (times != [] ==> hits[|hits| - 1].at == times[|times| - 1])
            && FixedWindow.Ordered(hits) && FixedWindow.Uniform(hits, key, policy.limit, policy.windowSeconds)
    decreases |times|
  {
    if times != [] {
      var n := |times| - 1;
      var hit := FixedWindow.Timed(Hit(key, policy.limit, policy.windowSeconds), times[n]);
      HitsOrdered(policy, key, times[..n]);
      FixedWindow.HitAppended(Hits(policy, key, times[..n]), hit, key, policy.limit, policy.windowSeconds);
    }
  }

  lemma HitAgrees(policy: Policy, key: string, m: Counters, at: real)
    requires policy.IsEnforced()
    ensures var (m', d) := Apply(m, Hit(key, policy.limit, policy.windowSeconds), at);
            m' == Throttle(policy, m, key, at).0 && (d.value.allowed <==> Throttle(policy, m, key, at).1.None?)
  {
  }

  /** The limiter sees these requests as hits, and lets through the same ones. */
  lemma {:induction false} HitsMirror(policy: Policy, key: string, times: seq<real>, lo: real, hi: real)
    requires policy.IsEnforced()
    ensures FixedWindow.State(Hits(policy, key, times)) == After(policy, key, times)
    ensures FixedWindow.AllowedWithin(Hits(policy, key, times), key, lo, hi) ==
        AdmittedWithin(policy, key, times, lo, hi)
    decreases |times|
  {
    if times != [] {
      var n := |times| - 1;
      var before := Hits(policy, key, times[..n]);
      var hit := FixedWindow.Timed(Hit(key, policy.limit, policy.windowSeconds), times[n]);
      HitsMirror(policy, key, times[..n], lo, hi);
      FixedWindow.AllowedWithinStep(before, hit, key, lo, hi);
      HitAgrees(policy, key, After(policy, key, times[..n]), times[n]);
      assert (before + [hit])[..|before|] == before;
    }
  }

  /** In any interval of the window's length at most `2 * limit - 1` requests are let through. */
  lemma AdmittedBound(policy: Policy, key: string, times: seq<real>, lo: real)
    requires policy.IsEnforced() && Ordered(times)
    ensures AdmittedWithin(policy, key, times, lo, lo + policy.windowSeconds as real) <= 2 * policy.limit - 1
  {
    HitsOrdered(policy, key, times);
    HitsMirror(policy, key, times, lo, lo + policy.windowSeconds as real);
    FixedWindow.FixedWindowBound(Hits(policy, key, times), key, policy.limit, policy.windowSeconds, lo);
  }

  lemma {:induction false} CountAtMost(policy: Policy, key: string, times: seq<real>)
    requires policy.IsEnforced()
    ensures Lookup(After(policy, key, times), key).count <= |times|
    decreases |times|
  {
    if times != [] {
      CountAtMost(policy, key, times[..|times| - 1]);
    }
  }

  /** The first `limit` requests are let through, and all of them if the rule is not enforced. */
  lemma FirstRequestsAdmitted(policy: Policy, key: string, times: seq<real>, i: nat)
    requires i < |times| && (policy.IsEnforced() ==> i < policy.limit)
    ensures Admitted(policy, key, times, i)
  {
    if policy.IsEnforced() {
      CountAtMost(policy, key, times[..i]);
    }
  }
}
