/** What a use case promises its caller about the store. */
module Settlement {
  import opened Wrappers
  import opened Entities
  import opened Transactions

  /** Either the transaction ran as specified, or the database failed and nothing was written. */
  ghost predicate Settles<T>(before: Db, after: Db, r: Result<T, AppError>, spec: Tx<T>) {
    if r == Failure(DatabaseFault) then after == before
    else after == spec.0 && r == spec.1
  }

  /** The same for a use case that still reads after its commit: that read may be what failed. */
  ghost predicate SettlesOrReads<T>(before: Db, after: Db, r: Result<T, AppError>, spec: Tx<T>) {
    if r == Failure(DatabaseFault) then after == before || (spec.1.Success? && after == spec.0)
    else after == spec.0 && r == spec.1
  }
}

/** The use cases of registration, login, tokens and passwords. */
module AuthUseCases {
  import opened Wrappers
  import opened Entities
  import opened Tables
  import opened Persistence
  import opened Transactions
  import opened Settlement
  import opened RateLimiting
  import opened InMemoryLimiter
  import opened LoginLimits
  import opened UserCache
  import opened CachedAuthentication
  import Text

  datatype Mail = Mail(to: string, secret: string)

  /** The mail handed to the sender, oldest first. */
  class Outbox {
    var sent: seq<Mail>

    constructor ()
      ensures sent == []
    {
      sent := [];
    }

    method Send(mail: Mail)
      modifies this
      ensures sent == old(sent) + [mail]
    {
      sent := sent + [mail];
    }
  }

  /** Append one event inside the caller's transaction. */
  method RecordEvent(
      uow: UnitOfWork, event: AuditEvent, user: Option<UserId>, device: Device, now: Time)
    returns (r: Effect)
    requires uow.Active()
    modifies uow.tx
    ensures r.Raised? ==> r.error == DatabaseFault
    ensures r.Done? ==> uow.tx.db == Record(old(uow.tx.db), event, user, device, now)
  {
    r := uow.audit.Add(AuditRow(event, now, user, device.ipAddress, device.userAgent));
  }

  /** Spend the outstanding verification link and store the next one. */
  method IssueLink(uow: UnitOfWork, cfg: Config, u: UserId, secret: string, now: Time) returns (r: Effect)
    requires uow.Active()
    modifies uow.tx
    ensures r.Raised? ==> r.error == DatabaseFault
    ensures r.Done? ==> uow.tx.db == IssueVerification(cfg, old(uow.tx.db), u, secret, now)
  {
    r := uow.tokens.InvalidateForUser(u, EmailVerification, now);
    if r.Raised? {
      return;
    }
    r := uow.tokens.Add(TokenRow(u, EmailVerification, cfg.secretHash(secret), now,
                                 now + cfg.verificationHours * 3600 * SECOND, None));
  }

  method ThrottleRequest(
      limiter: InMemoryRateLimiter, policy: Policy, key: string, now: real)
    returns (refusal: Option<AppError>)
    modifies limiter
    ensures (limiter.counters, refusal) == Throttle(policy, old(limiter.counters), key, now)
  {
    if !policy.IsEnforced() {
      return None;
    }
    var d := limiter.Hit(key, policy.limit, policy.windowSeconds, now);
    refusal := if d.allowed then None else Some(RateLimited(d.retryAfter));
  }

  method ThrottleAddress(
      limiter: InMemoryRateLimiter, policy: Policy, prefix: string, device: Device, now: real)
    returns (refusal: Option<AppError>)
    modifies limiter
    ensures (limiter.counters, refusal) == ThrottleIp(policy, old(limiter.counters), prefix, device, now)
  {
    if device.ipAddress.None? {
      return None;
    }
    refusal := ThrottleRequest(limiter, policy, prefix + device.ipAddress.value, now);
  }

  // ---------------------------------------------------------------- register

  method RegisterBody(
      uow: UnitOfWork, cfg: Config, d: Registration, email: string, username: string, passwordHash: string,
      secret: string, device: Device, now: Time)
    returns (r: Result<User, AppError>)
    requires uow.Entered() && d.password == d.passwordRepeat
    requires email == Text.Normalize(d.email) && username == Text.Strip(d.username)
    modifies uow.tx, uow.store
    ensures SettlesOrReads(old(uow.store.db), uow.store.db, r,
                           Register(cfg, old(uow.store.db), d, passwordHash, secret, device, now))
  {
    var sameEmail :- uow.users.GetByEmail(email);
    if sameEmail.Some? {
      return Failure(EmailAlreadyExists);
    }
    var sameName :- uow.users.GetByUsername(username);
    if sameName.Some? {
      return Failure(UsernameAlreadyExists);
    }
    var created :- uow.users.Add(
      UserRow(email, username, passwordHash, d.displayName, true, false, None, d.visitorId, now, now));
    var role :- uow.roles.GetByName(cfg.defaultRole);
    if role.Some? {
      :- uow.users.AssignRole(created.id, role.value.id);
    }
    :- IssueLink(uow, cfg, created.id, secret, now);
    :- RecordEvent(uow, Registered(username, d.visitorId), Some(created.id), device, now);
    :- uow.tx.Commit();
    var stored :- uow.users.GetById(created.id);
    r := Success(if stored.Some? then stored.value else created);
  }

  /** The mail leaves only after the account is committed. */
  method RegisterUser(
      uow: UnitOfWork, cfg: Config, limiter: InMemoryRateLimiter, ipPolicy: Policy, outbox: Outbox, d: Registration,
      passwordHash: string, secret: string, device: Device, now: Time, ticks: real)
    returns (r: Result<User, AppError>)
    modifies uow, uow.store, limiter, outbox
    ensures limiter.counters == ThrottleIp(ipPolicy, old(limiter.counters), "register:ip:", device, ticks).0
    ensures var refusal := ThrottleIp(ipPolicy, old(limiter.counters), "register:ip:", device, ticks).1;
            if refusal.Some? then r == Failure(refusal.value) && uow.store.db == old(uow.store.db)
            else SettlesOrReads(old(uow.store.db), uow.store.db, r,
                                Register(cfg, old(uow.store.db), d, passwordHash, secret, device, now))
    ensures outbox.sent == old(outbox.sent) + (if r.Success? then [Mail(Text.Normalize(d.email), secret)] else [])
  {
    var refusal := ThrottleAddress(limiter, ipPolicy, "register:ip:", device, ticks);
    if refusal.Some? {
      return Failure(refusal.value);
    }
    if d.password != d.passwordRepeat {
      return Failure(PasswordMismatch);
    }
    var email, username := Text.Normalize(d.email), Text.Strip(d.username);
    uow.Enter();
    r := RegisterBody(uow, cfg, d, email, username, passwordHash, secret, device, now);
    uow.Exit(r.Failure?);
    if r.Success? {
      outbox.Send(Mail(email, secret));
    }
  }

  // ---------------------------------------------------------------- login

  method CountFailure(limiter: InMemoryRateLimiter, policies: Policies, email: string, ip: Option<string>, ticks: real)
    modifies limiter
    ensures limiter.counters == Charge(policies, old(limiter.counters), ip, email, ticks)
  {
    if policies.ip.IsEnforced() && ip.Some? {
      var _ := limiter.Hit(IpKey(ip.value), policies.ip.limit, policies.ip.windowSeconds, ticks);
    }
    if policies.account.IsEnforced() {
      var _ := limiter.Hit(AccountKey(email), policies.account.limit, policies.account.windowSeconds, ticks);
    }
  }

  method LoginBody(
      uow: UnitOfWork, cfg: Config, limiter: InMemoryRateLimiter, policies: Policies, rawEmail: string, email: string,
      password: string, device: Device, jti: string, now: Time, ticks: real)
    returns (r: Result<Grant, AppError>)
    requires uow.Entered() && email == Text.Normalize(rawEmail)
    modifies uow.tx, uow.store, limiter
    ensures Settles(old(uow.store.db), uow.store.db, r,
        Login(cfg, old(uow.store.db), rawEmail, password, device, jti, now))
    ensures limiter.counters == old(limiter.counters)
         || (limiter.counters == Charge(policies, old(limiter.counters), device.ipAddress, email, ticks) && r.Failure?)
    ensures r == Failure(InvalidCredentials) ==>
              limiter.counters == Charge(policies, old(limiter.counters), device.ipAddress, email, ticks)
  {
    var user :- uow.users.GetByEmail(email);
    var valid := user.Some? && user.value.row.isActive && cfg.passwordMatches(password, user.value.row.passwordHash);
    if !valid {
      CountFailure(limiter, policies, email, device.ipAddress, ticks);
      var reason := if user.None? then UnknownAccount else if !user.value.row.isActive then Inactive else BadPassword;
      :- RecordEvent(uow, LoginFailed(email, reason), if user.None? then None else Some(user.value.id), device, now);
      :- uow.tx.Commit();
      return Failure(InvalidCredentials);
    }
    var access := Issue(user.value.id, jti, Access, cfg.accessMinutes, now);
    var refresh := Issue(user.value.id, jti, Refresh, cfg.refreshMinutes, now);
    :- uow.sessions.Add(NewSession(user.value.id, jti, now, refresh, device, now));
    :- RecordEvent(uow, LoggedIn(device.visitorId), Some(user.value.id), device, now);
    :- uow.tx.Commit();
    r := Success(Grant(access, refresh, user.value));
  }

  method CheckIp(
      limiter: InMemoryRateLimiter, policies: Policies, ip: Option<string>, ticks: real)
    returns (refusal: Option<AppError>)
    ensures refusal == GuardIp(policies, limiter.counters, ip, ticks)
  {
    if !policies.ip.IsEnforced() || ip.None? {
      return None;
    }
    var d := limiter.Peek(IpKey(ip.value), policies.ip.limit, ticks);
    refusal := if d.allowed then None else Some(RateLimited(d.retryAfter));
  }

  method CheckAccount(
      limiter: InMemoryRateLimiter, policies: Policies, email: string, ticks: real)
    returns (refusal: Option<AppError>)
    ensures refusal == GuardAccount(policies, limiter.counters, email, ticks)
  {
    if !policies.account.IsEnforced() {
      return None;
    }
    var d := limiter.Peek(AccountKey(email), policies.account.limit, ticks);
    refusal := if d.allowed then None else Some(AccountLocked(d.retryAfter));
  }

  /** Both guards come before the password; only a failed check is charged; success clears the account counter. */
  method LoginUser(
      uow: UnitOfWork, cfg: Config, limiter: InMemoryRateLimiter, policies: Policies, rawEmail: string,
      password: string, device: Device, jti: string, now: Time, ticks: real)
    returns (r: Result<Grant, AppError>)
    modifies uow, uow.store, limiter
    ensures var attempt := Attempt(device.ipAddress, Text.Normalize(rawEmail),
        CredentialsHold(cfg, old(uow.store.db), rawEmail, password));
            var (counters, verdict) := Try(policies, old(limiter.counters), attempt, ticks);
            if verdict.Refused? then
              r == Failure(verdict.error) && uow.store.db == old(uow.store.db) &&
                  limiter.counters == old(limiter.counters)
            else
              && Settles(old(uow.store.db), uow.store.db, r,
                  Login(cfg, old(uow.store.db), rawEmail, password, device, jti, now))
              && (if r == Failure(DatabaseFault)
                  then limiter.counters == old(limiter.counters)
                    || limiter.counters ==
                        Charge(policies, old(limiter.counters), device.ipAddress, attempt.email, ticks)
                  else limiter.counters == counters && (r.Success? <==> verdict.Passed?))
  {
    var email := Text.Normalize(rawEmail);
    var refusal := CheckIp(limiter, policies, device.ipAddress, ticks);
    if refusal.Some? {
      return Failure(refusal.value);
    }
    refusal := CheckAccount(limiter, policies, email, ticks);
    if refusal.Some? {
      return Failure(refusal.value);
    }
    uow.Enter();
    r := LoginBody(uow, cfg, limiter, policies, rawEmail, email, password, device, jti, now, ticks);
    uow.Exit(r.Failure?);
    if r.Success? {
      limiter.Reset(AccountKey(email));
    }
  }

  // ---------------------------------------------------------------- refresh and logout

  method RefreshBody(uow: UnitOfWork, cfg: Config, payload: Claims, device: Device, jti: string, now: Time)
    returns (r: Result<Grant, AppError>)
    requires uow.Entered() && payload.kind == Refresh && now < payload.exp * SECOND
    modifies uow.tx, uow.store
    ensures Settles(old(uow.store.db), uow.store.db, r,
                    RefreshSession(cfg, old(uow.store.db), Signed(payload), device, jti, now))
  {
    var session :- uow.sessions.GetByJti(payload.jti);
    if session.None? || !session.value.row.IsValid(now) {
      return Failure(AuthenticationError);
    }
    var user :- uow.users.GetById(payload.sub);
    if user.None? || !user.value.row.isActive {
      return Failure(AuthenticationError);
    }
    :- uow.sessions.Revoke(payload.jti, now);
    var access := Issue(user.value.id, jti, Access, cfg.accessMinutes, now);
    var refresh := Issue(user.value.id, jti, Refresh, cfg.refreshMinutes, now);
    var previous := session.value.row;
    :- uow.sessions.Add(
      NewSession(user.value.id, jti, previous.createdAt, refresh, Inherit(device, previous.device), now));
    :- uow.tx.Commit();
    r := Success(Grant(access, refresh, user.value));
  }

  method RefreshToken(uow: UnitOfWork, cfg: Config, token: Bearer, device: Device, jti: string, now: Time)
    returns (r: Result<Grant, AppError>)
    modifies uow, uow.store
    ensures Settles(old(uow.store.db), uow.store.db, r,
                    RefreshSession(cfg, old(uow.store.db), token, device, jti, now))
  {
    var payload :- Decode(token, now);
    if payload.kind != Refresh {
      return Failure(AuthenticationError);
    }
    uow.Enter();
    r := RefreshBody(uow, cfg, payload, device, jti, now);
    uow.Exit(r.Failure?);
  }

  method LogoutBody(uow: UnitOfWork, payload: Claims, device: Device, now: Time) returns (r: Result<(), AppError>)
    requires uow.Entered() && now < payload.exp * SECOND
    modifies uow.tx, uow.store
    ensures Settles(old(uow.store.db), uow.store.db, r, Logout(old(uow.store.db), Signed(payload), device, now))
  {
    var jti, user := payload.jti, payload.sub;
    :- uow.sessions.Revoke(jti, now);
    :- RecordEvent(uow, LoggedOut, Some(user), device, now);
    :- uow.tx.Commit();
    r := Success(());
  }

  method LogoutUser(uow: UnitOfWork, token: Bearer, device: Device, now: Time) returns (r: Result<(), AppError>)
    modifies uow, uow.store
    ensures Settles(old(uow.store.db), uow.store.db, r, Logout(old(uow.store.db), token, device, now))
  {
    var payload := Decode(token, now);
    if payload.Failure? {
      return Success(());
    }
    uow.Enter();
    r := LogoutBody(uow, payload.value, device, now);
    uow.Exit(r.Failure?);
  }

  // ---------------------------------------------------------------- authenticate

  /** The session always comes from the database; the user may come from the cache. */
  method AuthenticateBody(
      uow: UnitOfWork, cache: Cache, format: TimeFormat, ttlSeconds: nat, payload: Claims, now: Time)
    returns (r: Result<User, AppError>)
    requires uow.Entered() && payload.kind == Access && now < payload.exp * SECOND
    modifies uow.tx, cache
    ensures (r == Failure(DatabaseFault) && cache.entries == old(cache.entries))
         || (r, cache.entries) ==
             AuthenticateCached(format, old(uow.store.db), old(cache.entries), ttlSeconds, Signed(payload), now)
  {
    var session :- uow.sessions.GetByJti(payload.jti);
    if session.None? || !session.value.row.IsValid(now) {
      return Failure(AuthenticationError);
    }
    var key := Key(payload.sub);
    var user: Option<User>;
    var cached := cache.Get(key, now);
    if cached.Some? {
      user := Loads(format, cached.value);
      if user.None? {
        return Failure(MalformedEntry);
      }
    } else {
      user :- uow.users.GetById(payload.sub);
      if user.Some? {
        cache.Set(key, Dumps(format, user.value), ttlSeconds, now);
      }
    }
    if user.None? || !user.value.row.isActive {
      return Failure(AuthenticationError);
    }
    r := Success(user.value);
  }

  method AuthenticateUser(uow: UnitOfWork, cache: Cache, format: TimeFormat, ttlSeconds: nat, token: Bearer, now: Time)
    returns (r: Result<User, AppError>)
    modifies uow, cache
    ensures (r == Failure(DatabaseFault) && cache.entries == old(cache.entries))
         || (r, cache.entries) == AuthenticateCached(format, uow.store.db, old(cache.entries), ttlSeconds, token, now)
  {
    var payload :- Decode(token, now);
    if payload.kind != Access {
      return Failure(AuthenticationError);
    }
    uow.Enter();
    r := AuthenticateBody(uow, cache, format, ttlSeconds, payload, now);
    uow.Exit(r.Failure?);
  }

  // ---------------------------------------------------------------- profile

  /** A new address must be free, and arrives unverified. */
  method ApplyEmail(uow: UnitOfWork, user: User, email: Option<string>) returns (r: Result<User, AppError>)
    requires uow.Active()
    ensures r == Failure(DatabaseFault)
         || r == (var edited := EditEmail(uow.tx.db, user.row, email);
                  if edited.Failure? then Failure(edited.error) else Success(user.(row := edited.value)))
  {
    if email.Some? {
      var address := Text.Normalize(email.value);
      if address != user.row.email {
        var clash :- uow.users.GetByEmail(address);
        if clash.Some? {
          return Failure(EmailAlreadyExists);
        }
        return Success(user.(row := user.row.(email := address, emailVerifiedAt := None)));
      }
    }
    r := Success(user);
  }

  method ApplyUsername(uow: UnitOfWork, user: User, username: Option<string>) returns (r: Result<User, AppError>)
    requires uow.Active()
    ensures r == Failure(DatabaseFault)
         || r == (var edited := EditUsername(uow.tx.db, user.row, username);
                  if edited.Failure? then Failure(edited.error) else Success(user.(row := edited.value)))
  {
    if username.Some? {
      var handle := Text.Strip(username.value);
      if handle != user.row.username {
        var clash :- uow.users.GetByUsername(handle);
        if clash.Some? {
          return Failure(UsernameAlreadyExists);
        }
        return Success(user.(row := user.row.(username := handle)));
      }
    }
    r := Success(user);
  }

  method UpdateBody(uow: UnitOfWork, cfg: Config, u: UserId, edit: ProfileEdit, secret: string, now: Time)
    returns (r: Result<User, AppError>)
    requires uow.Entered()
    modifies uow.tx, uow.store
    ensures Settles(old(uow.store.db), uow.store.db, r, UpdateUser(cfg, old(uow.store.db), u, edit, secret, now))
  {
    var found :- uow.users.GetById(u);
    if found.None? {
      return Failure(UserNotFound);
    }
    var user := found.value;
    user :- ApplyEmail(uow, user, edit.email);
    user :- ApplyUsername(uow, user, edit.username);
    if edit.displayName.Some? {
      user := user.(row := user.row.(displayName := edit.displayName));
    }
    var updated :- uow.users.Update(user, now);
    if !updated.row.IsEmailVerified() {
      :- IssueLink(uow, cfg, updated.id, secret, now);
    }
    :- uow.tx.Commit();
    r := Success(updated);
  }

  /** The new address is mailed its own link, after the commit and the cache delete. */
  method UpdateProfile(
      uow: UnitOfWork, cfg: Config, cache: Cache, outbox: Outbox, u: UserId, edit: ProfileEdit, secret: string,
      now: Time)
    returns (r: Result<User, AppError>)
    modifies uow, uow.store, cache, outbox
    ensures Settles(old(uow.store.db), uow.store.db, r, UpdateUser(cfg, old(uow.store.db), u, edit, secret, now))
    ensures cache.entries == if r.Success? then old(cache.entries) - {Key(u)} else old(cache.entries)
    ensures outbox.sent == old(outbox.sent)
              + (if r.Success? && !r.value.row.IsEmailVerified() then [Mail(r.value.row.email, secret)] else [])
  {
    uow.Enter();
    r := UpdateBody(uow, cfg, u, edit, secret, now);
    uow.Exit(r.Failure?);
    if r.Success? {
      cache.Delete(Key(u));
      if !r.value.row.IsEmailVerified() {
        outbox.Send(Mail(r.value.row.email, secret));
      }
    }
  }

  method VerifyBody(
      uow: UnitOfWork, cfg: Config, secret: string, device: Device, now: Time)
    returns (r: Result<User, AppError>)
    requires uow.Entered()
    modifies uow.tx, uow.store
    ensures Settles(old(uow.store.db), uow.store.db, r, VerifyEmail(cfg, old(uow.store.db), secret, device, now))
  {
    var stored :- uow.tokens.GetByHash(cfg.secretHash(secret), EmailVerification);
    if stored.None? || !stored.value.row.IsUsable(now) {
      return Failure(InvalidToken);
    }
    var found :- uow.users.GetById(stored.value.row.userId);
    if found.None? || !found.value.row.isActive {
      return Failure(InvalidToken);
    }
    var user := found.value;
    :- uow.tokens.MarkUsed(stored.value.id, now);
    if !user.row.IsEmailVerified() {
      user :- uow.users.Update(user.(row := user.row.(emailVerifiedAt := Some(now))), now);
    }
    :- RecordEvent(uow, EmailVerified(user.row.email), Some(user.id), device, now);
    :- uow.tx.Commit();
    r := Success(user);
  }

  method VerifyAddress(uow: UnitOfWork, cfg: Config, cache: Cache, secret: string, device: Device, now: Time)
    returns (r: Result<User, AppError>)
    modifies uow, uow.store, cache
    ensures Settles(old(uow.store.db), uow.store.db, r, VerifyEmail(cfg, old(uow.store.db), secret, device, now))
    ensures cache.entries == if r.Success? then old(cache.entries) - {Key(r.value.id)} else old(cache.entries)
  {
    uow.Enter();
    r := VerifyBody(uow, cfg, secret, device, now);
    uow.Exit(r.Failure?);
    if r.Success? {
      cache.Delete(Key(r.value.id));
    }
  }

  // ---------------------------------------------------------------- passwords

  method ChangeBody(
      uow: UnitOfWork, cfg: Config, u: UserId, current: string, next: string, nextHash: string, device: Device,
      now: Time)
    returns (r: Result<nat, AppError>)
    requires uow.Entered()
    modifies uow.tx, uow.store
    ensures Settles(old(uow.store.db), uow.store.db, r,
                    ChangePassword(cfg, old(uow.store.db), u, current, next, next, nextHash, device, now))
  {
    var found :- uow.users.GetById(u);
    if found.None? {
      return Failure(UserNotFound);
    }
    var user := found.value;
    if !cfg.passwordMatches(current, user.row.passwordHash) {
      return Failure(InvalidCredentials);
    }
    if current == next {
      return Failure(ValidationError);
    }
    :- uow.users.UpdatePassword(user.(row := user.row.(passwordHash := nextHash)), now);
    :- uow.tokens.InvalidateForUser(u, PasswordReset, now);
    var revoked :- uow.sessions.RevokeAllForUser(u, now, None);
    :- RecordEvent(uow, PasswordChanged(revoked), Some(u), device, now);
    :- uow.tx.Commit();
    r := Success(revoked);
  }

  method ChangeUserPassword(
      uow: UnitOfWork, cfg: Config, cache: Cache, u: UserId, current: string, next: string, repeat: string,
      nextHash: string, device: Device, now: Time)
    returns (r: Result<nat, AppError>)
    modifies uow, uow.store, cache
    ensures Settles(old(uow.store.db), uow.store.db, r,
                    ChangePassword(cfg, old(uow.store.db), u, current, next, repeat, nextHash, device, now))
    ensures cache.entries == if r.Success? then old(cache.entries) - {Key(u)} else old(cache.entries)
  {
    if next != repeat {
      return Failure(PasswordMismatch);
    }
    uow.Enter();
    r := ChangeBody(uow, cfg, u, current, next, nextHash, device, now);
    uow.Exit(r.Failure?);
    if r.Success? {
      cache.Delete(Key(u));
    }
  }

  method ForgotBody(uow: UnitOfWork, cfg: Config, email: string, address: string, secret: string, now: Time)
    returns (r: Result<bool, AppError>)
    requires uow.Entered() && address == Text.Normalize(email)
    modifies uow.tx, uow.store
    ensures if r == Failure(DatabaseFault) then uow.store.db == old(uow.store.db)
            else r.Success? && uow.store.db == ForgotPassword(cfg, old(uow.store.db), email, secret, now).0
    ensures r.Success? ==> r.value == KnownActive(old(uow.store.db), address)
  {
    var user :- uow.users.GetByEmail(address);
    if user.None? || !user.value.row.isActive {
      return Success(false);
    }
    :- uow.tokens.InvalidateForUser(user.value.id, PasswordReset, now);
    :- uow.tokens.Add(TokenRow(user.value.id, PasswordReset, cfg.secretHash(secret), now,
                               now + cfg.resetMinutes * 60 * SECOND, None));
    :- uow.tx.Commit();
    r := Success(true);
  }

  /** The reply is the same for a known and an unknown address; only the mail differs. */
  method ForgotUserPassword(
      uow: UnitOfWork, cfg: Config, limiter: InMemoryRateLimiter, emailPolicy: Policy, ipPolicy: Policy,
      outbox: Outbox, email: string, secret: string, device: Device, now: Time, ticks: real)
    returns (r: Result<(), AppError>)
    modifies uow, uow.store, limiter, outbox
    ensures var key := "forgot-password:" + Text.Normalize(email);
            var (m, refusal) := Throttle(emailPolicy, old(limiter.counters), key, ticks);
            var (m', refusal') := ThrottleIp(ipPolicy, m, "forgot-password:ip:", device, ticks);
            if refusal.Some?
                then (r == Failure(refusal.value) && limiter.counters == m && uow.store.db == old(uow.store.db))
            else if refusal'.Some?
                then (r == Failure(refusal'.value) && limiter.counters == m' && uow.store.db == old(uow.store.db))
            else (limiter.counters == m'
              && Settles(old(uow.store.db), uow.store.db, r,
                  ForgotPassword(cfg, old(uow.store.db), email, secret, now)))
    ensures outbox.sent == old(outbox.sent)
              + (if r.Success? && KnownActive(old(uow.store.db), Text.Normalize(email))
                  then [Mail(Text.Normalize(email), secret)] else [])
  {
    var address := Text.Normalize(email);
    var refusal := ThrottleRequest(limiter, emailPolicy, "forgot-password:" + address, ticks);
    if refusal.Some? {
      return Failure(refusal.value);
    }
    refusal := ThrottleAddress(limiter, ipPolicy, "forgot-password:ip:", device, ticks);
    if refusal.Some? {
      return Failure(refusal.value);
    }
    uow.Enter();
    var sent := ForgotBody(uow, cfg, email, address, secret, now);
    uow.Exit(sent.Failure?);
    if sent.Failure? {
      return Failure(sent.error);
    }
    if sent.value {
      outbox.Send(Mail(address, secret));
    }
    r := Success(());
  }

  method ResetBody(
      uow: UnitOfWork, cfg: Config, secret: string, password: string, passwordHash: string, device: Device, now: Time)
    returns (r: Result<UserId, AppError>)
    requires uow.Entered()
    modifies uow.tx, uow.store
    ensures Settles(old(uow.store.db), uow.store.db, r,
                    ResetPassword(cfg, old(uow.store.db), secret, password, password, passwordHash, device, now))
  {
    var stored :- uow.tokens.GetByHash(cfg.secretHash(secret), PasswordReset);
    if stored.None? || !stored.value.row.IsUsable(now) {
      return Failure(InvalidToken);
    }
    var found :- uow.users.GetById(stored.value.row.userId);
    if found.None? || !found.value.row.isActive {
      return Failure(InvalidToken);
    }
    var user := found.value;
    :- uow.users.UpdatePassword(user.(row := user.row.(passwordHash := passwordHash)), now);
    :- uow.tokens.MarkUsed(stored.value.id, now);
    :- uow.tokens.InvalidateForUser(user.id, PasswordReset, now);
    var revoked :- uow.sessions.RevokeAllForUser(user.id, now, None);
    :- RecordEvent(uow, PasswordWasReset(revoked), Some(user.id), device, now);
    :- uow.tx.Commit();
    r := Success(user.id);
  }

  method ResetUserPassword(
      uow: UnitOfWork, cfg: Config, cache: Cache, limiter: InMemoryRateLimiter, ipPolicy: Policy, secret: string,
      password: string, repeat: string, passwordHash: string, device: Device, now: Time, ticks: real)
    returns (r: Result<UserId, AppError>)
    modifies uow, uow.store, cache, limiter
    ensures limiter.counters == ThrottleIp(ipPolicy, old(limiter.counters), "reset-password:ip:", device, ticks).0
    ensures var refusal := ThrottleIp(ipPolicy, old(limiter.counters), "reset-password:ip:", device, ticks).1;
            if refusal.Some? then r == Failure(refusal.value) && uow.store.db == old(uow.store.db)
            else Settles(old(uow.store.db), uow.store.db, r,
                         ResetPassword(cfg, old(uow.store.db), secret, password, repeat, passwordHash, device, now))
    ensures cache.entries == if r.Success? then old(cache.entries) - {Key(r.value)} else old(cache.entries)
  {
    var refusal := ThrottleAddress(limiter, ipPolicy, "reset-password:ip:", device, ticks);
    if refusal.Some? {
      return Failure(refusal.value);
    }
    if password != repeat {
      return Failure(PasswordMismatch);
    }
    uow.Enter();
    r := ResetBody(uow, cfg, secret, password, passwordHash, device, now);
    uow.Exit(r.Failure?);
    if r.Success? {
      cache.Delete(Key(r.value));
    }
  }

  // ---------------------------------------------------------------- deactivation

  method DeleteBody(uow: UnitOfWork, u: UserId, device: Device, now: Time) returns (r: Result<(), AppError>)
    requires uow.Entered()
    modifies uow.tx, uow.store
    ensures Settles(old(uow.store.db), uow.store.db, r, DeleteUser(old(uow.store.db), u, device, now))
  {
    var found :- uow.users.GetById(u);
    if found.None? {
      return Failure(UserNotFound);
    }
    var user := found.value;
    var _ :- uow.users.Update(user.(row := user.row.(isActive := false)), now);
    var revoked :- uow.sessions.RevokeAllForUser(u, now, None);
    :- RecordEvent(uow, UserBanned(None, Some("self_deactivated"), revoked), Some(u), device, now);
    :- uow.tx.Commit();
    r := Success(());
  }

  method DeleteAccount(
      uow: UnitOfWork, cache: Cache, u: UserId, device: Device, now: Time)
    returns (r: Result<(), AppError>)
    modifies uow, uow.store, cache
    ensures Settles(old(uow.store.db), uow.store.db, r, DeleteUser(old(uow.store.db), u, device, now))
    ensures cache.entries == if r.Success? then old(cache.entries) - {Key(u)} else old(cache.entries)
  {
    uow.Enter();
    r := DeleteBody(uow, u, device, now);
    uow.Exit(r.Failure?);
    if r.Success? {
      cache.Delete(Key(u));
    }
  }
}

/** The use cases of moderation, of session review and of access control. */
module AdminUseCases {
  import opened Wrappers
  import opened Entities
  import opened Tables
  import opened Persistence
  import opened Transactions
  import opened Settlement
  import opened AuthUseCases
  import opened UserCache

  // ---------------------------------------------------------------- moderation

  method BanBody(uow: UnitOfWork, actor: UserId, target: UserId, reason: Option<string>, device: Device, now: Time)
    returns (r: Result<Moderation, AppError>)
    requires uow.Entered() && actor != target
    modifies uow.tx, uow.store
    ensures Settles(old(uow.store.db), uow.store.db, r, Ban(old(uow.store.db), actor, target, reason, device, now))
  {
    var found :- uow.users.GetById(target);
    if found.None? {
      return Failure(UserNotFound);
    }
    var user := found.value;
    if user.row.isSuperuser {
      return Failure(AuthorizationError);
    }
    if !user.row.isActive {
      return Success(Unchanged(user));
    }
    var banned :- uow.users.Update(user.(row := user.row.(isActive := false)), now);
    var revoked :- uow.sessions.RevokeAllForUser(target, now, None);
    :- RecordEvent(uow, UserBanned(Some(actor), reason, revoked), Some(target), device, now);
    :- uow.tx.Commit();
    r := Success(Changed(banned));
  }

  /** A ban that changes nothing also leaves the cache alone. */
  method BanUser(
      uow: UnitOfWork, cache: Cache, actor: UserId, target: UserId, reason: Option<string>, device: Device, now: Time)
    returns (r: Result<Moderation, AppError>)
    modifies uow, uow.store, cache
    ensures Settles(old(uow.store.db), uow.store.db, r, Ban(old(uow.store.db), actor, target, reason, device, now))
    ensures cache.entries == if r.Success? && r.value.Changed? then old(cache.entries) - {Key(target)}
        else old(cache.entries)
  {
    if actor == target {
      return Failure(ValidationError);
    }
    uow.Enter();
    r := BanBody(uow, actor, target, reason, device, now);
    uow.Exit(r.Failure?);
    if r.Success? && r.value.Changed? {
      cache.Delete(Key(target));
    }
  }

  method UnbanBody(uow: UnitOfWork, actor: UserId, target: UserId, device: Device, now: Time)
    returns (r: Result<Moderation, AppError>)
    requires uow.Entered()
    modifies uow.tx, uow.store
    ensures Settles(old(uow.store.db), uow.store.db, r, Unban(old(uow.store.db), actor, target, device, now))
  {
    var found :- uow.users.GetById(target);
    if found.None? {
      return Failure(UserNotFound);
    }
    var user := found.value;
    if user.row.isActive {
      return Success(Unchanged(user));
    }
    var restored :- uow.users.Update(user.(row := user.row.(isActive := true)), now);
    :- RecordEvent(uow, UserUnbanned(actor), Some(target), device, now);
    :- uow.tx.Commit();
    r := Success(Changed(restored));
  }

  method UnbanUser(uow: UnitOfWork, cache: Cache, actor: UserId, target: UserId, device: Device, now: Time)
    returns (r: Result<Moderation, AppError>)
    modifies uow, uow.store, cache
    ensures Settles(old(uow.store.db), uow.store.db, r, Unban(old(uow.store.db), actor, target, device, now))
    ensures cache.entries == if r.Success? && r.value.Changed? then old(cache.entries) - {Key(target)}
        else old(cache.entries)
  {
    uow.Enter();
    r := UnbanBody(uow, actor, target, device, now);
    uow.Exit(r.Failure?);
    if r.Success? && r.value.Changed? {
      cache.Delete(Key(target));
    }
  }

  // ---------------------------------------------------------------- sessions

  /** The caller's active sessions, newest first; nothing is written. */
  method ListUserSessions(uow: UnitOfWork, u: UserId, now: Time) returns (r: Result<seq<SessionRow>, AppError>)
    modifies uow
    ensures r == Failure(DatabaseFault) || r == Success(ActiveSessions(uow.store.db.sessions, u, now))
  {
    uow.Enter();
    r := uow.sessions.ListActiveForUser(u, now);
    uow.Exit(r.Failure?);
  }

  method RevokeOneBody(
      uow: UnitOfWork, u: UserId, session: nat, device: Device, now: Time)
    returns (r: Result<(), AppError>)
    requires uow.Entered()
    modifies uow.tx, uow.store
    ensures Settles(old(uow.store.db), uow.store.db, r, RevokeOne(old(uow.store.db), u, session, device, now))
  {
    var found :- uow.sessions.GetById(session);
    if found.None? || found.value.row.userId != u {
      return Failure(SessionNotFound);
    }
    :- uow.sessions.Revoke(found.value.row.jti, now);
    :- RecordEvent(uow, SessionRevoked(session), Some(u), device, now);
    :- uow.tx.Commit();
    r := Success(());
  }

  method RevokeUserSession(
      uow: UnitOfWork, u: UserId, session: nat, device: Device, now: Time)
    returns (r: Result<(), AppError>)
    modifies uow, uow.store
    ensures Settles(old(uow.store.db), uow.store.db, r, RevokeOne(old(uow.store.db), u, session, device, now))
  {
    uow.Enter();
    r := RevokeOneBody(uow, u, session, device, now);
    uow.Exit(r.Failure?);
  }

  method RevokeAllBody(
      uow: UnitOfWork, u: UserId, spared: Option<string>, device: Device, now: Time)
    returns (r: Result<nat, AppError>)
    requires uow.Entered()
    modifies uow.tx, uow.store
    ensures Settles(old(uow.store.db), uow.store.db, r, RevokeAll(old(uow.store.db), u, spared, device, now))
  {
    var revoked :- uow.sessions.RevokeAllForUser(u, now, spared);
    :- RecordEvent(uow, SessionsRevoked(if spared.None? then All else Others, revoked), Some(u), device, now);
    :- uow.tx.Commit();
    r := Success(revoked);
  }

  method RevokeAllSessions(
      uow: UnitOfWork, u: UserId, spared: Option<string>, device: Device, now: Time)
    returns (r: Result<nat, AppError>)
    modifies uow, uow.store
    ensures Settles(old(uow.store.db), uow.store.db, r, RevokeAll(old(uow.store.db), u, spared, device, now))
  {
    uow.Enter();
    r := RevokeAllBody(uow, u, spared, device, now);
    uow.Exit(r.Failure?);
  }

  // ---------------------------------------------------------------- roles of a user

  method AssignBody(uow: UnitOfWork, u: UserId, role: RoleId) returns (r: Result<User, AppError>)
    requires uow.Entered()
    modifies uow.tx, uow.store
    ensures SettlesOrReads(old(uow.store.db), uow.store.db, r, AssignRole(old(uow.store.db), u, role))
  {
    var user :- uow.users.GetById(u);
    if user.None? {
      return Failure(UserNotFound);
    }
    var row :- uow.roles.GetById(role);
    if row.None? {
      return Failure(RoleNotFound);
    }
    :- uow.users.AssignRole(u, role);
    :- uow.tx.Commit();
    user :- uow.users.GetById(u);
    r := Success(user.value);
  }

  /** A fault after the commit leaves the entry in place. */
  method AssignRoleToUser(uow: UnitOfWork, cache: Cache, u: UserId, role: RoleId) returns (r: Result<User, AppError>)
    modifies uow, uow.store, cache
    ensures SettlesOrReads(old(uow.store.db), uow.store.db, r, AssignRole(old(uow.store.db), u, role))
    ensures cache.entries == if r.Success? then old(cache.entries) - {Key(u)} else old(cache.entries)
  {
    uow.Enter();
    r := AssignBody(uow, u, role);
    uow.Exit(r.Failure?);
    if r.Success? {
      cache.Delete(Key(u));
    }
  }

  method UnassignBody(uow: UnitOfWork, u: UserId, role: RoleId) returns (r: Result<User, AppError>)
    requires uow.Entered()
    modifies uow.tx, uow.store
    ensures SettlesOrReads(old(uow.store.db), uow.store.db, r, RevokeRole(old(uow.store.db), u, role))
  {
    var user :- uow.users.GetById(u);
    if user.None? {
      return Failure(UserNotFound);
    }
    :- uow.users.RevokeRole(u, role);
    :- uow.tx.Commit();
    user :- uow.users.GetById(u);
    r := Success(user.value);
  }

  method RevokeRoleFromUser(uow: UnitOfWork, cache: Cache, u: UserId, role: RoleId) returns (r: Result<User, AppError>)
    modifies uow, uow.store, cache
    ensures SettlesOrReads(old(uow.store.db), uow.store.db, r, RevokeRole(old(uow.store.db), u, role))
    ensures cache.entries == if r.Success? then old(cache.entries) - {Key(u)} else old(cache.entries)
  {
    uow.Enter();
    r := UnassignBody(uow, u, role);
    uow.Exit(r.Failure?);
    if r.Success? {
      cache.Delete(Key(u));
    }
  }

  // ---------------------------------------------------------------- role-level edits: no cache delete

  method GrantBody(uow: UnitOfWork, role: RoleId, permission: PermissionId) returns (r: Result<Role, AppError>)
    requires uow.Entered()
    modifies uow.tx, uow.store
    ensures SettlesOrReads(old(uow.store.db), uow.store.db, r, GrantPermission(old(uow.store.db), role, permission))
  {
    var row :- uow.roles.GetById(role);
    if row.None? {
      return Failure(RoleNotFound);
    }
    var wanted :- uow.roles.GetPermission(permission);
    if wanted.None? {
      return Failure(PermissionNotFound);
    }
    :- uow.roles.GrantPermission(role, permission);
    :- uow.tx.Commit();
    row :- uow.roles.GetById(role);
    r := Success(row.value);
  }

  method GrantPermissionToRole(
      uow: UnitOfWork, role: RoleId, permission: PermissionId)
    returns (r: Result<Role, AppError>)
    modifies uow, uow.store
    ensures SettlesOrReads(old(uow.store.db), uow.store.db, r, GrantPermission(old(uow.store.db), role, permission))
  {
    uow.Enter();
    r := GrantBody(uow, role, permission);
    uow.Exit(r.Failure?);
  }

  method UngrantBody(uow: UnitOfWork, role: RoleId, permission: PermissionId) returns (r: Result<Role, AppError>)
    requires uow.Entered()
    modifies uow.tx, uow.store
    ensures SettlesOrReads(old(uow.store.db), uow.store.db, r, RevokePermission(old(uow.store.db), role, permission))
  {
    var row :- uow.roles.GetById(role);
    if row.None? {
      return Failure(RoleNotFound);
    }
    :- uow.roles.RevokePermission(role, permission);
    :- uow.tx.Commit();
    row :- uow.roles.GetById(role);
    r := Success(row.value);
  }

  method RevokePermissionFromRole(
      uow: UnitOfWork, role: RoleId, permission: PermissionId)
    returns (r: Result<Role, AppError>)
    modifies uow, uow.store
    ensures SettlesOrReads(old(uow.store.db), uow.store.db, r, RevokePermission(old(uow.store.db), role, permission))
  {
    uow.Enter();
    r := UngrantBody(uow, role, permission);
    uow.Exit(r.Failure?);
  }

  method DeleteRoleBody(uow: UnitOfWork, role: RoleId) returns (r: Result<(), AppError>)
    requires uow.Entered()
    modifies uow.tx, uow.store
    ensures Settles(old(uow.store.db), uow.store.db, r, DeleteRole(old(uow.store.db), role))
  {
    var row :- uow.roles.GetById(role);
    if row.None? {
      return Failure(RoleNotFound);
    }
    :- uow.roles.Delete(role);
    :- uow.tx.Commit();
    r := Success(());
  }

  method RemoveRole(uow: UnitOfWork, role: RoleId) returns (r: Result<(), AppError>)
    modifies uow, uow.store
    ensures Settles(old(uow.store.db), uow.store.db, r, DeleteRole(old(uow.store.db), role))
  {
    uow.Enter();
    r := DeleteRoleBody(uow, role);
    uow.Exit(r.Failure?);
  }
}
