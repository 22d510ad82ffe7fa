/** What holds in every state of every run that starts in a state satisfying the invariant. */
module Theorems {
  import opened Wrappers
  import opened Entities
  import opened Tables
  import opened Transactions
  import opened Text
  import opened UserCache
  import opened CachedAuthentication
  import opened World
  import opened Invariants
  import opened Preservation

  /** Any database of active accounts with normal, distinct names and no history is a lawful start. */
  lemma SeededStart(cfg: Config, db: Db, now: Time)
    requires AccountsOk(db.users) && db.sessions == [] && db.tokens == [] && db.audit == []
    requires forall u :: 0 <= u < |db.users| ==> db.users[u].isActive
    ensures Lawful(cfg, [World(db, now, {}, map[], map[], |db.users|)], [])
  {
  }

  /** The states before and after action `i`, and one no earlier than that. */
  lemma Around(cfg: Config, states: seq<World>, run: Run, i: nat, j: nat)
    requires Lawful(cfg, states, run) && i < j <= |run|
    ensures Inv(states[i]) && Inv(states[i + 1]) && Inv(states[j])
    ensures Later(states[i], states[i + 1]) && Later(states[i + 1], states[j])
    ensures Enabled(cfg, states[i], run[i].0, run[i].1) && states[i + 1] == Step(cfg, states[i], run[i].0, run[i].1)
  {
    RunKeepsInv(cfg, states, run, i);
    RunKeepsInv(cfg, states, run, i + 1);
    RunKeepsInv(cfg, states, run, j);
    RunGoesForward(cfg, states, run, i, i + 1);
    RunGoesForward(cfg, states, run, i + 1, j);
  }

  // ---------------------------------------------------------------- rejection

  /** The token is turned away by refresh and by authenticate, whatever the cache holds. */
  ghost predicate Rejected(db: Db, c: Claims) {
    && (forall now: Time :: Authenticate(db, Signed(c), now).Failure?)
    && (forall format, entries, ttl, now :: AuthenticateCached(format, db, entries, ttl, Signed(c), now).0.Failure?)
    && (forall cfg: Config, device, jti, now :: RefreshSession(cfg, db, Signed(c), device, jti, now).1.Failure?)
  }

  lemma RevokedIsRejected(db: Db, c: Claims)
    requires FindJti(db.sessions, c.jti).None? || db.sessions[FindJti(db.sessions, c.jti).value].IsRevoked()
    ensures Rejected(db, c)
  {
  }

  /** A session revoked at one time makes its tokens rejected at every later time. */
  lemma RevokedForever(w: World, v: World, c: Claims)
    requires Inv(w) && Inv(v) && Later(w, v) && c in w.issued
    requires w.db.sessions[SessionOf(w, c)].IsRevoked()
    ensures Rejected(v.db, c)
  {
    var i := SessionOf(w, c);
    FindJtiAt(v.db.users, v.db.sessions, i);
    RevokedIsRejected(v.db, c);
  }

  /** The stored session of an issued token. */
  ghost function SessionOf(w: World, c: Claims): (i: nat)
    requires Inv(w) && c in w.issued
    ensures FindJti(w.db.sessions, c.jti) == Some(i) && Backs(w.db.sessions[i], c)
  {
    GenuineOwner(w.db.users, w.db.sessions, w.issued, c);
    FindJti(w.db.sessions, c.jti).value
  }

  // ---------------------------------------------------------------- rotation

  /** Among a login session and all sessions rotated from it, only the newest can be unrevoked. */
  lemma RotationChain(cfg: Config, states: seq<World>, run: Run, k: nat, i: nat, j: nat)
    requires Lawful(cfg, states, run) && k <= |run|
    requires var v := states[k]; i < |v.db.sessions| && j < |v.db.sessions| && Kin(v.db.sessions, v.root, i, j)
    ensures var rows := states[k].db.sessions;
            && rows[i].userId == rows[j].userId && rows[i].createdAt == rows[j].createdAt
            && (!rows[i].IsRevoked() ==> j <= i)
            && (!rows[i].IsRevoked() && !rows[j].IsRevoked() ==> i == j)
  {
    RunKeepsInv(cfg, states, run, k);
    var v := states[k];
    if j < i {
      assert Kin(v.db.sessions, v.root, j, i);
    }
  }

  predicate Refreshes(cfg: Config, db: Db, a: Action, t: Time, c: Claims) {
    a.DoRefresh? && a.token == Signed(c) && RefreshSession(cfg, db, a.token, a.device, a.jti, t).1.Success?
  }

  /** An accepted refresh revokes its own session. */
  lemma RefreshRevokes(cfg: Config, w: World, a: Action, t: Time, c: Claims)
    requires Inv(w) && Enabled(cfg, w, a, t) && Refreshes(cfg, w.db, a, t, c)
    ensures c in w.issued && Step(cfg, w, a, t).db.sessions[SessionOf(w, c)].IsRevoked()
  {
    RefreshShape(cfg, w.db, a, t);
  }

  /** A refresh token that was accepted once, and its access token, are rejected in every later state. */
  lemma RefreshedIsSpent(cfg: Config, states: seq<World>, run: Run, i: nat, j: nat, c: Claims)
    requires Lawful(cfg, states, run) && i < j <= |run|
    requires Refreshes(cfg, states[i].db, run[i].0, run[i].1, c)
    ensures forall d: Claims :: d.jti == c.jti ==> Rejected(states[j].db, d)
  {
    Around(cfg, states, run, i, j);
    var x, v := states[i], states[j];
    RefreshRevokes(cfg, x, run[i].0, run[i].1, c);
    var s := SessionOf(x, c);
    FindJtiAt(v.db.users, v.db.sessions, s);
    forall d: Claims | d.jti == c.jti ensures Rejected(v.db, d) {
      RevokedIsRejected(v.db, d);
    }
  }

  /** No refresh token is accepted twice in any run. */
  lemma NoTokenRefreshesTwice(cfg: Config, states: seq<World>, run: Run, i: nat, j: nat, c: Claims)
    requires Lawful(cfg, states, run) && i < j < |run|
    requires Refreshes(cfg, states[i].db, run[i].0, run[i].1, c)
    ensures !Refreshes(cfg, states[j].db, run[j].0, run[j].1, c)
  {
    RefreshedIsSpent(cfg, states, run, i, j, c);
  }

  lemma HeirIsLive(cfg: Config, w: World, a: Action, t: Time, c: Claims)
    requires Enabled(cfg, w, a, t) && Refreshes(cfg, w.db, a, t, c)
    ensures var rows := Step(cfg, w, a, t).db.sessions;
            rows != [] && rows[|rows| - 1].jti == a.jti && !rows[|rows| - 1].IsRevoked()
  {
    RefreshShape(cfg, w.db, a, t);
  }

  lemma HeirInRun(cfg: Config, states: seq<World>, run: Run, i: nat, c: Claims)
    requires Behaves(cfg, states, run) && i < |run| && Refreshes(cfg, states[i].db, run[i].0, run[i].1, c)
    ensures var rows := states[i + 1].db.sessions;
            rows != [] && rows[|rows| - 1].jti == run[i].0.jti && !rows[|rows| - 1].IsRevoked()
  {
    HeirIsLive(cfg, states[i], run[i].0, run[i].1, c);
  }

  /** Replaying a refresh token that was accepted before changes nothing, at any later time. */
  lemma ReplayChangesNothing(cfg: Config, states: seq<World>, run: Run, i: nat, j: nat, c: Claims)
    requires Lawful(cfg, states, run) && i < j < |run|
    requires Refreshes(cfg, states[i].db, run[i].0, run[i].1, c)
    requires run[j].0.DoRefresh? && run[j].0.token == Signed(c)
    ensures states[j + 1].db == states[j].db
  {
    RefreshedIsSpent(cfg, states, run, i, j, c);
    RefusedRefresh(cfg, states, run, j, c);
  }

  /** In particular a replay right after the refresh leaves the session that replaced its own unrevoked. */
  lemma HeirSurvivesReplay(cfg: Config, states: seq<World>, run: Run, i: nat, c: Claims)
    requires Lawful(cfg, states, run) && i + 1 < |run|
    requires Refreshes(cfg, states[i].db, run[i].0, run[i].1, c)
    requires run[i + 1].0.DoRefresh? && run[i + 1].0.token == Signed(c)
    ensures var rows := states[i + 2].db.sessions;
            rows != [] && rows[|rows| - 1].jti == run[i].0.jti && !rows[|rows| - 1].IsRevoked()
  {
    HeirInRun(cfg, states, run, i, c);
    ReplayChangesNothing(cfg, states, run, i, i + 1, c);
  }

  lemma RefusedRefresh(cfg: Config, states: seq<World>, run: Run, j: nat, c: Claims)
    requires Behaves(cfg, states, run) && j < |run| && run[j].0.DoRefresh? && run[j].0.token == Signed(c)
    requires Rejected(states[j].db, c)
    ensures states[j + 1].db == states[j].db
  {
    RefusalKeeps(cfg, states[j].db, run[j].0, run[j].1);
  }

  lemma RefusalKeeps(cfg: Config, db: Db, a: Action, t: Time)
    requires a.DoRefresh? && a.token.Signed? && Rejected(db, a.token.claims)
    ensures After(cfg, db, a, t) == db
  {
    assert RefreshSession(cfg, db, a.token, a.device, a.jti, t).1.Failure?;
  }

  // ---------------------------------------------------------------- the sign-out barrier

  /** The action took effect and signs the user out everywhere except, possibly, on one session. */
  predicate SignsOut(cfg: Config, db: Db, a: Action, t: Time, u: UserId, spared: Option<string>) {
    match a
    case DoChangePassword(v, current, next, repeat, hash, device) =>
      v == u && spared.None? && ChangePassword(cfg, db, v, current, next, repeat, hash, device, t).1.Success?
    case DoReset(presented, password, repeat, hash, device) =>
      spared.None? && ResetPassword(cfg, db, presented, password, repeat, hash, device, t).1 == Success(u)
    case DoBan(actor, v, reason, device) =>
      var reply := Ban(db, actor, v, reason, device, t).1;
      v == u && spared.None? && reply.Success? && reply.value.Changed?
    case DoDelete(v, device) => v == u && spared.None? && DeleteUser(db, v, device, t).1.Success?
    case DoRevokeAll(v, except, device) => v == u && spared == except
    case _ => false
  }

  lemma SignOutStamps(cfg: Config, db: Db, a: Action, t: Time, u: UserId, spared: Option<string>)
    requires SignsOut(cfg, db, a, t, u, spared)
    ensures After(cfg, db, a, t).sessions == Stamp(db.sessions, OfUser(u, spared), t)
  {
  }

  /** ... so the session behind every earlier token of the user is revoked. */
  lemma SignOutRevokes(cfg: Config, x: World, a: Action, t: Time, u: UserId, spared: Option<string>, c: Claims)
    requires Inv(x) && Inv(Step(cfg, x, a, t)) && SignsOut(cfg, x.db, a, t, u, spared)
    requires c in x.issued && c.sub == u && spared != Some(c.jti)
    ensures c in Step(cfg, x, a, t).issued
    ensures var y := Step(cfg, x, a, t); y.db.sessions[SessionOf(y, c)].IsRevoked()
  {
    var y := Step(cfg, x, a, t);
    SignOutStamps(cfg, x.db, a, t, u, spared);
    var s := SessionOf(x, c);
    assert y.db.sessions[s].IsRevoked() && y.db.sessions[s].jti == c.jti;
    FindJtiAt(y.db.users, y.db.sessions, s);
  }

  lemma SignedOutFor(cfg: Config, x: World, a: Action, t: Time, v: World, u: UserId, spared: Option<string>, c: Claims)
    requires Inv(x) && Inv(Step(cfg, x, a, t)) && Inv(v) && Later(Step(cfg, x, a, t), v)
    requires SignsOut(cfg, x.db, a, t, u, spared)
    requires c in x.issued && c.sub == u && spared != Some(c.jti)
    ensures Rejected(v.db, c)
  {
    SignOutRevokes(cfg, x, a, t, u, spared, c);
    RevokedForever(Step(cfg, x, a, t), v, c);
  }

  /**
   * After a password change, a reset, a ban, a self-delete or a revoke-all, every token issued to
   * that user earlier is rejected in every later state of every run, also after an unban; a
   * revoke-all that spares one session rejects all the others.
   */
  lemma SignOutBarrier(
      cfg: Config, states: seq<World>, run: Run, i: nat, j: nat, u: UserId, spared: Option<string>, c: Claims)
    requires Lawful(cfg, states, run) && i < j <= |run|
    requires SignsOut(cfg, states[i].db, run[i].0, run[i].1, u, spared)
    requires c in states[i].issued && c.sub == u && spared != Some(c.jti)
    ensures Rejected(states[j].db, c)
  {
    Around(cfg, states, run, i, j);
    var x, v := states[i], states[j];
    SignedOutFor(cfg, x, run[i].0, run[i].1, v, u, spared, c);
  }

  /** In every reachable state a token of an inactive account is rejected, whatever the cache holds. */
  lemma InactiveIsSignedOut(cfg: Config, states: seq<World>, run: Run, k: nat, c: Claims)
    requires Lawful(cfg, states, run) && k <= |run|
    requires c in states[k].issued
    requires c.sub < |states[k].db.users| ==> !states[k].db.users[c.sub].isActive
    ensures Rejected(states[k].db, c)
  {
    RunKeepsInv(cfg, states, run, k);
    var v := states[k];
    var s := SessionOf(v, c);
    assert v.db.sessions[s].IsRevoked();
    RevokedIsRejected(v.db, c);
  }

  // ---------------------------------------------------------------- the device list

  /** The device list holds exactly the user's sessions whose status is active. */
  lemma {:induction false} ListedExactly(sessions: seq<SessionRow>, u: UserId, now: Time, row: SessionRow)
    ensures row in ActiveSessions(sessions, u, now) <==> row in sessions && row.userId == u && row.Status(now) == Active
    decreases |sessions|
  {
    if sessions != [] {
      var n := |sessions| - 1;
      ListedExactly(sessions[..n], u, now, row);
      assert sessions == sessions[..n] + [sessions[n]];
    }
  }

  /** In every reachable state a device list shows at most one session of each login. */
  lemma OneListedPerLogin(
      cfg: Config, states: seq<World>, run: Run, k: nat, u: UserId, now: Time, a: SessionRow, b: SessionRow)
    requires Lawful(cfg, states, run) && k <= |run|
    requires var v := states[k];
             && a in ActiveSessions(v.db.sessions, u, now) && b in ActiveSessions(v.db.sessions, u, now)
             && a.jti in v.root && b.jti in v.root && v.root[a.jti] == v.root[b.jti]
    ensures a == b
  {
    var v := states[k];
    ListedExactly(v.db.sessions, u, now, a);
    ListedExactly(v.db.sessions, u, now, b);
    var i: nat :| i < |v.db.sessions| && v.db.sessions[i] == a;
    var j: nat :| j < |v.db.sessions| && v.db.sessions[j] == b;
    assert Kin(v.db.sessions, v.root, i, j);
    RotationChain(cfg, states, run, k, i, j);
  }

  /** Right after a sign-out the user's device list shows nothing but the spared session. */
  lemma SignOutClearsList(
      cfg: Config, states: seq<World>, run: Run, i: nat, u: UserId, spared: Option<string>, now: Time, row: SessionRow)
    requires Lawful(cfg, states, run) && i < |run|
    requires SignsOut(cfg, states[i].db, run[i].0, run[i].1, u, spared)
    requires row in ActiveSessions(states[i + 1].db.sessions, u, now)
    ensures spared == Some(row.jti)
  {
    SignOutStamps(cfg, states[i].db, run[i].0, run[i].1, u, spared);
    ListedExactly(states[i + 1].db.sessions, u, now, row);
  }

  // ---------------------------------------------------------------- exact acceptance

  /**
   * In every reachable state an issued refresh token works exactly until its `exp`, its revocation or
   * its user's deactivation.
   */
  lemma RefreshAcceptance(
      cfg: Config, states: seq<World>, run: Run, k: nat, c: Claims, device: Device, jti: string, now: Time)
    requires Lawful(cfg, states, run) && k <= |run|
    requires c in states[k].issued && c.kind == Refresh
    ensures var v := states[k];
            && Inv(v) && c.sub < |v.db.users|
            && (RefreshSession(cfg, v.db, Signed(c), device, jti, now).1.Success?
                <==> (now < c.exp * SECOND && !v.db.sessions[SessionOf(v, c)].IsRevoked() &&
                    v.db.users[c.sub].isActive))
  {
    RunKeepsInv(cfg, states, run, k);
    var v := states[k];
    var row := v.db.sessions[SessionOf(v, c)];
    assert c.exp * SECOND <= row.expiresAt;
  }

  /** An issued access token also needs its session unexpired; that its user is active then follows. */
  lemma AccessAcceptance(cfg: Config, states: seq<World>, run: Run, k: nat, c: Claims, now: Time)
    requires Lawful(cfg, states, run) && k <= |run|
    requires c in states[k].issued && c.kind == Access
    ensures var v := states[k];
            && Inv(v)
            && var row := v.db.sessions[SessionOf(v, c)];
            Authenticate(v.db, Signed(c), now)
              == if now < c.exp * SECOND && now < row.expiresAt && !row.IsRevoked()
                 then Success(LoadUser(v.db, c.sub).value) else Failure(AuthenticationError)
  {
    RunKeepsInv(cfg, states, run, k);
    var v := states[k];
    var s := SessionOf(v, c);
  }

  // ---------------------------------------------------------------- one-time tokens

  /** In every reachable state a user has at most one unspent token of each purpose. */
  lemma OneUnspentToken(cfg: Config, states: seq<World>, run: Run, k: nat, i: nat, j: nat)
    requires Lawful(cfg, states, run) && k <= |run|
    requires var rows := states[k].db.tokens;
             && i < |rows| && j < |rows| && rows[i].userId == rows[j].userId && rows[i].purpose == rows[j].purpose
             && !rows[i].IsUsed() && !rows[j].IsUsed()
    ensures i == j
  {
    RunKeepsInv(cfg, states, run, k);
  }

  /** The action spends a secret. */
  predicate Spends(cfg: Config, db: Db, a: Action, t: Time) {
    match a
    case DoReset(presented, password, repeat, hash, device) =>
        ResetPassword(cfg, db, presented, password, repeat, hash, device, t).1.Success?
    case DoVerify(presented, device) => VerifyEmail(cfg, db, presented, device, t).1.Success?
    case _ => false
  }

  lemma FindTokenAt(
      users: seq<UserRow>, tokens: seq<TokenRow>, addressed: map<string, string>, i: nat, purpose: TokenPurpose)
    requires TokensOk(users, tokens, addressed) && i < |tokens|
    ensures FindToken(tokens, tokens[i].tokenHash, purpose) == if tokens[i].purpose == purpose then Some(i) else None
  {
  }

  /** The secret is refused as a reset link and as a verification link. */
  ghost predicate Refused(cfg: Config, db: Db, secret: string) {
    && (forall password, repeat, hash, device, t ::
        ResetPassword(cfg, db, secret, password, repeat, hash, device, t).1.Failure?)
    && (forall device, t :: VerifyEmail(cfg, db, secret, device, t).1.Failure?)
  }

  lemma UsedIsRefused(cfg: Config, w: World, i: nat, secret: string)
    requires Inv(w) && i < |w.db.tokens| && w.db.tokens[i].IsUsed() &&
        w.db.tokens[i].tokenHash == cfg.secretHash(secret)
    ensures Refused(cfg, w.db, secret)
  {
    FindTokenAt(w.db.users, w.db.tokens, w.addressed, i, PasswordReset);
    FindTokenAt(w.db.users, w.db.tokens, w.addressed, i, EmailVerification);
  }

  lemma SpendMarks(cfg: Config, db: Db, a: Action, t: Time) returns (i: nat)
    requires Spends(cfg, db, a, t)
    ensures i < |db.tokens| && db.tokens[i].tokenHash == cfg.secretHash(a.presented)
    ensures var after := After(cfg, db, a, t).tokens;
            i < |after| && after[i].IsUsed() && after[i].tokenHash == db.tokens[i].tokenHash
  {
    var purpose := if a.DoReset? then PasswordReset else EmailVerification;
    i := FindToken(db.tokens, cfg.secretHash(a.presented), purpose).value;
  }

  /** A secret that succeeded once, for either purpose, is refused for both in every later state. */
  lemma SecretSpentOnce(cfg: Config, states: seq<World>, run: Run, i: nat, j: nat, secret: string)
    requires Lawful(cfg, states, run) && i < j <= |run|
    requires Spends(cfg, states[i].db, run[i].0, run[i].1)
    requires cfg.secretHash(secret) == cfg.secretHash(run[i].0.presented)
    ensures Refused(cfg, states[j].db, secret)
  {
    Around(cfg, states, run, i, j);
    var x, v := states[i], states[j];
    var k := SpendMarks(cfg, x.db, run[i].0, run[i].1);
    UsedIsRefused(cfg, v, k, secret);
  }

  /** In every reachable state a secret stored for one purpose is refused for the other. */
  lemma WrongPurpose(
      cfg: Config, states: seq<World>, run: Run, k: nat, i: nat, secret: string, device: Device, t: Time,
      password: string, hash: string)
    requires Lawful(cfg, states, run) && k <= |run|
    requires i < |states[k].db.tokens| && states[k].db.tokens[i].tokenHash == cfg.secretHash(secret)
    ensures var db := states[k].db;
            if db.tokens[i].purpose == EmailVerification
            then ResetPassword(cfg, db, secret, password, password, hash, device, t) == (db, Failure(InvalidToken))
            else VerifyEmail(cfg, db, secret, device, t) == (db, Failure(InvalidToken))
  {
    RunKeepsInv(cfg, states, run, k);
    var v := states[k];
    FindTokenAt(v.db.users, v.db.tokens, v.addressed, i, PasswordReset);
    FindTokenAt(v.db.users, v.db.tokens, v.addressed, i, EmailVerification);
  }

  /** The secret's row for the purpose is unspent and unexpired, and its owner active. */
  predicate Works(cfg: Config, db: Db, i: nat, purpose: TokenPurpose, secret: string, now: Time) {
    && i < |db.tokens| && db.tokens[i].purpose == purpose && db.tokens[i].tokenHash == cfg.secretHash(secret)
    && !db.tokens[i].IsUsed() && now < db.tokens[i].expiresAt
    && db.tokens[i].userId < |db.users| && db.users[db.tokens[i].userId].isActive
  }

  /** In every reachable state a link works exactly if some stored row makes it work. */
  lemma LinkAcceptance(
      cfg: Config, states: seq<World>, run: Run, k: nat, secret: string, password: string, hash: string,
      device: Device, now: Time)
    requires Lawful(cfg, states, run) && k <= |run|
    ensures var db := states[k].db;
            && (ResetPassword(cfg, db, secret, password, password, hash, device, now).1.Success? <==>
                  exists i: nat :: Works(cfg, db, i, PasswordReset, secret, now))
            && (VerifyEmail(cfg, db, secret, device, now).1.Success? <==>
                  exists i: nat :: Works(cfg, db, i, EmailVerification, secret, now))
  {
    RunKeepsInv(cfg, states, run, k);
    var v := states[k];
    LinkFound(cfg, v, PasswordReset, secret, now);
    LinkFound(cfg, v, EmailVerification, secret, now);
    ResetChecksLink(cfg, v.db, secret, password, hash, device, now);
  }

  lemma LinkFound(cfg: Config, v: World, purpose: TokenPurpose, secret: string, now: Time)
    requires Inv(v)
    ensures var found := FindToken(v.db.tokens, cfg.secretHash(secret), purpose);
            (exists i: nat :: Works(cfg, v.db, i, purpose, secret, now)) <==>
                found.Some? && Works(cfg, v.db, found.value, purpose, secret, now)
  {
    forall i: nat | Works(cfg, v.db, i, purpose, secret, now)
      ensures FindToken(v.db.tokens, cfg.secretHash(secret), purpose) == Some(i)
    {
      FindTokenAt(v.db.users, v.db.tokens, v.addressed, i, purpose);
    }
  }

  lemma ResetChecksLink(cfg: Config, db: Db, secret: string, password: string, hash: string, device: Device, now: Time)
    ensures var found := FindToken(db.tokens, cfg.secretHash(secret), PasswordReset);
            ResetPassword(cfg, db, secret, password, password, hash, device, now).1.Success? <==>
              found.Some? && Works(cfg, db, found.value, PasswordReset, secret, now)
    ensures var found := FindToken(db.tokens, cfg.secretHash(secret), EmailVerification);
            VerifyEmail(cfg, db, secret, device, now).1.Success? <==>
              found.Some? && Works(cfg, db, found.value, EmailVerification, secret, now)
  {
  }

  /** The action is a newer reset link for the user, a completed reset or a password change. */
  predicate KillsResetLinks(cfg: Config, db: Db, a: Action, t: Time, u: UserId) {
    match a
    case DoForgot(email, secret) =>
        KnownActive(db, Normalize(email)) && FindEmail(db.users, Normalize(email)) == Some(u)
    case DoReset(presented, password, repeat, hash, device) =>
        ResetPassword(cfg, db, presented, password, repeat, hash, device, t).1 == Success(u)
    case DoChangePassword(v, current, next, repeat, hash, device) =>
      v == u && ChangePassword(cfg, db, v, current, next, repeat, hash, device, t).1.Success?
    case _ => false
  }

  lemma LinksKilled(cfg: Config, db: Db, a: Action, t: Time, u: UserId, i: nat)
    requires KillsResetLinks(cfg, db, a, t, u)
    requires i < |db.tokens| && db.tokens[i].userId == u && db.tokens[i].purpose == PasswordReset
    ensures var after := After(cfg, db, a, t).tokens;
            i < |after| && after[i].IsUsed() && after[i].tokenHash == db.tokens[i].tokenHash
  {
  }

  /** Every reset link the user was sent before it fails in every later state of every run. */
  lemma EarlierResetLinksDie(
      cfg: Config, states: seq<World>, run: Run, i: nat, j: nat, u: UserId, k: nat, secret: string)
    requires Lawful(cfg, states, run) && i < j <= |run|
    requires KillsResetLinks(cfg, states[i].db, run[i].0, run[i].1, u)
    requires var rows := states[i].db.tokens;
             k < |rows| && rows[k].userId == u && rows[k].purpose == PasswordReset &&
                 rows[k].tokenHash == cfg.secretHash(secret)
    ensures Refused(cfg, states[j].db, secret)
  {
    Around(cfg, states, run, i, j);
    var x, v := states[i], states[j];
    LinksKilled(cfg, x.db, run[i].0, run[i].1, u, k);
    UsedIsRefused(cfg, v, k, secret);
  }

  // ---------------------------------------------------------------- verified addresses

  /** An unspent verification link of the user. */
  predicate Outstanding(row: TokenRow, u: UserId) {
    row.userId == u && row.purpose == EmailVerification && !row.IsUsed()
  }

  /**
   * Whenever an account that was not seeded is verified, some spent verification link of it was
   * mailed to exactly its present address; and any unspent link of a user was mailed to the
   * present address, of an account not yet verified.
   */
  lemma VerifiedAddress(cfg: Config, states: seq<World>, run: Run, k: nat, u: UserId)
    requires Lawful(cfg, states, run) && k <= |run|
    requires u < |states[k].db.users|
    ensures var v := states[k];
            && (v.seeded <= u && v.db.users[u].IsEmailVerified() ==>
                  exists i :: 0 <= i < |v.db.tokens| && Proves(v.db.tokens[i], v.addressed, u, v.db.users[u].email))
            && (forall i :: 0 <= i < |v.db.tokens| && Outstanding(v.db.tokens[i], u) ==>
                  && v.db.tokens[i].tokenHash in v.addressed
                  && v.addressed[v.db.tokens[i].tokenHash] == v.db.users[u].email && !v.db.users[u].IsEmailVerified())
  {
    RunKeepsInv(cfg, states, run, k);
  }

  // ---------------------------------------------------------------- audit log

  /** The log only grows, and replaying it tells exactly who is active. */
  lemma AuditReplay(cfg: Config, states: seq<World>, run: Run, j: nat, k: nat, u: UserId)
    requires Lawful(cfg, states, run) && j <= k <= |run|
    requires u < |states[k].db.users|
    ensures states[j].db.audit <= states[k].db.audit
    ensures states[k].db.users[u].isActive == Replay(states[k].db.audit, u)
  {
    RunKeepsInv(cfg, states, run, k);
    RunGoesForward(cfg, states, run, j, k);
  }

  // ---------------------------------------------------------------- account index

  lemma FindEmailAt(users: seq<UserRow>, u: UserId)
    requires AccountsOk(users) && u < |users|
    ensures FindEmail(users, users[u].email) == Some(u)
  {
  }

  /** Any case or surrounding-space variant of a stored address finds that one account. */
  lemma VariantFindsAccount(
      cfg: Config, states: seq<World>, run: Run, k: nat, u: UserId, pre: string, core: string, post: string)
    requires Lawful(cfg, states, run) && k <= |run|
    requires u < |states[k].db.users| && Lower(core) == states[k].db.users[u].email
    requires AllSpace(pre) && AllSpace(post)
    ensures FindEmail(states[k].db.users, Normalize(pre + core + post)) == Some(u)
  {
    RunKeepsInv(cfg, states, run, k);
    VariantNormalizes(pre, core, post, states[k].db.users[u].email);
    FindEmailAt(states[k].db.users, u);
  }

  /** In every reachable state no two accounts share an address or a handle. */
  lemma NamesAreUnique(cfg: Config, states: seq<World>, run: Run, k: nat, u: UserId, v: UserId)
    requires Lawful(cfg, states, run) && k <= |run|
    requires u < |states[k].db.users| && v < |states[k].db.users| && u != v
    ensures var users := states[k].db.users; users[u].email != users[v].email && users[u].username != users[v].username
  {
    RunKeepsInv(cfg, states, run, k);
  }

  // ---------------------------------------------------------------- all or nothing

  /** The error the caller sees, if any. */
  function ErrorOf(cfg: Config, db: Db, a: Action, t: Time): Option<AppError> {
    match a
    case DoRegister(d, hash, secret, device) => ErrorIn(Register(cfg, db, d, hash, secret, device, t).1)
    case DoLogin(email, password, device, jti) => ErrorIn(Login(cfg, db, email, password, device, jti, t).1)
    case DoRefresh(token, device, jti) => ErrorIn(RefreshSession(cfg, db, token, device, jti, t).1)
    case DoLogout(token, device) => ErrorIn(Logout(db, token, device, t).1)
    case DoRevokeOne(u, session, device) => ErrorIn(RevokeOne(db, u, session, device, t).1)
    case DoRevokeAll(u, spared, device) => ErrorIn(RevokeAll(db, u, spared, device, t).1)
    case DoChangePassword(u, current, next, repeat, hash, device) =>
        ErrorIn(ChangePassword(cfg, db, u, current, next, repeat, hash, device, t).1)
    case DoForgot(email, secret) => ErrorIn(ForgotPassword(cfg, db, email, secret, t).1)
    case DoReset(presented, password, repeat, hash, device) =>
        ErrorIn(ResetPassword(cfg, db, presented, password, repeat, hash, device, t).1)
    case DoVerify(presented, device) => ErrorIn(VerifyEmail(cfg, db, presented, device, t).1)
    case DoUpdate(u, edit, secret) => ErrorIn(UpdateUser(cfg, db, u, edit, secret, t).1)
    case DoBan(actor, u, reason, device) => ErrorIn(Ban(db, actor, u, reason, device, t).1)
    case DoUnban(actor, u, device) => ErrorIn(Unban(db, actor, u, device, t).1)
    case DoDelete(u, device) => ErrorIn(DeleteUser(db, u, device, t).1)
    case DoAssignRole(u, r) => ErrorIn(AssignRole(db, u, r).1)
    case DoRevokeRole(u, r) => ErrorIn(RevokeRole(db, u, r).1)
    case DoGrantPermission(r, p) => ErrorIn(GrantPermission(db, r, p).1)
    case DoRevokePermission(r, p) => ErrorIn(RevokePermission(db, r, p).1)
    case DoDeleteRole(r) => ErrorIn(DeleteRole(db, r).1)
  }

  function ErrorIn<T>(r: Result<T, AppError>): Option<AppError> {
    if r.Failure? then Some(r.error) else None
  }

  /** A business error changes nothing, except that a failed login adds exactly one audit row. */
  lemma ErrorsChangeNothing(cfg: Config, db: Db, a: Action, t: Time)
    requires ErrorOf(cfg, db, a, t).Some?
    ensures var after := After(cfg, db, a, t);
            if a.DoLogin?
            then ErrorOf(cfg, db, a, t) == Some(InvalidCredentials)
                 && after == db.(audit := after.audit) && |after.audit| == |db.audit| + 1 && db.audit <= after.audit
                 && after.audit[|db.audit|].event.LoginFailed?
                 && after.audit[|db.audit|].userId == FindEmail(db.users, Normalize(a.email))
            else after == db
  {
  }
}
