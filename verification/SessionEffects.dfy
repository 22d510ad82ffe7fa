/** What sign-in, refresh and sign-out do: the tokens handed out, how long they work, the rows stamped. */
module SessionEffects {
  import opened Wrappers
  import opened Entities
  import opened Tables
  import opened Transactions
  import opened Text
  import opened World
  import opened Invariants
  import opened Preservation
  import opened Frames
  import opened Theorems

  // ---------------------------------------------------------------- tokens handed out

  /** A token of this kind for this session, running out `minutes` after `t`, in whole seconds. */
  predicate TokenIs(token: IssuedToken, u: UserId, jti: string, kind: TokenKind, minutes: nat, t: Time) {
    && token.claims.sub == u && token.claims.jti == jti && token.claims.kind == kind
    && token.claims.exp == (t + minutes * 60 * 1_000_000) / 1_000_000
    && token.expiresAt == t + minutes * 60 * 1_000_000
  }

  /** The reply's two tokens, each in its place, and its account. */
  predicate HandsOut(cfg: Config, g: Grant, db: Db, u: UserId, jti: string, t: Time) {
    && TokenIs(g.access, u, jti, Access, cfg.accessMinutes, t)
    && TokenIs(g.refresh, u, jti, Refresh, cfg.refreshMinutes, t)
    && LoadUser(db, u) == Some(g.user)
  }

  /** A new unrevoked session that lives as long as its refresh token. */
  predicate Opened(cfg: Config, row: SessionRow, u: UserId, jti: string, createdAt: Time, t: Time) {
    && row.userId == u && row.jti == jti && row.createdAt == createdAt && row.lastSeenAt == t
    && row.revokedAt == None && row.expiresAt == t + cfg.refreshMinutes * 60 * 1_000_000
  }

  /** A successful login hands out two tokens for the account of that address and opens their session. */
  lemma LoginHandsOut(cfg: Config, db: Db, email: string, password: string, device: Device, jti: string, t: Time)
    returns (u: UserId)
    requires Login(cfg, db, email, password, device, jti, t).1.Success?
    ensures u < |db.users| && db.users[u].email == Normalize(email) && db.users[u].isActive
    ensures cfg.passwordMatches(password, db.users[u].passwordHash)
    ensures var (after, reply) := Login(cfg, db, email, password, device, jti, t);
            && HandsOut(cfg, reply.value, db, u, jti, t)
            && |after.sessions| == |db.sessions| + 1 && after.sessions[..|db.sessions|] == db.sessions
            && (var row := after.sessions[|db.sessions|]; Opened(cfg, row, u, jti, t, t) && row.device == device)
            && after.users == db.users && after.tokens == db.tokens && SameRoleTables(db, after)
            && Logged(db, after, LoggedIn(device.visitorId), Some(u), device, t)
  {
    u := FindEmail(db.users, Normalize(email)).value;
  }

  /** A refused login changes nothing but one log row, which tells why. */
  lemma LoginRefused(cfg: Config, db: Db, email: string, password: string, device: Device, jti: string, t: Time)
    requires AccountsOk(db.users) && Login(cfg, db, email, password, device, jti, t).1.Failure?
    ensures var (after, reply) := Login(cfg, db, email, password, device, jti, t);
            && reply == Failure(InvalidCredentials) && after == db.(audit := after.audit)
            && (forall u :: 0 <= u < |db.users| && db.users[u].email == Normalize(email) ==>
                  && (db.users[u].isActive ==> !cfg.passwordMatches(password, db.users[u].passwordHash))
                  && var reason := if db.users[u].isActive then BadPassword else Inactive;
                     Logged(db, after, LoginFailed(Normalize(email), reason), Some(u), device, t))
            && ((forall row :: row in db.users ==> row.email != Normalize(email)) ==>
                  Logged(db, after, LoginFailed(Normalize(email), UnknownAccount), None, device, t))
  {
    forall u | 0 <= u < |db.users| && db.users[u].email == Normalize(email)
      ensures FindEmail(db.users, Normalize(email)) == Some(u)
    {
      FindEmailAt(db.users, u);
    }
  }

  /** The request knows the field: it is there and not empty. */
  predicate Knows(field: Option<string>) {
    field.Some? && field.value != ""
  }

  /** Each device field is the request's if it knows it, else that of the session replaced. */
  predicate Inherited(heir: Device, request: Device, previous: Device) {
    && heir.visitorId == (if Knows(request.visitorId) then request.visitorId else previous.visitorId)
    && heir.userAgent == (if Knows(request.userAgent) then request.userAgent else previous.userAgent)
    && heir.ipAddress == (if Knows(request.ipAddress) then request.ipAddress else previous.ipAddress)
    && heir.deviceName == (if Knows(request.deviceName) then request.deviceName else previous.deviceName)
  }

  /**
   * A successful refresh ends the presented session and hands out two tokens for the session
   * that replaces it, which keeps the start and the unknown device fields of the old one.
   */
  lemma RefreshHandsOver(cfg: Config, db: Db, token: Bearer, device: Device, jti: string, t: Time) returns (i: nat)
    requires RefreshSession(cfg, db, token, device, jti, t).1.Success?
    ensures token.Signed? && token.claims.kind == Refresh && t < token.claims.exp * 1_000_000
    ensures i < |db.sessions| && db.sessions[i].jti == token.claims.jti
    ensures db.sessions[i].revokedAt == None && t < db.sessions[i].expiresAt
    ensures var u, (after, reply) := token.claims.sub, RefreshSession(cfg, db, token, device, jti, t);
            && u < |db.users| && db.users[u].isActive && HandsOut(cfg, reply.value, db, u, jti, t)
            && Ended(db.sessions, after.sessions, token.claims.jti, t) && |after.sessions| == |db.sessions| + 1
            && (var heir := after.sessions[|db.sessions|];
                && Opened(cfg, heir, u, jti, db.sessions[i].createdAt, t)
                && Inherited(heir.device, device, db.sessions[i].device))
            && after == db.(sessions := after.sessions)
  {
    i := FindJti(db.sessions, token.claims.jti).value;
  }

  /** A stored session of this jti is unrevoked and unexpired. */
  ghost predicate SessionLives(sessions: seq<SessionRow>, jti: string, now: Time) {
    exists i :: 0 <= i < |sessions| && sessions[i].jti == jti && sessions[i].revokedAt == None &&
        now < sessions[i].expiresAt
  }

  /**
   * An access token authenticates if and only if it is unexpired, its session lives and its user is
   * active; the reply is that user.
   */
  lemma AuthenticateAnswers(db: Db, token: Bearer, now: Time)
    requires SessionsOk(db.users, db.sessions)
    ensures var reply := Authenticate(db, token, now);
            && (reply.Success? <==>
                  && token.Signed? && token.claims.kind == Access && now < token.claims.exp * 1_000_000
                  && SessionLives(db.sessions, token.claims.jti, now)
                  && token.claims.sub < |db.users| && db.users[token.claims.sub].isActive)
            && (reply.Success? ==> LoadUser(db, token.claims.sub) == Some(reply.value))
            && (reply.Failure? ==> reply.error == AuthenticationError)
  {
    if token.Signed? {
      forall i: nat | i < |db.sessions| && db.sessions[i].jti == token.claims.jti
        ensures FindJti(db.sessions, token.claims.jti) == Some(i)
      {
        FindJtiAt(db.users, db.sessions, i);
      }
    }
  }

  // ---------------------------------------------------------------- how long they work

  lemma GrantIsHandsOut(cfg: Config, w: World, a: Action, t: Time, g: Grant) returns (u: UserId)
    requires Grants(cfg, w.db, a, t) == Some(g)
    ensures a.DoLogin? || a.DoRefresh?
    ensures HandsOut(cfg, g, w.db, u, a.jti, t)
    ensures var rows := Step(cfg, w, a, t).db.sessions;
            rows != [] && Opened(cfg, rows[|rows| - 1], u, a.jti, rows[|rows| - 1].createdAt, t)
    ensures g.access.claims in Step(cfg, w, a, t).issued && g.refresh.claims in Step(cfg, w, a, t).issued
  {
    if a.DoLogin? {
      u := LoginHandsOut(cfg, w.db, a.email, a.password, a.device, a.jti, t);
    } else {
      var i := RefreshHandsOver(cfg, w.db, a.token, a.device, a.jti, t);
      u := a.token.claims.sub;
    }
  }

  /** The stored session of the tokens action `i` handed out, as later states see it. */
  predicate SessionKept(cfg: Config, rows: seq<SessionRow>, s: nat, g: Grant, jti: string, t: Time) {
    s < |rows| && rows[s].jti == jti && rows[s].userId == g.access.claims.sub
    && rows[s].expiresAt == t + cfg.refreshMinutes * 60 * 1_000_000
  }

  /** What holds of a grant in the state right after it. */
  lemma GrantAt(cfg: Config, states: seq<World>, run: Run, i: nat, g: Grant) returns (s: nat)
    requires Behaves(cfg, states, run) && i < |run| && Grants(cfg, states[i].db, run[i].0, run[i].1) == Some(g)
    ensures run[i].0.DoLogin? || run[i].0.DoRefresh?
    ensures HandsOut(cfg, g, states[i].db, g.access.claims.sub, run[i].0.jti, run[i].1)
    ensures g.access.claims in states[i + 1].issued && g.refresh.claims in states[i + 1].issued
    ensures SessionKept(cfg, states[i + 1].db.sessions, s, g, run[i].0.jti, run[i].1)
    ensures !states[i + 1].db.sessions[s].IsRevoked()
  {
    var u := GrantIsHandsOut(cfg, states[i], run[i].0, run[i].1, g);
    s := |states[i + 1].db.sessions| - 1;
  }

  lemma LaterKeepsGrant(cfg: Config, w: World, v: World, s: nat, g: Grant, jti: string, t: Time)
    requires Later(w, v) && SessionKept(cfg, w.db.sessions, s, g, jti, t)
    requires g.access.claims in w.issued && g.refresh.claims in w.issued
    ensures SessionKept(cfg, v.db.sessions, s, g, jti, t)
    ensures g.access.claims in v.issued && g.refresh.claims in v.issued
  {
  }

  /** The instant a lifetime of some minutes from `t` ends, in whole seconds. */
  function EndOf(minutes: nat, t: Time): Time {
    ((t + minutes * 60 * 1_000_000) / 1_000_000) * 1_000_000
  }

  /**
   * The access token authenticates its user if and only if the session is unrevoked and neither the
   * access lifetime nor the session has run out; the refresh token refreshes if and only if the
   * session is unrevoked and the refresh lifetime has not run out.
   */
  ghost predicate WorkExactly(cfg: Config, db: Db, g: Grant, t: Time, s: nat)
    requires s < |db.sessions|
  {
    && g.access.claims.sub == db.sessions[s].userId && g.access.claims.sub < |db.users|
    && (forall now: Time :: AccessExactly(cfg, db, g, t, s, now))
    && (forall device, next, now: Time :: RefreshExactly(cfg, db, g, t, s, device, next, now))
  }

  predicate AccessExactly(cfg: Config, db: Db, g: Grant, t: Time, s: nat, now: Time)
    requires s < |db.sessions| && g.access.claims.sub < |db.users|
  {
    Authenticate(db, Signed(g.access.claims), now) ==
      if db.sessions[s].revokedAt == None
         && now < EndOf(cfg.accessMinutes, t) && now < t + cfg.refreshMinutes * 60 * 1_000_000
      then Success(LoadUser(db, g.access.claims.sub).value) else Failure(AuthenticationError)
  }

  predicate RefreshExactly(
      cfg: Config, db: Db, g: Grant, t: Time, s: nat, device: Device, next: string, now: Time)
    requires s < |db.sessions|
  {
    RefreshSession(cfg, db, Signed(g.refresh.claims), device, next, now).1.Success? <==>
      db.sessions[s].revokedAt == None && now < EndOf(cfg.refreshMinutes, t)
  }

  lemma AccessAnswers(cfg: Config, v: World, g: Grant, jti: string, t: Time, s: nat, now: Time)
    requires SessionsOk(v.db.users, v.db.sessions) && SessionKept(cfg, v.db.sessions, s, g, jti, t)
    requires TokenIs(g.access, g.access.claims.sub, jti, Access, cfg.accessMinutes, t)
    ensures g.access.claims.sub < |v.db.users| && AccessExactly(cfg, v.db, g, t, s, now)
  {
    FindJtiAt(v.db.users, v.db.sessions, s);
    assert v.db.sessions[s].userId < |v.db.users|;
    assert g.access.claims.exp * SECOND == EndOf(cfg.accessMinutes, t);
  }

  lemma RefreshAnswers(
      cfg: Config, v: World, g: Grant, jti: string, t: Time, s: nat, device: Device, next: string, now: Time)
    requires SessionsOk(v.db.users, v.db.sessions) && SessionKept(cfg, v.db.sessions, s, g, jti, t)
    requires TokenIs(g.refresh, g.access.claims.sub, jti, Refresh, cfg.refreshMinutes, t)
    ensures RefreshExactly(cfg, v.db, g, t, s, device, next, now)
  {
    FindJtiAt(v.db.users, v.db.sessions, s);
    assert v.db.sessions[s].userId < |v.db.users|;
    assert g.refresh.claims.exp * SECOND == EndOf(cfg.refreshMinutes, t) <= v.db.sessions[s].expiresAt;
  }

  lemma TokensAnswer(cfg: Config, v: World, g: Grant, jti: string, t: Time, s: nat)
    requires SessionsOk(v.db.users, v.db.sessions) && SessionKept(cfg, v.db.sessions, s, g, jti, t)
    requires TokenIs(g.access, g.access.claims.sub, jti, Access, cfg.accessMinutes, t)
    requires TokenIs(g.refresh, g.access.claims.sub, jti, Refresh, cfg.refreshMinutes, t)
    ensures WorkExactly(cfg, v.db, g, t, s)
  {
    AccessAnswers(cfg, v, g, jti, t, s, 0);
    forall now: Time ensures AccessExactly(cfg, v.db, g, t, s, now) {
      AccessAnswers(cfg, v, g, jti, t, s, now);
    }
    forall device, next, now: Time ensures RefreshExactly(cfg, v.db, g, t, s, device, next, now) {
      RefreshAnswers(cfg, v, g, jti, t, s, device, next, now);
    }
  }

  lemma GrantSurvives(cfg: Config, states: seq<World>, run: Run, i: nat, j: nat, g: Grant, s: nat, jti: string, t: Time)
    requires Lawful(cfg, states, run) && i <= j <= |run|
    requires SessionKept(cfg, states[i].db.sessions, s, g, jti, t)
    requires g.access.claims in states[i].issued && g.refresh.claims in states[i].issued
    requires TokenIs(g.access, g.access.claims.sub, jti, Access, cfg.accessMinutes, t)
    requires TokenIs(g.refresh, g.access.claims.sub, jti, Refresh, cfg.refreshMinutes, t)
    ensures s < |states[j].db.sessions| && states[j].db.sessions[s].jti == jti
    ensures WorkExactly(cfg, states[j].db, g, t, s)
  {
    RunGoesForward(cfg, states, run, i, j);
    LaterKeepsGrant(cfg, states[i], states[j], s, g, jti, t);
    RunKeepsInv(cfg, states, run, j);
    TokensAnswer(cfg, states[j], g, jti, t, s);
  }

  /**
   * What a login or refresh hands out works in every later state of every run, each token for its
   * own purpose and exactly as long as its lifetime and its session allow; right away the session
   * is unrevoked.
   */
  lemma GrantedTokensWork(cfg: Config, states: seq<World>, run: Run, i: nat, j: nat, g: Grant) returns (s: nat)
    requires Lawful(cfg, states, run) && i < j <= |run| && Grants(cfg, states[i].db, run[i].0, run[i].1) == Some(g)
    ensures run[i].0.DoLogin? || run[i].0.DoRefresh?
    ensures s < |states[j].db.sessions| && states[j].db.sessions[s].jti == run[i].0.jti
    ensures j == i + 1 ==> states[j].db.sessions[s].revokedAt == None
    ensures WorkExactly(cfg, states[j].db, g, run[i].1, s)
  {
    s := GrantAt(cfg, states, run, i, g);
    GrantSurvives(cfg, states, run, i + 1, j, g, s, run[i].0.jti, run[i].1);
  }

  // ---------------------------------------------------------------- sign-out

  /** Logging out always succeeds; with a token that decodes it ends that session and says so in the log. */
  lemma LogoutEnds(db: Db, token: Bearer, device: Device, t: Time)
    ensures var (after, reply) := Logout(db, token, device, t);
            && reply == Success(())
            && if token.Signed? && t < token.claims.exp * 1_000_000 then
                 && Ended(db.sessions, after.sessions, token.claims.jti, t) && |after.sessions| == |db.sessions|
                 && after == db.(sessions := after.sessions, audit := after.audit)
                 && Logged(db, after, LoggedOut, Some(token.claims.sub), device, t)
               else after == db
  {
  }

  /** A user ends one session of its own; any other is not found. */
  lemma RevokeOneEnds(db: Db, u: UserId, session: nat, device: Device, t: Time)
    ensures var (after, reply) := RevokeOne(db, u, session, device, t);
            if session < |db.sessions| && db.sessions[session].userId == u then
              && reply == Success(())
              && Ended(db.sessions, after.sessions, db.sessions[session].jti, t)
              && |after.sessions| == |db.sessions| && after.sessions[session].IsRevoked()
              && after == db.(sessions := after.sessions, audit := after.audit)
              && Logged(db, after, SessionRevoked(session), Some(u), device, t)
            else reply == Failure(SessionNotFound) && after == db
  {
  }

  /** The positions of the sessions a sign-out ends. */
  function Unrevoked(sessions: seq<SessionRow>, u: UserId, spared: Option<string>): set<nat> {
    set i: nat | i < |sessions| && sessions[i].userId == u && sessions[i].revokedAt == None &&
        spared != Some(sessions[i].jti)
  }

  lemma OneMoreRow(sessions: seq<SessionRow>, row: SessionRow, u: UserId, spared: Option<string>)
    ensures var hit := row.userId == u && row.revokedAt == None && spared != Some(row.jti);
            Unrevoked(sessions + [row], u, spared)
              == Unrevoked(sessions, u, spared) + (if hit then {|sessions|} else {})
  {
    var all := sessions + [row];
    forall i: nat | i < |sessions| ensures all[i] == sessions[i] {
    }
  }

  /** The reported row count is the number of these positions. */
  lemma {:induction false} CountIsExact(sessions: seq<SessionRow>, u: UserId, spared: Option<string>)
    ensures Stamped(sessions, OfUser(u, spared)) == |Unrevoked(sessions, u, spared)|
  {
    if sessions == [] {
      assert Unrevoked(sessions, u, spared) == {};
    } else {
      var n := |sessions| - 1;
      CountIsExact(sessions[..n], u, spared);
      OneMoreRow(sessions[..n], sessions[n], u, spared);
      assert sessions == sessions[..n] + [sessions[n]];
    }
  }

  /** Revoke-all ends exactly the user's unrevoked sessions but the spared one, and reports and logs how many. */
  lemma RevokeAllEnds(db: Db, u: UserId, spared: Option<string>, device: Device, t: Time)
    ensures var (after, reply) := RevokeAll(db, u, spared, device, t);
            var n := |Unrevoked(db.sessions, u, spared)|;
            && reply == Success(n) && SignedOut(db.sessions, after.sessions, u, spared, t)
            && after == db.(sessions := after.sessions, audit := after.audit)
            && Logged(db, after, SessionsRevoked(if spared.None? then All else Others, n), Some(u), device, t)
  {
    CountIsExact(db.sessions, u, spared);
  }

  // ---------------------------------------------------------------- the device list

  /** The device list is in strictly descending order of ids, so newest first and without repetition. */
  lemma {:induction false} ListedNewestFirst(sessions: seq<SessionRow>, u: UserId, now: Time, a: nat, b: nat)
    returns (i: nat, j: nat)
    requires a < b < |ActiveSessions(sessions, u, now)|
    ensures j < i < |sessions|
    ensures ActiveSessions(sessions, u, now)[a] == sessions[i] && ActiveSessions(sessions, u, now)[b] == sessions[j]
    decreases |sessions|
  {
    var n := |sessions| - 1;
    var older := ActiveSessions(sessions[..n], u, now);
    if sessions[n].userId != u || !sessions[n].IsValid(now) {
      assert ActiveSessions(sessions, u, now) == older;
      i, j := ListedNewestFirst(sessions[..n], u, now, a, b);
    } else if a == 0 {
      i := n;
      assert ActiveSessions(sessions, u, now)[b] == older[b - 1];
      j := ListedAt(sessions[..n], u, now, b - 1);
    } else {
      i, j := ListedNewestFirst(sessions[..n], u, now, a - 1, b - 1);
    }
  }

  lemma {:induction false} ListedAt(sessions: seq<SessionRow>, u: UserId, now: Time, a: nat) returns (i: nat)
    requires a < |ActiveSessions(sessions, u, now)|
    ensures i < |sessions| && ActiveSessions(sessions, u, now)[a] == sessions[i]
    decreases |sessions|
  {
    ListedExactly(sessions, u, now, ActiveSessions(sessions, u, now)[a]);
    i :| 0 <= i < |sessions| && ActiveSessions(sessions, u, now)[a] == sessions[i];
  }
}
