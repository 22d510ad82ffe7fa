/** The number of live sessions is accounted for by the audit log and the single revocations. */
module Conservation {
  import opened Wrappers
  import opened Entities
  import opened Tables
  import opened Transactions
  import opened World
  import opened Invariants
  import opened Preservation

  /** The unrevoked sessions of a user, expired ones included: what a full sign-out would report. */
  function Live(sessions: seq<SessionRow>, u: UserId): nat {
    Stamped(sessions, OfUser(u, None))
  }

  function Logins(audit: seq<AuditRow>, u: UserId): nat {
    if audit == [] then 0
    else
      var n := |audit| - 1;
      Logins(audit[..n], u) + (if audit[n].userId == Some(u) && audit[n].event.LoggedIn? then 1 else 0)
  }

  /** The `sessions_revoked` an event carries. */
  function ReportedBy(event: AuditEvent): nat {
    match event
    case PasswordChanged(n) => n
    case PasswordWasReset(n) => n
    case SessionsRevoked(_, n) => n
    case UserBanned(_, _, n) => n
    case _ => 0
  }

  function Reported(audit: seq<AuditRow>, u: UserId): nat {
    if audit == [] then 0
    else
      var n := |audit| - 1;
      Reported(audit[..n], u) + (if audit[n].userId == Some(u) then ReportedBy(audit[n].event) else 0)
  }

  /** The action is a logout or a single revocation that stamped an unrevoked session of the user. */
  predicate RevokedSingly(db: Db, a: Action, t: Time, u: UserId) {
    match a
    case DoLogout(token, device) =>
      Decode(token, t).Success? && OwnsLive(db.sessions, FindJti(db.sessions, token.claims.jti), u)
    case DoRevokeOne(v, session, device) =>
      v == u && OwnsLive(db.sessions, if session < |db.sessions| then Some(session) else None, u)
    case _ => false
  }

  predicate OwnsLive(sessions: seq<SessionRow>, found: Option<nat>, u: UserId)
    requires found.Some? ==> found.value < |sessions|
  {
    found.Some? && sessions[found.value].userId == u && !sessions[found.value].IsRevoked()
  }

  /** How many of the first `k` actions did that. */
  function SingleRevocations(states: seq<World>, run: Run, k: nat, u: UserId): nat
    requires k <= |run| && |states| == |run| + 1
  {
    if k == 0 then 0
    else
      SingleRevocations(states, run, k - 1, u)
      + (if RevokedSingly(states[k - 1].db, run[k - 1].0, run[k - 1].1, u) then 1 else 0)
  }

  /** Live sessions not explained by the log. */
  function Balance(db: Db, u: UserId): int {
    Live(db.sessions, u) - Logins(db.audit, u) + Reported(db.audit, u)
  }

  // ---------------------------------------------------------------- one statement

  lemma LiveAdded(sessions: seq<SessionRow>, row: SessionRow, u: UserId)
    ensures Live(sessions + [row], u) == Live(sessions, u) + (if row.userId == u && !row.IsRevoked() then 1 else 0)
  {
    assert (sessions + [row])[..|sessions|] == sessions;
  }

  lemma LogAdded(audit: seq<AuditRow>, row: AuditRow, u: UserId)
    ensures Logins(audit + [row], u) ==
        Logins(audit, u) + (if row.userId == Some(u) && row.event.LoggedIn? then 1 else 0)
    ensures Reported(audit + [row], u) ==
        Reported(audit, u) + (if row.userId == Some(u) then ReportedBy(row.event) else 0)
  {
    assert (audit + [row])[..|audit|] == audit;
  }

  /** A bulk revocation removes exactly the rows it reports, all of its own user. */
  lemma {:induction false} BulkStamp(sessions: seq<SessionRow>, v: UserId, spared: Option<string>, t: Time, u: UserId)
    ensures Live(Stamp(sessions, OfUser(v, spared), t), u)
         == Live(sessions, u) - (if u == v then Stamped(sessions, OfUser(v, spared)) else 0)
  {
    if sessions != [] {
      var n := |sessions| - 1;
      BulkStamp(sessions[..n], v, spared, t, u);
      assert Stamp(sessions, OfUser(v, spared), t)[..n] == Stamp(sessions[..n], OfUser(v, spared), t);
    }
  }

  /**
   * What a full sign-out reports is the number of active sessions if and only if no unrevoked
   * session of the user has expired; otherwise it is larger.
   */
  lemma {:induction false} ReportCountsExpired(sessions: seq<SessionRow>, u: UserId, now: Time)
    ensures |ActiveSessions(sessions, u, now)| <= Live(sessions, u)
    ensures |ActiveSessions(sessions, u, now)| == Live(sessions, u) <==>
              forall row :: row in sessions && row.userId == u && !row.IsRevoked() ==> now < row.expiresAt
  {
    if sessions != [] {
      var n := |sessions| - 1;
      ReportCountsExpired(sessions[..n], u, now);
      assert sessions == sessions[..n] + [sessions[n]];
    }
  }

  /** One session that expired and was never revoked: none is active, one is reported. */
  lemma ExpiredIsReported(db: Db, u: UserId, jti: string, device: Device, t: Time)
    requires t > 0 && db.sessions == [SessionRow(u, jti, 0, t, None, device, 0)]
    ensures ActiveSessions(db.sessions, u, t) == []
    ensures RevokeAll(db, u, None, device, t).1 == Success(1)
  {
    assert db.sessions[..0] == [];
    assert Stamped([], OfUser(u, None)) == 0 && Selects(OfUser(u, None), db.sessions[0]);
    assert Stamped(db.sessions, OfUser(u, None)) == 1;
  }

  ghost predicate DistinctJtis(sessions: seq<SessionRow>) {
    forall i, j :: 0 <= i < j < |sessions| ==> sessions[i].jti != sessions[j].jti
  }

  /** Revoking one jti removes one live session, of its owner, if that session was live. */
  lemma {:induction false} SingleStamp(sessions: seq<SessionRow>, jti: string, t: Time, u: UserId)
    requires DistinctJtis(sessions)
    ensures Live(Stamp(sessions, WithJti(jti), t), u)
         == Live(sessions, u) - (if OwnsLive(sessions, FindJti(sessions, jti), u) then 1 else 0)
  {
    if sessions != [] {
      var n := |sessions| - 1;
      SingleStamp(sessions[..n], jti, t, u);
      assert Stamp(sessions, WithJti(jti), t)[..n] == Stamp(sessions[..n], WithJti(jti), t);
      if sessions[n].jti == jti {
        assert FindJti(sessions[..n], jti).None?;
      }
    }
  }

  // ---------------------------------------------------------------- one action

  lemma LoginBalance(
      cfg: Config, db: Db, email: string, password: string, device: Device, jti: string, t: Time, u: UserId)
    ensures Balance(Login(cfg, db, email, password, device, jti, t).0, u) == Balance(db, u)
  {
    var after := Login(cfg, db, email, password, device, jti, t).0;
    LogAdded(db.audit, after.audit[|db.audit|], u);
    if CredentialsHold(cfg, db, email, password) {
      LiveAdded(db.sessions, after.sessions[|db.sessions|], u);
    }
  }

  /** Rotation is neutral: one live session out, one in, both of the token's user. */
  lemma RefreshBalance(cfg: Config, w: World, token: Bearer, device: Device, jti: string, t: Time, u: UserId)
    requires SessionsOk(w.db.users, w.db.sessions) && IssuedOk(w.db.sessions, w.issued) && Genuine(w.issued, token)
    ensures Balance(RefreshSession(cfg, w.db, token, device, jti, t).0, u) == Balance(w.db, u)
  {
    var (after, reply) := RefreshSession(cfg, w.db, token, device, jti, t);
    if reply.Success? {
      var c := token.claims;
      GenuineOwner(w.db.users, w.db.sessions, w.issued, c);
      SingleStamp(w.db.sessions, c.jti, t, u);
      LiveAdded(Stamp(w.db.sessions, WithJti(c.jti), t), after.sessions[|w.db.sessions|], u);
    }
  }

  /** A logout or single revocation that runs stamps one jti and logs quietly. */
  lemma SingleShape(cfg: Config, db: Db, a: Action, t: Time)
    requires a.DoLogout? || a.DoRevokeOne?
    ensures var after := After(cfg, db, a, t);
            if a.DoLogout? && Decode(a.token, t).Failure? then after == db
            else if a.DoRevokeOne? && (a.session >= |db.sessions| || db.sessions[a.session].userId != a.user)
                then after == db
            else
              var jti := if a.DoLogout? then a.token.claims.jti else db.sessions[a.session].jti;
              after.sessions == Stamp(db.sessions, WithJti(jti), t) && LogsQuietly(db.audit, after.audit)
  {
  }

  lemma StampBalance(db: Db, after: Db, jti: string, t: Time, u: UserId)
    requires DistinctJtis(db.sessions)
    requires after.sessions == Stamp(db.sessions, WithJti(jti), t) && LogsQuietly(db.audit, after.audit)
    ensures Balance(after, u) == Balance(db, u) - (if OwnsLive(db.sessions, FindJti(db.sessions, jti), u) then 1 else 0)
  {
    SingleStamp(db.sessions, jti, t, u);
    QuietBalance(db.(sessions := after.sessions), after, u);
  }

  lemma SingleBalance(w: World, a: Action, t: Time, u: UserId, cfg: Config)
    requires SessionsOk(w.db.users, w.db.sessions) && (a.DoLogout? || a.DoRevokeOne?)
    ensures Balance(After(cfg, w.db, a, t), u) == Balance(w.db, u) - (if RevokedSingly(w.db, a, t, u) then 1 else 0)
  {
    var db, after := w.db, After(cfg, w.db, a, t);
    SingleShape(cfg, db, a, t);
    if a.DoLogout? && Decode(a.token, t).Success? {
      StampBalance(db, after, a.token.claims.jti, t, u);
    } else if a.DoRevokeOne? && a.session < |db.sessions| && db.sessions[a.session].userId == a.user {
      StampBalance(db, after, db.sessions[a.session].jti, t, u);
      FindJtiAt(db.users, db.sessions, a.session);
    }
  }

  /** A bulk revocation is reported in the row it is committed with. */
  lemma BulkBalance(db: Db, after: Db, v: UserId, spared: Option<string>, t: Time, u: UserId)
    requires Bulk(db, after, v, spared, t)
    ensures Balance(after, u) == Balance(db, u)
  {
    BulkStamp(db.sessions, v, spared, t, u);
    LogAdded(db.audit, after.audit[|db.audit|], u);
  }

  /** The statement and the row behind a bulk revocation of `v`. */
  predicate Bulk(db: Db, after: Db, v: UserId, spared: Option<string>, t: Time) {
    && after.sessions == Stamp(db.sessions, OfUser(v, spared), t)
    && |after.audit| == |db.audit| + 1 && after.audit == db.audit + [after.audit[|db.audit|]]
    && var row := after.audit[|db.audit|];
       && row.userId == Some(v) && !row.event.LoggedIn?
       && ReportedBy(row.event) == Stamped(db.sessions, OfUser(v, spared))
  }

  lemma RevokeAllIsBulk(cfg: Config, db: Db, a: Action, t: Time)
    requires a.DoRevokeAll?
    ensures Bulk(db, After(cfg, db, a, t), a.user, a.spared, t)
  {
  }

  lemma DeactivationIsBulk(cfg: Config, db: Db, a: Action, t: Time)
    requires a.DoBan? || a.DoDelete?
    ensures var after := After(cfg, db, a, t); after == db || Bulk(db, after, a.user, None, t)
  {
  }

  lemma UnbanLogsQuietly(cfg: Config, db: Db, a: Action, t: Time)
    requires a.DoUnban?
    ensures var after := After(cfg, db, a, t); after.sessions == db.sessions && LogsQuietly(db.audit, after.audit)
  {
  }

  lemma SignOutBalance(cfg: Config, db: Db, a: Action, t: Time, u: UserId)
    requires a.DoRevokeAll? || a.DoBan? || a.DoDelete? || a.DoUnban?
    ensures Balance(After(cfg, db, a, t), u) == Balance(db, u)
  {
    var after := After(cfg, db, a, t);
    if a.DoUnban? {
      UnbanLogsQuietly(cfg, db, a, t);
      QuietBalance(db, after, u);
    } else if a.DoRevokeAll? {
      RevokeAllIsBulk(cfg, db, a, t);
      BulkBalance(db, after, a.user, a.spared, t, u);
    } else {
      DeactivationIsBulk(cfg, db, a, t);
      if after != db {
        BulkBalance(db, after, a.user, None, t, u);
      }
    }
  }

  lemma PasswordBalance(cfg: Config, db: Db, a: Action, t: Time, u: UserId)
    requires EditsPassword(a)
    ensures Balance(After(cfg, db, a, t), u) == Balance(db, u)
  {
    var after := After(cfg, db, a, t);
    if a.DoChangePassword? && after.audit != db.audit {
      BulkBalance(db, after, a.user, None, t, u);
    } else if a.DoReset? && after.audit != db.audit {
      BulkBalance(db, after, after.audit[|db.audit|].userId.value, None, t, u);
    }
  }

  /** The log gained at most one row, and that row neither opens nor reports sessions. */
  predicate LogsQuietly(before: seq<AuditRow>, after: seq<AuditRow>) {
    after == before
    || (|after| == |before| + 1 && after == before + [after[|before|]]
        && !after[|before|].event.LoggedIn? && ReportedBy(after[|before|].event) == 0)
  }

  lemma ProfilesLogQuietly(cfg: Config, db: Db, a: Action, t: Time)
    requires EditsProfile(a)
    ensures LogsQuietly(db.audit, After(cfg, db, a, t).audit)
  {
  }

  lemma QuietBalance(before: Db, after: Db, u: UserId)
    requires after.sessions == before.sessions && LogsQuietly(before.audit, after.audit)
    ensures Balance(after, u) == Balance(before, u)
  {
    if after.audit != before.audit {
      LogAdded(before.audit, after.audit[|before.audit|], u);
    }
  }

  lemma ProfileBalance(cfg: Config, db: Db, a: Action, t: Time, u: UserId)
    requires EditsProfile(a)
    ensures Balance(After(cfg, db, a, t), u) == Balance(db, u)
  {
    ProfilesLeaveSessions(cfg, db, a, t);
    ProfilesLogQuietly(cfg, db, a, t);
    QuietBalance(db, After(cfg, db, a, t), u);
  }

  lemma StepBalance(cfg: Config, w: World, a: Action, t: Time, u: UserId)
    requires Inv(w) && Enabled(cfg, w, a, t)
    ensures Balance(Step(cfg, w, a, t).db, u) == Balance(w.db, u) - (if RevokedSingly(w.db, a, t, u) then 1 else 0)
  {
    if EditsRoles(a) {
      RoleEdits(cfg, w.db, a, t);
    } else if EditsProfile(a) {
      ProfileBalance(cfg, w.db, a, t, u);
    } else if EditsPassword(a) {
      PasswordBalance(cfg, w.db, a, t, u);
    } else if a.DoLogin? {
      LoginBalance(cfg, w.db, a.email, a.password, a.device, a.jti, t, u);
    } else if a.DoRefresh? {
      RefreshBalance(cfg, w, a.token, a.device, a.jti, t, u);
    } else if a.DoLogout? || a.DoRevokeOne? {
      SingleBalance(w, a, t, u, cfg);
    } else {
      SignOutBalance(cfg, w.db, a, t, u);
    }
  }

  // ---------------------------------------------------------------- every run

  lemma BalanceCarries(cfg: Config, states: seq<World>, run: Run, i: nat, u: UserId)
    requires Behaves(cfg, states, run) && i < |run| && Inv(states[i])
    ensures var spent := if RevokedSingly(states[i].db, run[i].0, run[i].1, u) then 1 else 0;
            Balance(states[i + 1].db, u) == Balance(states[i].db, u) - spent
  {
    StepBalance(cfg, states[i], run[i].0, run[i].1, u);
  }

  lemma {:induction false} RunBalance(cfg: Config, states: seq<World>, run: Run, k: nat, u: UserId)
    requires Lawful(cfg, states, run) && k <= |run|
    ensures Balance(states[k].db, u) == Balance(states[0].db, u) - SingleRevocations(states, run, k, u)
    decreases k
  {
    if k > 0 {
      RunBalance(cfg, states, run, k - 1, u);
      RunKeepsInv(cfg, states, run, k - 1);
      BalanceCarries(cfg, states, run, k - 1, u);
    }
  }

  /**
   * From a start without sessions or history, for every user and every run: the unrevoked sessions
   * are the audited logins, less the audited `sessions_revoked`, less the single revocations that
   * took effect. Refreshes do not appear: they are neutral.
   */
  lemma SessionConservation(cfg: Config, states: seq<World>, run: Run, k: nat, u: UserId)
    requires Lawful(cfg, states, run) && k <= |run|
    requires states[0].db.sessions == [] && states[0].db.audit == []
    ensures var db := states[k].db;
            Live(db.sessions, u) == Logins(db.audit, u) - Reported(db.audit, u) - SingleRevocations(states, run, k, u)
  {
    RunBalance(cfg, states, run, k, u);
  }
}
