/**
 * The service as a state machine: one action is one use case run as a serial transaction.
 *
 * Beside the database the state remembers what the outside world holds: every token issued, which
 * login each session descends from, and the address each one-time secret was mailed to.
 */
module World {
  import opened Wrappers
  import opened Entities
  import opened Tables
  import opened Transactions
  import opened Text

  datatype Action =
    | DoRegister(registration: Registration, passwordHash: string, secret: string, device: Device)
    | DoLogin(email: string, password: string, device: Device, jti: string)
    | DoRefresh(token: Bearer, device: Device, jti: string)
    | DoLogout(token: Bearer, device: Device)
    | DoRevokeOne(user: UserId, session: nat, device: Device)
    | DoRevokeAll(user: UserId, spared: Option<string>, device: Device)
    | DoChangePassword(user: UserId, current: string, next: string, repeat: string, passwordHash: string,
        device: Device)
    | DoForgot(email: string, secret: string)
    | DoReset(presented: string, password: string, repeat: string, passwordHash: string, device: Device)
    | DoVerify(presented: string, device: Device)
    | DoUpdate(user: UserId, edit: ProfileEdit, secret: string)
    | DoBan(actor: UserId, user: UserId, reason: Option<string>, device: Device)
    | DoUnban(actor: UserId, user: UserId, device: Device)
    | DoDelete(user: UserId, device: Device)
    | DoAssignRole(user: UserId, role: RoleId)
    | DoRevokeRole(user: UserId, role: RoleId)
    | DoGrantPermission(role: RoleId, permission: PermissionId)
    | DoRevokePermission(role: RoleId, permission: PermissionId)
    | DoDeleteRole(role: RoleId)

  /** `seeded` counts the accounts that were there before the first action. */
  datatype World = World(
    db: Db, now: Time, issued: set<Claims>, root: map<string, string>, addressed: map<string, string>, seeded: nat)

  /** The committed database after the action. */
  function After(cfg: Config, db: Db, a: Action, t: Time): Db {
    match a
    case DoRegister(d, hash, secret, device) => Register(cfg, db, d, hash, secret, device, t).0
    case DoLogin(email, password, device, jti) => Login(cfg, db, email, password, device, jti, t).0
    case DoRefresh(token, device, jti) => RefreshSession(cfg, db, token, device, jti, t).0
    case DoLogout(token, device) => Logout(db, token, device, t).0
    case DoRevokeOne(u, session, device) => RevokeOne(db, u, session, device, t).0
    case DoRevokeAll(u, spared, device) => RevokeAll(db, u, spared, device, t).0
    case DoChangePassword(u, current, next, repeat, hash, device) =>
        ChangePassword(cfg, db, u, current, next, repeat, hash, device, t).0
    case DoForgot(email, secret) => ForgotPassword(cfg, db, email, secret, t).0
    case DoReset(presented, password, repeat, hash, device) =>
        ResetPassword(cfg, db, presented, password, repeat, hash, device, t).0
    case DoVerify(presented, device) => VerifyEmail(cfg, db, presented, device, t).0
    case DoUpdate(u, edit, secret) => UpdateUser(cfg, db, u, edit, secret, t).0
    case DoBan(actor, u, reason, device) => Ban(db, actor, u, reason, device, t).0
    case DoUnban(actor, u, device) => Unban(db, actor, u, device, t).0
    case DoDelete(u, device) => DeleteUser(db, u, device, t).0
    case DoAssignRole(u, r) => AssignRole(db, u, r).0
    case DoRevokeRole(u, r) => RevokeRole(db, u, r).0
    case DoGrantPermission(r, p) => GrantPermission(db, r, p).0
    case DoRevokePermission(r, p) => RevokePermission(db, r, p).0
    case DoDeleteRole(r) => DeleteRole(db, r).0
  }

  /** The tokens handed out by the action. */
  function Grants(cfg: Config, db: Db, a: Action, t: Time): Option<Grant> {
    var reply := match a
      case DoLogin(email, password, device, jti) => Login(cfg, db, email, password, device, jti, t).1
      case DoRefresh(token, device, jti) => RefreshSession(cfg, db, token, device, jti, t).1
      case _ => Failure(AuthenticationError);
    if reply.Success? then Some(reply.value) else None
  }

  /** The address the action mails its one-time secret to, if it stores one. */
  function MailedTo(cfg: Config, db: Db, a: Action, t: Time): Option<string> {
    match a
    case DoRegister(d, hash, secret, device) =>
      if Register(cfg, db, d, hash, secret, device, t).1.Success? then Some(Normalize(d.email)) else None
    case DoForgot(email, secret) =>
      if KnownActive(db, Normalize(email)) then Some(Normalize(email)) else None
    case DoUpdate(u, edit, secret) =>
      var reply := UpdateUser(cfg, db, u, edit, secret, t).1;
      if reply.Success? && !reply.value.row.IsEmailVerified() then Some(reply.value.row.email) else None
    case _ => None
  }

  function Step(cfg: Config, w: World, a: Action, t: Time): World {
    var grant := Grants(cfg, w.db, a, t);
    var to := MailedTo(cfg, w.db, a, t);
    World(
      After(cfg, w.db, a, t),
      t,
      if grant.Some? then w.issued + {grant.value.access.claims, grant.value.refresh.claims} else w.issued,
      if grant.Some? then w.root[a.jti := Ancestor(w.root, a)] else w.root,
      if to.Some? then w.addressed[cfg.secretHash(a.secret) := to.value] else w.addressed,
      w.seeded)
  }

  /** A login starts a chain; a refresh continues the chain of the session it replaces. */
  function Ancestor(root: map<string, string>, a: Action): string
    requires a.DoLogin? || a.DoRefresh?
  {
    if a.DoRefresh? && a.token.Signed? && a.token.claims.jti in root then root[a.token.claims.jti] else a.jti
  }

  predicate Genuine(issued: set<Claims>, token: Bearer) {
    token.Signed? ==> token.claims in issued
  }

  /**
   * The clock does not go back, fresh identifiers and secrets are fresh, and a well-signed token
   * is one the service issued.
   */
  predicate Enabled(cfg: Config, w: World, a: Action, t: Time) {
    && w.now <= t
    && (a.DoLogin? || a.DoRefresh? ==> FindJti(w.db.sessions, a.jti).None?)
    && (a.DoRefresh? || a.DoLogout? ==> Genuine(w.issued, a.token))
    && (a.DoRegister? || a.DoForgot? || a.DoUpdate? ==>
          forall row :: row in w.db.tokens ==> row.tokenHash != cfg.secretHash(a.secret))
  }

  // ---------------------------------------------------------------- runs

  type Run = seq<(Action, Time)>

  /** The run passes through these states: `states[i]` is the state before action `i`. */
  predicate Behaves(cfg: Config, states: seq<World>, run: Run) {
    && |states| == |run| + 1
    && forall i {:trigger run[i]} :: 0 <= i < |run| ==>
         Enabled(cfg, states[i], run[i].0, run[i].1) && states[i + 1] == Step(cfg, states[i], run[i].0, run[i].1)
  }

  /** From any state any enabled action carries a run on. */
  lemma RunGoesOn(cfg: Config, states: seq<World>, run: Run, a: Action, t: Time)
    requires Behaves(cfg, states, run) && Enabled(cfg, states[|run|], a, t)
    ensures Behaves(cfg, states + [Step(cfg, states[|run|], a, t)], run + [(a, t)])
  {
    var states', run' := states + [Step(cfg, states[|run|], a, t)], run + [(a, t)];
    forall i | 0 <= i < |run'|
      ensures Enabled(cfg, states'[i], run'[i].0, run'[i].1) &&
          states'[i + 1] == Step(cfg, states'[i], run'[i].0, run'[i].1)
    {
      if i < |run| {
        assert run'[i] == run[i];
      }
    }
  }
}

/** The invariant of the service, table by table. */
module Invariants {
  import opened Wrappers
  import opened Entities
  import opened Tables
  import opened Transactions
  import opened Text
  import opened World

  // ---------------------------------------------------------------- accounts

  /** Addresses are normal and distinct, handles are stripped and distinct. */
  ghost predicate AccountsOk(users: seq<UserRow>) {
    && (forall i ::
        0 <= i < |users| ==>
        Normalize(users[i].email) == users[i].email && Strip(users[i].username) == users[i].username)
    && (forall i, j ::
        0 <= i < j < |users| ==> users[i].email != users[j].email && users[i].username != users[j].username)
  }

  // ---------------------------------------------------------------- sessions

  /** jtis are distinct, owners exist, and only an active account has an unrevoked session. */
  ghost predicate SessionsOk(users: seq<UserRow>, sessions: seq<SessionRow>) {
    && (forall i :: 0 <= i < |sessions| ==> sessions[i].userId < |users|)
    && (forall i, j :: 0 <= i < j < |sessions| ==> sessions[i].jti != sessions[j].jti)
    && (forall i :: 0 <= i < |sessions| && !sessions[i].IsRevoked() ==> users[sessions[i].userId].isActive)
  }

  predicate Backs(row: SessionRow, c: Claims) {
    && row.jti == c.jti && row.userId == c.sub
    && (c.kind == Refresh ==> c.exp == row.expiresAt / SECOND)
  }

  /** Every issued token points at a stored session of its own user. */
  ghost predicate IssuedOk(sessions: seq<SessionRow>, issued: set<Claims>) {
    forall c :: c in issued ==> exists i :: 0 <= i < |sessions| && Backs(sessions[i], c)
  }

  /** Rows i and j descend from the same login. */
  predicate Kin(sessions: seq<SessionRow>, root: map<string, string>, i: nat, j: nat)
    requires i < |sessions| && j < |sessions|
  {
    sessions[i].jti in root && sessions[j].jti in root && root[sessions[i].jti] == root[sessions[j].jti]
  }

  function Jtis(sessions: seq<SessionRow>): set<string> {
    set i | 0 <= i < |sessions| :: sessions[i].jti
  }

  /** Exactly the stored sessions have a root, and roots are sessions. */
  ghost predicate RootsOk(sessions: seq<SessionRow>, root: map<string, string>) {
    root.Keys == Jtis(sessions) && root.Values <= root.Keys
  }

  /** Within one chain every session but the newest is revoked, and owner and start are shared. */
  ghost predicate HeirsOk(sessions: seq<SessionRow>, root: map<string, string>) {
    forall i, j :: 0 <= i < j < |sessions| && Kin(sessions, root, i, j) ==>
      sessions[i].IsRevoked() && sessions[i].userId == sessions[j].userId &&
          sessions[i].createdAt == sessions[j].createdAt
  }

  // ---------------------------------------------------------------- one-time tokens

  /**
   * Hashes are distinct; of one user and purpose only the newest token can be unspent; an unspent
   * verification link was mailed to its user's present address, which is not verified yet.
   */
  ghost predicate TokensOk(users: seq<UserRow>, tokens: seq<TokenRow>, addressed: map<string, string>) {
    && (forall i :: 0 <= i < |tokens| ==> tokens[i].userId < |users| && tokens[i].tokenHash in addressed)
    && (forall i, j :: 0 <= i < j < |tokens| ==> tokens[i].tokenHash != tokens[j].tokenHash)
    && (forall i, j ::
          0 <= i < j < |tokens| && tokens[i].userId == tokens[j].userId && tokens[i].purpose == tokens[j].purpose ==>
            tokens[i].IsUsed())
    && (forall i :: 0 <= i < |tokens| && tokens[i].purpose == EmailVerification && !tokens[i].IsUsed() ==>
          addressed[tokens[i].tokenHash] == users[tokens[i].userId].email && !users[tokens[i].userId].IsEmailVerified())
  }

  /** A spent verification link of the user that was mailed to the address. */
  predicate Proves(row: TokenRow, addressed: map<string, string>, u: UserId, email: string) {
    && row.userId == u && row.purpose == EmailVerification && row.IsUsed()
    && row.tokenHash in addressed && addressed[row.tokenHash] == email
  }

  /** Every verified account that was not seeded has such a link for its present address. */
  ghost predicate ProvenanceOk(
      users: seq<UserRow>, tokens: seq<TokenRow>, addressed: map<string, string>, seeded: nat)
  {
    seeded <= |users| &&
    forall u :: seeded <= u < |users| && users[u].IsEmailVerified() ==>
      exists i :: 0 <= i < |tokens| && Proves(tokens[i], addressed, u, users[u].email)
  }

  // ---------------------------------------------------------------- audit log

  /** The account state according to the log: a ban deactivates, an unban reactivates. */
  function Replay(audit: seq<AuditRow>, u: UserId): bool {
    if audit == [] then true
    else
      var n := |audit| - 1;
      if audit[n].userId == Some(u) && audit[n].event.UserBanned? then false
      else if audit[n].userId == Some(u) && audit[n].event.UserUnbanned? then true
      else Replay(audit[..n], u)
  }

  ghost predicate AuditOk(users: seq<UserRow>, audit: seq<AuditRow>) {
    forall u: UserId :: Replay(audit, u) == (u < |users| ==> users[u].isActive)
  }

  // ---------------------------------------------------------------- all together

  ghost predicate Inv(w: World) {
    && AccountsOk(w.db.users)
    && SessionsOk(w.db.users, w.db.sessions)
    && IssuedOk(w.db.sessions, w.issued)
    && RootsOk(w.db.sessions, w.root)
    && HeirsOk(w.db.sessions, w.root)
    && TokensOk(w.db.users, w.db.tokens, w.addressed)
    && ProvenanceOk(w.db.users, w.db.tokens, w.addressed, w.seeded)
    && AuditOk(w.db.users, w.db.audit)
  }
}
