/**
 * The effect of each use case on the database, as one serial transaction: the committed database
 * afterwards and the reply. The clock, the fresh identifiers and the hasher's output are parameters.
 */
module Transactions {
  import opened Wrappers
  import opened Entities
  import opened Tables
  import opened Text

  datatype Config = Config(
    accessMinutes: nat, refreshMinutes: nat, verificationHours: nat, resetMinutes: nat, defaultRole: string,
    passwordMatches: (string, string) -> bool, secretHash: string -> string)

  type Tx<T> = (Db, Result<T, AppError>)

  // ---------------------------------------------------------------- signed tokens

  /** `exp` is the expiry truncated to whole seconds. */
  function Issue(sub: UserId, jti: string, kind: TokenKind, minutes: nat, now: Time): IssuedToken {
    var expiresAt := now + minutes * 60 * SECOND;
    IssuedToken(Claims(sub, jti, kind, expiresAt / SECOND), expiresAt)
  }

  /** A token is accepted only before its `exp` (section 4.1.4 of RFC 7519). */
  function Decode(token: Bearer, now: Time): Result<Claims, AppError> {
    match token
    case Unsigned => Failure(AuthenticationError)
    case Signed(claims) => if now < claims.exp * SECOND then Success(claims) else Failure(AuthenticationError)
  }

  // ---------------------------------------------------------------- shared pieces

  function Record(db: Db, event: AuditEvent, user: Option<UserId>, device: Device, now: Time): Db {
    db.(audit := db.audit + [AuditRow(event, now, user, device.ipAddress, device.userAgent)])
  }

  /** Spend the user's unspent tokens of one purpose and mint the next. */
  function ReplaceToken(db: Db, u: UserId, purpose: TokenPurpose, hash: string, now: Time, lifetime: nat): Db {
    db.(tokens := Invalidate(db.tokens, u, purpose, now)
                  + [TokenRow(u, purpose, hash, now, now + lifetime, None)])
  }

  function IssueVerification(cfg: Config, db: Db, u: UserId, secret: string, now: Time): Db {
    ReplaceToken(db, u, EmailVerification, cfg.secretHash(secret), now, cfg.verificationHours * 3600 * SECOND)
  }

  function RevokeAllOf(db: Db, u: UserId, spared: Option<string>, now: Time): Db {
    db.(sessions := Stamp(db.sessions, OfUser(u, spared), now))
  }

  function NewSession(
      u: UserId, jti: string, createdAt: Time, refresh: IssuedToken, device: Device, now: Time): SessionRow
  {
    SessionRow(u, jti, createdAt, refresh.expiresAt, None, device, now)
  }

  // ---------------------------------------------------------------- accounts

  datatype Registration = Registration(
    email: string, username: string, password: string, passwordRepeat: string,
    displayName: Option<string>, visitorId: Option<string>)

  function Register(
      cfg: Config, db: Db, d: Registration, passwordHash: string, secret: string, device: Device, now: Time): Tx<User>
  {
    var email, username := Normalize(d.email), Strip(d.username);
    if d.password != d.passwordRepeat then (db, Failure(PasswordMismatch))
    else if FindEmail(db.users, email).Some? then (db, Failure(EmailAlreadyExists))
    else if FindUsername(db.users, username).Some? then (db, Failure(UsernameAlreadyExists))
    else
      var u := |db.users|;
      var row := UserRow(email, username, passwordHash, d.displayName, true, false, None, d.visitorId, now, now);
      var role := FindRoleName(db.roles, cfg.defaultRole);
      var links := if role.Some? then AddLink(db.userRoles, (u, role.value.id)) else db.userRoles;
      var inserted := db.(users := db.users + [row], userRoles := links);
      var after := Record(IssueVerification(cfg, inserted, u, secret, now), Registered(username, d.visitorId), Some(u),
          device, now);
      (after, Success(LoadUser(after, u).value))
  }

  /** The profile edit; None fields are left unchanged. */
  datatype ProfileEdit = ProfileEdit(email: Option<string>, username: Option<string>, displayName: Option<string>)

  function EditEmail(db: Db, row: UserRow, email: Option<string>): Result<UserRow, AppError> {
    if email.None? || Normalize(email.value) == row.email then Success(row)
    else if FindEmail(db.users, Normalize(email.value)).Some? then Failure(EmailAlreadyExists)
    else Success(row.(email := Normalize(email.value), emailVerifiedAt := None))
  }

  function EditUsername(db: Db, row: UserRow, username: Option<string>): Result<UserRow, AppError> {
    if username.None? || Strip(username.value) == row.username then Success(row)
    else if FindUsername(db.users, Strip(username.value)).Some? then Failure(UsernameAlreadyExists)
    else Success(row.(username := Strip(username.value)))
  }

  function UpdateUser(cfg: Config, db: Db, u: UserId, edit: ProfileEdit, secret: string, now: Time): Tx<User> {
    if u >= |db.users| then (db, Failure(UserNotFound))
    else
      var first := EditEmail(db, db.users[u], edit.email);
      if first.Failure? then (db, Failure(first.error))
      else
        var second := EditUsername(db, first.value, edit.username);
        if second.Failure? then (db, Failure(second.error))
        else
          var row := if edit.displayName.Some? then second.value.(displayName := edit.displayName) else second.value;
          var written := db.(users := WriteProfile(db.users, u, row, now));
          var after := if row.IsEmailVerified() then written else IssueVerification(cfg, written, u, secret, now);
          (after, Success(LoadUser(after, u).value))
  }

  function VerifyEmail(cfg: Config, db: Db, secret: string, device: Device, now: Time): Tx<User> {
    var stored := FindToken(db.tokens, cfg.secretHash(secret), EmailVerification);
    if stored.None? || !db.tokens[stored.value].IsUsable(now) then (db, Failure(InvalidToken))
    else
      var u := db.tokens[stored.value].userId;
      if u >= |db.users| || !db.users[u].isActive then (db, Failure(InvalidToken))
      else
        var row := db.users[u];
        var users := if row.IsEmailVerified() then db.users
                     else WriteProfile(db.users, u, row.(emailVerifiedAt := Some(now)), now);
        var spent := db.(tokens := MarkUsed(db.tokens, stored.value, now), users := users);
        var after := Record(spent, EmailVerified(row.email), Some(u), device, now);
        (after, Success(LoadUser(after, u).value))
  }

  // ---------------------------------------------------------------- passwords

  function ChangePassword(
      cfg: Config, db: Db, u: UserId, current: string, next: string, repeat: string, nextHash: string, device: Device,
      now: Time): Tx<nat>
  {
    if next != repeat then (db, Failure(PasswordMismatch))
    else if u >= |db.users| then (db, Failure(UserNotFound))
    else if !cfg.passwordMatches(current, db.users[u].passwordHash) then (db, Failure(InvalidCredentials))
    else if current == next then (db, Failure(ValidationError))
    else
      var revoked := Stamped(db.sessions, OfUser(u, None));
      var written := db.(users := WritePassword(db.users, u, nextHash, now),
                         tokens := Invalidate(db.tokens, u, PasswordReset, now));
      (Record(RevokeAllOf(written, u, None, now), PasswordChanged(revoked), Some(u), device, now), Success(revoked))
  }

  predicate KnownActive(db: Db, address: string) {
    var found := FindEmail(db.users, address);
    found.Some? && db.users[found.value].isActive
  }

  /** An unknown or inactive address gets the same silent reply as a known one. */
  function ForgotPassword(cfg: Config, db: Db, email: string, secret: string, now: Time): Tx<()> {
    var found := FindEmail(db.users, Normalize(email));
    if found.None? || !db.users[found.value].isActive then (db, Success(()))
    else
      (ReplaceToken(db, found.value, PasswordReset, cfg.secretHash(secret), now, cfg.resetMinutes * 60 * SECOND),
          Success(()))
  }

  function ResetPassword(
      cfg: Config, db: Db, secret: string, password: string, repeat: string, passwordHash: string, device: Device,
      now: Time): Tx<UserId>
  {
    if password != repeat then (db, Failure(PasswordMismatch))
    else
      var stored := FindToken(db.tokens, cfg.secretHash(secret), PasswordReset);
      if stored.None? || !db.tokens[stored.value].IsUsable(now) then (db, Failure(InvalidToken))
      else
        var u := db.tokens[stored.value].userId;
        if u >= |db.users| || !db.users[u].isActive then (db, Failure(InvalidToken))
        else
          var revoked := Stamped(db.sessions, OfUser(u, None));
          var written := db.(users := WritePassword(db.users, u, passwordHash, now),
                             tokens := Invalidate(MarkUsed(db.tokens, stored.value, now), u, PasswordReset, now));
          (Record(RevokeAllOf(written, u, None, now), PasswordWasReset(revoked), Some(u), device, now), Success(u))
  }

  // ---------------------------------------------------------------- sessions

  predicate CredentialsHold(cfg: Config, db: Db, email: string, password: string) {
    var found := FindEmail(db.users, Normalize(email));
    found.Some? && db.users[found.value].isActive && cfg.passwordMatches(password, db.users[found.value].passwordHash)
  }

  /** The transaction of a login that the limiters let through. */
  function Login(
      cfg: Config, db: Db, email: string, password: string, device: Device, jti: string, now: Time): Tx<Grant>
  {
    var found := FindEmail(db.users, Normalize(email));
    if !CredentialsHold(cfg, db, email, password) then
      var reason := if found.None? then UnknownAccount
                    else if !db.users[found.value].isActive then Inactive
                    else BadPassword;
      (Record(db, LoginFailed(Normalize(email), reason), found, device, now), Failure(InvalidCredentials))
    else
      var u := found.value;
      var access, refresh := Issue(u, jti, Access, cfg.accessMinutes, now),
          Issue(u, jti, Refresh, cfg.refreshMinutes, now);
      var added := db.(sessions := db.sessions + [NewSession(u, jti, now, refresh, device, now)]);
      (Record(added, LoggedIn(device.visitorId), Some(u), device, now),
          Success(Grant(access, refresh, LoadUser(db, u).value)))
  }

  /** Fields the request does not know are inherited from the session it replaces. */
  function Inherit(device: Device, previous: Device): Device {
    Device(OrElse(device.visitorId, previous.visitorId), OrElse(device.userAgent, previous.userAgent),
           OrElse(device.ipAddress, previous.ipAddress), OrElse(device.deviceName, previous.deviceName))
  }

  function RefreshSession(cfg: Config, db: Db, token: Bearer, device: Device, jti: string, now: Time): Tx<Grant> {
    var payload := Decode(token, now);
    if payload.Failure? then (db, Failure(payload.error))
    else
      var c := payload.value;
      var found := FindJti(db.sessions, c.jti);
      if c.kind != Refresh then (db, Failure(AuthenticationError))
      else if found.None? || !db.sessions[found.value].IsValid(now) then (db, Failure(AuthenticationError))
      else if c.sub >= |db.users| || !db.users[c.sub].isActive then (db, Failure(AuthenticationError))
      else
        var previous := db.sessions[found.value];
        var access, refresh := Issue(c.sub, jti, Access, cfg.accessMinutes, now),
            Issue(c.sub, jti, Refresh, cfg.refreshMinutes, now);
        var heir := NewSession(c.sub, jti, previous.createdAt, refresh, Inherit(device, previous.device), now);
        (db.(sessions := Stamp(db.sessions, WithJti(c.jti), now) + [heir]),
         Success(Grant(access, refresh, LoadUser(db, c.sub).value)))
  }

  /** A token that does not decode has nothing to revoke. */
  function Logout(db: Db, token: Bearer, device: Device, now: Time): Tx<()> {
    var payload := Decode(token, now);
    if payload.Failure? then (db, Success(()))
    else
      var revoked := db.(sessions := Stamp(db.sessions, WithJti(payload.value.jti), now));
      (Record(revoked, LoggedOut, Some(payload.value.sub), device, now), Success(()))
  }

  function RevokeOne(db: Db, u: UserId, session: nat, device: Device, now: Time): Tx<()> {
    if session >= |db.sessions| || db.sessions[session].userId != u then (db, Failure(SessionNotFound))
    else
      var revoked := db.(sessions := Stamp(db.sessions, WithJti(db.sessions[session].jti), now));
      (Record(revoked, SessionRevoked(session), Some(u), device, now), Success(()))
  }

  function RevokeAll(db: Db, u: UserId, spared: Option<string>, device: Device, now: Time): Tx<nat> {
    var revoked := Stamped(db.sessions, OfUser(u, spared));
    var scope := if spared.None? then All else Others;
    (Record(RevokeAllOf(db, u, spared, now), SessionsRevoked(scope, revoked), Some(u), device, now), Success(revoked))
  }

  /** The database's own answer to an access token, with no cache in between. */
  function Authenticate(db: Db, token: Bearer, now: Time): Result<User, AppError> {
    var payload := Decode(token, now);
    if payload.Failure? then Failure(payload.error)
    else if !SessionAccepts(db, payload.value, now) then Failure(AuthenticationError)
    else Admit(LoadUser(db, payload.value.sub))
  }

  predicate SessionAccepts(db: Db, c: Claims, now: Time) {
    var found := FindJti(db.sessions, c.jti);
    c.kind == Access && found.Some? && db.sessions[found.value].IsValid(now)
  }

  function Admit(user: Option<User>): Result<User, AppError> {
    if user.Some? && user.value.row.isActive then Success(user.value) else Failure(AuthenticationError)
  }

  // ---------------------------------------------------------------- moderation

  /** Whether the call wrote anything, with the account as it is afterwards. */
  datatype Moderation = Unchanged(user: User) | Changed(user: User)

  function Ban(
      db: Db, actor: UserId, target: UserId, reason: Option<string>, device: Device, now: Time): Tx<Moderation>
  {
    if actor == target then (db, Failure(ValidationError))
    else if target >= |db.users| then (db, Failure(UserNotFound))
    else if db.users[target].isSuperuser then (db, Failure(AuthorizationError))
    else if !db.users[target].isActive then (db, Success(Unchanged(LoadUser(db, target).value)))
    else
      var after := Deactivate(db, target, Some(actor), reason, device, now);
      (after, Success(Changed(LoadUser(after, target).value)))
  }

  function Deactivate(db: Db, u: UserId, actor: Option<UserId>, reason: Option<string>, device: Device, now: Time): Db
    requires u < |db.users|
  {
    var revoked := Stamped(db.sessions, OfUser(u, None));
    var written := db.(users := WriteProfile(db.users, u, db.users[u].(isActive := false), now));
    Record(RevokeAllOf(written, u, None, now), UserBanned(actor, reason, revoked), Some(u), device, now)
  }

  function Unban(db: Db, actor: UserId, target: UserId, device: Device, now: Time): Tx<Moderation> {
    if target >= |db.users| then (db, Failure(UserNotFound))
    else if db.users[target].isActive then (db, Success(Unchanged(LoadUser(db, target).value)))
    else
      var written := db.(users := WriteProfile(db.users, target, db.users[target].(isActive := true), now));
      var after := Record(written, UserUnbanned(actor), Some(target), device, now);
      (after, Success(Changed(LoadUser(after, target).value)))
  }

  function DeleteUser(db: Db, u: UserId, device: Device, now: Time): Tx<()> {
    if u >= |db.users| then (db, Failure(UserNotFound))
    else (Deactivate(db, u, None, Some("self_deactivated"), device, now), Success(()))
  }

  // ---------------------------------------------------------------- access control

  function AssignRole(db: Db, u: UserId, r: RoleId): Tx<User> {
    if u >= |db.users| then (db, Failure(UserNotFound))
    else if FindRole(db.roles, r).None? then (db, Failure(RoleNotFound))
    else
      var after := db.(userRoles := AddLink(db.userRoles, (u, r)));
      (after, Success(LoadUser(after, u).value))
  }

  function RevokeRole(db: Db, u: UserId, r: RoleId): Tx<User> {
    if u >= |db.users| then (db, Failure(UserNotFound))
    else
      var after := db.(userRoles := DropLink(db.userRoles, (u, r)));
      (after, Success(LoadUser(after, u).value))
  }

  function GrantPermission(db: Db, r: RoleId, p: PermissionId): Tx<Role> {
    if FindRole(db.roles, r).None? then (db, Failure(RoleNotFound))
    else if FindPermission(db.permissions, p).None? then (db, Failure(PermissionNotFound))
    else
      var after := db.(rolePermissions := AddLink(db.rolePermissions, (r, p)));
      (after, Success(LoadRole(after, r).value))
  }

  function RevokePermission(db: Db, r: RoleId, p: PermissionId): Tx<Role> {
    if FindRole(db.roles, r).None? then (db, Failure(RoleNotFound))
    else
      var after := db.(rolePermissions := DropLink(db.rolePermissions, (r, p)));
      (after, Success(LoadRole(after, r).value))
  }

  function DeleteRole(db: Db, r: RoleId): Tx<()> {
    if FindRole(db.roles, r).None? then (db, Failure(RoleNotFound))
    else
      (db.(roles := DropRole(db.roles, r), userRoles := DropSecond(db.userRoles, r),
           rolePermissions := DropFirst(db.rolePermissions, r)), Success(()))
  }
}
