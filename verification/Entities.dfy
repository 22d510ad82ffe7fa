/** The rows of the database, the entities built from them, and the values that cross use cases. */
module Entities {
  import opened Wrappers

  type UserId = nat
  type RoleId = nat
  type PermissionId = nat

  /** Microseconds since the epoch, UTC. */
  type Time = nat

  const SECOND: nat := 1_000_000

  // ---------------------------------------------------------------- rows

  datatype UserRow = UserRow(
    email: string, username: string, passwordHash: string, displayName: Option<string>,
    isActive: bool, isSuperuser: bool, emailVerifiedAt: Option<Time>, visitorId: Option<string>,
    createdAt: Time, updatedAt: Time)
  {
    predicate IsEmailVerified() {
      emailVerifiedAt.Some?
    }
  }

  datatype Device = Device(
    visitorId: Option<string>, userAgent: Option<string>, ipAddress: Option<string>, deviceName: Option<string>)

  datatype SessionStatus = Active | Expired | Revoked

  datatype SessionRow = SessionRow(
    userId: UserId, jti: string, createdAt: Time, expiresAt: Time, revokedAt: Option<Time>,
    device: Device, lastSeenAt: Time)
  {
    predicate IsRevoked() {
      revokedAt.Some?
    }

    function Status(now: Time): (s: SessionStatus)
      ensures s == Active <==> IsValid(now)
    {
      if IsRevoked() then Revoked else if !(now < expiresAt) then Expired else Active
    }

    predicate IsValid(now: Time) {
      !IsRevoked() && now < expiresAt
    }
  }

  datatype TokenPurpose = EmailVerification | PasswordReset

  datatype TokenRow = TokenRow(
    userId: UserId, purpose: TokenPurpose, tokenHash: string, createdAt: Time, expiresAt: Time,
    usedAt: Option<Time>)
  {
    predicate IsUsed() {
      usedAt.Some?
    }

    predicate IsUsable(now: Time) {
      !IsUsed() && now < expiresAt
    }
  }

  datatype RevocationScope = All | Others

  /** An audited action with its metadata. */
  datatype AuditEvent =
    | Registered(username: string, visitor: Option<string>)
    | LoggedIn(visitor: Option<string>)
    | LoginFailed(email: string, reason: LoginFailure)
    | LoggedOut
    | PasswordChanged(sessionsRevoked: nat)
    | PasswordWasReset(sessionsRevoked: nat)
    | EmailVerified(email: string)
    | SessionsRevoked(scope: RevocationScope, sessionsRevoked: nat)
    | SessionRevoked(session: nat)
    | UserBanned(actor: Option<UserId>, note: Option<string>, sessionsRevoked: nat)
    | UserUnbanned(restorer: UserId)

  datatype LoginFailure = UnknownAccount | Inactive | BadPassword

  datatype AuditRow = AuditRow(
    event: AuditEvent, createdAt: Time, userId: Option<UserId>,
    ipAddress: Option<string>, userAgent: Option<string>)

  datatype RoleRow = RoleRow(id: RoleId, name: string, description: Option<string>)

  datatype Permission = Permission(id: PermissionId, resource: string, action: string, description: Option<string>)

  /**
   * The whole database. Users, sessions, tokens and audit rows are never deleted, so their ids
   * are their positions; the link tables keep insertion order.
   */
  datatype Db = Db(
    users: seq<UserRow>, sessions: seq<SessionRow>, tokens: seq<TokenRow>, audit: seq<AuditRow>,
    roles: seq<RoleRow>, permissions: seq<Permission>,
    userRoles: seq<(UserId, RoleId)>, rolePermissions: seq<(RoleId, PermissionId)>)

  // ---------------------------------------------------------------- entities

  datatype Role = Role(id: RoleId, name: string, description: Option<string>, permissions: seq<Permission>)

  datatype User = User(id: UserId, row: UserRow, roles: seq<Role>)

  // ---------------------------------------------------------------- signed tokens

  datatype TokenKind = Access | Refresh

  /** The payload of a signed token; `exp` is in whole seconds. */
  datatype Claims = Claims(sub: UserId, jti: string, kind: TokenKind, exp: nat)

  /** What a client presents: a token with a good signature, or anything else. */
  datatype Bearer = Signed(claims: Claims) | Unsigned

  datatype IssuedToken = IssuedToken(claims: Claims, expiresAt: Time)

  /** The reply to a login or a refresh. */
  datatype Grant = Grant(access: IssuedToken, refresh: IssuedToken, user: User)

  datatype AppError =
    | AuthenticationError
    | InvalidCredentials
    | AuthorizationError
    | RateLimited(retryAfter: int)
    | AccountLocked(retryAfter: int)
    | UserNotFound
    | RoleNotFound
    | PermissionNotFound
    | SessionNotFound
    | EmailAlreadyExists
    | UsernameAlreadyExists
    | ValidationError
    | PasswordMismatch
    | InvalidToken
    | MalformedEntry
    | DatabaseFault
}
