/** What a use case may touch, row by row. */
module Frames {
  import opened Wrappers
  import opened Entities

  predicate SameRoleTables(before: Db, after: Db) {
    && after.roles == before.roles && after.permissions == before.permissions
    && after.userRoles == before.userRoles && after.rolePermissions == before.rolePermissions
  }

  /** The log gained exactly this row. */
  predicate Logged(before: Db, after: Db, event: AuditEvent, user: Option<UserId>, device: Device, t: Time) {
    after.audit == before.audit + [AuditRow(event, t, user, device.ipAddress, device.userAgent)]
  }

  ghost predicate OtherUsersKept(before: seq<UserRow>, after: seq<UserRow>, u: UserId) {
    |after| == |before| && forall v :: 0 <= v < |before| && v != u ==> after[v] == before[v]
  }

  /** Exactly the user's unrevoked sessions are stamped, except a spared one. */
  ghost predicate SignedOut(
      before: seq<SessionRow>, after: seq<SessionRow>, u: UserId, spared: Option<string>, t: Time)
  {
    |after| == |before| &&
    forall i :: 0 <= i < |before| ==>
      var hit := before[i].userId == u && before[i].revokedAt == None && spared != Some(before[i].jti);
      after[i] == if hit then before[i].(revokedAt := Some(t)) else before[i]
  }

  /** Exactly the unrevoked sessions with this jti are stamped, among the first rows. */
  ghost predicate Ended(before: seq<SessionRow>, after: seq<SessionRow>, jti: string, t: Time) {
    |before| <= |after| &&
    forall i :: 0 <= i < |before| ==>
      var hit := before[i].jti == jti && before[i].revokedAt == None;
      after[i] == if hit then before[i].(revokedAt := Some(t)) else before[i]
  }

  /** Exactly the user's unspent tokens of the purpose are stamped, among the first rows. */
  ghost predicate LinksSpent(before: seq<TokenRow>, after: seq<TokenRow>, u: UserId, purpose: TokenPurpose, t: Time) {
    |before| <= |after| &&
    forall i :: 0 <= i < |before| ==>
      var hit := before[i].userId == u && before[i].purpose == purpose && before[i].usedAt == None;
      after[i] == if hit then before[i].(usedAt := Some(t)) else before[i]
  }

  /** One new row: an unspent link of the user, valid for `seconds` from now on. */
  predicate LinkAdded(
      before: seq<TokenRow>, after: seq<TokenRow>, u: UserId, purpose: TokenPurpose, hash: string, t: Time,
      seconds: nat)
  {
    && |after| == |before| + 1
    && var row := after[|before|];
       && row.userId == u && row.purpose == purpose && row.tokenHash == hash && row.usedAt == None
       && row.createdAt == t && row.expiresAt == t + seconds * 1_000_000
  }

  /** Every link row belongs to an existing account. */
  ghost predicate LinksOwned(users: seq<UserRow>, links: seq<(UserId, RoleId)>) {
    forall link :: link in links ==> link.0 < |users|
  }

  ghost predicate TokensOwned(users: seq<UserRow>, tokens: seq<TokenRow>) {
    forall row :: row in tokens ==> row.userId < |users|
  }
}
