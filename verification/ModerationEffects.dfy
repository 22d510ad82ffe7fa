/** What bans, unbans and self-deletion do, and whom they spare. */
module ModerationEffects {
  import opened Wrappers
  import opened Entities
  import opened Tables
  import opened Transactions
  import opened Frames
  import opened SessionEffects

  /** Only the account's activity, and the time of its last change, are new. */
  ghost predicate Switched(before: seq<UserRow>, after: seq<UserRow>, u: UserId, active: bool, t: Time)
    requires u < |before|
  {
    && OtherUsersKept(before, after, u)
    && after[u] == before[u].(isActive := active,
                              updatedAt := if active == before[u].isActive then before[u].updatedAt else t)
  }

  /** The account is off, its sessions are over, and one log row says who did it, why and how many ended. */
  ghost predicate TurnedOff(
      before: Db, after: Db, u: UserId, actor: Option<UserId>, reason: Option<string>, device: Device, t: Time)
    requires u < |before.users|
  {
    && Switched(before.users, after.users, u, false, t)
    && SignedOut(before.sessions, after.sessions, u, None, t)
    && after.tokens == before.tokens && SameRoleTables(before, after)
    && Logged(before, after, UserBanned(actor, reason, |Unrevoked(before.sessions, u, None)|), Some(u), device, t)
  }

  /** Nobody bans itself, and nobody bans a superuser: these calls change nothing. */
  lemma BanSpares(db: Db, actor: UserId, target: UserId, reason: Option<string>, device: Device, t: Time)
    ensures var (after, reply) := Ban(db, actor, target, reason, device, t);
            && (reply.Success? <==> actor != target && target < |db.users| && !db.users[target].isSuperuser)
            && (actor == target ==> reply == Failure(ValidationError))
            && (actor != target && target >= |db.users| ==> reply == Failure(UserNotFound))
            && (actor != target && target < |db.users| && db.users[target].isSuperuser ==>
                  reply == Failure(AuthorizationError))
            && (reply.Failure? ==> after == db)
  {
  }

  /** A ban that succeeds turns an active account off; an inactive one is left as it is. */
  lemma BanTakesEffect(db: Db, actor: UserId, target: UserId, reason: Option<string>, device: Device, t: Time)
    requires Ban(db, actor, target, reason, device, t).1.Success?
    ensures target < |db.users|
    ensures var (after, reply) := Ban(db, actor, target, reason, device, t);
            && LoadUser(after, target) == Some(reply.value.user)
            && (reply.value.Changed? <==> db.users[target].isActive)
            && if db.users[target].isActive then TurnedOff(db, after, target, Some(actor), reason, device, t)
               else after == db
  {
    CountIsExact(db.sessions, target, None);
  }

  /** An unban turns an inactive account on, reviving no session; an active one is left as it is. */
  lemma UnbanTakesEffect(db: Db, actor: UserId, target: UserId, device: Device, t: Time)
    ensures var (after, reply) := Unban(db, actor, target, device, t);
            if target >= |db.users| then reply == Failure(UserNotFound) && after == db
            else
              && reply.Success? && LoadUser(after, target) == Some(reply.value.user)
              && (reply.value.Changed? <==> !db.users[target].isActive)
              && if db.users[target].isActive then after == db
                 else
                   && Switched(db.users, after.users, target, true, t)
                   && after.sessions == db.sessions && after.tokens == db.tokens && SameRoleTables(db, after)
                   && Logged(db, after, UserUnbanned(actor), Some(target), device, t)
  {
  }

  /** Deleting oneself is turning oneself off, with no actor and a fixed reason. */
  lemma DeleteTakesEffect(db: Db, u: UserId, device: Device, t: Time)
    ensures var (after, reply) := DeleteUser(db, u, device, t);
            if u >= |db.users| then reply == Failure(UserNotFound) && after == db
            else reply == Success(()) && TurnedOff(db, after, u, None, Some("self_deactivated"), device, t)
  {
    CountIsExact(db.sessions, u, None);
  }
}
