/** What registration, profile edits and verification do to an account, and nothing else does. */
module AccountEffects {
  import opened Wrappers
  import opened Entities
  import opened Tables
  import opened Transactions
  import opened Text
  import opened World
  import opened Invariants
  import opened Preservation
  import opened Frames
  import CacheRefinement

  // ---------------------------------------------------------------- registration

  ghost predicate FreeAddress(users: seq<UserRow>, email: string) {
    forall row :: row in users ==> row.email != email
  }

  ghost predicate FreeHandle(users: seq<UserRow>, username: string) {
    forall row :: row in users ==> row.username != username
  }

  /** Both names must be free and the passwords equal; the first violation in this order is reported. */
  lemma RegisterSucceeds(
      cfg: Config, db: Db, d: Registration, hash: string, secret: string, device: Device, t: Time)
    ensures var (after, reply) := Register(cfg, db, d, hash, secret, device, t);
            && (reply.Success? <==>
                  d.password == d.passwordRepeat && FreeAddress(db.users, Normalize(d.email))
                  && FreeHandle(db.users, Strip(d.username)))
            && (d.password != d.passwordRepeat ==> reply == Failure(PasswordMismatch))
            && (d.password == d.passwordRepeat && !FreeAddress(db.users, Normalize(d.email)) ==>
                  reply == Failure(EmailAlreadyExists))
            && (d.password == d.passwordRepeat && FreeAddress(db.users, Normalize(d.email)) && reply.Failure? ==>
                  reply == Failure(UsernameAlreadyExists))
  {
  }

  /** The new account: active, unverified, no superuser, with the given data in normal form. */
  predicate NewAccount(row: UserRow, d: Registration, hash: string, t: Time) {
    && row.email == Normalize(d.email) && row.username == Strip(d.username)
    && row.passwordHash == hash && row.displayName == d.displayName && row.visitorId == d.visitorId
    && row.isActive && !row.isSuperuser && row.emailVerifiedAt == None
    && row.createdAt == t && row.updatedAt == t
  }

  /** Registration adds exactly one account, one usable link and one log row. */
  lemma RegisterAdds(cfg: Config, db: Db, d: Registration, hash: string, secret: string, device: Device, t: Time)
    requires TokensOwned(db.users, db.tokens)
    requires Register(cfg, db, d, hash, secret, device, t).1.Success?
    ensures var (after, reply) := Register(cfg, db, d, hash, secret, device, t);
            var u := |db.users|;
            && |after.users| == u + 1 && after.users[..u] == db.users && NewAccount(after.users[u], d, hash, t)
            && reply.value.id == u && reply.value.row == after.users[u]
            && after.tokens[..|db.tokens|] == db.tokens
            && LinkAdded(db.tokens, after.tokens, u, EmailVerification, cfg.secretHash(secret), t,
                         cfg.verificationHours * 3600)
            && after.sessions == db.sessions
            && after.roles == db.roles && after.permissions == db.permissions
            && after.rolePermissions == db.rolePermissions
            && Logged(db, after, Registered(Strip(d.username), d.visitorId), Some(u), device, t)
  {
  }

  /** The roles of an account with no link are none. */
  lemma {:induction false} NoLinkNoRole(
      links: seq<(UserId, RoleId)>, roles: seq<RoleRow>, grants: seq<(RoleId, PermissionId)>,
      permissions: seq<Permission>, u: UserId)
    requires forall link :: link in links ==> link.0 != u
    ensures RolesOf(links, roles, grants, permissions, u) == []
    decreases |links|
  {
    if links != [] {
      NoLinkNoRole(links[..|links| - 1], roles, grants, permissions, u);
    }
  }

  /** The loaded roles are exactly the stored role with that name, or none if there is no such role. */
  ghost predicate ExactlyNamed(db: Db, roles: seq<Role>, name: string) {
    if exists row :: row in db.roles && row.name == name
    then exists row ::
        row in db.roles && row.name == name && LoadRole(db, row.id).Some? && roles == [LoadRole(db, row.id).value]
    else roles == []
  }

  /** The new account holds exactly the default role, if there is one; every older account loads as before. */
  lemma RegisterGrantsDefaultRole(
      cfg: Config, db: Db, d: Registration, hash: string, secret: string, device: Device, t: Time)
    requires LinksOwned(db.users, db.userRoles)
    requires Register(cfg, db, d, hash, secret, device, t).1.Success?
    ensures var (after, reply) := Register(cfg, db, d, hash, secret, device, t);
            && LoadUser(after, |db.users|) == Some(reply.value)
            && ExactlyNamed(db, reply.value.roles, cfg.defaultRole)
    ensures var after := Register(cfg, db, d, hash, secret, device, t).0;
            forall v :: 0 <= v < |db.users| ==> LoadUser(after, v) == LoadUser(db, v)
  {
    var (after, reply) := Register(cfg, db, d, hash, secret, device, t);
    var u, role := |db.users|, FindRoleName(db.roles, cfg.defaultRole);
    NoLinkNoRole(db.userRoles, db.roles, db.rolePermissions, db.permissions, u);
    if role.Some? {
      assert after.userRoles == db.userRoles + [(u, role.value.id)];
      assert after.userRoles[..|db.userRoles|] == db.userRoles;
      assert LoadRole(db, role.value.id).Some?;
    }
    forall v | 0 <= v < |db.users| ensures LoadUser(after, v) == LoadUser(db, v) {
      CacheRefinement.RegisterView(cfg, db, DoRegister(d, hash, secret, device), t, v);
    }
  }

  // ---------------------------------------------------------------- profile edit

  /** No other account has the address or handle the edit asks for. */
  ghost predicate NamesFree(users: seq<UserRow>, u: UserId, edit: ProfileEdit) {
    forall v :: 0 <= v < |users| && v != u ==>
      && (edit.email.Some? ==> users[v].email != Normalize(edit.email.value))
      && (edit.username.Some? ==> users[v].username != Strip(edit.username.value))
  }

  /** An edit of an existing account succeeds if and only if no other account has the new names. */
  lemma UpdateSucceeds(cfg: Config, db: Db, u: UserId, edit: ProfileEdit, secret: string, t: Time)
    requires AccountsOk(db.users)
    ensures var reply := UpdateUser(cfg, db, u, edit, secret, t).1;
            && (reply.Success? <==> u < |db.users| && NamesFree(db.users, u, edit))
            && (u >= |db.users| ==> reply == Failure(UserNotFound))
            && (u < |db.users| && reply.Failure? ==> reply.error in {EmailAlreadyExists, UsernameAlreadyExists})
  {
  }

  /** The row after an edit, field by field. */
  predicate EditedRow(before: UserRow, after: UserRow, edit: ProfileEdit, t: Time) {
    && after.email == (if edit.email.Some? then Normalize(edit.email.value) else before.email)
    && after.username == (if edit.username.Some? then Strip(edit.username.value) else before.username)
    && after.displayName == (if edit.displayName.Some? then edit.displayName else before.displayName)
    && after.emailVerifiedAt == (if after.email == before.email then before.emailVerifiedAt else None)
    && after.passwordHash == before.passwordHash && after.isActive == before.isActive
    && after.isSuperuser == before.isSuperuser && after.visitorId == before.visitorId
    && after.createdAt == before.createdAt
    && after.updatedAt == (if after == before then before.updatedAt else t)
  }

  /** An edit writes what it was given and unverifies a new address; the reply is the stored account. */
  lemma UpdateWrites(cfg: Config, db: Db, u: UserId, edit: ProfileEdit, secret: string, t: Time)
    requires UpdateUser(cfg, db, u, edit, secret, t).1.Success?
    ensures u < |db.users|
    ensures var (after, reply) := UpdateUser(cfg, db, u, edit, secret, t);
            && OtherUsersKept(db.users, after.users, u)
            && EditedRow(db.users[u], after.users[u], edit, t)
            && reply == Success(LoadUser(after, u).value)
  {
    UpdateWritesRow(cfg, db, u, edit, secret, t);
  }

  lemma EmailGiven(db: Db, row: UserRow, email: Option<string>)
    requires EditEmail(db, row, email).Success?
    ensures var given := if email.Some? then Normalize(email.value) else row.email;
            EditEmail(db, row, email).value
              == row.(email := given, emailVerifiedAt := if given == row.email then row.emailVerifiedAt else None)
  {
  }

  lemma UsernameGiven(db: Db, row: UserRow, username: Option<string>)
    requires EditUsername(db, row, username).Success?
    ensures EditUsername(db, row, username).value
         == row.(username := if username.Some? then Strip(username.value) else row.username)
  {
  }

  /** The profile columns arrive in the row, and only there. */
  lemma ProfileWritten(users: seq<UserRow>, u: UserId, row: UserRow, t: Time)
    requires u < |users|
    ensures var users' := WriteProfile(users, u, row, t);
            && users' == users[u := users'[u]]
            && users'[u].email == row.email && users'[u].username == row.username
            && users'[u].displayName == row.displayName && users'[u].emailVerifiedAt == row.emailVerifiedAt
            && users'[u].isActive == row.isActive && users'[u].isSuperuser == row.isSuperuser
            && users'[u].passwordHash == users[u].passwordHash && users'[u].visitorId == users[u].visitorId
            && users'[u].createdAt == users[u].createdAt
            && users'[u].updatedAt == (if users'[u] == users[u] then users[u].updatedAt else t)
  {
  }

  lemma UpdateWritesRow(cfg: Config, db: Db, u: UserId, edit: ProfileEdit, secret: string, t: Time)
    requires UpdateUser(cfg, db, u, edit, secret, t).1.Success?
    ensures u < |db.users|
    ensures var users := UpdateUser(cfg, db, u, edit, secret, t).0.users;
            |users| == |db.users| && EditedRow(db.users[u], users[u], edit, t) && users == db.users[u := users[u]]
  {
    var first := EditEmail(db, db.users[u], edit.email).value;
    var second := EditUsername(db, first, edit.username).value;
    var row := if edit.displayName.Some? then second.(displayName := edit.displayName) else second;
    EmailGiven(db, db.users[u], edit.email);
    UsernameGiven(db, first, edit.username);
    ProfileWritten(db.users, u, row, t);
    assert UpdateUser(cfg, db, u, edit, secret, t).0.users == WriteProfile(db.users, u, row, t);
  }

  /** An edit leaves sessions, log and roles alone. */
  lemma UpdateLeaves(cfg: Config, db: Db, u: UserId, edit: ProfileEdit, secret: string, t: Time)
    ensures var after := UpdateUser(cfg, db, u, edit, secret, t).0;
            after.sessions == db.sessions && after.audit == db.audit && SameRoleTables(db, after)
  {
  }

  /** It mints a link exactly if the account is unverified afterwards, spending the older ones. */
  lemma UpdateLinks(cfg: Config, db: Db, u: UserId, edit: ProfileEdit, secret: string, t: Time)
    requires UpdateUser(cfg, db, u, edit, secret, t).1.Success?
    ensures u < |db.users|
    ensures var after := UpdateUser(cfg, db, u, edit, secret, t).0;
            && u < |after.users|
            && if after.users[u].emailVerifiedAt.Some? then after.tokens == db.tokens
               else
                 && LinksSpent(db.tokens, after.tokens, u, EmailVerification, t)
                 && LinkAdded(db.tokens, after.tokens, u, EmailVerification, cfg.secretHash(secret), t,
                              cfg.verificationHours * 3600)
  {
  }

  // ---------------------------------------------------------------- verification

  /** The stored row a verification link is looked up by. */
  predicate IsLink(cfg: Config, db: Db, i: nat, secret: string) {
    i < |db.tokens| && db.tokens[i].tokenHash == cfg.secretHash(secret) && db.tokens[i].purpose == EmailVerification
  }

  /**
   * A successful verification spends one usable link and stamps its owner, unless the owner was
   * verified already; nothing else of the account changes.
   */
  lemma VerifyStamps(cfg: Config, db: Db, secret: string, device: Device, t: Time) returns (i: nat)
    requires VerifyEmail(cfg, db, secret, device, t).1.Success?
    ensures IsLink(cfg, db, i, secret) && db.tokens[i].userId < |db.users|
    ensures db.tokens[i].usedAt == None && t < db.tokens[i].expiresAt && db.users[db.tokens[i].userId].isActive
    ensures var (after, reply) := VerifyEmail(cfg, db, secret, device, t);
            var u := db.tokens[i].userId;
            && after.tokens == db.tokens[i := db.tokens[i].(usedAt := Some(t))]
            && |after.users| == |db.users|
            && (var was := db.users[u];
                after.users[u] == if was.emailVerifiedAt.Some? then was
                                  else was.(emailVerifiedAt := Some(t), updatedAt := t))
            && OtherUsersKept(db.users, after.users, u)
            && reply == Success(LoadUser(after, u).value)
            && after.sessions == db.sessions && SameRoleTables(db, after)
            && Logged(db, after, EmailVerified(db.users[u].email), Some(u), device, t)
  {
    i := FindToken(db.tokens, cfg.secretHash(secret), EmailVerification).value;
  }
}
