/** What each repository query and statement computes on its table. */
module Tables {
  import opened Wrappers
  import opened Entities

  // ---------------------------------------------------------------- users

  function FindEmail(users: seq<UserRow>, email: string): (r: Option<UserId>)
    ensures r.Some? ==> r.value < |users| && users[r.value].email == email
    ensures r.None? ==> forall i :: 0 <= i < |users| ==> users[i].email != email
  {
    if users == [] then None
    else
      var n := |users| - 1;
      if users[n].email == email then Some(n) else FindEmail(users[..n], email)
  }

  function FindUsername(users: seq<UserRow>, username: string): (r: Option<UserId>)
    ensures r.Some? ==> r.value < |users| && users[r.value].username == username
    ensures r.None? ==> forall i :: 0 <= i < |users| ==> users[i].username != username
  {
    if users == [] then None
    else
      var n := |users| - 1;
      if users[n].username == username then Some(n) else FindUsername(users[..n], username)
  }

  /** An UPDATE is only emitted, and `updated_at` only moves, when some column changed. */
  function Written(row: UserRow, changed: UserRow, now: Time): UserRow {
    if changed == row then row else changed.(updatedAt := now)
  }

  /** `users.update`: the profile columns are written, the password hash is not. */
  function WriteProfile(users: seq<UserRow>, u: UserId, row: UserRow, now: Time): seq<UserRow>
    requires u < |users|
  {
    users[u := Written(users[u], users[u].(
      email := row.email, username := row.username, displayName := row.displayName, isActive := row.isActive,
      isSuperuser := row.isSuperuser, emailVerifiedAt := row.emailVerifiedAt), now)]
  }

  /** `users.update_password`: only the password hash is written. */
  function WritePassword(users: seq<UserRow>, u: UserId, hash: string, now: Time): seq<UserRow>
    requires u < |users|
  {
    users[u := Written(users[u], users[u].(passwordHash := hash), now)]
  }

  // ---------------------------------------------------------------- sessions

  function FindJti(sessions: seq<SessionRow>, jti: string): (r: Option<nat>)
    ensures r.Some? ==> r.value < |sessions| && sessions[r.value].jti == jti
    ensures r.None? ==> forall i :: 0 <= i < |sessions| ==> sessions[i].jti != jti
  {
    if sessions == [] then None
    else
      var n := |sessions| - 1;
      if sessions[n].jti == jti then Some(n) else FindJti(sessions[..n], jti)
  }

  /** The rows a revocation statement names. */
  datatype Selection = WithJti(jti: string) | OfUser(user: UserId, spared: Option<string>)

  /** The row is named by the selection and not yet revoked. */
  predicate Selects(which: Selection, row: SessionRow) {
    && !row.IsRevoked()
    && match which
       case WithJti(jti) => row.jti == jti
       case OfUser(user, spared) => row.userId == user && (spared.None? || row.jti != spared.value)
  }

  /** The guarded UPDATE behind `revoke` and `revoke_all_for_user`. */
  function Stamp(sessions: seq<SessionRow>, which: Selection, now: Time): (r: seq<SessionRow>)
    ensures |r| == |sessions|
  {
    seq(|sessions|, i requires 0 <= i < |sessions| =>
      if Selects(which, sessions[i]) then sessions[i].(revokedAt := Some(now)) else sessions[i])
  }

  /** The row count reported by that UPDATE. */
  function Stamped(sessions: seq<SessionRow>, which: Selection): nat {
    if sessions == [] then 0
    else
      var n := |sessions| - 1;
      Stamped(sessions[..n], which) + (if Selects(which, sessions[n]) then 1 else 0)
  }

  /** `list_active_for_user`: the valid sessions of a user, newest first. */
  function ActiveSessions(sessions: seq<SessionRow>, u: UserId, now: Time): seq<SessionRow> {
    if sessions == [] then []
    else
      var n := |sessions| - 1;
      (if sessions[n].userId == u && sessions[n].IsValid(now) then [sessions[n]] else [])
      + ActiveSessions(sessions[..n], u, now)
  }

  // ---------------------------------------------------------------- one-time tokens

  function FindToken(tokens: seq<TokenRow>, hash: string, purpose: TokenPurpose): (r: Option<nat>)
    ensures r.Some? ==> r.value < |tokens| && tokens[r.value].tokenHash == hash && tokens[r.value].purpose == purpose
    ensures r.None? ==> forall i :: 0 <= i < |tokens| && tokens[i].tokenHash == hash ==> tokens[i].purpose != purpose
  {
    if tokens == [] then None
    else
      var n := |tokens| - 1;
      if tokens[n].tokenHash == hash && tokens[n].purpose == purpose then Some(n)
      else FindToken(tokens[..n], hash, purpose)
  }

  /** `mark_used`: stamp one row unless it is already spent. */
  function MarkUsed(tokens: seq<TokenRow>, id: nat, now: Time): seq<TokenRow>
    requires id < |tokens|
  {
    if tokens[id].IsUsed() then tokens else tokens[id := tokens[id].(usedAt := Some(now))]
  }

  /** `invalidate_for_user`: stamp every unspent row of one user and purpose. */
  function Invalidate(tokens: seq<TokenRow>, u: UserId, purpose: TokenPurpose, now: Time): (r: seq<TokenRow>)
    ensures |r| == |tokens|
  {
    seq(|tokens|, i requires 0 <= i < |tokens| =>
      if tokens[i].userId == u && tokens[i].purpose == purpose && !tokens[i].IsUsed()
      then tokens[i].(usedAt := Some(now)) else tokens[i])
  }

  // ---------------------------------------------------------------- roles and permissions

  function FindRole(roles: seq<RoleRow>, id: RoleId): (r: Option<RoleRow>)
    ensures r.Some? ==> r.value in roles && r.value.id == id
    ensures r.None? ==> forall row :: row in roles ==> row.id != id
  {
    if roles == [] then None else if roles[0].id == id then Some(roles[0]) else FindRole(roles[1..], id)
  }

  function FindRoleName(roles: seq<RoleRow>, name: string): (r: Option<RoleRow>)
    ensures r.Some? ==> r.value in roles && r.value.name == name
    ensures r.None? ==> forall row :: row in roles ==> row.name != name
  {
    if roles == [] then None else if roles[0].name == name then Some(roles[0]) else FindRoleName(roles[1..], name)
  }

  function FindPermission(permissions: seq<Permission>, id: PermissionId): (r: Option<Permission>)
    ensures r.Some? ==> r.value in permissions && r.value.id == id
    ensures r.None? ==> forall p :: p in permissions ==> p.id != id
  {
    if permissions == [] then None
    else if permissions[0].id == id then Some(permissions[0])
    else FindPermission(permissions[1..], id)
  }

  /** Insert a link row unless it is there already. */
  function AddLink(links: seq<(nat, nat)>, link: (nat, nat)): seq<(nat, nat)> {
    if link in links then links else links + [link]
  }

  function DropLink(links: seq<(nat, nat)>, link: (nat, nat)): seq<(nat, nat)> {
    if links == [] then []
    else
      var n := |links| - 1;
      DropLink(links[..n], link) + (if links[n] == link then [] else [links[n]])
  }

  /** ON DELETE CASCADE on the second column. */
  function DropSecond(links: seq<(nat, nat)>, second: nat): seq<(nat, nat)> {
    if links == [] then []
    else
      var n := |links| - 1;
      DropSecond(links[..n], second) + (if links[n].1 == second then [] else [links[n]])
  }

  /** ON DELETE CASCADE on the first column. */
  function DropFirst(links: seq<(nat, nat)>, first: nat): seq<(nat, nat)> {
    if links == [] then []
    else
      var n := |links| - 1;
      DropFirst(links[..n], first) + (if links[n].0 == first then [] else [links[n]])
  }

  function DropRole(roles: seq<RoleRow>, id: RoleId): seq<RoleRow> {
    if roles == [] then []
    else if roles[0].id == id then DropRole(roles[1..], id)
    else [roles[0]] + DropRole(roles[1..], id)
  }

  // ---------------------------------------------------------------- loading entities

  function PermissionsOf(links: seq<(RoleId, PermissionId)>, permissions: seq<Permission>, r: RoleId): seq<Permission> {
    if links == [] then []
    else
      var n := |links| - 1;
      var found := FindPermission(permissions, links[n].1);
      PermissionsOf(links[..n], permissions, r)
      + (if links[n].0 == r && found.Some? then [found.value] else [])
  }

  function BuildRole(
      roles: seq<RoleRow>, grants: seq<(RoleId, PermissionId)>, permissions: seq<Permission>, r: RoleId): Option<Role>
  {
    var row := FindRole(roles, r);
    if row.None? then None
    else Some(Role(r, row.value.name, row.value.description, PermissionsOf(grants, permissions, r)))
  }

  /** `roles.get_by_id`: the role with its permissions. */
  function LoadRole(db: Db, r: RoleId): Option<Role> {
    BuildRole(db.roles, db.rolePermissions, db.permissions, r)
  }

  function RolesOf(
      links: seq<(UserId, RoleId)>, roles: seq<RoleRow>, grants: seq<(RoleId, PermissionId)>,
      permissions: seq<Permission>, u: UserId): seq<Role>
    decreases |links|
  {
    if links == [] then []
    else
      var n := |links| - 1;
      var role := BuildRole(roles, grants, permissions, links[n].1);
      RolesOf(links[..n], roles, grants, permissions, u) + (if links[n].0 == u && role.Some? then [role.value] else [])
  }

  /** `users.get_by_id`: the account with its roles and their permissions. */
  function LoadUser(db: Db, u: UserId): Option<User> {
    if u < |db.users|
    then Some(User(u, db.users[u], RolesOf(db.userRoles, db.roles, db.rolePermissions, db.permissions, u)))
    else None
  }
}
