/** What role assignments and role edits do to the links, and that links stay owned. */
module RoleEffects {
  import opened Wrappers
  import opened Entities
  import opened Tables
  import opened Transactions
  import opened World
  import opened Invariants
  import opened Preservation
  import opened Frames
  import opened AccountEffects

  // ---------------------------------------------------------------- links

  /** The same links, with or without one. */
  ghost predicate LinkSet(before: seq<(nat, nat)>, after: seq<(nat, nat)>, link: (nat, nat), present: bool) {
    && (link in after <==> present)
    && forall other: (nat, nat) :: other != link ==> (other in after <==> other in before)
  }

  lemma {:induction false} DropLinkDrops(links: seq<(nat, nat)>, link: (nat, nat))
    ensures LinkSet(links, DropLink(links, link), link, false)
  {
    if links != [] {
      var n := |links| - 1;
      DropLinkDrops(links[..n], link);
      assert links == links[..n] + [links[n]];
    }
  }

  lemma AddLinkAdds(links: seq<(nat, nat)>, link: (nat, nat))
    ensures LinkSet(links, AddLink(links, link), link, true)
    ensures |AddLink(links, link)| == |links| + (if link in links then 0 else 1)
  {
  }

  lemma {:induction false} DropSecondDrops(links: seq<(nat, nat)>, second: nat)
    ensures forall link: (nat, nat) :: link in DropSecond(links, second) <==> link in links && link.1 != second
  {
    if links != [] {
      var n := |links| - 1;
      DropSecondDrops(links[..n], second);
      assert links == links[..n] + [links[n]];
    }
  }

  lemma {:induction false} DropFirstDrops(links: seq<(nat, nat)>, first: nat)
    ensures forall link: (nat, nat) :: link in DropFirst(links, first) <==> link in links && link.0 != first
  {
    if links != [] {
      var n := |links| - 1;
      DropFirstDrops(links[..n], first);
      assert links == links[..n] + [links[n]];
    }
  }

  lemma {:induction false} DropRoleDrops(roles: seq<RoleRow>, r: RoleId)
    ensures forall row :: row in DropRole(roles, r) <==> row in roles && row.id != r
  {
    if roles != [] {
      DropRoleDrops(roles[1..], r);
      assert roles == [roles[0]] + roles[1..];
    }
  }

  // ---------------------------------------------------------------- roles of a user

  ghost predicate RoleExists(db: Db, r: RoleId) {
    exists row :: row in db.roles && row.id == r
  }

  ghost predicate PermissionExists(db: Db, p: PermissionId) {
    exists row :: row in db.permissions && row.id == p
  }

  /** An existing role is added to an existing user once, and nothing else changes. */
  lemma AssignTakesEffect(db: Db, u: UserId, r: RoleId)
    ensures var (after, reply) := AssignRole(db, u, r);
            && (reply.Success? <==> u < |db.users| && RoleExists(db, r))
            && (u >= |db.users| ==> reply == Failure(UserNotFound))
            && (u < |db.users| && !RoleExists(db, r) ==> reply == Failure(RoleNotFound))
            && (reply.Failure? ==> after == db)
            && (reply.Success? ==>
                  && after == db.(userRoles := after.userRoles) && LinkSet(db.userRoles, after.userRoles, (u, r), true)
                  && LoadUser(after, u) == Some(reply.value))
  {
    AddLinkAdds(db.userRoles, (u, r));
  }

  /** A role is taken from an existing user, and nothing else changes. */
  lemma RevokeTakesEffect(db: Db, u: UserId, r: RoleId)
    ensures var (after, reply) := RevokeRole(db, u, r);
            if u >= |db.users| then reply == Failure(UserNotFound) && after == db
            else
              && after == db.(userRoles := after.userRoles) && LinkSet(db.userRoles, after.userRoles, (u, r), false)
              && reply.Success? && LoadUser(after, u) == Some(reply.value)
  {
    DropLinkDrops(db.userRoles, (u, r));
  }

  // ---------------------------------------------------------------- edits of a role

  lemma GrantTakesEffect(db: Db, r: RoleId, p: PermissionId)
    ensures var (after, reply) := GrantPermission(db, r, p);
            && (reply.Success? <==> RoleExists(db, r) && PermissionExists(db, p))
            && (!RoleExists(db, r) ==> reply == Failure(RoleNotFound))
            && (RoleExists(db, r) && !PermissionExists(db, p) ==> reply == Failure(PermissionNotFound))
            && (reply.Failure? ==> after == db)
            && (reply.Success? ==>
                  && after == db.(rolePermissions := after.rolePermissions)
                  && LinkSet(db.rolePermissions, after.rolePermissions, (r, p), true)
                  && LoadRole(after, r) == Some(reply.value))
  {
    AddLinkAdds(db.rolePermissions, (r, p));
  }

  lemma UngrantTakesEffect(db: Db, r: RoleId, p: PermissionId)
    ensures var (after, reply) := RevokePermission(db, r, p);
            if !RoleExists(db, r) then reply == Failure(RoleNotFound) && after == db
            else
              && after == db.(rolePermissions := after.rolePermissions)
              && LinkSet(db.rolePermissions, after.rolePermissions, (r, p), false)
              && reply.Success? && LoadRole(after, r) == Some(reply.value)
  {
    DropLinkDrops(db.rolePermissions, (r, p));
  }

  /** Deleting a role removes it with exactly its own links. */
  lemma DeleteRoleTakesEffect(db: Db, r: RoleId)
    ensures var (after, reply) := DeleteRole(db, r);
            if !RoleExists(db, r) then reply == Failure(RoleNotFound) && after == db
            else
              && reply == Success(())
              && (forall row :: row in after.roles <==> row in db.roles && row.id != r)
              && (forall link: (nat, nat) :: link in after.userRoles <==> link in db.userRoles && link.1 != r)
              && (forall link: (nat, nat) ::
                  link in after.rolePermissions <==> link in db.rolePermissions && link.0 != r)
              && after == db.(roles := after.roles, userRoles := after.userRoles,
                  rolePermissions := after.rolePermissions)
  {
    DropRoleDrops(db.roles, r);
    DropSecondDrops(db.userRoles, r);
    DropFirstDrops(db.rolePermissions, r);
  }

  // ---------------------------------------------------------------- what is loaded

  lemma {:induction false} PermissionsExactly(
      grants: seq<(RoleId, PermissionId)>, permissions: seq<Permission>, r: RoleId, permission: Permission)
    ensures permission in PermissionsOf(grants, permissions, r) <==>
              exists p: PermissionId :: (r, p) in grants && FindPermission(permissions, p) == Some(permission)
    decreases |grants|
  {
    if grants != [] {
      var n := |grants| - 1;
      PermissionsExactly(grants[..n], permissions, r, permission);
      assert grants == grants[..n] + [grants[n]];
    }
  }

  lemma {:induction false} RolesExactly(
      links: seq<(UserId, RoleId)>, roles: seq<RoleRow>, grants: seq<(RoleId, PermissionId)>,
      permissions: seq<Permission>, u: UserId, role: Role)
    ensures role in RolesOf(links, roles, grants, permissions, u) <==>
              exists r: RoleId :: (u, r) in links && BuildRole(roles, grants, permissions, r) == Some(role)
    decreases |links|
  {
    if links != [] {
      var n := |links| - 1;
      RolesExactly(links[..n], roles, grants, permissions, u, role);
      assert links == links[..n] + [links[n]];
    }
  }

  /** The permission is stored and granted to the role. */
  ghost predicate Granted(db: Db, r: RoleId, permission: Permission) {
    permission in db.permissions && (r, permission.id) in db.rolePermissions
    && FindPermission(db.permissions, permission.id) == Some(permission)
  }

  /** A loaded role is the stored one, with exactly the permissions granted to it. */
  lemma RoleLoaded(db: Db, r: RoleId)
    ensures LoadRole(db, r).Some? <==> RoleExists(db, r)
    ensures var role := LoadRole(db, r);
            role.Some? ==>
              && role.value.id == r && RoleRow(r, role.value.name, role.value.description) in db.roles
              && forall permission :: permission in role.value.permissions <==> Granted(db, r, permission)
  {
    var role := LoadRole(db, r);
    if role.Some? {
      assert FindRole(db.roles, r).value == RoleRow(r, role.value.name, role.value.description);
      forall permission ensures permission in role.value.permissions <==> Granted(db, r, permission) {
        PermissionsExactly(db.rolePermissions, db.permissions, r, permission);
      }
    }
  }

  /** A loaded user is the stored row with exactly the roles it is linked to. */
  lemma UserLoaded(db: Db, u: UserId)
    ensures LoadUser(db, u).Some? <==> u < |db.users|
    ensures var user := LoadUser(db, u);
            user.Some? ==>
              && user.value.id == u && user.value.row == db.users[u]
              && forall role :: role in user.value.roles <==>
                   exists r: RoleId :: (u, r) in db.userRoles && LoadRole(db, r) == Some(role)
  {
    if u < |db.users| {
      forall role ensures role in LoadUser(db, u).value.roles <==>
          exists r: RoleId :: (u, r) in db.userRoles && LoadRole(db, r) == Some(role)
      {
        RolesExactly(db.userRoles, db.roles, db.rolePermissions, db.permissions, u, role);
      }
    }
  }

  // ---------------------------------------------------------------- links stay owned

  lemma UserLinksOnly(cfg: Config, db: Db, a: Action, t: Time)
    requires !EditsRoles(a) && !a.DoRegister?
    ensures After(cfg, db, a, t).userRoles == db.userRoles
    ensures |After(cfg, db, a, t).users| == |db.users|
  {
    if EditsSessions(a) {
      SessionEdits(cfg, db, a, t);
    }
  }

  lemma AssignKeepsOwned(db: Db, u: UserId, r: RoleId)
    requires LinksOwned(db.users, db.userRoles)
    ensures LinksOwned(db.users, AssignRole(db, u, r).0.userRoles)
  {
  }

  lemma RevokeKeepsOwned(db: Db, u: UserId, r: RoleId)
    requires LinksOwned(db.users, db.userRoles)
    ensures LinksOwned(db.users, RevokeRole(db, u, r).0.userRoles)
  {
    DropLinkDrops(db.userRoles, (u, r));
    forall link | link in DropLink(db.userRoles, (u, r)) ensures link in db.userRoles {
      assert link != (u, r);
    }
  }

  lemma DeleteKeepsOwned(db: Db, r: RoleId)
    requires LinksOwned(db.users, db.userRoles)
    ensures LinksOwned(db.users, DeleteRole(db, r).0.userRoles)
  {
    DropSecondDrops(db.userRoles, r);
  }

  lemma RoleEditsKeepLinksOwned(cfg: Config, db: Db, a: Action, t: Time)
    requires EditsRoles(a) && LinksOwned(db.users, db.userRoles)
    ensures var after := After(cfg, db, a, t); LinksOwned(after.users, after.userRoles)
  {
    RoleEdits(cfg, db, a, t);
    match a {
      case DoAssignRole(u, r) => AssignKeepsOwned(db, u, r);
      case DoRevokeRole(u, r) => RevokeKeepsOwned(db, u, r);
      case DoDeleteRole(r) => DeleteKeepsOwned(db, r);
      case _ =>
    }
  }

  lemma StepKeepsLinksOwned(cfg: Config, db: Db, a: Action, t: Time)
    requires LinksOwned(db.users, db.userRoles)
    ensures var after := After(cfg, db, a, t); LinksOwned(after.users, after.userRoles)
  {
    if EditsRoles(a) {
      RoleEditsKeepLinksOwned(cfg, db, a, t);
    } else if !a.DoRegister? {
      UserLinksOnly(cfg, db, a, t);
    }
  }

  lemma LinksOwnedCarries(cfg: Config, states: seq<World>, run: Run, i: nat)
    requires Behaves(cfg, states, run) && i < |run| && LinksOwned(states[i].db.users, states[i].db.userRoles)
    ensures LinksOwned(states[i + 1].db.users, states[i + 1].db.userRoles)
  {
    StepKeepsLinksOwned(cfg, states[i].db, run[i].0, run[i].1);
  }

  /** From a start where every link belongs to an account, every reachable state is like that. */
  lemma {:induction false} LinksStayOwned(cfg: Config, states: seq<World>, run: Run, k: nat)
    requires Behaves(cfg, states, run) && k <= |run| && LinksOwned(states[0].db.users, states[0].db.userRoles)
    ensures LinksOwned(states[k].db.users, states[k].db.userRoles)
  {
    if k > 0 {
      LinksStayOwned(cfg, states, run, k - 1);
      LinksOwnedCarries(cfg, states, run, k - 1);
    }
  }
}
