/**
 * The cache against the database. With the cache delete taken as part of its use case, the cache
 * is invisible as long as no role-level edit runs; and exactly when such an edit makes it visible.
 */
module CacheRefinement {
  import opened Wrappers
  import opened Entities
  import opened Tables
  import opened Transactions
  import opened UserCache
  import opened CachedAuthentication
  import opened World

  /** The user whose entry the use case deletes after its commit. */
  function Dropped(cfg: Config, db: Db, a: Action, t: Time): Option<UserId> {
    match a
    case DoChangePassword(u, current, next, repeat, hash, device) =>
      if ChangePassword(cfg, db, u, current, next, repeat, hash, device, t).1.Success? then Some(u) else None
    case DoReset(presented, password, repeat, hash, device) =>
      var reply := ResetPassword(cfg, db, presented, password, repeat, hash, device, t).1;
      if reply.Success? then Some(reply.value) else None
    case DoVerify(presented, device) =>
      var reply := VerifyEmail(cfg, db, presented, device, t).1;
      if reply.Success? then Some(reply.value.id) else None
    case DoUpdate(u, edit, secret) => if UpdateUser(cfg, db, u, edit, secret, t).1.Success? then Some(u) else None
    case DoBan(actor, u, reason, device) => DroppedBy(Ban(db, actor, u, reason, device, t).1, u)
    case DoUnban(actor, u, device) => DroppedBy(Unban(db, actor, u, device, t).1, u)
    case DoDelete(u, device) => if DeleteUser(db, u, device, t).1.Success? then Some(u) else None
    case DoAssignRole(u, r) => if AssignRole(db, u, r).1.Success? then Some(u) else None
    case DoRevokeRole(u, r) => if RevokeRole(db, u, r).1.Success? then Some(u) else None
    case _ => None
  }

  function DroppedBy(reply: Result<Moderation, AppError>, u: UserId): Option<UserId> {
    if reply.Success? && reply.value.Changed? then Some(u) else None
  }

  function Evict(entries: Entries, u: Option<UserId>): Entries {
    if u.None? then entries else entries - {Key(u.value)}
  }

  predicate IsRoleLevel(a: Action) {
    a.DoGrantPermission? || a.DoRevokePermission? || a.DoDeleteRole?
  }

  // ---------------------------------------------------------------- agreement

  /** The cache holds a visible entry for the user. */
  predicate Visible(entries: Entries, u: UserId, now: Time) {
    Cached(entries, Key(u), now).Some?
  }

  /** A visible entry reads back as the user the database would load. */
  predicate EntryFresh(format: TimeFormat, db: Db, entries: Entries, now: Time, u: UserId) {
    Visible(entries, u, now) ==>
      u < |db.users| && Loads(format, Cached(entries, Key(u), now).value) == LoadUser(db, u)
  }

  ghost predicate Fresh(format: TimeFormat, db: Db, entries: Entries, now: Time) {
    forall u: UserId :: EntryFresh(format, db, entries, now, u)
  }

  // ---------------------------------------------------------------- what an action changes

  lemma {:induction false} OthersLink(
      links: seq<(UserId, RoleId)>, roles: seq<RoleRow>, grants: seq<(RoleId, PermissionId)>,
      permissions: seq<Permission>, link: (UserId, RoleId), u: UserId)
    requires link.0 != u
    ensures RolesOf(AddLink(links, link), roles, grants, permissions, u) ==
        RolesOf(links, roles, grants, permissions, u)
    ensures RolesOf(DropLink(links, link), roles, grants, permissions, u) ==
        RolesOf(links, roles, grants, permissions, u)
  {
    assert (links + [link])[..|links|] == links;
    if links != [] {
      var n := |links| - 1;
      OthersLink(links[..n], roles, grants, permissions, link, u);
      if links[n] != link {
        assert DropLink(links, link)[..|DropLink(links[..n], link)|] == DropLink(links[..n], link);
      } else {
        assert DropLink(links, link) == DropLink(links[..n], link);
        assert RolesOf(links, roles, grants, permissions, u) == RolesOf(links[..n], roles, grants, permissions, u);
      }
    }
  }

  /** A user-level role edit rewrites the links of the user whose key it deletes, or nothing. */
  lemma RoleLinkShape(cfg: Config, db: Db, a: Action, t: Time)
    requires a.DoAssignRole? || a.DoRevokeRole?
    ensures var after, link := After(cfg, db, a, t), (a.user, a.role);
            if Dropped(cfg, db, a, t).None? then after == db
            else
              && Dropped(cfg, db, a, t) == Some(a.user)
              && after == db.(userRoles := if a.DoAssignRole? then AddLink(db.userRoles, link)
                  else DropLink(db.userRoles, link))
  {
  }

  lemma LinkView(db: Db, links: seq<(UserId, RoleId)>, u: UserId)
    requires RolesOf(links, db.roles, db.rolePermissions, db.permissions, u)
          == RolesOf(db.userRoles, db.roles, db.rolePermissions, db.permissions, u)
    ensures LoadUser(db.(userRoles := links), u) == LoadUser(db, u)
  {
  }

  lemma RoleLinkView(cfg: Config, db: Db, a: Action, t: Time, u: UserId)
    requires a.DoAssignRole? || a.DoRevokeRole?
    requires Dropped(cfg, db, a, t) != Some(u)
    ensures LoadUser(After(cfg, db, a, t), u) == LoadUser(db, u)
  {
    RoleLinkShape(cfg, db, a, t);
    if Dropped(cfg, db, a, t).Some? {
      OthersLink(db.userRoles, db.roles, db.rolePermissions, db.permissions, (a.user, a.role), u);
      LinkView(db, After(cfg, db, a, t).userRoles, u);
    }
  }

  lemma RegisterView(cfg: Config, db: Db, a: Action, t: Time, u: UserId)
    requires a.DoRegister? && u < |db.users|
    ensures LoadUser(After(cfg, db, a, t), u) == LoadUser(db, u)
  {
    var role := FindRoleName(db.roles, cfg.defaultRole);
    if role.Some? {
      OthersLink(db.userRoles, db.roles, db.rolePermissions, db.permissions, (|db.users|, role.value.id), u);
    }
  }

  /** The remaining actions touch neither roles nor links, and rewrite at most the row they evict. */
  lemma RowView(cfg: Config, db: Db, a: Action, t: Time, u: UserId)
    requires !a.DoRegister? && !a.DoAssignRole? && !a.DoRevokeRole? && !IsRoleLevel(a)
    requires u < |db.users| && Dropped(cfg, db, a, t) != Some(u)
    ensures LoadUser(After(cfg, db, a, t), u) == LoadUser(db, u)
  {
    if a.DoUpdate? || a.DoVerify? || a.DoForgot? || a.DoReset? || a.DoChangePassword? {
      AccountRowView(cfg, db, a, t, u);
    } else {
      SessionRowView(cfg, db, a, t, u);
    }
  }

  lemma AccountRowView(cfg: Config, db: Db, a: Action, t: Time, u: UserId)
    requires a.DoUpdate? || a.DoVerify? || a.DoForgot? || a.DoReset? || a.DoChangePassword?
    requires u < |db.users| && Dropped(cfg, db, a, t) != Some(u)
    ensures LoadUser(After(cfg, db, a, t), u) == LoadUser(db, u)
  {
  }

  lemma SessionRowView(cfg: Config, db: Db, a: Action, t: Time, u: UserId)
    requires a.DoLogin? || a.DoRefresh? || a.DoLogout? || a.DoRevokeOne? || a.DoRevokeAll? || a.DoBan? || a.DoUnban? ||
        a.DoDelete?
    requires u < |db.users| && Dropped(cfg, db, a, t) != Some(u)
    ensures LoadUser(After(cfg, db, a, t), u) == LoadUser(db, u)
  {
  }

  /** Outside role-level edits, an action changes no user but the one it evicts. */
  lemma ViewKept(cfg: Config, db: Db, a: Action, t: Time, u: UserId)
    requires !IsRoleLevel(a) && u < |db.users| && Dropped(cfg, db, a, t) != Some(u)
    ensures LoadUser(After(cfg, db, a, t), u) == LoadUser(db, u)
  {
    if a.DoRegister? {
      RegisterView(cfg, db, a, t, u);
    } else if a.DoAssignRole? || a.DoRevokeRole? {
      RoleLinkView(cfg, db, a, t, u);
    } else {
      RowView(cfg, db, a, t, u);
    }
  }

  lemma ActKeepsFresh(cfg: Config, format: TimeFormat, db: Db, entries: Entries, a: Action, t: Time)
    requires Fresh(format, db, entries, t) && !IsRoleLevel(a)
    ensures Fresh(format, After(cfg, db, a, t), Evict(entries, Dropped(cfg, db, a, t)), t)
  {
    var dropped := Dropped(cfg, db, a, t);
    var after, left := After(cfg, db, a, t), Evict(entries, dropped);
    forall u: UserId ensures EntryFresh(format, after, left, t, u) {
      assert EntryFresh(format, db, entries, t, u);
      if Visible(left, u, t) {
        assert dropped != Some(u);
        ViewKept(cfg, db, a, t, u);
        assert LoadUser(db, u).Some?;
        assert LoadUser(after, u).Some?;
      }
    }
  }

  lemma FreshLater(format: TimeFormat, db: Db, entries: Entries, now: Time, later: Time)
    requires Fresh(format, db, entries, now) && now <= later
    ensures Fresh(format, db, entries, later)
  {
    forall u: UserId ensures EntryFresh(format, db, entries, later, u) {
      assert EntryFresh(format, db, entries, now, u);
    }
  }

  /** Asking fills the cache with what the database holds, and answers as the database would. */
  lemma AskIsTransparent(format: TimeFormat, db: Db, entries: Entries, ttlSeconds: nat, token: Bearer, t: Time)
    requires Fresh(format, db, entries, t) && Inverts(format)
    ensures AuthenticateCached(format, db, entries, ttlSeconds, token, t).0 == Authenticate(db, token, t)
    ensures Fresh(format, db, AuthenticateCached(format, db, entries, ttlSeconds, token, t).1, t)
  {
    var after := AuthenticateCached(format, db, entries, ttlSeconds, token, t).1;
    if token.Signed? {
      assert EntryFresh(format, db, entries, t, token.claims.sub);
    }
    forall u: UserId ensures EntryFresh(format, db, after, t, u) {
      assert EntryFresh(format, db, entries, t, u);
      if after != entries {
        var v := token.claims.sub;
        CodecRoundTrip(format, LoadUser(db, v).value);
        if Key(u) == Key(v) {
          KeyInjective(u, v);
        }
      }
    }
  }

  // ---------------------------------------------------------------- runs

  datatype Event = Act(action: Action) | Ask(token: Bearer)

  datatype System = System(world: World, entries: Entries)

  function Next(cfg: Config, format: TimeFormat, ttlSeconds: nat, s: System, e: Event, t: Time): System {
    match e
    case Act(a) => System(Step(cfg, s.world, a, t), Evict(s.entries, Dropped(cfg, s.world.db, a, t)))
    case Ask(token) =>
      System(s.world.(now := t), AuthenticateCached(format, s.world.db, s.entries, ttlSeconds, token, t).1)
  }

  /** The replies of the authentications of a run, in order. */
  function Replies(
      cfg: Config, format: TimeFormat, ttlSeconds: nat, s: System, run: seq<(Event, Time)>)
    : seq<Result<User, AppError>>
    decreases |run|
  {
    if run == [] then []
    else
      var (e, t) := run[0];
      (if e.Ask? then [AuthenticateCached(format, s.world.db, s.entries, ttlSeconds, e.token, t).0] else [])
      + Replies(cfg, format, ttlSeconds, Next(cfg, format, ttlSeconds, s, e, t), run[1..])
  }

  /** The replies the database alone would give in the same run. */
  function DirectReplies(cfg: Config, w: World, run: seq<(Event, Time)>): seq<Result<User, AppError>>
    decreases |run|
  {
    if run == [] then []
    else
      match run[0].0
      case Act(a) => DirectReplies(cfg, Step(cfg, w, a, run[0].1), run[1..])
      case Ask(token) => [Authenticate(w.db, token, run[0].1)] + DirectReplies(cfg, w.(now := run[0].1), run[1..])
  }

  predicate Orderly(run: seq<(Event, Time)>, start: Time)
    decreases |run|
  {
    run == [] || (start <= run[0].1 && Orderly(run[1..], run[0].1))
  }

  // ---------------------------------------------------------------- role-level edits

  /** The edit goes through and changes what the role grants, or removes the role. */
  predicate Effective(db: Db, a: Action)
    requires IsRoleLevel(a)
  {
    && FindRole(db.roles, a.role).Some?
    && match a
       case DoGrantPermission(r, p) => FindPermission(db.permissions, p).Some? && (r, p) !in db.rolePermissions
       case DoRevokePermission(r, p) => FindPermission(db.permissions, p).Some? && (r, p) in db.rolePermissions
       case _ => true
  }

  lemma {:induction false} GrantedTo(
      grants: seq<(RoleId, PermissionId)>, permissions: seq<Permission>, r: RoleId, p: PermissionId)
    ensures var before := |PermissionsOf(grants, permissions, r)|;
            && |PermissionsOf(grants + [(r, p)], permissions, r)| ==
                before + (if FindPermission(permissions, p).Some? then 1 else 0)
            && |PermissionsOf(DropLink(grants, (r, p)), permissions, r)| <= before
            && ((r, p) in grants && FindPermission(permissions, p).Some? ==>
                |PermissionsOf(DropLink(grants, (r, p)), permissions, r)| < before)
            && ((r, p) !in grants || FindPermission(permissions, p).None? ==>
                  PermissionsOf(DropLink(grants, (r, p)), permissions, r) == PermissionsOf(grants, permissions, r))
  {
    assert (grants + [(r, p)])[..|grants|] == grants;
    if grants != [] {
      var n := |grants| - 1;
      GrantedTo(grants[..n], permissions, r, p);
      assert grants == grants[..n] + [grants[n]];
      if grants[n] != (r, p) {
        assert DropLink(grants, (r, p))[..|DropLink(grants[..n], (r, p))|] == DropLink(grants[..n], (r, p));
      } else {
        assert DropLink(grants, (r, p)) == DropLink(grants[..n], (r, p));
        if FindPermission(permissions, p).None? {
          assert PermissionsOf(grants, permissions, r) == PermissionsOf(grants[..n], permissions, r);
        }
      }
    }
  }

  lemma {:induction false} GrantedElsewhere(
      grants: seq<(RoleId, PermissionId)>, permissions: seq<Permission>, r: RoleId, p: PermissionId, other: RoleId)
    requires other != r
    ensures PermissionsOf(grants + [(r, p)], permissions, other) == PermissionsOf(grants, permissions, other)
    ensures PermissionsOf(DropLink(grants, (r, p)), permissions, other) == PermissionsOf(grants, permissions, other)
  {
    assert (grants + [(r, p)])[..|grants|] == grants;
    if grants != [] {
      var n := |grants| - 1;
      GrantedElsewhere(grants[..n], permissions, r, p, other);
      if grants[n] != (r, p) {
        assert DropLink(grants, (r, p))[..|DropLink(grants[..n], (r, p))|] == DropLink(grants[..n], (r, p));
      } else {
        assert DropLink(grants, (r, p)) == DropLink(grants[..n], (r, p));
      }
    }
  }

  lemma {:induction false} GrantsOfOthers(
      grants: seq<(RoleId, PermissionId)>, permissions: seq<Permission>, r: RoleId, other: RoleId)
    requires other != r
    ensures PermissionsOf(DropFirst(grants, r), permissions, other) == PermissionsOf(grants, permissions, other)
  {
    if grants != [] {
      var n := |grants| - 1;
      GrantsOfOthers(grants[..n], permissions, r, other);
      if grants[n].0 != r {
        assert DropFirst(grants, r)[..|DropFirst(grants[..n], r)|] == DropFirst(grants[..n], r);
      } else {
        assert DropFirst(grants, r) == DropFirst(grants[..n], r);
      }
    }
  }

  /** Two grant tables that build every role alike except `r`, which they build differently. */
  ghost predicate DifferOnlyOn(
      roles: seq<RoleRow>, before: seq<(RoleId, PermissionId)>, after: seq<(RoleId, PermissionId)>,
      permissions: seq<Permission>, r: RoleId)
  {
    && PermissionsOf(before, permissions, r) != PermissionsOf(after, permissions, r)
    && forall other: RoleId ::
        other != r ==> PermissionsOf(before, permissions, other) == PermissionsOf(after, permissions, other)
  }

  lemma SplitEqual<T>(a: seq<T>, b: seq<T>, c: seq<T>, d: seq<T>)
    requires |a| == |b| && a + c == b + d
    ensures a == b && c == d
  {
    assert a == (a + c)[..|a|] && b == (b + d)[..|b|];
    assert c == (a + c)[|a|..] && d == (b + d)[|b|..];
  }

  /** A user's loaded roles then differ exactly when the user holds `r`. */
  lemma {:induction false} HoldersDiffer(
      links: seq<(UserId, RoleId)>, roles: seq<RoleRow>, before: seq<(RoleId, PermissionId)>,
      after: seq<(RoleId, PermissionId)>, permissions: seq<Permission>, r: RoleId, u: UserId)
    requires FindRole(roles, r).Some? && DifferOnlyOn(roles, before, after, permissions, r)
    ensures |RolesOf(links, roles, before, permissions, u)| == |RolesOf(links, roles, after, permissions, u)|
    ensures RolesOf(links, roles, before, permissions, u) != RolesOf(links, roles, after, permissions, u) <==>
        (u, r) in links
  {
    if links != [] {
      var n := |links| - 1;
      HoldersDiffer(links[..n], roles, before, after, permissions, r, u);
      assert links == links[..n] + [links[n]];
      var front, front' := RolesOf(links[..n], roles, before, permissions, u),
          RolesOf(links[..n], roles, after, permissions, u);
      var role, role' := BuildRole(roles, before, permissions, links[n].1),
          BuildRole(roles, after, permissions, links[n].1);
      if links[n].0 == u && role.Some? {
        assert role != role' <==> links[n].1 == r;
        if front + [role.value] == front' + [role'.value] {
          SplitEqual(front, front', [role.value], [role'.value]);
        }
      } else {
        assert front + [] == front && front' + [] == front';
      }
    }
  }

  lemma {:induction false} RoleDropped(roles: seq<RoleRow>, r: RoleId, other: RoleId)
    ensures FindRole(DropRole(roles, r), other) == if other == r then None else FindRole(roles, other)
  {
    if roles != [] {
      RoleDropped(roles[1..], r, other);
      if roles[0].id != r {
        assert DropRole(roles, r)[1..] == DropRole(roles[1..], r);
      }
    }
  }

  lemma OtherRolesKept(
      roles: seq<RoleRow>, grants: seq<(RoleId, PermissionId)>, permissions: seq<Permission>, r: RoleId, other: RoleId)
    requires other != r
    ensures BuildRole(DropRole(roles, r), DropFirst(grants, r), permissions, other) ==
        BuildRole(roles, grants, permissions, other)
  {
    RoleDropped(roles, r, other);
    GrantsOfOthers(grants, permissions, r, other);
  }

  /** Without the role, its holders load fewer roles and everyone else the same. */
  predicate Loses(
    links: seq<(UserId, RoleId)>, roles: seq<RoleRow>, grants: seq<(RoleId, PermissionId)>,
    permissions: seq<Permission>,
    r: RoleId, u: UserId)
  {
    var after := RolesOf(DropSecond(links, r), DropRole(roles, r), DropFirst(grants, r), permissions, u);
    var before := RolesOf(links, roles, grants, permissions, u);
    if (u, r) in links then |after| < |before| else after == before
  }

  lemma DroppedLink(
    links: seq<(UserId, RoleId)>, roles: seq<RoleRow>, grants: seq<(RoleId, PermissionId)>,
    permissions: seq<Permission>,
    link: (UserId, RoleId), u: UserId)
    requires FindRole(roles, link.1).Some? && Loses(links, roles, grants, permissions, link.1, u)
    ensures Loses(links + [link], roles, grants, permissions, link.1, u)
  {
    var r := link.1;
    assert (links + [link])[..|links|] == links;
    assert DropSecond(links + [link], r) == DropSecond(links, r);
  }

  lemma KeptLink(
    links: seq<(UserId, RoleId)>, roles: seq<RoleRow>, grants: seq<(RoleId, PermissionId)>,
    permissions: seq<Permission>,
    link: (UserId, RoleId), r: RoleId, u: UserId)
    requires link.1 != r && Loses(links, roles, grants, permissions, r, u)
    ensures Loses(links + [link], roles, grants, permissions, r, u)
  {
    var kept := DropSecond(links, r);
    assert (links + [link])[..|links|] == links;
    assert DropSecond(links + [link], r) == kept + [link] && (kept + [link])[..|kept|] == kept;
    OtherRolesKept(roles, grants, permissions, r, link.1);
  }

  /** Dropping a role takes exactly its holders' copies of it. */
  lemma {:induction false} HoldersLose(
    links: seq<(UserId, RoleId)>, roles: seq<RoleRow>, grants: seq<(RoleId, PermissionId)>,
    permissions: seq<Permission>,
    r: RoleId, u: UserId)
    requires FindRole(roles, r).Some?
    ensures Loses(links, roles, grants, permissions, r, u)
  {
    if links != [] {
      var n := |links| - 1;
      HoldersLose(links[..n], roles, grants, permissions, r, u);
      assert links == links[..n] + [links[n]];
      if links[n].1 == r {
        DroppedLink(links[..n], roles, grants, permissions, links[n], u);
      } else {
        KeptLink(links[..n], roles, grants, permissions, links[n], r, u);
      }
    }
  }

  lemma UnchangedGrants(db: Db, a: Action)
    requires IsRoleLevel(a) && !Effective(db, a)
    ensures a.DoGrantPermission? ==> GrantPermission(db, a.role, a.permission).0 == db
    ensures a.DoDeleteRole? ==> DeleteRole(db, a.role).0 == db
    ensures a.DoRevokePermission? ==> forall other: RoleId ::
              PermissionsOf(RevokePermission(db, a.role, a.permission).0.rolePermissions, db.permissions, other)
                == PermissionsOf(db.rolePermissions, db.permissions, other)
  {
    if a.DoRevokePermission? {
      forall other: RoleId
        ensures PermissionsOf(RevokePermission(db, a.role, a.permission).0.rolePermissions, db.permissions, other)
                == PermissionsOf(db.rolePermissions, db.permissions, other) {
        if other == a.role {
          GrantedTo(db.rolePermissions, db.permissions, a.role, a.permission);
        } else {
          GrantedElsewhere(db.rolePermissions, db.permissions, a.role, a.permission, other);
        }
      }
    }
  }

  lemma {:induction false} SameRoles(
      links: seq<(UserId, RoleId)>, roles: seq<RoleRow>, before: seq<(RoleId, PermissionId)>,
      after: seq<(RoleId, PermissionId)>, permissions: seq<Permission>, u: UserId)
    requires forall r: RoleId :: PermissionsOf(after, permissions, r) == PermissionsOf(before, permissions, r)
    ensures RolesOf(links, roles, after, permissions, u) == RolesOf(links, roles, before, permissions, u)
  {
    if links != [] {
      SameRoles(links[..|links| - 1], roles, before, after, permissions, u);
    }
  }

  lemma EffectiveGrantsDiffer(db: Db, a: Action)
    requires (a.DoGrantPermission? || a.DoRevokePermission?) && Effective(db, a)
    ensures var after := if a.DoGrantPermission? then GrantPermission(db, a.role, a.permission).0
        else RevokePermission(db, a.role, a.permission).0;
            after == db.(rolePermissions := after.rolePermissions)
            && DifferOnlyOn(db.roles, db.rolePermissions, after.rolePermissions, db.permissions, a.role)
  {
    GrantedTo(db.rolePermissions, db.permissions, a.role, a.permission);
    forall other: RoleId | other != a.role
      ensures PermissionsOf(AddLink(db.rolePermissions, (a.role, a.permission)), db.permissions, other) ==
          PermissionsOf(db.rolePermissions, db.permissions, other)
      ensures PermissionsOf(DropLink(db.rolePermissions, (a.role, a.permission)), db.permissions, other) ==
          PermissionsOf(db.rolePermissions, db.permissions, other)
    {
      GrantedElsewhere(db.rolePermissions, db.permissions, a.role, a.permission, other);
    }
  }

  /** A role-level edit changes a user exactly when it is effective and the user holds the role. */
  lemma RoleEditChanges(cfg: Config, db: Db, a: Action, t: Time, u: UserId)
    requires IsRoleLevel(a) && u < |db.users|
    ensures LoadUser(After(cfg, db, a, t), u) != LoadUser(db, u) <==> Effective(db, a) && (u, a.role) in db.userRoles
  {
    var after := After(cfg, db, a, t);
    if a.DoDeleteRole? {
      if Effective(db, a) {
        HoldersLose(db.userRoles, db.roles, db.rolePermissions, db.permissions, a.role, u);
      }
    } else if Effective(db, a) {
      EffectiveGrantsDiffer(db, a);
      HoldersDiffer(db.userRoles, db.roles, db.rolePermissions, after.rolePermissions, db.permissions, a.role, u);
    } else {
      UnchangedGrants(db, a);
      SameRoles(db.userRoles, db.roles, db.rolePermissions, after.rolePermissions, db.permissions, u);
    }
  }

  /** The role-level edit changes nothing, or no holder of the role has a visible entry. */
  ghost predicate Harmless(db: Db, entries: Entries, a: Action, t: Time)
    requires IsRoleLevel(a)
  {
    Effective(db, a) ==> forall u: UserId :: Visible(entries, u, t) ==> (u, a.role) !in db.userRoles
  }

  /**
   * A role-level edit evicts nothing. It leaves the cache in agreement with the database if and
   * only if it changes nothing or no holder of the role has a visible entry.
   */
  lemma RoleEditFreshness(cfg: Config, format: TimeFormat, db: Db, entries: Entries, a: Action, t: Time)
    requires IsRoleLevel(a) && Fresh(format, db, entries, t)
    ensures Dropped(cfg, db, a, t).None?
    ensures Fresh(format, After(cfg, db, a, t), entries, t) <==> Harmless(db, entries, a, t)
  {
    var after := After(cfg, db, a, t);
    assert after.users == db.users;
    forall u: UserId | Visible(entries, u, t)
      ensures u < |db.users| &&
          (EntryFresh(format, after, entries, t, u) <==> !(Effective(db, a) && (u, a.role) in db.userRoles))
    {
      assert EntryFresh(format, db, entries, t, u);
      RoleEditChanges(cfg, db, a, t, u);
    }
    if Fresh(format, after, entries, t) {
      forall u: UserId | Visible(entries, u, t) && Effective(db, a) ensures (u, a.role) !in db.userRoles {
        assert EntryFresh(format, after, entries, t, u);
      }
    }
  }

  // ---------------------------------------------------------------- the theorem

  ghost predicate HarmlessRun(cfg: Config, format: TimeFormat, ttlSeconds: nat, s: System, run: seq<(Event, Time)>)
    decreases |run|
  {
    run == [] ||
    (var (e, t) := run[0];
     && (e.Act? && IsRoleLevel(e.action) ==> Harmless(s.world.db, s.entries, e.action, t))
     && HarmlessRun(cfg, format, ttlSeconds, Next(cfg, format, ttlSeconds, s, e, t), run[1..]))
  }

  /**
   * Authenticating through the cache gives exactly the replies that authenticating against the
   * database gives, on every run whose role-level edits are harmless when they happen.
   */
  lemma {:induction false} CacheIsTransparent(
      cfg: Config, format: TimeFormat, ttlSeconds: nat, s: System, run: seq<(Event, Time)>)
    requires Inverts(format) && Fresh(format, s.world.db, s.entries, s.world.now) && Orderly(run, s.world.now)
    requires HarmlessRun(cfg, format, ttlSeconds, s, run)
    ensures Replies(cfg, format, ttlSeconds, s, run) == DirectReplies(cfg, s.world, run)
    decreases |run|
  {
    if run != [] {
      var (e, t) := run[0];
      FreshLater(format, s.world.db, s.entries, s.world.now, t);
      match e {
        case Act(a) =>
          if IsRoleLevel(a) {
            RoleEditFreshness(cfg, format, s.world.db, s.entries, a, t);
          } else {
            ActKeepsFresh(cfg, format, s.world.db, s.entries, a, t);
          }
        case Ask(token) => AskIsTransparent(format, s.world.db, s.entries, ttlSeconds, token, t);
      }
      CacheIsTransparent(cfg, format, ttlSeconds, Next(cfg, format, ttlSeconds, s, e, t), run[1..]);
    }
  }

  /** In particular on every run without role-level edits, from a cold cache. */
  lemma {:induction false} UserLevelRunsAreHarmless(
      cfg: Config, format: TimeFormat, ttlSeconds: nat, s: System, run: seq<(Event, Time)>)
    requires forall i :: 0 <= i < |run| && run[i].0.Act? ==> !IsRoleLevel(run[i].0.action)
    ensures HarmlessRun(cfg, format, ttlSeconds, s, run)
    decreases |run|
  {
    if run != [] {
      UserLevelRunsAreHarmless(cfg, format, ttlSeconds, Next(cfg, format, ttlSeconds, s, run[0].0, run[0].1), run[1..]);
    }
  }

  // ---------------------------------------------------------------- where it fails

  /** The database accepts the token: signed, unexpired, of a valid session and an active user. */
  predicate Accepted(db: Db, token: Bearer, t: Time) {
    Authenticate(db, token, t).Success?
  }

  /**
   * After a role-level edit the reply to an accepted token is stale if and only if the edit is
   * effective, its bearer holds the role and the bearer's entry is visible.
   */
  lemma StaleReply(
      cfg: Config, format: TimeFormat, ttlSeconds: nat, db: Db, entries: Entries, a: Action, token: Bearer, t: Time)
    requires IsRoleLevel(a) && Inverts(format) && Fresh(format, db, entries, t) && Accepted(db, token, t)
    ensures var after := After(cfg, db, a, t);
            && Accepted(after, token, t)
            && (AuthenticateCached(format, after, entries, ttlSeconds, token, t).0 != Authenticate(after, token, t) <==>
                  Effective(db, a) && (token.claims.sub, a.role) in db.userRoles &&
                      Visible(entries, token.claims.sub, t))
  {
    var u, after := token.claims.sub, After(cfg, db, a, t);
    assert after.users == db.users && after.sessions == db.sessions;
    assert EntryFresh(format, db, entries, t, u);
    RoleEditChanges(cfg, db, a, t, u);
  }

  // One user holding one role, one live session, and one permission that may be granted to the role.

  const READ: Permission := Permission(0, "books", "read", None)
  const READER: UserRow := UserRow("a@b", "a", "", None, true, false, None, None, 0, 0)
  const READER_TOKEN: Bearer := Signed(Claims(0, "j", Access, 1))

  function Library(grants: seq<(RoleId, PermissionId)>): Db {
    Db([READER], [SessionRow(0, "j", 0, SECOND, None, Device(None, None, None, None), 0)], [], [],
       [RoleRow(0, "reader", None)], [READ], [(0, 0)], grants)
  }

  lemma LibraryUser(grants: seq<(RoleId, PermissionId)>)
    ensures LoadUser(Library(grants), 0) ==
        Some(User(0, READER, [Role(0, "reader", None, PermissionsOf(grants, [READ], 0))]))
  {
    var db := Library(grants);
    var role := BuildRole(db.roles, grants, db.permissions, 0);
    assert role == Some(Role(0, "reader", None, PermissionsOf(grants, [READ], 0)));
    assert db.userRoles[..0] == [];
    assert RolesOf([], db.roles, grants, db.permissions, 0) == [];
    assert RolesOf(db.userRoles, db.roles, grants, db.permissions, 0) == [role.value];
    assert LoadUser(db, 0) == Some(User(0, db.users[0], [role.value]));
  }

  lemma LibrarySession(grants: seq<(RoleId, PermissionId)>)
    ensures SessionAccepts(Library(grants), READER_TOKEN.claims, 0)
    ensures Decode(READER_TOKEN, 0).Success?
  {
    assert FindJti(Library(grants).sessions, "j") == Some(0);
  }

  lemma GrantedInLibrary(cfg: Config)
    ensures After(cfg, Library([]), DoGrantPermission(0, 0), 0) == Library([(0, 0)])
    ensures PermissionsOf([(0, 0)], [READ], 0) == [READ]
  {
    assert FindRole(Library([]).roles, 0).Some? && FindPermission([READ], 0) == Some(READ);
    assert [(0, 0)][..0] == [];
    assert PermissionsOf([], [READ], 0) == [];
  }

  /** A permission granted to the role of a user who was just authenticated is not seen. */
  lemma GrantNotSeen(cfg: Config, format: TimeFormat)
    requires Inverts(format)
    ensures var entries := AuthenticateCached(format, Library([]), map[], 60, READER_TOKEN, 0).1;
            var after := After(cfg, Library([]), DoGrantPermission(0, 0), 0);
            && AuthenticateCached(format, after, entries, 60, READER_TOKEN, 0).0 ==
                Success(User(0, READER, [Role(0, "reader", None, [])]))
            && Authenticate(after, READER_TOKEN, 0) == Success(User(0, READER, [Role(0, "reader", None, [READ])]))
  {
    LibraryUser([]);
    LibrarySession([]);
    GrantedInLibrary(cfg);
    LibraryUser([(0, 0)]);
    LibrarySession([(0, 0)]);
    CodecRoundTrip(format, LoadUser(Library([]), 0).value);
  }
}
