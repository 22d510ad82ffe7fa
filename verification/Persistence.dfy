/**
 * The database, one open transaction over it, the repositories and the unit of work.
 *
 * Any repository call and any commit may fail; `DatabaseFault` is what the caller then sees. The
 * working copy is private to the transaction and only a successful commit writes the store.
 */
module Persistence {
  import opened Wrappers
  import opened Entities
  import opened Tables

  type Effect = Outcome<AppError>

  /** The committed database. */
  class Store {
    var db: Db

    constructor (db: Db)
      ensures this.db == db
    {
      this.db := db;
    }
  }

  /** One transaction: a working copy of the store. */
  class Transaction {
    const store: Store
    var db: Db

    constructor (store: Store)
      ensures this.store == store && db == store.db
    {
      this.store := store;
      db := store.db;
    }

    method Commit() returns (r: Effect)
      modifies store
      ensures r == Done || r == Raised(DatabaseFault)
      ensures store.db == if r.Done? then db else old(store.db)
    {
      if * {
        return Raised(DatabaseFault);
      }
      store.db := db;
      r := Done;
    }

    method Rollback()
      modifies this
      ensures db == store.db
    {
      db := store.db;
    }
  }

  /** A stored session or token together with its id. */
  datatype Stored<T> = Stored(id: nat, row: T)

  function At<T>(rows: seq<T>, found: Option<nat>): (r: Option<Stored<T>>)
    requires found.Some? ==> found.value < |rows|
    ensures r.Some? <==> found.Some?
    ensures r.Some? ==> r.value.id == found.value && r.value.row == rows[found.value]
  {
    if found.None? then None else Some(Stored(found.value, rows[found.value]))
  }

  function LoadFound(db: Db, found: Option<UserId>): Option<User> {
    if found.None? then None else LoadUser(db, found.value)
  }

  class UserRepository {
    const tx: Transaction

    constructor (tx: Transaction)
      ensures this.tx == tx
    {
      this.tx := tx;
    }

    method Add(row: UserRow) returns (r: Result<User, AppError>)
      modifies tx
      ensures r.Failure? ==> r.error == DatabaseFault
      ensures r.Success? ==> tx.db == old(tx.db).(users := old(tx.db.users) + [row])
      ensures r.Success? ==> r.value.id == |old(tx.db.users)| && r.value.row == row
    {
      if * {
        return Failure(DatabaseFault);
      }
      tx.db := tx.db.(users := tx.db.users + [row]);
      r := Success(LoadUser(tx.db, |tx.db.users| - 1).value);
    }

    method GetById(u: UserId) returns (r: Result<Option<User>, AppError>)
      ensures r.Failure? ==> r.error == DatabaseFault
      ensures r.Success? ==> r.value == LoadUser(tx.db, u)
    {
      if * {
        return Failure(DatabaseFault);
      }
      r := Success(LoadUser(tx.db, u));
    }

    method GetByEmail(email: string) returns (r: Result<Option<User>, AppError>)
      ensures r.Failure? ==> r.error == DatabaseFault
      ensures r.Success? ==> r.value == LoadFound(tx.db, FindEmail(tx.db.users, email))
    {
      if * {
        return Failure(DatabaseFault);
      }
      r := Success(LoadFound(tx.db, FindEmail(tx.db.users, email)));
    }

    method GetByUsername(username: string) returns (r: Result<Option<User>, AppError>)
      ensures r.Failure? ==> r.error == DatabaseFault
      ensures r.Success? ==> r.value == LoadFound(tx.db, FindUsername(tx.db.users, username))
    {
      if * {
        return Failure(DatabaseFault);
      }
      r := Success(LoadFound(tx.db, FindUsername(tx.db.users, username)));
    }

    /** A user that disappeared raises, like any other fault. */
    method Update(user: User, now: Time) returns (r: Result<User, AppError>)
      modifies tx
      ensures r.Failure? ==> r.error == DatabaseFault
      ensures r.Success? ==> user.id < |old(tx.db.users)|
      ensures r.Success? ==> tx.db == old(tx.db).(users := WriteProfile(old(tx.db.users), user.id, user.row, now))
      ensures r.Success? ==> Some(r.value) == LoadUser(tx.db, user.id)
    {
      if user.id >= |tx.db.users| {
        return Failure(DatabaseFault);
      }
      if * {
        return Failure(DatabaseFault);
      }
      tx.db := tx.db.(users := WriteProfile(tx.db.users, user.id, user.row, now));
      r := Success(LoadUser(tx.db, user.id).value);
    }

    method UpdatePassword(user: User, now: Time) returns (r: Effect)
      modifies tx
      ensures r.Raised? ==> r.error == DatabaseFault
      ensures r.Done? ==> user.id < |old(tx.db.users)|
      ensures r.Done? ==>
          tx.db == old(tx.db).(users := WritePassword(old(tx.db.users), user.id, user.row.passwordHash, now))
    {
      if user.id >= |tx.db.users| {
        return Raised(DatabaseFault);
      }
      if * {
        return Raised(DatabaseFault);
      }
      tx.db := tx.db.(users := WritePassword(tx.db.users, user.id, user.row.passwordHash, now));
      r := Done;
    }

    method AssignRole(u: UserId, role: RoleId) returns (r: Effect)
      modifies tx
      ensures r.Raised? ==> r.error == DatabaseFault
      ensures r.Done? ==> tx.db == old(tx.db).(userRoles := AddLink(old(tx.db.userRoles), (u, role)))
    {
      if * {
        return Raised(DatabaseFault);
      }
      if (u, role) !in tx.db.userRoles {
        tx.db := tx.db.(userRoles := tx.db.userRoles + [(u, role)]);
      }
      r := Done;
    }

    method RevokeRole(u: UserId, role: RoleId) returns (r: Effect)
      modifies tx
      ensures r.Raised? ==> r.error == DatabaseFault
      ensures r.Done? ==> tx.db == old(tx.db).(userRoles := DropLink(old(tx.db.userRoles), (u, role)))
    {
      if * {
        return Raised(DatabaseFault);
      }
      tx.db := tx.db.(userRoles := DropLink(tx.db.userRoles, (u, role)));
      r := Done;
    }
  }

  class SessionRepository {
    const tx: Transaction

    constructor (tx: Transaction)
      ensures this.tx == tx
    {
      this.tx := tx;
    }

    method Add(row: SessionRow) returns (r: Effect)
      modifies tx
      ensures r.Raised? ==> r.error == DatabaseFault
      ensures r.Done? ==> tx.db == old(tx.db).(sessions := old(tx.db.sessions) + [row])
    {
      if * {
        return Raised(DatabaseFault);
      }
      tx.db := tx.db.(sessions := tx.db.sessions + [row]);
      r := Done;
    }

    method GetById(id: nat) returns (r: Result<Option<Stored<SessionRow>>, AppError>)
      ensures r.Failure? ==> r.error == DatabaseFault
      ensures r.Success? ==> r.value == At(tx.db.sessions, if id < |tx.db.sessions| then Some(id) else None)
    {
      if * {
        return Failure(DatabaseFault);
      }
      r := Success(At(tx.db.sessions, if id < |tx.db.sessions| then Some(id) else None));
    }

    method GetByJti(jti: string) returns (r: Result<Option<Stored<SessionRow>>, AppError>)
      ensures r.Failure? ==> r.error == DatabaseFault
      ensures r.Success? ==> r.value == At(tx.db.sessions, FindJti(tx.db.sessions, jti))
    {
      if * {
        return Failure(DatabaseFault);
      }
      r := Success(At(tx.db.sessions, FindJti(tx.db.sessions, jti)));
    }

    method ListActiveForUser(u: UserId, now: Time) returns (r: Result<seq<SessionRow>, AppError>)
      ensures r.Failure? ==> r.error == DatabaseFault
      ensures r.Success? ==> r.value == ActiveSessions(tx.db.sessions, u, now)
    {
      if * {
        return Failure(DatabaseFault);
      }
      r := Success(ActiveSessions(tx.db.sessions, u, now));
    }

    method Revoke(jti: string, moment: Time) returns (r: Effect)
      modifies tx
      ensures r.Raised? ==> r.error == DatabaseFault
      ensures r.Done? ==> tx.db == old(tx.db).(sessions := Stamp(old(tx.db.sessions), WithJti(jti), moment))
    {
      if * {
        return Raised(DatabaseFault);
      }
      tx.db := tx.db.(sessions := Stamp(tx.db.sessions, WithJti(jti), moment));
      r := Done;
    }

    method RevokeAllForUser(u: UserId, moment: Time, spared: Option<string>) returns (r: Result<nat, AppError>)
      modifies tx
      ensures r.Failure? ==> r.error == DatabaseFault
      ensures r.Success? ==> tx.db == old(tx.db).(sessions := Stamp(old(tx.db.sessions), OfUser(u, spared), moment))
      ensures r.Success? ==> r.value == Stamped(old(tx.db.sessions), OfUser(u, spared))
    {
      if * {
        return Failure(DatabaseFault);
      }
      var rows := tx.db.sessions;
      tx.db := tx.db.(sessions := Stamp(rows, OfUser(u, spared), moment));
      r := Success(Stamped(rows, OfUser(u, spared)));
    }
  }

  class SecurityTokenRepository {
    const tx: Transaction

    constructor (tx: Transaction)
      ensures this.tx == tx
    {
      this.tx := tx;
    }

    method Add(row: TokenRow) returns (r: Effect)
      modifies tx
      ensures r.Raised? ==> r.error == DatabaseFault
      ensures r.Done? ==> tx.db == old(tx.db).(tokens := old(tx.db.tokens) + [row])
    {
      if * {
        return Raised(DatabaseFault);
      }
      tx.db := tx.db.(tokens := tx.db.tokens + [row]);
      r := Done;
    }

    method GetByHash(hash: string, purpose: TokenPurpose) returns (r: Result<Option<Stored<TokenRow>>, AppError>)
      ensures r.Failure? ==> r.error == DatabaseFault
      ensures r.Success? ==> r.value == At(tx.db.tokens, FindToken(tx.db.tokens, hash, purpose))
    {
      if * {
        return Failure(DatabaseFault);
      }
      r := Success(At(tx.db.tokens, FindToken(tx.db.tokens, hash, purpose)));
    }

    method MarkUsed(id: nat, now: Time) returns (r: Effect)
      requires id < |tx.db.tokens|
      modifies tx
      ensures r.Raised? ==> r.error == DatabaseFault
      ensures r.Done? ==> tx.db == old(tx.db).(tokens := Tables.MarkUsed(old(tx.db.tokens), id, now))
    {
      if * {
        return Raised(DatabaseFault);
      }
      tx.db := tx.db.(tokens := Tables.MarkUsed(tx.db.tokens, id, now));
      r := Done;
    }

    method InvalidateForUser(u: UserId, purpose: TokenPurpose, now: Time) returns (r: Effect)
      modifies tx
      ensures r.Raised? ==> r.error == DatabaseFault
      ensures r.Done? ==> tx.db == old(tx.db).(tokens := Invalidate(old(tx.db.tokens), u, purpose, now))
    {
      if * {
        return Raised(DatabaseFault);
      }
      tx.db := tx.db.(tokens := Invalidate(tx.db.tokens, u, purpose, now));
      r := Done;
    }
  }

  /** Append-only. */
  class AuditLogRepository {
    const tx: Transaction

    constructor (tx: Transaction)
      ensures this.tx == tx
    {
      this.tx := tx;
    }

    method Add(row: AuditRow) returns (r: Effect)
      modifies tx
      ensures r.Raised? ==> r.error == DatabaseFault
      ensures r.Done? ==> tx.db == old(tx.db).(audit := old(tx.db.audit) + [row])
    {
      if * {
        return Raised(DatabaseFault);
      }
      tx.db := tx.db.(audit := tx.db.audit + [row]);
      r := Done;
    }
  }

  class RoleRepository {
    const tx: Transaction

    constructor (tx: Transaction)
      ensures this.tx == tx
    {
      this.tx := tx;
    }

    method GetById(id: RoleId) returns (r: Result<Option<Role>, AppError>)
      ensures r.Failure? ==> r.error == DatabaseFault
      ensures r.Success? ==> r.value == LoadRole(tx.db, id)
    {
      if * {
        return Failure(DatabaseFault);
      }
      r := Success(LoadRole(tx.db, id));
    }

    method GetByName(name: string) returns (r: Result<Option<Role>, AppError>)
      ensures r.Failure? ==> r.error == DatabaseFault
      ensures r.Success? ==> r.value.Some? == FindRoleName(tx.db.roles, name).Some?
      ensures r.Success? && r.value.Some? ==> r.value.value.id == FindRoleName(tx.db.roles, name).value.id
    {
      if * {
        return Failure(DatabaseFault);
      }
      var row := FindRoleName(tx.db.roles, name);
      if row.None? {
        return Success(None);
      }
      r := Success(LoadRole(tx.db, row.value.id));
    }

    /** `permissions.get_by_id`. */
    method GetPermission(id: PermissionId) returns (r: Result<Option<Permission>, AppError>)
      ensures r.Failure? ==> r.error == DatabaseFault
      ensures r.Success? ==> r.value == FindPermission(tx.db.permissions, id)
    {
      if * {
        return Failure(DatabaseFault);
      }
      r := Success(FindPermission(tx.db.permissions, id));
    }

    method Delete(id: RoleId) returns (r: Effect)
      modifies tx
      ensures r.Raised? ==> r.error == DatabaseFault
      ensures r.Done? ==> tx.db == old(tx.db).(roles := DropRole(old(tx.db.roles), id),
                                                userRoles := DropSecond(old(tx.db.userRoles), id),
                                                rolePermissions := DropFirst(old(tx.db.rolePermissions), id))
    {
      if * {
        return Raised(DatabaseFault);
      }
      tx.db := tx.db.(roles := DropRole(tx.db.roles, id), userRoles := DropSecond(tx.db.userRoles, id),
                      rolePermissions := DropFirst(tx.db.rolePermissions, id));
      r := Done;
    }

    method GrantPermission(id: RoleId, permission: PermissionId) returns (r: Effect)
      modifies tx
      ensures r.Raised? ==> r.error == DatabaseFault
      ensures r.Done? ==> tx.db == old(tx.db).(rolePermissions := AddLink(old(tx.db.rolePermissions), (id, permission)))
    {
      if * {
        return Raised(DatabaseFault);
      }
      if (id, permission) !in tx.db.rolePermissions {
        tx.db := tx.db.(rolePermissions := tx.db.rolePermissions + [(id, permission)]);
      }
      r := Done;
    }

    method RevokePermission(id: RoleId, permission: PermissionId) returns (r: Effect)
      modifies tx
      ensures r.Raised? ==> r.error == DatabaseFault
      ensures r.Done? ==>
          tx.db == old(tx.db).(rolePermissions := DropLink(old(tx.db.rolePermissions), (id, permission)))
    {
      if * {
        return Raised(DatabaseFault);
      }
      tx.db := tx.db.(rolePermissions := DropLink(tx.db.rolePermissions, (id, permission)));
      r := Done;
    }
  }

  /** One transaction shared by all repositories, opened on enter and dropped on exit. */
  class UnitOfWork {
    const store: Store
    var tx: Transaction?
    var users: UserRepository?
    var roles: RoleRepository?
    var sessions: SessionRepository?
    var tokens: SecurityTokenRepository?
    var audit: AuditLogRepository?

    constructor (store: Store)
      ensures this.store == store && tx == null
    {
      this.store := store;
      tx, users, roles, sessions, tokens, audit := null, null, null, null, null, null;
    }

    /** Inside the `async with` block: the repositories share one transaction over the store. */
    predicate Active()
      reads this
    {
      && tx != null && tx.store == store
      && users != null && users.tx == tx
      && roles != null && roles.tx == tx
      && sessions != null && sessions.tx == tx
      && tokens != null && tokens.tx == tx
      && audit != null && audit.tx == tx
    }

    /** The block has just been entered: nothing is written yet. */
    predicate Entered()
      reads this, tx, store
    {
      Active() && tx.db == store.db
    }

    method Enter()
      modifies this
      ensures Entered() && fresh(tx)
    {
      tx := new Transaction(store);
      users := new UserRepository(tx);
      roles := new RoleRepository(tx);
      sessions := new SessionRepository(tx);
      tokens := new SecurityTokenRepository(tx);
      audit := new AuditLogRepository(tx);
    }

    /** Leaving never writes the store, whether or not the block raised. */
    method Exit(raised: bool)
      requires Active()
      modifies this, tx
      ensures tx == null
    {
      if raised {
        tx.Rollback();
      }
      tx := null;
    }
  }
}
