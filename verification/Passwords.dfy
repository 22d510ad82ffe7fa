/** Which password opens an account: the one of its latest effective password edit, and no other. */
module Passwords {
  import opened Wrappers
  import opened Entities
  import opened Tables
  import opened Transactions
  import opened Text
  import opened World
  import opened Invariants
  import opened Preservation
  import Theorems

  /** The hash the action stores for the user, if it registers the user or changes the password. */
  function Stored(cfg: Config, db: Db, a: Action, t: Time, u: UserId): Option<string> {
    match a
    case DoRegister(d, hash, secret, device) =>
      if u == |db.users| && Register(cfg, db, d, hash, secret, device, t).1.Success? then Some(hash) else None
    case DoChangePassword(v, current, next, repeat, hash, device) =>
      if v == u && ChangePassword(cfg, db, v, current, next, repeat, hash, device, t).1.Success? then Some(hash)
          else None
    case DoReset(presented, password, repeat, hash, device) =>
      if ResetPassword(cfg, db, presented, password, repeat, hash, device, t).1 == Success(u) then Some(hash) else None
    case _ => None
  }

  function HashOf(users: seq<UserRow>, u: UserId): Option<string> {
    if u < |users| then Some(users[u].passwordHash) else None
  }

  /** The latest hash stored for the user by the first `k` actions, or the one at the start. */
  function Latest(cfg: Config, states: seq<World>, run: Run, k: nat, u: UserId): Option<string>
    requires k <= |run| && |states| == |run| + 1
  {
    if k == 0 then HashOf(states[0].db.users, u)
    else
      var edit := Stored(cfg, states[k - 1].db, run[k - 1].0, run[k - 1].1, u);
      if edit.Some? then edit else Latest(cfg, states, run, k - 1, u)
  }

  predicate Keeps(cfg: Config, db: Db, a: Action, t: Time, u: UserId) {
    HashOf(After(cfg, db, a, t).users, u)
      == (var edit := Stored(cfg, db, a, t, u); if edit.Some? then edit else HashOf(db.users, u))
  }

  lemma ProfileKeeps(cfg: Config, db: Db, a: Action, t: Time, u: UserId)
    requires EditsProfile(a)
    ensures Keeps(cfg, db, a, t, u)
  {
  }

  lemma PasswordKeeps(cfg: Config, db: Db, a: Action, t: Time, u: UserId)
    requires EditsPassword(a)
    ensures Keeps(cfg, db, a, t, u)
  {
  }

  lemma SessionKeeps(cfg: Config, db: Db, a: Action, t: Time, u: UserId)
    requires EditsSessions(a)
    ensures Keeps(cfg, db, a, t, u)
  {
  }

  lemma StepKeeps(cfg: Config, db: Db, a: Action, t: Time, u: UserId)
    ensures Keeps(cfg, db, a, t, u)
  {
    if EditsRoles(a) {
      RoleEdits(cfg, db, a, t);
    } else if EditsProfile(a) {
      ProfileKeeps(cfg, db, a, t, u);
    } else if EditsPassword(a) {
      PasswordKeeps(cfg, db, a, t, u);
    } else {
      SessionKeeps(cfg, db, a, t, u);
    }
  }

  /** In every reachable state the stored hash is that of the latest effective edit. */
  lemma {:induction false} PasswordHistory(cfg: Config, states: seq<World>, run: Run, k: nat, u: UserId)
    requires Behaves(cfg, states, run) && k <= |run|
    ensures HashOf(states[k].db.users, u) == Latest(cfg, states, run, k, u)
    decreases k
  {
    if k > 0 {
      StepKeeps(cfg, states[k - 1].db, run[k - 1].0, run[k - 1].1, u);
      PasswordHistory(cfg, states, run, k - 1, u);
    }
  }

  /** The address is the account's, the log says it is active, and the password fits its latest hash. */
  predicate Opens(cfg: Config, states: seq<World>, run: Run, k: nat, u: UserId, email: string, password: string)
    requires k <= |run| && |states| == |run| + 1
  {
    var v, hash := states[k], Latest(cfg, states, run, k, u);
    && u < |v.db.users| && v.db.users[u].email == Normalize(email)
    && Replay(v.db.audit, u) && hash.Some? && cfg.passwordMatches(password, hash.value)
  }

  lemma LoginChecksCredentials(
      cfg: Config, db: Db, email: string, password: string, device: Device, jti: string, t: Time)
    ensures Login(cfg, db, email, password, device, jti, t).1.Success? <==> CredentialsHold(cfg, db, email, password)
  {
  }

  lemma OpensFound(cfg: Config, states: seq<World>, run: Run, k: nat, u: UserId, email: string, password: string)
    requires Lawful(cfg, states, run) && k <= |run|
    ensures Opens(cfg, states, run, k, u, email, password) <==>
              FindEmail(states[k].db.users, Normalize(email)) == Some(u) &&
              CredentialsHold(cfg, states[k].db, email, password)
  {
    RunKeepsInv(cfg, states, run, k);
    PasswordHistory(cfg, states, run, k, u);
    var users := states[k].db.users;
    if u < |users| && users[u].email == Normalize(email) {
      Theorems.FindEmailAt(users, u);
    }
  }

  /** In every reachable state a login's credentials are accepted exactly for such an account. */
  lemma LoginAcceptance(
      cfg: Config, states: seq<World>, run: Run, k: nat, email: string, password: string, device: Device, jti: string,
      t: Time)
    requires Lawful(cfg, states, run) && k <= |run|
    ensures Login(cfg, states[k].db, email, password, device, jti, t).1.Success?
       <==> exists u: UserId :: Opens(cfg, states, run, k, u, email, password)
  {
    var db := states[k].db;
    LoginChecksCredentials(cfg, db, email, password, device, jti, t);
    if CredentialsHold(cfg, db, email, password) {
      OpensFound(cfg, states, run, k, FindEmail(db.users, Normalize(email)).value, email, password);
    }
    forall u: UserId | Opens(cfg, states, run, k, u, email, password)
      ensures CredentialsHold(cfg, db, email, password)
    {
      OpensFound(cfg, states, run, k, u, email, password);
    }
  }
}
