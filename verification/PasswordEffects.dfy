/** What password changes, reset links and resets do. */
module PasswordEffects {
  import opened Wrappers
  import opened Entities
  import opened Tables
  import opened Transactions
  import opened Text
  import opened World
  import opened Invariants
  import opened Preservation
  import opened Frames
  import opened SessionEffects
  import Theorems

  /** Only the account's password hash, and the time of its last change, are new. */
  ghost predicate Rehashed(before: seq<UserRow>, after: seq<UserRow>, u: UserId, hash: string, t: Time)
    requires u < |before|
  {
    && OtherUsersKept(before, after, u)
    && after[u] ==
        before[u].(passwordHash := hash, updatedAt := if hash == before[u].passwordHash then before[u].updatedAt else t)
  }

  /** Both replacements agree, the current password is right, and the new one is another. */
  lemma ChangeSucceeds(
      cfg: Config, db: Db, u: UserId, current: string, next: string, repeat: string, hash: string, device: Device,
      t: Time)
    ensures var (after, reply) := ChangePassword(cfg, db, u, current, next, repeat, hash, device, t);
            && (reply.Success? <==>
                  next == repeat && u < |db.users| && cfg.passwordMatches(current, db.users[u].passwordHash)
                  && current != next)
            && (next != repeat ==> reply == Failure(PasswordMismatch))
            && (next == repeat && u >= |db.users| ==> reply == Failure(UserNotFound))
            && (next == repeat && u < |db.users| && !cfg.passwordMatches(current, db.users[u].passwordHash) ==>
                  reply == Failure(InvalidCredentials))
            && (current == next == repeat && u < |db.users|
                && cfg.passwordMatches(current, db.users[u].passwordHash)
                ==> reply == Failure(ValidationError))
            && (reply.Failure? ==> after == db)
  {
  }

  /** A change stores the new hash, spends the reset links, ends every session and logs how many. */
  lemma ChangeTakesEffect(
      cfg: Config, db: Db, u: UserId, current: string, next: string, repeat: string, hash: string, device: Device,
      t: Time)
    requires ChangePassword(cfg, db, u, current, next, repeat, hash, device, t).1.Success?
    ensures u < |db.users|
    ensures var (after, reply) := ChangePassword(cfg, db, u, current, next, repeat, hash, device, t);
            var n := |Unrevoked(db.sessions, u, None)|;
            && reply == Success(n) && Rehashed(db.users, after.users, u, hash, t)
            && SignedOut(db.sessions, after.sessions, u, None, t)
            && LinksSpent(db.tokens, after.tokens, u, PasswordReset, t) && |after.tokens| == |db.tokens|
            && SameRoleTables(db, after) && Logged(db, after, PasswordChanged(n), Some(u), device, t)
  {
    CountIsExact(db.sessions, u, None);
  }

  /** The address, in normal form, is that of an active account. */
  predicate ActiveAt(db: Db, u: UserId, email: string) {
    u < |db.users| && db.users[u].email == Normalize(email) && db.users[u].isActive
  }

  /**
   * The reply never tells. The link of a known active address replaces the older ones and lives
   * `resetMinutes`; any other address changes nothing.
   */
  lemma ForgotTakesEffect(cfg: Config, db: Db, email: string, secret: string, t: Time)
    requires AccountsOk(db.users)
    ensures ForgotPassword(cfg, db, email, secret, t).1 == Success(())
    ensures var after := ForgotPassword(cfg, db, email, secret, t).0;
            && (forall u: UserId :: ActiveAt(db, u, email) ==>
                  && LinksSpent(db.tokens, after.tokens, u, PasswordReset, t)
                  && LinkAdded(db.tokens, after.tokens, u, PasswordReset, cfg.secretHash(secret), t,
                      cfg.resetMinutes * 60)
                  && after == db.(tokens := after.tokens))
            && ((forall u: UserId :: !ActiveAt(db, u, email)) ==> after == db)
  {
    forall u: UserId | ActiveAt(db, u, email) ensures FindEmail(db.users, Normalize(email)) == Some(u) {
      Theorems.FindEmailAt(db.users, u);
    }
    var found := FindEmail(db.users, Normalize(email));
    if found.Some? && db.users[found.value].isActive {
      assert ActiveAt(db, found.value, email);
    }
  }

  /**
   * A reset stores the new hash of the link's owner, spends the link and its siblings, ends every
   * session and logs how many.
   */
  lemma ResetTakesEffect(
      cfg: Config, db: Db, secret: string, password: string, repeat: string, hash: string, device: Device, t: Time)
    returns (i: nat)
    requires ResetPassword(cfg, db, secret, password, repeat, hash, device, t).1.Success?
    ensures password == repeat && i < |db.tokens| && db.tokens[i].tokenHash == cfg.secretHash(secret)
    ensures db.tokens[i].purpose == PasswordReset && db.tokens[i].usedAt == None && t < db.tokens[i].expiresAt
    ensures db.tokens[i].userId < |db.users| && db.users[db.tokens[i].userId].isActive
    ensures var (after, reply) := ResetPassword(cfg, db, secret, password, repeat, hash, device, t);
            var u := db.tokens[i].userId;
            && reply == Success(u) && Rehashed(db.users, after.users, u, hash, t)
            && SignedOut(db.sessions, after.sessions, u, None, t)
            && LinksSpent(db.tokens, after.tokens, u, PasswordReset, t) && |after.tokens| == |db.tokens|
            && SameRoleTables(db, after)
            && Logged(db, after, PasswordWasReset(|Unrevoked(db.sessions, u, None)|), Some(u), device, t)
  {
    i := FindToken(db.tokens, cfg.secretHash(secret), PasswordReset).value;
    CountIsExact(db.sessions, db.tokens[i].userId, None);
  }

  /** Unequal passwords are reported first; an unusable link is invalid. */
  lemma ResetRefused(
      cfg: Config, db: Db, secret: string, password: string, repeat: string, hash: string, device: Device, t: Time)
    requires ResetPassword(cfg, db, secret, password, repeat, hash, device, t).1.Failure?
    ensures ResetPassword(cfg, db, secret, password, repeat, hash, device, t)
         == (db, Failure(if password != repeat then PasswordMismatch else InvalidToken))
  {
  }

  // ---------------------------------------------------------------- how long links work

  /** The seconds a link minted by the action lives, and for what it is. */
  function MintedFor(cfg: Config, a: Action): (nat, TokenPurpose)
    requires a.DoRegister? || a.DoUpdate? || a.DoForgot?
  {
    if a.DoForgot? then (cfg.resetMinutes * 60, PasswordReset) else (cfg.verificationHours * 3600, EmailVerification)
  }

  /** The row minted by action `i`, as a later state sees it. */
  predicate Minted(row: TokenRow, purpose: TokenPurpose, hash: string, expiresAt: Time) {
    row.purpose == purpose && row.tokenHash == hash && row.expiresAt == expiresAt
  }

  lemma MintsRow(cfg: Config, db: Db, a: Action, t: Time)
    requires MailedTo(cfg, db, a, t).Some?
    ensures a.DoRegister? || a.DoUpdate? || a.DoForgot?
    ensures var after, (seconds, purpose) := After(cfg, db, a, t).tokens, MintedFor(cfg, a);
            |after| == |db.tokens| + 1 && after[|db.tokens|].usedAt == None
            && Minted(after[|db.tokens|], purpose, cfg.secretHash(a.secret), t + seconds * 1_000_000)
  {
  }

  lemma MintsRowInRun(cfg: Config, states: seq<World>, run: Run, i: nat) returns (k: nat)
    requires Behaves(cfg, states, run) && i < |run| && MailedTo(cfg, states[i].db, run[i].0, run[i].1).Some?
    ensures run[i].0.DoRegister? || run[i].0.DoUpdate? || run[i].0.DoForgot?
    ensures var rows, (seconds, purpose) := states[i + 1].db.tokens, MintedFor(cfg, run[i].0);
            k < |rows| && rows[k].usedAt == None
            && Minted(rows[k], purpose, cfg.secretHash(run[i].0.secret), run[i].1 + seconds * 1_000_000)
  {
    MintsRow(cfg, states[i].db, run[i].0, run[i].1);
    k := |states[i].db.tokens|;
  }

  /** The minted secret works for its purpose exactly while unspent, unexpired and its owner active. */
  ghost predicate SecretWorks(cfg: Config, db: Db, secret: string, k: nat, expiresAt: Time)
    requires k < |db.tokens|
  {
    var row := db.tokens[k];
    row.userId < |db.users|
    && forall password, hash, device, now: Time ::
         var live := row.usedAt == None && now < expiresAt && db.users[row.userId].isActive;
         && (ResetPassword(cfg, db, secret, password, password, hash, device, now).1.Success? <==>
               live && row.purpose == PasswordReset)
         && (VerifyEmail(cfg, db, secret, device, now).1.Success? <==> live && row.purpose == EmailVerification)
  }

  lemma RowDecides(cfg: Config, v: World, k: nat, purpose: TokenPurpose, secret: string, expiresAt: Time)
    requires Inv(v) && k < |v.db.tokens| && Minted(v.db.tokens[k], purpose, cfg.secretHash(secret), expiresAt)
    ensures SecretWorks(cfg, v.db, secret, k, expiresAt)
  {
    Theorems.FindTokenAt(v.db.users, v.db.tokens, v.addressed, k, PasswordReset);
    Theorems.FindTokenAt(v.db.users, v.db.tokens, v.addressed, k, EmailVerification);
    var row := v.db.tokens[k];
    assert row.userId < |v.db.users|;
    forall password, hash, device, now: Time
      ensures var live := row.usedAt == None && now < expiresAt && v.db.users[row.userId].isActive;
              && (ResetPassword(cfg, v.db, secret, password, password, hash, device, now).1.Success? <==>
                    live && row.purpose == PasswordReset)
              && (VerifyEmail(cfg, v.db, secret, device, now).1.Success? <==> live && row.purpose == EmailVerification)
    {
      Theorems.ResetChecksLink(cfg, v.db, secret, password, hash, device, now);
    }
  }

  /**
   * A secret mailed by a registration, an edit or a forgotten password works in every later state
   * exactly while it is unspent, its owner active, and its lifetime not over: `verificationHours`
   * hours to verify, `resetMinutes` minutes to reset.
   */
  lemma MailedSecretsWork(cfg: Config, states: seq<World>, run: Run, i: nat, j: nat) returns (k: nat)
    requires Lawful(cfg, states, run) && i < j <= |run|
    requires MailedTo(cfg, states[i].db, run[i].0, run[i].1).Some?
    ensures run[i].0.DoRegister? || run[i].0.DoUpdate? || run[i].0.DoForgot?
    ensures k < |states[j].db.tokens| && (j == i + 1 ==> states[j].db.tokens[k].usedAt == None)
    ensures states[j].db.tokens[k].purpose == MintedFor(cfg, run[i].0).1
    ensures SecretWorks(cfg, states[j].db, run[i].0.secret, k, run[i].1 + MintedFor(cfg, run[i].0).0 * 1_000_000)
  {
    k := MintsRowInRun(cfg, states, run, i);
    var (seconds, purpose) := MintedFor(cfg, run[i].0);
    RowSurvives(cfg, states, run, i + 1, j, k, purpose, run[i].0.secret, run[i].1 + seconds * 1_000_000);
  }

  lemma RowSurvives(
      cfg: Config, states: seq<World>, run: Run, i: nat, j: nat, k: nat, purpose: TokenPurpose, secret: string,
      expiresAt: Time)
    requires Lawful(cfg, states, run) && i <= j <= |run| && k < |states[i].db.tokens|
    requires Minted(states[i].db.tokens[k], purpose, cfg.secretHash(secret), expiresAt)
    ensures k < |states[j].db.tokens| && states[j].db.tokens[k].purpose == purpose
    ensures SecretWorks(cfg, states[j].db, secret, k, expiresAt)
  {
    RunGoesForward(cfg, states, run, i, j);
    RunKeepsInv(cfg, states, run, j);
    RowDecides(cfg, states[j], k, purpose, secret, expiresAt);
  }
}
