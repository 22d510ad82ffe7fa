/** Every action keeps the invariant, and every run is monotone. */
module Preservation {
  import opened Wrappers
  import opened Entities
  import opened Tables
  import opened Transactions
  import opened Text
  import opened World
  import opened Invariants

  // ---------------------------------------------------------------- what never goes back

  /** Session rows are only appended and stamped; a stamp is final. */
  ghost predicate SessionsLater(before: seq<SessionRow>, after: seq<SessionRow>) {
    && |before| <= |after|
    && forall i :: 0 <= i < |before| ==>
         && after[i] == before[i].(revokedAt := after[i].revokedAt)
         && (before[i].IsRevoked() ==> after[i] == before[i])
  }

  ghost predicate TokensLater(before: seq<TokenRow>, after: seq<TokenRow>) {
    && |before| <= |after|
    && forall i :: 0 <= i < |before| ==>
         && after[i] == before[i].(usedAt := after[i].usedAt)
         && (before[i].IsUsed() ==> after[i] == before[i])
  }

  ghost predicate Later(w: World, v: World) {
    && w.now <= v.now
    && |w.db.users| <= |v.db.users|
    && SessionsLater(w.db.sessions, v.db.sessions)
    && TokensLater(w.db.tokens, v.db.tokens)
    && w.db.audit <= v.db.audit
    && w.issued <= v.issued
    && w.seeded == v.seeded
  }

  lemma LaterTransitive(w: World, v: World, x: World)
    requires Later(w, v) && Later(v, x)
    ensures Later(w, x)
  {
  }

  /** The actions in four groups, so that each proof looks at few of them at a time. */
  predicate EditsRoles(a: Action) {
    a.DoAssignRole? || a.DoRevokeRole? || a.DoGrantPermission? || a.DoRevokePermission? || a.DoDeleteRole?
  }

  predicate EditsProfile(a: Action) {
    a.DoRegister? || a.DoUpdate? || a.DoVerify?
  }

  predicate EditsPassword(a: Action) {
    a.DoForgot? || a.DoReset? || a.DoChangePassword?
  }

  predicate EditsSessions(a: Action) {
    !EditsRoles(a) && !EditsProfile(a) && !EditsPassword(a)
  }

  lemma RoleEdits(cfg: Config, db: Db, a: Action, t: Time)
    requires EditsRoles(a)
    ensures var after := After(cfg, db, a, t);
            after.users == db.users && after.sessions == db.sessions && after.tokens == db.tokens &&
                after.audit == db.audit
    ensures Grants(cfg, db, a, t).None? && MailedTo(cfg, db, a, t).None?
  {
  }

  predicate Moderates(a: Action) {
    a.DoBan? || a.DoUnban? || a.DoDelete?
  }

  lemma SignInEdits(cfg: Config, db: Db, a: Action, t: Time)
    requires EditsSessions(a) && !Moderates(a)
    ensures After(cfg, db, a, t).tokens == db.tokens && After(cfg, db, a, t).users == db.users
  {
  }

  /** The rows keep everything but their activity. */
  ghost predicate OnlyActivity(before: seq<UserRow>, after: seq<UserRow>) {
    |after| == |before|
    && forall u :: 0 <= u < |before| ==>
         after[u] == before[u].(isActive := after[u].isActive, updatedAt := after[u].updatedAt)
  }

  lemma DeactivationEdits(cfg: Config, db: Db, a: Action, t: Time)
    requires a.DoBan? || a.DoDelete?
    ensures var after := After(cfg, db, a, t); after.tokens == db.tokens && OnlyActivity(db.users, after.users)
  {
  }

  lemma ReactivationEdits(cfg: Config, db: Db, a: Action, t: Time)
    requires a.DoUnban?
    ensures var after := After(cfg, db, a, t); after.tokens == db.tokens && OnlyActivity(db.users, after.users)
  {
  }

  /** The session actions never touch one-time tokens, and rewrite at most the activity of users. */
  lemma SessionEdits(cfg: Config, db: Db, a: Action, t: Time)
    requires EditsSessions(a)
    ensures var after := After(cfg, db, a, t); after.tokens == db.tokens && OnlyActivity(db.users, after.users)
    ensures MailedTo(cfg, db, a, t).None?
  {
    if a.DoUnban? {
      ReactivationEdits(cfg, db, a, t);
    } else if Moderates(a) {
      DeactivationEdits(cfg, db, a, t);
    } else {
      SignInEdits(cfg, db, a, t);
    }
  }

  lemma GrantsLater(cfg: Config, db: Db, a: Action, t: Time)
    requires a.DoLogin? || a.DoRefresh?
    ensures SessionsLater(db.sessions, After(cfg, db, a, t).sessions)
  {
  }

  lemma SinglesLater(cfg: Config, db: Db, a: Action, t: Time)
    requires a.DoLogout? || a.DoRevokeOne?
    ensures SessionsLater(db.sessions, After(cfg, db, a, t).sessions)
  {
  }

  lemma BulksLater(cfg: Config, db: Db, a: Action, t: Time)
    requires a.DoRevokeAll? || Moderates(a)
    ensures SessionsLater(db.sessions, After(cfg, db, a, t).sessions)
  {
  }

  lemma SessionsLaterHere(cfg: Config, db: Db, a: Action, t: Time)
    requires EditsSessions(a)
    ensures SessionsLater(db.sessions, After(cfg, db, a, t).sessions)
  {
    if a.DoLogin? || a.DoRefresh? {
      GrantsLater(cfg, db, a, t);
    } else if a.DoLogout? || a.DoRevokeOne? {
      SinglesLater(cfg, db, a, t);
    } else {
      BulksLater(cfg, db, a, t);
    }
  }

  lemma ProfilesLeaveSessions(cfg: Config, db: Db, a: Action, t: Time)
    requires EditsProfile(a)
    ensures After(cfg, db, a, t).sessions == db.sessions
  {
  }

  lemma PasswordsStampSessions(cfg: Config, db: Db, a: Action, t: Time)
    requires EditsPassword(a)
    ensures SessionsLater(db.sessions, After(cfg, db, a, t).sessions)
  {
  }

  lemma SessionsStep(cfg: Config, db: Db, a: Action, t: Time)
    ensures SessionsLater(db.sessions, After(cfg, db, a, t).sessions)
  {
    if EditsRoles(a) {
      RoleEdits(cfg, db, a, t);
    } else if EditsProfile(a) {
      ProfilesLeaveSessions(cfg, db, a, t);
    } else if EditsPassword(a) {
      PasswordsStampSessions(cfg, db, a, t);
    } else {
      SessionsLaterHere(cfg, db, a, t);
    }
  }

  lemma RegisterTokensLater(cfg: Config, db: Db, a: Action, t: Time)
    requires a.DoRegister?
    ensures TokensLater(db.tokens, After(cfg, db, a, t).tokens)
  {
  }

  lemma UpdateTokensLater(cfg: Config, db: Db, a: Action, t: Time)
    requires a.DoUpdate?
    ensures TokensLater(db.tokens, After(cfg, db, a, t).tokens)
  {
  }

  lemma VerifyTokensLater(cfg: Config, db: Db, a: Action, t: Time)
    requires a.DoVerify?
    ensures TokensLater(db.tokens, After(cfg, db, a, t).tokens)
  {
  }

  lemma ProfileTokensLater(cfg: Config, db: Db, a: Action, t: Time)
    requires EditsProfile(a)
    ensures TokensLater(db.tokens, After(cfg, db, a, t).tokens)
  {
    if a.DoRegister? {
      RegisterTokensLater(cfg, db, a, t);
    } else if a.DoUpdate? {
      UpdateTokensLater(cfg, db, a, t);
    } else {
      VerifyTokensLater(cfg, db, a, t);
    }
  }

  lemma ForgotTokensLater(cfg: Config, db: Db, a: Action, t: Time)
    requires a.DoForgot?
    ensures TokensLater(db.tokens, After(cfg, db, a, t).tokens)
  {
  }

  lemma ResetTokensLater(cfg: Config, db: Db, a: Action, t: Time)
    requires a.DoReset?
    ensures TokensLater(db.tokens, After(cfg, db, a, t).tokens)
  {
  }

  lemma ChangeTokensLater(cfg: Config, db: Db, a: Action, t: Time)
    requires a.DoChangePassword?
    ensures TokensLater(db.tokens, After(cfg, db, a, t).tokens)
  {
  }

  lemma PasswordTokensLater(cfg: Config, db: Db, a: Action, t: Time)
    requires EditsPassword(a)
    ensures TokensLater(db.tokens, After(cfg, db, a, t).tokens)
  {
    if a.DoForgot? {
      ForgotTokensLater(cfg, db, a, t);
    } else if a.DoReset? {
      ResetTokensLater(cfg, db, a, t);
    } else {
      ChangeTokensLater(cfg, db, a, t);
    }
  }

  lemma TokensStep(cfg: Config, db: Db, a: Action, t: Time)
    ensures TokensLater(db.tokens, After(cfg, db, a, t).tokens)
  {
    if EditsRoles(a) {
      RoleEdits(cfg, db, a, t);
    } else if EditsProfile(a) {
      ProfileTokensLater(cfg, db, a, t);
    } else if EditsPassword(a) {
      PasswordTokensLater(cfg, db, a, t);
    } else {
      SessionEdits(cfg, db, a, t);
    }
  }

  lemma AuditAppends(cfg: Config, db: Db, a: Action, t: Time)
    requires EditsSessions(a)
    ensures db.audit <= After(cfg, db, a, t).audit
  {
  }

  lemma AuditStep(cfg: Config, db: Db, a: Action, t: Time)
    ensures db.audit <= After(cfg, db, a, t).audit
    ensures |db.users| <= |After(cfg, db, a, t).users|
  {
    if EditsRoles(a) {
      RoleEdits(cfg, db, a, t);
    } else if EditsSessions(a) {
      SessionEdits(cfg, db, a, t);
      AuditAppends(cfg, db, a, t);
    }
  }

  lemma StepLater(cfg: Config, w: World, a: Action, t: Time)
    requires Enabled(cfg, w, a, t)
    ensures Later(w, Step(cfg, w, a, t))
  {
    SessionsStep(cfg, w.db, a, t);
    TokensStep(cfg, w.db, a, t);
    AuditStep(cfg, w.db, a, t);
  }

  // ---------------------------------------------------------------- accounts

  lemma RegisterAccounts(cfg: Config, db: Db, d: Registration, hash: string, secret: string, device: Device, t: Time)
    requires AccountsOk(db.users)
    ensures AccountsOk(Register(cfg, db, d, hash, secret, device, t).0.users)
  {
    NormalizeIdempotent(d.email);
    StripIdempotent(d.username);
  }

  lemma EditAccounts(db: Db, u: UserId, edit: ProfileEdit)
    requires AccountsOk(db.users) && u < |db.users|
    requires EditEmail(db, db.users[u], edit.email).Success?
    requires EditUsername(db, EditEmail(db, db.users[u], edit.email).value, edit.username).Success?
    ensures var row := EditUsername(db, EditEmail(db, db.users[u], edit.email).value, edit.username).value;
            && Normalize(row.email) == row.email && Strip(row.username) == row.username
            && forall v ::
                0 <= v < |db.users| && v != u ==> db.users[v].email != row.email && db.users[v].username != row.username
  {
    if edit.email.Some? {
      NormalizeIdempotent(edit.email.value);
    }
    if edit.username.Some? {
      StripIdempotent(edit.username.value);
    }
  }

  /** Rewriting one row with normal, unclaimed names keeps the index. */
  lemma RowRenamed(users: seq<UserRow>, users': seq<UserRow>, u: UserId)
    requires AccountsOk(users) && u < |users| == |users'|
    requires forall v :: 0 <= v < |users| && v != u ==> users'[v] == users[v]
    requires Normalize(users'[u].email) == users'[u].email && Strip(users'[u].username) == users'[u].username
    requires forall v ::
        0 <= v < |users| && v != u ==> users[v].email != users'[u].email && users[v].username != users'[u].username
    ensures AccountsOk(users')
  {
  }

  /** What a successful update writes: one row, renamed as requested. */
  lemma UpdateRenames(cfg: Config, db: Db, u: UserId, edit: ProfileEdit, secret: string, t: Time)
    requires UpdateUser(cfg, db, u, edit, secret, t).1.Success?
    ensures u < |db.users| && EditEmail(db, db.users[u], edit.email).Success?
    ensures EditUsername(db, EditEmail(db, db.users[u], edit.email).value, edit.username).Success?
    ensures var users := UpdateUser(cfg, db, u, edit, secret, t).0.users;
            var row := EditUsername(db, EditEmail(db, db.users[u], edit.email).value, edit.username).value;
            && |users| == |db.users| && users[u].email == row.email && users[u].username == row.username
            && forall v :: 0 <= v < |users| && v != u ==> users[v] == db.users[v]
  {
  }

  lemma UpdateAccounts(cfg: Config, db: Db, u: UserId, edit: ProfileEdit, secret: string, t: Time)
    requires AccountsOk(db.users)
    ensures AccountsOk(UpdateUser(cfg, db, u, edit, secret, t).0.users)
  {
    var (after, reply) := UpdateUser(cfg, db, u, edit, secret, t);
    if reply.Success? {
      UpdateRenames(cfg, db, u, edit, secret, t);
      EditAccounts(db, u, edit);
      RowRenamed(db.users, after.users, u);
    } else {
      assert after == db;
    }
  }

  ghost predicate SameNames(users: seq<UserRow>, users': seq<UserRow>) {
    |users| == |users'| && forall u ::
        0 <= u < |users| ==> users'[u].email == users[u].email && users'[u].username == users[u].username
  }

  lemma NamesKept(cfg: Config, db: Db, a: Action, t: Time)
    requires !a.DoRegister? && !a.DoUpdate?
    ensures SameNames(db.users, After(cfg, db, a, t).users)
  {
    if EditsRoles(a) {
      RoleEdits(cfg, db, a, t);
    } else if EditsSessions(a) {
      SessionEdits(cfg, db, a, t);
    }
  }

  lemma AccountsStep(cfg: Config, db: Db, a: Action, t: Time)
    requires AccountsOk(db.users)
    ensures AccountsOk(After(cfg, db, a, t).users)
  {
    if a.DoRegister? {
      RegisterAccounts(cfg, db, a.registration, a.passwordHash, a.secret, a.device, t);
    } else if a.DoUpdate? {
      UpdateAccounts(cfg, db, a.user, a.edit, a.secret, t);
    } else {
      NamesKept(cfg, db, a, t);
    }
  }

  // ---------------------------------------------------------------- sessions

  /** Accounts keep existing and none is deactivated. */
  ghost predicate NobodyDeactivated(users: seq<UserRow>, users': seq<UserRow>) {
    |users| <= |users'| && forall u :: 0 <= u < |users| && users[u].isActive ==> users'[u].isActive
  }

  lemma SessionsKept(users: seq<UserRow>, users': seq<UserRow>, sessions: seq<SessionRow>)
    requires SessionsOk(users, sessions) && NobodyDeactivated(users, users')
    ensures SessionsOk(users', sessions)
  {
  }

  lemma SessionsStamped(users: seq<UserRow>, sessions: seq<SessionRow>, which: Selection, t: Time)
    requires SessionsOk(users, sessions)
    ensures SessionsOk(users, Stamp(sessions, which, t))
  {
  }

  lemma SessionsAdded(users: seq<UserRow>, sessions: seq<SessionRow>, row: SessionRow)
    requires SessionsOk(users, sessions)
    requires row.userId < |users| && users[row.userId].isActive && FindJti(sessions, row.jti).None?
    ensures SessionsOk(users, sessions + [row])
  {
  }

  lemma SessionsDeactivated(users: seq<UserRow>, users': seq<UserRow>, sessions: seq<SessionRow>, u: UserId, t: Time)
    requires SessionsOk(users, sessions)
    requires |users| == |users'| && forall v :: 0 <= v < |users| && v != u ==> users'[v] == users[v]
    ensures SessionsOk(users', Stamp(sessions, OfUser(u, None), t))
  {
  }

  lemma LoginSessions(cfg: Config, db: Db, email: string, password: string, device: Device, jti: string, t: Time)
    requires SessionsOk(db.users, db.sessions) && FindJti(db.sessions, jti).None?
    ensures var after := Login(cfg, db, email, password, device, jti, t).0; SessionsOk(after.users, after.sessions)
  {
    if CredentialsHold(cfg, db, email, password) {
      SessionsAdded(db.users, db.sessions, Login(cfg, db, email, password, device, jti, t).0.sessions[|db.sessions|]);
    }
  }

  lemma RefreshSessions(cfg: Config, db: Db, token: Bearer, device: Device, jti: string, t: Time)
    requires SessionsOk(db.users, db.sessions) && FindJti(db.sessions, jti).None?
    ensures var after := RefreshSession(cfg, db, token, device, jti, t).0; SessionsOk(after.users, after.sessions)
  {
    var tx := RefreshSession(cfg, db, token, device, jti, t);
    if tx.1.Success? {
      var stamped := Stamp(db.sessions, WithJti(token.claims.jti), t);
      SessionsStamped(db.users, db.sessions, WithJti(token.claims.jti), t);
      SessionsAdded(db.users, stamped, tx.0.sessions[|stamped|]);
    }
  }

  /** Every other action stamps rows without deactivating anyone, or stamps all rows of the user it touches. */
  ghost predicate StampsOrSignsOut(db: Db, after: Db, t: Time) {
    || (after.sessions == db.sessions && NobodyDeactivated(db.users, after.users))
    || (exists which :: after.sessions == Stamp(db.sessions, which, t) && after.users == db.users)
    || (exists u: UserId :: after.sessions == Stamp(db.sessions, OfUser(u, None), t) && |db.users| == |after.users|
                  && forall v :: 0 <= v < |db.users| && v != u ==> after.users[v] == db.users[v])
  }

  lemma PasswordStamps(cfg: Config, db: Db, a: Action, t: Time)
    requires EditsPassword(a)
    ensures StampsOrSignsOut(db, After(cfg, db, a, t), t)
  {
  }

  lemma ProfileStamps(cfg: Config, db: Db, a: Action, t: Time)
    requires EditsProfile(a)
    ensures StampsOrSignsOut(db, After(cfg, db, a, t), t)
  {
  }

  lemma SessionStamps(cfg: Config, db: Db, a: Action, t: Time)
    requires EditsSessions(a) && !a.DoLogin? && !a.DoRefresh?
    ensures StampsOrSignsOut(db, After(cfg, db, a, t), t)
  {
  }

  lemma OtherSessions(cfg: Config, db: Db, a: Action, t: Time)
    requires !a.DoLogin? && !a.DoRefresh?
    ensures StampsOrSignsOut(db, After(cfg, db, a, t), t)
  {
    if EditsRoles(a) {
      RoleEdits(cfg, db, a, t);
    } else if EditsPassword(a) {
      PasswordStamps(cfg, db, a, t);
    } else if EditsProfile(a) {
      ProfileStamps(cfg, db, a, t);
    } else {
      SessionStamps(cfg, db, a, t);
    }
  }

  lemma SessionsOkStep(cfg: Config, db: Db, a: Action, t: Time)
    requires SessionsOk(db.users, db.sessions)
    requires a.DoLogin? || a.DoRefresh? ==> FindJti(db.sessions, a.jti).None?
    ensures SessionsOk(After(cfg, db, a, t).users, After(cfg, db, a, t).sessions)
  {
    var after := After(cfg, db, a, t);
    if a.DoLogin? {
      LoginSessions(cfg, db, a.email, a.password, a.device, a.jti, t);
    } else if a.DoRefresh? {
      RefreshSessions(cfg, db, a.token, a.device, a.jti, t);
    } else {
      OtherSessions(cfg, db, a, t);
      if after.sessions == db.sessions && NobodyDeactivated(db.users, after.users) {
        SessionsKept(db.users, after.users, db.sessions);
      } else if which :| after.sessions == Stamp(db.sessions, which, t) && after.users == db.users {
        SessionsStamped(db.users, db.sessions, which, t);
      } else {
        var u: UserId :| after.sessions == Stamp(db.sessions, OfUser(u, None), t) && |db.users| == |after.users|
                  && forall v :: 0 <= v < |db.users| && v != u ==> after.users[v] == db.users[v];
        SessionsDeactivated(db.users, after.users, db.sessions, u, t);
      }
    }
  }

  // ---------------------------------------------------------------- issued tokens

  lemma FindJtiAt(users: seq<UserRow>, sessions: seq<SessionRow>, i: nat)
    requires SessionsOk(users, sessions) && i < |sessions|
    ensures FindJti(sessions, sessions[i].jti) == Some(i)
  {
  }

  lemma IssuedKept(sessions: seq<SessionRow>, sessions': seq<SessionRow>, issued: set<Claims>)
    requires IssuedOk(sessions, issued) && SessionsLater(sessions, sessions')
    ensures IssuedOk(sessions', issued)
  {
    forall c | c in issued ensures exists i :: 0 <= i < |sessions'| && Backs(sessions'[i], c) {
      var i :| 0 <= i < |sessions| && Backs(sessions[i], c);
      assert Backs(sessions'[i], c);
    }
  }

  /** A granted pair is backed by the session row stored with it. */
  lemma GrantBacked(cfg: Config, db: Db, a: Action, t: Time)
    requires Grants(cfg, db, a, t).Some?
    ensures var g, after := Grants(cfg, db, a, t).value, After(cfg, db, a, t).sessions;
            && |after| == |db.sessions| + 1
            && after[|db.sessions|].jti == a.jti
            && Backs(after[|db.sessions|], g.access.claims) && Backs(after[|db.sessions|], g.refresh.claims)
  {
  }

  lemma IssuedStep(cfg: Config, w: World, a: Action, t: Time)
    requires IssuedOk(w.db.sessions, w.issued)
    ensures IssuedOk(Step(cfg, w, a, t).db.sessions, Step(cfg, w, a, t).issued)
  {
    SessionsStep(cfg, w.db, a, t);
    var v := Step(cfg, w, a, t);
    IssuedKept(w.db.sessions, v.db.sessions, w.issued);
    if Grants(cfg, w.db, a, t).Some? {
      GrantBacked(cfg, w.db, a, t);
      assert Backs(v.db.sessions[|w.db.sessions|], Grants(cfg, w.db, a, t).value.access.claims);
    }
  }

  // ---------------------------------------------------------------- rotation chains

  lemma RootsExtended(
      sessions: seq<SessionRow>, sessions': seq<SessionRow>, root: map<string, string>, jti: string, ancestor: string)
    requires RootsOk(sessions, root) && SessionsLater(sessions, sessions')
    requires |sessions'| == |sessions| + 1 && sessions'[|sessions|].jti == jti
    requires ancestor == jti || ancestor in root
    ensures RootsOk(sessions', root[jti := ancestor])
  {
    assert forall i :: 0 <= i < |sessions| ==> sessions'[i].jti == sessions[i].jti;
    forall x | x in Jtis(sessions) ensures x in Jtis(sessions') {
      var i :| 0 <= i < |sessions| && sessions[i].jti == x;
      assert sessions'[i].jti == x;
    }
    assert jti in Jtis(sessions');
  }

  lemma RootsKept(sessions: seq<SessionRow>, sessions': seq<SessionRow>, root: map<string, string>)
    requires RootsOk(sessions, root) && SessionsLater(sessions, sessions') && |sessions| == |sessions'|
    ensures RootsOk(sessions', root)
  {
    forall x | x in Jtis(sessions) ensures x in Jtis(sessions') {
      var i :| 0 <= i < |sessions| && sessions[i].jti == x;
      assert sessions'[i].jti == x;
    }
  }

  lemma HeirsKept(sessions: seq<SessionRow>, sessions': seq<SessionRow>, root: map<string, string>)
    requires HeirsOk(sessions, root) && SessionsLater(sessions, sessions') && |sessions| == |sessions'|
    ensures HeirsOk(sessions', root)
  {
    forall i, j | 0 <= i < j < |sessions'| && Kin(sessions', root, i, j)
      ensures sessions'[i].IsRevoked() && sessions'[i].userId == sessions'[j].userId &&
          sessions'[i].createdAt == sessions'[j].createdAt
    {
      assert Kin(sessions, root, i, j);
    }
  }

  /** The row may join the chain of `ancestor`: all sessions there are revoked and share its owner and start. */
  ghost predicate CanInherit(sessions: seq<SessionRow>, row: SessionRow, root: map<string, string>, ancestor: string) {
    forall i :: 0 <= i < |sessions| && sessions[i].jti in root && root[sessions[i].jti] == ancestor ==>
      sessions[i].IsRevoked() && sessions[i].userId == row.userId && sessions[i].createdAt == row.createdAt
  }

  lemma HeirAdded(sessions: seq<SessionRow>, row: SessionRow, root: map<string, string>, ancestor: string)
    requires HeirsOk(sessions, root) && row.jti !in Jtis(sessions) && CanInherit(sessions, row, root, ancestor)
    ensures HeirsOk(sessions + [row], root[row.jti := ancestor])
  {
    var sessions', root' := sessions + [row], root[row.jti := ancestor];
    forall i, j | 0 <= i < j < |sessions'| && Kin(sessions', root', i, j)
      ensures sessions'[i].IsRevoked() && sessions'[i].userId == sessions'[j].userId &&
          sessions'[i].createdAt == sessions'[j].createdAt
    {
      assert sessions[i].jti in Jtis(sessions);
      if j < |sessions| {
        assert sessions[j].jti in Jtis(sessions);
        assert Kin(sessions, root, i, j);
      }
    }
  }

  /** After its predecessor is stamped, the new session may join the chain. */
  lemma StampedChain(
      users: seq<UserRow>, sessions: seq<SessionRow>, i: nat, row: SessionRow, root: map<string, string>, t: Time)
    requires SessionsOk(users, sessions) && RootsOk(sessions, root) && HeirsOk(sessions, root)
    requires i < |sessions| && !sessions[i].IsRevoked()
    requires row.userId == sessions[i].userId && row.createdAt == sessions[i].createdAt
    ensures sessions[i].jti in root
    ensures CanInherit(Stamp(sessions, WithJti(sessions[i].jti), t), row, root, root[sessions[i].jti])
  {
    assert sessions[i].jti in Jtis(sessions);
    var stamped := Stamp(sessions, WithJti(sessions[i].jti), t);
    forall k | 0 <= k < |stamped| && stamped[k].jti in root && root[stamped[k].jti] == root[sessions[i].jti]
      ensures stamped[k].IsRevoked() && stamped[k].userId == row.userId && stamped[k].createdAt == row.createdAt
    {
      if k < i {
        assert Kin(sessions, root, k, i);
      } else if i < k {
        assert Kin(sessions, root, i, k);
      }
    }
  }

  lemma UngrantedLength(cfg: Config, db: Db, a: Action, t: Time)
    requires Grants(cfg, db, a, t).None?
    ensures |After(cfg, db, a, t).sessions| == |db.sessions|
  {
  }

  /** A genuine token's session belongs to the token's user. */
  lemma GenuineOwner(users: seq<UserRow>, sessions: seq<SessionRow>, issued: set<Claims>, c: Claims)
    requires SessionsOk(users, sessions) && IssuedOk(sessions, issued) && c in issued
    ensures FindJti(sessions, c.jti).Some? && Backs(sessions[FindJti(sessions, c.jti).value], c)
  {
    var i :| 0 <= i < |sessions| && Backs(sessions[i], c);
    FindJtiAt(users, sessions, i);
  }

  /** What a successful login or refresh does to the session table. */
  lemma LoginShape(cfg: Config, db: Db, a: Action, t: Time)
    requires a.DoLogin? && Grants(cfg, db, a, t).Some?
    ensures var after := After(cfg, db, a, t).sessions;
            |after| == |db.sessions| + 1 && after == db.sessions + [after[|db.sessions|]] &&
                after[|db.sessions|].jti == a.jti
  {
  }

  lemma RefreshShape(cfg: Config, db: Db, a: Action, t: Time)
    requires a.DoRefresh? && Grants(cfg, db, a, t).Some?
    ensures a.token.Signed? && a.token.claims.kind == Refresh && FindJti(db.sessions, a.token.claims.jti).Some?
    ensures a.token.claims.sub < |db.users| && db.users[a.token.claims.sub].isActive
    ensures var i, after := FindJti(db.sessions, a.token.claims.jti).value, After(cfg, db, a, t).sessions;
            && db.sessions[i].IsValid(t)
            && |after| == |db.sessions| + 1 &&
                after == Stamp(db.sessions, WithJti(a.token.claims.jti), t) + [after[|db.sessions|]]
            && after[|db.sessions|].jti == a.jti && after[|db.sessions|].userId == a.token.claims.sub
            && after[|db.sessions|].createdAt == db.sessions[i].createdAt
            && !after[|db.sessions|].IsRevoked()
  {
  }

  lemma FreshJti(sessions: seq<SessionRow>, jti: string)
    requires FindJti(sessions, jti).None?
    ensures jti !in Jtis(sessions)
  {
  }

  /** Rotating one session into its heir keeps every chain in order. */
  lemma RotationHeirs(
      users: seq<UserRow>, sessions: seq<SessionRow>, i: nat, row: SessionRow, root: map<string, string>, t: Time)
    requires SessionsOk(users, sessions) && RootsOk(sessions, root) && HeirsOk(sessions, root)
    requires i < |sessions| && !sessions[i].IsRevoked() && row.jti !in Jtis(sessions)
    requires row.userId == sessions[i].userId && row.createdAt == sessions[i].createdAt
    ensures sessions[i].jti in root
    ensures HeirsOk(Stamp(sessions, WithJti(sessions[i].jti), t) + [row], root[row.jti := root[sessions[i].jti]])
  {
    var stamped := Stamp(sessions, WithJti(sessions[i].jti), t);
    StampedChain(users, sessions, i, row, root, t);
    HeirsKept(sessions, stamped, root);
    assert forall k :: 0 <= k < |stamped| ==> stamped[k].jti == sessions[k].jti;
    HeirAdded(stamped, row, root, root[sessions[i].jti]);
  }

  lemma RefreshHeirs(cfg: Config, w: World, a: Action, t: Time)
    requires SessionsOk(w.db.users, w.db.sessions) && IssuedOk(w.db.sessions, w.issued)
    requires RootsOk(w.db.sessions, w.root) && HeirsOk(w.db.sessions, w.root)
    requires Enabled(cfg, w, a, t) && a.DoRefresh? && Grants(cfg, w.db, a, t).Some?
    ensures HeirsOk(After(cfg, w.db, a, t).sessions, w.root[a.jti := Ancestor(w.root, a)])
  {
    RefreshShape(cfg, w.db, a, t);
    var c := a.token.claims;
    GenuineOwner(w.db.users, w.db.sessions, w.issued, c);
    FreshJti(w.db.sessions, a.jti);
    RotationHeirs(w.db.users, w.db.sessions, FindJti(w.db.sessions, c.jti).value,
        After(cfg, w.db, a, t).sessions[|w.db.sessions|], w.root, t);
  }

  lemma LoginHeirs(cfg: Config, w: World, a: Action, t: Time)
    requires RootsOk(w.db.sessions, w.root) && HeirsOk(w.db.sessions, w.root)
    requires Enabled(cfg, w, a, t) && a.DoLogin? && Grants(cfg, w.db, a, t).Some?
    ensures HeirsOk(After(cfg, w.db, a, t).sessions, w.root[a.jti := a.jti])
  {
    LoginShape(cfg, w.db, a, t);
    FreshJti(w.db.sessions, a.jti);
    HeirAdded(w.db.sessions, After(cfg, w.db, a, t).sessions[|w.db.sessions|], w.root, a.jti);
  }

  lemma ChainsStep(cfg: Config, w: World, a: Action, t: Time)
    requires SessionsOk(w.db.users, w.db.sessions) && IssuedOk(w.db.sessions, w.issued)
    requires RootsOk(w.db.sessions, w.root) && HeirsOk(w.db.sessions, w.root)
    requires Enabled(cfg, w, a, t)
    ensures RootsOk(Step(cfg, w, a, t).db.sessions, Step(cfg, w, a, t).root)
    ensures HeirsOk(Step(cfg, w, a, t).db.sessions, Step(cfg, w, a, t).root)
  {
    var after := After(cfg, w.db, a, t);
    SessionsStep(cfg, w.db, a, t);
    if Grants(cfg, w.db, a, t).None? {
      UngrantedLength(cfg, w.db, a, t);
      RootsKept(w.db.sessions, after.sessions, w.root);
      HeirsKept(w.db.sessions, after.sessions, w.root);
    } else {
      GrantBacked(cfg, w.db, a, t);
      RootsExtended(w.db.sessions, after.sessions, w.root, a.jti, Ancestor(w.root, a));
      if a.DoLogin? {
        LoginHeirs(cfg, w, a, t);
      } else {
        RefreshHeirs(cfg, w, a, t);
      }
    }
  }

  // ---------------------------------------------------------------- one-time tokens

  predicate SameAddress(row: UserRow, row': UserRow) {
    row.email == row'.email && row.IsEmailVerified() == row'.IsEmailVerified()
  }

  /** Tokens may be spent and rows rewritten, as long as the owner of an unspent link keeps its address. */
  lemma TokensSpent(
      users: seq<UserRow>, users': seq<UserRow>, tokens: seq<TokenRow>, tokens': seq<TokenRow>,
      addressed: map<string, string>)
    requires TokensOk(users, tokens, addressed)
    requires TokensLater(tokens, tokens') && |tokens| == |tokens'| && |users| <= |users'|
    requires forall i :: 0 <= i < |tokens'| && tokens'[i].purpose == EmailVerification && !tokens'[i].IsUsed() ==>
               SameAddress(users[tokens[i].userId], users'[tokens[i].userId])
    ensures TokensOk(users', tokens', addressed)
  {
  }

  /** After the spending, the user has no unspent token of that purpose left. */
  ghost predicate NoneLeft(tokens: seq<TokenRow>, u: UserId, purpose: TokenPurpose) {
    forall i :: 0 <= i < |tokens| && tokens[i].userId == u && tokens[i].purpose == purpose ==> tokens[i].IsUsed()
  }

  lemma TokenAdded(
      users: seq<UserRow>, tokens: seq<TokenRow>, addressed: map<string, string>, row: TokenRow, to: string)
    requires TokensOk(users, tokens, addressed) && NoneLeft(tokens, row.userId, row.purpose)
    requires row.userId < |users|
    requires forall i :: 0 <= i < |tokens| ==> tokens[i].tokenHash != row.tokenHash
    requires row.purpose == EmailVerification ==> to == users[row.userId].email && !users[row.userId].IsEmailVerified()
    ensures TokensOk(users, tokens + [row], addressed[row.tokenHash := to])
  {
  }

  lemma TokenReplaced(
      users: seq<UserRow>, users': seq<UserRow>, tokens: seq<TokenRow>, addressed: map<string, string>, row: TokenRow,
      to: string, t: Time)
    requires TokensOk(users, tokens, addressed)
    requires |users| <= |users'| && row.userId < |users'|
    requires forall r :: r in tokens ==> r.tokenHash != row.tokenHash
    requires forall v ::
        0 <= v < |users| && (v != row.userId || row.purpose == PasswordReset) ==> SameAddress(users[v], users'[v])
    requires row.purpose == EmailVerification ==>
        to == users'[row.userId].email && !users'[row.userId].IsEmailVerified()
    ensures TokensOk(users', Invalidate(tokens, row.userId, row.purpose, t) + [row], addressed[row.tokenHash := to])
  {
    var spent := Invalidate(tokens, row.userId, row.purpose, t);
    TokensSpent(users, users', tokens, spent, addressed);
    forall i | 0 <= i < |spent| ensures spent[i].tokenHash != row.tokenHash {
      assert tokens[i] in tokens;
    }
    TokenAdded(users', spent, addressed, row, to);
  }

  lemma RegisterTokens(cfg: Config, w: World, a: Action, t: Time)
    requires TokensOk(w.db.users, w.db.tokens, w.addressed) && Enabled(cfg, w, a, t) && a.DoRegister?
    ensures TokensOk(Step(cfg, w, a, t).db.users, Step(cfg, w, a, t).db.tokens, Step(cfg, w, a, t).addressed)
  {
    var db, after := w.db, After(cfg, w.db, a, t);
    if MailedTo(cfg, db, a, t).Some? {
      TokenReplaced(db.users, after.users, db.tokens, w.addressed, after.tokens[|db.tokens|],
          Normalize(a.registration.email), t);
    }
  }

  lemma ForgotTokens(cfg: Config, w: World, a: Action, t: Time)
    requires TokensOk(w.db.users, w.db.tokens, w.addressed) && Enabled(cfg, w, a, t) && a.DoForgot?
    ensures TokensOk(Step(cfg, w, a, t).db.users, Step(cfg, w, a, t).db.tokens, Step(cfg, w, a, t).addressed)
  {
    var db, after := w.db, After(cfg, w.db, a, t);
    if MailedTo(cfg, db, a, t).Some? {
      TokenReplaced(db.users, after.users, db.tokens, w.addressed, after.tokens[|db.tokens|], Normalize(a.email), t);
    }
  }

  /** What a successful profile edit does to the address: a changed one is unverified. */
  lemma UpdateShape(cfg: Config, db: Db, u: UserId, edit: ProfileEdit, secret: string, t: Time)
    requires UpdateUser(cfg, db, u, edit, secret, t).1.Success?
    ensures u < |db.users|
    ensures var (after, reply) := UpdateUser(cfg, db, u, edit, secret, t);
            && |after.users| == |db.users| && reply.value.row == after.users[u]
            && (forall v :: 0 <= v < |db.users| && v != u ==> after.users[v] == db.users[v])
            && (after.users[u].IsEmailVerified() ==> SameAddress(db.users[u], after.users[u]))
            && after.tokens == (if after.users[u].IsEmailVerified() then db.tokens
                                else Invalidate(db.tokens, u, EmailVerification, t)
                                     + [TokenRow(u, EmailVerification, cfg.secretHash(secret), t, t +
                                         cfg.verificationHours * 3600 * SECOND, None)])
  {
  }

  lemma UpdateTokens(cfg: Config, w: World, a: Action, t: Time)
    requires TokensOk(w.db.users, w.db.tokens, w.addressed) && Enabled(cfg, w, a, t) && a.DoUpdate?
    ensures TokensOk(Step(cfg, w, a, t).db.users, Step(cfg, w, a, t).db.tokens, Step(cfg, w, a, t).addressed)
  {
    var db, after := w.db, After(cfg, w.db, a, t);
    if UpdateUser(cfg, db, a.user, a.edit, a.secret, t).1.Success? {
      UpdateShape(cfg, db, a.user, a.edit, a.secret, t);
      if after.users[a.user].IsEmailVerified() {
        TokensSpent(db.users, after.users, db.tokens, db.tokens, w.addressed);
      } else {
        TokenReplaced(db.users, after.users, db.tokens, w.addressed, after.tokens[|db.tokens|],
            after.users[a.user].email, t);
      }
    }
  }

  /** The spent link was the only unspent one of its user, so none is left when the user is verified. */
  /** A successful verification spends one row and stamps its owner, so no unspent link loses its address. */
  lemma VerifyShape(cfg: Config, db: Db, presented: string, device: Device, t: Time)
    requires VerifyEmail(cfg, db, presented, device, t).1.Success?
    ensures var after := VerifyEmail(cfg, db, presented, device, t).0;
            var k := FindToken(db.tokens, cfg.secretHash(presented), EmailVerification).value;
            && k < |db.tokens| && after.tokens == MarkUsed(db.tokens, k, t)
            && db.tokens[k].purpose == EmailVerification && !db.tokens[k].IsUsed()
            && |after.users| == |db.users|
            && forall u :: 0 <= u < |db.users| && u != db.tokens[k].userId ==> after.users[u] == db.users[u]
  {
  }

  lemma VerifyTokens(cfg: Config, db: Db, presented: string, device: Device, t: Time, addressed: map<string, string>)
    requires TokensOk(db.users, db.tokens, addressed)
    ensures var after := VerifyEmail(cfg, db, presented, device, t).0; TokensOk(after.users, after.tokens, addressed)
  {
    var (after, reply) := VerifyEmail(cfg, db, presented, device, t);
    if reply.Success? {
      VerifyShape(cfg, db, presented, device, t);
      var k := FindToken(db.tokens, cfg.secretHash(presented), EmailVerification).value;
      LinkSpent(db.users, after.users, db.tokens, k, t, addressed);
    }
  }

  lemma LinkSpent(
      users: seq<UserRow>, users': seq<UserRow>, tokens: seq<TokenRow>, k: nat, t: Time,
      addressed: map<string, string>)
    requires TokensOk(users, tokens, addressed) && k < |tokens|
    requires tokens[k].purpose == EmailVerification && !tokens[k].IsUsed()
    requires |users'| == |users| && forall u :: 0 <= u < |users| && u != tokens[k].userId ==> users'[u] == users[u]
    ensures TokensOk(users', MarkUsed(tokens, k, t), addressed)
  {
    var tokens' := MarkUsed(tokens, k, t);
    forall i | 0 <= i < |tokens'| && tokens'[i].purpose == EmailVerification && !tokens'[i].IsUsed()
      ensures SameAddress(users[tokens[i].userId], users'[tokens[i].userId])
    {
      assert i != k && tokens[i].userId != tokens[k].userId;
    }
    TokensSpent(users, users', tokens, tokens', addressed);
  }

  /** The remaining actions mint nothing and leave every address and its verification alone. */
  lemma OtherTokens(cfg: Config, db: Db, a: Action, t: Time)
    requires !a.DoRegister? && !a.DoForgot? && !a.DoUpdate? && !a.DoVerify?
    ensures MailedTo(cfg, db, a, t).None?
    ensures var after := After(cfg, db, a, t);
            && |after.tokens| == |db.tokens| && |after.users| == |db.users|
            && forall u :: 0 <= u < |db.users| ==> SameAddress(db.users[u], after.users[u])
  {
    if EditsRoles(a) {
      RoleEdits(cfg, db, a, t);
    } else if EditsSessions(a) {
      SessionEdits(cfg, db, a, t);
    }
  }

  lemma TokensOkStep(cfg: Config, w: World, a: Action, t: Time)
    requires TokensOk(w.db.users, w.db.tokens, w.addressed) && Enabled(cfg, w, a, t)
    ensures TokensOk(Step(cfg, w, a, t).db.users, Step(cfg, w, a, t).db.tokens, Step(cfg, w, a, t).addressed)
  {
    if a.DoRegister? {
      RegisterTokens(cfg, w, a, t);
    } else if a.DoForgot? {
      ForgotTokens(cfg, w, a, t);
    } else if a.DoUpdate? {
      UpdateTokens(cfg, w, a, t);
    } else if a.DoVerify? {
      VerifyTokens(cfg, w.db, a.presented, a.device, t, w.addressed);
    } else {
      var after := After(cfg, w.db, a, t);
      OtherTokens(cfg, w.db, a, t);
      TokensStep(cfg, w.db, a, t);
      TokensSpent(w.db.users, after.users, w.db.tokens, after.tokens, w.addressed);
    }
  }

  // ---------------------------------------------------------------- verified addresses

  /** The account was already verified under its present address. */
  predicate AlreadyVerified(users: seq<UserRow>, users': seq<UserRow>, u: nat)
    requires u < |users'|
  {
    u < |users| && users[u].IsEmailVerified() && users[u].email == users'[u].email
  }

  lemma ProvenanceKept(
      users: seq<UserRow>, users': seq<UserRow>, tokens: seq<TokenRow>, tokens': seq<TokenRow>,
      addressed: map<string, string>, addressed': map<string, string>, seeded: nat)
    requires ProvenanceOk(users, tokens, addressed, seeded) && TokensLater(tokens, tokens') && |users| <= |users'|
    requires forall i :: 0 <= i < |tokens| && tokens[i].tokenHash in addressed ==>
               tokens[i].tokenHash in addressed' && addressed'[tokens[i].tokenHash] == addressed[tokens[i].tokenHash]
    requires forall u :: seeded <= u < |users'| && users'[u].IsEmailVerified() ==>
               || AlreadyVerified(users, users', u)
               || exists i :: 0 <= i < |tokens'| && Proves(tokens'[i], addressed', u, users'[u].email)
    ensures ProvenanceOk(users', tokens', addressed', seeded)
  {
    forall u | seeded <= u < |users'| && users'[u].IsEmailVerified()
      ensures exists i :: 0 <= i < |tokens'| && Proves(tokens'[i], addressed', u, users'[u].email)
    {
      if AlreadyVerified(users, users', u) {
        var i :| 0 <= i < |tokens| && Proves(tokens[i], addressed, u, users[u].email);
        assert Proves(tokens'[i], addressed', u, users'[u].email);
      }
    }
  }

  lemma VerifyProves(cfg: Config, db: Db, presented: string, device: Device, t: Time, addressed: map<string, string>)
    requires TokensOk(db.users, db.tokens, addressed) && VerifyEmail(cfg, db, presented, device, t).1.Success?
    ensures var after := VerifyEmail(cfg, db, presented, device, t).0;
            var i := FindToken(db.tokens, cfg.secretHash(presented), EmailVerification).value;
            var u := db.tokens[i].userId;
            && |after.users| == |db.users| && |after.tokens| == |db.tokens| && i < |after.tokens|
            && Proves(after.tokens[i], addressed, u, after.users[u].email)
            && forall v :: 0 <= v < |db.users| && v != u ==> after.users[v] == db.users[v]
  {
  }

  /** No action but a spent link verifies an account. */
  /** Every verified account was verified before, with the same address. */
  ghost predicate NoneVerified(before: seq<UserRow>, after: seq<UserRow>) {
    |before| <= |after|
    && forall u :: 0 <= u < |after| && after[u].IsEmailVerified() ==> AlreadyVerified(before, after, u)
  }

  lemma RegisterVerifiesNone(cfg: Config, db: Db, a: Action, t: Time)
    requires a.DoRegister? || a.DoForgot?
    ensures NoneVerified(db.users, After(cfg, db, a, t).users)
  {
  }

  lemma UpdateVerifiesNone(cfg: Config, db: Db, a: Action, t: Time)
    requires a.DoUpdate?
    ensures NoneVerified(db.users, After(cfg, db, a, t).users)
  {
    if UpdateUser(cfg, db, a.user, a.edit, a.secret, t).1.Success? {
      UpdateShape(cfg, db, a.user, a.edit, a.secret, t);
    }
  }

  lemma OnlyVerifyVerifies(cfg: Config, db: Db, a: Action, t: Time)
    requires !a.DoVerify?
    ensures NoneVerified(db.users, After(cfg, db, a, t).users)
  {
    if a.DoUpdate? {
      UpdateVerifiesNone(cfg, db, a, t);
    } else if a.DoRegister? || a.DoForgot? {
      RegisterVerifiesNone(cfg, db, a, t);
    } else {
      OtherTokens(cfg, db, a, t);
    }
  }

  lemma AddressedKept(cfg: Config, w: World, a: Action, t: Time)
    requires Enabled(cfg, w, a, t)
    ensures forall i :: 0 <= i < |w.db.tokens| && w.db.tokens[i].tokenHash in w.addressed ==>
              var v := Step(cfg, w, a, t).addressed;
              w.db.tokens[i].tokenHash in v && v[w.db.tokens[i].tokenHash] == w.addressed[w.db.tokens[i].tokenHash]
  {
    assert forall i :: 0 <= i < |w.db.tokens| ==> w.db.tokens[i] in w.db.tokens;
  }

  lemma ProvenanceStep(cfg: Config, w: World, a: Action, t: Time)
    requires TokensOk(w.db.users, w.db.tokens, w.addressed) && Enabled(cfg, w, a, t)
    requires ProvenanceOk(w.db.users, w.db.tokens, w.addressed, w.seeded)
    ensures ProvenanceOk(Step(cfg, w, a, t).db.users, Step(cfg, w, a, t).db.tokens, Step(cfg, w, a, t).addressed,
        w.seeded)
  {
    var v := Step(cfg, w, a, t);
    TokensStep(cfg, w.db, a, t);
    AddressedKept(cfg, w, a, t);
    if a.DoVerify? {
      if VerifyEmail(cfg, w.db, a.presented, a.device, t).1.Success? {
        VerifyProves(cfg, w.db, a.presented, a.device, t, w.addressed);
      }
    } else {
      OnlyVerifyVerifies(cfg, w.db, a, t);
    }
    ProvenanceKept(w.db.users, v.db.users, w.db.tokens, v.db.tokens, w.addressed, v.addressed, w.seeded);
  }

  // ---------------------------------------------------------------- audit log

  /** At most one row is appended, and it is not a ban or an unban; nobody's activity changes. */
  ghost predicate NotModerated(db: Db, after: Db) {
    && |db.users| <= |after.users|
    && (forall u :: 0 <= u < |after.users| ==> after.users[u].isActive == (u < |db.users| ==> db.users[u].isActive))
    && (after.audit == db.audit
        || (|after.audit| == |db.audit| + 1 && after.audit[..|db.audit|] == db.audit
            && !after.audit[|db.audit|].event.UserBanned? && !after.audit[|db.audit|].event.UserUnbanned?))
  }

  lemma OthersDoNotModerate(cfg: Config, db: Db, a: Action, t: Time)
    requires !a.DoBan? && !a.DoUnban? && !a.DoDelete?
    ensures NotModerated(db, After(cfg, db, a, t))
  {
    if EditsRoles(a) {
      RoleEdits(cfg, db, a, t);
    } else if EditsProfile(a) {
      ProfilesDoNotModerate(cfg, db, a, t);
    } else if EditsPassword(a) {
      PasswordsDoNotModerate(cfg, db, a, t);
    }
  }

  lemma RegisterDoesNotModerate(cfg: Config, db: Db, a: Action, t: Time)
    requires a.DoRegister?
    ensures NotModerated(db, After(cfg, db, a, t))
  {
  }

  lemma UpdateDoesNotModerate(cfg: Config, db: Db, a: Action, t: Time)
    requires a.DoUpdate?
    ensures NotModerated(db, After(cfg, db, a, t))
  {
  }

  lemma VerifyDoesNotModerate(cfg: Config, db: Db, a: Action, t: Time)
    requires a.DoVerify?
    ensures NotModerated(db, After(cfg, db, a, t))
  {
  }

  lemma ProfilesDoNotModerate(cfg: Config, db: Db, a: Action, t: Time)
    requires EditsProfile(a)
    ensures NotModerated(db, After(cfg, db, a, t))
  {
    if a.DoRegister? {
      RegisterDoesNotModerate(cfg, db, a, t);
    } else if a.DoUpdate? {
      UpdateDoesNotModerate(cfg, db, a, t);
    } else {
      VerifyDoesNotModerate(cfg, db, a, t);
    }
  }

  lemma PasswordsDoNotModerate(cfg: Config, db: Db, a: Action, t: Time)
    requires EditsPassword(a)
    ensures NotModerated(db, After(cfg, db, a, t))
  {
  }

  lemma AuditKept(db: Db, after: Db)
    requires AuditOk(db.users, db.audit) && NotModerated(db, after)
    ensures AuditOk(after.users, after.audit)
  {
    forall u: UserId ensures Replay(after.audit, u) == Replay(db.audit, u) {
    }
  }

  /** A ban or unban row about the user, written with the flag it announces. */
  lemma AuditModerated(users: seq<UserRow>, users': seq<UserRow>, audit: seq<AuditRow>, row: AuditRow, u: UserId)
    requires AuditOk(users, audit) && u < |users| == |users'|
    requires row.userId == Some(u) && (row.event.UserBanned? || row.event.UserUnbanned?)
    requires users'[u].isActive == row.event.UserUnbanned?
    requires forall v :: 0 <= v < |users| && v != u ==> users'[v].isActive == users[v].isActive
    ensures AuditOk(users', audit + [row])
  {
    assert (audit + [row])[..|audit|] == audit;
    forall v: UserId ensures Replay(audit + [row], v) == (v < |users'| ==> users'[v].isActive) {
      assert Replay(audit, v) == (v < |users| ==> users[v].isActive);
    }
  }

  lemma AuditStepOk(cfg: Config, db: Db, a: Action, t: Time)
    requires AuditOk(db.users, db.audit)
    ensures AuditOk(After(cfg, db, a, t).users, After(cfg, db, a, t).audit)
  {
    var after := After(cfg, db, a, t);
    if a.DoBan? || a.DoUnban? || a.DoDelete? {
      if after != db {
        AuditModerated(db.users, after.users, db.audit, after.audit[|db.audit|], a.user);
      }
    } else {
      OthersDoNotModerate(cfg, db, a, t);
      AuditKept(db, after);
    }
  }

  // ---------------------------------------------------------------- the invariant

  /** Every action, successful or refused, keeps the whole invariant. */
  lemma StepKeepsInv(cfg: Config, w: World, a: Action, t: Time)
    requires Inv(w) && Enabled(cfg, w, a, t)
    ensures Inv(Step(cfg, w, a, t))
  {
    AccountsStep(cfg, w.db, a, t);
    SessionsOkStep(cfg, w.db, a, t);
    IssuedStep(cfg, w, a, t);
    ChainsStep(cfg, w, a, t);
    TokensOkStep(cfg, w, a, t);
    ProvenanceStep(cfg, w, a, t);
    AuditStepOk(cfg, w.db, a, t);
  }

  /** The run starts in a state that satisfies the invariant. */
  ghost predicate Lawful(cfg: Config, states: seq<World>, run: Run) {
    Behaves(cfg, states, run) && Inv(states[0])
  }

  lemma InvCarries(cfg: Config, states: seq<World>, run: Run, i: nat)
    requires Behaves(cfg, states, run) && i < |run| && Inv(states[i])
    ensures Inv(states[i + 1])
  {
    StepKeepsInv(cfg, states[i], run[i].0, run[i].1);
  }

  lemma LaterCarries(cfg: Config, states: seq<World>, run: Run, i: nat, w: World)
    requires Behaves(cfg, states, run) && i < |run| && Later(w, states[i])
    ensures Later(w, states[i + 1])
  {
    StepLater(cfg, states[i], run[i].0, run[i].1);
    LaterTransitive(w, states[i], states[i + 1]);
  }

  /** Every state of such a run satisfies it too. */
  lemma {:induction false} RunKeepsInv(cfg: Config, states: seq<World>, run: Run, k: nat)
    requires Lawful(cfg, states, run) && k <= |run|
    ensures Inv(states[k])
    decreases k
  {
    if k > 0 {
      RunKeepsInv(cfg, states, run, k - 1);
      InvCarries(cfg, states, run, k - 1);
    }
  }

  /** Along a run nothing recorded is undone. */
  lemma {:induction false} RunGoesForward(cfg: Config, states: seq<World>, run: Run, i: nat, j: nat)
    requires Behaves(cfg, states, run) && i <= j <= |run|
    ensures Later(states[i], states[j])
    decreases j
  {
    if i < j {
      RunGoesForward(cfg, states, run, i, j - 1);
      LaterCarries(cfg, states, run, j - 1, states[i]);
    }
  }
}
