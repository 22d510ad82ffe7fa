/** Which profile an account has in every reachable state: the one its own history says, and no other. */
module Profiles {
  import opened Wrappers
  import opened Entities
  import opened Tables
  import opened Transactions
  import opened Text
  import opened World
  import opened Invariants
  import opened Preservation
  import opened Frames
  import opened AccountEffects
  import opened RoleEffects

  /** Everything an account shows of itself except its password, its activity and its last change. */
  datatype Profile = Profile(
    email: string, username: string, displayName: Option<string>, verifiedAt: Option<Time>, superuser: bool,
    visitorId: Option<string>, createdAt: Time)

  function ProfileOf(users: seq<UserRow>, u: UserId): Option<Profile> {
    if u >= |users| then None
    else
      var row := users[u];
      Some(Profile(row.email, row.username, row.displayName, row.emailVerifiedAt, row.isSuperuser, row.visitorId,
          row.createdAt))
  }

  // ---------------------------------------------------------------- the events of a profile

  /** What an action means for one account's profile; `moved` says that an edit changed the address. */
  datatype Event = Joined(registration: Registration, at: Time) | Edited(edit: ProfileEdit, moved: bool)
                 | Confirmed(at: Time) | Unconcerned

  /** Only actions that succeeded count. */
  function EventOf(cfg: Config, db: Db, a: Action, t: Time, u: UserId): Event {
    match a
    case DoRegister(d, hash, secret, device) =>
      if u == |db.users| && Register(cfg, db, d, hash, secret, device, t).1.Success? then Joined(d, t) else Unconcerned
    case DoUpdate(v, edit, secret) =>
      if v == u && u < |db.users| && UpdateUser(cfg, db, u, edit, secret, t).1.Success?
      then Edited(edit, edit.email.Some? && Normalize(edit.email.value) != db.users[u].email) else Unconcerned
    case DoVerify(presented, device) =>
      var reply := VerifyEmail(cfg, db, presented, device, t).1;
      if reply.Success? && reply.value.id == u then Confirmed(t) else Unconcerned
    case _ => Unconcerned
  }

  /** The profile after the event, from the profile before it and what was asked. */
  function Next(p: Option<Profile>, e: Event): Option<Profile> {
    match e
    case Joined(d, t) =>
      Some(Profile(Normalize(d.email), Strip(d.username), d.displayName, None, false, d.visitorId, t))
    case Edited(edit, moved) => if p.None? then None else Some(Edit(p.value, edit))
    case Confirmed(t) =>
      if p.None? || p.value.verifiedAt.Some? then p else Some(p.value.(verifiedAt := Some(t)))
    case Unconcerned => p
  }

  function Edit(p: Profile, edit: ProfileEdit): Profile {
    var email := if edit.email.Some? then Normalize(edit.email.value) else p.email;
    p.(email := email,
       username := if edit.username.Some? then Strip(edit.username.value) else p.username,
       displayName := if edit.displayName.Some? then edit.displayName else p.displayName,
       verifiedAt := if email == p.email then p.verifiedAt else None)
  }

  // ---------------------------------------------------------------- one action

  /** An account joins once, and only an account that has joined is edited or confirmed. */
  predicate Apt(p: Option<Profile>, e: Event) {
    && (e.Joined? ==> p.None?)
    && (e.Edited? || e.Confirmed? ==> p.Some?)
    && (e.Edited? && p.Some? ==> (e.moved <==> Edit(p.value, e.edit).email != p.value.email))
  }

  /** The action does to the profile what its event says. */
  predicate Follows(cfg: Config, db: Db, a: Action, t: Time, u: UserId) {
    && ProfileOf(After(cfg, db, a, t).users, u) == Next(ProfileOf(db.users, u), EventOf(cfg, db, a, t, u))
    && Apt(ProfileOf(db.users, u), EventOf(cfg, db, a, t, u))
  }

  lemma RegisterFollows(cfg: Config, db: Db, a: Action, t: Time, u: UserId)
    requires a.DoRegister?
    ensures Follows(cfg, db, a, t, u)
  {
  }

  lemma UpdateFollows(cfg: Config, db: Db, a: Action, t: Time, u: UserId)
    requires a.DoUpdate?
    ensures Follows(cfg, db, a, t, u)
  {
    if UpdateUser(cfg, db, a.user, a.edit, a.secret, t).1.Success? {
      UpdateWrites(cfg, db, a.user, a.edit, a.secret, t);
    }
  }

  lemma VerifyFollows(cfg: Config, db: Db, a: Action, t: Time, u: UserId)
    requires a.DoVerify?
    ensures Follows(cfg, db, a, t, u)
  {
    if VerifyEmail(cfg, db, a.presented, a.device, t).1.Success? {
      var i := VerifyStamps(cfg, db, a.presented, a.device, t);
    }
  }

  lemma PasswordFollows(cfg: Config, db: Db, a: Action, t: Time, u: UserId)
    requires EditsPassword(a)
    ensures Follows(cfg, db, a, t, u)
  {
  }

  lemma StepFollows(cfg: Config, db: Db, a: Action, t: Time, u: UserId)
    ensures Follows(cfg, db, a, t, u)
  {
    if a.DoRegister? {
      RegisterFollows(cfg, db, a, t, u);
    } else if a.DoUpdate? {
      UpdateFollows(cfg, db, a, t, u);
    } else if a.DoVerify? {
      VerifyFollows(cfg, db, a, t, u);
    } else if EditsPassword(a) {
      PasswordFollows(cfg, db, a, t, u);
    } else if EditsRoles(a) {
      RoleEdits(cfg, db, a, t);
    } else {
      SessionEdits(cfg, db, a, t);
    }
  }

  // ---------------------------------------------------------------- every run

  predicate EventIs(cfg: Config, states: seq<World>, run: Run, u: UserId, events: seq<Event>, i: nat)
    requires |states| == |run| + 1 && |events| == |run| && i < |run|
  {
    events[i] == EventOf(cfg, states[i].db, run[i].0, run[i].1, u)
  }

  /** The account's events along the run. */
  ghost predicate Witnessed(cfg: Config, states: seq<World>, run: Run, u: UserId, events: seq<Event>) {
    && Behaves(cfg, states, run) && |events| == |run|
    && forall i: nat :: i < |run| ==> EventIs(cfg, states, run, u, events, i)
  }

  /** Every run has them. */
  lemma EventsExist(cfg: Config, states: seq<World>, run: Run, u: UserId) returns (events: seq<Event>)
    requires Behaves(cfg, states, run)
    ensures Witnessed(cfg, states, run, u, events)
  {
    events := seq(|run|, i requires 0 <= i < |run| => EventOf(cfg, states[i].db, run[i].0, run[i].1, u));
    forall i: nat | i < |run| ensures EventIs(cfg, states, run, u, events, i) {
    }
  }

  lemma StepRecorded(cfg: Config, states: seq<World>, run: Run, u: UserId, events: seq<Event>, i: nat)
    requires Witnessed(cfg, states, run, u, events) && i < |run|
    ensures ProfileOf(states[i + 1].db.users, u) == Next(ProfileOf(states[i].db.users, u), events[i])
    ensures Apt(ProfileOf(states[i].db.users, u), events[i])
  {
    assert EventIs(cfg, states, run, u, events, i);
    StepFollows(cfg, states[i].db, run[i].0, run[i].1, u);
  }

  /** The profile the first `k` events give. */
  function Recorded(start: Option<Profile>, events: seq<Event>, k: nat): Option<Profile>
    requires k <= |events|
  {
    if k == 0 then start else Next(Recorded(start, events, k - 1), events[k - 1])
  }

  /** In every reachable state every account has exactly the profile its registration, edits and verifications give. */
  lemma {:induction false} ProfileHistory(
      cfg: Config, states: seq<World>, run: Run, u: UserId, events: seq<Event>, k: nat)
    requires Witnessed(cfg, states, run, u, events) && k <= |run|
    ensures ProfileOf(states[k].db.users, u) == Recorded(ProfileOf(states[0].db.users, u), events, k)
  {
    if k > 0 {
      ProfileHistory(cfg, states, run, u, events, k - 1);
      StepRecorded(cfg, states, run, u, events, k - 1);
    }
  }

  predicate Superuser(users: seq<UserRow>, u: UserId) {
    u < |users| && users[u].isSuperuser
  }

  lemma {:induction false} SuperuserByEvents(
      cfg: Config, states: seq<World>, run: Run, u: UserId, events: seq<Event>, k: nat)
    requires Witnessed(cfg, states, run, u, events) && k <= |run|
    ensures Superuser(states[k].db.users, u) <==> Superuser(states[0].db.users, u)
  {
    if k > 0 {
      SuperuserByEvents(cfg, states, run, u, events, k - 1);
      StepRecorded(cfg, states, run, u, events, k - 1);
    }
  }

  /** In every reachable state the superusers are exactly the accounts that were seeded as superusers. */
  lemma SuperusersWereSeeded(cfg: Config, states: seq<World>, run: Run, k: nat, u: UserId)
    requires Behaves(cfg, states, run) && k <= |run|
    ensures Superuser(states[k].db.users, u) <==> Superuser(states[0].db.users, u)
  {
    var events := EventsExist(cfg, states, run, u);
    SuperuserByEvents(cfg, states, run, u, events, k);
  }

  // ---------------------------------------------------------------- who is verified

  predicate Verified(users: seq<UserRow>, u: UserId) {
    u < |users| && users[u].emailVerifiedAt.Some?
  }

  /** The event leaves the account unverified: it joins, or its address changes. */
  predicate Unsettles(e: Event) {
    e.Joined? || (e.Edited? && e.moved)
  }

  ghost predicate Settled(events: seq<Event>, from: nat, until: nat) {
    forall i: nat :: from <= i < until && i < |events| ==> !Unsettles(events[i])
  }

  /** Event `i` confirmed the address, and it has not changed since. */
  ghost predicate LastConfirmed(events: seq<Event>, i: nat, k: nat) {
    i < k && i < |events| && events[i].Confirmed? && Settled(events, i + 1, k)
  }

  /** The latest event that matters is a verification, or there is none and the account started verified. */
  ghost predicate VerifiedByHistory(start: bool, events: seq<Event>, k: nat) {
    (exists i: nat :: LastConfirmed(events, i, k)) || (start && Settled(events, 0, k))
  }

  lemma StaysVerified(start: bool, events: seq<Event>, k: nat, next: nat)
    requires k < |events| && next == k + 1 && VerifiedByHistory(start, events, k) && !Unsettles(events[k])
    ensures VerifiedByHistory(start, events, next)
  {
    if exists i: nat :: LastConfirmed(events, i, k) {
      var i: nat :| LastConfirmed(events, i, k);
      assert LastConfirmed(events, i, next);
    } else {
      assert Settled(events, 0, next);
    }
  }

  lemma WasVerified(start: bool, events: seq<Event>, k: nat, next: nat)
    requires k < |events| && next == k + 1 && VerifiedByHistory(start, events, next) && !events[k].Confirmed?
    ensures VerifiedByHistory(start, events, k) && !Unsettles(events[k])
  {
    if exists i: nat :: LastConfirmed(events, i, next) {
      var i: nat :| LastConfirmed(events, i, next);
      assert i < k;
      assert LastConfirmed(events, i, k);
    }
  }

  lemma HistoryStep(start: bool, events: seq<Event>, k: nat)
    requires k < |events|
    ensures VerifiedByHistory(start, events, k + 1) <==>
              events[k].Confirmed? || (VerifiedByHistory(start, events, k) && !Unsettles(events[k]))
  {
    if events[k].Confirmed? {
      assert LastConfirmed(events, k, k + 1);
    } else if VerifiedByHistory(start, events, k + 1) {
      WasVerified(start, events, k, k + 1);
    } else if VerifiedByHistory(start, events, k) && !Unsettles(events[k]) {
      StaysVerified(start, events, k, k + 1);
    }
  }

  /**
   * In every reachable state an account is verified if and only if its latest event among
   * registration, change of address and successful verification is a verification, or it
   * started verified and has had none of them since.
   */
  lemma {:induction false} VerifiedExactly(
      cfg: Config, states: seq<World>, run: Run, u: UserId, events: seq<Event>, k: nat)
    requires Witnessed(cfg, states, run, u, events) && k <= |run|
    ensures Verified(states[k].db.users, u) <==> VerifiedByHistory(Verified(states[0].db.users, u), events, k)
  {
    if k > 0 {
      VerifiedExactly(cfg, states, run, u, events, k - 1);
      StepRecorded(cfg, states, run, u, events, k - 1);
      HistoryStep(Verified(states[0].db.users, u), events, k - 1);
    }
  }

  // ---------------------------------------------------------------- registrations and edits anywhere

  /**
   * In every reachable state a registration that succeeds adds exactly one account, holding exactly the
   * default role.
   */
  lemma RegistrationsAdd(
      cfg: Config, states: seq<World>, run: Run, k: nat, d: Registration, hash: string, secret: string, device: Device,
      t: Time)
    requires Lawful(cfg, states, run) && k <= |run| && LinksOwned(states[0].db.users, states[0].db.userRoles)
    requires Register(cfg, states[k].db, d, hash, secret, device, t).1.Success?
    ensures var db := states[k].db;
            var (after, reply) := Register(cfg, db, d, hash, secret, device, t);
            var u := |db.users|;
            && |after.users| == u + 1 && after.users[..u] == db.users && NewAccount(after.users[u], d, hash, t)
            && LoadUser(after, u) == Some(reply.value) && ExactlyNamed(db, reply.value.roles, cfg.defaultRole)
            && LinkAdded(db.tokens, after.tokens, u, EmailVerification, cfg.secretHash(secret), t,
                         cfg.verificationHours * 3600)
            && forall v :: 0 <= v < u ==> LoadUser(after, v) == LoadUser(db, v)
  {
    LinksStayOwned(cfg, states, run, k);
    TokensAreOwned(cfg, states, run, k);
    RegisterAdds(cfg, states[k].db, d, hash, secret, device, t);
    RegisterGrantsDefaultRole(cfg, states[k].db, d, hash, secret, device, t);
  }

  lemma TokensAreOwned(cfg: Config, states: seq<World>, run: Run, k: nat)
    requires Lawful(cfg, states, run) && k <= |run|
    ensures TokensOwned(states[k].db.users, states[k].db.tokens)
  {
    RunKeepsInv(cfg, states, run, k);
  }

  /** In every reachable state an edit succeeds if and only if its account exists and no other has the new names. */
  lemma EditsSucceed(
      cfg: Config, states: seq<World>, run: Run, k: nat, u: UserId, edit: ProfileEdit, secret: string, t: Time)
    requires Lawful(cfg, states, run) && k <= |run|
    ensures var db := states[k].db;
            UpdateUser(cfg, db, u, edit, secret, t).1.Success? <==> u < |db.users| && NamesFree(db.users, u, edit)
  {
    RunKeepsInv(cfg, states, run, k);
    UpdateSucceeds(cfg, states[k].db, u, edit, secret, t);
  }
}
