/** A run of the service that signs in, refreshes and signs out, from any seeded database. */
module SampleRun {
  import opened Wrappers
  import opened Entities
  import opened Tables
  import opened Transactions
  import opened Text
  import opened World
  import opened Invariants
  import opened Preservation
  import opened Theorems

  predicate Seeded(db: Db, u: UserId) {
    db.sessions == [] && db.tokens == [] && db.audit == [] && u < |db.users|
    && forall v :: 0 <= v < |db.users| ==> db.users[v].isActive
  }

  function Start(db: Db, now: Time): World {
    World(db, now, {}, map[], map[], |db.users|)
  }

  /** The right password signs the user in: one session, whose refresh token is handed out. */
  lemma SignsIn(cfg: Config, db: Db, now: Time, u: UserId, password: string, device: Device, jti: string, t: Time)
    requires AccountsOk(db.users) && Seeded(db, u) && cfg.passwordMatches(password, db.users[u].passwordHash) &&
        now <= t
    ensures var a := DoLogin(db.users[u].email, password, device, jti);
            var after, refresh := Step(cfg, Start(db, now), a, t), Issue(u, jti, Refresh, cfg.refreshMinutes, t);
            && Enabled(cfg, Start(db, now), a, t)
            && after.db.users == db.users && after.now == t && refresh.claims in after.issued
            && after.db.sessions == [NewSession(u, jti, t, refresh, device, t)] && after.root == map[jti := jti]
  {
    FindEmailAt(db.users, u);
    assert Normalize(db.users[u].email) == db.users[u].email;
  }

  /** The token refreshes once before its `exp`, and the new session joins the chain. */
  lemma Refreshed(cfg: Config, w: World, u: UserId, device: Device, first: string, second: string, t: Time, later: Time)
    requires u < |w.db.users| && w.db.users[u].isActive && first != second && w.now <= later
    requires var refresh := Issue(u, first, Refresh, cfg.refreshMinutes, t);
             && refresh.claims in w.issued && later < refresh.claims.exp * SECOND && w.root == map[first := first]
             && w.db.sessions == [NewSession(u, first, t, refresh, device, t)]
    ensures var c := Issue(u, first, Refresh, cfg.refreshMinutes, t).claims;
            var a := DoRefresh(Signed(c), device, second);
            var after := Step(cfg, w, a, later);
            && Enabled(cfg, w, a, later) && Refreshes(cfg, w.db, a, later, c) && c in after.issued
            && |after.db.sessions| == 2 && Kin(after.db.sessions, after.root, 0, 1) && after.now == later
  {
    var c := Issue(u, first, Refresh, cfg.refreshMinutes, t).claims;
    var a := DoRefresh(Signed(c), device, second);
    assert w.db.sessions[..0] == [];
    assert FindJti(w.db.sessions, first) == Some(0);
    assert FindJti(w.db.sessions, second).None?;
    var after := Step(cfg, w, a, later);
    assert after.db.sessions[0].jti == first && after.db.sessions[1].jti == second;
  }

  lemma Extended(cfg: Config, states: seq<World>, run: Run, a: Action, t: Time) returns (states': seq<World>, run': Run)
    requires Lawful(cfg, states, run) && Enabled(cfg, states[|run|], a, t)
    ensures Lawful(cfg, states', run') && run' == run + [(a, t)]
    ensures states' == states + [Step(cfg, states[|run|], a, t)]
  {
    RunGoesOn(cfg, states, run, a, t);
    states', run' := states + [Step(cfg, states[|run|], a, t)], run + [(a, t)];
  }

  /** The state after the sign-in: one session, whose refresh token is held. */
  predicate SignedIn(cfg: Config, w: World, u: UserId, device: Device, jti: string, t: Time) {
    var refresh := Issue(u, jti, Refresh, cfg.refreshMinutes, t);
    && u < |w.db.users| && w.db.users[u].isActive && w.now == t
    && refresh.claims in w.issued && w.root == map[jti := jti]
    && w.db.sessions == [NewSession(u, jti, t, refresh, device, t)]
  }

  lemma RunSignsIn(cfg: Config, db: Db, now: Time, u: UserId, password: string, device: Device, jti: string, t: Time)
    returns (states: seq<World>, run: Run)
    requires AccountsOk(db.users) && Seeded(db, u) && cfg.passwordMatches(password, db.users[u].passwordHash) &&
        now <= t
    ensures Lawful(cfg, states, run) && |run| == 1 && states[0] == Start(db, now)
    ensures SignedIn(cfg, states[1], u, device, jti, t)
  {
    SeededStart(cfg, db, now);
    SignsIn(cfg, db, now, u, password, device, jti, t);
    states, run := Extended(cfg, [Start(db, now)], [], DoLogin(db.users[u].email, password, device, jti), t);
  }

  lemma RunRefreshes(
    cfg: Config, states: seq<World>, run: Run, u: UserId, device: Device, first: string, second: string, t: Time,
    later: Time)
    returns (states': seq<World>, run': Run)
    requires Lawful(cfg, states, run) && |run| == 1 && SignedIn(cfg, states[1], u, device, first, t)
    requires first != second && t <= later < Issue(u, first, Refresh, cfg.refreshMinutes, t).claims.exp * SECOND
    ensures Lawful(cfg, states', run') && |run'| == 2 && states'[..2] == states
    ensures var c := Issue(u, first, Refresh, cfg.refreshMinutes, t).claims;
            Refreshes(cfg, states'[1].db, run'[1].0, run'[1].1, c) && c in states'[2].issued
    ensures |states'[2].db.sessions| == 2 && Kin(states'[2].db.sessions, states'[2].root, 0, 1) &&
        states'[2].now == later
  {
    var c := Issue(u, first, Refresh, cfg.refreshMinutes, t).claims;
    Refreshed(cfg, states[1], u, device, first, second, t, later);
    states', run' := Extended(cfg, states, run, DoRefresh(Signed(c), device, second), later);
  }

  lemma RunSignsOut(cfg: Config, states: seq<World>, run: Run, u: UserId, device: Device)
    returns (states': seq<World>, run': Run)
    requires Lawful(cfg, states, run)
    ensures Lawful(cfg, states', run') && |run'| == |run| + 1 && states'[..|run| + 1] == states && run'[..|run|] == run
    ensures SignsOut(cfg, states'[|run|].db, run'[|run|].0, run'[|run|].1, u, None)
  {
    states', run' := Extended(cfg, states, run, DoRevokeAll(u, None, device), states[|run|].now);
  }

  /**
   * From every seeded database every user with a password has a lawful run that signs in,
   * refreshes and signs out everywhere, so the theorems about rotation and sign-out speak of
   * runs that exist.
   */
  lemma SignInRefreshSignOut(
    cfg: Config, db: Db, now: Time, u: UserId, password: string, device: Device,
    first: string, second: string, t: Time, later: Time)
    returns (states: seq<World>, run: Run)
    requires AccountsOk(db.users) && Seeded(db, u) && cfg.passwordMatches(password, db.users[u].passwordHash)
    requires first != second && now <= t <= later
    requires later < Issue(u, first, Refresh, cfg.refreshMinutes, t).claims.exp * SECOND
    ensures |run| == 3 && Lawful(cfg, states, run) && states[0] == Start(db, now)
    ensures var c := Issue(u, first, Refresh, cfg.refreshMinutes, t).claims;
            && Refreshes(cfg, states[1].db, run[1].0, run[1].1, c)
            && |states[2].db.sessions| == 2 && Kin(states[2].db.sessions, states[2].root, 0, 1)
            && c in states[2].issued && SignsOut(cfg, states[2].db, run[2].0, run[2].1, u, None)
  {
    var one, one' := RunSignsIn(cfg, db, now, u, password, device, first, t);
    var two, two' := RunRefreshes(cfg, one, one', u, device, first, second, t, later);
    states, run := RunSignsOut(cfg, two, two', u, device);
    assert states[0] == two[0] == one[0];
    assert states[1] == two[1] && states[2] == two[2] && run[1] == two'[1];
  }
}
