/**
 * How old a served user can be when requests, commits and cache operations interleave freely.
 *
 * Reading the cache, reading the database, writing the entry back and replying are separate steps
 * here; any number of requests are in flight, and cache deletes come late, early or never.
 */
module Staleness {
  import opened Wrappers
  import opened Entities
  import opened Tables
  import opened UserCache

  /** A committed database and the instant of its commit. */
  datatype Version = Version(db: Db, at: Time)

  /** A request that has read its user and has not replied yet. */
  datatype InFlight =
    | Loaded(user: UserId, found: Option<User>, since: Time, stored: bool)
    | Hit(user: UserId, found: Option<User>, since: Time)

  datatype Answer = Answer(user: UserId, found: Option<User>, at: Time)

  datatype System = System(
    now: Time, versions: seq<Version>, entries: Entries, inFlight: seq<InFlight>, answers: seq<Answer>)

  /**
   * `loading` bounds the time from a request's database read to its write-back and reply, and
   * `replying` the time from its cache read to its reply, when that read was a hit.
   */
  datatype Limits = Limits(ttlSeconds: nat, loading: nat, replying: nat)
  {
    function EntryAge(): nat {
      ttlSeconds * SECOND + loading
    }

    function Bound(): nat {
      EntryAge() + replying
    }
  }

  datatype Event =
    | Tick(to: Time)
    | Commit(db: Db)
    | Evict(user: UserId)
    | ReadCache(user: UserId)
    | ReadDatabase(user: UserId)
    | WriteBack(request: nat)
    | Reply(request: nat)

  predicate Enabled(limits: Limits, s: System, e: Event) {
    match e
    case Tick(t) => s.now <= t
    case Commit(_) => true
    case Evict(_) => true
    case ReadCache(u) => Cached(s.entries, Key(u), s.now).Some?
    case ReadDatabase(_) => s.versions != []
    case WriteBack(k) =>
      && k < |s.inFlight| && s.inFlight[k].Loaded? && s.inFlight[k].found.Some? && !s.inFlight[k].stored
      && s.now <= s.inFlight[k].since + limits.loading
    case Reply(k) =>
      && k < |s.inFlight|
      && match s.inFlight[k]
         case Loaded(_, found, since, stored) => (stored || found.None?) && s.now <= since + limits.loading
         case Hit(_, _, since) => s.now <= since + limits.replying
  }

  function Next(limits: Limits, format: TimeFormat, s: System, e: Event): System
    requires Enabled(limits, s, e)
  {
    match e
    case Tick(t) => s.(now := t)
    case Commit(db) => s.(versions := s.versions + [Version(db, s.now)])
    case Evict(u) => s.(entries := s.entries - {Key(u)})
    case ReadCache(u) =>
      s.(inFlight := s.inFlight + [Hit(u, Loads(format, Cached(s.entries, Key(u), s.now).value), s.now)])
    case ReadDatabase(u) =>
      s.(inFlight := s.inFlight + [Loaded(u, LoadUser(s.versions[|s.versions| - 1].db, u), s.now, false)])
    case WriteBack(k) =>
      var r := s.inFlight[k];
      s.(entries := Put(s.entries, Key(r.user), Dumps(format, r.found.value), limits.ttlSeconds, s.now),
         inFlight := s.inFlight[k := r.(stored := true)])
    case Reply(k) =>
      var r := s.inFlight[k];
      s.(inFlight := s.inFlight[..k] + s.inFlight[k + 1..], answers := s.answers + [Answer(r.user, r.found, s.now)])
  }

  function Final(limits: Limits, format: TimeFormat, s: System, run: seq<Event>): System
    requires ValidRun(limits, format, s, run)
    decreases |run|
  {
    if run == [] then s else Final(limits, format, Next(limits, format, s, run[0]), run[1..])
  }

  predicate ValidRun(limits: Limits, format: TimeFormat, s: System, run: seq<Event>)
    decreases |run|
  {
    run == [] || (Enabled(limits, s, run[0]) && ValidRun(limits, format, Next(limits, format, s, run[0]), run[1..]))
  }

  /** One committed database, a cold cache and no requests. */
  function Start(db: Db, now: Time): System {
    System(now, [Version(db, now)], map[], [], [])
  }

  // ---------------------------------------------------------------- what was in force when

  /** A version is in force from its commit up to the next commit. */
  predicate InForce(versions: seq<Version>, i: nat, at: Time) {
    && i < |versions| && versions[i].at <= at
    && (i + 1 < |versions| ==> at <= versions[i + 1].at)
  }

  /** Some database in force at the instant loads exactly this for the user. */
  ghost predicate Held(versions: seq<Version>, u: UserId, found: Option<User>, at: Time) {
    exists i: nat :: InForce(versions, i, at) && LoadUser(versions[i].db, u) == found
  }

  /** It was held at an instant less than `age` before `now`. */
  ghost predicate HeldWithin(versions: seq<Version>, u: UserId, found: Option<User>, now: Time, age: nat) {
    exists at: Time :: at <= now < at + age && Held(versions, u, found, at)
  }

  ghost predicate EntryOk(
      limits: Limits, format: TimeFormat, versions: seq<Version>, key: string, entry: Entry, now: Time)
  {
    exists u: UserId, user: User, at: Time ::
      && key == Key(u) && entry.payload == Dumps(format, user)
      && Held(versions, u, Some(user), at) && at <= now && entry.expiresAt <= at + limits.EntryAge()
  }

  ghost predicate RequestOk(limits: Limits, versions: seq<Version>, r: InFlight, now: Time) {
    && r.since <= now
    && match r
       case Loaded(u, found, since, _) => Held(versions, u, found, since)
       case Hit(u, found, since) => HeldWithin(versions, u, found, since, limits.EntryAge())
  }

  ghost predicate EntriesOk(limits: Limits, format: TimeFormat, versions: seq<Version>, entries: Entries, now: Time) {
    forall key :: key in entries ==> EntryOk(limits, format, versions, key, entries[key], now)
  }

  ghost predicate RequestsOk(limits: Limits, versions: seq<Version>, inFlight: seq<InFlight>, now: Time) {
    forall r :: r in inFlight ==> RequestOk(limits, versions, r, now)
  }

  ghost predicate AnswersOk(limits: Limits, versions: seq<Version>, answers: seq<Answer>, now: Time) {
    forall a :: a in answers ==> a.at <= now && HeldWithin(versions, a.user, a.found, a.at, limits.Bound())
  }

  ghost predicate Inv(limits: Limits, format: TimeFormat, s: System) {
    && s.versions != [] && s.versions[|s.versions| - 1].at <= s.now
    && EntriesOk(limits, format, s.versions, s.entries, s.now)
    && RequestsOk(limits, s.versions, s.inFlight, s.now)
    && AnswersOk(limits, s.versions, s.answers, s.now)
  }

  // ---------------------------------------------------------------- every step

  lemma HeldAfterCommit(versions: seq<Version>, next: Version, u: UserId, found: Option<User>, at: Time)
    requires Held(versions, u, found, at) && at <= next.at
    ensures Held(versions + [next], u, found, at)
  {
    var i: nat :| InForce(versions, i, at) && LoadUser(versions[i].db, u) == found;
    assert InForce(versions + [next], i, at);
  }

  lemma WithinAfterCommit(versions: seq<Version>, next: Version, u: UserId, found: Option<User>, now: Time, age: nat)
    requires HeldWithin(versions, u, found, now, age) && now <= next.at
    ensures HeldWithin(versions + [next], u, found, now, age)
  {
    var at: Time :| at <= now < at + age && Held(versions, u, found, at);
    HeldAfterCommit(versions, next, u, found, at);
  }

  lemma EntryAfterCommit(
      limits: Limits, format: TimeFormat, versions: seq<Version>, next: Version, key: string, entry: Entry)
    requires EntryOk(limits, format, versions, key, entry, next.at)
    ensures EntryOk(limits, format, versions + [next], key, entry, next.at)
  {
    var u: UserId, user: User, at: Time :|
      && key == Key(u) && entry.payload == Dumps(format, user)
      && Held(versions, u, Some(user), at) && at <= next.at && entry.expiresAt <= at + limits.EntryAge();
    HeldAfterCommit(versions, next, u, Some(user), at);
  }

  lemma CommitKeepsInv(limits: Limits, format: TimeFormat, s: System, db: Db)
    requires Inv(limits, format, s)
    ensures Inv(limits, format, Next(limits, format, s, Commit(db)))
  {
    var next := Version(db, s.now);
    forall key | key in s.entries ensures EntryOk(limits, format, s.versions + [next], key, s.entries[key], s.now) {
      EntryAfterCommit(limits, format, s.versions, next, key, s.entries[key]);
    }
    forall r | r in s.inFlight ensures RequestOk(limits, s.versions + [next], r, s.now) {
      if r.Loaded? {
        HeldAfterCommit(s.versions, next, r.user, r.found, r.since);
      } else {
        WithinAfterCommit(s.versions, next, r.user, r.found, r.since, limits.EntryAge());
      }
    }
    forall a | a in s.answers ensures HeldWithin(s.versions + [next], a.user, a.found, a.at, limits.Bound()) {
      WithinAfterCommit(s.versions, next, a.user, a.found, a.at, limits.Bound());
    }
  }

  lemma TickKeepsInv(limits: Limits, format: TimeFormat, s: System, t: Time)
    requires Inv(limits, format, s) && s.now <= t
    ensures Inv(limits, format, s.(now := t))
  {
    forall key | key in s.entries ensures EntryOk(limits, format, s.versions, key, s.entries[key], t) {
      assert EntryOk(limits, format, s.versions, key, s.entries[key], s.now);
    }
  }

  /** A hit returns what some database in force not long ago would have loaded. */
  lemma HitIsRecent(limits: Limits, format: TimeFormat, s: System, u: UserId)
    requires Inv(limits, format, s) && Inverts(format) && Cached(s.entries, Key(u), s.now).Some?
    ensures HeldWithin(s.versions, u, Loads(format, Cached(s.entries, Key(u), s.now).value), s.now, limits.EntryAge())
  {
    var entry := s.entries[Key(u)];
    assert EntryOk(limits, format, s.versions, Key(u), entry, s.now);
    var v: UserId, user: User, at: Time :|
      && Key(u) == Key(v) && entry.payload == Dumps(format, user)
      && Held(s.versions, v, Some(user), at) && at <= s.now && entry.expiresAt <= at + limits.EntryAge();
    KeyInjective(u, v);
    CodecRoundTrip(format, user);
  }

  lemma WriteBackKeepsEntries(limits: Limits, format: TimeFormat, s: System, k: nat)
    requires Inv(limits, format, s) && Enabled(limits, s, WriteBack(k))
    ensures EntriesOk(limits, format, s.versions, Next(limits, format, s, WriteBack(k)).entries, s.now)
  {
    var r := s.inFlight[k];
    assert RequestOk(limits, s.versions, r, s.now);
    assert Held(s.versions, r.user, Some(r.found.value), r.since);
  }

  lemma WriteBackKeepsRequests(limits: Limits, format: TimeFormat, s: System, k: nat)
    requires Inv(limits, format, s) && Enabled(limits, s, WriteBack(k))
    ensures RequestsOk(limits, s.versions, Next(limits, format, s, WriteBack(k)).inFlight, s.now)
  {
    assert RequestOk(limits, s.versions, s.inFlight[k], s.now);
    assert RequestOk(limits, s.versions, s.inFlight[k].(stored := true), s.now);
  }

  /** A reply goes out within the bound of the instant its user was in force. */
  lemma ReplyIsRecent(limits: Limits, format: TimeFormat, s: System, k: nat)
    requires Inv(limits, format, s) && Enabled(limits, s, Reply(k)) && limits.ttlSeconds > 0
    ensures HeldWithin(s.versions, s.inFlight[k].user, s.inFlight[k].found, s.now, limits.Bound())
  {
    var r := s.inFlight[k];
    assert RequestOk(limits, s.versions, r, s.now);
    if r.Hit? {
      var at: Time :| at <= r.since < at + limits.EntryAge() && Held(s.versions, r.user, r.found, at);
    }
  }

  lemma NewRequestKeepsInv(limits: Limits, format: TimeFormat, s: System, r: InFlight)
    requires Inv(limits, format, s) && RequestOk(limits, s.versions, r, s.now)
    ensures Inv(limits, format, s.(inFlight := s.inFlight + [r]))
  {
    var after := s.(inFlight := s.inFlight + [r]);
    assert RequestsOk(limits, s.versions, after.inFlight, s.now);
  }

  lemma ReadKeepsInv(limits: Limits, format: TimeFormat, s: System, e: Event)
    requires e.ReadCache? || e.ReadDatabase?
    requires Inv(limits, format, s) && Enabled(limits, s, e) && Inverts(format)
    ensures Inv(limits, format, Next(limits, format, s, e))
  {
    if e.ReadCache? {
      HitIsRecent(limits, format, s, e.user);
    } else {
      assert InForce(s.versions, |s.versions| - 1, s.now);
    }
    var after := Next(limits, format, s, e);
    NewRequestKeepsInv(limits, format, s, after.inFlight[|s.inFlight|]);
  }

  lemma ReplyKeepsInv(limits: Limits, format: TimeFormat, s: System, k: nat)
    requires Inv(limits, format, s) && Enabled(limits, s, Reply(k)) && limits.ttlSeconds > 0
    ensures Inv(limits, format, Next(limits, format, s, Reply(k)))
  {
    ReplyIsRecent(limits, format, s, k);
    var after := Next(limits, format, s, Reply(k));
    assert AnswersOk(limits, s.versions, after.answers, s.now);
    assert RequestsOk(limits, s.versions, after.inFlight, s.now);
  }

  lemma StepKeepsInv(limits: Limits, format: TimeFormat, s: System, e: Event)
    requires Inv(limits, format, s) && Enabled(limits, s, e) && Inverts(format) && limits.ttlSeconds > 0
    ensures Inv(limits, format, Next(limits, format, s, e))
  {
    match e
    case Tick(t) => TickKeepsInv(limits, format, s, t);
    case Commit(db) => CommitKeepsInv(limits, format, s, db);
    case Evict(u) => assert EntriesOk(limits, format, s.versions, s.entries - {Key(u)}, s.now);
    case ReadCache(u) => ReadKeepsInv(limits, format, s, e);
    case ReadDatabase(u) => ReadKeepsInv(limits, format, s, e);
    case WriteBack(k) =>
      WriteBackKeepsEntries(limits, format, s, k);
      WriteBackKeepsRequests(limits, format, s, k);
    case Reply(k) => ReplyKeepsInv(limits, format, s, k);
  }

  lemma {:induction false} RunKeepsInv(limits: Limits, format: TimeFormat, s: System, run: seq<Event>)
    requires Inv(limits, format, s) && ValidRun(limits, format, s, run) && Inverts(format) && limits.ttlSeconds > 0
    ensures Inv(limits, format, Final(limits, format, s, run))
    decreases |run|
  {
    if run != [] {
      StepKeepsInv(limits, format, s, run[0]);
      RunKeepsInv(limits, format, Next(limits, format, s, run[0]), run[1..]);
    }
  }

  /**
   * Bounded staleness: whatever is interleaved, every reply carries the user as a database in
   * force less than the entry lifetime plus the two request bounds ago would have loaded it.
   */
  lemma BoundedStaleness(limits: Limits, format: TimeFormat, db: Db, start: Time, run: seq<Event>, k: nat)
    requires Inverts(format) && limits.ttlSeconds > 0 && ValidRun(limits, format, Start(db, start), run)
    requires k < |Final(limits, format, Start(db, start), run).answers|
    ensures var s := Final(limits, format, Start(db, start), run);
            HeldWithin(s.versions, s.answers[k].user, s.answers[k].found, s.answers[k].at, limits.Bound())
  {
    RunKeepsInv(limits, format, Start(db, start), run);
  }

  // ---------------------------------------------------------------- when the next request sees an edit

  /** A version from `c` on loads exactly this for the user. */
  ghost predicate LoadedSince(versions: seq<Version>, c: nat, u: UserId, found: Option<User>) {
    exists i: nat :: c <= i < |versions| && LoadUser(versions[i].db, u) == found
  }

  predicate Reads(e: Event, u: UserId) {
    (e.ReadCache? || e.ReadDatabase?) && e.user == u
  }

  /** Every read of the user along the run, hit or miss, yields what a version from `c` on loads. */
  ghost predicate ReadsSince(limits: Limits, format: TimeFormat, s: System, run: seq<Event>, u: UserId, c: nat)
    requires ValidRun(limits, format, s, run)
    decreases |run|
  {
    run == [] ||
    (var after := Next(limits, format, s, run[0]);
     && (Reads(run[0], u) ==> LoadedSince(after.versions, c, u, after.inFlight[|after.inFlight| - 1].found))
     && ReadsSince(limits, format, after, run[1..], u, c))
  }

  /** The request has read the user, may still write it back, and read it before version `c`. */
  ghost predicate Overtakes(limits: Limits, s: System, r: InFlight, u: UserId, c: nat) {
    && r.Loaded? && r.user == u && r.found.Some? && !r.stored && s.now <= r.since + limits.loading
    && !LoadedSince(s.versions, c, u, r.found)
  }

  ghost predicate NoneOvertakes(limits: Limits, s: System, u: UserId, c: nat) {
    forall r :: r in s.inFlight ==> !Overtakes(limits, s, r, u, c)
  }

  /** The user's entry, if there is one, holds what a version from `c` on loads. */
  ghost predicate EntrySince(format: TimeFormat, s: System, u: UserId, c: nat) {
    Key(u) in s.entries ==>
      exists user: User :: s.entries[Key(u)].payload == Dumps(format, user) && LoadedSince(s.versions, c, u, Some(user))
  }

  /** Neither the cache nor a request in flight can bring an older user back. */
  ghost predicate Settled(limits: Limits, format: TimeFormat, s: System, u: UserId, c: nat) {
    c < |s.versions| && EntrySince(format, s, u, c) && NoneOvertakes(limits, s, u, c)
  }

  lemma LoadedSinceLater(versions: seq<Version>, next: Version, c: nat, u: UserId, found: Option<User>)
    requires LoadedSince(versions, c, u, found)
    ensures LoadedSince(versions + [next], c, u, found)
  {
    var i: nat :| c <= i < |versions| && LoadUser(versions[i].db, u) == found;
    assert (versions + [next])[i] == versions[i];
  }

  lemma CommitKeepsSettled(limits: Limits, format: TimeFormat, s: System, db: Db, u: UserId, c: nat)
    requires Settled(limits, format, s, u, c)
    ensures Settled(limits, format, Next(limits, format, s, Commit(db)), u, c)
  {
    var next, after := Version(db, s.now), Next(limits, format, s, Commit(db));
    if Key(u) in s.entries {
      var user: User :| s.entries[Key(u)].payload == Dumps(format, user) && LoadedSince(s.versions, c, u, Some(user));
      LoadedSinceLater(s.versions, next, c, u, Some(user));
    }
    forall r | r in after.inFlight ensures !Overtakes(limits, after, r, u, c) {
      assert !Overtakes(limits, s, r, u, c);
      if LoadedSince(s.versions, c, u, r.found) {
        LoadedSinceLater(s.versions, next, c, u, r.found);
      }
    }
  }

  lemma ReadKeepsSettled(limits: Limits, format: TimeFormat, s: System, e: Event, u: UserId, c: nat)
    requires Settled(limits, format, s, u, c) && Enabled(limits, s, e) && (e.ReadCache? || e.ReadDatabase?)
    requires Inverts(format)
    ensures Settled(limits, format, Next(limits, format, s, e), u, c)
    ensures var after := Next(limits, format, s, e);
            Reads(e, u) ==> LoadedSince(after.versions, c, u, after.inFlight[|after.inFlight| - 1].found)
  {
    var after := Next(limits, format, s, e);
    var r := after.inFlight[|s.inFlight|];
    if e.ReadCache? && e.user == u {
      var user: User :| s.entries[Key(u)].payload == Dumps(format, user) && LoadedSince(s.versions, c, u, Some(user));
      CodecRoundTrip(format, user);
    } else if e.ReadDatabase? && e.user == u {
      assert LoadUser(s.versions[|s.versions| - 1].db, u) == r.found;
    }
    forall q | q in after.inFlight ensures !Overtakes(limits, after, q, u, c) {
      if q in s.inFlight {
        assert !Overtakes(limits, s, q, u, c);
      } else {
        assert q == r;
      }
    }
  }

  lemma WriteBackKeepsSettled(limits: Limits, format: TimeFormat, s: System, k: nat, u: UserId, c: nat)
    requires Settled(limits, format, s, u, c) && Enabled(limits, s, WriteBack(k))
    ensures Settled(limits, format, Next(limits, format, s, WriteBack(k)), u, c)
  {
    var r, after := s.inFlight[k], Next(limits, format, s, WriteBack(k));
    assert !Overtakes(limits, s, r, u, c);
    if Key(r.user) == Key(u) {
      KeyInjective(r.user, u);
      assert LoadedSince(s.versions, c, u, Some(r.found.value));
    }
    forall q | q in after.inFlight ensures !Overtakes(limits, after, q, u, c) {
      assert q == r.(stored := true) || q in s.inFlight;
    }
  }

  lemma StepKeepsSettled(limits: Limits, format: TimeFormat, s: System, e: Event, u: UserId, c: nat)
    requires Settled(limits, format, s, u, c) && Enabled(limits, s, e) && Inverts(format)
    ensures Settled(limits, format, Next(limits, format, s, e), u, c)
    ensures var after := Next(limits, format, s, e);
            Reads(e, u) ==> LoadedSince(after.versions, c, u, after.inFlight[|after.inFlight| - 1].found)
  {
    match e
    case Commit(db) => CommitKeepsSettled(limits, format, s, db, u, c);
    case ReadCache(v) => ReadKeepsSettled(limits, format, s, e, u, c);
    case ReadDatabase(v) => ReadKeepsSettled(limits, format, s, e, u, c);
    case WriteBack(k) => WriteBackKeepsSettled(limits, format, s, k, u, c);
    case _ => QuietStepKeepsSettled(limits, format, s, e, u, c);
  }

  lemma QuietStepKeepsSettled(limits: Limits, format: TimeFormat, s: System, e: Event, u: UserId, c: nat)
    requires Settled(limits, format, s, u, c) && Enabled(limits, s, e) && (e.Tick? || e.Evict? || e.Reply?)
    ensures Settled(limits, format, Next(limits, format, s, e), u, c)
  {
    var after := Next(limits, format, s, e);
    forall r | r in after.inFlight ensures !Overtakes(limits, after, r, u, c) {
      assert !Overtakes(limits, s, r, u, c);
    }
  }

  lemma {:induction false} SettledReads(
      limits: Limits, format: TimeFormat, s: System, run: seq<Event>, u: UserId, c: nat)
    requires Settled(limits, format, s, u, c) && ValidRun(limits, format, s, run) && Inverts(format)
    ensures ReadsSince(limits, format, s, run, u, c)
    decreases |run|
  {
    if run != [] {
      StepKeepsSettled(limits, format, s, run[0], u, c);
      SettledReads(limits, format, Next(limits, format, s, run[0]), run[1..], u, c);
    }
  }

  /** A request that overtakes the delete writes the old user back, and the next hit returns it. */
  lemma OvertakerIsSeen(limits: Limits, format: TimeFormat, s: System, k: nat, u: UserId, c: nat)
    requires k < |s.inFlight| && Overtakes(limits, s, s.inFlight[k], u, c)
    requires Inverts(format) && limits.ttlSeconds > 0
    ensures var run := [WriteBack(k)] + ([ReadCache(u)] + []);
            ValidRun(limits, format, s, run) && !ReadsSince(limits, format, s, run, u, c)
  {
    var user := s.inFlight[k].found.value;
    var stored := Next(limits, format, s, WriteBack(k));
    CodecRoundTrip(format, user);
    assert Cached(stored.entries, Key(u), s.now) == Some(Dumps(format, user));
    FirstStep(limits, format, stored, ReadCache(u), []);
    FirstStep(limits, format, s, WriteBack(k), [ReadCache(u)] + []);
    var run := [WriteBack(k)] + ([ReadCache(u)] + []);
    assert run[1..] == [ReadCache(u)];
    assert !ReadsSince(limits, format, stored, [ReadCache(u)], u, c);
  }

  /**
   * What deleting the key is for: from then on every request in every run sees version `c` or a
   * later one, if and only if at the delete no request that read an older user may still write it
   * back. With no request in flight the edit is visible on the next request.
   */
  lemma NextRequestSeesEdit(limits: Limits, format: TimeFormat, s: System, u: UserId, c: nat)
    requires Inverts(format) && limits.ttlSeconds > 0 && c < |s.versions|
    ensures var after := Next(limits, format, s, Evict(u));
            NoneOvertakes(limits, s, u, c) <==>
              forall run :: ValidRun(limits, format, after, run) ==> ReadsSince(limits, format, after, run, u, c)
  {
    var after := Next(limits, format, s, Evict(u));
    if NoneOvertakes(limits, s, u, c) {
      QuietEvict(limits, format, s, u, c);
      forall run | ValidRun(limits, format, after, run) ensures ReadsSince(limits, format, after, run, u, c) {
        SettledReads(limits, format, after, run, u, c);
      }
    } else {
      var r :| r in s.inFlight && Overtakes(limits, s, r, u, c);
      var k: nat :| k < |s.inFlight| && s.inFlight[k] == r;
      assert Overtakes(limits, after, r, u, c);
      OvertakerIsSeen(limits, format, after, k, u, c);
    }
  }

  lemma QuietEvict(limits: Limits, format: TimeFormat, s: System, u: UserId, c: nat)
    requires NoneOvertakes(limits, s, u, c) && c < |s.versions|
    ensures Settled(limits, format, Next(limits, format, s, Evict(u)), u, c)
  {
    var after := Next(limits, format, s, Evict(u));
    forall r | r in after.inFlight ensures !Overtakes(limits, after, r, u, c) {
      assert !Overtakes(limits, s, r, u, c);
    }
  }

  // ---------------------------------------------------------------- the bound is attained

  lemma FirstStep(limits: Limits, format: TimeFormat, s: System, e: Event, rest: seq<Event>)
    requires Enabled(limits, s, e) && ValidRun(limits, format, Next(limits, format, s, e), rest)
    ensures ValidRun(limits, format, s, [e] + rest)
    ensures Final(limits, format, s, [e] + rest) == Final(limits, format, Next(limits, format, s, e), rest)
  {
    assert ([e] + rest)[1..] == rest;
  }

  /** A read, then an edit with its cache delete, then the write-back of what was read before. */
  function Overtaken(limits: Limits, u: UserId, edited: Db): seq<Event> {
    [ReadDatabase(u)] +
        ([Commit(edited)] + ([Evict(u)] + ([Tick(limits.loading)] + ([WriteBack(0)] + ([Reply(0)] + [])))))
  }

  /** A hit in the last instant of the entry, replied to as late as possible. */
  function LateHit(limits: Limits, u: UserId): seq<Event>
    requires limits.ttlSeconds > 0
  {
    [Tick(limits.EntryAge() - 1)] + ([ReadCache(u)] + ([Tick(limits.Bound() - 1)] + ([Reply(0)] + [])))
  }

  lemma OvertakenRun(limits: Limits, format: TimeFormat, db: Db, edited: Db, u: UserId)
    requires LoadUser(db, u).Some?
    ensures ValidRun(limits, format, Start(db, 0), Overtaken(limits, u, edited))
    ensures var found := LoadUser(db, u);
            Final(limits, format, Start(db, 0), Overtaken(limits, u, edited))
              == System(limits.loading, [Version(db, 0), Version(edited, 0)],
                        Put(map[], Key(u), Dumps(format, found.value), limits.ttlSeconds, limits.loading),
                        [], [Answer(u, found, limits.loading)])
  {
    var found, d, both := LoadUser(db, u), limits.loading, [Version(db, 0), Version(edited, 0)];
    var entries := Put(map[], Key(u), Dumps(format, found.value), limits.ttlSeconds, d);
    var read, kept := [Loaded(u, found, 0, false)], [Loaded(u, found, 0, true)];
    assert Next(limits, format, System(d, both, entries, kept, []), Reply(0)) ==
        System(d, both, entries, [], [Answer(u, found, d)]);
    FirstStep(limits, format, System(d, both, entries, kept, []), Reply(0), []);
    assert Next(limits, format, System(d, both, map[], read, []), WriteBack(0)) == System(d, both, entries, kept, []);
    FirstStep(limits, format, System(d, both, map[], read, []), WriteBack(0), [Reply(0)] + []);
    var tail := [WriteBack(0)] + ([Reply(0)] + []);
    FirstStep(limits, format, System(0, both, map[], read, []), Tick(d), tail);
    tail := [Tick(d)] + tail;
    assert Next(limits, format, System(0, both, map[], read, []), Evict(u)) == System(0, both, map[], read, []);
    FirstStep(limits, format, System(0, both, map[], read, []), Evict(u), tail);
    tail := [Evict(u)] + tail;
    assert Next(limits, format, System(0, [Version(db, 0)], map[], read, []), Commit(edited)) ==
        System(0, both, map[], read, []);
    FirstStep(limits, format, System(0, [Version(db, 0)], map[], read, []), Commit(edited), tail);
    tail := [Commit(edited)] + tail;
    assert Next(limits, format, Start(db, 0), ReadDatabase(u)) == System(0, [Version(db, 0)], map[], read, []);
    FirstStep(limits, format, Start(db, 0), ReadDatabase(u), tail);
  }

  lemma LateHitRun(
      limits: Limits, format: TimeFormat, versions: seq<Version>, entries: Entries, found: Option<User>, u: UserId,
      answers: seq<Answer>)
    requires limits.ttlSeconds > 0
    requires var cached := Cached(entries, Key(u), limits.EntryAge() - 1);
             cached.Some? && Loads(format, cached.value) == found
    ensures var s := System(limits.loading, versions, entries, [], answers);
            && ValidRun(limits, format, s, LateHit(limits, u))
            && Final(limits, format, s, LateHit(limits, u))
                 == s.(now := limits.Bound() - 1, answers := answers + [Answer(u, found, limits.Bound() - 1)])
  {
    var seen, late, hit := limits.EntryAge() - 1, limits.Bound() - 1, [Hit(u, found, limits.EntryAge() - 1)];
    assert Next(limits, format, System(late, versions, entries, hit, answers), Reply(0))
        == System(late, versions, entries, [], answers + [Answer(u, found, late)]);
    FirstStep(limits, format, System(late, versions, entries, hit, answers), Reply(0), []);
    var tail := [Reply(0)] + [];
    FirstStep(limits, format, System(seen, versions, entries, hit, answers), Tick(late), tail);
    tail := [Tick(late)] + tail;
    assert Next(limits, format, System(seen, versions, entries, [], answers), ReadCache(u)) ==
        System(seen, versions, entries, hit, answers);
    FirstStep(limits, format, System(seen, versions, entries, [], answers), ReadCache(u), tail);
    tail := [ReadCache(u)] + tail;
    FirstStep(limits, format, System(limits.loading, versions, entries, [], answers), Tick(seen), tail);
  }

  lemma {:induction false} RunsConcatenate(
      limits: Limits, format: TimeFormat, s: System, first: seq<Event>, second: seq<Event>)
    requires ValidRun(limits, format, s, first)
    requires ValidRun(limits, format, Final(limits, format, s, first), second)
    ensures ValidRun(limits, format, s, first + second)
    ensures Final(limits, format, s, first + second) == Final(limits, format, Final(limits, format, s, first), second)
    decreases |first|
  {
    if first == [] {
      assert first + second == second;
    } else {
      RunsConcatenate(limits, format, Next(limits, format, s, first[0]), first[1..], second);
      assert first + second == [first[0]] + (first[1..] + second);
      FirstStep(limits, format, s, first[0], first[1..] + second);
    }
  }

  /**
   * The bound cannot be lowered: for all limits, and any edit that changes a user, a user-level
   * edit with its cache delete can be overtaken so that the old user is still served one
   * microsecond before the bound, although nothing since the edit has loaded it.
   */
  lemma BoundAttained(limits: Limits, format: TimeFormat, db: Db, edited: Db, u: UserId)
    requires Inverts(format) && limits.ttlSeconds > 0
    requires LoadUser(db, u).Some? && LoadUser(edited, u) != LoadUser(db, u)
    ensures var run := Overtaken(limits, u, edited) + LateHit(limits, u);
            && ValidRun(limits, format, Start(db, 0), run)
            && var s := Final(limits, format, Start(db, 0), run);
               && s.answers != []
               && var last := s.answers[|s.answers| - 1];
                  && !HeldWithin(s.versions, last.user, last.found, last.at, limits.Bound() - 1)
  {
    var found := LoadUser(db, u);
    OvertakenRun(limits, format, db, edited, u);
    CodecRoundTrip(format, found.value);
    LateHitRun(limits, format, [Version(db, 0), Version(edited, 0)],
               Put(map[], Key(u), Dumps(format, found.value), limits.ttlSeconds, limits.loading), found, u,
                   [Answer(u, found, limits.loading)]);
    RunsConcatenate(limits, format, Start(db, 0), Overtaken(limits, u, edited), LateHit(limits, u));
    var versions, last := [Version(db, 0), Version(edited, 0)], limits.Bound() - 1;
    forall at: Time | at <= last < at + last ensures !Held(versions, u, found, at) {
      assert at > 0;
    }
  }
}
