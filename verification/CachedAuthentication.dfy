/** Authentication through the cache. */
module CachedAuthentication {
  import opened Wrappers
  import opened Entities
  import opened Tables
  import opened Transactions
  import opened UserCache

  /** An entry that cannot be read back raises. */
  function AdmitCached(user: Option<User>): Result<User, AppError> {
    if user.None? then Failure(MalformedEntry) else Admit(user)
  }

  /** The reply and the cache after one authentication. */
  function AuthenticateCached(format: TimeFormat, db: Db, entries: Entries, ttlSeconds: nat, token: Bearer, now: Time)
    : (Result<User, AppError>, Entries)
  {
    var payload := Decode(token, now);
    if payload.Failure? then (Failure(payload.error), entries)
    else if !SessionAccepts(db, payload.value, now) then (Failure(AuthenticationError), entries)
    else
      var u := payload.value.sub;
      var cached := Cached(entries, Key(u), now);
      if cached.Some? then (AdmitCached(Loads(format, cached.value)), entries)
      else
        var user := LoadUser(db, u);
        (Admit(user), if user.None? then entries else Put(entries, Key(u), Dumps(format, user.value), ttlSeconds, now))
  }

  /**
   * A miss leaves the user readable for the TTL from then on; a hit, or a token turned away, leaves
   * the cache alone; no other key is touched.
   */
  lemma MissFillsCache(format: TimeFormat, db: Db, entries: Entries, ttlSeconds: nat, token: Bearer, now: Time)
    ensures var after := AuthenticateCached(format, db, entries, ttlSeconds, token, now).1;
            if token.Signed? && now < token.claims.exp * 1_000_000 && SessionAccepts(db, token.claims, now)
               && token.claims.sub < |db.users| && Cached(entries, Key(token.claims.sub), now).None?
            then
              && (forall later: Time :: now <= later ==>
                    var seen := Cached(after, Key(token.claims.sub), later);
                    if later < now + ttlSeconds * 1_000_000
                    then seen == Some(Dumps(format, LoadUser(db, token.claims.sub).value)) else seen == None)
              && after - {Key(token.claims.sub)} == entries - {Key(token.claims.sub)}
            else after == entries
  {
  }
}
