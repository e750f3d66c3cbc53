/** Properties of sequences of handler calls: what a resolution observes
    after each kind of mutation, the life cycle of one link, the toggle
    involution, how long a cached snapshot short-circuits the store, and what
    happens when the cache delete that follows a mutation fails. */
module ControllerProperties {
  import opened UrlModel
  import opened ResolutionCache
  import opened UrlController

  /** Create a link, follow it, pause it, follow it, resume it, follow it:
      Redirect with one click, Paused still at one click, Redirect with two. */
  lemma Lifecycle(s: State, id: string, dest: string, owner: string, req: Request, ua: UaResult,
                  t0: int, t1: int, t2: int, t3: int)
    requires StoreInvariant(s.store)
    requires id != "" && dest != "" && owner != ""
    requires id !in s.store && !Hit(s.cache, CacheKey(id), t1)
    ensures
      var o1 := Shorten(s, dest, Some(SessionVerified), owner, true, false, true, id, t0, {});
      var o2 := Resolve(o1.state, id, req, ua, t1, {});
      var o3 := ToggleStatus(o2.state, id, owner, Toggle, {});
      var o4 := Resolve(o3.state, id, req, ua, t2, {});
      var o5 := ToggleStatus(o4.state, id, owner, Toggle, {});
      var o6 := Resolve(o5.state, id, req, ua, t3, {});
      && o1.response == Shortened(id)
      && o2.response == Redirect(dest) && |o2.state.store[id].clicks| == 1
      && o3.response.Record? && !o3.response.url.active
      && o4.response == Paused(PausedPath(id)) && |o4.state.store[id].clicks| == 1
      && o5.response.Record? && o5.response.url.active
      && o6.response == Redirect(dest) && |o6.state.store[id].clicks| == 2
  {
    var o1 := Shorten(s, dest, Some(SessionVerified), owner, true, false, true, id, t0, {});
    assert Owns(o1.state.store, id, owner);
    var o2 := Resolve(o1.state, id, req, ua, t1, {});
    assert Owns(o2.state.store, id, owner);
    var o3 := ToggleStatus(o2.state, id, owner, Toggle, {});
    assert !Hit(o3.state.cache, CacheKey(id), t2);
    var o4 := Resolve(o3.state, id, req, ua, t2, {});
    var o5 := ToggleStatus(o4.state, id, owner, Toggle, {});
    assert !Hit(o5.state.cache, CacheKey(id), t3);
  }

  /** Toggling twice restores the store; the cache entry is gone either way. */
  lemma ToggleInvolution(s: State, id: string, owner: string)
    requires Owns(s.store, id, owner)
    ensures
      var o := ToggleStatus(ToggleStatus(s, id, owner, Toggle, {}).state, id, owner, Toggle, {});
      o.state.store == s.store && o.response == Record(s.store[id]) && CacheKey(id) !in o.state.cache
  {
    var o1 := ToggleStatus(s, id, owner, Toggle, {});
    assert o1.state.store[id] == s.store[id].(active := !s.store[id].active);
    assert Owns(o1.state.store, id, owner);
  }

  /** After a successful update the next resolution reads the store, so it
      never answers with the destination the update replaced. */
  lemma UpdateVisibleAtOnce(s: State, id: string, dest: string, owner: string,
                            req: Request, ua: UaResult, now: int, faults: set<Call>)
    requires dest != ""
    requires Update(s, id, dest, owner, true, true, faults).response.Record?
    ensures
      var o1 := Update(s, id, dest, owner, true, true, faults);
      var o2 := Resolve(o1.state, id, req, ua, now, {});
      o2.response == if o1.response.url.active then Redirect(dest) else Paused(PausedPath(id))
  {
    var o1 := Update(s, id, dest, owner, true, true, faults);
    assert !Hit(o1.state.cache, CacheKey(id), now);
  }

  /** After a successful pause the next resolution answers Paused and records
      no click, whatever the cache held before. */
  lemma PauseVisibleAtOnce(s: State, id: string, owner: string, arg: ActiveArg,
                           req: Request, ua: UaResult, now: int, faults: set<Call>)
    requires ToggleStatus(s, id, owner, arg, faults).response.Record?
    requires !ToggleStatus(s, id, owner, arg, faults).response.url.active
    ensures
      var o1 := ToggleStatus(s, id, owner, arg, faults);
      var o2 := Resolve(o1.state, id, req, ua, now, {});
      o2.response == Paused(PausedPath(id)) && o2.state.store == o1.state.store
  {
    var o1 := ToggleStatus(s, id, owner, arg, faults);
    assert !Hit(o1.state.cache, CacheKey(id), now);
  }

  /** After a successful delete the id resolves to NotFound, even if it was
      cached before, and that answer is not cached. */
  lemma DeletedIsNotFound(s: State, id: string, owner: string, req: Request, ua: UaResult, now: int, faults: set<Call>)
    requires Delete(s, id, owner, faults).response.Deleted?
    ensures
      var o1 := Delete(s, id, owner, faults);
      Resolve(o1.state, id, req, ua, now, {}) == Outcome(o1.state, NotFound)
  {
    var o1 := Delete(s, id, owner, faults);
    assert !Hit(o1.state.cache, CacheKey(id), now);
  }

  /** When the cache delete after a store delete fails, the caller sees a
      server error, and a still-live active snapshot keeps redirecting to the
      deleted destination (with no record left to receive the click). */
  lemma FailedInvalidationAfterDelete(s: State, id: string, owner: string, req: Request, ua: UaResult, now: int)
    requires Owns(s.store, id, owner)
    requires Get(s.cache, CacheKey(id), now) == Some(Snapshot(s.store[id])) && s.store[id].active
    ensures
      var o1 := Delete(s, id, owner, {CacheDel});
      var o2 := Resolve(o1.state, id, req, ua, now, {});
      && o1.response == ServerError && id !in o1.state.store
      && o2.response == Redirect(s.store[id].originalUrl) && o2.state == o1.state
  {
    var o1 := Delete(s, id, owner, {CacheDel});
    assert o1.state.cache == s.cache;
    assert Hit(o1.state.cache, CacheKey(id), now);
  }

  /** When the cache delete after a pause fails, a still-live active snapshot
      keeps redirecting, and the click lands on the paused record. */
  lemma FailedInvalidationAfterPause(s: State, id: string, owner: string, req: Request, ua: UaResult, now: int)
    requires Owns(s.store, id, owner) && s.store[id].active
    requires Get(s.cache, CacheKey(id), now) == Some(Snapshot(s.store[id]))
    ensures
      var o1 := ToggleStatus(s, id, owner, Given(false), {CacheDel});
      var o2 := Resolve(o1.state, id, req, ua, now, {});
      && o1.response == ServerError && !o1.state.store[id].active
      && o2.response == Redirect(s.store[id].originalUrl)
      && |o2.state.store[id].clicks| == |s.store[id].clicks| + 1
  {
    var o1 := ToggleStatus(s, id, owner, Given(false), {CacheDel});
    assert o1.state.cache == s.cache;
    assert Hit(o1.state.cache, CacheKey(id), now);
    assert id in o1.state.store;
  }

  /** A miss caches the record as it was before the click was added; within
      the hour a second resolution is a hit (no store read) with the same
      answer, and the snapshot's click list stays as it was while the store's
      grows. */
  lemma SnapshotServesWithinTtl(s: State, id: string, req1: Request, ua1: UaResult, req2: Request, ua2: UaResult,
                                t1: int, t2: int)
    requires id in s.store && s.store[id].active && !Hit(s.cache, CacheKey(id), t1)
    requires t1 <= t2 < t1 + CacheTtl
    ensures
      var o1 := Resolve(s, id, req1, ua1, t1, {});
      var o2 := Resolve(o1.state, id, req2, ua2, t2, {});
      && Get(o1.state.cache, CacheKey(id), t2) == Some(Snapshot(s.store[id]))
      && Hit(o1.state.cache, CacheKey(id), t2)
      && o2.response == o1.response == Redirect(s.store[id].originalUrl)
      && o2.state.cache == o1.state.cache
      && |o2.state.store[id].clicks| == |s.store[id].clicks| + 2
  {
    var o1 := Resolve(s, id, req1, ua1, t1, {});
    assert id in o1.state.store;
    assert Get(o1.state.cache, CacheKey(id), t2) == Some(Snapshot(s.store[id]));
  }

  /** Resolving an unknown id twice gives NotFound twice and leaves everything
      as it was. */
  lemma NotFoundIsNotCached(s: State, id: string, req: Request, ua: UaResult, t1: int, t2: int)
    requires id !in s.store && !Hit(s.cache, CacheKey(id), t1) && !Hit(s.cache, CacheKey(id), t2)
    ensures
      var o1 := Resolve(s, id, req, ua, t1, {});
      o1 == Outcome(s, NotFound) && Resolve(o1.state, id, req, ua, t2, {}) == Outcome(s, NotFound)
  {
  }

  /** Clearing a key twice is the same as clearing it once. */
  lemma ClearCacheIdempotent(s: State, key: string)
    ensures
      var o1 := ClearCache(s, key, {});
      ClearCache(o1.state, key, {}) == o1
  {
    var o1 := ClearCache(s, key, {});
    assert Del(o1.state.cache, key) == o1.state.cache;
  }

  /** The session token skips the bot check: its verdict does not matter. */
  lemma SessionTokenSkipsCheck(s: State, dest: string, owner: string, validationOk: bool, urlValid: bool,
                               freshId: string, now: int, faults: set<Call>)
    ensures Shorten(s, dest, Some(SessionVerified), owner, validationOk, true, urlValid, freshId, now, faults)
         == Shorten(s, dest, Some(SessionVerified), owner, validationOk, false, urlValid, freshId, now, faults)
  {
  }
}
