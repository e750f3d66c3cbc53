/** The link service as the running backend has it: one object holding the
    mapping store and the resolution cache, whose handlers change both step
    by step. Each mutating handler is proved to leave exactly the state, and
    return exactly the response, that the matching function of
    `UrlController` describes; the properties of those functions are proved
    there and in `ControllerProperties`. The read-only handlers are the
    functions `UserUrls`, `UrlByShortId` and `Analytics` applied to `store`. */
module UrlService {
  import opened UrlModel
  import opened ResolutionCache
  import opened UrlController

  class Service {
    var store: map<string, Url>
    var cache: Cache

    ghost predicate Valid()
      reads this
    {
      StoreInvariant(store)
    }

    /** The store and the cache as one value. */
    function Current(): State
      reads this
    {
      State(store, cache)
    }

    constructor ()
      ensures Valid() && store == map[] && cache == map[]
    {
      store := map[];
      cache := map[];
    }

    method ShortenUrl(originalUrl: string, token: Option<string>, userId: string,
                      validationOk: bool, captchaOk: bool, urlValid: bool, freshId: string,
                      now: int, faults: set<Call>) returns (r: Response)
      requires Valid()
      modifies this
      ensures Valid()
      ensures Outcome(Current(), r) == Shorten(old(Current()), originalUrl, token, userId, validationOk, captchaOk, urlValid, freshId, now, faults)
    {
      if !validationOk {
        return BadRequest(ValidationFailed);
      }
      if token != Some(SessionVerified) {
        if token.None? || token.value == "" {
          return BadRequest(TokenMissing);
        }
        if !captchaOk {
          return BadRequest(CaptchaRejected);
        }
      }
      if !urlValid {
        return BadRequest(InvalidUrl);
      }
      var u := NewUrl(originalUrl, freshId, userId, Some(true), now);
      if StoreWrite in faults || !WellFormed(u) || freshId in store {
        return ServerError;
      }
      store := store[freshId := u];
      r := Shortened(freshId);
    }

    method RedirectUrl(shortId: string, req: Request, ua: UaResult, now: int, faults: set<Call>) returns (r: Response)
      requires Valid()
      modifies this
      ensures Valid()
      ensures Outcome(Current(), r) == Resolve(old(Current()), shortId, req, ua, now, faults)
    {
      var key := CacheKey(shortId);
      if CacheGet in faults {
        return ServerError;
      }
      var cached := Get(cache, key, now);
      var u: Url;
      if cached.Some? && !cached.value.EmptyText? {
        if cached.value.Malformed? {
          return ServerError;
        }
        u := cached.value.record;
      } else {
        if StoreRead in faults {
          return ServerError;
        }
        if shortId !in store {
          return NotFound;
        }
        u := store[shortId];
        if CacheSet in faults {
          return ServerError;
        }
        cache := Set(cache, key, Snapshot(u), CacheTtl, now);
      }
      if !u.active {
        if CacheDel in faults {
          return ServerError;
        }
        cache := Del(cache, key);
        return Paused(PausedPath(shortId));
      }
      var c := RecordedClick(now, req.ip, req.userAgent, ua.deviceType, ua.browserName);
      if StoreWrite in faults {
        return ServerError;
      }
      if shortId in store {
        var v := store[shortId];
        store := store[shortId := v.(clicks := v.clicks + [c])];
      }
      r := Redirect(u.originalUrl);
    }

    method DeleteUrl(shortId: string, userId: string, faults: set<Call>) returns (r: Response)
      requires Valid()
      modifies this
      ensures Valid()
      ensures Outcome(Current(), r) == Delete(old(Current()), shortId, userId, faults)
    {
      if StoreRead in faults {
        return ServerError;
      }
      if !Owns(store, shortId, userId) {
        return NotFound;
      }
      if StoreWrite in faults {
        return ServerError;
      }
      store := store - {shortId};
      if CacheDel in faults {
        return ServerError;
      }
      cache := Del(cache, CacheKey(shortId));
      r := Deleted;
    }

    method UpdateUrl(shortId: string, originalUrl: string, userId: string,
                     validationOk: bool, urlValid: bool, faults: set<Call>) returns (r: Response)
      requires Valid()
      requires urlValid ==> originalUrl != ""
      modifies this
      ensures Valid()
      ensures Outcome(Current(), r) == Update(old(Current()), shortId, originalUrl, userId, validationOk, urlValid, faults)
    {
      if !validationOk {
        return BadRequest(ValidationFailed);
      }
      if !urlValid {
        return BadRequest(InvalidUrl);
      }
      if StoreWrite in faults {
        return ServerError;
      }
      if !Owns(store, shortId, userId) {
        return NotFound;
      }
      var u := store[shortId].(originalUrl := originalUrl);
      store := store[shortId := u];
      if CacheDel in faults {
        return ServerError;
      }
      cache := Del(cache, CacheKey(shortId));
      r := Record(u);
    }

    method ToggleUrlStatus(shortId: string, userId: string, active: ActiveArg, faults: set<Call>) returns (r: Response)
      requires Valid()
      modifies this
      ensures Valid()
      ensures Outcome(Current(), r) == ToggleStatus(old(Current()), shortId, userId, active, faults)
    {
      if StoreRead in faults {
        return ServerError;
      }
      if !Owns(store, shortId, userId) {
        return NotFound;
      }
      var current := store[shortId];
      if StoreWrite in faults || active.Uncastable? {
        return ServerError;
      }
      var newActive := if active.Toggle? then !current.active else active.b;
      var u := current.(active := newActive);
      store := store[shortId := u];
      if CacheDel in faults {
        return ServerError;
      }
      cache := Del(cache, CacheKey(shortId));
      r := Record(u);
    }

    method ClearCacheKey(key: string, faults: set<Call>) returns (r: Response)
      requires Valid()
      modifies this
      ensures Valid()
      ensures Outcome(Current(), r) == ClearCache(old(Current()), key, faults)
    {
      if CacheDel in faults {
        return ServerError;
      }
      cache := Del(cache, key);
      r := CacheCleared;
    }
  }

  /** A client of the service: create a link, follow it, pause it, follow it,
      resume it, follow it, using nothing but the handlers' contracts. */
  method PauseAndResume(id: string, dest: string, owner: string, req: Request, ua: UaResult)
    requires id != "" && dest != "" && owner != ""
  {
    var svc := new Service();
    var r := svc.ShortenUrl(dest, Some(SessionVerified), owner, true, false, true, id, 0, {});
    assert r == Shortened(id);
    r := svc.RedirectUrl(id, req, ua, 10, {});
    assert r == Redirect(dest) && |svc.store[id].clicks| == 1;
    r := svc.ToggleUrlStatus(id, owner, Toggle, {});
    assert r.Record? && !r.url.active;
    r := svc.RedirectUrl(id, req, ua, 20, {});
    assert r == Paused("/paused/" + id) && |svc.store[id].clicks| == 1;
    r := svc.ToggleUrlStatus(id, owner, Toggle, {});
    r := svc.RedirectUrl(id, req, ua, 30, {});
    assert r == Redirect(dest) && |svc.store[id].clicks| == 2;
  }
}
