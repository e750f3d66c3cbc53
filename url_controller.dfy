/** The link controller's handlers as functions from the state before a
    request (the mapping store and the resolution cache) to the state after
    it and the HTTP response. Each handler runs as one atomic step.

    What the handlers cannot compute themselves is a parameter: the current
    time `now`, the verdicts of request validation, of the bot check and of
    the URL validator, the freshly generated short id, the user-agent
    parser's result, and `faults`, the set of kinds of backend call that
    throw during this request. Each kind of call occurs at most once in a
    handler, so `faults` says exactly which calls fail; any call that throws
    ends the request with a server error. */
module UrlController {
  import opened UrlModel
  import opened ResolutionCache

  /** The kinds of backend call a handler makes. */
  datatype Call = CacheGet | CacheSet | CacheDel | StoreRead | StoreWrite

  /** What a redirect request carries: the client's address and raw
      user-agent header. */
  datatype Request = Request(ip: Option<string>, userAgent: Option<string>)

  /** What the user-agent parser reports for a request. */
  datatype UaResult = UaResult(deviceType: Option<string>, browserName: Option<string>)

  /** The `active` field of a status change request. */
  datatype ActiveArg =
    | Toggle            // the string 'toggle'
    | Given(b: bool)    // a value the store casts to this boolean
    | Uncastable        // a value the store cannot cast to a boolean

  datatype BadRequestReason = ValidationFailed | TokenMissing | CaptchaRejected | InvalidUrl

  datatype Response =
    | Redirect(location: string)          // 301 to the destination
    | Paused(location: string)            // 302 to the paused page
    | NotFound                            // 404
    | BadRequest(reason: BadRequestReason)  // 400
    | ServerError                         // 500
    | Shortened(shortId: string)          // the new short link
    | Record(url: Url)                    // one document
    | Records(urls: map<string, Url>)     // the caller's documents, by shortId
    | ClickList(clicks: seq<Click>)       // one document's clicks
    | Deleted
    | CacheCleared

  datatype State = State(store: map<string, Url>, cache: Cache)

  datatype Outcome = Outcome(state: State, response: Response)

  /** The token value that stands for a session already checked by the
      client, and skips the bot check. */
  const SessionVerified: string := "session-verified"

  function PausedPath(shortId: string): string {
    "/paused/" + shortId
  }

  /** The cache holds the same entries as before, except possibly under `key`. */
  ghost predicate CacheFrame(before: Cache, after: Cache, key: string) {
    forall k :: k != key ==> (k in after <==> k in before) && (k in before ==> after[k] == before[k])
  }

  /** `after` is `before` with `c` appended to the clicks of `shortId`, when
      that record exists, and nothing else changed. */
  ghost predicate ClickAppended(before: map<string, Url>, after: map<string, Url>, shortId: string, c: Click) {
    && (shortId in before ==> shortId in after && after[shortId] == before[shortId].(clicks := before[shortId].clicks + [c]))
    && (shortId !in before ==> after == before)
    && forall k :: k != shortId ==> (k in after <==> k in before) && (k in before ==> after[k] == before[k])
  }

  /** The store's `$push` of one click onto the record `shortId`; a filter
      that matches nothing updates nothing. */
  function PushClick(store: map<string, Url>, shortId: string, c: Click): (r: map<string, Url>)
    ensures ClickAppended(store, r, shortId, c)
    ensures StoreInvariant(store) && Classified(c) ==> StoreInvariant(r)
  {
    if shortId in store then store[shortId := store[shortId].(clicks := store[shortId].clicks + [c])] else store
  }

  /** Whether the bot check lets the request through. */
  predicate TokenAccepted(token: Option<string>, captchaOk: bool) {
    token == Some(SessionVerified) || (token.Some? && token.value != "" && captchaOk)
  }

  /** Create a short link for `originalUrl` owned by `userId`. */
  function Shorten(s: State, originalUrl: string, token: Option<string>, userId: string,
                   validationOk: bool, captchaOk: bool, urlValid: bool, freshId: string,
                   now: int, faults: set<Call>): (o: Outcome)
    ensures o.state.cache == s.cache
    ensures o.response.Shortened? || o.response.BadRequest? || o.response.ServerError?
    ensures o.response.BadRequest? <==> !validationOk || !TokenAccepted(token, captchaOk) || !urlValid
    ensures validationOk && (token.None? || token == Some("")) ==> o.response == BadRequest(TokenMissing)
    ensures o.response.Shortened? <==>
      && validationOk && TokenAccepted(token, captchaOk) && urlValid
      && StoreWrite !in faults && freshId !in s.store
      && originalUrl != "" && freshId != "" && userId != ""
    ensures o.response.Shortened? ==>
      && o.response.shortId == freshId
      && freshId in o.state.store
      && var u := o.state.store[freshId];
         u.originalUrl == originalUrl && u.userId == userId && u.active && u.clicks == [] && u.createdAt == now
    ensures o.response.Shortened? ==> forall k :: k != freshId ==> (k in o.state.store <==> k in s.store) && (k in s.store ==> o.state.store[k] == s.store[k])
    ensures !o.response.Shortened? ==> o.state == s
    ensures StoreInvariant(s.store) ==> StoreInvariant(o.state.store)
  {
    if !validationOk then Outcome(s, BadRequest(ValidationFailed))
    else if token != Some(SessionVerified) && (token.None? || token.value == "") then Outcome(s, BadRequest(TokenMissing))
    else if token != Some(SessionVerified) && !captchaOk then Outcome(s, BadRequest(CaptchaRejected))
    else if !urlValid then Outcome(s, BadRequest(InvalidUrl))
    else
      var u := NewUrl(originalUrl, freshId, userId, Some(true), now);
      // save() throws on a failed call, a missing required field, or a duplicate shortId
      if StoreWrite in faults || !WellFormed(u) || freshId in s.store then Outcome(s, ServerError)
      else Outcome(s.(store := s.store[freshId := u]), Shortened(freshId))
  }

  /** The part of a redirect after the record `u` has been found, in the
      cache or in the store: a paused link drops its cache entry and goes to
      the paused page; an active one gets a click and a permanent redirect. */
  function Deliver(s: State, shortId: string, u: Url, req: Request, ua: UaResult, now: int, faults: set<Call>): Outcome {
    if !u.active then
      if CacheDel in faults then Outcome(s, ServerError)
      else Outcome(s.(cache := Del(s.cache, CacheKey(shortId))), Paused(PausedPath(shortId)))
    else
      var c := RecordedClick(now, req.ip, req.userAgent, ua.deviceType, ua.browserName);
      if StoreWrite in faults then Outcome(s, ServerError)
      else Outcome(s.(store := PushClick(s.store, shortId, c)), Redirect(u.originalUrl))
  }

  /** Resolve `shortId`: a cache-aside lookup, then `Deliver`. */
  function Resolve(s: State, shortId: string, req: Request, ua: UaResult, now: int, faults: set<Call>): (o: Outcome)
    ensures o.response.Redirect? || o.response.Paused? || o.response.NotFound? || o.response.ServerError?
    // a failed lookup is reported, and neither cached nor recorded
    ensures o.response.NotFound? <==>
      CacheGet !in faults && !Hit(s.cache, CacheKey(shortId), now) && StoreRead !in faults && shortId !in s.store
    ensures o.response.NotFound? ==> o.state == s
    // only the cache entry of this link is touched
    ensures CacheFrame(s.cache, o.state.cache, CacheKey(shortId))
    // a click is recorded on an active redirect and on nothing else
    ensures !o.response.Redirect? ==> o.state.store == s.store
    ensures o.response.Redirect? ==>
      ClickAppended(s.store, o.state.store, shortId, RecordedClick(now, req.ip, req.userAgent, ua.deviceType, ua.browserName))
    // a paused link loses its cache entry
    ensures o.response.Paused? ==> o.response.location == PausedPath(shortId) && CacheKey(shortId) !in o.state.cache
    // a miss reads the store and caches the record it finds for one hour
    ensures {CacheGet, StoreRead, CacheSet} !! faults && !Hit(s.cache, CacheKey(shortId), now) && shortId in s.store ==>
      var u := s.store[shortId];
      (u.active ==> StoreWrite !in faults) && (!u.active ==> CacheDel !in faults) ==>
      && o.response == (if u.active then Redirect(u.originalUrl) else Paused(PausedPath(shortId)))
      && (u.active ==> o.state.cache == Set(s.cache, CacheKey(shortId), Snapshot(u), CacheTtl, now))
    // a hit decides from the snapshot, whatever the store now says, and keeps the entry while active
    ensures CacheGet !in faults && Hit(s.cache, CacheKey(shortId), now) && Get(s.cache, CacheKey(shortId), now).value.Snapshot? ==>
      var u := Get(s.cache, CacheKey(shortId), now).value.record;
      (u.active ==> StoreWrite !in faults) && (!u.active ==> CacheDel !in faults) ==>
      && o.response == (if u.active then Redirect(u.originalUrl) else Paused(PausedPath(shortId)))
      && (u.active ==> o.state.cache == s.cache)
    // a cached text that does not parse fails the request, with no fallback to the store
    ensures CacheGet !in faults && Hit(s.cache, CacheKey(shortId), now) && Get(s.cache, CacheKey(shortId), now).value.Malformed? ==>
      o == Outcome(s, ServerError)
    // every failing call ends the request with a 500, and what the calls before it did stays done
    ensures CacheGet in faults ==> o == Outcome(s, ServerError)
    ensures CacheGet !in faults && !Hit(s.cache, CacheKey(shortId), now) && StoreRead in faults ==>
      o == Outcome(s, ServerError)
    ensures {CacheGet, StoreRead} !! faults && !Hit(s.cache, CacheKey(shortId), now) && shortId in s.store && CacheSet in faults ==>
      o == Outcome(s, ServerError)
    // after a miss the fresh snapshot stays cached when the later call fails, and no click is recorded
    ensures {CacheGet, StoreRead, CacheSet} !! faults && !Hit(s.cache, CacheKey(shortId), now) && shortId in s.store ==>
      var u := s.store[shortId];
      var cached := s.(cache := Set(s.cache, CacheKey(shortId), Snapshot(u), CacheTtl, now));
      && (!u.active && CacheDel in faults ==> o == Outcome(cached, ServerError))
      && (u.active && StoreWrite in faults ==> o == Outcome(cached, ServerError))
    // after a hit a failing call leaves everything as it was
    ensures CacheGet !in faults && Hit(s.cache, CacheKey(shortId), now) && Get(s.cache, CacheKey(shortId), now).value.Snapshot? ==>
      var u := Get(s.cache, CacheKey(shortId), now).value.record;
      && (!u.active && CacheDel in faults ==> o == Outcome(s, ServerError))
      && (u.active && StoreWrite in faults ==> o == Outcome(s, ServerError))
    ensures StoreInvariant(s.store) ==> StoreInvariant(o.state.store)
  {
    var key := CacheKey(shortId);
    if CacheGet in faults then Outcome(s, ServerError)
    else if Hit(s.cache, key, now) then
      match Get(s.cache, key, now).value
      case Snapshot(u) => Deliver(s, shortId, u, req, ua, now, faults)
      case _ => Outcome(s, ServerError)  // JSON.parse throws
    else if StoreRead in faults then Outcome(s, ServerError)
    else if shortId !in s.store then Outcome(s, NotFound)
    else if CacheSet in faults then Outcome(s, ServerError)
    else
      var u := s.store[shortId];
      Deliver(s.(cache := Set(s.cache, key, Snapshot(u), CacheTtl, now)), shortId, u, req, ua, now, faults)
  }

  /** All records owned by `userId`. */
  function UserUrls(store: map<string, Url>, userId: string, faults: set<Call>): (r: Response)
    ensures StoreRead in faults <==> r == ServerError
    ensures StoreRead !in faults ==>
      && r.Records?
      && (forall k :: k in r.urls <==> Owns(store, k, userId))
      && (forall k :: k in r.urls ==> r.urls[k] == store[k])
  {
    if StoreRead in faults then ServerError else Records(OwnedBy(store, userId))
  }

  /** The record `shortId`, if `userId` owns it. */
  function UrlByShortId(store: map<string, Url>, shortId: string, userId: string, faults: set<Call>): (r: Response)
    ensures StoreRead in faults <==> r == ServerError
    ensures StoreRead !in faults ==> (r.NotFound? <==> !Owns(store, shortId, userId))
    ensures r.Record? ==> Owns(store, shortId, userId) && r.url == store[shortId]
    ensures r.Record? || r.NotFound? || r.ServerError?
  {
    if StoreRead in faults then ServerError
    else if !Owns(store, shortId, userId) then NotFound
    else Record(store[shortId])
  }

  /** The clicks of record `shortId`, if `userId` owns it. */
  function Analytics(store: map<string, Url>, shortId: string, userId: string, faults: set<Call>): (r: Response)
    ensures StoreRead in faults <==> r == ServerError
    ensures StoreRead !in faults ==> (r.NotFound? <==> !Owns(store, shortId, userId))
    ensures r.ClickList? ==> Owns(store, shortId, userId) && r.clicks == store[shortId].clicks
    ensures r.ClickList? || r.NotFound? || r.ServerError?
  {
    if StoreRead in faults then ServerError
    else if !Owns(store, shortId, userId) then NotFound
    else ClickList(store[shortId].clicks)
  }

  /** Delete record `shortId` owned by `userId`, then its cache entry. */
  function Delete(s: State, shortId: string, userId: string, faults: set<Call>): (o: Outcome)
    ensures o.response.Deleted? || o.response.NotFound? || o.response.ServerError?
    ensures o.response.Deleted? <==> {StoreRead, StoreWrite, CacheDel} !! faults && Owns(s.store, shortId, userId)
    ensures StoreRead !in faults ==> (o.response.NotFound? <==> !Owns(s.store, shortId, userId))
    ensures o.response.NotFound? ==> o.state == s
    ensures o.response.Deleted? ==> shortId !in o.state.store && CacheKey(shortId) !in o.state.cache
    // the store delete comes first: when only the cache delete fails, the record is gone but the caller sees a 500
    ensures o.response.ServerError? && Owns(s.store, shortId, userId) && StoreRead !in faults && StoreWrite !in faults ==>
      shortId !in o.state.store && o.state.cache == s.cache
    // a failing read, or a failing delete of the record, changes nothing
    ensures StoreRead in faults ==> o == Outcome(s, ServerError)
    ensures Owns(s.store, shortId, userId) && StoreWrite in faults ==> o == Outcome(s, ServerError)
    ensures forall k :: k != shortId ==> (k in o.state.store <==> k in s.store) && (k in s.store ==> o.state.store[k] == s.store[k])
    ensures CacheFrame(s.cache, o.state.cache, CacheKey(shortId))
    ensures StoreInvariant(s.store) ==> StoreInvariant(o.state.store)
  {
    if StoreRead in faults then Outcome(s, ServerError)
    else if !Owns(s.store, shortId, userId) then Outcome(s, NotFound)
    else if StoreWrite in faults then Outcome(s, ServerError)
    else
      var s' := s.(store := s.store - {shortId});
      if CacheDel in faults then Outcome(s', ServerError)
      else Outcome(s'.(cache := Del(s.cache, CacheKey(shortId))), Deleted)
  }

  /** Point record `shortId` owned by `userId` at `originalUrl`, then drop its
      cache entry. The URL validator never accepts the empty string. */
  function Update(s: State, shortId: string, originalUrl: string, userId: string,
                  validationOk: bool, urlValid: bool, faults: set<Call>): (o: Outcome)
    requires urlValid ==> originalUrl != ""
    ensures o.response.Record? || o.response.BadRequest? || o.response.NotFound? || o.response.ServerError?
    ensures o.response.BadRequest? <==> !validationOk || !urlValid
    ensures o.response.NotFound? <==> validationOk && urlValid && StoreWrite !in faults && !Owns(s.store, shortId, userId)
    ensures o.response.Record? <==> validationOk && urlValid && {StoreWrite, CacheDel} !! faults && Owns(s.store, shortId, userId)
    ensures o.response.BadRequest? || o.response.NotFound? ==> o.state == s
    // only the destination changes, and the cache entry is gone before the caller hears of success
    ensures o.response.Record? ==>
      && o.response.url == s.store[shortId].(originalUrl := originalUrl)
      && shortId in o.state.store && o.state.store[shortId] == o.response.url
      && CacheKey(shortId) !in o.state.cache
    // a failing store write changes nothing
    ensures validationOk && urlValid && StoreWrite in faults ==> o == Outcome(s, ServerError)
    // the store write comes first: when only the cache delete fails, the new destination is stored,
    // the old snapshot stays cached and the caller sees a 500
    ensures validationOk && urlValid && StoreWrite !in faults && Owns(s.store, shortId, userId) && CacheDel in faults ==>
      && o.response.ServerError?
      && shortId in o.state.store && o.state.store[shortId] == s.store[shortId].(originalUrl := originalUrl)
      && o.state.cache == s.cache
    ensures forall k :: k != shortId ==> (k in o.state.store <==> k in s.store) && (k in s.store ==> o.state.store[k] == s.store[k])
    ensures CacheFrame(s.cache, o.state.cache, CacheKey(shortId))
    ensures StoreInvariant(s.store) ==> StoreInvariant(o.state.store)
  {
    if !validationOk then Outcome(s, BadRequest(ValidationFailed))
    else if !urlValid then Outcome(s, BadRequest(InvalidUrl))
    else if StoreWrite in faults then Outcome(s, ServerError)
    else if !Owns(s.store, shortId, userId) then Outcome(s, NotFound)
    else
      var u := s.store[shortId].(originalUrl := originalUrl);
      var s' := s.(store := s.store[shortId := u]);
      if CacheDel in faults then Outcome(s', ServerError)
      else Outcome(s'.(cache := Del(s.cache, CacheKey(shortId))), Record(u))
  }

  /** Set the `active` flag of record `shortId` owned by `userId` (negate it
      for `Toggle`), then drop its cache entry. */
  function ToggleStatus(s: State, shortId: string, userId: string, active: ActiveArg, faults: set<Call>): (o: Outcome)
    ensures o.response.Record? || o.response.NotFound? || o.response.ServerError?
    ensures StoreRead !in faults ==> (o.response.NotFound? <==> !Owns(s.store, shortId, userId))
    ensures o.response.NotFound? ==> o.state == s
    ensures o.response.Record? <==> {StoreRead, StoreWrite, CacheDel} !! faults && !active.Uncastable? && Owns(s.store, shortId, userId)
    // only the flag changes, and the cache entry is gone before the caller hears of success
    ensures o.response.Record? ==>
      && o.response.url == s.store[shortId].(active := o.response.url.active)
      && (active.Toggle? ==> o.response.url.active == !s.store[shortId].active)
      && (active.Given? ==> o.response.url.active == active.b)
      && shortId in o.state.store && o.state.store[shortId] == o.response.url
      && CacheKey(shortId) !in o.state.cache
    // a failing read, a failing update or a value that does not cast changes nothing
    ensures StoreRead in faults ==> o == Outcome(s, ServerError)
    ensures Owns(s.store, shortId, userId) && (StoreWrite in faults || active.Uncastable?) ==> o == Outcome(s, ServerError)
    // the update comes first: when only the cache delete fails, the new flag is stored,
    // the old snapshot stays cached and the caller sees a 500
    ensures {StoreRead, StoreWrite} !! faults && !active.Uncastable? && Owns(s.store, shortId, userId) && CacheDel in faults ==>
      && o.response.ServerError?
      && shortId in o.state.store
      && o.state.store[shortId] == s.store[shortId].(active := if active.Toggle? then !s.store[shortId].active else active.b)
      && o.state.cache == s.cache
    ensures forall k :: k != shortId ==> (k in o.state.store <==> k in s.store) && (k in s.store ==> o.state.store[k] == s.store[k])
    ensures CacheFrame(s.cache, o.state.cache, CacheKey(shortId))
    ensures StoreInvariant(s.store) ==> StoreInvariant(o.state.store)
  {
    if StoreRead in faults then Outcome(s, ServerError)
    else if !Owns(s.store, shortId, userId) then Outcome(s, NotFound)
    else if StoreWrite in faults || active.Uncastable? then Outcome(s, ServerError)
    else
      var newActive := if active.Toggle? then !s.store[shortId].active else active.b;
      var u := s.store[shortId].(active := newActive);
      var s' := s.(store := s.store[shortId := u]);
      if CacheDel in faults then Outcome(s', ServerError)
      else Outcome(s'.(cache := Del(s.cache, CacheKey(shortId))), Record(u))
  }

  /** Delete any cache key; the store is never touched. */
  function ClearCache(s: State, key: string, faults: set<Call>): (o: Outcome)
    ensures o.state.store == s.store
    ensures o.response.CacheCleared? <==> CacheDel !in faults
    ensures o.response.CacheCleared? ==> key !in o.state.cache
    ensures !o.response.CacheCleared? ==> o == Outcome(s, ServerError)
    ensures CacheFrame(s.cache, o.state.cache, key)
  {
    if CacheDel in faults then Outcome(s, ServerError)
    else Outcome(s.(cache := Del(s.cache, key)), CacheCleared)
  }
}
