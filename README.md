# Short-link resolution and invalidation, in Dafny

A model of the link shortener's backend controller and its analytics
aggregation. The controller keeps two maps: the mapping **store**, which
holds `Url` documents keyed by `shortId`, and the resolution **cache**, which
holds the JSON snapshot of a document under `"url:" + shortId` with an
expiry on a logical clock. The model covers these operations:

- **Resolving** a short id is a cache-aside lookup, then a paused check, then
  a click appended with `$push` and a 301.
- **Owner-scoped mutations** (update, toggle, delete) change the store first
  and then delete the cache key.
- **Link creation** is gated by request validation, the bot check and the URL
  validator.
- **The read-only handlers** return the caller's documents, one document, or
  its clicks.
- **The analytics page** folds the clicks into per-device and per-browser
  histograms and counts the distinct client addresses.

Files:

- `url_model.dfy` (`UrlModel`): the `Url` and `Click` records, the schema's
  defaults and required fields, and the store invariant.
- `resolution_cache.dfy` (`ResolutionCache`): the cache's get, set with TTL
  and del, and the cache key.
- `url_controller.dfy` (`UrlController`): each handler as a function from
  (state, inputs) to (new state, response). Each function's `ensures` states
  what the handler promises.
- `url_service.dfy` (`UrlService`): the class `Service`, with `store` and
  `cache` fields and imperative handler methods. Each method is proved to
  produce exactly the state and response of its controller function. The
  client method `PauseAndResume` shows that a caller of the class can reason
  from the methods' contracts alone, without the controller functions' bodies.
- `controller_properties.dfy` (`ControllerProperties`): properties of
  sequences of handler calls.
- `analytics_chart.dfy` (`AnalyticsChart`): the histogram fold as a loop
  proved against a recursive definition, with its counting lemmas, and the
  unique-address count.

Each handler takes as parameters the things it cannot compute itself:

- the current time `now`;
- the verdicts of request validation, of the bot check and of the URL
  validator;
- the generated short id and the user-agent parser's result;
- `faults`, the kinds of backend call (cache get/set/del, store read/write)
  that throw during this request. A call that throws ends the request with a
  500, as the handlers' `catch` blocks do.

Where a cache-aside design would treat these cases as misses or absorb
them, the code does not, and the model follows the code:

- A cached text that fails `JSON.parse` gives a 500. It is not treated as a
  miss.
- A cache error of any kind gives a 500. It is not absorbed.
- When the cache delete after a mutation fails, the caller gets a 500, not
  success. For delete, the record is already gone at that point.
- The cached snapshot is the whole document, its clicks included. The clicks
  in it are never refreshed.
- A snapshot that is still live after a failed invalidation keeps
  redirecting. After a delete it redirects with no record to count the click
  (`FailedInvalidationAfterDelete`). After a pause the click lands on the
  paused record (`FailedInvalidationAfterPause`).

## Model

| member | source | states |
|---|---|---|
| `UrlModel.ShortIdUnique` | backend/models/urlModel.js:13 | under the store invariant (each document stored under its own `shortId`), two stored documents never share a `shortId` |
| `UrlModel.RecordedClick` | backend/controllers/urlController.js:106-114 | a recorded click carries the time, address and raw user agent; device and browser are the parser's values, or `'unknown'` when it reports none or the empty string, so they are never empty |
| `ResolutionCache.CacheKeyInjective` | backend/controllers/urlController.js:73 | distinct short ids have distinct cache keys |
| `ResolutionCache.Set` | backend/controllers/urlController.js:93 | `SET key value EX ttl` makes the value readable until now + ttl and changes no other key |
| `ResolutionCache.Del` | backend/controllers/urlController.js:99 | after `DEL` the key is absent at every time; other keys are unchanged; deleting an absent key changes nothing |
| `UrlController.PushClick` | backend/controllers/urlController.js:115 | `$push` appends the click to that record only and keeps the store invariant; a filter that matches nothing changes nothing |
| `UrlController.Shorten` | backend/controllers/urlController.js:34-69 | 400 exactly when validation fails, the token is missing or rejected, or the URL is invalid; the literal session token skips the bot check; on success one record is added (active, no clicks, the caller's id, created now) and nothing else changes; otherwise nothing changes |
| `UrlController.Resolve` | backend/controllers/urlController.js:71-125 | 404 exactly on a miss with no record, changing nothing; a miss caches the record for 3600 s; a hit decides from the snapshot; the 301 or 302 and its state are stated whenever the calls that path makes succeed; unparsable cached text is a 500 with no fallback; a paused link gets a 302 to `/paused/<id>` and its cache entry is deleted; a click is appended only on a 301; only this link's cache key changes; a failing cache get, store read or cache set is a 500 that changes nothing; a failing cache delete (paused) or `$push` (active) is a 500 that records no click, leaving the fresh snapshot cached after a miss and everything unchanged after a hit |
| `UrlController.UserUrls` | backend/controllers/urlController.js:127-137 | returns exactly the caller's documents; 500 when the store read fails |
| `UrlController.UrlByShortId` | backend/controllers/urlController.js:139-154 | 404 exactly when no document matches both the id and the caller; otherwise that document |
| `UrlController.Analytics` | backend/controllers/urlController.js:156-171 | 404 exactly when no document matches both the id and the caller; otherwise its clicks |
| `UrlController.Delete` | backend/controllers/urlController.js:173-191 | 404 (changing nothing) when the caller owns no such record; on success the record and its cache key are gone; a failing store read or store delete is a 500 that changes nothing; if only the cache delete fails, the record is gone, the cache is unchanged and the caller sees a 500 |
| `UrlController.Update` | backend/controllers/urlController.js:193-224 | 400 on validation or URL failure and 404 when not owned, changing nothing; a failing store update is a 500 that changes nothing; on success only `originalUrl` changes and the cache key is gone; if only the cache delete fails, the new destination is stored, the old snapshot stays cached and the caller sees a 500 |
| `UrlController.ToggleStatus` | backend/controllers/urlController.js:226-252 | 404 when not owned, changing nothing; a failing store read or update, or a value the store cannot cast, is a 500 that changes nothing; on success only `active` changes, to the negation for `'toggle'` or to the given value, and the cache key is gone; if only the cache delete fails, the new flag is stored, the old snapshot stays cached and the caller sees a 500 |
| `UrlController.ClearCache` | backend/controllers/urlController.js:254-265 | deletes only the given key and never touches the store; a failing delete is a 500 that changes nothing |
| `UrlService.Service.ShortenUrl` | backend/controllers/urlController.js:34-69 | the imperative handler keeps the store invariant and ends in the state and response of `Shorten` |
| `UrlService.Service.RedirectUrl` | backend/controllers/urlController.js:71-125 | the imperative handler keeps the store invariant and ends in the state and response of `Resolve` |
| `UrlService.Service.DeleteUrl` | backend/controllers/urlController.js:173-191 | the imperative handler keeps the store invariant and ends in the state and response of `Delete` |
| `UrlService.Service.UpdateUrl` | backend/controllers/urlController.js:193-224 | the imperative handler keeps the store invariant and ends in the state and response of `Update` |
| `UrlService.Service.ToggleUrlStatus` | backend/controllers/urlController.js:226-252 | the imperative handler keeps the store invariant and ends in the state and response of `ToggleStatus` |
| `UrlService.Service.ClearCacheKey` | backend/controllers/urlController.js:254-265 | the imperative handler ends in the state and response of `ClearCache` |
| `ControllerProperties.Lifecycle` | backend/controllers/urlController.js:60-62 | create, then resolve (301, 1 click), toggle, resolve (302, still 1 click), toggle, resolve (301, 2 clicks) |
| `ControllerProperties.ToggleInvolution` | backend/controllers/urlController.js:237-245 | toggling twice restores the store and leaves no cache entry |
| `ControllerProperties.UpdateVisibleAtOnce` | backend/controllers/urlController.js:207-217 | after a successful update the next resolution reads the store and never returns the replaced destination |
| `ControllerProperties.PauseVisibleAtOnce` | backend/controllers/urlController.js:239-245 | after a successful pause the next resolution is a 302 and records no click, whatever was cached |
| `ControllerProperties.DeletedIsNotFound` | backend/controllers/urlController.js:182-184 | after a successful delete the id resolves to 404 and nothing is cached |
| `ControllerProperties.FailedInvalidationAfterDelete` | backend/controllers/urlController.js:182-184 | when the cache delete after a store delete fails, the caller sees a 500 and a live snapshot keeps redirecting to the deleted destination |
| `ControllerProperties.FailedInvalidationAfterPause` | backend/controllers/urlController.js:239-245 | when the cache delete after a pause fails, a live active snapshot keeps redirecting and the click lands on the paused record |
| `ControllerProperties.SnapshotServesWithinTtl` | backend/controllers/urlController.js:82-95 | within the hour after a miss, the next resolution is a cache hit (no store read) with the same answer; the snapshot's clicks stay stale while the store's grow |
| `ControllerProperties.NotFoundIsNotCached` | backend/controllers/urlController.js:87-91 | resolving an unknown id twice gives 404 twice and changes nothing |
| `ControllerProperties.ClearCacheIdempotent` | backend/controllers/urlController.js:258 | clearing a key twice is the same as clearing it once |
| `ControllerProperties.SessionTokenSkipsCheck` | backend/controllers/urlController.js:44 | with the session token, the bot check's verdict does not affect the outcome |
| `AnalyticsChart.BucketOf` | frontend/src/components/AnalyticsChart.js:35 | a click counts under its field's value, or `'Unknown'` when that is missing or empty |
| `AnalyticsChart.TallyCounts` | frontend/src/components/AnalyticsChart.js:34-44 | each bucket's count is the number of clicks falling into it, so each click adds exactly one to its own bucket; every present bucket has at least 1 |
| `AnalyticsChart.CountBy` | frontend/src/components/AnalyticsChart.js:34-44 | the accumulator loop of the `devices` and `browsers` reduces computes the fold `Tally` |
| `AnalyticsChart.TallySum` | frontend/src/components/AnalyticsChart.js:34-44 | each histogram's counts add up to the number of clicks |
| `AnalyticsChart.IpSet` | frontend/src/components/AnalyticsChart.js:150 | the set of the clicks' addresses: every address appears, nothing else does, and it has no more elements than there are clicks |
| `AnalyticsChart.UniqueIps` | frontend/src/components/AnalyticsChart.js:149-150 | the unique-address figure never exceeds the total-clicks figure, and is positive when there are clicks |
| `AnalyticsChart.RecordedClicksSkipFallback` | frontend/src/components/AnalyticsChart.js:35-41 | for clicks the resolver recorded, the `'Unknown'` bucket appears only if the parser itself reported `'Unknown'` |
| `AnalyticsChart.StoredClicksSkipFallback` | backend/controllers/urlController.js:156-171 | the clicks served for a store that keeps its invariant meet that premise, so their `'Unknown'` bucket appears only if the parser reported `'Unknown'` |
| `AnalyticsChart.UnclassifiedClickBucket` | frontend/src/components/AnalyticsChart.js:35-41 | a click the parser could not classify falls in the lowercase `'unknown'` bucket |

## Left out

- The bot check (`verifyRecaptcha`, an HTTP call) is the boolean parameter `captchaOk`.
- The id generator, the URL validator, request validation and the user-agent
  parser are foreign libraries. Their results are parameters. A generated id
  that collides fails the save on the unique index (a 500); there is no
  retry, as in the code.
- UrlController.Update: requires that the URL validator never accepts the
  empty string, since `isURL` with `require_protocol` does not. The store
  update runs no required-field validation, so the invariant depends on it.
- UrlController.Shorten and UrlController.Update: `originalUrl` is a string.
  The request rule only checks that the field exists
  (backend/middleware/validate.js:14, :18), so a JSON body may carry a
  number, `null` or an array. `isURL` then throws outside the handler's
  `try`, and no response at all is sent. The model has no such input, so
  "400 exactly when the URL is invalid" holds only for string inputs.
- AnalyticsChart.TallyCounts and AnalyticsChart.CountBy: the histogram is a
  `map<string, nat>` with no inherited keys. The source's accumulator is a
  plain object `{}`. A bucket named after an `Object.prototype` member
  (`constructor`, `toString`, …) starts from the inherited function, so its
  count becomes a concatenated string. A `__proto__` bucket never appears.
  The counting properties hold in the source only for other names. The
  resolver records the parser's device types and browser names, or
  `unknown`, and none of those is such a name.
- Real-time expiry is a logical clock. A cache entry is readable strictly
  before `now + 3600`.
- Concurrency is out: racing redirects, racing edits, and last-writer-wins
  cache sets. Each handler is one atomic step.
- Logging, `Cache-Control` headers and the JSON bodies of responses are out.
  The absolute short URL built from the request's protocol and host is out;
  `Shortened` carries the id.
- The snapshot's JSON round trip is taken as exact. Cached texts other than
  a whole document, the empty string or unparsable text are not modelled
  (for example `null`, or an object without fields).
- Document and click `_id`/`__v` fields are out. So is the auth middleware:
  the caller's id is a parameter.
- A status change with no `active` field is not modelled, because its effect
  depends on the store library's version. Values the store casts to a
  boolean are `Given(b)`. Values it cannot cast are `Uncastable` (a 500).
- The order of `getUserUrls`' array is out: the result is the set of the
  caller's documents, keyed by id.
- `clicksByDate` (locale- and time-zone-dependent), chart rendering, the
  order of `Object.keys`, the fetch and the loading state of the analytics
  page are out.
- Connection setup, routing, the validation rule declarations and the React
  UI are not part of this model.
