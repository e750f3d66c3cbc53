/** The persisted shapes of the link shortener: a short link (`Url`) and the
    visit records (`Click`) appended to it, with the schema's defaults and
    required fields. Optional string fields are `Option<string>`, because the
    schema does not require them and the code reads "missing" and "empty"
    through JavaScript truthiness. Times are logical-clock integers. */
module UrlModel {

  datatype Option<+T> = None | Some(value: T)

  /** JavaScript `x || fallback` for an optional string: the fallback when the
      value is missing or the empty string. */
  function OrElse(x: Option<string>, fallback: string): string {
    if x.Some? && x.value != "" then x.value else fallback
  }

  /** One visit. `timestamp` defaults to the creation time; the other
      fields are optional strings. */
  datatype Click = Click(
    timestamp: int,
    ip: Option<string>,
    userAgent: Option<string>,
    device: Option<string>,
    browser: Option<string>)

  /** One short link, stored under its `shortId`. */
  datatype Url = Url(
    originalUrl: string,
    shortId: string,
    userId: string,
    clicks: seq<Click>,
    active: bool,
    createdAt: int)

  /** The schema's required string fields: a required string may be neither
      missing nor empty. */
  predicate WellFormed(u: Url) {
    u.originalUrl != "" && u.shortId != "" && u.userId != ""
  }

  /** A document built from the given fields and the schema's defaults:
      `clicks` empty, `active` true unless given, `createdAt` the current time. */
  function NewUrl(originalUrl: string, shortId: string, userId: string, active: Option<bool>, now: int): (u: Url)
    ensures u.originalUrl == originalUrl && u.shortId == shortId && u.userId == userId
    ensures u.clicks == [] && u.createdAt == now
    ensures u.active <==> (active.None? || active.value)
    ensures WellFormed(u) <==> originalUrl != "" && shortId != "" && userId != ""
  {
    Url(originalUrl, shortId, userId, [], if active.Some? then active.value else true, now)
  }

  /** A click as the resolver records it: the device type and the browser
      name reported by the user-agent parser, or "unknown" when it reports
      none. */
  function RecordedClick(now: int, ip: Option<string>, userAgent: Option<string>,
                         deviceType: Option<string>, browserName: Option<string>): (c: Click)
    ensures c.timestamp == now && c.ip == ip && c.userAgent == userAgent
    ensures c.device.Some? && c.device.value != "" && c.browser.Some? && c.browser.value != ""
    ensures deviceType.None? || deviceType.value == "" ==> c.device == Some("unknown")
    ensures browserName.None? || browserName.value == "" ==> c.browser == Some("unknown")
    ensures deviceType.Some? && deviceType.value != "" ==> c.device == deviceType
    ensures browserName.Some? && browserName.value != "" ==> c.browser == browserName
  {
    Click(now, ip, userAgent, Some(OrElse(deviceType, "unknown")), Some(OrElse(browserName, "unknown")))
  }

  /** A click carries a non-empty device and browser, as every click the
      resolver records does. */
  predicate Classified(c: Click) {
    c.device.Some? && c.device.value != "" && c.browser.Some? && c.browser.value != ""
  }

  /** The store's invariant: each record sits under its own `shortId` (so the
      unique index holds), has its required fields, and holds only clicks the
      resolver recorded. */
  ghost predicate StoreInvariant(store: map<string, Url>) {
    forall k :: k in store ==>
      store[k].shortId == k && WellFormed(store[k]) &&
      forall i :: 0 <= i < |store[k].clicks| ==> Classified(store[k].clicks[i])
  }

  /** Two stored records never share a `shortId`. */
  lemma ShortIdUnique(store: map<string, Url>, k1: string, k2: string)
    requires StoreInvariant(store)
    requires k1 in store && k2 in store && k1 != k2
    ensures store[k1].shortId != store[k2].shortId
  {
  }

  /** Records owned by `userId`, keyed by `shortId`. */
  function OwnedBy(store: map<string, Url>, userId: string): map<string, Url> {
    map k | k in store && store[k].userId == userId :: store[k]
  }

  /** The record `shortId` exists and belongs to `userId`: the filter
      `{ shortId, userId }` matches it. */
  predicate Owns(store: map<string, Url>, shortId: string, userId: string) {
    shortId in store && store[shortId].userId == userId
  }
}
