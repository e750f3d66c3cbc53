/** The resolution cache: a key-value store of text values, each with an
    expiry time on a logical clock. A value is visible to `Get` strictly
    before its expiry; `Set` and `Del` act on one key. The text stored by the
    resolver is the JSON of a whole `Url` document; the model keeps that
    document (`Snapshot`) and the two other shapes of text the resolver
    distinguishes: the empty string and text that does not parse. */
module ResolutionCache {
  import opened UrlModel

  /** Lifetime, in seconds, of an entry written by the resolver. */
  const CacheTtl: int := 3600

  datatype CacheValue =
    | Snapshot(record: Url)  // JSON of a whole document, clicks included
    | EmptyText              // the empty string
    | Malformed              // text that does not parse as JSON

  datatype Entry = Entry(value: CacheValue, expiresAt: int)

  type Cache = map<string, Entry>

  /** The key under which a short link's snapshot is cached. */
  function CacheKey(shortId: string): (key: string)
    ensures |key| == |shortId| + 4 && key[..4] == "url:" && key[4..] == shortId
  {
    "url:" + shortId
  }

  /** Distinct short links never share a cache key. */
  lemma CacheKeyInjective(a: string, b: string)
    ensures CacheKey(a) == CacheKey(b) ==> a == b
  {
    if CacheKey(a) == CacheKey(b) {
      assert a == CacheKey(a)[4..];
    }
  }

  /** What a read of `key` at time `now` returns. */
  function Get(c: Cache, key: string, now: int): Option<CacheValue> {
    if key in c && now < c[key].expiresAt then Some(c[key].value) else None
  }

  /** Whether a read of `key` at `now` yields a truthy string, which is what
      sends the resolver down its cache-hit path. */
  predicate Hit(c: Cache, key: string, now: int) {
    Get(c, key, now).Some? && !Get(c, key, now).value.EmptyText?
  }

  /** `SET key value EX ttl` at time `now`. */
  function Set(c: Cache, key: string, v: CacheValue, ttl: int, now: int): (r: Cache)
    ensures key in r && r[key] == Entry(v, now + ttl)
    ensures forall k :: k != key ==> (k in r <==> k in c) && (k in c ==> r[k] == c[k])
    ensures forall t :: now <= t < now + ttl ==> Get(r, key, t) == Some(v)
  {
    c[key := Entry(v, now + ttl)]
  }

  /** `DEL key`; deleting an absent key is allowed and changes nothing. */
  function Del(c: Cache, key: string): (r: Cache)
    ensures key !in r
    ensures forall t :: Get(r, key, t).None?
    ensures forall k :: k != key ==> (k in r <==> k in c) && (k in c ==> r[k] == c[k])
    ensures key !in c ==> r == c
  {
    c - {key}
  }
}
