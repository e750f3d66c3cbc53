/** The analytics page's aggregation of one link's clicks: a histogram of
    clicks per device and per browser, where a click whose field is missing
    or empty counts under "Unknown", and the number of distinct client
    addresses. */
module AnalyticsChart {
  import opened UrlModel
  import UrlController

  /** The click field a histogram groups by. */
  datatype Field = Device | Browser

  function FieldOf(c: Click, f: Field): Option<string> {
    match f
    case Device => c.device
    case Browser => c.browser
  }

  /** The bucket a click counts under: its field, or "Unknown" when that is
      missing or empty. */
  function BucketOf(c: Click, f: Field): (b: string)
    ensures b != ""
    ensures FieldOf(c, f).Some? && FieldOf(c, f).value != "" ==> b == FieldOf(c, f).value
    ensures FieldOf(c, f).None? || FieldOf(c, f).value == "" ==> b == "Unknown"
  {
    OrElse(FieldOf(c, f), "Unknown")
  }

  /** The bucket of each click, in order. */
  function BucketNames(clicks: seq<Click>, f: Field): (names: seq<string>)
    ensures |names| == |clicks|
    ensures forall i :: 0 <= i < |clicks| ==> names[i] == BucketOf(clicks[i], f)
  {
    seq(|clicks|, i requires 0 <= i < |clicks| => BucketOf(clicks[i], f))
  }

  lemma BucketNamesSnoc(clicks: seq<Click>, f: Field)
    requires clicks != []
    ensures BucketNames(clicks, f) == BucketNames(clicks[..|clicks| - 1], f) + [BucketOf(clicks[|clicks| - 1], f)]
  {
  }

  /** One more click in bucket `k`. */
  function Bump(h: map<string, nat>, k: string): map<string, nat> {
    h[k := if k in h then h[k] + 1 else 1]
  }

  /** The histogram the chart's fold builds, click by click from the first. */
  function Tally(clicks: seq<Click>, f: Field): map<string, nat>
    decreases |clicks|
  {
    if clicks == [] then map[]
    else Bump(Tally(clicks[..|clicks| - 1], f), BucketOf(clicks[|clicks| - 1], f))
  }

  /** Each bucket holds exactly as many clicks as fall into it (so each click
      adds exactly one, to its own bucket), and only buckets some click falls
      into are present. */
  lemma {:induction false} TallyCounts(clicks: seq<Click>, f: Field)
    ensures forall k :: k in Tally(clicks, f) ==> Tally(clicks, f)[k] == multiset(BucketNames(clicks, f))[k] >= 1
    ensures forall k :: k !in Tally(clicks, f) ==> multiset(BucketNames(clicks, f))[k] == 0
    decreases |clicks|
  {
    if clicks != [] {
      TallyCounts(clicks[..|clicks| - 1], f);
      BucketNamesSnoc(clicks, f);
    }
  }

  lemma TallySnoc(clicks: seq<Click>, f: Field)
    requires clicks != []
    ensures Tally(clicks, f) == Bump(Tally(clicks[..|clicks| - 1], f), BucketOf(clicks[|clicks| - 1], f))
  {
  }

  /** The `devices` (field `Device`) or `browsers` (field `Browser`) reduce:
      one pass over the clicks adding one to the click's bucket. */
  method CountBy(analytics: seq<Click>, f: Field) returns (acc: map<string, nat>)
    ensures acc == Tally(analytics, f)
  {
    acc := map[];
    var i := 0;
    while i < |analytics|
      invariant 0 <= i <= |analytics|
      invariant acc == Tally(analytics[..i], f)
    {
      var key := BucketOf(analytics[i], f);
      ghost var before := acc;
      acc := acc[key := (if key in acc then acc[key] else 0) + 1];
      assert acc == Bump(before, key);
      TallySnoc(analytics[..i + 1], f);
      assert analytics[..i + 1][..i] == analytics[..i];
      i := i + 1;
    }
    assert analytics[..i] == analytics;
  }

  /** The sum of a histogram's counts. */
  ghost function SumCounts(h: map<string, nat>): nat
    decreases |h|
  {
    if h == map[] then 0
    else
      var k :| k in h;
      assert |h - {k}| < |h| by { assert (h - {k}).Keys == h.Keys - {k}; }
      h[k] + SumCounts(h - {k})
  }

  /** The sum does not depend on which bucket is taken out first. */
  lemma {:induction false} SumCountsRemove(h: map<string, nat>, k: string)
    requires k in h
    ensures SumCounts(h) == h[k] + SumCounts(h - {k})
    decreases |h|
  {
    var j :| j in h && SumCounts(h) == h[j] + SumCounts(h - {j});
    if j != k {
      assert (h - {j}).Keys == h.Keys - {j};
      assert (h - {k}).Keys == h.Keys - {k};
      SumCountsRemove(h - {j}, k);
      SumCountsRemove(h - {k}, j);
      assert h - {j} - {k} == h - {k} - {j};
    }
  }

  /** Adding one click adds one to the sum. */
  lemma SumCountsBump(h: map<string, nat>, k: string)
    ensures SumCounts(Bump(h, k)) == SumCounts(h) + 1
  {
    var b := Bump(h, k);
    SumCountsRemove(b, k);
    if k in h {
      SumCountsRemove(h, k);
      assert b - {k} == h - {k};
    } else {
      assert b - {k} == h;
    }
  }

  /** Each histogram's counts add up to the number of clicks. */
  lemma {:induction false} TallySum(clicks: seq<Click>, f: Field)
    ensures SumCounts(Tally(clicks, f)) == |clicks|
    decreases |clicks|
  {
    if clicks != [] {
      var prefix := clicks[..|clicks| - 1];
      TallySum(prefix, f);
      SumCountsBump(Tally(prefix, f), BucketOf(clicks[|clicks| - 1], f));
    }
  }

  /** The distinct client addresses among the clicks, a missing address
      being one value of its own. */
  function IpSet(analytics: seq<Click>): (ips: set<Option<string>>)
    ensures |ips| <= |analytics|
    ensures forall i :: 0 <= i < |analytics| ==> analytics[i].ip in ips
    ensures forall ip :: ip in ips ==> exists i :: 0 <= i < |analytics| && analytics[i].ip == ip
    decreases |analytics|
  {
    if analytics == [] then {}
    else IpSet(analytics[..|analytics| - 1]) + {analytics[|analytics| - 1].ip}
  }

  /** The "Unique IPs" figure never exceeds the "Total Clicks" figure. */
  function UniqueIps(analytics: seq<Click>): (n: nat)
    ensures n <= |analytics|
    ensures analytics != [] ==> n >= 1
  {
    |IpSet(analytics)|
  }

  /** Clicks the resolver records always name their device and browser, so
      the chart's "Unknown" bucket only appears when the parser itself
      reported "Unknown"; a click it could not classify is counted under
      "unknown". */
  lemma {:induction false} RecordedClicksSkipFallback(clicks: seq<Click>, f: Field)
    requires forall i :: 0 <= i < |clicks| ==> Classified(clicks[i])
    ensures "Unknown" in Tally(clicks, f) ==> exists i :: 0 <= i < |clicks| && FieldOf(clicks[i], f) == Some("Unknown")
  {
    var names := BucketNames(clicks, f);
    if "Unknown" in Tally(clicks, f) {
      TallyCounts(clicks, f);
      assert "Unknown" in multiset(names);
      var i :| 0 <= i < |names| && names[i] == "Unknown";
      assert Classified(clicks[i]);
    }
  }

  /** The clicks the analytics endpoint serves come from a store that keeps
      its invariant, so they meet the premise of `RecordedClicksSkipFallback`. */
  lemma StoredClicksSkipFallback(store: map<string, Url>, shortId: string, userId: string,
                                 faults: set<UrlController.Call>, f: Field)
    requires StoreInvariant(store)
    ensures var r := UrlController.Analytics(store, shortId, userId, faults);
      r.ClickList? && "Unknown" in Tally(r.clicks, f) ==>
        exists i :: 0 <= i < |r.clicks| && FieldOf(r.clicks[i], f) == Some("Unknown")
  {
    var r := UrlController.Analytics(store, shortId, userId, faults);
    if r.ClickList? {
      assert r.clicks == store[shortId].clicks;
      RecordedClicksSkipFallback(r.clicks, f);
    }
  }

  lemma UnclassifiedClickBucket(now: int, ip: Option<string>, userAgent: Option<string>, f: Field)
    ensures BucketOf(RecordedClick(now, ip, userAgent, None, None), f) == "unknown"
  {
  }
}
