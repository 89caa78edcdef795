/**
 * The in-memory, per-client sliding-window rate limit of
 * src/middleware/rateLimit.js. One table of request timestamps per client key
 * is shared by every limiter built from the module.
 */
module RateLimit {
  import opened Wrappers
  import opened Text

  /** `{ windowMs = 10_000, max = 30 }`. */
  datatype Options = Options(windowMs: int, max: int)

  const Defaults: Options := Options(10000, 30)

  /** The options the server mounts the limiter with. */
  const ServerOptions: Options := Options(10000, 40)

  /**
   * The client key: the first entry of `X-Forwarded-For`, trimmed; when that
   * is empty or the header is absent, the request's address; when that is
   * missing or empty too, `"unknown"`.
   */
  function ClientKey(forwardedFor: Option<string>, ip: Option<string>): (key: string)
    ensures key != ""
    ensures forwardedFor.Some? && Trim(Split(forwardedFor.value, ',')[0]) != "" ==>
      key == Trim(Split(forwardedFor.value, ',')[0])
    ensures (forwardedFor.None? || Trim(Split(forwardedFor.value, ',')[0]) == "") && ip.Some? && ip.value != "" ==>
      key == ip.value
    ensures (forwardedFor.None? || Trim(Split(forwardedFor.value, ',')[0]) == "") && (ip.None? || ip.value == "") ==>
      key == "unknown"
  {
    var first := if forwardedFor.Some? then Trim(Split(forwardedFor.value, ',')[0]) else "";
    if first != "" then first
    else if ip.Some? && ip.value != "" then ip.value
    else "unknown"
  }

  /** The proxy that appended its own address last does not change the key: only the first hop counts. */
  lemma ClientKeyFirstHop(client: string, hops: string, ip: Option<string>)
    requires ',' !in client && Trim(client) == client && client != ""
    ensures ClientKey(Some(client + "," + hops), ip) == client
  {
    IndexOfJoined(client, ',', hops);
    var s := client + [','] + hops;
    assert s[..|client|] == client;
    assert client + "," + hops == s;
  }

  /** `bucket.filter(ts => now - ts < windowMs)`: the timestamps still inside the window, in order. */
  function Recent(bucket: seq<int>, now: int, windowMs: int): (kept: seq<int>)
    ensures |kept| <= |bucket|
    ensures forall t :: t in kept <==> t in bucket && now - t < windowMs
  {
    if |bucket| == 0 then []
    else if now - bucket[0] < windowMs then [bucket[0]] + Recent(bucket[1..], now, windowMs)
    else Recent(bucket[1..], now, windowMs)
  }

  /** The filter works piece by piece: it keeps the order and the repeats of the timestamps. */
  lemma {:induction false} RecentAppend(a: seq<int>, b: seq<int>, now: int, windowMs: int)
    ensures Recent(a + b, now, windowMs) == Recent(a, now, windowMs) + Recent(b, now, windowMs)
  {
    if |a| > 0 {
      assert (a + b)[0] == a[0];
      assert (a + b)[1..] == a[1..] + b;
      RecentAppend(a[1..], b, now, windowMs);
    } else {
      assert a + b == b;
    }
  }

  /** A bucket whose every timestamp has left the window is emptied. */
  lemma {:induction false} RecentAllStale(bucket: seq<int>, now: int, windowMs: int)
    requires forall i :: 0 <= i < |bucket| ==> now - bucket[i] >= windowMs
    ensures Recent(bucket, now, windowMs) == []
  {
    if |bucket| > 0 {
      RecentAllStale(bucket[1..], now, windowMs);
    }
  }

  /**
   * A bucket of stale timestamps followed by young ones, as the clock leaves
   * it, keeps exactly the young ones: the next request's count is their
   * number plus one.
   */
  lemma RecentDropsStale(stale: seq<int>, young: seq<int>, now: int, windowMs: int)
    requires forall i :: 0 <= i < |stale| ==> now - stale[i] >= windowMs
    requires forall i :: 0 <= i < |young| ==> now - young[i] < windowMs
    ensures Recent(stale + young, now, windowMs) == young
    ensures |Step(stale + young, now, windowMs)| == |young| + 1
  {
    RecentAppend(stale, young, now, windowMs);
    RecentAllStale(stale, now, windowMs);
    RecentAllFresh(young, now, windowMs);
  }

  /**
   * Filtering twice as the clock moves forward is filtering once at the later
   * time: a timestamp that has left the window never comes back.
   */
  lemma {:induction false} RecentLater(bucket: seq<int>, earlier: int, later: int, windowMs: int)
    requires earlier <= later
    ensures Recent(Recent(bucket, earlier, windowMs), later, windowMs) == Recent(bucket, later, windowMs)
  {
    if |bucket| > 0 {
      RecentLater(bucket[1..], earlier, later, windowMs);
    }
  }

  /** A bucket whose every timestamp is inside the window survives the filter whole. */
  lemma {:induction false} RecentAllFresh(bucket: seq<int>, now: int, windowMs: int)
    requires forall i :: 0 <= i < |bucket| ==> now - bucket[i] < windowMs
    ensures Recent(bucket, now, windowMs) == bucket
  {
    if |bucket| > 0 {
      RecentAllFresh(bucket[1..], now, windowMs);
      assert bucket == [bucket[0]] + bucket[1..];
    }
  }

  /** The bucket after one request at `now`: the recent timestamps, then `now`. The request itself is always recorded. */
  function Step(bucket: seq<int>, now: int, windowMs: int): seq<int> {
    Recent(bucket, now, windowMs) + [now]
  }

  /** The bucket after a run of requests at the given times, starting from `bucket`. */
  function Replay(bucket: seq<int>, times: seq<int>, windowMs: int): seq<int>
    decreases |times|
  {
    if |times| == 0 then bucket else Replay(Step(bucket, times[0], windowMs), times[1..], windowMs)
  }

  /**
   * A burst of requests whose times, together with those already in the
   * bucket, all lie within one window of each other leaves every one of those
   * times in the bucket.
   */
  lemma {:induction false} BurstFillsBucket(prefix: seq<int>, times: seq<int>, windowMs: int)
    requires forall i, j :: 0 <= i < |prefix + times| && 0 <= j < |prefix + times| ==>
      (prefix + times)[j] - (prefix + times)[i] < windowMs
    ensures Replay(prefix, times, windowMs) == prefix + times
    decreases |times|
  {
    if |times| > 0 {
      var all := prefix + times;
      forall i | 0 <= i < |prefix|
        ensures times[0] - prefix[i] < windowMs
      {
        assert all[i] == prefix[i] && all[|prefix|] == times[0];
      }
      RecentAllFresh(prefix, times[0], windowMs);
      assert Step(prefix, times[0], windowMs) == prefix + [times[0]];
      assert (prefix + [times[0]]) + times[1..] == all;
      BurstFillsBucket(prefix + [times[0]], times[1..], windowMs);
    }
  }

  /** One more request after a run is one more `Step`. */
  lemma {:induction false} ReplaySnoc(bucket: seq<int>, times: seq<int>, t: int, windowMs: int)
    ensures Replay(bucket, times + [t], windowMs) == Step(Replay(bucket, times, windowMs), t, windowMs)
    decreases |times|
  {
    if |times| > 0 {
      assert (times + [t])[0] == times[0];
      assert (times + [t])[1..] == times[1..] + [t];
      ReplaySnoc(Step(bucket, times[0], windowMs), times[1..], t, windowMs);
    } else {
      assert [t][1..] == [];
    }
  }

  /**
   * In such a burst, request `k` (counting from zero) finds the bucket after
   * the requests before it, and its own step leaves `|prefix| + k + 1`
   * timestamps: with `Admit`'s rule it is refused exactly when that count
   * exceeds `max`, so from an empty bucket the first `max` pass and every
   * later one is answered 429.
   */
  lemma BurstRefusal(prefix: seq<int>, times: seq<int>, windowMs: int, max: int, k: nat)
    requires forall i, j :: 0 <= i < |prefix + times| && 0 <= j < |prefix + times| ==>
      (prefix + times)[j] - (prefix + times)[i] < windowMs
    requires k < |times|
    ensures Replay(prefix, times[..k + 1], windowMs) == Step(Replay(prefix, times[..k], windowMs), times[k], windowMs)
    ensures |Step(Replay(prefix, times[..k], windowMs), times[k], windowMs)| <= max <==> |prefix| + k + 1 <= max
  {
    assert times[..k + 1] == times[..k] + [times[k]];
    ReplaySnoc(prefix, times[..k], times[k], windowMs);
    var all := prefix + times;
    var part := prefix + times[..k + 1];
    forall i, j | 0 <= i < |part| && 0 <= j < |part|
      ensures part[j] - part[i] < windowMs
    {
      assert part[i] == all[i] && part[j] == all[j];
    }
    BurstFillsBucket(prefix, times[..k + 1], windowMs);
  }

  /** The shared table of request timestamps per client key. */
  class HitTable {
    var hits: map<string, seq<int>>

    constructor ()
      ensures hits == map[]
    {
      hits := map[];
    }

    /** The client's bucket, empty when it has none yet. */
    function Bucket(key: string): seq<int>
      reads this
    {
      if key in hits then hits[key] else []
    }

    /**
     * One request from `key` at `now`: the bucket keeps its recent timestamps
     * and gains `now`, whether or not the request is let through; the request
     * is let through when the new bucket holds at most `max` timestamps.
     */
    method Admit(opts: Options, key: string, now: int) returns (allowed: bool)
      modifies this
      ensures hits == old(hits)[key := Step(old(Bucket(key)), now, opts.windowMs)]
      ensures allowed <==> |Step(old(Bucket(key)), now, opts.windowMs)| <= opts.max
    {
      var bucket := Bucket(key);
      var kept := Recent(bucket, now, opts.windowMs);
      kept := kept + [now];
      hits := hits[key := kept];
      allowed := |kept| <= opts.max;
    }
  }

  /** The reply the limiter gives instead of calling the next handler. */
  const TooManyStatus: nat := 429
  const TooManyMessage: string := "Too many requests. Slow down."
}
