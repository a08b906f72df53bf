/** The per-second bucketed counter behind the rps, bandwidth and latency series
    (backend/src/utils/rollingWindow.js). */
module RollingWindows {
  import opened MapFolds

  /** `Math.floor(timestamp / 1000)`: Dafny's division by a positive divisor already floors. */
  function SecondOf(timestamp: int): int { timestamp / 1000 }

  /** `buckets.get(second) || 0`. */
  function BucketAt(b: map<int, int>, second: int): int { if second in b then b[second] else 0 }

  /** The buckets `prune` keeps: every key at or above the cutoff. */
  function Retained(b: map<int, int>, cutoff: int): map<int, int>
  {
    map k | k in b && k >= cutoff :: b[k]
  }

  /** The buckets after `add(value, timestamp)` on a window of `windowSeconds` seconds. */
  function Added(b: map<int, int>, timestamp: int, value: int, windowSeconds: nat): map<int, int>
  {
    var s := SecondOf(timestamp);
    Retained(b[s := BucketAt(b, s) + value], s - windowSeconds)
  }

  /** What `series` reports at second `current`: `n` values, oldest first, 0 for absent seconds. */
  function SeriesAt(b: map<int, int>, current: int, n: nat): seq<int>
  {
    seq(n, j => BucketAt(b, current - (n - 1 - j)))
  }

  /** After an add, the bucket of the timestamp's second holds the old value plus `value`,
      every other bucket inside the window is untouched, and nothing older than the window
      is left. */
  lemma AddedBuckets(b: map<int, int>, timestamp: int, value: int, windowSeconds: nat)
    ensures var r := Added(b, timestamp, value, windowSeconds);
            var s := SecondOf(timestamp);
            && s in r && r[s] == BucketAt(b, s) + value
            && (forall k :: k in r ==> k >= s - windowSeconds)
            && (forall k :: k in b && k >= s - windowSeconds && k != s ==> k in r && r[k] == b[k])
            && (forall k :: k in r && k != s ==> k in b && r[k] == b[k])
  {
  }

  class RollingWindow {
    const windowSeconds: nat
    var buckets: map<int, int>

    constructor (windowSeconds: nat)
      ensures this.windowSeconds == windowSeconds && buckets == map[]
    {
      this.windowSeconds := windowSeconds;
      buckets := map[];
    }

    /** Adds `value` to the bucket of the timestamp's second, then prunes. */
    method Add(value: int, timestamp: int)
      modifies this
      ensures buckets == Added(old(buckets), timestamp, value, windowSeconds)
    {
      var second := SecondOf(timestamp);
      var current := BucketAt(buckets, second);
      buckets := buckets[second := current + value];
      Prune(second);
    }

    /** Deletes exactly the buckets strictly older than `currentSecond - windowSeconds`. */
    method Prune(currentSecond: int)
      modifies this
      ensures buckets == Retained(old(buckets), currentSecond - windowSeconds)
    {
      var cutoff := currentSecond - windowSeconds;
      buckets := RemoveWhere(buckets, (key: int, value: int) => key < cutoff);
    }

    /** The total of every retained bucket; it neither prunes nor changes anything. */
    method Sum() returns (total: int)
      ensures total == SumValues(buckets)
    {
      total := 0;
      var pending := buckets.Keys;
      while pending != {}
        invariant pending <= buckets.Keys
        invariant total + SumOver(buckets, pending) == SumValues(buckets)
        decreases pending
      {
        var k := Pick(pending);
        SumOverRemove(buckets, pending, k);
        total := total + buckets[k];
        pending := pending - {k};
      }
    }

    /** The last `windowSeconds` per-second values up to the second of `now`, oldest first. */
    method Series(now: int) returns (points: seq<int>)
      ensures points == SeriesAt(buckets, SecondOf(now), windowSeconds)
    {
      var current := SecondOf(now);
      points := [];
      var i: int := windowSeconds - 1;
      while i >= 0
        invariant -1 <= i <= windowSeconds - 1
        invariant |points| == windowSeconds - 1 - i
        invariant forall j :: 0 <= j < |points| ==>
                    points[j] == BucketAt(buckets, current - (windowSeconds - 1 - j))
      {
        points := points + [BucketAt(buckets, current - i)];
        i := i - 1;
      }
    }
  }

  /** The retained keys span `windowSeconds + 1` seconds because the cutoff second is kept,
      so `sum` can count a bucket that `series` no longer shows: with a 60-second window,
      one unit added at second 40 and one at second 100 sum to 2, while the series at
      second 100 shows only the second one. */
  lemma SumSpansOneMoreSecondThanSeries()
    ensures var b := Added(Added(map[], 40000, 1, 60), 100000, 1, 60);
            && SumValues(b) == 2
            && forall j :: 0 <= j < 60 ==> SeriesAt(b, 100, 60)[j] == if j == 59 then 1 else 0
  {
    var b := Added(Added(map[], 40000, 1, 60), 100000, 1, 60);
    assert b == map[40 := 1, 100 := 1];
    SumOverRemove(b, b.Keys, 40);
    assert b.Keys - {40} == {100};
    SumOverRemove(b, {100}, 100);
  }
}
