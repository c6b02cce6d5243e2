/** The bucket map of a stage histogram (pkg/plotter/plotter.go). */
module Plotter {
  import opened Collector

  const SECOND: int := 1_000_000_000
  const MAX_BUCKET: int := 3000

  /** int(math.Round(d.Seconds())): to the nearest second, halves away from zero. */
  function RoundSeconds(d: int): int {
    if d >= 0 then (d + SECOND / 2) / SECOND else -((-d + SECOND / 2) / SECOND)
  }

  /** The nearest whole second; halfway between two, the one further from zero. */
  lemma RoundIsNearest(d: int)
    ensures var at := RoundSeconds(d) * 1_000_000_000;
            && -500_000_000 <= at - d <= 500_000_000
            && (at - d == 500_000_000 ==> d > 0) && (d - at == 500_000_000 ==> d < 0)
  {
  }

  lemma RoundMonotone(d: int, e: int)
    requires d <= e
    ensures RoundSeconds(d) <= RoundSeconds(e)
  {
  }

  function Min(a: int, b: int): int {
    if a < b then a else b
  }

  /** The integers from lo on and below hi. */
  function Range(lo: int, hi: int): (r: set<int>)
    ensures forall k :: k in r <==> lo <= k < hi
    decreases hi - lo
  {
    if hi <= lo then {} else Range(lo, hi - 1) + {hi - 1}
  }

  /** How many of the durations round to k. */
  function InBucket(durations: seq<int>, k: int): nat {
    if durations == [] then 0
    else InBucket(durations[..|durations| - 1], k) + if RoundSeconds(durations[|durations| - 1]) == k then 1 else 0
  }

  function Rounded(durations: seq<int>): set<int> {
    set i | 0 <= i < |durations| :: RoundSeconds(durations[i])
  }

  /** A listing of the elements of a set without repetition. */
  ghost predicate Listing(keys: seq<int>, s: set<int>) {
    (forall i, j :: 0 <= i < j < |keys| ==> keys[i] != keys[j]) && forall k :: k in keys <==> k in s
  }

  lemma {:induction false} HasListing(s: set<int>) returns (keys: seq<int>)
    ensures Listing(keys, s)
  {
    if k :| k in s {
      keys := HasListing(s - {k});
      keys := keys + [k];
    } else {
      keys := [];
    }
  }

  /** The values of a map along a list of keys. */
  function ValuesAlong(keys: seq<int>, metrics: map<int, int>): int
    requires forall i :: 0 <= i < |keys| ==> keys[i] in metrics
  {
    if keys == [] then 0 else metrics[keys[0]] + ValuesAlong(keys[1..], metrics)
  }

  /** The buckets between the rounded extremes are laid out first, below 3000 only, and every
      duration is then counted wherever it falls; along any listing of its keys the values of the
      map add up to the number of durations. */
  method Buckets(d: DurationOfStage, durations: seq<int>) returns (metrics: map<int, int>)
    ensures metrics.Keys == Range(RoundSeconds(d.min), Min(RoundSeconds(d.max) + 1, 3000)) + Rounded(durations)
    ensures forall k :: k in metrics ==> metrics[k] == InBucket(durations, k)
    ensures forall keys :: Listing(keys, metrics.Keys) ==> ValuesAlong(keys, metrics) == |durations|
  {
    var empty := EmptyBuckets(RoundSeconds(d.min), RoundSeconds(d.max) + 1);
    metrics := CountInto(empty, durations);
    forall keys | Listing(keys, metrics.Keys) ensures ValuesAlong(keys, metrics) == |durations| {
      ValuesAreCounts(keys, metrics, durations);
      HistogramConserves(keys, durations);
    }
  }

  lemma {:induction false} ValuesAreCounts(keys: seq<int>, metrics: map<int, int>, durations: seq<int>)
    requires forall i :: 0 <= i < |keys| ==> keys[i] in metrics && metrics[keys[i]] == InBucket(durations, keys[i])
    ensures ValuesAlong(keys, metrics) == Total(keys, durations)
  {
    if keys == [] {
    } else {
      ValuesAreCounts(keys[1..], metrics, durations);
    }
  }

  method EmptyBuckets(minimum: int, wanted: int) returns (metrics: map<int, int>)
    ensures metrics.Keys == Range(minimum, Min(wanted, MAX_BUCKET))
    ensures forall k :: k in metrics ==> metrics[k] == 0
  {
    var maximum := wanted;
    if maximum > MAX_BUCKET {
      maximum := MAX_BUCKET;
    }
    metrics := map[];
    var i := minimum;
    while i < maximum
      invariant minimum <= i && (i <= maximum || i == minimum)
      invariant metrics.Keys == Range(minimum, i)
      invariant forall k :: k in metrics ==> metrics[k] == 0
    {
      metrics := metrics[i := 0];
      i := i + 1;
    }
  }

  method CountInto(empty: map<int, int>, durations: seq<int>) returns (metrics: map<int, int>)
    requires forall k :: k in empty ==> empty[k] == 0
    ensures metrics.Keys == empty.Keys + Rounded(durations)
    ensures forall k :: k in metrics ==> metrics[k] == InBucket(durations, k)
  {
    metrics := empty;
    for j := 0 to |durations|
      invariant metrics.Keys == empty.Keys + Rounded(durations[..j])
      invariant forall k :: InBucket(durations[..j], k) == if k in metrics then metrics[k] else 0
    {
      var value := RoundSeconds(durations[j]);
      assert durations[..j + 1][..j] == durations[..j] && durations[..j + 1] == durations[..j] + [durations[j]];
      RoundedSnoc(durations[..j], durations[j]);
      metrics := metrics[value := (if value in metrics then metrics[value] else 0) + 1];
    }
    assert durations[..|durations|] == durations;
  }

  lemma RoundedSnoc(durations: seq<int>, d: int)
    ensures Rounded(durations + [d]) == Rounded(durations) + {RoundSeconds(d)}
  {
    var all := durations + [d];
    assert all[|durations|] == d;
    forall r | r in Rounded(durations) ensures r in Rounded(all) {
      var i :| 0 <= i < |durations| && RoundSeconds(durations[i]) == r;
      assert all[i] == durations[i];
    }
  }

  /** The counts of the buckets of keys, which are listed without repetition. */
  function Total(keys: seq<int>, durations: seq<int>): nat {
    if keys == [] then 0 else InBucket(durations, keys[0]) + Total(keys[1..], durations)
  }

  lemma {:induction false} NothingCounted(keys: seq<int>)
    ensures Total(keys, []) == 0
  {
    if keys == [] {
    } else {
      NothingCounted(keys[1..]);
    }
  }

  lemma {:induction false} OneBucketGrows(keys: seq<int>, durations: seq<int>)
    requires durations != [] && forall i, j :: 0 <= i < j < |keys| ==> keys[i] != keys[j]
    ensures Total(keys, durations)
         == Total(keys, durations[..|durations| - 1]) + if RoundSeconds(durations[|durations| - 1]) in keys then 1 else 0
  {
    if keys == [] {
    } else {
      OneBucketGrows(keys[1..], durations);
      assert keys == [keys[0]] + keys[1..];
      var r := RoundSeconds(durations[|durations| - 1]);
      if r in keys[1..] { assert keys[0] != r; }
    }
  }

  /** No entity is lost or counted twice: over the buckets, listed without repetition and holding
      every rounded duration, the counts add up to the number of entities. */
  lemma {:induction false} HistogramConserves(keys: seq<int>, durations: seq<int>)
    requires forall i, j :: 0 <= i < j < |keys| ==> keys[i] != keys[j]
    requires forall i :: 0 <= i < |durations| ==> RoundSeconds(durations[i]) in keys
    ensures Total(keys, durations) == |durations|
  {
    if durations == [] {
      NothingCounted(keys);
    } else {
      HistogramConserves(keys, durations[..|durations| - 1]);
      OneBucketGrows(keys, durations);
    }
  }

  /** With the extremes the collector found, the buckets are exactly the integers from the rounded
      minimum to the rounded maximum if and only if no integer of that range from 3000 on is
      without a duration; in particular whenever the rounded maximum is below 3000. */
  lemma BucketsSpanTheSamples(d: DurationOfStage, durations: seq<int>)
    requires Summarizes(d, durations)
    ensures var lo, hi := RoundSeconds(d.min), RoundSeconds(d.max);
            var keys := Range(lo, Min(hi + 1, 3000)) + Rounded(durations);
            && (keys == Range(lo, hi + 1)
                <==> forall k :: 3000 <= k <= hi && lo <= k ==> k in Rounded(durations))
            && (hi < 3000 ==> keys == Range(lo, hi + 1))
  {
    var lo, hi := RoundSeconds(d.min), RoundSeconds(d.max);
    var keys := Range(lo, Min(hi + 1, MAX_BUCKET)) + Rounded(durations);
    forall i | 0 <= i < |durations| ensures lo <= RoundSeconds(durations[i]) <= hi {
      assert durations[i] in durations;
      RoundMonotone(d.min, durations[i]);
      RoundMonotone(durations[i], d.max);
    }
    assert forall k :: k in keys ==> k in Range(lo, hi + 1);
    if k :| MAX_BUCKET <= k <= hi && lo <= k && k !in Rounded(durations) {
      assert k in Range(lo, hi + 1) && k !in keys;
    } else {
      assert forall k :: k in Range(lo, hi + 1) ==> k in keys;
    }
  }

  /** Samples of 0 and 4000 seconds leave a bucket for 2999 and none for 3000 to 3999. */
  lemma GapBehind3000()
    ensures var d, durations := DurationOfStage(0, 4_000_000_000_000, 2_000_000_000_000), [0, 4_000_000_000_000];
            var keys := Range(RoundSeconds(d.min), Min(RoundSeconds(d.max) + 1, MAX_BUCKET)) + Rounded(durations);
            && Summarizes(d, durations)
            && forall k :: k in keys <==> 0 <= k <= 2999 || k == 4000
  {
    var durations := [0, 4000 * SECOND];
    assert durations[..1] == [0] && [0][..0] == [];
    assert Sum([0]) == 0 && Sum(durations) == 4000 * SECOND;
    assert durations[0] == 0 && durations[1] == 4000 * SECOND;
  }
}
