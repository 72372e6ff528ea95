/**
 * Comparing two listening snapshots (src/analysis_functions/comparisons.ts): membership of an
 * item in a snapshot, the items two snapshots share, the rank change of an item, and the
 * similarity score of two snapshots.
 */
module Comparisons {
  import opened Wrappers
  import opened Records
  import opened Seqs
  import opened Constants
  import opened Features

  /** `dp[`top_${type}`]` as the values a caller iterates over. */
  function Elements(dp: Datapoint, kind: Kind): seq<Item> {
    match kind
    case Artists => ArtistItems(dp.topArtists)
    case Songs => SongItems(dp.topSongs)
    case Genres => GenreItems(dp.topGenres)
  }

  /**
   * The key an item is compared by for the list kind: its `artist_id` or `song_id`, or the
   * string itself for genres; None when the item has the wrong shape.
   */
  function ItemKey(e: Item, kind: Kind): Option<string> {
    match kind
    case Artists => if e.Obj? then e.props.artistId else None
    case Songs => if e.Obj? then e.props.songId else None
    case Genres => if e.Text? then Some(e.text) else None
  }

  /** The keys of the snapshot's list, rank by rank. */
  function KeysOf(dp: Datapoint, kind: Kind): seq<string> {
    match kind
    case Artists => ArtistIds(dp.topArtists)
    case Songs => SongIds(dp.topSongs)
    case Genres => dp.topGenres
  }

  /**
   * containsElement: an artist (song) is contained when some top artist (song) has its id; a
   * genre when it equals some top genre; an item of the wrong shape never is.
   */
  function Contains(e: Item, dp: Datapoint, kind: Kind): (r: bool)
    ensures kind == Artists ==>
      (r <==> e.Obj? && e.props.artistId.Some? &&
              exists i :: 0 <= i < |dp.topArtists| && dp.topArtists[i].artistId == e.props.artistId.value)
    ensures kind == Songs ==>
      (r <==> e.Obj? && e.props.songId.Some? &&
              exists i :: 0 <= i < |dp.topSongs| && dp.topSongs[i].songId == e.props.songId.value)
    ensures kind == Genres ==> (r <==> e.Text? && e.text in dp.topGenres)
  {
    var key := ItemKey(e, kind);
    key.Some? && key.value in KeysOf(dp, kind)
  }

  /** The items of `items` that dp2 contains, in order (the specification of getMatchingItems). */
  function Matching(items: seq<Item>, dp2: Datapoint, kind: Kind): seq<Item>
    decreases |items|
  {
    if items == [] then []
    else
      var last := items[|items| - 1];
      Matching(items[..|items| - 1], dp2, kind) + (if Contains(last, dp2, kind) then [last] else [])
  }

  /** getMatchingItems: pushes each element of dp1's list that dp2 contains. */
  method GetMatchingItems(dp1: Datapoint, dp2: Datapoint, kind: Kind) returns (matches: seq<Item>)
    ensures matches == Matching(Elements(dp1, kind), dp2, kind)
  {
    var items := Elements(dp1, kind);
    matches := [];
    for i := 0 to |items|
      invariant matches == Matching(items[..i], dp2, kind)
    {
      MatchingStep(items, i, dp2, kind);
      if Contains(items[i], dp2, kind) {
        matches := matches + [items[i]];
      }
    }
    assert items[..|items|] == items;
  }

  /** One pass of getMatchingItems' loop. */
  lemma MatchingStep(items: seq<Item>, i: int, dp2: Datapoint, kind: Kind)
    requires 0 <= i < |items|
    ensures Matching(items[..i + 1], dp2, kind) ==
      Matching(items[..i], dp2, kind) + (if Contains(items[i], dp2, kind) then [items[i]] else [])
  {
    var p := items[..i + 1];
    assert p[..|p| - 1] == items[..i] && p[|p| - 1] == items[i];
  }

  /** An item dp2 contains is kept as often as it occurs; any other item is dropped. */
  lemma {:induction false} MatchingCount(items: seq<Item>, dp2: Datapoint, kind: Kind, x: Item)
    ensures multiset(Matching(items, dp2, kind))[x] ==
      if Contains(x, dp2, kind) then multiset(items)[x] else 0
    decreases |items|
  {
    if items != [] {
      var p := items[..|items| - 1];
      var last := items[|items| - 1];
      MatchingCount(p, dp2, kind, x);
      SplitLast(items);
      var tail := if Contains(last, dp2, kind) then [last] else [];
      assert Matching(items, dp2, kind) == Matching(p, dp2, kind) + tail;
      assert multiset(items) == multiset(p) + multiset{last};
      assert multiset(Matching(items, dp2, kind)) == multiset(Matching(p, dp2, kind)) + multiset(tail);
    }
  }

  /** Matching keeps exactly the contained items, each as often as it occurs. */
  lemma MatchingSpec(items: seq<Item>, dp2: Datapoint, kind: Kind)
    ensures var r := Matching(items, dp2, kind);
      (forall x :: x in r <==> x in items && Contains(x, dp2, kind)) &&
      (forall x :: Contains(x, dp2, kind) ==> multiset(r)[x] == multiset(items)[x]) &&
      (forall x :: !Contains(x, dp2, kind) ==> multiset(r)[x] == 0)
  {
    var r := Matching(items, dp2, kind);
    forall x ensures multiset(r)[x] == if Contains(x, dp2, kind) then multiset(items)[x] else 0 {
      MatchingCount(items, dp2, kind, x);
    }
    forall x ensures x in r <==> x in items && Contains(x, dp2, kind) {
      assert x in r <==> multiset(r)[x] > 0;
      assert x in items <==> multiset(items)[x] > 0;
    }
  }

  /** Matching distributes over concatenation, so dp1's order is kept. */
  lemma {:induction false} MatchingAppend(xs: seq<Item>, ys: seq<Item>, dp2: Datapoint, kind: Kind)
    ensures Matching(xs + ys, dp2, kind) == Matching(xs, dp2, kind) + Matching(ys, dp2, kind)
    decreases |ys|
  {
    if ys == [] {
      assert xs + ys == xs;
    } else {
      var q := ys[..|ys| - 1];
      assert (xs + ys)[..|xs + ys| - 1] == xs + q;
      MatchingAppend(xs, q, dp2, kind);
    }
  }

  /**
   * getItemIndexChange: null when the item has the wrong shape or is not in the comparison
   * list; otherwise its first position there minus `index`.
   */
  function GetItemIndexChange(item: Item, index: int, kind: Kind, comparison: Datapoint): (r: Option<int>)
    ensures r.Some? <==> Contains(item, comparison, kind)
    ensures r.Some? ==>
      var keys := KeysOf(comparison, kind);
      var last := r.value + index;
      0 <= last < |keys| && keys[last] == ItemKey(item, kind).value &&
      forall j :: 0 <= j < last ==> keys[j] != ItemKey(item, kind).value
  {
    var key := ItemKey(item, kind);
    var lastIndex := if key.Some? then IndexOf(KeysOf(comparison, kind), key.value) else -1;
    if lastIndex < 0 then None else Some(lastIndex - index)
  }

  /** `Math.abs` on integers. */
  function Abs(x: int): nat {
    if x < 0 then -x else x
  }

  /** `Math.abs` on reals. */
  function AbsR(x: real): real {
    if x < 0.0 then -x else x
  }

  /** The artist has a namesake among `others` (matching is by name, not by id). */
  predicate SharesName(a: Artist, others: seq<Artist>) {
    exists j :: 0 <= j < |others| && others[j].name == a.name
  }

  /** The number of artists of a1 with a namesake in a2: the first loop's final count. */
  function NameMatches(a1: seq<Artist>, a2: seq<Artist>): (r: nat)
    ensures r <= |a1|
    decreases |a1|
  {
    if a1 == [] then 0
    else NameMatches(a1[..|a1| - 1], a2) + (if SharesName(a1[|a1| - 1], a2) then 1 else 0)
  }

  /** `Math.floor((|g1| + |g2|) / 2)`. */
  function AvgLen(g1: seq<string>, g2: seq<string>): nat {
    (|g1| + |g2|) / 2
  }

  /**
   * The contribution of dp1's genre at rank i1: |avg - |i1 - i2|| / avg with i2 its first rank
   * in dp2, and nothing when dp2 lacks it.
   */
  function GenreTerm(g1: seq<string>, g2: seq<string>, i1: int): real
    requires 0 <= i1 < |g1|
  {
    var i2 := IndexOf(g2, g1[i1]);
    if i2 == -1 then 0.0
    else AbsR((AvgLen(g1, g2) - Abs(i1 - i2)) as real) / (AvgLen(g1, g2) as real)
  }

  /** The sum of the first n genre terms: the second loop's running total. */
  function GenreSum(g1: seq<string>, g2: seq<string>, n: int): real
    requires 0 <= n <= |g1|
    decreases n
  {
    if n == 0 then 0.0 else GenreSum(g1, g2, n - 1) + GenreTerm(g1, g2, n - 1)
  }

  /** A genre term is non-negative, and 0 when dp2 lacks the genre. */
  lemma GenreTermSign(g1: seq<string>, g2: seq<string>, i: int)
    requires 0 <= i < |g1|
    ensures GenreTerm(g1, g2, i) >= 0.0
    ensures g1[i] !in g2 ==> GenreTerm(g1, g2, i) == 0.0
  {
    var i2 := IndexOf(g2, g1[i]);
    if i2 != -1 {
      var avg := AvgLen(g1, g2);
      assert avg > 0;
      var x, d := AbsR((avg - Abs(i - i2)) as real), avg as real;
      assert x / d >= 0.0 by {
        assert x >= 0.0 && d > 0.0;
      }
    }
  }

  /** Every genre term is non-negative, and a genre dp2 lacks contributes nothing. */
  lemma {:induction false} GenreSumNonNegative(g1: seq<string>, g2: seq<string>, n: int)
    requires 0 <= n <= |g1|
    ensures GenreSum(g1, g2, n) >= 0.0
    ensures forall i :: 0 <= i < |g1| ==> GenreTerm(g1, g2, i) >= 0.0
    ensures forall i :: 0 <= i < |g1| && g1[i] !in g2 ==> GenreTerm(g1, g2, i) == 0.0
    decreases n
  {
    forall i | 0 <= i < |g1| ensures GenreTerm(g1, g2, i) >= 0.0 && (g1[i] !in g2 ==> GenreTerm(g1, g2, i) == 0.0) {
      GenreTermSign(g1, g2, i);
    }
    if n > 0 {
      GenreSumNonNegative(g1, g2, n - 1);
    }
  }

  /** The sum is 0 when the average length is 0 (one list is then empty). */
  lemma {:induction false} GenreSumOfEmpty(g1: seq<string>, g2: seq<string>, n: int)
    requires 0 <= n <= |g1| && AvgLen(g1, g2) == 0
    ensures GenreSum(g1, g2, n) == 0.0
    decreases n
  {
    if n > 0 {
      GenreSumOfEmpty(g1, g2, n - 1);
    }
  }

  /** The keys the metric loop skips. */
  const ExcludedKeys: seq<string> := ["tempo", "loudness"]

  /** The j-th summand of metricDelta, comparing the average records of the two song lists. */
  function MetricTerm(s1: seq<Song>, s2: seq<Song>, j: int): real
    requires FeaturesNumeric(s1) && FeaturesNumeric(s2) && 0 <= j < |AnalyticsKeys|
  {
    if AnalyticsKeys[j] in ExcludedKeys then 0.0 else AbsR(Mean(s1, j) - Mean(s2, j))
  }

  /** The sum of the first n metric terms: the third loop's running total. */
  function MetricSum(s1: seq<Song>, s2: seq<Song>, n: int): real
    requires FeaturesNumeric(s1) && FeaturesNumeric(s2) && 0 <= n <= |AnalyticsKeys|
    decreases n
  {
    if n == 0 then 0.0 else MetricSum(s1, s2, n - 1) + MetricTerm(s1, s2, n - 1)
  }

  /** The number of keys among the first n average keys that metricDelta counts. */
  function MetricCount(n: int): nat
    requires 0 <= n <= |AnalyticsKeys|
  {
    if n == 0 then 0 else MetricCount(n - 1) + (if AnalyticsKeys[n - 1] in ExcludedKeys then 0 else 1)
  }

  /**
   * metricDelta sums over six keys (both excluded keys are average keys), and its divisor,
   * the record's size minus the two excluded keys, is that number six.
   */
  lemma MetricDivisor()
    ensures forall k :: k in ExcludedKeys ==> k in AnalyticsKeys
    ensures MetricCount(|AnalyticsKeys|) == |AnalyticsKeys| - |ExcludedKeys| == 6
  {
    assert AnalyticsKeys[5] == "loudness" && AnalyticsKeys[7] == "tempo";
    assert MetricCount(4) == 4;
  }

  /** `Math.round`: the nearest integer, halves rounded up. */
  function Round(x: real): int {
    (x + 0.5).Floor
  }

  /** `x / d` where a zero divisor only meets a zero numerator: 0 / 0 is NaN. */
  function Ratio(x: real, d: int): Score
    requires d == 0 ==> x == 0.0
  {
    if d == 0 then NaN else Finite(x / (d as real))
  }

  /** A numeric function applied to a score; NaN stays NaN. */
  function Apply(f: real -> real, x: Score): Score {
    match x
    case NaN => NaN
    case Finite(v) => Finite(f(v))
  }

  function Scale(x: Score, factor: real): Score {
    match x
    case NaN => NaN
    case Finite(v) => Finite(v * factor)
  }

  /** What calculateSimilarity returns. */
  datatype Similarity = Similarity(artists: Score, genres: Score, metrics: Score, overall: Score)

  /** `round(100 * (2g + a + 2(1 - m)) / 4)`, the overall score before the clamp. */
  function RawOverall(genres: real, artists: real, delta: real): int {
    Round(100.0 * ((2.0 * genres + artists + 2.0 * (1.0 - delta)) / 4.0))
  }

  /** The raw overall score clamped from above at 100; NaN if g or a is. */
  function Overall(genres: Score, artists: Score, delta: real): Score {
    if genres.NaN? || artists.NaN? then NaN
    else
      var s := RawOverall(genres.value, artists.value, delta);
      Finite(if s > 100 then 100 as real else s as real)
  }

  /** The overall score never exceeds 100 (there is no lower clamp). */
  lemma OverallAtMost100(genres: Score, artists: Score, delta: real)
    ensures Overall(genres, artists, delta).Finite? ==> Overall(genres, artists, delta).value <= 100.0
    ensures Overall(genres, artists, delta).NaN? <==> genres.NaN? || artists.NaN?
  {
  }

  /**
   * The result of calculateSimilarity from the loops' totals: the matched-artist count out of
   * nArtists, the genre-term sum with the average genre-list length, and the metric sum.
   */
  function Assemble(count: nat, nArtists: nat, genreSum: real, avg: nat, metricSum: real,
                    fourthRoot: real -> real, sqrt: real -> real): Similarity
    requires nArtists == 0 ==> count == 0
    requires avg == 0 ==> genreSum == 0.0
  {
    var p := PartsOf(count, nArtists, genreSum, avg, metricSum, fourthRoot, sqrt);
    Similarity(Scale(p.artists, 100.0), Scale(p.genres, 100.0), Finite((1.0 - p.delta) * 100.0),
               Overall(p.genres, p.artists, p.delta))
  }

  /** The unscaled artist ratio, genre score and metric distance the result is built from. */
  datatype Parts = Parts(artists: Score, genres: Score, delta: real)

  function PartsOf(count: nat, nArtists: nat, genreSum: real, avg: nat, metricSum: real,
                   fourthRoot: real -> real, sqrt: real -> real): Parts
    requires nArtists == 0 ==> count == 0
    requires avg == 0 ==> genreSum == 0.0
  {
    Parts(Ratio(count as real, nArtists), Apply(fourthRoot, Ratio(genreSum, avg)),
          sqrt(metricSum / 6.0))
  }

  /**
   * The result of calculateSimilarity, with `Math.pow(x, 0.25)` and `Math.sqrt` given as
   * `fourthRoot` and `sqrt`.
   */
  function SimilarityOf(dp1: Datapoint, dp2: Datapoint, fourthRoot: real -> real, sqrt: real -> real): Similarity
    requires FeaturesNumeric(dp1.topSongs) && FeaturesNumeric(dp2.topSongs)
  {
    var g1 := dp1.topGenres;
    var g2 := dp2.topGenres;
    assert AvgLen(g1, g2) == 0 ==> GenreSum(g1, g2, |g1|) == 0.0 by {
      if AvgLen(g1, g2) == 0 { GenreSumOfEmpty(g1, g2, |g1|); }
    }
    Assemble(NameMatches(dp1.topArtists, dp2.topArtists), |dp1.topArtists|,
             GenreSum(g1, g2, |g1|), AvgLen(g1, g2),
             MetricSum(dp1.topSongs, dp2.topSongs, |AnalyticsKeys|), fourthRoot, sqrt)
  }

  /** The parts calculateSimilarity computes before scaling and rounding. */
  function SimilarityParts(dp1: Datapoint, dp2: Datapoint, fourthRoot: real -> real, sqrt: real -> real): Parts
    requires FeaturesNumeric(dp1.topSongs) && FeaturesNumeric(dp2.topSongs)
  {
    var g1 := dp1.topGenres;
    var g2 := dp2.topGenres;
    assert AvgLen(g1, g2) == 0 ==> GenreSum(g1, g2, |g1|) == 0.0 by {
      if AvgLen(g1, g2) == 0 { GenreSumOfEmpty(g1, g2, |g1|); }
    }
    PartsOf(NameMatches(dp1.topArtists, dp2.topArtists), |dp1.topArtists|,
            GenreSum(g1, g2, |g1|), AvgLen(g1, g2),
            MetricSum(dp1.topSongs, dp2.topSongs, |AnalyticsKeys|), fourthRoot, sqrt)
  }

  /**
   * The artist score is the share of dp1's artists with a namesake in dp2: in [0, 100] for a
   * non-empty artist list, NaN for an empty one. The genre score is NaN exactly when both
   * genre lists together have fewer than two entries.
   */
  lemma SimilarityScores(dp1: Datapoint, dp2: Datapoint, fourthRoot: real -> real, sqrt: real -> real)
    requires FeaturesNumeric(dp1.topSongs) && FeaturesNumeric(dp2.topSongs)
    ensures var s := SimilarityOf(dp1, dp2, fourthRoot, sqrt);
      (|dp1.topArtists| == 0 <==> s.artists.NaN?) &&
      (s.artists.Finite? ==> 0.0 <= s.artists.value <= 100.0) &&
      (s.genres.NaN? <==> |dp1.topGenres| + |dp2.topGenres| < 2) &&
      (s.overall.Finite? ==> s.overall.value <= 100.0)
  {
    var n := NameMatches(dp1.topArtists, dp2.topArtists);
    if |dp1.topArtists| > 0 {
      var d := |dp1.topArtists| as real;
      assert (n as real) / d <= 1.0 by {
        assert n as real <= d;
      }
    }
  }

  /** Every artist of a1 that also occurs in a2 has a namesake there. */
  lemma {:induction false} NameMatchesOfSubset(a1: seq<Artist>, a2: seq<Artist>)
    requires forall i :: 0 <= i < |a1| ==> a1[i] in a2
    ensures NameMatches(a1, a2) == |a1|
    decreases |a1|
  {
    if a1 != [] {
      NameMatchesOfSubset(a1[..|a1| - 1], a2);
      var j :| 0 <= j < |a2| && a2[j] == a1[|a1| - 1];
      assert SharesName(a1[|a1| - 1], a2);
    }
  }

  /** With distinct genres, each genre of a list compared with itself contributes exactly 1. */
  lemma {:induction false} GenreSumOfSelf(g: seq<string>, n: int)
    requires NoDuplicates(g) && 0 <= n <= |g|
    ensures GenreSum(g, g, n) == n as real
    decreases n
  {
    if n > 0 {
      GenreSumOfSelf(g, n - 1);
      var i := n - 1;
      assert IndexOf(g, g[i]) == i;
      var len := |g| as real;
      assert AvgLen(g, g) == |g| && Abs(i - i) == 0;
      DivSelf(len);
      assert GenreTerm(g, g, i) == AbsR(len) / len;
    }
  }

  /** A positive length divided by itself is 1 (kept apart: it is nonlinear). */
  lemma DivSelf(x: real)
    requires x > 0.0
    ensures x / x == 1.0
  {
  }

  /** A song list compared with itself has no metric difference. */
  lemma {:induction false} MetricSumOfSelf(s: seq<Song>, n: int)
    requires FeaturesNumeric(s) && 0 <= n <= |AnalyticsKeys|
    ensures MetricSum(s, s, n) == 0.0
    decreases n
  {
    if n > 0 {
      MetricSumOfSelf(s, n - 1);
    }
  }

  /**
   * A snapshot compared with itself (some artists, some distinct genres) has artist, genre
   * and metric scores of 100; its overall score before the clamp is 125, reported as 100.
   */
  lemma SelfSimilarity(dp: Datapoint, fourthRoot: real -> real, sqrt: real -> real)
    requires FeaturesNumeric(dp.topSongs)
    requires |dp.topArtists| > 0 && |dp.topGenres| > 0 && NoDuplicates(dp.topGenres)
    requires fourthRoot(1.0) == 1.0 && sqrt(0.0) == 0.0
    ensures SimilarityOf(dp, dp, fourthRoot, sqrt) ==
            Similarity(Finite(100.0), Finite(100.0), Finite(100.0), Finite(100.0))
    ensures var p := SimilarityParts(dp, dp, fourthRoot, sqrt);
      p.genres.Finite? && p.artists.Finite? && RawOverall(p.genres.value, p.artists.value, p.delta) == 125
  {
    NameMatchesOfSubset(dp.topArtists, dp.topArtists);
    GenreSumOfSelf(dp.topGenres, |dp.topGenres|);
    MetricSumOfSelf(dp.topSongs, |AnalyticsKeys|);
    DivSelf(|dp.topArtists| as real);
    DivSelf(|dp.topGenres| as real);
    assert AvgLen(dp.topGenres, dp.topGenres) == |dp.topGenres|;
    assert RawOverall(1.0, 1.0, 0.0) == Round(125.0) == 125;
  }

  /** The averaged record holds, under the j-th key, the j-th mean. */
  lemma AverageLookup(songs: seq<Song>, j: int)
    requires FeaturesNumeric(songs) && 0 <= j < |AnalyticsKeys|
    ensures Lookup(AverageAnalytics(songs), AnalyticsKeys[j]) == Some(Num(Mean(songs, j)))
  {
    var r := AverageAnalytics(songs);
    TablesShareKeys();
    assert forall i :: 0 <= i < |r| ==> r[i].0 == AnalyticsKeys[i];
    LookupDistinct(r, j);
  }

  /** The first loop of calculateSimilarity: counts dp1's artists with a namesake in dp2. */
  method CountNameMatches(a1: seq<Artist>, a2: seq<Artist>) returns (count: nat)
    ensures count == NameMatches(a1, a2)
  {
    count := 0;
    for i := 0 to |a1|
      invariant count == NameMatches(a1[..i], a2)
    {
      assert a1[..i + 1][..i] == a1[..i];
      if exists j :: 0 <= j < |a2| && a2[j].name == a1[i].name {
        count := count + 1;
      }
    }
    assert a1[..|a1|] == a1;
  }

  /** The second loop of calculateSimilarity: sums the rank-distance terms of dp1's genres. */
  method SumGenreTerms(g1: seq<string>, g2: seq<string>) returns (sum: real)
    ensures sum == GenreSum(g1, g2, |g1|)
  {
    var avg := (|g1| + |g2|) / 2;
    sum := 0.0;
    for i1 := 0 to |g1|
      invariant sum == GenreSum(g1, g2, i1)
    {
      var i2 := IndexOf(g2, g1[i1]);
      if i2 != -1 {
        var diff := Abs(i1 - i2);
        sum := sum + AbsR((avg - diff) as real) / (avg as real);
      }
    }
  }

  /**
   * The third loop of calculateSimilarity: sums |u0[key] - u1[key]| over the keys of the
   * first average record, skipping tempo and loudness.
   */
  method SumMetricDelta(s1: seq<Song>, s2: seq<Song>, u0: Analytics, u1: Analytics) returns (delta: real)
    requires FeaturesNumeric(s1) && FeaturesNumeric(s2)
    requires u0 == AverageAnalytics(s1) && u1 == AverageAnalytics(s2)
    ensures delta == MetricSum(s1, s2, |AnalyticsKeys|)
  {
    delta := 0.0;
    for j := 0 to |u0|
      invariant delta == MetricSum(s1, s2, j)
    {
      var key := u0[j].0;
      MetricStep(s1, s2, u0, u1, j);
      if key !in ExcludedKeys {
        delta := delta + AbsR(u0[j].1.x - Lookup(u1, key).value.x);
      }
    }
  }

  /** One pass of the third loop, read off the two average records. */
  lemma MetricStep(s1: seq<Song>, s2: seq<Song>, u0: Analytics, u1: Analytics, j: int)
    requires FeaturesNumeric(s1) && FeaturesNumeric(s2)
    requires u0 == AverageAnalytics(s1) && u1 == AverageAnalytics(s2)
    requires 0 <= j < |u0|
    ensures u0[j].1.Num? && u0[j].0 == AnalyticsKeys[j]
    ensures u0[j].0 !in ExcludedKeys ==> Lookup(u1, u0[j].0).Some? && Lookup(u1, u0[j].0).value.Num?
    ensures MetricSum(s1, s2, j + 1) == MetricSum(s1, s2, j) +
      (if u0[j].0 in ExcludedKeys then 0.0 else AbsR(u0[j].1.x - Lookup(u1, u0[j].0).value.x))
  {
    var m1, m2 := Mean(s1, j), Mean(s2, j);
    assert Keys(u0)[j] == u0[j].0;
    assert u0[j] == (AnalyticsKeys[j], Num(m1));
    AverageLookup(s2, j);
    assert Lookup(u1, AnalyticsKeys[j]) == Some(Num(m2));
    assert MetricTerm(s1, s2, j) == if AnalyticsKeys[j] in ExcludedKeys then 0.0 else AbsR(m1 - m2);
  }

  /**
   * The tail of calculateSimilarity: the two ratios, the fourth root, the metric average over
   * `entryCount - 2` keys, its square root, the rounding and the upper clamp.
   */
  method FinishSimilarity(count: nat, nArtists: nat, sum: real, avg: nat, metricSum: real,
                          entryCount: int, fourthRoot: real -> real, sqrt: real -> real)
    returns (result: Similarity)
    requires nArtists == 0 ==> count == 0
    requires avg == 0 ==> sum == 0.0
    requires entryCount == |AnalyticsKeys|
    ensures result == Assemble(count, nArtists, sum, avg, metricSum, fourthRoot, sqrt)
  {
    var artists := Ratio(count as real, nArtists);
    var genres := Apply(fourthRoot, Ratio(sum, avg));
    var divisor := entryCount - |ExcludedKeys|;
    assert divisor == 6;
    var mean := metricSum / (divisor as real);
    assert mean == metricSum / 6.0 by {
      assert divisor as real == 6.0;
    }
    var delta := sqrt(mean);
    var overall := NaN;
    if genres.Finite? && artists.Finite? {
      var s := Round(100.0 * ((2.0 * genres.value + artists.value + 2.0 * (1.0 - delta)) / 4.0));
      if s > 100 {
        s := 100;
      }
      overall := Finite(s as real);
    }
    assert overall == Overall(genres, artists, delta);
    result := Similarity(Scale(artists, 100.0), Scale(genres, 100.0), Finite((1.0 - delta) * 100.0), overall);
  }

  /** calculateSimilarity: the three accumulation loops, then the ratios, root and rounding. */
  method CalculateSimilarity(dp1: Datapoint, dp2: Datapoint, fourthRoot: real -> real, sqrt: real -> real)
    returns (result: Similarity)
    requires FeaturesNumeric(dp1.topSongs) && FeaturesNumeric(dp2.topSongs)
    ensures result == SimilarityOf(dp1, dp2, fourthRoot, sqrt)
  {
    var avg := (|dp1.topGenres| + |dp2.topGenres|) / 2;
    var u0 := GetAverageAnalytics(dp1.topSongs);
    var u1 := GetAverageAnalytics(dp2.topSongs);
    var count := CountNameMatches(dp1.topArtists, dp2.topArtists);
    var sum := SumGenreTerms(dp1.topGenres, dp2.topGenres);
    var metricSum := SumMetricDelta(dp1.topSongs, dp2.topSongs, u0, u1);
    assert |u0| == |Keys(u0)| == |AnalyticsKeys|;
    if avg == 0 {
      GenreSumOfEmpty(dp1.topGenres, dp2.topGenres, |dp1.topGenres|);
    }
    assert avg == AvgLen(dp1.topGenres, dp2.topGenres);
    assert SimilarityOf(dp1, dp2, fourthRoot, sqrt) ==
           Assemble(count, |dp1.topArtists|, sum, avg, metricSum, fourthRoot, sqrt);
    result := FinishSimilarity(count, |dp1.topArtists|, sum, avg, metricSum, |u0|, fourthRoot, sqrt);
  }
}
