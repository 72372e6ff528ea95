/**
 * The decisions inside getItemAnalysis (src/analysis_functions/general.tsx): which sentence
 * opens an artist's analysis, given the artist's rank in the short, medium and long term
 * snapshots, and the popularity trend of a genre across the snapshots. The sentences
 * themselves are text and markup and are named here by an identifier only.
 */
module Narrative {
  import opened Wrappers
  import opened Records
  import opened Seqs

  /**
   * An element of `indexes`: a `findIndex` result (-1 when absent) or `undefined`, either for
   * a null snapshot (`d?.top_artists`) or for a position past the end of the array.
   */
  datatype Rank = Index(n: int) | Undefined

  /** `===` on ranks. */
  predicate Same(a: Rank, b: Rank) {
    a == b
  }

  /** `<` on ranks: a comparison with `undefined` is false. */
  predicate Less(a: Rank, b: Rank) {
    a.Index? && b.Index? && a.n < b.n
  }

  predicate Greater(a: Rank, b: Rank) {
    Less(b, a)
  }

  predicate Absent(a: Rank) {
    a == Index(-1)
  }

  /** The first sentence chosen for an artist. */
  datatype Message =
    | LongAbsentRecently | LongLessRecently | LongMoreThanEver
    | MediumLimited | MediumLess | MediumCaptivated | MediumConsistent
    | MediumMoreLastMonth | MediumLessLastMonth
    | ShortNewInterest | ShortLessThanBefore | ShortCaptivated | ShortLessThanMedium
    | ShortDrawn | ShortRenewed | ShortDecreasedAboveAverage | ShortConsistent
    | ShortConsistentlyMore | ShortConsistentlyLess

  /** The first-part switch on the term; None is a sentence left undefined. */
  function ArtistMessage(term: Term, i0: Rank, i1: Rank, i2: Rank): (r: Option<Message>)
    ensures term == LongTerm ==> r.Some?
  {
    match term
    case LongTerm =>
      if Absent(i0) then Some(LongAbsentRecently)
      else if Greater(i0, i2) then Some(LongLessRecently)
      else Some(LongMoreThanEver)
    case MediumTerm =>
      if Absent(i1) then Some(MediumLimited)
      else if Greater(i1, i2) && !Absent(i2) then Some(MediumLess)
      else if Less(i1, i2) && !Absent(i2) then Some(MediumCaptivated)
      else if Same(i0, i1) && Same(i1, i2) then Some(MediumConsistent)
      else if !Same(i0, i1) then
        if Less(i0, i1) then Some(MediumMoreLastMonth) else Some(MediumLessLastMonth)
      else None
    case ShortTerm =>
      if Absent(i2) && Absent(i1) then Some(ShortNewInterest)
      else if (Less(i1, i0) && Less(i2, i0)) || (Less(i1, i0) && Absent(i2)) then Some(ShortLessThanBefore)
      else if (Greater(i1, i0) && Greater(i2, i1)) || (Greater(i1, i0) && Absent(i2)) then Some(ShortCaptivated)
      else if Greater(i0, i1) && !Same(i1, Index(1)) then Some(ShortLessThanMedium)
      else if Greater(i1, i0) && Absent(i2) then Some(ShortDrawn)
      else if Less(i0, i1) && Less(i2, i1) then Some(ShortRenewed)
      else if Greater(i0, i1) && Greater(i2, i1) then Some(ShortDecreasedAboveAverage)
      else if Same(i0, i1) && Same(i1, i2) then Some(ShortConsistent)
      else if Same(i0, i1) && Less(i0, i2) then Some(ShortConsistentlyMore)
      else if Same(i0, i1) && Greater(i0, i2) then Some(ShortConsistentlyLess)
      else None
  }

  /** An actual `findIndex` result. */
  predicate Found(a: Rank) {
    a.Index? && a.n >= -1
  }

  /**
   * The long-term sentence depends on i0 and i2 only: absent recently, ranked lower recently,
   * or otherwise "more than ever" (which also covers an undefined rank).
   */
  lemma LongTermMessages(i0: Rank, i1: Rank, i2: Rank)
    ensures ArtistMessage(LongTerm, i0, i1, i2) ==
      if i0 == Index(-1) then Some(LongAbsentRecently)
      else if i0.Index? && i2.Index? && i0.n > i2.n then Some(LongLessRecently)
      else Some(LongMoreThanEver)
  {
  }

  /**
   * The "increasingly drawn" sentence of the short term is never chosen: the "captivated"
   * test before it already accepts `i1 > i0 && i2 === -1`.
   */
  lemma ShortTermDrawnIsDead(i0: Rank, i1: Rank, i2: Rank)
    ensures ArtistMessage(ShortTerm, i0, i1, i2) != Some(ShortDrawn)
  {
  }

  /**
   * For actual ranks, the medium term leaves the sentence undefined exactly when the artist
   * is ranked, equally, in the short and medium terms but is absent from the long term.
   */
  lemma MediumTermGap(i0: Rank, i1: Rank, i2: Rank)
    requires Found(i0) && Found(i1) && Found(i2)
    ensures ArtistMessage(MediumTerm, i0, i1, i2).None? <==>
            i1.n != -1 && i0.n == i1.n && i2.n == -1
  {
  }

  /**
   * For actual ranks, the short term leaves the sentence undefined exactly when the medium
   * rank is below the short one and the long rank equals the medium one.
   */
  lemma ShortTermGap(i0: Rank, i1: Rank, i2: Rank)
    requires Found(i0) && Found(i1) && Found(i2)
    ensures ArtistMessage(ShortTerm, i0, i1, i2).None? <==> i1.n > i0.n && i2.n == i1.n
  {
  }

  /**
   * The "less than the last 6 months" test compares the medium rank with 1, not with -1:
   * with the long rank at or below the short one, a medium rank of 1 falls through to the
   * "decreased but above average" sentence, while any other smaller medium rank, absence
   * included, takes the "less than the last 6 months" sentence.
   */
  lemma ShortTermComparesWithOne(i0: int, i1: int, i2: int)
    requires 1 < i0 <= i2 && -1 <= i1 < i0
    ensures ArtistMessage(ShortTerm, Index(i0), Index(i1), Index(i2)) ==
            if i1 == 1 then Some(ShortDecreasedAboveAverage) else Some(ShortLessThanMedium)
  {
  }

  /** Element k of an array, `undefined` past its end. */
  function At(ranks: seq<Rank>, k: nat): Rank {
    if k < |ranks| then ranks[k] else Undefined
  }

  /**
   * `indexes`: the artist's position in each snapshot, `undefined` for a null snapshot. The
   * following `indexes.map(i => i === null ? -1 : i)` discards its result, so nothing turns
   * into -1.
   */
  function RankIndexes(datapoints: seq<Option<Datapoint>>, artistId: string): (r: seq<Rank>)
    ensures |r| == |datapoints|
    ensures forall k :: 0 <= k < |datapoints| ==>
      (datapoints[k].None? <==> r[k] == Undefined) &&
      (datapoints[k].Some? ==>
         Found(r[k]) && r[k].n == IndexOf(ArtistIds(datapoints[k].value.topArtists), artistId))
  {
    seq(|datapoints|, k requires 0 <= k < |datapoints| => RankOf(datapoints[k], artistId))
  }

  /** The callback of that map, for one snapshot. */
  function RankOf(datapoint: Option<Datapoint>, artistId: string): Rank {
    match datapoint
    case None => Undefined
    case Some(d) => Index(IndexOf(ArtistIds(d.topArtists), artistId))
  }

  /** The first sentence of an artist's analysis for the selected term. */
  function ArtistOpening(term: Term, datapoints: seq<Option<Datapoint>>, artistId: string): (r: Option<Message>)
    ensures term == LongTerm ==> r.Some?
    ensures (term == LongTerm && |datapoints| >= 1 && datapoints[0].Some? &&
             artistId !in ArtistIds(datapoints[0].value.topArtists)) ==> r == Some(LongAbsentRecently)
  {
    var ranks := RankIndexes(datapoints, artistId);
    ArtistMessage(term, At(ranks, 0), At(ranks, 1), At(ranks, 2))
  }

  /**
   * A null short-term snapshot is not read as "absent": its rank stays undefined, so the
   * long-term analysis says the artist is enjoyed "more than ever".
   */
  lemma NullShortTermSnapshot(datapoints: seq<Option<Datapoint>>, artistId: string)
    requires |datapoints| >= 1 && datapoints[0].None?
    ensures ArtistOpening(LongTerm, datapoints, artistId) == Some(LongMoreThanEver)
  {
    var ranks := RankIndexes(datapoints, artistId);
    assert At(ranks, 0) == Undefined;
  }

  /** JavaScript truthiness of a number: neither 0 nor NaN. */
  predicate TruthyNumber(x: Score) {
    x.Finite? && x.value != 0.0
  }

  /** `filter(value => value !== null)`. */
  function NonNull(values: seq<Option<Score>>): (r: seq<Score>)
    ensures |r| <= |values|
    ensures forall x :: x in r <==> Some(x) in values
  {
    if values == [] then []
    else (if values[0].Some? then [values[0].value] else []) + NonNull(values[1..])
  }

  /** The comparison of a first and a last value, made only when both are truthy. */
  function Compare(first: Score, last: Score): string {
    if TruthyNumber(last) && TruthyNumber(first) then
      if last.value > first.value then "increasing"
      else if last.value < first.value then "decreasing"
      else "consistent"
    else "consistent"
  }

  /** calculatePopularityTrend. */
  function PopularityTrend(genrePopularity: seq<Option<Score>>): (r: string)
    ensures r == "increasing" || r == "decreasing" || r == "consistent"
    ensures r != "consistent" ==> |NonNull(genrePopularity)| >= 2
  {
    var valid := NonNull(genrePopularity);
    if |valid| >= 2 then Compare(valid[0], valid[|valid| - 1]) else "consistent"
  }

  /** Position i holds the first non-null value. */
  predicate FirstNonNull(values: seq<Option<Score>>, i: int) {
    0 <= i < |values| && values[i].Some? && forall k :: 0 <= k < i ==> values[k].None?
  }

  /** Position j holds the last non-null value. */
  predicate LastNonNull(values: seq<Option<Score>>, j: int) {
    0 <= j < |values| && values[j].Some? && forall k :: j < k < |values| ==> values[k].None?
  }

  /** The first element of the filtered list is the first non-null value. */
  lemma {:induction false} NonNullFirst(values: seq<Option<Score>>)
    requires |NonNull(values)| > 0
    ensures exists i :: FirstNonNull(values, i) && values[i].value == NonNull(values)[0]
  {
    if values[0].Some? {
      assert FirstNonNull(values, 0);
    } else {
      assert NonNull(values) == NonNull(values[1..]);
      NonNullFirst(values[1..]);
      var i :| FirstNonNull(values[1..], i) && values[1..][i].value == NonNull(values[1..])[0];
      assert FirstNonNull(values, i + 1);
    }
  }

  /** The last element of the filtered list is the last non-null value. */
  lemma {:induction false} NonNullLast(values: seq<Option<Score>>)
    requires |NonNull(values)| > 0
    ensures exists j ::
      LastNonNull(values, j) && values[j].value == NonNull(values)[|NonNull(values)| - 1]
  {
    var rest := NonNull(values[1..]);
    if |rest| == 0 {
      forall k | 1 <= k < |values| ensures values[k].None? {
        assert values[1..][k - 1] == values[k];
      }
      assert LastNonNull(values, 0);
    } else {
      NonNullLast(values[1..]);
      var j :| LastNonNull(values[1..], j) && values[1..][j].value == rest[|rest| - 1];
      assert LastNonNull(values, j + 1);
    }
  }

  /** With two non-null values, every position has a non-null value somewhere else. */
  lemma {:induction false} NonNullOther(values: seq<Option<Score>>, i: int)
    requires |NonNull(values)| >= 2 && 0 <= i < |values|
    ensures exists k :: 0 <= k < |values| && k != i && values[k].Some?
  {
    var rest := NonNull(values[1..]);
    if i == 0 {
      assert rest[0] in rest;
      var k :| 0 <= k < |values[1..]| && values[1..][k] == Some(rest[0]);
      assert values[k + 1].Some?;
    } else if values[0].None? {
      assert NonNull(values) == rest;
      NonNullOther(values[1..], i - 1);
      var k :| 0 <= k < |values[1..]| && k != i - 1 && values[1..][k].Some?;
      assert values[k + 1].Some?;
    }
  }

  /**
   * With fewer than two non-null values the trend is "consistent"; otherwise only the first
   * and the last non-null values are compared, and only when both are truthy: a larger last
   * value is "increasing", a smaller one "decreasing", anything else "consistent".
   */
  lemma PopularityTrendSpec(values: seq<Option<Score>>)
    ensures |NonNull(values)| < 2 ==> PopularityTrend(values) == "consistent"
    ensures |NonNull(values)| >= 2 ==>
      exists i, j :: 0 <= i < j < |values| && FirstNonNull(values, i) && LastNonNull(values, j) &&
        PopularityTrend(values) == Compare(values[i].value, values[j].value)
  {
    if |NonNull(values)| >= 2 {
      NonNullFirst(values);
      NonNullLast(values);
      var i :| FirstNonNull(values, i) && values[i].value == NonNull(values)[0];
      var j :| LastNonNull(values, j) && values[j].value == NonNull(values)[|NonNull(values)| - 1];
      NonNullOther(values, i);
      var k :| 0 <= k < |values| && k != i && values[k].Some?;
      assert i < k <= j;
    }
  }

  /**
   * genrePopularity: the 1-based position of the genre in each snapshot, null when it is
   * absent; a null snapshot gives `undefined + 1`, which is NaN.
   */
  function GenrePopularity(datapoints: seq<Option<Datapoint>>, genre: string): (r: seq<Option<Score>>)
    ensures |r| == |datapoints|
    ensures forall k :: 0 <= k < |datapoints| ==>
      r[k] == match datapoints[k]
              case None => Some(NaN)
              case Some(d) =>
                if genre in d.topGenres then Some(Finite((IndexOf(d.topGenres, genre) + 1) as real))
                else None
  {
    if datapoints == [] then []
    else
      [match datapoints[0]
       case None => Some(NaN)
       case Some(d) =>
         var i := IndexOf(d.topGenres, genre);
         if i != -1 then Some(Finite((i + 1) as real)) else None]
      + GenrePopularity(datapoints[1..], genre)
  }

  /**
   * Over snapshots that are all present, every non-null position is a truthy number of at
   * least 1, so the truthiness test never decides and the trend is the comparison of the
   * first and the last snapshot listing the genre.
   */
  lemma GenreTrendOfPresentSnapshots(datapoints: seq<Option<Datapoint>>, genre: string)
    requires forall k :: 0 <= k < |datapoints| ==> datapoints[k].Some?
    ensures var ps := GenrePopularity(datapoints, genre);
      forall x :: x in NonNull(ps) ==> TruthyNumber(x) && x.value >= 1.0
  {
    var ps := GenrePopularity(datapoints, genre);
    forall x | x in NonNull(ps) ensures TruthyNumber(x) && x.value >= 1.0 {
      var k :| 0 <= k < |ps| && ps[k] == Some(x);
    }
  }
}
