/**
 * Audio-feature selection and averaging (src/analysis_functions/general.tsx):
 * getMaxValueAttribute, getMostInterestingAttribute, getTopInterestingAnalytics and
 * getAverageAnalytics.
 */
module Features {
  import opened Wrappers
  import opened Records
  import opened Constants
  import Seqs

  /** `Number.MIN_SAFE_INTEGER` and `Number.MAX_SAFE_INTEGER`, the scans' starting bounds. */
  const MinSafeInteger: real := -9007199254740991.0
  const MaxSafeInteger: real := 9007199254740991.0

  /** The keys getMaxValueAttribute never considers. */
  const MaxIgnored: set<string> :=
    {"key", "mode", "speechiness", "duration_ms", "time_signature", "tempo"}

  /** The keys getMostInterestingAttribute and getTopInterestingAnalytics never consider. */
  const InterestIgnored: set<string> :=
    {"key", "mode", "duration_ms", "time_signature", "tempo", "loudness", "speechiness"}

  /** Keys that are never taken as the minimum ("boring when low"). */
  const MinSkipped: set<string> := {"instrumentalness", "liveness"}

  /** The pair is looked at by a scan: its value is a number and its key is not ignored. */
  predicate Eligible(p: (string, Field), ignored: set<string>) {
    p.1.Num? && p.0 !in ignored
  }

  /** The pair may become the minimum. */
  predicate MinEligible(p: (string, Field), ignored: set<string>) {
    Eligible(p, ignored) && p.0 !in MinSkipped
  }

  /** The loop variables `max`, `maxAnalytic`, `min`, `minAnalytic` of a scan. */
  datatype Extremes = Extremes(max: real, maxKey: Option<string>, min: real, minKey: Option<string>)

  const Start := Extremes(MinSafeInteger, None, MaxSafeInteger, None)

  /** One iteration of the scan's `for..in` body. */
  function Step(e: Extremes, p: (string, Field), ignored: set<string>): Extremes {
    if !Eligible(p, ignored) then e
    else
      var v := p.1.x;
      var e1 := if v > e.max then e.(max := v, maxKey := Some(p.0)) else e;
      if v < e1.min && p.0 !in MinSkipped then e1.(min := v, minKey := Some(p.0)) else e1
  }

  /** The state of the scan after visiting every pair of `a` in order. */
  function Scan(a: Analytics, ignored: set<string>): Extremes
    decreases |a|
  {
    if a == [] then Start else Step(Scan(a[..|a| - 1], ignored), a[|a| - 1], ignored)
  }

  /** Position i holds a largest eligible value, and no earlier eligible pair reaches it. */
  predicate IsFirstMax(a: Analytics, ignored: set<string>, i: int) {
    0 <= i < |a| && Eligible(a[i], ignored) &&
    (forall j :: 0 <= j < |a| && Eligible(a[j], ignored) ==> a[j].1.x <= a[i].1.x) &&
    (forall j :: 0 <= j < i && Eligible(a[j], ignored) ==> a[j].1.x < a[i].1.x)
  }

  /** Position i holds a smallest min-eligible value, and no earlier one is as small. */
  predicate IsFirstMin(a: Analytics, ignored: set<string>, i: int) {
    0 <= i < |a| && MinEligible(a[i], ignored) &&
    (forall j :: 0 <= j < |a| && MinEligible(a[j], ignored) ==> a[i].1.x <= a[j].1.x) &&
    (forall j :: 0 <= j < i && MinEligible(a[j], ignored) ==> a[i].1.x < a[j].1.x)
  }

  /** A new strictly largest last value becomes the first maximum. */
  lemma MaxAtLast(a: Analytics, ignored: set<string>, m: real)
    requires a != [] && Eligible(a[|a| - 1], ignored) && a[|a| - 1].1.x > m
    requires forall j :: 0 <= j < |a| - 1 && Eligible(a[j], ignored) ==> a[j].1.x <= m
    ensures IsFirstMax(a, ignored, |a| - 1)
  {
  }

  /** A last value that does not exceed the first maximum keeps it. */
  lemma MaxKept(a: Analytics, ignored: set<string>, i: int)
    requires a != [] && IsFirstMax(a[..|a| - 1], ignored, i)
    requires !(Eligible(a[|a| - 1], ignored) && a[|a| - 1].1.x > a[i].1.x)
    ensures IsFirstMax(a, ignored, i)
  {
    var p := a[..|a| - 1];
    assert forall j :: 0 <= j < |p| ==> a[j] == p[j];
  }

  /**
   * The maximum side of a scan: `max` bounds every eligible value; a key is recorded exactly
   * when some eligible value exceeds MIN_SAFE_INTEGER, and it is the first key holding the
   * largest value (strict `>` keeps the earliest of tied keys).
   */
  lemma {:induction false} ScanMax(a: Analytics, ignored: set<string>)
    ensures var e := Scan(a, ignored);
      (forall j :: 0 <= j < |a| && Eligible(a[j], ignored) ==> a[j].1.x <= e.max) &&
      e.max >= MinSafeInteger &&
      (e.maxKey.None? <==> e.max == MinSafeInteger) &&
      (e.maxKey.Some? ==> exists i :: IsFirstMax(a, ignored, i) && a[i].0 == e.maxKey.value &&
                                      a[i].1.x == e.max)
    decreases |a|
  {
    if a != [] {
      var p := a[..|a| - 1];
      var x := a[|a| - 1];
      ScanMax(p, ignored);
      var e := Scan(p, ignored);
      assert forall j :: 0 <= j < |p| ==> a[j] == p[j];
      assert Scan(a, ignored) == Step(e, x, ignored);
      var grows := Eligible(x, ignored) && x.1.x > e.max;
      if grows {
        MaxAtLast(a, ignored, e.max);
      } else if e.maxKey.Some? {
        var i :| IsFirstMax(p, ignored, i) && p[i].0 == e.maxKey.value && p[i].1.x == e.max;
        MaxKept(a, ignored, i);
        assert a[i] == p[i];
      }
    }
  }

  /** A new strictly smallest last value becomes the first minimum. */
  lemma MinAtLast(a: Analytics, ignored: set<string>, m: real)
    requires a != [] && MinEligible(a[|a| - 1], ignored) && a[|a| - 1].1.x < m
    requires forall j :: 0 <= j < |a| - 1 && MinEligible(a[j], ignored) ==> m <= a[j].1.x
    ensures IsFirstMin(a, ignored, |a| - 1)
  {
  }

  /** A last value that does not go below the first minimum keeps it. */
  lemma MinKept(a: Analytics, ignored: set<string>, i: int)
    requires a != [] && IsFirstMin(a[..|a| - 1], ignored, i)
    requires !(MinEligible(a[|a| - 1], ignored) && a[|a| - 1].1.x < a[i].1.x)
    ensures IsFirstMin(a, ignored, i)
  {
    var p := a[..|a| - 1];
    assert forall j :: 0 <= j < |p| ==> a[j] == p[j];
  }

  /**
   * The minimum side of a scan: `min` bounds every min-eligible value from below; a key is
   * recorded exactly when some such value is below MAX_SAFE_INTEGER, and it is the first key
   * holding the smallest value.
   */
  lemma {:induction false} ScanMin(a: Analytics, ignored: set<string>)
    ensures var e := Scan(a, ignored);
      (forall j :: 0 <= j < |a| && MinEligible(a[j], ignored) ==> e.min <= a[j].1.x) &&
      e.min <= MaxSafeInteger &&
      (e.minKey.None? <==> e.min == MaxSafeInteger) &&
      (e.minKey.Some? ==> exists i :: IsFirstMin(a, ignored, i) && a[i].0 == e.minKey.value &&
                                      a[i].1.x == e.min)
    decreases |a|
  {
    if a != [] {
      var p := a[..|a| - 1];
      var x := a[|a| - 1];
      ScanMin(p, ignored);
      var e := Scan(p, ignored);
      assert forall j :: 0 <= j < |p| ==> a[j] == p[j];
      assert Scan(a, ignored) == Step(e, x, ignored);
      var shrinks := MinEligible(x, ignored) && x.1.x < e.min;
      assert Scan(a, ignored).min == if shrinks then x.1.x else e.min;
      assert Scan(a, ignored).minKey == if shrinks then Some(x.0) else e.minKey;
      if shrinks {
        MinAtLast(a, ignored, e.min);
      } else if e.minKey.Some? {
        var i :| IsFirstMin(p, ignored, i) && p[i].0 == e.minKey.value && p[i].1.x == e.min;
        MinKept(a, ignored, i);
        assert a[i] == p[i];
      }
    }
  }

  /** The scan loop shared by getMostInterestingAttribute and getTopInterestingAnalytics. */
  method ScanExtremes(a: Analytics, ignored: set<string>) returns (e: Extremes)
    ensures e == Scan(a, ignored)
  {
    var max, maxAnalytic, min, minAnalytic := MinSafeInteger, None, MaxSafeInteger, None;
    for i := 0 to |a|
      invariant Extremes(max, maxAnalytic, min, minAnalytic) == Scan(a[..i], ignored)
    {
      assert a[..i + 1][..i] == a[..i];
      var key := a[i].0;
      if a[i].1.Num? && key !in ignored {
        var value := a[i].1.x;
        if value > max {
          max, maxAnalytic := value, Some(key);
        }
        if value < min {
          if key != "instrumentalness" && key != "liveness" {
            min, minAnalytic := value, Some(key);
          }
        }
      }
    }
    assert a[..|a|] == a;
    e := Extremes(max, maxAnalytic, min, minAnalytic);
  }

  /**
   * getMaxValueAttribute: the first key holding the largest eligible value, or "" when no
   * eligible value exceeds MIN_SAFE_INTEGER.
   */
  method GetMaxValueAttribute(attributes: Analytics) returns (r: string)
    ensures r == Scan(attributes, MaxIgnored).maxKey.GetOr("")
  {
    var max := MinSafeInteger;
    var maxAttribute := "";
    for i := 0 to |attributes|
      invariant max == Scan(attributes[..i], MaxIgnored).max
      invariant maxAttribute == Scan(attributes[..i], MaxIgnored).maxKey.GetOr("")
    {
      assert attributes[..i + 1][..i] == attributes[..i];
      var key := attributes[i].0;
      if attributes[i].1.Num? && key !in MaxIgnored {
        var value := attributes[i].1.x;
        if value > max {
          max := value;
          maxAttribute := key;
        }
      }
    }
    assert attributes[..|attributes|] == attributes;
    r := maxAttribute;
  }

  /** What a selection step chose: nothing, a high feature or a low feature. */
  datatype Pick = NoPick | High(key: string) | Low(key: string)

  /** JavaScript truthiness of an optional key: present and not the empty string. */
  predicate Truthy(k: Option<string>) {
    k.Some? && k.value != ""
  }

  /** The branches of getMostInterestingAttribute after its scan. */
  function Decide(e: Extremes): Pick {
    if e.max == 0.0 then NoPick
    else if (e.max >= 1.0 - e.min || e.max > 0.7) && e.maxKey.Some? then High(e.maxKey.value)
    else if (e.max <= 1.0 - e.min || e.min < 0.2) && Truthy(e.minKey) then Low(e.minKey.value)
    else NoPick
  }

  function MostInterestingPick(analytics: Analytics): Pick {
    Decide(Scan(analytics, InterestIgnored))
  }

  /** The table entry for a pick; None stands for both `null` and `undefined`. */
  function PickLabel(p: Pick): Option<Label> {
    match p
    case NoPick => None
    case High(k) => HighLabel(k)
    case Low(k) => LowLabel(k)
  }

  /** getMostInterestingAttribute. */
  method GetMostInterestingAttribute(analytics: Analytics) returns (r: Option<Label>)
    ensures r == PickLabel(MostInterestingPick(analytics))
  {
    var e := ScanExtremes(analytics, InterestIgnored);
    if e.max == 0.0 {
      return None;
    }
    if (e.max >= 1.0 - e.min || e.max > 0.7) && e.maxKey.Some? {
      r := HighLabel(e.maxKey.value);
    } else if (e.max <= 1.0 - e.min || e.min < 0.2) && Truthy(e.minKey) {
      r := LowLabel(e.minKey.value);
    } else {
      r := None;
    }
  }

  /**
   * What getMostInterestingAttribute picks: a high pick is the first largest eligible key
   * (never an ignored key), taken when the maximum is non-zero and is at least `1 - min` or
   * above 0.7; a low pick is the first smallest key outside the ignore list, instrumentalness
   * and liveness. When the high test fails, `max <= 1 - min` always holds, so a low pick is
   * made whenever a (non-empty) minimum key exists: the `min < 0.2` test never decides, and
   * the result is "nothing" only for a zero maximum or a missing minimum key.
   */
  lemma MostInterestingPickSpec(analytics: Analytics)
    ensures var e := Scan(analytics, InterestIgnored);
      var p := MostInterestingPick(analytics);
      (p.High? ==>
         e.max != 0.0 && (e.max >= 1.0 - e.min || e.max > 0.7) && p.key !in InterestIgnored &&
         exists i :: IsFirstMax(analytics, InterestIgnored, i) && analytics[i].0 == p.key) &&
      (p.Low? ==>
         e.max != 0.0 && e.max < 1.0 - e.min && e.max <= 0.7 &&
         p.key !in InterestIgnored && p.key !in MinSkipped &&
         exists i :: IsFirstMin(analytics, InterestIgnored, i) && analytics[i].0 == p.key) &&
      (e.max != 0.0 && (e.max >= 1.0 - e.min || e.max > 0.7) && e.maxKey.Some? ==>
         p == High(e.maxKey.value)) &&
      (e.max != 0.0 && !p.High? && Truthy(e.minKey) ==> p == Low(e.minKey.value)) &&
      (p == NoPick <==> e.max == 0.0 || (!p.High? && !Truthy(e.minKey)))
  {
    ScanMax(analytics, InterestIgnored);
    ScanMin(analytics, InterestIgnored);
    var e := Scan(analytics, InterestIgnored);
    if e.maxKey.None? && e.minKey.Some? {
      var i :| IsFirstMin(analytics, InterestIgnored, i) && analytics[i].0 == e.minKey.value &&
               analytics[i].1.x == e.min;
      assert Eligible(analytics[i], InterestIgnored);
    }
  }

  /** The branches of one iteration of getTopInterestingAnalytics after its scan. */
  function TopDecide(e: Extremes): Pick {
    if e.max >= 1.0 - e.min && Truthy(e.maxKey) then High(e.maxKey.value)
    else if e.max <= 1.0 - e.min && Truthy(e.minKey) then Low(e.minKey.value)
    else NoPick
  }

  /** `delete copy[k]`: the record without its pairs keyed k. */
  function RemoveKey(a: Analytics, k: string): (r: Analytics)
    ensures forall p :: p in r <==> p in a && p.0 != k
  {
    if a == [] then []
    else if a[0].0 == k then RemoveKey(a[1..], k)
    else [a[0]] + RemoveKey(a[1..], k)
  }

  /** Removal distributes over concatenation, so the remaining pairs keep their order. */
  lemma {:induction false} RemoveKeyAppend(a: Analytics, b: Analytics, k: string)
    ensures RemoveKey(a + b, k) == RemoveKey(a, k) + RemoveKey(b, k)
    decreases |a|
  {
    if a == [] {
      assert a + b == b;
    } else {
      assert (a + b)[0] == a[0] && (a + b)[1..] == a[1..] + b;
      RemoveKeyAppend(a[1..], b, k);
    }
  }

  /** Each pair keyed other than k is kept as often as it occurs; pairs keyed k are gone. */
  lemma {:induction false} RemoveKeyCount(a: Analytics, k: string, p: (string, Field))
    ensures multiset(RemoveKey(a, k))[p] == if p.0 == k then 0 else multiset(a)[p]
    decreases |a|
  {
    if a != [] {
      RemoveKeyCount(a[1..], k, p);
      assert a == [a[0]] + a[1..];
    }
  }

  /** The keys getTopInterestingAnalytics collects from `copy` in `n` further iterations. */
  function TopPicks(copy: Analytics, n: int): seq<string>
    decreases n
  {
    if n <= 0 then []
    else match TopDecide(Scan(copy, InterestIgnored))
      case NoPick => TopPicks(copy, n - 1)
      case High(k) => [k] + TopPicks(RemoveKey(copy, k), n - 1)
      case Low(k) => [k] + TopPicks(RemoveKey(copy, k), n - 1)
  }

  /** One iteration of the top-N loop: a pick is listed and removed from the copy. */
  lemma TopPicksStep(copy: Analytics, n: int, done: seq<string>, p: Pick)
    requires n > 0 && p == TopDecide(Scan(copy, InterestIgnored))
    ensures p.NoPick? ==> done + TopPicks(copy, n) == done + TopPicks(copy, n - 1)
    ensures !p.NoPick? ==> done + TopPicks(copy, n) == (done + [p.key]) + TopPicks(RemoveKey(copy, p.key), n - 1)
  {
    if !p.NoPick? {
      assert TopPicks(copy, n) == [p.key] + TopPicks(RemoveKey(copy, p.key), n - 1);
    }
  }

  /** The branch conditions of one top-N iteration, after its `for..in` scan of the copy. */
  method TopIteration(copy: Analytics) returns (p: Pick)
    ensures p == TopDecide(Scan(copy, InterestIgnored))
  {
    var e := ScanExtremes(copy, InterestIgnored);
    if e.max >= 1.0 - e.min && Truthy(e.maxKey) {
      p := High(e.maxKey.value);
    } else if e.max <= 1.0 - e.min && Truthy(e.minKey) {
      p := Low(e.minKey.value);
    } else {
      p := NoPick;
    }
  }

  /** getTopInterestingAnalytics: `analytics` is a value, so the caller's record is unchanged. */
  method GetTopInterestingAnalytics(analytics: Analytics, number: int) returns (r: seq<string>)
    ensures r == TopPicks(analytics, number)
  {
    var copy := analytics;
    r := [];
    var i := 0;
    ghost var left := number;
    while i < number
      invariant 0 <= i && (number >= 0 ==> i <= number) && left == number - i
      invariant r + TopPicks(copy, left) == TopPicks(analytics, number)
      decreases number - i
    {
      var p := TopIteration(copy);
      TopPicksStep(copy, left, r, p);
      if !p.NoPick? {
        r := r + [p.key];
        copy := RemoveKey(copy, p.key);
      }
      i := i + 1;
      left := left - 1;
    }
  }

  /** The key names an eligible pair of `a`. */
  predicate EligibleKey(a: Analytics, k: string) {
    exists j :: 0 <= j < |a| && a[j].0 == k && Eligible(a[j], InterestIgnored)
  }

  /** A pick made by a top-N iteration names an eligible, non-empty key of the copy. */
  lemma TopPickIsEligible(copy: Analytics)
    ensures var p := TopDecide(Scan(copy, InterestIgnored));
      p != NoPick ==> p.key != "" && EligibleKey(copy, p.key)
  {
    ScanMax(copy, InterestIgnored);
    ScanMin(copy, InterestIgnored);
    var e := Scan(copy, InterestIgnored);
    var p := TopDecide(e);
    if p.High? {
      var i :| IsFirstMax(copy, InterestIgnored, i) && copy[i].0 == e.maxKey.value;
      assert copy[i].0 == p.key && Eligible(copy[i], InterestIgnored);
    } else if p.Low? {
      var i :| IsFirstMin(copy, InterestIgnored, i) && copy[i].0 == e.minKey.value;
      assert copy[i].0 == p.key && Eligible(copy[i], InterestIgnored);
    }
  }

  /**
   * getTopInterestingAnalytics returns at most `n` keys, no key twice (each pick is deleted
   * from the copy), and only numeric, non-ignored keys of its input.
   */
  lemma {:induction false} TopPicksSpec(copy: Analytics, n: int)
    ensures var r := TopPicks(copy, n);
      |r| <= (if n < 0 then 0 else n) &&
      (forall i, j :: 0 <= i < j < |r| ==> r[i] != r[j]) &&
      (forall i :: 0 <= i < |r| ==> r[i] != "" && EligibleKey(copy, r[i]))
    decreases n
  {
    if n > 0 {
      TopPickIsEligible(copy);
      var p := TopDecide(Scan(copy, InterestIgnored));
      if p == NoPick {
        TopPicksSpec(copy, n - 1);
      } else {
        var rest := RemoveKey(copy, p.key);
        TopPicksSpec(rest, n - 1);
        var tail := TopPicks(rest, n - 1);
        assert TopPicks(copy, n) == [p.key] + tail;
        forall i | 0 <= i < |tail|
          ensures tail[i] != p.key && EligibleKey(copy, tail[i])
        {
          RemovedEligible(copy, p.key, tail[i]);
        }
      }
    }
  }

  /** A key still eligible after removing `key` is another key, eligible before the removal. */
  lemma RemovedEligible(copy: Analytics, key: string, k: string)
    requires EligibleKey(RemoveKey(copy, key), k)
    ensures k != key && EligibleKey(copy, k)
  {
    var rest := RemoveKey(copy, key);
    var j :| 0 <= j < |rest| && rest[j].0 == k && Eligible(rest[j], InterestIgnored);
    assert rest[j] in rest;
    var i := Seqs.IndexOf(copy, rest[j]);
    assert copy[i] == rest[j];
  }

  /**
   * Once an iteration selects nothing, the copy is unchanged, so every later iteration
   * selects nothing too and the result is empty.
   */
  lemma {:induction false} TopPicksStuck(copy: Analytics, n: int)
    requires TopDecide(Scan(copy, InterestIgnored)) == NoPick
    ensures TopPicks(copy, n) == []
    decreases n
  {
    if n > 0 {
      TopPicksStuck(copy, n - 1);
    }
  }

  /** The song has an attached, non-null audio-feature record (:597). */
  predicate Analysed(s: Song) {
    s.analytics.Some?
  }

  /** `songs.filter(s => s.hasOwnProperty("analytics") && s.analytics !== null)`. */
  function ValidSongs(songs: seq<Song>): (r: seq<Song>)
    ensures forall i :: 0 <= i < |r| ==> Analysed(r[i])
    ensures forall s :: s in r <==> s in songs && Analysed(s)
    ensures |r| <= |songs|
  {
    if songs == [] then []
    else if Analysed(songs[0]) then [songs[0]] + ValidSongs(songs[1..])
    else ValidSongs(songs[1..])
  }

  /** Filtering distributes over concatenation, so the analysed songs keep their order. */
  lemma {:induction false} ValidSongsAppend(xs: seq<Song>, ys: seq<Song>)
    ensures ValidSongs(xs + ys) == ValidSongs(xs) + ValidSongs(ys)
    decreases |xs|
  {
    if xs == [] {
      assert xs + ys == ys;
    } else {
      assert (xs + ys)[0] == xs[0] && (xs + ys)[1..] == xs[1..] + ys;
      ValidSongsAppend(xs[1..], ys);
    }
  }

  /** An analysed song is kept as often as it occurs; any other song is dropped. */
  lemma {:induction false} ValidSongsCount(songs: seq<Song>, s: Song)
    ensures multiset(ValidSongs(songs))[s] == if Analysed(s) then multiset(songs)[s] else 0
    decreases |songs|
  {
    if songs != [] {
      var rest := songs[1..];
      var head := if Analysed(songs[0]) then [songs[0]] else [];
      ValidSongsCount(rest, s);
      assert songs == [songs[0]] + rest;
      assert ValidSongs(songs) == head + ValidSongs(rest);
    }
  }

  /** The song carries a number under each of the eight table keys. */
  predicate HasFeatures(s: Song) {
    Analysed(s) && forall j :: 0 <= j < |AnalyticsKeys| ==> HasNumber(s.analytics.value, AnalyticsKeys[j])
  }

  /** Every analysed song carries a number under each of the eight table keys. */
  predicate FeaturesNumeric(songs: seq<Song>) {
    forall i :: 0 <= i < |songs| && Analysed(songs[i]) ==> HasFeatures(songs[i])
  }

  /** `song.analytics[key] as number` for the j-th table key. */
  function FeatureValue(s: Song, j: int): real
    requires HasFeatures(s) && 0 <= j < |AnalyticsKeys|
  {
    Lookup(s.analytics.value, AnalyticsKeys[j]).value.x
  }

  /** The sum of the j-th feature over songs that all carry the features. */
  function FeatureSum(songs: seq<Song>, j: int): real
    requires forall i :: 0 <= i < |songs| ==> HasFeatures(songs[i])
    requires 0 <= j < |AnalyticsKeys|
    decreases |songs|
  {
    if songs == [] then 0.0
    else FeatureSum(songs[..|songs| - 1], j) + FeatureValue(songs[|songs| - 1], j)
  }

  /** The analysed songs, each carrying the eight features. */
  lemma ValidSongsHaveFeatures(songs: seq<Song>)
    requires FeaturesNumeric(songs)
    ensures forall i :: 0 <= i < |ValidSongs(songs)| ==> HasFeatures(ValidSongs(songs)[i])
  {
    var valid := ValidSongs(songs);
    forall i | 0 <= i < |valid| ensures HasFeatures(valid[i]) {
      assert valid[i] in songs;
    }
  }

  /** The arithmetic mean of the j-th feature over the analysed songs; 0 when there are none. */
  function Mean(songs: seq<Song>, j: int): real
    requires FeaturesNumeric(songs) && 0 <= j < |AnalyticsKeys|
  {
    ValidSongsHaveFeatures(songs);
    var valid := ValidSongs(songs);
    if |valid| == 0 then 0.0 else FeatureSum(valid, j) / (|valid| as real)
  }

  /** The record getAverageAnalytics returns: the eight table keys in order, each its mean. */
  function AverageAnalytics(songs: seq<Song>): (r: Analytics)
    requires FeaturesNumeric(songs)
    ensures Keys(r) == AnalyticsKeys
    ensures forall j :: 0 <= j < |r| ==> r[j].1 == Num(Mean(songs, j))
  {
    seq(|AnalyticsKeys|, j requires 0 <= j < |AnalyticsKeys| => (AnalyticsKeys[j], Num(Mean(songs, j))))
  }

  /** The running value of `avgAnalytics[key]`: the sum so far divided by the count. */
  function Share(sum: real, n: real): real {
    if n == 0.0 then 0.0 else sum / n
  }

  /** Adding `value / n` to the share of a sum gives the share of the larger sum. */
  lemma ShareStep(sum: real, v: real, n: real)
    requires n > 0.0
    ensures Share(sum, n) + v / n == Share(sum + v, n)
  {
  }

  /** The inner `for..in` over one song: each key's running value grows by `value / n`. */
  method AccumulateSong(avg: seq<real>, song: Song, n: real, ghost done: seq<Song>) returns (r: seq<real>)
    requires n > 0.0 && HasFeatures(song)
    requires forall i :: 0 <= i < |done| ==> HasFeatures(done[i])
    requires |avg| == |AnalyticsKeys|
    requires forall j :: 0 <= j < |avg| ==> avg[j] == Share(FeatureSum(done, j), n)
    ensures |r| == |AnalyticsKeys|
    ensures forall j :: 0 <= j < |r| ==> r[j] == Share(FeatureSum(done + [song], j), n)
  {
    ghost var next := done + [song];
    assert next[..|next| - 1] == done;
    r := avg;
    for j := 0 to |AnalyticsKeys|
      invariant |r| == |AnalyticsKeys|
      invariant forall l :: 0 <= l < j ==> r[l] == Share(FeatureSum(next, l), n)
      invariant forall l :: j <= l < |r| ==> r[l] == avg[l]
    {
      ShareStep(FeatureSum(done, j), FeatureValue(song, j), n);
      r := r[j := r[j] + FeatureValue(song, j) / n];
    }
  }

  /**
   * getAverageAnalytics: accumulating `value / |valid|` song by song yields, for each of the
   * eight keys, the mean over the analysed songs (all zero when none is analysed).
   */
  method GetAverageAnalytics(songs: seq<Song>) returns (r: Analytics)
    requires FeaturesNumeric(songs)
    ensures r == AverageAnalytics(songs)
  {
    var avg: seq<real> := [0.0, 0.0, 0.0, 0.0, 0.0, 0.0, 0.0, 0.0];
    var valid := ValidSongs(songs);
    ValidSongsHaveFeatures(songs);
    var n := |valid| as real;
    for i := 0 to |valid|
      invariant |avg| == |AnalyticsKeys|
      invariant forall j :: 0 <= j < |avg| ==> avg[j] == Share(FeatureSum(valid[..i], j), n)
    {
      assert valid[..i + 1] == valid[..i] + [valid[i]];
      avg := AccumulateSong(avg, valid[i], n, valid[..i]);
    }
    assert valid[..|valid|] == valid;
    r := seq(|AnalyticsKeys|, j requires 0 <= j < |AnalyticsKeys| => (AnalyticsKeys[j], Num(avg[j])));
  }

  /** Summing one value over every song gives the count times that value. */
  lemma {:induction false} FeatureSumConstant(songs: seq<Song>, j: int, v: real)
    requires forall i :: 0 <= i < |songs| ==> HasFeatures(songs[i])
    requires 0 <= j < |AnalyticsKeys|
    requires forall i :: 0 <= i < |songs| ==> FeatureValue(songs[i], j) == v
    ensures FeatureSum(songs, j) == (|songs| as real) * v
    decreases |songs|
  {
    if songs != [] {
      FeatureSumConstant(songs[..|songs| - 1], j, v);
    }
  }

  /** No song is analysed exactly when the list of valid songs is empty. */
  lemma ValidSongsEmpty(songs: seq<Song>)
    ensures |ValidSongs(songs)| == 0 <==> forall i :: 0 <= i < |songs| ==> !Analysed(songs[i])
  {
    var valid := ValidSongs(songs);
    if |valid| > 0 {
      assert valid[0] in valid;
    }
    forall i | 0 <= i < |songs| && Analysed(songs[i]) ensures songs[i] in valid {
    }
  }

  /** Songs that all carry v as their j-th feature average to v. */
  lemma ConstantAverage(valid: seq<Song>, j: int, v: real)
    requires |valid| > 0 && 0 <= j < |AnalyticsKeys|
    requires forall i :: 0 <= i < |valid| ==> HasFeatures(valid[i])
    requires forall i :: 0 <= i < |valid| ==> FeatureValue(valid[i], j) == v
    ensures FeatureSum(valid, j) / (|valid| as real) == v
  {
    FeatureSumConstant(valid, j, v);
    var n := |valid| as real;
    assert FeatureSum(valid, j) / n == v by {
      assert FeatureSum(valid, j) == n * v;
    }
  }

  /** The mean of identical values is that value; with no analysed song every mean is 0. */
  lemma MeanOfConstant(songs: seq<Song>, j: int, v: real)
    requires FeaturesNumeric(songs) && 0 <= j < |AnalyticsKeys|
    requires forall i :: 0 <= i < |songs| && Analysed(songs[i]) ==> FeatureValue(songs[i], j) == v
    ensures Mean(songs, j) == if exists i :: 0 <= i < |songs| && Analysed(songs[i]) then v else 0.0
  {
    var valid := ValidSongs(songs);
    ValidSongsHaveFeatures(songs);
    ValidSongsEmpty(songs);
    if |valid| > 0 {
      forall l | 0 <= l < |valid| ensures FeatureValue(valid[l], j) == v {
        assert valid[l] in songs;
      }
      ConstantAverage(valid, j, v);
    }
  }
}
