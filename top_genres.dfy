/**
 * calculateTopGenres (src/utility_functions/top_genres.ts): every genre of the artist at
 * rank i earns n - i, where n is the number of artists; the accumulated entries are then
 * stably sorted by decreasing weight and their names returned.
 */
module TopGenres {
  import opened Records
  import opened Seqs

  /** One `{genre, weight}` element of `topGenres`. */
  datatype Entry = Entry(genre: string, weight: int)

  /** Every artist carries a genre list of strings, as the Artist record declares. */
  predicate HasGenres(artists: seq<Artist>) {
    forall i :: 0 <= i < |artists| ==> artists[i].genres.Some?
  }

  /** The entries one artist contributes: each of its genres with the artist's weight. */
  function Tag(genres: seq<string>, w: int): (r: seq<Entry>)
    ensures |r| == |genres| && forall k :: 0 <= k < |genres| ==> r[k] == Entry(genres[k], w)
  {
    if genres == [] then [] else [Entry(genres[0], w)] + Tag(genres[1..], w)
  }

  /** The (genre, n - i) pairs the nested forEach visits, in visiting order. */
  function Occurrences(artists: seq<Artist>, n: int): seq<Entry>
    requires HasGenres(artists)
    decreases |artists|
  {
    if artists == [] then []
    else
      var p := artists[..|artists| - 1];
      assert HasGenres(p);
      Occurrences(p, n) + Tag(artists[|artists| - 1].genres.value, n - (|artists| - 1))
  }

  /** The pairs visited up to and including the last artist. */
  lemma OccurrencesLast(artists: seq<Artist>, n: int)
    requires HasGenres(artists) && artists != []
    ensures HasGenres(artists[..|artists| - 1])
    ensures Occurrences(artists, n) ==
      Occurrences(artists[..|artists| - 1], n) + Tag(artists[|artists| - 1].genres.value, n - (|artists| - 1))
  {
  }

  /** `topGenres.find(g => g.genre === genre)`, as a position: the first entry with that genre, or -1. */
  function Find(entries: seq<Entry>, genre: string): (r: int)
    ensures -1 <= r < |entries|
    ensures r == -1 <==> forall k :: 0 <= k < |entries| ==> entries[k].genre != genre
    ensures r >= 0 ==> entries[r].genre == genre
  {
    if entries == [] then -1
    else if entries[0].genre == genre then 0
    else var k := Find(entries[1..], genre); if k == -1 then -1 else k + 1
  }

  /** One visit: raise the existing entry's weight, or push a new entry. */
  function Add(entries: seq<Entry>, e: Entry): seq<Entry> {
    var k := Find(entries, e.genre);
    if k >= 0 then entries[k := Entry(e.genre, entries[k].weight + e.weight)] else entries + [e]
  }

  lemma AddFound(entries: seq<Entry>, e: Entry, k: int)
    requires k == Find(entries, e.genre) && k >= 0
    ensures Add(entries, e) == entries[k := Entry(e.genre, entries[k].weight + e.weight)]
  {
  }

  lemma AddNew(entries: seq<Entry>, e: Entry)
    requires Find(entries, e.genre) < 0
    ensures Add(entries, e) == entries + [e]
  {
  }

  /** `topGenres` after visiting the given pairs. */
  function Accumulate(ps: seq<Entry>): seq<Entry>
    decreases |ps|
  {
    if ps == [] then [] else Add(Accumulate(ps[..|ps| - 1]), ps[|ps| - 1])
  }

  /** `topGenres.map(genre => genre.genre)`. */
  function GenreNames(es: seq<Entry>): (r: seq<string>)
    ensures |r| == |es| && forall k :: 0 <= k < |es| ==> r[k] == es[k].genre
  {
    if es == [] then [] else [es[0].genre] + GenreNames(es[1..])
  }

  /** The total weight the pairs give a genre. */
  function WeightOf(ps: seq<Entry>, genre: string): int
    decreases |ps|
  {
    if ps == [] then 0
    else WeightOf(ps[..|ps| - 1], genre) + (if ps[|ps| - 1].genre == genre then ps[|ps| - 1].weight else 0)
  }

  /** No two entries share a genre. */
  predicate DistinctGenres(s: seq<Entry>) {
    forall i, j :: 0 <= i < j < |s| ==> s[i].genre != s[j].genre
  }

  /** One visit adds the genre's name at the end when it is new and changes no name otherwise. */
  lemma AddNames(a: seq<Entry>, e: Entry)
    ensures GenreNames(Add(a, e)) ==
      if e.genre in GenreNames(a) then GenreNames(a) else GenreNames(a) + [e.genre]
  {
    var names := GenreNames(a);
    var k := Find(a, e.genre);
    if k >= 0 {
      assert names[k] == e.genre;
      assert GenreNames(a[k := Entry(e.genre, a[k].weight + e.weight)]) == names;
    } else {
      assert e.genre !in names;
      assert GenreNames(a + [e]) == names + [e.genre];
    }
  }

  /** The accumulated list holds each visited genre once, in order of first visit. */
  lemma {:induction false} AccumulateNames(ps: seq<Entry>)
    ensures GenreNames(Accumulate(ps)) == Distinct(GenreNames(ps))
    decreases |ps|
  {
    if ps != [] {
      var p, x := ps[..|ps| - 1], ps[|ps| - 1];
      var a, np := Accumulate(p), GenreNames(p);
      AccumulateNames(p);
      SplitLast(ps);
      GenreNamesSnoc(p, x);
      DistinctSnoc(np, x.genre);
      AddNames(a, x);
      assert x.genre in GenreNames(a) <==> x.genre in np;
    }
  }

  /** The visits so far: distinct genres, weights equal to the visited totals, every visited genre listed. */
  predicate Tallied(a: seq<Entry>, p: seq<Entry>) {
    && DistinctGenres(a)
    && (forall k :: 0 <= k < |a| ==> a[k].weight == WeightOf(p, a[k].genre))
    && (forall k :: 0 <= k < |p| ==> p[k].genre in GenreNames(a))
  }

  /** One more visit adds its weight to its own genre only. */
  lemma WeightOfSnoc(p: seq<Entry>, e: Entry, genre: string)
    ensures WeightOf(p + [e], genre) == WeightOf(p, genre) + (if e.genre == genre then e.weight else 0)
  {
    var ps := p + [e];
    assert ps[..|ps| - 1] == p && ps[|ps| - 1] == e;
  }

  /** A visit of a listed genre raises that one entry. */
  lemma AddWeightsFound(a: seq<Entry>, p: seq<Entry>, e: Entry, k: int)
    requires Tallied(a, p)
    requires 0 <= k < |a| && a[k].genre == e.genre
    ensures Tallied(a[k := Entry(e.genre, a[k].weight + e.weight)], p + [e])
  {
    var ps := p + [e];
    var r := a[k := Entry(e.genre, a[k].weight + e.weight)];
    assert forall j :: 0 <= j < |r| ==> r[j].genre == a[j].genre;
    assert GenreNames(r) == GenreNames(a);
    forall j | 0 <= j < |r| ensures r[j].weight == WeightOf(ps, r[j].genre) {
      WeightOfSnoc(p, e, r[j].genre);
      if j != k {
        assert a[j].genre != a[k].genre;
      }
    }
    forall j | 0 <= j < |ps| ensures ps[j].genre in GenreNames(r) {
      if j < |p| {
        assert ps[j] == p[j];
      } else {
        assert GenreNames(r)[k] == e.genre;
      }
    }
  }

  /** A visit of an unlisted genre appends its entry. */
  lemma AddWeightsNew(a: seq<Entry>, p: seq<Entry>, e: Entry)
    requires Tallied(a, p)
    requires forall k :: 0 <= k < |a| ==> a[k].genre != e.genre
    ensures Tallied(a + [e], p + [e])
  {
    var ps := p + [e];
    var r := a + [e];
    assert GenreNames(r) == GenreNames(a) + [e.genre];
    forall k | 0 <= k < |p| ensures p[k].genre != e.genre {
      assert p[k].genre in GenreNames(a);
    }
    WeightOfAbsent(p, e.genre);
    forall j | 0 <= j < |r| ensures r[j].weight == WeightOf(ps, r[j].genre) {
      WeightOfSnoc(p, e, r[j].genre);
      if j < |a| {
        assert a[j].genre != e.genre;
      }
    }
    forall j | 0 <= j < |ps| ensures ps[j].genre in GenreNames(r) {
      if j < |p| {
        assert ps[j] == p[j];
      }
    }
  }

  /** One visit keeps the genres distinct and the weights equal to the visited totals. */
  lemma AddWeights(a: seq<Entry>, p: seq<Entry>, e: Entry)
    requires Tallied(a, p)
    ensures Tallied(Add(a, e), p + [e])
  {
    var k := Find(a, e.genre);
    if k >= 0 {
      AddFound(a, e, k);
      AddWeightsFound(a, p, e, k);
    } else {
      AddNew(a, e);
      AddWeightsNew(a, p, e);
    }
  }

  /** Each accumulated entry carries the total weight of its genre's visits. */
  lemma {:induction false} AccumulateWeights(ps: seq<Entry>)
    ensures DistinctGenres(Accumulate(ps))
    ensures forall k :: 0 <= k < |Accumulate(ps)| ==>
      Accumulate(ps)[k].weight == WeightOf(ps, Accumulate(ps)[k].genre)
    ensures forall k :: 0 <= k < |ps| ==> ps[k].genre in GenreNames(Accumulate(ps))
    decreases |ps|
  {
    if ps != [] {
      var p := ps[..|ps| - 1];
      var a := Accumulate(p);
      AccumulateWeights(p);
      SplitLast(ps);
      AddWeights(a, p, ps[|ps| - 1]);
    }
  }

  /** A genre that is never visited has weight 0. */
  lemma {:induction false} WeightOfAbsent(ps: seq<Entry>, genre: string)
    requires forall k :: 0 <= k < |ps| ==> ps[k].genre != genre
    ensures WeightOf(ps, genre) == 0
    decreases |ps|
  {
    if ps != [] {
      WeightOfAbsent(ps[..|ps| - 1], genre);
    }
  }

  // ---------------------------------------------------------------------------------------
  // The sort: `topGenres.sort((a, b) => b.weight - a.weight)`, a stable sort
  // ---------------------------------------------------------------------------------------

  predicate NonIncreasing(s: seq<Entry>) {
    forall i, j :: 0 <= i < j < |s| ==> s[i].weight >= s[j].weight
  }

  /** Insert x after every element of weight at least x's. */
  function Insert(x: Entry, s: seq<Entry>): seq<Entry> {
    if s == [] then [x]
    else if s[0].weight >= x.weight then [s[0]] + Insert(x, s[1..])
    else [x] + s
  }

  /** A stable sort by decreasing weight: insertion of each element in turn. */
  function SortByWeight(s: seq<Entry>): seq<Entry>
    decreases |s|
  {
    if s == [] then [] else Insert(s[|s| - 1], SortByWeight(s[..|s| - 1]))
  }

  /** The elements of the given weight, in order. */
  function WithWeight(s: seq<Entry>, w: int): seq<Entry> {
    if s == [] then [] else (if s[0].weight == w then [s[0]] else []) + WithWeight(s[1..], w)
  }

  lemma {:induction false} WithWeightAppend(a: seq<Entry>, b: seq<Entry>, w: int)
    ensures WithWeight(a + b, w) == WithWeight(a, w) + WithWeight(b, w)
  {
    if a != [] {
      assert (a + b)[1..] == a[1..] + b;
      WithWeightAppend(a[1..], b, w);
    } else {
      assert a + b == b;
    }
  }

  lemma {:induction false} WithWeightBelow(s: seq<Entry>, w: int)
    requires forall k :: 0 <= k < |s| ==> s[k].weight < w
    ensures WithWeight(s, w) == []
  {
    if s != [] {
      WithWeightBelow(s[1..], w);
    }
  }

  /** Inserting into a list bounded by b, an element bounded by b, gives a list bounded by b. */
  lemma {:induction false} InsertBounded(x: Entry, s: seq<Entry>, b: int)
    requires x.weight <= b && forall k :: 0 <= k < |s| ==> s[k].weight <= b
    ensures forall k :: 0 <= k < |Insert(x, s)| ==> Insert(x, s)[k].weight <= b
  {
    if s != [] && s[0].weight >= x.weight {
      InsertBounded(x, s[1..], b);
    }
  }

  /** Inserting into a sorted list keeps it sorted. */
  lemma {:induction false} InsertSorted(x: Entry, s: seq<Entry>)
    requires NonIncreasing(s)
    ensures NonIncreasing(Insert(x, s))
  {
    if s != [] && s[0].weight >= x.weight {
      var t := Insert(x, s[1..]);
      InsertSorted(x, s[1..]);
      InsertBounded(x, s[1..], s[0].weight);
      var r := [s[0]] + t;
      assert Insert(x, s) == r;
      forall i, j | 0 <= i < j < |r| ensures r[i].weight >= r[j].weight {
        if i == 0 {
          assert r[j] == t[j - 1];
        } else {
          assert r[i] == t[i - 1] && r[j] == t[j - 1];
        }
      }
    }
  }

  /** Inserting adds exactly x. */
  lemma {:induction false} InsertPermutes(x: Entry, s: seq<Entry>)
    ensures multiset(Insert(x, s)) == multiset(s) + multiset{x}
  {
    if s != [] && s[0].weight >= x.weight {
      InsertPermutes(x, s[1..]);
      assert s == [s[0]] + s[1..];
    }
  }

  /** The elements of weight w of a list with a head are the head's, then the tail's. */
  lemma WithWeightCons(e: Entry, s: seq<Entry>, w: int)
    ensures WithWeight([e] + s, w) == (if e.weight == w then [e] else []) + WithWeight(s, w)
  {
    assert ([e] + s)[0] == e && ([e] + s)[1..] == s;
  }

  /** Inserting places x after every element of its weight and changes no other weight's list. */
  lemma {:induction false} InsertStable(x: Entry, s: seq<Entry>, w: int)
    requires NonIncreasing(s)
    ensures WithWeight(Insert(x, s), w) == WithWeight(s, w) + (if x.weight == w then [x] else [])
  {
    var mine := if x.weight == w then [x] else [];
    if s == [] {
      assert Insert(x, s) == [x] + s;
      WithWeightCons(x, s, w);
    } else if s[0].weight >= x.weight {
      var t, tail := Insert(x, s[1..]), s[1..];
      var head := if s[0].weight == w then [s[0]] else [];
      assert Insert(x, s) == [s[0]] + t;
      assert s == [s[0]] + tail;
      InsertStable(x, tail, w);
      WithWeightCons(s[0], t, w);
      WithWeightCons(s[0], tail, w);
      var rest := WithWeight(tail, w);
      assert head + (rest + mine) == (head + rest) + mine;
    } else {
      assert Insert(x, s) == [x] + s;
      WithWeightCons(x, s, w);
      if w == x.weight {
        WithWeightBelow(s, w);
      }
    }
  }

  /** Inserting an entry whose genre differs from g into a list without g gives a list without g. */
  lemma {:induction false} InsertAvoids(x: Entry, s: seq<Entry>, g: string)
    requires x.genre != g && forall k :: 0 <= k < |s| ==> s[k].genre != g
    ensures forall k :: 0 <= k < |Insert(x, s)| ==> Insert(x, s)[k].genre != g
  {
    if s != [] && s[0].weight >= x.weight {
      InsertAvoids(x, s[1..], g);
    }
  }

  /** Inserting an entry of a new genre keeps the genres distinct. */
  lemma {:induction false} InsertDistinct(x: Entry, s: seq<Entry>)
    requires DistinctGenres(s)
    requires forall k :: 0 <= k < |s| ==> s[k].genre != x.genre
    ensures DistinctGenres(Insert(x, s))
  {
    if s != [] && s[0].weight >= x.weight {
      var t := Insert(x, s[1..]);
      InsertDistinct(x, s[1..]);
      InsertAvoids(x, s[1..], s[0].genre);
      var r := [s[0]] + t;
      assert Insert(x, s) == r;
      forall i, j | 0 <= i < j < |r| ensures r[i].genre != r[j].genre {
        if i == 0 {
          assert r[j] == t[j - 1];
        } else {
          assert r[i] == t[i - 1] && r[j] == t[j - 1];
        }
      }
    } else {
      var r := [x] + s;
      forall i, j | 0 <= i < j < |r| ensures r[i].genre != r[j].genre {
        if i == 0 {
          assert r[j] == s[j - 1];
        } else {
          assert r[i] == s[i - 1] && r[j] == s[j - 1];
        }
      }
    }
  }

  /** The sort orders by non-increasing weight and is a permutation. */
  lemma {:induction false} SortSorted(s: seq<Entry>)
    ensures NonIncreasing(SortByWeight(s))
    ensures multiset(SortByWeight(s)) == multiset(s)
    decreases |s|
  {
    if s != [] {
      SortSorted(s[..|s| - 1]);
      InsertSorted(s[|s| - 1], SortByWeight(s[..|s| - 1]));
      InsertPermutes(s[|s| - 1], SortByWeight(s[..|s| - 1]));
      SplitLast(s);
    }
  }

  /** The sort is stable: it keeps the elements of each weight in their original order. */
  lemma {:induction false} SortStable(s: seq<Entry>, w: int)
    ensures WithWeight(SortByWeight(s), w) == WithWeight(s, w)
    decreases |s|
  {
    if s != [] {
      var p := s[..|s| - 1];
      var x := s[|s| - 1];
      SortStable(p, w);
      SortSorted(p);
      InsertStable(x, SortByWeight(p), w);
      WithWeightLast(s, w);
    }
  }

  lemma WithWeightLast(s: seq<Entry>, w: int)
    requires s != []
    ensures WithWeight(s, w) ==
      WithWeight(s[..|s| - 1], w) + (if s[|s| - 1].weight == w then [s[|s| - 1]] else [])
  {
    var x := s[|s| - 1];
    SplitLast(s);
    WithWeightAppend(s[..|s| - 1], [x], w);
    assert WithWeight([x], w) == (if x.weight == w then [x] else []) + WithWeight([], w);
  }

  /** The sort keeps distinct genres distinct. */
  lemma {:induction false} SortDistinct(s: seq<Entry>)
    requires DistinctGenres(s)
    ensures DistinctGenres(SortByWeight(s))
    decreases |s|
  {
    if s != [] {
      var p := s[..|s| - 1];
      var x := s[|s| - 1];
      SortDistinct(p);
      SortSorted(p);
      var q := SortByWeight(p);
      forall k | 0 <= k < |q| ensures q[k].genre != x.genre {
        assert q[k] in multiset(p);
        var i :| 0 <= i < |p| && p[i] == q[k];
        assert s[i] == q[k];
      }
      InsertDistinct(x, q);
    }
  }

  // ---------------------------------------------------------------------------------------
  // calculateTopGenres
  // ---------------------------------------------------------------------------------------

  /** The accumulated `topGenres` before the sort. */
  function Entries(artists: seq<Artist>): seq<Entry>
    requires HasGenres(artists)
  {
    Accumulate(Occurrences(artists, |artists|))
  }

  /** The result of calculateTopGenres. */
  function TopGenresOf(artists: seq<Artist>): (r: seq<string>)
    requires HasGenres(artists)
    ensures artists == [] ==> r == []
  {
    GenreNames(SortByWeight(Entries(artists)))
  }

  /** calculateTopGenres: the nested accumulation, the sort, the map to names. */
  method CalculateTopGenres(artists: seq<Artist>) returns (r: seq<string>)
    requires HasGenres(artists)
    ensures r == TopGenresOf(artists)
  {
    var n := |artists|;
    var topGenres: seq<Entry> := [];
    for i := 0 to n
      invariant topGenres == Accumulate(Occurrences(artists[..i], n))
    {
      ArtistStep(artists, i, n);
      topGenres := VisitGenres(topGenres, artists[i].genres.value, n - i, Occurrences(artists[..i], n));
    }
    assert artists[..n] == artists;
    topGenres := SortByWeight(topGenres);
    r := GenreNames(topGenres);
  }

  /** The inner forEach: visit each genre of one artist, with that artist's weight. */
  method VisitGenres(topGenres: seq<Entry>, genres: seq<string>, w: int, ghost before: seq<Entry>)
    returns (r: seq<Entry>)
    requires topGenres == Accumulate(before)
    ensures r == Accumulate(before + Tag(genres, w))
  {
    r := topGenres;
    assert before + Tag(genres[..0], w) == before;
    for j := 0 to |genres|
      invariant r == Accumulate(before + Tag(genres[..j], w))
    {
      VisitStep(before, genres, j, w);
      var e := Entry(genres[j], w);
      var k := Find(r, e.genre);
      if k >= 0 {
        AddFound(r, e, k);
        r := r[k := Entry(e.genre, r[k].weight + e.weight)];
      } else {
        AddNew(r, e);
        r := r + [e];
      }
    }
    assert genres[..|genres|] == genres;
  }

  /** Visiting genre j of the current artist is one Add. */
  lemma VisitStep(before: seq<Entry>, genres: seq<string>, j: int, w: int)
    requires 0 <= j < |genres|
    ensures Accumulate(before + Tag(genres[..j + 1], w)) ==
      Add(Accumulate(before + Tag(genres[..j], w)), Entry(genres[j], w))
  {
    var e := Entry(genres[j], w);
    var ta, tb := Tag(genres[..j], w), Tag(genres[..j + 1], w);
    var x, y := before + ta, before + tb;
    TagSnoc(genres, j, w);
    assert y == x + [e];
    assert y[..|y| - 1] == x && y[|y| - 1] == e;
    assert Accumulate(y) == Add(Accumulate(x), e);
  }

  /** Tagging one more genre appends one entry. */
  lemma TagSnoc(genres: seq<string>, j: int, w: int)
    requires 0 <= j < |genres|
    ensures Tag(genres[..j + 1], w) == Tag(genres[..j], w) + [Entry(genres[j], w)]
  {
    var ga, gb := genres[..j], genres[..j + 1];
    var ta, tb := Tag(ga, w), Tag(gb, w);
    var e := Entry(genres[j], w);
    assert |tb| == |ta + [e]|;
    forall k | 0 <= k < |tb| ensures tb[k] == (ta + [e])[k] {
      if k < j {
        assert gb[k] == ga[k];
      }
    }
  }

  /** After its inner loop, the artist's whole genre list has been visited. */
  lemma ArtistStep(artists: seq<Artist>, i: int, n: int)
    requires HasGenres(artists) && 0 <= i < |artists|
    ensures HasGenres(artists[..i]) && HasGenres(artists[..i + 1])
    ensures Occurrences(artists[..i], n) + Tag(artists[i].genres.value, n - i) == Occurrences(artists[..i + 1], n)
  {
    assert artists[..i + 1][..i] == artists[..i];
  }

  // ---------------------------------------------------------------------------------------
  // Properties
  // ---------------------------------------------------------------------------------------

  /** An independent reading of a genre's weight: the sum over artists of (n - i) times its count. */
  function GenreWeight(artists: seq<Artist>, n: int, genre: string): int
    requires HasGenres(artists)
    decreases |artists|
  {
    if artists == [] then 0
    else
      var p := artists[..|artists| - 1];
      assert HasGenres(p);
      var last := |artists| - 1;
      GenreWeight(p, n, genre) + (n - last) * Count(artists[last].genres.value, genre)
  }

  lemma {:induction false} WeightOfAppend(a: seq<Entry>, b: seq<Entry>, genre: string)
    ensures WeightOf(a + b, genre) == WeightOf(a, genre) + WeightOf(b, genre)
    decreases |b|
  {
    if b != [] {
      assert (a + b)[..|a + b| - 1] == a + b[..|b| - 1];
      WeightOfAppend(a, b[..|b| - 1], genre);
    } else {
      assert a + b == a;
    }
  }

  lemma MulSucc(w: int, c: int, n: int)
    requires n == c + 1
    ensures w * n == w * c + w
  {
  }

  lemma {:induction false} WeightOfTag(genres: seq<string>, w: int, genre: string)
    ensures WeightOf(Tag(genres, w), genre) == w * Count(genres, genre)
    decreases |genres|
  {
    if genres != [] {
      var p, last := genres[..|genres| - 1], genres[|genres| - 1];
      var t := Tag(genres, w);
      var c, n := Count(p, genre), Count(genres, genre);
      assert t[..|t| - 1] == Tag(p, w) && t[|t| - 1] == Entry(last, w);
      assert WeightOf(t, genre) == WeightOf(Tag(p, w), genre) + (if last == genre then w else 0);
      assert n == c + (if last == genre then 1 else 0);
      WeightOfTag(p, w, genre);
      if last == genre {
        MulSucc(w, c, n);
      }
    }
  }

  /** The independent weight up to and including the last artist. */
  lemma GenreWeightLast(artists: seq<Artist>, n: int, genre: string)
    requires HasGenres(artists) && artists != []
    ensures HasGenres(artists[..|artists| - 1])
    ensures GenreWeight(artists, n, genre) ==
      GenreWeight(artists[..|artists| - 1], n, genre) +
      (n - (|artists| - 1)) * Count(artists[|artists| - 1].genres.value, genre)
  {
  }

  /** The weight the accumulation sums is the independent one. */
  lemma {:induction false} OccurrenceWeight(artists: seq<Artist>, n: int, genre: string)
    requires HasGenres(artists)
    ensures WeightOf(Occurrences(artists, n), genre) == GenreWeight(artists, n, genre)
    decreases |artists|
  {
    if artists != [] {
      var p := artists[..|artists| - 1];
      var genres := artists[|artists| - 1].genres.value;
      var w := n - (|artists| - 1);
      var c := Count(genres, genre);
      var o, t := Occurrences(p, n), Tag(genres, w);
      OccurrencesLast(artists, n);
      assert Occurrences(artists, n) == o + t;
      WeightOfAppend(o, t, genre);
      OccurrenceWeight(p, n, genre);
      WeightOfTag(genres, w, genre);
      GenreWeightLast(artists, n, genre);
      assert GenreWeight(artists, n, genre) == GenreWeight(p, n, genre) + w * c;
    }
  }

  /** The names visited for the last artist are its genre list. */
  lemma OccurrenceNamesLast(artists: seq<Artist>, n: int)
    requires HasGenres(artists) && artists != []
    ensures HasGenres(artists[..|artists| - 1])
    ensures GenreNames(Occurrences(artists, n)) ==
      GenreNames(Occurrences(artists[..|artists| - 1], n)) + artists[|artists| - 1].genres.value
  {
    var p := artists[..|artists| - 1];
    var last := |artists| - 1;
    var a := Occurrences(p, n);
    var t := Tag(artists[last].genres.value, n - last);
    assert GenreNames(t) == artists[last].genres.value;
    GenreNamesAppend(a, t);
  }

  lemma GenreNamesSnoc(a: seq<Entry>, e: Entry)
    ensures GenreNames(a + [e]) == GenreNames(a) + [e.genre]
  {
    GenreNamesAppend(a, [e]);
  }

  lemma GenreNamesAppend(a: seq<Entry>, b: seq<Entry>)
    ensures GenreNames(a + b) == GenreNames(a) + GenreNames(b)
  {
  }

  /** Some artist lists the genre exactly when an earlier one does or the last one does. */
  lemma ListedLast(artists: seq<Artist>, p: seq<Artist>, genre: string)
    requires HasGenres(artists) && artists != [] && p == artists[..|artists| - 1]
    ensures HasGenres(p)
    ensures (exists i :: 0 <= i < |artists| && genre in artists[i].genres.value) <==>
      (exists i :: 0 <= i < |p| && genre in p[i].genres.value) || genre in artists[|artists| - 1].genres.value
  {
    if exists i :: 0 <= i < |artists| && genre in artists[i].genres.value {
      var i :| 0 <= i < |artists| && genre in artists[i].genres.value;
      if i < |p| {
        assert p[i] == artists[i];
      }
    }
    if exists i :: 0 <= i < |p| && genre in p[i].genres.value {
      var i :| 0 <= i < |p| && genre in p[i].genres.value;
      assert artists[i] == p[i];
    }
  }

  /** The visited genres are exactly those on some artist's list. */
  lemma {:induction false} OccurrenceNames(artists: seq<Artist>, n: int, genre: string)
    requires HasGenres(artists)
    ensures genre in GenreNames(Occurrences(artists, n)) <==>
      exists i :: 0 <= i < |artists| && genre in artists[i].genres.value
    decreases |artists|
  {
    if artists != [] {
      var p := artists[..|artists| - 1];
      var a := GenreNames(Occurrences(p, n));
      var g := artists[|artists| - 1].genres.value;
      OccurrenceNamesLast(artists, n);
      OccurrenceNames(p, n, genre);
      assert genre in a + g <==> genre in a || genre in g;
      ListedLast(artists, p, genre);
    }
  }

  /** Each sorted entry is one of the accumulated entries. */
  lemma SortedFrom(entries: seq<Entry>, k: int) returns (i: int)
    requires 0 <= k < |SortByWeight(entries)|
    ensures 0 <= i < |entries| && entries[i] == SortByWeight(entries)[k]
  {
    var sorted := SortByWeight(entries);
    SortSorted(entries);
    assert sorted[k] in multiset(entries);
    i := IndexOf(entries, sorted[k]);
  }

  /** Each accumulated entry found in the sorted list is in the accumulated list. */
  lemma SortedTo(entries: seq<Entry>, i: int) returns (k: int)
    requires 0 <= i < |entries|
    ensures 0 <= k < |SortByWeight(entries)| && SortByWeight(entries)[k] == entries[i]
  {
    var sorted := SortByWeight(entries);
    SortSorted(entries);
    assert entries[i] in multiset(sorted);
    k := IndexOf(sorted, entries[i]);
  }

  /** The k-th sorted entry carries its genre's independent weight. */
  lemma SortedWeight(artists: seq<Artist>, k: int)
    requires HasGenres(artists) && 0 <= k < |SortByWeight(Entries(artists))|
    ensures SortByWeight(Entries(artists))[k].weight ==
      GenreWeight(artists, |artists|, SortByWeight(Entries(artists))[k].genre)
  {
    var entries := Entries(artists);
    AccumulateWeights(Occurrences(artists, |artists|));
    var i := SortedFrom(entries, k);
    assert entries[i].weight == WeightOf(Occurrences(artists, |artists|), entries[i].genre);
    OccurrenceWeight(artists, |artists|, entries[i].genre);
  }

  /** A genre is in the result exactly when some artist lists it. */
  lemma TopGenresListed(artists: seq<Artist>, g: string)
    requires HasGenres(artists)
    ensures g in TopGenresOf(artists) <==> exists i :: 0 <= i < |artists| && g in artists[i].genres.value
  {
    var ps := Occurrences(artists, |artists|);
    AccumulateNames(ps);
    TopGenresMembers(Entries(artists), g);
    assert g in GenreNames(Entries(artists)) <==> g in GenreNames(ps);
    OccurrenceNames(artists, |artists|, g);
  }

  /**
   * The result has no duplicates; its genres are exactly those of the artists' lists; it is
   * ordered by non-increasing total weight; and no artists give no genres.
   */
  lemma TopGenresSpec(artists: seq<Artist>)
    requires HasGenres(artists)
    ensures NoDuplicates(TopGenresOf(artists))
    ensures forall g :: g in TopGenresOf(artists) <==>
      exists i :: 0 <= i < |artists| && g in artists[i].genres.value
    ensures forall i, j :: 0 <= i < j < |TopGenresOf(artists)| ==>
      GenreWeight(artists, |artists|, TopGenresOf(artists)[i]) >= GenreWeight(artists, |artists|, TopGenresOf(artists)[j])
    ensures artists == [] ==> TopGenresOf(artists) == []
  {
    var n := |artists|;
    var entries := Entries(artists);
    var sorted := SortByWeight(entries);
    var r := TopGenresOf(artists);
    assert r == GenreNames(sorted);
    AccumulateWeights(Occurrences(artists, n));
    SortDistinct(entries);
    SortSorted(entries);
    forall i, j | 0 <= i < j < |r| ensures GenreWeight(artists, n, r[i]) >= GenreWeight(artists, n, r[j]) {
      SortedWeight(artists, i);
      SortedWeight(artists, j);
    }
    forall g ensures g in r <==> exists i :: 0 <= i < |artists| && g in artists[i].genres.value {
      TopGenresListed(artists, g);
    }
  }

  /** The sorted names are the accumulated names. */
  lemma TopGenresMembers(entries: seq<Entry>, g: string)
    ensures g in GenreNames(SortByWeight(entries)) <==> g in GenreNames(entries)
  {
    var sorted := SortByWeight(entries);
    if g in GenreNames(sorted) {
      var k := IndexOf(GenreNames(sorted), g);
      var i := SortedFrom(entries, k);
      assert GenreNames(entries)[i] == g;
    }
    if g in GenreNames(entries) {
      var i := IndexOf(GenreNames(entries), g);
      var k := SortedTo(entries, i);
      assert GenreNames(sorted)[k] == g;
    }
  }

  /**
   * Ties keep first-appearance order: the accumulated entries list the genres in the order
   * they are first met, and for every weight the sorted list keeps that weight's entries in
   * the accumulated order.
   */
  lemma TopGenresTies(artists: seq<Artist>, w: int)
    requires HasGenres(artists)
    ensures GenreNames(Entries(artists)) == Distinct(GenreNames(Occurrences(artists, |artists|)))
    ensures WithWeight(SortByWeight(Entries(artists)), w) == WithWeight(Entries(artists), w)
  {
    AccumulateNames(Occurrences(artists, |artists|));
    SortStable(Entries(artists), w);
  }
}
