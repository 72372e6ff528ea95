/**
 * Small helpers of src/analysis_functions/general.tsx: list-item names and descriptions,
 * truncation, capitalisation, ordinal suffixes, item-type dispatch, the most fitting genre of
 * a song and the artists related to a genre.
 */
module Names {
  import opened Wrappers
  import opened Records
  import opened Seqs

  /**
   * Shortening to `maxLength`: a longer string becomes its first `maxLength - 3` characters
   * followed by "..." (`substring` clamps a negative end to 0).
   */
  function Truncate(s: string, maxLength: int): (r: string)
    ensures |s| <= maxLength ==> r == s
    ensures |s| > maxLength ==> |r| >= 3 && r[|r| - 3..] == "..." && r[..|r| - 3] <= s
  {
    if |s| > maxLength then s[..(if maxLength < 3 then 0 else maxLength - 3)] + "..." else s
  }

  /**
   * r is s shortened to maxLength: s itself when it fits, otherwise exactly maxLength
   * characters, the first maxLength - 3 of s followed by "...".
   */
  predicate Shortened(r: string, s: string, maxLength: int)
    requires maxLength >= 3
  {
    (|s| <= maxLength ==> r == s) &&
    (|s| > maxLength ==> |r| == maxLength && r[..maxLength - 3] == s[..maxLength - 3] &&
                         r[maxLength - 3..] == "...")
  }

  /** With maxLength >= 3 the result never exceeds maxLength and is s shortened. */
  lemma TruncateSpec(s: string, maxLength: int)
    requires maxLength >= 3
    ensures |Truncate(s, maxLength)| <= maxLength
    ensures Shortened(Truncate(s, maxLength), s, maxLength)
  {
  }

  /** The untruncated name getLIName reads: artist, then song, then album; else it throws. */
  function ItemName(data: Item): (r: Result<string>)
    ensures r.Err? ==> r.message == "getLIName failed."
  {
    match data
    case Text(s) => Ok(s)
    case Obj(p) =>
      if p.artistId.Some? && p.name.Some? then Ok(p.name.value)
      else if p.songId.Some? && p.title.Some? then Ok(p.title.value)
      else if p.albumId.Some? && p.name.Some? then Ok(p.name.value)
      else Err("getLIName failed.")
  }

  /** getLIName: `result` is assigned by the shape checks, then shortened. */
  method GetLIName(data: Item, maxLength: int) returns (r: Result<string>)
    ensures r.Ok? <==> ItemName(data).Ok?
    ensures r.Ok? ==> r.value == Truncate(ItemName(data).value, maxLength)
    ensures r.Err? ==> r.message == "getLIName failed."
  {
    var result: string;
    match data {
      case Text(s) =>
        result := s;
      case Obj(p) =>
        if p.artistId.Some? && p.name.Some? {
          result := p.name.value;
        } else if p.songId.Some? && p.title.Some? {
          result := p.title.value;
        } else if p.albumId.Some? && p.name.Some? {
          result := p.name.value;
        } else {
          return Err("getLIName failed.");
        }
    }
    if |result| > maxLength {
      result := result[..(if maxLength < 3 then 0 else maxLength - 3)] + "...";
    }
    r := Ok(result);
  }

  /**
   * The shape checks of getLIName on the records of the model: an artist gives its name, a
   * song its title, an album its name, a bare string itself; a genre record, a user and a
   * playlist throw. The artist test comes first, so an object that also looks like a song
   * is named as an artist.
   */
  lemma ItemNameOfRecords(a: Artist, s: Song, al: Album, u: User, pl: Playlist, g: string,
                          id: string)
    ensures ItemName(ArtistItem(a)) == Ok(a.name)
    ensures ItemName(SongItem(s)) == Ok(s.title)
    ensures ItemName(AlbumItem(al)) == Ok(al.name)
    ensures ItemName(Text(g)) == Ok(g)
    ensures ItemName(GenreRecordItem(id)).Err? && ItemName(UserItem(u)).Err?
    ensures ItemName(PlaylistItem(pl)).Err?
    ensures ItemName(Obj(ArtistItem(a).props.(songId := Some(s.songId), title := Some(s.title))))
            == Ok(a.name)
  {
  }

  /** `artists.map(e => e.name or '').join(', ')`. */
  function ArtistNames(artists: seq<Item>): (r: seq<string>)
    ensures |r| == |artists|
    ensures forall i :: 0 <= i < |artists| ==>
      r[i] == if artists[i].Obj? && artists[i].props.name.Some? then artists[i].props.name.value else ""
  {
    if artists == [] then []
    else [if artists[0].Obj? && artists[0].props.name.Some? then artists[0].props.name.value else ""]
         + ArtistNames(artists[1..])
  }

  /** `parts.join(sep)`. */
  function Join(parts: seq<string>, sep: string): string {
    if parts == [] then "" else if |parts| == 1 then parts[0] else parts[0] + sep + Join(parts[1..], sep)
  }

  /**
   * getLIDescription: an artist's first genre, or the joined artist names of a song or
   * album, shortened; the empty string for anything else.
   */
  function GetLIDescription(data: Item, maxLength: int): (r: string)
    ensures data.Text? ==> r == ""
    ensures maxLength >= 3 ==> |r| <= maxLength
  {
    match data
    case Text(_) => ""
    case Obj(p) =>
      if p.artistId.Some? && p.genres.Some? then
        if |p.genres.value| > 0 then Truncate(p.genres.value[0], maxLength) else ""
      else if (p.songId.Some? || p.albumId.Some?) && p.artists.Some? then
        Truncate(Join(ArtistNames(p.artists.value), ", "), maxLength)
      else ""
  }

  /**
   * With maxLength >= 3: an artist's description is its first genre shortened, or "" when it
   * has no genres; a song's and an album's are their artists' names joined by ", ",
   * shortened; a user, a playlist and a bare string get "".
   */
  lemma DescriptionSpec(a: Artist, s: Song, al: Album, u: User, pl: Playlist, g: string,
                        maxLength: int)
    requires maxLength >= 3
    ensures a.genres.Some? && |a.genres.value| > 0 ==>
      Shortened(GetLIDescription(ArtistItem(a), maxLength), a.genres.value[0], maxLength)
    ensures a.genres.None? || a.genres == Some([]) ==> GetLIDescription(ArtistItem(a), maxLength) == ""
    ensures Shortened(GetLIDescription(SongItem(s), maxLength),
                      Join(ArtistNames(ArtistItems(s.artists)), ", "), maxLength)
    ensures Shortened(GetLIDescription(AlbumItem(al), maxLength),
                      Join(ArtistNames(ArtistItems(al.artists)), ", "), maxLength)
    ensures GetLIDescription(UserItem(u), maxLength) == "" &&
            GetLIDescription(PlaylistItem(pl), maxLength) == "" &&
            GetLIDescription(Text(g), maxLength) == ""
  {
    if a.genres.Some? && |a.genres.value| > 0 {
      TruncateSpec(a.genres.value[0], maxLength);
    }
    TruncateSpec(Join(ArtistNames(ArtistItems(s.artists)), ", "), maxLength);
    TruncateSpec(Join(ArtistNames(ArtistItems(al.artists)), ", "), maxLength);
  }

  /** `toUpperCase` on one character; only the ASCII letters a-z are mapped. */
  function UpperCase(c: char): (r: char)
    ensures 'a' <= c <= 'z' ==> 'A' <= r <= 'Z'
    ensures !('a' <= c <= 'z') ==> r == c
  {
    if 'a' <= c <= 'z' then (c as int - 32) as char else c
  }

  /** capitalize: the first character upper-cased, the rest unchanged, the same length. */
  function Capitalize(input: string): (r: string)
    ensures |r| == |input|
    ensures input != [] ==> r[0] == UpperCase(input[0]) && r[1..] == input[1..]
  {
    if |input| == 0 then input else [UpperCase(input[0])] + input[1..]
  }

  /** Capitalising twice changes nothing more. */
  lemma CapitalizeIdempotent(input: string)
    ensures Capitalize(Capitalize(input)) == Capitalize(input)
  {
    if input != [] {
      var c := input[0];
      assert UpperCase(UpperCase(c)) == UpperCase(c);
    }
  }

  /** JavaScript's `%`: the remainder takes the sign of the dividend. */
  function JsRem(n: int, d: int): int
    requires d > 0
  {
    if n >= 0 then n % d else -((-n) % d)
  }

  /** getOrdinalSuffix. */
  function GetOrdinalSuffix(number: int): (r: string)
    ensures r == "th" || r == "st" || r == "nd" || r == "rd"
    ensures r != "th" ==> 1 <= JsRem(number, 10) <= 3
  {
    var suffixes := ["th", "st", "nd", "rd"];
    var lastDigit := JsRem(number, 10);
    var lastTwoDigits := JsRem(number, 100);
    if 11 <= lastTwoDigits <= 13 then "th"
    else if 0 <= lastDigit < |suffixes| then suffixes[lastDigit]
    else "th"
  }

  /**
   * For n >= 0 the suffix is "th" when n mod 100 is 11 to 13, else "st", "nd", "rd" for a last
   * digit of 1, 2, 3, else "th".
   */
  lemma OrdinalSuffixSpec(n: int)
    requires n >= 0
    ensures GetOrdinalSuffix(n) ==
      if 11 <= n % 100 <= 13 then "th"
      else if n % 10 == 1 then "st" else if n % 10 == 2 then "nd" else if n % 10 == 3 then "rd"
      else "th"
  {
    assert JsRem(n, 10) == n % 10 && JsRem(n, 100) == n % 100;
  }

  /** For n >= 0 the suffix depends only on n mod 100. */
  lemma OrdinalSuffixPeriodic(n: int)
    requires n >= 0
    ensures GetOrdinalSuffix(n) == GetOrdinalSuffix(n % 100)
  {
    var m := n % 100;
    assert m % 100 == m;
    assert m % 10 == n % 10;
    OrdinalSuffixSpec(n);
    OrdinalSuffixSpec(m);
  }

  /** A negative number always gets "th": its JavaScript remainders are not positive. */
  lemma OrdinalSuffixNegative(n: int)
    requires n < 0
    ensures GetOrdinalSuffix(n) == "th"
  {
    assert JsRem(n, 10) <= 0 && JsRem(n, 100) <= 0;
  }

  /** getItemType: the first own property among the ids decides; any other object throws. */
  function GetItemType(item: Item): (r: Result<string>)
    ensures r.Err? <==> item.Obj? && item.props.artistId.None? && item.props.songId.None? &&
                        item.props.albumId.None? && item.props.playlistId.None? &&
                        item.props.userId.None?
    ensures r.Err? ==> r.message == "Unknown item submitted to getItemType."
  {
    match item
    case Text(_) => Ok("genres")
    case Obj(p) =>
      if p.artistId.Some? then Ok("artists")
      else if p.songId.Some? then Ok("songs")
      else if p.albumId.Some? then Ok("albums")
      else if p.playlistId.Some? then Ok("playlists")
      else if p.userId.Some? then Ok("users")
      else Err("Unknown item submitted to getItemType.")
  }

  /** The records of the model are typed as the list they belong to; a genre record throws. */
  lemma ItemTypeOfRecords(a: Artist, s: Song, al: Album, u: User, pl: Playlist, g: string,
                          id: string)
    ensures GetItemType(ArtistItem(a)) == Ok("artists")
    ensures GetItemType(SongItem(s)) == Ok("songs")
    ensures GetItemType(AlbumItem(al)) == Ok("albums")
    ensures GetItemType(PlaylistItem(pl)) == Ok("playlists")
    ensures GetItemType(UserItem(u)) == Ok("users")
    ensures GetItemType(Text(g)) == Ok("genres")
    ensures GetItemType(GenreRecordItem(id)).Err?
  {
  }

  /** The artist lists the genre (an artist without genres relates to none). */
  predicate HasGenre(a: Artist, genre: string) {
    a.genres.Some? && genre in a.genres.value
  }

  /** getGenresRelatedArtists: the artists listing the genre, in their original order. */
  function GetGenresRelatedArtists(genre: string, artists: seq<Artist>): (r: seq<Artist>)
    ensures forall a :: a in r <==> a in artists && HasGenre(a, genre)
  {
    if artists == [] then []
    else
      (if HasGenre(artists[0], genre) then [artists[0]] else [])
      + GetGenresRelatedArtists(genre, artists[1..])
  }

  /** Each artist listing the genre is kept as often as it occurs; any other is dropped. */
  lemma {:induction false} RelatedArtistsCount(genre: string, artists: seq<Artist>, a: Artist)
    ensures multiset(GetGenresRelatedArtists(genre, artists))[a] ==
      if HasGenre(a, genre) then multiset(artists)[a] else 0
    decreases |artists|
  {
    if artists != [] {
      var rest := artists[1..];
      var head := if HasGenre(artists[0], genre) then [artists[0]] else [];
      RelatedArtistsCount(genre, rest, a);
      assert artists == [artists[0]] + rest;
      assert GetGenresRelatedArtists(genre, artists) == head + GetGenresRelatedArtists(genre, rest);
    }
  }

  /** Filtering distributes over concatenation, so the related artists keep their order. */
  lemma {:induction false} RelatedArtistsAppend(genre: string, xs: seq<Artist>, ys: seq<Artist>)
    ensures GetGenresRelatedArtists(genre, xs + ys) ==
            GetGenresRelatedArtists(genre, xs) + GetGenresRelatedArtists(genre, ys)
    decreases |xs|
  {
    if xs != [] {
      var head := if HasGenre(xs[0], genre) then [xs[0]] else [];
      assert (xs + ys)[0] == xs[0] && (xs + ys)[1..] == xs[1..] + ys;
      RelatedArtistsAppend(genre, xs[1..], ys);
      assert GetGenresRelatedArtists(genre, xs + ys) == head + GetGenresRelatedArtists(genre, xs[1..] + ys);
      assert GetGenresRelatedArtists(genre, xs) == head + GetGenresRelatedArtists(genre, xs[1..]);
    } else {
      assert xs + ys == ys;
    }
  }

  /** `song.artists.flatMap(artist => artist.genres || [])`. */
  function AllGenres(artists: seq<Artist>): seq<string> {
    if artists == [] then [] else artists[0].genres.GetOr([]) + AllGenres(artists[1..])
  }

  /** `keys.reduce((a, b) => counts[a] > counts[b] ? a : b)`: a tie keeps `b`. */
  function Fittest(keys: seq<string>, all: seq<string>): string
    requires |keys| > 0
    decreases |keys|
  {
    if |keys| == 1 then keys[0]
    else
      var a := Fittest(keys[..|keys| - 1], all);
      var b := keys[|keys| - 1];
      if Count(all, a) > Count(all, b) then a else b
  }

  /** The reduce returns one of the keys. */
  lemma {:induction false} FittestIn(keys: seq<string>, all: seq<string>)
    requires |keys| > 0
    ensures Fittest(keys, all) in keys
    decreases |keys|
  {
    if |keys| > 1 {
      var p := keys[..|keys| - 1];
      FittestIn(p, all);
      assert Fittest(p, all) in keys;
      assert keys[|keys| - 1] in keys;
    }
  }

  /**
   * Position i of keys holds a key of maximal count, and every key after it counts strictly
   * less.
   */
  predicate LastFittest(keys: seq<string>, all: seq<string>, i: int) {
    0 <= i < |keys| &&
    (forall k :: 0 <= k < |keys| ==> Count(all, keys[k]) <= Count(all, keys[i])) &&
    (forall j :: i < j < |keys| ==> Count(all, keys[j]) < Count(all, keys[i]))
  }

  /** The position of the key the reduce returns. */
  lemma {:induction false} FittestPosition(keys: seq<string>, all: seq<string>) returns (i: int)
    requires |keys| > 0
    ensures LastFittest(keys, all, i) && keys[i] == Fittest(keys, all)
    decreases |keys|
  {
    var n := |keys|;
    if n == 1 {
      i := 0;
    } else {
      var p := keys[..n - 1];
      var last := keys[n - 1];
      var k := FittestPosition(p, all);
      var best := Count(all, p[k]);
      assert Fittest(keys, all) == if best > Count(all, last) then p[k] else last;
      forall j | 0 <= j < n - 1 ensures Count(all, keys[j]) <= best {
        assert keys[j] == p[j];
      }
      if best > Count(all, last) {
        i := k;
        forall j | k < j < n ensures Count(all, keys[j]) < best {
          if j < n - 1 {
            assert keys[j] == p[j];
          }
        }
      } else {
        i := n - 1;
      }
    }
  }

  /** The reduce returns the last key of maximal count. */
  lemma FittestSpec(keys: seq<string>, all: seq<string>)
    requires |keys| > 0
    ensures exists i :: LastFittest(keys, all, i) && keys[i] == Fittest(keys, all)
  {
    var i := FittestPosition(keys, all);
  }

  /** getMostFittingGenre. */
  function GetMostFittingGenre(song: Song): (r: string)
    ensures AllGenres(song.artists) == [] ==> r == "obscure"
    ensures AllGenres(song.artists) != [] ==> r in AllGenres(song.artists)
  {
    var all := AllGenres(song.artists);
    if |all| == 0 then "obscure"
    else
      assert all[0] in Distinct(all);
      FittestIn(Distinct(all), all);
      Fittest(Distinct(all), all)
  }

  /**
   * With no genre among the song's artists the answer is "obscure"; otherwise it is a genre
   * of maximal count and, among genres tied at that count, the one that first appears last.
   */
  lemma MostFittingGenreSpec(song: Song)
    ensures var all := AllGenres(song.artists);
      var r := GetMostFittingGenre(song);
      (|all| == 0 ==> r == "obscure") &&
      (|all| > 0 ==>
         r in all &&
         (forall g :: g in all ==> Count(all, g) <= Count(all, r)) &&
         (forall g :: g in all && Count(all, g) == Count(all, r) ==> IndexOf(all, g) <= IndexOf(all, r)))
  {
    var all := AllGenres(song.artists);
    if |all| > 0 {
      var keys := Distinct(all);
      assert all[0] in keys;
      var i := FittestPosition(keys, all);
      forall g | g in all && Count(all, g) == Count(all, keys[i])
        ensures IndexOf(all, g) <= IndexOf(all, keys[i])
      {
        assert g in keys;
        var j := IndexOf(keys, g);
        assert j <= i;
        if j < i {
          DistinctOrder(all, j, i);
        }
      }
    }
  }
}
