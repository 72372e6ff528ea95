/**
 * The records the analysis works on (the shapes declared under src/interfaces), and a model of the
 * dynamically shaped JavaScript values that the shape-probing helpers inspect.
 */
module Records {
  import opened Wrappers

  /** The time window of a listening snapshot. */
  datatype Term = ShortTerm | MediumTerm | LongTerm

  /** The list a ranked operation looks at: `top_artists`, `top_songs` or `top_genres`. */
  datatype Kind = Artists | Songs | Genres

  /** One value of an audio-feature record: a number or a text field such as `analysis_url`. */
  datatype Field = Num(x: real) | Str(s: string)

  /**
   * An audio-feature record as its `for..in` order presents it: (key, value) pairs in
   * insertion order. Numbers are modelled as exact reals.
   */
  type Analytics = seq<(string, Field)>

  /** `analytics[key]`: the value of the first pair with that key, if any. */
  function Lookup(a: Analytics, key: string): (r: Option<Field>)
    ensures r.Some? <==> exists i :: 0 <= i < |a| && a[i].0 == key
  {
    if a == [] then None
    else if a[0].0 == key then Some(a[0].1)
    else Lookup(a[1..], key)
  }

  /** In a record whose keys are distinct, the value under the key at position j is the j-th value. */
  lemma LookupDistinct(a: Analytics, j: int)
    requires 0 <= j < |a|
    requires forall i, k :: 0 <= i < k < |a| ==> a[i].0 != a[k].0
    ensures Lookup(a, a[j].0) == Some(a[j].1)
  {
    if j > 0 {
      LookupDistinct(a[1..], j - 1);
    }
  }

  /** The key is present and holds a number. */
  predicate HasNumber(a: Analytics, key: string) {
    Lookup(a, key).Some? && Lookup(a, key).value.Num?
  }

  /** The keys of the record, in order. */
  function Keys(a: Analytics): (r: seq<string>)
    ensures |r| == |a| && forall i :: 0 <= i < |a| ==> r[i] == a[i].0
  {
    if a == [] then [] else [a[0].0] + Keys(a[1..])
  }

  datatype Artist = Artist(artistId: string, name: string, image: Option<string>, link: string,
                           genres: Option<seq<string>>)

  /** `analytics` is None when the property is absent or null. */
  datatype Song = Song(songId: string, title: string, artists: seq<Artist>, link: string,
                       image: Option<string>, analytics: Option<Analytics>)

  datatype Album = Album(albumId: string, name: string, artists: seq<Artist>, image: Option<string>,
                         link: string, savedSongs: Option<seq<Song>>, tracks: Option<seq<Song>>)

  /** `id` is the database record id, absent on a freshly formatted API user. */
  datatype User = User(id: Option<string>, userId: string, username: string,
                       profilePicture: Option<string>)

  datatype Playlist = Playlist(playlistId: string, image: Option<string>, name: string,
                               description: string, tracks: Option<seq<Song>>, link: string,
                               followers: Option<int>, owner: User)

  /** A genre database record. */
  datatype Genre = Genre(id: string, genre: string)

  /** A ranked snapshot: index 0 is the most listened to. */
  datatype Datapoint = Datapoint(term: Term, topSongs: seq<Song>, topArtists: seq<Artist>,
                                 topGenres: seq<string>)

  /**
   * The properties of a JavaScript object that the shape checks look at; None means the
   * property is absent (`"artist_id" in data` is false).
   */
  datatype Props = Props(id: Option<string>, artistId: Option<string>, songId: Option<string>,
                         albumId: Option<string>, playlistId: Option<string>,
                         userId: Option<string>, name: Option<string>, title: Option<string>,
                         genres: Option<seq<string>>, artists: Option<seq<Item>>)

  /** A value handed to a shape-probing helper: a bare string (a genre) or an object. */
  datatype Item = Text(text: string) | Obj(props: Props)

  const NoProps := Props(None, None, None, None, None, None, None, None, None, None)

  function ArtistItem(a: Artist): Item {
    Obj(NoProps.(artistId := Some(a.artistId), name := Some(a.name), genres := a.genres))
  }

  function ArtistItems(s: seq<Artist>): (r: seq<Item>)
    ensures |r| == |s| && forall i :: 0 <= i < |s| ==> r[i] == ArtistItem(s[i])
  {
    if s == [] then [] else [ArtistItem(s[0])] + ArtistItems(s[1..])
  }

  function SongItems(s: seq<Song>): (r: seq<Item>)
    ensures |r| == |s| && forall i :: 0 <= i < |s| ==> r[i] == SongItem(s[i])
  {
    if s == [] then [] else [SongItem(s[0])] + SongItems(s[1..])
  }

  /** Bare genre strings, as `top_genres` holds them. */
  function GenreItems(s: seq<string>): (r: seq<Item>)
    ensures |r| == |s| && forall i :: 0 <= i < |s| ==> r[i] == Text(s[i])
  {
    if s == [] then [] else [Text(s[0])] + GenreItems(s[1..])
  }

  /** The ids of a list of artists. */
  function ArtistIds(artists: seq<Artist>): (r: seq<string>)
    ensures |r| == |artists| && forall i :: 0 <= i < |artists| ==> r[i] == artists[i].artistId
  {
    if artists == [] then [] else [artists[0].artistId] + ArtistIds(artists[1..])
  }

  /** The ids of a list of songs. */
  function SongIds(songs: seq<Song>): (r: seq<string>)
    ensures |r| == |songs| && forall i :: 0 <= i < |songs| ==> r[i] == songs[i].songId
  {
    if songs == [] then [] else [songs[0].songId] + SongIds(songs[1..])
  }

  function SongItem(s: Song): Item {
    Obj(NoProps.(songId := Some(s.songId), title := Some(s.title),
                 artists := Some(ArtistItems(s.artists))))
  }

  function AlbumItem(a: Album): Item {
    Obj(NoProps.(albumId := Some(a.albumId), name := Some(a.name),
                 artists := Some(ArtistItems(a.artists))))
  }

  function UserItem(u: User): Item {
    Obj(NoProps.(id := u.id, userId := Some(u.userId)))
  }

  function PlaylistItem(p: Playlist): Item {
    Obj(NoProps.(playlistId := Some(p.playlistId), name := Some(p.name)))
  }

  /** A genre database record (`{id, genre}`) has none of the probed properties. */
  function GenreRecordItem(id: string): Item {
    Obj(NoProps.(id := Some(id)))
  }
}
