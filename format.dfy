/**
 * The formatters of src/functions/database_functions/format.ts: Spotify API objects become
 * the application's records, and a fetched datapoint has its relation expansions flattened
 * in place.
 */
module Format {
  import opened Wrappers
  import opened Records

  // ---------------------------------------------------------------------------------------
  // Spotify API objects (the properties the formatters read)
  // ---------------------------------------------------------------------------------------

  datatype ApiImage = ApiImage(url: string)

  /** `images` is None when the property is absent; `genres` when the artist is a simplified one. */
  datatype ApiArtist = ApiArtist(id: string, name: string, images: Option<seq<ApiImage>>,
                                 genres: Option<seq<string>>)

  /** `albumImages` is `song.album.images`; `spotifyUrl` is `external_urls.spotify`. */
  datatype ApiSong = ApiSong(id: string, name: string, artists: seq<ApiArtist>,
                             albumImages: Option<seq<ApiImage>>, spotifyUrl: string)

  datatype ApiAlbum = ApiAlbum(id: string, name: string, images: Option<seq<ApiImage>>,
                               artists: seq<ApiArtist>, spotifyUrl: string,
                               savedSongs: Option<seq<Song>>, tracks: Option<seq<Song>>)

  datatype ApiUser = ApiUser(id: string, displayName: string, images: Option<seq<ApiImage>>)

  /** `followers` is `followers.total`, None when `followers` is absent. */
  datatype ApiPlaylist = ApiPlaylist(id: string, images: Option<seq<ApiImage>>, name: string,
                                     description: string, tracks: Option<seq<Song>>,
                                     spotifyUrl: string, followers: Option<int>, owner: ApiUser)

  /** The image rule: the url of entry k when the list exists and has that entry, else null. */
  predicate ImageRule(images: Option<seq<ApiImage>>, k: nat, image: Option<string>) {
    (image.Some? <==> images.Some? && k < |images.value|) &&
    (image.Some? ==> image.value == images.value[k].url)
  }

  // ---------------------------------------------------------------------------------------
  // The formatters
  // ---------------------------------------------------------------------------------------

  const ArtistLinkPrefix: string := "https://open.spotify.com/artist/"

  /** formatArtist. */
  function FormatArtist(artist: ApiArtist): (r: Artist)
    ensures r.artistId == artist.id && r.name == artist.name && r.genres == artist.genres
    ensures ImageRule(artist.images, 1, r.image)
  {
    var image := if artist.images.Some? && |artist.images.value| > 1
                 then Some(artist.images.value[1].url) else None;
    Artist(artist.id, artist.name, image, ArtistLinkPrefix + artist.id, artist.genres)
  }

  /** The artist id a formatted artist's link names, if it is a Spotify artist link. */
  function ArtistIdOfLink(link: string): (r: Option<string>)
    ensures r.Some? ==> link == ArtistLinkPrefix + r.value
  {
    if |link| >= |ArtistLinkPrefix| && link[..|ArtistLinkPrefix|] == ArtistLinkPrefix
    then (assert link == ArtistLinkPrefix + link[|ArtistLinkPrefix|..]; Some(link[|ArtistLinkPrefix|..]))
    else None
  }

  /** The link of a formatted artist gives back its id. */
  lemma ArtistLinkRoundTrip(artist: ApiArtist)
    ensures ArtistIdOfLink(FormatArtist(artist).link) == Some(artist.id)
  {
    var link := FormatArtist(artist).link;
    assert link[..|ArtistLinkPrefix|] == ArtistLinkPrefix;
    assert link[|ArtistLinkPrefix|..] == artist.id;
  }

  /** `artists.map(a => formatArtist(a))`. */
  function FormatArtists(artists: seq<ApiArtist>): (r: seq<Artist>)
    ensures |r| == |artists| && forall i :: 0 <= i < |artists| ==> r[i] == FormatArtist(artists[i])
  {
    if artists == [] then [] else [FormatArtist(artists[0])] + FormatArtists(artists[1..])
  }

  /** `images[k].url`, which throws a TypeError when entry k is missing. */
  function ImageAt(images: seq<ApiImage>, k: nat): Result<string> {
    if k < |images| then Ok(images[k].url) else Err("TypeError: images[k] is undefined")
  }

  /** formatSong: the image is read inside try/catch, so a missing entry leaves null. */
  function FormatSong(song: ApiSong): (r: Song)
    ensures r.songId == song.id && r.title == song.name && r.link == song.spotifyUrl
    ensures r.artists == FormatArtists(song.artists)
    ensures ImageRule(song.albumImages, 1, r.image)
    ensures r.analytics == None
  {
    var image := if song.albumImages.Some? then
                   match ImageAt(song.albumImages.value, 1)
                   case Ok(url) => Some(url)
                   case Err(_) => None
                 else None;
    Song(song.id, song.name, FormatArtists(song.artists), song.spotifyUrl, image, None)
  }

  /** formatUser: the profile picture is the first image when there is one. */
  function FormatUser(user: ApiUser): (r: User)
    ensures r.userId == user.id && r.username == user.displayName && r.id == None
    ensures ImageRule(user.images, 0, r.profilePicture)
  {
    var pfp := if user.images.Some? && |user.images.value| > 0 then Some(user.images.value[0].url) else None;
    User(None, user.id, user.displayName, pfp)
  }

  /** formatAlbum. */
  function FormatAlbum(album: ApiAlbum): (r: Album)
    ensures r.albumId == album.id && r.name == album.name && r.link == album.spotifyUrl
    ensures r.artists == FormatArtists(album.artists)
    ensures ImageRule(album.images, 1, r.image)
    ensures r.savedSongs == album.savedSongs && r.tracks == album.tracks
  {
    var image := if album.images.Some? && |album.images.value| > 1
                 then Some(album.images.value[1].url) else None;
    Album(album.id, album.name, FormatArtists(album.artists), image, album.spotifyUrl,
          album.savedSongs, album.tracks)
  }

  /** formatPlaylist: `tracks` is copied when it is an own property and set to undefined otherwise. */
  function FormatPlaylist(playlist: ApiPlaylist): (r: Playlist)
    ensures r.playlistId == playlist.id && r.name == playlist.name && r.link == playlist.spotifyUrl
    ensures r.description == playlist.description && r.followers == playlist.followers
    ensures ImageRule(playlist.images, 0, r.image)
    ensures r.tracks == playlist.tracks
    ensures r.owner == FormatUser(playlist.owner)
  {
    var image := if playlist.images.Some? && |playlist.images.value| > 0
                 then Some(playlist.images.value[0].url) else None;
    var tracks := if playlist.tracks.Some? then playlist.tracks else None;
    Playlist(playlist.id, image, playlist.name, playlist.description, tracks,
             playlist.spotifyUrl, playlist.followers, FormatUser(playlist.owner))
  }

  // ---------------------------------------------------------------------------------------
  // formatDatapoint
  // ---------------------------------------------------------------------------------------

  /** A database artist with its `expand.genres` relation (None when the relation is absent). */
  datatype RawArtist = RawArtist(artistId: string, name: string, image: Option<string>,
                                 link: string, genres: Option<seq<Genre>>)

  /** A database song with its `expand.artists` relation. */
  datatype RawSong = RawSong(songId: string, title: string, link: string, image: Option<string>,
                             analytics: Option<Analytics>, artists: seq<RawArtist>)

  /** The `expand` of a fetched datapoint. */
  datatype Expansion = Expansion(topArtists: seq<RawArtist>, topSongs: seq<RawSong>,
                                 topGenres: seq<Genre>)

  /** A relation field: record ids as stored, or the records themselves once expanded. */
  datatype Relation<T> = Ids(ids: seq<string>) | Expanded(records: seq<T>)

  /** `genres.map(g => g.genre)`. */
  function GenreStrings(genres: seq<Genre>): (r: seq<string>)
    ensures |r| == |genres| && forall i :: 0 <= i < |genres| ==> r[i] == genres[i].genre
  {
    if genres == [] then [] else [genres[0].genre] + GenreStrings(genres[1..])
  }

  /** An artist after `genres = expand.genres?.map(...)` and `delete expand`. */
  function FlattenArtist(a: RawArtist): (r: Artist)
    ensures r.artistId == a.artistId && r.name == a.name && r.image == a.image && r.link == a.link
    ensures r.genres.Some? <==> a.genres.Some?
    ensures r.genres.Some? ==> r.genres.value == GenreStrings(a.genres.value)
  {
    Artist(a.artistId, a.name, a.image, a.link,
           if a.genres.Some? then Some(GenreStrings(a.genres.value)) else None)
  }

  function FlattenArtists(artists: seq<RawArtist>): (r: seq<Artist>)
    ensures |r| == |artists| && forall i :: 0 <= i < |artists| ==> r[i] == FlattenArtist(artists[i])
  {
    if artists == [] then [] else [FlattenArtist(artists[0])] + FlattenArtists(artists[1..])
  }

  /** A song after `artists = expand.artists`, its artists flattened, and `delete expand`. */
  function FlattenSong(s: RawSong): (r: Song)
    ensures r.songId == s.songId && r.title == s.title && r.link == s.link && r.image == s.image
    ensures r.analytics == s.analytics
    ensures r.artists == FlattenArtists(s.artists)
  {
    Song(s.songId, s.title, FlattenArtists(s.artists), s.link, s.image, s.analytics)
  }

  function FlattenSongs(songs: seq<RawSong>): (r: seq<Song>)
    ensures |r| == |songs| && forall i :: 0 <= i < |songs| ==> r[i] == FlattenSong(songs[i])
  {
    if songs == [] then [] else [FlattenSong(songs[0])] + FlattenSongs(songs[1..])
  }

  /** A datapoint record as fetched, before and after formatting. */
  class DatapointRecord {
    var id: string
    var term: Term
    var topArtists: Relation<Artist>
    var topSongs: Relation<Song>
    var topGenres: seq<string>
    var expand: Option<Expansion>

    constructor (id: string, term: Term, artistIds: seq<string>, songIds: seq<string>,
                 genreIds: seq<string>, expand: Option<Expansion>)
      ensures this.id == id && this.term == term
      ensures topArtists == Ids(artistIds) && topSongs == Ids(songIds) && topGenres == genreIds
      ensures this.expand == expand
    {
      this.id := id;
      this.term := term;
      this.topArtists := Ids(artistIds);
      this.topSongs := Ids(songIds);
      this.topGenres := genreIds;
      this.expand := expand;
    }

    /** The record as the analysis reads it, once its relations are expanded. */
    function AsDatapoint(): (r: Option<Datapoint>)
      reads this
      ensures r.Some? <==> topArtists.Expanded? && topSongs.Expanded?
    {
      if topArtists.Expanded? && topSongs.Expanded?
      then Some(Datapoint(term, topSongs.records, topArtists.records, topGenres))
      else None
    }
  }

  /**
   * formatDatapoint: null or undefined gives null; otherwise the relation fields are replaced
   * by their expansions, nested genre relations are flattened to strings, every `expand` is
   * removed, and the same object is returned.
   */
  method FormatDatapoint(d: DatapointRecord?) returns (r: DatapointRecord?)
    requires d != null ==> d.expand.Some?
    modifies d
    ensures d == null ==> r == null
    ensures d != null ==> r == d
    ensures d != null ==>
      d.id == old(d.id) && d.term == old(d.term) &&
      d.topArtists == Expanded(FlattenArtists(old(d.expand).value.topArtists)) &&
      d.topSongs == Expanded(FlattenSongs(old(d.expand).value.topSongs)) &&
      d.topGenres == GenreStrings(old(d.expand).value.topGenres) &&
      d.expand == None
    ensures d != null ==> (d.AsDatapoint() ==
      Some(Datapoint(old(d.term), FlattenSongs(old(d.expand).value.topSongs),
                     FlattenArtists(old(d.expand).value.topArtists),
                     GenreStrings(old(d.expand).value.topGenres))))
  {
    if d == null {
      return null;
    }
    var e := d.expand.value;
    d.topArtists := Expanded(FlattenArtists(e.topArtists));
    d.topSongs := Expanded(FlattenSongs(e.topSongs));
    d.topGenres := GenreStrings(e.topGenres);
    d.expand := None;
    r := d;
  }
}
