/**
 * DBCache (src/database_functions/cache.ts): an in-memory copy of the song, artist and genre
 * collections that callers append to.
 */
module Cache {
  import opened Records
  import opened Seqs

  class DBCache {
    var songs: seq<Song>
    var artists: seq<Artist>
    var genres: seq<Genre>

    /** The cache as its fetch-based initialisation leaves it: the three lists as given. */
    constructor (songs: seq<Song>, artists: seq<Artist>, genres: seq<Genre>)
      ensures this.songs == songs && this.artists == artists && this.genres == genres
    {
      this.songs := songs;
      this.artists := artists;
      this.genres := genres;
    }

    method AddSong(song: Song)
      modifies this
      ensures songs == old(songs) + [song]
      ensures artists == old(artists) && genres == old(genres)
    {
      songs := songs + [song];
    }

    method AddSongs(newSongs: seq<Song>)
      modifies this
      ensures songs == old(songs) + newSongs
      ensures artists == old(artists) && genres == old(genres)
    {
      songs := songs + newSongs;
    }

    method AddArtist(artist: Artist)
      modifies this
      ensures artists == old(artists) + [artist]
      ensures songs == old(songs) && genres == old(genres)
    {
      artists := artists + [artist];
    }

    method AddArtists(newArtists: seq<Artist>)
      modifies this
      ensures artists == old(artists) + newArtists
      ensures songs == old(songs) && genres == old(genres)
    {
      artists := artists + newArtists;
    }

    method AddGenre(genre: Genre)
      modifies this
      ensures genres == old(genres) + [genre]
      ensures songs == old(songs) && artists == old(artists)
    {
      genres := genres + [genre];
    }

    method AddGenres(newGenres: seq<Genre>)
      modifies this
      ensures genres == old(genres) + newGenres
      ensures songs == old(songs) && artists == old(artists)
    {
      genres := genres + newGenres;
    }
  }

  /**
   * Appending never deduplicates: every added record is counted once more, so adding the
   * same record twice leaves two more copies of it.
   */
  lemma {:induction false} AppendCounts<T>(xs: seq<T>, added: seq<T>, x: T)
    ensures Count(xs + added, x) == Count(xs, x) + Count(added, x)
    decreases |added|
  {
    if added == [] {
      assert xs + added == xs;
    } else {
      var p := added[..|added| - 1];
      assert (xs + added)[..|xs + added| - 1] == xs + p;
      AppendCounts(xs, p, x);
    }
  }

  /** Adding one record twice, one call after the other, adds two entries for it. */
  lemma AddedTwice<T>(xs: seq<T>, x: T)
    ensures Count(xs + [x] + [x], x) == Count(xs, x) + 2
    ensures |xs + [x] + [x]| == |xs| + 2
  {
    AppendCounts(xs, [x, x], x);
    assert xs + [x] + [x] == xs + [x, x];
    assert [x, x][..1] == [x];
  }

  /** Calling AddSong twice with the same song leaves two more entries of it in the cache. */
  method AddSongTwice(c: DBCache, song: Song)
    modifies c
    ensures Count(c.songs, song) == Count(old(c.songs), song) + 2
    ensures |c.songs| == |old(c.songs)| + 2
    ensures c.artists == old(c.artists) && c.genres == old(c.genres)
  {
    c.AddSong(song);
    c.AddSong(song);
    AddedTwice(old(c.songs), song);
  }
}
