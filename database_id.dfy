/** retrieveDatabaseID (src/functions/database_functions/utilities.ts): the id a record is stored under. */
module DatabaseId {
  import opened Wrappers
  import opened Records
  import opened Utilities

  const UnknownType := "Unknown type seen in retrieveDatabaseID."

  /**
   * A song is stored under the hash of its Spotify id, an artist likewise, and a user under
   * its existing record id; the checks run in that order, and anything else throws. A user's
   * `id` may itself be undefined, hence the Option.
   */
  function RetrieveDatabaseId(item: Props): (r: Result<Option<string>>)
    ensures item.songId.Some? ==> r == Ok(Some(HashOf(item.songId.value)))
    ensures item.songId.None? && item.artistId.Some? ==> r == Ok(Some(HashOf(item.artistId.value)))
    ensures item.songId.None? && item.artistId.None? && item.userId.Some? ==> r == Ok(item.id)
    ensures r.Err? <==> item.songId.None? && item.artistId.None? && item.userId.None?
    ensures r.Err? ==> r.message == UnknownType
  {
    if item.songId.Some? then Ok(Some(HashOf(item.songId.value)))
    else if item.artistId.Some? then Ok(Some(HashOf(item.artistId.value)))
    else if item.userId.Some? then Ok(item.id)
    else Err(UnknownType)
  }

  /**
   * Since the hash is constant, every song and every artist is given the same id, sixteen
   * zeros, whatever its Spotify id; a user keeps its own.
   */
  lemma DatabaseIdsOfRecords(s: Song, a: Artist, u: User)
    ensures RetrieveDatabaseId(SongItem(s).props) == Ok(Some("0000000000000000"))
    ensures RetrieveDatabaseId(ArtistItem(a).props) == Ok(Some("0000000000000000"))
    ensures RetrieveDatabaseId(UserItem(u).props) == Ok(u.id)
  {
    HashIsConstant(s.songId);
    HashIsConstant(a.artistId);
  }
}
