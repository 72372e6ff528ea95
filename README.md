# Harked analysis core in Dafny

Harked is a Spotify listening-profile site. It keeps ranked snapshots ("datapoints") of a user's top artists, songs and genres for three time windows. From those it writes short analyses and compares users.

This project models the deterministic core of that system and proves properties about it:

- **List-item helpers.** Names, descriptions and truncation. The item-type probe, the ordinal suffix, capitalisation, the most fitting genre, and the artists related to a genre.
- **Audio-feature selection.** The largest feature, the most interesting one, the top N, and the averages over a list of songs.
- **The artist decision table.** It picks the first sentence of an artist's analysis from the artist's rank in the short, medium and long term. This module also covers the popularity-trend classification of a genre.
- **Snapshot comparisons.** Membership, matching items, index change, and the discrete parts of the similarity score.
- **The feature-label tables.**
- **Utilities.** The string hash that database ids are derived from, duration formatting, chunking, and index collection.
- **Genre ranking** from an ordered artist list.
- **Record formatting.** Spotify API objects become records, and a fetched datapoint's relations are flattened in place.
- **Database-id derivation.**
- **The append-only record cache.**

JavaScript semantics are written out where they matter:

- `for..in` order, and truthiness (`0`, `NaN`, `""` and `undefined` are false).
- The sign of `%`.
- `ToInt32` and the 32-bit `&` and `<<`.
- `Math.trunc` and `Math.round`.
- `0 / 0` is NaN.
- A comparison with `undefined` is false.

Numbers are exact reals or integers.

Two consequences of the code as written are proved rather than assumed:

- The hash mask `0xFFFFFFFFFFFFFFFF` is the double 2^64, which `ToInt32` turns into 0. So `hashString` in src/utility_functions/utilities.ts returns sixteen zeros for every input (`Utilities.HashIsConstant`).
- `retrieveDatabaseID` imports its `hashString` from `@/functions/utility_functions/utilities`. That file is not part of this model. The model assumes it is the same function as the one in src/utility_functions/utilities.ts. Under that assumption every song and every artist gets the same id (`DatabaseId.DatabaseIdsOfRecords`).
- src/analysis_functions/general.tsx imports `translateAnalytics` and `translateAnalyticsLow` from `@/analysis_functions/constants`. That file is not part of this model. The model assumes it holds the same tables as src/functions/analysis_functions/constants.ts. The labels of getMostInterestingAttribute, the keys averaged by getAverageAnalytics and, through those averages, the metric keys of calculateSimilarity all rest on that assumption.
- In the short-term artist table, one sentence can never be chosen (`Narrative.ShortTermDrawnIsDead`). One test compares the medium rank with `1`, and the model keeps that comparison as written (`Narrative.ShortTermComparesWithOne`).

Modules and files:

- `wrappers.dfy`: Option, Result, and a number-or-NaN Score.
- `records.dfy`: the record types, and a model of the dynamically shaped values the shape checks probe.
- `seqs.dfy`: `indexOf`, counts and first-appearance deduplication.
- `constants.dfy`: the feature tables.
- `features.dfy`: feature scans, picks and averages.
- `names.dfy`: list-item helpers.
- `narrative.dfy`: the artist table and the popularity trend.
- `comparisons.dfy`: the snapshot comparisons.
- `utilities.dfy`: the utilities.
- `top_genres.dfy`: the genre ranking.
- `format.dfy`: the formatters.
- `database_id.dfy`: the id derivation.
- `cache.dfy`: the cache.

## Model

| member | source | states |
|---|---|---|
| Records.Lookup | src/analysis_functions/general.tsx:598-600 | `analytics[key]` is defined exactly when some pair carries the key |
| Records.LookupDistinct | src/analysis_functions/general.tsx:598-600 | in a record with distinct keys, the key at position j reads back the j-th value |
| Records.Keys | src/analysis_functions/comparisons.ts:58 | the keys of a record in `for..in` order, one per pair |
| Seqs.IndexOf | src/analysis_functions/comparisons.ts:93 | `indexOf` is -1 exactly when the element is absent; otherwise it is the first position holding it |
| Seqs.Distinct | src/analysis_functions/general.tsx:178 | the distinct elements, each once, with the same membership |
| Seqs.DistinctOrder | src/analysis_functions/general.tsx:178 | the distinct elements come in increasing order of first appearance |
| Constants.HighLabel | src/functions/analysis_functions/constants.ts:1-11 | `translateAnalytics[key]` is defined exactly for the eight table keys |
| Constants.LowLabel | src/functions/analysis_functions/constants.ts:12-21 | `translateAnalyticsLow[key]` is defined exactly for the eight table keys |
| Constants.TablesShareKeys | src/functions/analysis_functions/constants.ts:1-21 | both tables have the same eight distinct keys: acousticness, danceability, energy, instrumentalness, liveness, loudness, valence, tempo |
| Constants.HighDiffersFromLow | src/functions/analysis_functions/constants.ts:1-21 | for every key the high name differs from the low name |
| Constants.HighNamesDistinct | src/functions/analysis_functions/constants.ts:1-10 | no two features of the high table share a name |
| Constants.LowNamesDistinct | src/functions/analysis_functions/constants.ts:12-21 | no two features of the low table share a name |
| Constants.MetricsAreTableKeys | src/functions/analysis_functions/constants.ts:23 | `analyticsMetrics` is the table keys minus liveness and loudness |
| Features.ScanMax | src/analysis_functions/general.tsx:67-84 | the max side of a scan bounds every eligible value; a key is recorded iff some eligible value exceeds MIN_SAFE_INTEGER, and it is the first key with the largest value |
| Features.ScanMin | src/analysis_functions/general.tsx:95-106 | the min side bounds every min-eligible value from below; a key is recorded iff some value is below MAX_SAFE_INTEGER, and it is the first smallest key |
| Features.ScanExtremes | src/analysis_functions/general.tsx:93-107 | the `for..in` loop computes the scan of the whole record |
| Features.GetMaxValueAttribute | src/analysis_functions/general.tsx:67-84 | the first key with the largest value outside key, mode, speechiness, duration_ms, time_signature and tempo, or "" when there is none |
| Features.GetMostInterestingAttribute | src/analysis_functions/general.tsx:86-119 | the loop yields the table label of the selected pick |
| Features.MostInterestingPickSpec | src/analysis_functions/general.tsx:86-119 | the high pick is the first largest eligible key. It is taken exactly when max is non-zero, max >= 1 - min or max > 0.7, and a max key exists. Otherwise the first smallest key (instrumentalness and liveness also skipped) is taken whenever it exists, so `min < 0.2` never decides. Null results only for a zero max or a missing min key |
| Features.RemoveKey | src/analysis_functions/general.tsx:148-153 | `delete copy[k]` keeps exactly the pairs with other keys |
| Features.RemoveKeyAppend | src/analysis_functions/general.tsx:148-153 | removal distributes over concatenation, so the remaining pairs keep their order, which decides the next scan's ties |
| Features.RemoveKeyCount | src/analysis_functions/general.tsx:148-153 | a pair with another key is kept as often as it occurs; a pair keyed k occurs zero times |
| Features.GetTopInterestingAnalytics | src/analysis_functions/general.tsx:121-159 | the loop of `number` iterations yields the picks of the specification, and the caller's record is unchanged |
| Features.TopPickIsEligible | src/analysis_functions/general.tsx:131-153 | each pick names a numeric, non-ignored, non-empty key of the current copy |
| Features.TopPicksSpec | src/analysis_functions/general.tsx:121-159 | at most `number` keys, none twice, each an eligible key of the input |
| Features.TopPicksStuck | src/analysis_functions/general.tsx:145-156 | once an iteration picks nothing, the copy is unchanged and nothing more is picked |
| Features.TopIteration | src/analysis_functions/general.tsx:131-153 | one iteration's scan and branch tests give the specified pick: the max key when max >= 1 - min and it is truthy, else the min key when max <= 1 - min and it is truthy, else nothing |
| Features.ValidSongs | src/analysis_functions/general.tsx:597 | exactly the songs with an attached, non-null analytics record are kept, and no more songs than the input has |
| Features.ValidSongsAppend | src/analysis_functions/general.tsx:597 | the filter distributes over concatenation, so the analysed songs keep their order |
| Features.ValidSongsCount | src/analysis_functions/general.tsx:597 | an analysed song is kept as often as it occurs; any other song occurs zero times |
| Features.AverageAnalytics | src/analysis_functions/general.tsx:585-604 | the result has the eight table keys in order, each holding the mean over the analysed songs |
| Features.AccumulateSong | src/analysis_functions/general.tsx:598-602 | the inner `forEach` over the eight keys turns each running share over the songs so far into the share over those songs and this one |
| Features.GetAverageAnalytics | src/analysis_functions/general.tsx:585-604 | accumulating `value / validSongs.length` per song yields each key's mean (0 with no analysed song) |
| Features.MeanOfConstant | src/analysis_functions/general.tsx:597-602 | if every analysed song has value v for a feature, the mean is v; it is 0 when no song is analysed |
| Names.Truncate | src/analysis_functions/general.tsx:28-30 | a string that fits is unchanged; a longer one ends in "..." after a prefix of itself, for every maxLength |
| Names.TruncateSpec | src/analysis_functions/general.tsx:28-30 | with maxLength >= 3, a longer name becomes its first maxLength-3 characters plus "...", exactly maxLength long; a name that fits is unchanged; the result never exceeds maxLength |
| Names.ItemName | src/analysis_functions/general.tsx:8-27 | the name read by the shape checks; the only failure is "getLIName failed." |
| Names.GetLIName | src/analysis_functions/general.tsx:8-31 | succeeds exactly when the shape checks find a name, and then returns the truncated name |
| Names.ItemNameOfRecords | src/analysis_functions/general.tsx:10-26 | an artist gives its name, a song its title, an album its name, a string itself; a user, a playlist or a genre record throws; the artist test wins over the song test |
| Names.ArtistNames | src/analysis_functions/general.tsx:42-52 | one name per artist, "" for an artist without a name |
| Names.GetLIDescription | src/analysis_functions/general.tsx:34-64 | a string item gets ""; with maxLength >= 3 a description never exceeds maxLength |
| Names.DescriptionSpec | src/analysis_functions/general.tsx:34-64 | with maxLength >= 3: an artist's description is its first genre shortened (the first maxLength-3 characters plus "..." when it is too long), "" without genres; a song's and an album's are their artists' names joined by ", " and shortened the same way; a user, a playlist and a string get "" |
| Names.Capitalize | src/analysis_functions/general.tsx:187-196 | the first character upper-cased (a-z only), the rest unchanged |
| Names.CapitalizeIdempotent | src/analysis_functions/general.tsx:187-196 | capitalising twice changes nothing more |
| Names.GetOrdinalSuffix | src/analysis_functions/general.tsx:161-171 | the suffix is one of "th", "st", "nd", "rd"; any but "th" comes from a last digit 1 to 3 |
| Names.OrdinalSuffixSpec | src/analysis_functions/general.tsx:161-171 | for n >= 0: "th" when n mod 100 is 11-13, else "st"/"nd"/"rd" by the last digit 1/2/3, else "th" |
| Names.OrdinalSuffixPeriodic | src/analysis_functions/general.tsx:161-171 | for n >= 0 the suffix depends only on n mod 100 |
| Names.OrdinalSuffixNegative | src/analysis_functions/general.tsx:161-171 | a negative n gets "th", since JavaScript's `%` leaves it a non-positive last digit |
| Names.GetItemType | src/analysis_functions/general.tsx:561-578 | the first own id property decides the type and a string is a genre; otherwise it throws "Unknown item submitted to getItemType." |
| Names.ItemTypeOfRecords | src/analysis_functions/general.tsx:561-578 | each record kind is typed as its list (artists, songs, albums, playlists, users, genres); a genre record throws |
| Names.GetGenresRelatedArtists | src/analysis_functions/general.tsx:580-582 | exactly the artists listing the genre are kept |
| Names.RelatedArtistsCount | src/analysis_functions/general.tsx:580-582 | an artist listing the genre is kept as often as it occurs in the input; any other artist occurs zero times |
| Names.RelatedArtistsAppend | src/analysis_functions/general.tsx:580-582 | the filter distributes over concatenation, so the input order is kept |
| Names.FittestIn | src/analysis_functions/general.tsx:181-184 | the reduce returns one of the keys |
| Names.FittestSpec | src/analysis_functions/general.tsx:181-184 | the reduce returns a key of maximal count after which every key counts strictly less (a tie keeps the later key) |
| Names.FittestPosition | src/analysis_functions/general.tsx:181-184 | the reduce returns the key at a position of maximal count after which every key counts strictly less |
| Names.GetMostFittingGenre | src/analysis_functions/general.tsx:173-185 | "obscure" when the artists list no genre, otherwise one of their genres |
| Names.MostFittingGenreSpec | src/analysis_functions/general.tsx:173-185 | "obscure" without genres; otherwise a genre of maximal count, and among tied genres the one that appears first latest |
| Narrative.ArtistMessage | src/analysis_functions/general.tsx:221-306 | the long term always produces a sentence |
| Narrative.LongTermMessages | src/analysis_functions/general.tsx:222-236 | the long-term sentence depends only on the short- and long-term ranks: absent recently, lower recently, or "more than ever" |
| Narrative.ShortTermDrawnIsDead | src/analysis_functions/general.tsx:276-285 | the short-term "increasingly drawn" branch is unreachable: the earlier test already accepts its condition |
| Narrative.MediumTermGap | src/analysis_functions/general.tsx:237-263 | for actual ranks, the medium term leaves the sentence undefined exactly when the short and medium ranks are equal and the long rank is absent |
| Narrative.ShortTermGap | src/analysis_functions/general.tsx:264-306 | for actual ranks, the short term leaves the sentence undefined exactly when i1 > i0 and i2 == i1 |
| Narrative.ShortTermComparesWithOne | src/analysis_functions/general.tsx:286-297 | the `i1 !== 1` test: a medium rank of 1 takes the "decreased but above average" sentence, any other smaller one (absence included) the "less than the last 6 months" one |
| Narrative.RankIndexes | src/analysis_functions/general.tsx:208-212 | one rank per snapshot: the first position of the artist, -1 when absent, undefined for a null snapshot (the `map` to -1 is discarded) |
| Narrative.ArtistOpening | src/analysis_functions/general.tsx:208-306 | the long term always has an opening sentence, and an artist missing from a present short-term snapshot gets "absent recently" |
| Narrative.NullShortTermSnapshot | src/analysis_functions/general.tsx:208-236 | a null short-term snapshot leaves the rank undefined, so the long-term analysis says "more than ever" |
| Narrative.NonNull | src/analysis_functions/general.tsx:378 | the filter keeps exactly the non-null values |
| Narrative.PopularityTrend | src/analysis_functions/general.tsx:377-394 | the trend is "increasing", "decreasing" or "consistent", and anything but "consistent" needs two non-null values |
| Narrative.PopularityTrendSpec | src/analysis_functions/general.tsx:377-394 | fewer than two non-null values give "consistent"; otherwise the result is the comparison of the first and last non-null values, made only when both are truthy |
| Narrative.GenrePopularity | src/analysis_functions/general.tsx:398-401 | per snapshot: the 1-based position of the genre, null when absent, NaN for a null snapshot |
| Narrative.GenreTrendOfPresentSnapshots | src/analysis_functions/general.tsx:377-402 | over present snapshots every non-null value is a truthy number >= 1, so the trend compares the first and last snapshot listing the genre |
| Comparisons.Contains | src/analysis_functions/comparisons.ts:5-23 | an artist (song) is contained iff some top artist (song) has its id; a genre iff it is a top genre; a wrongly shaped item never is |
| Comparisons.GetMatchingItems | src/analysis_functions/comparisons.ts:25-33 | the forEach pushes exactly the filter of dp1's list by containment in dp2 |
| Comparisons.MatchingSpec | src/analysis_functions/comparisons.ts:25-33 | the matches are exactly dp1's items that dp2 contains, each as often as in dp1 |
| Comparisons.MatchingCount | src/analysis_functions/comparisons.ts:25-33 | an item dp2 contains occurs in the matches as often as in dp1's list; any other item does not occur |
| Comparisons.MatchingAppend | src/analysis_functions/comparisons.ts:25-33 | matching distributes over concatenation, so dp1's order is kept |
| Comparisons.GetItemIndexChange | src/analysis_functions/comparisons.ts:78-103 | null exactly when the item is not contained (wrong shape included); otherwise its first position in the comparison list minus `index` |
| Comparisons.NameMatches | src/analysis_functions/comparisons.ts:42-46 | the number of matched artists never exceeds dp1's artist count |
| Comparisons.GenreSumNonNegative | src/analysis_functions/comparisons.ts:47-53 | every genre term is non-negative, and a genre dp2 lacks contributes nothing |
| Comparisons.GenreTermSign | src/analysis_functions/comparisons.ts:47-53 | one genre's term is non-negative, and 0 when dp2 lacks the genre |
| Comparisons.GenreSumOfSelf | src/analysis_functions/comparisons.ts:47-53 | a genre list without repeats compared with itself sums 1 per genre |
| Comparisons.MetricSumOfSelf | src/analysis_functions/comparisons.ts:57-62 | a song list compared with itself has metric sum 0 |
| Comparisons.MetricDivisor | src/analysis_functions/comparisons.ts:57-63 | both excluded keys are record keys, so the divisor 8 - 2 = 6 is the number of summed keys |
| Comparisons.OverallAtMost100 | src/analysis_functions/comparisons.ts:65-69 | the overall score never exceeds 100, and is NaN exactly when the genre or artist score is |
| Comparisons.SimilarityScores | src/analysis_functions/comparisons.ts:34-76 | the artist score is NaN iff dp1 has no artists, else in [0, 100]; the genre score is NaN iff the genre lists have fewer than two entries together |
| Comparisons.SelfSimilarity | src/analysis_functions/comparisons.ts:34-76 | a snapshot with some artists and distinct genres compared with itself scores 100 on artists, genres, metrics and overall; the overall score computed from its parts before the clamp is 125 |
| Comparisons.CountNameMatches | src/analysis_functions/comparisons.ts:42-46 | the first loop counts dp1's artists with a namesake in dp2 |
| Comparisons.SumGenreTerms | src/analysis_functions/comparisons.ts:47-53 | the second loop sums the rank-distance terms |
| Comparisons.SumMetricDelta | src/analysis_functions/comparisons.ts:57-62 | the third loop sums the feature differences over the keys other than tempo and loudness |
| Comparisons.FinishSimilarity | src/analysis_functions/comparisons.ts:54-75 | the divisions, root, rounding and clamp assemble the result from the loop totals |
| Comparisons.CalculateSimilarity | src/analysis_functions/comparisons.ts:34-76 | the whole computation equals the similarity specification |
| Utilities.ToInt32 | src/utility_functions/utilities.ts:14-16 | the signed 32-bit value congruent to its input modulo 2^32 |
| Utilities.MaskIsZero | src/utility_functions/utilities.ts:16 | the mask literal rounds to 2^64, which ToInt32 sends to 0 |
| Utilities.HashFoldIsZero | src/utility_functions/utilities.ts:12-17 | after every iteration the hash is 0 |
| Utilities.Pad16Length | src/utility_functions/utilities.ts:18-19 | padding then cutting always gives 16 characters, the hex text right-aligned when it fits |
| Utilities.HashString | src/utility_functions/utilities.ts:7-20 | the loop computes the specified hash, always 16 characters long |
| Utilities.HashIsConstant | src/utility_functions/utilities.ts:7-20 | every input, the empty one included, hashes to "0000000000000000" |
| Utilities.MilliToHighestOrder | src/utility_functions/utilities.ts:100-137 | the nested divisions give the truncated value in the unit chosen by the millisecond thresholds (minute, hour, day, week, 30 weeks, 12 of those) |
| Utilities.DurationSpec | src/utility_functions/utilities.ts:100-137 | up to 60000 ms the reading is the truncated seconds; the unit is one of s, m, hr, hrs, d, w, yr, yrs; "hr" exactly between 1 and 2 hours; "m" labels both minutes and 30-week "months", so 120000 ms and 2 such months both read as 2 "m" |
| Utilities.Chunks | src/utility_functions/utilities.ts:139-145 | the loop builds the specified chunk list |
| Utilities.ChunksSpec | src/utility_functions/utilities.ts:139-145 | the chunks concatenate to the input; all but the last have length size, the last 1 to size; there are ceil(n/size) of them; [] for an empty input |
| Utilities.GetAllIndexes | src/utility_functions/utilities.ts:147-153 | strictly increasing, and exactly the positions holding the value |
| TopGenres.TopGenresOf | src/utility_functions/top_genres.ts:8-28 | no artists give no genres |
| TopGenres.CalculateTopGenres | src/utility_functions/top_genres.ts:8-28 | the nested loops, the sort and the map give the specified ranking |
| TopGenres.AccumulateNames | src/utility_functions/top_genres.ts:12-22 | the accumulated entries list each visited genre once, in order of first visit |
| TopGenres.AccumulateWeights | src/utility_functions/top_genres.ts:14-20 | each entry's weight is the total of its genre's visits |
| TopGenres.OccurrenceNames | src/utility_functions/top_genres.ts:12-22 | a genre is visited exactly when some artist's list holds it |
| TopGenres.WeightOfTag | src/utility_functions/top_genres.ts:14-20 | one artist's visits give a genre its weight times the genre's count in that artist's list |
| TopGenres.OccurrenceWeight | src/utility_functions/top_genres.ts:12-20 | a genre's total is the sum over artists i of (n - i) times its count in artist i's list, so duplicates count twice |
| TopGenres.SortSorted | src/utility_functions/top_genres.ts:24 | the sort orders by non-increasing weight and is a permutation |
| TopGenres.SortStable | src/utility_functions/top_genres.ts:24 | the sort is stable: each weight's entries keep their order |
| TopGenres.InsertSorted | src/utility_functions/top_genres.ts:24 | inserting into a list of non-increasing weight keeps it non-increasing |
| TopGenres.InsertPermutes | src/utility_functions/top_genres.ts:24 | inserting adds exactly the inserted entry |
| TopGenres.InsertStable | src/utility_functions/top_genres.ts:24 | the inserted entry goes after every entry of its own weight, and no other weight's entries move relative to each other |
| TopGenres.InsertDistinct | src/utility_functions/top_genres.ts:24 | inserting an entry of a new genre keeps the genres distinct |
| TopGenres.SortDistinct | src/utility_functions/top_genres.ts:24 | the sort keeps distinct genres distinct |
| TopGenres.SortedWeight | src/utility_functions/top_genres.ts:8-28 | each sorted entry carries its genre's total weight as the artists' ranks give it |
| TopGenres.TopGenresListed | src/utility_functions/top_genres.ts:8-28 | a genre is in the result exactly when some artist lists it |
| TopGenres.TopGenresSpec | src/utility_functions/top_genres.ts:8-28 | no duplicates; exactly the genres on the artists' lists; non-increasing total weight; empty input gives empty output |
| TopGenres.TopGenresTies | src/utility_functions/top_genres.ts:19-24 | genres of equal weight keep their order of first appearance |
| Format.FormatArtist | src/functions/database_functions/format.ts:74-88 | id, name and genres copied; image is `images[1].url` when that entry exists, else null |
| Format.ArtistIdOfLink | src/functions/database_functions/format.ts:85 | a Spotify artist link is its prefix followed by the recovered id |
| Format.ArtistLinkRoundTrip | src/functions/database_functions/format.ts:85 | the link of a formatted artist gives back the artist's id |
| Format.FormatArtists | src/functions/database_functions/format.ts:57 | artists are formatted one by one, in order |
| Format.FormatSong | src/functions/database_functions/format.ts:10-27 | the caught `images[1]` read gives the same image rule as the guarded one; artists formatted in order; no analytics |
| Format.FormatUser | src/functions/database_functions/format.ts:32-43 | `profile_picture` is `images[0].url` for a non-empty list, else null; user_id and username copied |
| Format.FormatAlbum | src/functions/database_functions/format.ts:50-67 | the `images[1]` rule; artists formatted in order; saved_songs and tracks passed through |
| Format.FormatPlaylist | src/functions/database_functions/format.ts:95-118 | the `images[0]` rule; the `hasOwnProperty("tracks")` branch always yields the input's tracks; the owner formatted as a user |
| Format.GenreStrings | src/functions/database_functions/format.ts:127 | the `.genre` strings in order |
| Format.FlattenArtist | src/functions/database_functions/format.ts:128-133 | the artist's genres become its expanded genre names (undefined without the relation); other fields kept |
| Format.FlattenSong | src/functions/database_functions/format.ts:129-135 | the song's artists are its expanded artists, each flattened |
| Format.DatapointRecord.AsDatapoint | src/functions/database_functions/format.ts:136 | the record reads as a snapshot exactly when both relation fields are expanded |
| Format.FormatDatapoint | src/functions/database_functions/format.ts:119-137 | null gives null; otherwise the same object is returned with its relation fields replaced by the flattened expansions and no `expand` left |
| DatabaseId.RetrieveDatabaseId | src/functions/database_functions/utilities.ts:33-45 | song_id wins and is hashed, then artist_id is hashed, then user_id returns the existing id; anything else throws "Unknown type seen in retrieveDatabaseID." |
| DatabaseId.DatabaseIdsOfRecords | src/functions/database_functions/utilities.ts:33-45 | every song and every artist gets the id "0000000000000000"; a user keeps its own |
| Cache.DBCache.AddSong | src/database_functions/cache.ts:19-21 | songs becomes old songs + [song]; the other lists are unchanged |
| Cache.DBCache.AddSongs | src/database_functions/cache.ts:23-25 | all given songs are appended in order; the other lists are unchanged |
| Cache.DBCache.AddArtist | src/database_functions/cache.ts:27-29 | artists gets the artist appended; the other lists are unchanged |
| Cache.DBCache.AddArtists | src/database_functions/cache.ts:31-33 | all given artists are appended in order; the other lists are unchanged |
| Cache.DBCache.AddGenre | src/database_functions/cache.ts:35-37 | genres gets the genre appended; the other lists are unchanged |
| Cache.DBCache.AddGenres | src/database_functions/cache.ts:39-41 | all given genres are appended in order; the other lists are unchanged |
| Cache.AppendCounts | src/database_functions/cache.ts:19-41 | appending never deduplicates: each record's count grows by its count in the added list |
| Cache.AddedTwice | src/database_functions/cache.ts:19-21 | adding the same record twice leaves two more entries of it |
| Cache.AddSongTwice | src/database_functions/cache.ts:19-21 | two AddSong calls with the same song leave the cache with two more entries of it and two more songs in all; artists and genres unchanged |

## Left out

- Floating point. Numbers are exact reals, so rounding error, overflow to Infinity, and float comparisons of the averages are not modelled.
- `Math.pow(x, 0.25)` and `Math.sqrt` in calculateSimilarity are parameters of the model. Comparisons.SelfSimilarity requires only `fourthRoot(1) = 1` and `sqrt(0) = 0` of them.
- Comparisons.SelfSimilarity requires distinct genres. With a repeated genre, `findIndex` finds the first copy, the later copy scores less than 1, and the genre score falls below 100.
- Features.GetAverageAnalytics and Comparisons.CalculateSimilarity require every analysed song to carry all eight features as numbers. A missing key makes the JavaScript sum NaN, and the model does not follow that path.
- The ordering of integer-like keys in `for..in` and `Object.keys` is not modelled. Records keep insertion order, which is what string keys such as the feature names get.
- Lengths and cut points are counted in Unicode code points. JavaScript's `length` and `substring` count UTF-16 code units. So a string with characters outside the Basic Multilingual Plane is shortened at a different length and cut at a different place, and a cut inside a surrogate pair cannot be represented. This applies to:
  - Names.Truncate: the length test and the `substring` cut.
  - Names.TruncateSpec: its lengths are code-point counts.
  - Names.GetLIName: the truncation of the name.
  - Names.GetLIDescription: the truncation of the genre and of the joined artist names.
  - Names.DescriptionSpec: its lengths are code-point counts.
- Names.Capitalize maps only the ASCII letters a-z. JavaScript's `toUpperCase` uses the full Unicode case mapping, which also maps letters such as "é" and can change the length ("ß" becomes "SS"). Neither is modelled, so the model's "same length" holds only for the ASCII mapping.
- `charCodeAt` reads UTF-16 code units; the model reads Unicode scalar values. Since the hash is 0 after every character, the result is the same.
- Utilities.Chunks requires `size > 0`. With any other size the source loop never ends.
- TopGenres.CalculateTopGenres requires every artist to carry a genre list of strings, as the Artist record declares. Genre records in that list are compared by identity in the source, which is not modelled.
- Format.FormatDatapoint requires the fetched `expand` record. The source throws a TypeError without it, and also when a nested artist or song lacks `expand`. The model covers the optional `genres` relation only. One call site may reach that TypeError: retrievePrevDatapoint in src/database_functions/datapoints.ts builds an `expand` string but does not pass it to fetchPBFullList, then calls formatDatapoint on the result. The fetch helper it imports is not part of this model, so whether `expand` is then present is not modelled.
- Nested records are values in the model. The in-place updates of nested artist and song objects, and any aliasing between objects shared by several lists, are not modelled.
- Spotify objects carry only the properties the formatters read. Whether a property is an own property or an inherited one is not distinguished.
- The JSX and text of getItemAnalysis are left out: the second-part spans, the genre artist links, and the `window.location` read. Its first-part switch is kept as the enumerated choice of sentence.
- Left out as I/O or framework code:
  - `regress` and getPlaylistAnalysis (floating-point statistics)
  - handleCacheReset and resolveItems (network and browser cache)
  - `DBCache.init` and `DBCacheManager.getInstance` (asynchronous fetch and a lazy singleton); the cache is built from given lists
  - the PocketBase wrappers in src/functions/database_functions/utilities.ts
- The error messages of JavaScript's own TypeErrors are not reproduced. Only the messages the source throws itself are.
