# Playlist recommender core, modelled in Dafny

This project models the content-based music recommender's data pipeline:

- **Catalog cleaning** (`recommender_model/scripts/data_handling.py`):
  - `drop_duplicates` adds an `artists_song` key column to the frame in place. The key is artist name and track name concatenated with no separator. It then keeps the first row for each key.
  - `select_cols` keeps the 17 canonical columns.
  - `genre_preprocess` adds a `genres_list` column in place: the `genres` string split on single spaces, as Python's `str.split(" ")` does.
  - `get_features` chains these three steps.
- **Playlist summary** (`generate_playlist_feature`). The complete feature table is split into rows whose id is in the playlist and rows whose id is not. The playlist vector is the column-wise *sum* of the member rows, without the `id` column.
- **Ranking** (`generate_playlist_recos`):
  - Select the song rows whose id is among the non-playlist feature ids.
  - Write one similarity score per row into a `sim` column, by position. A selection with no rows instead grows one all-NaN row per score, as pandas does when a column is written into an empty frame.
  - Sort by descending `sim` and keep the first 40.
  - The cosine similarity is a parameter of the model.
- **Ingestion record update** (`recommender_model/scripts/ari.py`). The fetched audio-features record gains `artist_pop`, `genres` and `track_pop`. A nonempty genre list is stored as the genres joined by single spaces, with each genre's own spaces replaced by `_`. An empty list is stored as `"unknown"`.

Layout:

| file | module | contents |
|---|---|---|
| `results.dfy` | `Results` | `Option` (a cell a row may lack), `Result` (a value or the error Python would raise) |
| `seqs.dfy` | `Seqs` | boolean-mask selection `Filter`, `head(n)` as `Take` |
| `text.dfy` | `Text` | `str.split`, `str.join`, single-character `re.sub` |
| `catalog.dfy` | `Catalog` | `Track`/`Row`, deduplication, column selection, genre splitting, the DataFrame class `Frame`, `get_features` |
| `playlist.dfy` | `Playlist` | feature tables, partition and column sum |
| `ranking.dfy` | `Ranking` | scored rows, the score column, sort by score, top 40, the recommendation method |
| `ingest.dfy` | `Ingest` | genre-string encoding, the in-place update of the audio-features record |

A DataFrame that the source changes in place is a `Frame` object whose `rows` field the column-adding methods reassign. Selections that build a new frame are functions on `seq<Row>`. A `Row` holds three kinds of columns:

- the 17 canonical columns, as a `Track`;
- the two columns the cleaning steps add (`artists_song`, `genres_list`), as `Option`s;
- every other raw column, in a name-to-value map.

The ranking works on `Scored` rows: the song cells as an `Option<Row>` (`None` when every song cell is NaN) and the `sim` cell as an `Option<real>`. The selection being scored is a `ScoreFrame` object whose `sim` column is written in place.

Audio features are exact `real`s.

## Model

| member | source | states |
|---|---|---|
| `Catalog.DedupFrom` | recommender_model/scripts/data_handling.py:12 | Scanning rows against a set of keys already seen: every kept row's key is unseen. No two kept rows share a key. The kept keys are exactly the input keys minus the seen ones. The result is no longer than the input. |
| `Catalog.WithSongKeys` | recommender_model/scripts/data_handling.py:11 | Same row count. Each row gains `artists_song` equal to its artist name followed by its track name, and nothing else in it changes. The set of keys is unchanged. |
| `Catalog.Dedup` | recommender_model/scripts/data_handling.py:11-12 | After `drop_duplicates` no two rows share an artist+track key. Every key of the input is still present. The table does not grow. |
| `Catalog.DedupKeepsFirstOccurrences` | recommender_model/scripts/data_handling.py:12 | `drop_duplicates` equals the reference definition: in original order, exactly the rows that are the first to carry their key. |
| `Catalog.DedupAfterPrefix` | recommender_model/scripts/data_handling.py:12 | After any prefix of the input, the scan has emitted that prefix's first occurrences and has seen exactly its keys. |
| `Catalog.DedupIdempotent` | recommender_model/scripts/data_handling.py:12 | Dropping duplicates a second time removes nothing. |
| `Catalog.DedupFromKeepsUnique` | recommender_model/scripts/data_handling.py:12 | Rows whose keys are distinct and not yet seen are all kept. |
| `Catalog.DedupMergesWithoutSeparator` | recommender_model/scripts/data_handling.py:11 | Songs ("ab","c") and ("a","bc") share the key "abc", so only the first is kept. |
| `Catalog.SelectCols` | recommender_model/scripts/data_handling.py:15-21 | Same row count and order. Each output row holds exactly the 17 listed columns, copied unchanged. Every other column is gone, including `artists_song`. |
| `Catalog.SelectColsIdempotent` | recommender_model/scripts/data_handling.py:19-21 | Selecting the columns of a selected table changes nothing. |
| `Text.Split` | recommender_model/scripts/data_handling.py:28 | `str.split(" ")` yields one more part than there are separators. No part contains the separator. |
| `Text.Join` | recommender_model/scripts/ari.py:43 | Joining no parts gives the empty string. Joining at least one separator-free part gives exactly one separator fewer than there are parts. |
| `Text.SplitThenJoin` | recommender_model/scripts/data_handling.py:28 | Joining the split parts with the separator gives back the string. |
| `Text.JoinThenSplit` | recommender_model/scripts/ari.py:43 | Splitting a join of at least one separator-free part gives back the parts. |
| `Text.ReplaceChar` | recommender_model/scripts/ari.py:43 | Replaces exactly the chosen character, position by position. The length is unchanged. The replaced character no longer occurs. |
| `Catalog.WithGenresLists` | recommender_model/scripts/data_handling.py:28 | Same row count. Each row gains a `genres_list` cell, and nothing else in it changes. |
| `Catalog.GenresListRoundTrip` | recommender_model/scripts/data_handling.py:28 | Each row gains `genres_list`, its `genres` split on spaces. The token count is the space count plus one, and no token holds a space. Joining the tokens with spaces gives back `genres`. Nothing else in the row changes. |
| `Catalog.EmptyGenresGiveOneEmptyToken` | recommender_model/scripts/data_handling.py:28 | An empty genre string gives `[""]`, not `[]`. |
| `Catalog.Features` | recommender_model/scripts/data_handling.py:85-87 | The chain never adds rows. Every output row carries its genre token list, no `artists_song` cell and no column outside the 17. |
| `Catalog.FeaturesShape` | recommender_model/scripts/data_handling.py:85-87 | The composed chain gives one row per artist+track key, and every input key survives. Each row carries only its 17 columns plus `genres_list`. That list is its genre string split on spaces. |
| `Catalog.Frame.AddSongKeyColumn` | recommender_model/scripts/data_handling.py:11 | In place: every row gains `artists_song` = artist name + track name. |
| `Catalog.Frame.AddGenresListColumn` | recommender_model/scripts/data_handling.py:28 | In place: every row gains `genres_list`. |
| `Catalog.DropDuplicates` | recommender_model/scripts/data_handling.py:7-12 | The caller's frame gains the key column. The returned new frame holds the deduplicated rows. |
| `Catalog.GenrePreprocess` | recommender_model/scripts/data_handling.py:24-29 | Adds the token lists to the given frame and returns that same frame object. |
| `Catalog.GetFeatures` | recommender_model/scripts/data_handling.py:84-87 | Returns a new frame holding dedup, then select, then genre split of the input rows. The caller's frame is not modified. |
| `Seqs.Filter` | recommender_model/scripts/data_handling.py:70-72 | Mask selection keeps exactly the rows satisfying the mask and never adds a row. |
| `Seqs.FilterPartition` | recommender_model/scripts/data_handling.py:70-72 | A mask and its negation split the rows into two parts that hold every row exactly once. |
| `Seqs.FilterConcat` | recommender_model/scripts/data_handling.py:72 | Selection preserves order: it distributes over concatenation. |
| `Seqs.Take` | recommender_model/scripts/data_handling.py:50-51 | `head(n)` gives the first min(n, length) rows. |
| `Playlist.Members` | recommender_model/scripts/data_handling.py:70 | Exactly the feature rows whose id is a playlist id. |
| `Playlist.NonMembers` | recommender_model/scripts/data_handling.py:72 | Exactly the feature rows whose id is not a playlist id. |
| `Playlist.GeneratePlaylistFeature` | recommender_model/scripts/data_handling.py:56-74 | The playlist vector's width is the number of non-id columns. The non-member table has the same width and is well-formed. |
| `Playlist.PlaylistPartition` | recommender_model/scripts/data_handling.py:70-72 | Every row lands in exactly one of the member and non-member tables. The non-member table holds exactly the rows whose id is not a playlist id. The member table holds exactly the rest. |
| `Playlist.NonMembersKeepOrder` | recommender_model/scripts/data_handling.py:72 | The non-member table keeps input order. |
| `Playlist.VectorSum` | recommender_model/scripts/data_handling.py:74 | The element-wise sum has the table's width, even over zero rows. |
| `Playlist.VectorSumIsColumnTotals` | recommender_model/scripts/data_handling.py:74 | Component j of the row-by-row vector sum is the total of column j. |
| `Playlist.PlaylistVectorIsSum` | recommender_model/scripts/data_handling.py:73-74 | The playlist vector is the column-wise sum (not the mean) over the member rows. |
| `Playlist.PlaylistAbsentGivesZeroVector` | recommender_model/scripts/data_handling.py:70-74 | With no playlist id in the table, the vector is the zero vector of the table's width. The non-member table is the whole table. |
| `Ranking.InsertBySim` | recommender_model/scripts/data_handling.py:50 | Inserting into a descending sequence keeps it descending and adds exactly that row. |
| `Ranking.BoundOfPermutation` | recommender_model/scripts/data_handling.py:50 | A rearrangement of rows that all score at most a bound still scores at most that bound. |
| `Ranking.SortBySim` | recommender_model/scripts/data_handling.py:50 | Sorting by score, largest first, gives a permutation whose `sim` never increases. |
| `Ranking.Candidates` | recommender_model/scripts/data_handling.py:45-46 | Exactly the `df` rows whose id is a non-playlist feature id, never more rows than `df`, each at most as often as in `df`. |
| `Ranking.Scores` | recommender_model/scripts/data_handling.py:48-49 | One score per non-playlist feature row: score i is the similarity of feature row i to the playlist vector. |
| `Ranking.SimilarityInputOk` | recommender_model/scripts/data_handling.py:48-49 | What `cosine_similarity` accepts: at least one non-playlist row, at least one feature column, and a playlist vector of the table's width. Its meaning is stated through `Recommend`'s contract. |
| `Ranking.ClearSim` | recommender_model/scripts/data_handling.py:48 | Writing `sim` replaces any existing `sim` column and keeps every other column: the song cells keep their track, `artists_song`, `genres_list` and every raw column except `sim`. |
| `Ranking.WithSimColumn` | recommender_model/scripts/data_handling.py:48 | Writing a column by position succeeds exactly when the lengths agree or the table has no rows. On success there is one row per score, and row i holds score i. With equal lengths row i keeps its own song cells. A table with no rows grows all-NaN rows. |
| `Ranking.Unscored` | recommender_model/scripts/data_handling.py:45-46 | The selected song rows before scoring: same count and order, no `sim` cell yet. |
| `Ranking.ScoreFrame.AssignSim` | recommender_model/scripts/data_handling.py:48 | In place: the frame's rows become the result of writing the score column. When pandas would raise, it reports failure and leaves the frame unchanged. |
| `Ranking.Recommend` | recommender_model/scripts/data_handling.py:32-53 | Fails exactly when `cosine_similarity` refuses its inputs, or when the selection has rows but not one per non-playlist feature row. The error kind tells the two apart. |
| `Ranking.GeneratePlaylistRecos` | recommender_model/scripts/data_handling.py:45-53 | Selects into a new frame, writes `sim` into it by position, sorts, and takes 40. The result equals `Recommend`, including both error outcomes and the all-NaN rows of an empty selection. |
| `Ranking.RecommendLength` | recommender_model/scripts/data_handling.py:45-51 | A successful result has min(40, number of non-playlist feature rows) rows. When the selection has rows, that equals min(40, number of `df` rows whose id is a non-playlist id). |
| `Ranking.RecommendDescending` | recommender_model/scripts/data_handling.py:50-51 | Returned `sim` values never increase. |
| `Ranking.TopOfSorted` | recommender_model/scripts/data_handling.py:50-51 | The first n rows of the sorted table are a sub-multiset of the table. |
| `Ranking.ScoredRowsOrigin` | recommender_model/scripts/data_handling.py:45-48 | Every scored row has `sim` set. Its song cells are a `df` row (minus any old `sim`) with a non-playlist id, or are all NaN, and then no `df` row was selected. |
| `Ranking.RecommendDrawnFromCandidates` | recommender_model/scripts/data_handling.py:45-50 | The result is a sub-multiset of the scored selection and each returned row has `sim` set. A row with song cells is a `df` row whose id is a non-playlist feature id. A row without song cells occurs only when no `df` row was selected. |
| `Ranking.RecommendFabricatesRowsOnEmptySelection` | recommender_model/scripts/data_handling.py:45-51 | Suppose the similarity inputs are acceptable but no `df` row has a non-playlist id. Then ranking still succeeds, with min(40, number of non-playlist feature rows) rows, each all-NaN except its score. |
| `Ranking.TakeOfDescending` | recommender_model/scripts/data_handling.py:50-51 | The head of a descending sequence scores at least as high as everything left behind. |
| `Ranking.RecommendIsTop` | recommender_model/scripts/data_handling.py:50-51 | No scored row left out scores higher than any returned row. |
| `Ranking.AlignedRowsCarryOwnScore` | recommender_model/scripts/data_handling.py:45-49 | If the selected rows line up with the feature rows by position, writing the scores succeeds. Every scored row is then a song row carrying the similarity of the feature row with its own id. |
| `Ranking.RecommendScoresOwnRow` | recommender_model/scripts/data_handling.py:45-49 | Suppose the selected rows line up positionally with the feature rows and the similarity inputs are acceptable. Then ranking succeeds, and each returned row is a song row whose `sim` is the similarity of the feature row with its own id. |
| `Ranking.RecommendExcludesPlaylist` | recommender_model/scripts/data_handling.py:45-46 | Fed the non-member table of `generate_playlist_feature`, the ranking never returns a song row with a playlist id. |
| `Ingest.Underscored` | recommender_model/scripts/ari.py:43 | Same length, no space left; position by position each space becomes `_` and every other character is kept. |
| `Ingest.UnderscoredAll` | recommender_model/scripts/ari.py:43 | One token per genre, in order. Token i is genre i with spaces replaced by `_`, and holds no space. |
| `Ingest.EncodeGenres` | recommender_model/scripts/ari.py:42-45 | No genres give `"unknown"`. Otherwise the stored string holds exactly one space fewer than there are genres. |
| `Ingest.EncodeGenresRoundTrip` | recommender_model/scripts/ari.py:43 | For a nonempty genre list, splitting the stored string on spaces returns exactly the underscored genres, as many as there were genres. The stored string is their space-join. |
| `Ingest.EncodeNoGenres` | recommender_model/scripts/ari.py:42-45 | No genres are stored as exactly `"unknown"`, which splits to the single token `"unknown"`. |
| `Ingest.UnknownSentinelIsAmbiguous` | recommender_model/scripts/ari.py:42-45 | No genres and the single genre "unknown" are stored identically. |
| `Ingest.FeatureRecord.Put` | recommender_model/scripts/ari.py:41 | `record[key] = value` overwrites or adds one key and leaves the others alone. |
| `Ingest.AddExtraFeatures` | recommender_model/scripts/ari.py:41-48 | Afterwards `artist_pop` and `track_pop` hold the supplied popularities, and `genres` holds the encoded genre string. Every other key keeps its value, no key is lost, and the same record object is returned. |

## Where the code decides

The model follows the code at these points:

- An empty genre string splits to `[""]`, not to an empty list.
- Rows with equal scores are not promised any order. Pandas' default sort is not stable, so no tie-break by original order is claimed.
- The number of recommendations is fixed at 40.
- The ranked rows are the song-table rows whose id appears among the non-playlist feature ids. They are not the feature rows themselves.
- Scores are attached by position, not by id.
- An empty non-playlist feature table is an error of `cosine_similarity`, not an empty result.
- When no song row has a non-playlist id but the feature table has rows, writing the score column makes pandas grow the empty selection to one row per score, every other cell NaN. The ranking then returns up to 40 such rows and no error.
- When the selection has rows but not one per non-playlist feature row, writing the score column raises a ValueError (`LengthMismatch`).

## Left out

- Credential plumbing and the metadata-service calls (ari.py:15-38, 50-53): reading `secret.txt`, setting environment variables, `print`, and the `spotipy` requests. These are file, environment and network I/O. The fetched record, popularities and genre list are parameters of `Ingest.AddExtraFeatures`.
- The numeric cosine similarity (data_handling.py:48-49) is a foreign library call using floating-point square roots. It is the parameter `similarity`. Its three input refusals are merged into one error, `SimilarityInputError`: no rows, no feature columns, and a width mismatch.
- Floating-point rounding in the column sum (data_handling.py:74): values are exact reals.
- Ranking.SortBySim: promises only a non-increasing permutation, not the particular arrangement of equal scores that pandas' quicksort produces.
- The column drop at data_handling.py:84 is schema housekeeping: `GetFeatures` starts from a copy of the rows. The `KeyError` it raises when those columns are absent is therefore not modelled.
- `get_features` has no `return` in the source. `Catalog.GetFeatures` returns the frame built by line 87.
- Dynamic typing of cells is not modelled. Rows are typed records, so these errors cannot arise:
  - the `KeyError` of `select_cols` when a listed column is missing;
  - a non-string (missing) `genres` cell, on which `split` fails;
  - a non-string artist or track name in the key.
- Pandas index labels are not modelled: result rows carry no index. This includes the fresh 0..n-1 index of the all-NaN rows.
- A raw column named like a column with its own cell (one of the 17, `artists_song` or `genres_list`) is assumed absent from a row's `others` map. Writing that cell is then pandas' overwrite; the model does not strip such a duplicate name.
- A NaN song row is one value, `song == None`. The model does not record which columns it has or their dtypes.
- An existing `sim` column of the song table would sit among the raw columns in the `others` map. Writing the score column removes it there and puts the new score in the `sim` cell of the `Scored` row.
- The genre one-hot encoding is not in the modelled code.
- Ranking.SimOf: reads a missing `sim` cell as 0. Every row being ranked carries a score, so this case is never used.
