/** Ranking the non-playlist songs (recommender_model/scripts/
    data_handling.py, lines 32-53): keep the song rows whose id is among the
    non-playlist feature ids, attach one similarity score per row by
    position, sort by descending score and keep the first 40.

    The cosine similarity itself is a parameter `similarity`: the score of a
    feature row is `similarity(row values, playlist vector)`. */
module Ranking {
  import opened Results
  import Seqs
  import opened Catalog
  import opened Playlist

  /** How many rows the ranking keeps at most (data_handling.py:50-51). */
  const TOP_N: nat := 40

  datatype RecoError =
    /** `cosine_similarity` refuses its inputs: no non-playlist feature rows,
        no feature columns, or a playlist vector whose width differs from the
        table's. */
    | SimilarityInputError
    /** The selection has rows, but not as many as there are scores: pandas
        raises a ValueError when a column is assigned from an array of another
        length. */
    | LengthMismatch

  /** A row of the selected song table once it can hold a `sim` cell. `song`
      is the row's song cells, or `None` when every one of them is NaN: the
      rows pandas creates when it writes a score column into a table with no
      rows at all. `sim` is `None` until the score column is written. */
  datatype Scored = Scored(song: Option<Row>, sim: Option<real>)

  /** The `sim` cell of a row (0.0 for a row not yet scored; every row being
      ranked carries one). */
  function SimOf(r: Scored): real
  {
    match r.sim
    case Some(v) => v
    case None => 0.0
  }

  /** Non-increasing by `sim`. */
  predicate Descending(s: seq<Scored>)
  {
    forall i, j :: 0 <= i < j < |s| ==> SimOf(s[i]) >= SimOf(s[j])
  }

  /** Inserting one row into a sequence sorted by descending `sim`. */
  function InsertBySim(x: Scored, s: seq<Scored>): (r: seq<Scored>)
    requires Descending(s)
    ensures multiset(r) == multiset(s) + multiset{x}
    ensures Descending(r)
  {
    if s == [] then [x]
    else if SimOf(x) >= SimOf(s[0]) then [x] + s
    else
      var tail := InsertBySim(x, s[1..]);
      assert s == [s[0]] + s[1..];
      BoundOfPermutation(tail, s[1..], x, SimOf(s[0]));
      [s[0]] + tail
  }

  /** Every row of `t`, a rearrangement of `u` plus `x`, scores at most
      `bound` when `x` and every row of `u` do. */
  lemma BoundOfPermutation(t: seq<Scored>, u: seq<Scored>, x: Scored, bound: real)
    requires multiset(t) == multiset(u) + multiset{x}
    requires SimOf(x) <= bound
    requires forall i :: 0 <= i < |u| ==> SimOf(u[i]) <= bound
    ensures forall j :: 0 <= j < |t| ==> SimOf(t[j]) <= bound
  {
    forall j | 0 <= j < |t| ensures SimOf(t[j]) <= bound {
      assert t[j] in multiset(t);
      if t[j] != x {
        assert t[j] in multiset(u);
        var k :| 0 <= k < |u| && u[k] == t[j];
      }
    }
  }

  /** Sorting by the score column, largest first: the rows rearranged so
      that `sim` never increases. Only that order and the permutation are claimed:
      pandas' default sort does not promise where rows with equal scores end
      up. */
  function SortBySim(s: seq<Scored>): (r: seq<Scored>)
    ensures multiset(r) == multiset(s)
    ensures |r| == |s|
    ensures Descending(r)
  {
    if s == [] then []
    else
      assert s == [s[0]] + s[1..];
      InsertBySim(s[0], SortBySim(s[1..]))
  }

  /** The song rows whose id is among the non-playlist feature ids, in the
      order and with the multiplicity they have in `df` (data_handling.py:45-46). */
  function Candidates(df: seq<Row>, nonplaylist: FeatureTable): (c: seq<Row>)
    ensures |c| <= |df|
    ensures multiset(c) <= multiset(df)
    ensures forall r :: r in c <==> r in df && r.track.id in Ids(nonplaylist.rows)
  {
    Seqs.Filter(df, (r: Row) => r.track.id in Ids(nonplaylist.rows))
  }

  /** The score column: entry `i` is the similarity of non-playlist feature
      row `i` to the playlist vector (data_handling.py:48-49). */
  function Scores(nonplaylist: FeatureTable, features: seq<real>, similarity: (seq<real>, seq<real>) -> real): (s: seq<real>)
    ensures |s| == |nonplaylist.rows|
    ensures forall i :: 0 <= i < |s| ==> s[i] == similarity(nonplaylist.rows[i].values, features)
  {
    seq(|nonplaylist.rows|, i requires 0 <= i < |nonplaylist.rows| => similarity(nonplaylist.rows[i].values, features))
  }

  /** What `cosine_similarity` accepts (data_handling.py:48-49): at least one
      non-playlist feature row, at least one feature column, and a playlist
      vector of the table's width. */
  predicate SimilarityInputOk(nonplaylist: FeatureTable, features: seq<real>)
  {
    |nonplaylist.rows| > 0 && nonplaylist.width > 0 && |features| == nonplaylist.width
  }

  /** The song cells of a row without any `sim` column it had: writing the
      score column replaces an existing one. */
  function ClearSim(song: Option<Row>): (r: Option<Row>)
    ensures r.Some? <==> song.Some?
    ensures r.Some? ==> r.value.track == song.value.track && "sim" !in r.value.others
    ensures r.Some? ==> && r.value.artistsSong == song.value.artistsSong
                        && r.value.genresList == song.value.genresList
                        && r.value.others == song.value.others - {"sim"}
  {
    match song
    case None => None
    case Some(row) => Some(row.(others := row.others - {"sim"}))
  }

  /** Writing `scores` as the `sim` column of a table by position
      (data_handling.py:48). With as many rows as scores, row `i` gets score
      `i`. A table with no rows grows one all-NaN row per score. Any other
      length is refused (`None`). */
  function WithSimColumn(rows: seq<Scored>, scores: seq<real>): (r: Option<seq<Scored>>)
    ensures r.Some? <==> |rows| == |scores| || |rows| == 0
    ensures r.Some? ==> |r.value| == |scores|
    ensures r.Some? ==> forall i :: 0 <= i < |scores| ==> r.value[i].sim == Some(scores[i])
    ensures r.Some? && |rows| > 0 ==> forall i :: 0 <= i < |rows| ==> r.value[i].song == ClearSim(rows[i].song)
    ensures r.Some? && |rows| == 0 ==> forall i :: 0 <= i < |scores| ==> r.value[i].song.None?
  {
    if |rows| == |scores| then
      Some(seq(|rows|, i requires 0 <= i < |rows| => Scored(ClearSim(rows[i].song), Some(scores[i]))))
    else if |rows| == 0 then
      Some(seq(|scores|, i requires 0 <= i < |scores| => Scored(None, Some(scores[i]))))
    else None
  }

  /** Song rows before any score is written. */
  function Unscored(songs: seq<Row>): (r: seq<Scored>)
    ensures |r| == |songs|
    ensures forall i :: 0 <= i < |r| ==> r[i].song == Some(songs[i]) && r[i].sim.None?
  {
    seq(|songs|, i requires 0 <= i < |songs| => Scored(Some(songs[i]), None))
  }

  /** The selected song table as a frame whose `sim` column is written in
      place. */
  class ScoreFrame {
    var rows: seq<Scored>

    constructor (songs: seq<Row>)
      ensures rows == Unscored(songs)
    {
      rows := Unscored(songs);
    }

    /** Writes the score column (data_handling.py:48); `ok` is false, and
        nothing changes, when pandas would raise. */
    method AssignSim(scores: seq<real>) returns (ok: bool)
      modifies this
      ensures ok <==> WithSimColumn(old(rows), scores).Some?
      ensures ok ==> rows == WithSimColumn(old(rows), scores).value
      ensures !ok ==> rows == old(rows)
    {
      var updated := WithSimColumn(rows, scores);
      if updated.Some? {
        rows := updated.value;
        ok := true;
      } else {
        ok := false;
      }
    }
  }

  /** The selected song rows with the score column written. */
  function ScoredRows(df: seq<Row>, features: seq<real>, nonplaylist: FeatureTable, similarity: (seq<real>, seq<real>) -> real): Option<seq<Scored>>
  {
    WithSimColumn(Unscored(Candidates(df, nonplaylist)), Scores(nonplaylist, features, similarity))
  }

  /** `generate_playlist_recos` (data_handling.py:32-53): an error exactly
      when `cosine_similarity` refuses its inputs or when the selection has
      rows but not one per non-playlist feature row. */
  function Recommend(df: seq<Row>, features: seq<real>, nonplaylist: FeatureTable, similarity: (seq<real>, seq<real>) -> real): (r: Result<seq<Scored>, RecoError>)
    requires nonplaylist.Valid()
    ensures r.Failure? <==> !SimilarityInputOk(nonplaylist, features) || 0 < |Candidates(df, nonplaylist)| != |nonplaylist.rows|
    ensures r.Failure? ==> (r.error == SimilarityInputError <==> !SimilarityInputOk(nonplaylist, features))
  {
    if !SimilarityInputOk(nonplaylist, features) then Failure(SimilarityInputError)
    else
      match ScoredRows(df, features, nonplaylist, similarity)
      case None => Failure(LengthMismatch)
      case Some(rows) => Success(Seqs.Take(SortBySim(rows), TOP_N))
  }

  /** The steps of data_handling.py:45-53 on frame objects: the selection is
      a new frame, the score column is written into it in place, and its
      sorted head is returned. The caller's frame is only read. */
  method GeneratePlaylistRecos(df: Frame, features: seq<real>, nonplaylist: FeatureTable, similarity: (seq<real>, seq<real>) -> real)
    returns (recos: Result<seq<Scored>, RecoError>)
    requires nonplaylist.Valid()
    ensures recos == Recommend(df.rows, features, nonplaylist, similarity)
  {
    var nonPlaylistDf := new ScoreFrame(Candidates(df.rows, nonplaylist));
    if !SimilarityInputOk(nonplaylist, features) {
      return Failure(SimilarityInputError);
    }
    var ok := nonPlaylistDf.AssignSim(Scores(nonplaylist, features, similarity));
    if !ok {
      return Failure(LengthMismatch);
    }
    recos := Success(Seqs.Take(SortBySim(nonPlaylistDf.rows), TOP_N));
  }

  // ---------------------------------------------------------------------
  // Properties of the ranking

  /** A successful ranking returns min(40, number of non-playlist feature
      rows) rows; when the selection has rows, that is min(40, number of
      selected rows). */
  lemma RecommendLength(df: seq<Row>, features: seq<real>, nonplaylist: FeatureTable, similarity: (seq<real>, seq<real>) -> real)
    requires nonplaylist.Valid()
    requires Recommend(df, features, nonplaylist, similarity).Success?
    ensures |Recommend(df, features, nonplaylist, similarity).value| == Seqs.Min(TOP_N, |nonplaylist.rows|)
    ensures |Candidates(df, nonplaylist)| > 0 ==>
      |Recommend(df, features, nonplaylist, similarity).value| == Seqs.Min(TOP_N, |Candidates(df, nonplaylist)|)
  {
  }

  /** The returned scores never increase. */
  lemma RecommendDescending(df: seq<Row>, features: seq<real>, nonplaylist: FeatureTable, similarity: (seq<real>, seq<real>) -> real)
    requires nonplaylist.Valid()
    requires Recommend(df, features, nonplaylist, similarity).Success?
    ensures Descending(Recommend(df, features, nonplaylist, similarity).value)
  {
    var sorted := SortBySim(ScoredRows(df, features, nonplaylist, similarity).value);
    var top := Recommend(df, features, nonplaylist, similarity).value;
    assert top == sorted[..|top|];
  }

  /** The first `n` rows of the sorted table are rows of the table, each at
      most as often as it occurs there. */
  lemma TopOfSorted(s: seq<Scored>, n: nat)
    ensures multiset(Seqs.Take(SortBySim(s), n)) <= multiset(s)
    ensures forall r :: r in Seqs.Take(SortBySim(s), n) ==> r in s
  {
    var sorted := SortBySim(s);
    var top := Seqs.Take(sorted, n);
    assert sorted == top + sorted[|top|..];
    assert multiset(sorted) == multiset(top) + multiset(sorted[|top|..]);
    forall r | r in top ensures r in s {
      assert r in multiset(s);
    }
  }

  /** The rows of `df` without any `sim` column, to compare rows up to the
      score column. */
  function SongsWithoutSim(df: seq<Row>): seq<Option<Row>>
  {
    seq(|df|, i requires 0 <= i < |df| => ClearSim(Some(df[i])))
  }

  /** A successful ranking is the head of the scored rows sorted by score. */
  lemma RecommendIsSortedHead(df: seq<Row>, features: seq<real>, nonplaylist: FeatureTable, similarity: (seq<real>, seq<real>) -> real)
    requires nonplaylist.Valid()
    requires Recommend(df, features, nonplaylist, similarity).Success?
    ensures SimilarityInputOk(nonplaylist, features)
    ensures ScoredRows(df, features, nonplaylist, similarity).Some?
    ensures Recommend(df, features, nonplaylist, similarity).value
      == Seqs.Take(SortBySim(ScoredRows(df, features, nonplaylist, similarity).value), TOP_N)
  {
  }

  /** Each row of the scored selection has its `sim` cell set; its song
      cells are a row of `df` with a non-playlist id, or are all NaN, and
      then no row of `df` was selected. */
  lemma ScoredRowsOrigin(df: seq<Row>, features: seq<real>, nonplaylist: FeatureTable, similarity: (seq<real>, seq<real>) -> real)
    requires ScoredRows(df, features, nonplaylist, similarity).Some?
    ensures forall r :: r in ScoredRows(df, features, nonplaylist, similarity).value ==>
      && r.sim.Some?
      && (r.song.Some? ==> r.song.value.track.id in Ids(nonplaylist.rows) && r.song in SongsWithoutSim(df))
      && (r.song.None? ==> Candidates(df, nonplaylist) == [])
  {
    var scored := ScoredRows(df, features, nonplaylist, similarity).value;
    var candidates := Candidates(df, nonplaylist);
    forall r | r in scored
      ensures r.sim.Some?
      ensures r.song.Some? ==> r.song.value.track.id in Ids(nonplaylist.rows) && r.song in SongsWithoutSim(df)
      ensures r.song.None? ==> candidates == []
    {
      var i :| 0 <= i < |scored| && scored[i] == r;
      if |candidates| > 0 {
        assert r.song == ClearSim(Some(candidates[i]));
        assert candidates[i] in candidates;
        var j :| 0 <= j < |df| && df[j] == candidates[i];
        assert SongsWithoutSim(df)[j] == r.song;
      }
    }
  }

  /** Every returned row is a scored row of the selection (each at most as
      often as it occurs there) with its `sim` cell set. Its song cells are a
      row of `df` whose id is among the non-playlist feature ids, or are all
      NaN, which happens only when no row of `df` was selected. */
  lemma RecommendDrawnFromCandidates(df: seq<Row>, features: seq<real>, nonplaylist: FeatureTable, similarity: (seq<real>, seq<real>) -> real)
    requires nonplaylist.Valid()
    requires Recommend(df, features, nonplaylist, similarity).Success?
    ensures var top := Recommend(df, features, nonplaylist, similarity).value;
      var scored := ScoredRows(df, features, nonplaylist, similarity);
      && scored.Some?
      && multiset(top) <= multiset(scored.value)
      && forall r :: r in top ==>
           && r.sim.Some?
           && (r.song.Some? ==> r.song.value.track.id in Ids(nonplaylist.rows) && r.song in SongsWithoutSim(df))
           && (r.song.None? ==> Candidates(df, nonplaylist) == [])
  {
    RecommendIsSortedHead(df, features, nonplaylist, similarity);
    TopOfSorted(ScoredRows(df, features, nonplaylist, similarity).value, TOP_N);
    ScoredRowsOrigin(df, features, nonplaylist, similarity);
  }

  /** When `cosine_similarity` accepts its inputs but no row of `df` has a
      non-playlist id, the ranking still succeeds: it returns min(40, number
      of non-playlist feature rows) rows, every one with all song cells NaN
      and only a score. */
  lemma RecommendFabricatesRowsOnEmptySelection(df: seq<Row>, features: seq<real>, nonplaylist: FeatureTable, similarity: (seq<real>, seq<real>) -> real)
    requires nonplaylist.Valid()
    requires SimilarityInputOk(nonplaylist, features)
    requires Candidates(df, nonplaylist) == []
    ensures Recommend(df, features, nonplaylist, similarity).Success?
    ensures |Recommend(df, features, nonplaylist, similarity).value| == Seqs.Min(TOP_N, |nonplaylist.rows|)
    ensures forall r :: r in Recommend(df, features, nonplaylist, similarity).value ==> r.song.None? && r.sim.Some?
  {
    RecommendIsSortedHead(df, features, nonplaylist, similarity);
    TopOfSorted(ScoredRows(df, features, nonplaylist, similarity).value, TOP_N);
    ScoredRowsOrigin(df, features, nonplaylist, similarity);
  }

  lemma TakeOfDescending(s: seq<Scored>, n: nat)
    requires Descending(s)
    ensures forall x, y :: x in multiset(s) - multiset(Seqs.Take(s, n)) && y in Seqs.Take(s, n) ==> SimOf(x) <= SimOf(y)
  {
    var top := Seqs.Take(s, n);
    var m := |top|;
    assert s == top + s[m..];
    assert multiset(s) - multiset(top) == multiset(s[m..]);
    forall x, y | x in multiset(s) - multiset(top) && y in top ensures SimOf(x) <= SimOf(y) {
      assert x in s[m..];
      var a :| 0 <= a < |s[m..]| && s[m..][a] == x;
      var b :| 0 <= b < m && top[b] == y;
      assert s[m + a] == x && s[b] == y;
    }
  }

  /** The ranking really is a top 40: no scored row left out scores higher
      than any row that was returned. */
  lemma RecommendIsTop(df: seq<Row>, features: seq<real>, nonplaylist: FeatureTable, similarity: (seq<real>, seq<real>) -> real)
    requires nonplaylist.Valid()
    requires Recommend(df, features, nonplaylist, similarity).Success?
    ensures var top := Recommend(df, features, nonplaylist, similarity).value;
      var scored := ScoredRows(df, features, nonplaylist, similarity);
      scored.Some? && forall x, y :: x in multiset(scored.value) - multiset(top) && y in top ==> SimOf(x) <= SimOf(y)
  {
    var scored := ScoredRows(df, features, nonplaylist, similarity).value;
    TakeOfDescending(SortBySim(scored), TOP_N);
  }

  /** The selected song rows line up one-to-one and positionally with the
      non-playlist feature rows. */
  predicate Aligned(df: seq<Row>, nonplaylist: FeatureTable)
  {
    var candidates := Candidates(df, nonplaylist);
    |candidates| == |nonplaylist.rows|
    && forall i :: 0 <= i < |candidates| ==> candidates[i].track.id == nonplaylist.rows[i].id
  }

  /** With aligned tables and inputs `cosine_similarity` accepts, the ranking
      succeeds, and every returned row is a song row carrying the score of
      the feature row with its own id. */
  lemma RecommendScoresOwnRow(df: seq<Row>, features: seq<real>, nonplaylist: FeatureTable, similarity: (seq<real>, seq<real>) -> real)
    requires nonplaylist.Valid()
    requires SimilarityInputOk(nonplaylist, features)
    requires Aligned(df, nonplaylist)
    ensures Recommend(df, features, nonplaylist, similarity).Success?
    ensures forall r :: r in Recommend(df, features, nonplaylist, similarity).value ==>
      r.song.Some? &&
      exists j :: 0 <= j < |nonplaylist.rows| && nonplaylist.rows[j].id == r.song.value.track.id
        && r.sim == Some(similarity(nonplaylist.rows[j].values, features))
  {
    RecommendIsSortedHead(df, features, nonplaylist, similarity);
    TopOfSorted(ScoredRows(df, features, nonplaylist, similarity).value, TOP_N);
    AlignedRowsCarryOwnScore(df, features, nonplaylist, similarity);
  }

  /** With aligned tables, row `i` of the scored selection is song row `i`
      with the score of feature row `i`, whose id is its own. */
  lemma AlignedRowsCarryOwnScore(df: seq<Row>, features: seq<real>, nonplaylist: FeatureTable, similarity: (seq<real>, seq<real>) -> real)
    requires Aligned(df, nonplaylist)
    ensures ScoredRows(df, features, nonplaylist, similarity).Some?
    ensures forall r :: r in ScoredRows(df, features, nonplaylist, similarity).value ==>
      r.song.Some? &&
      exists j :: 0 <= j < |nonplaylist.rows| && nonplaylist.rows[j].id == r.song.value.track.id
        && r.sim == Some(similarity(nonplaylist.rows[j].values, features))
  {
    var scored := ScoredRows(df, features, nonplaylist, similarity).value;
    var candidates := Candidates(df, nonplaylist);
    forall r | r in scored
      ensures r.song.Some?
      ensures exists j :: (0 <= j < |nonplaylist.rows| && nonplaylist.rows[j].id == r.song.value.track.id
                           && r.sim == Some(similarity(nonplaylist.rows[j].values, features)))
    {
      var i :| 0 <= i < |scored| && scored[i] == r;
      assert r.song == ClearSim(Some(candidates[i]));
      assert nonplaylist.rows[i].id == r.song.value.track.id;
    }
  }

  /** Chained after `generate_playlist_feature`, the ranking never recommends
      a song row whose id is in the playlist. */
  lemma RecommendExcludesPlaylist(df: seq<Row>, complete: FeatureTable, playlistIds: seq<string>, similarity: (seq<real>, seq<real>) -> real)
    requires complete.Valid()
    ensures var (features, nonplaylist) := GeneratePlaylistFeature(complete, playlistIds);
      var recos := Recommend(df, features, nonplaylist, similarity);
      recos.Success? ==> forall r :: r in recos.value && r.song.Some? ==> r.song.value.track.id !in playlistIds
  {
    var summary := GeneratePlaylistFeature(complete, playlistIds);
    var features, nonplaylist := summary.0, summary.1;
    if Recommend(df, features, nonplaylist, similarity).Success? {
      var top := Recommend(df, features, nonplaylist, similarity).value;
      RecommendDrawnFromCandidates(df, features, nonplaylist, similarity);
      var ids := Ids(nonplaylist.rows);
      assert forall k :: 0 <= k < |ids| ==> ids[k] !in playlistIds;
      forall r | r in top && r.song.Some? ensures r.song.value.track.id !in playlistIds {
        assert r.song.value.track.id in ids;
      }
    }
  }
}
