/** Catalog cleaning (recommender_model/scripts/data_handling.py, lines 7-29
    and 77-87): dropping duplicate songs, keeping the 17 useful columns, and
    splitting each row's genre string into a token list.

    A pandas DataFrame is a `Frame` object whose `rows` the in-place column
    additions reassign; the selections that build a new frame are functions
    on `seq<Row>`. */
module Catalog {
  import opened Results
  import Text

  /** The 17 columns kept by `select_cols`, in their listed order. */
  datatype Track = Track(
    artistName: string, id: string, trackName: string,
    danceability: real, energy: real, key: real, loudness: real, mode: real,
    speechiness: real, acousticness: real, instrumentalness: real,
    liveness: real, valence: real, tempo: real,
    artistPop: int, genres: string, trackPop: int)

  /** One row of a catalog frame: the 17 canonical columns, the two columns
      the cleaning steps add (`artists_song`, `genres_list`), and every other
      column of the raw input, by name. A column has one place only: `others`
      never holds one of the 17 canonical names, "artists_song" or
      "genres_list", so writing those cells overwrites the column as pandas
      does. Only a "sim" column may sit in `others`; the ranking removes it
      when it writes its own score column. */
  datatype Row = Row(
    track: Track,
    artistsSong: Option<string>,
    genresList: Option<seq<string>>,
    others: map<string, string>)

  /** The deduplication key: artist name and track name concatenated with no
      separator, so ("ab", "c") and ("a", "bc") share a key. */
  function SongKey(r: Row): string
  {
    r.track.artistName + r.track.trackName
  }

  /** The keys of all rows of a table. */
  function Keys(rows: seq<Row>): set<string>
  {
    set i | 0 <= i < |rows| :: SongKey(rows[i])
  }

  /** No two rows share a key. */
  predicate UniqueKeys(rows: seq<Row>)
  {
    forall i, j :: 0 <= i < j < |rows| ==> SongKey(rows[i]) != SongKey(rows[j])
  }

  // ---------------------------------------------------------------------
  // drop_duplicates (data_handling.py:7-12)

  /** The rows after data_handling.py:11 adds the `artists_song` column:
      each row's new cell holds its own key, and nothing else changes. */
  function WithSongKeys(rows: seq<Row>): (out: seq<Row>)
    ensures |out| == |rows|
    ensures forall i :: 0 <= i < |rows| ==>
      out[i].artistsSong == Some(SongKey(out[i])) && out[i].(artistsSong := rows[i].artistsSong) == rows[i]
    ensures Keys(out) == Keys(rows)
  {
    assert forall i :: 0 <= i < |rows| ==> SongKey(rows[i].(artistsSong := Some(SongKey(rows[i])))) == SongKey(rows[i]);
    seq(|rows|, i requires 0 <= i < |rows| => rows[i].(artistsSong := Some(SongKey(rows[i]))))
  }

  /** `drop_duplicates('artists_song')` scanning the rows in order with the
      set of keys met so far: a row is kept when its key is new. */
  function DedupFrom(rows: seq<Row>, seen: set<string>): (r: seq<Row>)
    ensures |r| <= |rows|
    ensures forall i :: 0 <= i < |r| ==> SongKey(r[i]) !in seen
    ensures UniqueKeys(r)
    ensures Keys(r) == Keys(rows) - seen
  {
    if rows == [] then []
    else
      var k := SongKey(rows[0]);
      var rest := rows[1..];
      KeysOfCons(rows);
      if k in seen then DedupFrom(rest, seen)
      else
        var tail := DedupFrom(rest, seen + {k});
        KeysOfCons([rows[0]] + tail);
        assert ([rows[0]] + tail)[1..] == tail;
        [rows[0]] + tail
  }

  /** Pandas `drop_duplicates` keeping the first row of each key (its
      default): one row per key, every key of the input still present, and
      the table never grows. */
  function Dedup(rows: seq<Row>): (r: seq<Row>)
    ensures UniqueKeys(r)
    ensures Keys(r) == Keys(rows)
    ensures |r| <= |rows|
  {
    DedupFrom(rows, {})
  }

  lemma KeysOfCons(rows: seq<Row>)
    requires rows != []
    ensures Keys(rows) == {SongKey(rows[0])} + Keys(rows[1..])
  {
    forall k | k in Keys(rows) ensures k in {SongKey(rows[0])} + Keys(rows[1..]) {
      var i :| 0 <= i < |rows| && SongKey(rows[i]) == k;
      if i > 0 {
        assert rows[1..][i - 1] == rows[i];
      }
    }
    forall k | k in Keys(rows[1..]) ensures k in Keys(rows) {
      var i :| 0 <= i < |rows[1..]| && SongKey(rows[1..][i]) == k;
      assert rows[1..][i] == rows[i + 1];
    }
  }

  lemma KeysOfSnoc(rows: seq<Row>, n: nat)
    requires n < |rows|
    ensures Keys(rows[..n + 1]) == Keys(rows[..n]) + {SongKey(rows[n])}
  {
    var a, b := rows[..n], rows[..n + 1];
    forall k | k in Keys(b) ensures k in Keys(a) + {SongKey(rows[n])} {
      var i :| 0 <= i < |b| && SongKey(b[i]) == k;
      if i < n {
        assert b[i] == a[i];
      }
    }
    forall k | k in Keys(a) ensures k in Keys(b) {
      var i :| 0 <= i < |a| && SongKey(a[i]) == k;
      assert b[i] == a[i];
    }
    assert b[n] == rows[n];
  }

  /** Row `i` is the first row carrying its key. */
  predicate IsFirstOccurrence(rows: seq<Row>, i: nat)
    requires i < |rows|
  {
    forall j :: 0 <= j < i ==> SongKey(rows[j]) != SongKey(rows[i])
  }

  /** Reference definition of deduplication: among the first `n` rows, those
      that are the first to carry their key, in their original order. */
  function FirstOccurrences(rows: seq<Row>, n: nat): seq<Row>
    requires n <= |rows|
  {
    if n == 0 then []
    else FirstOccurrences(rows, n - 1) + (if IsFirstOccurrence(rows, n - 1) then [rows[n - 1]] else [])
  }

  lemma IsFirstOccurrenceByKeys(rows: seq<Row>, n: nat)
    requires n < |rows|
    ensures IsFirstOccurrence(rows, n) <==> SongKey(rows[n]) !in Keys(rows[..n])
  {
    if !IsFirstOccurrence(rows, n) {
      var j :| 0 <= j < n && SongKey(rows[j]) == SongKey(rows[n]);
      assert rows[..n][j] == rows[j];
    }
    if SongKey(rows[n]) in Keys(rows[..n]) {
      var j :| 0 <= j < n && SongKey(rows[..n][j]) == SongKey(rows[n]);
      assert rows[..n][j] == rows[j];
    }
  }

  /** After the first `n` rows the scan has emitted exactly their first
      occurrences and has seen exactly their keys. */
  lemma {:induction false} DedupAfterPrefix(rows: seq<Row>, n: nat)
    requires n <= |rows|
    ensures FirstOccurrences(rows, n) + DedupFrom(rows[n..], Keys(rows[..n])) == Dedup(rows)
  {
    if n == 0 {
      assert rows[0..] == rows;
      assert Keys(rows[..0]) == {};
    } else {
      var m := n - 1;
      DedupAfterPrefix(rows, m);
      var seen := Keys(rows[..m]);
      var suffix := rows[m..];
      assert suffix[0] == rows[m] && suffix[1..] == rows[n..];
      KeysOfSnoc(rows, m);
      IsFirstOccurrenceByKeys(rows, m);
      if SongKey(rows[m]) in seen {
        assert Keys(rows[..n]) == seen;
        assert DedupFrom(suffix, seen) == DedupFrom(rows[n..], Keys(rows[..n]));
      } else {
        assert DedupFrom(suffix, seen) == [rows[m]] + DedupFrom(rows[n..], Keys(rows[..n]));
      }
    }
  }

  /** `drop_duplicates` keeps, in order, exactly the rows that are the first
      to carry their key. */
  lemma DedupKeepsFirstOccurrences(rows: seq<Row>)
    ensures Dedup(rows) == FirstOccurrences(rows, |rows|)
  {
    DedupAfterPrefix(rows, |rows|);
    assert rows[|rows|..] == [];
  }

  /** A scan over rows whose keys are distinct and all unseen keeps them all. */
  lemma {:induction false} DedupFromKeepsUnique(rows: seq<Row>, seen: set<string>)
    requires UniqueKeys(rows)
    requires forall i :: 0 <= i < |rows| ==> SongKey(rows[i]) !in seen
    ensures DedupFrom(rows, seen) == rows
  {
    if rows != [] {
      var k := SongKey(rows[0]);
      forall i | 0 <= i < |rows[1..]| ensures SongKey(rows[1..][i]) !in seen + {k} {
        assert rows[1..][i] == rows[i + 1];
      }
      DedupFromKeepsUnique(rows[1..], seen + {k});
      assert rows == [rows[0]] + rows[1..];
    }
  }

  /** Dropping duplicates a second time removes nothing. */
  lemma DedupIdempotent(rows: seq<Row>)
    ensures Dedup(Dedup(rows)) == Dedup(rows)
  {
    DedupFromKeepsUnique(Dedup(rows), {});
  }

  /** Two different songs whose artist and track names concatenate to the same
      string are merged: only the first survives. */
  lemma DedupMergesWithoutSeparator(a: Row, b: Row)
    requires a.track.artistName == "ab" && a.track.trackName == "c"
    requires b.track.artistName == "a" && b.track.trackName == "bc"
    ensures Dedup([a, b]) == [a]
  {
    assert SongKey(a) == "abc" == SongKey(b);
    assert [a, b][1..] == [b] && [b][1..] == [];
    var seen: set<string> := {};
    assert seen + {SongKey(a)} == {SongKey(a)};
    assert DedupFrom([b], {SongKey(a)}) == [];
    assert Dedup([a, b]) == [a] + DedupFrom([b], seen + {SongKey(a)});
  }

  // ---------------------------------------------------------------------
  // select_cols (data_handling.py:15-21)

  /** The row carries only the 17 canonical columns. */
  predicate OnlyCanonical(r: Row)
  {
    r.artistsSong.None? && r.genresList.None? && r.others == map[]
  }

  /** Keep the 17 listed columns of every row, in the same row order. */
  function SelectCols(rows: seq<Row>): (out: seq<Row>)
    ensures |out| == |rows|
    ensures forall i :: 0 <= i < |rows| ==> out[i].track == rows[i].track && OnlyCanonical(out[i])
  {
    seq(|rows|, i requires 0 <= i < |rows| => Row(rows[i].track, None, None, map[]))
  }

  /** Selecting the columns of an already selected table changes nothing. */
  lemma SelectColsIdempotent(rows: seq<Row>)
    ensures SelectCols(SelectCols(rows)) == SelectCols(rows)
  {
  }

  // ---------------------------------------------------------------------
  // genre_preprocess (data_handling.py:24-29)

  /** The rows after data_handling.py:28 adds the `genres_list` column: every
      row gains a token list (its genre string split on spaces, see
      GenresListRoundTrip), and nothing else changes. */
  function WithGenresLists(rows: seq<Row>): (out: seq<Row>)
    ensures |out| == |rows|
    ensures forall i :: 0 <= i < |rows| ==>
      out[i].genresList.Some? && out[i].(genresList := rows[i].genresList) == rows[i]
  {
    seq(|rows|, i requires 0 <= i < |rows| => rows[i].(genresList := Some(Text.Split(rows[i].track.genres, ' '))))
  }

  /** Each row's `genres_list` is its `genres` string cut at every single
      space: one more token than there are spaces, no token holding a space,
      and joining the tokens with spaces gives back `genres`. Nothing else in
      the row changes. */
  lemma GenresListRoundTrip(rows: seq<Row>)
    ensures |WithGenresLists(rows)| == |rows|
    ensures forall i :: 0 <= i < |rows| ==>
      var r := WithGenresLists(rows)[i];
      && r.genresList.Some?
      && Text.Join(r.genresList.value, ' ') == rows[i].track.genres
      && |r.genresList.value| == Text.Count(rows[i].track.genres, ' ') + 1
      && (forall t :: t in r.genresList.value ==> ' ' !in t)
      && r.(genresList := rows[i].genresList) == rows[i]
  {
    forall i | 0 <= i < |rows| ensures Text.Join(Text.Split(rows[i].track.genres, ' '), ' ') == rows[i].track.genres {
      Text.SplitThenJoin(rows[i].track.genres, ' ');
    }
  }

  /** An empty genre string becomes one empty token, not an empty list. */
  lemma EmptyGenresGiveOneEmptyToken()
    ensures Text.Split("", ' ') == [""]
  {
  }

  // ---------------------------------------------------------------------
  // get_features (data_handling.py:77-87)

  /** The rows produced by the chain at data_handling.py:85-87: never more
      rows than the input, each carrying its 17 columns and a token list only. */
  function Features(rows: seq<Row>): (out: seq<Row>)
    ensures |out| <= |rows|
    ensures forall i :: 0 <= i < |out| ==>
      out[i].genresList.Some? && out[i].artistsSong.None? && out[i].others == map[]
  {
    WithGenresLists(SelectCols(Dedup(WithSongKeys(rows))))
  }

  /** The feature table has one row per artist+track key, every key of the
      input survives, each row carries only its canonical columns and its
      genre token list, and that list is its genre string split on spaces. */
  lemma FeaturesShape(rows: seq<Row>)
    ensures var out := Features(rows);
      && |out| <= |rows|
      && UniqueKeys(out)
      && Keys(out) == Keys(rows)
      && forall i :: 0 <= i < |out| ==>
           && out[i].genresList == Some(Text.Split(out[i].track.genres, ' '))
           && out[i].artistsSong.None? && out[i].others == map[]
  {
    var deduped := Dedup(WithSongKeys(rows));
    var out := Features(rows);
    assert forall i :: 0 <= i < |out| ==> SongKey(out[i]) == SongKey(deduped[i]);
    assert Keys(out) == Keys(deduped) by {
      forall k | k in Keys(out) ensures k in Keys(deduped) {
        var i :| 0 <= i < |out| && SongKey(out[i]) == k;
      }
      forall k | k in Keys(deduped) ensures k in Keys(out) {
        var i :| 0 <= i < |deduped| && SongKey(deduped[i]) == k;
        assert SongKey(out[i]) == k;
      }
    }
  }

  // ---------------------------------------------------------------------
  // The DataFrame object and the in-place steps

  /** A pandas DataFrame: an ordered table of rows that column assignments
      update in place. */
  class Frame {
    var rows: seq<Row>

    constructor (rows: seq<Row>)
      ensures this.rows == rows
    {
      this.rows := rows;
    }

    /** Adds the `artists_song` column in place: each row's artist name
        followed directly by its track name. */
    method AddSongKeyColumn()
      modifies this
      ensures rows == WithSongKeys(old(rows))
    {
      rows := WithSongKeys(rows);
    }

    /** Adds the `genres_list` column in place: each row's genre string cut
        at every single space. */
    method AddGenresListColumn()
      modifies this
      ensures rows == WithGenresLists(old(rows))
    {
      rows := WithGenresLists(rows);
    }
  }

  /** `drop_duplicates`: adds the key column to the caller's frame, then
      returns a new frame without the later duplicates. */
  method DropDuplicates(df: Frame) returns (deduped: Frame)
    modifies df
    ensures df.rows == WithSongKeys(old(df.rows))
    ensures fresh(deduped) && deduped.rows == Dedup(df.rows)
  {
    df.AddSongKeyColumn();
    deduped := new Frame(Dedup(df.rows));
  }

  /** `genre_preprocess`: adds the token-list column to the frame it is
      given and returns that same frame. */
  method GenrePreprocess(df: Frame) returns (result: Frame)
    modifies df
    ensures result == df
    ensures df.rows == WithGenresLists(old(df.rows))
  {
    df.AddGenresListColumn();
    result := df;
  }

  /** `get_features`: the input frame is copied first (line 84 builds a
      new frame), so the caller's frame is left as it was. */
  method GetFeatures(df: Frame) returns (songs: Frame)
    ensures fresh(songs)
    ensures songs.rows == Features(df.rows)
  {
    var playlistDf := new Frame(df.rows);
    var songDf := DropDuplicates(playlistDf);
    songDf := new Frame(SelectCols(songDf.rows));
    songs := GenrePreprocess(songDf);
  }
}
