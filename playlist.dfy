/** Summarising a playlist into one vector (recommender_model/scripts/
    data_handling.py, lines 56-74): the complete feature table is split into
    the rows whose id is in the playlist and the rest, and the playlist rows
    are summed column by column. */
module Playlist {
  import Seqs

  /** One row of the numeric feature table: the track id and its feature
      columns (everything but `id`), in the table's column order. */
  datatype FeatureRow = FeatureRow(id: string, values: seq<real>)

  /** A feature table: `width` feature columns besides `id`; the table knows
      its width even when it has no rows. */
  datatype FeatureTable = FeatureTable(width: nat, rows: seq<FeatureRow>)
  {
    /** Every row has one value per feature column. */
    predicate Valid()
    {
      forall i :: 0 <= i < |rows| ==> |rows[i].values| == width
    }
  }

  /** The `id` column of a feature table, in row order. */
  function Ids(rows: seq<FeatureRow>): (ids: seq<string>)
    ensures |ids| == |rows|
    ensures forall i :: 0 <= i < |rows| ==> ids[i] == rows[i].id
  {
    seq(|rows|, i requires 0 <= i < |rows| => rows[i].id)
  }

  /** The rows whose id is one of the playlist ids (data_handling.py:70). */
  function Members(rows: seq<FeatureRow>, playlistIds: seq<string>): (m: seq<FeatureRow>)
    ensures forall i :: 0 <= i < |m| ==> m[i].id in playlistIds
    ensures forall r :: r in m <==> r in rows && r.id in playlistIds
  {
    Seqs.Filter(rows, (r: FeatureRow) => r.id in playlistIds)
  }

  /** The rows whose id is not a playlist id (data_handling.py:72). */
  function NonMembers(rows: seq<FeatureRow>, playlistIds: seq<string>): (n: seq<FeatureRow>)
    ensures forall i :: 0 <= i < |n| ==> n[i].id !in playlistIds
    ensures forall r :: r in n <==> r in rows && r.id !in playlistIds
  {
    Seqs.Filter(rows, (r: FeatureRow) => r.id !in playlistIds)
  }

  function Zeros(n: nat): (z: seq<real>)
    ensures |z| == n && forall j :: 0 <= j < n ==> z[j] == 0.0
  {
    seq(n, j => 0.0)
  }

  function AddVectors(a: seq<real>, b: seq<real>): (c: seq<real>)
    requires |a| == |b|
    ensures |c| == |a| && forall j :: 0 <= j < |a| ==> c[j] == a[j] + b[j]
  {
    seq(|a|, j requires 0 <= j < |a| => a[j] + b[j])
  }

  /** The column-wise sum of a frame (data_handling.py:74): the rows' value
      vectors added together, starting from the zero vector of the table's
      width. */
  function VectorSum(rows: seq<FeatureRow>, width: nat): (v: seq<real>)
    requires forall i :: 0 <= i < |rows| ==> |rows[i].values| == width
    ensures |v| == width
  {
    if rows == [] then Zeros(width)
    else AddVectors(rows[0].values, VectorSum(rows[1..], width))
  }

  /** Reference definition: the total of column `j` over the rows. */
  function ColumnTotal(rows: seq<FeatureRow>, j: nat): real
    requires forall i :: 0 <= i < |rows| ==> j < |rows[i].values|
  {
    if rows == [] then 0.0 else rows[0].values[j] + ColumnTotal(rows[1..], j)
  }

  /** `generate_playlist_feature`: the playlist vector (the member rows
      summed, `id` dropped) and the table of non-member rows. */
  function GeneratePlaylistFeature(complete: FeatureTable, playlistIds: seq<string>): (result: (seq<real>, FeatureTable))
    requires complete.Valid()
    ensures |result.0| == complete.width
    ensures result.1.width == complete.width && result.1.Valid()
  {
    var members := Members(complete.rows, playlistIds);
    (VectorSum(members, complete.width), FeatureTable(complete.width, NonMembers(complete.rows, playlistIds)))
  }

  /** Component `j` of a vector sum is the total of column `j`. */
  lemma {:induction false} VectorSumIsColumnTotals(rows: seq<FeatureRow>, width: nat)
    requires forall i :: 0 <= i < |rows| ==> |rows[i].values| == width
    ensures forall j :: 0 <= j < width ==> VectorSum(rows, width)[j] == ColumnTotal(rows, j)
  {
    if rows != [] {
      VectorSumIsColumnTotals(rows[1..], width);
    }
  }

  /** Every row of the complete table lands in exactly one of the member and
      non-member tables; the non-member table holds exactly the rows whose id
      is not in the playlist, and the member table exactly the others. */
  lemma PlaylistPartition(complete: FeatureTable, playlistIds: seq<string>)
    requires complete.Valid()
    ensures var members := Members(complete.rows, playlistIds);
      var rest := GeneratePlaylistFeature(complete, playlistIds).1.rows;
      && multiset(members) + multiset(rest) == multiset(complete.rows)
      && |members| + |rest| == |complete.rows|
      && (forall r :: r in rest <==> r in complete.rows && r.id !in playlistIds)
      && (forall r :: r in members <==> r in complete.rows && r.id in playlistIds)
  {
    Seqs.FilterPartition(complete.rows, (r: FeatureRow) => r.id in playlistIds, (r: FeatureRow) => r.id !in playlistIds);
  }

  /** The non-member table keeps the input order: splitting the input in two
      and selecting from each half gives the two halves of the selection. */
  lemma NonMembersKeepOrder(a: seq<FeatureRow>, b: seq<FeatureRow>, playlistIds: seq<string>)
    ensures NonMembers(a + b, playlistIds) == NonMembers(a, playlistIds) + NonMembers(b, playlistIds)
  {
    Seqs.FilterConcat(a, b, (r: FeatureRow) => r.id !in playlistIds);
  }

  /** The playlist vector is the column-wise sum (not the mean) over the
      member rows. */
  lemma PlaylistVectorIsSum(complete: FeatureTable, playlistIds: seq<string>)
    requires complete.Valid()
    ensures var members := Members(complete.rows, playlistIds);
      var v := GeneratePlaylistFeature(complete, playlistIds).0;
      && (forall i :: 0 <= i < |members| ==> |members[i].values| == complete.width)
      && forall j :: 0 <= j < complete.width ==> v[j] == ColumnTotal(members, j)
  {
    var members := Members(complete.rows, playlistIds);
    assert forall i :: 0 <= i < |members| ==> members[i] in complete.rows;
    VectorSumIsColumnTotals(members, complete.width);
  }

  /** When no row's id is in the playlist, the playlist vector is the zero
      vector of the table's width and the non-member table is the whole table. */
  lemma PlaylistAbsentGivesZeroVector(complete: FeatureTable, playlistIds: seq<string>)
    requires complete.Valid()
    requires forall i :: 0 <= i < |complete.rows| ==> complete.rows[i].id !in playlistIds
    ensures GeneratePlaylistFeature(complete, playlistIds).0 == Zeros(complete.width)
    ensures GeneratePlaylistFeature(complete, playlistIds).1.rows == complete.rows
  {
    NoneRemoved(complete.rows, playlistIds);
  }

  lemma {:induction false} NoneRemoved(rows: seq<FeatureRow>, playlistIds: seq<string>)
    requires forall i :: 0 <= i < |rows| ==> rows[i].id !in playlistIds
    ensures NonMembers(rows, playlistIds) == rows
  {
    if rows != [] {
      NoneRemoved(rows[1..], playlistIds);
      assert rows == [rows[0]] + rows[1..];
    }
  }
}
