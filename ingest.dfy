/** Completing a fetched audio-features record (recommender_model/scripts/
    ari.py, lines 40-48): the artist popularity, the artist's genres as one
    space-separated string, and the track popularity are written into the
    record in place. The record, the popularities and the genre list are what
    the metadata service returned; they arrive here as parameters. */
module Ingest {
  import Text

  /** The genre string stored when the artist has no genres. */
  const UNKNOWN_GENRE: string := "unknown"

  /** A genre with every space replaced by an underscore (ari.py:43). */
  function Underscored(genre: string): (u: string)
    ensures |u| == |genre| && ' ' !in u
    ensures forall i :: 0 <= i < |genre| ==> u[i] == (if genre[i] == ' ' then '_' else genre[i])
  {
    Text.ReplaceChar(genre, ' ', '_')
  }

  /** The genres with their spaces replaced, in the same order. */
  function UnderscoredAll(genres: seq<string>): (tokens: seq<string>)
    ensures |tokens| == |genres|
    ensures forall i :: 0 <= i < |genres| ==> tokens[i] == Underscored(genres[i]) && ' ' !in tokens[i]
  {
    seq(|genres|, i requires 0 <= i < |genres| => Underscored(genres[i]))
  }

  /** The value stored under "genres" (ari.py:42-45): "unknown" for no
      genres; otherwise the underscored genres with exactly one space between
      each two neighbours and no other space. */
  function EncodeGenres(genres: seq<string>): (s: string)
    ensures |genres| == 0 ==> s == UNKNOWN_GENRE
    ensures |genres| > 0 ==> Text.Count(s, ' ') == |genres| - 1
  {
    if |genres| > 0 then Text.Join(UnderscoredAll(genres), ' ') else UNKNOWN_GENRE
  }

  /** For a nonempty genre list, splitting the stored string on single spaces
      (as data_handling.py:28 later does) gives one token per genre, token `i`
      being genre `i` with its spaces replaced by underscores; so the stored
      string is those tokens joined by single spaces. */
  lemma EncodeGenresRoundTrip(genres: seq<string>)
    requires |genres| > 0
    ensures Text.Split(EncodeGenres(genres), ' ') == UnderscoredAll(genres)
    ensures |Text.Split(EncodeGenres(genres), ' ')| == |genres|
    ensures EncodeGenres(genres) == Text.Join(Text.Split(EncodeGenres(genres), ' '), ' ')
  {
    Text.JoinThenSplit(UnderscoredAll(genres), ' ');
  }

  /** An artist without genres is stored as the single token "unknown". */
  lemma EncodeNoGenres()
    ensures EncodeGenres([]) == UNKNOWN_GENRE
    ensures Text.Split(EncodeGenres([]), ' ') == [UNKNOWN_GENRE]
  {
    Text.JoinThenSplit([UNKNOWN_GENRE], ' ');
  }

  /** The sentinel is ambiguous: no genres and the one genre "unknown" are
      stored the same way. */
  lemma UnknownSentinelIsAmbiguous()
    ensures EncodeGenres([]) == EncodeGenres([UNKNOWN_GENRE])
  {
    assert Underscored(UNKNOWN_GENRE) == UNKNOWN_GENRE;
  }

  /** A value of the audio-features record. */
  datatype Value = Number(real) | Integer(int) | Str(string)

  /** The audio-features record returned by the metadata service, a Python
      dict updated key by key. */
  class FeatureRecord {
    var entries: map<string, Value>

    constructor (entries: map<string, Value>)
      ensures this.entries == entries
    {
      this.entries := entries;
    }

    /** Storing one value under one key of the record. */
    method Put(key: string, value: Value)
      modifies this
      ensures entries == old(entries)[key := value]
    {
      entries := entries[key := value];
    }
  }

  /** ari.py:41-48: the record gains (or has overwritten) "artist_pop",
      "genres" and "track_pop"; every other key keeps its value, and the same
      record object is returned. */
  method AddExtraFeatures(features: FeatureRecord, artistPop: int, artistGenres: seq<string>, trackPop: int)
    returns (result: FeatureRecord)
    modifies features
    ensures result == features
    ensures features.entries.Keys == old(features.entries).Keys + {"artist_pop", "genres", "track_pop"}
    ensures features.entries["artist_pop"] == Integer(artistPop)
    ensures features.entries["track_pop"] == Integer(trackPop)
    ensures features.entries["genres"] == Str(EncodeGenres(artistGenres))
    ensures forall k :: k in old(features.entries) && k != "artist_pop" && k != "genres" && k != "track_pop" ==>
      features.entries[k] == old(features.entries)[k]
  {
    features.Put("artist_pop", Integer(artistPop));
    if |artistGenres| > 0 {
      features.Put("genres", Str(Text.Join(UnderscoredAll(artistGenres), ' ')));
    } else {
      features.Put("genres", Str(UNKNOWN_GENRE));
    }
    features.Put("track_pop", Integer(trackPop));
    result := features;
  }
}
