/** The Python string operations the pipeline applies to genre strings:
    `str.split(sep)`, `sep.join(parts)` and replacing one character. */
module Text {

  /** The number of occurrences of `c` in `s`. */
  function Count(s: string, c: char): nat
  {
    if s == [] then 0 else (if s[0] == c then 1 else 0) + Count(s[1..], c)
  }

  /** Python's `s.split(sep)` for a one-character separator: always at least
      one part (`"".split(" ") == [""]`), and two adjacent separators give an
      empty part between them. */
  function Split(s: string, sep: char): (parts: seq<string>)
    ensures |parts| == Count(s, sep) + 1
    ensures forall i :: 0 <= i < |parts| ==> sep !in parts[i]
  {
    if s == [] then [""]
    else
      var rest := Split(s[1..], sep);
      if s[0] == sep then [""] + rest
      else [[s[0]] + rest[0]] + rest[1..]
  }

  /** Python's `str.join`: the parts with one separator between each two
      neighbours. Joining no parts gives the empty string; when no part holds
      the separator, the result holds exactly one fewer separators than there
      are parts. */
  function Join(parts: seq<string>, sep: char): (s: string)
    ensures |parts| == 0 ==> s == ""
    ensures |parts| > 0 && (forall i :: 0 <= i < |parts| ==> sep !in parts[i]) ==> Count(s, sep) == |parts| - 1
  {
    if |parts| == 0 then ""
    else if |parts| == 1 then
      CountAbsent(parts[0], sep);
      parts[0]
    else
      var rest := Join(parts[1..], sep);
      CountConcat(parts[0] + [sep], rest, sep);
      CountConcat(parts[0], [sep], sep);
      CountAbsent(parts[0], sep);
      assert Count([sep], sep) == 1;
      assert forall i :: 1 <= i < |parts| ==> parts[1..][i - 1] == parts[i];
      parts[0] + [sep] + rest
  }

  lemma {:induction false} CountConcat(a: string, b: string, c: char)
    ensures Count(a + b, c) == Count(a, c) + Count(b, c)
  {
    if a == [] {
      assert a + b == b;
    } else {
      assert (a + b)[1..] == a[1..] + b;
      CountConcat(a[1..], b, c);
    }
  }

  lemma {:induction false} CountAbsent(s: string, c: char)
    ensures c !in s ==> Count(s, c) == 0
  {
    if s != [] {
      CountAbsent(s[1..], c);
      assert s == [s[0]] + s[1..];
    }
  }

  /** `re.sub(from, to, s)` for a single literal character. */
  function ReplaceChar(s: string, from: char, to: char): (r: string)
    ensures |r| == |s|
    ensures forall i :: 0 <= i < |s| ==> r[i] == (if s[i] == from then to else s[i])
    ensures from != to ==> from !in r
  {
    if s == [] then []
    else [if s[0] == from then to else s[0]] + ReplaceChar(s[1..], from, to)
  }

  /** Joining the parts of a split with the same separator gives back the
      original string. */
  lemma {:induction false} SplitThenJoin(s: string, sep: char)
    ensures Join(Split(s, sep), sep) == s
  {
    if s != [] {
      var rest := Split(s[1..], sep);
      SplitThenJoin(s[1..], sep);
      assert s == [s[0]] + s[1..];
      if s[0] == sep {
        JoinOfLeadingEmpty(rest, sep);
      } else {
        JoinOfExtendedHead(s[0], rest, sep);
      }
    }
  }

  lemma JoinOfLeadingEmpty(rest: seq<string>, sep: char)
    requires |rest| >= 1
    ensures Join([""] + rest, sep) == [sep] + Join(rest, sep)
  {
    assert ([""] + rest)[1..] == rest;
  }

  lemma JoinOfExtendedHead(c: char, rest: seq<string>, sep: char)
    requires |rest| >= 1
    ensures Join([[c] + rest[0]] + rest[1..], sep) == [c] + Join(rest, sep)
  {
    var parts := [[c] + rest[0]] + rest[1..];
    if |rest| > 1 {
      assert parts[1..] == rest[1..];
    }
  }

  /** Splitting a string that starts with a separator-free prefix `t`: `t`
      is glued to the first part of the rest. */
  lemma {:induction false} SplitAfterPlainPrefix(t: string, w: string, sep: char)
    requires sep !in t
    ensures Split(t + w, sep) == [t + Split(w, sep)[0]] + Split(w, sep)[1..]
  {
    if t == [] {
      assert t + w == w;
      assert t + Split(w, sep)[0] == Split(w, sep)[0];
      assert Split(w, sep) == [Split(w, sep)[0]] + Split(w, sep)[1..];
    } else {
      assert (t + w)[0] == t[0];
      assert (t + w)[1..] == t[1..] + w;
      SplitAfterPlainPrefix(t[1..], w, sep);
      assert [t[0]] + (t[1..] + Split(w, sep)[0]) == t + Split(w, sep)[0];
    }
  }

  /** Splitting a join gives back the parts, as long as there is at least one
      part and no part contains the separator. */
  lemma {:induction false} JoinThenSplit(parts: seq<string>, sep: char)
    requires |parts| >= 1
    requires forall i :: 0 <= i < |parts| ==> sep !in parts[i]
    ensures Split(Join(parts, sep), sep) == parts
  {
    if |parts| == 1 {
      SplitAfterPlainPrefix(parts[0], "", sep);
      assert parts[0] + "" == parts[0];
    } else {
      var tail := Join(parts[1..], sep);
      JoinThenSplit(parts[1..], sep);
      SplitAfterPlainPrefix(parts[0], [sep] + tail, sep);
      assert ([sep] + tail)[1..] == tail;
      assert Split([sep] + tail, sep) == [""] + Split(tail, sep);
      assert parts[0] + "" == parts[0];
      assert parts[0] + [sep] + tail == parts[0] + ([sep] + tail);
      assert parts == [parts[0]] + parts[1..];
    }
  }
}
