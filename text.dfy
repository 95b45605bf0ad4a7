/** The Python string operations the dataset parser relies on: str.find,
    str.split(sep), str.split(sep, 1), str.split() and slicing with negative
    bounds. Strings are sequences of characters. */
module Text {

  predicate OccursAt(s: string, sep: string, p: int)
  {
    0 <= p && p + |sep| <= |s| && s[p..p + |sep|] == sep
  }

  predicate Contains(s: string, sep: string)
  {
    exists p :: 0 <= p <= |s| && OccursAt(s, sep, p)
  }

  /** str.find restricted to a start position: the first occurrence at or after
      `from`, or -1. */
  function FindFrom(s: string, sep: string, from: nat): (r: int)
    requires |sep| > 0
    ensures r == -1 || (from <= r && OccursAt(s, sep, r))
    ensures forall p :: from <= p && (r == -1 || p < r) ==> !OccursAt(s, sep, p)
    decreases |s| - from
  {
    if from + |sep| > |s| then -1
    else if s[from..from + |sep|] == sep then from
    else FindFrom(s, sep, from + 1)
  }

  /** str.find: the first occurrence of sep in s, or -1 when there is none. */
  function Find(s: string, sep: string): (r: int)
    requires |sep| > 0
    ensures r == -1 <==> !Contains(s, sep)
    ensures r != -1 ==> OccursAt(s, sep, r) && forall p :: 0 <= p < r ==> !OccursAt(s, sep, p)
  {
    FindFrom(s, sep, 0)
  }

  /** str.split(sep, 1): the text before and after the first occurrence, or
      the whole string alone when sep does not occur. */
  function SplitOnce(s: string, sep: string): (r: seq<string>)
    requires |sep| > 0
    ensures |r| == 1 || |r| == 2
    ensures |r| == 2 <==> Contains(s, sep)
  {
    var i := Find(s, sep);
    if i == -1 then [s] else [s[..i], s[i + |sep|..]]
  }

  /** str.split(sep): every piece between non-overlapping occurrences,
      scanning from the left. */
  function SplitAll(s: string, sep: string): (r: seq<string>)
    requires |sep| > 0
    ensures |r| >= 1
    ensures |r| == 1 <==> !Contains(s, sep)
    decreases |s|
  {
    var i := Find(s, sep);
    if i == -1 then [s] else [s[..i]] + SplitAll(s[i + |sep|..], sep)
  }

  /** sep.join(pieces), the inverse of SplitAll. */
  function Join(pieces: seq<string>, sep: string): string
    requires |pieces| >= 1
  {
    if |pieces| == 1 then pieces[0] else pieces[0] + sep + Join(pieces[1..], sep)
  }

  /** A text is the concatenation of its three slices at a and b. */
  lemma CutAt(s: string, a: int, b: int)
    requires 0 <= a <= b <= |s|
    ensures s == s[..a] + s[a..b] + s[b..]
  {
  }

  lemma NoOccurrenceBeforeFirst(s: string, sep: string)
    requires |sep| > 0 && Find(s, sep) != -1
    ensures !Contains(s[..Find(s, sep)], sep)
  {
    var i := Find(s, sep);
    if p :| OccursAt(s[..i], sep, p) {
      assert s[..i][p..p + |sep|] == s[p..p + |sep|];
      assert OccursAt(s, sep, p);
    }
  }

  /** One step of SplitAll: the piece before the first occurrence, then the
      split of what follows it. */
  lemma SplitAllStep(s: string, sep: string)
    requires |sep| > 0 && Find(s, sep) != -1
    ensures Find(s, sep) + |sep| <= |s|
    ensures SplitAll(s, sep) == [s[..Find(s, sep)]] + SplitAll(s[Find(s, sep) + |sep|..], sep)
  {
  }

  lemma JoinCons(a: string, rest: seq<string>, sep: string)
    requires |rest| >= 1
    ensures Join([a] + rest, sep) == a + sep + Join(rest, sep)
  {
    assert ([a] + rest)[1..] == rest;
  }

  /** Splitting loses nothing: joining the pieces gives the text back. */
  lemma {:induction false} SplitAllJoin(s: string, sep: string)
    requires |sep| > 0
    ensures Join(SplitAll(s, sep), sep) == s
    decreases |s|
  {
    var i := Find(s, sep);
    if i != -1 {
      SplitAllStep(s, sep);
      var rest := s[i + |sep|..];
      SplitAllJoin(rest, sep);
      JoinCons(s[..i], SplitAll(rest, sep), sep);
      CutAt(s, i, i + |sep|);
    }
  }

  /** No piece of a split contains the separator. */
  lemma {:induction false} SplitAllPieces(s: string, sep: string)
    requires |sep| > 0
    ensures forall t :: 0 <= t < |SplitAll(s, sep)| ==> !Contains(SplitAll(s, sep)[t], sep)
    decreases |s|
  {
    var i := Find(s, sep);
    if i != -1 {
      SplitAllStep(s, sep);
      var rest := s[i + |sep|..];
      SplitAllPieces(rest, sep);
      NoOccurrenceBeforeFirst(s, sep);
    }
  }

  /** When sep occurs, str.split(sep, 1) cuts the text at its first
      occurrence: the two pieces joined by sep give the text back, and the
      first piece holds no occurrence. */
  lemma SplitOnceJoin(s: string, sep: string)
    requires |sep| > 0 && Contains(s, sep)
    ensures |SplitOnce(s, sep)| == 2
    ensures SplitOnce(s, sep)[0] + sep + SplitOnce(s, sep)[1] == s
    ensures !Contains(SplitOnce(s, sep)[0], sep)
  {
    var i := Find(s, sep);
    NoOccurrenceBeforeFirst(s, sep);
    CutAt(s, i, i + |sep|);
  }

  /** An occurrence in either part is an occurrence in the concatenation. */
  lemma ContainsConcat(x: string, y: string, m: string)
    ensures Contains(x, m) ==> Contains(x + y, m)
    ensures Contains(y, m) ==> Contains(x + y, m)
  {
    if Contains(x, m) {
      var p :| 0 <= p <= |x| && OccursAt(x, m, p);
      assert (x + y)[p..p + |m|] == x[p..p + |m|];
      assert OccursAt(x + y, m, p);
    }
    if Contains(y, m) {
      var p :| 0 <= p <= |y| && OccursAt(y, m, p);
      assert (x + y)[|x| + p..|x| + p + |m|] == y[p..p + |m|];
      assert OccursAt(x + y, m, |x| + p);
    }
  }

  /** The first piece of a split is a prefix of the text. */
  lemma FirstPiecePrefix(s: string, sep: string)
    requires |sep| > 0
    ensures SplitAll(s, sep)[0] <= s
  {
    var i := Find(s, sep);
    if i != -1 {
      SplitAllStep(s, sep);
    }
  }

  /** An occurrence inside a prefix is an occurrence in the text. */
  lemma ContainsPrefix(p: string, s: string, m: string)
    requires p <= s
    ensures Contains(p, m) ==> Contains(s, m)
  {
    assert s == p + s[|p|..];
    ContainsConcat(p, s[|p|..], m);
  }

  /** The characters Python's str.isspace accepts. */
  predicate IsSpace(ch: char)
  {
    ch == ' ' || ('\t' <= ch <= '\r') || ('\U{1C}' <= ch <= '\U{1F}') || ch == '\U{85}'
    || ch == '\U{A0}' || ch == '\U{1680}' || ('\U{2000}' <= ch <= '\U{200A}')
    || ch == '\U{2028}' || ch == '\U{2029}' || ch == '\U{202F}' || ch == '\U{205F}' || ch == '\U{3000}'
  }

  /** Length of the leading run of non-space characters. */
  function TokenLength(s: string): (n: nat)
    ensures n <= |s|
    ensures forall q :: 0 <= q < n ==> !IsSpace(s[q])
    ensures n < |s| ==> IsSpace(s[n])
  {
    if s == [] || IsSpace(s[0]) then 0 else 1 + TokenLength(s[1..])
  }

  /** str.split() with no argument: the maximal runs of non-space characters. */
  function Words(s: string): seq<string>
    decreases |s|
  {
    if s == [] then []
    else if IsSpace(s[0]) then Words(s[1..])
    else
      var n := TokenLength(s);
      [s[..n]] + Words(s[n..])
  }

  /** Every word is non-empty and holds no white space. */
  lemma {:induction false} WordsAreTokens(s: string)
    ensures forall t :: 0 <= t < |Words(s)| ==> |Words(s)[t]| > 0
    ensures forall t, q :: 0 <= t < |Words(s)| && 0 <= q < |Words(s)[t]| ==> !IsSpace(Words(s)[t][q])
    decreases |s|
  {
    if s == [] {
    } else if IsSpace(s[0]) {
      WordsAreTokens(s[1..]);
    } else {
      var n := TokenLength(s);
      WordsAreTokens(s[n..]);
      assert Words(s) == [s[..n]] + Words(s[n..]);
    }
  }

  /** Python's normalisation of a slice bound: a negative bound counts from
      the end, and the result is clamped to [0, len]. */
  function SliceBound(b: int, len: nat): (r: nat)
    ensures r <= len
  {
    if b < 0 then (if b + len < 0 then 0 else b + len)
    else if b > len then len else b
  }

  /** s[a:b] with Python semantics (an empty string when a >= b after normalising). */
  function PySlice(s: string, a: int, b: int): (r: string)
    ensures |r| <= |s|
  {
    var lo := SliceBound(a, |s|);
    var hi := SliceBound(b, |s|);
    if lo < hi then s[lo..hi] else ""
  }

  /** s[:b] with Python semantics. */
  function PyPrefix(s: string, b: int): (r: string)
    ensures r <= s
  {
    PySlice(s, 0, b)
  }
}
