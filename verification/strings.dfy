/** The `str` methods the string-based parsers use: `find`, `split`, `starts_with`, `trim`
    and the `trim_*_matches` family, over `string = seq<char>`. Positions are character
    positions; the byte offsets Rust returns coincide with them on ASCII text.
 */
module Strings {
  import opened Outcomes
  import opened Text

  /** Whether `pat` occurs in `s` at position `i`. */
  predicate OccursAt(s: string, pat: string, i: nat) {
    i + |pat| <= |s| && s[i..i + |pat|] == pat
  }

  /** `s.find(pat)`: the position of the first occurrence of `pat`, if any (an empty pattern
      is found at 0). */
  function Find(s: string, pat: string): (r: Option<nat>)
    ensures r.Some? ==> OccursAt(s, pat, r.value)
    ensures r.Some? ==> forall j :: 0 <= j < r.value ==> !OccursAt(s, pat, j)
    ensures r.None? ==> forall j :: 0 <= j <= |s| ==> !OccursAt(s, pat, j)
    decreases |s|
  {
    if OccursAt(s, pat, 0) then Some(0)
    else if |s| == 0 then None
    else
      var rest := Find(s[1..], pat);
      ShiftOccurrences(s, pat);
      if rest.None? then None else Some(rest.value + 1)
  }

  /** An occurrence in `s[1..]` is one in `s`, one place later. */
  lemma ShiftOccurrences(s: string, pat: string)
    requires |s| > 0
    ensures forall j :: 1 <= j <= |s| ==> (OccursAt(s, pat, j) <==> OccursAt(s[1..], pat, j - 1))
  {
    forall j | 1 <= j <= |s|
      ensures OccursAt(s, pat, j) <==> OccursAt(s[1..], pat, j - 1)
    {
      if j + |pat| <= |s| {
        assert s[1..][j - 1..j - 1 + |pat|] == s[j..j + |pat|];
      }
    }
  }

  /** An occurrence in a suffix is one in the whole text, shifted by where the suffix
      starts. */
  lemma OccursInSuffix(s: string, pat: string, a: nat)
    requires a <= |s|
    ensures forall j :: a <= j <= |s| ==> (OccursAt(s[a..], pat, j - a) <==> OccursAt(s, pat, j))
  {
    forall j | a <= j <= |s|
      ensures OccursAt(s[a..], pat, j - a) <==> OccursAt(s, pat, j)
    {
      if j + |pat| <= |s| {
        assert s[a..][j - a..j - a + |pat|] == s[j..j + |pat|];
      }
    }
  }

  /** Whether `pat` occurs anywhere in `s`. */
  predicate Contains(s: string, pat: string) {
    exists j :: 0 <= j <= |s| && OccursAt(s, pat, j)
  }

  lemma FindContains(s: string, pat: string)
    ensures Find(s, pat).Some? <==> Contains(s, pat)
  {
    if Find(s, pat).Some? {
      assert OccursAt(s, pat, Find(s, pat).value);
    }
  }

  /** `s.split(sep)` for a non-empty separator: the pieces between the occurrences of
      `sep`, found from left to right. */
  function Split(s: string, sep: string): (pieces: seq<string>)
    requires |sep| > 0
    ensures |pieces| > 0
    decreases |s|
  {
    match Find(s, sep)
    case None => [s]
    case Some(i) => [s[..i]] + Split(s[i + |sep|..], sep)
  }

  /** `pieces.join(sep)`. */
  function Join(pieces: seq<string>, sep: string): string
    requires |pieces| > 0
  {
    if |pieces| == 1 then pieces[0] else pieces[0] + sep + Join(pieces[1..], sep)
  }

  /** Joining the pieces of a split with the separator gives back the text. */
  lemma {:induction false} SplitJoin(s: string, sep: string)
    requires |sep| > 0
    ensures Join(Split(s, sep), sep) == s
    decreases |s|
  {
    match Find(s, sep)
    case None =>
    case Some(i) =>
      var rest := s[i + |sep|..];
      SplitJoin(rest, sep);
      assert Split(s, sep)[1..] == Split(rest, sep);
      assert s == s[..i] + sep + rest;
  }

  /** No piece of a split holds the separator. */
  lemma {:induction false} SplitPiecesFree(s: string, sep: string)
    requires |sep| > 0
    ensures forall k :: 0 <= k < |Split(s, sep)| ==> !Contains(Split(s, sep)[k], sep)
    decreases |s|
  {
    var pieces := Split(s, sep);
    match Find(s, sep)
    case None =>
      FindContains(s, sep);
      assert pieces == [s];
    case Some(i) =>
      var rest := s[i + |sep|..];
      assert pieces == [s[..i]] + Split(rest, sep);
      SplitPiecesFree(rest, sep);
      PrefixFree(s, sep, i);
      forall k | 0 <= k < |pieces|
        ensures !Contains(pieces[k], sep)
      {
        if k > 0 {
          assert pieces[k] == Split(rest, sep)[k - 1];
        }
      }
  }

  /** The text before the first occurrence of `sep` does not contain `sep`. */
  lemma PrefixFree(s: string, sep: string, i: nat)
    requires |sep| > 0
    requires Find(s, sep) == Some(i)
    ensures !Contains(s[..i], sep)
  {
    if Contains(s[..i], sep) {
      var j :| 0 <= j <= i && OccursAt(s[..i], sep, j);
      assert s[..i][j..j + |sep|] == s[j..j + |sep|];
      assert OccursAt(s, sep, j);
    }
  }

  /** `s.split(sep).skip(1)`: the pieces after each occurrence of `sep`. */
  function PiecesAfter(s: string, sep: string): (pieces: seq<string>)
    requires |sep| > 0
    ensures |pieces| + 1 == |Split(s, sep)|
  {
    Split(s, sep)[1..]
  }

  /** There is a piece after a separator exactly when the separator occurs. */
  lemma PiecesAfterEmpty(s: string, sep: string)
    requires |sep| > 0
    ensures PiecesAfter(s, sep) == [] <==> !Contains(s, sep)
  {
    FindContains(s, sep);
  }

  /** The first piece, the separator and the joined pieces after it give back the text. */
  lemma PiecesAfterJoin(s: string, sep: string)
    requires |sep| > 0 && PiecesAfter(s, sep) != []
    ensures s == Split(s, sep)[0] + sep + Join(PiecesAfter(s, sep), sep)
  {
    SplitJoin(s, sep);
  }

  /** `s.trim_start_matches(pat)` for a non-empty pattern: every leading copy removed. */
  function TrimStartMatches(s: string, pat: string): (r: string)
    requires |pat| > 0
    ensures |r| <= |s| && r == s[|s| - |r|..]
    ensures !(pat <= r)
    decreases |s|
  {
    if pat <= s then TrimStartMatches(s[|pat|..], pat) else s
  }

  /** `s.trim_end_matches(c)`: every trailing `c` removed. */
  function TrimEndMatches(s: string, c: char): (r: string)
    ensures |r| <= |s| && r == s[..|r|]
    ensures |r| == 0 || r[|r| - 1] != c
    ensures forall k :: |r| <= k < |s| ==> s[k] == c
    decreases |s|
  {
    if |s| > 0 && s[|s| - 1] == c then
      var r := TrimEndMatches(s[..|s| - 1], c);
      assert s[..|s| - 1][..|r|] == s[..|r|];
      r
    else s
  }

  /** `s.trim_start_matches(c)`: every leading `c` removed. */
  function TrimStartChar(s: string, c: char): (r: string)
    ensures |r| <= |s| && r == s[|s| - |r|..]
    ensures |r| == 0 || r[0] != c
    ensures forall k :: 0 <= k < |s| - |r| ==> s[k] == c
    decreases |s|
  {
    if |s| > 0 && s[0] == c then
      var r := TrimStartChar(s[1..], c);
      assert forall k :: 1 <= k < |s| - |r| ==> s[k] == s[1..][k - 1];
      r
    else s
  }

  /** `char::is_whitespace`: the Unicode `White_Space` property. */
  predicate IsWhitespace(c: char) {
    ('\t' <= c <= '\r') || c == ' ' || c == '\U{0085}' || c == '\U{00A0}' || c == '\U{1680}' ||
    ('\U{2000}' <= c <= '\U{200A}') || c == '\U{2028}' || c == '\U{2029}' || c == '\U{202F}' ||
    c == '\U{205F}' || c == '\U{3000}'
  }

  /** `s.trim_start()`: leading whitespace removed. */
  function TrimStart(s: string): (r: string)
    ensures |r| <= |s| && r == s[|s| - |r|..]
    ensures |r| == 0 || !IsWhitespace(r[0])
    ensures forall k :: 0 <= k < |s| - |r| ==> IsWhitespace(s[k])
    decreases |s|
  {
    if |s| > 0 && IsWhitespace(s[0]) then
      var r := TrimStart(s[1..]);
      assert forall k :: 1 <= k < |s| - |r| ==> s[k] == s[1..][k - 1];
      r
    else s
  }

  /** `s.trim_end()`: trailing whitespace removed. */
  function TrimEnd(s: string): (r: string)
    ensures |r| <= |s| && r == s[..|r|]
    ensures |r| == 0 || !IsWhitespace(r[|r| - 1])
    ensures forall k :: |r| <= k < |s| ==> IsWhitespace(s[k])
    decreases |s|
  {
    if |s| > 0 && IsWhitespace(s[|s| - 1]) then
      var r := TrimEnd(s[..|s| - 1]);
      assert s[..|s| - 1][..|r|] == s[..|r|];
      r
    else s
  }

  /** `s.trim()`: leading and trailing whitespace removed. */
  function Trim(s: string): (r: string)
    ensures |r| <= |s|
    ensures |r| > 0 ==> !IsWhitespace(r[0]) && !IsWhitespace(r[|r| - 1])
  {
    TrimEnd(TrimStart(s))
  }

  /** What `trim` keeps is a slice of the text whose surroundings are all whitespace. */
  lemma TrimSlice(s: string) returns (a: nat)
    ensures a + |Trim(s)| <= |s| && s[a..a + |Trim(s)|] == Trim(s)
    ensures forall k :: 0 <= k < a ==> IsWhitespace(s[k])
    ensures forall k :: a + |Trim(s)| <= k < |s| ==> IsWhitespace(s[k])
  {
    var t := TrimStart(s);
    var r := TrimEnd(t);
    a := |s| - |t|;
    assert Trim(s) == r;
    assert t == s[a..];
    assert r == t[..|r|];
    assert s[a..a + |r|] == s[a..][..|r|];
    TailWhitespace(s, t, a, |r|);
  }

  /** Whitespace from position `n` of the suffix `t` of `s` at `a` is whitespace from
      position `a + n` of `s`. */
  lemma TailWhitespace(s: string, t: string, a: nat, n: nat)
    requires a + n <= |s| && t == s[a..]
    requires forall k :: n <= k < |t| ==> IsWhitespace(t[k])
    ensures forall k :: a + n <= k < |s| ==> IsWhitespace(s[k])
  {
    forall k | a + n <= k < |s|
      ensures IsWhitespace(s[k])
    {
      assert s[k] == t[k - a];
    }
  }

  /** `filter_map(|s| s.trim().parse().ok())` over the pieces. */
  function FloatPieces(pieces: seq<string>): (params: seq<string>)
    ensures |params| <= |pieces|
    ensures forall k :: 0 <= k < |params| ==> IsFloatText(params[k])
  {
    if |pieces| == 0 then []
    else
      var t := Trim(pieces[0]);
      (if IsFloatText(t) then [t] else []) + FloatPieces(pieces[1..])
  }

  /** When every trimmed piece parses, each piece gives one parameter in order. */
  lemma {:induction false} AllPiecesKept(pieces: seq<string>)
    requires forall k :: 0 <= k < |pieces| ==> IsFloatText(Trim(pieces[k]))
    ensures |FloatPieces(pieces)| == |pieces|
    ensures forall k :: 0 <= k < |pieces| ==> FloatPieces(pieces)[k] == Trim(pieces[k])
  {
    if |pieces| > 0 {
      AllPiecesKept(pieces[1..]);
    }
  }
}
