/** Python string primitives the scorers are built from: `str.lower()` on
    ASCII letters, the `in` operator on strings, `str.strip()` and
    `str.split()` with Python's whitespace set. */
module Text {

  // ---------------------------------------------------------------------
  // Lower-casing
  // ---------------------------------------------------------------------

  function LowerChar(c: char): char {
    if 'A' <= c <= 'Z' then (c as int + 32) as char else c
  }

  /** `s.lower()`, restricted to the ASCII letters. */
  function Lower(s: string): string {
    seq(|s|, i requires 0 <= i < |s| => LowerChar(s[i]))
  }

  predicate IsLowerCase(s: string) {
    forall i :: 0 <= i < |s| ==> !('A' <= s[i] <= 'Z')
  }

  lemma LowerIsLowerCase(s: string)
    ensures IsLowerCase(Lower(s)) && |Lower(s)| == |s|
  {
  }

  lemma LowerIdempotent(s: string)
    ensures Lower(Lower(s)) == Lower(s)
  {
  }

  lemma LowerOfLowerCase(s: string)
    requires IsLowerCase(s)
    ensures Lower(s) == s
  {
  }

  lemma LowerConcat(a: string, b: string)
    ensures Lower(a + b) == Lower(a) + Lower(b)
  {
  }

  // ---------------------------------------------------------------------
  // The `in` operator on strings
  // ---------------------------------------------------------------------

  predicate IsPrefix(needle: string, hay: string) {
    |needle| <= |hay| && hay[..|needle|] == needle
  }

  /** Python's `needle in hay`: some window of `hay` equals `needle`.
      The empty string occurs in every string. */
  predicate Substring(needle: string, hay: string)
    decreases |hay|
  {
    IsPrefix(needle, hay) || (|hay| > 0 && Substring(needle, hay[1..]))
  }

  /** `Substring` by its index characterisation, one direction. */
  lemma {:induction false} SubstringAt(needle: string, hay: string, i: nat)
    requires i + |needle| <= |hay| && hay[i..i + |needle|] == needle
    ensures Substring(needle, hay)
    decreases i
  {
    if i > 0 {
      assert hay[1..][i - 1..i - 1 + |needle|] == hay[i..i + |needle|];
      SubstringAt(needle, hay[1..], i - 1);
    }
  }

  /** `Substring` by its index characterisation, the other direction. */
  lemma {:induction false} SubstringIndex(needle: string, hay: string) returns (i: nat)
    requires Substring(needle, hay)
    ensures i + |needle| <= |hay| && hay[i..i + |needle|] == needle
    decreases |hay|
  {
    if IsPrefix(needle, hay) {
      i := 0;
    } else {
      var j := SubstringIndex(needle, hay[1..]);
      i := j + 1;
      assert hay[1..][j..j + |needle|] == hay[i..i + |needle|];
    }
  }

  lemma SubstringOfLeft(needle: string, a: string, b: string)
    requires Substring(needle, a)
    ensures Substring(needle, a + b)
  {
    var i := SubstringIndex(needle, a);
    assert (a + b)[i..i + |needle|] == a[i..i + |needle|];
    SubstringAt(needle, a + b, i);
  }

  lemma SubstringOfRight(needle: string, a: string, b: string)
    requires Substring(needle, b)
    ensures Substring(needle, a + b)
  {
    var i := SubstringIndex(needle, b);
    assert (a + b)[|a| + i..|a| + i + |needle|] == b[i..i + |needle|];
    SubstringAt(needle, a + b, |a| + i);
  }

  /** A string occurring inside an occurrence occurs in the whole. */
  lemma SubstringTransitive(x: string, y: string, z: string)
    requires Substring(x, y) && Substring(y, z)
    ensures Substring(x, z)
  {
    var i := SubstringIndex(x, y);
    var j := SubstringIndex(y, z);
    forall k | 0 <= k < |x| ensures z[j + i + k] == x[k] {
      assert z[j..j + |y|][i + k] == y[i..i + |x|][k];
    }
    assert z[j + i..j + i + |x|] == x;
    SubstringAt(x, z, j + i);
  }

  /** Every character of an occurring string is a character of the text. */
  lemma SubstringChars(needle: string, hay: string, k: nat)
    requires Substring(needle, hay) && k < |needle|
    ensures needle[k] in hay
  {
    var i := SubstringIndex(needle, hay);
    assert hay[i + k] == needle[k];
  }

  lemma SubstringLower(needle: string, hay: string)
    requires Substring(needle, hay)
    ensures Substring(Lower(needle), Lower(hay))
  {
    var i := SubstringIndex(needle, hay);
    assert Lower(hay)[i..i + |needle|] == Lower(needle);
    SubstringAt(Lower(needle), Lower(hay), i);
  }

  /** `any(k in t for k in kws)`: some keyword, as written, occurs in `t`. */
  predicate AnyIn(kws: seq<string>, t: string) {
    exists i :: 0 <= i < |kws| && Substring(kws[i], t)
  }

  // ---------------------------------------------------------------------
  // Whitespace, strip() and split()
  // ---------------------------------------------------------------------

  /** Python's `str.isspace()` on one character, the set `strip()` and
      `split()` use. */
  predicate IsSpace(c: char) {
    || '\t' <= c <= '\r'
    || '\U{1C}' <= c <= '\U{1F}'
    || c == ' '
    || c == '\U{85}'
    || c == '\U{A0}'
    || c == '\U{1680}'
    || '\U{2000}' <= c <= '\U{200A}'
    || c == '\U{2028}'
    || c == '\U{2029}'
    || c == '\U{202F}'
    || c == '\U{205F}'
    || c == '\U{3000}'
  }

  predicate AllSpace(s: string) {
    forall i :: 0 <= i < |s| ==> IsSpace(s[i])
  }

  function LStrip(s: string): string
    decreases |s|
  {
    if |s| > 0 && IsSpace(s[0]) then LStrip(s[1..]) else s
  }

  function RStrip(s: string): string
    decreases |s|
  {
    if |s| > 0 && IsSpace(s[|s| - 1]) then RStrip(s[..|s| - 1]) else s
  }

  /** `s.strip()`. */
  function Strip(s: string): string {
    RStrip(LStrip(s))
  }

  lemma {:induction false} LStripShape(s: string) returns (i: nat)
    ensures i <= |s| && LStrip(s) == s[i..]
    ensures AllSpace(s[..i])
    ensures i < |s| ==> !IsSpace(s[i])
    decreases |s|
  {
    if |s| > 0 && IsSpace(s[0]) {
      var j := LStripShape(s[1..]);
      i := j + 1;
      assert s[1..][j..] == s[i..];
      assert forall k :: 0 < k < i ==> s[k] == s[1..][..j][k - 1];
    } else {
      i := 0;
    }
  }

  lemma {:induction false} RStripShape(s: string) returns (j: nat)
    ensures j <= |s| && RStrip(s) == s[..j]
    ensures AllSpace(s[j..])
    ensures j > 0 ==> !IsSpace(s[j - 1])
    decreases |s|
  {
    if |s| > 0 && IsSpace(s[|s| - 1]) {
      var s' := s[..|s| - 1];
      j := RStripShape(s');
      assert s'[..j] == s[..j];
      assert forall k :: j <= k < |s| - 1 ==> s[k] == s'[j..][k - j];
    } else {
      j := |s|;
    }
  }

  /** `strip()` removes only edge whitespace: the result is a window of the
      input that neither starts nor ends with whitespace, and everything cut
      off is whitespace. */
  lemma StripShape(s: string) returns (i: nat, j: nat)
    ensures i <= j <= |s| && Strip(s) == s[i..j]
    ensures AllSpace(s[..i]) && AllSpace(s[j..])
    ensures i < j ==> !IsSpace(s[i]) && !IsSpace(s[j - 1])
  {
    i := LStripShape(s);
    var j' := RStripShape(s[i..]);
    j := i + j';
    assert s[i..][..j'] == s[i..j];
    assert forall k :: j <= k < |s| ==> s[k] == s[i..][j'..][k - j];
  }

  /** `s.strip() == ""` exactly when `s` is all whitespace. */
  lemma StripEmpty(s: string)
    ensures Strip(s) == "" <==> AllSpace(s)
  {
    var i, j := StripShape(s);
    if Strip(s) == "" {
      forall k | 0 <= k < |s| ensures IsSpace(s[k]) {
        if k < i { assert s[..i][k] == s[k]; } else { assert s[j..][k - j] == s[k]; }
      }
    } else {
      assert !IsSpace(s[i]);
    }
  }

  /** Length of the leading run of non-whitespace characters. */
  function TokenEnd(s: string): (n: nat)
    ensures n <= |s|
    ensures forall k :: 0 <= k < n ==> !IsSpace(s[k])
    ensures n < |s| ==> IsSpace(s[n])
  {
    if s == [] || IsSpace(s[0]) then 0 else 1 + TokenEnd(s[1..])
  }

  /** `s.split()`: the maximal runs of non-whitespace characters. */
  function Split(s: string): seq<string>
    decreases |s|
  {
    if s == [] then []
    else if IsSpace(s[0]) then Split(s[1..])
    else
      var n := TokenEnd(s);
      [s[..n]] + Split(s[n..])
  }

  function Flatten(ts: seq<string>): string {
    if ts == [] then "" else ts[0] + Flatten(ts[1..])
  }

  /** `s` with every whitespace character deleted. */
  function RemoveSpaces(s: string): string {
    if s == [] then ""
    else (if IsSpace(s[0]) then "" else [s[0]]) + RemoveSpaces(s[1..])
  }

  lemma {:induction false} RemoveSpacesConcat(a: string, b: string)
    ensures RemoveSpaces(a + b) == RemoveSpaces(a) + RemoveSpaces(b)
    decreases |a|
  {
    if a != [] {
      assert (a + b)[1..] == a[1..] + b;
      RemoveSpacesConcat(a[1..], b);
    } else {
      assert a + b == b;
    }
  }

  lemma {:induction false} RemoveSpacesNone(s: string)
    requires forall k :: 0 <= k < |s| ==> !IsSpace(s[k])
    ensures RemoveSpaces(s) == s
    decreases |s|
  {
    if s != [] {
      RemoveSpacesNone(s[1..]);
    }
  }

  /** Every token of `split()` is non-empty and holds no whitespace. */
  lemma {:induction false} SplitTokens(s: string)
    ensures forall t :: t in Split(s) ==> t != "" && forall k :: 0 <= k < |t| ==> !IsSpace(t[k])
    decreases |s|
  {
    if s == [] {
    } else if IsSpace(s[0]) {
      SplitTokens(s[1..]);
    } else {
      SplitTokens(s[TokenEnd(s)..]);
    }
  }

  /** The tokens of `split()`, put back together, are exactly the
      non-whitespace characters of the input, in order. */
  lemma {:induction false} SplitJoin(s: string)
    ensures Flatten(Split(s)) == RemoveSpaces(s)
    decreases |s|
  {
    if s == [] {
    } else if IsSpace(s[0]) {
      SplitJoin(s[1..]);
    } else {
      var n := TokenEnd(s);
      var ts := Split(s);
      assert ts == [s[..n]] + Split(s[n..]);
      assert ts[1..] == Split(s[n..]);
      SplitJoin(s[n..]);
      RemoveSpacesNone(s[..n]);
      RemoveSpacesConcat(s[..n], s[n..]);
      assert s[..n] + s[n..] == s;
    }
  }

  /** The gaps and tokens written alternately, starting and ending with a
      gap. */
  function Interleave(gaps: seq<string>, ts: seq<string>): string
    requires |gaps| == |ts| + 1
    decreases |ts|
  {
    if ts == [] then gaps[0] else gaps[0] + ts[0] + Interleave(gaps[1..], ts[1..])
  }

  /** A character put in front of the first gap is put in front of the
      whole. */
  lemma InterleaveCons(c: char, gaps: seq<string>, ts: seq<string>)
    requires |gaps| == |ts| + 1
    ensures Interleave([[c] + gaps[0]] + gaps[1..], ts) == [c] + Interleave(gaps, ts)
  {
    var g := [[c] + gaps[0]] + gaps[1..];
    assert g[1..] == gaps[1..];
  }

  /** A token after an empty gap is put in front of the whole. */
  lemma InterleaveToken(w: string, gaps: seq<string>, ts: seq<string>)
    requires |gaps| == |ts| + 1
    ensures Interleave([""] + gaps, [w] + ts) == w + Interleave(gaps, ts)
  {
    assert ([""] + gaps)[1..] == gaps;
    assert ([w] + ts)[1..] == ts;
  }

  /** The tokens of `split()` are the maximal runs: the input is the tokens
      separated by whitespace gaps, where every gap between two tokens is
      non-empty (the gaps at either end may be empty). */
  lemma {:induction false} SplitGaps(s: string) returns (gaps: seq<string>)
    ensures |gaps| == |Split(s)| + 1
    ensures forall i :: 0 <= i < |gaps| ==> AllSpace(gaps[i])
    ensures forall i :: 0 < i < |Split(s)| ==> gaps[i] != ""
    ensures s == Interleave(gaps, Split(s))
    ensures s != [] && IsSpace(s[0]) ==> gaps[0] != ""
    decreases |s|
  {
    if s == [] {
      gaps := [""];
    } else if IsSpace(s[0]) {
      var rest := SplitGaps(s[1..]);
      gaps := [[s[0]] + rest[0]] + rest[1..];
      InterleaveCons(s[0], rest, Split(s[1..]));
      assert s == [s[0]] + s[1..];
      assert forall i :: 0 < i < |gaps| ==> gaps[i] == rest[i];
    } else {
      var n := TokenEnd(s);
      var rest := SplitGaps(s[n..]);
      gaps := [""] + rest;
      InterleaveToken(s[..n], rest, Split(s[n..]));
      assert s[..n] + s[n..] == s;
      assert forall i :: 0 < i < |gaps| ==> gaps[i] == rest[i - 1];
    }
  }

  /** A string with no whitespace at all splits into itself (or nothing). */
  lemma SplitWord(s: string)
    requires s != "" && forall k :: 0 <= k < |s| ==> !IsSpace(s[k])
    ensures Split(s) == [s]
  {
    var n := TokenEnd(s);
    assert n == |s|;
    assert s[..n] == s && s[n..] == [];
  }

  /** `split()` yields at most one token per character, and none exactly
      when the string is all whitespace. */
  lemma {:induction false} SplitBound(s: string)
    ensures |Split(s)| <= |s|
    ensures |Split(s)| == 0 <==> AllSpace(s)
    decreases |s|
  {
    if s == [] {
    } else if IsSpace(s[0]) {
      SplitBound(s[1..]);
      assert AllSpace(s) <==> AllSpace(s[1..]) by {
        if AllSpace(s[1..]) {
          forall k | 0 <= k < |s| ensures IsSpace(s[k]) {
            if k > 0 { assert s[k] == s[1..][k - 1]; }
          }
        }
      }
    } else {
      var n := TokenEnd(s);
      SplitBound(s[n..]);
    }
  }

  /** `s.count(c)` for a single character. */
  function Occurrences(s: string, c: char): nat
    decreases |s|
  {
    if s == [] then 0 else (if s[0] == c then 1 else 0) + Occurrences(s[1..], c)
  }

  /** Occurrences of three different characters never exceed the length. */
  lemma {:induction false} OccurrencesBound(s: string, a: char, b: char, c: char)
    requires a != b && b != c && a != c
    ensures Occurrences(s, a) + Occurrences(s, b) + Occurrences(s, c) <= |s|
    decreases |s|
  {
    if s != [] {
      OccurrencesBound(s[1..], a, b, c);
    }
  }

  /** Python's `str.isupper()` on a one-character string, for ASCII. */
  predicate IsUpper(c: char) {
    'A' <= c <= 'Z'
  }
}
