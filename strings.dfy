/**
 * The parts of Rust's `str` API the core relies on: character classes,
 * `find`/`split_once`/`split` by a string pattern, `split` by a character
 * predicate, `split_whitespace`, `trim` and `join`.
 */
module Strings {
  import opened Wrappers

  /** `char::is_whitespace`: the Unicode White_Space property. */
  predicate IsWhitespace(c: char)
  {
    || ('\t' <= c <= '\r')
    || c == ' '
    || c == '\U{85}'
    || c == '\U{A0}'
    || c == '\U{1680}'
    || ('\U{2000}' <= c <= '\U{200A}')
    || c == '\U{2028}'
    || c == '\U{2029}'
    || c == '\U{202F}'
    || c == '\U{205F}'
    || c == '\U{3000}'
  }

  /** `char::is_alphabetic`, restricted to the ASCII letters. */
  predicate IsAlphabetic(c: char)
  {
    ('a' <= c <= 'z') || ('A' <= c <= 'Z')
  }

  /** `char::to_ascii_uppercase`. */
  function ToAsciiUpper(c: char): (u: char)
    ensures 'a' <= c <= 'z' ==> u as int == c as int - 32
    ensures !('a' <= c <= 'z') ==> u == c
  {
    if 'a' <= c <= 'z' then (c as int - 32) as char else c
  }

  /** `str::to_uppercase` on ASCII text: one upper-case character per character. */
  function ToUpper(s: string): (u: string)
    ensures |u| == |s|
    ensures forall i :: 0 <= i < |s| ==> u[i] == ToAsciiUpper(s[i])
  {
    seq(|s|, i requires 0 <= i < |s| => ToAsciiUpper(s[i]))
  }

  /** Text made of whitespace only (the empty text included). */
  predicate Blank(s: string)
  {
    forall i :: 0 <= i < |s| ==> IsWhitespace(s[i])
  }

  /** Text without any whitespace. */
  predicate Solid(s: string)
  {
    forall i :: 0 <= i < |s| ==> !IsWhitespace(s[i])
  }

  /** `pat` occurs in `s` starting at index `i`. */
  predicate MatchAt<T(==)>(s: seq<T>, pat: seq<T>, i: nat)
  {
    i + |pat| <= |s| && s[i..i + |pat|] == pat
  }

  /** The first occurrence of `pat` in `s` at or after `from`. */
  function FindFrom<T(==)>(s: seq<T>, pat: seq<T>, from: nat): (r: Option<nat>)
    ensures r.Some? ==> from <= r.value && MatchAt(s, pat, r.value)
    ensures r.Some? ==> forall j :: from <= j < r.value ==> !MatchAt(s, pat, j)
    ensures r.None? ==> forall j :: from <= j ==> !MatchAt(s, pat, j)
    decreases |s| - from
  {
    if from + |pat| > |s| then None
    else if MatchAt(s, pat, from) then Some(from)
    else FindFrom(s, pat, from + 1)
  }

  /** `str::find`: the index of the first occurrence of `pat` in `s`. */
  function Find<T(==)>(s: seq<T>, pat: seq<T>): (r: Option<nat>)
    ensures r.Some? ==> MatchAt(s, pat, r.value) && forall j :: 0 <= j < r.value ==> !MatchAt(s, pat, j)
    ensures r.None? <==> forall j :: 0 <= j ==> !MatchAt(s, pat, j)
  {
    FindFrom(s, pat, 0)
  }

  /** `str::split_once`: the text before and after the first occurrence of `pat`. */
  function SplitOnce(s: string, pat: string): (r: Option<(string, string)>)
    requires |pat| > 0
    ensures r.None? <==> forall j :: 0 <= j ==> !MatchAt(s, pat, j)
    ensures r.Some? ==> r.value.0 + pat + r.value.1 == s
    ensures r.Some? ==> forall j :: 0 <= j < |r.value.0| ==> !MatchAt(s, pat, j)
  {
    match Find(s, pat)
    case None => None
    case Some(i) =>
      assert s == s[..i] + pat + s[i + |pat|..] by {
        assert s[i..i + |pat|] == pat;
        assert s == s[..i] + s[i..i + |pat|] + s[i + |pat|..];
      }
      Some((s[..i], s[i + |pat|..]))
  }

  /** Splitting at a separator character that the text before it does not contain. */
  lemma SplitOnceAtChar(a: string, c: char, b: string)
    requires c !in a
    ensures SplitOnce(a + [c] + b, [c]) == Some((a, b))
  {
    var s := a + [c] + b;
    forall j | 0 <= j < |a|
      ensures !MatchAt(s, [c], j)
    {
      assert s[j] == a[j];
    }
    assert MatchAt(s, [c], |a|);
    assert s[..|a|] == a && s[|a| + 1..] == b;
  }

  /** `str::split_once` with a one-character pattern, walking the text from the front. */
  function SplitAtChar(s: string, c: char): (r: Option<(string, string)>)
    ensures r.None? <==> c !in s
    ensures r.Some? ==> r.value.0 + [c] + r.value.1 == s && c !in r.value.0
  {
    if s == [] then None
    else if s[0] == c then Some(([], s[1..]))
    else
      match SplitAtChar(s[1..], c)
      case None => None
      case Some((before, after)) => Some(([s[0]] + before, after))
  }

  /** Splitting at a character agrees with `split_once` on the one-character pattern. */
  lemma SplitAtCharIsSplitOnce(s: string, c: char)
    ensures SplitAtChar(s, c) == SplitOnce(s, [c])
  {
    match SplitAtChar(s, c)
    case None =>
      forall j | 0 <= j && j + 1 <= |s|
        ensures !MatchAt(s, [c], j)
      {
        assert s[j] != c;
      }
    case Some((before, after)) =>
      SplitOnceAtChar(before, c, after);
  }

  /** `slice::join`: the parts with `sep` between consecutive ones. */
  function Join(parts: seq<string>, sep: string): string
  {
    if |parts| == 0 then ""
    else if |parts| == 1 then parts[0]
    else parts[0] + sep + Join(parts[1..], sep)
  }

  /** `str::split` by a non-empty string pattern; always at least one part. */
  function SplitOn(s: string, pat: string): (r: seq<string>)
    requires |pat| > 0
    ensures |r| >= 1
    decreases |s|
  {
    match SplitOnce(s, pat)
    case None => [s]
    case Some((before, after)) => [before] + SplitOn(after, pat)
  }

  /** Splitting on a pattern and joining with it gives the text back. */
  lemma {:induction false} SplitOnJoin(s: string, pat: string)
    requires |pat| > 0
    ensures Join(SplitOn(s, pat), pat) == s
    decreases |s|
  {
    match SplitOnce(s, pat)
    case None =>
    case Some((before, after)) =>
      SplitOnJoin(after, pat);
      var rest := SplitOn(after, pat);
      assert SplitOn(s, pat) == [before] + rest;
      assert ([before] + rest)[1..] == rest;
  }

  /** Text without `pat` is a single part. */
  lemma SplitOnNoMatch(s: string, pat: string)
    requires |pat| > 0
    requires forall j :: 0 <= j ==> !MatchAt(s, pat, j)
    ensures SplitOn(s, pat) == [s]
  {
  }

  /** `str::split` by a character predicate (the characters of `seps`); always at least one part. */
  function SplitBy(s: string, seps: set<char>): (r: seq<string>)
    ensures |r| >= 1
    decreases |s|
  {
    if s == [] then [""]
    else
      var rest := SplitBy(s[1..], seps);
      if s[0] in seps then [""] + rest
      else [[s[0]] + rest[0]] + rest[1..]
  }

  /** How many characters of `s` are in `cs`. */
  function CountIn(s: string, cs: set<char>): nat
  {
    if s == [] then 0 else (if s[0] in cs then 1 else 0) + CountIn(s[1..], cs)
  }

  /** `s` with the characters of `cs` removed. */
  function Without(s: string, cs: set<char>): string
  {
    if s == [] then [] else (if s[0] in cs then [] else [s[0]]) + Without(s[1..], cs)
  }

  function Concat(parts: seq<string>): string
  {
    if parts == [] then [] else parts[0] + Concat(parts[1..])
  }

  /**
   * Splitting by separator characters yields one part more than there are
   * separators, no part holds a separator, and the parts laid end to end are
   * the text without its separators.
   */
  lemma {:induction false} SplitByParts(s: string, seps: set<char>)
    ensures |SplitBy(s, seps)| == CountIn(s, seps) + 1
    ensures forall k :: 0 <= k < |SplitBy(s, seps)| ==> CountIn(SplitBy(s, seps)[k], seps) == 0
    ensures Concat(SplitBy(s, seps)) == Without(s, seps)
    decreases |s|
  {
    if s != [] {
      var rest := SplitBy(s[1..], seps);
      SplitByParts(s[1..], seps);
      if s[0] in seps {
        assert SplitBy(s, seps) == [""] + rest;
        assert ([""] + rest)[1..] == rest;
      } else {
        var first := [s[0]] + rest[0];
        assert SplitBy(s, seps) == [first] + rest[1..];
        assert first[1..] == rest[0];
        assert CountIn(first, seps) == 0;
        assert ([first] + rest[1..])[1..] == rest[1..];
        assert Concat(rest) == rest[0] + Concat(rest[1..]);
      }
    }
  }

  /** The length of the leading run of non-whitespace characters. */
  function RunLength(s: string): (n: nat)
    ensures n <= |s|
    ensures Solid(s[..n])
    ensures n < |s| ==> IsWhitespace(s[n])
  {
    if s == [] || IsWhitespace(s[0]) then 0
    else
      var n := 1 + RunLength(s[1..]);
      assert s[..n] == [s[0]] + s[1..][..n - 1];
      n
  }

  /** `str::split_whitespace`: the maximal runs of non-whitespace characters. */
  function SplitWhitespace(s: string): (r: seq<string>)
    ensures forall k :: 0 <= k < |r| ==> |r[k]| > 0 && Solid(r[k])
    decreases |s|
  {
    if s == [] then []
    else if IsWhitespace(s[0]) then SplitWhitespace(s[1..])
    else
      var n := RunLength(s);
      [s[..n]] + SplitWhitespace(s[n..])
  }

  /** Text has no whitespace-separated token exactly when it is blank. */
  lemma {:induction false} SplitWhitespaceEmpty(s: string)
    ensures SplitWhitespace(s) == [] <==> Blank(s)
    decreases |s|
  {
    if s != [] && IsWhitespace(s[0]) {
      SplitWhitespaceEmpty(s[1..]);
      assert Blank(s[1..]) ==> Blank(s);
    }
  }

  /** The tokens hold exactly the non-whitespace characters of the text, in order. */
  lemma {:induction false} SplitWhitespaceConcat(s: string)
    ensures Concat(SplitWhitespace(s)) == NonWhitespace(s)
    decreases |s|
  {
    if s != [] {
      if IsWhitespace(s[0]) {
        SplitWhitespaceConcat(s[1..]);
      } else {
        var n := RunLength(s);
        SplitWhitespaceConcat(s[n..]);
        SolidIsKept(s[..n]);
        NonWhitespaceAppend(s[..n], s[n..]);
        assert s[..n] + s[n..] == s;
        assert ([s[..n]] + SplitWhitespace(s[n..]))[1..] == SplitWhitespace(s[n..]);
      }
    }
  }

  /** The non-whitespace characters of `s`, in order. */
  function NonWhitespace(s: string): (r: string)
    ensures |r| <= |s|
  {
    if s == [] then [] else (if IsWhitespace(s[0]) then [] else [s[0]]) + NonWhitespace(s[1..])
  }

  lemma {:induction false} SolidIsKept(s: string)
    requires Solid(s)
    ensures NonWhitespace(s) == s
    decreases |s|
  {
    if s != [] {
      SolidIsKept(s[1..]);
    }
  }

  lemma {:induction false} NonWhitespaceAppend(a: string, b: string)
    ensures NonWhitespace(a + b) == NonWhitespace(a) + NonWhitespace(b)
    decreases |a|
  {
    if a == [] {
      assert a + b == b;
    } else {
      assert (a + b)[1..] == a[1..] + b;
      NonWhitespaceAppend(a[1..], b);
    }
  }

  /** `str::trim_start`. */
  function TrimStart(s: string): (r: string)
    ensures |r| <= |s| && r == s[|s| - |r|..]
    ensures r != [] ==> !IsWhitespace(r[0])
    ensures Blank(s[..|s| - |r|])
  {
    if s == [] || !IsWhitespace(s[0]) then s
    else
      var r := TrimStart(s[1..]);
      assert s[..|s| - |r|] == [s[0]] + s[1..][..|s| - 1 - |r|];
      r
  }

  /** `str::trim_end`. */
  function TrimEnd(s: string): (r: string)
    ensures |r| <= |s| && r == s[..|r|]
    ensures r != [] ==> !IsWhitespace(r[|r| - 1])
    ensures Blank(s[|r|..])
  {
    if s == [] || !IsWhitespace(s[|s| - 1]) then s
    else
      var r := TrimEnd(s[..|s| - 1]);
      assert s[|r|..] == s[..|s| - 1][|r|..] + [s[|s| - 1]];
      r
  }

  /** `str::trim`. */
  function Trim(s: string): string
  {
    TrimEnd(TrimStart(s))
  }

  /** Trimming leaves nothing exactly when the text is blank. */
  lemma TrimEmptyIffBlank(s: string)
    ensures Trim(s) == "" <==> Blank(s)
  {
    var t := TrimStart(s);
    if Trim(s) == "" {
      assert Blank(t[0..]);
      assert s == s[..|s| - |t|] + t;
    } else {
      var i := |s| - |t|;
      assert t != [] && !IsWhitespace(t[0]) && s[i] == t[0];
    }
  }
}
