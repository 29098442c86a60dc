/**
 * `Stats` of `little_projects/text_analyser`: counts over the text of a file
 * (characters, lines, words, phrases), the average word length and the most
 * used words. The `count_*` pipelines are functions; `most_used_word`, which
 * fills a `HashMap` and then collects its maximal entries, is a method.
 */
module TextAnalyser {
  import opened Wrappers
  import opened Strings

  /** `Iterator::filter` over strings, followed by `collect`. */
  function Filter(xs: seq<string>, p: string -> bool): (r: seq<string>)
    ensures |r| <= |xs|
    ensures forall x :: x in r <==> x in xs && p(x)
    ensures forall x :: multiset(r)[x] == if p(x) then multiset(xs)[x] else 0
  {
    if xs == [] then []
    else
      assert forall x :: x in xs <==> x == xs[0] || x in xs[1..];
      assert xs == [xs[0]] + xs[1..];
      (if p(xs[0]) then [xs[0]] else []) + Filter(xs[1..], p)
  }

  // ---------------------------------------------------------------------------
  // Characters

  lemma {:induction false} NonWhitespaceLength(s: string)
    ensures |NonWhitespace(s)| == 0 <==> Blank(s)
    ensures |NonWhitespace(s)| == |s| <==> Solid(s)
    decreases |s|
  {
    if s != [] {
      NonWhitespaceLength(s[1..]);
      assert Blank(s) <==> IsWhitespace(s[0]) && Blank(s[1..]) by {
        if IsWhitespace(s[0]) && Blank(s[1..]) {
          forall i | 0 <= i < |s| ensures IsWhitespace(s[i]) {
            if i > 0 {
              assert s[i] == s[1..][i - 1];
            }
          }
        }
      }
      assert Solid(s) <==> !IsWhitespace(s[0]) && Solid(s[1..]) by {
        if !IsWhitespace(s[0]) && Solid(s[1..]) {
          forall i | 0 <= i < |s| ensures !IsWhitespace(s[i]) {
            if i > 0 {
              assert s[i] == s[1..][i - 1];
            }
          }
        }
      }
    }
  }

  /** `count_chars`: the characters that are not whitespace. */
  function CountChars(text: string): (n: nat)
    ensures n <= |text|
    ensures n == 0 <==> Blank(text)
    ensures n == |text| <==> Solid(text)
  {
    NonWhitespaceLength(text);
    |NonWhitespace(text)|
  }

  /** Every counted character belongs to exactly one whitespace-separated token. */
  lemma CharsAreTokenChars(text: string)
    ensures CountChars(text) == |Concat(SplitWhitespace(text))|
  {
    SplitWhitespaceConcat(text);
  }

  // ---------------------------------------------------------------------------
  // Lines and phrases

  /** No part of a split holds one of the separators. */
  lemma NoSeparatorInParts(text: string, seps: set<char>)
    ensures forall part, c :: part in SplitBy(text, seps) && c in part ==> c !in seps
  {
    SplitByParts(text, seps);
    forall part, c | part in SplitBy(text, seps) && c in part
      ensures c !in seps
    {
      var k :| 0 <= k < |SplitBy(text, seps)| && SplitBy(text, seps)[k] == part;
      CountInZero(part, seps);
    }
  }

  lemma {:induction false} CountInZero(s: string, cs: set<char>)
    ensures CountIn(s, cs) == 0 <==> forall c :: c in s ==> c !in cs
    decreases |s|
  {
    if s != [] {
      CountInZero(s[1..], cs);
      assert forall c :: c in s <==> c == s[0] || c in s[1..];
    }
  }

  lemma {:induction false} WithoutEmpty(s: string, cs: set<char>)
    ensures Without(s, cs) == [] <==> forall c :: c in s ==> c in cs
    decreases |s|
  {
    if s != [] {
      WithoutEmpty(s[1..], cs);
      assert forall c :: c in s <==> c == s[0] || c in s[1..];
    }
  }

  predicate NonEmpty(s: string)
  {
    s != []
  }

  /** Keeping the non-empty parts leaves nothing exactly when the parts laid end to end are empty. */
  lemma {:induction false} NonEmptyPartsNone(parts: seq<string>)
    ensures Filter(parts, NonEmpty) == [] <==> Concat(parts) == []
    decreases |parts|
  {
    if parts != [] {
      NonEmptyPartsNone(parts[1..]);
    }
  }

  const LineBreaks: set<char> := {'\n'}

  /** Keeping the non-empty parts drops exactly the empty ones. */
  lemma {:induction false} NonEmptyPartsCount(parts: seq<string>)
    ensures |Filter(parts, NonEmpty)| + multiset(parts)[""] == |parts|
    decreases |parts|
  {
    if parts != [] {
      NonEmptyPartsCount(parts[1..]);
      assert parts == [parts[0]] + parts[1..];
    }
  }

  /** The non-empty segments of the text between line breaks. */
  function Lines(text: string): (ls: seq<string>)
    ensures forall l :: l in ls ==> l != [] && '\n' !in l
    ensures forall l :: l in SplitBy(text, LineBreaks) && l != [] ==> l in ls
    ensures |ls| <= CountIn(text, LineBreaks) + 1
  {
    SplitByParts(text, LineBreaks);
    NoSeparatorInParts(text, LineBreaks);
    Filter(SplitBy(text, LineBreaks), NonEmpty)
  }

  /** `count_lines`: the number of non-empty lines. */
  function CountLines(text: string): (n: nat)
    ensures n <= CountIn(text, LineBreaks) + 1
    ensures n == |SplitBy(text, LineBreaks)| - multiset(SplitBy(text, LineBreaks))[""]
  {
    NonEmptyPartsCount(SplitBy(text, LineBreaks));
    |Lines(text)|
  }

  /** There is no line to count exactly when the text is made of line breaks only. */
  lemma CountLinesZero(text: string)
    ensures CountLines(text) == 0 <==> forall c :: c in text ==> c == '\n'
  {
    SplitByParts(text, LineBreaks);
    NonEmptyPartsNone(SplitBy(text, LineBreaks));
    WithoutEmpty(text, LineBreaks);
  }

  const Terminators: set<char> := {'.', '?', '!'}

  /** A phrase counts when something other than whitespace is left after `trim`. */
  predicate Spoken(phrase: string)
  {
    Trim(phrase) != ""
  }

  /** The segments between `.`, `?` and `!` that are not blank. */
  function Phrases(text: string): (ps: seq<string>)
    ensures forall p :: p in ps ==> !Blank(p) && forall c :: c in p ==> c !in Terminators
    ensures forall p :: p in SplitBy(text, Terminators) && !Blank(p) ==> p in ps
    ensures |ps| <= CountIn(text, Terminators) + 1
  {
    SplitByParts(text, Terminators);
    NoSeparatorInParts(text, Terminators);
    forall p ensures Spoken(p) <==> !Blank(p) {
      TrimEmptyIffBlank(p);
    }
    Filter(SplitBy(text, Terminators), Spoken)
  }

  /** `count_phrases`. */
  function CountPhrases(text: string): (n: nat)
    ensures n <= CountIn(text, Terminators) + 1
  {
    |Phrases(text)|
  }

  /** Text without a terminator is one phrase, or none when it is blank. */
  lemma OnePhraseWithoutTerminator(text: string)
    requires forall c :: c in text ==> c !in Terminators
    ensures CountPhrases(text) == if Blank(text) then 0 else 1
  {
    CountInZero(text, Terminators);
    SplitByParts(text, Terminators);
    var parts := SplitBy(text, Terminators);
    assert |parts| == 1;
    assert Concat(parts) == parts[0];
    WithoutAll(text, Terminators);
    assert parts == [text];
    TrimEmptyIffBlank(text);
  }

  lemma {:induction false} WithoutAll(s: string, cs: set<char>)
    requires forall c :: c in s ==> c !in cs
    ensures Without(s, cs) == s
    decreases |s|
  {
    if s != [] {
      WithoutAll(s[1..], cs);
    }
  }

  // ---------------------------------------------------------------------------
  // Words

  /** `str::contains` with `char::is_alphabetic`. */
  predicate HasAlphabetic(w: string)
  {
    exists i :: 0 <= i < |w| && IsAlphabetic(w[i])
  }

  /** The whitespace-separated tokens that hold a letter. */
  function Words(text: string): (ws: seq<string>)
    ensures forall w :: w in ws <==> w in SplitWhitespace(text) && HasAlphabetic(w)
  {
    Filter(SplitWhitespace(text), HasAlphabetic)
  }

  /** `count_words`: never more than the tokens of the text. */
  function CountWords(text: string): (n: nat)
    ensures n <= |SplitWhitespace(text)|
  {
    |Words(text)|
  }

  /** Blank text has no word. */
  lemma BlankHasNoWord(text: string)
    requires Blank(text)
    ensures CountWords(text) == 0
  {
    SplitWhitespaceEmpty(text);
  }

  /**
   * `word_len` as written: the `map` meant to add up the word lengths is
   * never consumed, so `len` stays 0 and the result is `0 / count_words` —
   * 0, or the division-by-zero panic (None) when there is no word.
   */
  function WordLen(text: string): (r: Option<nat>)
    ensures r.None? <==> CountWords(text) == 0
    ensures r.Some? ==> r.value == 0
  {
    var wordCount := CountWords(text);
    var len := 0;
    if wordCount == 0 then None else Some(len / wordCount)
  }

  /** The total length of some words. */
  function TotalLen(ws: seq<string>): nat
  {
    if ws == [] then 0 else |ws[0]| + TotalLen(ws[1..])
  }

  /** The integer average of the word lengths; None for no word. */
  function AverageLen(ws: seq<string>): (r: Option<nat>)
    ensures r.None? <==> ws == []
  {
    if ws == [] then None else Some(TotalLen(ws) / |ws|)
  }

  lemma {:induction false} TotalLenAtLeast(ws: seq<string>, m: nat)
    requires forall w :: w in ws ==> |w| >= m
    ensures TotalLen(ws) >= |ws| * m
    decreases |ws|
  {
    if ws != [] {
      TotalLenAtLeast(ws[1..], m);
      assert |ws| * m == m + (|ws| - 1) * m;
    }
  }

  lemma {:induction false} TotalLenAtMost(ws: seq<string>, m: nat)
    requires forall w :: w in ws ==> |w| <= m
    ensures TotalLen(ws) <= |ws| * m
    decreases |ws|
  {
    if ws != [] {
      TotalLenAtMost(ws[1..], m);
      assert |ws| * m == m + (|ws| - 1) * m;
    }
  }

  function MinLen(ws: seq<string>): (m: nat)
    requires ws != []
    ensures forall w :: w in ws ==> m <= |w|
    ensures exists w :: w in ws && |w| == m
  {
    if |ws| == 1 then |ws[0]|
    else
      var rest := MinLen(ws[1..]);
      assert forall w :: w in ws <==> w == ws[0] || w in ws[1..];
      if |ws[0]| <= rest then |ws[0]| else rest
  }

  function MaxLen(ws: seq<string>): (m: nat)
    requires ws != []
    ensures forall w :: w in ws ==> |w| <= m
    ensures exists w :: w in ws && |w| == m
  {
    if |ws| == 1 then |ws[0]|
    else
      var rest := MaxLen(ws[1..]);
      assert forall w :: w in ws <==> w == ws[0] || w in ws[1..];
      if |ws[0]| >= rest then |ws[0]| else rest
  }

  lemma MulMono(n: nat, x: int, y: int)
    ensures x <= y ==> n * x <= n * y
  {
  }

  /** Integer division by `n` keeps the bounds `n * x` puts on `t`. */
  lemma DivBounds(t: nat, n: nat, x: nat)
    requires n > 0
    ensures n * x <= t ==> x <= t / n
    ensures t <= n * x ==> t / n <= x
  {
    var a := t / n;
    assert t == n * a + t % n && 0 <= t % n < n;
    MulMono(n, a + 1, x);
    MulMono(n, x + 1, a);
  }

  /** The average lies between the shortest and the longest word. */
  lemma AverageLenBetween(ws: seq<string>)
    requires ws != []
    ensures exists w :: w in ws && |w| <= AverageLen(ws).value
    ensures exists w :: w in ws && AverageLen(ws).value <= |w|
  {
    var lo, hi := MinLen(ws), MaxLen(ws);
    TotalLenAtLeast(ws, lo);
    TotalLenAtMost(ws, hi);
    DivBounds(TotalLen(ws), |ws|, lo);
    DivBounds(TotalLen(ws), |ws|, hi);
  }

  /** The average length of the counted words that `word_len` evidently means to compute. */
  function AverageWordLen(text: string): (r: Option<nat>)
    ensures r.None? <==> CountWords(text) == 0
    ensures r.Some? ==> (exists w :: w in Words(text) && |w| <= r.value) && (exists w :: w in Words(text) && r.value <= |w|)
  {
    var ws := Words(text);
    if ws != [] then AverageLenBetween(ws); AverageLen(ws) else AverageLen(ws)
  }

  /** On the one-word text "a", `word_len` answers 0 where the average word length is 1. */
  lemma WordLenIgnoresWords()
    ensures WordLen("a") == Some(0)
    ensures AverageWordLen("a") == Some(1)
  {
    assert RunLength("a") == 1;
    assert "a"[1..] == [];
    assert SplitWhitespace("a") == ["a"[..1]] + SplitWhitespace("a"[1..]);
    assert "a"[..1] == "a";
    assert SplitWhitespace("a") == ["a"];
    assert HasAlphabetic("a") by {
      assert IsAlphabetic("a"[0]);
    }
    assert Words("a") == ["a"];
    assert TotalLen(["a"]) == 1;
  }

  // ---------------------------------------------------------------------------
  // Most used words

  /** `w` is a token of `tokens` that no other token outnumbers. */
  predicate MostFrequent(tokens: seq<string>, w: string)
  {
    w in tokens && forall v :: v in tokens ==> multiset(tokens)[v] <= multiset(tokens)[w]
  }

  /** The largest number of occurrences, in `all`, of a token of `part`. */
  function MaxCountIn(all: seq<string>, part: seq<string>): (m: nat)
    ensures forall w :: w in part ==> multiset(all)[w] <= m
    ensures part != [] ==> exists w :: w in part && multiset(all)[w] == m
  {
    if part == [] then 0
    else
      var rest := MaxCountIn(all, part[1..]);
      assert forall w :: w in part <==> w == part[0] || w in part[1..];
      if multiset(all)[part[0]] >= rest then multiset(all)[part[0]] else rest
  }

  /** Every non-empty list of tokens has a most frequent one. */
  lemma MostFrequentExists(tokens: seq<string>)
    requires tokens != []
    ensures exists w :: MostFrequent(tokens, w)
  {
    var m := MaxCountIn(tokens, tokens);
    var w :| w in tokens && multiset(tokens)[w] == m;
    assert MostFrequent(tokens, w);
  }

  /** In a map of the token counts, the entries at the largest count are the most frequent tokens. */
  lemma MaxCountIsMostFrequent(tokens: seq<string>, counts: map<string, nat>, max: nat)
    requires forall w :: w in counts <==> w in tokens
    requires forall w :: w in counts ==> counts[w] == multiset(tokens)[w]
    requires forall w :: w in counts ==> counts[w] <= max
    requires exists w :: w in counts && counts[w] == max
    ensures forall w :: w in counts && counts[w] == max <==> MostFrequent(tokens, w)
  {
  }

  /** The `entry(word).and_modify(+1).or_insert(1)` loop: how often each token occurs. */
  method CountTokens(tokens: seq<string>) returns (counts: map<string, nat>)
    ensures forall w :: w in counts <==> w in tokens
    ensures forall w :: w in counts ==> counts[w] == multiset(tokens)[w]
  {
    counts := map[];
    for i := 0 to |tokens|
      invariant forall w :: w in counts <==> w in tokens[..i]
      invariant forall w :: w in counts ==> counts[w] == multiset(tokens[..i])[w]
    {
      var word := tokens[i];
      assert tokens[..i + 1] == tokens[..i] + [word];
      if word in counts {
        counts := counts[word := counts[word] + 1];
      } else {
        counts := counts[word := 1];
      }
    }
    assert tokens[..|tokens|] == tokens;
  }

  /** `values().max().unwrap()`: the largest count, which some entry holds. */
  method MaxValue(counts: map<string, nat>) returns (max: nat)
    requires counts != map[]
    ensures forall w :: w in counts ==> counts[w] <= max
    ensures exists w :: w in counts && counts[w] == max
  {
    var first :| first in counts;
    max := counts[first];
    var keys := counts.Keys - {first};
    while keys != {}
      invariant keys <= counts.Keys && first in counts && first !in keys
      invariant forall w :: w in counts && w !in keys ==> counts[w] <= max
      invariant exists w :: w in counts && counts[w] == max
      decreases keys
    {
      var w :| w in keys;
      if counts[w] > max {
        max := counts[w];
      }
      keys := keys - {w};
    }
  }

  /**
   * `most_used_word`: None for a text without tokens; otherwise every token no
   * other token outnumbers, each once, in the map's (unspecified) order.
   */
  method MostUsedWord(text: string) returns (r: Option<seq<string>>)
    ensures r.None? <==> Blank(text)
    ensures r.Some? ==> |r.value| > 0
    ensures r.Some? ==> forall w :: w in r.value <==> MostFrequent(SplitWhitespace(text), w)
    ensures r.Some? ==> forall i, j :: 0 <= i < j < |r.value| ==> r.value[i] != r.value[j]
  {
    var words := SplitWhitespace(text);
    SplitWhitespaceEmpty(text);
    if |words| == 0 {
      return None;
    }
    var counts := CountTokens(words);
    assert words[0] in counts;
    var result: seq<string> := [];
    var max := MaxValue(counts);
    var keys := counts.Keys;
    while keys != {}
      invariant keys <= counts.Keys
      invariant forall w :: w in result <==> w in counts && w !in keys && counts[w] == max
      invariant forall i, j :: 0 <= i < j < |result| ==> result[i] != result[j]
      decreases keys
    {
      var w :| w in keys;
      if counts[w] == max {
        result := result + [w];
      }
      keys := keys - {w};
    }
    MaxCountIsMostFrequent(words, counts, max);
    if result == [] {
      // the largest count belongs to some word, which was collected
      assert false;
      return None;
    }
    return Some(result);
  }
}
