/**
 * `Stats` of the first `text_analyser`. Its `count_chars` and
 * `count_phrases` are the same pipelines as in `TextAnalyser`; what differs
 * is `count_words` (every whitespace-separated token counts), `word_len`
 * (over all tokens) and `most_used_words`, which returns one most used token
 * and scans the map with an early return.
 */
module DraftTextAnalyser {
  import opened Wrappers
  import opened Strings
  import TextAnalyser

  /** `count_words`: `enumerate` does not change the number of tokens. */
  function CountWords(text: string): (n: nat)
    ensures n == 0 <==> Blank(text)
  {
    SplitWhitespaceEmpty(text);
    |SplitWhitespace(text)|
  }

  /** The later analyser, which counts only tokens holding a letter, never counts more. */
  lemma FewerWordsWithLetters(text: string)
    ensures TextAnalyser.CountWords(text) <= CountWords(text)
  {
  }

  /**
   * `word_len` as written: the `map` meant to add up the token lengths is never
   * consumed, so `len` stays 0 — 0, or the division-by-zero panic (None) for blank text.
   */
  function WordLen(text: string): (r: Option<nat>)
    ensures r.None? <==> Blank(text)
    ensures r.Some? ==> r.value == 0
  {
    var wordCount := CountWords(text);
    var len := 0;
    if wordCount == 0 then None else Some(len / wordCount)
  }

  /** The average token length that `word_len` evidently means to compute. */
  function AverageWordLen(text: string): (r: Option<nat>)
    ensures r.None? <==> Blank(text)
    ensures r.Some? ==> exists w :: w in SplitWhitespace(text) && |w| <= r.value
    ensures r.Some? ==> exists w :: w in SplitWhitespace(text) && r.value <= |w|
  {
    var ws := SplitWhitespace(text);
    SplitWhitespaceEmpty(text);
    if ws != [] then TextAnalyser.AverageLenBetween(ws); TextAnalyser.AverageLen(ws)
    else TextAnalyser.AverageLen(ws)
  }

  /** On the text "ab", `word_len` answers 0 where the average token length is 2. */
  lemma WordLenIgnoresTokens()
    ensures WordLen("ab") == Some(0)
    ensures AverageWordLen("ab") == Some(2)
  {
    assert RunLength("ab"[1..]) == 1;
    assert RunLength("ab") == 2;
    assert "ab"[2..] == [] && "ab"[..2] == "ab";
    assert SplitWhitespace("ab") == ["ab"[..2]] + SplitWhitespace("ab"[2..]);
    assert SplitWhitespace("ab") == ["ab"];
    assert TextAnalyser.TotalLen(["ab"]) == 2;
  }

  /**
   * `most_used_words`: `Ok(None)` for a text without tokens, otherwise
   * `Ok(Some(w))` for the first entry of the map (in its unspecified order)
   * whose count is the largest. It never returns `Err`, and its final
   * `Ok(None)` is never reached.
   */
  method MostUsedWords(text: string) returns (r: Result<Option<string>, string>)
    ensures r.Ok?
    ensures r.value.None? <==> Blank(text)
    ensures r.value.Some? ==> TextAnalyser.MostFrequent(SplitWhitespace(text), r.value.value)
  {
    var words := SplitWhitespace(text);
    SplitWhitespaceEmpty(text);
    if |words| == 0 {
      return Ok(None);
    }
    var counts := TextAnalyser.CountTokens(words);
    assert words[0] in counts;
    var keys := counts.Keys;
    while keys != {}
      invariant keys <= counts.Keys
      invariant forall w :: w in counts && w !in keys ==> !TextAnalyser.MostFrequent(words, w)
      decreases keys
    {
      var w :| w in keys;
      var max := TextAnalyser.MaxValue(counts);
      TextAnalyser.MaxCountIsMostFrequent(words, counts, max);
      if counts[w] == max {
        return Ok(Some(w));
      }
      keys := keys - {w};
    }
    TextAnalyser.MostFrequentExists(words);
    // some token is the most frequent, and the loop returns when it meets it
    assert false;
    return Ok(None);
  }
}
