/**
 * The byte-search helper of the connection module: whether one byte string
 * occurs inside another, found by sliding a window of the pattern's length
 * over the text (`Strings.Find`).
 */
module Connection {
  import opened Wrappers
  import opened Strings

  type u8 = x: int | 0 <= x <= 0xFF

  /** `find_in_u8`: the empty pattern is always found; otherwise some window of `big` must equal it. */
  function FindInU8(big: seq<u8>, little: seq<u8>): (found: bool)
    ensures little == [] ==> found
    ensures little != [] ==> (found <==> exists i: nat :: MatchAt(big, little, i))
  {
    if |little| == 0 then true
    else
      Find(big, little).Some?
  }

  /** A non-empty pattern longer than the text is never found. */
  lemma LongerNotFound(big: seq<u8>, little: seq<u8>)
    requires little != [] && |little| > |big|
    ensures !FindInU8(big, little)
  {
  }

  /** Growing the text on either side keeps a pattern found. */
  lemma FoundStaysFound(big: seq<u8>, little: seq<u8>, s: seq<u8>)
    requires FindInU8(big, little)
    ensures FindInU8(big + s, little)
    ensures FindInU8(s + big, little)
  {
    if little != [] {
      var i: nat :| MatchAt(big, little, i);
      assert (big + s)[i..i + |little|] == big[i..i + |little|];
      assert MatchAt(big + s, little, i);
      assert (s + big)[|s| + i..|s| + i + |little|] == big[i..i + |little|];
      assert MatchAt(s + big, little, |s| + i);
    }
  }
}
