/**
 * The two pieces of Go's `strings` package that the request gate relies on:
 * `strings.Index` for a single separator character and `strings.SplitN` with
 * a one-character separator and `n == 2`.
 *
 * A Go string is a sequence of bytes; here each `char` stands for one byte.
 * The separator is the ASCII space, so nothing depends on the encoding.
 */
module Text {
  const Space: char := ' '

  /** What `strings.Index` returns when the separator does not occur. */
  const NotFound: int := -1

  /** `strings.Index(text, string(sep))`: the position of the first `sep`, or `NotFound`. */
  function Index(text: string, sep: char): (pos: int)
    ensures pos == NotFound || 0 <= pos < |text|
    ensures pos == NotFound <==> sep !in text
    ensures 0 <= pos < |text| ==> text[pos] == sep
    ensures forall k :: 0 <= k < |text| && k < pos ==> text[k] != sep
  {
    if text == [] then NotFound
    else if text[0] == sep then 0
    else if Index(text[1..], sep) < 0 then NotFound
    else Index(text[1..], sep) + 1
  }

  /**
   * `strings.SplitN(s, " ", 2)`: at most two parts, cut at the first space only.
   * Go clamps `n` to `len(s) + 1`, so the empty string yields `[""]`, which is
   * what the "no space" branch below yields too.
   */
  function SplitFirstSpace(s: string): (parts: seq<string>)
    ensures |parts| == 1 <==> Space !in s
    ensures |parts| == 1 ==> parts[0] == s
    ensures |parts| == 2 ==> parts[0] + [Space] + parts[1] == s && Space !in parts[0]
    ensures 1 <= |parts| <= 2
  {
    var m := Index(s, Space);
    if m < 0 then [s]
    else
      assert s == s[..m] + [Space] + s[m + 1..];
      [s[..m], s[m + 1..]]
  }

  /**
   * Cutting at the first space is determined by what precedes it: when `s`
   * starts with a space-free `word` followed by a space, the split yields
   * `word` and everything after that space, whatever spaces the rest holds.
   */
  lemma SplitAfterWord(s: string, word: string)
    requires Space !in word
    requires |s| > |word| && s[..|word|] == word && s[|word|] == Space
    ensures SplitFirstSpace(s) == [word, s[|word| + 1..]]
  {
    var k := |word|;
    assert s[k] == Space;
    var m := Index(s, Space);
    assert forall i :: 0 <= i < k ==> s[i] == word[i];
    assert m >= k;
    assert forall i :: 0 <= i < m ==> s[..m][i] == s[i];
  }

  /**
   * Conversely, a two-part split whose first part is `word` means `s` starts
   * with `word` and a space, and the second part is the rest of `s`.
   */
  lemma SplitGivesWord(s: string, word: string)
    requires |SplitFirstSpace(s)| == 2 && SplitFirstSpace(s)[0] == word
    ensures |s| > |word| && s[..|word|] == word && s[|word|] == Space
    ensures SplitFirstSpace(s)[1] == s[|word| + 1..]
  {
    var parts := SplitFirstSpace(s);
    assert s == word + [Space] + parts[1];
    assert s[..|word|] == word;
  }
}
