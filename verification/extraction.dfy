/**
 Pulling the JSON array out of the model's reply text with the greedy pattern
 `/\[[\s\S]*\]/`: the match starts at the leftmost '[' that has a ']' after it
 and, because `[\s\S]*` is greedy, ends at the last ']' of the text. When
 there is no match the whole text is handed to the JSON parser instead.
 */
module Extraction {
  import opened Seqs

  /** Position of the first occurrence of `c`, if any. */
  function FirstIndex(s: string, c: char): (r: Option<nat>)
    ensures r.None? <==> c !in s
    ensures r.Some? ==> r.value < |s| && s[r.value] == c
    ensures r.Some? ==> forall k :: 0 <= k < r.value ==> s[k] != c
  {
    if c in s then Some(IndexOf(s, c)) else None
  }

  /** Position of the last occurrence of `c`, if any. */
  function LastIndex(s: string, c: char): (r: Option<nat>)
    ensures r.None? <==> c !in s
    ensures r.Some? ==> r.value < |s| && s[r.value] == c
    ensures r.Some? ==> forall k :: r.value < k < |s| ==> s[k] != c
    decreases |s|
  {
    if |s| == 0 then None
    else if s[|s| - 1] == c then Some(|s| - 1)
    else
      assert s == s[..|s| - 1] + [s[|s| - 1]];
      LastIndex(s[..|s| - 1], c)
  }

  /** What the pattern matches, if anything. */
  function ArrayMatch(text: string): (r: Option<string>)
    ensures r.Some? ==> |r.value| >= 2 && r.value[0] == '[' && r.value[|r.value| - 1] == ']'
  {
    match (FirstIndex(text, '['), LastIndex(text, ']'))
    case (Some(p), Some(q)) => if p < q then Some(text[p..q + 1]) else None
    case _ => None
  }

  /**
   The text handed to `JSON.parse`: the match, or the whole reply when nothing
   matched. Either way it is a stretch of the reply, and it is bracketed
   whenever some '[' precedes some ']'.
   */
  function JsonText(text: string): (r: string)
    ensures (exists p, q :: CanMatch(text, p, q)) ==> |r| >= 2 && r[0] == '[' && r[|r| - 1] == ']'
    ensures (forall p, q :: !CanMatch(text, p, q)) ==> r == text
    ensures exists a, b :: 0 <= a <= b <= |text| && r == text[a..b]
  {
    ArrayMatchIsLeftmostLongest(text);
    match ArrayMatch(text)
    case Some(m) => m
    case None =>
      assert text == text[0..|text|];
      text
  }

  /** The pattern can match at `p..q` (inclusive): an opening bracket before a closing one. */
  predicate CanMatch(text: string, p: int, q: int) {
    0 <= p < q < |text| && text[p] == '[' && text[q] == ']'
  }

  /**
   The extraction agrees with the regular expression's semantics: it matches
   exactly when some '[' precedes some ']', and then the match begins at the
   leftmost start position of any possible match and ends at the rightmost
   end position, so it contains every possible match.
   */
  lemma ArrayMatchIsLeftmostLongest(text: string)
    ensures ArrayMatch(text).Some? <==> exists p, q :: CanMatch(text, p, q)
    ensures ArrayMatch(text).Some? ==>
      exists p, q :: CanMatch(text, p, q) && ArrayMatch(text).value == text[p..q + 1] &&
        forall p', q' :: CanMatch(text, p', q') ==> p <= p' && q' <= q
  {
    var fp := FirstIndex(text, '[');
    var lq := LastIndex(text, ']');
    if ArrayMatch(text).Some? {
      var p, q := fp.value, lq.value;
      assert CanMatch(text, p, q);
      forall p', q' | CanMatch(text, p', q') ensures p <= p' && q' <= q {
      }
    } else {
      forall p, q | 0 <= p < q < |text| ensures !CanMatch(text, p, q) {
      }
    }
  }

  /** Without a ']' after the first '[', the whole reply is parsed as it stands. */
  lemma NoMatchParsesWholeText(text: string)
    requires forall p, q :: 0 <= p < q < |text| ==> !(text[p] == '[' && text[q] == ']')
    ensures JsonText(text) == text
  {
    ArrayMatchIsLeftmostLongest(text);
  }

  /**
   Prose before and after the array is cut away, while whatever the array
   holds, nested brackets included, survives whole.
   */
  lemma ExtractsFromProse(before: string, inner: string, after: string)
    requires '[' !in before && ']' !in after
    ensures JsonText(before + "[" + inner + "]" + after) == "[" + inner + "]"
  {
    var arr := "[" + inner + "]";
    var text := before + "[" + inner + "]" + after;
    assert text == before + (arr + after);
    assert text == (before + arr) + after;
    FirstAfterPrefix(before, arr + after, '[');
    LastBeforeSuffix(before + arr, after, ']');
    var p, q := |before|, |before| + |arr| - 1;
    assert text[p..q + 1] == arr;
  }

  /** A character absent from the prefix is first found where the rest begins with it. */
  lemma FirstAfterPrefix(prefix: string, rest: string, c: char)
    requires c !in prefix && |rest| > 0 && rest[0] == c
    ensures FirstIndex(prefix + rest, c) == Some(|prefix|)
  {
    var s := prefix + rest;
    assert s[|prefix|] == c;
    assert forall k :: 0 <= k < |prefix| ==> s[k] == prefix[k];
  }

  /** A character absent from the suffix is last found where the rest ends with it. */
  lemma LastBeforeSuffix(rest: string, suffix: string, c: char)
    requires c !in suffix && |rest| > 0 && rest[|rest| - 1] == c
    ensures LastIndex(rest + suffix, c) == Some(|rest| - 1)
  {
    var s := rest + suffix;
    assert s[|rest| - 1] == c;
    assert forall k :: |rest| <= k < |s| ==> s[k] == suffix[k - |rest|];
  }
}
