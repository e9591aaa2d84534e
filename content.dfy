/** Content & Structure (weight 40): salutation tier, keyword credit, the
    flow bonus and the capped normalisation (scorer.py:46-52, 77-81). */
module Content {
  import opened Text
  import opened Rubric

  /** `lower_text[:50]`: the lower-cased opening of the transcript. */
  function SalutationWindow(text: string): (w: string)
    ensures |w| <= SalutationWindowLength
    ensures w == Lower(Prefix(text, SalutationWindowLength))
  {
    LowerPrefix(text, SalutationWindowLength);
    Prefix(Lower(text), SalutationWindowLength)
  }

  /** Some phrase of the list is a substring of the window. */
  ghost predicate SomePhraseOccurs(phrases: seq<string>, window: string)
  {
    exists s :: s in phrases && IsSubstring(s, window)
  }

  /** `any(s in window for s in phrases)`: true exactly when some phrase of
      the list occurs in the window. */
  predicate AnyPhraseIn(phrases: seq<string>, window: string)
    ensures AnyPhraseIn(phrases, window) <==> SomePhraseOccurs(phrases, window)
  {
    ContainsIsSubstringForAll(window);
    exists s :: s in phrases && Contains(window, s)
  }

  /** 4 for a strong greeting, else 2 for a weak one, else 0. */
  function SalutationScore(text: string): (r: nat)
    ensures r == 0 || r == 2 || r == 4
  {
    var window := SalutationWindow(text);
    if AnyPhraseIn(StrongSalutations, window) then 4
    else if AnyPhraseIn(WeakSalutations, window) then 2
    else 0
  }

  /** The tiers are ordered strong-then-weak and matched as substrings. */
  lemma SalutationTiers(text: string)
    ensures SalutationScore(text) == 4
        <==> SomePhraseOccurs(StrongSalutations, SalutationWindow(text))
    ensures SalutationScore(text) == 2
        <==> !SomePhraseOccurs(StrongSalutations, SalutationWindow(text))
             && SomePhraseOccurs(WeakSalutations, SalutationWindow(text))
    ensures SalutationScore(text) == 0
        <==> !SomePhraseOccurs(StrongSalutations, SalutationWindow(text))
             && !SomePhraseOccurs(WeakSalutations, SalutationWindow(text))
  {
  }

  /** Only the first 50 characters matter: anything after them is ignored. */
  lemma SalutationIgnoresTail(head: string, tail: string)
    requires |head| >= SalutationWindowLength
    ensures SalutationScore(head + tail) == SalutationScore(head)
  {
    assert (head + tail)[..SalutationWindowLength] == head[..SalutationWindowLength];
    assert SalutationWindow(head + tail) == SalutationWindow(head);
  }

  /** Matching is by substring, not by word: the "hi" inside "Chief" is a
      weak greeting. */
  lemma SubstringNotWord()
    ensures SalutationScore("Chief") == 2
  {
    var window := SalutationWindow("Chief");
    assert window == "chief";
    assert Contains(window, "hi") by {
      assert window[1..][..2] == "hi";
    }
  }

  /** `min(20, count_must * 4) + min(10, count_good * 2)`. */
  function KeywordScore(countMust: nat, countGood: nat): (r: nat)
    ensures r <= 30
    ensures r == 30 <==> countMust >= 5 && countGood >= 5
  {
    (if countMust * 4 < 20 then countMust * 4 else 20)
    + (if countGood * 2 < 10 then countGood * 2 else 10)
  }

  /** The flow bonus rewards the same greeting signal a second time. */
  function FlowScore(salutation: nat): (r: nat)
    ensures r == 5 <==> salutation > 0
    ensures r == 0 <==> salutation == 0
  {
    if salutation > 0 then 5 else 0
  }

  /** `content_raw`: greeting, keywords and the flow bonus. */
  function ContentRaw(salutation: nat, countMust: nat, countGood: nat): (r: nat)
    ensures salutation <= 4 ==> r <= 39
  {
    salutation + KeywordScore(countMust, countGood) + FlowScore(salutation)
  }

  /** `min(content_raw, 35) / 35 * 40`: capped at 35 raw points, scaled to 40. */
  function ContentWeighted(raw: nat): (r: real)
    ensures 0.0 <= r <= 40.0
    ensures raw >= 35 ==> r == 40.0
    ensures raw < 35 ==> r < 40.0
  {
    ((if raw < 35 then raw else 35) as real / 35.0) * 40.0
  }

  /** Finding more topics of either kind never lowers the content score. */
  lemma ContentMonotone(salutation: nat, must1: nat, must2: nat, good1: nat, good2: nat)
    requires must1 <= must2 && good1 <= good2
    ensures ContentWeighted(ContentRaw(salutation, must1, good1))
         <= ContentWeighted(ContentRaw(salutation, must2, good2))
  {
  }

  /** A greeting is counted twice: a strong one is worth 4 + 5 raw points,
      a weak one 2 + 5. */
  lemma SalutationCountedTwice(countMust: nat, countGood: nat)
    ensures ContentRaw(4, countMust, countGood) == ContentRaw(0, countMust, countGood) + 9
    ensures ContentRaw(2, countMust, countGood) == ContentRaw(0, countMust, countGood) + 7
  {
  }

  /** The best raw total is 39, yet 35 already earns the full 40: the cap
      discounts the last four raw points. */
  lemma ContentCapDiscount()
    ensures ContentRaw(4, 5, 5) == 39 && ContentWeighted(39) == 40.0
    ensures ContentRaw(4, 5, 3) == 35 && ContentWeighted(35) == 40.0
  {
  }
}
