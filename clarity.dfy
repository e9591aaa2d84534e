/** Clarity (weight 15): the share of filler words (scorer.py:112-122). */
module Clarity {
  import opened Text
  import opened Ratio
  import opened Rubric

  /** Every filler word is written in lower case. */
  lemma FillerWordsAreLowerCase()
    ensures forall f :: f in FillerWords ==> Lower(f) == f
  {
  }

  /** `w.lower() in FILLER_WORDS`: w is a filler word up to letter case. */
  predicate IsFiller(w: string)
    ensures IsFiller(w) <==> exists f :: f in FillerWords && EqualIgnoringCase(w, f)
  {
    FillerWordsAreLowerCase();
    assert forall f :: f in FillerWords ==> (Lower(w) == f <==> EqualIgnoringCase(w, f)) by {
      forall f | f in FillerWords ensures Lower(w) == f <==> EqualIgnoringCase(w, f) {
        assert Lower(f) == f;
        if EqualIgnoringCase(w, f) {
          assert forall i :: 0 <= i < |w| ==> Lower(w)[i] == Lower(f)[i];
        }
      }
    }
    Lower(w) in FillerWords
  }

  /** `sum(1 for w in words if w.lower() in FILLER_WORDS)`. */
  function FillerCount(words: seq<string>): (c: nat)
    ensures c <= |words|
    ensures c == 0 <==> forall i :: 0 <= i < |words| ==> !IsFiller(words[i])
    ensures c == |words| <==> forall i :: 0 <= i < |words| ==> IsFiller(words[i])
  {
    if words == [] then 0
    else
      assert forall i :: 1 <= i < |words| ==> words[1..][i - 1] == words[i];
      (if IsFiller(words[0]) then 1 else 0) + FillerCount(words[1..])
  }

  /** `filler_count / total_words * 100`, a percentage. */
  function FillerRate(fillerCount: nat, totalWords: nat): (rate: real)
    requires 0 < totalWords && fillerCount <= totalWords
    ensures 0.0 <= rate <= 100.0
    ensures rate * totalWords as real == fillerCount as real * 100.0
  {
    FractionBounds(fillerCount, totalWords);
    (fillerCount as real / totalWords as real) * 100.0
  }

  /** The clarity bands, inclusive on both ends: 0-3, 4-6, 7-9, 10-12. A rate
      that falls between two bands, or above 12, scores 3. */
  function ClarityRaw(rate: real): (c: nat)
    ensures c == 3 || c == 6 || c == 9 || c == 12 || c == 15
    ensures c == 15 <==> 0.0 <= rate <= 3.0
    ensures c == 12 <==> 4.0 <= rate <= 6.0
    ensures c == 9 <==> 7.0 <= rate <= 9.0
    ensures c == 6 <==> 10.0 <= rate <= 12.0
  {
    if 0.0 <= rate <= 3.0 then 15
    else if 4.0 <= rate <= 6.0 then 12
    else if 7.0 <= rate <= 9.0 then 9
    else if 10.0 <= rate <= 12.0 then 6
    else 3
  }

  /** The score is not monotone in the rate: 3.5% gets 3 while 4% gets 12. */
  lemma ClarityNotMonotone()
    ensures ClarityRaw(3.0) == 15 && ClarityRaw(3.5) == 3 && ClarityRaw(4.0) == 12
  {
  }

  /** A transcript without fillers gets the full clarity score. */
  lemma NoFillersFullClarity(words: seq<string>)
    requires words != []
    requires forall i :: 0 <= i < |words| ==> !IsFiller(words[i])
    ensures ClarityRaw(FillerRate(FillerCount(words), |words|)) == 15
  {
    assert FillerCount(words) == 0;
    NoFillerRate(|words|);
  }

  /** No fillers is a filler rate of zero. */
  lemma NoFillerRate(totalWords: nat)
    requires totalWords > 0
    ensures FillerRate(0, totalWords) == 0.0
  {
  }
}
