/** Speech Rate (weight 10): words per minute and its bands (scorer.py:83-91). */
module SpeechRate {

  /** `(total_words / duration_sec) * 60`, or 0 when the duration is not positive. */
  function WordsPerMinute(totalWords: nat, durationSec: real): (wpm: real)
    ensures wpm >= 0.0
    ensures durationSec <= 0.0 ==> wpm == 0.0
    ensures durationSec > 0.0 ==> wpm * durationSec == totalWords as real * 60.0
  {
    if durationSec > 0.0 then (totalWords as real / durationSec) * 60.0 else 0.0
  }

  /** The rate bands, tested in the order 111-140, 141-160, 81-110. The
      bounds are inclusive and compared against an unrounded rate, so the
      gaps between bands (110 < wpm < 111, 140 < wpm < 141) score 2. */
  function RateScore(wpm: real): (r: nat)
    ensures r == 2 || r == 6 || r == 10
    ensures r == 10 <==> 111.0 <= wpm <= 140.0
    ensures r == 6 <==> (141.0 <= wpm <= 160.0 || 81.0 <= wpm <= 110.0)
  {
    if 111.0 <= wpm <= 140.0 then 10
    else if 141.0 <= wpm <= 160.0 then 6
    else if 81.0 <= wpm <= 110.0 then 6
    else 2
  }

  /** A missing or non-positive duration gives the lowest rate score. */
  lemma NoDurationScoresLowest(totalWords: nat, durationSec: real)
    requires durationSec <= 0.0
    ensures RateScore(WordsPerMinute(totalWords, durationSec)) == 2
  {
  }

  /** The gaps between bands: 110.5 scores 2 although 111 scores 10, and
      140.5 scores 2 although 141 scores 6. */
  lemma RateBandGaps()
    ensures RateScore(110.5) == 2 && RateScore(111.0) == 10
    ensures RateScore(140.5) == 2 && RateScore(141.0) == 6
  {
  }

  /** The score is not a non-increasing function of the distance from 125:
      140 is further from 125 than 110.5 is, yet scores higher. */
  lemma RateNotCentredOn125()
    ensures 125.0 - 110.5 < 140.0 - 125.0
    ensures RateScore(110.5) < RateScore(140.0)
  {
  }
}
