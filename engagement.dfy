/** Engagement (weight 15): the sentiment compound score mapped to [0, 1] and
    banded (scorer.py:124-136). The sentiment analyser is not modelled; its
    compound score is an input. */
module Engagement {

  /** `(compound + 1) / 2`. */
  function ScoreMetric(compound: real): (m: real)
    ensures -1.0 <= compound <= 1.0 ==> 0.0 <= m <= 1.0
    ensures 2.0 * m - 1.0 == compound
  {
    (compound + 1.0) / 2.0
  }

  /** The engagement bands on the normalised metric. */
  function EngagementRaw(metric: real): (e: nat)
    ensures e == 3 || e == 6 || e == 9 || e == 12 || e == 15
    ensures e == 15 <==> metric >= 0.9
    ensures e == 12 <==> 0.7 <= metric < 0.9
    ensures e == 9 <==> 0.5 <= metric < 0.7
    ensures e == 6 <==> 0.3 <= metric < 0.5
    ensures e == 3 <==> metric < 0.3
  {
    if metric >= 0.9 then 15
    else if 0.7 <= metric < 0.9 then 12
    else if 0.5 <= metric < 0.7 then 9
    else if 0.3 <= metric < 0.5 then 6
    else 3
  }

  /** A more positive transcript never scores lower. */
  lemma EngagementMonotone(m1: real, m2: real)
    requires m1 <= m2
    ensures EngagementRaw(m1) <= EngagementRaw(m2)
  {
  }
}
