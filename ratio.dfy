/** Bounds on the share of a whole that a part makes up, shared by the
    type-token ratio and the filler rate. */
module Ratio {

  /** A part of a positive whole is a fraction in [0, 1], and a positive
      part gives a positive fraction. */
  lemma FractionBounds(part: nat, total: nat)
    requires 0 < total && part <= total
    ensures 0.0 <= part as real / total as real <= 1.0
    ensures 0 < part ==> 0.0 < part as real / total as real
  {
    assert part as real / total as real * total as real == part as real;
  }
}
