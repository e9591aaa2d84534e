/** The fixed rubric: phrase lists, topic labels, thresholds and the
    order of the criteria in the report (scorer.py:33-35, 55-56, 61). */
module Rubric {

  /** Tokens that count as fillers once lower-cased. The two-word entries
      only match when a tokenizer emits them as a single token. */
  const FillerWords: set<string> := {
    "um", "uh", "like", "you know", "so", "actually", "basically", "right",
    "i mean", "well", "kinda", "sort of", "okay", "hmm", "ah"
  }

  /** Greetings worth the full salutation score. */
  const StrongSalutations: seq<string> :=
    ["good morning", "good afternoon", "good evening", "good day", "hello everyone"]

  /** Greetings worth the lesser salutation score. */
  const WeakSalutations: seq<string> := ["hi", "hello"]

  /** Only this many leading characters are searched for a greeting. */
  const SalutationWindowLength: nat := 50

  /** Topics every introduction should cover. */
  const MustTopics: seq<string> := ["Name", "Age", "School class", "Family", "Hobbies interest"]

  /** Topics that earn extra credit. */
  const GoodTopics: seq<string> := ["Family details", "Origin", "Ambition goal", "Unique fact", "Achievements"]

  /** A topic is found when some sentence is strictly more similar than this. */
  const CoverageThreshold: real := 0.35

  /** The message of the result returned for a transcript without words. */
  const EmptyTranscriptMessage: string := "Empty transcript"

  /** The criteria, in the order the report lists them. */
  const CriterionNames: seq<string> :=
    ["Content & Structure", "Speech Rate", "Language", "Clarity", "Engagement"]

  /** The most each criterion can contribute, in the order of CriterionNames. */
  const CriterionWeights: seq<real> := [40.0, 10.0, 20.0, 15.0, 15.0]
}
