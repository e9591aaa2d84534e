/** Language (weight 20): grammar-error density and type-token ratio
    (scorer.py:93-110). The grammar checker is not modelled; its error count
    is an input. */
module Language {
  import opened Text
  import opened Ratio

  /** `error_count / total_words * 100`. */
  function ErrorsPer100(errorCount: nat, totalWords: nat): (e: real)
    requires totalWords > 0
    ensures e >= 0.0
    ensures e * totalWords as real == errorCount as real * 100.0
  {
    (errorCount as real / totalWords as real) * 100.0
  }

  /** `(1 - min(errors_per_100 / 10, 1)) * 10`. */
  function GrammarRaw(errorsPer100: real): (g: real)
    requires errorsPer100 >= 0.0
    ensures 0.0 <= g <= 10.0
    ensures errorsPer100 >= 10.0 ==> g == 0.0
    ensures errorsPer100 < 10.0 ==> g == 10.0 - errorsPer100
  {
    (1.0 - (if errorsPer100 / 10.0 < 1.0 then errorsPer100 / 10.0 else 1.0)) * 10.0
  }

  /** More errors never raise the grammar score. */
  lemma GrammarNonIncreasing(e1: real, e2: real)
    requires 0.0 <= e1 <= e2
    ensures GrammarRaw(e2) <= GrammarRaw(e1)
  {
  }

  /** `set(w.lower() for w in words)`. */
  function UniqueWords(words: seq<string>): (u: set<string>)
    ensures forall i :: 0 <= i < |words| ==> Lower(words[i]) in u
    ensures forall x :: x in u ==> exists i :: 0 <= i < |words| && Lower(words[i]) == x
  {
    set w | w in words :: Lower(w)
  }

  /** There are at least one and at most as many distinct lower-cased words
      as words. */
  lemma {:induction false} UniqueWordsBounds(words: seq<string>)
    ensures |UniqueWords(words)| <= |words|
    ensures words != [] ==> |UniqueWords(words)| >= 1
    decreases |words|
  {
    if words != [] {
      var rest := words[1..];
      UniqueWordsBounds(rest);
      assert UniqueWords(words) == {Lower(words[0])} + UniqueWords(rest) by {
        forall u ensures u in UniqueWords(words) <==> u in {Lower(words[0])} + UniqueWords(rest) {
          if u in UniqueWords(words) {
            var w :| w in words && Lower(w) == u;
            if w != words[0] { assert w in rest; }
          }
        }
      }
    }
  }

  /** `unique_words / total_words`, the type-token ratio. */
  function TypeTokenRatio(words: seq<string>): (ttr: real)
    requires words != []
    ensures 0.0 < ttr <= 1.0
  {
    UniqueWordsBounds(words);
    FractionBounds(|UniqueWords(words)|, |words|);
    |UniqueWords(words)| as real / |words| as real
  }

  /** The vocabulary bands on the type-token ratio. */
  function VocabularyRaw(ttr: real): (v: nat)
    ensures v == 2 || v == 4 || v == 6 || v == 8 || v == 10
    ensures v == 10 <==> ttr >= 0.9
    ensures v == 8 <==> 0.7 <= ttr < 0.9
    ensures v == 6 <==> 0.5 <= ttr < 0.7
    ensures v == 4 <==> 0.3 <= ttr < 0.5
    ensures v == 2 <==> ttr < 0.3
  {
    if ttr >= 0.9 then 10
    else if 0.7 <= ttr < 0.9 then 8
    else if 0.5 <= ttr < 0.7 then 6
    else if 0.3 <= ttr < 0.5 then 4
    else 2
  }

  /** A richer vocabulary never scores lower. */
  lemma VocabularyMonotone(ttr1: real, ttr2: real)
    requires ttr1 <= ttr2
    ensures VocabularyRaw(ttr1) <= VocabularyRaw(ttr2)
  {
  }

  /** `(grammar_raw + vocab_raw) / 20 * 20`: the normalisation is the identity. */
  function LanguageWeighted(grammar: real, vocabulary: nat): (r: real)
    ensures r == grammar + vocabulary as real
  {
    ((grammar + vocabulary as real) / 20.0) * 20.0
  }

  /** For any transcript with words, the language score lies in [2, 20]. */
  lemma LanguageBounds(errorCount: nat, words: seq<string>)
    requires words != []
    ensures 2.0 <= LanguageWeighted(GrammarRaw(ErrorsPer100(errorCount, |words|)),
                                    VocabularyRaw(TypeTokenRatio(words))) <= 20.0
  {
  }
}
