/** `RubricScorer.analyze_transcript` (scorer.py:37-150): the empty-input
    guard, the five criteria and the fixed-order report. Tokenizer, embedding
    model, grammar checker and sentiment analyser are not modelled; what the
    scorer reads from them is passed in: the word tokens, one similarity
    matrix per topic list, the grammar error count and the compound
    sentiment score. */
module Scorer {
  import opened Rubric
  import opened Coverage
  import opened Content
  import opened SpeechRate
  import opened Language
  import opened Clarity
  import opened Engagement

  /** What each criterion's feedback string reports, before formatting. */
  datatype Feedback =
    | KeywordsFound(mandatory: nat, optional: nat)
    | Pace(wordsPerMinute: real)
    | Wording(typeTokenRatio: real, grammarErrors: nat)
    | Fillers(fillerRate: real)
    | Positivity(scoreMetric: real)

  datatype Criterion = Criterion(name: string, score: real, feedback: Feedback)

  /** `{"error": ...}` or `{"overall_score": ..., "details": {...}}`; the
      details mapping is a sequence because its order is part of the result. */
  datatype Report =
    | Failure(error: string)
    | Success(overallScore: real, details: seq<Criterion>)

  function SumScores(details: seq<Criterion>): real
  {
    if details == [] then 0.0 else details[0].score + SumScores(details[1..])
  }

  /** The details name the five criteria in the fixed order. */
  predicate InRubricOrder(details: seq<Criterion>)
  {
    |details| == |CriterionNames|
    && forall i :: 0 <= i < |details| ==> details[i].name == CriterionNames[i]
  }

  /** No criterion contributes less than 0 or more than its weight. */
  predicate WithinWeights(details: seq<Criterion>)
    requires InRubricOrder(details)
  {
    forall i :: 0 <= i < |details| ==> 0.0 <= details[i].score <= CriterionWeights[i]
  }

  /** The final dictionary: the five scores under their names, in rubric
      order, and their sum as the overall score. */
  function Aggregate(content: real, speech: real, language: real, clarity: real, engagement: real,
                     feedback: seq<Feedback>): (r: Report)
    requires |feedback| == |CriterionNames|
    ensures r.Success? && InRubricOrder(r.details)
    ensures r.overallScore == SumScores(r.details)
    ensures r.details[0].score == content && r.details[1].score == speech
         && r.details[2].score == language && r.details[3].score == clarity
         && r.details[4].score == engagement
    ensures forall i :: 0 <= i < |r.details| ==> r.details[i].feedback == feedback[i]
  {
    var details := [
      Criterion(CriterionNames[0], content, feedback[0]),
      Criterion(CriterionNames[1], speech, feedback[1]),
      Criterion(CriterionNames[2], language, feedback[2]),
      Criterion(CriterionNames[3], clarity, feedback[3]),
      Criterion(CriterionNames[4], engagement, feedback[4])
    ];
    assert SumScores(details[4..]) == engagement;
    assert SumScores(details[3..]) == clarity + engagement;
    assert SumScores(details[2..]) == language + clarity + engagement;
    assert SumScores(details[1..]) == speech + language + clarity + engagement;
    Success(content + speech + language + clarity + engagement, details)
  }

  /** Five sub-scores within their weights make a report within the
      weights, with an overall score between the sum of the band floors
      and 100. */
  lemma AggregateWithinWeights(content: real, speech: real, language: real, clarity: real, engagement: real,
                               feedback: seq<Feedback>)
    requires |feedback| == |CriterionNames|
    requires 0.0 <= content <= 40.0 && 2.0 <= speech <= 10.0 && 2.0 <= language <= 20.0
    requires 3.0 <= clarity <= 15.0 && 3.0 <= engagement <= 15.0
    ensures WithinWeights(Aggregate(content, speech, language, clarity, engagement, feedback).details)
    ensures 10.0 <= Aggregate(content, speech, language, clarity, engagement, feedback).overallScore <= 100.0
  {
  }

  /** The external collaborators' output shape: a similarity row per topic,
      each with an entry per sentence. Only needed once there are words. */
  ghost predicate CollaboratorShapes(words: seq<string>, mustSims: seq<seq<real>>, goodSims: seq<seq<real>>)
  {
    words != [] ==>
      |mustSims| == |MustTopics| && WellShaped(mustSims)
      && |goodSims| == |GoodTopics| && WellShaped(goodSims)
  }

  /** The report `analyze_transcript` returns for these collaborator outputs. */
  function Analysis(text: string, words: seq<string>, mustSims: seq<seq<real>>, goodSims: seq<seq<real>>,
                    errorCount: nat, compound: real, durationSec: real): (r: Report)
    requires CollaboratorShapes(words, mustSims, goodSims)
    ensures r.Failure? <==> words == []
    ensures r.Failure? ==> r.error == EmptyTranscriptMessage
    ensures r.Success? ==> InRubricOrder(r.details) && WithinWeights(r.details)
    ensures r.Success? ==> r.overallScore == SumScores(r.details)
    ensures r.Success? ==> 10.0 <= r.overallScore <= 100.0
    ensures r.Success? ==>
              r.details[0].feedback
              == KeywordsFound(|CoveredSet(mustSims, CoverageThreshold)|, |CoveredSet(goodSims, CoverageThreshold)|)
  {
    if words == [] then Failure(EmptyTranscriptMessage)
    else
      var totalWords := |words|;
      var salutation := SalutationScore(text);
      var foundMust := FoundTopics(MustTopics, mustSims, CoverageThreshold);
      var foundGood := FoundTopics(GoodTopics, goodSims, CoverageThreshold);
      var content := ContentWeighted(ContentRaw(salutation, |foundMust|, |foundGood|));
      var wpm := WordsPerMinute(totalWords, durationSec);
      var speech := RateScore(wpm) as real;
      var ttr := TypeTokenRatio(words);
      LanguageBounds(errorCount, words);
      var language := LanguageWeighted(GrammarRaw(ErrorsPer100(errorCount, totalWords)), VocabularyRaw(ttr));
      var fillerRate := FillerRate(FillerCount(words), totalWords);
      var clarity := ClarityRaw(fillerRate) as real;
      var metric := ScoreMetric(compound);
      var engagement := EngagementRaw(metric) as real;
      var feedback := [KeywordsFound(|foundMust|, |foundGood|), Pace(wpm),
                       Wording(ttr, errorCount), Fillers(fillerRate), Positivity(metric)];
      AggregateWithinWeights(content, speech, language, clarity, engagement, feedback);
      Aggregate(content, speech, language, clarity, engagement, feedback)
  }

  /** `analyze_transcript`: the same computation, with `check_coverage` run
      as the loop it is. */
  method AnalyzeTranscript(text: string, words: seq<string>, mustSims: seq<seq<real>>, goodSims: seq<seq<real>>,
                           errorCount: nat, compound: real, durationSec: real) returns (r: Report)
    requires CollaboratorShapes(words, mustSims, goodSims)
    ensures r == Analysis(text, words, mustSims, goodSims, errorCount, compound, durationSec)
  {
    var totalWords := |words|;
    if totalWords == 0 {
      return Failure(EmptyTranscriptMessage);
    }
    var salutation := SalutationScore(text);
    var countMust, foundMust := CheckCoverage(MustTopics, mustSims, CoverageThreshold);
    var countGood, foundGood := CheckCoverage(GoodTopics, goodSims, CoverageThreshold);
    var content := ContentWeighted(ContentRaw(salutation, countMust, countGood));
    var wpm := WordsPerMinute(totalWords, durationSec);
    var speech := RateScore(wpm) as real;
    var grammar := GrammarRaw(ErrorsPer100(errorCount, totalWords));
    var ttr := TypeTokenRatio(words);
    var language := LanguageWeighted(grammar, VocabularyRaw(ttr));
    var fillerRate := FillerRate(FillerCount(words), totalWords);
    var clarity := ClarityRaw(fillerRate) as real;
    var metric := ScoreMetric(compound);
    var engagement := EngagementRaw(metric) as real;
    r := Aggregate(content, speech, language, clarity, engagement,
                   [KeywordsFound(|foundMust|, |foundGood|), Pace(wpm),
                    Wording(ttr, errorCount), Fillers(fillerRate), Positivity(metric)]);
  }

  /** A transcript without words gets the error report and no scores. */
  lemma EmptyTranscriptIsRejected(text: string, mustSims: seq<seq<real>>, goodSims: seq<seq<real>>,
                                  errorCount: nat, compound: real, durationSec: real)
    ensures Analysis(text, [], mustSims, goodSims, errorCount, compound, durationSec)
         == Failure(EmptyTranscriptMessage)
  {
  }

  /** A worked example: 100 words in 52 seconds, 60 of them distinct, 3
      fillers, a strong greeting, 3 mandatory and 1 optional topic found, 5
      grammar errors and a compound sentiment of 0.8. The criteria
      score 40 * 23 / 35, 10, 11, 15 and 15, a total that rounds to 77.3. */
  lemma WorkedExample(text: string, words: seq<string>, mustSims: seq<seq<real>>, goodSims: seq<seq<real>>)
    requires |words| == 100 && |UniqueWords(words)| == 60 && FillerCount(words) == 3
    requires SalutationScore(text) == 4
    requires CollaboratorShapes(words, mustSims, goodSims)
    requires |CoveredSet(mustSims, CoverageThreshold)| == 3 && |CoveredSet(goodSims, CoverageThreshold)| == 1
    ensures Analysis(text, words, mustSims, goodSims, 5, 0.8, 52.0).Success?
    ensures Analysis(text, words, mustSims, goodSims, 5, 0.8, 52.0).details[0].score == 40.0 * 23.0 / 35.0
    ensures Analysis(text, words, mustSims, goodSims, 5, 0.8, 52.0).details[1].score == 10.0
    ensures Analysis(text, words, mustSims, goodSims, 5, 0.8, 52.0).details[2].score == 11.0
    ensures Analysis(text, words, mustSims, goodSims, 5, 0.8, 52.0).details[3].score == 15.0
    ensures Analysis(text, words, mustSims, goodSims, 5, 0.8, 52.0).details[4].score == 15.0
    ensures Analysis(text, words, mustSims, goodSims, 5, 0.8, 52.0).overallScore == 40.0 * 23.0 / 35.0 + 51.0
    ensures 77.25 <= Analysis(text, words, mustSims, goodSims, 5, 0.8, 52.0).overallScore < 77.35
  {
    WorkedExampleReport(text, words, mustSims, goodSims);
  }

  /** The feedback of the worked example. */
  function WorkedExampleFeedback(): (fb: seq<Feedback>)
    ensures |fb| == |CriterionNames|
  {
    [KeywordsFound(3, 1), Pace(WordsPerMinute(100, 52.0)), Wording(0.6, 5),
     Fillers(3.0), Positivity(ScoreMetric(0.8))]
  }

  /** The report of the worked example, as the aggregate of its sub-scores. */
  lemma WorkedExampleReport(text: string, words: seq<string>, mustSims: seq<seq<real>>, goodSims: seq<seq<real>>)
    requires |words| == 100 && |UniqueWords(words)| == 60 && FillerCount(words) == 3
    requires SalutationScore(text) == 4
    requires CollaboratorShapes(words, mustSims, goodSims)
    requires |CoveredSet(mustSims, CoverageThreshold)| == 3 && |CoveredSet(goodSims, CoverageThreshold)| == 1
    ensures Analysis(text, words, mustSims, goodSims, 5, 0.8, 52.0)
         == Aggregate(40.0 * 23.0 / 35.0, 10.0, 11.0, 15.0, 15.0, WorkedExampleFeedback())
  {
    assert TypeTokenRatio(words) == 0.6;
    WorkedExampleScores();
  }

  /** The sub-scores of the worked example, from the figures alone. */
  lemma WorkedExampleScores()
    ensures ContentWeighted(ContentRaw(4, 3, 1)) == 40.0 * 23.0 / 35.0
    ensures RateScore(WordsPerMinute(100, 52.0)) == 10
    ensures LanguageWeighted(GrammarRaw(ErrorsPer100(5, 100)), VocabularyRaw(0.6)) == 11.0
    ensures FillerRate(3, 100) == 3.0 && ClarityRaw(3.0) == 15
    ensures EngagementRaw(ScoreMetric(0.8)) == 15
  {
  }
}
