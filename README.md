# Rubric scorer model

A Dafny model of the rubric-scoring engine `RubricScorer.analyze_transcript`
in `scorer.py`. The engine takes a spoken-introduction transcript and its
duration. It returns either the error result for a transcript without words,
or an overall score with five sub-scores in a fixed order. The five criteria
are Content & Structure (40), Speech Rate (10), Language (20), Clarity (15)
and Engagement (15).

The model has one module per part of the engine:

- `Text` (`text.dfy`): ASCII lower-casing, Python's `s[:n]`, and
  Python's substring test `needle in hay`. The substring test is proved equal
  to the reference definition "some position where the needle occurs".
- `Ratio` (`ratio.dfy`): the bound on a part of a whole, shared by the
  type-token ratio and the filler rate.
- `Rubric` (`rubric.dfy`): the constants. These are the filler words, the
  strong and weak greetings, the 50-character window, the two topic lists,
  the 0.35 threshold, the criterion names and their weights.
- `Coverage` (`coverage.dfy`): `check_coverage`. It is a method with a loop
  over the topics, proved against the specification function `FoundTopics`.
- `Content` (`content.dfy`): the salutation tier, the keyword score, the
  flow bonus and the capped content score.
- `SpeechRate`, `Language`, `Clarity`, `Engagement`: the banding functions.
- `Scorer` (`scorer.dfy`): `Analysis`, the whole computation as a function,
  and `AnalyzeTranscript`, the same computation as a method that runs the
  coverage loop. The method is proved to return what `Analysis` returns.
  `Aggregate` builds the fixed-order report.

Each external collaborator is replaced by the one value the engine reads
from it:

- the NLTK word tokens become `words`;
- the sentence embeddings and `util.cos_sim` become one similarity matrix
  per topic list, with a non-empty row per topic;
- LanguageTool's match list becomes `errorCount`;
- VADER's polarity scores become `compound`.

All quantities are exact `real`s.

The code's quirks are kept as written:

- The speech-rate and clarity bands are inclusive comparisons on an
  unrounded value, with gaps between them. So a rate of 110.5 words per
  minute scores 2 while 111 scores 10, and a filler rate of 3.5% scores 3
  while 4% scores 12. The vocabulary and engagement bands are half-open
  (`lo <= x < hi`) and leave no gaps.
- The content score is capped at 35 raw points, although 39 can be reached.
- A greeting is rewarded twice: once as the salutation score and again as
  the flow bonus.

Two expectations that the code does not meet:

- A duration of zero or less is not rejected. The code gives 0 words per
  minute and so a speech score of 2 (`NoDurationScoresLowest`).
- The speech score is not a non-increasing function of the distance from
  125 words per minute. At 110.5 it is 2, and at 140, further away, it is 10
  (`RateNotCentredOn125`).

The model follows the code.

## Model

| member | source | states |
|---|---|---|
| `Text.LowerChar` | scorer.py:47 | an upper-case ASCII letter becomes the lower-case letter at the same place in the alphabet; every other character is unchanged |
| `Text.Lower` | scorer.py:47 | lower-casing keeps the length and leaves no upper-case letter |
| `Text.LowerPrefix` | scorer.py:47-49 | taking the first n characters of the lower-cased text equals lower-casing its first n characters |
| `Text.Prefix` | scorer.py:49 | `s[:n]` has length min(len(s), n) and is a prefix of s |
| `Text.Contains` | scorer.py:49-51 | `needle in hay` fails when the needle is longer than the haystack, and holds when the needle is a prefix of it |
| `Text.ContainsIsSubstring` | scorer.py:49-51 | Python's `needle in hay` holds exactly when the needle occurs at some position of the haystack |
| `Content.SalutationWindow` | scorer.py:47-49 | the searched window has at most 50 characters and is the lower-cased first 50 characters |
| `Content.AnyPhraseIn` | scorer.py:49-51 | `any(s in window for s in phrases)` holds exactly when some phrase of the list is a substring of the window |
| `Content.SalutationScore` | scorer.py:48-52 | the salutation score is 0, 2 or 4 |
| `Content.SalutationTiers` | scorer.py:48-52 | the score is 4 iff a strong greeting is a substring of the window; it is 2 iff none is and a weak one is; otherwise it is 0 |
| `Content.SalutationIgnoresTail` | scorer.py:49-51 | text after the first 50 characters never changes the salutation score |
| `Content.SubstringNotWord` | scorer.py:51 | matching is by substring: "Chief" counts as the weak greeting "hi" |
| `Coverage.RowMax` | scorer.py:68 | the row maximum is at least every entry and equals one of them |
| `Coverage.TopicFound` | scorer.py:68-69 | a topic is found iff some sentence's similarity is strictly above the threshold |
| `Coverage.CoveredIndices` | scorer.py:67-71 | the found positions are increasing, in range, and are exactly the rows whose maximum is above the threshold |
| `Coverage.CoveredCount` | scorer.py:67-70 | the number of found positions equals the number of topics above the threshold |
| `Coverage.FoundTopics` | scorer.py:63-71 | the found list is as long as the number of topics above the threshold |
| `Coverage.FoundInOrder` | scorer.py:67-71 | the found list is a subsequence of the topics in their original order, picked at exactly the found positions, and no longer than the topic list |
| `Coverage.CheckCoverage` | scorer.py:61-72 | the loop returns the found list, a count equal to its length and to the number of topics above the threshold, and at most the number of topics |
| `Content.KeywordScore` | scorer.py:77 | the keyword score is at most 30, and exactly 30 iff at least five topics of each kind are found |
| `Content.FlowScore` | scorer.py:78 | the flow bonus is 5 exactly when the salutation score is positive, else 0 |
| `Content.ContentRaw` | scorer.py:80 | with a salutation of at most 4, the raw content score is at most 39 |
| `Content.ContentWeighted` | scorer.py:81 | the weighted content score lies in [0, 40], is 40 whenever the raw score is at least 35, and is below 40 otherwise |
| `Content.ContentMonotone` | scorer.py:77-81 | finding more mandatory or optional topics never lowers the content score |
| `Content.SalutationCountedTwice` | scorer.py:78-80 | a strong greeting adds 9 raw points and a weak one 7, because the flow bonus repeats the salutation reward |
| `Content.ContentCapDiscount` | scorer.py:80-81 | the best raw total is 39, but 35 raw points already give the full 40 |
| `SpeechRate.WordsPerMinute` | scorer.py:84 | the rate is non-negative, 0 when the duration is not positive, and otherwise rate times duration equals 60 times the word count |
| `SpeechRate.RateScore` | scorer.py:85-91 | the speech score is 2, 6 or 10; it is 10 iff 111 <= wpm <= 140, and 6 iff wpm is in [141, 160] or [81, 110] |
| `SpeechRate.NoDurationScoresLowest` | scorer.py:84-89 | a non-positive duration gives the speech score 2 |
| `SpeechRate.RateBandGaps` | scorer.py:86-89 | 110.5 scores 2 while 111 scores 10; 140.5 scores 2 while 141 scores 6 |
| `SpeechRate.RateNotCentredOn125` | scorer.py:86-89 | a rate closer to 125 (110.5) can score lower than one further away (140) |
| `Language.ErrorsPer100` | scorer.py:97 | the error density is non-negative, and density times word count equals 100 times the error count |
| `Language.GrammarRaw` | scorer.py:98 | the grammar score lies in [0, 10], is 0 at ten or more errors per 100 words, and is 10 minus the density below that |
| `Language.GrammarNonIncreasing` | scorer.py:98 | more errors per 100 words never raise the grammar score |
| `Language.UniqueWords` | scorer.py:101 | the set holds the lower-cased form of every word and nothing else |
| `Language.UniqueWordsBounds` | scorer.py:101 | a non-empty word list has between 1 and as many distinct lower-cased words as words |
| `Language.TypeTokenRatio` | scorer.py:101-102 | the type-token ratio lies in (0, 1] |
| `Language.VocabularyRaw` | scorer.py:103-108 | the vocabulary score is 10 iff the ratio is at least 0.9, 8 iff it is in [0.7, 0.9), 6 iff in [0.5, 0.7), 4 iff in [0.3, 0.5), and 2 iff it is below 0.3 |
| `Language.VocabularyMonotone` | scorer.py:103-108 | a higher type-token ratio never gives a lower vocabulary score |
| `Language.LanguageWeighted` | scorer.py:110 | the normalisation `/ 20 * 20` leaves the sum of grammar and vocabulary unchanged |
| `Language.LanguageBounds` | scorer.py:97-110 | for any error count and any non-empty word list, the language score lies in [2, 20] |
| `Clarity.FillerWordsAreLowerCase` | scorer.py:33 | every filler word is already lower case, so comparing `w.lower()` with them matches regardless of case |
| `Clarity.IsFiller` | scorer.py:113 | a word is a filler exactly when it equals some filler word up to the case of ASCII letters |
| `Clarity.FillerCount` | scorer.py:113 | the filler count is at most the word count; it is 0 iff no word is a filler, and equals the word count iff every word is |
| `Clarity.FillerRate` | scorer.py:114 | the filler rate lies in [0, 100], and rate times word count equals 100 times the filler count |
| `Clarity.ClarityRaw` | scorer.py:115-122 | the clarity score is one of 3, 6, 9, 12, 15, and each of 15, 12, 9, 6 is given exactly on its inclusive band |
| `Clarity.ClarityNotMonotone` | scorer.py:116-120 | 3% scores 15, 3.5% scores 3 and 4% scores 12, so the score is not monotone in the rate |
| `Clarity.NoFillersFullClarity` | scorer.py:113-120 | a transcript without fillers gets the full 15 for clarity |
| `Engagement.ScoreMetric` | scorer.py:127 | a compound score in [-1, 1] maps into [0, 1], and the map is inverted by 2m - 1 |
| `Engagement.EngagementRaw` | scorer.py:129-136 | the engagement score is 15 iff the metric is at least 0.9, 12 iff it is in [0.7, 0.9), 9 iff in [0.5, 0.7), 6 iff in [0.3, 0.5), and 3 iff it is below 0.3 |
| `Engagement.EngagementMonotone` | scorer.py:129-134 | a higher metric never gives a lower engagement score |
| `Scorer.Aggregate` | scorer.py:139-149 | the report lists the five criteria in the order Content & Structure, Speech Rate, Language, Clarity, Engagement, each with its own score and feedback, and the overall score is their sum |
| `Scorer.Analysis` | scorer.py:37-150 | the result is the error "Empty transcript" iff there are no words; otherwise the criteria come in rubric order, each within [0, its weight], the overall score is their sum and lies in [10, 100], and the keyword feedback reports the numbers of topics above the threshold |
| `Scorer.AnalyzeTranscript` | scorer.py:37-150 | running the coverage loops gives exactly the report `Analysis` specifies |
| `Scorer.EmptyTranscriptIsRejected` | scorer.py:42-44 | without words the result is the error report, whatever the other inputs |
| `Scorer.WorkedExample` | scorer.py:42-148 | for any transcript of 100 words, 60 of them distinct, with 3 fillers, a strong greeting, 3 mandatory and 1 optional topic found, 5 grammar errors, compound 0.8 and 52 seconds, `Analysis` succeeds with the scores 40 * 23 / 35, 10, 11, 15 and 15, and an overall score of 40 * 23 / 35 + 51, which rounds to 77.3 |
| `Scorer.WorkedExampleReport` | scorer.py:42-148 | in the same example the whole report is the aggregate of those five scores, with feedback reporting 3 and 1 topics found, the rate for 100 words in 52 seconds, a type-token ratio of 0.6 with 5 errors, a filler rate of 3% and a metric of 0.9 |

## Left out

- NLTK data download and collaborator construction in `__init__`
  (scorer.py:10-30). These are I/O and process start-up. The constants set
  there are the module `Rubric`.
- `word_tokenize`, `sent_tokenize`, `SentenceTransformer.encode`,
  `util.cos_sim`, `LanguageTool.check` and VADER's `polarity_scores`. These
  are foreign libraries. Their outputs are parameters.
- The shape of the similarity matrices. `Analysis` requires a non-empty row
  per topic once there are words. The source would raise on an empty row,
  which the tokenizer never yields for a transcript with words.
- A collaborator failing mid-request. Python propagates the exception; the
  model has no such path.
- `round(..., 1)` on the scores and the f-string feedback (scorer.py:142-148).
  These are float rounding and string rendering. Scores are kept unrounded,
  and each feedback is a `Feedback` value carrying the unrounded numbers it
  would print.
- IEEE floating point. All arithmetic is exact `real` arithmetic.
- Text.Lower: lower-cases ASCII letters only. Python's `str.lower` also maps
  other Unicode letters and can change a string's length.
- The Streamlit front end, `app.py`. It only calls `analyze_transcript` once.
