# Hierarchical-summary evaluation pipeline, modelled in Dafny

This project models the deterministic core of an experiment that compares three
summary formats of news articles:

- a dense summary (`dense`);
- a hierarchical summary, made of a TLDR plus expandable "nuggets" (`hierarchical`);
- a Q&A interface (`qa_interface`).

The evaluation script `src/run_experiment.py` works through the articles one at a
time. For each article it:

- asks a language model for ground-truth question/answer pairs;
- decodes the stored hierarchical and Q&A artifacts, first stripping a Markdown
  ```` ```json ```` fence;
- lets a simulated reader answer the questions from each format's context;
- has a judge model score every answer as 0 or 1;
- asks for a preference ranking of the formats;
- writes all results once, at the end.

The analysis script `src/analyze_results.py` then reads the results back and
computes two things: a column of accuracies per format, and a Borda-style
preference count.

Every language-model call is an oracle (`Orchestrator.Oracle`). It is a record
of functions keyed by the article's position, and by format and question where
those apply. It is also given the material the call is shown. Any sequence of
replies, including the malformed ones, can therefore be represented.

A reply is decoded into `Types.Decoded`, which has three cases:

- `Ok(value)`: the reply decoded and had the expected key;
- `DecodeError`: the reply is not JSON;
- `MissingKey`: the JSON lacks the key.

`json.loads` of the two stored artifact strings is a pair of deterministic
decoders (`Orchestrator.Decoders`).

Modules:

- `Types`: the shared entities (formats, nuggets, Q&A pairs, artifacts, score records, result records).
- `Text`: `sep.join`, `str(n)` for naturals, and string prefixes, with their positional lemmas.
- `JsonCleanup`: `clean_json_string` as a scan. A declarative meaning of the regular expression is proved to agree with it.
- `Prompts`: the reader's context for each format, the numbered question list, and the excerpts shown to the preference ranking.
- `Scoring`: `score_answers`.
- `Orchestrator`: the per-article loop of `main`, as a specification function and as the loop itself.
- `RunProperties`: what a run delivers, stated against the list of per-article outcomes.
- `Analysis`: the accuracy columns and the preference counter of `analyze_results`.

The model follows the code as written:

- Ground-truth generation (`src/run_experiment.py:185`) is outside the `try`. A
  reply that does not decode therefore ends the whole run with no output. It
  does not skip the article.
- Failures at three later points also end the whole run:
  - a simulated reader's reply that does not decode (`src/run_experiment.py:207`);
  - a simulated reader's answer list shorter than the question list (an `IndexError` inside `score_answers`);
  - a preference reply that does not decode (`src/run_experiment.py:213`).
  
  Only the artifact decoding at 192-203 is caught, and that skips the article.
- The fence pattern's group is `\{.*?\}`, which is lazy. The group ends at the
  first `}` that is followed by whitespace and a closing fence, not at the last
  one.

## Model

| member | source | states |
|---|---|---|
| `JsonCleanup.CleanJsonString` | src/run_experiment.py:50-55 | The result is the input unchanged, or a strictly shorter text that starts with `{` and ends with `}`. `CleanMatchesPattern` states which text that is. |
| `JsonCleanup.CleanMatchesPattern` | src/run_experiment.py:50-55 | With no fenced `{…}` span in the input, the input comes back unchanged. Otherwise the result is the group of the match `re.search` reports: the leftmost fence start, then the earliest closing `}` followed by whitespace and a fence. |
| `JsonCleanup.FindFenceFromCorrect` | src/run_experiment.py:52 | The left-to-right scan finds the leftmost, then shortest, match at or after a position, and finds nothing exactly when no match starts there. |
| `JsonCleanup.CleanedIsBraceSlice` | src/run_experiment.py:52-54 | A result taken from a fence is a contiguous substring of the input that starts with `{` and ends with `}`. |
| `JsonCleanup.CleanIdempotent` | src/run_experiment.py:50-55 | Cleaning twice is cleaning once: the extracted group never holds another fenced match. |
| `Text.DecimalRoundTrip` | src/run_experiment.py:102 | The numeral written for a question number reads back as that number. |
| `Prompts.Context` | src/run_experiment.py:83-100 | A dense summary's context is exactly the fixed intro followed by the content verbatim. |
| `Prompts.HierarchicalContext` | src/run_experiment.py:83-91 | This is the hierarchical reader context. Its layout is stated by `HierarchicalOpensWithTldr`, `HierarchicalListsHeadline`, `HierarchicalDetailsHeading`, `HierarchicalDetailsNugget` and `HierarchicalKeepsOrder`. |
| `Prompts.HierarchicalOpensWithTldr` | src/run_experiment.py:85-87 | The hierarchical context shows `TLDR: ` plus the TLDR right after the intro. A missing TLDR reads as empty. |
| `Prompts.HierarchicalListsHeadline` | src/run_experiment.py:86-87 | Every nugget's headline stands as a `- headline` line in the overview, before the details heading. |
| `Prompts.HierarchicalDetailsHeading` | src/run_experiment.py:91 | The details section opens with its heading, after the whole overview. |
| `Prompts.HierarchicalDetailsNugget` | src/run_experiment.py:90-91 | Every nugget stands expanded as `Headline: h\nDetail: d` after the details heading. |
| `Prompts.HierarchicalKeepsOrder` | src/run_experiment.py:86-90 | Headline lines appear in nugget order, and so do detail blocks. |
| `Prompts.MissingKeysDefault` | src/run_experiment.py:85-97 | A missing `tldr`, `nuggets` or `questions_and_answers` key gives the same context as an empty one. |
| `Prompts.QaContext` | src/run_experiment.py:93-97 | This is the Q&A reader context. `QaListsPair` states that it holds every pair in order. |
| `Prompts.QaListsPair` | src/run_experiment.py:96-97 | The Q&A context holds every pair as `Q: …\nA: …`, in order. |
| `Prompts.QuestionText` | src/run_experiment.py:102 | These are the numbered question lines. `QuestionNumbered` states their numbering and content. |
| `Prompts.QuestionNumbered` | src/run_experiment.py:102 | Line `i` of the question text is the numeral `i + 1`, then `. `, then question `i`. |
| `Prompts.PreferenceViewOf` | src/run_experiment.py:154-157 | The ranking sees the first 1000 characters of the article, the first 500 of the dense summary, and the TLDR (empty when missing). |
| `Scoring.Verdict` | src/run_experiment.py:138-142 | A judgment counts 1 exactly when it decodes to `true`. A malformed reply counts 0. |
| `Scoring.Mean` | src/run_experiment.py:145 | The accuracy is 0 for an empty list. Otherwise it is the exact ratio whose product with the length is the sum. |
| `Scoring.MeanInUnitInterval` | src/run_experiment.py:145 | The accuracy of a 0/1 list lies in [0, 1]. |
| `Scoring.JudgedScores` | src/run_experiment.py:125-142 | This is the score list the judging loop builds. `JudgedScoresShape` and `MalformedJudgmentZeroesOnlyItem` state its meaning, and `ScoreAnswers` is proved to compute it. |
| `Scoring.JudgedScoresShape` | src/run_experiment.py:125-142 | There is one score per question, in question order. Each score is 0 or 1, and is 1 exactly when that judgment decoded to `true`. |
| `Scoring.MalformedJudgmentZeroesOnlyItem` | src/run_experiment.py:138-142 | A malformed judgment reply zeroes only its own item. The other questions are judged as before. |
| `Scoring.ScoreAnswers` | src/run_experiment.py:122-146 | The loop builds the judged score list and returns its mean, which lies in [0, 1]. |
| `Orchestrator.Run` | src/run_experiment.py:168-173 | The early exit (`ArtifactsMissing`) happens exactly when the artifacts file is missing. A run that crashes also writes nothing, but ends as `Crashed`. |
| `Orchestrator.DecodeBundle` | src/run_experiment.py:192-203 | This is the guarded decoding of both cleaned artifact strings. `SkipCondition` states that a failure here, and only here, skips the article. |
| `Orchestrator.FormatScore` | src/run_experiment.py:206-209 | This is simulating and scoring one format. `FormatScoreOutcome` states when it raises and what it records otherwise. |
| `Orchestrator.Evaluate` | src/run_experiment.py:181-217 | This is one pass of the loop body. `SkipCondition` and `EvaluatedResultShape` state its outcomes, and `EvaluateArticle` is proved to compute it. |
| `Orchestrator.EvaluateArticle` | src/run_experiment.py:181-217 | The loop body computes the article's outcome specification: evaluated, skipped, or raising. |
| `Orchestrator.RunEvaluation` | src/run_experiment.py:168-223 | The loop over articles computes the run specification. |
| `RunProperties.FirstAbort` | src/run_experiment.py:180-217 | This is the first article whose pass raised, if there is one. |
| `RunProperties.RunCharacterized` | src/run_experiment.py:168-223 | A run crashes at the first article whose pass raised. Otherwise it writes the evaluated articles' results in input order. |
| `RunProperties.SavedIffNoAbort` | src/run_experiment.py:180-221 | The results are written exactly when no article's pass raised. |
| `RunProperties.SkippedArticleDropped` | src/run_experiment.py:192-203 | A skipped article is absent from the results, and the articles after it still contribute theirs. |
| `RunProperties.SkipCondition` | src/run_experiment.py:185-203 | An article is skipped exactly when its ground truth decoded and one of its artifact strings did not. A ground-truth failure aborts instead. |
| `RunProperties.CollectedMembership` | src/run_experiment.py:217 | A result is in the output exactly when some article evaluated to it. |
| `RunProperties.ScoresUpToSpec` | src/run_experiment.py:206-209 | After the format loop, the scores mapping has exactly the formats walked, each scored on its own. |
| `RunProperties.FormatScoreOutcome` | src/run_experiment.py:119-133 | Scoring a format raises `JSONDecodeError` exactly on a non-JSON reply, and `KeyError` exactly on a reply without `answers`. It raises `IndexError` exactly when the answer list is shorter than the questions. Otherwise its record is the judged scores and their mean. |
| `RunProperties.EvaluatedResultShape` | src/run_experiment.py:185-217 | A stored result has the article's id and scores for exactly the three formats. All are scored against the question list of the one ground-truth call. The ranking is stored exactly as returned. |
| `RunProperties.ResultScoresWellFormed` | src/run_experiment.py:206-209 | Each format's score list has one 0/1 entry per ground-truth question, and its accuracy lies in [0, 1]. |
| `Analysis.CollectAccuracies` | src/analyze_results.py:21-29 | The nested loop yields, per format, the accuracies of every record in record order. A record missing a format raises `KeyError`. |
| `Analysis.Accuracies` | src/analyze_results.py:21-29 | These are the accuracy columns, or the `KeyError`. `AccuraciesAligned` states their alignment and failure condition, and `CollectAccuracies` is proved to compute them. |
| `Analysis.AccuraciesAligned` | src/analyze_results.py:27-29 | Each column has one entry per record, and entry `i` comes from record `i`. Collection fails exactly when some record lacks a format. |
| `Analysis.SavedResultsAnalyzable` | src/analyze_results.py:21-29 | On the records a completed run writes, the collection never fails, and every accuracy lies in [0, 1]. |
| `Analysis.LetterMethod` | src/analyze_results.py:46-47 | `A`, `B` and `C` map to dense, hierarchical and Q&A; nothing else maps. |
| `Analysis.TallyPreferences` | src/analyze_results.py:40-50 | The loop computes the counter specification. |
| `Analysis.Tally` | src/analyze_results.py:40-50 | This is the preference counter. `TallyIsPoints` states it as per-method point sums, and `TallyPreferences` is proved to compute it. |
| `Analysis.CountPrefixPoints` | src/analyze_results.py:44-50 | A ranking adds `3 - i` for every position `i` that names a method. A key is created exactly for the methods it names. |
| `Analysis.TallyIsPoints` | src/analyze_results.py:40-50 | Each method's count is the sum of its points over all records. It has a key exactly when some ranking names it. |
| `Analysis.FullRankingPoints` | src/analyze_results.py:40-50 | A ranking of the three distinct letters gives 3, 2 and 1 points to the methods it lists first, second and third: 6 in all. |
| `Analysis.UnknownEntryShifts` | src/analyze_results.py:44-50 | An unmapped entry adds nothing but takes its position, so every later mention earns one point less. |
| `Analysis.LateEntriesNoGain` | src/analyze_results.py:49-50 | Positions from the fourth on add 0 or negative points. |
| `Analysis.NoPreferenceNoPoints` | src/analyze_results.py:43 | A record without a preference, or with an empty one, leaves the counter unchanged. |

## Left out

- The OpenAI client, `get_completion` and its retry policy (src/run_experiment.py:24-48) are remote calls. They are replaced by the oracle's replies.
- The oracle always replies. A call that still fails after the retries (a `RetryError`) is not modelled. In the code that exception escapes `main` from every call site, including the judgment call at src/run_experiment.py:137, which sits outside the `try` at 138-142. A failed judgment call therefore crashes the run rather than scoring 0.
- `Prompts.Context`: the artifact's kind is a datatype variant, not a name string. The code's fall-through branch for names other than "hierarchical" and "qa_interface" is not modelled, because `main` only ever passes the three fixed keys (src/run_experiment.py:193-197).
- The oracle is a function, so two calls with the same key and material give the same reply. A run is still free to get any combination of replies for different articles, formats and questions.
- `json.loads` is abstracted as the decode result. Decoded values have the expected shapes: every nugget has a headline and a detail, every pair a question and an answer. A JSON value of the wrong type (say, a non-boolean `is_correct` or a non-string ranking entry) is not modelled.
- The `time.sleep(1)` pacing is timing only and is not modelled.
- Prompt wording around the modelled pieces, printed output, the environment-variable check, and all file reads and writes are not modelled. The final write is the returned `Saved` list.
- `JsonCleanup.CleanJsonString`: `\s` is modelled as six characters: space, tab, line feed, vertical tab, form feed and carriage return. Python's `\s` also matches the ASCII separators U+001C to U+001F, and the Unicode whitespace characters such as U+0085, U+00A0 and U+2028.
- `Scoring.ScoreAnswers`: it requires answer lists at least as long as the question list. The `IndexError` for a shorter simulated-answer list is modelled by its caller, `Orchestrator.FormatScore`.
- numpy's mean and standard deviation, scipy's paired t-test, the summary text, `Counter.most_common` ordering and the plots (src/analyze_results.py:31-37, 52-87) are floating-point and library numerics, and are not modelled.
- src/prepare_data.py is not part of this model. It is a dataset download and a file write.
