# LLM evaluation matrix, modelled in Dafny

This project models the core of an LLM evaluation workbench. A user uploads a
JSONL dataset of prompts and reference answers, registers OpenAI-compatible
models, and starts a run. The run sends every dataset item to every selected
model, at most `maxConcurrency` requests per model at a time. It scores each
reply with the selected metrics and records one result per reply in the run.
A results page then averages the scores per model. A small Python backend
stores datasets, models, runs and results.

The model has these modules:

- `Types`: the shared records (models, datasets, runs, results, metric kinds);
- `Text`: the ASCII string primitives the code relies on (`trim`, `split`, `\s+`, `\w`, `includes`, `replace`);
- `Ratios`: exact-real ratio and F1 arithmetic;
- `Scoring`: the metric calculators and the `calculateScores` dispatcher;
- `Executor`: the bounded `ParallelExecutor` as a class-based state machine;
- `Runner`: `startEvaluation`, played as a sequential simulation over one `ParallelExecutor` per model, plus the toggles;
- `Store`: the application store's list transforms and `t`;
- `Results`: per-model aggregation and the radar-chart rows;
- `Datasets`: the JSONL upload filter, normalisation and dataset name;
- `ModelForm`: the add-model form, the preset switch and the model-list guard;
- `Backend`: the run, result, dataset and model handlers of the FastAPI server, over a `Database` class holding the tables.

Ratios are exact `real`s. JSON parsing, uuids, clocks, model completions and
the user's custom-metric code are parameters of the model ("oracles").

## Model

| member | source | states |
|---|---|---|
| Types.FindModel | pages/EvaluationRunner.tsx:76 | `models.find` by id: a hit is a member with that id, and a miss means no member has it |
| Types.FindDataset | pages/EvaluationRunner.tsx:38 | `datasets.find` by id: a hit is a member with that id, and a miss means no member has it |
| Text.TrimIgnoresPadding | services/scoring.ts:66 | `trim()` ignores any whitespace added on either side |
| Text.TrimEmptyIff | services/scoring.ts:66 | a string trims to "" exactly when it is all whitespace |
| Text.TrimIdempotent | pages/Models.tsx:44 | trimming twice is trimming once |
| Text.TrimParts | services/scoring.ts:66 | a string is leading whitespace, then its trim, then trailing whitespace; the trim neither starts nor ends with whitespace |
| Text.JoinSplit | services/scoring.ts:86 | `split(' ')` loses nothing: joining the parts with the separator gives back the string |
| Text.SplitJoin | services/scoring.ts:86 | splitting the join of separator-free parts gives back the parts |
| Text.SplitWsKeepsText | services/scoring.ts:27-28 | the tokens of `split(/\s+/)`, concatenated, are the string with its whitespace removed |
| Text.SplitWsInnerTokens | services/scoring.ts:27-28 | `split(/\s+/)` keeps empty tokens only at the two ends |
| Text.StripNonWord | services/scoring.ts:10-11 | `replace(/[^\w\s]/g, '')` keeps exactly the word and space characters |
| Text.StripNonWordConcat | services/scoring.ts:10-11 | the strip keeps order: it distributes over concatenation |
| Text.StripNonWordKeeps | services/scoring.ts:10-11 | a string of word and space characters only is kept whole |
| Text.Utf16Length | services/scoring.ts:79 | `output.length` counts UTF-16 code units: at least the characters, at most twice them, and exactly them when none lies outside the Basic Multilingual Plane |
| Text.Utf16LengthConcat | services/scoring.ts:79 | the code-unit count adds up over concatenation |
| Text.Utf16LengthEmoji | services/scoring.ts:79 | an emoji is one character and two code units |
| Text.ToLower | services/scoring.ts:10-11 | `toLowerCase` maps each ASCII capital to its small letter and keeps the length |
| Text.NonEmpty | services/scoring.ts:10-11 | `filter(Boolean)` keeps exactly the non-empty tokens |
| Text.ContainsIff | services/scoring.ts:87 | `includes(k)` holds exactly when `k` occurs at some position |
| Text.IndexOf | pages/Datasets.tsx:44 | the first position where the pattern occurs, or none when it occurs nowhere |
| Text.ReplaceAllChar | backend/main_db.py:298 | Python `replace('Z', '+00:00')` leaves no 'Z' behind and changes nothing without one |
| Ratios.RatioBounds | services/scoring.ts:21 | a count over a larger total lies in [0, 1] |
| Ratios.F1Bounds | services/scoring.ts:47-50 | the F1 of two values in [0, 1] lies in [0, 1] |
| Ratios.F1Symmetric | services/scoring.ts:47-50 | F1 does not depend on the order of precision and recall |
| Ratios.F1RatiosZeroIff | services/scoring.ts:47-50 | the F1 of `lcs/(m\|\|1)` and `lcs/(n\|\|1)` is 0 exactly when `lcs` is 0 |
| Scoring.CountIfAll | services/scoring.ts:87-88 | a filter keeps every element exactly when all satisfy the predicate |
| Scoring.CountIfNone | services/scoring.ts:87-88 | a filter keeps nothing exactly when no element satisfies the predicate |
| Scoring.ExactMatchIgnoresPadding | services/scoring.ts:66 | whitespace around the output never changes the exact-match verdict |
| Scoring.ExactMatchWithoutReference | services/scoring.ts:66 | with no reference, the output matches exactly when it is all whitespace |
| Scoring.KeywordScore | services/scoring.ts:82-90 | the keyword score lies in [0, 1] |
| Scoring.CountFound | services/scoring.ts:87-88 | all keywords counted exactly when all occur in the output, and none exactly when none occurs |
| Scoring.KeywordScoreFull | services/scoring.ts:83-88 | the score is 1 exactly when every space-separated keyword occurs in the output |
| Scoring.KeywordScoreNone | services/scoring.ts:83-88 | the score is 0 exactly when no keyword occurs in the output |
| Scoring.KeywordScoreSelf | services/scoring.ts:86-88 | a non-empty reference scores 1 against itself |
| Scoring.JoinContainsParts | services/scoring.ts:86-87 | every part of a join occurs in it |
| Scoring.BleuScore | services/scoring.ts:8-22 | BLEU lies in [0, 1]; it is 0 when either text is empty or the output has no token |
| Scoring.CalculateBleu | services/scoring.ts:8-22 | the counting loop returns the share of output tokens found among the reference tokens, with no clipping |
| Scoring.BleuFull | services/scoring.ts:15-21 | BLEU is 1 exactly when every output token is a reference token |
| Scoring.BleuSelf | services/scoring.ts:8-22 | an output with tokens scores 1 against itself |
| Scoring.RougeTokens | services/scoring.ts:27-28 | `split(/\s+/)` always yields at least one token, so `m` and `n` are positive |
| Scoring.Lcs | services/scoring.ts:33-45 | the LCS length is at most the length of either token list |
| Scoring.CommonSubseq | services/scoring.ts:33-45 | some common subsequence of both lists has length `Lcs` |
| Scoring.LcsOptimal | services/scoring.ts:33-45 | no common subsequence is longer than `Lcs`, so `Lcs` is the longest |
| Scoring.LcsSymmetric | services/scoring.ts:33-45 | the LCS length does not depend on the argument order |
| Scoring.LcsSelf | services/scoring.ts:33-45 | a list's LCS with itself is its length |
| Scoring.LcsZeroIff | services/scoring.ts:33-45 | the LCS is 0 exactly when the lists share no token |
| Scoring.LcsPrefixStep | services/scoring.ts:37-41 | the table recurrence holds for the LCS of prefixes: diagonal plus one on equal tokens, otherwise the larger neighbour |
| Scoring.LcsTable | services/scoring.ts:33-45 | the nested loops over the `(m+1)×(n+1)` array leave `dp[m][n]` equal to the LCS of the two token lists |
| Scoring.RougeScore | services/scoring.ts:25-51 | ROUGE-L lies in [0, 1] |
| Scoring.CalculateRougeL | services/scoring.ts:25-51 | the method computes ROUGE-L through the table: the F1 of `lcs/m` and `lcs/n`, and 0 for an empty text or when P+R is 0 |
| Scoring.RougeSymmetric | services/scoring.ts:25-51 | ROUGE-L of (output, reference) equals ROUGE-L of (reference, output) |
| Scoring.RougeIdentical | services/scoring.ts:25-50 | non-empty texts with identical token lists score 1 |
| Scoring.RougeZeroIff | services/scoring.ts:45-50 | non-empty texts score 0 exactly when they share no token |
| Scoring.FirstDigit | services/scoring.ts:131 | the position of the first digit, and none when the reply has no digit |
| Scoring.DigitRun | services/scoring.ts:131 | the length of the maximal digit run at the front |
| Scoring.MatchDigits | services/scoring.ts:131 | `match(/\d+/)` yields a non-empty run of digits, or nothing |
| Scoring.ParseJudgeReply | services/scoring.ts:131 | a reply without a digit scores 0 |
| Scoring.ShowNat | services/scoring.ts:131 | a decimal rendering is a non-empty run of digits |
| Scoring.DecimalShowNat | services/scoring.ts:131 | `parseInt` reads a decimal rendering back as the number |
| Scoring.ParseJudgeReplyReads | services/scoring.ts:131 | a reply whose first digit run spells `n` scores `n`, whatever text comes before (without digits) or after it |
| Scoring.ExactMatchVerdict | services/scoring.ts:65-67 | exact match scores a boolean verdict, not a number |
| Scoring.RatioMetricsBounded | services/scoring.ts:69-98 | JSON validity, keyword hits, BLEU and ROUGE-L score a number between 0 and 1 |
| Scoring.LengthWhole | services/scoring.ts:78-80 | LENGTH scores a whole number between the output's character count and twice it |
| Scoring.ReplyScore | services/scoring.ts:131-132 | the judge's reply scores the non-negative whole number its first digit run spells |
| Scoring.JudgeScore | services/scoring.ts:118-139 | the judge scores a non-negative whole number, and 0 when no judge model is configured |
| Scoring.ScoreMetric | services/scoring.ts:64-140 | the score of one metric is exactly the `switch` case for that metric; the BLEU and ROUGE-L cases run their loop methods |
| Scoring.CalculateScores | services/scoring.ts:53-143 | the result's keys are exactly the selected metrics, and each key holds its own metric's score |
| Executor.ParallelExecutor.constructor | services/parallelExecutor.ts:19-21 | a new executor has the given limit, an empty queue and nothing running |
| Executor.ParallelExecutor.Default | services/parallelExecutor.ts:19 | the default limit is 16 |
| Executor.ParallelExecutor.ProcessQueue | services/parallelExecutor.ts:30-36 | starts the queue's front task exactly when fewer than the limit run and the queue is non-empty, and otherwise changes nothing |
| Executor.ParallelExecutor.Execute | services/parallelExecutor.ts:23-36 | Submit pushes a task at the back and then dispatches once. It keeps the cap, conservation (submitted = started then queued) and FIFO start order, and it queues only while saturated |
| Executor.ParallelExecutor.Finish | services/parallelExecutor.ts:43-47 | a settling task frees its slot, and the front of the queue starts in its place when there is one |
| Executor.ParallelExecutor.GetActiveCount | services/parallelExecutor.ts:50-52 | the counter equals the running tasks: started minus settled |
| Executor.ParallelExecutor.GetQueueSize | services/parallelExecutor.ts:54-56 | the queue length equals submitted minus started |
| Executor.ParallelExecutor.Saturated | services/parallelExecutor.ts:31 | with a limit of at least 1, a non-empty queue means the executor is saturated |
| Runner.Without | pages/EvaluationRunner.tsx:27 | `filter(x => x !== id)` keeps exactly the other elements |
| Runner.WithoutAbsent | pages/EvaluationRunner.tsx:27 | removing an absent element changes nothing |
| Runner.WithoutNoDup | pages/EvaluationRunner.tsx:27 | removal keeps a duplicate-free list duplicate-free |
| Runner.Toggle | pages/EvaluationRunner.tsx:25-35 | toggling flips the membership of the id and keeps every other element; an absent id is appended |
| Runner.ToggleTwiceAbsent | pages/EvaluationRunner.tsx:25-35 | toggling an absent id twice restores the list |
| Runner.ToggleTwicePresent | pages/EvaluationRunner.tsx:25-35 | toggling a present id twice moves it to the end |
| Runner.ToggleNoDup | pages/EvaluationRunner.tsx:25-35 | toggling keeps a selection duplicate-free |
| Runner.CheckStart | pages/EvaluationRunner.tsx:38-42 | no run starts exactly when the dataset is not found, or no model or no metric is selected |
| Runner.NewRun | pages/EvaluationRunner.tsx:44-63 | the new run is `running` with progress 0 and no results. Its total is items × selected model ids. Its snapshot has a fresh id and holds the selected dataset, models and metrics, the system prompt, the judge model id and the custom metric code |
| Runner.ConcurrencyLimit | pages/EvaluationRunner.tsx:78 | `maxConcurrency \|\| 16`: 16 when the limit is absent or 0, and the limit itself otherwise |
| Runner.LimitAdmits | pages/EvaluationRunner.tsx:78 | an executor admits tasks exactly when the model's limit is absent or non-negative |
| Runner.TaskMatrix | pages/EvaluationRunner.tsx:85-90 | task `k` is the `k`-th (item, model id) pair, in item-major order, whose model resolves |
| Runner.MatrixSize | pages/EvaluationRunner.tsx:85-90 | the matrix has items × resolved model ids tasks |
| Runner.MatrixMatchesTotal | pages/EvaluationRunner.tsx:61-90 | the number of tasks never exceeds the run's total. It equals the total exactly when the dataset is empty or every selected id resolves |
| Runner.InputText | pages/EvaluationRunner.tsx:95-115 | a string input is used verbatim, and any other input is JSON-stringified |
| Runner.Scores | pages/EvaluationRunner.tsx:103-110 | a task's scores come from `calculateScores` over exactly the selected metrics |
| Runner.ScoredResult | pages/EvaluationRunner.tsx:112-120 | a successful task's result holds the item, the model, the input text, the completion, its latency and the scores |
| Runner.ErrorResult | pages/EvaluationRunner.tsx:135-143 | a failed task's result has output `"[ERROR]: " + message`, latency 0 and a 0 for every selected metric |
| Runner.OutcomeOf | pages/EvaluationRunner.tsx:92-153 | every settled task adds one entry for its item and model: the scored completion when the body ran to its end, otherwise the error entry of the thrown message, also when the `catch` block's own `updateRun` throws |
| Runner.Outcomes | pages/EvaluationRunner.tsx:123-146 | the settled tasks add exactly one entry each |
| Runner.OutcomesAt | pages/EvaluationRunner.tsx:123-146 | the `k`-th entry is the `k`-th settled task's |
| Runner.SubmitWaits | services/parallelExecutor.ts:25 | submitting to an executor adds exactly that task to the tasks it holds |
| Runner.FinishWaits | services/parallelExecutor.ts:43-46 | settling removes exactly that task from the tasks the executor holds |
| Runner.PlacedAfterSubmit | pages/EvaluationRunner.tsx:156 | after each submission, every task built so far waits in, or runs on, its model's executor |
| Runner.PlacedAfterFinish | pages/EvaluationRunner.tsx:156 | a task that settles is a built task that had not settled, and the others stay placed |
| Runner.MakeExecutors | pages/EvaluationRunner.tsx:74-80 | every selected model that resolves gets its own fresh, idle executor with limit `maxConcurrency \|\| 16` |
| Runner.SubmitAll | pages/EvaluationRunner.tsx:83-158 | the nested loops submit exactly the matrix of tasks, each task to its model's executor |
| Runner.RunTask | pages/EvaluationRunner.tsx:92-153 | one task body produces its entry, and its promise rejects exactly when the `catch` block's `updateRun` throws |
| Runner.RecordResult | pages/EvaluationRunner.tsx:123-151 | each progress update leaves the run with one more result, and with progress equal to the number of results |
| Runner.RecordFailure | pages/EvaluationRunner.tsx:164-166 | the rejected `Promise.all` marks the run failed |
| Runner.RecordCompletion | pages/EvaluationRunner.tsx:162-163 | the resolved `Promise.all` marks the run completed |
| Runner.LedgerStep | pages/EvaluationRunner.tsx:123-151 | one settled task appends its entry, and marks the run failed when its promise rejected |
| Runner.Stuck | services/parallelExecutor.ts:31-46 | when nothing runs, every task has settled exactly when every queue is empty |
| Runner.Step | pages/EvaluationRunner.tsx:123-151 | settling a running task records its outcome in the run, frees its slot and starts the next queued task |
| Runner.Drain | pages/EvaluationRunner.tsx:156-167 | tasks settle in any order until nothing runs. Each task settles at most once, and it settles exactly when its executor admits tasks. The results are the settled tasks' outcomes and the failure flag says whether one escaped |
| Runner.Conclude | pages/EvaluationRunner.tsx:161-167 | the run ends failed, completed, or still running when tasks never started |
| Runner.UpdatePrepended | context/AppContext.tsx:116-126 | updating the just-added run keeps it first, with its id, snapshot and total, and leaves every run with another id unchanged one place further on |
| Runner.Evaluate | pages/EvaluationRunner.tsx:44-167 | with a dataset and selections, the new run is prepended and keeps its id, snapshot and total. Its tasks are the matrix, each admitted task settles once, and the final record follows from the outcomes |
| Runner.StartEvaluation | pages/EvaluationRunner.tsx:37-167 | no change and no tasks without a dataset, a model and a metric. Otherwise the list grows by the new run, first, with its id, snapshot and total items × ids; other runs are unchanged. Its tasks are the matrix, each admitted task settles once, and the final record follows from the outcomes |
| Runner.FinalRunStatus | pages/EvaluationRunner.tsx:123-167 | the finished run is first in the list, with total items × ids, results the outcomes, and progress their count. It is failed exactly when a failure escaped, completed exactly when no failure escaped and every task was admitted, and running otherwise |
| Runner.FinalRunProgress | pages/EvaluationRunner.tsx:61-167 | progress never passes the total. A completed run reaches its total exactly when every selected model still exists, or the dataset is empty |
| Runner.SettledCount | pages/EvaluationRunner.tsx:156-162 | the settled tasks are at most the tasks, and as many exactly when every task settled |
| Store.Prepend | context/AppContext.tsx:85-117 | `[x, ...prev]` puts the new element first and the old list unchanged behind it |
| Store.AddModelFound | context/AppContext.tsx:98 | an added model is found by its id |
| Store.AddModelOthers | context/AppContext.tsx:98 | adding a model does not change the lookup of any other id |
| Store.AddDatasetFound | context/AppContext.tsx:86 | an added dataset is found by its id |
| Store.AddRunFound | context/AppContext.tsx:117 | an added run is found by its id |
| Store.RemoveModel | context/AppContext.tsx:107 | removal keeps exactly the models with another id |
| Store.RemoveModelConcat | context/AppContext.tsx:107 | removal works element by element, so the original order is kept |
| Store.RemoveModelAbsent | context/AppContext.tsx:107 | removing an absent id changes nothing |
| Store.RemoveModelIdempotent | context/AppContext.tsx:107 | removing twice is removing once |
| Store.RemoveModelOthers | context/AppContext.tsx:107 | removal does not change the lookup of any other id |
| Store.MergeRun | context/AppContext.tsx:126 | `{ ...r, ...updates }`: a field present in the update takes the update's value, and every other field keeps its value |
| Store.MergeRunNoChanges | context/AppContext.tsx:126 | an empty update leaves the run as it was |
| Store.MergeRunThen | context/AppContext.tsx:126 | two successive updates are one combined update, the later value winning |
| Store.UpdateRun | context/AppContext.tsx:126 | `updateRun` keeps the list length and order. Runs with another id are unchanged, and matching runs are merged with the update |
| Store.UpdateRunAbsent | context/AppContext.tsx:126 | updating a missing id changes nothing |
| Store.UpdateRunNoChanges | context/AppContext.tsx:126 | an empty update changes nothing |
| Store.UpdateRunTwice | context/AppContext.tsx:126 | two updates of one id are one combined update |
| Store.FindUpdatedRun | context/AppContext.tsx:126 | after an update, the run with that id is the old run merged with the update |
| Store.Translate | context/AppContext.tsx:78-81 | `t(key)` is the translation when present and non-empty, and otherwise the key |
| Store.TranslateNonEmpty | context/AppContext.tsx:78-81 | `t` of a non-empty key is never empty |
| Results.DisplayName | pages/Results.tsx:23 | a model's name, or its id when the model is missing or its name is empty |
| Results.Contribution | pages/Results.tsx:36-42 | judge scores count one tenth, LENGTH counts 0, and booleans count 0 or 1 |
| Results.Distinct | pages/Results.tsx:22-48 | one entry per distinct snapshot model id |
| Results.ResultsOf | pages/Results.tsx:33 | a model's results are exactly the results with its id |
| Results.FoldTotals | pages/Results.tsx:32-45 | the loop adds one to the count, the latency and each metric's contribution for each of the model's results, and nothing for other results |
| Results.StatOfTotals | pages/Results.tsx:19-45 | a model's statistics are its name, its result count, and its latency and metric sums |
| Results.FoldOwnResults | pages/Results.tsx:33 | results with another model id do not change a model's statistics |
| Results.ComputeStats | pages/Results.tsx:19-45 | the dictionary has one entry per snapshot model id, each holding that model's statistics |
| Results.Round | pages/Results.tsx:56 | `Math.round` is the nearest integer, halves rounding up |
| Results.AggregateRow | pages/Results.tsx:48-58 | a row has the model's name, every snapshot metric but LENGTH averaged over `count \|\| 1`, and the rounded average latency |
| Results.Aggregations | pages/Results.tsx:16-60 | no run gives no rows; otherwise there is one row per distinct snapshot model id, in order, each that model's aggregate |
| Results.NoResultsReportZero | pages/Results.tsx:53-56 | a model without results reports 0 for every metric and for latency |
| Results.MetricSumBounds | pages/Results.tsx:36-42 | contributions in [0, 1] sum to at most the result count |
| Results.AverageBounds | pages/Results.tsx:50-55 | an average of contributions in [0, 1] lies in [0, 1] |
| Results.WithoutLength | pages/Results.tsx:65 | the radar metrics are the snapshot metrics other than LENGTH |
| Results.RadarValues | pages/Results.tsx:69-71 | a radar row has one entry per aggregate row's name |
| Results.RadarData | pages/Results.tsx:62-74 | no rows give no radar data; otherwise one radar row per non-LENGTH metric, holding every model's average |
| Results.RadarValuesDistinct | pages/Results.tsx:69-71 | with distinct names, each model's entry is its own average for that metric |
| Datasets.Or | pages/Datasets.tsx:37-38 | `a \|\| b` is `a` when truthy and `b` otherwise |
| Datasets.Lines | pages/Datasets.tsx:24 | splitting the trimmed text on newlines yields at least one line |
| Datasets.Survivors | pages/Datasets.tsx:25-31 | at most one record per line survives, and every survivor parsed and has a truthy `input` or `prompt` |
| Datasets.SurvivorsConcat | pages/Datasets.tsx:25-31 | survivors are taken line by line, so their order is the line order |
| Datasets.SurvivorsIff | pages/Datasets.tsx:25-31 | a record survives exactly when some line parses to it and it has a truthy `input` or `prompt` |
| Datasets.NoSurvivors | pages/Datasets.tsx:31 | when no line yields a kept record, nothing survives; question-only records are dropped |
| Datasets.Normalize | pages/Datasets.tsx:35-40 | every parsed key, `id` included, overrides the generated fields. The id is fresh unless the record has one. `input` and `reference` take their fallback chains when the record lacks them |
| Datasets.NormalizedInput | pages/Datasets.tsx:31-39 | a kept record always has an `input`, truthy unless the record's own `input` key is falsy |
| Datasets.NormalizedPrompt | pages/Datasets.tsx:37 | a record without `input` takes its `prompt` |
| Datasets.DatasetNamePlain | pages/Datasets.tsx:44 | a name without dots has its `.jsonl` or `.json` extension removed |
| Datasets.DatasetNameDropsInnerJson | pages/Datasets.tsx:44 | the name as written removes a `.json` inside the name, where stripping the extension would keep it |
| Datasets.StripExtension | pages/Datasets.tsx:44 | the corrected name drops a trailing `.jsonl`, or else a trailing `.json`, and nothing else |
| Datasets.StripExtensionOf | pages/Datasets.tsx:44 | the corrected name of `base.jsonl` or `base.json` is `base`, whatever `base` holds |
| Datasets.HandleFileUpload | pages/Datasets.tsx:20-47 | the upload fails with "No valid JSON items found." exactly when nothing survives. Otherwise the dataset has one normalised item per survivor, in order, and its name is what removing the first `.jsonl`, then the first `.json`, leaves of the file name |
| ModelForm.DisplayName | pages/Models.tsx:44 | the trimmed name when non-empty, otherwise the model id |
| ModelForm.HandleAddModel | pages/Models.tsx:42-64 | nothing is added exactly when the display name, API key, model id or base URL is missing or empty. An added model has the fresh id, the form's fields and no concurrency limit. The form keeps everything but the cleared name and model id |
| ModelForm.AddedName | pages/Models.tsx:44-53 | the added name is non-empty: the trimmed name, or else the model id |
| ModelForm.AddedNameTrimmed | pages/Models.tsx:44 | a name taken from the form has no surrounding whitespace |
| ModelForm.AddTwiceRefused | pages/Models.tsx:46-62 | the cleared form is refused until a model id is entered again |
| ModelForm.AddAgain | pages/Models.tsx:61-62 | the cleared form keeps provider, URL and key, so entering a model id is enough for the next add |
| ModelForm.AddedCanFetch | pages/Models.tsx:26-46 | whatever can be added passes the model-list guard |
| ModelForm.FindPreset | pages/Models.tsx:20 | the first preset with that provider, or none when no preset has it |
| ModelForm.HandlePresetChange | pages/Models.tsx:18-24 | a known provider sets provider and base URL only, and an unknown one changes nothing |
| ModelForm.PresetChangeSelects | pages/Models.tsx:18-24 | each provider selects itself and its preset URL and keeps name, key and model id |
| ModelForm.PresetChangeIdempotent | pages/Models.tsx:18-24 | switching to the same preset twice is switching once |
| Backend.Prefix | backend/main_db.py:257 | `run_id[:8]` is the first eight characters, or the whole id when shorter |
| Backend.NewRunRow | backend/main_db.py:252-267 | a new run is "pending" with zero progress and counters. Its total is the dataset's item count, or 0 without a dataset. Name, dataset and models default as the handler says |
| Backend.ApplyUpdates | backend/main_db.py:288-300 | each listed field present in the update takes its value, and the rest keep theirs. A timestamp that does not parse fails the request |
| Backend.UpdateKeepsTheRest | backend/main_db.py:288-300 | `update_run` never touches the total, the name, the dataset, the models, the snapshot or the creation time |
| Backend.EmptyUpdate | backend/main_db.py:288-300 | an update with no listed field changes nothing |
| Backend.UpdateIdempotent | backend/main_db.py:288-300 | applying the same update twice is applying it once |
| Backend.AfterResult | backend/main_db.py:348-355 | a posted result adds one to the completed count and sets progress to completed over `max(total, 1)`. The run completes, with a completion time, once completed reaches the total |
| Backend.ResultsCount | backend/main_db.py:348-355 | after `n` results a new run has `n` completed. It is completed exactly when `n > 0` and `n` reaches the total, so with a total of 0 the first result completes it |
| Backend.ProgressBounded | backend/main_db.py:350 | a result posted before the total is reached leaves progress in (0, 1] |
| Backend.NewResultRow | backend/main_db.py:331-343 | the result row has the run id, status "pending" by default, and metrics only when truthy |
| Backend.ParseLine | backend/main_db.py:150-159 | a line that is not JSON is skipped, and an item is built only from a JSON object |
| Backend.ParseLineDefaults | backend/main_db.py:154-155 | with neither `input` nor `prompt` the input is `''`, and with no `reference` it falls back to `output` |
| Backend.ItemsOf | backend/main_db.py:148-159 | at most one item per line |
| Backend.ItemsCount | backend/main_db.py:148-168 | the kept items are exactly the lines that parse, and none are kept when no line parses |
| Backend.BuildItems | backend/main_db.py:148-159 | the loop builds the items line by line, stopping at the first record that is invalid |
| Backend.ItemsErrStays | backend/main_db.py:150-188 | an invalid record fails the whole upload, whatever lines follow it |
| Backend.Database.constructor | backend/main_db.py:141-358 | the database starts with empty tables |
| Backend.Database.CreateRun | backend/main_db.py:246-271 | `create_run` stores the new run row under a fresh id, its total taken from the stored dataset, and changes no other table |
| Backend.Database.UpdateRun | backend/main_db.py:281-303 | a missing run is a 404 and changes nothing. Otherwise the row takes the update, or stays unchanged when a timestamp fails to parse |
| Backend.Database.CreateRunResult | backend/main_db.py:328-358 | the result is always stored. An existing run takes one more completed result, and a missing run changes no counter |
| Backend.Database.CreateDataset | backend/main_db.py:141-188 | a failed upload is rolled back. Otherwise the dataset row counts the kept items, which are stored in line order under the new dataset |
| Backend.Database.CreateModel | backend/main_db.py:204-227 | an id that already exists is refused and changes nothing. Otherwise the row is stored under the given or fresh id |

## Left out

- I/O and time: file reading, HTTP requests, `navigate`, `alert`, console logging, uuids and clocks. A fresh id or a timestamp is a parameter.
- Model inference (`generateCompletion` and the model-list fetch) is an oracle. It gives each task index a completion, which stands in for the reply that task receives.
- JSON parsing (`JSON.parse`, `json.loads`, `json.dumps`, `JSON.stringify`) and the custom metric's `new Function` evaluation are oracles.
- Real promise interleaving: a task's settling is modelled as one atomic event. Its result push and progress update happen together with the executor's `finally` block. `Runner.Drain` lets the tasks settle in any order.
- `Promise.all` rejection comes from a per-task oracle saying that the `catch` block's `updateRun` throws while saving. The error entry is pushed, counted and published before that throw, so it stays in the results. A throw by the `try` block's own `updateRun` is not modelled: it happens after the scored entry's push, and the `catch` block then pushes a second entry for the same task.
- A model whose `maxConcurrency` is negative keeps that limit (`|| 16` replaces only 0 or an absent value). Its executor then never starts a task and its run stays `running`. The model proves this outcome; non-integer limits are left out.
- The LLM judge's own `catch` branch and its `isNaN` guard are not modelled: `generateCompletion` never throws, and a matched digit run always parses.
- The persistence side effects of the store (localStorage and backend calls, including their stale snapshots of the lists), React state and rendering, charts, routing, the dashboard and the navbar.
- Results.AggregateRow: averages are exact reals. `toFixed(2)`, `parseFloat` and the `t()` display keys of the chart rows are left out, and `Math.round` is modelled on the exact average. JavaScript's key order for integer-like model ids in `Object.values` is not modelled: rows follow the snapshot order.
- Unicode: `\s`, `\w`, `trim`, `toLowerCase` and Python's `strip` are restricted to ASCII.
- JSON truthiness is JavaScript's (empty string, 0, false and null are falsy); NaN is left out.
- Backend.Database.CreateDataset: the upload is taken as text. The utf-8 decode and its failure are not modelled, and `file_size` is the text's length in characters rather than in bytes.
- Backend.ParseLine: pydantic's coercion rules are reduced to accepting a string or an object as input and a string or null as reference. Anything else is a validation error that fails the upload.
- The backend's other endpoints, routing, CORS and server start-up, the SQLAlchemy schema and session semantics, the migration and sample-data scripts, and `generateCompletionParallel`, which duplicates the inference path.

## Findings

| source | as written | input that shows it | evidently intended | confidence | as-written member | corrected member |
|---|---|---|---|---|---|---|
| pages/Datasets.tsx:44 | `file.name.replace('.jsonl', '').replace('.json', '')` removes the first occurrence anywhere in the name, not the extension | `notes.json-v2.jsonl` becomes `notes-v2` instead of `notes.json-v2` | strip a trailing `.jsonl` or `.json` extension only | not executed | Datasets.DatasetNameDropsInnerJson | Datasets.StripExtensionOf |
