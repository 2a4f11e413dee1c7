# git-search API core, modelled in Dafny

This project models the core of the git-search API service (the FastAPI
application under `apps/api/app`) and proves properties of that model.
Each module follows one source file:

- `Chunking` covers `chunk_text` (`gemini_ai.py`). It splits a large repository dump into chunks of at most `max` characters. Each cut is pulled back to just after the most preferred natural break in the last tenth of the window.
- `Summary` covers `generate_chunk_summary`, the fan-in of `generate_repository_summary` and the clean-up in `generate_short_description` (`gemini_ai.py`).
- `TaskRegistry` covers the in-memory `task_storage` registry of `background_tasks.py`. It is an insertion-ordered dictionary updated in place by `create_task` and `update_task_status`, and driven through its checkpoints by `analyze_repository_task`.
- `TaskRoutes` covers the task endpoints of `routers/tasks.py`: listing, one task's status, cancellation and statistics.
- `DatabaseService` covers the work-selection queries of `database.py`: which repositories need an analysis, AI texts, documents or a regenerated analysis. It also covers the priority merge, the latest-analysis grouping and the name derivation of the bulk upsert.
- `Documents` covers the title, description, prompt and result mapping of `document_generation.py`.
- `GitHub` covers `github_service.py`: URL parsing, the fork wrapper and its error messages, clone arguments, file operations and commits, and the fork-and-modify workflow with its record of temporary directories.
- `RepositoryInfoModel` covers `RepositoryInfo.model_post_init` (`models/github_config.py`).
- `Tweet` covers `generate_repository_tweet` (`twitter_service.py`).
- `MarkdownImages` covers the image rewrite rules and reference resolution of `simple_markdown_to_image.py`.
- `ImageCropper` covers the crop-box arithmetic of `image_cropper.py`.
- `RepoUtils` covers `extract_repo_info` (`utils/repo_utils.py`, repeated in `background_tasks.py`), including the part of Python 3.12's `urllib.parse.urlparse` it relies on.
- `PyStrings` holds the Python `str` operations the services use.
- `Wrappers` holds `Option` and `Result`.

Strings are sequences of Unicode scalar values, so lengths agree with Python's `len`; the tweet's rocket emoji is one character. Letter case (`lower`, `upper`, `capitalize`) is mapped on ASCII letters only; other characters keep their case (see "## Left out").

Every call the code makes to something outside it is an input to the model:
- the Gemini model;
- Supabase queries;
- the GitHub API;
- git;
- the file system;
- PIL;
- the clock.

A model call is a function from the prompt sent to the outcome received: an answer, or the exception raised. A query result is the sequence of rows the query returns, in the order it sorts them.

Loops and in-place state keep their form:
- `chunk_text`, the pattern search, the selection loops, the merge, the status tally, the reference collection and the file-operation loop are methods with loop invariants;
- the task registry, the GitHub service's list of temporary directories and `RepositoryInfo` are classes whose methods change their fields.

Each method is proved against a specification function, and the properties the source promises are lemmas about those functions.

## Model

| member | source | states |
|---|---|---|
| Chunking.BreakPatternsNonEmpty | apps/api/app/services/gemini_ai.py:138-151 | every break pattern has at least one character, so a found pattern moves the cut forward |
| Chunking.RFind | apps/api/app/services/gemini_ai.py:155-156 | `rfind`: -1, or a position where the pattern occurs with no occurrence after it |
| Chunking.RFindAtMost | apps/api/app/services/gemini_ai.py:155-156 | the highest occurrence at or below a bound, or -1 when there is none |
| Chunking.FirstMatching | apps/api/app/services/gemini_ai.py:153-160 | the index of the first pattern, in order of preference, found in the window; every earlier pattern is absent |
| Chunking.BreakPointWith | apps/api/app/services/gemini_ai.py:153-162 | the cut lies within the window and is at its start only when the window is empty |
| Chunking.BreakPoint | apps/api/app/services/gemini_ai.py:134-162 | the same bounds for the service's twelve patterns |
| Chunking.FirstMatchingIs | apps/api/app/services/gemini_ai.py:153-160 | the loop's stopping index is the first pattern that is found (the partner of `FirstMatching`) |
| Chunking.BreakPointRule | apps/api/app/services/gemini_ai.py:138-162 | when pattern p is the most preferred one that occurs, the cut lands just after its last occurrence |
| Chunking.BreakPointNoPattern | apps/api/app/services/gemini_ai.py:135-162 | when no pattern occurs in the window, the cut stays at the window's end |
| Chunking.CutPoint | apps/api/app/services/gemini_ai.py:128-162 | each chunk is non-empty and at most `max` long; a chunk that is not the last is at least `max - max/10` long, and strictly longer when `max >= 10` |
| Chunking.ChunksFromConcat | apps/api/app/services/gemini_ai.py:128-165 | the chunks from a cursor concatenate to the rest of the text |
| Chunking.ChunksFromBounds | apps/api/app/services/gemini_ai.py:128-165 | no chunks exactly at the end of the text; per-chunk length bounds for every chunk |
| Chunking.ChunksFromStep | apps/api/app/services/gemini_ai.py:164-165 | one loop step appends the slice up to the cut and moves the cursor to the cut |
| Chunking.ChunkSpecConcat | apps/api/app/services/gemini_ai.py:117-167 | round trip: the chunks, concatenated in order, are the input text |
| Chunking.ChunkSpecBounds | apps/api/app/services/gemini_ai.py:122-167 | for a non-empty text and `max >= 1`: at least one chunk, each of length 1..max, every chunk but the last at least `max - max/10` long and strictly longer when `max >= 10` |
| Chunking.ChunkSpecNonEmpty | apps/api/app/services/gemini_ai.py:122-167 | a positive size always yields at least one chunk (`[""]` for the empty text) |
| Chunking.FindBreakPoint | apps/api/app/services/gemini_ai.py:153-162 | the pattern loop with its early `break` computes the break point specified by `BreakPointWith` |
| Chunking.NextCut | apps/api/app/services/gemini_ai.py:129-162 | one iteration's end index equals `CutPoint` |
| Chunking.ChunkLoop | apps/api/app/services/gemini_ai.py:125-167 | the `while` loop yields exactly the chunks `ChunksFrom` specifies |
| Chunking.ChunkText | apps/api/app/services/gemini_ai.py:117-167 | `chunk_text` returns `[text]` when the text fits, concatenates back to the text, and keeps every chunk within 1..max |
| Summary.GenerateChunkSummary | apps/api/app/services/gemini_ai.py:169-229 | 1-based index, total and `len(chunk)`; success exactly when the call answers; on an exception `error` is its text and the summary is the placeholder, which never propagates |
| Summary.SummariseChunks | apps/api/app/services/gemini_ai.py:289-296 | one summary per chunk, in chunk order, each from `generate_chunk_summary` with its index and the chunk count |
| Summary.Successful | apps/api/app/services/gemini_ai.py:299 | only successful summaries of the list are kept |
| Summary.Failed | apps/api/app/services/gemini_ai.py:300 | only failed summaries of the list are kept |
| Summary.SuccessfulPlusFailed | apps/api/app/services/gemini_ai.py:299-314 | the two lists partition the chunks; none failed iff all succeeded; all failed iff none succeeded |
| Summary.SplitCounts | apps/api/app/services/gemini_ai.py:299-300 | successful plus failed equals the number of chunks |
| Summary.NoneFailed | apps/api/app/services/gemini_ai.py:307-337 | the failed list is empty exactly when every chunk succeeded |
| Summary.AllFailedCount | apps/api/app/services/gemini_ai.py:313-314 | the failed list is as long as the chunk list exactly when no chunk succeeded |
| Summary.AggregateRun | apps/api/app/services/gemini_ai.py:299-411 | no aggregation call iff every chunk failed (then "All repository chunks failed to process"); otherwise exactly one call on `system_prompt + "\n\n" +` the prompt cut to 1,600,000 characters; success iff it answers, with counts that add up; on failure all counts are zero |
| Summary.Aggregate | apps/api/app/services/gemini_ai.py:299-411 | at most one aggregation call, on contents that start with the system prompt and a blank line; success exactly when there is no error and exactly when there is a summary; a failure reports no chunk summaries and no statistics |
| Summary.GenerateRepositorySummary | apps/api/app/services/gemini_ai.py:231-411 | the same for the whole run over the chunks of the text: at most one aggregation call, starting with the system prompt; success exactly when no error and exactly when a summary is given; a failure reports no chunk summaries and empty statistics |
| Summary.AggregateCalls | apps/api/app/services/gemini_ai.py:313-382 | the aggregation-call half of `AggregateRun` |
| Summary.AggregateResult | apps/api/app/services/gemini_ai.py:384-411 | the result-dictionary half of `AggregateRun` |
| Summary.AllFailedIff | apps/api/app/services/gemini_ai.py:204-229 | every chunk summary failed exactly when no chunk's model call answered |
| Summary.AllFailedWhenNoneAnswered | apps/api/app/services/gemini_ai.py:285-314 | the same for the chunks `chunk_text` makes of the dump at 1,200,000 characters |
| Summary.NoAggregationWhenAllFailed | apps/api/app/services/gemini_ai.py:313-314 | when no chunk answered, no aggregation call is made and the result is the "All repository chunks failed to process" failure |
| Summary.OneAggregationCall | apps/api/app/services/gemini_ai.py:368-382 | when some chunk answered, exactly one aggregation call, prefixed by the system prompt and at most 1,600,000 prompt characters; the run succeeds iff it answers |
| Summary.SummaryCounts | apps/api/app/services/gemini_ai.py:384-411 | on success the counts add up to the number of chunks, chunk summaries have 1-based indices and chunk sizes, statistics carry `len(full_text)` and a prompt length within the cap; on failure every count is zero |
| Summary.Inner | apps/api/app/services/gemini_ai.py:500 | Python's `s[1:-1]`, empty for fewer than two characters |
| Summary.UnquoteWrapped | apps/api/app/services/gemini_ai.py:495-500 | removing the wrapping quotes undoes adding one pair, and leaves an unwrapped text alone |
| Summary.CleanDescriptionFits | apps/api/app/services/gemini_ai.py:492-507 | a fitting description is kept; a longer one becomes its first `max_length - 3` characters plus "...", so it never exceeds `max_length >= 3` |
| Summary.CleanDescription | apps/api/app/services/gemini_ai.py:492-507 | a stripped, unquoted description that fits is returned as it is; for `max_length >= 3` the result never exceeds `max_length`, and a cut one ends in "..." |
| Summary.CleanDescriptionOvershoots | apps/api/app/services/gemini_ai.py:503-507 | below `max_length = 3` the negative slice makes the "truncated" description longer than `max_length` |
| Summary.GenerateShortDescription | apps/api/app/services/gemini_ai.py:476-530 | no or empty response gives "No response from Gemini API"; an exception gives its text; otherwise the cleaned description, its length and the summary's length |
| TaskRegistry.NewTask | apps/api/app/services/background_tasks.py:373-382 | the record `create_task` stores: status "pending", message "Task created", progress 0, creation time, nothing else |
| TaskRegistry.Or | apps/api/app/services/background_tasks.py:341-350 | a given optional argument wins; `None` keeps the current value |
| TaskRegistry.Updated | apps/api/app/services/background_tasks.py:324-350 | status, message and `updated_at` are always overwritten; an unknown id starts from a fresh "Task created" record; an existing record keeps its id and creation time |
| TaskRegistry.UpdateMerges | apps/api/app/services/background_tasks.py:341-350 | field by field: an argument given overwrites progress, repo id, error, repo info or result; one left `None` keeps what the record held, which is nothing for a new record |
| TaskRegistry.UpdateIdempotent | apps/api/app/services/background_tasks.py:324-350 | repeating the same update at the same clock reading changes nothing further |
| TaskRegistry.Lookup | apps/api/app/services/background_tasks.py:327 | membership test and dictionary read |
| TaskRegistry.ApplyAll | apps/api/app/services/background_tasks.py:324-350 | a non-empty series of updates always leaves a record |
| TaskRegistry.ApplyAllSnoc | apps/api/app/services/background_tasks.py:324-350 | applying one more update to the record a series left behind |
| TaskRegistry.Appended | apps/api/app/services/background_tasks.py:328 | assigning a key keeps dictionary insertion order: a new key goes last, an existing one keeps its place |
| TaskRegistry.Remove | apps/api/app/routers/tasks.py:74 | deleting a key removes exactly it from the key order and keeps the others distinct |
| TaskRegistry.ItemsOf | apps/api/app/routers/tasks.py:18 | `items()` lists each key with its record, in key order |
| TaskRegistry.KeysCount | apps/api/app/routers/tasks.py:93 | the number of keys of the dictionary equals the length of its key order |
| TaskRegistry.DistinctCount | apps/api/app/routers/tasks.py:93 | a key order without repetition has as many entries as distinct keys |
| TaskRegistry.Registry.Items | apps/api/app/routers/tasks.py:18 | as many items as keys, and as many keys as records |
| TaskRegistry.Registry.constructor | apps/api/app/services/background_tasks.py:38 | the registry starts empty |
| TaskRegistry.Registry.Assign | apps/api/app/services/background_tasks.py:328 | a dictionary assignment: only key k changes, the order follows insertion |
| TaskRegistry.Registry.Delete | apps/api/app/routers/tasks.py:74 | `del task_storage[k]`: exactly k disappears |
| TaskRegistry.Registry.CreateTask | apps/api/app/services/background_tasks.py:373-382 | the new record is stored under the id, replacing any earlier one, and no other entry changes |
| TaskRegistry.Registry.UpdateTaskStatus | apps/api/app/services/background_tasks.py:324-350 | only the entry for the task id changes, and it becomes the merge of the update into what was there |
| TaskRegistry.Registry.GetTaskStatus | apps/api/app/services/background_tasks.py:352-363 | never inserts; a stored id gives its record, an absent id the "not_found" sentinel |
| TaskRegistry.NotFoundRecord | apps/api/app/services/background_tasks.py:355-361 | status "not_found", error and message "Task not found" |
| TaskRegistry.Registry.Report | apps/api/app/services/background_tasks.py:324-350 | each update the driver makes extends the trace of applied updates by one |
| TaskRegistry.Registry.AnalyzeRepositoryTask | apps/api/app/services/background_tasks.py:66-313 | the task's record goes through exactly the updates `AnalysisUpdates` lists, and no other entry of the registry changes; the run fails at the first raising step: URL extraction, repository lookup or creation, temporary directories and analyzer set-up, repo2text, reading the dump, the analysis row, the content document, the repository update |
| TaskRegistry.Registry.Run | apps/api/app/services/background_tasks.py:73-99 | the driver from the first checkpoint, the extraction and the repository lookup or creation on |
| TaskRegistry.Registry.RunFromRepository | apps/api/app/services/background_tasks.py:99-126 | checkpoint 20, then FAILURE when `mkdtemp` or the `RepoAnalyzer` constructor raises; otherwise checkpoint 30, then FAILURE when repo2text raises or reports failure |
| TaskRegistry.Registry.SaveAnalysis | apps/api/app/services/background_tasks.py:126-176 | checkpoint 60, then FAILURE when reading the output file or a result entry raises; otherwise checkpoint 75, then FAILURE when storing the analysis raises |
| TaskRegistry.Registry.Finish | apps/api/app/services/background_tasks.py:176-303 | checkpoint 85, FAILURE when the content document fails, else checkpoint 90 and SUCCESS, or FAILURE when the repository update raises |
| TaskRegistry.AfterRepoCases | apps/api/app/services/background_tasks.py:99-126 | the updates after the repository id, case by case: the set-up fails right after checkpoint 20; otherwise by the analyzer's outcome after checkpoint 30 |
| TaskRegistry.AfterProcessingCases | apps/api/app/services/background_tasks.py:126-176 | the updates after the dump, case by case: reading it fails right after checkpoint 60; otherwise by the outcome of storing the analysis after checkpoint 75 |
| TaskRegistry.AfterAnalysisCases | apps/api/app/services/background_tasks.py:176-303 | the updates after the analysis row, case by case of the content document |
| TaskRegistry.StagePrefix | apps/api/app/services/background_tasks.py:99-303 | one more checkpoint in front of a staged run keeps it staged |
| TaskRegistry.AfterAnalysisShape | apps/api/app/services/background_tasks.py:176-303 | after the analysis row the run reaches checkpoints 85 and 90 in order and ends in SUCCESS or FAILURE |
| TaskRegistry.AfterProcessingShape | apps/api/app/services/background_tasks.py:126-303 | the same from checkpoint 60 on |
| TaskRegistry.AfterRepoShape | apps/api/app/services/background_tasks.py:99-303 | the same from checkpoint 20 on |
| TaskRegistry.CheckpointLess | apps/api/app/services/background_tasks.py:75-201 | the checkpoints 10, 20, 30, 60, 75, 85, 90 increase strictly |
| TaskRegistry.StagedRunWellFormed | apps/api/app/services/background_tasks.py:75-303 | the first checkpoint followed by a staged run is well formed |
| TaskRegistry.StagedProgress | apps/api/app/services/background_tasks.py:75-201 | update i of such a run is STARTED at checkpoint i, with no error and no result |
| TaskRegistry.AnalysisUpdatesSplit | apps/api/app/services/background_tasks.py:73-99 | the run is the first checkpoint, then either an immediate FAILURE or the updates after the repository id |
| TaskRegistry.RunIsWellFormed | apps/api/app/services/background_tasks.py:66-313 | every run reports STARTED at strictly increasing checkpoints and ends in SUCCESS at 100 with a result, or in FAILURE with an error, no progress and no result |
| TaskRegistry.ExtractFailureEndsRun | apps/api/app/services/background_tasks.py:75-78 | an invalid URL ends the run right after the first checkpoint, with the parser's message and no repository information |
| TaskRegistry.LastOfAppend | apps/api/app/services/background_tasks.py:302-313 | the last update of a run is the last of its final stage |
| TaskRegistry.AfterAnalysisSucceedsIff | apps/api/app/services/background_tasks.py:176-303 | after the analysis row, SUCCESS iff the content document (when there is content) and the repository update succeed |
| TaskRegistry.AfterProcessingSucceedsIff | apps/api/app/services/background_tasks.py:126-303 | the same, plus reading the dump and storing the analysis |
| TaskRegistry.AfterRepoSucceedsIff | apps/api/app/services/background_tasks.py:99-303 | the same, plus the analyzer set-up and repo2text |
| TaskRegistry.SucceedsIff | apps/api/app/services/background_tasks.py:66-313 | the run ends in SUCCESS iff every step outside the AI summary succeeds: extraction, lookup or creation, set-up, repo2text, reading the dump, the analysis row, the content document when there is content, the repository update |
| TaskRegistry.SameShapeAppend | apps/api/app/services/background_tasks.py:204-269 | the same statuses and progress values after a common prefix |
| TaskRegistry.AfterAnalysisSummaryShape | apps/api/app/services/background_tasks.py:204-269 | the AI summary outcomes do not change the statuses or progress values from checkpoint 85 on |
| TaskRegistry.AfterProcessingSummaryShape | apps/api/app/services/background_tasks.py:204-269 | the same from checkpoint 60 on |
| TaskRegistry.AfterRepoSummaryShape | apps/api/app/services/background_tasks.py:204-269 | the same from checkpoint 20 on |
| TaskRegistry.SummaryIsNonFatal | apps/api/app/services/background_tasks.py:204-269 | a failing or unsuccessful AI summary step, a failed marking of previous summaries or a failed summary document never changes the statuses or progress values of the run |
| TaskRegistry.FailureKeepsLastCheckpoint | apps/api/app/services/background_tasks.py:307-313 | after FAILURE the record keeps the last checkpoint's progress, holds the error, and has no result |
| TaskRegistry.LastTwoUpdates | apps/api/app/services/background_tasks.py:324-350 | the record after a run, in terms of its last two updates |
| TaskRegistry.NoResultBeforeEnd | apps/api/app/services/background_tasks.py:75-201 | STARTED updates carry no result, so none is stored before the end |
| TaskRoutes.Parse | apps/api/app/routers/tasks.py:22 | `TaskStatus(v)` finds the member whose value is v |
| TaskRoutes.ParseValue | apps/api/app/routers/tasks.py:22 | every member is found again from its value (the partner of `Parse`) |
| TaskRoutes.ToView | apps/api/app/routers/tasks.py:20-28 | a record converts iff its status is a `TaskStatus` value and its progress, when present, lies in 0..100; the view copies id, status, message, progress, repo id, result and error |
| TaskRoutes.CountMatching | apps/api/app/routers/tasks.py:19 | no more entries pass the filter than there are |
| TaskRoutes.ListFromKeepsMatching | apps/api/app/routers/tasks.py:18-28 | a listing holds one view per entry the filter keeps, each with the requested status |
| TaskRoutes.ListFromOkIff | apps/api/app/routers/tasks.py:18-36 | the listing fails exactly when some kept entry cannot be converted |
| TaskRoutes.ListStep | apps/api/app/routers/tasks.py:18-28 | one iteration of the loop, at position i |
| TaskRoutes.PrependTwice | apps/api/app/routers/tasks.py:20 | appending views one by one builds the same listing |
| TaskRoutes.ListTasks | apps/api/app/routers/tasks.py:8-36 | `list_tasks` answers `ListTasksSpec` of the registry's items and only reads the registry |
| TaskRoutes.ListWindow | apps/api/app/routers/tasks.py:15-28 | the loop over the first `limit` items computes `ListFrom`, stopping at the first entry that raises |
| TaskRoutes.ListTasksBound | apps/api/app/routers/tasks.py:18-30 | at most `limit` tasks are returned, each with the requested status |
| TaskRoutes.ListIgnoresLater | apps/api/app/routers/tasks.py:18 | only the first `limit` entries in insertion order are looked at, so a matching task stored later is missed |
| TaskRoutes.GetTaskStatusEndpoint | apps/api/app/routers/tasks.py:38-63 | an absent id or the "not_found" sentinel becomes a 404; any other stored record is answered with its full view (id, status, message, progress, repo id, result, error), or a 500 "Failed to get task status: " with the conversion's message when it does not convert |
| TaskRoutes.NewTaskAnswered | apps/api/app/routers/tasks.py:38-63 | a task just created is reported pending, "Task created", progress 0, nothing else |
| TaskRoutes.UpdatedTaskAnswered | apps/api/app/routers/tasks.py:38-63 | after an update with a valid status, the report carries its status, message and every optional argument given |
| TaskRoutes.CancelTask | apps/api/app/routers/tasks.py:65-87 | exactly the given id leaves the registry; an absent id is a 404 and changes nothing |
| TaskRoutes.Statuses | apps/api/app/routers/tasks.py:96-97 | the statuses of the entries, in insertion order |
| TaskRoutes.Count | apps/api/app/routers/tasks.py:96-98 | a status that does not occur counts zero |
| TaskRoutes.LastSplit | apps/api/app/routers/tasks.py:96-98 | the statuses met so far are the earlier ones plus the last |
| TaskRoutes.DistinctKeys | apps/api/app/routers/tasks.py:95-98 | every status met is a key of `status_counts` exactly once, and nothing else is |
| TaskRoutes.TallyKeys | apps/api/app/routers/tasks.py:95-98 | every status met has a count, and nothing else has |
| TaskRoutes.TallyCounts | apps/api/app/routers/tasks.py:95-98 | each status is counted as often as it occurs |
| TaskRoutes.DistinctStep | apps/api/app/routers/tasks.py:98 | one loop step adds a status not met before as a new key |
| TaskRoutes.TallyStep | apps/api/app/routers/tasks.py:98 | one loop step adds one to the status's count, starting from 0 |
| TaskRoutes.SumOverOther | apps/api/app/routers/tasks.py:95-98 | changing a count outside the keys leaves their sum alone |
| TaskRoutes.SumOverBump | apps/api/app/routers/tasks.py:98 | adding one to a key's count adds one to the sum |
| TaskRoutes.SumOverSnoc | apps/api/app/routers/tasks.py:98 | a new key adds its count to the sum |
| TaskRoutes.BreakdownSums | apps/api/app/routers/tasks.py:93-102 | the status counts add up to the number of tasks |
| TaskRoutes.GetTaskStats | apps/api/app/routers/tasks.py:89-105 | `total_tasks` is the number of entries, the breakdown counts each status and sums to the total; the registry is only read |
| TaskRoutes.CountStatuses | apps/api/app/routers/tasks.py:95-98 | the counting loop computes the keys in first-met order and the counts |
| DatabaseService.Take | apps/api/app/services/database.py:2009 | `rows[:n]` and `.limit(n)`: a prefix of the input, of length `n` when there are more than `n` rows and the whole input otherwise |
| DatabaseService.FindRepo | apps/api/app/services/database.py:1835-1846 | the single-row lookup by id: a repository with that id, or none when no repository has it |
| DatabaseService.Filtered | apps/api/app/services/database.py:959-960 | `.in_` / `.not_.in_` on ids: exactly the repositories whose id is (or is not) in the set, keeping unique ids unique |
| DatabaseService.WithoutAnalysis | apps/api/app/services/database.py:938-973 | at most `limit` repositories, each with no analysis row, and every unanalysed repository is listed when fewer than `limit` are returned |
| DatabaseService.AiCandidatesSound | apps/api/app/services/database.py:1821-1849 | every repository the loop collects is the first-seen row of its repository, with a missing AI summary or description, and exists in `repositories` |
| DatabaseService.AiCandidatesComplete | apps/api/app/services/database.py:1821-1849 | every repository whose first analysis row lacks a summary or description is collected |
| DatabaseService.AiCandidatesUnique | apps/api/app/services/database.py:1826-1829 | the `seen_repo_ids` set keeps any repository from being collected twice |
| DatabaseService.NeedingAiSummaryOrDescription | apps/api/app/services/database.py:1804-1856 | the loop, with its `break` at the limit, returns the first `limit` candidates of the specification |
| DatabaseService.NeedingAiProperties | apps/api/app/services/database.py:1804-1856 | the result has at most `limit` entries (one when the limit is 0), none twice, each qualifying, and all qualifying repositories when fewer |
| DatabaseService.AiReadyRows | apps/api/app/services/database.py:1864-1871 | the `.not_.is_(..., "null")` filters keep exactly the rows with both a summary and a description |
| DatabaseService.DocCandidatesSound | apps/api/app/services/database.py:1892-1923 | every collected repository comes from the first undocumented row of its repository, with non-blank texts |
| DatabaseService.DocCandidatesComplete | apps/api/app/services/database.py:1892-1923 | every repository that qualifies at some row is collected |
| DatabaseService.DocCandidatesUnique | apps/api/app/services/database.py:1897-1899 | no repository is collected twice |
| DatabaseService.NeedingDocumentsWithAiReady | apps/api/app/services/database.py:1858-1930 | the method returns the specification's selection, built from the AI-ready rows and the documented analysis ids |
| DatabaseService.SelectUndocumented | apps/api/app/services/database.py:1889-1925 | the loop with its `break` returns the first `limit` candidates |
| DatabaseService.DocCandidatesTaken | apps/api/app/services/database.py:1889-1925 | the first `limit` candidates are unique and qualifying, and are all of them when fewer |
| DatabaseService.NeedingDocumentsProperties | apps/api/app/services/database.py:1858-1930 | at most `limit` repositories, none twice, each with an undocumented analysis whose texts are non-blank, and all such repositories when fewer |
| DatabaseService.Orphaned | apps/api/app/services/database.py:1932-2014 | corrected: at most `limit` repositories, exactly those with a documented analysis lacking a tree structure (when fewer than `limit`) |
| DatabaseService.OrphanedFailsIffDangling | apps/api/app/services/database.py:1977-1987 | as written, the method fails exactly when a document points at an analysis id with no row, and otherwise agrees with the corrected version |
| DatabaseService.OrphanedDanglingExample | apps/api/app/services/database.py:1985-1987 | one document pointing at a deleted analysis makes the method fail with the wrapped NameError |
| DatabaseService.OrphanedAsWritten | apps/api/app/services/database.py:1932-2014 | as written: no document analysis ids give an empty list; the only error is the NameError message under the method's prefix; a list returned has at most `limit` repositories, all taken from the repositories given |
| DatabaseService.MergeGrows | apps/api/app/services/database.py:883-888 | the merge only appends, never past `limit`, and only candidates |
| DatabaseService.MergeUnique | apps/api/app/services/database.py:880-888 | the id check keeps ids unique in the merged list |
| DatabaseService.MergeComplete | apps/api/app/services/database.py:883-888 | below the limit, every candidate's id ends up in the list |
| DatabaseService.Merge | apps/api/app/services/database.py:880-888 | the merge loop computes the merge specification |
| DatabaseService.NeedingProcessing | apps/api/app/services/database.py:856-935 | the four-stage method returns the specification's list |
| DatabaseService.AddAiStage | apps/api/app/services/database.py:871-893 | the second stage and what follows it |
| DatabaseService.AddDocsStage | apps/api/app/services/database.py:895-914 | the third stage and what follows it |
| DatabaseService.AddOrphanedStage | apps/api/app/services/database.py:916-931 | the fourth stage, over the corrected orphaned-documents query |
| DatabaseService.NeedingProcessingAsWritten | apps/api/app/services/database.py:856-936 | the four stages with the orphaned-documents query as written, its failure re-raised under "Database error getting repositories needing processing: " |
| DatabaseService.NeedingProcessingAsWrittenAgrees | apps/api/app/services/database.py:916-936 | as written, the method fails only when some document refers to a missing analysis, with the NameError under both prefixes; otherwise, and whenever it answers, it returns the corrected list |
| DatabaseService.NeedingProcessingDanglingExample | apps/api/app/services/database.py:916-936 | one document pointing at a deleted analysis makes the as-written method fail where the corrected one returns the empty list |
| DatabaseService.AiSelectionInRepos | apps/api/app/services/database.py:1835-1846 | every AI candidate is a row of `repositories` |
| DatabaseService.DocsSelectionInRepos | apps/api/app/services/database.py:1911-1920 | every documents candidate is a row of `repositories` |
| DatabaseService.MergeSound | apps/api/app/services/database.py:880-888 | merging candidates from `repositories` keeps the list bounded, drawn from `repositories` and free of duplicates |
| DatabaseService.FromAiSound | apps/api/app/services/database.py:871-931 | stages two to four keep the list sound and only extend it |
| DatabaseService.FromDocsSound | apps/api/app/services/database.py:895-931 | stages three and four keep the list sound and only extend it |
| DatabaseService.FromOrphanedSound | apps/api/app/services/database.py:916-931 | stage four keeps the list sound and only extends it |
| DatabaseService.NeedingProcessingProperties | apps/api/app/services/database.py:856-935 | at most `limit` repositories, all from `repositories`, none twice when ids are unique, and the never-analysed ones first |
| DatabaseService.LatestFor | apps/api/app/services/database.py:2045-2049 | a row of the repository that no earlier row of it precedes (the first in newest-first order: its latest analysis), or none when it has no row |
| DatabaseService.LatestForSnoc | apps/api/app/services/database.py:2048-2049 | a later row never replaces an earlier one |
| DatabaseService.LatestAnalysesBulk | apps/api/app/services/database.py:2017-2061 | every requested id is a key, and maps to its latest analysis or to none |
| DatabaseService.RepoNameFromUrl | apps/api/app/services/database.py:136-139 | the derived name never contains a slash |
| DatabaseService.RepoNameOfGitUrl | apps/api/app/services/database.py:136-139 | the name of `.../name.git` is `name` |
| DatabaseService.RepoNameIgnoresTrailingSlash | apps/api/app/services/database.py:136 | a trailing slash does not change the name |
| DatabaseService.PrepareUpserts | apps/api/app/services/database.py:121-178 | fails with "repo_url is required" exactly when some entry has an empty URL; otherwise one row per entry with its name, URL and status (default "pending") |
| DatabaseService.UpsertOutcome | apps/api/app/services/database.py:187-190 | the returned rows when there are any, otherwise the "Failed to upsert repositories" error |
| Documents.ReplaceChar | apps/api/app/services/document_generation.py:304-305 | a one-character replacement keeps the length |
| Documents.JoinReplace | apps/api/app/services/document_generation.py:304-305 | joining the `_`-split words with a space is the type with `_` replaced by a space |
| Documents.WordsJoined | apps/api/app/services/document_generation.py:304-305 | the words of a type joined by spaces equal the type with each `_` made a space |
| Documents.JoinLength | apps/api/app/services/document_generation.py:305 | re-casing every word does not change the joined length |
| Documents.LowerOfMapped | apps/api/app/services/document_generation.py:293-295 | lower-casing the joined name forgets how each word was re-cased |
| Documents.CapitalizeAvoids | apps/api/app/services/document_generation.py:305 | capitalizing a word introduces no `_` |
| Documents.TitleShape | apps/api/app/services/document_generation.py:298-307 | the title holds no `_`, is as long as the type, and reads as the type with spaces up to letter case |
| Documents.Title | apps/api/app/services/document_generation.py:298-307 | the title holds no `_` and has as many characters as the document type |
| Documents.FormatWord | apps/api/app/services/document_generation.py:272-290 | an acronym is upper-cased and any other word capitalized; either way the word is unchanged up to case |
| Documents.FormatWords | apps/api/app/services/document_generation.py:270-291 | the loop that fills `formatted_words` formats every word, in order |
| Documents.LowerDocumentName | apps/api/app/services/document_generation.py:291-295 | lowered, the document name is the type with spaces, so the acronym handling never reaches the output |
| Documents.GenerateDescription | apps/api/app/services/document_generation.py:309-347 | a predefined description for the known types, else the generic one |
| Documents.DescriptionOfOtherType | apps/api/app/services/document_generation.py:322-347 | an unknown type is described as "AI-generated" followed by its lower-cased words and "document" |
| Documents.DefaultPrompt | apps/api/app/services/document_generation.py:222-296 | a predefined prompt for the known types, else the generic one |
| Documents.PromptOfOtherType | apps/api/app/services/document_generation.py:268-296 | an unknown type gets the generic prompt naming its lower-cased words |
| Documents.PromptName | apps/api/app/services/document_generation.py:50 | the prompt is looked up as the type followed by `_generation` |
| Documents.ServicePrompt | apps/api/app/services/gemini_ai.py:43-115 | the model service answers the non-empty stored prompt, else its generic "documentation_generation" prompt, and None exactly when the database lookup raises |
| Documents.SystemPrompt | apps/api/app/services/document_generation.py:51-57 | the stored non-empty prompt; the generic documentation prompt when nothing non-empty is stored; the type's default prompt only when the lookup raised |
| Documents.ModelContents | apps/api/app/services/document_generation.py:65-70 | the model is sent the system prompt, a blank line and the context |
| Documents.GenerateDocument | apps/api/app/services/document_generation.py:23-117 | a document exactly when the model reply is a non-empty text and the insert succeeds, whatever the prompt lookup does; its fields (title, description, version 1, current, prompt name, summary length) are then fixed |
| Documents.PromptLookupIsNonFatal | apps/api/app/services/gemini_ai.py:111-115 | changing the prompt lookup's outcome never changes the generated document |
| Documents.LastIndex | apps/api/app/services/document_generation.py:171-177 | the last position of a type in the list, or -1 when absent |
| Documents.GenerateMultiple | apps/api/app/services/document_generation.py:119-180 | every type is first marked not current, then generated; the result maps each listed type to the outcome of its last occurrence |
| GitHub.ParseGitHubUrl | apps/api/app/services/github_service.py:285-319 | a pair exactly when the trimmed, scheme- and host-stripped path contains a `/`; neither owner nor name contains one |
| GitHub.FirstSegment | apps/api/app/services/github_service.py:310 | a segment followed by the end or by `/` is the first part of the split |
| GitHub.FirstSegmentEnds | apps/api/app/services/github_service.py:310 | the first part of the split is followed by the end or by `/` |
| GitHub.LeadingSegmentsAreParts | apps/api/app/services/github_service.py:310-313 | two leading segments are the first two parts of the split |
| GitHub.PartsAreLeadingSegments | apps/api/app/services/github_service.py:310-313 | the first two parts of the split lead the path |
| GitHub.ParseFindsLeadingSegments | apps/api/app/services/github_service.py:285-319 | the parse yields `owner` and `repoName` exactly when they are the path's first two segments; what follows is ignored |
| GitHub.TrimmedKeeps | apps/api/app/services/github_service.py:297 | a text without surrounding whitespace or a trailing `/` survives `strip().rstrip("/")` |
| GitHub.WithoutSchemeAfterPrefix | apps/api/app/services/github_service.py:300-301 | behind each accepted prefix the scheme is removed and a GitHub host remains |
| GitHub.SecureSchemeRemoved | apps/api/app/services/github_service.py:300-301 | `https://` before a GitHub host is removed |
| GitHub.PlainSchemeRemoved | apps/api/app/services/github_service.py:300-301 | `http://` before a GitHub host is removed |
| GitHub.WithoutHostAfterHost | apps/api/app/services/github_service.py:304-307 | both spellings of the host are removed |
| GitHub.RepoPathAfterPrefix | apps/api/app/services/github_service.py:297-307 | behind an accepted prefix, the path is exactly what follows it |
| GitHub.ParseAfterPrefix | apps/api/app/services/github_service.py:285-319 | behind an accepted prefix, a path that begins with two segments parses to them |
| GitHub.GitSuffixKept | apps/api/app/services/github_service.py:310-313 | a `.git` suffix stays part of the repository name |
| GitHub.ExtraSegmentsIgnored | apps/api/app/services/github_service.py:312-313 | segments after the repository name are ignored |
| GitHub.SingleSegmentRejected | apps/api/app/services/github_service.py:312-315 | a single segment names no repository |
| GitHub.ForkRepository | apps/api/app/services/github_service.py:228-283 | an unparsable URL gives the invalid-URL error; otherwise success follows the fork, and every failure carries a non-empty error and no forked URL |
| GitHub.InvalidUrlMakesNoForkAttempt | apps/api/app/services/github_service.py:240-246 | an unparsable URL is answered without calling the fork |
| GitHub.ForkErrorMessage | apps/api/app/services/github_service.py:175-225 | the message for status 422, 403 and 404, for other API errors (with status or details appended) and for any other exception |
| GitHub.ForkErrorMessageNamesKind | apps/api/app/services/github_service.py:175-225 | the message's opening words identify the kind of failure, in both directions |
| GitHub.PrepareClone | apps/api/app/services/github_service.py:344-365 | a missing clone URL is an error, a missing depth cannot be compared, and otherwise the URL, the positive depth and the branch (or the default branch) are passed to git |
| GitHub.InitializedRepoIsClonable | apps/api/app/services/github_service.py:344-348 | after `model_post_init` both clone URLs are set, so only a missing depth stops the clone before git runs |
| GitHub.CloneOutcome | apps/api/app/services/github_service.py:321-401 | cloned exactly when the checks pass and git succeeds, into the fresh directory; a failed check is reported as the error |
| GitHub.ApplyFileOperations | apps/api/app/services/github_service.py:403-451 | the loop computes the listed paths and the tree after the operations |
| GitHub.PathsPartition | apps/api/app/services/github_service.py:416-441 | every operation is a create, an update or a delete |
| GitHub.ListedWrites | apps/api/app/services/github_service.py:428-436 | every create and update is listed, in order; deletes at most once each |
| GitHub.ListedDeletes | apps/api/app/services/github_service.py:438-441 | a path is listed as deleted exactly when a delete found it existing |
| GitHub.FilesModifiedBound | apps/api/app/services/github_service.py:508-510 | at most one modified file per operation |
| GitHub.CommitActor | apps/api/app/services/github_service.py:486-492 | the commit's own author when name and email are set, else the configured git user, else git's default |
| GitHub.CommitListsFiles | apps/api/app/services/github_service.py:453-527 | a commit succeeds exactly when git commits; it then lists the created, updated and deleted files in that order |
| GitHub.CommitChanges | apps/api/app/services/github_service.py:453-527 | the method computes the commit specification over the tree |
| GitHub.WorkflowStopsAtFirstFailure | apps/api/app/services/github_service.py:597-745 | the workflow fails at the first failing step (fork, clone, commit, push) with that step's error, and succeeds only when none fails |
| GitHub.ForkFailureReported | apps/api/app/services/github_service.py:616-630 | a failed fork ends the workflow with the fork's error |
| GitHub.CloneFailureReported | apps/api/app/services/github_service.py:632-652 | a failed clone ends the workflow with the clone's error |
| GitHub.CommitFailureReported | apps/api/app/services/github_service.py:654-669 | a failed commit ends the workflow with the commit's error |
| GitHub.PushFailureReported | apps/api/app/services/github_service.py:671-692 | a failed push ends the workflow with the push error |
| GitHub.NoFailureReported | apps/api/app/services/github_service.py:695-730 | with no failing step the workflow succeeds |
| GitHub.WorkflowReportsSteps | apps/api/app/services/github_service.py:694-736 | on success the five steps say whether a push and a cleanup were asked for, and the directory is reported unless removed; on failure nothing is reported |
| GitHub.WorkflowTracksTempDirectory | apps/api/app/services/github_service.py:350-353 | a directory the clone created stays recorded for cleanup unless the workflow removed it; nothing else is recorded |
| GitHub.GitHubService.constructor | apps/api/app/services/github_service.py:41-50 | the service starts with its configuration and no recorded directories |
| GitHub.GitHubService.CloneRepository | apps/api/app/services/github_service.py:321-401 | the clone's outcome, and the fresh directory recorded when one was created |
| GitHub.GitHubService.CleanupTempDirectories | apps/api/app/services/github_service.py:74-85 | every recorded directory is forgotten |
| GitHub.GitHubService.ForkAndModify | apps/api/app/services/github_service.py:597-745 | the workflow's result and the new list of recorded directories |
| RepositoryInfoModel.PostInit | apps/api/app/models/github_config.py:45-54 | owner, name and branch are untouched, and afterwards the full name and the three URLs are all non-empty |
| RepositoryInfoModel.PostInitKeepsGivenFields | apps/api/app/models/github_config.py:47-54 | a field already holding a non-empty text keeps it |
| RepositoryInfoModel.PostInitDerivesMissingFields | apps/api/app/models/github_config.py:47-54 | an empty field gets the full name, web URL, clone URL or SSH URL derived from owner and name |
| RepositoryInfoModel.PostInitIdempotent | apps/api/app/models/github_config.py:45-54 | running the defaulting twice is running it once |
| RepositoryInfoModel.FromOwnerAndName | apps/api/app/models/github_config.py:35-54 | a repository built from owner and name alone has all four derived fields and the given branch |
| RepositoryInfoModel.RepositoryInfo.constructor | apps/api/app/models/github_config.py:35-54 | construction stores the fields, then applies `model_post_init` |
| RepositoryInfoModel.RepositoryInfo.ModelPostInit | apps/api/app/models/github_config.py:45-54 | the fields become the defaulting of the old fields |
| Tweet.ShortDescription | apps/api/app/services/twitter_service.py:85-90 | a description of at most 200 characters is kept; a longer one becomes its first 197 characters and "...", so at most 200 |
| Tweet.Parts | apps/api/app/services/twitter_service.py:76-97 | three parts, or four when there is a description |
| Tweet.GenerateRepositoryTweet | apps/api/app/services/twitter_service.py:67-115 | the method returns the tweet the specification builds |
| Tweet.AuthorAtIsDoubled | apps/api/app/services/twitter_service.py:79-80 | an author written with a leading "@" appears as "@@" |
| Tweet.BuiltLayout | apps/api/app/services/twitter_service.py:76-99 | the header, the shortened description when there is one, then the hashtags and the URL, each after a blank line |
| Tweet.TweetIsBuiltOrFallback | apps/api/app/services/twitter_service.py:101-115 | a tweet of at most 280 characters is returned as built; a longer one without a description falls back to the fixed text |
| Tweet.TweetFrame | apps/api/app/services/twitter_service.py:101-110 | any tweet that is not the fallback starts with the header and ends with the hashtags and the URL |
| Tweet.TrimmedTweetFits | apps/api/app/services/twitter_service.py:102-108 | when there is room for three characters of description, the trimmed tweet is exactly 272 characters |
| Tweet.NegativeCutOvershoots | apps/api/app/services/twitter_service.py:101-108 | with 0 to 2 characters of room, the negative slice bound keeps almost the whole description and the tweet stays at 272 characters plus the description, over 280 |
| Tweet.NegativeCutLength | apps/api/app/services/twitter_service.py:101-108 | with less than 3 characters of room but header, hashtags and URL within 280: exactly 272 plus the description's length when the negative slice keeps some of it, otherwise the other parts plus 5; so the tweet fits exactly when such a description has at most 8 characters, or the emptied cut has at least -5 characters of room |
| Tweet.LongHeaderOrUrlExceeds | apps/api/app/services/twitter_service.py:102-108 | a header, hashtags and URL that already pass 280 characters keep the tweet over the limit: only the description is cut |
| MarkdownImages.RawPath | apps/api/app/services/simple_markdown_to_image.py:136 | the rewritten URL points into `raw.githubusercontent.com` |
| MarkdownImages.Rewrite | apps/api/app/services/simple_markdown_to_image.py:123-164 | plain text and absolute URLs are kept verbatim |
| MarkdownImages.ProcessMarkdownImages | apps/api/app/services/simple_markdown_to_image.py:105-110 | without an owner or a name the content is returned unchanged |
| MarkdownImages.RelativeUrlResolved | apps/api/app/services/simple_markdown_to_image.py:123-139 | a relative image URL, with or without a leading `./`, points into the repository's tree at the branch |
| MarkdownImages.OneDotSlashRemoved | apps/api/app/services/simple_markdown_to_image.py:131-134 | only one leading `./` is removed |
| MarkdownImages.HtmlImageKeepsAttributes | apps/api/app/services/simple_markdown_to_image.py:147-164 | an HTML image keeps the text around `src`, and its new URL is double-quoted |
| MarkdownImages.RewriteIdempotent | apps/api/app/services/simple_markdown_to_image.py:123-164 | a rewritten URL is absolute, so rewriting again changes nothing |
| MarkdownImages.RefDefinition | apps/api/app/services/simple_markdown_to_image.py:61-66 | a definition line yields a non-empty reference name without `]` |
| MarkdownImages.DefinitionIn | apps/api/app/services/simple_markdown_to_image.py:62-65 | a matched name is non-empty and holds no `]` |
| MarkdownImages.Definitions | apps/api/app/services/simple_markdown_to_image.py:61 | one entry per line |
| MarkdownImages.CollectReferences | apps/api/app/services/simple_markdown_to_image.py:61-66 | the loop fills the map the specification gives for the content's lines |
| MarkdownImages.Record | apps/api/app/services/simple_markdown_to_image.py:66 | a matching line sets its name's URL |
| MarkdownImages.DefinitionAt | apps/api/app/services/simple_markdown_to_image.py:61-62 | the i-th definition is what the i-th line says |
| MarkdownImages.ReferenceDefined | apps/api/app/services/simple_markdown_to_image.py:61-66 | a name has a reference exactly when some line defines it |
| MarkdownImages.LastDefinitionWins | apps/api/app/services/simple_markdown_to_image.py:66 | the last line that defines a name decides its URL |
| MarkdownImages.RefImageResolution | apps/api/app/services/simple_markdown_to_image.py:72-77 | an image with an undefined reference is kept verbatim; a defined one becomes an inline image of the last definition's URL |
| MarkdownImages.FixPiece | apps/api/app/services/simple_markdown_to_image.py:72-95 | plain text and an image with an undefined reference are kept verbatim; a defined reference starts the piece with the inline image of its URL, and a linked image keeps its `[link]` after it; with the reference undefined, a linked image is wrapped in the link's URL when the link is defined and loses its `[link]` when not |
| MarkdownImages.FixAll | apps/api/app/services/simple_markdown_to_image.py:80-97 | a document whose pieces are all plain text or images with undefined references is returned unchanged |
| MarkdownImages.FixGitHubShields | apps/api/app/services/simple_markdown_to_image.py:49-102 | with the references read from the document itself, a document with nothing to resolve, and in particular a document of plain text, is returned unchanged |
| ImageCropper.OutputPath | apps/api/app/services/image_cropper.py:28-29 | the given output path, or the input path when none is given |
| ImageCropper.SquareBoxFits | apps/api/app/services/image_cropper.py:37-51 | the crop of `crop_to_square` lies within the picture and is a square of the shorter side |
| ImageCropper.SquareBoxCentred | apps/api/app/services/image_cropper.py:38-44 | a wide picture is cut in the middle: the columns dropped left and right differ by at most one |
| ImageCropper.SquareBoxKeepsTop | apps/api/app/services/image_cropper.py:45-51 | a picture at least as tall as wide is cut at the top-left corner |
| ImageCropper.CropToSquareOutput | apps/api/app/services/image_cropper.py:13-76 | saved exactly when the picture opens and the size is positive, at the output path, as a `size` square, resized exactly when the square's side is not `size` |
| ImageCropper.CropToSquare | apps/api/app/services/image_cropper.py:13-76 | a picture that does not open is not saved; one that opens is saved when the size is positive; what is saved is a square at the output path, of `size` by `size` when it was resized |
| ImageCropper.TopSquareBoxFits | apps/api/app/services/image_cropper.py:104-112 | the crop of `crop_to_square_from_top` starts at the top-left, is a square of the shorter side and fits |
| ImageCropper.SquareBoxesAgreeUnlessWide | apps/api/app/services/image_cropper.py:37-51 | the two square crops coincide exactly when the picture is at most one pixel wider than tall |
| ImageCropper.FromTopSavesSameSize | apps/api/app/services/image_cropper.py:79-139 | `crop_to_square_from_top` saves the same outcome as `crop_to_square` |
| ImageCropper.CropToSquareFromTop | apps/api/app/services/image_cropper.py:79-139 | the same as `crop_to_square`: not saved when the picture does not open, saved when the size is positive, always a square at the output path, of `size` by `size` when resized |
| ImageCropper.TooShortRefused | apps/api/app/services/image_cropper.py:167-170 | a picture no taller than `top_crop` is refused |
| ImageCropper.CropTopAndCropToSize | apps/api/app/services/image_cropper.py:142-209 | a saved picture opened, was taller than `top_crop`, was not resized, went to the output path, and is at most the target size and at most what was left below the dropped rows |
| ImageCropper.CropTopOutput | apps/api/app/services/image_cropper.py:142-209 | otherwise the picture saved at the output path has the target size, cut down to what is left below the dropped rows |
| ImageCropper.CropTopBoxesFit | apps/api/app/services/image_cropper.py:173-191 | both crops lie within what they cut from |
| RepoUtils.RemoveUnsafe | apps/api/app/utils/repo_utils.py:18 | `urlsplit` deletes every tab, carriage return and newline |
| RepoUtils.UrlSplit | apps/api/app/utils/repo_utils.py:18 | `urlsplit`: the only error is "Invalid IPv6 URL"; a split has no parameters, a network location with both brackets or neither and no `/`, `?` or `#`, a path without `?` or `#`, and a query without `#` |
| RepoUtils.SplitNetloc | apps/api/app/utils/repo_utils.py:18 | the network location is the text up to the first `/`, `?` or `#`, refused with "Invalid IPv6 URL" when it holds only one of `[` and `]` |
| RepoUtils.SplitFragmentAndQuery | apps/api/app/utils/repo_utils.py:18 | never fails and keeps scheme and network location; the fragment follows the first `#` and the query the first `?` before it |
| RepoUtils.SplitParams | apps/api/app/utils/repo_utils.py:18 | the path is left whole, or is the new path, `;` and the parameters |
| RepoUtils.UrlParse | apps/api/app/utils/repo_utils.py:18 | `urlparse` fails exactly when `urlsplit` does, with its error; otherwise it keeps scheme, network location, query and fragment, and either keeps the path or splits it at a `;` into path and parameters |
| RepoUtils.StripGitSuffix | apps/api/app/utils/repo_utils.py:14-15 | one trailing `.git` is removed, and a URL without it is kept |
| RepoUtils.RepoInfoFromUrl | apps/api/app/utils/repo_utils.py:17-34 | every failure is reported as an invalid GitHub URL |
| RepoUtils.RepoInfoFromPath | apps/api/app/utils/repo_utils.py:19-32 | owner and name are slash-free, the owner non-empty, the full name is `owner/name` and the clone URL is on github.com with `.git` |
| RepoUtils.GitSuffixOnce | apps/api/app/utils/repo_utils.py:14-15 | exactly one `.git` is removed before parsing |
| RepoUtils.HttpsUrlIsSafe | apps/api/app/utils/repo_utils.py:18 | an ordinary https URL passes `urlsplit`'s cleaning unchanged |
| RepoUtils.UrlSplitWithNetloc | apps/api/app/utils/repo_utils.py:18 | a URL with a scheme and `//` is split at its network location |
| RepoUtils.SplitHttps | apps/api/app/utils/repo_utils.py:18 | `urlsplit` of `https://host/path` gives the scheme, the host and the path, for an ASCII host without brackets or delimiters |
| RepoUtils.UrlParseNoParams | apps/api/app/utils/repo_utils.py:18 | without a `;` in the path, `urlparse` is `urlsplit` |
| RepoUtils.ParseHttps | apps/api/app/utils/repo_utils.py:18 | `urlparse` of `https://host/path` gives the scheme, the host and the path, for an ASCII host without brackets or delimiters |
| RepoUtils.GitSuffixOfLastSegment | apps/api/app/utils/repo_utils.py:14 | a URL ends in `.git` only if its last segment does |
| RepoUtils.TwoSegmentPath | apps/api/app/utils/repo_utils.py:19-32 | a two-segment path gives its owner, name, full name and clone URL |
| RepoUtils.OneSegmentPath | apps/api/app/utils/repo_utils.py:19-22 | a one-segment path is refused with "Invalid GitHub URL format" |
| RepoUtils.ExtractFromAnyHost | apps/api/app/utils/repo_utils.py:10-34 | any plain ASCII host, with or without `.git`, gives the owner and name of its path, and the clone URL is always on github.com |
| RepoUtils.ExtractRepoInfo | apps/api/app/utils/repo_utils.py:10-34 | an extracted owner is non-empty, owner and name hold no `/`, the full name is `owner/name` and the clone URL is on github.com with `.git`; every error starts with "Invalid GitHub URL: " |
| RepoUtils.OneSegmentRefused | apps/api/app/utils/repo_utils.py:10-34 | a path with a single segment is refused with "Invalid GitHub URL format", whatever the plain ASCII host |
| PyStrings.Strip | apps/api/app/services/github_service.py:297 | `strip()` leaves no whitespace at either end |
| PyStrings.RStripChar | apps/api/app/services/github_service.py:297 | `rstrip(c)` removes exactly the trailing run of `c` |
| PyStrings.Split | apps/api/app/services/github_service.py:310 | `split(c)` gives at least one part, none holding `c` |
| PyStrings.JoinSplit | apps/api/app/services/github_service.py:310 | joining the parts of a split with the separator gives back the text |
| PyStrings.SplitLast | apps/api/app/services/database.py:136 | the last part of a split is everything after the last separator |
| PyStrings.Capitalize | apps/api/app/services/document_generation.py:305 | `capitalize()` upper-cases the first character and lower-cases the rest |
| PyStrings.LowerOfCapitalize | apps/api/app/services/document_generation.py:347 | lower-casing forgets capitalization |
| PyStrings.LowerOfUpper | apps/api/app/services/document_generation.py:347 | lower-casing forgets upper-casing |
| PyStrings.PyPrefix | apps/api/app/services/gemini_ai.py:374 | Python's `s[:k]`: a prefix of `s`, of length `k` clamped to the string, counted from the end for a negative `k` |
| PyStrings.Thousands | apps/api/app/services/gemini_ai.py:320 | `f"{n:,}"` is never empty |

## Left out

- Model calls, Supabase, the GitHub API, git, the file system, PIL, tweepy and `requests` are not modelled. Each call is an input outcome: a model answer or exception, a query's rows, a fork, clone, commit or push result, a picture's size. Concurrency (`asyncio.gather`, `asyncio.to_thread`) is not modelled. The results are mapped back by position, as the code does.
- Timestamps, `uuid4` identifiers and `processing_time` are parameters or left out. The float token estimate and the averaged statistics are left out.
- `int(max * 0.1)` is modelled as `max / 10`. The two agree for every chunk size the service uses.
- Chunking.ChunkText requires `max >= 1` unless the text is empty. With a non-positive size and a non-empty text the source loop never advances.
- Chunking.CutPoint: for `max < 10` the look-back window is empty, so a non-final chunk is exactly `max` long rather than longer than `max - max/10`. The contract states `>=` in general and `>` from `max >= 10` on.
- Summary: the system prompt lookup at the start of `generate_repository_summary` and the rendering of the repository statistics and tree are inputs (`systemPrompt`, `repositoryLines`, `tree`). The prompt texts are kept verbatim where the properties read them.
- Summary.GenerateShortDescription: the shortening of the summary sent to the model and the prompt wording are not stated. Only the post-processing of the reply and the failure answers are.
- TaskRoutes.ToView: pydantic's validation messages are not reproduced. An unknown status gives the `Enum` wording. An out-of-range progress gives a fixed message of the model's own.
- TaskRegistry: a step that raises is an input outcome carrying its `str(e)`. Which persistence call actually fails, given the mismatches between `database.py` and the pydantic models, is not modelled.
- `batch_process_repositories_task`, `post_repository_tweets_task` and `scrape_website_and_extract_repositories_task` are imported by the routers but not defined in `background_tasks.py`; they are not part of this model.
- DatabaseService.NeedingProcessing: modelled with the corrected orphaned-documents query (see Findings). As written, the method raises "Database error getting repositories needing processing: …" when stage 4 runs and a document refers to a missing analysis; `NeedingProcessingAsWritten` models that composition and `NeedingProcessingAsWrittenAgrees` relates the two.
- DatabaseService.AddAiStage: reaches stage 4 through `AddDocsStage`, so it returns the corrected list where the source raises on a dangling document reference.
- DatabaseService.AddDocsStage: reaches stage 4 through `AddOrphanedStage`, with the same substitution.
- DatabaseService.AddOrphanedStage: calls the corrected `Orphaned` where the source's call at database.py:918-920 raises on a dangling document reference.
- DatabaseService.NeedingProcessingProperties: it does not claim that every qualifying repository is listed when fewer than `limit` are returned. A repository needing documents can already be listed as needing AI texts, and the category lists are cut before the merge, so the merged list can stop short.
- DatabaseService: the statistics, document and prompt queries of `database.py` are left out, as are JSON decoding of `analysis_data` and the conversion of rows to pydantic models. `RepositoryInsert` fields other than `repo_url` and `processing_status` are left out of the upsert rows.
- GitHub: `fork_name` and `organization` are passed through to the fork and not modelled. The token rewrite of the push URL, git's configuration writes and the health check are left out. A `target_dir` given by the caller is not modelled: the workflow always clones into a fresh temporary directory.
- GitHub.GitHubService.CleanupTempDirectories: `shutil.rmtree` and its logged failures are left out; the record of directories is emptied.
- GitHub: a failed `rmtree` in the cleanup step is an input (`removed`). The workflow then succeeds and reports the directory.
- RepositoryInfoModel: pydantic's `HttpUrl` normalisation of `url` is not modelled; the URL is kept as text.
- Tweet: the comment at twitter_service.py:101 promises a tweet under 280 characters. The model proves this only when there is room for three characters of description (`TrimmedTweetFits`). With less room, but header, hashtags and URL within 280 characters, `NegativeCutLength` gives the exact length: with 0 to 2 characters of room the tweet stays over 280 (`NegativeCutOvershoots`), and with -10 to -1 it fits or not depending on the description's length and the room, as that lemma states. When the header, hashtags and URL alone pass 280 the tweet stays over too (`LongHeaderOrUrlExceeds`). A corrected trim is not modelled, because no single correction is evident from the code.
- Tweet: `repo_info` values are missing, `None` or text. Other value types are left out. `None` for the name is rendered as `None`, as Python's f-string does.
- MarkdownImages: the regular-expression scanning (`re.sub`) is not modelled. A document is given as the sequence of its pieces: plain text and the matches the patterns find. Each match is rewritten on its own. The HTML conversion and the browser rendering are left out. The default-branch lookup is an input.
- ImageCropper: pixels, resampling and saving are left out. A picture that cannot be opened is `None`. A final crop with a zero side is modelled as saved, although PIL may refuse to write an empty image. Whether the saved file exists afterwards is taken to be true.
- RepoUtils: only the parts of `urlparse` that decide the path are modelled: scheme, network location, parameters, query and fragment.
- RepoUtils.UrlSplit: `_checknetloc` is not modelled. For a non-ASCII network location whose NFKC form holds '/', '?', '#', '@' or ':' (such as "\u2100"), Python raises "netloc … contains invalid characters under NFKC normalization", and the model splits instead. `_check_bracketed_netloc` (the IPv6 or IPvFuture validation of a bracketed host) is not modelled either.
- RepoUtils.SplitHttps: stated for ASCII hosts without brackets (`PlainHost`), where neither check applies. Non-ASCII hosts are not covered.
- RepoUtils.ParseHttps: ASCII hosts without brackets only, as for `SplitHttps`.
- RepoUtils.ExtractFromAnyHost: "any host" means any ASCII host without brackets or delimiters. Python refuses some non-ASCII hosts, such as "\u2100".
- RepoUtils.OneSegmentRefused: ASCII hosts only. For an NFKC-invalid host Python refuses with the netloc message instead.
- PyStrings.Lower, PyStrings.Upper and PyStrings.Capitalize map case on ASCII letters only. Python maps every cased letter, and some mappings change the length: `'ß'.capitalize()` is `'Ss'` and `'ß'.upper()` is `'SS'`.
- PyStrings.Capitalize: ASCII only, so `|r| == |s|` is a property of the model, not of Python for such letters.
- PyStrings.LowerOfCapitalize: holds for the ASCII mapping. In Python it fails for 'ß', because `'ß'.capitalize().lower()` is `'ss'`.
- PyStrings.LowerOfUpper: holds for the ASCII mapping. In Python it fails for 'ß', because `'ß'.upper().lower()` is `'ss'`.
- Documents.TitleShape: the equal length and the "same up to case" claim rest on ASCII case mapping. They hold for the predefined document types, which are ASCII, and not for types with letters such as 'ß'.
- Documents.FormatWord: "unchanged up to case" holds only for ASCII case mapping.
- Documents.LowerDocumentName: ASCII lowering only. Python lowers the capitalized 'Ss' of 'ß' to 'ss', not back to 'ß'.
- Documents.DescriptionOfOtherType: equality with the lowered type holds only for ASCII case mapping.
- Documents.PromptOfOtherType: the same ASCII-only lowering.
- Documents.GenerateDocument: the context passed to the model is not modelled (`ModelContents` takes it as a parameter). The reply and the storage outcome are inputs.

## Findings

| source | as written | input that shows it | evidently intended | confidence | as-written member | corrected member |
|---|---|---|---|---|---|---|
| apps/api/app/services/database.py:1982-1987 | `get_repositories_with_orphaned_documents` calls `logger.warning`, but `logger` is only a local name inside another method (line 1043). The NameError is caught and re-raised as a database error. | one document whose `repository_analysis_id` has no analysis row: document ids `["a1"]` and no analyses (`OrphanedDanglingExample`; `OrphanedFailsIffDangling` shows it fails exactly on such input; `NeedingProcessingDanglingExample` shows `get_repositories_needing_processing` failing on it too) | log the warning and return the repositories whose documented analysis lacks a tree structure | not executed | DatabaseService.OrphanedAsWritten | DatabaseService.Orphaned |
