/** The fan-out/fan-in layer of the AI summary service
    (apps/api/app/services/gemini_ai.py): every chunk of the repository dump
    is summarised on its own, a failed chunk becomes a placeholder, and the
    chunk summaries are aggregated by one final model call. The model calls
    are inputs: functions from the prompt sent to the outcome received. */
module Summary {
  import opened Wrappers
  import opened PyStrings
  import Chunking

  /** What one model call gives back: its text, or the exception it raised. */
  datatype Outcome = Answer(text: string) | Raised(error: string)

  /** Characters per chunk of the repository dump. */
  const ChunkSize: nat := 1200000
  /** Cap on the length of the aggregation prompt. */
  const MaxSummaryLength: nat := 1600000

  /** The dictionary `generate_chunk_summary` returns. */
  datatype ChunkSummary = ChunkSummary(
    chunkIndex: nat, totalChunks: nat, summary: string,
    characterCount: nat, success: bool, error: Option<string>)

  const ChunkInstructions: string :=
    "The repository overview, statistics, and structure are provided for context.\n"
    + "Focus on the key components, functionality, and structure in this specific chunk.\n"
    + "Keep your summary comprehensive but concise, and relate it to the overall repository structure when relevant.\n\n"

  /** The prompt sent for chunk `index` (0-based) of `total`. */
  function ChunkPrompt(systemPrompt: string, context: string, chunk: string, index: nat, total: nat): string
  {
    var number := NatToString(index + 1);
    var of := NatToString(total);
    systemPrompt + "\n\nYou are analyzing chunk " + number + " of " + of + " from a repository. \n"
    + ChunkInstructions + context + "\nCHUNK " + number + "/" + of + " CONTENT:\n" + chunk
  }

  /** The summary that stands in for a chunk whose model call raised. */
  function Placeholder(index: nat, error: string, size: nat): string
  {
    "Chunk " + NatToString(index + 1) + " processing failed (" + error + "). This chunk contained "
    + Thousands(size) + " characters of repository content that could not be analyzed automatically."
  }

  /** `generate_chunk_summary`: an exception from the model call never
      escapes; it is recorded as a failed chunk with a placeholder summary. */
  function GenerateChunkSummary(chunk: string, index: nat, total: nat, context: string,
                                systemPrompt: string, oracle: string -> Outcome): (c: ChunkSummary)
    ensures c.chunkIndex == index + 1 && c.totalChunks == total && c.characterCount == |chunk|
    ensures c.success <==> oracle(ChunkPrompt(systemPrompt, context, chunk, index, total)).Answer?
    ensures c.success ==>
              c.error == None && c.summary == oracle(ChunkPrompt(systemPrompt, context, chunk, index, total)).text
    ensures !c.success ==>
              && c.error == Some(oracle(ChunkPrompt(systemPrompt, context, chunk, index, total)).error)
              && c.summary == Placeholder(index, c.error.value, |chunk|)
  {
    match oracle(ChunkPrompt(systemPrompt, context, chunk, index, total))
    case Answer(text) => ChunkSummary(index + 1, total, text, |chunk|, true, None)
    case Raised(e) => ChunkSummary(index + 1, total, Placeholder(index, e, |chunk|), |chunk|, false, Some(e))
  }

  /** The chunk summaries, in chunk order (what the gathered calls give back). */
  function SummariseChunks(chunks: seq<string>, context: string, systemPrompt: string,
                           oracle: string -> Outcome): (cs: seq<ChunkSummary>)
    ensures |cs| == |chunks|
    ensures forall i :: 0 <= i < |chunks| ==>
      cs[i] == GenerateChunkSummary(chunks[i], i, |chunks|, context, systemPrompt, oracle)
  {
    seq(|chunks|, i requires 0 <= i < |chunks| =>
      GenerateChunkSummary(chunks[i], i, |chunks|, context, systemPrompt, oracle))
  }

  function Successful(cs: seq<ChunkSummary>): (r: seq<ChunkSummary>)
    ensures forall c :: c in r ==> c in cs && c.success
  {
    if cs == [] then []
    else (if cs[0].success then [cs[0]] else []) + Successful(cs[1..])
  }

  function Failed(cs: seq<ChunkSummary>): (r: seq<ChunkSummary>)
    ensures forall c :: c in r ==> c in cs && !c.success
  {
    if cs == [] then []
    else (if cs[0].success then [] else [cs[0]]) + Failed(cs[1..])
  }

  /** Every chunk is either successful or failed, never both. */
  lemma SuccessfulPlusFailed(cs: seq<ChunkSummary>)
    ensures |Successful(cs)| + |Failed(cs)| == |cs|
    ensures Failed(cs) == [] <==> forall i :: 0 <= i < |cs| ==> cs[i].success
    ensures |Failed(cs)| == |cs| <==> forall i :: 0 <= i < |cs| ==> !cs[i].success
  {
    SplitCounts(cs);
    NoneFailed(cs);
    AllFailedCount(cs);
  }

  lemma {:induction false} SplitCounts(cs: seq<ChunkSummary>)
    ensures |Successful(cs)| + |Failed(cs)| == |cs|
  {
    if cs != [] {
      SplitCounts(cs[1..]);
    }
  }

  lemma {:induction false} NoneFailed(cs: seq<ChunkSummary>)
    ensures Failed(cs) == [] <==> forall i :: 0 <= i < |cs| ==> cs[i].success
  {
    if cs != [] {
      NoneFailed(cs[1..]);
      assert forall i :: 1 <= i < |cs| ==> cs[i] == cs[1..][i - 1];
    }
  }

  lemma {:induction false} AllFailedCount(cs: seq<ChunkSummary>)
    ensures |Failed(cs)| <= |cs|
    ensures |Failed(cs)| == |cs| <==> forall i :: 0 <= i < |cs| ==> !cs[i].success
  {
    if cs != [] {
      AllFailedCount(cs[1..]);
      assert forall i :: 1 <= i < |cs| ==> cs[i] == cs[1..][i - 1];
    }
  }

  /** The header line of one chunk in the combined summaries. */
  function ChunkSection(c: ChunkSummary): string
  {
    "--- Chunk " + NatToString(c.chunkIndex) + "/" + NatToString(c.totalChunks) + " ("
    + Thousands(c.characterCount) + " chars) ---\n" + c.summary
  }

  function CombinedSummaries(cs: seq<ChunkSummary>): string
  {
    Join(seq(|cs|, i requires 0 <= i < |cs| => ChunkSection(cs[i])), "\n\n")
  }

  function ProcessingStatus(chunks: nat, successful: nat, failed: nat): string
  {
    if failed > 0 then
      "\n\nIMPORTANT: " + NatToString(failed) + " out of " + NatToString(chunks)
      + " chunks failed to process due to errors. The analysis below is based on "
      + NatToString(successful) + " successfully processed chunks. Please note this limitation in your summary."
    else "\n\nAll " + NatToString(chunks) + " chunks were successfully processed."
  }

  const FinalInstructions: string :=
    "Below are the individual summaries for each chunk. Your task is to create a unified, comprehensive summary that:\n"
    + "1. Captures the overall purpose and functionality of the repository\n"
    + "2. Highlights the main components and their relationships\n"
    + "3. Describes the technology stack and architecture\n"
    + "4. Notes any important patterns, configurations, or notable features\n"
    + "5. Provides a clear understanding of what this codebase does and how it's structured\n"
    + "6. If some chunks failed to process, acknowledge this limitation but provide the best analysis possible from available data\n\n"
    + "Repository Information:\n"

  /** The aggregation prompt before the length cap. `repositoryLines` are the
      six "- ..." lines rendered from the repository's statistics and `tree`
      its directory tree. */
  function FinalPrompt(repositoryLines: string, tree: string, cs: seq<ChunkSummary>): string
  {
    var n := |cs|;
    var ok := |Successful(cs)|;
    var failed := |Failed(cs)|;
    "You are creating a comprehensive summary of a repository that was analyzed in " + NatToString(n) + " chunks. \n\n"
    + FinalInstructions + repositoryLines + "\n"
    + "- Chunks analyzed: " + NatToString(n) + "\n"
    + "- Successful chunks: " + NatToString(ok) + "\n"
    + "- Failed chunks: " + NatToString(failed) + "\n\n"
    + "Repository Structure:\n" + tree + ProcessingStatus(n, ok, failed)
    + "\n\nIndividual Chunk Summaries:\n" + CombinedSummaries(cs)
  }

  datatype ProcessingStats = ProcessingStats(
    totalChunks: nat, successfulChunks: nat, failedChunks: nat,
    totalCharacters: nat, finalPromptLength: nat)

  /** The dictionary `generate_repository_summary` returns; on failure the
      counts are zero, the summaries empty and the statistics `{}` (`None`). */
  datatype RepositorySummary = RepositorySummary(
    success: bool, error: Option<string>, summary: Option<string>,
    chunksProcessed: nat, successfulChunks: nat, failedChunks: nat,
    chunkSummaries: seq<ChunkSummary>, processingStats: Option<ProcessingStats>)

  function SummaryFailure(error: string): RepositorySummary
  {
    RepositorySummary(false, Some(error), None, 0, 0, 0, [], None)
  }

  /** A run of `generate_repository_summary`: its result and the contents of
      every aggregation call it made, in order. */
  datatype Run = Run(result: RepositorySummary, aggregationCalls: seq<string>)

  function GenerateRepositorySummary(
    fullText: string, context: string, systemPrompt: string, repositoryLines: string, tree: string,
    chunkOracle: string -> Outcome, aggregationOracle: string -> Outcome): (run: Run)
    ensures |run.aggregationCalls| <= 1
    ensures |run.aggregationCalls| == 1 ==> systemPrompt + "\n\n" <= run.aggregationCalls[0]
    ensures run.result.success <==> run.result.error.None?
    ensures run.result.success <==> run.result.summary.Some?
    ensures !run.result.success ==> run.result.chunkSummaries == [] && run.result.processingStats == None
  {
    var chunks := Chunking.ChunkSpec(fullText, ChunkSize);
    var cs := SummariseChunks(chunks, context, systemPrompt, chunkOracle);
    Aggregate(cs, |fullText|, systemPrompt, FinalPrompt(repositoryLines, tree, cs), aggregationOracle)
  }

  /** The fan-in half of `generate_repository_summary`, once the chunk
      summaries `cs` are in and the uncapped aggregation prompt is built. */
  function Aggregate(cs: seq<ChunkSummary>, totalCharacters: nat, systemPrompt: string,
                     finalPrompt: string, aggregationOracle: string -> Outcome): (run: Run)
    ensures |run.aggregationCalls| <= 1
    ensures |run.aggregationCalls| == 1 ==> systemPrompt + "\n\n" <= run.aggregationCalls[0]
    ensures run.result.success <==> run.result.error.None?
    ensures run.result.success <==> run.result.summary.Some?
    ensures !run.result.success ==> run.result.chunkSummaries == [] && run.result.processingStats == None
  {
    var successful := Successful(cs);
    var failed := Failed(cs);
    if failed != [] && |failed| == |cs| then
      Run(SummaryFailure("All repository chunks failed to process"), [])
    else
      var prompt := PyPrefix(finalPrompt, MaxSummaryLength);
      var contents := systemPrompt + "\n\n" + prompt;
      match aggregationOracle(contents)
      case Raised(e) => Run(SummaryFailure(e), [contents])
      case Answer(text) =>
        Run(RepositorySummary(true, None, Some(text), |cs|, |successful|, |failed|, cs,
                              Some(ProcessingStats(|cs|, |successful|, |failed|, totalCharacters, |prompt|))),
            [contents])
  }

  /** Some chunk of the text gets an answer from the model. */
  ghost predicate SomeChunkAnswered(fullText: string, context: string, systemPrompt: string,
                                    chunkOracle: string -> Outcome)
  {
    var chunks := Chunking.ChunkSpec(fullText, ChunkSize);
    exists i :: 0 <= i < |chunks| &&
      chunkOracle(ChunkPrompt(systemPrompt, context, chunks[i], i, |chunks|)).Answer?
  }

  /** Every chunk summary reports a failure. */
  predicate AllFailed(cs: seq<ChunkSummary>)
  {
    cs != [] && forall i :: 0 <= i < |cs| ==> !cs[i].success
  }

  /** The fan-in step: when every chunk failed there is no aggregation call
      and the run fails; otherwise there is exactly one, on the system prompt
      and at most `MaxSummaryLength` characters of the final prompt, and the
      run succeeds exactly when it answers, with counts that add up. */
  lemma AggregateRun(cs: seq<ChunkSummary>, totalCharacters: nat, systemPrompt: string,
                     finalPrompt: string, aggregationOracle: string -> Outcome)
    ensures var run := Aggregate(cs, totalCharacters, systemPrompt, finalPrompt, aggregationOracle);
      && (|run.aggregationCalls| == 0 <==> AllFailed(cs))
      && (AllFailed(cs) ==> run.result == SummaryFailure("All repository chunks failed to process"))
      && (!AllFailed(cs) ==>
            && |run.aggregationCalls| == 1
            && run.aggregationCalls[0] == systemPrompt + "\n\n" + finalPrompt[..Min(|finalPrompt|, MaxSummaryLength)]
            && systemPrompt + "\n\n" <= run.aggregationCalls[0]
            && |run.aggregationCalls[0]| <= |systemPrompt| + 2 + MaxSummaryLength
            && (run.result.success <==> aggregationOracle(run.aggregationCalls[0]).Answer?))
      && (run.result.success ==>
            && run.result.chunksProcessed == |cs|
            && run.result.successfulChunks + run.result.failedChunks == |cs|
            && (cs != [] ==> run.result.successfulChunks >= 1)
            && run.result.chunkSummaries == cs
            && run.result.processingStats.Some?
            && run.result.processingStats.value.totalCharacters == totalCharacters
            && run.result.processingStats.value.finalPromptLength <= MaxSummaryLength)
      && (!run.result.success ==>
            && run.result.error.Some? && run.result.chunksProcessed == 0
            && run.result.successfulChunks == 0 && run.result.failedChunks == 0
            && run.result.chunkSummaries == [] && run.result.processingStats == None)
  {
    AggregateCalls(cs, totalCharacters, systemPrompt, finalPrompt, aggregationOracle);
    AggregateResult(cs, totalCharacters, systemPrompt, finalPrompt, aggregationOracle);
  }

  /** The aggregation calls of the fan-in step. */
  lemma AggregateCalls(cs: seq<ChunkSummary>, totalCharacters: nat, systemPrompt: string,
                       finalPrompt: string, aggregationOracle: string -> Outcome)
    ensures var run := Aggregate(cs, totalCharacters, systemPrompt, finalPrompt, aggregationOracle);
      && (|run.aggregationCalls| == 0 <==> AllFailed(cs))
      && (AllFailed(cs) ==> run.result == SummaryFailure("All repository chunks failed to process"))
      && (!AllFailed(cs) ==>
            && |run.aggregationCalls| == 1
            && run.aggregationCalls[0] == systemPrompt + "\n\n" + finalPrompt[..Min(|finalPrompt|, MaxSummaryLength)]
            && systemPrompt + "\n\n" <= run.aggregationCalls[0]
            && |run.aggregationCalls[0]| <= |systemPrompt| + 2 + MaxSummaryLength
            && (run.result.success <==> aggregationOracle(run.aggregationCalls[0]).Answer?))
  {
    AllFailedCount(cs);
  }

  /** The result of the fan-in step. */
  lemma AggregateResult(cs: seq<ChunkSummary>, totalCharacters: nat, systemPrompt: string,
                        finalPrompt: string, aggregationOracle: string -> Outcome)
    ensures var run := Aggregate(cs, totalCharacters, systemPrompt, finalPrompt, aggregationOracle);
      && (run.result.success ==>
            && run.result.chunksProcessed == |cs|
            && run.result.successfulChunks + run.result.failedChunks == |cs|
            && (cs != [] ==> run.result.successfulChunks >= 1)
            && run.result.chunkSummaries == cs
            && run.result.processingStats.Some?
            && run.result.processingStats.value.totalCharacters == totalCharacters
            && run.result.processingStats.value.finalPromptLength <= MaxSummaryLength)
      && (!run.result.success ==>
            && run.result.error.Some? && run.result.chunksProcessed == 0
            && run.result.successfulChunks == 0 && run.result.failedChunks == 0
            && run.result.chunkSummaries == [] && run.result.processingStats == None)
  {
    SplitCounts(cs);
    AllFailedCount(cs);
  }

  /** Every chunk failed exactly when no chunk's model call answered. */
  lemma AllFailedIff(chunks: seq<string>, context: string, systemPrompt: string, chunkOracle: string -> Outcome)
    requires |chunks| >= 1
    ensures AllFailed(SummariseChunks(chunks, context, systemPrompt, chunkOracle)) <==>
      !exists i :: 0 <= i < |chunks| && chunkOracle(ChunkPrompt(systemPrompt, context, chunks[i], i, |chunks|)).Answer?
  {
    var cs := SummariseChunks(chunks, context, systemPrompt, chunkOracle);
    forall i | 0 <= i < |chunks|
      ensures cs[i].success <==> chunkOracle(ChunkPrompt(systemPrompt, context, chunks[i], i, |chunks|)).Answer?
    {
    }
  }

  /** Every chunk of the text failed exactly when none of them answered. */
  lemma AllFailedWhenNoneAnswered(fullText: string, context: string, systemPrompt: string,
                                  chunkOracle: string -> Outcome)
    ensures AllFailed(SummariseChunks(Chunking.ChunkSpec(fullText, ChunkSize), context, systemPrompt, chunkOracle))
            <==> !SomeChunkAnswered(fullText, context, systemPrompt, chunkOracle)
  {
    var chunks := Chunking.ChunkSpec(fullText, ChunkSize);
    Chunking.ChunkSpecNonEmpty(fullText, ChunkSize);
    AllFailedIff(chunks, context, systemPrompt, chunkOracle);
  }

  function Min(a: int, b: int): int
  {
    if a <= b then a else b
  }

  /** When no chunk's model call answered, the run fails with the all-failed
      error and makes no aggregation call. */
  lemma NoAggregationWhenAllFailed(fullText: string, context: string, systemPrompt: string, repositoryLines: string,
                                   tree: string, chunkOracle: string -> Outcome, aggregationOracle: string -> Outcome)
    requires !SomeChunkAnswered(fullText, context, systemPrompt, chunkOracle)
    ensures var run := GenerateRepositorySummary(fullText, context, systemPrompt, repositoryLines, tree,
                                                 chunkOracle, aggregationOracle);
      run.aggregationCalls == [] && run.result == SummaryFailure("All repository chunks failed to process")
  {
    var cs := SummariseChunks(Chunking.ChunkSpec(fullText, ChunkSize), context, systemPrompt, chunkOracle);
    AllFailedWhenNoneAnswered(fullText, context, systemPrompt, chunkOracle);
    AggregateCalls(cs, |fullText|, systemPrompt, FinalPrompt(repositoryLines, tree, cs), aggregationOracle);
  }

  /** When some chunk's model call answered, exactly one aggregation call is
      made, on the system prompt and at most `MaxSummaryLength` characters of
      the final prompt, and the run succeeds exactly when that call answers. */
  lemma OneAggregationCall(fullText: string, context: string, systemPrompt: string, repositoryLines: string,
                           tree: string, chunkOracle: string -> Outcome, aggregationOracle: string -> Outcome)
    requires SomeChunkAnswered(fullText, context, systemPrompt, chunkOracle)
    ensures var run := GenerateRepositorySummary(fullText, context, systemPrompt, repositoryLines, tree,
                                                 chunkOracle, aggregationOracle);
      && |run.aggregationCalls| == 1
      && systemPrompt + "\n\n" <= run.aggregationCalls[0]
      && |run.aggregationCalls[0]| <= |systemPrompt| + 2 + MaxSummaryLength
      && (run.result.success <==> aggregationOracle(run.aggregationCalls[0]).Answer?)
  {
    var cs := SummariseChunks(Chunking.ChunkSpec(fullText, ChunkSize), context, systemPrompt, chunkOracle);
    AllFailedWhenNoneAnswered(fullText, context, systemPrompt, chunkOracle);
    AggregateCalls(cs, |fullText|, systemPrompt, FinalPrompt(repositoryLines, tree, cs), aggregationOracle);
  }

  /** On success the counts add up to the number of chunks, the chunk
      summaries come in chunk order with 1-based indices, and the statistics
      report the text's length and the capped prompt's length; on failure
      every count is zero and no chunk summary is reported. */
  lemma SummaryCounts(fullText: string, context: string, systemPrompt: string, repositoryLines: string,
                      tree: string, chunkOracle: string -> Outcome, aggregationOracle: string -> Outcome)
    ensures var r := GenerateRepositorySummary(fullText, context, systemPrompt, repositoryLines, tree,
                                               chunkOracle, aggregationOracle).result;
      var chunks := Chunking.ChunkSpec(fullText, ChunkSize);
      && (r.success ==>
            && r.chunksProcessed == |chunks| >= 1
            && r.successfulChunks + r.failedChunks == r.chunksProcessed
            && r.successfulChunks >= 1
            && |r.chunkSummaries| == |chunks|
            && (forall i :: 0 <= i < |chunks| ==>
                  r.chunkSummaries[i].chunkIndex == i + 1 && r.chunkSummaries[i].characterCount == |chunks[i]|)
            && r.processingStats.Some?
            && r.processingStats.value.totalCharacters == |fullText|
            && r.processingStats.value.finalPromptLength <= MaxSummaryLength)
      && (!r.success ==>
            r.error.Some? && r.chunksProcessed == 0 && r.successfulChunks == 0 && r.failedChunks == 0
            && r.chunkSummaries == [] && r.processingStats == None)
  {
    var chunks := Chunking.ChunkSpec(fullText, ChunkSize);
    Chunking.ChunkSpecNonEmpty(fullText, ChunkSize);
    var cs := SummariseChunks(chunks, context, systemPrompt, chunkOracle);
    AggregateResult(cs, |fullText|, systemPrompt, FinalPrompt(repositoryLines, tree, cs), aggregationOracle);
  }

  // Post-processing of the short description.

  /** Python's `s[1:-1]`. */
  function Inner(s: string): (r: string)
    ensures |s| >= 2 ==> r == s[1..|s| - 1]
    ensures |s| < 2 ==> r == []
  {
    if |s| >= 2 then s[1..|s| - 1] else []
  }

  predicate WrappedIn(s: string, q: char)
  {
    StartsWith(s, [q]) && EndsWith(s, [q])
  }

  /** Drop one pair of double or single quotes that wraps the whole text. */
  function Unquote(s: string): string
  {
    if WrappedIn(s, '"') || WrappedIn(s, '\'') then Inner(s) else s
  }

  /** Unquoting undoes wrapping a text in one pair of quotes, and leaves a
      text alone that does not start and end with the same quote. */
  lemma UnquoteWrapped(t: string, q: char)
    requires q == '"' || q == '\''
    ensures Unquote([q] + t + [q]) == t
    ensures !WrappedIn(t, '"') && !WrappedIn(t, '\'') ==> Unquote(t) == t
  {
    var s := [q] + t + [q];
    assert StartsWith(s, [q]) && EndsWith(s, [q]);
    assert s[1..|s| - 1] == t;
  }

  function Truncate(s: string, maxLength: int): string
  {
    if |s| > maxLength then PyPrefix(s, maxLength - 3) + "..." else s
  }

  /** What `generate_short_description` makes of the model's answer. */
  function CleanDescription(text: string, maxLength: int): (r: string)
    ensures |Unquote(Strip(text))| <= maxLength ==> r == Unquote(Strip(text))
    ensures maxLength >= 3 ==> |r| <= maxLength
    ensures |Unquote(Strip(text))| > maxLength >= 3 ==> EndsWith(r, "...")
  {
    Truncate(Unquote(Strip(text)), maxLength)
  }

  /** A description that fits is kept as cleaned; a longer one is cut to its
      first `maxLength - 3` characters plus "...", so for `maxLength >= 3` the
      result never exceeds `maxLength`. */
  lemma CleanDescriptionFits(text: string, maxLength: int)
    ensures var cleaned := Unquote(Strip(text));
      var r := CleanDescription(text, maxLength);
      && (|cleaned| <= maxLength ==> r == cleaned)
      && (|cleaned| > maxLength >= 3 ==> r == cleaned[..maxLength - 3] + "..." && |r| == maxLength)
      && (maxLength >= 3 ==> |r| <= maxLength)
  {
  }

  /** Below a maximum of 3 the cut can overshoot: a description longer than
      `maxLength` comes back longer still, since the negative slice keeps all
      but `3 - maxLength` characters before "..." is added. */
  lemma CleanDescriptionOvershoots(text: string, maxLength: int)
    requires 0 <= maxLength < 3 && |Unquote(Strip(text))| > maxLength
    ensures var cleaned := Unquote(Strip(text));
      var r := CleanDescription(text, maxLength);
      && |r| > maxLength
      && (|cleaned| >= 3 - maxLength ==> |r| == |cleaned| + maxLength)
  {
  }

  datatype ShortDescription =
    | Described(shortDescription: string, length: nat, originalSummaryLength: nat, maxLength: int)
    | NotDescribed(error: string)

  /** What the model call returned: text, nothing (no response or no text), or an exception. */
  datatype Reply = Text(text: string) | NoText | Failure(error: string)

  /** `generate_short_description` around its one model call. */
  function GenerateShortDescription(summary: string, reply: Reply, maxLength: int): (r: ShortDescription)
    ensures reply.NoText? ==> r == NotDescribed("No response from Gemini API")
    ensures reply.Text? && reply.text == [] ==> r == NotDescribed("No response from Gemini API")
    ensures reply.Failure? ==> r == NotDescribed(reply.error)
    ensures reply.Text? && reply.text != [] ==>
      r.Described? && r.shortDescription == CleanDescription(reply.text, maxLength)
      && r.length == |r.shortDescription| && r.originalSummaryLength == |summary|
      && (maxLength >= 3 ==> r.length <= maxLength)
  {
    match reply
    case NoText => NotDescribed("No response from Gemini API")
    case Failure(e) => NotDescribed(e)
    case Text(t) =>
      if t == [] then NotDescribed("No response from Gemini API")
      else
        CleanDescriptionFits(t, maxLength);
        var d := CleanDescription(t, maxLength);
        Described(d, |d|, |summary|, maxLength)
  }
}
