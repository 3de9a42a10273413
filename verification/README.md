# Laoshiren verification

A Dafny model of the hard core of the Laoshiren backend, with proofs about it. `dafny verify dfyconfig.toml` checks all of it.

## What is modelled

- **Source text** (`PyText`, `SourceChunks`, `SourceDocuments`, `SourceParsing`): page truncation, overlapping windows with paragraph
  back-off, paged chunks with shifted offsets, segments and trimmed context. The main results are that all offsets point into one stored
  text, end to end, and that parsing keeps all that fits.
- **Ranking and budgeting** (`RankFusion`, `ContextBudget`): reciprocal rank fusion over exact reals, hybrid search, the bounded prompt.
- **Executive graph** (`KeyStrings`, `ToolPolicy`, `ParallelBatch`, `ExecutiveGraph`, `GraphSafety`, `GraphTheorems`, `GraphRecord`,
  `ShippedTools`): the nine nodes as a machine that is driven by arbitrary model, tool and user answers and may crash in any visit.
- **Tool ledger** (`StateWrites`, `ToolLedger`, `LedgerSteps`, `LedgerSafety`, `ToolWorker`): claims, leases, takeovers, fencing tokens,
  atomic and separate receipts, reconciliation, over all interleavings of workers, crashes and ownership changes. `GraphEffects` puts the
  graph of one Run and the ledger together.
- **Runs** (`DurableJobs`, `RunLifecycle`, `RunService`, `RunSteps`, `RunSafety`, `RunWorker`): the Run, interaction and job tables and
  the worker that accepts a terminal output and completes from it.
- **Automations** (`Automations`, `AutomationService`, `AutomationSteps`, `AutomationSafety`, `AutomationTheorems`,
  `AutomationDeliveries`, `AutomationWorker`): materialization, the two transactions of an execution, deliveries, retries and exhaustion,
  schedules.
- **Redirects and projections** (`StateRows`, `MergeRedirects`, `Deadlines`, `StateSteps`): merge redirects with their walk, dates with
  their deadline, and what merging and deleting do to the dates.

Code that changes rows is a class whose methods are proved against a function from the old rows to the new ones. What these functions
do is stated field by field and error by error in the modules whose names end in `Steps`. The histories are
sequences of events over those functions; the worker passes (`ToolWorker.ExecuteOne`, `RunWorker.AgentRunWorker.RunOnce`,
`AutomationWorker.RunOnce`) are proved to commit only such events, so the theorems about reachable states apply to them.

## Where the code does not keep a promise

- **Merge redirects** need not form a forest: `things.get` also returns merged Things, so two Things can be merged into each other
  (`MergeRedirects.MergingBothWaysMakesCycle`). `MergeRedirects.ForestExactly` gives the exact condition, which a caller can check by
  resolving the canonical Thing before the merge.
- **Search quota**: the single-tool gate covers four names while the count covers every name that begins with `search.`. The quota
  is kept exactly when every enabled search tool is gated (`GraphTheorems.SearchQuotaExactly`); the shipped tools are.
- **Confirmation of irreversible tools**: the policy decides search and date names before it looks at the risk. Confirmation is
  certain exactly when no irreversible tool bears such a name (`GraphTheorems.IrreversiblesConfirmedExactly`); no shipped one does.
- **Expired non-replayable actions**: the expiry alone does not block later claims. A worker that still remembers its claim can get its
  Run back and report late, and the next claim returns that result (`LedgerSafety.LateCompletionIsReturned`). The action stays blocked
  until its reconciliation exactly when its outcome has been marked unknown, that claim is forgotten, or the Run is over
  (`LedgerSafety.StaysBlockedExactly`); `LedgerSafety.ExpiryAloneDoesNotBlock` gives reachable states of both kinds.
- **Deadline projection**: a Thing with a primary date can be left without a deadline, by a demotion
  (`Deadlines.DemotionLosesDeadline`) or by a merge, which also leaves the deadline of the duplicate behind
  (`Deadlines.MergeLeavesDeadlineBehind`). `Deadlines.CompleteExactly` and `Deadlines.AllBackedExactly` give the exact conditions.

## Model

| member | source | states |
|---|---|---|
| `SourceChunks.BuildSourceChunks` | backend/src/laoshiren/application/sources/service.py:66-97 | The windowing loop terminates and returns exactly the chunks of the window list, or the limit error for a bad size or overlap |
| `SourceChunks.WindowsTile` | backend/src/laoshiren/application/sources/service.py:73-96 | Windows start at 0, starts strictly increase, no gap is left, neighbours share at most `overlap` characters, and the last window ends the text |
| `SourceChunks.WindowsAreExact` | backend/src/laoshiren/application/sources/service.py:73-96 | Each window ends at the last paragraph break of its second half if there is one, and otherwise at its full size or the end; the next one starts the overlap before that end, but at least one character on |
| `SourceChunks.EndsIncrease` | backend/src/laoshiren/application/sources/service.py:76-96 | With overlap at most half the size the window ends strictly increase as well |
| `SourceChunks.WindowsRebuildText` | backend/src/laoshiren/application/sources/service.py:73-96 | With overlap at most half the size, dropping the overlaps gives the text back exactly |
| `SourceChunks.WindowCount` | backend/src/laoshiren/application/sources/service.py:73-96 | (windows - 1) * (size/2 + 1 - overlap) < length: a linear bound on the number of windows |
| `SourceChunks.ChunkTextFaithful` | backend/src/laoshiren/application/sources/service.py:77-97 | Ordinals are 0..n-1, each chunk is its stripped slice at its offsets, and every non-whitespace character is in some chunk |
| `PyText.RFindBreak` | backend/src/laoshiren/application/sources/service.py:79-82 | The last paragraph break inside a window, or -1: nothing later in the window is one |
| `SourceDocuments.Parse` | backend/src/laoshiren/infrastructure/sources/text_parser.py:136-152 | The page loop with its character budget computes the parsed pages, or the no-text error |
| `SourceDocuments.ParsedIsBounded` | backend/src/laoshiren/infrastructure/sources/text_parser.py:136-152 | The parsed text is non-empty, within the limit, the join of its pages, and only the last page can be cut |
| `SourceDocuments.PagesComeFromRaw` | backend/src/laoshiren/infrastructure/sources/text_parser.py:138-150 | Kept pages are whole raw pages under their own numbers, the last one possibly a prefix |
| `SourceParsing.ParsedKeepsWhatFits` | backend/src/laoshiren/infrastructure/sources/text_parser.py:136-152 | Parsing fails exactly when all pages are blank; its text is always the beginning of the document; its pages are all pages with text, whole and in order, exactly when they fit, a blank page between them costing two characters; and what is missing is missing because the limit is used up |
| `SourceDocuments.BuildSourceChunksFromContent` | backend/src/laoshiren/application/sources/service.py:100-138 | The page loop with its running base offset and ordinal computes the paged chunks, or the limit error |
| `SourceDocuments.StrippedTextIsJoin` | backend/src/laoshiren/application/sources/service.py:355-366 | Stripping the whole text and stripping each page give the same stored text |
| `SourceDocuments.PagedChunksFaithful` | backend/src/laoshiren/application/sources/service.py:100-138 | Over all pages every chunk reads back from the one stored text, ordinals have no gap, no solid character is lost |
| `SourceDocuments.CompleteProcessing` | backend/src/laoshiren/application/sources/service.py:355-378 | Normalising, chunking and stamping, or the empty-text error |
| `SourceDocuments.EvidenceEndToEnd` | backend/src/laoshiren/application/sources/service.py:355-378 | For all raw pages and limits: processing succeeds after parsing, the stored text fits the limit, strip(stored[start:end]) == content for every chunk, ordinals are 0..n-1, nothing solid is lost |
| `SourceParsing.EvidenceOfEveryPage` | backend/src/laoshiren/application/sources/service.py:355-378 | From the raw pages: the solid characters of the stored text, each in some chunk, are a beginning of those of all raw pages in order, and all of them when the document fits |
| `SourceParsing.ChunksNameTheirPage` | backend/src/laoshiren/application/sources/service.py:112-138 | Every stored chunk lies in one page of the stored text and carries its number, its kind of evidence and the versions that made it |
| `SourceDocuments.ProcessedExactly` | backend/src/laoshiren/application/sources/service.py:355-366 | Processing fails exactly for blank text, and stores the stripped text |
| `SourceDocuments.SegmentRoundTrip` | backend/src/laoshiren/application/files/retrieval.py:11-27 | Precondition of the mapping: a chunk survives the round trip exactly when its metadata does not overwrite its place; the chunks of the pipeline meet it |
| `SourceDocuments.SegmentDefaults` | backend/src/laoshiren/application/files/retrieval.py:11-19 | What a segment without a usable number in its locator becomes |
| `SourceDocuments.StoredSegmentsRoundTrip` | backend/src/laoshiren/application/files/sync.py:58-79 | Every chunk that processing stores comes back with its offsets, page, ordinal and content, and still reads back from the stored text |
| `SourceDocuments.GetContextChunks` | backend/src/laoshiren/application/sources/service.py:471-489 | The trimming loop computes the trimmed context, or the limit error |
| `SourceDocuments.TrimmedContextFits` | backend/src/laoshiren/application/sources/service.py:471-489 | The trimmed context fits its budget, and leaves something out only when the budget is spent |
| `SourceDocuments.TrimmedContextAt` | backend/src/laoshiren/application/sources/service.py:471-489 | Entry k is entry k with a prefix of its content, whole unless it is the last |
| `RankFusion.ReciprocalRankFusion` | backend/src/laoshiren/application/memories/retrieval.py:12-21 | The nested score loops and the sort give the fusion: exactly the ids of the lists, in the order of (-score, id) |
| `RankFusion.FusionHasNoDuplicates` | backend/src/laoshiren/application/memories/retrieval.py:12-21 | No id appears twice in a fusion |
| `RankFusion.FusionIsUnique` | backend/src/laoshiren/application/memories/retrieval.py:21 | The sort key leaves one possible order |
| `RankFusion.FusionIgnoresListOrder` | backend/src/laoshiren/application/memories/retrieval.py:12-21 | The fusion does not depend on the order in which the lists are given |
| `RankFusion.HybridScoreExactly` | backend/src/laoshiren/application/memories/retrieval.py:16-20 | The entry at place p of a list scores 1 / (61 + p) from it, and the gains of both lists add up |
| `RankFusion.FusionRespectsConsensus` | backend/src/laoshiren/application/memories/retrieval.py:12-21 | If a is above b in every list that ranks b, and no list repeats an id, the fusion has a above b |
| `RankFusion.ById` | backend/src/laoshiren/application/memories/retrieval.py:58 | The dictionary holds every id, and the later memory wins |
| `RankFusion.HybridSearch` | backend/src/laoshiren/application/memories/retrieval.py:57-76 | Both lists: the first `limit` fused ids, each with its vector memory if it has one; one list: its first `limit`; none: the fallback search |
| `RankFusion.HybridRespectsConsensus` | backend/src/laoshiren/application/memories/retrieval.py:57-63 | The consensus of both candidate lists holds inside the limit |
| `ContextBudget.RecentMessages` | backend/src/laoshiren/application/context.py:126-147 | The longest run of newest messages within count and character limits, never empty for a non-empty thread |
| `ContextBudget.Summarize` | backend/src/laoshiren/application/context.py:149-164 | The summary is the longest prefix of the excerpt lines that fits the summary budget |
| `ContextBudget.ExcerptShows` | backend/src/laoshiren/application/context.py:149-164 | An excerpt names its role and shows the beginning of the normalized content, all of it if there is room, never more than 240 characters and always at least one |
| `ContextBudget.NormalizedFacts` | backend/src/laoshiren/application/context.py:156 | Normalising keeps every solid character in order, with single spaces between words and none at the ends |
| `ContextBudget.NormalizedJoins` | backend/src/laoshiren/application/context.py:157 | Whitespace separates words: two texts with whitespace between them normalize to both with one space between |
| `ContextBudget.TrimGroup` | backend/src/laoshiren/application/context.py:166-182 | A memory group keeps its well-formed entries up to the first that no longer fits |
| `ContextBudget.GroupsAddUp` | backend/src/laoshiren/application/context.py:167-192 | Malformed entries are left out, the others keep their order, and each costs the length of its content and summary |
| `ContextBudget.TrimSources` | backend/src/laoshiren/application/context.py:194-205 | The kept contents are the first characters of the given contents, each under its own title, in order, all but the last whole |
| `ContextBudget.Build` | backend/src/laoshiren/application/context.py:58-86 | The sections get their budgets in order, each from what the earlier ones left |
| `ContextBudget.ContextIsBounded` | backend/src/laoshiren/application/context.py:69-86 | The content is at most max(total, recent + summary), and fits the total exactly when recent and summary do; every section keeps its own budget |
| `ContextBudget.ContextFitsTotal` | backend/src/laoshiren/application/context.py:69-86 | The content fits the total when the newest message fits the recent budget and the recent and summary budgets fit the total |
| `ContextBudget.LeavesOutOnlyWhenFull` | backend/src/laoshiren/application/context.py:58-86 | Nothing is left out before a budget is used up: no message, no memory, no character of sources or attachments |
| `ContextBudget.ContextCoversThread` | backend/src/laoshiren/application/context.py:69-72 | With distinct message ids, omitted ++ recent is the whole thread |
| `KeyStrings.SingleKeyInjective` | backend/src/laoshiren/agent/graph.py:266-267 | The name hashed for a single action determines run, index and tool |
| `KeyStrings.BatchKeyInjective` | backend/src/laoshiren/agent/graph.py:341-346 | The name hashed for a batched action determines run, base, position and tool |
| `KeyStrings.SingleMeetsBatch` | backend/src/laoshiren/agent/graph.py:266-346 | A single and a batched name are equal exactly when index and base are equal and the tool name looks like a batch tail |
| `KeyStrings.SlotKeyInjective` | backend/src/laoshiren/application/automations/materialize.py:20-29 | The slot key determines automation, revision and scheduled time |
| `ToolPolicy.ToolRegistry.Register` | backend/src/laoshiren/agent/tools.py:103-116 | Accepts a new name whose READ risk and READ_ONLY policy agree, reports the first fault otherwise, and keeps the registry coherent |
| `ToolPolicy.CountSearchToolsInResults` | backend/src/laoshiren/agent/parallel.py:90-107 | The counting loop over results and batch names |
| `ToolPolicy.SearchUrlsFromState` | backend/src/laoshiren/agent/policy.py:57-75 | The URLs that some successful search of the run returned |
| `ToolPolicy.SensitiveAllowedExactly` | backend/src/laoshiren/agent/policy.py:102-192 | A sensitive or irreversible tool is allowed without confirmation exactly for a search within quota or a confirmed date with evidence that overwrites no known deadline |
| `ToolPolicy.PlainAllowedExactly` | backend/src/laoshiren/agent/policy.py:109-192 | A read or reversible tool is refused or delayed only when disabled, out of search quota, or a confirmed primary date without evidence or over a known deadline |
| `ToolPolicy.VerdictExactly` | backend/src/laoshiren/agent/policy.py:102-192 | The verdict on every call with its reason: denied, allowed, confirmation or more context, case by case |
| `ToolPolicy.EvidenceExactly` | backend/src/laoshiren/agent/policy.py:27-83 | What counts as a search, and when a call has search evidence: one of its URLs was returned by a successful evidence tool of the run |
| `ToolPolicy.CountSearchExactly` | backend/src/laoshiren/agent/parallel.py:90-107 | One more result adds one search of its own, or the searches of the batch that it names |
| `ToolPolicy.IrreversibleNeverAllowedExactly` | backend/src/laoshiren/agent/policy.py:114-192 | An irreversible tool is never allowed without confirmation exactly when it is disabled or not decided by its name |
| `ToolPolicy.EvidenceStays` | backend/src/laoshiren/agent/policy.py:78-83 | Search evidence stays valid while the run adds results |
| `ParallelBatch.ValidateParallelBatch` | backend/src/laoshiren/agent/parallel.py:22-87 | The deduplicating loop computes the verdict, with the errors in the order of the code |
| `ParallelBatch.AcceptedExactly` | backend/src/laoshiren/agent/parallel.py:32-87 | A batch passes exactly when it is non-empty, fits both budgets, is all enabled reads, has at most two searches after deduplication and fits the quota |
| `ParallelBatch.FirstOccurrencesFacts` | backend/src/laoshiren/agent/parallel.py:49-70 | Deduplication keeps every call once and adds none |
| `ParallelBatch.FirstOccurrencesInOrder` | backend/src/laoshiren/agent/parallel.py:49-70 | It keeps the calls at the places where they stand for the first time, in their order |
| `ParallelBatch.RefusedExactly` | backend/src/laoshiren/agent/parallel.py:32-87 | Which fault a refused batch reports |
| `ParallelBatch.AcceptedBatch` | backend/src/laoshiren/agent/parallel.py:52-87 | Accepted specs are non-empty, distinct read calls within both budgets and cover the request |
| `ExecutiveGraph.ToolSpecsFromDecision` | backend/src/laoshiren/agent/graph.py:122-137 | The loop that keeps the calls with a tool name |
| `ExecutiveGraph.ParallelPolicy` | backend/src/laoshiren/agent/graph.py:299-354 | The batch node: validation, then the policy on each call, then the pending batch with its ids |
| `ExecutiveGraph.ParallelExecute` | backend/src/laoshiren/agent/graph.py:490-556 | The batch execution node: budgets, results in order, the combined result |
| `GraphSafety.RoutedVisit` | backend/src/laoshiren/agent/graph.py:558-594 | Every node finds in the state what its edge promised |
| `GraphSafety.OrderedVisit` | backend/src/laoshiren/agent/graph.py:255-556 | Dispatches stand in the order of their slots, and every slot lies before the next index |
| `GraphSafety.VisitSpends` | backend/src/laoshiren/agent/graph.py:459-556 | A visit adds to the counters exactly what it dispatches, within both limits |
| `GraphSafety.NextPermitted` | backend/src/laoshiren/agent/graph.py:249-381 | What policy or user has let through is permitted at the node that dispatches it |
| `GraphSafety.MeteredVisit` | backend/src/laoshiren/agent/graph.py:299-556 | Every node keeps dispatched searches within the counted ones and, with gated searches, within the quota |
| `GraphSafety.ReadBatchIsInternal` | backend/src/laoshiren/agent/graph.py:501-511 | A batch of read tools of a coherent registry holds no external action |
| `GraphTheorems.ActionIdsAreUnique` | backend/src/laoshiren/agent/graph.py:266-267 | All dispatched actions of a run have pairwise different ids, for any tool names |
| `GraphTheorems.RetriesReuseTheirIds` | backend/src/laoshiren/agent/graph.py:383-457 | Across crashes an id stands for one action, which is recorded or due now |
| `GraphTheorems.BudgetsAreKept` | backend/src/laoshiren/agent/graph.py:203-232 | Decision, token, tool and external counters stay within their budgets; the tool counter is the number of dispatches |
| `GraphTheorems.RunsStop` | backend/src/laoshiren/agent/graph.py:568-593 | At most 4 * decisions + 2 visits, after which the run has stopped; no node is ever misrouted |
| `GraphTheorems.CountersAreTheRecord` | backend/src/laoshiren/agent/graph.py:203-238 | The decision and token counters add up the model answers; exactly a finished run has a response, the stripped content of its last answer |
| `GraphTheorems.ResultsStandAtTheirSlots` | backend/src/laoshiren/agent/graph.py:483-556 | The result of every dispatched action stands at the index from which its id was formed, under its name, with what its own tool returned, or as a failure if that tool raised |
| `GraphSafety.BatchPairsOutcomes` | backend/src/laoshiren/agent/graph.py:524-556 | In a batch, entry i has the name of call i and what its own tool gave back, and one more entry names the calls in order |
| `GraphSafety.SinglePairsResult` | backend/src/laoshiren/agent/graph.py:476-488 | A single action adds one entry with its name and what its tool returned |
| `GraphRecord.ExecutedAsDecided` | backend/src/laoshiren/agent/graph.py:203-298 | Every executed action is one that a model answer asked for, with its name and arguments, judged by the active Thing of that answer |
| `GraphRecord.ResultsAreTheRecord` | backend/src/laoshiren/agent/graph.py:249-556 | Every tool result is that of an executed action, names a whole executed batch, or is a refusal without success and without evidence |
| `GraphRecord.PolicyRoutesExactly` | backend/src/laoshiren/agent/graph.py:249-298 | Allowed calls are executed, calls that need it are confirmed, everything else is refused under its name |
| `GraphRecord.BatchRoutesExactly` | backend/src/laoshiren/agent/graph.py:299-354 | Several calls are executed together, deduplicated and in order, exactly when the batch is sound and each is allowed; otherwise the batch, or its first call that is not allowed, is refused |
| `GraphRecord.NamedSpecsInOrder` | backend/src/laoshiren/agent/graph.py:122-137 | Calls without a tool name are dropped, the others keep their order |
| `GraphRecord.UserDecides` | backend/src/laoshiren/agent/graph.py:356-381 | A confirmed action is executed as it is, a declined one is refused |
| `GraphRecord.BatchesNeverFail` | backend/src/laoshiren/agent/graph.py:490-511 | A batch that passed its checks never fails on a budget |
| `GraphRecord.AnswerIsDelivered` | backend/src/laoshiren/agent/graph.py:203-238 | With decisions and tokens left, a text that is not blank ends the run with that text, stripped |
| `GraphRecord.ExecutiveFailsExactly` | backend/src/laoshiren/agent/graph.py:203-238 | The executive node fails exactly for want of decisions or tokens, and otherwise goes where its answer says |
| `GraphTheorems.BatchesAreReads` | backend/src/laoshiren/agent/graph.py:299-354 | Every batched action is a read and spends no external budget |
| `GraphTheorems.SearchQuotaHolds` | backend/src/laoshiren/agent/policy.py:114-131 | With gated searches no run dispatches more searches than the quota |
| `GraphTheorems.CountedCoversDispatched` | backend/src/laoshiren/agent/parallel.py:90-107 | Dispatched searches never outnumber the counted ones |
| `GraphTheorems.SearchQuotaExactly` | backend/src/laoshiren/agent/policy.py:114-131 | When decisions and tool actions leave room for one more, the quota is kept in every run exactly when every enabled search tool is gated; the external budget has to leave room only for an ungated search that is not replayable |
| `GraphTheorems.IrreversibleIsConfirmed` | backend/src/laoshiren/agent/graph.py:274-381 | Each executed irreversible action was confirmed by the user under its own id |
| `GraphTheorems.IrreversiblesConfirmedExactly` | backend/src/laoshiren/agent/policy.py:133-192 | That holds in every run exactly when no enabled irreversible tool is decided by its name; the external budget has to admit only such a tool |
| `GraphTheorems.DateChangesAreBacked` | backend/src/laoshiren/agent/policy.py:133-184 | Each executed date change was confirmed under its own id, or is confirmed with evidence and overwrites no known deadline |
| `ShippedTools.ShippedMeetsConditions` | backend/src/laoshiren/agent/tools.py:858-954 | The shipped tools form a coherent registry with gated searches and no irreversible tool decided by its name |
| `ShippedTools.ShippedRunsAreSafe` | backend/src/laoshiren/agent/tools.py:858-954 | With them every run keeps the quota, confirms irreversible actions, backs or confirms every date change and spends no external action |
| `StateWrites.Thing.Revise` | backend/src/laoshiren/domain/personal_state/entities.py:47-64 | Revision of a Thing, or the blank-name error |
| `StateWrites.Thing.SetArchived` | backend/src/laoshiren/domain/personal_state/entities.py:66-78 | Archiving and restoring; a repetition changes nothing |
| `StateWrites.StateStore.Write` | backend/src/laoshiren/application/personal_state/service.py:438-498 | One audited write: replay of a recorded key, the errors in order, or the change with its audit row |
| `StateWrites.WriteSetsWhatItNames` | backend/src/laoshiren/domain/personal_state/entities.py:47-78 | Field by field: an edit sets what it names, archiving and restoring only their flag, the version rises exactly when the row changed, all other Things stay, and the audit gets the write |
| `StateWrites.WriteAnswersExactly` | backend/src/laoshiren/application/personal_state/service.py:436-498 | When a write is refused and with what, and what a used key is answered with |
| `StateWrites.WriteExtends` | backend/src/laoshiren/application/personal_state/write_ops.py:75-133 | A write changes nothing, or appends one mutation under a new key |
| `StateWrites.WriteIsAccounted` | backend/src/laoshiren/application/personal_state/service.py:438-498 | Audit keys stay distinct and the Things stay the replay of the audit |
| `ToolLedger.RuntimeService.AddIfAbsent` | backend/src/laoshiren/infrastructure/persistence/repositories/runtime.py:865-892 | Inserts the execution only if its (run, action) is free |
| `ToolLedger.RuntimeService.TakeoverIfExpired` | backend/src/laoshiren/infrastructure/persistence/repositories/runtime.py:894-921 | Takes over an IN_PROGRESS row whose lease has run out, under a new token |
| `ToolLedger.RuntimeService.CompleteRow` | backend/src/laoshiren/infrastructure/persistence/repositories/runtime.py:923-956 | Completes only the IN_PROGRESS row of this owner and token |
| `ToolLedger.RuntimeService.MarkUnknownIfExpired` | backend/src/laoshiren/infrastructure/persistence/repositories/runtime.py:958-976 | Marks an expired non-replayable IN_PROGRESS row unknown |
| `ToolLedger.RuntimeService.ReconcileUnknownRow` | backend/src/laoshiren/infrastructure/persistence/repositories/runtime.py:978-1008 | Stores a result only for an UNKNOWN row |
| `ToolLedger.RuntimeService.ClaimToolExecution` | backend/src/laoshiren/application/runtime/service.py:578-662 | The whole claim: ownership, insert, contract checks, cached result, blocked, takeover or busy |
| `LedgerSteps.ClaimAnswersExactly` | backend/src/laoshiren/application/runtime/service.py:596-662 | The answer of a claim, case by case, by Run, row, lease, replay policy and status |
| `LedgerSteps.ClaimChangesExactly` | backend/src/laoshiren/application/runtime/service.py:596-662 | An acquired row is in progress for its owner, under a new token, with a lease of the given length from now and one attempt more; a blocked one is marked; nothing else changes |
| `ToolLedger.RuntimeService.CompleteToolExecution` | backend/src/laoshiren/application/runtime/service.py:664-692 | Completion behind ownership and token |
| `ToolLedger.RuntimeService.CompletePersonalStateMutationTool` | backend/src/laoshiren/application/runtime/service.py:694-734 | Mutation and receipt commit together; a lost lease rolls both back |
| `LedgerSteps.MutationCommitsBoth` | backend/src/laoshiren/application/runtime/service.py:694-734 | The write and its receipt commit together, exactly when the write succeeds and its worker holds the row |
| `ToolLedger.RuntimeService.ReconcileUnknownToolExecution` | backend/src/laoshiren/application/runtime/service.py:793-824 | Only an unknown outcome can be reconciled |
| `LedgerSteps.ResultsAreStoredExactly` | backend/src/laoshiren/application/runtime/service.py:664-824 | A completion stores its output exactly for the holder of the row, a reconciliation exactly for an unknown one |
| `LedgerSafety.EffectsHappenOnce` | backend/src/laoshiren/application/runtime/service.py:578-734 | Over all histories every action and client key changes the state at most once, and the state is the replay of the audit in commit order |
| `LedgerSafety.ReceiptExactlyWithEffect` | backend/src/laoshiren/application/runtime/service.py:704-734 | On the atomic path the success receipt exists exactly when the effect does |
| `LedgerSafety.SuccessHasEffect` | backend/src/laoshiren/application/personal_state/service.py:438-498 | On the other path a success receipt implies the effect, and no effect lacks a ledger row |
| `LedgerSafety.EffectWithoutReceipt` | backend/src/laoshiren/agent/tools.py:514-537 | The converse fails there: a crash after the write leaves an effect whose row is still IN_PROGRESS |
| `LedgerSafety.NonReplayableAcquiredOnce` | backend/src/laoshiren/application/runtime/service.py:633-647 | A non-replayable action is acquired at most once in any history |
| `LedgerSafety.ResultIsFinal` | backend/src/laoshiren/application/runtime/service.py:630-632 | A stored result never changes in the rest of any history |
| `LedgerSafety.MatchingClaimReturnsResult` | backend/src/laoshiren/application/runtime/service.py:607-632 | Every matching claim by the current owner of the Run returns the stored result and changes nothing |
| `LedgerSafety.RecordedResultIsReturned` | backend/src/laoshiren/application/runtime/service.py:607-692 | What completes or reconciles an action is what every later matching claim gets, in any history |
| `LedgerSafety.LeaseIsExclusive` | backend/src/laoshiren/application/runtime/service.py:596-662 | An action acquired at time T belongs to its worker until T + seconds, for a first claim and a takeover: through any history, every other claim before then is refused, busy, or given the result |
| `LedgerSafety.LeaseRunsOut` | backend/src/laoshiren/application/runtime/service.py:633-662 | From T + seconds on, the same call by the owner of the Run takes the untouched row over if it may be repeated, and is blocked if not |
| `LedgerSafety.ExpiredClaimIsBlocked` | backend/src/laoshiren/application/runtime/service.py:633-647 | One claim that meets an expired non-replayable row without result is refused or blocked, and blocking marks it unknown |
| `LedgerSafety.BlockedUntilReconciled` | backend/src/laoshiren/application/runtime/service.py:633-662 | From the expiry on, if the outcome is marked unknown, the acquiring worker has forgotten its claim or the Run is over: in every possible history without a reconciliation the row stays but for the mark, nobody acquires it, and every claim is blocked or refused |
| `LedgerSafety.LateCompletionIsReturned` | backend/src/laoshiren/application/runtime/service.py:664-692 | Otherwise the old owner can get its Run back and report late, and the next matching claim returns that result without any reconciliation |
| `LedgerSafety.StaysBlockedExactly` | backend/src/laoshiren/application/runtime/service.py:616-662 | So an expired non-replayable action stays blocked until its reconciliation if and only if its outcome is marked unknown, its claim is forgotten, or its Run is over |
| `LedgerSafety.ExpiryAloneDoesNotBlock` | backend/src/laoshiren/application/runtime/service.py:633-662 | Reachable states of both kinds exist, with the row still IN_PROGRESS |
| `LedgerSafety.StaleTokenChangesNothing` | backend/src/laoshiren/infrastructure/persistence/repositories/runtime.py:923-956 | A worker whose token the row no longer carries can neither complete nor commit a mutation |
| `ToolWorker.RuntimeToolExecutionLedger.Claim` | backend/src/laoshiren/workers/agent.py:45-78 | The worker's claim keeps the token of an acquired action and reports cached, busy and unknown outcomes |
| `ToolWorker.RuntimeToolExecutionLedger.Complete` | backend/src/laoshiren/workers/agent.py:80-100 | Completion uses and forgets the token, and fails without one |
| `ToolWorker.ExecuteOne` | backend/src/laoshiren/agent/graph.py:383-457 | Executing one action commits only steps of the protocol, in its order, with the handler under an acquired claim; undisturbed it leaves the effect with the matching result, or the untouched row IN_PROGRESS when an exception goes through the registry; without a claim it changes nothing more |
| `ToolWorker.ActionStaysReachable` | backend/src/laoshiren/agent/graph.py:383-457 | So what holds in all reachable states holds after it |
| `GraphEffects.EachActionHasOneEffect` | backend/src/laoshiren/agent/graph.py:383-457 | Over crashes and retries of a graph run, beside all other workers: every effect of the Run is that of one recorded or due action, made by a call of its tool with its arguments, and each action has at most one effect |
| `GraphEffects.RecordedActionIsSettled` | backend/src/laoshiren/agent/graph.py:459-488 | A recorded single action has its final result in the ledger through any later history; on the atomic path it changed the state exactly if that result is a success |
| `RunLifecycle.AgentRun.Start` | backend/src/laoshiren/domain/runtime/entities.py:151-161 | QUEUED to RUNNING, refused otherwise |
| `RunLifecycle.AgentRun.RecoverAfterCrash` | backend/src/laoshiren/domain/runtime/entities.py:163-174 | RUNNING back to QUEUED without claim, active time added up |
| `RunLifecycle.AgentRun.WaitForUser` | backend/src/laoshiren/domain/runtime/entities.py:176-186 | RUNNING to WAITING_FOR_USER with its interrupt and without claim |
| `RunLifecycle.AgentRun.Resume` | backend/src/laoshiren/domain/runtime/entities.py:188-200 | WAITING_FOR_USER to QUEUED for the matching interrupt only |
| `RunLifecycle.AgentRun.Complete` | backend/src/laoshiren/domain/runtime/entities.py:202-212 | RUNNING to COMPLETED with its final message |
| `RunLifecycle.AgentRun.AcceptTerminalOutput` | backend/src/laoshiren/domain/runtime/entities.py:214-224 | Accepts the first output, the same one again, and no other |
| `RunLifecycle.AgentRun.Fail` | backend/src/laoshiren/domain/runtime/entities.py:226-236 | Any non-terminal Run to FAILED |
| `RunLifecycle.AgentRun.Cancel` | backend/src/laoshiren/domain/runtime/entities.py:238-247 | Any non-terminal Run to CANCELLED |
| `RunLifecycle.RunInteraction.Resolve` | backend/src/laoshiren/domain/runtime/entities.py:288-297 | Resolves a pending interaction, accepts the same response again and refuses another one |
| `RunService.RuntimeService.CreateRun` | backend/src/laoshiren/application/runtime/service.py:247-388 | A Run, its key, its input message and its job in one unit of work, the Run of a used key, or the first error |
| `RunSteps.CreateStores` | backend/src/laoshiren/application/runtime/service.py:247-388 | What a request stores in every table, with the text of its input message, and when it is refused or answered from its key |
| `RunService.RuntimeService.ClaimRun` | backend/src/laoshiren/infrastructure/persistence/repositories/runtime.py:350-395 | Claims a queued Run, or a running one whose lease ran out, under a fresh token |
| `RunSteps.ClaimTakesExactly` | backend/src/laoshiren/infrastructure/persistence/repositories/runtime.py:350-396 | A claim takes a queued or abandoned Run under a token never given before and a lease from now on |
| `RunSteps.RunLeaseHolds` | backend/src/laoshiren/infrastructure/persistence/repositories/runtime.py:350-396 | Until its lease is over nobody else claims or recovers the Run; afterwards it is taken |
| `RunService.RuntimeService.RenewRunLease` | backend/src/laoshiren/infrastructure/persistence/repositories/runtime.py:397-421 | Renews only for the current owner and token of a running Run |
| `RunSteps.RenewMovesLease` | backend/src/laoshiren/infrastructure/persistence/repositories/runtime.py:397-420 | Renewal moves the lease of the Run that this owner holds under this token, and nothing else |
| `RunService.RuntimeService.RecoverPendingRuns` | backend/src/laoshiren/application/runtime/service.py:486-512 | The loop that requeues abandoned Runs |
| `RunService.RuntimeService.WorkerTransition` | backend/src/laoshiren/application/runtime/service.py:1082-1174 | START, WAIT, COMPLETE and FAIL behind the fence, all rows together |
| `RunSteps.TransitionExactly` | backend/src/laoshiren/application/runtime/service.py:1082-1174 | When a transition of a worker is refused, and what a successful one leaves in each table |
| `RunSteps.LeavingExactly` | backend/src/laoshiren/domain/runtime/entities.py:171-260 | When a Run may leave its status, what it gives back and what it keeps |
| `RunSteps.EnteringExactly` | backend/src/laoshiren/domain/runtime/entities.py:151-224 | When a Run starts, resumes and takes a terminal output, and which fields that sets |
| `RunService.RuntimeService.AcceptTerminalOutput` | backend/src/laoshiren/application/runtime/service.py:1020-1045 | Acceptance behind owner and token |
| `RunSteps.AcceptExactly` | backend/src/laoshiren/application/runtime/service.py:1020-1045 | An output is accepted behind owner and token, once, and only that output again |
| `RunService.RuntimeService.ChangeRun` | backend/src/laoshiren/application/runtime/service.py:876-954 | Resume and cancel once for each key, with interaction and job |
| `RunSteps.ChangeExactly` | backend/src/laoshiren/application/runtime/service.py:887-954 | When a change by a user is refused, and what it does to Run, interaction and job |
| `RunService.RuntimeService.SettleAgentRunJob` | backend/src/laoshiren/application/runtime/service.py:430-462 | The job gets the status that the Run calls for, under its epoch |
| `RunSteps.SettleExactly` | backend/src/laoshiren/application/runtime/service.py:430-462 | The status that the job of a Run is settled with, and when it is not |
| `RunSafety.RequestsCreateOneRun` | backend/src/laoshiren/application/runtime/service.py:255-298 | However often requests are repeated, keys, Runs and input messages stand one to one, and a used key finds its Run |
| `RunSafety.CompletedRunHasOneAnswer` | backend/src/laoshiren/workers/agent.py:212-265 | A completed Run has exactly one assistant message, the stripped response of the only output ever accepted; no other Run has one |
| `RunSafety.WaitingRunHasOneInterrupt` | backend/src/laoshiren/application/runtime/service.py:1113-1132 | A waiting Run has exactly one pending interaction, its interrupt; queued, running, completed and failed Runs have none |
| `RunSafety.ClaimedExactlyWhileRunning` | backend/src/laoshiren/domain/runtime/entities.py:249-260 | Owner, token, lease and running clock are set exactly while the Run is RUNNING |
| `RunSafety.JobTellsItsRun` | backend/src/laoshiren/application/runtime/service.py:430-462 | PAUSED means waiting, COMPLETED means completed or failed, CANCELLED means cancelled; a cancelled Run's job is CANCELLED unless its deliveries ran out |
| `RunSafety.TerminalRunsAreFinal` | backend/src/laoshiren/domain/runtime/entities.py:226-247 | A terminal Run never changes in the rest of any history |
| `RunSafety.StaleSessionChangesNothing` | backend/src/laoshiren/application/runtime/service.py:1101-1106 | A worker whose token the Run no longer carries changes no row, whatever it tries |
| `RunWorker.ReconcileRunning` | backend/src/laoshiren/application/runtime/dto.py:146-172 | For a claimed Run: inconsistent exactly with an unusable pending action and nothing stronger, final exactly with a terminal output |
| `RunWorker.AgentRunWorker.RunOnce` | backend/src/laoshiren/workers/agent.py:181-450 | One worker pass commits only steps of the protocol, in its order, on every path; undisturbed over a claimable Run, a spent budget fails it, a stored output alone decides the end if there is one, and otherwise a graph that answers or throws does; an exception of memory formation leaves the Run completed |
| `RunWorker.PassStaysReachable` | backend/src/laoshiren/workers/agent.py:181-450 | So what holds in all reachable states holds after it |
| `DurableJobs.JobRepository.Settle` | backend/src/laoshiren/infrastructure/persistence/repositories/runtime.py:667-697 | Settles only a claimed row of this owner and epoch with a running lease |
| `DurableJobs.JobRepository.ReleaseForRetry` | backend/src/laoshiren/infrastructure/persistence/repositories/runtime.py:699-730 | Releases under the same condition |
| `DurableJobs.JobRepository.Renew` | backend/src/laoshiren/infrastructure/persistence/repositories/runtime.py:771-793 | Renews for owner and epoch, whatever the lease says |
| `DurableJobs.JobRepository.Resume` | backend/src/laoshiren/infrastructure/persistence/repositories/runtime.py:795-812 | Resumes a paused or ready row |
| `DurableJobs.JobRepository.Cancel` | backend/src/laoshiren/infrastructure/persistence/repositories/runtime.py:814-838 | Cancels a ready, claimed or paused row |
| `DurableJobs.JobRepository.ClaimReadyJobs` | backend/src/laoshiren/application/runtime/durable_job_claim.py:14-30 | Requeues expired claims, then claims the ready rows with new epochs |
| `DurableJobs.ClaimRotates` | backend/src/laoshiren/infrastructure/persistence/repositories/runtime.py:732-769 | Claiming keeps rows held properly and touches only ready or claimed ones; epochs never fall |
| `DurableJobs.RequeuedExactly` | backend/src/laoshiren/infrastructure/persistence/repositories/runtime.py:732-769 | Exactly the expired claims change: to ready while attempts are left, else to failed and exhausted |
| `DurableJobs.JobMovesExactly` | backend/src/laoshiren/infrastructure/persistence/repositories/runtime.py:667-840 | What settling, releasing, renewing, resuming and cancelling do to their row, and when |
| `DurableJobs.ClaimTakesExactly` | backend/src/laoshiren/infrastructure/persistence/repositories/runtime.py:629-665 | A claim takes a ready job that is due, with a new epoch, one attempt more and the given lease |
| `DurableJobs.JobLeaseHolds` | backend/src/laoshiren/infrastructure/persistence/repositories/runtime.py:629-770 | A claimed job is held until its lease ends; then it goes to the next claim, or fails when its attempts are used up |
| `DurableJobs.OldEpochChangesNothing` | backend/src/laoshiren/infrastructure/persistence/repositories/runtime.py:667-793 | An old epoch settles, releases and renews nothing |
| `Automations.Automation.MarkTriggered` | backend/src/laoshiren/domain/automations/entities.py:111-119 | A one-shot loses its trigger, a recurring one moves it to occurred_at + interval |
| `Automations.Automation.CompleteOneShot` | backend/src/laoshiren/domain/automations/entities.py:121-125 | Only an active one-shot completes |
| `Automations.Automation.Cancel` | backend/src/laoshiren/domain/automations/entities.py:90-95 | Cancelling is final and idempotent |
| `Automations.Automation.Pause` | backend/src/laoshiren/domain/automations/entities.py:97-102 | Only an active automation pauses |
| `Automations.Automation.Resume` | backend/src/laoshiren/domain/automations/entities.py:104-109 | Only a paused automation resumes |
| `Automations.Automation.BumpDefinitionRevision` | backend/src/laoshiren/domain/automations/entities.py:127-130 | A new revision of the definition under a new version |
| `AutomationService.AutomationStore.AddOccurrence` | backend/src/laoshiren/infrastructure/persistence/repositories/automation_notifications.py:92-113 | Inserts an occurrence unless its slot is taken |
| `AutomationService.AutomationStore.MaterializeDueAutomation` | backend/src/laoshiren/application/automations/materialize.py:32-99 | Cancel, skip or materialize one trigger, with occurrence, job and automation together, or the missing-trigger error |
| `AutomationSteps.MaterializeMovesExactly` | backend/src/laoshiren/application/automations/materialize.py:32-99 | What materializing does to the automation, with its next trigger, and that it leaves everything else alone |
| `AutomationSteps.TriggerMovesExactly` | backend/src/laoshiren/domain/automations/entities.py:111-125 | Where a trigger moves the next time, and when a one-shot is done |
| `AutomationSteps.StatusMovesExactly` | backend/src/laoshiren/domain/automations/entities.py:90-109 | Which status changes an automation accepts, and what they set |
| `AutomationSteps.LacksTriggerExactly` | backend/src/laoshiren/application/automations/materialize.py:32-46 | When materializing raises, and that it then has no effect |
| `AutomationService.AutomationStore.ProcessDue` | backend/src/laoshiren/application/automations/service.py:162-176 | The loop over the due automations |
| `AutomationService.AutomationStore.BeginExecution` | backend/src/laoshiren/application/automations/occurrence_execution.py:42-96 | The first reads of an execution, and its whole work when nothing fires |
| `AutomationSteps.PlanExactly` | backend/src/laoshiren/application/automations/occurrence_execution.py:42-96 | What the first reads call for, case by case |
| `AutomationSteps.SettleAsMovesExactly` | backend/src/laoshiren/application/automations/occurrence_execution.py:51-96 | Such a plan sets the job, and the occurrence if it says so, and nothing else |
| `AutomationService.AutomationStore.CreateAutomationRun` | backend/src/laoshiren/application/runtime/service.py:326-388 | One Run for each key, in its own transaction |
| `AutomationSteps.TriggerCreatesExactly` | backend/src/laoshiren/application/runtime/service.py:326-388 | A slot that has no Run gets one; a slot that has one is left as it is |
| `AutomationService.AutomationStore.CreateReminderNotification` | backend/src/laoshiren/application/automations/notification_pipeline.py:21-70 | One intent for each slot, its deliveries with it |
| `AutomationDeliveries.NotifyDelivers` | backend/src/laoshiren/application/automations/notification_pipeline.py:27-70 | A new intent comes with exactly one delivery for each endpoint and keeps the earlier ones; an existing intent adds nothing |
| `AutomationDeliveries.SucceededIsDelivered` | backend/src/laoshiren/application/automations/notification_pipeline.py:27-70 | In every history a succeeded occurrence has exactly one delivery for each endpoint of the execution that settled it, and no others |
| `AutomationService.AutomationStore.FinishExecution` | backend/src/laoshiren/application/automations/occurrence_execution.py:97-136 | Notification, occurrence, one-shot and job settle together or roll back together |
| `AutomationSteps.FireMovesExactly` | backend/src/laoshiren/application/automations/occurrence_execution.py:97-136 | When the settling unit of work conflicts or is lost, and what it settles in every table |
| `AutomationService.AutomationStore.RecordFailure` | backend/src/laoshiren/application/automations/occurrence_execution.py:138-190 | Release with backoff, or fail occurrence and job together |
| `AutomationSteps.FailureMovesExactly` | backend/src/laoshiren/application/automations/occurrence_execution.py:138-190 | Released for a retry while attempts are left; the last one fails job, occurrence and one-shot together |
| `AutomationSteps.BackoffDoubles` | backend/src/laoshiren/application/automations/occurrence_execution.py:149-153 | The retry delay doubles from its base up to its bound |
| `AutomationService.AutomationStore.ReconcileExhausted` | backend/src/laoshiren/application/automations/occurrence_execution.py:192-203 | The loop over the exhausted occurrences |
| `AutomationSteps.ReconcileEndsOneShots` | backend/src/laoshiren/application/automations/occurrence_execution.py:154-212 | Reconciling ends exactly the active one-shots of the occurrences that it fails, at their revision |
| `AutomationService.AutomationStore.ChangeStatus` | backend/src/laoshiren/application/automations/write_ops.py:89-154 | Pause, resume and cancel behind the version, once for each key, with the replay and the errors in order |
| `AutomationSteps.ChangeStatusExactly` | backend/src/laoshiren/application/automations/write_ops.py:89-154 | The errors of a status change, the answer to a used key, and its effect |
| `AutomationTheorems.AtMostOncePerSlot` | backend/src/laoshiren/application/automations/occurrence_execution.py:97-136 | Over all histories a slot has at most one occurrence, one Run and one intent |
| `AutomationTheorems.SucceededExactlyWithIntent` | backend/src/laoshiren/application/automations/occurrence_execution.py:97-118 | An occurrence has succeeded exactly when the intent of its slot exists; it is its own, and its Run exists where Runs are created |
| `AutomationTheorems.CompletedJobIsSettled` | backend/src/laoshiren/application/automations/occurrence_execution.py:56-136 | A job is COMPLETED exactly when its occurrence succeeded or was skipped; a failed occurrence has a failed job |
| `AutomationTheorems.SettledOccurrenceStays` | backend/src/laoshiren/application/automations/occurrence_execution.py:120-136 | A settled occurrence never changes again |
| `AutomationTheorems.IntentIsNeverMissing` | backend/src/laoshiren/application/automations/occurrence_execution.py:60-72 | The missing-intent branch is never taken |
| `AutomationTheorems.LostClaimChangesNothing` | backend/src/laoshiren/application/automations/occurrence_execution.py:214-224 | A worker that lost its claim settles nothing |
| `AutomationTheorems.MaterializedExactly` | backend/src/laoshiren/application/automations/materialize.py:32-99 | Case by case: a finished task cancels, a taken slot changes nothing, otherwise one occurrence, skipped exactly under the skip policy past 24 h and with a job exactly otherwise |
| `AutomationTheorems.FiresOnlyWhenDue` | backend/src/laoshiren/infrastructure/persistence/repositories/automations.py:136-149 | An occurrence appears exactly when an active automation whose trigger is due is materialized, its task is not finished and its slot is free |
| `AutomationTheorems.FiresExactly` | backend/src/laoshiren/application/automations/occurrence_execution.py:51-96 | An execution fires exactly for an owned claim of a materialized occurrence of an uncancelled automation at the same revision |
| `AutomationTheorems.ReconcileClears` | backend/src/laoshiren/infrastructure/persistence/repositories/automation_notifications.py:132-150 | Reconciling fails exactly the materialized occurrences whose job has failed |
| `AutomationTheorems.RetryReusesRun` | backend/src/laoshiren/application/runtime/service.py:329-333 | The retry of a trigger finds the Run of its slot |
| `AutomationTheorems.RecurringIsSpaced` | backend/src/laoshiren/application/automations/materialize.py:47-99 | Occurrences of a recurring automation lie at least its interval (>= 60 s) apart under any pause, resume, lateness or skip; a span holds at most span/interval + 1 |
| `AutomationTheorems.OneShotFiresOnce` | backend/src/laoshiren/application/automations/materialize.py:47-99 | A one-shot automation has at most one occurrence ever |
| `AutomationTheorems.LogListsOccurrences` | backend/src/laoshiren/application/automations/materialize.py:71-94 | The log of slots is the table of occurrences |
| `AutomationTheorems.ProcessDueIsSteps` | backend/src/laoshiren/application/automations/service.py:167-174 | Processing the due list is materializing one after another |
| `AutomationTheorems.StatusKeyActsOnce` | backend/src/laoshiren/application/automations/write_ops.py:98-116 | A status change that went through acts once: in any later history its key changes nothing again and answers for the same automation |
| `AutomationTheorems.BackoffGrows` | backend/src/laoshiren/application/automations/occurrence_execution.py:149-153 | The retry delay stays between its bounds and never falls |
| `AutomationWorker.ExecuteClaimed` | backend/src/laoshiren/application/automations/occurrence_execution.py:42-136 | Commits only steps of the protocol; undisturbed, a firing execution settles intent, occurrence, job and Run together, a lost one changes nothing, and a throwing trigger leaves at most the Run |
| `AutomationWorker.RunOnce` | backend/src/laoshiren/workers/automation_occurrence.py:37-78 | One worker pass commits only steps of the protocol, in its order, also when the Run trigger throws, and an undisturbed one never leaves its job claimed |
| `AutomationWorker.PassStaysReachable` | backend/src/laoshiren/workers/automation_occurrence.py:37-78 | So what holds in all reachable states holds after it |
| `StateRows.Thing.MergeInto` | backend/src/laoshiren/domain/personal_state/entities.py:80-87 | Redirects an unmerged Thing to another one |
| `StateRows.Thing.Delete` | backend/src/laoshiren/domain/personal_state/entities.py:89-96 | Deletes an unmerged Thing once |
| `MergeRedirects.PersonalState.ApplyMergeThings` | backend/src/laoshiren/application/personal_state/write_ops.py:896-986 | The merge with its replay, its errors in order, its redirect and the dates that it moves |
| `StateSteps.MergeExactly` | backend/src/laoshiren/application/personal_state/write_ops.py:896-986 | The errors of a merge, the answer to a used key, the redirect, and the dates that all move |
| `MergeRedirects.PersonalState.ApplyDeleteThing` | backend/src/laoshiren/application/personal_state/write_ops.py:160-239 | The deletion with its replay, its errors in order and the dates that it removes |
| `StateSteps.DeleteExactly` | backend/src/laoshiren/application/personal_state/write_ops.py:160-239 | The errors of a deletion, the answer to a used key, the mark, and the dates that all go |
| `StateSteps.CreateExactly` | backend/src/laoshiren/application/personal_state/write_ops.py:242-302 | A new Thing, or the answer to a used key |
| `StateSteps.TouchExactly` | backend/src/laoshiren/application/personal_state/service.py:438-498 | The errors of a revision, the answer to a used key, and the next version |
| `MergeRedirects.PersonalState.ResolveActiveThing` | backend/src/laoshiren/application/personal_state/service.py:178-195 | The walk terminates; it returns the one live root, reports a missing or deleted Thing exactly when the walk ends there, and a cycle exactly when it never ends |
| `MergeRedirects.MergeKeepsForestExactly` | backend/src/laoshiren/application/personal_state/write_ops.py:930-943 | A merge keeps the redirects a forest exactly when the walk from the canonical Thing does not come to the duplicate |
| `MergeRedirects.ForestExactly` | backend/src/laoshiren/application/personal_state/write_ops.py:909-943 | Over all histories the redirects form a forest exactly when no merge went through against that condition |
| `MergeRedirects.MergingBothWaysMakesCycle` | backend/src/laoshiren/application/personal_state/write_ops.py:909-943 | The condition is not checked: two live Things can be merged into each other, and then neither resolves |
| `MergeRedirects.MergeRedirectsToRoot` | backend/src/laoshiren/application/personal_state/service.py:182-195 | After a good merge the duplicate resolves to the root of the canonical Thing and unrelated walks end where they did |
| `MergeRedirects.ForestWalkEnds` | backend/src/laoshiren/application/personal_state/service.py:182-195 | In a forest the walk never reports a cycle |
| `Deadlines.ThingDate.Revise` | backend/src/laoshiren/domain/personal_state/entities.py:177-198 | Revision of a date, or the first validation error |
| `Deadlines.DateWrites.ApplySetDeadline` | backend/src/laoshiren/application/personal_state/write_ops.py:614-736 | Setting a date with its replay, its errors in order and all rows |
| `StateSteps.DateIsSetExactly` | backend/src/laoshiren/application/personal_state/write_ops.py:614-736 | The errors in order, the answer to a used key, the one new date field by field, and the deadline of its Thing |
| `Deadlines.DateWrites.ApplyUpdateDate` | backend/src/laoshiren/application/personal_state/write_ops.py:1076-1189 | Updating a date with its replay, its errors in order and all rows |
| `StateSteps.DateIsUpdatedExactly` | backend/src/laoshiren/application/personal_state/write_ops.py:1076-1189 | The errors in order, the answer to a used key, the revised date field by field, and what happens to the deadline |
| `Deadlines.AlwaysConsistent` | backend/src/laoshiren/application/personal_state/write_ops.py:637-684 | Over all histories of creating, revising, setting, updating, merging and deleting: at most one primary date for each (Thing, kind), primaries confirmed, and a deadline of a Thing that stands is the value of a date that is primary now |
| `Deadlines.ReplayChangesNothing` | backend/src/laoshiren/application/personal_state/write_ops.py:639-656 | Using a recorded key again, by any of the six operations, changes nothing; creations and revisions answer from the Thing as it is now; of the others the same call reports the recorded target and version, and another one is answered exactly when the mutation has the version field that it reads |
| `Deadlines.PrimaryBecomesDeadline` | backend/src/laoshiren/application/personal_state/write_ops.py:679-684 | A new primary becomes the deadline and the only primary of its kind; other kinds and Things keep theirs |
| `Deadlines.DemotionLosesDeadline` | backend/src/laoshiren/application/personal_state/write_ops.py:1135-1146 | A history in which demoting one date clears the deadline that another, still primary date gave |
| `Deadlines.CompleteExactly` | backend/src/laoshiren/application/personal_state/write_ops.py:1135-1146 | Throughout a history every Thing with a primary date has a deadline if and only if no update demotes a primary while its Thing has another, and no merge moves a primary date to a Thing without deadline |
| `Deadlines.MergeLeavesDeadlineBehind` | backend/src/laoshiren/infrastructure/persistence/repositories/personal_state.py:280-301 | A merge that moves the primary date but not the deadline: neither Thing has both afterwards |
| `Deadlines.AllBackedExactly` | backend/src/laoshiren/infrastructure/persistence/repositories/personal_state.py:280-301 | Throughout a history also the deadlines of merged and deleted Things stay backed if and only if no merge or deletion takes away a Thing that has a deadline |

## Left out

Assumptions of the histories:

- Each unit of work is one atomic step; SQL isolation anomalies inside one are not modelled. The two units of work of `cancel_run`
  are: the in-flight check is only a guard, so cancelling may overlap a tool, and nothing is claimed about that.
- Clocks are integers that all workers share and that never run backwards; UUIDs are fresh numbers; `uuid5` and the argument hash are
  injective; JSON texts, payloads and results are opaque values.
- A worker presents the claim token it was given. `start_run`, and calls of `complete_run`, `fail_run` and `require_input` without an
  owner, have no caller in the backend and are no events of `RunSafety`, although `RunService.RuntimeService.WorkerTransition` covers them.
- Workers report success of an atomic tool only through its receipt and success of a writing tool only after its write; API clients
  choose idempotency keys outside the `agent:` prefix.
- The graph runs with one set of limits: the Run's budget snapshot is fixed, and policy and graph get the same search limit.

Not modelled:

- HTTP routers, DTO mappers, settings, migrations, the HarmonyOS client, and all foreign calls (model, embedding, search, push, Redis,
  object storage, PDF and DOCX parsing): plumbing, or outside the backend.
- LangGraph internals and asyncio: a node visit is one step, and a parallel gather is an arbitrary outcome for each action.
- Run events, progress labels, budget snapshots, thread rows, timeline events and notification endpoints beyond their ids.
- JSON-size trimming of the prompt (`_trim_json_dict`, `_trim_overview`, `_trim_attention`): it does not guarantee its budget.
- Resume payloads: nothing is claimed about the progress of a resumed Run.
- Task transitions, contexts, blockers and the other audited writes: they repeat the replay pattern of `StateWrites` with easier claims.
- MergeRedirects.PersonalState.ApplyMergeThings: of what `rebind_merged_references` moves, only the dates are modelled, not tasks,
  blockers, contexts, automations, memories and sources.
- The legacy notification outbox, memory formation, file purge, account deletion and identity: they repeat the lease pattern.
- Float rounding in rank fusion: scores are exact reals.
- Exact offsets of chunks that `get_context_chunks` cuts: stored starts are taken before stripping, so only lengths and prefixes are stated.
- AutomationService.AutomationStore.ProcessDue: takes any list that the due query may return and checks each entry again; the query
  skips rows that another transaction has locked, so its order and limit settle nothing about a single row.
- DurableJobs.JobRepository.ClaimReadyJobs: takes the ids that the query returned in any order; priorities and the limit are left open,
  because that query skips locked rows as well.
- MergeRedirects.PersonalState.ApplyDeleteThing: detaching tasks and removing blockers, contexts, sources and relations are not modelled.
- AutomationService.AutomationStore.CreateReminderNotification: the push job that comes with each new delivery is not modelled.
- RunWorker.AgentRunWorker.RunOnce: what memory formation writes is not modelled, only that it may raise.
- RunService.RuntimeService.CreateRun: what the lookups of the thread and of the sources give is a parameter; those tables are not modelled.
- ContextBudget.Build: the overview and attention sections, trimmed by JSON size, are not part of it.
- ContextBudget.Summarize: the excerpts follow the code, but nothing is claimed about which of them are informative.
