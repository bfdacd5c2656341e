# Verified model of the agent coordination core

This project models, in Dafny 4.11, the parts of the repository whose correctness is easiest to get wrong,
and proves what they promise. `dafny verify dfyconfig.toml` checks all of it.

- **Merge queue** (`Git`, `Staging`, `MergeQueueState`, `Raising`, `Bisection`, `MergeQueue`). The bors-style merge
  train. A branch is the sequence of its commits. Whether a commit cherry-picks cleanly onto a history, what a rebase
  yields and whether a history builds are arbitrary but fixed functions (`Git.Repo`). Any fast-forward of main may
  fail; main may not be resolvable at the head of a batch, and when a post hash is taken for results and callbacks.
  Every `await` lets other coroutines submit any number of requests (`MergeQueue.Await`).
  `MergeQueueState.Sound` is the invariant of every run: conservation, main only grows by histories that were built,
  main is its first value with the patches of exactly the MERGED requests on top, and each result names main before
  and after its own landing. A bisect that is not disturbed by a failed landing splits the staged list into good
  requests that landed, the one culprit, and the rest, which is exactly what is queued again (`Bisection.Bisected`),
  with at most ceil(log2 n) further builds.
- **Tool results** (`ResultBudget`, `ToolRuntime`). Per-tool and per-message budgets, with result files.
- **Conversation** (`Protocol`, `Conversation`, `OpenAIInference`, `Agent`). The agent's loop over LLM turns and
  tool calls, with dropped calls, continuations, compaction and resuming from a saved trace. The LLM, the tools
  and the arrival of messages are nondeterministic.
- **Configuration** (`Splitting`, `Config`), **inherited failures** (`InheritedFailures`), **pass@k** (`Metrics`),
  **trace archive** (`Archive`), **JSON string repair** (`JsonStrings`), **chunking** (`Chunking`).
- **DAG runner** (`ItemTracker`, `AgentPool`, `DagRunner`). The event loop is explicit: between two awaits one
  coroutine runs alone, and at an await any coroutines in flight may take steps.

State that the source changes in place is a class or an array here; its methods are proved against functions and
predicates on values, and the lemmas are about those.

Where the code does not meet what its documentation says, the model follows the code, and a lemma says exactly
when the promise holds:

- A bisect may come to an empty list, for which it has no base case and so ends in a RecursionError (`raised`).
  It does so exactly as `Raising.Raises` says of what picks and builds at the start and of which landings worked:
  at some point the left half is one request that does not pick onto main (`MergeQueue.BisectSubset`). For two
  requests the first one alone decides (`Raising.TwoRaise`). What a batch stages was just rebased onto main, so that
  each of it picks onto main by itself. Therefore a batch raises only if it staged at least five requests, one of its
  landings worked and another failed (`Bisection.RaisedBatch`): four never do (`FourNeverRaise`), and neither do
  landings that all work (`WorkingLandingsNeverRaise`) or all fail (`FailedLandingsNeverRaise`). Five are enough: a
  batch of five is given that raises if and only if one of its first two landings works and the other fails
  (`FiveCanRaise`, `FiveInABatch`). A queue with a batch size of at most four never raises (`MergeQueue.Run`).
  The handler of such a batch rejects requests that wait in the queue again, and what the batch landed is never
  reported to the callback: a batch raises if and only if not every request is in one place afterwards, and if and
  only if the calls do not tell of all that landed (`MergeQueue.Poll`).
- A failed compaction restores the history exactly if and only if there is a system prompt (`Agent.Compact`).
  Without one the first message is lost, and the pairing of calls and results with it if and only if that message
  made calls (`PutBackKeepsWaiting`). A compaction that works keeps its own summary if and only if there is a system
  prompt or no calls wait for results (`SummaryIsKept`).
- Flattening and unflattening restore each other under conditions that are proved necessary as well
  (`UnflattenFlatten`, `FlattenUnflatten`).
- Over any run with evictions and restarts, the archive equals the log of the conversation at every save if and only
  if every save can tell what happened (`ArchiveIsLog`, with the condition in `Recognised`). The log is all that was
  said, compacted conversations included, with only repeated system prompts left out. So messages are lost if a
  compaction is outgrown before the next save (`OutgrownCompactionIsLost`), if a compacted conversation has no system
  prompt, in which case it is the summary that is lost (`PromptlessSummaryIsLost`), if something was said after the
  last save before a compaction, as are the results of the last tool calls in the agent's loop
  (`SaidBeforeCompactionIsLost`), and if something was said between a restart and the first save after it. A history
  of which only a part was put back is not told from a compacted or a longer one either.
- Agents are not checked in again if the callback that marks the task raises. The busy agents are those held by
  runs in flight and those lost in this way (`DagRunners.HoldsBusy`).
- Every flipped statement has a root cause for each of its axioms, whatever the verdicts are, if and only if no
  declared statement depends on itself (`RootsJustIfIrreflexive`).
- The chunker leaves gaps exactly if the overlap is negative and one chunk is not enough (`LinesAreCovered`), and does
  not end exactly if there is text and the chunk size does not exceed the overlap (`NeverEnds`).
- Two agents of a pool may have the same id; the pool and the runner go by ids.

## Model

| member | source | states |
|---|---|---|
| Git.Worktree.Reset | core/coordination/merge_queue.py:495-502 | Staging is reset hard to the given ref. |
| Git.Worktree.CherryPickRange | core/coordination/merge_queue.py:81-120 | Either all commits of the range go onto the tip in order, or the cherry-pick is aborted and the tip stays. |
| Git.PicksAllAt | core/coordination/merge_queue.py:81-120 | A range cherry-picks just when each of its commits picks on top of all the commits before it. |
| Staging.PickedStep | core/coordination/merge_queue.py:504-521 | In a replay the next request picks just when the longer front of the list replays; if it does not, the list does not replay. |
| Staging.ReplaysConcat | core/coordination/merge_queue.py:431-450 | A list replays onto a base just when its front replays there and its back replays on top of the front, so the halves of a bisect replay because the staged list did. |
| Staging.StageableReplays | core/coordination/merge_queue.py:329-357 | What is staged replays on main, comes from what was offered without repetition, and holds the first request if that one picks onto main. |
| Staging.StageableInOrder | core/coordination/merge_queue.py:329-357 | What is staged keeps its order, and if nothing conflicts, everything is staged. |
| Staging.StageableIsMaximal | core/coordination/merge_queue.py:346-356 | A request that is put back does not pick onto some front of what is staged. |
| Staging.RebasableMembers | core/coordination/merge_queue.py:283-310 | Exactly the requests whose rebase succeeds go on to staging. |
| Staging.RebasableInOrder | core/coordination/merge_queue.py:283-310 | They go on in their order. |
| Staging.CeilLog2IsLeast | core/coordination/merge_queue.py:461-481 | The bound on builds is the least number of halvings: n <= 2^k, and no smaller k will do. |
| MergeQueueState.OnlyExtendedAt | core/coordination/merge_queue.py:369-397 | Of any two values main has had the earlier is a prefix of the later, and every value after the first one builds. |
| MergeQueueState.MergedNamesMain | core/coordination/merge_queue.py:382-394 | The pre and post hash of a MERGED result are main before and after a stretch of landed requests that contains the request, even when one batch lands in several parts. |
| MergeQueueState.ArrivalKeepsInv | core/coordination/merge_queue.py:161-166 | A submission keeps the invariant and changes nothing but the queue and the set of submitted requests. |
| MergeQueueState.TakeKeepsInv | core/coordination/merge_queue.py:194-216 | Taking the head of the queue keeps the invariant, and the request was not in the batch before. |
| MergeQueueState.RejectKeepsInv | core/coordination/merge_queue.py:303-309 | Rejecting an unresolved request keeps the invariant: no other place changes, MERGED requests stay those on main. |
| MergeQueueState.RequeueKeepsInv | core/coordination/merge_queue.py:446-448 | Putting unresolved requests back keeps every request in exactly one place. |
| MergeQueueState.RebaseKeepsInv | core/coordination/merge_queue.py:290-301 | A rebase rewrites only its own worktree; main and the results already given still fit together. |
| MergeQueueState.LandingKeepsInv | core/coordination/merge_queue.py:384-396 | A landing extends main by the patches of the staged list, makes just these requests MERGED and keeps the invariant. |
| MergeQueueState.FailedLandingKeepsInv | core/coordination/merge_queue.py:397-405 | A failed fast-forward rejects the staged list and leaves main alone. |
| MergeQueueState.NamesGrow | core/coordination/merge_queue.py:395-396 | `merged_ids` names the agents of all that landed since the batch began, in order, across several landings. |
| Raising.KeptWithoutOne | core/coordination/merge_queue.py:504-521 | What a replay keeps of a list whose first unpickable request is removed. |
| Raising.WorkingLandingsNeverRaise | core/coordination/merge_queue.py:421-450 | A staged list never comes to an empty list if every landing works. |
| Raising.FailedLandingsNeverRaise | core/coordination/merge_queue.py:421-450 | A list of requests that each pick onto main alone never comes to an empty list if no landing works. |
| Raising.FourNeverRaise | core/coordination/merge_queue.py:421-450 | A staged list of at most four requests that each pick onto main alone never comes to an empty list, whatever the landings do. |
| Raising.TwoRaise | core/coordination/merge_queue.py:461-483 | The bisect of two requests comes to an empty list if and only if the first does not pick onto main. |
| Raising.FiveCanRaise | core/coordination/merge_queue.py:437-444 | There are five requests that all rebase onto main, stage on each other and fail to build together, whose bisect comes to an empty list if and only if one of the first two landings works and the other fails. |
| Bisection.StagedPickAlone | core/coordination/merge_queue.py:283-310 | Each staged request, just rebased onto main, picks onto main by itself, and in order they replay. |
| Bisection.RaisedBatch | core/coordination/merge_queue.py:421-485 | A batch that raises staged at least five requests; one of its landings worked, so main grew, and another failed. |
| Bisection.FiveInABatch | core/coordination/merge_queue.py:223-257 | Processed as a batch, those five all stage, and the batch raises if and only if one of the first two landings works and the other fails. |
| Bisection.SearchedRight | core/coordination/merge_queue.py:437-444 | A landing of the left half, worked or failed, and a bisect of the right half make a bisect of the whole, raised and verdict included. |
| Bisection.SearchedLeft | core/coordination/merge_queue.py:445-450 | A deferred right half and a bisect of what is left of the left half make a bisect of the whole, raised and verdict included. |
| Bisection.BisectedFates | core/coordination/merge_queue.py:412-485 | What a bisect means for each request: the good ones are MERGED, the rest are queued and unresolved, and of the staged list nothing else is queued. |
| Bisection.BisectedRight | core/coordination/merge_queue.py:437-444 | If the left half landed and the right half was bisected, the whole list was bisected: left and the good of right in front of the culprit. |
| Bisection.BisectedLeft | core/coordination/merge_queue.py:445-450 | If the right half was deferred and the left one bisected, the whole list was bisected: the rest of left and all of right behind the culprit. |
| Bisection.FailsInHalves | core/coordination/merge_queue.py:431-450 | If a staged list fails to build, its left half replays on main, and with the left half landed the right half replays and fails, so an empty list is never reached. |
| Bisection.SingleIsCulprit | core/coordination/merge_queue.py:461-468 | Rejecting a single request without another build is justified: main with it on top does not build. |
| Bisection.PickFailedIsRebuilt | core/coordination/merge_queue.py:512-521 | Also if a request does not pick, it is resolved and removed and nothing else of the list is touched. |
| Bisection.RebasedThenDone | core/coordination/merge_queue.py:231-267 | Rebase, staging, build and landing together give every request of the batch its fate, and say when the batch raises. |
| Bisection.BatchResolves | core/coordination/merge_queue.py:172-188 | A batch resolves at least one request that was open, never changes a result, and raises only if one landing worked and another failed. |
| Bisection.UndisturbedFates | core/coordination/merge_queue.py:223-257 | If main is resolved and no landing fails: a request is rejected for its rebase if and only if its rebase onto main fails; if what stages builds, all that stages is MERGED and nothing else is rejected; if not, what is rejected besides is staged, and for the build. |
| Bisection.JudgedIsJustified | core/coordination/merge_queue.py:172-188 | While main is resolved and no landing fails, requests are rejected because of their rebase or of a build, and for no other reason. |
| Reporting.ReportedNext | core/coordination/merge_queue.py:259-267 | The callback of a batch reports main before and after it and the agents that landed in between; over a run the calls tile the growth of main. |
| Reporting.ReportedPush | core/coordination/merge_queue.py:259-267 | One more call: its post hash is its pre hash with the patches of the named requests applied in order. |
| MergeQueues.MergeQueue.constructor | core/coordination/merge_queue.py:140-159 | A new queue is empty and satisfies the invariant. |
| MergeQueues.MergeQueue.Submit | core/coordination/merge_queue.py:161-166 | The request joins the end of the queue and keeps the invariant. |
| MergeQueues.MergeQueue.CollectBatch | core/coordination/merge_queue.py:194-217 | The batch holds the first requests of the queue in order, arrivals included, at most the batch size and at least one; it is empty only if nothing was queued. |
| MergeQueues.MergeQueue.RebaseAllOntoMain | core/coordination/merge_queue.py:283-310 | Exactly the requests whose rebase succeeds are returned, with rewritten patches; the others are rejected. |
| MergeQueues.MergeQueue.StageAll | core/coordination/merge_queue.py:329-357 | Greedy staging: what picks is staged in order, the rest goes back to the queue, and the staging tip is main with the staged patches. |
| MergeQueues.MergeQueue.LandBatch | core/coordination/merge_queue.py:369-405 | Main becomes the staging tip and all are MERGED, with the pre hash and the post hash if that can be resolved, or main stays and all are REJECTED; each future is set once. |
| MergeQueues.MergeQueue.MergeAndResolve | core/coordination/merge_queue.py:377-405 | The same without the await; the post hash is main unless it could not be resolved. |
| MergeQueues.MergeQueue.ResolveHead | core/coordination/merge_queue.py:224-224 | The lookup of main at the head of a batch, which may fail. |
| MergeQueues.MergeQueue.MergeToMain | core/worktree.py:295-421 | Main is fast-forwarded to staging, or stays. |
| MergeQueues.MergeQueue.BisectAndLand | core/coordination/merge_queue.py:412-450 | Finds the culprit of a failed build within ceil(log2 n) further builds, lands what is good, defers the rest; raises just if the recursion does. |
| MergeQueues.MergeQueue.BisectSubset | core/coordination/merge_queue.py:453-485 | The recursion does the same for a part of the list. It raises if and only if what picks and builds at the start and the landings say that it comes to an empty list, and then some of the list waits in the queue. |
| MergeQueues.MergeQueue.BisectHalves | core/coordination/merge_queue.py:431-450 | Builds the left half, lands it and goes on in the right, or defers the right and goes on in the left. |
| MergeQueues.MergeQueue.RebuildStagingAndTest | core/coordination/merge_queue.py:488-524 | The answer is whether the list replays on main and builds; what is left is the list without its first request that does not pick. As long as no landing of the bisect failed, the branch for a failed cherry-pick is not taken and the tree is a front of the original staging. |
| Bisection.FrontReplays | core/coordination/merge_queue.py:431-450 | As long as no landing of a bisect failed, what it rebuilds replays on main, and the tree is a front of the original staging. |
| MergeQueues.MergeQueue.DropUnpickable | core/coordination/merge_queue.py:512-521 | The first request that does not pick is rejected and removed from the list. |
| MergeQueues.MergeQueue.BuildAndLand | core/coordination/merge_queue.py:246-257 | One build, then a landing or a bisect: at most 1 + ceil(log2 n) builds. |
| MergeQueues.MergeQueue.StageAndBuild | core/coordination/merge_queue.py:238-257 | Of what was rebased, the first request always stages, and what does not stage is queued and unresolved. |
| MergeQueues.MergeQueue.NotifyBatchMerged | core/coordination/merge_queue.py:259-265 | One call is added if anything landed, naming main before, main after unless it cannot be resolved, and the agents that landed, in order; none otherwise; the calls keep tiling main. |
| MergeQueues.MergeQueue.ProcessBatch | core/coordination/merge_queue.py:223-280 | All are rejected for want of a main if and only if main could not be resolved at the head of the batch. Every request of a batch ends up resolved or queued, at least one resolved; one call is made for what landed, if anything did. It raises if and only if what staged fails to build and its bisect raises; then five or more had staged, main grew, and no call was made. |
| MergeQueues.MergeQueue.RejectUndone | core/coordination/merge_queue.py:179-188 | What is not done of a batch that raised is rejected as an internal error, no result is overwritten, and each request is in one place just if none of the batch is queued. |
| MergeQueues.MergeQueue.Poll | core/coordination/merge_queue.py:172-188 | One turn of the main loop: invariant, callbacks, progress and cost; a batch is rejected for want of a main only if main could not be resolved, and if it could and no landing failed, every request of the batch gets the answer it should (`Judged`). The batch raised if and only if not every request is in one place afterwards, and if and only if the calls no longer tile main; then some request of it is both rejected and queued, and main grew without a call. |
| MergeQueues.MergeQueue.Run | core/coordination/merge_queue.py:172-188 | Over whole runs: if every landing works, or the batch size is at most four, nothing raises; a run raises if and only if some request is in two places, and if and only if something that landed was not reported; while main can be resolved and landings work, each rejection is for a rebase or a build; without a raise the invariant holds, the number of batches is bounded by the submissions and the builds by the batches, and after more polls than there may be open requests all that was submitted before is resolved. |
| Protocol.DecimalReads | core/mcp/tool_runtime.py:120-120 | A number is read back from its decimal digits, so calls without an id get different ones. |
| ResultBudget.Preview | core/mcp/tool_runtime.py:251-255 | The preview is a prefix of at most 2000 characters, cut short only at a newline in its second half. |
| ResultBudget.EffectiveLimit | core/mcp/tool_runtime.py:223-234 | The smaller of the tool's limit and 50,000, and none just for tools that opt out. |
| ResultBudget.TrimmedMeans | core/mcp/tool_runtime.py:187-199 | A text within its tool's limit and 50,000 characters, or of a tool that opts out, is left alone; any other is replaced by one that begins with its front, and names the file if it was written. |
| ResultBudget.LargestFirstSorts | core/mcp/tool_runtime.py:292-293 | The candidates are a permutation of the eligible results, longest first, ties in their order. |
| ResultBudget.OrderSpec | core/mcp/tool_runtime.py:281-293 | Exactly the eligible results are candidates: no marker, finite limit, no error. |
| ResultBudget.PersistedIsMarked | core/mcp/tool_runtime.py:257-263 | A written preview carries the marker by which it is recognised later. |
| ResultBudget.PersistedNamesFile | core/mcp/tool_runtime.py:251-263 | A written preview begins with the front of the text and names the file. |
| ResultBudget.TotalSizeUpdate | core/mcp/tool_runtime.py:299-307 | Replacing one result changes the true sum by the difference of the lengths. |
| ResultBudget.BudgetedKeeps | core/mcp/tool_runtime.py:298-306 | Ids, order, tools and error flags are kept, and exempt results are unchanged. |
| ResultBudget.BudgetedSpares | core/mcp/tool_runtime.py:265-293 | Errors, results of tools that opt out and results that were persisted before are left alone, and everything is if it sums up to at most 200,000 or nothing can be persisted. |
| ResultBudget.BudgetedFits | core/mcp/tool_runtime.py:277-307 | At the end the sum fits the budget or every eligible result was replaced, and nothing is replaced if it fitted before. |
| ResultBudget.BudgetedTwice | core/mcp/tool_runtime.py:236-307 | If every write worked, a second application changes nothing. |
| ResultBudget.PersistedStaysRecoverable | core/mcp/tool_runtime.py:236-263 | A replaced result's full text is in its file, and no other result's file is touched if the ids name different files. |
| ToolRuntimes.ToolRuntime.GetAllowedTools | core/mcp/tool_runtime.py:93-97 | Only discovered tools are allowed, and only those of the allowlist if there is one. |
| ToolRuntimes.ToolRuntime.PersistResult | core/mcp/tool_runtime.py:236-263 | The full text is written and a marked preview returned, or, just if writing fails, a truncated text without marker is. |
| ToolRuntimes.ToolRuntime.ApplyAggregateBudget | core/mcp/tool_runtime.py:265-307 | In place: the replaced results are a prefix of the largest-first order, each while the exact total was over the budget; with successful writes no text is lost; errors, opted-out tools and marked results are spared. |
| ToolRuntimes.ToolRuntime.ExecuteOne | core/mcp/tool_runtime.py:119-212 | One call: refused as an error without a name or permission and not sent; else sent to its server with its own name and arguments, and the result is the answer, never blank unless an error, within its limit or persisted. |
| ToolRuntimes.ToolRuntime.ApplyToolBudget | core/mcp/tool_runtime.py:187-199 | The per-tool budget: a text within the limit stays; one over it is persisted or cut off, and if it was written its file holds all of it. |
| ToolRuntimes.ToolRuntime.Execute | core/mcp/tool_runtime.py:114-217 | One result per call, in order, with the call's id and tool: the per-tool budget of its output, then the aggregate budget of all; what tools that opt out said is there as it is; if persisting works and the ids name different files, every full output can still be read. |
| Conversations.WellFormedIsPaired | core/inference/openai_api.py:298-339 | The running check of a history agrees with its description message by message: after each message with calls one result per call, same ids, same order, and no other results. |
| Conversations.UnansweredIsOutOfStep | core/agent/loop.py:427-434 | If calls are left unanswered, as without a tool runtime, no continuation of the history is well formed. |
| Conversations.ResultsSettle | core/inference/openai_api.py:167-176 | Results with the ids of the waiting calls, in order, bring the history back in step. |
| Conversations.CleanedUpIsLongest | core/inference/openai_api.py:503-518 | The cleanup leaves the longest front that ends in a user message or a non-blank assistant message without calls, and is idempotent. |
| Conversations.CleanedUpIsWellFormed | core/inference/openai_api.py:503-518 | The cleanup of any history in step is well formed. |
| Conversations.AnyFrontRecovers | core/inference/openai_api.py:503-518 | Whatever front of a well-formed history was saved before a crash, the cleanup makes a well-formed front of it. |
| Conversations.WithSystemSame | core/inference/openai_api.py:304-308 | The system message changes nothing about the pairing, and filtering it out again gives the history back. |
| Conversations.SummarisedKeepsWaiting | core/agent/loop.py:988-996 | After a compaction the same calls wait for results as before. |
| Conversations.SummaryIsKept | core/agent/loop.py:988-996 | The summary is in the compacted history if and only if there is a system prompt or no calls wait for results. |
| Conversations.PutBackKeepsWaiting | core/agent/loop.py:981-986 | A failed compaction keeps the pairing if and only if there is a system prompt or the first message made no calls. |
| OpenAIInferences.BuildToolCall | core/inference/openai_api.py:118-149 | A call always has an id, its own if it has one, and the name and arguments that were sent; it is marked truncated just if its arguments are no JSON. |
| OpenAIInferences.OpenAIInference.NormalizeToolCalls | core/inference/openai_api.py:361-385 | One call per entry, in order, each with an id. |
| OpenAIInferences.OpenAIInference.AddUserMessage | core/inference/openai_api.py:295-296 | Appends one user message. |
| OpenAIInferences.OpenAIInference.AddToolResults | core/inference/openai_api.py:167-176 | Appends one message per result, in order, with the id and the content of that result. |
| OpenAIInferences.OpenAIInference.GetMessages | core/inference/openai_api.py:304-308 | The history behind the system prompt, if there is one. |
| OpenAIInferences.OpenAIInference.AppendAssistantMessage | core/inference/openai_api.py:322-339 | Appends the assistant's text, thinking and calls. |
| OpenAIInferences.OpenAIInference.Complete | core/inference/openai_api.py:407-490 | Sends the whole history and appends the reply, or fails and leaves the history alone. |
| OpenAIInferences.OpenAIInference.ReplaceHistory | core/inference/openai_api.py:496-498 | The summary becomes the only message. |
| OpenAIInferences.OpenAIInference.ReplaceMessages | core/inference/openai_api.py:500-501 | The history becomes the saved messages without system messages. |
| OpenAIInferences.OpenAIInference.CleanupInterrupted | core/inference/openai_api.py:503-518 | The popping loop leaves the cleaned-up front: what is popped are results, messages with calls and blank answers, and what is left ends in none of these. |
| Agents.Agent.InjectPending | core/agent/loop.py:297-300 | All that was sent meanwhile enters the history as one user message, and nothing of it is left in the queue. |
| Agents.Agent.DrainMessageQueue | core/agent/loop.py:374-392 | Takes all pending messages, in order, as one, or None if there are none. |
| Agents.JoinedHolds | core/agent/loop.py:374-392 | Each pending message is in the joined one, and the last one ends it. |
| Agents.Agent.CallLlm | core/agent/loop.py:394-425 | One LLM call; with tracing, the history including the reply is saved. |
| Agents.Agent.ExecuteTools | core/agent/loop.py:427-458 | Executes exactly the given calls: one result per call, same ids, same order, with and without semaphores, under which the calls finish in any order; each result is within the limit of its tool, and all together are budgeted, either way; none without a runtime; with tracing, the history before the results is saved. |
| Agents.Agent.AnswerCalls | core/agent/loop.py:363-364 | What the model is then told, call by call, is the content of these results. |
| Agents.Agent.DropCalls | core/agent/loop.py:316-341 | Each dropped call is answered as malformed, under its own id, and a retry is asked for. |
| Agents.Agent.Compact | core/agent/loop.py:899-998 | Replaces the history by a summary and the calls that wait, or by these calls alone if there is no system prompt, or puts history and system prompt back, exactly if and only if there is a system prompt; the question it asks is well formed and holds all but the first message and the calls that wait; the summary is what the model answered; nothing is done just if there is nothing to summarise. |
| Agents.Agent.HandleTurn | core/agent/loop.py:316-369 | Truncated calls are answered as malformed and no call is executed; cut-off text is continued at most three times in a row; else exactly the calls are executed or the text is returned; each way leaves no call waiting. |
| Agents.Agent.RunLoop | core/agent/loop.py:283-372 | The loop takes a turn whenever it may, asks the model in each, goes on until the model has nothing left to do and then returns what it said, or until the turns are used up and then returns nothing; it raises only if the last LLM call failed. Exactly the calls of turns that are not broken are executed. With a runtime and a sound start, the history is well formed at every LLM call and at the end, also of a run that raises, every snapshot is in step, there are at most two LLM calls per turn, and the third prompt that is too long ends the run. |
| Agents.Agent.Turn | core/agent/loop.py:293-372 | One turn: pending messages first, one question to the model, and what is done about its reply; a final reply ends the loop with its text, unless a compaction fails. |
| Agents.Agent.LoadFromTrace | core/agent/loop.py:771-788 | A saved conversation that was in step is restored to its longest cleanly ending front, which is well formed. |
| Agents.AllWellFormedAt | core/agent/loop.py:303-303 | Each LLM call of a run sees its calls and results paired, message by message. |
| Agents.SnapshotsRecover | core/agent/loop.py:454-457 | Every snapshot of a run can be resumed from: longest front that ends cleanly, well formed. |
| Agents.SteadyPutBack | core/agent/loop.py:981-986 | In the loop, a failed compaction keeps the pairing, and the whole history if there is a system prompt. |
| Splitting.SplitJoin | core/config.py:59-59 | Splitting joined parts that have no separator gives the parts. |
| Splitting.JoinSplit | core/config.py:44-44 | Joining what was split gives the text. |
| Configs.FlattenConfig | core/config.py:34-52 | The recursive loop computes the flat configuration, later items replacing earlier ones. |
| Configs.UnflattenConfig | core/config.py:55-64 | The loop over `setdefault` computes the nested configuration, or raises if a leaf is in the way. |
| Configs.FlattenIsKeyed | core/config.py:43-52 | Without separators in keys, flattening lists each leaf, in order, under the joined path to it. |
| Configs.PathsRebuild | core/config.py:57-64 | Inserting all leaves of a configuration without empty mappings rebuilds it, in order. |
| Configs.InsertAddsLeaf | core/config.py:59-63 | Storing a leaf under a path that conflicts with no other adds that leaf and changes no other. |
| Configs.UnflattenFlatten | core/config.py:34-64 | unflatten(flatten(c)) is c, order included, if and only if no key has the separator, no nested mapping is empty, and the empty top-level key holds no mapping; otherwise it raises or is not even equal to c up to order. |
| Configs.FlattenUnflatten | core/config.py:34-64 | flatten(unflatten(f)) has the entries of f, and unflatten does not raise, if and only if all values are leaves, no key starts with the separator, and no key is a path prefix of another. |
| InheritedFailures.AnnotateInheritedFailures | autoform/eval/pipeline.py:523-588 | In place: a statement passes afterwards if and only if it passed before or nothing but axioms is wrong with it and each of them is in the verdicts of some evaluated dependency; the mark says None, True or False accordingly; the summary counts those that pass. |
| InheritedFailures.AnnotatedMeans | autoform/eval/pipeline.py:547-579 | The same of one statement. |
| InheritedFailures.CountPassedIs | autoform/eval/pipeline.py:585-585 | The count is the number of statements that pass. |
| InheritedFailures.BuildLookup | autoform/eval/pipeline.py:540-545 | The last entry for a declaration counts, and entries without one are left out. |
| InheritedFailures.IsInherited | autoform/eval/pipeline.py:566-572 | The search finds a dependency that carries the axiom just if there is one. |
| InheritedFailures.RootCause | autoform/eval/pipeline.py:526-530 | With a closed dependency relation in which no declared statement depends on itself, for each axiom of a flipped statement some dependency carries it and was not itself flipped. |
| InheritedFailures.SelfDependencyHasNoRoot | autoform/eval/pipeline.py:562-572 | Any statement that depends on itself flips without a root cause if it alone fails. |
| InheritedFailures.RootsJustIfIrreflexive | autoform/eval/pipeline.py:523-579 | Whatever the verdicts are, every flipped statement has its root causes if and only if no declared statement depends on itself. |
| InheritedFailures.OrderDoesNotMatter | autoform/eval/pipeline.py:540-579 | With unique declarations the annotation does not depend on the order of the list. |
| InheritedFailures.SecondRun | autoform/eval/pipeline.py:547-579 | A second run keeps what passed; it only takes back the marks of what was flipped. |
| InheritedFailures.PassedGrowsByFlipped | autoform/eval/pipeline.py:581-588 | The passed count grows by just the number of flipped statements. |
| Metrics.CombCountsSubsets | core/eval/metrics.py:95-95 | C(n, k) is the number of k-element subsets. |
| Metrics.EstimateIsFraction | core/eval/metrics.py:80-95 | The estimate, shortcut included, is the fraction of k-element subsets of the samples that contain a pass. |
| Metrics.EstimateBounds | core/eval/metrics.py:92-95 | It lies in [0, 1], grows with the passes, and is 1 just if fewer than k samples failed. |
| Metrics.EstimateAtOne | core/eval/metrics.py:92-95 | For k = 1 it is c / n. |
| Metrics.CountPassedIs | core/eval/metrics.py:91-91 | The count is the number of samples that passed. |
| Metrics.EstimatesAre | core/eval/metrics.py:86-95 | There is one estimate per group with at least k samples, and they sum up to those fractions. |
| Metrics.PassAtK | core/eval/metrics.py:85-98 | The mean of the estimates of the groups with at least k samples, 0 if there are none; in [0, 1]. The mean times the number of these groups is the sum of the fractions of k-element choices of samples that contain a pass. |
| Archives.ArchiveTraceStore.Save | autoform/bot/archive.py:57-119 | A save updates archive file, cache entry and count of its trace and touches no other trace; afterwards the trace is in memory, with the number of its messages, if and only if it is running; the archive starts over only if a file could not be read. |
| Archives.SaveExtends | autoform/bot/archive.py:76-113 | A save extends the archive, exactly unless a file cannot be loaded and the messages do not start with the old archive. |
| Archives.ArchiveOnlyGrows | autoform/bot/archive.py:34-42 | Over any saves, evictions and restarts with successful loads each archive is a prefix of all later ones. |
| Archives.GrowingArchive | autoform/bot/archive.py:91-119 | While a trace runs and its messages only grow, the archive is always the messages last saved. |
| Archives.ResumeAddsNothing | autoform/bot/archive.py:76-93 | The first save after loading an archive adds nothing. |
| Archives.SaveRecords | autoform/bot/archive.py:91-102 | A save, with or without an entry in memory, records all that was said, but for a repeated system prompt, if and only if the number of messages tells what happened. |
| Archives.ArchiveIsLog | autoform/bot/archive.py:76-119 | Over any run, with evictions and restarts: the archive is the log of all messages, repeated system prompts left out, at every save if and only if every save can tell what happened. |
| Archives.OutgrownCompactionIsLost | autoform/bot/archive.py:95-100 | Of a compaction that left no fewer messages than there were, only what exceeds their number is added. |
| Archives.PromptlessSummaryIsLost | autoform/bot/archive.py:98-100 | Of a compaction that left fewer messages the first one is not added; unless it is a system prompt, it is missing from the archive. |
| Archives.SaidBeforeCompactionIsLost | autoform/bot/archive.py:91-102 | What is said between a save and a compaction makes the archive differ from the log, whatever the compaction leaves. |
| JsonStrings.EscapeControlInStrings | core/eval/rubric.py:47-78 | The loop with its two flags computes the escaped text. |
| JsonStrings.EscapingKeepsMeaning | core/eval/rubric.py:47-78 | A decoder that also takes raw newlines, returns and tabs in strings reads the same tokens before and after. |
| JsonStrings.EscapingIsIdempotent | core/eval/rubric.py:47-78 | Escaping twice is escaping once. |
| JsonStrings.CleanIsFixed | core/eval/rubric.py:58-77 | Exactly the texts without raw controls in strings (other than after a backslash) stay as they are. |
| JsonStrings.EscapedIsClean | core/eval/rubric.py:58-77 | The output has no raw control in a string except right after a backslash that starts an escape. |
| JsonStrings.NoneLeftInside | core/eval/rubric.py:68-77 | A newline, return or tab in the output stands outside strings or right after an escaping backslash. |
| JsonStrings.NothingToEscape | core/eval/rubric.py:76-77 | A text without newlines, returns and tabs stays as it is. |
| JsonStrings.GoodTextIsStrict | core/eval/rubric.py:48-53 | If the text has no bad escapes, no string of the output holds a raw newline, return or tab at all. |
| Chunking.ChunkLines | autoform/statement_extraction/chunking.py:51-80 | The chunks start one step apart, have the given size cut at the end, number and text as stated, and stop as soon as the text is passed; the loop does not end if and only if there is text and the chunk size does not exceed the overlap. |
| Chunking.NeverEnds | autoform/statement_extraction/chunking.py:64-78 | With a step that does not go forward the loop never passes the text, in any number of turns; with one that does it passes. |
| Chunking.ChunkCount | autoform/statement_extraction/chunking.py:64-78 | There are ceil(n / step) chunks: enough steps to pass the text and no more. |
| Chunking.WindowsAreCovered | autoform/statement_extraction/chunking.py:64-78 | Every window of at most overlap + 1 lines lies inside one chunk. |
| Chunking.LinesAreCovered | autoform/statement_extraction/chunking.py:64-78 | Every line is in a chunk if and only if the overlap is not negative or one chunk is enough. |
| Chunking.ChunksRebuild | autoform/statement_extraction/chunking.py:65-74 | The lines of each chunk past the end of the one before, in order, are the input. |
| AgentPools.AgentPool.Checkout | core/coordination/pool.py:37-43 | The first n idle agents, or all, become busy; none of them was; no id twice if the pool has none twice. |
| AgentPools.AgentPool.Checkin | core/coordination/pool.py:45-48 | The returned agents are idle again. |
| AgentPools.IdleMembers | core/coordination/pool.py:33-35 | The available agents are those of the pool that are not busy. |
| AgentPools.IdleInOrder | core/coordination/pool.py:33-35 | They are in the order of the pool, whatever part of it one looks at. |
| ItemTrackers.ItemTracker.Ready | core/tracker/core.py:341-350 | Exactly the pending tasks whose dependencies are all terminal, each once. |
| ItemTrackers.ItemTracker.MarkInProgress | core/tracker/core.py:371-378 | The task, if known, is in progress and has one attempt more. |
| ItemTrackers.ItemTracker.RecordResult | core/tracker/core.py:380-391 | The task, if known, is completed or failed. |
| DagRunners.LocalExecutor.AvailableSlots | core/coordination/executor.py:97-100 | There is one just if there are enough for a task. |
| DagRunners.SlotsIsQuotient | core/coordination/executor.py:97-100 | The slots are how often the agents of a task go into the idle ones, rounded down. |
| DagRunners.DAGRunner.DispatchReady | core/coordination/dag_runner.py:109-127 | Only ready tasks of a flavor that may be dispatched that are not in flight are dispatched, each once; if there is a slot, every ready task that may be dispatched is in flight afterwards, and without a slot nothing is dispatched. |
| DagRunners.DAGRunner.DispatchTask | core/coordination/dag_runner.py:129-143 | The outcome says which check failed; only a ready task that is not in flight is dispatched. |
| DagRunners.DAGRunner.StartCoroutine | core/coordination/executor.py:102-110 | The run holds the first idle agents from now on and its task is in progress, if and only if there are any and the callback does not raise; else it fails at once, its result is recorded and the agents it had got stay busy. |
| DagRunners.DAGRunner.FinishCoroutine | core/coordination/dag_runner.py:162-183 | The agents are checked in, the task is out of flight, and its result is recorded once. |
| DagRunners.NothingInFlight | core/coordination/dag_runner.py:145-183 | When nothing is running, nothing is in flight, each dispatch has had exactly one result, and only leaked agents are busy. |
| DagRunners.DAGRunner.Run | core/coordination/dag_runner.py:185-226 | Over all interleavings: no task is in flight twice, `_running` is what is in flight, busy agents are held by one run each; in every poll the orchestrator is busy, or nothing is pending, or with a slot all that is ready and may be dispatched is in flight; a run that returns leaves nothing in flight and nothing ready. |

## Left out

- Real git, worktree directories, locks, timeouts and subprocess failures; a failed fast-forward is modelled, and that
  main cannot be resolved at the head of a batch or for a post hash; a failed reset or staging worktree is not.
- MergeQueues.MergeQueue.LandLeft: after a landing the bisect goes on from main as it then is. If main cannot be
  resolved there, the source falls back to main before the landing, and may merge a tree that no build saw.
- MergeQueues.MergeQueue.MergeToMain: staging always extends main here, so that the merge is a fast-forward; a merge
  of branches that diverged is not modelled.
- The production build function commits regenerated files to staging; here a build does not change the tree.
- Empty commits within a rebased range.
- What happens after a batch raised: the model stops there, where the source goes on with requests that are
  resolved and queued at once, and setting their futures again raises.
- The order in which a bisect re-queues deferred requests (each appears once, which ones is exact).
- MergeQueues.MergeQueue.Run: the loop stands for a number of polls, since the source stops on a flag set from outside.
- MergeQueues.MergeQueue.BisectSubset: for an empty list the model raises at once; the builds of an unchanged main
  that the source runs before its recursion limit is reached are not counted.
- The ZMQ bridge of the merge queue, step traces and step callbacks.
- Streaming, the unlimited mode of the loop that no caller uses, and the wording of prompts, summaries and notes.
- Blank text is judged by ASCII whitespace.
- `flatten_list=True`, separators of more than one character, and sharing of nested mapping objects between the
  flat and the nested configuration.
- The typed builder for configurations.
- The rounded pass rate of the summary, and floating-point rounding in pass@k.
- Conversation traces and step traces that share one trace id; the live trace file that is written beside the archive.
- The attempt number passed to a run, pausing, status files, and cancellation of a run.
- Dispatches from another thread that race with the event loop.
- DagRunners.DAGRunner.Run: a bound on dispatched tasks by the available slots, which the code does not keep.
