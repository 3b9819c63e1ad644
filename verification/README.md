# Proofs about the AI worker

This project models the decision logic of the AI worker stack in Dafny and proves what it keeps,
over every input, every run or every interleaving. Each file is one module for one component; the
Go and SQL it models is named at its head.

- `Chat`, `ContextFitting`, `TerminalRequest`, `ContextTracker`: the prompt-token estimate, fitting
  whole history exchanges beside a ledger of omitted writes, the last tool-less request, and the
  usage tracker. The estimate is an exact integer sum: a rune weighs 1, 2 or 6 quarter tokens and
  each string rounds up.
- `Transcript`: call/answer pairing, repair of interrupted transcripts, replay of earlier turns.
- `SetupPipeline`, `SetupSafety`, `SetupOutcomes`: project setup as a database whose steps are
  single committed or rolled-back transactions, in any interleaving with duplicates, manual
  requests, stale-job sweeps and retries; and where each of them takes a setup.
- `Bootstrap`, `BootstrapOutcomes`: the two-pass profile agent against a model that chooses every
  call, and what its replies decide.
- `McpProtocol`: the approval gate and execution guard against rules, revisions and schemas that
  may change between any two observations.
- `UserQuestions`, `QuestionSafety`: parking a turn on a question, deciding, resuming, cancelling
  and recovering it.
- `Budgets`: the turn budgets, their snapshots, and skill reads paid from them.
- `Utf8`, `SkillReader`, `PageReader`, `PageCursor`: byte-level reading, splitting and paging.
  Well-formedness of UTF-8 is that of section 4 of RFC 3629.
- `ToolCallStream`: reassembly of streamed tool calls.
- `MapQueries`: refreshing a location's generated Maps queries.
- `DraftLines`, `Drafts`, `DraftSections`: outlines and section writes of a content draft.
- `Text`, `Seqs`, `Options`: shared vocabulary.

Conventions. Objects that the program updates in place are classes whose methods are proved against
functions of the old state; the laws are then proved about those functions. Model text, serialized
sizes, hashes, normalization, folding and JSON equality are function parameters, so every law holds
for any choice of them. Clocks, networks, users and the language model are adversaries: functions
from a moment or a position to whatever they answer then. `fault(n)` makes the n-th database
statement of a transaction fail. Lists that a loop builds from the back are specified by recursion
on the last element.

Corner cases where the code does less than its description, each with the exact condition:

- Without history nothing is checked, so an over-budget prompt is returned without any failure
  (`ContextFitting.FittedFits`, `ContextFitting.EmptyHistoryIsNotChecked`).
- An answered call with an empty id is answered a second time, and completion then repeats itself
  (`Transcript.CompletionPairs`, `Transcript.CompletionIsIdempotent`,
  `Transcript.EmptyIdIsAnsweredTwice`).
- The profile agent can complete the update twice: exactly when its first deciding response both
  completes it and reads more new pages than are left, and the corrective pass completes it again
  (`BootstrapOutcomes.JobIsDecided`, `BootstrapOutcomes.UpdateCanCompleteTwice`).
- A turn that waits on a question while a connection of its project is replaced or removed fails
  with the question still pending, and nothing can decide it afterwards
  (`QuestionSafety.PendingExactly`, `QuestionSafety.ConnectionChangeStrands`).
- Stubbing can enlarge a request, so the least fitting prefix is not always the longest
  (`TerminalRequest.LongStubsMayNotFit`).
- A negative row spend raises the remainder (`Budgets.RowsGrowOnlyByNegativeSpends`), and a row
  budget created below zero is clamped by its first park (`Budgets.RestoreIsIdentity`).
- A heading with a newline inside passes the outline's argument checks and splits
  (`Drafts.OutlineReadsBack`, `Drafts.NewlineSplitsHeading`).
- Section text that opens a fence and does not close it hides later headings
  (`DraftSections.WriteKeepsHeadings`, `DraftSections.UnclosedFenceHidesHeadings`).
- Splitting an oversized block that carried both markdown and text would lose the text; the content
  formatter never builds one (`PageReader.TextSurvivesSplitting`).
- The refresh of Maps queries fails when it needs an ordinal past the largest 32-bit one
  (`MapQueries.LocationQueries.SaveLocationMapQueryStarter`, `MapQueries.NewOrdinals`).
- A decided question cannot be resumed when a deferred call's id is already taken
  (`QuestionSafety.StoredCheckpointResumes`, `QuestionSafety.RepeatedDeferredIdBlocks`).

## Model

| member | source | states |
|---|---|---|
| Chat.EstimateTextTokens | internal/ai/chat_context.go:91-104 | a string costs its runes' quarter-token weights rounded up to whole tokens |
| Chat.EstimateChatInputTokens | internal/ai/chat_context.go:54-89 | the loops compute one sum over messages, replayed reasoning, calls, results, images and tool definitions |
| Chat.TextTokensAppend | internal/ai/chat_context.go:91-104 | joining two strings saves at most one token and never costs less than either part |
| Chat.TextTokensRange | internal/ai/chat_context.go:45-53 | between a quarter and one and a half tokens for each character, up to rounding |
| Chat.MessagesTokensAppend | internal/ai/chat_context.go:65-83 | messages are charged independently, so estimates add up exactly over concatenation |
| Chat.OneKindOfText | internal/ai/chat_context.go:45-53 | four word characters, two other ASCII characters or two thirds of any other one to a token, rounded up, for a text of any length |
| Chat.PartsOfMessage | internal/ai/chat_context.go:55-83 | what one more call, image, reasoning text or call id adds to the price of a message, and where it adds nothing |
| Chat.PartsOfRequest | internal/ai/chat_context.go:64-88 | messages and tool definitions add up, and reasoning is charged exactly when the request has tools and an effort |
| Chat.InputBudgetIs | internal/ai/chat_context.go:23-35 | the window less the reserved output, for known and unknown model names |
| ContextFitting.RenderWriteLedger | internal/aichatworker/transcript.go:223-241 | nothing without writes, else the header and one line for each write of each exchange, each at its exact place |
| ContextFitting.LedgerLists | internal/aichatworker/transcript.go:234-239 | every write has its own line at its own place, with all earlier ones before and all later ones after |
| ContextFitting.WriteStands | internal/aichatworker/transcript.go:230-235 | the writes of all exchanges in order: the j-th write of the i-th exchange stands behind all writes of earlier exchanges, and nothing else is listed |
| ContextFitting.LedgerIsComplete | internal/aichatworker/transcript.go:223-241 | each executed write of each dropped exchange has its own line at exactly that place in the text, which holds nothing but the header and these lines |
| ContextFitting.FitHistoryExchanges | internal/aichatworker/worker_context.go:128-159 | keeps the newest exchanges up to the first that exceeds the remaining budget, flags an over-guard newest one and keeps it anyway |
| ContextFitting.GreedyIsLongest | internal/aichatworker/worker_context.go:140-152 | the greedy pass keeps exactly the longest suffix whose plain request fits, and nothing longer fits |
| ContextFitting.FitHistoryWithLedger | internal/aichatworker/worker_context.go:176-228 | succeeds unless there is history and no suffix fits with its ledger; then returns the system prompt with a line for every write of the dropped exchanges, every message of the longest fitting suffix at its place, and the current message, with the notice; on failure the plain fit and the reason |
| ContextFitting.EvictForLedger | internal/aichatworker/worker_context.go:196-227 | evicting the oldest kept exchange one at a time finds the longest suffix that fits beside the ledger of everything older |
| ContextFitting.FitHistoryForModel | internal/aichatworker/worker_context.go:13-15 | the same, notice and failures included, with the model's window less the reserved output as budget |
| ContextFitting.LongestFitIsLongest | internal/aichatworker/worker_context.go:202-227 | the suffix found fits and no longer one does |
| ContextFitting.FitIffSomeSuffixFits | internal/aichatworker/worker_context.go:202-222 | the fit succeeds exactly when some non-empty suffix fits together with the ledger of all older exchanges |
| ContextFitting.LedgerCosts | internal/aichatworker/worker_context.go:203-210 | a ledger only adds tokens: what fits with it fits without it |
| ContextFitting.FittedFits | internal/aichatworker/worker_context.go:193-195 | the returned request fits, except that an empty history is returned unchecked |
| ContextFitting.EmptyHistoryIsNotChecked | internal/aichatworker/worker_context.go:193-195 | with no history an over-budget request is returned as a success |
| ContextFitting.WritesAreConserved | internal/aichatworker/worker_context.go:196-226 | wherever the history is cut, omitted and kept writes together are all writes in order |
| ContextFitting.FittedIsPaired | internal/aichatworker/worker_context.go:206-218 | dropping whole exchanges keeps every call answered once in its own block |
| ContextFitting.FittedKeepsNewest | internal/aichatworker/worker_context.go:203-210 | a request with its ledger loses neither a kept message nor an executed write, and keeps model, effort and tools |
| ContextFitting.PlainIsInOrder | internal/aichatworker/worker_context.go:153-159 | without a ledger the same messages stand behind the bare system prompt |
| TerminalRequest.TerminalNoToolsMessages | internal/aichatworker/worker_context.go:84-104 | appends the prompt, stubs exactly the least prefix of results that makes the request fit, returns the true estimate without replayed reasoning, and fails only with everything stubbed |
| TerminalRequest.StubbingIsShortest | internal/aichatworker/worker_context.go:90-103 | success exactly when some prefix of stubs, even none or all, fits; and then no shorter one does |
| TerminalRequest.StubbingKeepsTheRest | internal/aichatworker/worker_context.go:93-98 | a stubbed result reads its tool name and recorded outcome, or unknown without one; roles, ids, order, calls and all other text stay, so pairing is preserved |
| TerminalRequest.LongStubsMayNotFit | internal/aichatworker/worker_context.go:76-81 | a stub may cost more than its result: all stubs can fail where none fits |
| ContextTracker.ChatContextTracker.NoteSent | internal/aichatworker/worker_context.go:25-30 | forgets the last usage and remembers tools, effort and length of what was sent |
| ContextTracker.ChatContextTracker.NoteUsage | internal/aichatworker/worker_context.go:32-35 | usage is usable exactly with positive prompt and non-negative completion tokens |
| ContextTracker.ChatContextTracker.InputTokens | internal/aichatworker/worker_context.go:37-55 | extends the last usage by the appended messages without their counted output, else estimates in full; writes nothing that existed before, neither live messages nor their shared call slices |
| ContextTracker.BlankAppended | internal/aichatworker/worker_context.go:39-51 | blanks copies of the appended messages, including copied call slices |
| ContextTracker.ReuseIsExact | internal/aichatworker/worker_context.go:38-53 | the tracker differs from the full estimate by exactly the usage's surplus over both estimates |
| ContextTracker.ReuseNeverUnderestimates | internal/aichatworker/worker_context.go:38-53 | it never reports too little exactly when usage covers the sent prompt and the appended output together |
| Transcript.CompleteDanglingTranscriptCalls | internal/aichatworker/transcript.go:102-139 | each unanswered call gets one answer after its message: its last terminal row's result, or an explicit unknown |
| Transcript.AnswerDangling | internal/aichatworker/transcript.go:121-136 | one message's unanswered calls, each id once |
| Transcript.TerminalIsLatest | internal/aichatworker/transcript.go:103-108 | the last terminal row of an id is the one replayed |
| Transcript.TerminalIsRecorded | internal/aichatworker/transcript.go:103-108 | only a recorded completed or failed row is ever replayed |
| Transcript.CompleteFromAnswers | internal/aichatworker/transcript.go:109-136 | every called id without an answer gains exactly one, and no other id any |
| Transcript.CompletionKeepsOriginals | internal/aichatworker/transcript.go:115-138 | the recorded messages remain as a subsequence |
| Transcript.DanglingIsAnswered | internal/aichatworker/transcript.go:102-139 | every call that nothing answers is answered right behind its own message, in the order of the calls, under its id and name: with the result of its last completed or failed row, or as unknown when no row ended |
| Transcript.CompletionAddsAnswersOnly | internal/aichatworker/transcript.go:115-138 | without its tool results the transcript is what it was |
| Transcript.CompletionPairs | internal/aichatworker/transcript.go:102-139 | with distinct ids and answers where they belong, every call ends up answered exactly once in its block, precisely when no empty id was answered |
| Transcript.CompletionIsIdempotent | internal/aichatworker/transcript.go:109-125 | completing twice changes nothing more, precisely when no call has an empty id |
| Transcript.EmptyIdIsAnsweredTwice | internal/aichatworker/transcript.go:111-113 | an answered call with an empty id is answered again each time |
| Transcript.LegacyHistoryMessages | internal/aichatworker/transcript.go:168-193 | user message, then plain text or one labelled block with a call and an answer for each row |
| Transcript.LegacyIsPaired | internal/aichatworker/transcript.go:168-193 | the synthesized block is paired whatever rows there are, even with repeated ids |
| Transcript.LegacyRows | internal/aichatworker/transcript.go:142-193 | each row becomes the call and the answer at its own place: name, JSON arguments or an empty object, and text labelled by how far the call got |
| Transcript.ReplayTranscript | internal/aichatworker/worker.go:1332-1355 | the completed transcript with tool results labelled where the last row did not complete |
| Transcript.ReplayIsPaired | internal/aichatworker/worker.go:1332-1355 | replaying a stored turn yields a paired exchange |
| Transcript.ReplayLabels | internal/aichatworker/worker.go:1332-1355 | only results of calls whose last row did not complete are relabelled, with that row under the call's own name; everything else is replayed verbatim |
| SetupPipeline.Database.UpdateProjectSetupStatus | internal/db/queries/project_setup.sql:77-97 | moves a setup only from the expected status, and says whether it did; step and error stay on failed setups only, the skip reason is always overwritten, requester and crawl only when given |
| SetupPipeline.Database.ReserveAIWorkspaceMonthlyAudit | internal/db/queries/ai_audits.sql:154-168 | reserves one audit exactly while the allowance has room |
| SetupPipeline.Database.FailActiveAIAuditsForCrawl | internal/db/queries/ai_audits.sql:170-183 | fails exactly the crawl's queued and running project audits |
| SetupPipeline.Database.CreateAIAudit | migrations/000098_location_ai_audits.sql:14-23 | inserts unless a second active audit of a crawl or of a location would exist |
| SetupPipeline.Database.FinalizeBootstrapSuccess | internal/aiaudit/setup_finalization.go:59-90 | one transition and one enqueued job, or a plain completion |
| SetupPipeline.Database.FinalizeKeywordAnalysisSuccess | internal/aiaudit/setup_finalization.go:96-128 | the same for keyword analysis |
| SetupPipeline.Database.FinalizePromptGenerationSuccess | internal/aiaudit/setup_finalization.go:156-232 | skips with a reason, or pays for, creates and enqueues one audit and moves to visibility; without a failing statement it always succeeds, so the unique index never refuses its audit |
| SetupPipeline.Database.LaunchVisibility | internal/aiaudit/setup_finalization.go:192-231 | the part after the reservation, never stopped by the unique index |
| SetupPipeline.Database.CompleteSetupWithVisibilitySkip | internal/aiaudit/setup_finalization.go:236-247 | completes the setup with its skip reason |
| SetupPipeline.Database.FinalizeVisibilitySuccess | internal/aiaudit/setup_finalization.go:261-297 | completes the setup, or fails it at visibility when the audit failed |
| SetupPipeline.Database.FinalizeFailure | internal/aiaudit/setup_finalization.go:304-347 | fails the job, and the setup only while it is on that job's step, both with the message cut to 500 bytes of whole characters, or NULL when it is blank |
| SetupPipeline.Database.Dispatch | internal/aiaudit/worker.go:234-411 | which finalizer a job gets by type, scope and outcome |
| SetupPipeline.Database.WithSetupTx | internal/aiaudit/worker.go:465-478 | a finalization happens completely or not at all, whichever statement fails |
| SetupSafety.FinalizedEffect | internal/aiaudit/setup_finalization.go:59-346 | a finalization touches only its own job and setup; the setup moves exactly when the job carries its step, and enqueues the next job exactly when there is one |
| SetupSafety.FinalizeServes | internal/aiaudit/setup_finalization.go:59-346 | no finalization strands a setup |
| SetupSafety.ReclaimServes | internal/db/queries/ai_worker_jobs.sql:33-95 | the stale-job sweep fails every setup whose job it takes, so it strands none |
| SetupSafety.ResumeServes | internal/projectsetup/project_setup.go:208-267 | a retry enters a step together with that step's job |
| SetupSafety.RunIsSafe | internal/aiaudit/worker.go:130-229 | all safety properties hold after every run of committed transactions |
| SetupSafety.NoSetupIsStranded | internal/aiaudit/setup_finalization.go:59-346 | in every reachable state a setup on a job step has a pending or running job of that step |
| SetupSafety.StepAdvances | internal/aiaudit/setup_finalization.go:319-331 | without a retry, every event moves a status forward or not at all, and leaves ended setups untouched |
| SetupSafety.RunAdvances | internal/aiaudit/setup_finalization.go:52-58 | over any run without a retry, statuses only advance and an ended setup stays as it is |
| SetupSafety.CompletedIsFinal | internal/projectsetup/project_setup.go:183-204 | no event, not even a retry, changes a completed setup |
| SetupSafety.FailedIsResumable | internal/projectsetup/project_setup.go:208-267 | in every reachable state exactly the failed setups name a failed step, so a retry always finds where to resume; errors are bounded and only on failed setups, skip reasons only on completed ones |
| SetupSafety.OneJobForEachEntry | internal/aiaudit/setup_finalization.go:52-58 | over any run, a step's jobs are the entries into it plus the jobs others asked for |
| SetupSafety.PromptDecides | internal/aiaudit/setup_finalization.go:178-231 | an audit is launched exactly while the allowance has room; a skip neither reserves, creates nor enqueues |
| SetupSafety.ReservationsAreAudits | internal/aiaudit/setup_finalization.go:182-211 | in every reachable state an allowance counts exactly the audits paid from it |
| SetupSafety.LimitHolds | internal/db/queries/ai_audits.sql:154-168 | no run of racing jobs and requests overspends an allowance |
| SetupSafety.LaunchKeepsIndex | internal/aiaudit/setup_finalization.go:192-211 | clearing active audits first makes room for the new one |
| SetupSafety.AuditsNeverOverlap | migrations/000098_location_ai_audits.sql:14-23 | in every reachable state a crawl has at most one queued or running project audit, and a location at most one of its own |
| SetupSafety.AuditsHaveOneJob | internal/locationsetup/launch_ai.go:113-127 | over any run of launches, adoptions, sweeps and finalizations no audit has two pending or running jobs |
| SetupOutcomes.FinalizedSetup | internal/aiaudit/setup_finalization.go:59-346 | the job that carries a setup's step decides it: failed at that step with its reason exactly when the job errored or the audit failed, else moved to the next step, past a skipped audit to the end |
| SetupOutcomes.FinalizedJob | internal/aiaudit/worker.go:234-411 | the job's row is completed, or failed with the capped message, whatever it was for |
| SetupOutcomes.FailureIsRetried | internal/projectsetup/project_setup.go:208-267 | a finalizer's failure is taken up by a retry at the very step that failed, or at the prompts after a lost audit, with one new job of that step |
| SetupOutcomes.OnlyItsOwnCrawl | internal/projectsetup/project_setup.go:110-163 | a started setup reacts to its own crawl only: completion enqueues the bootstrap, loss fails it so that a retry crawls again, and the lost crawl means nothing any more |
| SetupOutcomes.SweepFailsStaleJobs | internal/db/queries/ai_worker_jobs.sql:39-45 | the sweep fails exactly the stale running jobs |
| SetupOutcomes.SweepFailsTheirSetups | internal/db/queries/ai_worker_jobs.sql:57-86 | a setup fails with the sweep exactly when one of these jobs carried its step, and a retry takes that step up again |
| SetupOutcomes.SweepFailsTheirAudits | internal/db/queries/ai_worker_jobs.sql:46-56 | of the audits exactly the active location audits of these jobs fail |
| SetupOutcomes.LaunchReplaces | internal/aiaudit/setup_finalization.go:182-225 | the prompts' launch fails exactly the crawl's active project audits, pays for one audit and enqueues its job |
| SetupOutcomes.LaunchIs | internal/db/queries/ai_audits.sql:154-168 | a requested audit is launched exactly while its month has room and no active audit is in its way, and is paid from that month |
| SetupOutcomes.AdoptionIs | internal/locationsetup/launch_ai.go:113-127 | a location's active audit gets a job exactly when none of its jobs is pending or running |
| SetupOutcomes.ErrorTextIs | internal/projectsetup/project_setup.go:274-283 | an error column holds the longest whole-character prefix of at most 500 bytes, or nothing when that is blank |
| SetupOutcomes.AuditStatusIs | migrations/000098_location_ai_audits.sql:14-23 | an audit takes a new status unless the unique indexes refuse it |
| Bootstrap.UpdateSucceeded | internal/aiaudit/business_profile_bootstrap.go:510-522 | success means exactly one update call, and it completed |
| Bootstrap.BootstrapRun.RunCall | internal/aiaudit/business_profile_bootstrap.go:331-354 | a call is refused, breaches the cap or runs, as a function of the budget left, and the shared budget accounts for it |
| Bootstrap.BootstrapRun.RunCalls | internal/aiaudit/business_profile_bootstrap.go:319-362 | one update runs when the response has exactly one, none otherwise; every call is answered |
| Bootstrap.BootstrapRun.RunPass | internal/aiaudit/business_profile_bootstrap.go:293-375 | at most one update runs, success exactly when it completed without a breach, the provider is not asked again after either, and log, budget and messages are those the replies determine; the messages stay paired |
| Bootstrap.RoundAdds | internal/aiaudit/business_profile_bootstrap.go:300-363 | what a round shows the provider: the closing prompt once, the response with text, reasoning and calls, and one answer to each call at its place, a refusal for each that did not run |
| Bootstrap.AnnouncedOnce | internal/aiaudit/business_profile_bootstrap.go:303-311 | a pass only ever adds messages, and announces the end of research at most once |
| Bootstrap.BootstrapRun.RunBootstrap | internal/aiaudit/business_profile_bootstrap.go:169-239 | a lookup that fails ends the job before the agent starts, and an existing profile is kept; otherwise at most 16 provider calls, 5 content reads, no named page twice and no research in the last two rounds or the second pass; success exactly when a pass saved without breaching; two completed updates exactly when both passes completed one, which takes a round that saved and breached; the job is the one the replies determine |
| Bootstrap.CorrectionIsTold | internal/aiaudit/business_profile_bootstrap.go:218-239 | the corrective pass continues the first one's messages and is told why |
| Bootstrap.SavedAndBreachedIs | internal/aiaudit/business_profile_bootstrap.go:364-372 | a pass that saved and failed breached the cap in the very round it saved |
| BootstrapOutcomes.ReadsArePaid | internal/aiaudit/business_profile_bootstrap.go:331-349 | a response breaches the page cap exactly when it reads more new pages than there are reads left, and until then pays for exactly those |
| BootstrapOutcomes.ResponseIs | internal/aiaudit/business_profile_bootstrap.go:319-362 | a response saves exactly when it has one update call and that completes |
| BootstrapOutcomes.PassIsDecided | internal/aiaudit/business_profile_bootstrap.go:293-375 | the first response that tries to update or reads too much decides the pass: saved, breached and ok can be read off it |
| BootstrapOutcomes.JobIsDecided | internal/aiaudit/business_profile_bootstrap.go:169-239 | the update completes twice exactly when the first deciding response saves and reads too much and the corrective one saves as well; and the job succeeds exactly when a deciding response saves without reading too much |
| BootstrapOutcomes.UpdateCanCompleteTwice | internal/aiaudit/business_profile_bootstrap.go:364-372 | an example: one response with an update and six new pages, then one with an update |
| McpProtocol.Turn.VerifyCurrent | internal/aichatworker/mcp_connection.go:199-217 | rule and digest of the current row, or nothing exactly when the row is gone, its revision moved or the tool left |
| McpProtocol.Turn.Guard | internal/aichatworker/mcp_connection.go:283-308 | passes exactly on the turn's revision, equal live and saved digests, and Allow, or Ask with proof |
| McpProtocol.Turn.Execute | internal/aichattools/mcp_tools.go:224-248 | a remote tool dispatches exactly when its own guard passes |
| McpProtocol.Turn.ApprovedCallUnchanged | internal/aichatworker/mcp_approval.go:296-317 | exactly when, after approval: same arguments, same schema in row and session, not Deny, and the proposal prepared again has the snapshot the user saw |
| McpProtocol.Turn.AwaitDecision | internal/aichatworker/worker.go:921-978 | proceeds exactly on an approval whose recheck passes and which is saved and marked executing, refuses exactly on a denial or a timeout |
| McpProtocol.Turn.Gate | internal/aichatworker/worker.go:866-987 | lets a call through exactly when rule, schemas and proposal clear it and, under Ask, it earns its own proof; each call starts without proof |
| McpProtocol.Turn.RunCall | internal/aichatworker/worker.go:748-1049 | a call reaches the gate once progress is saved, while the turn runs, and if its arguments are JSON and no question; it then dispatches exactly what gate, saved row and guard allow, at most once, and no proof outlives it |
| McpProtocol.Turn.PermittedCallRuns | internal/aichatworker/worker.go:748-1049 | nothing else stops a call: permitted, current, agreeing and without a fault, under Ask with an approval of the very arguments and snapshot, it is dispatched |
| McpProtocol.Turn.DispatchedCallPassed | internal/aichatworker/worker.go:748-1049 | conversely a dispatched call had its progress saved and its turn running, JSON arguments and no question, and at the gate a current rule other than Deny, equal schemas, a preparable proposal and, under Ask, its approval |
| McpProtocol.Turn.RunRound | internal/aichatworker/worker.go:748-1049 | every dispatch of a round is the very call at its place in the round, and was justified by what its own guard saw |
| McpProtocol.Turn.DispatchIsAuthorized | internal/aichatworker/mcp_connection.go:275-308 | a remote call runs under the pinned revision and equal saved and live schemas, never under Deny, and under Ask only once and only with that very call approved: same arguments as JSON, same schema, same snapshot, rechecked after the approval and before the dispatch |
| McpProtocol.Turn.ApprovedSchemaRuns | internal/aichatworker/mcp_approval.go:289-317 | with wired aliases and a session that keeps its schemas, an approved call runs under the approved schema |
| UserQuestions.TurnStore.ParkTurnForUserQuestion | internal/aichatworker/user_question.go:105-200 | parks row, request, checkpoint, events and turn together; a failed or late park writes nothing |
| UserQuestions.TurnStore.CancelPendingUserQuestions | internal/aichatworker/user_question.go:436-464 | cancels every pending request with one event each and drops the checkpoint |
| UserQuestions.TurnStore.ResumeUserQuestion | internal/aichatworker/user_question.go:214-411 | a committed resume answers the question and each deferred call once, in order, and consumes the checkpoint; otherwise nothing is written, unless it cancels or drops an orphan |
| UserQuestions.TurnStore.WriteAnswer | internal/aichatworker/user_question.go:328-399 | the resume's writes succeed exactly when the row awaits and the deferred ids are free |
| UserQuestions.TurnStore.AnswerDeferred | internal/aichatworker/user_question.go:349-390 | each deferred call gets a failed row, its events and a message, in order, without a failing statement exactly as long as its id is free |
| QuestionSafety.ResumedAtMostOnce | internal/aichatworker/user_question.go:328-338 | in every run a question is resumed at most once, even from checkpoints read long ago |
| QuestionSafety.RunIsParkable | internal/aichatworker/user_question.go:138-197 | until the turn ends: while it waits its stored question can be decided, and once decided its row still awaits |
| QuestionSafety.StoredCheckpointResumes | internal/aichatworker/user_question.go:354-365 | in every reachable state a live claim that finds the checkpoint resumes, exactly when the deferred ids are free and distinct |
| QuestionSafety.RepeatedDeferredIdBlocks | internal/aichatworker/user_question.go:354-365 | a run that asks, answers and claims again and then cannot resume, because two deferred calls share an id |
| QuestionSafety.StepStrands | internal/db/queries/mcp_approvals.sql:159-172 | of all steps only a connection change under a waiting turn ends the turn with its question pending |
| QuestionSafety.PendingExactly | internal/app/mcp_connections.go:1031-1065 | in every run a question is pending exactly while its turn waits, or for ever after a connection change failed the waiting turn |
| QuestionSafety.ConnectionChangeStrands | internal/app/mcp_connections.go:1050-1065 | the shortest such run |
| QuestionSafety.ResumeAnswers | internal/aichatworker/user_question.go:349-390 | one tool message for the question and each deferred call, in order |
| QuestionSafety.ResumedIsPaired | internal/aichatworker/user_question.go:349-391 | the resumed transcript is paired |
| QuestionSafety.ParkRoundTrip | internal/aichatworker/user_question.go:105-399 | whatever happens to a parked turn while its checkpoint stands, the committed resume returns the very transcript it parked with, then the answer, one deferral for each deferred call in order and the prompt, in the next round, and writes exactly the matching rows and events |
| QuestionSafety.ParksExactly | internal/aichatworker/user_question.go:105-200 | exactly when a turn parks, loses its claim or fails to park |
| QuestionSafety.DecisionStays | internal/db/queries/ai_user_questions.sql:64-73 | a decision and its reply are what every later resume answers with |
| QuestionSafety.DecidesOnce | internal/db/queries/ai_user_questions.sql:64-73 | only the first decision on a waiting turn counts, and it queues the turn with one event |
| QuestionSafety.TurnChangesHands | internal/db/queries/ai_turns.sql:236-250 | a turn given back by its worker, or recovered after its lease lapsed, reaches the next worker with all it had |
| QuestionSafety.LostTurnEnds | internal/db/queries/ai_turns.sql:236-250 | a turn that is not requeued ends and gives its question up |
| QuestionSafety.CancelGivesUp | internal/aichatworker/user_question.go:436-464 | a cancellation resolves every pending question with one event each, in order, drops the checkpoint, and ends a turn that no worker runs |
| QuestionSafety.CancelledForGood | internal/aichatworker/user_question.go:263-268 | after a cancellation nothing parks and nothing resumes, in any run |
| QuestionSafety.RefusedResume | internal/aichatworker/user_question.go:263-330 | what each refused resume leaves: nothing changed, the question given up, or only its checkpoint dropped |
| Budgets.Budget.Spend | internal/aichattools/aichattools.go:121-131 | takes what is there, down to zero |
| Budgets.PageContentBudget.TryRegisterPage | internal/aichattools/aichattools.go:192-206 | a known key is free, a new one needs a slot |
| Budgets.RestorePageContentBudget | internal/aichattools/aichattools.go:235-241 | registers the saved keys again under the restored limit |
| Budgets.SuggestBudget.SpendCallThenRequests | internal/aichattools/get_search_suggestions.go:218-225 | a call is used up even when its request cost is refused, and requests are all or nothing |
| Budgets.ExecuteReadSkill | internal/aichattools/skills.go:300-340 | delivers what it pays for to the byte, refuses a character wider than what is left, and passes on the reader's errors |
| Budgets.TurnBudgets.Apply | internal/aichattools/aichattools.go:121-206 | the budget objects behave as the turn's allowance |
| Budgets.TurnBudgets.ParkAndResume | internal/aichatworker/user_question.go:82-98 | snapshot and restore change nothing in a sound turn |
| Budgets.RegisteredWithin | internal/aichattools/aichattools.go:235-241 | restoring never registers more keys than the limit, and leaves one out only when all slots are taken |
| Budgets.RestoreIsIdentity | internal/aichatworker/user_question.go:82-98 | restore after snapshot is the identity, whatever the key order, exactly unless the row budget was negative |
| Budgets.RunIsSound | internal/aichattools/aichattools.go:101-241 | over any run remainders never grow or go negative and keys stay within the limit |
| Budgets.ParkingIsInvisible | internal/aichatworker/user_question.go:82-98 | a turn that parks any number of times gets the same answers and remainders as one that never parks |
| Budgets.AdmittedAddsUp | internal/aichattools/web.go:46-72 | admitted searches, fetches and requests and what is left add up to the original allowance; so do suggestion calls used, of which the admitted ones are a part |
| Budgets.SpendsAddUp | internal/aichattools/aichattools.go:121-190 | a pool of rows or bytes holds what it began with less everything spent on it, and never less than nothing |
| Budgets.AdmittedWhileLeft | internal/aichattools/web.go:46-72 | searches, fetches and suggestion calls are admitted exactly as long as some are left |
| Budgets.PagesFillSlots | internal/aichattools/aichattools.go:192-206 | every page asked for is registered unless all slots are taken, and no other page ever is |
| Budgets.AnswersAreTrue | internal/aichattools/aichattools.go:121-206 | each answer tells the remainder left or whether the request was granted |
| Budgets.RowsGrowOnlyByNegativeSpends | internal/aichattools/aichattools.go:122-131 | a row spend raises the remainder exactly when it is negative |
| Utf8.CutIsValid | internal/aiskills/aiskills.go:271-277 | cutting valid text before any starting byte leaves valid text on both sides |
| Utf8.CutAtIsBoundary | internal/aichattools/read_page.go:454-465 | a cut falls on a boundary, makes progress and is as long as the limit allows |
| Utf8.CappedIs | internal/aichattools/read_page.go:470-479 | a capped text is the longest whole-character prefix within the limit, and unchanged exactly when it is not too long |
| Utf8.AsciiIs | internal/db/queries/ai_worker_jobs.sql:40-42 | fixed messages are stored as they read |
| Utf8.EncodeReadsBack | internal/aiskills/aiskills.go:271-277 | every scalar value is read back from its encoding, whatever follows |
| Utf8.RuneIsEncoded | internal/aiskills/aiskills.go:271-277 | and nothing but encodings is read as a character: no overlong form, surrogate or larger value |
| Utf8.BlankIs | internal/pgnull/pgnull.go:13-18 | text is blank exactly when each of its characters is white space |
| SkillReader.ChunkUtf8 | internal/aiskills/aiskills.go:266-279 | the longest whole-character chunk within the limit, or one character |
| SkillReader.FitSerialized | internal/aiskills/aiskills.go:292-319 | halves to whole characters until the result fits, down to one character |
| SkillReader.ReadFile | internal/aiskills/aiskills.go:225-264 | the file of a skill, or an error when it cannot be read or exceeds its size limit, which is smaller for SKILL.md |
| SkillReader.ReadSkill | internal/aiskills/aiskills.go:159-220 | every error branch in order, else the fitted chunk and its next offset |
| SkillReader.OnlyListedFiles | internal/aiskills/aiskills.go:166-197 | only well-formed paths that a scanned skill lists are served, from files within their size limit |
| SkillReader.ReadAdvances | internal/aiskills/aiskills.go:207-219 | a successful read is whole characters, fits, advances and names exactly the next offset |
| SkillReader.OneCharacterSuffices | internal/aiskills/aiskills.go:304-315 | a read succeeds whenever its first character alone would fit |
| SkillReader.FitHalves | internal/aiskills/aiskills.go:292-319 | what fits is returned whole; a shorter length is the whole-character half of one that was too large |
| SkillReader.ReadFailsBecause | internal/aiskills/aiskills.go:170-219 | a read fails with the first reason that applies, and a read that none of them stops can only be too large |
| SkillReader.ReadFindsNoSkill | internal/aiskills/aiskills.go:159-169 | the errors without a catalog or without the skill |
| SkillReader.NextOffsetIsReadable | internal/aiskills/aiskills.go:281-287 | a next offset is accepted by the next read, which can only fail for size |
| SkillReader.ChainReadsEverything | internal/aiskills/aiskills.go:150-220 | a chain of reads that follow next offsets, under any limits, has at most one read a byte, and has ended exactly when it has returned everything |
| SkillReader.ChainReadsAPrefix | internal/aiskills/aiskills.go:150-220 | whatever chain of reads was made so far, its chunks are non-empty whole characters, join to a prefix of what was to be read, and the last one names where the rest begins |
| SkillReader.PinnedChainIsOneFile | internal/aiskills/aiskills.go:201-205 | reads that pass the first result's revision never mix two versions of a file that changes between them |
| PageReader.SplitUtf8 | internal/aichattools/read_page.go:449-468 | the loop cuts whole characters off the front until the rest fits |
| PageReader.SplitIsFaithful | internal/aichattools/read_page.go:449-468 | chunks concatenate to the text, are valid UTF-8, bounded and non-empty |
| PageReader.SplitStringBlock | internal/aichattools/read_page.go:394-411 | one flagged fragment for each chunk |
| PageReader.FragmentListBlock | internal/aichattools/read_page.go:413-447 | gathers items until the next no longer fits and splits long ones on their own |
| PageReader.FragmentPageBlocks | internal/aichattools/read_page.go:366-392 | fragments block by block |
| PageReader.ListKeepsItems | internal/aichattools/read_page.go:413-447 | a list's fragments join back to its items |
| PageReader.FragmentingLosesNothing | internal/aichattools/read_page.go:366-447 | joining fragments by their continuation flags restores every text and every item in order |
| PageReader.PageFragments | internal/aichattools/read_page.go:366-447 | every fragment is a block that fits, or has texts and items of at most half the limit in whole characters, fits if it holds several items, and keeps its image unless the block has neither text nor items, whose image is capped |
| PageReader.FlagsAgree | internal/aichattools/read_page.go:394-447 | over a page a fragment says it continues exactly when the next one says it was continued |
| PageReader.ListIsPacked | internal/aichattools/read_page.go:436-445 | no list fragment ends early: the next one's first item would have made it too large |
| PageReader.TextSurvivesSplitting | internal/aichattools/read_page.go:378-405 | a block's text is lost exactly when it is oversized and carries markdown too |
| PageReader.SplittingCanLoseText | internal/aichattools/read_page.go:398-405 | an example of such a block |
| PageCursor.MarshalContentPage | internal/aichattools/read_page.go:329-364 | the furthest page reachable without exceeding the limit, or none |
| PageCursor.PageFits | internal/aichattools/read_page.go:329-364 | a page fits, advances, cannot take one fragment more, and has a cursor exactly when fragments are left |
| PageCursor.PageRefused | internal/aichattools/read_page.go:350-353 | a page is refused exactly when its envelope or first fragment is over the limit |
| PageCursor.CursorIsReadable | internal/aichattools/read_page.go:184-190 | a page's cursor is in range and strictly ahead |
| PageCursor.BadCursorIs | internal/aichattools/read_page.go:184-190 | a cursor is refused exactly when nothing begins there |
| PageCursor.CursorsVisitOnce | internal/aichattools/read_page.go:184-206 | a chain of pages that follow cursors has at most one page a fragment, and has ended exactly when it has visited every remaining fragment once in order |
| PageCursor.ChainVisitsAPrefix | internal/aichattools/read_page.go:184-206 | whatever chain of pages was read so far, each within its own limit, it visited the fragments from its start in order, and the last cursor names where the rest begins |
| ToolCallStream.ToolCallAccumulator.Add | internal/ai/reassemble.go:29-43 | each index's cell holds what its own fragments assemble to |
| ToolCallStream.ToolCallAccumulator.Drain | internal/ai/reassemble.go:52-60 | returns the calls by first arrival and starts afresh |
| ToolCallStream.ArgsAreJoined | internal/ai/reassemble.go:42 | argument pieces are joined in the order they arrive |
| ToolCallStream.LastIdAndNameWin | internal/ai/reassemble.go:36-41 | a call carries the last non-empty id and name it was given, or none |
| ToolCallStream.RebuiltCalls | internal/ai/reassemble.go:29-60 | so does each call of a drain, from the fragments of its own index alone |
| ToolCallStream.FirstSeenGrows | internal/ai/reassemble.go:31-35 | later fragments never reorder the calls |
| ToolCallStream.OthersDoNotMatter | internal/ai/reassemble.go:15-18 | fragments of other indices never change a call |
| ToolCallStream.FirstSeenIsExact | internal/ai/reassemble.go:31-35 | exactly the indices that arrived are listed |
| ToolCallStream.FirstSeenIsDistinct | internal/ai/reassemble.go:31-35 | and each of them once |
| ToolCallStream.DrainsPartition | internal/ai/deepseek.go:298-316 | mid-stream drains and the rest use every fragment exactly once |
| ToolCallStream.FragmentsInOrder | internal/ai/deepseek.go:275-297 | the stream's fragments are those of its chunks, choice by choice |
| ToolCallStream.ChunkAt | internal/ai/deepseek.go:298-316 | a chunk drains exactly when its first choice finished and something has accumulated |
| ToolCallStream.StreamTextIs | internal/ai/deepseek.go:283-292 | a stream answered with text exactly when some choice of some chunk had some |
| ToolCallStream.EmittedCalls | internal/ai/deepseek.go:298-372 | a stream emits every call of every drain and of what was left, each at its place, and nothing else |
| ToolCallStream.StreamToolCalls | internal/ai/deepseek.go:260-372 | a stream that returns without error emitted exactly the reassembled calls, a failing one a prefix of them, and one that fails at its end exactly those drained on the way |
| MapQueries.PlanRefresh | internal/aiaudit/location_map_query_generation.go:235-293 | wanted keys, rows to delete, and inserts at the next ordinals with int32 wrap-around |
| MapQueries.LocationQueries.SaveLocationMapQueryStarter | internal/aiaudit/location_map_query_generation.go:70-127 | applies the whole plan or nothing, whichever statement fails, keeps the table's keys, and without a failing statement fails exactly when ordinals run out |
| MapQueries.RefreshIsExact | internal/aiaudit/location_map_query_generation.go:257-277 | rows nobody generated stay, and no unwanted generated row is left |
| MapQueries.KeepsTheRest | internal/aiaudit/location_map_query_generation.go:267-276 | exactly the unwanted generated rows are deleted |
| MapQueries.EveryWantedKeyIsPresent | internal/aiaudit/location_map_query_generation.go:279-291 | every wanted key is represented afterwards |
| MapQueries.NewOrdinals | internal/aiaudit/location_map_query_generation.go:264-287 | new rows go above all old ones in strict order, exactly when there is room |
| MapQueries.RefreshAdds | internal/aiaudit/location_map_query_generation.go:96-118 | each row added stands for a given phrase, in their order: display text, its key, the next free ordinal, enabled only for the location's first queries, and generated |
| MapQueries.WantedCovers | internal/aiaudit/location_map_query_generation.go:237-252 | every phrase with a display form is wanted, unless ten others were first |
| MapQueries.RefreshIsIdempotent | internal/aiaudit/location_map_query_generation.go:235-293 | refreshing again plans nothing and changes nothing |
| MapQueries.LastOrdinalLeavesNoRoom | internal/aiaudit/location_map_query_generation.go:264-266 | a row at the largest ordinal leaves no room |
| DraftLines.NormalizeDraftBlankLines | internal/aichattools/content_drafts.go:313-318 | repeated replacement ends with no run of three newlines, as one left-to-right collapse would |
| DraftLines.PassCollapses | internal/aichattools/content_drafts.go:315 | one replacement pass keeps the collapsed text |
| DraftLines.JoinedSplit | internal/aichattools/content_drafts.go:183 | joining undoes splitting |
| DraftLines.SplitJoined | internal/aichattools/content_drafts.go:183 | splitting undoes joining lines |
| Drafts.RenderOutline | internal/aichattools/content_drafts.go:178-184 | heading lines separated by blank lines, with a final newline |
| Drafts.OutlineReadsBack | internal/aichattools/content_drafts.go:178-224 | an outline reads back as exactly its headings with one empty line under each, precisely when each is a single line |
| Drafts.NewlineSplitsHeading | internal/aichattools/content_drafts.go:178-184 | an example of a heading that splits |
| Drafts.CollapseKeepsDoc | internal/aichattools/content_drafts.go:313-318 | collapsing keeps every heading and every line of every body, and shortens runs of empty lines only |
| Drafts.EmptyAfterEmpty | internal/aichattools/content_drafts.go:313-318 | an empty line directly after another one is all that the squeezed reading does not see |
| Drafts.SqueezeIsIdentity | internal/aichattools/content_drafts.go:313-318 | squeezing leaves lines alone exactly when no two empty ones follow each other |
| Drafts.LineIs | internal/aichattools/content_drafts.go:198-222 | which lines are headings and which are fences |
| DraftSections.ParseDraftHeadings | internal/aichattools/content_drafts.go:195-224 | the headings outside fences with their lines |
| DraftSections.StripLeadingHeadingLine | internal/aichattools/content_drafts.go:240-257 | drops a leading repeat of the heading |
| DraftSections.StrippedIs | internal/aichattools/content_drafts.go:240-257 | what follows the first line with text when that line repeats the heading, else everything |
| DraftSections.WithoutHashesIs | internal/aichattools/content_drafts.go:249-252 | of a trimmed line exactly the leading hashes and blanks are dropped |
| DraftSections.ReplaceSection | internal/aichattools/content_drafts.go:266-310 | not found, ambiguous, headings in the text, or the draft with that body replaced and collapsed |
| DraftSections.WriteOutcome | internal/aichattools/content_drafts.go:267-293 | a write is not found, ambiguous, refused or done by how many headings have the name and whether its text has headings |
| DraftSections.WritesTheNamedSection | internal/aichattools/content_drafts.go:259-310 | and it changes the body of the one section so named |
| DraftSections.WriteChangesOneBody | internal/aichattools/content_drafts.go:259-310 | a write of balanced text puts exactly that text between two empty lines under the named heading, and keeps every other line of the draft, except that runs of empty lines may be shortened |
| DraftSections.WriteKeepsHeadings | internal/aichattools/content_drafts.go:290-309 | exactly when a write keeps the heading sequence |
| DraftSections.UnclosedFenceHidesHeadings | internal/aichattools/content_drafts.go:290-293 | an unclosed fence in the first section hides the second heading |
| DraftSections.OutlineSurvives | internal/aichattools/content_drafts.go:178-310 | after an outline, any sequence of writes, refused ones included, whose successful ones have balanced fences leaves exactly its headings |

## Left out

- ContextFitting.FitHistoryWithLedger: the notice is a value that says which notice it is and with which counts; its wording is not modelled.
- TerminalRequest.TerminalNoToolsMessages: how the recorded outcomes are shortened to 200 bytes is not modelled; any recorded text is allowed.
- Transcript.CompleteDanglingTranscriptCalls: message wording is a parameter, so only which text is used where is stated.
- SetupPipeline.Database.Dispatch: a location job only has its own row marked here; the location setup that its finalizer also advances is not part of this model, nor are competitor setups.
- SetupPipeline.Database.UpdateProjectSetupStatus: the timestamps updated_at and completed_at are not modelled.
- SetupSafety.RunIsSafe: projects, jobs and audits are never deleted in the model, and audits carry no error text.
- Bootstrap.BootstrapRun.RunBootstrap: argument validation inside the executor is part of a tool run's outcome, and an update that failed counts as not saved.
- McpProtocol.Turn.RunRound: the preparation of proposals, including its safety reads, is one observation; event delivery and the transcript are not modelled.
- UserQuestions.TurnStore.ResumeUserQuestion: one turn's tables are modelled, so the checks that a checkpoint or request belongs to another turn cannot fail; budgets and usage travel in the checkpoint unchanged and are not repeated there.
- Budgets.TurnBudgets.Apply: nil budgets, which cap nothing while running and snapshot as spent, are not modelled.
- PageReader.FragmentPageBlocks: building blocks from stored HTML is not modelled; laws about whole pages ask for one payload for each block, which is all the formatter builds.
- ToolCallStream.StreamToolCalls: what reasoning deltas, usage events and diagnostics carry is not modelled, only that they may fail.
- SkillReader.ReadSkill: scanning the skill folders, which happens once, is not modelled; confinement to a skill's directory shows only as what the disk answers.
- MapQueries.LocationQueries.SaveLocationMapQueryStarter: only the location's map rows are represented, already in the order the query lists them.
- DraftSections.ReplaceSection: Unicode case folding is equality of an arbitrary canonical form.
- Exact-text draft edits, argument parsing, tool descriptions and summaries are left out: each is a single-branch fact.
- Competitor and location setup, visibility scoring and the keyword pipeline are left out: they finalize elsewhere.
- Goroutine scheduling, lease timing and polling are left out: they appear as steps that may happen at any moment.
