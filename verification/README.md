# Verified models of AI Intelligence OS

This project models, in Dafny, the parts of the platform whose correctness is a
matter of state, order and arithmetic, and proves what they promise: the life of agent runs, the
server-sent-event stream from model to browser, hybrid search, the job scheduler, retries, stage
tracking, refresh tokens and the browser's refresh gate, the vector index, provider fallback,
path normalising, metrics and article ingestion. `dafny verify dfyconfig.toml` checks it.

Code that updates objects is a class whose methods are proved against a specification function or
relation (`Next`, `Follows`, `Apply`, `Handle`, ...); the properties over all runs and all inputs
are lemmas about that specification. The concurrent parts are state machines whose steps are what
one coroutine does between two awaits, in any interleaving.

| file | models |
|---|---|
| `RunLifecycle.dfy`, `AgentRuntime.dfy` | submit, background task, cancel, resume and recovery of agent runs on one service instance |
| `RecoveryScan.dfy` | the startup scan over run rows, and its counters |
| `StageTracking.dfy` | graph callbacks, their event buffer, and the stage rows made from it |
| `RetryExecutor.dfy` | error classification, streaming execution with cancel, the retry loop and its backoff |
| `SseStream.dfy` | the chunked line reader `parseSSE` and the frames it reads |
| `LlmRouter.dfy`, `AnswerStream.dfy` | provider routes, fallback, streaming; a streamed answer end to end |
| `Fusion.dfy`, `KnowledgeIndex.dfy` | weighted reciprocal rank fusion; vectors against the item table; dense retrieval |
| `Scheduler.dfy` | scheduled jobs and the in-memory trigger table |
| `TokenGate.dfy`, `RefreshTokens.dfy` | single-flight token refresh in the browser; refresh tokens in the store |
| `PathNormalizer.dfy` | UUID replacement in request paths |
| `Metrics.dfy` | label keys, counters, histogram buckets |
| `Ingestion.dfy` | article deduplication and saving |
| `Ordering.dfy`, `StringOrder.dfy`, `Slicing.dfy`, `Wrappers.dfy` | sorting by a total order, string order, slices, optional values |

## What the code does not keep

Several promises hold only under a condition. For each the exact condition is proved, and an input on which the
promise fails is given.

- `cancel_run` promises a run that is over. With two overlapping `resume` calls it returns while another task of the
  run is executing, with neither its task nor its flag in the tables
  (`RunLifecycle.OverlappingResumesEscapeCancel`, in a state that `RunLifecycle.CancelReturnsBesideATask` reaches
  from the empty service), because `resume` checks and claims the row in separate steps. In any run at all the
  cancelled row is final exactly when no other operation on the run is between its check and its write and no task
  may still write (`RunLifecycle.CancelReturns`, `RunLifecycle.StaysCancelledExactlyWhenSettled`); as long as
  nothing is resumed the second half holds by itself (`RunLifecycle.CancelReturnsWithoutResume`). The tables stay in
  order exactly as long as every resume takes over a run for which nothing on the instance works
  (`RunLifecycle.OrderlyStep`, `RunLifecycle.OrderlyRuns`); `RunLifecycle.SecondClaimIsNotCalm` shows that the
  second claim is the first step to break this.
- A cancel that signals before the task's first step loses its flag and waits out its time
  (`RunLifecycle.EarlySignalIsLost`): in any run a flag is set exactly when some cancel has signalled and no task of
  the run has started or left since (`RunLifecycle.FlagIsTheLastSignal`), and in a calm run that of an executing task
  exactly when some cancel has signalled since it started (`RunLifecycle.FlagIsASignalSinceTheStart`).
- `checked` equals `recovered + marked_failed` exactly when no stale run has an empty thread id
  (`RecoveryScan.CountsAddUp`, `RecoveryScan.EmptyThreadIdIsNotCounted`).
- croniter accepts expressions that `_parse_cron` rejects after the commit. The trigger table is what a
  restart would rebuild exactly when every enabled job has five fields
  (`Scheduler.TableIsWhatARestartRebuilds`); `Scheduler.SixFieldCronBreaksRestart` is the failing family.
- Frames come back as printed exactly when no payload is empty, has a line break, or a blank at an edge
  (`SseStream.FramingRoundTrip`); a line break cuts a payload (`SseStream.LineBreakCutsPayload`).
- A comment at `_normalize_path` promises UUIDs without hyphens too. One is left in the output exactly when
  32 digits in a row of the path are left alone by the hyphenated matches
  (`PathNormalizer.BareUuidSurvivesExactly`); without such matches all are left
  (`PathNormalizer.WithoutHyphensNothingIsReplaced`), as in `PathNormalizer.UnhyphenatedUuidIsKept`.
- A graph node is shown completed exactly when the first chain call after its last start is an end
  (`StageTracking.StageRowOfCalls`), so an outer node with a nested one stays `executing`
  (`StageTracking.OuterChainStaysExecuting`). A completed row is free of errors exactly when no occurrence of the
  node ever failed (`StageTracking.RowShowsHistory`), so a retried node keeps the error of its first try
  (`StageTracking.RetriedNodeKeepsItsError`).
- A comment in `generate_stream` promises a fallback on `NotImplementedError`. Over the router it reads
  `name`, which the router does not have, so an answer has no `done` exactly when it breaks off that way
  (`AnswerStream.AnswerShape`, `AnswerStream.BrokenAnswerHasNoDone`). The providers of the repository that lack
  streaming raise before any token, where the router itself falls back.
- A comment at `refreshAccessToken` asks callers to keep the session on network errors and 5xx answers. `request`
  keeps it exactly when the refresh call was not unreachable or no token was set (`TokenGate.SessionIsKeptExactly`);
  `TokenGate.FailingServerSignsOut` is a run from the start in which one 503 signs a user out, and
  `TokenGate.SessionLastsExactly` tells how long a token lasts in any run.
- The refresh endpoint promises one-use rotation. A refresh trades one live token for one exactly when nothing gave
  the token up, and it did not expire, between its `validate` and its `rotate`
  (`RefreshTokens.InterruptedRefreshConservesExactly`); two refreshes of one token that overlap leave two
  (`RefreshTokens.TwoRefreshesAddOne`).
- `_sync_embedding` is written to swallow failed embedding and upsert calls. Its handler names a variable that is not
  bound there, so it raises in its turn and the request is rolled back. The request answers as if the calls had
  succeeded exactly when it is a delete, or does not get to write an item's content, or no configured call raises
  (`KnowledgeIndex.FailuresAreSwallowedExactly`); otherwise the item table stays as it was
  (`KnowledgeIndex.RaisedRequestKeepsTheTable`).
- The payload beside a vector stays current over an update exactly when the update brings the vector up to date, or
  fails outright, or changes neither title, kind nor tags (`KnowledgeIndex.PayloadStaysCurrentExactly`); a new title
  alone leaves the old one (`KnowledgeIndex.NewTitleIsNotIndexed`).

## Model

| member | source | states |
|---|---|---|
| `RunLifecycle.NextIsWellFormed` | backend/services/agent_runtime_service.py:267-369 | every step of every coroutine keeps the run, token, task and call tables naming existing entries |
| `RunLifecycle.SettledForever` | backend/services/agent_runtime_service.py:631-661 | once a row is cancelled with no task able to write and no operation in flight on the run, no sequence of steps of tasks, cancels, resumes or scans changes it |
| `RunLifecycle.TaskCanOverwrite` | backend/services/agent_runtime_service.py:302-363 | from any state with a task of the run that may still write there is a run of the machine after which the row is not cancelled |
| `RunLifecycle.CallCanOverwrite` | backend/services/agent_runtime_service.py:716-739 | the same for any submit, resume, cancel or scan caught between its check and its write |
| `RunLifecycle.StaysCancelledExactlyWhenSettled` | backend/services/agent_runtime_service.py:631-661 | a cancelled row stays cancelled in all continuations if and only if nothing is in flight on the run and no task of it may write |
| `RunLifecycle.OrderlyStep` | backend/services/agent_runtime_service.py:263-367 | from an orderly state, a step keeps the order if and only if it is calm; order means: one live task per run and it is the tabled one, no dispatch beside a live task, a waiting cancel waits for the one live task it saw |
| `RunLifecycle.OrderlyRuns` | backend/services/agent_runtime_service.py:263-367 | every point of a run, of any length, is orderly if and only if every step of it is calm |
| `RunLifecycle.RowIsItsLastWrite` | backend/services/agent_runtime_service.py:318-363 | in any run, a row shows its last write: `running` of a submit or resume, `cancelling` and `cancelled` of a cancel, `interrupted` or `failed` of the scan, and of a task the last result of its executor, or `timeout` or `failed` for its last exception |
| `RunLifecycle.WritingIsTheLastConclusion` | backend/services/agent_runtime_service.py:302-363 | a task about to write holds the status of its last result or exception |
| `RunLifecycle.OwnerIsTheSubmitter` | backend/services/agent_runtime_service.py:206-223 | in any run, the owner of a row is the one it was submitted for |
| `RunLifecycle.CancelReturns` | backend/services/agent_runtime_service.py:631-661 | at the end of any run from the empty state, a returning cancel leaves the row cancelled, and it is final if and only if nothing else is in flight and no task may still write; in a calm run in which no task was created since the cancel read the task table, every task of the run is past its last write and out of the table (or never started) |
| `RunLifecycle.CancelReturnsWithoutResume` | backend/services/agent_runtime_service.py:631-661 | in the everyday case, as long as nothing is resumed and no task is newer than the cancel's look at the table, the row is final if and only if nothing else is in flight |
| `RunLifecycle.FlagIsTheLastSignal` | backend/services/agent_runtime_service.py:284-367 | at every point of any run, a flag is set if and only if some cancel of the run has signalled and no task of it has started or left since |
| `RunLifecycle.FlagIsASignalSinceTheStart` | backend/services/agent_runtime_service.py:284-307 | in a calm run, where no other task of the run touches it, the flag of an executing task is set if and only if some cancel has signalled since its first step |
| `RunLifecycle.EarlySignalIsLost` | backend/services/agent_runtime_service.py:643-649 | a waiting cancel whose signal came before the task's first step: that step clears the flag |
| `RunLifecycle.SecondClaimIsNotCalm` | backend/services/agent_runtime_service.py:719-739 | up to the second of two overlapping claims everything is orderly, and that claim is possible and not calm |
| `RunLifecycle.BothResumesRun` | backend/services/agent_runtime_service.py:716-790 | from the empty service, two requests that find a run interrupted both claim it and start a task |
| `RunLifecycle.CancelReturnsBesideATask` | backend/services/agent_runtime_service.py:631-661 | a cancel that follows waits for the tabled task only; that one stops at the flag, takes flag and table entry with it, and the cancel returns beside the other, executing |
| `RunLifecycle.OverlappingResumesEscapeCancel` | backend/services/agent_runtime_service.py:631-661 | there nothing is in flight, no task is newer than the cancel's look, both tables are empty, a task is executing, and the row need not stay cancelled |
| `AgentRuntime.AgentRuntimeService.Submit` | backend/services/agent_runtime_service.py:168-231 | refuses an unknown agent type without change; else inserts a running row and is then about to create the task |
| `AgentRuntime.AgentRuntimeService.CancelBegin` | backend/services/agent_runtime_service.py:631-640 | the three checks of a cancel in order, with their errors; on success the machine's step, otherwise no change |
| `AgentRuntime.AgentRuntimeService.ResumeBegin` | backend/services/agent_runtime_service.py:716-726 | the three checks of a resume in order, with their errors |
| `AgentRuntime.AgentRuntimeService.Advance` | backend/services/agent_runtime_service.py:168-961 | whichever coroutine the event loop resumes, the fields take the step of the machine |
| `AgentRuntime.AgentRuntimeService.RunEventLoop` | backend/services/agent_runtime_service.py:168-961 | over any interleaving the fields are the state the machine reaches, so everything proved of the machine holds of them |
| `RecoveryScan.AgentRuns.RecoverOne` | backend/services/agent_runtime_service.py:871-942 | one row: skipped, failed lookup, recovered or without checkpoint, with status, stage, times, output payload and message |
| `RecoveryScan.AgentRuns.RecoverStaleRuns` | backend/services/agent_runtime_service.py:812-961 | without a checkpointer nothing happens; else exactly the stale rows are treated and the counts are their numbers |
| `RecoveryScan.AgentRuns.Resume` | backend/services/agent_runtime_service.py:716-739 | succeeds exactly for an owned interrupted run, which restarts at the present time |
| `RecoveryScan.ScanSettlesStaleRuns` | backend/services/agent_runtime_service.py:844-942 | no stale run with a thread id is left; each due run, told by status, start time and thread id, is interrupted with version and message when its lookup finds a checkpoint, and failed with the reason otherwise; all other rows are untouched |
| `RecoveryScan.CountsCount` | backend/services/agent_runtime_service.py:844-961 | which runs the three counts count, told by status, start time, thread id and lookup |
| `RecoveryScan.CountsAddUp` | backend/services/agent_runtime_service.py:957-961 | checked is recovered, failed and threadless together, so recovered and failed suffice exactly when all thread ids are non-empty |
| `RecoveryScan.EmptyThreadIdIsNotCounted` | backend/services/agent_runtime_service.py:871-874 | a stale run with an empty thread id is checked, and neither recovered nor failed |
| `RecoveryScan.ScanIsIdempotent` | backend/services/agent_runtime_service.py:844-942 | a second scan with the same cutoff changes no row, recovers none and fails none, whatever its lookups answer |
| `RecoveryScan.ResumedRunIsSafeForMaxHours` | backend/services/agent_runtime_service.py:731-738 | a run resumed at t is untouched by a scan at u if and only if u is at most t + max_hours |
| `StageTracking.AgentRuntimeCallback.OnChainStart` | backend/workflows/graph/callbacks.py:54-71 | appends a start event and makes the node current |
| `StageTracking.AgentRuntimeCallback.OnChainEnd` | backend/workflows/graph/callbacks.py:73-89 | appends an end event for the current node, if any, and clears it |
| `StageTracking.AgentRuntimeCallback.OnChainError` | backend/workflows/graph/callbacks.py:91-106 | the same with an error |
| `StageTracking.AgentRuntimeCallback.OnToolStart` | backend/workflows/graph/callbacks.py:108-124 | appends a `tool:` event and leaves the current node |
| `StageTracking.AgentRuntimeCallback.On` | backend/workflows/graph/callbacks.py:54-144 | every handler does to buffer and current node what the fold over calls does |
| `StageTracking.StageRepository.CreateStage` | backend/repositories/agent_stage_progress_repository.py:26-45 | appends one row with its input summary and no output, error, duration or end time |
| `StageTracking.StageRepository.UpdateStage` | backend/repositories/agent_stage_progress_repository.py:47-76 | changes the one row of that run and name, keeping status, output, error and duration where none is given; no row and several rows are told apart and change nothing |
| `StageTracking.TrackEvents` | backend/services/agent_runtime_service.py:541-565 | the event loop computes the fold of the events |
| `StringOrder.LessIsFirstDifference` | backend/services/agent_runtime_service.py:571 | strings are ordered by their first difference, a proper beginning coming first |
| `StageTracking.StageRepository.PersistStages` | backend/services/agent_runtime_service.py:541-586 | succeeds if and only if no node that is not executing has a row of that run already; then the new rows are exactly one per tracked node, sorted by name and numbered from 0; otherwise those of the nodes before the first clash, and the bare row of that node; older rows are kept |
| `StageTracking.VerdictDecidesStage` | backend/workflows/graph/callbacks.py:54-106 | over any calls, a node's status, and the output of an end or the error of a failure, are decided by the first chain call after its last start |
| `StageTracking.LastIsLastOccurrence` | backend/workflows/graph/callbacks.py:54-106 | the last ended (failed) occurrence of a node is one, and no later one ended (failed); there is none if and only if no occurrence ever did |
| `StageTracking.HistoryDecidesOutputAndError` | backend/services/agent_runtime_service.py:547-565 | over any calls, a node's output is that of its last occurrence that ended and its error that of its last one that failed, whichever came later |
| `StageTracking.TrackedNodes` | backend/workflows/graph/callbacks.py:54-124 | over any calls, the tracked nodes are exactly the started chain names that do not begin with `tool:` |
| `StageTracking.StageTableOfCalls` | backend/services/agent_runtime_service.py:541-586 | over any calls, the rows have the started nodes as names in ascending order, numbered 0 to n-1, never `pending`, with an end time exactly when not `executing` |
| `StageTracking.RowShowsHistory` | backend/services/agent_runtime_service.py:541-586 | so does its row unless it is executing; a completed row has no error if and only if no occurrence ever failed, a failed row no output if and only if none ever ended |
| `StageTracking.StageRowOfCalls` | backend/services/agent_runtime_service.py:541-586 | and a row shows status, output and error of the last occurrence, with the error or output that earlier ones have left |
| `StageTracking.RetriedNodeKeepsItsError` | backend/services/agent_runtime_service.py:558-565 | a node that failed and then ended is completed with the error of its first try |
| `StageTracking.OuterChainStaysExecuting` | backend/workflows/graph/callbacks.py:66-89 | a node with a nested node inside stays `executing` although both ended |
| `ErrorClassifier.AnyOccursMeans` | backend/workflows/error_classifier.py:72-80 | the pattern scan answers whether some pattern occurs |
| `ErrorClassifier.LowerIsByCharacter` | backend/workflows/error_classifier.py:70 | the letters A to Z are lowered, one by one, and all else is kept |
| `ErrorClassifier.TransientExactly` | backend/workflows/error_classifier.py:56-83 | a message is retried if and only if, in lower case, it holds some transient pattern and no permanent one |
| `ErrorClassifier.WrappingAMessage` | backend/workflows/error_classifier.py:56-83 | text around a message never undoes a permanent marker, and a transient message stays transient exactly when the whole shows no permanent marker |
| `Executor.StreamWithCancel` | backend/workflows/executor.py:201-212 | the non-null items before the first set flag; an error of the stream shows only if the flag was never seen |
| `Executor.NonNullIsSelection` | backend/workflows/executor.py:204-212 | the chunks kept are exactly the non-null items, in their order |
| `Executor.SyncExecute` | backend/workflows/executor.py:138-198 | merges those items; a cancelled stream is reported completed with its partial output |
| `Executor.MergedIsLastWriter` | backend/workflows/executor.py:174-178 | a key is in the output exactly when some chunk sets it, with the value of the last chunk that does |
| `RetryExecutor.Configure` | backend/workflows/retry_executor.py:52-57 | accepted exactly when attempts are at least 1 and 0 <= base <= cap |
| `RetryExecutor.DecidingIsUnique` | backend/workflows/retry_executor.py:82-209 | the deciding attempt is the only one preceded by transient failures only and, unless it is the last allowed, not one itself |
| `RetryExecutor.TransientFailureMeans` | backend/workflows/retry_executor.py:91-175 | what is retried is an exception, or a failed result, whose message is transient |
| `RetryExecutor.Retrier.Execute` | backend/workflows/retry_executor.py:69-209 | the loop makes one inner call per attempt up to the deciding one and reports that outcome; waits and metric are those of its retries; the final assertion on `last_result` never fails |
| `RetryExecutor.RunWithRetries` | backend/workflows/retry_executor.py:36-209 | for any outcomes: calls are `retry_count` + 1 and within `max_attempts`, all but the last failed transiently; the answer is that of the last call, status, payload and message; the waits start at the base, double and stop growing at the cap, and their sum is under both bounds |
| `RetryExecutor.MetricGrowsByRetries` | backend/workflows/retry_executor.py:64-67 | the retry counter grows by exactly the retries: one under label 1, one under 2, the rest under 3 |
| `RetryExecutor.DelaysGrowBetweenBaseAndCap` | backend/workflows/retry_executor.py:105 | delays never fall and lie between base and cap |
| `RetryExecutor.DelayDoubles` | backend/workflows/retry_executor.py:105 | each delay is twice the one before, up to the cap |
| `RetryExecutor.TotalDelayUnderCap` | backend/workflows/retry_executor.py:105 | r retries wait at most r times the cap |
| `RetryExecutor.TotalDelayUnderGeometricSum` | backend/workflows/retry_executor.py:175 | and at most base * (2^r - 1), with equality exactly while the cap has cut no delay |
| `SseStream.TrimIsWindow` | frontend/hooks/useKnowledge.ts:230-232 | trimming takes off exactly the blanks at both edges |
| `SseStream.AsciiBlanks` | frontend/hooks/useKnowledge.ts:230-232 | space, tab and line ends are trimmed, and no other printed ASCII |
| `SseStream.DataLineCarries` | frontend/hooks/useKnowledge.ts:230-233 | a line that begins with `data:`, blanks aside and with or without a space after the colon, carries exactly what follows |
| `SseStream.OtherLinesCarryNothing` | frontend/hooks/useKnowledge.ts:231 | any other line carries nothing |
| `SseStream.EventsAreHeard` | frontend/hooks/useKnowledge.ts:235-251 | what each kind of event makes the callbacks see, with the defaults for absent fields |
| `SseStream.SplitJoins` | frontend/hooks/useKnowledge.ts:225 | splitting at newlines gives newline-free parts that join to the text |
| `SseStream.SplitIsInverseOfJoin` | frontend/hooks/useKnowledge.ts:225 | and is the only such way to cut it |
| `SseStream.SplitAppend` | frontend/hooks/useKnowledge.ts:224-226 | splitting a longer text is keeping the complete lines and splitting the unfinished one with what follows |
| `SseStream.HandleLines` | frontend/hooks/useKnowledge.ts:228-253 | calls back for the lines before the first look that sees the signal, and stops there |
| `SseStream.AnswerIsAllLines` | frontend/hooks/useKnowledge.ts:216-257 | the answer to a text is the callbacks of its complete lines, and an error at the end exactly when the stream breaks |
| `SseStream.ParseSse` | frontend/hooks/useKnowledge.ts:209-260 | the lines handled are exactly those whose look at the signal comes before the first that sees it, and a broken stream is reported exactly when the signal is not seen after it; without an abort the callbacks depend on the concatenated text and its ending alone, and with one they are a beginning of those |
| `SseStream.ParseTwoCuts` | frontend/hooks/useKnowledge.ts:216-253 | two ways of cutting one text give the same callbacks |
| `SseStream.FramingRoundTrip` | backend/routers/knowledge.py:323-333 | printing payloads as frames and reading the lines gives them back if and only if each is non-empty, on one line and without blank edges |
| `SseStream.LineBreakCutsPayload` | backend/routers/knowledge.py:323-333 | a payload with a line break is read back as what stands before the break |
| `SseStream.ReadPrinted` | backend/routers/knowledge.py:323-333 | through the reader itself, under any chunking, the payloads read are those printed if and only if each can be carried |
| `LlmRouter.FirstRegisteredIsFirst` | backend/services/llm/router.py:116-140 | a task's route is its first one with a registered provider |
| `LlmRouter.RouteIsRegisteredOrDefault` | backend/services/llm/router.py:116-140 | a route leads to a registered provider or to the default, and keeps a given model's name |
| `LlmRouter.NamedProviderIsUsed` | backend/services/llm/router.py:116-140 | a model with the name of a registered provider in front goes to that provider, without the name |
| `LlmRouter.OtherModelsGoToTheDefault` | backend/services/llm/router.py:116-140 | any other model goes to the default provider as it is |
| `LlmRouter.TaskRouteIsUsed` | backend/services/llm/router.py:116-140 | without a model, a task goes to its first route with a registered provider |
| `LlmRouter.DefaultRouteIsUsed` | backend/services/llm/router.py:116-140 | and to the default provider and model where there is none |
| `LlmRouter.FirstAnswerIsFirst` | backend/services/llm/router.py:230-296 | the chosen reply is that of the first candidate that answers, all before it having failed; none exactly when all fail |
| `LlmRouter.CandidatesRouteByRoute` | backend/services/llm/router.py:230-296 | the candidates are the primary and then, route by route, the registered providers other than the primary, each asked for the model of its route |
| `LlmRouter.ExecuteWithFallback` | backend/services/llm/router.py:230-296 | the loop returns that reply, over the primary and then the registered others of the chain |
| `LlmRouter.Stream` | backend/services/llm/router.py:167-215 | the provider's stream as it is, or, when it fails before its first token, the fallback reply |
| `AnswerStream.GenerateStream` | backend/services/rag/generator.py:68-127 | turns the backend's stream into token, error and done events, with both exception branches |
| `AnswerStream.AnswerShape` | backend/services/rag/generator.py:101-127 | tokens, at most one error, then exactly one final `done`, if and only if the router's provider does not break off unimplemented in mid-stream |
| `AnswerStream.BrokenAnswerHasNoDone` | backend/services/rag/generator.py:106-120 | over a provider that gives one token and then breaks off unimplemented, the answer is that token alone |
| `AnswerStream.AnswerText` | backend/services/rag/generator.py:101-127 | the text is the whole stream, or a beginning followed by an error, or by nothing if it breaks off unimplemented, or, only when nothing was streamed, the reply of the first answering provider |
| `AnswerStream.AnswerTextOfProvider` | backend/services/rag/generator.py:101-127 | over a single provider, the text is its whole stream, or what it streamed and the error, or, when it breaks off unimplemented, what it streamed and its whole reply |
| `AnswerStream.AskAndRead` | backend/routers/knowledge.py:282-333 | from model to browser under any chunking: one callback per event, in order; `onDone` last and once unless the router's provider breaks off unimplemented |
| `Fusion.RankIsLastPosition` | backend/services/rag/retriever.py:325-331 | an id's rank is its last position in the branch, counted from one |
| `Fusion.InSomeBranch` | backend/services/rag/retriever.py:335 | the ids ranked are exactly those found by some branch |
| `Fusion.FusedHit` | backend/services/rag/retriever.py:334-376 | with distinct ids, a hit's score is the sum of weight / (60 + position) over the branches that hold it, its text that of the dense hit where there is one, and its branch scores those of the branches |
| `Fusion.FuseResults` | backend/services/rag/retriever.py:312-378 | a true top-k: distinct ids of the union, scores not rising, as many as pass the threshold up to the limit, and no omitted passing id scores above a returned one |
| `Fusion.ThresholdIsExact` | backend/services/rag/retriever.py:350-359 | an id is returned only if it reaches the threshold, and one that does is returned unless the limit is used up by ids that score no less |
| `Fusion.ThresholdAlone` | backend/services/rag/retriever.py:350-359 | when all ids fit the limit, an id is returned if and only if it reaches the threshold |
| `Fusion.Dominance` | backend/services/rag/retriever.py:333-343 | with non-negative weights an id ranked at least as well in every branch that holds the other scores at least as much |
| `Fusion.ScoreBound` | backend/services/rag/retriever.py:333-353 | no score exceeds (dense_weight + keyword_weight) / 61, and a threshold above that empties the result |
| `Fusion.OneEmptyBranchKeepsTheOtherOrder` | backend/services/rag/retriever.py:312-378 | with one branch empty and the other's weight positive, the ids returned are a beginning of that branch's |
| `KnowledgeIndex.KnowledgeItemService.SyncEmbedding` | backend/services/knowledge_service.py:103-134 | stores the embedding of the content with title, kind and tags under the id when the calls take effect, and raises exactly when one of them does |
| `KnowledgeIndex.KnowledgeItemService.DeleteVector` | backend/services/knowledge_service.py:136-144 | removes the vector when the call takes effect, and never raises |
| `KnowledgeIndex.KnowledgeItemService.EndRequest` | backend/routers/deps.py:53-68 | keeps what the request wrote to the table, or rolls it back when an exception came through |
| `KnowledgeIndex.KnowledgeItemService.CreateKnowledgeItem` | backend/services/knowledge_service.py:53-67 | writes the item, then brings the index after it; when a call raises the item is not stored |
| `KnowledgeIndex.KnowledgeItemService.UpdateKnowledgeItem` | backend/services/knowledge_service.py:69-88 | not found, refused for a null, raised, or done: then each field is the request's value where set and the old one elsewhere, owner and other items stay, and an applied new content is what the index embeds |
| `KnowledgeIndex.KnowledgeItemService.DeleteKnowledgeItem` | backend/services/knowledge_service.py:90-101 | removes an owned item, then its vector, whose failure is swallowed |
| `KnowledgeIndex.EditIsAsRequested` | backend/services/knowledge_service.py:69-88 | the same of the state alone: no edit is lost and nothing else changes |
| `KnowledgeIndex.FailuresAreSwallowedExactly` | backend/services/knowledge_service.py:103-144 | a request answers as if its vector calls had succeeded if and only if it deletes, or does not write content, or no configured call raises |
| `KnowledgeIndex.RaisedRequestKeepsTheTable` | backend/services/knowledge_service.py:103-134 | a request that raises leaves the item table as it was, and the index too unless an upsert landed that then failed |
| `KnowledgeIndex.IndexFollowsTable` | backend/services/knowledge_service.py:53-144 | over any operations and whatever became of their calls, every id whose latest vector call neither was skipped, nor failed on a delete, nor landed and then failed is indexed exactly when stored, under the embedding of its current content |
| `KnowledgeIndex.IndexIsEmbeddedTable` | backend/services/knowledge_service.py:53-144 | if nothing was skipped, the deletes' calls took effect and no upsert landed that then failed, the index has exactly the stored ids with the embeddings of their contents, whatever other calls failed |
| `KnowledgeIndex.PayloadStaysCurrentExactly` | backend/services/knowledge_service.py:77-87 | a current payload stays current over an update if and only if the vector is brought up to date, or the calls fail outright, or title, kind and tags stay |
| `KnowledgeIndex.NewTitleIsNotIndexed` | backend/services/knowledge_service.py:77-87 | an update of the title alone leaves the old title in the index |
| `KnowledgeIndex.FetchAndRank` | backend/services/rag/retriever.py:265-293 | returns the stored hits, in order, cut to the limit |
| `KnowledgeIndex.KnownIsSubsequence` | backend/services/rag/retriever.py:265-293 | they are an order-preserving selection of exactly the stored hits, with the table's current fields |
| `KnowledgeIndex.RetrieveDense` | backend/services/rag/retriever.py:139-167 | nothing when embedding or search fails; else, after any operations and whatever became of their calls, only stored items, with current title, content, kind and tags and the score of the search; if every request kept index and table together, every hit, up to the limit |
| `Scheduler.SchedulerService.Start` | backend/services/scheduler/service.py:51-65 | does nothing if the setting is off or it is started; else rebuilds the table from the enabled jobs and is started, or raises and leaves it half built |
| `Scheduler.SchedulerService.Stop` | backend/services/scheduler/service.py:67-73 | drops the table and the started flag |
| `Scheduler.SchedulerService.CreateJob` | backend/services/scheduler/service.py:100-137 | rejects a bad cron, type or taken name without change; else stores an enabled job and registers it |
| `Scheduler.CreatedJobIsAsGiven` | backend/services/scheduler/service.py:100-137 | a creation is refused if and only if the cron is invalid, the type unknown or the name taken; else the job has every field as given, enabled, and the others stay |
| `Scheduler.SchedulerService.UpdateJob` | backend/services/scheduler/service.py:139-190 | rejects an absent or foreign job or a bad field without change; else stores the patched job and registers it anew or removes its trigger |
| `Scheduler.UpdatedJobIsAsGiven` | backend/services/scheduler/service.py:139-190 | an update is refused if and only if the job is absent or foreign or a field it sets is bad; else every field has the value given, or the old one, and the others stay |
| `Scheduler.SchedulerService.ToggleJob` | backend/services/scheduler/service.py:211-213 | an update of `enabled` alone, by no particular user |
| `Scheduler.SchedulerService.DeleteJob` | backend/services/scheduler/service.py:192-209 | removes job and trigger, unless absent or foreign |
| `Scheduler.DeletedJobIsGone` | backend/services/scheduler/service.py:192-209 | a deletion is refused if and only if the job is absent or foreign; else it takes out that job alone |
| `Scheduler.SchedulerService.RestoreEnabledJobs` | backend/services/scheduler/service.py:234-248 | registers every enabled job in name order, and raises exactly when one of them cannot be parsed, leaving the triggers of those before the first such |
| `Scheduler.StepKeepsCache` | backend/services/scheduler/service.py:100-248 | every operation, accepted, rejected or raising late, keeps the running table equal to the enabled parsable jobs; a rejected one changes nothing |
| `Scheduler.StepKeepsNames` | backend/services/scheduler/service.py:340-346 | and keeps job names distinct |
| `Scheduler.TableIsWhatARestartRebuilds` | backend/services/scheduler/service.py:234-248 | over any history, the running table holds enabled ids only and equals what a restart rebuilds if and only if every enabled cron has five fields |
| `Scheduler.TriggersShowTheirCrons` | backend/services/scheduler/service.py:376-387 | over any history, every trigger of a running scheduler shows minute, hour, day, month and weekday of the current cron of its enabled job, each in its place, and every enabled five-field job has one |
| `Scheduler.NewJobIsTriggered` | backend/services/scheduler/service.py:350-387 | a new job with five words, however spaced, is triggered at just these words |
| `Scheduler.UpdatedJobIsTriggered` | backend/services/scheduler/service.py:362-387 | an update leaves an enabled job triggered at its cron and a disabled one without trigger |
| `Scheduler.FiveFieldCronsKeepTheTableExact` | backend/services/scheduler/service.py:328-387 | if only five-field crons are valid, it always does, and registering never raises |
| `Scheduler.FieldsOfWords` | backend/services/scheduler/service.py:376-387 | splitting words set apart by blanks gives the words back |
| `Scheduler.AsciiSpaces` | backend/services/scheduler/service.py:378 | space, tab and line ends set words apart, and no other printed ASCII |
| `Scheduler.FieldsOfSpacedWords` | backend/services/scheduler/service.py:378-379 | splitting words set apart by any blanks, with any blanks first and last, gives the words back |
| `Scheduler.SixFieldCronBreaksRestart` | backend/services/scheduler/service.py:376-387 | creating a job with any valid six-field cron raises after the commit, leaves it without trigger, and makes the next restart raise |
| `TokenGate.EveryInterleaving` | frontend/lib/token-manager.ts:54-87 | in every interleaving at most one refresh call is in the air, a request makes at most two fetches and joins at most one flight, the second fetch only after the join, joiners of one flight get one outcome, and there are no more calls than joiners |
| `TokenGate.OutcomesAreFinal` | frontend/lib/token-manager.ts:60-87 | the outcome of a flight never changes |
| `TokenGate.TurnedAwayJoinsOrStarts` | frontend/lib/token-manager.ts:54-60 | a request turned away joins the flight in the air, or starts a new one, never a completed one |
| `TokenGate.AuthEndpointsAre` | frontend/lib/token-manager.ts:35-44 | the four endpoints and what lies under them count as auth endpoints, and nothing else |
| `TokenGate.SessionIsKeptExactly` | frontend/lib/api.ts:75-86 | a request going on after its flight clears the token if and only if the flight did not land, so the promise to keep the session on network errors and 5xx is kept if and only if the flight was not unreachable or no token was set |
| `TokenGate.SessionLastsExactly` | frontend/lib/api.ts:63-95 | in every interleaving, a token is set if and only if some step has set one and none has cleared it since, and it is the one the last such step brought |
| `TokenGate.StepOnResult` | frontend/lib/api.ts:46-95 | a request under way ends with a result exactly at a step that earns it: 2xx answers, details or another error, a lost connection, a second 401, a failed refresh |
| `TokenGate.ResultIsEarned` | frontend/lib/api.ts:46-95 | in every interleaving, the result a request has is the one some step ended it with |
| `TokenGate.SecondFetchFollowsLanding` | frontend/lib/api.ts:75-79 | a request fetches again exactly when it goes on after a flight that landed |
| `TokenGate.FailingServerSignsOut` | frontend/lib/token-manager.ts:46-53 | from the start, a signed-in user whose refresh is answered with 503 loses the token |
| `TokenGate.Browser.Request` | frontend/lib/api.ts:27-38 | a request goes out with its first fetch |
| `TokenGate.Browser.HandleReply` | frontend/lib/api.ts:46-95 | all branches on a reply: answer, error with details, silent refresh, session expired, cleared token |
| `TokenGate.Browser.RefreshAccessToken` | frontend/lib/token-manager.ts:54-87 | shares the promise in the gate or starts one |
| `TokenGate.Browser.Settle` | frontend/lib/token-manager.ts:60-83 | the end of a refresh call, told apart by its reply (token, denied, unreachable, no token), clears the gate on every path |
| `TokenGate.Browser.AfterRefresh` | frontend/lib/api.ts:75-86 | stores the token and retries once, or clears the token and gives up |
| `RefreshTokens.RefreshTokenStore.Store` | backend/services/refresh_token_store.py:40-49 | writes the hashed token with its owner and expiry |
| `RefreshTokens.RefreshTokenStore.Validate` | backend/services/refresh_token_store.py:51-61 | answers the owner of a live token and drops an expired one |
| `RefreshTokens.RefreshTokenStore.Revoke` | backend/services/refresh_token_store.py:63-67 | deletes the key and says whether it was there |
| `RefreshTokens.RefreshTokenStore.RevokeAllUserTokens` | backend/services/refresh_token_store.py:69-84 | deletes exactly the user's keys and returns their number |
| `RefreshTokens.RefreshTokenStore.Rotate` | backend/services/refresh_token_store.py:86-90 | deletes the old key and stores the new one |
| `RefreshTokens.RefreshTokenStore.RefreshBegin` | backend/routers/auth.py:271-291 | 401 without a cookie, 503 without a store, else `validate`: 401, or on with the owner |
| `RefreshTokens.RefreshTokenStore.Refresh` | backend/routers/auth.py:271-298 | uninterrupted: 401, 503, or the owner of a live token, told by the store; then the new token is stored for that owner with its lifetime, the old one is gone and no other entry changes |
| `RefreshTokens.DeadTokensStayDead` | backend/services/refresh_token_store.py:51-91 | over any calls, a token not in the store is never accepted again unless issued again |
| `RefreshTokens.GivenUpTokensAreDead` | backend/services/refresh_token_store.py:63-91 | refreshing, rotating, revoking and revoking all take the token out of the store |
| `RefreshTokens.RefreshIsCheckThenRotate` | backend/routers/auth.py:285-298 | an uninterrupted refresh is its two halves |
| `RefreshTokens.RefreshIsOneUse` | backend/routers/auth.py:285-298 | a refreshed token is not accepted a second time, whatever happens in between |
| `RefreshTokens.RefreshConserves` | backend/routers/auth.py:285-298 | refreshing keeps every user's number of live tokens, trades one for one for the owner, and touches nobody else's |
| `RefreshTokens.OnlyLoginsAdd` | backend/routers/auth.py:285-298 | over any logins, refreshes and checks, accepted or not, in a time in which nothing expires, a user has as many live tokens as before and one for each login |
| `RefreshTokens.BareRotationConservesExactlyLiveTokens` | backend/services/refresh_token_store.py:86-90 | rotation alone does so if and only if the token was a live one of that user |
| `RefreshTokens.LogoutEverywhereIsExact` | backend/services/refresh_token_store.py:69-84 | revoking all leaves the user no token and everyone else theirs |
| `RefreshTokens.KeptExactlyWhenSpared` | backend/services/refresh_token_store.py:40-91 | over any calls, a stored token stays in the store if and only if none of them gives it up |
| `RefreshTokens.StoredTokenIsAccepted` | backend/services/refresh_token_store.py:40-61 | and is accepted for its user if and only if its time is not up and no call gave it up |
| `RefreshTokens.IssuedTokensLive` | backend/services/refresh_token_store.py:40-61 | a token issued by a login or a refresh is accepted for its user up to its lifetime after the issue and no longer |
| `RefreshTokens.InterruptedRefreshConservesExactly` | backend/routers/auth.py:285-298 | a rotation that comes after other calls keeps the number of live tokens if and only if the validated token has not expired and none of those calls gave it up, and adds one otherwise |
| `RefreshTokens.TwoRefreshesAddOne` | backend/routers/auth.py:285-298 | two refreshes of one token that both validate before either rotates leave its user exactly one live token more |
| `PathNormalizer.NoUuidSurvives` | backend/routers/errors.py:68-81 | no 36-character window of the output is a UUID, not even across a replacement |
| `PathNormalizer.FixedPointsAndIdempotence` | backend/routers/errors.py:68-81 | exactly the UUID-free paths are left alone; normalising twice is normalising once |
| `PathNormalizer.UuidComesOut` | backend/routers/errors.py:77-81 | five groups of 8, 4, 4, 4 and 12 hexadecimal digits joined by hyphens come out as `<uuid>`, alone or after a separator, and what surrounds them is normalised on its own |
| `PathNormalizer.SeparatorSplits` | backend/routers/errors.py:77-81 | a character that no UUID contains, such as a slash, splits a path into sides normalised on their own |
| `PathNormalizer.NormalizeIsLeftmostCut` | backend/routers/errors.py:74-81 | the output is the leftmost non-overlapping matches replaced and everything else kept in order |
| `PathNormalizer.LeftmostCutExists` | backend/routers/errors.py:74-81 | every path has such a cut |
| `PathNormalizer.LeftmostCutIsUnique` | backend/routers/errors.py:74-81 | and only one |
| `PathNormalizer.BareUuidSurvivesExactly` | backend/routers/errors.py:74-81 | the output has a UUID without hyphens if and only if 32 digits in a row of the path are left alone by the hyphenated matches |
| `PathNormalizer.WithoutHyphensNothingIsReplaced` | backend/routers/errors.py:74-81 | in a path without hyphenated UUIDs every UUID without hyphens stays where it is |
| `PathNormalizer.UnhyphenatedUuidIsKept` | backend/routers/errors.py:68-81 | one such path is left as it is |
| `PathNormalizer.ThatPathHasABareUuid` | backend/routers/errors.py:68-81 | and holds a UUID without hyphens |
| `Metrics.KeysIdentifyLabelSets` | backend/metrics.py:77-81 | two label dictionaries share a key if and only if they are equal, in whatever order they were filled |
| `Metrics.ComputeBuckets` | backend/metrics.py:84-100 | one line per bound of any observation and one for infinity, strictly increasing, each with the observations at or below it |
| `Metrics.CountIsCardinality` | backend/metrics.py:98 | a line's count is the number of observations at or below its bound |
| `Metrics.CountIsOfValues` | backend/metrics.py:98 | the count of a finite bound is the number of values at or below it, and that of infinity the number of all |
| `Metrics.LinesOfTable` | backend/metrics.py:89-95 | a bound has a line if and only if it is infinity or some observation was recorded with it |
| `Metrics.TableIsCumulative` | backend/metrics.py:84-100 | counts never fall and the last line is infinity with all observations |
| `Metrics.PrintedIsTheTable` | backend/metrics.py:115-127 | replacing the last line by the total, as the printer does, changes nothing |
| `Metrics.TablesAdd` | backend/metrics.py:84-100 | recording two batches adds their counts at shared bounds, and a bound appears exactly when either has it |
| `Metrics.TableIgnoresOrder` | backend/metrics.py:84-100 | observations in another order give the same table |
| `Metrics.MetricsRegistry.Counter` | backend/metrics.py:21-30 | adds to the series of the name and label set and to no other |
| `Metrics.MetricsRegistry.Histogram` | backend/metrics.py:33-48 | appends to the series of the name and label set and to no other |
| `Metrics.MetricsRegistry.Reset` | backend/metrics.py:71-74 | empties both registries |
| `Metrics.RegistriesFollowTheCalls` | backend/metrics.py:21-48 | over any calls, a counter is the sum, and a histogram the list, of what was recorded since the last reset under its name and an equal label set |
| `Ingestion.IngestionService.GetExistingUrls` | backend/services/ingestion/service.py:76-86 | the non-empty hashes of the stored articles |
| `Ingestion.IngestionService.SaveArticle` | backend/services/ingestion/service.py:88-110 | stores the article with its hash, or nothing |
| `Ingestion.IngestionService.IngestArticle` | backend/services/ingestion/service.py:51-61 | one article: duplicate, saved under the next position, or failed |
| `Ingestion.IngestionService.Ingest` | backend/services/ingestion/service.py:34-74 | the table grows by the saved articles of the batch in order; the counts are those of the verdicts; each saved article is announced once when there is a publisher |
| `Ingestion.VerdictsAddUp` | backend/services/ingestion/service.py:44-63 | saved, deduplicated and failed together are the batch |
| `Ingestion.VerdictsMean` | backend/services/ingestion/service.py:51-61 | an article is a duplicate if its hash was stored before or an earlier one with it was saved; else it is saved or failed as its save goes |
| `Ingestion.CountIsNumber` | backend/services/ingestion/service.py:45-61 | a count is the number of articles with that verdict |
| `Ingestion.RowsStep` | backend/services/ingestion/service.py:88-107 | article by article, the rows added are those of the saved ones, each with its hash |
| `Ingestion.HashesStayDistinct` | backend/services/ingestion/service.py:47-63 | no two stored articles come to share a URL hash |
| `Ingestion.StoredIsSeen` | backend/services/ingestion/service.py:47-63 | the stored hashes are the old ones and those of the saved articles |
| `Ingestion.UnlessFailedItIsStored` | backend/services/ingestion/service.py:47-63 | an article's hash is stored afterwards if and only if some article of that hash in the batch did not fail |
| `Ingestion.FullySavedBatch` | backend/services/ingestion/service.py:47-63 | without failures the stored hashes are the old ones and those of the batch |
| `Ingestion.RepeatSavesNothing` | backend/services/ingestion/service.py:47-63 | ingesting URLs of a fully saved batch again saves nothing, in any order |

## Left out

- Several service instances: the routers build one per request (backend/routers/deps.py:196), so tables shared between requests are claimed for one instance only.
- Transactions: row writes are atomic and immediate; what a flush without commit, a rollback or a closed session loses is not modelled (`_finalize_failed` and `_finalize_cancelled` do not commit).
- Time limits of runs and of the wait in `cancel_run`: a task may be raised into or killed at any await; the wait ends when the task is over, as `asyncio.wait_for` cancels it and waits for it.
- Row fields other than status and owner in the run machine, evaluation, events and notifications of completed runs, listing and stream endpoints.
- AgentRuntime.AgentRuntimeService.Submit: the row's id is new by precondition, as a fresh UUID is; the lookup or creation of the agent row, the metric and the audit event are left out.
- RecoveryScan.AgentRuns.RecoverStaleRuns: takes the rows in any order rather than by start time, which does not show in the result; one time stands for all clock readings of a scan.
- The wiring of callbacks: `_execute_run` makes a callback for a run but does not hand it to the executor (backend/services/agent_runtime_service.py:283-315); the stage theorems hold for a callback that is called.
- Executor.SyncExecute: run ids, durations, end times and the event loop of the result are left out.
- ErrorClassifier.WrappingAMessage: lower-casing is that of ASCII letters.
- RetryExecutor.Retrier.Execute: sleeping is recorded, not timed; exceptions that are not `Exception` are left out.
- UTF-8 decoding, `releaseLock` and JSON syntax in the SSE reader: text is a sequence of characters and JSON parsing a function.
- AnswerStream.AskAndRead: JSON printing is taken to keep to one line with no blank at an edge and to be inverted by parsing.
- LlmRouter.ExecuteWithFallback: prompts, keyword arguments, spans and metrics of a provider call; the chain is used only when the caller passes `_task`.
- Fusion.FuseResults: scores are reals; the order of equal scores is left open, as the source iterates over a set.
- Fusion.OneEmptyBranchKeepsTheOtherOrder: takes ids distinct within the branch, as both searches return them.
- KnowledgeIndex.KnowledgeItemService.EndRequest: a commit that fails after the vector calls is left out; so are audit events.
- KnowledgeIndex.KnowledgeItemService.SyncEmbedding: the article id of an item and the columns that record the embedding model and dimension are left out.
- Search queries, filters, embeddings and full-text matching: the branches are given as lists of hits.
- Scheduler.SchedulerService.CreateJob: which expressions croniter accepts, and the order the database gives names, are parameters; APScheduler is a table of triggers, whether or not its `add_job` takes the keyword it is given; last-run fields and firing are left out.
- TokenGate.Browser.Request: headers, cookies, bodies, the browser metrics and the precedence of `authToken` over the refreshed token; that the retry carries the new token is not claimed.
- RefreshTokens.RefreshConserves: the new token is fresh. Between the two halves of a refresh any calls may come; the single calls on the store, and the delete and the write inside `rotate`, are atomic.
- RefreshTokens.RefreshTokenStore.Store: the stored JSON and Redis expiry are an entry and an operation that may drop entries; hashing is an injective function.
- PathNormalizer.NormalizeIsLeftmostCut: the regular expression is written out as a scanner.
- Metrics.ComputeBuckets: bounds and values are reals, with infinity as a bound; not-a-number and negative infinity are left out, and so are the printed text, sums and evaluation scores.
- Ingestion.IngestionService.SaveArticle: an article is its URL and the rest as one text; a session left unusable by a failed flush is left out.
- Ingestion.IngestionService.Ingest: whether a save succeeds is a parameter; a failing commit and failing publishers are left out. The hash is any function, so colliding URLs count as duplicates, as in the source.
- HTTP routing, authentication, schemas, CRUD services, agents, graph nodes, prompts, React pages and components.
