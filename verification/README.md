# A verified model of the agent conductor

The conductor runs coding agents against GitHub issues on bounded worker pools. This project models
the parts of it that keep state and depend on one another, and proves what they guarantee:

- **Pipelines** (`StepGraph`, `Pipeline`, `PipelineRouting`): the breadth-first structural check, the router,
  and the runs a validated pipeline can have.
- **Sessions** (`TextLines`, `StreamJson`, `StreamShows`, `Harness`, `ToolAnswers`, `SessionMachine`,
  `SessionReports`, `SpawnGuard`, `Transcript`): the budgeted tool loop that prints events, the parser that
  reads them back, the sentinel-driven state machine fed by it, the duplicate-spawn guard, and the transcript
  tailer that survives restarts.
- **Orchestrator** (`Ranking`, `RankPass`, `RankWrites`, `AutoPull`, `PullOutcome`, `Drain`, `DrainOutcome`):
  ranking and its cache, the in-place sort, the greedy pull, and the drain of waiting cards.
- **Pull requests** (`PrSignals`, `PrEntries`): the poller's edge detectors and the assembler's levels.
- **Timers** (`Backoff`, `Retry`, `RetryOutcome`, `AnswerWatch`, `WatchReports`): wrapping back-off arithmetic,
  the retry queue, and the answer watcher.
- **Cards** (`Card`, `CardDetails`): the session fold and the state ladder that end in one card state.

Code that updates state step by step is a class or a method with loops, each proved against a function of
the old state; the properties are lemmas about that function, over all inputs, all runs or all reachable
states. Whatever the code asks of the outside (clock, random numbers, store, pool registry, spawn
callbacks, GitHub, the model) is a parameter that may answer anything.

What each operation does is also said without its own functions, from the lines, events, rows and answers
it meets: `StreamShows`, `ToolAnswers`, `SessionReports`, `RankWrites`, `PullOutcome`, `DrainOutcome`,
`PrEntries`, `RetryOutcome`, `WatchReports`, `CardDetails` and `PipelineRouting` hold these accounts.

Where the code does less than its comments say, the code is modelled, a lemma shows an input that makes
the difference, and another says exactly when the promise holds:

| promise | what the code does |
|---|---|
| every cycle of a pipeline is capped (internal/pipeline/driver.go:108, 135-136) | only every strongly connected component; `Pipeline.EndlessYetAccepted`, `Pipeline.RunsBoundedIff` |
| one worker per issue and mode (internal/session/manager.go:791-823) | a later line can revive a finished session; `SpawnGuard.TwoWorkersReachable`, `SpawnGuard.StepKeepsOneWorkerIff`; a spawn drained at startup can take the key of a worker re-attached after it (app.go:327, 410-416); `SpawnGuard.StartupDrainClashes`, `SpawnGuard.ReattachIff` |
| a dead worker is classified as a live one would be (internal/session/reattach.go:199-247) | needs_pr becomes failed, blocked stays, and the exit and the stop by a pull request no longer count; `SessionMachine.ClassifyAgreesIff` |
| a run that reaches a cap shows the state its BLOCKED message drives (internal/harness/harness.go:58-61) | not when a line of it reports a pull request while the session runs: the session is stopped, the message may go unread, and it ends completed; `SessionMachine.PrOpenedRunCompletes`, `SessionMachine.CapStopBlocksIff` |
| merging drops numbers outside the candidates (internal/orchestrator/orchestrator.go:462-463) | it keeps them; `Ranking.MergeKeepsForeign`, `Ranking.MergeWithModel` |
| cached results are merged in (internal/orchestrator/orchestrator.go:413-414) | their order is not: a second pass replaces the model's order by the listing order; `RankPass.RankingForgottenIff` |
| a row of an unknown role is dropped (internal/orchestrator/drain_pending_pools.go:63-66) | that branch is dead, and such a row would stay; no caller enqueues one (app.go:2066, 4171, 4253, 4395 pass plan or work); `Drain.SelectPool`, `Drain.UnknownRolesStarve` |
| a missed recovery is re-detected by the next poll (internal/issueview/assembler.go:257-260) | the poller's cache still says dirty, so the same conflict is not announced again; `PrSignals.ClearedConflictReturnsIff`, `PrSignals.ClearedConflictStaysHiddenIff` |
| the pending-retry copy is in sync (internal/issueview/assembler.go:180) | giving up hides a pending retry; `Retry.HiddenRetryReachable`, `Retry.ShownInSyncIff` |
| the scheduler enforces the attempt cap (internal/retry/scheduler.go:68-79) | per failed session, not over a chain of retries: the attempt number is never handed on; `Retry.ChainNeverEnds` |
| the delay is capped (internal/retry/scheduler.go:242-243) | a product that wraps escapes the cap; `Backoff.BaseEscapesCap`, `Backoff.CapRightForIff` |
| a DONE card always shows done (internal/cardstate/cardstate.go:126) | not with an unapproved plan and no pull request; `Card.DoneIff` |

## Model

| member | source | states |
|---|---|---|
| StepGraph.BfsVisit | internal/pipeline/driver.go:208-221 | terminates, and the visited set is exactly what is reachable from the start |
| StepGraph.CanReachItself | internal/pipeline/driver.go:168-190 | true exactly when a walk of at least one edge leads back to the start |
| StepGraph.CycleMembers | internal/pipeline/driver.go:193-206 | exactly the strongly connected component of the start |
| Pipeline.BuildIndex | internal/pipeline/driver.go:109-123 | accepts exactly non-empty, unique ids, and then finds every step by its id |
| Pipeline.ValidateCycles | internal/pipeline/driver.go:137-165 | accepts exactly when every component with a cycle holds a capped step |
| Pipeline.Validate | internal/pipeline/driver.go:109-165 | accepts exactly well-formed pipelines, and an error names what is wrong |
| Pipeline.NeverNotFound | internal/pipeline/driver.go:45-98 | a run of a pipeline whose references exist never ends in "not found" |
| Pipeline.CapRespected | internal/pipeline/driver.go:45-98 | over a whole run a capped step is spawned at most its remaining cap |
| Pipeline.CappedCyclesTerminate | internal/pipeline/driver.go:45-98 | when every cycle meets a cap, every run ends properly within a bound computed from the caps and the uncapped steps |
| Pipeline.RunsBoundedIff | internal/pipeline/driver.go:45-98 | the runs of a pipeline are bounded if and only if no cycle avoids every cap |
| Pipeline.CyclesCappedIff | internal/pipeline/driver.go:135-136 | that is the rule the comments state: every cyclic walk meets a capped step |
| Pipeline.CycleRejectionIsGenuine | internal/pipeline/driver.go:137-165 | a pipeline rejected for a cycle has unbounded runs |
| Pipeline.BoundedRunsAreAccepted | internal/pipeline/driver.go:109-165 | no pipeline whose runs are bounded is rejected |
| Pipeline.EndlessYetAccepted | internal/pipeline/driver.go:193-206 | a pipeline that is accepted and has unbounded runs |
| PipelineRouting.AcceptsIff | internal/pipeline/driver.go:109-206 | validation accepts exactly when ids are there and differ, routes lead to declared steps, and every step that can come back to itself has a capped step on a cycle with it |
| PipelineRouting.RejectionMeans | internal/pipeline/driver.go:109-165 | what each rejection says about the steps it names |
| PipelineRouting.NextIs | internal/pipeline/driver.go:45-98 | what the router answers: done, blocked for which reason, or which step to spawn, from the first step of each id, its route, and its cap against its spawns so far |
| PipelineRouting.RunIs | internal/pipeline/driver.go:45-98 | a run spawns what the router answers where it stands, with each step counted once per spawn, and ends with the first answer that is no spawn |
| TextLines.SplitAppend | internal/session/streamjson.go:126-142 | splitting a concatenation joins the last and first segment |
| TextLines.SplitGlue | internal/session/streamjson.go:126-142 | splitting glued segments gives the segments back |
| TextLines.GlueSplit | internal/session/streamjson.go:126-142 | gluing the segments of a text with its breaks gives the text back |
| TextLines.LinesKeepText | internal/session/streamjson.go:126-142 | closed lines and tail hold the text minus its line breaks |
| StreamJson.StreamParser.Feed | internal/session/streamjson.go:56-224 | per event, the lines shown, the text left pending and the cost kept |
| StreamJson.StreamParser.TakeClosedLines | internal/session/streamjson.go:126-142 | the splitting loop emits exactly the closed non-empty lines and keeps the tail |
| StreamJson.ChunksAreOneText | internal/session/streamjson.go:110-147 | deltas fed one by one give the lines and the tail of their concatenation |
| StreamJson.StreamingEqualsBatch | internal/session/streamjson.go:81-147 | however a text is cut into deltas, the "@asst" lines and the flush are its non-empty lines |
| StreamJson.TextConserved | internal/session/streamjson.go:81-147 | over any events, "@asst" payloads and pending text are the delta text without line breaks |
| StreamShows.TrimIs | internal/session/streamjson.go:226-235 | trimming takes the white space off both ends and nothing else |
| StreamShows.SnippetIs | internal/session/streamjson.go:226-235 | a snippet is the trimmed text, or its first n characters and an ellipsis |
| StreamShows.EventShows | internal/session/streamjson.go:56-224 | an event without text shows the pending text if it ends it, and then its own lines |
| StreamShows.TextShows | internal/session/streamjson.go:110-147 | text shows its closed lines and then, live, what stays pending |
| StreamShows.OthersAreOwn | internal/session/streamjson.go:56-224 | over any events the lines besides the assistant's text are, in order, exactly one per tool call, result (with its error mark), notice and plain line |
| StreamShows.CostIsLastReported | internal/session/streamjson.go:196-216 | the cost kept is that of the last result event that reports money or tokens |
| Harness.Emitter.AssistantMessage | internal/harness/streamjson.go:60-106 | the events written for a text and its calls |
| Harness.MessageRoundTrip | internal/harness/streamjson.go:60-106 | an assistant message parses back to its lines and calls, and nothing stays pending |
| Harness.CallsSurviveIff | internal/harness/streamjson.go:20-32 | the calls come back if and only if every argument blob is valid JSON |
| Harness.RunTools | internal/harness/harness.go:149-170 | one answer and one result event per call, in order, with matching ids and the dispatched content, up to the call that finds the context cancelled |
| Harness.Execute | internal/harness/harness.go:62-191 | the reason and turn it stops in, every history and token count the model was asked with, what is said, and every event printed, all determined by what the run meets |
| Harness.StopIsDetermined | internal/harness/harness.go:97-191 | one stop and one number of turns fit |
| Harness.TurnCapIff | internal/harness/harness.go:97-191 | the turn cap stops a run if and only if every allowed turn is productive and stays under the token cap |
| Harness.TokenCapIff | internal/harness/harness.go:170-182 | the token cap stops it if and only if the turns are productive and the sum first reaches the cap in this one |
| Harness.EventsAreTranscript | internal/harness/streamjson.go:60-142 | however far a run got, its events parse back to the lines of the replies, with nothing pending and no result event |
| Harness.ChatsAreGood | internal/harness/harness.go:97-170 | at every chat the history is the prompt and complete blocks, extends the one before, and the tokens are below the cap |
| Harness.OutcomeIsReported | internal/harness/harness.go:62-191 | exactly one result event, last, unless cancelled; at most MaxTurns chats |
| ToolAnswers.ChatsAreTold | internal/harness/harness.go:97-170 | the model is asked in exactly the turns the run gets to; each chat is the one before, the reply, and per call in order an answer with its id and the tool's result or error text; token counts are sums of the replies' |
| ToolAnswers.ResultEventsAreTold | internal/harness/harness.go:149-170 | turn by turn and call by call, one result event per call that runs: the quoted text the model is answered with, flagged exactly when the tool failed |
| ToolAnswers.RunIsShown | internal/harness/streamjson.go:60-142 | what the parser shows of a run: per turn the reply's lines, its calls and a line per result |
| ToolAnswers.StopIsTold | internal/harness/harness.go:97-152 | exactly when a run stops for each reason but the caps |
| ToolAnswers.LastWordsAreTold | internal/harness/harness.go:81-129 | the closing message names the reason; a run the model ends or somebody cancels has none |
| ToolAnswers.SpokenIsTold | internal/harness/harness.go:130-148 | what is said is every reply in order and then that message |
| SessionMachine.PayloadFollowsSentinel | internal/session/manager.go:1421-1430 | the text read after a sentinel at a line start is the rest of that line |
| SessionMachine.RuntimeSession.MatchPatterns | internal/session/manager.go:1432-1576 | per line, the new record, the signals raised, and whether it stops the session |
| SessionMachine.RuntimeSession.HandlePROpened | app.go:3257-3303 | a pull-request URL with a number that the store records stops the session |
| SessionMachine.RuntimeSession.KillAfterPROpened | internal/session/manager.go:1682-1708 | only a running or waiting execute session is stopped |
| SessionMachine.RuntimeSession.FeedLine | internal/session/manager.go:1358-1387 | every line parsed from an event is matched, its signals raised and its stop noted, up to a panic before a line or inside its handling |
| SessionMachine.RuntimeSession.ReadLines | internal/session/manager.go:1126-1186 | raw lines are read until the context is cancelled, by somebody else or by a line that stops the session; once the worker is seen gone all the rest is read |
| SessionMachine.ReadUntilKilled | internal/session/manager.go:1126-1186 | unless somebody else cancels, a line read stops the session if and only if a line of the whole transcript does, and otherwise all is read |
| SessionMachine.RuntimeSession.ReleaseSlot | internal/session/manager.go:1057-1073 | a slot is freed once however often it is released |
| SessionMachine.RuntimeSession.TailAndParse | internal/session/manager.go:1078-1349 | exactly one slot is freed and the session leaves the table, wherever the body panics; the record is the finalised or crashed fold of the lines read, the stop among them counted, and the signals are those raised until then and the exit's |
| SessionMachine.AnnouncementsKeepUp | internal/session/manager.go:1563-1576 | a listener to state changes has the session's state after every line |
| SessionMachine.AnnouncedAtEndIff | internal/session/manager.go:1084-1103 | and at the end, if and only if no panic fails the session or strikes between a change of state and its announcement, in a line or at the exit |
| SessionMachine.CompletionStates | internal/session/manager.go:1204-1247 | normal completion ends completed, failed, paused or needs_pr; failed has a cause, paused a question |
| SessionMachine.CompletionExactly | internal/session/manager.go:1396-1419 | which of the four, from the last state and the exit |
| SessionMachine.QuestionWrittenOnce | internal/session/manager.go:1432-1576 | a question id, once set, never changes |
| SessionMachine.FirstQuestionWins | internal/session/manager.go:1432-1576 | the id kept is that of the first question line |
| SessionMachine.CrashLeavesNoCause | internal/session/manager.go:1084-1103 | a panic can leave a session failed without a cause |
| SessionMachine.TerminalStatesSurviveCrash | internal/session/manager.go:1084-1103 | a panic after finalising changes nothing |
| SessionMachine.CompletedCanRevive | internal/session/manager.go:1432-1576 | a line after "Work complete." can make the session live again |
| SessionMachine.ClassifyAgreesIff | internal/session/reattach.go:199-247 | for every exit, stopped or not, exactly when the classification of a dead worker agrees with the live path |
| SessionMachine.ReplayKeepsStateIff | internal/session/reattach.go:199-225 | lines read again after a restart leave the state as it was if and only if they did not both set a state and leave it paused |
| SessionMachine.DeadWorkerLosesNeedsPr | internal/session/reattach.go:199-247 | a NEEDS_PR line ends needs_pr live and failed after a restart |
| SessionMachine.ClosingBlockedFailsIff | internal/session/manager.go:1396-1576 | a closing BLOCKED message and a clean exit make the session failed with it as cause if and only if no line stops the session; a stopped one ends completed, paused or needs_pr |
| SessionMachine.HarnessSession | internal/harness/harness.go:62-191 | the final record is that of the lines read of the run, whose stop is determined by what it meets |
| SessionMachine.CapStopBlocksIff | internal/harness/harness.go:170-191 | a run stopped by the turn or token cap, that nobody else cancels, ends failed with cause "blocked" if and only if no line of it reports a pull request that stops the session; which state it ends in otherwise |
| SessionMachine.CancelledEndsIff | internal/session/manager.go:1204-1228 | a cancelled run ends completed if and only if a line read stops the session and the lines leave neither a question nor needs_pr |
| SessionMachine.PrOpenedRunCompletes | internal/session/manager.go:1126-1228 | a run whose first reply reports a pull request ends completed without a cause, whatever it does afterwards |
| SessionReports.TagIsStripped | internal/session/manager.go:1421-1430 | a tagged line is matched by its text, and tags differ |
| SessionReports.IndexIsFirst | internal/session/manager.go:1540-1556 | the search finds the first place a pattern stands at, if there is one |
| SessionReports.SignalsAreTold | internal/session/manager.go:1432-1576 | what the lines make the manager call back is, line by line, the call the line asks for and then its change of state; the calls are exactly one per line that asks for one, with the payload it carries |
| SessionReports.CallsAreDetermined | internal/session/manager.go:1432-1576 | one list of calls fits the lines |
| SessionReports.CallsAreTold | internal/session/manager.go:1078-1349 | and over a whole goroutine, however it ends, up to the panic |
| SessionReports.RecordIsTold | internal/session/manager.go:1432-1576 | the state is the one told last, the question the first asked, and prompt, reason and cause those of the last line that gives one, quota errors with their reset time |
| SessionReports.FailureIsTold | internal/session/manager.go:1204-1247 | a failed session names its last BLOCKED line, or else how its worker exited |
| SessionReports.DeadIsTold | internal/session/reattach.go:226-236 | a worker found dead is failed with a reason if it ran, waited or needed a pull request, and left as it was otherwise |
| SessionReports.PullNumberIff | app.go:3240-3255 | a URL has a number if and only if the digits after its first numbered "/pull/" fit 63 bits |
| SessionReports.NumberIsDecimal | app.go:3240-3255 | the digits are read as a decimal number |
| SessionReports.StoppedIff | internal/session/manager.go:1682-1708 | lines stop a session if and only if one reports a numbered pull request that is recorded, in an execute session running or waiting when it is met |
| SessionReports.ReadsUntilCancelled | internal/session/manager.go:1126-1186 | raw lines are read up to the first at which the context is found cancelled before the worker is found gone, and all of them otherwise |
| SpawnGuard.Manager.Reserve | internal/session/manager.go:791-823 | succeeds exactly when the key is neither reserved nor live, and then reserves it |
| SpawnGuard.SpawnWithDir | internal/session/manager.go:770-930 | the reservation is released on every exit, and a session is registered exactly on success |
| SpawnGuard.OneReservationPerKey | internal/session/manager.go:791-823 | over every interleaving from an idle conductor, at most one reservation per workspace, issue and mode |
| SpawnGuard.StepKeepsOneWorkerIff | internal/session/manager.go:791-823 | a step keeps one worker per key if and only if it is not one of two named clashes |
| SpawnGuard.OneWorkerPerKey | internal/session/manager.go:791-823 | over every orderly interleaving from an idle conductor a key has at most one worker in flight or registered live |
| SpawnGuard.RestartIsOrderly | internal/session/reattach.go:39-84 | a run is orderly when no line revives a finished session and re-attached rows have distinct keys and come before every spawn call |
| SpawnGuard.RestartKeepsOneWorker | internal/session/manager.go:920-922 | so from an idle conductor, through a restart, a key has at most one worker |
| SpawnGuard.ReattachIff | internal/session/reattach.go:39-84 | re-attaching rows leaves one worker per key if and only if their keys are distinct and no spawn has taken one |
| SpawnGuard.StartupDrainClashes | app.go:327 | a drained spawn and the re-attached worker of the same key run together |
| SpawnGuard.RevivingLines | internal/session/manager.go:1432-1576 | exactly the lines that revive a finished session |
| SpawnGuard.GuardRefusesIff | internal/session/manager.go:791-823 | in every reachable state a spawn is refused if and only if its workspace, issue and mode together are being spawned or have a session running, waiting, paused or blocked; otherwise it holds the reservation; demo issues are never refused |
| SpawnGuard.EndedSpawnFrees | internal/session/manager.go:814-823 | a spawn that failed or returned no longer holds its key |
| SpawnGuard.FinishedSessionFreesIff | internal/session/manager.go:798-811 | a worker's session stops counting at its exit unless it is paused, and at the latest when it leaves the table |
| SpawnGuard.TwoWorkersReachable | internal/session/manager.go:791-823 | two live workers for one key, with the guard in place |
| Transcript.ReadIsWholeIff | internal/session/manager.go:1120-1195 | a read from a line start returns a whole line exactly when a newline is there |
| Transcript.Follower.Drain | internal/session/reattach.go:199-225 | feeds the rest of the file and persists its end |
| Transcript.Follower.FollowLive | internal/session/reattach.go:128-196 | with the hand-off, feeds what the file gained from the offset on, once |
| Transcript.NoByteSkipped | internal/session/reattach.go:128-225 | over appends, reads, flushes, deaths and restarts, every byte below the persisted offset has been fed |
| Transcript.OffsetIsPersisted | internal/session/reattach.go:128-225 | a flush, the hand-over and the end persist the offset, and nothing else does |
| Transcript.SettledIsPersisted | internal/session/reattach.go:199-225 | a settled session has persisted the whole file |
| Transcript.SettledFedOnce | internal/session/reattach.go:199-225 | through any crashes, the incarnation that settles has fed the file from its starting offset byte for byte, once, and earlier ones every byte before |
| Transcript.UncrashedFedOnce | internal/session/reattach.go:199-225 | without a crash that is the whole file |
| Transcript.FedLinesAreFileLines | internal/session/reattach.go:167-176 | when the worker appends whole lines, what an incarnation has handed to the parser is exactly the lines of the file between its offsets, in order |
| Transcript.WholeLinesFed | internal/session/reattach.go:160-190 | when the worker appends whole lines, fed lines are file lines |
| Transcript.TornLine | internal/session/manager.go:1150-1180 | a line written in two pieces can be fed as two |
| Ranking.SwapBack | internal/orchestrator/orchestrator.go:310-325 | the inner loop inserts one element into the sorted part, in place |
| Ranking.SortByOrchestratorPriority | internal/orchestrator/orchestrator.go:310-325 | the array ends as the insertion sort of what it was |
| Ranking.SortSorts | internal/orchestrator/orchestrator.go:310-325 | sorted by descending priority, then ascending number |
| Ranking.SortPermutes | internal/orchestrator/orchestrator.go:310-325 | a permutation |
| Ranking.SortStable | internal/orchestrator/orchestrator.go:310-325 | ties keep their order |
| Ranking.MergeResults | internal/orchestrator/orchestrator.go:465-529 | the merged order: model, cache, then candidates, first occurrences only |
| Ranking.MergeWithModel | internal/orchestrator/orchestrator.go:462-493 | with a model: duplicate-free, starts with the model's order, and holds exactly all three lists' numbers |
| Ranking.MergeKeepsForeign | internal/orchestrator/orchestrator.go:462-493 | a number that is no candidate stays in |
| Ranking.MergeCoversIff | internal/orchestrator/orchestrator.go:465-529 | covers all candidates if and only if a model ranked them, or the cache was empty or complete |
| Ranking.ApplyResult | internal/orchestrator/orchestrator.go:534-589 | saves and caches the updated candidates in order, up to the first failing save |
| Ranking.ApplyKeepsCrossDeps | internal/orchestrator/orchestrator.go:552-575 | cross-workspace dependencies survive, and applying twice changes nothing more |
| Ranking.RankingRoundTripIff | internal/orchestrator/orchestrator.go:310-553 | sorting the applied candidates gives back the ordering if and only if it covers them |
| RankPass.PartitionByCache | internal/orchestrator/orchestrator.go:415-454 | hits in candidate order with their edges and primitives, and the misses |
| RankPass.RunRank | internal/orchestrator/orchestrator.go:332-411 | how a pass ends, what it saves and what it caches, up to the first failing save |
| RankPass.PassCoversIff | internal/orchestrator/orchestrator.go:376-397 | a pass ranks all candidates if and only if the model answered, or all or none were cached |
| RankPass.SecondPassListsOrder | internal/orchestrator/orchestrator.go:415-454 | a second pass over unchanged issues asks no model and ranks in listing order, with the primitives and the edges that had dependencies |
| RankPass.SecondPassKeepsDeps | internal/orchestrator/orchestrator.go:438-441 | it keeps every card's dependencies, and a card's rationale if and only if its edge had dependencies or no rationale |
| RankPass.RankingForgottenIff | internal/orchestrator/orchestrator.go:332-589 | the cards then sort in listing order; the first order survives if and only if it was the listing order |
| RankWrites.SortedMeans | internal/orchestrator/orchestrator.go:310-325 | in front stands the higher priority, or the same one and no greater number |
| RankWrites.MergedInOrder | internal/orchestrator/orchestrator.go:465-529 | with a model its order, the cached and the candidates' numbers, each where it is met first; without one the cached order, or the candidates' |
| RankWrites.AppliedIs | internal/orchestrator/orchestrator.go:534-575 | a ranked card gets the priority of its place, its own dependencies are replaced by the model's, others stay, the rationale is set or cleared, and nothing else changes |
| RankWrites.PassOutcomeIs | internal/orchestrator/orchestrator.go:332-454 | a pass has no outcome exactly when the model is asked and fails; else edges and primitives are the model's, and the cached ones of cards ranked with their present text |
| RankWrites.RankedAfterIff | internal/orchestrator/orchestrator.go:576-587 | after a pass a card is ranked with a text if and only if it is the one it was ranked with, its row holds its edge, and other rows stay |
| AutoPull.AllCrossDepsResolved | internal/orchestrator/dependency_manager.go:35-46 | true exactly when every dependency is loaded and resolved; otherwise says which way it failed |
| AutoPull.PickNextUnblocked | internal/orchestrator/orchestrator.go:269-308 | the first eligible candidate, or none when there is none |
| AutoPull.PickIsSound | internal/orchestrator/orchestrator.go:270-290 | an issue with an open dependency is never picked |
| AutoPull.PickIsCompleteIff | internal/orchestrator/orchestrator.go:270-290 | the verdict is right for a workspace if and only if no number is open only in another |
| AutoPull.RecomputeBlocked | internal/orchestrator/orchestrator.go:594-630 | saves exactly the issues that lose a dependency, without it |
| AutoPull.PrunedLength | internal/orchestrator/orchestrator.go:622-626 | comparing lengths finds exactly the dependency lists that lose an entry |
| AutoPull.PruneKeepsVerdictIff | internal/orchestrator/orchestrator.go:594-630 | pruning leaves the pick's verdict unchanged if and only if every number the pick counts as open has state "open" |
| AutoPull.Orchestrator.AutoPull | internal/orchestrator/orchestrator.go:179-261 | the board after a pull, and the round it stops in and why |
| AutoPull.StopIsUnique | internal/orchestrator/orchestrator.go:211-261 | that round and reason are determined |
| AutoPull.NeverTwice | internal/orchestrator/orchestrator.go:252-260 | no card is pulled twice, even when cross-workspace answers change |
| AutoPull.PullIsGreedy | internal/orchestrator/orchestrator.go:203-261 | the cards pulled are the first, by priority and number, of exactly the open, wanted, eligible issues |
| AutoPull.PullLedger | internal/orchestrator/orchestrator.go:223-251 | on every exit slots acquired less slots released grow by the cards spawned |
| PullOutcome.PullIsTold | internal/orchestrator/orchestrator.go:179-261 | each round takes the best pullable issue left; the board moves, spawns and dequeues exactly those; the next best is queued exactly when it finds no slot, and gives its slot back when move or spawn fails; other rows stay in order |
| PullOutcome.RecomputeIsTold | internal/orchestrator/orchestrator.go:594-630 | exactly the issues with a dependency no longer open are saved, in order, each with those still open |
| Drain.SelectPool | internal/orchestrator/select_pool.go:9-17 | a slot is only ever acquired for the plan and work roles |
| Drain.HandleRow | internal/orchestrator/drain_pending_pools.go:22-84 | what one row does to the board; the third role branch is dead |
| Drain.DrainPendingPools | internal/orchestrator/drain_pending_pools.go:13-85 | the board after the first fifty rows, in queue order |
| Drain.SpawnWork | app.go:295-322 | the work callback releases the slot exactly when it fails in the spawn itself |
| Drain.DrainLedgerIff | internal/orchestrator/drain_pending_pools.go:69-74 | rows spawn in queue order, and slots held grow by them if and only if no work row fails in the spawn itself |
| Drain.SpawnedTwiceIff | internal/orchestrator/drain_pending_pools.go:17-22 | a card is spawned twice in one drain if and only if two of its listed rows both spawn |
| Drain.DrainKeepsRows | internal/orchestrator/drain_pending_pools.go:22-78 | the rows left are exactly those neither spawned nor unloadable, in order |
| Drain.UnknownRolesStarve | internal/orchestrator/drain_pending_pools.go:63-66 | when rows of other roles fill the window a drain does nothing |
| Drain.RowKeepsFlagsIff | internal/orchestrator/drain_pending_pools.go:44-49 | one row keeps waiting flags matching rows if and only if it does not drop its card's last row as stale |
| Drain.DrainKeepsFlagsIff | internal/orchestrator/drain_pending_pools.go:13-85 | a whole drain does if and only if every card with rows is spawned or keeps a row that was not stale |
| Drain.PullKeepsFlags | internal/orchestrator/drain_pending_pools.go:89-122 | a pull keeps flags matching rows however it ends |
| DrainOutcome.DrainIsTold | internal/orchestrator/drain_pending_pools.go:13-85 | the first fifty rows and no others: which cards are moved, which spawned, which rows and flags go, and how many slots are got |
| DrainOutcome.ReleasedAre | internal/orchestrator/drain_pending_pools.go:22-74 | slots given back: one per slot got in vain, two for a work row that fails in the spawn itself |
| PrSignals.Poller.ProbeCheckRuns | internal/github/poll.go:589-640 | the new cache entry and the edge announced |
| PrSignals.Poller.ProbeConflicts | internal/github/poll.go:653-728 | the new cache entry and the edge announced |
| PrSignals.Poller.Settle | internal/github/poll.go:368-393 | announces a merge or close and forgets the request |
| PrSignals.Assembler.HandleEvent | internal/issueview/assembler.go:119-164 | the levels after an event |
| PrSignals.Assembler.ClearConflictsInfo | internal/issueview/assembler.go:262-273 | drops the card's conflict entry and nothing else |
| PrSignals.Perform | internal/github/poll.go:368-399 | poller and assembler together take exactly one step of the system the runs are made of |
| PrSignals.NoFailureLost | internal/github/poll.go:599-640 | over every run, a failure the poller last saw is held by the assembler, for that head |
| PrSignals.NoFailureLostIff | internal/github/poll.go:599-600 | that holds for all runs if and only if no two cards share a pull request |
| PrSignals.ChecksInSyncIff | internal/github/poll.go:615-639 | a step breaks "entry exactly while failing" if and only if a failing head is replaced by a passing one |
| PrSignals.OneHeadInSync | internal/github/poll.go:599-640 | while the head stays the same the entry is exact |
| PrSignals.StaleEntryStays | internal/github/poll.go:632-639 | a stale entry outlives every further passing look |
| PrSignals.EdgesAlternate | internal/github/poll.go:612-639 | over every run with one head, a recovery follows a failure and no failure another, except after the end of the request |
| PrEntries.UnkeyedIsIgnored | internal/issueview/assembler.go:119-130 | events without workspace or issue number change nothing |
| PrEntries.RepeatedFailureKeepsAttempts | internal/issueview/assembler.go:130-142 | a failure on the head shown keeps its repair attempts, one on another head starts from none |
| PrEntries.EntryIsLastNews | internal/github/poll.go:615-639 | over every run, head and jobs shown are those of the last look that was news |
| PrSignals.UnknownChangesNothing | internal/github/poll.go:715-723 | looks at a state still being computed change neither cache nor announcements |
| PrSignals.LevelReconstructedIff | internal/github/poll.go:653-728 | folding the announcements gives the dirty files if and only if no empty state followed dirty with dirty not back since |
| PrSignals.ConflictsInSyncIff | internal/issueview/assembler.go:143-164 | a step separates assembler and poller if and only if it is one of three named steps while dirty |
| PrSignals.ConflictsInSyncThroughoutIff | internal/issueview/assembler.go:143-164 | over a run they agree all the way if and only if none of the three is taken |
| PrSignals.ClearedConflictReturnsIff | internal/issueview/assembler.go:249-273 | after a wrong optimistic clear a step shows a conflict again if and only if it finds other files dirty |
| PrSignals.ClearedConflictStaysHiddenIff | internal/issueview/assembler.go:249-273 | over a run it stays hidden if and only if every dirty look finds the same files and the poller has not seen another state since |
| Backoff.BackoffWithJitter | internal/retry/scheduler.go:244-265 | the capped wrapping product, jittered and not negative |
| Backoff.CapRightIff | internal/retry/scheduler.go:252-255 | right for every maximum if and only if the product fits in 63 bits or leaves the sign bit set |
| Backoff.CapRightForIff | internal/retry/scheduler.go:252-255 | right for one maximum if and only if the product fits, or wraps below zero or to the maximum or more |
| Backoff.ShortBasesAreSafe | internal/retry/scheduler.go:242-255 | below 2^34 ns the delay is min(base * 2^min(n-1,30), max) |
| Backoff.BaseEscapesCap | internal/retry/scheduler.go:252-255 | at 2^34 ns and shift 30 the delay is 0 |
| Backoff.LaterWaitsLonger | internal/retry/scheduler.go:242-255 | the delay is monotone in the attempt |
| Backoff.JitterBounds | internal/retry/scheduler.go:256-263 | jitter stays within its percentage and never goes below zero |
| RetryOutcome.DelayDoubles | internal/retry/scheduler.go:242-255 | the delay starts at the base and doubles with each attempt up to the 31st, under the maximum |
| RetryOutcome.JitterIs | internal/retry/scheduler.go:256-263 | jitter adds the drawn share of its percentage, cut to whole nanoseconds |
| Retry.Scheduler.Schedule | internal/retry/scheduler.go:58-129 | accepts, refuses or gives up, with the new queue and the event |
| Retry.Scheduler.Cancel | internal/retry/scheduler.go:134-148 | takes the issue's retry off the queue and says so, if there is one |
| Retry.Scheduler.FireNow | internal/retry/scheduler.go:152-165 | fires the issue's retry, if there is one |
| Retry.Scheduler.Tick | internal/retry/scheduler.go:217-230 | fires each due entry once, in some order |
| Retry.AcceptedIsBounded | internal/retry/scheduler.go:68-115 | attempt caps, window and the provider's reset time hold for an accepted retry |
| Retry.DefaultAcceptsIff | internal/types/types.go:683-693 | exactly when the default policy accepts |
| Retry.RunKeepsSound | internal/retry/scheduler.go:58-230 | over every run each accepted retry ends in exactly one of fired, cancelled and pending, in order; a pending one is within the caps, the window from its acceptance and the reset time |
| Retry.TickLeavesNoneDue | internal/retry/scheduler.go:217-230 | a tick leaves exactly the entries not yet due |
| Retry.ShownInSyncIff | internal/issueview/assembler.go:181-199 | the cards' copy of the queue is broken if and only if a failure is given up while the issue's retry is pending |
| Retry.HiddenRetryReachable | internal/retry/scheduler.go:86-99 | a run in which that happens: jitter takes a second failure's delay past the window |
| Retry.ChainNeverEnds | app.go:4300-4302 | a chain of retries of any length is accepted, each as attempt 1 |
| RetryOutcome.DecisionIsTold | internal/retry/scheduler.go:58-115 | accepted, refused or given up, and with what wait, from the workspace's own policy or the default one |
| RetryOutcome.StepIsExplained | internal/retry/scheduler.go:58-230 | every step only adds to the log, and each event it adds has its reason |
| RetryOutcome.RunIsExplained | internal/retry/scheduler.go:58-230 | so over a run each event was announced in a step for its reason: accepted, asked for or due, cancelled, given up |
| AnswerWatch.AnswerWatcher.Tick | internal/store/answers_watch.go:108-217 | the deliveries, timers and reports of one tick |
| AnswerWatch.AnswerWatcher.ProbeQuestion | internal/store/answers_watch.go:180-215 | what one look at a question file does |
| AnswerWatch.RunIsGood | internal/store/answers_watch.go:108-217 | each answer once; each session reported once, and only after its file was missing at every look since one the grace period earlier |
| AnswerWatch.TickAnswers | internal/store/answers_watch.go:117-169 | every answer file read reaches the last session paused on its question |
| AnswerWatch.ReportsKeepGrace | internal/store/answers_watch.go:173-215 | over ticks that see what the sessions' lines wrote, a question is reported only when its own file was missing at every look since one the grace period earlier |
| WatchReports.LooksAreTaken | internal/store/answers_watch.go:173-196 | the looks taken: one per tick at the question file of each paused session that names one in a workspace with a path |
| WatchReports.PathIsListedLast | internal/store/answers_watch.go:123-126 | the path is that of the workspace listed last under the id |
| WatchReports.OrphanReportedIff | internal/store/answers_watch.go:173-215 | a session is reported if and only if a look found its file missing a grace period or more after the first of the unbroken missing stretch, and at the first such look |
| WatchReports.AnsweredIff | internal/store/answers_watch.go:117-169 | a session is answered on a question if and only if some tick finds its answer file while the session is the last one listed as paused on it |
| Card.SelectSessions | internal/issueview/assembler.go:639-735 | the session fold equals first live, latest paused, latest failure, latest ended |
| Card.FirstMeans | internal/issueview/assembler.go:665-670 | "first" is the earliest listed |
| Card.LatestMeans | internal/issueview/assembler.go:645-709 | "latest" started last, ties to the earliest listed |
| Card.LatestIgnoresOrder | internal/issueview/assembler.go:639-709 | with distinct start times the listing order does not matter |
| Card.DerivePlanFailed | internal/issueview/assembler.go:490-534 | the latest silent plan failure, unless suppressed |
| Card.Assemble | internal/issueview/assembler.go:328-446 | from an issue, its sessions and the signals to the state shown and the session it is about |
| Card.FirstRung | internal/cardstate/cardstate.go:121-260 | the state shown is that of the first rung that applies, in the documented order with the code's two further rungs for a pending retry and an open dependency |
| Card.BlockedMeansFailure | internal/cardstate/cardstate.go:168-183 | the arm for an active blocked session is never taken |
| Card.ColumnMatchesState | internal/issueview/assembler.go:745-776 | without a pull request the derived column agrees with the state shown |
| Card.DoneIff | internal/cardstate/cardstate.go:143-146 | done is shown if and only if the card is in DONE with a pull request or without an unapproved plan |
| Card.DoneWithPendingPlan | internal/issueview/assembler.go:745-776 | what a card in DONE shows otherwise |
| Card.PlanFailedNeeds | internal/issueview/assembler.go:485-534 | plan_failed shows only for a failure without cause or one an execute session completed after |
| Card.RetryNeedsFailure | internal/cardstate/cardstate.go:219-230 | exactly when a countdown shows on a resting card |
| Card.FailingChecksReachTheCard | internal/issueview/assembler.go:328-446 | end to end: failing checks reach a resting card as tests_failing or merge_conflict |
| CardDetails.SelectionIs | internal/issueview/assembler.go:639-735 | the session at work, paused, failed and ended last, told from the list, and when the failure no longer counts |
| CardDetails.PlanFailureIs | internal/issueview/assembler.go:490-534 | which silent plan failure shows, and when none does |
| CardDetails.ColumnIs | internal/issueview/assembler.go:745-776 | the derived column, from the pull request, the session at work, the failure and the plan |
| CardDetails.AboutIs | internal/cardstate/cardstate.go:121-260 | the session a card is about is the one its state names |

## Left out

- Pipeline: `DefaultMaxLoops` (internal/pipeline/driver.go:16) is never applied by the code and so not in the model; `StepByID` is a lookup.
- StreamJson.StreamParser.Feed: works on decoded events; JSON decoding, and the `enabled` flag that is never cleared, are not modelled, and snippets are cut by characters, not bytes.
- Harness.Execute: tool bodies, model calls and the token counts they report are parameters; JSON encoding of tool output is an abstract function.
- SessionMachine.RuntimeSession.TailAndParse: cost accounting, activity recording, worktree teardown and terminal escape stripping are not modelled; raw lines are whole, the session is the only execute session of its issue in the table, and a pull-request line without a number, which marks the stored row blocked while the session goes on (app.go:3265-3272), has no effect on the record; calls may panic, string functions do not.
- SessionReports.RecordIsTold: reasons are cut at 500 characters, where the code counts bytes; the reading of codex quota errors is a parameter.
- RankWrites.AppliedIs: the goal id stamped on a ranked card is not modelled.
- SessionMachine.ReplayKeepsStateIff: about the display lines; the text the parser held back when the offset was persisted is lost with it.
- SessionMachine.CapStopBlocksIff: requires that the formatted part of the cap messages holds no line break.
- SpawnGuard.SpawnWithDir: `SpawnExecute` removes the old worktree (internal/session/manager.go:412) before the guard runs, so nothing is claimed about the files of a worker that is already running; remote spawns are not modelled.
- Transcript.Follower.FollowLive: cancellation is not modelled; it returns without freeing the slot (internal/session/reattach.go:153-154). A fed line can cause it: a re-attached execute session that reports a pull request cancels its own follower, its process is not killed, and its key becomes free while the process lives. Open and seek errors, which restart at offset 0, are not modelled either.
- RankPass.RunRank: dependency edges are a map by issue number, so the random order in which the code lists them is not visible; body hashes are an abstract function of the card.
- Ranking.MergeResults: states the order; edges and primitives are merged in `RankPass.RunRank`.
- Ranking.RankingRoundTripIff: priorities are real numbers, not float64.
- AutoPull.PullIsGreedy: cross-workspace answers stay the same during the rounds counted; `AutoPull.NeverTwice` and `PullOutcome.PullIsTold` do not need that.
- AutoPull.Orchestrator.AutoPull: one pull or drain at a time; the code starts each in its own goroutine (internal/orchestrator/orchestrator.go:92-94, 142-173), so two can pick one card, and only the spawn guard keeps them apart; goal filters are a parameter; a paused orchestrator, no active goal and failing reads, where a pull does nothing, are not modelled; writes of waiting rows and flags succeed.
- Drain.DrainPendingPools: failing dequeues, and the work callback's moves of the card to IN_PROGRESS and back (app.go:311-318), are not modelled.
- PrSignals.Assembler.HandleEvent: orphan pull requests and the emission of views are not modelled; events arrive in order, although the bus starts a goroutine per handler (internal/eventbus/bus.go:243-251).
- PrSignals.Poller.ProbeConflicts: the detection of conflicting files is a parameter.
- Backoff.BackoffWithJitter: real arithmetic stands for float64, and the conversion of an out-of-range float is not modelled.
- Retry.Scheduler.Schedule: which causes are retryable is a parameter; a state change and its event are one step.
- AnswerWatch.AnswerWatcher.Tick: keys are pairs, where the code joins ids with "|" and ":".
- Card.FirstRung: the fixed texts and the diagnostic fields beside the state are not modelled, only the session the state is about.
- The SQL store, the pool registry, GitHub, Slack, Jira and model clients, the frontend and `ApplyEvent` are not modelled.
