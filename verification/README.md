# Proofs about agent-core-cpp

A Dafny model of the logic at the heart of the agent runtime, and what it guarantees. `dafny verify dfyconfig.toml`
checks everything. Each module models one part of the system; the state machines model every critical section of a
multi-threaded protocol as one atomic step and prove their claims over every interleaving.

- **Sessions** (`SessionProtocol`, `SessionGuarantees`, `SessionProgress`, `Sessions`): threads invoke sessions
  through a concurrency gate and a lock per session entry while others reload the agent, open sessions and remove
  them. Shared pointers are counted (`RefCounts`), so that "never freed while held" and "freed exactly when nothing
  holds it" are theorems. The claims are made where the code makes them true: "not draining" about the snapshot a
  turn takes, "one agent" about the turn's own pointer, exclusion about the entry and not the session id.
- **Asking the user** (`AskUser`, `AskUserGuarantees`, `AskUserDispatching`): a turn emits a question and sleeps;
  answers are routed from any thread through two indexes and a slot.
- **Context window** (`ContextTokens`, `ToolPairing`, `ContextWindow`, `ContextGuarantees`): merging, cutting into
  segments, greedy selection, compression by halving, the message cap and the pairing repair.
- **String machines** (`ToolParser`, `Rfc3629`, `Utf8Repair`, `Utf8Stream`, `SseStream`): tool calls in model text,
  UTF-8 repair, the streaming repairer and the incremental assembly of a streamed answer.
- **Cron** (`Calendar`, `CronField`, `CronNext`, `CronJobs`, `CronPasses`, `CronSleep`): fields, the search over a
  civil calendar, one pass over the jobs file, any run of passes of which some are left early, and the sleep between.
- **Configuration** (`ConfigJson`, `ConfigStore`): JSON round trips over the nested record, and the store whose
  merged view must agree with a reload.
- **Consolidation** (`Consolidation`, `DreamCursor`): the dirty flag of each agent that spares passes, and the cursor
  into the log all agents share that makes batches cover it once.
- **Disclosure** (`Disclosure`): which tools a turn shows and which it may call.

Where the source mutates objects the model has classes: `Sessions.SessionManager`, `AskUserDispatching.AskUserDispatchers`,
`ContextWindow.ContextEngine`, `Utf8Stream.Streamer`, `SseStream.StreamContext`, `CronJobs.CronWatcher`,
`ConfigStore.AgentConfigStore`, `Consolidation.Agent`, `DreamCursor.HistoryStore`, `Disclosure.TurnState`. Every
method is proved to do exactly what a function or step of the specification says, and the theorems are about those.

## What the code promises and does not keep

For each of these the exact condition, or a witness, is proved.

- A reload notifies nobody, and a sleeper's wait compares the count with the cap even when that is off. The calls can
  be brought to their ends exactly when nobody sleeps, or the cap is on and somebody is inside or a sleeper is signaled
  (`SessionProgress.CallsReturnIff`, `ReloadStrandsIff`). So turning the cap off strands whoever is asleep
  (`CapOffStrandsSleepers`, `ReloadCanStrand`), and turning it on again can come too late (`OffAndOnAgainStrands`).
  While caps stay positive, or stay off, nobody is stranded (`PositiveCapsDrain`, `UnlimitedNeverSleeps`).
- Removing a session while a turn is at work on it, waiting for its lock or past it, lets two turns on the same id be
  past their locks at once (`SessionGuarantees.RemovalLetsTwoTurnsIn`, `RemovalLetsTwoTurnsRun`); removals of sessions
  no turn is at work on are harmless (`StepKeepsPerSessionIff`, `OneTurnPerSession`).
- Removing a session in mid-ask makes the pending question unanswerable (`AskUserGuarantees.RemovalDeafens`), and an
  answer that arrives between the waiter's final look and the erasure of the slot is acknowledged but not heard
  (`SuccessMayGoUnheard`). If the stream callback throws, the index entry stays for ever and
  the slot as long as its dispatcher (`ThrowingCallbackLeaks`).
- The "[compressed]" marker the comments promise is never produced (`ContextGuarantees.HalvedFitsAndIsNotEmpty`); the
  window may pass maxContextTokens by the message that opens the compressed segment and 3, and for every limit some
  history does, where there is room for three messages (`TokenBoundIsAttainedForEvery`).
- With maxMessages 1 the newest query is lost exactly when its segment needs a summary (`LoneSlotKeepsQueryIff`).
- A cron expression restricted in both day fields is searched by "either day" and checked by "both days"
  (`CronNext.RestrictedDaysAgreeIff`, `FirstOrMondayDisagrees`); a step after a range is ignored
  (`CronField.RangeIgnoresStep`).
- A recurring interval below one second is cut to 0: the job fires on every pass and the sleep computation never ends
  (`CronPasses.SubsecondNeverMoves`, `CronSleep.CatchUpEndsIff`).
- A pass saves its edits only at its end, so an expression that throws, an event that cannot be handed over, or a
  shutdown while one is handled, undoes them though the events are out (`CronPasses.PassAbortsIff`). A handling that was saved is the last of its instant,
  one that was not is repeated (`SavedHandlingIsFinal`, `RepeatedIff`); while a job that throws stays in the file, due
  jobs before it fire in every pass (`ThrowerRepeatsOthers`).
- The sleep looks at a one-time job's next_fire and the pass at its at; where the two differ it can be slept past
  (`CronSleep.OneTimeIsSleptPastIff`).
- An override whose merge throws is already stored and is written out by the next save. A saved file fails to load
  exactly if some agent's last operation threw; a later operation on that agent heals it
  (`ConfigStore.SavedFileLoadsIff`). A null child pointer in a configuration makes the view differ from a
  reload (`ConfigStore.UpsertAgreesIff`).
- The activity flag is cleared before the read, and a pass takes at most one batch. What lies beyond the batch, or is
  pending when anything in the pass throws, is forgotten unless another conversation that counts finishes meanwhile
  (`Consolidation.PassLeavesBehindIff`), where the comment speaks of a delay of one cycle; further polls do not help
  (`PollingTakesOneBatch`), only the next finish or a new agent (`ForgottenUntilNextFinish`). A turn that ends on a
  draining agent arms that agent's flag only (`HandoverForgetsIff`). A pass that overlaps another may read the log from
  a cursor the other has moved on since, and then loses even what is within a batch of the present cursor
  (`StaleCursorLoses`, `StaleCursorIsReachable`). And a set flag is not acted on while no session is idle, which a
  clean-up can bring about (`SilentUntilNextFinish`, `PolledIsConsolidatedIff`).
- Consolidation runs of a draining agent and its successor share a log and can overlap; a run that began alone then
  analyses entries a second time exactly if another finishes before it (`DreamCursor.OverlapRepeatsIff`).
- A streamed UTF-8 chunk is repaired by looser rules than a whole string: overlong forms, surrogates and what lies past
  U+10FFFF pass, and nothing else that is ill-formed does (`Utf8Stream.OutputIsUtf8Iff`); and a truncated character
  takes as many valid bytes along as it lacks, so that text comes out whole exactly if nothing was carried, but for
  one coincidence (`CarrySwallows`, `TextSurvivesCarryIff`).

## Model

| member | source | states |
|---|---|---|
| SessionProtocol.NextKeepsInv | src/session/session_manager.cpp:558-647 | the invariant is inductive: pointer counts are the number of owners, only the active agent is not draining, the gate counts the admitted unreleased invocations, a mutex is held by the one call past it and isBusy tells that it runs |
| SessionProtocol.InitialInv | src/session/session_manager.cpp:289-372 | the invariant holds after Initialize, for every cap |
| SessionProtocol.EnterKeepsInv | src/session/session_manager.cpp:574-582 | admission at the gate keeps the invariant |
| SessionProtocol.WakeKeepsInv | src/session/session_manager.cpp:576-581 | a sleeper that looks again is counted exactly if it is admitted |
| SessionProtocol.FindOrCreateKeepsInv | src/session/session_manager.cpp:473-556 | after FindOrCreateEntry the session is registered and the invariant holds |
| SessionProtocol.ReboundKeepsInv | src/session/session_manager.cpp:606-608 | turning an entry from a draining agent to the active one keeps every count right |
| SessionProtocol.BindKeepsInv | src/session/session_manager.cpp:600-610 | the whole critical section that finds, rebinds and copies keeps the invariant |
| SessionProtocol.LockKeepsInv | src/session/session_manager.cpp:625 | taking invokeMutex keeps exclusion |
| SessionProtocol.BeginKeepsInv | src/session/session_manager.cpp:626 | setting isBusy keeps it equal to having a running turn |
| SessionProtocol.EndKeepsInv | src/session/session_manager.cpp:632-642 | clearing isBusy, on return or a std::exception, keeps it equal to having a running turn |
| SessionProtocol.ReleaseKeepsInv | src/session/session_manager.cpp:584-588 | leaving the gate keeps the count equal to the invocations inside |
| SessionProtocol.UnlockKeepsInv | src/session/session_manager.cpp:646-647 | the lock goes before the pointers and is free afterwards |
| SessionProtocol.ReturnKeepsInv | src/session/session_manager.cpp:646-647 | the last owner of an entry destroys it with its pointer to an agent, and nobody was left past its lock |
| SessionProtocol.RemoveKeepsInv | src/session/session_manager.cpp:810-823 | moving the registry pointer into a local changes no count |
| SessionProtocol.FinishRemoveKeepsInv | src/session/session_manager.cpp:854-874 | destroying the removed pointer keeps the invariant |
| SessionProtocol.BorrowKeepsInv | src/session/session_manager.cpp:864 | copying the removed entry's agent pointer into boundAgent keeps every count |
| SessionProtocol.BorrowActiveKeepsInv | src/session/session_manager.cpp:867-870 | so does falling back to the active agent |
| SessionProtocol.GiveBackKeepsInv | src/session/session_manager.cpp:871-873 | destroying boundAgent keeps the invariant, whether or not it was the last owner |
| SessionProtocol.SwapKeepsInv | src/session/session_manager.cpp:1060-1075 | the swap leaves one active agent, not draining, and the old one held by the reload |
| SessionProtocol.PartKeepsInv | src/session/session_manager.cpp:1077-1088 | dropping the local agent pointer keeps every count right |
| SessionProtocol.CallIsLive | src/session/session_manager.cpp:602-610 | what a call points at has not been destroyed |
| SessionProtocol.RegisteredIsLive | src/session/session_manager.cpp:475-479 | a registered entry and the agent it is bound to exist |
| SessionProtocol.LastOwnerDestroys | src/session/session_manager.cpp:854-855 | dropping one surplus pointer makes all counts right again, whether or not it was the last |
| SessionGuarantees.SessionsAreBound | src/session/session_manager.cpp:484-488 | in every reachable state the active agent is alive and not draining, and each session is bound to it or to a draining agent that still lives |
| SessionGuarantees.SnapshotIsActive | src/session/session_manager.cpp:599-610 | the snapshot a turn takes, and the binding it leaves, are the agent active at that step; an existing entry stays the same entry |
| SessionGuarantees.NothingDangles | src/session/session_manager.cpp:597-610 | in every reachable state a turn holds a living entry and a living agent |
| SessionGuarantees.TurnKeepsItsAgent | src/session/session_manager.cpp:597-630 | over every run, until it returns, a turn keeps one entry and one agent, both alive, and only moves forward |
| SessionGuarantees.OthersStay | src/session/session_manager.cpp:584-588 | a step moves its own caller and at most wakes others |
| SessionGuarantees.DrainingOnlyDrains | src/session/session_manager.cpp:1053-1059 | over every run, the entries and turns tied to a draining agent never grow |
| SessionGuarantees.RetiredIsFreedIff | src/session/session_manager.cpp:1077-1084 | a draining agent is destroyed exactly when no entry or turn is tied to it and no reload or removal holds it in a local |
| SessionGuarantees.GateHolds | src/session/session_manager.cpp:571-588 | over every run whose caps lie in 1..limit, the invocations inside number concurrentCount_ and at most limit |
| SessionGuarantees.OneTurnPerEntry | src/session/session_manager.cpp:622-646 | at most one call is past the lock of an entry, and isBusy holds exactly while that call runs |
| SessionGuarantees.StepKeepsPerSessionIff | src/session/session_manager.cpp:803-823 | in every state, a step keeps every turn at work on a registered entry with one session id exactly if it does not remove a session that a turn at work is on |
| SessionGuarantees.OneTurnPerSession | src/session/session_manager.cpp:622-646 | over every run whose removals spare the sessions that turns at work are on, every turn at work belongs to one session id, and no two turns of one id are past the lock at once |
| SessionGuarantees.RemovalLetsTwoTurnsIn | src/session/session_manager.cpp:803-823 | from every state with a turn at work on a session, waiting or past the lock, removing it lets one turn on the id be past the old lock while another runs past the new |
| SessionGuarantees.RemovalLetsTwoTurnsRun | src/session/session_manager.cpp:803-823 | and the two run side by side, if the first runs, holds the lock, or is queued and next to take it |
| SessionProgress.NoWakeupIsLostInRuns | src/session/session_manager.cpp:576-588 | under positive caps, a sleeper no notify has reached always leaves somebody inside |
| SessionProgress.SomeStepIsPrompted | src/session/session_manager.cpp:571-647 | while any call is unfinished and the calls can drain, some thread can take a useful step, whatever the cap: no deadlock |
| SessionProgress.PromptedRunsEnd | src/session/session_manager.cpp:571-647 | every schedule of useful steps uses up exactly one unit of remaining work a step, so all such schedules end |
| SessionProgress.EveryCallReturns | src/session/session_manager.cpp:571-647 | if the calls can drain, continuing with useful steps ends with no call left and an empty gate |
| SessionProgress.CallsReturnIff | src/session/session_manager.cpp:571-647 | for every state and every cap: useful steps can bring every call to its end exactly when nobody sleeps at the gate, or the cap is on and somebody is inside or some sleeper is signaled |
| SessionProgress.DrainingIsDecided | src/session/session_manager.cpp:576-588 | no useful step changes whether that condition holds |
| SessionProgress.PositiveCapsDrain | src/session/session_manager.cpp:571-588 | over every run from a state where nobody sleeps and whose caps stay positive the condition holds, so every call can return |
| SessionProgress.UnlimitedNeverSleeps | src/session/session_manager.cpp:574-576 | over every run with the cap off (0 is unlimited) nobody ever sleeps, so every call can return |
| SessionProgress.ReloadStrandsIff | src/session/session_manager.cpp:1060-1075 | corollary for a reload, which notifies nobody: after it the calls can return exactly when nobody slept, or the new cap is positive and somebody is inside or a sleeper is signaled |
| SessionProgress.OffAndOnAgainStrands | src/session/session_manager.cpp:1060-1075 | cap 1, off while a call sleeps, the count falls to 0, the sleeper looks and sleeps again, cap on: asleep under a positive cap with the gate empty |
| SessionProgress.CapOffStrandsSleepers | src/session/session_manager.cpp:576-579 | with the cap switched off, a call asleep at the gate sleeps on through every run that keeps the cap off, because the wait compares with 0 |
| SessionProgress.ReloadCanStrand | src/session/session_manager.cpp:1064-1068 | a reload to a cap of 0 or less strands whoever is asleep at that moment |
| Sessions.SessionManager.EnterGate | src/session/session_manager.cpp:574-582 | the fields after the gate are what the protocol step says; tells whether the call was admitted |
| Sessions.SessionManager.WakeSleeper | src/session/session_manager.cpp:577-581 | the fields after the wait predicate is evaluated again |
| Sessions.SessionManager.FindOrCreateEntry | src/session/session_manager.cpp:473-556 | returns the registered entry, made and bound to the active agent if there was none |
| Sessions.SessionManager.RebindIfDraining | src/session/session_manager.cpp:606-608 | the fields after the rebinding |
| Sessions.SessionManager.TakeSnapshot | src/session/session_manager.cpp:600-610 | the whole critical section as one protocol step |
| Sessions.SessionManager.ReleaseGate | src/session/session_manager.cpp:584-588 | the count goes down, never below 0, and every sleeper is signaled |
| Sessions.SessionManager.DropEntry | src/session/session_manager.cpp:646-647 | the last owning pointer destroys the entry and its pointer to an agent |
| Sessions.SessionManager.ReloadAgent | src/session/session_manager.cpp:1060-1075 | the fields after the swap: cap normalised, old agent draining, new agent active |
| AskUser.NextKeepsInv | src/core/ask_user_dispatcher.cpp:5-84 | the invariant is inductive: slots and index follow the asks, a slot holds the newest answer written for its one request, writers were sent with that request and told so, late responders hold no slot |
| AskUser.EmitKeepsInv | src/core/ask_user_dispatcher.cpp:29-40 | a fresh request gets its one slot |
| AskUser.WaitKeepsInv | src/core/ask_user_dispatcher.cpp:42-47 | the slot the wait looks up is the one the emit made |
| AskUser.EraseKeepsInv | src/core/ask_user_dispatcher.cpp:57-60 | the slot leaves the table and nothing else does |
| AskUser.SetAnswerKeepsInv | src/core/ask_user_dispatcher.cpp:76-82 | an answer goes into the slot of the request it was sent for |
| AskUser.FoundSlotIsRight | src/core/ask_user_dispatcher.cpp:68-75 | a slot found is the slot of that request, and no late responder finds one |
| AskUserGuarantees.SlotsAndIndexFollowAsks | src/core/ask_user_dispatcher.cpp:29-64 | in every reachable state a slot is in its table, and a request in the index, exactly from emit to end of wait; with all asks finished both are empty |
| AskUserGuarantees.CheckTakesNewest | src/core/ask_user_dispatcher.cpp:48-53 | the final look takes the answer written last, and takes none exactly when none was written |
| AskUserGuarantees.AnswerIsForItsRequest | src/core/ask_user_dispatcher.cpp:42-64 | whatever happens after the final look, the ask returns the newest answer written before it, which was supplied for that very request by a call told true; none exactly when none was written |
| AskUserGuarantees.BegunTooLate | src/core/ask_user_dispatcher.cpp:55-60 | a response begun after the slot is erased is never told true, over every run, session removed and reopened included |
| AskUserGuarantees.AloneSucceedsIff | src/session/session_manager.cpp:930-958 | an undisturbed response succeeds exactly when the request is pending and its session id still leads to the asking entry; then its answer is the newest, else nothing is written |
| AskUserGuarantees.SuccessMayGoUnheard | src/core/ask_user_dispatcher.cpp:49-60 | between the final look and the erasure a response is told true and the ask returns without it |
| AskUserGuarantees.ThrowingCallbackLeaks | src/core/ask_user_dispatcher.cpp:29-40 | if the stream callback throws the ask never waits: over every run its index entry stays, and its slot stays with the dispatcher, whatever is answered |
| AskUserGuarantees.RemovalDeafens | src/session/session_manager.cpp:943-952 | once the asking entry has left the registry and no response has hold of it, nothing is written for the request over any run |
| AskUserDispatching.AskUserDispatchers.GetOrCreateSlot | src/core/ask_user_dispatcher.cpp:5-15 | returns the slot in the table, made empty if there was none |
| AskUserDispatching.AskUserDispatchers.LastLook | src/core/ask_user_dispatcher.cpp:47-53 | returns the answer if the slot is done, none otherwise |
| AskUserDispatching.AskUserDispatchers.LookUpSession | src/session/session_manager.cpp:932-941 | found exactly if the request is in the index |
| AskUserDispatching.AskUserDispatchers.LookUpEntry | src/session/session_manager.cpp:943-952 | found exactly if the session is registered |
| AskUserDispatching.AskUserDispatchers.LookUpSlot | src/core/ask_user_dispatcher.cpp:66-75 | found exactly if the dispatcher has a slot for the request |
| ContextTokens.EstimateTokens | src/context_engine/context_engine.cpp:427-465 | a quarter token per ASCII character and three quarters per wide one, by the byte walk of the source |
| ContextTokens.CalculateMessageTokens | src/context_engine/context_engine.cpp:126-134 | sum over role, content, tool calls and the three tool fields |
| ContextTokens.CalculateMessagesTokens | src/context_engine/context_engine.cpp:154-162 | sum over the messages |
| ContextTokens.MessagesTokensOfConcat | src/context_engine/context_engine.cpp:154-162 | the cost of a history is the sum of the costs of its parts |
| ContextWindow.BuildMessageSegments | src/context_engine/context_engine.cpp:164-189 | the segments lie end to end over the whole history, each starts with its only user message but for the first, and carries its token cost |
| ContextWindow.CompressSegment | src/context_engine/context_engine.cpp:191-279 | the compressed segment of the specification, by the loops and the halving of the source |
| ContextWindow.Gather | src/context_engine/context_engine.cpp:210-227 | the tool summaries in order and the last assistant text |
| ContextWindow.Summarise | src/context_engine/context_engine.cpp:229-253 | the text of the summary: at most eight tool results, then the assistant state |
| ContextWindow.SummariseTools | src/context_engine/context_engine.cpp:234-245 | at most eight tool results in order, and a mark if there are more |
| ContextWindow.Halve | src/context_engine/context_engine.cpp:270-272 | the halving loop computes the recursive halving |
| ContextWindow.ApplyContextLimits | src/context_engine/context_engine.cpp:281-347 | the window of the specification, by merging, segmenting, selecting, capping and repairing in place |
| ContextWindow.Sanitize | src/context_engine/context_engine.cpp:285-293 | neighbours that can merge are merged |
| ContextWindow.SelectSegments | src/context_engine/context_engine.cpp:298-339 | newest segments first while they fit, then one compressed |
| ContextWindow.ContextEngine.AddMessage | src/context_engine/context_engine.cpp:74-113 | valid messages are appended with a time stamp, others are refused |
| ContextWindow.ContextEngine.GetContextWindow | src/context_engine/context_engine.cpp:115-124 | the window of the current history |
| ContextGuarantees.HalvedFitsAndIsNotEmpty | src/context_engine/context_engine.cpp:265-277 | halving ends within any positive budget with a non-empty prefix, so the "[compressed]" marker is never needed |
| ContextGuarantees.WindowSize | src/context_engine/context_engine.cpp:341-345 | the window never has more messages than maxMessages (or 1) |
| ContextGuarantees.CompressedCost | src/context_engine/context_engine.cpp:191-279 | a compressed segment costs at most its budget plus 2, or its opening user message plus 3 |
| ContextGuarantees.WindowCost | src/context_engine/context_engine.cpp:281-347 | for every history the window costs at most maxContextTokens plus the cost of the message opening the compressed boundary plus 3 |
| ContextGuarantees.TokenBoundIsAttained | src/context_engine/context_engine.cpp:265-277 | with no token to spend a window without an opening question reaches the 3 |
| ContextGuarantees.TokenBoundIsAttainedForEvery | src/context_engine/context_engine.cpp:265-277 | the 3 cannot be improved: for every token limit and every opening question, with room for three messages, some history meets the bound with equality |
| ContextWindow.PartitionGrows | src/context_engine/context_engine.cpp:164-189 | the segments found so far stay a partition of the prefix scanned |
| ContextGuarantees.SelectShape | src/context_engine/context_engine.cpp:303-339 | before the cap the window is at most one compressed segment followed by a suffix of the merged history that begins at a segment |
| ContextGuarantees.CompressedShape | src/context_engine/context_engine.cpp:204-253 | a compressed segment is the segment itself, or its opening user message and at most one summary |
| ContextGuarantees.MergedHoldsQuery | src/context_engine/context_engine.cpp:285-293 | merging keeps the newest user query at the end of the newest user message |
| ContextGuarantees.NewestQuerySurvives | src/context_engine/context_engine.cpp:281-347 | with maxMessages at least 2, a user message ending with the newest query is in the window |
| ContextGuarantees.LoneSlotKeepsQueryIff | src/context_engine/context_engine.cpp:341-345 | with maxMessages 1 a user message ending with the newest query survives exactly when the newest segment needs no summary, and no other user message ever does |
| ToolPairing.DropOrphanToolCalls | src/context_engine/context_engine.cpp:518-550 | tool calls without a result go, and assistant messages left empty |
| ToolPairing.DropUnpairedToolMessages | src/context_engine/context_engine.cpp:491-516 | the two passes compute the one-pass repair |
| ToolPairing.TwoPassesAreOne | src/context_engine/context_engine.cpp:491-550 | dropping calls and then results keeps exactly the ids that were paired at the start |
| ToolPairing.RepairLeavesPairs | src/context_engine/context_engine.cpp:491-550 | afterwards the ids on calls and on results are the same set: the non-empty ids that were on both |
| ToolPairing.RepairIsIdempotent | src/context_engine/context_engine.cpp:491-516 | a second repair drops nothing |
| ToolPairing.RepairKeepsWhatIsSaid | src/context_engine/context_engine.cpp:505-513 | everything that is no tool traffic stays, in order |
| ToolParser.ExtractJson | src/utils/tool_parser.cpp:5-28 | the shortest balanced object from the start position, as the lexer specification cuts it |
| ToolParser.ExtractAllToolCalls | src/utils/tool_parser.cpp:30-90 | the calls of the specification, by the search loop, whose position strictly rises |
| ToolParser.ExtractIsIdempotent | src/utils/tool_parser.cpp:5-28 | an extracted object extracts as itself |
| ToolParser.ScanStepsOver | src/utils/tool_parser.cpp:10-26 | the lexer is compositional: a balanced text inside an object is stepped over |
| ToolParser.PrintedCallIsRead | src/utils/tool_parser.cpp:45-84 | a printed call is read back, name and arguments |
| ToolParser.PrintedCallIsConsumed | src/utils/tool_parser.cpp:35-43 | prose and a printed call are consumed exactly, leaving the rest |
| ToolParser.PrintedCallsRoundTrip | src/utils/tool_parser.cpp:30-90 | printing any list of calls between brace-free prose and extracting gives back exactly that list |
| ToolParser.CallsAreValid | src/utils/tool_parser.cpp:78-83 | whatever the text, every call extracted has a valid name and arguments that are an object or a quoted string |
| ToolParser.RoundTripIffArgumentsPresent | src/utils/tool_parser.cpp:49-76 | a call with a printable name reads back as itself exactly if its arguments are not the empty string |
| Utf8Repair.FixStringUTF8 | src/utils/encoding.cpp:24-99 | the repair of the specification, by the validating loop |
| Utf8Repair.RepairIsWellFormed | src/utils/encoding.cpp:24-99 | the output is always in the grammar of section 4 of RFC 3629 |
| Utf8Repair.RepairKeepsExactlyWellFormed | src/utils/encoding.cpp:24-99 | the identity exactly on the strings of that grammar |
| Utf8Repair.RepairIsIdempotent | src/utils/encoding.cpp:24-99 | repairing twice is repairing once |
| Utf8Repair.RepairDistributes | src/utils/encoding.cpp:24-99 | distributes over concatenation when the left part is well-formed |
| Utf8Repair.RepairAtMostTriples | src/utils/encoding.cpp:16-20 | the output is at most three times as long |
| Rfc3629.EncodeThenDecode | src/utils/encoding.cpp:46-63 | the lead and second byte ranges are those of the encoding of all Unicode scalar values: each encodes to one character of the grammar that decodes back |
| Rfc3629.DecodeThenEncode | src/utils/encoding.cpp:46-63 | and every character of the grammar is the encoding of one scalar value |
| Utf8Stream.Streamer.FixUTF8Streaming | examples/jiuwenClaw/utils/encoding.cpp:147-193 | output and carry of one call are those of draining carry plus input |
| Utf8Stream.ChunkingDoesNotMatter | examples/jiuwenClaw/utils/encoding.cpp:147-193 | for every cutting into chunks, outputs and final carry are those of one call on the whole |
| Utf8Stream.DrainSplits | examples/jiuwenClaw/utils/encoding.cpp:172-175 | draining a concatenation is draining the left part and then its carry with the right |
| Utf8Stream.CarryIsUnfinished | examples/jiuwenClaw/utils/encoding.cpp:172-175 | the carry is empty or a lead byte with fewer bytes than it announces, under 4 in all |
| Utf8Stream.CutUtf8ComesOutWhole | examples/jiuwenClaw/utils/encoding.cpp:145-193 | well-formed text cut anywhere comes out unchanged with nothing carried |
| Utf8Stream.OutputIsUtf8Iff | examples/jiuwenClaw/utils/encoding.cpp:158-190 | the output is well-formed exactly if no announced character with all its continuation bytes begins with C0, C1 or F5 to F7, or has a second byte that makes it overlong, a surrogate or past U+10FFFF |
| Utf8Stream.StreamedOutputIsUtf8Iff | examples/jiuwenClaw/utils/encoding.cpp:147-193 | the same over every cutting of the text into chunks |
| Utf8Stream.IllegalHeadPasses | examples/jiuwenClaw/utils/encoding.cpp:177-190 | each such character is passed on unchanged in front of any text, where FixStringUTF8 replaces every byte of it |
| Utf8Stream.CarrySwallows | examples/jiuwenClaw/utils/encoding.cpp:172-190 | in front of any UTF-8 text an unfinished character is replaced together with as many bytes of the text as it lacks, or keeps a shorter text waiting; FixStringUTF8 keeps the text |
| Utf8Stream.TextSurvivesCarryIff | examples/jiuwenClaw/utils/encoding.cpp:147-193 | UTF-8 text comes out as itself exactly if the carry buffer is empty, but for a lead byte that lacks three bytes in front of a U+FFFD |
| Utf8Stream.RepairKeepsTextAfter | src/utils/encoding.cpp:24-99 | FixStringUTF8 repairs whatever comes before UTF-8 text on its own and keeps the text |
| SseStream.StreamContext.ProcessSSEChunk | src/models/openai_model.cpp:56-113 | after a chunk the context is the fold over the complete lines of buffer plus chunk, and the buffer holds the rest |
| SseStream.StreamContext.ProcessLine | src/models/openai_model.cpp:65-111 | one line adds its event, and a line that is none adds nothing |
| SseStream.StreamContext.EmitToolCalls | src/models/openai_model.cpp:390-398 | the calls come out by ascending index, empty arguments as "{}" |
| SseStream.ChunkingDoesNotMatter | src/models/openai_model.cpp:56-113 | for every cutting into chunks, answer and buffer are those of the whole stream |
| SseStream.EmittedIsFullText | src/models/openai_model.cpp:79-84 | the deltas handed to onChunk concatenate to fullText |
| SseStream.SlotsAreFragmentsInOrder | src/models/openai_model.cpp:86-103 | a slot exists exactly for the indices seen; its name and arguments are its fragments in arrival order, its id the last one |
| Calendar.TimeGmOfGmTime | examples/jiuwenClaw/cron_watcher.cpp:109-113 | timegm inverts gmtime and gmtime gives proper dates |
| Calendar.GmTimeOfTimeGm | examples/jiuwenClaw/cron_watcher.cpp:109-113 | every proper date is the time of exactly one instant |
| CronField.MatchesField | examples/jiuwenClaw/cron_watcher.cpp:30-68 | whether a value matches a field, or the exception of stoi, by the recursion and loops of the source |
| CronField.MatchesPiece | examples/jiuwenClaw/cron_watcher.cpp:47-67 | ranges, steps and numbers, a dash looked for before a slash |
| CronField.SpanMeans | examples/jiuwenClaw/cron_watcher.cpp:47-52 | a printed range matches exactly the values between its ends, whatever non-digit text follows |
| CronField.MatchesStep | examples/jiuwenClaw/cron_watcher.cpp:54-64 | what stands around a slash, with the exceptions in order |
| CronField.StepsTo | examples/jiuwenClaw/cron_watcher.cpp:60-63 | the stepping loop reaches exactly the values a whole number of steps from its start, up to the maximum |
| CronField.StoiReadsBack | examples/jiuwenClaw/cron_watcher.cpp:49-50 | stoi reads a printed number back, whatever non-digit follows |
| CronField.FieldMeansItsItems | examples/jiuwenClaw/cron_watcher.cpp:30-68 | a comma list of wildcards, numbers, ranges and steps never throws and matches exactly the values one of its items names |
| CronField.RangeIgnoresStep | examples/jiuwenClaw/cron_watcher.cpp:47-52 | a step after a range is dropped: "a-b/s" matches the whole range |
| CronNext.CalculateNextFire | examples/jiuwenClaw/cron_watcher.cpp:92-139 | the search of the specification; the test for -1 never succeeds |
| CronNext.NextFireIsEarliest | examples/jiuwenClaw/cron_watcher.cpp:92-139 | for all expressions: the earliest whole minute after afterTime within 525600 minutes that satisfies all fields under the either-day rule; the fallback exactly when there is none; an exception exactly when a minute throws first |
| CronNext.WildcardDayAgrees | examples/jiuwenClaw/cron_watcher.cpp:115-122 | with a wildcard in a day field, a minute the search accepts passes MatchesCronExpression |
| CronNext.FoundTimeMatches | examples/jiuwenClaw/cron_watcher.cpp:70-139 | so does the time found, unless the search found nothing |
| CronNext.RestrictedDaysAgreeIff | examples/jiuwenClaw/cron_watcher.cpp:123-125 | with both day fields restricted the two agree exactly on days that satisfy both |
| CronNext.FirstOrMondayDisagrees | examples/jiuwenClaw/cron_watcher.cpp:79-85 | "0 0 1 * 1" asked for at -60 gives 0, a first of the month and no Monday, which MatchesCronExpression turns down |
| CronJobs.CronWatcher.CheckAndFireCrons | examples/jiuwenClaw/cron_watcher.cpp:286-388 | events and the saved file of one pass; left early, by an exception or at shutdown, the file stays and the events are out |
| CronJobs.EraseSpent | examples/jiuwenClaw/cron_watcher.cpp:367-375 | erasing from the back leaves the other jobs in order |
| CronJobs.WalkSplits | examples/jiuwenClaw/cron_watcher.cpp:301-365 | a pass goes job by job until it is left |
| CronJobs.PassIsPointwise | examples/jiuwenClaw/cron_watcher.cpp:301-365 | in a pass that runs to its end each job is treated on its own |
| CronJobs.SweptKeepsTheRest | examples/jiuwenClaw/cron_watcher.cpp:367-375 | exactly the spent jobs are deleted |
| CronJobs.RestrictedCronFiresOnBothOnly | examples/jiuwenClaw/cron_watcher.cpp:317-327 | a job with both day fields restricted fires only on days that satisfy both |
| CronPasses.PassAbortsIff | examples/jiuwenClaw/cron_watcher.cpp:301-387 | a pass is left early exactly when a due cron job throws, in its fields or in the search for its next time, handing an event over throws, or shutdown comes while an event is handled |
| CronPasses.EventsAre | examples/jiuwenClaw/cron_watcher.cpp:330-341 | the events of a pass are those of the jobs that fire among the jobs it gets to |
| CronPasses.SavedHandlingIsFinal | examples/jiuwenClaw/cron_watcher.cpp:343-381 | for jobs of every kind, over every run of passes over the file: a handling whose pass was saved is the last of its instant |
| CronPasses.RepeatedIff | examples/jiuwenClaw/cron_watcher.cpp:343-387 | a one-time or recurring job is handled again for the same instant exactly when its last handling was in a pass left early |
| CronPasses.AbortedPassRepeats | examples/jiuwenClaw/cron_watcher.cpp:384-387 | after such a pass a job handled in it is handled again by exactly the later passes that get to it and whose agent takes it, for a cron job if its expression then matches |
| CronPasses.ThrowerRepeatsOthers | examples/jiuwenClaw/cron_watcher.cpp:377-387 | while a job that throws sits in the file, the event of a due one-time or recurring job before it goes out in every pass that gets to it and whose agent takes it, and the job never moves |
| CronPasses.FiresAreIntervalsApart | examples/jiuwenClaw/cron_watcher.cpp:352-358 | over every run of passes a recurring job is due as many intervals after its first instant as it had saved handlings; what was turned away or undone changes nothing |
| CronPasses.FiresAreBounded | examples/jiuwenClaw/cron_watcher.cpp:315-316 | by time t it has at most one saved handling for each of its instants up to t |
| CronPasses.BacklogIsWorkedOff | examples/jiuwenClaw/cron_watcher.cpp:315-358 | n undisturbed passes at time t fire n times or until no instant up to t is left |
| CronPasses.SubsecondNeverMoves | examples/jiuwenClaw/cron_watcher.cpp:353-355 | an interval below one second is cut to 0: the job fires in every undisturbed pass and its time never moves |
| CronPasses.OneTimeFiresOnce | examples/jiuwenClaw/cron_watcher.cpp:312-345 | over every run of passes a one-time job is handled, saved and deleted once, exactly if some pass at or after its time runs to its end without turning it away |
| CronSleep.CalculateSleepDuration | examples/jiuwenClaw/cron_watcher.cpp:204-268 | the sleep of the specification, for files without a job whose catch-up loop never ends |
| CronSleep.WishFor | examples/jiuwenClaw/cron_watcher.cpp:223-258 | the time one job asks to be woken at |
| CronSleep.CatchUpLoop | examples/jiuwenClaw/cron_watcher.cpp:239-241 | the first instant of a recurring job after now |
| CronSleep.CatchUpEndsIff | examples/jiuwenClaw/cron_watcher.cpp:239-241 | the catch-up loop ends exactly when the interval is at least a second or no step is needed |
| CronSleep.EarliestIsLeast | examples/jiuwenClaw/cron_watcher.cpp:222-259 | earliestNext is the least of the times asked for |
| CronSleep.SleepNeverPassesADueTime | examples/jiuwenClaw/cron_watcher.cpp:261-273 | the sleep is at least 1, at most the poll interval, never passes a time a live job waits for, and is cut short only for such a time |
| CronSleep.NothingComesDueAsleep | examples/jiuwenClaw/cron_watcher.cpp:230-273 | whatever is still to come does not come due, as the firing test sees it, before the watcher wakes; for a one-time job if its at is not before its next_fire, and the tool sets both alike |
| CronSleep.OneTimeIsSleptPastIff | examples/jiuwenClaw/cron_watcher.cpp:230-233 | a one-time job alone in the file can be slept past its at exactly if its next_fire does not lie between now and then |
| ConfigJson.EnumsReadBack | src/config/agent_config_json.cpp:13-101 | all five enumerations read back what they write |
| ConfigJson.NodeReadsBack | src/config/agent_config_json.cpp:104-150 | a ConfigNode tree reads back as itself with null children filled in |
| ConfigJson.NodeIsNormalIff | src/config/agent_config_json.cpp:112-113 | filling in changes nothing exactly if no child pointer is null |
| ConfigJson.ModelReadsBack | src/config/agent_config_json.cpp:154-198 | a written model configuration overrides every field |
| ConfigJson.ContextReadsBack | src/config/agent_config_json.cpp:200-232 | a written context configuration overrides every field |
| ConfigJson.DreamReadsBack | src/config/agent_config_json.cpp:234-271 | a written dream configuration overrides every field |
| ConfigJson.MemoryReadsBack | src/config/agent_config_json.cpp:273-363 | a written memory configuration overrides every field, whatever the context part says |
| ConfigJson.TemplatesReadBack | src/config/agent_config_json.cpp:365-404 | written templates override their own keys and leave the others |
| ConfigJson.WrittenReadsBack | src/config/agent_config_json.cpp:408-492 | merging a written configuration over any other gives it back, null children filled in and unlisted templates kept |
| ConfigJson.RoundTripIff | src/config/agent_config_json.cpp:408-492 | over a configuration without templates the round trip is exact exactly if no child pointer is null |
| ConfigJson.MergingTwiceIsMergingOnce | src/config/agent_config_json.cpp:408-466 | applying any override a second time changes nothing |
| ConfigStore.AgentConfigStore.Load | src/config/agent_config_store.cpp:62-101 | succeeds exactly if the file reads and every override merges; then the view is default overridden, for every agent that has either |
| ConfigStore.AgentConfigStore.RegisterDefault | src/config/agent_config_store.cpp:33-41 | an empty id is refused |
| ConfigStore.AgentConfigStore.Save | src/config/agent_config_store.cpp:185-210 | a written file reads back as the overrides, in whatever order they were listed |
| ConfigStore.AgentConfigStore.Upsert | src/config/agent_config_store.cpp:120-139 | the whole new state of the store |
| ConfigStore.AgentConfigStore.UpsertOverride | src/config/agent_config_store.cpp:141-162 | the whole new state, also when the merge throws after the override is stored |
| ConfigStore.AgentConfigStore.Remove | src/config/agent_config_store.cpp:164-176 | the whole new state: back to the default or gone |
| ConfigStore.UpsertAgreesIff | src/config/agent_config_store.cpp:128-136 | Upsert keeps the view equal to what a reload computes exactly if a default lies under the agent or no child pointer is null |
| ConfigStore.OthersUntouched | src/config/agent_config_store.cpp:120-176 | an operation leaves the other agents alone |
| ConfigStore.StoreAgreesWithReload | src/config/agent_config_store.cpp:62-210 | after a load and any run of safe operations, the last saved, a reload finds the same overrides and computes exactly the current view |
| ConfigStore.StoredMergesIff | src/config/agent_config_store.cpp:120-176 | over every run of operations the stored override of an id fails to merge exactly while the last operation on it threw |
| ConfigStore.SavedFileLoadsIff | src/config/agent_config_store.cpp:150-161 | over every run whose last operation was saved, a load of the file throws exactly if some agent's last operation threw; so the next operation on that agent that goes through heals it |
| Consolidation.NextKeepsInv | src/core/agent.cpp:341-419 | every step of any number of agents over one log, their runs overlapping or not, keeps what is analysed a prefix of it, agents inside a run and runners in step, and finished conversations inside the log |
| Consolidation.StepForgetsIff | src/core/agent.cpp:374-418 | in every state, exactly three steps leave a finished conversation that counts unanalysed with nothing pointing to it: an exception in a pass whose flag was not set again, a batch that ends before it, counted from the cursor the pass has found, likewise, and the destruction of the last agent that would have looked |
| Consolidation.NoActivityIsLost | src/core/agent.cpp:225-277 | over every run that avoids those three, overlapping runs included, no finished conversation that counts is forgotten |
| Consolidation.FromTheStart | src/core/agent.cpp:225-277 | in particular from a start with no agent and an empty log |
| Consolidation.ForgottenUntilNextFinish | src/core/agent.cpp:379-392 | what is forgotten stays so over every run until another conversation that counts finishes or an agent is created |
| Consolidation.StaleCursorLoses | src/core/dream_processor.cpp:324-369 | corollary: a pass that reads the log after another has moved the cursor on loses what a batch from the present cursor would reach |
| Consolidation.StaleCursorIsReachable | src/core/dream_processor.cpp:324-369 | and that happens in a run from the start in which nothing throws, no agent is destroyed, and the log is no more than a batch past the present cursor |
| Consolidation.SilentUntilNextFinish | src/core/agent.cpp:357-381 | once no session it knows is idle an agent never gets past its gates, over every run until another of its turns ends, though its flag stays set |
| Consolidation.CleanupSilencesIff | src/core/agent.cpp:289-293 | corollary: a clean-up brings that about exactly if no other session is idle |
| Consolidation.PassLeavesBehindIff | src/core/agent.cpp:385-418 | a pass of the only agent, under every interleaving from its clear to its end, forgets a conversation exactly if no other that counts finished meanwhile, it was not analysed before, and it lies more than maxBatchSize past the cursor; or at all, if the pass throws |
| Consolidation.PollingTakesOneBatch | src/core/agent.cpp:341-419 | any number of polls with nobody about consolidates the next maxBatchSize entries once, if it is the first cycle or a session is idle and the flag set, and nothing else; everything exactly if no more was pending |
| Consolidation.PolledIsConsolidatedIff | src/core/agent.cpp:341-419 | such polls consolidate a pending conversation exactly if the loop gets past its gates and it lies within a batch of the cursor |
| Consolidation.HandoverForgetsIff | src/core/agent.cpp:217-277 | corollary for a reload: a turn whose end is the last thing its agent sees before it is destroyed is forgotten exactly if it left something to analyse and no other agent has its flag set, its first cycle to come, or a pass under way that will read it |
| Consolidation.Agent.NotifySessionIdle | src/core/agent.cpp:225-277 | the session is idle, and the flag set unless it is excluded |
| Consolidation.Agent.ConsolidationCycle | src/core/agent.cpp:356-418 | once round the loop with nobody about: which gates let it through, the flag cleared either way, the cursor moved by one batch or, on an exception, not at all |
| DreamCursor.HistoryStore.AppendEvent | src/core/history_store.cpp:64-91 | the entry gets the next cursor |
| DreamCursor.HistoryStore.ReadUnprocessedHistory | src/core/history_store.cpp:122-151 | the entries past the cursor, in order |
| DreamCursor.UnprocessedIsSuffix | src/core/history_store.cpp:122-151 | of a numbered log these are the rest from the cursor on |
| DreamCursor.Run | src/core/dream_processor.cpp:320-372 | undisturbed, a run analyses the next entries up to the batch size and moves the cursor past exactly those; if the analysis throws nothing moves |
| DreamCursor.StepKeepsExactlyOnce | src/core/dream_processor.cpp:320-372 | appends and non-overlapping runs keep the batches equal to the log up to the cursor; a finished batch strictly advances it |
| DreamCursor.BatchesCoverTheLog | src/core/dream_processor.cpp:320-372 | over any such interleaving the batches analysed concatenate to exactly the log up to the dream cursor |
| DreamCursor.FromTheStart | src/core/dream_processor.cpp:320-372 | in particular from an empty log |
| DreamCursor.AnalysedIsPrefix | src/core/dream_processor.cpp:320-372 | over every interleaving, overlapping runs and exceptions included, what has been analysed is a prefix of the log and the cursor never past it |
| DreamCursor.RepeatedEntries | src/core/dream_processor.cpp:324-369 | of the batch of a finishing run exactly the entries within the reach of earlier batches are analysed again |
| DreamCursor.RunRepeatsIff | src/core/dream_processor.cpp:324-369 | so it repeats entries exactly if the cursor it started from lies inside what has been analysed by then |
| DreamCursor.OverlapRepeatsIff | src/core/dream_processor.cpp:324-369 | a run that started with no other under way and the cursor at the end of what was analysed repeats entries exactly if another run finishes before it does |
| DreamCursor.ExactlyOnceReaches | src/core/dream_processor.cpp:324-369 | wherever runs that did not overlap have led, the cursor is at that end |
| Disclosure.TurnState.SeedActive | src/core/turn_state_proxy.cpp:64-73 | names are added and the flag is set |
| Disclosure.TurnState.SeedActiveSubset | src/core/turn_state_proxy.cpp:75-86 | names are added and the flag is off |
| Disclosure.TurnState.InsertActive | src/core/turn_state_proxy.cpp:69-71 | the names are in the active set |
| Disclosure.TurnState.BeginTurn | src/workers/react_worker.cpp:263-359 | reset, then the whole pool unless the recall is a non-empty set other than the pool |
| Disclosure.TurnState.ToolSearch | src/tools/builtin_tools/tool_search_tool.cpp:49-128 | reply and new state of one call of tool_search |
| Disclosure.TurnInvariant | src/workers/react_worker.cpp:263-359 | over every turn: loaded within active, the flag keeps its seeded value and if set the whole pool is active, all that is callable is visible, both meta-tools are callable |
| Disclosure.SearchShows | src/tools/builtin_tools/tool_search_tool.cpp:92-125 | a search makes active exactly what it found |
| Disclosure.LoadedIsCallableIff | src/tools/builtin_tools/tool_search_tool.cpp:69-88 | corollary: a loaded tool is callable next exactly unless the tool took it for always on and the worker does not |

## Left out

- Curl, SQLite, sockets, the file system, plugins and logging: foreign calls. Files are values; whether a save succeeds is a parameter.
- JSON text: parsing and dumping are nlohmann's. Configuration and jobs use an abstract JSON datatype, the streamed answer a parser function from a line to an optional event.
- Model output, prompts, ranking and findRelevant: arbitrary inputs.
- Machine integer widths: integers are unbounded, except in stoi, whose range check is modelled. So the 32-bit read of next_fire, the overflow of a huge cron step and of token sums are not.
- The data race on maxConcurrent_, written under sessionMutex_ and read under concurrencyMutex_: each read sees one value.
- Initialize restoring sessions from disk: a restored session is an Open step of the protocol; Initialize is taken to return normally.
- RemoveSession's disk deletion, its try_lock and the reserved-id check: only the registry, the pointers and the activity entry are modelled.
- SessionProtocol.EndKeepsInv: does not model an exception that is no std::exception, nor one out of FindOrCreateEntry; after either the gate stays counted in the source.
- AskUserGuarantees.ThrowingCallbackLeaks: does not model the end of an entry, with which its dispatcher and the slots in it go.
- AskUserDispatchers.EmitAskUser: the stream callback itself; one that throws is a run in which the ask never comes to its wait.
- Aliasing of ConfigNode children and cyclic nodes: a tree is a value. A struct left half merged by an exception is a local of the caller and is not modelled.
- Config keys: the keys the code spells out are constructors and every other string is Other; that writer and reader spell a key the same way is built into this.
- The server and model fields of MemoryConfig, and the integer and list fields of AgentConfig, are grouped into records of their own; keys and merge rules are those of the source.
- Floating point: reals. Numbers JSON cannot carry are outside the model.
- CalculateSleepDuration: asks for a file without a job whose catch-up loop never ends, because the source's loop does not return on one; CronSleep.CatchUpEndsIff says which those are.
- CronWatcher.CheckAndFireCrons: does not model that the cron tool may rewrite the jobs file while a pass is under way, and that the pass then overwrites it.
- CronSleep.NothingComesDueAsleep: asks, like SleepNeverPassesADueTime, that the computation of the sleep returns without an exception; after one the watcher sleeps for the poll interval, whatever is due.
- DreamCursor.Run: asks for maxBatchSize of at least 1, because the source reads before the first entry of an empty batch.
- The plugin path memoryRuntime_->Consolidate: a foreign call; the model is of DreamProcessor::Run on the history store. A null model, on which Run returns at once, is a Throw step.
- HistoryStore::CompactHistory: it locks its own mutex again and is not part of any run.
- The Anthropic stream assembly: it indexes tools by content block and clears its buffer, so the chunking theorem is not claimed for it.
- The prompt-mode layout with arguments before name: the round trip is for the documented name-first layout. ParseAction, BuildMessagesForLLM and TrimOrphanTrailingToolCalls would add easy members.
- The counts of dropped messages and tool calls, which are only logged.
- The skill side of disclosure, which mirrors the tool side, and ResolveByBudget.
- HTML scrapers, shell, notebook and regex tools, channel adapters, the circuit breaker and the back-off helper: input and output, or easy members.
