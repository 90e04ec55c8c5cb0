# Agent driver: models and proofs

This project models the stateful parts of the library that drives coding-agent CLIs and proves what they keep over every run: the direct-mode conversations that park tool calls until the caller's next request (`llm/`), the session drivers (`driver/`), the transcript writer and its projection (`transcript/`), and version support (`harness/`).

How a model is built. An object with a mutex becomes a `State`, a datatype of its `Step`s (one per critical section, channel operation, timer or process event), `Enabled`, and a function from one state to the next. An invariant is proved for every step and lifted to every run by induction on the list of steps, so a theorem that starts from `Reaches(Start, steps, t)` holds for every interleaving. Beside each state stands a class with the source's own fields; the `ensures` of each of its methods say that its new `View()` is exactly the specified next state. What a stream of events means is defined once, by an automaton that reads it (`AgentEvents`, `Deltas`, `CodexLifecycles`), and the producers are proved against that reader. What such a stream must contain is read off the schedule (`Script`, `MarksIn`), not off the fields of the object.

Where the code does not meet a property on every input, the code is kept as it is, one lemma gives the exact condition, and another a concrete run, session or request in which it fails. These are the cases found, condition first:

- A conversation whose process ended while it was idle is dropped by `take` without being closed, so its files stay (`Pool.LostExactlyWhenFoundDead`, `Pool.FoundDeadIsNeverClosed`).
- `harnessConv.next` takes calls out of `held` one by one; when a later one is gone, those already taken are neither answered nor cancelled (`HarnessConv.StrandsIff`, `StrandedCall.NextStrandsACall`).
- A response that uses one tool call id twice can only be continued with a result nobody asked for (`Continues.AcceptedIdsArePending`, `Continues.RepeatedIdTakesAForeignResult`).
- After a retried request the deltas a caller has seen are not the response (`ClaudeTurns.InStepIff`, `ClaudeTurns.RetryLeavesStaleText`).
- A Claude approval parked just before a result line is announced after it was closed, and then stays open for a reader for good (`ClaudeSession.AnnouncedInTimeIff`, `ClaudeSession.ResultBeatsTheAnnouncement`, `ClaudeSession.LateStaysOpen`).
- A prompt steered into a running Pi compaction and rejected ends its turn, and the compaction's answer then closes the next one (`PiSession.CompactionKeepsItsTurn`, `PiSession.CompactionCanCloseAnotherTurn`).
- An ACP agent turn begun with an empty id is counted, and no later call ends it (`AcpTurns.NextKeepsInv`, `AcpTurns.EmptyIdLeaks`, `AcpTurns.LeakIsForever`). The only caller in the repository, `grokExtension.Update` in `driver/acp_grok.go`, passes ids that start with a prefix of its own, so the input can only come from an extension outside it.
- A Codex approval's suffixed key can be another approval's item id (`CodexApprovals.InverseAfterRequest`, `CodexApprovals.SuffixedKeyLosesAnApproval`).
- A tool whose bare name is another tool's qualified name is taken for the caller's (`AcpTools.BareNameIsNotMatched`, `AcpTools.QualifiedToolNameIsMatched`).
- A row kept as it is loses its link to an entry that was renamed, and a pinned leaf placed after the first new entry makes a link forward (`AssignIds.LinksFollow` with `AssignIds.KeptRowLosesItsLink`, `AssignIds.StaysBackward` with `AssignIds.LeafAfterTheFirstNewEntry`).
- The re-parenting loop does not end on an entry whose links run in a circle through entries left out before it (`WriteRows.ChaseEndsIff`, `WriteRows.EndsIffLinksLeave`, `WriteRows.SelfLinkNeverEnds`), and passes a parent that gets no row when that one comes later (`WriteRows.LeftOutParentOnLinksIff`, `WriteRows.ForwardLinkIsPassed`).
- A tool under way when the Codex process exits and the stream ends is never reported completed (`CodexLifecycles.EndLeavesToolsOpen`, `CodexLifecycles.ToolOpenAtTheEnd`).

## Model

| member | source | states |
|---|---|---|
| EventPump.NextKeepsInv | driver/events.go:32-92 | no step loses, repeats or reorders an event or a wake-up |
| EventPump.LosslessInOrder | driver/events.go:28-92 | every interleaving: delivered, then the batch in hand, then the queue is what was pushed before the first end, read off the schedule; the channel closes unasked only when all of it is out; a parked run with work has a wake-up coming |
| EventPump.QuietStepsShrink | driver/events.go:57-92 | every due signal and every step of run leaves less to do and touches nothing a producer did |
| EventPump.EveryQuietRunDrains | driver/events.go:57-92 | once producers fall silent every order of those steps is bounded, and where none is left everything accepted is delivered and the channel closed if the stream ended |
| EventPump.Drains | driver/events.go:57-92 | there is such a run from every state nobody stopped |
| EventPump.Pump.Push | driver/events.go:32-42 | an event is queued and its signal owed, unless the stream has ended |
| EventPump.Pump.RunSwap | driver/events.go:64-75 | the batch is taken whole, and the channel closed when there is none and the stream ended |
| AgentEvents.GrammarAlternates | driver/pi.go:442-460 | a stream the grammar accepts has starts and ends in strict alternation, the k-th start with the k-th index, each completion naming the turn it closes |
| AgentEvents.OpenTurnCounts | driver/pi.go:803-812 | the counts of the turn still open are those of the events since its start |
| AgentEvents.CompletionCounts | driver/pi.go:803-812 | every completion in an accepted stream reports the tools started, and whether text came, since the start of its turn |
| PiSession.TurnGrammar | driver/pi.go:351-460 | every sequence of handler steps gives a well-formed stream with no content outside a turn, turnActive says whether the last boundary was a start, and every completion reports the events since its start |
| PiSession.CompactionKeepsItsTurn | driver/pi.go:387-428 | a step takes a turn away from its compaction exactly when the process exits or a prompt steered into it is rejected |
| PiSession.CompactionClosesItsOwnTurn | driver/pi.go:387-428 | after any run without those two the answer to a compaction emits one event, and it ends the turn the compaction opened, which is the one open for a reader |
| PiSession.CompactionCanCloseAnotherTurn | driver/pi.go:351-428 | a run in which a compaction's answer completes another turn |
| PiSession.Session.CompactAnswered | driver/pi.go:387-428 | the new state of every way a compaction is answered |
| PiSession.Session.OnAssistant | driver/pi.go:689-716 | text already streamed is not repeated, an error message is kept for the end of the turn |
| PiSession.Session.OnToolEnd | driver/pi.go:718-753 | the completed tool's name and status, cancelled when interrupting |
| PiSession.Session.OnSettled | driver/pi.go:755-789 | how the turn ends once the agent has settled |
| PiReplies.EverythingIsShownOnce | driver/pi.go:664-753 | every sequence of handlers: inside turns a reader gets exactly the non-empty deltas, the text of each message whose deltas carried none, and the tools, each completed under the name it came with or was started with, in order |
| PiReplies.CancelledIff | driver/pi.go:718-753 | a failed tool is cancelled exactly when the caller interrupted the turn it ends in |
| PiReplies.HowATurnEnds | driver/pi.go:755-789 | once settled a turn ends with one event: interrupted, the error of its last message, or the stop reason of that message |
| AcpTurns.NextKeepsInv | driver/acp.go:450-605 | a step keeps the accounting if and only if it is not BeginAgentTurn with an empty id while no turn is open |
| AcpTurns.LeakIsForever | driver/acp_ext.go:141-165 | after such a call the counter stays one too high over every run, and no agent turn is counted again |
| AcpTurns.EmptyIdLeaks | driver/acp_ext.go:141-165 | a run from the start that does it |
| AcpTurns.TurnAccounting | driver/acp.go:450-605 | every interleaving: turns is the unsettled and not yet decremented prompts plus an open agent turn, so never negative; a prompt is reported at most once, exactly once when both its goroutines are done; its channel is closed at most once |
| AcpTurns.NeverFailedAfterWork | driver/acp.go:540-605 | a prompt that alive or release took out of waiting is never failed as no_response |
| AcpTurns.SilentPromptFails | driver/acp.go:450-571 | a prompt that sees no sign of work and no answer until its timer expires is failed exactly when the timer's goroutine reports, unless its answer is settled first, and is never reported answered before that |
| AcpTurns.WorkLetsOff | driver/acp.go:598-609 | a sign of work lets off every prompt still waiting: none of them is failed later, and each channel is closed once |
| AcpTurns.AgentTurnIsCounted | driver/acp_ext.go:141-165 | an agent turn with an id is counted from its beginning to its end whatever comes between, and not at all while a turn is open |
| AcpTurns.Session.BeginAgentTurn | driver/acp_ext.go:141-152 | counts an agent turn only when no turn is open |
| AcpTurns.Session.EndAgentTurn | driver/acp_ext.go:154-165 | uncounts exactly the agent turn of that id |
| AcpTurns.Session.SignOfWork | driver/acp.go:598-609 | every waiting prompt is let off and its channel closed once |
| CodexApprovals.InverseAfterRequest | driver/codex.go:805-919 | a new request keeps byRPC the inverse of pending if and only if it overwrites nothing, or only the approval of the id it reuses |
| CodexApprovals.SuffixedKeyCanCollide | driver/codex.go:805-919 | a suffixed key that is already taken |
| CodexApprovals.SuffixedKeyLosesAnApproval | driver/codex.go:805-919 | three requests after which one approval is in neither map and owed no answer |
| CodexApprovals.NextKeepsInv | driver/codex.go:638-661 | every step keeps the two maps inverse and each approval in one place |
| CodexApprovals.ApprovalsAnsweredOnce | driver/codex.go:737-799 | every interleaving: the maps are inverse, no approval is answered twice, and none is lost |
| CodexApprovals.FiledUntilAddressed | driver/codex.go:638-919 | a request filed before the session closes can be answered, over every run, until and only until something is addressed to it: a decision on its key, its request ending or withdrawn, its turn's end, or the end of everything |
| CodexApprovals.TurnEndWithdraws | driver/codex.go:997-1019 | after the withdrawal at a turn's end nothing of that turn is pending, and nothing else changed hands |
| CodexApprovals.Session.Withdraw | driver/codex.go:997-1019 | the loop takes exactly the matching approvals out of both maps |
| CodexLifecycles.NextKeepsInv | driver/codex.go:1023-1335 | the trace stays one the lifecycle automaton accepts, and the fields are what it knows |
| CodexLifecycles.ToolsCloseBeforeTheTurn | driver/codex.go:1053-1150 | every tool started is reported completed with its id before the event that closes the turn |
| CodexLifecycles.OpenToolsAreCancelled | driver/codex.go:1053-1090 | a turn's end reports exactly the tools a reader still has open, once each, as cancelled, and closes the turn last |
| CodexLifecycles.EndLeavesToolsOpen | driver/codex.go:776-799 | the end of the stream leaves a reader with exactly the tools open at that step, and nothing the session does later reports one of them completed |
| CodexLifecycles.ToolOpenAtTheEnd | driver/codex.go:776-799 | a run that leaves one, whatever follows |
| CodexLifecycles.ChildEndsOnce | driver/codex.go:1231-1335 | once a subagent is reported completed it is not completed, started or given a status again |
| CodexReports.EverythingIsToldOnce | driver/codex.go:1023-1150 | any sequence of notifications: until the stream ends a reader gets the text, reasoning and tools as codex gave them, in order, and each turn's end cancels the tools under way by name; activeTurn is the last turn started whose end has not come |
| CodexReports.HowATurnEnds | driver/codex.go:1053-1098 | a failed turn ends with the error given, or else the last one reported since it started; any other says whether it completed or was interrupted |
| CodexReports.CollabIsTold | driver/codex.go:1231-1274 | after a collaboration item a reader knows the agents it knew and those spawned, each with the status the item gives it unless it had ended |
| CodexReports.ChildTurnIsTold | driver/codex.go:1276-1335 | a spawned thread's turn gives its agent a status unless it ended or is not the session's |
| CodexLifecycles.Session.OnTurnCompleted | driver/codex.go:1053-1150 | the open tools are cancelled and the turn closed, in that order |
| CodexLifecycles.Session.OnCollab | driver/codex.go:1231-1274 | spawns and status reports of one collaboration item |
| ClaudeSession.TurnGrammar | driver/claude.go:460-476 | every interleaving, the exit included: starts and ends alternate with indices 1, 2, ...; every completion reports the events since its start; no turn is left open once the exit was reported |
| ClaudeReplies.EverythingIsShownOnce | driver/claude.go:699-809 | every interleaving: inside turns a reader gets exactly the non-empty deltas, each message's tools and, where no delta since the message started carried text, its non-empty texts, and the tool results under the names their tools were started with, in order |
| ClaudeReplies.TextIsShownOnce | driver/claude.go:699-779 | a message that starts, streams and settles, whatever else happens meanwhile: its text is what its deltas carried, or its text blocks if they carried none, and each tool block starts one tool, in order |
| ClaudeReplies.CancelledIff | driver/claude.go:781-809 | a failed tool is cancelled exactly when its turn was interrupted while open or its approval was denied while pending, with no result of it since |
| ClaudeReplies.HowATurnEnds | driver/claude.go:811-871 | the event a result ends the turn with, from the result and from whether the turn was interrupted while open |
| ClaudeSession.ApprovalsCloseOnce | driver/claude.go:508-550 | an approval is announced, closed and answered at most once each, and a reader takes it to be open exactly while it is, or when it was announced late |
| ClaudeSession.TurnEndClosesApprovals | driver/claude.go:811-871 | the end of a turn is the last event out and nothing is pending; a reader still has open exactly what was already taken and is about to be reported, and what came late |
| ClaudeSession.AnnouncedInTimeIff | driver/claude.go:892-929 | for every schedule between the parking of a request and its announcement: it can be answered if and only if no answer addressed to it and no result that ended a turn came in between |
| ClaudeSession.LateStaysOpen | driver/claude.go:892-948 | one announced late stays open for a reader, and no answer to it is taken |
| ClaudeSession.ResultBeatsTheAnnouncement | driver/claude.go:811-929 | a run in which that happens |
| ClaudeSession.Session.OnResult | driver/claude.go:811-871 | closes every pending approval once, in some order, then ends the turn with the event the result calls for |
| ClaudeSession.Session.OnAssistant | driver/claude.go:734-779 | each block's event and counters in order; `ClaudeReplies.TextIsShownOnce` says what that is for a reader |
| ClaudeSession.Session.OnUser | driver/claude.go:781-809 | each tool result's status: cancelled when denied or interrupting |
| ClaudeSession.Session.Watch | driver/claude.go:577-595 | the exit fails an open turn once and ends the stream |
| ClaudeSession.Session.ResolveRequest | driver/claude.go:508-541 | takes the approval out once, notes a denial, answers it |
| AcpTools.MatchIff | driver/acp_tools.go:65-109 | a title is taken for a tool exactly when it is a tool's name behind one of the forms or _meta names it |
| AcpTools.BareNameIsNotMatched | driver/acp_tools.go:45-86 | an agent's own tool of the same bare name is left alone exactly when that name is no other tool's qualified name |
| AcpTools.QualifiedToolNameIsMatched | driver/acp_tools.go:65-86 | a name for which it is not |
| AcpTools.OwnedIff | driver/acp_tools.go:115-162 | an id is the caller's exactly when its latest deciding update is a match that is not terminal |
| AcpTools.ReusedIdIsNotOwned | driver/acp_tools.go:115-139 | an id announced as another tool is not the caller's until a call matches again |
| AcpTools.CallerTools.Observe | driver/acp_tools.go:115-139 | the map agrees with a scan of the whole history |
| AcpTools.CallerTools.Owns | driver/acp_tools.go:151-162 | answers from the request's own title and _meta, else from the history |
| Projection.Events | transcript/events.go:17-28 | the event stream of the conversation |
| Projection.TurnHoldsItsEntries | transcript/events.go:54-100 | the turn a user entry opens holds exactly the content of the entries up to the next user entry, between its start and the completion that counts it, after the stream of what was before |
| Projection.LaterTurnsAreAppended | transcript/events.go:17-100 | later user entries leave the stream before them as it is |
| Projection.NoTurnBeforeTheFirstUser | transcript/events.go:64-100 | before the first user entry there is content and no turn |
| Projection.StreamIsWellFormed | transcript/events.go:17-100 | n turns numbered 0..n-1 for n user entries, each opened and completed once with its own counts; tool uses, tool results and non-empty texts once each, in order; only those before the first user entry outside a turn |
| Projection.Projector.Entry | transcript/events.go:64-100 | appends an entry's events to those already out, and the fields are the open turn's |
| Versions.CompareVersions | harness/version.go:20-44 | the sign of the lexicographic comparison of the zero-padded components, or not ok |
| Versions.CompareParts | harness/version.go:20-44 | the loop finds the first difference |
| Versions.TotalPreorder | harness/version.go:20-44 | the order is reflexive, total, transitive, with equality up to padding its equivalence |
| Versions.TrailingZeros | harness/version.go:20-44 | trailing zeros do not matter |
| Versions.RangeIsConvex | harness/version.go:46-82 | a range has no holes |
| Versions.RangesSplit | harness/version.go:68-82 | two adjacent ranges split the versions |
| Versions.SupportIsMonotone | harness/support.go:73-106 | an upgrade never moves the verdict back, whatever the three bounds |
| AssignIds.AssignInPlace | transcript/jsonl.go:598-651 | the three passes in place give the specified entries |
| AssignIds.EveryEntryNamed | transcript/jsonl.go:598-620 | created entries end with accepted, distinct ids; every other entry is untouched |
| AssignIds.NothingElseChanges | transcript/jsonl.go:598-651 | an accepted id stays, a link to no entry of the session stays, no parent is invented outside a tree, and no other field is touched |
| AssignIds.LinksFollow | transcript/jsonl.go:598-651 | a parent or keep link names the entry it named before, and no other, if and only if the row is created or what it names was not renamed |
| AssignIds.KeptRowLosesItsLink | transcript/jsonl.go:598-651 | a session with a row that loses its link |
| AssignIds.NewEntriesAreChained | transcript/jsonl.go:625-651 | a parentless new entry is linked to its nearest predecessor with an id, the first one to the leaf, or to nothing on a restart |
| AssignIds.StaysBackward | transcript/jsonl.go:598-651 | a backward-pointing session stays so if and only if the pinned leaf comes before the entry linked to it |
| AssignIds.LeafAfterTheFirstNewEntry | transcript/jsonl.go:625-651 | a session that gets a forward link |
| AssignIds.AssignIsIdempotent | transcript/jsonl.go:577-651 | a second application changes nothing |
| WriteRows.EncodeRows | transcript/jsonl.go:430-458 | for every session on which its inner loop ends: the rows written, each entry passed with the name its link reaches |
| WriteRows.PassedWithNearestSurvivor | transcript/jsonl.go:430-441 | with distinct names: an entry is passed with the first name on the chain of the session's own links that no entry left out before it has |
| WriteRows.LeftOutParentOnLinksIff | transcript/jsonl.go:430-458 | and with a parent that gets no row exactly when that chain comes to an entry left out at or after it |
| WriteRows.LeftOutParentIff | transcript/jsonl.go:430-458 | for any session: a parent that gets no row is passed exactly when the name reached is that of an entry at or after, and never one left out before |
| WriteRows.ParentSurvives | transcript/jsonl.go:430-458 | so never where links point to earlier entries |
| WriteRows.ForwardLinkIsPassed | transcript/jsonl.go:430-458 | a session that is written with a parent that has no row |
| WriteRows.PassedAsItIsIff | transcript/jsonl.go:434-441 | a link is passed as it is exactly when no entry before it that was left out has that name |
| WriteRows.ReachedIsALink | transcript/jsonl.go:434-441 | the parent passed is a link of the session itself |
| WriteRows.BackwardLinksEnd | transcript/jsonl.go:430-441 | where links point to earlier entries the inner loop always ends |
| WriteRows.ChaseEndsIff | transcript/jsonl.go:430-454 | at each entry Write comes to, for any session and encoder: the inner loop ends, on the map Write has built, if and only if the link reaches a name through the links of the entries left out before |
| WriteRows.EndsIffLinksLeave | transcript/jsonl.go:430-454 | with distinct names: if and only if following the session's own links leaves the entries left out before it |
| WriteRows.SelfLinkNeverEnds | transcript/jsonl.go:430-454 | a session on which it does not |
| Lines.NormalisedFileIsFixed | transcript/jsonl.go:329-339 | trimming a file's lines and writing them back is idempotent |
| Lines.RowsOfJoin | transcript/jsonl.go:329-339 | rows written one to a line are read back as they were |
| SessionFiles.DecodeAll | transcript/jsonl.go:329-364 | one entry for each trimmed non-empty line, or an error from the first row that has one |
| SessionFiles.Write | transcript/jsonl.go:388-458 | the whole file: header rows for a foreign session, then the rows of the renamed entries |
| SessionFiles.NewFileStartsWithHeader | transcript/jsonl.go:412-458 | the file of a session not read from one begins with the header's rows, then come the rows of its entries and nothing else |
| SessionFiles.WrittenInOrder | transcript/jsonl.go:430-458 | the rows are those of the entries that get one, in order, each the row it was read from or the encoder's |
| SessionFiles.NewFileIsReadBack | transcript/jsonl.go:329-458 | read back, such a file gives the header's rows and then one entry for each row written |
| SessionFiles.EntriesKeepRows | transcript/jsonl.go:329-364 | every row is an entry of its own with exactly that row as its Raw, broken and header rows included |
| SessionFiles.RewriteSucceeds | transcript/jsonl.go:388-458 | a session that was read is written back as the file's trimmed lines, whatever the encoder and the id scheme do |
| SessionFiles.ReadLinksEnd | transcript/jsonl.go:430-441 | on a session that was read the re-parenting loop ends |
| SessionFiles.BackwardSessionIsWritten | transcript/jsonl.go:430-458 | a session with unique ids and links that point back is written to the end after AssignIDs, each entry with its nearest surviving ancestor and none with a parent that gets no row |
| SessionFiles.RewriteKeepsRows | transcript/jsonl.go:388-458 | with entries appended the old rows are a prefix of the new file |
| SessionFiles.ReadWriteRead | transcript/jsonl.go:329-458 | reading what was written gives the entries first read, and the file is a fixed point |
| Continues.Fingerprint | llm/claude.go:425-445 | the fingerprint of a message |
| Continues.Conversation.Continues | llm/claude.go:481-530 | a request is accepted exactly by the stated predicate, and the entries returned are exactly the new ones |
| Continues.Conversation.Answered | llm/claude.go:594-613 | what is held after a response |
| Continues.CollectResults | llm/claude.go:494-513 | the ids of the results, or none when anything else comes with them |
| Continues.AcceptedIdsArePending | llm/claude.go:491-521 | an accepted request brings results for exactly the held calls if and only if their ids are distinct |
| Continues.AcceptsIff | llm/claude.go:481-530 | with distinct ids: accepted if and only if settings and history match and the rest is exactly those results |
| Continues.AcceptedIsSentBack | llm/claude.go:481-490 | whatever the response stopped for: a request that is accepted has the settings held, and each earlier message and the response come back by the same side with the same text and the same calls and results, followed by something more |
| Continues.RepeatedIdTakesAForeignResult | llm/claude.go:514-521 | after a response that repeats an id, the conversation sent back with its result is refused, and sent back with a foreign one besides is taken |
| Continues.SamePrintIff | llm/claude.go:421-445 | two entries have one fingerprint exactly when they are of one side and have the same text up to white space around it and the same calls and results |
| Continues.SplittingIsTheSame | llm/claude.go:425-445 | how a text is split into blocks does not matter |
| Continues.PaddingIsTheSame | llm/claude.go:425-445 | nor white space around it |
| Continues.UnseenPartsAreTheSame | llm/claude.go:421-445 | nor reasoning, media, tool names, arguments and status |
| Continues.ToolResultsContinue | llm/claude.go:594-613 | after a tool_use response the conversation sent back is continued exactly by the results of its calls |
| Continues.OneResultEachContinues | llm/claude.go:481-522 | one result message per call is accepted |
| Continues.OtherStops | llm/claude.go:523-530 | after end_turn exactly a new user turn continues; after any other stop nothing does |
| Continues.ToolResults | llm/claude.go:563-591 | each named call's texts and images in order, an empty text when there is none, its last status |
| Continues.PiecesInOrder | llm/claude.go:563-591 | what a call is answered with, block by block: non-empty result texts and the bytes of images that name it, in order, and nothing else |
| Continues.FailedIsTheLast | llm/claude.go:563-591 | a call failed exactly when the last result for it says so |
| Continues.ResultsCoverPending | llm/claude.go:563-591 | the calls that get a result are the held ones and those an image names |
| ParkedCalls.NextKeepsInv | llm/claude.go:533-642 | every step keeps each question in one place and each call's result where tools/call will look |
| ParkedCalls.AllowedAtMostOnce | llm/claude.go:533-560 | every interleaving: a question is answered at most once, with its own input, after its result came; next never finds the channel full |
| ParkedCalls.NoCallStaysParked | llm/claude.go:615-633 | once next is done every pending call asked about is let go, and one asked about later is let go at once |
| ParkedCalls.ParkedUntilContinued | llm/claude.go:615-633 | until the caller continues no call of the last response is let go |
| ParkedCalls.ToolsFindTheirResults | llm/claude.go:635-642 | a tools/call made while its response is being continued finds the result given for that very call; until the caller continues, one finds none |
| ParkedCalls.SecondTurnCallsATool | llm/claude.go:523-560 | a run of two user turns, the second with a tool call |
| ParkedCalls.ClaudeConv.Next | llm/claude.go:542-554 | the results are stored and the held pending calls taken, in order |
| ParkedCalls.ClaudeConv.OnPermission | llm/claude.go:615-625 | allowed at once with a result at hand, parked otherwise |
| Pool.NextKeepsInv | llm/claude.go:92-189 | every step of take, settle, timer, close and process keeps one owner per conversation |
| Pool.ExclusiveUse | llm/harness.go:91-190 | every run: no two calls use one conversation; one in use is closed by neither timer nor pool nor replacement; nothing is kept once closed |
| Pool.TakeHandsOutIff | llm/claude.go:169-189 | take takes what is kept off its key, and the call has it exactly when its timer had not gone off and its process was alive |
| Pool.NextCallContinues | llm/claude.go:104-189 | a conversation kept at the end of a call is the one the next call on its key gets, over every run in which nothing else comes on the key, its timer does not go off, the pool stays open and its process lives |
| Pool.NothingEntersAfterClose | llm/claude.go:92-101 | live stays empty after Close |
| Pool.LostExactlyWhenFoundDead | llm/claude.go:169-189 | a conversation becomes neither used, kept nor going to be closed if and only if take finds its process ended while idle |
| Pool.AllClosedAtRest | llm/claude.go:130-189 | when all is at rest after Close, every conversation is closed but those |
| Pool.FoundDeadIsNeverClosed | llm/claude.go:180-188 | a run that drops one |
| Pool.ClaudePool.Take | llm/claude.go:169-189 | takes what is kept off its key, and hands it out with its timer stopped and its process alive |
| Pool.ClaudePool.Settle | llm/claude.go:130-167 | keeps a conversation in place of the old one, or closes it |
| Pool.ClaudePool.Close | llm/claude.go:92-101 | everything kept is going to be closed |
| HarnessTurns.DeltasRebuildTheAnswer | llm/harness.go:739-809 | every run: the deltas rebuild the content block by block, no two neighbours are both text or both reasoning, calls are numbered from 0, and the stop reason says whether there is one |
| HarnessTurns.CallsOutlastTheTurn | llm/harness.go:765-790 | a response with a call ends only by its timer or an error |
| HarnessTurns.AnsweredWithWhatCameIn | llm/harness.go:739-809 | every run: until something ends it a response holds exactly the agent's own text and calls, letter by letter; the first thing that ends it, an end of turn with no call, the timer with one, or an error, decides the outcome for good |
| HarnessTurns.HarnessTurn.Event | llm/harness.go:739-775 | the effect of a session event |
| HarnessTurns.HarnessTurn.Call | llm/harness.go:777-789 | the effect of a tool call |
| HarnessTurns.HarnessTurn.Finish | llm/harness.go:791-809 | finishing once, with the stop reason |
| HarnessConv.CallIdsDiffer | llm/harness.go:585-588 | two calls never get the same id |
| HarnessConv.CallsAreConserved | llm/harness.go:585-626 | without an error, the calls of the finished responses, the current one and early are call_1, call_2, ... in order, none lost or repeated |
| HarnessConv.AnsweredAtMostOnce | llm/harness.go:556-583 | every interleaving: a held call gets at most one answer, its own result or the cancellation; neither send finds the channel full |
| HarnessConv.AnsweredWithItsResult | llm/harness.go:556-583 | every interleaving: the result a held call is answered with is the one the caller returned under its id, and the empty one only when it returned none |
| HarnessConv.NextGivesResults | llm/harness.go:556-583 | a call of next that succeeds owes every pending call, in order, what the caller returned for it, and changes nothing owed before |
| HarnessConv.AllAnsweredAtRest | llm/harness.go:692-712 | once every answer is sent a call is held, answered, given up or stranded |
| HarnessConv.StrandsIff | llm/harness.go:564-576 | next strands a held call exactly when it stands before the first pending one that is gone |
| StrandedCall.NextStrandsACall | llm/harness.go:556-601 | a run that strands one |
| HarnessConv.NextFailsIff | llm/harness.go:564-576 | pending ids are distinct, and next fails exactly when one is no longer held, which the agent gave up or close took |
| HarnessConv.Conversation.ToolCall | llm/harness.go:585-601 | holds the call and lists it in the response or in early |
| HarnessConv.Conversation.Next | llm/harness.go:556-583 | takes every pending call, or stops at the first that is gone |
| HarnessConv.Conversation.Begin | llm/harness.go:617-626 | a new response starts with the early calls, in order |
| HarnessConv.Conversation.Close | llm/harness.go:692-712 | takes every held call for cancellation |
| ClaudeTurns.InStepIff | llm/claude.go:774-843 | one stream event keeps the consumer of the deltas in step with the response if and only if it retries nothing streamed, starts no block twice and adds to no block of another kind |
| ClaudeTurns.DeltasRebuildTheAnswer | llm/claude.go:774-888 | a response streamed so: each block under the index it started with, up to empty text and the empty arguments of a call, and the k-th call with tool index k |
| ClaudeTurns.AnsweredAsStreamed | llm/claude.go:774-870 | since it was last started over: the response lists its blocks in the order they were started, each with exactly the text, thinking and signatures, or the call and arguments, streamed for it |
| ClaudeTurns.EndsWhen | llm/claude.go:731-772 | from the events so far: exactly which message ends a response, and whether as an answer or a failure |
| ClaudeTurns.RetryLeavesStaleText | llm/claude.go:776-787 | a retry after which the consumer has other text than the response |
| ClaudeTurns.ClaudeTurn.Stream | llm/claude.go:774-843 | the effect of a stream event |
| ClaudeTurns.ClaudeTurn.Finish | llm/claude.go:846-870 | the response in the order the blocks were started |
| ClaudeTurns.ClaudeTurn.OnMessage | llm/claude.go:731-772 | when a message ends the response, and how |

## Left out

- Spawning processes, pipes, HTTP servers, files, environment and flags: they enter as steps (process ended, timer fired, request arrived) or as parameters.
- JSON, base64, regular expressions and templates: payloads are plain values; a version is its list of components.
- The 64 MB line limit of the scanner, and session fields other than the entries (times, ids, the Prepare and Finish hooks).
- Fingerprints as strings: a fingerprint is a record, so two that differ never collide through a NUL or a comma in a text or an id.
- WriteRows.EncodeRows: asks that its inner loop ends at every entry it comes to, which `ChaseEndsIff` and `EndsIffLinksLeave` say exactly; on any other session the code does not return either.
- Projection.Events: does not model the time stamps of events, nor the arguments of tool calls.
- Versions.CompareVersions: Atoi's clamping to the largest integer is modelled, its error value is not.
- AcpTurns.NextKeepsInv: the steps after the process exits are not modelled, where the counter is reset while a settled prompt may still count itself down.
- AcpTurns.TurnAccounting: an answer and an error to a prompt are one kind of report, and parking of ACP requests is not modelled.
- ClaudeTurns.DeltasRebuildTheAnswer: token counts, times and the signatures of reasoning blocks are not in the deltas, so nothing is said about them.
- ParkedCalls.ToolsFindTheirResults: takes the agent at its word that call ids are fresh, that it asks once for a call, and that it makes a call before its next response; it may leave calls unasked and unmade.
- ClaudeSession.ApprovalsCloseOnce: takes each approval's key to be new to the session; a request asked again under an id already resolved, or a control request id that is some tool use id, could share or overwrite a key, as `ParkingOverwritesIff` says for one step.
- A Claude prompt that found the process alive and opens its turn after `watch` closed the last one.
- The first check of Pi's `awaitPrompt` is merged with its second; Pi dialogs, usage and context events, and `readContext` are not modelled.
- Subagent tools, usage and context events, and `permissionUpdates` of the Claude session: they add members that a case split settles.
- The answer a Codex approval carries (`approvalAnswer`) and caller tools run over Codex: payloads only.
- `driver/acp_grok.go`, `harness/install.go`, `harness/auth.go` and `conformance/expect.go`: small merges and aggregations that would add easy members.
- Registry and side tables, `Linearize`, `Portable` and `Lower`: data, or results taken as arbitrary inputs.
- Fields of `harnessConv` that hold the session and its files; `harnessTurn` is a value inside the conversation model and an object of its own in `HarnessTurns`.
