# Abhed's editor connection, modelled and proved in Dafny

Abhed serves an editor over one connection (the agent client protocol, JSON-RPC 2.0 by
lines). This project models the parts of that server whose behaviour is hardest to see
from the code: what its goroutines do to shared state in every interleaving, and the
algorithms that read and write text the other side controls.

| file | what it models |
|---|---|
| `SessionSteps`, `AcpSession`, `SessionRuns`, `SessionReviews`, `SessionBinding` | one session shared by prompt turns, woken turns, MCP restarts, held asks and review windows |
| `LanguageServerSteps`, `LanguageServer`, `LanguageServerRuns`, `LanguageServerEnds` | the supervisor of a language server: start, crash, backoff, restart, stop, bounded output |
| `DebugSends`, `DebugSession` | a debug session's send queue with its closing handshake, and the connection's debug slots |
| `Framing`, `RequestId` | the bounded line reader, and the id found in the head of a line too long to parse |
| `LineEditor`, `TerminalRuns`, `TerminalSafe` | the lines-mode terminal: typed input, Ctrl-C against the goroutine that runs lines, output |
| `Words`, `SafeWords`, `GrantFlags`, `Grants`, `GrantStore`, `GrantAsks` | bash grants: the command lines one covers, the file they are kept in, and a look for one while others change both |
| `RateLimit` | the two nested token buckets and the ordering of completion requests |
| `Lines`, `LineDiff`, `NextEdit`, `LoneReturns` | a model's rewrite of a window of lines turned into edits, and how editors read their places |
| `PlanAcceptance` | answering a proposed plan while record writes fail |
| `WorkTree` | the work panel's tree of jobs, whose parents may form cycles |

How the model is built:

- A section of code that runs under a mutex is one atomic step; timers, cancellation and a
  process's end are steps that may come at any time. A run is any sequence of steps, and
  the main results hold of the state every run reaches (`Reached`, `Run`).
- Objects the code updates in place are classes with the same fields. Each method is proved
  to do what a function on values says (`View() == F(old(View()))`), and the results over
  runs are proved of those functions.
- What cannot be seen from here is an input that may be anything: which record writes fail,
  what another process does to the grants file between two looks, which valid edit script
  the diff finds, how the stream is cut into buffers, what the clock reads.

To check it: `dafny verify dfyconfig.toml` (Dafny 4.11).

## Model

| member | source | states |
|---|---|---|
| SessionRuns.SingleOwner | app/acp.go:274-303 | over every run at most one prompt turn, woken turn (with the gap between its turn's end and clearing `woken`) or MCP restart holds the session, and the claim fields are clear exactly when none does |
| SessionRuns.OnlyOwnEndReleases | app/acp_control.go:921-942 | every step but the holder's own end or release leaves it holding, its claim fields untouched (each end acts once, so one called again is no step: `EndingTwice`) |
| SessionRuns.NoLostWakeup | app/acp.go:1597-1656 | an ask parked on a wake channel that is not closed is parked on the session's current one and may not go out; so whatever makes it askable has closed its channel |
| SessionRuns.AskableAskLeaves | app/acp.go:1636-1652 | a parked ask that may go out does so in two steps of its own, through the window open then |
| SessionRuns.ReviewReleases | app/acp_tasks.go:235-263 | after a review with no turn open every ask of the reviewed task is askable through the current window, and every one parked has been woken and leaves through that window in two steps of its own |
| SessionRuns.WindowAccounting | app/acp_tasks.go:217-319 | each window counts exactly the asks let out through it and not returned; only the current window is open, and then no turn is; a current one that is not open has asks outstanding; an open one with none has its linger armed |
| SessionRuns.WaitingCounts | app/acp.go:1611-1623 | `waiting[task]` is the number of that task's asks between their first refusal and their settling |
| SessionRuns.ShutWindowNeverGrows | app/acp_tasks.go:298-319 | once a window is not open its outstanding count never rises, over any further run |
| SessionReviews.OnlyReviewedOut | app/acp.go:307-315 | over every run, an ask let out through a review window is of a background task, and a review of that task or of all is among the run's steps |
| SessionBinding.ReviewLeavesBehind | app/acp_tasks.go:248-253 | from any reached state, a step takes the current window from the session without ending it if and only if it is a review, no turn is open, and the window is shut; and a shut one has asks out |
| SessionBinding.LeftBehindByReview | app/acp_tasks.go:248-253 | over every run, a window is neither the session's nor ended if and only if some review of the run found it current and shut with no turn open |
| SessionBinding.CancelMissesHeldAsk | app/acp_tasks.go:307-319 | a run that gets there: closing the session's window leaves an ask out through the older one, which is not ended |
| SessionBinding.TurnLasts | app/acp.go:299-303 | over every run an open turn is still the session's if and only if its own end has not come |
| SessionBinding.BindsItsTurn | app/acp.go:1427-1439 | an ask let out to a turn, and bound after whatever steps, is bound to that turn if and only if the turn's own end is not among them |
| SessionBinding.BindsLaterTurn | app/acp.go:1433-1435 | a run in which it is bound to the turn after that |
| SessionBinding.BindsNoTurn | app/acp.go:1433-1435 | a run in which it is bound to none |
| SessionRuns.InvStep | app/acp.go:263-329 | every step of every goroutine keeps the owner, window, waiting and wake invariants together |
| AcpSessions.AcpSession.BeginTurnLocked | app/acp.go:287-297 | beginning a turn takes the claim, shuts the current window, lets it go when no asks are outstanding, and closes the wake channel |
| AcpSessions.AcpSession.ClaimTurn | app/acp.go:274-285 | a claim is taken only with no turn, woken turn or restart, and says which of them stands in the way |
| AcpSessions.AcpSession.EndTurn | app/acp.go:299-303 | ending a turn clears the turn's own fields and no others |
| AcpSessions.AcpSession.OpenWoken | app/acp_wake.go:25-45 | a woken turn starts only on a session nothing holds |
| AcpSessions.AcpSession.ClaimRestart | app/acp_control.go:934-942 | a restart is claimed only on a session nothing holds |
| AcpSessions.AcpSession.AskableLocked | app/acp.go:307-315 | whether an ask of a task may go out now, and whether through the window |
| AcpSessions.AcpSession.Look | app/acp.go:1636-1645 | under one lock an ask goes out through its window, counted and with the linger stopped, or takes the channel that the next change closes |
| AcpSessions.AcpSession.ReviewTasks | app/acp_tasks.go:235-263 | a review widens the open window or opens another, arms its linger anew when no asks are out, and wakes every parked ask |
| AcpSessions.AcpSession.WindowAnswered | app/acp_tasks.go:298-305 | an answered ask is uncounted from its own window, and the last one closes or lingers the current window |
| AcpSessions.AcpSession.CloseWindowLocked | app/acp_tasks.go:309-319 | closing takes the window from the session, cancels it and its linger, and wakes the parked |
| LanguageServerRuns.Supervised | app/acp_lsp.go:226-427 | over every run no send meets a closed input and `done` closes at most once; at most one process lives, the last started; at most `lspMaxRestarts` + 1 ever start; `done` closes only with none live |
| LanguageServerRuns.DoneIsFinal | app/acp_lsp.go:636-646 | once `done` is closed no process starts, over any further run |
| LanguageServerRuns.StopHolds | app/acp_lsp.go:925-957 | once stopped, an installed live process is cancelled or has its kill pending |
| LanguageServerRuns.KillCancels | app/acp_lsp.go:792-799 | a kill, when the lock is free, dooms the installed live process, which its cancel then ends |
| LanguageServerRuns.StopCancels | app/acp_lsp.go:345-396 | from any stopped state with an installed live process, the lock held or free, at most four steps, none the server's own, cancel it |
| LanguageServerEnds.DriverEnds | app/acp_lsp.go:226-427 | over every run, crashes, restarts and stops at any time, the goroutine that starts the server takes at most 63 steps, and when it can take no more `done` is closed |
| LanguageServerEnds.StopEnds | app/acp_lsp.go:636-646 | from every stopped state, the lock held or free, steps of that goroutine, the kill and the process's own exit close `done`, and the process exits, or fails to answer, only once it has been cancelled |
| LanguageServerRuns.InputsBoundedInOrder | app/acp_lsp.go:731-774 | each input holds at most `lspOutBytes`, its counter is exact, and it is written in the order queued |
| LanguageServers.LanguageServer.Write | app/acp_lsp.go:731-757 | a message is queued, or refused for no server, a full queue or too many bytes, on the current input only |
| LanguageServers.LanguageServer.Install | app/acp_lsp.go:264-316 | a process is installed as the one sends and kills reach, and told whether a stop came first |
| LanguageServers.LanguageServer.CloseInput | app/acp_lsp.go:345-396 | when a process has gone its input is closed once and nothing more is sent to it |
| LanguageServers.LanguageServer.StopUnderLock | app/acp_lsp.go:925-957 | the first stop's reason stays |
| DebugSends.AnsweredOnce | app/acp_debug.go:519-579 | every message read is answered at most once, and exactly when it is no longer with the reader, queued or in hand; once the sender has gone every accepted one has been |
| DebugSends.InFlightBalances | app/acp_debug.go:519-564 | in flight is exactly what is queued and the one the sender has not settled |
| DebugSends.DeliveredInOrder | app/acp_debug.go:543-579 | what reaches the adapter is a subsequence of what was accepted, in the order read |
| DebugSends.ClosedTakesNoMore | app/acp_debug.go:519-564 | after the queue closes nothing is accepted and nothing delivered |
| DebugSends.SenderFinishes | app/acp_debug.go:543-564 | once the session has ended, wherever the sender stands and whether or not the adapter takes what it has in hand, its own steps, three for each message queued and at most five more, answer what is left and end |
| DebugSends.SenderAlwaysFinishes | app/acp_debug.go:543-564 | so from every reached state in which the session has ended; then every message taken in has been answered once |
| DebugSends.DebugSessionsBounded | app/acp_debug.go:203-214 | over every run of launches and ends, open plus reserved debug sessions are those running plus those launching, and never more than `maxDebugs` |
| DebugSessions.DebugSession.DebugEnqueue | app/acp_debug.go:519-538 | a message is queued last and counted in flight, or refused for a closed or full queue |
| DebugSessions.DebugSession.CloseAndDrain | app/acp_debug.go:543-564 | the queue is closed and everything left in it handed back to be refused, in order |
| DebugSessions.DebugSlots.ReserveDebug | app/acp_debug.go:583-591 | a slot is reserved only while open and reserved sessions are under the bound |
| Framing.ReadLine | app/acp.go:513-539 | one call takes exactly the next raw line however it is chunked: too long iff the raw line is over max + 2 or its trimmed form over max, with `head` its first bytes, and the next call starts at the next line |
| Framing.ReadAll | app/acp.go:513-539 | over the whole stream the results are those computed from its raw lines |
| Framing.RawLinesAreLines | app/acp.go:513-539 | the raw lines are lines, and joined they are the stream |
| Framing.LinesAreUnique | app/acp.go:513-539 | there is no other way to cut a stream into lines |
| Framing.HeadIsFirstBytes | app/acp.go:541-551 | a head is the line's own first bytes |
| RequestId.RequestID | app/acp.go:551-601 | the loop over a line's tokens computes the walk |
| RequestId.RequestIdIsLookup | app/acp.go:551-601 | for every JSON object and token prefix the walk gives the first top-level "id" when it is a string or number reached before nesting passes `idDepth`, and nothing otherwise, never a key or value from within |
| RequestId.CutNumber | app/acp.go:551-601 | a head that ends inside a number changes the answer exactly when that number is the id's own, reached in bounds; then the id is the digits the head holds |
| RequestId.CutIdAnswered | app/acp.go:551-601 | such a message: with parameters of any size before it, the id 12 cut after its first digit is answered as 1 |
| LineEditor.AcpTerminal.TerminalInput | app/acp_person.go:227-288 | one input's bytes edit the line, escape state, generation and queue as the step function says |
| LineEditor.AcpTerminal.FlushLocked | app/acp_person.go:301-319 | Ctrl-C's flush empties the queue, steps the generation and counts the commands dropped |
| LineEditor.InputKeepsClean | app/acp_person.go:227-272 | no input puts a control byte in the pending line or a queued one, or makes one longer than `maxTerminalLine` |
| LineEditor.BreaksAlwaysAct | app/acp_person.go:337-345 | CR, LF and Ctrl-C act the same in every escape state |
| LineEditor.InputPieces | app/acp_person.go:227-272 | an input cut into pieces, none but the last ending right after an ESC that starts a sequence, leaves the terminal as the whole would |
| LineEditor.InputCut | app/acp_person.go:227-272 | the same for one cut |
| LineEditor.CutAtEsc | app/acp_person.go:267-271 | a cut right after that ESC makes no difference to the next byte if and only if that breaks, is another ESC, or would have done nothing to the line; and then none to whatever follows |
| LineEditor.CutAfterEsc | app/acp_person.go:267-271 | one cut that does: an arrow key's sequence cut after its ESC is typed as text |
| LineEditor.ErasedIsNothing | app/acp_person.go:254-264 | text typed anywhere with room and erased byte by byte leaves the terminal as if never typed |
| LineEditor.TextEntered | app/acp_person.go:250-264 | text and a line break queue the pending line with that text, when there is room, and leave an empty line |
| LineEditor.SequencesDropped | app/acp_person.go:337-386 | a complete escape sequence anywhere leaves the terminal as the text without it would |
| TerminalRuns.CtrlCStopsEarlierLines | app/acp_person.go:301-319 | a line entered before a Ctrl-C that had not passed the runner's check never passes it, however inputs, queueing, taking and checking interleave |
| TerminalRuns.RunsInQueueOrder | app/acp_person.go:390-427 | each text that ran is that of the line queued at its place, which passed the check; no line runs twice, and they run in queue order |
| TerminalRuns.OutStep | app/acp_person.go:396-424 | each step keeps a stopped line stopped: wherever it waits, its generation is past |
| TerminalRuns.SectionOk | app/acp_person.go:227-273 | an input's locked section keeps the queue or empties it, the latter exactly as the generation rises |
| TerminalSafe.TerminalSafe | app/acp_person.go:548-578 | the loop's output is the safe text, and draws only text, line ends, tabs and colour |
| TerminalSafe.SafeShows | app/acp_person.go:548-578 | whatever a command writes, the result is in the language of SGR sequences (section 8.3.117 of ECMA-48), tab, newline, CR-LF and non-control characters |
| TerminalSafe.SafeKeepsSafe | app/acp_person.go:548-578 | output is left as it is if and only if it is already in that language |
| TerminalSafe.SafeTwice | app/acp_person.go:548-578 | making output safe is idempotent |
| TerminalSafe.CrlfIs | app/acp_person.go:532-539 | `crlf` is the safe text with every line end one CR-LF and the last line ended |
| TerminalSafe.CrlfSent | app/acp_person.go:532-539 | what is sent is in the language, every LF follows a CR and every CR precedes an LF, it ends in CR-LF unless there was no output, keeps the text but for line ends, and is a fixed point |
| TerminalSafe.NeverDrawnOver | app/acp_person.go:544-547 | sent output draws only past the cursor and no character over another |
| SafeWords.SafeWord | app/acp_grants.go:127-142 | the nested scan accepts exactly words with no `@`, no absolute path at the start or after `=` or `:`, and no `..` standing alone |
| SafeWords.SegmentsInside | app/acp_grants.go:131-140 | cutting at `=`, `:` and `/` and looking at the parts decides the positional property, both ways |
| GrantFlags.FlagsAllowed | app/acp_grants.go:159-213 | the scan with its running expected value decides the grammar: each word judged by itself and the one before it, listed flags with inline or next-word values, go packages, no positionals for mvn and gradle, a `--` tail only for pass-through families |
| GrantFlags.ArgsPrefix | app/acp_grants.go:159-213 | acceptance is closed under leaving words off the end |
| GrantFlags.ModFlag | app/acp_grants.go:200-208 | the flags let through unlisted are exactly `-mod=readonly` and `-mod=vendor` |
| Grants.CommandFieldsFront | app/acp_grants.go:217-235 | a simple command cut to its first words is a simple command of those words |
| Grants.FamilyIsFirstWords | app/acp_grants.go:239-286 | a family is the first one to three words of its line, cutting it gives them back, and every word after the program stays inside the folder |
| Grants.FamilyOfShorter | app/acp_grants.go:239-286 | leaving words off the end, down to the family's own, leaves the family the same |
| Grants.FamilyOfFamily | app/acp_grants.go:239-286 | a family is a command of its own family |
| Grants.GoTestIsFamily | app/acp_grants.go:38-52 | `go test`, as the tables have it, is a simple command and a family |
| Grants.OptionsCover | app/acp_grants.go:315-333 | every grant offered for an ask covers that command in that folder |
| Grants.CoversNoMore | app/acp_grants.go:289-303 | a grant covers one simple command only: an exact grant just that line's words, a family grant just lines starting with the family's words, and nothing outside its folder |
| Grants.FamilyCoversShorter | app/acp_grants.go:289-303 | a family grant that covers a line covers every shorter line down to the family |
| Words.FieldsOfJoin | app/acp_grants.go:282-285 | joining words and cutting the line again gives the words back |
| GrantStore.KeptOnce | app/acp_grants_store.go:194-237 | from no file, over every run of changes and failures, a workspace's kept grants have different names, none is a session's own, and no entry is left empty |
| GrantStore.RevokeHolds | app/acp_grants_store.go:215-237 | a grant dropped without failure is found kept no more, for any folder there, whatever is changed after, until it is kept again |
| GrantStore.KeepHolds | app/acp_grants_store.go:194-212 | a grant kept without failure is found kept for that folder until it is dropped or another folder there keeps something |
| GrantStore.AgreementKept | app/acp_grants_store.go:163-185 | agreeing to listen is found agreed, and every grant kept for that folder stays |
| GrantStore.AgreementForgotten | app/acp_grants_store.go:163-185 | forgetting it leaves it not found if and only if it was not kept for any folder while the folder there has an identity |
| GrantStore.AgreementOutlivesForgetting | app/acp_grants_store.go:163-185 | one change reaches that: agreeing where the folder has no identity, then forgetting where it has one |
| GrantStore.GrantForAnswers | app/acp_grants_store.go:268-288 | the grant that answers covers the command and, unless a session's own, was found kept at the last look made; with none, no grant left covers it; a grant is let go only if it covers the command and was found no longer kept at an earlier look |
| GrantStore.GrantForFirst | app/acp_grants_store.go:268-288 | with the file unchanged meanwhile the answer is the first grant that covers the command and still stands |
| GrantStore.RevokedAnswersNothing | app/acp_grants_store.go:214-288 | a grant dropped without failure answers nothing, at whatever points of whatever later changes the file is looked up, until some process keeps it there again |
| GrantStore.GrantsFile.ChangeKeptGrants | app/acp_grants_store.go:88-132 | a change is written whole or not at all; an unreadable file is moved aside before it is written over |
| GrantStore.GrantsFile.KeepGrant | app/acp_grants_store.go:194-212 | keeping adds the grant once, in a new entry when the folder is another |
| GrantStore.GrantsFile.DropGrant | app/acp_grants_store.go:215-237 | dropping takes out the grant of that name, and says which it was only when the write worked |
| GrantStore.GrantsFile.SetListenAgreed | app/acp_grants_store.go:163-185 | the agreement is kept or forgotten for that folder, with the entry when nothing is left in it |
| GrantStore.SessionGrants.AddGrant | app/acp_grants_store.go:246-252 | a session's list takes a grant once |
| GrantStore.SessionGrants.GrantFor | app/acp_grants_store.go:268-288 | the loop ends, as its list shrinks at each grant found revoked; its answer was found kept at the look it ends on, and what it let go at a look before |
| GrantAsks.AnswerRests | app/acp_grants_store.go:265-288 | while others add grants to the list, take some from it, change the file and make the folder again: a grant that answers covers the command, was in the list, and was kept in the file as read, for the folder as it was then or later; no answer means that at some time no grant in the list covered the command |
| GrantAsks.RevokedNeverAnswers | app/acp_grants_store.go:214-288 | a grant revoked before the look and kept by no process since answers nothing, even if it is put in the session's list while the look is under way |
| GrantAsks.GivenStays | app/acp_grants_store.go:284-287 | a grant given while a look is under way stays in the list, whatever that look does, if and only if the look had not already found it missing |
| GrantAsks.GivenAgainIsLost | app/acp_grants_store.go:284-287 | a run in which it had: the look deletes the grant just given again and answers nothing, while the file keeps it |
| RateLimit.SessionRateHolds | app/acp_complete.go:88-99 | in any stretch of any run whose readings lie within some seconds, in any order, a session's requests that pass are at most 5 and one each 0.2 s |
| RateLimit.ConnectionRateHolds | app/acp_complete.go:600-608 | and over all sessions of the connection at most 10 and one each 0.1 s |
| RateLimit.SessionNeverOwes | app/acp_complete.go:88-99 | while its readings come in order a session's bucket holds from 0 to its burst |
| RateLimit.ConnectionNeverOwes | app/acp_complete.go:600-608 | while all readings come in order the connection's bucket holds from 0 to its burst |
| RateLimit.ConnectionOwesLag | app/acp_complete.go:600-608 | in every run, in whatever order the readings come, that bucket owes no more than refills in the time they span, and refilled at the latest of them it owes nothing |
| RateLimit.OwesExactly | app/acp_complete.go:88-99 | a bucket holding from 0 to its burst owes after a request if and only if that reads the clock earlier than the last refill by more than what it holds takes to refill; then no token is given |
| RateLimit.ConnectionMayOwe | app/acp_complete.go:600-608 | a run of two sessions that leaves the connection's bucket two tokens short |
| RateLimit.TokenInTime | app/acp_complete.go:88-99 | a bucket's first use gives a token, and one that owes nothing gives one each `every` at the latest |
| RateLimit.TokensBounded | app/acp_complete.go:88-99 | whatever the clock reads no bucket holds more than its burst |
| RateLimit.RefundIsRefill | app/acp_complete.go:600-608 | a request the connection's bucket refuses leaves the session's as refilling alone would |
| RateLimit.SupplyKept | app/acp_complete.go:88-99 | a token taken comes out of what the bucket can still give, and refilling adds nothing to that |
| RateLimit.NewerReplaces | app/acp_complete.go:550-584 | admitted sequence numbers rise, every admitted request but the newest has been cancelled, and all have once the session closes |
| RateLimit.Bucket.Take | app/acp_complete.go:88-99 | a bucket refills to now, at most its burst, and gives a token if it has one |
| RateLimit.CompRateTake | app/acp_complete.go:600-608 | a token of the connection's is taken, or the session's given back |
| RateLimit.AcpCompleter.Admit | app/acp_complete.go:550-584 | admission spends the session's token first, drops an older request, cancels the one in flight, and leaves an adapter error's cancel in place |
| Lines.SplitLinesAre | internal/linediff/linediff.go:14-23 | the lines join to the text, none is empty, and every line but the last ends in its newline |
| Lines.SplitOfConcat | internal/linediff/linediff.go:14-23 | lines that follow one another come back from their text |
| LineDiff.Hunks | internal/linediff/linediff.go:121-141 | the two-level loop gathers the runs of changed lines |
| LineDiff.HunksSeparate | internal/linediff/linediff.go:113-141 | the hunks of any valid script are in order, apart, not empty, with the same lines on both sides between them |
| LineDiff.PatchedIsNew | internal/linediff/linediff.go:143-147 | all the hunks together turn the old lines into the new |
| LineDiff.PatchedAround | internal/linediff/linediff.go:143-147 | a line no hunk replaces stays between what the hunks before it make of the lines before it and what the others make of those after it |
| NextEdit.Normalise | app/acp_next_edit.go:226-264 | the rewrite's lines get the window's own trailing space and line ends |
| NextEdit.CopiedLine | app/acp_next_edit.go:236-250 | a line the rewrite copied, but for the space at its end, comes back as the first such window line is written |
| NextEdit.NextShape | app/acp_next_edit.go:227-264 | those lines follow one another, and the last ends as the window's last does |
| NextEdit.WindowEdits | app/acp_next_edit.go:222-317 | the edits are those of the offered hunks, and each refusal is given exactly when its reason holds |
| NextEdit.EditsApply | app/acp_next_edit.go:285-309 | made to the document all at once, at the places an editor reads, the edits give the document with exactly the offered hunks replaced by the rewrite's lines, also where the window is sent without its last newline and the document goes on after it |
| NextEdit.EditsInOrder | app/acp_next_edit.go:285-309 | each edit starts at or before its end, inside the window, and ends before the next starts, the unended last line included |
| NextEdit.OfferedReach | app/acp_next_edit.go:255-300 | a hunk reaches an unended last line only by replacing it |
| NextEdit.WithheldKept | app/acp_next_edit.go:286-295 | a line the model was not shown as it is stays as it is and in its place, between what the hunks before it and after it make of the lines there |
| NextEdit.AllOffered | app/acp_next_edit.go:265-277 | with nothing withheld and every hunk offered the window becomes the rewrite |
| NextEdit.NoLineRunsOn | app/acp_next_edit.go:255-264 | cut into lines again the edited document is the lines before, the patched window's and what follows, which goes on the window's last line if and only if it did before: no line runs into another, and none is cut off |
| NextEdit.EmptyWindow | app/acp_next_edit.go:255-264 | for a window with no lines, the exception, what follows stays on its own lines if and only if there is none, or the rewrite's last line is ended or empty |
| NextEdit.EmptyWindowRunsOn | app/acp_next_edit.go:255-264 | one such: `x` put in before the line `b` gives the one line `xb`, under any valid script |
| NextEdit.ReplaceAllDiffs | internal/linediff/linediff.go:42-47 | removing every old line and adding every new one is a valid edit script, so what the results take of scripts can be met |
| LoneReturns.EditReadSame | app/acp_next_edit.go:296-309 | an editor that also ends lines at a lone carriage return reads an edit's two places where the code means them if and only if none stands alone in the document up to the end of the lines replaced |
| LoneReturns.PlacesReadSame | app/acp_next_edit.go:296-309 | and all the places of the window if and only if none does in the document up to the window's end |
| PlanAcceptance.AllOrNothing | app/acp_plan.go:36-133 | the plan is carried out if and only if its acceptance and mode change were recorded and its runbook could be bound; then mode, record, runbook and text all agree, and otherwise mode and approval are as they were |
| PlanAcceptance.KeptOnRecord | app/acp_plan.go:101-118 | a plan not carried out, with every write taken, leaves keep-planning as the record's last decision and the recorded mode the one in force |
| PlanAcceptance.RecordedModeLags | app/acp_plan.go:103-127 | the recorded mode differs from the one in force if and only if the mode was changed, the runbook then not bound, and the change back not recorded |
| PlanAcceptance.OnRecordFirst | app/acp_plan.go:88-127 | whichever writes fail, the mode is widened and a runbook bound only after the record has taken the acceptance and the change |
| PlanAcceptance.PlanLoop.Decide | app/acp_plan.go:27-134 | the imperative form, with its two ways back, does what the function says |
| PlanAcceptance.PlanLoop.AcceptTaken | internal/agent/runbook.go:349-361 | accepting lets go of what was bound, and binds the runbook last proposed or fails |
| WorkTree.WorkPanel.Tree | app/cli_panel.go:183-206 | the maps and the recursion end for all jobs, cyclic parents included, and append the walk's rows |
| WorkTree.WorkPanel.WalkUnder | app/cli_panel.go:197-204 | one call appends each child and everything under it, in order |
| WorkTree.ListsReachable | app/cli_panel.go:183-206 | a job is listed if and only if its chain of parents reaches the root, and then once |
| WorkTree.RowsUnderParents | app/cli_panel.go:183-206 | a row's parent is the nearest row above it that is less deep, by one; siblings come in the order they started |
| WorkTree.AcyclicPermutes | app/cli_panel.go:183-206 | with no cycle of parents the rows are the jobs in another order |
| WorkTree.ChainUnique | app/cli_panel.go:188-196 | a job has one chain of parents, so no job is walked twice |

## Where the code and its words differ

- A request's id cut off by the end of the head is answered as the digits that fit, where the
  comment promises the id: exactly when the head ends inside the id's own number
  (`RequestId.CutNumber`), as it may (`RequestId.CutIdAnswered`).
- Closing a session's window is to refuse the asks it let out that are still open. A review
  that finds the window shut, with asks out through it, puts another in its place and does
  not end it (`SessionBinding.ReviewLeavesBehind` says exactly when, over runs
  `LeftBehindByReview`), so a cancel then leaves such an ask
  (`SessionBinding.CancelMissesHeldAsk`).
- An ask that is not held is to be bound to the turn it is put in, but reads the turn in a
  second critical section. It is bound to that turn exactly when the turn has not ended in
  between (`SessionBinding.BindsItsTurn`); otherwise to a later one or to none
  (`BindsLaterTurn`, `BindsNoTurn`).
- `setListenAgreed` off is to forget the agreement, but leaves an entry alone whose folder is
  not the one there now, while `listenAgreed` takes one kept with no folder identity for any
  folder (`GrantStore.AgreementForgotten` says exactly when it is forgotten,
  `AgreementOutlivesForgetting` how it is not).
- A grant given while a look for one is under way may be deleted from the session's list by
  that look, if it had found the grant missing before (`GrantAsks.GivenStays` says exactly
  when, `GivenAgainIsLost` how).
- A next-edit window may be empty when its first line is over the size shown; the rewrite is
  then inserted as it is, and may run into the line after it (`NextEdit.EmptyWindow` says
  exactly when, `EmptyWindowRunsOn` how).
- The places of edits are line numbers, which the code counts at newlines only and an editor
  may count at lone carriage returns too, as the language server protocol does: then it reads
  them as meant exactly when no carriage return stands alone in the document up to there (`LoneReturns.EditReadSame`,
  `PlacesReadSame`).
- The connection's bucket is given readings taken under each session's lock, so they need not
  be in order there, and it may hold less than nothing (`RateLimit.OwesExactly` says exactly
  when, `ConnectionMayOwe` how, `ConnectionOwesLag` how much). `ConnectionRateHolds` does not
  need them to be.

## Left out

- GrantStore.GrantsFile.DropGrant: a grant's id is its command, family and folder themselves; the model takes the hash of them to be injective.
- GrantStore.SessionGrants.GrantFor: the session's list changes only in the loop while it runs; `GrantAsks` has the same loop step by step, with others changing the list.
- NextEdit.NoLineRunsOn: takes a window with a line, whose cleaning adds no newline at its end (`NextEdit.EmptyWindow` takes the one without); lines end at newlines only, as in the code (`LoneReturns` says when an editor agrees).
- LoneReturns.EditReadSame: takes a window whose cleaning adds no newline at its end.
- NextEdit.WindowEdits: the edit script is any valid one; that the shortest is found (`EditScript`, Myers' algorithm and its distance bound) is not modelled.
- WorkTree.ListsReachable: jobs have names of their own, none empty, as the callers give them.
- TerminalRuns.RunsInQueueOrder: the command a line runs, its interruption and its output are not modelled.
- Grants.OptionsCover: `filepath.Clean` and `within` are any functions where a folder is within itself.
- The number of asks `reviewTasks` says it released, and the check that the session is trusted before a woken turn.
- `lspEnqueue` and `lspWork`: the language server's inbound queue, which has no closed flag, so exactly-once answering is not its property.
- How long lingers, backoffs, graces and held asks last: each may end at any time.
- JSON lexing and UTF-8 decoding: `RequestId` starts from tokens and `TerminalSafe` from decoded characters and stray bytes.
- Titles, labels, notices and messages to the person, `_meta` blocks, redaction itself, and what the record stores beside the entries named.
- Adapters, processes, pipes, file locks and disks: only whether they worked.
- The policy engine, the sandbox and which asks a grant may answer (`grantable`).
- The summary counts of completions, except refusals and supersessions.
