# Hara: verified models of its protocols and governors

Hara is a coding-agent command line. This project models the parts of it whose guarantees range over
unbounded inputs or whole runs, and proves those guarantees with Dafny: the storage protocols that other
programs and crashes may interleave with, the streaming forms that must equal a batch form, the bounded
transformations, and the run-time governors. `dafny verify dfyconfig.toml` checks the whole project.

Code that computes is a function with lemmas about it. Code that changes fields or loops is a class or a
method whose contract ties its new state to a specification function, and the promises are proved of that
function. Protocols whose steps interleave with other processes are state machines over their system calls:
a theorem about them quantifies over every valid run. Every lemma is marked `{:induction false}`: each
inductive proof is written out.

| modules | models |
|---|---|
| `FsWrite`, `FsWriteSafety`, `FsWriteAlone` | the claim / verify / link / discard write |
| `Undo`, `UndoOrder`, `UndoSession`, `UndoStack`, `UndoRepeat`, `UndoRace` | the undo stack over a file tree, and one undo under interference |
| `Artifacts`, `ArtifactsSafety`, `ArtifactsAlone`, `ArtifactsLimit` | the append-only revision graph and its compare-and-swap pointer |
| `MailOutbox`, `MailIntake`, `MailSync` | sending through a journal, receiving through a cursor |
| `Sanitizer`, `SanitizerSpec` | the incremental removal of reasoning tags |
| `FsRead` | the bounded line reader |
| `ContextBudget`, `ContextBudgetClip`, `ContextBudgetNotice` | the history snapshot for a model call |
| `ContextBudgetTexts`, `ContextBudgetKept`, `ContextBudgetPrepared` | what of every text reaches the model |
| `Diff` | the longest-common-subsequence edit script |
| `Watchdog`, `WatchdogBound`, `WatchdogVerdict` | the progress watchdog |
| `RepeatGuard`, `RepeatGuardLedger`, `RepeatGuardRecency` | the repeat-failure ledger |
| `ManagedSend`, `ManagedSendSafety`, `ManagedSendEligible` | managed replies of the group scene |
| `MapLimit` | the bounded-concurrency map |
| `OrderedMap`, `Common` | shared vocabulary |

## Where the code does less than it promises

Each of these has a concrete input and the exact condition under which the promise does hold.

- Two writers that expect the same file can both commit if the file has a second hard link which another
  program moves to the target between them (`FsWriteSafety.HardLinksAdmitTwoCommits`, for every link count of two
  or more); an expected link count of one excludes it against any environment.
- `undoLast` walks a group in the order it was written, so a group that puts two files into a directory it had
  to make cannot be undone cleanly: the first deletion finds the directory occupied, a failure is reported and the
  directory stays (`UndoStack.NewDirectoryLeftBehind`). A group is undone without a failure if and only if no
  file of it lies below a directory made for an earlier file of it. The rollback in `src/tools/patch.ts` walks
  backwards and does not have this problem.
- Once a path has been written again, the undo of an earlier edit of it is always refused, because every write and
  every undo gives the file a new inode (`UndoRepeat.OverwrittenNeverUndone`). For every sequence of edits in any
  groups, undoing the whole stack succeeds if and only if no path was edited twice and no group shares a new
  directory in that way (`UndoRepeat.StackRestoresIff`).
- Racing commits can exceed the revision limit, after which listing, and so every revert, fails
  (`ArtifactsLimit.LimitCanBeExceeded`, `ArtifactsLimit.NoRevertBeyondLimit`). Activations exceed it if and only if
  more processes have passed the check than places are left, and commits that do not overlap there never do.
- A rebind of a mail connection writes back the queue it read earlier, because queueing does not change the
  revision it compares; a message queued meanwhile can then be stored but never submitted
  (`MailIntake.StaleRebindLosesMail`). Some continuation of the write loses a message if and only if the written queue
  lacks one that the running synchronisation will move past and that synchronisation has no comparison of the
  revision left before its commit (`MailIntake.RebindLosesIff`).
- Clipped tool inputs can leave the snapshot unmarked, because a change is detected by comparing one measured size for
  all the calls of a message. In any history the first pass reports an assistant message if and only if its text is over
  its cap or the gains of all its inputs together are not zero, where the gain of a value is defined by recursion: marker
  minus dropped text for a text over the cap, the sum over kept items and fields, and the notes on what is omitted
  (`ContextBudgetNotice.AssistantChangeNoticed`). A lone plain input goes unnoticed when it is 12,002 characters long
  (`ContextBudgetNotice.PlainClipNoticed`); two of 12,001 and 12,003 go unnoticed together, though neither would alone
  (`ContextBudgetNotice.TwoClipsCancel`).
- A result of the newest tool round is cut a second time when its share of the budget is just below an earlier cap. Then
  an end of the first notice can stay beside the second (`ContextBudgetPrepared.NoticesCanMeet`). For plain texts this
  happens if and only if the second cut leaves more room beside its notice than the first did
  (`ContextBudgetTexts.SecondNoticeIff`); every other text keeps a beginning and an end around one notice, and
  `ContextBudgetPrepared.ApartIff` says for which shares and names the newest results do.
- Once a tool input has been cut twice, the note on an array of more than 80 items says that one item was omitted,
  however many were: the second cut counts the first one's note (`ContextBudgetKept.InputAgain`).
- Text that white space keeps from ever becoming a tag, such as `<th ink`, is still held back and is dropped at the end of
  the stream (`Sanitizer.HeldThoughNoTag`). Text is held if and only if, white space aside, it is a beginning of a tag
  (`Sanitizer.HeldIffBeginsTag`).
- A bridge call that is rejected, by a timeout or a failing helper, leaves the controller armed with its observation
  pending and no send recorded, although the reply may have gone out (`ManagedSendSafety.RejectionStaysArmed`,
  `ManagedSendSafety.RejectionIsReachable`). The controller alone would let the call be repeated at once
  (`ManagedSendSafety.RepeatedAttemptIff`); its one caller, the managed step at src/serve/server.ts:2405-2456, pauses it
  before another step begins, and under that condition the rate bounds hold of every bridge call
  (`ManagedSendSafety.AttemptsAreSafe`).
- A line longer than the cap whose last kept character and last character are both carriage returns shows one
  character less than the cap (`FsRead.CarriageReturnAtCap`, `FsRead.RowShowsUpToCap`).
- A round that is not substantive but brings new durable evidence can be stopped by the token budget, although
  the comment at src/agent/progress-watchdog.ts:325-327 calls durable state authoritative
  (`WatchdogBound.NewFactCanBeStopped`, `WatchdogBound.IdleProgressStopsIff`).

## Model

| member | source | states |
|---|---|---|
| `FsWrite.StepKeepsInv` | src/fs-write.ts:416-534 | every step of a writer or of another program keeps the protocol invariant: private names, staged texts, claimed and verified entries |
| `FsWrite.RunKeepsInv` | src/fs-write.ts:416-534 | the invariant holds after every run, so after every crash |
| `FsWriteSafety.WriterKeepsReachable` | src/fs-write.ts:277-336 | no step of a conditional or create-if-absent write takes the last name from an entry other than its own staging file or the expected one it replaced |
| `FsWriteSafety.UnverifiedEntrySurvives` | src/fs-write.ts:436-528 | over every run, crashes included, every entry keeps its contents and stays findable unless another program removes it or a writer verified it as the expected one and committed |
| `FsWriteSafety.UnexpectedEntrySurvives` | src/fs-write.ts:436-528 | over every run, an entry no writer expects stays findable with its contents unless another program removes it |
| `FsWriteSafety.TargetNeverReplaced` | src/fs-write.ts:436-528 | a step other than the unconditional rename leaves an existing target in place or moves it to the writer's claim name |
| `FsWriteSafety.TargetIsWhole` | src/fs-write.ts:416-534 | whenever a writer's file is at the target, it holds the complete new text and mode |
| `FsWriteSafety.PublishedContentsFixed` | src/fs-write.ts:416-534 | no step changes the contents behind a published name |
| `FsWriteSafety.CommitPublishes` | src/fs-write.ts:436-534 | the step in which a write commits puts the file it staged, with its complete text and mode, at the target |
| `FsWriteSafety.SuccessIsCommitted` | src/fs-write.ts:436-534 | a write that reports success has committed |
| `FsWriteSafety.AtMostOneCommit` | src/fs-write.ts:416-534 | two conditional writers never both commit over the same inode while other programs put only new files at the target |
| `FsWriteSafety.SoleLinkAtMostOneCommit` | src/fs-write.ts:451-482 | with an expected link count of one, two writers with the same request never both commit, whatever other programs do |
| `FsWriteSafety.HardLinksAdmitTwoCommits` | src/fs-write.ts:451-482 | for every link count of two or more a run exists in which both commit |
| `FsWriteAlone.AloneReplacesExpected` | src/fs-write.ts:451-528 | undisturbed, a conditional write replaces the expected entry and leaves no private name |
| `FsWriteAlone.AloneRestoresUnexpected` | src/fs-write.ts:314-336 | undisturbed, an unexpected entry ends at the target again and the write fails |
| `FsWriteAlone.AloneMissingRefused` | src/fs-write.ts:451-463 | undisturbed, a conditional write whose entry has gone fails and leaves the directory as it was |
| `FsWriteAlone.AloneCreates` | src/fs-write.ts:437-450 | undisturbed, creating a file where there is none ends with the complete file at the target, no private name and nothing else changed |
| `FsWriteAlone.AloneCreateRefused` | src/fs-write.ts:437-450 | undisturbed, creating a file where an entry stands fails and leaves the directory and every file as they were |
| `FsWriteAlone.AloneOverwrites` | src/fs-write.ts:529-534 | undisturbed, an unconditional write ends with the complete new file at the target and nothing else changed |
| `UndoOrder.EnsureDirectoryMakes` | src/fs-write.ts:220-248 | the directories recorded are exactly the missing ones, top down, and nothing else changes |
| `UndoOrder.RemoveCreatedClears` | src/fs-write.ts:250-266 | removal succeeds and removes exactly the recorded directories when nothing else is below them |
| `UndoOrder.RemoveCreatedBlocked` | src/fs-write.ts:250-266 | removal is refused when any other entry is below one of them |
| `UndoOrder.UndoSucceedsIff` | src/undo.ts:55-91 | in any order of undos, one succeeds if and only if no edit still in place wrote below a directory it made, and then leaves exactly the other edits in place |
| `UndoSession.WriteKeepsInPlace` | src/undo.ts:11-23 | a further write carries the account of edits in place over if and only if its path was not edited before |
| `UndoSession.UndoGroupSucceedsIff` | src/undo.ts:93-125 | a group is undone without failure if and only if none of its files lies below a directory made for an earlier one; then exactly the earlier edits remain |
| `UndoRepeat.StackRestoresIff` | src/undo.ts:25-125 | for every sequence of edits, repeated paths included, in any groups: undoing the stack succeeds throughout if and only if no path was edited twice and no group shares a new directory, and then names, directories, texts and modes are those of the start |
| `UndoStack.Push` | src/undo.ts:25-33 | the stack keeps the newest fifty of its groups and the new one, in order; an empty group changes nothing |
| `UndoStack.WriteAllKeepsInPlace` | src/undo.ts:29-33 | a group of writes carries the account over if and only if its paths are distinct and new |
| `UndoStack.Workspace.EditFiles` | src/undo.ts:25-33 | writes and records one group of any writable files; the session stays intact exactly when no path is edited again, and while intact the tree is the base with the dropped and recorded edits in place |
| `UndoStack.Workspace.RecordEdit` | src/undo.ts:29-33 | an empty group is ignored, the oldest of fifty-one is dropped, and its edits stay |
| `UndoStack.Workspace.RemoveCreatedDirectories` | src/fs-write.ts:250-266 | the loop removes newest first, skips missing directories and stops at a changed or occupied one |
| `UndoStack.Workspace.UndoCommitted` | src/undo.ts:55-91 | a path that no longer names the exact file is left alone, otherwise the file is deleted or rewritten |
| `UndoStack.Workspace.UndoLast` | src/undo.ts:93-125 | pops one group and reverts it forwards; in an intact session it reports failures exactly when the group shares a new directory, else restores the earlier account |
| `UndoRepeat.OverwrittenNeverUndone` | src/undo.ts:63-73 | after a path is written again, whatever is written and undone before and after, the undo of its earlier edit is refused and changes nothing |
| `UndoStack.NewDirectoryLeftBehind` | src/undo.ts:99-118 | two files in one new directory: one reverted, one failure, the directory left |
| `UndoRace.StepKeepsInv` | src/undo.ts:39-91 | every step of an undo and of other programs keeps the account of the moved entry |
| `UndoRace.UndoNeverLoses` | src/undo.ts:39-91 | no step of the undo takes the last name from an entry other than the verified one and its staging file |
| `UndoRace.UndoNeverReplaces` | src/undo.ts:39-91 | after the first rename the undo never takes the target from its holder |
| `UndoRace.UndoOutcome` | src/undo.ts:55-91 | over every run a completed undo removed the exact inode, mode and bytes and linked the earlier text and mode at the target; an entry moved aside and not removed, verified or not, was put back or is retained |
| `UndoRace.PlacedIsLinked` | src/undo.ts:79 | the undo notes a file as placed only in the step that links it at a free target |
| `UndoRace.AloneDeletes` | src/undo.ts:74-78 | undisturbed, the exact created file is removed |
| `UndoRace.AloneRewrites` | src/undo.ts:79-80 | undisturbed, the exact file is replaced by the earlier text and mode |
| `UndoRace.AlonePutsBack` | src/undo.ts:63-73 | undisturbed, any other entry ends where it was and the undo is refused |
| `Artifacts.StepKeepsInv` | src/artifacts/store.ts:1169-1306 | every step of racing, crashing commits and reverts keeps the revision graph, its history and the pointer consistent |
| `Artifacts.StepKeepsRevisions` | src/artifacts/store.ts:1169-1194 | no stored revision changes and the history of current revisions only grows |
| `Artifacts.WalkParents` | src/artifacts/store.ts:1421-1434 | the bounded loop over parents |
| `Artifacts.WalkFindsAncestors` | src/artifacts/store.ts:1421-1434 | that walk meets exactly the revision itself and its ancestors: the bound is never too small |
| `ArtifactsSafety.CurrentChainIsHistory` | src/artifacts/store.ts:1042-1140 | from import on, the ancestor chain of the current revision is exactly the sequence of revisions that were ever current |
| `ArtifactsSafety.OneWinnerPerBase` | src/artifacts/store.ts:1196-1306 | two commits from one base never both win |
| `ArtifactsSafety.OrphanStaysOrphan` | src/artifacts/store.ts:1276-1304 | a revision left by a lost race or a crash never becomes current or an ancestor |
| `ArtifactsSafety.RevertAcceptsProperAncestors` | src/artifacts/store.ts:1399-1448 | a revert is accepted if and only if its target is a proper ancestor of the base and the other checks pass |
| `ArtifactsSafety.RevertRestoresTarget` | src/artifacts/store.ts:1399-1448 | a revert that wins adds a revision with the target's bytes and digest on the old current one |
| `ArtifactsAlone.AloneCommits` | src/artifacts/store.ts:1196-1306 | undisturbed, an admissible commit on the current revision wins: one new revision with its content on top of the base becomes current, with the title asked for, and nothing else changes |
| `ArtifactsAlone.AloneReverts` | src/artifacts/store.ts:1399-1448 | undisturbed, a revert to a proper ancestor of the current revision wins with the ancestor's content |
| `ArtifactsAlone.AloneRefused` | src/artifacts/store.ts:1196-1306 | any other undisturbed commit is refused for its reason and changes nothing |
| `ArtifactsLimit.LimitCanBeExceeded` | src/artifacts/store.ts:1228-1276 | a race reaches one revision more than the limit |
| `ArtifactsLimit.SerialCommitsKeepLimit` | src/artifacts/store.ts:1228-1276 | no run exceeds the limit while at most one process is between its check and its activation |
| `ArtifactsLimit.LimitExceededIff` | src/artifacts/store.ts:1228-1276 | activations alone exceed the limit if and only if stored revisions and checked processes together do |
| `ArtifactsLimit.NoRevertBeyondLimit` | src/artifacts/store.ts:2107-2111 | beyond the limit every revert is refused |
| `MailOutbox.StepKeepsInv` | src/mail.ts:381-408 | claims, journals, sends, crashes and restarts keep one token per message |
| `MailOutbox.AtMostOneAttempt` | src/mail.ts:381-408 | over every run of any number of hosts the provider is asked to send a message at most once |
| `MailOutbox.SentReceiptMeansAccepted` | src/mail.ts:381-408 | a receipt says sent only if that one attempt was accepted |
| `MailOutbox.UndisturbedSends` | src/mail.ts:381-408 | undisturbed, a queued message is sent once and receipted |
| `MailIntake.StepKeepsInv` | src/mail.ts:299-367 | every step but a harmful rebind keeps what the synchronisation will move past stored, and queued or the message of a submission, or leaves a check that stops it |
| `MailIntake.RebindLosesIff` | src/mail.ts:226-235 | in every state of the invariant some continuation of a rebind's write breaks the promise if and only if a message at stake is missing from the written queue and no revision check is left |
| `MailIntake.CursorPassesOnlyStoredMail` | src/mail.ts:341-367 | over every run without a harmful rebind the record's cursor is past a message only if it is stored and is queued or the message of a submission; the inbox calls submitted only what was submitted, the queue never exceeds 1000, and every message ever moved past is still stored |
| `MailIntake.SubmissionsNameStoredMail` | src/mail.ts:307-318 | every submission of a run is of a stored message and carries its key; two carry the same key if and only if they are of one message |
| `MailIntake.StaleRebindLosesMail` | src/mail.ts:226-235 | from the start a run reaches a rebind's write that loses a queued message |
| `MailSync.SyncDelivers` | src/mail.ts:307-367 | undisturbed, from any queue and with any page of at most fifty messages (the source asks for 20), a synchronisation submits the first fifty queued messages in order, stores the page, queues what of it is new, submits the first fifty of that queue, and moves the cursor past a page of which every message is stored and queued or submitted |
| `Sanitizer.TagPrefixCouldBecome` | src/agent/assistant-text.ts:4-7 | every proper beginning of a boundary tag is recognised as one that could become a tag |
| `Sanitizer.TagIffSpelled` | src/agent/assistant-text.ts:1 | a text is a tag if and only if it is a bracket, an optional slash, `think` or `thinking` in any case and a bracket, with white space allowed around slash and name; the slash tells which close |
| `Sanitizer.HeldIffBeginsTag` | src/agent/assistant-text.ts:2-7 | text from a bracket on is held back if and only if, white space aside, some continuation makes it a tag |
| `Sanitizer.HeldThoughNoTag` | src/agent/assistant-text.ts:4-7 | a text that no tag begins with is held and then dropped |
| `Sanitizer.ScanSplit` | src/agent/assistant-text.ts:50-95 | scanning a text equals scanning a part and then its held tail with the rest |
| `Sanitizer.ChunkingIrrelevant` | src/agent/assistant-text.ts:23-95 | the outputs and final state of any pushes equal those of one push |
| `Sanitizer.FinishIrrelevant` | src/agent/assistant-text.ts:23-31 | the same with the final flush |
| `Sanitizer.AssistantTextSanitizer.Push` | src/agent/assistant-text.ts:23-27 | a push emits what the scan of tail and chunk emits, and keeps its tail and mode |
| `Sanitizer.AssistantTextSanitizer.Finish` | src/agent/assistant-text.ts:29-31 | a finish emits the final scan and leaves nothing pending |
| `Sanitizer.AssistantTextSanitizer.Drain` | src/agent/assistant-text.ts:50-95 | the loop equals the scan |
| `Sanitizer.SanitizeChunks` | src/agent/assistant-text.ts:23-35 | pushing any chunks and finishing returns the sanitized whole text |
| `Sanitizer.SanitizeAssistantText` | src/agent/assistant-text.ts:98-101 | the one-shot form returns the final scan of the text |
| `SanitizerSpec.SanitizedIsShown` | src/agent/assistant-text.ts:37-101 | the output is the input minus exactly the boundary tags, the characters inside them and a trailing tag prefix, for any admissible reading of the input as tokens |
| `SanitizerSpec.LexIsAdmissible` | src/agent/assistant-text.ts:50-95 | every input has an admissible reading |
| `FsRead.StreamFileSlice` | src/fs-read.ts:524-694 | for every sequence of read sizes the slice is the requested window of the lines, or of the scanned prefix if and only if the file goes on past the scan limit and nothing before the limit lies beyond the window |
| `FsRead.ReadLoop` | src/fs-read.ts:630-661 | the loop consumes the file in order, stopping at the end, at the scan limit or past the window |
| `FsRead.LineSlicer.Consume` | src/fs-read.ts:613-629 | a chunk advances the window's account of the text seen |
| `FsRead.RowAddsUp` | src/fs-read.ts:571-593 | shown plus omitted characters are the line without its carriage return |
| `FsRead.RowShowsUpToCap` | src/fs-read.ts:564-586 | a row shows the cap's worth of the line except exactly when a carriage return falls at the cap |
| `FsRead.CarriageReturnAtCap` | src/fs-read.ts:564-586 | a line for which it shows one less |
| `FsRead.PagesVisitEveryLine` | src/fs-read.ts:678-694 | slices that each start at the offset the one before suggests render every line once, in order |
| `FsRead.FollowingEnds` | src/fs-read.ts:678-694 | following the suggested offsets reaches the end in at most as many reads as lines are left |
| `FsRead.ShowsWhatWasAsked` | src/fs-read.ts:530-545 | a slice shows as many lines as asked for, 2,000 at most, from the offset on, fewer only at the end of the file; each row has its line's number and shows a beginning of it within the cap asked for |
| `FsRead.ScannedWithinLimit` | src/fs-read.ts:530-545 | a slice ended by the scan limit shows no more lines than asked for |
| `ContextBudget.HistoryChars` | src/agent/context-budget.ts:46-58 | the measured size of a history |
| `ContextBudget.Clip` | src/agent/context-budget.ts:82-91 | a clipped text fits its cap, and a fitting one is unchanged |
| `ContextBudget.BoundToolUses` | src/agent/context-budget.ts:109-114 | bounding keeps every call's id, name and place |
| `ContextBudget.FindSuffix` | src/agent/context-budget.ts:203-213 | the loop finds the longest user-boundary suffix that fits with the note, or shows that none does |
| `ContextBudget.FallbackFits` | src/agent/context-budget.ts:214-217 | the single-message fallback fits the budget |
| `ContextBudget.PrepareHistoryForModel` | src/agent/context-budget.ts:122-222 | the prepared snapshot never exceeds the computed budget and is the reduced history, its longest fitting suffix or the fallback; a history that fits and whose texts, inputs and images are within their caps is sent unchanged and reported so |
| `ContextBudget.PreparedKeepsPairing` | src/agent/context-budget.ts:122-222 | tool results still follow the call with the same ids, and every call is still answered |
| `ContextBudgetPrepared.PreparedShowsTexts` | src/agent/context-budget.ts:122-222 | what is sent shows a snapshot, made with the fewest reductions that fit, in which every text is whole if within its cap for that many reductions and otherwise within two characters of the cap, each piece missing replaced by a notice; each message keeps its ids, names and continuation, and its images or a note on them |
| `ContextBudgetPrepared.NewestUserIsWhole` | src/agent/context-budget.ts:142-222 | a newest user message of at most 24,000 characters reaches the model whole with its images, or in the fallback behind the guard note |
| `ContextBudgetPrepared.NewestRoundIsWhole` | src/agent/context-budget.ts:132-138 | when no user message follows it, the newest tool round reaches the model with every result within its share of a quarter of the budget whole, unless the fallback is sent |
| `ContextBudgetPrepared.ApartIff` | src/agent/context-budget.ts:132-198 | for which names and shares every cut of a tool result leaves one notice only |
| `ContextBudgetPrepared.NoticesCanMeet` | src/agent/context-budget.ts:132-198 | a newest result of 30,000 plain characters with a share of 23,999 keeps parts of two notices |
| `ContextBudgetKept.InputAgain` | src/agent/context-budget.ts:93-107 | bounding a tool input again keeps its shape, the texts in it as texts are kept, and the notes, whose counts then count the earlier note |
| `ContextBudgetTexts.ClipAgain` | src/agent/context-budget.ts:82-91 | a text clipped any number of times to caps that do not rise is whole if within the last cap, and otherwise within two characters of it and reached by that many cuts that each put a notice in place of one piece |
| `ContextBudgetTexts.OneClipAgain` | src/agent/context-budget.ts:82-91 | a later clip that leaves less room takes the earlier notice away: what is left is a beginning, one notice and an end of the original, in the proportion three to two |
| `ContextBudgetTexts.SecondNoticeIff` | src/agent/context-budget.ts:82-91 | a second cut of a plain text leaves one notice if and only if it leaves no more room than the first |
| `ContextBudgetClip.ClipTrades` | src/agent/context-budget.ts:70-91 | clipping any text trades the rendering of what is dropped for that of the marker |
| `ContextBudgetNotice.BoundGain` | src/agent/context-budget.ts:93-107 | bounding any value changes the length of its rendering by exactly its gain |
| `ContextBudgetNotice.AssistantChangeNoticed` | src/agent/context-budget.ts:156-160 | in any history the first pass reports an assistant message if and only if its text is over 24,000 characters or the gains of all its tool inputs do not sum to zero |
| `ContextBudgetNotice.TwoClipsCancel` | src/agent/context-budget.ts:156-160 | one message with plain inputs of 12,001 and 12,003 characters is clipped and not reported |
| `ContextBudgetNotice.InputClipNoticed` | src/agent/context-budget.ts:156-160 | a lone text input is clipped if and only if longer than 12,000 characters, and noticed if and only if moreover the dropped text and the marker differ in rendered length |
| `ContextBudgetNotice.PlainClipNoticed` | src/agent/context-budget.ts:156-160 | for a lone input of plain characters the one unnoticed length is 12,002 |
| `Diff.CommonAtMostLcs` | src/diff.ts:15-20 | no common subsequence is longer than the table's value |
| `Diff.KeepingLcsIsOptimal` | src/diff.ts:21-40 | a script that keeps that many lines has the fewest changes of all valid scripts |
| `Diff.LcsDiff` | src/diff.ts:12-40 | kept and deleted lines spell the old text, kept and added the new, and the kept lines are a longest common subsequence |
| `Watchdog.CompareFingerprints` | src/agent/progress-watchdog.ts:163-180 | the loop over the smaller shingle set computes the overlap ratio |
| `Watchdog.SimilarityIsSymmetric` | src/agent/progress-watchdog.ts:163-180 | similarity does not depend on the order of its arguments |
| `Watchdog.AgentProgressWatchdog.RecordRound` | src/agent/progress-watchdog.ts:246-387 | one round moves the ledger and gives the verdict of the specification |
| `WatchdogVerdict.AlikeIff` | src/agent/progress-watchdog.ts:163-180 | two fingerprints are similar if and only if they are identical, or long, of one metric, and share four fifths of their shingles |
| `WatchdogVerdict.VerdictIs` | src/agent/progress-watchdog.ts:246-387 | on every round of every run with at most 128 different calls between durable evidence, the stop and the warning are exactly those called for by the repetitions, the unchanged rounds, the rounds without progress and the tokens counted in the rounds themselves |
| `WatchdogVerdict.FourRepeatsStop` | src/agent/progress-watchdog.ts:282-345 | a call observed four times, each within eight substantive rounds of the last and similar to it, with no durable evidence between, stops the run |
| `WatchdogVerdict.SixUnchangedRoundsStop` | src/agent/progress-watchdog.ts:282-346 | six substantive rounds in a row that show only what was seen before stop the run, attended or not |
| `WatchdogVerdict.RepetitionIsNamed` | src/agent/progress-watchdog.ts:282-320 | the verdict reports the highest count of the round and the tool that reached it first |
| `WatchdogBound.UnattendedRunIsBounded` | src/agent/progress-watchdog.ts:246-358 | an unattended run without intervention or stop has at most 7 + 8K substantive rounds for K new items of durable evidence |
| `WatchdogBound.BoundIsReached` | src/agent/progress-watchdog.ts:246-358 | for every K some run has exactly that many |
| `WatchdogBound.SubstantiveProgressNeverStops` | src/agent/progress-watchdog.ts:325-358 | a substantive round with new durable evidence is never stopped |
| `WatchdogBound.IdleProgressStopsIff` | src/agent/progress-watchdog.ts:274-280 | exactly when a round with new evidence that is not substantive is stopped |
| `WatchdogBound.NewFactCanBeStopped` | src/agent/progress-watchdog.ts:339-358 | three rounds of which the last brings a new fact and is stopped |
| `WatchdogBound.RepeatedStopIsEarned` | src/agent/progress-watchdog.ts:282-345 | a stop for repetition means that one call was observed at least four times since the last durable evidence |
| `RepeatGuard.RecordFailures` | src/agent/repeat-guard.ts:341-367 | the clearing, counting and evicting loops compute the specified ledger and counts |
| `RepeatGuard.FirstStop` | src/agent/repeat-guard.ts:481-486 | a verdict exists if and only if an identity is at its limit, and names the first such |
| `RepeatGuard.RunRepeatGuard.RecordCall` | src/agent/repeat-guard.ts:473-489 | one call moves the scope's and the run's ledgers and gives the run's verdict |
| `RepeatGuardLedger.LedgerAtMostTally` | src/agent/repeat-guard.ts:343-367 | a recorded count never exceeds the failures since the last clearing success |
| `RepeatGuardLedger.LedgerIsTally` | src/agent/repeat-guard.ts:343-367 | with never more than 64 live identities the two are equal |
| `RepeatGuardLedger.StopIsSound` | src/agent/repeat-guard.ts:473-489 | a stop is never premature |
| `RepeatGuardLedger.StopIff` | src/agent/repeat-guard.ts:473-489 | with at most 64 live identities a stop is given if and only if some identity of the call reached its limit, and it names the first with its true count |
| `RepeatGuardRecency.LedgerByRecency` | src/agent/repeat-guard.ts:355-360 | the ledger is ordered by last failure |
| `RepeatGuardRecency.EvictsLeastRecent` | src/agent/repeat-guard.ts:361-365 | what is evicted failed less recently than everything kept |
| `RepeatGuardRecency.JustCountedStays` | src/agent/repeat-guard.ts:355-365 | no call evicts an identity it counts |
| `RepeatGuardRecency.AccessCountsSurvive` | src/agent/repeat-guard.ts:344-353 | the true count of an access boundary is the number of its failures in the whole run, whatever succeeds, and the ledger holds that count while at most 64 identities are live |
| `ManagedSend.GroupSceneController.ManagedClaim` | src/wechat-group-scene.ts:812-866 | a claim moves the controller as specified and gives the specified answer |
| `ManagedSend.GroupSceneController.SendManaged` | src/wechat-group-scene.ts:958-1003 | a send moves the controller as specified when the bridge delivers, declines or is rejected |
| `ManagedSend.GroupSceneController.Pause` | src/wechat-group-scene.ts:868-882 | pausing disarms and drops the pending observation |
| `ManagedSend.GroupSceneController.RememberDigest` | src/wechat-group-scene.ts:884-889 | at most the newest 128 observations are remembered |
| `ManagedSend.GroupSceneController.Start` | src/wechat-group-scene.ts:706-761 | attaching resets the managed state and takes the visible observation as baseline |
| `ManagedSendSafety.AttachingBegins` | src/wechat-group-scene.ts:706-761 | a start that arms begins an attachment with no sends and only the baseline handled |
| `ManagedSendSafety.StepKeepsInv` | src/wechat-group-scene.ts:812-1003 | every call keeps the spacing, window and handled-observation invariant |
| `ManagedSendSafety.AttachmentIsSafe` | src/wechat-group-scene.ts:812-1003 | over every run of one attachment: at most six verified replies in any ten minutes, ten seconds apart, never to the baseline, and one observation is answered again only after more than 128 others were remembered |
| `ManagedSendSafety.AttemptsAreSafe` | src/serve/server.ts:2405-2456 | over every run in which a rejected call is followed by a pause before the next claim or send, as its caller ensures, the window and spacing hold of every bridge call, at whatever moment it may have delivered |
| `ManagedSendSafety.RejectionIsReachable` | src/wechat-group-scene.ts:958-982 | from the beginning of an attachment a run reaches a rejected bridge call |
| `ManagedSendSafety.RejectionStaysArmed` | src/wechat-group-scene.ts:975-982 | the controller alone does not disarm: a rejected bridge call leaves it armed, the observation pending and no send recorded |
| `ManagedSendSafety.RepeatedAttemptIff` | src/wechat-group-scene.ts:967-982 | for the controller alone, without the pause of its caller: while its records live, a bridge call can be repeated at once if and only if it was rejected, and that breaks the spacing |
| `ManagedSendSafety.NothingAfterPause` | src/wechat-group-scene.ts:868-882 | once disarmed, nothing is sent for the rest of the attachment |
| `ManagedSendSafety.TroubleDisarms` | src/wechat-group-scene.ts:853-990 | a pause, the rate limit, a changed observation and a delivery the bridge declines all disarm |
| `ManagedSendEligible.AnsweredWasEligible` | src/wechat-group-scene.ts:812-1003 | over every run of an attachment, every answered observation was claimed while live, is of the bound conversation with an incoming newest message, mentions the Agent if the claim asked for it, and was observed in the run or stored before it |
| `ManagedSendEligible.ClaimActionIff` | src/wechat-group-scene.ts:812-866 | a claim answers reply, rate-limited or ignore exactly when the observation is eligible and unhandled and, respectively, mentioned and within the rate, mentioned and beyond it, or not mentioned |
| `ManagedSendEligible.SendAnswersIff` | src/wechat-group-scene.ts:958-1003 | a send answers exactly when it reaches the bridge and is delivered, and it answers the pending observation |
| `ManagedSendEligible.AttachingArmsIff` | src/wechat-group-scene.ts:706-761 | attaching arms exactly when managed mode is on and the preflight succeeds, and a failed preflight detaches |
| `MapLimit.MapLimitIsSafe` | src/concurrency.ts:11-23 | in every interleaving at most max(1, limit) calls are in flight, every index starts once and in order, and a run without failures has the function of each item at its place |
| `MapLimit.EveryScheduleEnds` | src/concurrency.ts:11-23 | every schedule has at most 2n plus the number of workers steps and can stop only when every worker has ended |
| `MapLimit.Shared.TakeNext` | src/concurrency.ts:14-17 | taking an index from the shared counter |
| `MapLimit.Shared.Store` | src/concurrency.ts:18 | storing a result in the shared array |

## Left out

- Update in place by interleaved processes: `FsWrite`, `UndoRace`, `Artifacts`, `MailOutbox` and `MailIntake` are state machines on values, because their steps interleave with those of other processes; directory, inodes, journals and records are maps.
- File descriptors, fsync, permissions, symbolic links, directories at the target, parent-directory identity and Windows rules of the file protocols; writes through an already open descriptor and changes of mode by other programs.
- Reuse of inode numbers: an inode number names one file for ever, which `FsWriteSafety.AtMostOneCommit`, `FsWriteSafety.SoleLinkAtMostOneCommit`, `UndoRepeat.OverwrittenNeverUndone` and the exact-inode checks of the undo rest on.
- The undo of legacy snapshots, deletions and symbolic links, and the modes of created directories.
- UndoStack.Workspace.EditFiles: a write that fails because a file stands where a directory is needed, or the reverse, is not modelled, because it records nothing.
- UndoRace.UndoOutcome: does not include the removal of created directories, which follows the deletion and is modelled without interference in `UndoOrder`.
- The artifact store's file layout, format normalisers and record checkers; private-state writes are atomic compare-and-swaps, ids are fresh numbers, digests injective.
- Mail authorization, binding, account files, provider command lines, timestamps and the retry schedule; the server is assumed to mark repeated claim keys.
- UTF-8 decoding, binary detection and rendering of the line reader; it works on characters.
- Unicode case and white space in the sanitizer, which uses the ASCII ones.
- The count of omitted images and the not-a-number budgets of the context snapshot.
- The rendering of diffs and its fallback for long texts.
- WatchdogVerdict.VerdictIs: says nothing of runs with more than 128 different calls between durable evidence, where the watchdog forgets the calls made longest ago; so neither do the lemmas that rest on it.
- ContextBudgetTexts.OneClipAgain: the single notice is stated for texts shorter than 10^16 characters, more than any string of the source language holds; the cuts themselves for all.
- How fingerprints, shingles, evidence digests and failure identities are computed from text, the warning prose, and the rounding of the reported similarity.
- RepeatGuard.RunRepeatGuard.RecordCall: each guard has its own copy of the scope's warning ledger, because sharing between guards changes only the warnings.
- Sends that overlap another claim, the audit log, the status report, the OCR bridge and settings files of the group scene.
- MapLimit.MapLimitIsSafe: a limit that is not an integer is not modelled.
- Configuration, provider catalogues, the desk client, sandbox and shell launching, the installer, vision, clipboard, prompts and Git checkpoints: I/O, tables or wording.
