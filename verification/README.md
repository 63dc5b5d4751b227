# Transcript compiler and desk protocols, verified

A Dafny model of how a run's event log becomes a chat transcript, and of the smaller algorithms around it.

An agent run appends events to a log. The log is cut by rewinds, put back into the order the worker emitted it, and
folded into chat bubbles: messages with text blocks and tool records that the message's `tools` and `blocks` share.
Clients page backwards through the result, resume from a page they already hold, and coalesce live deltas. `Reducer`
gives the meaning of one event on values; `TranscriptHeap` and `TranscriptResume` are the same code on mutable objects,
proved to refine it; the theorems about whole logs are stated on the values and carry over.

| file | about |
|---|---|
| `Prelude`, `Picking`, `Events` | optional values, whitespace, filtered sequences, run events |
| `Reducer`, `SubagentSteps` | one event on a transcript, nested subagent steps |
| `TranscriptInvariants`, `TranscriptSafety`, `TranscriptIds` | what every event keeps, over whole runs |
| `TurnSteps`, `EventEffects`, `ToolEffects`, `NestedEffects` | what each kind of event makes of a transcript, said without the reducer |
| `NewestTurn`, `ToolRecords`, `CallShows` | where the cursor stands; which calls are on record, and what they show |
| `Rewind`, `EventOrder`, `Snapshot` | the rewind fold, the emission order, compiling a log |
| `Paging`, `Resume`, `LiveChain` | pages, resuming once and batch after batch |
| `ClientStream`, `CoalesceMeaning`, `LiveRows`, `LiveOrder`, `LiveMeaning` | coalescing live deltas, and what fold and sort make of the coalesced list |
| `TranscriptHeap`, `TranscriptResume` | the reducer and the clone on objects |
| `Framing`, `Sse`, `McpStdio`, `McpOutcomes`, `McpClient` | stream framers, and the requests behind one of them |
| `ContextBar`, `ContextUsage`, `ContextSnapshot` | width and token apportionment |
| `GitPatch`, `PatchText`, `HunkTruth`, `HunkFold`, `PatchCap` | hunk numbering, the text of a patch, true numbers, folding, byte capping |
| `Calendar`, `Automation` | next-run arithmetic |
| `Admission`, `Desk`, `DeskEffects`, `DeskHost` | the desk's slots, as steps between awaits |

`dafny verify dfyconfig.toml` checks everything.

Where a property is false of the code, the code is kept, the failing input is a lemma, and the exact condition is
proved:

- Resuming equals replaying exactly where the live cursor is the one the page gives away: the last bubble if it streams
  or has a tool running (`Resume.ResumeIsExact`); in the middle of a turn it can differ (`Resume.ResumeMidTurnDiffers`).
- Working a stream in batch by batch works in the events that compiling works in exactly if each batch sorts behind and
  rewinds nothing of what came before it (`LiveChain.WorkedInIff`, `Resume.ProcessedConcatIff`), and follows the live
  state exactly if the cursors agree after each batch (`LiveChain.FollowThroughoutIff`); a rewind in a later batch than
  its text comes too late (`LiveChain.LateRewindKeepsText`).
- Deltas do not always land in the newest turn (`TranscriptSafety.LateToolReopensOldTurn`): the cursor leaves it exactly
  at a tool event whose bubble has a user message behind it (`NewestTurn.CurrentStep`, `NewestTurn.DeltaLandsIff`).
- The sort comparator can cycle (`EventOrder.ComparatorCanCycle`). It is transitive exactly if no event of a third
  process falls between two events of one process that its clock has the wrong way round (`EventOrder.TransitiveIff`);
  with agreeing clocks the sort is the stable sort by time.
- A client works in the events of the stream in their order from its coalesced list exactly if no rewind takes back part
  of a merged entry and the comparator parts none (`LiveMeaning.ListStandsForStream`), and then shows what the stream
  shows (`LiveMeaning.LiveListShowsStream`); otherwise text can be lost
  (`LiveMeaning.RewindInsideRowLosesText`) or moved (`LiveMeaning.ToolBetweenDeltasMoves`).
- Line numbers of a patch are the true ones exactly if no changed line reads like a file header
  (`HunkTruth.ParsedIsTruthIff`, `HunkTruth.SkippedRemovalShiftsNumbers`); a line break at its end adds a blank line
  (`HunkTruth.TrailingBreakAddsLine`).
- A copied message has blocks and tools in step exactly if the blocks name the tools in order and these have distinct
  non-empty ids (`TranscriptResume.CloneTranscriptMessage`), which compiled logs guarantee, also once they were sent
  (`TranscriptResume.SendThenResume`).
- A started call keeps a record under its own id exactly if no other call takes it over
  (`ToolRecords.RecordsKeptIff`); a second start of a running tool does (`ToolRecords.SecondStartTakesOver`).
- Replayed deltas are dropped only while their id is still listed (`ClientStream.DroppedExactlyWhenListed`,
  `ClientStream.MergedReplayRepeats`).
- Buckets sum to a report exactly if the parked bucket can take the drift, which is sure from 63 tokens on and can fail
  at 62 (`ContextUsage.ReportedSumIsExact`, `ContextUsage.ReportedSumCanExceed`).
- The next run is the least one exactly if the year on the UTC+8 wall is not 0 to 99, which `Date.UTC` takes for 1900
  to 1999 (`Automation.NextRunIsLeast`).
- A machine can stay awake without a run: it comes to that exactly when a cancel, quitting, a reap or a failed start
  takes the last slots while the blocker is held, or a start fails that took it (`Desk.StrandsIff`,
  `Desk.FailedSpawnStaysAwake`).
- A spawn can overfill the desk exactly if its run lost the slot while it was preparing (`Desk.OverLimitIff`,
  `Desk.CancelDuringSpawnOverfills`).

## Model

| member | source | states |
|---|---|---|
| `Rewind.FoldIsRemembered` | packages/contracts/src/transcript.ts:81-107 | the two passes of the fold keep exactly the events that are no rewind and that no later rewind of the same reply takes back |
| `Rewind.FoldConcat` | packages/contracts/src/transcript.ts:81-107 | folding xs followed by ys is the fold of xs, less what the rewinds of ys take back, followed by the fold of ys |
| `Rewind.FoldIsOnline` | packages/contracts/src/transcript.ts:81-107 | the fold equals a reader that sees one event at a time and truncates its log at every rewind |
| `Rewind.FoldIsIdempotent` | packages/contracts/src/transcript.ts:81-107 | a folded log folds to itself |
| `EventOrder.SortRearranges` | packages/contracts/src/transcript.ts:109-128 | sorting loses no event and invents none |
| `EventOrder.SortArranges` | packages/contracts/src/transcript.ts:109-128 | where the comparator is transitive, every event stands before all that the comparator puts behind it |
| `EventOrder.SortIsTheArrangement` | packages/contracts/src/transcript.ts:109-128 | where the comparator is transitive, any permutation arranged by it is the sorted log: the result does not depend on the sorting algorithm |
| `EventOrder.SortConcat` | packages/contracts/src/transcript.ts:109-128 | a log whose tail follows its head sorts piece by piece |
| `EventOrder.AnySortConcat` | packages/contracts/src/transcript.ts:109-128 | and so it does under any correct sort, where the comparator is transitive on both logs together |
| `EventOrder.ArrivalOrderIrrelevant` | packages/contracts/src/transcript.ts:109-128 | events that the comparator orders completely sort the same from any arrival order |
| `EventOrder.OneProcessIsFullyOrdered` | packages/contracts/src/transcript.ts:65-78 | distinct sequence numbers of one worker epoch order a log completely |
| `EventOrder.SortIsStableByTime` | packages/contracts/src/transcript.ts:109-128 | with several epochs, when a smaller sequence number implies an earlier time, the comparator is transitive and the sort is the stable sort by time |
| `EventOrder.ComparatorCanCycle` | packages/contracts/src/transcript.ts:113-126 | three events can precede one another in a circle, whatever their positions in the log |
| `EventOrder.TransitiveIff` | packages/contracts/src/transcript.ts:113-126 | the comparator is transitive on a log if and only if nothing of a third process falls, by time, between two events of one process that time puts the other way round than their numbers |
| `EventOrder.OneProcessIsTransitive` | packages/contracts/src/transcript.ts:113-126 | so it is on the log of one worker epoch, however wrong its clock |
| `TranscriptSafety.StepGains` | packages/contracts/src/transcript.ts:602-704 | each event keeps the shape of every message, one bubble a turn and no repeated follow-up, adds exactly its own reply characters, and adds one tool record only if no bubble has the tool yet |
| `TranscriptSafety.RunGains` | packages/contracts/src/transcript.ts:602-704 | over any run the reply characters are those of the deltas, and there are as many tool records as were opened |
| `ToolRecords.StepRecords` | packages/contracts/src/transcript.ts:130-148 | a tool event adds a record under its own id where no bubble has its tool; one of an unknown id whose name is found running takes that record over instead, and nothing else changes the ids on record |
| `ToolRecords.RecordsKeptIff` | packages/contracts/src/transcript.ts:602-704 | throughout a run each call on record keeps a record under its own id if and only if no event of another id takes the last one over |
| `ToolRecords.StartedCallsOnRecord` | packages/contracts/src/transcript.ts:602-704 | then every call that had a tool event is on record at the end |
| `ToolRecords.SecondStartTakesOver` | packages/contracts/src/transcript.ts:136-148 | two calls of one tool that both start before either ends leave one record, under the second id |
| `TranscriptSafety.LateToolReopensOldTurn` | packages/contracts/src/transcript.ts:534-550 | a delta need not land in the newest turn: after a late event of a tool it lands in the turn that has the tool |
| `NewestTurn.DeltaLandsIff` | packages/contracts/src/transcript.ts:634-639 | a delta lands in the newest turn if and only if the cursor was unset or there before |
| `NewestTurn.CurrentStep` | packages/contracts/src/transcript.ts:602-704 | an event takes the cursor out of the newest turn if and only if it is a tool event, nested or not, whose bubble has a user message behind it |
| `NewestTurn.CurrentThroughout` | packages/contracts/src/transcript.ts:602-704 | a run keeps the cursor in the newest turn throughout if and only if none of its events is of that kind |
| `NewestTurn.DeltasLandIff` | packages/contracts/src/transcript.ts:437-458 | all reply text of a run lands in the newest turn if and only if the cursor is there at each delta |
| `NewestTurn.LogStaysInNewestTurn` | packages/contracts/src/transcript.ts:719-725 | both for every log from its first event on |
| `TranscriptInvariants.AppendTextShape` | packages/contracts/src/transcript.ts:176-188 | after a delta the text blocks still spell the text, none is empty and no two are neighbours |
| `TranscriptInvariants.UpsertToolShape` | packages/contracts/src/transcript.ts:130-170 | after a tool event the tool ids are still distinct and the tool blocks still stand for the tools one to one |
| `TranscriptInvariants.OneBubbleMeaning` | packages/contracts/src/transcript.ts:424-458 | the invariant kept by every event means that a user message lies between any two reply bubbles |
| `TranscriptInvariants.BlankHasNoInk` | packages/contracts/src/transcript.ts:190-192 | a text is blank exactly if it holds no character that counts, so dropping blank bubbles loses none |
| `TranscriptSafety.UserTurnGains` | packages/contracts/src/transcript.ts:565-600 | a user turn keeps the transcript good, and its reply characters and number of tools as they are |
| `TurnSteps.UserMessageIsShown` | packages/contracts/src/transcript.ts:565-600 | a new user message ends the reply in progress, which is finished where it stands or gone if it shows nothing, and comes last with every field the event brings |
| `TurnSteps.UserMessageAgain` | packages/contracts/src/transcript.ts:571-583 | one delivered again updates the first message of its follow-up where it stands: what the event brings is taken over, the rest kept, and nothing else changes |
| `EventEffects.AgentStarts` | packages/contracts/src/transcript.ts:615-625 | an agent that starts makes the bubble at work stream, touches and opens it, and opens none of its own |
| `EventEffects.MessageStarts` | packages/contracts/src/transcript.ts:628-633 | a round makes the bubble at work stream, or a new one that holds nothing else |
| `EventEffects.DeltaShows` | packages/contracts/src/transcript.ts:634-639 | a delta stands behind all text of the bubble at work, in its last block if that is text and in a new one else |
| `EventEffects.MessageEnds` | packages/contracts/src/transcript.ts:640-646 | the open bubble stops streaming, is touched and stays open; without one nothing changes |
| `EventEffects.AgentEnds` | packages/contracts/src/transcript.ts:647-664 | no tool of any bubble is left running; the bubble at work stays open and streams if it shows something, and goes if it was open and shows nothing |
| `EventEffects.RunIdles` | packages/contracts/src/transcript.ts:460-473 | what shows something stays in order, finished, and is touched exactly if it was still at work |
| `EventEffects.RunFails` | packages/contracts/src/transcript.ts:692-700 | so it is when a run fails, and the failure's card comes last unless the last message on show already tells of one |
| `EventEffects.SetupShows` | packages/contracts/src/transcript.ts:701-703 | a setup event adds its card, with every field it brings, and leaves the open bubble open |
| `EventEffects.NothingShows` | packages/contracts/src/transcript.ts:602-614 | rewinds, follow-ups without text or id, and unknown kinds change nothing |
| `ToolEffects.ToolEventRewrites` | packages/contracts/src/transcript.ts:130-170 | an event about a record, found by key or by the name of one that runs, is written into it in the newest bubble that has it: name, arguments and output it brings, done if it was or the call ends, the error flag at the end only, details field by field; that bubble is open then, and nothing else changes |
| `ToolEffects.ToolEventAdds` | packages/contracts/src/transcript.ts:130-148 | an event about no record adds one, behind all others and all text, to the bubble at work or a new one |
| `CallShows.CallShowsLast` | packages/contracts/src/transcript.ts:130-170 | over any run, a call that is never taken over has one record once an event of it came, and that shows the last name, arguments and output its events brought |
| `NestedEffects.NestedEventRecords` | packages/contracts/src/transcript.ts:475-532 | an event of a nested subagent is recorded in the newest subagent call that runs, or the newest of all; its step is rewritten or added, past forty finished steps go first and oldest first, and nothing else changes |
| `NestedEffects.NestedEventPassed` | packages/contracts/src/transcript.ts:669-675 | without any subagent call it is passed over |
| `NestedEffects.StepShowsLastOutput` | packages/contracts/src/transcript.ts:499-532 | a step that stays on record shows the last output its events brought |
| `TranscriptSafety.SettleGains` | packages/contracts/src/transcript.ts:460-473 | settling keeps the transcript good and loses no text and no tool |
| `TurnSteps.SettlingKeepsWhatShows` | packages/contracts/src/transcript.ts:460-473 | settling drops exactly the reply bubbles that show nothing, keeps all other messages in their order, leaves no bubble streaming and no tool running, and touches exactly the bubbles that were at work |
| `TranscriptSafety.NestedGains` | packages/contracts/src/transcript.ts:475-532 | a step of a nested subagent changes no transcript shape, no text and no number of tools |
| `SubagentSteps.StepsAreCounted` | packages/contracts/src/transcript.ts:499-532 | every step is on record or counted as omitted, and at most the limit is on record |
| `SubagentSteps.EvictionSparesRunning` | packages/contracts/src/transcript.ts:526-530 | past the limit the newest running steps stay on record, all of them if they fit |
| `SubagentSteps.RefreshKeepsSteps` | packages/contracts/src/transcript.ts:150-163 | a later event of the parent tool keeps the steps on record |
| `SubagentSteps.RefreshKeepsTasks` | packages/contracts/src/subagent.ts:70-90 | known tasks are kept unless the arguments parse to a request |
| `TranscriptIds.StepIds` | packages/contracts/src/transcript.ts:602-704 | each event uses at most its own id for a message, so message ids stay distinct |
| `TranscriptIds.RunIds` | packages/contracts/src/transcript.ts:602-704 | over a log of distinct event ids all message ids are distinct event ids |
| `TranscriptIds.RunNamed` | packages/contracts/src/transcript.ts:57-63 | every tool record has a non-empty id when every event has one |
| `Snapshot.CompileConserves` | packages/contracts/src/transcript.ts:727-742 | a compiled log is a good transcript whose reply characters are those of the deltas the rewinds left, and whose tools are those the events opened |
| `Snapshot.OneBubblePerTurn` | packages/contracts/src/transcript.ts:727-742 | in every compiled log at most one reply bubble lies between user messages, and no two user messages share a follow-up id |
| `Snapshot.ArrivalOrderIndependence` | packages/contracts/src/transcript.ts:727-731 | a rewind-free log of one worker epoch compiles to the same transcript from every arrival order |
| `Snapshot.ToolIdsAreDistinct` | packages/contracts/src/transcript.ts:130-170 | in every compiled log each message's tools have distinct non-empty ids |
| `Snapshot.ScrollShowsEverythingOnce` | packages/contracts/src/transcript.ts:744-756 | paging back through a compiled log of distinct trimmed ids shows each message exactly once |
| `Paging.ClampTranscriptPage` | packages/contracts/src/transcript.ts:241-247 | a page holds 40 messages when no finite limit is asked for, and otherwise the limit rounded down, at least one and at most 200 |
| `Paging.PageIs` | packages/contracts/src/transcript.ts:249-269 | a page is the stretch that ends at the message the trimmed cursor names, or at the end without one; it is as long as was asked for, held between 1 and 200, or 40, or as there is; it tells how many messages are in front and, unless there are none, its own first id |
| `Paging.UnknownCursor` | packages/contracts/src/transcript.ts:255-262 | an unknown cursor gives an empty last page |
| `Paging.ScrollUp` | packages/contracts/src/transcript.ts:249-269 | following `nextBefore` ends, and no page is longer than 200 |
| `Paging.ScrollUpCovers` | packages/contracts/src/transcript.ts:249-269 | from any cursor the pages, oldest first, concatenate to the messages before it |
| `Paging.PagesCoverTranscript` | packages/contracts/src/transcript.ts:249-269 | from the newest page the pages concatenate to the whole transcript |
| `TranscriptHeap.Tool.Refresh` | packages/contracts/src/transcript.ts:144-169 | writing an event into a shared tool record changes its fields as the value reducer says and no other object |
| `TranscriptHeap.Evict` | packages/contracts/src/transcript.ts:526-530 | the eviction loop ends with the steps the limit allows and counts the ones it dropped |
| `TranscriptHeap.Message.AppendText` | packages/contracts/src/transcript.ts:176-188 | a delta extends the last text block in place or adds one, and the message keeps its footprint and its shared tools |
| `TranscriptHeap.Message.UpsertTool` | packages/contracts/src/transcript.ts:130-170 | a tool event refreshes one shared record or adds one that `tools` and `blocks` both hold, as the value reducer says |
| `TranscriptHeap.Message.MarkToolsDone` | packages/contracts/src/transcript.ts:312-323 | marking through `tools` and through `blocks` finishes each shared record once |
| `TranscriptHeap.BuildState.FinishAssistant` | packages/contracts/src/transcript.ts:408-422 | the open bubble is closed, and spliced out of the list if it is blank |
| `TranscriptHeap.BuildState.EnsureAssistant` | packages/contracts/src/transcript.ts:437-458 | the open bubble is the one the value reducer opens: the current one, the last of this turn, or a new one |
| `TranscriptHeap.BuildState.ApplyUserTurn` | packages/contracts/src/transcript.ts:565-600 | a user turn on the objects is the value reducer's user turn |
| `TranscriptHeap.BuildState.NestedToolEvent` | packages/contracts/src/transcript.ts:475-532 | a nested step lands in the tool record the value reducer picks, and moves `open` there |
| `TranscriptHeap.BuildState.ToolEvent` | packages/contracts/src/transcript.ts:534-550 | a tool event reopens the bubble that has the tool, however old, or the one of this turn |
| `TranscriptHeap.BuildState.SettleAll` | packages/contracts/src/transcript.ts:460-473 | settling closes every bubble in place and filters the blank ones out of the list |
| `TranscriptHeap.BuildState.ApplyEvent` | packages/contracts/src/transcript.ts:602-704 | one event on the objects is one event on the values: every branch, the list, the shared tools and the `open` reference |
| `TranscriptHeap.BuildState.ApplyEvents` | packages/contracts/src/transcript.ts:719-725 | a loop of events on the objects is the value reducer's run |
| `TranscriptResume.CloneTools` | packages/contracts/src/transcript.ts:285-303 | copies are fresh and distinct, look the same, and `byId` files the last copy of every id |
| `TranscriptResume.CloneBlocks` | packages/contracts/src/transcript.ts:303-310 | each copied tool block points to the copy filed under its tool's id; where none is filed, blocks of one id share one copy apart from those tools, and a block without an id has a copy of its own; the blocks look the same |
| `TranscriptResume.CopiesLineUp` | packages/contracts/src/transcript.ts:292-310 | the copied blocks point into the copied tools exactly if they name the tools in order, each tool with a non-empty id of its own |
| `TranscriptResume.CloneTranscriptMessage` | packages/contracts/src/transcript.ts:292-310 | a copy of any message shares no object with it and looks the same, and its blocks hold its tools one to one exactly if the message's blocks name its tools in order and these have distinct non-empty ids, whether the message's own blocks hold them or not |
| `TranscriptResume.StateFromMessages` | packages/contracts/src/transcript.ts:706-713 | from any page, a resumed state is built of fresh objects only and shows the page, its cursor on the last bubble exactly if that streams or has a tool running; each message's blocks hold its tools one to one exactly if that page message's blocks name them |
| `TranscriptResume.ApplyRunEventsToMessages` | packages/contracts/src/transcript.ts:715-725 | live events on any page give what the value model gives, on fresh objects, and leave the page alone; where the blocks of the page name its tools, every block of the result holds its tool |
| `TranscriptResume.BuildTranscriptSnapshot` | packages/contracts/src/transcript.ts:727-742 | compiling on the objects gives the compiled value, with blocks and tools sharing every record one to one |
| `TranscriptResume.CompileThenResume` | packages/contracts/src/transcript.ts:706-742 | compiling a prefix that ends its turn on the objects, and working the rest in from copies, shows what compiling the whole log shows, with blocks and tools sharing every record |
| `TranscriptResume.SendMessage` | packages/web/src/App.tsx:844-849 | a message off the wire looks the same and names its tools as the one that was sent does, but no block points into its tools |
| `TranscriptResume.ResumePage` | packages/contracts/src/transcript.ts:706-742 | from any page that shows a compiled prefix which ends its turn, with blocks that name the tools, the rest of the log worked in shows what compiling the whole log shows, and every block holds its tool again |
| `TranscriptResume.SendThenResume` | packages/contracts/src/transcript.ts:706-742 | so it is with a page that was compiled and sent, where no block shares a record with the tools |
| `Resume.ResumeIsExact` | packages/contracts/src/transcript.ts:706-713 | a resumed client sees what a replaying one sees, whatever comes next, if and only if the live cursor is on the last bubble where that streams or has a tool running, and unset else |
| `Resume.ResumedIff` | packages/contracts/src/transcript.ts:706-713 | a resumed client shows the page, its cursor on the last bubble if and only if that streams or has a tool running |
| `Resume.UserMessageOnPage` | packages/contracts/src/transcript.ts:706-725 | a new user message worked into any page comes last, and leaves a last bubble that was at work finished, or gone if it shows nothing |
| `Resume.CompileConcat` | packages/contracts/src/transcript.ts:727-742 | a log whose tail sorts behind its head and rewinds nothing of it compiles piece by piece |
| `Resume.ProcessedConcatIff` | packages/contracts/src/transcript.ts:81-128 | where no event comes twice and the comparator is transitive, a log is folded and sorted piece by piece if and only if its tail sorts behind its head and rewinds nothing of it |
| `Resume.ResumeWhereCursorsAgree` | packages/contracts/src/transcript.ts:706-725 | resuming where the two cursors agree equals compiling the whole log |
| `Resume.ResumeEqualsReplay` | packages/contracts/src/transcript.ts:706-742 | resuming after a log that ends in `run.idle` or `run.error` equals compiling the whole log |
| `Resume.ResumeMidTurnDiffers` | packages/contracts/src/transcript.ts:408-422 | after `message.start`, `message.end` and a user message, the resumed client keeps a blank bubble that replay drops |
| `LiveChain.FollowIff` | packages/contracts/src/transcript.ts:706-725 | any batch worked into a page shows what it shows in the live state if and only if the live cursor is the one recomputed from the page |
| `LiveChain.FollowThroughoutIff` | packages/contracts/src/transcript.ts:706-725 | so does every batch of a stream if and only if the cursors agree at the start and after each batch |
| `LiveChain.WorkedInIff` | packages/contracts/src/transcript.ts:715-725 | batch by batch, a client works in the very events that compiling what came so far works in, in the same order after each batch, if and only if each batch sorts behind and rewinds nothing of what came before it |
| `LiveChain.ChainIsCompile` | packages/contracts/src/transcript.ts:706-742 | a stream whose batches are worked in so, with cursors that agree, shows what compiling it shows |
| `LiveChain.LateRewindKeepsText` | packages/contracts/src/transcript.ts:715-725 | a rewind that comes in a later batch than the delta it takes back leaves that delta on the page, which compiling the two does not |
| `ClientStream.ApplyLiveEvents` | packages/contracts/src/client-stream.ts:58-80 | the loop with its in-place last slot computes the coalesced list of the events not seen yet |
| `ClientStream.AnyBatching` | packages/contracts/src/client-stream.ts:58-80 | a stream of distinct non-empty ids gives the same list however it is batched |
| `ClientStream.DroppedExactlyWhenListed` | packages/contracts/src/client-stream.ts:58-80 | an event is dropped if and only if its id is empty or still in the list |
| `ClientStream.NewAreTaken` | packages/contracts/src/client-stream.ts:58-80 | a batch adds exactly its events with an id that is not listed and of no earlier event of the batch, in order |
| `ClientStream.MergedReplayRepeats` | packages/contracts/src/client-stream.ts:46-55 | the id of a delta that was merged away is forgotten: its replay is added again |
| `LiveRows.RowsOfStream` | packages/contracts/src/client-stream.ts:46-80 | each entry of the coalesced list stands for one stretch of the stream, and the stretches make up the stream |
| `LiveRows.RowShows` | packages/contracts/src/client-stream.ts:46-55 | an entry shows as the last event of its stretch, each field the last that brings it and the text all deltas in order |
| `LiveRows.FoldOfRowsIff` | packages/contracts/src/transcript.ts:81-107 | folding the coalesced list is folding the stream if and only if each stretch is taken back whole or not at all, and its entry with it |
| `LiveOrder.OrderOfRowsIff` | packages/contracts/src/transcript.ts:109-128 | where the comparator is transitive, sorting the entries is sorting the stream if and only if the comparator puts no event into the middle of a stretch and every stretch on the side of its entry |
| `LiveMeaning.ListStandsForStream` | packages/contracts/src/transcript.ts:715-725 | a client that folds and sorts the coalesced list works in the very events of the folded and sorted stream, in the same order, if and only if its entries hold in both of these ways |
| `LiveMeaning.LiveListShowsStream` | packages/contracts/src/transcript.ts:715-725 | then, on any state, the list after fold and sort runs to the same roles, texts, blocks and tools as the stream, and to the same ids and creation times too when no bubble is first created by a delta |
| `LiveMeaning.LiveBatchOnPage` | packages/contracts/src/transcript.ts:715-725 | then a batch coalesced before it is worked into a page shows what the batch itself would |
| `LiveMeaning.EmittedListStands` | packages/contracts/src/transcript.ts:715-725 | for a batch in emission order whose entries carry the stamp of their last delta, it does so if and only if no rewind takes back part of an entry |
| `LiveMeaning.RewindInsideRowLosesText` | packages/contracts/src/client-stream.ts:46-55 | a rewind that takes back the second of two merged deltas takes both: the kept text is lost |
| `LiveMeaning.ToolBetweenDeltasMoves` | packages/contracts/src/client-stream.ts:46-55 | a tool emitted between two deltas and delivered after them comes to stand before their text |
| `CoalesceMeaning.RunAlike` | packages/contracts/src/transcript.ts:602-704 | transcripts that differ only in ids and creation times of bubbles stay so under any events |
| `Framing.ChunkingIrrelevant` | packages/extensions/src/mcp-client.ts:133-197 | for every reader that cuts a stable frame off its buffer, chunking never shows in the frames or in the rest |
| `Framing.SplitJoins` | packages/cli/src/sse.ts:11-33 | splitting at a separator loses nothing and leaves none in the parts |
| `Sse.SplitIsFrames` | packages/cli/src/sse.ts:11-33 | splitting at blank lines and keeping the last part back cuts the same frames as searching one separator at a time |
| `Sse.ParseSseChunk` | packages/cli/src/sse.ts:11-33 | one call parses the finished frames of the buffer and returns the unfinished rest |
| `Sse.ReadFields` | packages/cli/src/sse.ts:16-28 | the last `id:` and the last `data:` line of a frame count, trimmed as the source trims them |
| `Sse.FrameCarries` | packages/cli/src/sse.ts:11-33 | a frame carries the trimmed value of its last `id:` line and the value of its last `data:` line less leading space; it carries nothing if and only if it is blank, a comment, or without data |
| `Sse.DataLinesAre` | packages/desk/src/inbox.ts:69-94 | the payloads are the trimmed values of the lines that start with `data:`, one each, in order |
| `Sse.SplitReader.OnData` | packages/cli/src/sse.ts:93-101 | one chunk delivers the frames it finishes |
| `Sse.SplitReader.ReadAll` | packages/cli/src/sse.ts:93-101 | any chunking delivers the frames, and leaves the rest, of the stream in one piece |
| `Sse.InboxReader.OnData` | packages/desk/src/inbox.ts:69-94 | the indexOf loop cuts the same frames and delivers the payloads of their `data:` lines in order |
| `Sse.InboxReader.ReadAll` | packages/desk/src/inbox.ts:69-94 | any chunking delivers the payloads, and leaves the rest, of the stream in one piece |
| `Sse.SseChunkingIrrelevant` | packages/desk/src/inbox.ts:69-94 | chunk by chunk and one-shot cut the same raw frames and leave the same rest |
| `McpStdio.CutMessageStable` | packages/extensions/src/mcp-client.ts:133-150 | a cut makes progress, stays in the buffer, and is not changed by bytes that arrive later |
| `McpStdio.LengthIsLeftmost` | packages/extensions/src/mcp-client.ts:140 | the length is what the leftmost match of the pattern spells, whatever its letters' case, and there is none exactly if nothing matches |
| `McpStdio.McpChunkingIrrelevant` | packages/extensions/src/mcp-client.ts:133-197 | any chunking of the child's output delivers the same messages and leaves the same bytes |
| `McpStdio.ChunksMerge` | packages/extensions/src/mcp-client.ts:174-177 | two chunks settle the same requests and leave the same bytes as the two in one piece |
| `McpStdio.FramesRoundTrip` | packages/extensions/src/mcp-client.ts:185-190 | frames as `rpc` writes them parse back to their payloads, with nothing left over |
| `McpStdio.FrameIs` | packages/extensions/src/mcp-client.ts:190 | a frame is the name in its own letters, the payload's length in decimal digits, a blank line and the payload |
| `McpStdio.StepKeeps` | packages/extensions/src/mcp-client.ts:121-197 | every request is either waiting or settled, once, after each response, timeout, exit and new request; no settlement is taken back |
| `McpStdio.SettledAtMostOnce` | packages/extensions/src/mcp-client.ts:121-197 | over any run no request id settles twice, and each is either waiting or settled |
| `McpOutcomes.SettlesAsDecided` | packages/extensions/src/mcp-client.ts:121-197 | a request settles with an outcome if and only if the first thing behind it that decides it decides so: an answer or an error delivered for its id, its timer, or the end of the child; and it waits exactly as long as there is none |
| `McpClient.StdioClient.Consume` | packages/extensions/src/mcp-client.ts:133-172 | the loop ends, keeps exactly the bytes of the unfinished message, and settles what the messages say in order |
| `McpClient.StdioClient.Rpc` | packages/extensions/src/mcp-client.ts:185-197 | a request takes the next id, waits under it, and is written as one frame whose payload is the request rendered with that very id |
| `McpClient.StdioClient.Fail` | packages/extensions/src/mcp-client.ts:126-131 | every waiter is rejected, in order, and none waits any more |
| `McpClient.StdioClient.OnData` | packages/extensions/src/mcp-client.ts:174-177 | the object on a chunk is the protocol's data step |
| `McpClient.StdioClient.Serve` | packages/extensions/src/mcp-client.ts:121-197 | the client over any mix of requests, chunks, timeouts and exits: each request settles once, as the first thing that decides it says, or waits as long as there is none, and the child is sent each request once, in order, as frames that read back |
| `ContextBar.Drain` | packages/contracts/src/context-bar.ts:54-65 | the drain loop always has enough slack: the total is met within 1e-6, nothing falls below the floor, and what was taken came off the largest widths first |
| `ContextBar.TopUp` | packages/contracts/src/context-bar.ts:66-74 | what is missing goes onto the first of the largest widths, no other width changes, and the total is met |
| `ContextBar.SumRaised` | packages/contracts/src/context-bar.ts:52-53 | raising to the floor never falls short of the total, so in exact arithmetic the top-up branch has nothing to do |
| `ContextBar.AllocateWidths` | packages/contracts/src/context-bar.ts:37-76 | the widths in each of the five cases: empty, zero, even, proportional, and with a floor that every width meets |
| `ContextBar.AllocationIsFair` | packages/contracts/src/context-bar.ts:37-76 | for every total above zero the widths are non-negative and sum to the total within 1e-6, whatever the shares and the floor |
| `ContextBar.PlaceItems` | packages/contracts/src/context-bar.ts:105-135 | slices keep the items' order and tokens, tile their parent without gaps, and share its width fairly |
| `ContextBar.PlaceChildren` | packages/contracts/src/context-bar.ts:103-136 | each entry of `children` tiles the slice of the last bucket with that id, and every bucket with children to show has one |
| `ContextBar.LayoutContextBar` | packages/contracts/src/context-bar.ts:78-138 | the slices tile [0, used] with 0 < used <= width, and children tile their slices; nothing is drawn when there is no width, no token or no bucket |
| `ContextBar.UsedWidthInside` | packages/contracts/src/context-bar.ts:94-96 | the coloured part is never empty and never wider than the bar |
| `ContextBar.UsedWidthIs` | packages/contracts/src/context-bar.ts:94-96 | the coloured part is the tokens' share of the window, or the least width that may be, whichever is more |
| `ContextBar.BucketsShown` | packages/contracts/src/context-bar.ts:90 | the buckets on show are those with tokens, in order |
| `ContextBar.HasChildrenIff` | packages/contracts/src/context-bar.ts:115-116 | a bucket has children to show exactly if one of them has tokens and its slice has width |
| `ContextUsage.RoundingError` | packages/contracts/src/context-usage.ts:131-137 | n parts rounded half up are off by at most n halves in sum |
| `ContextUsage.AdjustedSum` | packages/contracts/src/context-usage.ts:138-145 | the buckets never sum to less than the report; they sum to it if and only if the parked bucket can take the drift, and where they exceed it that bucket was clipped to zero |
| `ContextUsage.ScaleToReported` | packages/contracts/src/context-usage.ts:122-145 | the loop as written parks the drift on the conversation unless another part beats its raw estimate, and on the first largest part otherwise |
| `ContextUsage.ReportedSumIsExact` | packages/contracts/src/context-usage.ts:122-145 | under the half-prefix gate the buckets sum to the report exactly from 63 tokens on |
| `ContextUsage.ReportedSumCanExceed` | packages/contracts/src/context-usage.ts:122-145 | at 62 tokens they can sum to 63 |
| `ContextUsage.ScaleItems` | packages/contracts/src/context-usage.ts:154-176 | the loop rounds each child and parks the drift on the first largest |
| `ContextUsage.PositivePicks` | packages/contracts/src/context-usage.ts:155 | the children that count are those that weigh something, in order |
| `ContextUsage.ApportionedSum` | packages/contracts/src/context-usage.ts:154-176 | shares never sum to less than the parent, and to exactly it if and only if the largest is at least the drift |
| `ContextUsage.ChildrenSum` | packages/contracts/src/context-usage.ts:154-176 | shown children sum to at least their parent, and to exactly it once n(n-1)/2 tokens are shared |
| `ContextUsage.SharesCanExceed` | packages/contracts/src/context-usage.ts:154-176 | four equal children under a parent of two sum to three |
| `ContextSnapshot.GateSurvivesRounding` | packages/contracts/src/context-usage.ts:277-284 | a report that passes the half-prefix gate still passes it once rounded |
| `ContextSnapshot.ItemsFor` | packages/contracts/src/context-usage.ts:178-196 | children are scaled from the drafts that estimate to something, and absent when none does |
| `ContextSnapshot.EstimatesAre` | packages/contracts/src/context-usage.ts:248-271 | in render order, each bucket is a quarter of its own text, rounded up; the system prompt is what rules, memory, skills and subagents leave of it |
| `ContextSnapshot.ReportOrEstimate` | packages/contracts/src/context-usage.ts:273-284 | the rounded report counts if it is positive and at least half of all estimates but the conversation's, and else their sum |
| `ContextSnapshot.EstimatedBuckets` | packages/contracts/src/context-usage.ts:286-303 | the buckets on show are those that are not empty, in render order with their own children; where no report counts they are the estimates |
| `ContextSnapshot.AssembleContextUsage` | packages/contracts/src/context-usage.ts:219-309 | a snapshot's total is the rounded report or the estimate, its buckets are the scaled ones in render order without the empty ones, each with its children |
| `ContextSnapshot.BucketsSumToSnapshot` | packages/contracts/src/context-usage.ts:277-303 | the shown buckets sum to the snapshot's tokens, never to less, and exactly unless a report below 63 tokens was spread |
| `ContextSnapshot.OverlayContextUsage` | packages/contracts/src/context-usage.ts:312-337 | the overlay adds to the first conversation bucket or appends one, changes no other bucket, and is the base when there is nothing to add |
| `ContextSnapshot.OverlayAddsToBuckets` | packages/contracts/src/context-usage.ts:312-337 | the overlay adds to the buckets what it adds to the total |
| `GitPatch.HeaderReadsMatch` | packages/contracts/src/git.ts:310 | the scanner reads the two start numbers of any match of the header pattern |
| `GitPatch.HeaderIsMatch` | packages/contracts/src/git.ts:310 | a line is taken for a header exactly if the pattern matches it |
| `GitPatch.ParseHunkLines` | packages/contracts/src/git.ts:316-356 | the kept lines, each with its kind and its marker gone, old and new sides of every hunk numbered consecutively from the header's starts |
| `GitPatch.KeptAre` | packages/contracts/src/git.ts:321-338 | the lines kept are the headers and the lines behind one that are no file header and no remark, in order |
| `GitPatch.PushLine` | packages/contracts/src/git.ts:336-353 | a line numbered with the counters continues both sides of its hunk |
| `HunkTruth.ParsedIsTruthIff` | packages/contracts/src/git.ts:316-356 | for every patch that reads as file headers and well-formed hunks, with remarks on missing line breaks anywhere, the parsed lines and numbers are the true ones if and only if no removed line starts with two dashes and no added line with two pluses |
| `HunkTruth.NumbersArePlaces` | packages/contracts/src/git.ts:316-356 | then every numbered line reads at that number in the old file, the new file or both |
| `HunkTruth.SkippedRemovalShiftsNumbers` | packages/contracts/src/git.ts:331-337 | removing a line that starts with two dashes hides it and numbers the next one a line too early |
| `HunkTruth.TrailingBreakAddsLine` | packages/contracts/src/git.ts:316-356 | a line break at the end of such a patch adds one blank context line, and nothing else |
| `PatchText.JoinedLines` | packages/contracts/src/git.ts:321 | lines joined into a patch are read back, each less a carriage return in front of a break |
| `PatchText.LinesReadBackIff` | packages/contracts/src/git.ts:321 | they are read back as they are if and only if no break stands behind a carriage return |
| `PatchText.LastBlankIff` | packages/contracts/src/git.ts:321 | the last line read is blank if and only if nothing stands behind the last break |
| `HunkFold.FoldUnmodifiedLines` | packages/contracts/src/git.ts:367-397 | the two loops fold every maximal long run of context |
| `HunkFold.UnfoldAfterFold` | packages/contracts/src/git.ts:367-397 | expanding every fold gives the input back |
| `HunkFold.IdsCountUp` | packages/contracts/src/git.ts:385-391 | fold ids count up from zero |
| `HunkFold.FoldsAreGood` | packages/contracts/src/git.ts:367-397 | a fold hides at least one line and only context, `count` is how many, `edge` context lines stay on each side with a change or an end beyond, and no long run is left on show |
| `PatchCap.CapPatch` | packages/contracts/src/git.ts:420-426 | the loop ends and the result is the patch or what fits of it up to its last line break |
| `PatchCap.CapFits` | packages/contracts/src/git.ts:420-426 | the result is a prefix of at most `max` UTF-8 bytes, also where a slice splits a pair, and `truncated` says exactly whether something is missing |
| `PatchCap.CapIsTight` | packages/contracts/src/git.ts:420-426 | less than 1024 units are given away before the line break is looked for, none for ASCII |
| `PatchCap.PrefixBytes` | packages/contracts/src/git.ts:413-417 | a prefix is never longer in bytes, even when it ends in half a pair |
| `PatchCap.BytesAreEncoded` | packages/contracts/src/git.ts:413-417 | the bytes counted are those of UTF-8, half a pair as the replacement character |
| `Calendar.YearIsUnique` | packages/contracts/src/automation.ts:120-130 | exactly one year contains a day |
| `Calendar.MakeDayCounts` | packages/contracts/src/automation.ts:132-134 | adding days to a date and letting Date.UTC carry them counts days, over month and year ends |
| `Calendar.DateRoundTrip` | packages/contracts/src/automation.ts:120-134 | a proper date is what its day is taken apart into |
| `Automation.ParsesWhatIsAsked` | packages/contracts/src/automation.ts:33-71 | a request parses to a schedule if and only if it asks for it: the kind's own fields are whole and in range, minutes of the hour may be left out, and `every` rounds its minutes; all others are refused |
| `Automation.ScheduleRoundTrip` | packages/contracts/src/automation.ts:33-71 | a schedule can be asked for if and only if it is within its ranges |
| `Automation.NextInstant` | packages/contracts/src/automation.ts:90-115 | the schedule's time on the first fitting day, or one period later, is the first instant after `from` that the schedule fires |
| `Automation.NextRunIsLeast` | packages/contracts/src/automation.ts:86-116 | the next run is the smallest instant after `from` at which eight hours on the day's hours and minutes are the schedule's and the weekday is, at most 24 hours or 7 days on, if and only if the year on the wall is not one of 0 to 99 |
| `Automation.TwoDigitCentury` | packages/contracts/src/automation.ts:132-134 | those years are one century of days, from day -719528 of 1970 on |
| `Automation.TwoDigitYearIsLate` | packages/contracts/src/automation.ts:132-134 | in them Date.UTC answers with the twentieth century, more than 1899 years late |
| `Automation.RunsArePeriodic` | packages/contracts/src/automation.ts:86-116 | asked at a run, a daily schedule answers a day on and a weekly one a week on |
| `Automation.FiresOnTheWall` | packages/contracts/src/automation.ts:118-130 | so says the wall clock the source reads, Sunday counted as 7 |
| `Automation.RunsApart` | packages/contracts/src/automation.ts:86-89 | the n-th run of an `every` schedule is n times its minutes on |
| `Admission.NormalizeMaxLocalRuns` | packages/desk/src/admission.ts:17-23 | the limit is the preference rounded down, 4 when that is no finite number or below one, and 16 when it is more |
| `Admission.TrailingSeparator` | packages/desk/src/admission.ts:33-42 | trailing separators do not tell folders apart |
| `Admission.SameFolderIff` | packages/desk/src/admission.ts:33-42 | where case matters, two paths are one folder if and only if both are one stem, not ending in a separator, with separators behind it |
| `Admission.SpellingIgnored` | packages/desk/src/admission.ts:33-42 | where case does not matter, any two paths that differ only in it are one folder |
| `Admission.SpellingIff` | packages/desk/src/admission.ts:33-42 | and two paths are one folder there if and only if their stems, without separators at the end, are letter for letter alike but for capitals |
| `Admission.AdmitLocalRun` | packages/desk/src/admission.ts:55-76 | a run is refused if and only if that many other runs hold a slot, and warned if and only if one of them shares its folder |
| `Desk.OverLimitIff` | packages/desk/app/host.ts:578-597 | a step takes the desk over its limit if and only if it is a spawn for a run that lost its slot on a full desk |
| `Desk.LosesOnlyBy` | packages/desk/app/host.ts:531-548 | only a cancel, a child's exit or error, quitting, a reap of a finished run or the failure of another start of the run deletes a run between reservation and spawn |
| `Desk.DeskStaysWithinLimit` | packages/desk/app/host.ts:578-726 | in every interleaving of handlers, microtasks and answers that deletes no run between reservation and spawn, the desk stays within its limit |
| `Desk.WithinThroughoutIff` | packages/desk/app/host.ts:578-726 | under any settings that keep to a bound, a run stays within it after every event if and only if no worker ever comes up for a run without a slot on a full desk |
| `Desk.NeverMoreThanCeiling` | packages/desk/app/host.ts:578-726 | then it never holds more than sixteen, however the preference changes |
| `DeskEffects.BeginGives` | packages/desk/app/host.ts:578-597 | a start of a run without a slot gets one at once if and only if fewer others than the limit hold one; else it waits for word on exactly the other runs with a child |
| `DeskEffects.AnswerReaps` | packages/desk/app/host.ts:531-548 | of those, the ones that are over lose their slots and no other, in place |
| `DeskEffects.RecheckGives` | packages/desk/app/host.ts:588-597 | if one was over, the start gets its slot if and only if fewer others than the limit hold one then; else it is given up |
| `DeskEffects.FullDeskGives` | packages/desk/app/host.ts:578-597 | whatever happens in between, a start on a full desk of which another run with a child is over gets its slot, unless others hold the limit by its turn |
| `DeskEffects.SpawnPuts` | packages/desk/app/host.ts:678-700 | a prepared start puts its child under its run, in place, and keeps the machine awake |
| `DeskEffects.StartEnds` | packages/desk/app/host.ts:700-726 | a start that fails gives its run's slot back, and one that is claimed is over |
| `DeskEffects.RunEnds` | packages/desk/app/host.ts:629-652 | a cancel, a child's exit or error takes its run's slot and no other, and the last child to go lets the machine sleep |
| `Desk.SlotsAccounted` | packages/desk/app/host.ts:623-726 | in every interleaving a slot without a child belongs to a start still preparing, and a slot with one keeps the machine awake |
| `Desk.StrandsIff` | packages/desk/app/host.ts:629-726 | a step leaves the machine kept awake without a run, where it was not, if and only if a cancel, quitting, a reap or a failed start takes the last slots while the blocker is held, or a start that took it fails |
| `Desk.StrandedUntil` | packages/desk/app/host.ts:637-652 | and so it stays until a child's exit is reported or a run takes a slot |
| `Desk.NeverStrandedIff` | packages/desk/app/host.ts:629-726 | over a run this never happens if and only if no event is of that kind |
| `Desk.FailedSpawnStaysAwake` | packages/desk/app/host.ts:680-725 | a spawn that fails once the blocker is taken leaves it held on an empty desk |
| `Desk.CancelDuringSpawnOverfills` | packages/desk/app/host.ts:775-783 | a cancel during the spawn gives the slot away and the worker comes up all the same |
| `DeskHost.Host.ReapFinishedWorkers` | packages/desk/app/host.ts:531-548 | the loop stops exactly the candidates the control plane called finished, in their order, and counts them |
| `DeskHost.Host.Serve` | packages/desk/app/host.ts:531-783 | the host's handlers, each run to its next await, take the process through any sequence of events as the protocol runs: undisturbed starts keep its slots within every bound the settings keep to, a slot without a child belongs to a start still preparing, one with a child keeps the machine awake, and a start on a full desk gets the slot of a run that is over unless others hold the limit by its turn |

## Left out

- Payload typing: a field of the wrong type counts as absent where a `typeof` guard treats it so; `text`, `delta` and `toolName`, which the source passes through `String`, are what that makes of them, and absent for null and undefined; steps of a subagent that lack their required fields never enter a record.
- Event kinds: setup kinds and passed-over kinds arrive already told apart by prefix; titles and details of setup cards are plain fields, without the fallback wording of setup-fail.ts.
- Opaque JSON: tool arguments, outputs and the rest of `details` are compared, never looked into; whether arguments parse to a subagent request is part of the event.
- Sharing inside one tool record: `details` and its steps are replaced, never changed in place, by the source, so they are values here; images of a message are values for the same reason.
- `undefined` against `[]`: a message without `tools` or `blocks` has empty ones.
- Sorting by an inconsistent comparator: the model sorts by insertion; `EventOrder.SortIsTheArrangement` shows that this does not matter where the comparator is transitive, and elsewhere the engine's own order is not modelled.
- EventOrder.SortConcat: without a transitive comparator it holds of the model's own sort, and `Resume.CompileConcat`, `Resume.ResumeWhereCursorsAgree`, `Resume.ResumeEqualsReplay` and `LiveChain.ChainIsCompile` rest on it there; with one, any correct sort will do (`EventOrder.AnySortConcat`).
- Messages whose blocks do not hold their tools: what shows is their texts, their tools and the places of tool blocks, not what such a block's own record holds. Pages of compiled logs that were just read off the wire are of this kind until the first live event is worked in; no compiled or resumed message is, unless a page names its tools wrongly.
- LiveMeaning.LiveListShowsStream: its condition is exact for which events are worked in and in which order; that lists of other events always show otherwise is not claimed.
- HunkTruth.ParsedIsTruthIff: does not cover file headers between hunks, which a patch of a single file has not; a carriage return in front of a line break is no part of a line, as the parser reads it.
- Time stamps: the text and the milliseconds it parses to are two fields of an event; parsing dates is not modelled.
- Display helpers: grouping of blocks, hiding of stale notices, settling of pages for display, slimming of images and the other views that change no compiled transcript.
- Floating point: widths are exact reals, token scaling is exact rationals with halves rounded up; the 1e-6 tolerance is the source's own.
- ContextSnapshot.AssembleContextUsage: does not model the model catalogue, which is a parameter, nor the labels of buckets; texts are measured in characters where the source counts UTF-16 code units.
- parseItems, linesToItems and the cloud prompt texts of context-usage.ts: would only add easy members.
- HunkFold.FoldUnmodifiedLines: a negative `edge` is not modelled; the only caller takes the default of 3.
- GitPatch.ParseHunkLines: line starts are unbounded; numbers too long for a double are not rounded.
- PatchCap.CapPatch: a negative `max`, which `slice` would count from the end, is not modelled; the callers pass a byte limit.
- McpStdio: header bytes outside ASCII do not count as white space, lengths too long for a double are not rounded, and `JSON.parse` with the choice between result and error is a parameter; the fifteen-second timers are events that come at any time.
- Sse: text decoding of bytes, JSON parsing of payloads, reconnects and timers.
- Automation: time values beyond the range of a Date are not clipped; `Number` of a request field is a parameter, missing minutes count as zero; describing schedules in words.
- Admission: path resolution happens before the model, and folding of case is ASCII only.
- Desk: spawning, claiming, status calls and killing are events that come in any order, with any answer; the inbox's own guard against duplicate starts, reports to the window and releases to the control plane are not modelled. That at most one worker runs for a run is false of the code and not claimed.
- HTTP servers, Electron windows, child processes, the file system, Redis and SQL, React views, prompt texts, tokens and redaction.
