# A verified model of the chat transcript and its event plumbing

The desktop application shows a conversation with an agent runtime. What the transcript shows arrives
several times and in several ways: as live events, as a replay of recorded trace events, and as polled
message records. This project models the code that makes those ways agree, and the plumbing around it,
in Dafny, and proves what that code is for. All statements are for all inputs, all runs or all
interleavings, under the conditions that "Left out" lists. Where the code fails a property stated here,
the exact condition is proved, with a concrete input where the failure is easy to miss.

| area | modules |
|---|---|
| vocabulary | `Seqs`, `StableSort`, `Text`, `Numerals`, `ChatMessages` |
| merging polled records into the transcript | `SessionRefresh`, `RefreshContents`, `RefreshIdempotence` |
| streamed text and redelivery | `ContentDelta`, `StreamedText`, `Redelivery` |
| transcript updates, and what they leave | `MessageUpdates`, `ThinkingIds`, `ToolBlocks`, `MessageOutcomes`, `ToolOutcomes` |
| text stays out of blocks | `TextBlocks`, `GuardedBlocks` |
| trace replay | `TraceEvents`, `ReplayOrder`, `TraceReplay`, `EventOutcomes`, `CancelGate`, `CancellationFinal` |
| one block per tool call | `BlockTable`, `BlockInvariants`, `BlockUpdates`, `PlainUpdates`, `OneBlock`, `ReplayBlocks` |
| outputs exactly once | `FirstBlocks`, `FirstBlockUpdates`, `ReplayOutputs`, `ExactlyOnce`, `ReplayRuns`, `DroppedOutput` |
| live tokens and the live gate | `TokenBuffer`, `CancelGate` |
| bounded caches and paging | `TraceCache`, `CommandTail`, `TracePaging` |
| RPC bridge, event bus, file search | `RpcBridge`, `EventBus`, `FuzzyScore`, `FileSearch` |

How the pieces fit:

- A transcript update is a function on message lists (`Upsert`, `Map`, `Filter` over the same lookups,
  guards and field updates as the source). The source's loops are methods proved against those functions.
- `BlockTable.Table` is the abstract state of the tool blocks: for each tool call whether its result is
  in, its output buffers and its replay markers. `OneBlock` says exactly when a replay keeps to one
  block per call. `ReplayBlocks.EventRefines` shows that replaying one event changes the table exactly as
  a small machine says, and `ReplayRuns.TraceRefines` lifts this to traces.
- All output of a call goes into its first block. `ReplayOutputs` says what every event does to the first
  blocks, `ExactlyOnce` follows a sequence of events in which any may be repeated, and `ReplayRuns` shows
  that replays, also of overlapping traces, are such sequences.
- The event bus and the token buffer are classes whose ghost histories tie every method to a declarative
  account of what happened. The RPC bridge is a step system over its lock sections.

What the code does where it is easy to expect something else:

- A refresh is idempotent exactly when every record hidden by a content-block segment is hidden by a
  segment the refresh keeps, and no local message left in place could be taken for a shown record
  (`RefreshIdempotentIff`). A segment of an excluded task breaks the first half
  (`ExcludedSegmentWitness`), two pending messages that are candidates for one record break the second
  (`SharedCandidateWitness`).
- The first delta of a message is stored without newline normalisation. Redelivering it is absorbed
  exactly when its trimmed text has no CRLF (`FirstRedeliveryIff`, `TextRedeliveryIff`).
- An input delta after the result of its tool call opens a second block for the call. As
  long as text carries no tool ids, nothing else in a replay does (`InputKeepsIff`, `OneBlockAlwaysIff`).
- The replay drops the start or resume event of a cancelled task before it could lift the cancellation,
  so a resumed task shows live what its replay drops (`ResumedTaskDiverges`); `GatesAgreeIff` gives the
  exact condition for agreement.
- A text delta whose message id is the id of a tool, thinking or permission block is written into that
  block (`NamedBlockIsWritten`); `TextSparesIff` gives the exact condition.
- A task that ends drops blocks without a text, and their replay markers with them. An output of such a
  block is folded in again by the next replay, behind later output (`DroppedOutputReturns`: "2" becomes
  "21"). All outputs are there exactly once at every moment if and only if no end of a task drops a block
  that holds output (`OutputsExactIff`); when every call has a title or was completed by the time a task
  ends, any number of replays is harmless (`ReplaysApplyOnce`, `RepeatedFromNothing`).
- A tool event with a blank presentation field can show another text when it is delivered again
  (`BlankFieldWitness`, `BlankCompletedWitness`). A result without a block can so without any blank
  field, since it forgets the stored input summary (`LostSummaryWitness`). `DisplayStaysIff`,
  `CompleteTwiceIff` and `FinishTwiceIff` say field by field when the text stays.
- Thinking text that is streamed is appended as it comes, so a second delivery doubles it
  (`ThinkingTwiceIff`).
- Request ids are distinct exactly up to 2^64 requests; after that the i-th and the j-th request share
  an id exactly when i and j agree modulo 2^64 (`IdsDistinctIff`, `SharedIdIff`).
- A file scan reads every file exactly when there are at most 20000 (`SearchCompleteIff`). When the
  20000th file ends a directory it leaves the directories still on the stack unread and reports no
  truncation (`SilentlyIncomplete`, `SearchFullTree`).

## Model

| member | source | states |
|---|---|---|
| SessionRefresh.CollectSegments | app/src/state/chatMessages.ts:176-189 | The loop collects exactly the base ids and task ids of the session's content-block segments. |
| SessionRefresh.SplitCurrent | app/src/state/chatMessages.ts:198-226 | The loop sorts every current message into one of six groups, or drops it, by the guards in their order. |
| SessionRefresh.MatchPending | app/src/state/chatMessages.ts:255-308 | Pending local messages are matched greedily, each record at most once. |
| SessionRefresh.ReplaceSessionMessages | app/src/state/chatMessages.ts:151-277 | The whole refresh equals the specification `Refresh`, about which the next rows speak. |
| RefreshContents.RefreshOrder | app/src/state/chatMessages.ts:310-321 | The result lists messages with a sequence number first, by number; the others, and those of one number, by time and then by id. |
| RefreshContents.TiesInGroupOrder | app/src/state/chatMessages.ts:268-277 | Messages that tie in this order keep that of their groups: other sessions, other tasks, records, content blocks, ephemeral blocks, pending, live. |
| RefreshContents.ShownIff | app/src/state/chatMessages.ts:122-197 | A record is shown, with exactly its own fields, if and only if the options ask for it and it is the user's or no content block stands for it. |
| RefreshContents.RefreshHoldsIff | app/src/state/chatMessages.ts:198-277 | Apart from live and pending messages the result holds exactly the shown records and the messages that stay: of other sessions, content blocks, ephemeral blocks, and uncovered ones of tasks not asked for. |
| RefreshContents.LiveIff | app/src/state/chatMessages.ts:235-250 | The live messages of the result are those no record covers, unchanged but for their times: the k-th is at the newest record's time plus 1 + k at the earliest. |
| RefreshContents.PendingKept | app/src/state/chatMessages.ts:255-308 | A pending message that no shown record could be, by client id, id, or words within five minutes, stays. |
| RefreshContents.PendingReplaced | app/src/state/chatMessages.ts:255-308 | A pending message with a record that could be no other pending one goes. |
| RefreshContents.OneRecordEach | app/src/state/chatMessages.ts:255-277 | A record stands for one pending message at most. |
| RefreshContents.MatchPrefers | app/src/state/chatMessages.ts:279-308 | Among the free records one with the client id comes before one with the id, and that before one with the words. |
| RefreshIdempotence.OrderIsTotal | app/src/state/chatMessages.ts:310-321 | The three-key comparator is a total preorder and ties exactly on equal keys, for every locale; its direction is that of RefreshOrder. |
| RefreshIdempotence.RefreshIdempotentIff | app/src/state/chatMessages.ts:151-277 | For records that are shown as settled plain messages and live messages without a sequence number: refreshing twice equals refreshing once if and only if every hidden record is hidden by a kept segment and no local message left in place could be taken for a shown record. |
| RefreshIdempotence.NoExcludedSegmentSuffices | app/src/state/chatMessages.ts:176-226 | The first half holds whenever no excluded message of the list is a content-block segment. |
| RefreshIdempotence.RefreshIdempotent | app/src/state/chatMessages.ts:279-308 | Under the same side conditions it is idempotent when hidden records stay hidden, shown ids are distinct and no record is a candidate of two pending messages. |
| RefreshIdempotence.PollingSettles | app/src/state/chatMessages.ts:151-277 | Under the conditions of RefreshIdempotentIff polling the same records any number of times leaves what the first refresh made. |
| RefreshIdempotence.SortAboveFloor | app/src/state/chatMessages.ts:242-250 | Counting argument: a list whose i-th element is at floor + i or later still is so after sorting by time, so retimed live messages keep their times. |
| RefreshIdempotence.OtherSessionsKept | app/src/state/chatMessages.ts:198-226 | For all inputs: the messages of other sessions are kept as a multiset, joined only by shown records that belong to other sessions. |
| RefreshIdempotence.LiveAfterPersisted | app/src/state/chatMessages.ts:242-277 | When live messages have no sequence number yet, every live message comes behind every shown record. |
| RefreshIdempotence.RefreshedIdsDistinctIff | app/src/state/chatMessages.ts:228-277 | For current and shown lists with distinct ids: the result ids are distinct exactly when no unfiltered current message shares an id with a shown record. |
| RefreshIdempotence.SharedCandidateWitness | app/src/state/chatMessages.ts:296-306 | Two equal pending messages and one record: the second refresh drops the second message. |
| RefreshIdempotence.ExcludedSegmentWitness | app/src/state/chatMessages.ts:176-226 | A segment of an excluded task hides a record once and no more the second time. |
| ContentDelta.AbsorbedIff | app/src/state/chatMessages.ts:2769-2787 | A delta changes nothing exactly when it is blank or its trimmed normalised text is in the content. |
| StreamedText.DeltaTrichotomy | app/src/state/chatMessages.ts:2769-2787 | A delta is absorbed when its words are in the content, replaces content it repeats, and is otherwise put behind it with its own white space. |
| StreamedText.FragmentsConcatenate | app/src/state/chatMessages.ts:2769-2787 | Fragments that each go on from the ones before read as their plain concatenation, without the white space in front. |
| StreamedText.NormalizeSplits | app/src/state/chatMessages.ts:2769-2787 | Normalising turns every CRLF into a line feed and changes nothing else. |
| MessageOutcomes.TextDoes | app/src/state/chatMessages.ts:807-883 | A text delta writes into the message it finds, or starts one at the end; id, task, content, time and block fields after it. |
| MessageOutcomes.TargetIs | app/src/state/chatMessages.ts:764-805 | Text goes to the first message of its id, else, where it may attach, to the last open one of the session and task. |
| MessageOutcomes.SourceIs | app/src/state/chatMessages.ts:92-120 | Before the text of a block is written, exactly the empty base message goes. |
| MessageOutcomes.StreamedMessage | app/src/state/chatMessages.ts:807-883 | The deltas of a new message make one message at the end, whose content is theirs folded in order. |
| ContentDelta.RedeliveryAbsorbed | app/src/state/chatMessages.ts:2769-2787 | Folding any list of already delivered deltas again, in any order and number, changes nothing. |
| ContentDelta.SnapshotsCollapse | app/src/state/chatMessages.ts:2769-2787 | Cumulative snapshots collapse to the last one up to outer white space. |
| ContentDelta.FirstRedeliveryIff | app/src/state/chatMessages.ts:847-870 | A message's first delta is absorbed again exactly when its trimmed text has no CRLF. |
| Redelivery.TextRedeliveryIff | app/src/state/chatMessages.ts:807-883 | Delivering a text delta twice leaves the whole transcript as delivering it once, unless it was the first content of its message and has an inner CRLF. |
| Redelivery.BoundaryCloses | app/src/state/chatMessages.ts:1644-1699 | Behind a tool boundary no thinking of the task is transient or streaming, and all other messages are unchanged and in order. |
| Redelivery.BoundaryTwice | app/src/state/chatMessages.ts:1644-1699 | A second boundary changes nothing. |
| Redelivery.StopTwice | app/src/state/chatMessages.ts:2276-2304 | Ending a task twice is ending it once. |
| Redelivery.StartTwiceIff | app/src/state/chatMessages.ts:1086-1161 | A tool start delivered again changes nothing exactly when it found no block or the text of its block stays. |
| Redelivery.DisplayStaysIff | app/src/state/chatMessages.ts:1086-1161 | The text stays exactly when, field by field in the order of display, no blank field hides a text that a later field would replace. |
| Redelivery.BlankFieldWitness | app/src/state/chatMessages.ts:1086-1161 | A block titled "a" with target "b" and a start with a blank title: the text is "a" first and "b" on redelivery. |
| Redelivery.InputTwiceIff | app/src/state/chatMessages.ts:885-960 | An input delta is absorbed when delivered again under exactly the same condition. |
| Redelivery.OutputTwice | app/src/state/chatMessages.ts:1003-1084 | An output delta is absorbed when delivered again, even without replay markers and whatever its presentation fields. |
| Redelivery.CompleteTwiceIff | app/src/state/chatMessages.ts:1163-1239 | A completed call delivered again changes nothing exactly when it found no block, or the first field that says something is the event's own, or one the event leaves out, or what is left behind a blank one, down to input, tool name and label, says the same. |
| Redelivery.BlankCompletedWitness | app/src/state/chatMessages.ts:1163-1239 | A completed call with a blank title over a block titled "a" with target "b" shows "a" first and "b" on redelivery. |
| Redelivery.FinishTwiceIff | app/src/state/chatMessages.ts:1241-1372 | A tool result delivered again changes nothing exactly when it found its block, or is an error with structured text, or, field by field, no blank field and no input summary that it does not carry itself hides a text that showed. |
| Redelivery.LostSummaryWitness | app/src/state/chatMessages.ts:1316-1362 | A result without a block and without blank fields: the stored input summary "a" shows first, the event's title "b" on redelivery. |
| Redelivery.ThinkingTwiceIff | app/src/state/chatMessages.ts:1490-1584 | A thinking update delivered again changes nothing exactly when its text is not streamed and the message does not differ from it in outer white space alone; streamed text is appended again, unless message and text both read as the label of the state. |
| Redelivery.RequestTwice | app/src/state/chatMessages.ts:1701-1759 | A repeated permission request changes nothing. |
| Redelivery.ResolveTwice | app/src/state/chatMessages.ts:1761-1854 | A repeated permission answer changes nothing, whether or not it may create its message. |
| Redelivery.SpecialTwice | app/src/state/chatMessages.ts:1913-1986 | A repeated special event finds its own message and leaves it as it is. |
| TextBlocks.TextSparesIff | app/src/state/chatMessages.ts:28-47 | On any list, a text delta leaves the sequence of tool, thinking and permission blocks exactly as it was if and only if the message it updates is none of them and none is dropped as the empty base message. |
| TextBlocks.NamedBlockIsWritten | app/src/state/chatMessages.ts:807-883 | A delta that names such a block does write into it. |
| GuardedBlocks.RunGuards | app/src/state/chatTraceReplay.ts:313-1026 | Every run keeps every such block under an id with one of the block prefixes, and nothing with such an id is a placeholder. |
| GuardedBlocks.GuardedTarget | app/src/state/chatMessages.ts:2216-2253 | In such lists only the message found under the delta's own id matters: streaming text it falls back to is never such a block. |
| GuardedBlocks.TextSparesAlways | app/src/state/chatMessages.ts:807-883 | At every moment of every replay, a text delta whose ids carry no block prefix leaves those blocks exactly as they were. |
| GuardedBlocks.TextEventSpares | app/src/state/chatTraceReplay.ts:313-1026 | The same for the message delta events of the replay itself. |
| MessageUpdates.FindAttachableAssistantMessageIndex | app/src/state/chatMessages.ts:2216-2253 | The backward loop finds the last attachable message. |
| MessageUpdates.RemoveAssistantThinkingMessage | app/src/state/chatMessages.ts:1644-1688 | The loop equals the specification `RemoveThinking`. |
| ThinkingIds.ThinkingSegmentIdFresh | app/src/state/chatMessages.ts:1418-1427 | The chosen thinking id does not occur in the list. |
| ThinkingIds.ThinkingSegmentIs | app/src/state/chatMessages.ts:1418-1427 | The first segment is named by the task, a later one by the least unused number from the count of the task's segments on. |
| ThinkingIds.AssistantThinkingSegmentId | app/src/state/chatMessages.ts:1418-1427 | The while loop takes at most as many turns as there are used segment ids ahead, and returns a fresh id. |
| BlockUpdates.StartKeeps | app/src/state/chatMessages.ts:1086-1161 | A tool start keeps one block per call and only makes sure the call has one. |
| BlockUpdates.InputKeepsIff | app/src/state/chatMessages.ts:885-960 | An input delta keeps one block per call exactly when the call's result is not in yet. |
| BlockUpdates.OutputKeeps | app/src/state/chatMessages.ts:962-1084 | An output delta goes into the one buffer of its call and stream; kind and markers stay. |
| BlockUpdates.CompleteKeeps | app/src/state/chatMessages.ts:1163-1239 | Completing a call keeps one block per call, its buffers and its markers. |
| BlockUpdates.FinishKeeps | app/src/state/chatMessages.ts:1241-1372 | A result turns the call's block into an activity with the matching id and keeps buffers and markers. |
| ToolOutcomes.TitleIs | app/src/state/chatMessages.ts:478-491 | A title is the first of displayTitle, inputSummary, target and displayTarget that says something, the event's own value before the stored one. |
| ToolOutcomes.CompletedContentIs | app/src/state/chatMessages.ts:1184-1184 | A completed call shows its title, else its input, else the tool's name, else the label. |
| ToolOutcomes.SummaryIs | app/src/state/chatMessages.ts:493-500 | The summary of a standalone result is the first of displaySummary, inputSummary and displayTitle that says something. |
| ToolOutcomes.StartDoes | app/src/state/chatMessages.ts:1086-1161 | A start shows its title, if it has one, keeps a settled block settled and lets any other stream; fields after it, all else unchanged. |
| ToolOutcomes.InputDoes | app/src/state/chatMessages.ts:885-960 | Input is merged into the raw input of the block, which streams and shows its title. |
| ToolOutcomes.OutputDoes | app/src/state/chatMessages.ts:962-1084 | Output goes into the buffer of its stream, and text, input and the other buffers stay. |
| ToolOutcomes.CompleteDoes | app/src/state/chatMessages.ts:1163-1239 | A completed call shows its title, else its input, its tool name or the label, and is settled as completed. |
| ToolOutcomes.ResultContentIs | app/src/state/chatMessages.ts:1262-1290 | What a result says is its trimmed summary, else the trimmed result summary, else the formatted content. |
| ToolOutcomes.FinishDoes | app/src/state/chatMessages.ts:1262-1328 | A failed result shows what it says, and the block's input only when it says nothing; a successful one shows the input first. Standalone results of the call go. |
| ToolOutcomes.FinishAloneDoes | app/src/state/chatMessages.ts:1329-1372 | Without a block a failed result shows its text before the summary, a successful one after it. |
| ToolOutcomes.CallLife | app/src/state/chatMessages.ts:885-1372 | A call started, fed any output and finished leaves one activity at the end, with what came for each stream, reading its title or, when it failed, what the result says. |
| PlainUpdates.TextKeepsIff | app/src/state/chatMessages.ts:807-883 | A text delta leaves the table of tool blocks alone exactly when its id is not that of a tool block and it drops no tool block as an empty base message. |
| PlainUpdates.CompletionKeepsIff | app/src/state/chatMessages.ts:2106-2187 | A message completion leaves the table alone exactly when it settles blocks of its message, finds nothing to write, or writes under an id that is not that of a tool block. |
| PlainUpdates.CompatKeepsIff | app/src/state/chatMessages.ts:2050-2104 | The same for completions in the older protocol, after they settled their task. |
| MessageOutcomes.CompletionDoes | app/src/state/chatMessages.ts:2106-2187 | A completion resolves the content from what was streamed and what it brings, in this order, and settles the message; it makes one only for text that is not blank. |
| MessageOutcomes.CompletionSettlesBlocks | app/src/state/chatMessages.ts:2106-2187 | A message of blocks is settled block by block, a failure kept. |
| MessageOutcomes.HasBlocksIff | app/src/state/chatMessages.ts:75-90 | A completion is of a message of blocks exactly when one of its session and task has its trimmed id, or that as its base, or it names none. |
| MessageOutcomes.CompatDoes | app/src/state/chatMessages.ts:2050-2104 | The older protocol settles what streams of the task before it completes the message. |
| PlainUpdates.ThinkingKeeps | app/src/state/chatMessages.ts:1490-1584 | Thinking updates leave the table alone; their new ids never look like tool ids. |
| MessageOutcomes.ThinkingTarget | app/src/state/chatMessages.ts:1490-1584 | The message an update continues: the first of its event, else the task's last message if that thinks and fits. |
| MessageOutcomes.ThinkingDoes | app/src/state/chatMessages.ts:1490-1584 | What the message says and knows after a thinking update. |
| MessageOutcomes.BoundaryDoes | app/src/state/chatMessages.ts:1644-1688 | A tool boundary drops mere statuses, settles what streams of the thinking, and leaves all else in its place. |
| PlainUpdates.StopKeepsIff | app/src/state/chatMessages.ts:2276-2304 | The end of a task leaves the table alone exactly when it drops no tool block as empty. |
| PlainUpdates.ResolveKeepsIff | app/src/state/chatMessages.ts:1761-1854 | A permission answer leaves the table alone exactly when its message is no placeholder and the call it names carries the replay markers of that message. |
| PlainUpdates.SpecialKeepsIff | app/src/state/chatMessages.ts:1913-1986 | A special event leaves the table alone exactly when the call it names carries the markers of the message it continues. |
| MessageOutcomes.RequestDoes | app/src/state/chatMessages.ts:1701-1759 | The message of a permission request, whose first time is kept. |
| MessageOutcomes.ResolveDoes | app/src/state/chatMessages.ts:1761-1854 | An answer settles its request as failed or completed, and makes the message only when it may and has something to show. |
| MessageOutcomes.ApprovalDoes | app/src/state/chatMessages.ts:1856-1911 | An approval settles exactly the computer use permissions with its id. |
| EventOutcomes.ApprovalLands | app/src/state/chatTraceReplay.ts:968-1026 | A replayed approval answers the computer use permissions that wait for it, whether or not the request has a message. |
| MessageOutcomes.SpecialDoes | app/src/state/chatMessages.ts:1913-1986 | A special event writes under its stable key over what is there, otherwise afresh. |
| MessageOutcomes.SpecialKindsApart | app/src/state/chatMessages.ts:1913-1986 | Special events of different kinds never write the same message. |
| MessageOutcomes.StopDoes | app/src/state/chatMessages.ts:2276-2304 | The end of a task stops its streaming assistant messages, a failure kept, and drops its blank ones. |
| PlainUpdates.HasMarkerIff | app/src/state/chatTraceReplay.ts:247-259 | A marker is found on a call's messages exactly when the call's block carries it. |
| PlainUpdates.MarkKeeps | app/src/state/chatTraceReplay.ts:261-279 | Marking adds the marker to the call's block and changes no other block. |
| ReplayBlocks.EventRefines | app/src/state/chatTraceReplay.ts:313-1026 | Replaying an admissible event changes the tool blocks exactly as the table machine says. |
| ReplayOutputs.EventEffect | app/src/state/chatTraceReplay.ts:609-712 | Replaying an event that ends no task folds its output into the first block of its call and marks it there, nothing when its markers are there already, and leaves output and markers of all other first blocks alone; late input, answers and special events included. |
| ReplayOutputs.TaskEndEffect | app/src/state/chatMessages.ts:2276-2304 | The end of a task empties exactly the calls whose first block it drops, and keeps output and markers of the others. |
| ExactlyOnce.OutputsExactIff | app/src/state/chatTraceReplay.ts:247-279 | For events with markers and ids of their own, repeated in any way: at every moment every output text is that of the distinct new outputs folded in once each, if and only if no end of a task drops a first block that holds output. |
| ExactlyOnce.TitledExact | app/src/state/chatMessages.ts:1086-1239 | That is so when, where a task ends, every call with output has been given a text to show: a condition on the starting list and the events. |
| ReplayRuns.TraceRefines | app/src/state/chatTraceReplay.ts:1028-1060 | An admissible replayed trace leaves exactly the tool blocks the machine computes from the applied events. |
| OneBlock.EventSplitsIff | app/src/state/chatTraceReplay.ts:609-712 | A shown event that brings input, not replayed before, for a call whose result is in leaves two blocks of that call; every other event whose text and completions carry no tool ids keeps one block per call. |
| OneBlock.OneBlockAlwaysIff | app/src/state/chatMessages.ts:885-1372 | A replay of events whose text and completions carry no tool ids has at every moment at most one block per call if and only if no applied event brings such late input. |
| OneBlock.IdsSayKinds | app/src/state/chatMessages.ts:1241-1372 | As long as none does, the id of every block says whether the call's result is in. |
| ReplayOutputs.OutputTextIsTheBlocks | app/src/state/chatMessages.ts:962-984 | The output text spoken of is that of the call's first block. |
| ReplayRuns.ReplaysApply | app/src/state/chatTraceReplay.ts:1028-1060 | A sequence of replays, of traces that may repeat or extend each other, is the sequence of the events their gates let through. |
| ReplayRuns.ReplaysApplyOnce | app/src/state/chatTraceReplay.ts:609-712 | Any sequence of replays folds every new output in exactly once, when every call has a text to show by the end of a task. |
| ReplayRuns.RepeatedReplaysApplyOnce | app/src/state/chatTraceReplay.ts:247-279 | Under conditions on the starting list and the trace alone, any number of replays of a trace leaves in every buffer what the first one put there. |
| ReplayRuns.RepeatedFromNothing | app/src/state/chatTraceReplay.ts:247-279 | The same from an empty transcript: ids of their own without colons, text and completions without tool ids, and calls titled in time are all that is asked of the trace. |
| DroppedOutput.DroppedOutputReturns | app/src/state/chatMessages.ts:2276-2304 | Output "1" without a title, end of the task, titled start, output "2": replayed once the stream reads "2", replayed twice "21". |
| ReplayRuns.DistinctIdsSeparate | app/src/state/chatTraceReplay.ts:247-249 | Distinct event ids without colons give every event markers of its own. |
| TraceReplay.ReplayTraceEventsToChatMessages | app/src/state/chatTraceReplay.ts:1028-1060 | The loop with its cancelled set folds the replay step over the trace's events, each once, in order of sequence, time and id. |
| ReplayOrder.SortInOrder | app/src/state/chatTraceReplay.ts:1039-1047 | Sorting for a replay orders the events by sequence, then time, then id, and loses none. |
| ReplayOrder.ShuffledReplay | app/src/state/chatTraceReplay.ts:1039-1047 | A trace with increasing sequence numbers is replayed in their order however it is shuffled. |
| EventOutcomes.EventLands | app/src/state/chatTraceReplay.ts:313-1026 | Every event that shows leaves the message it is about, with the event's own session, task and time; every other event leaves the list as it is. |
| CancelGate.ReplayGateIsTheRule | app/src/state/chatTraceReplay.ts:223-229 | The stateful filter drops an event if and only if its task was cancelled before and its type is not exempt. |
| CancelGate.BarredIff | app/src/state/chatTraceReplay.ts:223-229 | The rule in terms of events: dropped exactly when the task was cancelled earlier and the event is no cancellation, cancelled command or session update. |
| CancelGate.LiveDropsIff | app/src/hooks/useEventSubscription.ts:155-166 | The live gate in terms of events, with its own exemptions. |
| CancelGate.AdmittedAreSpared | app/src/state/chatTraceReplay.ts:1048-1057 | The events handed on are those the rule spares, in order. |
| CancelGate.LiveCancelledIff | app/src/hooks/useEventSubscription.ts:547-552 | A task is in the live set exactly when a cancellation of it stands without a later start or resume. |
| CancelGate.GatesAgreeIff | app/src/hooks/useEventSubscription.ts:155-166 | Outside task events and session.created the two gates differ on an event exactly when its task was reopened. |
| CancelGate.GatesAgree | app/src/hooks/useEventSubscription.ts:155-166 | They agree on every trace without a start or resume after a cancellation of the same task. |
| CancelGate.ResumedTaskDiverges | app/src/state/chatTraceReplay.ts:1049-1057 | Cancel, resume, message delta: dropped in replay, shown live. |
| CancellationFinal.EventStarts | app/src/state/chatTraceReplay.ts:313-1026 | Replaying an event starts streams of its own task only. |
| CancellationFinal.CancellationIsFinal | app/src/state/chatTraceReplay.ts:1028-1060 | Once a visible cancellation was replayed, no later state of the run has a streaming assistant message of that session and task. |
| TokenBuffer.FlushAppend | app/src/hooks/useEventSubscription.ts:121-132 | A flush applies what waits, behind everything applied before. |
| TokenBuffer.DiscardAppend | app/src/hooks/useEventSubscription.ts:134-141 | A discard drops exactly the waiting tokens of its task. |
| TokenBuffer.ClearAppend | app/src/App.tsx:425-431 | A clear drops everything that waits and nothing applied. |
| TokenBuffer.NothingReordered | app/src/App.tsx:425-444 | Applied and waiting tokens together are the queued ones that were not dropped, in order. |
| TokenBuffer.NothingLost | app/src/App.tsx:425-444 | Every queued token is applied, waiting or dropped, and only one of these. |
| TokenBuffer.AssistantTokens.QueueAssistantToken | app/src/hooks/useEventSubscription.ts:143-153 | Queues a non-empty token of any task and arms the timer; the timer is armed iff tokens wait, and a token of a task that is not cancelled keeps the invariant. |
| TokenBuffer.AssistantTokens.FlushPendingAssistantTokens | app/src/hooks/useEventSubscription.ts:121-132 | Hands all waiting tokens on and disarms the timer. |
| TokenBuffer.AssistantTokens.TimerFires | app/src/hooks/useEventSubscription.ts:149-152 | The timer callback keeps the invariant although it forgets the timer first. |
| TokenBuffer.AssistantTokens.OnEvent | app/src/hooks/useEventSubscription.ts:547-556 | Set update, discard and gate in their order: no waiting token ever belongs to a cancelled task, and the gate is the one of `CancelGate`. |
| TraceCache.MergeKeeps | app/src/App.tsx:76-87 | Merging a page of consistent records keeps exactly the newest records. |
| TraceCache.RememberKeeps | app/src/hooks/useEventSubscription.ts:452-486 | Remembering a live event keeps exactly the newest records, when the records seen are consistent. |
| TraceCache.CacheHoldsNewest | app/src/hooks/useTaskTrace.ts:65-75 | After any interleaving of live events, the merges of pages in the task view and on recovery, and clears, over consistent records, the cache holds the newest records seen since the last clear, in order, and what is missing is older than a full cache. |
| TraceCache.TraceCacheAgreesWithLog | app/src/App.tsx:76-87 | Over the same writes the cache is the last 50000 records of the complete log that they build without a bound. |
| TraceCache.CacheHoldsLastWritten | app/src/hooks/useEventSubscription.ts:452-486 | Whatever the records and the interleaving: the cache holds one record for each id, the one written last, with the view it was brought for. |
| TraceCache.MergeInOrder | app/src/App.tsx:76-87 | A merge leaves the records by time, and those of one time by sequence. |
| TraceCache.RememberInOrder | app/src/hooks/useEventSubscription.ts:452-486 | A new live record leaves them by sequence, those without one behind, and otherwise by time and id. |
| TracePaging.LoadSessionTraceEvents | app/src/App.tsx:458-493 | The loop returns exactly the first 500 * 100 events of a log that may grow meanwhile, or the pages read before a cancellation. |
| CommandTail.TailOfTail | app/src/hooks/useEventSubscription.ts:350-356 | Cutting a tail before appending loses nothing a later cut would keep. |
| CommandTail.CacheReflectsEvents | app/src/hooks/useEventSubscription.ts:395-450 | After any interleaving of events of many commands each entry holds the last 4000 code units of each whole stream, the first event's time, the last lifecycle event's status and end, and the command, working directory, fields and details the events merge to. |
| CommandTail.StatusIs | app/src/hooks/useEventSubscription.ts:358-393 | A lifecycle event gives the status it brings, or that of its type. |
| CommandTail.FieldIsLast | app/src/hooks/useEventSubscription.ts:395-450 | A field of an entry has the value of the last event that sets it. |
| RpcBridge.RunKeeps | app/src-tauri/src/lib.rs:496-562 | The invariant of the bridge holds after every interleaving of callers, pump and timeouts that issues at most 2^64 numbers. |
| RpcBridge.RunNumbers | app/src-tauri/src/lib.rs:484-517 | In every run, however long, the n-th call to take a number got n - 1 modulo 2^64, and the counter is the count of issued numbers modulo 2^64. |
| RpcBridge.SharedIdIff | app/src-tauri/src/lib.rs:514-517 | The i-th and the j-th request of any run share an id exactly when i and j agree modulo 2^64. |
| RpcBridge.IdsDistinctIff | app/src-tauri/src/lib.rs:514-517 | No two calls share a request id if and only if at most 2^64 numbers were issued. |
| RpcBridge.AnsweredByOwnFirstReply | app/src-tauri/src/lib.rs:1493-1557 | Up to 2^64 numbers, a call returns only the first reply carrying its own id that was read since it registered. |
| RpcBridge.ReturnsOnce | app/src-tauri/src/lib.rs:552-562 | What a call returned never changes afterwards. |
| RpcBridge.UnexpectedReplyDropped | app/src-tauri/src/lib.rs:1550-1554 | A reply nobody waits for changes nothing. |
| RpcBridge.DuplicatesAreUnexpected | app/src-tauri/src/lib.rs:1550-1554 | Up to 2^64 numbers, a call that has its reply, or has returned, is no longer pending, so late and duplicate replies find nobody. |
| RpcBridge.PendingIsUnanswered | app/src-tauri/src/lib.rs:496-562 | Up to 2^64 numbers, at every moment: the pending map has exactly the entries of calls in flight, or returned because their request could not be serialised, that have got no reply since they registered. |
| RpcBridge.PendingAtRest | app/src-tauri/src/lib.rs:496-562 | Up to 2^64 numbers, once all calls have returned: what is still pending is exactly the calls whose request failed to serialise and whose id got no reply. |
| RpcBridge.StdinInOrder | app/src-tauri/src/lib.rs:502-549 | Up to 2^64 numbers, requests appear on stdin in increasing order of their numbers. |
| RpcBridge.RequestsWritten | app/src-tauri/src/lib.rs:502-549 | Up to 2^64 numbers: the request of a call that waits, timed out or was answered is on stdin exactly once, that of a call before its write or that failed to serialise is not, and every number on stdin is that of a call that wrote. |
| RpcBridge.WaitingGetsReply | app/src-tauri/src/lib.rs:552-562 | Up to 2^64 numbers: a waiting call holds the first reply to it as soon as that is read, and then returns it; only without one it times out. |
| EventBus.StampsIncrease | runtime/src/local_agent_runtime/event_bus.py:29-35 | Sequence numbers and time stamps both increase strictly in lock order. |
| EventBus.StampsAreLeast | runtime/src/local_agent_runtime/event_bus.py:29-35 | The time stamps are the pointwise least strictly increasing positive sequence not below the inputs. |
| EventBus.StampsOrderPublications | runtime/src/local_agent_runtime/event_bus.py:29-35 | Under any interleaving of publishers numbers and times are distinct and order events the same way. |
| EventBus.EachSubscriberOnce | runtime/src/local_agent_runtime/event_bus.py:36-48 | Under any interleaving the calls made for a publication so far are the beginning of its snapshot, in order and each once, one for each response, whoever joins meanwhile; each sink is handed the event as the earlier responses, raises among them, left it. |
| EventBus.SequenceLeft | runtime/src/local_agent_runtime/event_bus.py:36-48 | The sequence number left is that of the last response that gives one, else the bus's own. |
| EventBus.IdLeft | runtime/src/local_agent_runtime/event_bus.py:36-48 | The id left is the last non-empty one a response gives, else the event's own. |
| EventBus.PublicationFixed | runtime/src/local_agent_runtime/event_bus.py:30-36 | Later steps never change the snapshot, the stamp or the place of a publication, and only add to its responses. |
| EventBus.Bus.Publish | runtime/src/local_agent_runtime/event_bus.py:29-48 | The stamp written, what each sink sees, and which persisted id and sequence remain, also when sinks raise. |
| FuzzyScore.GreedyStaysAhead | app/src-tauri/src/lib.rs:1754-1763 | The greedy match is never behind any other embedding. |
| FuzzyScore.GreedyIsBest | app/src-tauri/src/lib.rs:1754-1764 | Its gap total is minimal over all embeddings. |
| FuzzyScore.GapTotal | app/src-tauri/src/lib.rs:1754-1764 | The byte-offset loop stays on character boundaries, succeeds iff the query is a subsequence, and returns the least gap total. |
| FuzzyScore.WorkspaceSearchScore | app/src-tauri/src/lib.rs:1728-1765 | A file matches exactly when its name contains the query or the query is a subsequence of its path, and with the name at the end of the path exactly when the query is a subsequence of the path; the score's tiers and its least gap total. |
| FuzzyScore.PieceScoreIs | app/src-tauri/src/lib.rs:1734-1752 | The six tiers of a query found in one piece, by name and path. |
| FileSearch.FirstAreBest | app/src-tauri/src/lib.rs:2332-2343 | The kept matches are ordered by falling score and then by path, and no dropped one scores higher, or equal with an earlier path. |
| FileSearch.FilesIff | app/src-tauri/src/lib.rs:2268-2326 | The files of a tree are those that lie somewhere in it, down directories that can be read and are not skipped. |
| FileSearch.CountMatches | app/src-tauri/src/lib.rs:2268-2326 | The matches are exactly the scanned files the scorer gives a score, each with it and as often as it was scanned. |
| FileSearch.SearchCompleteIff | app/src-tauri/src/lib.rs:2268-2326 | The walk reads each reachable file of unskipped directories at most once, reads the lesser of their number and 20000, and reads all of them if and only if there are at most 20000. |
| FileSearch.SilentlyIncomplete | app/src-tauri/src/lib.rs:2283-2326 | A concrete tree whose root ends with its 20000th file: no entry of the open directory is left over, nothing matched, and yet a file that would match was not read. |
| FileSearch.ScanDirectory | app/src-tauri/src/lib.rs:2283-2326 | The loop over one directory equals the functional walk: entries read, directories pushed, candidates collected; it reports truncation exactly when entries of the directory are left unread. |
| FileSearch.WorkspaceFileSearch | app/src-tauri/src/lib.rs:2268-2352 | The search fails exactly when a matched file could not be read; otherwise it returns the best matches of the walk, reports truncation exactly when the open directory has unread entries or there are more matches than asked for, and has read every file if and only if there are at most 20000. |
| FileSearch.SearchFullTree | app/src-tauri/src/lib.rs:2268-2352 | On the tree of SilentlyIncomplete the search finds nothing, counts 20000 files and reports no truncation. |

## Left out

- Message ids are plain strings with the source's prefixes and prefix tests; `localeCompare` is any order given by a map from strings to reals, which covers every total preorder on ids.
- JavaScript strings are sequences of characters; the split into UTF-16 code units matters only for the command tails, where it is modelled.
- Payload parsing and display text: events carry the fields the reducers read, already parsed; whether text looks internal, the summaries, labels and formatted inputs are decided before the event is built.
- `resolveAssistantCompletionContent` is a parameter of message completion, any function of streamed and completed text.
- Tool group, phase and category fields of messages, which are copied and never tested.
- The request of an approval and the metadata of a special event are spread over a message's metadata (`app/src/state/chatMessages.ts:1856-1986`). The model keeps the fields its events name; a payload that also carries `toolUseId`, replay markers or block fields under their internal names could overwrite those.
- User messages, placeholders, backend confirmations and failed messages (`app/src/state/chatMessages.ts:565-762`), which touch neither markers nor blocks.
- The `yuanbao` overlay of events, chat visibility by routing rules (a predicate here), and child task detection (a set here).
- RefreshIdempotence.RefreshIdempotentIff: assumes that polled records become settled plain messages (no local prefix, no block metadata) and that streaming messages of the session have no sequence number yet.
- RefreshIdempotence.RefreshIdempotent: assumes the same.
- RefreshIdempotence.PollingSettles: assumes the same.
- RefreshIdempotence.LiveAfterPersisted: assumes that streaming messages have no sequence number yet.
- RefreshIdempotence.RefreshedIdsDistinctIff: assumes that current messages and shown records have distinct ids to begin with.
- GuardedBlocks.TextSparesAlways: assumes that the ids of the delta carry no block prefix; `TextSparesIff` covers those that do, in one list.
- ReplayBlocks.EventRefines: speaks of events that are admissible where they arrive: input not replayed before comes before its call's result (`InputKeepsIff`), and text, completions, task ends, answers and special events meet the exact conditions of the `PlainUpdates` rows. That an inadmissible event breaks the table is proved for each update, not for whole events, whose parts can repair one another.
- ReplayRuns.TraceRefines: assumes that every applied event is admissible at its turn.
- OneBlock.OneBlockAlwaysIff: starts from a list that is well-formed itself, as the empty one is, and assumes that text deltas and completions do not carry ids with a tool prefix; what one such delta or completion does is said by `TextKeepsIff` and `CompletionKeepsIff`.
- OneBlock.IdsSayKinds: assumes the same.
- OneBlock.EventSplitsIff: assumes the same of its event.
- ExactlyOnce.OutputsExactIff: assumes that text deltas and completions carry no ids with a tool prefix, that no two events share a marker, and that the starting list is well-formed, as the empty one is, and has the markers of an event either all on a block that holds output or nowhere.
- ExactlyOnce.TitledExact: assumes the same; the texts of completed calls and results are empty or not blank.
- ReplayRuns.ReplaysApplyOnce: assumes the same.
- ReplayRuns.RepeatedReplaysApplyOnce: assumes the same of the trace once; the iff of OutputsExactIff speaks of every moment, so a drop after which all goes on alike counts there.
- ReplayRuns.DistinctIdsSeparate: assumes event ids without colons.
- TokenBuffer.AssistantTokens.QueueAssistantToken: a token of a cancelled task is queued as the code does; only `OnEvent`, whose gate comes first, keeps such tokens out.
- TraceCache.MergeKeeps: assumes that at any moment the records seen have one content for each id and a sequence number of their own.
- TraceCache.RememberKeeps: assumes the same.
- TraceCache.CacheHoldsNewest: assumes the same.
- TraceCache.TraceCacheAgreesWithLog: assumes the same.
- RpcBridge.AnsweredByOwnFirstReply: assumes at most 2^64 issued numbers; beyond, ids repeat (`SharedIdIff`), and a new call takes the place of an older one with its id.
- RpcBridge.DuplicatesAreUnexpected: assumes the same.
- RpcBridge.PendingIsUnanswered: assumes the same.
- RpcBridge.PendingAtRest: assumes the same.
- RpcBridge.StdinInOrder: assumes the same.
- RpcBridge.RunKeeps: assumes at most 2^64 issued numbers. The bridge is modelled on values as a step system, one step for each lock section, rather than as an object; lock poisoning, process start and the contents of requests are not part of this model.
- The event pump's event and overlay channels, git, terminals and path resolution of the desktop shell.
- EventBus.Bus.Publish: sinks are given by their responses; a sink that publishes again is covered by the interleaved steps only.
- FileSearch.WorkspaceFileSearch: the directory tree does not change during the walk, and the scoring function is a parameter.
- FuzzyScore.WorkspaceSearchScore: lower-casing is any function on strings.
- TracePaging.LoadSessionTraceEvents: the server's pages follow its documented contract, and failed requests are not modelled.
- React state, rendering, tabs, toasts, providers, the SQLite store and the Python RPC server.
