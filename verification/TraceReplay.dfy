/** Rebuilding the transcript from recorded trace events. */
module TraceReplay {
  import opened Seqs
  import opened StableSort
  import opened Text
  import opened ChatMessages
  import opened MessageUpdates
  import opened ToolBlocks
  import opened TraceEvents
  import opened ReplayOrder

  /** What a replay depends on besides its events. */
  datatype Environment = Environment(childTaskIds: set<string>, resolve: Resolver)

  // ---- Replay markers --------------------------------------------------------------

  function Marker(e: Event, part: string): string {
    e.eventId + ":" + part
  }

  function Marked(toolUseId: string, marker: string): ChatMessage -> bool {
    (m: ChatMessage) => m.metadata.toolUseId == Some(toolUseId) && marker in m.metadata.markers
  }

  /** hasToolReplayMarker */
  predicate HasMarker(ms: seq<ChatMessage>, toolUseId: string, marker: string) {
    FindIndex(Marked(toolUseId, marker), ms) >= 0
  }

  function WithMarker(toolUseId: string, marker: string): ChatMessage -> ChatMessage {
    (m: ChatMessage) =>
      if m.metadata.toolUseId != Some(toolUseId) || marker in m.metadata.markers then m
      else m.(metadata := m.metadata.(markers := m.metadata.markers + [marker]))
  }

  /** markToolReplayMarker */
  function MarkTool(ms: seq<ChatMessage>, toolUseId: string, marker: string): seq<ChatMessage> {
    Map(WithMarker(toolUseId, marker), ms)
  }

  // ---- Single events ------------------------------------------------------------------

  function CallOf(e: Event, tool: ToolInfo): ToolCall {
    ToolCall(tool.toolUseId, tool.toolName, tool.presentation, e.sessionId, e.taskId, e.ts)
  }

  /** Tool events first close the task's thinking. */
  function Closed(ms: seq<ChatMessage>, e: Event): seq<ChatMessage> {
    RemoveThinking(ms, e.sessionId, e.taskId, e.ts)
  }

  function DeltaOf(e: Event, part: TextPart): TextDelta {
    TextDelta(if Trim(part.messageId) != "" then part.messageId else "assistant_" + e.taskId,
              part.contentBlockId, part.blockIndex, e.sessionId, e.taskId, part.text, e.ts)
  }

  function ReplayText(ms: seq<ChatMessage>, e: Event, part: Option<TextPart>): seq<ChatMessage> {
    if part.Some? then AppendTextDelta(ms, DeltaOf(e, part.value)) else ms
  }

  /** A content delta without a tool id belongs to the task's pending call. */
  function ContentTool(e: Event, tool: ToolInfo): ToolInfo {
    if tool.toolUseId != "" then tool else tool.(toolUseId := "pending_" + e.taskId)
  }

  function InputMarker(e: Event): string {
    Marker(e, "toolInput")
  }

  function ReplayInput(ms: seq<ChatMessage>, e: Event, tool: ToolInfo, delta: string): seq<ChatMessage> {
    if HasMarker(ms, tool.toolUseId, InputMarker(e)) then ms
    else MarkTool(AppendToolInput(Closed(ms, e), CallOf(e, tool), delta), tool.toolUseId, InputMarker(e))
  }

  function ReplayOutput(ms: seq<ChatMessage>, e: Event, tool: ToolInfo, chunk: Chunk, marker: string): seq<ChatMessage> {
    if HasMarker(ms, tool.toolUseId, marker) then ms
    else MarkTool(AppendToolOutput(Closed(ms, e), CallOf(e, tool), chunk.stream, chunk.delta), tool.toolUseId, marker)
  }

  function OutputMarker(e: Event): string {
    Marker(e, "toolOutput")
  }

  function CommandMarker(e: Event, stream: string): string {
    Marker(e, "commandOutput:" + stream)
  }

  /** The tool parts of a content delta; an input delta that was replayed before ends the event. */
  function ReplayToolParts(ms: seq<ChatMessage>, e: Event, tool: ToolInfo, input: Option<string>, output: Option<Chunk>)
    : seq<ChatMessage>
  {
    if input.Some? && HasMarker(ms, tool.toolUseId, InputMarker(e)) then ms
    else
      var fed := if input.Some? then ReplayInput(ms, e, tool, input.value) else ms;
      if output.Some? then ReplayOutput(fed, e, tool, output.value, OutputMarker(e)) else fed
  }

  function ReplayContentDelta(ms: seq<ChatMessage>, e: Event, text: Option<TextPart>, tool: ToolInfo,
                              input: Option<string>, output: Option<Chunk>): seq<ChatMessage>
  {
    ReplayToolParts(ReplayText(ms, e, text), e, ContentTool(e, tool), input, output)
  }

  function ReplayStart(ms: seq<ChatMessage>, e: Event, tool: Option<ToolInfo>, input: Option<string>): seq<ChatMessage> {
    if tool.Some? then StartTool(Closed(ms, e), CallOf(e, tool.value), input) else ms
  }

  function ReplayResult(ms: seq<ChatMessage>, e: Event, tool: Option<ToolInfo>, info: ResultInfo): seq<ChatMessage> {
    if tool.Some? then FinishTool(Closed(ms, e), CallOf(e, tool.value), info) else ms
  }

  function ReplayChunk(ms: seq<ChatMessage>, e: Event, chunk: Option<OutputPart>, marker: string): seq<ChatMessage> {
    if chunk.Some? then ReplayOutput(ms, e, chunk.value.tool, chunk.value.chunk, marker) else ms
  }

  function CompletionOf(e: Event, messageId: string, content: string): Completion {
    Completion(messageId, e.sessionId, e.taskId, content, e.ts)
  }

  function ThoughtOf(e: Event, text: Option<string>, source: Option<string>): ThinkingUpdate {
    ThinkingUpdate(e.sessionId, e.taskId, e.eventId, Some("thinking"), None, text, source, None, e.ts)
  }

  /** The envelope of an event decides the session, task and time of what it writes; a replayed answer may create its message. */
  function PermissionOf(e: Event, p: Permission): Permission {
    p.(createIfMissing := true, sessionId := e.sessionId, taskId := e.taskId, now := e.ts)
  }

  function SpecialOf(e: Event, s: SpecialEvent): SpecialEvent {
    s.(eventId := e.eventId, sessionId := e.sessionId, taskId := e.taskId, now := e.ts)
  }

  function ReplayPermission(ms: seq<ChatMessage>, e: Event, p: Option<Permission>): seq<ChatMessage> {
    if p.Some? then RequestPermission(Closed(ms, e), PermissionOf(e, p.value)) else ms
  }

  function ReplayPermissionAnswer(ms: seq<ChatMessage>, e: Event, p: Option<Permission>): seq<ChatMessage> {
    if p.Some? then ResolvePermission(ms, PermissionOf(e, p.value)) else ms
  }

  function ReplayApproval(ms: seq<ChatMessage>, e: Event, p: Option<Permission>): seq<ChatMessage> {
    if p.Some? then
      ResolveApproval(ResolvePermission(ms, PermissionOf(e, p.value)), p.value.requestId, p.value.rejected, e.ts)
    else ms
  }

  function ReplaySpecial(ms: seq<ChatMessage>, e: Event, s: SpecialEvent): seq<ChatMessage> {
    AppendSpecial(if s.kind == AskUser || s.kind == ComputerUse then Closed(ms, e) else ms, SpecialOf(e, s))
  }

  function ReplayCompleted(env: Environment, ms: seq<ChatMessage>, e: Event, messageId: string, content: string)
    : seq<ChatMessage>
  {
    Closed(if Trim(messageId) == "" then ms else CompleteMessage(env.resolve, ms, CompletionOf(e, messageId, content)), e)
  }

  function ReplayCompat(env: Environment, ms: seq<ChatMessage>, e: Event, messageId: string, content: string)
    : seq<ChatMessage>
  {
    Closed(CompleteChatCompat(env.resolve, ms, CompletionOf(e, messageId, content)), e)
  }

  function ReplayToolUse(ms: seq<ChatMessage>, e: Event, tool: Option<ToolInfo>, input: string): seq<ChatMessage> {
    if tool.Some? then CompleteTool(Closed(ms, e), CallOf(e, tool.value), input) else ms
  }

  function ReplayAnswer(ms: seq<ChatMessage>, e: Event, a: Option<Answer>): seq<ChatMessage> {
    if a.Some? then AnswerQuestion(ms, a.value.(now := e.ts)) else ms
  }

  function ReplayTaskEnd(ms: seq<ChatMessage>, e: Event): seq<ChatMessage> {
    Closed(StopStreaming(ms, e.sessionId, e.taskId), e)
  }

  // replayTraceEvent once the event is known to show in the chat, in three parts.

  function ApplyTool(ms: seq<ChatMessage>, e: Event): seq<ChatMessage> {
    match e.body
    case ContentStart(tool) => ReplayStart(ms, e, tool, None)
    case ContentDelta(text, tool, input, output) => ReplayContentDelta(ms, e, text, tool, input, output)
    case ToolUseComplete(tool, input) => ReplayToolUse(ms, e, tool, input)
    case ToolResultEvent(tool, info) => ReplayResult(ms, e, tool, info)
    case ToolStarted(tool, arguments) => ReplayStart(ms, e, tool, arguments)
    case ToolFinished(tool, info) => ReplayResult(ms, e, tool, info)
    case ToolOutputEvent(chunk) => ReplayChunk(ms, e, chunk, OutputMarker(e))
    case CommandStarted(tool) => ReplayStart(ms, e, tool, None)
    case CommandOutput(stream, chunk) => ReplayChunk(ms, e, chunk, CommandMarker(e, stream))
    case CommandFinished(_, tool, info) => ReplayResult(ms, e, tool, info)
    case _ => ms
  }

  function ApplyMessage(env: Environment, ms: seq<ChatMessage>, e: Event): seq<ChatMessage> {
    match e.body
    case MessageDelta(text) => ReplayText(ms, e, text)
    case ThinkingEvent(text, source) => UpdateThinking(ms, ThoughtOf(e, text, source))
    case ChatMessageComplete(id, content) => ReplayCompat(env, ms, e, id, content)
    case MessageCompleted(id, content) => ReplayCompleted(env, ms, e, id, content)
    case TaskEnded(_) => ReplayTaskEnd(ms, e)
    case _ => ms
  }

  function ApplyNotice(ms: seq<ChatMessage>, e: Event): seq<ChatMessage> {
    match e.body
    case PermissionRequested(p) => ReplayPermission(ms, e, p)
    case PermissionAnswered(p) => ReplayPermissionAnswer(ms, e, p)
    case SpecialOccurred(s) => ReplaySpecial(ms, e, s)
    case QuestionAnswered(a) => ReplayAnswer(ms, e, a)
    case ApprovalResolved(p) => ReplayApproval(ms, e, p)
    case _ => ms
  }

  function Apply(env: Environment, ms: seq<ChatMessage>, e: Event): seq<ChatMessage> {
    if IsToolEvent(e.body) then ApplyTool(ms, e)
    else if IsMessageEvent(e.body) then ApplyMessage(env, ms, e)
    else ApplyNotice(ms, e)
  }

  /** isReplayChatVisibleEvent */
  predicate Visible(env: Environment, e: Event) {
    match e.visibility
    case ChatVisible => true
    case PanelVisible => false
    case TraceVisible => false
    case Unspecified => e.taskId !in env.childTaskIds
  }

  predicate Shows(env: Environment, e: Event) {
    !e.suppressed && Visible(env, e)
  }

  /** replayTraceEvent */
  function ReplayEvent(env: Environment, ms: seq<ChatMessage>, e: Event): seq<ChatMessage> {
    if Shows(env, e) then Apply(env, ms, e) else ms
  }

  // ---- Whole traces ---------------------------------------------------------------------

  /** shouldSuppressCancelledTaskReplayEvent */
  predicate ReplayDrops(e: Event, cancelled: set<string>) {
    && e.taskId != "" && e.taskId in cancelled
    && !IsCancel(e.body) && !IsCommandCancel(e.body) && !e.body.SessionUpdated?
  }

  /** How an event that is not dropped changes the set of cancelled tasks. */
  function CancelledAfter(e: Event, cancelled: set<string>): set<string> {
    if e.taskId != "" && IsCancel(e.body) then cancelled + {e.taskId}
    else if e.taskId != "" && IsRestart(e.body) then cancelled - {e.taskId}
    else cancelled
  }

  datatype ReplayState = ReplayState(messages: seq<ChatMessage>, cancelled: set<string>)

  function ReplayStep(env: Environment, s: ReplayState, e: Event): ReplayState {
    if ReplayDrops(e, s.cancelled) then s
    else ReplayState(ReplayEvent(env, s.messages, e), CancelledAfter(e, s.cancelled))
  }

  /** The state after the events es, which are in replay order. */
  function ReplayAll(env: Environment, s: ReplayState, es: seq<Event>): ReplayState {
    if es == [] then s else ReplayStep(env, ReplayAll(env, s, es[..|es| - 1]), es[|es| - 1])
  }

  lemma NothingSorted(collation: Collation)
    ensures Sort(EventOrder(collation), []) == []
  {
  }

  /**
   replayTraceEventsToChatMessages: the fold over the trace's events, each once, in order of sequence, time
   and id. A trace with increasing sequence numbers is replayed in their order however it is shuffled.
   */
  method ReplayTraceEventsToChatMessages(env: Environment, collation: Collation, current: seq<ChatMessage>, traces: seq<Event>)
    returns (messages: seq<ChatMessage>)
    ensures messages == ReplayAll(env, ReplayState(current, {}), Sort(EventOrder(collation), traces)).messages
    ensures InOrder(collation, Sort(EventOrder(collation), traces)) && multiset(Sort(EventOrder(collation), traces)) == multiset(traces)
    ensures forall es | Increasing(es) && multiset(es) == multiset(traces) ::
              messages == ReplayAll(env, ReplayState(current, {}), es).messages
  {
    hide Sort, InOrder, Increasing;
    SortInOrder(collation, traces);
    forall es | Increasing(es) && multiset(es) == multiset(traces) ensures Sort(EventOrder(collation), traces) == es {
      ShuffledReplay(collation, es, traces);
    }
    if traces == [] {
      NothingSorted(collation);
      return current;
    }
    messages := current;
    var cancelledTaskIds: set<string> := {};
    var sorted := Sort(EventOrder(collation), traces);
    for i := 0 to |sorted|
      invariant ReplayState(messages, cancelledTaskIds) == ReplayAll(env, ReplayState(current, {}), sorted[..i])
    {
      assert sorted[..i + 1][..i] == sorted[..i];
      var event := sorted[i];
      if ReplayDrops(event, cancelledTaskIds) {
        continue;
      }
      messages := ReplayEvent(env, messages, event);
      if event.taskId != "" && IsCancel(event.body) {
        cancelledTaskIds := cancelledTaskIds + {event.taskId};
      } else if event.taskId != "" && IsRestart(event.body) {
        cancelledTaskIds := cancelledTaskIds - {event.taskId};
      }
    }
    assert sorted[..|sorted|] == sorted;
  }
}
