/** The transcript updates for tool calls: start, input, output, completion and result. */
module ToolBlocks {
  import opened Seqs
  import opened Text
  import opened ChatMessages
  import opened ContentDelta
  import opened MessageUpdates

  /** What every tool event says about the call it belongs to. */
  datatype ToolCall = ToolCall(
    toolUseId: string,
    toolName: Option<string>,
    presentation: Presentation,
    sessionId: string,
    taskId: string,
    now: int)

  datatype Stream = Activity | Stdout | Stderr | Preview

  const NO_OUTPUT := ToolOutput([], [], [], [])

  function ToolUseId(toolUseId: string): string {
    "tool_use:" + toolUseId
  }

  function ToolActivityId(toolUseId: string): string {
    "tool_activity:" + toolUseId
  }

  function ToolResultId(toolUseId: string): string {
    "tool_result:" + toolUseId
  }

  predicate IsToolBlock(m: ChatMessage) {
    m.metadata.kind == Some(ToolUse) || m.metadata.kind == Some(ToolActivity)
  }

  predicate IsBlockOf(m: ChatMessage, toolUseId: string) {
    IsToolBlock(m) && m.metadata.toolUseId == Some(toolUseId)
  }

  /** A tool_activity block stays one; everything else becomes a tool_use block. */
  function KeptKind(m: ChatMessage): Option<Kind> {
    if m.metadata.kind == Some(ToolActivity) then Some(ToolActivity) else Some(ToolUse)
  }

  function FirstText(texts: seq<string>): string {
    if texts == [] then "" else if texts[0] != "" then texts[0] else FirstText(texts[1..])
  }

  /** toolInputDisplayText */
  function InputDisplay(p: Presentation, current: Presentation): string {
    FirstText([TrimmedOr(p.displayTitle), TrimmedOr(current.displayTitle),
               TrimmedOr(p.inputSummary), TrimmedOr(current.inputSummary),
               TrimmedOr(p.target), TrimmedOr(current.target),
               TrimmedOr(p.displayTarget), TrimmedOr(current.displayTarget)])
  }

  /** toolDisplaySummary */
  function SummaryDisplay(p: Presentation, current: Presentation): string {
    FirstText([TrimmedOr(p.displaySummary), TrimmedOr(current.displaySummary),
               TrimmedOr(p.inputSummary), TrimmedOr(current.inputSummary),
               TrimmedOr(p.displayTitle), TrimmedOr(current.displayTitle)])
  }

  /** Fields all updates of an existing block write. */
  function BlockMetadata(meta: Metadata, kind: Option<Kind>, call: ToolCall): Metadata {
    meta.(kind := kind, toolUseId := Some(call.toolUseId),
    presentation := MergePresentation(call.presentation, meta.presentation))
  }

  function NewBlock(call: ToolCall, content: string, status: MessageStatus, meta: Metadata): ChatMessage {
    ChatMessage(ToolUseId(call.toolUseId), call.sessionId, call.taskId, Assistant, content, call.now, call.now,
                status == Streaming, false, None, Some(status), None, call.toolName,
                BlockMetadata(meta, Some(ToolUse), call))
  }

  // ---- Start ---------------------------------------------------------------------

  function StartTarget(toolUseId: string): ChatMessage -> bool {
    (m: ChatMessage) => m.id == ToolUseId(toolUseId) || IsBlockOf(m, toolUseId)
  }

  predicate Terminal(status: Option<MessageStatus>) {
    status in {Some(Completed), Some(Failed), Some(Blocked), Some(Cancelled)}
  }

  function StartMetadata(meta: Metadata, input: Option<string>, display: string): Metadata {
    meta.(
      rawInputText := if input.Some? then input else meta.rawInputText,
      inputText := if display != "" then Some(display) else meta.inputText)
  }

  function Started(m: ChatMessage, call: ToolCall, input: Option<string>): ChatMessage {
    var display := InputDisplay(call.presentation, m.metadata.presentation);
    m.(
      taskId := call.taskId,
      content := if display != "" then display else m.content,
      updatedAt := call.now,
      streaming := if Terminal(m.status) then m.streaming else true,
      status := if Terminal(m.status) then m.status else Some(Streaming),
      toolName := Or(call.toolName, m.toolName),
      metadata := StartMetadata(BlockMetadata(m.metadata, KeptKind(m), call), input, display))
  }

  function StartedNew(call: ToolCall, input: Option<string>): ChatMessage {
    var display := InputDisplay(call.presentation, NO_PRESENTATION);
    NewBlock(call, display, Streaming, StartMetadata(NO_METADATA, input, display))
  }

  /** appendOrUpdateAssistantToolStartMessage; input is the formatted input when the event has one. */
  function StartTool(ms: seq<ChatMessage>, call: ToolCall, input: Option<string>): seq<ChatMessage> {
    var i := FindIndex(StartTarget(call.toolUseId), ms);
    Upsert(ms, i, if i >= 0 then Started(ms[i], call, input) else StartedNew(call, input))
  }

  // ---- Input -----------------------------------------------------------------------

  function RawInput(meta: Metadata): string {
    if meta.rawInputText.Some? then meta.rawInputText.value else ""
  }

  function WithInput(m: ChatMessage, call: ToolCall, delta: string): ChatMessage {
    var display := InputDisplay(call.presentation, m.metadata.presentation);
    m.(
      taskId := call.taskId,
      content := if display != "" then display else m.content,
      updatedAt := call.now, streaming := true, placeholder := false, status := Some(Streaming),
      toolName := Or(call.toolName, m.toolName),
      metadata := StartMetadata(BlockMetadata(m.metadata, Some(ToolUse), call),
                                Some(AppendDelta(RawInput(m.metadata), delta)), display))
  }

  function InputNew(call: ToolCall, delta: string): ChatMessage {
    var display := InputDisplay(call.presentation, NO_PRESENTATION);
    NewBlock(call, display, Streaming, StartMetadata(NO_METADATA, Some(TrimStart(AppendDelta("", delta))), display))
  }

  /** appendOrUpdateAssistantToolInputDelta, which looks the block up by its tool_use id alone. */
  function AppendToolInput(ms: seq<ChatMessage>, call: ToolCall, delta: string): seq<ChatMessage> {
    var i := FindIndex(HasId(ToolUseId(call.toolUseId)), ms);
    Upsert(ms, i, if i >= 0 then WithInput(ms[i], call, delta) else InputNew(call, delta))
  }

  // ---- Output ------------------------------------------------------------------------

  function OutputTarget(toolUseId: string): ChatMessage -> bool {
    (m: ChatMessage) => m.id == ToolUseId(toolUseId) || m.id == ToolActivityId(toolUseId) || IsBlockOf(m, toolUseId)
  }

  /** appendToolOutputDelta: the delta goes into the buffer of its stream. */
  function AppendOutput(o: ToolOutput, stream: Stream, delta: string): ToolOutput {
    match stream
    case Activity => o.(activity := AppendDelta(o.activity, delta))
    case Stdout => o.(stdout := AppendDelta(o.stdout, delta))
    case Stderr => o.(stderr := AppendDelta(o.stderr, delta))
    case Preview => o.(result := AppendDelta(o.result, delta))
  }

  function OutputOf(m: ChatMessage): ToolOutput {
    if m.metadata.output.Some? then m.metadata.output.value else NO_OUTPUT
  }

  function WithOutput(m: ChatMessage, call: ToolCall, stream: Stream, delta: string): ChatMessage {
    m.(
      taskId := call.taskId,
      updatedAt := call.now, streaming := true, placeholder := false, status := Some(Streaming),
      toolName := Or(call.toolName, m.toolName),
      metadata := BlockMetadata(m.metadata, KeptKind(m), call).(output := Some(AppendOutput(OutputOf(m), stream, delta))))
  }

  function OutputNew(call: ToolCall, stream: Stream, delta: string): ChatMessage {
    NewBlock(call, "", Streaming, NO_METADATA.(output := Some(AppendOutput(NO_OUTPUT, stream, delta))))
  }

  /** appendOrUpdateAssistantToolOutputDelta */
  function AppendToolOutput(ms: seq<ChatMessage>, call: ToolCall, stream: Stream, delta: string): seq<ChatMessage> {
    var i := FindIndex(OutputTarget(call.toolUseId), ms);
    Upsert(ms, i, if i >= 0 then WithOutput(ms[i], call, stream, delta) else OutputNew(call, stream, delta))
  }

  // ---- Completion of the call ------------------------------------------------------------

  function CompleteTarget(toolUseId: string): ChatMessage -> bool {
    (m: ChatMessage) =>
      m.id == ToolUseId(toolUseId) || (m.metadata.kind == Some(ToolActivity) && m.metadata.toolUseId == Some(toolUseId))
  }

  const TOOL_CALL_LABEL := "工具调用"

  function CompletedContent(call: ToolCall, current: Presentation, input: string): string {
    FirstText([InputDisplay(call.presentation, current), input, if call.toolName.Some? then call.toolName.value else "",
               TOOL_CALL_LABEL])
  }

  function CompletedMetadata(meta: Metadata, content: string, input: string): Metadata {
    meta.(inputText := Some(content), rawInputText := Some(input))
  }

  function CompletedCall(m: ChatMessage, call: ToolCall, input: string): ChatMessage {
    var content := CompletedContent(call, m.metadata.presentation, input);
    m.(
      taskId := call.taskId, content := content, updatedAt := call.now,
      streaming := false, placeholder := false, status := Some(Completed), toolName := call.toolName,
      metadata := CompletedMetadata(BlockMetadata(m.metadata, KeptKind(m), call), content, input))
  }

  function CompletedNew(call: ToolCall, input: string): ChatMessage {
    var content := CompletedContent(call, NO_PRESENTATION, input);
    NewBlock(call, content, Completed, CompletedMetadata(NO_METADATA, content, input))
  }

  /** completeAssistantToolUseMessage; input is the formatted input. */
  function CompleteTool(ms: seq<ChatMessage>, call: ToolCall, input: string): seq<ChatMessage> {
    var i := FindIndex(CompleteTarget(call.toolUseId), ms);
    Upsert(ms, i, if i >= 0 then CompletedCall(ms[i], call, input) else CompletedNew(call, input))
  }

  // ---- Result ------------------------------------------------------------------------------

  datatype ResultInfo = ResultInfo(
    isError: bool,
    status: MessageStatus,           // as given, or failed or completed after isError
    resultSummary: Option<string>,
    formattedContent: string,        // formatToolResultSummary of the raw content
    structuredText: string)          // the structured result's text

  function BlockOf(toolUseId: string): ChatMessage -> bool {
    (m: ChatMessage) => IsBlockOf(m, toolUseId)
  }

  function ResultContent(call: ToolCall, r: ResultInfo): string {
    FirstText([TrimmedOr(call.presentation.displaySummary), TrimmedOr(r.resultSummary), r.formattedContent])
  }

  function WithResult(m: ChatMessage, call: ToolCall, r: ResultInfo): ChatMessage {
    var content := ResultContent(call, r);
    var input := if m.metadata.inputText.Some? then m.metadata.inputText.value else m.content;
    m.(
      id := ToolActivityId(call.toolUseId),
      taskId := call.taskId,
      content := if r.isError then FirstText([content, input]) else FirstText([input, content]),
      updatedAt := call.now, streaming := false, placeholder := false, status := Some(r.status),
      toolName := Or(call.toolName, m.toolName),
      metadata := BlockMetadata(m.metadata, Some(ToolActivity), call).(inputText := Some(input)))
  }

  /** The elements but those with the given id, sparing position keep. */
  function WithoutId(ms: seq<ChatMessage>, keep: int, id: string): seq<ChatMessage> {
    if ms == [] then []
    else
      var last := |ms| - 1;
      WithoutId(ms[..last], keep, id) + if last == keep || ms[last].id != id then [ms[last]] else []
  }

  /** A result without a block stands alone; its metadata starts afresh but for the presentation. */
  function ResultMessage(call: ToolCall, r: ResultInfo, previous: Option<ChatMessage>): ChatMessage {
    var current := if previous.Some? then previous.value.metadata.presentation else NO_PRESENTATION;
    var summary := SummaryDisplay(call.presentation, current);
    ChatMessage(ToolResultId(call.toolUseId), call.sessionId, call.taskId, Assistant,
                if r.isError then FirstText([r.structuredText, summary]) else FirstText([summary, r.structuredText]),
                if previous.Some? then previous.value.createdAt else call.now, call.now,
                false, false, None, Some(r.status), None, call.toolName,
                NO_METADATA.(kind := Some(ToolResult), toolUseId := Some(call.toolUseId),
                presentation := MergePresentation(call.presentation, current).(target := call.presentation.target,
                inputSummary := call.presentation.inputSummary)))
  }

  /** appendAssistantToolResultMessage */
  function FinishTool(ms: seq<ChatMessage>, call: ToolCall, r: ResultInfo): seq<ChatMessage> {
    var block := FindIndex(BlockOf(call.toolUseId), ms);
    if block >= 0 then
      WithoutId(ms[block := WithResult(ms[block], call, r)], block, ToolResultId(call.toolUseId))
    else
      var i := FindIndex(HasId(ToolResultId(call.toolUseId)), ms);
      Upsert(ms, i, ResultMessage(call, r, if i >= 0 then Some(ms[i]) else None))
  }
}
