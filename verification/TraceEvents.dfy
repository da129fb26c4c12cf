/**
 Runtime events as the transcript sees them: the payload fields the reducers read, already parsed.
 Whether text looks internal, or a tool is a control-flow one, is decided before the event is built:
 such parts are absent.
 */
module TraceEvents {
  import opened Seqs
  import opened ChatMessages
  import opened MessageUpdates
  import opened ToolBlocks

  datatype Visibility = ChatVisible | PanelVisible | TraceVisible | Unspecified

  datatype ToolInfo = ToolInfo(toolUseId: string, toolName: Option<string>, presentation: Presentation)

  datatype TextPart = TextPart(messageId: string, contentBlockId: Option<string>, blockIndex: Option<int>, text: string)

  datatype Chunk = Chunk(stream: Stream, delta: string)

  datatype OutputPart = OutputPart(tool: ToolInfo, chunk: Chunk)

  datatype TaskEnd = TaskFailed | TaskCancelled | TaskCompleted

  datatype CommandEnd = CommandCompleted | CommandFailed | CommandCancelled

  datatype Body =
    | ContentStart(start: Option<ToolInfo>)
    | ContentDelta(text: Option<TextPart>, tool: ToolInfo, input: Option<string>, output: Option<Chunk>)
    | ToolUseComplete(completed: Option<ToolInfo>, inputText: string)
    | ToolResultEvent(result: Option<ToolInfo>, info: ResultInfo)
    | ToolStarted(started: Option<ToolInfo>, arguments: Option<string>)
    | ToolFinished(finished: Option<ToolInfo>, outcome: ResultInfo)
    | ToolOutputEvent(toolChunk: Option<OutputPart>)
    | CommandStarted(command: Option<ToolInfo>)
    | CommandOutput(stream: string, commandChunk: Option<OutputPart>)
    | CommandFinished(how: CommandEnd, commandResult: Option<ToolInfo>, commandInfo: ResultInfo)
    | MessageDelta(delta: Option<TextPart>)
    | ThinkingEvent(thought: Option<string>, source: Option<string>)
    | ChatMessageComplete(compatId: string, compatContent: string)
    | MessageCompleted(completedId: string, completedContent: string)
    | PermissionRequested(request: Option<Permission>)
    | PermissionAnswered(answered: Option<Permission>)
    | SpecialOccurred(special: SpecialEvent)
    | QuestionAnswered(answer: Option<Answer>)
    | ApprovalResolved(approval: Option<Permission>)
    | TaskEnded(end: TaskEnd)
    | TaskStarted
    | TaskResumed
    | OtherTaskEvent
    | SessionCreated
    | SessionUpdated
    | AssistantToken(token: string)
    | OtherEvent

  datatype Event = Event(
    eventId: string,
    sessionId: string,
    taskId: string,
    sequence: int,
    ts: int,
    visibility: Visibility,
    suppressed: bool,   // the bridge asked not to show this event in the chat
    body: Body)

  /** event.type starts with "task." */
  predicate IsTaskEvent(b: Body) {
    b.TaskEnded? || b.TaskStarted? || b.TaskResumed? || b.OtherTaskEvent? || b.QuestionAnswered?
  }

  predicate IsToolEvent(b: Body) {
    || b.ContentStart? || b.ContentDelta? || b.ToolUseComplete? || b.ToolResultEvent? || b.ToolStarted?
    || b.ToolFinished? || b.ToolOutputEvent? || b.CommandStarted? || b.CommandOutput? || b.CommandFinished?
  }

  predicate IsMessageEvent(b: Body) {
    || b.MessageDelta? || b.ThinkingEvent? || b.ChatMessageComplete? || b.MessageCompleted? || b.TaskEnded?
  }

  predicate IsCancel(b: Body) {
    b == TaskEnded(TaskCancelled)
  }

  predicate IsRestart(b: Body) {
    b.TaskStarted? || b.TaskResumed?
  }

  predicate IsCommandCancel(b: Body) {
    b.CommandFinished? && b.how == CommandCancelled
  }

  /** The order in which a trace is replayed: sequence, time, id. */
  function CompareEvents(collation: Collation, left: Event, right: Event): real {
    if left.sequence != right.sequence then (left.sequence - right.sequence) as real
    else if left.ts != right.ts then (left.ts - right.ts) as real
    else collation(left.eventId) - collation(right.eventId)
  }

  function EventOrder(collation: Collation): (Event, Event) -> bool {
    (left, right) => CompareEvents(collation, left, right) <= 0.0
  }
}
