/** The chat transcript's entities and the small classifiers every operation shares. */
module ChatMessages {
  import opened Seqs

  datatype Role = User | Assistant

  datatype MessageStatus = Streaming | Completed | Failed | Blocked | Cancelled

  /** metadata.kind. Custom holds the kinds no function of the model tests for. */
  datatype Kind =
    | AssistantText
    | ToolUse
    | ToolResult
    | ToolActivity
    | AssistantProgress
    | AssistantThinking
    | PermissionRequest
    | AskUserQuestion
    | ComputerUsePermissionRequest
    | ComputerUsePermission
    | OtherBlock(name: string)  // the remaining kinds isEphemeralChatBlockMessage lists
    | Custom(name: string)

  /** metadata.output: one buffer per stream. */
  datatype ToolOutput = ToolOutput(activity: string, stdout: string, stderr: string, result: string)

  /** The presentation fields toolPresentationMetadataFromPayload carries over. */
  datatype Presentation = Presentation(
    displayTitle: Option<string>,
    displaySummary: Option<string>,
    displayTarget: Option<string>,
    target: Option<string>,
    inputSummary: Option<string>)

  datatype Metadata = Metadata(
    kind: Option<Kind>,
    toolUseId: Option<string>,
    baseMessageId: Option<string>,
    contentBlockId: Option<string>,
    blockIndex: Option<int>,
    presentation: Presentation,
    rawInputText: Option<string>,
    inputText: Option<string>,
    output: Option<ToolOutput>,
    markers: seq<string>,
    requestId: Option<string>,
    approvalId: Option<string>,
    toolCallId: Option<string>,
    eventId: Option<string>,
    state: Option<string>,
    verb: Option<string>,
    source: Option<string>,
    transient: Option<bool>)

  datatype ChatMessage = ChatMessage(
    id: string,
    sessionId: string,
    taskId: string,
    role: Role,
    content: string,
    createdAt: int,
    updatedAt: int,
    streaming: bool,
    placeholder: bool,
    clientMessageId: Option<string>,
    status: Option<MessageStatus>,
    createdSeq: Option<int>,
    toolName: Option<string>,
    metadata: Metadata)

  const NO_PRESENTATION := Presentation(None, None, None, None, None)

  /** An absent metadata record and an empty one read the same. */
  const NO_METADATA := Metadata(None, None, None, None, None, NO_PRESENTATION,
                                None, None, None, [], None, None, None, None, None, None, None, None)

  predicate IsAssistantContentBlock(m: ChatMessage) {
    m.role == Assistant && (m.metadata.contentBlockId.Some? || m.metadata.baseMessageId.Some?)
  }

  predicate IsLocalPending(m: ChatMessage) {
    || m.taskId == "pending"
    || "user_" <= m.id
    || "assistant_pending_" <= m.id
    || "assistant_failed_" <= m.id
  }

  predicate IsEphemeralBlock(m: ChatMessage) {
    match m.metadata.kind
    case None => false
    case Some(AssistantText) => false
    case Some(Custom(_)) => false
    case Some(_) => true
  }

  predicate Truthy(s: Option<string>) {
    s.Some? && s.value != ""
  }

  /**
   localeCompare as a map from ids to reals: any total preorder on the countable
   set of strings has this form, so quantifying over it covers every locale.
   */
  type Collation = string -> real

  /** sortBySeqAndTime: negative, zero or positive like a JavaScript comparator. */
  function Compare(collation: Collation, left: ChatMessage, right: ChatMessage): real {
    if left.createdSeq.Some? && right.createdSeq.Some? && left.createdSeq.value != right.createdSeq.value then
      (left.createdSeq.value - right.createdSeq.value) as real
    else if left.createdSeq.Some? && right.createdSeq.None? then -1.0
    else if left.createdSeq.None? && right.createdSeq.Some? then 1.0
    else if left.createdAt != right.createdAt then (left.createdAt - right.createdAt) as real
    else collation(left.id) - collation(right.id)
  }

  /** The transcript order: left does not sort after right. */
  function Order(collation: Collation): (ChatMessage, ChatMessage) -> bool {
    (left, right) => Compare(collation, left, right) <= 0.0
  }
}
