/** The transcript updates for text, thinking, permission and task events. */
module MessageUpdates {
  import opened Seqs
  import opened Text
  import opened Numerals
  import opened ChatMessages
  import opened ContentDelta
  import opened ThinkingIds

  // ---- List helpers --------------------------------------------------------------

  /** Array.findIndex: the first position satisfying p, or -1. */
  function FindIndex(p: ChatMessage -> bool, ms: seq<ChatMessage>): (i: int)
    ensures -1 <= i < |ms|
    ensures i >= 0 ==> p(ms[i])
    ensures forall j :: 0 <= j < (if i >= 0 then i else |ms|) ==> !p(ms[j])
  {
    if ms == [] then -1
    else if p(ms[0]) then 0
    else
      var i := FindIndex(p, ms[1..]);
      if i < 0 then -1 else i + 1
  }

  /** The last position satisfying p, or -1: the loops that search backwards. */
  function FindLastIndex(p: ChatMessage -> bool, ms: seq<ChatMessage>): (i: int)
    ensures -1 <= i < |ms|
    ensures i >= 0 ==> p(ms[i])
    ensures forall j :: i < j < |ms| ==> !p(ms[j])
  {
    if ms == [] then -1
    else if p(ms[|ms| - 1]) then |ms| - 1
    else FindLastIndex(p, ms[..|ms| - 1])
  }

  /** Array.map. */
  function Map(f: ChatMessage -> ChatMessage, ms: seq<ChatMessage>): (r: seq<ChatMessage>)
    ensures |r| == |ms|
    ensures forall i :: 0 <= i < |ms| ==> r[i] == f(ms[i])
  {
    if ms == [] then [] else [f(ms[0])] + Map(f, ms[1..])
  }

  /** Overwrites position i, or appends when there is none. */
  function Upsert(ms: seq<ChatMessage>, i: int, m: ChatMessage): seq<ChatMessage>
    requires i < |ms|
  {
    if i >= 0 then ms[i := m] else ms + [m]
  }

  function HasId(id: string): ChatMessage -> bool {
    (m: ChatMessage) => m.id == id
  }

  // ---- Assistant text ---------------------------------------------------------------

  predicate IsTextStreamTarget(m: ChatMessage) {
    m.metadata.kind.None? || m.metadata.kind == Some(AssistantText) || m.placeholder || "assistant_pending_" <= m.id
  }

  function AsTextMessage(m: ChatMessage): ChatMessage {
    if m.metadata.kind.None? || m.metadata.kind == Some(AssistantText) || m.metadata.kind == Some(Custom("")) then m
    else m.(metadata := m.metadata.(kind := None))
  }

  predicate Attachable(m: ChatMessage, sessionId: string, taskId: string) {
    && m.role == Assistant && m.sessionId == sessionId && m.streaming
    && IsTextStreamTarget(m)
    && (taskId == "" || m.taskId == taskId || m.taskId == "pending")
    && (m.placeholder || m.taskId == "pending" || "assistant_pending_" <= m.id || m.status == Some(Streaming))
  }

  function AttachableTo(sessionId: string, taskId: string): ChatMessage -> bool {
    (m: ChatMessage) => Attachable(m, sessionId, taskId)
  }

  /** findAttachableAssistantMessageIndex */
  function AttachIndex(ms: seq<ChatMessage>, sessionId: string, taskId: string): (i: int)
    ensures -1 <= i < |ms|
    ensures i >= 0 ==> Attachable(ms[i], sessionId, taskId)
  {
    if sessionId == "" then -1 else FindLastIndex(AttachableTo(sessionId, taskId), ms)
  }

  method FindAttachableAssistantMessageIndex(ms: seq<ChatMessage>, sessionId: string, taskId: string)
    returns (index: int)
    ensures index == AttachIndex(ms, sessionId, taskId)
  {
    if sessionId == "" {
      return -1;
    }
    index := |ms| - 1;
    while index >= 0
      invariant -1 <= index < |ms|
      invariant FindLastIndex(AttachableTo(sessionId, taskId), ms[..index + 1])
                == FindLastIndex(AttachableTo(sessionId, taskId), ms)
    {
      assert ms[..index + 1][..index] == ms[..index];
      var message := ms[index];
      if message.role != Assistant || message.sessionId != sessionId || !message.streaming {
        index := index - 1;
        continue;
      }
      if !IsTextStreamTarget(message) {
        index := index - 1;
        continue;
      }
      if taskId != "" && message.taskId != taskId && message.taskId != "pending" {
        index := index - 1;
        continue;
      }
      if message.placeholder || message.taskId == "pending" || "assistant_pending_" <= message.id
         || message.status == Some(Streaming) {
        return index;
      }
      index := index - 1;
    }
  }

  /** The message updateAssistantMessageByMessageId changes. */
  function TargetIndex(ms: seq<ChatMessage>, messageId: string, sessionId: string, taskId: string, allowAttach: bool): (i: int)
    ensures -1 <= i < |ms|
    ensures i >= 0 ==> ms[i].id == messageId || (allowAttach && Attachable(ms[i], sessionId, taskId))
  {
    var exact := FindIndex(HasId(messageId), ms);
    if exact >= 0 then exact
    else if allowAttach then AttachIndex(ms, sessionId, taskId)
    else -1
  }

  datatype TextDelta = TextDelta(
    messageId: string,
    contentBlockId: Option<string>,
    blockIndex: Option<int>,
    sessionId: string,
    taskId: string,
    delta: string,
    now: int)

  predicate HasBlockIdentity(d: TextDelta) {
    (d.contentBlockId.Some? && Trim(d.contentBlockId.value) != "") || d.blockIndex.Some?
  }

  /** assistantTextBlockMessageId for a delta with a block identity, the message id otherwise. */
  function TextTargetId(d: TextDelta): string {
    if d.contentBlockId.Some? && Trim(d.contentBlockId.value) != "" then
      "assistant_text:" + Trim(d.contentBlockId.value)
    else if d.blockIndex.Some? then
      "assistant_text:" + d.messageId + ":text:" + IntegerText(d.blockIndex.value)
    else d.messageId
  }

  function WithBlockMetadata(meta: Metadata, d: TextDelta): Metadata {
    meta.(
      baseMessageId := if HasBlockIdentity(d) && d.messageId != "" then Some(d.messageId) else meta.baseMessageId,
      contentBlockId := if Truthy(d.contentBlockId) then d.contentBlockId else meta.contentBlockId,
      blockIndex := if d.blockIndex.Some? then d.blockIndex else meta.blockIndex)
  }

  function NotEmptyBase(d: TextDelta): ChatMessage -> bool {
    (m: ChatMessage) =>
      || m.id != Trim(d.messageId) || m.role != Assistant
      || m.sessionId != d.sessionId
      || (d.taskId != "" && m.taskId != d.taskId)
      || IsAssistantContentBlock(m)
      || Trim(m.content) != []
  }

  /** withoutEmptyAssistantBaseMessage */
  function WithoutEmptyBase(ms: seq<ChatMessage>, d: TextDelta): seq<ChatMessage> {
    if Trim(d.messageId) == [] then ms else Filter(NotEmptyBase(d), ms)
  }

  function TextSource(ms: seq<ChatMessage>, d: TextDelta): seq<ChatMessage> {
    if HasBlockIdentity(d) then WithoutEmptyBase(ms, d) else ms
  }

  function TextUpdated(m: ChatMessage, d: TextDelta): ChatMessage {
    AsTextMessage(m).(
      id := TextTargetId(d),
      taskId := d.taskId,
      metadata := WithBlockMetadata(AsTextMessage(m).metadata, d),
      content := if m.placeholder then FirstContent(d.delta) else AppendDelta(m.content, d.delta),
      updatedAt := d.now, streaming := true, placeholder := false, status := Some(Streaming))
  }

  function TextCreated(d: TextDelta): ChatMessage {
    ChatMessage(TextTargetId(d), d.sessionId, d.taskId, Assistant, FirstContent(d.delta), d.now, d.now,
                true, false, None, Some(Streaming), None, None, WithBlockMetadata(NO_METADATA, d))
  }

  /** appendOrUpdateAssistantMessageDelta */
  function AppendTextDelta(ms: seq<ChatMessage>, d: TextDelta): seq<ChatMessage> {
    var source := TextSource(ms, d);
    var i := TargetIndex(source, TextTargetId(d), d.sessionId, d.taskId, !HasBlockIdentity(d));
    Upsert(source, i, if i >= 0 then TextUpdated(source[i], d) else TextCreated(d))
  }

  /** resolveAssistantCompletionContent: how streamed and completed text are reconciled is left to the caller. */
  type Resolver = (string, string, bool) -> string

  datatype Completion = Completion(
    messageId: string,
    sessionId: string,
    taskId: string,
    content: string,   // "" when absent
    now: int)

  predicate CompletesBlock(m: ChatMessage, c: Completion) {
    && IsAssistantContentBlock(m)
    && m.sessionId == c.sessionId
    && (c.taskId == "" || m.taskId == c.taskId)
    && (Trim(c.messageId) == "" || m.metadata.baseMessageId == Some(Trim(c.messageId)) || m.id == Trim(c.messageId))
  }

  function CompletesBlockOf(c: Completion): ChatMessage -> bool {
    (m: ChatMessage) => CompletesBlock(m, c)
  }

  function Settled(m: ChatMessage, now: int): ChatMessage {
    m.(streaming := false, placeholder := false,
    status := if m.status == Some(Failed) then m.status else Some(Completed), updatedAt := now)
  }

  /** The map over the blocks of the message tests the untrimmed message id. */
  function SettleBlock(c: Completion): ChatMessage -> ChatMessage {
    (m: ChatMessage) =>
      if && m.sessionId == c.sessionId && IsAssistantContentBlock(m)
         && (c.taskId == "" || m.taskId == c.taskId)
         && (c.messageId == "" || m.metadata.baseMessageId == Some(c.messageId) || m.id == c.messageId)
      then Settled(m, c.now) else m
  }

  const THINKING_PLACEHOLDER := "思考中..."

  function CompletedText(resolve: Resolver, m: ChatMessage, c: Completion): ChatMessage {
    var placeholder := m.placeholder || m.content == THINKING_PLACEHOLDER || |m.content| < 5;
    AsTextMessage(m).(
      id := c.messageId, taskId := c.taskId,
      content := resolve(m.content, c.content, placeholder),
      updatedAt := c.now, streaming := false, placeholder := false, status := Some(Completed))
  }

  function CompletionCreated(c: Completion): ChatMessage {
    ChatMessage(c.messageId, c.sessionId, c.taskId, Assistant, c.content, c.now, c.now,
                false, false, None, Some(Completed), None, None, NO_METADATA)
  }

  /** appendOrUpdateAssistantMessageCompletion */
  function CompleteMessage(resolve: Resolver, ms: seq<ChatMessage>, c: Completion): seq<ChatMessage> {
    if FindIndex(CompletesBlockOf(c), ms) >= 0 then Map(SettleBlock(c), ms)
    else
      var i := TargetIndex(ms, c.messageId, c.sessionId, c.taskId, true);
      if i >= 0 then ms[i := CompletedText(resolve, ms[i], c)]
      else if Trim(c.content) == "" then ms
      else ms + [CompletionCreated(c)]
  }

  function SettleTask(c: Completion): ChatMessage -> ChatMessage {
    (m: ChatMessage) =>
      if m.sessionId == c.sessionId && m.taskId == c.taskId && m.streaming then Settled(m, c.now) else m
  }

  /** completeChatCompatMessage; an absent message id is the empty one. */
  function CompleteChatCompat(resolve: Resolver, ms: seq<ChatMessage>, c: Completion): seq<ChatMessage> {
    if FindIndex(CompletesBlockOf(c), ms) >= 0 then Map(SettleBlock(c), ms)
    else
      var next := Map(SettleTask(c), ms);
      if c.messageId == "" then next else CompleteMessage(resolve, next, c)
  }

  // ---- Thinking ------------------------------------------------------------------------

  datatype ThinkingUpdate = ThinkingUpdate(
    sessionId: string,
    taskId: string,
    eventId: string,   // "" when absent
    state: Option<string>,
    verb: Option<string>,
    text: Option<string>,
    source: Option<string>,
    transient: Option<bool>,
    now: int)

  predicate IsThinking(m: ChatMessage) {
    m.metadata.kind == Some(AssistantThinking)
  }

  function TrimmedOr(o: Option<string>): string {
    if o.Some? then Trim(o.value) else ""
  }

  function StatusLabel(state: Option<string>, verb: Option<string>): string {
    var action := TrimmedOr(verb);
    if state == Some("tool_executing") then (if action != "" then "正在调用 " + action else "正在调用工具")
    else if state == Some("permission_pending") then (if action != "" then "等待 " + action + " 审批" else "等待权限审批")
    else if state == Some("streaming") then "正在输出回复"
    else if state == Some("thinking") then "模型正在思考"
    else if action != "" then action
    else "正在处理"
  }

  function ThinkingContent(u: ThinkingUpdate): string {
    if TrimmedOr(u.text) != "" then u.text.value else StatusLabel(u.state, u.verb)
  }

  predicate IncomingTransient(u: ThinkingUpdate) {
    if u.transient.Some? then u.transient.value
    else if TrimmedOr(u.source) != "" then false
    else if TrimmedOr(u.text) == "" then true
    else if Truthy(u.state) && u.state != Some("thinking") then true
    else Trim(ThinkingContent(u)) == Trim(StatusLabel(u.state, None))
  }

  predicate IsTransient(m: ChatMessage) {
    && IsThinking(m)
    && if m.metadata.transient.Some? then m.metadata.transient.value
       else if TrimmedOr(m.metadata.source) != "" then false
       else if Trim(m.content) == "" then true
       else if Truthy(m.metadata.state) && m.metadata.state != Some("thinking") then true
       else Trim(m.content) == Trim(StatusLabel(m.metadata.state, m.metadata.verb))
  }

  predicate CanUpdateSegment(m: ChatMessage, u: ThinkingUpdate) {
    && IsThinking(m)
    && IsTransient(m) == IncomingTransient(u)
    && (IncomingTransient(u) || !Truthy(m.metadata.state) || !Truthy(u.state) || m.metadata.state == u.state)
  }

  predicate ProviderSummary(u: ThinkingUpdate) {
    TrimmedOr(u.source) == "provider_reasoning_summary" || TrimmedOr(u.source) == "non_stream_thought_summary"
  }

  predicate HasEventId(u: ThinkingUpdate) {
    Trim(u.eventId) != "" && !ProviderSummary(u)
  }

  function EventMessageId(u: ThinkingUpdate): string {
    if HasEventId(u) then "assistant_thinking:" + Trim(u.eventId) else ""
  }

  predicate SameTask(m: ChatMessage, u: ThinkingUpdate) {
    m.sessionId == u.sessionId && m.taskId == u.taskId
  }

  function OfEvent(u: ThinkingUpdate): ChatMessage -> bool {
    (m: ChatMessage) =>
      SameTask(m, u) && IsThinking(m) && (m.id == EventMessageId(u) || m.metadata.eventId == Some(Trim(u.eventId)))
  }

  function OfTask(u: ThinkingUpdate): ChatMessage -> bool {
    (m: ChatMessage) => SameTask(m, u)
  }

  function ThinkingOfTask(u: ThinkingUpdate): ChatMessage -> bool {
    (m: ChatMessage) => SameTask(m, u) && IsThinking(m)
  }

  /** The thinking message an update continues, or -1. */
  function ThinkingIndex(ms: seq<ChatMessage>, u: ThinkingUpdate): (i: int)
    ensures -1 <= i < |ms|
    ensures i >= 0 ==> SameTask(ms[i], u) && IsThinking(ms[i])
  {
    var byEvent := if HasEventId(u) then FindIndex(OfEvent(u), ms) else -1;
    var latest := FindLastIndex(ThinkingOfTask(u), ms);
    if byEvent >= 0 then byEvent
    else if latest >= 0 && latest == FindLastIndex(OfTask(u), ms)
            && (ProviderSummary(u) || CanUpdateSegment(ms[latest], u)) then latest
    else -1
  }

  function IdsOf(ms: seq<ChatMessage>): seq<string> {
    seq(|ms|, i requires 0 <= i < |ms| => ms[i].id)
  }

  function NewThinkingId(ms: seq<ChatMessage>, u: ThinkingUpdate): string {
    if HasEventId(u) then EventMessageId(u) else ThinkingSegmentId(IdsOf(ms), u.taskId)
  }

  /** Fields shared by a new and a continued thinking message. */
  function ThinkingMetadata(meta: Metadata, u: ThinkingUpdate): Metadata {
    meta.(
      kind := Some(AssistantThinking), state := u.state, verb := u.verb,
      eventId := if Trim(u.eventId) != "" then Some(Trim(u.eventId)) else meta.eventId,
      source := if u.source.Some? then u.source else meta.source,
      transient := Some(IncomingTransient(u)))
  }

  predicate AppendsThinkingText(m: ChatMessage, u: ThinkingUpdate) {
    && TrimmedOr(u.text) != ""
    && !ProviderSummary(u)
    && m.metadata.state == Some("thinking") && u.state == Some("thinking")
    && !IncomingTransient(u) && !IsTransient(m)
    && m.content != StatusLabel(u.state, u.verb)
    && m.content != StatusLabel(if m.metadata.state.Some? then m.metadata.state else u.state,
                                if m.metadata.verb.Some? then m.metadata.verb else u.verb)
  }

  function ContinuedThinkingContent(m: ChatMessage, u: ThinkingUpdate): string {
    if AppendsThinkingText(m, u) then m.content + u.text.value
    else if ProviderSummary(u) && Trim(m.content) != [] && Trim(m.content) != Trim(ThinkingContent(u)) then
      AppendDelta(m.content, "\n\n" + ThinkingContent(u))
    else ThinkingContent(u)
  }

  function ContinuedThinking(m: ChatMessage, u: ThinkingUpdate): ChatMessage {
    ChatMessage(m.id, u.sessionId, u.taskId, Assistant, ContinuedThinkingContent(m, u), m.createdAt, u.now,
                true, false, None, Some(Streaming), None, None, ThinkingMetadata(m.metadata, u))
  }

  function NewThinking(id: string, u: ThinkingUpdate): ChatMessage {
    ChatMessage(id, u.sessionId, u.taskId, Assistant, ThinkingContent(u), u.now, u.now,
                true, false, None, Some(Streaming), None, None, ThinkingMetadata(NO_METADATA, u))
  }

  /** appendOrUpdateAssistantThinkingMessage */
  function UpdateThinking(ms: seq<ChatMessage>, u: ThinkingUpdate): seq<ChatMessage> {
    var i := ThinkingIndex(ms, u);
    Upsert(ms, i, if i >= 0 then ContinuedThinking(ms[i], u) else NewThinking(NewThinkingId(ms, u), u))
  }

  predicate ClosesThinking(m: ChatMessage, sessionId: string, taskId: string) {
    IsThinking(m) && m.sessionId == sessionId && (taskId == "" || m.taskId == taskId)
  }

  function ClosedThinking(m: ChatMessage, now: int): ChatMessage {
    if m.streaming || m.status == Some(Streaming) then
      m.(updatedAt := now, streaming := false, status := Some(Completed), metadata := m.metadata.(transient := Some(false)))
    else m
  }

  /** What becomes of one message: nothing for a closed transient one. */
  function AfterThinking(m: ChatMessage, sessionId: string, taskId: string, now: int): seq<ChatMessage> {
    if !ClosesThinking(m, sessionId, taskId) then [m]
    else if IsTransient(m) then []
    else [ClosedThinking(m, now)]
  }

  /** removeAssistantThinkingMessage, which also closes thinking at a tool boundary. */
  function RemoveThinking(ms: seq<ChatMessage>, sessionId: string, taskId: string, now: int): seq<ChatMessage> {
    if ms == [] then []
    else RemoveThinking(ms[..|ms| - 1], sessionId, taskId, now) + AfterThinking(ms[|ms| - 1], sessionId, taskId, now)
  }

  method RemoveAssistantThinkingMessage(current: seq<ChatMessage>, sessionId: string, taskId: string, now: int)
    returns (result: seq<ChatMessage>)
    ensures result == RemoveThinking(current, sessionId, taskId, now)
  {
    var next: seq<ChatMessage> := [];
    var changed := false;
    for i := 0 to |current|
      invariant next == RemoveThinking(current[..i], sessionId, taskId, now)
      invariant !changed ==> next == current[..i]
    {
      assert current[..i + 1][..i] == current[..i];
      assert current[..i + 1] == current[..i] + [current[i]];
      var message := current[i];
      if !IsThinking(message) || message.sessionId != sessionId || (taskId != "" && message.taskId != taskId) {
        next := next + [message];
        continue;
      }
      if IsTransient(message) {
        changed := true;
        continue;
      }
      if message.streaming || message.status == Some(Streaming) {
        changed := true;
        next := next + [message.(updatedAt := now, streaming := false, status := Some(Completed),
        metadata := message.metadata.(transient := Some(false)))];
        continue;
      }
      next := next + [message];
    }
    assert current[..|current|] == current;
    result := if changed then next else current;
  }

  // ---- Permissions, special events -----------------------------------------------------

  datatype Permission = Permission(
    requestId: string,
    toolUseId: Option<string>,
    toolName: Option<string>,
    presentation: Presentation,
    content: string,        // the text shown when the message is created
    hasDetails: bool,       // input, preview, changed files or diff present
    createIfMissing: bool,
    rejected: bool,
    sessionId: string,
    taskId: string,
    now: int)

  function PermissionId(requestId: string): string {
    "permission_request:" + requestId
  }

  function PermissionMetadata(p: Permission): Metadata {
    NO_METADATA.(kind := Some(PermissionRequest), requestId := Some(p.requestId), toolUseId := p.toolUseId,
    presentation := p.presentation)
  }

  function PermissionMessage(p: Permission, createdAt: int, status: Option<MessageStatus>): ChatMessage {
    ChatMessage(PermissionId(p.requestId), p.sessionId, p.taskId, Assistant, p.content, createdAt, p.now,
                false, false, None, status, None, p.toolName, PermissionMetadata(p))
  }

  /** appendOrUpdatePermissionRequestMessage */
  function RequestPermission(ms: seq<ChatMessage>, p: Permission): seq<ChatMessage> {
    var i := FindIndex(HasId(PermissionId(p.requestId)), ms);
    Upsert(ms, i, PermissionMessage(p, if i >= 0 then ms[i].createdAt else p.now, None))
  }

  function Or<T>(a: Option<T>, b: Option<T>): Option<T> {
    if a.Some? then a else b
  }

  /** toolPresentationMetadataFromPayload over the current metadata. */
  function MergePresentation(p: Presentation, current: Presentation): Presentation {
    Presentation(Or(p.displayTitle, current.displayTitle), Or(p.displaySummary, current.displaySummary),
                 Or(p.displayTarget, current.displayTarget), Or(p.target, current.target),
                 Or(p.inputSummary, current.inputSummary))
  }

  function DecisionStatus(rejected: bool): Option<MessageStatus> {
    Some(if rejected then Failed else Completed)
  }

  function PermissionResolved(m: ChatMessage, p: Permission): ChatMessage {
    m.(updatedAt := p.now, status := DecisionStatus(p.rejected),
    metadata := m.metadata.(kind := Some(PermissionRequest), requestId := Some(p.requestId),
    toolUseId := Or(p.toolUseId, m.metadata.toolUseId),
    presentation := MergePresentation(p.presentation, m.metadata.presentation)))
  }

  /** resolvePermissionRequestMessage */
  function ResolvePermission(ms: seq<ChatMessage>, p: Permission): seq<ChatMessage> {
    var i := FindIndex(HasId(PermissionId(p.requestId)), ms);
    if i >= 0 then ms[i := PermissionResolved(ms[i], p)]
    else if !p.createIfMissing || p.sessionId == "" || !p.hasDetails then ms
    else ms + [PermissionMessage(p, p.now, DecisionStatus(p.rejected))]
  }

  function ApprovalIdOf(m: ChatMessage): string {
    if m.metadata.approvalId.Some? then Trim(m.metadata.approvalId.value)
    else TrimmedOr(m.metadata.requestId)
  }

  predicate ResolvesApproval(m: ChatMessage, approvalId: string) {
    && ApprovalIdOf(m) != "" && ApprovalIdOf(m) == approvalId
    && m.metadata.kind in {Some(ComputerUsePermission), Some(ComputerUsePermissionRequest)}
  }

  function ApprovalResolver(approvalId: string, rejected: bool, now: int): ChatMessage -> ChatMessage {
    (m: ChatMessage) =>
      if ResolvesApproval(m, approvalId) then
        m.(updatedAt := now, status := DecisionStatus(rejected),
        metadata := m.metadata.(kind := Some(ComputerUsePermission)))
      else m
  }

  /** resolveSpecialApprovalMessage */
  function ResolveApproval(ms: seq<ChatMessage>, approvalId: string, rejected: bool, now: int): seq<ChatMessage> {
    Map(ApprovalResolver(approvalId, rejected, now), ms)
  }

  datatype SpecialKind =
    | ApiRetry | SystemNotice | CompactSummary | GoalEvent | MemoryEvent | BackgroundTask
    | AgentTaskGroup | AskUser | ComputerUse

  function SpecialName(k: SpecialKind): string {
    match k
    case ApiRetry => "api_retry"
    case SystemNotice => "system"
    case CompactSummary => "compact_summary"
    case GoalEvent => "goal_event"
    case MemoryEvent => "memory_event"
    case BackgroundTask => "background_task"
    case AgentTaskGroup => "agent_task_group"
    case AskUser => "ask_user_question"
    case ComputerUse => "computer_use_permission"
  }

  function KindOfSpecial(k: SpecialKind): Kind {
    match k
    case AskUser => AskUserQuestion
    case ComputerUse => ComputerUsePermission
    case _ => OtherBlock(SpecialName(k))
  }

  datatype SpecialEvent = SpecialEvent(
    kind: SpecialKind,
    eventId: string,
    sessionId: string,
    taskId: string,
    content: string,                 // the first non-blank of summary, content and title
    status: Option<MessageStatus>,
    requestId: Option<string>,
    approvalId: Option<string>,
    toolCallId: Option<string>,
    toolUseId: Option<string>,
    now: int)

  /** The key that keeps repeated events of one question or approval in one message. */
  function StableKey(e: SpecialEvent): string {
    match e.kind
    case AskUser => if TrimmedOr(e.requestId) != "" then TrimmedOr(e.requestId) else TrimmedOr(e.toolCallId)
    case ComputerUse => if TrimmedOr(e.approvalId) != "" then TrimmedOr(e.approvalId) else TrimmedOr(e.requestId)
    case _ => ""
  }

  function SpecialId(e: SpecialEvent): string {
    SpecialName(e.kind) + ":"
    + if StableKey(e) != "" then StableKey(e)
      else if Trim(e.eventId) != "" then Trim(e.eventId)
      else e.taskId + ":" + IntegerText(e.now)
  }

  function SpecialMetadata(e: SpecialEvent, merged: Metadata): Metadata {
    merged.(kind := Some(KindOfSpecial(e.kind)), requestId := Or(e.requestId, merged.requestId),
    approvalId := Or(e.approvalId, merged.approvalId), toolCallId := Or(e.toolCallId, merged.toolCallId),
    toolUseId := Or(e.toolUseId, merged.toolUseId))
  }

  function SpecialMessage(e: SpecialEvent, previous: Option<ChatMessage>): ChatMessage {
    var merges := StableKey(e) != "" && previous.Some?;
    ChatMessage(SpecialId(e), e.sessionId, e.taskId, Assistant,
                if Trim(e.content) == "" && merges then previous.value.content else e.content,
                if previous.Some? then previous.value.createdAt else e.now, e.now,
                false, false, None, e.status, None, None,
                SpecialMetadata(e, if merges then previous.value.metadata else NO_METADATA))
  }

  /** appendSpecialEventMessage */
  function AppendSpecial(ms: seq<ChatMessage>, e: SpecialEvent): seq<ChatMessage> {
    var i := FindIndex(HasId(SpecialId(e)), ms);
    Upsert(ms, i, SpecialMessage(e, if i >= 0 then Some(ms[i]) else None))
  }

  datatype Answer = Answer(messageId: string, requestId: string, toolCallId: string, now: int)

  predicate Answers(m: ChatMessage, a: Answer) {
    && m.metadata.kind == Some(AskUserQuestion)
    && (|| (a.messageId != "" && m.id == a.messageId)
        || (a.requestId != "" && TrimmedOr(m.metadata.requestId) == a.requestId)
        || (a.toolCallId != "" && TrimmedOr(m.metadata.toolCallId) == a.toolCallId))
  }

  function Answerer(a: Answer): ChatMessage -> ChatMessage {
    (m: ChatMessage) => if Answers(m, a) then m.(updatedAt := a.now, status := Some(Completed)) else m
  }

  /** resolveAskUserQuestionMessage */
  function AnswerQuestion(ms: seq<ChatMessage>, a: Answer): seq<ChatMessage> {
    Map(Answerer(a), ms)
  }

  // ---- The end of a task ------------------------------------------------------------------

  predicate StopsStreaming(m: ChatMessage, sessionId: string, taskId: string) {
    && m.sessionId == sessionId
    && (taskId == "" || m.taskId == taskId || (m.streaming && m.taskId == "pending"))
    && m.role == Assistant && m.streaming
  }

  function Stopper(sessionId: string, taskId: string): ChatMessage -> ChatMessage {
    (m: ChatMessage) =>
      if StopsStreaming(m, sessionId, taskId) then
        m.(streaming := false, placeholder := false, status := if m.status == Some(Failed) then m.status else None)
      else m
  }

  predicate DroppedWhenStopped(m: ChatMessage, sessionId: string, taskId: string) {
    && m.sessionId == sessionId && (taskId == "" || m.taskId == taskId || m.taskId == "pending")
    && m.role == Assistant && Trim(m.content) == ""
  }

  function KeptWhenStopped(sessionId: string, taskId: string): ChatMessage -> bool {
    (m: ChatMessage) => !DroppedWhenStopped(m, sessionId, taskId)
  }

  /** stopStreamingMessagesForTask */
  function StopStreaming(ms: seq<ChatMessage>, sessionId: string, taskId: string): seq<ChatMessage> {
    Filter(KeptWhenStopped(sessionId, taskId), Map(Stopper(sessionId, taskId), ms))
  }
}
