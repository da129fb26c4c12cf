/** Protected blocks keep to ids of their own over every replay, so text never gets into them. */
module GuardedBlocks {
  import opened Seqs
  import opened Text
  import ContentDelta
  import opened ChatMessages
  import opened MessageUpdates
  import opened ToolBlocks
  import opened TraceEvents
  import opened TraceReplay
  import opened BlockInvariants
  import opened PlainUpdates
  import opened TextBlocks

  /** An id of the form tool, thinking and permission blocks have. */
  predicate BlockLike(id: string) {
    || "tool_use:" <= id || "tool_activity:" <= id || "tool_result:" <= id
    || "assistant_thinking:" <= id || "permission_request:" <= id
  }

  /** A protected block has such an id, and nothing with such an id is a placeholder. */
  predicate Guarded(m: ChatMessage) {
    (Protected(m) ==> BlockLike(m.id)) && (BlockLike(m.id) ==> !m.placeholder)
  }

  ghost predicate AllGuarded(ms: seq<ChatMessage>) {
    forall m | m in ms :: Guarded(m)
  }

  // ---- Shapes of updates ----------------------------------------------------------------

  lemma UpsertGuards(ms: seq<ChatMessage>, i: int, m: ChatMessage)
    requires AllGuarded(ms) && i < |ms| && Guarded(m)
    ensures AllGuarded(Upsert(ms, i, m))
  {
    hide Guarded;
    var after := Upsert(ms, i, m);
    assert forall n | n in after :: n == m || n in ms;
  }

  lemma {:induction false} MapGuards(f: ChatMessage -> ChatMessage, ms: seq<ChatMessage>)
    requires AllGuarded(ms) && forall m: ChatMessage | Guarded(m) :: Guarded(f(m))
    ensures AllGuarded(Map(f, ms))
  {
    hide Guarded;
    var after := Map(f, ms);
    forall n | n in after ensures Guarded(n) {
      var i :| 0 <= i < |after| && after[i] == n;
      assert ms[i] in ms;
    }
  }

  lemma {:induction false} FilterGuards(p: ChatMessage -> bool, ms: seq<ChatMessage>)
    requires AllGuarded(ms)
    ensures AllGuarded(Filter(p, ms))
  {
    hide Guarded;
    FilterMembers(p, ms);
  }

  lemma MemberGuarded(ms: seq<ChatMessage>, i: int)
    requires AllGuarded(ms) && i < |ms|
    ensures i >= 0 ==> Guarded(ms[i])
  {
    hide Guarded;
  }

  lemma OpenGuarded(m: ChatMessage)
    requires !Protected(m) && !m.placeholder
    ensures Guarded(m)
  {
  }

  // ---- Text, completions and thinking -------------------------------------------------------

  lemma TextGuards(ms: seq<ChatMessage>, d: TextDelta)
    requires AllGuarded(ms)
    ensures AllGuarded(AppendTextDelta(ms, d))
  {
    hide Guarded, Protected, TextSource, TextUpdated, TextCreated, TargetIndex, TextTargetId, HasBlockIdentity;
    var source, i := TextSource(ms, d), TextTarget(ms, d);
    SourceGuards(ms, d);
    if i >= 0 {
      UpdatedUnprotected(source[i], d);
      UpdatedOpen(source[i], d);
      OpenGuarded(TextUpdated(source[i], d));
      UpsertGuards(source, i, TextUpdated(source[i], d));
    } else {
      CreatedUnprotected(d);
      CreatedOpen(d);
      OpenGuarded(TextCreated(d));
      UpsertGuards(source, i, TextCreated(d));
    }
  }

  lemma SourceGuards(ms: seq<ChatMessage>, d: TextDelta)
    requires AllGuarded(ms)
    ensures AllGuarded(TextSource(ms, d))
  {
    hide Guarded, NotEmptyBase, HasBlockIdentity;
    FilterGuards(NotEmptyBase(d), ms);
  }

  lemma UpdatedOpen(m: ChatMessage, d: TextDelta)
    ensures !TextUpdated(m, d).placeholder
  {
    hide TextTargetId, HasBlockIdentity, Truthy, ContentDelta.AppendDelta, ContentDelta.FirstContent;
  }

  lemma CreatedOpen(d: TextDelta)
    ensures !TextCreated(d).placeholder
  {
    hide TextTargetId, HasBlockIdentity, Truthy, ContentDelta.FirstContent;
  }

  lemma SettledGuarded(c: Completion)
    ensures forall m: ChatMessage | Guarded(m) :: Guarded(SettleBlock(c)(m)) && Guarded(SettleTask(c)(m))
  {
    hide BlockLike;
  }

  lemma CompletedGuarded(resolve: Resolver, m: ChatMessage, c: Completion)
    ensures Guarded(CompletedText(resolve, m, c))
  {
    hide BlockLike;
  }

  lemma CreatedGuarded(c: Completion)
    ensures Guarded(CompletionCreated(c))
  {
    hide BlockLike, CompletionCreated;
    CompletionBare(c);
    CompletionOpen(c);
  }

  lemma CompletionOpen(c: Completion)
    ensures !CompletionCreated(c).placeholder
  {
  }

  lemma CompletionGuards(resolve: Resolver, ms: seq<ChatMessage>, c: Completion)
    requires AllGuarded(ms)
    ensures AllGuarded(CompleteMessage(resolve, ms, c))
  {
    hide Guarded, SettleBlock, CompletedText, CompletionCreated, TargetIndex, CompletesBlockOf;
    SettledGuarded(c);
    MapGuards(SettleBlock(c), ms);
    var i := TargetIndex(ms, c.messageId, c.sessionId, c.taskId, true);
    CompletedGuarded(resolve, if i >= 0 then ms[i] else CompletionCreated(c), c);
    CreatedGuarded(c);
    UpsertGuards(ms, i, if i >= 0 then CompletedText(resolve, ms[i], c) else CompletionCreated(c));
  }

  lemma CompatGuards(resolve: Resolver, ms: seq<ChatMessage>, c: Completion)
    requires AllGuarded(ms)
    ensures AllGuarded(CompleteChatCompat(resolve, ms, c))
  {
    hide Guarded, SettleBlock, SettleTask, CompleteMessage, CompletesBlockOf;
    SettledGuarded(c);
    MapGuards(SettleBlock(c), ms);
    MapGuards(SettleTask(c), ms);
    CompletionGuards(resolve, Map(SettleTask(c), ms), c);
  }

  lemma NewThinkingIdBlockLike(ms: seq<ChatMessage>, u: ThinkingUpdate)
    ensures BlockLike(NewThinkingId(ms, u))
  {
    var id := NewThinkingId(ms, u);
    assert id[..|"assistant_thinking:"|] == "assistant_thinking:";
  }

  lemma ContinuedGuarded(m: ChatMessage, u: ThinkingUpdate)
    requires Guarded(m) && IsThinking(m)
    ensures Guarded(ContinuedThinking(m, u))
  {
    hide BlockLike, ContinuedThinkingContent, IncomingTransient;
  }

  lemma ThinkingGuards(ms: seq<ChatMessage>, u: ThinkingUpdate)
    requires AllGuarded(ms)
    ensures AllGuarded(UpdateThinking(ms, u))
  {
    hide AllGuarded, BlockLike, ThinkingIndex, ContinuedThinking, NewThinkingId, ThinkingContent, IncomingTransient;
    var i := ThinkingIndex(ms, u);
    if i >= 0 {
      MemberGuarded(ms, i);
      ContinuedGuarded(ms[i], u);
      UpsertGuards(ms, i, ContinuedThinking(ms[i], u));
    } else {
      NewThinkingIdBlockLike(ms, u);
      assert !NewThinking(NewThinkingId(ms, u), u).placeholder && NewThinking(NewThinkingId(ms, u), u).id == NewThinkingId(ms, u);
      UpsertGuards(ms, i, NewThinking(NewThinkingId(ms, u), u));
    }
  }

  lemma AfterThinkingGuarded(m: ChatMessage, sessionId: string, taskId: string, now: int)
    requires Guarded(m)
    ensures AllGuarded(AfterThinking(m, sessionId, taskId, now))
  {
    hide BlockLike, IsTransient;
  }

  lemma {:induction false} RemoveThinkingGuards(ms: seq<ChatMessage>, sessionId: string, taskId: string, now: int)
    requires AllGuarded(ms)
    ensures AllGuarded(RemoveThinking(ms, sessionId, taskId, now))
  {
    hide Guarded, AfterThinking;
    if ms != [] {
      assert ms == ms[..|ms| - 1] + [ms[|ms| - 1]];
      RemoveThinkingGuards(ms[..|ms| - 1], sessionId, taskId, now);
      AfterThinkingGuarded(ms[|ms| - 1], sessionId, taskId, now);
    }
  }

  lemma {:induction false} StopGuards(ms: seq<ChatMessage>, sessionId: string, taskId: string)
    requires AllGuarded(ms)
    ensures AllGuarded(StopStreaming(ms, sessionId, taskId))
  {
    hide AllGuarded, Stopper, KeptWhenStopped;
    StoppedGuarded(sessionId, taskId);
    MapGuards(Stopper(sessionId, taskId), ms);
    FilterGuards(KeptWhenStopped(sessionId, taskId), Map(Stopper(sessionId, taskId), ms));
  }

  lemma StoppedGuarded(sessionId: string, taskId: string)
    ensures forall m: ChatMessage | Guarded(m) :: Guarded(Stopper(sessionId, taskId)(m))
  {
    hide BlockLike;
  }

  // ---- Tool updates -----------------------------------------------------------------------------

  /** A block stays guarded when it keeps its id and stands up as no placeholder. */
  lemma BlockGuarded(m: ChatMessage, n: ChatMessage)
    requires Guarded(m) && BlockLike(m.id) && n.id == m.id && n.placeholder in {m.placeholder, false}
    ensures Guarded(n)
  {
    hide BlockLike, Protected;
  }

  lemma NewBlockGuarded(call: ToolCall, content: string, status: MessageStatus, meta: Metadata)
    ensures Guarded(NewBlock(call, content, status, meta))
  {
    hide Protected;
    assert "tool_use:" <= ToolUseId(call.toolUseId);
  }

  lemma ToolTargetBlockLike(m: ChatMessage, x: string)
    requires Guarded(m) && OutputTarget(x)(m)
    ensures BlockLike(m.id)
  {
    assert "tool_use:" <= ToolUseId(x) && "tool_activity:" <= ToolActivityId(x);
  }

  lemma StartGuards(ms: seq<ChatMessage>, call: ToolCall, input: Option<string>)
    requires AllGuarded(ms)
    ensures AllGuarded(StartTool(ms, call, input))
  {
    hide AllGuarded, Guarded, BlockLike, InputDisplay;
    var i := FindIndex(StartTarget(call.toolUseId), ms);
    MemberGuarded(ms, i);
    if i >= 0 {
      ToolTargetBlockLike(ms[i], call.toolUseId);
      BlockGuarded(ms[i], Started(ms[i], call, input));
      UpsertGuards(ms, i, Started(ms[i], call, input));
    } else {
      var display := InputDisplay(call.presentation, NO_PRESENTATION);
      NewBlockGuarded(call, display, Streaming, StartMetadata(NO_METADATA, input, display));
      UpsertGuards(ms, i, StartedNew(call, input));
    }
  }

  lemma InputGuards(ms: seq<ChatMessage>, call: ToolCall, delta: string)
    requires AllGuarded(ms)
    ensures AllGuarded(AppendToolInput(ms, call, delta))
  {
    hide AllGuarded, Guarded, BlockLike, InputDisplay, ContentDelta.AppendDelta, TrimStart;
    var i := FindIndex(HasId(ToolUseId(call.toolUseId)), ms);
    MemberGuarded(ms, i);
    if i >= 0 {
      ToolTargetBlockLike(ms[i], call.toolUseId);
      BlockGuarded(ms[i], WithInput(ms[i], call, delta));
      UpsertGuards(ms, i, WithInput(ms[i], call, delta));
    } else {
      var display := InputDisplay(call.presentation, NO_PRESENTATION);
      NewBlockGuarded(call, display, Streaming,
                      StartMetadata(NO_METADATA, Some(TrimStart(ContentDelta.AppendDelta("", delta))), display));
      UpsertGuards(ms, i, InputNew(call, delta));
    }
  }

  lemma OutputGuards(ms: seq<ChatMessage>, call: ToolCall, stream: Stream, delta: string)
    requires AllGuarded(ms)
    ensures AllGuarded(AppendToolOutput(ms, call, stream, delta))
  {
    hide AllGuarded, Guarded, BlockLike, AppendOutput;
    var i := FindIndex(OutputTarget(call.toolUseId), ms);
    MemberGuarded(ms, i);
    if i >= 0 {
      ToolTargetBlockLike(ms[i], call.toolUseId);
      BlockGuarded(ms[i], WithOutput(ms[i], call, stream, delta));
      UpsertGuards(ms, i, WithOutput(ms[i], call, stream, delta));
    } else {
      NewBlockGuarded(call, "", Streaming, NO_METADATA.(output := Some(AppendOutput(NO_OUTPUT, stream, delta))));
      UpsertGuards(ms, i, OutputNew(call, stream, delta));
    }
  }

  lemma CompleteGuards(ms: seq<ChatMessage>, call: ToolCall, input: string)
    requires AllGuarded(ms)
    ensures AllGuarded(CompleteTool(ms, call, input))
  {
    hide AllGuarded, Guarded, BlockLike, CompletedContent;
    var i := FindIndex(CompleteTarget(call.toolUseId), ms);
    MemberGuarded(ms, i);
    if i >= 0 {
      ToolTargetBlockLike(ms[i], call.toolUseId);
      BlockGuarded(ms[i], CompletedCall(ms[i], call, input));
      UpsertGuards(ms, i, CompletedCall(ms[i], call, input));
    } else {
      var content := CompletedContent(call, NO_PRESENTATION, input);
      NewBlockGuarded(call, content, Completed, CompletedMetadata(NO_METADATA, content, input));
      UpsertGuards(ms, i, CompletedNew(call, input));
    }
  }

  lemma ResultGuarded(m: ChatMessage, call: ToolCall, r: ResultInfo, previous: Option<ChatMessage>)
    ensures Guarded(WithResult(m, call, r)) && Guarded(ResultMessage(call, r, previous))
  {
    hide FirstText, SummaryDisplay, MergePresentation, Protected;
    assert "tool_activity:" <= ToolActivityId(call.toolUseId) && "tool_result:" <= ToolResultId(call.toolUseId);
  }

  lemma {:induction false} WithoutIdGuards(ms: seq<ChatMessage>, keep: int, id: string)
    requires AllGuarded(ms)
    ensures AllGuarded(WithoutId(ms, keep, id))
  {
    hide Guarded;
    if ms != [] {
      assert ms == ms[..|ms| - 1] + [ms[|ms| - 1]];
      WithoutIdGuards(ms[..|ms| - 1], keep, id);
    }
  }

  lemma FinishGuards(ms: seq<ChatMessage>, call: ToolCall, r: ResultInfo)
    requires AllGuarded(ms)
    ensures AllGuarded(FinishTool(ms, call, r))
  {
    hide AllGuarded, Guarded, WithResult, ResultMessage, WithoutId;
    var b, i := FindIndex(BlockOf(call.toolUseId), ms), FindIndex(HasId(ToolResultId(call.toolUseId)), ms);
    var previous := if i >= 0 then Some(ms[i]) else None;
    if b >= 0 {
      ResultGuarded(ms[b], call, r, previous);
      UpsertGuards(ms, b, WithResult(ms[b], call, r));
      WithoutIdGuards(ms[b := WithResult(ms[b], call, r)], b, ToolResultId(call.toolUseId));
    } else {
      ResultGuarded(ResultMessage(call, r, previous), call, r, previous);
      UpsertGuards(ms, i, ResultMessage(call, r, previous));
    }
  }

  lemma MarkGuards(ms: seq<ChatMessage>, x: string, k: string)
    requires AllGuarded(ms)
    ensures AllGuarded(MarkTool(ms, x, k))
  {
    hide AllGuarded, BlockLike;
    assert forall m: ChatMessage | Guarded(m) :: Guarded(WithMarker(x, k)(m));
    MapGuards(WithMarker(x, k), ms);
  }

  // ---- Notices --------------------------------------------------------------------------------------

  lemma PermissionGuards(ms: seq<ChatMessage>, p: Permission)
    requires AllGuarded(ms)
    ensures AllGuarded(RequestPermission(ms, p)) && AllGuarded(ResolvePermission(ms, p))
  {
    hide AllGuarded, MergePresentation;
    var i := FindIndex(HasId(PermissionId(p.requestId)), ms);
    assert "permission_request:" <= PermissionId(p.requestId);
    MemberGuarded(ms, i);
    UpsertGuards(ms, i, PermissionMessage(p, if i >= 0 then ms[i].createdAt else p.now, None));
    UpsertGuards(ms, i, if i >= 0 then PermissionResolved(ms[i], p) else PermissionMessage(p, p.now, DecisionStatus(p.rejected)));
  }

  lemma SpecialGuarded(s: SpecialEvent, previous: Option<ChatMessage>)
    ensures Guarded(SpecialMessage(s, previous))
  {
    hide BlockLike, SpecialId, StableKey;
  }

  lemma SpecialGuards(ms: seq<ChatMessage>, s: SpecialEvent)
    requires AllGuarded(ms)
    ensures AllGuarded(AppendSpecial(ms, s))
  {
    hide AllGuarded, Guarded, SpecialMessage, SpecialId;
    var i := FindIndex(HasId(SpecialId(s)), ms);
    SpecialGuarded(s, if i >= 0 then Some(ms[i]) else None);
    UpsertGuards(ms, i, SpecialMessage(s, if i >= 0 then Some(ms[i]) else None));
  }

  lemma ApproverGuards(ms: seq<ChatMessage>, approvalId: string, rejected: bool, now: int)
    requires AllGuarded(ms)
    ensures AllGuarded(ResolveApproval(ms, approvalId, rejected, now))
  {
    hide AllGuarded, BlockLike, ResolvesApproval;
    assert forall m: ChatMessage | Guarded(m) :: Guarded(ApprovalResolver(approvalId, rejected, now)(m));
    MapGuards(ApprovalResolver(approvalId, rejected, now), ms);
  }

  lemma AnswerGuards(ms: seq<ChatMessage>, a: Answer)
    requires AllGuarded(ms)
    ensures AllGuarded(AnswerQuestion(ms, a))
  {
    hide AllGuarded, BlockLike, Answers;
    assert forall m: ChatMessage | Guarded(m) :: Guarded(Answerer(a)(m));
    MapGuards(Answerer(a), ms);
  }

  // ---- Events ------------------------------------------------------------------------------------------

  lemma ClosedGuards(ms: seq<ChatMessage>, e: Event)
    requires AllGuarded(ms)
    ensures AllGuarded(Closed(ms, e))
  {
    hide AllGuarded;
    RemoveThinkingGuards(ms, e.sessionId, e.taskId, e.ts);
  }

  lemma ReplayOutputGuards(ms: seq<ChatMessage>, e: Event, tool: ToolInfo, chunk: Chunk, k: string)
    requires AllGuarded(ms)
    ensures AllGuarded(ReplayOutput(ms, e, tool, chunk, k))
  {
    hide AllGuarded, Closed, AppendToolOutput, MarkTool, HasMarker;
    ClosedGuards(ms, e);
    OutputGuards(Closed(ms, e), CallOf(e, tool), chunk.stream, chunk.delta);
    MarkGuards(AppendToolOutput(Closed(ms, e), CallOf(e, tool), chunk.stream, chunk.delta), tool.toolUseId, k);
  }

  lemma ReplayInputGuards(ms: seq<ChatMessage>, e: Event, tool: ToolInfo, delta: string)
    requires AllGuarded(ms)
    ensures AllGuarded(ReplayInput(ms, e, tool, delta))
  {
    hide AllGuarded, Closed, AppendToolInput, MarkTool, HasMarker;
    ClosedGuards(ms, e);
    InputGuards(Closed(ms, e), CallOf(e, tool), delta);
    MarkGuards(AppendToolInput(Closed(ms, e), CallOf(e, tool), delta), tool.toolUseId, InputMarker(e));
  }

  lemma ReplayTextGuards(ms: seq<ChatMessage>, e: Event, text: Option<TextPart>)
    requires AllGuarded(ms)
    ensures AllGuarded(ReplayText(ms, e, text))
  {
    hide AllGuarded, AppendTextDelta, DeltaOf;
    if text.Some? {
      TextGuards(ms, DeltaOf(e, text.value));
    }
  }

  lemma ContentGuards(ms: seq<ChatMessage>, e: Event, text: Option<TextPart>, tool: ToolInfo, input: Option<string>, output: Option<Chunk>)
    requires AllGuarded(ms)
    ensures AllGuarded(ReplayContentDelta(ms, e, text, tool, input, output))
  {
    hide AllGuarded, ReplayText, ReplayInput, ReplayOutput, HasMarker, ContentTool;
    var texted, owner := ReplayText(ms, e, text), ContentTool(e, tool);
    ReplayTextGuards(ms, e, text);
    var fed := if input.Some? then ReplayInput(texted, e, owner, input.value) else texted;
    if input.Some? {
      ReplayInputGuards(texted, e, owner, input.value);
    }
    if output.Some? {
      ReplayOutputGuards(fed, e, owner, output.value, OutputMarker(e));
    }
  }

  lemma ReplayCallGuards(ms: seq<ChatMessage>, e: Event, tool: Option<ToolInfo>, input: Option<string>, text: string, info: ResultInfo)
    requires AllGuarded(ms)
    ensures AllGuarded(ReplayStart(ms, e, tool, input)) && AllGuarded(ReplayToolUse(ms, e, tool, text))
    ensures AllGuarded(ReplayResult(ms, e, tool, info))
  {
    hide AllGuarded, Closed, StartTool, CompleteTool, FinishTool;
    if tool.Some? {
      ClosedGuards(ms, e);
      StartGuards(Closed(ms, e), CallOf(e, tool.value), input);
      CompleteGuards(Closed(ms, e), CallOf(e, tool.value), text);
      FinishGuards(Closed(ms, e), CallOf(e, tool.value), info);
    }
  }

  lemma ReplayChunkGuards(ms: seq<ChatMessage>, e: Event, chunk: Option<OutputPart>, k: string)
    requires AllGuarded(ms)
    ensures AllGuarded(ReplayChunk(ms, e, chunk, k))
  {
    hide AllGuarded, ReplayOutput;
    if chunk.Some? {
      ReplayOutputGuards(ms, e, chunk.value.tool, chunk.value.chunk, k);
    }
  }

  const NO_RESULT := ResultInfo(false, Completed, None, "", "")

  lemma ToolEventGuards(ms: seq<ChatMessage>, e: Event)
    requires AllGuarded(ms)
    ensures AllGuarded(ApplyTool(ms, e))
  {
    hide AllGuarded, ReplayStart, ReplayContentDelta, ReplayResult, ReplayChunk, ReplayToolUse, OutputMarker, CommandMarker;
    match e.body
    case ContentStart(tool) => ReplayCallGuards(ms, e, tool, None, "", NO_RESULT);
    case ContentDelta(text, tool, input, output) => ContentGuards(ms, e, text, tool, input, output);
    case ToolUseComplete(tool, input) => ReplayCallGuards(ms, e, tool, None, input, NO_RESULT);
    case ToolResultEvent(tool, info) => ReplayCallGuards(ms, e, tool, None, "", info);
    case ToolStarted(tool, arguments) => ReplayCallGuards(ms, e, tool, arguments, "", NO_RESULT);
    case ToolFinished(tool, info) => ReplayCallGuards(ms, e, tool, None, "", info);
    case ToolOutputEvent(chunk) => ReplayChunkGuards(ms, e, chunk, OutputMarker(e));
    case CommandStarted(tool) => ReplayCallGuards(ms, e, tool, None, "", NO_RESULT);
    case CommandOutput(stream, chunk) => ReplayChunkGuards(ms, e, chunk, CommandMarker(e, stream));
    case CommandFinished(_, tool, info) => ReplayCallGuards(ms, e, tool, None, "", info);
    case _ =>
  }

  lemma ReplayCompletedGuards(env: Environment, ms: seq<ChatMessage>, e: Event, id: string, content: string)
    requires AllGuarded(ms)
    ensures AllGuarded(ReplayCompleted(env, ms, e, id, content)) && AllGuarded(ReplayCompat(env, ms, e, id, content))
  {
    hide AllGuarded, Closed, CompleteMessage, CompleteChatCompat;
    var c := CompletionOf(e, id, content);
    CompletionGuards(env.resolve, ms, c);
    CompatGuards(env.resolve, ms, c);
    ClosedGuards(ms, e);
    ClosedGuards(CompleteMessage(env.resolve, ms, c), e);
    ClosedGuards(CompleteChatCompat(env.resolve, ms, c), e);
  }

  lemma ReplayTaskEndGuards(ms: seq<ChatMessage>, e: Event)
    requires AllGuarded(ms)
    ensures AllGuarded(ReplayTaskEnd(ms, e))
  {
    hide AllGuarded, Closed, StopStreaming;
    StopGuards(ms, e.sessionId, e.taskId);
    ClosedGuards(StopStreaming(ms, e.sessionId, e.taskId), e);
  }

  lemma MessageEventGuards(env: Environment, ms: seq<ChatMessage>, e: Event)
    requires AllGuarded(ms)
    ensures AllGuarded(ApplyMessage(env, ms, e))
  {
    hide AllGuarded, ReplayText, UpdateThinking, ReplayCompat, ReplayCompleted, ReplayTaskEnd;
    match e.body
    case MessageDelta(text) => ReplayTextGuards(ms, e, text);
    case ThinkingEvent(text, source) => ThinkingGuards(ms, ThoughtOf(e, text, source));
    case ChatMessageComplete(id, content) => ReplayCompletedGuards(env, ms, e, id, content);
    case MessageCompleted(id, content) => ReplayCompletedGuards(env, ms, e, id, content);
    case TaskEnded(_) => ReplayTaskEndGuards(ms, e);
    case _ =>
  }

  lemma ReplayPermissionGuards(ms: seq<ChatMessage>, e: Event, p: Permission)
    requires AllGuarded(ms)
    ensures AllGuarded(ReplayPermission(ms, e, Some(p))) && AllGuarded(ReplayPermissionAnswer(ms, e, Some(p)))
    ensures AllGuarded(ReplayApproval(ms, e, Some(p)))
  {
    hide AllGuarded, Closed, RequestPermission, ResolvePermission, ResolveApproval;
    ClosedGuards(ms, e);
    PermissionGuards(Closed(ms, e), PermissionOf(e, p));
    PermissionGuards(ms, PermissionOf(e, p));
    ApproverGuards(ResolvePermission(ms, PermissionOf(e, p)), p.requestId, p.rejected, e.ts);
  }

  lemma NoticeEventGuards(ms: seq<ChatMessage>, e: Event)
    requires AllGuarded(ms)
    ensures AllGuarded(ApplyNotice(ms, e))
  {
    hide AllGuarded, Closed, RequestPermission, ResolvePermission, ResolveApproval, AnswerQuestion, AppendSpecial;
    ClosedGuards(ms, e);
    match e.body
    case PermissionRequested(p) => if p.Some? { ReplayPermissionGuards(ms, e, p.value); }
    case PermissionAnswered(p) => if p.Some? { ReplayPermissionGuards(ms, e, p.value); }
    case SpecialOccurred(s) =>
      SpecialGuards(ms, SpecialOf(e, s));
      SpecialGuards(Closed(ms, e), SpecialOf(e, s));
    case QuestionAnswered(a) => if a.Some? { AnswerGuards(ms, a.value.(now := e.ts)); }
    case ApprovalResolved(p) => if p.Some? { ReplayPermissionGuards(ms, e, p.value); }
    case _ =>
  }

  lemma ApplyGuards(env: Environment, ms: seq<ChatMessage>, e: Event)
    requires AllGuarded(ms)
    ensures AllGuarded(Apply(env, ms, e))
  {
    hide AllGuarded, ApplyTool, ApplyMessage, ApplyNotice, IsToolEvent, IsMessageEvent;
    ToolEventGuards(ms, e);
    MessageEventGuards(env, ms, e);
    NoticeEventGuards(ms, e);
  }

  lemma EventGuards(env: Environment, ms: seq<ChatMessage>, e: Event)
    requires AllGuarded(ms)
    ensures AllGuarded(ReplayEvent(env, ms, e))
  {
    hide AllGuarded, Apply, Shows;
    ApplyGuards(env, ms, e);
  }

  /** The invariant of every run, whatever its events. */
  lemma {:induction false} RunGuards(env: Environment, s: ReplayState, es: seq<Event>)
    requires AllGuarded(s.messages)
    ensures AllGuarded(ReplayAll(env, s, es).messages)
  {
    hide AllGuarded, ReplayEvent, ReplayDrops, CancelledAfter;
    if es != [] {
      RunGuards(env, s, es[..|es| - 1]);
      EventGuards(env, ReplayAll(env, s, es[..|es| - 1]).messages, es[|es| - 1]);
    }
  }

  // ---- Text -------------------------------------------------------------------------------------------

  /** A delta for a message, not for a block. */
  predicate TextIds(d: TextDelta) {
    !BlockLike(TextTargetId(d)) && !BlockLike(Trim(d.messageId))
  }

  lemma AttachableIsOpen(m: ChatMessage, sessionId: string, taskId: string)
    requires Guarded(m) && Attachable(m, sessionId, taskId)
    ensures !Protected(m)
  {
    if "assistant_pending_" <= m.id {
      assert m.id[0] == 'a' && m.id[10] == 'p';
      assert "assistant_thinking:"[10] == 't';
    }
  }

  /** The message found under the delta's id decides; streaming text it may fall back to is never protected. */
  lemma {:induction false} GuardedTarget(ms: seq<ChatMessage>, d: TextDelta)
    requires AllGuarded(ms)
    ensures var source := TextSource(ms, d);
            var exact := FindIndex(HasId(TextTargetId(d)), source);
            TargetUnprotected(ms, d) <==> (exact >= 0 ==> !Protected(source[exact]))
  {
    hide Guarded, Protected, TextTargetId, HasBlockIdentity, Attachable, TextSource;
    var source, i := TextSource(ms, d), TextTarget(ms, d);
    SourceGuards(ms, d);
    MemberGuarded(source, i);
    if i >= 0 && FindIndex(HasId(TextTargetId(d)), source) < 0 {
      AttachableIsOpen(source[i], d.sessionId, d.taskId);
    }
  }

  lemma {:induction false} PlainIdsSpare(ms: seq<ChatMessage>, d: TextDelta)
    requires AllGuarded(ms) && TextIds(d)
    ensures TargetUnprotected(ms, d) && BaseUnprotected(ms, d)
  {
    hide BlockLike, Protected, TextTargetId, HasBlockIdentity, TextSource, TextTarget;
    var source := TextSource(ms, d);
    GuardedTarget(ms, d);
    SourceGuards(ms, d);
    MemberGuarded(source, FindIndex(HasId(TextTargetId(d)), source));
  }

  /**
   At every moment of every replay a text delta whose ids are not those of blocks leaves the sequence of
   tool, thinking and permission blocks exactly as it was.
   */
  lemma {:induction false} TextSparesAlways(env: Environment, s: ReplayState, es: seq<Event>, n: nat, d: TextDelta)
    requires AllGuarded(s.messages) && n <= |es| && TextIds(d)
    ensures var ms := ReplayAll(env, s, es[..n]).messages;
            Filter(ProtectedOnly(), AppendTextDelta(ms, d)) == Filter(ProtectedOnly(), ms)
  {
    hide AllGuarded, ReplayAll, Filter, AppendTextDelta, TextIds, TargetUnprotected, BaseUnprotected;
    RunGuards(env, s, es[..n]);
    PlainIdsSpare(ReplayAll(env, s, es[..n]).messages, d);
    TextSparesIff(ReplayAll(env, s, es[..n]).messages, d);
  }

  /** So no message delta of the run itself writes into one. */
  lemma {:induction false} TextEventSpares(env: Environment, s: ReplayState, es: seq<Event>, n: nat)
    requires AllGuarded(s.messages) && n < |es| && es[n].body.MessageDelta?
    requires es[n].body.delta.Some? ==> TextIds(DeltaOf(es[n], es[n].body.delta.value))
    ensures Filter(ProtectedOnly(), ReplayAll(env, s, es[..n + 1]).messages)
            == Filter(ProtectedOnly(), ReplayAll(env, s, es[..n]).messages)
  {
    hide AllGuarded, Filter, AppendTextDelta, TextIds, DeltaOf, Shows, ReplayDrops, CancelledAfter;
    assert es[..n + 1][..n] == es[..n] && es[..n + 1][n] == es[n];
    if es[n].body.delta.Some? {
      TextSparesAlways(env, s, es, n, DeltaOf(es[n], es[n].body.delta.value));
    }
  }
}
