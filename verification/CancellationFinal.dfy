/** Once a task's cancellation was replayed, nothing of that task streams again. */
module CancellationFinal {
  import opened Seqs
  import opened ChatMessages
  import opened MessageUpdates
  import opened ToolBlocks
  import opened TraceEvents
  import opened TraceReplay

  datatype StreamKey = StreamKey(sessionId: string, taskId: string)

  predicate Streams(m: ChatMessage) {
    m.streaming && m.role == Assistant
  }

  /** The sessions and tasks with a streaming assistant message. */
  function Streaming(ms: seq<ChatMessage>): set<StreamKey> {
    set m | m in ms && Streams(m) :: StreamKey(m.sessionId, m.taskId)
  }

  /** Only streams of the given task may be new. */
  ghost predicate OnlyStarts(before: seq<ChatMessage>, after: seq<ChatMessage>, taskId: string) {
    forall k | k in Streaming(after) :: k in Streaming(before) || k.taskId == taskId
  }

  // ---- Shapes of updates ---------------------------------------------------------------

  lemma UpsertStarts(ms: seq<ChatMessage>, i: int, m: ChatMessage, taskId: string)
    requires i < |ms|
    requires Streams(m) ==> m.taskId == taskId || StreamKey(m.sessionId, m.taskId) in Streaming(ms)
    ensures OnlyStarts(ms, Upsert(ms, i, m), taskId)
  {
    var after := Upsert(ms, i, m);
    assert forall x | x in after :: x == m || x in ms;
  }

  lemma SubsetStarts(before: seq<ChatMessage>, after: seq<ChatMessage>, taskId: string)
    requires forall m | m in after :: m in before
    ensures OnlyStarts(before, after, taskId)
  {
  }

  /** f starts no stream of another task. */
  ghost predicate Quiet(f: ChatMessage -> ChatMessage, taskId: string) {
    forall m: ChatMessage :: Streams(f(m)) ==>
      f(m).taskId == taskId || (Streams(m) && f(m).sessionId == m.sessionId && f(m).taskId == m.taskId)
  }

  lemma {:induction false} MapStarts(f: ChatMessage -> ChatMessage, ms: seq<ChatMessage>, taskId: string)
    requires Quiet(f, taskId)
    ensures OnlyStarts(ms, Map(f, ms), taskId)
  {
    var after := Map(f, ms);
    forall k | k in Streaming(after) ensures k in Streaming(ms) || k.taskId == taskId {
      var m :| m in after && Streams(m) && k == StreamKey(m.sessionId, m.taskId);
      var i :| 0 <= i < |after| && after[i] == m;
      assert ms[i] in ms && f(ms[i]) == m;
    }
  }

  // ---- The updates ------------------------------------------------------------------------

  lemma TextStarts(ms: seq<ChatMessage>, d: TextDelta)
    ensures OnlyStarts(ms, AppendTextDelta(ms, d), d.taskId)
  {
    var source := TextSource(ms, d);
    FilterMembers(NotEmptyBase(d), ms);
    SubsetStarts(ms, source, d.taskId);
    var i := TargetIndex(source, TextTargetId(d), d.sessionId, d.taskId, !HasBlockIdentity(d));
    UpsertStarts(source, i, if i >= 0 then TextUpdated(source[i], d) else TextCreated(d), d.taskId);
  }

  lemma CompletionStarts(resolve: Resolver, ms: seq<ChatMessage>, c: Completion)
    ensures OnlyStarts(ms, CompleteMessage(resolve, ms, c), c.taskId)
  {
    MapStarts(SettleBlock(c), ms, c.taskId);
    var i := TargetIndex(ms, c.messageId, c.sessionId, c.taskId, true);
    UpsertStarts(ms, i, if i >= 0 then CompletedText(resolve, ms[i], c) else CompletionCreated(c), c.taskId);
  }

  lemma CompatStarts(resolve: Resolver, ms: seq<ChatMessage>, c: Completion)
    ensures OnlyStarts(ms, CompleteChatCompat(resolve, ms, c), c.taskId)
  {
    MapStarts(SettleBlock(c), ms, c.taskId);
    MapStarts(SettleTask(c), ms, c.taskId);
    CompletionStarts(resolve, Map(SettleTask(c), ms), c);
  }

  lemma ThinkingStarts(ms: seq<ChatMessage>, u: ThinkingUpdate)
    ensures OnlyStarts(ms, UpdateThinking(ms, u), u.taskId)
  {
    var i := ThinkingIndex(ms, u);
    UpsertStarts(ms, i, if i >= 0 then ContinuedThinking(ms[i], u) else NewThinking(NewThinkingId(ms, u), u), u.taskId);
  }

  lemma {:induction false} RemoveThinkingMembers(ms: seq<ChatMessage>, sessionId: string, taskId: string, now: int)
    ensures forall m | m in RemoveThinking(ms, sessionId, taskId, now) :: m in ms || !m.streaming
  {
    if ms != [] {
      RemoveThinkingMembers(ms[..|ms| - 1], sessionId, taskId, now);
      assert ms == ms[..|ms| - 1] + [ms[|ms| - 1]];
    }
  }

  lemma ClosedStarts(ms: seq<ChatMessage>, e: Event)
    ensures OnlyStarts(ms, Closed(ms, e), e.taskId)
    ensures Streaming(Closed(ms, e)) <= Streaming(ms)
  {
    RemoveThinkingMembers(ms, e.sessionId, e.taskId, e.ts);
  }

  lemma PermissionStarts(ms: seq<ChatMessage>, p: Permission)
    ensures OnlyStarts(ms, RequestPermission(ms, p), p.taskId)
  {
    var i := FindIndex(HasId(PermissionId(p.requestId)), ms);
    UpsertStarts(ms, i, PermissionMessage(p, if i >= 0 then ms[i].createdAt else p.now, None), p.taskId);
  }

  lemma PermissionAnswerStarts(ms: seq<ChatMessage>, p: Permission)
    ensures OnlyStarts(ms, ResolvePermission(ms, p), p.taskId)
  {
    var i := FindIndex(HasId(PermissionId(p.requestId)), ms);
    if i >= 0 {
      assert ms[i] in ms;
      UpsertStarts(ms, i, PermissionResolved(ms[i], p), p.taskId);
    } else {
      UpsertStarts(ms, i, PermissionMessage(p, p.now, DecisionStatus(p.rejected)), p.taskId);
    }
  }

  lemma SpecialStarts(ms: seq<ChatMessage>, s: SpecialEvent)
    ensures OnlyStarts(ms, AppendSpecial(ms, s), s.taskId)
  {
    var i := FindIndex(HasId(SpecialId(s)), ms);
    UpsertStarts(ms, i, SpecialMessage(s, if i >= 0 then Some(ms[i]) else None), s.taskId);
  }

  lemma StartStarts(ms: seq<ChatMessage>, call: ToolCall, input: Option<string>)
    ensures OnlyStarts(ms, StartTool(ms, call, input), call.taskId)
  {
    var i := FindIndex(StartTarget(call.toolUseId), ms);
    UpsertStarts(ms, i, if i >= 0 then Started(ms[i], call, input) else StartedNew(call, input), call.taskId);
  }

  lemma InputStarts(ms: seq<ChatMessage>, call: ToolCall, delta: string)
    ensures OnlyStarts(ms, AppendToolInput(ms, call, delta), call.taskId)
  {
    var i := FindIndex(HasId(ToolUseId(call.toolUseId)), ms);
    UpsertStarts(ms, i, if i >= 0 then WithInput(ms[i], call, delta) else InputNew(call, delta), call.taskId);
  }

  lemma OutputStarts(ms: seq<ChatMessage>, call: ToolCall, stream: Stream, delta: string)
    ensures OnlyStarts(ms, AppendToolOutput(ms, call, stream, delta), call.taskId)
  {
    var i := FindIndex(OutputTarget(call.toolUseId), ms);
    UpsertStarts(ms, i, if i >= 0 then WithOutput(ms[i], call, stream, delta) else OutputNew(call, stream, delta), call.taskId);
  }

  lemma CompleteStarts(ms: seq<ChatMessage>, call: ToolCall, input: string)
    ensures OnlyStarts(ms, CompleteTool(ms, call, input), call.taskId)
  {
    var i := FindIndex(CompleteTarget(call.toolUseId), ms);
    UpsertStarts(ms, i, if i >= 0 then CompletedCall(ms[i], call, input) else CompletedNew(call, input), call.taskId);
  }

  lemma {:induction false} WithoutIdMembers(ms: seq<ChatMessage>, keep: int, id: string)
    ensures forall m | m in WithoutId(ms, keep, id) :: m in ms
  {
    if ms != [] {
      WithoutIdMembers(ms[..|ms| - 1], keep, id);
      assert ms == ms[..|ms| - 1] + [ms[|ms| - 1]];
    }
  }

  lemma FinishStarts(ms: seq<ChatMessage>, call: ToolCall, r: ResultInfo)
    ensures OnlyStarts(ms, FinishTool(ms, call, r), call.taskId)
  {
    var block := FindIndex(BlockOf(call.toolUseId), ms);
    if block >= 0 {
      var updated := ms[block := WithResult(ms[block], call, r)];
      UpsertStarts(ms, block, WithResult(ms[block], call, r), call.taskId);
      WithoutIdMembers(updated, block, ToolResultId(call.toolUseId));
      SubsetStarts(updated, WithoutId(updated, block, ToolResultId(call.toolUseId)), call.taskId);
    } else {
      var i := FindIndex(HasId(ToolResultId(call.toolUseId)), ms);
      UpsertStarts(ms, i, ResultMessage(call, r, if i >= 0 then Some(ms[i]) else None), call.taskId);
    }
  }

  /** Stopping a task ends every stream it had in that session. */
  lemma StopEndsStreams(ms: seq<ChatMessage>, sessionId: string, taskId: string)
    ensures StreamKey(sessionId, taskId) !in Streaming(StopStreaming(ms, sessionId, taskId))
    ensures Streaming(StopStreaming(ms, sessionId, taskId)) <= Streaming(ms)
  {
    var stopped := Map(Stopper(sessionId, taskId), ms);
    FilterMembers(KeptWhenStopped(sessionId, taskId), stopped);
    forall m | m in stopped && Streams(m) ensures m in ms && StreamKey(m.sessionId, m.taskId) != StreamKey(sessionId, taskId) {
      var i :| 0 <= i < |stopped| && stopped[i] == m;
      assert Stopper(sessionId, taskId)(ms[i]) == m;
    }
  }

  // ---- Events ---------------------------------------------------------------------------------

  lemma MarkStarts(ms: seq<ChatMessage>, toolUseId: string, marker: string, taskId: string)
    ensures OnlyStarts(ms, MarkTool(ms, toolUseId, marker), taskId)
  {
    MapStarts(WithMarker(toolUseId, marker), ms, taskId);
  }

  lemma ReplayInputStarts(ms: seq<ChatMessage>, e: Event, tool: ToolInfo, delta: string)
    ensures OnlyStarts(ms, ReplayInput(ms, e, tool, delta), e.taskId)
  {
    var fed := AppendToolInput(Closed(ms, e), CallOf(e, tool), delta);
    ClosedStarts(ms, e);
    InputStarts(Closed(ms, e), CallOf(e, tool), delta);
    MarkStarts(fed, tool.toolUseId, InputMarker(e), e.taskId);
  }

  lemma ReplayOutputStarts(ms: seq<ChatMessage>, e: Event, tool: ToolInfo, chunk: Chunk, marker: string)
    ensures OnlyStarts(ms, ReplayOutput(ms, e, tool, chunk, marker), e.taskId)
  {
    var fed := AppendToolOutput(Closed(ms, e), CallOf(e, tool), chunk.stream, chunk.delta);
    ClosedStarts(ms, e);
    OutputStarts(Closed(ms, e), CallOf(e, tool), chunk.stream, chunk.delta);
    MarkStarts(fed, tool.toolUseId, marker, e.taskId);
  }

  lemma ReplayTextStarts(ms: seq<ChatMessage>, e: Event, part: Option<TextPart>)
    ensures OnlyStarts(ms, ReplayText(ms, e, part), e.taskId)
  {
    if part.Some? {
      TextStarts(ms, DeltaOf(e, part.value));
    }
  }

  lemma ContentDeltaStarts(ms: seq<ChatMessage>, e: Event, text: Option<TextPart>, tool: ToolInfo, input: Option<string>,
                           output: Option<Chunk>)
    ensures OnlyStarts(ms, ReplayContentDelta(ms, e, text, tool, input, output), e.taskId)
  {
    var texted, owner := ReplayText(ms, e, text), ContentTool(e, tool);
    ReplayTextStarts(ms, e, text);
    SubsetStarts(texted, texted, e.taskId);
    var fed := if input.Some? then ReplayInput(texted, e, owner, input.value) else texted;
    if input.Some? {
      ReplayInputStarts(texted, e, owner, input.value);
    }
    if output.Some? {
      ReplayOutputStarts(fed, e, owner, output.value, OutputMarker(e));
    }
  }

  lemma ReplayStartStarts(ms: seq<ChatMessage>, e: Event, tool: Option<ToolInfo>, input: Option<string>)
    ensures OnlyStarts(ms, ReplayStart(ms, e, tool, input), e.taskId)
  {
    if tool.Some? {
      ClosedStarts(ms, e);
      StartStarts(Closed(ms, e), CallOf(e, tool.value), input);
    }
  }

  lemma ReplayToolUseStarts(ms: seq<ChatMessage>, e: Event, tool: Option<ToolInfo>, input: string)
    ensures OnlyStarts(ms, ReplayToolUse(ms, e, tool, input), e.taskId)
  {
    if tool.Some? {
      ClosedStarts(ms, e);
      CompleteStarts(Closed(ms, e), CallOf(e, tool.value), input);
    }
  }

  lemma ReplayChunkStarts(ms: seq<ChatMessage>, e: Event, chunk: Option<OutputPart>, marker: string)
    ensures OnlyStarts(ms, ReplayChunk(ms, e, chunk, marker), e.taskId)
  {
    if chunk.Some? {
      ReplayOutputStarts(ms, e, chunk.value.tool, chunk.value.chunk, marker);
    }
  }

  lemma ReplayAnswerStarts(ms: seq<ChatMessage>, e: Event, a: Option<Answer>)
    ensures OnlyStarts(ms, ReplayAnswer(ms, e, a), e.taskId)
  {
    if a.Some? {
      MapStarts(Answerer(a.value.(now := e.ts)), ms, e.taskId);
    }
  }

  lemma ReplayResultStarts(ms: seq<ChatMessage>, e: Event, tool: Option<ToolInfo>, info: ResultInfo)
    ensures OnlyStarts(ms, ReplayResult(ms, e, tool, info), e.taskId)
  {
    if tool.Some? {
      ClosedStarts(ms, e);
      FinishStarts(Closed(ms, e), CallOf(e, tool.value), info);
    }
  }

  lemma ReplayCompletedStarts(env: Environment, ms: seq<ChatMessage>, e: Event, messageId: string, content: string)
    ensures OnlyStarts(ms, ReplayCompleted(env, ms, e, messageId, content), e.taskId)
  {
    var c := CompletionOf(e, messageId, content);
    CompletionStarts(env.resolve, ms, c);
    ClosedStarts(ms, e);
    ClosedStarts(CompleteMessage(env.resolve, ms, c), e);
  }

  lemma ReplayApprovalStarts(ms: seq<ChatMessage>, e: Event, p: Option<Permission>)
    ensures OnlyStarts(ms, ReplayApproval(ms, e, p), e.taskId)
  {
    if p.Some? {
      PermissionAnswerStarts(ms, PermissionOf(e, p.value));
      MapStarts(ApprovalResolver(p.value.requestId, p.value.rejected, e.ts), ResolvePermission(ms, PermissionOf(e, p.value)), e.taskId);
    }
  }

  lemma ReplaySpecialStarts(ms: seq<ChatMessage>, e: Event, s: SpecialEvent)
    ensures OnlyStarts(ms, ReplaySpecial(ms, e, s), e.taskId)
  {
    ClosedStarts(ms, e);
    SpecialStarts(ms, SpecialOf(e, s));
    SpecialStarts(Closed(ms, e), SpecialOf(e, s));
  }

  lemma ReplayCompatStarts(env: Environment, ms: seq<ChatMessage>, e: Event, messageId: string, content: string)
    ensures OnlyStarts(ms, ReplayCompat(env, ms, e, messageId, content), e.taskId)
  {
    CompatStarts(env.resolve, ms, CompletionOf(e, messageId, content));
    ClosedStarts(CompleteChatCompat(env.resolve, ms, CompletionOf(e, messageId, content)), e);
  }

  lemma ReplayPermissionStarts(ms: seq<ChatMessage>, e: Event, p: Option<Permission>)
    ensures OnlyStarts(ms, ReplayPermission(ms, e, p), e.taskId)
    ensures OnlyStarts(ms, ReplayPermissionAnswer(ms, e, p), e.taskId)
  {
    if p.Some? {
      ClosedStarts(ms, e);
      PermissionStarts(Closed(ms, e), PermissionOf(e, p.value));
      PermissionAnswerStarts(ms, PermissionOf(e, p.value));
    }
  }

  lemma TaskEndStarts(ms: seq<ChatMessage>, e: Event)
    ensures Streaming(ReplayTaskEnd(ms, e)) <= Streaming(ms)
    ensures OnlyStarts(ms, ReplayTaskEnd(ms, e), e.taskId)
    ensures StreamKey(e.sessionId, e.taskId) !in Streaming(ReplayTaskEnd(ms, e))
  {
    StopEndsStreams(ms, e.sessionId, e.taskId);
    ClosedStarts(StopStreaming(ms, e.sessionId, e.taskId), e);
  }

  lemma ToolEventStarts(ms: seq<ChatMessage>, e: Event)
    ensures OnlyStarts(ms, ApplyTool(ms, e), e.taskId)
  {
    hide OnlyStarts, ReplayStart, ReplayContentDelta, ReplayResult, ReplayOutput, ReplayToolUse, CompleteTool, Closed;
    match e.body
    case ContentStart(tool) => ReplayStartStarts(ms, e, tool, None);
    case ContentDelta(text, tool, input, output) => ContentDeltaStarts(ms, e, text, tool, input, output);
    case ToolUseComplete(tool, input) => ReplayToolUseStarts(ms, e, tool, input);
    case ToolResultEvent(tool, info) => ReplayResultStarts(ms, e, tool, info);
    case ToolStarted(tool, arguments) => ReplayStartStarts(ms, e, tool, arguments);
    case ToolFinished(tool, info) => ReplayResultStarts(ms, e, tool, info);
    case ToolOutputEvent(chunk) => ReplayChunkStarts(ms, e, chunk, OutputMarker(e));
    case CommandStarted(tool) => ReplayStartStarts(ms, e, tool, None);
    case CommandOutput(stream, chunk) => ReplayChunkStarts(ms, e, chunk, CommandMarker(e, stream));
    case CommandFinished(_, tool, info) => ReplayResultStarts(ms, e, tool, info);
    case _ => SubsetStarts(ms, ms, e.taskId);
  }

  lemma MessageEventStarts(env: Environment, ms: seq<ChatMessage>, e: Event)
    ensures OnlyStarts(ms, ApplyMessage(env, ms, e), e.taskId)
  {
    hide OnlyStarts, ReplayText, UpdateThinking, ReplayCompat, ReplayCompleted, ReplayTaskEnd;
    match e.body
    case MessageDelta(text) => ReplayTextStarts(ms, e, text);
    case ThinkingEvent(text, source) => ThinkingStarts(ms, ThoughtOf(e, text, source));
    case ChatMessageComplete(id, content) => ReplayCompatStarts(env, ms, e, id, content);
    case MessageCompleted(id, content) => ReplayCompletedStarts(env, ms, e, id, content);
    case TaskEnded(_) => TaskEndStarts(ms, e);
    case _ => SubsetStarts(ms, ms, e.taskId);
  }

  lemma NoticeEventStarts(ms: seq<ChatMessage>, e: Event)
    ensures OnlyStarts(ms, ApplyNotice(ms, e), e.taskId)
  {
    hide OnlyStarts, ReplayPermission, ReplayPermissionAnswer, ReplaySpecial, ReplayAnswer, ReplayApproval;
    match e.body
    case PermissionRequested(p) => ReplayPermissionStarts(ms, e, p);
    case PermissionAnswered(p) => ReplayPermissionStarts(ms, e, p);
    case SpecialOccurred(s) => ReplaySpecialStarts(ms, e, s);
    case QuestionAnswered(a) => ReplayAnswerStarts(ms, e, a);
    case ApprovalResolved(p) => ReplayApprovalStarts(ms, e, p);
    case _ => SubsetStarts(ms, ms, e.taskId);
  }

  /** An event starts streams of its own task only. */
  lemma EventStarts(env: Environment, ms: seq<ChatMessage>, e: Event)
    ensures OnlyStarts(ms, ReplayEvent(env, ms, e), e.taskId)
  {
    hide OnlyStarts, ApplyTool, ApplyMessage, ApplyNotice;
    SubsetStarts(ms, ms, e.taskId);
    ToolEventStarts(ms, e);
    MessageEventStarts(env, ms, e);
    NoticeEventStarts(ms, e);
  }

  // ---- Runs ---------------------------------------------------------------------------------------

  /** A cancellation the transcript reacts to. */
  predicate EffectiveCancel(env: Environment, e: Event) {
    e.taskId != "" && IsCancel(e.body) && Shows(env, e)
  }

  ghost predicate Silenced(s: ReplayState, k: StreamKey) {
    k.taskId != "" && k.taskId in s.cancelled && k !in Streaming(s.messages)
  }

  lemma CancelSilences(env: Environment, s: ReplayState, e: Event)
    requires EffectiveCancel(env, e)
    ensures Silenced(ReplayStep(env, s, e), StreamKey(e.sessionId, e.taskId))
  {
    hide ReplayTaskEnd;
    TaskEndStarts(s.messages, e);
  }

  /** What the gate lets through of a cancelled task: it neither starts a stream nor lifts the cancellation. */
  lemma StaysSilenced(env: Environment, s: ReplayState, e: Event, k: StreamKey)
    requires Silenced(s, k)
    ensures Silenced(ReplayStep(env, s, e), k)
  {
    hide ReplayEvent;
    if !ReplayDrops(e, s.cancelled) {
      EventStarts(env, s.messages, e);
      if e.taskId == k.taskId {
        ExemptEventsStartNothing(env, s.messages, e);
      }
    }
  }

  lemma ExemptEventsStartNothing(env: Environment, ms: seq<ChatMessage>, e: Event)
    requires IsCancel(e.body) || IsCommandCancel(e.body) || e.body.SessionUpdated?
    ensures Streaming(ReplayEvent(env, ms, e)) <= Streaming(ms)
  {
    hide ReplayTaskEnd, FinishTool, Closed;
    if IsCancel(e.body) {
      TaskEndStarts(ms, e);
    } else if IsCommandCancel(e.body) && e.body.commandResult.Some? {
      ClosedStarts(ms, e);
      FinishStartsNothing(Closed(ms, e), CallOf(e, e.body.commandResult.value), e.body.commandInfo);
    }
  }

  lemma FinishStartsNothing(ms: seq<ChatMessage>, call: ToolCall, r: ResultInfo)
    ensures Streaming(FinishTool(ms, call, r)) <= Streaming(ms)
  {
    var block := FindIndex(BlockOf(call.toolUseId), ms);
    if block >= 0 {
      var updated := ms[block := WithResult(ms[block], call, r)];
      WithoutIdMembers(updated, block, ToolResultId(call.toolUseId));
      assert forall m | m in updated && Streams(m) :: m in ms;
    } else {
      assert forall m | m in FinishTool(ms, call, r) && Streams(m) :: m in ms;
    }
  }

  lemma {:induction false} StaysSilencedAll(env: Environment, s: ReplayState, es: seq<Event>, k: StreamKey)
    requires Silenced(s, k)
    ensures Silenced(ReplayAll(env, s, es), k)
  {
    hide ReplayStep, Silenced;
    if es != [] {
      StaysSilencedAll(env, s, es[..|es| - 1], k);
      StaysSilenced(env, ReplayAll(env, s, es[..|es| - 1]), es[|es| - 1], k);
    }
  }

  lemma {:induction false} ReplayAppend(env: Environment, s: ReplayState, xs: seq<Event>, ys: seq<Event>)
    ensures ReplayAll(env, s, xs + ys) == ReplayAll(env, ReplayAll(env, s, xs), ys)
  {
    hide ReplayStep;
    if ys == [] {
      assert xs + ys == xs;
    } else {
      var zs := xs + ys;
      ReplayAppend(env, s, xs, ys[..|ys| - 1]);
      assert zs[..|zs| - 1] == xs + ys[..|ys| - 1] && zs[|zs| - 1] == ys[|ys| - 1];
    }
  }

  /**
   Cancellation is final: from the moment a visible cancellation of a task was replayed, no state of
   the run has a streaming assistant message of that session and task, whatever the transcript held
   before and whatever events follow, of that task or others.
   */
  lemma {:induction false} CancellationIsFinal(env: Environment, start: ReplayState, es: seq<Event>, i: nat, n: nat)
    requires i < n <= |es| && EffectiveCancel(env, es[i])
    ensures StreamKey(es[i].sessionId, es[i].taskId) !in Streaming(ReplayAll(env, start, es[..n]).messages)
  {
    hide ReplayStep;
    var before, cancel, after := es[..i], es[i], es[i + 1..n];
    assert es[..n] == (before + [cancel]) + after;
    assert (before + [cancel])[..i] == before;
    ReplayAppend(env, start, before + [cancel], after);
    CancelSilences(env, ReplayAll(env, start, before), cancel);
    StaysSilencedAll(env, ReplayAll(env, start, before + [cancel]), after, StreamKey(cancel.sessionId, cancel.taskId));
  }
}
