/** What every replayed event leaves in the transcript. */
module EventOutcomes {
  import opened Seqs
  import opened Text
  import opened ContentDelta
  import opened ChatMessages
  import opened MessageUpdates
  import opened ToolBlocks
  import opened TraceEvents
  import opened TraceReplay
  import opened TextBlocks
  import opened ToolOutcomes
  import opened MessageOutcomes

  // ---- The boundary leaves what is no thinking ------------------------------------------------

  lemma {:induction false} ClosedMember(ms: seq<ChatMessage>, sessionId: string, taskId: string, now: int, m: ChatMessage)
    requires m.metadata.kind != Some(AssistantThinking)
    ensures m in RemoveThinking(ms, sessionId, taskId, now) <==> m in ms
  {
    hide IsTransient;
    if ms != [] {
      var init, last := ms[..|ms| - 1], ms[|ms| - 1];
      assert ms == init + [last];
      ClosedMember(init, sessionId, taskId, now, m);
    }
  }

  /** Of thinking, the boundary keeps only what it has closed. */
  lemma {:induction false} ClosedThinking(ms: seq<ChatMessage>, sessionId: string, taskId: string, now: int, m: ChatMessage)
    requires m in RemoveThinking(ms, sessionId, taskId, now) && m.streaming
    ensures m in ms
  {
    hide IsTransient;
    var init, last := ms[..|ms| - 1], ms[|ms| - 1];
    assert ms == init + [last];
    if m in RemoveThinking(init, sessionId, taskId, now) {
      ClosedThinking(init, sessionId, taskId, now, m);
    }
  }

  lemma At(ms: seq<ChatMessage>, i: int)
    requires 0 <= i < |ms|
    ensures ms[i] in ms
  {
  }

  // ---- Calls ------------------------------------------------------------------------------------

  /** The block of the event's call, written with the event's task, time and presentation. */
  predicate BlockWritten(n: ChatMessage, e: Event, tool: ToolInfo) {
    && IsBlockOf(n, tool.toolUseId) && n.taskId == e.taskId && n.updatedAt == e.ts
    && (tool.presentation.displayTitle.Some? ==> n.metadata.presentation.displayTitle == tool.presentation.displayTitle)
    && (tool.presentation.inputSummary.Some? ==> n.metadata.presentation.inputSummary == tool.presentation.inputSummary)
    && (tool.presentation.target.Some? ==> n.metadata.presentation.target == tool.presentation.target)
  }

  /** A started call has a block of its name and input, which reads the title. */
  predicate StartedBlock(n: ChatMessage, e: Event, tool: ToolInfo, input: Option<string>) {
    && BlockWritten(n, e, tool) && (tool.toolName.Some? ==> n.toolName == tool.toolName) && (input.Some? ==> n.metadata.rawInputText == input)
    && (TrimmedOr(tool.presentation.displayTitle) != "" ==> n.content == TrimmedOr(tool.presentation.displayTitle))
  }

  lemma {:induction false} TitleFirst(p: Presentation, current: Presentation)
    ensures TrimmedOr(p.displayTitle) != "" ==> InputDisplay(p, current) == TrimmedOr(p.displayTitle)
  {
    hide TrimmedOr;
  }

  lemma {:induction false} StartLands(ms: seq<ChatMessage>, e: Event, tool: ToolInfo, input: Option<string>)
    ensures exists n :: n in ReplayStart(ms, e, Some(tool), input) && StartedBlock(n, e, tool, input)
  {
    hide RemoveThinking, StartTool, FindIndex, InputDisplay, TrimmedOr, StartTarget;
    var closed, call := Closed(ms, e), CallOf(e, tool);
    var i, after := FindIndex(StartTarget(tool.toolUseId), closed), StartTool(closed, call, input);
    var k := if i >= 0 then i else |closed|;
    StartDoes(closed, call, input);
    TitleFirst(tool.presentation, if i >= 0 then closed[i].metadata.presentation else NO_PRESENTATION);
    OverlayIs(tool.presentation, if i >= 0 then closed[i].metadata.presentation else NO_PRESENTATION);
    At(after, k);
    assert StartedBlock(after[k], e, tool, input);
  }

  /** The call's block with the input merged in, and the event's marker. */
  ghost predicate InputLanded(n: ChatMessage, e: Event, tool: ToolInfo, delta: string) {
    && BlockWritten(n, e, tool) && n.id == "tool_use:" + tool.toolUseId && n.metadata.kind == Some(ToolUse) && n.streaming
    && n.metadata.rawInputText.Some? && (Holds(n.metadata.rawInputText.value, delta) || n.metadata.rawInputText == Some(TrimStart(AppendDelta("", delta))))
    && e.eventId + ":toolInput" in n.metadata.markers
  }

  lemma MarkedMessage(m: ChatMessage, x: string, k: string)
    requires m.metadata.toolUseId == Some(x)
    ensures var n := WithMarker(x, k)(m);
            n == m.(metadata := m.metadata.(markers := n.metadata.markers)) && k in n.metadata.markers
  {
  }

  lemma {:induction false} InputLands(ms: seq<ChatMessage>, e: Event, tool: ToolInfo, delta: string)
    requires !HasMarker(ms, tool.toolUseId, InputMarker(e))
    ensures exists n :: n in ReplayInput(ms, e, tool, delta) && InputLanded(n, e, tool, delta)
  {
    hide RemoveThinking, AppendToolInput, FindIndex, InputDisplay, TrimStart, AppendDelta, Holds, HasMarker, WithMarker, MergePresentation;
    var closed, call := Closed(ms, e), CallOf(e, tool);
    var i, put := FindIndex(HasId("tool_use:" + tool.toolUseId), closed), AppendToolInput(closed, call, delta);
    var k := if i >= 0 then i else |closed|;
    InputDoes(closed, call, delta);
    OverlayIs(tool.presentation, if i >= 0 then closed[i].metadata.presentation else NO_PRESENTATION);
    if i >= 0 {
      AppendedHolds(if closed[i].metadata.rawInputText.Some? then closed[i].metadata.rawInputText.value else "", delta);
    }
    var after := MarkTool(put, tool.toolUseId, InputMarker(e));
    MarkedMessage(put[k], tool.toolUseId, InputMarker(e));
    At(after, k);
    assert InputMarker(e) == e.eventId + ":toolInput";
    assert after[k] == WithMarker(tool.toolUseId, InputMarker(e))(put[k]);
    assert InputLanded(after[k], e, tool, delta);
  }

  predicate CompletedBlock(n: ChatMessage, e: Event, tool: ToolInfo, input: string) {
    && n.metadata.toolUseId == Some(tool.toolUseId) && IsToolBlock(n) && n.taskId == e.taskId && n.updatedAt == e.ts
    && n.status == Some(Completed) && !n.streaming && n.metadata.rawInputText == Some(input) && n.toolName == tool.toolName
    && (TrimmedOr(tool.presentation.displayTitle) != "" ==> n.content == TrimmedOr(tool.presentation.displayTitle))
  }

  lemma {:induction false} ToolUseLands(ms: seq<ChatMessage>, e: Event, tool: ToolInfo, input: string)
    ensures exists n :: n in ReplayToolUse(ms, e, Some(tool), input) && CompletedBlock(n, e, tool, input)
  {
    hide RemoveThinking, CompleteTool, FindIndex, InputDisplay, TrimmedOr, CompleteTarget, FirstText, MergePresentation;
    var closed, call := Closed(ms, e), CallOf(e, tool);
    var i, after := FindIndex(CompleteTarget(tool.toolUseId), closed), CompleteTool(closed, call, input);
    var k := if i >= 0 then i else |closed|;
    CompleteDoes(closed, call, input);
    TitleFirst(tool.presentation, if i >= 0 then closed[i].metadata.presentation else NO_PRESENTATION);
    FirstIsFirst(InputDisplay(tool.presentation, if i >= 0 then closed[i].metadata.presentation else NO_PRESENTATION),
                 [input, if tool.toolName.Some? then tool.toolName.value else "", TOOL_CALL_LABEL]);
    At(after, k);
    var current := if i >= 0 then closed[i].metadata.presentation else NO_PRESENTATION;
    assert [InputDisplay(tool.presentation, current)] + [input, if tool.toolName.Some? then tool.toolName.value else "", TOOL_CALL_LABEL]
           == [InputDisplay(tool.presentation, current), input, if tool.toolName.Some? then tool.toolName.value else "", TOOL_CALL_LABEL];
    assert CompletedBlock(after[k], e, tool, input);
  }

  lemma {:induction false} FirstIsFirst(a: string, rest: seq<string>)
    ensures a != "" ==> FirstText([a] + rest) == a
  {
  }

  /** The result of a call: the finished block, or a message of its own. */
  predicate ResultWritten(n: ChatMessage, e: Event, tool: ToolInfo, info: ResultInfo) {
    && n.metadata.toolUseId == Some(tool.toolUseId) && n.metadata.kind in {Some(ToolActivity), Some(ToolResult)}
    && n.taskId == e.taskId && n.updatedAt == e.ts && n.status == Some(info.status) && !n.streaming
    && (n.metadata.kind == Some(ToolActivity) && info.isError && ResultContent(CallOf(e, tool), info) != "" ==>
          n.content == ResultContent(CallOf(e, tool), info))
  }

  lemma {:induction false} ResultLands(ms: seq<ChatMessage>, e: Event, tool: ToolInfo, info: ResultInfo)
    ensures exists n :: n in ReplayResult(ms, e, Some(tool), info) && ResultWritten(n, e, tool, info)
  {
    hide RemoveThinking, FinishTool, FindIndex, ResultContent, Filter, IsBlockOf, SummaryDisplay;
    var closed, call := Closed(ms, e), CallOf(e, tool);
    var after := FinishTool(closed, call, info);
    var block := FindIndex(BlockOf(tool.toolUseId), closed);
    if block >= 0 {
      FinishDoes(closed, call, info);
      var n :| Finished(closed[block], n, call, info)
               && after == Filter(NotResult(tool.toolUseId), closed[..block]) + [n] + Filter(NotResult(tool.toolUseId), closed[block + 1..]);
      assert n in after;
      assert ResultWritten(n, e, tool, info);
    } else {
      FinishAloneDoes(closed, call, info);
      var i := FindIndex(HasId("tool_result:" + tool.toolUseId), closed);
      At(after, if i >= 0 then i else |closed|);
      assert ResultWritten(after[if i >= 0 then i else |closed|], e, tool, info);
    }
  }

  // ---- Messages -------------------------------------------------------------------------------------

  /** The id a text part goes to: the message it names, or the task's own. */
  function PartMessage(e: Event, part: TextPart): string {
    if Trim(part.messageId) != "" then part.messageId else "assistant_" + e.taskId
  }

  ghost predicate TextLanded(n: ChatMessage, e: Event, part: TextPart) {
    && n.taskId == e.taskId && n.updatedAt == e.ts && n.streaming && n.status == Some(Streaming)
    && (TrimmedOr(part.contentBlockId) == "" && part.blockIndex.None? ==> n.id == PartMessage(e, part))
    && (TrimmedOr(part.contentBlockId) != "" ==> n.id == "assistant_text:" + TrimmedOr(part.contentBlockId) && n.metadata.contentBlockId == part.contentBlockId)
    && (n.content == TrimStart(part.text) || Holds(n.content, part.text))
  }

  lemma {:induction false} TextLands(ms: seq<ChatMessage>, e: Event, part: TextPart)
    ensures exists n :: n in ReplayText(ms, e, Some(part)) && TextLanded(n, e, part)
  {
    hide AppendTextDelta, TextSource, AppendDelta, TrimStart, Trim, Holds, TextTarget;
    var d := DeltaOf(e, part);
    var source, i, after := TextSource(ms, d), TextTarget(ms, d), AppendTextDelta(ms, d);
    TextDoes(ms, d);
    TextTargetIs(d);
    BlankIsNothing();
    var k := if i >= 0 then i else |source|;
    if i >= 0 {
      AppendedHolds(source[i].content, d.delta);
    }
    At(after, k);
    assert TextLanded(after[k], e, part);
  }

  lemma BlankIsNothing()
    ensures Trim("") == []
  {
  }

  predicate ThoughtLanded(n: ChatMessage, e: Event, source: Option<string>) {
    && n.sessionId == e.sessionId && n.taskId == e.taskId && n.updatedAt == e.ts && n.streaming
    && n.metadata.kind == Some(AssistantThinking) && n.metadata.state == Some("thinking") && n.metadata.verb == None
    && (Trim(e.eventId) != "" ==> n.metadata.eventId == Some(Trim(e.eventId))) && (source.Some? ==> n.metadata.source == source)
  }

  lemma {:induction false} ThinkingLands(ms: seq<ChatMessage>, e: Event, text: Option<string>, source: Option<string>)
    ensures exists n :: n in UpdateThinking(ms, ThoughtOf(e, text, source)) && ThoughtLanded(n, e, source)
  {
    hide UpdateThinking, ThinkingIndex, Trim, ThinkingContent, AppendsThinkingText, ProviderSummary, AppendDelta;
    var u := ThoughtOf(e, text, source);
    var i, after := ThinkingIndex(ms, u), UpdateThinking(ms, u);
    ThinkingDoes(ms, u);
    At(after, if i >= 0 then i else |ms|);
    assert ThoughtLanded(after[if i >= 0 then i else |ms|], e, source);
  }

  /** The message a completion with text has settled. */
  predicate CompletionLanded(n: ChatMessage, e: Event, id: string) {
    n.id == id && n.taskId == e.taskId && n.updatedAt == e.ts && !n.streaming && !n.placeholder && n.status == Some(Completed)
  }

  lemma {:induction false} CompletionLands(env: Environment, ms: seq<ChatMessage>, e: Event, id: string, content: string)
    requires Trim(id) != "" && Trim(content) != "" && FindIndex(CompletesBlockOf(CompletionOf(e, id, content)), ms) < 0
    ensures exists n :: n in ReplayCompleted(env, ms, e, id, content) && CompletionLanded(n, e, id)
  {
    hide CompleteMessage, RemoveThinking, Trim, CompletesBlock, TargetIndex;
    var c := CompletionOf(e, id, content);
    var after := CompleteMessage(env.resolve, ms, c);
    CompletionDoes(env.resolve, ms, c);
    var i := TargetIndex(ms, id, e.sessionId, e.taskId, true);
    var n := after[if i >= 0 then i else |ms|];
    At(after, if i >= 0 then i else |ms|);
    CompletionIsNoThought(env, ms, c, i);
    ClosedMember(after, e.sessionId, e.taskId, e.ts, n);
    assert CompletionLanded(n, e, id);
  }

  lemma {:induction false} CompletionIsNoThought(env: Environment, ms: seq<ChatMessage>, c: Completion, i: int)
    requires i < |ms| && FindIndex(CompletesBlockOf(c), ms) < 0 && i == TargetIndex(ms, c.messageId, c.sessionId, c.taskId, true)
    requires Trim(c.content) != ""
    ensures CompleteMessage(env.resolve, ms, c)[if i >= 0 then i else |ms|].metadata.kind != Some(AssistantThinking)
  {
    hide TargetIndex, CompletesBlock, Trim;
  }

  /** In the older protocol too, once the message has no blocks. */
  lemma {:induction false} CompatLands(env: Environment, ms: seq<ChatMessage>, e: Event, id: string, content: string)
    requires id != "" && Trim(content) != "" && FindIndex(CompletesBlockOf(CompletionOf(e, id, content)), ms) < 0
    ensures exists n :: n in ReplayCompat(env, ms, e, id, content) && CompletionLanded(n, e, id)
  {
    hide CompleteMessage, RemoveThinking, Trim, TargetIndex, FindIndex, SettleTask;
    var c := CompletionOf(e, id, content);
    var next := Map(SettleTask(c), ms);
    forall i | 0 <= i < |next| ensures !CompletesBlockOf(c)(next[i]) {
      SettledNoBlock(c, ms[i]);
      assert !CompletesBlockOf(c)(ms[i]);
    }
    var after := CompleteMessage(env.resolve, next, c);
    CompletionDoes(env.resolve, next, c);
    var i := TargetIndex(next, id, e.sessionId, e.taskId, true);
    var n := after[if i >= 0 then i else |next|];
    At(after, if i >= 0 then i else |next|);
    CompletionIsNoThought(env, next, c, i);
    ClosedMember(after, e.sessionId, e.taskId, e.ts, n);
    assert CompletionLanded(n, e, id);
  }

  lemma SettledNoBlock(c: Completion, m: ChatMessage)
    ensures CompletesBlockOf(c)(SettleTask(c)(m)) <==> CompletesBlockOf(c)(m)
  {
    hide Trim;
  }

  // ---- Permissions, special events and the end of a task ------------------------------------------------

  /** The message of a permission request, in the event's session, task and time. */
  predicate RequestLanded(n: ChatMessage, e: Event, p: Permission) {
    && n.id == "permission_request:" + p.requestId && n.metadata.kind == Some(PermissionRequest) && n.metadata.requestId == Some(p.requestId)
    && n.sessionId == e.sessionId && n.taskId == e.taskId && n.updatedAt == e.ts && n.content == p.content && n.status == None
    && n.metadata.toolUseId == p.toolUseId && n.metadata.presentation == p.presentation && n.toolName == p.toolName
  }

  lemma {:induction false} RequestLands(ms: seq<ChatMessage>, e: Event, p: Permission)
    ensures exists n :: n in ReplayPermission(ms, e, Some(p)) && RequestLanded(n, e, p)
  {
    hide RemoveThinking, RequestPermission, FindIndex;
    var closed := Closed(ms, e);
    var i, after := FindIndex(HasId("permission_request:" + p.requestId), closed), RequestPermission(closed, PermissionOf(e, p));
    RequestDoes(closed, PermissionOf(e, p));
    At(after, if i >= 0 then i else |closed|);
    assert RequestLanded(after[if i >= 0 then i else |closed|], e, p);
  }

  /** The request is decided; an answer with details makes its message when there is none. */
  predicate Decided(n: ChatMessage, e: Event, p: Permission) {
    && n.id == "permission_request:" + p.requestId && n.metadata.kind == Some(PermissionRequest) && n.updatedAt == e.ts
    && n.status == Some(if p.rejected then Failed else Completed)
    && (p.toolUseId.Some? ==> n.metadata.toolUseId == p.toolUseId)
  }

  lemma {:induction false} AnswerLands(ms: seq<ChatMessage>, e: Event, p: Permission)
    requires (e.sessionId != "" && p.hasDetails) || exists m :: m in ms && m.id == "permission_request:" + p.requestId
    ensures exists n :: n in ReplayPermissionAnswer(ms, e, Some(p)) && Decided(n, e, p)
    ensures exists n :: n in ReplayApproval(ms, e, Some(p)) && Decided(n, e, p)
  {
    hide ResolvePermission, ResolveApproval, FindIndex;
    var id := "permission_request:" + p.requestId;
    var i, after := FindIndex(HasId(id), ms), ResolvePermission(ms, PermissionOf(e, p));
    forall m | m in ms && m.id == id ensures i >= 0 {
      var j :| 0 <= j < |ms| && ms[j] == m;
    }
    ResolveDoes(ms, PermissionOf(e, p));
    var k := if i >= 0 then i else |ms|;
    At(after, k);
    assert Decided(after[k], e, p);
    ApprovalDoes(after, p.requestId, p.rejected, e.ts);
    var both := ResolveApproval(after, p.requestId, p.rejected, e.ts);
    At(both, k);
    assert both[k] == after[k];
  }

  /** An approval answers the computer use permissions that wait for it, with or without a request's message. */
  lemma {:induction false} ApprovalLands(ms: seq<ChatMessage>, e: Event, p: Permission, i: nat)
    requires i < |ms| && AsksApproval(ms[i], p.requestId) && ms[i].id != "permission_request:" + p.requestId
    ensures var after := ReplayApproval(ms, e, Some(p));
            && |after| >= |ms|
            && after[i] == ms[i].(updatedAt := e.ts, status := Some(if p.rejected then Failed else Completed),
                                  metadata := ms[i].metadata.(kind := Some(ComputerUsePermission)))
  {
    hide ResolvePermission, ResolveApproval, FindIndex, Trim;
    ResolveDoes(ms, PermissionOf(e, p));
    ApprovalDoes(ResolvePermission(ms, PermissionOf(e, p)), p.requestId, p.rejected, e.ts);
  }

  predicate SpecialLanded(n: ChatMessage, e: Event, s: SpecialEvent) {
    && n.metadata.kind == Some(KindOfSpecial(s.kind)) && n.id == SpecialId(s.(eventId := e.eventId, taskId := e.taskId, now := e.ts)) && n.sessionId == e.sessionId && n.taskId == e.taskId
    && n.updatedAt == e.ts && n.status == s.status && !n.streaming && (Trim(s.content) != "" ==> n.content == s.content)
    && (s.requestId.Some? ==> n.metadata.requestId == s.requestId) && (s.approvalId.Some? ==> n.metadata.approvalId == s.approvalId)
    && (s.toolCallId.Some? ==> n.metadata.toolCallId == s.toolCallId) && (s.toolUseId.Some? ==> n.metadata.toolUseId == s.toolUseId)
  }

  /** The session has no part in the id. */
  lemma SpecialIdIs(e: Event, s: SpecialEvent)
    ensures SpecialId(SpecialOf(e, s)) == SpecialId(s.(eventId := e.eventId, taskId := e.taskId, now := e.ts))
  {
  }

  lemma {:induction false} SpecialLands(ms: seq<ChatMessage>, e: Event, s: SpecialEvent)
    ensures exists n :: n in ReplaySpecial(ms, e, s) && SpecialLanded(n, e, s)
  {
    hide RemoveThinking, AppendSpecial, FindIndex, Trim, SpecialName, KindOfSpecial, StableKey;
    var ground := if s.kind == AskUser || s.kind == ComputerUse then Closed(ms, e) else ms;
    var after := AppendSpecial(ground, SpecialOf(e, s));
    SpecialDoes(ground, SpecialOf(e, s));
    SpecialIdIs(e, s);
    var i := FindIndex(HasId(SpecialId(SpecialOf(e, s))), ground);
    At(after, if i >= 0 then i else |ground|);
    assert SpecialLanded(after[if i >= 0 then i else |ground|], e, s);
  }

  /** Nothing of a task streams behind its end. */
  lemma {:induction false} EndLands(ms: seq<ChatMessage>, e: Event)
    ensures forall n | n in ReplayTaskEnd(ms, e) :: !StreamsFor(n, e.sessionId, e.taskId)
    ensures forall n | n in ReplayTaskEnd(ms, e) && n.metadata.kind != Some(AssistantThinking) :: !BlankOf(n, e.sessionId, e.taskId)
  {
    hide StopStreaming, RemoveThinking, Filter, Trim;
    StopDoes(ms, e.sessionId, e.taskId);
    var after := StopStreaming(ms, e.sessionId, e.taskId);
    var stopped :|
      && |stopped| == |ms|
      && (forall i | 0 <= i < |ms| ::
            stopped[i] == if StreamsFor(ms[i], e.sessionId, e.taskId) then
                            ms[i].(streaming := false, placeholder := false, status := if ms[i].status == Some(Failed) then Some(Failed) else None)
                          else ms[i])
      && after == Filter(NotBlankOf(e.sessionId, e.taskId), stopped);
    FilterMembers(NotBlankOf(e.sessionId, e.taskId), stopped);
    forall n | n in ReplayTaskEnd(ms, e)
      ensures !StreamsFor(n, e.sessionId, e.taskId)
      ensures n.metadata.kind != Some(AssistantThinking) ==> !BlankOf(n, e.sessionId, e.taskId)
    {
      if n.streaming {
        ClosedThinking(after, e.sessionId, e.taskId, e.ts, n);
        var i :| 0 <= i < |stopped| && stopped[i] == n;
      }
      if n.metadata.kind != Some(AssistantThinking) {
        ClosedMember(after, e.sessionId, e.taskId, e.ts, n);
      }
    }
  }

  // ---- Events ------------------------------------------------------------------------------------------------

  /** What is in the transcript behind an event that shows. */
  ghost predicate Landed(ms: seq<ChatMessage>, after: seq<ChatMessage>, e: Event) {
    match e.body
    case ContentStart(Some(tool)) => exists n :: n in after && StartedBlock(n, e, tool, None)
    case ToolStarted(Some(tool), arguments) => exists n :: n in after && StartedBlock(n, e, tool, arguments)
    case CommandStarted(Some(tool)) => exists n :: n in after && StartedBlock(n, e, tool, None)
    case ToolUseComplete(Some(tool), input) => exists n :: n in after && CompletedBlock(n, e, tool, input)
    case ToolResultEvent(Some(tool), info) => exists n :: n in after && ResultWritten(n, e, tool, info)
    case ToolFinished(Some(tool), info) => exists n :: n in after && ResultWritten(n, e, tool, info)
    case CommandFinished(_, Some(tool), info) => exists n :: n in after && ResultWritten(n, e, tool, info)
    case MessageDelta(Some(part)) => exists n :: n in after && TextLanded(n, e, part)
    case ContentDelta(Some(part), _, None, None) => exists n :: n in after && TextLanded(n, e, part)
    case ContentDelta(None, tool, Some(delta), None) =>
      !HasMarker(ms, ContentTool(e, tool).toolUseId, e.eventId + ":toolInput") ==>
        exists n :: n in after && InputLanded(n, e, if tool.toolUseId != "" then tool else tool.(toolUseId := "pending_" + e.taskId), delta)
    case ChatMessageComplete(id, content) =>
      id != "" && Trim(content) != "" && FindIndex(CompletesBlockOf(CompletionOf(e, id, content)), ms) < 0 ==>
        exists n :: n in after && CompletionLanded(n, e, id)
    case ThinkingEvent(_, source) => exists n :: n in after && ThoughtLanded(n, e, source)
    case MessageCompleted(id, content) =>
      Trim(id) != "" && Trim(content) != "" && FindIndex(CompletesBlockOf(CompletionOf(e, id, content)), ms) < 0 ==>
        exists n :: n in after && CompletionLanded(n, e, id)
    case PermissionRequested(Some(p)) => exists n :: n in after && RequestLanded(n, e, p)
    case PermissionAnswered(Some(p)) => e.sessionId != "" && p.hasDetails ==> exists n :: n in after && Decided(n, e, p)
    case ApprovalResolved(Some(p)) => e.sessionId != "" && p.hasDetails ==> exists n :: n in after && Decided(n, e, p)
    case SpecialOccurred(s) => exists n :: n in after && SpecialLanded(n, e, s)
    case QuestionAnswered(Some(a)) =>
      && |after| == |ms|
      && forall i | 0 <= i < |ms| :: after[i] == if AsksQuestion(ms[i], a) then ms[i].(updatedAt := e.ts, status := Some(Completed)) else ms[i]
    case TaskEnded(_) => forall n | n in after :: !StreamsFor(n, e.sessionId, e.taskId)
    case _ => true
  }

  lemma {:induction false} ToolEventLands(env: Environment, ms: seq<ChatMessage>, e: Event)
    requires IsToolEvent(e.body)
    ensures Landed(ms, Apply(env, ms, e), e)
  {
    hide ReplayStart, ReplayToolUse, ReplayResult, ReplayText, StartedBlock, CompletedBlock, ResultWritten, TextLanded, InputLanded, ReplayToolParts, HasMarker;
    match e.body
    case ContentStart(Some(tool)) => StartLands(ms, e, tool, None);
    case ToolStarted(Some(tool), arguments) => StartLands(ms, e, tool, arguments);
    case CommandStarted(Some(tool)) => StartLands(ms, e, tool, None);
    case ToolUseComplete(Some(tool), input) => ToolUseLands(ms, e, tool, input);
    case ToolResultEvent(Some(tool), info) => ResultLands(ms, e, tool, info);
    case ToolFinished(Some(tool), info) => ResultLands(ms, e, tool, info);
    case CommandFinished(_, Some(tool), info) => ResultLands(ms, e, tool, info);
    case ContentDelta(Some(part), tool, None, None) =>
      TextLands(ms, e, part);
      NoToolParts(ReplayText(ms, e, Some(part)), e, ContentTool(e, tool));
    case ContentDelta(None, tool, Some(delta), None) => OnlyInput(ms, e, tool, delta);
    case _ =>
  }

  lemma {:induction false} OnlyInput(ms: seq<ChatMessage>, e: Event, tool: ToolInfo, delta: string)
    requires e.body == ContentDelta(None, tool, Some(delta), None)
    ensures Landed(ms, ReplayContentDelta(ms, e, None, tool, Some(delta), None), e)
  {
    hide ReplayInput, InputLanded, HasMarker;
    assert InputMarker(e) == e.eventId + ":toolInput";
    var owner := ContentTool(e, tool);
    if !HasMarker(ms, owner.toolUseId, InputMarker(e)) {
      InputLands(ms, e, owner, delta);
    }
  }

  lemma NoToolParts(ms: seq<ChatMessage>, e: Event, tool: ToolInfo)
    ensures ReplayToolParts(ms, e, tool, None, None) == ms
  {
  }

  lemma {:induction false} MessageEventLands(env: Environment, ms: seq<ChatMessage>, e: Event)
    requires IsMessageEvent(e.body)
    ensures Landed(ms, Apply(env, ms, e), e)
  {
    hide ReplayText, UpdateThinking, ReplayCompleted, ReplayCompat, ReplayTaskEnd, TextLanded, ThoughtLanded, CompletionLanded, StreamsFor, Trim, CompletesBlock, FindIndex;
    match e.body
    case MessageDelta(Some(part)) => TextLands(ms, e, part);
    case ThinkingEvent(text, source) => ThinkingLands(ms, e, text, source);
    case MessageCompleted(id, content) =>
      if Trim(id) != "" && Trim(content) != "" && FindIndex(CompletesBlockOf(CompletionOf(e, id, content)), ms) < 0 {
        CompletionLands(env, ms, e, id, content);
      }
    case ChatMessageComplete(id, content) =>
      if id != "" && Trim(content) != "" && FindIndex(CompletesBlockOf(CompletionOf(e, id, content)), ms) < 0 {
        CompatLands(env, ms, e, id, content);
      }
    case TaskEnded(_) => EndLands(ms, e);
    case _ =>
  }

  lemma {:induction false} NoticeEventLands(env: Environment, ms: seq<ChatMessage>, e: Event)
    requires !IsToolEvent(e.body) && !IsMessageEvent(e.body)
    ensures Landed(ms, Apply(env, ms, e), e)
  {
    hide ReplayPermission, ReplayPermissionAnswer, ReplayApproval, ReplaySpecial, AnswerQuestion, RequestLanded, Decided, SpecialLanded, Trim;
    match e.body
    case PermissionRequested(Some(p)) => RequestLands(ms, e, p);
    case PermissionAnswered(Some(p)) => if e.sessionId != "" && p.hasDetails { AnswerLands(ms, e, p); }
    case ApprovalResolved(Some(p)) => if e.sessionId != "" && p.hasDetails { AnswerLands(ms, e, p); }
    case SpecialOccurred(s) => SpecialLands(ms, e, s);
    case QuestionAnswered(Some(a)) => AnswerDoes(ms, a.(now := e.ts));
    case _ =>
  }

  /** Every event that shows leaves its message, with the event's own session, task and time; every other leaves the list as it is. */
  lemma {:induction false} EventLands(env: Environment, ms: seq<ChatMessage>, e: Event)
    ensures var shows := !e.suppressed && (e.visibility == ChatVisible || (e.visibility == Unspecified && e.taskId !in env.childTaskIds));
            if shows then Landed(ms, ReplayEvent(env, ms, e), e) else ReplayEvent(env, ms, e) == ms
  {
    hide Landed, Apply, IsToolEvent, IsMessageEvent;
    if IsToolEvent(e.body) {
      ToolEventLands(env, ms, e);
    } else if IsMessageEvent(e.body) {
      MessageEventLands(env, ms, e);
    } else {
      NoticeEventLands(env, ms, e);
    }
  }
}
