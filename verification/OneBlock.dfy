/** When a replay keeps to one block per tool call: exactly when no input comes after its call's result. */
module OneBlock {
  import opened Seqs
  import opened Text
  import opened ChatMessages
  import opened MessageUpdates
  import opened ToolBlocks
  import opened TraceEvents
  import opened TraceReplay
  import opened BlockTable
  import opened BlockInvariants
  import opened BlockUpdates
  import opened PlainUpdates
  import opened GuardedBlocks

  // ---- One block for each call ---------------------------------------------------------------

  ghost predicate OneBlockEach(ms: seq<ChatMessage>) {
    forall i, j, x | 0 <= i < j < |ms| && IsBlockOf(ms[i], x) :: !IsBlockOf(ms[j], x)
  }

  ghost predicate IdsMatchKinds(ms: seq<ChatMessage>) {
    forall m | m in ms && IsToolBlock(m) :: IdMatchesKind(m)
  }

  // ---- Replay markers set aside ------------------------------------------------------------

  function Unmarked(m: ChatMessage): ChatMessage {
    m.(metadata := m.metadata.(markers := []))
  }

  function Cleared(ms: seq<ChatMessage>): (r: seq<ChatMessage>)
    ensures |r| == |ms| && forall i | 0 <= i < |ms| :: r[i] == Unmarked(ms[i])
  {
    Map(m => Unmarked(m), ms)
  }

  /** Well-formed messages and one block for each call; markers may be anywhere. */
  ghost predicate Tidy(ms: seq<ChatMessage>) {
    Sound(Cleared(ms))
  }

  lemma SlotCleared(ms: seq<ChatMessage>, i: nat, x: string)
    requires i < |ms|
    ensures var s := Slots(Cleared(ms))[i]; s.Slot? && s.toolUseId == x <==> IsBlockOf(ms[i], x)
  {
  }

  /** The slots of a cleared list say whether a call has two blocks. */
  lemma {:induction false} SlotsMean(ms: seq<ChatMessage>)
    ensures OneEach(Slots(Cleared(ms))) <==> OneBlockEach(ms)
  {
    hide IsBlockOf, Cleared;
    var slots := Slots(Cleared(ms));
    forall i, j, x | 0 <= i < j < |ms| && IsBlockOf(ms[i], x) && IsBlockOf(ms[j], x) ensures !OneEach(slots) {
      SlotCleared(ms, i, x);
      SlotCleared(ms, j, x);
    }
    forall i, j | 0 <= i < j < |slots| && slots[i].Slot? && slots[j].Slot? && slots[i].toolUseId == slots[j].toolUseId
      ensures !OneBlockEach(ms)
    {
      SlotCleared(ms, i, slots[i].toolUseId);
      SlotCleared(ms, j, slots[i].toolUseId);
    }
  }

  lemma {:induction false} TidyMeans(ms: seq<ChatMessage>)
    requires Tidy(ms)
    ensures OneBlockEach(ms) && IdsMatchKinds(ms)
  {
    hide OneEach, AllBacked, OneBlockEach, IdMatchesKind, IsToolBlock, Good, Cleared, Slots;
    SlotsMean(ms);
    forall m | m in ms && IsToolBlock(m) ensures IdMatchesKind(m) {
      var i :| 0 <= i < |ms| && ms[i] == m;
      assert Cleared(ms)[i] in Cleared(ms);
      GoodIdMatches(m);
    }
  }

  lemma GoodIdMatches(m: ChatMessage)
    requires Good(Unmarked(m)) && IsToolBlock(m)
    ensures IdMatchesKind(m)
  {
  }

  lemma {:induction false} FindCleared(p: ChatMessage -> bool, ms: seq<ChatMessage>)
    requires forall m: ChatMessage :: p(Unmarked(m)) <==> p(m)
    ensures FindIndex(p, Cleared(ms)) == FindIndex(p, ms)
    ensures FindLastIndex(p, Cleared(ms)) == FindLastIndex(p, ms)
  {
    hide FindIndex, FindLastIndex, Unmarked;
    var i, j := FindIndex(p, ms), FindIndex(p, Cleared(ms));
    var k, l := FindLastIndex(p, ms), FindLastIndex(p, Cleared(ms));
    assert i >= 0 ==> p(Cleared(ms)[i]);
    assert k >= 0 ==> p(Cleared(ms)[k]);
  }

  lemma UpsertCleared(ms: seq<ChatMessage>, i: int, m: ChatMessage)
    requires i < |ms|
    ensures Cleared(Upsert(ms, i, m)) == Upsert(Cleared(ms), i, Unmarked(m))
  {
    hide Unmarked;
  }

  lemma {:induction false} MapCleared(f: ChatMessage -> ChatMessage, ms: seq<ChatMessage>)
    requires forall m: ChatMessage :: Unmarked(f(m)) == f(Unmarked(m))
    ensures Cleared(Map(f, ms)) == Map(f, Cleared(ms))
  {
    hide Unmarked;
  }

  lemma {:induction false} FilterCleared(p: ChatMessage -> bool, ms: seq<ChatMessage>)
    requires forall m: ChatMessage :: p(Unmarked(m)) <==> p(m)
    ensures Cleared(Filter(p, ms)) == Filter(p, Cleared(ms))
  {
    hide Unmarked;
    if ms != [] {
      FilterCleared(p, ms[1..]);
      assert Cleared(ms)[1..] == Cleared(ms[1..]);
    }
  }

  lemma ConcatCleared(a: seq<ChatMessage>, b: seq<ChatMessage>)
    ensures Cleared(a + b) == Cleared(a) + Cleared(b)
  {
    hide Unmarked;
  }

  lemma LastCleared(ms: seq<ChatMessage>)
    requires ms != []
    ensures Cleared(ms)[..|ms| - 1] == Cleared(ms[..|ms| - 1]) && Cleared(ms)[|ms| - 1] == Unmarked(ms[|ms| - 1])
    ensures Cleared([ms[|ms| - 1]]) == [Unmarked(ms[|ms| - 1])] && Cleared([]) == []
  {
    hide Unmarked;
  }

  // ---- Updates that keep it ------------------------------------------------------------------

  lemma StartUnmarked(m: ChatMessage, call: ToolCall, input: Option<string>)
    ensures Unmarked(Started(m, call, input)) == Started(Unmarked(m), call, input)
    ensures Unmarked(StartedNew(call, input)) == StartedNew(call, input)
    ensures StartTarget(call.toolUseId)(Unmarked(m)) <==> StartTarget(call.toolUseId)(m)
  {
    hide InputDisplay, ToolUseId;
  }

  lemma StartTidy(ms: seq<ChatMessage>, call: ToolCall, input: Option<string>)
    requires Tidy(ms)
    ensures Tidy(StartTool(ms, call, input))
  {
    hide Sound, Cleared, Unmarked, Started, StartedNew, StartTarget;
    var i := FindIndex(StartTarget(call.toolUseId), ms);
    forall m: ChatMessage ensures StartTarget(call.toolUseId)(Unmarked(m)) <==> StartTarget(call.toolUseId)(m) {
      StartUnmarked(m, call, input);
    }
    FindCleared(StartTarget(call.toolUseId), ms);
    var written := if i >= 0 then Started(ms[i], call, input) else StartedNew(call, input);
    StartUnmarked(if i >= 0 then ms[i] else written, call, input);
    UpsertCleared(ms, i, written);
    StartKeeps(Cleared(ms), call, input);
  }

  lemma OutputUnmarked(m: ChatMessage, call: ToolCall, stream: Stream, delta: string)
    ensures Unmarked(WithOutput(m, call, stream, delta)) == WithOutput(Unmarked(m), call, stream, delta)
    ensures Unmarked(OutputNew(call, stream, delta)) == OutputNew(call, stream, delta)
    ensures OutputTarget(call.toolUseId)(Unmarked(m)) <==> OutputTarget(call.toolUseId)(m)
  {
    hide AppendOutput, ToolUseId, ToolActivityId;
  }

  lemma OutputTidy(ms: seq<ChatMessage>, call: ToolCall, stream: Stream, delta: string)
    requires Tidy(ms)
    ensures Tidy(AppendToolOutput(ms, call, stream, delta))
  {
    hide Sound, Cleared, Unmarked, WithOutput, OutputNew, OutputTarget;
    var i := FindIndex(OutputTarget(call.toolUseId), ms);
    forall m: ChatMessage ensures OutputTarget(call.toolUseId)(Unmarked(m)) <==> OutputTarget(call.toolUseId)(m) {
      OutputUnmarked(m, call, stream, delta);
    }
    FindCleared(OutputTarget(call.toolUseId), ms);
    var written := if i >= 0 then WithOutput(ms[i], call, stream, delta) else OutputNew(call, stream, delta);
    OutputUnmarked(if i >= 0 then ms[i] else written, call, stream, delta);
    UpsertCleared(ms, i, written);
    OutputKeeps(Cleared(ms), call, stream, delta);
  }

  lemma CompleteTidy(ms: seq<ChatMessage>, call: ToolCall, input: string)
    requires Tidy(ms)
    ensures Tidy(CompleteTool(ms, call, input))
  {
    hide Sound, Cleared, CompletedContent, ToolUseId;
    var i := FindIndex(CompleteTarget(call.toolUseId), ms);
    FindCleared(CompleteTarget(call.toolUseId), ms);
    UpsertCleared(ms, i, if i >= 0 then CompletedCall(ms[i], call, input) else CompletedNew(call, input));
    CompleteKeeps(Cleared(ms), call, input);
  }

  lemma {:induction false} WithoutIdCleared(ms: seq<ChatMessage>, keep: int, id: string)
    ensures Cleared(WithoutId(ms, keep, id)) == WithoutId(Cleared(ms), keep, id)
  {
    hide Cleared;
    if ms != [] {
      var init, last := ms[..|ms| - 1], ms[|ms| - 1];
      WithoutIdCleared(init, keep, id);
      LastCleared(ms);
      ConcatCleared(WithoutId(init, keep, id), if |init| == keep || last.id != id then [last] else []);
    }
  }

  lemma ResultUnmarked(m: ChatMessage, call: ToolCall, r: ResultInfo)
    ensures Unmarked(WithResult(m, call, r)) == WithResult(Unmarked(m), call, r)
    ensures Unmarked(ResultMessage(call, r, None)) == ResultMessage(call, r, None)
    ensures Unmarked(ResultMessage(call, r, Some(m))) == ResultMessage(call, r, Some(Unmarked(m)))
  {
    hide ResultContent, ToolActivityId, ToolResultId, SummaryDisplay, FirstText;
  }

  lemma {:induction false} FinishCleared(ms: seq<ChatMessage>, call: ToolCall, r: ResultInfo)
    ensures Cleared(FinishTool(ms, call, r)) == FinishTool(Cleared(ms), call, r)
  {
    hide Cleared, Unmarked, IsBlockOf, ToolResultId, WithResult, ResultMessage, WithoutId, FindIndex;
    var x := call.toolUseId;
    var block, i := FindIndex(BlockOf(x), ms), FindIndex(HasId(ToolResultId(x)), ms);
    BlockUnmarked(x);
    IdUnmarked();
    FindCleared(BlockOf(x), ms);
    FindCleared(HasId(ToolResultId(x)), ms);
    if block >= 0 {
      ResultUnmarked(ms[block], call, r);
      UpsertCleared(ms, block, WithResult(ms[block], call, r));
      WithoutIdCleared(ms[block := WithResult(ms[block], call, r)], block, ToolResultId(x));
    } else {
      var previous := if i >= 0 then Some(ms[i]) else None;
      ResultUnmarked(if i >= 0 then ms[i] else ResultMessage(call, r, previous), call, r);
      UpsertCleared(ms, i, ResultMessage(call, r, previous));
    }
  }

  lemma FinishTidy(ms: seq<ChatMessage>, call: ToolCall, r: ResultInfo)
    requires Tidy(ms)
    ensures Tidy(FinishTool(ms, call, r))
  {
    hide Sound, Cleared, FinishTool;
    FinishCleared(ms, call, r);
    FinishKeeps(Cleared(ms), call, r);
  }

  lemma IdUnmarked()
    ensures forall m: ChatMessage :: Unmarked(m).id == m.id
  {
  }

  lemma BlockUnmarked(x: string)
    ensures forall m: ChatMessage :: IsBlockOf(Unmarked(m), x) <==> IsBlockOf(m, x)
  {
  }

  lemma MarkCleared(ms: seq<ChatMessage>, x: string, k: string)
    ensures Cleared(MarkTool(ms, x, k)) == Cleared(ms)
  {
  }

  lemma {:induction false} RemoveThinkingCleared(ms: seq<ChatMessage>, sessionId: string, taskId: string, now: int)
    ensures Cleared(RemoveThinking(ms, sessionId, taskId, now)) == RemoveThinking(Cleared(ms), sessionId, taskId, now)
  {
    hide Cleared, Unmarked, AfterThinking;
    if ms != [] {
      var init, last := ms[..|ms| - 1], ms[|ms| - 1];
      RemoveThinkingCleared(init, sessionId, taskId, now);
      LastCleared(ms);
      ConcatCleared(RemoveThinking(init, sessionId, taskId, now), AfterThinking(last, sessionId, taskId, now));
      AfterThinkingCleared(last, sessionId, taskId, now);
    }
  }

  lemma AfterThinkingCleared(m: ChatMessage, sessionId: string, taskId: string, now: int)
    ensures Cleared(AfterThinking(m, sessionId, taskId, now)) == AfterThinking(Unmarked(m), sessionId, taskId, now)
  {
    hide StatusLabel;
  }

  lemma ClosedTidy(ms: seq<ChatMessage>, e: Event)
    requires Tidy(ms)
    ensures Tidy(Closed(ms, e))
  {
    hide Sound, Cleared, RemoveThinking;
    RemoveThinkingCleared(ms, e.sessionId, e.taskId, e.ts);
    RemoveThinkingKeeps(Cleared(ms), e.sessionId, e.taskId, e.ts);
  }

  lemma {:induction false} MapTidy(f: ChatMessage -> ChatMessage, ms: seq<ChatMessage>)
    requires Tidy(ms) && forall m: ChatMessage :: Same(m, f(m)) && Unmarked(f(m)) == f(Unmarked(m))
    ensures Tidy(Map(f, ms))
  {
    hide Sound, Cleared, Unmarked, Same;
    MapCleared(f, ms);
    MapKeeps(f, Cleared(ms));
  }

  // ---- Text ------------------------------------------------------------------------------------

  /** The ids of the delta are not those of tool blocks. */
  predicate PlainText(d: TextDelta) {
    !ToolLike(TextTargetId(d)) && !ToolLike(Trim(d.messageId))
  }

  lemma TargetCleared(ms: seq<ChatMessage>, messageId: string, sessionId: string, taskId: string, allowAttach: bool)
    ensures TargetIndex(Cleared(ms), messageId, sessionId, taskId, allowAttach)
            == TargetIndex(ms, messageId, sessionId, taskId, allowAttach)
  {
    hide Cleared;
    FindCleared(HasId(messageId), ms);
    FindCleared(AttachableTo(sessionId, taskId), ms);
  }

  lemma TextUnmarked(m: ChatMessage, d: TextDelta)
    ensures Unmarked(TextUpdated(m, d)) == TextUpdated(Unmarked(m), d)
    ensures Unmarked(TextCreated(d)) == TextCreated(d)
  {
    hide TextTargetId, HasBlockIdentity, ContentDelta.AppendDelta, ContentDelta.FirstContent;
  }

  lemma {:induction false} TextCleared(ms: seq<ChatMessage>, d: TextDelta)
    ensures Cleared(AppendTextDelta(ms, d)) == AppendTextDelta(Cleared(ms), d)
  {
    hide Cleared, Unmarked, TextTargetId, HasBlockIdentity, TextUpdated, TextCreated, TargetIndex, Filter, NotEmptyBase;
    var source := TextSource(ms, d);
    BaseUnmarked(d);
    FilterCleared(NotEmptyBase(d), ms);
    TargetCleared(source, TextTargetId(d), d.sessionId, d.taskId, !HasBlockIdentity(d));
    var i := TargetIndex(source, TextTargetId(d), d.sessionId, d.taskId, !HasBlockIdentity(d));
    var written := if i >= 0 then TextUpdated(source[i], d) else TextCreated(d);
    TextUnmarked(if i >= 0 then source[i] else written, d);
    UpsertCleared(source, i, written);
  }

  lemma BaseUnmarked(d: TextDelta)
    ensures forall m: ChatMessage :: NotEmptyBase(d)(Unmarked(m)) <==> NotEmptyBase(d)(m)
  {
  }

  lemma TextTidy(ms: seq<ChatMessage>, d: TextDelta)
    requires Tidy(ms) && PlainText(d)
    ensures Tidy(AppendTextDelta(ms, d))
  {
    hide Sound, Cleared, AppendTextDelta, TextSpares, ToolLike;
    TextCleared(ms, d);
    SoundIsGood(Cleared(ms));
    TextIdsSuffice(Cleared(ms), d);
    TextKeepsIff(Cleared(ms), d);
  }

  lemma CompletedUnmarked(resolve: Resolver, m: ChatMessage, c: Completion)
    ensures Unmarked(CompletedText(resolve, m, c)) == CompletedText(resolve, Unmarked(m), c)
    ensures Unmarked(CompletionCreated(c)) == CompletionCreated(c)
  {
  }

  lemma SettlersUnmarked(c: Completion)
    ensures forall m: ChatMessage :: Unmarked(SettleBlock(c)(m)) == SettleBlock(c)(Unmarked(m))
    ensures forall m: ChatMessage :: Unmarked(SettleTask(c)(m)) == SettleTask(c)(Unmarked(m))
    ensures forall m: ChatMessage :: CompletesBlockOf(c)(Unmarked(m)) <==> CompletesBlockOf(c)(m)
  {
    hide Trim;
  }

  lemma {:induction false} CompletionCleared(resolve: Resolver, ms: seq<ChatMessage>, c: Completion)
    ensures Cleared(CompleteMessage(resolve, ms, c)) == CompleteMessage(resolve, Cleared(ms), c)
  {
    hide Cleared, Unmarked, CompletedText, CompletionCreated, SettleBlock, CompletesBlockOf, TargetIndex, Map, FindIndex, Trim;
    SettlersUnmarked(c);
    FindCleared(CompletesBlockOf(c), ms);
    MapCleared(SettleBlock(c), ms);
    TargetCleared(ms, c.messageId, c.sessionId, c.taskId, true);
    var i := TargetIndex(ms, c.messageId, c.sessionId, c.taskId, true);
    var written := if i >= 0 then CompletedText(resolve, ms[i], c) else CompletionCreated(c);
    CompletedUnmarked(resolve, if i >= 0 then ms[i] else written, c);
    UpsertCleared(ms, i, written);
  }

  lemma {:induction false} CompletionTidy(resolve: Resolver, ms: seq<ChatMessage>, c: Completion)
    requires Tidy(ms) && !ToolLike(c.messageId)
    ensures Tidy(CompleteMessage(resolve, ms, c))
  {
    hide Sound, Cleared, CompleteMessage, ToolLike, FindIndex, TargetIndex, Trim, Blocks;
    CompletionCleared(resolve, ms, c);
    CompletionKeepsIff(resolve, Cleared(ms), c);
  }

  lemma {:induction false} CompatTidy(resolve: Resolver, ms: seq<ChatMessage>, c: Completion)
    requires Tidy(ms) && !ToolLike(c.messageId)
    ensures Tidy(CompleteChatCompat(resolve, ms, c))
  {
    hide Tidy, CompleteMessage, SettleBlock, SettleTask, Map, FindIndex, ToolLike, Same, Unmarked;
    SettlersUnmarked(c);
    SettlersAreSame(c);
    MapTidy(SettleBlock(c), ms);
    MapTidy(SettleTask(c), ms);
    CompletionTidy(resolve, Map(SettleTask(c), ms), c);
  }

  // ---- Thinking, permissions, special events and the end of a task ------------------------------------

  lemma ThinkingUnmarked(m: ChatMessage, u: ThinkingUpdate)
    ensures Unmarked(ContinuedThinking(m, u)) == ContinuedThinking(Unmarked(m), u)
    ensures OfEvent(u)(Unmarked(m)) <==> OfEvent(u)(m)
    ensures OfTask(u)(Unmarked(m)) <==> OfTask(u)(m)
    ensures ThinkingOfTask(u)(Unmarked(m)) <==> ThinkingOfTask(u)(m)
    ensures CanUpdateSegment(Unmarked(m), u) <==> CanUpdateSegment(m, u)
  {
    hide StatusLabel, ThinkingContent, Trim, EventMessageId, ContentDelta.AppendDelta;
  }

  lemma {:induction false} ThinkingIndexCleared(ms: seq<ChatMessage>, u: ThinkingUpdate)
    ensures ThinkingIndex(Cleared(ms), u) == ThinkingIndex(ms, u)
  {
    hide Cleared, Unmarked, OfEvent, OfTask, ThinkingOfTask, CanUpdateSegment, FindIndex, FindLastIndex, HasEventId, ProviderSummary;
    forall m: ChatMessage ensures OfEvent(u)(Unmarked(m)) <==> OfEvent(u)(m) { ThinkingUnmarked(m, u); }
    forall m: ChatMessage ensures OfTask(u)(Unmarked(m)) <==> OfTask(u)(m) { ThinkingUnmarked(m, u); }
    forall m: ChatMessage ensures ThinkingOfTask(u)(Unmarked(m)) <==> ThinkingOfTask(u)(m) { ThinkingUnmarked(m, u); }
    FindCleared(OfEvent(u), ms);
    FindCleared(OfTask(u), ms);
    FindCleared(ThinkingOfTask(u), ms);
    var latest := FindLastIndex(ThinkingOfTask(u), ms);
    if latest >= 0 {
      ThinkingUnmarked(ms[latest], u);
    }
  }

  lemma {:induction false} ThinkingTidy(ms: seq<ChatMessage>, u: ThinkingUpdate)
    requires Tidy(ms)
    ensures Tidy(UpdateThinking(ms, u))
  {
    hide Sound, Cleared, Unmarked, ThinkingIndex, ContinuedThinking, NewThinking, NewThinkingId;
    ThinkingIndexCleared(ms, u);
    var i := ThinkingIndex(ms, u);
    if i >= 0 {
      ThinkingUnmarked(ms[i], u);
      UpsertCleared(ms, i, ContinuedThinking(ms[i], u));
    } else {
      NewThinkingUnmarked(ms, u);
      UpsertCleared(ms, i, NewThinking(NewThinkingId(ms, u), u));
    }
    ThinkingKeeps(Cleared(ms), u);
  }

  lemma NewThinkingUnmarked(ms: seq<ChatMessage>, u: ThinkingUpdate)
    ensures NewThinkingId(Cleared(ms), u) == NewThinkingId(ms, u)
    ensures Unmarked(NewThinking(NewThinkingId(ms, u), u)) == NewThinking(NewThinkingId(ms, u), u)
  {
    hide ThinkingContent, Trim;
    assert IdsOf(Cleared(ms)) == IdsOf(ms);
  }

  lemma PermissionUnmarked(m: ChatMessage, p: Permission, createdAt: int, status: Option<MessageStatus>)
    ensures Unmarked(PermissionMessage(p, createdAt, status)) == PermissionMessage(p, createdAt, status)
    ensures Unmarked(PermissionResolved(m, p)) == PermissionResolved(Unmarked(m), p)
  {
  }

  lemma {:induction false} RequestTidy(ms: seq<ChatMessage>, p: Permission)
    requires Tidy(ms)
    ensures Tidy(RequestPermission(ms, p))
  {
    hide Sound, Cleared, PermissionMessage, PermissionId;
    var i := FindIndex(HasId(PermissionId(p.requestId)), ms);
    FindCleared(HasId(PermissionId(p.requestId)), ms);
    var written := PermissionMessage(p, if i >= 0 then ms[i].createdAt else p.now, None);
    PermissionUnmarked(written, p, written.createdAt, None);
    PermissionUnmarked(written, p, if i >= 0 then ms[i].createdAt else p.now, None);
    UpsertCleared(ms, i, written);
    RequestKeeps(Cleared(ms), p);
  }

  /** Nothing under the id of a permission request is a placeholder, so an answer always fits a list without markers. */
  lemma AnswerFitsCleared(ms: seq<ChatMessage>, p: Permission)
    requires AllGuarded(ms)
    ensures AnswerFits(Cleared(ms), p)
  {
    hide Blocks;
    var i := FindIndex(HasId(PermissionId(p.requestId)), Cleared(ms));
    if i >= 0 {
      assert ms[i] in ms && Guarded(ms[i]);
      assert "permission_request:" <= PermissionId(p.requestId);
    }
  }

  lemma {:induction false} ResolveTidy(ms: seq<ChatMessage>, p: Permission)
    requires Tidy(ms) && AllGuarded(ms)
    ensures Tidy(ResolvePermission(ms, p))
  {
    hide Sound, Cleared, Unmarked, PermissionMessage, PermissionResolved, PermissionId, AllGuarded, AnswerFits;
    var i := FindIndex(HasId(PermissionId(p.requestId)), ms);
    assert forall m: ChatMessage :: Unmarked(m).id == m.id by { IdUnmarked(); }
    FindCleared(HasId(PermissionId(p.requestId)), ms);
    var written := if i >= 0 then PermissionResolved(ms[i], p) else PermissionMessage(p, p.now, DecisionStatus(p.rejected));
    PermissionUnmarked(if i >= 0 then ms[i] else written, p, p.now, DecisionStatus(p.rejected));
    UpsertCleared(ms, i, written);
    AnswerFitsCleared(ms, p);
    ResolveKeepsIff(Cleared(ms), p);
  }

  lemma SpecialUnmarked(m: ChatMessage, s: SpecialEvent)
    ensures Unmarked(SpecialMessage(s, None)) == SpecialMessage(s, None)
    ensures Unmarked(SpecialMessage(s, Some(m))) == SpecialMessage(s, Some(Unmarked(m)))
  {
    hide SpecialId, StableKey;
  }

  lemma SpecialFitsCleared(ms: seq<ChatMessage>, s: SpecialEvent)
    ensures SpecialFits(Cleared(ms), s)
  {
    hide Blocks, SpecialId, StableKey;
  }

  lemma {:induction false} SpecialTidy(ms: seq<ChatMessage>, s: SpecialEvent)
    requires Tidy(ms)
    ensures Tidy(AppendSpecial(ms, s))
  {
    hide Sound, Cleared, Unmarked, SpecialMessage, SpecialId, SpecialFits;
    var i := FindIndex(HasId(SpecialId(s)), ms);
    IdUnmarked();
    FindCleared(HasId(SpecialId(s)), ms);
    var written := SpecialMessage(s, if i >= 0 then Some(ms[i]) else None);
    SpecialUnmarked(if i >= 0 then ms[i] else written, s);
    UpsertCleared(ms, i, written);
    SpecialFitsCleared(ms, s);
    SpecialKeepsIff(Cleared(ms), s);
  }

  lemma ApproverUnmarked(approvalId: string, rejected: bool, now: int)
    ensures forall m: ChatMessage :: Unmarked(ApprovalResolver(approvalId, rejected, now)(m)) == ApprovalResolver(approvalId, rejected, now)(Unmarked(m))
  {
    hide Trim;
  }

  lemma AnswererUnmarked(a: Answer)
    ensures forall m: ChatMessage :: Unmarked(Answerer(a)(m)) == Answerer(a)(Unmarked(m))
  {
    hide Trim;
  }

  lemma StopperUnmarked(sessionId: string, taskId: string)
    ensures forall m: ChatMessage :: Unmarked(Stopper(sessionId, taskId)(m)) == Stopper(sessionId, taskId)(Unmarked(m))
  {
  }

  lemma {:induction false} FilterOneBlock(p: ChatMessage -> bool, ms: seq<ChatMessage>)
    requires OneBlockEach(ms)
    ensures OneBlockEach(Filter(p, ms))
  {
    hide IsBlockOf;
    if ms != [] {
      var rest := ms[1..];
      assert forall i | 0 <= i < |rest| :: rest[i] == ms[i + 1];
      FilterOneBlock(p, rest);
      FilterMembers(p, rest);
      forall n, x | n in Filter(p, rest) && IsBlockOf(ms[0], x) ensures !IsBlockOf(n, x) {
        var k :| 0 <= k < |rest| && rest[k] == n;
      }
    }
  }

  lemma {:induction false} FilterTidy(p: ChatMessage -> bool, ms: seq<ChatMessage>)
    requires Tidy(ms)
    ensures Tidy(Filter(p, ms))
  {
    hide Good, OneEach, OneBlockEach, Filter;
    var kept := Filter(p, ms);
    SlotsMean(ms);
    FilterOneBlock(p, ms);
    SlotsMean(kept);
    FilterMembers(p, ms);
    forall n | n in Cleared(kept) ensures Good(n) && n.metadata.markers == [] {
      var i :| 0 <= i < |kept| && Cleared(kept)[i] == n;
      assert kept[i] in kept;
      var j :| 0 <= j < |ms| && ms[j] == kept[i];
      assert Cleared(ms)[j] in Cleared(ms);
    }
  }

  lemma StopTidy(ms: seq<ChatMessage>, sessionId: string, taskId: string)
    requires Tidy(ms)
    ensures Tidy(StopStreaming(ms, sessionId, taskId))
  {
    hide Tidy, Unmarked, Same, Stopper, KeptWhenStopped, Filter, Map;
    StopperIsSame(sessionId, taskId);
    StopperUnmarked(sessionId, taskId);
    MapTidy(Stopper(sessionId, taskId), ms);
    FilterTidy(KeptWhenStopped(sessionId, taskId), Map(Stopper(sessionId, taskId), ms));
  }

  // ---- Input ----------------------------------------------------------------------------------------

  /** The call's result is in: one of its messages is an activity. */
  ghost predicate ResultArrived(ms: seq<ChatMessage>, x: string) {
    exists m :: m in ms && m.metadata.kind == Some(ToolActivity) && m.metadata.toolUseId == Some(x)
  }

  function BlocksOf(ms: seq<ChatMessage>, x: string): seq<ChatMessage> {
    Filter(BlockOf(x), ms)
  }

  lemma {:induction false} SeveralBlocks(ms: seq<ChatMessage>, x: string)
    requires |BlocksOf(ms, x)| >= 2
    ensures !OneBlockEach(ms)
  {
    hide IsBlockOf;
    if IsBlockOf(ms[0], x) {
      var m := BlocksOf(ms[1..], x)[0];
      FilterMembers(BlockOf(x), ms[1..]);
      assert m in BlocksOf(ms[1..], x);
      var k :| 0 <= k < |ms[1..]| && ms[1..][k] == m;
      assert IsBlockOf(ms[k + 1], x);
    } else {
      SeveralBlocks(ms[1..], x);
      var i, j, y :| 0 <= i < j < |ms[1..]| && IsBlockOf(ms[1..][i], y) && IsBlockOf(ms[1..][j], y);
      assert IsBlockOf(ms[i + 1], y) && IsBlockOf(ms[j + 1], y);
    }
  }

  lemma {:induction false} ClosedBlocks(ms: seq<ChatMessage>, sessionId: string, taskId: string, now: int, x: string)
    ensures BlocksOf(RemoveThinking(ms, sessionId, taskId, now), x) == BlocksOf(ms, x)
  {
    hide AfterThinking;
    if ms != [] {
      var init, last := ms[..|ms| - 1], ms[|ms| - 1];
      ClosedBlocks(init, sessionId, taskId, now, x);
      assert ms == init + [last];
      FilterAppend(BlockOf(x), init, [last]);
      FilterAppend(BlockOf(x), RemoveThinking(init, sessionId, taskId, now), AfterThinking(last, sessionId, taskId, now));
      OneClosedBlocks(last, sessionId, taskId, now, x);
    }
  }

  lemma OneClosedBlocks(m: ChatMessage, sessionId: string, taskId: string, now: int, x: string)
    ensures BlocksOf(AfterThinking(m, sessionId, taskId, now), x) == BlocksOf([m], x)
  {
    hide IsTransient;
  }

  lemma {:induction false} MarkedBlocks(ms: seq<ChatMessage>, y: string, k: string, x: string)
    ensures |BlocksOf(MarkTool(ms, y, k), x)| == |BlocksOf(ms, x)|
  {
    if ms != [] {
      MarkedBlocks(ms[1..], y, k, x);
      assert MarkTool(ms, y, k)[1..] == MarkTool(ms[1..], y, k);
    }
  }

  lemma {:induction false} UpsertBlocks(ms: seq<ChatMessage>, i: int, m: ChatMessage, x: string)
    requires i < |ms| && IsBlockOf(m, x)
    ensures |BlocksOf(Upsert(ms, i, m), x)| >= |BlocksOf(ms, x)|
    ensures i < 0 ==> BlocksOf(Upsert(ms, i, m), x) == BlocksOf(ms, x) + [m]
  {
    hide IsBlockOf;
    assert Filter(BlockOf(x), [m]) == [m];
    if i >= 0 {
      var front, rest := ms[..i], ms[i + 1..];
      assert ms == (front + [ms[i]]) + rest && ms[i := m] == (front + [m]) + rest;
      FilterAppend(BlockOf(x), front + [ms[i]], rest);
      FilterAppend(BlockOf(x), front, [ms[i]]);
      FilterAppend(BlockOf(x), front + [m], rest);
      FilterAppend(BlockOf(x), front, [m]);
    } else {
      FilterAppend(BlockOf(x), ms, [m]);
    }
  }

  lemma InputUnmarked(m: ChatMessage, call: ToolCall, delta: string)
    ensures Unmarked(WithInput(m, call, delta)) == WithInput(Unmarked(m), call, delta)
    ensures Unmarked(InputNew(call, delta)) == InputNew(call, delta) && IsBlockOf(InputNew(call, delta), call.toolUseId)
  {
    hide InputDisplay, ToolUseId, ContentDelta.AppendDelta, TrimStart;
  }

  lemma {:induction false} InputCleared(ms: seq<ChatMessage>, call: ToolCall, delta: string)
    ensures Cleared(AppendToolInput(ms, call, delta)) == AppendToolInput(Cleared(ms), call, delta)
  {
    hide Cleared, Unmarked, WithInput, InputNew, ToolUseId;
    var i := FindIndex(HasId(ToolUseId(call.toolUseId)), ms);
    IdUnmarked();
    FindCleared(HasId(ToolUseId(call.toolUseId)), ms);
    var written := if i >= 0 then WithInput(ms[i], call, delta) else InputNew(call, delta);
    InputUnmarked(if i >= 0 then ms[i] else written, call, delta);
    UpsertCleared(ms, i, written);
  }

  lemma {:induction false} ResultArrivedIff(ms: seq<ChatMessage>, x: string)
    requires Tidy(ms)
    ensures ResultArrived(ms, x) <==> x in Blocks(Cleared(ms)) && Blocks(Cleared(ms))[x].activity
  {
    hide Sound, Blocks, Cleared, OutputOf;
    BlockListed(Cleared(ms), x);
    if ResultArrived(ms, x) {
      var m :| m in ms && m.metadata.kind == Some(ToolActivity) && m.metadata.toolUseId == Some(x);
      var i :| 0 <= i < |ms| && ms[i] == m;
      assert IsBlockOf(Cleared(ms)[i], x);
    } else if x in Blocks(Cleared(ms)) {
      var i :| 0 <= i < |ms| && IsBlockOf(Cleared(ms)[i], x);
      assert ms[i] in ms;
    }
  }

  /** An input delta that comes in time keeps to one block; one that comes late makes a second. */
  lemma {:induction false} InputSplits(ms: seq<ChatMessage>, call: ToolCall, delta: string)
    requires Tidy(ms)
    ensures var after := AppendToolInput(ms, call, delta);
            if ResultArrived(ms, call.toolUseId) then |BlocksOf(after, call.toolUseId)| >= 2 else Tidy(after)
  {
    hide Sound, Blocks, Cleared, IsBlockOf, WithInput, InputNew, ToolUseId, Filter, OneEach, Slots;
    var x := call.toolUseId;
    var i := FindIndex(HasId(ToolUseId(x)), ms);
    ResultArrivedIff(ms, x);
    InputCleared(ms, call, delta);
    InputKeepsIff(Cleared(ms), call, delta);
    if ResultArrived(ms, x) {
      InputFinds(Cleared(ms), x);
      IdUnmarked();
      FindCleared(HasId(ToolUseId(x)), ms);
      InputUnmarked(InputNew(call, delta), call, delta);
      UpsertBlocks(ms, i, InputNew(call, delta), x);
      ArrivedIsBlock(ms, x);
    }
  }

  lemma ArrivedIsBlock(ms: seq<ChatMessage>, x: string)
    requires ResultArrived(ms, x)
    ensures |BlocksOf(ms, x)| >= 1
  {
    hide Filter;
    FilterMembers(BlockOf(x), ms);
    var m :| m in ms && m.metadata.kind == Some(ToolActivity) && m.metadata.toolUseId == Some(x);
    assert m in BlocksOf(ms, x);
  }

  // ---- Events ------------------------------------------------------------------------------------------

  /** Text and completions of the event do not carry the ids of tool blocks. */
  predicate PlainIds(e: Event) {
    match e.body
    case ContentDelta(text, _, _, _) => text.Some? ==> PlainText(DeltaOf(e, text.value))
    case MessageDelta(text) => text.Some? ==> PlainText(DeltaOf(e, text.value))
    case ChatMessageComplete(id, _) => !ToolLike(id)
    case MessageCompleted(id, _) => !ToolLike(id)
    case _ => true
  }

  /** The event brings input that was not replayed before for a call whose result is in. */
  ghost predicate LateInput(ms: seq<ChatMessage>, e: Event) {
    && e.body.ContentDelta? && e.body.input.Some?
    && var texted, x := ReplayText(ms, e, e.body.text), ContentTool(e, e.body.tool).toolUseId;
       !HasMarker(texted, x, InputMarker(e)) && ResultArrived(texted, x)
  }

  lemma ClosedArrived(ms: seq<ChatMessage>, e: Event, x: string)
    ensures ResultArrived(Closed(ms, e), x) <==> ResultArrived(ms, x)
  {
    hide Filter, RemoveThinking;
    var closed := Closed(ms, e);
    ClosedBlocks(ms, e.sessionId, e.taskId, e.ts, x);
    FilterMembers(BlockOf(x), ms);
    FilterMembers(BlockOf(x), closed);
    forall m: ChatMessage | m.metadata.kind == Some(ToolActivity) && m.metadata.toolUseId == Some(x) ensures m in ms <==> m in closed {
      assert m in ms <==> m in BlocksOf(ms, x);
      assert m in closed <==> m in BlocksOf(closed, x);
    }
  }

  lemma MarkTidy(ms: seq<ChatMessage>, x: string, k: string)
    ensures Tidy(MarkTool(ms, x, k)) <==> Tidy(ms)
  {
    MarkCleared(ms, x, k);
  }

  lemma ReplayInputSplits(ms: seq<ChatMessage>, e: Event, tool: ToolInfo, delta: string)
    requires Tidy(ms)
    ensures var x, after := tool.toolUseId, ReplayInput(ms, e, tool, delta);
            if !HasMarker(ms, x, InputMarker(e)) && ResultArrived(ms, x) then |BlocksOf(after, x)| >= 2 else Tidy(after)
  {
    hide Tidy, Closed, AppendToolInput, MarkTool, HasMarker, ResultArrived, BlocksOf;
    var fed := AppendToolInput(Closed(ms, e), CallOf(e, tool), delta);
    ClosedTidy(ms, e);
    ClosedArrived(ms, e, tool.toolUseId);
    InputSplits(Closed(ms, e), CallOf(e, tool), delta);
    MarkTidy(fed, tool.toolUseId, InputMarker(e));
    MarkedBlocks(fed, tool.toolUseId, InputMarker(e), tool.toolUseId);
  }

  lemma ReplayOutputTidy(ms: seq<ChatMessage>, e: Event, tool: ToolInfo, chunk: Chunk, k: string)
    requires Tidy(ms)
    ensures Tidy(ReplayOutput(ms, e, tool, chunk, k))
  {
    hide Tidy, Closed, AppendToolOutput, MarkTool, HasMarker;
    ClosedTidy(ms, e);
    OutputTidy(Closed(ms, e), CallOf(e, tool), chunk.stream, chunk.delta);
    MarkTidy(AppendToolOutput(Closed(ms, e), CallOf(e, tool), chunk.stream, chunk.delta), tool.toolUseId, k);
  }

  lemma OutputWritten(m: ChatMessage, call: ToolCall, stream: Stream, delta: string)
    ensures IsBlockOf(WithOutput(m, call, stream, delta), call.toolUseId) && IsBlockOf(OutputNew(call, stream, delta), call.toolUseId)
  {
    hide AppendOutput, ToolUseId;
  }

  /** Output does not bring the blocks of its call together again. */
  lemma ReplayOutputBlocks(ms: seq<ChatMessage>, e: Event, tool: ToolInfo, chunk: Chunk, k: string)
    ensures |BlocksOf(ReplayOutput(ms, e, tool, chunk, k), tool.toolUseId)| >= |BlocksOf(ms, tool.toolUseId)|
  {
    hide BlocksOf, RemoveThinking, MarkTool, HasMarker, WithOutput, OutputNew, IsBlockOf;
    var x, call, closed := tool.toolUseId, CallOf(e, tool), Closed(ms, e);
    ClosedBlocks(ms, e.sessionId, e.taskId, e.ts, x);
    var i := FindIndex(OutputTarget(x), closed);
    var written := if i >= 0 then WithOutput(closed[i], call, chunk.stream, chunk.delta) else OutputNew(call, chunk.stream, chunk.delta);
    OutputWritten(if i >= 0 then closed[i] else written, call, chunk.stream, chunk.delta);
    UpsertBlocks(closed, i, written, x);
    MarkedBlocks(Upsert(closed, i, written), x, k, x);
  }

  lemma ReplayTextTidy(ms: seq<ChatMessage>, e: Event, text: Option<TextPart>)
    requires Tidy(ms) && (text.Some? ==> PlainText(DeltaOf(e, text.value)))
    ensures Tidy(ReplayText(ms, e, text))
  {
    hide Tidy, AppendTextDelta, DeltaOf, PlainText;
    if text.Some? {
      TextTidy(ms, DeltaOf(e, text.value));
    }
  }

  lemma ToolPartsSplit(ms: seq<ChatMessage>, e: Event, tool: ToolInfo, input: Option<string>, output: Option<Chunk>)
    requires Tidy(ms)
    ensures var x, after := tool.toolUseId, ReplayToolParts(ms, e, tool, input, output);
            if input.Some? && !HasMarker(ms, x, InputMarker(e)) && ResultArrived(ms, x) then |BlocksOf(after, x)| >= 2 else Tidy(after)
  {
    hide Tidy, ReplayInput, ReplayOutput, HasMarker, ResultArrived, BlocksOf, InputMarker, OutputMarker;
    var fed := if input.Some? then ReplayInput(ms, e, tool, input.value) else ms;
    if input.Some? {
      ReplayInputSplits(ms, e, tool, input.value);
    }
    if output.Some? {
      ReplayOutputBlocks(fed, e, tool, output.value, OutputMarker(e));
      if Tidy(fed) {
        ReplayOutputTidy(fed, e, tool, output.value, OutputMarker(e));
      }
    }
  }

  lemma ContentSplits(ms: seq<ChatMessage>, e: Event)
    requires Tidy(ms) && e.body.ContentDelta? && PlainIds(e)
    ensures var after := ReplayContentDelta(ms, e, e.body.text, e.body.tool, e.body.input, e.body.output);
            if LateInput(ms, e) then !OneBlockEach(after) else Tidy(after)
  {
    hide Tidy, ReplayText, ReplayToolParts, HasMarker, ResultArrived, BlocksOf, InputMarker, ContentTool, PlainText, OneBlockEach;
    var texted, tool := ReplayText(ms, e, e.body.text), ContentTool(e, e.body.tool);
    ReplayTextTidy(ms, e, e.body.text);
    ToolPartsSplit(texted, e, tool, e.body.input, e.body.output);
    if LateInput(ms, e) {
      SeveralBlocks(ReplayToolParts(texted, e, tool, e.body.input, e.body.output), tool.toolUseId);
    }
  }

  lemma ReplayCallTidy(ms: seq<ChatMessage>, e: Event, tool: Option<ToolInfo>, input: Option<string>, text: string, info: ResultInfo)
    requires Tidy(ms)
    ensures Tidy(ReplayStart(ms, e, tool, input)) && Tidy(ReplayToolUse(ms, e, tool, text)) && Tidy(ReplayResult(ms, e, tool, info))
  {
    hide Tidy, Closed, StartTool, CompleteTool, FinishTool;
    if tool.Some? {
      ClosedTidy(ms, e);
      StartTidy(Closed(ms, e), CallOf(e, tool.value), input);
      CompleteTidy(Closed(ms, e), CallOf(e, tool.value), text);
      FinishTidy(Closed(ms, e), CallOf(e, tool.value), info);
    }
  }

  lemma ReplayChunkTidy(ms: seq<ChatMessage>, e: Event, chunk: Option<OutputPart>, k: string)
    requires Tidy(ms)
    ensures Tidy(ReplayChunk(ms, e, chunk, k))
  {
    hide Tidy, ReplayOutput;
    if chunk.Some? {
      ReplayOutputTidy(ms, e, chunk.value.tool, chunk.value.chunk, k);
    }
  }

  lemma ToolEventSplits(ms: seq<ChatMessage>, e: Event)
    requires Tidy(ms) && PlainIds(e)
    ensures if LateInput(ms, e) then !OneBlockEach(ApplyTool(ms, e)) else Tidy(ApplyTool(ms, e))
  {
    hide Tidy, ReplayStart, ReplayContentDelta, ReplayResult, ReplayChunk, ReplayToolUse, OutputMarker, CommandMarker, OneBlockEach,
         ReplayText, HasMarker, ResultArrived;
    match e.body
    case ContentStart(tool) => ReplayCallTidy(ms, e, tool, None, "", NO_RESULT);
    case ContentDelta(_, _, _, _) => ContentSplits(ms, e);
    case ToolUseComplete(tool, input) => ReplayCallTidy(ms, e, tool, None, input, NO_RESULT);
    case ToolResultEvent(tool, info) => ReplayCallTidy(ms, e, tool, None, "", info);
    case ToolStarted(tool, arguments) => ReplayCallTidy(ms, e, tool, arguments, "", NO_RESULT);
    case ToolFinished(tool, info) => ReplayCallTidy(ms, e, tool, None, "", info);
    case ToolOutputEvent(chunk) => ReplayChunkTidy(ms, e, chunk, OutputMarker(e));
    case CommandStarted(tool) => ReplayCallTidy(ms, e, tool, None, "", NO_RESULT);
    case CommandOutput(stream, chunk) => ReplayChunkTidy(ms, e, chunk, CommandMarker(e, stream));
    case CommandFinished(_, tool, info) => ReplayCallTidy(ms, e, tool, None, "", info);
    case _ =>
  }

  lemma MessageEventTidy(env: Environment, ms: seq<ChatMessage>, e: Event)
    requires Tidy(ms) && PlainIds(e)
    ensures Tidy(ApplyMessage(env, ms, e))
  {
    hide Tidy, Closed, ReplayText, UpdateThinking, CompleteMessage, CompleteChatCompat, StopStreaming, PlainText, ToolLike, Trim;
    match e.body
    case MessageDelta(text) => ReplayTextTidy(ms, e, text);
    case ThinkingEvent(text, source) => ThinkingTidy(ms, ThoughtOf(e, text, source));
    case ChatMessageComplete(id, content) =>
      CompatTidy(env.resolve, ms, CompletionOf(e, id, content));
      ClosedTidy(CompleteChatCompat(env.resolve, ms, CompletionOf(e, id, content)), e);
    case MessageCompleted(id, content) =>
      CompletionTidy(env.resolve, ms, CompletionOf(e, id, content));
      ClosedTidy(if Trim(id) == "" then ms else CompleteMessage(env.resolve, ms, CompletionOf(e, id, content)), e);
    case TaskEnded(_) =>
      StopTidy(ms, e.sessionId, e.taskId);
      ClosedTidy(StopStreaming(ms, e.sessionId, e.taskId), e);
    case _ =>
  }

  lemma ReplayPermissionTidy(ms: seq<ChatMessage>, e: Event, p: Permission)
    requires Tidy(ms) && AllGuarded(ms)
    ensures Tidy(ReplayPermission(ms, e, Some(p))) && Tidy(ReplayPermissionAnswer(ms, e, Some(p))) && Tidy(ReplayApproval(ms, e, Some(p)))
  {
    hide Tidy, AllGuarded, Closed, RequestPermission, ResolvePermission, ApprovalResolver, Same, Unmarked, Map;
    ClosedTidy(ms, e);
    RequestTidy(Closed(ms, e), PermissionOf(e, p));
    ResolveTidy(ms, PermissionOf(e, p));
    ApproverIsSame(p.requestId, p.rejected, e.ts);
    ApproverUnmarked(p.requestId, p.rejected, e.ts);
    MapTidy(ApprovalResolver(p.requestId, p.rejected, e.ts), ResolvePermission(ms, PermissionOf(e, p)));
  }

  lemma ReplayAnswerTidy(ms: seq<ChatMessage>, e: Event, a: Answer)
    requires Tidy(ms)
    ensures Tidy(ReplayAnswer(ms, e, Some(a)))
  {
    hide Tidy, Answerer, Same, Unmarked, Map;
    AnswererIsSame(a.(now := e.ts));
    AnswererUnmarked(a.(now := e.ts));
    MapTidy(Answerer(a.(now := e.ts)), ms);
  }

  lemma NoticeEventTidy(ms: seq<ChatMessage>, e: Event)
    requires Tidy(ms) && AllGuarded(ms)
    ensures Tidy(ApplyNotice(ms, e))
  {
    hide Tidy, AllGuarded, Closed, ReplayPermission, ReplayPermissionAnswer, ReplayApproval, ReplayAnswer, AppendSpecial;
    match e.body
    case PermissionRequested(p) => if p.Some? { ReplayPermissionTidy(ms, e, p.value); } else { NoPermission(ms, e); }
    case PermissionAnswered(p) => if p.Some? { ReplayPermissionTidy(ms, e, p.value); } else { NoPermission(ms, e); }
    case SpecialOccurred(s) =>
      ClosedTidy(ms, e);
      SpecialTidy(ms, SpecialOf(e, s));
      SpecialTidy(Closed(ms, e), SpecialOf(e, s));
    case QuestionAnswered(a) => if a.Some? { ReplayAnswerTidy(ms, e, a.value); } else { NoPermission(ms, e); }
    case ApprovalResolved(p) => if p.Some? { ReplayPermissionTidy(ms, e, p.value); } else { NoPermission(ms, e); }
    case _ =>
  }

  lemma NoPermission(ms: seq<ChatMessage>, e: Event)
    ensures ReplayPermission(ms, e, None) == ms && ReplayPermissionAnswer(ms, e, None) == ms
    ensures ReplayApproval(ms, e, None) == ms && ReplayAnswer(ms, e, None) == ms
  {
  }

  /** A shown event keeps to one block for each call exactly when it brings no late input. */
  lemma {:induction false} EventSplitsIff(env: Environment, ms: seq<ChatMessage>, e: Event)
    requires Tidy(ms) && AllGuarded(ms) && Shows(env, e) && PlainIds(e)
    ensures if LateInput(ms, e) then !OneBlockEach(ReplayEvent(env, ms, e)) else Tidy(ReplayEvent(env, ms, e))
  {
    hide Tidy, AllGuarded, ApplyTool, ApplyMessage, ApplyNotice, PlainIds, OneBlockEach, ReplayText, HasMarker, ResultArrived;
    if IsToolEvent(e.body) {
      ToolEventSplits(ms, e);
    } else if IsMessageEvent(e.body) {
      MessageEventTidy(env, ms, e);
    } else {
      NoticeEventTidy(ms, e);
    }
  }

  // ---- Runs ----------------------------------------------------------------------------------------------

  /** Event n of the run is applied and brings late input. */
  ghost predicate LateAt(env: Environment, s: ReplayState, es: seq<Event>, n: nat)
    requires n < |es|
  {
    var p := ReplayAll(env, s, es[..n]);
    !ReplayDrops(es[n], p.cancelled) && Shows(env, es[n]) && LateInput(p.messages, es[n])
  }

  /** The state after n + 1 events has one block each exactly when event n was not late. */
  lemma {:induction false} RunStep(env: Environment, s: ReplayState, es: seq<Event>, n: nat)
    requires n < |es| && PlainIds(es[n]) && AllGuarded(s.messages) && Tidy(ReplayAll(env, s, es[..n]).messages)
    ensures var after := ReplayAll(env, s, es[..n + 1]).messages;
            if LateAt(env, s, es, n) then !OneBlockEach(after) else Tidy(after)
  {
    hide Tidy, AllGuarded, PlainIds, OneBlockEach, LateInput, Shows, ReplayDrops, CancelledAfter, Apply;
    var p := ReplayAll(env, s, es[..n]);
    assert es[..n + 1][..n] == es[..n] && es[..n + 1][n] == es[n];
    RunGuards(env, s, es[..n]);
    if Shows(env, es[n]) {
      EventSplitsIff(env, p.messages, es[n]);
    }
  }

  lemma {:induction false} NoneLateTidy(env: Environment, s: ReplayState, es: seq<Event>, n: nat)
    requires Tidy(s.messages) && AllGuarded(s.messages) && (forall e | e in es :: PlainIds(e)) && n <= |es|
    requires forall k | 0 <= k < n :: !LateAt(env, s, es, k)
    ensures Tidy(ReplayAll(env, s, es[..n]).messages)
  {
    hide Tidy, AllGuarded, PlainIds, LateAt;
    if n > 0 {
      NoneLateTidy(env, s, es, n - 1);
      RunStep(env, s, es, n - 1);
    }
  }

  /** At the first late event the run stops keeping to one block each. */
  lemma {:induction false} FirstLate(env: Environment, s: ReplayState, es: seq<Event>, n: nat) returns (m: nat)
    requires Tidy(s.messages) && AllGuarded(s.messages) && (forall e | e in es :: PlainIds(e)) && n < |es|
    requires LateAt(env, s, es, n)
    ensures m <= |es| && !OneBlockEach(ReplayAll(env, s, es[..m]).messages)
  {
    hide Tidy, AllGuarded, PlainIds, LateAt, OneBlockEach;
    if k: nat :| k < n && LateAt(env, s, es, k) {
      m := FirstLate(env, s, es, k);
    } else {
      NoneLateTidy(env, s, es, n);
      RunStep(env, s, es, n);
      m := n + 1;
    }
  }

  /**
   A replay keeps at every moment to at most one block for each tool call if and only if no applied event
   brings input, not replayed before, for a call whose result is in.
   */
  lemma {:induction false} OneBlockAlwaysIff(env: Environment, s: ReplayState, es: seq<Event>)
    requires Tidy(s.messages) && AllGuarded(s.messages) && forall e | e in es :: PlainIds(e)
    ensures (forall n | 0 <= n <= |es| :: OneBlockEach(ReplayAll(env, s, es[..n]).messages))
            <==> (forall n | 0 <= n < |es| :: !LateAt(env, s, es, n))
  {
    hide Tidy, AllGuarded, PlainIds, LateAt, OneBlockEach;
    if n: nat :| n < |es| && LateAt(env, s, es, n) {
      var m := FirstLate(env, s, es, n);
    } else {
      forall n | 0 <= n <= |es| ensures OneBlockEach(ReplayAll(env, s, es[..n]).messages) {
        NoneLateTidy(env, s, es, n);
        TidyMeans(ReplayAll(env, s, es[..n]).messages);
      }
    }
  }

  /** And as long as none does, the block's id says whether the result is in. */
  lemma {:induction false} IdsSayKinds(env: Environment, s: ReplayState, es: seq<Event>, n: nat)
    requires Tidy(s.messages) && AllGuarded(s.messages) && (forall e | e in es :: PlainIds(e)) && n <= |es|
    requires forall k | 0 <= k < n :: !LateAt(env, s, es, k)
    ensures IdsMatchKinds(ReplayAll(env, s, es[..n]).messages)
  {
    hide Tidy, AllGuarded, PlainIds, LateAt, OneBlockEach, IdsMatchKinds;
    NoneLateTidy(env, s, es, n);
    TidyMeans(ReplayAll(env, s, es[..n]).messages);
  }
}
