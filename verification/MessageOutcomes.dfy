/** What text, thinking, permission and task updates leave in the transcript, told by its fields. */
module MessageOutcomes {
  import opened Seqs
  import opened Text
  import opened ContentDelta
  import opened ChatMessages
  import opened Numerals
  import opened MessageUpdates
  import opened ToolOutcomes
  import opened TextBlocks

  // ---- Text ------------------------------------------------------------------------------

  /** The id text of a delta goes to: that of its content block, of its block number, or of its message. */
  lemma TextTargetIs(d: TextDelta)
    ensures var block := if d.contentBlockId.Some? then Trim(d.contentBlockId.value) else "";
            && (HasBlockIdentity(d) <==> block != "" || d.blockIndex.Some?)
            && TextTargetId(d) == (if block != "" then "assistant_text:" + block
                                   else if d.blockIndex.Some? then "assistant_text:" + d.messageId + ":text:" + IntegerText(d.blockIndex.value)
                                   else d.messageId)
  {
  }

  /** The message text may attach to when none has its id: a streaming text message of the session and task that is still open. */
  predicate Open(m: ChatMessage, sessionId: string, taskId: string) {
    && sessionId != "" && m.role == Assistant && m.sessionId == sessionId && m.streaming
    && (m.metadata.kind in {None, Some(AssistantText)} || m.placeholder || "assistant_pending_" <= m.id)
    && (taskId == "" || m.taskId == taskId || m.taskId == "pending")
    && (m.placeholder || m.taskId == "pending" || "assistant_pending_" <= m.id || m.status == Some(Streaming))
  }

  /** Text goes to the first message of its id, else, where it may attach, to the last open one. */
  lemma {:induction false} TargetIs(ms: seq<ChatMessage>, id: string, sessionId: string, taskId: string, allowAttach: bool, i: nat)
    requires i < |ms|
    ensures TargetIndex(ms, id, sessionId, taskId, allowAttach) == i
            <==> || (ms[i].id == id && forall j | 0 <= j < i :: ms[j].id != id)
                 || (allowAttach && (forall j | 0 <= j < |ms| :: ms[j].id != id)
                     && Open(ms[i], sessionId, taskId) && forall j | i < j < |ms| :: !Open(ms[j], sessionId, taskId))
  {
    hide FindIndex, FindLastIndex;
    if sessionId != "" {
      forall j | 0 <= j < |ms| ensures Open(ms[j], sessionId, taskId) <==> AttachableTo(sessionId, taskId)(ms[j]) {
      }
    }
    var exact := FindIndex(HasId(id), ms);
    assert exact >= 0 ==> HasId(id)(ms[exact]);
    assert forall j | 0 <= j < (if exact >= 0 then exact else |ms|) :: !HasId(id)(ms[j]);
  }

  /** The empty message that the blocks of a message replace. */
  predicate EmptyBase(m: ChatMessage, d: TextDelta) {
    && m.id == Trim(d.messageId) && m.role == Assistant && m.sessionId == d.sessionId && (d.taskId == "" || m.taskId == d.taskId)
    && m.metadata.contentBlockId.None? && m.metadata.baseMessageId.None? && Trim(m.content) == ""
  }

  function NoEmptyBase(d: TextDelta): ChatMessage -> bool {
    (m: ChatMessage) => !EmptyBase(m, d)
  }

  /** Before a block's text is written, the empty base message goes. */
  lemma {:induction false} SourceIs(ms: seq<ChatMessage>, d: TextDelta)
    ensures TextSource(ms, d) == if HasBlockIdentity(d) && Trim(d.messageId) != "" then Filter(NoEmptyBase(d), ms) else ms
  {
    hide HasBlockIdentity, Trim;
    FilterCongruence(NotEmptyBase(d), NoEmptyBase(d), ms);
  }

  /** A message of text: one without kind, or of the text kind. */
  function TextKind(kind: Option<Kind>): Option<Kind> {
    if kind in {None, Some(AssistantText), Some(Custom(""))} then kind else None
  }

  /** The message that text was written into streams under the delta's id, and is text from now on. */
  predicate TextWritten(m: ChatMessage, n: ChatMessage, d: TextDelta) {
    && n == m.(id := TextTargetId(d), taskId := d.taskId, content := n.content, updatedAt := d.now, streaming := true,
               placeholder := false, status := Some(Streaming), metadata := n.metadata)
    && n.content == (if m.placeholder then TrimStart(d.delta) else AppendDelta(m.content, d.delta))
    && n.metadata.kind == TextKind(m.metadata.kind)
    && n.metadata == m.metadata.(kind := n.metadata.kind, baseMessageId := n.metadata.baseMessageId,
                                 contentBlockId := n.metadata.contentBlockId, blockIndex := n.metadata.blockIndex)
    && BlockNamed(m.metadata, n.metadata, d)
  }

  /** A delta of a block names its block, and its message as the base. */
  predicate BlockNamed(m: Metadata, n: Metadata, d: TextDelta) {
    && n.baseMessageId == (if HasBlockIdentity(d) && d.messageId != "" then Some(d.messageId) else m.baseMessageId)
    && n.contentBlockId == (if d.contentBlockId.Some? && d.contentBlockId.value != "" then d.contentBlockId else m.contentBlockId)
    && n.blockIndex == (if d.blockIndex.Some? then d.blockIndex else m.blockIndex)
  }

  /** A delta writes into the message it finds, or starts one at the end. */
  lemma {:induction false} TextDoes(ms: seq<ChatMessage>, d: TextDelta)
    ensures var source, i, after := TextSource(ms, d), TextTarget(ms, d), AppendTextDelta(ms, d);
            if i >= 0 then Elsewhere(source, after, i) && TextWritten(source[i], after[i], d)
            else
              && |after| == |source| + 1 && after[..|source|] == source
              && var n := after[|source|];
                 && n.id == TextTargetId(d) && n.sessionId == d.sessionId && n.taskId == d.taskId && n.role == Assistant
                 && n.content == TrimStart(d.delta) && n.createdAt == d.now && n.updatedAt == d.now && n.streaming && !n.placeholder
                 && n.status == Some(Streaming) && n.clientMessageId == None && n.createdSeq == None && n.toolName == None
                 && n.metadata.kind == None && n.metadata.toolUseId == None && n.metadata.markers == [] && BlockNamed(NO_METADATA, n.metadata, d)
  {
    hide TextSource, TextTargetId, HasBlockIdentity, AppendDelta, TrimStart, TargetIndex;
  }

  /** Deltas of one message, one after the other. */
  function StreamAll(ms: seq<ChatMessage>, ds: seq<TextDelta>): seq<ChatMessage> {
    if ds == [] then ms else AppendTextDelta(StreamAll(ms, ds[..|ds| - 1]), ds[|ds| - 1])
  }

  function Texts(ds: seq<TextDelta>): seq<string> {
    seq(|ds|, i requires 0 <= i < |ds| => ds[i].delta)
  }

  /** The deltas of one message, without blocks. */
  predicate OfOneMessage(ds: seq<TextDelta>, d: TextDelta) {
    forall e | e in ds :: e.messageId == d.messageId && e.sessionId == d.sessionId && e.taskId == d.taskId && !HasBlockIdentity(e)
  }

  /** The message a stream has made so far. */
  predicate StreamedInto(m: ChatMessage, ds: seq<TextDelta>)
    requires ds != []
  {
    && m.id == ds[0].messageId && m.sessionId == ds[0].sessionId && m.taskId == ds[0].taskId && m.role == Assistant
    && m.streaming && m.status == Some(Streaming) && !m.placeholder && m.createdAt == ds[0].now && m.updatedAt == ds[|ds| - 1].now
    && m.content == AppendAll(TrimStart(ds[0].delta), Texts(ds)[1..])
  }

  lemma {:induction false} StreamStarts(ms: seq<ChatMessage>, d: TextDelta) returns (m: ChatMessage)
    requires !HasBlockIdentity(d) && TextTarget(ms, d) < 0
    ensures AppendTextDelta(ms, d) == ms + [m] && StreamedInto(m, [d])
  {
    hide HasBlockIdentity, AppendDelta, TrimStart, AppendAll, TextTarget, Elsewhere, TextWritten, BlockNamed, AppendTextDelta;
    TextDoes(ms, d);
    PlainTarget(ms, d);
    m := AppendTextDelta(ms, d)[|ms|];
    assert AppendTextDelta(ms, d) == ms + [m];
    assert Texts([d])[1..] == [];
    AppendNothing(TrimStart(d.delta));
  }

  lemma PlainTarget(ms: seq<ChatMessage>, d: TextDelta)
    requires !HasBlockIdentity(d)
    ensures TextSource(ms, d) == ms && TextTargetId(d) == d.messageId
  {
  }

  lemma {:induction false} StreamGoesOn(ms: seq<ChatMessage>, ds: seq<TextDelta>, d: TextDelta, m: ChatMessage) returns (n: ChatMessage)
    requires ds != [] && StreamedInto(m, ds) && !HasBlockIdentity(ds[0]) && TextTarget(ms, ds[0]) < 0
    requires d.messageId == ds[0].messageId && d.sessionId == ds[0].sessionId && d.taskId == ds[0].taskId && !HasBlockIdentity(d)
    ensures AppendTextDelta(ms + [m], d) == ms + [n] && StreamedInto(n, ds + [d])
  {
    hide HasBlockIdentity, AppendDelta, TrimStart, AppendAll, TextTarget, BlockNamed, AppendTextDelta;
    FoundBehind(ms, m, d, ds[0]);
    TextDoes(ms + [m], d);
    n := AppendTextDelta(ms + [m], d)[|ms|];
    assert AppendTextDelta(ms + [m], d) == ms + [n];
    assert Texts(ds + [d])[1..] == Texts(ds)[1..] + [d.delta];
    AppendAllLast(TrimStart(ds[0].delta), Texts(ds)[1..], d.delta);
  }

  /** A stream of deltas to a message that is not there yet makes one message at the end, which reads as they do together. */
  lemma {:induction false} StreamedMessage(ms: seq<ChatMessage>, ds: seq<TextDelta>)
    requires ds != [] && OfOneMessage(ds, ds[0]) && TextTarget(ms, ds[0]) < 0
    ensures exists m :: StreamAll(ms, ds) == ms + [m] && StreamedInto(m, ds)
  {
    hide HasBlockIdentity, TextTarget, StreamedInto, AppendTextDelta;
    var init, last := ds[..|ds| - 1], ds[|ds| - 1];
    assert ds == init + [last] && last in ds && ds[0] in ds;
    if init == [] {
      assert ds == [last] && StreamAll(ms, []) == ms;
      var m := StreamStarts(ms, last);
    } else {
      assert init[0] == ds[0] && forall e | e in init :: e in ds;
      StreamedMessage(ms, init);
      var m :| StreamAll(ms, init) == ms + [m] && StreamedInto(m, init);
      var n := StreamGoesOn(ms, init, last, m);
    }
  }

  lemma {:induction false} AppendNothing(content: string)
    ensures AppendAll(content, []) == content
  {
  }

  lemma {:induction false} FoundBehind(ms: seq<ChatMessage>, m: ChatMessage, d: TextDelta, first: TextDelta)
    requires m.id == d.messageId == first.messageId && !HasBlockIdentity(d) && !HasBlockIdentity(first) && TextTarget(ms, first) < 0
    ensures TextSource(ms + [m], d) == ms + [m] && TextTarget(ms + [m], d) == |ms| && TextTargetId(d) == d.messageId
  {
    hide Attachable;
    assert FindIndex(HasId(first.messageId), ms) < 0;
    forall j | 0 <= j < |ms| ensures (ms + [m])[j].id != d.messageId {
      assert !HasId(first.messageId)(ms[j]);
    }
    assert (ms + [m])[|ms|] == m;
  }

  // ---- Completions -----------------------------------------------------------------------------

  predicate Settles(m: ChatMessage, n: ChatMessage, now: int) {
    n == m.(streaming := false, placeholder := false, updatedAt := now, status := if m.status == Some(Failed) then Some(Failed) else Some(Completed))
  }

  /** The content block belongs to the message of the completion. */
  predicate BlockOfMessage(m: ChatMessage, c: Completion) {
    && m.role == Assistant && (m.metadata.contentBlockId.Some? || m.metadata.baseMessageId.Some?)
    && m.sessionId == c.sessionId && (c.taskId == "" || m.taskId == c.taskId)
    && (c.messageId == "" || m.metadata.baseMessageId == Some(c.messageId) || m.id == c.messageId)
  }

  /** Whether the completion is of a message of blocks: its trimmed id is the base or the id of one, or it names none. */
  lemma {:induction false} HasBlocksIff(ms: seq<ChatMessage>, c: Completion)
    ensures FindIndex(CompletesBlockOf(c), ms) >= 0
            <==> exists m :: m in ms && BlockOfMessage(m, c.(messageId := Trim(c.messageId)))
  {
    hide Trim, FindIndex;
    var i := FindIndex(CompletesBlockOf(c), ms);
    if i >= 0 {
      assert ms[i] in ms && BlockOfMessage(ms[i], c.(messageId := Trim(c.messageId)));
    }
    if m :| m in ms && BlockOfMessage(m, c.(messageId := Trim(c.messageId))) {
      var j :| 0 <= j < |ms| && ms[j] == m;
      assert CompletesBlockOf(c)(ms[j]);
    }
  }

  /** A message of blocks is settled block by block. */
  lemma {:induction false} CompletionSettlesBlocks(resolve: Resolver, ms: seq<ChatMessage>, c: Completion)
    requires FindIndex(CompletesBlockOf(c), ms) >= 0
    ensures forall after | after == CompleteMessage(resolve, ms, c) || after == CompleteChatCompat(resolve, ms, c) ::
              |after| == |ms| && forall i | 0 <= i < |ms| :: if BlockOfMessage(ms[i], c) then Settles(ms[i], after[i], c.now) else after[i] == ms[i]
  {
    hide CompletesBlock;
  }

  /** Any other message gets the content resolved from what was streamed and what the completion brings, in this order. */
  lemma {:induction false} CompletionDoes(resolve: Resolver, ms: seq<ChatMessage>, c: Completion)
    requires FindIndex(CompletesBlockOf(c), ms) < 0
    ensures var i, after := TargetIndex(ms, c.messageId, c.sessionId, c.taskId, true), CompleteMessage(resolve, ms, c);
            if i >= 0 then
              && Elsewhere(ms, after, i)
              && var m, n := ms[i], after[i];
                 && n == m.(id := c.messageId, taskId := c.taskId, content := n.content, updatedAt := c.now, streaming := false,
                            placeholder := false, status := Some(Completed), metadata := n.metadata)
                 && n.content == resolve(m.content, c.content, m.placeholder || m.content == "思考中..." || |m.content| < 5)
                 && n.metadata == m.metadata.(kind := TextKind(m.metadata.kind))
            else if Trim(c.content) == "" then after == ms
            else
              && |after| == |ms| + 1 && after[..|ms|] == ms
              && after[|ms|] == ChatMessage(c.messageId, c.sessionId, c.taskId, Assistant, c.content, c.now, c.now, false, false,
                                            None, Some(Completed), None, None, NO_METADATA)
  {
    hide TargetIndex, CompletesBlock;
  }

  /** The older protocol first settles what streams of the task. */
  lemma {:induction false} CompatDoes(resolve: Resolver, ms: seq<ChatMessage>, c: Completion)
    requires FindIndex(CompletesBlockOf(c), ms) < 0
    ensures exists next ::
              && |next| == |ms|
              && (forall i | 0 <= i < |ms| ::
                    if ms[i].sessionId == c.sessionId && ms[i].taskId == c.taskId && ms[i].streaming then Settles(ms[i], next[i], c.now) else next[i] == ms[i])
              && CompleteChatCompat(resolve, ms, c) == if c.messageId == "" then next else CompleteMessage(resolve, next, c)
  {
    hide CompletesBlock, CompleteMessage;
    var next := Map(SettleTask(c), ms);
    assert |next| == |ms|;
  }

  // ---- Thinking ------------------------------------------------------------------------------------

  /** What a thinking update says: its own text, or the label of its state. */
  lemma ThinkingSays(u: ThinkingUpdate)
    ensures var action := if u.verb.Some? then Trim(u.verb.value) else "";
            ThinkingContent(u)
            == if u.text.Some? && Trim(u.text.value) != "" then u.text.value
               else if u.state == Some("tool_executing") then (if action != "" then "正在调用 " + action else "正在调用工具")
               else if u.state == Some("permission_pending") then (if action != "" then "等待 " + action + " 审批" else "等待权限审批")
               else if u.state == Some("streaming") then "正在输出回复"
               else if u.state == Some("thinking") then "模型正在思考"
               else if action != "" then action else "正在处理"
  {
  }

  /** The thinking message after an update: it streams, and knows the update's state, verb, event and source. */
  predicate Thinks(meta: Metadata, n: ChatMessage, u: ThinkingUpdate) {
    && n.sessionId == u.sessionId && n.taskId == u.taskId && n.role == Assistant && n.updatedAt == u.now
    && n.streaming && n.status == Some(Streaming) && !n.placeholder
    && n.metadata.kind == Some(AssistantThinking) && n.metadata.state == u.state && n.metadata.verb == u.verb
    && n.metadata.eventId == (if Trim(u.eventId) != "" then Some(Trim(u.eventId)) else meta.eventId)
    && n.metadata.source == (if u.source.Some? then u.source else meta.source)
    && n.metadata == meta.(kind := n.metadata.kind, state := n.metadata.state, verb := n.metadata.verb, eventId := n.metadata.eventId,
                           source := n.metadata.source, transient := n.metadata.transient)
  }

  /** An update continues the message it finds, whose text streamed text is put behind, or starts one at the end. */
  lemma {:induction false} ThinkingDoes(ms: seq<ChatMessage>, u: ThinkingUpdate)
    ensures var i, after := ThinkingIndex(ms, u), UpdateThinking(ms, u);
            if i >= 0 then
              && Elsewhere(ms, after, i)
              && var m, n := ms[i], after[i];
                 && n.id == m.id && n.createdAt == m.createdAt && Thinks(m.metadata, n, u)
                 && (AppendsThinkingText(m, u) ==> u.text.Some? && n.content == m.content + u.text.value)
                 && (!AppendsThinkingText(m, u) && !ProviderSummary(u) ==> n.content == ThinkingContent(u))
                 && (ProviderSummary(u) && Trim(m.content) != [] && Trim(m.content) != Trim(ThinkingContent(u)) ==>
                       n.content == AppendDelta(m.content, "\n\n" + ThinkingContent(u)))
            else
              && |after| == |ms| + 1 && after[..|ms|] == ms
              && var n := after[|ms|];
                 && n.createdAt == u.now && n.content == ThinkingContent(u) && Thinks(NO_METADATA, n, u)
                 && (Trim(u.eventId) != "" && !ProviderSummary(u) ==> n.id == "assistant_thinking:" + Trim(u.eventId))
  {
    hide ThinkingIndex, StatusLabel, ThinkingContent, Trim, IncomingTransient, AppendDelta;
    NothingTrimmed();
  }

  lemma NothingTrimmed()
    ensures TrimmedOr(None) == ""
  {
  }

  /** Streamed text is put behind: both the message and the update think, neither is a mere status, and the message is no label. */
  lemma AppendsIff(m: ChatMessage, u: ThinkingUpdate)
    ensures AppendsThinkingText(m, u)
            <==> && u.text.Some? && Trim(u.text.value) != "" && !ProviderSummary(u)
                 && m.metadata.state == Some("thinking") && u.state == Some("thinking") && !IncomingTransient(u) && !IsTransient(m)
                 && m.content != StatusLabel(u.state, u.verb)
                 && m.content != StatusLabel(m.metadata.state, if m.metadata.verb.Some? then m.metadata.verb else u.verb)
  {
    hide Trim, StatusLabel, IncomingTransient, IsTransient;
  }

  /** A message is a mere status as its flag says; without one, when it names no source and is blank, or of another state, or its label. */
  lemma StatusIff(m: ChatMessage)
    requires m.metadata.kind == Some(AssistantThinking)
    ensures m.metadata.transient.Some? ==> IsTransient(m) == m.metadata.transient.value
    ensures m.metadata.transient.None? ==>
              (IsTransient(m)
               <==> && (m.metadata.source.Some? ==> Trim(m.metadata.source.value) == "")
                    && (Trim(m.content) == "" || (m.metadata.state.Some? && m.metadata.state.value !in {"", "thinking"})
                        || Trim(m.content) == Trim(StatusLabel(m.metadata.state, m.metadata.verb))))
  {
    hide Trim, StatusLabel;
  }

  /** The same of an update. */
  lemma IncomingStatusIff(u: ThinkingUpdate)
    ensures u.transient.Some? ==> IncomingTransient(u) == u.transient.value
    ensures u.transient.None? ==>
              (IncomingTransient(u)
               <==> && (u.source.Some? ==> Trim(u.source.value) == "")
                    && (u.text.None? || Trim(u.text.value) == "" || (u.state.Some? && u.state.value !in {"", "thinking"})
                        || Trim(ThinkingContent(u)) == Trim(StatusLabel(u.state, None))))
    ensures ProviderSummary(u) <==> u.source.Some? && Trim(u.source.value) in {"provider_reasoning_summary", "non_stream_thought_summary"}
  {
    hide Trim, StatusLabel, ThinkingContent;
    NothingTrimmed();
  }

  predicate OfTaskOf(m: ChatMessage, u: ThinkingUpdate) {
    m.sessionId == u.sessionId && m.taskId == u.taskId
  }

  predicate OfTheEvent(m: ChatMessage, u: ThinkingUpdate) {
    && Trim(u.eventId) != "" && !ProviderSummary(u) && OfTaskOf(m, u) && m.metadata.kind == Some(AssistantThinking)
    && (m.id == "assistant_thinking:" + Trim(u.eventId) || m.metadata.eventId == Some(Trim(u.eventId)))
  }

  /** The message an update continues: the first of its event, else the task's last message if that thinks and fits. */
  lemma {:induction false} ThinkingTarget(ms: seq<ChatMessage>, u: ThinkingUpdate, i: nat)
    requires i < |ms|
    ensures ThinkingIndex(ms, u) == i
            <==> || (OfTheEvent(ms[i], u) && forall j | 0 <= j < i :: !OfTheEvent(ms[j], u))
                 || ((forall j | 0 <= j < |ms| :: !OfTheEvent(ms[j], u))
                     && OfTaskOf(ms[i], u) && ms[i].metadata.kind == Some(AssistantThinking)
                     && (forall j | i < j < |ms| :: !OfTaskOf(ms[j], u))
                     && (ProviderSummary(u)
                         || (IsTransient(ms[i]) == IncomingTransient(u)
                             && (IncomingTransient(u) || !Truthy(ms[i].metadata.state) || !Truthy(u.state) || ms[i].metadata.state == u.state))))
  {
    hide Trim, ProviderSummary, IncomingTransient, IsTransient, FindIndex, FindLastIndex;
    forall j | 0 <= j < |ms| ensures OfTheEvent(ms[j], u) <==> HasEventId(u) && OfEvent(u)(ms[j]) {
    }
    forall j | 0 <= j < |ms| ensures OfTaskOf(ms[j], u) <==> OfTask(u)(ms[j]) {
    }
    assert FindIndex(OfEvent(u), ms) >= 0 ==> OfEvent(u)(ms[FindIndex(OfEvent(u), ms)]);
  }

  /** Closing thinking at a tool boundary: mere statuses go, what streams is settled, everything else stays in its place. */
  predicate ThinksFor(m: ChatMessage, sessionId: string, taskId: string) {
    m.metadata.kind == Some(AssistantThinking) && m.sessionId == sessionId && (taskId == "" || m.taskId == taskId)
  }

  function StaysAtBoundary(sessionId: string, taskId: string): ChatMessage -> bool {
    (m: ChatMessage) => !(ThinksFor(m, sessionId, taskId) && IsTransient(m))
  }

  predicate ClosedAs(m: ChatMessage, n: ChatMessage, sessionId: string, taskId: string, now: int) {
    n == if ThinksFor(m, sessionId, taskId) && (m.streaming || m.status == Some(Streaming)) then
           m.(updatedAt := now, streaming := false, status := Some(Completed), metadata := m.metadata.(transient := Some(false)))
         else m
  }

  lemma {:induction false} BoundaryDoes(ms: seq<ChatMessage>, sessionId: string, taskId: string, now: int)
    ensures var kept, after := Filter(StaysAtBoundary(sessionId, taskId), ms), RemoveThinking(ms, sessionId, taskId, now);
            |after| == |kept| && forall i | 0 <= i < |kept| :: ClosedAs(kept[i], after[i], sessionId, taskId, now)
  {
    hide IsTransient, Filter, ClosedAs;
    if ms != [] {
      var init, last := ms[..|ms| - 1], ms[|ms| - 1];
      assert ms == init + [last];
      BoundaryDoes(init, sessionId, taskId, now);
      FilterAppend(StaysAtBoundary(sessionId, taskId), init, [last]);
      OneAtBoundary(last, sessionId, taskId, now);
    } else {
      assert Filter(StaysAtBoundary(sessionId, taskId), ms) == [] by { NothingFiltered(StaysAtBoundary(sessionId, taskId)); }
    }
  }

  lemma NothingFiltered(p: ChatMessage -> bool)
    ensures Filter(p, []) == []
  {
  }

  lemma OneAtBoundary(m: ChatMessage, sessionId: string, taskId: string, now: int)
    ensures var kept, after := Filter(StaysAtBoundary(sessionId, taskId), [m]), AfterThinking(m, sessionId, taskId, now);
            |after| == |kept| <= 1 && (|kept| == 1 ==> ClosedAs(kept[0], after[0], sessionId, taskId, now))
  {
    hide IsTransient;
  }

  // ---- Permissions -------------------------------------------------------------------------------------

  /** A request writes its message, and keeps only the time at which an earlier one was made. */
  lemma {:induction false} RequestDoes(ms: seq<ChatMessage>, p: Permission)
    ensures var i, after := FindIndex(HasId("permission_request:" + p.requestId), ms), RequestPermission(ms, p);
            && (if i >= 0 then Elsewhere(ms, after, i) else |after| == |ms| + 1 && after[..|ms|] == ms)
            && RequestMessage(after[if i >= 0 then i else |ms|], p) && after[if i >= 0 then i else |ms|].status == None
            && after[if i >= 0 then i else |ms|].createdAt == if i >= 0 then ms[i].createdAt else p.now
  {
    assert PermissionId(p.requestId) == "permission_request:" + p.requestId;
  }

  predicate RequestMessage(n: ChatMessage, p: Permission) {
    && n.id == "permission_request:" + p.requestId && n.sessionId == p.sessionId && n.taskId == p.taskId && n.role == Assistant
    && n.content == p.content && n.updatedAt == p.now && !n.streaming && !n.placeholder && n.toolName == p.toolName
    && n.metadata == NO_METADATA.(kind := Some(PermissionRequest), requestId := Some(p.requestId), toolUseId := p.toolUseId,
                                  presentation := p.presentation)
  }

  /** An answer settles the request's message as failed or completed, and makes it only when it may and has something to show. */
  lemma {:induction false} ResolveDoes(ms: seq<ChatMessage>, p: Permission)
    ensures var i, after := FindIndex(HasId("permission_request:" + p.requestId), ms), ResolvePermission(ms, p);
            var decision := Some(if p.rejected then Failed else Completed);
            if i >= 0 then
              && Elsewhere(ms, after, i)
              && var m, n := ms[i], after[i];
                 && n == m.(updatedAt := p.now, status := decision, metadata := n.metadata)
                 && n.metadata == m.metadata.(kind := Some(PermissionRequest), requestId := Some(p.requestId),
                                              toolUseId := if p.toolUseId.Some? then p.toolUseId else m.metadata.toolUseId,
                                              presentation := MergePresentation(p.presentation, m.metadata.presentation))
            else if p.createIfMissing && p.sessionId != "" && p.hasDetails then
              && |after| == |ms| + 1 && after[..|ms|] == ms && RequestMessage(after[|ms|], p)
              && after[|ms|].status == decision && after[|ms|].createdAt == p.now
            else after == ms
  {
    hide MergePresentation;
    assert PermissionId(p.requestId) == "permission_request:" + p.requestId;
  }

  /** The message is the approval's: a computer use permission with its approval id, or without one its request id. */
  predicate AsksApproval(m: ChatMessage, approvalId: string) {
    && m.metadata.kind in {Some(ComputerUsePermission), Some(ComputerUsePermissionRequest)} && approvalId != ""
    && approvalId == (if m.metadata.approvalId.Some? then Trim(m.metadata.approvalId.value)
                      else if m.metadata.requestId.Some? then Trim(m.metadata.requestId.value) else "")
  }

  lemma {:induction false} ApprovalDoes(ms: seq<ChatMessage>, approvalId: string, rejected: bool, now: int)
    ensures var after := ResolveApproval(ms, approvalId, rejected, now);
            |after| == |ms| && forall i | 0 <= i < |ms| ::
              after[i] == if AsksApproval(ms[i], approvalId) then
                            ms[i].(updatedAt := now, status := Some(if rejected then Failed else Completed),
                                   metadata := ms[i].metadata.(kind := Some(ComputerUsePermission)))
                          else ms[i]
  {
    hide Trim;
  }

  // ---- Special events and questions ----------------------------------------------------------------------

  /** The key under which events of one question or approval meet. */
  lemma StableKeyIs(e: SpecialEvent)
    ensures var request := if e.requestId.Some? then Trim(e.requestId.value) else "";
            var call := if e.toolCallId.Some? then Trim(e.toolCallId.value) else "";
            var approval := if e.approvalId.Some? then Trim(e.approvalId.value) else "";
            StableKey(e) == if e.kind == AskUser then (if request != "" then request else call)
                            else if e.kind == ComputerUse then (if approval != "" then approval else request)
                            else ""
  {
    hide Trim;
  }

  lemma SpecialKindOf(e: SpecialEvent)
    ensures e.kind == AskUser ==> KindOfSpecial(e.kind) == AskUserQuestion
    ensures e.kind == ComputerUse ==> KindOfSpecial(e.kind) == ComputerUsePermission
    ensures forall k: SpecialKind, l: SpecialKind | KindOfSpecial(k) == KindOfSpecial(l) || SpecialName(k) == SpecialName(l) :: k == l
  {
  }

  lemma SpecialNames()
    ensures SpecialName(ApiRetry) == "api_retry" && SpecialName(SystemNotice) == "system" && SpecialName(CompactSummary) == "compact_summary"
    ensures SpecialName(GoalEvent) == "goal_event" && SpecialName(MemoryEvent) == "memory_event"
    ensures SpecialName(BackgroundTask) == "background_task" && SpecialName(AgentTaskGroup) == "agent_task_group"
    ensures SpecialName(AskUser) == "ask_user_question" && SpecialName(ComputerUse) == "computer_use_permission"
  {
  }

  /** Special events of different kinds never write the same message. */
  lemma SpecialKindsApart(e: SpecialEvent, f: SpecialEvent)
    requires SpecialId(e) == SpecialId(f)
    ensures e.kind == f.kind
  {
    hide StableKey, SpecialName;
    NamesWithoutColon(e.kind);
    NamesWithoutColon(f.kind);
    var m, n := SpecialName(e.kind), SpecialName(f.kind);
    assert SpecialId(e)[|m|] == ':' && SpecialId(f)[|n|] == ':';
    assert SpecialId(e)[..|m|] == m && SpecialId(f)[..|n|] == n;
    SpecialKindOf(e);
  }

  lemma NamesWithoutColon(k: SpecialKind)
    ensures ':' !in SpecialName(k)
  {
  }

  /** A special event writes its message: under its stable key over what is there, otherwise afresh. */
  lemma {:induction false} SpecialDoes(ms: seq<ChatMessage>, e: SpecialEvent)
    ensures var key := if StableKey(e) != "" then StableKey(e) else if Trim(e.eventId) != "" then Trim(e.eventId) else e.taskId + ":" + IntegerText(e.now);
            var i, after := FindIndex(HasId(SpecialName(e.kind) + ":" + key), ms), AppendSpecial(ms, e);
            var merged := StableKey(e) != "" && i >= 0;
            var meta := if merged then ms[i].metadata else NO_METADATA;
            && (if i >= 0 then Elsewhere(ms, after, i) else |after| == |ms| + 1 && after[..|ms|] == ms)
            && var n := after[if i >= 0 then i else |ms|];
               && n.id == SpecialName(e.kind) + ":" + key && n.sessionId == e.sessionId && n.taskId == e.taskId && n.role == Assistant
               && n.content == (if Trim(e.content) == "" && merged then ms[i].content else e.content)
               && n.createdAt == (if i >= 0 then ms[i].createdAt else e.now) && n.updatedAt == e.now
               && !n.streaming && !n.placeholder && n.status == e.status
               && n.metadata == meta.(kind := Some(KindOfSpecial(e.kind)),
                                      requestId := if e.requestId.Some? then e.requestId else meta.requestId,
                                      approvalId := if e.approvalId.Some? then e.approvalId else meta.approvalId,
                                      toolCallId := if e.toolCallId.Some? then e.toolCallId else meta.toolCallId,
                                      toolUseId := if e.toolUseId.Some? then e.toolUseId else meta.toolUseId)
  {
    hide StableKey, SpecialName, KindOfSpecial;
  }

  /** The question an answer is for: named by message, request or tool call. */
  predicate AsksQuestion(m: ChatMessage, a: Answer) {
    && m.metadata.kind == Some(AskUserQuestion)
    && (|| (a.messageId != "" && m.id == a.messageId)
        || (a.requestId != "" && m.metadata.requestId.Some? && Trim(m.metadata.requestId.value) == a.requestId)
        || (a.toolCallId != "" && m.metadata.toolCallId.Some? && Trim(m.metadata.toolCallId.value) == a.toolCallId))
  }

  lemma {:induction false} AnswerDoes(ms: seq<ChatMessage>, a: Answer)
    ensures var after := AnswerQuestion(ms, a);
            |after| == |ms| && forall i | 0 <= i < |ms| ::
              after[i] == if AsksQuestion(ms[i], a) then ms[i].(updatedAt := a.now, status := Some(Completed)) else ms[i]
  {
    hide Trim;
  }

  // ---- The end of a task -------------------------------------------------------------------------------------

  /** An assistant message of the task, or one still pending, streams. */
  predicate StreamsFor(m: ChatMessage, sessionId: string, taskId: string) {
    m.sessionId == sessionId && m.role == Assistant && m.streaming && (taskId == "" || m.taskId == taskId || m.taskId == "pending")
  }

  predicate BlankOf(m: ChatMessage, sessionId: string, taskId: string) {
    m.sessionId == sessionId && m.role == Assistant && Trim(m.content) == "" && (taskId == "" || m.taskId == taskId || m.taskId == "pending")
  }

  function NotBlankOf(sessionId: string, taskId: string): ChatMessage -> bool {
    (m: ChatMessage) => !BlankOf(m, sessionId, taskId)
  }

  /** All streaming stops without a status but a failure's, and blank messages go. */
  lemma {:induction false} StopDoes(ms: seq<ChatMessage>, sessionId: string, taskId: string)
    ensures exists stopped ::
              && |stopped| == |ms|
              && (forall i | 0 <= i < |ms| ::
                    stopped[i] == if StreamsFor(ms[i], sessionId, taskId) then
                                    ms[i].(streaming := false, placeholder := false, status := if ms[i].status == Some(Failed) then Some(Failed) else None)
                                  else ms[i])
              && StopStreaming(ms, sessionId, taskId) == Filter(NotBlankOf(sessionId, taskId), stopped)
  {
    hide Trim;
    var stopped := Map(Stopper(sessionId, taskId), ms);
    assert |stopped| == |ms|;
    FilterCongruence(KeptWhenStopped(sessionId, taskId), NotBlankOf(sessionId, taskId), stopped);
  }
}
