/** The updates that leave the table of tool blocks alone, and the replay markers. */
module PlainUpdates {
  import opened Seqs
  import opened Text
  import ContentDelta
  import opened ChatMessages
  import opened MessageUpdates
  import opened ToolBlocks
  import opened TraceReplay
  import opened BlockTable
  import opened BlockInvariants

  ghost predicate Keeps(before: seq<ChatMessage>, after: seq<ChatMessage>) {
    Sound(after) && Blocks(after) == Blocks(before)
  }

  // ---- Rewriting and dropping -----------------------------------------------------------

  lemma {:induction false} MapKeeps(f: ChatMessage -> ChatMessage, ms: seq<ChatMessage>)
    requires Sound(ms) && forall m: ChatMessage :: Same(m, f(m))
    ensures Keeps(ms, Map(f, ms))
  {
    MapThins(f, ms, Map(f, ms));
    ThinsSound(ms, Map(f, ms));
  }

  lemma SettlersAreSame(c: Completion)
    ensures forall m: ChatMessage :: Same(m, SettleBlock(c)(m)) && Same(m, SettleTask(c)(m))
  {
  }

  lemma AnswererIsSame(a: Answer)
    ensures forall m: ChatMessage :: Same(m, Answerer(a)(m))
  {
  }

  lemma ApproverIsSame(approvalId: string, rejected: bool, now: int)
    ensures forall m: ChatMessage :: Same(m, ApprovalResolver(approvalId, rejected, now)(m))
  {
  }

  lemma StopperIsSame(sessionId: string, taskId: string)
    ensures forall m: ChatMessage :: Same(m, Stopper(sessionId, taskId)(m))
  {
  }

  lemma {:induction false} RemoveThinkingKeeps(ms: seq<ChatMessage>, sessionId: string, taskId: string, now: int)
    requires Sound(ms)
    ensures Keeps(ms, RemoveThinking(ms, sessionId, taskId, now))
  {
    RemoveThinkingThins(ms, sessionId, taskId, now);
    ThinsSound(ms, RemoveThinking(ms, sessionId, taskId, now));
  }

  /** The end of a task would drop no tool block as empty. */
  ghost predicate DropsNoBlock(ms: seq<ChatMessage>, sessionId: string, taskId: string) {
    forall m | m in ms && IsToolBlock(m) :: !DroppedWhenStopped(m, sessionId, taskId)
  }

  lemma StoppedStays(m: ChatMessage, sessionId: string, taskId: string)
    ensures var n := Stopper(sessionId, taskId)(m);
            && SlotOf(n) == SlotOf(m) && (IsToolBlock(n) <==> IsToolBlock(m))
            && (KeptWhenStopped(sessionId, taskId)(n) <==> !DroppedWhenStopped(m, sessionId, taskId))
  {
  }

  /** Somewhere else than at i stands a message with this slot. */
  ghost predicate SlotElsewhere(ms: seq<ChatMessage>, i: int, s: Slot) {
    exists j :: 0 <= j < |ms| && j != i && SlotOf(ms[j]) == s
  }

  /** When no message of the new list stems from the block at i, its call is missing from the table. */
  lemma BlockGone(ms: seq<ChatMessage>, after: seq<ChatMessage>, i: nat)
    requires Sound(ms) && i < |ms| && SlotOf(ms[i]).Slot?
    requires forall n | n in after && SlotOf(n).Slot? :: SlotElsewhere(ms, i, SlotOf(n))
    ensures !Keeps(ms, after)
  {
    hide SlotOf, AllGood, AllBacked, TableOf;
    EntryOfSlot(Slots(ms), i);
    if Sound(after) && Blocks(after) == Blocks(ms) {
      var k := SlotOfEntry(Slots(after), SlotOf(ms[i]).toolUseId);
    }
  }

  lemma DroppedBlockIsGone(ms: seq<ChatMessage>, sessionId: string, taskId: string, i: nat)
    requires Sound(ms) && i < |ms| && SlotOf(ms[i]).Slot? && DroppedWhenStopped(ms[i], sessionId, taskId)
    ensures !Keeps(ms, StopStreaming(ms, sessionId, taskId))
  {
    hide Sound, Keeps, SlotOf, Filter, Map, Stopper, KeptWhenStopped, DroppedWhenStopped;
    var stopped, after := Map(Stopper(sessionId, taskId), ms), StopStreaming(ms, sessionId, taskId);
    FilterMembers(KeptWhenStopped(sessionId, taskId), stopped);
    forall n | n in after && SlotOf(n).Slot? ensures SlotElsewhere(ms, i, SlotOf(n)) {
      var j :| 0 <= j < |stopped| && stopped[j] == n;
      StoppedStays(ms[j], sessionId, taskId);
    }
    BlockGone(ms, after, i);
  }

  lemma StopKeeps(ms: seq<ChatMessage>, sessionId: string, taskId: string)
    requires Sound(ms) && DropsNoBlock(ms, sessionId, taskId)
    ensures Keeps(ms, StopStreaming(ms, sessionId, taskId))
  {
    hide Sound, Blocks, Same, Stopper, KeptWhenStopped, DroppedWhenStopped, Thins, Filter;
    var stopped := Map(Stopper(sessionId, taskId), ms);
    StopperIsSame(sessionId, taskId);
    MapKeeps(Stopper(sessionId, taskId), ms);
    forall m | m in stopped && IsToolBlock(m) ensures KeptWhenStopped(sessionId, taskId)(m) {
      var i :| 0 <= i < |stopped| && stopped[i] == m;
      assert ms[i] in ms;
      StoppedStays(ms[i], sessionId, taskId);
    }
    FilterThins(KeptWhenStopped(sessionId, taskId), stopped);
    ThinsSound(stopped, StopStreaming(ms, sessionId, taskId));
  }

  /** In a well-formed list every tool block has its slot. */
  lemma SoundSlot(ms: seq<ChatMessage>, i: nat)
    requires Sound(ms) && i < |ms|
    ensures IsToolBlock(ms[i]) <==> SlotOf(ms[i]).Slot?
  {
    hide OneEach, AllBacked;
    assert ms[i] in ms;
  }

  /** The end of a task leaves the table alone exactly when it drops no tool block as empty. */
  lemma {:induction false} StopKeepsIff(ms: seq<ChatMessage>, sessionId: string, taskId: string)
    requires Sound(ms)
    ensures Keeps(ms, StopStreaming(ms, sessionId, taskId)) <==> DropsNoBlock(ms, sessionId, taskId)
  {
    hide Sound, Keeps, DroppedWhenStopped, StopStreaming;
    if DropsNoBlock(ms, sessionId, taskId) {
      StopKeeps(ms, sessionId, taskId);
    } else {
      var m :| m in ms && IsToolBlock(m) && DroppedWhenStopped(m, sessionId, taskId);
      var i :| 0 <= i < |ms| && ms[i] == m;
      SoundSlot(ms, i);
      DroppedBlockIsGone(ms, sessionId, taskId, i);
    }
  }

  // ---- Text ------------------------------------------------------------------------------

  /** A message that text may be written into is no tool block. */
  lemma TextTargetIsPlain(ms: seq<ChatMessage>, messageId: string, sessionId: string, taskId: string, allowAttach: bool)
    requires AllGood(ms) && !ToolLike(messageId)
    ensures var i := TargetIndex(ms, messageId, sessionId, taskId, allowAttach); i >= 0 ==> !IsToolBlock(ms[i])
  {
    var i := TargetIndex(ms, messageId, sessionId, taskId, allowAttach);
    if i >= 0 {
      assert ms[i] in ms;
      if IsToolBlock(ms[i]) {
        ToolIds(ms[i].metadata.toolUseId.value);
      }
    }
  }

  /** Removing the empty base message removes no tool block. */
  ghost predicate BaseIsNoBlock(ms: seq<ChatMessage>, d: TextDelta) {
    HasBlockIdentity(d) && Trim(d.messageId) != [] ==> forall m | m in ms && IsToolBlock(m) :: NotEmptyBase(d)(m)
  }

  lemma SoundIsGood(ms: seq<ChatMessage>)
    requires Sound(ms)
    ensures AllGood(ms)
  {
    hide AllGood, OneEach, AllBacked;
  }

  lemma SourceKeeps(ms: seq<ChatMessage>, d: TextDelta)
    requires Sound(ms) && BaseIsNoBlock(ms, d)
    ensures Keeps(ms, TextSource(ms, d))
  {
    hide Sound, Blocks, HasBlockIdentity, NotEmptyBase, Filter;
    if HasBlockIdentity(d) && Trim(d.messageId) != [] {
      FilterThins(NotEmptyBase(d), ms);
      ThinsSound(ms, Filter(NotEmptyBase(d), ms));
    }
  }

  /** A text delta stays away from tool blocks: a condition on its own ids and on the message it may drop. */
  ghost predicate TextSpares(ms: seq<ChatMessage>, d: TextDelta) {
    !ToolLike(TextTargetId(d)) && BaseIsNoBlock(ms, d)
  }

  /** Ids of their own suffice. */
  lemma TextIdsSuffice(ms: seq<ChatMessage>, d: TextDelta)
    requires AllGood(ms) && !ToolLike(TextTargetId(d)) && !ToolLike(Trim(d.messageId))
    ensures TextSpares(ms, d)
  {
    hide ToolLike, TextTargetId, HasBlockIdentity;
    forall m | m in ms && IsToolBlock(m) ensures NotEmptyBase(d)(m) {
      ToolIds(m.metadata.toolUseId.value);
    }
  }

  /** A message fit to stand outside the table. */
  ghost predicate Plain(m: ChatMessage, t: Table) {
    Good(m) && !IsToolBlock(m) && Backed(m, t)
  }

  lemma MemberPlain(ms: seq<ChatMessage>, i: nat)
    requires Sound(ms) && i < |ms| && !IsToolBlock(ms[i])
    ensures Plain(ms[i], Blocks(ms))
  {
    hide Good, Backed, OneEach, Blocks;
    assert ms[i] in ms;
  }

  lemma PlainInPlace(ms: seq<ChatMessage>, i: int, m: ChatMessage)
    requires Sound(ms) && i < |ms| && Plain(m, Blocks(ms)) && (i >= 0 ==> !IsToolBlock(ms[i]))
    ensures Keeps(ms, Upsert(ms, i, m))
  {
    hide Sound, Good, Blocks, Upsert;
    UpsertPlain(ms, i, m);
  }

  lemma TextUpdatedPlain(m: ChatMessage, d: TextDelta, t: Table)
    requires Plain(m, t) && !ToolLike(TextTargetId(d))
    ensures Plain(TextUpdated(m, d), t)
  {
    hide TextTargetId, ToolLike, HasBlockIdentity, Truthy, ContentDelta.AppendDelta, ContentDelta.FirstContent;
  }

  predicate BareMetadata(meta: Metadata) {
    meta.toolUseId == None && meta.kind == None && meta.markers == []
  }

  lemma BarePlain(m: ChatMessage, t: Table)
    requires BareMetadata(m.metadata) && !ToolLike(m.id)
    ensures Plain(m, t)
  {
    hide ToolLike, IdMatchesKind;
  }

  lemma TextBare(d: TextDelta)
    ensures BareMetadata(TextCreated(d).metadata) && TextCreated(d).id == TextTargetId(d)
  {
    hide TextTargetId, HasBlockIdentity, Truthy;
  }

  lemma CompletionBare(c: Completion)
    ensures BareMetadata(CompletionCreated(c).metadata) && CompletionCreated(c).id == c.messageId
  {
  }

  lemma TextKeeps(ms: seq<ChatMessage>, d: TextDelta)
    requires Sound(ms) && TextSpares(ms, d)
    ensures Keeps(ms, AppendTextDelta(ms, d))
  {
    hide Sound, Plain, Blocks, TextUpdated, TextCreated, TextSource, TargetIndex, TextTargetId, Upsert, ToolLike, BaseIsNoBlock;
    var source := TextSource(ms, d);
    SourceKeeps(ms, d);
    SoundIsGood(source);
    TextTargetIsPlain(source, TextTargetId(d), d.sessionId, d.taskId, !HasBlockIdentity(d));
    var i := TargetIndex(source, TextTargetId(d), d.sessionId, d.taskId, !HasBlockIdentity(d));
    if i >= 0 {
      MemberPlain(source, i);
      TextUpdatedPlain(source[i], d, Blocks(source));
      PlainInPlace(source, i, TextUpdated(source[i], d));
    } else {
      TextBare(d);
      BarePlain(TextCreated(d), Blocks(source));
      PlainInPlace(source, i, TextCreated(d));
    }
  }

  lemma TextWritten(m: ChatMessage, d: TextDelta)
    ensures TextUpdated(m, d).id == TextTargetId(d) == TextCreated(d).id
    ensures !IsToolBlock(TextUpdated(m, d)) && !IsToolBlock(TextCreated(d))
  {
    hide TextTargetId, HasBlockIdentity, Truthy, ContentDelta.AppendDelta, ContentDelta.FirstContent;
  }

  /** Text under the id of a tool block is none. */
  lemma PlainUnderToolId(ms: seq<ChatMessage>, m: ChatMessage)
    requires m in ms && ToolLike(m.id) && !IsToolBlock(m)
    ensures !Sound(ms)
  {
    hide ToolLike, OneEach, AllBacked;
  }

  lemma BaseBlockIsGone(ms: seq<ChatMessage>, d: TextDelta, i: nat)
    requires Sound(ms) && i < |ms| && SlotOf(ms[i]).Slot? && HasBlockIdentity(d) && Trim(d.messageId) != []
    requires !NotEmptyBase(d)(ms[i])
    ensures !Keeps(ms, AppendTextDelta(ms, d))
  {
    hide Sound, Keeps, HasBlockIdentity, NotEmptyBase, Filter, TargetIndex, TextTargetId, TextUpdated, TextCreated, Blocks;
    var source, after := TextSource(ms, d), AppendTextDelta(ms, d);
    FilterMembers(NotEmptyBase(d), ms);
    var t := TargetIndex(source, TextTargetId(d), d.sessionId, d.taskId, !HasBlockIdentity(d));
    var written := if t >= 0 then TextUpdated(source[t], d) else TextCreated(d);
    TextWritten(if t >= 0 then source[t] else ms[i], d);
    forall n | n in after && SlotOf(n).Slot? ensures SlotElsewhere(ms, i, SlotOf(n)) {
      assert n in source;
      var j :| 0 <= j < |ms| && ms[j] == n;
    }
    BlockGone(ms, after, i);
  }

  /** A text delta leaves the table alone exactly when it neither takes the id nor drops the message of a tool block. */
  lemma {:induction false} TextKeepsIff(ms: seq<ChatMessage>, d: TextDelta)
    requires Sound(ms)
    ensures Keeps(ms, AppendTextDelta(ms, d)) <==> TextSpares(ms, d)
  {
    hide Sound, Keeps, HasBlockIdentity, NotEmptyBase, TargetIndex, TextTargetId, TextUpdated, TextCreated, TextSource, ToolLike;
    if TextSpares(ms, d) {
      TextKeeps(ms, d);
    } else if ToolLike(TextTargetId(d)) {
      var source := TextSource(ms, d);
      var t := TargetIndex(source, TextTargetId(d), d.sessionId, d.taskId, !HasBlockIdentity(d));
      var written := if t >= 0 then TextUpdated(source[t], d) else TextCreated(d);
      TextWritten(if t >= 0 then source[t] else written, d);
      assert AppendTextDelta(ms, d)[if t >= 0 then t else |source|] == written;
      PlainUnderToolId(AppendTextDelta(ms, d), written);
      assert !Keeps(ms, AppendTextDelta(ms, d)) by { NotSoundNotKept(ms, AppendTextDelta(ms, d)); }
    } else {
      var m :| m in ms && IsToolBlock(m) && !NotEmptyBase(d)(m);
      var i :| 0 <= i < |ms| && ms[i] == m;
      SoundSlot(ms, i);
      BaseBlockIsGone(ms, d, i);
    }
  }

  lemma NotSoundNotKept(ms: seq<ChatMessage>, after: seq<ChatMessage>)
    ensures Keeps(ms, after) ==> Sound(after)
  {
    hide Sound, Blocks;
  }

  lemma CompletedPlain(resolve: Resolver, m: ChatMessage, c: Completion, t: Table)
    requires Plain(m, t) && !ToolLike(c.messageId)
    ensures Plain(CompletedText(resolve, m, c), t)
  {
    hide ToolLike;
  }

  /** A completion settles blocks of its message, changes nothing, or writes under an id that is no tool block's. */
  predicate CompletionSpares(ms: seq<ChatMessage>, c: Completion) {
    || FindIndex(CompletesBlockOf(c), ms) >= 0
    || (TargetIndex(ms, c.messageId, c.sessionId, c.taskId, true) < 0 && Trim(c.content) == "")
    || !ToolLike(c.messageId)
  }

  lemma CompletionKeeps(resolve: Resolver, ms: seq<ChatMessage>, c: Completion)
    requires Sound(ms) && CompletionSpares(ms, c)
    ensures Keeps(ms, CompleteMessage(resolve, ms, c))
  {
    hide Sound, Plain, Blocks, CompletedText, TargetIndex, ToolLike, Same, SettleBlock, Trim, FindIndex, CompletesBlockOf;
    var i := TargetIndex(ms, c.messageId, c.sessionId, c.taskId, true);
    if FindIndex(CompletesBlockOf(c), ms) >= 0 {
      SettlersAreSame(c);
      MapKeeps(SettleBlock(c), ms);
    } else if i >= 0 {
      SoundIsGood(ms);
      TextTargetIsPlain(ms, c.messageId, c.sessionId, c.taskId, true);
      MemberPlain(ms, i);
      CompletedPlain(resolve, ms[i], c, Blocks(ms));
      PlainInPlace(ms, i, CompletedText(resolve, ms[i], c));
    } else if Trim(c.content) != "" {
      CompletionBare(c);
      BarePlain(CompletionCreated(c), Blocks(ms));
      PlainInPlace(ms, i, CompletionCreated(c));
    }
  }

  lemma CompletionWritten(resolve: Resolver, m: ChatMessage, c: Completion)
    ensures CompletedText(resolve, m, c).id == c.messageId == CompletionCreated(c).id
    ensures !IsToolBlock(CompletedText(resolve, m, c)) && !IsToolBlock(CompletionCreated(c))
  {
  }

  /** A message completion leaves the table alone in exactly these cases. */
  lemma {:induction false} CompletionKeepsIff(resolve: Resolver, ms: seq<ChatMessage>, c: Completion)
    requires Sound(ms)
    ensures Keeps(ms, CompleteMessage(resolve, ms, c)) <==> CompletionSpares(ms, c)
  {
    hide Sound, Blocks, CompletedText, CompletionCreated, TargetIndex, ToolLike, Trim, FindIndex, CompletesBlockOf;
    if CompletionSpares(ms, c) {
      CompletionKeeps(resolve, ms, c);
    } else {
      var i, after := TargetIndex(ms, c.messageId, c.sessionId, c.taskId, true), CompleteMessage(resolve, ms, c);
      var written := after[if i >= 0 then i else |ms|];
      CompletionWritten(resolve, if i >= 0 then ms[i] else written, c);
      PlainUnderToolId(after, written);
    }
  }

  /** The older protocol falls back to the same after it settled the task. */
  predicate CompatSpares(ms: seq<ChatMessage>, c: Completion) {
    FindIndex(CompletesBlockOf(c), ms) >= 0 || CompletionSpares(Map(SettleTask(c), ms), c)
  }

  lemma {:induction false} CompatKeepsIff(resolve: Resolver, ms: seq<ChatMessage>, c: Completion)
    requires Sound(ms)
    ensures Keeps(ms, CompleteChatCompat(resolve, ms, c)) <==> CompatSpares(ms, c)
  {
    hide Sound, Blocks, CompleteMessage, CompletesBlockOf, SettleBlock, SettleTask, Same, FindIndex, Trim;
    SettlersAreSame(c);
    MapKeeps(SettleBlock(c), ms);
    MapKeeps(SettleTask(c), ms);
    CompletionKeepsIff(resolve, Map(SettleTask(c), ms), c);
  }

  // ---- Thinking, permissions and special events --------------------------------------------

  lemma ThinkingIdsPlain(ms: seq<ChatMessage>, u: ThinkingUpdate)
    ensures !ToolLike(NewThinkingId(ms, u)) && !("assistant_pending_" <= NewThinkingId(ms, u))
  {
    var id := NewThinkingId(ms, u);
    assert id[..|"assistant_thinking:"|] == "assistant_thinking:";
    assert id[0] == 'a' && id[10] == 't';
    assert "assistant_pending_"[10] == 'p';
  }

  lemma ThinkingKeeps(ms: seq<ChatMessage>, u: ThinkingUpdate)
    requires Sound(ms)
    ensures Keeps(ms, UpdateThinking(ms, u))
  {
    var i := ThinkingIndex(ms, u);
    ThinkingIdsPlain(ms, u);
    assert i >= 0 ==> ms[i] in ms;
    UpsertPlain(ms, i, if i >= 0 then ContinuedThinking(ms[i], u) else NewThinking(NewThinkingId(ms, u), u));
  }

  /** The message found under an id that names no tool block is none. */
  lemma FoundIsPlain(ms: seq<ChatMessage>, id: string)
    requires AllGood(ms) && !ToolLike(id)
    ensures forall m | m in ms && m.id == id :: !IsToolBlock(m)
  {
    forall m | m in ms && IsToolBlock(m) ensures m.id != id {
      ToolIds(m.metadata.toolUseId.value);
    }
  }

  lemma PermissionIdPlain(requestId: string)
    ensures !ToolLike(PermissionId(requestId)) && !("assistant_pending_" <= PermissionId(requestId))
  {
    assert PermissionId(requestId)[0] == 'p';
  }

  lemma RequestKeeps(ms: seq<ChatMessage>, p: Permission)
    requires Sound(ms)
    ensures Keeps(ms, RequestPermission(ms, p))
  {
    var i := FindIndex(HasId(PermissionId(p.requestId)), ms);
    PermissionIdPlain(p.requestId);
    FoundIsPlain(ms, PermissionId(p.requestId));
    assert i >= 0 ==> ms[i] in ms;
    UpsertPlain(ms, i, PermissionMessage(p, if i >= 0 then ms[i].createdAt else p.now, None));
  }

  /** The call an event names, if it names one, already carries the markers of the message it is written to. */
  predicate MarkersFit(m: ChatMessage, toolUseId: Option<string>, t: Table) {
    toolUseId.Some? ==> forall k | k in m.metadata.markers :: toolUseId.value in t && k in t[toolUseId.value].markers
  }

  /** A message that is no block over one that is none, or behind all, keeps the invariant exactly when it fits in. */
  lemma {:induction false} UpsertPlainIff(ms: seq<ChatMessage>, i: int, m: ChatMessage)
    requires Sound(ms) && i < |ms| && !IsToolBlock(m) && (i >= 0 ==> !IsToolBlock(ms[i]))
    ensures Keeps(ms, Upsert(ms, i, m)) <==> Good(m) && Backed(m, Blocks(ms))
  {
    hide Good, Backed, Blocks, OneEach;
    if Good(m) && Backed(m, Blocks(ms)) {
      UpsertPlain(ms, i, m);
    } else {
      assert Upsert(ms, i, m)[if i >= 0 then i else |ms|] == m;
    }
  }

  /** The message of a request is no placeholder, and the call the answer names carries its markers. */
  predicate AnswerFits(ms: seq<ChatMessage>, p: Permission) {
    var i := FindIndex(HasId(PermissionId(p.requestId)), ms);
    i >= 0 ==> !ms[i].placeholder && MarkersFit(ms[i], p.toolUseId, Blocks(ms))
  }

  lemma ResolvedFits(m: ChatMessage, p: Permission, t: Table)
    requires Good(m) && Backed(m, t) && m.id == PermissionId(p.requestId)
    ensures var n := PermissionResolved(m, p);
            !IsToolBlock(n) && (Good(n) && Backed(n, t) <==> !m.placeholder && MarkersFit(m, p.toolUseId, t))
  {
    PermissionIdPlain(p.requestId);
  }

  lemma CreatedPermissionFits(p: Permission, status: Option<MessageStatus>, t: Table)
    ensures var n := PermissionMessage(p, p.now, status); !IsToolBlock(n) && Good(n) && Backed(n, t)
  {
    PermissionIdPlain(p.requestId);
  }

  /** A permission answer leaves the table alone exactly when it fits. */
  lemma {:induction false} ResolveKeepsIff(ms: seq<ChatMessage>, p: Permission)
    requires Sound(ms)
    ensures Keeps(ms, ResolvePermission(ms, p)) <==> AnswerFits(ms, p)
  {
    hide Good, Backed, Blocks, OneEach, PermissionResolved, PermissionMessage, PermissionId, MarkersFit, IsToolBlock;
    var i := FindIndex(HasId(PermissionId(p.requestId)), ms);
    PermissionIdPlain(p.requestId);
    FoundIsPlain(ms, PermissionId(p.requestId));
    if i >= 0 {
      assert ms[i] in ms;
      ResolvedFits(ms[i], p, Blocks(ms));
      UpsertPlainIff(ms, i, PermissionResolved(ms[i], p));
    } else {
      CreatedPermissionFits(p, DecisionStatus(p.rejected), Blocks(ms));
      UpsertPlainIff(ms, i, PermissionMessage(p, p.now, DecisionStatus(p.rejected)));
    }
  }

  lemma SpecialIdPlain(s: SpecialEvent)
    ensures !ToolLike(SpecialId(s))
  {
    assert SpecialId(s)[0] == SpecialName(s.kind)[0] != 't';
  }

  /** A repeated event of one question or approval names no call that lacks the markers of its message. */
  predicate SpecialFits(ms: seq<ChatMessage>, s: SpecialEvent) {
    var i := FindIndex(HasId(SpecialId(s)), ms);
    i >= 0 && StableKey(s) != "" ==> MarkersFit(ms[i], s.toolUseId, Blocks(ms))
  }

  lemma SpecialMessageFits(s: SpecialEvent, previous: Option<ChatMessage>, t: Table)
    requires previous.Some? ==> Good(previous.value) && Backed(previous.value, t)
    ensures var n := SpecialMessage(s, previous);
            && !IsToolBlock(n)
            && (Good(n) && Backed(n, t)
                <==> (previous.Some? && StableKey(s) != "" ==> MarkersFit(previous.value, s.toolUseId, t)))
  {
    hide StableKey, SpecialId, ToolLike;
    SpecialIdPlain(s);
  }

  /** A special event leaves the table alone exactly when it fits. */
  lemma {:induction false} SpecialKeepsIff(ms: seq<ChatMessage>, s: SpecialEvent)
    requires Sound(ms)
    ensures Keeps(ms, AppendSpecial(ms, s)) <==> SpecialFits(ms, s)
  {
    hide Good, Backed, Blocks, OneEach, SpecialMessage, SpecialId, StableKey, MarkersFit, IsToolBlock;
    var i := FindIndex(HasId(SpecialId(s)), ms);
    SpecialIdPlain(s);
    FoundIsPlain(ms, SpecialId(s));
    if i >= 0 {
      assert ms[i] in ms;
    }
    var previous := if i >= 0 then Some(ms[i]) else None;
    SpecialMessageFits(s, previous, Blocks(ms));
    UpsertPlainIff(ms, i, SpecialMessage(s, previous));
  }

  // ---- Replay markers --------------------------------------------------------------------------

  /** A marker is found on a call's messages exactly when the call's block carries it. */
  lemma HasMarkerIff(ms: seq<ChatMessage>, x: string, k: string)
    requires Sound(ms)
    ensures HasMarker(ms, x, k) <==> x in Blocks(ms) && k in Blocks(ms)[x].markers
  {
    var i := FindIndex(Marked(x, k), ms);
    if i >= 0 {
      assert ms[i] in ms && Backed(ms[i], Blocks(ms));
    } else if x in Blocks(ms) {
      var j := SlotOfEntry(Slots(ms), x);
      assert !Marked(x, k)(ms[j]);
    }
  }

  function AddMarker(b: Block, k: string): Block {
    if k in b.markers then b else b.(markers := b.markers + [k])
  }

  lemma MarkSlot(m: ChatMessage, x: string, k: string)
    ensures SlotOf(WithMarker(x, k)(m)) == if IsBlockOf(m, x) then Slot(x, AddMarker(BlockFrom(m), k)) else SlotOf(m)
  {
  }

  lemma {:induction false} SlotOfBlock(ms: seq<ChatMessage>, x: string, i: nat)
    requires i < |ms| && IsBlockOf(ms[i], x)
    ensures Slots(ms)[i].Slot? && Slots(ms)[i].toolUseId == x
  {
    hide BlockFrom;
  }

  lemma {:induction false} OnlyBlock(ms: seq<ChatMessage>, x: string, i: nat, j: nat)
    requires OneEach(Slots(ms)) && i < |ms| && j < |ms| && IsBlockOf(ms[i], x) && IsBlockOf(ms[j], x)
    ensures i == j
  {
    hide Slots, SlotOf, IsBlockOf;
    SlotOfBlock(ms, x, i);
    SlotOfBlock(ms, x, j);
  }

  lemma {:induction false} MarkedSlotAt(ms: seq<ChatMessage>, x: string, k: string, i: nat, j: nat)
    requires OneEach(Slots(ms)) && i < |ms| && j < |ms| && IsBlockOf(ms[i], x)
    ensures Slots(MarkTool(ms, x, k))[j] == if j == i then Slot(x, AddMarker(BlockFrom(ms[i]), k)) else Slots(ms)[j]
  {
    hide WithMarker, AddMarker, SlotOf, BlockFrom, Slots, OneEach, IsBlockOf;
    MarkSlot(ms[j], x, k);
    if IsBlockOf(ms[j], x) {
      OnlyBlock(ms, x, i, j);
    }
  }

  lemma Pointwise(a: seq<Slot>, b: seq<Slot>, i: nat, s: Slot)
    requires i < |a| == |b| && forall j: nat | j < |a| :: a[j] == if j == i then s else b[j]
    ensures a == b[i := s]
  {
  }

  lemma {:induction false} MarkSlots(ms: seq<ChatMessage>, x: string, k: string, i: nat)
    requires OneEach(Slots(ms)) && i < |ms| && IsBlockOf(ms[i], x)
    ensures Slots(MarkTool(ms, x, k)) == Slots(ms)[i := Slot(x, AddMarker(BlockFrom(ms[i]), k))]
  {
    hide AddMarker, BlockFrom, OneEach, IsBlockOf, WithMarker, SlotOf, Slots;
    var after, s := MarkTool(ms, x, k), Slot(x, AddMarker(BlockFrom(ms[i]), k));
    forall j: nat | j < |ms| ensures Slots(after)[j] == if j == i then s else Slots(ms)[j] {
      MarkedSlotAt(ms, x, k, i, j);
    }
    Pointwise(Slots(after), Slots(ms), i, s);
  }

  lemma MarkedFits(m: ChatMessage, x: string, k: string, t: Table, u: Table)
    requires Good(m) && Backed(m, t) && MarkersKept(t, u) && x in u && k in u[x].markers
    ensures Good(WithMarker(x, k)(m)) && Backed(WithMarker(x, k)(m), u)
  {
    hide ToolLike, ToolUseId, ToolActivityId;
  }

  lemma MarkBacked(ms: seq<ChatMessage>, x: string, k: string, t: Table, u: Table)
    requires AllGood(ms) && AllBacked(ms, t) && MarkersKept(t, u) && x in u && k in u[x].markers
    ensures AllGood(MarkTool(ms, x, k)) && AllBacked(MarkTool(ms, x, k), u)
  {
    hide Good, Backed, WithMarker, MarkersKept;
    var after := MarkTool(ms, x, k);
    forall n | n in after ensures Good(n) && Backed(n, u) {
      var i :| 0 <= i < |after| && after[i] == n;
      assert ms[i] in ms;
      MarkedFits(ms[i], x, k, t, u);
    }
  }

  lemma MarkGrows(t: Table, x: string, k: string)
    requires x in t
    ensures var u := t[x := AddMarker(t[x], k)]; MarkersKept(t, u) && k in u[x].markers
  {
  }

  lemma MarkKeeps(ms: seq<ChatMessage>, x: string, k: string)
    requires Sound(ms) && x in Blocks(ms)
    ensures Sound(MarkTool(ms, x, k)) && Blocks(MarkTool(ms, x, k)) == Blocks(ms)[x := AddMarker(Blocks(ms)[x], k)]
  {
    hide OneEach, AllGood, AllBacked, AddMarker, MarkTool, MarkersKept, Slots, TableOf;
    var i := SlotOfEntry(Slots(ms), x);
    BlockAt(ms, x, i);
    var s := Slot(x, AddMarker(BlockFrom(ms[i]), k));
    var u := Blocks(ms)[x := AddMarker(Blocks(ms)[x], k)];
    MarkSlots(ms, x, k, i);
    UpdateTable(Slots(ms), i, s);
    assert Blocks(ms) + Entry(s) == u;
    MarkGrows(Blocks(ms), x, k);
    MarkBacked(ms, x, k, Blocks(ms), u);
  }

  lemma {:induction false} BlockAt(ms: seq<ChatMessage>, x: string, i: nat)
    requires i < |ms| && Slots(ms)[i].Slot? && Slots(ms)[i].toolUseId == x
    ensures IsBlockOf(ms[i], x) && BlockFrom(ms[i]) == Slots(ms)[i].block
  {
  }
}
