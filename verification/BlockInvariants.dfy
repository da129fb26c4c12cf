/** What every transcript update keeps of the tool blocks. */
module BlockInvariants {
  import opened Seqs
  import opened ChatMessages
  import opened MessageUpdates
  import opened ToolBlocks
  import opened BlockTable

  // ---- Well-formed messages ----------------------------------------------------------

  predicate ToolLike(id: string) {
    "tool_use:" <= id || "tool_activity:" <= id
  }

  lemma ToolIds(toolUseId: string)
    ensures ToolLike(ToolUseId(toolUseId)) && ToolLike(ToolActivityId(toolUseId)) && !ToolLike(ToolResultId(toolUseId))
  {
    assert ToolResultId(toolUseId)[5] == 'r';
    assert "tool_use:"[5] == 'u' && "tool_activity:"[5] == 'a';
  }

  lemma ToolIdsInjective(a: string, b: string)
    ensures ToolUseId(a) == ToolUseId(b) ==> a == b
    ensures ToolActivityId(a) == ToolActivityId(b) ==> a == b
    ensures ToolUseId(a) != ToolActivityId(b)
  {
    assert ToolUseId(a)[|"tool_use:"|..] == a && ToolUseId(b)[|"tool_use:"|..] == b;
    assert ToolActivityId(a)[|"tool_activity:"|..] == a && ToolActivityId(b)[|"tool_activity:"|..] == b;
    assert ToolUseId(a)[5] == 'u' && ToolActivityId(b)[5] == 'a';
  }

  /** The id of a tool block matches its kind. */
  predicate IdMatchesKind(m: ChatMessage) {
    && m.metadata.toolUseId.Some?
    && m.id == if m.metadata.kind == Some(ToolActivity) then ToolActivityId(m.metadata.toolUseId.value)
               else ToolUseId(m.metadata.toolUseId.value)
  }

  /** Blocks no text may be written into. */
  predicate Protected(m: ChatMessage) {
    m.metadata.kind in {Some(ToolUse), Some(ToolActivity), Some(ToolResult), Some(AssistantThinking), Some(PermissionRequest)}
  }

  predicate Good(m: ChatMessage) {
    && (IsToolBlock(m) ==> IdMatchesKind(m))
    && (ToolLike(m.id) ==> IsToolBlock(m))
    && (Protected(m) ==> !m.placeholder && !("assistant_pending_" <= m.id))
    && (m.metadata.toolUseId.None? ==> m.metadata.markers == [])
  }

  function BlockFrom(m: ChatMessage): Block {
    Block(m.metadata.kind == Some(ToolActivity), OutputOf(m), m.metadata.markers)
  }

  function SlotOf(m: ChatMessage): Slot {
    if IsToolBlock(m) && m.metadata.toolUseId.Some? then Slot(m.metadata.toolUseId.value, BlockFrom(m)) else NoSlot
  }

  function Slots(ms: seq<ChatMessage>): (r: seq<Slot>)
    ensures |r| == |ms| && forall i | 0 <= i < |ms| :: r[i] == SlotOf(ms[i])
  {
    if ms == [] then [] else Slots(ms[..|ms| - 1]) + [SlotOf(ms[|ms| - 1])]
  }

  /** The tool blocks of a transcript by tool use id. */
  function Blocks(ms: seq<ChatMessage>): Table {
    TableOf(Slots(ms))
  }

  /** Markers found on any message of a tool call are on its block. */
  ghost predicate Backed(m: ChatMessage, t: Table) {
    m.metadata.toolUseId.Some? ==>
      forall k | k in m.metadata.markers :: m.metadata.toolUseId.value in t && k in t[m.metadata.toolUseId.value].markers
  }

  ghost predicate AllGood(ms: seq<ChatMessage>) {
    forall m | m in ms :: Good(m)
  }

  ghost predicate AllBacked(ms: seq<ChatMessage>, t: Table) {
    forall m | m in ms :: Backed(m, t)
  }

  /**
   The invariant: messages are well-formed, no tool call has two blocks, and a call's block carries
   every replay marker that any of the call's messages carries.
   */
  ghost predicate Sound(ms: seq<ChatMessage>) {
    AllGood(ms) && OneEach(Slots(ms)) && AllBacked(ms, Blocks(ms))
  }

  // ---- Writing one message --------------------------------------------------------------

  /** No block of t loses a marker. */
  ghost predicate MarkersKept(t: Table, u: Table) {
    forall x | x in t :: x in u && forall k | k in t[x].markers :: k in u[x].markers
  }

  lemma BackedGrows(ms: seq<ChatMessage>, t: Table, u: Table)
    requires AllBacked(ms, t) && MarkersKept(t, u)
    ensures AllBacked(ms, u)
  {
  }

  ghost predicate MayStandAt(ms: seq<ChatMessage>, i: int, m: ChatMessage)
    requires i < |ms|
  {
    if i >= 0 then Fits(Slots(ms), i, SlotOf(m)) else SlotOf(m).Slot? ==> SlotOf(m).toolUseId !in Blocks(ms)
  }

  lemma SlotsUpdate(ms: seq<ChatMessage>, i: nat, m: ChatMessage)
    requires i < |ms|
    ensures Slots(ms[i := m]) == Slots(ms)[i := SlotOf(m)]
  {
    hide SlotOf;
  }

  lemma {:induction false} SlotsAppend(ms: seq<ChatMessage>, m: ChatMessage)
    ensures Slots(ms + [m]) == Slots(ms) + [SlotOf(m)]
  {
    hide SlotOf;
  }

  lemma {:induction false} UpsertSlots(ms: seq<ChatMessage>, i: int, m: ChatMessage)
    requires OneEach(Slots(ms)) && i < |ms| && MayStandAt(ms, i, m)
    ensures OneEach(Slots(Upsert(ms, i, m))) && Blocks(Upsert(ms, i, m)) == Blocks(ms) + Entry(SlotOf(m))
  {
    hide SlotOf, Slots, TableOf, OneEach;
    if i >= 0 {
      SlotsUpdate(ms, i, m);
      UpdateTable(Slots(ms), i, SlotOf(m));
    } else {
      SlotsAppend(ms, m);
      AppendTable(Slots(ms), SlotOf(m));
    }
  }

  lemma UpsertSound(ms: seq<ChatMessage>, i: int, m: ChatMessage)
    requires Sound(ms) && i < |ms| && Good(m) && MayStandAt(ms, i, m)
    requires MarkersKept(Blocks(ms), Blocks(ms) + Entry(SlotOf(m))) && Backed(m, Blocks(ms) + Entry(SlotOf(m)))
    ensures Sound(Upsert(ms, i, m)) && Blocks(Upsert(ms, i, m)) == Blocks(ms) + Entry(SlotOf(m))
  {
    var after, t := Upsert(ms, i, m), Blocks(ms) + Entry(SlotOf(m));
    UpsertSlots(ms, i, m);
    BackedGrows(ms, Blocks(ms), t);
    assert forall n | n in after :: n == m || n in ms;
  }

  /** A message that is no block, in place of one that is none. */
  lemma UpsertPlain(ms: seq<ChatMessage>, i: int, m: ChatMessage)
    requires Sound(ms) && i < |ms| && Good(m) && !IsToolBlock(m) && (i >= 0 ==> !IsToolBlock(ms[i]))
    requires Backed(m, Blocks(ms))
    ensures Sound(Upsert(ms, i, m)) && Blocks(Upsert(ms, i, m)) == Blocks(ms)
  {
    assert Blocks(ms) + Entry(SlotOf(m)) == Blocks(ms);
    UpsertSound(ms, i, m);
  }

  /** The block of a call in place of itself, or a first block. */
  lemma UpsertBlock(ms: seq<ChatMessage>, i: int, m: ChatMessage, x: string)
    requires Sound(ms) && i < |ms| && Good(m) && IsBlockOf(m, x)
    requires i >= 0 ==> IsBlockOf(ms[i], x) && (forall k | k in ms[i].metadata.markers :: k in m.metadata.markers)
    requires i < 0 ==> x !in Blocks(ms)
    ensures Sound(Upsert(ms, i, m)) && Blocks(Upsert(ms, i, m)) == Blocks(ms)[x := BlockFrom(m)]
  {
    if i >= 0 {
      EntryOfSlot(Slots(ms), i);
    }
    assert Blocks(ms) + Entry(SlotOf(m)) == Blocks(ms)[x := BlockFrom(m)];
    UpsertSound(ms, i, m);
  }

  // ---- Dropping and rewriting messages that are no blocks ---------------------------------

  /** m is rewritten to n without touching what the invariant speaks of. */
  predicate Same(m: ChatMessage, n: ChatMessage) {
    && SlotOf(n) == SlotOf(m) && n.metadata.toolUseId == m.metadata.toolUseId && n.metadata.markers == m.metadata.markers
    && n.content == m.content && n.metadata.inputText == m.metadata.inputText
    && (Good(m) ==> Good(n))
  }

  /** after comes from ms by rewriting some messages and dropping some that are no blocks. */
  ghost predicate Thins(ms: seq<ChatMessage>, after: seq<ChatMessage>) {
    if ms == [] then after == []
    else
      var init, last := ms[..|ms| - 1], ms[|ms| - 1];
      || (after != [] && Same(last, after[|after| - 1]) && Thins(init, after[..|after| - 1]))
      || (SlotOf(last).NoSlot? && Thins(init, after))
  }

  ghost predicate HasSource(ms: seq<ChatMessage>, n: ChatMessage) {
    exists m :: m in ms && Same(m, n)
  }

  lemma {:induction false} ThinsMembers(ms: seq<ChatMessage>, after: seq<ChatMessage>)
    requires Thins(ms, after)
    ensures forall n | n in after :: HasSource(ms, n)
  {
    if ms != [] {
      var init, last := ms[..|ms| - 1], ms[|ms| - 1];
      assert ms == init + [last];
      if after != [] && Same(last, after[|after| - 1]) && Thins(init, after[..|after| - 1]) {
        ThinsMembers(init, after[..|after| - 1]);
        assert after == after[..|after| - 1] + [after[|after| - 1]];
        assert last in ms;
      } else {
        ThinsMembers(init, after);
      }
      forall n | n in after && HasSource(init, n) ensures HasSource(ms, n) {
        var m :| m in init && Same(m, n);
        assert m in ms;
      }
    }
  }

  lemma {:induction false} ThinsSlots(ms: seq<ChatMessage>, after: seq<ChatMessage>)
    requires Thins(ms, after) && OneEach(Slots(ms))
    ensures OneEach(Slots(after)) && Blocks(after) == Blocks(ms)
  {
    if ms != [] {
      var n := |ms| - 1;
      var init, last := ms[..n], ms[n];
      assert Slots(ms)[..n] == Slots(init);
      assert OneEach(Slots(init));
      if after != [] && Same(last, after[|after| - 1]) && Thins(init, after[..|after| - 1]) {
        var rest := after[..|after| - 1];
        ThinsSlots(init, rest);
        assert Slots(after) == Slots(rest) + [SlotOf(last)] && Slots(ms) == Slots(init) + [SlotOf(last)];
        if SlotOf(last).Slot? {
          LastIsFresh(Slots(ms));
        }
        AppendTable(Slots(rest), SlotOf(last));
        AppendTable(Slots(init), SlotOf(last));
      } else {
        ThinsSlots(init, after);
        DropTable(Slots(ms));
      }
    }
  }

  lemma {:induction false} ThinsSound(ms: seq<ChatMessage>, after: seq<ChatMessage>)
    requires Sound(ms) && Thins(ms, after)
    ensures Sound(after) && Blocks(after) == Blocks(ms)
  {
    ThinsSlots(ms, after);
    ThinsMembers(ms, after);
    forall n | n in after ensures Good(n) && Backed(n, Blocks(after)) {
      var m :| m in ms && Same(m, n);
    }
  }

  lemma {:induction false} MapThins(f: ChatMessage -> ChatMessage, ms: seq<ChatMessage>, after: seq<ChatMessage>)
    requires |after| == |ms| && forall i | 0 <= i < |ms| :: after[i] == f(ms[i])
    requires forall m: ChatMessage :: Same(m, f(m))
    ensures Thins(ms, after)
  {
    if ms != [] {
      MapThins(f, ms[..|ms| - 1], after[..|ms| - 1]);
    }
  }

  lemma {:induction false} FilterThins(p: ChatMessage -> bool, ms: seq<ChatMessage>)
    requires forall m | m in ms && IsToolBlock(m) :: p(m)
    ensures Thins(ms, Filter(p, ms))
  {
    if ms != [] {
      var init, last := ms[..|ms| - 1], ms[|ms| - 1];
      assert ms == init + [last];
      FilterThins(p, init);
      FilterAppend(p, init, [last]);
      assert Filter(p, [last]) == if p(last) then [last] else [];
      if p(last) {
        assert Filter(p, ms)[..|Filter(p, ms)| - 1] == Filter(p, init);
        assert Same(last, last);
      } else {
        assert Filter(p, ms) == Filter(p, init);
      }
    }
  }

  lemma {:induction false} RemoveThinkingThins(ms: seq<ChatMessage>, sessionId: string, taskId: string, now: int)
    ensures Thins(ms, RemoveThinking(ms, sessionId, taskId, now))
  {
    if ms != [] {
      var init, last := ms[..|ms| - 1], ms[|ms| - 1];
      var after := RemoveThinking(ms, sessionId, taskId, now);
      var kept := AfterThinking(last, sessionId, taskId, now);
      RemoveThinkingThins(init, sessionId, taskId, now);
      if kept != [] {
        assert Same(last, kept[0]);
        assert after[..|after| - 1] == RemoveThinking(init, sessionId, taskId, now);
      } else {
        assert after == RemoveThinking(init, sessionId, taskId, now);
      }
    }
  }

  lemma {:induction false} WithoutIdThins(ms: seq<ChatMessage>, keep: int, id: string)
    requires forall m | m in ms && m.id == id :: !IsToolBlock(m)
    ensures Thins(ms, WithoutId(ms, keep, id))
  {
    if ms != [] {
      var init, last := ms[..|ms| - 1], ms[|ms| - 1];
      var after := WithoutId(ms, keep, id);
      assert ms == init + [last];
      WithoutIdThins(init, keep, id);
      if |init| == keep || last.id != id {
        assert after[..|after| - 1] == WithoutId(init, keep, id);
      } else {
        assert after == WithoutId(init, keep, id);
      }
    }
  }
}
