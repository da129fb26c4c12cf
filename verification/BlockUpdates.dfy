/** Each transcript update as a change of the table of tool blocks. */
module BlockUpdates {
  import opened Seqs
  import opened Text
  import ContentDelta
  import opened ChatMessages
  import opened MessageUpdates
  import opened ToolBlocks
  import opened BlockTable
  import opened BlockInvariants

  /** The record of a call, new when there is none. */
  function Get(t: Table, x: string): Block {
    if x in t then t[x] else NEW_BLOCK
  }

  /** A tool event makes sure the call has a block. */
  function Touch(t: Table, x: string): Table {
    t[x := Get(t, x)]
  }

  function PutOutput(t: Table, x: string, stream: Stream, delta: string): Table {
    t[x := Get(t, x).(output := AppendOutput(Get(t, x).output, stream, delta))]
  }

  function Finish(t: Table, x: string): Table {
    if x in t then t[x := t[x].(activity := true)] else t
  }

  // ---- Finding a call's block ---------------------------------------------------------

  lemma IdNamesBlock(m: ChatMessage, x: string)
    requires Good(m) && (m.id == ToolUseId(x) || m.id == ToolActivityId(x))
    ensures IsBlockOf(m, x)
    ensures m.metadata.kind == Some(ToolActivity) <==> m.id == ToolActivityId(x)
  {
    ToolIds(x);
    var y := m.metadata.toolUseId.value;
    ToolIdsInjective(x, y);
    ToolIdsInjective(y, x);
  }

  lemma BlockListed(ms: seq<ChatMessage>, x: string)
    requires Sound(ms)
    ensures x in Blocks(ms) <==> exists i :: 0 <= i < |ms| && IsBlockOf(ms[i], x)
    ensures forall i | 0 <= i < |ms| && IsBlockOf(ms[i], x) :: x in Blocks(ms) && Blocks(ms)[x] == BlockFrom(ms[i])
  {
    forall i | 0 <= i < |ms| && IsBlockOf(ms[i], x) ensures x in Blocks(ms) && Blocks(ms)[x] == BlockFrom(ms[i]) {
      EntryOfSlot(Slots(ms), i);
    }
    if x in Blocks(ms) {
      var i := SlotOfEntry(Slots(ms), x);
      assert IsBlockOf(ms[i], x);
    }
  }

  /** A search that only accepts blocks of x, and accepts them all, finds the block or shows there is none. */
  lemma {:induction false} FindsBlock(ms: seq<ChatMessage>, x: string, p: ChatMessage -> bool)
    requires Sound(ms)
    requires forall m | m in ms :: p(m) <==> IsBlockOf(m, x)
    ensures var i := FindIndex(p, ms);
            if i >= 0 then IsBlockOf(ms[i], x) && x in Blocks(ms) && Blocks(ms)[x] == BlockFrom(ms[i])
            else x !in Blocks(ms)
  {
    BlockListed(ms, x);
    forall j | 0 <= j < |ms| ensures p(ms[j]) <==> IsBlockOf(ms[j], x) {
      assert ms[j] in ms;
    }
  }

  lemma NewBlockGood(call: ToolCall, content: string, status: MessageStatus, meta: Metadata)
    ensures Good(NewBlock(call, content, status, meta)) && IsBlockOf(NewBlock(call, content, status, meta), call.toolUseId)
  {
    ToolIds(call.toolUseId);
    assert ToolUseId(call.toolUseId)[0] == 't';
  }

  // ---- Tool events -----------------------------------------------------------------------

  lemma StartKeeps(ms: seq<ChatMessage>, call: ToolCall, input: Option<string>)
    requires Sound(ms)
    ensures Sound(StartTool(ms, call, input)) && Blocks(StartTool(ms, call, input)) == Touch(Blocks(ms), call.toolUseId)
  {
    var x := call.toolUseId;
    var i := FindIndex(StartTarget(x), ms);
    forall m | m in ms ensures StartTarget(x)(m) <==> IsBlockOf(m, x) {
      if m.id == ToolUseId(x) { IdNamesBlock(m, x); }
    }
    FindsBlock(ms, x, StartTarget(x));
    if i >= 0 {
      assert ms[i] in ms;
      UpsertBlock(ms, i, Started(ms[i], call, input), x);
    } else {
      var display := InputDisplay(call.presentation, NO_PRESENTATION);
      NewBlockGood(call, display, Streaming, StartMetadata(NO_METADATA, input, display));
      UpsertBlock(ms, i, StartedNew(call, input), x);
    }
  }

  lemma OutputKeeps(ms: seq<ChatMessage>, call: ToolCall, stream: Stream, delta: string)
    requires Sound(ms)
    ensures var after := AppendToolOutput(ms, call, stream, delta);
            Sound(after) && Blocks(after) == PutOutput(Blocks(ms), call.toolUseId, stream, delta)
  {
    var x := call.toolUseId;
    var i := FindIndex(OutputTarget(x), ms);
    forall m | m in ms ensures OutputTarget(x)(m) <==> IsBlockOf(m, x) {
      if m.id == ToolUseId(x) || m.id == ToolActivityId(x) { IdNamesBlock(m, x); }
    }
    FindsBlock(ms, x, OutputTarget(x));
    if i >= 0 {
      assert ms[i] in ms;
      UpsertBlock(ms, i, WithOutput(ms[i], call, stream, delta), x);
    } else {
      NewBlockGood(call, "", Streaming, NO_METADATA.(output := Some(AppendOutput(NO_OUTPUT, stream, delta))));
      UpsertBlock(ms, i, OutputNew(call, stream, delta), x);
    }
  }

  lemma CompleteKeeps(ms: seq<ChatMessage>, call: ToolCall, input: string)
    requires Sound(ms)
    ensures Sound(CompleteTool(ms, call, input)) && Blocks(CompleteTool(ms, call, input)) == Touch(Blocks(ms), call.toolUseId)
  {
    var x := call.toolUseId;
    var i := FindIndex(CompleteTarget(x), ms);
    forall m | m in ms ensures CompleteTarget(x)(m) <==> IsBlockOf(m, x) {
      if m.id == ToolUseId(x) { IdNamesBlock(m, x); }
      assert Good(m);
    }
    FindsBlock(ms, x, CompleteTarget(x));
    if i >= 0 {
      assert ms[i] in ms;
      UpsertBlock(ms, i, CompletedCall(ms[i], call, input), x);
    } else {
      var content := CompletedContent(call, NO_PRESENTATION, input);
      NewBlockGood(call, content, Completed, CompletedMetadata(NO_METADATA, content, input));
      UpsertBlock(ms, i, CompletedNew(call, input), x);
    }
  }

  /** The lookup by tool_use id misses exactly the blocks whose result is in. */
  lemma {:induction false} InputFinds(ms: seq<ChatMessage>, x: string)
    requires Sound(ms)
    ensures var i := FindIndex(HasId(ToolUseId(x)), ms);
            if i >= 0 then IsBlockOf(ms[i], x) && x in Blocks(ms) && Blocks(ms)[x] == BlockFrom(ms[i]) && !Blocks(ms)[x].activity
            else x in Blocks(ms) ==> Blocks(ms)[x].activity
  {
    var i := FindIndex(HasId(ToolUseId(x)), ms);
    ToolIdsInjective(x, x);
    BlockListed(ms, x);
    if i >= 0 {
      assert ms[i] in ms;
      IdNamesBlock(ms[i], x);
    } else if x in Blocks(ms) {
      var j :| 0 <= j < |ms| && IsBlockOf(ms[j], x);
      assert ms[j] in ms && Good(ms[j]) && !HasId(ToolUseId(x))(ms[j]);
    }
  }

  /** An input delta keeps to one block per call exactly when the call's result is not in yet. */
  lemma InputKeepsIff(ms: seq<ChatMessage>, call: ToolCall, delta: string)
    requires Sound(ms)
    ensures var after, x := AppendToolInput(ms, call, delta), call.toolUseId;
            var open := x in Blocks(ms) ==> !Blocks(ms)[x].activity;
            (Sound(after) <==> open) && (OneEach(Slots(after)) <==> open) && (open ==> Blocks(after) == Touch(Blocks(ms), x))
  {
    var x := call.toolUseId;
    var i := FindIndex(HasId(ToolUseId(x)), ms);
    InputFinds(ms, x);
    if i >= 0 {
      assert ms[i] in ms;
      ToolIds(x);
      ToolIdsInjective(x, x);
      UpsertBlock(ms, i, WithInput(ms[i], call, delta), x);
    } else {
      var display := InputDisplay(call.presentation, NO_PRESENTATION);
      NewBlockGood(call, display, Streaming, StartMetadata(NO_METADATA, Some(TrimStart(ContentDelta.AppendDelta("", delta))), display));
      if x in Blocks(ms) {
        SecondBlock(ms, InputNew(call, delta), x);
      } else {
        UpsertBlock(ms, i, InputNew(call, delta), x);
      }
    }
  }

  lemma {:induction false} SecondBlock(ms: seq<ChatMessage>, m: ChatMessage, x: string)
    requires Sound(ms) && x in Blocks(ms) && IsBlockOf(m, x)
    ensures !OneEach(Slots(ms + [m]))
  {
    var i := SlotOfEntry(Slots(ms), x);
    assert Slots(ms + [m])[i] == Slots(ms)[i] && Slots(ms + [m])[|ms|] == SlotOf(m);
  }

  lemma NoBlockHasResultId(ms: seq<ChatMessage>, x: string)
    requires AllGood(ms)
    ensures forall m | m in ms && m.id == ToolResultId(x) :: !IsToolBlock(m)
  {
    forall m | m in ms && IsToolBlock(m) ensures m.id != ToolResultId(x) {
      ToolIds(m.metadata.toolUseId.value);
      ToolIds(x);
    }
  }

  lemma {:induction false} FinishBlockKeeps(ms: seq<ChatMessage>, call: ToolCall, r: ResultInfo, block: nat)
    requires Sound(ms) && block < |ms| && IsBlockOf(ms[block], call.toolUseId)
    ensures var after := WithoutId(ms[block := WithResult(ms[block], call, r)], block, ToolResultId(call.toolUseId));
            Sound(after) && Blocks(after) == Finish(Blocks(ms), call.toolUseId)
  {
    var x, m := call.toolUseId, WithResult(ms[block], call, r);
    BlockListed(ms, x);
    ToolIds(x);
    assert ToolActivityId(x)[0] == 't';
    UpsertBlock(ms, block, m, x);
    var after := ms[block := m];
    NoBlockHasResultId(after, x);
    WithoutIdThins(after, block, ToolResultId(x));
    ThinsSound(after, WithoutId(after, block, ToolResultId(x)));
  }

  lemma FinishAloneKeeps(ms: seq<ChatMessage>, call: ToolCall, r: ResultInfo)
    requires Sound(ms)
    ensures var i := FindIndex(HasId(ToolResultId(call.toolUseId)), ms);
            var after := Upsert(ms, i, ResultMessage(call, r, if i >= 0 then Some(ms[i]) else None));
            Sound(after) && Blocks(after) == Blocks(ms)
  {
    var x := call.toolUseId;
    var i := FindIndex(HasId(ToolResultId(x)), ms);
    NoBlockHasResultId(ms, x);
    assert i >= 0 ==> ms[i] in ms;
    ToolIds(x);
    assert ToolResultId(x)[0] == 't';
    UpsertPlain(ms, i, ResultMessage(call, r, if i >= 0 then Some(ms[i]) else None));
  }

  lemma FinishKeeps(ms: seq<ChatMessage>, call: ToolCall, r: ResultInfo)
    requires Sound(ms)
    ensures Sound(FinishTool(ms, call, r)) && Blocks(FinishTool(ms, call, r)) == Finish(Blocks(ms), call.toolUseId)
  {
    hide Sound, WithResult, ResultMessage, WithoutId;
    var block := FindIndex(BlockOf(call.toolUseId), ms);
    FindsBlock(ms, call.toolUseId, BlockOf(call.toolUseId));
    if block >= 0 {
      FinishBlockKeeps(ms, call, r, block);
    } else {
      FinishAloneKeeps(ms, call, r);
    }
  }
}
