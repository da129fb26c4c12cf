/** What the block of a tool call reads and holds after each update, told by its fields. */
module ToolOutcomes {
  import opened Seqs
  import opened Text
  import opened ContentDelta
  import opened ChatMessages
  import opened MessageUpdates
  import opened ToolBlocks

  // ---- The texts a block may show -------------------------------------------------------

  /** t is the first of the texts that is not empty, or empty when all are. */
  predicate FirstSaid(t: string, texts: seq<string>) {
    || (t == "" && forall s | s in texts :: s == "")
    || (t != "" && exists k :: 0 <= k < |texts| && texts[k] == t && forall j | 0 <= j < k :: texts[j] == "")
  }

  lemma {:induction false} FirstTextIs(texts: seq<string>)
    ensures FirstSaid(FirstText(texts), texts)
  {
    if texts != [] {
      var rest := texts[1..];
      FirstTextIs(rest);
      if texts[0] != "" {
        assert texts[0] == FirstText(texts);
      } else if FirstText(rest) == "" {
        assert texts == [texts[0]] + rest;
      } else {
        var k :| 0 <= k < |rest| && rest[k] == FirstText(rest) && forall j | 0 <= j < k :: rest[j] == "";
        assert texts[k + 1] == FirstText(texts);
        forall j | 0 <= j < k + 1 ensures texts[j] == "" {
          assert j > 0 ==> texts[j] == rest[j - 1];
        }
      }
    }
  }

  /** A title: of each field the event's own value before the stored one, all trimmed. */
  lemma {:induction false} TitleIs(p: Presentation, current: Presentation)
    ensures FirstSaid(InputDisplay(p, current),
                      [TrimmedOr(p.displayTitle), TrimmedOr(current.displayTitle), TrimmedOr(p.inputSummary), TrimmedOr(current.inputSummary),
                       TrimmedOr(p.target), TrimmedOr(current.target), TrimmedOr(p.displayTarget), TrimmedOr(current.displayTarget)])
  {
    hide TrimmedOr, FirstSaid;
    FirstTextIs([TrimmedOr(p.displayTitle), TrimmedOr(current.displayTitle), TrimmedOr(p.inputSummary), TrimmedOr(current.inputSummary),
                 TrimmedOr(p.target), TrimmedOr(current.target), TrimmedOr(p.displayTarget), TrimmedOr(current.displayTarget)]);
  }

  /** The stored presentation is the event's, field by field, where it has one. */
  lemma OverlayIs(p: Presentation, current: Presentation)
    ensures var r := MergePresentation(p, current);
            && r.displayTitle == (if p.displayTitle.Some? then p.displayTitle else current.displayTitle)
            && r.displaySummary == (if p.displaySummary.Some? then p.displaySummary else current.displaySummary)
            && r.displayTarget == (if p.displayTarget.Some? then p.displayTarget else current.displayTarget)
            && r.target == (if p.target.Some? then p.target else current.target)
            && r.inputSummary == (if p.inputSummary.Some? then p.inputSummary else current.inputSummary)
  {
  }

  // ---- The block before and after ------------------------------------------------------------

  /** n is m but for what a tool update may write. */
  predicate SameMessage(m: ChatMessage, n: ChatMessage) {
    && n == m.(id := n.id, taskId := n.taskId, content := n.content, updatedAt := n.updatedAt, streaming := n.streaming,
               placeholder := n.placeholder, status := n.status, toolName := n.toolName, metadata := n.metadata)
    && n.metadata == m.metadata.(kind := n.metadata.kind, toolUseId := n.metadata.toolUseId, presentation := n.metadata.presentation,
                                 rawInputText := n.metadata.rawInputText, inputText := n.metadata.inputText, output := n.metadata.output)
  }

  /** What all updates of a block write: task, time, call and presentation. */
  predicate Stamped(m: ChatMessage, n: ChatMessage, call: ToolCall) {
    && SameMessage(m, n) && n.taskId == call.taskId && n.updatedAt == call.now && n.metadata.toolUseId == Some(call.toolUseId)
    && n.metadata.presentation == MergePresentation(call.presentation, m.metadata.presentation)
  }

  predicate KeepsKind(m: ChatMessage, n: ChatMessage) {
    n.metadata.kind == if m.metadata.kind == Some(ToolActivity) then Some(ToolActivity) else Some(ToolUse)
  }

  predicate Streams(n: ChatMessage) {
    n.streaming && n.status == Some(Streaming)
  }

  predicate NamedAfter(m: ChatMessage, n: ChatMessage, call: ToolCall) {
    n.toolName == if call.toolName.Some? then call.toolName else m.toolName
  }

  /** A title replaces text and input text, no title leaves both. */
  predicate TitledAfter(m: ChatMessage, n: ChatMessage, title: string) {
    if title == "" then n.content == m.content && n.metadata.inputText == m.metadata.inputText
    else n.content == title && n.metadata.inputText == Some(title)
  }

  predicate Elsewhere(ms: seq<ChatMessage>, after: seq<ChatMessage>, i: nat) {
    |after| == |ms| && i < |ms| && forall j | 0 <= j < |ms| && j != i :: after[j] == ms[j]
  }

  /** A new block at the end, stamped and of kind tool use. */
  predicate NewAtEnd(ms: seq<ChatMessage>, after: seq<ChatMessage>, call: ToolCall) {
    && |after| == |ms| + 1 && after[..|ms|] == ms
    && var n := after[|ms|];
       && n.id == "tool_use:" + call.toolUseId && n.sessionId == call.sessionId && n.taskId == call.taskId && n.role == Assistant
       && n.createdAt == call.now && n.updatedAt == call.now && !n.placeholder && n.toolName == call.toolName
       && n.metadata.kind == Some(ToolUse) && n.metadata.toolUseId == Some(call.toolUseId) && n.metadata.markers == []
       && n.metadata.presentation == MergePresentation(call.presentation, NO_PRESENTATION)
       && n.metadata.baseMessageId == None && n.metadata.contentBlockId == None && n.clientMessageId == None && n.createdSeq == None
  }

  // ---- Start, input, output ------------------------------------------------------------------------

  /** A start: a settled block stays settled, any other streams; the title, when there is one, is what the block reads. */
  lemma {:induction false} StartDoes(ms: seq<ChatMessage>, call: ToolCall, input: Option<string>)
    ensures var i, after := FindIndex(StartTarget(call.toolUseId), ms), StartTool(ms, call, input);
            if i >= 0 then
              && Elsewhere(ms, after, i)
              && var m, n := ms[i], after[i];
                 && Stamped(m, n, call) && KeepsKind(m, n) && NamedAfter(m, n, call) && n.id == m.id && n.placeholder == m.placeholder
                 && TitledAfter(m, n, InputDisplay(call.presentation, m.metadata.presentation))
                 && n.metadata.rawInputText == (if input.Some? then input else m.metadata.rawInputText)
                 && n.metadata.output == m.metadata.output
                 && (if m.status in {Some(Completed), Some(Failed), Some(Blocked), Some(Cancelled)} then
                       n.status == m.status && n.streaming == m.streaming
                     else Streams(n))
            else
              && NewAtEnd(ms, after, call)
              && var n := after[|ms|];
                 && Streams(n) && n.content == InputDisplay(call.presentation, NO_PRESENTATION) && n.metadata.rawInputText == input
                 && n.metadata.inputText == (if n.content != "" then Some(n.content) else None) && n.metadata.output == None
  {
    hide InputDisplay, MergePresentation;
  }

  /** An input delta is merged into the raw input, and the block streams; an activity becomes a tool use again. */
  lemma {:induction false} InputDoes(ms: seq<ChatMessage>, call: ToolCall, delta: string)
    ensures var i, after := FindIndex(HasId("tool_use:" + call.toolUseId), ms), AppendToolInput(ms, call, delta);
            if i >= 0 then
              && Elsewhere(ms, after, i)
              && var m, n := ms[i], after[i];
                 && Stamped(m, n, call) && n.metadata.kind == Some(ToolUse) && NamedAfter(m, n, call) && n.id == m.id
                 && TitledAfter(m, n, InputDisplay(call.presentation, m.metadata.presentation))
                 && n.metadata.rawInputText
                    == Some(AppendDelta(if m.metadata.rawInputText.Some? then m.metadata.rawInputText.value else "", delta))
                 && n.metadata.output == m.metadata.output && Streams(n) && !n.placeholder
            else
              && NewAtEnd(ms, after, call)
              && var n := after[|ms|];
                 && Streams(n) && n.content == InputDisplay(call.presentation, NO_PRESENTATION)
                 && n.metadata.rawInputText == Some(TrimStart(AppendDelta("", delta))) && n.metadata.output == None
                 && n.metadata.inputText == (if n.content != "" then Some(n.content) else None)
  {
    hide InputDisplay, MergePresentation, AppendDelta, TrimStart;
    assert ToolUseId(call.toolUseId) == "tool_use:" + call.toolUseId;
  }

  /** The delta goes into the buffer of its stream, the other three stay. */
  predicate Buffered(o: ToolOutput, r: ToolOutput, stream: Stream, delta: string) {
    && r.activity == (if stream == Activity then AppendDelta(o.activity, delta) else o.activity)
    && r.stdout == (if stream == Stdout then AppendDelta(o.stdout, delta) else o.stdout)
    && r.stderr == (if stream == Stderr then AppendDelta(o.stderr, delta) else o.stderr)
    && r.result == (if stream == Preview then AppendDelta(o.result, delta) else o.result)
  }

  /** Output: the text and the input of the block stay, the block streams. */
  lemma {:induction false} OutputDoes(ms: seq<ChatMessage>, call: ToolCall, stream: Stream, delta: string)
    ensures var i, after := FindIndex(OutputTarget(call.toolUseId), ms), AppendToolOutput(ms, call, stream, delta);
            if i >= 0 then
              && Elsewhere(ms, after, i)
              && var m, n := ms[i], after[i];
                 && Stamped(m, n, call) && KeepsKind(m, n) && NamedAfter(m, n, call) && n.id == m.id && n.content == m.content
                 && n.metadata.inputText == m.metadata.inputText && n.metadata.rawInputText == m.metadata.rawInputText
                 && n.metadata.output.Some? && Buffered(OutputOf(m), n.metadata.output.value, stream, delta) && Streams(n) && !n.placeholder
            else
              && NewAtEnd(ms, after, call)
              && var n := after[|ms|];
                 && Streams(n) && n.content == "" && n.metadata.inputText == None && n.metadata.rawInputText == None
                 && n.metadata.output.Some? && Buffered(ToolOutput("", "", "", ""), n.metadata.output.value, stream, delta)
  {
    hide MergePresentation, AppendDelta;
  }

  // ---- Completed calls -------------------------------------------------------------------------------

  /** What a completed call shows: its title, else its input, else the tool's name, else the general label. */
  lemma {:induction false} CompletedContentIs(call: ToolCall, current: Presentation, input: string)
    ensures var name := if call.toolName.Some? then call.toolName.value else "";
            FirstSaid(CompletedContent(call, current, input), [InputDisplay(call.presentation, current), input, name, "工具调用"])
  {
    hide InputDisplay, FirstSaid;
    var name := if call.toolName.Some? then call.toolName.value else "";
    FirstTextIs([InputDisplay(call.presentation, current), input, name, TOOL_CALL_LABEL]);
  }

  lemma {:induction false} CompleteDoes(ms: seq<ChatMessage>, call: ToolCall, input: string)
    ensures var i, after := FindIndex(CompleteTarget(call.toolUseId), ms), CompleteTool(ms, call, input);
            && (if i >= 0 then Elsewhere(ms, after, i) && Stamped(ms[i], after[i], call) && KeepsKind(ms[i], after[i])
                               && after[i].id == ms[i].id && after[i].metadata.output == ms[i].metadata.output
                else NewAtEnd(ms, after, call) && after[|ms|].metadata.output == None)
            && var n := after[if i >= 0 then i else |ms|];
               && n.content == CompletedContent(call, if i >= 0 then ms[i].metadata.presentation else NO_PRESENTATION, input)
               && n.metadata.inputText == Some(n.content) && n.metadata.rawInputText == Some(input)
               && !n.streaming && !n.placeholder && n.status == Some(Completed) && n.toolName == call.toolName
  {
    hide CompletedContent, MergePresentation;
  }

  // ---- Results ----------------------------------------------------------------------------------------

  /** What a result says: its trimmed summary, else the trimmed result summary, else the formatted content. */
  lemma {:induction false} ResultContentIs(call: ToolCall, r: ResultInfo)
    ensures FirstSaid(ResultContent(call, r), [TrimmedOr(call.presentation.displaySummary), TrimmedOr(r.resultSummary), r.formattedContent])
  {
    hide TrimmedOr, FirstSaid;
    FirstTextIs([TrimmedOr(call.presentation.displaySummary), TrimmedOr(r.resultSummary), r.formattedContent]);
  }

  /** The input a block shows: its input text, or its content when it has none. */
  function ShownInput(m: ChatMessage): string {
    if m.metadata.inputText.Some? then m.metadata.inputText.value else m.content
  }

  /** A failed result shows what it says, and the input only when it says nothing; a successful one the input first. */
  predicate ResultShows(m: ChatMessage, n: ChatMessage, says: string, isError: bool) {
    if isError then n.content == (if says != "" then says else ShownInput(m))
    else n.content == (if ShownInput(m) != "" then ShownInput(m) else says)
  }

  /** The block a result has found. */
  predicate Finished(m: ChatMessage, n: ChatMessage, call: ToolCall, r: ResultInfo) {
    && Stamped(m, n, call) && n.metadata.kind == Some(ToolActivity) && NamedAfter(m, n, call)
    && n.id == "tool_activity:" + call.toolUseId && ResultShows(m, n, ResultContent(call, r), r.isError)
    && n.metadata.inputText == Some(ShownInput(m)) && n.metadata.rawInputText == m.metadata.rawInputText
    && n.metadata.output == m.metadata.output && !n.streaming && !n.placeholder && n.status == Some(r.status)
  }

  lemma WithResultDoes(m: ChatMessage, call: ToolCall, r: ResultInfo)
    ensures Finished(m, WithResult(m, call, r), call, r)
  {
    hide ResultContent, MergePresentation, FirstText;
    FirstOfTwo(ResultContent(call, r), ShownInput(m));
    FirstOfTwo(ShownInput(m), ResultContent(call, r));
  }

  lemma FirstOfTwo(a: string, b: string)
    ensures FirstText([a, b]) == if a != "" then a else b
  {
    assert [a, b][1..] == [b] && [b][1..] == [];
    assert FirstText([b]) == b;
  }

  /** A result of a call with a block: the block is finished, standalone results of the call go, everything else stays in order. */
  lemma {:induction false} FinishDoes(ms: seq<ChatMessage>, call: ToolCall, r: ResultInfo)
    requires FindIndex(BlockOf(call.toolUseId), ms) >= 0
    ensures var i, after := FindIndex(BlockOf(call.toolUseId), ms), FinishTool(ms, call, r);
            exists n :: Finished(ms[i], n, call, r)
                        && after == Filter(NotResult(call.toolUseId), ms[..i]) + [n] + Filter(NotResult(call.toolUseId), ms[i + 1..])
  {
    hide Filter, WithResult, WithoutId, Finished;
    var i := FindIndex(BlockOf(call.toolUseId), ms);
    var n := WithResult(ms[i], call, r);
    var updated := ms[i := n];
    WithResultDoes(ms[i], call, r);
    assert updated[..i] == ms[..i] && updated[i + 1..] == ms[i + 1..];
    WithoutKeeps(updated, i, call.toolUseId);
  }

  function NotResult(x: string): ChatMessage -> bool {
    (m: ChatMessage) => m.id != "tool_result:" + x
  }

  lemma {:induction false} WithoutNone(ms: seq<ChatMessage>, keep: int, x: string)
    requires keep < 0 || keep >= |ms|
    ensures WithoutId(ms, keep, ToolResultId(x)) == Filter(NotResult(x), ms)
  {
    if ms != [] {
      var init, last := ms[..|ms| - 1], ms[|ms| - 1];
      assert ms == init + [last];
      WithoutNone(init, keep, x);
      FilterAppend(NotResult(x), init, [last]);
      assert Filter(NotResult(x), [last]) == if last.id != ToolResultId(x) then [last] else [];
    }
  }

  lemma {:induction false} WithoutKeeps(ms: seq<ChatMessage>, keep: nat, x: string)
    requires keep < |ms|
    ensures WithoutId(ms, keep, ToolResultId(x)) == Filter(NotResult(x), ms[..keep]) + [ms[keep]] + Filter(NotResult(x), ms[keep + 1..])
  {
    var init, last := ms[..|ms| - 1], ms[|ms| - 1];
    if keep == |ms| - 1 {
      WithoutNone(init, keep, x);
      assert ms[keep + 1..] == [];
    } else {
      WithoutKeeps(init, keep, x);
      var rest := init[keep + 1..];
      assert init[..keep] == ms[..keep] && ms[keep + 1..] == rest + [last];
      FilterAppend(NotResult(x), rest, [last]);
      assert Filter(NotResult(x), [last]) == if last.id != ToolResultId(x) then [last] else [];
    }
  }

  /** The summary of a standalone result, of each field the event's own value before the stored one. */
  lemma {:induction false} SummaryIs(p: Presentation, current: Presentation)
    ensures FirstSaid(SummaryDisplay(p, current),
                      [TrimmedOr(p.displaySummary), TrimmedOr(current.displaySummary), TrimmedOr(p.inputSummary), TrimmedOr(current.inputSummary),
                       TrimmedOr(p.displayTitle), TrimmedOr(current.displayTitle)])
  {
    hide TrimmedOr, FirstSaid;
    FirstTextIs([TrimmedOr(p.displaySummary), TrimmedOr(current.displaySummary), TrimmedOr(p.inputSummary), TrimmedOr(current.inputSummary),
                 TrimmedOr(p.displayTitle), TrimmedOr(current.displayTitle)]);
  }

  /** A result of a call without a block stands alone: a failed one shows its text before the summary, a successful one after it. */
  lemma {:induction false} FinishAloneDoes(ms: seq<ChatMessage>, call: ToolCall, r: ResultInfo)
    requires FindIndex(BlockOf(call.toolUseId), ms) < 0
    ensures var i, after := FindIndex(HasId("tool_result:" + call.toolUseId), ms), FinishTool(ms, call, r);
            var current := if i >= 0 then ms[i].metadata.presentation else NO_PRESENTATION;
            var summary := SummaryDisplay(call.presentation, current);
            && (if i >= 0 then Elsewhere(ms, after, i) else |after| == |ms| + 1 && after[..|ms|] == ms)
            && var n := after[if i >= 0 then i else |ms|];
               && n.id == "tool_result:" + call.toolUseId && n.sessionId == call.sessionId && n.taskId == call.taskId && n.role == Assistant
               && n.content == (if r.isError then (if r.structuredText != "" then r.structuredText else summary)
                                else if summary != "" then summary else r.structuredText)
               && n.createdAt == (if i >= 0 then ms[i].createdAt else call.now) && n.updatedAt == call.now
               && !n.streaming && !n.placeholder && n.status == Some(r.status) && n.toolName == call.toolName
               && n.metadata.kind == Some(ToolResult) && n.metadata.toolUseId == Some(call.toolUseId) && n.metadata.markers == []
               && n.metadata.presentation.target == call.presentation.target
               && n.metadata.presentation.inputSummary == call.presentation.inputSummary
               && n.metadata.presentation.displayTitle == (if call.presentation.displayTitle.Some? then call.presentation.displayTitle else current.displayTitle)
               && n.metadata.presentation.displaySummary == (if call.presentation.displaySummary.Some? then call.presentation.displaySummary else current.displaySummary)
  {
    hide SummaryDisplay, FirstText;
    assert ToolResultId(call.toolUseId) == "tool_result:" + call.toolUseId;
    var i := FindIndex(HasId(ToolResultId(call.toolUseId)), ms);
    var summary := SummaryDisplay(call.presentation, if i >= 0 then ms[i].metadata.presentation else NO_PRESENTATION);
    FirstOfTwo(r.structuredText, summary);
    FirstOfTwo(summary, r.structuredText);
  }

  // ---- The life of a call -----------------------------------------------------------------------------

  datatype Piece = Piece(stream: Stream, delta: string)

  function OutputAll(ms: seq<ChatMessage>, call: ToolCall, pieces: seq<Piece>): seq<ChatMessage> {
    if pieces == [] then ms
    else
      var last := pieces[|pieces| - 1];
      AppendToolOutput(OutputAll(ms, call, pieces[..|pieces| - 1]), call, last.stream, last.delta)
  }

  function DeltasOf(pieces: seq<Piece>, stream: Stream): seq<string> {
    if pieces == [] then []
    else
      var last := pieces[|pieces| - 1];
      DeltasOf(pieces[..|pieces| - 1], stream) + if last.stream == stream then [last.delta] else []
  }

  function StreamOf(o: ToolOutput, stream: Stream): string {
    match stream
    case Activity => o.activity
    case Stdout => o.stdout
    case Stderr => o.stderr
    case Preview => o.result
  }

  /** Nothing in the list has to do with the call. */
  predicate Unknown(ms: seq<ChatMessage>, x: string) {
    forall m | m in ms :: m.id != ToolUseId(x) && m.id != ToolActivityId(x) && m.id != ToolResultId(x) && !IsBlockOf(m, x)
  }

  /** The block of a call that runs: its title, and in each stream what came for it. */
  predicate Running(m: ChatMessage, call: ToolCall, pieces: seq<Piece>) {
    && m.id == ToolUseId(call.toolUseId) && IsBlockOf(m, call.toolUseId) && m.metadata.kind == Some(ToolUse)
    && m.content == InputDisplay(call.presentation, NO_PRESENTATION) && Streams(m) && m.sessionId == call.sessionId
    && (m.metadata.inputText == if m.content != "" then Some(m.content) else None)
    && forall stream :: StreamOf(OutputOf(m), stream) == AppendAll("", DeltasOf(pieces, stream))
  }

  lemma {:induction false} OneMorePiece(call: ToolCall, pieces: seq<Piece>, piece: Piece, m: ChatMessage)
    requires Running(m, call, pieces)
    ensures Running(WithOutput(m, call, piece.stream, piece.delta), call, pieces + [piece])
  {
    hide InputDisplay, AppendDelta, MergePresentation, AppendAll, DeltasOf, ToolUseId;
    var n := WithOutput(m, call, piece.stream, piece.delta);
    forall stream ensures StreamOf(OutputOf(n), stream) == AppendAll("", DeltasOf(pieces + [piece], stream)) {
      DeltasStep(pieces, piece, stream);
      AppendAllLast("", DeltasOf(pieces, stream), piece.delta);
      assert DeltasOf(pieces, stream) + [] == DeltasOf(pieces, stream);
      assert StreamOf(OutputOf(m), stream) == AppendAll("", DeltasOf(pieces, stream));
    }
  }

  lemma {:induction false} DeltasStep(pieces: seq<Piece>, piece: Piece, stream: Stream)
    ensures DeltasOf(pieces + [piece], stream) == DeltasOf(pieces, stream) + if piece.stream == stream then [piece.delta] else []
  {
    assert (pieces + [piece])[..|pieces|] == pieces;
  }

  lemma {:induction false} FoundAtEnd(p: ChatMessage -> bool, ms: seq<ChatMessage>, m: ChatMessage)
    requires p(m) && forall n | n in ms :: !p(n)
    ensures FindIndex(p, ms + [m]) == |ms|
  {
    hide FindIndex;
    forall j | 0 <= j < |ms| ensures !p((ms + [m])[j]) {
      assert ms[j] in ms;
    }
    assert (ms + [m])[|ms|] == m;
  }

  lemma {:induction false} RunningBlock(ms: seq<ChatMessage>, call: ToolCall, input: Option<string>, pieces: seq<Piece>)
    requires Unknown(ms, call.toolUseId)
    ensures exists m :: OutputAll(StartTool(ms, call, input), call, pieces) == ms + [m] && Running(m, call, pieces)
  {
    hide InputDisplay, AppendDelta, MergePresentation, AppendAll, WithOutput, FindIndex, ToolUseId, ToolActivityId, ToolResultId, IsBlockOf, Running;
    if pieces == [] {
      NoneFound(StartTarget(call.toolUseId), ms);
      StartsRunning(call, input);
      assert StartTool(ms, call, input) == ms + [StartedNew(call, input)];
    } else {
      var init, last := pieces[..|pieces| - 1], pieces[|pieces| - 1];
      RunningBlock(ms, call, input, init);
      var m :| OutputAll(StartTool(ms, call, input), call, init) == ms + [m] && Running(m, call, init);
      RunningIsTarget(m, call, init);
      FoundAtEnd(OutputTarget(call.toolUseId), ms, m);
      OneMorePiece(call, init, last, m);
      assert init + [last] == pieces;
      assert (ms + [m])[|ms| := WithOutput(m, call, last.stream, last.delta)] == ms + [WithOutput(m, call, last.stream, last.delta)];
    }
  }

  lemma RunningIsTarget(m: ChatMessage, call: ToolCall, pieces: seq<Piece>)
    requires Running(m, call, pieces)
    ensures OutputTarget(call.toolUseId)(m) && BlockOf(call.toolUseId)(m)
  {
    hide InputDisplay, AppendAll, DeltasOf;
  }

  lemma {:induction false} NoneFound(p: ChatMessage -> bool, ms: seq<ChatMessage>)
    requires forall n | n in ms :: !p(n)
    ensures FindIndex(p, ms) < 0
  {
    hide FindIndex;
    forall j | 0 <= j < |ms| ensures !p(ms[j]) {
      assert ms[j] in ms;
    }
  }

  lemma {:induction false} StartsRunning(call: ToolCall, input: Option<string>)
    ensures Running(StartedNew(call, input), call, [])
  {
    hide InputDisplay, MergePresentation;
    forall stream ensures StreamOf(OutputOf(StartedNew(call, input)), stream) == AppendAll("", DeltasOf([], stream)) {
      assert DeltasOf([], stream) == [];
    }
  }

  /**
   A call started, fed any output and finished leaves one block at the end: an activity with what came for
   each stream, which reads its title, or when it failed what the result says.
   */
  lemma {:induction false} CallLife(ms: seq<ChatMessage>, call: ToolCall, input: Option<string>, pieces: seq<Piece>, r: ResultInfo)
    requires Unknown(ms, call.toolUseId)
    ensures exists n ::
              && FinishTool(OutputAll(StartTool(ms, call, input), call, pieces), call, r) == ms + [n]
              && n.id == ToolActivityId(call.toolUseId) && n.metadata.kind == Some(ToolActivity) && !n.streaming && n.status == Some(r.status)
              && (forall stream :: StreamOf(OutputOf(n), stream) == AppendAll("", DeltasOf(pieces, stream)))
              && var title, says := InputDisplay(call.presentation, NO_PRESENTATION), ResultContent(call, r);
                 n.content == if (r.isError && says != "") || title == "" then says else title
  {
    hide InputDisplay, ResultContent, AppendAll, DeltasOf, FindIndex, StartTool, OutputAll, WithoutId, Filter, IsBlockOf, Running, Finished, ToolUseId, ToolActivityId, ToolResultId;
    RunningBlock(ms, call, input, pieces);
    var m :| OutputAll(StartTool(ms, call, input), call, pieces) == ms + [m] && Running(m, call, pieces);
    RunningIsTarget(m, call, pieces);
    FoundAtEnd(BlockOf(call.toolUseId), ms, m);
    FinishDoes(ms + [m], call, r);
    var n :| Finished(m, n, call, r)
             && FinishTool(ms + [m], call, r) == Filter(NotResult(call.toolUseId), (ms + [m])[..|ms|]) + [n] + Filter(NotResult(call.toolUseId), (ms + [m])[|ms| + 1..]);
    assert (ms + [m])[..|ms|] == ms && (ms + [m])[|ms| + 1..] == [];
    forall k | k in ms ensures NotResult(call.toolUseId)(k) {
      ResultIdIs(call.toolUseId);
    }
    FilterAll(NotResult(call.toolUseId), ms);
    FilterAll(NotResult(call.toolUseId), []);
    assert ms + [n] + [] == ms + [n];
    LifeEnds(m, n, call, pieces, r);
  }

  lemma ResultIdIs(x: string)
    ensures ToolResultId(x) == "tool_result:" + x
  {
  }

  lemma {:induction false} LifeEnds(m: ChatMessage, n: ChatMessage, call: ToolCall, pieces: seq<Piece>, r: ResultInfo)
    requires Running(m, call, pieces) && Finished(m, n, call, r)
    ensures n.id == ToolActivityId(call.toolUseId) && n.metadata.kind == Some(ToolActivity) && !n.streaming && n.status == Some(r.status)
    ensures forall stream :: StreamOf(OutputOf(n), stream) == AppendAll("", DeltasOf(pieces, stream))
    ensures var title, says := InputDisplay(call.presentation, NO_PRESENTATION), ResultContent(call, r);
            n.content == if (r.isError && says != "") || title == "" then says else title
  {
    hide InputDisplay, ResultContent, AppendAll, DeltasOf, MergePresentation;
  }
}
