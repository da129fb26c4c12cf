/** What replaying one event does to the first blocks: its output is folded in once, and marked. */
module ReplayOutputs {
  import opened Seqs
  import opened Text
  import ContentDelta
  import opened ChatMessages
  import opened MessageUpdates
  import opened ToolBlocks
  import opened TraceEvents
  import opened TraceReplay
  import opened BlockInvariants
  import opened PlainUpdates
  import opened GuardedBlocks
  import opened OneBlock
  import opened FirstBlocks
  import opened FirstBlockUpdates

  // ---- What an event marks and appends ---------------------------------------------------

  /** A marker on the block of a call. */
  datatype Key = Key(toolUseId: string, marker: string)

  datatype Output = Output(key: Key, chunk: Chunk)

  function InputKey(e: Event): set<Key> {
    if e.body.ContentDelta? && e.body.input.Some? then {Key(ContentTool(e, e.body.tool).toolUseId, InputMarker(e))} else {}
  }

  function OutputOfPart(part: Option<OutputPart>, marker: string): Option<Output> {
    if part.Some? then Some(Output(Key(part.value.tool.toolUseId, marker), part.value.chunk)) else None
  }

  /** The output an event carries. */
  function EventOutput(e: Event): Option<Output> {
    match e.body
    case ContentDelta(_, tool, _, Some(chunk)) => Some(Output(Key(ContentTool(e, tool).toolUseId, OutputMarker(e)), chunk))
    case ToolOutputEvent(part) => OutputOfPart(part, OutputMarker(e))
    case CommandOutput(stream, part) => OutputOfPart(part, CommandMarker(e, stream))
    case _ => None
  }

  function Keys(e: Event): set<Key> {
    InputKey(e) + if EventOutput(e).Some? then {EventOutput(e).value.key} else {}
  }

  function Marks(e: Event): set<string> {
    set k | k in Keys(e) :: k.marker
  }

  /** What an event appends to one buffer. */
  function Deltas(e: Event, x: string, stream: Stream): seq<string> {
    match EventOutput(e)
    case Some(Output(key, chunk)) => if key.toolUseId == x && chunk.stream == stream then [chunk.delta] else []
    case None => []
  }

  function BufferIn(o: ToolOutput, stream: Stream): string {
    match stream
    case Activity => o.activity
    case Stdout => o.stdout
    case Stderr => o.stderr
    case Preview => o.result
  }

  /** What the transcript holds of one output stream of a tool call. */
  function OutputText(ms: seq<ChatMessage>, x: string, stream: Stream): string {
    BufferIn(Held(ms, x), stream)
  }

  /** The text is that of the call's first block, wherever it stands. */
  lemma {:induction false} OutputTextIsTheBlocks(ms: seq<ChatMessage>, i: nat, x: string, stream: Stream)
    requires i < |ms| && IsBlockOf(ms[i], x) && forall j | 0 <= j < i :: !IsBlockOf(ms[j], x)
    ensures OutputText(ms, x, stream) == BufferIn(OutputOf(ms[i]), stream)
  {
    FirstAt(ms, x, i);
  }

  /** The first block of each of the event's calls carries the event's markers. */
  predicate AllMarked(ms: seq<ChatMessage>, e: Event) {
    forall k | k in Keys(e) :: MarkedFirst(ms, k.toolUseId, k.marker)
  }

  /** The event's output has been appended. */
  ghost predicate Folded(ms: seq<ChatMessage>, after: seq<ChatMessage>, e: Event) {
    forall x, stream :: OutputText(after, x, stream) == ContentDelta.AppendAll(OutputText(ms, x, stream), Deltas(e, x, stream))
  }

  // ---- Markers ---------------------------------------------------------------------------------

  lemma MarkerFound(ms: seq<ChatMessage>, x: string, k: string)
    ensures MarkedFirst(ms, x, k) ==> HasMarker(ms, x, k)
    ensures HasMarker(ms, x, k) ==> k in Carried(ms)
  {
    hide FindIndex;
    var i := FindIndex(Marked(x, k), ms);
    if i >= 0 {
      assert ms[i] in ms;
    }
    var j := FindIndex(BlockOf(x), ms);
    if MarkedFirst(ms, x, k) {
      assert Marked(x, k)(ms[j]);
    }
  }

  lemma MarkersDiffer(e: Event)
    ensures InputMarker(e) != OutputMarker(e)
  {
    assert |InputMarker(e)| != |OutputMarker(e)|;
  }

  lemma {:induction false} AppendOne(content: string, delta: string)
    ensures ContentDelta.AppendAll(content, [delta]) == ContentDelta.AppendDelta(content, delta)
    ensures ContentDelta.AppendAll(content, []) == content
  {
    hide ContentDelta.AppendDelta;
  }

  lemma AppendedBuffer(o: ToolOutput, chunk: Chunk, stream: Stream)
    ensures BufferIn(AppendOutput(o, chunk.stream, chunk.delta), stream)
            == if stream == chunk.stream then ContentDelta.AppendDelta(BufferIn(o, stream), chunk.delta) else BufferIn(o, stream)
  {
    hide ContentDelta.AppendDelta;
  }

  // ---- The parts of an event -----------------------------------------------------------------------

  /** An output part: nothing when its marker is found, otherwise one delta into the first block. */
  lemma ReplayOutputEffect(ms: seq<ChatMessage>, e: Event, tool: ToolInfo, chunk: Chunk, k: string)
    requires AllGood(ms)
    ensures var x, after := tool.toolUseId, ReplayOutput(ms, e, tool, chunk, k);
            && Orderly(ms, after, {k}) && NamesStay(ms, after)
            && (if HasMarker(ms, x, k) then after == ms
                else MarkedFirst(after, x, k) && HeldBut(ms, after, x, AppendOutput(Held(ms, x), chunk.stream, chunk.delta)))
  {
    hide AllGood, MarkedFirst, Held, Named, Carried, OthersEmpty, HasMarker, RemoveThinking, AppendToolOutput, MarkTool, AppendOutput;
    var x, call := tool.toolUseId, CallOf(e, tool);
    StillItself(ms);
    if !HasMarker(ms, x, k) {
      var closed := Closed(ms, e);
      var put := AppendToolOutput(closed, call, chunk.stream, chunk.delta);
      var none: set<string> := {};
      ClosedStill(ms, e.sessionId, e.taskId, e.ts);
      OutputGoesFirst(closed, call, chunk.stream, chunk.delta);
      MarkQuiet(put, x, k);
      OrderlyTwice(ms, closed, put, none, none);
      assert none + none == none;
      OrderlyTwice(ms, put, MarkTool(put, x, k), none, {k});
      assert none + {k} == {k};
    }
  }

  lemma ReplayInputEffect(ms: seq<ChatMessage>, e: Event, tool: ToolInfo, delta: string)
    requires AllGood(ms)
    ensures var x, k, after := tool.toolUseId, InputMarker(e), ReplayInput(ms, e, tool, delta);
            && Quiet(ms, after, {k}) && NamesStay(ms, after)
            && (if HasMarker(ms, x, k) then after == ms else MarkedFirst(after, x, k))
  {
    hide AllGood, MarkedFirst, Held, Named, Carried, OthersEmpty, HasMarker, RemoveThinking, AppendToolInput, MarkTool, InputMarker;
    var x, k, call := tool.toolUseId, InputMarker(e), CallOf(e, tool);
    StillItself(ms);
    if !HasMarker(ms, x, k) {
      var closed := Closed(ms, e);
      var put := AppendToolInput(closed, call, delta);
      var none: set<string> := {};
      ClosedStill(ms, e.sessionId, e.taskId, e.ts);
      InputStill(closed, call, delta);
      MarkQuiet(put, x, k);
      OrderlyTwice(ms, closed, put, none, none);
      assert none + none == none;
      OrderlyTwice(ms, put, MarkTool(put, x, k), none, {k});
      assert none + {k} == {k};
    }
  }

  /** What an event without the end of a task may do. */
  ghost predicate Effect(ms: seq<ChatMessage>, after: seq<ChatMessage>, e: Event) {
    && Orderly(ms, after, Marks(e))
    && (HeldStays(ms, after) || Folded(ms, after, e))
    && (AllMarked(ms, e) ==> HeldStays(ms, after))
    && (Marks(e) !! Carried(ms) ==> Folded(ms, after, e) && AllMarked(after, e))
  }

  lemma KeyMarks(e: Event)
    ensures forall k | k in Keys(e) :: k.marker in Marks(e)
    ensures EventOutput(e).Some? ==> EventOutput(e).value.key in Keys(e)
    ensures InputKey(e) <= Keys(e)
  {
    hide EventOutput, InputKey;
  }

  /** An event that leaves the first blocks alone and brings no output. */
  lemma QuietEffect(ms: seq<ChatMessage>, after: seq<ChatMessage>, e: Event)
    requires Quiet(ms, after, {}) && Keys(e) == {}
    ensures Effect(ms, after, e)
  {
    hide AllGood, MarkedFirst, Held, Carried, OthersEmpty, ContentDelta.AppendAll, InputKey, EventOutput;
    KeyMarks(e);
    forall x, stream ensures OutputText(after, x, stream) == ContentDelta.AppendAll(OutputText(ms, x, stream), Deltas(e, x, stream)) {
      AppendOne(OutputText(ms, x, stream), "");
    }
  }

  /** The first blocks with the event's output folded in. */
  lemma OutputFolds(ms: seq<ChatMessage>, after: seq<ChatMessage>, e: Event)
    requires EventOutput(e).Some?
    requires var o := EventOutput(e).value;
             HeldBut(ms, after, o.key.toolUseId, AppendOutput(Held(ms, o.key.toolUseId), o.chunk.stream, o.chunk.delta))
    ensures Folded(ms, after, e)
  {
    hide Held, ContentDelta.AppendAll, EventOutput, AppendOutput;
    var o := EventOutput(e).value;
    forall x, stream ensures OutputText(after, x, stream) == ContentDelta.AppendAll(OutputText(ms, x, stream), Deltas(e, x, stream)) {
      AppendOne(OutputText(ms, x, stream), o.chunk.delta);
      AppendedBuffer(Held(ms, x), o.chunk, stream);
    }
  }

  lemma NothingFolds(ms: seq<ChatMessage>, after: seq<ChatMessage>, e: Event)
    requires EventOutput(e).None? && HeldStays(ms, after)
    ensures Folded(ms, after, e)
  {
    hide Held, ContentDelta.AppendAll, EventOutput;
    forall x, stream ensures OutputText(after, x, stream) == ContentDelta.AppendAll(OutputText(ms, x, stream), Deltas(e, x, stream)) {
      AppendOne(OutputText(ms, x, stream), "");
    }
  }

  lemma ChunkEffect(ms: seq<ChatMessage>, e: Event, part: Option<OutputPart>, k: string)
    requires AllGood(ms) && EventOutput(e) == OutputOfPart(part, k) && InputKey(e) == {}
    ensures Effect(ms, ReplayChunk(ms, e, part, k), e) && NamesStay(ms, ReplayChunk(ms, e, part, k))
  {
    hide AllGood, MarkedFirst, Held, Named, Carried, OthersEmpty, ReplayOutput, EventOutput, InputKey, Folded, HasMarker;
    var after := ReplayChunk(ms, e, part, k);
    if part.Some? {
      var x := part.value.tool.toolUseId;
      assert Keys(e) == {Key(x, k)} && Marks(e) == {k};
      ReplayOutputEffect(ms, e, part.value.tool, part.value.chunk, k);
      MarkerFound(ms, x, k);
      if !HasMarker(ms, x, k) {
        OutputFolds(ms, after, e);
      }
    } else {
      StillItself(ms);
      QuietEffect(ms, after, e);
    }
  }

  /** The tool parts of a content delta: input first, which ends the event when it was replayed before. */
  lemma ToolPartsEffect(ms: seq<ChatMessage>, e: Event, tool: ToolInfo, input: Option<string>, output: Option<Chunk>)
    requires AllGood(ms) && e.body.ContentDelta? && tool == ContentTool(e, e.body.tool) && input == e.body.input && output == e.body.output
    ensures var after := ReplayToolParts(ms, e, tool, input, output); Effect(ms, after, e) && NamesStay(ms, after)
  {
    hide AllGood, MarkedFirst, Held, Named, Carried, OthersEmpty, ReplayInput, ReplayOutput, HasMarker, Folded, ContentTool, InputMarker, OutputMarker;
    var x, ik, ok := tool.toolUseId, InputMarker(e), OutputMarker(e);
    var fed := if input.Some? then ReplayInput(ms, e, tool, input.value) else ms;
    var after := ReplayToolParts(ms, e, tool, input, output);
    StillItself(ms);
    KeyMarks(e);
    MarkersDiffer(e);
    MarkerFound(ms, x, ik);
    assert input.Some? ==> Key(x, ik) in Keys(e);
    assert output.Some? ==> EventOutput(e) == Some(Output(Key(x, ok), output.value)) && Key(x, ok) in Keys(e);
    if input.Some? {
      ReplayInputEffect(ms, e, tool, input.value);
    }
    if input.Some? && HasMarker(ms, x, ik) {
      assert after == ms;
      assert Orderly(ms, after, Marks(e));
    } else if output.Some? {
      ReplayOutputEffect(fed, e, tool, output.value, ok);
      MarkerFound(fed, x, ok);
      FedOutput(ms, fed, after, e, x, ik, ok);
    } else {
      FedOnly(ms, fed, e, x, ik);
    }
  }

  /** Input without output. */
  lemma FedOnly(ms: seq<ChatMessage>, fed: seq<ChatMessage>, e: Event, x: string, ik: string)
    requires EventOutput(e).None? && AllGood(ms)
    requires if InputKey(e) == {} then fed == ms else InputKey(e) == {Key(x, ik)} && Quiet(ms, fed, {ik}) && MarkedFirst(fed, x, ik)
    ensures Effect(ms, fed, e)
  {
    hide AllGood, MarkedFirst, Held, Carried, OthersEmpty, EventOutput, InputKey, Folded;
    assert Keys(e) == InputKey(e);
    assert InputKey(e) == {} ==> Marks(e) == {};
    assert InputKey(e) != {} ==> Marks(e) == {ik};
    StillItself(ms);
    NothingFolds(ms, fed, e);
  }

  /** Output behind input that was not replayed before, or without input. */
  lemma FedOutput(ms: seq<ChatMessage>, fed: seq<ChatMessage>, after: seq<ChatMessage>, e: Event, x: string, ik: string, ok: string)
    requires EventOutput(e).Some? && EventOutput(e).value.key == Key(x, ok) && AllGood(ms) && ik != ok
    requires if InputKey(e) == {} then fed == ms else InputKey(e) == {Key(x, ik)} && Quiet(ms, fed, {ik}) && MarkedFirst(fed, x, ik) && !HasMarker(ms, x, ik)
    requires Orderly(fed, after, {ok})
    requires var chunk := EventOutput(e).value.chunk;
             if HasMarker(fed, x, ok) then after == fed
             else MarkedFirst(after, x, ok) && HeldBut(fed, after, x, AppendOutput(Held(fed, x), chunk.stream, chunk.delta))
    ensures Effect(ms, after, e)
  {
    hide AllGood, MarkedFirst, Held, Carried, OthersEmpty, EventOutput, InputKey, Folded, HasMarker, AppendOutput;
    var ins: set<string> := if InputKey(e) == {} then {} else {ik};
    assert Marks(e) == ins + {ok} by {
      assert Keys(e) == InputKey(e) + {Key(x, ok)};
    }
    StillItself(ms);
    OrderlyTwice(ms, fed, after, ins, {ok});
    MarkerFound(ms, x, ik);
    MarkerFound(ms, x, ok);
    MarkerFound(fed, x, ok);
    assert Key(x, ok) in Keys(e) && forall k | k in InputKey(e) :: k in Keys(e);
    if !HasMarker(fed, x, ok) {
      OutputFolds(fed, after, e);
      FoldedBehind(ms, fed, after, e);
    }
  }

  lemma FoldedBehind(ms: seq<ChatMessage>, fed: seq<ChatMessage>, after: seq<ChatMessage>, e: Event)
    requires HeldStays(ms, fed) && Folded(fed, after, e)
    ensures Folded(ms, after, e)
  {
    hide Held, ContentDelta.AppendAll, Deltas;
    forall x, stream ensures OutputText(after, x, stream) == ContentDelta.AppendAll(OutputText(ms, x, stream), Deltas(e, x, stream)) {
      assert Held(fed, x) == Held(ms, x);
      assert OutputText(after, x, stream) == ContentDelta.AppendAll(OutputText(fed, x, stream), Deltas(e, x, stream));
    }
  }

  // ---- Whole events ---------------------------------------------------------------------------------

  lemma StillThenEffect(ms: seq<ChatMessage>, between: seq<ChatMessage>, after: seq<ChatMessage>, e: Event)
    requires Still(ms, between) && Effect(between, after, e)
    ensures Effect(ms, after, e)
    ensures NamesStay(between, after) ==> NamesStay(ms, after)
  {
    hide AllGood, MarkedFirst, Held, Named, Carried, OthersEmpty, Folded, Keys, Marks;
    OrderlyTwice(ms, between, after, {}, Marks(e));
    assert {} + Marks(e) == Marks(e);
    if Folded(between, after, e) {
      FoldedBehind(ms, between, after, e);
    }
    if AllMarked(ms, e) {
      assert forall k | k in Keys(e) :: MarkedFirst(between, k.toolUseId, k.marker);
    }
    assert Carried(between) <= Carried(ms) + {};
  }

  lemma ReplayTextStill(ms: seq<ChatMessage>, e: Event, text: Option<TextPart>)
    requires AllGood(ms) && (text.Some? ==> PlainText(DeltaOf(e, text.value)))
    ensures Still(ms, ReplayText(ms, e, text))
  {
    hide Still, AllGood, AppendTextDelta, DeltaOf, PlainText;
    StillItself(ms);
    if text.Some? {
      TextStill(ms, DeltaOf(e, text.value));
    }
  }

  lemma ContentEffect(ms: seq<ChatMessage>, e: Event)
    requires AllGood(ms) && e.body.ContentDelta? && PlainIds(e)
    ensures var after := ReplayContentDelta(ms, e, e.body.text, e.body.tool, e.body.input, e.body.output);
            Effect(ms, after, e) && NamesStay(ms, after)
  {
    hide Still, AllGood, Effect, NamesStay, ReplayText, ReplayToolParts, ContentTool, PlainText;
    var texted := ReplayText(ms, e, e.body.text);
    ReplayTextStill(ms, e, e.body.text);
    StillIsGood(ms, texted);
    ToolPartsEffect(texted, e, ContentTool(e, e.body.tool), e.body.input, e.body.output);
    StillThenEffect(ms, texted, ReplayToolParts(texted, e, ContentTool(e, e.body.tool), e.body.input, e.body.output), e);
  }

  lemma ClosedThen(ms: seq<ChatMessage>, e: Event, after: seq<ChatMessage>)
    requires AllGood(ms) && Quiet(Closed(ms, e), after, {})
    ensures Quiet(ms, after, {}) && (NamesStay(Closed(ms, e), after) ==> NamesStay(ms, after))
  {
    hide AllGood, MarkedFirst, Held, Named, Carried, OthersEmpty, RemoveThinking;
    var none: set<string> := {};
    ClosedStill(ms, e.sessionId, e.taskId, e.ts);
    OrderlyTwice(ms, Closed(ms, e), after, none, none);
    assert none + none == none;
  }

  lemma ClosedGood(ms: seq<ChatMessage>, e: Event)
    requires AllGood(ms)
    ensures Still(ms, Closed(ms, e)) && AllGood(Closed(ms, e))
  {
    hide AllGood, MarksStay, HeldStays, NamesStay, Carried, OthersEmpty, RemoveThinking;
    ClosedStill(ms, e.sessionId, e.taskId, e.ts);
  }

  /** A start shows its title, and a completed call always something. */
  lemma StartsQuiet(ms: seq<ChatMessage>, e: Event, tool: Option<ToolInfo>, input: Option<string>)
    requires AllGood(ms)
    ensures var after := ReplayStart(ms, e, tool, input);
            && Quiet(ms, after, {}) && NamesStay(ms, after)
            && (tool.Some? && InputDisplay(tool.value.presentation, NO_PRESENTATION) != "" ==> Named(after, tool.value.toolUseId))
  {
    hide AllGood, Quiet, NamesStay, Named, Closed, StartTool, InputDisplay;
    StillItself(ms);
    if tool.Some? {
      ClosedGood(ms, e);
      StartStill(Closed(ms, e), CallOf(e, tool.value), input);
      ClosedThen(ms, e, StartTool(Closed(ms, e), CallOf(e, tool.value), input));
    }
  }

  lemma ToolUseQuiet(ms: seq<ChatMessage>, e: Event, tool: Option<ToolInfo>, input: string)
    requires AllGood(ms)
    ensures var after := ReplayToolUse(ms, e, tool, input);
            && Quiet(ms, after, {})
            && ((tool.Some? ==> InputSays(CallOf(e, tool.value), input)) ==>
                  NamesStay(ms, after) && (tool.Some? ==> Named(after, tool.value.toolUseId)))
  {
    hide AllGood, Quiet, NamesStay, Named, Closed, CompleteTool, InputSays;
    StillItself(ms);
    if tool.Some? {
      ClosedGood(ms, e);
      CompleteQuiet(Closed(ms, e), CallOf(e, tool.value), input);
      ClosedThen(ms, e, CompleteTool(Closed(ms, e), CallOf(e, tool.value), input));
    }
  }

  lemma ResultQuiet(ms: seq<ChatMessage>, e: Event, tool: Option<ToolInfo>, info: ResultInfo)
    requires AllGood(ms)
    ensures var after := ReplayResult(ms, e, tool, info); Quiet(ms, after, {}) && (ResultSays(info) ==> NamesStay(ms, after))
  {
    hide AllGood, Quiet, NamesStay, Closed, FinishTool, ResultSays;
    StillItself(ms);
    if tool.Some? {
      ClosedGood(ms, e);
      FinishQuiet(Closed(ms, e), CallOf(e, tool.value), info);
      ClosedThen(ms, e, FinishTool(Closed(ms, e), CallOf(e, tool.value), info));
    }
  }

  /** The texts the event may leave in a block say something. */
  predicate Sayable(e: Event) {
    match e.body
    case ToolUseComplete(tool, input) => tool.Some? ==> InputSays(CallOf(e, tool.value), input)
    case ToolResultEvent(_, info) => ResultSays(info)
    case ToolFinished(_, info) => ResultSays(info)
    case CommandFinished(_, _, info) => ResultSays(info)
    case _ => true
  }

  predicate Starts(tool: Option<ToolInfo>, x: string) {
    tool.Some? && tool.value.toolUseId == x && InputDisplay(tool.value.presentation, NO_PRESENTATION) != ""
  }

  /** The event gives the call a text to show: a start with a title, or the completed call. */
  predicate Titles(e: Event, x: string) {
    match e.body
    case ContentStart(tool) => Starts(tool, x)
    case ToolStarted(tool, _) => Starts(tool, x)
    case CommandStarted(tool) => Starts(tool, x)
    case ToolUseComplete(tool, _) => tool.Some? && tool.value.toolUseId == x
    case _ => false
  }

  ghost predicate Says(ms: seq<ChatMessage>, after: seq<ChatMessage>, e: Event) {
    Sayable(e) ==> NamesStay(ms, after) && forall x | Titles(e, x) :: Named(after, x)
  }

  lemma QuietToolEffect(ms: seq<ChatMessage>, e: Event)
    requires AllGood(ms) && IsToolEvent(e.body) && !e.body.ContentDelta? && !e.body.ToolOutputEvent? && !e.body.CommandOutput?
    ensures Quiet(ms, ApplyTool(ms, e), {}) && Says(ms, ApplyTool(ms, e), e)
  {
    hide AllGood, Quiet, NamesStay, Named, ReplayStart, ReplayToolUse, ReplayResult, InputDisplay, InputSays, ResultSays;
    match e.body
    case ContentStart(tool) => StartsQuiet(ms, e, tool, None);
    case ToolUseComplete(tool, input) => ToolUseQuiet(ms, e, tool, input);
    case ToolResultEvent(tool, info) => ResultQuiet(ms, e, tool, info);
    case ToolStarted(tool, arguments) => StartsQuiet(ms, e, tool, arguments);
    case ToolFinished(tool, info) => ResultQuiet(ms, e, tool, info);
    case CommandStarted(tool) => StartsQuiet(ms, e, tool, None);
    case CommandFinished(_, tool, info) => ResultQuiet(ms, e, tool, info);
  }

  lemma ToolEffect(ms: seq<ChatMessage>, e: Event)
    requires AllGood(ms) && IsToolEvent(e.body) && PlainIds(e)
    ensures Effect(ms, ApplyTool(ms, e), e) && Says(ms, ApplyTool(ms, e), e)
  {
    hide AllGood, Quiet, Effect, NamesStay, ReplayChunk, ReplayContentDelta, ReplayStart, ReplayToolUse, ReplayResult,
         OutputMarker, CommandMarker, PlainIds, Sayable, Starts;
    match e.body
    case ContentDelta(_, _, _, _) => ContentEffect(ms, e);
    case ToolOutputEvent(part) => ChunkEffect(ms, e, part, OutputMarker(e));
    case CommandOutput(stream, part) => ChunkEffect(ms, e, part, CommandMarker(e, stream));
    case _ =>
      QuietToolEffect(ms, e);
      QuietEffect(ms, ApplyTool(ms, e), e);
  }

  lemma StillEffect(ms: seq<ChatMessage>, after: seq<ChatMessage>, e: Event)
    requires Still(ms, after) && Keys(e) == {} && forall x :: !Titles(e, x)
    ensures Effect(ms, after, e) && Says(ms, after, e)
  {
    hide Effect, Quiet, NamesStay, Keys, Titles, Sayable;
    QuietEffect(ms, after, e);
  }

  lemma ThenClosed(ms: seq<ChatMessage>, between: seq<ChatMessage>, e: Event)
    requires Still(ms, between)
    ensures Still(ms, Closed(between, e))
  {
    hide Still, AllGood, Closed;
    StillIsGood(ms, between);
    ClosedGood(between, e);
    StillTwice(ms, between, Closed(between, e));
  }

  lemma MessageStill(env: Environment, ms: seq<ChatMessage>, e: Event)
    requires AllGood(ms) && PlainIds(e) && !e.body.TaskEnded? && !IsToolEvent(e.body)
    ensures Still(ms, ApplyMessage(env, ms, e))
  {
    hide Still, AllGood, Closed, ReplayText, UpdateThinking, CompleteMessage, CompleteChatCompat, PlainText, ToolLike, Trim;
    StillItself(ms);
    match e.body
    case MessageDelta(text) => ReplayTextStill(ms, e, text);
    case ThinkingEvent(text, source) => ThinkingStill(ms, ThoughtOf(e, text, source));
    case ChatMessageComplete(id, content) =>
      CompatStill(env.resolve, ms, CompletionOf(e, id, content));
      ThenClosed(ms, CompleteChatCompat(env.resolve, ms, CompletionOf(e, id, content)), e);
    case MessageCompleted(id, content) =>
      CompletionStill(env.resolve, ms, CompletionOf(e, id, content));
      ThenClosed(ms, if Trim(id) == "" then ms else CompleteMessage(env.resolve, ms, CompletionOf(e, id, content)), e);
    case _ =>
  }

  lemma PermissionsStill(ms: seq<ChatMessage>, e: Event, p: Permission)
    requires AllGood(ms) && AllGuarded(ms)
    ensures Still(ms, ReplayPermission(ms, e, Some(p))) && Still(ms, ReplayPermissionAnswer(ms, e, Some(p)))
    ensures Still(ms, ReplayApproval(ms, e, Some(p)))
  {
    hide Still, AllGood, AllGuarded, Closed, RequestPermission, ResolvePermission, ApprovalResolver, Same, Map;
    var closed, answered := Closed(ms, e), ResolvePermission(ms, PermissionOf(e, p));
    ClosedGood(ms, e);
    RequestStill(closed, PermissionOf(e, p));
    StillTwice(ms, closed, RequestPermission(closed, PermissionOf(e, p)));
    ResolveStill(ms, PermissionOf(e, p));
    StillIsGood(ms, answered);
    ApproverIsSame(p.requestId, p.rejected, e.ts);
    MapStill(ApprovalResolver(p.requestId, p.rejected, e.ts), answered);
    StillTwice(ms, answered, Map(ApprovalResolver(p.requestId, p.rejected, e.ts), answered));
  }

  lemma ReplaySpecialStill(ms: seq<ChatMessage>, e: Event, s: SpecialEvent)
    requires AllGood(ms)
    ensures Still(ms, ReplaySpecial(ms, e, s))
  {
    hide Still, AllGood, Closed, AppendSpecial;
    ClosedGood(ms, e);
    SpecialStill(ms, SpecialOf(e, s));
    SpecialStill(Closed(ms, e), SpecialOf(e, s));
    StillTwice(ms, Closed(ms, e), AppendSpecial(Closed(ms, e), SpecialOf(e, s)));
  }

  lemma ReplayAnswerStill(ms: seq<ChatMessage>, e: Event, a: Answer)
    requires AllGood(ms)
    ensures Still(ms, ReplayAnswer(ms, e, Some(a)))
  {
    hide Still, AllGood, Answerer, Same, Map;
    AnswererIsSame(a.(now := e.ts));
    MapStill(Answerer(a.(now := e.ts)), ms);
  }

  lemma NoticeStill(ms: seq<ChatMessage>, e: Event)
    requires AllGood(ms) && AllGuarded(ms)
    ensures Still(ms, ApplyNotice(ms, e))
  {
    hide Still, AllGood, AllGuarded, ReplayPermission, ReplayPermissionAnswer, ReplayApproval, ReplayAnswer, ReplaySpecial;
    StillItself(ms);
    NoPermission(ms, e);
    match e.body
    case PermissionRequested(p) => if p.Some? { PermissionsStill(ms, e, p.value); }
    case PermissionAnswered(p) => if p.Some? { PermissionsStill(ms, e, p.value); }
    case SpecialOccurred(s) => ReplaySpecialStill(ms, e, s);
    case QuestionAnswered(a) => if a.Some? { ReplayAnswerStill(ms, e, a.value); }
    case ApprovalResolved(p) => if p.Some? { PermissionsStill(ms, e, p.value); }
    case _ =>
  }

  /**
   Replaying an event that ends no task: it folds its output into the first block of its call and marks
   it unless the markers are there already, and leaves everything else of all first blocks alone.
   */
  lemma {:induction false} EventEffect(env: Environment, ms: seq<ChatMessage>, e: Event)
    requires AllGood(ms) && AllGuarded(ms) && PlainIds(e) && !e.body.TaskEnded?
    ensures Effect(ms, Apply(env, ms, e), e) && Says(ms, Apply(env, ms, e), e)
  {
    hide AllGood, AllGuarded, Effect, Still, ApplyTool, ApplyMessage, ApplyNotice, PlainIds, Sayable, NamesStay;
    if IsToolEvent(e.body) {
      ToolEffect(ms, e);
    } else {
      assert Keys(e) == {};
      MessageStill(env, ms, e);
      NoticeStill(ms, e);
      StillEffect(ms, Apply(env, ms, e), e);
    }
  }

  /** The end of a task drops first blocks that show no text, and leaves the others alone. */
  lemma {:induction false} TaskEndEffect(env: Environment, ms: seq<ChatMessage>, e: Event)
    requires AllGood(ms) && OthersEmpty(ms) && e.body.TaskEnded?
    ensures var after := Apply(env, ms, e);
            && AllGood(after) && OthersEmpty(after) && Carried(after) <= Carried(ms) && NamesStay(ms, after)
            && forall x :: Held(after, x) == if Drops(ms, e.sessionId, e.taskId, x) then NO_OUTPUT else Held(ms, x)
    ensures forall x, k | MarkedFirst(ms, x, k) && !Drops(ms, e.sessionId, e.taskId, x) :: MarkedFirst(Apply(env, ms, e), x, k)
  {
    hide AllGood, MarkedFirst, Held, Named, Carried, OthersEmpty, Drops, StopStreaming, RemoveThinking;
    var stopped := StopStreaming(ms, e.sessionId, e.taskId);
    StopOrderly(ms, e.sessionId, e.taskId);
    ClosedStill(stopped, e.sessionId, e.taskId, e.ts);
    forall x
      ensures Held(stopped, x) == if Drops(ms, e.sessionId, e.taskId, x) then NO_OUTPUT else Held(ms, x)
      ensures Named(ms, x) ==> Named(stopped, x)
    {
      StopFirst(ms, e.sessionId, e.taskId, x);
    }
    forall x, k | MarkedFirst(ms, x, k) && !Drops(ms, e.sessionId, e.taskId, x) ensures MarkedFirst(stopped, x, k) {
      StopFirst(ms, e.sessionId, e.taskId, x);
    }
  }
}
