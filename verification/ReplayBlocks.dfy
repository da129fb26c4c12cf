/** Replaying an event, seen from the table of tool blocks. */
module ReplayBlocks {
  import opened Seqs
  import opened Text
  import opened ChatMessages
  import opened MessageUpdates
  import opened ToolBlocks
  import opened TraceEvents
  import opened TraceReplay
  import opened BlockTable
  import opened BlockInvariants
  import opened BlockUpdates
  import opened PlainUpdates

  // ---- The machine on tables -----------------------------------------------------------

  predicate Seen(t: Table, x: string, k: string) {
    x in t && k in t[x].markers
  }

  function Mark(t: Table, x: string, k: string): Table
    requires x in t
  {
    t[x := AddMarker(t[x], k)]
  }

  predicate ResultIn(t: Table, x: string) {
    x in t && t[x].activity
  }

  function InputBlock(t: Table, x: string, k: string): Table {
    if Seen(t, x, k) then t else Mark(Touch(t, x), x, k)
  }

  function OutputBlock(t: Table, x: string, chunk: Chunk, k: string): Table {
    if Seen(t, x, k) then t else Mark(PutOutput(t, x, chunk.stream, chunk.delta), x, k)
  }

  function ContentBlocks(t: Table, e: Event, x: string, input: bool, output: Option<Chunk>): Table {
    if input && Seen(t, x, InputMarker(e)) then t
    else
      var fed := if input then InputBlock(t, x, InputMarker(e)) else t;
      if output.Some? then OutputBlock(fed, x, output.value, OutputMarker(e)) else fed
  }

  function ChunkBlock(t: Table, chunk: Option<OutputPart>, k: string): Table {
    if chunk.Some? then OutputBlock(t, chunk.value.tool.toolUseId, chunk.value.chunk, k) else t
  }

  function TouchTool(t: Table, tool: Option<ToolInfo>): Table {
    if tool.Some? then Touch(t, tool.value.toolUseId) else t
  }

  function FinishBlock(t: Table, tool: Option<ToolInfo>): Table {
    if tool.Some? then Finish(t, tool.value.toolUseId) else t
  }

  /** What a shown event does to the tool blocks: text, thinking and notices nothing at all. */
  function BlockStep(t: Table, e: Event): Table {
    match e.body
    case ContentStart(tool) => TouchTool(t, tool)
    case ContentDelta(_, tool, input, output) => ContentBlocks(t, e, ContentTool(e, tool).toolUseId, input.Some?, output)
    case ToolUseComplete(tool, _) => TouchTool(t, tool)
    case ToolResultEvent(tool, _) => FinishBlock(t, tool)
    case ToolStarted(tool, _) => TouchTool(t, tool)
    case ToolFinished(tool, _) => FinishBlock(t, tool)
    case ToolOutputEvent(chunk) => ChunkBlock(t, chunk, OutputMarker(e))
    case CommandStarted(tool) => TouchTool(t, tool)
    case CommandOutput(stream, chunk) => ChunkBlock(t, chunk, CommandMarker(e, stream))
    case CommandFinished(_, tool, _) => FinishBlock(t, tool)
    case _ => t
  }

  // ---- Events that keep the invariant ----------------------------------------------------

  /** Text goes to ids of its own, and input that was not replayed before comes before the call's result. */
  ghost predicate ContentAdmissible(ms: seq<ChatMessage>, e: Event) {
    e.body.ContentDelta? ==>
      var x := ContentTool(e, e.body.tool).toolUseId;
      && (e.body.text.Some? ==> TextSpares(ms, DeltaOf(e, e.body.text.value)))
      && (e.body.input.Some? ==> Seen(Blocks(ms), x, InputMarker(e)) || !ResultIn(Blocks(ms), x))
  }

  ghost predicate MessageAdmissible(ms: seq<ChatMessage>, e: Event) {
    match e.body
    case MessageDelta(text) => text.Some? ==> TextSpares(ms, DeltaOf(e, text.value))
    case ChatMessageComplete(id, content) => CompatSpares(ms, CompletionOf(e, id, content))
    case MessageCompleted(id, content) => Trim(id) == "" || CompletionSpares(ms, CompletionOf(e, id, content))
    case TaskEnded(_) => DropsNoBlock(ms, e.sessionId, e.taskId)
    case _ => true
  }

  function SpecialGround(ms: seq<ChatMessage>, e: Event, s: SpecialEvent): seq<ChatMessage> {
    if s.kind == AskUser || s.kind == ComputerUse then Closed(ms, e) else ms
  }

  ghost predicate NoticeAdmissible(ms: seq<ChatMessage>, e: Event) {
    match e.body
    case PermissionAnswered(p) => p.Some? ==> AnswerFits(ms, PermissionOf(e, p.value))
    case ApprovalResolved(p) => p.Some? ==> AnswerFits(ms, PermissionOf(e, p.value))
    case SpecialOccurred(s) => SpecialFits(SpecialGround(ms, e, s), SpecialOf(e, s))
    case _ => true
  }

  ghost predicate Admissible(env: Environment, ms: seq<ChatMessage>, e: Event) {
    Shows(env, e) ==> ContentAdmissible(ms, e) && MessageAdmissible(ms, e) && NoticeAdmissible(ms, e)
  }

  /** after is well-formed and its tool blocks are those of t. */
  ghost predicate Shape(after: seq<ChatMessage>, t: Table) {
    Sound(after) && Blocks(after) == t
  }

  lemma ClosedKeeps(ms: seq<ChatMessage>, e: Event)
    requires Sound(ms)
    ensures Shape(Closed(ms, e), Blocks(ms))
  {
    RemoveThinkingKeeps(ms, e.sessionId, e.taskId, e.ts);
  }

  // ---- Tool events --------------------------------------------------------------------------

  lemma ReplayInputRefines(ms: seq<ChatMessage>, e: Event, tool: ToolInfo, delta: string)
    requires Sound(ms) && (Seen(Blocks(ms), tool.toolUseId, InputMarker(e)) || !ResultIn(Blocks(ms), tool.toolUseId))
    ensures Shape(ReplayInput(ms, e, tool, delta), InputBlock(Blocks(ms), tool.toolUseId, InputMarker(e)))
  {
    hide Sound, Blocks, Closed, AppendToolInput, MarkTool, HasMarker, InputMarker, AddMarker;
    HasMarkerIff(ms, tool.toolUseId, InputMarker(e));
    if !HasMarker(ms, tool.toolUseId, InputMarker(e)) {
      ClosedKeeps(ms, e);
      InputKeepsIff(Closed(ms, e), CallOf(e, tool), delta);
      MarkKeeps(AppendToolInput(Closed(ms, e), CallOf(e, tool), delta), tool.toolUseId, InputMarker(e));
    }
  }

  lemma ReplayOutputRefines(ms: seq<ChatMessage>, e: Event, tool: ToolInfo, chunk: Chunk, k: string)
    requires Sound(ms)
    ensures Shape(ReplayOutput(ms, e, tool, chunk, k), OutputBlock(Blocks(ms), tool.toolUseId, chunk, k))
  {
    hide Sound, Blocks, Closed, AppendToolOutput, MarkTool, HasMarker, AddMarker, AppendOutput;
    HasMarkerIff(ms, tool.toolUseId, k);
    if !HasMarker(ms, tool.toolUseId, k) {
      ClosedKeeps(ms, e);
      OutputKeeps(Closed(ms, e), CallOf(e, tool), chunk.stream, chunk.delta);
      MarkKeeps(AppendToolOutput(Closed(ms, e), CallOf(e, tool), chunk.stream, chunk.delta), tool.toolUseId, k);
    }
  }

  lemma ReplayTextKeeps(ms: seq<ChatMessage>, e: Event, text: Option<TextPart>)
    requires Sound(ms) && (text.Some? ==> TextSpares(ms, DeltaOf(e, text.value)))
    ensures Shape(ReplayText(ms, e, text), Blocks(ms))
  {
    hide Sound, Blocks, AppendTextDelta, TextSpares, DeltaOf;
    if text.Some? {
      TextKeeps(ms, DeltaOf(e, text.value));
    }
  }

  lemma ToolPartsRefine(ms: seq<ChatMessage>, e: Event, tool: ToolInfo, input: Option<string>, output: Option<Chunk>)
    requires Sound(ms)
    requires input.Some? ==> Seen(Blocks(ms), tool.toolUseId, InputMarker(e)) || !ResultIn(Blocks(ms), tool.toolUseId)
    ensures Shape(ReplayToolParts(ms, e, tool, input, output),
                  ContentBlocks(Blocks(ms), e, tool.toolUseId, input.Some?, output))
  {
    hide Sound, Blocks, ReplayInput, ReplayOutput, InputBlock, OutputBlock, HasMarker, InputMarker, OutputMarker, Seen;
    HasMarkerSeen(ms, tool.toolUseId, InputMarker(e));
    var fed := if input.Some? then ReplayInput(ms, e, tool, input.value) else ms;
    if input.Some? {
      ReplayInputRefines(ms, e, tool, input.value);
    }
    if output.Some? {
      ReplayOutputRefines(fed, e, tool, output.value, OutputMarker(e));
    }
  }

  lemma HasMarkerSeen(ms: seq<ChatMessage>, x: string, k: string)
    requires Sound(ms)
    ensures HasMarker(ms, x, k) <==> Seen(Blocks(ms), x, k)
  {
    hide Sound, Blocks, HasMarker;
    HasMarkerIff(ms, x, k);
  }

  lemma ContentRefines(ms: seq<ChatMessage>, e: Event)
    requires Sound(ms) && e.body.ContentDelta? && ContentAdmissible(ms, e)
    ensures Shape(ReplayContentDelta(ms, e, e.body.text, e.body.tool, e.body.input, e.body.output), BlockStep(Blocks(ms), e))
  {
    hide Sound, Blocks, ReplayText, ReplayToolParts, ContentBlocks, ContentTool, Seen, ResultIn, TextSpares;
    ReplayTextKeeps(ms, e, e.body.text);
    ToolPartsRefine(ReplayText(ms, e, e.body.text), e, ContentTool(e, e.body.tool), e.body.input, e.body.output);
  }

  lemma ReplayStartRefines(ms: seq<ChatMessage>, e: Event, tool: Option<ToolInfo>, input: Option<string>)
    requires Sound(ms)
    ensures Shape(ReplayStart(ms, e, tool, input), TouchTool(Blocks(ms), tool))
  {
    hide Sound, Blocks, Closed, StartTool, Touch;
    if tool.Some? {
      ClosedKeeps(ms, e);
      StartKeeps(Closed(ms, e), CallOf(e, tool.value), input);
    }
  }

  lemma ReplayToolUseRefines(ms: seq<ChatMessage>, e: Event, tool: Option<ToolInfo>, input: string)
    requires Sound(ms)
    ensures Shape(ReplayToolUse(ms, e, tool, input), TouchTool(Blocks(ms), tool))
  {
    hide Sound, Blocks, Closed, CompleteTool, Touch;
    if tool.Some? {
      ClosedKeeps(ms, e);
      CompleteKeeps(Closed(ms, e), CallOf(e, tool.value), input);
    }
  }

  lemma ReplayResultRefines(ms: seq<ChatMessage>, e: Event, tool: Option<ToolInfo>, info: ResultInfo)
    requires Sound(ms)
    ensures Shape(ReplayResult(ms, e, tool, info), FinishBlock(Blocks(ms), tool))
  {
    hide Sound, Blocks, Closed, FinishTool, Finish;
    if tool.Some? {
      ClosedKeeps(ms, e);
      FinishKeeps(Closed(ms, e), CallOf(e, tool.value), info);
    }
  }

  lemma ReplayChunkRefines(ms: seq<ChatMessage>, e: Event, chunk: Option<OutputPart>, k: string)
    requires Sound(ms)
    ensures Shape(ReplayChunk(ms, e, chunk, k), ChunkBlock(Blocks(ms), chunk, k))
  {
    hide Sound, Blocks, ReplayOutput, OutputBlock;
    if chunk.Some? {
      ReplayOutputRefines(ms, e, chunk.value.tool, chunk.value.chunk, k);
    }
  }

  lemma ToolEventRefines(ms: seq<ChatMessage>, e: Event)
    requires Sound(ms) && ContentAdmissible(ms, e)
    ensures Shape(ApplyTool(ms, e), BlockStep(Blocks(ms), e))
  {
    hide Sound, Blocks, ContentAdmissible, ReplayStart, ReplayContentDelta, ReplayResult, ReplayChunk, ReplayToolUse,
         TouchTool, FinishBlock, ChunkBlock, ContentBlocks, OutputMarker, CommandMarker;
    match e.body
    case ContentStart(tool) => ReplayStartRefines(ms, e, tool, None);
    case ContentDelta(text, tool, input, output) => ContentRefines(ms, e);
    case ToolUseComplete(tool, input) => ReplayToolUseRefines(ms, e, tool, input);
    case ToolResultEvent(tool, info) => ReplayResultRefines(ms, e, tool, info);
    case ToolStarted(tool, arguments) => ReplayStartRefines(ms, e, tool, arguments);
    case ToolFinished(tool, info) => ReplayResultRefines(ms, e, tool, info);
    case ToolOutputEvent(chunk) => ReplayChunkRefines(ms, e, chunk, OutputMarker(e));
    case CommandStarted(tool) => ReplayStartRefines(ms, e, tool, None);
    case CommandOutput(stream, chunk) => ReplayChunkRefines(ms, e, chunk, CommandMarker(e, stream));
    case CommandFinished(_, tool, info) => ReplayResultRefines(ms, e, tool, info);
    case _ =>
  }

  // ---- Message events and notices --------------------------------------------------------------

  lemma ReplayCompletedKeeps(env: Environment, ms: seq<ChatMessage>, e: Event, id: string, content: string)
    requires Sound(ms)
    ensures Trim(id) == "" || CompletionSpares(ms, CompletionOf(e, id, content)) ==>
              Shape(ReplayCompleted(env, ms, e, id, content), Blocks(ms))
    ensures CompatSpares(ms, CompletionOf(e, id, content)) ==> Shape(ReplayCompat(env, ms, e, id, content), Blocks(ms))
  {
    hide Sound, Blocks, Closed, CompleteMessage, CompleteChatCompat, CompletionSpares, CompatSpares, Trim;
    var c := CompletionOf(e, id, content);
    CompletionKeepsIff(env.resolve, ms, c);
    CompatKeepsIff(env.resolve, ms, c);
    ClosedKeeps(ms, e);
    if CompletionSpares(ms, c) {
      ClosedKeeps(CompleteMessage(env.resolve, ms, c), e);
    }
    if CompatSpares(ms, c) {
      ClosedKeeps(CompleteChatCompat(env.resolve, ms, c), e);
    }
  }

  lemma ReplayTaskEndKeeps(ms: seq<ChatMessage>, e: Event)
    requires Sound(ms) && DropsNoBlock(ms, e.sessionId, e.taskId)
    ensures Shape(ReplayTaskEnd(ms, e), Blocks(ms))
  {
    hide Sound, Blocks, Closed, StopStreaming, DropsNoBlock;
    StopKeeps(ms, e.sessionId, e.taskId);
    ClosedKeeps(StopStreaming(ms, e.sessionId, e.taskId), e);
  }

  lemma MessageEventRefines(env: Environment, ms: seq<ChatMessage>, e: Event)
    requires Sound(ms) && MessageAdmissible(ms, e) && !IsToolEvent(e.body)
    ensures Shape(ApplyMessage(env, ms, e), BlockStep(Blocks(ms), e))
  {
    hide Sound, Blocks, ReplayText, UpdateThinking, ReplayCompat, ReplayCompleted, ReplayTaskEnd, DropsNoBlock, TextSpares,
         CompletionSpares, CompatSpares, CompletionOf, Trim;
    match e.body
    case MessageDelta(text) => ReplayTextKeeps(ms, e, text);
    case ThinkingEvent(text, source) => ThinkingKeeps(ms, ThoughtOf(e, text, source));
    case ChatMessageComplete(id, content) => ReplayCompletedKeeps(env, ms, e, id, content);
    case MessageCompleted(id, content) => ReplayCompletedKeeps(env, ms, e, id, content);
    case TaskEnded(_) => ReplayTaskEndKeeps(ms, e);
    case _ =>
  }

  lemma PermissionRefines(ms: seq<ChatMessage>, e: Event, p: Permission)
    requires Sound(ms)
    ensures Shape(ReplayPermission(ms, e, Some(p)), Blocks(ms))
    ensures AnswerFits(ms, PermissionOf(e, p)) ==>
              Shape(ReplayPermissionAnswer(ms, e, Some(p)), Blocks(ms)) && Shape(ReplayApproval(ms, e, Some(p)), Blocks(ms))
  {
    hide Sound, Blocks, Closed, RequestPermission, ResolvePermission, AnswerFits, Same, ApprovalResolver;
    ClosedKeeps(ms, e);
    RequestKeeps(Closed(ms, e), PermissionOf(e, p));
    if AnswerFits(ms, PermissionOf(e, p)) {
      var answered := ResolvePermission(ms, PermissionOf(e, p));
      ResolveKeepsIff(ms, PermissionOf(e, p));
      ApproverIsSame(p.requestId, p.rejected, e.ts);
      MapKeeps(ApprovalResolver(p.requestId, p.rejected, e.ts), answered);
    }
  }

  lemma SpecialRefines(ms: seq<ChatMessage>, e: Event, s: SpecialEvent)
    requires Sound(ms) && SpecialFits(SpecialGround(ms, e, s), SpecialOf(e, s))
    ensures Shape(ReplaySpecial(ms, e, s), Blocks(ms))
  {
    hide Sound, Blocks, Closed, AppendSpecial, SpecialFits;
    ClosedKeeps(ms, e);
    SpecialKeepsIff(SpecialGround(ms, e, s), SpecialOf(e, s));
  }

  lemma AnswerRefines(ms: seq<ChatMessage>, e: Event, a: Answer)
    requires Sound(ms)
    ensures Shape(ReplayAnswer(ms, e, Some(a)), Blocks(ms))
  {
    hide Sound, Blocks, Same, Answerer;
    AnswererIsSame(a.(now := e.ts));
    MapKeeps(Answerer(a.(now := e.ts)), ms);
  }

  lemma NoticeEventRefines(ms: seq<ChatMessage>, e: Event)
    requires Sound(ms) && NoticeAdmissible(ms, e) && !IsToolEvent(e.body)
    ensures Shape(ApplyNotice(ms, e), BlockStep(Blocks(ms), e))
  {
    hide Sound, Blocks, ReplaySpecial, Closed, RequestPermission, ResolvePermission, ResolveApproval, AnswerQuestion,
         AnswerFits, SpecialFits;
    match e.body
    case PermissionRequested(p) => if p.Some? { PermissionRefines(ms, e, p.value); }
    case PermissionAnswered(p) => if p.Some? { PermissionRefines(ms, e, p.value); }
    case SpecialOccurred(s) => SpecialRefines(ms, e, s);
    case QuestionAnswered(a) => if a.Some? { AnswerRefines(ms, e, a.value); }
    case ApprovalResolved(p) => if p.Some? { PermissionRefines(ms, e, p.value); }
    case _ =>
  }

  /**
   Replaying an event does to the tool blocks exactly what the table machine says: a start or a
   completed call makes sure of one block, output goes into it unless its marker is there, a result
   turns it into an activity, and everything else leaves the blocks alone.
   */
  lemma EventRefines(env: Environment, ms: seq<ChatMessage>, e: Event)
    requires Sound(ms) && Admissible(env, ms, e)
    ensures Sound(ReplayEvent(env, ms, e))
    ensures Blocks(ReplayEvent(env, ms, e)) == if Shows(env, e) then BlockStep(Blocks(ms), e) else Blocks(ms)
  {
    hide Sound, Blocks, ApplyTool, ApplyMessage, ApplyNotice, BlockStep, ContentAdmissible, MessageAdmissible, NoticeAdmissible,
         IsToolEvent, IsMessageEvent;
    if Shows(env, e) {
      if IsToolEvent(e.body) {
        ToolEventRefines(ms, e);
      } else if IsMessageEvent(e.body) {
        MessageEventRefines(env, ms, e);
      } else {
        NoticeEventRefines(ms, e);
      }
    }
  }
}
