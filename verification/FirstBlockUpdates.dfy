/** Every transcript update, seen from the first blocks. */
module FirstBlockUpdates {
  import opened Seqs
  import opened Text
  import ContentDelta
  import opened ChatMessages
  import opened MessageUpdates
  import opened ToolBlocks
  import opened TraceReplay
  import opened BlockInvariants
  import opened BlockUpdates
  import opened PlainUpdates
  import opened GuardedBlocks
  import opened OneBlock
  import opened FirstBlocks

  /** Nothing happens to the first blocks, and no marker is new. */
  ghost predicate Still(ms: seq<ChatMessage>, after: seq<ChatMessage>) {
    Quiet(ms, after, {}) && NamesStay(ms, after)
  }

  lemma StillItself(ms: seq<ChatMessage>)
    requires AllGood(ms)
    ensures Still(ms, ms)
  {
    hide AllGood, MarkedFirst, Held, Named, Carried, OthersEmpty;
  }

  lemma StillTwice(a: seq<ChatMessage>, b: seq<ChatMessage>, c: seq<ChatMessage>)
    requires Still(a, b) && Still(b, c)
    ensures Still(a, c)
  {
    hide AllGood, MarkedFirst, Held, Named, Carried, OthersEmpty;
    OrderlyTwice(a, b, c, {}, {});
  }

  // ---- Rewriting all messages ---------------------------------------------------------------

  lemma {:induction false} MapStill(f: ChatMessage -> ChatMessage, ms: seq<ChatMessage>)
    requires AllGood(ms) && forall m: ChatMessage :: Same(m, f(m))
    ensures Still(ms, Map(f, ms))
  {
    hide Quiet, NamesStay, Same, AllGood;
    MapThins(f, ms, Map(f, ms));
    ThinsQuiet(ms, Map(f, ms));
  }

  lemma {:induction false} ClosedStill(ms: seq<ChatMessage>, sessionId: string, taskId: string, now: int)
    requires AllGood(ms)
    ensures Still(ms, RemoveThinking(ms, sessionId, taskId, now))
  {
    hide Quiet, NamesStay, AllGood, Thins;
    RemoveThinkingThins(ms, sessionId, taskId, now);
    ThinsQuiet(ms, RemoveThinking(ms, sessionId, taskId, now));
  }

  lemma MarkTracks(m: ChatMessage, x: string, k: string)
    requires Good(m)
    ensures var n := WithMarker(x, k)(m);
            && Tracks(m, n) && Good(n) && (Texted(m) ==> Texted(n))
            && (forall j | j in n.metadata.markers :: j == k || j in m.metadata.markers)
            && (m.metadata.toolUseId == Some(x) ==> k in n.metadata.markers)
  {
    hide Trim;
  }

  /** Marking: all first blocks keep what they have, and that of the call gets the marker. */
  lemma {:induction false} MarkQuiet(ms: seq<ChatMessage>, x: string, k: string)
    requires AllGood(ms)
    ensures Quiet(ms, MarkTool(ms, x, k), {k}) && NamesStay(ms, MarkTool(ms, x, k))
    ensures First(ms, x).Some? ==> MarkedFirst(MarkTool(ms, x, k), x, k)
  {
    hide Good, Tracks, Texted, Quiet, NamesStay, WithMarker;
    var after := MarkTool(ms, x, k);
    forall i | 0 <= i < |ms|
      ensures Tracks(ms[i], after[i]) && Good(after[i]) && (Texted(ms[i]) ==> Texted(after[i]))
      ensures forall j | j in after[i].metadata.markers :: j == k || j in ms[i].metadata.markers
    {
      assert ms[i] in ms;
      MarkTracks(ms[i], x, k);
    }
    assert AllGood(after);
    forall j | j in Carried(after) ensures j in Carried(ms) + {k} {
      var n :| n in after && j in n.metadata.markers;
      var i :| 0 <= i < |after| && after[i] == n;
      assert ms[i] in ms;
    }
    TracksQuiet(ms, after, {k});
    if First(ms, x).Some? {
      TracksFirst(ms, after, x);
      var i := FindIndex(BlockOf(x), ms);
      MarkTracks(ms[i], x, k);
    }
  }

  // ---- Tool calls -------------------------------------------------------------------------------

  /** A search that accepts blocks of x only, and all of them, finds the first one. */
  lemma {:induction false} SearchFindsFirst(ms: seq<ChatMessage>, x: string, p: ChatMessage -> bool)
    requires forall m | m in ms :: p(m) <==> IsBlockOf(m, x)
    ensures FindIndex(p, ms) == FindIndex(BlockOf(x), ms)
  {
    hide IsBlockOf, FindIndex;
    var i, j := FindIndex(p, ms), FindIndex(BlockOf(x), ms);
    assert i >= 0 ==> ms[i] in ms;
    assert j >= 0 ==> ms[j] in ms;
    assert forall k | 0 <= k < |ms| :: ms[k] in ms;
  }

  lemma {:induction false} StartFinds(ms: seq<ChatMessage>, x: string)
    requires AllGood(ms)
    ensures FindIndex(StartTarget(x), ms) == FindIndex(BlockOf(x), ms)
  {
    forall m | m in ms ensures StartTarget(x)(m) <==> IsBlockOf(m, x) {
      if m.id == ToolUseId(x) { IdNamesBlock(m, x); }
    }
    SearchFindsFirst(ms, x, StartTarget(x));
  }

  lemma {:induction false} OutputFinds(ms: seq<ChatMessage>, x: string)
    requires AllGood(ms)
    ensures FindIndex(OutputTarget(x), ms) == FindIndex(BlockOf(x), ms)
  {
    forall m | m in ms ensures OutputTarget(x)(m) <==> IsBlockOf(m, x) {
      if m.id == ToolUseId(x) || m.id == ToolActivityId(x) { IdNamesBlock(m, x); }
    }
    SearchFindsFirst(ms, x, OutputTarget(x));
  }

  lemma {:induction false} CompleteFinds(ms: seq<ChatMessage>, x: string)
    requires AllGood(ms)
    ensures FindIndex(CompleteTarget(x), ms) == FindIndex(BlockOf(x), ms)
  {
    forall m | m in ms ensures CompleteTarget(x)(m) <==> IsBlockOf(m, x) {
      if m.id == ToolUseId(x) { IdNamesBlock(m, x); }
      assert Good(m);
    }
    SearchFindsFirst(ms, x, CompleteTarget(x));
  }

  /** A text that is empty or says something. */
  predicate NotBlankText(s: string) {
    s == "" || Trim(s) != []
  }

  lemma {:induction false} TrimmedSays(s: string)
    ensures Trim(s) != [] ==> Trim(Trim(s)) != []
  {
    hide Trim;
    if Trim(s) != [] {
      TrimIsSolid(s);
      SolidIsTrimmed(Trim(s));
    }
  }

  lemma SolidIsTrimmed(s: string)
    requires Solid(s)
    ensures Trim(s) == s
  {
  }

  lemma {:induction false} FirstTextSays(texts: seq<string>)
    requires forall t | t in texts :: NotBlankText(t)
    ensures NotBlankText(FirstText(texts))
    ensures (exists t :: t in texts && t != "") ==> FirstText(texts) != ""
  {
    hide NotBlankText;
    if texts == [] {
      assert NotBlankText("") by { EmptySays(); }
    } else {
      assert texts[0] in texts && forall t | t in texts[1..] :: t in texts;
      FirstTextSays(texts[1..]);
      if texts[0] == "" && exists t :: t in texts && t != "" {
        var t :| t in texts && t != "";
        assert texts == [texts[0]] + texts[1..];
        assert t in texts[1..];
      }
    }
  }

  lemma EmptySays()
    ensures NotBlankText("")
  {
  }

  lemma TrimmedOrSays(o: Option<string>)
    ensures NotBlankText(TrimmedOr(o))
  {
    hide Trim;
    if o.Some? {
      TrimmedSays(o.value);
    }
  }

  lemma DisplaySays(p: Presentation, current: Presentation)
    ensures NotBlankText(InputDisplay(p, current))
  {
    hide TrimmedOr, NotBlankText, FirstText;
    forall o: Option<string> ensures NotBlankText(TrimmedOr(o)) {
      TrimmedOrSays(o);
    }
    FirstTextSays([TrimmedOr(p.displayTitle), TrimmedOr(current.displayTitle),
                   TrimmedOr(p.inputSummary), TrimmedOr(current.inputSummary),
                   TrimmedOr(p.target), TrimmedOr(current.target),
                   TrimmedOr(p.displayTarget), TrimmedOr(current.displayTarget)]);
  }

  lemma NewGood(call: ToolCall, content: string, status: MessageStatus, meta: Metadata)
    ensures var m := NewBlock(call, content, status, meta); Good(m) && IsBlockOf(m, call.toolUseId)
  {
    hide Good, IsBlockOf;
    NewBlockGood(call, content, status, meta);
  }

  lemma StartedTracks(m: ChatMessage, call: ToolCall, input: Option<string>)
    requires Good(m) && IsBlockOf(m, call.toolUseId)
    ensures var n := Started(m, call, input);
            Good(n) && Tracks(m, n) && n.metadata.markers == m.metadata.markers && (Texted(m) ==> Texted(n))
  {
    hide InputDisplay, Trim, ToolLike;
    DisplaySays(call.presentation, m.metadata.presentation);
  }

  lemma StartStill(ms: seq<ChatMessage>, call: ToolCall, input: Option<string>)
    requires AllGood(ms)
    ensures Still(ms, StartTool(ms, call, input)) && First(StartTool(ms, call, input), call.toolUseId).Some?
    ensures InputDisplay(call.presentation, NO_PRESENTATION) != "" ==> Named(StartTool(ms, call, input), call.toolUseId)
  {
    hide Good, Tracks, Texted, Quiet, NamesStay, Started, StartedNew, StartTarget, IsBlockOf, FindIndex, InputDisplay;
    var x := call.toolUseId;
    var i, after := FindIndex(StartTarget(x), ms), StartTool(ms, call, input);
    StartFinds(ms, x);
    if i >= 0 {
      assert ms[i] in ms;
      StartedTracks(ms[i], call, input);
      MarkersCarried(ms, i);
      TrackingUpdate(ms, i, Started(ms[i], call, input));
      FirstUpdated(ms, i, Started(ms[i], call, input), x);
      StartedTitled(ms[i], call, input);
    } else {
      StartedNewSilent(call, input);
      SilentAppend(ms, StartedNew(call, input));
      FirstOfAppend(ms, StartedNew(call, input), x);
    }
  }

  lemma {:induction false} FirstUpdated(ms: seq<ChatMessage>, i: int, m: ChatMessage, x: string)
    requires 0 <= i == FindIndex(BlockOf(x), ms) && Tracks(ms[i], m)
    ensures First(ms[i := m], x) == Some(m)
  {
    hide IsBlockOf, FindIndex, Tracks;
    TracksBlocks(ms[i], m, x);
    FirstAt(ms[i := m], x, i);
  }

  lemma StartedTitled(m: ChatMessage, call: ToolCall, input: Option<string>)
    ensures InputDisplay(call.presentation, NO_PRESENTATION) != "" ==> Texted(Started(m, call, input))
  {
    hide InputDisplay, Trim;
    DisplaySays(call.presentation, m.metadata.presentation);
    TitleShows(call.presentation, m.metadata.presentation);
  }

  /** What an event shows by its own fields it shows whatever is stored. */
  lemma TitleShows(p: Presentation, current: Presentation)
    ensures InputDisplay(p, NO_PRESENTATION) != "" ==> InputDisplay(p, current) != ""
  {
    hide TrimmedOr;
    NothingTrims();
    var own := [TrimmedOr(p.displayTitle), "", TrimmedOr(p.inputSummary), "", TrimmedOr(p.target), "", TrimmedOr(p.displayTarget), ""];
    FirstTextMember(own);
    assert FirstText(own) == InputDisplay(p, NO_PRESENTATION);
    var all := [TrimmedOr(p.displayTitle), TrimmedOr(current.displayTitle),
                TrimmedOr(p.inputSummary), TrimmedOr(current.inputSummary),
                TrimmedOr(p.target), TrimmedOr(current.target),
                TrimmedOr(p.displayTarget), TrimmedOr(current.displayTarget)];
    FirstTextEmpty(all);
    assert all[0] in all && all[2] in all && all[4] in all && all[6] in all;
  }

  lemma NothingTrims()
    ensures TrimmedOr(None) == ""
  {
  }

  lemma {:induction false} FirstTextMember(texts: seq<string>)
    ensures FirstText(texts) != "" ==> FirstText(texts) in texts
  {
    if texts != [] {
      FirstTextMember(texts[1..]);
    }
  }

  lemma {:induction false} FirstTextEmpty(texts: seq<string>)
    ensures FirstText(texts) == "" ==> forall t | t in texts :: t == ""
  {
    if texts != [] {
      FirstTextEmpty(texts[1..]);
      assert texts == [texts[0]] + texts[1..];
    }
  }

  lemma StartedNewSilent(call: ToolCall, input: Option<string>)
    ensures var m := StartedNew(call, input);
            && Good(m) && IsBlockOf(m, call.toolUseId) && OutputOf(m) == NO_OUTPUT && m.metadata.markers == []
            && (InputDisplay(call.presentation, NO_PRESENTATION) != "" ==> Texted(m))
  {
    hide InputDisplay, Trim, Good;
    var display := InputDisplay(call.presentation, NO_PRESENTATION);
    NewGood(call, display, Streaming, StartMetadata(NO_METADATA, input, display));
    DisplaySays(call.presentation, NO_PRESENTATION);
  }

  lemma WithInputTracks(m: ChatMessage, call: ToolCall, delta: string)
    requires Good(m) && m.id == ToolUseId(call.toolUseId)
    ensures var n := WithInput(m, call, delta);
            Good(n) && Tracks(m, n) && n.metadata.markers == m.metadata.markers && (Texted(m) ==> Texted(n))
  {
    hide InputDisplay, Trim, TrimStart, ContentDelta.AppendDelta;
    IdNamesBlock(m, call.toolUseId);
    ToolIds(call.toolUseId);
    ToolIdsInjective(call.toolUseId, call.toolUseId);
    DisplaySays(call.presentation, m.metadata.presentation);
  }

  lemma InputNewSilent(call: ToolCall, delta: string)
    ensures var m := InputNew(call, delta);
            Good(m) && IsBlockOf(m, call.toolUseId) && OutputOf(m) == NO_OUTPUT && m.metadata.markers == []
  {
    hide InputDisplay, Good, TrimStart, ContentDelta.AppendDelta;
    var display := InputDisplay(call.presentation, NO_PRESENTATION);
    NewGood(call, display, Streaming, StartMetadata(NO_METADATA, Some(TrimStart(ContentDelta.AppendDelta("", delta))), display));
  }

  /** Input goes to a block of the call, though not always the first one. */
  lemma InputStill(ms: seq<ChatMessage>, call: ToolCall, delta: string)
    requires AllGood(ms)
    ensures Still(ms, AppendToolInput(ms, call, delta)) && First(AppendToolInput(ms, call, delta), call.toolUseId).Some?
  {
    hide Good, Tracks, Texted, Quiet, NamesStay, WithInput, InputNew, IsBlockOf, FindIndex, ToolUseId;
    var x := call.toolUseId;
    var i := FindIndex(HasId(ToolUseId(x)), ms);
    if i >= 0 {
      assert ms[i] in ms;
      WithInputTracks(ms[i], call, delta);
      MarkersCarried(ms, i);
      TrackingUpdate(ms, i, WithInput(ms[i], call, delta));
      assert IsBlockOf(ms[i], x) by { IdNamesBlock(ms[i], x); }
      TracksBlocks(ms[i], WithInput(ms[i], call, delta), x);
      HasBlock(ms[i := WithInput(ms[i], call, delta)], x, i);
    } else {
      InputNewSilent(call, delta);
      SilentAppend(ms, InputNew(call, delta));
      FirstOfAppend(ms, InputNew(call, delta), x);
    }
  }

  lemma HasBlock(ms: seq<ChatMessage>, x: string, i: int)
    requires 0 <= i < |ms| && IsBlockOf(ms[i], x)
    ensures First(ms, x).Some?
  {
    hide IsBlockOf, FindIndex;
  }

  /** The texts a completed call may show say something. */
  predicate InputSays(call: ToolCall, input: string) {
    NotBlankText(input) && (call.toolName.Some? ==> NotBlankText(call.toolName.value))
  }

  lemma CompletedSays(call: ToolCall, current: Presentation, input: string)
    requires InputSays(call, input)
    ensures Trim(CompletedContent(call, current, input)) != []
  {
    hide InputDisplay, FirstText, Trim;
    var name := if call.toolName.Some? then call.toolName.value else "";
    DisplaySays(call.presentation, current);
    LabelSays();
    EmptySays();
    var texts := [InputDisplay(call.presentation, current), input, name, TOOL_CALL_LABEL];
    assert TOOL_CALL_LABEL in texts;
    FirstTextSays(texts);
  }

  lemma LabelSays()
    ensures TOOL_CALL_LABEL != "" && NotBlankText(TOOL_CALL_LABEL)
  {
    TrimIsSolid(TOOL_CALL_LABEL);
    assert !IsSpace(TOOL_CALL_LABEL[0]);
  }

  lemma CompletedTracks(m: ChatMessage, call: ToolCall, input: string)
    requires Good(m) && IsBlockOf(m, call.toolUseId)
    ensures var n := CompletedCall(m, call, input);
            Good(n) && Tracks(m, n) && n.metadata.markers == m.metadata.markers && (InputSays(call, input) ==> Texted(n))
  {
    hide CompletedContent, Trim, ToolLike;
    if InputSays(call, input) {
      CompletedSays(call, m.metadata.presentation, input);
    }
  }

  lemma CompletedNewSilent(call: ToolCall, input: string)
    ensures var m := CompletedNew(call, input);
            && Good(m) && IsBlockOf(m, call.toolUseId) && OutputOf(m) == NO_OUTPUT && m.metadata.markers == []
            && (InputSays(call, input) ==> Texted(m))
  {
    hide CompletedContent, Trim, Good;
    var content := CompletedContent(call, NO_PRESENTATION, input);
    NewGood(call, content, Completed, CompletedMetadata(NO_METADATA, content, input));
    if InputSays(call, input) {
      CompletedSays(call, NO_PRESENTATION, input);
    }
  }

  lemma CompleteQuiet(ms: seq<ChatMessage>, call: ToolCall, input: string)
    requires AllGood(ms)
    ensures var after := CompleteTool(ms, call, input);
            Quiet(ms, after, {}) && (InputSays(call, input) ==> NamesStay(ms, after) && Named(after, call.toolUseId))
  {
    hide Good, Tracks, Texted, Quiet, NamesStay, CompletedCall, CompletedNew, CompleteTarget, IsBlockOf, FindIndex, InputSays;
    var x := call.toolUseId;
    var i, after := FindIndex(CompleteTarget(x), ms), CompleteTool(ms, call, input);
    CompleteFinds(ms, x);
    if i >= 0 {
      assert ms[i] in ms;
      CompletedTracks(ms[i], call, input);
      MarkersCarried(ms, i);
      TrackingUpdate(ms, i, CompletedCall(ms[i], call, input));
      FirstUpdated(ms, i, CompletedCall(ms[i], call, input), x);
    } else {
      CompletedNewSilent(call, input);
      SilentAppend(ms, CompletedNew(call, input));
      FirstOfAppend(ms, CompletedNew(call, input), x);
    }
  }

  /** The text of a result says something. */
  predicate ResultSays(r: ResultInfo) {
    NotBlankText(r.formattedContent)
  }

  lemma ResultContentSays(call: ToolCall, r: ResultInfo)
    requires ResultSays(r)
    ensures NotBlankText(ResultContent(call, r))
  {
    hide TrimmedOr, NotBlankText, FirstText;
    TrimmedOrSays(call.presentation.displaySummary);
    TrimmedOrSays(r.resultSummary);
    FirstTextSays([TrimmedOr(call.presentation.displaySummary), TrimmedOr(r.resultSummary), r.formattedContent]);
  }

  lemma ResultTracks(m: ChatMessage, call: ToolCall, r: ResultInfo)
    requires Good(m) && IsBlockOf(m, call.toolUseId)
    ensures var n := WithResult(m, call, r);
            Good(n) && Tracks(m, n) && n.metadata.markers == m.metadata.markers && (ResultSays(r) && Texted(m) ==> Texted(n))
  {
    hide ResultContent, Trim, FirstText;
    ToolIds(call.toolUseId);
    assert ToolActivityId(call.toolUseId)[0] == 't';
    var content := ResultContent(call, r);
    var input := if m.metadata.inputText.Some? then m.metadata.inputText.value else m.content;
    FirstOfTwo(content, input);
    FirstOfTwo(input, content);
    if ResultSays(r) {
      ResultContentSays(call, r);
    }
  }

  lemma FirstOfTwo(a: string, b: string)
    ensures FirstText([a, b]) == if a != "" then a else b
  {
    assert [a, b][1..] == [b] && [b][1..] == [];
    assert FirstText([b]) == b;
  }

  lemma AloneGood(call: ToolCall, r: ResultInfo, previous: Option<ChatMessage>)
    ensures var m := ResultMessage(call, r, previous); Good(m) && !IsToolBlock(m) && m.metadata.markers == []
  {
    hide SummaryDisplay, FirstText;
    ToolIds(call.toolUseId);
    assert ToolResultId(call.toolUseId)[0] == 't';
  }

  lemma {:induction false} FinishQuiet(ms: seq<ChatMessage>, call: ToolCall, r: ResultInfo)
    requires AllGood(ms)
    ensures var after := FinishTool(ms, call, r); Quiet(ms, after, {}) && (ResultSays(r) ==> NamesStay(ms, after))
  {
    hide Good, Tracks, Texted, Orderly, HeldStays, NamesStay, WithResult, ResultMessage, WithoutId, IsBlockOf, FindIndex, ResultSays, Thins;
    var x, id := call.toolUseId, ToolResultId(call.toolUseId);
    var block, i := FindIndex(BlockOf(x), ms), FindIndex(HasId(id), ms);
    if block >= 0 {
      assert ms[block] in ms;
      var m := WithResult(ms[block], call, r);
      ResultTracks(ms[block], call, r);
      MarkersCarried(ms, block);
      TrackingUpdate(ms, block, m);
      var updated := ms[block := m];
      QuietIsGood(ms, updated, {});
      NoBlockHasResultId(updated, x);
      WithoutIdThins(updated, block, id);
      ThinsQuiet(updated, WithoutId(updated, block, id));
      var none: set<string> := {};
      OrderlyTwice(ms, updated, WithoutId(updated, block, id), none, none);
      assert none + none == none;
    } else {
      var previous := if i >= 0 then Some(ms[i]) else None;
      NoBlockHasResultId(ms, x);
      assert i >= 0 ==> ms[i] in ms;
      AloneGood(call, r, previous);
      PlainUpsert(ms, i, ResultMessage(call, r, previous));
    }
  }

  lemma QuietIsGood(ms: seq<ChatMessage>, after: seq<ChatMessage>, news: set<string>)
    requires Orderly(ms, after, news)
    ensures AllGood(after)
  {
    hide AllGood, MarksStay, OthersEmpty, Carried;
  }

  // ---- Output ---------------------------------------------------------------------------------------

  lemma WithOutputGood(m: ChatMessage, call: ToolCall, stream: Stream, delta: string)
    requires Good(m) && IsBlockOf(m, call.toolUseId)
    ensures var n := WithOutput(m, call, stream, delta);
            && Good(n) && IsBlockOf(n, call.toolUseId) && n.metadata.markers == m.metadata.markers
            && (Texted(m) ==> Texted(n)) && OutputOf(n) == AppendOutput(OutputOf(m), stream, delta)
  {
    hide AppendOutput, Trim, ToolLike;
  }

  lemma OutputNewGood(call: ToolCall, stream: Stream, delta: string)
    ensures var m := OutputNew(call, stream, delta);
            && Good(m) && IsBlockOf(m, call.toolUseId) && m.metadata.markers == []
            && OutputOf(m) == AppendOutput(NO_OUTPUT, stream, delta)
  {
    hide AppendOutput, Good;
    NewGood(call, "", Streaming, NO_METADATA.(output := Some(AppendOutput(NO_OUTPUT, stream, delta))));
  }

  /** Output goes into the first block of its call. */
  lemma OutputGoesFirst(ms: seq<ChatMessage>, call: ToolCall, stream: Stream, delta: string)
    requires AllGood(ms)
    ensures var after, x := AppendToolOutput(ms, call, stream, delta), call.toolUseId;
            && Orderly(ms, after, {}) && NamesStay(ms, after) && First(after, x).Some?
            && HeldBut(ms, after, x, AppendOutput(Held(ms, x), stream, delta))
  {
    hide Good, Texted, Orderly, NamesStay, WithOutput, OutputNew, OutputTarget, IsBlockOf, FindIndex, AppendOutput, OutputOf;
    var x := call.toolUseId;
    var i := FindIndex(OutputTarget(x), ms);
    OutputFinds(ms, x);
    if i >= 0 {
      assert ms[i] in ms;
      var m := WithOutput(ms[i], call, stream, delta);
      WithOutputGood(ms[i], call, stream, delta);
      OutputUpdate(ms, i, m, x);
      FirstOfUpdate(ms, i, m, x, x);
    } else {
      OutputNewGood(call, stream, delta);
      OutputAppend(ms, OutputNew(call, stream, delta), x);
      FirstOfAppend(ms, OutputNew(call, stream, delta), x);
    }
  }

  // ---- Text and completions ---------------------------------------------------------------------------

  lemma TextUpdatedGood(m: ChatMessage, d: TextDelta)
    requires Good(m) && !IsToolBlock(m) && !ToolLike(TextTargetId(d))
    ensures var n := TextUpdated(m, d); Good(n) && !IsToolBlock(n) && n.metadata.markers == m.metadata.markers
  {
    hide TextTargetId, ToolLike, HasBlockIdentity, Truthy, ContentDelta.AppendDelta, ContentDelta.FirstContent;
  }

  lemma BareGood(m: ChatMessage)
    requires BareMetadata(m.metadata) && !ToolLike(m.id)
    ensures Good(m) && !IsToolBlock(m) && m.metadata.markers == []
  {
    hide ToolLike, IdMatchesKind;
  }

  lemma SourceStill(ms: seq<ChatMessage>, d: TextDelta)
    requires AllGood(ms) && BaseIsNoBlock(ms, d)
    ensures Still(ms, TextSource(ms, d))
  {
    hide Quiet, NamesStay, AllGood, Thins, HasBlockIdentity, NotEmptyBase, Filter, IsToolBlock;
    if HasBlockIdentity(d) && Trim(d.messageId) != [] {
      FilterThins(NotEmptyBase(d), ms);
      ThinsQuiet(ms, Filter(NotEmptyBase(d), ms));
    } else {
      StillItself(ms);
    }
  }

  lemma TextStill(ms: seq<ChatMessage>, d: TextDelta)
    requires AllGood(ms) && PlainText(d)
    ensures Still(ms, AppendTextDelta(ms, d))
  {
    hide Good, Still, TextUpdated, TextCreated, TextSource, TargetIndex, TextTargetId, Upsert, ToolLike, IsToolBlock, BareMetadata;
    var source, after := TextSource(ms, d), AppendTextDelta(ms, d);
    TextIdsSuffice(ms, d);
    SourceStill(ms, d);
    StillIsGood(ms, source);
    TextTargetIsPlain(source, TextTargetId(d), d.sessionId, d.taskId, !HasBlockIdentity(d));
    var i := TargetIndex(source, TextTargetId(d), d.sessionId, d.taskId, !HasBlockIdentity(d));
    var m := if i >= 0 then TextUpdated(source[i], d) else TextCreated(d);
    if i >= 0 {
      assert source[i] in source;
      TextUpdatedGood(source[i], d);
      MarkersCarried(source, i);
    } else {
      TextBare(d);
      BareGood(m);
    }
    PlainStill(source, i, m);
    StillTwice(ms, source, after);
  }

  lemma StillIsGood(ms: seq<ChatMessage>, after: seq<ChatMessage>)
    requires Still(ms, after)
    ensures AllGood(after)
  {
    hide AllGood, MarksStay, OthersEmpty, Carried;
  }

  lemma PlainStill(ms: seq<ChatMessage>, i: int, m: ChatMessage)
    requires i < |ms| && AllGood(ms) && Good(m) && !IsToolBlock(m) && (i >= 0 ==> !IsToolBlock(ms[i]))
    requires forall k | k in m.metadata.markers :: k in Carried(ms)
    ensures Still(ms, Upsert(ms, i, m))
  {
    hide Good, AllGood, Carried, Orderly, HeldStays, NamesStay, IsToolBlock, Upsert;
    PlainUpsert(ms, i, m);
  }

  lemma CompletedTextGood(resolve: Resolver, m: ChatMessage, c: Completion)
    requires Good(m) && !IsToolBlock(m) && !ToolLike(c.messageId)
    ensures var n := CompletedText(resolve, m, c); Good(n) && !IsToolBlock(n) && n.metadata.markers == m.metadata.markers
  {
    hide ToolLike;
  }

  lemma CompletionStill(resolve: Resolver, ms: seq<ChatMessage>, c: Completion)
    requires AllGood(ms) && !ToolLike(c.messageId)
    ensures Still(ms, CompleteMessage(resolve, ms, c))
  {
    hide Good, Still, CompletedText, CompletionCreated, TargetIndex, ToolLike, Same, SettleBlock, SettleTask, Trim, FindIndex, CompletesBlockOf, IsToolBlock, Map, BareMetadata;
    var i := TargetIndex(ms, c.messageId, c.sessionId, c.taskId, true);
    SettlersAreSame(c);
    if FindIndex(CompletesBlockOf(c), ms) >= 0 {
      MapStill(SettleBlock(c), ms);
    } else if i >= 0 {
      TextTargetIsPlain(ms, c.messageId, c.sessionId, c.taskId, true);
      assert ms[i] in ms;
      CompletedTextGood(resolve, ms[i], c);
      MarkersCarried(ms, i);
      PlainStill(ms, i, CompletedText(resolve, ms[i], c));
    } else if Trim(c.content) != "" {
      CompletionBare(c);
      BareGood(CompletionCreated(c));
      PlainStill(ms, i, CompletionCreated(c));
    } else {
      StillItself(ms);
    }
  }

  lemma CompatStill(resolve: Resolver, ms: seq<ChatMessage>, c: Completion)
    requires AllGood(ms) && !ToolLike(c.messageId)
    ensures Still(ms, CompleteChatCompat(resolve, ms, c))
  {
    hide AllGood, Still, CompleteMessage, SettleBlock, SettleTask, Map, FindIndex, ToolLike, Same;
    SettlersAreSame(c);
    MapStill(SettleBlock(c), ms);
    MapStill(SettleTask(c), ms);
    var next := Map(SettleTask(c), ms);
    StillIsGood(ms, next);
    CompletionStill(resolve, next, c);
    StillTwice(ms, next, CompleteMessage(resolve, next, c));
  }

  // ---- Thinking, permissions and special events ----------------------------------------------------------

  lemma ThoughtGood(m: ChatMessage, u: ThinkingUpdate)
    requires Good(m) && IsThinking(m)
    ensures var n := ContinuedThinking(m, u);
            Good(n) && !IsToolBlock(n) && !IsToolBlock(m) && n.metadata.markers == m.metadata.markers
  {
    hide ContinuedThinkingContent, IncomingTransient, ToolLike;
  }

  lemma NewThoughtGood(ms: seq<ChatMessage>, u: ThinkingUpdate)
    ensures var n := NewThinking(NewThinkingId(ms, u), u); Good(n) && !IsToolBlock(n) && n.metadata.markers == []
  {
    hide ThinkingContent, IncomingTransient, ToolLike, NewThinkingId;
    ThinkingIdsPlain(ms, u);
  }

  lemma ThinkingStill(ms: seq<ChatMessage>, u: ThinkingUpdate)
    requires AllGood(ms)
    ensures Still(ms, UpdateThinking(ms, u))
  {
    hide Good, Still, ContinuedThinking, NewThinking, NewThinkingId, ThinkingIndex, IsToolBlock, Upsert;
    var i := ThinkingIndex(ms, u);
    if i >= 0 {
      assert ms[i] in ms;
      ThoughtGood(ms[i], u);
      MarkersCarried(ms, i);
      PlainStill(ms, i, ContinuedThinking(ms[i], u));
    } else {
      NewThoughtGood(ms, u);
      PlainStill(ms, i, NewThinking(NewThinkingId(ms, u), u));
    }
  }

  lemma RequestGood(p: Permission, createdAt: int, status: Option<MessageStatus>)
    ensures var m := PermissionMessage(p, createdAt, status); Good(m) && !IsToolBlock(m) && m.metadata.markers == []
  {
    hide ToolLike, PermissionId;
    PermissionIdPlain(p.requestId);
  }

  lemma {:induction false} PermissionIsPlain(ms: seq<ChatMessage>, p: Permission)
    requires AllGood(ms)
    ensures var i := FindIndex(HasId(PermissionId(p.requestId)), ms); i >= 0 ==> !IsToolBlock(ms[i]) && ms[i] in ms
  {
    hide Good, PermissionId;
    PermissionIdPlain(p.requestId);
    FoundIsPlain(ms, PermissionId(p.requestId));
    var i := FindIndex(HasId(PermissionId(p.requestId)), ms);
    assert i >= 0 ==> ms[i] in ms;
  }

  lemma RequestStill(ms: seq<ChatMessage>, p: Permission)
    requires AllGood(ms)
    ensures Still(ms, RequestPermission(ms, p))
  {
    hide Good, Still, PermissionMessage, IsToolBlock, PermissionId, FindIndex;
    var i := FindIndex(HasId(PermissionId(p.requestId)), ms);
    PermissionIsPlain(ms, p);
    var m := PermissionMessage(p, if i >= 0 then ms[i].createdAt else p.now, None);
    RequestGood(p, if i >= 0 then ms[i].createdAt else p.now, None);
    PlainStill(ms, i, m);
  }

  lemma ResolvedGood(m: ChatMessage, p: Permission)
    requires Good(m) && Guarded(m) && m.id == PermissionId(p.requestId)
    ensures var n := PermissionResolved(m, p); Good(n) && !IsToolBlock(n) && n.metadata.markers == m.metadata.markers
  {
    PermissionIdPlain(p.requestId);
    assert "permission_request:" <= PermissionId(p.requestId);
  }

  /** An answer may move its message to another call; the blocks stay. */
  lemma ResolveStill(ms: seq<ChatMessage>, p: Permission)
    requires AllGood(ms) && AllGuarded(ms)
    ensures Still(ms, ResolvePermission(ms, p))
  {
    hide Good, Guarded, Still, PermissionMessage, PermissionResolved, IsToolBlock, PermissionId;
    var i := FindIndex(HasId(PermissionId(p.requestId)), ms);
    PermissionIsPlain(ms, p);
    if i >= 0 {
      ResolvedGood(ms[i], p);
      MarkersCarried(ms, i);
      PlainStill(ms, i, PermissionResolved(ms[i], p));
    } else {
      RequestGood(p, p.now, DecisionStatus(p.rejected));
      PlainStill(ms, i, PermissionMessage(p, p.now, DecisionStatus(p.rejected)));
      StillItself(ms);
    }
  }

  lemma SpecialGood(s: SpecialEvent, previous: Option<ChatMessage>)
    requires previous.Some? ==> Good(previous.value)
    ensures var n := SpecialMessage(s, previous);
            && Good(n) && !IsToolBlock(n)
            && (n.metadata.markers == [] || (previous.Some? && n.metadata.markers == previous.value.metadata.markers))
  {
    hide StableKey, SpecialId, ToolLike;
    SpecialIdPlain(s);
  }

  lemma SpecialStill(ms: seq<ChatMessage>, s: SpecialEvent)
    requires AllGood(ms)
    ensures Still(ms, AppendSpecial(ms, s))
  {
    hide Good, Still, SpecialMessage, SpecialId, IsToolBlock;
    var i := FindIndex(HasId(SpecialId(s)), ms);
    SpecialIdPlain(s);
    FoundIsPlain(ms, SpecialId(s));
    if i >= 0 {
      assert ms[i] in ms;
      MarkersCarried(ms, i);
    }
    var previous := if i >= 0 then Some(ms[i]) else None;
    SpecialGood(s, previous);
    PlainStill(ms, i, SpecialMessage(s, previous));
  }

  // ---- The end of a task -------------------------------------------------------------------------------------

  /** The end of the task drops the first block of the call as empty. */
  predicate Drops(ms: seq<ChatMessage>, sessionId: string, taskId: string, x: string) {
    First(ms, x).Some? && DroppedWhenStopped(First(ms, x).value, sessionId, taskId)
  }

  lemma StopperTracks(m: ChatMessage, sessionId: string, taskId: string)
    ensures var n := Stopper(sessionId, taskId)(m);
            && Tracks(m, n) && n.metadata.markers == m.metadata.markers
            && (Texted(n) <==> Texted(m)) && OutputOf(n) == OutputOf(m)
            && (KeptWhenStopped(sessionId, taskId)(n) <==> !DroppedWhenStopped(m, sessionId, taskId))
            && (Texted(m) ==> !DroppedWhenStopped(m, sessionId, taskId))
  {
    hide Trim;
  }

  /** What the end of a task does to the first block of one call. */
  lemma StopFirst(ms: seq<ChatMessage>, sessionId: string, taskId: string, x: string)
    requires AllGood(ms) && OthersEmpty(ms)
    ensures var after := StopStreaming(ms, sessionId, taskId);
            && Held(after, x) == (if Drops(ms, sessionId, taskId, x) then NO_OUTPUT else Held(ms, x))
            && (!Drops(ms, sessionId, taskId, x) ==> forall k | MarkedFirst(ms, x, k) :: MarkedFirst(after, x, k))
            && (Named(ms, x) ==> Named(after, x))
  {
    hide Tracks, Texted, DroppedWhenStopped, KeptWhenStopped, Filter, OthersEmpty, AllGood, OutputOf, Map, Stopper, IsBlockOf, FindIndex;
    var stopped := Map(Stopper(sessionId, taskId), ms);
    forall i | 0 <= i < |ms| ensures Tracks(ms[i], stopped[i]) {
      StopperTracks(ms[i], sessionId, taskId);
    }
    TracksFirst(ms, stopped, x);
    TracksOthers(ms, stopped);
    FilterFirst(KeptWhenStopped(sessionId, taskId), stopped, x);
    var i := FindIndex(BlockOf(x), ms);
    if i >= 0 {
      StopperTracks(ms[i], sessionId, taskId);
    }
  }

  lemma {:induction false} StopOrderly(ms: seq<ChatMessage>, sessionId: string, taskId: string)
    requires AllGood(ms) && OthersEmpty(ms)
    ensures var after := StopStreaming(ms, sessionId, taskId);
            AllGood(after) && OthersEmpty(after) && Carried(after) <= Carried(ms)
  {
    hide Good, Same, KeptWhenStopped, Filter, OthersEmpty, Map, Stopper;
    var stopped, p := Map(Stopper(sessionId, taskId), ms), KeptWhenStopped(sessionId, taskId);
    StopperIsSame(sessionId, taskId);
    MapStill(Stopper(sessionId, taskId), ms);
    FilterOthers(p, stopped);
    FilterMembers(p, stopped);
  }
}
