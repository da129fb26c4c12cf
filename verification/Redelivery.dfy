/** Updates that a second delivery of the same event leaves alone, and the exact exception for text. */
module Redelivery {
  import opened Seqs
  import opened Text
  import opened ChatMessages
  import opened ContentDelta
  import opened MessageUpdates
  import opened ToolBlocks
  import opened TextBlocks

  lemma {:induction false} FirstIndexIs(p: ChatMessage -> bool, ms: seq<ChatMessage>, k: nat)
    requires k < |ms| && p(ms[k]) && forall j | 0 <= j < k :: !p(ms[j])
    ensures FindIndex(p, ms) == k
  {
  }

  // ---- Text -------------------------------------------------------------------------------

  /** The delta is merged into streamed text rather than becoming the first content of a message. */
  predicate Continues(ms: seq<ChatMessage>, d: TextDelta) {
    TextTarget(ms, d) >= 0 && !TextSource(ms, d)[TextTarget(ms, d)].placeholder
  }

  lemma MergedTwice(content: string, delta: string)
    ensures AppendDelta(AppendDelta(content, delta), delta) == AppendDelta(content, delta)
  {
    hide AppendDelta;
    AppendedHolds(content, delta);
    AbsorbedIff(AppendDelta(content, delta), delta);
  }

  lemma UpdatedTwice(m: ChatMessage, d: TextDelta)
    ensures TextUpdated(TextUpdated(m, d), d) == TextUpdated(m, d) <==> !m.placeholder || !HasCrlf(Trim(d.delta))
  {
    hide AppendDelta, FirstContent, HasCrlf, Trim, TextTargetId, HasBlockIdentity, Truthy;
    MergedTwice(m.content, d.delta);
    FirstRedeliveryIff(d.delta);
  }

  lemma CreatedTwice(d: TextDelta)
    ensures TextUpdated(TextCreated(d), d) == TextCreated(d) <==> !HasCrlf(Trim(d.delta))
  {
    hide AppendDelta, FirstContent, HasCrlf, Trim, TextTargetId, HasBlockIdentity, Truthy;
    FirstRedeliveryIff(d.delta);
  }

  /** What the delta wrote is no empty base message. */
  lemma WrittenIsKept(m: ChatMessage, d: TextDelta)
    requires HasBlockIdentity(d) && Trim(d.messageId) != []
    ensures NotEmptyBase(d)(TextUpdated(m, d)) && NotEmptyBase(d)(TextCreated(d))
  {
    hide AppendDelta, FirstContent, TextTargetId, Truthy;
    assert d.messageId != "" by { assert Trim("") == []; }
  }

  lemma UpsertFilters(p: ChatMessage -> bool, ms: seq<ChatMessage>, i: int, m: ChatMessage)
    requires i < |ms| && p(m) && forall n | n in ms :: p(n)
    ensures Filter(p, Upsert(ms, i, m)) == Upsert(ms, i, m)
  {
    var after := Upsert(ms, i, m);
    assert forall n | n in after :: n == m || n in ms;
    FilterAll(p, after);
  }

  lemma SourceAgain(ms: seq<ChatMessage>, d: TextDelta)
    ensures TextSource(AppendTextDelta(ms, d), d) == AppendTextDelta(ms, d)
  {
    hide TextUpdated, TextCreated, NotEmptyBase, HasBlockIdentity, Upsert, Trim, TargetIndex;
    var source, i := TextSource(ms, d), TextTarget(ms, d);
    if HasBlockIdentity(d) && Trim(d.messageId) != [] {
      FilterMembers(NotEmptyBase(d), ms);
      WrittenIsKept(if i >= 0 then source[i] else TextCreated(d), d);
      UpsertFilters(NotEmptyBase(d), source, i, if i >= 0 then TextUpdated(source[i], d) else TextCreated(d));
    }
  }

  lemma TargetAgain(ms: seq<ChatMessage>, d: TextDelta)
    ensures var i, once := TextTarget(ms, d), AppendTextDelta(ms, d);
            TextTarget(once, d) == if i >= 0 then i else |TextSource(ms, d)|
  {
    hide TextTargetId, HasBlockIdentity, TextSource, AttachIndex, WithBlockMetadata, AppendDelta, FirstContent, AsTextMessage;
    var source, i, once := TextSource(ms, d), TextTarget(ms, d), AppendTextDelta(ms, d);
    SourceAgain(ms, d);
    FirstIndexIs(HasId(TextTargetId(d)), once, if i >= 0 then i else |source|);
  }

  /**
   Delivering a text delta twice leaves the same transcript as delivering it once, unless it was the
   first content of its message and its trimmed text contains a CRLF.
   */
  lemma TextRedeliveryIff(ms: seq<ChatMessage>, d: TextDelta)
    ensures AppendTextDelta(AppendTextDelta(ms, d), d) == AppendTextDelta(ms, d)
            <==> Continues(ms, d) || !HasCrlf(Trim(d.delta))
  {
    hide TextUpdated, TextCreated, TextSource, TargetIndex, HasCrlf, Trim, TextTargetId, HasBlockIdentity;
    var source, i, once := TextSource(ms, d), TextTarget(ms, d), AppendTextDelta(ms, d);
    var k := if i >= 0 then i else |source|;
    SourceAgain(ms, d);
    TargetAgain(ms, d);
    if i >= 0 {
      UpdatedTwice(source[i], d);
    } else {
      CreatedTwice(d);
    }
    assert AppendTextDelta(once, d) == once[k := TextUpdated(once[k], d)];
    assert once[k := once[k]] == once;
  }

  // ---- The tool boundary --------------------------------------------------------------------

  predicate Settles(m: ChatMessage, sessionId: string, taskId: string) {
    ClosesThinking(m, sessionId, taskId) ==> !IsTransient(m) && !m.streaming && m.status != Some(Streaming)
  }

  function OutsideThinking(sessionId: string, taskId: string): ChatMessage -> bool {
    (m: ChatMessage) => !ClosesThinking(m, sessionId, taskId)
  }

  /** Behind a tool boundary no thinking of the task is transient or streaming, and nothing else has changed. */
  lemma {:induction false} BoundaryCloses(ms: seq<ChatMessage>, sessionId: string, taskId: string, now: int)
    ensures forall m | m in RemoveThinking(ms, sessionId, taskId, now) :: Settles(m, sessionId, taskId)
    ensures Filter(OutsideThinking(sessionId, taskId), RemoveThinking(ms, sessionId, taskId, now))
            == Filter(OutsideThinking(sessionId, taskId), ms)
  {
    hide Filter, AfterThinking, Settles, ClosesThinking;
    if ms != [] {
      var init, last := ms[..|ms| - 1], ms[|ms| - 1];
      BoundaryCloses(init, sessionId, taskId, now);
      assert ms == init + [last];
      var out := OutsideThinking(sessionId, taskId);
      FilterAppend(out, init, [last]);
      FilterAppend(out, RemoveThinking(init, sessionId, taskId, now), AfterThinking(last, sessionId, taskId, now));
      OneCloses(last, sessionId, taskId, now);
    }
  }

  lemma OneCloses(m: ChatMessage, sessionId: string, taskId: string, now: int)
    ensures var after := AfterThinking(m, sessionId, taskId, now);
            && (forall n | n in after :: Settles(n, sessionId, taskId))
            && Filter(OutsideThinking(sessionId, taskId), after) == Filter(OutsideThinking(sessionId, taskId), [m])
  {
    hide StatusLabel;
  }

  lemma SettledStays(m: ChatMessage, sessionId: string, taskId: string, now: int)
    requires Settles(m, sessionId, taskId)
    ensures AfterThinking(m, sessionId, taskId, now) == [m]
  {
    hide IsTransient;
  }

  lemma {:induction false} NothingToClose(ms: seq<ChatMessage>, sessionId: string, taskId: string, now: int)
    requires forall m | m in ms :: Settles(m, sessionId, taskId)
    ensures RemoveThinking(ms, sessionId, taskId, now) == ms
  {
    hide Settles, AfterThinking;
    if ms != [] {
      var init, last := ms[..|ms| - 1], ms[|ms| - 1];
      NothingToClose(init, sessionId, taskId, now);
      SettledStays(last, sessionId, taskId, now);
      assert ms == init + [last];
    }
  }

  /** A second boundary finds nothing to do. */
  lemma {:induction false} BoundaryTwice(ms: seq<ChatMessage>, sessionId: string, taskId: string, now: int, later: int)
    ensures var once := RemoveThinking(ms, sessionId, taskId, now); RemoveThinking(once, sessionId, taskId, later) == once
  {
    hide Settles;
    BoundaryCloses(ms, sessionId, taskId, now);
    NothingToClose(RemoveThinking(ms, sessionId, taskId, now), sessionId, taskId, later);
  }

  // ---- The end of a task ---------------------------------------------------------------------

  lemma {:induction false} MapFixed(f: ChatMessage -> ChatMessage, ms: seq<ChatMessage>)
    requires forall m | m in ms :: f(m) == m
    ensures Map(f, ms) == ms
  {
  }

  lemma StoppedOnce(m: ChatMessage, sessionId: string, taskId: string)
    ensures var n := Stopper(sessionId, taskId)(m); Stopper(sessionId, taskId)(n) == n
  {
  }

  /** Ending a task twice is ending it once. */
  lemma StopTwice(ms: seq<ChatMessage>, sessionId: string, taskId: string)
    ensures StopStreaming(StopStreaming(ms, sessionId, taskId), sessionId, taskId) == StopStreaming(ms, sessionId, taskId)
  {
    hide Filter, Stopper, KeptWhenStopped;
    var stop, keep := Stopper(sessionId, taskId), KeptWhenStopped(sessionId, taskId);
    var stopped := Map(stop, ms);
    FilterMembers(keep, stopped);
    forall n | n in Filter(keep, stopped) ensures stop(n) == n {
      var i :| 0 <= i < |stopped| && stopped[i] == n;
      StoppedOnce(ms[i], sessionId, taskId);
    }
    MapFixed(stop, Filter(keep, stopped));
    FilterAll(keep, Filter(keep, stopped));
  }

  // ---- The text a tool event shows ---------------------------------------------------------------

  /** The fields a tool's display text is picked from, in order of preference. */
  function Fields(p: Presentation): seq<Option<string>> {
    [p.displayTitle, p.inputSummary, p.target, p.displayTarget]
  }

  /** The first field that says something, in the event or else in the block. */
  function Pick(es: seq<Option<string>>, cs: seq<Option<string>>): string
    requires |es| == |cs|
  {
    if es == [] then ""
    else if TrimmedOr(es[0]) != "" then TrimmedOr(es[0])
    else if TrimmedOr(cs[0]) != "" then TrimmedOr(cs[0])
    else Pick(es[1..], cs[1..])
  }

  /** The same once the event's fields are merged into the block: a blank field of the event hides the block's. */
  function PickAgain(es: seq<Option<string>>, cs: seq<Option<string>>): string
    requires |es| == |cs|
  {
    if es == [] then ""
    else if TrimmedOr(es[0]) != "" then TrimmedOr(es[0])
    else if es[0].None? && TrimmedOr(cs[0]) != "" then TrimmedOr(cs[0])
    else PickAgain(es[1..], cs[1..])
  }

  /**
   The first field that says something comes from the event, or the event leaves that field out, or what
   is left behind it says nothing or the same.
   */
  predicate FieldsKeep(es: seq<Option<string>>, cs: seq<Option<string>>)
    requires |es| == |cs|
  {
    if es == [] || TrimmedOr(es[0]) != "" then true
    else if TrimmedOr(cs[0]) != "" then es[0].None? || PickAgain(es[1..], cs[1..]) in {"", TrimmedOr(cs[0])}
    else FieldsKeep(es[1..], cs[1..])
  }

  lemma {:induction false} PickKeepsIff(es: seq<Option<string>>, cs: seq<Option<string>>)
    requires |es| == |cs|
    ensures FieldsKeep(es, cs) <==> PickAgain(es, cs) in {"", Pick(es, cs)}
    ensures PickAgain(es, cs) != "" ==> Pick(es, cs) != ""
  {
    hide TrimmedOr;
    if es != [] {
      PickKeepsIff(es[1..], cs[1..]);
    }
  }

  lemma {:induction false} FirstPair(a: string, b: string, rest: seq<string>)
    ensures FirstText([a, b] + rest) == if a != "" then a else if b != "" then b else FirstText(rest)
  {
    var all := [a, b] + rest;
    assert all[1..] == [b] + rest && ([b] + rest)[1..] == rest;
  }

  function Interleaved(es: seq<Option<string>>, cs: seq<Option<string>>): seq<string>
    requires |es| == |cs|
  {
    if es == [] then [] else [TrimmedOr(es[0]), TrimmedOr(cs[0])] + Interleaved(es[1..], cs[1..])
  }

  lemma {:induction false} PickIsFirst(es: seq<Option<string>>, cs: seq<Option<string>>)
    requires |es| == |cs|
    ensures FirstText(Interleaved(es, cs)) == Pick(es, cs)
  {
    hide TrimmedOr;
    if es != [] {
      PickIsFirst(es[1..], cs[1..]);
      FirstPair(TrimmedOr(es[0]), TrimmedOr(cs[0]), Interleaved(es[1..], cs[1..]));
    }
  }

  lemma {:induction false} FourInterleaved(a: Option<string>, b: Option<string>, c: Option<string>, d: Option<string>,
                                           e: Option<string>, f: Option<string>, g: Option<string>, h: Option<string>)
    ensures Interleaved([a, b, c, d], [e, f, g, h])
            == [TrimmedOr(a), TrimmedOr(e)] + ([TrimmedOr(b), TrimmedOr(f)] + ([TrimmedOr(c), TrimmedOr(g)] + [TrimmedOr(d), TrimmedOr(h)]))
  {
    hide TrimmedOr;
    assert [a, b, c, d][1..] == [b, c, d] && [b, c, d][1..] == [c, d] && [c, d][1..] == [d];
    assert [e, f, g, h][1..] == [f, g, h] && [f, g, h][1..] == [g, h] && [g, h][1..] == [h];
    assert Interleaved([d], [h]) == [TrimmedOr(d), TrimmedOr(h)] + Interleaved([], []);
    assert Interleaved([c, d], [g, h]) == [TrimmedOr(c), TrimmedOr(g)] + Interleaved([d], [h]);
    assert Interleaved([b, c, d], [f, g, h]) == [TrimmedOr(b), TrimmedOr(f)] + Interleaved([c, d], [g, h]);
  }

  lemma {:induction false} DisplayIsPick(p: Presentation, current: Presentation)
    ensures InputDisplay(p, current) == Pick(Fields(p), Fields(current))
  {
    hide TrimmedOr, FirstText, Interleaved, Pick;
    FourInterleaved(p.displayTitle, p.inputSummary, p.target, p.displayTarget,
                    current.displayTitle, current.inputSummary, current.target, current.displayTarget);
    PickIsFirst(Fields(p), Fields(current));
    assert [TrimmedOr(p.displayTitle), TrimmedOr(current.displayTitle)]
           + ([TrimmedOr(p.inputSummary), TrimmedOr(current.inputSummary)]
              + ([TrimmedOr(p.target), TrimmedOr(current.target)] + [TrimmedOr(p.displayTarget), TrimmedOr(current.displayTarget)]))
           == [TrimmedOr(p.displayTitle), TrimmedOr(current.displayTitle), TrimmedOr(p.inputSummary), TrimmedOr(current.inputSummary),
               TrimmedOr(p.target), TrimmedOr(current.target), TrimmedOr(p.displayTarget), TrimmedOr(current.displayTarget)];
  }

  ghost predicate MergedFields(es: seq<Option<string>>, cs: seq<Option<string>>, ms: seq<Option<string>>) {
    |es| == |cs| == |ms| && forall i | 0 <= i < |es| :: ms[i] == Or(es[i], cs[i])
  }

  lemma {:induction false} MergedPick(es: seq<Option<string>>, cs: seq<Option<string>>, ms: seq<Option<string>>)
    requires MergedFields(es, cs, ms)
    ensures Pick(es, ms) == PickAgain(es, cs)
  {
    if es != [] {
      assert ms[0] == Or(es[0], cs[0]);
      assert forall i | 0 <= i < |es[1..]| :: ms[1..][i] == ms[i + 1] && es[1..][i] == es[i + 1] && cs[1..][i] == cs[i + 1];
      MergedPick(es[1..], cs[1..], ms[1..]);
    }
  }

  /** The display text with the event's fields merged in. */
  function DisplayAgain(p: Presentation, current: Presentation): string {
    InputDisplay(p, MergePresentation(p, current))
  }

  predicate DisplayStays(p: Presentation, current: Presentation) {
    DisplayAgain(p, current) == "" || DisplayAgain(p, current) == InputDisplay(p, current)
  }

  lemma {:induction false} AgainIsPickAgain(p: Presentation, current: Presentation)
    ensures DisplayAgain(p, current) == PickAgain(Fields(p), Fields(current))
  {
    hide Pick, PickAgain, InputDisplay;
    DisplayIsPick(p, MergePresentation(p, current));
    MergedPick(Fields(p), Fields(current), Fields(MergePresentation(p, current)));
  }

  /** Field by field: when the text of a tool event stays on redelivery. */
  lemma {:induction false} DisplayStaysIff(p: Presentation, current: Presentation)
    ensures DisplayStays(p, current) <==> FieldsKeep(Fields(p), Fields(current))
    ensures DisplayAgain(p, current) != "" ==> InputDisplay(p, current) != ""
  {
    hide Pick, PickAgain, InputDisplay, FieldsKeep, DisplayAgain;
    DisplayIsPick(p, current);
    AgainIsPickAgain(p, current);
    PickKeepsIff(Fields(p), Fields(current));
  }

  predicate NotBlank(o: Option<string>) {
    o.Some? ==> Trim(o.value) != ""
  }

  lemma {:induction false} NoBlankKeeps(es: seq<Option<string>>, cs: seq<Option<string>>)
    requires |es| == |cs| && forall e | e in es :: NotBlank(e)
    ensures FieldsKeep(es, cs)
  {
    if es != [] {
      assert es[0] in es && forall e | e in es[1..] :: e in es;
      NoBlankKeeps(es[1..], cs[1..]);
    }
  }

  /** An event without blank fields shows the same text again. */
  lemma {:induction false} NoBlankSuffices(p: Presentation, current: Presentation)
    requires forall e | e in Fields(p) :: NotBlank(e)
    ensures DisplayStays(p, current)
  {
    hide DisplayStays, FieldsKeep;
    NoBlankKeeps(Fields(p), Fields(current));
    DisplayStaysIff(p, current);
  }

  lemma {:induction false} NothingToHide(es: seq<Option<string>>, cs: seq<Option<string>>)
    requires |es| == |cs| && forall c | c in cs :: c == None
    ensures Pick(es, cs) == PickAgain(es, cs)
  {
    if es != [] {
      assert cs[0] in cs && forall c | c in cs[1..] :: c in cs;
      NothingToHide(es[1..], cs[1..]);
    }
  }

  lemma {:induction false} NewDisplayStays(p: Presentation)
    ensures DisplayAgain(p, NO_PRESENTATION) == InputDisplay(p, NO_PRESENTATION)
  {
    hide Pick, PickAgain, InputDisplay, DisplayAgain;
    DisplayIsPick(p, NO_PRESENTATION);
    AgainIsPickAgain(p, NO_PRESENTATION);
    NothingToHide(Fields(p), Fields(NO_PRESENTATION));
  }

  lemma MergedTwiceOver(p: Presentation, current: Presentation)
    ensures MergePresentation(p, MergePresentation(p, current)) == MergePresentation(p, current)
  {
  }

  // ---- Starts and completed calls ------------------------------------------------------------------

  lemma StartedTwiceIff(m: ChatMessage, call: ToolCall, input: Option<string>)
    ensures Started(Started(m, call, input), call, input) == Started(m, call, input)
            <==> DisplayStays(call.presentation, m.metadata.presentation)
    ensures IsBlockOf(Started(m, call, input), call.toolUseId)
  {
    hide InputDisplay, MergePresentation;
    MergedTwiceOver(call.presentation, m.metadata.presentation);
    DisplayStaysIff(call.presentation, m.metadata.presentation);
  }

  lemma StartedNewTwice(call: ToolCall, input: Option<string>)
    ensures Started(StartedNew(call, input), call, input) == StartedNew(call, input)
    ensures IsBlockOf(StartedNew(call, input), call.toolUseId)
  {
    hide InputDisplay, MergePresentation, ToolUseId;
    MergedTwiceOver(call.presentation, NO_PRESENTATION);
    NewDisplayStays(call.presentation);
  }

  /** An update of one message is undone by nothing but itself: the list changes exactly when the message does. */
  lemma WrittenAgain(ms: seq<ChatMessage>, k: nat, m: ChatMessage)
    requires k < |ms|
    ensures ms[k := m] == ms <==> m == ms[k]
  {
    assert ms[k := ms[k]] == ms;
    assert ms[k := m][k] == m;
  }

  /**
   A tool start delivered again changes nothing exactly when it found no block, or the text it shows then
   is nothing or the text it showed first.
   */
  lemma {:induction false} StartTwiceIff(ms: seq<ChatMessage>, call: ToolCall, input: Option<string>)
    ensures var i := FindIndex(StartTarget(call.toolUseId), ms);
            StartTool(StartTool(ms, call, input), call, input) == StartTool(ms, call, input)
            <==> (i >= 0 ==> DisplayStays(call.presentation, ms[i].metadata.presentation))
  {
    hide Started, StartedNew, DisplayStays, IsBlockOf, ToolUseId;
    var i, once := FindIndex(StartTarget(call.toolUseId), ms), StartTool(ms, call, input);
    var k := if i >= 0 then i else |ms|;
    if i >= 0 {
      StartedTwiceIff(ms[i], call, input);
    } else {
      StartedNewTwice(call, input);
    }
    FirstIndexIs(StartTarget(call.toolUseId), once, k);
    WrittenAgain(once, k, Started(once[k], call, input));
  }

  predicate CompletedStays(call: ToolCall, current: Presentation, input: string) {
    CompletedContent(call, MergePresentation(call.presentation, current), input) == CompletedContent(call, current, input)
  }

  lemma CompletedTwiceIff(m: ChatMessage, call: ToolCall, input: string)
    ensures CompletedCall(CompletedCall(m, call, input), call, input) == CompletedCall(m, call, input)
            <==> CompletedStays(call, m.metadata.presentation, input)
    ensures CompletedCall(m, call, input).id == m.id
    ensures m.metadata.kind == Some(ToolActivity) ==>
              CompletedCall(m, call, input).metadata.kind == Some(ToolActivity)
              && CompletedCall(m, call, input).metadata.toolUseId == Some(call.toolUseId)
  {
    hide CompletedContent, MergePresentation;
    MergedTwiceOver(call.presentation, m.metadata.presentation);
  }

  lemma CompletedNewTwice(call: ToolCall, input: string)
    ensures CompletedCall(CompletedNew(call, input), call, input) == CompletedNew(call, input)
    ensures CompletedNew(call, input).id == ToolUseId(call.toolUseId)
  {
    hide InputDisplay, MergePresentation, FirstText, ToolUseId;
    MergedTwiceOver(call.presentation, NO_PRESENTATION);
    NewDisplayStays(call.presentation);
  }

  function OrText(a: string, b: string): string {
    if a != "" then a else b
  }

  /**
   The first field that says something comes from the event, or the event leaves that field out, or what
   is left behind it, the fallback in the end, says the same.
   */
  predicate FieldsKeepOr(es: seq<Option<string>>, cs: seq<Option<string>>, fallback: string)
    requires |es| == |cs|
  {
    if es == [] || TrimmedOr(es[0]) != "" then true
    else if TrimmedOr(cs[0]) != "" then es[0].None? || OrText(PickAgain(es[1..], cs[1..]), fallback) == TrimmedOr(cs[0])
    else FieldsKeepOr(es[1..], cs[1..], fallback)
  }

  lemma {:induction false} PickOrIff(es: seq<Option<string>>, cs: seq<Option<string>>, fallback: string)
    requires |es| == |cs|
    ensures FieldsKeepOr(es, cs, fallback) <==> OrText(PickAgain(es, cs), fallback) == OrText(Pick(es, cs), fallback)
  {
    hide TrimmedOr;
    if es != [] {
      PickOrIff(es[1..], cs[1..], fallback);
    }
  }

  /** What a completed call shows when no field says anything. */
  function CompletedFallback(call: ToolCall, input: string): string {
    FirstText([input, if call.toolName.Some? then call.toolName.value else "", TOOL_CALL_LABEL])
  }

  predicate CompletedKeeps(call: ToolCall, current: Presentation, input: string) {
    FieldsKeepOr(Fields(call.presentation), Fields(current), CompletedFallback(call, input))
  }

  lemma {:induction false} CompletedIsPick(call: ToolCall, current: Presentation, input: string)
    ensures CompletedContent(call, current, input) == OrText(InputDisplay(call.presentation, current), CompletedFallback(call, input))
  {
    hide InputDisplay;
    var rest := [input, if call.toolName.Some? then call.toolName.value else "", TOOL_CALL_LABEL];
    assert ([InputDisplay(call.presentation, current)] + rest)[1..] == rest;
    assert [InputDisplay(call.presentation, current)] + rest
           == [InputDisplay(call.presentation, current), input, if call.toolName.Some? then call.toolName.value else "", TOOL_CALL_LABEL];
  }

  /** Field by field: when the text of a completed call stays on redelivery. */
  lemma {:induction false} CompletedStaysIff(call: ToolCall, current: Presentation, input: string)
    ensures CompletedStays(call, current, input) <==> CompletedKeeps(call, current, input)
  {
    hide InputDisplay, CompletedContent, CompletedFallback, Pick, PickAgain, FieldsKeepOr;
    CompletedIsPick(call, current, input);
    CompletedIsPick(call, MergePresentation(call.presentation, current), input);
    DisplayIsPick(call.presentation, current);
    AgainIsPickAgain(call.presentation, current);
    PickOrIff(Fields(call.presentation), Fields(current), CompletedFallback(call, input));
  }

  /** A completed call delivered again changes nothing exactly when it found no block or no blank field of it hides a text that showed. */
  lemma {:induction false} CompleteTwiceIff(ms: seq<ChatMessage>, call: ToolCall, input: string)
    ensures var i := FindIndex(CompleteTarget(call.toolUseId), ms);
            CompleteTool(CompleteTool(ms, call, input), call, input) == CompleteTool(ms, call, input)
            <==> (i >= 0 ==> CompletedKeeps(call, ms[i].metadata.presentation, input))
  {
    hide CompletedCall, CompletedNew, CompletedStays, CompletedKeeps, ToolUseId;
    var i, once := FindIndex(CompleteTarget(call.toolUseId), ms), CompleteTool(ms, call, input);
    var k := if i >= 0 then i else |ms|;
    if i >= 0 {
      CompletedTwiceIff(ms[i], call, input);
      CompletedStaysIff(call, ms[i].metadata.presentation, input);
    } else {
      CompletedNewTwice(call, input);
    }
    FirstIndexIs(CompleteTarget(call.toolUseId), once, k);
    WrittenAgain(once, k, CompletedCall(once[k], call, input));
  }

  const TITLED := Presentation(Some("a"), None, None, Some("b"), None)
  const BLANK_TITLE := NO_PRESENTATION.(displayTitle := Some(""))

  /** A block titled "a" with target "b" and a start with a blank title: the text is "a" first and "b" when it comes again. */
  lemma {:induction false} BlankFieldWitness(m: ChatMessage, call: ToolCall)
    requires IsBlockOf(m, call.toolUseId) && m.metadata.presentation == TITLED && call.presentation == BLANK_TITLE
    ensures var once := StartTool([m], call, None);
            once[0].content == "a" && StartTool(once, call, None)[0].content == "b"
  {
    hide InputDisplay, Trim;
    TrimmedLetters();
    DisplayIsPick(BLANK_TITLE, TITLED);
    AgainIsPickAgain(BLANK_TITLE, TITLED);
    BlankPicks();
    var once := StartTool([m], call, None);
    FirstIndexIs(StartTarget(call.toolUseId), [m], 0);
    assert once == [Started(m, call, None)];
    FirstIndexIs(StartTarget(call.toolUseId), once, 0);
  }

  /** The same block and a completed call with a blank title. */
  lemma {:induction false} BlankCompletedWitness(m: ChatMessage, call: ToolCall, input: string)
    requires m.id == ToolUseId(call.toolUseId) && m.metadata.presentation == TITLED && call.presentation == BLANK_TITLE
    ensures var once := CompleteTool([m], call, input);
            once[0].content == "a" && CompleteTool(once, call, input)[0].content == "b"
  {
    hide InputDisplay, Trim, CompletedContent, CompletedFallback, ToolUseId;
    DisplayIsPick(BLANK_TITLE, TITLED);
    AgainIsPickAgain(BLANK_TITLE, TITLED);
    BlankPicks();
    CompletedIsPick(call, TITLED, input);
    CompletedIsPick(call, MergePresentation(BLANK_TITLE, TITLED), input);
    var once := CompleteTool([m], call, input);
    FirstIndexIs(CompleteTarget(call.toolUseId), [m], 0);
    assert once == [CompletedCall(m, call, input)];
    FirstIndexIs(CompleteTarget(call.toolUseId), once, 0);
  }

  lemma TrimmedLetters()
    ensures Trim("a") == "a" && Trim("b") == "b" && Trim("") == ""
  {
  }

  lemma {:induction false} BlankPicks()
    ensures Pick(Fields(BLANK_TITLE), Fields(TITLED)) == "a" && PickAgain(Fields(BLANK_TITLE), Fields(TITLED)) == "b"
  {
    hide Trim;
    TrimmedLetters();
    var es, cs := Fields(BLANK_TITLE), Fields(TITLED);
    assert es == [Some(""), None, None, None] && cs == [Some("a"), None, Some("b"), None];
    assert es[1..] == [None, None, None] && cs[1..] == [None, Some("b"), None];
    assert es[1..][1..] == [None, None] && cs[1..][1..] == [Some("b"), None];
    assert PickAgain(es[1..][1..], cs[1..][1..]) == "b";
    assert PickAgain(es[1..], cs[1..]) == "b";
  }

  // ---- Input and output deltas ---------------------------------------------------------------------

  lemma OutputMergedTwice(o: ToolOutput, stream: Stream, delta: string)
    ensures AppendOutput(AppendOutput(o, stream, delta), stream, delta) == AppendOutput(o, stream, delta)
  {
    hide AppendDelta;
    MergedTwice(o.activity, delta);
    MergedTwice(o.stdout, delta);
    MergedTwice(o.stderr, delta);
    MergedTwice(o.result, delta);
  }

  lemma WithOutputTwice(m: ChatMessage, call: ToolCall, stream: Stream, delta: string)
    ensures WithOutput(WithOutput(m, call, stream, delta), call, stream, delta) == WithOutput(m, call, stream, delta)
    ensures IsBlockOf(WithOutput(m, call, stream, delta), call.toolUseId)
  {
    hide AppendOutput;
    OutputMergedTwice(OutputOf(m), stream, delta);
  }

  lemma OutputNewTwice(call: ToolCall, stream: Stream, delta: string)
    ensures WithOutput(OutputNew(call, stream, delta), call, stream, delta) == OutputNew(call, stream, delta)
    ensures IsBlockOf(OutputNew(call, stream, delta), call.toolUseId)
  {
    hide AppendOutput, ToolUseId;
    OutputMergedTwice(NO_OUTPUT, stream, delta);
  }

  /** An output delta delivered again is absorbed even without replay markers. */
  lemma {:induction false} OutputTwice(ms: seq<ChatMessage>, call: ToolCall, stream: Stream, delta: string)
    ensures AppendToolOutput(AppendToolOutput(ms, call, stream, delta), call, stream, delta) == AppendToolOutput(ms, call, stream, delta)
  {
    hide WithOutput, OutputNew, IsBlockOf, ToolUseId, ToolActivityId;
    var i, once := FindIndex(OutputTarget(call.toolUseId), ms), AppendToolOutput(ms, call, stream, delta);
    var k := if i >= 0 then i else |ms|;
    if i >= 0 {
      WithOutputTwice(ms[i], call, stream, delta);
    } else {
      OutputNewTwice(call, stream, delta);
    }
    FirstIndexIs(OutputTarget(call.toolUseId), once, k);
    assert once[k := once[k]] == once;
  }

  lemma WithInputTwiceIff(m: ChatMessage, call: ToolCall, delta: string)
    ensures WithInput(WithInput(m, call, delta), call, delta) == WithInput(m, call, delta)
            <==> DisplayStays(call.presentation, m.metadata.presentation)
    ensures WithInput(m, call, delta).id == m.id
  {
    hide InputDisplay, MergePresentation, AppendDelta;
    MergedTwiceOver(call.presentation, m.metadata.presentation);
    DisplayStaysIff(call.presentation, m.metadata.presentation);
    MergedTwice(RawInput(m.metadata), delta);
  }

  lemma {:induction false} TrimStartTwice(s: string)
    ensures TrimStart(TrimStart(s)) == TrimStart(s)
  {
    if s != [] && IsSpace(s[0]) {
      TrimStartTwice(s[1..]);
    }
  }

  /** The first content of merged input is trimmed already. */
  lemma {:induction false} FirstInputTrimmed(delta: string)
    ensures TrimStart(AppendDelta("", delta)) == AppendDelta("", delta)
  {
    hide TrimStart, NormalizeNewlines, Includes, EndsWith;
    TrimStartTwice(NormalizeNewlines(delta));
    NothingToTrim();
  }

  lemma NothingToTrim()
    ensures Trim("") == [] && TrimStart("") == ""
  {
  }

  lemma InputNewTwice(call: ToolCall, delta: string)
    ensures WithInput(InputNew(call, delta), call, delta) == InputNew(call, delta)
    ensures InputNew(call, delta).id == ToolUseId(call.toolUseId)
  {
    hide InputDisplay, MergePresentation, AppendDelta, TrimStart, ToolUseId;
    MergedTwiceOver(call.presentation, NO_PRESENTATION);
    NewDisplayStays(call.presentation);
    FirstInputTrimmed(delta);
    MergedTwice("", delta);
  }

  /** An input delta delivered again is absorbed under the same condition as a start. */
  lemma {:induction false} InputTwiceIff(ms: seq<ChatMessage>, call: ToolCall, delta: string)
    ensures var i := FindIndex(HasId(ToolUseId(call.toolUseId)), ms);
            AppendToolInput(AppendToolInput(ms, call, delta), call, delta) == AppendToolInput(ms, call, delta)
            <==> (i >= 0 ==> DisplayStays(call.presentation, ms[i].metadata.presentation))
  {
    hide WithInput, InputNew, DisplayStays, ToolUseId;
    var i, once := FindIndex(HasId(ToolUseId(call.toolUseId)), ms), AppendToolInput(ms, call, delta);
    var k := if i >= 0 then i else |ms|;
    if i >= 0 {
      WithInputTwiceIff(ms[i], call, delta);
    } else {
      InputNewTwice(call, delta);
    }
    FirstIndexIs(HasId(ToolUseId(call.toolUseId)), once, k);
    WrittenAgain(once, k, WithInput(once[k], call, delta));
  }

  // ---- Results -----------------------------------------------------------------------------------

  function NotId(id: string): ChatMessage -> bool {
    (m: ChatMessage) => m.id != id
  }

  lemma {:induction false} WithoutIdFilters(ms: seq<ChatMessage>, keep: int, id: string)
    requires keep < 0 || keep >= |ms|
    ensures WithoutId(ms, keep, id) == Filter(NotId(id), ms)
  {
    if ms != [] {
      var init, last := ms[..|ms| - 1], ms[|ms| - 1];
      assert ms == init + [last];
      WithoutIdFilters(init, keep, id);
      FilterAppend(NotId(id), init, [last]);
      assert Filter(NotId(id), [last]) == if last.id != id then [last] else [];
    }
  }

  lemma Regroup(front: seq<ChatMessage>, m: ChatMessage, rest: seq<ChatMessage>, tail: seq<ChatMessage>)
    ensures (front + ([m] + rest)) + tail == front + ([m] + (rest + tail))
  {
  }

  lemma {:induction false} WithoutIdSplits(ms: seq<ChatMessage>, keep: nat, id: string)
    requires keep < |ms|
    ensures WithoutId(ms, keep, id) == Filter(NotId(id), ms[..keep]) + ([ms[keep]] + Filter(NotId(id), ms[keep + 1..]))
  {
    var init, last := ms[..|ms| - 1], ms[|ms| - 1];
    if keep == |ms| - 1 {
      WithoutIdFilters(init, keep, id);
      assert ms[keep + 1..] == [] && Filter(NotId(id), []) == [];
    } else {
      WithoutIdSplits(init, keep, id);
      WithoutIdGrows(ms, keep, id);
    }
  }

  lemma {:induction false} OneFiltered(p: ChatMessage -> bool, m: ChatMessage)
    ensures Filter(p, [m]) == if p(m) then [m] else []
  {
  }

  lemma {:induction false} WithoutIdGrows(ms: seq<ChatMessage>, keep: nat, id: string)
    requires ms != [] && var init := ms[..|ms| - 1];
             keep < |init|
             && WithoutId(init, keep, id) == Filter(NotId(id), init[..keep]) + ([init[keep]] + Filter(NotId(id), init[keep + 1..]))
    ensures WithoutId(ms, keep, id) == Filter(NotId(id), ms[..keep]) + ([ms[keep]] + Filter(NotId(id), ms[keep + 1..]))
  {
    var init, last := ms[..|ms| - 1], ms[|ms| - 1];
    var rest, tail := init[keep + 1..], if last.id != id then [last] else [];
    hide Filter;
    OneFiltered(NotId(id), last);
    assert init[..keep] == ms[..keep] && init[keep] == ms[keep] && ms[keep + 1..] == rest + [last];
    FilterAppend(NotId(id), rest, [last]);
    Regroup(Filter(NotId(id), ms[..keep]), ms[keep], Filter(NotId(id), rest), tail);
  }

  lemma ResultTwice(m: ChatMessage, call: ToolCall, r: ResultInfo)
    ensures WithResult(WithResult(m, call, r), call, r) == WithResult(m, call, r)
    ensures IsBlockOf(WithResult(m, call, r), call.toolUseId)
  {
    hide FirstText, TrimmedOr, ToolActivityId;
  }

  /** A result that found its block changes nothing when it is delivered again. */
  lemma {:induction false} FinishBlockTwice(ms: seq<ChatMessage>, call: ToolCall, r: ResultInfo)
    requires FindIndex(BlockOf(call.toolUseId), ms) >= 0
    ensures FinishTool(FinishTool(ms, call, r), call, r) == FinishTool(ms, call, r)
  {
    hide Filter, WithResult, WithoutId, IsBlockOf;
    var b, id := FindIndex(BlockOf(call.toolUseId), ms), ToolResultId(call.toolUseId);
    var m := WithResult(ms[b], call, r);
    var updated, once := ms[b := m], FinishTool(ms, call, r);
    var front, rest := Filter(NotId(id), ms[..b]), Filter(NotId(id), ms[b + 1..]);
    assert updated[..b] == ms[..b] && updated[b + 1..] == ms[b + 1..] && updated[b] == m;
    WithoutIdSplits(updated, b, id);
    assert once == front + ([m] + rest);
    ResultTwice(ms[b], call, r);
    FilterMembers(NotId(id), ms[..b]);
    forall j | 0 <= j < |front| ensures !BlockOf(call.toolUseId)(once[j]) {
      assert once[j] == front[j] && front[j] in ms[..b];
    }
    FirstIndexIs(BlockOf(call.toolUseId), once, |front|);
    assert once[|front| := m] == once;
    WithoutIdSplits(once, |front|, id);
    assert once[..|front|] == front && once[|front| + 1..] == rest;
    FilteredTwice(NotId(id), ms[..b]);
    FilteredTwice(NotId(id), ms[b + 1..]);
  }

  /** The text of a result that stands alone, given the presentation of its message before. */
  function AloneText(call: ToolCall, r: ResultInfo, current: Presentation): string {
    var summary := SummaryDisplay(call.presentation, current);
    if r.isError then FirstText([r.structuredText, summary]) else FirstText([summary, r.structuredText])
  }

  /** What a result that stands alone keeps of it. */
  function AlonePresentation(p: Presentation, current: Presentation): Presentation {
    MergePresentation(p, current).(target := p.target, inputSummary := p.inputSummary)
  }

  predicate AloneStays(call: ToolCall, r: ResultInfo, current: Presentation) {
    AloneText(call, r, AlonePresentation(call.presentation, current)) == AloneText(call, r, current)
  }

  /** The fields a standalone result's text is picked from, in order of preference. */
  function SummaryFields(p: Presentation): seq<Option<string>> {
    [p.displaySummary, p.inputSummary, p.displayTitle]
  }

  /** The same as a standalone result stores them: an input summary it does not carry is forgotten, as if it were blank. */
  function AloneFields(p: Presentation): seq<Option<string>> {
    [p.displaySummary, Some(if p.inputSummary.Some? then p.inputSummary.value else ""), p.displayTitle]
  }

  /** Field by field: structured text of an error shows in any case, otherwise no blank or forgotten field hides a text that showed. */
  predicate AloneKeeps(call: ToolCall, r: ResultInfo, current: Presentation) {
    || (r.isError && r.structuredText != "")
    || FieldsKeepOr(AloneFields(call.presentation), SummaryFields(current), if r.isError then "" else r.structuredText)
  }

  lemma {:induction false} ThreeInterleaved(a: Option<string>, b: Option<string>, c: Option<string>,
                                            d: Option<string>, e: Option<string>, f: Option<string>)
    ensures Interleaved([a, b, c], [d, e, f])
            == [TrimmedOr(a), TrimmedOr(d)] + ([TrimmedOr(b), TrimmedOr(e)] + [TrimmedOr(c), TrimmedOr(f)])
  {
    hide TrimmedOr;
    assert [a, b, c][1..] == [b, c] && [b, c][1..] == [c];
    assert [d, e, f][1..] == [e, f] && [e, f][1..] == [f];
    assert Interleaved([c], [f]) == [TrimmedOr(c), TrimmedOr(f)] + Interleaved([], []);
    assert Interleaved([b, c], [e, f]) == [TrimmedOr(b), TrimmedOr(e)] + Interleaved([c], [f]);
  }

  lemma {:induction false} SummaryIsPick(p: Presentation, current: Presentation)
    ensures SummaryDisplay(p, current) == Pick(SummaryFields(p), SummaryFields(current))
  {
    hide TrimmedOr, FirstText, Interleaved, Pick;
    ThreeInterleaved(p.displaySummary, p.inputSummary, p.displayTitle, current.displaySummary, current.inputSummary, current.displayTitle);
    PickIsFirst(SummaryFields(p), SummaryFields(current));
    assert [TrimmedOr(p.displaySummary), TrimmedOr(current.displaySummary)]
           + ([TrimmedOr(p.inputSummary), TrimmedOr(current.inputSummary)] + [TrimmedOr(p.displayTitle), TrimmedOr(current.displayTitle)])
           == [TrimmedOr(p.displaySummary), TrimmedOr(current.displaySummary), TrimmedOr(p.inputSummary),
               TrimmedOr(current.inputSummary), TrimmedOr(p.displayTitle), TrimmedOr(current.displayTitle)];
  }

  lemma {:induction false} PickStep(es: seq<Option<string>>, cs: seq<Option<string>>)
    requires |es| == |cs| > 0
    ensures Pick(es, cs) == OrText(TrimmedOr(es[0]), OrText(TrimmedOr(cs[0]), Pick(es[1..], cs[1..])))
    ensures PickAgain(es, cs)
            == OrText(TrimmedOr(es[0]), OrText(if es[0].None? then TrimmedOr(cs[0]) else "", PickAgain(es[1..], cs[1..])))
  {
    hide TrimmedOr;
  }

  lemma PickNothing()
    ensures Pick([], []) == "" && PickAgain([], []) == ""
  {
  }

  lemma {:induction false} PickThree(es: seq<Option<string>>, cs: seq<Option<string>>)
    requires |es| == |cs| == 3
    ensures Pick(es, cs) == OrText(TrimmedOr(es[0]), OrText(TrimmedOr(cs[0]), OrText(TrimmedOr(es[1]), OrText(TrimmedOr(cs[1]),
                            OrText(TrimmedOr(es[2]), TrimmedOr(cs[2]))))))
    ensures PickAgain(es, cs) == OrText(TrimmedOr(es[0]), OrText(if es[0].None? then TrimmedOr(cs[0]) else "",
                                 OrText(TrimmedOr(es[1]), OrText(if es[1].None? then TrimmedOr(cs[1]) else "",
                                 OrText(TrimmedOr(es[2]), if es[2].None? then TrimmedOr(cs[2]) else "")))))
  {
    hide TrimmedOr, Pick, PickAgain;
    PickStep(es, cs);
    PickStep(es[1..], cs[1..]);
    PickStep(es[1..][1..], cs[1..][1..]);
    assert es[1..][1..][1..] == [] && cs[1..][1..][1..] == [];
    PickNothing();
  }

  lemma {:induction false} AlonePicks(p: Presentation, current: Presentation)
    ensures SummaryDisplay(p, current) == Pick(AloneFields(p), SummaryFields(current))
    ensures SummaryDisplay(p, AlonePresentation(p, current)) == PickAgain(AloneFields(p), SummaryFields(current))
  {
    hide Pick, PickAgain, SummaryDisplay, Trim;
    assert Trim("") == "" by { NothingToTrim(); }
    SummaryIsPick(p, current);
    SummaryIsPick(p, AlonePresentation(p, current));
    PickThree(SummaryFields(p), SummaryFields(current));
    PickThree(AloneFields(p), SummaryFields(current));
    PickThree(SummaryFields(p), SummaryFields(AlonePresentation(p, current)));
  }

  lemma TwoTexts(a: string, b: string)
    ensures FirstText([a, b]) == OrText(a, b)
  {
    assert [a, b][1..] == [b] && [b][1..] == [];
    assert FirstText([b]) == b;
  }

  /** Field by field: when the text of a standalone result stays on redelivery. */
  lemma {:induction false} AloneStaysIff(call: ToolCall, r: ResultInfo, current: Presentation)
    ensures AloneStays(call, r, current) <==> AloneKeeps(call, r, current)
  {
    hide Pick, PickAgain, SummaryDisplay, FirstText, FieldsKeepOr;
    var p := call.presentation;
    var first, again := SummaryDisplay(p, current), SummaryDisplay(p, AlonePresentation(p, current));
    AlonePicks(p, current);
    TwoTexts(r.structuredText, first);
    TwoTexts(r.structuredText, again);
    TwoTexts(first, r.structuredText);
    TwoTexts(again, r.structuredText);
    PickOrIff(AloneFields(p), SummaryFields(current), if r.isError then "" else r.structuredText);
  }

  const SUMMARISED := NO_PRESENTATION.(inputSummary := Some("a"))
  const TITLE_ONLY := NO_PRESENTATION.(displayTitle := Some("b"))

  /** No field of the event is blank, and yet the stored input summary "a" shows once only; then the event's title "b" does. */
  lemma {:induction false} LostSummaryWitness(m: ChatMessage, call: ToolCall, r: ResultInfo)
    requires m.id == ToolResultId(call.toolUseId) && !IsToolBlock(m) && m.metadata.presentation == SUMMARISED
    requires call.presentation == TITLE_ONLY && !r.isError
    ensures var once := FinishTool([m], call, r);
            once[0].content == "a" && FinishTool(once, call, r)[0].content == "b"
  {
    hide SummaryDisplay, Trim, ToolResultId, FirstText, Pick, PickAgain;
    TrimmedLetters();
    AlonePicks(TITLE_ONLY, SUMMARISED);
    PickThree(AloneFields(TITLE_ONLY), SummaryFields(SUMMARISED));
    TwoTexts("a", r.structuredText);
    TwoTexts("b", r.structuredText);
    var once := FinishTool([m], call, r);
    NoBlockIndex(BlockOf(call.toolUseId), [m]);
    FirstIndexIs(HasId(ToolResultId(call.toolUseId)), [m], 0);
    assert once == [ResultMessage(call, r, Some(m))];
    NoBlockIndex(BlockOf(call.toolUseId), once);
    FirstIndexIs(HasId(ToolResultId(call.toolUseId)), once, 0);
  }

  lemma AloneTwiceIff(call: ToolCall, r: ResultInfo, previous: Option<ChatMessage>)
    ensures var current := if previous.Some? then previous.value.metadata.presentation else NO_PRESENTATION;
            var m := ResultMessage(call, r, previous);
            (ResultMessage(call, r, Some(m)) == m <==> AloneStays(call, r, current))
            && m.id == ToolResultId(call.toolUseId) && !IsBlockOf(m, call.toolUseId)
  {
    hide SummaryDisplay, FirstText, ToolResultId;
  }

  /** Without a block: absorbed exactly when the text stays. */
  lemma {:induction false} FinishAloneTwiceIff(ms: seq<ChatMessage>, call: ToolCall, r: ResultInfo)
    requires FindIndex(BlockOf(call.toolUseId), ms) < 0
    ensures var i := FindIndex(HasId(ToolResultId(call.toolUseId)), ms);
            FinishTool(FinishTool(ms, call, r), call, r) == FinishTool(ms, call, r)
            <==> AloneStays(call, r, if i >= 0 then ms[i].metadata.presentation else NO_PRESENTATION)
  {
    hide ResultMessage, AloneStays, ToolResultId, IsBlockOf, WithResult, WithoutId;
    var i, once := FindIndex(HasId(ToolResultId(call.toolUseId)), ms), FinishTool(ms, call, r);
    var k, previous := if i >= 0 then i else |ms|, if i >= 0 then Some(ms[i]) else None;
    AloneTwiceIff(call, r, previous);
    FirstIndexIs(HasId(ToolResultId(call.toolUseId)), once, k);
    NoBlockIndex(BlockOf(call.toolUseId), once);
    WrittenAgain(once, k, ResultMessage(call, r, Some(once[k])));
  }

  lemma {:induction false} NoBlockIndex(p: ChatMessage -> bool, ms: seq<ChatMessage>)
    requires forall j | 0 <= j < |ms| :: !p(ms[j])
    ensures FindIndex(p, ms) < 0
  {
  }

  /**
   A tool result delivered again changes nothing exactly when it found its block, or stands alone and no
   blank or forgotten field hides a text that showed.
   */
  lemma {:induction false} FinishTwiceIff(ms: seq<ChatMessage>, call: ToolCall, r: ResultInfo)
    ensures var i := FindIndex(HasId(ToolResultId(call.toolUseId)), ms);
            FinishTool(FinishTool(ms, call, r), call, r) == FinishTool(ms, call, r)
            <==> || FindIndex(BlockOf(call.toolUseId), ms) >= 0
                 || AloneKeeps(call, r, if i >= 0 then ms[i].metadata.presentation else NO_PRESENTATION)
  {
    hide FinishTool, AloneStays, AloneKeeps, ToolResultId;
    if FindIndex(BlockOf(call.toolUseId), ms) >= 0 {
      FinishBlockTwice(ms, call, r);
    } else {
      var i := FindIndex(HasId(ToolResultId(call.toolUseId)), ms);
      FinishAloneTwiceIff(ms, call, r);
      AloneStaysIff(call, r, if i >= 0 then ms[i].metadata.presentation else NO_PRESENTATION);
    }
  }

  lemma {:induction false} FilteredTwice(p: ChatMessage -> bool, ms: seq<ChatMessage>)
    ensures Filter(p, Filter(p, ms)) == Filter(p, ms)
  {
    FilterMembers(p, ms);
    FilterAll(p, Filter(p, ms));
  }

  // ---- Thinking ------------------------------------------------------------------------------------

  /** Thinking text that is appended to what is there, without merging. */
  predicate Streamed(u: ThinkingUpdate) {
    TrimmedOr(u.text) != "" && !ProviderSummary(u) && u.state == Some("thinking") && !IncomingTransient(u)
  }

  lemma {:induction false} LastIndexIs(p: ChatMessage -> bool, ms: seq<ChatMessage>, k: nat)
    requires k < |ms| && p(ms[k]) && forall j | k < j < |ms| :: !p(ms[j])
    ensures FindLastIndex(p, ms) == k
  {
  }

  /** The message an update has made or continued. */
  predicate Thought(m: ChatMessage, u: ThinkingUpdate) {
    && SameTask(m, u) && IsThinking(m) && m.metadata.state == u.state && m.metadata.verb == u.verb
    && m.metadata.transient == Some(IncomingTransient(u))
    && (HasEventId(u) ==> m.metadata.eventId == Some(Trim(u.eventId)))
  }

  lemma ThoughtAfter(m: ChatMessage, id: string, u: ThinkingUpdate)
    ensures Thought(ContinuedThinking(m, u), u) && Thought(NewThinking(id, u), u)
  {
    hide Trim, ContinuedThinkingContent, ThinkingContent, IncomingTransient;
  }

  lemma ThoughtCanContinue(m: ChatMessage, u: ThinkingUpdate)
    requires Thought(m, u)
    ensures OfTask(u)(m) && ThinkingOfTask(u)(m) && (HasEventId(u) ==> OfEvent(u)(m)) && CanUpdateSegment(m, u)
    ensures IsTransient(m) == IncomingTransient(u)
  {
    hide Trim, StatusLabel, IncomingTransient;
  }

  /** The same update finds the message it has written. */
  lemma {:induction false} ThinkingFindsAgain(ms: seq<ChatMessage>, u: ThinkingUpdate)
    ensures var i := ThinkingIndex(ms, u);
            ThinkingIndex(UpdateThinking(ms, u), u) == if i >= 0 then i else |ms|
  {
    hide Thought, ContinuedThinking, NewThinking, NewThinkingId, CanUpdateSegment, HasEventId, ProviderSummary, FindIndex, FindLastIndex, OfEvent, OfTask, ThinkingOfTask;
    var i, once := ThinkingIndex(ms, u), UpdateThinking(ms, u);
    var k := if i >= 0 then i else |ms|;
    ThoughtAfter(if i >= 0 then ms[i] else once[k], NewThinkingId(ms, u), u);
    ThoughtCanContinue(once[k], u);
    var byEvent, latest, last := FindIndex(OfEvent(u), ms), FindLastIndex(ThinkingOfTask(u), ms), FindLastIndex(OfTask(u), ms);
    if HasEventId(u) {
      assert i < 0 || i == byEvent || byEvent < 0;
      FirstIndexIs(OfEvent(u), once, k);
    } else {
      LastIndexIs(OfTask(u), once, k);
      LastIndexIs(ThinkingOfTask(u), once, k);
    }
  }

  lemma ContinuedTwice(m: ChatMessage, u: ThinkingUpdate)
    requires Thought(m, u) && m.metadata == ThinkingMetadata(m.metadata, u)
    ensures ContinuedThinking(m, u).metadata == m.metadata
    ensures AppendsThinkingText(m, u) <==> Streamed(u) && m.content != StatusLabel(u.state, u.verb)
  {
    hide Trim, StatusLabel, IncomingTransient, ProviderSummary;
    ThoughtCanContinue(m, u);
  }

  /** What an update writes as content, when the message it continues is m. */
  lemma WrittenThought(m: ChatMessage, u: ThinkingUpdate)
    ensures !Streamed(u) ==> !AppendsThinkingText(m, u)
    ensures !Streamed(u) ==> ContinuedThinkingContent(m, u) == ThinkingContent(u)
                             || (ProviderSummary(u) && Holds(ContinuedThinkingContent(m, u), "\n\n" + ThinkingContent(u)))
  {
    hide Trim, StatusLabel, IncomingTransient, ProviderSummary, AppendDelta, Holds, ThinkingContent;
    AppendedHolds(m.content, "\n\n" + ThinkingContent(u));
  }

  lemma {:induction false} LabelNotBlank(u: ThinkingUpdate)
    ensures Trim(StatusLabel(u.state, u.verb)) != []
  {
    hide Trim;
    var shown := StatusLabel(u.state, u.verb);
    TrimIsSolid(shown);
    if u.verb.Some? {
      TrimIsSolid(u.verb.value);
    }
    assert shown != [] && !IsSpace(shown[0]);
  }

  lemma ThoughtNotBlank(u: ThinkingUpdate)
    ensures Trim(ThinkingContent(u)) != []
  {
    hide Trim, StatusLabel;
    LabelNotBlank(u);
  }

  lemma {:induction false} NormalizeBlank(s: string)
    requires Blank(NormalizeNewlines(s))
    ensures Blank(s)
    decreases |s|
  {
    var n := NormalizeNewlines(s);
    if CrlfAt(s, 0) {
      assert n[1..] == NormalizeNewlines(s[2..]);
      NormalizeBlank(s[2..]);
      assert forall i | 2 <= i < |s| :: s[i] == s[2..][i - 2];
    } else if s != [] {
      assert n[0] == s[0] && n[1..] == NormalizeNewlines(s[1..]);
      NormalizeBlank(s[1..]);
      assert forall i | 1 <= i < |s| :: s[i] == s[1..][i - 1];
    }
  }

  /** Text that has a summary in it is not blank. */
  lemma {:induction false} SummaryNotBlank(content: string, summary: string)
    requires Trim(summary) != [] && Holds(content, "\n\n" + summary)
    ensures Trim(content) != []
  {
    hide Trim, NormalizeNewlines;
    var delta := "\n\n" + summary;
    TrimIsSolid(summary);
    assert exists i :: 0 <= i < |delta| && !IsSpace(delta[i]) by {
      var i :| 0 <= i < |summary| && !IsSpace(summary[i]);
      assert delta[i + 2] == summary[i];
    }
    if Blank(NormalizeNewlines(delta)) {
      NormalizeBlank(delta);
    }
    TrimIsSolid(NormalizeNewlines(delta));
    SolidWithinTrim(content, Core(delta));
  }

  /** The message reads as the update does up to outer white space only if it reads exactly so. */
  predicate ReadsExactly(m: ChatMessage, u: ThinkingUpdate) {
    Trim(m.content) == Trim(ThinkingContent(u)) ==> m.content == ThinkingContent(u)
  }

  /** Delivered again over what it wrote, an update that is not streamed writes the same, up to outer white space. */
  lemma NotStreamedStays(m: ChatMessage, u: ThinkingUpdate)
    requires Thought(m, u) && !Streamed(u)
    requires m.content == ThinkingContent(u) || (ProviderSummary(u) && Holds(m.content, "\n\n" + ThinkingContent(u)))
    ensures ContinuedThinkingContent(m, u) == m.content <==> ReadsExactly(m, u)
  {
    hide Trim, StatusLabel, IncomingTransient, ProviderSummary, AppendDelta, Holds, ThinkingContent;
    WrittenThought(m, u);
    AbsorbedIff(m.content, "\n\n" + ThinkingContent(u));
    ThoughtNotBlank(u);
    if m.content != ThinkingContent(u) {
      SummaryNotBlank(m.content, ThinkingContent(u));
    }
  }

  /** Streamed text is appended once more, unless the message reads as its own label. */
  lemma StreamedStays(m: ChatMessage, u: ThinkingUpdate)
    requires Thought(m, u) && m.metadata == ThinkingMetadata(m.metadata, u) && Streamed(u)
    ensures ContinuedThinkingContent(m, u) == m.content
            <==> m.content == StatusLabel(u.state, u.verb) && u.text == Some(StatusLabel(u.state, u.verb))
  {
    hide Trim, StatusLabel, IncomingTransient, ProviderSummary, AppendDelta;
    ContinuedTwice(m, u);
    assert u.text.Some? && u.text.value != "" && ThinkingContent(u) == u.text.value by { SaysText(u); }
    if m.content != StatusLabel(u.state, u.verb) {
      assert |m.content + u.text.value| > |m.content|;
    }
  }

  lemma SaysText(u: ThinkingUpdate)
    requires TrimmedOr(u.text) != ""
    ensures u.text.Some? && u.text.value != "" && ThinkingContent(u) == u.text.value
  {
    hide StatusLabel;
    assert Trim("") == [];
  }

  /** The message behind an update, and what it says. */
  lemma WrittenIs(ms: seq<ChatMessage>, u: ThinkingUpdate)
    ensures var i, once := ThinkingIndex(ms, u), UpdateThinking(ms, u);
            var m := once[if i >= 0 then i else |ms|];
            && Thought(m, u) && m.metadata == ThinkingMetadata(m.metadata, u)
            && (!Streamed(u) ==> m.content == ThinkingContent(u) || (ProviderSummary(u) && Holds(m.content, "\n\n" + ThinkingContent(u))))
            && (ContinuedThinking(m, u) == m <==> ContinuedThinkingContent(m, u) == m.content)
  {
    hide Thought, ThinkingIndex, Streamed, ContinuedThinkingContent, ThinkingContent, Holds, ProviderSummary, IncomingTransient, NewThinkingId, Trim;
    var i := ThinkingIndex(ms, u);
    ThoughtAfter(if i >= 0 then ms[i] else NewThinking(NewThinkingId(ms, u), u), NewThinkingId(ms, u), u);
    if i >= 0 {
      WrittenThought(ms[i], u);
    }
  }

  /**
   A thinking update delivered again changes nothing exactly when, streamed, the message and the text both
   read as the label of the state, and otherwise the message does not differ in outer white space alone.
   */
  lemma {:induction false} ThinkingTwiceIff(ms: seq<ChatMessage>, u: ThinkingUpdate)
    ensures var i, once := ThinkingIndex(ms, u), UpdateThinking(ms, u);
            var shown := StatusLabel(u.state, u.verb);
            UpdateThinking(once, u) == once
            <==> var m := once[if i >= 0 then i else |ms|];
                 if Streamed(u) then u.text == Some(shown) && m.content == shown else ReadsExactly(m, u)
  {
    hide Thought, ThinkingIndex, Streamed, ReadsExactly, ContinuedThinking, ContinuedThinkingContent, ThinkingContent, Holds, ProviderSummary, StatusLabel, ThinkingMetadata;
    var i, once := ThinkingIndex(ms, u), UpdateThinking(ms, u);
    var k := if i >= 0 then i else |ms|;
    ThinkingFindsAgain(ms, u);
    WrittenIs(ms, u);
    WrittenAgain(once, k, ContinuedThinking(once[k], u));
    if Streamed(u) {
      StreamedStays(once[k], u);
    } else {
      NotStreamedStays(once[k], u);
    }
  }

  // ---- Notices ------------------------------------------------------------------------------------

  lemma RequestTwice(ms: seq<ChatMessage>, p: Permission)
    ensures RequestPermission(RequestPermission(ms, p), p) == RequestPermission(ms, p)
  {
    hide PermissionId;
    var i, once := FindIndex(HasId(PermissionId(p.requestId)), ms), RequestPermission(ms, p);
    var k := if i >= 0 then i else |ms|;
    FirstIndexIs(HasId(PermissionId(p.requestId)), once, k);
    assert once[k := once[k]] == once;
  }

  lemma ResolvedAgain(m: ChatMessage, p: Permission)
    ensures PermissionResolved(PermissionResolved(m, p), p) == PermissionResolved(m, p)
    ensures var n := PermissionMessage(p, p.now, DecisionStatus(p.rejected)); PermissionResolved(n, p) == n
  {
    hide PermissionId;
  }

  /** An answer to a permission request is settled by its first delivery. */
  lemma ResolveTwice(ms: seq<ChatMessage>, p: Permission)
    ensures ResolvePermission(ResolvePermission(ms, p), p) == ResolvePermission(ms, p)
  {
    hide PermissionId, PermissionResolved;
    var i, once := FindIndex(HasId(PermissionId(p.requestId)), ms), ResolvePermission(ms, p);
    if once != ms {
      var k := if i >= 0 then i else |ms|;
      ResolvedAgain(if i >= 0 then ms[i] else once[k], p);
      ResolvedKeepsId(if i >= 0 then ms[i] else once[k], p);
      FirstIndexIs(HasId(PermissionId(p.requestId)), once, k);
      assert once[k := once[k]] == once;
    }
  }

  lemma ResolvedKeepsId(m: ChatMessage, p: Permission)
    ensures PermissionResolved(m, p).id == m.id
  {
  }

  lemma SpecialAgain(e: SpecialEvent, previous: Option<ChatMessage>)
    ensures var m := SpecialMessage(e, previous); SpecialMessage(e, Some(m)) == m
  {
    hide StableKey, SpecialId, Trim;
  }

  /** A special event delivered again finds its own message and leaves it as it is. */
  lemma SpecialTwice(ms: seq<ChatMessage>, e: SpecialEvent)
    ensures AppendSpecial(AppendSpecial(ms, e), e) == AppendSpecial(ms, e)
  {
    hide SpecialMessage, SpecialId;
    var i, once := FindIndex(HasId(SpecialId(e)), ms), AppendSpecial(ms, e);
    var k := if i >= 0 then i else |ms|;
    var previous := if i >= 0 then Some(ms[i]) else None;
    SpecialAgain(e, previous);
    assert once[k].id == SpecialId(e) by { SpecialHasId(e, previous); }
    FirstIndexIs(HasId(SpecialId(e)), once, k);
    assert once[k := once[k]] == once;
  }

  lemma SpecialHasId(e: SpecialEvent, previous: Option<ChatMessage>)
    ensures SpecialMessage(e, previous).id == SpecialId(e)
  {
    hide SpecialId, StableKey;
  }
}
