/** Every output is applied exactly once, however often its event is replayed: exactly when no task end drops a block with output. */
module ExactlyOnce {
  import opened Seqs
  import opened Text
  import ContentDelta
  import opened ChatMessages
  import opened ToolBlocks
  import opened TraceEvents
  import opened TraceReplay
  import opened BlockInvariants
  import opened GuardedBlocks
  import opened OneBlock
  import opened FirstBlocks
  import opened FirstBlockUpdates
  import opened ReplayOutputs

  /** The transcript after events that all reach it, repeated ones among them. */
  function ApplyAll(env: Environment, ms: seq<ChatMessage>, es: seq<Event>): seq<ChatMessage> {
    if es == [] then ms else Apply(env, ApplyAll(env, ms, es[..|es| - 1]), es[|es| - 1])
  }

  // ---- What the outputs should amount to ---------------------------------------------------

  /** The distinct events, in order of first occurrence. */
  function Firsts(es: seq<Event>): seq<Event> {
    if es == [] then []
    else
      var init, e := es[..|es| - 1], es[|es| - 1];
      if e in init then Firsts(init) else Firsts(init) + [e]
  }

  function NotMarked(ms: seq<ChatMessage>): Event -> bool {
    (e: Event) => !AllMarked(ms, e)
  }

  /** The distinct events that the transcript had not seen. */
  function News(ms: seq<ChatMessage>, es: seq<Event>): seq<Event> {
    Filter(NotMarked(ms), Firsts(es))
  }

  /** What a list of events appends to one buffer. */
  function AllDeltas(es: seq<Event>, x: string, stream: Stream): seq<string> {
    if es == [] then [] else AllDeltas(es[..|es| - 1], x, stream) + Deltas(es[|es| - 1], x, stream)
  }

  /** The text of a stream when every output not seen before is folded in once, at its first occurrence. */
  function Expected(ms: seq<ChatMessage>, es: seq<Event>, x: string, stream: Stream): string {
    ContentDelta.AppendAll(OutputText(ms, x, stream), AllDeltas(News(ms, es), x, stream))
  }

  ghost predicate AsExpected(env: Environment, ms: seq<ChatMessage>, es: seq<Event>) {
    forall x, stream :: OutputText(ApplyAll(env, ms, es), x, stream) == Expected(ms, es, x, stream)
  }

  /** The end of a task drops a first block that holds output. */
  ghost predicate DropsText(ms: seq<ChatMessage>, e: Event) {
    e.body.TaskEnded? && exists x :: Drops(ms, e.sessionId, e.taskId, x) && Held(ms, x) != NO_OUTPUT
  }

  // ---- What is asked of the start and of the events ------------------------------------------

  /** Events that share a marker are the same event. */
  ghost predicate MarksSeparate(es: seq<Event>) {
    forall e, f, k | e in es && f in es && k in Marks(e) && k in Marks(f) :: e == f
  }

  /** The event brings output that is not blank. */
  predicate Loud(e: Event) {
    EventOutput(e).Some? && ContentDelta.Core(EventOutput(e).value.chunk.delta) != []
  }

  function CallOfOutput(e: Event): string
    requires EventOutput(e).Some?
  {
    EventOutput(e).value.key.toolUseId
  }

  /** The event was replayed into the list before, and its block stands with output; or the list has none of its markers. */
  predicate SeenOrNot(ms: seq<ChatMessage>, e: Event) {
    || (AllMarked(ms, e) && (Loud(e) ==> Held(ms, CallOfOutput(e)) != NO_OUTPUT))
    || Marks(e) !! Carried(ms)
  }

  ghost predicate Replayable(ms: seq<ChatMessage>, es: seq<Event>) {
    && AllGood(ms) && AllGuarded(ms) && OthersEmpty(ms)
    && MarksSeparate(es) && forall e | e in es :: PlainIds(e) && SeenOrNot(ms, e)
  }

  // ---- Sequences of events ------------------------------------------------------------------------

  lemma {:induction false} AppendAllConcat(content: string, xs: seq<string>, ys: seq<string>)
    ensures ContentDelta.AppendAll(content, xs + ys) == ContentDelta.AppendAll(ContentDelta.AppendAll(content, xs), ys)
    decreases |xs|
  {
    hide ContentDelta.AppendDelta;
    if xs == [] {
      assert xs + ys == ys;
    } else {
      assert (xs + ys)[1..] == xs[1..] + ys;
      AppendAllConcat(ContentDelta.AppendDelta(content, xs[0]), xs[1..], ys);
    }
  }

  lemma NewsStep(ms: seq<ChatMessage>, init: seq<Event>, e: Event)
    ensures News(ms, init + [e]) == News(ms, init) + if e in init || AllMarked(ms, e) then [] else [e]
  {
    hide AllMarked;
    var es := init + [e];
    assert es[..|es| - 1] == init;
    FilterAppend(NotMarked(ms), Firsts(init), [e]);
    assert Filter(NotMarked(ms), [e]) == if AllMarked(ms, e) then [] else [e];
  }

  lemma {:induction false} AllDeltasStep(es: seq<Event>, e: Event, x: string, stream: Stream)
    ensures AllDeltas(es + [e], x, stream) == AllDeltas(es, x, stream) + Deltas(e, x, stream)
    ensures AllDeltas(es + [], x, stream) == AllDeltas(es, x, stream)
  {
    assert (es + [e])[..|es|] == es;
    assert es + [] == es;
  }

  /** One more event: nothing for one that was seen, its output for one that was not. */
  lemma ExpectedStep(ms: seq<ChatMessage>, init: seq<Event>, e: Event, x: string, stream: Stream)
    ensures Expected(ms, init + [e], x, stream)
            == if e in init || AllMarked(ms, e) then Expected(ms, init, x, stream)
               else ContentDelta.AppendAll(Expected(ms, init, x, stream), Deltas(e, x, stream))
  {
    hide AllMarked, News, AllDeltas, ContentDelta.AppendAll, Deltas;
    NewsStep(ms, init, e);
    AllDeltasStep(News(ms, init), e, x, stream);
    AppendAllConcat(OutputText(ms, x, stream), AllDeltas(News(ms, init), x, stream), Deltas(e, x, stream));
  }

  lemma ExpectedAtStart(ms: seq<ChatMessage>, x: string, stream: Stream)
    ensures Expected(ms, [], x, stream) == OutputText(ms, x, stream)
  {
    hide AllMarked;
  }

  lemma {:induction false} FirstsMembers(es: seq<Event>)
    ensures forall e :: e in Firsts(es) <==> e in es
  {
    if es != [] {
      FirstsMembers(es[..|es| - 1]);
      assert es == es[..|es| - 1] + [es[|es| - 1]];
    }
  }

  lemma NewsMember(ms: seq<ChatMessage>, es: seq<Event>, e: Event)
    requires e in es && !AllMarked(ms, e)
    ensures e in News(ms, es)
  {
    hide AllMarked;
    FirstsMembers(es);
    FilterMembers(NotMarked(ms), Firsts(es));
  }

  lemma {:induction false} AllDeltasMember(es: seq<Event>, e: Event)
    requires e in es && EventOutput(e).Some?
    ensures var o := EventOutput(e).value; o.chunk.delta in AllDeltas(es, o.key.toolUseId, o.chunk.stream)
  {
    hide EventOutput;
    var init, last := es[..|es| - 1], es[|es| - 1];
    assert es == init + [last];
    if e != last {
      AllDeltasMember(init, e);
    }
  }

  // ---- Texts that stay --------------------------------------------------------------------------------

  lemma HoldsSomething(content: string, delta: string)
    requires ContentDelta.Holds(content, delta) && ContentDelta.Core(delta) != []
    ensures content != ""
  {
    hide ContentDelta.Core;
  }

  lemma NotEmptyStays(content: string, delta: string)
    requires content != ""
    ensures ContentDelta.AppendDelta(content, delta) != ""
  {
    hide ContentDelta.NormalizeNewlines, Includes, EndsWith;
    var text := ContentDelta.NormalizeNewlines(delta);
    assert TrimStart(text) == "" ==> Trim(text) == [];
  }

  lemma {:induction false} NotEmptyStaysAll(content: string, deltas: seq<string>)
    requires content != ""
    ensures ContentDelta.AppendAll(content, deltas) != ""
    decreases |deltas|
  {
    hide ContentDelta.AppendDelta;
    if deltas != [] {
      NotEmptyStays(content, deltas[0]);
      NotEmptyStaysAll(ContentDelta.AppendDelta(content, deltas[0]), deltas[1..]);
    }
  }

  lemma HeldIsTexts(ms: seq<ChatMessage>, x: string)
    ensures Held(ms, x) == NO_OUTPUT <==> forall stream :: OutputText(ms, x, stream) == ""
  {
    hide Held;
    var o := Held(ms, x);
    assert OutputText(ms, x, Activity) == o.activity && OutputText(ms, x, Stdout) == o.stdout;
    assert OutputText(ms, x, Stderr) == o.stderr && OutputText(ms, x, Preview) == o.result;
  }

  /** Folding in an event that is not loud changes no text. */
  lemma QuietFold(ms: seq<ChatMessage>, after: seq<ChatMessage>, e: Event, x: string, stream: Stream)
    requires Folded(ms, after, e) && !Loud(e)
    ensures OutputText(after, x, stream) == OutputText(ms, x, stream)
  {
    hide Held, EventOutput, ContentDelta.AppendDelta, ContentDelta.Core, ContentDelta.AppendAll;
    AppendOne(OutputText(ms, x, stream), "");
    if EventOutput(e).Some? {
      var delta := EventOutput(e).value.chunk.delta;
      AppendOne(OutputText(ms, x, stream), delta);
      ContentDelta.AbsorbedIff(OutputText(ms, x, stream), delta);
    }
  }

  /** The call of a loud event that was replayed should hold output. */
  lemma LoudExpected(ms: seq<ChatMessage>, es: seq<Event>, e: Event) returns (stream: Stream)
    requires Loud(e) && SeenOrNot(ms, e) && (e in es || AllMarked(ms, e))
    ensures Expected(ms, es, CallOfOutput(e), stream) != ""
  {
    hide AllMarked, EventOutput, ContentDelta.AppendDelta, ContentDelta.Core, ContentDelta.AppendAll, News, AllDeltas, Held, Carried, Marks;
    var o := EventOutput(e).value;
    var x := o.key.toolUseId;
    if AllMarked(ms, e) && Held(ms, x) != NO_OUTPUT {
      HeldIsTexts(ms, x);
      stream :| OutputText(ms, x, stream) != "";
      NotEmptyStaysAll(OutputText(ms, x, stream), AllDeltas(News(ms, es), x, stream));
    } else {
      stream := o.chunk.stream;
      assert e in News(ms, es) by { UnseenIsNews(ms, es, e); }
      AllDeltasMember(News(ms, es), e);
      ContentDelta.AppendedAllHold(OutputText(ms, x, stream), AllDeltas(News(ms, es), x, stream));
      HoldsSomething(Expected(ms, es, x, stream), o.chunk.delta);
    }
  }

  lemma UnseenIsNews(ms: seq<ChatMessage>, es: seq<Event>, e: Event)
    requires Loud(e) && SeenOrNot(ms, e) && (e in es || AllMarked(ms, e))
    requires !(AllMarked(ms, e) && Held(ms, CallOfOutput(e)) != NO_OUTPUT)
    ensures e in News(ms, es)
  {
    hide News, Held, EventOutput, First;
    if AllMarked(ms, e) {
      KeyMarks(e);
      MarkedIsCarried(ms, EventOutput(e).value.key);
      assert false;
    }
    NewsMember(ms, es, e);
  }

  lemma MarkedIsCarried(ms: seq<ChatMessage>, k: Key)
    requires MarkedFirst(ms, k.toolUseId, k.marker)
    ensures k.marker in Carried(ms)
  {
    FirstMember(ms, k.toolUseId);
  }

  lemma KeysOneCall(e: Event)
    ensures EventOutput(e).Some? ==> forall k | k in Keys(e) :: k.toolUseId == CallOfOutput(e)
  {
    hide ContentTool, InputMarker, OutputMarker, CommandMarker;
  }

  // ---- Every moment of a run -------------------------------------------------------------------------

  predicate Seen(ms: seq<ChatMessage>, init: seq<Event>, e: Event) {
    e in init || AllMarked(ms, e)
  }

  /** Loud events that were seen are marked on their block, and no marker of an event that was not is anywhere. */
  ghost predicate MarksTell(ms: seq<ChatMessage>, init: seq<Event>, s: seq<ChatMessage>, e: Event) {
    if Seen(ms, init, e) then Loud(e) ==> AllMarked(s, e) else Marks(e) !! Carried(s)
  }

  /** The state s after the events init of a run of es over ms. */
  ghost predicate OnTrack(ms: seq<ChatMessage>, es: seq<Event>, init: seq<Event>, s: seq<ChatMessage>) {
    && AllGood(s) && AllGuarded(s) && OthersEmpty(s)
    && (forall x, stream :: OutputText(s, x, stream) == Expected(ms, init, x, stream))
    && forall e | e in es :: MarksTell(ms, init, s, e)
  }

  /** Replaying an event that was seen changes no text. */
  lemma SeenChangesNothing(ms: seq<ChatMessage>, init: seq<Event>, s: seq<ChatMessage>, after: seq<ChatMessage>, e: Event, x: string, stream: Stream)
    requires Effect(s, after, e) && MarksTell(ms, init, s, e) && Seen(ms, init, e)
    ensures OutputText(after, x, stream) == OutputText(s, x, stream)
  {
    hide Orderly, Held, Carried, Marks, AllMarked, Loud, Folded, Seen;
    if !HeldStays(s, after) {
      QuietFold(s, after, e, x, stream);
    } else {
      assert Held(after, x) == Held(s, x);
    }
  }

  lemma MarksTellBehind(ms: seq<ChatMessage>, es: seq<Event>, init: seq<Event>, s: seq<ChatMessage>, after: seq<ChatMessage>, e: Event, f: Event)
    requires MarksSeparate(es) && e in es && f in es && Effect(s, after, e)
    requires MarksTell(ms, init, s, f) && MarksTell(ms, init, s, e)
    ensures MarksTell(ms, init + [e], after, f)
  {
    hide Held, Loud, Folded, HeldStays, MarkedFirst, OthersEmpty, AllGood, Keys, Marks, Carried;
    if Seen(ms, init, f) {
      if AllMarked(s, f) {
        assert forall k | k in Keys(f) :: MarkedFirst(after, k.toolUseId, k.marker);
      }
    } else if f != e {
      assert forall k | k in Marks(f) :: k !in Marks(e);
      assert Carried(after) <= Carried(s) + Marks(e);
    }
  }

  lemma QuietStep(env: Environment, ms: seq<ChatMessage>, es: seq<Event>, init: seq<Event>, s: seq<ChatMessage>, e: Event)
    requires Replayable(ms, es) && OnTrack(ms, es, init, s) && e in es && !e.body.TaskEnded?
    ensures OnTrack(ms, es, init + [e], Apply(env, s, e))
  {
    hide AllGood, AllGuarded, OthersEmpty, Effect, MarksTell, Seen, Apply, PlainIds, SeenOrNot, MarksSeparate, Held, Expected, Says;
    var after := Apply(env, s, e);
    EventEffect(env, s, e);
    ApplyGuards(env, s, e);
    EffectKeepsShape(s, after, e);
    forall x, stream ensures OutputText(after, x, stream) == Expected(ms, init + [e], x, stream) {
      TextStep(ms, init, s, after, e, x, stream);
    }
    forall f | f in es ensures MarksTell(ms, init + [e], after, f) {
      MarksTellBehind(ms, es, init, s, after, e, f);
    }
  }

  lemma EffectKeepsShape(s: seq<ChatMessage>, after: seq<ChatMessage>, e: Event)
    requires Effect(s, after, e) && OthersEmpty(s)
    ensures AllGood(after) && OthersEmpty(after)
  {
    hide AllGood, OthersEmpty, MarksStay, Carried, Marks, Folded, HeldStays, AllMarked;
  }

  lemma TextStep(ms: seq<ChatMessage>, init: seq<Event>, s: seq<ChatMessage>, after: seq<ChatMessage>, e: Event, x: string, stream: Stream)
    requires Effect(s, after, e) && MarksTell(ms, init, s, e)
    requires OutputText(s, x, stream) == Expected(ms, init, x, stream)
    ensures OutputText(after, x, stream) == Expected(ms, init + [e], x, stream)
  {
    hide Orderly, Held, Expected, Carried, Marks, AllMarked, Loud, Deltas, ContentDelta.AppendAll;
    ExpectedStep(ms, init, e, x, stream);
    if Seen(ms, init, e) {
      SeenChangesNothing(ms, init, s, after, e, x, stream);
    } else {
      assert Folded(s, after, e);
    }
  }

  /** The end of a task that drops no output: the blocks it drops have had no loud event. */
  lemma EndStep(env: Environment, ms: seq<ChatMessage>, es: seq<Event>, init: seq<Event>, s: seq<ChatMessage>, e: Event)
    requires Replayable(ms, es) && OnTrack(ms, es, init, s) && e in es && e.body.TaskEnded? && !DropsText(s, e)
    ensures OnTrack(ms, es, init + [e], Apply(env, s, e))
  {
    hide AllGood, AllGuarded, OthersEmpty, Apply, PlainIds, MarksSeparate, Held, Expected, Drops, SeenOrNot, MarkedFirst, NamesStay, MarksTell, Carried;
    var after := Apply(env, s, e);
    TaskEndEffect(env, s, e);
    ApplyGuards(env, s, e);
    assert HeldStays(s, after);
    forall x, stream ensures OutputText(after, x, stream) == Expected(ms, init + [e], x, stream) {
      EndExpects(ms, init, e, x, stream);
      assert Held(after, x) == Held(s, x);
    }
    forall f | f in es ensures MarksTell(ms, init + [e], after, f) {
      EndMarksTell(ms, es, init, s, after, e, f);
    }
  }

  lemma EndExpects(ms: seq<ChatMessage>, init: seq<Event>, e: Event, x: string, stream: Stream)
    requires e.body.TaskEnded?
    ensures Expected(ms, init + [e], x, stream) == Expected(ms, init, x, stream)
  {
    hide Expected;
    ExpectedStep(ms, init, e, x, stream);
    assert Keys(e) == {};
  }

  lemma EndMarksTell(ms: seq<ChatMessage>, es: seq<Event>, init: seq<Event>, s: seq<ChatMessage>, after: seq<ChatMessage>, e: Event, f: Event)
    requires OnTrack(ms, es, init, s) && f in es && SeenOrNot(ms, f) && e.body.TaskEnded? && !DropsText(s, e)
    requires Carried(after) <= Carried(s)
    requires forall x, k | MarkedFirst(s, x, k) && !Drops(s, e.sessionId, e.taskId, x) :: MarkedFirst(after, x, k)
    ensures MarksTell(ms, init + [e], after, f)
  {
    hide AllGood, AllGuarded, OthersEmpty, Held, Expected, Drops, SeenOrNot, MarkedFirst, Carried, Loud, Keys, Marks, EventOutput;
    assert MarksTell(ms, init, s, f);
    if f == e {
      EndIsBare(e);
    } else if Seen(ms, init, f) && Loud(f) {
      assert EventOutput(f).Some? by { LoudHasOutput(f); }
      var stream := LoudExpected(ms, init, f);
      assert OutputText(s, CallOfOutput(f), stream) != "";
      HeldIsTexts(s, CallOfOutput(f));
      KeysOneCall(f);
      assert forall k | k in Keys(f) :: MarkedFirst(after, k.toolUseId, k.marker);
    }
  }

  lemma LoudHasOutput(e: Event)
    ensures Loud(e) ==> EventOutput(e).Some?
  {
    hide EventOutput, ContentDelta.Core;
  }

  lemma EndIsBare(e: Event)
    requires e.body.TaskEnded?
    ensures !Loud(e) && Keys(e) == {} && Marks(e) == {} && forall ms :: AllMarked(ms, e)
  {
  }

  lemma StartOnTrack(ms: seq<ChatMessage>, es: seq<Event>)
    requires Replayable(ms, es)
    ensures OnTrack(ms, es, [], ms)
  {
    hide AllGood, AllGuarded, OthersEmpty, Expected, PlainIds, MarksSeparate, Held, Carried, Marks, Loud;
    forall x, stream ensures OutputText(ms, x, stream) == Expected(ms, [], x, stream) {
      ExpectedAtStart(ms, x, stream);
    }
    forall e | e in es ensures MarksTell(ms, [], ms, e) {
      assert SeenOrNot(ms, e);
    }
  }

  lemma {:induction false} StaysOnTrack(env: Environment, ms: seq<ChatMessage>, es: seq<Event>, n: nat)
    requires Replayable(ms, es) && n <= |es|
    requires forall k | 0 <= k < n :: !DropsText(ApplyAll(env, ms, es[..k]), es[k])
    ensures OnTrack(ms, es, es[..n], ApplyAll(env, ms, es[..n]))
  {
    hide Replayable, OnTrack, DropsText, Apply;
    if n == 0 {
      StartOnTrack(ms, es);
      assert es[..n] == [];
    } else {
      var init, e := es[..n - 1], es[n - 1];
      StaysOnTrack(env, ms, es, n - 1);
      assert es[..n] == init + [e] && es[..n][..n - 1] == init;
      if e.body.TaskEnded? {
        EndStep(env, ms, es, init, ApplyAll(env, ms, init), e);
      } else {
        QuietStep(env, ms, es, init, ApplyAll(env, ms, init), e);
      }
    }
  }

  /** Where output is dropped, a text is missing. */
  lemma DropLosesText(env: Environment, ms: seq<ChatMessage>, es: seq<Event>, init: seq<Event>, s: seq<ChatMessage>, e: Event)
    requires Replayable(ms, es) && OnTrack(ms, es, init, s) && e in es && DropsText(s, e)
    ensures exists x, stream :: OutputText(Apply(env, s, e), x, stream) != Expected(ms, init + [e], x, stream)
  {
    hide AllGood, AllGuarded, OthersEmpty, Apply, PlainIds, MarksSeparate, Held, Expected, Drops, SeenOrNot, MarkedFirst, NamesStay, MarksTell, Carried;
    var after := Apply(env, s, e);
    TaskEndEffect(env, s, e);
    var x :| Drops(s, e.sessionId, e.taskId, x) && Held(s, x) != NO_OUTPUT;
    HeldIsTexts(s, x);
    HeldIsTexts(after, x);
    var stream :| OutputText(s, x, stream) != "";
    EndExpects(ms, init, e, x, stream);
    assert OutputText(after, x, stream) == "";
  }

  lemma {:induction false} FirstDrop(env: Environment, ms: seq<ChatMessage>, es: seq<Event>, n: nat) returns (m: nat)
    requires Replayable(ms, es) && n < |es| && DropsText(ApplyAll(env, ms, es[..n]), es[n])
    ensures m <= |es| && !AsExpected(env, ms, es[..m])
  {
    hide Replayable, OnTrack, DropsText, Apply, Expected, OutputText;
    if k: nat :| k < n && DropsText(ApplyAll(env, ms, es[..k]), es[k]) {
      m := FirstDrop(env, ms, es, k);
    } else {
      StaysOnTrack(env, ms, es, n);
      DropLosesText(env, ms, es, es[..n], ApplyAll(env, ms, es[..n]), es[n]);
      m := n + 1;
      assert es[..m] == es[..n] + [es[n]] && es[..m][..n] == es[..n];
    }
  }

  lemma {:induction false} OnTrackExpected(env: Environment, ms: seq<ChatMessage>, es: seq<Event>, n: nat)
    requires n <= |es| && OnTrack(ms, es, es[..n], ApplyAll(env, ms, es[..n]))
    ensures AsExpected(env, ms, es[..n])
  {
    hide AllGood, AllGuarded, OthersEmpty, MarksTell, Expected, OutputText, ApplyAll;
  }

  /**
   Exactly once, at every moment and for events that come any number of times: all output texts are those
   of the distinct new events folded in once each, if and only if no end of a task drops a block that holds
   output.
   */
  lemma {:induction false} OutputsExactIff(env: Environment, ms: seq<ChatMessage>, es: seq<Event>)
    requires Replayable(ms, es)
    ensures (forall n | 0 <= n <= |es| :: AsExpected(env, ms, es[..n]))
            <==> (forall n | 0 <= n < |es| :: !DropsText(ApplyAll(env, ms, es[..n]), es[n]))
  {
    hide Replayable, OnTrack, DropsText, AsExpected, ApplyAll;
    if n: nat :| n < |es| && DropsText(ApplyAll(env, ms, es[..n]), es[n]) {
      var m := FirstDrop(env, ms, es, n);
    } else {
      forall n | 0 <= n <= |es| ensures AsExpected(env, ms, es[..n]) {
        StaysOnTrack(env, ms, es, n);
        OnTrackExpected(env, ms, es, n);
      }
    }
  }

  // ---- Calls with a text to show ------------------------------------------------------------------------

  predicate TitledIn(es: seq<Event>, x: string) {
    exists e :: e in es && Titles(e, x)
  }

  predicate Brings(e: Event, x: string) {
    Loud(e) && CallOfOutput(e) == x
  }

  predicate BroughtIn(es: seq<Event>, x: string) {
    exists e :: e in es && Brings(e, x)
  }

  /** Every call that should hold output behind these events has been given a text to show. */
  ghost predicate TitledBy(ms: seq<ChatMessage>, init: seq<Event>) {
    forall x | Held(ms, x) != NO_OUTPUT || BroughtIn(init, x) :: Named(ms, x) || TitledIn(init, x)
  }

  /** Read off the list and the events: where a task ends, every call with output has a text to show. */
  ghost predicate TitledInTime(ms: seq<ChatMessage>, es: seq<Event>) {
    (forall e | e in es :: Sayable(e)) && forall i | 0 <= i < |es| && es[i].body.TaskEnded? :: TitledBy(ms, es[..i])
  }

  ghost predicate Titled(ms: seq<ChatMessage>, init: seq<Event>, s: seq<ChatMessage>) {
    && AllGood(s) && AllGuarded(s) && OthersEmpty(s)
    && (forall x :: Named(ms, x) || TitledIn(init, x) ==> Named(s, x))
    && forall x :: Held(s, x) != NO_OUTPUT ==> Held(ms, x) != NO_OUTPUT || BroughtIn(init, x)
  }

  lemma InitStep(init: seq<Event>, e: Event, x: string)
    ensures TitledIn(init + [e], x) <==> TitledIn(init, x) || Titles(e, x)
    ensures BroughtIn(init + [e], x) <==> BroughtIn(init, x) || Brings(e, x)
  {
    hide Titles, Brings;
    assert e in init + [e] && forall f | f in init :: f in init + [e];
  }

  /** Output appears only where a loud event puts it. */
  lemma OnlyLoudAdds(s: seq<ChatMessage>, after: seq<ChatMessage>, e: Event, x: string)
    requires Effect(s, after, e) && Held(s, x) == NO_OUTPUT && Held(after, x) != NO_OUTPUT
    ensures Loud(e) && CallOfOutput(e) == x
  {
    hide Orderly, Held, Carried, Marks, AllMarked, EventOutput, ContentDelta.AppendAll, ContentDelta.Core;
    HeldIsTexts(s, x);
    HeldIsTexts(after, x);
    var stream :| OutputText(after, x, stream) != "";
    assert !HeldStays(s, after);
    AppendOne("", "");
    if !Loud(e) {
      QuietFold(s, after, e, x, stream);
    } else {
      assert Deltas(e, x, stream) != [];
    }
  }

  lemma TitledQuietStep(env: Environment, ms: seq<ChatMessage>, init: seq<Event>, s: seq<ChatMessage>, e: Event)
    requires Titled(ms, init, s) && PlainIds(e) && Sayable(e) && !e.body.TaskEnded?
    ensures Titled(ms, init + [e], Apply(env, s, e))
  {
    hide AllGood, AllGuarded, OthersEmpty, Apply, PlainIds, Sayable, Effect, Held, Named, TitledIn, BroughtIn, Loud, Titles, EventOutput;
    var after := Apply(env, s, e);
    EventEffect(env, s, e);
    ApplyGuards(env, s, e);
    EffectKeepsShape(s, after, e);
    forall x
      ensures Named(ms, x) || TitledIn(init + [e], x) ==> Named(after, x)
      ensures Held(after, x) != NO_OUTPUT ==> Held(ms, x) != NO_OUTPUT || BroughtIn(init + [e], x)
    {
      InitStep(init, e, x);
      if Held(after, x) != NO_OUTPUT && Held(s, x) == NO_OUTPUT {
        OnlyLoudAdds(s, after, e, x);
      }
    }
  }

  lemma TitledEndStep(env: Environment, ms: seq<ChatMessage>, init: seq<Event>, s: seq<ChatMessage>, e: Event)
    requires Titled(ms, init, s) && e.body.TaskEnded?
    ensures Titled(ms, init + [e], Apply(env, s, e))
  {
    hide AllGood, AllGuarded, OthersEmpty, Apply, Held, Named, TitledIn, BroughtIn, Brings, Drops, MarkedFirst, Carried;
    var after := Apply(env, s, e);
    TaskEndEffect(env, s, e);
    ApplyGuards(env, s, e);
    forall x
      ensures Named(ms, x) || TitledIn(init + [e], x) ==> Named(after, x)
      ensures BroughtIn(init, x) ==> BroughtIn(init + [e], x)
    {
      InitStep(init, e, x);
    }
  }

  lemma NamedNotDropped(ms: seq<ChatMessage>, e: Event, x: string)
    requires Named(ms, x)
    ensures !Drops(ms, e.sessionId, e.taskId, x)
  {
  }

  lemma {:induction false} StaysTitled(env: Environment, ms: seq<ChatMessage>, es: seq<Event>, n: nat)
    requires Replayable(ms, es) && (forall e | e in es :: Sayable(e)) && n <= |es|
    ensures Titled(ms, es[..n], ApplyAll(env, ms, es[..n]))
  {
    hide AllGood, AllGuarded, OthersEmpty, Apply, Held, Named, TitledIn, BroughtIn, PlainIds, Sayable, SeenOrNot, MarksSeparate;
    if n == 0 {
      assert es[..n] == [];
      assert forall x :: !TitledIn([], x) by { NothingTitled(); }
    } else {
      var init, e := es[..n - 1], es[n - 1];
      StaysTitled(env, ms, es, n - 1);
      assert es[..n] == init + [e] && es[..n][..n - 1] == init && e in es;
      if e.body.TaskEnded? {
        TitledEndStep(env, ms, init, ApplyAll(env, ms, init), e);
      } else {
        TitledQuietStep(env, ms, init, ApplyAll(env, ms, init), e);
      }
    }
  }

  lemma NothingTitled()
    ensures forall x :: !TitledIn([], x)
  {
  }

  lemma {:induction false} TitledDropsNothing(env: Environment, ms: seq<ChatMessage>, es: seq<Event>, n: nat)
    requires Replayable(ms, es) && TitledInTime(ms, es) && n < |es|
    ensures !DropsText(ApplyAll(env, ms, es[..n]), es[n])
  {
    hide Replayable, ApplyAll, Drops, Held, Named, TitledIn, BroughtIn, AllGood, AllGuarded, OthersEmpty, Sayable;
    var s := ApplyAll(env, ms, es[..n]);
    StaysTitled(env, ms, es, n);
    forall x | Named(s, x) ensures !Drops(s, es[n].sessionId, es[n].taskId, x) {
      NamedNotDropped(s, es[n], x);
    }
    assert es[n].body.TaskEnded? ==> TitledBy(ms, es[..n]);
  }

  /** Every call titled in time: at every moment every output is there exactly once. */
  lemma {:induction false} TitledExact(env: Environment, ms: seq<ChatMessage>, es: seq<Event>, n: nat)
    requires Replayable(ms, es) && TitledInTime(ms, es) && n <= |es|
    ensures AsExpected(env, ms, es[..n])
  {
    hide Replayable, TitledInTime, ApplyAll, OnTrack, DropsText, AsExpected;
    forall k | 0 <= k < n ensures !DropsText(ApplyAll(env, ms, es[..k]), es[k]) {
      TitledDropsNothing(env, ms, es, k);
    }
    StaysOnTrack(env, ms, es, n);
    OnTrackExpected(env, ms, es, n);
  }
}
