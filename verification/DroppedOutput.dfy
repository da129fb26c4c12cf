/** A trace whose repetition folds an output in twice: the end of a task drops its block as empty, and the marker with it. */
module DroppedOutput {
  import opened Seqs
  import opened Text
  import ContentDelta
  import opened ChatMessages
  import opened MessageUpdates
  import opened ToolBlocks
  import opened TraceEvents
  import opened TraceReplay
  import opened CancelGate
  import opened BlockInvariants
  import opened GuardedBlocks
  import opened OneBlock
  import opened FirstBlocks
  import opened FirstBlockUpdates
  import opened ReplayOutputs
  import opened ExactlyOnce
  import opened ReplayRuns

  const CALL := "x"
  const UNTITLED := ToolInfo(CALL, None, NO_PRESENTATION)
  const TITLED := ToolInfo(CALL, None, NO_PRESENTATION.(displayTitle := Some("a")))

  function Line(id: string, sequence: int, body: Body): Event {
    Event(id, "s", "t", sequence, sequence, ChatVisible, false, body)
  }

  const FIRST := Line("e1", 1, ToolOutputEvent(Some(OutputPart(UNTITLED, Chunk(Stdout, "1")))))
  const END := Line("e2", 2, TaskEnded(TaskFailed))
  const START := Line("e3", 3, ToolStarted(Some(TITLED), None))
  const SECOND := Line("e4", 4, ToolOutputEvent(Some(OutputPart(UNTITLED, Chunk(Stdout, "2")))))

  const TRACE := [FIRST, END, START, SECOND]

  lemma {:induction false} NothingCancelled(es: seq<Event>)
    requires forall e | e in es :: !IsCancel(e.body)
    ensures ReplayCancelled({}, es) == {}
  {
    if es != [] {
      assert es[|es| - 1] in es;
      NothingCancelled(es[..|es| - 1]);
    }
  }

  lemma {:induction false} OneMoreReaches(env: Environment, init: seq<Event>, e: Event)
    requires Applied(env, {}, init) == init && (forall f | f in init :: !IsCancel(f.body)) && Shows(env, e)
    ensures Applied(env, {}, init + [e]) == init + [e]
  {
    hide Applied, Shows;
    NothingCancelled(init);
    AppliedStep(env, {}, init, e);
  }

  lemma {:induction false} AllReach(env: Environment)
    ensures Applied(env, {}, TRACE) == TRACE
  {
    hide Applied;
    NothingApplied(env, {});
    OneMoreReaches(env, [], FIRST);
    assert [] + [FIRST] == [FIRST];
    OneMoreReaches(env, [FIRST], END);
    assert [FIRST] + [END] == [FIRST, END];
    OneMoreReaches(env, [FIRST, END], START);
    assert [FIRST, END] + [START] == [FIRST, END, START];
    OneMoreReaches(env, [FIRST, END, START], SECOND);
    assert [FIRST, END, START] + [SECOND] == TRACE;
  }

  lemma {:induction false} FourSteps(env: Environment, ms: seq<ChatMessage>)
    ensures ApplyAll(env, ms, TRACE) == Apply(env, Apply(env, Apply(env, Apply(env, ms, FIRST), END), START), SECOND)
  {
    hide Apply;
    assert TRACE[..3] == [FIRST, END, START] && [FIRST, END, START][..2] == [FIRST, END] && [FIRST, END][..1] == [FIRST] && [FIRST][..0] == [];
    assert ApplyAll(env, ms, []) == ms;
    assert ApplyAll(env, ms, [FIRST]) == Apply(env, ms, FIRST);
    assert ApplyAll(env, ms, [FIRST, END]) == Apply(env, Apply(env, ms, FIRST), END);
    assert ApplyAll(env, ms, [FIRST, END, START]) == Apply(env, Apply(env, Apply(env, ms, FIRST), END), START);
  }

  // ---- The first replay ---------------------------------------------------------------------

  const FIRST_BLOCK := WithMarker(CALL, OutputMarker(FIRST))(OutputNew(CallOf(FIRST, UNTITLED), Stdout, "1"))

  lemma {:induction false} FirstMakesBlock(env: Environment)
    ensures Apply(env, [], FIRST) == [FIRST_BLOCK]
  {
    hide AppendOutput, ToolUseId, FindIndex, OutputNew, OutputMarker;
    var call := CallOf(FIRST, UNTITLED);
    NothingFound(CALL, OutputMarker(FIRST));
    assert Closed([], FIRST) == [];
    assert AppendToolOutput([], call, Stdout, "1") == [OutputNew(call, Stdout, "1")];
  }

  lemma FirstBlockIsBlank()
    ensures FIRST_BLOCK.sessionId == "s" && FIRST_BLOCK.taskId == "t" && FIRST_BLOCK.role == Assistant && FIRST_BLOCK.content == ""
  {
    hide AppendOutput, ToolUseId, OutputMarker;
  }

  /** The first output makes a block without text, and the end of the task drops it. */
  lemma {:induction false} FirstIsDropped(env: Environment)
    ensures Apply(env, Apply(env, [], FIRST), END) == []
  {
    hide ReplayTaskEnd, WithMarker, OutputNew;
    FirstMakesBlock(env);
    FirstBlockIsBlank();
    BlankDropped(FIRST_BLOCK);
  }

  lemma NothingFound(x: string, k: string)
    ensures FindIndex(Marked(x, k), []) < 0 && FindIndex(OutputTarget(x), []) < 0
  {
  }

  lemma {:induction false} BlankDropped(m: ChatMessage)
    requires m.sessionId == "s" && m.taskId == "t" && m.role == Assistant && m.content == ""
    ensures ReplayTaskEnd([m], END) == []
  {
    assert Trim("") == [];
    var n := Stopper("s", "t")(m);
    assert Map(Stopper("s", "t"), [m]) == [n];
    assert Filter(KeptWhenStopped("s", "t"), [n]) == [];
  }

  lemma {:induction false} NoOutput(x: string)
    ensures Held([], x) == NO_OUTPUT && Carried([]) == {} && AllGood([]) && AllGuarded([]) && OthersEmpty([])
  {
  }

  lemma MarksOf()
    ensures Marks(FIRST) == {OutputMarker(FIRST)} && Marks(SECOND) == {OutputMarker(SECOND)} && Marks(START) == {}
    ensures OutputMarker(FIRST) != OutputMarker(SECOND)
  {
    assert Keys(FIRST) == {Key(CALL, OutputMarker(FIRST))};
    assert Keys(SECOND) == {Key(CALL, OutputMarker(SECOND))};
    assert OutputMarker(FIRST)[1] == '1' && OutputMarker(SECOND)[1] == '4';
  }

  // ---- What the other events add ----------------------------------------------------------------

  ghost predicate Shaped(ms: seq<ChatMessage>) {
    AllGood(ms) && AllGuarded(ms) && OthersEmpty(ms)
  }

  lemma ShapeStays(env: Environment, ms: seq<ChatMessage>, e: Event)
    requires Shaped(ms) && PlainIds(e) && !e.body.TaskEnded?
    ensures Shaped(Apply(env, ms, e)) && Effect(ms, Apply(env, ms, e), e) && Says(ms, Apply(env, ms, e), e)
  {
    hide AllGood, AllGuarded, OthersEmpty, Effect, Says, PlainIds, Apply;
    EventEffect(env, ms, e);
    ApplyGuards(env, ms, e);
    EffectKeepsShape(ms, Apply(env, ms, e), e);
  }

  function Shown(ms: seq<ChatMessage>): string {
    OutputText(ms, CALL, Stdout)
  }

  /** The titled start: no output, no marker, and a text to show from now on. */
  lemma StartShows(env: Environment, ms: seq<ChatMessage>)
    requires Shaped(ms)
    ensures var after := Apply(env, ms, START);
            Shaped(after) && Shown(after) == Shown(ms) && Carried(after) <= Carried(ms) && MarksStay(ms, after) && Named(after, CALL)
  {
    hide AllGood, AllGuarded, OthersEmpty, Apply, Held, Carried, Named, InputDisplay;
    var after := Apply(env, ms, START);
    ShapeStays(env, ms, START);
    StartIsTitled();
    MarksOf();
    assert Keys(START) == {};
    assert Held(after, CALL) == Held(ms, CALL);
    assert Carried(after) <= Carried(ms) + {};
  }

  lemma StartIsTitled()
    ensures InputDisplay(NO_PRESENTATION.(displayTitle := Some("a")), NO_PRESENTATION) != ""
  {
    assert Trim("a") == "a";
  }

  /** An output not marked anywhere is folded in. */
  lemma OutputShows(env: Environment, ms: seq<ChatMessage>, e: Event, delta: string)
    requires Shaped(ms) && e.body == ToolOutputEvent(Some(OutputPart(UNTITLED, Chunk(Stdout, delta)))) && Marks(e) !! Carried(ms)
    ensures var after := Apply(env, ms, e);
            && Shaped(after) && Shown(after) == ContentDelta.AppendDelta(Shown(ms), delta)
            && Carried(after) <= Carried(ms) + Marks(e) && AllMarked(after, e) && MarksStay(ms, after)
            && (Named(ms, CALL) ==> Named(after, CALL))
  {
    hide AllGood, AllGuarded, OthersEmpty, Apply, Held, Carried, Named, Marks, AllMarked, ContentDelta.AppendDelta, ContentDelta.AppendAll, MarkedFirst;
    var after := Apply(env, ms, e);
    ShapeStays(env, ms, e);
    assert Deltas(e, CALL, Stdout) == [delta];
    AppendOne(Shown(ms), delta);
    assert Folded(ms, after, e);
  }

  /** An output whose marker stands is not folded in again. */
  lemma OutputSkipped(env: Environment, ms: seq<ChatMessage>, e: Event)
    requires Shaped(ms) && PlainIds(e) && !e.body.TaskEnded? && AllMarked(ms, e)
    ensures Shown(Apply(env, ms, e)) == Shown(ms)
  {
    hide AllGood, AllGuarded, OthersEmpty, Apply, Held, Carried, Named, Marks, AllMarked, MarkedFirst, PlainIds;
    ShapeStays(env, ms, e);
    assert Held(Apply(env, ms, e), CALL) == Held(ms, CALL);
  }

  /** The end of the task leaves a block that shows a text. */
  lemma EndSpares(env: Environment, ms: seq<ChatMessage>)
    requires Shaped(ms) && Named(ms, CALL)
    ensures var after := Apply(env, ms, END);
            Shaped(after) && Shown(after) == Shown(ms) && (forall k | MarkedFirst(ms, CALL, k) :: MarkedFirst(after, CALL, k))
  {
    hide AllGood, AllGuarded, OthersEmpty, Apply, Held, Carried, Named, MarkedFirst, Drops;
    TaskEndEffect(env, ms, END);
    ApplyGuards(env, ms, END);
    NamedNotDropped(ms, END, CALL);
  }

  lemma TwoDigits()
    ensures ContentDelta.AppendDelta("", "2") == "2" && ContentDelta.AppendDelta("2", "1") == "21"
  {
    assert Trim("2") == "2" && Trim("1") == "1" && Trim("") == "";
    assert ContentDelta.NormalizeNewlines("1") == "1" && ContentDelta.NormalizeNewlines("2") == "2";
    assert TrimStart("2") == "2" && TrimStart("1") == "1";
    assert !Includes("2", "1") by {
      assert forall i: nat | i <= 1 :: !OccursAt("2", "1", i) by {
        assert "2"[0] != "1"[0];
      }
    }
    assert "2" + "1" == "21";
  }

  /** One replay from nothing: only the second output is left. */
  lemma {:induction false} OnceFromNothing(env: Environment)
    ensures var once := ApplyAll(env, [], TRACE);
            && Shaped(once) && Shown(once) == "2" && Named(once, CALL)
            && AllMarked(once, SECOND) && Marks(FIRST) !! Carried(once)
  {
    hide Shaped, Apply, Shown, Carried, Named, AllMarked, Marks, MarksStay, ContentDelta.AppendDelta;
    FourSteps(env, []);
    FirstIsDropped(env);
    assert Shaped([]) && Shown([]) == "" && Carried([]) == {} by { NothingHeld(); }
    MarksOf();
    var started := Apply(env, [], START);
    StartShows(env, []);
    OutputShows(env, started, SECOND, "2");
    TwoDigits();
  }

  lemma NothingHeld()
    ensures Shaped([]) && Shown([]) == "" && Carried([]) == {}
  {
    NoOutput(CALL);
  }

  /** The trace replayed once leaves "2", replayed twice "21": the second replay finds the first output unmarked. */
  lemma {:induction false} DroppedOutputReturns(env: Environment)
    ensures var once := Replayed(env, [], TRACE);
            OutputText(once, CALL, Stdout) == "2" && OutputText(Replayed(env, once, TRACE), CALL, Stdout) == "21"
  {
    hide Shaped, Apply, Carried, Named, AllMarked, Marks, MarksStay, ContentDelta.AppendDelta, OutputText, ReplayAll, ApplyAll, Applied;
    AllReach(env);
    ReplayApplies(env, ReplayState([], {}), TRACE);
    OnceFromNothing(env);
    var once := ApplyAll(env, [], TRACE);
    ReplayApplies(env, ReplayState(once, {}), TRACE);
    AgainOverOnce(env, once);
  }

  lemma {:induction false} AgainOverOnce(env: Environment, once: seq<ChatMessage>)
    requires Shaped(once) && Shown(once) == "2" && Named(once, CALL) && AllMarked(once, SECOND) && Marks(FIRST) !! Carried(once)
    ensures Shown(ApplyAll(env, once, TRACE)) == "21"
  {
    hide Shaped, Apply, Shown, Carried, Named, Marks, MarkedFirst, ContentDelta.AppendDelta, ApplyAll;
    FourSteps(env, once);
    TwoDigits();
    var a := Apply(env, once, FIRST);
    OutputShows(env, once, FIRST, "1");
    var b := Apply(env, a, END);
    EndSpares(env, a);
    var c := Apply(env, b, START);
    StartShows(env, b);
    assert AllMarked(c, SECOND) by {
      assert Keys(SECOND) == {Key(CALL, OutputMarker(SECOND))};
      assert MarkedFirst(once, CALL, OutputMarker(SECOND));
    }
    OutputSkipped(env, c, SECOND);
  }
}
