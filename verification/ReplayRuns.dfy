/** Whole replays, repeated and overlapping ones among them: every output is applied once. */
module ReplayRuns {
  import opened Seqs
  import ContentDelta
  import opened ChatMessages
  import opened ToolBlocks
  import opened TraceEvents
  import opened TraceReplay
  import opened BlockTable
  import opened BlockInvariants
  import opened ReplayBlocks
  import opened CancelGate
  import opened GuardedBlocks
  import opened OneBlock
  import opened FirstBlocks
  import opened ReplayOutputs
  import opened ExactlyOnce

  // ---- Runs refine the table machine -------------------------------------------------------

  function Run(t: Table, es: seq<Event>): Table {
    if es == [] then t else BlockStep(Run(t, es[..|es| - 1]), es[|es| - 1])
  }

  /** Every event the gate lets through is admissible at its turn. */
  ghost predicate AdmissibleTrace(env: Environment, s: ReplayState, es: seq<Event>) {
    es == [] ||
    var init, e := es[..|es| - 1], es[|es| - 1];
    var p := ReplayAll(env, s, init);
    AdmissibleTrace(env, s, init) && (!ReplayDrops(e, p.cancelled) ==> Admissible(env, p.messages, e))
  }

  function ShownIn(env: Environment): Event -> bool {
    (e: Event) => Shows(env, e)
  }

  /** The events of a trace that reach the transcript. */
  function Applied(env: Environment, cancelled: set<string>, es: seq<Event>): seq<Event> {
    Filter(ShownIn(env), Admitted(cancelled, es))
  }

  lemma {:induction false} AppliedStep(env: Environment, cancelled: set<string>, init: seq<Event>, e: Event)
    ensures Applied(env, cancelled, init + [e])
            == Applied(env, cancelled, init)
               + if !ReplayDrops(e, ReplayCancelled(cancelled, init)) && Shows(env, e) then [e] else []
  {
    hide ReplayDrops, Shows, ReplayCancelled;
    var es := init + [e];
    assert es[..|es| - 1] == init;
    FilterAppend(ShownIn(env), Admitted(cancelled, init), [e]);
    assert Filter(ShownIn(env), [e]) == if Shows(env, e) then [e] else [];
    assert Admitted(cancelled, init) + [] == Admitted(cancelled, init);
  }

  /** A replayed trace leaves exactly the tool blocks the table machine computes from the applied events. */
  lemma {:induction false} TraceRefines(env: Environment, s: ReplayState, es: seq<Event>)
    requires Sound(s.messages) && AdmissibleTrace(env, s, es)
    ensures Sound(ReplayAll(env, s, es).messages)
    ensures Blocks(ReplayAll(env, s, es).messages) == Run(Blocks(s.messages), Applied(env, s.cancelled, es))
  {
    hide Sound, Blocks, ReplayEvent, Admissible, ReplayDrops, CancelledAfter, BlockStep, Shows, ReplayCancelled, Applied;
    if es == [] {
      NothingApplied(env, s.cancelled);
      assert es == [];
    } else {
      var init, e := es[..|es| - 1], es[|es| - 1];
      assert es == init + [e];
      TraceRefines(env, s, init);
      ReplayTracksCancelled(env, s, init);
      AppliedStep(env, s.cancelled, init, e);
      var p, before := ReplayAll(env, s, init), Applied(env, s.cancelled, init);
      assert before + [] == before && (before + [e])[..|before|] == before;
      if !ReplayDrops(e, p.cancelled) {
        EventRefines(env, p.messages, e);
      }
    }
  }

  lemma NothingApplied(env: Environment, cancelled: set<string>)
    ensures Applied(env, cancelled, []) == []
  {
  }

  // ---- Replays are sequences of applied events ---------------------------------------------------

  lemma {:induction false} ReplayApplies(env: Environment, s: ReplayState, es: seq<Event>)
    ensures ReplayAll(env, s, es).messages == ApplyAll(env, s.messages, Applied(env, s.cancelled, es))
  {
    hide Apply, ReplayDrops, CancelledAfter, Shows, ReplayCancelled, Applied;
    if es == [] {
      NothingApplied(env, s.cancelled);
      assert es == [];
    } else {
      var init, e := es[..|es| - 1], es[|es| - 1];
      assert es == init + [e];
      ReplayApplies(env, s, init);
      ReplayTracksCancelled(env, s, init);
      AppliedStep(env, s.cancelled, init, e);
      var before := Applied(env, s.cancelled, init);
      assert before + [] == before && (before + [e])[..|before|] == before;
    }
  }

  /** One replay of a trace over a transcript. */
  function Replayed(env: Environment, ms: seq<ChatMessage>, es: seq<Event>): seq<ChatMessage> {
    ReplayAll(env, ReplayState(ms, {}), es).messages
  }

  /** One replay after the other, of traces that may repeat or extend each other. */
  function ReplayedEach(env: Environment, ms: seq<ChatMessage>, traces: seq<seq<Event>>): seq<ChatMessage> {
    if traces == [] then ms else Replayed(env, ReplayedEach(env, ms, traces[..|traces| - 1]), traces[|traces| - 1])
  }

  /** The events that reach the transcript in these replays: a matter of the traces alone. */
  function AllApplied(env: Environment, traces: seq<seq<Event>>): seq<Event> {
    if traces == [] then [] else AllApplied(env, traces[..|traces| - 1]) + Applied(env, {}, traces[|traces| - 1])
  }

  lemma {:induction false} ApplyConcat(env: Environment, ms: seq<ChatMessage>, a: seq<Event>, b: seq<Event>)
    ensures ApplyAll(env, ms, a + b) == ApplyAll(env, ApplyAll(env, ms, a), b)
  {
    hide Apply;
    if b == [] {
      assert a + b == a;
    } else {
      ApplyConcat(env, ms, a, b[..|b| - 1]);
      assert (a + b)[..|a + b| - 1] == a + b[..|b| - 1];
    }
  }

  lemma {:induction false} ReplaysApply(env: Environment, ms: seq<ChatMessage>, traces: seq<seq<Event>>)
    ensures ReplayedEach(env, ms, traces) == ApplyAll(env, ms, AllApplied(env, traces))
  {
    hide ReplayAll, Applied, Apply;
    if traces != [] {
      var init, last := traces[..|traces| - 1], traces[|traces| - 1];
      ReplaysApply(env, ms, init);
      ReplayApplies(env, ReplayState(ReplayedEach(env, ms, init), {}), last);
      ApplyConcat(env, ms, AllApplied(env, init), Applied(env, {}, last));
    }
  }

  // ---- Every output once -------------------------------------------------------------------------

  /**
   Any sequence of replays leaves in every stream buffer what was there with the distinct new outputs of
   the applied events folded in once each, when every call has a text to show by the end of a task.
   */
  lemma {:induction false} ReplaysApplyOnce(env: Environment, ms: seq<ChatMessage>, traces: seq<seq<Event>>, x: string, stream: Stream)
    requires var applied := AllApplied(env, traces); Replayable(ms, applied) && TitledInTime(ms, applied)
    ensures OutputText(ReplayedEach(env, ms, traces), x, stream) == Expected(ms, AllApplied(env, traces), x, stream)
  {
    hide AllApplied, ReplayedEach, Replayable, TitledInTime, ApplyAll, Expected, OutputText;
    var applied := AllApplied(env, traces);
    ReplaysApply(env, ms, traces);
    assert applied[..|applied|] == applied;
    TitledExact(env, ms, applied, |applied|);
  }

  /** n times the same trace. */
  function Times(es: seq<Event>, n: nat): seq<seq<Event>> {
    if n == 0 then [] else Times(es, n - 1) + [es]
  }

  lemma {:induction false} AppliedTimes(env: Environment, es: seq<Event>, n: nat)
    ensures AllApplied(env, Times(es, n + 1)) == AllApplied(env, Times(es, n)) + Applied(env, {}, es)
    ensures AllApplied(env, Times(es, 0)) == [] && AllApplied(env, Times(es, 1)) == Applied(env, {}, es)
  {
    hide Applied;
    var t := Times(es, n);
    assert (t + [es])[..|t|] == t;
    assert Times(es, 1) == [] + [es] && ([] + [es])[..0] == [];
    assert AllApplied(env, []) == [];
    assert AllApplied(env, Times(es, 1)) == AllApplied(env, []) + Applied(env, {}, es);
  }

  lemma {:induction false} TimesMembers(env: Environment, es: seq<Event>, n: nat)
    ensures forall e | e in AllApplied(env, Times(es, n)) :: e in Applied(env, {}, es)
  {
    hide Applied, AllApplied;
    AppliedTimes(env, es, if n > 0 then n - 1 else 0);
    if n > 0 {
      TimesMembers(env, es, n - 1);
    }
  }

  lemma {:induction false} FirstsRepeat(a: seq<Event>, b: seq<Event>)
    requires forall e | e in b :: e in a
    ensures Firsts(a + b) == Firsts(a)
  {
    if b == [] {
      assert a + b == a;
    } else {
      var init, e := b[..|b| - 1], b[|b| - 1];
      assert (a + b)[..|a + b| - 1] == a + init && e in b;
      FirstsRepeat(a, init);
    }
  }

  lemma {:induction false} FirstsTimes(env: Environment, es: seq<Event>, n: nat)
    requires n >= 1
    ensures Firsts(AllApplied(env, Times(es, n))) == Firsts(Applied(env, {}, es))
    ensures forall e | e in Applied(env, {}, es) :: e in AllApplied(env, Times(es, n))
  {
    hide Applied, AllApplied, Firsts;
    AppliedTimes(env, es, n - 1);
    if n > 1 {
      FirstsTimes(env, es, n - 1);
      FirstsRepeat(AllApplied(env, Times(es, n - 1)), Applied(env, {}, es));
    }
  }

  lemma MoreTitled(a: seq<Event>, b: seq<Event>, x: string)
    requires forall e | e in a :: e in b
    ensures TitledIn(a, x) ==> TitledIn(b, x)
    ensures BroughtIn(a, x) ==> BroughtIn(b, x)
  {
    hide Titles, Brings;
  }

  /** Titled in time once, and by the end, is titled in time behind any number of repetitions. */
  lemma TitledAgain(ms: seq<ChatMessage>, once: seq<Event>, a: seq<Event>, b: seq<Event>)
    requires TitledInTime(ms, a) && TitledBy(ms, once) && (forall e | e in once :: e in a && Sayable(e))
    requires forall e | e in a || e in b :: e in once
    ensures TitledInTime(ms, a + b)
  {
    hide Sayable, Held, Named, TitledIn, BroughtIn;
    var es := a + b;
    forall i | 0 <= i < |es| && es[i].body.TaskEnded? ensures TitledBy(ms, es[..i]) {
      if i < |a| {
        assert es[..i] == a[..i];
      } else {
        assert es[..i] == a + b[..i - |a|];
        forall x | Held(ms, x) != NO_OUTPUT || BroughtIn(es[..i], x) ensures Named(ms, x) || TitledIn(es[..i], x) {
          MoreTitled(es[..i], once, x);
          MoreTitled(once, es[..i], x);
        }
      }
    }
  }

  lemma {:induction false} TitledTimes(env: Environment, ms: seq<ChatMessage>, es: seq<Event>, n: nat)
    requires var once := Applied(env, {}, es); TitledInTime(ms, once) && TitledBy(ms, once) && n >= 1
    ensures TitledInTime(ms, AllApplied(env, Times(es, n)))
  {
    hide Applied, AllApplied, Sayable, TitledBy, Firsts;
    var once := Applied(env, {}, es);
    AppliedTimes(env, es, n - 1);
    if n > 1 {
      TitledTimes(env, ms, es, n - 1);
      TimesMembers(env, es, n - 1);
      FirstsTimes(env, es, n - 1);
      TitledAgain(ms, once, AllApplied(env, Times(es, n - 1)), once);
    }
  }

  lemma {:induction false} ReplayableTimes(env: Environment, ms: seq<ChatMessage>, es: seq<Event>, n: nat)
    requires Replayable(ms, Applied(env, {}, es))
    ensures Replayable(ms, AllApplied(env, Times(es, n)))
  {
    hide Applied, AllApplied, AllGood, AllGuarded, OthersEmpty, Marks, PlainIds, SeenOrNot;
    TimesMembers(env, es, n);
  }

  lemma {:induction false} OneReplay(env: Environment, ms: seq<ChatMessage>, es: seq<Event>)
    ensures ReplayedEach(env, ms, Times(es, 1)) == Replayed(env, ms, es)
  {
    hide ReplayAll;
    assert Times(es, 1) == [es] && [es][..0] == [];
    assert ReplayedEach(env, ms, []) == ms;
  }

  /** Exactly once: replaying a trace any number of times leaves in every buffer what the first replay put there. */
  lemma {:induction false} RepeatedReplaysApplyOnce(env: Environment, ms: seq<ChatMessage>, es: seq<Event>, n: nat, x: string, stream: Stream)
    requires var once := Applied(env, {}, es); Replayable(ms, once) && TitledInTime(ms, once) && TitledBy(ms, once) && n >= 1
    ensures OutputText(ReplayedEach(env, ms, Times(es, n)), x, stream) == OutputText(Replayed(env, ms, es), x, stream)
    ensures OutputText(Replayed(env, ms, es), x, stream) == Expected(ms, Applied(env, {}, es), x, stream)
  {
    hide AllApplied, Applied, Replayable, TitledInTime, TitledBy, OutputText, Firsts, AllDeltas, ContentDelta.AppendAll, ReplayAll;
    ReplayableTimes(env, ms, es, n);
    TitledTimes(env, ms, es, n);
    FirstsTimes(env, es, n);
    AppliedTimes(env, es, 0);
    ReplaysApplyOnce(env, ms, Times(es, n), x, stream);
    ReplaysApplyOnce(env, ms, Times(es, 1), x, stream);
    OneReplay(env, ms, es);
  }

  // ---- When events do not share markers -------------------------------------------------------------

  predicate ColonFree(s: string) {
    ':' !in s
  }

  lemma IdBeforeColon(a: string, p: string, b: string, q: string)
    requires ColonFree(a) && ColonFree(b) && a + ":" + p == b + ":" + q
    ensures a == b
  {
    var s := a + ":" + p;
    assert s[|a|] == ':' && s[|b|] == ':';
    assert s[..|a|] == a && s[..|b|] == b;
  }

  lemma MarkNamesEvent(e: Event, k: string) returns (part: string)
    requires k in Marks(e)
    ensures k == e.eventId + ":" + part
  {
    if k == InputMarker(e) {
      part := "toolInput";
    } else if e.body.CommandOutput? {
      part := "commandOutput:" + e.body.stream;
    } else {
      part := "toolOutput";
    }
  }

  /** Ids without colons that no two events share give every event its own markers. */
  lemma DistinctIdsSeparate(es: seq<Event>)
    requires forall e | e in es :: ColonFree(e.eventId)
    requires forall e, f | e in es && f in es && e.eventId == f.eventId :: e == f
    ensures MarksSeparate(es)
  {
    hide Marks;
    forall e, f, k | e in es && f in es && k in Marks(e) && k in Marks(f) ensures e == f {
      var p := MarkNamesEvent(e, k);
      var q := MarkNamesEvent(f, k);
      IdBeforeColon(e.eventId, p, f.eventId, q);
    }
  }

  // ---- From an empty transcript ---------------------------------------------------------------------

  /** Read off the events: ids of their own, text and completions without tool ids, and texts that say something. */
  ghost predicate Readable(es: seq<Event>) {
    && (forall e | e in es :: ColonFree(e.eventId) && PlainIds(e) && Sayable(e))
    && forall e, f | e in es && f in es && e.eventId == f.eventId :: e == f
  }

  lemma NothingIsReplayable(es: seq<Event>)
    requires Readable(es)
    ensures Replayable([], es)
  {
    hide PlainIds, Sayable, Marks, Keys, AllMarked;
    DistinctIdsSeparate(es);
    assert Carried([]) == {};
  }

  /** Read off the trace alone: any number of replays of it from nothing holds every output once. */
  lemma {:induction false} RepeatedFromNothing(env: Environment, es: seq<Event>, n: nat, x: string, stream: Stream)
    requires var once := Applied(env, {}, es); Readable(once) && TitledInTime([], once) && TitledBy([], once) && n >= 1
    ensures OutputText(ReplayedEach(env, [], Times(es, n)), x, stream)
            == ContentDelta.AppendAll("", AllDeltas(News([], Applied(env, {}, es)), x, stream))
  {
    hide Applied, Readable, Replayable, TitledInTime, TitledBy, ReplayedEach, AllDeltas, News, ContentDelta.AppendAll, ReplayAll;
    NothingIsReplayable(Applied(env, {}, es));
    RepeatedReplaysApplyOnce(env, [], es, n, x, stream);
    assert OutputText([], x, stream) == "";
  }
}
