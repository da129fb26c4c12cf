/** When refreshing twice from the same records changes nothing, and that refreshing is well-formed. */
module RefreshIdempotence {
  import opened Seqs
  import opened StableSort
  import opened Text
  import opened ChatMessages
  import opened SessionRefresh

  // ---- sortBySeqAndTime ----------------------------------------------------------

  /** The comparator is a total preorder; it ties exactly on equal keys. */
  lemma OrderIsTotal(c: Collation)
    ensures TotalPreorder(Order(c))
    ensures forall a, b :: Compare(c, a, b) == 0.0 <==>
                           a.createdSeq == b.createdSeq && a.createdAt == b.createdAt && c(a.id) == c(b.id)
    ensures forall a, b :: Compare(c, a, b) < 0.0 <==> Compare(c, b, a) > 0.0
  {
  }

  // ---- Side conditions -----------------------------------------------------------

  /** A shown record that a later refresh will not mistake for one of the session's live groups. */
  predicate Inert(sessionId: string, m: ChatMessage) {
    m.sessionId == sessionId && !IsAssistantContentBlock(m) && !IsLocalPending(m) && !IsEphemeralBlock(m)
  }

  ghost predicate RecordsInert(sessionId: string, records: seq<MessageRecord>) {
    forall m | m in Views(records) :: Inert(sessionId, m)
  }

  /** Streaming messages of the session have no sequence number yet. */
  ghost predicate LiveUnsequenced(sessionId: string, o: RefreshOptions, current: seq<ChatMessage>) {
    forall m | m in current && BucketOf(sessionId, o, m) == Live :: m.createdSeq == None
  }

  /** The content-block segments that survive a refresh: those of excluded tasks do not. */
  function KeptSegments(sessionId: string, o: RefreshOptions, current: seq<ChatMessage>): Segments {
    SegmentsOf(sessionId, Part(sessionId, o, Segmented, current))
  }

  /** Every record a segment hides is hidden by a segment that the refresh keeps. */
  ghost predicate HiddenForGood(sessionId: string, o: RefreshOptions, current: seq<ChatMessage>, records: seq<MessageRecord>) {
    forall p | p in Filter(Wanted(o), Views(records)) && !NotSegmented(SegmentsOf(sessionId, current))(p) ::
      !NotSegmented(KeptSegments(sessionId, o, current))(p)
  }

  /** Local messages the refresh leaves in place have no persisted message they could be taken for. */
  ghost predicate UnmatchedAreUnmatchable(shown: seq<ChatMessage>, locals: seq<ChatMessage>) {
    forall u, p | u in MatchLocals(shown, locals).unmatched && p in shown :: !Candidate(p, u)
  }

  ghost predicate NoSharedCandidate(shown: seq<ChatMessage>, locals: seq<ChatMessage>) {
    forall i, j, p | 0 <= i < j < |locals| && p in shown :: !(Candidate(p, locals[i]) && Candidate(p, locals[j]))
  }

  ghost predicate UniqueIds(ms: seq<ChatMessage>) {
    forall a, b | a in ms && b in ms && a.id == b.id :: a == b
  }

  // ---- Matching --------------------------------------------------------------------

  lemma {:induction false} MatchLocalsShrinks(shown: seq<ChatMessage>, locals: seq<ChatMessage>)
    ensures var m := MatchLocals(shown, locals);
            && (forall u | u in m.unmatched :: u in locals)
            && |m.unmatched| <= |locals|
            && (m.taken == {} ==> m.unmatched == locals)
            && (m.taken == {} <==> forall l, p | l in locals && p in shown :: !Candidate(p, l))
            && (m.taken != {} ==> |m.unmatched| < |locals|)
  {
    if locals != [] {
      var init, last := locals[..|locals| - 1], locals[|locals| - 1];
      assert locals == init + [last];
      MatchLocalsShrinks(shown, init);
      var found := FindPersistedMatch(shown, last, MatchLocals(shown, init).taken);
      if found.Some? {
        assert found.value.id in MatchLocals(shown, locals).taken;
      }
    }
  }

  ghost predicate TakenFor(shown: seq<ChatMessage>, locals: seq<ChatMessage>, id: string) {
    exists p, l | p in shown && l in locals :: p.id == id && Candidate(p, l)
  }

  lemma {:induction false} TakenHaveLocals(shown: seq<ChatMessage>, locals: seq<ChatMessage>)
    ensures forall id | id in MatchLocals(shown, locals).taken :: TakenFor(shown, locals, id)
  {
    if locals != [] {
      var init, last := locals[..|locals| - 1], locals[|locals| - 1];
      assert locals == init + [last];
      TakenHaveLocals(shown, init);
      forall id | id in MatchLocals(shown, locals).taken ensures TakenFor(shown, locals, id) {
        if id in MatchLocals(shown, init).taken {
          var p, l :| p in shown && l in init && p.id == id && Candidate(p, l);
          assert l in locals;
        } else {
          var found := FindPersistedMatch(shown, last, MatchLocals(shown, init).taken);
          assert found.Some? && found.value.id == id && Candidate(found.value, last) && last in locals;
        }
      }
    }
  }

  /** If no persisted message is a candidate of two locals, what stays unmatched has no candidate. */
  lemma {:induction false} NoSharedCandidateSuffices(shown: seq<ChatMessage>, locals: seq<ChatMessage>)
    requires UniqueIds(shown) && NoSharedCandidate(shown, locals)
    ensures UnmatchedAreUnmatchable(shown, locals)
  {
    if locals != [] {
      var init, last := locals[..|locals| - 1], locals[|locals| - 1];
      assert locals == init + [last];
      assert NoSharedCandidate(shown, init) by {
        assert forall i | 0 <= i < |init| :: init[i] == locals[i];
      }
      NoSharedCandidateSuffices(shown, init);
      TakenHaveLocals(shown, init);
      var before := MatchLocals(shown, init);
      if FindPersistedMatch(shown, last, before.taken).None? {
        forall p | p in shown ensures !Candidate(p, last) {
          if p.id in before.taken {
            var q, l :| q in shown && l in init && q.id == p.id && Candidate(q, l);
            var i :| 0 <= i < |init| && init[i] == l;
            assert q == p && locals[i] == l && locals[|locals| - 1] == last;
          }
        }
      }
    }
  }

  // ---- Retimed live messages keep their times ---------------------------------------

  ghost predicate AboveFloor(ms: seq<ChatMessage>, floor: int) {
    forall i | 0 <= i < |ms| :: ms[i].createdAt >= floor + i && ms[i].createdSeq == None && ms[i].updatedAt >= ms[i].createdAt
  }

  lemma {:induction false} RetimedFixed(ms: seq<ChatMessage>, floor: int)
    requires AboveFloor(ms, floor)
    ensures Retimed(ms, floor) == ms
  {
    if ms != [] {
      assert forall i | 0 <= i < |ms[1..]| :: ms[1..][i] == ms[i + 1];
      RetimedFixed(ms[1..], floor + 1);
      assert ms[0].createdAt >= floor + 0;
      assert RetimedAt(ms[0], floor) == ms[0];
    }
  }

  lemma {:induction false} InsertAboveFloor(c: Collation, a: ChatMessage, ms: seq<ChatMessage>, floor: int)
    requires a.createdAt >= floor && a.createdSeq == None && a.updatedAt >= a.createdAt
    requires AboveFloor(ms, floor + 1)
    ensures AboveFloor(Insert(Order(c), a, ms), floor)
  {
    if ms != [] && !Order(c)(a, ms[0]) {
      assert ms[0].createdAt >= floor + 1 + 0;
      assert forall i | 0 <= i < |ms[1..]| :: ms[1..][i] == ms[i + 1];
      InsertAboveFloor(c, a, ms[1..], floor + 1);
    } else {
      var r := [a] + ms;
      assert forall i | 0 < i < |r| :: r[i] == ms[i - 1];
    }
  }

  /**
   Sorting by time keeps "position i is at floor + i or later": the element at position i is not
   before the latest of i + 1 elements of which one had a position of at least i.
   */
  lemma {:induction false} SortAboveFloor(c: Collation, ms: seq<ChatMessage>, floor: int)
    requires AboveFloor(ms, floor)
    ensures AboveFloor(Sort(Order(c), ms), floor)
  {
    if ms != [] {
      assert forall i | 0 <= i < |ms[1..]| :: ms[1..][i] == ms[i + 1];
      SortAboveFloor(c, ms[1..], floor + 1);
      assert ms[0].createdAt >= floor + 0;
      InsertAboveFloor(c, ms[0], Sort(Order(c), ms[1..]), floor);
    }
  }

  lemma {:induction false} RetimedAboveFloor(live: seq<ChatMessage>, floor: int)
    requires forall m | m in live :: m.createdSeq == None
    ensures AboveFloor(Retimed(live, floor), floor)
  {
    forall i | 0 <= i < |live| ensures live[i].createdSeq == None {
      assert live[i] in live;
    }
  }

  // ---- The groups of a refreshed transcript ------------------------------------------

  ghost predicate AllIn(sessionId: string, o: RefreshOptions, b: Bucket, group: seq<ChatMessage>) {
    forall m | m in group :: BucketOf(sessionId, o, m) == b
  }

  /** Every group but the shown records consists of messages the next split puts back into it. */
  ghost predicate InPlace(sessionId: string, o: RefreshOptions, g: Groups) {
    && AllIn(sessionId, o, OtherSession, g.others)
    && AllIn(sessionId, o, OtherTask, g.otherTask)
    && AllIn(sessionId, o, Segmented, g.segmented)
    && AllIn(sessionId, o, Ephemeral, g.ephemeral)
    && AllIn(sessionId, o, PendingLocal, g.locals)
    && AllIn(sessionId, o, Live, g.live)
  }

  /** And the shown records go where no group is collected from. */
  ghost predicate Settled(sessionId: string, o: RefreshOptions, g: Groups) {
    && InPlace(sessionId, o, g)
    && (forall m | m in g.shown :: Inert(sessionId, m) && BucketOf(sessionId, o, m) in {OtherTask, Dropped})
  }

  lemma PartMembers(sessionId: string, o: RefreshOptions, b: Bucket, current: seq<ChatMessage>)
    ensures forall m :: m in Part(sessionId, o, b, current) <==> m in current && BucketOf(sessionId, o, m) == b
  {
    FilterMembers(InBucket(sessionId, o, b), current);
  }

  lemma {:induction false} ViewsAreSettled(records: seq<MessageRecord>)
    ensures forall m | m in Views(records) :: !m.streaming
  {
    if records != [] {
      ViewsAreSettled(records[1..]);
    }
  }

  lemma {:induction false} ShownMembers(sessionId: string, o: RefreshOptions, current: seq<ChatMessage>, records: seq<MessageRecord>)
    ensures forall m | m in Shown(sessionId, o, current, records) ::
              m in Views(records) && !Excludes(o, m.taskId) && !m.streaming
  {
    FilterMembers(Wanted(o), Views(records));
    FilterMembers(NotSegmented(SegmentsOf(sessionId, current)), Filter(Wanted(o), Views(records)));
    ViewsAreSettled(records);
  }

  lemma RetimedKeepsBucket(sessionId: string, o: RefreshOptions, m: ChatMessage, floor: int)
    ensures BucketOf(sessionId, o, RetimedAt(m, floor)) == BucketOf(sessionId, o, m)
  {
  }

  lemma {:induction false} RetimedStayLive(sessionId: string, o: RefreshOptions, live: seq<ChatMessage>, floor: int)
    requires AllIn(sessionId, o, Live, live)
    ensures AllIn(sessionId, o, Live, Retimed(live, floor))
  {
    hide Retimed, RetimedAt, BucketOf;
    var retimed := Retimed(live, floor);
    forall m | m in retimed ensures BucketOf(sessionId, o, m) == Live {
      var i :| 0 <= i < |retimed| && retimed[i] == m;
      assert live[i] in live;
      RetimedKeepsBucket(sessionId, o, live[i], floor + i);
    }
  }

  lemma OtherTaskSettled(sessionId: string, o: RefreshOptions, current: seq<ChatMessage>, shown: seq<ChatMessage>)
    ensures AllIn(sessionId, o, OtherTask, Unpersisted(shown, Part(sessionId, o, OtherTask, current)))
  {
    PartMembers(sessionId, o, OtherTask, current);
    FilterMembers(NotPersisted(shown), Part(sessionId, o, OtherTask, current));
  }

  lemma {:induction false} LocalsSettled(sessionId: string, o: RefreshOptions, current: seq<ChatMessage>, shown: seq<ChatMessage>)
    ensures AllIn(sessionId, o, PendingLocal, MatchLocals(shown, Part(sessionId, o, PendingLocal, current)).unmatched)
  {
    PartMembers(sessionId, o, PendingLocal, current);
    MatchLocalsShrinks(shown, Part(sessionId, o, PendingLocal, current));
  }

  lemma LiveSettled(sessionId: string, o: RefreshOptions, current: seq<ChatMessage>, shown: seq<ChatMessage>)
    ensures AllIn(sessionId, o, Live, Relocated(shown, Part(sessionId, o, Live, current)))
  {
    PartMembers(sessionId, o, Live, current);
    FilterMembers(NotPersisted(shown), Part(sessionId, o, Live, current));
    RetimedStayLive(sessionId, o, Unpersisted(shown, Part(sessionId, o, Live, current)), MaxCreatedAt(shown) + 1);
  }

  /** What the first refresh sorts. */
  function FirstGroups(sessionId: string, o: RefreshOptions, current: seq<ChatMessage>, records: seq<MessageRecord>): Groups {
    GroupsOf(SplitOf(sessionId, o, current), Shown(sessionId, o, current, records))
  }

  lemma GroupsInPlace(sessionId: string, o: RefreshOptions, current: seq<ChatMessage>, records: seq<MessageRecord>)
    ensures InPlace(sessionId, o, FirstGroups(sessionId, o, current, records))
  {
    var shown := Shown(sessionId, o, current, records);
    PartMembers(sessionId, o, OtherSession, current);
    PartMembers(sessionId, o, Segmented, current);
    PartMembers(sessionId, o, Ephemeral, current);
    OtherTaskSettled(sessionId, o, current, shown);
    LocalsSettled(sessionId, o, current, shown);
    LiveSettled(sessionId, o, current, shown);
  }

  lemma GroupsSettled(sessionId: string, o: RefreshOptions, current: seq<ChatMessage>, records: seq<MessageRecord>)
    requires RecordsInert(sessionId, records)
    ensures Settled(sessionId, o, FirstGroups(sessionId, o, current, records))
  {
    GroupsInPlace(sessionId, o, current, records);
    ShownMembers(sessionId, o, current, records);
  }

  function FilteredGroups(p: ChatMessage -> bool, g: Groups): Groups {
    Groups(Filter(p, g.others), Filter(p, g.otherTask), Filter(p, g.shown), Filter(p, g.segmented),
           Filter(p, g.ephemeral), Filter(p, g.locals), Filter(p, g.live))
  }

  lemma FilterConcat(p: ChatMessage -> bool, g: Groups)
    ensures Filter(p, g.Concat()) == FilteredGroups(p, g).Concat()
  {
    FilterAppend(p, g.locals, g.live);
    FilterAppend(p, g.ephemeral, g.locals + g.live);
    FilterAppend(p, g.segmented, g.ephemeral + (g.locals + g.live));
    FilterAppend(p, g.shown, g.segmented + (g.ephemeral + (g.locals + g.live)));
    FilterAppend(p, g.otherTask, g.shown + (g.segmented + (g.ephemeral + (g.locals + g.live))));
    FilterAppend(p, g.others, g.otherTask + (g.shown + (g.segmented + (g.ephemeral + (g.locals + g.live)))));
  }

  /** All groups but the persisted one presorted. */
  function Presorted(c: Collation, g: Groups): Groups {
    var le := Order(c);
    Groups(Sort(le, g.others), Sort(le, g.otherTask), g.shown, Sort(le, g.segmented),
           Sort(le, g.ephemeral), Sort(le, g.locals), Sort(le, g.live))
  }

  lemma SortPresorted(c: Collation, g: Groups)
    ensures Sort(Order(c), Presorted(c, g).Concat()) == Sort(Order(c), g.Concat())
  {
    var le, h := Order(c), Presorted(c, g);
    OrderIsTotal(c);
    SortTwice(le, g.live);
    SortPrepend(le, g.locals, h.live, g.live);
    SortPrepend(le, g.ephemeral, h.locals + h.live, g.locals + g.live);
    SortPrepend(le, g.segmented, h.ephemeral + (h.locals + h.live), g.ephemeral + (g.locals + g.live));
    SortPrepend(le, g.shown, h.segmented + (h.ephemeral + (h.locals + h.live)), g.segmented + (g.ephemeral + (g.locals + g.live)));
    SortPrepend(le, g.otherTask, h.shown + (h.segmented + (h.ephemeral + (h.locals + h.live))),
                g.shown + (g.segmented + (g.ephemeral + (g.locals + g.live))));
    SortPrepend(le, g.others, h.otherTask + (h.shown + (h.segmented + (h.ephemeral + (h.locals + h.live)))),
                g.otherTask + (g.shown + (g.segmented + (g.ephemeral + (g.locals + g.live)))));
  }

  // ---- Splitting a refreshed transcript again ------------------------------------------

  lemma PartOfGroup(sessionId: string, o: RefreshOptions, b: Bucket, own: Bucket, group: seq<ChatMessage>)
    requires AllIn(sessionId, o, own, group)
    ensures Part(sessionId, o, b, group) == if b == own then group else []
  {
    if b == own {
      FilterAll(InBucket(sessionId, o, b), group);
    } else {
      FilterNone(InBucket(sessionId, o, b), group);
    }
  }

  /** The group a bucket's messages are collected in again; the shown records come back as OtherTask or not at all. */
  function GroupFor(g: Groups, b: Bucket, shownPart: seq<ChatMessage>): seq<ChatMessage> {
    match b
    case OtherSession => g.others
    case OtherTask => g.otherTask + shownPart
    case Segmented => g.segmented
    case Ephemeral => g.ephemeral
    case PendingLocal => g.locals
    case Live => g.live
    case _ => shownPart
  }

  lemma OneGroupConcat(x: seq<ChatMessage>, y: seq<ChatMessage>)
    ensures Groups(x, [], [], [], [], [], []).Concat() == x
    ensures Groups([], x, y, [], [], [], []).Concat() == x + y
    ensures Groups([], [], x, [], [], [], []).Concat() == x
    ensures Groups([], [], [], x, [], [], []).Concat() == x
    ensures Groups([], [], [], [], x, [], []).Concat() == x
    ensures Groups([], [], [], [], [], x, []).Concat() == x
    ensures Groups([], [], [], [], [], [], x).Concat() == x
  {
  }

  lemma SplitAgain(sessionId: string, o: RefreshOptions, b: Bucket, g: Groups)
    requires Settled(sessionId, o, g)
    ensures var f, s := FilteredGroups(InBucket(sessionId, o, b), g), Part(sessionId, o, b, g.shown);
            match b
            case OtherSession => f == Groups(g.others, [], [], [], [], [], [])
            case OtherTask => f == Groups([], g.otherTask, s, [], [], [], [])
            case Segmented => f == Groups([], [], [], g.segmented, [], [], [])
            case Ephemeral => f == Groups([], [], [], [], g.ephemeral, [], [])
            case PendingLocal => f == Groups([], [], [], [], [], g.locals, [])
            case Live => f == Groups([], [], [], [], [], [], g.live)
            case _ => f == Groups([], [], s, [], [], [], [])
    ensures b !in {OtherTask, Dropped} ==> Part(sessionId, o, b, g.shown) == []
  {
    PartOfGroup(sessionId, o, b, OtherSession, g.others);
    PartOfGroup(sessionId, o, b, OtherTask, g.otherTask);
    PartOfGroup(sessionId, o, b, Segmented, g.segmented);
    PartOfGroup(sessionId, o, b, Ephemeral, g.ephemeral);
    PartOfGroup(sessionId, o, b, PendingLocal, g.locals);
    PartOfGroup(sessionId, o, b, Live, g.live);
    if b !in {OtherTask, Dropped} {
      FilterNone(InBucket(sessionId, o, b), g.shown);
    }
  }

  lemma PartOfConcat(sessionId: string, o: RefreshOptions, b: Bucket, g: Groups)
    requires Settled(sessionId, o, g)
    ensures Part(sessionId, o, b, g.Concat()) == GroupFor(g, b, Part(sessionId, o, b, g.shown))
    ensures b !in {OtherTask, Dropped} ==> Part(sessionId, o, b, g.shown) == []
  {
    var s := Part(sessionId, o, b, g.shown);
    FilterConcat(InBucket(sessionId, o, b), g);
    SplitAgain(sessionId, o, b, g);
    OneGroupConcat(GroupFor(g, b, s), []);
    OneGroupConcat(g.otherTask, s);
  }

  lemma PartOfSorted(c: Collation, sessionId: string, o: RefreshOptions, b: Bucket, g: Groups)
    requires Settled(sessionId, o, g)
    ensures Part(sessionId, o, b, Sort(Order(c), g.Concat()))
            == Sort(Order(c), GroupFor(g, b, Part(sessionId, o, b, g.shown)))
    ensures b !in {OtherTask, Dropped} ==> Part(sessionId, o, b, g.shown) == []
  {
    OrderIsTotal(c);
    PartOfConcat(sessionId, o, b, g);
    FilterSort(Order(c), InBucket(sessionId, o, b), g.Concat());
  }

  /** Records the transcript shows are recognised as persisted. */
  lemma ShownAreRecognised(shown: seq<ChatMessage>, xs: seq<ChatMessage>)
    requires forall m | m in xs :: m in shown
    ensures Unpersisted(shown, xs) == []
  {
    FilterNone(NotPersisted(shown), xs);
  }

  lemma UnpersistedTwice(shown: seq<ChatMessage>, ms: seq<ChatMessage>)
    ensures Unpersisted(shown, Unpersisted(shown, ms)) == Unpersisted(shown, ms)
  {
    FilterMembers(NotPersisted(shown), ms);
    FilterAll(NotPersisted(shown), Unpersisted(shown, ms));
  }

  lemma OtherTaskAgain(c: Collation, sessionId: string, o: RefreshOptions, g: Groups)
    requires Settled(sessionId, o, g)
    requires Unpersisted(g.shown, g.otherTask) == g.otherTask
    ensures Unpersisted(g.shown, Part(sessionId, o, OtherTask, Sort(Order(c), g.Concat()))) == Sort(Order(c), g.otherTask)
  {
    hide Settled, Sort, Filter, Compare, InBucket, Sorted;
    var le, np := Order(c), NotPersisted(g.shown);
    var shownPart := Part(sessionId, o, OtherTask, g.shown);
    OrderIsTotal(c);
    PartOfSorted(c, sessionId, o, OtherTask, g);
    FilterSort(le, np, g.otherTask + shownPart);
    FilterAppend(np, g.otherTask, shownPart);
    FilterMembers(InBucket(sessionId, o, OtherTask), g.shown);
    ShownAreRecognised(g.shown, shownPart);
    assert g.otherTask + [] == g.otherTask;
  }

  lemma LiveAgain(c: Collation, sessionId: string, o: RefreshOptions, g: Groups)
    requires Settled(sessionId, o, g)
    requires Unpersisted(g.shown, g.live) == g.live
    requires AboveFloor(g.live, MaxCreatedAt(g.shown) + 1)
    ensures Relocated(g.shown, Part(sessionId, o, Live, Sort(Order(c), g.Concat()))) == Sort(Order(c), g.live)
  {
    OrderIsTotal(c);
    PartOfSorted(c, sessionId, o, Live, g);
    FilterSort(Order(c), NotPersisted(g.shown), g.live);
    SortAboveFloor(c, g.live, MaxCreatedAt(g.shown) + 1);
    RetimedFixed(Sort(Order(c), g.live), MaxCreatedAt(g.shown) + 1);
  }

  /** The groups of a second refresh are the sorted groups of the first, but for the locals it now matches. */
  lemma GroupsAgain(c: Collation, sessionId: string, o: RefreshOptions, g: Groups)
    requires Settled(sessionId, o, g)
    requires Unpersisted(g.shown, g.otherTask) == g.otherTask && Unpersisted(g.shown, g.live) == g.live
    requires AboveFloor(g.live, MaxCreatedAt(g.shown) + 1)
    ensures GroupsOf(SplitOf(sessionId, o, Sort(Order(c), g.Concat())), g.shown)
            == Presorted(c, g).(locals := MatchLocals(g.shown, Sort(Order(c), g.locals)).unmatched)
  {
    PartOfSorted(c, sessionId, o, OtherSession, g);
    PartOfSorted(c, sessionId, o, Segmented, g);
    PartOfSorted(c, sessionId, o, Ephemeral, g);
    PartOfSorted(c, sessionId, o, PendingLocal, g);
    OtherTaskAgain(c, sessionId, o, g);
    LiveAgain(c, sessionId, o, g);
  }

  // ---- The segments of a refreshed transcript ----------------------------------------------

  ghost predicate SameSegments(sessionId: string, before: seq<ChatMessage>, after: seq<ChatMessage>) {
    && (forall m | m in before && IsSegment(sessionId, m) :: m in after)
    && (forall m | m in after && IsSegment(sessionId, m) :: m in before)
  }

  lemma SameSegmentsSuffices(sessionId: string, before: seq<ChatMessage>, after: seq<ChatMessage>)
    requires SameSegments(sessionId, before, after)
    ensures SegmentsOf(sessionId, before) == SegmentsOf(sessionId, after)
  {
  }

  lemma ConcatMembers(g: Groups)
    ensures forall m :: m in g.Concat() <==>
              m in g.others || m in g.otherTask || m in g.shown || m in g.segmented || m in g.ephemeral || m in g.locals || m in g.live
  {
  }

  lemma SegmentsKept(c: Collation, sessionId: string, o: RefreshOptions, current: seq<ChatMessage>, g: Groups)
    requires Settled(sessionId, o, g)
    requires g.segmented == Part(sessionId, o, Segmented, current)
    ensures SegmentsOf(sessionId, Sort(Order(c), g.Concat())) == KeptSegments(sessionId, o, current)
  {
    var once := Sort(Order(c), g.Concat());
    SortKeepsElements(Order(c), g.Concat());
    ConcatMembers(g);
    assert SameSegments(sessionId, g.segmented, once);
    SameSegmentsSuffices(sessionId, g.segmented, once);
  }

  lemma KeptSegmentsAreSegments(sessionId: string, o: RefreshOptions, current: seq<ChatMessage>)
    ensures var kept, all := KeptSegments(sessionId, o, current), SegmentsOf(sessionId, current);
            kept.baseIds <= all.baseIds && kept.taskIds <= all.taskIds
  {
    PartMembers(sessionId, o, Segmented, current);
  }

  /** What a second refresh shows: the records no kept segment hides. */
  lemma {:induction false} ShownAgain(c: Collation, sessionId: string, o: RefreshOptions, current: seq<ChatMessage>, records: seq<MessageRecord>)
    requires RecordsInert(sessionId, records)
    ensures Shown(sessionId, o, Refresh(c, sessionId, o, current, records), records)
            == Filter(NotSegmented(KeptSegments(sessionId, o, current)), Filter(Wanted(o), Views(records)))
  {
    GroupsSettled(sessionId, o, current, records);
    SegmentsKept(c, sessionId, o, current, FirstGroups(sessionId, o, current, records));
  }

  lemma HiddenForGoodShowsSame(c: Collation, sessionId: string, o: RefreshOptions, current: seq<ChatMessage>, records: seq<MessageRecord>)
    requires RecordsInert(sessionId, records) && HiddenForGood(sessionId, o, current, records)
    ensures Shown(sessionId, o, Refresh(c, sessionId, o, current, records), records) == Shown(sessionId, o, current, records)
  {
    var wanted := Filter(Wanted(o), Views(records));
    ShownAgain(c, sessionId, o, current, records);
    KeptSegmentsAreSegments(sessionId, o, current);
    FilterCongruence(NotSegmented(KeptSegments(sessionId, o, current)), NotSegmented(SegmentsOf(sessionId, current)), wanted);
  }

  lemma {:induction false} ViewsHaveNoStream(p: ChatMessage, records: seq<MessageRecord>)
    requires p in Views(records)
    ensures !p.streaming
  {
    ViewsAreSettled(records);
  }

  /** A record of an assistant that the options ask for would itself be dropped as a current message. */
  lemma WantedRecordsAreDropped(sessionId: string, o: RefreshOptions, p: ChatMessage)
    requires Inert(sessionId, p) && Wanted(o)(p) && !p.streaming && p.role == Assistant
    ensures BucketOf(sessionId, o, p) == Dropped
  {
  }

  lemma DroppedStaysOut(c: Collation, sessionId: string, o: RefreshOptions, current: seq<ChatMessage>, records: seq<MessageRecord>, p: ChatMessage)
    requires RecordsInert(sessionId, records) && BucketOf(sessionId, o, p) == Dropped
    requires p !in Shown(sessionId, o, current, records)
    ensures p !in Refresh(c, sessionId, o, current, records)
  {
    hide BucketOf, IsEphemeralBlock;
    var g := FirstGroups(sessionId, o, current, records);
    GroupsSettled(sessionId, o, current, records);
    ConcatMembers(g);
    SortKeepsElements(Order(c), g.Concat());
  }

  lemma ShownArePresent(c: Collation, sessionId: string, o: RefreshOptions, current: seq<ChatMessage>, records: seq<MessageRecord>)
    ensures forall p | p in Shown(sessionId, o, current, records) :: p in Refresh(c, sessionId, o, current, records)
  {
    var g := FirstGroups(sessionId, o, current, records);
    ConcatMembers(g);
    SortKeepsElements(Order(c), g.Concat());
  }

  /** A record hidden by no kept segment is absent from the first refresh and present in the second. */
  lemma HiddenRecordReturns(c: Collation, sessionId: string, o: RefreshOptions, current: seq<ChatMessage>, records: seq<MessageRecord>)
    requires RecordsInert(sessionId, records) && !HiddenForGood(sessionId, o, current, records)
    ensures var once := Refresh(c, sessionId, o, current, records); Refresh(c, sessionId, o, once, records) != once
  {
    hide Refresh, BucketOf, Wanted, Views, Inert;
    var wanted, once := Filter(Wanted(o), Views(records)), Refresh(c, sessionId, o, current, records);
    var p :| p in wanted && !NotSegmented(SegmentsOf(sessionId, current))(p) && NotSegmented(KeptSegments(sessionId, o, current))(p);
    FilterMembers(Wanted(o), Views(records));
    FilterMembers(NotSegmented(SegmentsOf(sessionId, current)), wanted);
    FilterMembers(NotSegmented(KeptSegments(sessionId, o, current)), wanted);
    ViewsHaveNoStream(p, records);
    WantedRecordsAreDropped(sessionId, o, p);
    DroppedStaysOut(c, sessionId, o, current, records, p);
    ShownAgain(c, sessionId, o, current, records);
    ShownArePresent(c, sessionId, o, once, records);
  }

  // ---- The main results ---------------------------------------------------------------------

  lemma {:induction false} RetimedStayUnpersisted(shown: seq<ChatMessage>, live: seq<ChatMessage>, floor: int)
    requires forall m | m in live :: NotPersisted(shown)(m)
    ensures Unpersisted(shown, Retimed(live, floor)) == Retimed(live, floor)
  {
    var r := Retimed(live, floor);
    forall m | m in r ensures NotPersisted(shown)(m) {
      var i :| 0 <= i < |r| && r[i] == m;
      assert live[i] in live;
    }
    FilterAll(NotPersisted(shown), r);
  }

  lemma {:induction false} LiveGroupFacts(sessionId: string, o: RefreshOptions, current: seq<ChatMessage>, shown: seq<ChatMessage>)
    requires LiveUnsequenced(sessionId, o, current)
    ensures var live := Relocated(shown, Part(sessionId, o, Live, current));
            Unpersisted(shown, live) == live && AboveFloor(live, MaxCreatedAt(shown) + 1)
  {
    PartMembers(sessionId, o, Live, current);
    var kept := Unpersisted(shown, Part(sessionId, o, Live, current));
    FilterMembers(NotPersisted(shown), Part(sessionId, o, Live, current));
    RetimedStayUnpersisted(shown, kept, MaxCreatedAt(shown) + 1);
    RetimedAboveFloor(kept, MaxCreatedAt(shown) + 1);
  }

  /** What a second refresh sorts: the first one's groups, with the locals matched once more. */
  lemma SecondRefresh(c: Collation, sessionId: string, o: RefreshOptions, current: seq<ChatMessage>, records: seq<MessageRecord>)
    requires RecordsInert(sessionId, records) && LiveUnsequenced(sessionId, o, current)
    requires HiddenForGood(sessionId, o, current, records)
    ensures var g := FirstGroups(sessionId, o, current, records);
            var once := Refresh(c, sessionId, o, current, records);
            Refresh(c, sessionId, o, once, records)
            == Sort(Order(c), Presorted(c, g).(locals := MatchLocals(g.shown, Sort(Order(c), g.locals)).unmatched).Concat())
  {
    hide HiddenForGood, RecordsInert, LiveUnsequenced;
    var g := FirstGroups(sessionId, o, current, records);
    GroupsSettled(sessionId, o, current, records);
    UnpersistedTwice(g.shown, SplitOf(sessionId, o, current).otherTask);
    LiveGroupFacts(sessionId, o, current, g.shown);
    HiddenForGoodShowsSame(c, sessionId, o, current, records);
    GroupsAgain(c, sessionId, o, g);
  }

  lemma MatchesDecide(c: Collation, sessionId: string, o: RefreshOptions, current: seq<ChatMessage>, records: seq<MessageRecord>)
    requires RecordsInert(sessionId, records) && LiveUnsequenced(sessionId, o, current)
    requires HiddenForGood(sessionId, o, current, records)
    ensures var once := Refresh(c, sessionId, o, current, records);
            Refresh(c, sessionId, o, once, records) == once
            <==> UnmatchedAreUnmatchable(Shown(sessionId, o, current, records), Part(sessionId, o, PendingLocal, current))
  {
    hide HiddenForGood, RecordsInert, LiveUnsequenced;
    var le, g := Order(c), FirstGroups(sessionId, o, current, records);
    var h := Presorted(c, g);
    var again := MatchLocals(g.shown, h.locals);
    SecondRefresh(c, sessionId, o, current, records);
    MatchLocalsShrinks(g.shown, h.locals);
    SortKeepsElements(le, g.locals);
    SortPresorted(c, g);
    if again.taken == {} {
      assert h.(locals := again.unmatched) == h;
    } else {
      assert |h.(locals := again.unmatched).Concat()| < |g.Concat()|;
    }
  }

  /**
   Refreshing again from the same records changes nothing if and only if every record a content-block
   segment hides is hidden by a segment the refresh keeps, and no local message the first refresh left
   in place could be taken for a shown record.
   */
  lemma RefreshIdempotentIff(c: Collation, sessionId: string, o: RefreshOptions, current: seq<ChatMessage>, records: seq<MessageRecord>)
    requires RecordsInert(sessionId, records) && LiveUnsequenced(sessionId, o, current)
    ensures var once := Refresh(c, sessionId, o, current, records);
            Refresh(c, sessionId, o, once, records) == once
            <==> && HiddenForGood(sessionId, o, current, records)
                 && UnmatchedAreUnmatchable(Shown(sessionId, o, current, records), Part(sessionId, o, PendingLocal, current))
  {
    hide HiddenForGood, RecordsInert, LiveUnsequenced, Refresh, UnmatchedAreUnmatchable, Shown;
    if HiddenForGood(sessionId, o, current, records) {
      MatchesDecide(c, sessionId, o, current, records);
    } else {
      HiddenRecordReturns(c, sessionId, o, current, records);
    }
  }

  /** No segment of an excluded task names a base message or has a task: then nothing is hidden for once only. */
  lemma NoExcludedSegmentSuffices(sessionId: string, o: RefreshOptions, current: seq<ChatMessage>, records: seq<MessageRecord>)
    requires forall m | m in current && BucketOf(sessionId, o, m) == Excluded :: !IsAssistantContentBlock(m)
    ensures HiddenForGood(sessionId, o, current, records)
  {
    var kept := Part(sessionId, o, Segmented, current);
    PartMembers(sessionId, o, Segmented, current);
    assert SameSegments(sessionId, current, kept);
    SameSegmentsSuffices(sessionId, current, kept);
  }

  /** Side conditions a caller can check beforehand: no record is a candidate of two pending messages. */
  lemma RefreshIdempotent(c: Collation, sessionId: string, o: RefreshOptions, current: seq<ChatMessage>, records: seq<MessageRecord>)
    requires RecordsInert(sessionId, records) && LiveUnsequenced(sessionId, o, current)
    requires HiddenForGood(sessionId, o, current, records)
    requires UniqueIds(Shown(sessionId, o, current, records))
    requires NoSharedCandidate(Shown(sessionId, o, current, records), Part(sessionId, o, PendingLocal, current))
    ensures var once := Refresh(c, sessionId, o, current, records);
            Refresh(c, sessionId, o, once, records) == once
  {
    hide HiddenForGood, RecordsInert, LiveUnsequenced, Refresh, Shown;
    NoSharedCandidateSuffices(Shown(sessionId, o, current, records), Part(sessionId, o, PendingLocal, current));
    RefreshIdempotentIff(c, sessionId, o, current, records);
  }

  function RefreshTimes(c: Collation, sessionId: string, o: RefreshOptions, current: seq<ChatMessage>, records: seq<MessageRecord>, n: nat)
    : seq<ChatMessage>
  {
    if n == 0 then current else Refresh(c, sessionId, o, RefreshTimes(c, sessionId, o, current, records, n - 1), records)
  }

  /**
   Polling the same records any number of times leaves what the first refresh made, exactly when the
   second one does.
   */
  lemma {:induction false} PollingSettles(c: Collation, sessionId: string, o: RefreshOptions, current: seq<ChatMessage>,
                                          records: seq<MessageRecord>, n: nat)
    requires RecordsInert(sessionId, records) && LiveUnsequenced(sessionId, o, current)
    requires HiddenForGood(sessionId, o, current, records)
    requires UnmatchedAreUnmatchable(Shown(sessionId, o, current, records), Part(sessionId, o, PendingLocal, current))
    ensures n > 0 ==> RefreshTimes(c, sessionId, o, current, records, n) == Refresh(c, sessionId, o, current, records)
  {
    hide Refresh, RecordsInert, LiveUnsequenced, HiddenForGood, UnmatchedAreUnmatchable, Shown;
    if n == 1 {
      assert RefreshTimes(c, sessionId, o, current, records, 0) == current;
    } else if n > 1 {
      PollingSettles(c, sessionId, o, current, records, n - 1);
      RefreshIdempotentIff(c, sessionId, o, current, records);
    }
  }

  lemma OtherSessionParts(sessionId: string, o: RefreshOptions, g: Groups)
    requires InPlace(sessionId, o, g)
    ensures Part(sessionId, o, OtherSession, g.Concat()) == g.others + Part(sessionId, o, OtherSession, g.shown)
  {
    hide Filter, BucketOf, AllIn;
    PartOfGroup(sessionId, o, OtherSession, OtherSession, g.others);
    PartOfGroup(sessionId, o, OtherSession, OtherTask, g.otherTask);
    PartOfGroup(sessionId, o, OtherSession, Segmented, g.segmented);
    PartOfGroup(sessionId, o, OtherSession, Ephemeral, g.ephemeral);
    PartOfGroup(sessionId, o, OtherSession, PendingLocal, g.locals);
    PartOfGroup(sessionId, o, OtherSession, Live, g.live);
    FilterConcat(InBucket(sessionId, o, OtherSession), g);
    var others := Part(sessionId, o, OtherSession, g.shown);
    assert Groups(g.others, [], others, [], [], [], []).Concat() == g.others + others;
  }

  /** Messages of other sessions are all kept, joined only by records that do not belong to the session. */
  lemma OtherSessionsKept(c: Collation, sessionId: string, o: RefreshOptions, current: seq<ChatMessage>, records: seq<MessageRecord>)
    ensures var once := Refresh(c, sessionId, o, current, records);
            multiset(Part(sessionId, o, OtherSession, once))
            == multiset(Part(sessionId, o, OtherSession, current))
               + multiset(Part(sessionId, o, OtherSession, Shown(sessionId, o, current, records)))
  {
    var g, le := FirstGroups(sessionId, o, current, records), Order(c);
    OrderIsTotal(c);
    FilterSort(le, InBucket(sessionId, o, OtherSession), g.Concat());
    GroupsInPlace(sessionId, o, current, records);
    OtherSessionParts(sessionId, o, g);
    SortPermutes(le, Part(sessionId, o, OtherSession, g.Concat()));
  }

  lemma LiveStrictlyAfter(c: Collation, live: ChatMessage, p: ChatMessage, floor: int)
    requires live.createdSeq == None && live.createdAt > floor && p.createdAt <= floor
    ensures Compare(c, live, p) > 0.0
  {
  }

  /** Streaming messages sort behind every persisted message shown. */
  lemma LiveAfterPersisted(c: Collation, sessionId: string, o: RefreshOptions, current: seq<ChatMessage>,
                           records: seq<MessageRecord>, i: nat, j: nat)
    requires LiveUnsequenced(sessionId, o, current)
    requires var once := Refresh(c, sessionId, o, current, records);
             var g := FirstGroups(sessionId, o, current, records);
             i < |once| && j < |once| && once[i] in g.shown && once[j] in g.live
    ensures i < j
  {
    hide Sort, LiveUnsequenced, MaxCreatedAt, Compare, AboveFloor;
    var g := FirstGroups(sessionId, o, current, records);
    var once := Refresh(c, sessionId, o, current, records);
    LiveGroupFacts(sessionId, o, current, g.shown);
    MaxCreatedAtBounds(g.shown);
    LiveStartsLate(g.live, once[j], MaxCreatedAt(g.shown));
    LiveStrictlyAfter(c, once[j], once[i], MaxCreatedAt(g.shown));
    OrderIsTotal(c);
    SortSorted(Order(c), g.Concat());
    SortedSeparates(Order(c), once, i, j);
  }

  lemma LiveStartsLate(live: seq<ChatMessage>, m: ChatMessage, floor: int)
    requires AboveFloor(live, floor + 1) && m in live
    ensures m.createdAt > floor && m.createdSeq == None
  {
    var k :| 0 <= k < |live| && live[k] == m;
  }

  // ---- Distinct ids ------------------------------------------------------------------------------

  ghost predicate DistinctIds(ms: seq<ChatMessage>) {
    forall i, j | 0 <= i < j < |ms| :: ms[i].id != ms[j].id
  }

  lemma DistinctIdsAppend(a: seq<ChatMessage>, b: seq<ChatMessage>)
    ensures DistinctIds(a + b) <==> DistinctIds(a) && DistinctIds(b) && Ids(a) !! Ids(b)
    ensures Ids(a + b) == Ids(a) + Ids(b)
  {
    var ab := a + b;
    assert forall m :: m in ab <==> m in a || m in b;
    if DistinctIds(a) && DistinctIds(b) && Ids(a) !! Ids(b) {
      forall i, j | 0 <= i < j < |ab| ensures ab[i].id != ab[j].id {
        if i < |a| <= j {
          assert a[i] in a && b[j - |a|] in b;
          assert a[i].id in Ids(a) && b[j - |a|].id in Ids(b);
        }
      }
    }
    if DistinctIds(ab) {
      forall i, j | 0 <= i < |a| && 0 <= j < |b| ensures a[i].id != b[j].id {
        assert ab[i] == a[i] && ab[|a| + j] == b[j];
      }
      forall i, j | 0 <= i < j < |b| ensures b[i].id != b[j].id {
        assert ab[|a| + i] == b[i] && ab[|a| + j] == b[j];
      }
      forall i, j | 0 <= i < j < |a| ensures a[i].id != a[j].id {
        assert ab[i] == a[i] && ab[j] == a[j];
      }
    }
  }

  lemma DistinctIdsAreUnique(ms: seq<ChatMessage>)
    requires DistinctIds(ms)
    ensures UniqueIds(ms)
  {
  }

  lemma {:induction false} DistinctIdsFilter(p: ChatMessage -> bool, ms: seq<ChatMessage>)
    requires DistinctIds(ms)
    ensures DistinctIds(Filter(p, ms))
  {
    if ms != [] {
      DistinctIdsFilter(p, ms[1..]);
      FilterMembers(p, ms[1..]);
      forall m | m in Filter(p, ms[1..]) ensures m.id != ms[0].id {
        var k :| 0 <= k < |ms[1..]| && ms[1..][k] == m;
        assert ms[k + 1] == m;
      }
    }
  }

  lemma MatchStepUnmatched(shown: seq<ChatMessage>, acc: Matching, local: ChatMessage)
    ensures var u := MatchStep(shown, acc, local).unmatched; u == acc.unmatched || u == acc.unmatched + [local]
  {
    hide FindPersistedMatch;
  }

  lemma {:induction false} UnmatchedAreLocals(shown: seq<ChatMessage>, locals: seq<ChatMessage>)
    ensures forall u | u in MatchLocals(shown, locals).unmatched :: u in locals
  {
    hide MatchLocals;
    MatchLocalsShrinks(shown, locals);
  }

  lemma FreshIdAppends(ms: seq<ChatMessage>, m: ChatMessage)
    requires DistinctIds(ms) && forall n | n in ms :: n.id != m.id
    ensures DistinctIds(ms + [m])
  {
    assert forall i | 0 <= i < |ms| :: ms[i] in ms;
  }

  lemma LastIdIsFresh(ms: seq<ChatMessage>)
    requires DistinctIds(ms) && ms != []
    ensures DistinctIds(ms[..|ms| - 1]) && forall n | n in ms[..|ms| - 1] :: n.id != ms[|ms| - 1].id
  {
  }

  lemma {:induction false} DistinctIdsUnmatched(shown: seq<ChatMessage>, locals: seq<ChatMessage>)
    requires DistinctIds(locals)
    ensures DistinctIds(MatchLocals(shown, locals).unmatched)
  {
    hide MatchStep, DistinctIds;
    if locals == [] {
      assert DistinctIds([]) by { NoIds(); }
    } else {
      var init, last := locals[..|locals| - 1], locals[|locals| - 1];
      LastIdIsFresh(locals);
      DistinctIdsUnmatched(shown, init);
      UnmatchedAreLocals(shown, init);
      MatchStepUnmatched(shown, MatchLocals(shown, init), last);
      FreshIdAppends(MatchLocals(shown, init).unmatched, last);
    }
  }

  lemma NoIds()
    ensures DistinctIds([])
  {
  }

  lemma {:induction false} RetimedIds(live: seq<ChatMessage>, floor: int)
    ensures Ids(Retimed(live, floor)) == Ids(live)
    ensures DistinctIds(live) ==> DistinctIds(Retimed(live, floor))
  {
    var r := Retimed(live, floor);
    forall id | id in Ids(live) ensures id in Ids(r) {
      var m :| m in live && m.id == id;
      var i :| 0 <= i < |live| && live[i] == m;
      assert r[i] in r;
    }
    forall id | id in Ids(r) ensures id in Ids(live) {
      var m :| m in r && m.id == id;
      var i :| 0 <= i < |r| && r[i] == m;
      assert live[i] in live;
    }
  }

  /** Groups of current messages are separate, since a message has one bucket. */
  lemma PartsDisjoint(sessionId: string, o: RefreshOptions, current: seq<ChatMessage>, a: Bucket, b: Bucket)
    requires DistinctIds(current) && a != b
    ensures Ids(Part(sessionId, o, a, current)) !! Ids(Part(sessionId, o, b, current))
  {
    DistinctIdsAreUnique(current);
    PartMembers(sessionId, o, a, current);
    PartMembers(sessionId, o, b, current);
  }

  ghost predicate IdsWithin(ms: seq<ChatMessage>, all: seq<ChatMessage>) {
    DistinctIds(ms) && Ids(ms) <= Ids(all)
  }

  lemma UnpersistedWithin(shown: seq<ChatMessage>, ms: seq<ChatMessage>)
    requires DistinctIds(ms)
    ensures IdsWithin(Unpersisted(shown, ms), ms)
    ensures Ids(Unpersisted(shown, ms)) !! Ids(shown)
  {
    DistinctIdsFilter(NotPersisted(shown), ms);
    FilterMembers(NotPersisted(shown), ms);
  }

  lemma {:induction false} UnmatchedWithin(shown: seq<ChatMessage>, locals: seq<ChatMessage>)
    requires DistinctIds(locals)
    ensures IdsWithin(MatchLocals(shown, locals).unmatched, locals)
  {
    DistinctIdsUnmatched(shown, locals);
    MatchLocalsShrinks(shown, locals);
  }

  /** Pairwise disjoint groups with distinct ids. */
  ghost predicate GroupsApart(g: Groups) {
    && DistinctIds(g.others) && DistinctIds(g.otherTask) && DistinctIds(g.shown) && DistinctIds(g.segmented)
    && DistinctIds(g.ephemeral) && DistinctIds(g.locals) && DistinctIds(g.live)
    && Ids(g.others) !! Ids(g.otherTask) !! Ids(g.shown) !! Ids(g.segmented) !! Ids(g.ephemeral) !! Ids(g.locals) !! Ids(g.live)
  }

  lemma GroupsApartConcat(g: Groups)
    ensures DistinctIds(g.Concat()) <==> GroupsApart(g)
  {
    DistinctIdsAppend(g.locals, g.live);
    DistinctIdsAppend(g.ephemeral, g.locals + g.live);
    DistinctIdsAppend(g.segmented, g.ephemeral + (g.locals + g.live));
    DistinctIdsAppend(g.shown, g.segmented + (g.ephemeral + (g.locals + g.live)));
    DistinctIdsAppend(g.otherTask, g.shown + (g.segmented + (g.ephemeral + (g.locals + g.live))));
    DistinctIdsAppend(g.others, g.otherTask + (g.shown + (g.segmented + (g.ephemeral + (g.locals + g.live)))));
  }

  ghost predicate SplitApart(s: Split) {
    && DistinctIds(s.others) && DistinctIds(s.otherTask) && DistinctIds(s.segmented)
    && DistinctIds(s.ephemeral) && DistinctIds(s.locals) && DistinctIds(s.live)
    && Ids(s.others) !! Ids(s.otherTask) !! Ids(s.segmented) !! Ids(s.ephemeral) !! Ids(s.locals) !! Ids(s.live)
  }

  lemma SplitsApart(sessionId: string, o: RefreshOptions, current: seq<ChatMessage>)
    requires DistinctIds(current)
    ensures SplitApart(SplitOf(sessionId, o, current))
  {
    forall b: Bucket ensures DistinctIds(Part(sessionId, o, b, current)) {
      DistinctIdsFilter(InBucket(sessionId, o, b), current);
    }
    forall a: Bucket, b: Bucket | a != b ensures Ids(Part(sessionId, o, a, current)) !! Ids(Part(sessionId, o, b, current)) {
      PartsDisjoint(sessionId, o, current, a, b);
    }
  }

  /** No shown record has the id of a message that is kept without looking at the record ids. */
  ghost predicate RecordIdsFree(g: Groups) {
    forall m | m in g.others || m in g.segmented || m in g.ephemeral || m in g.locals :: m.id !in Ids(g.shown)
  }

  lemma GroupsApartFromSplit(s: Split, shown: seq<ChatMessage>)
    requires SplitApart(s) && DistinctIds(shown)
    ensures GroupsApart(GroupsOf(s, shown)) <==> RecordIdsFree(GroupsOf(s, shown))
  {
    UnpersistedWithin(shown, s.otherTask);
    UnmatchedWithin(shown, s.locals);
    UnpersistedWithin(shown, s.live);
    RetimedIds(Unpersisted(shown, s.live), MaxCreatedAt(shown) + 1);
  }

  lemma {:induction false} DistinctIdsInsert(c: Collation, a: ChatMessage, ms: seq<ChatMessage>)
    ensures DistinctIds(Insert(Order(c), a, ms)) <==> DistinctIds([a] + ms)
    ensures Ids(Insert(Order(c), a, ms)) == Ids(ms) + {a.id}
  {
    DistinctIdsAppend([a], ms);
    if ms != [] && !Order(c)(a, ms[0]) {
      assert ms == [ms[0]] + ms[1..];
      DistinctIdsInsert(c, a, ms[1..]);
      DistinctIdsAppend([ms[0]], ms[1..]);
      DistinctIdsAppend([a], ms[1..]);
      DistinctIdsAppend([ms[0]], Insert(Order(c), a, ms[1..]));
    }
  }

  lemma {:induction false} DistinctIdsSort(c: Collation, ms: seq<ChatMessage>)
    ensures DistinctIds(Sort(Order(c), ms)) <==> DistinctIds(ms)
    ensures Ids(Sort(Order(c), ms)) == Ids(ms)
  {
    if ms != [] {
      assert ms == [ms[0]] + ms[1..];
      DistinctIdsSort(c, ms[1..]);
      DistinctIdsInsert(c, ms[0], Sort(Order(c), ms[1..]));
      DistinctIdsAppend([ms[0]], ms[1..]);
      DistinctIdsAppend([ms[0]], Sort(Order(c), ms[1..]));
    }
  }

  /** The refreshed transcript has distinct ids exactly when no unfiltered message shares one with a shown record. */
  lemma RefreshedIdsDistinctIff(c: Collation, sessionId: string, o: RefreshOptions, current: seq<ChatMessage>, records: seq<MessageRecord>)
    requires DistinctIds(current) && DistinctIds(Shown(sessionId, o, current, records))
    ensures DistinctIds(Refresh(c, sessionId, o, current, records)) <==> RecordIdsFree(FirstGroups(sessionId, o, current, records))
  {
    SplitsApart(sessionId, o, current);
    GroupsApartFromSplit(SplitOf(sessionId, o, current), Shown(sessionId, o, current, records));
    GroupsApartConcat(FirstGroups(sessionId, o, current, records));
    DistinctIdsSort(c, FirstGroups(sessionId, o, current, records).Concat());
  }

  // ---- Why the conditions are there ----------------------------------------------------------

  const PLAIN := RefreshOptions([], true, [], false)

  function PendingUser(id: string, content: string): ChatMessage {
    ChatMessage(id, "s", "pending", User, content, 10, 10, false, false, None, None, None, None, NO_METADATA)
  }

  function UserRecordNamed(id: string, content: string): MessageRecord {
    MessageRecord(id, "s", Some("t"), UserRecord, content, 20, None, None, None, None, NO_METADATA)
  }

  /** The user sent the same text twice and one of the two is persisted: the second refresh drops the other. */
  lemma SharedCandidateWitness(c: Collation)
    ensures var current := [PendingUser("user_1", "again"), PendingUser("user_2", "again")];
            var records := [UserRecordNamed("m1", "again")];
            var once := Refresh(c, "s", PLAIN, current, records);
            Refresh(c, "s", PLAIN, once, records) != once
  {
    var a, b := PendingUser("user_1", "again"), PendingUser("user_2", "again");
    var current, records := [a, b], [UserRecordNamed("m1", "again")];
    var p := ViewOf(records[0]).value;
    assert Views(records) == [p];
    assert Inert("s", p) by {
      assert p.id[0] == 'm';
    }
    FilterAll(Wanted(PLAIN), [p]);
    FilterAll(NotSegmented(SegmentsOf("s", current)), [p]);
    FilterAll(InBucket("s", PLAIN, PendingLocal), current);
    MatchPair(p, a, b);
    RefreshIdempotentIff(c, "s", PLAIN, current, records);
  }

  lemma MatchPair(p: ChatMessage, a: ChatMessage, b: ChatMessage)
    requires Candidate(p, a) && Candidate(p, b)
    ensures !UnmatchedAreUnmatchable([p], [a, b])
  {
    assert [a, b][..1] == [a] && [a][..0] == [];
    assert p in [p] && FindPersistedMatch([p], a, {}).Some?;
    assert MatchLocals([p], [a]) == Matching({p.id}, []);
    assert MatchLocals([p], [a, b]) == Matching({p.id}, [b]);
    assert b in [b];
  }

  function SegmentMessage(id: string, taskId: string, base: string): ChatMessage {
    ChatMessage(id, "s", taskId, Assistant, "part", 10, 10, false, false, None, None, None, None,
                NO_METADATA.(baseMessageId := Some(base)))
  }

  lemma ExcludedOnly(sessionId: string, o: RefreshOptions, m: ChatMessage)
    requires BucketOf(sessionId, o, m) == Excluded
    ensures SplitOf(sessionId, o, [m]) == Split([], [], [], [], [], [])
    ensures GroupsOf(SplitOf(sessionId, o, [m]), []).Concat() == []
  {
  }

  lemma RefreshShowsRecords(c: Collation, sessionId: string, o: RefreshOptions, current: seq<ChatMessage>, records: seq<MessageRecord>)
    ensures |Refresh(c, sessionId, o, current, records)| >= |Shown(sessionId, o, current, records)|
  {
  }

  lemma ShownOne(sessionId: string, o: RefreshOptions, current: seq<ChatMessage>, r: MessageRecord)
    requires r.role != OtherRecord && Wanted(o)(ViewOf(r).value)
    ensures Shown(sessionId, o, current, [r]) == Filter(NotSegmented(SegmentsOf(sessionId, current)), [ViewOf(r).value])
  {
    assert Views([r]) == [ViewOf(r).value];
    FilterAll(Wanted(o), [ViewOf(r).value]);
  }

  lemma SegmentHides(sessionId: string, m: ChatMessage, p: ChatMessage)
    requires IsSegment(sessionId, m) && NamesBase(m) && p.role == Assistant && p.id == m.metadata.baseMessageId.value
    ensures Filter(NotSegmented(SegmentsOf(sessionId, [m])), [p]) == []
  {
    assert m in [m];
    assert p.id in SegmentsOf(sessionId, [m]).baseIds;
  }

  lemma NothingHides(sessionId: string, p: ChatMessage)
    ensures Filter(NotSegmented(SegmentsOf(sessionId, [])), [p]) == [p]
  {
    assert SegmentsOf(sessionId, []) == Segments({}, {});
  }

  /** A segment of an excluded task hides its record once and is dropped: the second refresh brings the record back. */
  lemma ExcludedSegmentBreaks(c: Collation, sessionId: string, o: RefreshOptions, m: ChatMessage, r: MessageRecord)
    requires BucketOf(sessionId, o, m) == Excluded && IsSegment(sessionId, m) && NamesBase(m)
    requires r.role == AssistantRecord && r.id == m.metadata.baseMessageId.value && Wanted(o)(ViewOf(r).value)
    ensures Refresh(c, sessionId, o, [m], [r]) == []
    ensures |Refresh(c, sessionId, o, [], [r])| > 0
  {
    var p := ViewOf(r).value;
    ShownOne(sessionId, o, [m], r);
    ShownOne(sessionId, o, [], r);
    SegmentHides(sessionId, m, p);
    NothingHides(sessionId, p);
    ExcludedOnly(sessionId, o, m);
    RefreshShowsRecords(c, sessionId, o, [], [r]);
  }

  lemma ExcludedSegmentWitness(c: Collation)
    ensures var o := PLAIN.(excludeTaskIds := ["child"]);
            var current := [SegmentMessage("x", "child", "m1")];
            var records := [UserRecordNamed("m1", "whole").(role := AssistantRecord)];
            var once := Refresh(c, "s", o, current, records);
            Refresh(c, "s", o, once, records) != once
  {
    var o := PLAIN.(excludeTaskIds := ["child"]);
    var m := SegmentMessage("x", "child", "m1");
    var r := UserRecordNamed("m1", "whole").(role := AssistantRecord);
    assert |"t"| != |"child"|;
    assert !IsSpace("m1"[0]);
    ExcludedSegmentBreaks(c, "s", o, m, r);
  }
}
