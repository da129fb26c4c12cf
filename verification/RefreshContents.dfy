/** What a refreshed transcript shows and in which order, told by the fields of its messages and records. */
module RefreshContents {
  import opened Seqs
  import opened StableSort
  import opened Text
  import opened ChatMessages
  import opened SessionRefresh
  import opened RefreshIdempotence

  // ---- Order --------------------------------------------------------------------------

  /** a stands before b: by time, and at one time by id. */
  predicate Earlier(c: Collation, a: ChatMessage, b: ChatMessage) {
    a.createdAt < b.createdAt || (a.createdAt == b.createdAt && c(a.id) <= c(b.id))
  }

  /** Messages with a sequence number come first, by number; the others, and messages of one number, by time and id. */
  predicate InOrder(c: Collation, a: ChatMessage, b: ChatMessage) {
    match (a.createdSeq, b.createdSeq)
    case (Some(m), Some(n)) => m < n || (m == n && Earlier(c, a, b))
    case (Some(_), None) => true
    case (None, Some(_)) => false
    case (None, None) => Earlier(c, a, b)
  }

  /** The refreshed transcript is in this order throughout. */
  lemma {:induction false} RefreshOrder(c: Collation, sessionId: string, o: RefreshOptions, current: seq<ChatMessage>,
                                        records: seq<MessageRecord>, i: nat, j: nat)
    requires i < j < |Refresh(c, sessionId, o, current, records)|
    ensures var once := Refresh(c, sessionId, o, current, records); InOrder(c, once[i], once[j])
  {
    hide Sort, GroupsOf, SplitOf, Shown;
    var all := GroupsOf(SplitOf(sessionId, o, current), Shown(sessionId, o, current, records)).Concat();
    OrderIsTotal(c);
    SortSorted(Order(c), all);
    OrderMeans(c, Sort(Order(c), all)[i], Sort(Order(c), all)[j]);
  }

  lemma OrderMeans(c: Collation, a: ChatMessage, b: ChatMessage)
    requires Order(c)(a, b)
    ensures InOrder(c, a, b)
  {
  }

  // ---- Records ---------------------------------------------------------------------------

  /** The task a record is shown under. */
  function RecordTask(r: MessageRecord): string {
    if r.taskId.Some? then r.taskId.value else "persisted"
  }

  /** m shows the record r. */
  predicate ShowsRecord(m: ChatMessage, r: MessageRecord) {
    && m.id == r.id && m.sessionId == r.sessionId && m.taskId == RecordTask(r)
    && r.role != OtherRecord && (m.role == User <==> r.role == UserRecord)
    && m.content == r.content && m.createdAt == r.createdAt && m.createdSeq == r.createdSeq
    && m.updatedAt == (if r.updatedAt.Some? then r.updatedAt.value else r.createdAt)
    && m.clientMessageId == r.clientMessageId && m.status == r.status && m.metadata == r.metadata
    && !m.streaming && !m.placeholder && m.toolName == None
  }

  /** The options ask for the record. */
  predicate AsksFor(o: RefreshOptions, r: MessageRecord) {
    var task := RecordTask(r);
    && !(task != "" && task in o.excludeTaskIds)
    && (o.taskIds == [] || (task != "" && task in o.taskIds) || (o.includeUserMessages && r.role == UserRecord))
  }

  /** A content block of the session stands for the record: it names the record as its base, or is of the same task. */
  predicate StandsFor(sessionId: string, m: ChatMessage, r: MessageRecord) {
    && m.sessionId == sessionId && m.role == Assistant
    && (m.metadata.contentBlockId.Some? || m.metadata.baseMessageId.Some?)
    && (|| (m.metadata.baseMessageId == Some(r.id) && Trim(r.id) != [])
        || (m.taskId != "" && m.taskId == RecordTask(r)))
  }

  lemma {:induction false} ViewsMembers(records: seq<MessageRecord>, m: ChatMessage)
    ensures m in Views(records) <==> exists r :: r in records && ShowsRecord(m, r)
  {
    if records != [] {
      ViewsMembers(records[1..], m);
      assert records == [records[0]] + records[1..];
      assert ViewOf(records[0]) == Some(m) <==> ShowsRecord(m, records[0]);
      if m in Views(records) && ViewOf(records[0]) != Some(m) {
        var r :| r in records[1..] && ShowsRecord(m, r);
        assert r in records;
      }
      if r :| r in records && ShowsRecord(m, r) {
        if r == records[0] {
          assert ViewOf(records[0]) == Some(m);
        } else {
          assert r in records[1..];
        }
      }
    }
  }

  /** A record is shown exactly when the options ask for it and it is the user's or no content block stands for it. */
  lemma {:induction false} ShownIff(sessionId: string, o: RefreshOptions, current: seq<ChatMessage>, records: seq<MessageRecord>, m: ChatMessage)
    ensures m in Shown(sessionId, o, current, records)
            <==> exists r :: r in records && ShowsRecord(m, r) && AsksFor(o, r)
                             && (m.role == User || forall n | n in current :: !StandsFor(sessionId, n, r))
  {
    ViewsMembers(records, m);
    var wanted := Filter(Wanted(o), Views(records));
    FilterMembers(Wanted(o), Views(records));
    FilterMembers(NotSegmented(SegmentsOf(sessionId, current)), wanted);
    forall r | r in records && ShowsRecord(m, r)
      ensures Wanted(o)(m) <==> AsksFor(o, r)
      ensures NotSegmented(SegmentsOf(sessionId, current))(m) <==> m.role == User || forall n | n in current :: !StandsFor(sessionId, n, r)
    {
      StandsForIff(sessionId, current, m, r);
    }
  }

  lemma StandsForIff(sessionId: string, current: seq<ChatMessage>, m: ChatMessage, r: MessageRecord)
    requires ShowsRecord(m, r)
    ensures var segments := SegmentsOf(sessionId, current);
            m.id in segments.baseIds || m.taskId in segments.taskIds <==> exists n :: n in current && StandsFor(sessionId, n, r)
  {
    hide Trim;
    var segments := SegmentsOf(sessionId, current);
    if m.id in segments.baseIds {
      var n :| n in current && IsSegment(sessionId, n) && NamesBase(n) && n.metadata.baseMessageId.value == m.id;
      assert StandsFor(sessionId, n, r);
    }
    if m.taskId in segments.taskIds {
      var n :| n in current && IsSegment(sessionId, n) && n.taskId != "" && n.taskId == m.taskId;
      assert StandsFor(sessionId, n, r);
    }
  }

  // ---- Current messages --------------------------------------------------------------------

  predicate OfExcludedTask(o: RefreshOptions, m: ChatMessage) {
    m.taskId != "" && m.taskId in o.excludeTaskIds
  }

  predicate IsContentBlock(m: ChatMessage) {
    m.role == Assistant && (m.metadata.contentBlockId.Some? || m.metadata.baseMessageId.Some?)
  }

  predicate IsLocal(m: ChatMessage) {
    m.taskId == "pending" || "user_" <= m.id || "assistant_pending_" <= m.id || "assistant_failed_" <= m.id
  }

  /** A shown record has the message's id, or its client id. */
  predicate Covered(shown: seq<ChatMessage>, m: ChatMessage) {
    exists p :: p in shown && (p.id == m.id || (Truthy(m.clientMessageId) && p.clientMessageId == m.clientMessageId))
  }

  /** The message streams in the session, and is no content block and of no excluded task. */
  predicate IsLive(sessionId: string, o: RefreshOptions, m: ChatMessage) {
    m.sessionId == sessionId && !OfExcludedTask(o, m) && !IsContentBlock(m) && m.streaming
  }

  /** The same for a message that waits for its record. */
  predicate IsPending(sessionId: string, o: RefreshOptions, m: ChatMessage) {
    m.sessionId == sessionId && !OfExcludedTask(o, m) && !IsContentBlock(m) && !m.streaming && IsLocal(m)
  }

  /** The blocks that live in the transcript only: of all kinds but text and those nothing knows. */
  lemma EphemeralIs(m: ChatMessage)
    ensures IsEphemeralBlock(m)
            <==> && m.metadata.kind.Some?
                 && (m.metadata.kind.value in {ToolUse, ToolResult, ToolActivity, AssistantProgress, AssistantThinking, PermissionRequest,
                                               AskUserQuestion, ComputerUsePermissionRequest, ComputerUsePermission}
                     || m.metadata.kind.value.OtherBlock?)
  {
  }

  /** The message stays as it is: of another session, a content block, an ephemeral block, or of a task not asked for. */
  predicate StaysAsItIs(sessionId: string, o: RefreshOptions, shown: seq<ChatMessage>, m: ChatMessage) {
    || m.sessionId != sessionId
    || (!OfExcludedTask(o, m)
        && (|| IsContentBlock(m)
            || (!m.streaming && !IsLocal(m)
                && (|| IsEphemeralBlock(m)
                    || (o.taskIds != [] && o.preserveOtherTaskMessages && !(m.taskId != "" && m.taskId in o.taskIds) && !Covered(shown, m))))))
  }

  lemma CoveredIff(shown: seq<ChatMessage>, m: ChatMessage)
    ensures NotPersisted(shown)(m) <==> !Covered(shown, m)
  {
    if Truthy(m.clientMessageId) && m.clientMessageId.value in ClientIds(shown) {
      var p :| p in shown && Truthy(p.clientMessageId) && p.clientMessageId.value == m.clientMessageId.value;
    }
    if m.id in Ids(shown) {
      var p :| p in shown && p.id == m.id;
    }
  }

  lemma BucketMeans(sessionId: string, o: RefreshOptions, m: ChatMessage)
    ensures BucketOf(sessionId, o, m) == Live <==> IsLive(sessionId, o, m)
    ensures BucketOf(sessionId, o, m) == PendingLocal <==> IsPending(sessionId, o, m)
  {
  }

  /** What the seven groups hold. */
  lemma {:induction false} GroupMembers(sessionId: string, o: RefreshOptions, current: seq<ChatMessage>, shown: seq<ChatMessage>, m: ChatMessage)
    ensures var g := GroupsOf(SplitOf(sessionId, o, current), shown);
            && (m in g.others || m in g.otherTask || m in g.segmented || m in g.ephemeral
                <==> m in current && StaysAsItIs(sessionId, o, shown, m))
            && (m in g.locals ==> m in current && IsPending(sessionId, o, m))
            && (m in g.live ==> IsLive(sessionId, o, m))
  {
    hide Filter, MatchLocals, Relocated, NotPersisted, Covered, IsEphemeralBlock;
    PartMembers(sessionId, o, OtherSession, current);
    PartMembers(sessionId, o, OtherTask, current);
    PartMembers(sessionId, o, Segmented, current);
    PartMembers(sessionId, o, Ephemeral, current);
    PartMembers(sessionId, o, PendingLocal, current);
    FilterMembers(NotPersisted(shown), Part(sessionId, o, OtherTask, current));
    CoveredIff(shown, m);
    UnmatchedAreLocals(shown, Part(sessionId, o, PendingLocal, current), m);
    BucketMeans(sessionId, o, m);
    RelocatedAreLive(sessionId, o, current, shown, m);
  }

  lemma {:induction false} UnmatchedAreLocals(shown: seq<ChatMessage>, locals: seq<ChatMessage>, m: ChatMessage)
    ensures m in MatchLocals(shown, locals).unmatched ==> m in locals
  {
    hide FindPersistedMatch;
    if locals != [] {
      UnmatchedAreLocals(shown, locals[..|locals| - 1], m);
    }
  }

  lemma {:induction false} RelocatedAreLive(sessionId: string, o: RefreshOptions, current: seq<ChatMessage>, shown: seq<ChatMessage>, m: ChatMessage)
    ensures m in Relocated(shown, Part(sessionId, o, Live, current)) ==> IsLive(sessionId, o, m)
  {
    hide Filter, NotPersisted, MaxCreatedAt;
    var live := Unpersisted(shown, Part(sessionId, o, Live, current));
    var moved := Relocated(shown, Part(sessionId, o, Live, current));
    FilterMembers(NotPersisted(shown), Part(sessionId, o, Live, current));
    PartMembers(sessionId, o, Live, current);
    if m in moved {
      var k :| 0 <= k < |moved| && moved[k] == m;
      assert live[k] in live;
      BucketMeans(sessionId, o, live[k]);
    }
  }

  /** Apart from live and pending messages, the result holds exactly the shown records and the messages that stay. */
  lemma {:induction false} RefreshHoldsIff(c: Collation, sessionId: string, o: RefreshOptions, current: seq<ChatMessage>,
                                           records: seq<MessageRecord>, m: ChatMessage)
    requires !IsLive(sessionId, o, m) && !IsPending(sessionId, o, m)
    ensures var shown := Shown(sessionId, o, current, records);
            m in Refresh(c, sessionId, o, current, records)
            <==> m in shown || (m in current && StaysAsItIs(sessionId, o, shown, m))
  {
    hide Refresh, GroupsOf, SplitOf, Shown, StaysAsItIs, IsLive, IsPending;
    var shown := Shown(sessionId, o, current, records);
    var g := GroupsOf(SplitOf(sessionId, o, current), shown);
    RefreshMember(c, sessionId, o, current, records, m);
    GroupMembers(sessionId, o, current, shown, m);
    GroupsShow(sessionId, o, current, shown);
  }

  lemma ConcatMembers(g: Groups, m: ChatMessage)
    ensures m in g.Concat() <==> m in g.others || m in g.otherTask || m in g.shown || m in g.segmented || m in g.ephemeral || m in g.locals || m in g.live
  {
  }

  /** Sorting aside, the result is the seven groups. */
  lemma {:induction false} RefreshMember(c: Collation, sessionId: string, o: RefreshOptions, current: seq<ChatMessage>,
                                         records: seq<MessageRecord>, m: ChatMessage)
    ensures var shown := Shown(sessionId, o, current, records);
            var g := GroupsOf(SplitOf(sessionId, o, current), shown);
            m in Refresh(c, sessionId, o, current, records)
            <==> m in shown || m in g.others || m in g.otherTask || m in g.segmented || m in g.ephemeral || m in g.locals || m in g.live
  {
    hide Sort, GroupsOf, SplitOf, Shown;
    var shown := Shown(sessionId, o, current, records);
    var g := GroupsOf(SplitOf(sessionId, o, current), shown);
    SortKeepsElements(Order(c), g.Concat());
    ConcatMembers(g, m);
    GroupsShow(sessionId, o, current, shown);
  }

  lemma {:induction false} GroupsShow(sessionId: string, o: RefreshOptions, current: seq<ChatMessage>, shown: seq<ChatMessage>)
    ensures var g := GroupsOf(SplitOf(sessionId, o, current), shown);
            && g.shown == shown && g.locals == MatchLocals(shown, Part(sessionId, o, PendingLocal, current)).unmatched
            && g.live == Relocated(shown, Part(sessionId, o, Live, current))
  {
  }

  function SameKey(c: Collation, k: ChatMessage): ChatMessage -> bool {
    (m: ChatMessage) => m.createdSeq == k.createdSeq && m.createdAt == k.createdAt && c(m.id) == c(k.id)
  }

  /** Messages that tie in the order keep that of their groups: other sessions, other tasks, records, blocks, ephemeral, pending, live. */
  lemma {:induction false} TiesInGroupOrder(c: Collation, sessionId: string, o: RefreshOptions, current: seq<ChatMessage>,
                                            records: seq<MessageRecord>, k: ChatMessage)
    ensures var g := GroupsOf(SplitOf(sessionId, o, current), Shown(sessionId, o, current, records));
            var tied := SameKey(c, k);
            Filter(tied, Refresh(c, sessionId, o, current, records))
            == Filter(tied, g.others) + Filter(tied, g.otherTask) + Filter(tied, g.shown) + Filter(tied, g.segmented)
               + Filter(tied, g.ephemeral) + Filter(tied, g.locals) + Filter(tied, g.live)
  {
    hide Sort, GroupsOf, SplitOf, Shown, Filter;
    var g := GroupsOf(SplitOf(sessionId, o, current), Shown(sessionId, o, current, records));
    var tied := SameKey(c, k);
    OrderIsTotal(c);
    var le := Order(c);
    SortIsStable(le, k, g.Concat());
    var same := TiedWith(le, k);
    forall m: ChatMessage ensures same(m) <==> tied(m) {
      TiedMeans(c, m, k);
    }
    FilterCongruence(same, tied, Sort(le, g.Concat()));
    FilterCongruence(same, tied, g.Concat());
    FilterSeven(tied, g.others, g.otherTask, g.shown, g.segmented, g.ephemeral, g.locals, g.live);
  }

  lemma TiedMeans(c: Collation, m: ChatMessage, k: ChatMessage)
    ensures Order(c)(m, k) && Order(c)(k, m) <==> SameKey(c, k)(m)
  {
  }

  lemma {:induction false} FilterSeven(p: ChatMessage -> bool, a: seq<ChatMessage>, b: seq<ChatMessage>, d: seq<ChatMessage>, e: seq<ChatMessage>,
                                       f: seq<ChatMessage>, g: seq<ChatMessage>, h: seq<ChatMessage>)
    ensures Filter(p, a + (b + (d + (e + (f + (g + h)))))) == Filter(p, a) + Filter(p, b) + Filter(p, d) + Filter(p, e) + Filter(p, f) + Filter(p, g) + Filter(p, h)
  {
    hide Filter;
    FilterAppend(p, a, b + (d + (e + (f + (g + h)))));
    FilterAppend(p, b, d + (e + (f + (g + h))));
    FilterAppend(p, d, e + (f + (g + h)));
    FilterAppend(p, e, f + (g + h));
    FilterAppend(p, f, g + h);
    FilterAppend(p, g, h);
  }

  // ---- Live messages ---------------------------------------------------------------------------

  /** The time of the newest record, 0 when there is none, or none after 0. */
  ghost predicate Newest(shown: seq<ChatMessage>, t: int) {
    t >= 0 && (forall p | p in shown :: p.createdAt <= t) && (t == 0 || exists p :: p in shown && p.createdAt == t)
  }

  lemma {:induction false} MaxIsNewest(shown: seq<ChatMessage>, t: int)
    requires Newest(shown, t)
    ensures MaxCreatedAt(shown) == t
  {
    MaxCreatedAtBounds(shown);
    MaxReached(shown);
  }

  lemma {:induction false} MaxReached(shown: seq<ChatMessage>)
    ensures MaxCreatedAt(shown) == 0 || exists p :: p in shown && p.createdAt == MaxCreatedAt(shown)
  {
    if shown != [] {
      MaxReached(shown[..|shown| - 1]);
      assert shown == shown[..|shown| - 1] + [shown[|shown| - 1]];
    }
  }

  function LiveUncovered(sessionId: string, o: RefreshOptions, shown: seq<ChatMessage>): ChatMessage -> bool {
    (m: ChatMessage) => IsLive(sessionId, o, m) && !Covered(shown, m)
  }

  /** m moved to t at the earliest. */
  predicate MovedTo(m: ChatMessage, n: ChatMessage, t: int) {
    && n.createdAt == (if m.createdAt >= t then m.createdAt else t)
    && n.updatedAt == (if m.updatedAt >= n.createdAt then m.updatedAt else n.createdAt)
    && n == m.(createdAt := n.createdAt, updatedAt := n.updatedAt)
  }

  lemma {:induction false} FilterTwice(p: ChatMessage -> bool, q: ChatMessage -> bool, r: ChatMessage -> bool, ms: seq<ChatMessage>)
    requires forall m: ChatMessage :: r(m) <==> q(m) && p(m)
    ensures Filter(p, Filter(q, ms)) == Filter(r, ms)
  {
    if ms != [] {
      FilterTwice(p, q, r, ms[1..]);
      assert ([ms[0]] + Filter(q, ms[1..]))[1..] == Filter(q, ms[1..]);
    }
  }

  lemma {:induction false} LiveGroup(sessionId: string, o: RefreshOptions, current: seq<ChatMessage>, shown: seq<ChatMessage>, newest: int)
    requires Newest(shown, newest)
    ensures GroupsOf(SplitOf(sessionId, o, current), shown).live == Retimed(Filter(LiveUncovered(sessionId, o, shown), current), newest + 1)
  {
    hide GroupsOf, SplitOf, Filter, Covered, NotPersisted, MaxCreatedAt, Newest, Retimed, IsLive, BucketOf;
    GroupsShow(sessionId, o, current, shown);
    MaxIsNewest(shown, newest);
    forall n: ChatMessage ensures LiveUncovered(sessionId, o, shown)(n) <==> InBucket(sessionId, o, Live)(n) && NotPersisted(shown)(n) {
      BucketMeans(sessionId, o, n);
      CoveredIff(shown, n);
    }
    FilterTwice(NotPersisted(shown), InBucket(sessionId, o, Live), LiveUncovered(sessionId, o, shown), current);
  }

  lemma {:induction false} LiveOnly(c: Collation, sessionId: string, o: RefreshOptions, current: seq<ChatMessage>,
                                    records: seq<MessageRecord>, m: ChatMessage)
    requires IsLive(sessionId, o, m)
    ensures m in Refresh(c, sessionId, o, current, records)
            <==> m in GroupsOf(SplitOf(sessionId, o, current), Shown(sessionId, o, current, records)).live
  {
    hide Refresh, GroupsOf, SplitOf, Shown, IsLive, IsPending, StaysAsItIs;
    var shown := Shown(sessionId, o, current, records);
    RefreshMember(c, sessionId, o, current, records, m);
    GroupMembers(sessionId, o, current, shown, m);
    ShownNotStreaming(sessionId, o, current, records, m);
    LiveIsNothingElse(sessionId, o, shown, m);
  }

  /** The live messages of the result are those no record covers, one behind the other after the newest record. */
  lemma {:induction false} LiveIff(c: Collation, sessionId: string, o: RefreshOptions, current: seq<ChatMessage>,
                                   records: seq<MessageRecord>, newest: int, m: ChatMessage)
    requires IsLive(sessionId, o, m) && Newest(Shown(sessionId, o, current, records), newest)
    ensures var live := Filter(LiveUncovered(sessionId, o, Shown(sessionId, o, current, records)), current);
            m in Refresh(c, sessionId, o, current, records)
            <==> exists k :: 0 <= k < |live| && MovedTo(live[k], m, newest + 1 + k)
  {
    hide Refresh, GroupsOf, SplitOf, Shown, Filter, Newest, MovedTo, Retimed, IsLive, LiveUncovered;
    var shown := Shown(sessionId, o, current, records);
    LiveOnly(c, sessionId, o, current, records, m);
    LiveGroup(sessionId, o, current, shown, newest);
    RetimedMembers(Filter(LiveUncovered(sessionId, o, shown), current), newest + 1, m);
  }

  lemma LiveIsNothingElse(sessionId: string, o: RefreshOptions, shown: seq<ChatMessage>, m: ChatMessage)
    requires IsLive(sessionId, o, m)
    ensures m.streaming && !StaysAsItIs(sessionId, o, shown, m) && !IsPending(sessionId, o, m)
  {
    hide Covered, IsEphemeralBlock;
  }

  lemma {:induction false} RetimedMembers(live: seq<ChatMessage>, floor: int, m: ChatMessage)
    ensures m in Retimed(live, floor) <==> exists k :: 0 <= k < |live| && MovedTo(live[k], m, floor + k)
  {
    var moved := Retimed(live, floor);
    forall k | 0 <= k < |live| ensures moved[k] == m <==> MovedTo(live[k], m, floor + k) {
    }
    if m in moved {
      var k :| 0 <= k < |moved| && moved[k] == m;
      assert MovedTo(live[k], m, floor + k);
    }
  }

  lemma ShownNotStreaming(sessionId: string, o: RefreshOptions, current: seq<ChatMessage>, records: seq<MessageRecord>, m: ChatMessage)
    ensures m in Shown(sessionId, o, current, records) ==> !m.streaming
  {
    hide Shown;
    ShownIff(sessionId, o, current, records, m);
  }

  // ---- Pending messages ------------------------------------------------------------------------------

  /** The record p may be what became of the local message: by client id, by id, or by the same words at about the same time. */
  predicate CouldBe(p: ChatMessage, local: ChatMessage) {
    || (local.clientMessageId.Some? && local.clientMessageId.value != "" && p.clientMessageId == local.clientMessageId)
    || p.id == local.id
    || (p.sessionId == local.sessionId && p.role == local.role && Trim(p.content) == Trim(local.content)
        && -300000 < p.createdAt - local.createdAt < 300000)
  }

  lemma CandidateMeans(p: ChatMessage, local: ChatMessage)
    ensures Candidate(p, local) <==> CouldBe(p, local)
  {
    hide Trim;
  }

  function Pending(sessionId: string, o: RefreshOptions): ChatMessage -> bool {
    (m: ChatMessage) => IsPending(sessionId, o, m)
  }

  lemma {:induction false} PendingPart(sessionId: string, o: RefreshOptions, current: seq<ChatMessage>)
    ensures Part(sessionId, o, PendingLocal, current) == Filter(Pending(sessionId, o), current)
  {
    forall m | m in current ensures InBucket(sessionId, o, PendingLocal)(m) <==> Pending(sessionId, o)(m) {
      BucketMeans(sessionId, o, m);
    }
    FilterCongruence(InBucket(sessionId, o, PendingLocal), Pending(sessionId, o), current);
  }

  /** A pending message that no shown record could be stays. */
  lemma {:induction false} PendingKept(c: Collation, sessionId: string, o: RefreshOptions, current: seq<ChatMessage>,
                                       records: seq<MessageRecord>, m: ChatMessage)
    requires m in current && IsPending(sessionId, o, m)
    requires forall p | p in Shown(sessionId, o, current, records) :: !CouldBe(p, m)
    ensures m in Refresh(c, sessionId, o, current, records)
  {
    hide Refresh, GroupsOf, SplitOf, Shown, CouldBe, MatchLocals;
    var shown := Shown(sessionId, o, current, records);
    var g := GroupsOf(SplitOf(sessionId, o, current), shown);
    RefreshMember(c, sessionId, o, current, records, m);
    GroupsShow(sessionId, o, current, shown);
    BucketMeans(sessionId, o, m);
    PartMembers(sessionId, o, PendingLocal, current);
    KeptUnmatched(shown, Part(sessionId, o, PendingLocal, current), m);
  }

  lemma {:induction false} KeptUnmatched(shown: seq<ChatMessage>, locals: seq<ChatMessage>, m: ChatMessage)
    requires m in locals && forall p | p in shown :: !CouldBe(p, m)
    ensures m in MatchLocals(shown, locals).unmatched
  {
    hide CouldBe, Candidate, FindPersistedMatch;
    var init, last := locals[..|locals| - 1], locals[|locals| - 1];
    if last == m {
      forall p | p in shown ensures !Candidate(p, m) {
        CandidateMeans(p, m);
      }
      assert FindPersistedMatch(shown, last, MatchLocals(shown, init).taken).None?;
    } else {
      KeptUnmatched(shown, init, m);
    }
  }

  /** A pending message with a record that could be no other pending message is replaced by the records. */
  lemma {:induction false} PendingReplaced(c: Collation, sessionId: string, o: RefreshOptions, current: seq<ChatMessage>,
                                           records: seq<MessageRecord>, i: nat, p: ChatMessage)
    requires var locals, shown := Filter(Pending(sessionId, o), current), Shown(sessionId, o, current, records);
             && i < |locals| && p in shown && CouldBe(p, locals[i])
             && (forall j | 0 <= j < |locals| && j != i :: locals[j] != locals[i])
             && (forall j, q | 0 <= j < |locals| && j != i && q in shown && q.id == p.id :: !CouldBe(q, locals[j]))
    ensures var m := Filter(Pending(sessionId, o), current)[i];
            m in Refresh(c, sessionId, o, current, records) ==> m in Shown(sessionId, o, current, records)
  {
    hide Refresh, GroupsOf, SplitOf, Shown, CouldBe, MatchLocals, Filter, IsPending, IsLive, StaysAsItIs;
    var shown := Shown(sessionId, o, current, records);
    var g := GroupsOf(SplitOf(sessionId, o, current), shown);
    var locals := Filter(Pending(sessionId, o), current);
    var m := locals[i];
    RefreshMember(c, sessionId, o, current, records, m);
    GroupsShow(sessionId, o, current, shown);
    PendingPart(sessionId, o, current);
    FilterMembers(Pending(sessionId, o), current);
    assert m in locals;
    GroupMembers(sessionId, o, current, shown, m);
    PendingIsNothingElse(sessionId, o, shown, m);
    MatchedOnce(shown, locals, i, p);
  }

  lemma PendingIsNothingElse(sessionId: string, o: RefreshOptions, shown: seq<ChatMessage>, m: ChatMessage)
    requires IsPending(sessionId, o, m)
    ensures !StaysAsItIs(sessionId, o, shown, m) && !IsLive(sessionId, o, m)
  {
    hide Covered, IsEphemeralBlock;
  }

  lemma {:induction false} MatchedOnce(shown: seq<ChatMessage>, locals: seq<ChatMessage>, i: nat, p: ChatMessage)
    requires i < |locals| && p in shown && CouldBe(p, locals[i])
    requires forall j | 0 <= j < |locals| && j != i :: locals[j] != locals[i]
    requires forall j, q | 0 <= j < |locals| && j != i && q in shown && q.id == p.id :: !CouldBe(q, locals[j])
    ensures locals[i] !in MatchLocals(shown, locals).unmatched
  {
    hide CouldBe, Candidate, FindPersistedMatch;
    var n := |locals| - 1;
    var init := locals[..n];
    if i == n {
      NotTaken(shown, init, p.id);
      CandidateMeans(p, locals[i]);
      UnmatchedAreLocals(shown, init, locals[i]);
    } else {
      MatchedOnce(shown, init, i, p);
      assert init[i] == locals[i] && locals[n] != locals[i];
    }
  }

  /** A record that could be none of the locals is not taken. */
  lemma {:induction false} NotTaken(shown: seq<ChatMessage>, locals: seq<ChatMessage>, id: string)
    requires forall j, q | 0 <= j < |locals| && q in shown && q.id == id :: !CouldBe(q, locals[j])
    ensures id !in MatchLocals(shown, locals).taken
  {
    hide CouldBe, Candidate, FindPersistedMatch;
    if locals != [] {
      var init, last := locals[..|locals| - 1], locals[|locals| - 1];
      NotTaken(shown, init, id);
      var found := FindPersistedMatch(shown, last, MatchLocals(shown, init).taken);
      if found.Some? {
        CandidateMeans(found.value, last);
      }
    }
  }

  /** A record stands for one pending message at most: at least all but as many stay as there are shown ids. */
  lemma {:induction false} OneRecordEach(shown: seq<ChatMessage>, locals: seq<ChatMessage>)
    ensures var r := MatchLocals(shown, locals);
            |locals| - |r.unmatched| == |r.taken| && r.taken <= Ids(shown)
  {
    hide FindPersistedMatch;
    if locals != [] {
      var init := locals[..|locals| - 1];
      OneRecordEach(shown, init);
      var found := FindPersistedMatch(shown, locals[|locals| - 1], MatchLocals(shown, init).taken);
    }
  }

  /** The rules in their order: a record with the client id before one with the id, and that before one with the words. */
  lemma MatchPrefers(shown: seq<ChatMessage>, local: ChatMessage, taken: set<string>)
    ensures var r := FindPersistedMatch(shown, local, taken);
            && (r.None? <==> forall p | p in shown && p.id !in taken :: !CouldBe(p, local))
            && (Truthy(local.clientMessageId) && (exists p :: p in shown && p.id !in taken && p.clientMessageId == local.clientMessageId) ==>
                  r.Some? && r.value.clientMessageId == local.clientMessageId)
            && (local.id in Ids(shown) && local.id !in taken ==>
                  r.Some? && (r.value.id == local.id || (Truthy(local.clientMessageId) && r.value.clientMessageId == local.clientMessageId)))
  {
    hide Trim;
    forall p | p in shown ensures Candidate(p, local) <==> CouldBe(p, local) {
      CandidateMeans(p, local);
    }
  }
}
