/** replaceSessionMessages: merging a session's persisted records into the live transcript. */
module SessionRefresh {
  import opened Seqs
  import opened StableSort
  import opened Text
  import opened ChatMessages

  datatype RecordRole = UserRecord | AssistantRecord | OtherRecord

  datatype MessageRecord = MessageRecord(
    id: string,
    sessionId: string,
    taskId: Option<string>,
    role: RecordRole,
    content: string,
    createdAt: int,
    updatedAt: Option<int>,
    clientMessageId: Option<string>,
    status: Option<MessageStatus>,
    createdSeq: Option<int>,
    metadata: Metadata)

  datatype RefreshOptions = RefreshOptions(
    taskIds: seq<string>,            // [] when absent
    includeUserMessages: bool,       // false only when given as false
    excludeTaskIds: seq<string>,     // [] when absent
    preserveOtherTaskMessages: bool)

  const MATCH_WINDOW_MS := 5 * 60 * 1000

  /** Records other than user and assistant ones have no view. */
  function ViewOf(r: MessageRecord): Option<ChatMessage> {
    if r.role == OtherRecord then None
    else Some(ChatMessage(
                r.id, r.sessionId,
                if r.taskId.Some? then r.taskId.value else "persisted",
                if r.role == UserRecord then User else Assistant,
                r.content, r.createdAt,
                if r.updatedAt.Some? then r.updatedAt.value else r.createdAt,
                false, false, r.clientMessageId, r.status, r.createdSeq, None, r.metadata))
  }

  function Views(records: seq<MessageRecord>): seq<ChatMessage> {
    if records == [] then []
    else
      match ViewOf(records[0])
      case Some(view) => [view] + Views(records[1..])
      case None => Views(records[1..])
  }

  // ---- What the options select -------------------------------------------------

  predicate Allows(o: RefreshOptions, taskId: string) {
    taskId != "" && taskId in o.taskIds
  }

  predicate Excludes(o: RefreshOptions, taskId: string) {
    taskId != "" && taskId in o.excludeTaskIds
  }

  function Wanted(o: RefreshOptions): ChatMessage -> bool {
    (m: ChatMessage) =>
      && !Excludes(o, m.taskId)
      && (o.taskIds == [] || (o.includeUserMessages && m.role == User) || Allows(o, m.taskId))
  }

  /** Content blocks of the session stand in for the persisted message they are segments of. */
  datatype Segments = Segments(baseIds: set<string>, taskIds: set<string>)

  predicate IsSegment(sessionId: string, m: ChatMessage) {
    m.sessionId == sessionId && IsAssistantContentBlock(m)
  }

  predicate NamesBase(m: ChatMessage) {
    m.metadata.baseMessageId.Some? && Trim(m.metadata.baseMessageId.value) != ""
  }

  function SegmentsOf(sessionId: string, current: seq<ChatMessage>): Segments {
    Segments(
      set m | m in current && IsSegment(sessionId, m) && NamesBase(m) :: m.metadata.baseMessageId.value,
      set m | m in current && IsSegment(sessionId, m) && m.taskId != "" :: m.taskId)
  }

  function NotSegmented(segments: Segments): ChatMessage -> bool {
    (m: ChatMessage) => m.role != Assistant || !(m.id in segments.baseIds || m.taskId in segments.taskIds)
  }

  /** The persisted messages the refreshed transcript shows. */
  function Shown(sessionId: string, o: RefreshOptions, current: seq<ChatMessage>, records: seq<MessageRecord>)
    : seq<ChatMessage>
  {
    Filter(NotSegmented(SegmentsOf(sessionId, current)), Filter(Wanted(o), Views(records)))
  }

  // ---- How the current messages are split ---------------------------------------

  datatype Bucket = OtherSession | Excluded | Segmented | Live | PendingLocal | Ephemeral | OtherTask | Dropped

  function BucketOf(sessionId: string, o: RefreshOptions, m: ChatMessage): Bucket {
    if m.sessionId != sessionId then OtherSession
    else if Excludes(o, m.taskId) then Excluded
    else if IsAssistantContentBlock(m) then Segmented
    else if m.streaming then Live
    else if IsLocalPending(m) then PendingLocal
    else if IsEphemeralBlock(m) then Ephemeral
    else if o.taskIds != [] && o.preserveOtherTaskMessages && !Allows(o, m.taskId) then OtherTask
    else Dropped
  }

  function InBucket(sessionId: string, o: RefreshOptions, b: Bucket): ChatMessage -> bool {
    (m: ChatMessage) => BucketOf(sessionId, o, m) == b
  }

  function Part(sessionId: string, o: RefreshOptions, b: Bucket, current: seq<ChatMessage>): seq<ChatMessage> {
    Filter(InBucket(sessionId, o, b), current)
  }

  function Ids(ms: seq<ChatMessage>): set<string> {
    set m | m in ms :: m.id
  }

  function ClientIds(ms: seq<ChatMessage>): set<string> {
    set m | m in ms && Truthy(m.clientMessageId) :: m.clientMessageId.value
  }

  function NotPersisted(shown: seq<ChatMessage>): ChatMessage -> bool {
    (m: ChatMessage) => m.id !in Ids(shown) && !(Truthy(m.clientMessageId) && m.clientMessageId.value in ClientIds(shown))
  }

  function MaxCreatedAt(ms: seq<ChatMessage>): int {
    if ms == [] then 0
    else
      var rest, last := MaxCreatedAt(ms[..|ms| - 1]), ms[|ms| - 1];
      if last.createdAt > rest then last.createdAt else rest
  }

  lemma {:induction false} MaxCreatedAtBounds(ms: seq<ChatMessage>)
    ensures MaxCreatedAt(ms) >= 0
    ensures forall m | m in ms :: m.createdAt <= MaxCreatedAt(ms)
  {
    if ms != [] {
      MaxCreatedAtBounds(ms[..|ms| - 1]);
      assert ms == ms[..|ms| - 1] + [ms[|ms| - 1]];
    }
  }

  function RetimedAt(m: ChatMessage, floor: int): ChatMessage {
    var createdAt := if m.createdAt > floor then m.createdAt else floor;
    m.(createdAt := createdAt, updatedAt := if m.updatedAt > createdAt then m.updatedAt else createdAt)
  }

  /** Live message number i is moved to floor + i at the earliest. */
  function Retimed(live: seq<ChatMessage>, floor: int): (r: seq<ChatMessage>)
    ensures |r| == |live|
    ensures forall i :: 0 <= i < |live| ==> r[i] == RetimedAt(live[i], floor + i)
  {
    if live == [] then [] else [RetimedAt(live[0], floor)] + Retimed(live[1..], floor + 1)
  }

  /** The messages of a group that no shown record stands for. */
  function Unpersisted(shown: seq<ChatMessage>, ms: seq<ChatMessage>): seq<ChatMessage> {
    Filter(NotPersisted(shown), ms)
  }

  function Relocated(shown: seq<ChatMessage>, live: seq<ChatMessage>): seq<ChatMessage> {
    Retimed(Unpersisted(shown, live), MaxCreatedAt(shown) + 1)
  }

  // ---- Matching pending local messages ------------------------------------------

  datatype Rule = ByClientId | ById | ByContent

  predicate Matches(rule: Rule, p: ChatMessage, local: ChatMessage) {
    match rule
    case ByClientId => Truthy(local.clientMessageId) && p.clientMessageId == local.clientMessageId
    case ById => p.id == local.id
    case ByContent =>
      && p.sessionId == local.sessionId
      && p.role == local.role
      && Trim(p.content) == Trim(local.content)
      && -MATCH_WINDOW_MS < p.createdAt - local.createdAt < MATCH_WINDOW_MS
  }

  /** p may be taken for local by one of the three rules. */
  predicate Candidate(p: ChatMessage, local: ChatMessage) {
    Matches(ByClientId, p, local) || Matches(ById, p, local) || Matches(ByContent, p, local)
  }

  function FirstMatch(rule: Rule, shown: seq<ChatMessage>, local: ChatMessage, taken: set<string>): (r: Option<ChatMessage>)
    ensures r.Some? ==> r.value in shown && r.value.id !in taken && Matches(rule, r.value, local)
    ensures r.None? ==> forall p | p in shown :: p.id in taken || !Matches(rule, p, local)
  {
    if shown == [] then None
    else if shown[0].id !in taken && Matches(rule, shown[0], local) then Some(shown[0])
    else FirstMatch(rule, shown[1..], local, taken)
  }

  /** findPersistedMatch: the rules in order of preference, over the records not yet taken. */
  function FindPersistedMatch(shown: seq<ChatMessage>, local: ChatMessage, taken: set<string>): (r: Option<ChatMessage>)
    ensures r.Some? ==> r.value in shown && r.value.id !in taken && Candidate(r.value, local)
    ensures r.None? ==> forall p | p in shown :: p.id in taken || !Candidate(p, local)
  {
    var byClient := FirstMatch(ByClientId, shown, local, taken);
    if byClient.Some? then byClient
    else
      var byId := FirstMatch(ById, shown, local, taken);
      if byId.Some? then byId else FirstMatch(ByContent, shown, local, taken)
  }

  datatype Matching = Matching(taken: set<string>, unmatched: seq<ChatMessage>)

  function MatchStep(shown: seq<ChatMessage>, acc: Matching, local: ChatMessage): Matching {
    match FindPersistedMatch(shown, local, acc.taken)
    case Some(p) => Matching(acc.taken + {p.id}, acc.unmatched)
    case None => Matching(acc.taken, acc.unmatched + [local])
  }

  function MatchLocals(shown: seq<ChatMessage>, locals: seq<ChatMessage>): Matching {
    if locals == [] then Matching({}, [])
    else MatchStep(shown, MatchLocals(shown, locals[..|locals| - 1]), locals[|locals| - 1])
  }

  // ---- The refreshed transcript --------------------------------------------------

  /** The groups of current messages that replaceSessionMessages collects in one pass. */
  datatype Split = Split(
    others: seq<ChatMessage>, otherTask: seq<ChatMessage>, segmented: seq<ChatMessage>,
    ephemeral: seq<ChatMessage>, locals: seq<ChatMessage>, live: seq<ChatMessage>)

  function SplitOf(sessionId: string, o: RefreshOptions, current: seq<ChatMessage>): Split {
    Split(Part(sessionId, o, OtherSession, current), Part(sessionId, o, OtherTask, current),
          Part(sessionId, o, Segmented, current), Part(sessionId, o, Ephemeral, current),
          Part(sessionId, o, PendingLocal, current), Part(sessionId, o, Live, current))
  }

  /** What becomes of the groups next to the shown records, in the order they are concatenated. */
  datatype Groups = Groups(
    others: seq<ChatMessage>, otherTask: seq<ChatMessage>, shown: seq<ChatMessage>, segmented: seq<ChatMessage>,
    ephemeral: seq<ChatMessage>, locals: seq<ChatMessage>, live: seq<ChatMessage>)
  {
    function Concat(): seq<ChatMessage> {
      others + (otherTask + (shown + (segmented + (ephemeral + (locals + live)))))
    }
  }

  function GroupsOf(split: Split, shown: seq<ChatMessage>): Groups {
    Groups(split.others,
           Unpersisted(shown, split.otherTask),
           shown,
           split.segmented,
           split.ephemeral,
           MatchLocals(shown, split.locals).unmatched,
           Relocated(shown, split.live))
  }

  function Refresh(collation: Collation, sessionId: string, o: RefreshOptions,
                   current: seq<ChatMessage>, records: seq<MessageRecord>): seq<ChatMessage>
  {
    Sort(Order(collation), GroupsOf(SplitOf(sessionId, o, current), Shown(sessionId, o, current, records)).Concat())
  }

  method CollectSegments(current: seq<ChatMessage>, sessionId: string) returns (segments: Segments)
    ensures segments == SegmentsOf(sessionId, current)
  {
    var baseIds: set<string>, taskIds: set<string> := {}, {};
    for i := 0 to |current|
      invariant Segments(baseIds, taskIds) == SegmentsOf(sessionId, current[..i])
    {
      var message := current[i];
      SegmentsStep(sessionId, current[..i], message);
      assert current[..i + 1] == current[..i] + [message];
      if message.sessionId != sessionId || !IsAssistantContentBlock(message) {
        continue;
      }
      if NamesBase(message) {
        baseIds := baseIds + {message.metadata.baseMessageId.value};
      }
      if message.taskId != "" {
        taskIds := taskIds + {message.taskId};
      }
    }
    assert current[..|current|] == current;
    segments := Segments(baseIds, taskIds);
  }

  lemma SegmentsStep(sessionId: string, seen: seq<ChatMessage>, m: ChatMessage)
    ensures var before, after := SegmentsOf(sessionId, seen), SegmentsOf(sessionId, seen + [m]);
            && after.baseIds == before.baseIds + (if IsSegment(sessionId, m) && NamesBase(m) then {m.metadata.baseMessageId.value} else {})
            && after.taskIds == before.taskIds + (if IsSegment(sessionId, m) && m.taskId != "" then {m.taskId} else {})
  {
    assert forall x :: x in seen + [m] <==> x in seen || x == m;
  }

  method SplitCurrent(current: seq<ChatMessage>, sessionId: string, o: RefreshOptions) returns (split: Split)
    ensures split == SplitOf(sessionId, o, current)
  {
    split := Split([], [], [], [], [], []);
    for i := 0 to |current|
      invariant split == SplitOf(sessionId, o, current[..i])
    {
      var message := current[i];
      PartStep(sessionId, o, current, i);
      if message.sessionId != sessionId {
        split := split.(others := split.others + [message]);
      } else if Excludes(o, message.taskId) {
        continue;
      } else if IsAssistantContentBlock(message) {
        split := split.(segmented := split.segmented + [message]);
      } else if message.streaming {
        split := split.(live := split.live + [message]);
      } else if IsLocalPending(message) {
        split := split.(locals := split.locals + [message]);
      } else if IsEphemeralBlock(message) {
        split := split.(ephemeral := split.ephemeral + [message]);
      } else if o.taskIds != [] && o.preserveOtherTaskMessages && !Allows(o, message.taskId) {
        split := split.(otherTask := split.otherTask + [message]);
      }
    }
    assert current[..|current|] == current;
  }

  lemma PartStep(sessionId: string, o: RefreshOptions, current: seq<ChatMessage>, i: nat)
    requires i < |current|
    ensures forall b: Bucket ::
              Part(sessionId, o, b, current[..i + 1])
              == Part(sessionId, o, b, current[..i]) + (if BucketOf(sessionId, o, current[i]) == b then [current[i]] else [])
  {
    forall b: Bucket {
      FilterStep(InBucket(sessionId, o, b), current, i);
    }
  }

  method MatchPending(shown: seq<ChatMessage>, locals: seq<ChatMessage>) returns (unmatched: seq<ChatMessage>)
    ensures unmatched == MatchLocals(shown, locals).unmatched
  {
    var taken: set<string> := {};
    unmatched := [];
    for i := 0 to |locals|
      invariant Matching(taken, unmatched) == MatchLocals(shown, locals[..i])
    {
      assert locals[..i + 1][..i] == locals[..i];
      var found := FindPersistedMatch(shown, locals[i], taken);
      if found.Some? {
        taken := taken + {found.value.id};
      } else {
        unmatched := unmatched + [locals[i]];
      }
    }
    assert locals[..|locals|] == locals;
  }

  /** replaceSessionMessages: its loops are the three methods above. */
  method ReplaceSessionMessages(collation: Collation, current: seq<ChatMessage>, sessionId: string,
                                records: seq<MessageRecord>, o: RefreshOptions)
    returns (result: seq<ChatMessage>)
    ensures result == Refresh(collation, sessionId, o, current, records)
  {
    var persisted := Filter(Wanted(o), Views(records));
    var segments := CollectSegments(current, sessionId);
    var shown := Filter(NotSegmented(segments), persisted);
    var split := SplitCurrent(current, sessionId, o);
    var unmatched := MatchPending(shown, split.locals);
    var groups := Groups(split.others,
                         Unpersisted(shown, split.otherTask),
                         shown,
                         split.segmented,
                         split.ephemeral,
                         unmatched,
                         Relocated(shown, split.live));
    result := Sort(Order(collation), groups.Concat());
  }
}
