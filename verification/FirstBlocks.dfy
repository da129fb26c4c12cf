/** The first block of a tool call: the one all output of the call goes into. */
module FirstBlocks {
  import opened Seqs
  import opened Text
  import opened ChatMessages
  import opened MessageUpdates
  import opened ToolBlocks
  import opened BlockInvariants

  function First(ms: seq<ChatMessage>, x: string): Option<ChatMessage> {
    var i := FindIndex(BlockOf(x), ms);
    if i >= 0 then Some(ms[i]) else None
  }

  /** The output the transcript holds of a call. */
  function Held(ms: seq<ChatMessage>, x: string): ToolOutput {
    if First(ms, x).Some? then OutputOf(First(ms, x).value) else NO_OUTPUT
  }

  predicate MarkedFirst(ms: seq<ChatMessage>, x: string, k: string) {
    First(ms, x).Some? && k in First(ms, x).value.metadata.markers
  }

  /** The message shows a text, and keeps one to show with its result. */
  predicate Texted(m: ChatMessage) {
    Trim(m.content) != [] && (m.metadata.inputText.Some? ==> Trim(m.metadata.inputText.value) != [])
  }

  /** The first block shows a text, so that no end of a task drops it. */
  predicate Named(ms: seq<ChatMessage>, x: string) {
    First(ms, x).Some? && Texted(First(ms, x).value)
  }

  /** The markers found anywhere in the list. */
  function Carried(ms: seq<ChatMessage>): set<string> {
    set m, k | m in ms && k in m.metadata.markers :: k
  }

  /** Blocks of a call behind the first one hold no output. */
  ghost predicate OthersEmpty(ms: seq<ChatMessage>) {
    forall i, j, x | 0 <= i < j < |ms| && IsBlockOf(ms[i], x) && IsBlockOf(ms[j], x) :: OutputOf(ms[j]) == NO_OUTPUT
  }

  // ---- What an update keeps ---------------------------------------------------------------

  ghost predicate MarksStay(ms: seq<ChatMessage>, after: seq<ChatMessage>) {
    forall x, k | MarkedFirst(ms, x, k) :: MarkedFirst(after, x, k)
  }

  ghost predicate HeldStays(ms: seq<ChatMessage>, after: seq<ChatMessage>) {
    forall x :: Held(after, x) == Held(ms, x)
  }

  ghost predicate NamesStay(ms: seq<ChatMessage>, after: seq<ChatMessage>) {
    forall x | Named(ms, x) :: Named(after, x)
  }

  /** Whatever the update does, it touches no first block but to mark it, and brings no markers but the new ones. */
  ghost predicate Orderly(ms: seq<ChatMessage>, after: seq<ChatMessage>, news: set<string>) {
    && AllGood(after) && MarksStay(ms, after) && (OthersEmpty(ms) ==> OthersEmpty(after))
    && Carried(after) <= Carried(ms) + news
  }

  ghost predicate Quiet(ms: seq<ChatMessage>, after: seq<ChatMessage>, news: set<string>) {
    Orderly(ms, after, news) && HeldStays(ms, after)
  }

  lemma OrderlyTwice(a: seq<ChatMessage>, b: seq<ChatMessage>, c: seq<ChatMessage>, m: set<string>, n: set<string>)
    requires Orderly(a, b, m) && Orderly(b, c, n)
    ensures Orderly(a, c, m + n)
    ensures HeldStays(a, b) && HeldStays(b, c) ==> HeldStays(a, c)
    ensures NamesStay(a, b) && NamesStay(b, c) ==> NamesStay(a, c)
  {
    hide MarkedFirst, Held, Named, OthersEmpty, Carried, AllGood;
  }

  // ---- Positions ------------------------------------------------------------------------------

  /** m and n are blocks of the same calls, with the same output, and n has all markers of m. */
  predicate Tracks(m: ChatMessage, n: ChatMessage) {
    && IsToolBlock(n) == IsToolBlock(m) && n.metadata.toolUseId == m.metadata.toolUseId
    && (IsToolBlock(m) ==> OutputOf(n) == OutputOf(m))
    && forall k | k in m.metadata.markers :: k in n.metadata.markers
  }

  lemma {:induction false} FirstAt(ms: seq<ChatMessage>, x: string, i: int)
    requires 0 <= i < |ms| && IsBlockOf(ms[i], x) && forall j | 0 <= j < i :: !IsBlockOf(ms[j], x)
    ensures FindIndex(BlockOf(x), ms) == i
  {
    hide IsBlockOf, FindIndex;
  }

  lemma NoFirst(ms: seq<ChatMessage>, x: string)
    requires forall j | 0 <= j < |ms| :: !IsBlockOf(ms[j], x)
    ensures First(ms, x) == None
  {
    hide IsBlockOf, FindIndex;
  }

  /** Lists of the same length whose messages track each other. */
  ghost predicate AllTrack(ms: seq<ChatMessage>, after: seq<ChatMessage>) {
    |after| == |ms| && forall i | 0 <= i < |ms| :: Tracks(ms[i], after[i])
  }

  lemma TracksBlocks(m: ChatMessage, n: ChatMessage, x: string)
    requires Tracks(m, n)
    ensures IsBlockOf(n, x) <==> IsBlockOf(m, x)
    ensures IsBlockOf(m, x) ==> OutputOf(n) == OutputOf(m)
  {
  }

  lemma {:induction false} TracksFirst(ms: seq<ChatMessage>, after: seq<ChatMessage>, x: string)
    requires AllTrack(ms, after)
    ensures FindIndex(BlockOf(x), after) == FindIndex(BlockOf(x), ms)
    ensures First(ms, x).Some? ==> First(after, x).Some? && Tracks(First(ms, x).value, First(after, x).value)
    ensures Held(after, x) == Held(ms, x)
  {
    hide IsBlockOf, FindIndex, Tracks, OutputOf;
    forall i | 0 <= i < |ms| ensures IsBlockOf(after[i], x) <==> IsBlockOf(ms[i], x) {
      TracksBlocks(ms[i], after[i], x);
    }
    var i := FindIndex(BlockOf(x), ms);
    if i >= 0 {
      FirstAt(after, x, i);
      TracksBlocks(ms[i], after[i], x);
    } else {
      NoFirst(after, x);
    }
  }

  lemma TracksOthers(ms: seq<ChatMessage>, after: seq<ChatMessage>)
    requires AllTrack(ms, after) && OthersEmpty(ms)
    ensures OthersEmpty(after)
  {
    hide IsBlockOf, Tracks, OutputOf;
    forall i, j, x | 0 <= i < j < |after| && IsBlockOf(after[i], x) && IsBlockOf(after[j], x) ensures OutputOf(after[j]) == NO_OUTPUT {
      TracksBlocks(ms[i], after[i], x);
      TracksBlocks(ms[j], after[j], x);
    }
  }

  lemma TracksQuiet(ms: seq<ChatMessage>, after: seq<ChatMessage>, news: set<string>)
    requires AllTrack(ms, after) && AllGood(after) && Carried(after) <= Carried(ms) + news
    ensures Quiet(ms, after, news)
    ensures (forall i | 0 <= i < |ms| && Texted(ms[i]) && IsToolBlock(ms[i]) :: Texted(after[i])) ==> NamesStay(ms, after)
  {
    hide Tracks, First, Held, AllGood, Carried, OthersEmpty, Texted, IsToolBlock;
    if OthersEmpty(ms) {
      TracksOthers(ms, after);
    }
    forall x ensures Held(after, x) == Held(ms, x) {
      TracksFirst(ms, after, x);
    }
    forall x, k | MarkedFirst(ms, x, k) ensures MarkedFirst(after, x, k) {
      TracksFirst(ms, after, x);
      TracksHasMarker(First(ms, x).value, First(after, x).value, k);
    }
    if forall i | 0 <= i < |ms| && Texted(ms[i]) && IsToolBlock(ms[i]) :: Texted(after[i]) {
      forall x | Named(ms, x) ensures Named(after, x) {
        TracksFirst(ms, after, x);
        FirstIsAt(ms, x);
        FirstIsAt(after, x);
      }
    }
  }

  lemma TracksHasMarker(m: ChatMessage, n: ChatMessage, k: string)
    requires Tracks(m, n) && k in m.metadata.markers
    ensures k in n.metadata.markers
  {
  }

  lemma {:induction false} FirstIsAt(ms: seq<ChatMessage>, x: string)
    requires First(ms, x).Some?
    ensures var i := FindIndex(BlockOf(x), ms); 0 <= i < |ms| && ms[i] == First(ms, x).value && IsBlockOf(ms[i], x) && IsToolBlock(ms[i])
  {
  }

  // ---- Writing one message -----------------------------------------------------------------------

  lemma CarriedUpsert(ms: seq<ChatMessage>, i: int, m: ChatMessage, news: set<string>)
    requires i < |ms| && forall k | k in m.metadata.markers :: k in Carried(ms) + news
    ensures Carried(Upsert(ms, i, m)) <= Carried(ms) + news
  {
    forall n | n in Upsert(ms, i, m) ensures n == m || n in ms {
    }
  }

  lemma GoodUpsert(ms: seq<ChatMessage>, i: int, m: ChatMessage)
    requires i < |ms| && AllGood(ms) && Good(m)
    ensures AllGood(Upsert(ms, i, m))
  {
    hide Good;
    forall n | n in Upsert(ms, i, m) ensures n == m || n in ms {
    }
  }

  /** A message over one it tracks. */
  lemma TrackingUpdate(ms: seq<ChatMessage>, i: int, m: ChatMessage)
    requires 0 <= i < |ms| && AllGood(ms) && Good(m) && Tracks(ms[i], m)
    requires forall k | k in m.metadata.markers :: k in Carried(ms)
    ensures Quiet(ms, ms[i := m], {})
    ensures (IsToolBlock(m) && Texted(ms[i]) ==> Texted(m)) ==> NamesStay(ms, ms[i := m])
  {
    hide Good, Tracks, Carried, Texted, Quiet, AllGood;
    GoodUpsert(ms, i, m);
    CarriedUpsert(ms, i, m, {});
    TracksItself();
    BlocksTracked(ms[i], m);
    TracksQuiet(ms, ms[i := m], {});
  }

  lemma BlocksTracked(m: ChatMessage, n: ChatMessage)
    requires Tracks(m, n)
    ensures IsToolBlock(n) <==> IsToolBlock(m)
  {
  }

  lemma TracksItself()
    ensures forall m: ChatMessage :: Tracks(m, m)
  {
  }

  /** A message at the end that is no block, or a block without output. */
  lemma SilentAppend(ms: seq<ChatMessage>, m: ChatMessage)
    requires AllGood(ms) && Good(m) && (IsToolBlock(m) ==> OutputOf(m) == NO_OUTPUT)
    requires forall k | k in m.metadata.markers :: k in Carried(ms)
    ensures Quiet(ms, ms + [m], {}) && NamesStay(ms, ms + [m])
  {
    hide Good, OutputOf, Texted, Carried, AllGood, FindIndex;
    GoodUpsert(ms, -1, m);
    CarriedUpsert(ms, -1, m, {});
    forall x ensures First(ms, x).Some? ==> First(ms + [m], x) == First(ms, x) {
      FirstOfAppend(ms, m, x);
    }
    forall x ensures Held(ms + [m], x) == Held(ms, x) {
      FirstOfAppend(ms, m, x);
    }
  }

  lemma FirstOfAppend(ms: seq<ChatMessage>, m: ChatMessage, x: string)
    ensures First(ms + [m], x) == if First(ms, x).Some? then First(ms, x) else if IsBlockOf(m, x) then Some(m) else None
  {
    hide IsBlockOf, FindIndex;
    var i := FindIndex(BlockOf(x), ms);
    if i >= 0 {
      FirstAt(ms + [m], x, i);
    } else if IsBlockOf(m, x) {
      FirstAt(ms + [m], x, |ms|);
    } else {
      NoFirst(ms + [m], x);
    }
  }

  /** A message that is no block, in place of one that is none or at the end. */
  lemma PlainUpsert(ms: seq<ChatMessage>, i: int, m: ChatMessage)
    requires i < |ms| && AllGood(ms) && Good(m) && !IsToolBlock(m) && (i >= 0 ==> !IsToolBlock(ms[i]))
    requires forall k | k in m.metadata.markers :: k in Carried(ms)
    ensures Quiet(ms, Upsert(ms, i, m), {}) && NamesStay(ms, Upsert(ms, i, m))
  {
    hide Good, OutputOf, Carried, AllGood, FindIndex, Texted, IsToolBlock;
    var after := Upsert(ms, i, m);
    GoodUpsert(ms, i, m);
    CarriedUpsert(ms, i, m, {});
    if i < 0 {
      SilentAppend(ms, m);
    } else {
      forall x ensures First(after, x) == First(ms, x) {
        PlainKeepsFirst(ms, i, m, x);
      }
      if OthersEmpty(ms) {
        PlainKeepsOthers(ms, i, m);
      }
    }
  }

  lemma PlainIsNoBlock(m: ChatMessage)
    requires !IsToolBlock(m)
    ensures forall x :: !IsBlockOf(m, x)
  {
  }

  lemma PlainKeepsFirst(ms: seq<ChatMessage>, i: int, m: ChatMessage, x: string)
    requires 0 <= i < |ms| && !IsToolBlock(m) && !IsToolBlock(ms[i])
    ensures First(ms[i := m], x) == First(ms, x)
  {
    hide IsBlockOf, FindIndex;
    PlainIsNoBlock(m);
    PlainIsNoBlock(ms[i]);
    var j := FindIndex(BlockOf(x), ms);
    if j >= 0 {
      FirstAt(ms[i := m], x, j);
    } else {
      NoFirst(ms[i := m], x);
    }
  }

  lemma PlainKeepsOthers(ms: seq<ChatMessage>, i: int, m: ChatMessage)
    requires 0 <= i < |ms| && !IsToolBlock(m) && !IsToolBlock(ms[i]) && OthersEmpty(ms)
    ensures OthersEmpty(ms[i := m])
  {
    hide IsBlockOf, OutputOf;
    PlainIsNoBlock(m);
    PlainIsNoBlock(ms[i]);
  }

  // ---- Dropping messages ----------------------------------------------------------------------------

  lemma OthersEmptyAppend(ms: seq<ChatMessage>, m: ChatMessage)
    ensures OthersEmpty(ms + [m])
            <==> OthersEmpty(ms) && forall x | IsBlockOf(m, x) && First(ms, x).Some? :: OutputOf(m) == NO_OUTPUT
  {
    hide IsBlockOf, OutputOf, FindIndex;
    var after := ms + [m];
    if OthersEmpty(after) {
      forall i, j, x | 0 <= i < j < |ms| && IsBlockOf(ms[i], x) && IsBlockOf(ms[j], x) ensures OutputOf(ms[j]) == NO_OUTPUT {
        assert after[i] == ms[i] && after[j] == ms[j];
      }
      forall x | IsBlockOf(m, x) && First(ms, x).Some? ensures OutputOf(m) == NO_OUTPUT {
        var i := FindIndex(BlockOf(x), ms);
        assert after[i] == ms[i] && after[|ms|] == m;
      }
    }
  }

  lemma SameTracks(m: ChatMessage, n: ChatMessage)
    requires Same(m, n) && Good(m)
    ensures Good(n) && (IsToolBlock(n) <==> IsToolBlock(m)) && (IsToolBlock(m) ==> OutputOf(n) == OutputOf(m))
    ensures forall x :: IsBlockOf(n, x) <==> IsBlockOf(m, x)
  {
  }

  /** The same block, seen by its output, its markers and its text. */
  predicate Alike(a: Option<ChatMessage>, b: Option<ChatMessage>) {
    (a.Some? <==> b.Some?)
    && (a.Some? ==> OutputOf(b.value) == OutputOf(a.value) && b.value.metadata.markers == a.value.metadata.markers
                    && b.value.content == a.value.content && b.value.metadata.inputText == a.value.metadata.inputText)
  }

  lemma {:induction false} ThinsFirst(ms: seq<ChatMessage>, after: seq<ChatMessage>)
    requires Thins(ms, after) && AllGood(ms)
    ensures forall x :: Alike(First(ms, x), First(after, x))
    ensures OthersEmpty(ms) ==> OthersEmpty(after)
  {
    hide First, IsBlockOf, OutputOf, Good, Same, OthersEmpty, SlotOf;
    if ms != [] {
      var init, last := ms[..|ms| - 1], ms[|ms| - 1];
      assert ms == init + [last] && last in ms;
      OthersEmptyAppend(init, last);
      if after != [] && Same(last, after[|after| - 1]) && Thins(init, after[..|after| - 1]) {
        var rest, n := after[..|after| - 1], after[|after| - 1];
        assert after == rest + [n];
        ThinsFirst(init, rest);
        SameTracks(last, n);
        SameAlike(last, n);
        OthersEmptyAppend(rest, n);
        forall x ensures Alike(First(ms, x), First(after, x)) {
          FirstOfAppend(init, last, x);
          FirstOfAppend(rest, n, x);
        }
        if OthersEmpty(ms) {
          forall x | IsBlockOf(n, x) && First(rest, x).Some? ensures OutputOf(n) == NO_OUTPUT {
            assert Alike(First(init, x), First(rest, x));
            IsBlock(n, x);
          }
        }
      } else {
        ThinsFirst(init, after);
        forall x ensures Alike(First(ms, x), First(after, x)) {
          FirstOfAppend(init, last, x);
          NoSlotNoBlock(last, x);
        }
      }
    } else {
      assert after == ms;
      assert forall x :: Alike(First(ms, x), First(after, x)) by { AlikeItself(ms); }
    }
  }

  lemma AlikeItself(ms: seq<ChatMessage>)
    ensures forall x :: Alike(First(ms, x), First(ms, x))
  {
    hide First, OutputOf;
  }

  lemma IsBlock(m: ChatMessage, x: string)
    requires IsBlockOf(m, x)
    ensures IsToolBlock(m)
  {
  }

  lemma SameAlike(m: ChatMessage, n: ChatMessage)
    requires Same(m, n)
    ensures IsToolBlock(m) && m.metadata.toolUseId.Some? ==> Alike(Some(m), Some(n))
    ensures forall x | IsBlockOf(m, x) :: Alike(Some(m), Some(n))
  {
  }

  lemma NoSlotNoBlock(m: ChatMessage, x: string)
    requires SlotOf(m).NoSlot?
    ensures !IsBlockOf(m, x)
  {
  }

  /** Dropping and harmlessly rewriting messages that are no blocks. */
  lemma {:induction false} ThinsQuiet(ms: seq<ChatMessage>, after: seq<ChatMessage>)
    requires Thins(ms, after) && AllGood(ms)
    ensures Quiet(ms, after, {}) && NamesStay(ms, after)
  {
    hide First, OthersEmpty, Thins, Trim, OutputOf;
    ThinsFirst(ms, after);
    ThinsMembers(ms, after);
    forall n | n in after ensures Good(n) && forall k | k in n.metadata.markers :: k in Carried(ms) {
      SourceGood(ms, n);
    }
    forall x, k | MarkedFirst(ms, x, k) ensures MarkedFirst(after, x, k) {
      assert Alike(First(ms, x), First(after, x));
    }
    forall x | Named(ms, x) ensures Named(after, x) {
      assert Alike(First(ms, x), First(after, x));
    }
    forall x ensures Held(after, x) == Held(ms, x) {
      assert Alike(First(ms, x), First(after, x));
    }
  }

  lemma SourceGood(ms: seq<ChatMessage>, n: ChatMessage)
    requires AllGood(ms) && HasSource(ms, n)
    ensures Good(n) && forall k | k in n.metadata.markers :: k in Carried(ms)
  {
    hide Good, SlotOf;
    var m :| m in ms && Same(m, n);
  }

  lemma FirstOfPrepend(m: ChatMessage, rest: seq<ChatMessage>, x: string)
    ensures First([m] + rest, x) == if IsBlockOf(m, x) then Some(m) else First(rest, x)
  {
    hide IsBlockOf;
    assert ([m] + rest)[1..] == rest;
  }

  lemma OthersEmptyTail(ms: seq<ChatMessage>)
    requires ms != [] && OthersEmpty(ms)
    ensures OthersEmpty(ms[1..])
    ensures forall n, x | n in ms[1..] && IsBlockOf(n, x) && IsBlockOf(ms[0], x) :: OutputOf(n) == NO_OUTPUT
  {
    hide IsBlockOf, OutputOf;
    var rest := ms[1..];
    assert forall i | 0 <= i < |rest| :: rest[i] == ms[i + 1];
    forall n, x | n in rest && IsBlockOf(n, x) && IsBlockOf(ms[0], x) ensures OutputOf(n) == NO_OUTPUT {
      var i :| 0 <= i < |rest| && rest[i] == n;
      assert ms[i + 1] == n;
    }
  }

  /** The first block that is kept is still the first one; when it is dropped, no output is left. */
  lemma {:induction false} FilterFirst(p: ChatMessage -> bool, ms: seq<ChatMessage>, x: string)
    requires OthersEmpty(ms)
    ensures First(ms, x).Some? && p(First(ms, x).value) ==> First(Filter(p, ms), x) == First(ms, x)
    ensures First(ms, x).Some? && !p(First(ms, x).value) ==> Held(Filter(p, ms), x) == NO_OUTPUT
    ensures First(ms, x).None? ==> First(Filter(p, ms), x).None?
  {
    hide IsBlockOf, OutputOf, OthersEmpty, First;
    if ms != [] {
      var rest := ms[1..];
      assert ms == [ms[0]] + rest;
      OthersEmptyTail(ms);
      FilterFirst(p, rest, x);
      FirstOfPrepend(ms[0], rest, x);
      FirstOfPrepend(ms[0], Filter(p, rest), x);
      if IsBlockOf(ms[0], x) && !p(ms[0]) {
        FilterMembers(p, rest);
        FirstMember(Filter(p, rest), x);
      }
    } else {
      assert First(ms, x).None? by { NoFirst(ms, x); }
    }
  }

  lemma FirstMember(ms: seq<ChatMessage>, x: string)
    ensures First(ms, x).Some? ==> First(ms, x).value in ms && IsBlockOf(First(ms, x).value, x)
  {
  }

  lemma {:induction false} FilterOthers(p: ChatMessage -> bool, ms: seq<ChatMessage>)
    requires OthersEmpty(ms)
    ensures OthersEmpty(Filter(p, ms))
  {
    hide IsBlockOf, OutputOf;
    if ms != [] {
      var rest, kept := ms[1..], Filter(p, ms);
      OthersEmptyTail(ms);
      FilterOthers(p, rest);
      FilterMembers(p, rest);
      if p(ms[0]) {
        var more := Filter(p, rest);
        assert kept == [ms[0]] + more;
        forall i, j, x | 0 <= i < j < |kept| && IsBlockOf(kept[i], x) && IsBlockOf(kept[j], x) ensures OutputOf(kept[j]) == NO_OUTPUT {
          assert kept[j] == more[j - 1] && more[j - 1] in more;
          assert i > 0 ==> kept[i] == more[i - 1];
        }
      }
    }
  }

  // ---- Output -------------------------------------------------------------------------------------------

  ghost predicate HeldBut(ms: seq<ChatMessage>, after: seq<ChatMessage>, x: string, o: ToolOutput) {
    forall y :: Held(after, y) == if y == x then o else Held(ms, y)
  }

  /** The first block of x rewritten with another output. */
  lemma {:induction false} OutputUpdate(ms: seq<ChatMessage>, i: int, m: ChatMessage, x: string)
    requires 0 <= i == FindIndex(BlockOf(x), ms) && AllGood(ms) && Good(m) && IsBlockOf(m, x)
    requires m.metadata.markers == ms[i].metadata.markers && (Texted(ms[i]) ==> Texted(m))
    ensures Orderly(ms, ms[i := m], {}) && NamesStay(ms, ms[i := m]) && HeldBut(ms, ms[i := m], x, OutputOf(m))
  {
    hide Good, OutputOf, Carried, AllGood, FindIndex, Texted;
    var after := ms[i := m];
    GoodUpsert(ms, i, m);
    assert forall k | k in m.metadata.markers :: k in Carried(ms) by { MarkersCarried(ms, i); }
    CarriedUpsert(ms, i, m, {});
    BlockOfOne(m, x);
    BlockOfOne(ms[i], x);
    forall y ensures First(after, y) == if y == x then Some(m) else First(ms, y) {
      FirstOfUpdate(ms, i, m, x, y);
    }
    if OthersEmpty(ms) {
      OthersEmptyUpdate(ms, i, m, x);
    }
  }

  lemma MarkersCarried(ms: seq<ChatMessage>, i: int)
    requires 0 <= i < |ms|
    ensures forall k | k in ms[i].metadata.markers :: k in Carried(ms)
  {
    assert ms[i] in ms;
  }

  lemma BlockOfOne(m: ChatMessage, x: string)
    requires IsBlockOf(m, x)
    ensures forall y :: IsBlockOf(m, y) <==> y == x
  {
  }

  lemma FirstOfUpdate(ms: seq<ChatMessage>, i: int, m: ChatMessage, x: string, y: string)
    requires 0 <= i == FindIndex(BlockOf(x), ms) && IsBlockOf(m, x)
    ensures First(ms[i := m], y) == if y == x then Some(m) else First(ms, y)
  {
    hide IsBlockOf, FindIndex;
    var after := ms[i := m];
    BlockOfOne(m, x);
    BlockOfOne(ms[i], x);
    if y == x {
      FirstAt(after, x, i);
    } else {
      var j := FindIndex(BlockOf(y), ms);
      if j >= 0 {
        FirstAt(after, y, j);
      } else {
        NoFirst(after, y);
      }
    }
  }

  lemma OthersEmptyUpdate(ms: seq<ChatMessage>, i: int, m: ChatMessage, x: string)
    requires 0 <= i == FindIndex(BlockOf(x), ms) && IsBlockOf(m, x) && OthersEmpty(ms)
    ensures OthersEmpty(ms[i := m])
  {
    hide IsBlockOf, FindIndex, OutputOf;
    var after := ms[i := m];
    BlockOfOne(m, x);
    forall a, b, y | 0 <= a < b < |after| && IsBlockOf(after[a], y) && IsBlockOf(after[b], y) ensures OutputOf(after[b]) == NO_OUTPUT {
      if b != i {
        assert after[b] == ms[b];
        assert a == i ==> y == x && IsBlockOf(ms[a], y);
        assert a != i ==> after[a] == ms[a];
      }
    }
  }

  /** A first block for a call that has none. */
  lemma OutputAppend(ms: seq<ChatMessage>, m: ChatMessage, x: string)
    requires First(ms, x).None? && AllGood(ms) && Good(m) && IsBlockOf(m, x) && m.metadata.markers == []
    ensures Orderly(ms, ms + [m], {}) && NamesStay(ms, ms + [m]) && HeldBut(ms, ms + [m], x, OutputOf(m))
  {
    hide Good, OutputOf, Carried, AllGood, FindIndex, Texted;
    GoodUpsert(ms, -1, m);
    CarriedUpsert(ms, -1, m, {});
    BlockOfOne(m, x);
    forall y ensures First(ms + [m], y) == if y == x then Some(m) else First(ms, y) {
      FirstOfAppend(ms, m, y);
    }
    if OthersEmpty(ms) {
      OthersEmptyAppend(ms, m);
    }
  }
}
