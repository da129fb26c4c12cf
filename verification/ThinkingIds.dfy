/** assistantThinkingSegmentId: a fresh id for the next thinking segment of a task. */
module ThinkingIds {
  import opened Numerals
  import opened Seqs

  function BaseId(taskId: string): string {
    "assistant_thinking:" + taskId
  }

  function SegmentId(base: string, segment: nat): string {
    base + ":" + Decimal(segment)
  }

  lemma SegmentIdInjective(base: string, m: nat, n: nat)
    requires SegmentId(base, m) == SegmentId(base, n)
    ensures m == n
  {
    assert SegmentId(base, m)[|base| + 1..] == Decimal(m);
    assert SegmentId(base, n)[|base| + 1..] == Decimal(n);
    DecimalInjective(m, n);
  }

  function OwnedBy(base: string): string -> bool {
    (id: string) => id == base || base + ":" <= id
  }

  /** The ids of the list that are segments of base numbered from `segment` on. */
  ghost function UsedFrom(ids: seq<string>, base: string, segment: nat): set<string> {
    set id | id in ids && exists k: nat :: k >= segment && id == SegmentId(base, k)
  }

  /** Passing over a used number leaves fewer used ones ahead. */
  lemma UsedShrinks(ids: seq<string>, base: string, segment: nat)
    requires SegmentId(base, segment) in ids
    ensures |UsedFrom(ids, base, segment + 1)| < |UsedFrom(ids, base, segment)|
  {
    var id := SegmentId(base, segment);
    assert id in UsedFrom(ids, base, segment);
    forall k: nat | k >= segment + 1 ensures SegmentId(base, k) != id {
      if SegmentId(base, k) == id {
        SegmentIdInjective(base, k, segment);
      }
    }
    assert UsedFrom(ids, base, segment + 1) <= UsedFrom(ids, base, segment) - {id};
    SubsetCardinality(UsedFrom(ids, base, segment + 1), UsedFrom(ids, base, segment) - {id});
  }

  /** The least unused segment number from `segment` on. */
  function FirstUnused(ids: seq<string>, base: string, segment: nat): (r: nat)
    ensures r >= segment && SegmentId(base, r) !in ids
    ensures forall k: nat | segment <= k < r :: SegmentId(base, k) in ids
    decreases |UsedFrom(ids, base, segment)|
  {
    if SegmentId(base, segment) in ids then
      UsedShrinks(ids, base, segment);
      FirstUnused(ids, base, segment + 1)
    else segment
  }

  /** Where the search starts: behind as many segments as the list has ids of this base. */
  function StartSegment(ids: seq<string>, taskId: string): nat {
    |Filter(OwnedBy(BaseId(taskId)), ids)|
  }

  function ThinkingSegmentId(ids: seq<string>, taskId: string): string {
    var segment := StartSegment(ids, taskId);
    if segment == 0 then BaseId(taskId) else SegmentId(BaseId(taskId), FirstUnused(ids, BaseId(taskId), segment))
  }

  /** The id is new to the list. */
  lemma ThinkingSegmentIdFresh(ids: seq<string>, taskId: string)
    ensures ThinkingSegmentId(ids, taskId) !in ids
  {
    FilterMembers(OwnedBy(BaseId(taskId)), ids);
  }

  lemma {:induction false} NamesAre(taskId: string, n: nat)
    ensures BaseId(taskId) == "assistant_thinking:" + taskId
    ensures SegmentId(BaseId(taskId), n) == "assistant_thinking:" + taskId + ":" + Decimal(n)
  {
  }

  /** The first segment is named by the task; a later one by a number, the least unused from the count of the task's segments on. */
  lemma ThinkingSegmentIs(ids: seq<string>, taskId: string)
    ensures var base := BaseId(taskId);
            if forall id | id in ids :: id != base && !(base + ":" <= id) then ThinkingSegmentId(ids, taskId) == base
            else
              exists n: nat ::
                && ThinkingSegmentId(ids, taskId) == SegmentId(base, n) && n >= StartSegment(ids, taskId)
                && forall k: nat | StartSegment(ids, taskId) <= k < n :: SegmentId(base, k) in ids
  {
    var base := BaseId(taskId);
    FilterMembers(OwnedBy(base), ids);
    var owned := Filter(OwnedBy(base), ids);
    if forall id | id in ids :: id != base && !(base + ":" <= id) {
      FilterNone(OwnedBy(base), ids);
    } else {
      var id :| id in ids && (id == base || base + ":" <= id);
      assert id in owned;
      var n := FirstUnused(ids, base, StartSegment(ids, taskId));
      assert ThinkingSegmentId(ids, taskId) == SegmentId(base, n);
    }
  }

  /** The while loop, which takes at most one turn for each used segment id still ahead. */
  method AssistantThinkingSegmentId(ids: seq<string>, taskId: string) returns (candidate: string, ghost turns: nat)
    ensures candidate == ThinkingSegmentId(ids, taskId) && candidate !in ids
    ensures StartSegment(ids, taskId) > 0 ==> candidate == SegmentId(BaseId(taskId), StartSegment(ids, taskId) + turns)
    ensures turns <= |UsedFrom(ids, BaseId(taskId), StartSegment(ids, taskId))| <= StartSegment(ids, taskId)
  {
    var base := BaseId(taskId);
    var segment: nat := |Filter(OwnedBy(base), ids)|;
    ghost var start := segment;
    ThinkingSegmentIdFresh(ids, taskId);
    UsedAreOwned(ids, base, segment);
    candidate := if segment == 0 then base else SegmentId(base, segment);
    turns := 0;
    while candidate in ids
      invariant start == 0 ==> candidate == base && segment == 0
      invariant start > 0 ==> candidate == SegmentId(base, segment) && segment >= start
      invariant FirstUnused(ids, base, segment) == FirstUnused(ids, base, start)
      invariant segment == start + turns
      invariant turns + |UsedFrom(ids, base, segment)| <= |UsedFrom(ids, base, start)|
      decreases |UsedFrom(ids, base, segment)|
    {
      UsedShrinks(ids, base, segment);
      segment := segment + 1;
      candidate := SegmentId(base, segment);
      turns := turns + 1;
    }
  }

  /** Distinct used segment ids are at most as many as the ids counted for the start. */
  lemma {:induction false} UsedAreOwned(ids: seq<string>, base: string, segment: nat)
    ensures |UsedFrom(ids, base, segment)| <= |Filter(OwnedBy(base), ids)|
  {
    var owned := Filter(OwnedBy(base), ids);
    FilterMembers(OwnedBy(base), ids);
    forall id | id in UsedFrom(ids, base, segment) ensures id in owned {
      var k: nat :| k >= segment && id == SegmentId(base, k);
      assert id[..|base| + 1] == base + ":";
    }
    SubsetCardinality(UsedFrom(ids, base, segment), set id | id in owned);
    ElementsAtMostLength(owned);
  }

  lemma {:induction false} ElementsAtMostLength(xs: seq<string>)
    ensures |set x | x in xs| <= |xs|
  {
    if xs != [] {
      ElementsAtMostLength(xs[1..]);
      assert (set x | x in xs) == {xs[0]} + (set x | x in xs[1..]);
    }
  }
}
