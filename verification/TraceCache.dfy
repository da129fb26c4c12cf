/** The bounded trace cache and its writers. */
module TraceCache {
  import opened Seqs
  import opened StableSort
  import opened ChatMessages

  const TRACE_CACHE_LIMIT := 50000

  /** uiReplayScope: which view a record was last brought for. */
  datatype Scope = Chat | Panel | Unscoped

  datatype TraceRecord = TraceRecord(id: string, createdAt: int, sequence: Option<int>, payload: string, scope: Scope)

  function Scoped(scope: Scope, xs: seq<TraceRecord>): (r: seq<TraceRecord>)
    ensures |r| == |xs| && forall i | 0 <= i < |xs| :: r[i] == xs[i].(scope := scope)
  {
    if xs == [] then [] else [xs[0].(scope := scope)] + Scoped(scope, xs[1..])
  }

  /** The records without what the writers set on them. */
  function Bare(xs: seq<TraceRecord>): seq<TraceRecord> {
    Scoped(Unscoped, xs)
  }

  function SequenceOf(r: TraceRecord): int {
    if r.sequence.Some? then r.sequence.value else 0
  }

  // ---- The writers ------------------------------------------------------------------------

  /** The position of an id, or -1. */
  function IndexOf(id: string, xs: seq<TraceRecord>): (i: int)
    ensures -1 <= i < |xs|
    ensures i >= 0 ==> xs[i].id == id
    ensures i < 0 ==> forall r | r in xs :: r.id != id
  {
    if xs == [] then -1
    else if xs[0].id == id then 0
    else
      var i := IndexOf(id, xs[1..]);
      if i < 0 then -1 else i + 1
  }

  /** Map.set on an insertion-ordered map: an existing key keeps its place. */
  function Put(entries: seq<TraceRecord>, r: TraceRecord): seq<TraceRecord> {
    var i := IndexOf(r.id, entries);
    if i >= 0 then entries[i := r] else entries + [r]
  }

  function PutAll(entries: seq<TraceRecord>, rs: seq<TraceRecord>): seq<TraceRecord> {
    if rs == [] then entries else Put(PutAll(entries, rs[..|rs| - 1]), rs[|rs| - 1])
  }

  /** slice(-limit) */
  function LastOf(limit: nat, xs: seq<TraceRecord>): seq<TraceRecord> {
    if limit == 0 || |xs| <= limit then xs else xs[|xs| - limit..]
  }

  function MergeOrder(): (TraceRecord, TraceRecord) -> bool {
    (a: TraceRecord, b: TraceRecord) => a.createdAt < b.createdAt || (a.createdAt == b.createdAt && SequenceOf(a) <= SequenceOf(b))
  }

  /** mergeTraceEvents: records of a loaded page, by id, ordered by time. */
  function Merge(limit: nat, current: seq<TraceRecord>, incoming: seq<TraceRecord>): seq<TraceRecord> {
    LastOf(limit, Sort(MergeOrder(), PutAll(PutAll([], current), incoming)))
  }

  predicate NotAfter(collation: Collation, a: TraceRecord, b: TraceRecord) {
    if a.sequence.Some? && b.sequence.Some? && a.sequence != b.sequence then a.sequence.value < b.sequence.value
    else if a.sequence.Some? && b.sequence.None? then true
    else if a.sequence.None? && b.sequence.Some? then false
    else a.createdAt < b.createdAt || (a.createdAt == b.createdAt && collation(a.id) <= collation(b.id))
  }

  function RememberOrder(collation: Collation): (TraceRecord, TraceRecord) -> bool {
    (a: TraceRecord, b: TraceRecord) => NotAfter(collation, a, b)
  }

  /** rememberTraceEvent: a live event, ordered by sequence. */
  function Remember(limit: nat, collation: Collation, current: seq<TraceRecord>, trace: TraceRecord): seq<TraceRecord> {
    var i := IndexOf(trace.id, current);
    if i >= 0 then current[i := trace]
    else LastOf(limit, Sort(RememberOrder(collation), current + [trace]))
  }

  /**
   Merging: the recovery of a session and the loading of one task, each for its view. Remembering: a live
   event, always for the chat. Clearing: another session is opened.
   */
  datatype Write =
    | Merging(view: Scope, incoming: seq<TraceRecord>)
    | Remembering(collation: Collation, trace: TraceRecord)
    | Clearing

  /** The cache after any interleaving of the writers. */
  function Cache(limit: nat, writes: seq<Write>): seq<TraceRecord> {
    if writes == [] then []
    else
      var before := Cache(limit, writes[..|writes| - 1]);
      match writes[|writes| - 1]
      case Merging(view, incoming) => Merge(limit, before, Scoped(view, incoming))
      case Remembering(collation, trace) => Remember(limit, collation, before, trace.(scope := Chat))
      case Clearing => []
  }

  function Elements(xs: seq<TraceRecord>): set<TraceRecord> {
    set r | r in xs
  }

  /** Every record the writes since the last clearing brought. */
  function SeenBy(writes: seq<Write>): set<TraceRecord> {
    if writes == [] then {}
    else
      var before := SeenBy(writes[..|writes| - 1]);
      match writes[|writes| - 1]
      case Merging(_, incoming) => before + Elements(Bare(incoming))
      case Remembering(_, trace) => before + {trace.(scope := Unscoped)}
      case Clearing => {}
  }

  // ---- What the cache is meant to be ------------------------------------------------------------

  /** Ids are fixed, sequences tell records apart, and the order of sequences agrees with that of times. */
  ghost predicate Consistent(all: set<TraceRecord>) {
    && (forall r | r in all :: r.sequence.Some?)
    && (forall r, s | r in all && s in all && r.id == s.id :: r == s)
    && (forall r, s | r in all && s in all && SequenceOf(r) == SequenceOf(s) :: r == s)
    && (forall r, s | r in all && s in all && SequenceOf(r) < SequenceOf(s) :: r.createdAt <= s.createdAt)
  }

  ghost predicate Ascending(xs: seq<TraceRecord>) {
    forall i, j | 0 <= i < j < |xs| :: SequenceOf(xs[i]) < SequenceOf(xs[j])
  }

  /** cache holds the newest records of all, in order: what is missing is older than a full cache. */
  ghost predicate Newest(limit: nat, cache: seq<TraceRecord>, all: set<TraceRecord>) {
    && Ascending(cache) && Elements(cache) <= all && |cache| <= limit
    && (forall r | r in all && r !in cache :: |cache| == limit && forall s | s in cache :: SequenceOf(r) < SequenceOf(s))
  }

  lemma AscendingDistinct(xs: seq<TraceRecord>)
    requires Ascending(xs)
    ensures |Elements(xs)| == |xs|
  {
    DistinctCardinality(xs);
  }

  /** There is only one such cache. */
  lemma {:induction false} AscendingUnique(xs: seq<TraceRecord>, ys: seq<TraceRecord>)
    requires Ascending(xs) && Ascending(ys) && Elements(xs) == Elements(ys)
    ensures xs == ys
  {
    AscendingDistinct(xs);
    AscendingDistinct(ys);
    if xs != [] {
      var m, n := |xs| - 1, |ys| - 1;
      assert xs[m] in Elements(ys) && ys[n] in Elements(xs);
      var i :| 0 <= i < |ys| && ys[i] == xs[m];
      var j :| 0 <= j < |xs| && xs[j] == ys[n];
      assert xs[m] == ys[n];
      InitElements(xs);
      InitElements(ys);
      AscendingUnique(xs[..m], ys[..n]);
    }
  }

  lemma InitElements(xs: seq<TraceRecord>)
    requires Ascending(xs) && xs != []
    ensures Ascending(xs[..|xs| - 1]) && Elements(xs[..|xs| - 1]) == Elements(xs) - {xs[|xs| - 1]}
  {
    var m := |xs| - 1;
    assert xs == xs[..m] + [xs[m]];
  }

  lemma NewestUnique(limit: nat, a: seq<TraceRecord>, b: seq<TraceRecord>, all: set<TraceRecord>)
    requires Newest(limit, a, all) && Newest(limit, b, all)
    ensures a == b
  {
    NewestIncluded(limit, a, b, all);
    NewestIncluded(limit, b, a, all);
    AscendingUnique(a, b);
  }

  lemma NewestIncluded(limit: nat, a: seq<TraceRecord>, b: seq<TraceRecord>, all: set<TraceRecord>)
    requires Newest(limit, a, all) && Newest(limit, b, all)
    ensures Elements(a) <= Elements(b)
  {
    forall r | r in a ensures r in b {
      if r !in b {
        AscendingDistinct(a);
        AscendingDistinct(b);
        assert r in all && |b| == limit;
        var rest := Elements(a) - {r};
        forall s | s in b ensures s in rest {
          assert s in all;
        }
        SubsetCardinality(Elements(b), rest);
      }
    }
  }

  // ---- The writers keep it ------------------------------------------------------------------------

  lemma LastOfElements(limit: nat, xs: seq<TraceRecord>)
    requires limit > 0 && Ascending(xs)
    ensures Newest(limit, LastOf(limit, xs), Elements(xs))
  {
    var last := LastOf(limit, xs);
    if |xs| > limit {
      assert forall k | |xs| - limit <= k < |xs| :: xs[k] == last[k - (|xs| - limit)];
      forall r | r in xs && r !in last ensures forall s | s in last :: SequenceOf(r) < SequenceOf(s) {
        var i :| 0 <= i < |xs| && xs[i] == r;
      }
    }
  }

  /** Newer records push out older ones and never bring any back. */
  lemma NewestGrows(limit: nat, cache: seq<TraceRecord>, all: set<TraceRecord>, added: set<TraceRecord>, next: seq<TraceRecord>)
    requires Newest(limit, cache, all) && Newest(limit, next, Elements(cache) + added)
    ensures Newest(limit, next, all + added)
  {
    forall r | r in all + added && r !in next ensures |next| == limit && forall s | s in next :: SequenceOf(r) < SequenceOf(s) {
      if r !in Elements(cache) + added {
        DroppedStaysOut(limit, cache, all, added, next, r);
      }
    }
  }

  lemma DroppedStaysOut(limit: nat, cache: seq<TraceRecord>, all: set<TraceRecord>, added: set<TraceRecord>, next: seq<TraceRecord>, r: TraceRecord)
    requires Newest(limit, cache, all) && Newest(limit, next, Elements(cache) + added)
    requires r in all && r !in cache
    ensures |next| == limit && forall s | s in next :: SequenceOf(r) < SequenceOf(s)
  {
    AscendingDistinct(cache);
    AscendingDistinct(next);
    if Elements(cache) <= Elements(next) {
      SubsetCardinality(Elements(cache), Elements(next));
      if s :| s in next && SequenceOf(s) <= SequenceOf(r) {
        assert s !in cache;
        SubsetCardinality(Elements(cache), Elements(next) - {s});
      }
    } else {
      var c :| c in cache && c !in next;
      assert c in Elements(cache) + added;
    }
  }

  lemma Subset(all: set<TraceRecord>, some: set<TraceRecord>)
    requires Consistent(all) && some <= all
    ensures Consistent(some)
  {
  }

  ghost predicate IdsDistinct(xs: seq<TraceRecord>) {
    forall i, j | 0 <= i < j < |xs| :: xs[i].id != xs[j].id
  }

  lemma PutElements(entries: seq<TraceRecord>, r: TraceRecord)
    requires IdsDistinct(entries) && Consistent(Elements(entries) + {r})
    ensures IdsDistinct(Put(entries, r)) && Elements(Put(entries, r)) == Elements(entries) + {r}
  {
    var i := IndexOf(r.id, entries);
    if i >= 0 {
      assert entries[i] in Elements(entries) && entries[i] == r;
      assert entries[i := r] == entries;
    }
  }

  lemma {:induction false} PutAllElements(entries: seq<TraceRecord>, rs: seq<TraceRecord>)
    requires IdsDistinct(entries) && Consistent(Elements(entries) + Elements(rs))
    ensures IdsDistinct(PutAll(entries, rs)) && Elements(PutAll(entries, rs)) == Elements(entries) + Elements(rs)
  {
    hide Put, Consistent, IdsDistinct;
    if rs != [] {
      var init, r := rs[..|rs| - 1], rs[|rs| - 1];
      assert rs == init + [r];
      assert Elements(rs) == Elements(init) + {r};
      Subset(Elements(entries) + Elements(rs), Elements(entries) + Elements(init));
      PutAllElements(entries, init);
      assert Elements(PutAll(entries, init)) + {r} == Elements(entries) + Elements(rs);
      PutElements(PutAll(entries, init), r);
    }
  }

  lemma PutLast(xs: seq<TraceRecord>, n: nat)
    requires IdsDistinct(xs) && n < |xs|
    ensures Put(xs[..n], xs[n]) == xs[..n] + [xs[n]]
  {
    assert IndexOf(xs[n].id, xs[..n]) < 0 by {
      assert forall k | 0 <= k < n :: xs[..n][k].id != xs[n].id;
    }
  }

  lemma {:induction false} PutAllSame(xs: seq<TraceRecord>)
    requires IdsDistinct(xs)
    ensures PutAll([], xs) == xs
  {
    hide Put;
    if xs != [] {
      var n := |xs| - 1;
      assert xs == xs[..n] + [xs[n]];
      PutAllSame(xs[..n]);
      PutLast(xs, n);
    }
  }

  lemma OrdersAreTotal(collation: Collation)
    ensures TotalPreorder(MergeOrder()) && TotalPreorder(RememberOrder(collation))
  {
  }

  /** A sorted arrangement of distinct consistent records is ascending, whichever of the two orders sorted it. */
  lemma {:induction false} SortAscends(le: (TraceRecord, TraceRecord) -> bool, collation: Collation, xs: seq<TraceRecord>)
    requires le == MergeOrder() || le == RememberOrder(collation)
    requires IdsDistinct(xs) && Consistent(Elements(xs))
    ensures Ascending(Sort(le, xs)) && Elements(Sort(le, xs)) == Elements(xs)
  {
    hide Sort;
    OrdersAreTotal(collation);
    SortSorted(le, xs);
    SortKeepsElements(le, xs);
    SortDistinct(le, xs);
    var ys := Sort(le, xs);
    forall i, j | 0 <= i < j < |ys| ensures SequenceOf(ys[i]) < SequenceOf(ys[j]) {
      assert ys[i] in xs && ys[j] in xs;
      assert le(ys[i], ys[j]) && ys[i] != ys[j];
    }
  }

  lemma {:induction false} SortDistinct(le: (TraceRecord, TraceRecord) -> bool, xs: seq<TraceRecord>)
    requires IdsDistinct(xs)
    ensures Distinct(Sort(le, xs))
  {
    hide Sort;
    SortPermutes(le, xs);
    var ys := Sort(le, xs);
    forall i, j | 0 <= i < j < |ys| ensures ys[i] != ys[j] {
      if ys[i] == ys[j] {
        assert ys == ys[..j] + ys[j..] && ys[i] in ys[..j] && ys[j] in ys[j..];
        assert multiset(xs)[ys[i]] >= 2;
        OnlyOnce(xs, ys[i]);
      }
    }
  }

  lemma {:induction false} OnlyOnce(xs: seq<TraceRecord>, r: TraceRecord)
    requires IdsDistinct(xs)
    ensures multiset(xs)[r] <= 1
  {
    if xs != [] {
      OnlyOnce(xs[1..], r);
      assert xs == [xs[0]] + xs[1..];
      if xs[0] == r {
        assert r !in xs[1..];
      }
    }
  }

  lemma AscendingIdsDistinct(xs: seq<TraceRecord>)
    requires Ascending(xs) && Consistent(Elements(xs))
    ensures IdsDistinct(xs)
  {
    forall i, j | 0 <= i < j < |xs| ensures xs[i].id != xs[j].id {
      assert xs[i] in Elements(xs) && xs[j] in Elements(xs);
    }
  }

  lemma MergeKeeps(limit: nat, cache: seq<TraceRecord>, incoming: seq<TraceRecord>, all: set<TraceRecord>)
    requires limit > 0 && Newest(limit, cache, all) && Consistent(all + Elements(incoming))
    ensures Newest(limit, Merge(limit, cache, incoming), all + Elements(incoming))
  {
    hide Newest, Sort, Consistent;
    NewestIsAscending(limit, cache, all);
    Subset(all + Elements(incoming), Elements(cache) + Elements(incoming));
    Subset(all + Elements(incoming), Elements(cache));
    AscendingIdsDistinct(cache);
    PutAllSame(cache);
    PutAllElements(cache, incoming);
    var entries := PutAll(cache, incoming);
    SortAscends(MergeOrder(), (id: string) => 0.0, entries);
    LastOfElements(limit, Sort(MergeOrder(), entries));
    NewestGrows(limit, cache, all, Elements(incoming), Merge(limit, cache, incoming));
  }

  lemma NewestIsAscending(limit: nat, cache: seq<TraceRecord>, all: set<TraceRecord>)
    requires Newest(limit, cache, all)
    ensures Ascending(cache) && Elements(cache) <= all
  {
  }

  lemma RememberKeeps(limit: nat, collation: Collation, cache: seq<TraceRecord>, trace: TraceRecord, all: set<TraceRecord>)
    requires limit > 0 && Newest(limit, cache, all) && Consistent(all + {trace})
    ensures Newest(limit, Remember(limit, collation, cache, trace), all + {trace})
  {
    hide Sort, Consistent, Newest;
    NewestIsAscending(limit, cache, all);
    Subset(all + {trace}, Elements(cache) + {trace});
    Subset(all + {trace}, Elements(cache));
    AscendingIdsDistinct(cache);
    var i := IndexOf(trace.id, cache);
    if i >= 0 {
      RememberedIsThere(cache, trace, i);
      assert trace in Elements(cache);
      assert all + {trace} == all;
    } else {
      var longer := cache + [trace];
      assert Elements(longer) == Elements(cache) + {trace};
      SortAscends(RememberOrder(collation), collation, longer);
      LastOfElements(limit, Sort(RememberOrder(collation), longer));
      NewestGrows(limit, cache, all, {trace}, Remember(limit, collation, cache, trace));
    }
  }

  lemma RememberedIsThere(cache: seq<TraceRecord>, trace: TraceRecord, i: nat)
    requires i < |cache| && cache[i].id == trace.id && Consistent(Elements(cache) + {trace})
    ensures trace in cache && cache[i := trace] == cache
  {
    assert cache[i] in Elements(cache) + {trace};
  }

  // ---- The scope decides nothing ----------------------------------------------------------------------

  /** The cache of the bare records. */
  function BareCache(limit: nat, writes: seq<Write>): seq<TraceRecord> {
    if writes == [] then []
    else
      var before := BareCache(limit, writes[..|writes| - 1]);
      match writes[|writes| - 1]
      case Merging(_, incoming) => Merge(limit, before, Bare(incoming))
      case Remembering(collation, trace) => Remember(limit, collation, before, trace.(scope := Unscoped))
      case Clearing => []
  }

  lemma {:induction false} IndexOfBare(id: string, xs: seq<TraceRecord>)
    ensures IndexOf(id, Bare(xs)) == IndexOf(id, xs)
  {
    if xs != [] {
      IndexOfBare(id, xs[1..]);
    }
  }

  lemma {:induction false} PutBare(entries: seq<TraceRecord>, r: TraceRecord)
    ensures Bare(Put(entries, r)) == Put(Bare(entries), r.(scope := Unscoped))
  {
    hide Scoped;
    IndexOfBare(r.id, entries);
  }

  lemma {:induction false} PutAllBare(entries: seq<TraceRecord>, rs: seq<TraceRecord>)
    ensures Bare(PutAll(entries, rs)) == PutAll(Bare(entries), Bare(rs))
  {
    hide Put, Scoped;
    if rs == [] {
      assert Bare(rs) == [];
    } else {
      var n := |rs| - 1;
      PutAllBare(entries, rs[..n]);
      PutBare(PutAll(entries, rs[..n]), rs[n]);
      assert Bare(rs)[..n] == Bare(rs[..n]) && Bare(rs)[n] == rs[n].(scope := Unscoped);
    }
  }

  lemma {:induction false} LastOfBare(limit: nat, xs: seq<TraceRecord>)
    ensures Bare(LastOf(limit, xs)) == LastOf(limit, Bare(xs))
  {
    hide Scoped;
  }

  ghost predicate IgnoresScope(le: (TraceRecord, TraceRecord) -> bool) {
    forall a: TraceRecord, b: TraceRecord :: le(a.(scope := Unscoped), b.(scope := Unscoped)) == le(a, b)
  }

  lemma OrdersIgnoreScope(collation: Collation)
    ensures IgnoresScope(MergeOrder()) && IgnoresScope(RememberOrder(collation))
  {
  }

  lemma {:induction false} InsertBare(le: (TraceRecord, TraceRecord) -> bool, a: TraceRecord, xs: seq<TraceRecord>)
    requires IgnoresScope(le)
    ensures Bare(Insert(le, a, xs)) == Insert(le, a.(scope := Unscoped), Bare(xs))
  {
    hide Scoped;
    if xs != [] && !le(a, xs[0]) {
      InsertBare(le, a, xs[1..]);
      assert Bare(xs)[1..] == Bare(xs[1..]) && Bare(xs)[0] == xs[0].(scope := Unscoped);
      assert Insert(le, a, xs)[1..] == Insert(le, a, xs[1..]);
    }
  }

  lemma {:induction false} SortBare(le: (TraceRecord, TraceRecord) -> bool, xs: seq<TraceRecord>)
    requires IgnoresScope(le)
    ensures Bare(Sort(le, xs)) == Sort(le, Bare(xs))
  {
    hide Scoped, Insert;
    if xs == [] {
      assert Bare(xs) == [];
    } else {
      SortBare(le, xs[1..]);
      InsertBare(le, xs[0], Sort(le, xs[1..]));
      assert Bare(xs)[1..] == Bare(xs[1..]) && Bare(xs)[0] == xs[0].(scope := Unscoped);
    }
  }

  lemma {:induction false} MergeBare(limit: nat, current: seq<TraceRecord>, incoming: seq<TraceRecord>)
    ensures Bare(Merge(limit, current, incoming)) == Merge(limit, Bare(current), Bare(incoming))
  {
    hide Sort, PutAll, LastOf, Scoped;
    var entries := PutAll(PutAll([], current), incoming);
    PutAllBare([], current);
    PutAllBare(PutAll([], current), incoming);
    assert Bare([]) == [];
    OrdersIgnoreScope((id: string) => 0.0);
    SortBare(MergeOrder(), entries);
    LastOfBare(limit, Sort(MergeOrder(), entries));
  }

  lemma {:induction false} RememberBare(limit: nat, collation: Collation, current: seq<TraceRecord>, trace: TraceRecord)
    ensures Bare(Remember(limit, collation, current, trace)) == Remember(limit, collation, Bare(current), trace.(scope := Unscoped))
  {
    hide Sort, LastOf, Scoped;
    IndexOfBare(trace.id, current);
    if IndexOf(trace.id, current) < 0 {
      OrdersIgnoreScope(collation);
      assert Bare(current + [trace]) == Bare(current) + [trace.(scope := Unscoped)];
      SortBare(RememberOrder(collation), current + [trace]);
      LastOfBare(limit, Sort(RememberOrder(collation), current + [trace]));
    } else {
      assert Bare(current[IndexOf(trace.id, current) := trace]) == Bare(current)[IndexOf(trace.id, current) := trace.(scope := Unscoped)];
    }
  }

  lemma {:induction false} CacheIsBare(limit: nat, writes: seq<Write>)
    ensures Bare(Cache(limit, writes)) == BareCache(limit, writes)
  {
    hide Merge, Remember, Scoped;
    if writes == [] {
      assert Bare([]) == [];
    } else {
      var init := writes[..|writes| - 1];
      CacheIsBare(limit, init);
      match writes[|writes| - 1]
      case Merging(view, incoming) =>
        MergeBare(limit, Cache(limit, init), Scoped(view, incoming));
        assert Bare(Scoped(view, incoming)) == Bare(incoming);
      case Remembering(collation, trace) =>
        RememberBare(limit, collation, Cache(limit, init), trace.(scope := Chat));
      case Clearing =>
        assert Bare([]) == [];
    }
  }

  // ---- Every interleaving --------------------------------------------------------------------------------

  /** The records seen at any moment are consistent. */
  ghost predicate AlwaysConsistent(writes: seq<Write>) {
    forall n | 0 <= n <= |writes| :: Consistent(SeenBy(writes[..n]))
  }

  lemma {:induction false} BareCacheHoldsNewest(limit: nat, writes: seq<Write>)
    requires limit > 0 && AlwaysConsistent(writes)
    ensures Newest(limit, BareCache(limit, writes), SeenBy(writes))
  {
    hide Merge, Remember, Consistent;
    assert writes[..|writes|] == writes;
    if writes != [] {
      var init, w := writes[..|writes| - 1], writes[|writes| - 1];
      assert forall n | 0 <= n <= |init| :: init[..n] == writes[..n];
      BareCacheHoldsNewest(limit, init);
      match w
      case Merging(_, incoming) =>
        MergeKeeps(limit, BareCache(limit, init), Bare(incoming), SeenBy(init));
      case Remembering(collation, trace) =>
        RememberKeeps(limit, collation, BareCache(limit, init), trace.(scope := Unscoped), SeenBy(init));
      case Clearing =>
    }
  }

  /** Whatever the interleaving, the cache holds exactly the newest records seen since it was cleared, in order. */
  lemma {:induction false} CacheHoldsNewest(limit: nat, writes: seq<Write>)
    requires limit > 0 && AlwaysConsistent(writes)
    ensures Newest(limit, Bare(Cache(limit, writes)), SeenBy(writes))
  {
    hide Newest, Scoped, Cache, BareCache, SeenBy, AlwaysConsistent;
    CacheIsBare(limit, writes);
    BareCacheHoldsNewest(limit, writes);
  }

  lemma LastOfNewest(limit: nat, larger: nat, log: seq<TraceRecord>, all: set<TraceRecord>)
    requires 0 < limit <= larger && Newest(larger, log, all)
    ensures Newest(limit, LastOf(limit, log), all)
  {
    LastOfElements(limit, log);
    if |log| < larger {
      assert Elements(log) == all;
    } else {
      forall r | r in all && r !in log ensures forall s | s in LastOf(limit, log) :: SequenceOf(r) < SequenceOf(s) {
        assert forall s | s in LastOf(limit, log) :: s in log;
      }
    }
  }

  /** The bounded cache is the tail of what the same writes leave in a cache of any larger bound. */
  lemma {:induction false} BoundedAgreesWithLarger(limit: nat, larger: nat, writes: seq<Write>)
    requires 0 < limit <= larger && AlwaysConsistent(writes)
    ensures Bare(Cache(limit, writes)) == LastOf(limit, Bare(Cache(larger, writes)))
  {
    hide Newest, Cache, SeenBy, AlwaysConsistent, LastOf, Scoped;
    CacheHoldsNewest(limit, writes);
    CacheHoldsNewest(larger, writes);
    LastOfNewest(limit, larger, Bare(Cache(larger, writes)), SeenBy(writes));
    NewestUnique(limit, Bare(Cache(limit, writes)), LastOf(limit, Bare(Cache(larger, writes))), SeenBy(writes));
  }

  /** A bound no smaller than the number of records seen loses nothing: the log is all of them. */
  lemma {:induction false} RoomyLogIsComplete(larger: nat, writes: seq<Write>)
    requires 0 < larger && |SeenBy(writes)| <= larger && AlwaysConsistent(writes)
    ensures Ascending(Bare(Cache(larger, writes))) && Elements(Bare(Cache(larger, writes))) == SeenBy(writes)
  {
    hide Cache, SeenBy, AlwaysConsistent, Scoped;
    CacheHoldsNewest(larger, writes);
    var log := Bare(Cache(larger, writes));
    AscendingDistinct(log);
    if r :| r in SeenBy(writes) && r !in log {
      SubsetCardinality(Elements(log), SeenBy(writes) - {r});
    }
  }

  /** The trace cache holds the last TRACE_CACHE_LIMIT records of the complete log. */
  lemma {:induction false} TraceCacheAgreesWithLog(larger: nat, writes: seq<Write>)
    requires AlwaysConsistent(writes) && TRACE_CACHE_LIMIT <= larger && |SeenBy(writes)| <= larger
    ensures var log := Bare(Cache(larger, writes));
            && Ascending(log) && Elements(log) == SeenBy(writes)
            && Bare(Cache(TRACE_CACHE_LIMIT, writes)) == LastOf(TRACE_CACHE_LIMIT, log)
  {
    hide Cache, SeenBy, AlwaysConsistent, LastOf, Scoped;
    BoundedAgreesWithLarger(TRACE_CACHE_LIMIT, larger, writes);
    RoomyLogIsComplete(larger, writes);
  }

  // ---- What was written last --------------------------------------------------------------------

  /** The record of this id that a merge brings last, if it brings one. */
  function LastOfId(id: string, rs: seq<TraceRecord>): Option<TraceRecord> {
    if rs == [] then None
    else if rs[|rs| - 1].id == id then Some(rs[|rs| - 1])
    else LastOfId(id, rs[..|rs| - 1])
  }

  /** What the writes have written last under an id since the cache was cleared, with the view it was brought for. */
  function WrittenLast(writes: seq<Write>, id: string): Option<TraceRecord> {
    if writes == [] then None
    else
      var before := WrittenLast(writes[..|writes| - 1], id);
      match writes[|writes| - 1]
      case Merging(view, incoming) =>
        (match LastOfId(id, incoming)
         case Some(r) => Some(r.(scope := view))
         case None => before)
      case Remembering(_, trace) => if trace.id == id then Some(trace.(scope := Chat)) else before
      case Clearing => None
  }

  lemma {:induction false} LastOfIdScoped(view: Scope, id: string, rs: seq<TraceRecord>)
    ensures LastOfId(id, Scoped(view, rs)) == match LastOfId(id, rs) case Some(r) => Some(r.(scope := view)) case None => None
  {
    if rs != [] {
      var init := rs[..|rs| - 1];
      LastOfIdScoped(view, id, init);
      assert Scoped(view, rs)[..|rs| - 1] == Scoped(view, init);
    }
  }

  lemma {:induction false} IndexOfAt(id: string, xs: seq<TraceRecord>, i: int)
    requires IdsDistinct(xs) && 0 <= i < |xs| && xs[i].id == id
    ensures IndexOf(id, xs) == i
  {
    assert xs[i] in xs;
  }

  lemma PutKeeps(entries: seq<TraceRecord>, r: TraceRecord)
    requires IdsDistinct(entries)
    ensures IdsDistinct(Put(entries, r))
    ensures forall s :: s in Put(entries, r) <==> s == r || (s in entries && s.id != r.id)
  {
    var i, after := IndexOf(r.id, entries), Put(entries, r);
    if i >= 0 {
      assert after[i] == r;
      forall s | s in entries && s.id != r.id ensures s in after {
        var j :| 0 <= j < |entries| && entries[j] == s;
        assert after[j] == s;
      }
      forall s | s in after ensures s == r || (s in entries && s.id != r.id) {
        var j :| 0 <= j < |after| && after[j] == s;
        assert j != i ==> entries[j].id != entries[i].id;
      }
    } else {
      assert forall j | 0 <= j < |entries| :: entries[j] in entries;
    }
  }

  /** Of each id a merge has what comes last, and what was there of the ids that do not come. */
  lemma {:induction false} PutAllKeeps(entries: seq<TraceRecord>, rs: seq<TraceRecord>)
    requires IdsDistinct(entries)
    ensures IdsDistinct(PutAll(entries, rs))
    ensures forall s :: s in PutAll(entries, rs) <==> LastOfId(s.id, rs) == Some(s) || (s in entries && LastOfId(s.id, rs) == None)
  {
    hide Put, IdsDistinct;
    if rs != [] {
      PutAllKeeps(entries, rs[..|rs| - 1]);
      PutKeeps(PutAll(entries, rs[..|rs| - 1]), rs[|rs| - 1]);
      LastOfIdIs(rs);
    }
  }

  lemma {:induction false} LastOfIdIs(rs: seq<TraceRecord>)
    ensures forall id :: LastOfId(id, rs).Some? ==> LastOfId(id, rs).value.id == id
  {
    if rs != [] {
      LastOfIdIs(rs[..|rs| - 1]);
    }
  }

  lemma {:induction false} SortedIds(le: (TraceRecord, TraceRecord) -> bool, limit: nat, xs: seq<TraceRecord>)
    requires IdsDistinct(xs)
    ensures var ys := LastOf(limit, Sort(le, xs)); IdsDistinct(ys) && forall r | r in ys :: r in xs
  {
    hide Sort;
    var sorted := Sort(le, xs);
    SortKeepsElements(le, xs);
    SortDistinct(le, xs);
    forall i, j | 0 <= i < j < |sorted| ensures sorted[i].id != sorted[j].id {
      assert sorted[i] in xs && sorted[j] in xs && sorted[i] != sorted[j];
    }
  }

  /** Whatever the records: the cache holds one record for each id it has, and that is the one written last. */
  lemma {:induction false} CacheHoldsLastWritten(limit: nat, writes: seq<Write>)
    ensures IdsDistinct(Cache(limit, writes))
    ensures forall r | r in Cache(limit, writes) :: WrittenLast(writes, r.id) == Some(r)
  {
    hide Sort, IdsDistinct, LastOf, PutAll, Scoped;
    if writes == [] {
      NothingCached();
    } else {
      var init, last := writes[..|writes| - 1], writes[|writes| - 1];
      var before := Cache(limit, init);
      CacheHoldsLastWritten(limit, init);
      match last
      case Merging(view, incoming) => MergedLast(limit, writes, before);
      case Remembering(collation, trace) => RememberedLast(limit, writes, before);
      case Clearing => NothingCached();
    }
  }

  lemma NothingCached()
    ensures IdsDistinct([])
  {
  }

  lemma {:induction false} MergedLast(limit: nat, writes: seq<Write>, before: seq<TraceRecord>)
    requires writes != [] && writes[|writes| - 1].Merging? && IdsDistinct(before)
    requires forall r | r in before :: WrittenLast(writes[..|writes| - 1], r.id) == Some(r)
    ensures var last := writes[|writes| - 1];
            var after := Merge(limit, before, Scoped(last.view, last.incoming));
            IdsDistinct(after) && forall r | r in after :: WrittenLast(writes, r.id) == Some(r)
  {
    hide Sort, IdsDistinct, LastOf, PutAll, Scoped;
    var last := writes[|writes| - 1];
    var scoped := Scoped(last.view, last.incoming);
    PutAllSame(before);
    PutAllKeeps(before, scoped);
    SortedIds(MergeOrder(), limit, PutAll(before, scoped));
    forall r | r in Merge(limit, before, scoped) ensures WrittenLast(writes, r.id) == Some(r) {
      LastOfIdScoped(last.view, r.id, last.incoming);
    }
  }

  lemma {:induction false} RememberedLast(limit: nat, writes: seq<Write>, before: seq<TraceRecord>)
    requires writes != [] && writes[|writes| - 1].Remembering? && IdsDistinct(before)
    requires forall r | r in before :: WrittenLast(writes[..|writes| - 1], r.id) == Some(r)
    ensures var last := writes[|writes| - 1];
            var after := Remember(limit, last.collation, before, last.trace.(scope := Chat));
            IdsDistinct(after) && forall r | r in after :: WrittenLast(writes, r.id) == Some(r)
  {
    hide Sort, IdsDistinct, LastOf;
    var last := writes[|writes| - 1];
    var trace := last.trace.(scope := Chat);
    PutKeeps(before, trace);
    if IndexOf(trace.id, before) < 0 {
      SortedIds(RememberOrder(last.collation), limit, before + [trace]);
    }
  }

  /** A merge leaves the records by time, and those of one time by sequence. */
  lemma {:induction false} MergeInOrder(limit: nat, current: seq<TraceRecord>, incoming: seq<TraceRecord>, i: nat, j: nat)
    requires i < j < |Merge(limit, current, incoming)|
    ensures var r, s := Merge(limit, current, incoming)[i], Merge(limit, current, incoming)[j];
            var m, n := if r.sequence.Some? then r.sequence.value else 0, if s.sequence.Some? then s.sequence.value else 0;
            r.createdAt < s.createdAt || (r.createdAt == s.createdAt && m <= n)
  {
    hide Sort, PutAll;
    OrdersAreTotal(_ => 0.0);
    SortSorted(MergeOrder(), PutAll(PutAll([], current), incoming));
  }

  /** A new live record leaves the records by sequence, those without one behind, and otherwise by time and id. */
  lemma {:induction false} RememberInOrder(limit: nat, c: Collation, current: seq<TraceRecord>, trace: TraceRecord, i: nat, j: nat)
    requires IndexOf(trace.id, current) < 0 && i < j < |Remember(limit, c, current, trace)|
    ensures var r, s := Remember(limit, c, current, trace)[i], Remember(limit, c, current, trace)[j];
            var byTime := r.createdAt < s.createdAt || (r.createdAt == s.createdAt && c(r.id) <= c(s.id));
            match (r.sequence, s.sequence)
            case (Some(m), Some(n)) => m < n || (m == n && byTime)
            case (Some(_), None) => true
            case (None, Some(_)) => false
            case (None, None) => byTime
  {
    hide Sort, IndexOf;
    OrdersAreTotal(c);
    SortSorted(RememberOrder(c), current + [trace]);
  }

  /** A live record whose id is cached takes the place of that record. */
  lemma RememberInPlace(limit: nat, c: Collation, current: seq<TraceRecord>, trace: TraceRecord, i: nat)
    requires IdsDistinct(current) && i < |current| && current[i].id == trace.id
    ensures Remember(limit, c, current, trace) == current[i := trace]
  {
    IndexOfAt(trace.id, current, i);
  }
}
