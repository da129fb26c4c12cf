/** The order in which a trace is replayed. */
module ReplayOrder {
  import opened StableSort
  import opened ChatMessages
  import opened TraceEvents

  /** e is replayed before f: by sequence, then by time, then by id. */
  predicate Before(c: Collation, e: Event, f: Event) {
    || e.sequence < f.sequence
    || (e.sequence == f.sequence && (e.ts < f.ts || (e.ts == f.ts && c(e.eventId) <= c(f.eventId))))
  }

  ghost predicate InOrder(c: Collation, es: seq<Event>) {
    forall i, j | 0 <= i < j < |es| :: Before(c, es[i], es[j])
  }

  lemma EventOrderIsTotal(c: Collation)
    ensures TotalPreorder(EventOrder(c))
    ensures forall e, f :: EventOrder(c)(e, f) <==> Before(c, e, f)
  {
  }

  /** Sorting for a replay orders the events and loses none. */
  lemma {:induction false} SortInOrder(c: Collation, traces: seq<Event>)
    ensures var sorted := Sort(EventOrder(c), traces); InOrder(c, sorted) && multiset(sorted) == multiset(traces)
  {
    hide Sort;
    EventOrderIsTotal(c);
    SortSorted(EventOrder(c), traces);
    SortPermutes(EventOrder(c), traces);
  }

  ghost predicate Increasing(es: seq<Event>) {
    forall i, j | 0 <= i < j < |es| :: es[i].sequence < es[j].sequence
  }

  /** The last events of two such lists are the same. */
  lemma {:induction false} LastsAgree(c: Collation, es: seq<Event>, sorted: seq<Event>)
    requires Increasing(es) && InOrder(c, sorted) && multiset(es) == multiset(sorted) && |es| == |sorted| > 0
    ensures es[|es| - 1] == sorted[|es| - 1]
  {
    var n := |es| - 1;
    var e, f := es[n], sorted[n];
    assert e in multiset(sorted) && f in multiset(es);
    var i :| 0 <= i < |sorted| && sorted[i] == e;
    var j :| 0 <= j < |es| && es[j] == f;
    assert i < n ==> Before(c, e, f);
  }

  lemma DropLast(es: seq<Event>)
    requires es != []
    ensures multiset(es[..|es| - 1]) == multiset(es) - multiset{es[|es| - 1]}
  {
    assert es == es[..|es| - 1] + [es[|es| - 1]];
  }

  lemma RestsAgree(es: seq<Event>, sorted: seq<Event>, n: nat)
    requires |es| == |sorted| == n + 1 && es[n] == sorted[n] && multiset(es) == multiset(sorted)
    ensures multiset(es[..n]) == multiset(sorted[..n])
  {
    DropLast(es);
    DropLast(sorted);
  }

  lemma SameFromParts(es: seq<Event>, sorted: seq<Event>, n: nat)
    requires |es| == |sorted| == n + 1 && es[n] == sorted[n] && es[..n] == sorted[..n]
    ensures es == sorted
  {
    assert es == es[..n] + [es[n]] && sorted == sorted[..n] + [sorted[n]];
  }

  lemma Prefixes(c: Collation, es: seq<Event>, sorted: seq<Event>, n: nat)
    requires Increasing(es) && InOrder(c, sorted) && n <= |es| && n <= |sorted|
    ensures Increasing(es[..n]) && InOrder(c, sorted[..n])
  {
    hide Before;
  }

  /** Two lists of the same events, one with increasing sequences and one in order, are the same list. */
  lemma {:induction false} OrderUnique(c: Collation, es: seq<Event>, sorted: seq<Event>)
    requires Increasing(es) && InOrder(c, sorted) && multiset(es) == multiset(sorted)
    ensures es == sorted
  {
    hide Before, Increasing, InOrder;
    SameLength(es, sorted);
    if es != [] {
      var n := |es| - 1;
      LastsAgree(c, es, sorted);
      RestsAgree(es, sorted, n);
      Prefixes(c, es, sorted, n);
      OrderUnique(c, es[..n], sorted[..n]);
      SameFromParts(es, sorted, n);
    }
  }

  lemma SameLength(a: seq<Event>, b: seq<Event>)
    requires multiset(a) == multiset(b)
    ensures |a| == |b|
  {
    assert |multiset(a)| == |a| && |multiset(b)| == |b|;
  }

  /** A trace whose sequence numbers increase is replayed in that order, however it is shuffled. */
  lemma {:induction false} ShuffledReplay(c: Collation, es: seq<Event>, shuffled: seq<Event>)
    requires Increasing(es) && multiset(es) == multiset(shuffled)
    ensures Sort(EventOrder(c), shuffled) == es
  {
    hide Sort;
    SortInOrder(c, shuffled);
    OrderUnique(c, es, Sort(EventOrder(c), shuffled));
  }
}
