/**
 The library sort of the modelled programs. Array.prototype.sort and Rust's
 slice::sort_by are both stable, so on a comparator that is a total preorder the
 result is fixed: sorted, and equal elements keep their order (SortIsStable).
 */
module StableSort {
  import opened Seqs

  ghost predicate TotalPreorder<T(!new)>(le: (T, T) -> bool) {
    && (forall a, b :: le(a, b) || le(b, a))
    && (forall a, b, c :: le(a, b) && le(b, c) ==> le(a, c))
  }

  ghost predicate Sorted<T>(le: (T, T) -> bool, xs: seq<T>) {
    forall i, j :: 0 <= i < j < |xs| ==> le(xs[i], xs[j])
  }

  /** a goes in front of the first element that is not strictly smaller. */
  function Insert<T>(le: (T, T) -> bool, a: T, xs: seq<T>): (r: seq<T>)
    ensures |r| == |xs| + 1
  {
    if xs == [] || le(a, xs[0]) then [a] + xs else [xs[0]] + Insert(le, a, xs[1..])
  }

  function Sort<T>(le: (T, T) -> bool, xs: seq<T>): (r: seq<T>)
    ensures |r| == |xs|
  {
    if xs == [] then [] else Insert(le, xs[0], Sort(le, xs[1..]))
  }

  lemma {:induction false} InsertPermutes<T>(le: (T, T) -> bool, a: T, xs: seq<T>)
    ensures multiset(Insert(le, a, xs)) == multiset(xs) + multiset{a}
  {
    if xs != [] && !le(a, xs[0]) {
      InsertPermutes(le, a, xs[1..]);
      assert xs == [xs[0]] + xs[1..];
    }
  }

  /** The result is a permutation of the input. */
  lemma {:induction false} SortPermutes<T>(le: (T, T) -> bool, xs: seq<T>)
    ensures multiset(Sort(le, xs)) == multiset(xs)
  {
    if xs != [] {
      SortPermutes(le, xs[1..]);
      InsertPermutes(le, xs[0], Sort(le, xs[1..]));
      assert xs == [xs[0]] + xs[1..];
    }
  }

  lemma {:induction false} SortKeepsElements<T(!new)>(le: (T, T) -> bool, xs: seq<T>)
    ensures forall x :: x in Sort(le, xs) <==> x in xs
  {
    SortPermutes(le, xs);
    assert forall x :: x in Sort(le, xs) <==> x in multiset(Sort(le, xs));
    assert forall x :: x in xs <==> x in multiset(xs);
  }

  lemma {:induction false} InsertSorted<T(!new)>(le: (T, T) -> bool, a: T, xs: seq<T>)
    requires TotalPreorder(le) && Sorted(le, xs)
    ensures Sorted(le, Insert(le, a, xs))
    ensures forall x :: x in Insert(le, a, xs) <==> x == a || x in xs
  {
    if xs != [] && !le(a, xs[0]) {
      InsertSorted(le, a, xs[1..]);
      var r := Insert(le, a, xs[1..]);
      forall x | x in r ensures le(xs[0], x) {
        if x != a {
          var k :| 0 <= k < |xs[1..]| && xs[1..][k] == x;
          assert xs[k + 1] == x;
        }
      }
    } else if xs != [] {
      forall j | 0 <= j < |xs| ensures le(a, xs[j]) {
        assert le(a, xs[0]);
        assert j > 0 ==> le(xs[0], xs[j]);
      }
    }
  }

  lemma {:induction false} SortSorted<T(!new)>(le: (T, T) -> bool, xs: seq<T>)
    requires TotalPreorder(le)
    ensures Sorted(le, Sort(le, xs))
  {
    if xs != [] {
      SortSorted(le, xs[1..]);
      InsertSorted(le, xs[0], Sort(le, xs[1..]));
    }
  }

  /** Insertions of elements with different keys commute. */
  lemma {:induction false} InsertCommutes<T(!new)>(le: (T, T) -> bool, a: T, b: T, xs: seq<T>)
    requires TotalPreorder(le) && !le(a, b)
    ensures Insert(le, a, Insert(le, b, xs)) == Insert(le, b, Insert(le, a, xs))
  {
    assert le(b, a);
    if xs != [] {
      if !le(a, xs[0]) && !le(b, xs[0]) {
        InsertCommutes(le, a, b, xs[1..]);
      }
    }
  }

  /** The elements of xs inserted from the last to the first. */
  function InsertAll<T>(le: (T, T) -> bool, xs: seq<T>, ys: seq<T>): seq<T> {
    if xs == [] then ys else Insert(le, xs[0], InsertAll(le, xs[1..], ys))
  }

  lemma {:induction false} InsertAllInsert<T(!new)>(le: (T, T) -> bool, a: T, xs: seq<T>, ys: seq<T>)
    requires TotalPreorder(le)
    ensures InsertAll(le, Insert(le, a, xs), ys) == Insert(le, a, InsertAll(le, xs, ys))
  {
    if xs == [] || le(a, xs[0]) {
      assert ([a] + xs)[1..] == xs;
    } else {
      InsertAllInsert(le, a, xs[1..], ys);
      InsertCommutes(le, a, xs[0], InsertAll(le, xs[1..], ys));
    }
  }

  lemma {:induction false} InsertAllSort<T(!new)>(le: (T, T) -> bool, xs: seq<T>, ys: seq<T>)
    requires TotalPreorder(le)
    ensures InsertAll(le, Sort(le, xs), ys) == InsertAll(le, xs, ys)
  {
    if xs != [] {
      InsertAllInsert(le, xs[0], Sort(le, xs[1..]), ys);
      InsertAllSort(le, xs[1..], ys);
    }
  }

  lemma {:induction false} SortAppend<T(!new)>(le: (T, T) -> bool, xs: seq<T>, ys: seq<T>)
    ensures Sort(le, xs + ys) == InsertAll(le, xs, Sort(le, ys))
  {
    if xs == [] {
      assert xs + ys == ys;
    } else {
      SortAppend(le, xs[1..], ys);
      var zs := xs + ys;
      assert zs[0] == xs[0] && zs[1..] == xs[1..] + ys;
    }
  }

  /** Presorting any part of the input does not change the stable sort of the whole. */
  lemma {:induction false} SortAbsorbsPresorting<T(!new)>(le: (T, T) -> bool, xs: seq<T>, ys: seq<T>)
    requires TotalPreorder(le)
    ensures Sort(le, Sort(le, xs) + ys) == Sort(le, xs + ys)
    ensures Sort(le, xs + Sort(le, ys)) == Sort(le, xs + ys)
    ensures Sort(le, Sort(le, xs)) == Sort(le, xs)
  {
    SortAppend(le, Sort(le, xs), ys);
    SortAppend(le, xs, ys);
    InsertAllSort(le, xs, Sort(le, ys));
    SortAppend(le, xs, Sort(le, ys));
    SortTwice(le, xs);
    SortTwice(le, ys);
  }

  /** In a sorted list, what must not precede an element stands behind it. */
  lemma SortedSeparates<T(!new)>(le: (T, T) -> bool, xs: seq<T>, i: nat, j: nat)
    requires TotalPreorder(le) && Sorted(le, xs) && i < |xs| && j < |xs| && !le(xs[j], xs[i])
    ensures i < j
  {
  }

  lemma {:induction false} SortTwice<T(!new)>(le: (T, T) -> bool, xs: seq<T>)
    requires TotalPreorder(le)
    ensures Sort(le, Sort(le, xs)) == Sort(le, xs)
  {
    SortAppend(le, Sort(le, xs), []);
    SortAppend(le, xs, []);
    assert Sort(le, xs) + [] == Sort(le, xs) && xs + [] == xs;
    InsertAllSort(le, xs, []);
  }

  /** Presorting the parts of a concatenation does not change its stable sort. */
  lemma {:induction false} SortPrepend<T(!new)>(le: (T, T) -> bool, xs: seq<T>, ys: seq<T>, zs: seq<T>)
    requires TotalPreorder(le) && Sort(le, ys) == Sort(le, zs)
    ensures Sort(le, xs + ys) == Sort(le, xs + zs)
    ensures Sort(le, Sort(le, xs) + ys) == Sort(le, xs + zs)
  {
    SortAbsorbsPresorting(le, xs, ys);
    SortAbsorbsPresorting(le, xs, zs);
  }

  lemma {:induction false} FilterInsert<T(!new)>(le: (T, T) -> bool, p: T -> bool, a: T, xs: seq<T>)
    requires TotalPreorder(le) && Sorted(le, xs)
    ensures Filter(p, Insert(le, a, xs)) == if p(a) then Insert(le, a, Filter(p, xs)) else Filter(p, xs)
  {
    if xs == [] || le(a, xs[0]) {
      assert ([a] + xs)[1..] == xs;
      var kept := Filter(p, xs);
      if kept != [] {
        FilterMembers(p, xs);
        assert kept[0] in kept;
        var k :| 0 <= k < |xs| && xs[k] == kept[0];
        assert le(a, xs[0]) && (k > 0 ==> le(xs[0], xs[k]));
        assert le(a, kept[0]);
      }
    } else {
      FilterInsert(le, p, a, xs[1..]);
      assert Insert(le, a, xs)[1..] == Insert(le, a, xs[1..]);
      if p(xs[0]) {
        assert Filter(p, xs)[1..] == Filter(p, xs[1..]);
      }
    }
  }

  /** Sorting and filtering commute. */
  lemma {:induction false} FilterSort<T(!new)>(le: (T, T) -> bool, p: T -> bool, xs: seq<T>)
    requires TotalPreorder(le)
    ensures Filter(p, Sort(le, xs)) == Sort(le, Filter(p, xs))
  {
    if xs != [] {
      FilterSort(le, p, xs[1..]);
      SortSorted(le, xs[1..]);
      FilterInsert(le, p, xs[0], Sort(le, xs[1..]));
    }
  }

  lemma {:induction false} SortOfSorted<T(!new)>(le: (T, T) -> bool, xs: seq<T>)
    requires Sorted(le, xs)
    ensures Sort(le, xs) == xs
  {
    if xs != [] {
      SortOfSorted(le, xs[1..]);
    }
  }

  /** The elements that tie with k. */
  function TiedWith<T>(le: (T, T) -> bool, k: T): T -> bool {
    (x: T) => le(x, k) && le(k, x)
  }

  /** Elements with the key of k appear in the result in their original order. */
  lemma {:induction false} SortIsStable<T(!new)>(le: (T, T) -> bool, k: T, xs: seq<T>)
    requires TotalPreorder(le)
    ensures var sameKey := TiedWith(le, k);
            Filter(sameKey, Sort(le, xs)) == Filter(sameKey, xs)
  {
    var sameKey := TiedWith(le, k);
    FilterSort(le, sameKey, xs);
    var same := Filter(sameKey, xs);
    FilterMembers(sameKey, xs);
    assert Sorted(le, same) by {
      forall i, j | 0 <= i < j < |same| ensures le(same[i], same[j]) {
        assert same[i] in same && same[j] in same;
        assert sameKey(same[i]) && sameKey(same[j]);
      }
    }
    SortOfSorted(le, same);
  }
}
