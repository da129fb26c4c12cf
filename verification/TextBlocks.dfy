/** When a text delta stays out of tool, thinking and permission blocks. */
module TextBlocks {
  import opened Seqs
  import opened Text
  import ContentDelta
  import opened ChatMessages
  import opened MessageUpdates
  import opened BlockInvariants
  import opened PlainUpdates

  function ProtectedOnly(): ChatMessage -> bool {
    (m: ChatMessage) => Protected(m)
  }

  // ---- Counting protected messages -----------------------------------------------------

  lemma {:induction false} FilterSkips(p: ChatMessage -> bool, xs: seq<ChatMessage>, m: ChatMessage, ys: seq<ChatMessage>)
    ensures Filter(p, xs + ([m] + ys)) == if p(m) then Filter(p, xs) + ([m] + Filter(p, ys)) else Filter(p, xs) + Filter(p, ys)
  {
    FilterAppend(p, xs, [m] + ys);
    assert ([m] + ys)[1..] == ys;
  }

  /** Writing a message that does not satisfy p takes one away exactly when it replaces one that does. */
  lemma {:induction false} ReplaceCounts(p: ChatMessage -> bool, xs: seq<ChatMessage>, i: nat, m: ChatMessage)
    requires i < |xs| && !p(m)
    ensures if p(xs[i]) then |Filter(p, xs[i := m])| < |Filter(p, xs)| else Filter(p, xs[i := m]) == Filter(p, xs)
  {
    hide Filter;
    var front, rest := xs[..i], xs[i + 1..];
    assert xs == front + ([xs[i]] + rest);
    assert xs[i := m] == front + ([m] + rest);
    FilterSkips(p, front, xs[i], rest);
    FilterSkips(p, front, m, rest);
  }

  lemma {:induction false} AppendSpares(p: ChatMessage -> bool, xs: seq<ChatMessage>, m: ChatMessage)
    requires !p(m)
    ensures Filter(p, xs + [m]) == Filter(p, xs)
  {
    assert Filter(p, [m]) == [];
    FilterAppend(p, xs, [m]);
  }

  /** Filtering by q first loses an element of p exactly when q drops one. */
  lemma {:induction false} FilterDrops(p: ChatMessage -> bool, q: ChatMessage -> bool, ms: seq<ChatMessage>)
    ensures |Filter(p, Filter(q, ms))| <= |Filter(p, ms)|
    ensures Filter(p, Filter(q, ms)) == Filter(p, ms) <==> forall m | m in ms && p(m) :: q(m)
    ensures (exists m :: m in ms && p(m) && !q(m)) ==> |Filter(p, Filter(q, ms))| < |Filter(p, ms)|
  {
    if ms != [] {
      var rest := ms[1..];
      FilterDrops(p, q, rest);
      assert ms == [ms[0]] + rest;
      assert Filter(q, ms) == if q(ms[0]) then [ms[0]] + Filter(q, rest) else Filter(q, rest);
      if q(ms[0]) {
        assert ([ms[0]] + Filter(q, rest))[1..] == Filter(q, rest);
      }
    }
  }

  // ---- Text deltas ----------------------------------------------------------------------

  lemma UpdatedUnprotected(m: ChatMessage, d: TextDelta)
    ensures !Protected(TextUpdated(m, d))
  {
    hide TextTargetId, HasBlockIdentity, Truthy, ContentDelta.AppendDelta, ContentDelta.FirstContent;
  }

  lemma CreatedUnprotected(d: TextDelta)
    ensures !Protected(TextCreated(d))
  {
    hide TextCreated;
    TextBare(d);
  }

  /** The position of the message a text delta is written into, or -1. */
  function TextTarget(ms: seq<ChatMessage>, d: TextDelta): (i: int)
    ensures -1 <= i < |TextSource(ms, d)|
  {
    TargetIndex(TextSource(ms, d), TextTargetId(d), d.sessionId, d.taskId, !HasBlockIdentity(d))
  }

  /** Removing the empty base message removes no protected block. */
  ghost predicate BaseUnprotected(ms: seq<ChatMessage>, d: TextDelta) {
    HasBlockIdentity(d) && Trim(d.messageId) != [] ==> forall m | m in ms && Protected(m) :: NotEmptyBase(d)(m)
  }

  predicate TargetUnprotected(ms: seq<ChatMessage>, d: TextDelta) {
    TextTarget(ms, d) >= 0 ==> !Protected(TextSource(ms, d)[TextTarget(ms, d)])
  }

  lemma {:induction false} SourceSpares(ms: seq<ChatMessage>, d: TextDelta)
    ensures |Filter(ProtectedOnly(), TextSource(ms, d))| <= |Filter(ProtectedOnly(), ms)|
    ensures Filter(ProtectedOnly(), TextSource(ms, d)) == Filter(ProtectedOnly(), ms) <==> BaseUnprotected(ms, d)
    ensures !BaseUnprotected(ms, d) ==> |Filter(ProtectedOnly(), TextSource(ms, d))| < |Filter(ProtectedOnly(), ms)|
  {
    hide Filter, Protected, NotEmptyBase, HasBlockIdentity, Trim;
    FilterDrops(ProtectedOnly(), NotEmptyBase(d), ms);
  }

  /**
   A text delta leaves the sequence of tool, thinking and permission blocks exactly as it was if and
   only if the message it is written into is none of them and the empty base it removes is none either.
   */
  lemma {:induction false} TextSparesIff(ms: seq<ChatMessage>, d: TextDelta)
    ensures Filter(ProtectedOnly(), AppendTextDelta(ms, d)) == Filter(ProtectedOnly(), ms)
            <==> TargetUnprotected(ms, d) && BaseUnprotected(ms, d)
  {
    hide TextUpdated, TextCreated, TextSource, TargetIndex, Filter, Protected, TextTargetId, HasBlockIdentity, BaseUnprotected;
    var source, i := TextSource(ms, d), TextTarget(ms, d);
    SourceSpares(ms, d);
    if i >= 0 {
      UpdatedUnprotected(source[i], d);
      ReplaceCounts(ProtectedOnly(), source, i, TextUpdated(source[i], d));
    } else {
      CreatedUnprotected(d);
      AppendSpares(ProtectedOnly(), source, TextCreated(d));
    }
  }

  /** A delta that names a protected block does write into it. */
  lemma {:induction false} NamedBlockIsWritten(m: ChatMessage, d: TextDelta)
    requires Protected(m) && m.id == TextTargetId(d) && !HasBlockIdentity(d)
    ensures Filter(ProtectedOnly(), AppendTextDelta([m], d)) != Filter(ProtectedOnly(), [m])
  {
    hide Protected, TextTargetId, HasBlockIdentity, Filter, TextUpdated;
    TextSparesIff([m], d);
  }
}
