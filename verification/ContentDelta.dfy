/** appendAssistantContentDelta: merging streamed text that may arrive repeatedly or as snapshots. */
module ContentDelta {
  import opened Text

  predicate CrlfAt(s: string, i: nat) {
    i + 1 < |s| && s[i] == '\r' && s[i + 1] == '\n'
  }

  /** delta.replace(/\r\n/g, "\n") */
  function NormalizeNewlines(s: string): (r: string)
    ensures |r| <= |s|
  {
    if CrlfAt(s, 0) then ['\n'] + NormalizeNewlines(s[2..])
    else if s == [] then []
    else [s[0]] + NormalizeNewlines(s[1..])
  }

  function AppendDelta(existing: string, delta: string): string {
    var text := NormalizeNewlines(delta);
    if Trim(text) == [] then existing
    else if EndsWith(existing, text) then existing
    else if Includes(existing, Trim(text)) then existing
    else if Trim(existing) != [] && Trim(existing) <= TrimStart(text) then TrimStart(text)
    else if Trim(existing) == [] then TrimStart(text)
    else existing + text
  }

  /** The deltas one after the other. */
  function AppendAll(content: string, deltas: seq<string>): string
    decreases |deltas|
  {
    if deltas == [] then content else AppendAll(AppendDelta(content, deltas[0]), deltas[1..])
  }

  // ---- Redelivery ------------------------------------------------------------------

  /** What of a delta has to be found in the content for the delta to be there. */
  function Core(delta: string): string {
    Trim(NormalizeNewlines(delta))
  }

  ghost predicate Holds(content: string, delta: string) {
    Core(delta) == [] || Includes(content, Core(delta))
  }

  /** A delta changes nothing exactly when it is blank or its trimmed text is in the content already. */
  lemma AbsorbedIff(content: string, delta: string)
    ensures AppendDelta(content, delta) == content <==> Holds(content, delta)
  {
    hide NormalizeNewlines, Trim, TrimStart, TrimEnd, Solid, Blank;
    var text := NormalizeNewlines(delta);
    IncludesTrimmed(text);
    TrimIsSolid(content);
    TrimIsSolid(text);
    if EndsWith(content, text) {
      IncludesSlice(content, |content| - |text|, |content|);
      assert content[|content| - |text|..|content|] == text;
      IncludesTransitive(content, text, Trim(text));
    }
  }

  /** Solid text found in the content is still there after any further delta. */
  lemma IncludedStays(content: string, delta: string, t: string)
    requires Solid(t) && Includes(content, t)
    ensures Includes(AppendDelta(content, delta), t)
  {
    var text, r := NormalizeNewlines(delta), AppendDelta(content, delta);
    SolidWithinTrim(content, t);
    if r == content + text {
      IncludesSlice(r, 0, |content|);
      assert r[0..|content|] == content;
      IncludesTransitive(r, content, t);
    } else if r != content {
      assert Trim(content) != [] by {
        var i: nat :| i <= |Trim(content)| && OccursAt(Trim(content), t, i);
      }
      IncludesSlice(r, 0, |Trim(content)|);
      assert r[0..|Trim(content)|] == Trim(content);
      IncludesTransitive(r, Trim(content), t);
    }
  }

  lemma HoldsStays(content: string, delta: string, other: string)
    requires Holds(content, other)
    ensures Holds(AppendDelta(content, delta), other)
  {
    if Core(other) != [] {
      TrimIsSolid(NormalizeNewlines(other));
      IncludedStays(content, delta, Core(other));
    }
  }

  lemma AppendedHolds(content: string, delta: string)
    ensures Holds(AppendDelta(content, delta), delta)
  {
    var text, r := NormalizeNewlines(delta), AppendDelta(content, delta);
    IncludesTrimmed(text);
    if r == content {
      AbsorbedIff(content, delta);
    } else if r == content + text {
      IncludesSlice(r, |content|, |r|);
      assert r[|content|..|r|] == text;
      IncludesTransitive(r, text, Trim(text));
    }
  }

  lemma {:induction false} HoldsStaysAll(content: string, deltas: seq<string>, other: string)
    requires Holds(content, other)
    ensures Holds(AppendAll(content, deltas), other)
    decreases |deltas|
  {
    if deltas != [] {
      HoldsStays(content, deltas[0], other);
      HoldsStaysAll(AppendDelta(content, deltas[0]), deltas[1..], other);
    }
  }

  lemma {:induction false} AppendedAllHold(content: string, deltas: seq<string>)
    ensures forall d | d in deltas :: Holds(AppendAll(content, deltas), d)
    decreases |deltas|
  {
    if deltas != [] {
      var next := AppendDelta(content, deltas[0]);
      AppendedHolds(content, deltas[0]);
      HoldsStaysAll(next, deltas[1..], deltas[0]);
      AppendedAllHold(next, deltas[1..]);
    }
  }

  lemma {:induction false} AllHeldAreAbsorbed(content: string, again: seq<string>)
    requires forall d | d in again :: Holds(content, d)
    ensures AppendAll(content, again) == content
    decreases |again|
  {
    if again != [] {
      AbsorbedIff(content, again[0]);
      AllHeldAreAbsorbed(content, again[1..]);
    }
  }

  /** Redelivering deltas in any order and any number of times leaves the content alone. */
  lemma {:induction false} RedeliveryAbsorbed(content: string, deltas: seq<string>, again: seq<string>)
    requires forall d | d in again :: d in deltas
    ensures AppendAll(AppendAll(content, deltas), again) == AppendAll(content, deltas)
  {
    AppendedAllHold(content, deltas);
    AllHeldAreAbsorbed(AppendAll(content, deltas), again);
  }

  // ---- Cumulative snapshots -------------------------------------------------------------

  /** Every snapshot starts with the trimmed text of the one before. */
  ghost predicate Cumulative(snapshots: seq<string>) {
    forall i | 0 < i < |snapshots| :: Core(snapshots[i - 1]) <= TrimStart(NormalizeNewlines(snapshots[i]))
  }

  /** One snapshot that extends the content replaces it. */
  lemma {:induction false} SnapshotStep(content: string, snapshot: string)
    requires Trim(content) <= TrimStart(NormalizeNewlines(snapshot))
    ensures Trim(AppendDelta(content, snapshot)) == Core(snapshot)
  {
    var text, r := NormalizeNewlines(snapshot), AppendDelta(content, snapshot);
    TrimOfTrimStart(text);
    TrimIsSolid(content);
    TrimIsSolid(text);
    if Trim(content) != [] {
      PrefixOfTrim(Trim(content), text);
      if r == content {
        AbsorbedIff(content, snapshot);
        SolidWithinTrim(content, Trim(text));
        var i: nat :| i <= |Trim(content)| && OccursAt(Trim(content), Trim(text), i);
        assert |Trim(content)| == |Trim(text)|;
      }
    } else if r == content {
      AbsorbedIff(content, snapshot);
      if Core(snapshot) != [] {
        SolidWithinTrim(content, Trim(text));
      }
    }
  }

  lemma {:induction false} AppendAllLast(content: string, deltas: seq<string>, last: string)
    ensures AppendAll(content, deltas + [last]) == AppendDelta(AppendAll(content, deltas), last)
    decreases |deltas|
  {
    var all := deltas + [last];
    if deltas == [] {
      assert all[0] == last && all[1..] == [];
    } else {
      AppendAllLast(AppendDelta(content, deltas[0]), deltas[1..], last);
      assert all[0] == deltas[0] && all[1..] == deltas[1..] + [last];
    }
  }

  /** From empty content a cumulative stream ends as its last snapshot, up to outer white space. */
  lemma {:induction false} SnapshotsCollapse(snapshots: seq<string>)
    requires Cumulative(snapshots) && snapshots != []
    ensures Trim(AppendAll([], snapshots)) == Core(snapshots[|snapshots| - 1])
  {
    var init, last := snapshots[..|snapshots| - 1], snapshots[|snapshots| - 1];
    assert snapshots == init + [last];
    AppendAllLast([], init, last);
    if init != [] {
      assert forall i | 0 <= i < |init| :: init[i] == snapshots[i];
      SnapshotsCollapse(init);
      assert Core(init[|init| - 1]) <= TrimStart(NormalizeNewlines(last));
    }
    SnapshotStep(AppendAll([], init), last);
  }

  // ---- The first delta of a message -----------------------------------------------------------

  /** Content made from the first delta is trimmed but, unlike merged content, not normalised. */
  function FirstContent(delta: string): string {
    TrimStart(delta)
  }

  ghost predicate HasCrlf(s: string) {
    exists i: nat :: CrlfAt(s, i)
  }

  lemma {:induction false} NormalizeAppend(x: string, y: string)
    requires !(x != [] && y != [] && x[|x| - 1] == '\r' && y[0] == '\n')
    ensures NormalizeNewlines(x + y) == NormalizeNewlines(x) + NormalizeNewlines(y)
    decreases |x|
  {
    var z, n := x + y, NormalizeNewlines(y);
    if x == [] {
      assert z == y;
    } else {
      var k, c := if CrlfAt(x, 0) then 2 else 1, if CrlfAt(x, 0) then ['\n'] else [x[0]];
      var rest := NormalizeNewlines(x[k..]);
      NormalizeAppend(x[k..], y);
      assert CrlfAt(z, 0) == CrlfAt(x, 0) && z[k..] == x[k..] + y;
      assert NormalizeNewlines(z) == c + (rest + n);
      assert c + (rest + n) == (c + rest) + n;
    }
  }

  lemma {:induction false} NormalizeWithoutCrlf(s: string)
    requires !HasCrlf(s)
    ensures NormalizeNewlines(s) == s
    decreases |s|
  {
    if s != [] {
      assert !CrlfAt(s, 0);
      forall i: nat | CrlfAt(s[1..], i) ensures false {
        assert CrlfAt(s, i + 1);
      }
      NormalizeWithoutCrlf(s[1..]);
    }
  }

  lemma {:induction false} NormalizeKeepsBlank(s: string)
    requires Blank(s)
    ensures Blank(NormalizeNewlines(s))
    decreases |s|
  {
    if CrlfAt(s, 0) {
      NormalizeKeepsBlank(s[2..]);
    } else if s != [] {
      NormalizeKeepsBlank(s[1..]);
    }
  }

  lemma {:induction false} NormalizeKeepsLast(s: string)
    requires s != []
    ensures NormalizeNewlines(s) != [] && NormalizeNewlines(s)[|NormalizeNewlines(s)| - 1] == s[|s| - 1]
    decreases |s|
  {
    if CrlfAt(s, 0) {
      if |s| > 2 {
        NormalizeKeepsLast(s[2..]);
      }
    } else if |s| > 1 {
      NormalizeKeepsLast(s[1..]);
    }
  }

  lemma {:induction false} NormalizeKeepsSolid(t: string)
    requires Solid(t)
    ensures Solid(NormalizeNewlines(t))
  {
    NormalizeKeepsLast(t);
    assert NormalizeNewlines(t)[0] == t[0];
  }

  /** Normalising and trimming commute. */
  lemma CoreOfSolid(delta: string)
    requires Trim(delta) != []
    ensures Core(delta) == NormalizeNewlines(Trim(delta))
  {
    var a, b := TrimSpan(delta);
    var w, t, v := delta[..a], delta[a..b], delta[b..];
    assert delta == w + t + v;
    NormalizeAppend(w + t, v);
    NormalizeAppend(w, t);
    NormalizeKeepsBlank(w);
    NormalizeKeepsBlank(v);
    NormalizeKeepsSolid(t);
    TrimAround(NormalizeNewlines(w), NormalizeNewlines(t), NormalizeNewlines(v));
  }

  function LineFeeds(s: string): nat {
    if s == [] then 0 else (if s[0] == '\n' then 1 else 0) + LineFeeds(s[1..])
  }

  lemma {:induction false} LineFeedsAppend(a: string, b: string)
    ensures LineFeeds(a + b) == LineFeeds(a) + LineFeeds(b)
  {
    var z := a + b;
    if a == [] {
      assert z == b;
    } else {
      LineFeedsAppend(a[1..], b);
      assert z[0] == a[0] && z[1..] == a[1..] + b;
    }
  }

  lemma {:induction false} NoLineFeeds(s: string)
    requires LineFeeds(s) == 0
    ensures forall k | 0 <= k < |s| :: s[k] != '\n'
  {
    if s != [] {
      NoLineFeeds(s[1..]);
      forall k | 0 < k < |s| ensures s[k] != '\n' {
        assert s[k] == s[1..][k - 1];
      }
    }
  }

  lemma {:induction false} NormalizeKeepsLineFeeds(s: string)
    ensures LineFeeds(NormalizeNewlines(s)) == LineFeeds(s)
    decreases |s|
  {
    if CrlfAt(s, 0) {
      assert s[1..][0] == s[1] && s[1..][1..] == s[2..];
      assert LineFeeds(s) == LineFeeds(s[1..]);
      NormalizeKeepsLineFeeds(s[2..]);
    } else if s != [] {
      NormalizeKeepsLineFeeds(s[1..]);
    }
  }

  lemma {:induction false} FirstCrlf(s: string, i: nat) returns (j: nat)
    requires CrlfAt(s, i)
    ensures CrlfAt(s, j) && !HasCrlf(s[..j])
    decreases i
  {
    if HasCrlf(s[..i]) {
      var k: nat :| CrlfAt(s[..i], k);
      j := FirstCrlf(s, k);
    } else {
      j := i;
    }
  }

  /** Up to the first CRLF normalising copies; there it writes the line feed. */
  lemma {:induction false} NormalizeUpToCrlf(t: string, j: nat)
    requires CrlfAt(t, j) && !HasCrlf(t[..j])
    ensures |NormalizeNewlines(t)| > j && NormalizeNewlines(t)[..j] == t[..j] && NormalizeNewlines(t)[j] == '\n'
  {
    assert t == t[..j] + t[j..];
    assert t[j..][0] == '\r' && t[j..][1] == '\n';
    NormalizeAppend(t[..j], t[j..]);
    NormalizeWithoutCrlf(t[..j]);
  }

  /** A window that repeats the text before position j at a distance of i has no line feed before j either. */
  lemma {:induction false} NoEarlyLineFeed(t: string, i: nat, j: nat, k: nat)
    requires k < j && i + j <= |t| && i > 0
    requires forall m | 0 <= m < i :: m < |t| ==> t[m] != '\n'
    requires forall m | 0 <= m < j :: t[i + m] == t[m]
    ensures t[k] != '\n'
    decreases k
  {
    if k >= i {
      NoEarlyLineFeed(t, i, j, k - i);
      assert t[i + (k - i)] == t[k - i];
    }
  }

  lemma ShiftIsOne(t: string, i: nat, j: nat)
    requires CrlfAt(t, j) && 0 < i <= j + 1 && i + j <= |t|
    requires forall m | 0 <= m < i :: t[m] != '\n'
    requires forall m | 0 <= m < j :: t[i + m] == t[m]
    ensures i == 1
  {
    if i > 1 {
      NoEarlyLineFeed(t, i, j, j + 1 - i);
    }
  }

  lemma WindowReads(t: string, n: string, i: nat)
    requires OccursAt(t, n, i)
    ensures forall m | 0 <= m < |n| :: t[i + m] == n[m]
  {
    forall m | 0 <= m < |n| ensures t[i + m] == n[m] {
      assert t[i..i + |n|][m] == t[i + m];
    }
  }

  lemma {:induction false} WindowHasAllLineFeeds(t: string, n: string, i: nat)
    requires OccursAt(t, n, i) && LineFeeds(n) == LineFeeds(t)
    ensures forall m | 0 <= m < i :: t[m] != '\n'
  {
    assert t == t[..i] + (n + t[i + |n|..]);
    LineFeedsAppend(t[..i], n + t[i + |n|..]);
    LineFeedsAppend(n, t[i + |n|..]);
    NoLineFeeds(t[..i]);
    assert forall m | 0 <= m < i :: t[..i][m] == t[m];
  }

  /** Text with a CRLF does not contain its own normalised form. */
  lemma {:induction false} NormalFormNotInside(t: string)
    requires t != [] && t[0] != '\r' && HasCrlf(t)
    ensures !Includes(t, NormalizeNewlines(t))
  {
    var n := NormalizeNewlines(t);
    if Includes(t, n) {
      var c: nat :| CrlfAt(t, c);
      var j := FirstCrlf(t, c);
      var i: nat :| i <= |t| && OccursAt(t, n, i);
      NormalizeUpToCrlf(t, j);
      NormalizeKeepsLineFeeds(t);
      WindowHasAllLineFeeds(t, n, i);
      WindowReads(t, n, i);
      forall m | 0 <= m < j ensures t[i + m] == t[m] {
        assert n[m] == n[..j][m] == t[..j][m];
      }
      assert t[i + j] == '\n';
      ShiftIsOne(t, i, j);
      AllEqualFirst(t, j);
    }
  }

  lemma {:induction false} AllEqualFirst(t: string, j: nat)
    requires j < |t| && forall m | 0 <= m < j :: t[1 + m] == t[m]
    ensures t[j] == t[0]
    decreases j
  {
    if j > 0 {
      AllEqualFirst(t, j - 1);
      assert t[1 + (j - 1)] == t[j - 1];
    }
  }

  /** Redelivering a message's first delta is absorbed exactly when its trimmed text has no CRLF. */
  lemma FirstRedeliveryIff(delta: string)
    ensures AppendDelta(FirstContent(delta), delta) == FirstContent(delta) <==> !HasCrlf(Trim(delta))
  {
    var t := Trim(delta);
    TrimIsSolid(delta);
    AbsorbedIff(FirstContent(delta), delta);
    TrimOfTrimStart(delta);
    if t == [] {
      NormalizeKeepsBlank(delta);
      TrimIsSolid(NormalizeNewlines(delta));
    } else {
      CoreOfSolid(delta);
      NormalizeKeepsSolid(t);
      SolidWithinTrim(FirstContent(delta), Core(delta));
      if HasCrlf(t) {
        NormalFormNotInside(t);
      } else {
        NormalizeWithoutCrlf(t);
        IncludesSlice(t, 0, |t|);
        assert t[0..|t|] == t;
      }
    }
  }
}
