/** What a stream of deltas reads: plain fragments run together, and snapshots replace what they repeat. */
module StreamedText {
  import opened Text
  import opened ContentDelta

  // ---- White space and line ends ---------------------------------------------------------

  /** White space, character by character. */
  lemma WhiteSpaceIs(c: char)
    ensures IsSpace(c)
            <==> c in {'\t', '\n', '\U{0b}', '\U{0c}', '\r', ' ', '\U{a0}', '\U{1680}', '\U{2000}', '\U{2001}', '\U{2002}', '\U{2003}',
                       '\U{2004}', '\U{2005}', '\U{2006}', '\U{2007}', '\U{2008}', '\U{2009}', '\U{200a}', '\U{2028}', '\U{2029}',
                       '\U{202f}', '\U{205f}', '\U{3000}', '\U{feff}'}
  {
  }

  /** Containment: at the front, at the end, in the middle, and of nothing in anything. */
  lemma {:induction false} IncludesIff(s: string, t: string)
    ensures Includes(s, t) <==> exists a, b :: s == a + t + b
    ensures EndsWith(s, t) <==> exists a :: s == a + t
  {
    if Includes(s, t) {
      var i: nat :| i <= |s| && OccursAt(s, t, i);
      assert s == s[..i] + t + s[i + |t|..];
    }
    if a, b :| s == a + t + b {
      assert OccursAt(s, t, |a|);
    }
    if EndsWith(s, t) {
      assert s == s[..|s| - |t|] + t;
    }
  }

  /** The white space that typing brings, and some characters that are none. */
  lemma WhiteSpaceExamples()
    ensures Trim(" \t a b\r\n ") == "a b" && Trim(" \t\r\n") == ""
    ensures !IsSpace('a') && !IsSpace('0') && !IsSpace('.') && !IsSpace('_')
  {
    hide Trim;
    assert " \t a b\r\n " == " \t " + "a b" + "\r\n ";
    TrimAround(" \t ", "a b", "\r\n ");
    TrimIsSolid(" \t\r\n");
  }

  /** Normalising turns the first CRLF into a line feed and goes on behind it; text without CRLF stays as it is. */
  lemma {:induction false} NormalizeSplits(a: string, b: string)
    requires !HasCrlf(a)
    ensures NormalizeNewlines(a + "\r\n" + b) == a + "\n" + NormalizeNewlines(b)
    ensures NormalizeNewlines(a) == a
    decreases |a|
  {
    var s := a + "\r\n" + b;
    NormalizeWithoutCrlf(a);
    if a == [] {
      assert s[2..] == b && CrlfAt(s, 0);
    } else {
      assert s[0] == a[0] && s[1..] == a[1..] + "\r\n" + b;
      assert !CrlfAt(a, 0) && !CrlfAt(s, 0);
      forall i: nat | CrlfAt(a[1..], i) ensures false {
        assert CrlfAt(a, i + 1);
      }
      NormalizeSplits(a[1..], b);
      assert [a[0]] + (a[1..] + "\n" + NormalizeNewlines(b)) == a + "\n" + NormalizeNewlines(b);
    }
  }

  // ---- Fragments ------------------------------------------------------------------------------

  /** The normalised deltas one behind the other. */
  function Concat(deltas: seq<string>): string {
    if deltas == [] then "" else Concat(deltas[..|deltas| - 1]) + NormalizeNewlines(deltas[|deltas| - 1])
  }

  /** The delta goes on from the text: it says something, its words are not there yet, and it does not repeat all of the text. */
  ghost predicate GoesOn(text: string, delta: string) {
    && Core(delta) != [] && !Includes(text, Core(delta))
    && (Trim(text) != [] ==> !(Trim(text) <= TrimStart(NormalizeNewlines(delta))))
  }

  /** Every delta goes on from the ones before. */
  ghost predicate Fragments(deltas: seq<string>) {
    forall k | 0 <= k < |deltas| :: GoesOn(Concat(deltas[..k]), deltas[k])
  }

  lemma {:induction false} TrimStartOfConcat(a: string, b: string)
    ensures Trim(a) != [] ==> TrimStart(a + b) == TrimStart(a) + b
    ensures Trim(a) == [] ==> TrimStart(a + b) == TrimStart(b)
  {
    TrimIsSolid(a);
    TrimStartSpan(a);
    TrimStartSpan(b);
    TrimStartSpan(a + b);
    var i := |a| - |TrimStart(a)|;
    var j := |b| - |TrimStart(b)|;
    var k := |a + b| - |TrimStart(a + b)|;
    if Trim(a) != [] {
      assert i < |a| by { NotBlankStarts(a); }
      assert (a + b)[i] == a[i];
      assert forall n | 0 <= n < i :: (a + b)[n] == a[n];
      assert k == i;
      assert (a + b)[i..] == a[i..] + b;
    } else {
      assert forall n | 0 <= n < |a| :: (a + b)[n] == a[n];
      assert forall n | 0 <= n < |b| :: (a + b)[|a| + n] == b[n];
      assert k == |a| + j;
      assert (a + b)[|a| + j..] == b[j..];
    }
  }

  lemma {:induction false} NotBlankStarts(s: string)
    requires Trim(s) != []
    ensures TrimStart(s) != []
  {
  }

  /** A fragment is put behind what is there, with its own white space. */
  lemma {:induction false} FragmentAppends(text: string, delta: string)
    requires GoesOn(text, delta)
    ensures AppendDelta(TrimStart(text), delta) == TrimStart(text + NormalizeNewlines(delta))
  {
    hide NormalizeNewlines, Trim, TrimStart;
    var n, content := NormalizeNewlines(delta), TrimStart(text);
    TrimOfTrimStart(text);
    TrimStartOfConcat(text, n);
    if Includes(content, Trim(n)) {
      StartIncluded(text);
      IncludesTransitive(text, content, Trim(n));
    }
    if EndsWith(content, n) {
      IncludesSlice(content, |content| - |n|, |content|);
      assert content[|content| - |n|..|content|] == n;
      IncludesTrimmed(n);
      IncludesTransitive(content, n, Trim(n));
    }
  }

  lemma {:induction false} StartIncluded(s: string)
    ensures Includes(s, TrimStart(s))
  {
    TrimStartSpan(s);
    var a := |s| - |TrimStart(s)|;
    IncludesSlice(s, a, |s|);
    assert s[a..|s|] == s[a..];
  }

  /** Fragments run together: the stream reads as their plain concatenation, without the white space in front. */
  lemma {:induction false} FragmentsConcatenate(deltas: seq<string>)
    requires Fragments(deltas)
    ensures AppendAll("", deltas) == TrimStart(Concat(deltas))
  {
    hide GoesOn, AppendDelta, NormalizeNewlines, TrimStart;
    if deltas == [] {
      assert TrimStart("") == "" by { NothingToStrip(); }
    } else {
      var init, last := deltas[..|deltas| - 1], deltas[|deltas| - 1];
      assert deltas == init + [last];
      forall k | 0 <= k < |init| ensures GoesOn(Concat(init[..k]), init[k]) {
        assert init[..k] == deltas[..k] && init[k] == deltas[k];
      }
      FragmentsConcatenate(init);
      AppendAllLast("", init, last);
      FragmentAppends(Concat(init), last);
    }
  }

  lemma NothingToStrip()
    ensures TrimStart("") == ""
  {
  }

  /** Behind any content: a fragment that goes on from it is appended as it is. */
  lemma {:induction false} FragmentBehind(content: string, delta: string)
    requires GoesOn(content, delta) && Trim(content) != []
    ensures AppendDelta(content, delta) == content + NormalizeNewlines(delta)
  {
    hide NormalizeNewlines, Trim, TrimStart;
    var n := NormalizeNewlines(delta);
    if EndsWith(content, n) {
      IncludesSlice(content, |content| - |n|, |content|);
      assert content[|content| - |n|..|content|] == n;
      IncludesTrimmed(n);
      IncludesTransitive(content, n, Trim(n));
    }
  }

  /** A snapshot that says more than the content it repeats replaces it, and so does any text over white space. */
  lemma {:induction false} SnapshotReplaces(content: string, snapshot: string)
    requires !Holds(content, snapshot) && Trim(content) <= TrimStart(NormalizeNewlines(snapshot))
    ensures AppendDelta(content, snapshot) == TrimStart(NormalizeNewlines(snapshot))
  {
    hide NormalizeNewlines, Trim, TrimStart;
    var n := NormalizeNewlines(snapshot);
    if EndsWith(content, n) {
      IncludesSlice(content, |content| - |n|, |content|);
      assert content[|content| - |n|..|content|] == n;
      IncludesTrimmed(n);
      IncludesTransitive(content, n, Trim(n));
    }
  }

  /** The three cases of a delta are all there are: absorbed, a snapshot, or appended. */
  lemma {:induction false} DeltaTrichotomy(content: string, delta: string)
    ensures AppendDelta(content, delta)
            == if Holds(content, delta) then content
               else if Trim(content) <= TrimStart(NormalizeNewlines(delta)) then TrimStart(NormalizeNewlines(delta))
               else content + NormalizeNewlines(delta)
  {
    hide NormalizeNewlines, Trim, TrimStart, AppendDelta;
    AbsorbedIff(content, delta);
    if !Holds(content, delta) {
      if Trim(content) <= TrimStart(NormalizeNewlines(delta)) {
        SnapshotReplaces(content, delta);
      } else {
        FragmentBehind(content, delta);
      }
    }
  }
}
