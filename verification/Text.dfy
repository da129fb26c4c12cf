/**
 The JavaScript string operations the chat code uses: trim, trimStart, includes,
 endsWith and the CRLF normalisation. Strings are sequences of characters, and
 white space is the set that String.prototype.trim removes.
 */
module Text {

  predicate IsSpace(c: char) {
    var n := c as int;
    || 9 <= n <= 13
    || n == 0x20 || n == 0xA0 || n == 0x1680
    || 0x2000 <= n <= 0x200A
    || n == 0x2028 || n == 0x2029 || n == 0x202F || n == 0x205F
    || n == 0x3000 || n == 0xFEFF
  }

  ghost predicate Blank(s: string) {
    forall i :: 0 <= i < |s| ==> IsSpace(s[i])
  }

  function TrimStart(s: string): (r: string)
    ensures |r| <= |s|
  {
    if s == [] || !IsSpace(s[0]) then s else TrimStart(s[1..])
  }

  function TrimEnd(s: string): (r: string)
    ensures |r| <= |s|
  {
    if s == [] || !IsSpace(s[|s| - 1]) then s else TrimEnd(s[..|s| - 1])
  }

  function Trim(s: string): (r: string)
    ensures |r| <= |s|
  {
    TrimEnd(TrimStart(s))
  }

  /** Non-empty text without outer white space. */
  ghost predicate Solid(t: string) {
    t != [] && !IsSpace(t[0]) && !IsSpace(t[|t| - 1])
  }

  lemma {:induction false} TrimStartSpan(s: string)
    ensures var a := |s| - |TrimStart(s)|;
            && TrimStart(s) == s[a..]
            && (forall i | 0 <= i < a :: IsSpace(s[i]))
            && (a < |s| ==> !IsSpace(s[a]))
  {
    if s != [] && IsSpace(s[0]) {
      TrimStartSpan(s[1..]);
      var b := |s[1..]| - |TrimStart(s[1..])|;
      forall i | 0 < i < b + 1 ensures IsSpace(s[i]) {
        assert s[i] == s[1..][i - 1];
      }
    }
  }

  lemma {:induction false} TrimEndSpan(s: string)
    ensures var b := |TrimEnd(s)|;
            && TrimEnd(s) == s[..b]
            && (forall i | b <= i < |s| :: IsSpace(s[i]))
            && (0 < b ==> !IsSpace(s[b - 1]))
  {
    if s != [] && IsSpace(s[|s| - 1]) {
      var init := s[..|s| - 1];
      TrimEndSpan(init);
      forall i | |TrimEnd(init)| <= i < |init| ensures IsSpace(s[i]) {
        assert s[i] == init[i];
      }
    }
  }

  /** Trim keeps s[a..b]: solid text, or nothing when all of s is white space. */
  lemma TrimSpan(s: string) returns (a: nat, b: nat)
    ensures a <= b <= |s| && Trim(s) == s[a..b] && TrimStart(s) == s[a..]
    ensures forall i | 0 <= i < |s| && !(a <= i < b) :: IsSpace(s[i])
    ensures a < b ==> Solid(s[a..b])
    ensures Blank(s) <==> a == b
  {
    var r := TrimStart(s);
    TrimStartSpan(s);
    TrimEndSpan(r);
    a := |s| - |r|;
    b := a + |TrimEnd(r)|;
    forall i | b <= i < |s| ensures IsSpace(s[i]) {
      assert s[i] == r[i - a];
    }
    if a < b {
      assert s[a..b][0] == s[a] && s[a..b][|s[a..b]| - 1] == r[b - a - 1];
    }
  }

  predicate EndsWith(s: string, t: string) {
    |t| <= |s| && s[|s| - |t|..] == t
  }

  predicate OccursAt(s: string, t: string, i: nat) {
    i + |t| <= |s| && s[i..i + |t|] == t
  }

  predicate Includes(s: string, t: string) {
    exists i: nat :: i <= |s| && OccursAt(s, t, i)
  }

  lemma IncludesTransitive(a: string, b: string, c: string)
    requires Includes(a, b) && Includes(b, c)
    ensures Includes(a, c)
  {
    var i: nat :| i <= |a| && OccursAt(a, b, i);
    var j: nat :| j <= |b| && OccursAt(b, c, j);
    forall k | 0 <= k < |c| ensures a[i + j + k] == c[k] {
      assert b[j + k] == b[j..j + |c|][k];
      assert a[i + (j + k)] == a[i..i + |b|][j + k];
    }
    assert a[i + j..i + j + |c|] == c;
    assert OccursAt(a, c, i + j);
  }

  lemma IncludesSlice(s: string, i: nat, j: nat)
    requires i <= j <= |s|
    ensures Includes(s, s[i..j])
  {
    assert OccursAt(s, s[i..j], i);
  }

  lemma {:induction false} IncludesTrimmed(s: string)
    ensures Includes(s, Trim(s)) && Includes(TrimStart(s), Trim(s))
  {
    var a, b := TrimSpan(s);
    IncludesSlice(s, a, b);
    assert s[a..][..b - a] == s[a..b];
    IncludesSlice(s[a..], 0, b - a);
  }

  lemma SliceOfSlice(s: string, a: nat, b: nat, i: nat, j: nat)
    requires a <= i <= j <= b <= |s|
    ensures s[a..b][i - a..j - a] == s[i..j]
  {
    assert forall k | 0 <= k < j - i :: s[a..b][i - a..j - a][k] == s[a..b][i - a + k] == s[i + k] == s[i..j][k];
  }

  /** Solid text never reaches into the outer white space. */
  lemma SolidWithinTrim(s: string, t: string)
    requires Solid(t)
    ensures Includes(s, t) <==> Includes(Trim(s), t)
  {
    var a, b := TrimSpan(s);
    if Includes(s, t) {
      var i: nat :| i <= |s| && OccursAt(s, t, i);
      var w := s[i..i + |t|];
      assert w[0] == s[i] && w[|t| - 1] == s[i + |t| - 1];
      assert a <= i && i + |t| <= b;
      SliceOfSlice(s, a, b, i, i + |t|);
      assert OccursAt(s[a..b], t, i - a);
    }
    if Includes(Trim(s), t) {
      IncludesTrimmed(s);
      IncludesTransitive(s, Trim(s), t);
    }
  }

  lemma TrimIsSolid(s: string)
    ensures Trim(s) != [] ==> Solid(Trim(s))
    ensures Trim(s) == [] <==> Blank(s)
  {
    var a, b := TrimSpan(s);
  }

  /** Trimming the start first does not change the trimmed text. */
  lemma {:induction false} TrimOfTrimStart(s: string)
    ensures Trim(TrimStart(s)) == Trim(s)
  {
    TrimStartSpan(s);
    var r := TrimStart(s);
    assert r == [] || r[0] == s[|s| - |r|];
  }

  /** Solid text at the front of the left-trimmed text is at the front of the trimmed text. */
  lemma {:induction false} PrefixOfTrim(t: string, s: string)
    requires Solid(t) && t <= TrimStart(s)
    ensures t <= Trim(s)
  {
    var a, b := TrimSpan(s);
    assert t == s[a..][..|t|];
    assert t[|t| - 1] == s[a + |t| - 1];
    assert s[a..b][..|t|] == t;
  }

  /** A string has one span between its outer white space. */
  lemma SpanUnique(s: string, i: nat, j: nat, k: nat, l: nat)
    requires i <= j <= |s| && k < l <= |s| && !IsSpace(s[k]) && !IsSpace(s[l - 1])
    requires forall n | 0 <= n < |s| && !(i <= n < j) :: IsSpace(s[n])
    requires forall n | 0 <= n < |s| && !(k <= n < l) :: IsSpace(s[n])
    requires i < j ==> Solid(s[i..j])
    ensures i == k && j == l
  {
    assert i <= k < j && i <= l - 1 < j;
    assert s[i..j][0] == s[i] && s[i..j][j - i - 1] == s[j - 1];
  }

  /** White space around solid text is what trimming removes. */
  lemma TrimAround(a: string, t: string, b: string)
    requires Blank(a) && Blank(b) && Solid(t)
    ensures Trim(a + t + b) == t
  {
    hide Trim, TrimStart, TrimEnd;
    var s := a + t + b;
    var i, j := TrimSpan(s);
    assert s[|a|] == t[0] && s[|a| + |t| - 1] == t[|t| - 1];
    assert forall k | 0 <= k < |a| :: s[k] == a[k];
    assert forall k | |a| + |t| <= k < |s| :: s[k] == b[k - |a| - |t|];
    SpanUnique(s, i, j, |a|, |a| + |t|);
    assert s[|a|..|a| + |t|] == t;
  }
}
