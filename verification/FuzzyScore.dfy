/** The score of a file against a search query. */
module FuzzyScore {
  import opened Seqs
  import opened Text

  // ---- Bytes and characters --------------------------------------------------------------

  /** char::len_utf8 */
  function Utf8Length(c: char): (n: nat)
    ensures 1 <= n <= 4
  {
    if c as int < 0x80 then 1 else if c as int < 0x800 then 2 else if c as int < 0x10000 then 3 else 4
  }

  /** Examples of one to four bytes. */
  lemma Utf8Examples()
    ensures ByteLength("az09/.") == 6 && ByteLength("\U{e9}") == 2 && ByteLength("\U{601d}") == 3 && ByteLength("\U{1f600}") == 4
    ensures Utf8Length('\U{7f}') == 1 && Utf8Length('\U{80}') == 2 && Utf8Length('\U{7ff}') == 2 && Utf8Length('\U{800}') == 3
    ensures Utf8Length('\U{ffff}') == 3 && Utf8Length('\U{10000}') == 4
  {
    assert "az09/."[..5] == "az09/" && "az09/"[..4] == "az09" && "az09"[..3] == "az0" && "az0"[..2] == "az" && "az"[..1] == "a" && "a"[..0] == "";
    assert ByteLength("a") == 1 && ByteLength("az") == 2 && ByteLength("az0") == 3 && ByteLength("az09") == 4;
    assert "\U{e9}"[..0] == "" && "\U{601d}"[..0] == "" && "\U{1f600}"[..0] == "";
  }

  /** str::len: the length in bytes. */
  function ByteLength(s: string): nat {
    if s == [] then 0 else ByteLength(s[..|s| - 1]) + Utf8Length(s[|s| - 1])
  }

  lemma {:induction false} ByteLengthAppend(s: string, t: string)
    ensures ByteLength(s + t) == ByteLength(s) + ByteLength(t)
  {
    if t == [] {
      assert s + t == s;
    } else {
      ByteLengthAppend(s, t[..|t| - 1]);
      assert (s + t)[..|s + t| - 1] == s + t[..|t| - 1];
    }
  }

  lemma ByteLengthSplit(s: string, i: nat, j: nat)
    requires i <= j <= |s|
    ensures ByteLength(s[..j]) == ByteLength(s[..i]) + ByteLength(s[i..j])
  {
    assert s[..j] == s[..i] + s[i..j];
    ByteLengthAppend(s[..i], s[i..j]);
  }

  /** The byte offset starts a character, or ends the string: slicing there does not panic. */
  predicate OnBoundary(s: string, offset: nat) {
    exists i :: 0 <= i <= |s| && ByteLength(s[..i]) == offset
  }

  /** The string behind a byte offset: &s[offset..]. */
  function Behind(s: string, offset: nat): string
    requires OnBoundary(s, offset)
  {
    BoundariesDiffer(s);
    var i :| 0 <= i <= |s| && ByteLength(s[..i]) == offset;
    s[i..]
  }

  lemma BoundariesDiffer(s: string)
    ensures forall i, j | 0 <= i <= |s| && 0 <= j <= |s| && ByteLength(s[..i]) == ByteLength(s[..j]) :: i == j
  {
    forall i, j | 0 <= i < j <= |s| ensures ByteLength(s[..i]) < ByteLength(s[..j]) {
      ByteLengthSplit(s, i, j);
      assert s[i..j] != [];
    }
  }

  /** The first position of c at or behind from. */
  function FirstAt(s: string, from: nat, c: char): (r: Option<nat>)
    requires from <= |s|
    ensures r.Some? ==> from <= r.value < |s| && s[r.value] == c && c !in s[from..r.value]
    ensures r.None? ==> c !in s[from..]
    decreases |s| - from
  {
    if from == |s| then None
    else if s[from] == c then Some(from)
    else
      var r := FirstAt(s, from + 1, c);
      assert s[from..] == [s[from]] + s[from + 1..];
      assert r.Some? ==> s[from..r.value] == [s[from]] + s[from + 1..r.value];
      r
  }

  /** str::find: the byte offset of the first occurrence. */
  function Find(s: string, c: char): Option<nat> {
    match FirstAt(s, 0, c)
    case Some(i) => Some(ByteLength(s[..i]))
    case None => None
  }

  // ---- Embeddings -------------------------------------------------------------------------

  /** Ascending positions at which the characters of query occur in path. */
  ghost predicate Embedding(path: string, from: nat, query: string, ps: seq<nat>) {
    && |ps| == |query|
    && (forall i | 0 <= i < |ps| :: from <= ps[i] < |path| && path[ps[i]] == query[i])
    && (forall i, j | 0 <= i < j < |ps| :: ps[i] < ps[j])
  }

  ghost predicate Subsequence(query: string, path: string) {
    exists ps :: Embedding(path, 0, query, ps)
  }

  /** The bytes skipped before and between the matched characters. */
  function Gaps(path: string, from: nat, ps: seq<nat>): nat
    requires forall i | 0 <= i < |ps| :: from <= ps[i] < |path|
    requires forall i, j | 0 <= i < j < |ps| :: ps[i] < ps[j]
    decreases |ps|
  {
    if |ps| == 0 then 0 else
    assert from <= ps[0] < |path|;
    ByteLength(path[from..ps[0]]) + Gaps(path, ps[0] + 1, ps[1..])
  }

  ghost predicate LeastGaps(path: string, query: string, gaps: int) {
    && (exists ps :: Embedding(path, 0, query, ps) && Gaps(path, 0, ps) == gaps)
    && (forall ps | Embedding(path, 0, query, ps) :: gaps <= Gaps(path, 0, ps))
  }

  /** Matching every character at its first chance. */
  function Greedy(path: string, from: nat, query: string): Option<seq<nat>>
    requires from <= |path|
    decreases |query|
  {
    if query == [] then Some([])
    else
      match FirstAt(path, from, query[0])
      case None => None
      case Some(i) =>
        match Greedy(path, i + 1, query[1..])
        case None => None
        case Some(rest) => Some([i] + rest)
  }

  lemma {:induction false} GreedyEmbeds(path: string, from: nat, query: string)
    requires from <= |path| && Greedy(path, from, query).Some?
    ensures Embedding(path, from, query, Greedy(path, from, query).value)
    decreases |query|
  {
    if query != [] {
      var i := FirstAt(path, from, query[0]).value;
      GreedyEmbeds(path, i + 1, query[1..]);
    }
  }

  /** The greedy match is never behind any other. */
  lemma {:induction false} GreedyStaysAhead(path: string, from: nat, later: nat, query: string, ps: seq<nat>)
    requires from <= later <= |path| && Embedding(path, later, query, ps)
    ensures Greedy(path, from, query).Some?
    ensures var best := Greedy(path, from, query).value; |best| == |ps| && forall i | 0 <= i < |ps| :: best[i] <= ps[i]
    decreases |query|
  {
    if query != [] {
      assert path[ps[0]] == query[0];
      assert path[ps[0]] == path[from..][ps[0] - from];
      var i := FirstAt(path, from, query[0]).value;
      GreedyStaysAhead(path, i + 1, ps[0] + 1, query[1..], ps[1..]);
    }
  }

  lemma RestEmbeds(path: string, from: nat, query: string, ps: seq<nat>)
    requires from <= |path| && Embedding(path, from, query, ps) && |ps| > 0
    ensures query != [] && path[ps[0]] == query[0] && ps[0] < ps[|ps| - 1] + 1 <= |path| && from <= ps[0]
    ensures Embedding(path, ps[0] + 1, query[1..], ps[1..])
    ensures Gaps(path, from, ps) == ByteLength(path[from..ps[0]]) + Gaps(path, ps[0] + 1, ps[1..])
    ensures ps[1..] != [] ==> ps[1..][|ps[1..]| - 1] == ps[|ps| - 1]
  {
    hide ByteLength;
  }

  /** What is skipped is what lies before the last match, but for the other matches. */
  lemma {:induction false} GapsTelescope(path: string, from: nat, query: string, ps: seq<nat>)
    requires from <= |path| && Embedding(path, from, query, ps)
    ensures Gaps(path, from, ps) + ByteLength(query)
            == ByteLength(path[from..if ps == [] then from else ps[|ps| - 1] + 1])
    decreases |query|
  {
    if |ps| > 0 {
      hide ByteLength, Embedding, Gaps;
      RestEmbeds(path, from, query, ps);
      var i, tail, rest := ps[0], ps[1..], query[1..];
      var end, stop := ps[|ps| - 1] + 1, if tail == [] then i + 1 else tail[|tail| - 1] + 1;
      assert stop == end;
      GapsTelescope(path, i + 1, rest, tail);
      BytesAround(path, from, i, end);
      BytesOfFirst(query);
    }
  }

  lemma {:induction false} BytesOfFirst(s: string)
    requires s != []
    ensures ByteLength(s) == ByteLength([s[0]]) + ByteLength(s[1..])
  {
    hide ByteLength;
    assert s == [s[0]] + s[1..];
    ByteLengthAppend([s[0]], s[1..]);
  }

  lemma BytesAround(s: string, from: nat, i: nat, end: nat)
    requires from <= i < end <= |s|
    ensures ByteLength(s[from..end]) == ByteLength(s[from..i]) + ByteLength([s[i]]) + ByteLength(s[i + 1..end])
  {
    hide ByteLength;
    assert s[from..end] == s[from..i] + ([s[i]] + s[i + 1..end]);
    ByteLengthAppend(s[from..i], [s[i]] + s[i + 1..end]);
    ByteLengthAppend([s[i]], s[i + 1..end]);
  }

  lemma BytesUpTo(s: string, i: nat, j: nat)
    requires i <= j <= |s|
    ensures ByteLength(s[0..i]) <= ByteLength(s[0..j])
  {
    ByteLengthSplit(s, i, j);
    assert s[0..i] == s[..i] && s[0..j] == s[..j];
  }

  lemma {:induction false} GreedyIsBest(path: string, query: string, ps: seq<nat>)
    requires Embedding(path, 0, query, ps)
    ensures Greedy(path, 0, query).Some? && Embedding(path, 0, query, Greedy(path, 0, query).value)
    ensures Gaps(path, 0, Greedy(path, 0, query).value) <= Gaps(path, 0, ps)
  {
    hide Greedy, Gaps, ByteLength;
    GreedyStaysAhead(path, 0, 0, query, ps);
    GreedyEmbeds(path, 0, query);
    var best := Greedy(path, 0, query).value;
    GapsTelescope(path, 0, query, best);
    GapsTelescope(path, 0, query, ps);
    if |ps| > 0 {
      BytesUpTo(path, best[|best| - 1] + 1, ps[|ps| - 1] + 1);
    }
  }

  lemma {:induction false} GreedyDecides(path: string, query: string)
    ensures Greedy(path, 0, query).Some? <==> Subsequence(query, path)
    ensures Greedy(path, 0, query).Some? ==>
              && Embedding(path, 0, query, Greedy(path, 0, query).value)
              && LeastGaps(path, query, Gaps(path, 0, Greedy(path, 0, query).value))
  {
    hide Greedy, Gaps;
    if Greedy(path, 0, query).Some? {
      GreedyEmbeds(path, 0, query);
      assert Embedding(path, 0, query, Greedy(path, 0, query).value);
    }
    forall ps | Embedding(path, 0, query, ps)
      ensures Greedy(path, 0, query).Some?
      ensures Gaps(path, 0, Greedy(path, 0, query).value) <= Gaps(path, 0, ps)
    {
      GreedyIsBest(path, query, ps);
    }
  }

  // ---- The score ------------------------------------------------------------------------------

  /** to_lowercase */
  type Lowercase = string -> string

  /** The score of a query found in one piece. */
  function PieceScore(path: string, name: string, query: string): int {
    if name == query then 400
    else if path == query then 360
    else if query <= name then 320 - ByteLength(name)
    else if query <= path then 280 - ByteLength(path)
    else if Includes(name, query) then 220 - ByteLength(name)
    else 180 - ByteLength(path)
  }

  /** The tiers: the whole name, the whole path, the front of the name, of the path, and within the name or the path. */
  lemma {:induction false} PieceScoreIs(path: string, name: string, query: string)
    ensures name == query ==> PieceScore(path, name, query) == 400
    ensures name != query && path == query ==> PieceScore(path, name, query) == 360
    ensures query < name && path != query ==> PieceScore(path, name, query) == 320 - ByteLength(name)
    ensures query < path && !(query <= name) ==> PieceScore(path, name, query) == 280 - ByteLength(path)
    ensures Includes(name, query) && !(query <= name) && !(query <= path) ==> PieceScore(path, name, query) == 220 - ByteLength(name)
    ensures Includes(path, query) && !Includes(name, query) && !(query <= name) && !(query <= path) ==>
              PieceScore(path, name, query) == 180 - ByteLength(path)
  {
    hide Includes, ByteLength;
  }

  predicate InOnePiece(path: string, name: string, query: string) {
    Includes(name, query) || Includes(path, query)
  }

  lemma PrefixIncluded(s: string, t: string)
    requires t <= s
    ensures Includes(s, t)
  {
    assert OccursAt(s, t, 0);
  }

  lemma PieceIsSubsequence(path: string, query: string)
    requires Includes(path, query)
    ensures Subsequence(query, path)
  {
    var i: nat :| i <= |path| && OccursAt(path, query, i);
    var ps := seq(|query|, k => i + k);
    forall k | 0 <= k < |ps| ensures path[ps[k]] == query[k] {
      assert path[i..i + |query|][k] == path[i + k];
    }
    assert Embedding(path, 0, query, ps);
  }

  /** When the name ends the path, whatever is found in the name is a subsequence of the path. */
  lemma NameMatchIsSubsequence(path: string, name: string, query: string)
    requires EndsWith(path, name) && Includes(name, query)
    ensures Subsequence(query, path)
  {
    assert OccursAt(path, name, |path| - |name|);
    IncludesTransitive(path, name, query);
    PieceIsSubsequence(path, query);
  }

  lemma {:induction false} FindBehind(s: string, from: nat, c: char)
    requires from <= |s|
    ensures Find(s[from..], c)
            == match FirstAt(s, from, c) case Some(i) => Some(ByteLength(s[from..i])) case None => None
  {
    var rest := s[from..];
    match FirstAt(s, from, c)
    case None =>
    case Some(i) =>
      assert rest[i - from] == c && rest[..i - from] == s[from..i];
      FirstAtUnique(rest, 0, c, i - from);
  }

  lemma {:induction false} FirstAtUnique(s: string, from: nat, c: char, i: nat)
    requires from <= i < |s| && s[i] == c && c !in s[from..i]
    ensures FirstAt(s, from, c) == Some(i)
    decreases i - from
  {
    if from < i {
      assert s[from..i] == [s[from]] + s[from + 1..i];
      FirstAtUnique(s, from + 1, c, i);
    }
  }

  function Joined(done: seq<nat>, rest: Option<seq<nat>>): Option<seq<nat>> {
    if rest.Some? then Some(done + rest.value) else None
  }

  /** One needle of the loop. */
  lemma GreedyStep(path: string, from: nat, query: string, done: seq<nat>)
    requires from <= |path| && query != [] && FirstAt(path, from, query[0]).Some?
    ensures var i := FirstAt(path, from, query[0]).value;
            Joined(done, Greedy(path, from, query)) == Joined(done + [i], Greedy(path, i + 1, query[1..]))
  {
    var i := FirstAt(path, from, query[0]).value;
    var rest := Greedy(path, i + 1, query[1..]);
    assert rest.Some? ==> done + ([i] + rest.value) == (done + [i]) + rest.value;
  }

  lemma BehindIs(s: string, from: nat)
    requires from <= |s|
    ensures OnBoundary(s, ByteLength(s[..from])) && Behind(s, ByteLength(s[..from])) == s[from..]
  {
    BoundariesDiffer(s);
  }

  lemma NextOffset(s: string, from: nat, i: nat)
    requires from <= i < |s|
    ensures ByteLength(s[..i + 1]) == ByteLength(s[..from]) + ByteLength(s[from..i]) + Utf8Length(s[i])
  {
    ByteLengthSplit(s, from, i);
    assert s[..i + 1][..i] == s[..i];
  }

  /**
   The loop of workspace_search_score: the gap total of the greedy match, or None when a needle is
   not found. last_index stays on a character boundary throughout.
   */
  method GapTotal(haystack: string, queryLower: string) returns (total: Option<int>)
    ensures total.Some? <==> Subsequence(queryLower, haystack)
    ensures total.Some? ==> LeastGaps(haystack, queryLower, total.value)
  {
    hide Greedy, ByteLength, FirstAt, Behind, OnBoundary, Find, LeastGaps, Subsequence, Embedding, Gaps;
    GreedyDecides(haystack, queryLower);
    var lastIndex, gaps := 0, 0;
    ghost var from: nat, done: seq<nat> := 0, [];
    assert ByteLength([]) == 0 by { NoBytes(); }
    assert queryLower[0..] == queryLower && haystack[..0] == [] && queryLower[..0] == [];
    assert Joined([], Greedy(haystack, 0, queryLower)) == Greedy(haystack, 0, queryLower) by { JoinedNone(Greedy(haystack, 0, queryLower)); }
    for n := 0 to |queryLower|
      invariant from <= |haystack| && lastIndex == ByteLength(haystack[..from])
      invariant Greedy(haystack, 0, queryLower) == Joined(done, Greedy(haystack, from, queryLower[n..]))
      invariant from == if done == [] then 0 else done[|done| - 1] + 1
      invariant gaps + ByteLength(queryLower[..n]) == lastIndex
    {
      var needle := queryLower[n];
      assert queryLower[n..][0] == needle && queryLower[n..][1..] == queryLower[n + 1..];
      BehindIs(haystack, from);
      var remainder := Behind(haystack, lastIndex);
      FindBehind(haystack, from, needle);
      match Find(remainder, needle) {
        case None =>
          GreedyFails(haystack, from, queryLower[n..]);
          return None;
        case Some(index) =>
          ghost var i := FirstAt(haystack, from, needle).value;
          GreedyStep(haystack, from, queryLower[n..], done);
          NextOffset(haystack, from, i);
          OneMoreByte(queryLower, n);
          gaps := gaps + index;
          lastIndex := lastIndex + (index + Utf8Length(needle));
          from, done := i + 1, done + [i];
      }
    }
    assert queryLower[|queryLower|..] == [] && queryLower[..|queryLower|] == queryLower;
    LoopTotal(haystack, queryLower, from, done);
    total := Some(gaps);
  }

  lemma NoBytes()
    ensures ByteLength([]) == 0
  {
  }

  lemma JoinedNone(rest: Option<seq<nat>>)
    ensures Joined([], rest) == rest
  {
    assert rest.Some? ==> [] + rest.value == rest.value;
  }

  lemma OneMoreByte(s: string, n: nat)
    requires n < |s|
    ensures ByteLength(s[..n + 1]) == ByteLength(s[..n]) + Utf8Length(s[n])
  {
    assert s[..n + 1][..n] == s[..n];
  }

  lemma {:induction false} GreedyFails(path: string, from: nat, query: string)
    requires from <= |path| && query != [] && FirstAt(path, from, query[0]).None?
    ensures Greedy(path, from, query).None?
  {
  }

  lemma {:induction false} LoopTotal(path: string, query: string, from: nat, done: seq<nat>)
    requires from <= |path| && from == (if done == [] then 0 else done[|done| - 1] + 1)
    requires Greedy(path, 0, query) == Joined(done, Greedy(path, from, []))
    ensures Greedy(path, 0, query).Some? && Embedding(path, 0, query, Greedy(path, 0, query).value)
    ensures Gaps(path, 0, Greedy(path, 0, query).value) + ByteLength(query) == ByteLength(path[..from])
  {
    assert done + [] == done;
    GreedyEmbeds(path, 0, query);
    GapsTelescope(path, 0, query, done);
    assert path[0..from] == path[..from];
  }

  /**
   workspace_search_score. A file matches exactly when its name contains the query or the query is a
   subsequence of its path; without a match in one piece the score falls with the least possible gaps.
   */
  method WorkspaceSearchScore(lower: Lowercase, path: string, name: string, query: string) returns (score: Option<int>)
    ensures query == "" ==> score == Some(0)
    ensures query != "" ==> (score.Some? <==> Includes(lower(name), lower(query)) || Subsequence(lower(query), lower(path)))
    ensures query != "" && EndsWith(lower(path), lower(name)) ==> (score.Some? <==> Subsequence(lower(query), lower(path)))
    ensures query != "" && InOnePiece(lower(path), lower(name), lower(query)) ==>
              score == Some(PieceScore(lower(path), lower(name), lower(query)))
    ensures query != "" && !InOnePiece(lower(path), lower(name), lower(query)) && score.Some? ==>
              LeastGaps(lower(path), lower(query), 120 - ByteLength(lower(path)) - score.value)
  {
    hide Includes, Subsequence, LeastGaps, ByteLength;
    if query == "" {
      return Some(0);
    }
    var haystack, nameHaystack, queryLower := lower(path), lower(name), lower(query);
    PieceFacts(haystack, nameHaystack, queryLower);
    if EndsWith(haystack, nameHaystack) && Includes(nameHaystack, queryLower) {
      NameMatchIsSubsequence(haystack, nameHaystack, queryLower);
    }
    if nameHaystack == queryLower {
      return Some(400);
    }
    if haystack == queryLower {
      return Some(360);
    }
    if queryLower <= nameHaystack {
      return Some(320 - ByteLength(nameHaystack));
    }
    if queryLower <= haystack {
      return Some(280 - ByteLength(haystack));
    }
    if Includes(nameHaystack, queryLower) {
      return Some(220 - ByteLength(nameHaystack));
    }
    if Includes(haystack, queryLower) {
      return Some(180 - ByteLength(haystack));
    }
    var total := GapTotal(haystack, queryLower);
    match total {
      case None => return None;
      case Some(gaps) => return Some(120 - gaps - ByteLength(haystack));
    }
  }

  lemma PieceFacts(path: string, name: string, query: string)
    ensures query <= name ==> Includes(name, query)
    ensures query <= path ==> Includes(path, query)
    ensures Includes(path, query) ==> Subsequence(query, path)
  {
    if query <= name { PrefixIncluded(name, query); }
    if query <= path { PrefixIncluded(path, query); }
    if Includes(path, query) { PieceIsSubsequence(path, query); }
  }
}
