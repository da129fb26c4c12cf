/** The workspace file search: an explicit-stack walk of a directory tree and the best matches. */
module FileSearch {
  import opened Seqs
  import opened StableSort

  const SCAN_LIMIT := 20000

  datatype Metadata = Metadata(size: nat, modifiedAt: Option<int>)

  /** What reading a directory yields for one entry; children sit behind their directory. */
  datatype Entry =
    | Unreadable                                          // the entry or its type cannot be read
    | Symlink(name: string)
    | Directory(name: string, content: Content)
    | File(name: string, metadata: Option<Metadata>)      // None when the metadata cannot be read
    | Special(name: string)                               // neither file, directory nor link

  datatype Content = Closed | Open(entries: seq<Entry>)   // Closed when read_dir fails

  datatype FileAt = FileAt(path: string, name: string, metadata: Option<Metadata>)

  datatype Candidate = Candidate(score: int, file: FileAt)

  datatype SearchResult = Failed | Found(entries: seq<FileAt>, truncated: bool, scanned: nat)

  /** should_skip_workspace_search_dir */
  predicate Skipped(name: string) {
    || name == ".git" || name == ".hg" || name == ".svn" || name == ".idea" || name == ".vscode"
    || name == "node_modules" || name == "target" || name == "dist" || name == "build" || name == ".next"
    || name == ".nuxt" || name == ".turbo" || name == ".venv" || name == "venv" || name == "__pycache__"
  }

  /** relative_path_string */
  function Joined(components: seq<string>): string {
    if components == [] then ""
    else if |components| == 1 then components[0]
    else Joined(components[..|components| - 1]) + "/" + components[|components| - 1]
  }

  // ---- The files of a tree --------------------------------------------------------------------

  function DirectoryFiles(prefix: seq<string>, content: Content): seq<FileAt>
    decreases content, 0
  {
    if content.Closed? then [] else FilesIn(prefix, content.entries)
  }

  function FilesIn(prefix: seq<string>, entries: seq<Entry>): seq<FileAt>
    decreases entries, 0
  {
    if entries == [] then [] else EntryFiles(prefix, entries[0]) + FilesIn(prefix, entries[1..])
  }

  function EntryFiles(prefix: seq<string>, e: Entry): seq<FileAt>
    decreases e, 0
  {
    match e
    case File(name, metadata) => [FileAt(Joined(prefix + [name]), name, metadata)]
    case Directory(name, content) => if Skipped(name) then [] else DirectoryFiles(prefix + [name], content)
    case _ => []
  }

  /** The nodes of a tree, which bound the walk. */
  function Nodes(content: Content): nat
    decreases content, 0
  {
    1 + if content.Closed? then 0 else NodesIn(content.entries)
  }

  function NodesIn(entries: seq<Entry>): nat
    decreases entries, 0
  {
    if entries == [] then 0
    else (if entries[0].Directory? then Nodes(entries[0].content) else 0) + NodesIn(entries[1..])
  }

  datatype Frame = Frame(prefix: seq<string>, content: Content)

  function StackFiles(stack: seq<Frame>): seq<FileAt> {
    if stack == [] then []
    else StackFiles(stack[..|stack| - 1]) + DirectoryFiles(stack[|stack| - 1].prefix, stack[|stack| - 1].content)
  }

  function StackNodes(stack: seq<Frame>): nat {
    if stack == [] then 0 else StackNodes(stack[..|stack| - 1]) + Nodes(stack[|stack| - 1].content)
  }

  // ---- The matches and their order --------------------------------------------------------------

  type Scorer = (string, string) -> Option<int>

  /** The order of lower-cased paths: any total preorder of strings has this form. */
  type PathRank = string -> real

  function Matches(score: Scorer, files: seq<FileAt>): seq<Candidate> {
    if files == [] then []
    else
      var f := files[|files| - 1];
      Matches(score, files[..|files| - 1])
      + if score(f.path, f.name).Some? then [Candidate(score(f.path, f.name).value, f)] else []
  }

  /** Better scores first, then paths in order. */
  function Ahead(rank: PathRank): (Candidate, Candidate) -> bool {
    (a: Candidate, b: Candidate) => a.score > b.score || (a.score == b.score && rank(a.file.path) <= rank(b.file.path))
  }

  function FilesOf(candidates: seq<Candidate>): seq<FileAt> {
    seq(|candidates|, i requires 0 <= i < |candidates| => candidates[i].file)
  }

  function Clamp(maxEntries: Option<nat>): (limit: nat)
    ensures 1 <= limit <= 80
  {
    if maxEntries.None? then 24
    else if maxEntries.value < 1 then 1
    else if maxEntries.value > 80 then 80
    else maxEntries.value
  }

  /** a comes before b in the answer: it scores higher, or the same and its path does not rank behind. */
  predicate Better(rank: PathRank, a: Candidate, b: Candidate) {
    a.score > b.score || (a.score == b.score && rank(a.file.path) <= rank(b.file.path))
  }

  /** kept, in order, and dropped make up all, kept is full if anything was dropped, and nothing dropped is strictly ahead of it. */
  ghost predicate Divides(rank: PathRank, limit: nat, all: seq<Candidate>, kept: seq<Candidate>, dropped: seq<Candidate>) {
    && multiset(kept) + multiset(dropped) == multiset(all)
    && (forall i, j | 0 <= i < j < |kept| :: Better(rank, kept[i], kept[j]))
    && (forall k, d | k in kept && d in dropped :: Better(rank, k, d))
    && |kept| <= limit && (dropped != [] ==> |kept| == limit)
  }

  ghost predicate BestOf(rank: PathRank, limit: nat, all: seq<Candidate>, kept: seq<Candidate>) {
    exists dropped :: Divides(rank, limit, all, kept, dropped)
  }

  lemma AheadIsTotal(rank: PathRank)
    ensures TotalPreorder(Ahead(rank))
  {
  }

  lemma {:induction false} FirstAreBest(rank: PathRank, limit: nat, all: seq<Candidate>)
    ensures var sorted := Sort(Ahead(rank), all); BestOf(rank, limit, all, if |sorted| > limit then sorted[..limit] else sorted)
  {
    hide Sort;
    AheadIsTotal(rank);
    SortSorted(Ahead(rank), all);
    SortPermutes(Ahead(rank), all);
    var sorted := Sort(Ahead(rank), all);
    var cut := if |sorted| > limit then limit else |sorted|;
    var kept, dropped := sorted[..cut], sorted[cut..];
    assert sorted == kept + dropped;
    forall k, d | k in kept && d in dropped ensures Better(rank, k, d) {
      var i :| 0 <= i < cut && sorted[i] == k;
      var j :| cut <= j < |sorted| && sorted[j] == d;
    }
    assert Divides(rank, limit, all, kept, dropped);
    assert |sorted| <= limit ==> kept == sorted;
  }

  lemma {:induction false} CountMatches(score: Scorer, files: seq<FileAt>, c: Candidate)
    ensures multiset(Matches(score, files))[c] == if score(c.file.path, c.file.name) == Some(c.score) then multiset(files)[c.file] else 0
  {
    if files != [] {
      var init, f := files[..|files| - 1], files[|files| - 1];
      assert files == init + [f];
      CountMatches(score, init, c);
    }
  }

  /** The number of entries asked for: 24 by default, and between 1 and 80. */
  lemma ClampIs(n: nat)
    ensures Clamp(None) == 24 && (1 <= n <= 80 ==> Clamp(Some(n)) == n) && (n > 80 ==> Clamp(Some(n)) == 80) && Clamp(Some(0)) == 1
  {
  }

  /** Paths are joined with slashes. */
  lemma {:induction false} JoinedIs(prefix: seq<string>, name: string)
    ensures Joined(prefix + [name]) == if prefix == [] then name else Joined(prefix) + "/" + name
  {
    assert (prefix + [name])[..|prefix|] == prefix;
  }

  lemma SkippedIs(name: string)
    ensures Skipped(name) <==> name in {".git", ".hg", ".svn", ".idea", ".vscode", "node_modules", "target", "dist", "build", ".next",
                                        ".nuxt", ".turbo", ".venv", "venv", "__pycache__"}
  {
  }

  /** Down the directories dirs, all of them readable and none skipped, lies a file of this name and metadata. */
  ghost predicate LiesAt(content: Content, dirs: seq<string>, name: string, metadata: Option<Metadata>)
    decreases |dirs|
  {
    && content.Open?
    && if dirs == [] then File(name, metadata) in content.entries
       else !Skipped(dirs[0]) && exists c :: Directory(dirs[0], c) in content.entries && LiesAt(c, dirs[1..], name, metadata)
  }

  /** f is the file of this name down the directories dirs. */
  ghost predicate IsAt(f: FileAt, prefix: seq<string>, content: Content, dirs: seq<string>) {
    LiesAt(content, dirs, f.name, f.metadata) && f.path == Joined(prefix + dirs + [f.name])
  }

  /** The files of a tree are those that lie somewhere in it, outside skipped and unreadable directories. */
  lemma {:induction false} FilesIff(prefix: seq<string>, content: Content, f: FileAt)
    ensures f in DirectoryFiles(prefix, content) <==> exists dirs :: IsAt(f, prefix, content, dirs)
    decreases content, 1
  {
    hide Joined, Skipped;
    if content.Open? {
      forall e | e in content.entries ensures f in EntryFiles(prefix, e) <==> EntryHas(f, prefix, e) {
        EntryIff(prefix, e, f);
      }
      FilesInMembers(prefix, content.entries, f);
      if e :| e in content.entries && EntryHas(f, prefix, e) {
        if e.File? {
          assert prefix + [] + [f.name] == prefix + [f.name];
          assert IsAt(f, prefix, content, []);
        } else {
          var dirs :| IsAt(f, prefix + [e.name], e.content, dirs);
          PathBelow(prefix, e.name, dirs, f.name);
          assert ([e.name] + dirs)[1..] == dirs;
          assert IsAt(f, prefix, content, [e.name] + dirs);
        }
      }
      if dirs :| IsAt(f, prefix, content, dirs) {
        if dirs == [] {
          assert prefix + [] + [f.name] == prefix + [f.name];
          assert EntryHas(f, prefix, File(f.name, f.metadata));
        } else {
          var c :| Directory(dirs[0], c) in content.entries && LiesAt(c, dirs[1..], f.name, f.metadata);
          PathBelow(prefix, dirs[0], dirs[1..], f.name);
          assert [dirs[0]] + dirs[1..] == dirs;
          assert IsAt(f, prefix + [dirs[0]], c, dirs[1..]);
          assert EntryHas(f, prefix, Directory(dirs[0], c));
        }
      }
    }
  }

  lemma PathBelow(prefix: seq<string>, dir: string, dirs: seq<string>, name: string)
    ensures prefix + [dir] + dirs + [name] == prefix + ([dir] + dirs) + [name]
  {
  }

  /** The entry is the file, or a directory it lies in. */
  ghost predicate EntryHas(f: FileAt, prefix: seq<string>, e: Entry) {
    match e
    case File(name, metadata) => f == FileAt(Joined(prefix + [name]), name, metadata)
    case Directory(name, content) => !Skipped(name) && exists dirs :: IsAt(f, prefix + [name], content, dirs)
    case _ => false
  }

  lemma {:induction false} EntryIff(prefix: seq<string>, e: Entry, f: FileAt)
    ensures f in EntryFiles(prefix, e) <==> EntryHas(f, prefix, e)
    decreases e, 2
  {
    if e.Directory? {
      FilesIff(prefix + [e.name], e.content, f);
    }
  }

  lemma {:induction false} FilesInMembers(prefix: seq<string>, entries: seq<Entry>, f: FileAt)
    ensures f in FilesIn(prefix, entries) <==> exists e :: e in entries && f in EntryFiles(prefix, e)
  {
    hide EntryFiles;
    if entries != [] {
      var rest := entries[1..];
      FilesInMembers(prefix, rest, f);
      assert entries == [entries[0]] + rest;
      if f in FilesIn(prefix, rest) {
        var e :| e in rest && f in EntryFiles(prefix, e);
        assert e in entries;
      }
      if e :| e in entries && f in EntryFiles(prefix, e) {
        assert e == entries[0] || e in rest;
      }
    }
  }

  // ---- The walk -------------------------------------------------------------------------------------

  /** How a scan ends: directories still on the stack, files scanned, and entries left of the open directory. */
  datatype Scan = Scan(stack: seq<Frame>, visited: seq<FileAt>, prefix: seq<string>, unread: seq<Entry>)

  function FileOf(prefix: seq<string>, e: Entry): FileAt
    requires e.File?
  {
    FileAt(Joined(prefix + [e.name]), e.name, e.metadata)
  }

  /** One directory's entries, up to the limit. */
  function ScanEntries(prefix: seq<string>, entries: seq<Entry>, stack: seq<Frame>, visited: seq<FileAt>): (s: Scan)
    ensures visited <= s.visited
    decreases |entries|
  {
    if entries == [] || |visited| >= SCAN_LIMIT then Scan(stack, visited, prefix, entries)
    else
      var e, rest := entries[0], entries[1..];
      if e.File? then ScanEntries(prefix, rest, stack, visited + [FileOf(prefix, e)])
      else if e.Directory? && !Skipped(e.name) then
        ScanEntries(prefix, rest, stack + [Frame(prefix + [e.name], e.content)], visited)
      else ScanEntries(prefix, rest, stack, visited)
  }

  lemma {:induction false} PushNodes(stack: seq<Frame>, frame: Frame)
    ensures StackNodes(stack + [frame]) == StackNodes(stack) + Nodes(frame.content)
  {
    hide Nodes;
    assert (stack + [frame])[..|stack|] == stack;
  }

  lemma {:induction false} ScanShrinks(prefix: seq<string>, entries: seq<Entry>, stack: seq<Frame>, visited: seq<FileAt>)
    ensures StackNodes(ScanEntries(prefix, entries, stack, visited).stack) <= StackNodes(stack) + NodesIn(entries)
    decreases |entries|
  {
    hide StackNodes, Nodes, Skipped, Joined;
    if entries != [] && |visited| < SCAN_LIMIT {
      var e, rest := entries[0], entries[1..];
      if e.File? {
        ScanShrinks(prefix, rest, stack, visited + [FileOf(prefix, e)]);
      } else if e.Directory? && !Skipped(e.name) {
        var frame := Frame(prefix + [e.name], e.content);
        PushNodes(stack, frame);
        ScanShrinks(prefix, rest, stack + [frame], visited);
      } else {
        ScanShrinks(prefix, rest, stack, visited);
      }
    }
  }

  lemma PoppedNodes(stack: seq<Frame>)
    requires stack != []
    ensures var frame, rest := stack[|stack| - 1], stack[..|stack| - 1];
            StackNodes(stack) > StackNodes(rest) + if frame.content.Closed? then 0 else NodesIn(frame.content.entries)
  {
  }

  /** The directories of a stack, the last one first, until the limit is reached. */
  function Walk(stack: seq<Frame>, visited: seq<FileAt>): (s: Scan)
    requires |visited| < SCAN_LIMIT
    ensures visited <= s.visited
    decreases StackNodes(stack)
  {
    if stack == [] then Scan([], visited, [], [])
    else
      var frame, rest := stack[|stack| - 1], stack[..|stack| - 1];
      PoppedNodes(stack);
      if frame.content.Closed? then Walk(rest, visited)
      else
        var s := ScanEntries(frame.prefix, frame.content.entries, rest, visited);
        ScanShrinks(frame.prefix, frame.content.entries, rest, visited);
        if |s.visited| >= SCAN_LIMIT then s else Walk(s.stack, s.visited)
  }

  function Searched(root: Content): Scan {
    Walk([Frame([], root)], [])
  }

  // ---- What the walk covers ------------------------------------------------------------------------------

  lemma {:induction false} PushFiles(stack: seq<Frame>, frame: Frame)
    ensures StackFiles(stack + [frame]) == StackFiles(stack) + DirectoryFiles(frame.prefix, frame.content)
  {
    hide DirectoryFiles;
    assert (stack + [frame])[..|stack|] == stack;
  }

  /** Scanned files and files still to come, on the stack and in the open directory, make up all files. */
  ghost predicate Covers(all: multiset<FileAt>, s: Scan) {
    multiset(s.visited) + multiset(StackFiles(s.stack)) + multiset(FilesIn(s.prefix, s.unread)) == all
  }

  lemma {:induction false} CoversSkipping(all: multiset<FileAt>, s: Scan)
    requires Covers(all, s) && s.unread != [] && EntryFiles(s.prefix, s.unread[0]) == []
    ensures Covers(all, s.(unread := s.unread[1..]))
  {
    hide EntryFiles, StackFiles;
    assert [] + FilesIn(s.prefix, s.unread[1..]) == FilesIn(s.prefix, s.unread[1..]);
  }

  lemma {:induction false} CoversPushing(all: multiset<FileAt>, s: Scan)
    requires Covers(all, s) && s.unread != [] && s.unread[0].Directory? && !Skipped(s.unread[0].name)
    ensures var e := s.unread[0];
            Covers(all, s.(stack := s.stack + [Frame(s.prefix + [e.name], e.content)], unread := s.unread[1..]))
  {
    hide StackFiles, DirectoryFiles, Skipped;
    var frame := Frame(s.prefix + [s.unread[0].name], s.unread[0].content);
    PushFiles(s.stack, frame);
    assert EntryFiles(s.prefix, s.unread[0]) == DirectoryFiles(frame.prefix, frame.content);
    assert FilesIn(s.prefix, s.unread) == DirectoryFiles(frame.prefix, frame.content) + FilesIn(s.prefix, s.unread[1..]);
  }

  lemma {:induction false} CoversScanning(all: multiset<FileAt>, s: Scan)
    requires Covers(all, s) && s.unread != [] && s.unread[0].File?
    ensures Covers(all, s.(visited := s.visited + [FileOf(s.prefix, s.unread[0])], unread := s.unread[1..]))
  {
    hide StackFiles, Joined;
    assert EntryFiles(s.prefix, s.unread[0]) == [FileOf(s.prefix, s.unread[0])];
  }

  lemma {:induction false} ScanCovers(all: multiset<FileAt>, prefix: seq<string>, entries: seq<Entry>, stack: seq<Frame>, visited: seq<FileAt>)
    requires Covers(all, Scan(stack, visited, prefix, entries)) && |visited| <= SCAN_LIMIT
    ensures var s := ScanEntries(prefix, entries, stack, visited);
            Covers(all, s) && |s.visited| <= SCAN_LIMIT && s.prefix == prefix && (|s.visited| < SCAN_LIMIT ==> s.unread == [])
    decreases |entries|
  {
    hide Covers, FileOf, Skipped;
    if entries != [] && |visited| < SCAN_LIMIT {
      var e, rest, s := entries[0], entries[1..], Scan(stack, visited, prefix, entries);
      if e.File? {
        CoversScanning(all, s);
        ScanCovers(all, prefix, rest, stack, visited + [FileOf(prefix, e)]);
      } else if e.Directory? && !Skipped(e.name) {
        CoversPushing(all, s);
        ScanCovers(all, prefix, rest, stack + [Frame(prefix + [e.name], e.content)], visited);
      } else {
        CoversSkipping(all, s);
        ScanCovers(all, prefix, rest, stack, visited);
      }
    }
  }

  lemma {:induction false} CoversPopped(all: multiset<FileAt>, visited: seq<FileAt>, stack: seq<Frame>)
    requires Covers(all, Scan(stack, visited, [], [])) && stack != []
    ensures var frame, rest := stack[|stack| - 1], stack[..|stack| - 1];
            if frame.content.Closed? then Covers(all, Scan(rest, visited, [], []))
            else Covers(all, Scan(rest, visited, frame.prefix, frame.content.entries))
  {
    var frame, rest := stack[|stack| - 1], stack[..|stack| - 1];
    assert stack == rest + [frame];
    PushFiles(rest, frame);
    hide StackFiles;
  }

  lemma {:induction false} CoversClosing(all: multiset<FileAt>, s: Scan)
    requires Covers(all, s) && s.unread == []
    ensures Covers(all, Scan(s.stack, s.visited, [], []))
  {
  }

  lemma {:induction false} WalkCovers(all: multiset<FileAt>, stack: seq<Frame>, visited: seq<FileAt>)
    requires Covers(all, Scan(stack, visited, [], [])) && |visited| < SCAN_LIMIT
    ensures var s := Walk(stack, visited);
            Covers(all, s) && |s.visited| <= SCAN_LIMIT && (|s.visited| < SCAN_LIMIT ==> s.stack == [] && s.unread == [])
    decreases StackNodes(stack)
  {
    hide Covers, ScanEntries, StackNodes, NodesIn;
    if stack != [] {
      var frame, rest := stack[|stack| - 1], stack[..|stack| - 1];
      PoppedNodes(stack);
      CoversPopped(all, visited, stack);
      if frame.content.Closed? {
        WalkCovers(all, rest, visited);
      } else {
        var entries := frame.content.entries;
        var s := ScanEntries(frame.prefix, entries, rest, visited);
        ScanShrinks(frame.prefix, entries, rest, visited);
        ScanCovers(all, frame.prefix, entries, rest, visited);
        if |s.visited| < SCAN_LIMIT {
          CoversClosing(all, s);
          WalkCovers(all, s.stack, s.visited);
        }
      }
    }
  }

  lemma {:induction false} CoversStart(root: Content)
    ensures Covers(multiset(DirectoryFiles([], root)), Scan([Frame([], root)], [], [], []))
  {
    hide DirectoryFiles;
    var stack := [Frame([], root)];
    assert stack[..0] == [];
    assert StackFiles(stack) == [] + DirectoryFiles([], root);
    assert FilesIn([], []) == [];
  }

  lemma {:induction false} CoversAll(all: multiset<FileAt>, s: Scan)
    requires Covers(all, s)
    ensures multiset(s.visited) <= all
    ensures s.stack == [] && s.unread == [] ==> multiset(s.visited) == all
    ensures |s.visited| >= |all| ==> multiset(s.visited) == all
  {
    if |s.visited| >= |all| {
      SizesAdd(multiset(s.visited), multiset(StackFiles(s.stack)) + multiset(FilesIn(s.prefix, s.unread)));
    }
  }

  lemma SizesAdd(a: multiset<FileAt>, b: multiset<FileAt>)
    ensures |a + b| == |a| + |b|
    ensures |b| == 0 ==> a + b == a
  {
  }

  /**
   The walk scans some files of the tree, each once: all of them if and only if the tree has no more than
   the limit, and the limit's number of them otherwise.
   */
  lemma {:induction false} SearchCompleteIff(root: Content)
    ensures var files, visited := DirectoryFiles([], root), Searched(root).visited;
            && multiset(visited) <= multiset(files)
            && (multiset(visited) == multiset(files) <==> |files| <= SCAN_LIMIT)
            && |visited| == if |files| <= SCAN_LIMIT then |files| else SCAN_LIMIT
  {
    hide Covers, Walk, DirectoryFiles;
    var all, s := multiset(DirectoryFiles([], root)), Searched(root);
    CoversStart(root);
    WalkCovers(all, [Frame([], root)], []);
    CoversAll(all, s);
    assert |all| == |DirectoryFiles([], root)| && |multiset(s.visited)| == |s.visited|;
    SizesAdd(multiset(s.visited), all - multiset(s.visited));
    assert all == multiset(s.visited) + (all - multiset(s.visited));
  }

  // ---- Collecting the matches ---------------------------------------------------------------------------------

  lemma {:induction false} MatchesStep(score: Scorer, files: seq<FileAt>, f: FileAt)
    ensures Matches(score, files + [f])
            == Matches(score, files) + if score(f.path, f.name).Some? then [Candidate(score(f.path, f.name).value, f)] else []
  {
    assert (files + [f])[..|files|] == files;
  }

  predicate UnreadableMatch(score: Scorer, f: FileAt) {
    f.metadata.None? && score(f.path, f.name).Some?
  }

  /** A matched file has metadata that cannot be read. */
  predicate SomeMatchUnreadable(score: Scorer, files: seq<FileAt>) {
    exists f | f in files :: UnreadableMatch(score, f)
  }

  /** The candidates are the matches among the scanned files, all of which could be read. */
  ghost predicate Collected(score: Scorer, visited: seq<FileAt>, candidates: seq<Candidate>) {
    candidates == Matches(score, visited) && !SomeMatchUnreadable(score, visited)
  }

  lemma CollectedStart(score: Scorer)
    ensures Collected(score, [], [])
  {
  }

  lemma CollectedNext(score: Scorer, visited: seq<FileAt>, candidates: seq<Candidate>, f: FileAt)
    requires Collected(score, visited, candidates) && !UnreadableMatch(score, f)
    ensures Collected(score, visited + [f],
                      candidates + if score(f.path, f.name).Some? then [Candidate(score(f.path, f.name).value, f)] else [])
  {
    hide Matches;
    MatchesStep(score, visited, f);
  }

  lemma UnreadableStays(score: Scorer, some: seq<FileAt>, all: seq<FileAt>)
    requires SomeMatchUnreadable(score, some) && some <= all
    ensures SomeMatchUnreadable(score, all)
  {
    var f :| f in some && UnreadableMatch(score, f);
    assert f in all;
  }

  // ---- The methods ------------------------------------------------------------------------------------------------

  /** The loop over one directory's entries. failed says that a matched file's metadata could not be read. */
  method ScanDirectory(score: Scorer, directory: Frame, stack0: seq<Frame>, scanned0: nat, candidates0: seq<Candidate>,
                       ghost visited0: seq<FileAt>)
    returns (failed: bool, truncated: bool, stack: seq<Frame>, scanned: nat, candidates: seq<Candidate>)
    requires directory.content.Open? && scanned0 == |visited0| && Collected(score, visited0, candidates0)
    ensures var s := ScanEntries(directory.prefix, directory.content.entries, stack0, visited0);
            if failed then SomeMatchUnreadable(score, s.visited)
            else stack == s.stack && scanned == |s.visited| && (truncated <==> s.unread != []) && Collected(score, s.visited, candidates)
  {
    hide Collected, SomeMatchUnreadable, Skipped, Joined;
    var prefix, entries := directory.prefix, directory.content.entries;
    ghost var visited := visited0;
    failed, truncated, stack, scanned, candidates := false, false, stack0, scanned0, candidates0;
    assert entries[0..] == entries;
    var i := 0;
    while i < |entries|
      invariant 0 <= i <= |entries| && scanned == |visited| && Collected(score, visited, candidates)
      invariant !truncated && !failed
      invariant ScanEntries(prefix, entries[i..], stack, visited) == ScanEntries(prefix, entries, stack0, visited0)
    {
      if scanned >= SCAN_LIMIT {
        truncated := true;
        return;
      }
      var entry := entries[i];
      assert entries[i..][0] == entry && entries[i..][1..] == entries[i + 1..];
      i := i + 1;
      if entry.File? {
        scanned := scanned + 1;
        var file := FileOf(prefix, entry);
        var found := score(file.path, file.name);
        if found.Some? && entry.metadata.None? {
          UnreadableFound(score, visited + [file], file);
          UnreadableStays(score, visited + [file], ScanEntries(prefix, entries, stack0, visited0).visited);
          failed := true;
          return;
        }
        CollectedNext(score, visited, candidates, file);
        visited := visited + [file];
        if found.Some? {
          candidates := candidates + [Candidate(found.value, file)];
        } else {
          assert candidates + [] == candidates;
        }
      } else if entry.Directory? && !Skipped(entry.name) {
        stack := stack + [Frame(prefix + [entry.name], entry.content)];
      }
    }
    assert entries[i..] == [];
  }

  lemma UnreadableFound(score: Scorer, files: seq<FileAt>, f: FileAt)
    requires f in files && UnreadableMatch(score, f)
    ensures SomeMatchUnreadable(score, files)
  {
  }

  lemma {:induction false} CollectedMeans(score: Scorer, visited: seq<FileAt>, candidates: seq<Candidate>)
    requires Collected(score, visited, candidates)
    ensures candidates == Matches(score, visited) && !SomeMatchUnreadable(score, visited)
  {
  }

  /**
   workspace_file_search. It fails exactly when a scanned match cannot be read; otherwise the entries are
   the best of the scanned matches, and truncated is set exactly when entries of the open directory were
   left unread or matches were dropped. All files were scanned if and only if there are no more than the
   limit.
   */
  method WorkspaceFileSearch(root: Content, score: Scorer, rank: PathRank, maxEntries: Option<nat>) returns (result: SearchResult)
    ensures var s := Searched(root);
            if SomeMatchUnreadable(score, s.visited) then result == Failed
            else
              && result.Found? && result.scanned == |s.visited|
              && (result.truncated <==> s.unread != [] || |Matches(score, s.visited)| > Clamp(maxEntries))
              && (exists kept :: BestOf(rank, Clamp(maxEntries), Matches(score, s.visited), kept) && result.entries == FilesOf(kept))
    ensures result.Found? ==>
              (multiset(Searched(root).visited) == multiset(DirectoryFiles([], root)) <==> |DirectoryFiles([], root)| <= SCAN_LIMIT)
  {
    hide Collected, DirectoryFiles, ScanEntries, Nodes, NodesIn, StackNodes, SomeMatchUnreadable, BestOf, Sort;
    var limit := Clamp(maxEntries);
    var scanned := 0;
    var truncated := false;
    var stack := [Frame([], root)];
    var candidates: seq<Candidate> := [];
    ghost var visited: seq<FileAt> := [];
    SearchCompleteIff(root);
    CollectedStart(score);
    while stack != []
      invariant scanned == |visited| < SCAN_LIMIT && !truncated && Collected(score, visited, candidates)
      invariant Walk(stack, visited) == Searched(root)
      decreases StackNodes(stack)
    {
      var directory := stack[|stack| - 1];
      PoppedNodes(stack);
      stack := stack[..|stack| - 1];
      if directory.content.Closed? {
        continue;
      }
      ghost var s := ScanEntries(directory.prefix, directory.content.entries, stack, visited);
      ScanShrinks(directory.prefix, directory.content.entries, stack, visited);
      SmallScanReadsAll(directory.prefix, directory.content.entries, stack, visited);
      var failed;
      failed, truncated, stack, scanned, candidates := ScanDirectory(score, directory, stack, scanned, candidates, visited);
      if failed {
        UnreadableStays(score, s.visited, Searched(root).visited);
        return Failed;
      }
      visited := s.visited;
      if scanned >= SCAN_LIMIT {
        break;
      }
    }
    CollectedMeans(score, visited, candidates);
    FirstAreBest(rank, limit, candidates);
    candidates := Sort(Ahead(rank), candidates);
    if |candidates| > limit {
      truncated := true;
      candidates := candidates[..limit];
    }
    result := Found(FilesOf(candidates), truncated, scanned);
  }

  /** A scan below the limit leaves no entry of its directory unread. */
  lemma {:induction false} SmallScanReadsAll(prefix: seq<string>, entries: seq<Entry>, stack: seq<Frame>, visited: seq<FileAt>)
    ensures var s := ScanEntries(prefix, entries, stack, visited); |s.visited| < SCAN_LIMIT ==> s.unread == []
    decreases |entries|
  {
    hide Skipped, Joined;
    if entries != [] && |visited| < SCAN_LIMIT {
      var e, rest := entries[0], entries[1..];
      if e.File? {
        SmallScanReadsAll(prefix, rest, stack, visited + [FileOf(prefix, e)]);
      } else if e.Directory? && !Skipped(e.name) {
        SmallScanReadsAll(prefix, rest, stack + [Frame(prefix + [e.name], e.content)], visited);
      } else {
        SmallScanReadsAll(prefix, rest, stack, visited);
      }
    }
  }

  // ---- Where truncation goes unreported --------------------------------------------------------------------------

  /** n files of one name. */
  function Copies(n: nat): seq<Entry> {
    seq(n, i => File("f", Some(Metadata(0, None))))
  }

  /** A directory with one file of interest, next to as many other files as a scan reads. */
  function FullTree(): Content {
    Open([Directory("sub", Open([File("x", Some(Metadata(0, None)))]))] + Copies(SCAN_LIMIT))
  }

  function Interest(): Scorer {
    (path: string, name: string) => if name == "x" then Some(400) else None
  }

  lemma {:induction false} ScanCopies(prefix: seq<string>, n: nat, stack: seq<Frame>, visited: seq<FileAt>)
    requires |visited| + n <= SCAN_LIMIT && (forall f | f in visited :: f.name == "f")
    ensures var s := ScanEntries(prefix, Copies(n), stack, visited);
            s.stack == stack && s.unread == [] && |s.visited| == |visited| + n && forall f | f in s.visited :: f.name == "f"
    decreases n
  {
    hide Joined;
    if n > 0 {
      assert Copies(n)[0] == File("f", Some(Metadata(0, None))) && Copies(n)[1..] == Copies(n - 1);
      ScanCopies(prefix, n - 1, stack, visited + [FileOf(prefix, Copies(n)[0])]);
    } else {
      assert Copies(0) == [];
    }
  }

  lemma {:induction false} NoneOfInterest(files: seq<FileAt>)
    requires forall f | f in files :: f.name == "f"
    ensures Matches(Interest(), files) == []
  {
    if files != [] {
      var init := files[..|files| - 1];
      assert files[|files| - 1] in files && forall f | f in init :: f in files;
      NoneOfInterest(init);
    }
  }

  /** The walk of that tree reads its 20000 files and ends with the subdirectory on the stack and no entry left. */
  lemma {:induction false} FullTreeWalk()
    ensures var s := Searched(FullTree());
            s.unread == [] && s.stack == [Frame(["sub"], Open([File("x", Some(Metadata(0, None)))]))]
            && |s.visited| == SCAN_LIMIT && forall f | f in s.visited :: f.name == "f"
  {
    hide Copies, Joined;
    var sub, root := Directory("sub", Open([File("x", Some(Metadata(0, None)))])), Frame([], FullTree());
    var entries := [sub] + Copies(SCAN_LIMIT);
    assert entries[0] == sub && entries[1..] == Copies(SCAN_LIMIT);
    assert [] + ["sub"] == ["sub"] && [root][..0] == [];
    assert !Skipped("sub");
    var stack := [Frame(["sub"], sub.content)];
    assert [] + stack == stack;
    ScanCopies([], SCAN_LIMIT, stack, []);
  }

  /**
   The one matching file of the tree is never read, and nothing of the open directory is left unread.
   */
  lemma {:induction false} SilentlyIncomplete()
    ensures var s, files := Searched(FullTree()), DirectoryFiles([], FullTree());
            && s.unread == [] && Matches(Interest(), s.visited) == []
            && multiset(s.visited) != multiset(files)
            && exists f :: f in files && Interest()(f.path, f.name).Some?
  {
    hide Walk, Copies, Matches;
    FullTreeWalk();
    NoneOfInterest(Searched(FullTree()).visited);
    InterestingFile();
    var f :| f in DirectoryFiles([], FullTree()) && f.name == "x";
    assert f in multiset(DirectoryFiles([], FullTree()));
  }

  lemma {:induction false} InterestingFile()
    ensures exists f :: f in DirectoryFiles([], FullTree()) && f.name == "x"
  {
    hide Copies, Joined;
    var x := File("x", Some(Metadata(0, None)));
    var sub := Directory("sub", Open([x]));
    var entries := [sub] + Copies(SCAN_LIMIT);
    assert entries[0] == sub && !Skipped("sub");
    var f := FileOf(["sub"], x);
    assert [] + ["sub"] == ["sub"];
    assert FilesIn(["sub"], [x]) == [f] + FilesIn(["sub"], []);
    assert f in EntryFiles([], sub);
    assert f in FilesIn([], entries);
  }

  /** Searched for that file, the tree yields nothing and no truncation is reported. */
  method SearchFullTree(rank: PathRank) returns (result: SearchResult)
    ensures result == Found([], false, SCAN_LIMIT)
  {
    hide Searched, FullTree, Interest, SomeMatchUnreadable;
    SilentlyIncomplete();
    FullTreeWalk();
    NoCopyUnreadable(Searched(FullTree()).visited);
    result := WorkspaceFileSearch(FullTree(), Interest(), rank, None);
    NothingBest(rank, Clamp(None));
  }

  lemma NoCopyUnreadable(files: seq<FileAt>)
    requires forall f | f in files :: f.name == "f"
    ensures !SomeMatchUnreadable(Interest(), files)
  {
  }

  lemma NothingBest(rank: PathRank, limit: nat)
    ensures forall kept | BestOf(rank, limit, [], kept) :: kept == [] && FilesOf(kept) == []
  {
    forall kept | BestOf(rank, limit, [], kept) ensures kept == [] {
      var dropped :| Divides(rank, limit, [], kept, dropped);
      assert |multiset(kept) + multiset(dropped)| == |multiset(kept)| + |multiset(dropped)|;
      assert |multiset(kept)| == |kept|;
    }
  }
}
