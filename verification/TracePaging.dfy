/** Loading a session's recorded events page by page. */
module TracePaging {
  import opened Seqs

  const PAGE_LIMIT := 500
  const MAX_PAGES := 100

  /** A recorded event and the sequence number the server orders by. */
  datatype Recorded = Recorded(sequence: int, payload: string)

  datatype Page = Page(events: seq<Recorded>, truncated: bool)

  // ---- The server ---------------------------------------------------------------------------

  /** What the server holds: positive sequence numbers in strictly increasing order. */
  ghost predicate ServerLog(log: seq<Recorded>) {
    && (forall e | e in log :: e.sequence > 0)
    && (forall i, j | 0 <= i < j < |log| :: log[i].sequence < log[j].sequence)
  }

  function After(afterSeq: int): Recorded -> bool {
    (e: Recorded) => e.sequence > afterSeq
  }

  function FirstOf<T>(limit: nat, xs: seq<T>): seq<T> {
    if |xs| <= limit then xs else xs[..limit]
  }

  /** events_after: the first limit events behind afterSeq, and whether more are left. */
  function EventsAfter(log: seq<Recorded>, afterSeq: int, limit: nat): Page {
    var rest := Filter(After(afterSeq), log);
    Page(FirstOf(limit, rest), |rest| > limit)
  }

  /** The server's log at each request: it only grows. */
  ghost predicate Growing(logs: seq<seq<Recorded>>) {
    && (forall k | 0 <= k < |logs| :: ServerLog(logs[k]))
    && (forall k, l | 0 <= k < l < |logs| :: logs[k] <= logs[l])
  }

  function LastSequence(events: seq<Recorded>): int {
    if events == [] then 0 else events[|events| - 1].sequence
  }

  lemma SplitAtCursor(log: seq<Recorded>, n: nat, afterSeq: int)
    requires ServerLog(log) && n <= |log| && afterSeq == LastSequence(log[..n])
    ensures forall i | 0 <= i < |log| :: log[i].sequence > afterSeq <==> i >= n
  {
    assert forall i | 0 <= i < |log| :: log[i] in log;
  }

  lemma {:induction false} RestOfLog(log: seq<Recorded>, n: nat, afterSeq: int)
    requires ServerLog(log) && n <= |log| && afterSeq == LastSequence(log[..n])
    ensures Filter(After(afterSeq), log) == log[n..]
  {
    hide Filter, ServerLog, LastSequence;
    var front, rest := log[..n], log[n..];
    assert log == front + rest;
    SplitAtCursor(log, n, afterSeq);
    FilterAppend(After(afterSeq), front, rest);
    FilterNone(After(afterSeq), front);
    FilterAll(After(afterSeq), rest);
  }

  /** pageEvents.reduce over the sequence numbers. */
  function MaxSequence(start: int, events: seq<Recorded>): int {
    if events == [] then start
    else
      var before := MaxSequence(start, events[..|events| - 1]);
      if events[|events| - 1].sequence > before then events[|events| - 1].sequence else before
  }

  lemma {:induction false} MaxSequenceIsLast(start: int, events: seq<Recorded>)
    requires forall e | e in events :: e.sequence > start
    requires forall i, j | 0 <= i < j < |events| :: events[i].sequence < events[j].sequence
    ensures MaxSequence(start, events) == if events == [] then start else events[|events| - 1].sequence
  {
    if events != [] {
      MaxSequenceIsLast(start, events[..|events| - 1]);
    }
  }

  /** A page is the stretch of the log behind what was read so far. */
  lemma NextPage(log: seq<Recorded>, n: nat, afterSeq: int)
    requires ServerLog(log) && n <= |log| && afterSeq == LastSequence(log[..n])
    ensures var page := EventsAfter(log, afterSeq, PAGE_LIMIT);
            && n + |page.events| <= |log| && page.events == log[n..n + |page.events|]
            && (page.truncated <==> |log| > n + PAGE_LIMIT) && (page.truncated ==> |page.events| == PAGE_LIMIT)
            && (!page.truncated ==> n + |page.events| == |log|)
  {
    hide Filter;
    RestOfLog(log, n, afterSeq);
  }

  /** Reading on from the largest sequence of a page continues right behind it. */
  lemma {:induction false} NextCursor(log: seq<Recorded>, n: nat, m: nat, afterSeq: int)
    requires ServerLog(log) && n <= m <= |log| && afterSeq == LastSequence(log[..n])
    ensures MaxSequence(afterSeq, log[n..m]) == LastSequence(log[..m])
    ensures n < m ==> MaxSequence(afterSeq, log[n..m]) > afterSeq
  {
    hide MaxSequence;
    forall e | e in log[n..m] ensures e.sequence > afterSeq {
      var i :| n <= i < m && log[i] == e;
      assert log[i] in log;
    }
    MaxSequenceIsLast(afterSeq, log[n..m]);
  }

  lemma LogAt(logs: seq<seq<Recorded>>, k: nat)
    requires Growing(logs) && k < |logs|
    ensures ServerLog(logs[k]) && (k > 0 ==> logs[k - 1] <= logs[k])
  {
  }

  /** One round of the loop: what was read stays a prefix of the log, and a page that is not truncated completes it. */
  lemma {:induction false} Round(log: seq<Recorded>, got: seq<Recorded>, afterSeq: int)
    requires ServerLog(log) && got <= log && afterSeq == LastSequence(got)
    ensures var page := EventsAfter(log, afterSeq, PAGE_LIMIT);
            && got + page.events <= log && |page.events| <= PAGE_LIMIT
            && (if page.truncated then |page.events| == PAGE_LIMIT else got + page.events == log)
            && MaxSequence(afterSeq, page.events) == LastSequence(got + page.events)
            && (page.events != [] ==> MaxSequence(afterSeq, page.events) > afterSeq)
  {
    hide EventsAfter, MaxSequence, ServerLog;
    var n, page := |got|, EventsAfter(log, afterSeq, PAGE_LIMIT);
    assert got == log[..n];
    NextPage(log, n, afterSeq);
    NextCursor(log, n, n + |page.events|, afterSeq);
    assert got + page.events == log[..n + |page.events|];
  }

  /**
   loadSessionTraceEvents. logs[k] is the server's log at the k-th request, which may have grown since
   the one before; cancelled[k] says whether the caller lost interest before its answer was used; requests
   counts the pages asked for. The answer is the exact beginning of the log as of the last request: 500 * 100 events, or all there are.
   */
  method LoadSessionTraceEvents(logs: seq<seq<Recorded>>, cancelled: seq<bool>) returns (allEvents: seq<Recorded>, requests: nat)
    requires |logs| == |cancelled| == MAX_PAGES && Growing(logs)
    ensures 1 <= requests <= MAX_PAGES
    ensures forall k | 0 <= k < requests - 1 :: !cancelled[k]
    ensures var pages := if cancelled[requests - 1] then requests - 1 else MAX_PAGES;
            allEvents == FirstOf(pages * PAGE_LIMIT, logs[requests - 1])
  {
    hide EventsAfter, MaxSequence, ServerLog, Growing, LastSequence;
    allEvents := [];
    requests := 0;
    var afterSeq := 0;
    assert afterSeq == LastSequence([]) by { NothingRead(); }
    var page := 0;
    while page < MAX_PAGES
      invariant 0 <= page <= MAX_PAGES && requests == page
      invariant forall k | 0 <= k < page :: !cancelled[k]
      invariant |allEvents| == page * PAGE_LIMIT && afterSeq == LastSequence(allEvents)
      invariant page > 0 ==> allEvents <= logs[page - 1]
    {
      LogAt(logs, page);
      Round(logs[page], allEvents, afterSeq);
      var result := EventsAfter(logs[page], afterSeq, PAGE_LIMIT);
      requests := page + 1;
      if cancelled[page] {
        return;
      }
      var pageEvents := result.events;
      if pageEvents == [] {
        break;
      }
      allEvents := allEvents + pageEvents;
      var nextAfterSeq := MaxSequence(afterSeq, pageEvents);
      if nextAfterSeq <= afterSeq {
        break;
      }
      afterSeq := nextAfterSeq;
      if !result.truncated {
        break;
      }
      page := page + 1;
    }
  }

  lemma NothingRead()
    ensures LastSequence([]) == 0
  {
  }
}
