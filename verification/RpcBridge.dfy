/**
 The RPC bridge to the runtime process: callers, the stdout pump and timeouts, interleaved at the
 granularity of their lock sections.
 */
module RpcBridge {
  import opened Seqs
  import opened Numerals

  /** next_request_id is a 64-bit counter and wraps. */
  const WIDTH := 0x1_0000_0000_0000_0000

  datatype Reply = Value(result: string) | Fault(message: string)

  datatype Outcome = NotStarted | SerializationFailed | WriteFailed | Answered(reply: Reply) | TimeoutError

  /** Where a call of RuntimeManager::call stands. */
  datatype Phase =
    | Ready              // the runtime is started, the bridge lock released
    | Holding            // holds the bridge lock
    | Numbered           // took its request number
    | Registered         // its sender is in the pending map
    | WriteFailing       // the write failed, the entry is still pending
    | Waiting            // request written, lock released, receiving
    | TimedOut           // gave up, the entry may still be pending
    | Returned(outcome: Outcome)

  datatype Call = Call(phase: Phase, number: nat, registeredAt: nat, mailbox: Option<Reply>)

  datatype Line = Line(id: string, reply: Reply)

  /**
   The shared state with three records of the past: who took the numbers in turn, the numbers on the
   lines written to stdin, and the replies the pump has read.
   */
  datatype State = State(
    counter: nat,
    holder: Option<nat>,
    pending: map<string, nat>,
    calls: map<nat, Call>,
    issuedTo: seq<nat>,
    stdin: seq<nat>,
    replies: seq<Line>)

  const INITIAL := State(0, None, map[], map[], [], [], [])

  function Id(number: nat): string {
    "req_" + Decimal(number)
  }

  datatype Step =
    | Begin(c: nat, started: bool)
    | Acquire(c: nat)
    | TakeNumber(c: nat)
    | Register(c: nat)
    | SerializeFails(c: nat)
    | Write(c: nat)
    | WriteFails(c: nat, lineOut: bool)
    | Unregister(c: nat)
    | PumpReads(line: Line)
    | Receive(c: nat)
    | TimeOut(c: nat)
    | RemoveTimedOut(c: nat)

  predicate In(s: State, c: nat, phase: Phase) {
    c in s.calls && s.calls[c].phase == phase
  }

  predicate Enabled(s: State, step: Step) {
    match step
    case Begin(c, _) => c !in s.calls && s.holder.None?
    case Acquire(c) => In(s, c, Ready) && s.holder.None?
    case TakeNumber(c) => In(s, c, Holding)
    case Register(c) => In(s, c, Numbered)
    case SerializeFails(c) => In(s, c, Registered)
    case Write(c) => In(s, c, Registered)
    case WriteFails(c, _) => In(s, c, Registered)
    case Unregister(c) => In(s, c, WriteFailing)
    case PumpReads(_) => true
    case Receive(c) => In(s, c, Waiting) && s.calls[c].mailbox.Some?
    case TimeOut(c) => In(s, c, Waiting) && s.calls[c].mailbox.None?
    case RemoveTimedOut(c) => In(s, c, TimedOut)
  }

  function Moved(s: State, c: nat, phase: Phase): map<nat, Call>
    requires c in s.calls
  {
    s.calls[c := s.calls[c].(phase := phase)]
  }

  function Delivered(s: State, line: Line): map<nat, Call> {
    if line.id in s.pending && s.pending[line.id] in s.calls then
      s.calls[s.pending[line.id] := s.calls[s.pending[line.id]].(mailbox := Some(line.reply))]
    else s.calls
  }

  function Effect(s: State, step: Step): State
    requires Enabled(s, step)
  {
    match step
    case Begin(c, started) =>
      s.(calls := s.calls[c := Call(if started then Ready else Returned(NotStarted), 0, 0, None)])
    case Acquire(c) => s.(holder := Some(c), calls := Moved(s, c, Holding))
    case TakeNumber(c) =>
      s.(counter := (s.counter + 1) % WIDTH, issuedTo := s.issuedTo + [c],
      calls := s.calls[c := s.calls[c].(phase := Numbered, number := s.counter)])
    case Register(c) =>
      s.(pending := s.pending[Id(s.calls[c].number) := c],
      calls := s.calls[c := s.calls[c].(phase := Registered, registeredAt := |s.replies|, mailbox := None)])
    case SerializeFails(c) => s.(holder := None, calls := Moved(s, c, Returned(SerializationFailed)))
    case Write(c) => s.(holder := None, stdin := s.stdin + [s.calls[c].number], calls := Moved(s, c, Waiting))
    case WriteFails(c, lineOut) =>
      s.(stdin := if lineOut then s.stdin + [s.calls[c].number] else s.stdin, calls := Moved(s, c, WriteFailing))
    case Unregister(c) =>
      s.(holder := None, pending := s.pending - {Id(s.calls[c].number)}, calls := Moved(s, c, Returned(WriteFailed)))
    case PumpReads(line) =>
      s.(pending := s.pending - {line.id}, calls := Delivered(s, line), replies := s.replies + [line])
    case Receive(c) => s.(calls := Moved(s, c, Returned(Answered(s.calls[c].mailbox.value))))
    case TimeOut(c) => s.(calls := Moved(s, c, TimedOut))
    case RemoveTimedOut(c) =>
      s.(pending := s.pending - {Id(s.calls[c].number)}, calls := Moved(s, c, Returned(TimeoutError)))
  }

  /** A step that is not enabled does not happen. */
  function Do(s: State, step: Step): State {
    if Enabled(s, step) then Effect(s, step) else s
  }

  /** The state after any interleaving. */
  function Run(s: State, steps: seq<Step>): State {
    if steps == [] then s else Do(Run(s, steps[..|steps| - 1]), steps[|steps| - 1])
  }

  // ---- Numbers -----------------------------------------------------------------------------------

  predicate InSection(p: Phase) {
    p == Holding || p == Numbered || p == Registered || p == WriteFailing
  }

  predicate HasNumber(p: Phase) {
    p != Ready && p != Holding && p != Returned(NotStarted)
  }

  /** Turn by turn every call with a number took the next one, modulo the width of the counter. */
  ghost predicate Numbering(s: State) {
    && s.counter == |s.issuedTo| % WIDTH
    && (forall k | 0 <= k < |s.issuedTo| ::
          s.issuedTo[k] in s.calls && HasNumber(s.calls[s.issuedTo[k]].phase) && s.calls[s.issuedTo[k]].number == k % WIDTH)
    && (forall i, j | 0 <= i < j < |s.issuedTo| :: s.issuedTo[i] != s.issuedTo[j])
    && (forall c | c in s.calls && HasNumber(s.calls[c].phase) :: c in s.issuedTo)
  }

  /** Steps that take no number. */
  ghost predicate KeepsNumbers(s: State, t: State) {
    && t.counter == s.counter && t.issuedTo == s.issuedTo
    && (forall c | c in s.calls ::
          c in t.calls && (HasNumber(t.calls[c].phase) <==> HasNumber(s.calls[c].phase)) && t.calls[c].number == s.calls[c].number)
    && (forall c | c in t.calls && c !in s.calls :: !HasNumber(t.calls[c].phase))
  }

  lemma OtherStepsKeepNumbers(s: State, step: Step)
    requires Enabled(s, step) && !step.TakeNumber?
    ensures KeepsNumbers(s, Effect(s, step))
  {
    hide Id;
  }

  lemma KeptNumbering(s: State, t: State)
    requires Numbering(s) && KeepsNumbers(s, t)
    ensures Numbering(t)
  {
  }

  /** The step of c that takes a number. */
  ghost predicate Takes(s: State, t: State, c: nat) {
    && c in s.calls && c !in s.issuedTo
    && t.counter == (s.counter + 1) % WIDTH && t.issuedTo == s.issuedTo + [c]
    && t.calls.Keys == s.calls.Keys && HasNumber(t.calls[c].phase) && t.calls[c].number == s.counter
    && (forall d | d in s.calls && d != c :: t.calls[d] == s.calls[d])
  }

  lemma TakeNumberEffect(s: State, c: nat)
    requires Numbering(s) && Enabled(s, TakeNumber(c))
    ensures Takes(s, Effect(s, TakeNumber(c)), c)
  {
  }

  lemma Turns(n: nat)
    ensures (n % WIDTH + 1) % WIDTH == (n + 1) % WIDTH
  {
  }

  lemma TakenTurn(s: State, t: State, c: nat, k: nat)
    requires Numbering(s) && Takes(s, t, c) && k < |t.issuedTo|
    ensures var d := t.issuedTo[k]; d in t.calls && HasNumber(t.calls[d].phase) && t.calls[d].number == k % WIDTH
  {
    hide HasNumber;
    if k < |s.issuedTo| {
      assert t.issuedTo[k] == s.issuedTo[k] && s.issuedTo[k] != c;
    }
  }

  lemma TakenBy(s: State, t: State, c: nat, d: nat)
    requires Numbering(s) && Takes(s, t, c) && d in t.calls && HasNumber(t.calls[d].phase)
    ensures d in t.issuedTo
  {
    hide HasNumber;
    assert d == c || d in s.issuedTo;
  }

  lemma TakenNumbering(s: State, t: State, c: nat)
    requires Numbering(s) && Takes(s, t, c)
    ensures Numbering(t)
  {
    hide HasNumber;
    Turns(|s.issuedTo|);
    assert forall i, j | 0 <= i < j < |t.issuedTo| :: t.issuedTo[i] != t.issuedTo[j];
    assert t.counter == |t.issuedTo| % WIDTH;
    assert Numbering(t) by {
      hide Takes;
      forall k: nat | k < |t.issuedTo|
        ensures var d := t.issuedTo[k]; d in t.calls && HasNumber(t.calls[d].phase) && t.calls[d].number == k % WIDTH
      {
        TakenTurn(s, t, c, k);
      }
      forall d | d in t.calls && HasNumber(t.calls[d].phase) ensures d in t.issuedTo {
        TakenBy(s, t, c, d);
      }
    }
  }

  lemma TakeNumberNumbers(s: State, c: nat)
    requires Numbering(s) && Enabled(s, TakeNumber(c))
    ensures Numbering(Effect(s, TakeNumber(c)))
  {
    hide *;
    TakeNumberEffect(s, c);
    TakenNumbering(s, Effect(s, TakeNumber(c)), c);
  }

  lemma StepNumbers(s: State, step: Step)
    requires Numbering(s)
    ensures Numbering(Do(s, step))
  {
    hide Numbering, KeepsNumbers, Effect;
    if Enabled(s, step) {
      if step.TakeNumber? {
        TakeNumberNumbers(s, step.c);
      } else {
        OtherStepsKeepNumbers(s, step);
        KeptNumbering(s, Effect(s, step));
      }
    }
  }

  lemma {:induction false} RunNumbers(steps: seq<Step>)
    ensures Numbering(Run(INITIAL, steps))
  {
    hide Numbering, Do;
    if steps == [] {
      NothingIssued();
    } else {
      RunNumbers(steps[..|steps| - 1]);
      StepNumbers(Run(INITIAL, steps[..|steps| - 1]), steps[|steps| - 1]);
    }
  }

  lemma NothingIssued()
    ensures Numbering(INITIAL)
  {
  }

  lemma IdInjective(m: nat, n: nat)
    ensures Id(m) == Id(n) <==> m == n
  {
    if Id(m) == Id(n) {
      assert Id(m)[4..] == Decimal(m) && Id(n)[4..] == Decimal(n);
      DecimalInjective(m, n);
    }
  }

  lemma AllIdsInjective()
    ensures forall m: nat, n: nat | Id(m) == Id(n) :: m == n
  {
    forall m: nat, n: nat | Id(m) == Id(n) ensures m == n {
      IdInjective(m, n);
    }
  }

  /** The i-th and the j-th request, counted from 0, carry the same id exactly when i and j agree modulo 2^64. */
  lemma {:induction false} SharedIdIff(steps: seq<Step>, i: nat, j: nat)
    requires var s := Run(INITIAL, steps); i < |s.issuedTo| && j < |s.issuedTo|
    ensures var s := Run(INITIAL, steps);
            && s.issuedTo[i] in s.calls && s.issuedTo[j] in s.calls
            && (Id(s.calls[s.issuedTo[i]].number) == Id(s.calls[s.issuedTo[j]].number) <==> i % WIDTH == j % WIDTH)
  {
    hide Id, Run;
    RunNumbers(steps);
    IdInjective(i % WIDTH, j % WIDTH);
  }

  ghost predicate NumbersDistinct(s: State) {
    forall c, d | c in s.calls && d in s.calls && HasNumber(s.calls[c].phase) && HasNumber(s.calls[d].phase)
                  && s.calls[c].number == s.calls[d].number :: c == d
  }

  /** Below the width a number is the turn in which it was taken. */
  lemma NumberIsTurn(s: State, c: nat)
    requires Numbering(s) && |s.issuedTo| <= WIDTH && c in s.calls && HasNumber(s.calls[c].phase)
    ensures s.calls[c].number < |s.issuedTo| && s.issuedTo[s.calls[c].number] == c
  {
    var k :| 0 <= k < |s.issuedTo| && s.issuedTo[k] == c;
    assert k % WIDTH == k;
  }

  lemma FewNumbersDistinct(s: State)
    requires Numbering(s) && |s.issuedTo| <= WIDTH
    ensures NumbersDistinct(s) && forall c | c in s.calls && HasNumber(s.calls[c].phase) :: s.calls[c].number < |s.issuedTo|
  {
    hide Numbering, HasNumber;
    forall c | c in s.calls && HasNumber(s.calls[c].phase)
      ensures s.calls[c].number < |s.issuedTo| && s.issuedTo[s.calls[c].number] == c
    {
      NumberIsTurn(s, c);
    }
  }

  ghost predicate IdsDistinct(s: State) {
    forall c, d | c in s.calls && d in s.calls && c != d && HasNumber(s.calls[c].phase) && HasNumber(s.calls[d].phase) ::
      Id(s.calls[c].number) != Id(s.calls[d].number)
  }

  /** No two calls share a request id if and only if at most 2^64 numbers were issued. */
  lemma {:induction false} IdsDistinctIff(steps: seq<Step>)
    ensures IdsDistinct(Run(INITIAL, steps)) <==> |Run(INITIAL, steps).issuedTo| <= WIDTH
  {
    hide Id, Run;
    var s := Run(INITIAL, steps);
    RunNumbers(steps);
    AllIdsInjective();
    if |s.issuedTo| <= WIDTH {
      FewNumbersDistinct(s);
    } else {
      assert 0 % WIDTH == 0 && WIDTH % WIDTH == 0;
      assert s.issuedTo[0] != s.issuedTo[WIDTH];
      assert s.calls[s.issuedTo[0]].number == s.calls[s.issuedTo[WIDTH]].number;
    }
  }

  // ---- The invariant --------------------------------------------------------------------------

  /** The call is between its registration and its return. */
  predicate InFlight(p: Phase) {
    p == Registered || p == WriteFailing || p == Waiting || p == TimedOut
  }

  /** The call has its entry until the first reply: in flight, or returned because its request could not be serialised. */
  predicate Entered(p: Phase) {
    InFlight(p) || p == Returned(SerializationFailed)
  }

  /** The first reply with the given id among those read since the given moment. */
  function FirstReply(replies: seq<Line>, since: nat, id: string): Option<Reply> {
    if |replies| <= since then None
    else
      var before := FirstReply(replies[..|replies| - 1], since, id);
      var last := replies[|replies| - 1];
      if before.Some? then before
      else if last.id == id then Some(last.reply)
      else None
  }

  /** The call's entry is in the pending map. */
  predicate Pends(s: State, c: nat)
    requires c in s.calls
  {
    Id(s.calls[c].number) in s.pending && s.pending[Id(s.calls[c].number)] == c
  }

  /** A call in flight is pending until the first reply to it has been read, and then holds that reply. */
  ghost predicate MailboxOk(s: State, c: nat)
    requires c in s.calls
  {
    var call := s.calls[c];
    && call.registeredAt <= |s.replies|
    && call.mailbox == FirstReply(s.replies, call.registeredAt, Id(call.number))
    && (call.mailbox.None? <==> Pends(s, c))
  }

  ghost predicate CallOk(s: State, c: nat)
    requires c in s.calls
  {
    var call := s.calls[c];
    && (InSection(call.phase) <==> s.holder == Some(c))
    && (Entered(call.phase) ==> MailboxOk(s, c))
    && (call.phase.Returned? && call.phase.outcome.Answered? ==>
          call.registeredAt <= |s.replies|
          && FirstReply(s.replies, call.registeredAt, Id(call.number)) == Some(call.phase.outcome.reply))
  }

  ghost predicate CallsOk(s: State) {
    forall c | c in s.calls :: CallOk(s, c)
  }

  /** A pending entry belongs to a call in flight, or to one whose request could not be serialised. */
  ghost predicate EntryOk(s: State, id: string)
    requires id in s.pending
  {
    && s.pending[id] in s.calls
    && id == Id(s.calls[s.pending[id]].number)
    && Entered(s.calls[s.pending[id]].phase)
  }

  ghost predicate PendingOk(s: State) {
    forall id | id in s.pending :: EntryOk(s, id)
  }

  ghost predicate Increasing(ns: seq<nat>) {
    forall i, j | 0 <= i < j < |ns| :: ns[i] < ns[j]
  }

  /** The caller holding the lock is about to write a larger number than any written before. */
  ghost predicate StdinOk(s: State) {
    && Increasing(s.stdin)
    && (forall n | n in s.stdin :: n < |s.issuedTo|)
    && (s.holder.Some? ==> s.holder.value in s.calls)
    && (s.holder.Some? && (In(s, s.holder.value, Numbered) || In(s, s.holder.value, Registered)) ==>
          forall n | n in s.stdin :: n < s.calls[s.holder.value].number)
  }

  ghost predicate Inv(s: State) {
    Numbering(s) && CallsOk(s) && PendingOk(s) && StdinOk(s)
  }

  // ---- Calls a step does not concern ---------------------------------------------------------------

  ghost predicate Unconcerned(s: State, t: State, d: nat) {
    && d in s.calls && d in t.calls && t.calls[d] == s.calls[d] && t.replies == s.replies
    && (t.holder == Some(d) <==> s.holder == Some(d))
    && (Entered(s.calls[d].phase) ==> (Pends(t, d) <==> Pends(s, d)))
  }

  lemma UnconcernedStaysOk(s: State, t: State, d: nat)
    requires Unconcerned(s, t, d) && CallOk(s, d)
    ensures CallOk(t, d)
  {
    hide Id, FirstReply, Pends;
  }

  /** A step that concerns one call only. */
  lemma OneCallConcerned(s: State, t: State, c: nat)
    requires CallsOk(s) && c in t.calls && CallOk(t, c)
    requires forall d | d in t.calls && d != c :: Unconcerned(s, t, d)
    ensures CallsOk(t)
  {
    hide CallOk, Unconcerned;
    forall d | d in t.calls ensures CallOk(t, d) {
      if d != c {
        assert Unconcerned(s, t, d);
        assert d in s.calls by { InBoth(s, t, d); }
        UnconcernedStaysOk(s, t, d);
      }
    }
  }

  lemma InBoth(s: State, t: State, d: nat)
    requires Unconcerned(s, t, d)
    ensures d in s.calls
  {
  }

  lemma HolderIs(s: State, c: nat)
    requires CallsOk(s) && c in s.calls && InSection(s.calls[c].phase)
    ensures s.holder == Some(c)
  {
    assert CallOk(s, c);
  }

  lemma {:induction false} FirstReplyStep(replies: seq<Line>, line: Line, since: nat, id: string)
    requires since <= |replies|
    ensures FirstReply(replies + [line], since, id)
            == if FirstReply(replies, since, id).Some? then FirstReply(replies, since, id)
               else if line.id == id then Some(line.reply) else None
  {
    assert (replies + [line])[..|replies|] == replies;
  }

  lemma {:induction false} NoReplyYet(replies: seq<Line>, id: string)
    ensures FirstReply(replies, |replies|, id) == None
  {
  }

  // ---- What each step does to the calls --------------------------------------------------------------

  /** Steps that only move a call to another phase, and take or release the lock. */
  lemma MoveKeepsCalls(s: State, t: State, c: nat, phase: Phase)
    requires CallsOk(s) && c in s.calls && t.calls == Moved(s, c, phase) && t.pending == s.pending && t.replies == s.replies
    requires forall d | d in s.calls && d != c :: t.holder == Some(d) <==> s.holder == Some(d)
    requires InSection(phase) <==> t.holder == Some(c)
    requires Entered(phase) ==> InFlight(s.calls[c].phase)
    requires phase.Returned? && phase.outcome.Answered? ==>
               InFlight(s.calls[c].phase) && s.calls[c].mailbox == Some(phase.outcome.reply)
    ensures CallsOk(t)
  {
    hide Id, FirstReply;
    assert CallOk(s, c);
    OneCallConcerned(s, t, c);
  }

  lemma BeginKeepsCalls(s: State, c: nat, started: bool)
    requires CallsOk(s) && Enabled(s, Begin(c, started))
    ensures CallsOk(Effect(s, Begin(c, started)))
  {
    hide Id, FirstReply;
    OneCallConcerned(s, Effect(s, Begin(c, started)), c);
  }

  lemma TakeNumberKeepsCalls(s: State, c: nat)
    requires CallsOk(s) && Enabled(s, TakeNumber(c))
    ensures CallsOk(Effect(s, TakeNumber(c)))
  {
    hide Id, FirstReply;
    HolderIs(s, c);
    OneCallConcerned(s, Effect(s, TakeNumber(c)), c);
  }

  /** Entering or removing the entry of c touches no other call's entry. */
  lemma OtherEntryUntouched(s: State, t: State, c: nat, d: nat)
    requires NumbersDistinct(s) && c in s.calls && d in s.calls && c != d && d in t.calls && t.calls[d] == s.calls[d]
    requires HasNumber(s.calls[c].phase) && HasNumber(s.calls[d].phase)
    requires forall id | id != Id(s.calls[c].number) :: (id in t.pending <==> id in s.pending) && (id in s.pending ==> t.pending[id] == s.pending[id])
    ensures Pends(t, d) <==> Pends(s, d)
  {
    hide Id;
    IdInjective(s.calls[c].number, s.calls[d].number);
  }

  lemma RegisterKeepsCalls(s: State, c: nat)
    requires CallsOk(s) && NumbersDistinct(s) && Enabled(s, Register(c))
    ensures CallsOk(Effect(s, Register(c)))
  {
    hide Id, FirstReply, NumbersDistinct;
    var t := Effect(s, Register(c));
    HolderIs(s, c);
    NoReplyYet(s.replies, Id(s.calls[c].number));
    forall d | d in s.calls && d != c && Entered(s.calls[d].phase) ensures Pends(t, d) <==> Pends(s, d) {
      OtherEntryUntouched(s, t, c, d);
    }
    OneCallConcerned(s, t, c);
  }

  /** Giving up: the entry is removed and the call returns without a reply. */
  lemma RemoveKeepsCalls(s: State, t: State, c: nat, outcome: Outcome)
    requires CallsOk(s) && NumbersDistinct(s) && c in s.calls && InFlight(s.calls[c].phase)
    requires !outcome.Answered? && outcome != SerializationFailed
    requires t.calls == Moved(s, c, Returned(outcome)) && t.pending == s.pending - {Id(s.calls[c].number)} && t.replies == s.replies
    requires t.holder != Some(c) && forall d | d in s.calls && d != c :: t.holder == Some(d) <==> s.holder == Some(d)
    ensures CallsOk(t)
  {
    hide Id, FirstReply, NumbersDistinct;
    forall d | d in s.calls && d != c && Entered(s.calls[d].phase) ensures Pends(t, d) <==> Pends(s, d) {
      OtherEntryUntouched(s, t, c, d);
    }
    OneCallConcerned(s, t, c);
  }

  lemma PumpKeepsCall(s: State, line: Line, c: nat)
    requires CallsOk(s) && PendingOk(s) && c in s.calls
    ensures CallOk(Effect(s, PumpReads(line)), c)
  {
    hide Id, FirstReply;
    var since, id := s.calls[c].registeredAt, Id(s.calls[c].number);
    assert CallOk(s, c);
    if line.id in s.pending {
      assert EntryOk(s, line.id);
    }
    if since <= |s.replies| {
      FirstReplyStep(s.replies, line, since, id);
    }
  }

  lemma PumpKeepsCalls(s: State, line: Line)
    requires CallsOk(s) && PendingOk(s)
    ensures CallsOk(Effect(s, PumpReads(line)))
  {
    hide CallOk, PendingOk, Id;
    var t := Effect(s, PumpReads(line));
    forall c | c in t.calls ensures CallOk(t, c) {
      PumpKeepsCall(s, line, c);
    }
  }

  // ---- What each step does to the pending map -----------------------------------------------------------

  lemma MoveKeepsPending(s: State, t: State, c: nat, phase: Phase)
    requires PendingOk(s) && c in s.calls && t.calls == Moved(s, c, phase) && t.pending == s.pending
    requires !Pends(s, c) || Entered(phase)
    ensures PendingOk(t)
  {
    hide Id;
    forall id | id in t.pending ensures EntryOk(t, id) {
      assert EntryOk(s, id);
    }
  }

  lemma NotRegisteredNotPending(s: State, c: nat)
    requires PendingOk(s) && c in s.calls && !Entered(s.calls[c].phase)
    ensures forall id | id in s.pending :: s.pending[id] != c
  {
    forall id | id in s.pending ensures s.pending[id] != c {
      assert EntryOk(s, id);
    }
  }

  /** The call's own data may change while it is not pending. */
  lemma OthersKeepPending(s: State, t: State, c: nat)
    requires PendingOk(s) && (forall id | id in s.pending :: s.pending[id] != c) && t.pending == s.pending
    requires forall d | d in s.calls && d != c :: d in t.calls && t.calls[d] == s.calls[d]
    ensures PendingOk(t)
  {
    hide Id;
    forall id | id in t.pending ensures EntryOk(t, id) {
      assert EntryOk(s, id);
    }
  }

  lemma RegisterKeepsPending(s: State, c: nat)
    requires PendingOk(s) && Enabled(s, Register(c))
    ensures PendingOk(Effect(s, Register(c)))
  {
    hide Id;
    var t := Effect(s, Register(c));
    forall id | id in t.pending ensures EntryOk(t, id) {
      if id != Id(s.calls[c].number) {
        assert EntryOk(s, id);
      }
    }
  }

  lemma RemoveKeepsPending(s: State, t: State, c: nat, outcome: Outcome)
    requires PendingOk(s) && c in s.calls
    requires t.calls == Moved(s, c, Returned(outcome)) && t.pending == s.pending - {Id(s.calls[c].number)}
    ensures PendingOk(t)
  {
    hide Id;
    forall id | id in t.pending ensures EntryOk(t, id) {
      assert EntryOk(s, id);
    }
  }

  lemma PumpKeepsPending(s: State, line: Line)
    requires PendingOk(s)
    ensures PendingOk(Effect(s, PumpReads(line)))
  {
    hide Id;
    var t := Effect(s, PumpReads(line));
    forall id | id in t.pending ensures EntryOk(t, id) {
      assert EntryOk(s, id);
    }
  }

  // ---- What each step does to stdin -----------------------------------------------------------------------

  lemma IncreasingAppend(ns: seq<nat>, n: nat)
    requires Increasing(ns) && forall m | m in ns :: m < n
    ensures Increasing(ns + [n]) && forall m | m in ns + [n] :: m <= n
  {
    assert forall i | 0 <= i < |ns| :: ns[i] in ns;
  }

  /** No line is written and the holder, if any, is the one before or not about to write. */
  lemma QuietKeepsStdin(s: State, t: State)
    requires StdinOk(s) && t.stdin == s.stdin && t.issuedTo == s.issuedTo && (t.holder.Some? ==> t.holder.value in t.calls)
    requires t.holder.Some? && (In(t, t.holder.value, Numbered) || In(t, t.holder.value, Registered)) ==>
               && t.holder == s.holder && (In(s, t.holder.value, Numbered) || In(s, t.holder.value, Registered))
               && t.calls[t.holder.value].number == s.calls[t.holder.value].number
    ensures StdinOk(t)
  {
    hide Increasing;
  }

  lemma TakeNumberKeepsStdin(s: State, c: nat)
    requires StdinOk(s) && CallsOk(s) && Enabled(s, TakeNumber(c)) && s.counter == |s.issuedTo|
    ensures StdinOk(Effect(s, TakeNumber(c)))
  {
    hide Increasing, CallsOk;
    HolderIs(s, c);
  }

  lemma WriteKeepsStdin(s: State, t: State, c: nat)
    requires StdinOk(s) && s.holder == Some(c) && In(s, c, Registered) && s.calls[c].number < |s.issuedTo|
    requires t.stdin == s.stdin + [s.calls[c].number] && t.issuedTo == s.issuedTo
    requires t.holder == None || (t.holder == Some(c) && In(t, c, WriteFailing))
    ensures StdinOk(t)
  {
    hide Increasing;
    IncreasingAppend(s.stdin, s.calls[c].number);
  }

  // ---- Every step keeps the invariant ------------------------------------------------------------------------

  lemma LockStepKeeps(s: State, step: Step)
    requires Inv(s) && Enabled(s, step) && (step.Begin? || step.Acquire? || step.SerializeFails?)
    ensures var t := Effect(s, step); CallsOk(t) && PendingOk(t) && StdinOk(t)
  {
    hide Id, FirstReply, CallsOk, PendingOk, StdinOk, Numbering;
    var t, c := Effect(s, step), step.c;
    match step
    case Begin(_, started) =>
      BeginKeepsCalls(s, c, started);
      UnknownNotPending(s, c);
      OthersKeepPending(s, t, c);
      BeginKeepsStdin(s, c, started);
    case Acquire(_) =>
      MoveKeepsCalls(s, t, c, Holding);
      NotRegisteredNotPending(s, c);
      MoveKeepsPending(s, t, c, Holding);
      QuietKeepsStdin(s, t);
    case SerializeFails(_) =>
      HolderIs(s, c);
      MoveKeepsCalls(s, t, c, Returned(SerializationFailed));
      MoveKeepsPending(s, t, c, Returned(SerializationFailed));
      QuietKeepsStdin(s, t);
  }

  lemma UnknownNotPending(s: State, c: nat)
    requires PendingOk(s) && c !in s.calls
    ensures forall id | id in s.pending :: s.pending[id] != c
  {
    forall id | id in s.pending ensures s.pending[id] != c {
      assert EntryOk(s, id);
    }
  }

  lemma BeginKeepsStdin(s: State, c: nat, started: bool)
    requires StdinOk(s) && Enabled(s, Begin(c, started))
    ensures StdinOk(Effect(s, Begin(c, started)))
  {
    hide Increasing;
  }

  lemma NumberStepKeeps(s: State, c: nat)
    requires Inv(s) && Enabled(s, TakeNumber(c)) && s.counter == |s.issuedTo|
    ensures var t := Effect(s, TakeNumber(c)); CallsOk(t) && PendingOk(t) && StdinOk(t)
  {
    hide Id, FirstReply, CallsOk, PendingOk, StdinOk, Numbering;
    var t := Effect(s, TakeNumber(c));
    TakeNumberKeepsCalls(s, c);
    NotRegisteredNotPending(s, c);
    OthersKeepPending(s, t, c);
    TakeNumberKeepsStdin(s, c);
  }

  lemma RegisterStepKeeps(s: State, c: nat)
    requires Inv(s) && Enabled(s, Register(c)) && NumbersDistinct(s)
    ensures var t := Effect(s, Register(c)); CallsOk(t) && PendingOk(t) && StdinOk(t)
  {
    hide Id, FirstReply, CallsOk, PendingOk, StdinOk, Numbering, NumbersDistinct;
    HolderIs(s, c);
    RegisterKeepsCalls(s, c);
    RegisterKeepsPending(s, c);
    QuietKeepsStdin(s, Effect(s, Register(c)));
  }

  lemma WriteStepKeeps(s: State, step: Step)
    requires Inv(s) && Enabled(s, step) && (step.Write? || step.WriteFails?) && s.calls[step.c].number < |s.issuedTo|
    ensures var t := Effect(s, step); CallsOk(t) && PendingOk(t) && StdinOk(t)
  {
    hide Id, FirstReply, CallsOk, PendingOk, StdinOk, Numbering;
    var t, c := Effect(s, step), step.c;
    HolderIs(s, c);
    match step
    case Write(_) =>
      MoveKeepsCalls(s, t, c, Waiting);
      MoveKeepsPending(s, t, c, Waiting);
      WriteKeepsStdin(s, t, c);
    case WriteFails(_, lineOut) =>
      MoveKeepsCalls(s, t, c, WriteFailing);
      MoveKeepsPending(s, t, c, WriteFailing);
      if lineOut {
        WriteKeepsStdin(s, t, c);
      } else {
        QuietKeepsStdin(s, t);
      }
  }

  lemma WaitStepKeeps(s: State, step: Step)
    requires Inv(s) && Enabled(s, step) && (step.Receive? || step.TimeOut?)
    ensures var t := Effect(s, step); CallsOk(t) && PendingOk(t) && StdinOk(t)
  {
    hide Id, FirstReply, PendingOk, StdinOk, Numbering;
    var t, c := Effect(s, step), step.c;
    assert CallOk(s, c);
    hide CallsOk, CallOk;
    match step
    case Receive(_) =>
      MoveKeepsCalls(s, t, c, Returned(Answered(s.calls[c].mailbox.value)));
      MoveKeepsPending(s, t, c, Returned(Answered(s.calls[c].mailbox.value)));
      QuietKeepsStdinAside(s, t, c);
    case TimeOut(_) =>
      MoveKeepsCalls(s, t, c, TimedOut);
      MoveKeepsPending(s, t, c, TimedOut);
      QuietKeepsStdinAside(s, t, c);
  }

  /** A call outside the lock's section moves on. */
  lemma QuietKeepsStdinAside(s: State, t: State, c: nat)
    requires StdinOk(s) && c in s.calls && s.holder != Some(c)
    requires t.stdin == s.stdin && t.issuedTo == s.issuedTo && t.holder == s.holder
    requires forall d | d in s.calls && d != c :: d in t.calls && t.calls[d] == s.calls[d]
    ensures StdinOk(t)
  {
    hide Increasing;
  }

  lemma RemoveStepKeeps(s: State, step: Step)
    requires Inv(s) && Enabled(s, step) && (step.Unregister? || step.RemoveTimedOut?) && NumbersDistinct(s)
    ensures var t := Effect(s, step); CallsOk(t) && PendingOk(t) && StdinOk(t)
  {
    hide Id, FirstReply, PendingOk, StdinOk, Numbering, NumbersDistinct;
    var t, c := Effect(s, step), step.c;
    assert CallOk(s, c);
    hide CallsOk, CallOk;
    match step
    case Unregister(_) =>
      RemoveKeepsCalls(s, t, c, WriteFailed);
      RemoveKeepsPending(s, t, c, WriteFailed);
      QuietKeepsStdin(s, t);
    case RemoveTimedOut(_) =>
      RemoveKeepsCalls(s, t, c, TimeoutError);
      RemoveKeepsPending(s, t, c, TimeoutError);
      QuietKeepsStdinAside(s, t, c);
  }

  lemma PumpStepKeeps(s: State, line: Line)
    requires Inv(s)
    ensures var t := Effect(s, PumpReads(line)); CallsOk(t) && PendingOk(t) && StdinOk(t)
  {
    hide Id, CallsOk, PendingOk, Numbering, Increasing;
    PumpKeepsCalls(s, line);
    PumpKeepsPending(s, line);
  }

  lemma StepKeeps(s: State, step: Step)
    requires Inv(s) && |Do(s, step).issuedTo| <= WIDTH
    ensures Inv(Do(s, step))
  {
    hide Numbering, CallsOk, PendingOk, StdinOk, Effect, NumbersDistinct;
    StepNumbers(s, step);
    IssuedGrows(s, step);
    FewNumbersDistinct(s);
    CounterIsIssued(s);
    if Enabled(s, step) {
      match step
      case Begin(_, _) => LockStepKeeps(s, step);
      case Acquire(_) => LockStepKeeps(s, step);
      case TakeNumber(c) => NumberStepKeeps(s, c);
      case Register(_) => RegisterStepKeeps(s, step.c);
      case SerializeFails(_) => LockStepKeeps(s, step);
      case Write(_) => WriteStepKeeps(s, step);
      case WriteFails(_, _) => WriteStepKeeps(s, step);
      case Unregister(_) => RemoveStepKeeps(s, step);
      case PumpReads(line) => PumpStepKeeps(s, line);
      case Receive(_) => WaitStepKeeps(s, step);
      case TimeOut(_) => WaitStepKeeps(s, step);
      case RemoveTimedOut(_) => RemoveStepKeeps(s, step);
    }
  }

  lemma CounterIsIssued(s: State)
    requires Numbering(s) && |s.issuedTo| <= WIDTH
    ensures |s.issuedTo| < WIDTH ==> s.counter == |s.issuedTo|
  {
  }

  lemma IssuedGrows(s: State, step: Step)
    ensures |Do(s, step).issuedTo| == |s.issuedTo| + if step.TakeNumber? && Enabled(s, step) then 1 else 0
  {
    hide Id;
  }

  lemma {:induction false} RunKeeps(steps: seq<Step>)
    requires |Run(INITIAL, steps).issuedTo| <= WIDTH
    ensures Inv(Run(INITIAL, steps))
  {
    hide Inv, Do;
    if steps == [] {
      InitialOk();
    } else {
      var init := Run(INITIAL, steps[..|steps| - 1]);
      IssuedGrows(init, steps[|steps| - 1]);
      RunKeeps(steps[..|steps| - 1]);
      StepKeeps(init, steps[|steps| - 1]);
    }
  }

  lemma InitialOk()
    ensures Inv(INITIAL)
  {
  }

  // ---- What callers rely on -----------------------------------------------------------------------

  /** A call that returns a reply returns the first one with its own id read since it registered. */
  lemma {:induction false} AnsweredByOwnFirstReply(steps: seq<Step>, c: nat)
    requires var s := Run(INITIAL, steps);
             |s.issuedTo| <= WIDTH && c in s.calls && s.calls[c].phase.Returned? && s.calls[c].phase.outcome.Answered?
    ensures var s := Run(INITIAL, steps);
            FirstReply(s.replies, s.calls[c].registeredAt, Id(s.calls[c].number)) == Some(s.calls[c].phase.outcome.reply)
  {
    hide Id, Run, FirstReply;
    RunKeeps(steps);
    assert CallOk(Run(INITIAL, steps), c);
  }

  predicate Done(s: State, c: nat) {
    c in s.calls && s.calls[c].phase.Returned?
  }

  lemma DoneStays(s: State, step: Step, c: nat)
    requires Done(s, c)
    ensures Done(Do(s, step), c) && Do(s, step).calls[c].phase == s.calls[c].phase
  {
    hide Id;
  }

  /** A call returns at most once: what it returned stays what it returned, whatever happens later. */
  lemma {:induction false} ReturnsOnce(s: State, steps: seq<Step>, c: nat)
    requires Done(s, c)
    ensures Done(Run(s, steps), c) && Run(s, steps).calls[c].phase == s.calls[c].phase
  {
    hide Do;
    if steps != [] {
      ReturnsOnce(s, steps[..|steps| - 1], c);
      DoneStays(Run(s, steps[..|steps| - 1]), steps[|steps| - 1], c);
    }
  }

  /** A reply nobody waits for, late or duplicate, changes nothing but the record of replies. */
  lemma UnexpectedReplyDropped(s: State, line: Line)
    requires line.id !in s.pending
    ensures Do(s, PumpReads(line)) == s.(replies := s.replies + [line])
  {
    assert s.pending - {line.id} == s.pending;
  }

  predicate HasReplyOrReturned(call: Call) {
    if InFlight(call.phase) then call.mailbox.Some?
    else call.phase.Returned? && call.phase.outcome != SerializationFailed
  }

  /** A call that has its reply, or has returned, is not pending any more: further replies to it find nobody. */
  lemma {:induction false} DuplicatesAreUnexpected(steps: seq<Step>, c: nat)
    requires var s := Run(INITIAL, steps);
             |s.issuedTo| <= WIDTH && c in s.calls && HasNumber(s.calls[c].phase) && HasReplyOrReturned(s.calls[c])
    ensures var s := Run(INITIAL, steps); Id(s.calls[c].number) !in s.pending
  {
    hide Id, Run, FirstReply, Numbering, StdinOk;
    var s := Run(INITIAL, steps);
    var id := Id(s.calls[c].number);
    RunKeeps(steps);
    FewNumbersDistinct(s);
    assert CallOk(s, c);
    if id in s.pending {
      assert EntryOk(s, id);
      IdInjective(s.calls[s.pending[id]].number, s.calls[c].number);
    }
  }

  /** The call has its entry, and no reply with its id has been read since it registered. */
  predicate Unanswered(s: State, c: nat) {
    c in s.calls && Entered(s.calls[c].phase) && FirstReply(s.replies, s.calls[c].registeredAt, Id(s.calls[c].number)) == None
  }

  /** The pending map at every moment: exactly the entries of the calls in flight, or failed to serialise, that got no reply. */
  lemma {:induction false} PendingIsUnanswered(steps: seq<Step>, id: string, c: nat)
    requires |Run(INITIAL, steps).issuedTo| <= WIDTH
    ensures var s := Run(INITIAL, steps);
            id in s.pending && s.pending[id] == c <==> Unanswered(s, c) && id == Id(s.calls[c].number)
  {
    hide Id, Run, FirstReply, Numbering, StdinOk;
    var s := Run(INITIAL, steps);
    RunKeeps(steps);
    if id in s.pending && s.pending[id] == c {
      assert EntryOk(s, id);
      assert CallOk(s, c);
    }
    if Unanswered(s, c) {
      assert CallOk(s, c);
    }
  }

  /** Once all calls have returned, what is pending is exactly what failed to serialise and got no reply. */
  lemma {:induction false} PendingAtRest(steps: seq<Step>)
    requires var s := Run(INITIAL, steps); |s.issuedTo| <= WIDTH && forall c | c in s.calls :: s.calls[c].phase.Returned?
    ensures var s := Run(INITIAL, steps);
            s.pending.Values == set c | c in s.calls && s.calls[c].phase.outcome == SerializationFailed
                                       && FirstReply(s.replies, s.calls[c].registeredAt, Id(s.calls[c].number)) == None
    ensures forall id | id in Run(INITIAL, steps).pending ::
              var s := Run(INITIAL, steps); s.pending[id] in s.calls && id == Id(s.calls[s.pending[id]].number)
  {
    hide Id, Run, FirstReply;
    var s := Run(INITIAL, steps);
    forall c ensures c in s.pending.Values <==> Unanswered(s, c) {
      if c in s.pending.Values {
        var id :| id in s.pending && s.pending[id] == c;
        PendingIsUnanswered(steps, id, c);
      }
      if Unanswered(s, c) {
        PendingIsUnanswered(steps, Id(s.calls[c].number), c);
      }
    }
    forall id | id in s.pending ensures s.pending[id] in s.calls && id == Id(s.calls[s.pending[id]].number) {
      PendingIsUnanswered(steps, id, s.pending[id]);
    }
  }

  /** Requests appear on stdin in increasing order of their numbers. */
  lemma {:induction false} StdinInOrder(steps: seq<Step>)
    requires |Run(INITIAL, steps).issuedTo| <= WIDTH
    ensures Increasing(Run(INITIAL, steps).stdin)
  {
    hide Run;
    RunKeeps(steps);
  }

  // ---- Every request is written, once ---------------------------------------------------------------

  /** The call's request has been written, and the write succeeded. */
  predicate Sent(p: Phase) {
    p == Waiting || p == TimedOut || (p.Returned? && (p.outcome.Answered? || p.outcome == TimeoutError))
  }

  /** The same, or the write failed: then its line may or may not have got out. */
  predicate Wrote(p: Phase) {
    Sent(p) || p == WriteFailing || p == Returned(WriteFailed)
  }

  predicate WroteNumber(s: State, n: nat) {
    exists c :: c in s.calls && s.calls[c].number == n && HasNumber(s.calls[c].phase) && Wrote(s.calls[c].phase)
  }

  ghost predicate Written(s: State) {
    && (forall c | c in s.calls && Sent(s.calls[c].phase) :: s.calls[c].number in s.stdin)
    && forall n | n in s.stdin :: WroteNumber(s, n)
  }

  /** A call that wrote keeps its number, and stays one that wrote. */
  ghost predicate WritersStay(s: State, t: State) {
    forall c | c in s.calls && Wrote(s.calls[c].phase) ::
      c in t.calls && t.calls[c].number == s.calls[c].number && Wrote(t.calls[c].phase)
  }

  lemma StepWriters(s: State, step: Step)
    requires Enabled(s, step)
    ensures WritersStay(s, Effect(s, step))
  {
    hide Id;
  }

  lemma WroteStays(s: State, t: State, n: nat)
    requires WroteNumber(s, n) && WritersStay(s, t)
    ensures WroteNumber(t, n)
  {
    var c :| c in s.calls && s.calls[c].number == n && HasNumber(s.calls[c].phase) && Wrote(s.calls[c].phase);
    assert HasNumber(t.calls[c].phase);
  }

  /** Who is sent after a step was sent before, or has just written its line. */
  lemma StepSends(s: State, step: Step, c: nat)
    requires Enabled(s, step)
    requires var t := Effect(s, step); c in t.calls && Sent(t.calls[c].phase)
    ensures var t := Effect(s, step);
            || (c in s.calls && Sent(s.calls[c].phase) && t.calls[c].number == s.calls[c].number)
            || (step == Write(c) && t.calls[c].number in t.stdin)
    ensures s.stdin <= Effect(s, step).stdin
  {
    hide Id;
  }

  /** What is new on stdin is the number of the call that writes. */
  lemma StepWrites(s: State, step: Step, n: nat)
    requires Enabled(s, step) && n in Effect(s, step).stdin && n !in s.stdin
    ensures WroteNumber(Effect(s, step), n)
  {
    hide Id;
    var t := Effect(s, step);
    assert step.Write? || step.WriteFails?;
    assert t.calls[step.c].number == n && Wrote(t.calls[step.c].phase);
  }

  lemma StepWritten(s: State, step: Step)
    requires Written(s)
    ensures Written(Do(s, step))
  {
    hide Effect, Wrote, Sent, WroteNumber, WritersStay;
    if Enabled(s, step) {
      var t := Effect(s, step);
      StepWriters(s, step);
      forall c | c in t.calls && Sent(t.calls[c].phase) ensures t.calls[c].number in t.stdin {
        StepSends(s, step, c);
      }
      forall n | n in t.stdin ensures WroteNumber(t, n) {
        if n in s.stdin {
          WroteStays(s, t, n);
        } else {
          StepWrites(s, step, n);
        }
      }
    }
  }

  lemma NothingWritten()
    ensures Written(INITIAL)
  {
  }

  lemma {:induction false} RunWritten(steps: seq<Step>)
    ensures Written(Run(INITIAL, steps))
  {
    hide Written, Do;
    if steps == [] {
      NothingWritten();
    } else {
      RunWritten(steps[..|steps| - 1]);
      StepWritten(Run(INITIAL, steps[..|steps| - 1]), steps[|steps| - 1]);
    }
  }

  lemma {:induction false} IncreasingOnce(ns: seq<nat>, n: nat)
    requires Increasing(ns) && n in ns
    ensures multiset(ns)[n] == 1
  {
    var init, last := ns[..|ns| - 1], ns[|ns| - 1];
    assert ns == init + [last];
    assert forall m | m in init :: m < last;
    if last == n {
      assert n !in init;
    } else {
      IncreasingOnce(init, n);
    }
  }

  /**
   The request of a call that waits, timed out or returned an answer or a timeout is on stdin exactly once;
   that of a call before its write, or that failed to serialise, is not; and every number on stdin is that
   of a call that wrote.
   */
  lemma {:induction false} RequestsWritten(steps: seq<Step>, c: nat)
    requires var s := Run(INITIAL, steps); |s.issuedTo| <= WIDTH && c in s.calls && HasNumber(s.calls[c].phase)
    ensures var s := Run(INITIAL, steps);
            && (Sent(s.calls[c].phase) ==> multiset(s.stdin)[s.calls[c].number] == 1)
            && (!Wrote(s.calls[c].phase) ==> s.calls[c].number !in s.stdin)
            && forall n | n in s.stdin :: WroteNumber(s, n)
  {
    hide Run, Wrote, Sent, Increasing, Numbering;
    var s := Run(INITIAL, steps);
    RunWritten(steps);
    StdinInOrder(steps);
    RunNumbers(steps);
    FewNumbersDistinct(s);
    if Sent(s.calls[c].phase) {
      IncreasingOnce(s.stdin, s.calls[c].number);
    }
  }

  /** A call that waits holds the first reply to it since it registered, as soon as the pump has read it. */
  lemma {:induction false} WaitingGetsReply(steps: seq<Step>, c: nat)
    requires var s := Run(INITIAL, steps); |s.issuedTo| <= WIDTH && c in s.calls && s.calls[c].phase == Waiting
    ensures var s := Run(INITIAL, steps);
            var reply := FirstReply(s.replies, s.calls[c].registeredAt, Id(s.calls[c].number));
            && s.calls[c].mailbox == reply
            && (reply.Some? ==> Do(s, Receive(c)).calls[c].phase == Returned(Answered(reply.value)))
            && (reply.None? ==> Do(s, TimeOut(c)).calls[c].phase == TimedOut)
  {
    hide Id, Run, FirstReply;
    RunKeeps(steps);
    assert CallOk(Run(INITIAL, steps), c);
  }

  /** A call whose runtime could not be started has returned; any other is ready, and takes the lock when it is free. */
  lemma CallBegins(s: State, c: nat, started: bool)
    requires c !in s.calls && s.holder.None?
    ensures var t := Do(s, Begin(c, started));
            && c in t.calls && t.calls[c].phase == (if started then Ready else Returned(NotStarted))
            && (started ==> Do(t, Acquire(c)).holder == Some(c) && Do(t, Acquire(c)).calls[c].phase == Holding)
  {
    hide Id;
  }

  /** A call takes its steps in their order, and each has one outcome. */
  lemma CallPath(s: State, c: nat)
    requires c in s.calls && s.holder == Some(c)
    ensures In(s, c, Holding) ==> Do(s, TakeNumber(c)).calls[c].phase == Numbered
    ensures In(s, c, Numbered) ==> Do(s, Register(c)).calls[c].phase == Registered
    ensures In(s, c, Registered) ==>
              && Do(s, Write(c)).calls[c].phase == Waiting && Do(s, Write(c)).holder == None
              && Do(s, SerializeFails(c)).calls[c].phase == Returned(SerializationFailed) && Do(s, SerializeFails(c)).holder == None
              && forall out :: Do(s, WriteFails(c, out)).calls[c].phase == WriteFailing
    ensures In(s, c, WriteFailing) ==> Do(s, Unregister(c)).calls[c].phase == Returned(WriteFailed) && Do(s, Unregister(c)).holder == None
  {
    hide Id;
  }
}
