/** Streamed tokens on their way to the transcript: queue, timed flush, discard on cancellation. */
module TokenBuffer {
  import opened Seqs
  import opened TraceEvents
  import opened CancelGate

  datatype Token = Token(taskId: string, delta: string)

  // ---- The fate of a queued token ---------------------------------------------------------

  datatype Op = Queue(token: Token) | Flush | Discard(taskId: string) | Clear

  datatype Fate = Applied | Dropped | Waiting

  /** What the operations after its queueing do to a token: the first that concerns it decides. */
  function FateIn(token: Token, later: seq<Op>): Fate {
    if later == [] then Waiting
    else
      match later[0]
      case Queue(_) => FateIn(token, later[1..])
      case Flush => Applied
      case Discard(taskId) => if taskId == token.taskId then Dropped else FateIn(token, later[1..])
      case Clear => Dropped
  }

  /** The queued tokens of one fate, in the order they were queued. */
  function Select(log: seq<Op>, fate: Fate): seq<Token> {
    if log == [] then []
    else if log[0].Queue? && FateIn(log[0].token, log[1..]) == fate then [log[0].token] + Select(log[1..], fate)
    else Select(log[1..], fate)
  }

  /** The queued tokens that were not dropped, in the order they were queued. */
  function Survivors(log: seq<Op>): seq<Token> {
    if log == [] then []
    else if log[0].Queue? && FateIn(log[0].token, log[1..]) != Dropped then [log[0].token] + Survivors(log[1..])
    else Survivors(log[1..])
  }

  function Queued(log: seq<Op>): seq<Token> {
    if log == [] then []
    else if log[0].Queue? then [log[0].token] + Queued(log[1..])
    else Queued(log[1..])
  }

  lemma {:induction false} FateAppend(token: Token, later: seq<Op>, op: Op)
    ensures FateIn(token, later + [op])
            == if FateIn(token, later) == Waiting then FateIn(token, [op]) else FateIn(token, later)
  {
    if later == [] {
      assert later + [op] == [op];
    } else {
      assert (later + [op])[1..] == later[1..] + [op];
      FateAppend(token, later[1..], op);
    }
  }

  lemma {:induction false} QueueAppend(log: seq<Op>, token: Token)
    ensures Select(log + [Queue(token)], Applied) == Select(log, Applied)
    ensures Select(log + [Queue(token)], Waiting) == Select(log, Waiting) + [token]
  {
    var after := log + [Queue(token)];
    if log == [] {
      assert after[1..] == [];
    } else {
      assert after[1..] == log[1..] + [Queue(token)];
      QueueAppend(log[1..], token);
      if log[0].Queue? {
        FateAppend(log[0].token, log[1..], Queue(token));
      }
    }
  }

  lemma {:induction false} NothingAppliedBehindAWaitingToken(token: Token, later: seq<Op>)
    requires FateIn(token, later) == Waiting
    ensures Select(later, Applied) == []
  {
    if later != [] {
      NothingAppliedBehindAWaitingToken(token, later[1..]);
      if later[0].Queue? {
        NoFlushNoApplied(token, later[0].token, later[1..]);
      }
    }
  }

  lemma {:induction false} NoFlushNoApplied(waiting: Token, token: Token, later: seq<Op>)
    requires FateIn(waiting, later) == Waiting
    ensures FateIn(token, later) != Applied
  {
    if later != [] {
      match later[0]
      case Queue(_) => NoFlushNoApplied(waiting, token, later[1..]);
      case Discard(_) => NoFlushNoApplied(waiting, token, later[1..]);
      case _ =>
    }
  }

  /** A flush applies what waits, behind everything applied before. */
  lemma {:induction false} FlushAppend(log: seq<Op>)
    ensures Select(log + [Flush], Applied) == Select(log, Applied) + Select(log, Waiting)
    ensures Select(log + [Flush], Waiting) == []
  {
    var after := log + [Flush];
    if log == [] {
      assert after[1..] == [];
    } else {
      assert after[1..] == log[1..] + [Flush];
      FlushAppend(log[1..]);
      if log[0].Queue? {
        FateAppend(log[0].token, log[1..], Flush);
        if FateIn(log[0].token, log[1..]) == Waiting {
          NothingAppliedBehindAWaitingToken(log[0].token, log[1..]);
        }
      }
    }
  }

  function OfOtherTask(taskId: string): Token -> bool {
    (token: Token) => token.taskId != taskId
  }

  lemma {:induction false} DiscardAppend(log: seq<Op>, taskId: string)
    ensures Select(log + [Discard(taskId)], Applied) == Select(log, Applied)
    ensures Select(log + [Discard(taskId)], Waiting) == Filter(OfOtherTask(taskId), Select(log, Waiting))
  {
    var after := log + [Discard(taskId)];
    if log == [] {
      assert after[1..] == [];
    } else {
      assert after[1..] == log[1..] + [Discard(taskId)];
      DiscardAppend(log[1..], taskId);
      if log[0].Queue? {
        FateAppend(log[0].token, log[1..], Discard(taskId));
        var rest := Select(log[1..], Waiting);
        assert ([log[0].token] + rest)[1..] == rest;
      }
    }
  }

  lemma {:induction false} ClearAppend(log: seq<Op>)
    ensures Select(log + [Clear], Applied) == Select(log, Applied)
    ensures Select(log + [Clear], Waiting) == []
  {
    var after := log + [Clear];
    if log == [] {
      assert after[1..] == [];
    } else {
      assert after[1..] == log[1..] + [Clear];
      ClearAppend(log[1..]);
      if log[0].Queue? {
        FateAppend(log[0].token, log[1..], Clear);
      }
    }
  }

  /** Applied and waiting tokens together are the queued ones that were not dropped, in order. */
  lemma {:induction false} NothingReordered(log: seq<Op>)
    ensures Select(log, Applied) + Select(log, Waiting) == Survivors(log)
  {
    if log != [] {
      NothingReordered(log[1..]);
      if log[0].Queue? && FateIn(log[0].token, log[1..]) == Waiting {
        NothingAppliedBehindAWaitingToken(log[0].token, log[1..]);
      }
    }
  }

  lemma {:induction false} NothingLost(log: seq<Op>)
    ensures multiset(Queued(log)) == multiset(Survivors(log)) + multiset(Select(log, Dropped))
  {
    hide FateIn;
    if log != [] {
      NothingLost(log[1..]);
    }
  }

  lemma {:induction false} LiveStep(es: seq<Event>, e: Event)
    ensures LiveCancelled(es + [e]) == LiveCancelledAfter(e, LiveCancelled(es))
    ensures LiveDropsAt(es + [e], |es|) <==> LiveDrops(e, LiveCancelled(es + [e]))
  {
    var all := es + [e];
    assert all[..|all| - 1] == es && all[..|all|] == all;
  }

  // ---- The buffer --------------------------------------------------------------------------------

  /** What the handler of an event does with the buffer. */
  datatype Effect = Queues(delta: string) | Flushes | LeavesAlone

  class AssistantTokens {
    var pending: seq<Token>
    var timerArmed: bool
    var cancelledTaskIds: set<string>
    var applied: seq<Token>       // handed to the transcript so far
    ghost var log: seq<Op>
    ghost var received: seq<Event>

    /** The timer runs exactly while tokens wait, and the fields are what the history amounts to. */
    ghost predicate Consistent()
      reads this
    {
      && (timerArmed <==> pending != [])
      && applied == Select(log, Applied)
      && pending == Select(log, Waiting)
      && cancelledTaskIds == LiveCancelled(received)
    }

    /** And no waiting token belongs to a cancelled task. */
    ghost predicate Valid()
      reads this
    {
      Consistent() && forall t | t in pending && t.taskId != "" :: t.taskId !in cancelledTaskIds
    }

    constructor ()
      ensures Valid() && pending == [] && applied == [] && received == []
    {
      pending, timerArmed, cancelledTaskIds, applied := [], false, {}, [];
      log, received := [], [];
    }

    method FlushPendingAssistantTokens()
      requires Valid()
      modifies this`pending, this`timerArmed, this`applied, this`log
      ensures Valid() && pending == [] && applied == old(applied) + old(pending)
      ensures log == old(log) + [Flush]
    {
      FlushAppend(log);
      log := log + [Flush];
      if pending == [] {
        return;
      }
      var pendingEvents := pending;
      pending := [];
      if timerArmed {
        timerArmed := false;
      }
      applied := applied + pendingEvents;
    }

    method DiscardPendingAssistantTokensForTask(taskId: string)
      requires Consistent() && forall t | t in pending && t.taskId != "" && t.taskId != taskId :: t.taskId !in cancelledTaskIds
      modifies this`pending, this`timerArmed, this`log
      ensures Valid() && pending == Filter(OfOtherTask(taskId), old(pending)) && log == old(log) + [Discard(taskId)]
    {
      DiscardAppend(log, taskId);
      FilterMembers(OfOtherTask(taskId), pending);
      log := log + [Discard(taskId)];
      var nextEvents := Filter(OfOtherTask(taskId), pending);
      pending := nextEvents;
      if |nextEvents| == 0 && timerArmed {
        timerArmed := false;
      }
    }

    method QueueAssistantToken(token: Token)
      requires Valid()
      modifies this`pending, this`timerArmed, this`log
      ensures Consistent() && (token.taskId != "" ==> token.taskId !in cancelledTaskIds) ==> Valid()
      ensures Consistent() && pending == if token.delta == "" then old(pending) else old(pending) + [token]
      ensures log == if token.delta == "" then old(log) else old(log) + [Queue(token)]
    {
      if token.delta == "" {
        return;
      }
      QueueAppend(log, token);
      log := log + [Queue(token)];
      pending := pending + [token];
      if timerArmed {
        return;
      }
      timerArmed := true;
    }

    /** The timer's callback forgets the timer before it flushes. */
    method TimerFires()
      requires Valid() && timerArmed
      modifies this`pending, this`timerArmed, this`applied, this`log
      ensures Valid() && pending == [] && applied == old(applied) + old(pending)
      ensures log == old(log) + [Flush]
    {
      FlushAppend(log);
      log := log + [Flush];
      timerArmed := false;
      var pendingEvents := pending;
      if pendingEvents == [] {
        return;
      }
      pending := [];
      applied := applied + pendingEvents;
    }

    method ClearPendingAssistantTokens()
      requires Valid()
      modifies this`pending, this`timerArmed, this`log
      ensures Valid() && pending == [] && log == old(log) + [Clear]
    {
      ClearAppend(log);
      log := log + [Clear];
      pending := [];
      if timerArmed {
        timerArmed := false;
      }
    }

    /** The live set follows the event, and a cancelled task loses what it has waiting. */
    method TrackCancellation(event: Event)
      requires Valid()
      modifies this
      ensures Valid() && cancelledTaskIds == LiveCancelledAfter(event, old(cancelledTaskIds))
      ensures received == old(received) + [event] && LiveDropsAt(received, |received| - 1) == LiveDrops(event, cancelledTaskIds)
      ensures log == old(log) + TrackOps(event)
    {
      hide LiveCancelled, LiveDropsAt, LiveDrops, Select, FateIn, Filter;
      LiveStep(received, event);
      received := received + [event];
      if IsRestart(event.body) {
        cancelledTaskIds := cancelledTaskIds - {event.taskId};
      } else if IsCancel(event.body) {
        cancelledTaskIds := cancelledTaskIds + {event.taskId};
        DiscardPendingAssistantTokensForTask(event.taskId);
      }
    }

    /** The part of the subscription callback that concerns the gate and the buffer. */
    method OnEvent(event: Event, effect: Effect) returns (suppressed: bool)
      requires Valid() && (effect.Queues? ==> event.body.AssistantToken? || event.body.MessageDelta?)
      modifies this
      ensures Valid()
      ensures received == old(received) + [event] && suppressed == LiveDropsAt(received, |received| - 1)
      ensures log == old(log) + TrackOps(event) + EffectOps(event, effect, suppressed)
    {
      hide LiveCancelled, LiveDropsAt, LiveCancelledAfter, Select, FateIn, TrackOps;
      TrackCancellation(event);
      if event.taskId != "" && event.taskId in cancelledTaskIds && !LiveExempt(event) {
        return true;
      }
      suppressed := false;
      match effect {
        case Queues(delta) => QueueAssistantToken(Token(event.taskId, delta));
        case Flushes => FlushPendingAssistantTokens();
        case LeavesAlone =>
      }
    }
  }

  /** The operation on the buffer that following an event amounts to. */
  function TrackOps(event: Event): seq<Op> {
    if IsCancel(event.body) then [Discard(event.taskId)] else []
  }

  /** And the one its handler adds, unless the event is suppressed. */
  function EffectOps(event: Event, effect: Effect, suppressed: bool): seq<Op> {
    if suppressed then []
    else
      match effect
      case Queues(delta) => if delta == "" then [] else [Queue(Token(event.taskId, delta))]
      case Flushes => [Flush]
      case LeavesAlone => []
  }
}
