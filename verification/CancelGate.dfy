/** Which events of a cancelled task get through: the replay gate, its declarative rule, and the live gate. */
module CancelGate {
  import opened TraceEvents
  import opened TraceReplay

  // ---- The replay gate ---------------------------------------------------------------

  /** The set of cancelled tasks after the events es. */
  function ReplayCancelled(cancelled: set<string>, es: seq<Event>): set<string> {
    if es == [] then cancelled
    else
      var before := ReplayCancelled(cancelled, es[..|es| - 1]);
      var e := es[|es| - 1];
      if ReplayDrops(e, before) then before else CancelledAfter(e, before)
  }

  predicate ReplayDropsAt(es: seq<Event>, i: nat)
    requires i < |es|
  {
    ReplayDrops(es[i], ReplayCancelled({}, es[..i]))
  }

  /** The events the replay loop hands on, in order. */
  function Admitted(cancelled: set<string>, es: seq<Event>): seq<Event> {
    if es == [] then []
    else
      var init, e := es[..|es| - 1], es[|es| - 1];
      Admitted(cancelled, init) + if ReplayDrops(e, ReplayCancelled(cancelled, init)) then [] else [e]
  }

  lemma {:induction false} ReplayTracksCancelled(env: Environment, s: ReplayState, es: seq<Event>)
    ensures ReplayAll(env, s, es).cancelled == ReplayCancelled(s.cancelled, es)
  {
    hide ReplayEvent, CancelledAfter, ReplayDrops;
    if es != [] {
      ReplayTracksCancelled(env, s, es[..|es| - 1]);
    }
  }

  // ---- Its declarative rule ----------------------------------------------------------------

  predicate CancelOf(e: Event, taskId: string) {
    IsCancel(e.body) && e.taskId == taskId
  }

  predicate RestartOf(e: Event, taskId: string) {
    IsRestart(e.body) && e.taskId == taskId
  }

  predicate CancelledIn(es: seq<Event>, taskId: string) {
    exists j :: 0 <= j < |es| && CancelOf(es[j], taskId)
  }

  predicate Exempt(e: Event) {
    IsCancel(e.body) || IsCommandCancel(e.body) || e.body.SessionUpdated?
  }

  /** The rule: dropped when the task was cancelled before, unless the type is exempt. */
  predicate Barred(es: seq<Event>, i: nat)
    requires i < |es|
  {
    es[i].taskId != "" && CancelledIn(es[..i], es[i].taskId) && !Exempt(es[i])
  }

  lemma CancelledInStep(es: seq<Event>, taskId: string)
    requires es != []
    ensures CancelledIn(es, taskId) <==> CancelledIn(es[..|es| - 1], taskId) || CancelOf(es[|es| - 1], taskId)
  {
    var init := es[..|es| - 1];
    if CancelledIn(init, taskId) {
      var j :| 0 <= j < |init| && CancelOf(init[j], taskId);
      assert es[j] == init[j];
    }
    if CancelledIn(es, taskId) {
      var j :| 0 <= j < |es| && CancelOf(es[j], taskId);
      assert j < |init| ==> init[j] == es[j];
    }
  }

  /** A task leaves the set of cancelled ones only by a restart, and restarts of cancelled tasks are dropped. */
  lemma {:induction false} ReplayCancelledIff(cancelled: set<string>, es: seq<Event>, taskId: string)
    requires taskId != ""
    ensures taskId in ReplayCancelled(cancelled, es) <==> taskId in cancelled || CancelledIn(es, taskId)
  {
    if es != [] {
      ReplayCancelledIff(cancelled, es[..|es| - 1], taskId);
      CancelledInStep(es, taskId);
    }
  }

  /** The stateful filter is the declarative rule. */
  lemma ReplayGateIsTheRule(es: seq<Event>, i: nat)
    requires i < |es|
    ensures ReplayDropsAt(es, i) <==> Barred(es, i)
  {
    if es[i].taskId != "" {
      ReplayCancelledIff({}, es[..i], es[i].taskId);
    }
  }

  /** The rule in terms of events: the task was cancelled before; cancellations, cancelled commands and session updates get through. */
  lemma BarredIff(es: seq<Event>, i: nat)
    requires i < |es|
    ensures ReplayDropsAt(es, i)
            <==> && es[i].taskId != ""
                 && (exists j :: 0 <= j < i && es[j].body == TaskEnded(TaskCancelled) && es[j].taskId == es[i].taskId)
                 && es[i].body != TaskEnded(TaskCancelled) && !es[i].body.SessionUpdated?
                 && !(es[i].body.CommandFinished? && es[i].body.how == CommandCancelled)
  {
    ReplayGateIsTheRule(es, i);
    var before := es[..i];
    if CancelledIn(before, es[i].taskId) {
      var j :| 0 <= j < |before| && CancelOf(before[j], es[i].taskId);
      assert es[j] == before[j];
    }
    if j :| 0 <= j < i && es[j].body == TaskEnded(TaskCancelled) && es[j].taskId == es[i].taskId {
      assert CancelOf(before[j], es[i].taskId);
    }
  }

  /** The events of a trace the rule spares, in order. */
  function Spared(es: seq<Event>): seq<Event> {
    if es == [] then []
    else Spared(es[..|es| - 1]) + if Barred(es, |es| - 1) then [] else [es[|es| - 1]]
  }

  lemma {:induction false} AdmittedAreSpared(es: seq<Event>)
    ensures Admitted({}, es) == Spared(es)
  {
    hide Barred, ReplayDrops;
    if es != [] {
      AdmittedAreSpared(es[..|es| - 1]);
      ReplayGateIsTheRule(es, |es| - 1);
    }
  }

  // ---- The live gate ---------------------------------------------------------------------------

  /** The subscription callback updates the set before it asks whether to drop the event. */
  function LiveCancelledAfter(e: Event, cancelled: set<string>): set<string> {
    if IsRestart(e.body) then cancelled - {e.taskId}
    else if IsCancel(e.body) then cancelled + {e.taskId}
    else cancelled
  }

  function LiveCancelled(es: seq<Event>): set<string> {
    if es == [] then {} else LiveCancelledAfter(es[|es| - 1], LiveCancelled(es[..|es| - 1]))
  }

  predicate LiveExempt(e: Event) {
    IsTaskEvent(e.body) || e.body.SessionCreated? || e.body.SessionUpdated? || IsCommandCancel(e.body)
  }

  /** shouldSuppressCancelledTaskEvent */
  predicate LiveDrops(e: Event, cancelled: set<string>) {
    e.taskId != "" && e.taskId in cancelled && !LiveExempt(e)
  }

  predicate LiveDropsAt(es: seq<Event>, i: nat)
    requires i < |es|
  {
    LiveDrops(es[i], LiveCancelled(es[..i + 1]))
  }

  /** Position j cancels the task and nothing restarts it afterwards. */
  predicate StandingCancel(es: seq<Event>, taskId: string, j: int) {
    0 <= j < |es| && CancelOf(es[j], taskId) && forall k | j < k < |es| :: !RestartOf(es[k], taskId)
  }

  lemma {:induction false} LiveCancelledIff(es: seq<Event>, taskId: string)
    ensures taskId in LiveCancelled(es) <==> exists j :: StandingCancel(es, taskId, j)
  {
    if es != [] {
      var n := |es| - 1;
      var init := es[..n];
      LiveCancelledIff(init, taskId);
      if CancelOf(es[n], taskId) {
        assert StandingCancel(es, taskId, n);
      } else {
        forall j | 0 <= j < n && !RestartOf(es[n], taskId) ensures StandingCancel(es, taskId, j) <==> StandingCancel(init, taskId, j) {
          assert forall k | j < k < n :: init[k] == es[k];
        }
        assert !StandingCancel(es, taskId, n);
        if taskId in LiveCancelled(es) {
          var j :| StandingCancel(init, taskId, j);
          assert StandingCancel(es, taskId, j);
        }
        if j :| StandingCancel(es, taskId, j) {
          assert j < n;
        }
      }
    }
  }

  /** The live gate in terms of events: a cancellation of the task stands, up to and with the event; task and session events get through. */
  lemma LiveDropsIff(es: seq<Event>, i: nat)
    requires i < |es|
    ensures LiveDropsAt(es, i)
            <==> && es[i].taskId != ""
                 && (exists j :: 0 <= j <= i && es[j].body == TaskEnded(TaskCancelled) && es[j].taskId == es[i].taskId
                                 && forall k | j < k <= i && es[k].taskId == es[i].taskId :: !es[k].body.TaskStarted? && !es[k].body.TaskResumed?)
                 && !es[i].body.TaskEnded? && !es[i].body.TaskStarted? && !es[i].body.TaskResumed? && !es[i].body.OtherTaskEvent?
                 && !es[i].body.QuestionAnswered? && !es[i].body.SessionCreated? && !es[i].body.SessionUpdated?
                 && !(es[i].body.CommandFinished? && es[i].body.how == CommandCancelled)
  {
    var upTo, task := es[..i + 1], es[i].taskId;
    LiveCancelledIff(upTo, task);
    assert forall k | 0 <= k <= i :: upTo[k] == es[k];
    if j :| StandingCancel(upTo, task, j) {
      assert es[j].body == TaskEnded(TaskCancelled);
      assert forall k | j < k <= i && es[k].taskId == task :: !RestartOf(upTo[k], task);
    }
    if j :| 0 <= j <= i && es[j].body == TaskEnded(TaskCancelled) && es[j].taskId == task
            && forall k | j < k <= i && es[k].taskId == task :: !es[k].body.TaskStarted? && !es[k].body.TaskResumed? {
      assert StandingCancel(upTo, task, j);
    }
  }

  // ---- Where the two agree ---------------------------------------------------------------------

  /** The task of event i was cancelled before and is restarted since its last cancellation. */
  ghost predicate Reopened(es: seq<Event>, i: nat)
    requires i < |es|
  {
    CancelledIn(es[..i], es[i].taskId) && !exists j :: StandingCancel(es[..i], es[i].taskId, j)
  }

  /** An event both gates may drop. */
  predicate Ordinary(e: Event) {
    e.taskId != "" && !LiveExempt(e)
  }

  lemma OrdinaryChangesNoSet(es: seq<Event>, i: nat)
    requires i < |es| && Ordinary(es[i])
    ensures LiveCancelled(es[..i + 1]) == LiveCancelled(es[..i])
  {
    assert es[..i + 1][..i] == es[..i];
  }

  /** On an event outside the task types and session.created the gates differ exactly when its task was reopened. */
  lemma GatesAgreeIff(es: seq<Event>, i: nat)
    requires i < |es| && !IsTaskEvent(es[i].body) && !es[i].body.SessionCreated?
    ensures ReplayDropsAt(es, i) == LiveDropsAt(es, i) <==> !(Ordinary(es[i]) && Reopened(es, i))
  {
    if Ordinary(es[i]) {
      ReplayCancelledIff({}, es[..i], es[i].taskId);
      OrdinaryChangesNoSet(es, i);
      LiveCancelledIff(es[..i], es[i].taskId);
      if j :| StandingCancel(es[..i], es[i].taskId, j) {
        assert CancelOf(es[..i][j], es[i].taskId);
      }
    }
  }

  /** No task is started or resumed after it was cancelled. */
  predicate NeverReopens(es: seq<Event>) {
    forall c, r | 0 <= c < r < |es| && IsCancel(es[c].body) && IsRestart(es[r].body) :: es[r].taskId != es[c].taskId
  }

  lemma NeverReopened(es: seq<Event>, i: nat)
    requires i < |es| && NeverReopens(es)
    ensures !Reopened(es, i)
  {
    var task := es[i].taskId;
    if CancelledIn(es[..i], task) {
      var j :| 0 <= j < i && CancelOf(es[..i][j], task);
      assert StandingCancel(es[..i], task, j);
    }
  }

  /** Without restarts after a cancellation both gates let the same events through. */
  lemma GatesAgree(es: seq<Event>)
    requires NeverReopens(es)
    ensures forall i: nat | i < |es| && !IsTaskEvent(es[i].body) && !es[i].body.SessionCreated? :: ReplayDropsAt(es, i) == LiveDropsAt(es, i)
  {
    forall i: nat | i < |es| && !IsTaskEvent(es[i].body) && !es[i].body.SessionCreated? ensures ReplayDropsAt(es, i) == LiveDropsAt(es, i) {
      NeverReopened(es, i);
      GatesAgreeIff(es, i);
    }
  }

  /** A resumed task shows live what its replay drops. */
  lemma ResumedTaskDiverges(cancel: Event, resume: Event, later: Event)
    requires IsCancel(cancel.body) && resume.body.TaskResumed? && later.body.MessageDelta?
    requires cancel.taskId == resume.taskId == later.taskId != ""
    ensures ReplayDropsAt([cancel, resume, later], 2) && !LiveDropsAt([cancel, resume, later], 2)
  {
    var es := [cancel, resume, later];
    assert CancelOf(es[..2][0], later.taskId);
    ReplayGateIsTheRule(es, 2);
    OrdinaryChangesNoSet(es, 2);
    assert es[..2][1] == resume;
  }
}
