/** Stamping and fanning out runtime events. */
module EventBus {
  import opened Seqs

  type Sink = nat

  /** What a sink does with an event: raise, return nothing usable, or return the record it persisted. */
  datatype Response = Raises | Ignores | Persisted(id: Option<string>, sequence: Option<int>)

  // ---- Stamps ------------------------------------------------------------------------------

  function NextTs(lastTs: int, ts: int): int {
    if ts <= lastTs then lastTs + 1 else ts
  }

  /** The time stamp of the last of several publications, given the times they came with in lock order. */
  function LastTs(inputs: seq<int>): int {
    if inputs == [] then 0 else NextTs(LastTs(inputs[..|inputs| - 1]), inputs[|inputs| - 1])
  }

  datatype Stamp = Stamp(number: int, ts: int)

  /** The stamp of the k-th publication. */
  function StampAt(inputs: seq<int>, k: nat): Stamp
    requires k < |inputs|
  {
    Stamp(k + 1, LastTs(inputs[..k + 1]))
  }

  lemma StampStep(inputs: seq<int>, k: nat)
    requires k < |inputs|
    ensures StampAt(inputs, k).ts == NextTs(LastTs(inputs[..k]), inputs[k]) > LastTs(inputs[..k])
  {
    assert inputs[..k + 1][..k] == inputs[..k];
  }

  /** Sequence numbers and time stamps both increase strictly in the order of the lock. */
  lemma {:induction false} StampsIncrease(inputs: seq<int>, i: nat, j: nat)
    requires i < j < |inputs|
    ensures 0 < StampAt(inputs, i).ts < StampAt(inputs, j).ts && 0 < StampAt(inputs, i).number < StampAt(inputs, j).number
    decreases j
  {
    StampStep(inputs, j);
    if i + 1 < j {
      StampsIncrease(inputs, i, j - 1);
    } else {
      StampPositive(inputs, i);
    }
  }

  lemma {:induction false} StampPositive(inputs: seq<int>, k: nat)
    requires k < |inputs|
    ensures StampAt(inputs, k).ts > 0
  {
    StampStep(inputs, k);
    if k > 0 {
      StampPositive(inputs, k - 1);
    }
  }

  ghost predicate PositiveIncreasing(ts: seq<int>) {
    (forall i | 0 <= i < |ts| :: ts[i] > 0) && forall i, j | 0 <= i < j < |ts| :: ts[i] < ts[j]
  }

  /** The stamps are a strictly increasing positive sequence not below the times given, and the least such. */
  lemma {:induction false} StampsAreLeast(inputs: seq<int>, ts: seq<int>, k: nat)
    requires |ts| == |inputs| && PositiveIncreasing(ts) && (forall i | 0 <= i < |ts| :: inputs[i] <= ts[i])
    requires k < |inputs|
    ensures inputs[k] <= StampAt(inputs, k).ts <= ts[k]
  {
    StampStep(inputs, k);
    if k > 0 {
      StampsAreLeast(inputs, ts, k - 1);
    }
  }

  // ---- The bus -------------------------------------------------------------------------------

  /** A published event; the bus writes its stamp into it and sinks may replace id and sequence. */
  class RuntimeEvent {
    var eventId: string
    var seqNumber: int
    var ts: int

    constructor (eventId: string, ts: int)
      ensures this.eventId == eventId && this.ts == ts && seqNumber == 0
    {
      this.eventId, this.ts, seqNumber := eventId, ts, 0;
    }
  }

  /** The last non-empty id persisted by the sinks called so far. */
  function PersistedId(eventId: string, responses: seq<Response>): string {
    if responses == [] then eventId
    else
      var last := responses[|responses| - 1];
      if last.Persisted? && last.id.Some? && last.id.value != "" then last.id.value
      else PersistedId(eventId, responses[..|responses| - 1])
  }

  function PersistedSequence(number: int, responses: seq<Response>): int {
    if responses == [] then number
    else
      var last := responses[|responses| - 1];
      if last.Persisted? && last.sequence.Some? then last.sequence.value
      else PersistedSequence(number, responses[..|responses| - 1])
  }

  /** A call of a sink, with the number and time it saw. */
  datatype Delivery = Delivery(sink: Sink, seqNumber: int, ts: int)

  class Bus {
    var subscribers: seq<Sink>
    var seqCounter: int
    var lastTs: int
    ghost var inputs: seq<int>   // the times of all publications, in lock order

    ghost predicate Valid()
      reads this
    {
      seqCounter == |inputs| && lastTs == LastTs(inputs)
    }

    constructor ()
      ensures Valid() && inputs == [] && subscribers == []
    {
      subscribers, seqCounter, lastTs := [], 0, 0;
      inputs := [];
    }

    method Subscribe(sink: Sink)
      requires Valid()
      modifies this`subscribers
      ensures Valid() && subscribers == old(subscribers) + [sink]
    {
      subscribers := subscribers + [sink];
    }

    /** responses[k] is what the k-th subscriber does; a sink that raises stops no other. */
    method Publish(event: RuntimeEvent, responses: seq<Response>) returns (delivered: seq<Delivery>)
      requires Valid() && |responses| == |subscribers|
      modifies this`seqCounter, this`lastTs, this`inputs, event
      ensures Valid() && inputs == old(inputs) + [old(event.ts)]
      ensures var stamp := StampAt(inputs, |inputs| - 1);
              && event.ts == stamp.ts && event.seqNumber == PersistedSequence(stamp.number, responses)
              && |delivered| == |subscribers|
              && forall k | 0 <= k < |delivered| ::
                   delivered[k] == Delivery(subscribers[k], PersistedSequence(stamp.number, responses[..k]), stamp.ts)
      ensures event.eventId == PersistedId(old(event.eventId), responses)
    {
      ghost var before := inputs;
      seqCounter := seqCounter + 1;
      event.seqNumber := seqCounter;
      if event.ts <= lastTs {
        event.ts := lastTs + 1;
      }
      lastTs := event.ts;
      inputs := before + [old(event.ts)];
      assert inputs[..|before|] == before && inputs[..|before| + 1] == inputs;
      ghost var stamp := StampAt(inputs, |before|);
      var snapshot := subscribers;
      delivered := [];
      for k := 0 to |snapshot|
        modifies event
        invariant event.ts == stamp.ts && |delivered| == k
        invariant event.seqNumber == PersistedSequence(stamp.number, responses[..k])
        invariant event.eventId == PersistedId(old(event.eventId), responses[..k])
        invariant forall i | 0 <= i < k ::
            delivered[i] == Delivery(snapshot[i], PersistedSequence(stamp.number, responses[..i]), stamp.ts)
      {
        assert responses[..k + 1][..k] == responses[..k];
        delivered := delivered + [Delivery(snapshot[k], event.seqNumber, event.ts)];
        match responses[k] {
          case Raises => continue;
          case Ignores =>
          case Persisted(id, sequence) =>
            if id.Some? && id.value != "" {
              event.eventId := id.value;
            }
            if sequence.Some? {
              event.seqNumber := sequence.value;
            }
        }
      }
      assert responses[..|responses|] == responses;
    }
  }

  // ---- Interleaved publishers -----------------------------------------------------------------

  /**
   A publication under way: its place in the lock order, its stamp, the subscribers of that moment, and
   what the sinks called so far did.
   */
  datatype Publication = Publication(place: nat, stamp: Stamp, snapshot: seq<Sink>, responses: seq<Response>)

  datatype Call = Call(publisher: nat, delivery: Delivery)

  datatype State = State(subscribers: seq<Sink>, inputs: seq<int>, publications: map<nat, Publication>, calls: seq<Call>)

  /** Subscriptions and stampings hold the lock; sinks are called outside it, one at a time by each publisher. */
  datatype Step = Subscribing(sink: Sink) | Stamping(publisher: nat, ts: int) | Calling(publisher: nat, response: Response)

  /** The next call of a publication: the sink sees the number the sinks before it left. */
  function NextDelivery(q: Publication): Delivery
    requires |q.responses| < |q.snapshot|
  {
    Delivery(q.snapshot[|q.responses|], PersistedSequence(q.stamp.number, q.responses), q.stamp.ts)
  }

  predicate Unfinished(s: State, p: nat) {
    p in s.publications && |s.publications[p].responses| < |s.publications[p].snapshot|
  }

  function Do(s: State, step: Step): State {
    match step
    case Subscribing(sink) => s.(subscribers := s.subscribers + [sink])
    case Stamping(p, ts) =>
      if p in s.publications then s
      else
        var inputs := s.inputs + [ts];
        s.(inputs := inputs,
        publications := s.publications[p := Publication(|s.inputs|, StampAt(inputs, |s.inputs|), s.subscribers, [])])
    case Calling(p, response) =>
      if Unfinished(s, p) then
        var q := s.publications[p];
        s.(publications := s.publications[p := q.(responses := q.responses + [response])],
        calls := s.calls + [Call(p, NextDelivery(q))])
      else s
  }

  function Run(steps: seq<Step>): State {
    if steps == [] then State([], [], map[], []) else Do(Run(steps[..|steps| - 1]), steps[|steps| - 1])
  }

  function CallsBy(calls: seq<Call>, p: nat): seq<Delivery> {
    if calls == [] then []
    else CallsBy(calls[..|calls| - 1], p) + if calls[|calls| - 1].publisher == p then [calls[|calls| - 1].delivery] else []
  }

  /** What a publication has delivered: its subscribers in order, whatever any of them did. */
  function Delivered(q: Publication): seq<Delivery>
    requires |q.responses| <= |q.snapshot|
  {
    seq(|q.responses|, k requires 0 <= k < |q.responses| =>
      Delivery(q.snapshot[k], PersistedSequence(q.stamp.number, q.responses[..k]), q.stamp.ts))
  }

  ghost predicate PublicationOk(s: State, p: nat)
    requires p in s.publications
  {
    var q := s.publications[p];
    && q.place < |s.inputs| && q.stamp == StampAt(s.inputs, q.place)
    && |q.responses| <= |q.snapshot| && CallsBy(s.calls, p) == Delivered(q)
  }

  ghost predicate Inv(s: State) {
    && (forall p | p in s.publications :: PublicationOk(s, p))
    && (forall p, q | p in s.publications && q in s.publications && p != q :: s.publications[p].place != s.publications[q].place)
    && (forall p | p !in s.publications :: CallsBy(s.calls, p) == [])
  }

  lemma {:induction false} CallsByStep(calls: seq<Call>, c: Call, p: nat)
    ensures CallsBy(calls + [c], p) == if c.publisher == p then CallsBy(calls, p) + [c.delivery] else CallsBy(calls, p)
  {
    assert (calls + [c])[..|calls|] == calls;
    assert CallsBy(calls, p) + [] == CallsBy(calls, p);
  }

  lemma {:induction false} StampStays(inputs: seq<int>, ts: int, k: nat)
    requires k < |inputs|
    ensures StampAt(inputs + [ts], k) == StampAt(inputs, k)
  {
    assert (inputs + [ts])[..k + 1] == inputs[..k + 1];
  }

  lemma DeliveredStep(q: Publication, response: Response)
    requires |q.responses| < |q.snapshot|
    ensures Delivered(q.(responses := q.responses + [response])) == Delivered(q) + [NextDelivery(q)]
  {
    var next := q.(responses := q.responses + [response]);
    assert next.responses[..|q.responses|] == q.responses;
    assert forall k | 0 <= k < |q.responses| :: next.responses[..k] == q.responses[..k];
  }

  lemma StampingKeeps(s: State, p: nat, ts: int)
    requires Inv(s) && p !in s.publications
    ensures Inv(Do(s, Stamping(p, ts)))
  {
    hide CallsBy, StampAt;
    var t := Do(s, Stamping(p, ts));
    forall r | r in t.publications ensures PublicationOk(t, r) {
      if r != p {
        assert PublicationOk(s, r);
        StampStays(s.inputs, ts, s.publications[r].place);
      } else {
        assert Delivered(t.publications[p]) == [];
      }
    }
    assert forall r | r in s.publications :: PublicationOk(s, r);
  }

  lemma CallKeeps(s: State, p: nat, response: Response)
    requires Inv(s) && Unfinished(s, p)
    ensures Inv(Do(s, Calling(p, response)))
  {
    hide CallsBy, StampAt, Delivered;
    var t, c := Do(s, Calling(p, response)), Call(p, NextDelivery(s.publications[p]));
    DeliveredStep(s.publications[p], response);
    forall r ensures CallsBy(t.calls, r) == if r == p then CallsBy(s.calls, r) + [c.delivery] else CallsBy(s.calls, r) {
      CallsByStep(s.calls, c, r);
    }
    forall r | r in t.publications ensures PublicationOk(t, r) {
      assert PublicationOk(s, r);
    }
  }

  lemma StepKeeps(s: State, step: Step)
    requires Inv(s)
    ensures Inv(Do(s, step))
  {
    hide CallsBy, StampAt, Delivered;
    match step
    case Subscribing(_) =>
      forall r | r in s.publications ensures PublicationOk(Do(s, step), r) {
        assert PublicationOk(s, r);
      }
    case Stamping(p, ts) =>
      if p !in s.publications {
        StampingKeeps(s, p, ts);
      }
    case Calling(p, response) =>
      if Unfinished(s, p) {
        CallKeeps(s, p, response);
      }
  }

  lemma {:induction false} RunKeeps(steps: seq<Step>)
    ensures Inv(Run(steps))
  {
    hide Do;
    if steps == [] {
      NothingPublished();
    } else {
      RunKeeps(steps[..|steps| - 1]);
      StepKeeps(Run(steps[..|steps| - 1]), steps[|steps| - 1]);
    }
  }

  lemma NothingPublished()
    ensures Inv(State([], [], map[], []))
  {
  }

  /** Under any interleaving two publications are stamped apart, and number and time order them the same way. */
  lemma {:induction false} StampsOrderPublications(steps: seq<Step>, p: nat, q: nat)
    requires var s := Run(steps); p in s.publications && q in s.publications && p != q
    ensures var a, b := Run(steps).publications[p].stamp, Run(steps).publications[q].stamp;
            a.number != b.number && (a.number < b.number <==> a.ts < b.ts)
  {
    hide Run, CallsBy, Delivered;
    RunKeeps(steps);
    var s := Run(steps);
    assert PublicationOk(s, p) && PublicationOk(s, q);
    var i, j := s.publications[p].place, s.publications[q].place;
    if i < j {
      StampsIncrease(s.inputs, i, j);
    } else {
      StampsIncrease(s.inputs, j, i);
    }
  }

  /**
   A publication calls the subscribers present at its stamping, each once and in order, whatever the
   sinks before did: one that raised leaves the number the next one sees as it was.
   */
  lemma {:induction false} EachSubscriberOnce(steps: seq<Step>, p: nat)
    requires p in Run(steps).publications
    ensures var s := Run(steps);
            var q := s.publications[p];
            |q.responses| <= |q.snapshot| && CallsBy(s.calls, p) == Delivered(q)
  {
    hide Run, CallsBy, Delivered;
    RunKeeps(steps);
    assert PublicationOk(Run(steps), p);
  }

  predicate GivesSequence(r: Response)
    ensures GivesSequence(r) ==> r.Persisted? && r.sequence.Some?
  {
    r.Persisted? && r.sequence.Some?
  }

  predicate GivesId(r: Response)
    ensures GivesId(r) ==> r.Persisted? && r.id.Some?
  {
    r.Persisted? && r.id.Some? && r.id.value != ""
  }

  function SequenceGiven(): Response -> bool {
    (r: Response) => GivesSequence(r)
  }

  function IdGiven(): Response -> bool {
    (r: Response) => GivesId(r)
  }

  /** The last response that gives what p asks for is the k-th. */
  predicate LastGiving(p: Response -> bool, responses: seq<Response>, k: int)
    ensures LastGiving(p, responses, k) ==> 0 <= k < |responses| && p(responses[k])
  {
    0 <= k < |responses| && p(responses[k]) && forall j | k < j < |responses| :: !p(responses[j])
  }

  lemma LastGivingStep(p: Response -> bool, responses: seq<Response>, k: int)
    requires responses != [] && LastGiving(p, responses, k)
    ensures var n := |responses| - 1;
            if p(responses[n]) then k == n else k < n && LastGiving(p, responses[..n], k)
  {
  }

  lemma NoneGivingStep(p: Response -> bool, responses: seq<Response>)
    requires responses != [] && forall r | r in responses :: !p(r)
    ensures !p(responses[|responses| - 1]) && forall r | r in responses[..|responses| - 1] :: !p(r)
  {
    assert responses[|responses| - 1] in responses;
  }

  /** The number left is that of the last response that gives one, else the bus's own. */
  lemma {:induction false} SequenceLeft(number: int, responses: seq<Response>)
    ensures forall k | LastGiving(SequenceGiven(), responses, k) :: PersistedSequence(number, responses) == responses[k].sequence.value
    ensures (forall r | r in responses :: !GivesSequence(r)) ==> PersistedSequence(number, responses) == number
  {
    hide LastGiving;
    if responses != [] {
      var p := SequenceGiven();
      var init := responses[..|responses| - 1];
      SequenceLeft(number, init);
      forall k | LastGiving(p, responses, k) ensures PersistedSequence(number, responses) == responses[k].sequence.value {
        LastGivingStep(p, responses, k);
      }
      if forall r | r in responses :: !GivesSequence(r) {
        NoneGivingStep(p, responses);
      }
    } else {
      assert forall k :: !LastGiving(SequenceGiven(), responses, k) by { NothingGiven(SequenceGiven()); }
    }
  }

  lemma NothingGiven(p: Response -> bool)
    ensures forall k :: !LastGiving(p, [], k)
  {
  }

  /** The id left is the last non-empty one a response gives, else the event's own. */
  lemma {:induction false} IdLeft(eventId: string, responses: seq<Response>)
    ensures forall k | LastGiving(IdGiven(), responses, k) :: PersistedId(eventId, responses) == responses[k].id.value
    ensures (forall r | r in responses :: !GivesId(r)) ==> PersistedId(eventId, responses) == eventId
  {
    hide LastGiving;
    if responses != [] {
      var p := IdGiven();
      var init := responses[..|responses| - 1];
      IdLeft(eventId, init);
      forall k | LastGiving(p, responses, k) ensures PersistedId(eventId, responses) == responses[k].id.value {
        LastGivingStep(p, responses, k);
      }
      if forall r | r in responses :: !GivesId(r) {
        NoneGivingStep(p, responses);
      }
    } else {
      assert forall k :: !LastGiving(IdGiven(), responses, k) by { NothingGiven(IdGiven()); }
    }
  }

  /** A raise changes nothing of the event. */
  lemma {:induction false} RaiseChangesNothing(number: int, eventId: string, responses: seq<Response>)
    ensures PersistedSequence(number, responses + [Raises]) == PersistedSequence(number, responses)
    ensures PersistedId(eventId, responses + [Raises]) == PersistedId(eventId, responses)
  {
    assert (responses + [Raises])[..|responses|] == responses;
  }

  /** The snapshot, the stamp and the place of a publication never change afterwards. */
  lemma {:induction false} PublicationFixed(steps: seq<Step>, later: seq<Step>, p: nat)
    requires p in Run(steps).publications
    ensures var s, t := Run(steps), Run(steps + later);
            && p in t.publications && t.publications[p].snapshot == s.publications[p].snapshot
            && t.publications[p].place == s.publications[p].place && t.publications[p].stamp == s.publications[p].stamp
            && s.inputs <= t.inputs && s.publications[p].responses <= t.publications[p].responses
  {
    hide Inv, StampAt;
    if later == [] {
      assert steps + later == steps;
    } else {
      var init := later[..|later| - 1];
      PublicationFixed(steps, init, p);
      assert (steps + later)[..|steps + later| - 1] == steps + init;
    }
  }
}
