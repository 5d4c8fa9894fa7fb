// Counting messages: what the broker delivers was published, or handed back to it.
module OutboxDeliveries {
  import opened Prelude
  import opened OutboxTable
  import opened OutboxProtocol
  import opened OutboxSafety

  predicate Enqueues(s: State, l: Label, m: Message) {
    && l.PublishStep? && l.enqueued && l.w in s.publishers && s.publishers[l.w].Holding?
    && m == Message(s.publishers[l.w].snap.event.payload.analysisId, s.publishers[l.w].id)
  }

  predicate Delivers(l: Label, m: Message) {
    l.DeliverStep? && l.message == m
  }

  // The broker queues a copy again: under a consumer that goes on working, or
  // because the consumer died or its settlement was lost.
  predicate HandsBack(s: State, l: Label, m: Message) {
    || RequeuesHeld(s, l, m)
    || (l.SettleStep? && l.lost && l.c in s.consumers && s.consumers[l.c].message == m)
  }

  function One(b: bool): nat {
    if b then 1 else 0
  }

  function Enqueued(r: Run, m: Message, i: nat): nat
    requires i <= |r.labels| < |r.states|
  {
    if i == 0 then 0 else Enqueued(r, m, i - 1) + One(Enqueues(r.states[i - 1], r.labels[i - 1], m))
  }

  function Deliveries(r: Run, m: Message, i: nat): nat
    requires i <= |r.labels|
  {
    if i == 0 then 0 else Deliveries(r, m, i - 1) + One(Delivers(r.labels[i - 1], m))
  }

  function HandedBack(r: Run, m: Message, i: nat): nat
    requires i <= |r.labels| < |r.states|
  {
    if i == 0 then 0 else HandedBack(r, m, i - 1) + One(HandsBack(r.states[i - 1], r.labels[i - 1], m))
  }

  lemma StepConserves(s: State, s': State, l: Label, m: Message)
    requires Next(s, s', l)
    ensures s'.queued[m] + One(Delivers(l, m)) == s.queued[m] + One(Enqueues(s, l, m)) + One(HandsBack(s, l, m))
  {
  }

  ghost predicate Conserves(r: Run, m: Message, k: nat)
    requires k < |r.labels| < |r.states|
  {
    var s, s', l := r.states[k], r.states[k + 1], r.labels[k];
    s'.queued[m] + One(Delivers(l, m)) == s.queued[m] + One(Enqueues(s, l, m)) + One(HandsBack(s, l, m))
  }

  lemma {:induction false} ConservedAlong(r: Run, m: Message, i: nat)
    requires i <= |r.labels| < |r.states| && r.states[0].queued[m] == 0
    requires forall k | 0 <= k < i :: Conserves(r, m, k)
    ensures r.states[i].queued[m] + Deliveries(r, m, i) == Enqueued(r, m, i) + HandedBack(r, m, i)
    decreases i
  {
    if i > 0 {
      ConservedAlong(r, m, i - 1);
      assert Conserves(r, m, i - 1);
    }
  }

  // No message appears from nowhere or vanishes from the queue: copies waiting and
  // copies delivered are the copies published and the copies handed back.
  lemma MessagesConserved(r: Run, m: Message, i: nat)
    requires FromInit(r) && i < |r.states|
    ensures r.states[i].queued[m] + Deliveries(r, m, i) == Enqueued(r, m, i) + HandedBack(r, m, i)
  {
    forall k | 0 <= k < i ensures Conserves(r, m, k) {
      StepConserves(r.states[k], r.states[k + 1], r.labels[k], m);
    }
    ConservedAlong(r, m, i);
  }

  // How often the broker took the event's message, as the event's history tells it.
  function Taken(s: State, id: EventId): nat {
    if id in s.events then s.events[id].successes + s.events[id].leaks else 0
  }

  lemma TakenGrows(s: State, s': State, l: Label, m: Message)
    requires Inv(s) && Next(s, s', l)
    ensures Taken(s, m.origin) + One(Enqueues(s, l, m)) <= Taken(s', m.origin)
  {
    if l.PublishStep? {
      PublishTakes(s, s', l.w, l.ok, l.enqueued, m);
    } else {
      OthersKeepTaken(s, s', l, m.origin);
    }
  }

  lemma PublishTakes(s: State, s': State, w: Worker, ok: bool, enqueued: bool, m: Message)
    requires Publish(s, s', w, ok, enqueued)
    ensures Taken(s, m.origin) + One(Enqueues(s, PublishStep(w, ok, enqueued), m)) <= Taken(s', m.origin)
  {
  }

  lemma OthersKeepTaken(s: State, s': State, l: Label, id: EventId)
    requires Next(s, s', l) && !l.PublishStep?
    ensures Taken(s, id) <= Taken(s', id)
  {
  }

  lemma TakenAt(r: Run, m: Message, k: nat)
    requires FromInit(r) && k < |r.labels|
    ensures Taken(r.states[k], m.origin) + One(Enqueues(r.states[k], r.labels[k], m))
      <= Taken(r.states[k + 1], m.origin)
  {
    RunInv(r, k);
    assert Next(r.states[k], r.states[k + 1], r.labels[k]);
    TakenGrows(r.states[k], r.states[k + 1], r.labels[k], m);
  }

  lemma {:induction false} TakenAlong(r: Run, m: Message, i: nat)
    requires i <= |r.labels| < |r.states|
    requires forall k | 0 <= k < i ::
      Taken(r.states[k], m.origin) + One(Enqueues(r.states[k], r.labels[k], m)) <= Taken(r.states[k + 1], m.origin)
    ensures Enqueued(r, m, i) <= Taken(r.states[i], m.origin)
    decreases i
  {
    if i > 0 {
      TakenAlong(r, m, i - 1);
      assert Taken(r.states[i - 1], m.origin) + One(Enqueues(r.states[i - 1], r.labels[i - 1], m))
          <= Taken(r.states[i - 1 + 1], m.origin);
    }
  }

  lemma EnqueuedIsTaken(r: Run, m: Message, i: nat)
    requires FromInit(r) && i < |r.states|
    ensures Enqueued(r, m, i) <= Taken(r.states[i], m.origin)
  {
    forall k | 0 <= k < i
      ensures Taken(r.states[k], m.origin) + One(Enqueues(r.states[k], r.labels[k], m))
        <= Taken(r.states[k + 1], m.origin)
    {
      TakenAt(r, m, k);
    }
    TakenAlong(r, m, i);
  }

  // A message is delivered no more often than its event was published with success,
  // leaked, or handed back. Without leaks and returned messages that is once, as
  // AnalysisPipeline.StatusMovesForward asks for.
  lemma DeliveriesBounded(r: Run, m: Message, i: nat)
    requires FromInit(r) && i < |r.states| && m.origin in r.states[i].events
    ensures Deliveries(r, m, i)
      <= r.states[i].events[m.origin].successes + r.states[i].events[m.origin].leaks + HandedBack(r, m, i)
    ensures r.states[i].events[m.origin].leaks == 0 && HandedBack(r, m, i) == 0 ==> Deliveries(r, m, i) <= 1
  {
    MessagesConserved(r, m, i);
    EnqueuedIsTaken(r, m, i);
    RunInv(r, i);
    assert EventOk(r.states[i].events[m.origin]);
  }

  /******* Processed before completed *******/

  ghost predicate Timely(s: State) {
    forall id | id in s.events && s.events[id].row.times.processedAt.Some? ::
        s.events[id].row.times.processedAt.value <= s.now
  }

  lemma TimelyKept(s: State, s': State, l: Label)
    requires Timely(s) && Next(s, s', l)
    ensures Timely(s')
  {
  }

  lemma {:induction false} RunTimely(r: Run, i: nat)
    requires FromInit(r) && i < |r.states|
    ensures Timely(r.states[i])
    decreases i
  {
    if i > 0 {
      RunTimely(r, i - 1);
      TimelyKept(r.states[i - 1], r.states[i], r.labels[i - 1]);
    }
  }

  // When an event is marked completed, it has been processed, and not later.
  lemma CompletedAfterProcessed(r: Run, i: nat)
    requires FromInit(r) && i < |r.labels| && r.labels[i].MarkCompletedStep? && r.labels[i].outcome.Applied()
    ensures var s, s', c := r.states[i], r.states[i + 1], r.labels[i].c;
      && Busy(s, c) && s.consumers[c].id in s'.events
      && var times := s'.events[s.consumers[c].id].row.times;
      times.processedAt.Some? && times.completedAt.Some? && times.processedAt.value <= times.completedAt.value
  {
    RunInv(r, i);
    RunTimely(r, i);
    assert Next(r.states[i], r.states[i + 1], r.labels[i]);
    assert ConsumerOk(r.states[i].events, r.states[i].consumers[r.labels[i].c]);
  }
}
