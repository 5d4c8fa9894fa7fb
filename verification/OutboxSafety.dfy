// What holds in every run of the outbox protocol, and what does not.
module OutboxSafety {
  import opened Prelude
  import opened OutboxTable
  import opened OutboxProtocol
  import OutboxDomain

  lemma {:induction false} RunInv(r: Run, i: nat)
    requires FromInit(r) && i < |r.states|
    ensures Inv(r.states[i])
  {
    if i > 0 {
      RunInv(r, i - 1);
      assert Next(r.states[i - 1], r.states[i], r.labels[i - 1]);
      InvKept(r.states[i - 1], r.states[i], r.labels[i - 1]);
    }
  }

  /******* At most one successful publish *******/

  // The event has left the publishers: nobody can claim its row or publish it again.
  predicate Settled(e: Event) {
    e.successes == 1 && !Claimable(e.row)
  }

  predicate Frozen(e: Event, e': Event) {
    && e'.successes == e.successes
    && e'.attempts == e.attempts
    && e'.row.retryCount == e.row.retryCount
    && e'.row.times.startedAt == e.row.times.startedAt
  }

  lemma SettledEvent(e: Event, e': Event)
    requires EventOk(e) && EventNext(e, e') && e.successes == 1
    ensures Frozen(e, e')
  {
  }

  lemma SettledStep(s: State, s': State, l: Label, id: EventId)
    requires Inv(s) && Next(s, s', l) && id in s.events && s.events[id].successes == 1
    ensures id in s'.events && Frozen(s.events[id], s'.events[id])
  {
    Lifecycle(s, s', l);
    SettledEvent(s.events[id], s'.events[id]);
  }

  lemma SettledAt(r: Run, id: EventId, k: nat)
    requires FromInit(r) && k < |r.labels| && id in r.states[k].events && r.states[k].events[id].successes == 1
    ensures id in r.states[k + 1].events && Frozen(r.states[k].events[id], r.states[k + 1].events[id])
  {
    RunInv(r, k);
    assert Next(r.states[k], r.states[k + 1], r.labels[k]);
    SettledStep(r.states[k], r.states[k + 1], r.labels[k], id);
  }

  // A step that leaves an event frozen, if it had been published.
  ghost predicate Freezes(s: State, s': State, id: EventId) {
    id in s.events && s.events[id].successes == 1 ==> id in s'.events && Frozen(s.events[id], s'.events[id])
  }

  lemma {:induction false} FrozenAlong(states: seq<State>, id: EventId, i: nat, j: nat)
    requires i <= j < |states| && id in states[i].events && states[i].events[id].successes == 1
    requires forall k | i <= k < j :: Freezes(states[k], states[k + 1], id)
    ensures id in states[j].events && Frozen(states[i].events[id], states[j].events[id])
    decreases j
  {
    if i < j {
      FrozenAlong(states, id, i, j - 1);
      assert Freezes(states[j - 1], states[j - 1 + 1], id);
    }
  }

  lemma SettledForever(r: Run, id: EventId, i: nat, j: nat)
    requires FromInit(r) && i <= j < |r.states|
    requires id in r.states[i].events && r.states[i].events[id].successes == 1
    ensures id in r.states[j].events && Frozen(r.states[i].events[id], r.states[j].events[id])
  {
    forall k | i <= k < j
      ensures Freezes(r.states[k], r.states[k + 1], id)
    {
      if id in r.states[k].events && r.states[k].events[id].successes == 1 {
        SettledAt(r, id, k);
      }
    }
    FrozenAlong(r.states, id, i, j);
  }

  // Publish returns nil at most once for an event. From then on its row is
  // processing or published and stays so, no later attempt is made, and no
  // worker is left who could make one.
  lemma AtMostOnePublish(r: Run, id: EventId, i: nat, j: nat)
    requires FromInit(r) && i <= j < |r.states| && id in r.states[i].events
    ensures r.states[i].events[id].successes <= 1
    ensures r.states[i].events[id].successes == 1 ==>
      && id in r.states[j].events
      && r.states[j].events[id].attempts == r.states[i].events[id].attempts
      && Settled(r.states[j].events[id])
      && forall w | w in r.states[j].publishers && r.states[j].publishers[w].id == id ::
           r.states[j].publishers[w].Listed? || r.states[j].publishers[w].Sent?
  {
    RunInv(r, i);
    RunInv(r, j);
    assert EventOk(r.states[i].events[id]);
    if r.states[i].events[id].successes == 1 {
      SettledForever(r, id, i, j);
      assert EventOk(r.states[j].events[id]);
      forall w | w in r.states[j].publishers && r.states[j].publishers[w].id == id
        ensures r.states[j].publishers[w].Listed? || r.states[j].publishers[w].Sent?
      {
        assert PublisherOk(r.states[j].events, w, r.states[j].publishers[w]);
      }
    }
  }

  /******* Retry budget and ownership *******/

  // However stale the lists, retry_count never passes max_retries; a row being
  // processed has at most one live owner, and what that owner saw when it claimed
  // the row is still true of the row.
  lemma RetryBudget(r: Run, i: nat)
    requires FromInit(r) && i < |r.states|
    ensures forall id | id in r.states[i].events ::
      0 <= r.states[i].events[id].row.retryCount <= RetryLimit(r.states[i].events[id].row)
    ensures forall v, w | v in r.states[i].publishers && w in r.states[i].publishers ::
      (r.states[i].publishers[v].Owns() && r.states[i].publishers[w].Owns()
       && r.states[i].publishers[v].id == r.states[i].publishers[w].id) ==> v == w
    ensures forall w | w in r.states[i].publishers && r.states[i].publishers[w].Refused? ::
      && r.states[i].publishers[w].id in r.states[i].events
      && Agrees(r.states[i].publishers[w].snap, r.states[i].events[r.states[i].publishers[w].id].row)
  {
    RunInv(r, i);
    var s := r.states[i];
    forall id | id in s.events ensures EventOk(s.events[id]) {}
    forall w | w in s.publishers ensures PublisherOk(s.events, w, s.publishers[w]) {}
  }

  // A failure that is recorded is decided on the claimed snapshot, but does to the
  // row what the row's own retry count asks for: one retry more, due at the given
  // time, or none. Nothing else of the row changes, and no other event does.
  lemma RecordedFailure(r: Run, i: nat)
    requires FromInit(r) && i < |r.labels| && r.labels[i].RecordFailureStep?
    ensures var s, s', l := r.states[i], r.states[i + 1], r.labels[i];
      && Ready(s, l.w)
      && var id := s.publishers[l.w].id;
      && s'.events.Keys == s.events.Keys
      && (forall other | other in s.events && other != id :: s'.events[other] == s.events[other])
      && var row := RowOf(s, id);
         RowOf(s', id) ==
           if l.outcome.Rejected? then row
           else if row.retryCount < row.event.maxRetries then
             OutboxRow(row.event, Failed, row.retryCount + 1, Some(l.error), Some(l.nextRetryAt), row.times)
           else
             OutboxRow(row.event, Failed, row.retryCount, Some(l.error), None, row.times)
  {
    RunInv(r, i);
    var s, w := r.states[i], r.labels[i].w;
    assert Next(s, r.states[i + 1], r.labels[i]);
    assert PublisherOk(s.events, w, s.publishers[w]);
  }

  /******* Messages and their rows *******/

  // While a message is live, unless a failed Publish left one behind, the row of
  // its event is processing or published, and started_at never changes again.
  lemma LiveMessageFreezesRow(r: Run, m: Message, i: nat, j: nat)
    requires FromInit(r) && i <= j < |r.states| && Live(r.states[i], m)
    ensures m.origin in r.states[i].events && r.states[i].events[m.origin].row.event.aggregateId == m.analysisId
    ensures r.states[i].events[m.origin].leaks == 0 ==>
      && m.origin in r.states[j].events
      && !Claimable(r.states[i].events[m.origin].row)
      && !Claimable(r.states[j].events[m.origin].row)
      && r.states[i].events[m.origin].row.times.startedAt.Some?
      && r.states[j].events[m.origin].row.times.startedAt == r.states[i].events[m.origin].row.times.startedAt
  {
    RunInv(r, i);
    LiveMessageOk(r.states[i], m);
    assert EventOk(r.states[i].events[m.origin]);
    if r.states[i].events[m.origin].leaks == 0 {
      SettledForever(r, m.origin, i, j);
      RunInv(r, j);
      assert EventOk(r.states[j].events[m.origin]);
    }
  }

  lemma ProcessedGuard(s: State, s': State, c: Subscriber, outcome: Outcome)
    requires Inv(s) && MarkProcessed(s, s', c, outcome)
    ensures var row := RowOf(s, s.consumers[c].id);
      && (OutboxDomain.CanProcess(row) <==> row.times.publishedAt.Some?)
      && (s.events[s.consumers[c].id].leaks == 0 ==> row.status == Processing || row.status == Published)
  {
    assert ConsumerOk(s.events, s.consumers[c]);
    assert EventOk(s.events[s.consumers[c].id]);
  }

  // The repository's statements carry only "WHERE id"; the domain layer's guards
  // hold at each of them all the same. MarkProcessed is the exception: its guard
  // holds if and only if MarkPublished has taken effect.
  lemma GuardsHold(s: State, s': State, l: Label)
    requires Inv(s) && Next(s, s', l)
    ensures l.MarkPublishedStep? ==> OutboxDomain.CanPublish(RowOf(s, s.publishers[l.w].id))
    ensures l.RecordFailureStep? ==>
      (OutboxDomain.CanFail(s.publishers[l.w].snap) <==> OutboxDomain.CanFail(RowOf(s, s.publishers[l.w].id)))
    ensures l.MarkCompletedStep? ==> OutboxDomain.CanComplete(RowOf(s, s.consumers[l.c].id))
    ensures l.MarkProcessedStep? ==>
      var row := RowOf(s, s.consumers[l.c].id);
      && (OutboxDomain.CanProcess(row) <==> row.times.publishedAt.Some?)
      && (s.events[s.consumers[l.c].id].leaks == 0 ==> row.status == Processing || row.status == Published)
  {
    if l.MarkPublishedStep? || l.RecordFailureStep? {
      assert PublisherOk(s.events, l.w, s.publishers[l.w]);
    } else if l.MarkCompletedStep? {
      assert ConsumerOk(s.events, s.consumers[l.c]);
    } else if l.MarkProcessedStep? {
      ProcessedGuard(s, s', l.c, l.outcome);
    }
  }

  /******* One copy of each message *******/

  predicate Held(s: State, c: Subscriber, m: Message) {
    c in s.consumers && s.consumers[c].message == m
  }

  // The message waits once and nobody holds it, or one consumer holds it, or it is gone.
  ghost predicate Single(s: State, m: Message) {
    && s.queued[m] <= 1
    && (m in s.queued ==> forall c :: !Held(s, c, m))
    && (forall c, d :: Held(s, c, m) && Held(s, d, m) ==> c == d)
  }

  lemma DeliverSingle(s: State, s': State, c: Subscriber, message: Message, m: Message)
    requires Single(s, m) && Deliver(s, s', c, message)
    ensures Single(s', m)
  {
    forall d | Held(s', d, m) ensures Held(s, d, m) || (d == c && m == message) {}
  }

  lemma SettleSingle(s: State, s': State, c: Subscriber, lost: bool, m: Message)
    requires Single(s, m) && Settle(s, s', c, lost)
    ensures Single(s', m)
  {
    forall d | Held(s', d, m) ensures Held(s, d, m) && d != c {}
    assert Held(s, c, s.consumers[c].message);
  }

  lemma NotLive(s: State, m: Message)
    requires GoodMessages(s.events, s.queued) && GoodConsumers(s.events, s.consumers) && !MessageOk(s.events, m)
    ensures m !in s.queued && forall c :: !Held(s, c, m)
  {
    forall c ensures !Held(s, c, m) {
      assert c in s.consumers ==> ConsumerOk(s.events, s.consumers[c]);
    }
  }

  lemma PublishSingle(s: State, s': State, w: Worker, ok: bool, enqueued: bool, m: Message)
    requires Inv(s) && Single(s, m) && Publish(s, s', w, ok, enqueued)
    requires m.origin in s'.events && s'.events[m.origin].leaks == 0
    ensures Single(s', m)
  {
    assert PublisherOk(s.events, w, s.publishers[w]);
    if m.origin == s.publishers[w].id {
      assert !MessageOk(s.events, m);
      NotLive(s, m);
    }
    forall d | Held(s', d, m) ensures Held(s, d, m) {}
  }

  // The broker queues the message again while a consumer still works on it.
  predicate RequeuesHeld(s: State, l: Label, m: Message) {
    l.RequeueStep? && Held(s, l.c, m)
  }

  lemma OtherSingle(s: State, s': State, l: Label, m: Message)
    requires Single(s, m) && Next(s, s', l) && !l.PublishStep? && !l.DeliverStep? && !l.SettleStep?
      && !RequeuesHeld(s, l, m)
    ensures Single(s', m)
  {
    assert s'.queued[m] == s.queued[m];
    forall c | Held(s', c, m) ensures Held(s, c, m) {}
  }

  lemma BrokerSingle(s: State, s': State, l: Label, m: Message)
    requires Next(s, s', l) && Single(s, m) && (l.DeliverStep? || l.SettleStep?)
    ensures Single(s', m)
  {
    if l.DeliverStep? { DeliverSingle(s, s', l.c, l.message, m); } else { SettleSingle(s, s', l.c, l.lost, m); }
  }

  lemma SingleKept(s: State, s': State, l: Label, m: Message)
    requires Next(s, s', l) && Single(s, m) && !RequeuesHeld(s, l, m)
    requires l.PublishStep? ==> Inv(s) && m.origin in s'.events && s'.events[m.origin].leaks == 0
    ensures Single(s', m)
  {
    if l.PublishStep? {
      PublishSingle(s, s', l.w, l.ok, l.enqueued, m);
    } else if l.DeliverStep? || l.SettleStep? {
      BrokerSingle(s, s', l, m);
    } else {
      OtherSingle(s, s', l, m);
    }
  }

  lemma NoMessageYet(s: State, m: Message)
    requires Inv(s) && m.origin !in s.events
    ensures Single(s, m)
  {
    assert !MessageOk(s.events, m);
    NotLive(s, m);
  }

  predicate Clean(s: State, id: EventId) {
    id in s.events && s.events[id].leaks == 0
  }

  lemma CleanBefore(r: Run, id: EventId, k: nat)
    requires FromInit(r) && k < |r.labels| && Clean(r.states[k + 1], id)
    ensures id in r.states[k].events ==> Clean(r.states[k], id)
  {
    if id in r.states[k].events {
      RunInv(r, k);
      assert Next(r.states[k], r.states[k + 1], r.labels[k]);
      Lifecycle(r.states[k], r.states[k + 1], r.labels[k]);
      LeaksGrow(r.states[k].events[id], r.states[k + 1].events[id]);
    }
  }

  lemma LeaksGrow(e: Event, e': Event)
    requires EventNext(e, e')
    ensures e.leaks <= e'.leaks
  {
  }

  lemma SingleAt(r: Run, m: Message, k: nat)
    requires FromInit(r) && k < |r.labels| && Single(r.states[k], m) && Clean(r.states[k + 1], m.origin)
    requires !RequeuesHeld(r.states[k], r.labels[k], m)
    ensures Single(r.states[k + 1], m)
  {
    RunInv(r, k);
    assert Next(r.states[k], r.states[k + 1], r.labels[k]);
    SingleKept(r.states[k], r.states[k + 1], r.labels[k], m);
  }

  // Unless a failed Publish left a message behind, or the broker queued the message
  // again while a consumer held it, it exists in at most one place: no two consumers
  // work on the event at the same time.
  lemma {:induction false} OneLiveCopy(r: Run, m: Message, i: nat)
    requires FromInit(r) && i < |r.states| && Clean(r.states[i], m.origin)
    requires forall k | 0 <= k < i :: !RequeuesHeld(r.states[k], r.labels[k], m)
    ensures Single(r.states[i], m)
    decreases i
  {
    if i > 0 {
      CleanBefore(r, m.origin, i - 1);
      if m.origin in r.states[i - 1].events {
        OneLiveCopy(r, m, i - 1);
      } else {
        RunInv(r, i - 1);
        NoMessageYet(r.states[i - 1], m);
      }
      SingleAt(r, m, i - 1);
    }
  }
}
