// Properties of the outbox that fail, each with a run that breaks it.
module OutboxLimits {
  import opened Prelude
  import opened OutboxTable
  import opened OutboxProtocol
  import OutboxDomain
  import OutboxFuture

  function Put(s: State, id: EventId, e: Event, publishers: map<Worker, Publisher>): State {
    s.(events := s.events[id := e], publishers := publishers)
  }

  // A row inserted and listed by worker 0 and, from another process, by worker 1.
  lemma ListedTwice(id: EventId, row: OutboxRow) returns (r: Run)
    requires row == NewRow(row.event.payload, row.event.eventType, row.event.maxRetries)
    ensures FromInit(r)
    ensures Last(r) == State(0, map[id := Event(row, 0, 0, 0, None)], map[0 := Listed(id), 1 := Listed(id)],
      multiset{}, map[])
  {
    var s1 := INIT.(events := map[id := Event(row, 0, 0, 0, None)]);
    var s2 := s1.(publishers := map[0 := Listed(id)]);
    var s3 := s1.(publishers := map[0 := Listed(id), 1 := Listed(id)]);
    r := Run([INIT, s1, s2, s3], [InsertStep(id, row), FetchStep(false, map[0 := id]), FetchStep(false, map[1 := id])]);
    assert Insert(INIT, s1, id, row);
    assert Fetch(s1, s2, false, map[0 := id]);
    assert Fetch(s2, s3, false, map[1 := id]);
  }

  // And claimed by worker 0.
  lemma Claimed(id: EventId, row: OutboxRow) returns (r: Run)
    requires row == NewRow(row.event.payload, row.event.eventType, row.event.maxRetries)
    ensures FromInit(r)
    ensures Last(r) == State(0, map[id := Event(ClaimedRow(row, 0), 0, 0, 0, Some(0))],
                                 map[0 := Holding(id, ClaimedRow(row, 0)), 1 := Listed(id)], multiset{}, map[])
  {
    var r3 := ListedTwice(id, row);
    var s3, held := Last(r3), ClaimedRow(row, 0);
    var s4 := Put(s3, id, Event(held, 0, 0, 0, Some(0)), map[0 := Holding(id, held), 1 := Listed(id)]);
    assert Claim(s3, s4, 0, Done);
    r := Extend(r3, s4, ClaimStep(0, Done));
  }

  // Publish reports a time-out after the broker took the message: the row is
  // failed, to be claimed again, while its message waits to be consumed.
  lemma LeakedMessageOutlivesClaim(id: EventId, row: OutboxRow) returns (r: Run)
    requires row == NewRow(row.event.payload, row.event.eventType, 1)
    ensures FromInit(r)
    ensures var s := Last(r);
      exists m :: m in s.queued && m.origin == id && id in s.events && Claimable(s.events[id].row)
  {
    var r4 := Claimed(id, row);
    var s4 := Last(r4);
    var held := ClaimedRow(row, 0);
    var m := Message(row.event.payload.analysisId, id);
    var s5 := Put(s4, id, Event(held, 1, 0, 1, Some(0)),
        map[0 := Refused(id, held), 1 := Listed(id)]).(queued := multiset{m});
    assert Publish(s4, s5, 0, false, true);
    var r5 := Extend(r4, s5, PublishStep(0, false, true));
    var s6 := Put(s5, id, Event(FailedRow(held, "", 9), 1, 0, 1, Some(0)), map[1 := Listed(id)]);
    assert s5.publishers - {0} == map[1 := Listed(id)];
    assert RecordFailure(s5, s6, 0, "", 9, Done);
    r := Extend(r5, s6, RecordFailureStep(0, "", 9, Done));
    assert m in s6.queued;
  }

  // Worker 0 was refused and its failure recorded, to be retried at 9.
  lemma FailedOnce(id: EventId, row: OutboxRow) returns (r: Run)
    requires row == NewRow(row.event.payload, row.event.eventType, row.event.maxRetries)
    requires row.event.maxRetries > 0
    ensures FromInit(r)
    ensures Last(r) == State(0, map[id := Event(FailedRow(ClaimedRow(row, 0), "", 9), 1, 0, 0, Some(0))],
                             map[1 := Listed(id)], multiset{}, map[])
  {
    var r4 := Claimed(id, row);
    var s4, held := Last(r4), ClaimedRow(row, 0);
    var s5 := Put(s4, id, Event(held, 1, 0, 0, Some(0)), map[0 := Refused(id, held), 1 := Listed(id)]);
    assert s5.queued == s4.queued + multiset{};
    assert Publish(s4, s5, 0, false, false);
    var r5 := Extend(r4, s5, PublishStep(0, false, false));
    var s6 := Put(s5, id, Event(FailedRow(held, "", 9), 1, 0, 0, Some(0)), map[1 := Listed(id)]);
    assert s5.publishers - {0} == map[1 := Listed(id)];
    assert RecordFailure(s5, s6, 0, "", 9, Done);
    r := Extend(r5, s6, RecordFailureStep(0, "", 9, Done));
  }

  // The claim does not look at next_retry_at, only the list does: worker 1, which
  // listed the event while it was pending, can claim it before it is due again.
  lemma StaleListOvertakesBackoff(id: EventId, row: OutboxRow) returns (r: Run, s': State)
    requires row == NewRow(row.event.payload, row.event.eventType, row.event.maxRetries)
    requires row.event.maxRetries > 0
    ensures FromInit(r) && id in Last(r).events
    ensures RowOf(Last(r), id).status == Failed && RowOf(Last(r), id).nextRetryAt == Some(Last(r).now + 9)
    ensures Next(Last(r), s', ClaimStep(1, Done))
    ensures s'.now == Last(r).now && 1 in s'.publishers && s'.publishers[1].Holding? && s'.publishers[1].id == id
  {
    r := FailedOnce(id, row);
    var again := ClaimedRow(RowOf(Last(r), id), 0);
    s' := Put(Last(r), id, Event(again, 1, 0, 0, Some(1)), map[1 := Holding(id, again)]);
    assert Claim(Last(r), s', 1, Done);
  }

  // Published by worker 0, and the message with subscriber 0, which has marked the
  // event processed while the row is still processing.
  lemma Consumed(id: EventId, row: OutboxRow) returns (r: Run)
    requires row == NewRow(row.event.payload, row.event.eventType, row.event.maxRetries)
    requires row.event.payload.analysisId == row.event.aggregateId
    ensures FromInit(r)
    ensures var m := Message(row.event.aggregateId, id);
      Last(r) == State(0, map[id := Event(ProcessedRow(ClaimedRow(row, 0), 0), 1, 1, 0, Some(0))],
                       map[0 := Sent(id), 1 := Listed(id)], multiset{}, map[0 := Working(m, id)])
  {
    var r4 := Claimed(id, row);
    var s4 := Last(r4);
    var held := ClaimedRow(row, 0);
    var m := Message(row.event.payload.analysisId, id);
    var s5 := Put(s4, id, Event(held, 1, 1, 0, Some(0)), map[0 := Sent(id), 1 := Listed(id)]).(queued := multiset{m});
    assert Publish(s4, s5, 0, true, true);
    var r5 := Extend(r4, s5, PublishStep(0, true, true));
    r := Work(r5, s5, 0, m, id, 0);
    assert s5.queued - multiset{m} == multiset{};
  }

  // A subscriber is delivered the message and goes as far as MarkProcessed.
  lemma Work(r: Run, s: State, c: Subscriber, m: Message, id: EventId, now: Time) returns (r': Run)
    requires FromInit(r) && s == Last(r) && s.now == now
    requires m in s.queued && c !in s.consumers && NewestFor(s, m.analysisId, id)
    ensures FromInit(r')
    ensures Last(r') == s.(
      events := s.events[id := s.events[id].(row := ProcessedRow(s.events[id].row, now))],
      queued := s.queued - multiset{m},
      consumers := s.consumers[c := Working(m, id)])
  {
    var s1 := s.(queued := s.queued - multiset{m}, consumers := s.consumers[c := Got(m)]);
    assert Deliver(s, s1, c, m);
    var r1 := Extend(r, s1, DeliverStep(c, m));
    var s2 := s1.(consumers := s1.consumers[c := Found(m, id)]);
    assert NewestFor(s1, m.analysisId, id);
    assert Lookup(s1, s2, c, Some(id));
    var r2 := Extend(r1, s2, LookupStep(c, Some(id)));
    var s3 := s2.(
      events := s2.events[id := s2.events[id].(row := ProcessedRow(s2.events[id].row, now))],
      consumers := s2.consumers[c := Working(m, id)]);
    assert MarkProcessed(s2, s3, c, Done);
    r' := Extend(r2, s3, MarkProcessedStep(c, Done));
  }

  // The message can be consumed before MarkPublished runs: MarkProcessed is then
  // applied to a row the domain layer would refuse it for.
  lemma ConsumerOvertakesPublisher(id: EventId, row: OutboxRow) returns (r: Run)
    requires row == NewRow(row.event.payload, row.event.eventType, row.event.maxRetries)
    requires row.event.payload.analysisId == row.event.aggregateId
    ensures FromInit(r)
    ensures var s := Last(r);
      && id in s.events && s.events[id].leaks == 0
      && s.events[id].row.times.processedAt.Some? && !OutboxDomain.CanProcess(s.events[id].row)
  {
    r := Consumed(id, row);
  }

  // The channel closes under the subscriber: the broker queues the message again,
  // a second subscriber gets it, and both work on the event at the same time.
  lemma TwoConsumersAtWork(id: EventId, row: OutboxRow) returns (r: Run)
    requires row == NewRow(row.event.payload, row.event.eventType, row.event.maxRetries)
    requires row.event.payload.analysisId == row.event.aggregateId
    ensures FromInit(r)
    ensures var s, m := Last(r), Message(row.event.aggregateId, id);
      && id in s.events && s.events[id].leaks == 0
      && s.consumers == map[0 := Working(m, id), 1 := Working(m, id)]
  {
    var r1 := Consumed(id, row);
    var s1, m := Last(r1), Message(row.event.aggregateId, id);
    var s2 := s1.(queued := multiset{m});
    assert Requeue(s1, s2, 0);
    var r2 := Extend(r1, s2, RequeueStep(0));
    r := Work(r2, s2, 1, m, id, 0);
  }

  // A worker that crashes with the claim leaves a row that nobody owns and that was
  // not published.
  lemma CrashStrands(id: EventId, row: OutboxRow) returns (r: Run)
    requires row == NewRow(row.event.payload, row.event.eventType, row.event.maxRetries)
    ensures FromInit(r) && OutboxFuture.Stranded(Last(r), id)
  {
    var r4 := Claimed(id, row);
    var s5 := Last(r4).(publishers := map[1 := Listed(id)]);
    assert Last(r4).publishers - {0} == map[1 := Listed(id)];
    assert Crash(Last(r4), s5, {0});
    r := Extend(r4, s5, CrashStep({0}));
  }
}
