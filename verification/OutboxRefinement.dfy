// The two ends of the outbox protocol in code: a committed StartAnalysis is an
// insert, and a request is one consumer's path.
module OutboxRefinement {
  import opened Prelude
  import opened OutboxTable
  import opened OutboxProtocol
  import A = Allocation
  import D = AnalysisTable
  import S = SubscriberService

  /******* StartAnalysis inserts *******/

  // The same events have been inserted, whatever became of their rows since.
  ghost predicate SameEvents(s: State, events: map<Uuid, OutboxRow>) {
    s.events.Keys == events.Keys && forall id | id in events :: RowOf(s, id).event == events[id].event
  }

  // A row for a new event of a new aggregate, as SaveInTx writes it.
  ghost predicate Insertable(events: map<Uuid, OutboxRow>, eventId: Uuid, event: OutboxRow) {
    && eventId !in events
    && event == NewRow(event.event.payload, event.event.eventType, event.event.maxRetries)
    && forall other | other in events :: events[other].event.aggregateId != event.event.aggregateId
  }

  lemma CommitsInsertable(env: A.Env, a: A.State, a': A.State, t: A.Tx)
    requires A.Sound(env) && A.Inv(env, a) && A.Commit(a, a', t)
    ensures var x := a.txs[t];
      Insertable(a.events, x.eventId, x.event) && a'.events == a.events[x.eventId := x.event]
  {
    var x := a.txs[t];
    assert A.TxOk(env, a.analyses, x);
    A.EventIsNew(env, a, x.id, x.row.createdAt);
    forall other | other in a.events ensures a.events[other].event.aggregateId != x.id {
      assert a.events[other].event.aggregateId in a.analyses;
    }
  }

  lemma Inserts(s: State, events: map<Uuid, OutboxRow>, eventId: Uuid, event: OutboxRow) returns (s': State)
    requires SameEvents(s, events) && Insertable(events, eventId, event)
    ensures Insert(s, s', eventId, event) && SameEvents(s', events[eventId := event])
  {
    s' := s.(events := s.events[eventId := Event(event, 0, 0, 0, None)]);
    forall other | other in s.events ensures RowOf(s, other).event.aggregateId != event.event.aggregateId {
      assert other in events;
    }
  }

  // The commit of any transaction, in any interleaving of transactions, is an Insert
  // in every state of the protocol with the same events: the ID is new, and so is
  // the aggregate.
  lemma CommitIsInsert(env: A.Env, r: A.Run, i: nat, s: State) returns (s': State)
    requires A.Sound(env) && A.FromInit(env, r) && i < |r.labels| && r.labels[i].CommitStep?
    requires SameEvents(s, r.states[i].events)
    ensures r.labels[i].t in r.states[i].txs && r.states[i].txs[r.labels[i].t].BothInserted?
    ensures var x := r.states[i].txs[r.labels[i].t];
      Next(s, s', InsertStep(x.eventId, x.event)) && SameEvents(s', r.states[i + 1].events)
  {
    var a, t := r.states[i], r.labels[i].t;
    A.RunInv(env, r, i);
    assert A.Next(env, a, r.states[i + 1], r.labels[i]);
    CommitsInsertable(env, a, r.states[i + 1], t);
    s' := Inserts(s, a.events, a.txs[t].eventId, a.txs[t].event);
  }

  lemma EnvelopesKept(events: map<EventId, Event>, events': map<EventId, Event>)
    requires EventsNext(events, events')
    ensures forall id | id in events :: id in events' && events'[id].row.event == events[id].row.event
  {
    forall id | id in events ensures events'[id].row.event == events[id].row.event {
      assert EventNext(events[id], events'[id]);
    }
  }

  // And every other step keeps the events the same.
  lemma OthersKeepEvents(s: State, s': State, l: Label, events: map<Uuid, OutboxRow>)
    requires Inv(s) && Next(s, s', l) && !l.InsertStep? && SameEvents(s, events)
    ensures SameEvents(s', events)
  {
    Lifecycle(s, s', l);
    EnvelopesKept(s.events, s'.events);
  }

  /******* ProcessAnalysisRequest consumes *******/

  // What a request does to the outbox: it marks its event processed, and completed
  // if it comes that far.
  predicate Completes(w: S.World, c: S.Calls) {
    S.Saves(w, c) && c.saved.Done? && c.timed.Done?
  }

  function Processed(rows: Rows, eventId: EventId, c: S.Calls): Rows
    requires eventId in rows
  {
    if c.processed.Applied() then rows[eventId := ProcessedRow(rows[eventId], c.processedAt)] else rows
  }

  function Completed(rows: Rows, eventId: EventId, c: S.Calls): Rows
    requires eventId in rows
  {
    if c.completed.Applied() then rows[eventId := CompletedRow(rows[eventId], c.completedAt)] else rows
  }

  lemma ClosedEvents(caching: bool, w: S.World, id: Uuid, eventId: EventId, hash: string, c: S.Calls)
    requires eventId in w.events
    ensures S.Closed(caching, w, id, eventId, hash, c).world.events
         == if c.timed.Done? then Completed(w.events, eventId, c) else w.events
  {
  }

  lemma WorkedEvents(env: D.Env, caching: bool, w: S.World, id: Uuid, eventId: EventId, c: S.Calls)
    requires eventId in w.events
    ensures S.Worked(env, caching, w, id, eventId, c).world.events
         == if c.fetched.Some? && c.checked && (c.duplicate.None? ==> c.analyzed) && c.saved.Done? && c.timed.Done?
            then Completed(w.events, eventId, c) else w.events
  {
    if c.fetched.Some? && c.checked && (c.duplicate.None? ==> c.analyzed) {
      var saved := S.Saved(caching, w, id, S.NewContent(env, w.rows, c.fetched.value, c), c);
      ClosedEvents(caching, saved, id, eventId, env.hash(c.fetched.value.page.html), c);
    }
  }

  lemma HandledEvents(env: D.Env, caching: bool, w: S.World, id: Uuid, c: S.Calls)
    requires c.event.Some? && c.event.value in w.events
    ensures S.Handled(env, caching, w, id, c).world.events
         == if Completes(w, c) then Completed(Processed(w.events, c.event.value, c), c.event.value, c)
            else Processed(w.events, c.event.value, c)
  {
    if S.Begins(w, c) && c.started.Done? {
      WorkedEvents(env, caching, S.AfterStart(caching, w, id, c), id, c.event.value, c);
    }
  }

  // A statement of the consumer on its row, and the clock before it.
  function Written(s: State, id: EventId, row: OutboxRow, c: Subscriber, k: Consumer, now: Time): State
    requires id in s.events
  {
    s.(now := now, events := s.events[id := s.events[id].(row := row)], consumers := s.consumers[c := k])
  }

  lemma Lookups(s: State, c: Subscriber, id: EventId)
    requires Inv(s) && c in s.consumers && s.consumers[c].Got?
    requires id in s.events && RowOf(s, id).event.aggregateId == s.consumers[c].message.analysisId
    ensures Next(s, s.(consumers := s.consumers[c := Found(s.consumers[c].message, id)]), LookupStep(c, Some(id)))
  {
    assert NewestFor(s, s.consumers[c].message.analysisId, id);
  }

  lemma ProcessedTable(s: State, s': State, id: EventId, c: S.Calls)
    requires id in s.events
    requires s'.events == if c.processed.Applied()
      then s.events[id := s.events[id].(row := ProcessedRow(RowOf(s, id), c.processedAt))] else s.events
    ensures Table(s') == Processed(Table(s), id, c)
  {
  }

  lemma CompletedTable(s: State, s': State, id: EventId, c: S.Calls)
    requires id in s.events
    requires s'.events == if c.completed.Applied()
      then s.events[id := s.events[id].(row := CompletedRow(RowOf(s, id), c.completedAt))] else s.events
    ensures Table(s') == Completed(Table(s), id, c)
  {
  }

  // Lookup and MarkProcessed.
  lemma BeginRun(s: State, a: Subscriber, id: EventId, c: S.Calls) returns (r: Run)
    requires Inv(s) && a in s.consumers && s.consumers[a].Got? && s.now <= c.processedAt
    requires id in s.events && RowOf(s, id).event.aggregateId == s.consumers[a].message.analysisId
    ensures IsRun(r) && r.states[0] == s && Last(r).now == c.processedAt
    ensures id in Last(r).events && Table(Last(r)) == Processed(Table(s), id, c)
    ensures a in Last(r).consumers
    ensures c.processed.Done? ==> Last(r).consumers[a] == Working(s.consumers[a].message, id)
  {
    var m := s.consumers[a].message;
    Lookups(s, a, id);
    var s1 := s.(consumers := s.consumers[a := Found(m, id)]);
    r := Extend(Run([s], []), s1, LookupStep(a, Some(id)));
    var s2 := s1.(now := c.processedAt);
    r := Extend(r, s2, ClockStep);
    var e := s2.events[id];
    var s3 := s2.(
      events := if c.processed.Applied() then s2.events[id := e.(row := ProcessedRow(e.row, s2.now))] else s2.events,
      consumers := s2.consumers[a := if c.processed.Done? then Working(m, id) else Finished(m)]);
    assert MarkProcessed(s2, s3, a, c.processed);
    r := Extend(r, s3, MarkProcessedStep(a, c.processed));
    ProcessedTable(s, s3, id, c);
  }

  lemma CompleteRun(r: Run, a: Subscriber, id: EventId, c: S.Calls) returns (r': Run)
    requires IsRun(r) && a in Last(r).consumers && Last(r).consumers[a].Working? && Last(r).consumers[a].id == id
    requires id in Last(r).events && Last(r).now <= c.completedAt
    ensures IsRun(r') && r'.states[0] == r.states[0] && a in Last(r').consumers
    ensures Table(Last(r')) == Completed(Table(Last(r)), id, c)
  {
    var s := Last(r);
    var m, e := s.consumers[a].message, s.events[id];
    var s1 := s.(now := c.completedAt);
    r' := Extend(r, s1, ClockStep);
    var s2 := s1.(
      events := if c.completed.Applied() then s1.events[id := e.(row := CompletedRow(e.row, s1.now))] else s1.events,
      consumers := s1.consumers[a := Finished(m)]);
    assert MarkCompleted(s1, s2, a, c.completed);
    r' := Extend(r', s2, MarkCompletedStep(a, c.completed));
    CompletedTable(s, s2, id, c);
  }

  lemma SettleRun(r: Run, a: Subscriber) returns (r': Run)
    requires IsRun(r) && a in Last(r).consumers
    ensures IsRun(r') && r'.states[0] == r.states[0] && a !in Last(r').consumers && Last(r').events == Last(r).events
  {
    var s := Last(r);
    var s1 := s.(consumers := s.consumers - {a});
    assert s1.queued == s.queued + multiset{};
    assert Settle(s, s1, a, false);
    r' := Extend(r, s1, SettleStep(a, false));
  }

  lemma NoEventRun(s: State, a: Subscriber) returns (r: Run)
    requires a in s.consumers && s.consumers[a].Got?
    ensures IsRun(r) && r.states[0] == s && a in Last(r).consumers && Last(r).events == s.events
  {
    var s1 := s.(consumers := s.consumers[a := Finished(s.consumers[a].message)]);
    assert Lookup(s, s1, a, None);
    r := Extend(Run([s], []), s1, LookupStep(a, None));
  }

  // Whatever the calls of a request come to, the protocol can take the consumer that
  // got the message to exactly the outbox table the request leaves, and through its
  // acknowledgement: what holds in every run of the protocol holds of it.
  lemma RequestIsRun(env: D.Env, caching: bool, s: State, a: Subscriber, w: S.World, c: S.Calls) returns (r: Run)
    requires Inv(s) && a in s.consumers && s.consumers[a].Got? && Table(s) == w.events
    requires S.Truthful(env, w, s.consumers[a].message.analysisId, c)
    requires s.now <= c.processedAt <= c.completedAt
    ensures IsRun(r) && r.states[0] == s && a !in Last(r).consumers
    ensures Table(Last(r)) == S.Handled(env, caching, w, s.consumers[a].message.analysisId, c).world.events
  {
    var id := s.consumers[a].message.analysisId;
    if c.event.None? {
      r := NoEventRun(s, a);
    } else {
      assert c.event.value in Table(s);
      HandledEvents(env, caching, w, id, c);
      r := BeginRun(s, a, c.event.value, c);
      if Completes(w, c) {
        r := CompleteRun(r, a, c.event.value, c);
      }
    }
    r := SettleRun(r, a);
  }
}
