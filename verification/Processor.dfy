// The processor's fan-out over one list of events, one PublishEvent after the
// other. That whole calls may be swapped is shown here, that their steps may be
// interleaved in Interleaving, and what the tick loop comes to in Backlog.
module Processor {
  import opened Prelude
  import opened OutboxTable
  import PublisherService

  const BATCH_SIZE: nat := 10

  type Calls = PublisherService.Calls

  function AfterBatch(rows: Rows, ids: seq<EventId>, calls: EventId -> Calls, backoff: int -> Time): Rows {
    if ids == [] then rows
    else AfterBatch(PublisherService.EffectOf(rows, ids[0], calls(ids[0]), backoff).rows, ids[1..], calls, backoff)
  }

  // What is handed to the broker, in order.
  function SentByBatch(rows: Rows, ids: seq<EventId>, calls: EventId -> Calls, backoff: int -> Time): seq<Payload> {
    if ids == [] then []
    else
      var effect := PublisherService.EffectOf(rows, ids[0], calls(ids[0]), backoff);
      effect.sent + SentByBatch(effect.rows, ids[1..], calls, backoff)
  }

  // The payloads that the table had for the events, in the order of the list.
  function PayloadsSent(rows: Rows, ids: seq<EventId>, calls: EventId -> Calls): seq<Payload> {
    if ids == [] then []
    else PublisherService.PayloadSent(rows, ids[0], calls(ids[0])) + PayloadsSent(rows, ids[1..], calls)
  }

  // Distinct events of the table, as every list that is fetched has them.
  ghost predicate Distinct(rows: Rows, ids: seq<EventId>) {
    NoRepeats(ids) && forall id | id in ids :: id in rows
  }

  // Each listed row ends as its own calls make it end, from what it was at first;
  // all others are as they were.
  ghost predicate EndAs(rows: Rows, after: Rows, ids: seq<EventId>, calls: EventId -> Calls, backoff: int -> Time) {
    && after.Keys == rows.Keys
    && forall id | id in rows ::
         if id in ids then PublisherService.EndsAs(rows[id], after[id], calls(id), backoff) else after[id] == rows[id]
  }

  class Processor {
    const service: PublisherService.Service

    constructor (service: PublisherService.Service)
      ensures this.service == service
    {
      this.service := service;
    }

    // On a list without repetitions, as the repository gives it, each event is
    // worked off from the row that the table had for it.
    method ProcessEvents(events: seq<EventId>, calls: EventId -> Calls)
      modifies service.repo, service.broker
      ensures service.repo.rows == AfterBatch(old(service.repo.rows), events, calls, service.backoff)
      ensures service.broker.sent
        == old(service.broker.sent) + SentByBatch(old(service.repo.rows), events, calls, service.backoff)
      ensures Distinct(old(service.repo.rows), events) ==>
        && service.broker.sent == old(service.broker.sent) + PayloadsSent(old(service.repo.rows), events, calls)
        && EndAs(old(service.repo.rows), service.repo.rows, events, calls, service.backoff)
    {
      var i := 0;
      while i < |events|
        invariant 0 <= i <= |events|
        invariant AfterBatch(service.repo.rows, events[i..], calls, service.backoff)
               == AfterBatch(old(service.repo.rows), events, calls, service.backoff)
        invariant service.broker.sent + SentByBatch(service.repo.rows, events[i..], calls, service.backoff)
               == old(service.broker.sent) + SentByBatch(old(service.repo.rows), events, calls, service.backoff)
      {
        var _ := service.PublishEvent(events[i], calls(events[i]));
        assert events[i..][0] == events[i] && events[i..][1..] == events[i + 1..];
        i := i + 1;
      }
      BatchMeans(old(service.repo.rows), events, calls, service.backoff);
    }
  }

  // PublishEvent reads and writes no row but its own.
  lemma EffectIsLocal(rows: Rows, rows': Rows, id: EventId, calls: Calls, backoff: int -> Time)
    requires id in rows && id in rows' && rows'[id] == rows[id]
    ensures var after, after' := PublisherService.EffectOf(rows, id, calls, backoff).rows,
      PublisherService.EffectOf(rows', id, calls, backoff).rows;
      && id in after && id in after' && after'[id] == after[id]
      && after.Keys == rows.Keys
      && forall other | other in rows && other != id :: after[other] == rows[other]
  {
  }

  // The rows of distinct events end as each would alone, in whatever order the
  // list is worked off.
  lemma {:induction false} BatchPointwise(rows: Rows, ids: seq<EventId>, calls: EventId -> Calls, backoff: int -> Time)
    requires NoRepeats(ids) && forall id | id in ids :: id in rows
    ensures var after := AfterBatch(rows, ids, calls, backoff);
      && after.Keys == rows.Keys
      && forall id | id in rows :: after[id] ==
           if id in ids then PublisherService.EffectOf(rows, id, calls(id), backoff).rows[id] else rows[id]
  {
    if ids != [] {
      var id0 := ids[0];
      EffectIsLocal(rows, rows, id0, calls(id0), backoff);
      var next := PublisherService.EffectOf(rows, id0, calls(id0), backoff).rows;
      assert id0 !in ids[1..];
      BatchPointwise(next, ids[1..], calls, backoff);
      forall id | id in ids[1..] ensures PublisherService.EffectOf(next, id, calls(id), backoff).rows[id]
                                      == PublisherService.EffectOf(rows, id, calls(id), backoff).rows[id] {
        EffectIsLocal(rows, next, id, calls(id), backoff);
      }
    }
  }

  lemma {:induction false} SentAlike(rows: Rows, rows': Rows, ids: seq<EventId>, calls: EventId -> Calls)
    requires forall id | id in ids :: id in rows && id in rows' && rows'[id] == rows[id]
    ensures PayloadsSent(rows', ids, calls) == PayloadsSent(rows, ids, calls)
  {
    if ids != [] {
      SentAlike(rows, rows', ids[1..], calls);
    }
  }

  // A batch of distinct events sends the payloads of the rows it found, in the
  // order of the list.
  lemma {:induction false} BatchSends(rows: Rows, ids: seq<EventId>, calls: EventId -> Calls, backoff: int -> Time)
    requires NoRepeats(ids) && forall id | id in ids :: id in rows
    ensures SentByBatch(rows, ids, calls, backoff) == PayloadsSent(rows, ids, calls)
  {
    if ids != [] {
      var next := PublisherService.EffectOf(rows, ids[0], calls(ids[0]), backoff).rows;
      PublisherService.EffectMeans(rows, ids[0], calls(ids[0]), backoff);
      assert ids[0] !in ids[1..];
      BatchSends(next, ids[1..], calls, backoff);
      SentAlike(rows, next, ids[1..], calls);
    }
  }

  // And each of its rows ends as its own calls make it end.
  lemma BatchEnds(rows: Rows, ids: seq<EventId>, calls: EventId -> Calls, backoff: int -> Time)
    requires Distinct(rows, ids)
    ensures EndAs(rows, AfterBatch(rows, ids, calls, backoff), ids, calls, backoff)
  {
    BatchPointwise(rows, ids, calls, backoff);
    var after := AfterBatch(rows, ids, calls, backoff);
    forall id | id in ids ensures PublisherService.EndsAs(rows[id], after[id], calls(id), backoff) {
      PublisherService.EffectMeans(rows, id, calls(id), backoff);
    }
  }

  lemma BatchMeans(rows: Rows, ids: seq<EventId>, calls: EventId -> Calls, backoff: int -> Time)
    ensures Distinct(rows, ids) ==>
      && SentByBatch(rows, ids, calls, backoff) == PayloadsSent(rows, ids, calls)
      && EndAs(rows, AfterBatch(rows, ids, calls, backoff), ids, calls, backoff)
  {
    if Distinct(rows, ids) {
      BatchSends(rows, ids, calls, backoff);
      BatchEnds(rows, ids, calls, backoff);
    }
  }

  lemma BatchOrderIrrelevant(rows: Rows, ids: seq<EventId>, ids': seq<EventId>, calls: EventId -> Calls,
      backoff: int -> Time)
    requires NoRepeats(ids) && NoRepeats(ids') && forall id | id in ids :: id in rows
    requires forall id :: id in ids <==> id in ids'
    ensures AfterBatch(rows, ids, calls, backoff) == AfterBatch(rows, ids', calls, backoff)
  {
    BatchPointwise(rows, ids, calls, backoff);
    BatchPointwise(rows, ids', calls, backoff);
  }
}
