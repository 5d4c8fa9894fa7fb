// The outbox_events table and the statements the repository runs against it.
// Each statement is one function on rows; the repository class applies the
// statements in place, the protocol in OutboxProtocol interleaves them.
module OutboxTable {
  import opened Prelude

  type EventId = Uuid

  datatype OutboxStatus = Pending | Processing | Published | Failed

  // Declaration order is the order of the database enum, lowest first.
  datatype Priority = Low | Normal | High | Urgent

  datatype AnalysisOptions = AnalysisOptions(includeHeadings: bool, checkLinks: bool, detectForms: bool, timeout: int)

  datatype Payload = Payload(analysisId: Uuid, url: string, options: AnalysisOptions, priority: Priority,
      createdAt: Time)

  // The columns that no statement ever updates.
  datatype Envelope = Envelope(
    aggregateId: Uuid,
    eventType: string,
    priority: Priority,
    maxRetries: int,
    payload: Payload,
    createdAt: Time)

  // When each stage of the delivery was reached.
  datatype Timeline = Timeline(
    startedAt: Option<Time>,
    publishedAt: Option<Time>,
    processedAt: Option<Time>,
    completedAt: Option<Time>)

  datatype OutboxRow = OutboxRow(
    event: Envelope,
    status: OutboxStatus,
    retryCount: int,
    errorDetails: Option<string>,
    nextRetryAt: Option<Time>,
    times: Timeline)

  type Rows = map<EventId, OutboxRow>

  // The row SaveInTx inserts for an event that StartAnalysis has just built.
  function NewRow(payload: Payload, eventType: string, maxRetries: int): OutboxRow {
    OutboxRow(Envelope(payload.analysisId, eventType, payload.priority, maxRetries, payload, payload.createdAt),
              Pending, 0, None, None, Timeline(None, None, None, None))
  }

  /******* WHERE clauses *******/

  predicate IsPending(row: OutboxRow) {
    row.status == Pending
  }

  predicate IsRetryable(row: OutboxRow, now: Time) {
    && row.status == Failed
    && row.nextRetryAt.Some?
    && row.nextRetryAt.value <= now
    && row.retryCount < row.event.maxRetries
  }

  predicate Claimable(row: OutboxRow) {
    row.status == Pending || row.status == Failed
  }

  /******* SET clauses *******/

  function ClaimedRow(row: OutboxRow, now: Time): OutboxRow {
    row.(status := Processing, times := row.times.(startedAt := Some(now)))
  }

  function PublishedRow(row: OutboxRow, now: Time): OutboxRow {
    row.(status := Published, times := row.times.(publishedAt := Some(now)))
  }

  function ProcessedRow(row: OutboxRow, now: Time): OutboxRow {
    row.(times := row.times.(processedAt := Some(now)))
  }

  function CompletedRow(row: OutboxRow, now: Time): OutboxRow {
    row.(times := row.times.(completedAt := Some(now)))
  }

  function FailedRow(row: OutboxRow, error: string, nextRetryAt: Time): OutboxRow {
    row.(
      status := Failed,
      retryCount := row.retryCount + 1,
      errorDetails := Some(error),
      nextRetryAt := Some(nextRetryAt))
  }

  function PermanentlyFailedRow(row: OutboxRow, error: string): OutboxRow {
    row.(status := Failed, errorDetails := Some(error), nextRetryAt := None)
  }

  /******* Statements *******/

  function ClaimTable(rows: Rows, id: EventId, now: Time): Rows {
    if id in rows && Claimable(rows[id]) then rows[id := ClaimedRow(rows[id], now)] else rows
  }

  // Every other statement has only "WHERE id": the row found under the ID, if
  // there is one, is replaced whatever its status.
  function PutRow(rows: Rows, id: EventId, row: OutboxRow): Rows {
    if id in rows then rows[id := row] else rows
  }

  /******* ORDER BY and LIMIT *******/

  // FindPending: priority DESC, created_at ASC.
  predicate Outranks(a: OutboxRow, b: OutboxRow) {
    || Rank(a.event.priority) > Rank(b.event.priority)
    || (a.event.priority == b.event.priority && a.event.createdAt < b.event.createdAt)
  }

  function Rank(p: Priority): int {
    match p
    case Low => 0
    case Normal => 1
    case High => 2
    case Urgent => 3
  }

  // The order of the list, written out.
  predicate InOrder(a: Envelope, b: Envelope) {
    && (b.priority == Urgent ==> a.priority == Urgent)
    && (b.priority == High ==> a.priority == Urgent || a.priority == High)
    && (a.priority == Low ==> b.priority == Low)
    && (a.priority == b.priority ==> a.createdAt <= b.createdAt)
  }

  // What the database may answer to FindPending: ties are broken arbitrarily.
  ghost predicate PendingBatch(rows: Rows, limit: nat, ids: seq<EventId>) {
    && (forall i | 0 <= i < |ids| :: ids[i] in rows && IsPending(rows[ids[i]]))
    && (forall i, j | 0 <= i < j < |ids| :: ids[i] != ids[j] && !Outranks(rows[ids[j]], rows[ids[i]]))
    && |ids| <= limit
    && (|ids| < limit ==> forall id | id in rows && IsPending(rows[id]) :: id in ids)
    && (forall id, i | id in rows && IsPending(rows[id]) && id !in ids && 0 <= i < |ids| ::
        !Outranks(rows[id], rows[ids[i]]))
  }

  // FindRetryable: next_retry_at ASC.
  ghost predicate RetryableBatch(rows: Rows, now: Time, limit: nat, ids: seq<EventId>) {
    && (forall i | 0 <= i < |ids| :: ids[i] in rows && IsRetryable(rows[ids[i]], now))
    && (forall i, j | 0 <= i < j < |ids| ::
        ids[i] != ids[j] && rows[ids[i]].nextRetryAt.value <= rows[ids[j]].nextRetryAt.value)
    && |ids| <= limit
    && (|ids| < limit ==> forall id | id in rows && IsRetryable(rows[id], now) :: id in ids)
    && (forall id, i | id in rows && IsRetryable(rows[id], now) && id !in ids && 0 <= i < |ids| ::
          rows[ids[i]].nextRetryAt.value <= rows[id].nextRetryAt.value)
  }

  ghost predicate NoRepeats(ids: seq<EventId>) {
    forall i, j | 0 <= i < j < |ids| :: ids[i] != ids[j]
  }

  ghost function Elements(ids: seq<EventId>): set<EventId> {
    set id | id in ids
  }

  lemma {:induction false} ElementsSize(ids: seq<EventId>)
    requires NoRepeats(ids)
    ensures |Elements(ids)| == |ids|
  {
    if ids != [] {
      var last := |ids| - 1;
      ElementsSize(ids[..last]);
      assert ids == ids[..last] + [ids[last]];
      assert Elements(ids) == Elements(ids[..last]) + {ids[last]};
    }
  }

  lemma SubsetSize(a: set<EventId>, b: set<EventId>)
    requires a <= b
    ensures |a| <= |b|
  {
    assert b == a + (b - a);
  }

  /******* Which rows are in every answer *******/

  lemma {:induction false} Best(rows: Rows, ids: set<EventId>) returns (best: EventId)
    requires ids != {} && forall id | id in ids :: id in rows
    ensures best in ids && forall id | id in ids :: !Outranks(rows[id], rows[best])
    decreases |ids|
  {
    var pick :| pick in ids;
    var rest := ids - {pick};
    assert forall id | id in ids :: id == pick || id in rest;
    best := pick;
    if rest != {} {
      var other := Best(rows, rest);
      if !Outranks(rows[pick], rows[other]) {
        best := other;
      }
      forall id | id in ids ensures !Outranks(rows[id], rows[best]) {
        if id in rest && best == pick { OutranksOrdered(rows[id], rows[pick], rows[other]); }
      }
    }
  }

  lemma OutranksOrdered(a: OutboxRow, b: OutboxRow, c: OutboxRow)
    requires !Outranks(a, c) && Outranks(b, c)
    ensures !Outranks(a, b)
  {
  }

  // The n best of some events, best first.
  ghost predicate BestOf(rows: Rows, ids: set<EventId>, n: nat, chosen: seq<EventId>) {
    && (forall id | id in ids :: id in rows)
    && NoRepeats(chosen) && Elements(chosen) <= ids
    && |chosen| == (if |ids| <= n then |ids| else n)
    && (forall i, j | 0 <= i < j < |chosen| :: !Outranks(rows[chosen[j]], rows[chosen[i]]))
    && (forall id, i | id in ids && id !in chosen && 0 <= i < |chosen| :: !Outranks(rows[id], rows[chosen[i]]))
  }

  lemma BestFirst(rows: Rows, ids: set<EventId>, n: nat, best: EventId, rest: seq<EventId>)
    requires n > 0 && best in ids && BestOf(rows, ids - {best}, n - 1, rest) && best in rows
    requires forall id | id in ids - {best} :: !Outranks(rows[id], rows[best])
    ensures BestOf(rows, ids, n, [best] + rest)
  {
    var chosen := [best] + rest;
    assert forall id | id in rest :: id in Elements(rest);
    assert forall id :: id in chosen <==> id == best || id in rest;
    assert forall i | 0 < i < |chosen| :: chosen[i] == rest[i - 1] && chosen[i] in rest;
    assert |ids - {best}| == |ids| - 1;
  }

  lemma {:induction false} Choose(rows: Rows, ids: set<EventId>, n: nat) returns (chosen: seq<EventId>)
    requires forall id | id in ids :: id in rows
    ensures BestOf(rows, ids, n, chosen)
    decreases n
  {
    chosen := [];
    if n > 0 && ids != {} {
      var best := Best(rows, ids);
      var rest := Choose(rows, ids - {best}, n - 1);
      BestFirst(rows, ids, n, best, rest);
      chosen := [best] + rest;
    }
  }

  ghost function PendingIn(rows: Rows): set<EventId> {
    set id | id in rows && IsPending(rows[id])
  }

  // The other pending rows that the row does not outrank.
  ghost function Rivals(rows: Rows, id: EventId): set<EventId>
    requires id in rows
  {
    set other | other in rows && IsPending(rows[other]) && other != id && !Outranks(rows[id], rows[other])
  }

  lemma AnswerHasIt(rows: Rows, limit: nat, ids: seq<EventId>, id: EventId)
    requires PendingBatch(rows, limit, ids) && id in rows && IsPending(rows[id]) && id !in ids
    ensures |Rivals(rows, id)| >= limit
  {
    forall other | other in ids ensures other in Rivals(rows, id) {
      var i :| 0 <= i < |ids| && ids[i] == other;
    }
    ElementsSize(ids);
    SubsetSize(Elements(ids), Rivals(rows, id));
  }

  // The best of all others, if there are enough that the row does not outrank.
  lemma AnswerWithout(rows: Rows, limit: nat, id: EventId) returns (ids: seq<EventId>)
    requires id in rows && IsPending(rows[id]) && |Rivals(rows, id)| >= limit
    ensures PendingBatch(rows, limit, ids) && id !in ids
  {
    var others := PendingIn(rows) - {id};
    ids := Choose(rows, others, limit);
    assert forall other | other in ids :: other in Elements(ids);
    SubsetSize(Rivals(rows, id), others);
    forall i | 0 <= i < |ids| ensures !Outranks(rows[id], rows[ids[i]]) {
      OutrankedIsLate(rows, limit, id, ids, i);
    }
  }

  lemma OutrankedIsLate(rows: Rows, limit: nat, id: EventId, ids: seq<EventId>, i: nat)
    requires id in rows && IsPending(rows[id]) && |Rivals(rows, id)| >= limit
    requires BestOf(rows, PendingIn(rows) - {id}, limit, ids) && i < |ids|
    ensures !Outranks(rows[id], rows[ids[i]])
  {
    if Outranks(rows[id], rows[ids[i]]) {
      forall rival | rival in Rivals(rows, id) ensures rival in Elements(ids[..i]) {
        assert Outranks(rows[rival], rows[ids[i]]);
        assert rival in ids;
        var j :| 0 <= j < |ids| && ids[j] == rival;
        assert j < i;
        assert ids[..i][j] == rival;
      }
      ElementsSize(ids[..i]);
      SubsetSize(Rivals(rows, id), Elements(ids[..i]));
    }
  }

  // A pending row is in every answer that FindPending may get exactly if fewer than
  // the limit of other pending rows are not outranked by it; and if it does not
  // decode, none of these answers yields anything.
  lemma BadRowBlocksExactlyWhen(rows: Rows, limit: nat, bad: EventId, decodes: OutboxRow -> bool)
    requires bad in rows && IsPending(rows[bad]) && !decodes(rows[bad])
    ensures (forall ids | PendingBatch(rows, limit, ids) :: bad in ids) <==> |Rivals(rows, bad)| < limit
    ensures |Rivals(rows, bad)| < limit ==>
      forall ids | PendingBatch(rows, limit, ids) :: exists i :: 0 <= i < |ids| && !decodes(rows[ids[i]])
  {
    if |Rivals(rows, bad)| < limit {
      forall ids | PendingBatch(rows, limit, ids) ensures bad in ids {
        if bad !in ids {
          AnswerHasIt(rows, limit, ids, bad);
        }
      }
    } else {
      var ids := AnswerWithout(rows, limit, bad);
    }
  }

  /******* The repository *******/

  class OutboxRepository {
    var rows: Rows

    constructor ()
      ensures rows == map[]
    {
      rows := map[];
    }

    // The rows of the database's answer, in its order; one that does not decode
    // spoils them all.
    method FindByCriteria(answer: seq<EventId>, decodes: OutboxRow -> bool) returns (events: Option<seq<OutboxRow>>)
      requires forall i | 0 <= i < |answer| :: answer[i] in rows
      ensures events.Some? <==> forall i | 0 <= i < |answer| :: decodes(rows[answer[i]])
      ensures events.Some? ==> |events.value| == |answer| && forall i | 0 <= i < |answer| ::
        events.value[i] == rows[answer[i]]
    {
      var found: seq<OutboxRow> := [];
      for i := 0 to |answer|
        invariant |found| == i
        invariant forall j | 0 <= j < i :: found[j] == rows[answer[j]] && decodes(rows[answer[j]])
      {
        if !decodes(rows[answer[i]]) {
          return None;
        }
        found := found + [rows[answer[i]]];
      }
      return Some(found);
    }

    method FindPending(limit: nat, answer: seq<EventId>, decodes: OutboxRow -> bool)
      returns (events: Option<seq<OutboxRow>>)
      requires PendingBatch(rows, limit, answer)
      ensures events.Some? <==> forall i | 0 <= i < |answer| :: decodes(rows[answer[i]])
      ensures events.Some? ==>
        && |events.value| == |answer| <= limit
        && (forall i | 0 <= i < |events.value| :: events.value[i] == rows[answer[i]] && IsPending(events.value[i]))
        && (forall i, j | 0 <= i < j < |events.value| :: !Outranks(events.value[j], events.value[i]))
      // No better row is left out, and none at all if there is room for it.
      ensures events.Some? ==> forall id | id in rows && IsPending(rows[id]) && id !in answer ::
        |events.value| == limit && forall i | 0 <= i < |events.value| :: !Outranks(rows[id], events.value[i])
      // Urgent before high before normal before low, and the oldest of each first.
      ensures events.Some? ==> forall i, j | 0 <= i < j < |events.value| ::
        InOrder(events.value[i].event, events.value[j].event)
      ensures events.Some? ==> forall id, i | id in rows && rows[id].status == Pending && id !in answer
        && 0 <= i < |events.value| :: InOrder(events.value[i].event, rows[id].event)
    {
      events := FindByCriteria(answer, decodes);
    }

    method FindRetryable(now: Time, limit: nat, answer: seq<EventId>, decodes: OutboxRow -> bool)
      returns (events: Option<seq<OutboxRow>>)
      requires RetryableBatch(rows, now, limit, answer)
      ensures events.Some? <==> forall i | 0 <= i < |answer| :: decodes(rows[answer[i]])
      ensures events.Some? ==>
        && |events.value| == |answer| <= limit
        && (forall i | 0 <= i < |events.value| ::
            events.value[i] == rows[answer[i]] && IsRetryable(events.value[i], now))
        && (forall i, j | 0 <= i < j < |events.value| ::
            events.value[i].nextRetryAt.value <= events.value[j].nextRetryAt.value)
      ensures events.Some? ==> forall id | id in rows && IsRetryable(rows[id], now) && id !in answer ::
        |events.value| == limit && forall i | 0 <= i < |events.value| ::
            events.value[i].nextRetryAt.value <= rows[id].nextRetryAt.value
      // Failed, due and with retries left; and no such row is left out while there is room.
      ensures events.Some? ==> forall i | 0 <= i < |events.value| :: var row := events.value[i];
        && row.status == Failed && row.retryCount < row.event.maxRetries
        && row.nextRetryAt.Some? && row.nextRetryAt.value <= now
      ensures events.Some? && |events.value| < limit ==> forall id | id in rows && id !in answer :: var row := rows[id];
        row.status != Failed || row.retryCount >= row.event.maxRetries || row.nextRetryAt.None?
            || row.nextRetryAt.value > now
    {
      events := FindByCriteria(answer, decodes);
    }

    // UPDATE ... WHERE id AND (pending OR failed) RETURNING, in one transaction.
    // A row that the caller cannot decode rolls the transaction back and so is
    // an instance of Rejected.
    method ClaimForProcessing(id: EventId, now: Time, outcome: Outcome) returns (claimed: Option<OutboxRow>)
      modifies this
      ensures rows == if outcome.Applied() then ClaimTable(old(rows), id, now) else old(rows)
      ensures claimed.Some? <==> outcome.Done? && id in old(rows) && Claimable(old(rows)[id])
      ensures claimed.Some? ==> id in rows && claimed.value == rows[id]
      ensures id in old(rows) && outcome.Applied() ==> var row := old(rows)[id];
        && id in rows
        && rows[id] == if row.status == Processing || row.status == Published then row
             else OutboxRow(row.event, Processing, row.retryCount, row.errorDetails, row.nextRetryAt,
                 Timeline(Some(now), row.times.publishedAt, row.times.processedAt, row.times.completedAt))
    {
      claimed := None;
      if id !in rows || !Claimable(rows[id]) {
        return;
      }
      if outcome.Applied() {
        rows := rows[id := rows[id].(status := Processing, times := rows[id].times.(startedAt := Some(now)))];
      }
      if outcome.Done? {
        claimed := Some(rows[id]);
      }
    }

    method MarkPublished(id: EventId, now: Time, outcome: Outcome) returns (ok: bool)
      modifies this
      ensures ok <==> outcome.Done? && id in old(rows)
      ensures rows == if outcome.Applied() && id in old(rows)
        then PutRow(old(rows), id, PublishedRow(old(rows)[id], now)) else old(rows)
      ensures outcome.Applied() && id in old(rows) ==> var row := old(rows)[id];
        && id in rows
        && rows[id] == OutboxRow(row.event, Published, row.retryCount, row.errorDetails, row.nextRetryAt,
             Timeline(row.times.startedAt, Some(now), row.times.processedAt, row.times.completedAt))
    {
      if outcome.Applied() && id in rows {
        rows := rows[id := rows[id].(status := Published, times := rows[id].times.(publishedAt := Some(now)))];
      }
      ok := outcome.Done? && id in rows;
    }

    method MarkProcessed(id: EventId, now: Time, outcome: Outcome) returns (ok: bool)
      modifies this
      ensures ok <==> outcome.Done? && id in old(rows)
      ensures rows == if outcome.Applied() && id in old(rows)
        then PutRow(old(rows), id, ProcessedRow(old(rows)[id], now)) else old(rows)
      ensures outcome.Applied() && id in old(rows) ==> var row := old(rows)[id];
        && id in rows
        && rows[id] == OutboxRow(row.event, row.status, row.retryCount, row.errorDetails, row.nextRetryAt,
             Timeline(row.times.startedAt, row.times.publishedAt, Some(now), row.times.completedAt))
    {
      if outcome.Applied() && id in rows {
        rows := rows[id := rows[id].(times := rows[id].times.(processedAt := Some(now)))];
      }
      ok := outcome.Done? && id in rows;
    }

    method MarkCompleted(id: EventId, now: Time, outcome: Outcome) returns (ok: bool)
      modifies this
      ensures ok <==> outcome.Done? && id in old(rows)
      ensures rows == if outcome.Applied() && id in old(rows)
        then PutRow(old(rows), id, CompletedRow(old(rows)[id], now)) else old(rows)
      ensures outcome.Applied() && id in old(rows) ==> var row := old(rows)[id];
        && id in rows
        && rows[id] == OutboxRow(row.event, row.status, row.retryCount, row.errorDetails, row.nextRetryAt,
             Timeline(row.times.startedAt, row.times.publishedAt, row.times.processedAt, Some(now)))
    {
      if outcome.Applied() && id in rows {
        rows := rows[id := rows[id].(times := rows[id].times.(completedAt := Some(now)))];
      }
      ok := outcome.Done? && id in rows;
    }

    method MarkFailed(id: EventId, error: string, nextRetryAt: Time, outcome: Outcome) returns (ok: bool)
      modifies this
      ensures ok <==> outcome.Done? && id in old(rows)
      ensures rows == if outcome.Applied() && id in old(rows)
        then PutRow(old(rows), id, FailedRow(old(rows)[id], error, nextRetryAt)) else old(rows)
      ensures outcome.Applied() && id in old(rows) ==> var row := old(rows)[id];
        && id in rows
        && rows[id] == OutboxRow(row.event, Failed, row.retryCount + 1, Some(error), Some(nextRetryAt), row.times)
    {
      if outcome.Applied() && id in rows {
        rows := rows[id := rows[id].(
          status := Failed,
          retryCount := rows[id].retryCount + 1,
          errorDetails := Some(error),
          nextRetryAt := Some(nextRetryAt))];
      }
      ok := outcome.Done? && id in rows;
    }

    method MarkPermanentlyFailed(id: EventId, error: string, outcome: Outcome) returns (ok: bool)
      modifies this
      ensures ok <==> outcome.Done? && id in old(rows)
      ensures rows == if outcome.Applied() && id in old(rows)
        then PutRow(old(rows), id, PermanentlyFailedRow(old(rows)[id], error)) else old(rows)
      ensures outcome.Applied() && id in old(rows) ==> var row := old(rows)[id];
        && id in rows
        && rows[id] == OutboxRow(row.event, Failed, row.retryCount, Some(error), None, row.times)
    {
      if outcome.Applied() && id in rows {
        rows := rows[id := rows[id].(status := Failed, errorDetails := Some(error), nextRetryAt := None)];
      }
      ok := outcome.Done? && id in rows;
    }
  }
}
