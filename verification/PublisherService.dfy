// PublishEvent as the publisher runs it, step by step against the repository and
// the broker. Run alone it is one worker's path through OutboxProtocol.
module PublisherService {
  import opened Prelude
  import opened OutboxTable
  import opened OutboxProtocol

  class Broker {
    var sent: seq<Payload>

    constructor ()
      ensures sent == []
    {
      sent := [];
    }

    // The broker may take a message and the caller see an error, or the caller
    // see success for a message that no queue was bound for.
    method Send(payload: Payload, accepted: bool, enqueued: bool) returns (ok: bool)
      modifies this
      ensures ok == accepted
      ensures sent == if enqueued then old(sent) + [payload] else old(sent)
    {
      if enqueued {
        sent := sent + [payload];
      }
      ok := accepted;
    }
  }

  // What the calls of one PublishEvent come to, and when they are made.
  datatype Calls = Calls(
    claim: Outcome, claimedAt: Time,
    accepted: bool, enqueued: bool, error: string,
    mark: Outcome, markedAt: Time)

  // What one PublishEvent leaves behind.
  datatype Effect = Effect(rows: Rows, sent: seq<Payload>, published: bool)

  // The row in the end, for a row that was claimed as "row".
  function FinalRow(row: OutboxRow, calls: Calls, backoff: int -> Time): OutboxRow {
    if !calls.mark.Applied() then row
    else if calls.accepted then PublishedRow(row, calls.markedAt)
    else FailureRow(row, row, calls.error, calls.markedAt + backoff(row.retryCount))
  }

  function EffectOf(rows: Rows, id: EventId, calls: Calls, backoff: int -> Time): Effect {
    var claimed := if calls.claim.Applied() then ClaimTable(rows, id, calls.claimedAt) else rows;
    if !calls.claim.Done? || id !in rows || !Claimable(rows[id]) then
      Effect(claimed, [], false)
    else
      var row := claimed[id];
      Effect(claimed[id := FinalRow(row, calls, backoff)],
             if calls.enqueued then [row.event.payload] else [],
             calls.accepted && calls.mark.Done?)
  }

  /******* What PublishEvent is for, column by column *******/

  // The claim goes through, and the caller learns of it.
  predicate Claims(rows: Rows, id: EventId, calls: Calls) {
    calls.claim.Done? && id in rows && (rows[id].status == Pending || rows[id].status == Failed)
  }

  predicate SameRetries(row: OutboxRow, row': OutboxRow) {
    row'.retryCount == row.retryCount && row'.errorDetails == row.errorDetails && row'.nextRetryAt == row.nextRetryAt
  }

  // Refused by the broker: due again after the backoff for the retries so far, or
  // not at all.
  predicate EndsRefused(row: OutboxRow, row': OutboxRow, calls: Calls, backoff: int -> Time) {
    && row'.status == Failed && row'.errorDetails == Some(calls.error)
    && if row.retryCount < row.event.maxRetries then
         row'.retryCount == row.retryCount + 1
         && row'.nextRetryAt == Some(calls.markedAt + backoff(row.retryCount))
       else
         row'.retryCount == row.retryCount && row'.nextRetryAt == None
  }

  // From the row before to the row after.
  predicate EndsAs(row: OutboxRow, row': OutboxRow, calls: Calls, backoff: int -> Time) {
    if calls.claim.Rejected? || row.status == Processing || row.status == Published then row' == row
    else
      var marked := calls.claim.Done? && !calls.mark.Rejected?;
      && row'.event == row.event
      && row'.times.startedAt == Some(calls.claimedAt)
      && row'.times.processedAt == row.times.processedAt && row'.times.completedAt == row.times.completedAt
      && row'.times.publishedAt == (if marked && calls.accepted then Some(calls.markedAt) else row.times.publishedAt)
      && if !marked then row'.status == Processing && SameRetries(row, row')
         else if calls.accepted then row'.status == Published && SameRetries(row, row')
         else EndsRefused(row, row', calls, backoff)
  }

  // The payload that the table has for the event, and nothing else, is sent.
  function PayloadSent(rows: Rows, id: EventId, calls: Calls): seq<Payload> {
    if Claims(rows, id, calls) && calls.enqueued then [rows[id].event.payload] else []
  }

  lemma EffectMeans(rows: Rows, id: EventId, calls: Calls, backoff: int -> Time)
    ensures var effect := EffectOf(rows, id, calls, backoff);
      && effect.sent == PayloadSent(rows, id, calls)
      && (effect.published <==> Claims(rows, id, calls) && calls.accepted && calls.mark.Done?)
      && effect.rows.Keys == rows.Keys
      && (id in rows ==> EndsAs(rows[id], effect.rows[id], calls, backoff))
      && forall other | other in rows && other != id :: effect.rows[other] == rows[other]
  {
  }

  class Service {
    const repo: OutboxRepository
    const broker: Broker
    const backoff: int -> Time

    constructor (repo: OutboxRepository, broker: Broker, backoff: int -> Time)
      ensures this.repo == repo && this.broker == broker && this.backoff == backoff
    {
      this.repo := repo;
      this.broker := broker;
      this.backoff := backoff;
    }

    method PublishEvent(id: EventId, calls: Calls) returns (published: bool)
      modifies repo, broker
      ensures var effect := EffectOf(old(repo.rows), id, calls, backoff);
        && repo.rows == effect.rows
        && broker.sent == old(broker.sent) + effect.sent
        && published == effect.published
      ensures broker.sent == old(broker.sent) + PayloadSent(old(repo.rows), id, calls)
      ensures published <==> Claims(old(repo.rows), id, calls) && calls.accepted && calls.mark.Done?
      ensures repo.rows.Keys == old(repo.rows).Keys
      ensures id in old(repo.rows) ==> EndsAs(old(repo.rows)[id], repo.rows[id], calls, backoff)
      ensures forall other | other in old(repo.rows) && other != id :: repo.rows[other] == old(repo.rows)[other]
    {
      EffectMeans(repo.rows, id, calls, backoff);
      var claimed := repo.ClaimForProcessing(id, calls.claimedAt, calls.claim);
      if claimed.None? {
        return false;
      }
      var ok := broker.Send(claimed.value.event.payload, calls.accepted, calls.enqueued);
      if !ok {
        HandlePublishFailure(id, claimed.value, calls);
        return false;
      }
      published := repo.MarkPublished(id, calls.markedAt, calls.mark);
    }

    method HandlePublishFailure(id: EventId, event: OutboxRow, calls: Calls)
      requires id in repo.rows
      modifies repo
      ensures repo.rows == if calls.mark.Applied()
        then old(repo.rows)[
          id := FailureRow(old(repo.rows)[id], event, calls.error, calls.markedAt + backoff(event.retryCount))]
        else old(repo.rows)
      ensures id in repo.rows && var row := old(repo.rows)[id];
        repo.rows[id] ==
          if calls.mark.Rejected? then row
          else if event.retryCount < event.event.maxRetries then
            OutboxRow(row.event, Failed, row.retryCount + 1, Some(calls.error),
                Some(calls.markedAt + backoff(event.retryCount)), row.times)
          else
            OutboxRow(row.event, Failed, row.retryCount, Some(calls.error), None, row.times)
    {
      if event.retryCount >= event.event.maxRetries {
        var _ := repo.MarkPermanentlyFailed(id, calls.error, calls.mark);
        return;
      }
      var backoffDuration := backoff(event.retryCount);
      var nextRetryAt := calls.markedAt + backoffDuration;
      var _ := repo.MarkFailed(id, calls.error, nextRetryAt, calls.mark);
    }
  }

  /******* PublishEvent alone is a run of the protocol *******/

  ghost predicate Handed(s: State, w: Worker, id: EventId) {
    w in s.publishers && s.publishers[w] == Listed(id) && id in s.events
  }

  lemma ClaimRun(s: State, w: Worker, id: EventId, calls: Calls) returns (r: Run)
    requires Handed(s, w, id) && s.now <= calls.claimedAt
    ensures IsRun(r) && r.states[0] == s && Claim(s.(now := calls.claimedAt), Last(r), w, calls.claim)
  {
    var s0 := s.(now := calls.claimedAt);
    r := Extend(Run([s], []), s0, ClockStep);
    var s1: State;
    if !Claimable(RowOf(s, id)) || calls.claim.Rejected? {
      s1 := s0.(publishers := s.publishers - {w});
    } else {
      var row := ClaimedRow(RowOf(s, id), s0.now);
      s1 := s0.(events := s.events[id := s.events[id].(row := row, owner := Some(w))],
                publishers := if calls.claim.Done? then s.publishers[w := Holding(id, row)] else s.publishers - {w});
    }
    assert Claim(s0, s1, w, calls.claim);
    r := Extend(r, s1, ClaimStep(w, calls.claim));
  }

  // What is left to do once Publish has answered.
  function Verdict(w: Worker, row: OutboxRow, calls: Calls, backoff: int -> Time): Label {
    if calls.accepted then
      MarkPublishedStep(w, calls.mark)
    else
      RecordFailureStep(w, calls.error, calls.markedAt + backoff(row.retryCount), calls.mark)
  }

  lemma SendRun(r: Run, w: Worker, id: EventId, row: OutboxRow, calls: Calls) returns (r': Run)
    requires IsRun(r) && Last(r).now <= calls.markedAt
    requires w in Last(r).publishers && Last(r).publishers[w] == Holding(id, row) && id in Last(r).events
    ensures IsRun(r') && r'.states[0] == r.states[0]
    ensures var s, s' := Last(r), Last(r');
      && Publish(s.(now := calls.markedAt), s', w, calls.accepted, calls.enqueued)
  {
    var s := Last(r);
    var s1 := s.(now := calls.markedAt);
    var s2 := s1.(events := s.events[id := Attempted(s.events[id], calls.accepted, calls.enqueued)],
                  publishers := s.publishers[w := if calls.accepted then Sent(id) else Refused(id, row)],
                  queued := s.queued + if calls.enqueued then multiset{Message(row.event.payload.analysisId, id)}
                      else multiset{});
    r' := Extend(r, s1, ClockStep);
    assert Publish(s1, s2, w, calls.accepted, calls.enqueued);
    r' := Extend(r', s2, PublishStep(w, calls.accepted, calls.enqueued));
  }

  lemma VerdictRun(r: Run, w: Worker, id: EventId, row: OutboxRow, calls: Calls, backoff: int -> Time) returns (r': Run)
    requires IsRun(r) && Last(r).now == calls.markedAt && id in Last(r).events && RowOf(Last(r), id) == row
    requires w in Last(r).publishers && Last(r).publishers[w] == if calls.accepted then Sent(id) else Refused(id, row)
    ensures IsRun(r') && r'.states[0] == r.states[0]
    ensures Last(r').events == Last(r).events[id := Last(r).events[id].(row := FinalRow(row, calls, backoff))]
    ensures Last(r').publishers == Last(r).publishers - {w}
    ensures Last(r').queued == Last(r).queued
  {
    var s := Last(r);
    var row' := FinalRow(row, calls, backoff);
    var s' := s.(events := s.events[id := s.events[id].(row := row')], publishers := s.publishers - {w});
    assert !calls.mark.Applied() ==> s.events[id := s.events[id].(row := row)] == s.events;
    assert Next(s, s', Verdict(w, row, calls, backoff));
    r' := Extend(r, s', Verdict(w, row, calls, backoff));
  }

  // What is counted of a claim that goes through.
  predicate Counted(e: Event, e': Event, calls: Calls) {
    e'.attempts == e.attempts + 1 && e'.successes == e.successes + (if calls.accepted then 1 else 0)
  }

  lemma ClaimedPath(s: State, w: Worker, id: EventId, calls: Calls, backoff: int -> Time) returns (r: Run)
    requires Handed(s, w, id) && s.now <= calls.claimedAt <= calls.markedAt
    requires calls.claim.Done? && Claimable(RowOf(s, id))
    ensures IsRun(r) && r.states[0] == s && id in Last(r).events && Last(r).publishers == s.publishers - {w}
    ensures var row, t := ClaimedRow(RowOf(s, id), calls.claimedAt), Last(r);
      && t.events == s.events[id := t.events[id]] && RowOf(t, id) == FinalRow(row, calls, backoff)
      && Counted(s.events[id], t.events[id], calls)
      && t.queued == s.queued
          + if calls.enqueued then multiset{Message(row.event.payload.analysisId, id)} else multiset{}
  {
    r := ClaimRun(s, w, id, calls);
    var row := ClaimedRow(RowOf(s, id), calls.claimedAt);
    r := SendRun(r, w, id, row, calls);
    r := VerdictRun(r, w, id, row, calls, backoff);
  }

  // Whatever its calls come to, one PublishEvent is one worker's path through
  // OutboxProtocol: what holds in every run of the protocol holds of it.
  lemma PublishEventIsRun(s: State, w: Worker, id: EventId, calls: Calls, backoff: int -> Time) returns (r: Run)
    requires Handed(s, w, id) && s.now <= calls.claimedAt <= calls.markedAt
    ensures IsRun(r) && r.states[0] == s
    ensures var effect, t := EffectOf(Table(s), id, calls, backoff), Last(r);
      Table(t) == effect.rows && t.publishers == s.publishers - {w} && id in t.events
    ensures EndsAs(RowOf(s, id), RowOf(Last(r), id), calls, backoff)
    ensures var t, claims := Last(r), Claims(Table(s), id, calls);
      && t.queued == s.queued + (if claims && calls.enqueued
           then multiset{Message(RowOf(s, id).event.payload.analysisId, id)} else multiset{})
      && if claims then Counted(s.events[id], t.events[id], calls) else SameHistory(s.events[id], t.events[id])
  {
    if Claims(Table(s), id, calls) {
      r := ClaimedPath(s, w, id, calls, backoff);
    } else {
      r := ClaimRun(s, w, id, calls);
    }
    assert Table(Last(r)) == EffectOf(Table(s), id, calls, backoff).rows;
    EffectMeans(Table(s), id, calls, backoff);
  }
}
