// How often Publish is called for one event, over any number of publisher
// processes: exactly when it is called more often than max_retries allows.
module OutboxBudget {
  import opened Prelude
  import opened OutboxTable
  import opened OutboxProtocol
  import opened OutboxSafety
  import opened OutboxDomain

  /******* Attempts keep pace with retries *******/

  predicate Paced(e: Event) {
    && e.row.retryCount <= e.attempts
    && (e.row.status == Pending ==> e.attempts == 0 && e.row.retryCount == 0 && e.row.errorDetails.None?)
    && (e.row.status == Failed ==> e.attempts >= 1 && e.row.errorDetails.Some?)
    && (e.row.status == Failed && CanFail(e.row) ==> e.attempts == e.row.retryCount)
  }

  // As long as the row has retries left, every attempt but one in progress has
  // been counted as a retry.
  predicate PacedBy(e: Event, p: Publisher) {
    && (p.Holding? && CanFail(e.row) ==> e.attempts == e.row.retryCount)
    && (p.Holding? ==> (e.attempts >= 1 <==> e.row.errorDetails.Some?))
    && (p.Refused? ==> e.attempts >= 1 && e.attempts > e.row.retryCount)
    && (p.Refused? && CanFail(e.row) ==> e.attempts == e.row.retryCount + 1)
  }

  ghost predicate Pace(s: State) {
    && (forall id | id in s.events :: Paced(s.events[id]))
    && (forall w | w in s.publishers ::
        s.publishers[w].id in s.events && PacedBy(s.events[s.publishers[w].id], s.publishers[w]))
  }

  // A worker's step, seen at its event.
  predicate InPace(s: State, w: Worker, id: EventId) {
    && id in s.events && Paced(s.events[id])
    && (w in s.publishers ==> s.publishers[w].id == id && PacedBy(s.events[id], s.publishers[w]))
  }

  lemma ClaimPaced(s: State, s': State, w: Worker, outcome: Outcome)
    requires Claim(s, s', w, outcome) && InPace(s, w, s.publishers[w].id)
    ensures InPace(s', w, s.publishers[w].id)
  {
  }

  lemma PublishPaced(s: State, s': State, w: Worker, ok: bool, enqueued: bool)
    requires Publish(s, s', w, ok, enqueued) && InPace(s, w, s.publishers[w].id)
    requires PublisherOk(s.events, w, s.publishers[w])
    ensures InPace(s', w, s.publishers[w].id)
  {
  }

  lemma MarkPaced(s: State, s': State, w: Worker, outcome: Outcome)
    requires MarkPublished(s, s', w, outcome) && InPace(s, w, s.publishers[w].id)
    ensures InPace(s', w, s.publishers[w].id)
  {
  }

  lemma FailurePaced(s: State, s': State, w: Worker, error: string, nextRetryAt: Time, outcome: Outcome)
    requires RecordFailure(s, s', w, error, nextRetryAt, outcome) && InPace(s, w, s.publishers[w].id)
    requires PublisherOk(s.events, w, s.publishers[w])
    ensures InPace(s', w, s.publishers[w].id)
  {
  }

  lemma OwnerPaced(s: State, s': State, l: Label)
    requires Next(s, s', l) && OwnerStep(l) && InPace(s, l.w, s.publishers[l.w].id)
    requires PublisherOk(s.events, l.w, s.publishers[l.w])
    ensures InPace(s', l.w, s.publishers[l.w].id)
  {
    match l
    case ClaimStep(w, outcome) => ClaimPaced(s, s', w, outcome);
    case PublishStep(w, ok, enqueued) => PublishPaced(s, s', w, ok, enqueued);
    case MarkPublishedStep(w, outcome) => MarkPaced(s, s', w, outcome);
    case RecordFailureStep(w, error, nextRetryAt, outcome) => FailurePaced(s, s', w, error, nextRetryAt, outcome);
  }

  lemma OwnerKeepsPace(s: State, s': State, l: Label)
    requires Inv(s) && Pace(s) && Next(s, s', l) && OwnerStep(l)
    ensures Pace(s')
  {
    var w := l.w;
    assert PublisherOk(s.events, w, s.publishers[w]);
    assert InPace(s, w, s.publishers[w].id);
    OwnerPaced(s, s', l);
    OwnerIsLocal(s, s', l);
    forall v | v in s'.publishers
      ensures s'.publishers[v].id in s'.events && PacedBy(s'.events[s'.publishers[v].id], s'.publishers[v])
    {
      if v != w && s'.publishers[v].Owns() {
        OwnedByOneOnly(s, s', l, v);
        assert PacedBy(s.events[s.publishers[v].id], s.publishers[v]);
      }
    }
  }

  lemma OutsideKeepsPace(s: State, s': State, l: Label)
    requires Inv(s) && Pace(s) && Next(s, s', l) && !OwnerStep(l)
    ensures Pace(s')
  {
    forall id | id in s'.events
      ensures Paced(s'.events[id])
    {
      if id in s.events { ConsumersStamp(s, s', l, id); }
    }
    forall v | v in s'.publishers
      ensures s'.publishers[v].id in s'.events && PacedBy(s'.events[s'.publishers[v].id], s'.publishers[v])
    {
      OthersStay(s, s', l, v);
      if v in s.publishers && s'.publishers[v] == s.publishers[v] {
        ConsumersStamp(s, s', l, s.publishers[v].id);
        assert PacedBy(s.events[s.publishers[v].id], s.publishers[v]);
      }
    }
  }

  lemma PaceAt(r: Run, i: nat)
    requires FromInit(r) && i < |r.labels| && Pace(r.states[i])
    ensures Pace(r.states[i + 1])
  {
    RunInv(r, i);
    assert Next(r.states[i], r.states[i + 1], r.labels[i]);
    if OwnerStep(r.labels[i]) {
      OwnerKeepsPace(r.states[i], r.states[i + 1], r.labels[i]);
    } else {
      OutsideKeepsPace(r.states[i], r.states[i + 1], r.labels[i]);
    }
  }

  lemma {:induction false} RunPace(r: Run, i: nat)
    requires FromInit(r) && i < |r.states|
    ensures Pace(r.states[i])
    decreases i
  {
    if i > 0 {
      RunPace(r, i - 1);
      PaceAt(r, i - 1);
    }
  }

  /******* When the budget breaks *******/

  // What was claimed has no retries left; where none are allowed at all, it has been
  // failed before.
  predicate NoneLeft(snap: OutboxRow) {
    !CanFail(snap) && (snap.event.maxRetries >= 1 || snap.errorDetails.Some?)
  }

  // The worker calls Publish although what it claimed has no retries left.
  predicate Overdraws(s: State, l: Label, id: EventId) {
    && l.PublishStep? && l.w in s.publishers && s.publishers[l.w].Holding? && s.publishers[l.w].id == id
        && id in s.events
    && NoneLeft(s.publishers[l.w].snap)
  }

  // A call of Publish exceeds the budget of its event exactly if the row was
  // claimed with no retries left; where none are allowed at all, the first call is
  // still within it. The worker can tell from what the claim returned.
  lemma BudgetBreaksExactlyWhen(r: Run, i: nat)
    requires FromInit(r) && i < |r.labels| && r.labels[i].PublishStep?
    ensures var s, s', w := r.states[i], r.states[i + 1], r.labels[i].w;
      && Ready(s, w) && s.publishers[w].Holding?
      && var id, snap := s.publishers[w].id, s.publishers[w].snap;
      && id in s'.events
      && (s'.events[id].attempts > AttemptLimit(s'.events[id].row)
          <==> NoneLeft(snap))
  {
    RunInv(r, i);
    RunPace(r, i);
    var s, w := r.states[i], r.labels[i].w;
    assert Next(s, r.states[i + 1], r.labels[i]);
    assert PublisherOk(s.events, w, s.publishers[w]) && EventOk(s.events[s.publishers[w].id]);
    assert Paced(s.events[s.publishers[w].id]) && PacedBy(s.events[s.publishers[w].id], s.publishers[w]);
  }

  predicate Exceeded(events: map<EventId, Event>, id: EventId) {
    id in events && events[id].attempts > AttemptLimit(events[id].row)
  }

  lemma ExceedingStep(r: Run, i: nat, id: EventId)
    requires FromInit(r) && i < |r.labels|
    ensures Exceeded(r.states[i + 1].events, id)
      <==> Exceeded(r.states[i].events, id) || Overdraws(r.states[i], r.labels[i], id)
  {
    var s, s', l := r.states[i], r.states[i + 1], r.labels[i];
    assert Next(s, s', l);
    if l.PublishStep? {
      BudgetBreaksExactlyWhen(r, i);
      OwnAttempt(s, s', l.w, l.ok, l.enqueued, id);
    } else {
      RunInv(r, i);
      OtherStepsDoNotAttempt(s, s', l, id);
    }
  }

  lemma OwnAttempt(s: State, s': State, w: Worker, ok: bool, enqueued: bool, id: EventId)
    requires Publish(s, s', w, ok, enqueued)
    ensures Exceeded(s.events, id) ==> Exceeded(s'.events, id)
    ensures s.publishers[w].id != id ==> (Exceeded(s'.events, id) <==> Exceeded(s.events, id))
    ensures s.publishers[w].id == id && Exceeded(s.events, id) ==> s.events[id].attempts >= 1
  {
  }

  lemma OtherStepsDoNotAttempt(s: State, s': State, l: Label, id: EventId)
    requires Inv(s) && Next(s, s', l) && !l.PublishStep?
    ensures Exceeded(s'.events, id) <==> Exceeded(s.events, id)
  {
    Lifecycle(s, s', l);
    if id in s.events {
      assert EventNext(s.events[id], s'.events[id]);
      NoAttempt(s, s', l, id);
    }
  }

  lemma NoAttempt(s: State, s': State, l: Label, id: EventId)
    requires Next(s, s', l) && !l.PublishStep? && id in s.events
    ensures id in s'.events && s'.events[id].attempts == s.events[id].attempts
      && s'.events[id].row.event == s.events[id].row.event
  {
  }

  ghost predicate Exceeds(r: Run, k: nat, id: EventId)
    requires k < |r.labels| < |r.states|
  {
    Exceeded(r.states[k + 1].events, id) <==>
      Exceeded(r.states[k].events, id) || Overdraws(r.states[k], r.labels[k], id)
  }

  lemma {:induction false} ExceededAlong(r: Run, j: nat, id: EventId)
    requires j <= |r.labels| < |r.states| && !Exceeded(r.states[0].events, id)
    requires forall k | 0 <= k < j :: Exceeds(r, k, id)
    ensures Exceeded(r.states[j].events, id) <==> exists i :: 0 <= i < j && Overdraws(r.states[i], r.labels[i], id)
    decreases j
  {
    if j > 0 {
      ExceededAlong(r, j - 1, id);
      assert Exceeds(r, j - 1, id);
    }
  }

  // Over a whole run: an event has had more attempts than max(1, max_retries)
  // exactly if some worker published it although its CanRetry said no.
  lemma OverBudgetExactlyWhen(r: Run, j: nat, id: EventId)
    requires FromInit(r) && j < |r.states|
    ensures Exceeded(r.states[j].events, id) <==> exists i :: 0 <= i < j && Overdraws(r.states[i], r.labels[i], id)
  {
    forall k | 0 <= k < j ensures Exceeds(r, k, id) {
      ExceedingStep(r, k, id);
    }
    ExceededAlong(r, j, id);
  }

  /******* A run with any number of attempts *******/

  function Picks(from: nat, n: nat, id: EventId): (picks: map<Worker, EventId>)
    requires from <= n
    ensures forall w :: w in picks <==> from <= w < n
    ensures forall w | w in picks :: picks[w] == id
    decreases n - from
  {
    if from == n then map[] else Picks(from + 1, n, id)[from := id]
  }

  // Workers from, ..., n - 1 hold lists that the event was on while it was pending.
  ghost predicate Waiting(s: State, id: EventId, from: nat, n: nat, maxRetries: int) {
    && id in s.events && Claimable(s.events[id].row) && s.events[id].attempts == from
    && s.events[id].row.event.maxRetries == maxRetries
    && (forall w :: w in s.publishers <==> from <= w < n)
    && (forall w | w in s.publishers :: s.publishers[w] == Listed(id))
  }

  lemma AllListed(id: EventId, row: OutboxRow, n: nat) returns (r: Run)
    requires row == NewRow(row.event.payload, row.event.eventType, row.event.maxRetries)
    ensures FromInit(r) && Waiting(Last(r), id, 0, n, row.event.maxRetries)
  {
    var s1 := INIT.(events := map[id := Event(row, 0, 0, 0, None)]);
    var picks := Picks(0, n, id);
    var s2 := s1.(publishers := map w | w in picks :: Listed(picks[w]));
    assert Insert(INIT, s1, id, row);
    assert Fetch(s1, s2, false, picks);
    r := Run([INIT, s1, s2], [InsertStep(id, row), FetchStep(false, picks)]);
  }

  // Worker "from" claims the row, fails to publish it, and records the failure.
  lemma FailingRound(r: Run, id: EventId, from: nat, n: nat, maxRetries: int) returns (r': Run)
    requires FromInit(r) && from < n && Waiting(Last(r), id, from, n, maxRetries)
    ensures FromInit(r') && Waiting(Last(r'), id, from + 1, n, maxRetries)
  {
    var s := Last(r);
    var e := s.events[id];
    var held := ClaimedRow(e.row, s.now);
    var e1 := e.(row := held, owner := Some(from));
    var s1 := s.(events := s.events[id := e1], publishers := s.publishers[from := Holding(id, held)]);
    assert Claim(s, s1, from, Done);
    var r1 := Extend(r, s1, ClaimStep(from, Done));
    var e2 := Attempted(e1, false, false);
    var s2 := s1.(events := s1.events[id := e2], publishers := s1.publishers[from := Refused(id, held)]);
    assert s2.queued == s1.queued + multiset{};
    assert Publish(s1, s2, from, false, false);
    var r2 := Extend(r1, s2, PublishStep(from, false, false));
    var s3 := s2.(events := s2.events[id := e2.(row := FailureRow(held, held, "", s.now))],
        publishers := s2.publishers - {from});
    assert RecordFailure(s2, s3, from, "", s.now, Done);
    r' := Extend(r2, s3, RecordFailureStep(from, "", s.now, Done));
  }

  // Whatever max_retries, no number of attempts is out of reach: enough processes
  // that listed the event while it was pending suffice.
  lemma {:induction false} AnyNumberOfAttempts(id: EventId, row: OutboxRow, k: nat, n: nat) returns (r: Run)
    requires row == NewRow(row.event.payload, row.event.eventType, row.event.maxRetries) && k <= n
    ensures FromInit(r) && Waiting(Last(r), id, k, n, row.event.maxRetries)
    decreases k
  {
    if k == 0 {
      r := AllListed(id, row, n);
    } else {
      var r0 := AnyNumberOfAttempts(id, row, k - 1, n);
      r := FailingRound(r0, id, k - 1, n, row.event.maxRetries);
    }
  }

  lemma BudgetCanBreak(id: EventId, row: OutboxRow) returns (r: Run)
    requires row == NewRow(row.event.payload, row.event.eventType, row.event.maxRetries)
    ensures FromInit(r) && Exceeded(Last(r).events, id)
    ensures Last(r).events[id].row.event.maxRetries == row.event.maxRetries
  {
    var n: nat := AttemptLimit(row) + 1;
    r := AnyNumberOfAttempts(id, row, n, n);
  }
}
