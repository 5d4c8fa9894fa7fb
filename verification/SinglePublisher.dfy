// One publisher process: the processor's tick loop around the outbox protocol.
// A tick runs FindPending and FindRetryable side by side, starts one worker for
// each event listed, and waits for all of them before the next tick.
module SinglePublisher {
  import opened Prelude
  import opened OutboxTable
  import opened OutboxProtocol
  import opened Processor

  // Which of the two lists this tick has fetched. Between ticks both are done.
  datatype Process = Process(g: State, pendingDone: bool, retryableDone: bool)

  const START: Process := Process(INIT, true, true)

  datatype Step =
    | TickStep
    | PendingStep(ids: seq<EventId>, picks: map<Worker, EventId>)
    | RetryableStep(ids: seq<EventId>, picks: map<Worker, EventId>)
    | ListFailedStep(retryable: bool)
    | InnerStep(l: Label)
    | RestartStep

  // One goroutine for each listed event.
  ghost predicate Spawns(ids: seq<EventId>, picks: map<Worker, EventId>) {
    && (forall w | w in picks :: picks[w] in ids)
    && (forall id | id in ids :: id in picks.Values)
    && (forall v, w | v in picks && w in picks && picks[v] == picks[w] :: v == w)
  }

  ghost predicate Next1(s: Process, s': Process, t: Step) {
    match t
    case TickStep => s.pendingDone && s.retryableDone && s.g.publishers == map[] && s' == Process(s.g, false, false)
    case PendingStep(ids, picks) =>
      && !s.pendingDone
      && PendingBatch(Table(s.g), BATCH_SIZE, ids) && Spawns(ids, picks)
      && Fetch(s.g, s'.g, false, picks)
      && s'.pendingDone && s'.retryableDone == s.retryableDone
    case RetryableStep(ids, picks) =>
      && !s.retryableDone
      && RetryableBatch(Table(s.g), s.g.now, BATCH_SIZE, ids) && Spawns(ids, picks)
      && Fetch(s.g, s'.g, true, picks)
      && s'.retryableDone && s'.pendingDone == s.pendingDone
    // A list query fails, or a row of its answer does not decode: nothing is started.
    case ListFailedStep(retryable) =>
      && (if retryable then !s.retryableDone else !s.pendingDone)
      && s' == if retryable then s.(retryableDone := true) else s.(pendingDone := true)
    case InnerStep(l) =>
      && !l.FetchStep? && !l.CrashStep?
      && Next(s.g, s'.g, l)
      && s'.pendingDone == s.pendingDone && s'.retryableDone == s.retryableDone
    // The process dies with every worker in it and is started again.
    case RestartStep =>
      && Crash(s.g, s'.g, s.g.publishers.Keys)
      && s'.pendingDone && s'.retryableDone
  }

  datatype Run1 = Run1(states: seq<Process>, steps: seq<Step>)

  ghost predicate FromStart(r: Run1) {
    && |r.states| == |r.steps| + 1
    && r.states[0] == START
    && forall i | 0 <= i < |r.steps| :: Next1(r.states[i], r.states[i + 1], r.steps[i])
  }

  // A single process is one way of running the protocol.
  function Erase(s: Process, t: Step): Option<Label> {
    match t
    case TickStep => None
    case PendingStep(_, picks) => Some(FetchStep(false, picks))
    case RetryableStep(_, picks) => Some(FetchStep(true, picks))
    case ListFailedStep(_) => None
    case InnerStep(l) => Some(l)
    case RestartStep => Some(CrashStep(s.g.publishers.Keys))
  }

  lemma RefinesProtocol(s: Process, s': Process, t: Step)
    requires Next1(s, s', t)
    ensures match Erase(s, t) case None => s'.g == s.g case Some(l) => Next(s.g, s'.g, l)
  {
  }

  /******* The invariant *******/

  // The retry count allows the attempt that the claim was made for.
  predicate Budget(row: OutboxRow) {
    row.retryCount < row.event.maxRetries || (row.event.maxRetries <= 0 && row.retryCount == 0)
  }

  predicate Account(e: Event) {
    match e.row.status
    case Pending => e.attempts == 0 && e.row.retryCount == 0
    case Failed =>
      && e.attempts <= AttemptLimit(e.row)
      && (e.row.nextRetryAt.Some? ==> e.attempts == e.row.retryCount)
      && (e.row.nextRetryAt.None? ==> e.row.event.maxRetries <= 0)
    case _ => Budget(e.row) && e.attempts <= e.row.retryCount + 1
  }

  // What a worker may rely on about the event it has in hand.
  predicate InHand(s: Process, e: Event, p: Publisher) {
    match p
    case Listed(_) =>
      || (IsPending(e.row) && s.pendingDone)
      || (IsRetryable(e.row, s.g.now) && s.retryableDone)
    case Holding(_, _) => e.attempts == e.row.retryCount
    case Refused(_, _) => e.attempts == e.row.retryCount + 1
    case Sent(_) => true
  }

  ghost predicate Accounts(s: Process) {
    forall id | id in s.g.events :: Account(s.g.events[id])
  }

  ghost predicate Hands(s: Process) {
    forall w | w in s.g.publishers ::
      s.g.publishers[w].id in s.g.events && InHand(s, s.g.events[s.g.publishers[w].id], s.g.publishers[w])
  }

  // No two workers have the same event, whether they own it yet or not.
  ghost predicate Disjoint(s: Process) {
    forall v, w | v in s.g.publishers && w in s.g.publishers :: s.g.publishers[v].id == s.g.publishers[w].id ==> v == w
  }

  ghost predicate Inv1(s: Process) {
    Inv(s.g) && Accounts(s) && Hands(s) && Disjoint(s)
  }

  // A worker's own step, seen at its event. Before and after are told apart by
  // what the worker has in hand.
  predicate Squared(s: Process, w: Worker, id: EventId) {
    && id in s.g.events
    && Account(s.g.events[id])
    && (w in s.g.publishers ==> s.g.publishers[w].id == id && InHand(s, s.g.events[id], s.g.publishers[w]))
  }

  lemma ClaimSquares(s: Process, s': Process, w: Worker, outcome: Outcome)
    requires Claim(s.g, s'.g, w, outcome) && Squared(s, w, s.g.publishers[w].id)
    ensures Squared(s', w, s.g.publishers[w].id)
  {
  }

  lemma PublishSquares(s: Process, s': Process, w: Worker, ok: bool, enqueued: bool)
    requires Publish(s.g, s'.g, w, ok, enqueued) && Squared(s, w, s.g.publishers[w].id)
    requires PublisherOk(s.g.events, w, s.g.publishers[w])
    ensures Squared(s', w, s.g.publishers[w].id)
  {
  }

  lemma MarkSquares(s: Process, s': Process, w: Worker, outcome: Outcome)
    requires MarkPublished(s.g, s'.g, w, outcome) && Squared(s, w, s.g.publishers[w].id)
    requires PublisherOk(s.g.events, w, s.g.publishers[w])
    ensures Squared(s', w, s.g.publishers[w].id)
  {
  }

  lemma FailureSquares(s: Process, s': Process, w: Worker, error: string, nextRetryAt: Time, outcome: Outcome)
    requires RecordFailure(s.g, s'.g, w, error, nextRetryAt, outcome) && Squared(s, w, s.g.publishers[w].id)
    requires PublisherOk(s.g.events, w, s.g.publishers[w])
    ensures Squared(s', w, s.g.publishers[w].id)
  {
  }

  lemma OwnerSquares(s: Process, s': Process, l: Label)
    requires Next(s.g, s'.g, l) && OwnerStep(l) && Squared(s, l.w, s.g.publishers[l.w].id)
    requires PublisherOk(s.g.events, l.w, s.g.publishers[l.w])
    requires s'.pendingDone == s.pendingDone && s'.retryableDone == s.retryableDone
    ensures Squared(s', l.w, s.g.publishers[l.w].id)
  {
    match l
    case ClaimStep(w, outcome) => ClaimSquares(s, s', w, outcome);
    case PublishStep(w, ok, enqueued) => PublishSquares(s, s', w, ok, enqueued);
    case MarkPublishedStep(w, outcome) => MarkSquares(s, s', w, outcome);
    case RecordFailureStep(w, error, nextRetryAt, outcome) => FailureSquares(s, s', w, error, nextRetryAt, outcome);
  }

  lemma LocalKeeps(s: Process, s': Process, w: Worker)
    requires Accounts(s) && Hands(s) && Disjoint(s)
    requires w in s.g.publishers && Local(s.g, s'.g, w) && Squared(s', w, s.g.publishers[w].id)
    requires s'.pendingDone == s.pendingDone && s'.retryableDone == s.retryableDone
    ensures Accounts(s') && Hands(s') && Disjoint(s')
  {
  }

  lemma OwnerStepKeeps(s: Process, s': Process, l: Label)
    requires Inv1(s) && Next1(s, s', InnerStep(l)) && OwnerStep(l)
    ensures Accounts(s') && Hands(s') && Disjoint(s')
  {
    OwnerIsLocal(s.g, s'.g, l);
    var w := l.w;
    assert PublisherOk(s.g.events, w, s.g.publishers[w]);
    assert Squared(s, w, s.g.publishers[w].id);
    OwnerSquares(s, s', l);
    LocalKeeps(s, s', w);
  }

  // All other steps inside the process at most stamp times on existing rows.
  lemma OutsideStep(s: State, s': State, l: Label)
    requires Next(s, s', l) && !OwnerStep(l) && !l.FetchStep? && !l.CrashStep?
    ensures s'.publishers == s.publishers && s.now <= s'.now
    ensures forall id | id in s.events ::
      id in s'.events && (s'.events[id] == s.events[id] || Observed(s.events[id], s'.events[id]))
    ensures forall id | id in s'.events && id !in s.events :: Account(s'.events[id])
  {
  }

  lemma StampKeeps(s: Process, s': Process, e: Event, e': Event)
    requires Account(e) && (e' == e || Observed(e, e')) && s.g.now <= s'.g.now
    requires s'.pendingDone == s.pendingDone && s'.retryableDone == s.retryableDone
    ensures Account(e')
    ensures forall p :: InHand(s, e, p) ==> InHand(s', e', p)
  {
  }

  lemma OutsideStepKeeps(s: Process, s': Process, l: Label)
    requires Inv1(s) && Next1(s, s', InnerStep(l)) && !OwnerStep(l)
    ensures Accounts(s') && Hands(s') && Disjoint(s')
  {
    OutsideStep(s.g, s'.g, l);
    forall id | id in s.g.events
      ensures Account(s'.g.events[id]) && forall p :: InHand(s, s.g.events[id], p) ==> InHand(s', s'.g.events[id], p)
    {
      StampKeeps(s, s', s.g.events[id], s'.g.events[id]);
    }
  }

  // What a list returns no worker has in hand: the events of the other list have
  // another status, and those this process owns are processing.
  lemma FreshlyListed(s: Process, retryable: bool, w: Worker, id: EventId)
    requires Inv1(s) && w in s.g.publishers && id in s.g.events
    requires if retryable then !s.retryableDone && IsRetryable(RowOf(s.g, id), s.g.now)
      else !s.pendingDone && IsPending(RowOf(s.g, id))
    ensures s.g.publishers[w].id != id
  {
    assert PublisherOk(s.g.events, w, s.g.publishers[w]);
  }

  ghost predicate Listing(s: Process, s': Process, retryable: bool, picks: map<Worker, EventId>) {
    && Fetch(s.g, s'.g, retryable, picks)
    && (forall v, w | v in picks && w in picks && picks[v] == picks[w] :: v == w)
    && if retryable then !s.retryableDone && s'.retryableDone && s'.pendingDone == s.pendingDone
       else !s.pendingDone && s'.pendingDone && s'.retryableDone == s.retryableDone
  }

  lemma ListedInHand(s: Process, s': Process, retryable: bool, picks: map<Worker, EventId>)
    requires Inv1(s) && Listing(s, s', retryable, picks)
    ensures Accounts(s') && Hands(s')
  {
  }

  lemma ListedApart(s: Process, s': Process, retryable: bool, picks: map<Worker, EventId>)
    requires Inv1(s) && Listing(s, s', retryable, picks)
    ensures Disjoint(s')
  {
    forall w, v | w in s.g.publishers && v in picks ensures s.g.publishers[w].id != picks[v] {
      FreshlyListed(s, retryable, w, picks[v]);
    }
  }

  lemma ListKeeps(s: Process, s': Process, retryable: bool, picks: map<Worker, EventId>)
    requires Inv1(s) && Listing(s, s', retryable, picks)
    ensures Accounts(s') && Hands(s') && Disjoint(s')
  {
    ListedInHand(s, s', retryable, picks);
    ListedApart(s, s', retryable, picks);
  }

  lemma Inv1Kept(s: Process, s': Process, t: Step)
    requires Inv1(s) && Next1(s, s', t)
    ensures Inv1(s')
  {
    RefinesProtocol(s, s', t);
    if Erase(s, t).Some? {
      InvKept(s.g, s'.g, Erase(s, t).value);
    }
    match t
    case PendingStep(_, picks) => ListKeeps(s, s', false, picks);
    case RetryableStep(_, picks) => ListKeeps(s, s', true, picks);
    case InnerStep(l) =>
      if OwnerStep(l) {
        OwnerStepKeeps(s, s', l);
      } else {
        OutsideStepKeeps(s, s', l);
      }
    case _ =>
  }

  lemma {:induction false} Run1Inv(r: Run1, i: nat)
    requires FromStart(r) && i < |r.states|
    ensures Inv1(r.states[i])
    decreases i
  {
    if i > 0 {
      Run1Inv(r, i - 1);
      assert Next1(r.states[i - 1], r.states[i], r.steps[i - 1]);
      Inv1Kept(r.states[i - 1], r.states[i], r.steps[i - 1]);
    }
  }

  /******* What a single process guarantees *******/

  // Publish is called at most max(1, max_retries) times for an event.
  lemma AttemptsBounded(r: Run1, i: nat, id: EventId)
    requires FromStart(r) && i < |r.states| && id in r.states[i].g.events
    ensures r.states[i].g.events[id].attempts <= AttemptLimit(r.states[i].g.events[id].row)
  {
    Run1Inv(r, i);
    assert Account(r.states[i].g.events[id]);
  }

  // Every claim is of a pending row, or of a failed row with retries left whose
  // next_retry_at has passed; and it never finds the row taken.
  lemma ClaimsAreDue(r: Run1, i: nat)
    requires FromStart(r) && i < |r.steps| && r.steps[i].InnerStep? && r.steps[i].l.ClaimStep?
    ensures var s := r.states[i].g;
      && Ready(s, r.steps[i].l.w)
      && var row := RowOf(s, s.publishers[r.steps[i].l.w].id);
      IsPending(row) || IsRetryable(row, s.now)
  {
    Run1Inv(r, i);
    assert Next1(r.states[i], r.states[i + 1], r.steps[i]);
  }

  // The step is one of the worker that has the event in hand.
  predicate ActsOn(s: State, l: Label, id: EventId) {
    OwnerStep(l) && l.w in s.publishers && s.publishers[l.w].id == id
  }

  // The time has come, or the row waits for it; without a time, it waits for ever.
  predicate Waits(s: State, id: EventId, due: Option<Time>) {
    && id in s.events
    && ((due.Some? && due.value <= s.now) || (RowOf(s, id).status == Failed && RowOf(s, id).nextRetryAt == due))
  }

  lemma WaitsForClaim(s: Process, s': Process, l: Label, id: EventId, due: Option<Time>)
    requires Inv1(s) && Next1(s, s', InnerStep(l)) && l.ClaimStep? && Waits(s.g, id, due)
    ensures ActsOn(s.g, l, id) ==> due.Some? && due.value <= s.g.now
    ensures Waits(s'.g, id, due)
  {
    OwnerIsLocal(s.g, s'.g, l);
    assert InHand(s, s.g.events[s.g.publishers[l.w].id], s.g.publishers[l.w]);
  }

  lemma WaitsForOwner(s: Process, s': Process, l: Label, id: EventId, due: Option<Time>)
    requires Inv1(s) && Next1(s, s', InnerStep(l)) && OwnerStep(l) && !l.ClaimStep? && Waits(s.g, id, due)
    ensures Waits(s'.g, id, due)
  {
    OwnerIsLocal(s.g, s'.g, l);
    OwnedEventNext(s.g, s'.g, l);
  }

  lemma WaitsKept(s: Process, s': Process, step: Step, id: EventId, due: Option<Time>)
    requires Inv1(s) && Next1(s, s', step) && Waits(s.g, id, due)
    ensures Waits(s'.g, id, due)
  {
    if step.InnerStep? {
      if !OwnerStep(step.l) {
        OutsideStep(s.g, s'.g, step.l);
      } else if step.l.ClaimStep? {
        WaitsForClaim(s, s', step.l, id, due);
      } else {
        WaitsForOwner(s, s', step.l, id, due);
      }
    }
  }

  lemma {:induction false} WaitsOn(r: Run1, i: nat, j: nat, id: EventId, due: Option<Time>)
    requires FromStart(r) && i <= j < |r.states| && Waits(r.states[i].g, id, due)
    ensures Waits(r.states[j].g, id, due)
    decreases j
  {
    if i < j {
      WaitsOn(r, i, j - 1, id, due);
      Run1Inv(r, j - 1);
      assert Next1(r.states[j - 1], r.states[j], r.steps[j - 1]);
      WaitsKept(r.states[j - 1], r.states[j], r.steps[j - 1], id, due);
    }
  }

  lemma WaitsAfterFailure(s: Process, s': Process, l: Label, id: EventId)
    requires Inv1(s) && Next1(s, s', InnerStep(l)) && l.RecordFailureStep? && l.outcome.Applied() && ActsOn(s.g, l, id)
    ensures id in s.g.events && var row := RowOf(s.g, id);
      Waits(s'.g, id, if row.retryCount < row.event.maxRetries then Some(l.nextRetryAt) else None)
  {
    assert PublisherOk(s.g.events, l.w, s.g.publishers[l.w]);
  }

  // A failure of the event is recorded at i.
  predicate FailsAt(r: Run1, i: nat, id: EventId) {
    && i < |r.steps| && i < |r.states| && r.steps[i].InnerStep? && ActsOn(r.states[i].g, r.steps[i].l, id)
    && r.steps[i].l.RecordFailureStep? && r.steps[i].l.outcome.Applied()
  }

  predicate ClaimedAt(r: Run1, j: nat, id: EventId) {
    && j < |r.steps| && j < |r.states| && r.steps[j].InnerStep? && ActsOn(r.states[j].g, r.steps[j].l, id)
    && r.steps[j].l.ClaimStep?
  }

  lemma WaitsAt(r: Run1, i: nat, id: EventId)
    requires FromStart(r) && FailsAt(r, i, id)
    ensures id in r.states[i].g.events && var row := RowOf(r.states[i].g, id);
      Waits(r.states[i + 1].g, id,
            if row.retryCount < row.event.maxRetries then Some(r.steps[i].l.nextRetryAt) else None)
  {
    Run1Inv(r, i);
    assert Next1(r.states[i], r.states[i + 1], r.steps[i]);
    WaitsAfterFailure(r.states[i], r.states[i + 1], r.steps[i].l, id);
  }

  lemma DueAt(r: Run1, j: nat, id: EventId, due: Option<Time>)
    requires FromStart(r) && ClaimedAt(r, j, id) && Waits(r.states[j].g, id, due)
    ensures due.Some? && due.value <= r.states[j].g.now
  {
    Run1Inv(r, j);
    assert Next1(r.states[j], r.states[j + 1], r.steps[j]);
    WaitsForClaim(r.states[j], r.states[j + 1], r.steps[j].l, id, due);
  }

  // Once a failure was recorded, no claim of the event is made before the time that
  // was recorded as its next_retry_at, and none at all if there were no retries left.
  lemma ClaimsAwaitBackoff(r: Run1, i: nat, j: nat, id: EventId)
    requires FromStart(r) && i < j && FailsAt(r, i, id) && ClaimedAt(r, j, id)
    ensures r.steps[i].l.nextRetryAt <= r.states[j].g.now
    ensures id in r.states[i].g.events
      && RowOf(r.states[i].g, id).retryCount < RowOf(r.states[i].g, id).event.maxRetries
  {
    WaitsAt(r, i, id);
    var row := RowOf(r.states[i].g, id);
    var due := if row.retryCount < row.event.maxRetries then Some(r.steps[i].l.nextRetryAt) else None;
    WaitsOn(r, i + 1, j, id, due);
    DueAt(r, j, id, due);
  }

  // An event is failed for good on its first attempt if max_retries allows no
  // retry, and otherwise never.
  lemma PermanentFailureOnlyWithoutRetries(r: Run1, i: nat)
    requires FromStart(r) && i < |r.steps| && r.steps[i].InnerStep? && r.steps[i].l.RecordFailureStep?
    ensures var s, w := r.states[i].g, r.steps[i].l.w;
      && Ready(s, w) && s.publishers[w].Refused?
      && var snap := s.publishers[w].snap;
      snap.retryCount >= snap.event.maxRetries <==> snap.event.maxRetries <= 0
  {
    Run1Inv(r, i);
    var s, w := r.states[i].g, r.steps[i].l.w;
    assert Next1(r.states[i], r.states[i + 1], r.steps[i]);
    assert PublisherOk(s.events, w, s.publishers[w]);
    assert Account(s.events[s.publishers[w].id]);
  }
}
