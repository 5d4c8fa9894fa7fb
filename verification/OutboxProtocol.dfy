// The outbox protocol with any number of publisher and subscriber processes.
// Every database statement and every broker call is one atomic step, chosen in
// any order; workers hold stale lists, calls fail with or without effect, and
// processes die at any point.
module OutboxProtocol {
  import opened Prelude
  import opened OutboxTable

  type Worker = nat
  type Subscriber = nat

  // Where a goroutine running PublishEvent has got to.
  datatype Publisher =
    | Listed(id: EventId)                               // event in hand from a list, not yet claimed
    | Holding(id: EventId, snap: OutboxRow)             // claimed; snap is what RETURNING gave
    | Sent(id: EventId)                                 // Publish returned nil
    | Refused(id: EventId, snap: OutboxRow)             // Publish returned an error
  {
    predicate Owns() {
      !Listed?
    }
  }

  // A message carries the analysis ID. That it was sent for the event "origin"
  // is history, which no step reads.
  datatype Message = Message(analysisId: Uuid, origin: EventId)

  // Where a consumer has got to with the message it was delivered.
  datatype Consumer =
    | Got(message: Message)
    | Found(message: Message, id: EventId)              // GetByAggregateID answered
    | Working(message: Message, id: EventId)            // MarkProcessed succeeded
    | Finished(message: Message)                        // about to settle the delivery

  // A row, with what happened to it so far: how often Publish was called for it,
  // how often it returned nil, how often it returned an error after the broker
  // had taken the message, and which worker claimed it last. No step reads these.
  datatype Event = Event(row: OutboxRow, attempts: nat, successes: nat, leaks: nat, owner: Option<Worker>)

  datatype State = State(
    now: Time,
    events: map<EventId, Event>,
    publishers: map<Worker, Publisher>,
    queued: multiset<Message>,
    consumers: map<Subscriber, Consumer>)

  const INIT: State := State(0, map[], map[], multiset{}, map[])

  function RowOf(s: State, id: EventId): OutboxRow
    requires id in s.events
  {
    s.events[id].row
  }

  // The table as the repository sees it.
  function Table(s: State): Rows {
    map id | id in s.events :: s.events[id].row
  }

  // GetByAggregateID: ORDER BY created_at DESC LIMIT 1.
  ghost predicate NewestFor(s: State, aggregateId: Uuid, id: EventId) {
    && id in s.events
    && RowOf(s, id).event.aggregateId == aggregateId
    && forall other | other in s.events && RowOf(s, other).event.aggregateId == aggregateId ::
         RowOf(s, other).event.createdAt <= RowOf(s, id).event.createdAt
  }

  /******* The steps *******/

  // The publisher's event is in the table, as a row it was listed from always is.
  predicate Ready(s: State, w: Worker) {
    w in s.publishers && s.publishers[w].id in s.events
  }

  predicate Busy(s: State, c: Subscriber) {
    c in s.consumers && (s.consumers[c].Found? || s.consumers[c].Working?) && s.consumers[c].id in s.events
  }

  predicate OnlyPublishers(s: State, s': State) {
    s'.now == s.now && s'.queued == s.queued && s'.consumers == s.consumers
  }

  predicate OnlyConsumers(s: State, s': State) {
    s'.now == s.now && s'.publishers == s.publishers
  }

  // An UPDATE of one row. An outcome of Rejected leaves the table as it was.
  predicate Writes(s: State, s': State, id: EventId, row: OutboxRow, outcome: Outcome)
    requires id in s.events
  {
    s'.events == if outcome.Applied() then s.events[id := s.events[id].(row := row)] else s.events
  }

  predicate Insert(s: State, s': State, id: EventId, row: OutboxRow) {
    && id !in s.events
    && row == NewRow(row.event.payload, row.event.eventType, row.event.maxRetries)
    && (forall other | other in s.events :: RowOf(s, other).event.aggregateId != row.event.aggregateId)
    && OnlyPublishers(s, s') && s'.publishers == s.publishers
    && s'.events == s.events[id := Event(row, 0, 0, 0, None)]
  }

  predicate Fetch(s: State, s': State, retryable: bool, picks: map<Worker, EventId>) {
    && picks.Keys !! s.publishers.Keys
    && (forall w | w in picks :: picks[w] in s.events &&
          if retryable then IsRetryable(RowOf(s, picks[w]), s.now) else IsPending(RowOf(s, picks[w])))
    && OnlyPublishers(s, s') && s'.events == s.events
    && s'.publishers == s.publishers + map w | w in picks :: Listed(picks[w])
  }

  predicate Claim(s: State, s': State, w: Worker, outcome: Outcome) {
    && Ready(s, w) && s.publishers[w].Listed?
    && OnlyPublishers(s, s')
    && var id := s.publishers[w].id;
    if !Claimable(RowOf(s, id)) || outcome.Rejected? then
      s'.events == s.events && s'.publishers == s.publishers - {w}
    else
      var row := ClaimedRow(RowOf(s, id), s.now);
      && s'.events == s.events[id := s.events[id].(row := row, owner := Some(w))]
      && s'.publishers == if outcome.Done? then s.publishers[w := Holding(id, row)] else s.publishers - {w}
  }

  function Attempted(e: Event, ok: bool, enqueued: bool): Event {
    e.(attempts := e.attempts + 1,
       successes := e.successes + if ok then 1 else 0,
       leaks := e.leaks + if enqueued && !ok then 1 else 0)
  }

  predicate Publish(s: State, s': State, w: Worker, ok: bool, enqueued: bool) {
    && Ready(s, w) && s.publishers[w].Holding?
    && s'.now == s.now && s'.consumers == s.consumers
    && var Holding(id, snap) := s.publishers[w];
    && s'.events == s.events[id := Attempted(s.events[id], ok, enqueued)]
    && s'.publishers == s.publishers[w := if ok then Sent(id) else Refused(id, snap)]
    && s'.queued == s.queued + if enqueued then multiset{Message(snap.event.payload.analysisId, id)} else multiset{}
  }

  predicate MarkPublished(s: State, s': State, w: Worker, outcome: Outcome) {
    && Ready(s, w) && s.publishers[w].Sent?
    && OnlyPublishers(s, s') && s'.publishers == s.publishers - {w}
    && var id := s.publishers[w].id;
    Writes(s, s', id, PublishedRow(RowOf(s, id), s.now), outcome)
  }

  // handlePublishFailure decides on the claimed snapshot, not on the row.
  function FailureRow(row: OutboxRow, snap: OutboxRow, error: string, nextRetryAt: Time): OutboxRow {
    if snap.retryCount >= snap.event.maxRetries then PermanentlyFailedRow(row, error)
        else FailedRow(row, error, nextRetryAt)
  }

  predicate RecordFailure(s: State, s': State, w: Worker, error: string, nextRetryAt: Time, outcome: Outcome) {
    && Ready(s, w) && s.publishers[w].Refused?
    && OnlyPublishers(s, s') && s'.publishers == s.publishers - {w}
    && var Refused(id, snap) := s.publishers[w];
    Writes(s, s', id, FailureRow(RowOf(s, id), snap, error, nextRetryAt), outcome)
  }

  predicate Crash(s: State, s': State, dead: set<Worker>) {
    && OnlyPublishers(s, s') && s'.events == s.events
    && s'.publishers == s.publishers - dead
  }

  predicate Deliver(s: State, s': State, c: Subscriber, message: Message) {
    && c !in s.consumers && message in s.queued
    && OnlyConsumers(s, s') && s'.events == s.events
    && s'.queued == s.queued - multiset{message}
    && s'.consumers == s.consumers[c := Got(message)]
  }

  ghost predicate Lookup(s: State, s': State, c: Subscriber, answer: Option<EventId>) {
    && c in s.consumers && s.consumers[c].Got?
    && OnlyConsumers(s, s') && s'.events == s.events && s'.queued == s.queued
    && var m := s.consumers[c].message;
    && (answer.Some? ==> NewestFor(s, m.analysisId, answer.value))
    && s'.consumers == s.consumers[c := if answer.Some? then Found(m, answer.value) else Finished(m)]
  }

  predicate MarkProcessed(s: State, s': State, c: Subscriber, outcome: Outcome) {
    && Busy(s, c) && s.consumers[c].Found?
    && OnlyConsumers(s, s') && s'.queued == s.queued
    && var Found(m, id) := s.consumers[c];
    && Writes(s, s', id, ProcessedRow(RowOf(s, id), s.now), outcome)
    && s'.consumers == s.consumers[c := if outcome.Done? then Working(m, id) else Finished(m)]
  }

  predicate MarkCompleted(s: State, s': State, c: Subscriber, outcome: Outcome) {
    && Busy(s, c) && s.consumers[c].Working?
    && OnlyConsumers(s, s') && s'.queued == s.queued
    && var Working(m, id) := s.consumers[c];
    && Writes(s, s', id, CompletedRow(RowOf(s, id), s.now), outcome)
    && s'.consumers == s.consumers[c := Finished(m)]
  }

  // The channel closes under a consumer that goes on working: the broker queues its
  // unsettled message again, and anybody may get it. That this can happen to one
  // delivery more than once here only adds runs.
  predicate Requeue(s: State, s': State, c: Subscriber) {
    && c in s.consumers
    && OnlyConsumers(s, s') && s'.events == s.events && s'.consumers == s.consumers
    && s'.queued == s.queued + multiset{s.consumers[c].message}
  }

  // Ack, nack or reject, and the broker forgets the message; or the consumer
  // died or its settlement was lost, and the broker queues the message again.
  predicate Settle(s: State, s': State, c: Subscriber, lost: bool) {
    && c in s.consumers
    && OnlyConsumers(s, s') && s'.events == s.events
    && s'.consumers == s.consumers - {c}
    && s'.queued == s.queued + if lost then multiset{s.consumers[c].message} else multiset{}
  }

  datatype Label =
    | InsertStep(id: EventId, row: OutboxRow)
    | ClockStep
    | FetchStep(retryable: bool, picks: map<Worker, EventId>)
    | ClaimStep(w: Worker, outcome: Outcome)
    | PublishStep(w: Worker, ok: bool, enqueued: bool)
    | MarkPublishedStep(w: Worker, outcome: Outcome)
    | RecordFailureStep(w: Worker, error: string, nextRetryAt: Time, outcome: Outcome)
    | CrashStep(dead: set<Worker>)
    | DeliverStep(c: Subscriber, message: Message)
    | LookupStep(c: Subscriber, answer: Option<EventId>)
    | MarkProcessedStep(c: Subscriber, outcome: Outcome)
    | MarkCompletedStep(c: Subscriber, outcome: Outcome)
    | RequeueStep(c: Subscriber)
    | SettleStep(c: Subscriber, lost: bool)

  ghost predicate Next(s: State, s': State, l: Label) {
    match l
    case InsertStep(id, row) => Insert(s, s', id, row)
    case ClockStep => s.now <= s'.now && s' == s.(now := s'.now)
    case FetchStep(retryable, picks) => Fetch(s, s', retryable, picks)
    case ClaimStep(w, outcome) => Claim(s, s', w, outcome)
    case PublishStep(w, ok, enqueued) => Publish(s, s', w, ok, enqueued)
    case MarkPublishedStep(w, outcome) => MarkPublished(s, s', w, outcome)
    case RecordFailureStep(w, error, nextRetryAt, outcome) => RecordFailure(s, s', w, error, nextRetryAt, outcome)
    case CrashStep(dead) => Crash(s, s', dead)
    case DeliverStep(c, message) => Deliver(s, s', c, message)
    case LookupStep(c, answer) => Lookup(s, s', c, answer)
    case MarkProcessedStep(c, outcome) => MarkProcessed(s, s', c, outcome)
    case MarkCompletedStep(c, outcome) => MarkCompleted(s, s', c, outcome)
    case RequeueStep(c) => Requeue(s, s', c)
    case SettleStep(c, lost) => Settle(s, s', c, lost)
  }

  /******* Runs *******/

  // A finite run: the states passed through, and the step taken from each but the last.
  datatype Run = Run(states: seq<State>, labels: seq<Label>)

  ghost predicate IsRun(r: Run) {
    && |r.states| == |r.labels| + 1
    && forall i | 0 <= i < |r.labels| :: Next(r.states[i], r.states[i + 1], r.labels[i])
  }

  ghost predicate FromInit(r: Run) {
    IsRun(r) && r.states[0] == INIT
  }

  function Last(r: Run): State
    requires |r.states| > 0
  {
    r.states[|r.states| - 1]
  }

  lemma Extend(r: Run, s: State, l: Label) returns (r': Run)
    requires IsRun(r) && Next(Last(r), s, l)
    ensures IsRun(r') && |r'.labels| == |r.labels| + 1 && r'.states[0] == r.states[0] && Last(r') == s
  {
    r' := Run(r.states + [s], r.labels + [l]);
    forall i | 0 <= i < |r'.labels| ensures Next(r'.states[i], r'.states[i + 1], r'.labels[i]) {
      if i < |r.labels| {
        assert Next(r.states[i], r.states[i + 1], r.labels[i]);
      }
    }
  }

  /******* The invariant *******/

  function RetryLimit(row: OutboxRow): int {
    if row.event.maxRetries < 0 then 0 else row.event.maxRetries
  }

  // How often Publish should be called at most.
  function AttemptLimit(row: OutboxRow): int {
    if row.event.maxRetries < 1 then 1 else row.event.maxRetries
  }

  predicate EventOk(e: Event) {
    && 0 <= e.row.retryCount <= RetryLimit(e.row)
    && e.row.event.payload.analysisId == e.row.event.aggregateId
    && e.successes <= 1
    && (e.successes == 1 ==> e.row.status == Processing || e.row.status == Published)
    && (e.row.status == Published ==> e.successes == 1)
    && (e.row.times.publishedAt.Some? <==> e.row.status == Published)
    && (e.row.status != Pending ==> e.row.times.startedAt.Some?)
  }

  // A snapshot agrees with the row on everything a publisher reads from it.
  predicate Agrees(snap: OutboxRow, row: OutboxRow) {
    && snap.status == row.status
    && snap.retryCount == row.retryCount
    && snap.event == row.event
    && snap.nextRetryAt == row.nextRetryAt
    && snap.errorDetails == row.errorDetails
    && snap.times.startedAt == row.times.startedAt
  }

  predicate PublisherOk(events: map<EventId, Event>, w: Worker, p: Publisher) {
    && p.id in events
    && var e := events[p.id];
    && (p.Owns() ==> e.owner == Some(w) && e.row.status == Processing && (p.Sent? <==> e.successes == 1))
    && (p.Holding? || p.Refused? ==> Agrees(p.snap, e.row))
  }

  predicate MessageOk(events: map<EventId, Event>, m: Message) {
    && m.origin in events
    && var e := events[m.origin];
    && e.row.event.aggregateId == m.analysisId
    && (e.successes == 1 || e.leaks > 0)
  }

  predicate ConsumerOk(events: map<EventId, Event>, k: Consumer) {
    && MessageOk(events, k.message)
    && (k.Found? || k.Working? ==> k.id == k.message.origin)
    && (k.Working? ==> events[k.id].row.times.processedAt.Some?)
  }

  ghost predicate GoodEvents(events: map<EventId, Event>) {
    forall id | id in events :: EventOk(events[id])
  }

  ghost predicate GoodPublishers(events: map<EventId, Event>, publishers: map<Worker, Publisher>) {
    forall w | w in publishers :: PublisherOk(events, w, publishers[w])
  }

  ghost predicate GoodMessages(events: map<EventId, Event>, queued: multiset<Message>) {
    forall m | m in queued :: MessageOk(events, m)
  }

  ghost predicate GoodConsumers(events: map<EventId, Event>, consumers: map<Subscriber, Consumer>) {
    forall c | c in consumers :: ConsumerOk(events, consumers[c])
  }

  // No two events of one aggregate.
  ghost predicate Distinct(events: map<EventId, Event>) {
    forall i, j | i in events && j in events && events[i].row.event.aggregateId == events[j].row.event.aggregateId ::
        i == j
  }

  ghost predicate Inv(s: State) {
    && GoodEvents(s.events)
    && GoodPublishers(s.events, s.publishers)
    && GoodMessages(s.events, s.queued)
    && GoodConsumers(s.events, s.consumers)
    && Distinct(s.events)
  }

  /******* The life of one event *******/

  // What a single step may do to one event, whoever takes it.

  predicate SameHistory(e: Event, e': Event) {
    e'.attempts == e.attempts && e'.successes == e.successes && e'.leaks == e.leaks
  }

  predicate Reclaimed(e: Event, e': Event) {
    && Claimable(e.row)
    && SameHistory(e, e')
    && e'.row == ClaimedRow(e.row, 0).(times := e'.row.times)
    && e'.row.times == e.row.times.(startedAt := e'.row.times.startedAt)
    && e'.row.times.startedAt.Some?
  }

  predicate Tried(e: Event, e': Event) {
    && e.row.status == Processing
    && e.successes == 0
    && e'.row == e.row && e'.owner == e.owner
    && e'.attempts == e.attempts + 1
    && e.successes <= e'.successes <= 1
    && e.leaks <= e'.leaks
  }

  predicate Confirmed(e: Event, e': Event) {
    && e.row.status == Processing
    && e.successes == 1
    && SameHistory(e, e') && e'.owner == e.owner
    && e'.row == e.row.(status := Published, times := e'.row.times)
    && e'.row.times == e.row.times.(publishedAt := e'.row.times.publishedAt)
    && e'.row.times.publishedAt.Some?
  }

  predicate GaveUp(e: Event, e': Event) {
    && e.row.status == Processing
    && e.successes == 0
    && SameHistory(e, e') && e'.owner == e.owner
    && e'.row == e.row.(status := Failed, retryCount := e'.row.retryCount, errorDetails := e'.row.errorDetails,
        nextRetryAt := e'.row.nextRetryAt)
    && if e.row.retryCount >= e.row.event.maxRetries
       then e'.row.retryCount == e.row.retryCount && e'.row.nextRetryAt == None
       else e'.row.retryCount == e.row.retryCount + 1 && e'.row.nextRetryAt.Some?
  }

  predicate Observed(e: Event, e': Event) {
    && SameHistory(e, e') && e'.owner == e.owner
    && e'.row == e.row.(times := e'.row.times)
    && e'.row.times.startedAt == e.row.times.startedAt
    && e'.row.times.publishedAt == e.row.times.publishedAt
    && (e.row.times.processedAt.Some? ==> e'.row.times.processedAt.Some?)
  }

  predicate EventNext(e: Event, e': Event) {
    || e' == e
    || Reclaimed(e, e')
    || Tried(e, e')
    || Confirmed(e, e')
    || GaveUp(e, e')
    || Observed(e, e')
  }

  ghost predicate EventsNext(events: map<EventId, Event>, events': map<EventId, Event>) {
    forall id | id in events :: id in events' && EventNext(events[id], events'[id])
  }

  lemma OwnerLifecycle(s: State, s': State, l: Label)
    requires GoodPublishers(s.events, s.publishers) && GoodEvents(s.events)
    requires Next(s, s', l) && (l.PublishStep? || l.MarkPublishedStep? || l.RecordFailureStep?)
    ensures EventsNext(s.events, s'.events) && s'.events.Keys == s.events.Keys
  {
    OwnedEventNext(s, s', l);
  }

  // One owned event moves on, the others stay.
  ghost predicate OwnedMoves(s: State, s': State, w: Worker) {
    && w in s.publishers && s.publishers[w].id in s.events && s'.events.Keys == s.events.Keys
    && var id := s.publishers[w].id;
    && s.events[id].row.status == Processing && EventNext(s.events[id], s'.events[id])
    && forall other | other in s.events && other != id :: s'.events[other] == s.events[other]
  }

  lemma PublishMoves(s: State, s': State, w: Worker, ok: bool, enqueued: bool)
    requires Publish(s, s', w, ok, enqueued) && PublisherOk(s.events, w, s.publishers[w])
      && EventOk(s.events[s.publishers[w].id])
    ensures OwnedMoves(s, s', w)
  {
  }

  lemma MarkMoves(s: State, s': State, w: Worker, outcome: Outcome)
    requires MarkPublished(s, s', w, outcome) && PublisherOk(s.events, w, s.publishers[w])
      && EventOk(s.events[s.publishers[w].id])
    ensures OwnedMoves(s, s', w)
  {
  }

  lemma FailureMoves(s: State, s': State, w: Worker, error: string, nextRetryAt: Time, outcome: Outcome)
    requires RecordFailure(s, s', w, error, nextRetryAt, outcome)
    requires PublisherOk(s.events, w, s.publishers[w]) && EventOk(s.events[s.publishers[w].id])
    ensures OwnedMoves(s, s', w)
  {
  }

  lemma OwnedEventNext(s: State, s': State, l: Label)
    requires GoodPublishers(s.events, s.publishers) && GoodEvents(s.events)
    requires Next(s, s', l) && (l.PublishStep? || l.MarkPublishedStep? || l.RecordFailureStep?)
    ensures OwnedMoves(s, s', l.w)
  {
    assert PublisherOk(s.events, l.w, s.publishers[l.w]) && EventOk(s.events[s.publishers[l.w].id]);
    match l
    case PublishStep(w, ok, enqueued) => PublishMoves(s, s', w, ok, enqueued);
    case MarkPublishedStep(w, outcome) => MarkMoves(s, s', w, outcome);
    case RecordFailureStep(w, error, nextRetryAt, outcome) => FailureMoves(s, s', w, error, nextRetryAt, outcome);
  }

  // Every step of the whole system takes every event along its life, and only
  // SaveInTx adds one.
  lemma Lifecycle(s: State, s': State, l: Label)
    requires GoodPublishers(s.events, s.publishers) && GoodEvents(s.events) && Next(s, s', l)
    ensures EventsNext(s.events, s'.events)
    ensures !l.InsertStep? ==> s'.events.Keys == s.events.Keys
  {
    if l.PublishStep? || l.MarkPublishedStep? || l.RecordFailureStep? {
      OwnerLifecycle(s, s', l);
    }
  }

  /******* Every step keeps the invariant *******/

  lemma EventKept(e: Event, e': Event)
    requires EventOk(e) && EventNext(e, e')
    ensures EventOk(e')
  {
  }

  lemma EventsKept(s: State, s': State, l: Label)
    requires GoodEvents(s.events) && EventsNext(s.events, s'.events) && Next(s, s', l)
    requires !l.InsertStep? ==> s'.events.Keys == s.events.Keys
    ensures GoodEvents(s'.events)
  {
    forall id | id in s.events ensures EventOk(s'.events[id]) {
      EventKept(s.events[id], s'.events[id]);
    }
  }

  lemma MessageStays(events: map<EventId, Event>, events': map<EventId, Event>, m: Message)
    requires MessageOk(events, m) && EventsNext(events, events') && GoodEvents(events)
    ensures MessageOk(events', m)
  {
    assert EventOk(events[m.origin]) && EventNext(events[m.origin], events'[m.origin]);
  }

  predicate OwnerStep(l: Label) {
    l.ClaimStep? || l.PublishStep? || l.MarkPublishedStep? || l.RecordFailureStep?
  }

  // A worker's step leaves every other event and every other worker alone.
  ghost predicate Local(s: State, s': State, w: Worker)
    requires w in s.publishers
  {
    && s'.now == s.now && s'.events.Keys == s.events.Keys
    && (forall id | id in s.events && id != s.publishers[w].id :: s'.events[id] == s.events[id])
    && (forall v | v in s'.publishers :: v in s.publishers && s'.publishers[v].id == s.publishers[v].id)
    && (forall v | v in s'.publishers && v != w :: s'.publishers[v] == s.publishers[v])
  }

  lemma OwnerIsLocal(s: State, s': State, l: Label)
    requires Next(s, s', l) && OwnerStep(l)
    ensures Local(s, s', l.w)
  {
  }

  lemma OwnedByOneOnly(s: State, s': State, l: Label, w: Worker)
    requires GoodPublishers(s.events, s.publishers) && Next(s, s', l) && OwnerStep(l) && l.w != w
    requires w in s.publishers && s.publishers[w].Owns()
    ensures var id := s.publishers[w].id; id in s'.events && id in s.events && s'.events[id] == s.events[id]
  {
    assert PublisherOk(s.events, w, s.publishers[w]);
    assert PublisherOk(s.events, l.w, s.publishers[l.w]);
  }

  lemma ConsumersStamp(s: State, s': State, l: Label, id: EventId)
    requires Next(s, s', l) && !OwnerStep(l) && id in s.events
    ensures id in s'.events && (s'.events[id] == s.events[id] || Observed(s.events[id], s'.events[id]))
  {
  }

  // No other publisher can touch a row that w owns; a consumer may only stamp it.
  lemma OwnedUndisturbed(s: State, s': State, l: Label, w: Worker)
    requires GoodPublishers(s.events, s.publishers) && Next(s, s', l)
    requires w in s.publishers && s.publishers[w].Owns() && (OwnerStep(l) ==> l.w != w)
    ensures var id := s.publishers[w].id;
      id in s'.events && id in s.events && (s'.events[id] == s.events[id] || Observed(s.events[id], s'.events[id]))
  {
    assert PublisherOk(s.events, w, s.publishers[w]);
    if OwnerStep(l) { OwnedByOneOnly(s, s', l, w); } else { ConsumersStamp(s, s', l, s.publishers[w].id); }
  }

  lemma BystanderKept(s: State, s': State, l: Label, w: Worker)
    requires GoodPublishers(s.events, s.publishers) && Next(s, s', l)
    requires EventsNext(s.events, s'.events)
    requires w in s.publishers && (OwnerStep(l) ==> l.w != w)
    ensures PublisherOk(s'.events, w, s.publishers[w])
  {
    assert PublisherOk(s.events, w, s.publishers[w]);
    if s.publishers[w].Owns() {
      OwnedUndisturbed(s, s', l, w);
    }
  }

  // The publisher that takes the step ends where its next step can find it.
  lemma ActorKept(s: State, s': State, l: Label)
    requires GoodPublishers(s.events, s.publishers) && GoodEvents(s.events) && Next(s, s', l) && OwnerStep(l)
    ensures l.w in s'.publishers ==> PublisherOk(s'.events, l.w, s'.publishers[l.w])
  {
    assert PublisherOk(s.events, l.w, s.publishers[l.w]);
    assert EventOk(s.events[s.publishers[l.w].id]);
  }

  lemma OthersStay(s: State, s': State, l: Label, w: Worker)
    requires Next(s, s', l) && w in s'.publishers && (OwnerStep(l) ==> l.w != w)
    ensures (w in s.publishers && s'.publishers[w] == s.publishers[w])
      || (s'.publishers[w].Listed? && s'.publishers[w].id in s'.events)
  {
  }

  lemma PublishersKept(s: State, s': State, l: Label)
    requires GoodPublishers(s.events, s.publishers) && GoodEvents(s.events) && Next(s, s', l)
    requires EventsNext(s.events, s'.events)
    ensures GoodPublishers(s'.events, s'.publishers)
  {
    if OwnerStep(l) {
      ActorKept(s, s', l);
    }
    forall w | w in s'.publishers && (OwnerStep(l) ==> l.w != w) ensures PublisherOk(s'.events, w, s'.publishers[w]) {
      OthersStay(s, s', l, w);
      if w in s.publishers && s'.publishers[w] == s.publishers[w] {
        BystanderKept(s, s', l, w);
      }
    }
  }

  lemma PublishedMessage(s: State, s': State, l: Label)
    requires GoodPublishers(s.events, s.publishers) && GoodEvents(s.events)
    requires Next(s, s', l) && l.PublishStep? && l.enqueued
    ensures MessageOk(s'.events, Message(s.publishers[l.w].snap.event.payload.analysisId, s.publishers[l.w].id))
  {
    assert PublisherOk(s.events, l.w, s.publishers[l.w]);
    assert EventOk(s.events[s.publishers[l.w].id]);
  }

  // A message waits in the broker or is in a consumer's hands.
  ghost predicate Live(s: State, m: Message) {
    m in s.queued || exists c :: c in s.consumers && s.consumers[c].message == m
  }

  lemma LiveMessageOk(s: State, m: Message)
    requires GoodMessages(s.events, s.queued) && GoodConsumers(s.events, s.consumers) && Live(s, m)
    ensures MessageOk(s.events, m)
  {
    if m !in s.queued {
      var c :| c in s.consumers && s.consumers[c].message == m;
      assert ConsumerOk(s.events, s.consumers[c]);
    }
  }

  // Messages come from Publish and nowhere else.
  lemma MessageOrigin(s: State, s': State, l: Label, m: Message)
    requires Next(s, s', l) && Live(s', m)
    ensures Live(s, m) || (l.PublishStep? && l.enqueued
      && m == Message(s.publishers[l.w].snap.event.payload.analysisId, s.publishers[l.w].id))
  {
    if m !in s'.queued {
      var c :| c in s'.consumers && s'.consumers[c].message == m;
      assert c in s.consumers ==> s.consumers[c].message == m;
    }
  }

  lemma LiveMessagesKept(s: State, s': State, l: Label, m: Message)
    requires Inv(s) && Next(s, s', l) && EventsNext(s.events, s'.events) && Live(s', m)
    ensures MessageOk(s'.events, m)
  {
    MessageOrigin(s, s', l, m);
    if Live(s, m) {
      LiveMessageOk(s, m);
      MessageStays(s.events, s'.events, m);
    } else {
      PublishedMessage(s, s', l);
    }
  }

  // GetByAggregateID finds the event the message was sent for.
  lemma LookupFindsOrigin(s: State, s': State, l: Label)
    requires Inv(s) && Next(s, s', l) && l.LookupStep? && l.answer.Some?
    ensures l.answer.value == s.consumers[l.c].message.origin
  {
    assert ConsumerOk(s.events, s.consumers[l.c]);
  }

  lemma ConsumerStays(events: map<EventId, Event>, events': map<EventId, Event>, k: Consumer)
    requires ConsumerOk(events, k) && EventsNext(events, events') && GoodEvents(events)
    ensures ConsumerOk(events', k)
  {
    MessageStays(events, events', k.message);
    if k.Working? {
      assert EventNext(events[k.id], events'[k.id]);
    }
  }

  predicate ConsumerStep(l: Label) {
    l.LookupStep? || l.MarkProcessedStep? || l.MarkCompletedStep?
  }

  lemma ProcessorKept(s: State, s': State, c: Subscriber, outcome: Outcome)
    requires Inv(s) && MarkProcessed(s, s', c, outcome) && EventsNext(s.events, s'.events)
    ensures c in s'.consumers && ConsumerOk(s'.events, s'.consumers[c])
  {
    assert ConsumerOk(s.events, s.consumers[c]);
    MessageStays(s.events, s'.events, s.consumers[c].message);
  }

  lemma CompleterKept(s: State, s': State, c: Subscriber, outcome: Outcome)
    requires Inv(s) && MarkCompleted(s, s', c, outcome) && EventsNext(s.events, s'.events)
    ensures c in s'.consumers && ConsumerOk(s'.events, s'.consumers[c])
  {
    assert ConsumerOk(s.events, s.consumers[c]);
    MessageStays(s.events, s'.events, s.consumers[c].message);
  }

  lemma MoverKept(s: State, s': State, l: Label)
    requires Inv(s) && Next(s, s', l) && EventsNext(s.events, s'.events)
      && (l.MarkProcessedStep? || l.MarkCompletedStep?)
    ensures l.c in s'.consumers && ConsumerOk(s'.events, s'.consumers[l.c])
  {
    if l.MarkProcessedStep? {
      ProcessorKept(s, s', l.c, l.outcome);
    } else {
      CompleterKept(s, s', l.c, l.outcome);
    }
  }

  lemma LookerKept(s: State, s': State, l: Label, c: Subscriber)
    requires Inv(s) && Next(s, s', l) && l.LookupStep?
    requires c == l.c && c in s'.consumers
    ensures ConsumerOk(s'.events, s'.consumers[c])
  {
    assert ConsumerOk(s.events, s.consumers[c]);
    if l.answer.Some? {
      LookupFindsOrigin(s, s', l);
    }
  }

  lemma ConsumersMove(s: State, s': State, l: Label, c: Subscriber)
    requires Next(s, s', l) && c in s'.consumers && !(ConsumerStep(l) && l.c == c)
    ensures s'.consumers[c].Got? || (c in s.consumers && s'.consumers[c] == s.consumers[c])
  {
  }

  lemma OtherConsumerKept(s: State, s': State, l: Label, c: Subscriber)
    requires Inv(s) && Next(s, s', l) && EventsNext(s.events, s'.events) && c in s'.consumers
    requires !(ConsumerStep(l) && l.c == c)
    ensures ConsumerOk(s'.events, s'.consumers[c])
  {
    ConsumersMove(s, s', l, c);
    if s'.consumers[c].Got? {
      LiveMessagesKept(s, s', l, s'.consumers[c].message);
    } else {
      ConsumerStays(s.events, s'.events, s.consumers[c]);
    }
  }

  lemma ConsumerKept(s: State, s': State, l: Label, c: Subscriber)
    requires Inv(s) && Next(s, s', l) && EventsNext(s.events, s'.events) && c in s'.consumers
    ensures ConsumerOk(s'.events, s'.consumers[c])
  {
    if !ConsumerStep(l) || l.c != c {
      OtherConsumerKept(s, s', l, c);
    } else if l.LookupStep? {
      LookerKept(s, s', l, c);
    } else {
      MoverKept(s, s', l);
    }
  }

  lemma DistinctStays(events: map<EventId, Event>, events': map<EventId, Event>)
    requires Distinct(events) && EventsNext(events, events') && events'.Keys == events.Keys
    ensures Distinct(events')
  {
    forall id | id in events ensures events'[id].row.event == events[id].row.event {
      assert EventNext(events[id], events'[id]);
    }
  }

  lemma DistinctInsert(s: State, s': State, id: EventId, row: OutboxRow)
    requires Distinct(s.events) && Insert(s, s', id, row)
    ensures Distinct(s'.events)
  {
    assert forall other | other in s.events :: RowOf(s, other) == s'.events[other].row;
  }

  lemma InvKept(s: State, s': State, l: Label)
    requires Inv(s) && Next(s, s', l)
    ensures Inv(s')
  {
    Lifecycle(s, s', l);
    EventsKept(s, s', l);
    PublishersKept(s, s', l);
    forall m | m in s'.queued ensures MessageOk(s'.events, m) {
      LiveMessagesKept(s, s', l, m);
    }
    forall c | c in s'.consumers ensures ConsumerOk(s'.events, s'.consumers[c]) {
      ConsumerKept(s, s', l, c);
    }
    if l.InsertStep? {
      DistinctInsert(s, s', l.id, l.row);
    } else {
      DistinctStays(s.events, s'.events);
    }
  }
}
