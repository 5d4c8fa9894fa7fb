// Workers that have different events in hand do not get in each other's way: how
// their steps are interleaved, with each other and with whatever else happens, makes
// no difference to what becomes of the events.
module Interleaving {
  import opened Prelude
  import opened OutboxTable
  import opened OutboxProtocol
  import P = Processor
  import S = PublisherService

  // A worker's event and its own place in PublishEvent; None when it is done.
  datatype Part = Part(event: Event, place: Option<Publisher>)

  function PlaceOf(s: State, w: Worker): Option<Publisher> {
    if w in s.publishers then Some(s.publishers[w]) else None
  }

  function PartOf(s: State, w: Worker, id: EventId): Part
    requires id in s.events
  {
    Part(s.events[id], PlaceOf(s, w))
  }

  // A step of the worker on its part.
  function Moved(x: Part, w: Worker, now: Time, l: Label): Part {
    if x.place.None? then x
    else
      var e, id := x.event, x.place.value.id;
      match l
      case ClaimStep(_, outcome) =>
        if !Claimable(e.row) || outcome.Rejected? then Part(e, None)
        else
          var row := ClaimedRow(e.row, now);
          Part(e.(row := row, owner := Some(w)), if outcome.Done? then Some(Holding(id, row)) else None)
      case PublishStep(_, ok, enqueued) =>
        if !x.place.value.Holding? then x
        else Part(Attempted(e, ok, enqueued), Some(if ok then Sent(id) else Refused(id, x.place.value.snap)))
      case MarkPublishedStep(_, outcome) =>
        Part(if outcome.Applied() then e.(row := PublishedRow(e.row, now)) else e, None)
      case RecordFailureStep(_, error, nextRetryAt, outcome) =>
        if !x.place.value.Refused? then x
        else
          var row := FailureRow(e.row, x.place.value.snap, error, nextRetryAt);
          Part(if outcome.Applied() then e.(row := row) else e, None)
      case _ => x
  }

  /******* Time stamps *******/

  const BLANK := Timeline(None, None, None, None)

  function BlankRow(row: OutboxRow): OutboxRow {
    row.(times := BLANK)
  }

  function BlankEvent(e: Event): Event {
    e.(row := BlankRow(e.row))
  }

  function BlankPlace(p: Publisher): Publisher {
    match p
    case Holding(id, snap) => Holding(id, BlankRow(snap))
    case Refused(id, snap) => Refused(id, BlankRow(snap))
    case _ => p
  }

  // A part as it is, or without the times it was stamped with.
  function View(exact: bool, x: Part): Part {
    if exact then x
    else Part(BlankEvent(x.event), if x.place.None? then None else Some(BlankPlace(x.place.value)))
  }

  // Nothing but the stamps depends on when a step is taken.
  lemma StampsOnly(exact: bool, x: Part, w: Worker, now: Time, now': Time, l: Label)
    requires exact ==> now == now'
    ensures View(exact, Moved(View(exact, x), w, now', l)) == View(exact, Moved(x, w, now, l))
  {
  }

  /******* One worker among all *******/

  // The worker's own steps, one after the other.
  function AllMoved(exact: bool, x: Part, w: Worker, now: Time, labels: seq<Label>): Part {
    if labels == [] then View(exact, x)
    else
      var n := |labels| - 1;
      View(exact, Moved(AllMoved(exact, x, w, now, labels[..n]), w, now, labels[n]))
  }

  function StepsOf(labels: seq<Label>, w: Worker): seq<Label> {
    if labels == [] then []
    else
      var n := |labels| - 1;
      StepsOf(labels[..n], w) + if OwnerStep(labels[n]) && labels[n].w == w then [labels[n]] else []
  }

  // Nobody is started or killed; otherwise anything may happen. Exactly looked at,
  // nothing but workers' steps, while the clock stands still.
  predicate Undisturbed(exact: bool, l: Label) {
    if exact then OwnerStep(l) else !l.FetchStep? && !l.CrashStep?
  }

  ghost predicate UndisturbedRun(exact: bool, r: Run) {
    IsRun(r) && forall k | 0 <= k < |r.labels| :: Undisturbed(exact, r.labels[k])
  }

  // Whoever has the event in hand is w.
  ghost predicate OnlyOne(s: State, w: Worker, id: EventId) {
    id in s.events && forall v | v in s.publishers && s.publishers[v].id == id :: v == w
  }

  lemma OwnMove(s: State, s': State, l: Label)
    requires Next(s, s', l) && OwnerStep(l)
    ensures l.w in s.publishers && s.publishers[l.w].id in s.events && s.publishers[l.w].id in s'.events
    ensures var id := s.publishers[l.w].id;
      PartOf(s', l.w, id) == Moved(PartOf(s, l.w, id), l.w, s.now, l)
  {
  }

  lemma OtherOwnerMove(s: State, s': State, l: Label, w: Worker, id: EventId)
    requires Next(s, s', l) && OwnerStep(l) && l.w != w && OnlyOne(s, w, id)
    ensures id in s'.events && PartOf(s', w, id) == PartOf(s, w, id)
  {
    OwnerIsLocal(s, s', l);
    assert s.publishers[l.w].id != id;
    assert w in s'.publishers <==> w in s.publishers;
  }

  lemma OutsideMove(s: State, s': State, l: Label, w: Worker, id: EventId)
    requires Next(s, s', l) && !OwnerStep(l) && Undisturbed(false, l) && OnlyOne(s, w, id)
    ensures id in s'.events && View(false, PartOf(s', w, id)) == View(false, PartOf(s, w, id))
    ensures s'.publishers == s.publishers
  {
    ConsumersStamp(s, s', l, id);
  }

  lemma OnlyOneKept(s: State, s': State, l: Label, w: Worker, id: EventId)
    requires Next(s, s', l) && OwnerStep(l) && OnlyOne(s, w, id)
    ensures OnlyOne(s', w, id) && s'.now == s.now
    ensures w in s'.publishers ==> w in s.publishers && s'.publishers[w].id == s.publishers[w].id
  {
    OwnerIsLocal(s, s', l);
  }

  lemma StepsOfLast(labels: seq<Label>, k: nat, w: Worker)
    requires k < |labels|
    ensures StepsOf(labels[..k + 1], w)
      == if OwnerStep(labels[k]) && labels[k].w == w
         then StepsOf(labels[..k], w) + [labels[k]] else StepsOf(labels[..k], w)
  {
    assert labels[..k + 1][..k] == labels[..k];
  }

  lemma MovedLast(exact: bool, x: Part, w: Worker, now: Time, labels: seq<Label>, l: Label)
    ensures AllMoved(exact, x, w, now, labels + [l])
      == View(exact, Moved(AllMoved(exact, x, w, now, labels), w, now, l))
  {
    assert (labels + [l])[..|labels|] == labels;
  }

  // w's part is what its own steps make of it.
  ghost predicate OwnWay(exact: bool, s: State, s': State, w: Worker, id: EventId, labels: seq<Label>) {
    && (exact ==> s'.now == s.now) && id in s.events && OnlyOne(s', w, id)
    && (w in s'.publishers ==> s'.publishers[w].id == id)
    && View(exact, PartOf(s', w, id)) == AllMoved(exact, PartOf(s, w, id), w, s.now, labels)
  }

  lemma OwnWayOwner(exact: bool, s0: State, s: State, s': State, l: Label, w: Worker, id: EventId, labels: seq<Label>)
    requires OwnWay(exact, s0, s, w, id, labels) && Next(s, s', l) && OwnerStep(l)
    ensures OwnWay(exact, s0, s', w, id, if l.w == w then labels + [l] else labels)
  {
    OnlyOneKept(s, s', l, w, id);
    if l.w == w {
      OwnMove(s, s', l);
      StampsOnly(exact, PartOf(s, w, id), w, s.now, s0.now, l);
      MovedLast(exact, PartOf(s0, w, id), w, s0.now, labels, l);
    } else {
      OtherOwnerMove(s, s', l, w, id);
    }
  }

  lemma OwnWayOutside(s0: State, s: State, s': State, l: Label, w: Worker, id: EventId, labels: seq<Label>)
    requires OwnWay(false, s0, s, w, id, labels) && Next(s, s', l) && !OwnerStep(l) && Undisturbed(false, l)
    ensures OwnWay(false, s0, s', w, id, labels)
  {
    OutsideMove(s, s', l, w, id);
  }

  lemma OwnWayAt(exact: bool, r: Run, k: nat, w: Worker, id: EventId)
    requires UndisturbedRun(exact, r) && k < |r.labels|
    requires OwnWay(exact, r.states[0], r.states[k], w, id, StepsOf(r.labels[..k], w))
    ensures OwnWay(exact, r.states[0], r.states[k + 1], w, id, StepsOf(r.labels[..k + 1], w))
  {
    var l, labels := r.labels[k], StepsOf(r.labels[..k], w);
    assert Next(r.states[k], r.states[k + 1], l) && Undisturbed(exact, l);
    StepsOfLast(r.labels, k, w);
    if OwnerStep(l) {
      OwnWayOwner(exact, r.states[0], r.states[k], r.states[k + 1], l, w, id, labels);
    } else {
      OwnWayOutside(r.states[0], r.states[k], r.states[k + 1], l, w, id, labels);
    }
  }

  // What becomes of a worker's event, up to time stamps, is what the worker's own
  // steps make of it, whatever other workers, consumers, transactions and the clock
  // do in between; and if only workers step, the stamps are the same too.
  lemma {:induction false} EachGoesItsOwnWay(exact: bool, r: Run, i: nat, w: Worker, id: EventId)
    requires UndisturbedRun(exact, r) && i <= |r.labels|
    requires OwnWay(exact, r.states[0], r.states[0], w, id, [])
    ensures OwnWay(exact, r.states[0], r.states[i], w, id, StepsOf(r.labels[..i], w))
    decreases i
  {
    if i > 0 {
      EachGoesItsOwnWay(exact, r, i - 1, w, id);
      OwnWayAt(exact, r, i - 1, w, id);
    }
  }

  /******* All workers *******/

  // Every worker has an event of its own.
  ghost predicate Apart(s: State) {
    && (forall w | w in s.publishers :: s.publishers[w].id in s.events)
    && (forall v, w | v in s.publishers && w in s.publishers && s.publishers[v].id == s.publishers[w].id :: v == w)
  }

  function Seen(exact: bool, e: Event): Event {
    if exact then e else BlankEvent(e)
  }

  // An event that nobody has in hand.
  ghost predicate Idle(s: State, id: EventId) {
    id in s.events && forall w | w in s.publishers :: s.publishers[w].id != id
  }

  lemma IdleStep(exact: bool, s: State, s': State, l: Label, id: EventId)
    requires Next(s, s', l) && Undisturbed(exact, l) && Idle(s, id)
    ensures Idle(s', id) && Seen(exact, s'.events[id]) == Seen(exact, s.events[id])
  {
    if OwnerStep(l) {
      OwnerIsLocal(s, s', l);
    } else {
      OutsideMove(s, s', l, 0, id);
    }
  }

  lemma {:induction false} IdleEventsStay(exact: bool, r: Run, i: nat, id: EventId)
    requires UndisturbedRun(exact, r) && i < |r.states| && Idle(r.states[0], id)
    ensures Idle(r.states[i], id) && Seen(exact, r.states[i].events[id]) == Seen(exact, r.states[0].events[id])
    decreases i
  {
    if i > 0 {
      IdleEventsStay(exact, r, i - 1, id);
      assert Next(r.states[i - 1], r.states[i], r.labels[i - 1]);
      IdleStep(exact, r.states[i - 1], r.states[i], r.labels[i - 1], id);
    }
  }

  // Two runs from one state in which every worker takes the same steps, interleaved
  // in any way with each other and with anything else but new lists and crashes, end
  // with the same rows up to time stamps; with the same rows if only workers step.
  lemma InterleavingIrrelevant(exact: bool, r: Run, r': Run, id: EventId)
    requires UndisturbedRun(exact, r) && UndisturbedRun(exact, r') && r.states[0] == r'.states[0] && Apart(r.states[0])
    requires forall w :: StepsOf(r.labels, w) == StepsOf(r'.labels, w)
    requires id in r.states[0].events
    ensures id in Last(r).events && id in Last(r').events
    ensures Seen(exact, Last(r).events[id]) == Seen(exact, Last(r').events[id])
  {
    var s := r.states[0];
    if w :| w in s.publishers && s.publishers[w].id == id {
      EachGoesItsOwnWay(exact, r, |r.labels|, w, id);
      EachGoesItsOwnWay(exact, r', |r'.labels|, w, id);
      assert r.labels[..|r.labels|] == r.labels && r'.labels[..|r'.labels|] == r'.labels;
    } else {
      IdleEventsStay(exact, r, |r.labels|, id);
      IdleEventsStay(exact, r', |r'.labels|, id);
    }
  }

  /******* A tick does what a loop does *******/

  // The steps of PublishEvent, for what its calls come to.
  function PublishSteps(w: Worker, row: OutboxRow, calls: S.Calls, backoff: int -> Time): seq<Label> {
    if !calls.claim.Done? || !Claimable(row) then [ClaimStep(w, calls.claim)]
    else
      [ClaimStep(w, calls.claim),
       PublishStep(w, calls.accepted, calls.enqueued),
       S.Verdict(w, row, calls, backoff)]
  }

  lemma ThreeMoves(x: Part, w: Worker, now: Time, a: Label, b: Label, c: Label)
    ensures AllMoved(false, x, w, now, [a]) == View(false, Moved(View(false, x), w, now, a))
    ensures AllMoved(false, x, w, now, [a, b, c])
         == View(false, Moved(View(false, Moved(View(false, Moved(View(false, x), w, now, a)), w, now, b)), w, now, c))
  {
    MovedLast(false, x, w, now, [], a);
    MovedLast(false, x, w, now, [a], b);
    MovedLast(false, x, w, now, [a, b], c);
    assert [] + [a] == [a] && [a] + [b] == [a, b] && [a, b] + [c] == [a, b, c];
  }

  // Taken one after the other they do to the row what PublishEvent does.
  lemma StepsHaveEffect(e: Event, w: Worker, id: EventId, now: Time, rows: Rows, calls: S.Calls, backoff: int -> Time)
    requires id in rows && rows[id] == e.row
    ensures var effect := S.EffectOf(rows, id, calls, backoff).rows;
      id in effect && BlankRow(effect[id])
        == AllMoved(false, Part(e, Some(Listed(id))), w, now, PublishSteps(w, e.row, calls, backoff)).event.row
  {
    var x := Part(e, Some(Listed(id)));
    ThreeMoves(x, w, now, ClaimStep(w, calls.claim), PublishStep(w, calls.accepted, calls.enqueued),
               S.Verdict(w, e.row, calls, backoff));
  }

  // The workers of one list at the start: one for each event, nothing claimed yet.
  ghost predicate Started(s: State, ids: seq<EventId>) {
    && Apart(s) && NoRepeats(ids) && (forall id | id in ids :: id in s.events)
    && (forall w | w in s.publishers :: s.publishers[w].Listed? && s.publishers[w].id in ids)
    && (forall id | id in ids :: exists w :: w in s.publishers && s.publishers[w].id == id)
  }

  lemma WorkerHasEffect(r: Run, w: Worker, calls: S.Calls, backoff: int -> Time)
    requires UndisturbedRun(false, r) && Apart(r.states[0])
    requires w in r.states[0].publishers && r.states[0].publishers[w].Listed?
    requires var s := r.states[0];
      StepsOf(r.labels, w) == PublishSteps(w, RowOf(s, s.publishers[w].id), calls, backoff)
    ensures var s, id := r.states[0], r.states[0].publishers[w].id;
      && id in Last(r).events && id in s.events && id in Table(s)
      && id in S.EffectOf(Table(s), id, calls, backoff).rows
      && BlankRow(RowOf(Last(r), id)) == BlankRow(S.EffectOf(Table(s), id, calls, backoff).rows[id])
  {
    var s, id := r.states[0], r.states[0].publishers[w].id;
    EachGoesItsOwnWay(false, r, |r.labels|, w, id);
    assert r.labels[..|r.labels|] == r.labels;
    StepsHaveEffect(s.events[id], w, id, s.now, Table(s), calls, backoff);
  }

  // Workers that run side by side, each through PublishEvent, leave the rows that the
  // loop over their list leaves, up to time stamps, in every interleaving.
  lemma TickIsBatch(r: Run, ids: seq<EventId>, calls: EventId -> S.Calls, backoff: int -> Time)
    requires UndisturbedRun(false, r) && Started(r.states[0], ids)
    requires forall w | w in r.states[0].publishers ::
      var s, id := r.states[0], r.states[0].publishers[w].id;
      StepsOf(r.labels, w) == PublishSteps(w, RowOf(s, id), calls(id), backoff)
    ensures var s, after := r.states[0], P.AfterBatch(Table(r.states[0]), ids, calls, backoff);
      forall id | id in s.events ::
        id in Last(r).events && id in after && BlankRow(RowOf(Last(r), id)) == BlankRow(after[id])
  {
    var s := r.states[0];
    P.BatchPointwise(Table(s), ids, calls, backoff);
    forall id | id in s.events
      ensures id in Last(r).events
      ensures BlankRow(RowOf(Last(r), id)) == BlankRow(P.AfterBatch(Table(s), ids, calls, backoff)[id])
    {
      if id in ids {
        var w :| w in s.publishers && s.publishers[w].id == id;
        WorkerHasEffect(r, w, calls(id), backoff);
      } else {
        IdleEventsStay(false, r, |r.labels|, id);
      }
    }
  }
}
