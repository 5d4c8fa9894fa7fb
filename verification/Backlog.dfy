// How a single publisher process works off a backlog, tick by tick, with the
// workers of a tick in any order and interleaving.
module Backlog {
  import opened Prelude
  import opened OutboxTable
  import opened OutboxProtocol
  import P = Processor
  import opened SinglePublisher

  // No event is added, the process is not restarted, and no claim is turned down.
  // Lists, Publish and MarkPublished may fail as they like.
  predicate Calm(t: Step) {
    !t.RestartStep? && (t.InnerStep? ==> !t.l.InsertStep? && (t.l.ClaimStep? ==> t.l.outcome.Applied()))
  }

  // Steps a, ..., b - 1 are calm, and the process is between two ticks at a.
  ghost predicate CalmStretch(r: Run1, a: nat, b: nat) {
    && FromStart(r) && a <= b < |r.states|
    && Idle(r.states[a])
    && forall k | a <= k < b :: Calm(r.steps[k])
  }

  predicate Idle(s: Process) {
    s.pendingDone && s.retryableDone && s.g.publishers == map[]
  }

  ghost function PendingIds(s: Process): set<EventId> {
    set id | id in s.g.events && IsPending(RowOf(s.g, id))
  }

  predicate InHandOf(publishers: map<Worker, Publisher>, id: EventId) {
    exists w :: w in publishers && publishers[w].id == id
  }

  // Pending events that no worker has been started for.
  ghost function Untaken(s: Process): set<EventId> {
    set id | id in s.g.events && IsPending(RowOf(s.g, id)) && !InHandOf(s.g.publishers, id)
  }

  /******* What a step does to the backlog *******/

  function Less(n: nat, m: nat): nat {
    if n <= m then 0 else n - m
  }

  ghost predicate SameEnvelopes(s: State, s': State) {
    forall id | id in s.events :: id in s'.events && RowOf(s', id).event == RowOf(s, id).event
  }

  // The step takes no event from the backlog.
  ghost predicate Same(s: Process, s': Process) {
    Untaken(s') == Untaken(s) && SameEnvelopes(s.g, s'.g)
  }

  // The event of the worker that acts was in its hand, and is not pending after.
  lemma ClaimNotPending(s: State, s': State, w: Worker, outcome: Outcome)
    requires Claim(s, s', w, outcome) && outcome.Applied()
    ensures var id := s.publishers[w].id;
      id in s.events && id in s'.events && !IsPending(RowOf(s', id)) && RowOf(s', id).event == RowOf(s, id).event
  {
  }

  lemma NeverPendingAgain(e: Event, e': Event)
    requires e.row.status == Processing && EventNext(e, e')
    ensures e'.row.status != Pending && e'.row.event == e.row.event
  {
  }

  lemma OwnedNotPending(s: State, s': State, l: Label)
    requires Inv(s) && Next(s, s', l) && (l.PublishStep? || l.MarkPublishedStep? || l.RecordFailureStep?)
    ensures l.w in s.publishers
    ensures var id := s.publishers[l.w].id;
      id in s.events && id in s'.events && !IsPending(RowOf(s', id)) && RowOf(s', id).event == RowOf(s, id).event
  {
    OwnedEventNext(s, s', l);
    NeverPendingAgain(s.events[s.publishers[l.w].id], s'.events[s.publishers[l.w].id]);
  }

  lemma NotPendingAfter(s: State, s': State, l: Label)
    requires Inv(s) && Next(s, s', l) && OwnerStep(l) && (l.ClaimStep? ==> l.outcome.Applied())
    ensures l.w in s.publishers
    ensures var id := s.publishers[l.w].id;
      id in s.events && id in s'.events && !IsPending(RowOf(s', id)) && RowOf(s', id).event == RowOf(s, id).event
  {
    if l.ClaimStep? { ClaimNotPending(s, s', l.w, l.outcome); } else { OwnedNotPending(s, s', l); }
  }

  lemma OtherHands(s: State, s': State, l: Label, id: EventId)
    requires Next(s, s', l) && OwnerStep(l) && s.publishers[l.w].id != id
    ensures InHandOf(s'.publishers, id) <==> InHandOf(s.publishers, id)
  {
    assert forall v | v != l.w :: v in s'.publishers <==> v in s.publishers;
    assert forall v | v != l.w && v in s.publishers :: s'.publishers[v] == s.publishers[v];
    assert l.w in s'.publishers ==> s'.publishers[l.w].id == s.publishers[l.w].id;
  }

  predicate UntakenAt(s: State, id: EventId) {
    id in s.events && IsPending(RowOf(s, id)) && !InHandOf(s.publishers, id)
  }

  lemma OtherEvent(s: State, s': State, l: Label, id: EventId)
    requires Next(s, s', l) && OwnerStep(l) && s.publishers[l.w].id != id
    ensures UntakenAt(s', id) <==> UntakenAt(s, id)
    ensures id in s.events ==> id in s'.events && RowOf(s', id).event == RowOf(s, id).event
  {
    OtherHands(s, s', l, id);
    OwnerIsLocal(s, s', l);
  }

  lemma OwnEvent(s: State, s': State, w: Worker)
    requires w in s.publishers && s.publishers[w].id in s'.events && !IsPending(RowOf(s', s.publishers[w].id))
    ensures !UntakenAt(s, s.publishers[w].id) && !UntakenAt(s', s.publishers[w].id)
  {
    assert InHandOf(s.publishers, s.publishers[w].id);
  }

  lemma OwnerLeavesEvent(s: State, s': State, l: Label, id: EventId)
    requires Inv(s) && Next(s, s', l) && OwnerStep(l) && (l.ClaimStep? ==> l.outcome.Applied())
    ensures UntakenAt(s', id) <==> UntakenAt(s, id)
    ensures id in s.events ==> id in s'.events && RowOf(s', id).event == RowOf(s, id).event
  {
    NotPendingAfter(s, s', l);
    if s.publishers[l.w].id == id { OwnEvent(s, s', l.w); } else { OtherEvent(s, s', l, id); }
  }

  lemma OwnerLeavesBacklog(s: Process, s': Process, l: Label)
    requires Inv(s.g) && Next(s.g, s'.g, l) && OwnerStep(l) && (l.ClaimStep? ==> l.outcome.Applied())
    ensures Same(s, s')
  {
    forall id
      ensures UntakenAt(s'.g, id) <==> UntakenAt(s.g, id)
      ensures id in s.g.events ==> id in s'.g.events && RowOf(s'.g, id).event == RowOf(s.g, id).event
    {
      OwnerLeavesEvent(s.g, s'.g, l, id);
    }
    assert forall id :: id in Untaken(s) <==> UntakenAt(s.g, id);
    assert forall id :: id in Untaken(s') <==> UntakenAt(s'.g, id);
  }

  lemma OutsideLeavesBacklog(s: Process, s': Process, l: Label)
    requires Next1(s, s', InnerStep(l)) && !OwnerStep(l) && Calm(InnerStep(l))
    ensures Same(s, s')
  {
    OutsideStep(s.g, s'.g, l);
    SameKeys(s.g, s'.g, l);
  }

  lemma SameKeys(s: State, s': State, l: Label)
    requires Next(s, s', l) && !l.InsertStep?
    ensures s'.events.Keys == s.events.Keys
  {
  }

  lemma RetryLeavesBacklog(s: Process, s': Process, picks: map<Worker, EventId>)
    requires Fetch(s.g, s'.g, true, picks)
    ensures Same(s, s')
  {
    forall id | id in s.g.events && IsPending(RowOf(s.g, id))
      ensures InHandOf(s'.g.publishers, id) <==> InHandOf(s.g.publishers, id)
    {
      if InHandOf(s.g.publishers, id) {
        var w :| w in s.g.publishers && s.g.publishers[w].id == id;
        assert w in s'.g.publishers && s'.g.publishers[w].id == id;
      }
    }
  }

  // While the list of this tick is still to be fetched, nobody has a pending event.
  lemma AllUntaken(s: Process)
    requires Inv1(s) && !s.pendingDone
    ensures Untaken(s) == PendingIds(s)
  {
    forall id | id in PendingIds(s)
      ensures !InHandOf(s.g.publishers, id)
    {
      forall w | w in s.g.publishers ensures s.g.publishers[w].id != id {
        FreshlyListed(s, false, w, id);
      }
    }
  }

  lemma ListedHands(s: State, s': State, ids: seq<EventId>, picks: map<Worker, EventId>, id: EventId)
    requires Fetch(s, s', false, picks) && Spawns(ids, picks)
    ensures InHandOf(s'.publishers, id) <==> InHandOf(s.publishers, id) || id in ids
  {
    if id in ids {
      assert id in picks.Values;
      var w :| w in picks && picks[w] == id;
      assert w in s'.publishers && s'.publishers[w].id == id;
    }
    if w :| w in s.publishers && s.publishers[w].id == id {
      assert w in s'.publishers && s'.publishers[w].id == id;
    }
  }

  lemma ListingTakes(s: Process, s': Process, ids: seq<EventId>, picks: map<Worker, EventId>)
    requires Untaken(s) == PendingIds(s) && PendingBatch(Table(s.g), P.BATCH_SIZE, ids)
    requires Fetch(s.g, s'.g, false, picks) && Spawns(ids, picks)
    ensures Elements(ids) <= Untaken(s) && Untaken(s') == Untaken(s) - Elements(ids)
    ensures s'.g.events == s.g.events
  {
    forall id | id in s.g.events
      ensures InHandOf(s'.g.publishers, id) <==> InHandOf(s.g.publishers, id) || id in ids
    {
      ListedHands(s.g, s'.g, ids, picks, id);
    }
    forall id | id in ids ensures id in PendingIds(s) {
      assert id in Table(s.g) && IsPending(Table(s.g)[id]);
    }
  }

  lemma ListingSize(s: Process, s': Process, ids: seq<EventId>)
    requires Untaken(s) == PendingIds(s) && PendingBatch(Table(s.g), P.BATCH_SIZE, ids)
    requires Elements(ids) <= Untaken(s) && Untaken(s') == Untaken(s) - Elements(ids)
    ensures |Untaken(s')| == Less(|Untaken(s)|, P.BATCH_SIZE)
  {
    ElementsSize(ids);
    if |ids| < P.BATCH_SIZE {
      TakesAll(s, ids);
    }
  }

  lemma TakesAll(s: Process, ids: seq<EventId>)
    requires PendingBatch(Table(s.g), P.BATCH_SIZE, ids) && |ids| < P.BATCH_SIZE
    ensures PendingIds(s) == Elements(ids)
  {
    forall id | id in PendingIds(s) ensures id in ids {
      assert id in Table(s.g) && IsPending(Table(s.g)[id]);
    }
  }

  lemma QuietStep(s: Process, s': Process, t: Step)
    requires Inv1(s) && Next1(s, s', t) && Calm(t) && !t.PendingStep?
    ensures Same(s, s')
  {
    match t
    case TickStep =>
    case ListFailedStep(_) =>
    case RetryableStep(_, picks) => RetryLeavesBacklog(s, s', picks);
    case InnerStep(l) => if OwnerStep(l) { OwnerLeavesBacklog(s, s', l); } else { OutsideLeavesBacklog(s, s', l); }
  }

  /******* Counting ticks *******/

  function Ticks(r: Run1, a: nat, b: nat): nat
    requires a <= b <= |r.steps|
  {
    if a == b then 0 else Ticks(r, a, b - 1) + if r.steps[b - 1].TickStep? then 1 else 0
  }

  function Lists(r: Run1, a: nat, b: nat): nat
    requires a <= b <= |r.steps|
  {
    if a == b then 0 else Lists(r, a, b - 1) + if r.steps[b - 1].PendingStep? then 1 else 0
  }

  // Ticks whose list of pending events failed.
  function Misses(r: Run1, a: nat, b: nat): nat
    requires a <= b <= |r.steps|
  {
    if a == b then 0 else Misses(r, a, b - 1) + if IsMiss(r.steps[b - 1]) then 1 else 0
  }

  predicate IsMiss(t: Step) {
    t == ListFailedStep(false)
  }

  function Owed(s: Process): nat {
    if s.pendingDone then 0 else 1
  }

  lemma OneListATick(s: Process, s': Process, t: Step)
    requires Next1(s, s', t)
    ensures t.RestartStep?
      || (if t.TickStep? then 1 else 0) + Owed(s) == (if t.PendingStep? || IsMiss(t) then 1 else 0) + Owed(s')
  {
  }

  lemma {:induction false} ListsFollowTicks(r: Run1, a: nat, b: nat)
    requires CalmStretch(r, a, b)
    ensures Ticks(r, a, b) == Lists(r, a, b) + Misses(r, a, b) + Owed(r.states[b])
    decreases b
  {
    if a < b {
      ListsFollowTicks(r, a, b - 1);
      OneListATick(r.states[b - 1], r.states[b], r.steps[b - 1]);
    }
  }

  ghost predicate Shrinks(s: Process, s': Process) {
    Untaken(s') <= Untaken(s) && SameEnvelopes(s.g, s'.g)
  }

  lemma ListStep(s: Process, s': Process, ids: seq<EventId>, picks: map<Worker, EventId>)
    requires Inv1(s) && Next1(s, s', PendingStep(ids, picks))
    ensures |Untaken(s')| == Less(|Untaken(s)|, P.BATCH_SIZE) && Shrinks(s, s')
  {
    AllUntaken(s);
    ListingTakes(s, s', ids, picks);
    ListingSize(s, s', ids);
  }

  lemma SameShrinks(s: Process, s': Process)
    requires Same(s, s')
    ensures |Untaken(s')| == Less(|Untaken(s)|, 0) && Shrinks(s, s')
  {
  }

  lemma CalmStep(s: Process, s': Process, t: Step)
    requires Inv1(s) && Next1(s, s', t) && Calm(t)
    ensures |Untaken(s')| == Less(|Untaken(s)|, if t.PendingStep? then P.BATCH_SIZE else 0)
    ensures Shrinks(s, s')
  {
    if t.PendingStep? {
      ListStep(s, s', t.ids, t.picks);
    } else {
      QuietStep(s, s', t);
      SameShrinks(s, s');
    }
  }

  lemma BacklogStep(r: Run1, a: nat, k: nat)
    requires CalmStretch(r, a, k + 1) && a <= k
    ensures Shrunk(r, k) && Shrinks(r.states[k], r.states[k + 1])
  {
    Run1Inv(r, k);
    assert Next1(r.states[k], r.states[k + 1], r.steps[k]) && Calm(r.steps[k]);
    CalmStep(r.states[k], r.states[k + 1], r.steps[k]);
  }

  ghost predicate Shrunk(r: Run1, k: nat)
    requires k < |r.steps| < |r.states|
  {
    |Untaken(r.states[k + 1])| == Less(|Untaken(r.states[k])|, if r.steps[k].PendingStep? then P.BATCH_SIZE else 0)
  }

  lemma {:induction false} ShrunkAll(r: Run1, a: nat, b: nat)
    requires a <= b <= |r.steps| < |r.states| && forall k | a <= k < b :: Shrunk(r, k)
    ensures |Untaken(r.states[b])| == Less(|Untaken(r.states[a])|, P.BATCH_SIZE * Lists(r, a, b))
    decreases b
  {
    if a < b {
      ShrunkAll(r, a, b - 1);
      assert Shrunk(r, b - 1);
    }
  }

  lemma BacklogSize(r: Run1, a: nat, b: nat)
    requires CalmStretch(r, a, b)
    ensures |Untaken(r.states[b])| == Less(|Untaken(r.states[a])|, P.BATCH_SIZE * Lists(r, a, b))
  {
    forall k | a <= k < b ensures Shrunk(r, k) {
      BacklogStep(r, a, k);
    }
    ShrunkAll(r, a, b);
  }

  lemma IdleHasAllUntaken(s: Process)
    requires s.g.publishers == map[]
    ensures Untaken(s) == PendingIds(s)
  {
  }

  // At every tick, n pending events have become max(0, n - 10k), k being the number
  // of ticks before whose list did not fail; so a backlog is taken in ceil(n / 10) of
  // these and no sooner.
  lemma BacklogDrains(r: Run1, a: nat, b: nat)
    requires CalmStretch(r, a, b) && b < |r.steps| && r.steps[b].TickStep?
    ensures Misses(r, a, b) <= Ticks(r, a, b)
    ensures |PendingIds(r.states[b])|
      == Less(|PendingIds(r.states[a])|, 10 * (Ticks(r, a, b) - Misses(r, a, b)))
  {
    assert Next1(r.states[b], r.states[b + 1], r.steps[b]);
    ListsFollowTicks(r, a, b);
    BacklogSize(r, a, b);
    IdleHasAllUntaken(r.states[a]);
    IdleHasAllUntaken(r.states[b]);
  }

  /******* No overtaking *******/

  lemma {:induction false} ShrinksFar(states: seq<Process>, i: nat, j: nat)
    requires i <= j < |states| && forall k | i <= k < j :: Shrinks(states[k], states[k + 1])
    ensures Shrinks(states[i], states[j])
    decreases j
  {
    if i < j {
      ShrinksFar(states, i, j - 1);
      assert Shrinks(states[j - 1], states[j - 1 + 1]);
    }
  }

  lemma BacklogShrinks(r: Run1, a: nat, i: nat, j: nat)
    requires CalmStretch(r, a, j) && a <= i <= j
    ensures Shrinks(r.states[i], r.states[j])
  {
    forall k | i <= k < j ensures Shrinks(r.states[k], r.states[k + 1]) {
      BacklogStep(r, a, k);
    }
    ShrinksFar(r.states, i, j);
  }

  lemma LeftOutDoesNotOutrank(s: Process, ids: seq<EventId>, early: EventId, late: EventId)
    requires PendingBatch(Table(s.g), P.BATCH_SIZE, ids)
    requires early in ids && late in PendingIds(s) && late !in ids
    ensures early in s.g.events && !Outranks(RowOf(s.g, late), RowOf(s.g, early))
  {
    var i :| 0 <= i < |ids| && ids[i] == early;
    assert late in Table(s.g) && IsPending(Table(s.g)[late]);
    assert !Outranks(Table(s.g)[late], Table(s.g)[ids[i]]);
  }

  lemma ListedAt(r: Run1, k: nat)
    requires FromStart(r) && k < |r.steps| && r.steps[k].PendingStep?
    ensures var s, s', ids := r.states[k], r.states[k + 1], r.steps[k].ids;
      && PendingBatch(Table(s.g), P.BATCH_SIZE, ids)
      && Untaken(s) == PendingIds(s) && Elements(ids) <= Untaken(s) && Untaken(s') == Untaken(s) - Elements(ids)
  {
    Run1Inv(r, k);
    assert Next1(r.states[k], r.states[k + 1], r.steps[k]);
    AllUntaken(r.states[k]);
    ListingTakes(r.states[k], r.states[k + 1], r.steps[k].ids, r.steps[k].picks);
  }

  lemma TwoLists(s0: Process, s: Process, later: Process, ids: seq<EventId>, ids': seq<EventId>, early: EventId,
      late: EventId)
    requires PendingBatch(Table(s.g), P.BATCH_SIZE, ids) && early in ids && late in ids'
    requires Elements(ids) <= PendingIds(s) && Elements(ids') <= Untaken(later)
    requires Untaken(later) <= PendingIds(s) - Elements(ids) && PendingIds(s) <= PendingIds(s0)
      && SameEnvelopes(s0.g, s.g)
    ensures early in PendingIds(s0) && late in PendingIds(s0)
    ensures !Outranks(RowOf(s0.g, late), RowOf(s0.g, early))
  {
    assert early in Elements(ids) && late in Elements(ids');
    LeftOutDoesNotOutrank(s, ids, early, late);
  }

  // No event listed in a later tick outranks one listed earlier.
  lemma NoOvertaking(r: Run1, a: nat, i: nat, j: nat, early: EventId, late: EventId)
    requires CalmStretch(r, a, j) && a <= i < j < |r.steps|
    requires r.steps[i].PendingStep? && r.steps[j].PendingStep? && early in r.steps[i].ids && late in r.steps[j].ids
    ensures early in PendingIds(r.states[a]) && late in PendingIds(r.states[a])
    ensures !Outranks(RowOf(r.states[a].g, late), RowOf(r.states[a].g, early))
  {
    ListedAt(r, i);
    ListedAt(r, j);
    BacklogShrinks(r, a, i + 1, j);
    BacklogShrinks(r, a, a, i);
    IdleHasAllUntaken(r.states[a]);
    TwoLists(r.states[a], r.states[i], r.states[j], r.steps[i].ids, r.steps[j].ids, early, late);
  }

  /******* What is taken is published *******/

  predicate Succeeds(t: Step) {
    && Calm(t)
    && (t.InnerStep? ==>
          && (t.l.ClaimStep? ==> t.l.outcome.Done?)
          && (t.l.PublishStep? ==> t.l.ok)
          && (t.l.MarkPublishedStep? ==> t.l.outcome.Done?))
  }

  predicate OnItsWay(publishers: map<Worker, Publisher>, id: EventId) {
    exists w :: w in publishers && publishers[w].id == id && (publishers[w].Holding? || publishers[w].Sent?)
  }

  predicate Progressing(s: State, id: EventId) {
    && id in s.events
    && match RowOf(s, id).status
       case Pending => true
       case Published => true
       case Processing => OnItsWay(s.publishers, id)
       case Failed => false
  }

  lemma NotRefused(s: State, w: Worker, id: EventId)
    requires Inv(s) && Progressing(s, id) && w in s.publishers && s.publishers[w].id == id
    ensures !s.publishers[w].Refused?
  {
    assert PublisherOk(s.events, w, s.publishers[w]);
    forall v | v in s.publishers ensures PublisherOk(s.events, v, s.publishers[v]) {}
  }

  lemma ClaimProgresses(s: State, s': State, w: Worker)
    requires Claim(s, s', w, Done) && Progressing(s, s.publishers[w].id)
    ensures Progressing(s', s.publishers[w].id)
  {
    var id := s.publishers[w].id;
    if RowOf(s, id).status == Processing {
      var v :| v in s.publishers && s.publishers[v].id == id && (s.publishers[v].Holding? || s.publishers[v].Sent?);
      assert v in s'.publishers && s'.publishers[v] == s.publishers[v];
    } else if RowOf(s, id).status == Pending {
      assert w in s'.publishers && s'.publishers[w].Holding? && s'.publishers[w].id == id;
    }
  }

  lemma PublishProgresses(s: State, s': State, w: Worker, enqueued: bool)
    requires Publish(s, s', w, true, enqueued) && Progressing(s, s.publishers[w].id)
    ensures Progressing(s', s.publishers[w].id)
  {
    assert w in s'.publishers && s'.publishers[w] == Sent(s.publishers[w].id);
  }

  lemma MarkProgresses(s: State, s': State, w: Worker)
    requires MarkPublished(s, s', w, Done)
    ensures Progressing(s', s.publishers[w].id)
  {
  }

  lemma OtherOwnerStep(s: Process, s': Process, l: Label, id: EventId)
    requires Next1(s, s', InnerStep(l)) && OwnerStep(l) && Progressing(s.g, id)
    requires s.g.publishers[l.w].id != id
    ensures Progressing(s'.g, id)
  {
    OwnerIsLocal(s.g, s'.g, l);
    if RowOf(s.g, id).status == Processing {
      var v :| v in s.g.publishers && s.g.publishers[v].id == id
          && (s.g.publishers[v].Holding? || s.g.publishers[v].Sent?);
      StillThere(s.g, s'.g, l, v);
    }
  }

  lemma StillThere(s: State, s': State, l: Label, v: Worker)
    requires Next(s, s', l) && OwnerStep(l) && v in s.publishers && v != l.w
    ensures v in s'.publishers && s'.publishers[v] == s.publishers[v]
  {
  }

  lemma OutsideProgresses(s: Process, s': Process, t: Step, id: EventId)
    requires Next1(s, s', t) && Calm(t) && (t.InnerStep? ==> !OwnerStep(t.l)) && Progressing(s.g, id)
    ensures Progressing(s'.g, id)
  {
    if t.InnerStep? {
      OutsideStep(s.g, s'.g, t.l);
    }
    if RowOf(s.g, id).status == Processing {
      var v :| v in s.g.publishers && s.g.publishers[v].id == id
          && (s.g.publishers[v].Holding? || s.g.publishers[v].Sent?);
      assert v in s'.g.publishers && s'.g.publishers[v] == s.g.publishers[v];
    }
  }

  lemma ProgressStep(s: Process, s': Process, t: Step, id: EventId)
    requires Inv1(s) && Next1(s, s', t) && Succeeds(t) && Progressing(s.g, id)
    ensures Progressing(s'.g, id)
  {
    if !t.InnerStep? || !OwnerStep(t.l) {
      OutsideProgresses(s, s', t, id);
    } else if s.g.publishers[t.l.w].id == id {
      NotRefused(s.g, t.l.w, id);
      match t.l
      case ClaimStep(w, _) => ClaimProgresses(s.g, s'.g, w);
      case PublishStep(w, _, enqueued) => PublishProgresses(s.g, s'.g, w, enqueued);
      case MarkPublishedStep(w, _) => MarkProgresses(s.g, s'.g, w);
      case _ =>
    } else {
      OtherOwnerStep(s, s', t.l, id);
    }
  }

  lemma ProgressAt(r: Run1, k: nat, id: EventId)
    requires FromStart(r) && k < |r.steps| && Succeeds(r.steps[k]) && Progressing(r.states[k].g, id)
    ensures Progressing(r.states[k + 1].g, id)
  {
    Run1Inv(r, k);
    assert Next1(r.states[k], r.states[k + 1], r.steps[k]);
    ProgressStep(r.states[k], r.states[k + 1], r.steps[k], id);
  }

  lemma {:induction false} ProgressAlong(states: seq<Process>, a: nat, b: nat, id: EventId)
    requires a <= b < |states| && Progressing(states[a].g, id)
    requires forall k | a <= k < b :: Progressing(states[k].g, id) ==> Progressing(states[k + 1].g, id)
    ensures Progressing(states[b].g, id)
    decreases b
  {
    if a < b {
      ProgressAlong(states, a, b - 1, id);
      assert Progressing(states[b - 1 + 1].g, id);
    }
  }

  lemma KeepsProgressing(r: Run1, a: nat, b: nat, id: EventId)
    requires FromStart(r) && a <= b < |r.states| && (forall k | a <= k < b :: Succeeds(r.steps[k]))
    requires Progressing(r.states[a].g, id)
    ensures Progressing(r.states[b].g, id)
  {
    forall k | a <= k < b && Progressing(r.states[k].g, id)
      ensures Progressing(r.states[k + 1].g, id)
    {
      ProgressAt(r, k, id);
    }
    ProgressAlong(r.states, a, b, id);
  }

  // If every call succeeds, then at every tick each event of the backlog is
  // published or still waits.
  lemma TakenArePublished(r: Run1, a: nat, b: nat, id: EventId)
    requires CalmStretch(r, a, b) && b < |r.steps| && r.steps[b].TickStep?
    requires (forall k | a <= k < b :: Succeeds(r.steps[k])) && id in PendingIds(r.states[a])
    ensures id in r.states[b].g.events
    ensures id in PendingIds(r.states[b]) || RowOf(r.states[b].g, id).status == Published
  {
    KeepsProgressing(r, a, b, id);
    assert Next1(r.states[b], r.states[b + 1], r.steps[b]);
  }
}
