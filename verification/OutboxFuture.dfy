// What can still become of an event: when its row can be claimed again although a
// message for it is live, and when it is stranded for good.
module OutboxFuture {
  import opened Prelude
  import opened OutboxTable
  import opened OutboxProtocol

  ghost predicate CanReach(s: State, s': State) {
    exists r: Run :: IsRun(r) && r.states[0] == s && Last(r) == s'
  }

  lemma ReachesSelf(s: State)
    ensures CanReach(s, s)
  {
    var r := Run([s], []);
    assert IsRun(r) && r.states[0] == s && Last(r) == s;
  }

  lemma ReachesNext(s: State, s': State, s'': State, l: Label)
    requires CanReach(s, s') && Next(s', s'', l)
    ensures CanReach(s, s'')
  {
    var r :| IsRun(r) && r.states[0] == s && Last(r) == s';
    var r' := Extend(r, s'', l);
  }

  /******* Rows out of reach *******/

  // A worker that got an error from Publish, or may yet get one.
  predicate MayFail(s: State, w: Worker, id: EventId) {
    w in s.publishers && s.publishers[w].id == id && (s.publishers[w].Holding? || s.publishers[w].Refused?)
  }

  ghost predicate OutOfReach(s: State, id: EventId) {
    id in s.events && !Claimable(s.events[id].row) && forall w :: !MayFail(s, w, id)
  }

  lemma StaysOutOfReach(s: State, s': State, l: Label, id: EventId)
    requires OutOfReach(s, id) && Next(s, s', l)
    ensures OutOfReach(s', id)
  {
    RowStaysOut(s, s', l, id);
    forall w ensures !MayFail(s', w, id) {
      assert !MayFail(s, w, id);
      NobodyGetsIt(s, s', l, id, w);
    }
  }

  lemma RowStaysOut(s: State, s': State, l: Label, id: EventId)
    requires OutOfReach(s, id) && Next(s, s', l)
    ensures id in s'.events && !Claimable(s'.events[id].row)
  {
    assert l.RecordFailureStep? || l.PublishStep? ==> !MayFail(s, l.w, id);
  }

  lemma NobodyGetsIt(s: State, s': State, l: Label, id: EventId, w: Worker)
    requires id in s.events && !Claimable(s.events[id].row) && !MayFail(s, w, id) && Next(s, s', l)
    ensures !MayFail(s', w, id)
  {
  }

  lemma {:induction false} OutOfReachForGood(r: Run, i: nat, id: EventId)
    requires IsRun(r) && i < |r.states| && OutOfReach(r.states[0], id)
    ensures OutOfReach(r.states[i], id)
    decreases i
  {
    if i > 0 {
      OutOfReachForGood(r, i - 1, id);
      StaysOutOfReach(r.states[i - 1], r.states[i], r.labels[i - 1], id);
    }
  }

  /******* Live messages and claimable rows *******/

  ghost predicate ClaimableWhileLive(s: State, m: Message) {
    Live(s, m) && m.origin in s.events && Claimable(s.events[m.origin].row)
  }

  // A worker that holds the claim can fail: Publish, and then the row is failed.
  lemma FailureFrees(s: State, w: Worker, m: Message) returns (s': State)
    requires m.origin in s.events && Live(s, m) && MayFail(s, w, m.origin)
    ensures CanReach(s, s') && ClaimableWhileLive(s', m)
  {
    var id := m.origin;
    ReachesSelf(s);
    var s1 := s;
    if s.publishers[w].Holding? {
      s1 := s.(events := s.events[id := Attempted(s.events[id], false, false)],
               publishers := s.publishers[w := Refused(id, s.publishers[w].snap)]);
      assert s1.queued == s.queued + multiset{};
      assert Publish(s, s1, w, false, false);
      ReachesNext(s, s, s1, PublishStep(w, false, false));
    }
    var row := FailureRow(RowOf(s1, id), s1.publishers[w].snap, "", s1.now);
    s' := s1.(events := s1.events[id := s1.events[id].(row := row)], publishers := s1.publishers - {w});
    assert RecordFailure(s1, s', w, "", s1.now, Done);
    ReachesNext(s, s1, s', RecordFailureStep(w, "", s1.now, Done));
    assert m !in s.queued ==> exists c :: c in s'.consumers && s'.consumers[c].message == m;
  }

  // While a message is live, its row can come to be claimable, now or later,
  // exactly if it is so now or some worker still owns the claim without having seen
  // Publish succeed.
  lemma ClaimableAgainExactlyWhen(s: State, m: Message)
    requires Inv(s) && Live(s, m)
    ensures m.origin in s.events
    ensures (exists s' :: CanReach(s, s') && ClaimableWhileLive(s', m))
       <==> Claimable(RowOf(s, m.origin)) || exists w :: MayFail(s, w, m.origin)
  {
    LiveMessageOk(s, m);
    if Claimable(RowOf(s, m.origin)) {
      ReachesSelf(s);
      assert ClaimableWhileLive(s, m);
    } else if w :| MayFail(s, w, m.origin) {
      var s' := FailureFrees(s, w, m);
    } else {
      forall s' | CanReach(s, s') ensures !ClaimableWhileLive(s', m) {
        var r :| IsRun(r) && r.states[0] == s && Last(r) == s';
        OutOfReachForGood(r, |r.states| - 1, m.origin);
      }
    }
  }

  /******* Stranded events *******/

  // Being processed, not published.
  predicate Unpublished(s: State, id: EventId) {
    id in s.events && s.events[id].row.status == Processing && s.events[id].successes == 0
  }

  predicate OwnedBy(s: State, w: Worker, id: EventId) {
    w in s.publishers && s.publishers[w].id == id && s.publishers[w].Owns()
  }

  ghost predicate Stranded(s: State, id: EventId) {
    Unpublished(s, id) && forall w :: !OwnedBy(s, w, id)
  }

  lemma StaysStranded(s: State, s': State, l: Label, id: EventId)
    requires Stranded(s, id) && Next(s, s', l)
    ensures Stranded(s', id)
  {
    StrandedRow(s, s', l, id);
    forall w ensures !OwnedBy(s', w, id) {
      assert !OwnedBy(s, w, id);
      NobodyOwnsIt(s, s', l, id, w);
    }
  }

  lemma StrandedRow(s: State, s': State, l: Label, id: EventId)
    requires Stranded(s, id) && Next(s, s', l)
    ensures Unpublished(s', id)
  {
    assert l.RecordFailureStep? || l.PublishStep? || l.MarkPublishedStep? ==> !OwnedBy(s, l.w, id);
  }

  lemma NobodyOwnsIt(s: State, s': State, l: Label, id: EventId, w: Worker)
    requires Unpublished(s, id) && !OwnedBy(s, w, id) && Next(s, s', l)
    ensures !OwnedBy(s', w, id)
  {
  }

  lemma {:induction false} StrandedForGood(r: Run, i: nat, id: EventId)
    requires IsRun(r) && i < |r.states| && Stranded(r.states[0], id)
    ensures Stranded(r.states[i], id)
    decreases i
  {
    if i > 0 {
      StrandedForGood(r, i - 1, id);
      StaysStranded(r.states[i - 1], r.states[i], r.labels[i - 1], id);
    }
  }

  lemma OwnerMovesOn(s: State, w: Worker, id: EventId) returns (s': State)
    requires Inv(s) && Unpublished(s, id) && OwnedBy(s, w, id)
    ensures CanReach(s, s') && !Unpublished(s', id)
  {
    assert PublisherOk(s.events, w, s.publishers[w]);
    ReachesSelf(s);
    var e := s.events[id];
    if s.publishers[w].Holding? {
      s' := s.(events := s.events[id := Attempted(e, true, false)], publishers := s.publishers[w := Sent(id)]);
      assert s'.queued == s.queued + multiset{};
      assert Publish(s, s', w, true, false);
      ReachesNext(s, s, s', PublishStep(w, true, false));
    } else {
      var row := FailureRow(e.row, s.publishers[w].snap, "", s.now);
      s' := s.(events := s.events[id := e.(row := row)], publishers := s.publishers - {w});
      assert RecordFailure(s, s', w, "", s.now, Done);
      ReachesNext(s, s, s', RecordFailureStep(w, "", s.now, Done));
    }
  }

  // A row that is being processed and was not published stays so for ever, whatever
  // anybody does, exactly if the worker that claimed it is gone: it crashed, or its
  // statement on the failure did not take effect.
  lemma StrandedExactlyWhen(s: State, id: EventId)
    requires Inv(s) && Unpublished(s, id)
    ensures (forall s' | CanReach(s, s') :: Unpublished(s', id)) <==> forall w :: !OwnedBy(s, w, id)
  {
    if w :| OwnedBy(s, w, id) {
      var s' := OwnerMovesOn(s, w, id);
    } else {
      forall s' | CanReach(s, s') ensures Unpublished(s', id) {
        var r :| IsRun(r) && r.states[0] == s && Last(r) == s';
        StrandedForGood(r, |r.states| - 1, id);
      }
    }
  }
}
