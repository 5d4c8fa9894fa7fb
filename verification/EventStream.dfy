// The goroutine behind FetchAnalysisEvents: a loop over a select on the client's
// context, two tickers and a channel of its own, with the client on the other end
// of a buffered channel of events.
module EventStream {
  import opened Prelude
  import opened AnalysisTable

  const EVENTS_CAPACITY: nat := 10
  const TOKEN_CAPACITY: nat := 1

  datatype EventType = StartedEvent | ProgressEvent | CompletedEvent | FailedEvent

  datatype Event = Heartbeat | Analysis(eventType: EventType, view: View)

  function EventOf(status: AnalysisStatus): EventType {
    match status
    case Requested => StartedEvent
    case InProgress => ProgressEvent
    case Completed => CompletedEvent
    case Failed => FailedEvent
  }

  predicate ShouldWait(e: EventType) {
    e != CompletedEvent && e != FailedEvent
  }

  // Where the goroutine is.
  datatype Phase =
    | Starting                                           // sending itself the first token
    | Selecting
    | Beating                                            // sending a heartbeat
    | Ticked                                             // sending itself a token
    | Polling                                            // in FetchAnalysis
    | Announcing(view: View)                             // sending the last event
    | Closed

  datatype State = State(
    phase: Phase,
    tokens: nat,                                         // in checkAnalysisChan
    buffered: seq<Event>,                                // in events
    cancelled: bool,                                     // the client's context
    sent: seq<Event>)                                    // history: what went into events

  const INIT: State := State(Starting, 0, [], false, [])

  datatype Step =
    | Begin
    | Cancelled
    | HeartbeatTick
    | SendHeartbeat
    | EventsTick
    | SendToken
    | TakeToken
    | Poll(answer: Option<View>)
    | SendLast
    | Receive                                            // the client takes an event
    | Leave                                              // the client cancels

  predicate Sends(s: State, s': State, e: Event, next: Phase) {
    && |s.buffered| < EVENTS_CAPACITY
    && s' == s.(phase := next, buffered := s.buffered + [e], sent := s.sent + [e])
  }

  predicate SendsToken(s: State, s': State) {
    s.tokens < TOKEN_CAPACITY && s' == s.(phase := Selecting, tokens := s.tokens + 1)
  }

  predicate Next(s: State, s': State, step: Step) {
    match step
    case Begin => s.phase.Starting? && SendsToken(s, s')
    case Cancelled => s.phase.Selecting? && s.cancelled && s' == s.(phase := Closed)
    case HeartbeatTick => s.phase.Selecting? && s' == s.(phase := Beating)
    case SendHeartbeat => s.phase.Beating? && Sends(s, s', Heartbeat, Selecting)
    case EventsTick => s.phase.Selecting? && s' == s.(phase := Ticked)
    case SendToken => s.phase.Ticked? && SendsToken(s, s')
    case TakeToken => s.phase.Selecting? && s.tokens > 0 && s' == s.(phase := Polling, tokens := s.tokens - 1)
    case Poll(answer) =>
      && s.phase.Polling?
      && s' == s.(phase := if answer.None? then Closed
                           else if ShouldWait(EventOf(answer.value.status)) then Selecting
                           else Announcing(answer.value))
    case SendLast =>
      && s.phase.Announcing?
      && Sends(s, s', Analysis(EventOf(s.phase.view.status), s.phase.view), Closed)
    case Receive => s.buffered != [] && s' == s.(buffered := s.buffered[1..])
    case Leave => s' == s.(cancelled := true)
  }

  predicate ByClient(step: Step) {
    step.Receive? || step.Leave?
  }

  datatype Run = Run(states: seq<State>, steps: seq<Step>)

  ghost predicate IsRun(r: Run) {
    && |r.states| == |r.steps| + 1
    && r.states[0] == INIT
    && forall k | 0 <= k < |r.steps| :: Next(r.states[k], r.states[k + 1], r.steps[k])
  }

  /******* What the client gets to see *******/

  predicate IsLast(e: Event) {
    && e.Analysis?
    && ((e.eventType == CompletedEvent && e.view.status == Completed)
        || (e.eventType == FailedEvent && e.view.status == Failed))
  }

  // Heartbeats, and behind them a last event only if the stream is closed.
  ghost predicate WellFormed(sent: seq<Event>, closed: bool) {
    forall i | 0 <= i < |sent| :: sent[i].Heartbeat? || (closed && i == |sent| - 1 && IsLast(sent[i]))
  }

  ghost predicate Inv(s: State) {
    && s.tokens <= TOKEN_CAPACITY
    && (s.phase.Starting? ==> s.tokens == 0)
    && (s.phase.Announcing? ==> !ShouldWait(EventOf(s.phase.view.status)))
    && WellFormed(s.sent, s.phase.Closed?)
    && |s.buffered| <= |s.sent| && s.buffered == s.sent[|s.sent| - |s.buffered|..]
    && |s.buffered| <= EVENTS_CAPACITY
  }

  lemma InvKept(s: State, s': State, step: Step)
    requires Inv(s) && Next(s, s', step)
    ensures Inv(s')
  {
    if step.SendHeartbeat? || step.SendLast? {
      assert s'.sent[..|s.sent|] == s.sent;
    }
  }

  lemma {:induction false} RunInv(r: Run, k: nat)
    requires IsRun(r) && k < |r.states|
    ensures Inv(r.states[k])
    decreases k
  {
    if k > 0 {
      RunInv(r, k - 1);
      InvKept(r.states[k - 1], r.states[k], r.steps[k - 1]);
    }
  }

  // A client sees heartbeats and then at most one event, completed or failed as the
  // analysis in it says; that event is the last of all, because the stream is then
  // closed. Its own channel never holds more than one token.
  lemma HeartbeatsThenOneEvent(r: Run, k: nat)
    requires IsRun(r) && k < |r.states|
    ensures r.states[k].tokens <= 1
    ensures forall i | 0 <= i < |r.states[k].sent| && !r.states[k].sent[i].Heartbeat? ::
      IsLast(r.states[k].sent[i]) && i == |r.states[k].sent| - 1 && r.states[k].phase.Closed?
  {
    RunInv(r, k);
  }

  // What a poll leads to: nothing is sent by it, a request that is not finished keeps
  // the stream open, a finished one is announced, and an error closes the stream.
  lemma PollDecides(s: State, s': State, answer: Option<View>)
    requires Next(s, s', Poll(answer))
    ensures s'.sent == s.sent && s'.buffered == s.buffered && s'.tokens == s.tokens
    ensures s'.phase.Closed? <==> answer.None?
    ensures s'.phase.Selecting? <==>
      answer.Some? && (answer.value.status == Requested || answer.value.status == InProgress)
    ensures s'.phase.Announcing? ==> answer.Some? && s'.phase.view == answer.value
    ensures s'.phase.Announcing? <==>
      answer.Some? && (answer.value.status == Completed || answer.value.status == Failed)
  {
  }

  // The view is one that a poll before k was answered with.
  ghost predicate Polled(r: Run, k: nat, view: View) {
    exists j :: 0 <= j < k && j < |r.steps| && r.steps[j] == Poll(Some(view))
  }

  lemma AnnouncingStep(s: State, s': State, step: Step)
    requires Next(s, s', step)
    ensures s'.phase.Announcing? ==> s.phase == s'.phase || step == Poll(Some(s'.phase.view))
    ensures s'.sent == s.sent || s'.sent == s.sent + [Heartbeat]
      || (s.phase.Announcing? && |s'.sent| == |s.sent| + 1 && s'.sent[..|s.sent|] == s.sent
          && s'.sent[|s.sent|].Analysis? && s'.sent[|s.sent|].view == s.phase.view)
  {
  }

  // What the client is told last is what a poll found: no event is made up.
  lemma {:induction false} ToldIsPolled(r: Run, k: nat)
    requires IsRun(r) && k < |r.states|
    ensures r.states[k].phase.Announcing? ==> Polled(r, k, r.states[k].phase.view)
    ensures forall i | 0 <= i < |r.states[k].sent| && r.states[k].sent[i].Analysis? ::
      Polled(r, k, r.states[k].sent[i].view)
    decreases k
  {
    if k > 0 {
      ToldIsPolled(r, k - 1);
      AnnouncingStep(r.states[k - 1], r.states[k], r.steps[k - 1]);
      forall i | 0 <= i < |r.states[k].sent| && r.states[k].sent[i].Analysis?
        ensures Polled(r, k, r.states[k].sent[i].view)
      {
        assert i < |r.states[k - 1].sent| ==> r.states[k].sent[i] == r.states[k - 1].sent[i];
        if i < |r.states[k - 1].sent| { assert Polled(r, k - 1, r.states[k].sent[i].view); }
      }
    }
  }

  predicate Closes(step: Step) {
    step.Cancelled? || step == Poll(None) || step.SendLast?
  }

  // The stream is closed exactly if the client's leaving was noticed, a poll failed,
  // or the last event was sent.
  lemma {:induction false} ClosedExactlyWhen(r: Run, k: nat)
    requires IsRun(r) && k < |r.states|
    ensures r.states[k].phase.Closed? <==> exists j :: 0 <= j < k && Closes(r.steps[j])
    decreases k
  {
    if k > 0 {
      ClosedExactlyWhen(r, k - 1);
      assert Next(r.states[k - 1], r.states[k], r.steps[k - 1]);
      if Closes(r.steps[k - 1]) { assert r.states[k].phase.Closed?; }
    }
  }

  // Once closed, the stream stays closed and as it is.
  lemma {:induction false} ClosedForGood(r: Run, j: nat, k: nat)
    requires IsRun(r) && j <= k < |r.states| && r.states[j].phase.Closed?
    ensures r.states[k].phase.Closed? && r.states[k].sent == r.states[j].sent
    decreases k
  {
    if j < k {
      ClosedForGood(r, j, k - 1);
      assert Next(r.states[k - 1], r.states[k], r.steps[k - 1]);
    }
  }

  /******* When the goroutine blocks on itself *******/

  // It is about to send a token into its own full channel, from which nobody else
  // receives.
  predicate SelfBlocked(s: State) {
    s.phase.Ticked? && s.tokens == TOKEN_CAPACITY
  }

  lemma {:induction false} SelfBlockedForGood(r: Run, j: nat, k: nat)
    requires IsRun(r) && j <= k < |r.states| && SelfBlocked(r.states[j])
    ensures SelfBlocked(r.states[k]) && r.states[k].sent == r.states[j].sent
    decreases k
  {
    if j < k {
      SelfBlockedForGood(r, j, k - 1);
      assert Next(r.states[k - 1], r.states[k], r.steps[k - 1]);
    }
  }

  lemma BlockingStep(s: State, s': State, step: Step)
    requires Inv(s) && Next(s, s', step)
    ensures SelfBlocked(s') <==> SelfBlocked(s) || (step.EventsTick? && s.tokens == TOKEN_CAPACITY)
  {
  }

  // The goroutine is blocked for good exactly if it ever preferred a tick to the
  // token that was waiting for it.
  lemma {:induction false} SelfBlockedExactlyWhen(r: Run, k: nat)
    requires IsRun(r) && k < |r.states|
    ensures SelfBlocked(r.states[k]) <==> exists j ::
      0 <= j < k && r.steps[j].EventsTick? && r.states[j].tokens == TOKEN_CAPACITY
    decreases k
  {
    if k > 0 {
      RunInv(r, k - 1);
      SelfBlockedExactlyWhen(r, k - 1);
      BlockingStep(r.states[k - 1], r.states[k], r.steps[k - 1]);
      if r.steps[k - 1].EventsTick? && r.states[k - 1].tokens == TOKEN_CAPACITY {
        assert SelfBlocked(r.states[k]);
      }
    }
  }

  // Which can happen at once: two steps lead there,
  lemma FirstTickBlocks() returns (r: Run)
    ensures IsRun(r) && |r.steps| == 2 && SelfBlocked(r.states[2])
  {
    var s1 := INIT.(phase := Selecting, tokens := 1);
    r := Run([INIT, s1, s1.(phase := Ticked)], [Begin, EventsTick]);
  }

  // and no client gets out of it.
  lemma FirstTickIsFinal(r: Run)
    requires IsRun(r) && |r.steps| >= 2 && r.steps[0].Begin? && r.steps[1].EventsTick?
    ensures forall k | 2 <= k < |r.states| :: !r.states[k].phase.Closed? && r.states[k].sent == []
  {
    assert Next(r.states[0], r.states[1], r.steps[0]) && Next(r.states[1], r.states[2], r.steps[1]);
    forall k | 2 <= k < |r.states|
      ensures !r.states[k].phase.Closed? && r.states[k].sent == []
    {
      SelfBlockedForGood(r, 2, k);
    }
  }

  predicate WaitsForClient(s: State) {
    (s.phase.Beating? || s.phase.Announcing?) && |s.buffered| == 10
  }

  // Otherwise the goroutine is never stuck before it closes, except on a client
  // that has left ten events unread.
  lemma StuckExactlyWhen(s: State)
    requires Inv(s)
    ensures (forall s', step | Next(s, s', step) :: ByClient(step))
      <==> s.phase.Closed? || SelfBlocked(s) || WaitsForClient(s)
  {
    if !(s.phase.Closed? || SelfBlocked(s) || WaitsForClient(s)) {
      var s', step := OwnStep(s);
      assert Next(s, s', step) && !ByClient(step);
    }
  }

  lemma OwnStep(s: State) returns (s': State, step: Step)
    requires Inv(s) && !s.phase.Closed? && !SelfBlocked(s) && !WaitsForClient(s)
    ensures Next(s, s', step) && !ByClient(step)
  {
    match s.phase
    case Starting =>
      step, s' := Begin, s.(phase := Selecting, tokens := s.tokens + 1);
    case Selecting =>
      step, s' := HeartbeatTick, s.(phase := Beating);
    case Beating =>
      step, s' := SendHeartbeat,
          s.(phase := Selecting, buffered := s.buffered + [Heartbeat], sent := s.sent + [Heartbeat]);
    case Ticked =>
      step, s' := SendToken, s.(phase := Selecting, tokens := s.tokens + 1);
    case Polling =>
      step, s' := Poll(None), s.(phase := Closed);
    case Announcing(view) =>
      var e := Analysis(EventOf(view.status), view);
      step, s' := SendLast, s.(phase := Closed, buffered := s.buffered + [e], sent := s.sent + [e]);
  }
}
