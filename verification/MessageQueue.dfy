// Consumed messages: the retry counter in their headers, the calls that settle
// them, and requeueing.
module MessageQueue {
  import opened Prelude
  import Decimal
  import OutboxTable

  const MAX_RETRY_COUNT: int := 10

  // The body of a message: a request that the worker understands, or something else.
  datatype Body = Request(payload: OutboxTable.Payload) | Foreign(json: string)

  // The x-retry-count header.
  datatype RetryHeader = Absent | Text(text: string) | NotText

  // A message as the broker holds it.
  datatype Wire = Wire(body: string, retries: RetryHeader)

  // encoding/json: marshalling may fail, and unmarshalling undoes it.
  datatype Codec = Codec(encode: Body -> Option<string>, decode: string -> Option<Body>)

  predicate RoundTrips(codec: Codec, b: Body) {
    codec.encode(b).Some? && codec.decode(codec.encode(b).value) == Some(b)
  }

  function RetryCount(header: RetryHeader): Option<int> {
    match header
    case Absent => Some(0)
    case NotText => None
    case Text(text) => Decimal.Atoi(text)
  }

  datatype Settlement = Ack | Nack(requeue: bool) | Reject(requeue: bool)

  class Delivery {
    const wire: Wire
    var calls: seq<Settlement>                           // history: what was sent back
    var settled: bool                                    // whether the broker took any of it

    constructor (wire: Wire)
      ensures this.wire == wire && calls == [] && !settled
    {
      this.wire := wire;
      calls := [];
      settled := false;
    }

    method Settle(settlement: Settlement, outcome: Outcome) returns (ok: bool)
      modifies this
      ensures calls == old(calls) + [settlement]
      ensures settled == (old(settled) || outcome.Applied())
      ensures ok == outcome.Done?
    {
      calls := calls + [settlement];
      settled := settled || outcome.Applied();
      ok := outcome.Done?;
    }
  }

  class Channel {
    var queued: seq<Wire>

    constructor ()
      ensures queued == []
    {
      queued := [];
    }

    // Not mandatory: a message that is routed nowhere is dropped without an error.
    method Publish(wire: Wire, accepted: bool, enqueued: bool) returns (ok: bool)
      modifies this
      ensures queued == if enqueued then old(queued) + [wire] else old(queued)
      ensures ok == accepted
    {
      if enqueued {
        queued := queued + [wire];
      }
      ok := accepted;
    }
  }

  datatype Requeued = Replaced | BadCount | CountExceeded | NotMarshalled | NotPublished | NotAcked

  // The message that takes the place of one with this body and header.
  function Replacement(codec: Codec, body: Body, retries: RetryHeader): Option<Wire> {
    var count := RetryCount(retries);
    var encoded := codec.encode(body);
    if count.None? || count.value > MAX_RETRY_COUNT || encoded.None? then None
    else Some(Wire(encoded.value, Text(Decimal.Print(count.value + 1))))
  }

  class MsgController {
    const channel: Channel
    const codec: Codec

    constructor (channel: Channel, codec: Codec)
      ensures this.channel == channel && this.codec == codec
    {
      this.channel := channel;
      this.codec := codec;
    }

    // The replacement is published before the original is acknowledged, and the
    // original is acknowledged only if publishing succeeded.
    method Requeue(body: Body, delivery: Delivery, accepted: bool, enqueued: bool, ack: Outcome)
      returns (result: Requeued)
      modifies channel, delivery
      ensures var replacement := Replacement(codec, body, delivery.wire.retries);
        && channel.queued == (if replacement.Some? && enqueued then old(channel.queued) + [replacement.value]
            else old(channel.queued))
        && delivery.calls == (if replacement.Some? && accepted then old(delivery.calls) + [Ack]
            else old(delivery.calls))
        && delivery.settled == (old(delivery.settled) || (replacement.Some? && accepted && ack.Applied()))
        && (result == Replaced <==> replacement.Some? && accepted && ack.Done?)
      ensures result == BadCount <==> RetryCount(delivery.wire.retries).None?
      ensures result == CountExceeded <==>
        RetryCount(delivery.wire.retries).Some? && RetryCount(delivery.wire.retries).value > MAX_RETRY_COUNT
      ensures result == NotMarshalled <==>
        && RetryCount(delivery.wire.retries).Some? && RetryCount(delivery.wire.retries).value <= MAX_RETRY_COUNT
        && codec.encode(body).None?
      ensures result == NotPublished <==> Replacement(codec, body, delivery.wire.retries).Some? && !accepted
      ensures result == NotAcked <==> Replacement(codec, body, delivery.wire.retries).Some? && accepted && !ack.Done?
      // The message is lost only if the broker took it and put it nowhere.
      ensures !old(delivery.settled) && delivery.settled && channel.queued == old(channel.queued) ==>
        accepted && !enqueued
    {
      var count := RetryCount(delivery.wire.retries);
      if count.None? {
        return BadCount;
      }
      if count.value > MAX_RETRY_COUNT {
        return CountExceeded;
      }
      var encoded := codec.encode(body);
      if encoded.None? {
        return NotMarshalled;
      }
      var ok := channel.Publish(Wire(encoded.value, Text(Decimal.Print(count.value + 1))), accepted, enqueued);
      if !ok {
        return NotPublished;
      }
      ok := delivery.Settle(Ack, ack);
      if !ok {
        return NotAcked;
      }
      return Replaced;
    }
  }

  /******* Chains of requeues *******/

  // What takes the place of a message that is consumed and requeued.
  function Hop(codec: Codec, wire: Wire): Option<Wire> {
    var body := codec.decode(wire.body);
    if body.None? then None else Replacement(codec, body.value, wire.retries)
  }

  function Hops(codec: Codec): Wire -> Option<Wire> {
    wire => Hop(codec, wire)
  }

  // What is in the queue after k hops.
  function AfterRequeues(hop: Wire -> Option<Wire>, wire: Wire, k: nat): Option<Wire> {
    if k == 0 then Some(wire)
    else
      var previous := AfterRequeues(hop, wire, k - 1);
      if previous.None? then None else hop(previous.value)
  }

  predicate Carries(codec: Codec, wire: Wire, body: Body, count: int) {
    codec.decode(wire.body) == Some(body) && RetryCount(wire.retries) == Some(count)
  }

  function Max(a: int, b: int): int {
    if a >= b then a else b
  }

  lemma OneHop(codec: Codec, wire: Wire, body: Body, count: int)
    requires RoundTrips(codec, body) && Carries(codec, wire, body, count)
    ensures Hop(codec, wire).Some? <==> count <= MAX_RETRY_COUNT
    ensures Hop(codec, wire).Some? ==> Carries(codec, Hop(codec, wire).value, body, count + 1)
  {
    Decimal.AtoiPrint(count + 1);
    assert wire.retries.Text? ==> Decimal.InRange(count);
  }

  // If every hop counts one up and stops beyond the maximum, so does a chain.
  lemma {:induction false} ChainCounts(hop: Wire -> Option<Wire>, carries: (Wire, int) -> bool, wire: Wire, count: int,
      k: nat)
    requires forall w, n | carries(w, n) :: hop(w).Some? <==> n <= MAX_RETRY_COUNT
    requires forall w, n | carries(w, n) && hop(w).Some? :: carries(hop(w).value, n + 1)
    requires carries(wire, count)
    ensures AfterRequeues(hop, wire, k).Some? <==> k == 0 || count + k - 1 <= MAX_RETRY_COUNT
    ensures AfterRequeues(hop, wire, k).Some? ==> carries(AfterRequeues(hop, wire, k).value, count + k)
  {
    if k > 0 {
      ChainCounts(hop, carries, wire, count, k - 1);
    }
  }

  // The counter survives being printed and parsed: each hop reads one more than
  // the one before, and the body decodes to what it was.
  lemma HopsCount(codec: Codec, wire: Wire, body: Body, count: int, k: nat)
    requires RoundTrips(codec, body) && Carries(codec, wire, body, count)
    ensures AfterRequeues(Hops(codec), wire, k).Some? <==> k == 0 || count + k - 1 <= MAX_RETRY_COUNT
    ensures AfterRequeues(Hops(codec), wire, k).Some?
      ==> Carries(codec, AfterRequeues(Hops(codec), wire, k).value, body, count + k)
  {
    forall w, n | Carries(codec, w, body, n)
      ensures (Hops(codec)(w).Some? <==> n <= MAX_RETRY_COUNT)
        && (Hops(codec)(w).Some? ==> Carries(codec, Hops(codec)(w).value, body, n + 1))
    {
      OneHop(codec, w, body, n);
    }
    ChainCounts(Hops(codec), (w, n) => Carries(codec, w, body, n), wire, count, k);
  }

  // From a count c a message can be requeued exactly max(0, 11 - c) times, from no
  // header at all eleven times, and it carries the same body all along.
  lemma ChainLength(codec: Codec, wire: Wire, body: Body, count: int, k: nat)
    requires RoundTrips(codec, body) && Carries(codec, wire, body, count)
    ensures AfterRequeues(Hops(codec), wire, k).Some? <==> k <= Max(0, MAX_RETRY_COUNT + 1 - count)
    ensures wire.retries.Absent? ==> (AfterRequeues(Hops(codec), wire, k).Some? <==> k <= 11)
    ensures AfterRequeues(Hops(codec), wire, k).Some?
      ==> codec.decode(AfterRequeues(Hops(codec), wire, k).value.body) == Some(body)
  {
    HopsCount(codec, wire, body, count, k);
  }

  // A header that is not a number stops the message at once; it is then neither
  // republished nor acknowledged.
  lemma UnreadableCounterStops(codec: Codec, wire: Wire, k: nat)
    requires RetryCount(wire.retries).None? && k > 0
    ensures AfterRequeues(Hops(codec), wire, k).None?
  {
    assert Hops(codec)(wire).None?;
    if k > 1 {
      UnreadableCounterStops(codec, wire, k - 1);
    }
  }

  // The live copies of one message over a chain of consumers, each of which gets
  // the newest copy and requeues it, with whatever outcomes: the chain never ends
  // without a copy left unless a broker that accepted the message dropped it.
  datatype Attempt = Attempt(accepted: bool, enqueued: bool, ack: Outcome)

  function LiveAfter(codec: Codec, wire: Wire, attempts: seq<Attempt>): nat
    decreases |attempts|
  {
    if attempts == [] || Hop(codec, wire).None? then 1
    else
      var a := attempts[0];
      (if a.accepted && a.ack.Applied() then 0 else 1)
      + (if a.enqueued then LiveAfter(codec, Hop(codec, wire).value, attempts[1..]) else 0)
  }

  // An attempt that hands the message on, and one that loses it.
  predicate HandsOn(a: Attempt) {
    a.accepted && a.ack.Applied() && a.enqueued
  }

  predicate Loses(a: Attempt) {
    a.accepted && a.ack.Applied() && !a.enqueued
  }

  lemma {:induction false} HopFirst(hop: Wire -> Option<Wire>, wire: Wire, k: nat)
    requires hop(wire).Some?
    ensures AfterRequeues(hop, wire, k + 1) == AfterRequeues(hop, hop(wire).value, k)
  {
    if k > 0 {
      HopFirst(hop, wire, k - 1);
    } else {
      assert AfterRequeues(hop, wire, 0) == Some(wire);
    }
  }

  lemma {:induction false} NoHopAfter(hop: Wire -> Option<Wire>, wire: Wire, k: nat)
    requires hop(wire).None?
    ensures AfterRequeues(hop, wire, k + 1).None?
  {
    if k > 0 {
      NoHopAfter(hop, wire, k - 1);
    } else {
      assert AfterRequeues(hop, wire, 0) == Some(wire);
    }
  }

  // After k attempts that handed the message on, one more loses it.
  ghost predicate LostAt(codec: Codec, wire: Wire, attempts: seq<Attempt>, k: nat) {
    && k < |attempts| && AfterRequeues(Hops(codec), wire, k + 1).Some?
    && (forall i | 0 <= i < k :: HandsOn(attempts[i]))
    && Loses(attempts[k])
  }

  lemma LostLater(codec: Codec, wire: Wire, attempts: seq<Attempt>, k: nat)
    requires attempts != [] && Hop(codec, wire).Some? && HandsOn(attempts[0])
    ensures LostAt(codec, wire, attempts, k + 1) <==> LostAt(codec, Hop(codec, wire).value, attempts[1..], k)
  {
    HopFirst(Hops(codec), wire, k + 1);
    if LostAt(codec, wire, attempts, k + 1) {
      assert forall i | 0 <= i < k :: HandsOn(attempts[1..][i]) by {
        forall i | 0 <= i < k ensures HandsOn(attempts[1..][i]) { assert HandsOn(attempts[i + 1]); }
      }
    }
    if LostAt(codec, Hop(codec, wire).value, attempts[1..], k) {
      forall i | 0 <= i < k + 1 ensures HandsOn(attempts[i]) {
        if i > 0 { assert HandsOn(attempts[1..][i - 1]); }
      }
    }
  }

  // No copy is left exactly if some attempt that could republish the message had it
  // accepted, acknowledged the original, and the broker had put it nowhere, all
  // attempts before having handed it on.
  lemma {:induction false} NoCopyExactlyWhen(codec: Codec, wire: Wire, attempts: seq<Attempt>)
    ensures LiveAfter(codec, wire, attempts) == 0 <==> exists k: nat :: LostAt(codec, wire, attempts, k)
    decreases |attempts|
  {
    if attempts != [] {
      if Hop(codec, wire).None? {
        forall k: nat ensures !LostAt(codec, wire, attempts, k) { NoHopAfter(Hops(codec), wire, k); }
      } else if !HandsOn(attempts[0]) {
        HopFirst(Hops(codec), wire, 0);
        if Loses(attempts[0]) {
          assert LostAt(codec, wire, attempts, 0);
        }
      } else {
        var next := Hop(codec, wire).value;
        NoCopyExactlyWhen(codec, next, attempts[1..]);
        if k: nat :| LostAt(codec, next, attempts[1..], k) {
          LostLater(codec, wire, attempts, k);
          assert LostAt(codec, wire, attempts, k + 1);
        } else {
          forall k: nat ensures !LostAt(codec, wire, attempts, k) {
            if k > 0 { LostLater(codec, wire, attempts, k - 1); }
          }
        }
      }
    }
  }

  predicate NeverDrops(attempts: seq<Attempt>) {
    forall i | 0 <= i < |attempts| :: attempts[i].accepted ==> attempts[i].enqueued
  }

  // So a copy is always left if the broker never drops what it accepted.
  lemma SomeCopyLives(codec: Codec, wire: Wire, attempts: seq<Attempt>)
    requires NeverDrops(attempts)
    ensures LiveAfter(codec, wire, attempts) >= 1
  {
    NoCopyExactlyWhen(codec, wire, attempts);
  }
}
