// The delivery loop of a consumer with the analysis worker as its handler.
module Consumer {
  import opened Prelude
  import O = OutboxTable
  import S = SubscriberService
  import opened MessageQueue

  // How the world answers: what the calls of a request come to, given what is in
  // the tables when the request starts.
  datatype Oracle = Oracle(calls: (S.World, Uuid) -> S.Calls, settle: Wire -> Outcome)

  ghost predicate Honest(service: S.Service, oracle: Oracle) {
    forall w: S.World, id: Uuid :: S.Truthful(service.env, w, id, oracle.calls(w, id))
  }

  class AnalysisWorker {
    const service: S.Service
    const codec: Codec

    constructor (service: S.Service, codec: Codec)
      ensures this.service == service && this.codec == codec
    {
      this.service := service;
      this.codec := codec;
    }

    // ProcessAnalysisMessageHandler: whatever goes wrong is in the result, the
    // error is always nil.
    method Handle(payload: O.Payload, c: S.Calls) returns (result: S.Result, err: bool)
      requires S.Truthful(service.env, service.TheWorld(), payload.analysisId, c)
      modifies service.analyses, service.outbox, service.Caches()
      ensures !err
      ensures S.End(service.TheWorld(), result)
           == S.Handled(service.env, service.cache != null, old(service.TheWorld()), payload.analysisId, c)
    {
      result := service.ProcessAnalysisRequest(payload.analysisId, c);
      err := false;
    }

    method ProcessMessage(body: Body, delivery: Delivery, oracle: Oracle) returns (ok: bool)
      requires Honest(service, oracle)
      modifies service.analyses, service.outbox, service.Caches(), delivery
      ensures delivery.calls == old(delivery.calls) + [if body.Request? then Ack else Reject(false)]
      ensures delivery.settled == (old(delivery.settled) || oracle.settle(delivery.wire).Applied())
      ensures ok == oracle.settle(delivery.wire).Done?
      ensures service.TheWorld() == WorldAfter(service, old(service.TheWorld()), Some(body), oracle)
    {
      if !body.Request? {
        ok := delivery.Settle(Reject(false), oracle.settle(delivery.wire));
        return;
      }
      var result, err := Handle(body.payload, oracle.calls(service.TheWorld(), body.payload.analysisId));
      if err {
        assert false;                                    // Requeue is never reached
      }
      ok := delivery.Settle(Ack, oracle.settle(delivery.wire));
    }

    // The loop of StartConsumer over what arrives before the context is cancelled
    // or the delivery channel is closed. An error of the handler changes nothing.
    method StartConsumer(deliveries: seq<Delivery>, oracle: Oracle)
      requires Honest(service, oracle)
      requires forall i, j | 0 <= i < j < |deliveries| :: deliveries[i] != deliveries[j]
      modifies service.analyses, service.outbox, service.Caches(), deliveries
      ensures forall i | 0 <= i < |deliveries| ::
        deliveries[i].calls == old(deliveries[i].calls) + [Answer(codec, deliveries[i].wire)]
      ensures forall i | 0 <= i < |deliveries| :: var body := codec.decode(deliveries[i].wire.body);
        deliveries[i].calls == old(deliveries[i].calls)
          + [if body.None? then Nack(false) else if body.value.Request? then Ack else Reject(false)]
      ensures service.TheWorld() == Consumed(service, codec, old(service.TheWorld()), WiresOf(deliveries), oracle)
    {
      var i := 0;
      while i < |deliveries|
        invariant 0 <= i <= |deliveries|
        invariant forall j | 0 <= j < i ::
          deliveries[j].calls == old(deliveries[j].calls) + [Answer(codec, deliveries[j].wire)]
        invariant forall j | i <= j < |deliveries| :: deliveries[j].calls == old(deliveries[j].calls)
        invariant Consumed(service, codec, service.TheWorld(), WiresOf(deliveries[i..]), oracle)
               == Consumed(service, codec, old(service.TheWorld()), WiresOf(deliveries), oracle)
      {
        assert deliveries[i..][0] == deliveries[i] && deliveries[i..][1..] == deliveries[i + 1..];
        var body := codec.decode(deliveries[i].wire.body);
        if body.None? {
          var _ := deliveries[i].Settle(Nack(false), oracle.settle(deliveries[i].wire));
        } else {
          var _ := ProcessMessage(body.value, deliveries[i], oracle);
        }
        i := i + 1;
      }
    }
  }

  function WiresOf(deliveries: seq<Delivery>): seq<Wire> {
    if deliveries == [] then [] else [deliveries[0].wire] + WiresOf(deliveries[1..])
  }

  // The one call with which a delivery is answered.
  function Answer(codec: Codec, wire: Wire): Settlement {
    match codec.decode(wire.body)
    case None => Nack(false)
    case Some(Request(_)) => Ack
    case Some(Foreign(_)) => Reject(false)
  }

  function WorldAfter(service: S.Service, w: S.World, body: Option<Body>, oracle: Oracle): S.World {
    if body.Some? && body.value.Request? then
      var id := body.value.payload.analysisId;
      S.Handled(service.env, service.cache != null, w, id, oracle.calls(w, id)).world
    else w
  }

  function Consumed(service: S.Service, codec: Codec, w: S.World, wires: seq<Wire>, oracle: Oracle): S.World
    decreases |wires|
  {
    if wires == [] then w
    else Consumed(service, codec, WorldAfter(service, w, codec.decode(wires[0].body), oracle), wires[1..], oracle)
  }

  predicate AsksFor(body: Option<Body>, id: Uuid) {
    body.Some? && body.value.Request? && body.value.payload.analysisId == id
  }

  // A row whose analysis none of the messages asks for is left as it was.
  lemma {:induction false} OthersUntouched(service: S.Service, codec: Codec, w: S.World, wires: seq<Wire>,
      oracle: Oracle, id: Uuid)
    requires forall i | 0 <= i < |wires| :: !AsksFor(codec.decode(wires[i].body), id)
    requires id in w.rows
    ensures id in Consumed(service, codec, w, wires, oracle).rows
    ensures Consumed(service, codec, w, wires, oracle).rows[id] == w.rows[id]
    decreases |wires|
  {
    if wires != [] {
      var body := codec.decode(wires[0].body);
      if body.Some? && body.value.Request? {
        var own := body.value.payload.analysisId;
        S.OnlyItsOwn(service.env, service.cache != null, w, own, oracle.calls(w, own));
      }
      OthersUntouched(service, codec, WorldAfter(service, w, body, oracle), wires[1..], oracle, id);
    }
  }
}
