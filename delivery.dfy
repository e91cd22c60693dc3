/**
 * Deliveries handled one after another against the shared cache: the
 * best-effort at-most-once guarantee that the dedup step gives while Redis
 * answers and no entry expires.
 */
module Delivery {
  import opened Wrappers
  import opened Webhook

  /** One incoming request and what the collaborators do while it is handled. */
  datatype Delivery = Delivery(request: Request, world: World)

  /** The results of handling the deliveries in order, each seeing the cache the previous one left. */
  function Replay(cache: Cache, svc: Service, deliveries: seq<Delivery>): (results: seq<Handled>)
    ensures |results| == |deliveries|
    decreases |deliveries|
  {
    if deliveries == [] then []
    else
      var first := Handle(cache, svc, deliveries[0].request, deliveries[0].world);
      [first] + Replay(first.cache, svc, deliveries[1..])
  }

  /** Handling a request never removes a recorded delivery id. */
  lemma HandleKeepsRecordedIds(cache: Cache, svc: Service, req: Request, world: World)
    ensures cache.Keys <= Handle(cache, svc, req, world).cache.Keys
  {
  }

  /** Once an id is recorded, every later delivery with it whose existence check succeeds is a no-op duplicate. */
  lemma {:induction false} RecordedIdStaysDuplicate(cache: Cache, svc: Service, deliveries: seq<Delivery>, id: string, j: nat)
    requires id != "" && id in cache
    requires j < |deliveries|
    requires deliveries[j].request.deliveryId == Some(id)
    requires deliveries[j].world.cacheFault != ExistsFails
    ensures Replay(cache, svc, deliveries)[j].response == DuplicateResponse
    ensures Replay(cache, svc, deliveries)[j].effects == NoEffects
    decreases j
  {
    var first := Handle(cache, svc, deliveries[0].request, deliveries[0].world);
    if j > 0 {
      HandleKeepsRecordedIds(cache, svc, deliveries[0].request, deliveries[0].world);
      RecordedIdStaysDuplicate(first.cache, svc, deliveries[1..], id, j - 1);
    }
  }

  /**
   * At most once: if Redis was healthy when a delivery id was first handled,
   * any later delivery with the same id (whose existence check succeeds) is
   * answered as a duplicate and requests no ticket and no comment.
   */
  lemma {:induction false} AtMostOnce(cache: Cache, svc: Service, deliveries: seq<Delivery>, i: nat, j: nat)
    requires i < j < |deliveries|
    requires HasDeliveryId(deliveries[i].request.deliveryId)
    requires deliveries[j].request.deliveryId == deliveries[i].request.deliveryId
    requires deliveries[i].world.cacheFault == Healthy
    requires deliveries[j].world.cacheFault != ExistsFails
    ensures Replay(cache, svc, deliveries)[j].response == DuplicateResponse
    ensures Replay(cache, svc, deliveries)[j].effects == NoEffects
    decreases i
  {
    var first := Handle(cache, svc, deliveries[0].request, deliveries[0].world);
    if i > 0 {
      AtMostOnce(first.cache, svc, deliveries[1..], i - 1, j - 1);
    } else {
      var id := deliveries[0].request.deliveryId.value;
      assert id in first.cache;
      RecordedIdStaysDuplicate(first.cache, svc, deliveries[1..], id, j - 1);
    }
  }

  /** Once its entry has expired, a delivery id is processed again as new and recorded afresh. */
  lemma ExpiredIdIsProcessedAgain(cache: Cache, svc: Service, req: Request, world: World)
    requires HasDeliveryId(req.deliveryId) && world.cacheFault == Healthy
    ensures var h := Handle(cache - {req.deliveryId.value}, svc, req, world);
      && (h.response, h.effects) == Respond(Process(svc, req, world))
      && h.cache == (cache - {req.deliveryId.value})[req.deliveryId.value := Processed]
  {
  }
}
