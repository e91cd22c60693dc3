/**
 * The running service: the Redis client as an object whose entries change
 * in place, and the Flask view `create_jira` as a method that updates it
 * step by step with the early returns of
 * app/fully_automated_jira_github.py:83-157. The method is proved to do
 * exactly what `Webhook.Handle` specifies.
 */
module Handler {
  import opened Wrappers
  import Config
  import Signature
  import Compose
  import opened Webhook

  /** The Redis store shared by all requests: delivery ids and their entries. */
  class DeliveryCache {
    var entries: Cache

    constructor (initial: Cache)
      ensures entries == initial
    {
      entries := initial;
    }

    /** `cache.exists(key)`: `None` when the call raises (connection, timeout or other error). */
    method Exists(key: string, fails: bool) returns (present: Option<bool>)
      ensures present == if fails then None else Some(key in entries)
    {
      if fails {
        present := None;
      } else {
        present := Some(key in entries);
      }
    }

    /** `cache.setex(key, ttl, value)`: writes the entry unless the call raises. */
    method Setex(key: string, ttl: nat, value: string, fails: bool) returns (written: bool)
      modifies this
      ensures written == !fails
      ensures entries == if fails then old(entries) else old(entries)[key := CacheEntry(value, ttl)]
    {
      written := !fails;
      if !fails {
        entries := entries[key := CacheEntry(value, ttl)];
      }
    }

    /** Redis dropping a key once its time-to-live has run out. */
    method Expire(key: string)
      modifies this
      ensures entries == old(entries) - {key}
    {
      entries := entries - {key};
    }
  }

  /** The module-level state of the Flask app and its one view. */
  class WebhookHandler {
    const service: Service
    const cache: DeliveryCache

    constructor (service: Service, cache: DeliveryCache)
      ensures this.service == service && this.cache == cache
    {
      this.service := service;
      this.cache := cache;
    }

    /** `create_jira()` for one request, given what the collaborators do on it. */
    method CreateJira(req: Request, world: World) returns (response: Response, effects: Effects)
      modifies cache
      ensures Handled(response, cache.entries, effects) == Handle(old(cache.entries), service, req, world)
    {
      var id := req.deliveryId;
      if id.Some? && id.value != "" {
        var present := cache.Exists(id.value, world.cacheFault == ExistsFails);
        if present == Some(true) {
          return DuplicateResponse, NoEffects;
        }
        if present.Some? {
          var written := cache.Setex(id.value, Config.OneDay, "processed", world.cacheFault == SetexFails);
        }
      }

      // From here on every exception, abort(403) included, is answered 500.
      var verified := Signature.VerifySignature(service.config.secret, req.body, req.signature, service.hmac);
      if verified != Ok(true) {
        return ServerErrorResponse, NoEffects;
      }
      var triggered := CommentTriggers(req.payload.comment);
      if triggered.Err? {
        return ServerErrorResponse, NoEffects;
      }
      if !triggered.value {
        return NoKeywordResponse, NoEffects;
      }
      var fields := ExtractIssue(req.payload.issue);
      if fields.Err? {
        return ServerErrorResponse, NoEffects;
      }
      var ticket := Ticket(service, fields.value);
      if world.ticketKey.None? {
        return ServerErrorResponse, Effects(Some(ticket), None);
      }
      var key := world.ticketKey.value;
      var message := Compose.Confirmation(RenderSetting(service.config.jiraServer), key);
      effects := Effects(Some(ticket), Some(CommentPost(Compose.CommentsUrl(fields.value.apiUrl), message)));
      if world.commentPostFails {
        return ServerErrorResponse, effects;
      }
      response := CreatedResponse(key);
    }
  }

  /**
   * A redelivery: the same request handled twice while Redis is healthy.
   * The second answer is the duplicate response and requests nothing, even
   * though the first one may have failed.
   */
  method Redeliver(handler: WebhookHandler, req: Request, world: World)
    returns (first: Response, second: Response, secondEffects: Effects)
    requires HasDeliveryId(req.deliveryId) && world.cacheFault == Healthy
    modifies handler.cache
    ensures second == DuplicateResponse && secondEffects == NoEffects
  {
    var effects;
    first, effects := handler.CreateJira(req, world);
    second, secondEffects := handler.CreateJira(req, world);
  }
}
