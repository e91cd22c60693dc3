/**
 * One run of `create_jira` (app/fully_automated_jira_github.py:83-157) as a
 * step function: from the dedup cache, the request and what the outside
 * world does on this request, to the response, the new cache and the
 * external effects (the ticket requested and the comment posted).
 */
module Webhook {
  import opened Wrappers
  import opened Errors
  import Config
  import Signature
  import Compose

  /** A string leaf of the JSON payload: key absent, JSON `null`, or a string. */
  datatype JsonText = Missing | Null | Str(text: string)

  /** An object-valued key of the JSON payload: key absent, JSON `null`, or an object. */
  datatype JsonNode<+T> = Absent | NullNode | Node(obj: T)

  datatype Comment = Comment(body: JsonText)
  datatype User = User(login: JsonText)
  datatype Issue = Issue(title: JsonText, htmlUrl: JsonText, user: JsonNode<User>, url: JsonText, body: JsonText)

  /** The parsed `request.json`. */
  datatype Payload = Payload(comment: JsonNode<Comment>, issue: JsonNode<Issue>)

  /** The headers `X-GitHub-Delivery` and `X-Hub-Signature-256`, the raw body and the parsed payload. */
  datatype Request = Request(
    deliveryId: Option<string>,
    signature: Option<string>,
    body: seq<Signature.byte>,
    payload: Payload)

  /** Which Redis call, if any, raises on this request. */
  datatype CacheFault = Healthy | ExistsFails | SetexFails

  /**
   * What the collaborators do on this request: Redis, the Jira client
   * (`None` when `create_issue` raises, else the new ticket's key) and
   * `requests.post`.
   */
  datatype World = World(cacheFault: CacheFault, ticketKey: Option<string>, commentPostFails: bool)

  /** A Redis entry: its value and the time-to-live it was written with, in seconds. */
  datatype CacheEntry = CacheEntry(value: string, ttl: nat)
  type Cache = map<string, CacheEntry>

  /** `cache.setex(delivery_id, Config.ONE_DAY, "processed")` writes this entry. */
  const Processed := CacheEntry("processed", Config.OneDay)

  /** What the module sets up at import: `Config`, the fixed `due_date`, and the HMAC in use. */
  datatype Service = Service(config: Config.Settings, dueDate: string, hmac: Signature.HexHmac)

  datatype ResponseBody = JsonObject(fields: seq<(string, string)>) | PlainText(text: string)
  datatype Response = Response(status: int, body: ResponseBody)

  const DuplicateResponse := Response(200, JsonObject([("status", "ignored"), ("reason", "duplicate request")]))
  const NoKeywordResponse := Response(200, JsonObject([("Status", "ignored"), ("reason", "no keyword")]))
  const ServerErrorResponse := Response(500, PlainText("Internal Server Error"))

  function CreatedResponse(key: string): Response {
    Response(201, JsonObject([("status", "success"), ("Jira_key", key)]))
  }

  /** The arguments of `jira_client.create_issue`. */
  datatype TicketRequest = TicketRequest(
    project: string,
    summary: string,
    description: string,
    issueType: string,
    dueDate: string)

  /** The URL and message of `post_github_comment`. */
  datatype CommentPost = CommentPost(url: string, message: string)

  /** The outside calls a request made, whether or not they succeeded. */
  datatype Effects = Effects(ticket: Option<TicketRequest>, comment: Option<CommentPost>)

  const NoEffects := Effects(None, None)

  /** How the `try` block at lines 105-153 ends. */
  datatype Attempt = Returned(response: Response, effects: Effects) | Raised(exception: Exception, effects: Effects)

  /** The result of one request. */
  datatype Handled = Handled(response: Response, cache: Cache, effects: Effects)

  datatype DedupVerdict = Duplicate | Proceed(cache: Cache)

  /** `if delivery_id:` is taken: the header is present and not empty. */
  predicate HasDeliveryId(id: Option<string>) {
    id.Some? && id.value != ""
  }

  /**
   * Lines 89-103: a known id is a duplicate; an unknown one is recorded for
   * a day. A failing Redis call is swallowed and the request proceeds.
   */
  function Dedup(cache: Cache, id: Option<string>, fault: CacheFault): DedupVerdict {
    if !HasDeliveryId(id) then Proceed(cache)
    else if fault == ExistsFails then Proceed(cache)
    else if id.value in cache then Duplicate
    else if fault == SetexFails then Proceed(cache)
    else Proceed(cache[id.value := Processed])
  }

  /** A payload string as an f-string shows it: an absent key raises, `null` shows as `None`. */
  function Render(field: JsonText): Result<string, Exception> {
    match field
    case Missing => Err(KeyError)
    case Null => Ok("None")
    case Str(s) => Ok(s)
  }

  /** A `Config` attribute as an f-string shows it. */
  function RenderSetting(setting: Option<string>): string {
    if setting.None? then "None" else setting.value
  }

  /**
   * Line 113: `'comment' in payload and '/jira' in payload['comment'].get('body', '').lower()`.
   * A `null` comment has no `get`, a `null` body no `lower`: both raise `AttributeError`.
   */
  function CommentTriggers(comment: JsonNode<Comment>): Result<bool, Exception> {
    match comment
    case Absent => Ok(false)
    case NullNode => Err(AttributeError)
    case Node(c) =>
      match c.body
      case Missing => Ok(Compose.HasTrigger(""))
      case Null => Err(AttributeError)
      case Str(s) => Ok(Compose.HasTrigger(s))
  }

  /** The fields read at lines 114-122, the issue body already sanitised. */
  datatype IssueFields = IssueFields(title: string, htmlUrl: string, commenter: string, apiUrl: string, body: string)

  /**
   * Lines 114-122, in their order: a missing key raises `KeyError`, indexing
   * a `null` issue or user raises `TypeError`, and a `null` body has no
   * `splitlines`, so it raises `AttributeError`.
   */
  function ExtractIssue(issue: JsonNode<Issue>): Result<IssueFields, Exception> {
    match issue
    case Absent => Err(KeyError)
    case NullNode => Err(TypeError)
    case Node(i) =>
      var title :- Render(i.title);
      var htmlUrl :- Render(i.htmlUrl);
      var commenter :- match i.user
        case Absent => Err(KeyError)
        case NullNode => Err(TypeError)
        case Node(u) => Render(u.login);
      var apiUrl :- Render(i.url);
      var body :- match i.body
        case Missing => Err(KeyError)
        case Null => Err(AttributeError)
        case Str(s) => Ok(Compose.SanitizeBody(s));
      Ok(IssueFields(title, htmlUrl, commenter, apiUrl, body))
  }

  /** The ticket requested for a triggering comment (lines 127-141). */
  function Ticket(svc: Service, fields: IssueFields): TicketRequest {
    TicketRequest(
      svc.config.projectKey,
      Compose.Summary(fields.title),
      Compose.Description(fields.commenter, fields.body, fields.htmlUrl),
      "Issue",
      svc.dueDate)
  }

  /** Lines 126-149: create the ticket, then post the confirmation; either call may raise. */
  function CreateTicket(svc: Service, fields: IssueFields, world: World): Attempt {
    var ticket := Ticket(svc, fields);
    match world.ticketKey
    case None => Raised(TrackerError, Effects(Some(ticket), None))
    case Some(key) =>
      var post := CommentPost(
        Compose.CommentsUrl(fields.apiUrl),
        Compose.Confirmation(RenderSetting(svc.config.jiraServer), key));
      if world.commentPostFails then Raised(RequestError, Effects(Some(ticket), Some(post)))
      else Returned(CreatedResponse(key), Effects(Some(ticket), Some(post)))
  }

  /** The `try` block, lines 105-153: verify, detect the trigger, create the ticket. */
  function Process(svc: Service, req: Request, world: World): Attempt {
    match Signature.VerifySignature(svc.config.secret, req.body, req.signature, svc.hmac)
    case Err(e) => Raised(e, NoEffects)
    case Ok(valid) =>
      if !valid then Raised(Forbidden, NoEffects)
      else
        match CommentTriggers(req.payload.comment)
        case Err(e) => Raised(e, NoEffects)
        case Ok(triggered) =>
          if !triggered then Returned(NoKeywordResponse, NoEffects)
          else
            match ExtractIssue(req.payload.issue)
            case Err(e) => Raised(e, NoEffects)
            case Ok(fields) => CreateTicket(svc, fields, world)
  }

  /** Lines 155-157: every exception, `abort(403)` included, becomes a 500. */
  function Respond(attempt: Attempt): (Response, Effects) {
    match attempt
    case Returned(response, effects) => (response, effects)
    case Raised(_, effects) => (ServerErrorResponse, effects)
  }

  /** `create_jira`: deduplicate, then run the `try` block and its handler. */
  function Handle(cache: Cache, svc: Service, req: Request, world: World): Handled {
    match Dedup(cache, req.deliveryId, world.cacheFault)
    case Duplicate => Handled(DuplicateResponse, cache, NoEffects)
    case Proceed(recorded) =>
      var (response, effects) := Respond(Process(svc, req, world));
      Handled(response, recorded, effects)
  }

  /** A known delivery id short-circuits: no verification, no ticket, no comment, cache as it was. */
  lemma DuplicateShortCircuits(cache: Cache, svc: Service, req: Request, world: World)
    requires HasDeliveryId(req.deliveryId) && req.deliveryId.value in cache
    requires world.cacheFault != ExistsFails
    ensures Handle(cache, svc, req, world) == Handled(DuplicateResponse, cache, NoEffects)
  {
  }

  /**
   * An unknown delivery id is recorded for one day before the signature is
   * looked at, so it is burnt even when the request then fails.
   */
  lemma DeliveryIdRecordedBeforeVerification(cache: Cache, svc: Service, req: Request, world: World)
    requires HasDeliveryId(req.deliveryId) && req.deliveryId.value !in cache
    requires world.cacheFault == Healthy
    ensures Handle(cache, svc, req, world).cache == cache[req.deliveryId.value := CacheEntry("processed", 86400)]
    ensures Signature.VerifySignature(svc.config.secret, req.body, req.signature, svc.hmac) != Ok(true) ==>
      Handle(cache, svc, req, world).response == ServerErrorResponse
  {
  }

  /** Without a delivery id there is no deduplication and the cache is untouched. */
  lemma NoDeliveryIdNoDedup(cache: Cache, svc: Service, req: Request, world: World)
    requires !HasDeliveryId(req.deliveryId)
    ensures Handle(cache, svc, req, world).cache == cache
    ensures (Handle(cache, svc, req, world).response, Handle(cache, svc, req, world).effects)
      == Respond(Process(svc, req, world))
  {
  }

  /**
   * Fail-open: a Redis error leaves the cache as it was and never blocks the
   * request; the request is answered as if it were new.
   */
  lemma CacheFailureFailsOpen(cache: Cache, svc: Service, req: Request, world: World)
    requires world.cacheFault != Healthy
    requires world.cacheFault == SetexFails && HasDeliveryId(req.deliveryId) ==> req.deliveryId.value !in cache
    ensures Handle(cache, svc, req, world).cache == cache
    ensures (Handle(cache, svc, req, world).response, Handle(cache, svc, req, world).effects)
      == Respond(Process(svc, req, world))
  {
  }

  /** `abort(403)` is caught by the generic handler: no response is ever 403; it is 200, 201 or 500. */
  lemma StatusCodes(cache: Cache, svc: Service, req: Request, world: World)
    ensures Handle(cache, svc, req, world).response.status in {200, 201, 500}
  {
    match Process(svc, req, world)
    case Returned(response, _) =>
    case Raised(_, _) =>
  }

  /** A request that passes dedup with a signature that does not verify gets a 500 and causes nothing. */
  lemma UnverifiedRequestRejected(cache: Cache, svc: Service, req: Request, world: World)
    requires Dedup(cache, req.deliveryId, world.cacheFault).Proceed?
    requires Signature.VerifySignature(svc.config.secret, req.body, req.signature, svc.hmac) != Ok(true)
    ensures Handle(cache, svc, req, world).response == ServerErrorResponse
    ensures Handle(cache, svc, req, world).effects == NoEffects
  {
  }

  /**
   * The trigger fires exactly when there is a comment whose body, lower-cased,
   * contains `/jira`. Without a comment, with a comment without `body`, or
   * with a body that lacks the token, a verified request is answered 200
   * `no keyword` and causes nothing; a `null` comment or body is a 500.
   */
  lemma TriggerDetection(cache: Cache, svc: Service, req: Request, world: World)
    requires Dedup(cache, req.deliveryId, world.cacheFault).Proceed?
    requires Signature.VerifySignature(svc.config.secret, req.body, req.signature, svc.hmac) == Ok(true)
    ensures CommentTriggers(req.payload.comment) == Ok(true) <==>
      req.payload.comment.Node? && req.payload.comment.obj.body.Str?
      && Compose.HasTrigger(req.payload.comment.obj.body.text)
    ensures CommentTriggers(req.payload.comment) == Ok(false) <==>
      req.payload.comment.Absent? || (req.payload.comment.Node? && (req.payload.comment.obj.body.Missing?
        || (req.payload.comment.obj.body.Str? && !Compose.HasTrigger(req.payload.comment.obj.body.text))))
    ensures CommentTriggers(req.payload.comment) == Ok(false) ==>
      Handle(cache, svc, req, world).response == NoKeywordResponse
      && Handle(cache, svc, req, world).effects == NoEffects
    ensures req.payload.comment.NullNode? || (req.payload.comment.Node? && req.payload.comment.obj.body.Null?) ==>
      Handle(cache, svc, req, world).response == ServerErrorResponse
      && Handle(cache, svc, req, world).effects == NoEffects
  {
    if req.payload.comment.Node? && req.payload.comment.obj.body.Missing? {
      Compose.EmptyTextHasNoTrigger();
    }
  }

  /** A ticket or a comment is only ever requested for a new, verified request whose comment holds the trigger. */
  lemma EffectsOnlyOnTrigger(cache: Cache, svc: Service, req: Request, world: World)
    requires Handle(cache, svc, req, world).effects != NoEffects
    ensures Dedup(cache, req.deliveryId, world.cacheFault).Proceed?
    ensures Signature.VerifySignature(svc.config.secret, req.body, req.signature, svc.hmac) == Ok(true)
    ensures req.payload.comment.Node? && req.payload.comment.obj.body.Str?
    ensures Compose.HasTrigger(req.payload.comment.obj.body.text)
    ensures Handle(cache, svc, req, world).effects.ticket.Some?
  {
    if req.payload.comment.Node? && req.payload.comment.obj.body.Missing? {
      Compose.EmptyTextHasNoTrigger();
    }
  }

  /**
   * The success path: a new, verified request whose comment holds the
   * trigger and whose issue has every field creates a ticket summarised
   * `[Github] <title>` and described from the commenter, the sanitised
   * body (which never mentions `/jira`) and the issue link; it posts the
   * confirmation to `<api url>/comments` and answers 201 with the key.
   */
  lemma TriggeredRequestCreatesTicket(
    cache: Cache, svc: Service, req: Request, world: World,
    title: string, htmlUrl: string, login: string, url: string, body: string, key: string)
    requires Dedup(cache, req.deliveryId, world.cacheFault).Proceed?
    requires Signature.VerifySignature(svc.config.secret, req.body, req.signature, svc.hmac) == Ok(true)
    requires req.payload.comment.Node? && req.payload.comment.obj.body.Str?
    requires Compose.HasTrigger(req.payload.comment.obj.body.text)
    requires req.payload.issue == Node(Issue(Str(title), Str(htmlUrl), Node(User(Str(login))), Str(url), Str(body)))
    requires world.ticketKey == Some(key) && !world.commentPostFails
    ensures var h := Handle(cache, svc, req, world);
      && h.response == Response(201, JsonObject([("status", "success"), ("Jira_key", key)]))
      && h.effects.ticket == Some(TicketRequest(
           svc.config.projectKey,
           "[Github] " + title,
           Compose.Description(login, Compose.SanitizeBody(body), htmlUrl),
           "Issue",
           svc.dueDate))
      && h.effects.comment == Some(CommentPost(
           url + "/comments",
           Compose.Confirmation(RenderSetting(svc.config.jiraServer), key)))
      && !Compose.HasTrigger(Compose.SanitizeBody(body))
  {
    Compose.SanitizedBodyHasNoTrigger(body);
  }

  /** When ticket creation raises, the request is a 500 and no comment is posted. */
  lemma TrackerFailureIsServerError(
    cache: Cache, svc: Service, req: Request, world: World, fields: IssueFields)
    requires Dedup(cache, req.deliveryId, world.cacheFault).Proceed?
    requires Signature.VerifySignature(svc.config.secret, req.body, req.signature, svc.hmac) == Ok(true)
    requires CommentTriggers(req.payload.comment) == Ok(true)
    requires ExtractIssue(req.payload.issue) == Ok(fields)
    requires world.ticketKey.None?
    ensures Handle(cache, svc, req, world).response == ServerErrorResponse
    ensures Handle(cache, svc, req, world).effects == Effects(Some(Ticket(svc, fields)), None)
  {
  }

  /** When posting the confirmation raises, the ticket exists but the request still answers 500. */
  lemma CommentFailureIsServerError(
    cache: Cache, svc: Service, req: Request, world: World, fields: IssueFields)
    requires Dedup(cache, req.deliveryId, world.cacheFault).Proceed?
    requires Signature.VerifySignature(svc.config.secret, req.body, req.signature, svc.hmac) == Ok(true)
    requires CommentTriggers(req.payload.comment) == Ok(true)
    requires ExtractIssue(req.payload.issue) == Ok(fields)
    requires world.ticketKey.Some? && world.commentPostFails
    ensures Handle(cache, svc, req, world).response == ServerErrorResponse
    ensures Handle(cache, svc, req, world).effects.ticket == Some(Ticket(svc, fields))
    ensures Handle(cache, svc, req, world).effects.comment.Some?
  {
  }

  /**
   * Reading the issue raises exactly when `issue`, `user` or one of the five
   * fields is absent, `issue` or `user` is `null`, or the body is `null`; a
   * `null` title, link or login is read as the text `None`. Indexing a
   * `null` issue, or a `null` user once title and link were read, raises
   * `TypeError`.
   */
  lemma ExtractIssueFailsExactly(issue: JsonNode<Issue>)
    ensures ExtractIssue(issue).Err? <==>
      !issue.Node? || issue.obj.title.Missing? || issue.obj.htmlUrl.Missing?
      || !issue.obj.user.Node? || issue.obj.user.obj.login.Missing?
      || issue.obj.url.Missing? || !issue.obj.body.Str?
    ensures issue.NullNode? ==> ExtractIssue(issue) == Err(TypeError)
    ensures issue.Node? && !issue.obj.title.Missing? && !issue.obj.htmlUrl.Missing? && issue.obj.user.NullNode? ==>
      ExtractIssue(issue) == Err(TypeError)
  {
  }

  /** A triggering comment on an issue that cannot be read is a 500 with no effects. */
  lemma MalformedIssueIsServerError(cache: Cache, svc: Service, req: Request, world: World)
    requires Dedup(cache, req.deliveryId, world.cacheFault).Proceed?
    requires Signature.VerifySignature(svc.config.secret, req.body, req.signature, svc.hmac) == Ok(true)
    requires CommentTriggers(req.payload.comment) == Ok(true)
    requires ExtractIssue(req.payload.issue).Err?
    ensures Handle(cache, svc, req, world).response == ServerErrorResponse
    ensures Handle(cache, svc, req, world).effects == NoEffects
  {
  }

  /**
   * With no secret configured (what the secret lookup of app/config.py:9
   * yields as written) no request ever creates a ticket: each is a duplicate
   * or a 500.
   */
  lemma UnsetSecretNeverCreatesTicket(cache: Cache, svc: Service, req: Request, world: World)
    requires svc.config.secret.None?
    ensures Handle(cache, svc, req, world).effects == NoEffects
    ensures Handle(cache, svc, req, world).response in {DuplicateResponse, ServerErrorResponse}
  {
    assert Signature.VerifySignature(svc.config.secret, req.body, req.signature, svc.hmac) != Ok(true);
  }

  /** The payload of the worked delivery: the comment `/jira please` on issue `Bug X`, whose body is `desc`, `/jira`, `more`. */
  const ExamplePayload := Payload(
    Node(Comment(Str("/jira please"))),
    Node(Issue(Str("Bug X"), Str("https://gh/1"), Node(User(Str("alice"))), Str("https://api.gh/1"),
               Str("desc\n/jira\nmore"))))

  /** The example comment fires the trigger. */
  lemma ExampleTriggers()
    ensures CommentTriggers(ExamplePayload.comment) == Ok(true)
  {
    Compose.TriggerAtStart("/jira please");
  }

  /** The example issue yields its fields, the body sanitised to `desc`, `more`. */
  lemma ExampleFields()
    ensures ExtractIssue(ExamplePayload.issue) == Ok(IssueFields("Bug X", "https://gh/1", "alice", "https://api.gh/1", "desc\nmore"))
  {
    Compose.SanitizeExample();
  }

  /**
   * A new, verified, triggering request whose issue can be read, with both
   * outside calls succeeding: 201 with the key, a ticket summarised
   * `[Github] <title>` in the configured project, and the confirmation
   * posted to `<api url>/comments`.
   */
  lemma SuccessfulRequest(cache: Cache, svc: Service, req: Request, world: World, fields: IssueFields, key: string)
    requires Dedup(cache, req.deliveryId, world.cacheFault).Proceed?
    requires Signature.VerifySignature(svc.config.secret, req.body, req.signature, svc.hmac) == Ok(true)
    requires CommentTriggers(req.payload.comment) == Ok(true)
    requires ExtractIssue(req.payload.issue) == Ok(fields)
    requires world.ticketKey == Some(key) && !world.commentPostFails
    ensures var h := Handle(cache, svc, req, world);
      && h.response == Response(201, JsonObject([("status", "success"), ("Jira_key", key)]))
      && h.effects.ticket == Some(TicketRequest(
           svc.config.projectKey,
           "[Github] " + fields.title,
           Compose.Description(fields.commenter, fields.body, fields.htmlUrl),
           "Issue",
           svc.dueDate))
      && h.effects.comment == Some(CommentPost(
           fields.apiUrl + "/comments",
           Compose.Confirmation(RenderSetting(svc.config.jiraServer), key)))
  {
  }

  /**
   * A worked delivery: a fresh id and a genuine signature on the example
   * payload create a ticket whose description carries `desc` and `more` but
   * not the trigger line; the confirmation goes to the issue's API URL plus
   * `/comments`, and the answer is 201 with the new key.
   */
  lemma WorkedExample(cache: Cache, svc: Service, req: Request, key: string)
    requires svc.config.secret.Some? && Signature.IsHexDigest(svc.hmac(svc.config.secret.value, req.body))
    requires req.signature == Some("sha256=" + svc.hmac(svc.config.secret.value, req.body))
    requires req.deliveryId == Some("d-1") && "d-1" !in cache
    requires req.payload == ExamplePayload
    ensures var h := Handle(cache, svc, req, World(Healthy, Some(key), false));
      && h.response == CreatedResponse(key)
      && h.cache == cache["d-1" := Processed]
      && h.effects.ticket.Some?
      && h.effects.ticket.value.summary == "[Github] Bug X"
      && h.effects.ticket.value.description == Compose.Description("alice", "desc\nmore", "https://gh/1")
      && h.effects.comment.Some?
      && h.effects.comment.value.url == "https://api.gh/1/comments"
  {
    assert "[Github] " + "Bug X" == "[Github] Bug X";
    assert "https://api.gh/1" + "/comments" == "https://api.gh/1/comments";
    var world := World(Healthy, Some(key), false);
    var fields := IssueFields("Bug X", "https://gh/1", "alice", "https://api.gh/1", "desc\nmore");
    Signature.GenuineSignatureAccepted(svc.config.secret.value, req.body, svc.hmac);
    ExampleTriggers();
    ExampleFields();
    assert Dedup(cache, req.deliveryId, Healthy) == Proceed(cache["d-1" := Processed]);
    SuccessfulRequest(cache, svc, req, world, fields, key);
  }
}
