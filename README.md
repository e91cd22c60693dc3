# GitHub-comment-to-Jira webhook, modelled in Dafny

The service is a Flask app. GitHub posts issue-comment webhooks to its one
endpoint, `POST /create_jira`. For each delivery the handler does five things, in order:

1. **Deduplicates** the delivery by its `X-GitHub-Delivery` id. The id is looked up in Redis. A new id is recorded for one day. A Redis error is swallowed ("fail-open").
2. **Verifies** the `X-Hub-Signature-256` header against the HMAC-SHA256 of the raw body.
3. **Looks for** the trigger `/jira` in the comment, ignoring case.
4. **Creates a Jira ticket.** The ticket is built from the issue: a `[Github] <title>` summary, and a description whose issue body has every line that mentions `/jira` removed.
5. **Posts a confirmation comment** linking the ticket, then answers 201. A duplicate or a comment without the trigger is answered 200. Any exception inside the `try` block, the `abort(403)` for a bad signature included, is answered 500.

At start-up, `Config.datavalidate` refuses to go on unless four required environment variables are set.

The model has these modules:

- `Wrappers`: `Option`, `Result` (with `:-`) and `Outcome`.
- `Errors`: the Python exceptions a request can raise.
- `Sequences`: list comprehensions `[x for x in s if keep(x)]` as `Filter`, with their laws.
- `Text`: the Python string operations the handler uses. These are ASCII `lower`/`casefold`, `p in s`, `s.split(c)`, `c.join(parts)` and `splitlines`.
- `Config`: the `Config` class attributes as a function of the environment, plus `datavalidate`.
- `Signature`: `verify_signature`. The HMAC is a function parameter.
- `Compose`: the trigger test, the body sanitiser, and the ticket and comment texts.
- `Webhook`: one request as a step function `Handle`. It maps the cache, the request and what the collaborators do to the response, the new cache and the outside calls made.
- `Handler`: the imperative view.
  - `DeliveryCache` is a class whose `entries` change in place.
  - `WebhookHandler.CreateJira` mirrors `create_jira` step by step, with its early returns. It is proved to do exactly what `Webhook.Handle` specifies.
- `Delivery`: deliveries handled one after another (`Replay`), and the at-most-once guarantee that deduplication gives.

The outside world is an input: the `World` of a request. It says three things:
- whether Redis raises on `exists` or on `setex`;
- whether `create_issue` returns a key or raises;
- whether `requests.post` raises.

A request's outside calls are recorded as `Effects`: the ticket requested and the comment posted.

In these places the code does something other than its evident design; the model follows the code:

- A bad or missing signature is answered 500, not 403. The `abort(403)` raises inside the `try` of app/fully_automated_jira_github.py:105, and the `except Exception` at line 155 catches it.
- The summary prefix is spelled `[Github] `, not with the product's own capitalisation `[GitHub] `.
- The success body's key is `Jira_key`, while its other key is the lower-case `status`.
- The no-keyword body's first key is `Status`, with a capital S, unlike the duplicate body's `status`.
- If posting the confirmation raises, the request is answered 500, although the ticket already exists. The code has no separate handling for that call.
- The delivery id is recorded before the signature is checked. An unsigned request therefore still uses up its id.

## Model

| member | source | states |
|---|---|---|
| Config.MissingVariables | app/config.py:37 | the comprehension `missing_env_var`; characterised by `Config.MissingExactly` (membership), `Config.MissingInRequiredOrder` (order) and `Config.OnlyRequiredMatter` |
| Config.SecretAsWritten | app/config.py:9 | the secret lookup as written; `Config.SecretAsWrittenUnsetAfterValidation` shows it unset in a validated environment |
| Config.Load | app/config.py:9-26 | the `Config` attributes with the secret lookup corrected; characterised by `Config.DefaultsWhenUnset`, `Config.DebugOnlyForExactTrue` and `Config.ValidatedSecretIsConfigured` |
| Config.Datavalidate | app/config.py:28-39 | validation passes exactly when every required variable is present and non-empty |
| Config.MissingExactly | app/config.py:31-37 | a name is reported missing iff it is one of the four required names and is absent or empty |
| Config.MissingInRequiredOrder | app/config.py:31-37 | the missing names keep the order of the required list |
| Config.ValidationMessageListsMissing | app/config.py:38-39 | on failure the message is the fixed prefix followed by the missing names joined by `,`, and splitting it on `,` gives exactly those names back |
| Config.OnlyRequiredMatter | app/config.py:31-37 | two environments that agree on which required names are set give the same missing list and the same verdict |
| Config.JiraUserNotRequired | app/config.py:31-36 | setting, changing or removing `JIRA_USER` never changes the verdict |
| Config.OneDayIsTwentyFourHours | app/config.py:21 | `ONE_DAY` is 86400 seconds |
| Config.DefaultsWhenUnset | app/config.py:14-26 | with the variables unset, project key `GIH`, the log file, debug off, port 8000, Redis host `redis_service`, Redis port 6379 |
| Config.DebugOnlyForExactTrue | app/config.py:19 | debug is on iff `FLASK_DEBUG` is exactly `True`; `true`, `TRUE` and `1` leave it off |
| Config.ValidatedSecretIsConfigured | app/config.py:9-11 | after validation passes, the corrected secret is the configured, non-empty `GITHUB_WEBHOOK_SECRET` and the Jira server is set |
| Config.SecretAsWrittenUnsetAfterValidation | app/config.py:9 | an environment that passes validation still leaves the secret as written unset, while the corrected lookup finds it |
| Signature.VerifySignature | app/fully_automated_jira_github.py:54-67 | `verify_signature`; each outcome is characterised by `Signature.MissingHeaderRejected`, `Signature.MalformedHeaderRaises`, `Signature.WrongAlgorithmRejected`, `Signature.WellFormedHeaderVerdict`, `Signature.GenuineSignatureAccepted` and `Signature.AcceptedHeaderIsExact` |
| Signature.MissingHeaderRejected | app/fully_automated_jira_github.py:56-57 | an absent or empty header is rejected without raising |
| Signature.MalformedHeaderRaises | app/fully_automated_jira_github.py:59 | a non-empty header raises `ValueError` iff it does not contain exactly one `=` |
| Signature.WrongAlgorithmRejected | app/fully_automated_jira_github.py:59-61 | a `<name>=<digest>` header whose name is not exactly `sha256` is rejected without raising |
| Signature.WellFormedHeaderVerdict | app/fully_automated_jira_github.py:59-67 | for `sha256=<digest>`: an unset secret raises `AttributeError`, a non-ASCII digest raises `TypeError`, otherwise the verdict is whether the digest equals the keyed hash of the body |
| Signature.GenuineSignatureAccepted | app/fully_automated_jira_github.py:63-67 | the header a genuine sender computes with the shared secret is accepted |
| Signature.AcceptedHeaderIsExact | app/fully_automated_jira_github.py:54-67 | acceptance implies a configured secret and a header equal to `sha256=` followed by the keyed hash of this body |
| Signature.SplitHeader | app/fully_automated_jira_github.py:59 | `<name>=<digest>` without other `=` splits into exactly the name and the digest |
| Text.Split | app/fully_automated_jira_github.py:59 | `str.split` yields at least one piece and no piece contains the separator |
| Text.SplitCount | app/fully_automated_jira_github.py:59 | the number of pieces is one more than the number of separators |
| Text.SplitJoin | app/fully_automated_jira_github.py:59 | joining the pieces with the separator restores the string |
| Text.SplitNoSeparator | app/fully_automated_jira_github.py:59 | a string without the separator splits into itself alone |
| Text.SplitConcat | app/fully_automated_jira_github.py:59 | splitting at a separator splits each side independently |
| Text.JoinSplit | app/fully_automated_jira_github.py:119-122 | joining separator-free pieces and splitting again gives back the pieces |
| Text.JoinSnoc | app/fully_automated_jira_github.py:119 | joining one more piece appends a separator and that piece |
| Text.SplitLines | app/fully_automated_jira_github.py:120 | no line returned by `splitlines` contains a line break |
| Text.SplitLinesJoin | app/fully_automated_jira_github.py:119-120 | joining the lines with `\n` restores the text less a trailing `\n` |
| Text.LowerAppend | app/fully_automated_jira_github.py:113 | lower-casing distributes over concatenation |
| Text.LowerIdempotent | app/fully_automated_jira_github.py:121 | lower-casing twice equals lower-casing once |
| Text.ContainsAcrossSeparator | app/fully_automated_jira_github.py:119-122 | a pattern without the separator found in `a + sep + b` is found in `a` or in `b` |
| Sequences.Filter | app/config.py:37 | the comprehension result is no longer than its input and holds exactly the input's elements that pass the test |
| Sequences.FilterIsSubsequence | app/fully_automated_jira_github.py:119-122 | the comprehension keeps the surviving elements in their original order |
| Sequences.FilterAppend | app/fully_automated_jira_github.py:119-122 | filtering a concatenation filters each part |
| Sequences.FilterMultiplicity | app/fully_automated_jira_github.py:119-122 | each kept element occurs as often as in the input; each dropped one not at all |
| Sequences.FilterCongruent | app/config.py:37 | tests that agree on the input's elements give the same result |
| Compose.HasTrigger | app/fully_automated_jira_github.py:113 | the case-insensitive test for `/jira`; characterised by `Compose.TriggerExamples`, `Compose.TriggerAtStart`, `Compose.NoSlashNoTrigger`, `Compose.EmptyTextHasNoTrigger` and `Compose.TriggerIgnoresCase` |
| Compose.KeptLines | app/fully_automated_jira_github.py:119-122 | the lines the comprehension keeps; characterised by `Compose.KeptLinesExactly` |
| Compose.SanitizeBody | app/fully_automated_jira_github.py:119-122 | `issue_body`; characterised by `Compose.SanitizedBodyHasNoTrigger`, `Compose.SanitizedBodySplitsIntoKeptLines`, `Compose.SanitizeDropsTriggerLine` and `Compose.SanitizeExample` |
| Compose.Summary | app/fully_automated_jira_github.py:127 | the ticket summary; characterised by `Compose.SummaryCarriesTitle` |
| Compose.Description | app/fully_automated_jira_github.py:128-132 | the ticket description; characterised by `Compose.DescriptionLayout` |
| Compose.Confirmation | app/fully_automated_jira_github.py:144-145 | the confirmation comment; characterised by `Compose.ConfirmationLayout` |
| Compose.CommentsUrl | app/fully_automated_jira_github.py:72 | the URL `post_github_comment` posts to; `Webhook.TriggeredRequestCreatesTicket` and `Webhook.SuccessfulRequest` state it as the API URL plus `/comments` |
| Compose.TriggerExamples | app/fully_automated_jira_github.py:113 | `/JIRA` in upper case fires the trigger; text without the token does not |
| Compose.TriggerAtStart | app/fully_automated_jira_github.py:113 | text starting with `/jira` in any case fires the trigger |
| Compose.NoSlashNoTrigger | app/fully_automated_jira_github.py:113 | text without `/` never fires the trigger |
| Compose.EmptyTextHasNoTrigger | app/fully_automated_jira_github.py:113 | the default empty comment body does not fire the trigger |
| Compose.TriggerIgnoresCase | app/fully_automated_jira_github.py:113 | detection depends only on the lower-cased text |
| Compose.KeptLinesExactly | app/fully_automated_jira_github.py:119-122 | a line is kept iff it is a line of the body without the trigger; it is kept as often as it occurs; the kept lines keep their order |
| Compose.JoinedLinesHaveNoTrigger | app/fully_automated_jira_github.py:119-122 | trigger-free lines joined by `\n` remain trigger-free |
| Compose.SanitizedBodyHasNoTrigger | app/fully_automated_jira_github.py:119-122 | the sanitised body never contains `/jira` in any case |
| Compose.SanitizedBodySplitsIntoKeptLines | app/fully_automated_jira_github.py:119-122 | the sanitised body splits on `\n` into exactly the kept lines |
| Compose.SanitizeDropsTriggerLine | app/fully_automated_jira_github.py:119-122 | of three lines, a middle line naming the trigger is dropped and the other two are kept in order |
| Compose.SanitizeExample | app/fully_automated_jira_github.py:119-122 | `desc`, `/jira`, `more` sanitises to `desc`, `more` |
| Compose.SummaryCarriesTitle | app/fully_automated_jira_github.py:127 | the summary is `[Github] ` followed by the title, which can be read back |
| Compose.DescriptionLayout | app/fully_automated_jira_github.py:128-132 | the description's lines are the attribution, a blank line, the heading, the body's lines, a blank line and the issue link |
| Compose.ConfirmationLayout | app/fully_automated_jira_github.py:144-145 | the confirmation's lines are the heading and a link whose text is the key and whose target is `<server>/browse/<key>` |
| Webhook.Dedup | app/fully_automated_jira_github.py:89-103 | the dedup step; characterised by `Webhook.DuplicateShortCircuits`, `Webhook.DeliveryIdRecordedBeforeVerification`, `Webhook.NoDeliveryIdNoDedup`, `Webhook.CacheFailureFailsOpen` and `Delivery.HandleKeepsRecordedIds` |
| Webhook.CommentTriggers | app/fully_automated_jira_github.py:113 | the trigger condition on the payload; characterised by `Webhook.TriggerDetection` |
| Webhook.ExtractIssue | app/fully_automated_jira_github.py:114-122 | reading the issue fields; characterised by `Webhook.ExtractIssueFailsExactly` and `Webhook.ExampleFields` |
| Webhook.Ticket | app/fully_automated_jira_github.py:126-141 | the `create_issue` arguments; stated from the inputs by `Webhook.TriggeredRequestCreatesTicket` and `Webhook.SuccessfulRequest` |
| Webhook.CreateTicket | app/fully_automated_jira_github.py:126-149 | create the ticket, then post the comment; characterised by `Webhook.SuccessfulRequest`, `Webhook.TrackerFailureIsServerError` and `Webhook.CommentFailureIsServerError` |
| Webhook.Process | app/fully_automated_jira_github.py:105-153 | the `try` block; characterised by `Webhook.UnverifiedRequestRejected`, `Webhook.TriggerDetection`, `Webhook.MalformedIssueIsServerError` and `Webhook.SuccessfulRequest` |
| Webhook.Respond | app/fully_automated_jira_github.py:155-157 | every exception becomes 500; characterised by `Webhook.StatusCodes` |
| Webhook.Handle | app/fully_automated_jira_github.py:83-157 | one request end to end; characterised by the `Webhook` lemmas below, implemented by `Handler.WebhookHandler.CreateJira` and replayed by `Delivery.AtMostOnce` |
| Webhook.DuplicateShortCircuits | app/fully_automated_jira_github.py:89-93 | a known delivery id is answered 200 duplicate, with no calls and the cache unchanged |
| Webhook.DeliveryIdRecordedBeforeVerification | app/fully_automated_jira_github.py:89-108 | a new id is recorded as `processed` for 86400 s, and a request whose signature does not verify still gets a 500 |
| Webhook.NoDeliveryIdNoDedup | app/fully_automated_jira_github.py:87-89 | without a delivery id the cache is untouched and the request is processed |
| Webhook.CacheFailureFailsOpen | app/fully_automated_jira_github.py:98-103 | a Redis error leaves the cache unchanged and the request is processed as new |
| Webhook.StatusCodes | app/fully_automated_jira_github.py:89-157 | every answer is 200, 201 or 500; never 403 |
| Webhook.UnverifiedRequestRejected | app/fully_automated_jira_github.py:105-157 | a request past dedup whose signature does not verify is a 500 with no calls |
| Webhook.TriggerDetection | app/fully_automated_jira_github.py:110-153 | the trigger fires iff there is a comment whose body contains `/jira` in any case; a verified request with no comment, a comment without `body`, or a body without the token is 200 no keyword with no calls, and these are exactly the non-triggering readings; a `null` comment or body is a 500 with no calls |
| Webhook.EffectsOnlyOnTrigger | app/fully_automated_jira_github.py:89-146 | any outside call implies a new, verified request with a triggering comment, and a ticket request |
| Webhook.TriggeredRequestCreatesTicket | app/fully_automated_jira_github.py:113-149 | the success path: 201 with the key; a ticket in the configured project summarised `[Github] <title>`, described from the commenter, the sanitised body and the issue link, of type `Issue`, due at the fixed date; the confirmation posted to `<api url>/comments` |
| Webhook.TrackerFailureIsServerError | app/fully_automated_jira_github.py:135-157 | when ticket creation raises, the answer is 500 and no comment is posted |
| Webhook.CommentFailureIsServerError | app/fully_automated_jira_github.py:144-157 | when the comment post raises, the ticket was requested and the answer is still 500 |
| Webhook.ExtractIssueFailsExactly | app/fully_automated_jira_github.py:114-122 | reading the issue raises iff `issue`, `user` or any of `title`, `html_url`, `login`, `url`, `body` is absent, `issue` or `user` is `null`, or the body is `null`; a `null` issue, or a `null` user after title and link were read, raises `TypeError` |
| Webhook.MalformedIssueIsServerError | app/fully_automated_jira_github.py:114-157 | a verified, triggering request whose issue cannot be read is a 500 with no calls |
| Webhook.UnsetSecretNeverCreatesTicket | app/fully_automated_jira_github.py:63-67 | with no secret configured, every request is a duplicate or a 500, and no ticket is ever requested |
| Webhook.ExampleTriggers | app/fully_automated_jira_github.py:113 | the comment `/jira please` fires the trigger |
| Webhook.ExampleFields | app/fully_automated_jira_github.py:114-122 | the example issue yields its title, links and commenter, and the body `desc`, `more` |
| Webhook.SuccessfulRequest | app/fully_automated_jira_github.py:105-149 | for any readable issue: 201 with the key, a ticket in the configured project summarised `[Github] ` plus the title, of type `Issue`, due at the fixed date, and the confirmation posted to the API URL plus `/comments` |
| Webhook.WorkedExample | app/fully_automated_jira_github.py:83-157 | the worked delivery: 201 with the key, the id recorded, summary `[Github] Bug X`, the description carries `desc` and `more` without the trigger line, the comment goes to `https://api.gh/1/comments` |
| Handler.DeliveryCache.constructor | app/fully_automated_jira_github.py:38-45 | the cache starts with the given entries |
| Handler.DeliveryCache.Exists | app/fully_automated_jira_github.py:91 | reports whether the key is present, or that the call raised |
| Handler.DeliveryCache.Setex | app/fully_automated_jira_github.py:96 | writes the entry with its time-to-live unless the call raises; nothing else changes |
| Handler.DeliveryCache.Expire | app/fully_automated_jira_github.py:96 | the key's entry is dropped once its time-to-live runs out; nothing else changes |
| Handler.WebhookHandler.constructor | app/fully_automated_jira_github.py:38-51 | the handler holds the configured service and the shared cache |
| Handler.WebhookHandler.CreateJira | app/fully_automated_jira_github.py:83-157 | the response, the new cache and the calls made are exactly those of the step function `Webhook.Handle` |
| Handler.Redeliver | app/fully_automated_jira_github.py:89-93 | handling the same delivery twice while Redis is healthy answers the second time as a duplicate with no calls |
| Delivery.Replay | app/fully_automated_jira_github.py:83-157 | one result per delivery, each seeing the cache the previous one left |
| Delivery.HandleKeepsRecordedIds | app/fully_automated_jira_github.py:89-103 | handling a request never removes a recorded id |
| Delivery.RecordedIdStaysDuplicate | app/fully_automated_jira_github.py:89-93 | once an id is recorded, every later delivery with it is a duplicate with no calls |
| Delivery.AtMostOnce | app/fully_automated_jira_github.py:89-96 | a delivery id first handled while Redis was healthy never again causes a ticket or a comment while its entry lasts (no expiry happens within a replay) |
| Delivery.ExpiredIdIsProcessedAgain | app/fully_automated_jira_github.py:96 | after its entry expires, an id is processed as new and recorded afresh |

## Left out

- HMAC-SHA256, `secret.encode('utf-8')` and `hexdigest` are a function parameter of type `HexHmac`. `hmac.compare_digest` is modelled as equality, plus its `TypeError` on a non-ASCII `str`.
- Redis connection and retry settings (app/fully_automated_jira_github.py:38-45) are not modelled. Time-to-live expiry is only the explicit `DeliveryCache.Expire` / `ExpiredIdIsProcessedAgain`, with no clock.
- The race between `exists` and `setex` under concurrent deliveries is not modelled. Deliveries are handled one at a time.
- The Jira client and `requests.post` are recorded as effects only. Authentication headers, the Jira server's behaviour and the HTTP status code of the comment post are not modelled; the code ignores that status code.
- Flask routing, header lookup and `request.json` parsing are not modelled: the model starts from a parsed payload. String fields are strings, `null` or absent; `comment`, `issue` and `issue.user` are objects, `null` or absent. JSON numbers, booleans or lists in any of these places, objects where strings are expected, strings where objects are expected, and a payload that is not an object are not modelled.
- Logging (app/fully_automated_jira_github.py:17-35 and every `logger` call) has no effect on the outcome and is not modelled.
- `due_date` is computed from the clock once at import (line 49). It is the opaque `Service.dueDate`.
- `os.environ` and `load_dotenv` are not modelled: the environment is a `map<string, string>`. `int()` parsing of `PORT` and `REDIS_PORT` is not modelled: a set port is kept as its text.
- Text.Lower: models only ASCII case folding, because Unicode `lower`/`casefold` tables are outside the model.
- Text.SplitLines: splits only on `\n`, not on `\r`, `\r\n` and the other breaks Python's `splitlines` recognises.
- The `__main__` block that starts the development server is not modelled.
- Delivery.Replay: states only one result per delivery. What each result is comes from its definition and from the lemmas beside it.

## Findings

| source | as written | input that shows it | evidently intended | confidence | as-written member | corrected member |
|---|---|---|---|---|---|---|
| app/config.py:9 | the secret is looked up under one variable whose name is the whole text `GITHUB_WEBHOOK_SECRET", "enter_secret_key`, with no default | an environment setting exactly `GITHUB_WEBHOOK_SECRET`, `GITHUB_TOKEN`, `JIRA_SERVER` and `JIRA_API_TOKEN`: validation passes, the secret is `None`, and every request that is not a duplicate is answered 500 (`AttributeError` on `.encode`, or the 403 turned 500) | read `GITHUB_WEBHOOK_SECRET`, defaulting to `enter_secret_key` | high; not executed | Config.SecretAsWrittenUnsetAfterValidation, Webhook.UnsetSecretNeverCreatesTicket | Config.Load, Config.ValidatedSecretIsConfigured |
