# Push dispatch handler — a Dafny model

This project models the core of a one-endpoint push service: an HTTP handler
that accepts a POST carrying device tokens and a notification, checks a shared
secret (`x-app-key`) and the configured service account, obtains an OAuth
access token for Firebase Cloud Messaging (cached in process memory), sends
one message per token through the FCM HTTP v1 API and answers with how many of
the tokens were delivered out of how many were tried.

Everything the handler learns from the outside world is a parameter of the
model: the request (method, key header, parsed body), the configuration (the
shared secret and the parsed service account), the clock in whole seconds,
the reply of the token issuer, and whether FCM accepted each message. The
last three come per token, as one `Attempt` for each resolved token, since
every send asks the cache for a credential before it posts its message.

Modules, one per concern of `api/push.ts`:

- `Wrappers` — `Option` and `Result`.
- `Validation` — the ordered checks of the handler and the resolution of the
  target tokens, as functions; proved against an order-free description of
  the four checks (`Violates`, `Rank`).
- `Credentials` — the one-slot access-token cache as a class `TokenCache`
  whose `GetAccessToken` method is proved against the function `Acquire`; a
  ghost counter `fetches` records every call to the issuer. `Replay` runs
  several calls in a row, for the reuse-within-window properties; the
  delivery loop is proved to act on the cache exactly as such a run
  (`Delivery.RunIsReplay`), so the same properties hold for it.
- `Delivery` — the notification defaults, one send (`SendOne`,
  `SendToToken`) and the handler's loop (`Dispatch`, a method with a counter
  and loop invariants) proved against the function `Run`, which threads the
  cache through the tokens and logs what became of each one.
- `Handler` — the whole invocation: `Respond` (specification) and `Handle`
  (method), with the status codes and end-to-end properties.

## Model

| member | source | states |
|---|---|---|
| `Validation.Validate` | api/push.ts:63-70 | an accepted request yields the configured project id and names a non-empty `tokens` or `userIds` array; any method but POST is refused with the first check |
| `Validation.ValidateReportsFirstViolation` | api/push.ts:63-70 | (with `ProjectId` for the truthy `saJson?.project_id` of line 65 and `NonEmptyList` for line 68's `Array.isArray(f) && f.length > 0`) the chain accepts exactly the requests that fail none of the four checks, and otherwise reports a failing check that comes no later than any other failing one |
| `Validation.MethodCheckedFirst` | api/push.ts:63 | a non-POST request is refused as method-not-allowed whatever its key, its body or the configuration |
| `Validation.KeyCheckedBeforeConfigAndBody` | api/push.ts:64 | a POST with a missing or wrong key is refused as bad-key whatever the configuration and the body |
| `Validation.UserIdsOnlyResolveToNothing` | api/push.ts:67-75 | (with `Fields` for line 67's defaulting of a missing body to `{}` and `ResolveTokens` for line 75's `Array.isArray(tokens) ? tokens : []`) a request with user ids and no non-empty `tokens` array (missing, not an array, or empty) passes the checks yet resolves to no token |
| `Validation.AcceptedWithoutUserIdsHasTokens` | api/push.ts:68-75 | an accepted request without user ids has at least one token to send to: `ResolveTokens` then returns the non-empty `tokens` array |
| `Credentials.Fresh` | api/push.ts:26 | a cached token is reused only if it exists and has not yet expired |
| `Credentials.Acquire` | api/push.ts:15-32 | the issuer is asked exactly when a service account is configured and the cache is not fresh (`exp - 60 > now`); a fresh cache returns its token unchanged; a refresh succeeds exactly when the issuer gives a non-empty token, which is returned and stored with its expiry; a failure leaves the cache as it was; only non-empty tokens are stored or returned |
| `Credentials.DefaultExpiryWindow` | api/push.ts:26-30 | (with `ExpiryOf` for line 30's expiry, the issuer's number or else `now + 3000`, whose other case `Acquire` states) a token stored without an issuer expiry (missing or zero) is reusable for exactly the next 2940 seconds |
| `Credentials.TokenCache.constructor` | api/push.ts:13 | the cache starts empty and the issuer has not been called |
| `Credentials.TokenCache.GetAccessToken` | api/push.ts:15-33 | returns and stores what `Acquire` says for the old cache, and counts one issuer call exactly when `Acquire` consults it |
| `Credentials.Replay` | api/push.ts:24-32 | a run of calls asks the issuer at most once per call |
| `Credentials.NoFetchWhileFresh` | api/push.ts:26 | while every call happens more than 60 seconds before the cached expiry, no call asks the issuer and the cache does not change |
| `Credentials.ReplayExtends` | api/push.ts:24-32 | one more call extends a run of calls by exactly that call's effect on the cache and the issuer count |
| `Credentials.NoFetchWithoutServiceAccount` | api/push.ts:16 | without a service account no call reaches the issuer and the cache is never touched |
| `Credentials.OneFetchPerWindow` | api/push.ts:26-31 | a call on a stale cache that gets a token without expiry, followed by calls within the default window, asks the issuer exactly once in all and leaves that token cached with expiry `now + 3000` |
| `Delivery.WithDefaults` | api/push.ts:80 | the title is never empty: it is the given one when non-empty and `SOC Metrópoli` otherwise; the body defaults to the empty string and the data to an empty map |
| `Delivery.SendOne` | api/push.ts:35-59 | a message goes out exactly when a credential was obtained, addressed to the token with that credential; the token is delivered exactly when, besides, FCM accepted it; only the credential request touches the cache |
| `Delivery.SendToToken` | api/push.ts:35-59 | gets a credential through the cache and reports the outcome and new cache that `SendOne` gives |
| `Delivery.Run` | api/push.ts:77-85 | the loop over the first `k` tokens logs exactly `k` outcomes and calls the issuer at most `k` times |
| `Delivery.CountAccepted` | api/push.ts:77-81 | the number of delivered tokens never exceeds the number of outcomes |
| `Delivery.Dispatch` | api/push.ts:77-87 | `total` is the number of tokens and `delivered` the number of accepted outcomes in the log that `Run` gives for all tokens, with the cache and issuer count `Run` gives |
| `Delivery.EveryTokenTriedInOrder` | api/push.ts:78-85 | the i-th outcome of the loop is about the i-th token, for every token, whatever happened before it |
| `Delivery.RunOnlyAppends` | api/push.ts:78-85 | running the loop further only appends: the outcomes of the tokens already tried do not change |
| `Delivery.OutcomeOfToken` | api/push.ts:78-84 | each token's outcome is one send on the cache its predecessors left behind |
| `Delivery.CacheIgnoresDelivery` | api/push.ts:36-57 | whether FCM accepts messages never changes the cache or the number of issuer calls |
| `Delivery.RefusalIsIsolated` | api/push.ts:79-84 | a refusal for one token changes that token's outcome alone; every other token has the same outcome |
| `Delivery.RefusedSend` | api/push.ts:54-57 | the same send with the message refused has the refused version of the outcome: a would-be delivery becomes a refusal of the same message, anything else is unchanged |
| `Delivery.RefusalCostsOneDelivery` | api/push.ts:79-87 | a refused send lowers `delivered` by one if that token would have been delivered and by nothing otherwise, and never changes `total` |
| `Delivery.NothingAcceptedNothingDelivered` | api/push.ts:79-81 | when FCM accepts no message, nothing is delivered |
| `Delivery.AllAcceptedAllDelivered` | api/push.ts:79-81 | with a service account, an issuer that always gives a token and FCM accepting everything, every token is delivered |
| `Delivery.RunIsReplay` | api/push.ts:36-85 | (with `CallsOf` for the `getAccessToken` inputs of the first `k` sends) the loop leaves the same cache, and asks the issuer as often, as the same `getAccessToken` calls made one after another |
| `Delivery.NoFetchWhileFreshInLoop` | api/push.ts:26-85 | when the cached token stays fresh for every send, the loop never asks the issuer and leaves the cache as it was |
| `Delivery.OneFetchPerWindowInLoop` | api/push.ts:26-85 | when the first send finds the cache stale and the issuer gives a token without expiry, and every later send falls within the default window, the loop asks the issuer exactly once |
| `Handler.Status` | api/push.ts:63-87 | status 200 is given exactly to a successful dispatch; every refusal has a 4xx or 5xx status |
| `Handler.IsOk` | api/push.ts:63-87 | the `ok` flag is set exactly when the status is 200 |
| `Handler.NoteOf` | api/push.ts:67-80 | the notification's title is never empty; a request without a body gets the default title, an empty body and no data; a given body text is used as it is |
| `Handler.Respond` | api/push.ts:61-87 | a refused request sends nothing, calls no issuer and leaves the cache alone; an accepted one logs one outcome per resolved token, with `total` the number of resolved tokens, `delivered` the number of accepted outcomes, `delivered <= total`, under the configured project id |
| `Handler.RespondTriesEachToken` | api/push.ts:75-87 | for an accepted request, log entry i is about the i-th resolved token, and it is a delivery exactly when that send got a credential and the service accepted the message |
| `Handler.Handle` | api/push.ts:61-87 | answers, logs and updates the cache as `Respond` says |
| `Handler.StatusPrecedence` | api/push.ts:63-70 | 405 exactly for a non-POST; 401 exactly for a POST with a wrong key; 500 exactly for a right key without project id; 400 exactly when, besides, neither `tokens` nor `userIds` is a non-empty array; 200 exactly when all checks pass |
| `Handler.UserIdsOnlyDeliverNothing` | api/push.ts:72-87 | a request naming user ids and no token (no `tokens` array or an empty one) is answered 200 with `delivered = 0, total = 0` and no issuer call |
| `Handler.CredentialFailureIsNotAServerError` | api/push.ts:29-84 | with an empty cache and an issuer that gives no token, an accepted request still gets 200 with every token tried, none delivered, and each token logged as lacking a credential |
| `Handler.NoCredentialNoDelivery` | api/push.ts:79-84 | with an empty cache and an issuer that gives no token, every send lacks a credential, the cache stays empty and nothing is delivered |
| `Handler.OneOfTwoDelivered` | api/push.ts:77-87 | tokens `A` and `B`, `A` accepted and `B` refused: the answer is ok with one delivered out of two, and the issuer is asked once |

## Left out

- HTTP plumbing (`res.status().json()`), the JSON bodies beyond status, `ok`, project id and the two counts, and `console.error` logging.
- The `fetch` to the FCM endpoint, the JSON message it posts and `resp.text()`/`resp.json()`: each send's result is the input `Attempt.accepted`, which stands for "the call resolved with a success status and a JSON body" (a success status whose body fails to parse is caught like any other failure).
- `google.auth.JWT` construction and `authorize()`: the issuer's reply is the input `Reply`. An exception thrown by `authorize()` is caught by the same per-token handler as an empty token, with the issuer asked, the cache untouched and the token not delivered, so `Reply(None, _)` stands for it too. Line 28 destructures `{ token, res }` from `authorize()`; if the library resolves `authorize()` to a credentials object without a `token` field, every refresh fails at line 29 and, from an empty cache, nothing is ever delivered, which is the case `Handler.CredentialFailureIsNotAServerError` describes. This depends on the library's types, not on the source, and is not settled here.
- Reading `APP_KEY` (and its default) and parsing `GOOGLE_APPLICATION_CREDENTIALS_JSON` from the environment: the shared secret and the parsed service account are the `Config` parameter. A `project_id` that is a truthy non-string is not modelled.
- `Date.now()`: the time is an integer parameter in seconds. `Number(...)` of a fractional expiry is not modelled; the expiry is an integer or absent.
- Asynchrony and the unguarded race on `cachedToken` between concurrent invocations: calls are taken one at a time.
- The outer `catch` that answers 500 (api/push.ts:88-91): no modelled step throws outside the per-token `try`, so the model has no such outcome. The likely way into it is the hosting framework parsing the body lazily when `req.body` is read (line 67) and throwing on malformed JSON; that is framework behaviour outside the source, and such a request, which the source answers 500, is not represented (a `body` of `None` stands for a missing body and gets 400).
- The `x-app-key` header arriving as an array of values: the header is one optional string.
- Body values of other JSON types: a truthy non-string `title`, `body` or `data` passes through `||` unchanged, and a `tokens` array may hold non-strings, which still count towards `total`. The model types these as strings and a string map; the counts do not depend on it, since acceptance is an input.
- User ids are never resolved to device tokens: the source only describes that lookup in a comment (api/push.ts:72-74). The per-user lookup of a legacy variant of the endpoint is not part of this model.
- The configuration check looks only at `project_id`; the service account's email and key are used only by the token issuer, which is a parameter.
