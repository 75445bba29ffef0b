# nsrestlet in Dafny

A model of a small NetSuite RESTlet client and proofs about it. The client
comes in two versions, each exporting one `createLink(accountSettings,
urlSettings)` factory:

- `nsrestlet.js`, the current version (module `Restlet`);
- `index.js`, the older version (module `Legacy`).

`createLink` checks the settings and picks an authentication scheme. OAuth 1.0a
is picked when all four token and consumer fields are set. Otherwise NLAuth is
picked, and it needs an email and a password. `createLink` returns a facade with
`get`, `post`, `put` and `delete`.

Each call builds a URL and an `Authorization` header, then sends the request.
Transient failures are retried a bounded number of times, optionally through a
timer. The caller receives at most one result, through a callback or a promise.
As the code is written, some inputs make a callback throw, and then nobody is
called back.

- The current version asks a discovery service for the account's REST domain in
  every attempt. It treats a response body carrying an `error.code` as an error.
  It retries when the error text *contains* a known transient error.
- The older version fixes the URL when the link is created. It hands every
  response over as a success. It retries only when the error text *is exactly* a
  known transient error.

Files:

- `js.dfy` (`Js`): the JavaScript values the client handles, and JavaScript
  semantics it relies on:
  - truthiness and property access;
  - `String.prototype.indexOf` and `Array.prototype.indexOf`;
  - the `search` part of Node's `url.parse`.
- `settings.dfy` (`Settings`): the shared data model:
  - settings, requests, replies and traces of a call;
  - the retry knobs;
  - the promise wrapper.
  The transport and the libraries the client calls (`qs.stringify`,
  `JSON.parse`, the OAuth signer) are passed in as functions.
- `auth.dfy` (`Auth`): the two `Authorization` values. The NLAuth header is also
  read back into its fields.
- `restlet.dfy` (`Restlet`): `nsrestlet.js`.
- `legacy.dfy` (`Legacy`): `index.js`.
- `versions.dfy` (`Versions`): what the two versions share and where they part.

A call is modelled as a chain of attempts. `Chain` is a specification function:
it gives the requests sent, the wait before each retry, and how the chain ends
(the callback is called, or an exception escapes).

The transport is a `Network`. It gives the reply to the `k`-th attempt's
discovery request and to the `k`-th request. The recursive method `MakeCall`
mirrors the source's recursive `makeCall(repeats)` and is proved equal to
`Chain`.

Each version has one defect, listed under Findings. A boolean parameter selects
between the code as written and the corrected code:

- `sharedScope` in `Restlet`: `true` is the code as written, where the request's
  callback reuses the discovery callback's variables;
- `asWritten` in `Legacy`: `true` is the code as written, where the timer's delay
  reads an undeclared variable.

The methods, from `Attempt` up to `CallRestlet`, take this parameter, so they
model both forms. The lemmas about `Chain` prove:

- the attempt counts;
- the delay schedule;
- which inputs make a callback throw;
- that a chain whose callbacks cannot throw delivers exactly one result.

## Model

| member | source | states |
|---|---|---|
| Js.IndexOf | nsrestlet.js:53 | `indexOf` returns -1 exactly when the needle does not occur. Otherwise it returns the first position where the needle occurs. |
| Js.ElementIndex | index.js:269 | Array `indexOf` returns -1 exactly when no element equals the text. Otherwise it returns the first position holding exactly that text. |
| Js.SearchOfQuery | nsrestlet.js:282-283 | Take a URL made of a base without `?` or `#`, then `?`, then a query without `#`. Its `search` part is `?` followed by that query. |
| Restlet.CreateLink | nsrestlet.js:98-169 | Each missing piece gives its own error, checked in the source's order: the account settings, the account id, the credentials, the URL settings (`MissingUrlSettings`), then a target (`MissingTarget`). It succeeds exactly when the settings are complete. OAuth is chosen exactly when all four OAuth keys are set. Otherwise the link uses NLAuth, and the login is present. |
| Restlet.HasErrorMessage | nsrestlet.js:49-59 | The result is true exactly when some listed error occurs as a substring of the message. An empty list gives false. |
| Restlet.ResolveUrl | nsrestlet.js:259-295 | The `+=` construction yields `TargetUrl`. That is the static target when discovery left a truthy `error_message`. Otherwise it is the discovered domain, the RESTlet path and the query. For GET and DELETE, `&` and the encoded payload follow. |
| Restlet.ExplicitQueryCarried | nsrestlet.js:277-284 | When discovery succeeds, an explicit URL contributes exactly its query to the called URL. |
| Restlet.BuildHeaders | nsrestlet.js:298-329 | The content type is always `application/json`. The `Authorization` value is the scheme chosen at creation: OAuth with the realm, or NLAuth. |
| Auth.ComposeAuthorization | nsrestlet.js:298-326 | The header built by `+=` is the OAuth signer's value followed by the realm suffix, or the NLAuth value. |
| Auth.OAuthHeaderRealm | nsrestlet.js:309-310 | The OAuth value is the signer's value followed by exactly `, realm="<accountId>"`. |
| Auth.ComposeNLAuth | nsrestlet.js:316-325 | The four `+=` steps build `NLAuthHeader`: the scheme, then the account, email, signature and (when set) role fields, joined by commas. |
| Auth.NLAuthHeaderSpelled | nsrestlet.js:317-325 | The NLAuth value is, character for character, `NLAuth nlauth_account=A,nlauth_email=E,nlauth_signature=P`, with `,nlauth_role=R` exactly when a role is set. |
| Auth.NLAuthHeaderFields | nsrestlet.js:316-325 | If no field contains a comma, the NLAuth value starts with the scheme and splits back into its fields, in order. There are three fields, or four with a role. |
| Auth.SplitJoin | nsrestlet.js:317-325 | Splitting comma-joined `key=value` pairs gives the pairs back, when keys have no `=` and nothing has a comma. |
| Auth.ParsePairOfPair | nsrestlet.js:317 | Splitting `key=value` at its first `=` gives the key and the value, when the key has no `=`. |
| Restlet.TakeDiscovery | nsrestlet.js:237-257 | The discovery callback yields `AfterDiscovery`. A transport error sets the error and its text. An undefined or null body makes it throw. An envelope sets the error and the code, kept as is. |
| Restlet.TakeBody | nsrestlet.js:359-370 | Reading a body fails exactly when it is undefined or null. Otherwise the body is kept. An envelope sets `actual_error` to the `error` object and `error_message` to its truthy code. Without an envelope the error and the message are unchanged. |
| Restlet.TakeFailure | nsrestlet.js:351-355 | A transport failure sets `actual_error` and a truthy `error_message` (its text), and keeps `actual_body`. |
| Settings.ErrorText | nsrestlet.js:243 | The text of a transport error, its `message` or else `JSON.stringify(error)`, is never empty. It is the message when there is one. |
| Restlet.TakeReply | nsrestlet.js:351-371 | The request callback, starting from the given variables, yields `AfterResponse`. A non-empty GET or DELETE body is parsed; a parse failure throws a SyntaxError. A body that is or parses to undefined or null throws a TypeError. |
| Restlet.Decide | nsrestlet.js:374-409 | A retry happens exactly when `error_message` is a non-empty string that contains a transient error and the counter is above zero. Its wait is the backoff timer when both knobs are set, else immediate. A throw happens exactly when taking the reply threw, or when the message is truthy but not a string (`indexOf` at nsrestlet.js line 53). Otherwise the callback gets the body when the message is falsy, else the error alone. |
| Restlet.Attempt | nsrestlet.js:228-345 | When the discovery callback throws, no request is sent. Otherwise one attempt sends `RequestAt`, built from that attempt's discovery reply. Its callback starts from the discovery variables (as written) or from fresh ones (corrected). |
| Restlet.AttemptStep | nsrestlet.js:374-409 | An attempt's requests and decision are `AttemptAt`, in either form. The decision is one of: throw; call back with the body; retry on a contained transient error while `repeats > 0`; call back with the error. |
| Restlet.MakeCall | nsrestlet.js:226-414 | The recursive `makeCall(repeats)` produces exactly the trace `Chain` specifies, as written or corrected. |
| Restlet.MakeCalls | nsrestlet.js:416-421 | The counter starts at `retries`, or at 3 when `retries` is 0. The chain ends with exactly one outcome: one callback, or one throw and no callback. |
| Restlet.CallRestlet | nsrestlet.js:196-219 | With a callback, that callback receives the chain's result, or nothing when the chain threw. Without one, the promise is rejected with the error, resolved with the body, or left pending after a throw. |
| Settings.Settle | nsrestlet.js:203-218 | The promise is rejected exactly when an error is delivered, resolved with the body otherwise, and left pending when the chain threw. |
| Restlet.PersistentFailureAttempts | nsrestlet.js:379-421 | Suppose every discovery body can be read and every request fails with a retryable error. A chain started with counter `repeats` then sends `repeats + 1` requests, or 1 when `repeats` is not positive. It waits before all but the first. It delivers the error of the last request sent. |
| Restlet.FailedAttempt | nsrestlet.js:374-402 | Under such failures, one attempt retries while `repeats > 0`. Otherwise it delivers that request's transport error. |
| Restlet.WaitSchedule | nsrestlet.js:381-393 | There is one wait fewer than there are requests, or as many when the last discovery callback threw. The `i`-th wait is the one prescribed for counter `repeats - i`. |
| Restlet.LinearBackoff | nsrestlet.js:383-388 | With `backoff` and `retries` set, the `i`-th retry is delayed by `backoff * (i - 1)`. The delays grow linearly and the first one is negative. |
| Restlet.DocumentedBackoff | nsrestlet.js:383-421 | Take `retries: 4, backoff: 10`, readable discovery bodies and persistent timeouts. The call sends five requests, and the four delays are -10, 0, 10 and 20 ms. |
| Restlet.DiscoveryThrows | nsrestlet.js:249-252 | An undefined or null discovery body throws a TypeError before any request is sent. |
| Restlet.ReplyThrows | nsrestlet.js:359-366 | A reply that `JSON.parse` rejects throws a SyntaxError after one request. A reply that is or parses to undefined or null throws a TypeError after one request. |
| Restlet.SuccessDeliversBody | nsrestlet.js:357-409 | A POST or PUT answered with a readable body without an error envelope sends one request and calls back with the body unparsed. This holds with fresh variables always. As written, it holds only when discovery left no truthy error message. |
| Restlet.EnvelopeIsError | nsrestlet.js:361-403 | A reply with `error.code` is an error, for any method: a POST or PUT body as it arrives, a non-empty GET or DELETE body once parsed. A code that is not a string throws a TypeError after one request. A string code naming a transient error is retried while the counter allows it. Otherwise the `error` object is delivered after one request. This holds as written and corrected alike. |
| Restlet.FailureDelivered | nsrestlet.js:351-403 | A transport failure is delivered after one request when it is non-retryable or the counter is spent, in either form. |
| Restlet.CallsBack | nsrestlet.js:237-410 | Suppose no callback can throw: every discovery body and reply can be read, every reply parses, and every error code is a string. Then every chain ends by calling back. |
| Restlet.RetryRediscovers | nsrestlet.js:226-392 | A retry asks the discovery service again. When the next discovery body can be read, the second request is built from it. |
| Restlet.SharedScopeMasksSuccess | nsrestlet.js:237-374 | As written, suppose discovery failed and the POST or PUT got a readable body without an envelope. The attempt then reports the discovery error, or retries. With fresh variables it delivers the body. |
| Restlet.DiscoveryFailureMasksSuccess | nsrestlet.js:237-374 | A concrete case: discovery fails with `ENOTFOUND` and the RESTlet answers `"12345"`. As written the caller receives `ENOTFOUND`. With fresh variables the caller receives `"12345"`. |
| Restlet.FreshScopeAgrees | nsrestlet.js:237-374 | When discovery never leaves a truthy error message, fresh variables change nothing. |
| Restlet.FreshStartAgrees | nsrestlet.js:351-409 | One reply is decided alike from a discovery scope without error and from fresh variables. |
| Legacy.CreateLink | index.js:57-142 | The same errors as the current version, in the same order, including `MissingUrlSettings` and `MissingTarget`. The same OAuth/NLAuth choice. The fixed URL is the explicit `url`, or the synthesized `https://{accountId}.restlets.api.netsuite.com/...?script=S&deploy=D`. |
| Legacy.ComposeUrl | index.js:196-200 | The call URL is computed once. It is the link's URL, followed for GET and DELETE by `&` and the encoded payload. |
| Legacy.BuildHeaders | index.js:207-245 | The `Authorization` value is the chosen scheme's. The content type is the link's own, or `application/json` when it has none. |
| Legacy.Decide | index.js:263-300 | Any response is a success. A retry happens exactly on an exact match of a transient error while `repeats > 0`, except in the as-written timer case. A throw happens exactly in that case. Every other error is delivered. |
| Legacy.AttemptStep | index.js:205-301 | One attempt sends `RequestAt` and decides as `Decide`, as written or corrected. |
| Legacy.MakeCall | index.js:205-302 | The recursive `makeCall(repeats)` produces exactly `Chain`, as written or corrected. |
| Legacy.MakeCalls | index.js:196-309 | The URL is built once and the counter starts at `retries`, or at 3. The chain ends with exactly one outcome. It is a callback whenever no timer is due as written. |
| Legacy.CallRestlet | index.js:169-200 | With a callback, it receives the result, or nothing after a throw. Without one, the promise settles from the result or stays pending. Corrected, or without a timer, the callback is always called. |
| Legacy.AlwaysCallsBack | index.js:261-300 | Corrected, or as written without both `backoff` and `retries`, every chain ends by calling back, whatever the transport does. |
| Legacy.BackoffReferenceError | index.js:273-279 | As written, take the first retryable failure of a link with `backoff` and `retries` set. The code throws after one request, never calls back, and the promise stays pending. Corrected, it waits `backoff * (retries - (repeats + 1))` and sends again. |
| Legacy.SameUrlEveryAttempt | index.js:196-258 | Every attempt goes to the same URL, with the same method, content type and body. |
| Legacy.PersistentFailureAttempts | index.js:269-309 | Suppose every request fails with exactly a retryable error and no timer is involved. The chain then sends `repeats + 1` requests and delivers the error of the last one. |
| Legacy.FailedAttempt | index.js:263-293 | Under such failures, one attempt retries while `repeats > 0`. Otherwise it delivers that request's error. |
| Legacy.WaitSchedule | index.js:271-283 | The `i`-th wait is the one prescribed for counter `repeats - i`. |
| Legacy.AnswerDelivered | index.js:295-300 | Any response is delivered as a success after one request, even one carrying an `error` object. |
| Legacy.FailureDelivered | index.js:263-293 | An error that is not exactly a transient one, or any error once the counter is spent, is delivered after one request. |
| Versions.CreateLinkAgrees | nsrestlet.js:98-169 | Both versions reject the same settings with the same error, and pick the same scheme. The older version's URL is the static target. |
| Versions.FallbackMatchesLegacy | nsrestlet.js:262-295 | After discovery leaves a truthy error message, the current version calls exactly the URL the older one calls. |
| Versions.ExactImpliesSubstring | nsrestlet.js:379 | Every failure the older version retries, the current version retries too. |
| Versions.SubstringOnly | nsrestlet.js:49-59 | `connect ETIMEDOUT` contains a transient error but is not one. |
| Versions.SameRetrySchedule | nsrestlet.js:379-421 | Take readable discovery bodies and persistent exact transient errors. Both versions send as many requests, wait identically, and deliver the error of their last request. The current version may be as written or corrected. The older version must be corrected, or as written with no timer: with `backoff` and `retries` set, the older version as written throws after one request (`Legacy.BackoffReferenceError`). |
| Versions.TransportTextDiverges | nsrestlet.js:379 | Take discovery answering with a domain and a transport failing with `connect ETIMEDOUT`. The current version sends one request more than its starting counter (`retries`, or 3 when unset: four requests), or one request when `retries` is negative. The older one sends one. Both then deliver that error. |
| Versions.EnvelopeDiverges | nsrestlet.js:366-393 | Take discovery answering with a domain and a rate-limit envelope on a POST or PUT. The current version sends the request again. The older version sends one request and delivers the envelope as a success. |

## Left out

- The HTTP transport is the `Network` parameter: the reply to each attempt's discovery request and to each request. Timeouts, sockets and concurrency between calls are not modelled.
- The discovery request itself (its URL and options) is not modelled. The network gives its reply per attempt.
- The OAuth 1.0a signature and the HMAC-SHA256 hash are opaque. The signer is a function of the URL, the method, the four keys and the attempt index; the index stands for the nonce and timestamp. Only the realm suffix is modelled. The older version passes the token as `{public, secret}` and the current one as `{key, secret}`; that difference is inside the opaque signer.
- `qs.stringify`, `JSON.parse` and `JSON.stringify` are functions given as parameters. A throwing `JSON.parse` is `None`. `JSON.stringify(error)` is the `serialized` field of a transport error.
- `url.parse` is modelled only for its `search` part (up to `#`). Its escaping and normalisation are not modelled.
- `setTimeout` and promise scheduling are not modelled. A retry records its wait (immediate, or the timer's `backoff * factor` delay), and the chain records the single delivered result.
- The crypto-availability guard and the HMAC helper (nsrestlet.js:27-47) are environment plumbing.
- Numbers, booleans and arrays are not JavaScript values here. `retries` and `backoff` are integers, with 0 meaning unset; strings are empty when unset.
- Restlet.Decide: an `error.code` that is not a string is modelled as an object: truthy, with no `indexOf`. Two cases of the source are therefore not captured. A falsy code such as `0` or `false` is no envelope in the source, so the body is delivered; the model has no value for it. An array code has `Array.prototype.indexOf` in the source, so `["ETIMEDOUT"]` matches by element and is retried; in the model it throws a TypeError.
- The thrown exceptions are named, not constructed: `TypeError`, `SyntaxError`, and the ReferenceError of index.js. The text of the `Error` that `createLink` throws is not modelled. Each configuration error is a `ConfigError` constructor. `MissingUrlSettings` and `MissingTarget` share one text in the source.
- The settings objects are aliased and re-read, not copied. Each call and each retry reads `urlSettings` and `accountSettings` afresh (nsrestlet.js:265-324 and 383-419, index.js:213-305). The model copies them into the link at creation. A caller that mutates its settings object after `createLink` changes later calls in the source, and this is not modelled.
- Legacy.Decide: the error callback's `body` is modelled as undefined. The transport library gives no body with an error.
- index.js:265 assigns `error_message` without declaring it, so it becomes a global shared by all links. Each attempt in the model reads the value it has just written. Interleaving between concurrent calls is not modelled.
- The no-op `authType == "NLAuth"` (nsrestlet.js:117, index.js:76) leaves `authType` undefined. NLAuth is then reached through the `else` of the header dispatch, which the model keeps as `None`.
- index.d.ts is type declarations only. Its comment calls the backoff exponential, but the code's delay is linear. The model follows the code (`Restlet.LinearBackoff`).
- With `retries: 4` the code sends five requests, and the first retry's delay is `-backoff` (`Restlet.DocumentedBackoff`). The current version re-runs discovery in every attempt, not once per call (`Restlet.RetryRediscovers`).
- After a throw the model stops: the chain ends in `Threw`, with no callback and no settled promise. The exception escapes the transport's callback and nothing in the code catches it; what the process does next (without an `uncaughtException` handler Node ends it) is not modelled. "Left pending" and "stays pending" in the table mean only that the code never settles the promise.
- test.js runs against a live account and is not part of this model.

## Findings

| source | as written | input that shows it | evidently intended | confidence | as-written member | corrected member |
|---|---|---|---|---|---|---|
| nsrestlet.js:237-374 | The request callback reuses `actual_error`, `actual_body` and `error_message` from the discovery callback, so a discovery error survives into the request's outcome | discovery fails with `ENOTFOUND`; the RESTlet answers a POST with `"12345"` | the request's outcome depends only on the request's reply, and the caller receives `"12345"` | high (not executed) | Restlet.DiscoveryFailureMasksSuccess | Restlet.SuccessDeliversBody |
| index.js:273-279 | The timer delay reads an undeclared `backoff`, which throws a ReferenceError inside the transport's callback, so nobody is called back | `retries: 4, backoff: 10`; the first request fails with `ETIMEDOUT` | wait `urlSettings.backoff * (retries - (repeats + 1))` ms, then retry | high (not executed) | Legacy.BackoffReferenceError | Legacy.AlwaysCallsBack |
