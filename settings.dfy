/** The data model both versions of the client share: the settings a link is
    created from, the requests it sends, the replies it receives, the results it
    hands back, and the collaborators it does not implement itself (the HTTP
    transport, the query-string encoder, the JSON parser, the OAuth signer), which
    are passed in as functions. */
module Settings {
  import opened Js

  /** `accountSettings`; an absent field is the empty string. */
  datatype AccountSettings = AccountSettings(
    accountId: string,
    tokenKey: string,
    tokenSecret: string,
    consumerKey: string,
    consumerSecret: string,
    email: string,
    password: string,
    role: string)

  /** `urlSettings`; an absent string field is empty, an absent number is 0. */
  datatype UrlSettings = UrlSettings(
    url: string,
    script: string,
    deployment: string,
    contentType: string,
    retries: int,
    backoff: int)

  /** The errors `createLink` throws; the text of the thrown `Error` is left out,
      and the last two are thrown with the same text */
  datatype ConfigError =
    | MissingAccountSettings
    | MissingAccountId
    | MissingCredentials
    | MissingUrlSettings
    | MissingTarget

  /** All four token-based (OAuth 1.0a) credentials are present */
  predicate HasOAuthKeys(a: AccountSettings) {
    a.tokenKey != "" && a.tokenSecret != "" && a.consumerKey != "" && a.consumerSecret != ""
  }

  /** The NLAuth login is present */
  predicate HasLogin(a: AccountSettings) {
    a.email != "" && a.password != ""
  }

  /** An explicit URL, or both a script and a deployment */
  predicate HasTarget(u: UrlSettings) {
    u.url != "" || (u.script != "" && u.deployment != "")
  }

  datatype Method = GET | POST | PUT | DELETE

  /** GET and DELETE carry the payload in the query string, POST and PUT in a JSON body */
  predicate EncodesQuery(m: Method) {
    m == GET || m == DELETE
  }

  const RestletPath: string := "/app/site/hosting/restlet.nl"

  function ScriptQuery(script: string, deployment: string): string {
    "?script=" + script + "&deploy=" + deployment
  }

  /** The account's own RESTlet host */
  function AccountOrigin(accountId: string): string {
    "https://" + accountId + ".restlets.api.netsuite.com"
  }

  /** The URL synthesized from the account, the script and the deployment */
  function StaticUrl(accountId: string, script: string, deployment: string): string {
    AccountOrigin(accountId) + RestletPath + ScriptQuery(script, deployment)
  }

  /** The URL a link calls without asking the discovery service: the explicit URL
      verbatim, else the synthesized one. */
  function StaticTarget(a: AccountSettings, u: UrlSettings): string
    requires HasTarget(u)
  {
    if u.url != "" then u.url else StaticUrl(a.accountId, u.script, u.deployment)
  }

  datatype Headers = Headers(authorization: string, contentType: string)

  /** What is handed to the transport; `json` is the JSON body, if any */
  datatype Request = Request(url: string, verb: Method, headers: Headers, json: Option<Value>)

  /** What `JSON.stringify` makes of an error object: never empty (at least `{}`) */
  type Serialized = s: string | s != "" witness "{}"

  /** A transport failure: its `message`, and what `JSON.stringify` makes of it */
  datatype TransportError = TransportError(message: string, serialized: Serialized)

  /** `error.message || JSON.stringify(error)`: never empty, so always truthy */
  function ErrorText(e: TransportError): (text: string)
    ensures text != ""
    ensures e.message != "" ==> text == e.message
  {
    if e.message != "" then e.message else e.serialized
  }

  datatype Reply = Failed(error: TransportError) | Answered(body: Value)

  /** The transport, as the replies it gives: to the discovery request of the k-th
      attempt, and to the request sent in the k-th attempt. */
  datatype Network = Network(discovery: nat -> Reply, restlet: (nat, Request) -> Reply)

  /** What the OAuth signer is given; `attempt` stands for its nonce and timestamp */
  datatype OAuthInput = OAuthInput(
    url: string,
    verb: Method,
    consumerKey: string,
    consumerSecret: string,
    tokenKey: string,
    tokenSecret: string,
    attempt: nat)

  /** The libraries the client calls: `qs.stringify`, `JSON.parse` (None when it
      throws), and the `Authorization` value the OAuth library computes. */
  datatype Library = Library(
    queryString: Value -> string,
    parseJson: string -> Option<Value>,
    oauthAuthorization: OAuthInput -> string)

  /** `"&" + qs.stringify(payload)` for GET and DELETE, nothing otherwise */
  function QuerySuffix(m: Method, payload: Value, lib: Library): string {
    if EncodesQuery(m) then "&" + lib.queryString(payload) else ""
  }

  /** The JSON body: the payload, except for GET and DELETE */
  function JsonBody(m: Method, payload: Value): Option<Value> {
    if EncodesQuery(m) then None else Some(payload)
  }

  const RetryableErrors: seq<string> := ["ECONNRESET", "ESOCKETTIMEDOUT", "ETIMEDOUT", "SSS_REQUEST_LIMIT_EXCEEDED"]

  /** The first value of the retry counter: `retries` if truthy, else 3 */
  function InitialRepeats(u: UrlSettings): int {
    if u.retries != 0 then u.retries else 3
  }

  /** Both retry knobs are truthy, so retries go through a timer */
  predicate UsesBackoff(u: UrlSettings) {
    u.backoff != 0 && u.retries != 0
  }

  /** How a retry is started: by calling `makeCall` at once, or through
      `setTimeout` with a delay of `backoff * factor` milliseconds */
  datatype Wait = Immediately | Timer(backoff: int, factor: int)

  /** The delay, in milliseconds, that a wait hands to `setTimeout` */
  function Delay(w: Wait): int {
    if w.Timer? then w.backoff * w.factor else 0
  }

  /** How the retry that follows an attempt made with counter `repeats` is started */
  function RetryWait(u: UrlSettings, repeats: int): Wait {
    if UsesBackoff(u) then Timer(u.backoff, u.retries - (repeats + 1)) else Immediately
  }

  /** What the callback receives as its error: a transport error, or the `error`
      object of a response body */
  datatype Fault = Transport(error: TransportError) | Remote(envelope: Value)

  /** The arguments of one `callback(error, body)` call */
  datatype Delivery = Delivery(error: Option<Fault>, body: Value)

  /** How a call chain ends: the callback is called, or an exception escapes from
      the transport's callback and nobody is called back */
  datatype End = Called(delivery: Delivery) | Threw(reason: string)

  /** Everything one call does: the requests it sends in order, how each retry was
      started, and how it ends */
  datatype Trace = Trace(sent: seq<Request>, waits: seq<Wait>, end: End)

  /** `Trace(sent, waits, ...)` followed by the trace `t` */
  function Extend(sent: seq<Request>, waits: seq<Wait>, t: Trace): Trace {
    Trace(sent + t.sent, waits + t.waits, t.end)
  }

  /** What an attempt leads to: the next attempt, started after a wait, or the end */
  datatype Step = Retry(wait: Wait) | Finish(end: End)

  /** The end of a chain from the callbacks it made or the exception it threw */
  function Ending(callbacks: seq<Delivery>, thrown: Option<string>): End
    requires |callbacks| + (if thrown.Some? then 1 else 0) == 1
  {
    if thrown.Some? then Threw(thrown.value) else Called(callbacks[0])
  }

  /** A trace ends by handing over the transport error of its last request, the
      one sent in attempt `k + |t.sent| - 1` */
  ghost predicate EndsWithLastError(net: Network, t: Trace, k: nat) {
    && |t.sent| > 0
    && var last := net.restlet(k + |t.sent| - 1, t.sent[|t.sent| - 1]);
       last.Failed? && t.end == Called(Delivery(Some(Transport(last.error)), Undefined))
  }

  /** Sending one more request in front keeps the error of the last one */
  lemma LastErrorExtended(net: Network, request: Request, wait: Wait, rest: Trace, k: nat)
    requires EndsWithLastError(net, rest, k + 1)
    ensures EndsWithLastError(net, Extend([request], [wait], rest), k)
  {
    var t := Extend([request], [wait], rest);
    assert t.sent[|t.sent| - 1] == rest.sent[|rest.sent| - 1];
  }

  /** The state of the promise returned when no callback is given. `Pending` says
      only that the code never settles it: what the process does with the uncaught
      exception is not modelled. */
  datatype Settlement = Pending | Rejected(reason: Fault) | Fulfilled(value: Value)

  /** The promise wrapper: reject with the error if there is one, resolve with the
      body otherwise; a chain that threw never settles it. */
  function Settle(e: End): (s: Settlement)
    ensures e.Threw? <==> s.Pending?
    ensures e.Called? && e.delivery.error.Some? ==> s == Rejected(e.delivery.error.value)
    ensures e.Called? && e.delivery.error.None? ==> s == Fulfilled(e.delivery.body)
  {
    match e
    case Threw(_) => Pending
    case Called(d) => if d.error.Some? then Rejected(d.error.value) else Fulfilled(d.body)
  }

  /** How a facade call completes: through the callback (the calls it receives) or
      through the returned promise */
  datatype Completion = ViaCallback(calls: seq<Delivery>) | ViaPromise(settlement: Settlement)
}
