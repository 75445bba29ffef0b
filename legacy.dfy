/** index.js, the older client: `createLink` validates the settings and fixes the
    target URL once; every call builds its URL once, then sends signed requests to
    it, retrying transport failures whose message is exactly one of the known
    transient errors. */
module Legacy {
  import opened Js
  import opened Settings
  import Auth

  /** What the facade closes over: the settings, `authType` ("OAuth" or left
      undefined, as in the current version) and the URL fixed at creation. */
  datatype Link = Link(account: AccountSettings, urls: UrlSettings, authType: Option<string>, baseUrl: string)

  const OAuth: string := "OAuth"

  /** The message the retry path throws as written: `backoff` is not declared in
      the scope of the `setTimeout` call. */
  const BackoffUndefined: string := "ReferenceError: backoff is not defined"

  /** `createLink`: the configuration errors it throws, in the order it checks
      them, and otherwise the link with its authentication type and the URL it
      will call. */
  function CreateLink(account: Option<AccountSettings>, urls: Option<UrlSettings>): (r: Result<Link, ConfigError>)
    ensures account.None? ==> r == Failure(MissingAccountSettings)
    ensures account.Some? && account.value.accountId == "" ==> r == Failure(MissingAccountId)
    ensures (account.Some? && account.value.accountId != "" && !HasOAuthKeys(account.value) && !HasLogin(account.value))
              ==> r == Failure(MissingCredentials)
    ensures (account.Some? && account.value.accountId != "" && (HasOAuthKeys(account.value) || HasLogin(account.value)))
              ==> (urls.None? ==> r == Failure(MissingUrlSettings))
                  && (urls.Some? && !HasTarget(urls.value) ==> r == Failure(MissingTarget))
    ensures r.Success? <==>
              && account.Some? && account.value.accountId != ""
              && (HasOAuthKeys(account.value) || HasLogin(account.value))
              && urls.Some? && HasTarget(urls.value)
    ensures r.Success? ==> r.value.account == account.value && r.value.urls == urls.value
    ensures r.Success? ==> (r.value.authType == Some(OAuth) <==> HasOAuthKeys(account.value))
    ensures r.Success? && r.value.authType != Some(OAuth) ==> r.value.authType == None && HasLogin(account.value)
    ensures r.Success? && urls.value.url != "" ==> r.value.baseUrl == urls.value.url
    ensures r.Success? && urls.value.url == "" ==>
              r.value.baseUrl == "https://" + account.value.accountId + ".restlets.api.netsuite.com"
                                 + "/app/site/hosting/restlet.nl" + "?script=" + urls.value.script
                                 + "&deploy=" + urls.value.deployment
  {
    if account.None? then Failure(MissingAccountSettings)
    else
      var a := account.value;
      if a.accountId == "" then Failure(MissingAccountId)
      else
        var notOAuth := a.tokenKey == "" || a.tokenSecret == "" || a.consumerKey == "" || a.consumerSecret == "";
        if notOAuth && (a.email == "" || a.password == "") then Failure(MissingCredentials)
        else
          var authType := if notOAuth then None else Some(OAuth);
          if urls.None? then Failure(MissingUrlSettings)
          else if urls.value.url != "" then Success(Link(a, urls.value, authType, urls.value.url))
          else if urls.value.script != "" && urls.value.deployment != "" then
            Success(Link(a, urls.value, authType, StaticUrl(a.accountId, urls.value.script, urls.value.deployment)))
          else Failure(MissingTarget)
  }

  /** The URL every attempt of a call is sent to */
  function CallUrl(link: Link, m: Method, payload: Value, lib: Library): string {
    link.baseUrl + QuerySuffix(m, payload, lib)
  }

  /** The URL of a call, computed once before its first attempt: the link's URL,
      and for GET and DELETE `&` and the encoded payload after it. */
  method ComposeUrl(link: Link, m: Method, payload: Value, lib: Library) returns (url: string)
    ensures url == CallUrl(link, m, payload, lib)
    ensures EncodesQuery(m) ==> url == link.baseUrl + "&" + lib.queryString(payload)
    ensures !EncodesQuery(m) ==> url == link.baseUrl
  {
    url := link.baseUrl;
    if m == GET || m == DELETE {
      url := url + ("&" + lib.queryString(payload));
    }
  }

  /** The `content-type` header: the link's own, else JSON */
  function ContentType(u: UrlSettings): string {
    if u.contentType != "" then u.contentType else "application/json"
  }

  /** The headers: the `Authorization` value of the link's scheme, and the
      link's content type or, when it has none, JSON */
  method BuildHeaders(link: Link, m: Method, url: string, lib: Library, attempt: nat) returns (headers: Headers)
    ensures headers.authorization == Auth.Authorization(link.account, link.authType == Some(OAuth), m, url, lib, attempt)
    ensures link.urls.contentType != "" ==> headers.contentType == link.urls.contentType
    ensures link.urls.contentType == "" ==> headers.contentType == "application/json"
    ensures headers.contentType == ContentType(link.urls)
  {
    var authorization := Auth.ComposeAuthorization(link.account, link.authType == Some(OAuth), m, url, lib, attempt);
    if link.urls.contentType != "" {
      headers := Headers(authorization, link.urls.contentType);
    } else {
      headers := Headers(authorization, "application/json");
    }
  }

  /** The request attempt `k` sends to `url` */
  function RequestAt(link: Link, url: string, m: Method, payload: Value, lib: Library, k: nat): Request {
    Request(url, m, Headers(Auth.Authorization(link.account, link.authType == Some(OAuth), m, url, lib, k), ContentType(link.urls)),
            JsonBody(m, payload))
  }

  /** What the request's callback does with the reply. Any response, whatever its
      body, is handed over as a success. A transport error whose text is exactly
      one of the retryable errors starts the next attempt while the counter is
      above zero; any other error is handed over. As written (`asWritten`), a
      retry that should go through a timer throws instead. */
  function Decide(reply: Reply, urls: UrlSettings, repeats: int, asWritten: bool): (step: Step)
    ensures step.Retry? ==> repeats > 0 && step.wait == RetryWait(urls, repeats)
    ensures step.Retry? <==>
              reply.Failed? && ErrorText(reply.error) in RetryableErrors && repeats > 0 && !(asWritten && UsesBackoff(urls))
    ensures step.Finish? && step.end.Called? ==>
              step.end.delivery == (if reply.Failed? then Delivery(Some(Transport(reply.error)), Undefined)
                                    else Delivery(None, reply.body))
    ensures step.Finish? && step.end.Threw? <==>
              asWritten && UsesBackoff(urls) && repeats > 0 && reply.Failed? && ErrorText(reply.error) in RetryableErrors
  {
    match reply
    case Answered(body) => Finish(Called(Delivery(None, body)))
    case Failed(e) =>
      if ErrorText(e) in RetryableErrors && repeats > 0 then
        if asWritten && UsesBackoff(urls) then Finish(Threw(BackoffUndefined))
        else Retry(RetryWait(urls, repeats))
      else Finish(Called(Delivery(Some(Transport(e)), Undefined)))
  }

  /** Attempt `k`: the request it sends and what its callback decides */
  function AttemptAt(link: Link, url: string, m: Method, payload: Value, lib: Library, net: Network,
                     asWritten: bool, repeats: int, k: nat): (Request, Step)
  {
    var request := RequestAt(link, url, m, payload, lib, k);
    (request, Decide(net.restlet(k, request), link.urls, repeats, asWritten))
  }

  /** `makeCall(repeats)` as attempt `k`, and the attempts it leads to */
  function Chain(link: Link, url: string, m: Method, payload: Value, lib: Library, net: Network,
                 asWritten: bool, repeats: int, k: nat): Trace
    decreases if repeats > 0 then repeats else 0
  {
    var (request, step) := AttemptAt(link, url, m, payload, lib, net, asWritten, repeats, k);
    match step
    case Retry(wait) => Extend([request], [wait], Chain(link, url, m, payload, lib, net, asWritten, repeats - 1, k + 1))
    case Finish(end) => Trace([request], [], end)
  }

  /** One attempt of `makeCall` with counter `repeats`: the headers, the request,
      and the decision its callback takes. As written (`asWritten`) the timer's
      delay reads the undeclared `backoff`; corrected, it reads `backoff` from the
      URL settings. */
  method AttemptStep(link: Link, url: string, m: Method, payload: Value, lib: Library, net: Network,
                     asWritten: bool, repeats: int, k: nat)
    returns (request: Request, step: Step)
    ensures (request, step) == AttemptAt(link, url, m, payload, lib, net, asWritten, repeats, k)
  {
    var headers := BuildHeaders(link, m, url, lib, k);
    var json := None;
    if m != GET && m != DELETE {
      json := Some(payload);
    }
    request := Request(url, m, headers, json);
    var reply := net.restlet(k, request);
    if reply.Failed? {
      var errorMessage := ErrorText(reply.error);
      var at := ElementIndex(RetryableErrors, errorMessage);
      if at != -1 && repeats > 0 {
        if link.urls.backoff != 0 && link.urls.retries != 0 {
          if asWritten {
            // evaluating the delay throws before the timer is started
            step := Finish(Threw(BackoffUndefined));
          } else {
            step := Retry(Timer(link.urls.backoff, link.urls.retries - (repeats + 1)));
          }
        } else {
          step := Retry(Immediately);
        }
      } else {
        step := Finish(Called(Delivery(Some(Transport(reply.error)), Undefined)));
      }
    } else {
      step := Finish(Called(Delivery(None, reply.body)));
    }
  }

  /** `makeCall(repeats)` as attempt `k`: one attempt, and when it decides to
      retry, `makeCall(repeats - 1)` after the wait */
  method MakeCall(link: Link, url: string, m: Method, payload: Value, lib: Library, net: Network,
                  asWritten: bool, repeats: int, k: nat)
    returns (t: Trace)
    ensures t == Chain(link, url, m, payload, lib, net, asWritten, repeats, k)
    decreases if repeats > 0 then repeats else 0
  {
    var request, step := AttemptStep(link, url, m, payload, lib, net, asWritten, repeats, k);
    match step
    case Retry(wait) =>
      var rest := MakeCall(link, url, m, payload, lib, net, asWritten, repeats - 1, k + 1);
      t := Extend([request], [wait], rest);
    case Finish(end) =>
      t := Trace([request], [], end);
  }

  /** The callback path of `callRestlet`: the URL is built once, the counter
      starts at `retries` (or 3), and the chain of attempts calls the callback
      once or throws; it always calls back unless, as written, a timer is due. */
  method MakeCalls(link: Link, m: Method, payload: Value, lib: Library, net: Network, asWritten: bool)
    returns (sent: seq<Request>, waits: seq<Wait>, callbacks: seq<Delivery>, thrown: Option<string>)
    ensures |callbacks| + (if thrown.Some? then 1 else 0) == 1
    ensures !asWritten || !UsesBackoff(link.urls) ==> |callbacks| == 1
    ensures Chain(link, CallUrl(link, m, payload, lib), m, payload, lib, net, asWritten, InitialRepeats(link.urls), 0)
         == Trace(sent, waits, Ending(callbacks, thrown))
  {
    var url := ComposeUrl(link, m, payload, lib);
    var amountOfCalls := 3;
    if link.urls.retries != 0 {
      amountOfCalls := link.urls.retries;
    }
    var t := MakeCall(link, url, m, payload, lib, net, asWritten, amountOfCalls, 0);
    if !asWritten || !UsesBackoff(link.urls) {
      AlwaysCallsBack(link, url, m, payload, lib, net, asWritten, amountOfCalls, 0);
    }
    sent, waits := t.sent, t.waits;
    if t.end.Called? {
      callbacks, thrown := [t.end.delivery], None;
    } else {
      callbacks, thrown := [], Some(t.end.reason);
    }
  }

  /** `callRestlet` behind `get`, `post`, `put` and `delete`: with a callback, the
      callback receives the chain's one result; without one, the returned promise
      is settled from it. */
  method CallRestlet(link: Link, m: Method, payload: Value, hasCallback: bool, lib: Library, net: Network, asWritten: bool)
    returns (completion: Completion, sent: seq<Request>)
    ensures var t := Chain(link, CallUrl(link, m, payload, lib), m, payload, lib, net, asWritten, InitialRepeats(link.urls), 0);
      && sent == t.sent
      && (!asWritten || !UsesBackoff(link.urls) ==> t.end.Called?)
      && (hasCallback ==> completion == ViaCallback(if t.end.Called? then [t.end.delivery] else []))
      && (!hasCallback ==> completion == ViaPromise(Settle(t.end)))
  {
    var waits, callbacks, thrown;
    sent, waits, callbacks, thrown := MakeCalls(link, m, payload, lib, net, asWritten);
    if hasCallback {
      completion := ViaCallback(callbacks);
    } else {
      completion := ViaPromise(Settle(Ending(callbacks, thrown)));
    }
  }

  // ---------------------------------------------------------------------------
  // Properties of a call chain

  /** Without the undeclared `backoff` (corrected, or with no timer to start),
      every chain ends by calling back, whatever the transport does. */
  lemma {:induction false} AlwaysCallsBack(link: Link, url: string, m: Method, payload: Value, lib: Library, net: Network,
                                           asWritten: bool, repeats: int, k: nat)
    requires !asWritten || !UsesBackoff(link.urls)
    ensures Chain(link, url, m, payload, lib, net, asWritten, repeats, k).end.Called?
    decreases if repeats > 0 then repeats else 0
  {
    var attempt := AttemptAt(link, url, m, payload, lib, net, asWritten, repeats, k);
    if attempt.1.Retry? {
      AlwaysCallsBack(link, url, m, payload, lib, net, asWritten, repeats - 1, k + 1);
    }
  }

  /** As written, the first retryable failure of a link with both `backoff` and
      `retries` set throws a ReferenceError: one request is sent, nobody is called
      back and the promise never settles, where the corrected code would wait and
      send the next request. */
  lemma BackoffReferenceError(link: Link, url: string, m: Method, payload: Value, lib: Library, net: Network,
                              repeats: int, k: nat, e: TransportError)
    requires UsesBackoff(link.urls) && repeats > 0
    requires net.restlet(k, RequestAt(link, url, m, payload, lib, k)) == Failed(e)
    requires ErrorText(e) in RetryableErrors
    ensures var t := Chain(link, url, m, payload, lib, net, true, repeats, k);
      t == Trace([RequestAt(link, url, m, payload, lib, k)], [], Threw(BackoffUndefined)) && Settle(t.end) == Pending
    ensures var t := Chain(link, url, m, payload, lib, net, false, repeats, k);
      |t.sent| >= 2 && t.waits[0] == Timer(link.urls.backoff, link.urls.retries - (repeats + 1))
  {
    var rest := Chain(link, url, m, payload, lib, net, false, repeats - 1, k + 1);
    assert |rest.sent| >= 1;
  }

  /** A request goes to `url`, with the link's content type and the call's body */
  predicate SentAs(req: Request, link: Link, url: string, m: Method, payload: Value) {
    req.url == url && req.verb == m && req.headers.contentType == ContentType(link.urls) && req.json == JsonBody(m, payload)
  }

  /** Every attempt of a chain is sent to the same URL, with the same method,
      content type and body. */
  lemma {:induction false} SameUrlEveryAttempt(link: Link, url: string, m: Method, payload: Value, lib: Library, net: Network,
                                               asWritten: bool, repeats: int, k: nat)
    ensures forall i :: 0 <= i < |Chain(link, url, m, payload, lib, net, asWritten, repeats, k).sent| ==>
              SentAs(Chain(link, url, m, payload, lib, net, asWritten, repeats, k).sent[i], link, url, m, payload)
    decreases if repeats > 0 then repeats else 0
  {
    var attempt := AttemptAt(link, url, m, payload, lib, net, asWritten, repeats, k);
    if attempt.1.Retry? {
      SameUrlEveryAttempt(link, url, m, payload, lib, net, asWritten, repeats - 1, k + 1);
      var rest := Chain(link, url, m, payload, lib, net, asWritten, repeats - 1, k + 1);
      var t := Chain(link, url, m, payload, lib, net, asWritten, repeats, k);
      assert t.sent == [attempt.0] + rest.sent;
      forall i | 0 < i < |t.sent| ensures SentAs(t.sent[i], link, url, m, payload) {
        assert t.sent[i] == rest.sent[i - 1];
      }
    }
  }

  /** The transport fails every request with exactly one of the retryable errors */
  ghost predicate FailsWithListedError(net: Network) {
    forall k: nat, req: Request :: net.restlet(k, req).Failed? && ErrorText(net.restlet(k, req).error) in RetryableErrors
  }

  /** Under persistent retryable failure an attempt that starts no timer retries
      while the counter is above zero, else hands over its request's error */
  lemma FailedAttempt(link: Link, url: string, m: Method, payload: Value, lib: Library, net: Network,
                      asWritten: bool, repeats: int, k: nat)
    requires FailsWithListedError(net)
    requires !asWritten || !UsesBackoff(link.urls)
    ensures var request := RequestAt(link, url, m, payload, lib, k);
      AttemptAt(link, url, m, payload, lib, net, asWritten, repeats, k)
      == (request, if repeats > 0 then Retry(RetryWait(link.urls, repeats))
                   else Finish(Called(Delivery(Some(Transport(net.restlet(k, request).error)), Undefined))))
  {
    var request := RequestAt(link, url, m, payload, lib, k);
    assert net.restlet(k, request).Failed? && ErrorText(net.restlet(k, request).error) in RetryableErrors;
  }

  /** Under persistent retryable failure, a chain that starts no timer (corrected,
      or as written without `backoff`) sends `repeats + 1` requests (one when the
      counter is not positive), waits before each but the first, and hands the
      error of the last request to the callback. */
  lemma {:induction false} PersistentFailureAttempts(link: Link, url: string, m: Method, payload: Value, lib: Library, net: Network,
                                                     asWritten: bool, repeats: int, k: nat)
    requires FailsWithListedError(net)
    requires !asWritten || !UsesBackoff(link.urls)
    ensures var t := Chain(link, url, m, payload, lib, net, asWritten, repeats, k);
      && |t.sent| == (if repeats > 0 then repeats else 0) + 1
      && |t.waits| == |t.sent| - 1
      && EndsWithLastError(net, t, k)
    decreases if repeats > 0 then repeats else 0
  {
    var request := RequestAt(link, url, m, payload, lib, k);
    FailedAttempt(link, url, m, payload, lib, net, asWritten, repeats, k);
    var t := Chain(link, url, m, payload, lib, net, asWritten, repeats, k);
    if repeats > 0 {
      PersistentFailureAttempts(link, url, m, payload, lib, net, asWritten, repeats - 1, k + 1);
      var rest := Chain(link, url, m, payload, lib, net, asWritten, repeats - 1, k + 1);
      assert t == Extend([request], [RetryWait(link.urls, repeats)], rest);
      LastErrorExtended(net, request, RetryWait(link.urls, repeats), rest, k);
    } else {
      assert t == Trace([request], [], Called(Delivery(Some(Transport(net.restlet(k, request).error)), Undefined)));
    }
  }

  /** The `i`-th retry of a chain started with counter `repeats` is started as the
      attempt made with counter `repeats - i` prescribes. */
  lemma {:induction false} WaitSchedule(link: Link, url: string, m: Method, payload: Value, lib: Library, net: Network,
                                        asWritten: bool, repeats: int, k: nat)
    ensures var t := Chain(link, url, m, payload, lib, net, asWritten, repeats, k);
      && |t.waits| + 1 == |t.sent|
      && forall i :: 0 <= i < |t.waits| ==> t.waits[i] == RetryWait(link.urls, repeats - i)
    decreases if repeats > 0 then repeats else 0
  {
    var attempt := AttemptAt(link, url, m, payload, lib, net, asWritten, repeats, k);
    if attempt.1.Retry? {
      WaitSchedule(link, url, m, payload, lib, net, asWritten, repeats - 1, k + 1);
      var rest := Chain(link, url, m, payload, lib, net, asWritten, repeats - 1, k + 1);
      var t := Chain(link, url, m, payload, lib, net, asWritten, repeats, k);
      assert t.waits == [RetryWait(link.urls, repeats)] + rest.waits;
      forall i | 0 < i < |t.waits| ensures t.waits[i] == RetryWait(link.urls, repeats - i) {
        assert t.waits[i] == rest.waits[i - 1];
      }
    }
  }

  /** Any response is handed to the callback as a success after one request, even
      a body that carries an `error` object. */
  lemma AnswerDelivered(link: Link, url: string, m: Method, payload: Value, lib: Library, net: Network,
                        asWritten: bool, repeats: int, k: nat, body: Value)
    requires net.restlet(k, RequestAt(link, url, m, payload, lib, k)) == Answered(body)
    ensures Chain(link, url, m, payload, lib, net, asWritten, repeats, k)
         == Trace([RequestAt(link, url, m, payload, lib, k)], [], Called(Delivery(None, body)))
  {
  }

  /** A transport error whose text is not exactly a retryable error, or any error
      once the counter is spent, is handed to the callback after one request. */
  lemma FailureDelivered(link: Link, url: string, m: Method, payload: Value, lib: Library, net: Network,
                         asWritten: bool, repeats: int, k: nat, e: TransportError)
    requires net.restlet(k, RequestAt(link, url, m, payload, lib, k)) == Failed(e)
    requires ErrorText(e) !in RetryableErrors || repeats <= 0
    ensures Chain(link, url, m, payload, lib, net, asWritten, repeats, k)
         == Trace([RequestAt(link, url, m, payload, lib, k)], [], Called(Delivery(Some(Transport(e)), Undefined)))
  {
  }
}
