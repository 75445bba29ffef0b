/** nsrestlet.js: `createLink` validates the settings once; every call then, in
    each attempt, asks the discovery service for the account's REST domain, builds
    the target URL and the signed request, sends it, classifies the reply, and
    retries transient failures a bounded number of times. */
module Restlet {
  import opened Js
  import opened Settings
  import Auth

  /** What the facade closes over. `authType` is "OAuth" or stays undefined: the
      NLAuth branch of `createLink` only compares it, so NLAuth is reached by the
      `else` of the header dispatch. */
  datatype Link = Link(account: AccountSettings, urls: UrlSettings, authType: Option<string>)

  const OAuth: string := "OAuth"

  /** `createLink`: the configuration errors it throws, in the order it checks
      them, and otherwise the link with its authentication type. */
  function CreateLink(account: Option<AccountSettings>, urls: Option<UrlSettings>): (r: Result<Link, ConfigError>)
    ensures account.None? ==> r == Failure(MissingAccountSettings)
    ensures account.Some? && account.value.accountId == "" ==> r == Failure(MissingAccountId)
    ensures (account.Some? && account.value.accountId != "" && !HasOAuthKeys(account.value) && !HasLogin(account.value))
              ==> r == Failure(MissingCredentials)
    ensures (account.Some? && account.value.accountId != "" && (HasOAuthKeys(account.value) || HasLogin(account.value)))
              ==> (urls.None? ==> r == Failure(MissingUrlSettings))
                  && (urls.Some? && !HasTarget(urls.value) ==> r == Failure(MissingTarget))
    ensures r.Success? <==>
              && account.Some? && account.value.accountId != ""
              && (HasOAuthKeys(account.value) || HasLogin(account.value))
              && urls.Some? && HasTarget(urls.value)
    ensures r.Success? ==> r.value.account == account.value && r.value.urls == urls.value
    ensures r.Success? ==> (r.value.authType == Some(OAuth) <==> HasOAuthKeys(account.value))
    ensures r.Success? && r.value.authType != Some(OAuth) ==> r.value.authType == None && HasLogin(account.value)
  {
    if account.None? then Failure(MissingAccountSettings)
    else
      var a := account.value;
      if a.accountId == "" then Failure(MissingAccountId)
      else
        var notOAuth := a.tokenKey == "" || a.tokenSecret == "" || a.consumerKey == "" || a.consumerSecret == "";
        if notOAuth && (a.email == "" || a.password == "") then Failure(MissingCredentials)
        else
          var authType := if notOAuth then None else Some(OAuth);
          if urls.None? then Failure(MissingUrlSettings)
          else if urls.value.url == "" && !(urls.value.script != "" && urls.value.deployment != "") then Failure(MissingTarget)
          else Success(Link(a, urls.value, authType))
  }

  /** `has_error_message`: whether some element of `errors` occurs in `message` */
  method HasErrorMessage(message: string, errors: seq<string>) returns (found: bool)
    ensures found <==> ContainsAny(message, errors)
  {
    var index := 0;
    while index < |errors|
      invariant 0 <= index <= |errors|
      invariant forall i :: 0 <= i < index ==> !Contains(message, errors[i])
    {
      var at := IndexOf(message, errors[index]);
      if at != -1 {
        return true;
      }
      index := index + 1;
    }
    return false;
  }

  /** The closure variables `actual_error`, `actual_body` and `error_message`;
      `error_message` holds whatever was assigned to it, Undefined until then */
  datatype Scope = Scope(actualError: Option<Fault>, actualBody: Value, errorMessage: Value)

  const Unset: Scope := Scope(None, Undefined, Undefined)

  /** The exceptions a callback can throw: reading a property of undefined or null,
      or calling `indexOf` on something that is not a string */
  const TypeError: string := "TypeError"
  /** `JSON.parse` of text that is not JSON */
  const SyntaxError: string := "SyntaxError"

  /** Reading a property of `v` does not throw: it is neither undefined nor null */
  predicate HasProperties(v: Value) {
    !v.Undefined? && !v.Null?
  }

  /** `actual_body.error && actual_body.error.code` */
  predicate HasEnvelope(body: Value) {
    Truthy(Member(body, "error")) && Truthy(Member(Member(body, "error"), "code"))
  }

  /** Taking a body: it becomes `actual_body`, and an error envelope in it becomes
      `actual_error`, its code (as it is, string or not) `error_message`; None when
      the body is undefined or null, where reading `actual_body.error` throws */
  function TakeBody(s: Scope, body: Value): (r: Option<Scope>)
    ensures r.Some? <==> HasProperties(body)
    ensures r.Some? ==> r.value.actualBody == body
    ensures r.Some? && HasEnvelope(body) ==>
              r.value.actualError == Some(Remote(Member(body, "error")))
              && r.value.errorMessage == Member(Member(body, "error"), "code") && Truthy(r.value.errorMessage)
    ensures r.Some? && !HasEnvelope(body) ==>
              r.value.actualError == s.actualError && r.value.errorMessage == s.errorMessage
  {
    if !HasProperties(body) then None
    else if HasEnvelope(body) then
      Some(Scope(Some(Remote(Member(body, "error"))), body, Member(Member(body, "error"), "code")))
    else
      Some(s.(actualBody := body))
  }

  /** Taking a transport failure: it becomes `actual_error`, its text `error_message` */
  function TakeFailure(s: Scope, e: TransportError): (r: Scope)
    ensures r.actualError == Some(Transport(e)) && r.errorMessage == Str(ErrorText(e)) && Truthy(r.errorMessage)
    ensures r.actualBody == s.actualBody
  {
    s.(actualError := Some(Transport(e)), errorMessage := Str(ErrorText(e)))
  }

  /** The closure variables once the discovery reply has been taken in (the
      discovery request asks for JSON, so its body arrives parsed); None when the
      discovery callback throws a TypeError on an undefined or null body */
  function AfterDiscovery(d: Reply): Option<Scope> {
    match d
    case Failed(e) => Some(TakeFailure(Unset, e))
    case Answered(body) => TakeBody(Unset, body)
  }

  /** The discovery callback of attempt `k` gets past reading the body */
  predicate Discovers(net: Network, k: nat) {
    AfterDiscovery(net.discovery(k)).Some?
  }

  /** The closure variables once the RESTlet's reply has been taken in, starting
      from `start`; Failure with the exception when `JSON.parse` throws on a GET or
      DELETE body, or when reading `actual_body.error` throws */
  function AfterResponse(start: Scope, r: Reply, m: Method, lib: Library): Result<Scope, string> {
    match r
    case Failed(e) => Success(TakeFailure(start, e))
    case Answered(body) =>
      var parsed := Parsed(body, m, lib);
      if parsed.None? then Failure(SyntaxError)
      else
        var taken := TakeBody(start, parsed.value);
        if taken.None? then Failure(TypeError) else Success(taken.value)
  }

  /** The body as the request's callback sees it: a non-empty GET or DELETE reply
      goes through `JSON.parse` (None when that throws), any other arrives as is */
  function Parsed(body: Value, m: Method, lib: Library): Option<Value> {
    if body != Str("") && EncodesQuery(m) then lib.parseJson(ToText(body)) else Some(body)
  }

  /** The query part that follows the RESTlet path on the discovered domain: the
      explicit URL's `search`, or the script and deployment */
  function TargetQuery(u: UrlSettings): string
    requires HasTarget(u)
  {
    if u.url != "" then ToText(UrlSearch(u.url)) else ScriptQuery(u.script, u.deployment)
  }

  /** The URL of the attempt: the static target when discovery reported an error,
      else the discovered `restDomain` with the RESTlet path and the query; then the
      encoded payload for GET and DELETE */
  function TargetUrl(link: Link, discovery: Scope, m: Method, payload: Value, lib: Library): string
    requires HasTarget(link.urls)
  {
    (if Truthy(discovery.errorMessage) then StaticTarget(link.account, link.urls)
     else ToText(Member(discovery.actualBody, "restDomain")) + RestletPath + TargetQuery(link.urls))
    + QuerySuffix(m, payload, lib)
  }

  /** `urlToCall`, built by successive `+=` */
  method ResolveUrl(link: Link, discovery: Scope, m: Method, payload: Value, lib: Library) returns (urlToCall: string)
    requires HasTarget(link.urls)
    ensures urlToCall == TargetUrl(link, discovery, m, payload, lib)
  {
    var u := link.urls;
    if Truthy(discovery.errorMessage) {
      if u.url != "" {
        urlToCall := u.url;
      } else {
        // createLink has checked that script and deployment are both set
        urlToCall := StaticUrl(link.account.accountId, u.script, u.deployment);
      }
    } else {
      urlToCall := ToText(Member(discovery.actualBody, "restDomain")) + RestletPath;
      if u.url != "" {
        urlToCall := urlToCall + ToText(UrlSearch(u.url));
      } else {
        urlToCall := urlToCall + ("?script=" + u.script + "&deploy=" + u.deployment);
      }
    }
    if m == GET || m == DELETE {
      urlToCall := urlToCall + ("&" + lib.queryString(payload));
    }
  }

  /** The headers: the `Authorization` value of the link's scheme and, always,
      JSON as the content type */
  method BuildHeaders(link: Link, m: Method, url: string, lib: Library, attempt: nat) returns (headers: Headers)
    ensures headers.contentType == "application/json"
    ensures headers.authorization == Auth.Authorization(link.account, link.authType == Some(OAuth), m, url, lib, attempt)
  {
    var authorization := Auth.ComposeAuthorization(link.account, link.authType == Some(OAuth), m, url, lib, attempt);
    headers := Headers(authorization, "application/json");
  }

  /** The request of attempt `k`, given what discovery reported */
  function RequestFor(link: Link, discovery: Scope, m: Method, payload: Value, lib: Library, k: nat): Request
    requires HasTarget(link.urls)
  {
    var url := TargetUrl(link, discovery, m, payload, lib);
    Request(url, m, Headers(Auth.Authorization(link.account, link.authType == Some(OAuth), m, url, lib, k), "application/json"), JsonBody(m, payload))
  }

  /** What the request's callback does with what it has taken in: an exception
      while taking the reply propagates; no error message calls back with the body;
      a message that is not a string makes `has_error_message` throw; a message
      that names a retryable error while the counter is above zero starts the next
      attempt; any other message calls back with the error. */
  function Decide(outcome: Result<Scope, string>, urls: UrlSettings, repeats: int): (step: Step)
    ensures step.Retry? ==> repeats > 0 && step.wait == RetryWait(urls, repeats)
    ensures step.Retry? <==>
              && outcome.Success? && outcome.value.errorMessage.Str? && outcome.value.errorMessage.s != ""
              && ContainsAny(outcome.value.errorMessage.s, RetryableErrors) && repeats > 0
    ensures step.Finish? && step.end.Threw? <==>
              outcome.Failure? || (Truthy(outcome.value.errorMessage) && !outcome.value.errorMessage.Str?)
    ensures outcome.Failure? ==> step == Finish(Threw(outcome.error))
    ensures step.Finish? && step.end.Called? ==>
              step.end.delivery == (if Truthy(outcome.value.errorMessage) then Delivery(outcome.value.actualError, Undefined)
                                    else Delivery(None, outcome.value.actualBody))
  {
    match outcome
    case Failure(reason) => Finish(Threw(reason))
    case Success(s) =>
      if !Truthy(s.errorMessage) then Finish(Called(Delivery(None, s.actualBody)))
      else if !s.errorMessage.Str? then Finish(Threw(TypeError))
      else if ContainsAny(s.errorMessage.s, RetryableErrors) && repeats > 0 then Retry(RetryWait(urls, repeats))
      else Finish(Called(Delivery(s.actualError, Undefined)))
  }

  /** The request attempt `k` sends, built from that attempt's discovery reply */
  function RequestAt(link: Link, m: Method, payload: Value, lib: Library, net: Network, k: nat): Request
    requires HasTarget(link.urls) && Discovers(net, k)
  {
    RequestFor(link, AfterDiscovery(net.discovery(k)).value, m, payload, lib, k)
  }

  /** Attempt `k`: the requests it sends (none when the discovery callback throws,
      else one), and what it decides. With `sharedScope` the request's callback
      starts from the variables the discovery callback left behind, as the code is
      written; without it, from fresh ones (see the Findings). */
  function AttemptAt(link: Link, m: Method, payload: Value, lib: Library, net: Network,
                     sharedScope: bool, repeats: int, k: nat): (seq<Request>, Step)
    requires HasTarget(link.urls)
  {
    match AfterDiscovery(net.discovery(k))
    case None => ([], Finish(Threw(TypeError)))
    case Some(discovery) =>
      var request := RequestAt(link, m, payload, lib, net, k);
      ([request], Decide(AfterResponse(if sharedScope then discovery else Unset, net.restlet(k, request), m, lib), link.urls, repeats))
  }

  /** `makeCall(repeats)` as attempt `k`, and the attempts it leads to */
  function Chain(link: Link, m: Method, payload: Value, lib: Library, net: Network,
                 sharedScope: bool, repeats: int, k: nat): Trace
    requires HasTarget(link.urls)
    decreases if repeats > 0 then repeats else 0
  {
    var (sent, step) := AttemptAt(link, m, payload, lib, net, sharedScope, repeats, k);
    match step
    case Retry(wait) => Extend(sent, [wait], Chain(link, m, payload, lib, net, sharedScope, repeats - 1, k + 1))
    case Finish(end) => Trace(sent, [], end)
  }

  /** The discovery request's callback: the closure variables once its reply is
      in, or None when reading the body throws */
  method TakeDiscovery(discovery: Reply) returns (scope: Option<Scope>)
    ensures scope == AfterDiscovery(discovery)
  {
    var actualError: Option<Fault> := None;
    var actualBody: Value := Undefined;
    var errorMessage: Value := Undefined;
    if discovery.Failed? {
      actualError := Some(Transport(discovery.error));
      errorMessage := Str(ErrorText(discovery.error));
    } else {
      actualBody := discovery.body;
      if actualBody.Undefined? || actualBody.Null? {
        return None;
      }
      if HasEnvelope(actualBody) {
        actualError := Some(Remote(Member(actualBody, "error")));
        errorMessage := Member(Member(actualBody, "error"), "code");
      }
    }
    scope := Some(Scope(actualError, actualBody, errorMessage));
  }

  /** The request's callback up to the retry decision, starting from the variables
      in `start`; Failure with the exception it throws */
  method TakeReply(start: Scope, reply: Reply, m: Method, lib: Library) returns (outcome: Result<Scope, string>)
    ensures outcome == AfterResponse(start, reply, m, lib)
  {
    var actualError := start.actualError;
    var actualBody := start.actualBody;
    var errorMessage := start.errorMessage;
    if reply.Failed? {
      actualError := Some(Transport(reply.error));
      errorMessage := Str(ErrorText(reply.error));
    } else {
      actualBody := reply.body;
      if actualBody != Str("") && (m == GET || m == DELETE) {
        var parsed := lib.parseJson(ToText(actualBody));
        if parsed.None? {
          return Failure(SyntaxError);
        }
        actualBody := parsed.value;
      }
      if actualBody.Undefined? || actualBody.Null? {
        return Failure(TypeError);
      }
      if HasEnvelope(actualBody) {
        actualError := Some(Remote(Member(actualBody, "error")));
        errorMessage := Member(Member(actualBody, "error"), "code");
      }
    }
    outcome := Success(Scope(actualError, actualBody, errorMessage));
  }

  /** One attempt of `makeCall`: discovery, the URL, the headers, the request and
      what its callback makes of the reply; no request when the discovery callback
      throws */
  method Attempt(link: Link, m: Method, payload: Value, lib: Library, net: Network, sharedScope: bool, k: nat)
    returns (sent: seq<Request>, outcome: Result<Scope, string>)
    requires HasTarget(link.urls)
    ensures !Discovers(net, k) ==> sent == [] && outcome == Failure(TypeError)
    ensures Discovers(net, k) ==>
              && sent == [RequestAt(link, m, payload, lib, net, k)]
              && outcome == AfterResponse(if sharedScope then AfterDiscovery(net.discovery(k)).value else Unset,
                                          net.restlet(k, sent[0]), m, lib)
  {
    var discovery := TakeDiscovery(net.discovery(k));
    if discovery.None? {
      return [], Failure(TypeError);
    }
    var urlToCall := ResolveUrl(link, discovery.value, m, payload, lib);
    var headers := BuildHeaders(link, m, urlToCall, lib, k);
    var json := None;
    if m != GET && m != DELETE {
      json := Some(payload);
    }
    var request := Request(urlToCall, m, headers, json);
    // as written, the request's callback assigns the discovery callback's variables
    var start := if sharedScope then discovery.value else Unset;
    outcome := TakeReply(start, net.restlet(k, request), m, lib);
    sent := [request];
  }

  /** Attempt `k` made with counter `repeats`: it sends its request, then decides
      to start the next attempt or to end the chain */
  method AttemptStep(link: Link, m: Method, payload: Value, lib: Library, net: Network,
                     sharedScope: bool, repeats: int, k: nat)
    returns (sent: seq<Request>, step: Step)
    requires HasTarget(link.urls)
    ensures (sent, step) == AttemptAt(link, m, payload, lib, net, sharedScope, repeats, k)
  {
    var outcome;
    sent, outcome := Attempt(link, m, payload, lib, net, sharedScope, k);
    if outcome.Failure? {
      step := Finish(Threw(outcome.error));
    } else if !Truthy(outcome.value.errorMessage) {
      step := Finish(Called(Delivery(None, outcome.value.actualBody)));
    } else if !outcome.value.errorMessage.Str? {
      // `indexOf` is not a method of a code that is not a string
      step := Finish(Threw(TypeError));
    } else {
      var retryable := HasErrorMessage(outcome.value.errorMessage.s, RetryableErrors);
      if retryable && repeats > 0 {
        if link.urls.backoff != 0 && link.urls.retries != 0 {
          step := Retry(Timer(link.urls.backoff, link.urls.retries - (repeats + 1)));
        } else {
          step := Retry(Immediately);
        }
      } else {
        step := Finish(Called(Delivery(outcome.value.actualError, Undefined)));
      }
    }
  }

  /** `makeCall(repeats)` as attempt `k`: one attempt, and when it decides to
      retry, `makeCall(repeats - 1)` after the wait */
  method MakeCall(link: Link, m: Method, payload: Value, lib: Library, net: Network,
                  sharedScope: bool, repeats: int, k: nat)
    returns (t: Trace)
    requires HasTarget(link.urls)
    ensures t == Chain(link, m, payload, lib, net, sharedScope, repeats, k)
    decreases if repeats > 0 then repeats else 0
  {
    var sent, step := AttemptStep(link, m, payload, lib, net, sharedScope, repeats, k);
    match step
    case Retry(wait) =>
      var rest := MakeCall(link, m, payload, lib, net, sharedScope, repeats - 1, k + 1);
      t := Extend(sent, [wait], rest);
    case Finish(end) =>
      t := Trace(sent, [], end);
  }

  /** The callback path of `callRestlet`: the counter starts at `retries` (or 3),
      and the chain of attempts ends by calling the callback once, or by throwing. */
  method MakeCalls(link: Link, m: Method, payload: Value, lib: Library, net: Network, sharedScope: bool)
    returns (sent: seq<Request>, waits: seq<Wait>, callbacks: seq<Delivery>, thrown: Option<string>)
    requires HasTarget(link.urls)
    ensures |callbacks| + (if thrown.Some? then 1 else 0) == 1
    ensures Chain(link, m, payload, lib, net, sharedScope, InitialRepeats(link.urls), 0) == Trace(sent, waits, Ending(callbacks, thrown))
  {
    var repeats := 3;
    if link.urls.retries != 0 {
      repeats := link.urls.retries;
    }
    var t := MakeCall(link, m, payload, lib, net, sharedScope, repeats, 0);
    sent, waits := t.sent, t.waits;
    if t.end.Called? {
      callbacks, thrown := [t.end.delivery], None;
    } else {
      callbacks, thrown := [], Some(t.end.reason);
    }
  }

  /** `callRestlet` behind `get`, `post`, `put` and `delete`: with a callback, the
      callback receives the chain's one result; without one, the returned promise
      is settled from that same result by the same chain of requests. */
  method CallRestlet(link: Link, m: Method, payload: Value, hasCallback: bool, lib: Library, net: Network, sharedScope: bool)
    returns (completion: Completion, sent: seq<Request>)
    requires HasTarget(link.urls)
    ensures var t := Chain(link, m, payload, lib, net, sharedScope, InitialRepeats(link.urls), 0);
      && sent == t.sent
      && (hasCallback ==> completion == ViaCallback(if t.end.Called? then [t.end.delivery] else []))
      && (!hasCallback ==> completion == ViaPromise(Settle(t.end)))
  {
    var waits, callbacks, thrown;
    sent, waits, callbacks, thrown := MakeCalls(link, m, payload, lib, net, sharedScope);
    if hasCallback {
      completion := ViaCallback(callbacks);
    } else {
      completion := ViaPromise(Settle(Ending(callbacks, thrown)));
    }
  }

  // ---------------------------------------------------------------------------
  // Properties of a call chain

  /** Every attempt's discovery callback gets past reading its body */
  ghost predicate DiscoveryReadable(net: Network) {
    forall j: nat :: Discovers(net, j)
  }

  /** The transport fails every request with a message that names a retryable error */
  ghost predicate FailsRetryably(net: Network) {
    forall k: nat, req: Request ::
      net.restlet(k, req).Failed? && ContainsAny(ErrorText(net.restlet(k, req).error), RetryableErrors)
  }

  /** Under persistent retryable failure an attempt whose discovery callback gets
      past the body sends its request and retries while the counter is above zero,
      else hands over that request's error */
  lemma FailedAttempt(link: Link, m: Method, payload: Value, lib: Library, net: Network,
                      sharedScope: bool, repeats: int, k: nat)
    requires HasTarget(link.urls) && Discovers(net, k) && FailsRetryably(net)
    ensures var request := RequestAt(link, m, payload, lib, net, k);
      AttemptAt(link, m, payload, lib, net, sharedScope, repeats, k)
      == ([request], if repeats > 0 then Retry(RetryWait(link.urls, repeats))
                     else Finish(Called(Delivery(Some(Transport(net.restlet(k, request).error)), Undefined))))
  {
    var request := RequestAt(link, m, payload, lib, net, k);
    assert net.restlet(k, request).Failed? && ContainsAny(ErrorText(net.restlet(k, request).error), RetryableErrors);
  }

  /** Under persistent retryable failure a chain started with counter `repeats`
      sends `repeats + 1` requests (one when the counter is not positive), waits
      before every one but the first, and calls back with the error of the last
      request. */
  lemma {:induction false} PersistentFailureAttempts(link: Link, m: Method, payload: Value, lib: Library, net: Network,
                                                     sharedScope: bool, repeats: int, k: nat)
    requires HasTarget(link.urls)
    requires DiscoveryReadable(net) && FailsRetryably(net)
    ensures var t := Chain(link, m, payload, lib, net, sharedScope, repeats, k);
      && |t.sent| == (if repeats > 0 then repeats else 0) + 1
      && |t.waits| == |t.sent| - 1
      && EndsWithLastError(net, t, k)
    decreases if repeats > 0 then repeats else 0
  {
    assert Discovers(net, k);
    FailedAttempt(link, m, payload, lib, net, sharedScope, repeats, k);
    var request := RequestAt(link, m, payload, lib, net, k);
    if repeats > 0 {
      PersistentFailureAttempts(link, m, payload, lib, net, sharedScope, repeats - 1, k + 1);
      var rest := Chain(link, m, payload, lib, net, sharedScope, repeats - 1, k + 1);
      LastErrorExtended(net, request, RetryWait(link.urls, repeats), rest, k);
    }
  }

  /** The `i`-th retry of a chain started with counter `repeats` is started as the
      attempt made with counter `repeats - i` prescribes; every attempt but the
      last is followed by a wait, and the last sends a request unless its discovery
      callback throws. */
  lemma {:induction false} WaitSchedule(link: Link, m: Method, payload: Value, lib: Library, net: Network,
                                        sharedScope: bool, repeats: int, k: nat)
    requires HasTarget(link.urls)
    ensures var t := Chain(link, m, payload, lib, net, sharedScope, repeats, k);
      && (|t.waits| + 1 == |t.sent| || (|t.waits| == |t.sent| && t.end == Threw(TypeError)))
      && forall i :: 0 <= i < |t.waits| ==> t.waits[i] == RetryWait(link.urls, repeats - i)
    decreases if repeats > 0 then repeats else 0
  {
    var attempt := AttemptAt(link, m, payload, lib, net, sharedScope, repeats, k);
    if attempt.1.Retry? {
      WaitSchedule(link, m, payload, lib, net, sharedScope, repeats - 1, k + 1);
      var rest := Chain(link, m, payload, lib, net, sharedScope, repeats - 1, k + 1);
      var t := Chain(link, m, payload, lib, net, sharedScope, repeats, k);
      assert t.waits == [RetryWait(link.urls, repeats)] + rest.waits;
      forall i | 0 < i < |t.waits| ensures t.waits[i] == RetryWait(link.urls, repeats - i) {
        assert t.waits[i] == rest.waits[i - 1];
      }
    }
  }

  /** With `backoff` and `retries` both set, a call's retries are delayed by
      `backoff` times -1, 0, 1, 2, ...: linear growth, starting below zero. */
  lemma LinearBackoff(link: Link, m: Method, payload: Value, lib: Library, net: Network, sharedScope: bool)
    requires HasTarget(link.urls) && UsesBackoff(link.urls)
    ensures var t := Chain(link, m, payload, lib, net, sharedScope, InitialRepeats(link.urls), 0);
      forall i :: 0 <= i < |t.waits| ==> t.waits[i] == Timer(link.urls.backoff, i - 1)
  {
    WaitSchedule(link, m, payload, lib, net, sharedScope, InitialRepeats(link.urls), 0);
  }

  /** `retries: 4, backoff: 10` against a transport that keeps timing out: five
      requests, the retries delayed by -10, 0, 10 and 20 milliseconds. */
  lemma DocumentedBackoff(link: Link, m: Method, payload: Value, lib: Library, net: Network, sharedScope: bool)
    requires HasTarget(link.urls) && link.urls.retries == 4 && link.urls.backoff == 10
    requires DiscoveryReadable(net) && FailsRetryably(net)
    ensures var t := Chain(link, m, payload, lib, net, sharedScope, InitialRepeats(link.urls), 0);
      && |t.sent| == 5 && |t.waits| == 4
      && Delay(t.waits[0]) == -10 && Delay(t.waits[1]) == 0 && Delay(t.waits[2]) == 10 && Delay(t.waits[3]) == 20
  {
    PersistentFailureAttempts(link, m, payload, lib, net, sharedScope, 4, 0);
    LinearBackoff(link, m, payload, lib, net, sharedScope);
  }

  /** A discovery reply with an undefined or null body makes the discovery callback
      throw a TypeError before any request to the RESTlet is sent. */
  lemma DiscoveryThrows(link: Link, m: Method, payload: Value, lib: Library, net: Network,
                        sharedScope: bool, repeats: int, k: nat, body: Value)
    requires HasTarget(link.urls)
    requires net.discovery(k) == Answered(body) && !HasProperties(body)
    ensures Chain(link, m, payload, lib, net, sharedScope, repeats, k) == Trace([], [], Threw(TypeError))
  {
  }

  /** A reply that `JSON.parse` rejects, or that arrives or parses to undefined or
      null, makes the request's callback throw after one request. */
  lemma ReplyThrows(link: Link, m: Method, payload: Value, lib: Library, net: Network,
                    sharedScope: bool, repeats: int, k: nat, body: Value)
    requires HasTarget(link.urls) && Discovers(net, k)
    requires net.restlet(k, RequestAt(link, m, payload, lib, net, k)) == Answered(body)
    requires Parsed(body, m, lib).None? || !HasProperties(Parsed(body, m, lib).value)
    ensures Chain(link, m, payload, lib, net, sharedScope, repeats, k)
         == Trace([RequestAt(link, m, payload, lib, net, k)], [], Threw(if Parsed(body, m, lib).None? then SyntaxError else TypeError))
  {
  }

  /** A reply to a POST or PUT that can be read and carries no error envelope is
      handed to the callback as it came, after exactly one request: always with
      fresh variables, and as written only when discovery left no error message. */
  lemma SuccessDeliversBody(link: Link, m: Method, payload: Value, lib: Library, net: Network,
                            sharedScope: bool, repeats: int, k: nat, body: Value)
    requires HasTarget(link.urls) && !EncodesQuery(m) && Discovers(net, k)
    requires sharedScope ==> !Truthy(AfterDiscovery(net.discovery(k)).value.errorMessage)
    requires net.restlet(k, RequestAt(link, m, payload, lib, net, k)) == Answered(body)
    requires HasProperties(body) && !HasEnvelope(body)
    ensures Chain(link, m, payload, lib, net, sharedScope, repeats, k)
         == Trace([RequestAt(link, m, payload, lib, net, k)], [], Called(Delivery(None, body)))
  {
  }

  /** A body that, as the request's callback sees it (a non-empty GET or DELETE
      reply after `JSON.parse`, any other as it arrives), has `error.code` set is
      an error: a code that is not a string
      makes `has_error_message` throw; a code that names a retryable error while
      the counter is above zero starts the next attempt; any other code hands the
      `error` object to the callback after one request. Taking the envelope
      overwrites `actual_error` and `error_message`, so the variables the discovery
      callback left behind make no difference. */
  lemma EnvelopeIsError(link: Link, m: Method, payload: Value, lib: Library, net: Network,
                        sharedScope: bool, repeats: int, k: nat, body: Value, v: Value)
    requires HasTarget(link.urls) && Discovers(net, k)
    requires net.restlet(k, RequestAt(link, m, payload, lib, net, k)) == Answered(body)
    requires Parsed(body, m, lib) == Some(v) && HasEnvelope(v)
    ensures var t := Chain(link, m, payload, lib, net, sharedScope, repeats, k);
      var code := Member(Member(v, "error"), "code");
      if !code.Str? then
        t == Trace([RequestAt(link, m, payload, lib, net, k)], [], Threw(TypeError))
      else if ContainsAny(code.s, RetryableErrors) && repeats > 0 then
        && |t.sent| >= 1 && t.sent[0] == RequestAt(link, m, payload, lib, net, k)
        && |t.waits| >= 1 && t.waits[0] == RetryWait(link.urls, repeats)
      else
        t == Trace([RequestAt(link, m, payload, lib, net, k)], [], Called(Delivery(Some(Remote(Member(v, "error"))), Undefined)))
  {
    assert HasProperties(v);
  }

  /** A transport failure whose message names no retryable error, or any failure
      once the counter is spent, is handed to the callback after one request. */
  lemma FailureDelivered(link: Link, m: Method, payload: Value, lib: Library, net: Network,
                         sharedScope: bool, repeats: int, k: nat, e: TransportError)
    requires HasTarget(link.urls) && Discovers(net, k)
    requires net.restlet(k, RequestAt(link, m, payload, lib, net, k)) == Failed(e)
    requires !ContainsAny(ErrorText(e), RetryableErrors) || repeats <= 0
    ensures Chain(link, m, payload, lib, net, sharedScope, repeats, k)
         == Trace([RequestAt(link, m, payload, lib, net, k)], [], Called(Delivery(Some(Transport(e)), Undefined)))
  {
  }

  /** `error_message` is unset, falsy or a string, so `has_error_message` can read it */
  predicate TextOrUnset(v: Value) {
    Truthy(v) ==> v.Str?
  }

  /** No callback can throw: every discovery body can be read and leaves a string
      message or none; every reply parses, can be read, and leaves a string message
      or none */
  ghost predicate Tame(net: Network, m: Method, lib: Library) {
    && (forall j: nat :: Discovers(net, j) && TextOrUnset(AfterDiscovery(net.discovery(j)).value.errorMessage))
    && (forall j: nat, req: Request ::
          AfterResponse(Unset, net.restlet(j, req), m, lib).Success?
          && TextOrUnset(AfterResponse(Unset, net.restlet(j, req), m, lib).value.errorMessage))
  }

  /** When no callback can throw, one attempt either retries or calls back. */
  lemma TameAttempt(link: Link, m: Method, payload: Value, lib: Library, net: Network,
                    sharedScope: bool, repeats: int, k: nat)
    requires HasTarget(link.urls)
    requires Tame(net, m, lib)
    ensures var step := AttemptAt(link, m, payload, lib, net, sharedScope, repeats, k).1;
      step.Retry? || step.end.Called?
  {
    assert Discovers(net, k) && TextOrUnset(AfterDiscovery(net.discovery(k)).value.errorMessage);
    var request := RequestAt(link, m, payload, lib, net, k);
    assert AfterResponse(Unset, net.restlet(k, request), m, lib).Success?;
    assert TextOrUnset(AfterResponse(Unset, net.restlet(k, request), m, lib).value.errorMessage);
  }

  /** When no callback can throw, a chain ends by calling back, exactly once. */
  lemma {:induction false} CallsBack(link: Link, m: Method, payload: Value, lib: Library, net: Network,
                                     sharedScope: bool, repeats: int, k: nat)
    requires HasTarget(link.urls)
    requires Tame(net, m, lib)
    ensures Chain(link, m, payload, lib, net, sharedScope, repeats, k).end.Called?
    decreases if repeats > 0 then repeats else 0
  {
    TameAttempt(link, m, payload, lib, net, sharedScope, repeats, k);
    if AttemptAt(link, m, payload, lib, net, sharedScope, repeats, k).1.Retry? {
      CallsBack(link, m, payload, lib, net, sharedScope, repeats - 1, k + 1);
    }
  }

  /** A retry asks the discovery service again: the second request of a chain is
      built from the next attempt's discovery reply, not from the first one's. */
  lemma RetryRediscovers(link: Link, m: Method, payload: Value, lib: Library, net: Network,
                         sharedScope: bool, repeats: int, k: nat)
    requires HasTarget(link.urls) && Discovers(net, k + 1)
    requires AttemptAt(link, m, payload, lib, net, sharedScope, repeats, k).1.Retry?
    ensures |Chain(link, m, payload, lib, net, sharedScope, repeats, k).sent| >= 2
    ensures Chain(link, m, payload, lib, net, sharedScope, repeats, k).sent[1] == RequestAt(link, m, payload, lib, net, k + 1)
  {
    assert Discovers(net, k);
    var rest := Chain(link, m, payload, lib, net, sharedScope, repeats - 1, k + 1);
    assert rest.sent[0] == RequestAt(link, m, payload, lib, net, k + 1);
  }

  // ---------------------------------------------------------------------------
  // The request callback's variables (see the Findings)

  /** As written, the request callback starts from what the discovery callback
      left behind. When discovery failed, a successful POST or PUT is reported as
      that discovery failure (or, if its message names a retryable error, sent
      again); with fresh variables the body is delivered. */
  lemma SharedScopeMasksSuccess(link: Link, m: Method, payload: Value, lib: Library, net: Network,
                                repeats: int, k: nat, d: TransportError, body: Value)
    requires HasTarget(link.urls) && !EncodesQuery(m)
    requires net.discovery(k) == Failed(d) && Discovers(net, k)
    requires net.restlet(k, RequestAt(link, m, payload, lib, net, k)) == Answered(body)
    requires HasProperties(body) && !HasEnvelope(body)
    ensures AttemptAt(link, m, payload, lib, net, true, repeats, k).1 ==
      if ContainsAny(ErrorText(d), RetryableErrors) && repeats > 0 then Retry(RetryWait(link.urls, repeats))
      else Finish(Called(Delivery(Some(Transport(d)), Undefined)))
    ensures AttemptAt(link, m, payload, lib, net, false, repeats, k).1 == Finish(Called(Delivery(None, body)))
  {
  }

  /** A concrete case: discovery cannot resolve its host, the RESTlet answers a POST
      with "12345"; as written the caller receives the discovery error. */
  lemma DiscoveryFailureMasksSuccess(link: Link, payload: Value, lib: Library)
    requires HasTarget(link.urls)
    ensures var net := Network(k => Failed(TransportError("ENOTFOUND", "{}")), (k, req) => Answered(Str("12345")));
      && Chain(link, POST, payload, lib, net, true, 3, 0).end == Called(Delivery(Some(Transport(TransportError("ENOTFOUND", "{}"))), Undefined))
      && Chain(link, POST, payload, lib, net, false, 3, 0).end == Called(Delivery(None, Str("12345")))
  {
    var net := Network(k => Failed(TransportError("ENOTFOUND", "{}")), (k, req) => Answered(Str("12345")));
    assert !ContainsAny("ENOTFOUND", RetryableErrors) by {
      forall i, j | 0 <= i < |RetryableErrors| && 0 <= j <= 9 ensures !OccursAt("ENOTFOUND", RetryableErrors[i], j) {
        assert i == 0 || i == 1 || i == 2 || i == 3;
        if i == 2 && j == 0 {
          assert "ENOTFOUND"[0..9][1] != "ETIMEDOUT"[1];
        }
      }
    }
    assert Discovers(net, 0);
    SharedScopeMasksSuccess(link, POST, payload, lib, net, 3, 0, TransportError("ENOTFOUND", "{}"), Str("12345"));
  }

  /** Discovery reports no error in any attempt whose callback gets that far */
  ghost predicate DiscoveryClean(net: Network) {
    forall j: nat :: Discovers(net, j) ==> !Truthy(AfterDiscovery(net.discovery(j)).value.errorMessage)
  }

  /** A request callback that starts from a discovery scope without an error
      message decides as one that starts from fresh variables. */
  lemma FreshStartAgrees(discovery: Scope, r: Reply, m: Method, lib: Library, urls: UrlSettings, repeats: int)
    requires discovery.actualError == None && !Truthy(discovery.errorMessage)
    ensures Decide(AfterResponse(discovery, r, m, lib), urls, repeats) == Decide(AfterResponse(Unset, r, m, lib), urls, repeats)
  {
  }

  /** Starting the request callback from fresh variables changes nothing when
      discovery reported no error. */
  lemma {:induction false} FreshScopeAgrees(link: Link, m: Method, payload: Value, lib: Library, net: Network,
                                            repeats: int, k: nat)
    requires HasTarget(link.urls)
    requires DiscoveryClean(net)
    ensures Chain(link, m, payload, lib, net, true, repeats, k) == Chain(link, m, payload, lib, net, false, repeats, k)
    decreases if repeats > 0 then repeats else 0
  {
    var attempt := AttemptAt(link, m, payload, lib, net, false, repeats, k);
    if Discovers(net, k) {
      FreshStartAgrees(AfterDiscovery(net.discovery(k)).value, net.restlet(k, RequestAt(link, m, payload, lib, net, k)),
                       m, lib, link.urls, repeats);
    }
    assert AttemptAt(link, m, payload, lib, net, true, repeats, k) == attempt;
    if attempt.1.Retry? {
      FreshScopeAgrees(link, m, payload, lib, net, repeats - 1, k + 1);
    }
  }

  // ---------------------------------------------------------------------------
  // Target URLs

  /** On the discovered domain, an explicit URL contributes exactly its query. */
  lemma ExplicitQueryCarried(link: Link, discovery: Scope, m: Method, payload: Value, lib: Library,
                             base: string, query: string)
    requires link.urls.url == base + "?" + query
    requires '?' !in base && '#' !in base && '#' !in query
    requires !Truthy(discovery.errorMessage)
    ensures TargetUrl(link, discovery, m, payload, lib)
         == ToText(Member(discovery.actualBody, "restDomain")) + RestletPath + "?" + query + QuerySuffix(m, payload, lib)
  {
    SearchOfQuery(base, query);
  }
}
