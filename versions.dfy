/** The two versions of the client side by side: they accept and reject the same
    settings, and they agree on the URL when discovery fails, but they classify
    failures differently (substring against exact match, envelopes against none). */
module Versions {
  import opened Js
  import opened Settings
  import Restlet
  import Legacy

  /** Both versions of `createLink` throw the same error for the same settings, or
      both create a link with the same authentication type; the older version's
      fixed URL is the static target. */
  lemma CreateLinkAgrees(account: Option<AccountSettings>, urls: Option<UrlSettings>)
    ensures var r := Restlet.CreateLink(account, urls);
      var l := Legacy.CreateLink(account, urls);
      && (r.Success? <==> l.Success?)
      && (r.Failure? ==> l.Failure? && r.error == l.error)
      && (r.Success? ==> l.Success? && r.value.authType == l.value.authType
                         && l.value.baseUrl == StaticTarget(account.value, urls.value))
  {
  }

  /** When discovery reports an error, the current version calls the URL the older
      version fixes at creation, with the same query for GET and DELETE. */
  lemma FallbackMatchesLegacy(account: Option<AccountSettings>, urls: Option<UrlSettings>, discovery: Restlet.Scope,
                              m: Method, payload: Value, lib: Library)
    requires Restlet.CreateLink(account, urls).Success?
    requires Truthy(discovery.errorMessage)
    ensures Legacy.CreateLink(account, urls).Success?
    ensures Restlet.TargetUrl(Restlet.CreateLink(account, urls).value, discovery, m, payload, lib)
         == Legacy.CallUrl(Legacy.CreateLink(account, urls).value, m, payload, lib)
  {
    CreateLinkAgrees(account, urls);
  }

  /** A message that is exactly a retryable error also contains one: every failure
      the older version retries, the current one retries too. */
  lemma ExactImpliesSubstring(message: string)
    requires message in RetryableErrors
    ensures ContainsAny(message, RetryableErrors)
  {
    var i :| 0 <= i < |RetryableErrors| && RetryableErrors[i] == message;
    assert OccursAt(message, RetryableErrors[i], 0);
  }

  /** The converse fails: a message that only mentions a retryable error is
      retried by the current version and not by the older one. */
  lemma SubstringOnly()
    ensures ContainsAny("connect ETIMEDOUT", RetryableErrors)
    ensures "connect ETIMEDOUT" !in RetryableErrors
  {
    assert OccursAt("connect ETIMEDOUT", RetryableErrors[2], 8);
  }

  /** Against a transport that keeps failing with exactly a retryable error (and
      discovery bodies the current version can read), both versions send the same
      number of requests, wait the same way before each retry, and hand over the
      error of their last request; the older version as written only when it
      starts no timer, the current one as written or corrected. */
  lemma {:induction false} SameRetrySchedule(account: Option<AccountSettings>, urls: Option<UrlSettings>,
                                             m: Method, payload: Value, lib: Library, net: Network,
                                             sharedScope: bool, asWritten: bool)
    requires Restlet.CreateLink(account, urls).Success?
    requires !asWritten || !UsesBackoff(urls.value)
    requires Legacy.FailsWithListedError(net) && Restlet.DiscoveryReadable(net)
    ensures Legacy.CreateLink(account, urls).Success?
    ensures var r := Restlet.CreateLink(account, urls).value;
      var l := Legacy.CreateLink(account, urls).value;
      var rt := Restlet.Chain(r, m, payload, lib, net, sharedScope, InitialRepeats(urls.value), 0);
      var lt := Legacy.Chain(l, Legacy.CallUrl(l, m, payload, lib), m, payload, lib, net, asWritten, InitialRepeats(urls.value), 0);
      |rt.sent| == |lt.sent| && rt.waits == lt.waits && EndsWithLastError(net, rt, 0) && EndsWithLastError(net, lt, 0)
  {
    CreateLinkAgrees(account, urls);
    var r := Restlet.CreateLink(account, urls).value;
    var l := Legacy.CreateLink(account, urls).value;
    var url := Legacy.CallUrl(l, m, payload, lib);
    var repeats := InitialRepeats(urls.value);
    assert Restlet.FailsRetryably(net) by {
      forall k: nat, req: Request
        ensures net.restlet(k, req).Failed? && ContainsAny(ErrorText(net.restlet(k, req).error), RetryableErrors)
      {
        ExactImpliesSubstring(ErrorText(net.restlet(k, req).error));
      }
    }
    Restlet.PersistentFailureAttempts(r, m, payload, lib, net, sharedScope, repeats, 0);
    Legacy.PersistentFailureAttempts(l, url, m, payload, lib, net, asWritten, repeats, 0);
    Restlet.WaitSchedule(r, m, payload, lib, net, sharedScope, repeats, 0);
    Legacy.WaitSchedule(l, url, m, payload, lib, net, asWritten, repeats, 0);
  }

  /** A discovery service that answers every attempt with a domain */
  function Discovering(): (d: nat -> Reply)
    ensures forall k: nat :: Restlet.AfterDiscovery(d(k)).Some?
  {
    k => Answered(Obj(map["restDomain" := Str("https://d.restlets.api.netsuite.com")]))
  }

  /** A transport that fails with "connect ETIMEDOUT": the current version sends
      one request more than the counter it starts with (four with `retries` unset)
      before handing the error over, the older one hands it over after one request. */
  lemma TransportTextDiverges(account: Option<AccountSettings>, urls: Option<UrlSettings>,
                              m: Method, payload: Value, lib: Library)
    requires Restlet.CreateLink(account, urls).Success?
    ensures Legacy.CreateLink(account, urls).Success?
    ensures var e := TransportError("connect ETIMEDOUT", "{}");
      var net := Network(Discovering(), (k, req) => Failed(e));
      var r := Restlet.CreateLink(account, urls).value;
      var l := Legacy.CreateLink(account, urls).value;
      var rt := Restlet.Chain(r, m, payload, lib, net, false, InitialRepeats(urls.value), 0);
      var lt := Legacy.Chain(l, Legacy.CallUrl(l, m, payload, lib), m, payload, lib, net, false, InitialRepeats(urls.value), 0);
      var repeats := InitialRepeats(urls.value);
      && |rt.sent| == (if repeats > 0 then repeats else 0) + 1
      && (urls.value.retries == 0 ==> |rt.sent| == 4)
      && rt.end == Called(Delivery(Some(Transport(e)), Undefined))
      && |lt.sent| == 1 && lt.end == Called(Delivery(Some(Transport(e)), Undefined))
  {
    CreateLinkAgrees(account, urls);
    var e := TransportError("connect ETIMEDOUT", "{}");
    var net := Network(Discovering(), (k, req) => Failed(e));
    var r := Restlet.CreateLink(account, urls).value;
    var l := Legacy.CreateLink(account, urls).value;
    var repeats := InitialRepeats(urls.value);
    SubstringOnly();
    assert Restlet.DiscoveryReadable(net);
    Restlet.PersistentFailureAttempts(r, m, payload, lib, net, false, repeats, 0);
    Legacy.FailureDelivered(l, Legacy.CallUrl(l, m, payload, lib), m, payload, lib, net, false, repeats, 0, e);
  }

  /** A POST or PUT answered with a rate-limit envelope: the current version sends
      it again, the older one hands the envelope over as a successful body. */
  lemma EnvelopeDiverges(account: Option<AccountSettings>, urls: Option<UrlSettings>,
                         m: Method, payload: Value, lib: Library)
    requires Restlet.CreateLink(account, urls).Success? && !EncodesQuery(m) && urls.value.retries >= 0
    ensures Legacy.CreateLink(account, urls).Success?
    ensures var body := Obj(map["error" := Obj(map["code" := Str("SSS_REQUEST_LIMIT_EXCEEDED")])]);
      var net := Network(Discovering(), (k, req) => Answered(body));
      var r := Restlet.CreateLink(account, urls).value;
      var l := Legacy.CreateLink(account, urls).value;
      && |Restlet.Chain(r, m, payload, lib, net, false, InitialRepeats(urls.value), 0).sent| >= 2
      && Legacy.Chain(l, Legacy.CallUrl(l, m, payload, lib), m, payload, lib, net, false, InitialRepeats(urls.value), 0)
         == Trace([Legacy.RequestAt(l, Legacy.CallUrl(l, m, payload, lib), m, payload, lib, 0)], [], Called(Delivery(None, body)))
  {
    CreateLinkAgrees(account, urls);
    var body := Obj(map["error" := Obj(map["code" := Str("SSS_REQUEST_LIMIT_EXCEEDED")])]);
    var net := Network(Discovering(), (k, req) => Answered(body));
    var r := Restlet.CreateLink(account, urls).value;
    var l := Legacy.CreateLink(account, urls).value;
    var repeats := InitialRepeats(urls.value);
    assert Member(Member(body, "error"), "code") == Str("SSS_REQUEST_LIMIT_EXCEEDED");
    assert ContainsAny("SSS_REQUEST_LIMIT_EXCEEDED", RetryableErrors) by {
      assert OccursAt("SSS_REQUEST_LIMIT_EXCEEDED", RetryableErrors[3], 0);
    }
    assert Restlet.Discovers(net, 0) && Restlet.Discovers(net, 1);
    Restlet.EnvelopeIsError(r, m, payload, lib, net, false, repeats, 0, body, body);
    Restlet.RetryRediscovers(r, m, payload, lib, net, false, repeats, 0);
    Legacy.AnswerDelivered(l, Legacy.CallUrl(l, m, payload, lib), m, payload, lib, net, false, repeats, 0, body);
  }
}
