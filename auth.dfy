/** The `Authorization` header values of the two schemes, and a reading of the
    NLAuth header back into its fields. */
module Auth {
  import opened Js
  import opened Settings

  function Pair(key: string, value: string): string {
    key + "=" + value
  }

  /** `k1=v1,k2=v2,...` */
  function JoinPairs(ps: seq<(string, string)>): string {
    if ps == [] then ""
    else if |ps| == 1 then Pair(ps[0].0, ps[0].1)
    else Pair(ps[0].0, ps[0].1) + "," + JoinPairs(ps[1..])
  }

  const NLAuthScheme: string := "NLAuth "

  /** The NLAuth fields, in order; the role only when it is set */
  function NLAuthPairs(a: AccountSettings): seq<(string, string)> {
    [("nlauth_account", a.accountId), ("nlauth_email", a.email), ("nlauth_signature", a.password)]
    + (if a.role != "" then [("nlauth_role", a.role)] else [])
  }

  /** The NLAuth header value: the scheme, then the fields joined by commas */
  function NLAuthHeader(a: AccountSettings): string {
    NLAuthScheme + JoinPairs(NLAuthPairs(a))
  }

  /** The suffix appended to the signer's `Authorization` value */
  function RealmSuffix(accountId: string): string {
    ", realm=\"" + accountId + "\""
  }

  /** The OAuth value: what the signer computes for this request, with the realm
      appended */
  function OAuthHeader(a: AccountSettings, m: Method, url: string, lib: Library, attempt: nat): string {
    lib.oauthAuthorization(OAuthInput(url, m, a.consumerKey, a.consumerSecret, a.tokenKey, a.tokenSecret, attempt))
    + RealmSuffix(a.accountId)
  }

  /** The `Authorization` value of the scheme chosen when the link was created */
  function Authorization(a: AccountSettings, oauth: bool, m: Method, url: string, lib: Library, attempt: nat): string {
    if oauth then OAuthHeader(a, m, url, lib, attempt) else NLAuthHeader(a)
  }

  /** `key=value` split at its first `=` */
  function ParsePair(s: string): (string, string) {
    var i := Find(s, '=');
    (s[..i], if i < |s| then s[i + 1..] else "")
  }

  /** A comma-separated list of `key=value` fields, read back */
  function SplitPairs(s: string): seq<(string, string)>
    decreases |s|
  {
    if s == [] then []
    else
      var i := Find(s, ',');
      if i == |s| then [ParsePair(s)] else [ParsePair(s[..i])] + SplitPairs(s[i + 1..])
  }

  /** Keys without `,` or `=`, values without `,` */
  predicate Plain(ps: seq<(string, string)>) {
    forall i :: 0 <= i < |ps| ==> ',' !in ps[i].0 && '=' !in ps[i].0 && ',' !in ps[i].1
  }

  lemma PairHasNoComma(key: string, value: string)
    requires ',' !in key && ',' !in value
    ensures ',' !in Pair(key, value)
  {
    var s := Pair(key, value);
    forall j | 0 <= j < |s| ensures s[j] != ',' {
      if j < |key| {
        assert s[j] == key[j] && key[j] in key;
      } else if j > |key| {
        assert s[j] == value[j - |key| - 1] && value[j - |key| - 1] in value;
      }
    }
  }

  lemma ParsePairOfPair(key: string, value: string)
    requires '=' !in key
    ensures ParsePair(Pair(key, value)) == (key, value)
  {
    var s := Pair(key, value);
    assert s == key + ['='] + value;
    FindAfter(key, '=', value);
    assert s[..|key|] == key;
    assert s[|key| + 1..] == value;
  }

  /** Joining fields and reading them back gives the same fields */
  lemma {:induction false} SplitJoin(ps: seq<(string, string)>)
    requires Plain(ps)
    ensures SplitPairs(JoinPairs(ps)) == ps
  {
    if ps == [] {
    } else {
      var p := Pair(ps[0].0, ps[0].1);
      PairHasNoComma(ps[0].0, ps[0].1);
      ParsePairOfPair(ps[0].0, ps[0].1);
      if |ps| == 1 {
        FindAbsent(p, ',');
      } else {
        var rest := JoinPairs(ps[1..]);
        FindAfter(p, ',', rest);
        assert JoinPairs(ps) == p + [','] + rest;
        assert (p + [','] + rest)[..|p|] == p;
        assert (p + [','] + rest)[|p| + 1..] == rest;
        assert Plain(ps[1..]) by {
          forall i | 0 <= i < |ps[1..]|
            ensures ',' !in ps[1..][i].0 && '=' !in ps[1..][i].0 && ',' !in ps[1..][i].1
          {
            assert ps[1..][i] == ps[i + 1];
          }
        }
        SplitJoin(ps[1..]);
      }
    }
  }

  /** Without commas in the account, email, password and role, the NLAuth header
      reads back as exactly three fields (account, email, signature), or four with
      the role last when a role is set. */
  lemma NLAuthHeaderFields(a: AccountSettings)
    requires ',' !in a.accountId && ',' !in a.email && ',' !in a.password && ',' !in a.role
    ensures NLAuthHeader(a)[..|NLAuthScheme|] == NLAuthScheme
    ensures SplitPairs(NLAuthHeader(a)[|NLAuthScheme|..]) == NLAuthPairs(a)
    ensures |NLAuthPairs(a)| == if a.role != "" then 4 else 3
    ensures NLAuthPairs(a)[2] == ("nlauth_signature", a.password)
  {
    var ps := NLAuthPairs(a);
    assert Plain(ps);
    SplitJoin(ps);
    assert NLAuthHeader(a)[|NLAuthScheme|..] == JoinPairs(ps);
  }

  lemma JoinCons(p: (string, string), ps: seq<(string, string)>)
    requires ps != []
    ensures JoinPairs([p] + ps) == Pair(p.0, p.1) + "," + JoinPairs(ps)
  {
    assert ([p] + ps)[1..] == ps;
  }

  lemma NLAuthJoined(a: AccountSettings)
    ensures a.role != "" ==>
      NLAuthHeader(a) == NLAuthScheme + (Pair("nlauth_account", a.accountId) + "," +
        (Pair("nlauth_email", a.email) + "," + (Pair("nlauth_signature", a.password) + "," + Pair("nlauth_role", a.role))))
    ensures a.role == "" ==>
      NLAuthHeader(a) == NLAuthScheme + (Pair("nlauth_account", a.accountId) + "," +
        (Pair("nlauth_email", a.email) + "," + Pair("nlauth_signature", a.password)))
  {
    var tail := if a.role != "" then [("nlauth_signature", a.password), ("nlauth_role", a.role)] else [("nlauth_signature", a.password)];
    if a.role != "" {
      JoinCons(("nlauth_signature", a.password), [("nlauth_role", a.role)]);
    }
    JoinCons(("nlauth_email", a.email), tail);
    JoinCons(("nlauth_account", a.accountId), [("nlauth_email", a.email)] + tail);
    assert NLAuthPairs(a) == [("nlauth_account", a.accountId)] + ([("nlauth_email", a.email)] + tail);
  }

  // The source's literals, cut at the field boundaries (one per lemma keeps each proof small)
  lemma AccountLiteral() ensures NLAuthScheme + "nlauth_account" + "=" == "NLAuth nlauth_account=" {}
  lemma EmailLiteral() ensures "," + "nlauth_email" + "=" == ",nlauth_email=" {}
  lemma SignatureLiteral() ensures "," + "nlauth_signature" + "=" == ",nlauth_signature=" {}
  lemma RoleLiteral() ensures "," + "nlauth_role" + "=" == ",nlauth_role=" {}

  lemma Regroup(s: string, k1: string, v1: string, k2: string, v2: string, k3: string, v3: string)
    ensures s + (Pair(k1, v1) + "," + (Pair(k2, v2) + "," + Pair(k3, v3)))
         == (s + k1 + "=") + v1 + ("," + k2 + "=") + v2 + ("," + k3 + "=") + v3
  {
  }

  lemma SpelledWithoutRole(id: string, email: string, password: string)
    ensures NLAuthScheme + (Pair("nlauth_account", id) + "," + (Pair("nlauth_email", email) + "," + Pair("nlauth_signature", password)))
         == "NLAuth nlauth_account=" + id + ",nlauth_email=" + email + ",nlauth_signature=" + password
  {
    Regroup(NLAuthScheme, "nlauth_account", id, "nlauth_email", email, "nlauth_signature", password);
    AccountLiteral();
    EmailLiteral();
    SignatureLiteral();
  }

  lemma SpelledWithRole(id: string, email: string, password: string, role: string)
    ensures NLAuthScheme + (Pair("nlauth_account", id) + "," + (Pair("nlauth_email", email) + "," +
              (Pair("nlauth_signature", password) + "," + Pair("nlauth_role", role))))
         == "NLAuth nlauth_account=" + id + ",nlauth_email=" + email + ",nlauth_signature=" + password + ",nlauth_role=" + role
  {
    var last := Pair("nlauth_signature", password) + "," + Pair("nlauth_role", role);
    assert Pair("nlauth_email", email) + "," + last == Pair("nlauth_email", email) + "," + Pair("nlauth_signature", password) + ("," + Pair("nlauth_role", role));
    assert Pair("nlauth_account", id) + "," + (Pair("nlauth_email", email) + "," + last)
        == (Pair("nlauth_account", id) + "," + (Pair("nlauth_email", email) + "," + Pair("nlauth_signature", password))) + ("," + Pair("nlauth_role", role));
    SpelledWithoutRole(id, email, password);
    RoleLiteral();
  }

  /** The NLAuth header written out field by field */
  lemma NLAuthHeaderSpelled(a: AccountSettings)
    ensures NLAuthHeader(a) ==
      "NLAuth nlauth_account=" + a.accountId + ",nlauth_email=" + a.email + ",nlauth_signature=" + a.password
      + (if a.role != "" then ",nlauth_role=" + a.role else "")
  {
    NLAuthJoined(a);
    if a.role != "" {
      SpelledWithRole(a.accountId, a.email, a.password, a.role);
    } else {
      SpelledWithoutRole(a.accountId, a.email, a.password);
      var h := "NLAuth nlauth_account=" + a.accountId + ",nlauth_email=" + a.email + ",nlauth_signature=" + a.password;
      assert h + "" == h;
    }
  }

  /** The `+=` steps that build the NLAuth header */
  method ComposeNLAuth(a: AccountSettings) returns (authorization: string)
    ensures authorization == NLAuthHeader(a)
  {
    authorization := "";
    authorization := authorization + "NLAuth nlauth_account=" + a.accountId;
    authorization := authorization + ",nlauth_email=" + a.email;
    authorization := authorization + ",nlauth_signature=" + a.password;
    if a.role != "" {
      authorization := authorization + ",nlauth_role=" + a.role;
    }
    NLAuthHeaderSpelled(a);
  }

  /** The `Authorization` header built as the call path does: the signer's value
      with the realm appended, or the NLAuth fields */
  method ComposeAuthorization(a: AccountSettings, oauth: bool, m: Method, url: string, lib: Library, attempt: nat)
    returns (authorization: string)
    ensures authorization == Authorization(a, oauth, m, url, lib, attempt)
  {
    if oauth {
      authorization := lib.oauthAuthorization(OAuthInput(url, m, a.consumerKey, a.consumerSecret, a.tokenKey, a.tokenSecret, attempt));
      authorization := authorization + (", realm=\"" + a.accountId + "\"");
    } else {
      authorization := ComposeNLAuth(a);
    }
  }

  /** The OAuth value ends with `, realm="<accountId>"`, after the signer's value */
  lemma OAuthHeaderRealm(a: AccountSettings, m: Method, url: string, lib: Library, attempt: nat)
    ensures var h := OAuthHeader(a, m, url, lib, attempt);
      var signed := lib.oauthAuthorization(OAuthInput(url, m, a.consumerKey, a.consumerSecret, a.tokenKey, a.tokenSecret, attempt));
      && |h| == |signed| + |a.accountId| + 10
      && h[..|signed|] == signed
      && h[|signed|..] == ", realm=\"" + a.accountId + "\""
  {
  }
}
