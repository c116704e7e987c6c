/** The authorization flow (truelayer/auth.go): the link a user follows to
    grant access, and the two token requests (authorization code and refresh
    token) sent to the authorization host. */
module Auth {
  import opened Wrappers
  import opened Text
  import opened Query
  import opened Errors
  import opened Client

  const AuthHost := "auth.truelayer.com"
  const AuthSandboxHost := "auth.truelayer-sandbox.com"

  /** `https://auth.truelayer-sandbox.com` and `https://auth.truelayer.com`. */
  const AuthBaseUrlSandbox := "https://" + AuthSandboxHost
  const AuthBaseUrl := "https://" + AuthHost
  const AuthTokenEndpoint := "/connect/token"
  const FormContentType := "application/x-www-form-urlencoded"

  /** The token endpoint's answer. */
  datatype AccessTokenResponse = AccessTokenResponse(
    accessToken: string,
    expiresIn: int,
    tokenType: string,
    refreshToken: string)

  /** `getAuthBaseURL`: the authorization host of the client's environment. */
  function GetAuthBaseUrl(t: TrueLayer): (base: string)
    ensures base == AuthBaseUrlSandbox <==> t.sandbox
    ensures base == AuthBaseUrl <==> !t.sandbox
  {
    if t.sandbox then AuthBaseUrlSandbox else AuthBaseUrl
  }

  lemma AuthHostIsPlain()
    ensures PlainHostName(AuthHost)
  {
  }

  lemma AuthSandboxHostIsPlain()
    ensures PlainHostName(AuthSandboxHost)
  {
  }

  /** The authorization base URL of each environment parses to its scheme
      and host. */
  lemma AuthBaseParses(t: TrueLayer)
    ensures ParseBase(GetAuthBaseUrl(t)) == Success(Url("https", if t.sandbox then AuthSandboxHost else AuthHost, "", ""))
  {
    if t.sandbox {
      AuthSandboxHostIsPlain();
      HttpsHostParses(AuthSandboxHost);
    } else {
      AuthHostIsPlain();
      HttpsHostParses(AuthHost);
    }
  }

  // ---------------------------------------------------------------------
  // Client information
  // ---------------------------------------------------------------------

  /** `getURLValuesWithClientInfo`: adds `client_id`, and `client_secret`
      exactly when `withSecret` holds; nothing else changes. */
  function WithClientInfo(values: Values, t: TrueLayer, withSecret: bool): (r: Values)
    ensures r.Keys == values.Keys + {"client_id"} + (if withSecret then {"client_secret"} else {})
    ensures r["client_id"] == Get(values, "client_id") + [t.clientId]
    ensures withSecret ==> r["client_secret"] == Get(values, "client_secret") + [t.clientSecret]
    ensures forall k :: k in values && k != "client_id" && (withSecret ==> k != "client_secret") ==> r[k] == values[k]
  {
    var v := Add(values, "client_id", t.clientId);
    if withSecret then Add(v, "client_secret", t.clientSecret) else v
  }

  /** `getNewURLValuesWithClientInfo`: client information alone. */
  function NewValuesWithClientInfo(t: TrueLayer, withSecret: bool): (r: Values)
    ensures r.Keys == {"client_id"} + (if withSecret then {"client_secret"} else {})
    ensures r["client_id"] == [t.clientId]
    ensures withSecret ==> r["client_secret"] == [t.clientSecret]
  {
    WithClientInfo(map[], t, withSecret)
  }

  // ---------------------------------------------------------------------
  // The authentication link
  // ---------------------------------------------------------------------

  /** The query `GetAuthenticationLink` builds. The base URL carries no query
      of its own, so `u.Query()` starts out empty. */
  function LinkValues(t: TrueLayer, providers: seq<string>, permissions: seq<string>, redirectUri: string, postCode: bool): Values
  {
    var q := WithClientInfo(map[], t, false);
    var q := Add(q, "response_type", "code");
    var q := Add(q, "scope", Join(permissions, ' '));
    var q := Add(q, "providers", Join(providers, ' '));
    var q := Add(q, "redirect_uri", redirectUri);
    if postCode then Add(q, "response_mode", "form_post") else q
  }

  /** The same query written out: one value under each key. */
  function LinkMap(t: TrueLayer, providers: seq<string>, permissions: seq<string>, redirectUri: string, postCode: bool): Values
  {
    var m := map[
      "client_id" := [t.clientId],
      "response_type" := ["code"],
      "scope" := [Join(permissions, ' ')],
      "providers" := [Join(providers, ' ')],
      "redirect_uri" := [redirectUri]];
    if postCode then m["response_mode" := ["form_post"]] else m
  }

  /** Each `Add` of `GetAuthenticationLink` lands on a fresh key. */
  lemma LinkValuesMapWithout(t: TrueLayer, providers: seq<string>, permissions: seq<string>, redirectUri: string)
    ensures LinkValues(t, providers, permissions, redirectUri, false) == LinkMap(t, providers, permissions, redirectUri, false)
  {
    var q1 := WithClientInfo(map[], t, false);
    assert q1 == Add(map[], "client_id", t.clientId);
    AddFresh(map[], "client_id", t.clientId);
    var q2 := Add(q1, "response_type", "code");
    AddFresh(q1, "response_type", "code");
    var q3 := Add(q2, "scope", Join(permissions, ' '));
    AddFresh(q2, "scope", Join(permissions, ' '));
    var q4 := Add(q3, "providers", Join(providers, ' '));
    AddFresh(q3, "providers", Join(providers, ' '));
    AddFresh(q4, "redirect_uri", redirectUri);
  }

  /** Adding under a key not yet present stores the one value. */
  lemma AddFresh(v: Values, k: string, x: string)
    requires k !in v
    ensures Add(v, k, x) == v[k := [x]]
  {
    assert Get(v, k) + [x] == [x];
  }

  lemma LinkValuesMap(t: TrueLayer, providers: seq<string>, permissions: seq<string>, redirectUri: string, postCode: bool)
    ensures LinkValues(t, providers, permissions, redirectUri, postCode) == LinkMap(t, providers, permissions, redirectUri, postCode)
  {
    LinkValuesMapWithout(t, providers, permissions, redirectUri);
    if postCode {
      var v := LinkValues(t, providers, permissions, redirectUri, false);
      assert LinkValues(t, providers, permissions, redirectUri, true) == Add(v, "response_mode", "form_post");
      assert "response_mode" !in v;
      AddFresh(v, "response_mode", "form_post");
      assert LinkMap(t, providers, permissions, redirectUri, true) == LinkMap(t, providers, permissions, redirectUri, false)["response_mode" := ["form_post"]];
    }
  }

  /** The link's parameters as they must appear: keys in ascending order,
      each once, `response_mode` only for `postCode`. */
  function LinkPairs(t: TrueLayer, providers: seq<string>, permissions: seq<string>, redirectUri: string, postCode: bool): seq<(string, string)>
  {
    var scope := Join(permissions, ' ');
    var names := Join(providers, ' ');
    if postCode then
      [("client_id", t.clientId), ("providers", names), ("redirect_uri", redirectUri),
       ("response_mode", "form_post"), ("response_type", "code"), ("scope", scope)]
    else
      [("client_id", t.clientId), ("providers", names), ("redirect_uri", redirectUri),
       ("response_type", "code"), ("scope", scope)]
  }

  /** The keys of `LinkPairs`, in order. */
  function LinkKeys(postCode: bool): seq<string>
  {
    if postCode then ["client_id", "providers", "redirect_uri", "response_mode", "response_type", "scope"]
    else ["client_id", "providers", "redirect_uri", "response_type", "scope"]
  }

  lemma ClientIdBeforeProviders() ensures Less("client_id", "providers") { LessAt("client_id", "providers", 0); }
  lemma ProvidersBeforeRedirectUri() ensures Less("providers", "redirect_uri") { LessAt("providers", "redirect_uri", 0); }
  lemma RedirectUriBeforeResponseMode() ensures Less("redirect_uri", "response_mode") { LessAt("redirect_uri", "response_mode", 2); }
  lemma ResponseModeBeforeResponseType() ensures Less("response_mode", "response_type") { LessAt("response_mode", "response_type", 9); }
  lemma RedirectUriBeforeResponseType() ensures Less("redirect_uri", "response_type") { LessAt("redirect_uri", "response_type", 2); }
  lemma ResponseTypeBeforeScope() ensures Less("response_type", "scope") { LessAt("response_type", "scope", 0); }

  /** Neighbouring link keys are in ascending order. */
  lemma LinkKeyOrder()
    ensures Less("client_id", "providers") && Less("providers", "redirect_uri")
    ensures Less("redirect_uri", "response_mode") && Less("response_mode", "response_type")
    ensures Less("redirect_uri", "response_type") && Less("response_type", "scope")
  {
    ClientIdBeforeProviders();
    ProvidersBeforeRedirectUri();
    RedirectUriBeforeResponseMode();
    ResponseModeBeforeResponseType();
    RedirectUriBeforeResponseType();
    ResponseTypeBeforeScope();
  }

  lemma LinkKeysSorted(postCode: bool)
    ensures StrictlySorted(LinkKeys(postCode))
  {
    LinkKeyOrder();
    if postCode {
      SortedSix("client_id", "providers", "redirect_uri", "response_mode", "response_type", "scope");
    } else {
      SortedFive("client_id", "providers", "redirect_uri", "response_type", "scope");
    }
  }

  /** The query is written as exactly the pairs of `LinkPairs`, in that
      order. */
  lemma LinkQueryPairs(t: TrueLayer, providers: seq<string>, permissions: seq<string>, redirectUri: string, postCode: bool)
    ensures Pairs(LinkValues(t, providers, permissions, redirectUri, postCode))
         == LinkPairs(t, providers, permissions, redirectUri, postCode)
  {
    LinkValuesMap(t, providers, permissions, redirectUri, postCode);
    var v := LinkMap(t, providers, permissions, redirectUri, postCode);
    var keys := LinkKeys(postCode);
    LinkKeysSorted(postCode);
    LinkKeysMatch(t, providers, permissions, redirectUri, postCode);
    PairsOfSingleValued(v, keys);
    LinkSingles(t, providers, permissions, redirectUri, postCode);
  }

  lemma LinkKeysMatch(t: TrueLayer, providers: seq<string>, permissions: seq<string>, redirectUri: string, postCode: bool)
    ensures forall k :: k in LinkKeys(postCode) <==> k in LinkMap(t, providers, permissions, redirectUri, postCode)
    ensures forall k :: k in LinkMap(t, providers, permissions, redirectUri, postCode) ==> |LinkMap(t, providers, permissions, redirectUri, postCode)[k]| == 1
  {
    var v := LinkMap(t, providers, permissions, redirectUri, postCode);
    var keys := LinkKeys(postCode);
    assert v.Keys == {"client_id", "providers", "redirect_uri", "response_type", "scope"} + (if postCode then {"response_mode"} else {});
    assert forall k :: k in keys <==> k in {"client_id", "providers", "redirect_uri", "response_type", "scope"} + (if postCode then {"response_mode"} else {});
  }

  lemma LinkSingles(t: TrueLayer, providers: seq<string>, permissions: seq<string>, redirectUri: string, postCode: bool)
    requires forall k :: k in LinkKeys(postCode) ==> k in LinkMap(t, providers, permissions, redirectUri, postCode) && |LinkMap(t, providers, permissions, redirectUri, postCode)[k]| == 1
    ensures Singles(LinkMap(t, providers, permissions, redirectUri, postCode), LinkKeys(postCode)) == LinkPairs(t, providers, permissions, redirectUri, postCode)
  {
    var v := LinkMap(t, providers, permissions, redirectUri, postCode);
    var keys := LinkKeys(postCode);
    var expected := LinkPairs(t, providers, permissions, redirectUri, postCode);
    assert |keys| == |expected|;
    assert forall i :: 0 <= i < |keys| ==> expected[i] == (keys[i], v[keys[i]][0]);
  }

  /** `LinkPairs` lists the keys of `LinkKeys`, one pair each. */
  lemma LinkPairsKeys(t: TrueLayer, providers: seq<string>, permissions: seq<string>, redirectUri: string, postCode: bool)
    ensures |LinkPairs(t, providers, permissions, redirectUri, postCode)| == |LinkKeys(postCode)|
    ensures forall i :: 0 <= i < |LinkKeys(postCode)| ==> LinkPairs(t, providers, permissions, redirectUri, postCode)[i].0 == LinkKeys(postCode)[i]
  {
  }

  lemma LinkPairsHaveNoSecret(t: TrueLayer, providers: seq<string>, permissions: seq<string>, redirectUri: string, postCode: bool)
    ensures forall p :: p in LinkPairs(t, providers, permissions, redirectUri, postCode) ==> p.0 != "client_secret"
  {
    LinkPairsKeys(t, providers, permissions, redirectUri, postCode);
    var ps := LinkPairs(t, providers, permissions, redirectUri, postCode);
    assert "client_secret" !in LinkKeys(postCode);
    forall p | p in ps
      ensures p.0 != "client_secret"
    {
      var i :| 0 <= i < |ps| && ps[i] == p;
      assert p.0 == LinkKeys(postCode)[i];
    }
  }

  lemma LinkValuesHaveNoSecret(t: TrueLayer, providers: seq<string>, permissions: seq<string>, redirectUri: string, postCode: bool)
    ensures "client_secret" !in LinkValues(t, providers, permissions, redirectUri, postCode)
  {
    LinkValuesMap(t, providers, permissions, redirectUri, postCode);
  }

  /** The link never carries the client secret. */
  lemma LinkHasNoSecret(t: TrueLayer, providers: seq<string>, permissions: seq<string>, redirectUri: string, postCode: bool)
    ensures "client_secret" !in LinkValues(t, providers, permissions, redirectUri, postCode)
    ensures forall p :: p in Pairs(LinkValues(t, providers, permissions, redirectUri, postCode)) ==> p.0 != "client_secret"
  {
    LinkValuesHaveNoSecret(t, providers, permissions, redirectUri, postCode);
    LinkPairsHaveNoSecret(t, providers, permissions, redirectUri, postCode);
    LinkQueryPairs(t, providers, permissions, redirectUri, postCode);
  }

  /** `response_mode=form_post` appears exactly when `postCode` holds, and
      it is the only difference `postCode` makes: the pair is inserted after
      `redirect_uri`, as key order demands. */
  lemma PostCodeAddsOnlyResponseMode(t: TrueLayer, providers: seq<string>, permissions: seq<string>, redirectUri: string)
    ensures forall p :: p in LinkPairs(t, providers, permissions, redirectUri, false) ==> p.0 != "response_mode"
    ensures
      var without := LinkPairs(t, providers, permissions, redirectUri, false);
      LinkPairs(t, providers, permissions, redirectUri, true)
        == without[..3] + [("response_mode", "form_post")] + without[3..]
  {
    LinkPairsKeys(t, providers, permissions, redirectUri, false);
    var without := LinkPairs(t, providers, permissions, redirectUri, false);
    var with := LinkPairs(t, providers, permissions, redirectUri, true);
    assert "response_mode" !in LinkKeys(false);
    forall p | p in without
      ensures p.0 != "response_mode"
    {
      var i :| 0 <= i < |without| && without[i] == p;
      assert p.0 == LinkKeys(false)[i];
    }
    var spliced := without[..3] + [("response_mode", "form_post")] + without[3..];
    assert |with| == |spliced|;
    assert forall i :: 0 <= i < |with| ==> with[i] == spliced[i];
  }

  /** The encoded query of the link. */
  function LinkQuery(t: TrueLayer, providers: seq<string>, permissions: seq<string>, redirectUri: string, postCode: bool): string
  {
    Join(EncodePairs(LinkPairs(t, providers, permissions, redirectUri, postCode)), '&')
  }

  /** The query `Encode` writes for the link is the pairs of `LinkPairs`,
      form-encoded and joined by `&`. */
  lemma LinkEncodes(t: TrueLayer, providers: seq<string>, permissions: seq<string>, redirectUri: string, postCode: bool)
    ensures Encode(LinkValues(t, providers, permissions, redirectUri, postCode)) == LinkQuery(t, providers, permissions, redirectUri, postCode)
  {
    LinkQueryPairs(t, providers, permissions, redirectUri, postCode);
  }

  lemma LinkQueryNotEmpty(t: TrueLayer, providers: seq<string>, permissions: seq<string>, redirectUri: string, postCode: bool)
    ensures LinkQuery(t, providers, permissions, redirectUri, postCode) != ""
  {
    var parts := EncodePairs(LinkPairs(t, providers, permissions, redirectUri, postCode));
    assert |parts| > 1 && |parts[0]| > 0;
    assert Join(parts, '&') == parts[0] + ['&'] + Join(parts[1..], '&');
  }

  /** A space-joined list such as the link's `scope` and `providers`
      values is written as its items, each escaped on its own, separated by
      `+`, the form encoding of the space. */
  lemma JoinedValueEncodes(key: string, items: seq<string>)
    ensures EncodePair((key, Join(items, ' '))) == QueryEscape(key) + "=" + Join(EscapeAll(items), '+')
  {
    QueryEscapeJoin(items);
  }

  /** A base URL with a path and a query, written back as a string. */
  function LinkUrl(base: string, path: string, query: Values): Result<string, GoError>
  {
    match BuildUrl(base, path)
    case Failure(e) => Failure(e)
    case Success(u) => Success(UrlString(u.(rawQuery := Encode(query))))
  }

  lemma LinkUrlShape(base: string, path: string, query: Values)
    requires ParseBase(base).Success?
    requires path == "" || path[0] == '/'
    requires Encode(query) != ""
    ensures LinkUrl(base, path, query) == Success(base + EscapedPath(path) + "?" + Encode(query))
  {
    var q := Encode(query);
    BuildUrlString(base, path, q);
    var p := EscapedPath(path);
    assert base + p + ("?" + q) == base + p + "?" + q;
  }

  /** `GetAuthenticationLink` as written: the base URL is given an empty
      path. */
  function GetAuthenticationLinkAsWritten(t: TrueLayer, providers: seq<string>, permissions: seq<string>, redirectUri: string, postCode: bool): (r: Result<string, GoError>)
    ensures r.Success?
    ensures |r.value| > |GetAuthBaseUrl(t)| && r.value[..|GetAuthBaseUrl(t)|] == GetAuthBaseUrl(t)
    ensures r.value[|GetAuthBaseUrl(t)|] == '?'
  {
    LinkStart(t, providers, permissions, redirectUri, postCode);
    LinkUrl(GetAuthBaseUrl(t), "", LinkValues(t, providers, permissions, redirectUri, postCode))
  }

  /** `GetAuthenticationLink` with the root path `/` the tests expect before
      the query. */
  function GetAuthenticationLink(t: TrueLayer, providers: seq<string>, permissions: seq<string>, redirectUri: string, postCode: bool): (r: Result<string, GoError>)
    ensures r.Success?
    ensures |r.value| > |GetAuthBaseUrl(t)| && r.value[..|GetAuthBaseUrl(t)|] == GetAuthBaseUrl(t)
    ensures r.value[|GetAuthBaseUrl(t)|] == '/'
  {
    LinkStart(t, providers, permissions, redirectUri, postCode);
    LinkUrl(GetAuthBaseUrl(t), "/", LinkValues(t, providers, permissions, redirectUri, postCode))
  }

  /** Right after the host the link as written has `?`, the corrected
      link `/`. */
  lemma LinkStart(t: TrueLayer, providers: seq<string>, permissions: seq<string>, redirectUri: string, postCode: bool)
    ensures var base := GetAuthBaseUrl(t);
      var v := LinkValues(t, providers, permissions, redirectUri, postCode);
      && LinkUrl(base, "", v).Success? && LinkUrl(base, "/", v).Success?
      && |LinkUrl(base, "", v).value| > |base| && LinkUrl(base, "", v).value[..|base|] == base
      && LinkUrl(base, "", v).value[|base|] == '?'
      && |LinkUrl(base, "/", v).value| > |base| && LinkUrl(base, "/", v).value[..|base|] == base
      && LinkUrl(base, "/", v).value[|base|] == '/'
  {
    var v := LinkValues(t, providers, permissions, redirectUri, postCode);
    LinkEncodes(t, providers, permissions, redirectUri, postCode);
    LinkQueryNotEmpty(t, providers, permissions, redirectUri, postCode);
    HostThenMark(GetAuthBaseUrl(t), Encode(v));
    AuthLinkUrlNoPath(t, v);
    AuthLinkUrl(t, "/", v);
    RootPathIsPlain();
  }

  lemma HostThenMark(base: string, q: string)
    ensures |base + "?" + q| > |base| && (base + "?" + q)[..|base|] == base && (base + "?" + q)[|base|] == '?'
    ensures |base + "/" + "?" + q| > |base| && (base + "/" + "?" + q)[..|base|] == base && (base + "/" + "?" + q)[|base|] == '/'
  {
  }

  lemma AuthLinkUrl(t: TrueLayer, path: string, v: Values)
    requires path == "" || path[0] == '/'
    requires Encode(v) != ""
    ensures LinkUrl(GetAuthBaseUrl(t), path, v) == Success(GetAuthBaseUrl(t) + EscapedPath(path) + "?" + Encode(v))
  {
    AuthBaseParses(t);
    LinkUrlShape(GetAuthBaseUrl(t), path, v);
  }

  lemma RootPathIsPlain()
    ensures EscapedPath("/") == "/"
  {
    EscapedPathPlain("/");
  }

  lemma EmptyPathIsPlain()
    ensures EscapedPath("") == ""
  {
    EscapedPathPlain("");
  }

  /** The link is the authorization host of the client's environment, then
      `/?`, then the encoded query (whose pairs `LinkEncodes` lists). */
  lemma LinkShape(t: TrueLayer, providers: seq<string>, permissions: seq<string>, redirectUri: string, postCode: bool)
    ensures GetAuthenticationLink(t, providers, permissions, redirectUri, postCode)
         == Success(GetAuthBaseUrl(t) + "/" + "?" + Encode(LinkValues(t, providers, permissions, redirectUri, postCode)))
  {
    LinkEncodes(t, providers, permissions, redirectUri, postCode);
    LinkQueryNotEmpty(t, providers, permissions, redirectUri, postCode);
    AuthLinkUrl(t, "/", LinkValues(t, providers, permissions, redirectUri, postCode));
    RootPathIsPlain();
  }

  lemma AuthLinkUrlNoPath(t: TrueLayer, v: Values)
    requires Encode(v) != ""
    ensures LinkUrl(GetAuthBaseUrl(t), "", v) == Success(GetAuthBaseUrl(t) + "?" + Encode(v))
  {
    AuthLinkUrl(t, "", v);
    EmptyPathIsPlain();
    assert GetAuthBaseUrl(t) + "" == GetAuthBaseUrl(t);
  }

  /** As written, the link has no `/` between host and `?`. */
  lemma LinkShapeAsWritten(t: TrueLayer, providers: seq<string>, permissions: seq<string>, redirectUri: string, postCode: bool)
    ensures GetAuthenticationLinkAsWritten(t, providers, permissions, redirectUri, postCode)
         == Success(GetAuthBaseUrl(t) + "?" + Encode(LinkValues(t, providers, permissions, redirectUri, postCode)))
  {
    LinkEncodes(t, providers, permissions, redirectUri, postCode);
    LinkQueryNotEmpty(t, providers, permissions, redirectUri, postCode);
    AuthLinkUrlNoPath(t, LinkValues(t, providers, permissions, redirectUri, postCode));
  }

  /** A URL with `?` right after the host is never the same URL with `/?`
      there. */
  lemma RootBeforeQuery(base: string, query: string)
    ensures (base + "?" + query)[|base|] == '?'
    ensures (base + "/" + "?" + query)[|base|] == '/'
    ensures base + "?" + query != base + "/" + "?" + query
  {
    assert (base + "?" + query)[|base|] != (base + "/" + "?" + query)[|base|];
  }

  /** The link as written never carries the `/` before the query: right
      after the host comes `?`, so it differs from the corrected link for
      every input. */
  lemma LinkAsWrittenLacksRoot(t: TrueLayer, providers: seq<string>, permissions: seq<string>, redirectUri: string, postCode: bool)
    ensures GetAuthenticationLinkAsWritten(t, providers, permissions, redirectUri, postCode).Success?
    ensures GetAuthenticationLink(t, providers, permissions, redirectUri, postCode).Success?
    ensures GetAuthenticationLinkAsWritten(t, providers, permissions, redirectUri, postCode)
         != GetAuthenticationLink(t, providers, permissions, redirectUri, postCode)
  {
    LinkShapeAsWritten(t, providers, permissions, redirectUri, postCode);
    LinkShape(t, providers, permissions, redirectUri, postCode);
    RootBeforeQuery(GetAuthBaseUrl(t), Encode(LinkValues(t, providers, permissions, redirectUri, postCode)));
  }

  // ---------------------------------------------------------------------
  // Token requests
  // ---------------------------------------------------------------------

  /** The form `GetAccessToken` posts: client credentials, the grant type,
      the redirect URI and the code. */
  function AccessTokenBody(t: TrueLayer, code: string, redirectUri: string): Values
  {
    var body := NewValuesWithClientInfo(t, true);
    var body := Add(body, "grant_type", "authorization_code");
    var body := Add(body, "redirect_uri", redirectUri);
    Add(body, "code", code)
  }

  /** The form `RefreshAccessToken` posts: client credentials, the grant
      type and the refresh token. */
  function RefreshTokenBody(t: TrueLayer, refreshToken: string): Values
  {
    var body := NewValuesWithClientInfo(t, true);
    var body := Add(body, "grant_type", "refresh_token");
    Add(body, "refresh_token", refreshToken)
  }

  /** Each field of the authorization-code form is sent once, with the
      client secret among them. */
  lemma AccessTokenBodyFields(t: TrueLayer, code: string, redirectUri: string)
    ensures AccessTokenBody(t, code, redirectUri) == map[
      "client_id" := [t.clientId],
      "client_secret" := [t.clientSecret],
      "grant_type" := ["authorization_code"],
      "redirect_uri" := [redirectUri],
      "code" := [code]]
  {
    var v := AccessTokenBody(t, code, redirectUri);
    var m := map[
      "client_id" := [t.clientId],
      "client_secret" := [t.clientSecret],
      "grant_type" := ["authorization_code"],
      "redirect_uri" := [redirectUri],
      "code" := [code]];
    assert v.Keys == m.Keys;
    forall k | k in m
      ensures v[k] == m[k]
    {
    }
  }

  /** Each field of the refresh form is sent once, with the client secret
      among them. */
  lemma RefreshTokenBodyFields(t: TrueLayer, refreshToken: string)
    ensures RefreshTokenBody(t, refreshToken) == map[
      "client_id" := [t.clientId],
      "client_secret" := [t.clientSecret],
      "grant_type" := ["refresh_token"],
      "refresh_token" := [refreshToken]]
  {
    var v := RefreshTokenBody(t, refreshToken);
    var m := map[
      "client_id" := [t.clientId],
      "client_secret" := [t.clientSecret],
      "grant_type" := ["refresh_token"],
      "refresh_token" := [refreshToken]];
    assert v.Keys == m.Keys;
    forall k | k in m
      ensures v[k] == m[k]
    {
    }
  }

  /** `doRequestWithFormURLEncodedBody`: the encoded form as the body, sent
      with the form content type. */
  function FormRequest(verb: Method, u: Url, body: Values): Request
  {
    Request(verb, u, [("Content-Type", FormContentType)], Some(Encode(body)))
  }

  lemma TokenEndpointChars()
    ensures PlainPath(AuthTokenEndpoint)
  {
  }

  lemma TokenEndpointIsPlain()
    ensures EscapedPath(AuthTokenEndpoint) == AuthTokenEndpoint
  {
    TokenEndpointChars();
    EscapedPathPlain(AuthTokenEndpoint);
  }

  /** The token endpoint of the client's environment. */
  function TokenUrl(t: TrueLayer): Url
  {
    Url("https", if t.sandbox then AuthSandboxHost else AuthHost, AuthTokenEndpoint, "")
  }

  /** The request `authDoTokenRequest` builds, or the error of parsing the
      base URL. */
  function TokenRequest(t: TrueLayer, body: Values): Result<Request, GoError>
  {
    match BuildUrl(GetAuthBaseUrl(t), AuthTokenEndpoint)
    case Failure(e) => Failure(e)
    case Success(u) => Success(FormRequest(MethodPost, u, body))
  }

  /** The token request is always built: a POST of the encoded form to
      `/connect/token` on the authorization host. */
  lemma TokenRequestShape(t: TrueLayer, body: Values)
    ensures TokenRequest(t, body) == Success(FormRequest(MethodPost, TokenUrl(t), body))
    ensures UrlString(TokenUrl(t)) == GetAuthBaseUrl(t) + AuthTokenEndpoint
    ensures DecodeQuery(FormRequest(MethodPost, TokenUrl(t), body).body.value) == Some(BytePairs(Pairs(body)))
  {
    AuthBaseParses(t);
    TokenUrlString(t);
    EncodeDecode(body);
  }

  lemma TokenUrlString(t: TrueLayer)
    ensures BuildUrl(GetAuthBaseUrl(t), AuthTokenEndpoint) == Success(TokenUrl(t))
    ensures UrlString(TokenUrl(t)) == GetAuthBaseUrl(t) + AuthTokenEndpoint
  {
    AuthBaseParses(t);
    BuildUrlString(GetAuthBaseUrl(t), AuthTokenEndpoint, "");
    TokenEndpointIsPlain();
    assert GetAuthBaseUrl(t) + AuthTokenEndpoint + "" == GetAuthBaseUrl(t) + AuthTokenEndpoint;
  }

  /** The `(*AccessTokenResponse, error)` pair a token call returns. */
  datatype TokenReply = TokenReply(token: Option<AccessTokenResponse>, error: Option<GoError>)

  /** `authDoTokenRequest`, with `send` standing for the injected HTTP
      client. Unlike the data calls, a body that fails to decode returns the
      partly filled token together with the error. */
  function AuthDoTokenRequest(t: TrueLayer, body: Values, send: Request -> Exchange<AccessTokenResponse>): (r: TokenReply)
    ensures TokenRequest(t, body).Failure? ==> r == TokenReply(None, Some(TokenRequest(t, body).error))
    ensures TokenRequest(t, body).Success? ==>
      var x := send(TokenRequest(t, body).value);
      && (r.error.None? <==> Classify(x).Success?)
      && (Classify(x).Success? ==> r.token == Some(Classify(x).value))
      && (Classify(x).Failure? ==> r.error == Some(Classify(x).error))
      && (r.token.Some? <==> x.Delivered? && x.response.status < 300)
      && (x.Delivered? && x.response.status < 300 && x.response.body.Malformed? ==>
            r.token == Some(x.response.body.partial))
  {
    match TokenRequest(t, body)
    case Failure(e) => TokenReply(None, Some(e))
    case Success(req) =>
      match send(req)
      case NotDelivered(e) => TokenReply(None, Some(e))
      case Delivered(res) =>
        if res.status >= 300 then TokenReply(None, Some(ParseErrorResponse(res)))
        else match res.body
          case Decoded(token) => TokenReply(Some(token), None)
          case Malformed(partial, message) => TokenReply(Some(partial), Some(DecodeError(message)))
  }

  /** `GetAccessToken`: exchanges an authorization code for a token by
      posting the authorization-code form to the token endpoint. */
  function GetAccessToken(t: TrueLayer, code: string, redirectUri: string, send: Request -> Exchange<AccessTokenResponse>): (r: TokenReply)
    ensures r == ReplyTo(send(FormRequest(MethodPost, TokenUrl(t), AccessTokenBody(t, code, redirectUri))))
  {
    TokenCallSends(t, AccessTokenBody(t, code, redirectUri), send);
    AuthDoTokenRequest(t, AccessTokenBody(t, code, redirectUri), send)
  }

  /** `RefreshAccessToken`: exchanges a refresh token for a new token by
      posting the refresh form to the token endpoint. */
  function RefreshAccessToken(t: TrueLayer, refreshToken: string, send: Request -> Exchange<AccessTokenResponse>): (r: TokenReply)
    ensures r == ReplyTo(send(FormRequest(MethodPost, TokenUrl(t), RefreshTokenBody(t, refreshToken))))
  {
    TokenCallSends(t, RefreshTokenBody(t, refreshToken), send);
    AuthDoTokenRequest(t, RefreshTokenBody(t, refreshToken), send)
  }

  /** What a token call returns for the answer to the request it sends. */
  function ReplyTo(x: Exchange<AccessTokenResponse>): TokenReply
  {
    match x
    case NotDelivered(e) => TokenReply(None, Some(e))
    case Delivered(res) =>
      if res.status >= 300 then TokenReply(None, Some(ParseErrorResponse(res)))
      else match res.body
        case Decoded(token) => TokenReply(Some(token), None)
        case Malformed(partial, message) => TokenReply(Some(partial), Some(DecodeError(message)))
  }

  /** A token call sends exactly one request, the form posted to the token
      endpoint, and answers with what comes back. */
  lemma TokenCallSends(t: TrueLayer, body: Values, send: Request -> Exchange<AccessTokenResponse>)
    ensures AuthDoTokenRequest(t, body, send) == ReplyTo(send(FormRequest(MethodPost, TokenUrl(t), body)))
  {
    TokenRequestShape(t, body);
  }
}
