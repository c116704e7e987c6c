/** The client value, URL building, the request records the client hands to
    its HTTP transport, the shared status and decoding decision, and the
    webhook handlers (truelayer/client.go).

    The transport itself is a parameter: each call receives
    `send: Request -> Exchange<T>`, the behaviour of the injected HTTP client
    for that request, already paired with what `encoding/json` makes of the
    response body. */
module Client {
  import opened Wrappers
  import opened Text
  import opened Errors
  import opened Query

  const ApiHost := "api.truelayer.com"
  const ApiSandboxHost := "api.truelayer-sandbox.com"

  /** `https://api.truelayer.com` and `https://api.truelayer-sandbox.com`. */
  const BaseUrl := "https://" + ApiHost
  const BaseSandboxUrl := "https://" + ApiSandboxHost
  const ErrRequestBodyNil := StrError("request body is nil")

  /** The identity of the injected HTTP client. */
  datatype HttpClient = HttpClient(handle: nat)

  /** The `&http.Client{}` that `New` injects. */
  const DefaultHttpClient := HttpClient(0)

  /** The client: credentials, environment and transport, fixed at
      construction. */
  datatype TrueLayer = TrueLayer(
    clientId: string,
    clientSecret: string,
    sandbox: bool,
    httpClient: HttpClient)

  /** `NewWithHTTPClient`: stores every argument unchanged. */
  function NewWithHttpClient(clientId: string, clientSecret: string, sandbox: bool, httpClient: HttpClient): (t: TrueLayer)
    ensures t.clientId == clientId && t.clientSecret == clientSecret
    ensures t.sandbox == sandbox && t.httpClient == httpClient
  {
    TrueLayer(clientId, clientSecret, sandbox, httpClient)
  }

  /** `New`: the same with the default HTTP client. */
  function New(clientId: string, clientSecret: string, sandbox: bool): (t: TrueLayer)
    ensures t.clientId == clientId && t.clientSecret == clientSecret
    ensures t.sandbox == sandbox && t.httpClient == DefaultHttpClient
  {
    NewWithHttpClient(clientId, clientSecret, sandbox, DefaultHttpClient)
  }

  /** `getBaseURL`: the data host of the client's environment. */
  function GetBaseUrl(t: TrueLayer): (base: string)
    ensures base == BaseSandboxUrl <==> t.sandbox
    ensures base == BaseUrl <==> !t.sandbox
  {
    if t.sandbox then BaseSandboxUrl else BaseUrl
  }

  // ---------------------------------------------------------------------
  // URLs
  // ---------------------------------------------------------------------

  /** The parts of a `url.URL` the client uses. */
  datatype Url = Url(scheme: string, host: string, path: string, rawQuery: string)

  /** `url.URL.String()` for an absolute URL with a host: the path is
      written escaped, an escaped path that does not start with `/` gets
      one, an empty path is written as nothing, and the query follows a `?`
      only when it is not empty. */
  function UrlString(u: Url): string
  {
    var path := EscapedPath(u.path);
    u.scheme + "://" + u.host
    + (if path != "" && path[0] != '/' then "/" else "")
    + path
    + (if u.rawQuery != "" then "?" + u.rawQuery else "")
  }

  /** A written URL reads back: after `scheme://host`, the text up to the
      first `?` is the escaped path, which unescapes to the bytes of the
      path, and the text after it is the query. */
  lemma UrlStringParts(u: Url)
    requires u.path == "" || u.path[0] == '/'
    ensures |UrlString(u)| >= |u.scheme| + 3 + |u.host|
    ensures UrlString(u)[..|u.scheme| + 3 + |u.host|] == u.scheme + "://" + u.host
    ensures Cut(UrlString(u)[|u.scheme| + 3 + |u.host|..], '?') == (EscapedPath(u.path), u.rawQuery, u.rawQuery != "")
    ensures PathUnescape(EscapedPath(u.path)) == Some(Utf8(u.path))
  {
    var head := u.scheme + "://" + u.host;
    var path := EscapedPath(u.path);
    RootedWritesNoSlash(u.path);
    var rest := path + (if u.rawQuery != "" then "?" + u.rawQuery else "");
    assert UrlString(u) == head + rest;
    NoQuestionMark(u.path);
    CutQuery(path, u.rawQuery);
    EscapedPathRoundTrip(u.path);
  }

  /** A path that is empty or rooted is written without an added `/`. */
  lemma RootedWritesNoSlash(path: string)
    requires path == "" || path[0] == '/'
    ensures EscapedPath(path) == "" || EscapedPath(path)[0] == '/'
  {
    if path != "" {
      EscapedPathRooted(path);
    } else {
      EscapedPathPlain(path);
    }
  }

  /** An escaped path never holds `?`. */
  lemma NoQuestionMark(path: string)
    ensures '?' !in EscapedPath(path)
  {
  }

  /** Cutting a path without `?`, followed by the optional query, at its
      first `?` separates the two. */
  lemma CutQuery(path: string, q: string)
    requires '?' !in path
    ensures Cut(path + (if q != "" then "?" + q else ""), '?') == (path, q, q != "")
  {
    if q != "" {
      CutWithQuery(path, q);
    } else {
      assert path + "" == path;
    }
  }

  lemma CutWithQuery(path: string, q: string)
    requires '?' !in path
    ensures Cut(path + ("?" + q), '?') == (path, q, true)
  {
    CutAt(path, q, '?');
    assert path + ("?" + q) == path + ['?'] + q;
  }

  /** Position of the first `c` in `s`, or `|s|` when there is none. */
  function FirstIndex(s: string, c: char): (i: nat)
    ensures i <= |s|
    ensures i < |s| ==> s[i] == c
    ensures c !in s[..i]
  {
    if |s| == 0 || s[0] == c then 0
    else
      var i := FirstIndex(s[1..], c);
      assert s[..i + 1] == [s[0]] + s[1..][..i];
      i + 1
  }

  lemma {:induction false} FirstIndexAt(s: string, c: char, k: nat)
    requires k < |s| && s[k] == c && c !in s[..k]
    ensures FirstIndex(s, c) == k
  {
    if k > 0 {
      assert s[0] in s[..k];
      assert s[1..][..k - 1] == s[1..k];
      assert s[1..k] == s[..k][1..];
      FirstIndexAt(s[1..], c, k - 1);
    }
  }

  predicate IsSchemeChar(c: char)
  {
    'a' <= c <= 'z'
  }

  /** `url.Parse` of a base URL of the form `scheme://host`. */
  function ParseBase(s: string): (r: Result<Url, GoError>)
    ensures r.Success? ==> r.value.scheme != "" && r.value.host != ""
    ensures r.Success? ==> r.value.path == "" && r.value.rawQuery == ""
    ensures r.Success? ==> UrlString(r.value) == s
  {
    var i := FirstIndex(s, ':');
    if i == 0 || i + 3 > |s| || s[i..i + 3] != "://" then Failure(UrlError("missing protocol scheme"))
    else if exists j :: 0 <= j < i && !IsSchemeChar(s[j]) then Failure(UrlError("invalid scheme"))
    else
      var host := s[i + 3..];
      if host == "" || '/' in host || '?' in host || '#' in host then Failure(UrlError("invalid host"))
      else
        assert s == s[..i] + "://" + host;
        Success(Url(s[..i], host, "", ""))
  }

  /** A scheme of lower-case letters and a plain host parse to themselves. */
  lemma ParseBaseOf(scheme: string, host: string)
    requires scheme != "" && forall j :: 0 <= j < |scheme| ==> IsSchemeChar(scheme[j])
    requires host != "" && '/' !in host && '?' !in host && '#' !in host
    ensures ParseBase(scheme + "://" + host) == Success(Url(scheme, host, "", ""))
  {
    var s := scheme + "://" + host;
    assert s[|scheme|] == ':';
    assert s[..|scheme|] == scheme;
    assert ':' !in scheme by {
      forall j | 0 <= j < |scheme|
        ensures scheme[j] != ':'
      {
        assert IsSchemeChar(scheme[j]);
      }
    }
    FirstIndexAt(s, ':', |scheme|);
    var i := |scheme|;
    assert s[..i] == scheme && s[i..i + 3] == "://" && s[i + 3..] == host;
  }

  /** `buildURL`: the base's scheme and host with `path` as the path. */
  function BuildUrl(base: string, path: string): (r: Result<Url, GoError>)
    ensures ParseBase(base).Failure? ==> r == ParseBase(base)
    ensures ParseBase(base).Success? ==>
      && r.Success?
      && r.value.scheme == ParseBase(base).value.scheme
      && r.value.host == ParseBase(base).value.host
      && r.value.rawQuery == ParseBase(base).value.rawQuery
      && r.value.path == path
  {
    match ParseBase(base)
    case Failure(e) => Failure(e)
    case Success(u) => Success(u.(path := path))
  }

  /** Building on a parsed base and writing the result back: the base, the
      rooted path in its escaped form, then the query after a `?` when there
      is one. */
  lemma BuildUrlString(base: string, path: string, q: string)
    requires ParseBase(base).Success?
    requires path == "" || path[0] == '/'
    ensures BuildUrl(base, path).Success?
    ensures UrlString(BuildUrl(base, path).value.(rawQuery := q))
         == base + EscapedPath(path) + (if q != "" then "?" + q else "")
  {
    var u := ParseBase(base).value;
    assert BuildUrl(base, path).value.(rawQuery := q) == u.(path := path, rawQuery := q);
    UrlWithPath(u, path, q);
  }

  /** Giving a URL without path and query a rooted path and a query writes
      them after what it wrote before. */
  lemma UrlWithPath(u: Url, path: string, q: string)
    requires u.path == "" && u.rawQuery == ""
    requires path == "" || path[0] == '/'
    ensures UrlString(u.(path := path, rawQuery := q)) == UrlString(u) + EscapedPath(path) + (if q != "" then "?" + q else "")
  {
    RootedWritesNoSlash(path);
    RootedWritesNoSlash("");
    var head := u.scheme + "://" + u.host;
    var tail := if q != "" then "?" + q else "";
    assert UrlString(u) == head + "" + "" + "";
    assert UrlString(u.(path := path, rawQuery := q)) == head + "" + EscapedPath(path) + tail;
  }

  /** A character that ends the host part of a URL. */
  predicate IsHostDelimiter(c: char)
  {
    c == '/' || c == '?' || c == '#'
  }

  /** A host name with no path, query or fragment delimiter in it. */
  predicate PlainHostName(host: string)
  {
    host != "" && forall i :: 0 <= i < |host| ==> !IsHostDelimiter(host[i])
  }

  /** An https URL with a plain host parses to that host. */
  lemma HttpsHostParses(host: string)
    requires PlainHostName(host)
    ensures ParseBase("https://" + host) == Success(Url("https", host, "", ""))
  {
    assert '/' !in host && '?' !in host && '#' !in host by {
      forall i | 0 <= i < |host|
        ensures host[i] != '/' && host[i] != '?' && host[i] != '#'
      {
        assert !IsHostDelimiter(host[i]);
      }
    }
    var scheme := "https";
    assert forall j :: 0 <= j < |scheme| ==> IsSchemeChar(scheme[j]);
    ParseBaseOf(scheme, host);
    assert scheme + "://" + host == "https://" + host;
  }

  lemma ApiHostIsPlain()
    ensures PlainHostName(ApiHost)
  {
  }

  lemma ApiSandboxHostIsPlain()
    ensures PlainHostName(ApiSandboxHost)
  {
  }

  /** The data host of each environment parses to its scheme and host. */
  lemma DataBaseParses(t: TrueLayer)
    ensures ParseBase(GetBaseUrl(t)) == Success(Url("https", if t.sandbox then ApiSandboxHost else ApiHost, "", ""))
  {
    if t.sandbox {
      ApiSandboxHostIsPlain();
      HttpsHostParses(ApiSandboxHost);
    } else {
      ApiHostIsPlain();
      HttpsHostParses(ApiHost);
    }
  }

  // ---------------------------------------------------------------------
  // Requests and responses
  // ---------------------------------------------------------------------

  datatype Method = MethodGet | MethodPost

  /** An HTTP request as the client builds it. */
  datatype Request = Request(
    verb: Method,
    url: Url,
    headers: seq<(string, string)>,
    body: Option<string>)

  /** A response: its status, what its body decodes to as an
      `ErrorResponse`, and what it decodes to as the expected `T`. */
  datatype HttpResponse<T> = HttpResponse(
    status: int,
    errorBody: Decoded<ErrorResponse>,
    body: Decoded<T>)

  /** What the transport makes of a request. */
  datatype Exchange<T> = Delivered(response: HttpResponse<T>) | NotDelivered(error: GoError)

  const BearerPrefix := "Bearer "

  /** The request `doAuthorizedGetRequest` sends: a GET of the given URL
      with no body, carrying exactly the given access token. */
  function AuthorizedGetRequest(u: Url, accessToken: string): (r: Request)
    ensures r.verb == MethodGet && r.url == u && r.body == None
    ensures BearerToken(r.headers) == Some(accessToken)
  {
    var value := BearerPrefix + accessToken;
    assert value[..|BearerPrefix|] == BearerPrefix;
    assert value[|BearerPrefix|..] == accessToken;
    Request(MethodGet, u, [("Authorization", value)], None)
  }

  /** The bearer token a request carries, read back from its first
      `Authorization` header. */
  function BearerToken(headers: seq<(string, string)>): Option<string>
  {
    if |headers| == 0 then None
    else if headers[0].0 == "Authorization" then
      var value := headers[0].1;
      if |value| >= |BearerPrefix| && value[..|BearerPrefix|] == BearerPrefix
      then Some(value[|BearerPrefix|..])
      else None
    else BearerToken(headers[1..])
  }

  /** `parseErrorResponse`: the decoded error body, or the decoding error. */
  function ParseErrorResponse<T>(res: HttpResponse<T>): (err: GoError)
    ensures err.ApiError? <==> res.errorBody.Decoded?
    ensures err.ApiError? ==> err.response == res.errorBody.value
    ensures res.errorBody.Malformed? ==> err == DecodeError(res.errorBody.message)
  {
    match res.errorBody
    case Decoded(e) => ApiError(e)
    case Malformed(_, message) => DecodeError(message)
  }

  /** The decision every data call makes once the request is built: a
      transport failure is returned as is; a status of 300 or more yields the
      parsed error body; otherwise the decoded body, or the decoding error. */
  function Classify<T>(x: Exchange<T>): (r: Result<T, GoError>)
    ensures x.NotDelivered? ==> r == Failure(x.error)
    ensures x.Delivered? && x.response.status >= 300 ==> r == Failure(ParseErrorResponse(x.response))
    ensures r.Success? <==> x.Delivered? && x.response.status < 300 && x.response.body.Decoded?
    ensures r.Success? ==> r.value == x.response.body.value
    ensures x.Delivered? && x.response.status < 300 && x.response.body.Malformed? ==>
      r == Failure(DecodeError(x.response.body.message))
  {
    match x
    case NotDelivered(e) => Failure(e)
    case Delivered(res) =>
      if res.status >= 300 then Failure(ParseErrorResponse(res))
      else match res.body
        case Decoded(v) => Success(v)
        case Malformed(_, message) => Failure(DecodeError(message))
  }

  /** No status of 300 or more ever yields a result, and its error is the
      API's own error body whenever that body decodes. */
  lemma ErrorStatusNeverSucceeds<T>(x: Exchange<T>)
    requires x.Delivered? && x.response.status >= 300
    ensures Classify(x).Failure?
    ensures x.response.errorBody.Decoded? ==> Classify(x) == Failure(ApiError(x.response.errorBody.value))
    ensures x.response.errorBody.Malformed? ==> Classify(x) == Failure(DecodeError(x.response.errorBody.message))
  {
  }

  // ---------------------------------------------------------------------
  // Webhooks
  // ---------------------------------------------------------------------

  /** The notification the API posts when an asynchronous request
      completes. */
  datatype WebhookRequest = WebhookRequest(
    requestId: string,
    status: string,
    resultsUri: string,
    error: string,
    errorDescription: string)

  /** The `(*WebhookRequest, error)` pair the handlers return. */
  datatype WebhookReply = WebhookReply(request: Option<WebhookRequest>, error: Option<GoError>)

  /** An inbound HTTP request: its body, decoded as a `WebhookRequest`, or
      `None` for a nil body. */
  datatype IncomingRequest = IncomingRequest(body: Option<Decoded<WebhookRequest>>)

  const WebhookFailed := "Failed"

  /** `HandleAsyncWebhookRequestBody`: a decoding failure yields only the
      error; a decoded webhook is always returned, together with an
      `ErrorResponse` built from its own error fields exactly when its status
      is "Failed". */
  function HandleAsyncWebhookRequestBody(body: Decoded<WebhookRequest>): (r: WebhookReply)
    ensures body.Malformed? ==> r == WebhookReply(None, Some(DecodeError(body.message)))
    ensures body.Decoded? ==> r.request == Some(body.value)
    ensures body.Decoded? ==> (r.error.Some? <==> body.value.status == WebhookFailed)
    ensures body.Decoded? && r.error.Some? ==>
      r.error.value == ApiError(ErrorResponse(body.value.error, body.value.errorDescription, map[]))
  {
    match body
    case Malformed(_, message) => WebhookReply(None, Some(DecodeError(message)))
    case Decoded(req) =>
      if req.status == WebhookFailed then
        WebhookReply(Some(req), Some(ApiError(ErrorResponse(req.error, req.errorDescription, map[]))))
      else WebhookReply(Some(req), None)
  }

  /** A failed webhook reports the same kind of error, with the same text, as
      an API call answered with that error body. */
  lemma FailedWebhookText(req: WebhookRequest)
    requires req.status == WebhookFailed
    ensures HandleAsyncWebhookRequestBody(Decoded(req)).error.Some?
    ensures ErrorText(HandleAsyncWebhookRequestBody(Decoded(req)).error.value)
      == req.error + ": " + req.errorDescription
  {
  }

  /** `HandleAsyncWebhookRequest` as written: a nil body is an error, and any
      other request yields neither a webhook nor an error. */
  function HandleAsyncWebhookRequestAsWritten(req: IncomingRequest): (r: WebhookReply)
    ensures req.body.None? ==> r == WebhookReply(None, Some(Str(ErrRequestBodyNil)))
    ensures req.body.Some? ==> r.request.None? && r.error.None?
  {
    if req.body.None? then WebhookReply(None, Some(Str(ErrRequestBodyNil)))
    else WebhookReply(None, None)
  }

  /** `HandleAsyncWebhookRequest` as documented: a nil body is an error, and
      any other body is handed to `HandleAsyncWebhookRequestBody`. */
  function HandleAsyncWebhookRequest(req: IncomingRequest): (r: WebhookReply)
    ensures req.body.None? ==> r == WebhookReply(None, Some(Str(ErrRequestBodyNil)))
    ensures req.body.Some? ==> r == HandleAsyncWebhookRequestBody(req.body.value)
  {
    match req.body
    case None => WebhookReply(None, Some(Str(ErrRequestBodyNil)))
    case Some(body) => HandleAsyncWebhookRequestBody(body)
  }

  /** The corrected handler always answers with a webhook or an error, as its
      documentation promises. */
  lemma WebhookHandlerAnswers(req: IncomingRequest)
    ensures HandleAsyncWebhookRequest(req).request.Some? || HandleAsyncWebhookRequest(req).error.Some?
  {
  }

  /** The handler as written drops a well-formed webhook: the request below
      decodes, yet neither it nor an error comes back. */
  lemma WebhookAsWrittenDropsBody()
    ensures
      var w := WebhookRequest("task-1", "Succeeded", "https://api.truelayer.com/data/v1/results/task-1", "", "");
      var req := IncomingRequest(Some(Decoded(w)));
      && HandleAsyncWebhookRequestAsWritten(req) == WebhookReply(None, None)
      && HandleAsyncWebhookRequest(req) == WebhookReply(Some(w), None)
  {
  }
}
