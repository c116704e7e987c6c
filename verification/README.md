# truelayer-go, modelled in Dafny

A model of the TrueLayer API client written in Go (`package truelayer`). It covers four parts:

- **Authorization.** The link a user follows to grant access, and the two token requests (authorization code and refresh token) posted to the authorization host.
- **Data API.** The calls that list accounts, balances, transactions, pending transactions, standing orders and direct debits.
- **Shared plumbing.** Base URLs per environment, `buildURL`, the authorized GET, and the way every call turns an HTTP answer into a result or an error.
- **Errors.** The `StrError` and `ErrorResponse` types, and the asynchronous webhook handlers.

## Modules

| file | module | what it holds |
|---|---|---|
| `wrappers.dfy` | `Wrappers` | `Option` and `Result` |
| `text.dfy` | `Text` | Go's string order (what `sort.Strings` uses), `strings.Join`, splitting, `strings.Cut`, and `fmt.Sprintf` with one `%s` |
| `query.dfy` | `Query` | `url.Values` and its `Add` and `Encode`; `url.QueryEscape` and `URL.EscapedPath` over the UTF-8 bytes; reference decoders for the round trips |
| `errors.dfy` | `Errors` | `StrError`, `ErrorResponse`, how `encoding/json` writes it and reads it back member by member; every error a call can return |
| `client.dfy` | `Client` | the client value, base URLs, `url.Parse`, `buildURL`, `URL.String`, requests, the answer classification, webhooks |
| `auth.dfy` | `Auth` | the authentication link, the token forms and the token requests |
| `accounts.dfy` | `Accounts` | the records, the endpoint templates, and the Data API calls |
| `link_examples.dfy` | `LinkExamples` | the three authentication links the client's tests expect, derived from the model |

### How Go's runtime is represented

- **Transport.** The HTTP client is a parameter `send: Request -> Exchange<T>`. An `Exchange` is either a delivered response or a transport error.
- **Responses.** A response carries its status and what its body decodes to. It holds two decodings: one as an `ErrorResponse`, one as the type the call expects. Either decoding may fail with a message and the partly filled value.
- **`parseErrorResponse` and the decoders.** Both read from this view of the response.
- **Strings.** Go strings are byte strings. Here a string is a sequence of Unicode scalar values. Escaping works on their UTF-8 encoding, and comparing code points orders strings exactly as Go's byte-wise `<` does.

## Model

| member | source | states |
|---|---|---|
| Errors.StrErrorText | truelayer/errors.go:5-9 | `Error()` of a `StrError` is its string unchanged: wrapping the result gives back the error |
| Errors.ResponseText | truelayer/errors.go:23-25 | the text is the message, then `": "`, then the description, each at its own position |
| Errors.DetailsNotInText | truelayer/errors.go:13-25 | replacing `ErrorDetails` never changes the text |
| Errors.ResponseTextSplits | truelayer/errors.go:23-25 | when the message holds no colon, cutting the text at its first colon gives back the message and the space-prefixed description |
| Errors.ErrorResponseJson | truelayer/errors.go:13-17 | an `ErrorResponse` is written as three members in field order, keyed `error`, `error_description` and `error_details`, the details as an object |
| Errors.KeySelectsOneField | truelayer/errors.go:13-17 | no member key selects two fields, so preferring an exact match over a case-folded one never changes which field is set |
| Errors.Member | truelayer/errors.go:13-17 | storing one member fails exactly when its key selects a field and its value is of the wrong kind; a key that selects no field changes nothing |
| Errors.Members | truelayer/errors.go:13-17 | decoding the members in document order succeeds exactly when none of them is of the wrong kind for its field |
| Errors.ErrorResponseFromJson | truelayer/errors.go:13-17 | decoding an object succeeds exactly when no member whose key matches a tag, exactly or under case folding, holds a value of the wrong kind |
| Errors.MembersKeepLastString | truelayer/errors.go:14-15 | after all members are applied front to back, the message and the description are the last string member of their tag, found searching from the end |
| Errors.DecodedStrings | truelayer/errors.go:14-15 | a decoded message or description is the last string written under its tag, or empty when there is none |
| Errors.UpperCaseKeyDecodes | truelayer/errors.go:14 | the key `ERROR` sets the message |
| Errors.FoldedKeyMisfit | truelayer/errors.go:14 | a value of the wrong kind under the key `Error` fails the decode |
| Errors.ErrorResponseJsonRoundTrip | truelayer/errors.go:13-17 | writing an `ErrorResponse` and reading it back gives the same value |
| Errors.ErrorText | truelayer/errors.go:5-25 | an API error's text is its `ErrorResponse` text and a `StrError`'s is its string |
| Client.NewWithHttpClient | truelayer/client.go:59-66 | the client ID, secret, sandbox flag and HTTP client are stored unchanged |
| Client.New | truelayer/client.go:43-45 | the same with the default HTTP client |
| Client.GetBaseUrl | truelayer/client.go:137-143 | the data base URL is the sandbox one exactly when the sandbox flag is set, and the production one exactly when it is not |
| Client.ParseBase | truelayer/client.go:103 | a parsed base has a scheme and a host, no path and no query, and is written back as the text it was parsed from |
| Client.ParseBaseOf | truelayer/client.go:103 | `scheme://host` parses into that scheme and host when the host holds no `/`, `?` or `#` |
| Client.BuildUrl | truelayer/client.go:102-112 | a parse error is returned as is; otherwise scheme, host and query of the base are kept and the path is replaced by the given one |
| Client.BuildUrlString | truelayer/client.go:102-112 | a URL built from a parsed base with a rooted path is written back as base, the path in its escaped form, then `?` and the query when there is one |
| Client.UrlStringParts | truelayer/client.go:79 | a written URL starts with `scheme://host`; cutting the rest at its first `?` gives the escaped path and the query, and the escaped path unescapes to the bytes of the path |
| Client.DataBaseParses | truelayer/client.go:18-20 | each environment's data base URL parses to `https` and that environment's API host |
| Client.AuthorizedGetRequest | truelayer/client.go:78-90 | the request is a GET to the given URL with no body, and the bearer token read back from its `Authorization` header is the access token |
| Client.ParseErrorResponse | truelayer/client.go:122-129 | the error is the decoded `ErrorResponse` exactly when the body decodes, otherwise the decoding error |
| Client.Classify | truelayer/accounts.go:114-133 | a transport error is returned first; a status of 300 or more gives the parsed error body; a result comes back exactly for a status below 300 and a decoded body, and it is that body |
| Client.ErrorStatusNeverSucceeds | truelayer/accounts.go:122-124 | no status of 300 or more yields a result; the error is the API's error body when it decodes, else the decoding error |
| Client.HandleAsyncWebhookRequestBody | truelayer/client.go:173-190 | a decoding failure gives only the error; a decoded webhook is always returned, with an `ErrorResponse` of its own error fields exactly when its status is `Failed` |
| Client.FailedWebhookText | truelayer/client.go:182-187 | a failed webhook's error text is its `Error`, `": "`, then its `ErrorDescription` |
| Client.HandleAsyncWebhookRequestAsWritten | truelayer/client.go:155-161 | a nil body gives `ErrRequestBodyNil`; any other request gives neither a webhook nor an error |
| Client.WebhookAsWrittenDropsBody | truelayer/client.go:160 | a well-formed webhook that the body handler returns is dropped by the handler as written |
| Client.HandleAsyncWebhookRequest | truelayer/client.go:144-158 | a nil body gives `ErrRequestBodyNil`; any other body is answered as `HandleAsyncWebhookRequestBody` answers it |
| Client.WebhookHandlerAnswers | truelayer/client.go:144-153 | the corrected handler always returns a webhook or an error |
| Query.Add | truelayer/auth.go:36-45 | adding appends the value to the key's list (creating the key) and leaves every other key as it was |
| Query.SortedKeys | truelayer/auth.go:47 | the keys are written each exactly once, in ascending order |
| Query.SortedUnique | truelayer/auth.go:47 | a set of keys has only one ascending listing, so the written order is fixed by the keys alone |
| Query.PairsMembership | truelayer/auth.go:47 | a key and value are written together exactly when the value is under that key |
| Query.PairsAscending | truelayer/auth.go:47 | the written pairs never go back to a smaller key |
| Query.HexDigit | truelayer/auth.go:47 | the digits are `0`-`9` then upper-case `A`-`F` |
| Query.EscapeByte | truelayer/auth.go:47 | an unreserved byte is kept, a space becomes `+`, and any other byte becomes `%` and its two upper-case hex digits |
| Query.QueryEscape | truelayer/auth.go:47 | an escaped string holds only unreserved characters, `+` and `%` |
| Query.QueryEscapeUnreserved | truelayer/auth.go:47 | a string of unreserved characters escapes to itself |
| Query.QueryEscapeLocalhost | truelayer/truelayer_test.go:19 | the redirect URI `http://localhost` escapes to `http%3A%2F%2Flocalhost` |
| Query.Encode | truelayer/auth.go:47 | the written query is empty exactly when there is no value to write |
| Query.QueryEscapeJoin | truelayer/auth.go:38-39 | escaping a space-joined list gives the escaped items joined by `+` |
| Query.NoSeparators | truelayer/auth.go:47 | an escaped key or value holds no `&` and no `=` |
| Query.UnescapeEscape | truelayer/auth.go:47 | unescaping the escaped bytes gives them back |
| Query.EncodeDecode | truelayer/auth.go:47 | decoding an encoded query gives back exactly the written key and value pairs, as bytes |
| Query.EscapedPath | truelayer/client.go:79 | an escaped path holds only the bytes a path keeps, and `%` |
| Query.EscapedPathPlain | truelayer/client.go:79 | a path of unreserved characters and `$&+,/:;=@` is written as it is |
| Query.EscapedPathRooted | truelayer/client.go:79 | an escaped rooted path still starts with `/` |
| Query.EscapedPathSpace | truelayer/client.go:79 | a space in a path is written `%20`, so `a b` becomes `a%20b` |
| Query.EscapedPathRoundTrip | truelayer/client.go:79 | unescaping an escaped path gives back the bytes of the path |
| Text.SplitJoin | truelayer/auth.go:38-39 | splitting a space-joined list on spaces gives the items back when none of them holds a space |
| Text.FormatOneSubstitutes | truelayer/accounts.go:147 | a format with one `%s` and no other `%` has the argument placed where the verb was |
| Auth.GetAuthBaseUrl | truelayer/auth.go:180-186 | the authorization base URL is the sandbox one exactly when the sandbox flag is set |
| Auth.AuthBaseParses | truelayer/auth.go:10-12 | each authorization base URL parses to `https` and its host |
| Auth.WithClientInfo | truelayer/auth.go:164-172 | `client_id` is always added, `client_secret` exactly when `withSecret` holds, and no other key changes |
| Auth.NewValuesWithClientInfo | truelayer/auth.go:151-153 | a fresh form holds `client_id` and, exactly when asked, `client_secret`, one value each |
| Auth.LinkValuesMap | truelayer/auth.go:35-45 | the link's query holds exactly `client_id`, `response_type=code`, `scope`, `providers` and `redirect_uri`, plus `response_mode=form_post` when `postCode` holds; one value each |
| Auth.LinkKeysSorted | truelayer/auth.go:47 | the link's keys in the order they are written are strictly ascending |
| Auth.LinkQueryPairs | truelayer/auth.go:35-47 | the pairs written for the link, in order, are `client_id`, `providers`, `redirect_uri`, [`response_mode`], `response_type`, `scope` with their values |
| Auth.LinkHasNoSecret | truelayer/auth.go:35 | the link's query never carries `client_secret` |
| Auth.PostCodeAddsOnlyResponseMode | truelayer/auth.go:43-45 | without `postCode` no `response_mode` is written; with it, the same pairs are written with `response_mode=form_post` inserted after `redirect_uri` |
| Auth.JoinedValueEncodes | truelayer/auth.go:38-39 | a space-joined value such as `scope` or `providers` is written as its escaped items separated by `+` |
| Auth.LinkEncodes | truelayer/auth.go:47 | the encoded link query is the written pairs, form-encoded and joined by `&` |
| Auth.GetAuthenticationLinkAsWritten | truelayer/auth.go:28-50 | the link as written is built for every client and every argument, starts with the authorization base URL and has `?` right after it |
| Auth.GetAuthenticationLink | truelayer/auth.go:28-50 | the corrected link is built for every client and every argument, starts with the authorization base URL and has `/` right after it |
| Auth.LinkShapeAsWritten | truelayer/auth.go:28-50 | the link as written is the authorization base URL, `?`, then the encoded query |
| Auth.LinkShape | truelayer/truelayer_test.go:19-47 | the corrected link is the authorization base URL of the environment, then `/?`, then the encoded query |
| Auth.LinkAsWrittenLacksRoot | truelayer/auth.go:29 | the link as written never equals the corrected link, for any input |
| Auth.AccessTokenBodyFields | truelayer/auth.go:61-68 | the authorization-code form is exactly `client_id`, `client_secret`, `grant_type=authorization_code`, `redirect_uri` and `code`, one value each |
| Auth.RefreshTokenBodyFields | truelayer/auth.go:79-85 | the refresh form is exactly `client_id`, `client_secret`, `grant_type=refresh_token` and `refresh_token`, one value each |
| Auth.TokenRequestShape | truelayer/auth.go:96-141 | the token request is always built: a POST to the authorization host's `/connect/token` with the form content type and the encoded form, which decodes back to the form's pairs |
| Auth.AuthDoTokenRequest | truelayer/auth.go:96-117 | no token and the error for a transport error or a status of 300 or more; a token exactly for a status below 300; the partly decoded token together with the decoding error when the body is malformed |
| Auth.TokenCallSends | truelayer/auth.go:96-117 | a token call sends exactly the form to the token endpoint and answers with what comes back |
| Auth.GetAccessToken | truelayer/auth.go:61-68 | `GetAccessToken` posts the authorization-code form to the token endpoint and answers with what comes back |
| Auth.RefreshAccessToken | truelayer/auth.go:79-85 | `RefreshAccessToken` posts the refresh form to the token endpoint and answers with what comes back |
| Accounts.TemplateParts | truelayer/accounts.go:13-18 | every per-account template is `/data/v1/accounts/`, the `%s` verb, then the endpoint's suffix |
| Accounts.EndpointPathSubstitutes | truelayer/accounts.go:13-18 | each endpoint path is `/data/v1/accounts/`, the account ID verbatim, then the endpoint's suffix, and is rooted |
| Accounts.EndpointPathParts | truelayer/accounts.go:13-18 | the account ID can be read back from the path at a fixed position |
| Accounts.EndpointPathInjective | truelayer/accounts.go:13-18 | for IDs without `/`, two paths are equal only for the same endpoint and the same ID |
| Accounts.IdWithSlashAliasesBalance | truelayer/accounts.go:147 | the ID is not escaped: the account path of an ID ending in `/balance` is another ID's balance path |
| Accounts.Fetch | truelayer/accounts.go:108-124 | a URL error is returned before anything is sent; otherwise the answer to the authorized GET is classified |
| Accounts.FetchSends | truelayer/accounts.go:108-118 | the URL is always built: one authorized GET to the environment's data host with the escaped path appended |
| Accounts.EscapedEndpointPath | truelayer/accounts.go:147 | only the account ID of an endpoint path is changed by escaping |
| Accounts.AccountUrlString | truelayer/accounts.go:147-153 | a per-account URL is the data host, `/data/v1/accounts/`, the escaped ID, then the endpoint's suffix; an ID of characters a path keeps appears verbatim |
| Accounts.AccountFetchSends | truelayer/accounts.go:147-153 | a per-account call sends one authorized GET of that URL and classifies the answer |
| Accounts.ListOf | truelayer/accounts.go:129-133 | a list call succeeds exactly when the answer decodes, and then returns its `Results` unchanged |
| Accounts.FirstOf | truelayer/accounts.go:168-172 | a single-record call succeeds exactly when the answer decodes to a non-empty list, returns its first element, and fails with an index error on an empty list |
| Accounts.FirstIsHeadOfList | truelayer/accounts.go:165-172 | a single-record call answers with the head of the list a list call would return for the same answer |
| Accounts.ListCallAnswers | truelayer/accounts.go:107-134 | a transport error as it is; the parsed error body for a status of 300 or more; the decoded list unchanged exactly when the status is below 300 and the body decodes |
| Accounts.GetAccounts | truelayer/accounts.go:107-134 | the accounts call is the list answer to one authorized GET of `/data/v1/accounts` |
| Accounts.GetAccount | truelayer/accounts.go:146-173 | the account call is the first element of the answer to one authorized GET of the account's path |
| Accounts.GetAccountBalance | truelayer/accounts.go:185-212 | the balance call is the first element of the answer to one authorized GET of the balance path |
| Accounts.GetAccountTransactions | truelayer/accounts.go:224-232 | the transactions call is the list answer to one authorized GET of the transactions path |
| Accounts.GetAccountPendingTransactions | truelayer/accounts.go:245-253 | the pending-transactions call is the list answer to one authorized GET of the pending-transactions path |
| Accounts.TransactionsAt | truelayer/accounts.go:267-288 | a transport error as it is; the parsed error body for a status of 300 or more; the decoded list unchanged exactly when the status is below 300 and the body decodes |
| Accounts.TransactionCallsDifferOnlyInPath | truelayer/accounts.go:224-288 | both transaction calls are the shared list fetch, each of its own endpoint |
| Accounts.GetAccountDirectDebits | truelayer/accounts.go:343-370 | the direct-debits call is the list answer to one authorized GET of the direct-debits path |
| Accounts.Drained | truelayer/accounts.go:316 | a body read to the end keeps its status, and both of its decodings fail with `EOF` |
| Accounts.GetAccountStandingOrdersAsWritten | truelayer/accounts.go:301-331 | the standing-orders call as written never succeeds, and every delivered answer ends in the `EOF` decoding error |
| Accounts.StandingOrdersAsWrittenLosesOrders | truelayer/accounts.go:316-330 | for a successful answer with orders, the corrected call returns them and the call as written returns the `EOF` error |
| Accounts.GetAccountStandingOrders | truelayer/accounts.go:301-331 | the corrected standing-orders call is the list answer to one authorized GET of the standing-orders path |
| LinkExamples.SandboxLinkTest | truelayer/truelayer_test.go:18-30 | the corrected link for a sandbox client, Monzo, `balance` and `http://localhost` is exactly the link the test expects |
| LinkExamples.LiveLinkTest | truelayer/truelayer_test.go:32-44 | the same for a live client |
| LinkExamples.PostCodeLinkTest | truelayer/truelayer_test.go:46-58 | for a live client, Monzo and MBNA, `balance`, `http://localhost` and `postCode`, the corrected link is exactly the link the test expects, providers joined by `+` and `response_mode=form_post` in place |

## Left out

- Networking, TLS and the `http.Client` are left out. The transport is the `send` parameter, and a call's answer is whatever `send` returns.
- JSON decoding of the records is left out. A response carries its decoded views directly, and only `ErrorResponse` has its JSON shape modelled.
- Floating-point and time fields are opaque. `float64` fields are kept as bit patterns and `time.Time` fields as their text, because the client only passes them on.
- `res.Body.Close` and `defer` are left out: closing a body changes no result.
- `log.Println` of the standing-orders body is left out: it is output only.
- `redirURI.String()` is not modelled: the redirect URI is taken as the string it writes.
- `URL.String` is modelled for the URLs the client builds: scheme, host, path and query. User info, fragments, opaque URLs and a `RawPath` differing from the escaped path never arise and are left out.
- Client.UrlStringParts: stated only for paths that are empty or start with `/`, the only paths the client builds; Go also writes a `/` before any other non-empty path.
- Errors.ErrorResponseJson: `json.Marshal` writes a nil `ErrorDetails` as `null` and an empty one as `{}`. The model has no nil map and always writes an object; reading either back gives an empty map.
- Errors.JsonValue: the members of an `error_details` object are taken as a map of strings. A duplicate key or a non-string value inside it is not represented, and numbers, booleans and arrays are one kind, `JsonOther`.
- `url.Parse` is modelled only for bases of the form `scheme://host`, which is the only form the client passes. `ParseBase` rejects anything else with a `UrlError`.
- A `Results[0]` panic on an empty list is a runtime panic in Go. Here it is the error value `IndexOutOfRange`.
- `EndpointDataV1Results` is not modelled: it is declared in `client.go`, but no call in the client uses it.
- `truelayer.go`, `response.go`, `permissions.go`, `providers/uk.go` and `examples/main.go` are not part of this model. They hold an earlier version of the same client, repeated type declarations, permission and provider names, and a usage example.
- Query.QueryEscape: the escaped text is modelled for strings of Unicode scalar values only. Go strings holding invalid UTF-8 are not represented.
- The declarations of `WebhookRequest` and of the `Results` envelopes (`AccountsResponse` and the others) are not part of this model. `WebhookRequest` has the fields the handlers read (`Status`, `Error`, `ErrorDescription`) plus a task ID and a results URI. Each envelope is `Results<T>`, one list of records.
- Accounts.EndpointPathInjective: holds only for account IDs without `/`. `Accounts.IdWithSlashAliasesBalance` shows why.

## Findings

| source | as written | input that shows it | evidently intended | confidence | as-written member | corrected member |
|---|---|---|---|---|---|---|
| truelayer/auth.go:29 | the link's URL is built with an empty path, and `URL.String` writes nothing for an empty path, so the query follows the host directly (`https://auth.truelayer.com?client_id=…`) | any client and arguments; the tests at truelayer/truelayer_test.go:19, 33 and 47 expect `https://auth.truelayer.com/?client_id=…` | the root path `/` before the query | not executed | Auth.LinkAsWrittenLacksRoot | Auth.LinkShape |
| truelayer/accounts.go:316 | `io.ReadAll` empties the body before the status check, so both `parseErrorResponse` and the decoder read an empty body and return `EOF` | any delivered answer, for example status 200 with a list of standing orders | the body is decoded as in the other calls, giving the orders or the parsed error | not executed | Accounts.StandingOrdersAsWrittenLosesOrders | Accounts.GetAccountStandingOrders |
| truelayer/client.go:160 | a request with a body returns neither a webhook nor an error | a request whose body decodes to a webhook with status `Succeeded` | the body is handed to `HandleAsyncWebhookRequestBody`, as the documentation promises a webhook or an error | not executed | Client.WebhookAsWrittenDropsBody | Client.HandleAsyncWebhookRequest |
