/** The Data API calls: the account records, the endpoint paths with the
    account ID substituted, and the fetch every call shares (build the URL
    on the data host, send an authorized GET, classify the answer). */
module Accounts {
  import opened Wrappers
  import opened Text
  import opened Errors
  import opened Client
  import opened Query

  // ---------------------------------------------------------------------
  // Records
  // ---------------------------------------------------------------------

  /** A `float64` field, kept as its IEEE 754 bit pattern: the client only
      decodes and hands these values on, it never computes with them. */
  datatype Float64 = Float64(bits: bv64)

  /** A `time.Time` field, kept as the RFC 3339 text it was decoded from. */
  datatype Time = Time(rfc3339: string)

  datatype AccountNumber = AccountNumber(iban: string, number: string, sortCode: string, swiftBic: string)

  datatype Account = Account(
    updateTimestamp: Time,
    accountId: string,
    accountType: string,
    displayName: string,
    currency: string,
    accountNumber: AccountNumber,
    providerId: string)

  datatype Balance = Balance(
    currency: string,
    available: Float64,
    current: Float64,
    overdraft: Float64,
    updateTimestamp: Time)

  datatype RunningBalance = RunningBalance(amount: Float64, currency: string)

  datatype TransactionMeta = TransactionMeta(bankTransactionId: string, providerTransactionCategory: string)

  datatype Transaction = Transaction(
    transactionId: string,
    normalisedProviderTransactionId: string,
    providerTransactionId: string,
    timestamp: string,
    description: string,
    amount: Float64,
    currency: string,
    transactionType: string,
    transactionCategory: string,
    transactionClassification: seq<string>,
    merchantName: string,
    runningBalance: RunningBalance,
    meta: TransactionMeta)

  datatype StandingOrder = StandingOrder(
    frequency: string,
    status: string,
    timestamp: Time,
    currency: string,
    providerAccountId: string,
    nextPaymentDate: Time,
    nextPaymentAmount: Float64,
    firstPaymentDate: Time,
    firstPaymentAmount: Float64,
    finalPaymentDate: Time,
    finalPaymentAmount: Float64,
    reference: string,
    payee: string)

  datatype DirectDebitMeta = DirectDebitMeta(providerMandateIdentification: string, providerAccountId: string)

  datatype DirectDebit = DirectDebit(
    directDebitId: string,
    timestamp: Time,
    name: string,
    status: string,
    previousPaymentTimestamp: Time,
    previousPaymentAmount: int,
    currency: string,
    meta: DirectDebitMeta)

  /** The envelope every Data API answer comes in: one list of records. */
  datatype Results<T> = Results(results: seq<T>)

  // ---------------------------------------------------------------------
  // Endpoints
  // ---------------------------------------------------------------------

  const EndpointDataV1Accounts := "/data/v1/accounts"

  /** Everything before the account ID in the per-account endpoints. */
  const AccountPrefix := EndpointDataV1Accounts + "/"

  /** The per-account endpoints. */
  datatype Endpoint =
    | AccountEndpoint
    | BalanceEndpoint
    | TransactionsEndpoint
    | PendingTransactionsEndpoint
    | StandingOrdersEndpoint
    | DirectDebitsEndpoint

  /** What follows the account ID in each endpoint. */
  function Suffix(e: Endpoint): string
  {
    match e
    case AccountEndpoint => ""
    case BalanceEndpoint => "/balance"
    case TransactionsEndpoint => "/transactions"
    case PendingTransactionsEndpoint => "/pending-transactions"
    case StandingOrdersEndpoint => "/standing-orders"
    case DirectDebitsEndpoint => "/direct-debits"
  }

  const EndpointDataV1Account := "/data/v1/accounts/%s"
  const EndpointDataV1AccountBalance := "/data/v1/accounts/%s/balance"
  const EndpointDataV1AccountTransactions := "/data/v1/accounts/%s/transactions"
  const EndpointDataV1AccountPendingTransactions := "/data/v1/accounts/%s/pending-transactions"
  const EndpointDataV1AccountStandingOrders := "/data/v1/accounts/%s/standing-orders"
  const EndpointDataV1AccountDirectDebits := "/data/v1/accounts/%s/direct-debits"

  /** The `fmt` template of each endpoint, with `%s` where the ID goes. */
  function Template(e: Endpoint): string
  {
    match e
    case AccountEndpoint => EndpointDataV1Account
    case BalanceEndpoint => EndpointDataV1AccountBalance
    case TransactionsEndpoint => EndpointDataV1AccountTransactions
    case PendingTransactionsEndpoint => EndpointDataV1AccountPendingTransactions
    case StandingOrdersEndpoint => EndpointDataV1AccountStandingOrders
    case DirectDebitsEndpoint => EndpointDataV1AccountDirectDebits
  }

  lemma AccountTemplateParts()
    ensures EndpointDataV1Account == AccountPrefix + "%s"
  {
  }

  lemma BalanceTemplateParts()
    ensures EndpointDataV1AccountBalance == EndpointDataV1Account + "/balance"
  {
  }

  lemma TransactionsTemplateParts()
    ensures EndpointDataV1AccountTransactions == EndpointDataV1Account + "/transactions"
  {
  }

  lemma PendingTransactionsTemplateParts()
    ensures EndpointDataV1AccountPendingTransactions == EndpointDataV1Account + "/pending-transactions"
  {
  }

  lemma StandingOrdersTemplateParts()
    ensures EndpointDataV1AccountStandingOrders == EndpointDataV1Account + "/standing-orders"
  {
  }

  lemma DirectDebitsTemplateParts()
    ensures EndpointDataV1AccountDirectDebits == EndpointDataV1Account + "/direct-debits"
  {
  }

  /** Every template is the accounts prefix, one `%s` verb, and the
      endpoint's suffix. */
  lemma TemplateParts(e: Endpoint)
    ensures Template(e) == AccountPrefix + "%s" + Suffix(e)
  {
    AccountTemplateParts();
    match e
    case AccountEndpoint =>
    case BalanceEndpoint => BalanceTemplateParts();
    case TransactionsEndpoint => TransactionsTemplateParts();
    case PendingTransactionsEndpoint => PendingTransactionsTemplateParts();
    case StandingOrdersEndpoint => StandingOrdersTemplateParts();
    case DirectDebitsEndpoint => DirectDebitsTemplateParts();
  }

  /** `fmt.Sprintf(template, accountID)`. */
  function EndpointPath(e: Endpoint, accountId: string): string
  {
    FormatOne(Template(e), accountId)
  }

  lemma PrefixHasNoVerb()
    ensures '%' !in AccountPrefix
    ensures |AccountPrefix| > 0 && AccountPrefix[0] == '/'
  {
  }

  /** The ID is substituted verbatim between the prefix and the endpoint's
      suffix, so every path is rooted. */
  lemma EndpointPathSubstitutes(e: Endpoint, accountId: string)
    ensures EndpointPath(e, accountId) == AccountPrefix + accountId + Suffix(e)
    ensures EndpointPath(e, accountId)[0] == '/'
  {
    PrefixHasNoVerb();
    TemplateParts(e);
    FormatOneSubstitutes(AccountPrefix, Suffix(e), accountId);
  }

  /** The suffixes all have different lengths. */
  lemma SuffixLengthsDiffer(e1: Endpoint, e2: Endpoint)
    requires e1 != e2
    ensures |Suffix(e1)| != |Suffix(e2)|
  {
  }

  /** The account ID and the endpoint can be read back from a path. */
  lemma EndpointPathParts(e: Endpoint, accountId: string)
    ensures |EndpointPath(e, accountId)| == |AccountPrefix| + |accountId| + |Suffix(e)|
    ensures EndpointPath(e, accountId)[|AccountPrefix|..|AccountPrefix| + |accountId|] == accountId
  {
    EndpointPathSubstitutes(e, accountId);
    var p := AccountPrefix + accountId + Suffix(e);
    assert p[|AccountPrefix|..|AccountPrefix| + |accountId|] == accountId;
  }

  lemma SuffixRooted(e: Endpoint)
    ensures Suffix(e) == "" || Suffix(e)[0] == '/'
  {
  }

  /** A path holds no other account's path, as long as IDs hold no `/`: a
      shorter ID would put its suffix's leading `/` inside the longer one. */
  lemma PathsOfPlainIdsDiffer(id1: string, s1: string, id2: string, s2: string)
    requires '/' !in id1 && '/' !in id2
    requires s1 == "" || s1[0] == '/'
    requires |id1| < |id2|
    ensures AccountPrefix + id1 + s1 != AccountPrefix + id2 + s2
  {
    var p1 := AccountPrefix + id1 + s1;
    var p2 := AccountPrefix + id2 + s2;
    var k := |AccountPrefix| + |id1|;
    if s1 == "" {
      assert |p1| == k < |p2|;
    } else {
      assert p1[k] == s1[0] == '/';
      assert p2[k] == id2[|id1|];
    }
  }

  /** For IDs without `/`, different accounts or different endpoints never
      share a path. */
  lemma EndpointPathInjective(e1: Endpoint, id1: string, e2: Endpoint, id2: string)
    requires '/' !in id1 && '/' !in id2
    requires EndpointPath(e1, id1) == EndpointPath(e2, id2)
    ensures e1 == e2 && id1 == id2
  {
    EndpointPathSubstitutes(e1, id1);
    EndpointPathSubstitutes(e2, id2);
    SuffixRooted(e1);
    SuffixRooted(e2);
    if |id1| < |id2| {
      PathsOfPlainIdsDiffer(id1, Suffix(e1), id2, Suffix(e2));
    } else if |id2| < |id1| {
      PathsOfPlainIdsDiffer(id2, Suffix(e2), id1, Suffix(e1));
    } else {
      EndpointPathParts(e1, id1);
      EndpointPathParts(e2, id2);
      if e1 != e2 {
        SuffixLengthsDiffer(e1, e2);
      }
    }
  }

  /** The ID is not escaped: an ID ending in `/balance` names the balance
      endpoint of a shorter ID. */
  lemma IdWithSlashAliasesBalance(accountId: string)
    ensures EndpointPath(AccountEndpoint, accountId + "/balance") == EndpointPath(BalanceEndpoint, accountId)
  {
    EndpointPathSubstitutes(AccountEndpoint, accountId + "/balance");
    EndpointPathSubstitutes(BalanceEndpoint, accountId);
    assert AccountPrefix + (accountId + "/balance") + "" == AccountPrefix + accountId + "/balance";
  }

  // ---------------------------------------------------------------------
  // The shared fetch
  // ---------------------------------------------------------------------

  /** The data-host URL of a path. */
  function DataUrl(t: TrueLayer, path: string): Url
  {
    Url("https", if t.sandbox then ApiSandboxHost else ApiHost, path, "")
  }

  /** What every Data API call does with its path: build the URL on the data
      host (returning a parse error at once), send the authorized GET
      through `send`, and classify the answer. */
  function Fetch<T>(t: TrueLayer, path: string, accessToken: string, send: Request -> Exchange<T>): (r: Result<T, GoError>)
    ensures BuildUrl(GetBaseUrl(t), path).Failure? ==> r == Failure(BuildUrl(GetBaseUrl(t), path).error)
    ensures BuildUrl(GetBaseUrl(t), path).Success? ==>
      r == Classify(send(AuthorizedGetRequest(BuildUrl(GetBaseUrl(t), path).value, accessToken)))
  {
    match BuildUrl(GetBaseUrl(t), path)
    case Failure(e) => Failure(e)
    case Success(u) => Classify(send(AuthorizedGetRequest(u, accessToken)))
  }

  /** The URL is always built: each call sends one authorized GET to the
      data host of its environment with the path appended, written in its
      escaped form. */
  lemma FetchSends<T>(t: TrueLayer, path: string, accessToken: string, send: Request -> Exchange<T>)
    requires path == "" || path[0] == '/'
    ensures BuildUrl(GetBaseUrl(t), path) == Success(DataUrl(t, path))
    ensures Fetch(t, path, accessToken, send) == Classify(send(AuthorizedGetRequest(DataUrl(t, path), accessToken)))
    ensures UrlString(DataUrl(t, path)) == GetBaseUrl(t) + EscapedPath(path)
  {
    DataUrlBuilt(t, path);
  }

  lemma DataUrlBuilt(t: TrueLayer, path: string)
    requires path == "" || path[0] == '/'
    ensures BuildUrl(GetBaseUrl(t), path) == Success(DataUrl(t, path))
    ensures UrlString(DataUrl(t, path)) == GetBaseUrl(t) + EscapedPath(path)
  {
    DataBaseParses(t);
    BuildUrlString(GetBaseUrl(t), path, "");
    assert GetBaseUrl(t) + EscapedPath(path) + "" == GetBaseUrl(t) + EscapedPath(path);
  }

  /** The fixed parts of an account path are written as they are. */
  lemma AccountPathParts(e: Endpoint)
    ensures EscapePath(AccountPrefix) == AccountPrefix
    ensures EscapePath(Suffix(e)) == Suffix(e)
  {
    PrefixIsPlain();
    SuffixIsPlain(e);
    EscapePathPlain(AccountPrefix);
    EscapePathPlain(Suffix(e));
  }

  lemma PrefixIsPlain()
    ensures PlainPath(AccountPrefix)
  {
  }

  lemma SuffixIsPlain(e: Endpoint)
    ensures PlainPath(Suffix(e))
  {
  }

  /** A path with the account ID in it is written with only the ID
      escaped. */
  lemma EscapedEndpointPath(e: Endpoint, accountId: string)
    ensures EscapedPath(EndpointPath(e, accountId)) == AccountPrefix + EscapePath(accountId) + Suffix(e)
  {
    EndpointPathSubstitutes(e, accountId);
    var p := AccountPrefix + accountId + Suffix(e);
    assert p != "*" by {
      PrefixHasNoVerb();
      assert p[0] == '/';
    }
    EscapePathAppend(AccountPrefix, accountId);
    EscapePathAppend(AccountPrefix + accountId, Suffix(e));
    AccountPathParts(e);
  }

  /** A per-account call goes to the data host with the escaped ID placed
      between the prefix and the endpoint's suffix; an ID of characters a
      path keeps appears as it is. */
  lemma AccountFetchSends<T>(t: TrueLayer, e: Endpoint, accountId: string, accessToken: string, send: Request -> Exchange<T>)
    ensures Fetch(t, EndpointPath(e, accountId), accessToken, send)
         == Classify(send(AuthorizedGetRequest(DataUrl(t, EndpointPath(e, accountId)), accessToken)))
    ensures UrlString(DataUrl(t, EndpointPath(e, accountId)))
         == GetBaseUrl(t) + AccountPrefix + EscapePath(accountId) + Suffix(e)
    ensures PlainPath(accountId) ==>
      UrlString(DataUrl(t, EndpointPath(e, accountId))) == GetBaseUrl(t) + AccountPrefix + accountId + Suffix(e)
  {
    EndpointPathSubstitutes(e, accountId);
    FetchSends(t, EndpointPath(e, accountId), accessToken, send);
    AccountUrlString(t, e, accountId);
  }

  lemma AccountUrlString(t: TrueLayer, e: Endpoint, accountId: string)
    ensures UrlString(DataUrl(t, EndpointPath(e, accountId)))
         == GetBaseUrl(t) + AccountPrefix + EscapePath(accountId) + Suffix(e)
    ensures PlainPath(accountId) ==>
      UrlString(DataUrl(t, EndpointPath(e, accountId))) == GetBaseUrl(t) + AccountPrefix + accountId + Suffix(e)
  {
    if PlainPath(accountId) {
      EscapePathPlain(accountId);
    }
    var path := EndpointPath(e, accountId);
    EndpointPathSubstitutes(e, accountId);
    EscapedEndpointPath(e, accountId);
    var p, x, sfx := AccountPrefix, EscapePath(accountId), Suffix(e);
    DataUrlOf(t, path, p + x + sfx);
    Regroup(GetBaseUrl(t), p, x, sfx);
  }

  lemma Regroup(a: string, b: string, c: string, d: string)
    ensures a + (b + c + d) == a + b + c + d
  {
  }

  lemma DataUrlOf(t: TrueLayer, path: string, escaped: string)
    requires path == "" || path[0] == '/'
    requires EscapedPath(path) == escaped
    ensures UrlString(DataUrl(t, path)) == GetBaseUrl(t) + escaped
  {
    DataUrlBuilt(t, path);
  }

  // ---------------------------------------------------------------------
  // Unwrapping the envelope
  // ---------------------------------------------------------------------

  /** A list call: the decoded `Results`, handed back unchanged. */
  function ListOf<T>(x: Result<Results<T>, GoError>): (r: Result<seq<T>, GoError>)
    ensures r.Success? <==> x.Success?
    ensures r.Success? ==> r.value == x.value.results
    ensures x.Failure? ==> r.error == x.error
  {
    match x
    case Failure(e) => Failure(e)
    case Success(envelope) => Success(envelope.results)
  }

  /** A single-record call: `Results[0]`, where an empty list is Go's index
      panic. */
  function FirstOf<T>(x: Result<Results<T>, GoError>): (r: Result<T, GoError>)
    ensures r.Success? <==> x.Success? && |x.value.results| > 0
    ensures r.Success? ==> r.value == x.value.results[0]
    ensures x.Success? && |x.value.results| == 0 ==> r == Failure(IndexOutOfRange)
    ensures x.Failure? ==> r.error == x.error
  {
    match x
    case Failure(e) => Failure(e)
    case Success(envelope) =>
      if |envelope.results| == 0 then Failure(IndexOutOfRange) else Success(envelope.results[0])
  }

  /** A single-record call answers with the head of the list the same
      answer would give to a list call, and fails on an empty list. */
  lemma FirstIsHeadOfList<T>(x: Result<Results<T>, GoError>)
    ensures FirstOf(x).Success? <==> ListOf(x).Success? && |ListOf(x).value| > 0
    ensures FirstOf(x).Success? ==> FirstOf(x).value == ListOf(x).value[0]
    ensures ListOf(x).Success? && ListOf(x).value == [] ==> FirstOf(x) == Failure(IndexOutOfRange)
  {
  }

  // ---------------------------------------------------------------------
  // The calls
  // ---------------------------------------------------------------------

  /** `GetAccounts`: the accounts the access token can see. */
  function GetAccounts(t: TrueLayer, accessToken: string, send: Request -> Exchange<Results<Account>>): (r: Result<seq<Account>, GoError>)
    ensures r == ListOf(Classify(send(AuthorizedGetRequest(DataUrl(t, EndpointDataV1Accounts), accessToken))))
  {
    FetchSends(t, EndpointDataV1Accounts, accessToken, send);
    ListOf(Fetch(t, EndpointDataV1Accounts, accessToken, send))
  }

  /** `GetAccount`: the first account the account endpoint lists. */
  function GetAccount(t: TrueLayer, accessToken: string, accountId: string, send: Request -> Exchange<Results<Account>>): (r: Result<Account, GoError>)
    ensures r == FirstOf(Classify(send(AuthorizedGetRequest(DataUrl(t, EndpointPath(AccountEndpoint, accountId)), accessToken))))
  {
    AccountFetchSends(t, AccountEndpoint, accountId, accessToken, send);
    FirstOf(Fetch(t, EndpointPath(AccountEndpoint, accountId), accessToken, send))
  }

  /** `GetAccountBalance`: the first balance the balance endpoint lists. */
  function GetAccountBalance(t: TrueLayer, accessToken: string, accountId: string, send: Request -> Exchange<Results<Balance>>): (r: Result<Balance, GoError>)
    ensures r == FirstOf(Classify(send(AuthorizedGetRequest(DataUrl(t, EndpointPath(BalanceEndpoint, accountId)), accessToken))))
  {
    AccountFetchSends(t, BalanceEndpoint, accountId, accessToken, send);
    FirstOf(Fetch(t, EndpointPath(BalanceEndpoint, accountId), accessToken, send))
  }

  /** `getAccountTransactions`: the shared second half of both transaction
      calls, given the URL they built. */
  function TransactionsAt(u: Url, accessToken: string, send: Request -> Exchange<Results<Transaction>>): (r: Result<seq<Transaction>, GoError>)
    ensures var x := send(AuthorizedGetRequest(u, accessToken));
      && (x.NotDelivered? ==> r == Failure(x.error))
      && (x.Delivered? && x.response.status >= 300 ==> r == Failure(ParseErrorResponse(x.response)))
      && (r.Success? <==> x.Delivered? && x.response.status < 300 && x.response.body.Decoded?)
      && (r.Success? ==> r.value == x.response.body.value.results)
  {
    ListOf(Classify(send(AuthorizedGetRequest(u, accessToken))))
  }

  /** Builds the URL of a transaction endpoint and hands it on. */
  function TransactionsOf(t: TrueLayer, e: Endpoint, accessToken: string, accountId: string, send: Request -> Exchange<Results<Transaction>>): Result<seq<Transaction>, GoError>
  {
    match BuildUrl(GetBaseUrl(t), EndpointPath(e, accountId))
    case Failure(err) => Failure(err)
    case Success(u) => TransactionsAt(u, accessToken, send)
  }

  /** `GetAccountTransactions`. */
  function GetAccountTransactions(t: TrueLayer, accessToken: string, accountId: string, send: Request -> Exchange<Results<Transaction>>): (r: Result<seq<Transaction>, GoError>)
    ensures r == ListOf(Classify(send(AuthorizedGetRequest(DataUrl(t, EndpointPath(TransactionsEndpoint, accountId)), accessToken))))
  {
    AccountFetchSends(t, TransactionsEndpoint, accountId, accessToken, send);
    TransactionsOf(t, TransactionsEndpoint, accessToken, accountId, send)
  }

  /** `GetAccountPendingTransactions`. */
  function GetAccountPendingTransactions(t: TrueLayer, accessToken: string, accountId: string, send: Request -> Exchange<Results<Transaction>>): (r: Result<seq<Transaction>, GoError>)
    ensures r == ListOf(Classify(send(AuthorizedGetRequest(DataUrl(t, EndpointPath(PendingTransactionsEndpoint, accountId)), accessToken))))
  {
    AccountFetchSends(t, PendingTransactionsEndpoint, accountId, accessToken, send);
    TransactionsOf(t, PendingTransactionsEndpoint, accessToken, accountId, send)
  }

  /** `GetAccountDirectDebits`. */
  function GetAccountDirectDebits(t: TrueLayer, accessToken: string, accountId: string, send: Request -> Exchange<Results<DirectDebit>>): (r: Result<seq<DirectDebit>, GoError>)
    ensures r == ListOf(Classify(send(AuthorizedGetRequest(DataUrl(t, EndpointPath(DirectDebitsEndpoint, accountId)), accessToken))))
  {
    AccountFetchSends(t, DirectDebitsEndpoint, accountId, accessToken, send);
    ListOf(Fetch(t, EndpointPath(DirectDebitsEndpoint, accountId), accessToken, send))
  }

  /** `GetAccountStandingOrders` with the body decoded where it arrives. */
  function GetAccountStandingOrders(t: TrueLayer, accessToken: string, accountId: string, send: Request -> Exchange<Results<StandingOrder>>): (r: Result<seq<StandingOrder>, GoError>)
    ensures r == ListOf(Classify(send(AuthorizedGetRequest(DataUrl(t, EndpointPath(StandingOrdersEndpoint, accountId)), accessToken))))
  {
    AccountFetchSends(t, StandingOrdersEndpoint, accountId, accessToken, send);
    ListOf(Fetch(t, EndpointPath(StandingOrdersEndpoint, accountId), accessToken, send))
  }

  /** The list calls and what they answer for each reply: a transport error
      as it is, the parsed error body for a status of 300 or more, and
      otherwise the decoded list unchanged. */
  lemma ListCallAnswers<T>(t: TrueLayer, path: string, accessToken: string, send: Request -> Exchange<Results<T>>)
    requires path == "" || path[0] == '/'
    ensures var x := send(AuthorizedGetRequest(DataUrl(t, path), accessToken));
      var r := ListOf(Fetch(t, path, accessToken, send));
      && (x.NotDelivered? ==> r == Failure(x.error))
      && (x.Delivered? && x.response.status >= 300 ==> r == Failure(ParseErrorResponse(x.response)))
      && (r.Success? <==> x.Delivered? && x.response.status < 300 && x.response.body.Decoded?)
      && (r.Success? ==> r.value == x.response.body.value.results)
  {
    FetchSends(t, path, accessToken, send);
  }

  /** The two transaction calls differ in their path alone: each is the
      shared fetch of its own endpoint. */
  lemma TransactionCallsDifferOnlyInPath(t: TrueLayer, accessToken: string, accountId: string, send: Request -> Exchange<Results<Transaction>>)
    ensures GetAccountTransactions(t, accessToken, accountId, send)
         == ListOf(Fetch(t, EndpointPath(TransactionsEndpoint, accountId), accessToken, send))
    ensures GetAccountPendingTransactions(t, accessToken, accountId, send)
         == ListOf(Fetch(t, EndpointPath(PendingTransactionsEndpoint, accountId), accessToken, send))
  {
  }

  // ---------------------------------------------------------------------
  // Standing orders as written
  // ---------------------------------------------------------------------

  /** The text of `io.EOF`, what decoding an exhausted body returns. */
  const EOF := "EOF"

  /** A response whose body has already been read to the end: both decodes
      find nothing and fail with `io.EOF`. */
  function Drained<T>(res: HttpResponse<T>, empty: T): (d: HttpResponse<T>)
    ensures d.status == res.status
    ensures d.errorBody.Malformed? && d.errorBody.message == EOF
    ensures d.body.Malformed? && d.body.message == EOF
  {
    HttpResponse(res.status, Malformed(ErrorResponse("", "", map[]), EOF), Malformed(empty, EOF))
  }

  /** `GetAccountStandingOrders` as written: the body is read out for
      logging before the status check, so the error parse and the decode
      that follow both see an empty body. */
  function GetAccountStandingOrdersAsWritten(t: TrueLayer, accessToken: string, accountId: string, send: Request -> Exchange<Results<StandingOrder>>): (r: Result<seq<StandingOrder>, GoError>)
    ensures r.Failure?
    ensures send(AuthorizedGetRequest(DataUrl(t, EndpointPath(StandingOrdersEndpoint, accountId)), accessToken)).Delivered? ==>
      r == Failure(DecodeError(EOF))
  {
    EndpointPathSubstitutes(StandingOrdersEndpoint, accountId);
    DataUrlBuilt(t, EndpointPath(StandingOrdersEndpoint, accountId));
    match BuildUrl(GetBaseUrl(t), EndpointPath(StandingOrdersEndpoint, accountId))
    case Failure(err) => Failure(err)
    case Success(u) =>
      match send(AuthorizedGetRequest(u, accessToken))
      case NotDelivered(err) => Failure(err)
      case Delivered(res) => ListOf(Classify(Delivered(Drained(res, Results([])))))
  }

  /** Classifying a drained response always gives the `EOF` error. */
  lemma DrainedFailsWithEof(res: HttpResponse<Results<StandingOrder>>)
    ensures ListOf(Classify(Delivered(Drained(res, Results([]))))) == Failure(DecodeError(EOF))
  {
  }

  /** A successful reply with orders in it: the corrected call returns them,
      the call as written returns the `EOF` error instead. */
  lemma StandingOrdersAsWrittenLosesOrders(t: TrueLayer, accessToken: string, accountId: string, send: Request -> Exchange<Results<StandingOrder>>)
    requires var x := send(AuthorizedGetRequest(DataUrl(t, EndpointPath(StandingOrdersEndpoint, accountId)), accessToken));
      x.Delivered? && x.response.status < 300 && x.response.body.Decoded?
    ensures GetAccountStandingOrders(t, accessToken, accountId, send)
         == Success(send(AuthorizedGetRequest(DataUrl(t, EndpointPath(StandingOrdersEndpoint, accountId)), accessToken)).response.body.value.results)
    ensures GetAccountStandingOrdersAsWritten(t, accessToken, accountId, send) == Failure(DecodeError(EOF))
  {
    EndpointPathSubstitutes(StandingOrdersEndpoint, accountId);
    ListCallAnswers(t, EndpointPath(StandingOrdersEndpoint, accountId), accessToken, send);
  }
}
