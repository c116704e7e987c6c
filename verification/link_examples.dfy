/** The authentication links the client's own tests expect
    (truelayer/truelayer_test.go), derived from the model of
    `GetAuthenticationLink`.

    Each expected link is written as the test's literal cut after the `?`
    and before every `&`; the pieces are compared one pair at a time. */
module LinkExamples {
  import opened Wrappers
  import opened Text
  import opened Query
  import opened Client
  import opened Auth

  // ---------------------------------------------------------------------
  // From the link to its pairs
  // ---------------------------------------------------------------------

  /** The link is the base, `/?`, and the encoded pairs joined by `&`. */
  lemma LinkOfParts(t: TrueLayer, providers: seq<string>, permissions: seq<string>, redirectUri: string, postCode: bool)
    ensures GetAuthenticationLink(t, providers, permissions, redirectUri, postCode)
         == Success(GetAuthBaseUrl(t) + "/" + "?" + Join(EncodePairs(LinkPairs(t, providers, permissions, redirectUri, postCode)), '&'))
  {
    LinkShape(t, providers, permissions, redirectUri, postCode);
    LinkEncodes(t, providers, permissions, redirectUri, postCode);
  }

  lemma {:induction false} JoinFive(xs: seq<string>, sep: char)
    requires |xs| == 5
    ensures Join(xs, sep) == xs[0] + [sep] + xs[1] + [sep] + xs[2] + [sep] + xs[3] + [sep] + xs[4]
  {
    var a, b, c, d, e := xs[0], xs[1], xs[2], xs[3], xs[4];
    assert xs[1..] == [b, c, d, e];
    assert xs[1..][1..] == [c, d, e];
    assert xs[1..][1..][1..] == [d, e];
    assert xs[1..][1..][1..][1..] == [e];
    assert Join([d, e], sep) == d + [sep] + e;
    assert Join([c, d, e], sep) == c + [sep] + (d + [sep] + e);
    assert Join([b, c, d, e], sep) == b + [sep] + (c + [sep] + (d + [sep] + e));
  }

  lemma {:induction false} JoinSix(xs: seq<string>, sep: char)
    requires |xs| == 6
    ensures Join(xs, sep) == xs[0] + [sep] + xs[1] + [sep] + xs[2] + [sep] + xs[3] + [sep] + xs[4] + [sep] + xs[5]
  {
    var a, b, c, d, e, f := xs[0], xs[1], xs[2], xs[3], xs[4], xs[5];
    assert xs[1..] == [b, c, d, e, f];
    assert xs[1..][1..] == [c, d, e, f];
    assert xs[1..][1..][1..] == [d, e, f];
    assert xs[1..][1..][1..][1..] == [e, f];
    assert xs[1..][1..][1..][1..][1..] == [f];
    assert Join([e, f], sep) == e + [sep] + f;
    assert Join([d, e, f], sep) == d + [sep] + (e + [sep] + f);
    assert Join([c, d, e, f], sep) == c + [sep] + (d + [sep] + (e + [sep] + f));
    assert Join([b, c, d, e, f], sep) == b + [sep] + (c + [sep] + (d + [sep] + (e + [sep] + f)));
  }

  /** The pairs of a link asking for one provider and one permission,
      without `postCode`. */
  lemma OneProviderPairs(t: TrueLayer, provider: string, permission: string, redirectUri: string)
    ensures LinkPairs(t, [provider], [permission], redirectUri, false)
         == [("client_id", t.clientId), ("providers", provider), ("redirect_uri", redirectUri),
             ("response_type", "code"), ("scope", permission)]
  {
    assert Join([provider], ' ') == provider;
    assert Join([permission], ' ') == permission;
  }

  /** A link of five pairs, assembled from its written pieces. */
  lemma LinkOfFive(t: TrueLayer, providers: seq<string>, permissions: seq<string>, redirectUri: string, base: string,
                    x0: string, x1: string, x2: string, x3: string, x4: string)
    requires base == GetAuthBaseUrl(t)
    requires |EncodePairs(LinkPairs(t, providers, permissions, redirectUri, false))| == 5
    requires EncodePairs(LinkPairs(t, providers, permissions, redirectUri, false))[0] == x0
    requires EncodePairs(LinkPairs(t, providers, permissions, redirectUri, false))[1] == x1
    requires EncodePairs(LinkPairs(t, providers, permissions, redirectUri, false))[2] == x2
    requires EncodePairs(LinkPairs(t, providers, permissions, redirectUri, false))[3] == x3
    requires EncodePairs(LinkPairs(t, providers, permissions, redirectUri, false))[4] == x4
    ensures GetAuthenticationLink(t, providers, permissions, redirectUri, false)
         == Success(base + "/?" + x0 + "&" + x1 + "&" + x2 + "&" + x3 + "&" + x4)
  {
    var parts := EncodePairs(LinkPairs(t, providers, permissions, redirectUri, false));
    LinkOfParts(t, providers, permissions, redirectUri, false);
    JoinFive(parts, '&');
    RootAndQuery(base);
    Regroup(base + "/?", parts);
  }

  lemma RootAndQuery(base: string)
    ensures base + "/" + "?" == base + "/?"
  {
    SlashQuery();
    assert base + "/" + "?" == base + ("/" + "?");
  }

  lemma SlashQuery()
    ensures "/" + "?" == "/?"
  {
  }

  lemma Regroup(head: string, parts: seq<string>)
    requires |parts| == 5
    ensures head + (parts[0] + "&" + parts[1] + "&" + parts[2] + "&" + parts[3] + "&" + parts[4])
         == head + parts[0] + "&" + parts[1] + "&" + parts[2] + "&" + parts[3] + "&" + parts[4]
  {
  }

  // ---------------------------------------------------------------------
  // The pairs of the tests, one at a time
  // ---------------------------------------------------------------------

  /** `providers.UKMonzo` and `PermissionBalance`. */
  const UKMonzo := "uk-ob-monzo"
  const UKMBNA := "uk-ob-mbna"
  const PermissionBalance := "balance"

  lemma EscapedPair(key: string, value: string, escapedKey: string, escapedValue: string)
    requires QueryEscape(key) == escapedKey && QueryEscape(value) == escapedValue
    ensures EncodePair((key, value)) == escapedKey + "=" + escapedValue
  {
  }

  lemma UnreservedPair(key: string, value: string)
    requires Unreserved(key) && Unreserved(value)
    ensures EncodePair((key, value)) == key + "=" + value
  {
    QueryEscapeUnreserved(key);
    QueryEscapeUnreserved(value);
  }

  lemma ClientIdPair()
    ensures EncodePair(("client_id", "abc")) == "client_id=abc"
  {
    UnreservedPair("client_id", "abc");
    ClientIdText();
  }

  lemma ClientIdText()
    ensures "client_id" + "=" + "abc" == "client_id=abc"
  {
  }

  lemma ProvidersPair()
    ensures EncodePair(("providers", UKMonzo)) == "providers=uk-ob-monzo"
  {
    UnreservedPair("providers", UKMonzo);
    ProvidersText();
  }

  lemma ProvidersText()
    ensures "providers" + "=" + UKMonzo == "providers=uk-ob-monzo"
  {
  }

  lemma RedirectPair()
    ensures EncodePair(("redirect_uri", "http://localhost")) == "redirect_uri=http%3A%2F%2Flocalhost"
  {
    RedirectKeyEscapes();
    QueryEscapeLocalhost();
    EscapedPair("redirect_uri", "http://localhost", "redirect_uri", "http%3A%2F%2Flocalhost");
    RedirectText();
  }

  lemma RedirectKeyEscapes()
    ensures QueryEscape("redirect_uri") == "redirect_uri"
  {
    QueryEscapeUnreserved("redirect_uri");
  }

  lemma RedirectText()
    ensures "redirect_uri" + "=" + "http%3A%2F%2Flocalhost" == "redirect_uri=http%3A%2F%2Flocalhost"
  {
  }

  lemma ResponseTypePair()
    ensures EncodePair(("response_type", "code")) == "response_type=code"
  {
    UnreservedPair("response_type", "code");
    ResponseTypeText();
  }

  lemma ResponseTypeText()
    ensures "response_type" + "=" + "code" == "response_type=code"
  {
  }

  lemma ScopePair()
    ensures EncodePair(("scope", PermissionBalance)) == "scope=balance"
  {
    UnreservedPair("scope", PermissionBalance);
    ScopeText();
  }

  lemma ScopeText()
    ensures "scope" + "=" + PermissionBalance == "scope=balance"
  {
  }

  /** Each written pair of a one-provider link, position by position. */
  lemma ClientIdPart(t: TrueLayer, provider: string, permission: string, redirectUri: string)
    requires t.clientId == "abc"
    ensures EncodePairs(LinkPairs(t, [provider], [permission], redirectUri, false))[0] == "client_id=abc"
  {
    OneProviderPairs(t, provider, permission, redirectUri);
    ClientIdPair();
  }

  lemma ProvidersPart(t: TrueLayer, permission: string, redirectUri: string)
    ensures EncodePairs(LinkPairs(t, [UKMonzo], [permission], redirectUri, false))[1] == "providers=uk-ob-monzo"
  {
    OneProviderPairs(t, UKMonzo, permission, redirectUri);
    ProvidersPair();
  }

  lemma RedirectPart(t: TrueLayer, provider: string, permission: string)
    ensures EncodePairs(LinkPairs(t, [provider], [permission], "http://localhost", false))[2] == "redirect_uri=http%3A%2F%2Flocalhost"
  {
    OneProviderPairs(t, provider, permission, "http://localhost");
    RedirectPair();
  }

  lemma ResponseTypePart(t: TrueLayer, provider: string, permission: string, redirectUri: string)
    ensures EncodePairs(LinkPairs(t, [provider], [permission], redirectUri, false))[3] == "response_type=code"
  {
    OneProviderPairs(t, provider, permission, redirectUri);
    ResponseTypePair();
  }

  lemma ScopePart(t: TrueLayer, provider: string, redirectUri: string)
    ensures EncodePairs(LinkPairs(t, [provider], [PermissionBalance], redirectUri, false))[4] == "scope=balance"
  {
    OneProviderPairs(t, provider, PermissionBalance, redirectUri);
    ScopePair();
  }

  lemma SandboxBase(t: TrueLayer)
    requires t.sandbox
    ensures GetAuthBaseUrl(t) == "https://auth.truelayer-sandbox.com"
  {
  }

  lemma LiveBase(t: TrueLayer)
    requires !t.sandbox
    ensures GetAuthBaseUrl(t) == "https://auth.truelayer.com"
  {
  }

  /** The five pairs of the first two tests, as written. */
  lemma OneProviderTestParts(t: TrueLayer)
    requires t.clientId == "abc"
    ensures |EncodePairs(LinkPairs(t, [UKMonzo], [PermissionBalance], "http://localhost", false))| == 5
    ensures EncodePairs(LinkPairs(t, [UKMonzo], [PermissionBalance], "http://localhost", false))[0] == "client_id=abc"
    ensures EncodePairs(LinkPairs(t, [UKMonzo], [PermissionBalance], "http://localhost", false))[1] == "providers=uk-ob-monzo"
    ensures EncodePairs(LinkPairs(t, [UKMonzo], [PermissionBalance], "http://localhost", false))[2] == "redirect_uri=http%3A%2F%2Flocalhost"
    ensures EncodePairs(LinkPairs(t, [UKMonzo], [PermissionBalance], "http://localhost", false))[3] == "response_type=code"
    ensures EncodePairs(LinkPairs(t, [UKMonzo], [PermissionBalance], "http://localhost", false))[4] == "scope=balance"
  {
    ClientIdPart(t, UKMonzo, PermissionBalance, "http://localhost");
    ProvidersPart(t, PermissionBalance, "http://localhost");
    RedirectPart(t, UKMonzo, PermissionBalance);
    ResponseTypePart(t, UKMonzo, PermissionBalance, "http://localhost");
    ScopePart(t, UKMonzo, "http://localhost");
  }

  /** The first two tests' link on a given authorization base. */
  lemma OneProviderLink(t: TrueLayer, base: string)
    requires t.clientId == "abc" && base == GetAuthBaseUrl(t)
    ensures GetAuthenticationLink(t, [UKMonzo], [PermissionBalance], "http://localhost", false)
         == Success(base + "/?" + "client_id=abc" + "&" + "providers=uk-ob-monzo" + "&" + "redirect_uri=http%3A%2F%2Flocalhost"
                    + "&" + "response_type=code" + "&" + "scope=balance")
  {
    OneProviderTestParts(t);
    LinkOfFive(t, [UKMonzo], [PermissionBalance], "http://localhost", base,
      "client_id=abc", "providers=uk-ob-monzo", "redirect_uri=http%3A%2F%2Flocalhost", "response_type=code", "scope=balance");
  }

  /** truelayer_test.go, "sandbox link": the expected link, cut after the
      `?` and before each `&`. */
  lemma SandboxLinkTest()
    ensures GetAuthenticationLink(New("abc", "abc", true), [UKMonzo], [PermissionBalance], "http://localhost", false)
         == Success("https://auth.truelayer-sandbox.com" + "/?" + "client_id=abc" + "&" + "providers=uk-ob-monzo"
                    + "&" + "redirect_uri=http%3A%2F%2Flocalhost" + "&" + "response_type=code" + "&" + "scope=balance")
  {
    var t := New("abc", "abc", true);
    SandboxBase(t);
    OneProviderLink(t, "https://auth.truelayer-sandbox.com");
  }

  /** truelayer_test.go, "live link". */
  lemma LiveLinkTest()
    ensures GetAuthenticationLink(New("abc", "abc", false), [UKMonzo], [PermissionBalance], "http://localhost", false)
         == Success("https://auth.truelayer.com" + "/?" + "client_id=abc" + "&" + "providers=uk-ob-monzo"
                    + "&" + "redirect_uri=http%3A%2F%2Flocalhost" + "&" + "response_type=code" + "&" + "scope=balance")
  {
    var t := New("abc", "abc", false);
    LiveBase(t);
    OneProviderLink(t, "https://auth.truelayer.com");
  }

  // ---------------------------------------------------------------------
  // The third test: two providers and `postCode`
  // ---------------------------------------------------------------------

  /** The pairs of a link asking for two providers and one permission,
      with `postCode`: the providers are joined by a space. */
  lemma TwoProviderPairs(t: TrueLayer, p1: string, p2: string, permission: string, redirectUri: string)
    ensures LinkPairs(t, [p1, p2], [permission], redirectUri, true)
         == [("client_id", t.clientId), ("providers", p1 + " " + p2), ("redirect_uri", redirectUri),
             ("response_mode", "form_post"), ("response_type", "code"), ("scope", permission)]
  {
    assert [p1, p2][1..] == [p2];
    assert Join([p1, p2], ' ') == p1 + " " + p2;
    assert Join([permission], ' ') == permission;
  }

  /** A space between two plain words of a query value is written as `+`. */
  lemma SpacedEscape(a: string, b: string)
    requires Unreserved(a) && Unreserved(b)
    ensures QueryEscape(a + " " + b) == a + "+" + b
  {
    QueryEscapeAppend(a + " ", b);
    QueryEscapeAppend(a, " ");
    QueryEscapeUnreserved(a);
    QueryEscapeUnreserved(b);
    SpaceEscape();
  }

  lemma SpaceEscape()
    ensures QueryEscape(" ") == "+"
  {
    assert Utf8(" ") == [0x20];
    assert EscapeBytes([0x20]) == EscapeByte(0x20);
  }

  lemma SpacedPair(key: string, a: string, b: string)
    requires Unreserved(key) && Unreserved(a) && Unreserved(b)
    ensures EncodePair((key, a + " " + b)) == key + "=" + (a + "+" + b)
  {
    QueryEscapeUnreserved(key);
    SpacedEscape(a, b);
  }

  lemma TwoProvidersPair()
    ensures EncodePair(("providers", UKMonzo + " " + UKMBNA)) == "providers=uk-ob-monzo+uk-ob-mbna"
  {
    SpacedPair("providers", UKMonzo, UKMBNA);
    TwoProvidersText();
  }

  lemma TwoProvidersText()
    ensures "providers" + "=" + (UKMonzo + "+" + UKMBNA) == "providers=uk-ob-monzo+uk-ob-mbna"
  {
  }

  lemma ResponseModePair()
    ensures EncodePair(("response_mode", "form_post")) == "response_mode=form_post"
  {
    UnreservedPair("response_mode", "form_post");
    ResponseModeText();
  }

  lemma ResponseModeText()
    ensures "response_mode" + "=" + "form_post" == "response_mode=form_post"
  {
  }

  /** Each written pair of the third test's link, position by position. */
  lemma PostCodeClientIdPart(t: TrueLayer)
    requires t.clientId == "abc"
    ensures EncodePairs(LinkPairs(t, [UKMonzo, UKMBNA], [PermissionBalance], "http://localhost", true))[0] == "client_id=abc"
  {
    TwoProviderPairs(t, UKMonzo, UKMBNA, PermissionBalance, "http://localhost");
    ClientIdPair();
  }

  lemma PostCodeProvidersPart(t: TrueLayer)
    ensures EncodePairs(LinkPairs(t, [UKMonzo, UKMBNA], [PermissionBalance], "http://localhost", true))[1] == "providers=uk-ob-monzo+uk-ob-mbna"
  {
    TwoProviderPairs(t, UKMonzo, UKMBNA, PermissionBalance, "http://localhost");
    TwoProvidersPair();
  }

  lemma PostCodeRedirectPart(t: TrueLayer)
    ensures EncodePairs(LinkPairs(t, [UKMonzo, UKMBNA], [PermissionBalance], "http://localhost", true))[2] == "redirect_uri=http%3A%2F%2Flocalhost"
  {
    TwoProviderPairs(t, UKMonzo, UKMBNA, PermissionBalance, "http://localhost");
    RedirectPair();
  }

  lemma PostCodeResponseModePart(t: TrueLayer)
    ensures EncodePairs(LinkPairs(t, [UKMonzo, UKMBNA], [PermissionBalance], "http://localhost", true))[3] == "response_mode=form_post"
  {
    TwoProviderPairs(t, UKMonzo, UKMBNA, PermissionBalance, "http://localhost");
    ResponseModePair();
  }

  lemma PostCodeResponseTypePart(t: TrueLayer)
    ensures EncodePairs(LinkPairs(t, [UKMonzo, UKMBNA], [PermissionBalance], "http://localhost", true))[4] == "response_type=code"
  {
    TwoProviderPairs(t, UKMonzo, UKMBNA, PermissionBalance, "http://localhost");
    ResponseTypePair();
  }

  lemma PostCodeScopePart(t: TrueLayer)
    ensures EncodePairs(LinkPairs(t, [UKMonzo, UKMBNA], [PermissionBalance], "http://localhost", true))[5] == "scope=balance"
  {
    TwoProviderPairs(t, UKMonzo, UKMBNA, PermissionBalance, "http://localhost");
    ScopePair();
  }

  /** A link of six pairs, assembled from its written pieces. */
  lemma LinkOfSix(t: TrueLayer, providers: seq<string>, permissions: seq<string>, redirectUri: string, base: string,
                  x0: string, x1: string, x2: string, x3: string, x4: string, x5: string)
    requires base == GetAuthBaseUrl(t)
    requires |EncodePairs(LinkPairs(t, providers, permissions, redirectUri, true))| == 6
    requires EncodePairs(LinkPairs(t, providers, permissions, redirectUri, true))[0] == x0
    requires EncodePairs(LinkPairs(t, providers, permissions, redirectUri, true))[1] == x1
    requires EncodePairs(LinkPairs(t, providers, permissions, redirectUri, true))[2] == x2
    requires EncodePairs(LinkPairs(t, providers, permissions, redirectUri, true))[3] == x3
    requires EncodePairs(LinkPairs(t, providers, permissions, redirectUri, true))[4] == x4
    requires EncodePairs(LinkPairs(t, providers, permissions, redirectUri, true))[5] == x5
    ensures GetAuthenticationLink(t, providers, permissions, redirectUri, true)
         == Success(base + "/?" + x0 + "&" + x1 + "&" + x2 + "&" + x3 + "&" + x4 + "&" + x5)
  {
    var parts := EncodePairs(LinkPairs(t, providers, permissions, redirectUri, true));
    LinkOfParts(t, providers, permissions, redirectUri, true);
    JoinSix(parts, '&');
    RootAndQuery(base);
    RegroupSix(base + "/?", parts);
  }

  lemma RegroupSix(head: string, parts: seq<string>)
    requires |parts| == 6
    ensures head + (parts[0] + "&" + parts[1] + "&" + parts[2] + "&" + parts[3] + "&" + parts[4] + "&" + parts[5])
         == head + parts[0] + "&" + parts[1] + "&" + parts[2] + "&" + parts[3] + "&" + parts[4] + "&" + parts[5]
  {
  }

  /** The six pairs of the third test, as written. */
  lemma PostCodeTestParts(t: TrueLayer)
    requires t.clientId == "abc"
    ensures |EncodePairs(LinkPairs(t, [UKMonzo, UKMBNA], [PermissionBalance], "http://localhost", true))| == 6
    ensures EncodePairs(LinkPairs(t, [UKMonzo, UKMBNA], [PermissionBalance], "http://localhost", true))[0] == "client_id=abc"
    ensures EncodePairs(LinkPairs(t, [UKMonzo, UKMBNA], [PermissionBalance], "http://localhost", true))[1] == "providers=uk-ob-monzo+uk-ob-mbna"
    ensures EncodePairs(LinkPairs(t, [UKMonzo, UKMBNA], [PermissionBalance], "http://localhost", true))[2] == "redirect_uri=http%3A%2F%2Flocalhost"
    ensures EncodePairs(LinkPairs(t, [UKMonzo, UKMBNA], [PermissionBalance], "http://localhost", true))[3] == "response_mode=form_post"
    ensures EncodePairs(LinkPairs(t, [UKMonzo, UKMBNA], [PermissionBalance], "http://localhost", true))[4] == "response_type=code"
    ensures EncodePairs(LinkPairs(t, [UKMonzo, UKMBNA], [PermissionBalance], "http://localhost", true))[5] == "scope=balance"
  {
    PostCodeClientIdPart(t);
    PostCodeProvidersPart(t);
    PostCodeRedirectPart(t);
    PostCodeResponseModePart(t);
    PostCodeResponseTypePart(t);
    PostCodeScopePart(t);
  }

  /** truelayer_test.go, "live link post code". */
  lemma PostCodeLinkTest()
    ensures GetAuthenticationLink(New("abc", "abc", false), [UKMonzo, UKMBNA], [PermissionBalance], "http://localhost", true)
         == Success("https://auth.truelayer.com" + "/?" + "client_id=abc" + "&" + "providers=uk-ob-monzo+uk-ob-mbna"
                    + "&" + "redirect_uri=http%3A%2F%2Flocalhost" + "&" + "response_mode=form_post"
                    + "&" + "response_type=code" + "&" + "scope=balance")
  {
    var t := New("abc", "abc", false);
    LiveBase(t);
    PostCodeTestParts(t);
    LinkOfSix(t, [UKMonzo, UKMBNA], [PermissionBalance], "http://localhost", "https://auth.truelayer.com",
      "client_id=abc", "providers=uk-ob-monzo+uk-ob-mbna", "redirect_uri=http%3A%2F%2Flocalhost",
      "response_mode=form_post", "response_type=code", "scope=balance");
  }
}
