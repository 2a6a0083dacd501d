/**
 * The gateway utilities of src/lib/phonepe-utils.ts: configuration from the
 * environment, merchant order ids, the payment payload, amount checks and
 * conversion, request headers, and the single-slot OAuth token cache.
 *
 * The file is a broken merge; where it holds two versions of one function,
 * the model states which lines it follows (see README.md).
 */
module PhonePeUtils {
  import opened Wrappers
  import opened Json
  import opened Http
  import Decimal

  // ---------------------------------------------------------------------
  // Configuration

  /**
   * The environment: one optional value per key (the source's lookup of
   * `process.env` before `import.meta.env` is collapsed to one value).
   */
  datatype Env = Env(
    clientId: Option<string>,        // PHONEPE_CLIENT_ID
    clientSecret: Option<string>,    // PHONEPE_CLIENT_SECRET
    clientVersion: Option<string>,   // PHONEPE_CLIENT_VERSION
    apiBaseUrl: Option<string>)      // PHONEPE_API_BASE_URL

  /** A variable counts as set when it holds a non-empty string (JavaScript truthiness). */
  predicate IsSet(v: Option<string>) {
    v.Some? && v.value != ""
  }

  datatype Config = Config(clientId: string, clientSecret: string, clientVersion: string, apiBaseUrl: string)

  const DefaultClientVersion := "1"
  const MissingConfig :=
    "PhonePe configuration is missing. Required: PHONEPE_CLIENT_ID, PHONEPE_CLIENT_SECRET, PHONEPE_API_BASE_URL"
  const MissingConfigStrict := "PhonePe configuration is missing in environment variables"

  /** A resolved configuration has every field filled in. */
  predicate Complete(c: Config) {
    c.clientId != "" && c.clientSecret != "" && c.clientVersion != "" && c.apiBaseUrl != ""
  }

  /**
   * `getPhonePeConfig`, the version of lines 44-50: the client id, secret
   * and base URL are required, the client version defaults to "1".
   */
  function GetPhonePeConfig(env: Env): (r: Result<Config, string>)
    ensures r.Ok? <==> IsSet(env.clientId) && IsSet(env.clientSecret) && IsSet(env.apiBaseUrl)
    ensures r.Ok? ==> Complete(r.value)
    ensures r.Ok? ==> r.value.clientId == env.clientId.value && r.value.clientSecret == env.clientSecret.value
                      && r.value.apiBaseUrl == env.apiBaseUrl.value
    ensures r.Ok? ==> r.value.clientVersion == if IsSet(env.clientVersion) then env.clientVersion.value
                                                 else DefaultClientVersion
    ensures r.Err? ==> r.error == MissingConfig
  {
    var version := if IsSet(env.clientVersion) then env.clientVersion.value else DefaultClientVersion;
    if !IsSet(env.clientId) || !IsSet(env.clientSecret) || !IsSet(env.apiBaseUrl) then Err(MissingConfig)
    else Ok(Config(env.clientId.value, env.clientSecret.value, version, env.apiBaseUrl.value))
  }

  /** `getPhonePeConfig`, the version of lines 52-58: all four values are required. */
  function GetPhonePeConfigStrict(env: Env): (r: Result<Config, string>)
    ensures r.Ok? <==> IsSet(env.clientId) && IsSet(env.clientSecret) && IsSet(env.clientVersion)
                       && IsSet(env.apiBaseUrl)
    ensures r.Ok? ==> Complete(r.value)
    ensures r.Err? ==> r.error == MissingConfigStrict
  {
    if !IsSet(env.clientId) || !IsSet(env.clientSecret) || !IsSet(env.clientVersion) || !IsSet(env.apiBaseUrl)
    then Err(MissingConfigStrict)
    else Ok(Config(env.clientId.value, env.clientSecret.value, env.clientVersion.value, env.apiBaseUrl.value))
  }

  /**
   * The two versions agree wherever the strict one succeeds, and they
   * differ exactly when only PHONEPE_CLIENT_VERSION is missing, where the
   * defaulting one supplies "1".
   */
  lemma ConfigVariantsAgree(env: Env)
    ensures GetPhonePeConfigStrict(env).Ok? ==> GetPhonePeConfig(env) == GetPhonePeConfigStrict(env)
    ensures GetPhonePeConfig(env).Ok? && GetPhonePeConfigStrict(env).Err? <==>
              IsSet(env.clientId) && IsSet(env.clientSecret) && IsSet(env.apiBaseUrl) && !IsSet(env.clientVersion)
    ensures GetPhonePeConfig(env).Ok? && !IsSet(env.clientVersion) ==>
              GetPhonePeConfig(env).value.clientVersion == DefaultClientVersion
  {
  }

  // ---------------------------------------------------------------------
  // Merchant order ids

  const OrderPrefix := "ORDER_"

  /** The index of the first `c` in `s`. */
  function IndexOf(s: string, c: char): (r: Option<nat>)
    ensures r.Some? ==> r.value < |s| && s[r.value] == c && forall k :: 0 <= k < r.value ==> s[k] != c
    ensures r.None? ==> c !in s
  {
    if s == [] then None
    else if s[0] == c then Some(0)
    else match IndexOf(s[1..], c)
      case None => None
      case Some(i) => Some(i + 1)
  }

  /**
   * The random part of an order id: at least four digits, with leading zeros
   * only as padding up to four.
   */
  predicate CanonicalSuffix(s: string) {
    Decimal.AllDigits(s) && |s| >= 4 && (|s| > 4 ==> s[0] != '0')
  }

  /**
   * Reads an order id back into its timestamp and random suffix. Only the
   * canonical text is accepted: the timestamp without leading zeros and the
   * suffix padded to exactly four digits unless it is longer.
   */
  function ParseOrderId(id: string): Option<(nat, nat)> {
    if |id| < |OrderPrefix| || id[..|OrderPrefix|] != OrderPrefix then None
    else
      var rest := id[|OrderPrefix|..];
      match IndexOf(rest, '_')
      case None => None
      case Some(i) =>
        var ts, rs := rest[..i], rest[i + 1..];
        if Decimal.Canonical(ts) && CanonicalSuffix(rs) then Some((Decimal.Value(ts), Decimal.Value(rs))) else None
  }

  /**
   * `generateMerchantOrderId`, with the clock (`Date.now()`) and
   * `Math.floor(Math.random() * 10000)` as parameters, following line 148:
   * "ORDER_" + timestamp + "_" + the random number padded to four digits.
   * The id always reads back as the pair it was made from.
   */
  function GenerateMerchantOrderId(timestamp: nat, random: nat): (id: string)
    ensures ParseOrderId(id) == Some((timestamp, random))
  {
    var ts, rs := Decimal.Show(timestamp), Decimal.PadStart(Decimal.Show(random), 4, '0');
    Decimal.ShowValue(timestamp);
    Decimal.PaddedValue(random, 4);
    ParseJoined(ts, rs);
    OrderPrefix + ts + "_" + rs
  }

  /** Every id that parses is the one generated from the pair it parses to. */
  lemma ParsedOrderIdIsGenerated(id: string)
    requires ParseOrderId(id).Some?
    ensures id == GenerateMerchantOrderId(ParseOrderId(id).value.0, ParseOrderId(id).value.1)
  {
    var rest := id[|OrderPrefix|..];
    var i := IndexOf(rest, '_').value;
    var ts, rs := rest[..i], rest[i + 1..];
    assert rest == ts + "_" + rs;
    assert id == OrderPrefix + ts + "_" + rs;
    Decimal.ShowOfValue(ts);
    Decimal.PaddedOfValue(rs, 4);
  }

  /** The first `_` after the prefix separates a digit string from the rest. */
  lemma {:induction false} IndexOfAfterDigits(a: string, b: string)
    requires Decimal.AllDigits(a)
    ensures IndexOf(a + "_" + b, '_') == Some(|a|)
  {
    if a != [] {
      assert (a + "_" + b)[1..] == a[1..] + "_" + b;
      IndexOfAfterDigits(a[1..], b);
    }
  }

  lemma ParseJoined(ts: string, rs: string)
    requires Decimal.Canonical(ts) && CanonicalSuffix(rs)
    ensures ParseOrderId(OrderPrefix + ts + "_" + rs) == Some((Decimal.Value(ts), Decimal.Value(rs)))
  {
    var rest := ts + "_" + rs;
    var id := OrderPrefix + rest;
    assert OrderPrefix + ts + "_" + rs == id;
    assert id[..|OrderPrefix|] == OrderPrefix;
    assert id[|OrderPrefix|..] == rest;
    IndexOfAfterDigits(ts, rs);
    assert rest[..|ts|] == ts;
    assert rest[|ts| + 1..] == rs;
  }

  /** Different (timestamp, random) pairs never produce the same order id. */
  lemma OrderIdInjective(t1: nat, r1: nat, t2: nat, r2: nat)
    requires t1 != t2 || r1 != r2
    ensures GenerateMerchantOrderId(t1, r1) != GenerateMerchantOrderId(t2, r2)
  {
    assert ParseOrderId(GenerateMerchantOrderId(t1, r1)) == Some((t1, r1));
    assert ParseOrderId(GenerateMerchantOrderId(t2, r2)) == Some((t2, r2));
  }

  /** For a random draw below 10000 the id ends in `_` and exactly four digits. */
  lemma OrderIdSuffixWidth(timestamp: nat, random: nat)
    requires random < 10000
    ensures var id := GenerateMerchantOrderId(timestamp, random);
            |id| == |OrderPrefix| + |Decimal.Show(timestamp)| + 5
            && id[|id| - 5] == '_' && Decimal.AllDigits(id[|id| - 4..])
  {
    ShowBelow(random);
    var rs := Decimal.PadStart(Decimal.Show(random), 4, '0');
    var id := GenerateMerchantOrderId(timestamp, random);
    assert id[|id| - 4..] == rs;
  }

  lemma {:induction false} ShowBelow(n: nat)
    requires n < 10000
    ensures |Decimal.Show(n)| <= 4
  {
    if n >= 10 {
      ShowBelow(n / 10);
      if n >= 1000 { assert |Decimal.Show(n / 10)| <= 3 by { ShowBelowThousand(n / 10); } }
    }
  }

  lemma {:induction false} ShowBelowThousand(n: nat)
    requires n < 1000
    ensures |Decimal.Show(n)| <= 3
  {
    if n >= 10 {
      if n >= 100 { assert |Decimal.Show(n / 10)| <= 2; } else { assert |Decimal.Show(n / 10)| == 1; }
    }
  }

  // ---------------------------------------------------------------------
  // Payment payload

  /** The parameters of `createPaymentPayload`; `None` is an omitted optional field. */
  datatype PaymentParams = PaymentParams(
    merchantOrderId: string,
    amount: int,
    redirectUrl: Json,
    callbackUrl: Option<Json>,
    message: Option<string>)

  datatype MetaInfo = MetaInfo(udf1: string, udf2: string)
  datatype MerchantUrls = MerchantUrls(redirectUrl: Json, callbackUrl: Json)
  datatype PaymentFlow = PaymentFlow(flowType: string, message: string, merchantUrls: MerchantUrls)
  /** The body of the gateway's payment-creation request. */
  datatype Payment = Payment(
    merchantOrderId: string,
    amount: int,
    expireAfter: int,
    metaInfo: MetaInfo,
    paymentFlow: PaymentFlow)

  const ExpireAfterSeconds := 1200
  const PaymentTag := "FILLS_AI_PAYMENT"
  const CheckoutFlow := "PG_CHECKOUT"
  const DefaultPaymentMessage := "Payment for FILLS AI Services"

  /** `createPaymentPayload` (lines 157-175). */
  function CreatePaymentPayload(p: PaymentParams): (r: Payment)
    ensures r.merchantOrderId == p.merchantOrderId && r.amount == p.amount
    ensures r.expireAfter == ExpireAfterSeconds
    ensures r.metaInfo == MetaInfo(PaymentTag, p.merchantOrderId)
    ensures r.paymentFlow.flowType == CheckoutFlow
    ensures r.paymentFlow.message == if p.message.Some? && p.message.value != "" then p.message.value
                                     else DefaultPaymentMessage
    ensures r.paymentFlow.merchantUrls.redirectUrl == p.redirectUrl
    ensures r.paymentFlow.merchantUrls.callbackUrl == if Present(p.callbackUrl) then p.callbackUrl.value
                                                      else p.redirectUrl
  {
    Payment(
      p.merchantOrderId,
      p.amount,
      ExpireAfterSeconds,
      MetaInfo(PaymentTag, p.merchantOrderId),
      PaymentFlow(
        CheckoutFlow,
        if p.message.Some? && p.message.value != "" then p.message.value else DefaultPaymentMessage,
        MerchantUrls(p.redirectUrl, Or(p.callbackUrl, p.redirectUrl))))
  }

  /**
   * Omitting the callback URL is the same as passing the redirect URL, and
   * omitting the message the same as passing the default message.
   */
  lemma PayloadDefaults(p: PaymentParams)
    ensures CreatePaymentPayload(p.(callbackUrl := None)) == CreatePaymentPayload(p.(callbackUrl := Some(p.redirectUrl)))
    ensures CreatePaymentPayload(p.(message := None)) == CreatePaymentPayload(p.(message := Some(DefaultPaymentMessage)))
  {
  }

  // ---------------------------------------------------------------------
  // Amounts

  predicate IsInteger(x: real) {
    x.Floor as real == x
  }

  /** `validateAmount`, the version of lines 195-196: `Number.isInteger(amount) && amount > 0`. */
  function ValidateAmount(amount: Json): (r: bool)
    ensures r <==> amount.Num? && amount.n > 0.0 && IsInteger(amount.n)
  {
    amount.Num? && IsInteger(amount.n) && amount.n > 0.0
  }

  /** `validateAmount`, the version of lines 180-181: `typeof amount === 'number' && amount > 0`. */
  function ValidateAmountLoose(amount: Json): (r: bool)
    ensures r <==> amount.Num? && amount.n > 0.0
  {
    amount.Num? && amount.n > 0.0
  }

  /**
   * The two versions disagree exactly on positive numbers with a fractional
   * part, which only the loose one accepts; and every valid amount is
   * truthy, so the handler's extra `!amount` test never decides anything.
   */
  lemma ValidateAmountVariants(amount: Json)
    ensures ValidateAmount(amount) ==> ValidateAmountLoose(amount) && Truthy(amount)
    ensures ValidateAmountLoose(amount) && !ValidateAmount(amount) <==>
              amount.Num? && amount.n > 0.0 && !IsInteger(amount.n)
  {
  }

  /** `rupeesToPaise` on an integer number of rupees, where `Math.round(rupees * 100)` is exact. */
  function RupeesToPaise(rupees: int): (paise: int)
    ensures paise % 100 == 0 && paise / 100 == rupees
  {
    rupees * 100
  }

  /** `paiseToRupees`, over exact rationals. */
  function PaiseToRupees(paise: int): (rupees: real)
    ensures rupees * 100.0 == paise as real
  {
    paise as real / 100.0
  }

  /** Converting integer rupees to paise and back gives the same amount. */
  lemma RupeesRoundTrip(rupees: int)
    ensures PaiseToRupees(RupeesToPaise(rupees)) == rupees as real
  {
  }

  /** A valid amount of rupees converts to a valid amount of paise. */
  lemma PaiseOfValidAmountIsValid(rupees: int)
    requires ValidateAmount(Num(rupees as real))
    ensures ValidateAmount(Num(RupeesToPaise(rupees) as real))
  {
    assert (rupees * 100) as real == (rupees as real) * 100.0;
  }

  // ---------------------------------------------------------------------
  // Request headers

  type Headers = seq<(string, string)>

  /** The value of the first header named `name`. */
  function HeaderValue(h: Headers, name: string): Option<string> {
    if h == [] then None else if h[0].0 == name then Some(h[0].1) else HeaderValue(h[1..], name)
  }

  const AuthorizationScheme := "O-Bearer "

  /** `getPhonePeHeaders` (lines 216-221): a JSON content type and an `O-Bearer` authorization. */
  function GetPhonePeHeaders(accessToken: string): (h: Headers)
    ensures HeaderValue(h, "Content-Type") == Some("application/json")
    ensures HeaderValue(h, "Authorization") == Some(AuthorizationScheme + accessToken)
    ensures |h| == 2
  {
    [("Content-Type", "application/json"), ("Authorization", AuthorizationScheme + accessToken)]
  }

  /** The token an `O-Bearer` authorization carries. */
  function BearerToken(authorization: string): Option<string> {
    if |authorization| >= |AuthorizationScheme| && authorization[..|AuthorizationScheme|] == AuthorizationScheme
    then Some(authorization[|AuthorizationScheme|..]) else None
  }

  /** The headers carry the token: it can be read back from the authorization header. */
  lemma HeadersCarryToken(accessToken: string)
    ensures BearerToken(HeaderValue(GetPhonePeHeaders(accessToken), "Authorization").value) == Some(accessToken)
  {
    var a := AuthorizationScheme + accessToken;
    assert a[..|AuthorizationScheme|] == AuthorizationScheme && a[|AuthorizationScheme|..] == accessToken;
  }

  // ---------------------------------------------------------------------
  // OAuth token cache

  /** A cached token; `expiresAt` is `None` when `expires_at * 1000` came out as NaN. */
  datatype CachedToken = CachedToken(token: string, expiresAt: Option<int>)

  /** The margin before expiry under which a cached token is no longer reused (one minute). */
  const RefreshMarginMs := 60000

  /** `cachedToken.expiresAt > Date.now() + 60000`; a NaN expiry never compares greater. */
  predicate Usable(c: CachedToken, now: int) {
    c.expiresAt.Some? && c.expiresAt.value > now + RefreshMarginMs
  }

  /** The token `getAccessToken` returns without an upstream call, if any (lines 78-81). */
  function CachedLookup(slot: Option<CachedToken>, now: int): (r: Option<string>)
    ensures r.Some? <==> slot.Some? && Usable(slot.value, now)
    ensures r.Some? ==> r.value == slot.value.token
  {
    if slot.Some? && Usable(slot.value, now) then Some(slot.value.token) else None
  }

  /** The form-encoded client-credentials request (lines 85-100). */
  datatype TokenRequest = TokenRequest(url: string, form: seq<(string, string)>)

  function OAuthRequest(config: Config): (q: TokenRequest)
    ensures q.url == config.apiBaseUrl + "/v1/oauth/token"
    ensures q.form == [("client_id", config.clientId), ("client_secret", config.clientSecret),
                       ("client_version", config.clientVersion), ("grant_type", "client_credentials")]
  {
    TokenRequest(config.apiBaseUrl + "/v1/oauth/token",
      [("client_id", config.clientId), ("client_secret", config.clientSecret),
       ("client_version", config.clientVersion), ("grant_type", "client_credentials")])
  }

  /**
   * The fields of a parsed token response, with `expires_at` reduced to an
   * optional integer: `None` for a value whose product with 1000 is NaN.
   */
  datatype TokenFields = TokenFields(accessToken: Option<string>, expiresAt: Option<int>)

  /**
   * The token endpoint's answer: `fetch` rejected, or a status, the raw
   * text, and its fields (`None` when `JSON.parse` throws or yields `null`).
   */
  datatype TokenReply = TokenUnreachable | TokenAnswered(status: HttpStatus, text: string, fields: Option<TokenFields>)

  datatype TokenError =
    | TokenNetworkFailure
    | TokenHttpFailure(status: HttpStatus, text: string)
    | TokenMalformed
    | NoAccessToken

  const TokenFailurePrefix := "Failed to get OAuth token: "
  const NoAccessTokenMessage := "No access_token in OAuth response"

  /**
   * The message of the error thrown (lines 106 and 112); `None` where the
   * error is the runtime's own (a rejected `fetch`, a failed `JSON.parse`).
   */
  function TokenErrorMessage(e: TokenError): (m: Option<string>)
    ensures m.Some? <==> e.TokenHttpFailure? || e.NoAccessToken?
    ensures e.TokenHttpFailure? ==>
              |m.value| > |TokenFailurePrefix| && m.value[..|TokenFailurePrefix|] == TokenFailurePrefix
  {
    match e
    case TokenHttpFailure(status, text) => Some(TokenFailurePrefix + Decimal.Show(status) + " - " + text)
    case NoAccessToken => Some(NoAccessTokenMessage)
    case _ => None
  }

  /** The status can be read back from a failure message: it is the digits after the prefix. */
  lemma TokenFailureNamesStatus(status: HttpStatus, text: string)
    ensures var m := TokenErrorMessage(TokenHttpFailure(status, text)).value;
            var digits := Decimal.Show(status);
            m[|TokenFailurePrefix|..|TokenFailurePrefix| + |digits|] == digits
            && Decimal.Value(digits) == status
  {
    var digits := Decimal.Show(status);
    var m := TokenFailurePrefix + digits + " - " + text;
    assert m[|TokenFailurePrefix|..|TokenFailurePrefix| + |digits|] == digits;
    Decimal.ShowValue(status);
  }

  /**
   * What a client-credentials exchange yields (lines 102-119): a non-OK
   * status fails before the body is parsed; a response without an
   * `access_token` fails; otherwise the token to cache, with its expiry
   * converted from seconds to milliseconds.
   */
  function Exchange(reply: TokenReply): (r: Result<CachedToken, TokenError>)
    ensures r.Ok? <==> reply.TokenAnswered? && IsOk(reply.status) && reply.fields.Some?
                       && IsSet(reply.fields.value.accessToken)
    ensures r.Ok? ==> r.value.token == reply.fields.value.accessToken.value && r.value.token != ""
    ensures r.Ok? ==> r.value.expiresAt == match reply.fields.value.expiresAt
                                           case None => None
                                           case Some(s) => Some(s * 1000)
    ensures reply.TokenAnswered? && !IsOk(reply.status) ==>
              r == Err(TokenHttpFailure(reply.status, reply.text))
              && TokenErrorMessage(r.error) == Some(TokenFailurePrefix + Decimal.Show(reply.status) + " - " + reply.text)
    ensures reply.TokenAnswered? && IsOk(reply.status) && reply.fields.Some? && !IsSet(reply.fields.value.accessToken)
            ==> r == Err(NoAccessToken) && TokenErrorMessage(r.error) == Some(NoAccessTokenMessage)
  {
    match reply
    case TokenUnreachable => Err(TokenNetworkFailure)
    case TokenAnswered(status, text, fields) =>
      if !IsOk(status) then Err(TokenHttpFailure(status, text))
      else if fields.None? then Err(TokenMalformed)
      else if !IsSet(fields.value.accessToken) then Err(NoAccessToken)
      else Ok(CachedToken(fields.value.accessToken.value,
                          match fields.value.expiresAt case None => None case Some(s) => Some(s * 1000)))
  }

  /**
   * A token obtained with `expires_at = T` is reused by every call made
   * more than a minute before `T * 1000` and by no later call; a token
   * without a numeric expiry is never reused.
   */
  lemma ReuseWindow(token: string, expiresAtSeconds: Option<int>, now: int)
    ensures CachedLookup(Some(CachedToken(token, match expiresAtSeconds case None => None case Some(s) => Some(s * 1000))), now).Some?
            <==> expiresAtSeconds.Some? && now < expiresAtSeconds.value * 1000 - RefreshMarginMs
  {
  }

  /** 61 s before expiry the cached token is reused; 59 s before, it is refreshed. */
  lemma ReuseWindowExamples(token: string, t: int)
    ensures CachedLookup(Some(CachedToken(token, Some(t * 1000))), t * 1000 - 61000) == Some(token)
    ensures CachedLookup(Some(CachedToken(token, Some(t * 1000))), t * 1000 - 59000) == None
  {
  }

  /** A token usable now was usable at every earlier instant. */
  lemma UsableEarlier(c: CachedToken, earlier: int, now: int)
    requires earlier <= now && Usable(c, now)
    ensures Usable(c, earlier)
  {
  }

  /** The process-wide `cachedToken` slot (line 35). */
  class TokenCache {
    var cached: Option<CachedToken>

    /** The module starts with an empty slot. */
    constructor ()
      ensures cached == None
    {
      cached := None;
    }

    /**
     * `getAccessToken`: a usable cached token is returned with no request;
     * otherwise the client-credentials request is sent, and on success its
     * token is cached and returned, while a failure leaves the slot as it was.
     * `reply` is what the token endpoint answers to that request.
     */
    method GetAccessToken(config: Config, now: int, reply: TokenReply)
      returns (r: Result<string, TokenError>, request: Option<TokenRequest>)
      modifies this
      ensures CachedLookup(old(cached), now).Some? ==>
                r == Ok(CachedLookup(old(cached), now).value) && request == None && cached == old(cached)
      ensures CachedLookup(old(cached), now).None? ==> request == Some(OAuthRequest(config))
      ensures CachedLookup(old(cached), now).None? && Exchange(reply).Ok? ==>
                cached == Some(Exchange(reply).value) && r == Ok(Exchange(reply).value.token)
      ensures CachedLookup(old(cached), now).None? && Exchange(reply).Err? ==>
                cached == old(cached) && r == Err(Exchange(reply).error)
    {
      var hit := CachedLookup(cached, now);
      if hit.Some? {
        return Ok(hit.value), None;
      }
      request := Some(OAuthRequest(config));
      var exchanged := Exchange(reply);
      match exchanged {
        case Ok(c) =>
          cached := Some(c);
          r := Ok(c.token);
        case Err(e) =>
          r := Err(e);
      }
    }

    /** `clearTokenCache` (lines 226-228). */
    method ClearTokenCache()
      modifies this
      ensures cached == None
    {
      cached := None;
    }
  }

  /** After `clearTokenCache`, the next `getAccessToken` sends a request whatever the time. */
  method ClearForcesRefresh(cache: TokenCache, config: Config, now: int, reply: TokenReply)
    returns (request: Option<TokenRequest>)
    modifies cache
    ensures request == Some(OAuthRequest(config))
  {
    cache.ClearTokenCache();
    var r;
    r, request := cache.GetAccessToken(config, now, reply);
  }

  /**
   * A successful exchange followed by a call while the new token is still
   * usable returns that same token with no second request.
   */
  method RefreshThenReuse(cache: TokenCache, config: Config, t0: int, t1: int, reply: TokenReply, later: TokenReply)
    returns (first: Result<string, TokenError>, second: Result<string, TokenError>, request: Option<TokenRequest>)
    requires CachedLookup(cache.cached, t0).None? && Exchange(reply).Ok? && Usable(Exchange(reply).value, t1)
    modifies cache
    ensures first.Ok? && second == first && request == None
  {
    var q;
    first, q := cache.GetAccessToken(config, t0, reply);
    second, request := cache.GetAccessToken(config, t1, later);
  }
}
