# PhonePe payment-gateway glue, modelled in Dafny

This project models the payment-integration layer of a marketing web site
that takes payments through the PhonePe gateway:

- the utilities of `src/lib/phonepe-utils.ts`: configuration from the
  environment, merchant order ids, the payment payload, amount validation
  and conversion, request headers, and the process-wide single-slot OAuth
  token cache;
- the three API routes under `src/pages/api/phonepe/`:
  - `POST /initiate` starts a payment and returns the checkout URL;
  - `GET /status` fetches an order's status;
  - `POST /webhook` receives the gateway's notifications. It verifies
    Basic-Auth credentials and always acknowledges once authenticated.
    `GET /webhook` is its health check.

Every handler is a total function. Its inputs are:

- the parsed request (`None` when the body is not JSON);
- the environment;
- the clock and random draws;
- the gateway's reply.

It returns the response (status and body) and, for initiate and status, the
gateway call it made (`None` when no call is made). That is how "rejected
before any upstream call" is stated. The token cache is a class `TokenCache`
with one field `cached: Option<CachedToken>`. Its `GetAccessToken` method
takes the time and the token endpoint's reply as parameters.

JSON values are a datatype `Json` with JavaScript's truthiness, property
access and optional chaining (`Json.Prop`), and `||` chains
(`Json.FirstTruthy`). Numbers are exact rationals.

Files: `wrappers.dfy` (Option, Result), `json.dfy`, `decimal.dfy` (decimal
text and `padStart`), `base64.dfy` (section 4 of RFC 4648 and `btoa`),
`http.dfy` (replies, thrown errors, responses), `phonepe_utils.dfy`,
`initiate.dfy`, `status.dfy`, `webhook.dfy`.

## Variants chosen in the merged utilities file

`src/lib/phonepe-utils.ts` holds two versions of several functions. The
model follows these:

- `getPhonePeConfig`: lines 44-50 (client version defaults to `"1"`) is
  `GetPhonePeConfig`, which the handlers use. Lines 52-58 (client version
  required) is `GetPhonePeConfigStrict`. `ConfigVariantsAgree` relates the
  two.
- `generateMerchantOrderId`: line 148 (random part padded to four digits).
  Line 149 redeclares `random` without padding and is not modelled.
- `validateAmount`: lines 195-196 (`Number.isInteger(amount) && amount > 0`)
  is `ValidateAmount`, which the handler uses. Lines 180-181 (`> 0` only)
  is `ValidateAmountLoose`. `ValidateAmountVariants` states where they
  differ.
- The dangling payload fragment at lines 182-190 is ignored.
- The `generateJWT` fragment at lines 123-141 is treated as a separate,
  opaque signer (see Left out).

## Behaviour of the code worth knowing

- initiate.ts:76-86: initiate authorises the payment call with
  `Bearer <clientSecret>`. `getAccessToken` is used by no handler.
- status.ts:32, 41: status authorises with
  `O-Bearer <generateJWT(clientId, clientSecret)>`.
- status.ts:36: the status URL is
  `{apiBaseUrl}/checkout/v2/status/{clientId}/{orderId}`.
- status.ts:48-60: a non-OK status reply is a failure that carries the
  gateway's status and body.
- initiate.ts:110: the checkout URL is read from
  `data.instrumentResponse.redirectInfo.url` alone.
- phonepe-utils.ts:85: the token endpoint is `{apiBaseUrl}/v1/oauth/token`.
- A `null` JSON body makes the handlers throw, and their `catch` blocks
  answer 500 (initiate.ts:140-153, webhook.ts:106-118):
  - in initiate, the destructuring of the request (initiate.ts:25), or the
    read of a `null` gateway reply (initiate.ts:94 when the status is OK, 99
    otherwise);
  - in the webhook, the destructuring of a `null` notification after a
    successful authentication (webhook.ts:48).
- webhook.ts:53: an authenticated notification whose `data.amount` is an
  object with its own `toString` key, or an array holding one, throws while
  being converted to a number, and the webhook answers 500.

## Model

| member | source | states |
|---|---|---|
| `Json.FirstTruthy` | src/pages/api/phonepe/webhook.ts:51-52 | a chain of JavaScript `or` fallbacks yields the first truthy candidate, all earlier ones being falsy, or the fallback when all are falsy |
| `Json.Prop` | src/pages/api/phonepe/webhook.ts:51-55 | optional property access is the field when the value is an object that has the key, and `undefined` otherwise |
| `Json.Or` | src/lib/phonepe-utils.ts:168-171 | `v or fallback` is `v` when truthy, else the fallback |
| `Decimal.Show` | src/lib/phonepe-utils.ts:150 | the decimal text of a number is non-empty, all digits, with no leading zero unless it is 0 |
| `Decimal.ShowValue` | src/lib/phonepe-utils.ts:150 | the decimal text reads back as the number |
| `Decimal.PadStart` | src/lib/phonepe-utils.ts:148 | `padStart` has length max(length, width) and is the fill repeated in front of the text |
| `Decimal.PaddedValue` | src/lib/phonepe-utils.ts:148 | the zero-padded decimal text still reads back as the number |
| `Base64.Encode` | src/pages/api/phonepe/webhook.ts:35 | base64 output has 4 characters per started group of 3 bytes |
| `Base64.DecodeEncode` | src/pages/api/phonepe/webhook.ts:35 | decoding base64 output gives the bytes back (RFC 4648 section 4) |
| `Base64.EncodeDecode` | src/pages/api/phonepe/webhook.ts:35 | the decoder accepts only text the encoder produces: text that decodes is the encoding of its bytes, so unused padding bits must be zero (RFC 4648 section 3.5) |
| `Base64.EncodeInjective` | src/pages/api/phonepe/webhook.ts:35 | distinct byte strings have distinct encodings |
| `Base64.Btoa` | src/pages/api/phonepe/webhook.ts:35 | `btoa` succeeds iff every character is Latin-1, and its output decodes to the string's bytes; with `EncodeDecode` this fixes the output as the one canonical encoding |
| `PhonePeUtils.GetPhonePeConfig` | src/lib/phonepe-utils.ts:44-50 | fails iff client id, secret or base URL is unset or empty, with the source's message; otherwise copies them, complete, with the client version defaulting to "1" |
| `PhonePeUtils.GetPhonePeConfigStrict` | src/lib/phonepe-utils.ts:52-58 | fails iff any of the four values, the client version included, is unset or empty |
| `PhonePeUtils.ConfigVariantsAgree` | src/lib/phonepe-utils.ts:44-58 | the two versions agree wherever the strict one succeeds and differ exactly when only the client version is missing |
| `PhonePeUtils.GenerateMerchantOrderId` | src/lib/phonepe-utils.ts:146-150 | `ORDER_<timestamp>_<random padded to 4>` reads back as the (timestamp, random) pair it was made from; the parser accepts only the canonical text (no leading zero in the timestamp, the random part zero-padded to exactly four digits unless longer) |
| `PhonePeUtils.ParsedOrderIdIsGenerated` | src/lib/phonepe-utils.ts:146-150 | every id that parses is the generated id of the pair it parses to, so parsing and generation are inverse bijections between pairs and canonical ids |
| `PhonePeUtils.OrderIdInjective` | src/lib/phonepe-utils.ts:146-150 | different (timestamp, random) pairs give different order ids |
| `PhonePeUtils.OrderIdSuffixWidth` | src/lib/phonepe-utils.ts:148 | for a random draw below 10000 the order id ends in `_` followed by exactly four digits |
| `PhonePeUtils.CreatePaymentPayload` | src/lib/phonepe-utils.ts:157-175 | copies order id and amount; sets expireAfter 1200, udf1 'FILLS_AI_PAYMENT', udf2 = order id, type 'PG_CHECKOUT'; message and callback URL default to the fixed text and the redirect URL |
| `PhonePeUtils.PayloadDefaults` | src/lib/phonepe-utils.ts:168-171 | omitting the callback URL equals passing the redirect URL; omitting the message equals passing the default message |
| `PhonePeUtils.ValidateAmount` | src/lib/phonepe-utils.ts:195-196 | an amount is valid iff it is a number, an integer and positive |
| `PhonePeUtils.ValidateAmountLoose` | src/lib/phonepe-utils.ts:180-181 | the other version accepts any positive number |
| `PhonePeUtils.ValidateAmountVariants` | src/lib/phonepe-utils.ts:180-196 | the versions differ exactly on positive non-integers; a valid amount is truthy, so the handler's `!amount` test is redundant |
| `PhonePeUtils.RupeesToPaise` | src/lib/phonepe-utils.ts:202-204 | integer rupees give a multiple of 100 paise whose hundredth is the rupee amount |
| `PhonePeUtils.PaiseToRupees` | src/lib/phonepe-utils.ts:209-211 | the rupee amount times 100 is the paise amount |
| `PhonePeUtils.RupeesRoundTrip` | src/lib/phonepe-utils.ts:202-211 | paise-to-rupees after rupees-to-paise is the identity on integer rupees |
| `PhonePeUtils.PaiseOfValidAmountIsValid` | src/lib/phonepe-utils.ts:195-204 | a valid rupee amount converts to a valid paise amount |
| `PhonePeUtils.GetPhonePeHeaders` | src/lib/phonepe-utils.ts:216-221 | two headers: JSON content type and `Authorization: O-Bearer <token>` |
| `PhonePeUtils.HeadersCarryToken` | src/lib/phonepe-utils.ts:219 | the token can be read back from the authorization header |
| `PhonePeUtils.CachedLookup` | src/lib/phonepe-utils.ts:78-81 | a token is returned from the cache iff the slot is full and its expiry exceeds now + 60000 ms |
| `PhonePeUtils.OAuthRequest` | src/lib/phonepe-utils.ts:85-100 | the client-credentials request goes to `<base>/v1/oauth/token` with client_id, client_secret, client_version and grant_type=client_credentials |
| `PhonePeUtils.TokenErrorMessage` | src/lib/phonepe-utils.ts:105-111 | exactly the non-OK status and the missing token carry the source's messages; the non-OK one starts with `Failed to get OAuth token: ` |
| `PhonePeUtils.TokenFailureNamesStatus` | src/lib/phonepe-utils.ts:105 | the non-OK message holds the status's decimal text right after the prefix, and that text reads back as the status |
| `PhonePeUtils.Exchange` | src/lib/phonepe-utils.ts:102-119 | succeeds iff the status is OK, the body parsed and `access_token` is non-empty; the cached expiry is `expires_at * 1000`; a non-OK status fails with status and text before the body is looked at; a missing token fails with its own error; both errors carry the source's messages |
| `PhonePeUtils.ReuseWindow` | src/lib/phonepe-utils.ts:78-119 | a token obtained with `expires_at = T` is reused exactly by calls before `T*1000 - 60000`; one with no numeric expiry is never reused |
| `PhonePeUtils.ReuseWindowExamples` | src/lib/phonepe-utils.ts:78 | 61 s before expiry the cached token is reused; 59 s before, it is not |
| `PhonePeUtils.UsableEarlier` | src/lib/phonepe-utils.ts:78 | a token usable now was usable at every earlier time |
| `PhonePeUtils.TokenCache.constructor` | src/lib/phonepe-utils.ts:35 | the slot starts empty |
| `PhonePeUtils.TokenCache.GetAccessToken` | src/lib/phonepe-utils.ts:76-122 | a cache hit returns the cached token with no request and no change; a miss sends the OAuth request; success caches and returns the new token; failure returns the error and leaves the slot unchanged |
| `PhonePeUtils.TokenCache.ClearTokenCache` | src/lib/phonepe-utils.ts:226-228 | the slot is emptied |
| `PhonePeUtils.ClearForcesRefresh` | src/lib/phonepe-utils.ts:226-228 | after clearing, the next `getAccessToken` sends the OAuth request whatever the time |
| `PhonePeUtils.RefreshThenReuse` | src/lib/phonepe-utils.ts:78-122 | after a successful refresh, a call while the token is still usable returns the same token with no request |
| `Initiate.InitiatePost` | src/pages/api/phonepe/initiate.ts:18-154 | non-JSON or `null` bodies give 500; a bad amount gives 400, checked before the redirect URL (also 400); neither reads config or calls out; missing config gives 500; the gateway is called iff all checks pass, with `amount*100` paise, the generated order id and `Bearer <secret>`; a failed reply passes its status, message (or default) and body through; a missing checkout URL gives 500 with the body; an unreachable gateway, a non-JSON reply and a `null` reply give 500 for the thrown error; success (200, echoing URL, order id and paise) happens on exactly one path |
| `Initiate.HandleReply` | src/pages/api/phonepe/initiate.ts:91-139 | an unreachable gateway and a non-JSON reply give 500; a `null` reply gives 500 for reading `success` (OK status) or `message`; a reply that is not OK or lacks a truthy `success` passes its status, message (or 'Failed to initiate payment') and body through; an accepted reply without a truthy checkout URL gives 500 with the body; otherwise 200 with the URL, order id and paise amount |
| `Initiate.CheckoutUrl` | src/pages/api/phonepe/initiate.ts:110 | the checkout URL exists iff `data`, `instrumentResponse` and `redirectInfo` are nested objects and the last has `url`, and it is that field |
| `Initiate.RejectionIgnoresEverythingElse` | src/pages/api/phonepe/initiate.ts:28-54 | a rejected request gets the same 400 whatever the configuration, clock, random draw and gateway |
| `Initiate.SuccessIdentifiesOrder` | src/pages/api/phonepe/initiate.ts:127-134 | the order id in a success response reads back as the clock reading and random draw used |
| `Initiate.MessageNamesOrder` | src/pages/api/phonepe/initiate.ts:66-71 | the payment message is `Payment for order <id>` and the callback URL is the redirect URL |
| `Status.StatusGet` | src/pages/api/phonepe/status.ts:11-87 | missing or empty order id gives 400 with no config read and no call; missing config gives 500; the call goes to `<base>/checkout/v2/status/<clientId>/<orderId>` with O-Bearer headers; a non-OK reply passes its status and body through; an OK reply is 200 with the body verbatim; network or JSON errors give 500 |
| `Status.StatusUrlShape` | src/pages/api/phonepe/status.ts:36 | the status URL is the fixed prefix with the merchant id, followed by the order id unchanged |
| `Status.NoCallNoDependence` | src/pages/api/phonepe/status.ts:13-26 | when no call is made the response depends on neither the token nor the gateway |
| `Status.CallCarriesToken` | src/pages/api/phonepe/status.ts:32-43 | the signed token reaches the gateway in the authorization header |
| `Webhook.ExpectedAuthorization` | src/pages/api/phonepe/webhook.ts:35 | the expected header exists iff `username:password` is Latin-1, and is `Basic ` + its base64 |
| `Webhook.OrderIdOf` | src/pages/api/phonepe/webhook.ts:51 | the first truthy of merchantOrderId, orderId, order_id, else 'UNKNOWN' |
| `Webhook.TransactionIdOf` | src/pages/api/phonepe/webhook.ts:52 | the first truthy of transactionId, transaction_id, id, else 'N/A' |
| `Webhook.StatusOf` | src/pages/api/phonepe/webhook.ts:54 | `data.status` when truthy, else the event |
| `Webhook.PaymentMethodOf` | src/pages/api/phonepe/webhook.ts:55 | the first truthy of paymentMethod, payment_method, else 'PhonePe' |
| `Webhook.Classify` | src/pages/api/phonepe/webhook.ts:58-88 | completed-branch iff the event is exactly one of its two strings; failed-branch iff one of its three; pending iff 'PAYMENT_PENDING' |
| `Webhook.AmountThrows` | src/pages/api/phonepe/webhook.ts:53 | the amount conversion throws iff `data.amount` exists, is truthy and cannot be converted to a number, which only an object or an array can be |
| `Webhook.WebhookPost` | src/pages/api/phonepe/webhook.ts:10-119 | a non-JSON body gives 500 before any check; unset credentials give 500 whatever the header; 401 iff the header is not exactly the expected one; credentials that are not Latin-1 give 500; once authenticated, a `null` payload and an amount that cannot be converted to a number give 500 and every other payload gets 200 with received, the extracted order and transaction ids and the event, whichever `switch` branch the event selects; 200 happens only then |
| `Webhook.AcceptedHeaderCarriesCredentials` | src/pages/api/phonepe/webhook.ts:35-45 | an acknowledged request's header is `Basic ` + base64 text decoding to the configured `username:password` |
| `Webhook.SameHeaderSameCredentials` | src/pages/api/phonepe/webhook.ts:35-37 | two credential pairs accept the same header only if they join to the same `username:password` |
| `Webhook.WebhookGet` | src/pages/api/phonepe/webhook.ts:125-147 | 200; configured iff both credentials are non-empty; lists exactly the two `checkout.order.*` events; fixed message, status and version |
| `Webhook.GetReportsWhatPostEnforces` | src/pages/api/phonepe/webhook.ts:125-129 | GET reports unconfigured iff POST refuses a parsed notification with 'Webhook credentials not configured' |
| `Webhook.AdvertisedEventsAreDispatched` | src/pages/api/phonepe/webhook.ts:136-139 | the two advertised events select the completed and failed branches |

## Left out

- Network I/O, `Request`/`Response` objects, JSON parsing and `console.log`.
  They are replaced by parameters: the parsed body (`None` when it is not
  JSON) and the gateway's reply (`Unreachable`, or a status with a parsed
  body). Every response's `Content-Type: application/json` header is not
  represented.
- `Date.now()`, `new Date().toISOString()` and `Math.random()`. They are
  parameters: `now`, `processedAt`, `timestamp`, and the already-floored
  random draw.
- The texts of runtime exceptions (TypeError, SyntaxError, network errors,
  InvalidCharacterError). A thrown error is represented by the `Thrown`
  value. Only the configuration errors carry the source's own message.
- Floating point. JSON numbers are exact rationals. The model does not
  represent:
  - the loss of precision of doubles above 2^53;
  - `Math.round` on non-integer rupees;
  - the value of the webhook's `(amount / 100).toFixed(2)`. The handler
    never returns it, so only whether the conversion throws is modelled
    (`Json.CoercionThrows`).
- PhonePeUtils.RupeesToPaise: models only integer rupees. Validation passes
  only integers before it is called.
- `generateJWT`, and with it the `jwt` import swallowed by the header
  comment. HS256 signing is a foreign library. The status handler takes the
  signed token as the opaque parameter `jwt`.
- PhonePeUtils.TokenCache.GetAccessToken: the token reply is reduced to a
  status, the raw text and the two fields read from it. The following are
  not told apart: a token body that is not JSON; a `null` body; a
  non-string `access_token`. `expires_at` is reduced to an optional integer,
  where `None` never allows reuse. JavaScript's conversions of other values
  are not modelled: `null` counting as 0, a numeric string counting as its
  number, and an object with a `toString` key throwing.
- The unlocked check-then-refresh race on the token cache. The model has
  sequential calls only.
- The method and `Content-Type` of the outbound requests. `PayCall` and
  `TokenRequest` do not represent them. The payment call is a `POST` of
  `application/json` (initiate.ts:82-84). The token request is a `POST` of
  `application/x-www-form-urlencoded` (phonepe-utils.ts:95-98).
- `process.env` versus `import.meta.env`: each setting is one optional
  value.
- URL encoding of the OAuth form and of the order id in the status URL.
  Header whitespace normalisation.
- The stubbed business actions inside the webhook's event branches. They
  are comments in the source.
