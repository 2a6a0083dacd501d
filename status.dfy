/**
 * `GET /api/phonepe/status?orderId=...` (src/pages/api/phonepe/status.ts) as
 * a function from the query parameter, the environment, the signed token
 * and the gateway's reply to the response and the gateway call made.
 */
module Status {
  import opened Wrappers
  import opened Json
  import opened Http
  import opened PhonePeUtils

  const OrderIdRequired := "Order ID is required"
  const StatusFailed := "Failed to fetch payment status"

  datatype StatusBody =
    | Invalid(error: string)                   // { success: false, error }
    | Failed(error: string, details: Json)     // { success: false, error, details }
    | Found(data: Json)                        // { success: true, data }
    | Crashed(cause: Thrown)                   // { success: false, error: InternalServerError, message }
  {
    predicate Success() { Found? }
  }

  /** The status request sent to the gateway. */
  datatype StatusCall = StatusCall(url: string, headers: Headers)

  datatype Outcome = Outcome(response: Response<StatusBody>, call: Option<StatusCall>)

  /** The status URL of line 36; the order id is inserted as it is, without escaping. */
  function StatusUrl(config: Config, orderId: string): string {
    config.apiBaseUrl + "/checkout/v2/status/" + config.clientId + "/" + orderId
  }

  /**
   * The handler. `orderId` is `url.searchParams.get('orderId')` (`None` for
   * `null`), `jwt` stands for what `generateJWT(clientId, clientSecret)`
   * signs, and `reply` is the gateway's answer to the status request.
   */
  function StatusGet(orderId: Option<string>, env: Env, jwt: string, reply: Reply): (o: Outcome)
    // a missing or empty order id is rejected before the configuration is read
    ensures !IsSet(orderId) ==> o == Outcome(Response(400, Invalid(OrderIdRequired)), None)
    ensures IsSet(orderId) && GetPhonePeConfig(env).Err? ==>
              o == Outcome(Response(500, Crashed(ConfigMissing(MissingConfig))), None)
    // exactly one call, to the status URL, with the O-Bearer headers
    ensures o.call.Some? <==> IsSet(orderId) && GetPhonePeConfig(env).Ok?
    ensures o.call.Some? ==>
              o.call.value == StatusCall(StatusUrl(GetPhonePeConfig(env).value, orderId.value), GetPhonePeHeaders(jwt))
    // the reply is passed through: a failure with its status and body, a success verbatim
    ensures o.call.Some? && reply.Answered? && reply.body.Some? && !IsOk(reply.status) ==>
              o.response == Response(reply.status, Failed(StatusFailed, reply.body.value))
    ensures o.call.Some? && reply.Answered? && reply.body.Some? && IsOk(reply.status) ==>
              o.response == Response(200, Found(reply.body.value))
    ensures o.response.body.Success() <==>
              o.call.Some? && reply.Answered? && reply.body.Some? && IsOk(reply.status)
    // a network failure or a body that is not JSON throws, and becomes a 500
    ensures o.call.Some? && (reply.Unreachable? || reply.body.None?) ==>
              o.response.status == 500 && o.response.body.Crashed?
  {
    if !IsSet(orderId) then Outcome(Response(400, Invalid(OrderIdRequired)), None)
    else match GetPhonePeConfig(env)
      case Err(message) => Outcome(Response(500, Crashed(ConfigMissing(message))), None)
      case Ok(config) =>
        var call := StatusCall(StatusUrl(config, orderId.value), GetPhonePeHeaders(jwt));
        var response :=
          match reply
          case Unreachable => Response(500, Crashed(NetworkFailure))
          case Answered(status, body) =>
            if body.None? then Response(500, Crashed(ResponseNotJson))
            else if !IsOk(status) then Response(status, Failed(StatusFailed, body.value))
            else Response(200, Found(body.value));
        Outcome(response, Some(call))
  }

  /** The URL names the merchant and the order: both can be read back from it. */
  lemma StatusUrlShape(config: Config, orderId: string)
    ensures var url := StatusUrl(config, orderId);
            var prefix := config.apiBaseUrl + "/checkout/v2/status/" + config.clientId + "/";
            |url| == |prefix| + |orderId| && url[..|prefix|] == prefix && url[|prefix|..] == orderId
  {
    var prefix := config.apiBaseUrl + "/checkout/v2/status/" + config.clientId + "/";
    assert StatusUrl(config, orderId) == prefix + orderId;
  }

  /** The response never depends on the token or the reply when no call is made. */
  lemma NoCallNoDependence(orderId: Option<string>, env: Env, jwt1: string, jwt2: string, reply1: Reply, reply2: Reply)
    requires StatusGet(orderId, env, jwt1, reply1).call.None?
    ensures StatusGet(orderId, env, jwt1, reply1) == StatusGet(orderId, env, jwt2, reply2)
  {
  }

  /** The token reaches the gateway in the authorization header. */
  lemma CallCarriesToken(orderId: Option<string>, env: Env, jwt: string, reply: Reply)
    requires StatusGet(orderId, env, jwt, reply).call.Some?
    ensures BearerToken(HeaderValue(StatusGet(orderId, env, jwt, reply).call.value.headers, "Authorization").value) == Some(jwt)
  {
    HeadersCarryToken(jwt);
  }
}
