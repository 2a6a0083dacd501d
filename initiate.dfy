/**
 * `POST /api/phonepe/initiate` (src/pages/api/phonepe/initiate.ts) as a
 * function from the request body, the environment, the clock, the random
 * draw and the gateway's reply to the response and the gateway call made.
 */
module Initiate {
  import opened Wrappers
  import opened Json
  import opened Http
  import opened PhonePeUtils

  const InvalidAmount := "Invalid amount. Amount must be a positive number."
  const RedirectRequired := "Redirect URL is required."
  const InitiateFailed := "Failed to initiate payment"
  const CheckoutUrlMissing := "Checkout URL not found in PhonePe response"
  const Initiated := "Payment initiated successfully"

  datatype InitiateBody =
    | Invalid(error: string)                  // { success: false, error } for a rejected request
    | Failed(errorValue: Json, details: Json) // { success: false, error: errorValue, details }
    | Started(checkoutUrl: Json, merchantOrderId: string, amount: int, message: string)
    | Crashed(cause: Thrown)                  // { success: false, error: InternalServerError, message }
  {
    /** The body's `success` field. */
    predicate Success() { Started? }
  }

  /** The payment-creation request sent to the gateway. */
  datatype PayCall = PayCall(url: string, authorization: string, payload: Payment)

  datatype Outcome = Outcome(response: Response<InitiateBody>, call: Option<PayCall>)

  /** The amount passes `!amount || !validateAmount(amount)` (lines 29-40). */
  predicate AmountAccepted(body: Json) {
    Present(Prop(Some(body), "amount")) && ValidateAmount(Prop(Some(body), "amount").value)
  }

  /** Both checks of lines 29-54 pass. */
  predicate RequestAccepted(body: Json) {
    AmountAccepted(body) && Present(Prop(Some(body), "redirectUrl"))
  }

  /** `responseData.data?.instrumentResponse?.redirectInfo?.url` (line 110). */
  function CheckoutUrl(data: Json): (r: Option<Json>)
    ensures r.Some? <==>
              && data.Obj? && "data" in data.fields
              && data.fields["data"].Obj? && "instrumentResponse" in data.fields["data"].fields
              && data.fields["data"].fields["instrumentResponse"].Obj?
              && "redirectInfo" in data.fields["data"].fields["instrumentResponse"].fields
              && data.fields["data"].fields["instrumentResponse"].fields["redirectInfo"].Obj?
              && "url" in data.fields["data"].fields["instrumentResponse"].fields["redirectInfo"].fields
    ensures r.Some? ==>
              r.value == data.fields["data"].fields["instrumentResponse"].fields["redirectInfo"].fields["url"]
  {
    Prop(Prop(Prop(Prop(Some(data), "data"), "instrumentResponse"), "redirectInfo"), "url")
  }

  /** The paise amount of an accepted request (line 63, integer rupees). */
  function Paise(body: Json): int
    requires AmountAccepted(body)
  {
    RupeesToPaise(Prop(Some(body), "amount").value.n.Floor)
  }

  /** The request of lines 66-89. */
  function BuildCall(config: Config, merchantOrderId: string, paise: int, redirectUrl: Json): PayCall {
    PayCall(
      config.apiBaseUrl + "/checkout/v2/pay",
      "Bearer " + config.clientSecret,
      CreatePaymentPayload(PaymentParams(merchantOrderId, paise, redirectUrl, None,
                                         Some("Payment for order " + merchantOrderId))))
  }

  /** The gateway reply was read successfully: an answer whose body is JSON other than `null`. */
  predicate Readable(reply: Reply) {
    reply.Answered? && reply.body.Some? && !reply.body.value.Null?
  }

  /** The gateway reports success: `response.ok` and a truthy `success` field (line 94). */
  predicate Accepted(reply: Reply)
    requires Readable(reply)
  {
    IsOk(reply.status) && Present(Prop(reply.body, "success"))
  }

  /** Lines 91-139: what the handler makes of the gateway's reply. */
  function HandleReply(reply: Reply, merchantOrderId: string, paise: int): (r: Response<InitiateBody>)
    ensures reply.Unreachable? ==> r == Response(500, Crashed(NetworkFailure))
    ensures reply.Answered? && reply.body.None? ==> r == Response(500, Crashed(ResponseNotJson))
    ensures reply.Answered? && reply.body == Some(Null) ==>
              r == Response(500, Crashed(NullPropertyRead(if IsOk(reply.status) then "success" else "message")))
    ensures Readable(reply) && !Accepted(reply) ==>
              r == Response(reply.status, Failed(Or(Prop(reply.body, "message"), Str(InitiateFailed)), reply.body.value))
    ensures Readable(reply) && Accepted(reply) && !Present(CheckoutUrl(reply.body.value)) ==>
              r == Response(500, Failed(Str(CheckoutUrlMissing), reply.body.value))
    ensures Readable(reply) && Accepted(reply) && Present(CheckoutUrl(reply.body.value)) ==>
              r == Response(200, Started(CheckoutUrl(reply.body.value).value, merchantOrderId, paise, Initiated))
  {
    match reply
    case Unreachable => Response(500, Crashed(NetworkFailure))
    case Answered(status, body) =>
      if body.None? then Response(500, Crashed(ResponseNotJson))
      else if body.value.Null? then
        // `null.success` when the status is OK, `null.message` otherwise
        Response(500, Crashed(NullPropertyRead(if IsOk(status) then "success" else "message")))
      else if !IsOk(status) || !Present(Prop(body, "success")) then
        Response(status, Failed(Or(Prop(body, "message"), Str(InitiateFailed)), body.value))
      else match CheckoutUrl(body.value)
        case None => Response(500, Failed(Str(CheckoutUrlMissing), body.value))
        case Some(url) =>
          if !Truthy(url) then Response(500, Failed(Str(CheckoutUrlMissing), body.value))
          else Response(200, Started(url, merchantOrderId, paise, Initiated))
  }

  /**
   * The handler. `request` is the parsed request body (`None` when it is
   * not JSON), `now` and `random` feed `generateMerchantOrderId`, and
   * `reply` is the gateway's answer to the payment-creation request.
   */
  function InitiatePost(request: Option<Json>, env: Env, now: nat, random: nat, reply: Reply): (o: Outcome)
    // a body that is not JSON, or is `null`, throws before any check
    ensures request.None? ==> o == Outcome(Response(500, Crashed(RequestNotJson)), None)
    ensures request == Some(Null) ==> o == Outcome(Response(500, Crashed(NullDestructured)), None)
    // the amount is checked first, then the redirect URL; neither reads the configuration or calls out
    ensures request.Some? && !request.value.Null? && !AmountAccepted(request.value) ==>
              o == Outcome(Response(400, Invalid(InvalidAmount)), None)
    ensures request.Some? && !request.value.Null? && AmountAccepted(request.value)
              && !Present(Prop(request, "redirectUrl")) ==>
              o == Outcome(Response(400, Invalid(RedirectRequired)), None)
    // an accepted request with missing configuration throws the configuration error
    ensures request.Some? && !request.value.Null? && RequestAccepted(request.value) && GetPhonePeConfig(env).Err? ==>
              o == Outcome(Response(500, Crashed(ConfigMissing(MissingConfig))), None)
    // the gateway is called exactly for accepted requests with a configuration, with the paise amount
    ensures o.call.Some? <==> request.Some? && !request.value.Null? && RequestAccepted(request.value)
                              && GetPhonePeConfig(env).Ok?
    ensures o.call.Some? ==>
              var config := GetPhonePeConfig(env).value;
              && o.call.value.url == config.apiBaseUrl + "/checkout/v2/pay"
              && o.call.value.authorization == "Bearer " + config.clientSecret
              && o.call.value.payload.amount == Prop(request, "amount").value.n.Floor * 100
              && o.call.value.payload.merchantOrderId == GenerateMerchantOrderId(now, random)
              && o.call.value.payload.paymentFlow.merchantUrls.redirectUrl == Prop(request, "redirectUrl").value
    // a failure reported by the gateway is passed through with its status and body
    ensures o.call.Some? && Readable(reply) && !Accepted(reply) ==>
              o.response == Response(reply.status,
                                     Failed(Or(Prop(reply.body, "message"), Str(InitiateFailed)), reply.body.value))
    // an accepted reply without a checkout URL is a 500 carrying the reply
    ensures o.call.Some? && Readable(reply) && Accepted(reply) && !Present(CheckoutUrl(reply.body.value)) ==>
              o.response == Response(500, Failed(Str(CheckoutUrlMissing), reply.body.value))
    // success happens on exactly one path, always with status 200
    ensures o.response.body.Success() <==>
              o.call.Some? && Readable(reply) && Accepted(reply) && Present(CheckoutUrl(reply.body.value))
    ensures o.response.body.Success() ==>
              && o.response.status == 200
              && o.response.body == Started(CheckoutUrl(reply.body.value).value, GenerateMerchantOrderId(now, random),
                                            Prop(request, "amount").value.n.Floor * 100, Initiated)
              && o.response.body.amount == o.call.value.payload.amount
    // an unreachable gateway, a reply that is not JSON and a `null` reply throw, and become a 500
    ensures o.call.Some? && reply.Unreachable? ==> o.response == Response(500, Crashed(NetworkFailure))
    ensures o.call.Some? && reply.Answered? && reply.body.None? ==> o.response == Response(500, Crashed(ResponseNotJson))
    ensures o.call.Some? && reply.Answered? && reply.body == Some(Null) ==>
              o.response.status == 500 && o.response.body.Crashed? && o.response.body.cause.NullPropertyRead?
    // whatever is thrown becomes a 500
    ensures o.response.body.Crashed? ==> o.response.status == 500
  {
    if request.None? then Outcome(Response(500, Crashed(RequestNotJson)), None)
    else if request.value.Null? then Outcome(Response(500, Crashed(NullDestructured)), None)
    else
      var body := request.value;
      if !AmountAccepted(body) then Outcome(Response(400, Invalid(InvalidAmount)), None)
      else if !Present(Prop(request, "redirectUrl")) then Outcome(Response(400, Invalid(RedirectRequired)), None)
      else match GetPhonePeConfig(env)
        case Err(message) => Outcome(Response(500, Crashed(ConfigMissing(message))), None)
        case Ok(config) =>
          var merchantOrderId := GenerateMerchantOrderId(now, random);
          var paise := Paise(body);
          var call := BuildCall(config, merchantOrderId, paise, Prop(request, "redirectUrl").value);
          Outcome(HandleReply(reply, merchantOrderId, paise), Some(call))
  }

  /**
   * A rejected request gets the same answer whatever the configuration, the
   * clock, the random draw and the gateway would have done.
   */
  lemma RejectionIgnoresEverythingElse(request: Json, env1: Env, env2: Env, now1: nat, now2: nat,
                                       random1: nat, random2: nat, reply1: Reply, reply2: Reply)
    requires !request.Null? && !RequestAccepted(request)
    ensures InitiatePost(Some(request), env1, now1, random1, reply1) == InitiatePost(Some(request), env2, now2, random2, reply2)
    ensures InitiatePost(Some(request), env1, now1, random1, reply1).response.status == 400
  {
  }

  /** The success response's order id identifies the clock reading and the random draw. */
  lemma SuccessIdentifiesOrder(request: Option<Json>, env: Env, now: nat, random: nat, reply: Reply)
    requires InitiatePost(request, env, now, random, reply).response.body.Success()
    ensures ParseOrderId(InitiatePost(request, env, now, random, reply).response.body.merchantOrderId) == Some((now, random))
  {
  }

  /** The payment message always names the order, so the payload's default message is never used. */
  lemma MessageNamesOrder(request: Json, env: Env, now: nat, random: nat, reply: Reply)
    requires !request.Null? && RequestAccepted(request) && GetPhonePeConfig(env).Ok?
    ensures InitiatePost(Some(request), env, now, random, reply).call.Some?
    ensures InitiatePost(Some(request), env, now, random, reply).call.value.payload.paymentFlow.message ==
            "Payment for order " + GenerateMerchantOrderId(now, random)
    ensures InitiatePost(Some(request), env, now, random, reply).call.value.payload.paymentFlow.merchantUrls.callbackUrl ==
            Prop(Some(request), "redirectUrl").value
  {
  }
}
