/**
 * `POST` and `GET /api/phonepe/webhook` (src/pages/api/phonepe/webhook.ts):
 * Basic-Auth verification of the gateway's notifications, extraction of
 * their fields, dispatch on the event, and the acknowledgement.
 */
module Webhook {
  import opened Wrappers
  import opened Json
  import opened Http
  import PhonePeUtils
  import Base64

  /** PHONEPE_WEBHOOK_USERNAME and PHONEPE_WEBHOOK_PASSWORD, as read from `import.meta.env`. */
  datatype WebhookEnv = WebhookEnv(username: Option<string>, password: Option<string>)

  /** `!webhookUsername || !webhookPassword` is false. */
  predicate Configured(env: WebhookEnv) {
    PhonePeUtils.IsSet(env.username) && PhonePeUtils.IsSet(env.password)
  }

  const NotConfigured := "Webhook credentials not configured"
  const Unauthorized := "Unauthorized"

  /** `Basic ${btoa(`${username}:${password}`)}` (line 35); `None` when `btoa` throws. */
  function ExpectedAuthorization(username: string, password: string): (r: Option<string>)
    ensures r.Some? <==> Base64.IsLatin1(username + ":" + password)
    ensures r.Some? ==> r.value == "Basic " + Base64.Encode(Base64.Latin1(username + ":" + password))
  {
    match Base64.Btoa(username + ":" + password)
    case None => None
    case Some(encoded) => Some("Basic " + encoded)
  }

  /** The fields read from a notification's `data` (lines 51-55). */
  datatype Fields = Fields(orderId: Json, transactionId: Json, status: Option<Json>, paymentMethod: Json)

  function OrderIdOf(data: Option<Json>): (r: Json)
    ensures Present(Prop(data, "merchantOrderId")) ==> r == Prop(data, "merchantOrderId").value
    ensures !Present(Prop(data, "merchantOrderId")) && Present(Prop(data, "orderId")) ==> r == Prop(data, "orderId").value
    ensures !Present(Prop(data, "merchantOrderId")) && !Present(Prop(data, "orderId")) && Present(Prop(data, "order_id"))
            ==> r == Prop(data, "order_id").value
    ensures !Present(Prop(data, "merchantOrderId")) && !Present(Prop(data, "orderId")) && !Present(Prop(data, "order_id"))
            ==> r == Str("UNKNOWN")
    ensures Truthy(r)
  {
    FirstTruthyHead(Prop(data, "merchantOrderId"), [Prop(data, "orderId"), Prop(data, "order_id")], Str("UNKNOWN"));
    FirstTruthyHead(Prop(data, "orderId"), [Prop(data, "order_id")], Str("UNKNOWN"));
    FirstTruthyHead(Prop(data, "order_id"), [], Str("UNKNOWN"));
    FirstTruthyIsTruthy([Prop(data, "merchantOrderId"), Prop(data, "orderId"), Prop(data, "order_id")], Str("UNKNOWN"));
    FirstTruthy([Prop(data, "merchantOrderId"), Prop(data, "orderId"), Prop(data, "order_id")], Str("UNKNOWN"))
  }

  function TransactionIdOf(data: Option<Json>): (r: Json)
    ensures Present(Prop(data, "transactionId")) ==> r == Prop(data, "transactionId").value
    ensures !Present(Prop(data, "transactionId")) && Present(Prop(data, "transaction_id")) ==> r == Prop(data, "transaction_id").value
    ensures !Present(Prop(data, "transactionId")) && !Present(Prop(data, "transaction_id")) && Present(Prop(data, "id"))
            ==> r == Prop(data, "id").value
    ensures !Present(Prop(data, "transactionId")) && !Present(Prop(data, "transaction_id")) && !Present(Prop(data, "id"))
            ==> r == Str("N/A")
    ensures Truthy(r)
  {
    FirstTruthyHead(Prop(data, "transactionId"), [Prop(data, "transaction_id"), Prop(data, "id")], Str("N/A"));
    FirstTruthyHead(Prop(data, "transaction_id"), [Prop(data, "id")], Str("N/A"));
    FirstTruthyHead(Prop(data, "id"), [], Str("N/A"));
    FirstTruthyIsTruthy([Prop(data, "transactionId"), Prop(data, "transaction_id"), Prop(data, "id")], Str("N/A"));
    FirstTruthy([Prop(data, "transactionId"), Prop(data, "transaction_id"), Prop(data, "id")], Str("N/A"))
  }

  /** `data?.status || event`: `None` only when both are falsy and the event is `undefined`. */
  function StatusOf(data: Option<Json>, event: Option<Json>): (r: Option<Json>)
    ensures Present(Prop(data, "status")) ==> r == Prop(data, "status")
    ensures !Present(Prop(data, "status")) ==> r == event
  {
    if Present(Prop(data, "status")) then Prop(data, "status") else event
  }

  function PaymentMethodOf(data: Option<Json>): (r: Json)
    ensures Present(Prop(data, "paymentMethod")) ==> r == Prop(data, "paymentMethod").value
    ensures !Present(Prop(data, "paymentMethod")) && Present(Prop(data, "payment_method")) ==> r == Prop(data, "payment_method").value
    ensures !Present(Prop(data, "paymentMethod")) && !Present(Prop(data, "payment_method")) ==> r == Str("PhonePe")
  {
    FirstTruthyHead(Prop(data, "paymentMethod"), [Prop(data, "payment_method")], Str("PhonePe"));
    FirstTruthyHead(Prop(data, "payment_method"), [], Str("PhonePe"));
    FirstTruthy([Prop(data, "paymentMethod"), Prop(data, "payment_method")], Str("PhonePe"))
  }

  function ExtractFields(data: Option<Json>, event: Option<Json>): Fields {
    Fields(OrderIdOf(data), TransactionIdOf(data), StatusOf(data, event), PaymentMethodOf(data))
  }

  /** The branches of the `switch (event)` of lines 58-88. */
  datatype EventKind = Completed | Failed | Pending | Other

  /** `switch` compares with `===`, so only these exact strings select a branch. */
  function Classify(event: Option<Json>): (k: EventKind)
    ensures k == Completed <==> event == Some(Str("checkout.order.completed")) || event == Some(Str("PAYMENT_SUCCESS"))
    ensures k == Failed <==> event in {Some(Str("checkout.order.failed")), Some(Str("PAYMENT_FAILED")),
                                       Some(Str("PAYMENT_DECLINED"))}
    ensures k == Pending <==> event == Some(Str("PAYMENT_PENDING"))
  {
    if event == Some(Str("checkout.order.completed")) || event == Some(Str("PAYMENT_SUCCESS")) then Completed
    else if event == Some(Str("checkout.order.failed")) || event == Some(Str("PAYMENT_FAILED"))
         || event == Some(Str("PAYMENT_DECLINED")) then Failed
    else if event == Some(Str("PAYMENT_PENDING")) then Pending
    else Other
  }

  datatype WebhookBody =
    | Rejected(error: string)                     // { success: false, error }
    | Crashed(cause: Thrown, timestamp: string)   // { success: false, error: <message>, timestamp }
    | Acknowledged(orderId: Json, transactionId: Json, event: Option<Json>, processedAt: string)
  {
    predicate Success() { Acknowledged? }
  }

  /** `data?.amount ? (data.amount / 100).toFixed(2) : 'N/A'` (line 53) throws. */
  predicate AmountThrows(payload: Json): (b: bool)
    ensures b <==> && payload.Obj? && "data" in payload.fields
                   && payload.fields["data"].Obj? && "amount" in payload.fields["data"].fields
                   && Truthy(payload.fields["data"].fields["amount"])
                   && CoercionThrows(payload.fields["data"].fields["amount"])
    // only an object or an array can fail to convert
    ensures b ==> payload.fields["data"].fields["amount"].Obj? || payload.fields["data"].fields["amount"].Arr?
  {
    var amount := Prop(Prop(Some(payload), "data"), "amount");
    Present(amount) && CoercionThrows(amount.value)
  }

  /** The request carries exactly the expected credentials, and they could be encoded. */
  predicate Authenticated(env: WebhookEnv, authorization: Option<string>) {
    Configured(env)
    && ExpectedAuthorization(env.username.value, env.password.value).Some?
    && authorization == ExpectedAuthorization(env.username.value, env.password.value)
  }

  /**
   * The handler. `payload` is the parsed body (`None` when it is not JSON),
   * `authorization` the request's `Authorization` header (`None` when
   * absent), `processedAt` the time stamp `new Date().toISOString()`.
   */
  function WebhookPost(payload: Option<Json>, authorization: Option<string>, env: WebhookEnv, processedAt: string)
    : (r: Response<WebhookBody>)
    // the body is parsed before anything is checked
    ensures payload.None? ==> r == Response(500, Crashed(RequestNotJson, processedAt))
    // missing credentials are a 500 whatever the header says
    ensures payload.Some? && !Configured(env) ==> r == Response(500, Rejected(NotConfigured))
    // anything but the exact expected header is a 401
    ensures r.status == 401 <==>
              payload.Some? && Configured(env) && ExpectedAuthorization(env.username.value, env.password.value).Some?
              && !Authenticated(env, authorization)
    ensures r.status == 401 ==> r.body == Rejected(Unauthorized)
    // credentials that are not Latin-1 make `btoa` throw
    ensures payload.Some? && Configured(env) && ExpectedAuthorization(env.username.value, env.password.value).None? ==>
              r == Response(500, Crashed(InvalidCharacter, processedAt))
    // once authenticated, a `null` payload cannot be destructured, and an amount that cannot be converted throws
    ensures payload == Some(Null) && Authenticated(env, authorization) ==>
              r == Response(500, Crashed(NullDestructured, processedAt))
    ensures payload.Some? && !payload.value.Null? && Authenticated(env, authorization) && AmountThrows(payload.value) ==>
              r == Response(500, Crashed(NotCoercible, processedAt))
    // every other authenticated payload is acknowledged with 200
    ensures payload.Some? && !payload.value.Null? && Authenticated(env, authorization) && !AmountThrows(payload.value) ==>
              var event := Prop(payload, "event");
              var fields := ExtractFields(Prop(payload, "data"), event);
              r == Response(200, Acknowledged(fields.orderId, fields.transactionId, event, processedAt))
    ensures r.body.Success() <==> r.status == 200
    ensures r.status == 200 <==> payload.Some? && !payload.value.Null? && Authenticated(env, authorization)
                                 && !AmountThrows(payload.value)
    ensures r.body.Crashed? ==> r.status == 500
  {
    if payload.None? then Response(500, Crashed(RequestNotJson, processedAt))
    else if !Configured(env) then Response(500, Rejected(NotConfigured))
    else match ExpectedAuthorization(env.username.value, env.password.value)
      case None => Response(500, Crashed(InvalidCharacter, processedAt))
      case Some(expected) =>
        if authorization != Some(expected) then Response(401, Rejected(Unauthorized))
        else if payload.value.Null? then Response(500, Crashed(NullDestructured, processedAt))
        else if AmountThrows(payload.value) then Response(500, Crashed(NotCoercible, processedAt))
        else
          var event := Prop(payload, "event");
          var fields := ExtractFields(Prop(payload, "data"), event);
          // the `switch` on the event (lines 58-88, see `Classify`) has only
          // empty hooks, so every event gets the same acknowledgement
          Response(200, Acknowledged(fields.orderId, fields.transactionId, event, processedAt))
  }

  /**
   * An acknowledged request's header is "Basic " followed by base64 text
   * that decodes to the configured `username:password`.
   */
  lemma AcceptedHeaderCarriesCredentials(payload: Option<Json>, authorization: Option<string>, env: WebhookEnv,
                                         processedAt: string)
    requires WebhookPost(payload, authorization, env, processedAt).status == 200
    ensures authorization.Some? && |authorization.value| >= 6 && authorization.value[..6] == "Basic "
    ensures Base64.IsLatin1(env.username.value + ":" + env.password.value)
    ensures Base64.Decode(authorization.value[6..]) == Some(Base64.Latin1(env.username.value + ":" + env.password.value))
  {
    var creds := env.username.value + ":" + env.password.value;
    var encoded := Base64.Encode(Base64.Latin1(creds));
    assert authorization.value == "Basic " + encoded;
    assert authorization.value[6..] == encoded;
    Base64.DecodeEncode(Base64.Latin1(creds));
  }

  /** Two configured credential pairs accept the same header only if they join to the same `username:password`. */
  lemma SameHeaderSameCredentials(u1: string, p1: string, u2: string, p2: string)
    requires ExpectedAuthorization(u1, p1).Some? && ExpectedAuthorization(u1, p1) == ExpectedAuthorization(u2, p2)
    ensures u1 + ":" + p1 == u2 + ":" + p2
  {
    var e1, e2 := Base64.Encode(Base64.Latin1(u1 + ":" + p1)), Base64.Encode(Base64.Latin1(u2 + ":" + p2));
    assert ("Basic " + e1)[6..] == e1 && ("Basic " + e2)[6..] == e2;
    Base64.EncodeInjective(Base64.Latin1(u1 + ":" + p1), Base64.Latin1(u2 + ":" + p2));
    var s1, s2 := u1 + ":" + p1, u2 + ":" + p2;
    assert |s1| == |s2|;
    forall i | 0 <= i < |s1| ensures s1[i] == s2[i] {
      assert Base64.Latin1(s1)[i] == s1[i] as int;
      assert Base64.Latin1(s2)[i] == s2[i] as int;
    }
  }

  /** The health descriptor of `GET` (lines 125-147). */
  datatype WebhookInfo = WebhookInfo(
    message: string, status: string, configured: bool, events: seq<string>, timestamp: string, version: string)

  const SupportedEvents := ["checkout.order.completed", "checkout.order.failed"]

  function WebhookGet(env: WebhookEnv, timestamp: string): (r: Response<WebhookInfo>)
    ensures r.status == 200
    ensures r.body.configured <==> PhonePeUtils.IsSet(env.username) && PhonePeUtils.IsSet(env.password)
    ensures r.body.events == SupportedEvents
    ensures r.body.message == "PhonePe Webhook Endpoint" && r.body.status == "active" && r.body.version == "1.0.0"
    ensures r.body.timestamp == timestamp
  {
    Response(200, WebhookInfo("PhonePe Webhook Endpoint", "active", Configured(env), SupportedEvents, timestamp, "1.0.0"))
  }

  /** `GET` reports unconfigured exactly when `POST` refuses every parsed notification for missing credentials. */
  lemma GetReportsWhatPostEnforces(env: WebhookEnv, payload: Json, authorization: Option<string>, t: string)
    ensures !WebhookGet(env, t).body.configured <==>
              WebhookPost(Some(payload), authorization, env, t) == Response(500, Rejected(NotConfigured))
  {
  }

  /** The events `GET` advertises are exactly the two dispatched as completed or failed by their gateway names. */
  lemma AdvertisedEventsAreDispatched()
    ensures Classify(Some(Str(SupportedEvents[0]))) == Completed
    ensures Classify(Some(Str(SupportedEvents[1]))) == Failed
  {
  }
}
