/**
 * The checkout initiator (`POST /api/stripe/checkout`): validate the request, ask the
 * provider for a hosted checkout session, then record a `pending` row keyed by the
 * provider's session id.
 */
module Checkout {
  import opened Wrappers
  import opened Http
  import opened PaymentSessions

  /** The fields of the JSON request body the handler reads. */
  datatype CheckoutBody = CheckoutBody(
    kind: Option<string>,        // `body.type`
    projectId: Option<string>,
    giftItemId: Option<string>,
    amount: Option<int>)

  /** Environment configuration: `NEXT_PUBLIC_BASE_URL` and `STRIPE_PUBLISH_FEE_PRICE_ID`. */
  datatype Config = Config(baseUrl: string, publishFeePriceId: string)

  type Positive = x: int | x > 0 witness 1

  /** A request that passed validation, with the subject it bills for. */
  datatype Order =
    | PublishOrder(projectId: string)
    | SupportOrder(giftItemId: string, amount: Positive)

  /** The publish fee in yen, fixed in the handler. */
  const PublishFeeAmount: Positive := 3000

  const PublishFeeType := "publish_fee"

  /** One line item of the session: a registered price, or an ad-hoc price built from the amount. */
  datatype LineItem =
    | PriceRef(priceId: string)
    | AdHocPrice(currency: string, productName: string, unitAmount: int)

  /** What is sent to `stripe.checkout.sessions.create` (mode `payment`, quantity 1). */
  datatype CheckoutParams = CheckoutParams(
    lineItem: LineItem,
    successUrl: string,
    cancelUrl: string,
    metadata: map<string, string>)

  /** What the provider returns for a created session. */
  datatype ProviderSession = ProviderSession(id: string, url: string)

  /** The kind and subject id a session bills for, as its metadata carries them. */
  datatype Subject = Subject(kind: Kind, id: string)

  const InternalError := Response(500, Error("Internal Server Error"))

  /** JavaScript truthiness of an optional number: absent and `0` are falsy. */
  predicate AmountTruthy(a: Option<int>) {
    a.Some? && a.value != 0
  }

  /**
   * The checks made before the provider is called. `type === "publish_fee"` needs a
   * truthy `projectId`; every other `type`, absent included, is a gift contribution and
   * needs a truthy `giftItemId` and an amount that is truthy and positive.
   */
  function Validate(b: CheckoutBody): (r: Result<Order, string>)
    ensures b.kind == Some(PublishFeeType) ==>
      && (r.Success? <==> Truthy(b.projectId))
      && (r.Success? ==> r.value == PublishOrder(b.projectId.value))
      && (r.Failure? ==> r.error == "Missing projectId")
    ensures b.kind != Some(PublishFeeType) ==>
      && (r.Success? <==> Truthy(b.giftItemId) && b.amount.Some? && b.amount.value > 0)
      && (r.Success? ==> r.value == SupportOrder(b.giftItemId.value, b.amount.value))
      && (r.Failure? ==> r.error == "Invalid gift item or amount")
  {
    if b.kind == Some(PublishFeeType) then
      if !Truthy(b.projectId) then Failure("Missing projectId")
      else Success(PublishOrder(b.projectId.value))
    else if !Truthy(b.giftItemId) || !AmountTruthy(b.amount) || b.amount.value <= 0 then
      Failure("Invalid gift item or amount")
    else
      Success(SupportOrder(b.giftItemId.value, b.amount.value))
  }

  function OrderKind(o: Order): Kind {
    match o
    case PublishOrder(_) => PublishFee
    case SupportOrder(_, _) => SupportContribution
  }

  function OrderSubject(o: Order): Subject {
    match o
    case PublishOrder(p) => Subject(PublishFee, p)
    case SupportOrder(g, _) => Subject(SupportContribution, g)
  }

  /** The amount recorded for an order: the fixed fee, or the amount the client sent. */
  function OrderAmount(o: Order): Positive {
    match o
    case PublishOrder(_) => PublishFeeAmount
    case SupportOrder(_, a) => a
  }

  /** The session metadata: `type` plus `projectId` or `giftItemId`. */
  function Metadata(o: Order): map<string, string> {
    match o
    case PublishOrder(p) => map["type" := PublishFeeType, "projectId" := p]
    case SupportOrder(g, _) => map["type" := KindName(SupportContribution), "giftItemId" := g]
  }

  /** Reads the kind and subject back out of session metadata, as a later consumer would. */
  function DecodeMetadata(m: map<string, string>): Option<Subject> {
    if "type" !in m then None
    else if m["type"] == KindName(PublishFee) && "projectId" in m then Some(Subject(PublishFee, m["projectId"]))
    else if m["type"] == KindName(SupportContribution) && "giftItemId" in m then
      Some(Subject(SupportContribution, m["giftItemId"]))
    else None
  }

  /** The session-creation request the handler sends for a validated order. */
  function SessionParams(o: Order, cfg: Config): (p: CheckoutParams)
    ensures o.PublishOrder? ==> p.lineItem == PriceRef(cfg.publishFeePriceId)
    ensures o.SupportOrder? ==> p.lineItem.AdHocPrice? && p.lineItem.currency == "jpy"
    ensures o.SupportOrder? ==> p.lineItem.AdHocPrice? && p.lineItem.unitAmount == o.amount
    ensures DecodeMetadata(p.metadata) == Some(OrderSubject(o))
  {
    match o
    case PublishOrder(pid) =>
      CheckoutParams(
        PriceRef(cfg.publishFeePriceId),
        cfg.baseUrl + "/dashboard/projects/" + pid + "?publish=success&session_id={CHECKOUT_SESSION_ID}",
        cfg.baseUrl + "/dashboard/projects/" + pid + "?publish=cancel",
        Metadata(o))
    case SupportOrder(_, amount) =>
      CheckoutParams(
        AdHocPrice("jpy", "ギフト支援", amount),
        cfg.baseUrl + "/support/success?session_id={CHECKOUT_SESSION_ID}",
        cfg.baseUrl + "/support/cancel",
        Metadata(o))
  }

  /** The row recorded for an order once the provider has issued session `sid`. */
  function OrderRow(o: Order, sid: string): (r: Row)
    ensures WellFormed(r)
    ensures r.status == Pending && r.stripeSessionId == sid
    ensures r.kind == OrderKind(o) && r.amount == OrderAmount(o)
    ensures o.PublishOrder? ==> r.amount == 3000 && r.projectId == Some(o.projectId)
    ensures o.SupportOrder? ==> r.amount == o.amount && r.giftItemId == Some(o.giftItemId)
  {
    match o
    case PublishOrder(pid) => Row(PublishFeeAmount, sid, Pending, PublishFee, Some(pid), None, None, None)
    case SupportOrder(g, amount) => Row(amount, sid, Pending, SupportContribution, None, Some(g), None, None)
  }

  /**
   * The handler. `body` is `None` when the request body is not valid JSON or is `null`; `create`
   * is the provider's session creation (`None` when it throws); `insertFault` says
   * whether the store rejects the insert. `sent` is the request made to the provider,
   * `None` when the provider was not called.
   */
  method Handle(db: Table, body: Option<CheckoutBody>, cfg: Config,
                create: CheckoutParams -> Option<ProviderSession>, insertFault: bool)
    returns (resp: Response, sent: Option<CheckoutParams>)
    modifies db
    ensures body.None? ==> resp == InternalError && sent == None && db.rows == old(db.rows)
    ensures body.Some? && Validate(body.value).Failure? ==>
      && resp == Response(400, Error(Validate(body.value).error))
      && sent == None
      && db.rows == old(db.rows)
    ensures body.Some? && Validate(body.value).Success? ==>
      var o := Validate(body.value).value;
      var p := SessionParams(o, cfg);
      && sent == Some(p)
      && match create(p)
         case None => resp == InternalError && db.rows == old(db.rows)
         case Some(s) =>
           if insertFault then resp == Response(500, Error("DB insert failed")) && db.rows == old(db.rows)
           else resp == Response(200, Url(s.url)) && db.rows == old(db.rows) + [OrderRow(o, s.id)]
    ensures old(db.Valid()) ==> db.Valid()
  {
    if body.None? {
      return InternalError, None;
    }
    var v := Validate(body.value);
    if v.Failure? {
      return Response(400, Error(v.error)), None;
    }
    var o := v.value;
    var p := SessionParams(o, cfg);
    sent := Some(p);
    var session := create(p);
    if session.None? {
      resp := InternalError;
      return;
    }
    var ok := db.Insert(OrderRow(o, session.value.id), insertFault);
    if !ok {
      resp := Response(500, Error("DB insert failed"));
      return;
    }
    resp := Response(200, Url(session.value.url));
  }
}
