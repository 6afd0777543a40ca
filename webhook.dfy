/**
 * The webhook reconciler (`POST /api/stripe/webhook`): guard the request, verify the
 * provider's signature, and on a paid `checkout.session.completed` event move the
 * session's `pending` rows to `paid`.
 */
module Webhook {
  import opened Wrappers
  import opened Http
  import opened PaymentSessions

  /** `session.payment_intent`: an id, an expanded object, or null. */
  datatype PaymentIntentField =
    | IntentId(id: string)
    | IntentObject(objectId: string)
    | NoIntent

  /** The checkout session carried by the event. */
  datatype CheckoutSession = CheckoutSession(id: string, paymentStatus: string, paymentIntent: PaymentIntentField)

  /**
   * A verified event. For event types other than a completed checkout, the session
   * fields are never read.
   */
  datatype Event = Event(eventType: string, session: CheckoutSession)

  /** What the handler does with a verified event. */
  datatype Action =
    | Acknowledge
    | SettleSession(sessionId: string, intent: Option<string>)

  const CompletedEvent := "checkout.session.completed"

  const Acknowledged := Response(200, Received)

  /** The payment-intent id to record: a string is kept, an object yields its id, null yields null. */
  function NormalizeIntent(p: PaymentIntentField): (r: Option<string>)
    ensures r.None? <==> p.NoIntent?
    ensures p.IntentId? ==> r == Some(p.id)
    ensures p.IntentObject? ==> r == Some(p.objectId)
  {
    match p
    case IntentId(s) => Some(s)
    case IntentObject(i) => Some(i)
    case NoIntent => None
  }

  /**
   * Only a completed checkout whose payment status is `paid` leads to an update, of that
   * session with its normalised intent id; every other event is only acknowledged.
   */
  function Dispatch(e: Event): (a: Action)
    ensures a.SettleSession? <==> e.eventType == CompletedEvent && e.session.paymentStatus == "paid"
    ensures a.SettleSession? ==>
      a.sessionId == e.session.id && a.intent == NormalizeIntent(e.session.paymentIntent)
  {
    if e.eventType != CompletedEvent then Acknowledge
    else if e.session.paymentStatus != "paid" then Acknowledge
    else SettleSession(e.session.id, NormalizeIntent(e.session.paymentIntent))
  }

  /**
   * The handler. `signature` is the `stripe-signature` header, `secret` the configured
   * `STRIPE_WEBHOOK_SECRET`, `verify` the provider's `constructEvent` (`None` when it
   * throws), `now` the completion timestamp, `updateFault` whether the store reports an
   * error for the update.
   */
  method Handle(db: Table, signature: Option<string>, rawBody: string, secret: Option<string>,
                verify: (string, string, string) -> Option<Event>, now: string, updateFault: bool)
    returns (resp: Response)
    modifies db
    ensures !Truthy(signature) ==>
      resp == Response(400, Error("Missing stripe-signature header")) && db.rows == old(db.rows)
    ensures Truthy(signature) && !Truthy(secret) ==>
      resp == Response(500, Error("Webhook secret is not configured")) && db.rows == old(db.rows)
    ensures Truthy(signature) && Truthy(secret) && verify(rawBody, signature.value, secret.value).None? ==>
      resp == Response(400, Error("Invalid signature")) && db.rows == old(db.rows)
    ensures Truthy(signature) && Truthy(secret) && verify(rawBody, signature.value, secret.value).Some? ==>
      match Dispatch(verify(rawBody, signature.value, secret.value).value)
      case Acknowledge => resp == Acknowledged && db.rows == old(db.rows)
      case SettleSession(sid, intent) =>
        if updateFault then
          resp == Response(500, Error("Failed to update payment session")) && db.rows == old(db.rows)
        else
          resp == Acknowledged && db.rows == ConditionalUpdate(old(db.rows), sid, intent, now)
    ensures old(db.Valid()) ==> db.Valid()
  {
    if !Truthy(signature) {
      return Response(400, Error("Missing stripe-signature header"));
    }
    if !Truthy(secret) {
      return Response(500, Error("Webhook secret is not configured"));
    }
    var event := verify(rawBody, signature.value, secret.value);
    if event.None? {
      return Response(400, Error("Invalid signature"));
    }
    match Dispatch(event.value) {
      case Acknowledge =>
      case SettleSession(sid, intent) =>
        var updated := db.MarkPaid(sid, intent, now, updateFault);
        if updated.None? {
          return Response(500, Error("Failed to update payment session"));
        }
    }
    resp := Acknowledged;
  }
}
