/**
 * End-to-end runs of the two handlers over a fresh table, with the provider's session
 * creation and signature verification replaced by fixed stand-ins.
 */
module Scenarios {
  import opened Wrappers
  import opened Http
  import opened PaymentSessions
  import Checkout
  import Webhook

  const Cfg := Checkout.Config("https://app.example", "price_publish_fee")

  const HostedUrl := "https://checkout.example/pay"

  /** A provider that always issues session `sid`. */
  function IssueSession(sid: string): Checkout.CheckoutParams -> Option<Checkout.ProviderSession> {
    (p: Checkout.CheckoutParams) => Some(Checkout.ProviderSession(sid, HostedUrl))
  }

  /** A verifier that accepts exactly the signature `good` and then yields `e`. */
  function SignedWith(good: string, e: Webhook.Event): (string, string, string) -> Option<Webhook.Event> {
    (body: string, sig: string, secret: string) => if sig == good then Some(e) else None
  }

  function PaidEvent(sid: string, intent: string): Webhook.Event {
    Webhook.Event(Webhook.CompletedEvent, Webhook.CheckoutSession(sid, "paid", Webhook.IntentId(intent)))
  }

  /**
   * A publish fee for gift list `gl_1` is recorded as pending under session `cs_test_1`,
   * and the paid event for that session settles it with intent `pi_1`.
   */
  method PublishFeeLifecycle() returns (created: Response, settled: Response, pending: seq<Row>, final: seq<Row>)
    ensures created == Response(200, Url(HostedUrl))
    ensures pending == [Row(3000, "cs_test_1", Pending, PublishFee, Some("gl_1"), None, None, None)]
    ensures settled == Response(200, Received)
    ensures final == [Row(3000, "cs_test_1", Paid, PublishFee, Some("gl_1"), None, Some("pi_1"), Some("t1"))]
  {
    var db := new Table();
    var body := Checkout.CheckoutBody(Some("publish_fee"), Some("gl_1"), None, None);
    var sent;
    created, sent := Checkout.Handle(db, Some(body), Cfg, IssueSession("cs_test_1"), false);
    pending := db.rows;
    var event := PaidEvent("cs_test_1", "pi_1");
    assert Webhook.Dispatch(event) == Webhook.SettleSession("cs_test_1", Some("pi_1"));
    settled := Webhook.Handle(db, Some("sig"), "{}", Some("whsec"), SignedWith("sig", event), "t1", false);
    assert pending[..0] == [];
    final := db.rows;
  }

  /**
   * Delivering the same paid event twice: the first delivery settles the pending row, the
   * second matches no pending row, is acknowledged, and leaves the row as the first left it.
   */
  method DuplicateDelivery() returns (first: Response, second: Response, afterFirst: seq<Row>, afterSecond: seq<Row>)
    ensures first == Response(200, Received) && second == Response(200, Received)
    ensures afterFirst == afterSecond
    ensures afterSecond == [Row(5000, "cs_test_2", Paid, SupportContribution, None, Some("gi_1"), Some("pi_2"), Some("t1"))]
  {
    var db := new Table();
    var row := Row(5000, "cs_test_2", Pending, SupportContribution, None, Some("gi_1"), None, None);
    var inserted := db.Insert(row, false);
    var verify := SignedWith("sig", PaidEvent("cs_test_2", "pi_2"));
    first := Webhook.Handle(db, Some("sig"), "{}", Some("whsec"), verify, "t1", false);
    assert [row][..0] == [];
    afterFirst := db.rows;
    UpdateIdempotent([row], "cs_test_2", Some("pi_2"), "t1", Some("pi_2"), "t2");
    second := Webhook.Handle(db, Some("sig"), "{}", Some("whsec"), verify, "t2", false);
    afterSecond := db.rows;
  }

  /** A contribution of 5000 yen to gift item `gi_1` is recorded with that amount and item. */
  method ContributionCheckout() returns (created: Response, sent: Option<Checkout.CheckoutParams>, rows: seq<Row>)
    ensures created == Response(200, Url(HostedUrl))
    ensures sent.Some? && sent.value.lineItem == Checkout.AdHocPrice("jpy", "ギフト支援", 5000)
    ensures rows == [Row(5000, "cs_test_2", Pending, SupportContribution, None, Some("gi_1"), None, None)]
  {
    var db := new Table();
    var body := Checkout.CheckoutBody(Some("support"), None, Some("gi_1"), Some(5000));
    created, sent := Checkout.Handle(db, Some(body), Cfg, IssueSession("cs_test_2"), false);
    rows := db.rows;
  }

  /** Zero and negative contributions are refused before the provider is called. */
  method RejectedAmounts() returns (zero: Response, negative: Response, sentZero: Option<Checkout.CheckoutParams>,
                                    sentNegative: Option<Checkout.CheckoutParams>, rows: seq<Row>)
    ensures zero == Response(400, Error("Invalid gift item or amount")) && sentZero == None
    ensures negative == Response(400, Error("Invalid gift item or amount")) && sentNegative == None
    ensures rows == []
  {
    var db := new Table();
    zero, sentZero := Checkout.Handle(db, Some(Checkout.CheckoutBody(None, None, Some("gi_1"), Some(0))),
                                      Cfg, IssueSession("cs_x"), false);
    negative, sentNegative := Checkout.Handle(db, Some(Checkout.CheckoutBody(None, None, Some("gi_1"), Some(-500))),
                                              Cfg, IssueSession("cs_y"), false);
    rows := db.rows;
  }

  /** A webhook with a wrong signature is refused and the recorded session stays pending. */
  method TamperedWebhook() returns (resp: Response, status: Status)
    ensures resp == Response(400, Error("Invalid signature"))
    ensures status == Pending
  {
    var db := new Table();
    var created, sent := Checkout.Handle(db, Some(Checkout.CheckoutBody(Some("publish_fee"), Some("gl_1"), None, None)),
                                         Cfg, IssueSession("cs_test_1"), false);
    var verify := SignedWith("sig", PaidEvent("cs_test_1", "pi_1"));
    resp := Webhook.Handle(db, Some("forged"), "{}", Some("whsec"), verify, "t1", false);
    status := db.rows[0].status;
  }

  /**
   * A paid event for a session the table does not hold yet (delivered before its row is
   * recorded) is acknowledged, and the pending row of another session is left as it was.
   */
  method EarlyWebhook() returns (resp: Response, rows: seq<Row>)
    ensures resp == Response(200, Received)
    ensures rows == [Row(3000, "cs_other", Pending, PublishFee, Some("gl_2"), None, None, None)]
  {
    var db := new Table();
    var other := Row(3000, "cs_other", Pending, PublishFee, Some("gl_2"), None, None, None);
    var inserted := db.Insert(other, false);
    var verify := SignedWith("sig", PaidEvent("cs_unknown", "pi_9"));
    assert [other][..0] == [];
    resp := Webhook.Handle(db, Some("sig"), "{}", Some("whsec"), verify, "t1", false);
    rows := db.rows;
  }
}
