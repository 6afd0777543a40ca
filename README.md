# Payment-session lifecycle of the wedding gift registry

This project models the two Stripe route handlers of the gift-registry web application
and the one table they share, `payment_sessions`.

- The **checkout initiator** (`POST /api/stripe/checkout`) dispatches on the request's
  `type`. A `"publish_fee"` request needs a `projectId` and is charged the fixed fee of
  3000 yen. Any other type, absent included, is a gift contribution and needs a
  `giftItemId` and a positive `amount`. A valid request asks the provider for a hosted
  checkout session, then inserts one `pending` row keyed by the provider's session id
  and returns the session URL.
- The **webhook reconciler** (`POST /api/stripe/webhook`) checks that the signature
  header is present, that the webhook secret is configured, and that the signature
  verifies. It acts only on a `checkout.session.completed` event whose payment status
  is `paid`. It normalises the payment intent to an id and runs a conditional update:
  rows with that session id that are still `pending` become `paid`, with the intent id
  and a completion time. Every path past verification answers 200 `{received: true}`,
  except a store error, which answers 500.

Files:

- `wrappers.dfy` holds `Option` and `Result`.
- `http.dfy` holds the response datatype and JavaScript truthiness of optional strings.
- `payment_sessions.dfy` holds the row type and the shape both handlers keep
  (`WellFormed`). It also holds the conditional update as a reference function,
  `ConditionalUpdate`, with its lemmas, and the `Table` class. `Table.MarkPaid` scans
  the rows in a loop and is proved equal to `ConditionalUpdate`.
- `checkout.dfy` holds request validation, the session-creation request, the recorded
  row and the handler.
- `webhook.dfy` holds payment-intent normalisation, event dispatch and the handler.
- `scenarios.dfy` holds end-to-end runs over a fresh table with fixed stand-ins for the
  provider.

External collaborators become parameters of the handlers:

- The store client is the `Table` passed in. Whether the store rejects an insert or an
  update is a `bool` input (`insertFault`, `updateFault`).
- Provider session creation is a function `create` from request to
  `Option<ProviderSession>`. `None` stands for a thrown error.
- Signature verification (`constructEvent`) is a function `verify` from body, signature
  and secret to `Option<Event>`. `None` stands for a thrown error.
- The clock is the `now` string.
- The environment is a `Config` value and the optional `secret`.
- `body == None` stands for a request body that is not valid JSON or is `null`. Both
  throw before validation. Any other JSON value that is not an object (a number, string,
  boolean or array) has none of the fields, so it is `CheckoutBody(None, None, None, None)`.
  It takes the gift path and is answered 400.

The handlers write only two kinds, `publish_fee` and `support_contribution`. The
subject goes in `project_id` for a publish fee or in `gift_item_id` for a contribution.

## Model

| member | source | states |
|---|---|---|
| `PaymentSessions.ConditionalUpdate` | app/api/stripe/webhook/route.ts:65-74 | The conditional update keeps the number of rows. Its per-row meaning is `ConditionalUpdateAt`. |
| `PaymentSessions.ConditionalUpdateAt` | app/api/stripe/webhook/route.ts:65-74 | Row k after the update is row k settled (`status = paid`, the intent id, `completed_at`) when it has the session id and is `pending`. Otherwise it is row k unchanged. |
| `PaymentSessions.UpdateFrame` | app/api/stripe/webhook/route.ts:65-74 | Every row only advances from `pending` to `paid`, and only the status, intent and completion columns change. Session ids are never changed. Rows of other sessions and rows already paid are unchanged. Each matching row gets exactly the given intent id and timestamp. |
| `PaymentSessions.UpdateIdempotent` | app/api/stripe/webhook/route.ts:65-93 | A second update for the same session changes nothing, whatever intent id and timestamp the replay carries. |
| `PaymentSessions.UpdateClearsPending` | app/api/stripe/webhook/route.ts:72-73 | After the update, no row of that session is still `pending`. |
| `PaymentSessions.UpdateNoOpIff` | app/api/stripe/webhook/route.ts:84-91 | The update leaves the table unchanged if and only if no row matches the filter (already processed, or an unknown session). |
| `PaymentSessions.UpdatePaidCount` | app/api/stripe/webhook/route.ts:65-74 | The number of paid rows grows by exactly the number of matching rows, so no paid row reverts. |
| `PaymentSessions.UpdatePreservesWellFormed` | app/api/stripe/webhook/route.ts:67-71 | The update keeps every row in the shape the handlers write. |
| `PaymentSessions.Table.Insert` | app/api/stripe/checkout/route.ts:50-66 | The insert appends the row, or on a store error leaves the table as it was and reports failure. |
| `PaymentSessions.Table.MarkPaid` | app/api/stripe/webhook/route.ts:65-82 | On a store error nothing changes and no count is returned. Otherwise the table becomes `ConditionalUpdate` of the old table, and the result is the number of rows the filter selected. |
| `Checkout.Validate` | app/api/stripe/checkout/route.ts:18-82 | A `publish_fee` request is accepted if and only if `projectId` is a non-empty string, else "Missing projectId". Any other type is accepted if and only if `giftItemId` is a non-empty string and `amount` is present and positive, else "Invalid gift item or amount". So zero and negative amounts are always rejected. |
| `Checkout.SessionParams` | app/api/stripe/checkout/route.ts:32-102 | The publish fee uses the configured price reference. A contribution uses an ad-hoc `jpy` price whose unit amount is the client's amount. The metadata decodes back to the order's kind and subject id. |
| `Checkout.OrderRow` | app/api/stripe/checkout/route.ts:50-112 | The recorded row is `pending`, is keyed by the provider's session id and is well formed. A publish fee records 3000 and `project_id`. A contribution records the client's amount and `gift_item_id`. |
| `Checkout.Handle` | app/api/stripe/checkout/route.ts:11-127 | A body that is not valid JSON or is `null` gives 500. A validation failure gives 400 with its message, and the provider is not called and no row is written. Otherwise the provider is asked for `SessionParams`. A provider failure gives 500 and no row. An insert failure gives 500 "DB insert failed". Success gives 200 with the session URL and appends exactly `OrderRow` to the unchanged existing rows. The table stays well formed. |
| `Webhook.NormalizeIntent` | app/api/stripe/webhook/route.ts:60-63 | A string intent maps to itself and an expanded object maps to its id. The result is null exactly when the intent is null. |
| `Webhook.Dispatch` | app/api/stripe/webhook/route.ts:43-63 | An event leads to an update if and only if it is `checkout.session.completed` with payment status `paid`. The update then targets the event's session id with the normalised intent. |
| `Webhook.Handle` | app/api/stripe/webhook/route.ts:12-102 | A missing or empty signature header gives 400, checked before the secret. A missing secret gives 500 and a failed verification gives 400, both with no state change. An event that is only acknowledged gives 200 `{received: true}` with no change. A settling event gives 500 only when the store reports an error, and otherwise gives 200 with the table equal to `ConditionalUpdate` of the old one. The table stays well formed. |
| `Scenarios.PublishFeeLifecycle` | app/api/stripe/checkout/route.ts:18-68 | A publish fee for `gl_1` records a pending row of 3000 under `cs_test_1`. The paid event for `cs_test_1` turns that row into `paid` with intent `pi_1` and its completion time. |
| `Scenarios.DuplicateDelivery` | app/api/stripe/webhook/route.ts:65-101 | A contribution row recorded through `Insert` is settled by a paid event. A second delivery of the same event is also acknowledged, and the row's state after it equals its state after the first delivery. |
| `Scenarios.ContributionCheckout` | app/api/stripe/checkout/route.ts:74-119 | A contribution of 5000 to `gi_1` sends an ad-hoc `jpy` price of 5000 and records one pending row with that amount and item. |
| `Scenarios.RejectedAmounts` | app/api/stripe/checkout/route.ts:77-82 | Amounts 0 and -500 are answered 400 "Invalid gift item or amount". The provider is not called and no row is recorded. |
| `Scenarios.TamperedWebhook` | app/api/stripe/webhook/route.ts:36-41 | A webhook with a wrong signature is answered 400 "Invalid signature" and the recorded session stays `pending`. |
| `Scenarios.EarlyWebhook` | app/api/stripe/webhook/route.ts:84-101 | A paid event for a session the table does not hold yet is acknowledged with 200. The pending row of another session stays unchanged. |

## Left out

- Stripe's signing scheme and session creation are foreign library calls. They are the `verify` and `create` parameters; only their success or failure and their results are modelled.
- JSON and body parsing, environment variables and HTTP framing are inputs: `body`, `rawBody`, `Config`, `secret`, and the `Response` datatype. A failure of `req.text()` in the webhook, which happens outside any guard, is not modelled.
- Request fields are typed: `type`, `projectId` and `giftItemId` are optional strings and `amount` is an optional integer. JSON values of other types (a numeric id, a string or fractional amount, `NaN`) and JavaScript's coercions on them are not modelled.
- The real clock (`new Date().toISOString()`) is the `now` parameter.
- Console logging is not modelled. It has no effect on the table or the response.
- Concurrent duplicate deliveries are not modelled. The store's conditional update is taken as atomic, so deliveries are modelled one after another.
- The store-generated `id`, `created_at` and currency columns are not written by the handlers and are not modelled. No uniqueness constraint on `stripe_session_id` is modelled either; the handlers do not check one.
- The link between the registered publish-fee price and the amount 3000 lies at the provider. The model records the constant 3000, as the handler does.
- `Checkout.SessionParams`: the constant `mode: "payment"` and quantity 1 are not fields of the model.
- `Webhook.Handle`: the event's data object is assumed to be a checkout session, as the handler's cast assumes. For other event types it is never read.
- `Webhook.NormalizeIntent`: an expanded payment-intent object whose `id` is missing is not modelled, because provider objects always carry an id.
- The provider's hosted URL is a plain string. A `null` `session.url` is not modelled.
