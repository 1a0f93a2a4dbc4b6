# Coin machine payment backend — Dafny model

A model of the transaction-reconciliation core of the `smart-change-backend`
server, an Express service that sits between the Cashfree payment gateway
and a coin-dispensing machine. The core has three parts:

- **Amount policy** (`AmountPolicy`). `isValidAmount` accepts a JavaScript
  value when it is an integer between 10 and 101, both bounds included. It
  gates `/create-order` (`Orders`). A rejected amount is answered with a 400
  and the provider's order API is never called.
- **Webhook ingestion** (`Webhook`, over the store in `Transactions`). A
  Cashfree callback without `data` or `data.order` is skipped. So is any
  event other than `PAYMENT_SUCCESS_WEBHOOK`. A success event upserts the
  `transactions` row keyed by the order id. The upsert writes the amount,
  `status = "captured"`, `dispensed = false`, `dispensed_count = 0` and
  `provider = "cashfree"`. A new row takes the database clock as its
  `created_at`; an existing row keeps its own.
- **Polling** (`Polling`). `/latest-payment` returns the oldest row (by
  `created_at`) whose status is `captured` or `dispensing` and whose
  `dispensed` is false. If there is none, it answers `{paid: false}`.

The table is a `map<string, Txn>` keyed by `txnid`. The webhook is a pure
function from a store and a payload to a store. Polling is a method that
scans the store. It chooses freely among rows with equal creation times,
because the query gives no order on ties.

Behaviour of `server.js` a reader might not expect:

- `/create-order` writes nothing to the table. The first row for an order
  is the captured one the webhook inserts.
- The webhook does not apply the amount policy. An out-of-policy amount is
  stored as reported (`Webhook.CapturedAmountIsNotPolicyChecked`).
- A success callback overwrites the row unconditionally. A redelivery after
  the machine has finished therefore resets `dispensed` and
  `dispensed_count` and puts the payment back in the queue
  (`Webhook.CaptureRequeuesEvenAfterDispense`).
- `server.js` itself never sets status `dispensing` or `dispensed`, nor
  `dispensed = true`; whatever does is outside this model, which therefore
  treats stored rows as arbitrary.

## Model

| member | source | states |
|---|---|---|
| AmountPolicy.ValidAmountIsWholeInBand | server.js:27-29 | `AmountPolicy.IsValidAmount`, the model of `isValidAmount`, holds of an amount exactly when the amount is the JavaScript number of some integer n with 10 <= n <= 101; fractions, NaN, infinities and non-numbers are all refused |
| AmountPolicy.WholeAmountBounds | server.js:27-29 | on whole numbers the policy is the closed interval [10, 101]: 10 and 101 pass, 9 and 102 do not |
| AmountPolicy.NonIntegersRejected | server.js:27-29 | a number with a fractional part fails the policy, and so do non-finite numbers and values that are not numbers |
| Orders.CreateOrder | server.js:36-75 | no provider request is made iff the amount fails the policy, and then the reply is the 400 "Amount must be 10-101"; otherwise the request is exactly the given order id, the amount, INR, the fixed customer id and phone, and the webhook URL, the reply is 200 with the provider's link and the order id iff the provider issues a link, and 500 "Cashfree Order Failed" with the provider's error detail iff it fails |
| Orders.RejectedOrderIgnoresProvider | server.js:40-43 | for a rejected amount the exchange does not depend on the provider at all and is answered with 400 |
| Orders.OrderSucceedsIffValidAndLinked | server.js:40-63 | the reply status is 200 exactly when the amount is valid and the provider issued a link for the request sent |
| Transactions.UpsertCaptured | server.js:98-105 | the upsert adds the key if absent and touches no other row; the row at the key has the reported amount, status captured, not dispensed, count 0, provider cashfree, is awaiting dispense, and keeps a stored creation time or takes the clock when new |
| Transactions.UpsertKeepsWellKeyed | server.js:98-105 | if every row is filed under its own txnid before the upsert, this still holds after it |
| Transactions.UpsertIdempotent | server.js:98-105 | repeating the upsert for the same txnid and amount, at any later clock reading, leaves the store unchanged |
| Transactions.LastUpsertWins | server.js:98-105 | two upserts on one txnid equal a single upsert with the second amount and the first creation time |
| Transactions.UpsertsCommute | server.js:98-105 | upserts on different txnids, each keeping its own clock reading, give the same store in either order |
| Webhook.Classify | server.js:84-94 | a payload is skipped iff `data` or `data.order` is missing; it is ignored iff it is well formed and its type is not PAYMENT_SUCCESS_WEBHOOK; a capture takes the txnid and amount from `data.order` |
| Webhook.Ingest | server.js:84-112 | a malformed payload and a non-success event leave the store unchanged; a success event adds its txnid, leaves every other row unchanged, and sets the row to the captured record with the reported amount, keeping an existing creation time |
| Webhook.IngestKeepsWellKeyed | server.js:92-105 | processing any payload keeps every row filed under its own txnid |
| Webhook.IngestIdempotent | server.js:92-105 | delivering the same payload twice, at any two clock readings, gives the store of a single delivery |
| Webhook.IngestLastCaptureWins | server.js:92-105 | of two success callbacks for one order, the later amount stands and the first creation time is kept |
| Webhook.IngestCommutes | server.js:87-105 | with each callback's insertion time fixed, two payloads that do not both capture the same order give the same store in either order (the clock reading travels with the callback, not with the arrival position) |
| Webhook.CaptureRequeuesEvenAfterDispense | server.js:98-105 | a success callback for a row already marked dispensed resets its count to 0 and makes it awaiting dispense again |
| Webhook.CapturedAmountIsNotPolicyChecked | server.js:92-105 | a success callback reporting the out-of-policy amount 9 stores a row with amount 9 |
| Polling.LatestPayment | server.js:121-139 | with `Transactions.AwaitingDispense` as the model of the status-in and `dispensed = false` filter: the reply is `{paid: false}` iff no row of the store passes that filter; otherwise it returns a row that passes it, and no such row has an earlier creation time |
| Polling.OldestAwaitingUnique | server.js:126-127 | when rows have distinct creation times, at most one row is the oldest awaiting dispense, so the poll reply is determined |
| Polling.FirstCaptureIsServedNext | server.js:92-127 | after a success callback on a store with nothing awaiting dispense, the oldest awaiting row is exactly the captured one |
| Polling.CaptureThenPoll | server.js:92-139 | a success callback followed by a poll, on a store with nothing awaiting, answers paid with that txnid, amount, status captured, not dispensed and count 0 |
| Polling.CaptureThenPollQueued | server.js:92-139 | a success callback followed by a poll, whatever else is queued, answers paid, with a row created no later than the captured one |
| Polling.ArrivalOrderDecidesService | server.js:98-127 | two first-time captures of different orders at clock readings c1 < c2 get creation times c1 and c2; with nothing else awaiting, the first to arrive is the oldest awaiting row and the second is not |

## Left out

- Express routing, CORS, JSON parsing, the root health route and `app.listen`: these are transport only.
- The webhook's immediate `200 OK` reply: it is sent before processing and does not depend on the payload, so it is not modelled.
- The Cashfree HTTP call, its headers and credentials: the provider is a function parameter that returns either a link or an error detail.
- The `"ORD_" + Date.now()` order id: this is a clock, so the id is a parameter. The database's default `created_at` on insert is a parameter too.
- `Math.round(Number(...))` on the webhook amount: float and string parsing. The payload carries the amount as a whole number already.
- A payload whose `data.order` lacks `order_id`: the model requires the id to be present.
- Database errors on the upsert or the poll, including the 500 reply of `/latest-payment`: the store is in memory and cannot fail.
- Concurrency between handlers: every handler is modelled as one atomic step on the store.
- Logging and environment configuration.
- Columns of the table that the file never names: the row holds only the seven columns the file reads or writes.
