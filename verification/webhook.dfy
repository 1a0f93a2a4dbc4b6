/**
 The `/cashfree-webhook` endpoint: a provider callback is either skipped as
 malformed, ignored as an uninteresting event, or turned into the captured
 upsert of its order. The HTTP acknowledgement is sent before any of this
 and does not depend on it.
 */
module Webhook {
  import opened Wrappers
  import opened AmountPolicy
  import opened Transactions

  const PaymentSuccess := "PAYMENT_SUCCESS_WEBHOOK"

  /** `data.order`: the provider's echo of the order, with its amount
      already rounded to a whole number. */
  datatype OrderInfo = OrderInfo(orderId: string, orderAmount: int)

  /** `data`, whose `order` member may be absent. */
  datatype EventData = EventData(order: Option<OrderInfo>)

  /** The callback body: an event type and a data object, each possibly absent. */
  datatype Payload = Payload(eventType: Option<string>, data: Option<EventData>)

  /** What the handler decides to do with a payload. */
  datatype Action = SkipMalformed | IgnoreEvent | Capture(txnid: string, amount: int)

  /** A payload whose `data` or `data.order` is missing. */
  predicate Malformed(p: Payload)
  {
    p.data.None? || p.data.value.order.None?
  }

  /** The handler's decision, checked in the handler's order: shape first,
      then the event type. */
  function Classify(p: Payload): (a: Action)
    ensures a.SkipMalformed? <==> Malformed(p)
    ensures a.IgnoreEvent? <==> !Malformed(p) && p.eventType != Some(PaymentSuccess)
    ensures a.Capture? ==>
      a.txnid == p.data.value.order.value.orderId && a.amount == p.data.value.order.value.orderAmount
  {
    match p.data
    case None => SkipMalformed
    case Some(data) =>
      match data.order
      case None => SkipMalformed
      case Some(order) =>
        if p.eventType == Some(PaymentSuccess) then Capture(order.orderId, order.orderAmount)
        else IgnoreEvent
  }

  /** The store after the handler has processed `p`; `now` is the database
      clock, used only if the upsert inserts a new row. */
  function Ingest(s: Store, p: Payload, now: int): (s': Store)
    ensures Malformed(p) ==> s' == s
    ensures p.eventType != Some(PaymentSuccess) ==> s' == s
    ensures Classify(p).Capture? ==>
      var txnid := Classify(p).txnid;
      && s'.Keys == s.Keys + {txnid}
      && (forall k :: k in s && k != txnid ==> s'[k] == s[k])
      && s'[txnid] == Txn(txnid, Classify(p).amount, Captured, false, 0, CashfreeProvider,
                          if txnid in s then s[txnid].createdAt else now)
  {
    match Classify(p)
    case Capture(txnid, amount) => UpsertCaptured(s, txnid, amount, now)
    case _ => s
  }

  /** The handler keeps every row filed under its own `txnid`. */
  lemma IngestKeepsWellKeyed(s: Store, p: Payload, now: int)
    requires WellKeyed(s)
    ensures WellKeyed(Ingest(s, p, now))
  {
    if Classify(p).Capture? {
      UpsertKeepsWellKeyed(s, Classify(p).txnid, Classify(p).amount, now);
    }
  }

  /** Redelivery of the same callback, at any later time, leaves the store
      as the first delivery left it. */
  lemma IngestIdempotent(s: Store, p: Payload, now: int, later: int)
    ensures Ingest(Ingest(s, p, now), p, later) == Ingest(s, p, now)
  {
    if Classify(p).Capture? {
      UpsertIdempotent(s, Classify(p).txnid, Classify(p).amount, now, later);
    }
  }

  /** Two success callbacks for the same order: the later one's amount
      stands, and the row keeps the creation time of the first. */
  lemma IngestLastCaptureWins(s: Store, p: Payload, q: Payload, n1: int, n2: int)
    requires Classify(p).Capture? && Classify(q).Capture?
    requires Classify(p).txnid == Classify(q).txnid
    ensures Ingest(Ingest(s, p, n1), q, n2) == Ingest(s, q, n1)
  {
    LastUpsertWins(s, Classify(p).txnid, Classify(p).amount, Classify(q).amount, n1, n2);
  }

  /** With each callback's insertion time fixed, callbacks that do not both
      capture the same order commute. The clock reading travels with the
      callback: when the clock is read on arrival instead, swapping two
      first-time captures swaps their creation times (see
      `Polling.ArrivalOrderDecidesService`). */
  lemma IngestCommutes(s: Store, p: Payload, q: Payload, n1: int, n2: int)
    requires Classify(p).Capture? && Classify(q).Capture? ==> Classify(p).txnid != Classify(q).txnid
    ensures Ingest(Ingest(s, p, n1), q, n2) == Ingest(Ingest(s, q, n2), p, n1)
  {
    if Classify(p).Capture? && Classify(q).Capture? {
      UpsertsCommute(s, Classify(p).txnid, Classify(p).amount, n1, Classify(q).txnid, Classify(q).amount, n2);
    }
  }

  /** A success callback puts its order in the coin machine's queue, even
      when the stored row had already been dispensed: the upsert resets
      `dispensed` and `dispensed_count`, so a late redelivery re-arms it. */
  lemma CaptureRequeuesEvenAfterDispense(s: Store, p: Payload, now: int)
    requires Classify(p).Capture?
    requires Classify(p).txnid in s && s[Classify(p).txnid].dispensed
    ensures !AwaitingDispense(s[Classify(p).txnid])
    ensures AwaitingDispense(Ingest(s, p, now)[Classify(p).txnid])
    ensures Ingest(s, p, now)[Classify(p).txnid].dispensedCount == 0
  {
  }

  /** The handler does not apply the amount policy: an out-of-policy
      amount reported by the provider is stored as it is. */
  lemma CapturedAmountIsNotPolicyChecked()
    ensures var p := Payload(Some(PaymentSuccess), Some(EventData(Some(OrderInfo("ORD_1", MinAmount - 1)))));
            && !IsValidAmount(Whole(Classify(p).amount))
            && Ingest(map[], p, 0)["ORD_1"].amount == MinAmount - 1
  {
  }
}
