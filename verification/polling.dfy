/**
 The `/latest-payment` endpoint polled by the coin machine: a read of the
 oldest row still awaiting dispense. The query orders by creation time
 only, so among rows created at the same instant any one may be returned.
 */
module Polling {
  import opened Wrappers
  import opened Transactions
  import opened Webhook

  /** `{paid: false}`, or `{paid: true}` together with the row's columns. */
  datatype PollReply = Unpaid | Paid(txn: Txn)

  /** `t` is a row of `s` awaiting dispense, and no such row is older. */
  ghost predicate IsOldestAwaiting(s: Store, t: Txn)
  {
    && t in s.Values
    && AwaitingDispense(t)
    && forall u :: u in s.Values && AwaitingDispense(u) ==> t.createdAt <= u.createdAt
  }

  /** The polling query: filter on status and `dispensed`, order by
      creation time ascending, keep the first row. */
  method LatestPayment(s: Store) returns (r: PollReply)
    ensures r.Unpaid? <==> forall t :: t in s.Values ==> !AwaitingDispense(t)
    ensures r.Paid? ==> IsOldestAwaiting(s, r.txn)
  {
    var unseen := s.Values;
    var oldest: Option<Txn> := None;
    while unseen != {}
      invariant unseen <= s.Values
      invariant oldest.Some? ==> oldest.value in s.Values && AwaitingDispense(oldest.value)
      invariant forall u :: u in s.Values - unseen && AwaitingDispense(u) ==>
                  oldest.Some? && oldest.value.createdAt <= u.createdAt
      decreases unseen
    {
      var t :| t in unseen;
      if AwaitingDispense(t) && (oldest.None? || t.createdAt < oldest.value.createdAt) {
        oldest := Some(t);
      }
      unseen := unseen - {t};
    }
    match oldest
    case None => r := Unpaid;
    case Some(t) => r := Paid(t);
  }

  /** When creation times are distinct, the oldest awaiting row is unique,
      so the poll reply is determined. */
  lemma OldestAwaitingUnique(s: Store, t1: Txn, t2: Txn)
    requires forall k1, k2 :: k1 in s && k2 in s && k1 != k2 ==> s[k1].createdAt != s[k2].createdAt
    requires IsOldestAwaiting(s, t1) && IsOldestAwaiting(s, t2)
    ensures t1 == t2
  {
    var k1 :| k1 in s && s[k1] == t1;
    var k2 :| k2 in s && s[k2] == t2;
    assert t1.createdAt == t2.createdAt;
  }

  /** A success callback reaching a store in which nothing awaits dispense
      makes its own row the one the machine is served next. */
  lemma FirstCaptureIsServedNext(s: Store, p: Payload, now: int)
    requires forall t :: t in s.Values ==> !AwaitingDispense(t)
    requires Classify(p).Capture?
    ensures var s' := Ingest(s, p, now);
            forall t :: IsOldestAwaiting(s', t) <==> t == s'[Classify(p).txnid]
  {
    var s' := Ingest(s, p, now);
    var txnid := Classify(p).txnid;
    forall u | u in s'.Values && AwaitingDispense(u)
      ensures u == s'[txnid]
    {
      var k :| k in s' && s'[k] == u;
      assert k == txnid;
    }
    assert s'[txnid] in s'.Values;
  }

  /** A success callback followed by a poll, on a store with nothing
      awaiting dispense: the machine is told about exactly that payment. */
  method CaptureThenPoll(s: Store, p: Payload, now: int) returns (r: PollReply)
    requires forall t :: t in s.Values ==> !AwaitingDispense(t)
    requires Classify(p).Capture?
    ensures r.Paid? && r.txn.txnid == Classify(p).txnid && r.txn.amount == Classify(p).amount
    ensures r.txn.status == Captured && !r.txn.dispensed && r.txn.dispensedCount == 0
  {
    var s' := Ingest(s, p, now);
    FirstCaptureIsServedNext(s, p, now);
    assert s'[Classify(p).txnid] in s'.Values;
    r := LatestPayment(s');
  }

  /** A success callback followed by a poll, whatever else is queued: the
      machine is served some payment, and none created later than the
      captured row. */
  method CaptureThenPollQueued(s: Store, p: Payload, now: int) returns (r: PollReply)
    requires Classify(p).Capture?
    ensures r.Paid?
    ensures r.txn.createdAt <= Ingest(s, p, now)[Classify(p).txnid].createdAt
  {
    var s' := Ingest(s, p, now);
    assert s'[Classify(p).txnid] in s'.Values;
    r := LatestPayment(s');
  }

  /** Two first-time captures of different orders, processed at clock
      readings c1 < c2: the row of the first to arrive is created earlier,
      and on a store with nothing else awaiting it is the one served next,
      while the second is not. Arrival order therefore decides service
      order. */
  lemma ArrivalOrderDecidesService(s: Store, p: Payload, q: Payload, c1: int, c2: int)
    requires Classify(p).Capture? && Classify(q).Capture?
    requires Classify(p).txnid != Classify(q).txnid
    requires Classify(p).txnid !in s && Classify(q).txnid !in s
    requires c1 < c2
    ensures var s2 := Ingest(Ingest(s, p, c1), q, c2);
            s2[Classify(p).txnid].createdAt == c1 && s2[Classify(q).txnid].createdAt == c2
    ensures var s2 := Ingest(Ingest(s, p, c1), q, c2);
            (forall t :: t in s.Values ==> !AwaitingDispense(t)) ==>
              IsOldestAwaiting(s2, s2[Classify(p).txnid]) && !IsOldestAwaiting(s2, s2[Classify(q).txnid])
  {
    var s1 := Ingest(s, p, c1);
    var s2 := Ingest(s1, q, c2);
    var a := Classify(p).txnid;
    var b := Classify(q).txnid;
    assert s2[a] == s1[a];
    assert s2[a] in s2.Values && s2[b] in s2.Values;
    if forall t :: t in s.Values ==> !AwaitingDispense(t) {
      forall u | u in s2.Values && AwaitingDispense(u)
        ensures s2[a].createdAt <= u.createdAt
      {
        var k :| k in s2 && s2[k] == u;
        assert k == a || k == b;
      }
    }
  }
}
