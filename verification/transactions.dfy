/**
 The `transactions` table as an in-memory store keyed by `txnid`, and the
 one write the backend performs on it: an upsert that marks a transaction
 as paid and waiting for the coin machine.
 */
module Transactions {

  const Captured := "captured"
  const Dispensing := "dispensing"
  const CashfreeProvider := "cashfree"

  /** One row of the table. `status` is free text: other writers of the
      table may store any value there. `createdAt` is the row's creation
      timestamp, set by the database when the row is first inserted. */
  datatype Txn = Txn(
    txnid: string,
    amount: int,
    status: string,
    dispensed: bool,
    dispensedCount: int,
    provider: string,
    createdAt: int)

  /** The table, keyed by its unique `txnid` column. */
  type Store = map<string, Txn>

  /** Every row is filed under its own `txnid`. */
  ghost predicate WellKeyed(s: Store)
  {
    forall k :: k in s ==> s[k].txnid == k
  }

  /** A row the coin machine should still act on: paid or being dispensed,
      and not yet marked as dispensed. */
  predicate AwaitingDispense(t: Txn)
  {
    (t.status == Captured || t.status == Dispensing) && !t.dispensed
  }

  /** Upsert on conflict `txnid` of the captured row: the named columns are
      written whether or not the row exists; a new row takes `now` as its
      creation time, an existing row keeps its own. */
  function UpsertCaptured(s: Store, txnid: string, amount: int, now: int): (s': Store)
    ensures s'.Keys == s.Keys + {txnid}
    ensures forall k :: k in s && k != txnid ==> s'[k] == s[k]
    ensures s'[txnid].txnid == txnid && s'[txnid].amount == amount
    ensures s'[txnid].status == Captured && !s'[txnid].dispensed && s'[txnid].dispensedCount == 0
    ensures s'[txnid].provider == CashfreeProvider
    ensures txnid in s ==> s'[txnid].createdAt == s[txnid].createdAt
    ensures txnid !in s ==> s'[txnid].createdAt == now
    ensures AwaitingDispense(s'[txnid])
  {
    var createdAt := if txnid in s then s[txnid].createdAt else now;
    s[txnid := Txn(txnid, amount, Captured, false, 0, CashfreeProvider, createdAt)]
  }

  /** The upsert preserves the keying of the table. */
  lemma UpsertKeepsWellKeyed(s: Store, txnid: string, amount: int, now: int)
    requires WellKeyed(s)
    ensures WellKeyed(UpsertCaptured(s, txnid, amount, now))
  {
  }

  /** Repeating the upsert changes nothing, even at a later clock reading. */
  lemma UpsertIdempotent(s: Store, txnid: string, amount: int, now: int, later: int)
    ensures UpsertCaptured(UpsertCaptured(s, txnid, amount, now), txnid, amount, later)
         == UpsertCaptured(s, txnid, amount, now)
  {
  }

  /** Of two upserts on the same key, the second one's amount stands and
      the first one's creation time stays. */
  lemma LastUpsertWins(s: Store, txnid: string, a1: int, a2: int, n1: int, n2: int)
    ensures UpsertCaptured(UpsertCaptured(s, txnid, a1, n1), txnid, a2, n2)
         == UpsertCaptured(s, txnid, a2, n1)
  {
  }

  /** Upserts on different keys commute, each keeping its own clock reading. */
  lemma UpsertsCommute(s: Store, t1: string, a1: int, n1: int, t2: string, a2: int, n2: int)
    requires t1 != t2
    ensures UpsertCaptured(UpsertCaptured(s, t1, a1, n1), t2, a2, n2)
         == UpsertCaptured(UpsertCaptured(s, t2, a2, n2), t1, a1, n1)
  {
  }
}
