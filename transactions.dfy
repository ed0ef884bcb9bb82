/** A ledger record (`TransactionImpl`): id, sender, receiver and amount are
    fixed when it is created; only its status can be overwritten later. */
module Transactions {
  import opened Streams

  /** The transaction statuses the ledger filters on. */
  datatype Status = Failed | Aborted | Successful | Unauthorized

  class Transaction {
    const id: int
    var status: Status
    const from: string
    const to: string
    /** The amount in whole cents. */
    const amount: int

    constructor (id: int, status: Status, from: string, to: string, amount: int)
      ensures GetId() == id && GetStatus() == status && GetAmount() == amount
      ensures GetSender() == from && GetReceiver() == to
    {
      this.id := id;
      this.status := status;
      this.from := from;
      this.to := to;
      this.amount := amount;
    }

    function GetId(): int {
      id
    }

    function GetStatus(): Status
      reads this
    {
      status
    }

    function GetAmount(): int {
      amount
    }

    function GetSender(): string {
      from
    }

    function GetReceiver(): string {
      to
    }

    /** Overwrites the status. It may change the status field only; id,
        sender, receiver and amount are constants. */
    method SetTransactionStatus(transactionStatus: Status)
      modifies this`status
      ensures GetStatus() == transactionStatus
    {
      status := transactionStatus;
    }

    /** The natural order of `Comparable<TransactionImpl>`: every
        transaction compares as equal to every other. */
    function CompareTo(o: Transaction): int {
      0
    }
  }

  /** The natural order as a comparator. */
  function NaturalOrder(t1: Transaction, t2: Transaction): int {
    t1.CompareTo(t2)
  }

  /** Since all transactions tie under the natural order, sorting by it
      leaves any sequence of transactions as it is. */
  lemma {:induction false} SortByNaturalOrderKeepsOrder(ts: seq<Transaction>)
    ensures SortBy(ts, NaturalOrder) == ts
  {
    if ts != [] {
      SortByNaturalOrderKeepsOrder(ts[1..]);
      assert ts == [ts[0]] + ts[1..];
    }
  }

  /** The predicate `t -> t.getStatus().equals(status)`, read off the records
      of `ts` as they are now. */
  function HasStatus(ts: seq<Transaction>, status: Status): (p: Transaction -> bool)
    reads ts
    ensures forall t | t in ts :: p(t) <==> t.status == status
  {
    var current := map t | t in ts :: t.status;
    t => t in current && current[t] == status
  }
}
