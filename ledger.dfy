/** The ledger (`ChainBlockImpl`): an insertion-ordered list of transactions
    that can grow, shrink and have a record's status changed in place, and
    that answers queries by filtering, sorting and collecting that list
    afresh on every call. */
module Ledger {
  import opened Outcomes
  import opened Comparisons
  import opened Streams
  import opened Transactions

  // The predicates the queries filter with.

  function HasId(id: int): Transaction -> bool {
    (t: Transaction) => t.id == id
  }

  function SentBy(sender: string): Transaction -> bool {
    (t: Transaction) => t.from == sender
  }

  function ReceivedBy(receiver: string): Transaction -> bool {
    (t: Transaction) => t.to == receiver
  }

  /** Status `status` and an amount of at most `amount`, read off the records
      of `ts` as they are now. */
  function HasStatusAndMaximumAmount(ts: seq<Transaction>, status: Status, amount: int): (p: Transaction -> bool)
    reads ts
    ensures forall t | t in ts :: p(t) <==> t.status == status && t.amount <= amount
  {
    var current := map t | t in ts :: t.status;
    t => t in current && current[t] == status && t.amount <= amount
  }

  /** Sent by `sender`, for strictly more than `amount`. */
  function SentByAbove(sender: string, amount: int): Transaction -> bool {
    (t: Transaction) => t.from == sender && t.amount > amount
  }

  /** Received by `receiver`, for an amount in the half-open range [lo, hi). */
  function ReceivedByInRange(receiver: string, lo: int, hi: int): Transaction -> bool {
    (t: Transaction) => t.to == receiver && t.amount >= lo && t.amount < hi
  }

  /** An amount in the closed range [lo, hi]. */
  function AmountInRange(lo: int, hi: int): Transaction -> bool {
    (t: Transaction) => t.amount >= lo && t.amount <= hi
  }

  // The comparators the queries sort with, as the source writes them.

  /** `Double.compare(t2.getAmount(), t1.getAmount())`: the larger amount
      comes first. */
  function AmountDescending(t1: Transaction, t2: Transaction): (r: int)
    ensures r <= 0 <==> t1.amount >= t2.amount
    ensures r == 0 <==> t1.amount == t2.amount
  {
    Compare(t2.amount, t1.amount)
  }

  /** Larger amount first and, among equal amounts, larger id first. */
  function AmountThenIdDescending(t1: Transaction, t2: Transaction): (r: int)
    ensures r <= 0 <==> t1.amount > t2.amount || (t1.amount == t2.amount && t1.id >= t2.id)
    ensures r == 0 <==> t1.amount == t2.amount && t1.id == t2.id
  {
    var result := Compare(t2.amount, t1.amount);
    if result == 0 then Compare(t2.id, t1.id) else result
  }

  /** Smaller amount first and, among equal amounts, smaller id first. */
  function AmountThenIdAscending(t1: Transaction, t2: Transaction): (r: int)
    ensures r <= 0 <==> t1.amount < t2.amount || (t1.amount == t2.amount && t1.id <= t2.id)
    ensures r == 0 <==> t1.amount == t2.amount && t1.id == t2.id
  {
    var result := Compare(t1.amount, t2.amount);
    if result == 0 then Compare(t1.id, t2.id) else result
  }

  // The orders the query results are in.

  ghost predicate AmountNonIncreasing(ts: seq<Transaction>) {
    forall i, j | 0 <= i < j < |ts| :: ts[i].amount >= ts[j].amount
  }

  ghost predicate AmountThenIdNonIncreasing(ts: seq<Transaction>) {
    forall i, j | 0 <= i < j < |ts| ::
      ts[i].amount > ts[j].amount || (ts[i].amount == ts[j].amount && ts[i].id >= ts[j].id)
  }

  ghost predicate AmountThenIdNonDecreasing(ts: seq<Transaction>) {
    forall i, j | 0 <= i < j < |ts| ::
      ts[i].amount < ts[j].amount || (ts[i].amount == ts[j].amount && ts[i].id <= ts[j].id)
  }

  /** Sorting with `AmountDescending` orders by non-increasing amount. */
  function SortByAmountDescending(ts: seq<Transaction>): (r: seq<Transaction>)
    ensures multiset(r) == multiset(ts)
    ensures AmountNonIncreasing(r)
  {
    var r := SortBy(ts, AmountDescending);
    assert forall i, j | 0 <= i < j < |r| :: InOrder(AmountDescending, r[i], r[j]);
    r
  }

  /** Sorting with `AmountThenIdDescending` orders by amount, then id, from
      high to low. */
  function SortByAmountThenIdDescending(ts: seq<Transaction>): (r: seq<Transaction>)
    ensures multiset(r) == multiset(ts)
    ensures AmountThenIdNonIncreasing(r)
  {
    AmountThenIdDescendingIsPreorder(ts);
    var r := SortBy(ts, AmountThenIdDescending);
    assert forall i, j | 0 <= i < j < |r| :: InOrder(AmountThenIdDescending, r[i], r[j]);
    r
  }

  /** Sorting with `AmountThenIdAscending` orders by amount, then id, from low
      to high. */
  function SortByAmountThenIdAscending(ts: seq<Transaction>): (r: seq<Transaction>)
    ensures multiset(r) == multiset(ts)
    ensures AmountThenIdNonDecreasing(r)
  {
    AmountThenIdAscendingIsPreorder(ts);
    var r := SortBy(ts, AmountThenIdAscending);
    assert forall i, j | 0 <= i < j < |r| :: InOrder(AmountThenIdAscending, r[i], r[j]);
    r
  }

  /** The amount-then-id comparators are comparators `sorted` may be given. */
  lemma AmountThenIdDescendingIsPreorder(ts: seq<Transaction>)
    ensures TotalPreorderOn(ts, AmountThenIdDescending)
  {
    forall x, y | InOrder(AmountThenIdDescending, x, y)
      ensures x.amount > y.amount || (x.amount == y.amount && x.id >= y.id)
    {
    }
  }

  lemma AmountThenIdAscendingIsPreorder(ts: seq<Transaction>)
    ensures TotalPreorderOn(ts, AmountThenIdAscending)
  {
    forall x, y | InOrder(AmountThenIdAscending, x, y)
      ensures x.amount < y.amount || (x.amount == y.amount && x.id <= y.id)
    {
    }
  }

  /** The senders of `ts`, position by position. */
  function SendersOf(ts: seq<Transaction>): (r: seq<string>)
    ensures |r| == |ts|
    ensures forall i | 0 <= i < |ts| :: r[i] == ts[i].from
  {
    if ts == [] then [] else [ts[0].GetSender()] + SendersOf(ts[1..])
  }

  /** The receivers of `ts`, position by position. */
  function ReceiversOf(ts: seq<Transaction>): (r: seq<string>)
    ensures |r| == |ts|
    ensures forall i | 0 <= i < |ts| :: r[i] == ts[i].to
  {
    if ts == [] then [] else [ts[0].GetReceiver()] + ReceiversOf(ts[1..])
  }

  /** Leaving out the record at `i` leaves no record with its id, when ids
      are unique. */
  lemma {:induction false} RemovedIdGone(ts: seq<Transaction>, i: nat)
    requires i < |ts|
    requires forall j, k | 0 <= j < k < |ts| :: ts[j].id != ts[k].id
    ensures forall t | t in ts[..i] + ts[i + 1..] :: t.id != ts[i].id
  {
    var rest := ts[..i] + ts[i + 1..];
    forall t | t in rest ensures t.id != ts[i].id {
      var k :| 0 <= k < |rest| && rest[k] == t;
      if k < i {
        assert t == ts[k];
      } else {
        assert t == ts[k + 1];
      }
    }
  }

  function HasAmount(amount: int): Transaction -> bool {
    (t: Transaction) => t.amount == amount
  }

  /** The amount sort is stable: records of equal amount keep their relative
      order. */
  lemma SortByAmountDescendingKeepsTies(ts: seq<Transaction>, amount: int)
    ensures Filter(SortByAmountDescending(ts), HasAmount(amount)) == Filter(ts, HasAmount(amount))
  {
    SortByKeepsEqualKeys(ts, AmountDescending, HasAmount(amount));
  }

  class ChainBlock {
    var transactions: seq<Transaction>

    constructor ()
      ensures transactions == []
    {
      transactions := [];
    }

    function GetCount(): nat
      reads this
    {
      |transactions|
    }

    /** The stored list itself, for reading. */
    function GetTransactions(): seq<Transaction>
      reads this
    {
      transactions
    }

    /** Appends `transaction`; duplicates are allowed. */
    method Add(transaction: Transaction)
      modifies this
      ensures transactions == old(transactions) + [transaction]
      ensures GetCount() == old(GetCount()) + 1
      ensures Contains(transaction)
    {
      transactions := transactions + [transaction];
    }

    /** `List.contains`: `TransactionImpl` does not override `equals`, so this
        asks whether this very record is stored. */
    function Contains(transaction: Transaction): (b: bool)
      reads this
      ensures b <==> exists i | 0 <= i < |transactions| :: transactions[i] == transaction
    {
      transaction in transactions
    }

    /** The position of the first record with id `id`. */
    function IndexOfId(id: int): Option<nat>
      reads this
    {
      FirstMatch(transactions, HasId(id))
    }

    function ContainsId(id: int): (b: bool)
      reads this
      ensures b <==> exists t | t in transactions :: t.id == id
    {
      IndexOfId(id).Some?
    }

    /** No two stored records share an id. */
    ghost predicate UniqueIds()
      reads this
    {
      forall i, j | 0 <= i < j < |transactions| :: transactions[i].id != transactions[j].id
    }

    /** The first record with id `id`. */
    function GetById(id: int): (r: Result<Transaction>)
      reads this
      ensures r.Throw? <==> forall t | t in transactions :: t.id != id
      ensures r.Throw? ==> r.exception == IllegalArgumentException
      ensures r.Return? ==> exists i | 0 <= i < |transactions| ::
        && transactions[i] == r.value && r.value.id == id
        && forall j | 0 <= j < i :: transactions[j].id != id
    {
      match IndexOfId(id)
      case None => Throw(IllegalArgumentException)
      case Some(i) => Return(transactions[i])
    }

    /** Sets the status of the first record with id `id`, in place: whoever
        holds that record sees the change. */
    method ChangeTransactionStatus(id: int, newStatus: Status) returns (outcome: Outcome)
      modifies transactions
      ensures transactions == old(transactions)
      ensures outcome == if ContainsId(id) then Completed else Threw(IllegalArgumentException)
      ensures GetById(id).Return? ==> GetById(id).value.status == newStatus
      ensures forall t | t in transactions && (GetById(id).Throw? || t != GetById(id).value) ::
        t.status == old(t.status)
    {
      var found := IndexOfId(id);
      if found.None? {
        outcome := Threw(IllegalArgumentException);
        return;
      }
      transactions[found.value].SetTransactionStatus(newStatus);
      outcome := Completed;
    }

    /** Removes the first record with id `id`: the list loses exactly that
        position and keeps the order of the rest. */
    method RemoveTransactionById(id: int) returns (outcome: Outcome)
      modifies this
      ensures old(IndexOfId(id)).None? ==>
        outcome == Threw(IllegalArgumentException) && transactions == old(transactions)
      ensures old(IndexOfId(id)).Some? ==>
        var i := old(IndexOfId(id)).value;
        outcome == Completed && transactions == old(transactions[..i] + transactions[i + 1..])
      ensures GetCount() == if outcome.Completed? then old(GetCount()) - 1 else old(GetCount())
      ensures old(UniqueIds()) ==> !ContainsId(id)
    {
      var found := IndexOfId(id);
      if found.None? {
        outcome := Threw(IllegalArgumentException);
        return;
      }
      var i := found.value;
      var transaction := transactions[i];
      assert transaction !in transactions[..i];
      RemoveFirstAt(transactions, i);
      if old(UniqueIds()) {
        RemovedIdGone(transactions, i);
      }
      transactions := RemoveFirst(transactions, transaction);
      outcome := Completed;
    }

    /** The records with status `status`, in list order: the
        `filter(t -> t.getStatus().equals(status))` step. */
    function WithStatus(status: Status): (r: seq<Transaction>)
      reads this, transactions
      ensures Selected(r, transactions, HasStatus(transactions, status))
      ensures Subsequence(r, transactions)
      ensures r == [] <==> forall t | t in transactions :: t.status != status
    {
      var p := HasStatus(transactions, status);
      FilterSelected(transactions, p);
      FilterIsSubsequence(transactions, p);
      Filter(transactions, p)
    }

    function GetByTransactionStatus(status: Status): (r: Result<seq<Transaction>>)
      reads this, transactions
      ensures r.Throw? <==> forall t | t in transactions :: t.status != status
      ensures r.Throw? ==> r.exception == IllegalArgumentException
      ensures r.Return? ==> Selected(r.value, transactions, HasStatus(transactions, status))
      ensures r.Return? ==> AmountNonIncreasing(r.value)
    {
      var byStatus := WithStatus(status);
      var sorted := SortByAmountDescending(byStatus);
      PermutedSelected(sorted, byStatus, transactions, HasStatus(transactions, status));
      if |sorted| == 0 then Throw(IllegalArgumentException) else Return(sorted)
    }

    /** The sender of every record with status `status`, in list order,
        repeats kept. */
    function GetAllSendersWithTransactionStatus(status: Status): (r: Result<seq<string>>)
      reads this, transactions
      ensures r.Throw? <==> forall t | t in transactions :: t.status != status
      ensures r.Throw? ==> r.exception == IllegalArgumentException
      ensures r.Return? ==> |r.value| == |WithStatus(status)|
      ensures r.Return? ==> forall i | 0 <= i < |r.value| :: r.value[i] == WithStatus(status)[i].from
    {
      var byStatus := WithStatus(status);
      var senders := SendersOf(byStatus);
      if |senders| == 0 then Throw(IllegalArgumentException) else Return(senders)
    }

    /** The receiver of every record with status `status`, in list order,
        repeats kept. */
    function GetAllReceiversWithTransactionStatus(status: Status): (r: Result<seq<string>>)
      reads this, transactions
      ensures r.Throw? <==> forall t | t in transactions :: t.status != status
      ensures r.Throw? ==> r.exception == IllegalArgumentException
      ensures r.Return? ==> |r.value| == |WithStatus(status)|
      ensures r.Return? ==> forall i | 0 <= i < |r.value| :: r.value[i] == WithStatus(status)[i].to
    {
      var byStatus := WithStatus(status);
      var receivers := ReceiversOf(byStatus);
      if |receivers| == 0 then Throw(IllegalArgumentException) else Return(receivers)
    }

    /** Every record, by amount from high to low and, among equal amounts, by
        id from high to low. Never throws, not even on an empty ledger. */
    function GetAllOrderedByAmountDescendingThenById(): (r: seq<Transaction>)
      reads this
      ensures multiset(r) == multiset(transactions)
      ensures AmountThenIdNonIncreasing(r)
    {
      SortByAmountThenIdDescending(transactions)
    }

    /** The records sent by `sender`, by amount from high to low. */
    function GetBySenderOrderedByAmountDescending(sender: string): (r: Result<seq<Transaction>>)
      reads this
      ensures r.Throw? <==> forall t | t in transactions :: t.from != sender
      ensures r.Throw? ==> r.exception == IllegalArgumentException
      ensures r.Return? ==> Selected(r.value, transactions, SentBy(sender))
      ensures r.Return? ==> AmountNonIncreasing(r.value)
    {
      var bySender := Filter(transactions, SentBy(sender));
      var sorted := SortByAmountDescending(bySender);
      FilterSelected(transactions, SentBy(sender));
      PermutedSelected(sorted, bySender, transactions, SentBy(sender));
      if |sorted| == 0 then Throw(IllegalArgumentException) else Return(sorted)
    }

    /** The records received by `receiver`, by amount from low to high and,
        among equal amounts, by id from low to high. */
    function GetByReceiverOrderedByAmountThenById(receiver: string): (r: Result<seq<Transaction>>)
      reads this
      ensures r.Throw? <==> forall t | t in transactions :: t.to != receiver
      ensures r.Throw? ==> r.exception == IllegalArgumentException
      ensures r.Return? ==> Selected(r.value, transactions, ReceivedBy(receiver))
      ensures r.Return? ==> AmountThenIdNonDecreasing(r.value)
    {
      var byReceiver := Filter(transactions, ReceivedBy(receiver));
      var sorted := SortByAmountThenIdAscending(byReceiver);
      FilterSelected(transactions, ReceivedBy(receiver));
      PermutedSelected(sorted, byReceiver, transactions, ReceivedBy(receiver));
      if |sorted| == 0 then Throw(IllegalArgumentException) else Return(sorted)
    }

    /** The records with status `status` and an amount of at most `amount`,
        by amount from high to low; empty rather than an error when none. */
    function GetByTransactionStatusAndMaximumAmount(status: Status, amount: int): (r: seq<Transaction>)
      reads this, transactions
      ensures Selected(r, transactions, HasStatusAndMaximumAmount(transactions, status, amount))
      ensures AmountNonIncreasing(r)
    {
      var p := HasStatusAndMaximumAmount(transactions, status, amount);
      var matching := Filter(transactions, p);
      var sorted := SortByAmountDescending(matching);
      FilterSelected(transactions, p);
      PermutedSelected(sorted, matching, transactions, p);
      sorted
    }

    /** The records sent by `sender` for strictly more than `amount`, by
        amount from high to low. */
    function GetBySenderAndMinimumAmountDescending(sender: string, amount: int): (r: Result<seq<Transaction>>)
      reads this
      ensures r.Throw? <==> forall t | t in transactions :: !(t.from == sender && t.amount > amount)
      ensures r.Throw? ==> r.exception == IllegalArgumentException
      ensures r.Return? ==> Selected(r.value, transactions, SentByAbove(sender, amount))
      ensures r.Return? ==> AmountNonIncreasing(r.value)
    {
      var p := SentByAbove(sender, amount);
      var matching := Filter(transactions, p);
      var sorted := SortByAmountDescending(matching);
      FilterSelected(transactions, p);
      PermutedSelected(sorted, matching, transactions, p);
      if |sorted| == 0 then Throw(IllegalArgumentException) else Return(sorted)
    }

    /** The records received by `receiver` with `lo <= amount < hi`, by amount
        from high to low. */
    function GetByReceiverAndAmountRange(receiver: string, lo: int, hi: int): (r: Result<seq<Transaction>>)
      reads this
      ensures r.Throw? <==> forall t | t in transactions :: !(t.to == receiver && lo <= t.amount < hi)
      ensures r.Throw? ==> r.exception == IllegalArgumentException
      ensures lo >= hi ==> r.Throw?
      ensures r.Return? ==> Selected(r.value, transactions, ReceivedByInRange(receiver, lo, hi))
      ensures r.Return? ==> AmountNonIncreasing(r.value)
    {
      var p := ReceivedByInRange(receiver, lo, hi);
      var matching := Filter(transactions, p);
      var sorted := SortByAmountDescending(matching);
      FilterSelected(transactions, p);
      PermutedSelected(sorted, matching, transactions, p);
      if |sorted| == 0 then Throw(IllegalArgumentException) else Return(sorted)
    }

    /** The records with `lo <= amount <= hi`, in list order; empty rather
        than an error when none. */
    function GetAllInAmountRange(lo: int, hi: int): (r: seq<Transaction>)
      reads this
      ensures Selected(r, transactions, AmountInRange(lo, hi))
      ensures lo > hi ==> r == []
      ensures Subsequence(r, transactions)
    {
      FilterSelected(transactions, AmountInRange(lo, hi));
      FilterIsSubsequence(transactions, AmountInRange(lo, hi));
      Filter(transactions, AmountInRange(lo, hi))
    }

    /** A fresh iterator at the front of this ledger's list. */
    method Iterator() returns (it: ChainBlockIterator)
      ensures fresh(it) && it.chainBlock == this && it.index == 0
    {
      it := new ChainBlockIterator(this);
    }
  }

  /** Among the records `GetByTransactionStatus` returns, those of one amount
      are in ledger order. */
  lemma GetByTransactionStatusKeepsTies(chainBlock: ChainBlock, status: Status, amount: int)
    requires chainBlock.GetByTransactionStatus(status).Return?
    ensures Filter(chainBlock.GetByTransactionStatus(status).value, HasAmount(amount))
         == Filter(chainBlock.WithStatus(status), HasAmount(amount))
  {
    SortByAmountDescendingKeepsTies(chainBlock.WithStatus(status), amount);
  }

  /** Among the records `GetBySenderOrderedByAmountDescending` returns, those
      of one amount are in ledger order. */
  lemma GetBySenderOrderedByAmountDescendingKeepsTies(chainBlock: ChainBlock, sender: string, amount: int)
    requires chainBlock.GetBySenderOrderedByAmountDescending(sender).Return?
    ensures Filter(chainBlock.GetBySenderOrderedByAmountDescending(sender).value, HasAmount(amount))
         == Filter(Filter(chainBlock.transactions, SentBy(sender)), HasAmount(amount))
  {
    SortByAmountDescendingKeepsTies(Filter(chainBlock.transactions, SentBy(sender)), amount);
  }

  /** The anonymous iterator `ChainBlockImpl.iterator()` returns: a cursor
      into the ledger's live list. */
  class ChainBlockIterator {
    const chainBlock: ChainBlock
    var index: nat

    constructor (chainBlock: ChainBlock)
      ensures this.chainBlock == chainBlock && index == 0
    {
      this.chainBlock := chainBlock;
      index := 0;
    }

    function HasNext(): bool
      reads this, chainBlock
    {
      index < |chainBlock.transactions|
    }

    /** `transactions.get(index++)`: the cursor advances even when `get`
        throws, because the increment happens before the call. */
    method Next() returns (r: Result<Transaction>)
      modifies this
      ensures index == old(index) + 1
      ensures old(HasNext()) ==> r == Return(chainBlock.transactions[old(index)])
      ensures !old(HasNext()) ==> r == Throw(IndexOutOfBoundsException)
    {
      var i := index;
      index := index + 1;
      if i < |chainBlock.transactions| {
        r := Return(chainBlock.transactions[i]);
      } else {
        r := Throw(IndexOutOfBoundsException);
      }
    }
  }

  /** A `for (Transaction t : chainBlock)` loop: walking a fresh iterator
      until `hasNext` fails visits exactly the stored list, in order. */
  method ForEach(chainBlock: ChainBlock) returns (visited: seq<Transaction>)
    ensures visited == chainBlock.transactions
  {
    var it := chainBlock.Iterator();
    visited := [];
    while it.HasNext()
      invariant it.chainBlock == chainBlock
      invariant it.index <= |chainBlock.transactions|
      invariant visited == chainBlock.transactions[..it.index]
      decreases |chainBlock.transactions| - it.index
    {
      var next := it.Next();
      visited := visited + [next.value];
    }
  }
}
