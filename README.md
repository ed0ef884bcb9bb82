# Two in-memory record stores, modelled in Dafny

This project models two small Java stores. Each keeps an insertion-ordered
list of mutable records and answers queries by filtering, sorting and
limiting that list.

- **The ledger** (`ChainBlockImpl`, module `Ledger`) holds transactions
  (`TransactionImpl`, module `Transactions`). Each transaction has an id, a
  status, a sender, a receiver and an amount. The ledger can:
  - append a transaction;
  - look one up by object or by id;
  - change a stored transaction's status in place;
  - remove the first transaction with a given id;
  - answer ten status, sender, receiver and amount queries;
  - hand out an index-based iterator.
- **The stock** (`InStock`, module `Stock`) holds products, each with a
  label, a price and a quantity. The stock can:
  - append a product;
  - change a stored product's quantity in place;
  - look a product up by position or by label;
  - answer "first n" queries by label order and by price order;
  - answer price-range, price-threshold and quantity queries;
  - hand out an iterator.

Records are Dafny classes. The fields the source never reassigns are
`const`, and the one it overwrites (`status`, `quantity`) is a `var`. Each
store is a class with one `seq` field that its mutators reassign.

Queries are functions of the store's state. A Java exception becomes a
`Result` or `Outcome` value (module `Outcomes`), so every error path is part
of the model rather than excluded by a precondition.

The stream steps are library functions in module `Streams`, each proved once:
- `filter` is `Filter`, with the `Selected` predicate. `Selected` says that
  exactly the elements satisfying the predicate are kept, each as often as
  it occurs.
- `findFirst` is `FirstMatch`.
- `sorted(cmp)` is `SortBy`, a stable insertion sort. It is proved to give a
  permutation, sorted by the comparator, that keeps ties in their original
  order.
- `limit(n)` is `Limit`. It throws IllegalArgumentException on a negative
  `n`, as `Stream.limit` does.
- `ArrayList.remove(Object)` is `RemoveFirst`.

The Java comparators are written out as they appear in the source
(`Double.compare`, `Integer.compare`, `String.compareTo`, module
`Comparisons`). Each one is proved to be a total preorder before it is used
to sort.

Iterators are classes with a mutable `index` over the store they came from.
A `ForEach` client of each iterator shows that a `for` loop over a store
visits exactly the stored list, in order.

## Model

| member | source | states |
|---|---|---|
| Comparisons.Compare | TDD_Ex/src/main/java/ChainBlockImpl.java:68 | the sign of `Double.compare`/`Integer.compare` is negative, zero or positive exactly when the first argument is smaller, equal or larger |
| Comparisons.CompareStrings | TDD_Lab/src/main/java/InStock.java:58 | `String.compareTo` on labels; what it means is stated by the three lemmas below |
| Comparisons.CompareStringsAntisymmetric | TDD_Lab/src/main/java/InStock.java:58 | swapping the two labels negates the `compareTo` result, so any two labels are ordered one way or the other |
| Comparisons.CompareStringsZero | TDD_Lab/src/main/java/InStock.java:58 | labels compare as equal exactly when they are the same string |
| Comparisons.CompareStringsTransitive | TDD_Lab/src/main/java/InStock.java:58 | "not after" on labels is transitive |
| Streams.Filter | TDD_Ex/src/main/java/ChainBlockImpl.java:66-67 | `filter` keeps only elements of the input that satisfy the predicate, and yields nothing exactly when no element does |
| Streams.FilterCounts | TDD_Ex/src/main/java/ChainBlockImpl.java:66-67 | `filter` keeps every satisfying element exactly as many times as it occurs, and no other |
| Streams.FilterIsSubsequence | TDD_Ex/src/main/java/ChainBlockImpl.java:186-187 | `filter` without a sort keeps the encounter order: its result is a subsequence of the input |
| Streams.PermutedSelected | TDD_Ex/src/main/java/ChainBlockImpl.java:66-68 | sorting a filtered stream keeps the same selection |
| Streams.FirstMatch | TDD_Ex/src/main/java/ChainBlockImpl.java:36-37 | `findFirst` is absent exactly when nothing matches, and otherwise gives a matching position with no match before it |
| Streams.RemoveFirst | TDD_Ex/src/main/java/ChainBlockImpl.java:53 | `List.remove(Object)` leaves the list as it is when the object is absent, and otherwise removes one occurrence |
| Streams.RemoveFirstAt | TDD_Ex/src/main/java/ChainBlockImpl.java:50-53 | removing the object found first at position i deletes exactly position i |
| Streams.Insert | TDD_Ex/src/main/java/ChainBlockImpl.java:68 | one insertion step of the sort adds exactly the inserted element |
| Streams.InsertSorted | TDD_Ex/src/main/java/ChainBlockImpl.java:68 | inserting into a sorted list under a total preorder keeps it sorted |
| Streams.SortBy | TDD_Ex/src/main/java/ChainBlockImpl.java:68 | `sorted(cmp)` returns a permutation of its input in which no element comes after one the comparator puts behind it |
| Streams.InsertFilter | TDD_Ex/src/main/java/ChainBlockImpl.java:68 | an insertion step puts the inserted element ahead of the selected elements it may precede, and leaves their order alone |
| Streams.SortByKeepsTies | TDD_Ex/src/main/java/ChainBlockImpl.java:68 | sorting keeps the elements tied with a given one in their original order |
| Streams.SortByStable | TDD_Ex/src/main/java/ChainBlockImpl.java:68 | `sorted` is stable: elements that compare as equal keep their encounter order |
| Streams.FilterAgree | TDD_Ex/src/main/java/ChainBlockImpl.java:66-67 | predicates that agree on the elements select the same result |
| Streams.SortByKeepsEqualKeys | TDD_Ex/src/main/java/ChainBlockImpl.java:68 | a class of equal-key elements keeps its order through the sort |
| Streams.SortedPrefix | TDD_Lab/src/main/java/InStock.java:58 | `sorted(cmp).limit(n)` keeps n elements of the input, none of which the comparator puts after one it left out |
| Transactions.Transaction.constructor | TDD_Ex/src/main/java/TransactionImpl.java:9-15 | `getId`, `getStatus` and `getAmount` return the given values, `getSender` returns `from`, and `getReceiver` returns `to` |
| Transactions.Transaction.SetTransactionStatus | TDD_Ex/src/main/java/TransactionImpl.java:27-29 | a later `getStatus` returns the new status; only the status field may change |
| Transactions.Transaction.GetId | TDD_Ex/src/main/java/TransactionImpl.java:21-24 | returns the id; the constructor's contract states it is the one given |
| Transactions.Transaction.GetStatus | TDD_Ex/src/main/java/TransactionImpl.java:31-34 | returns the current status; the constructor and `SetTransactionStatus` state what it is |
| Transactions.Transaction.GetAmount | TDD_Ex/src/main/java/TransactionImpl.java:36-39 | returns the amount; the constructor's contract states it is the one given |
| Transactions.Transaction.GetSender | TDD_Ex/src/main/java/TransactionImpl.java:41-44 | returns `from`; the constructor's contract states it |
| Transactions.Transaction.GetReceiver | TDD_Ex/src/main/java/TransactionImpl.java:46-49 | returns `to`; the constructor's contract states it |
| Transactions.Transaction.CompareTo | TDD_Ex/src/main/java/TransactionImpl.java:17-19 | the constant 0; `SortByNaturalOrderKeepsOrder` states what that means for sorting |
| Transactions.NaturalOrder | TDD_Ex/src/main/java/TransactionImpl.java:17-19 | `compareTo` as a comparator; `SortByNaturalOrderKeepsOrder` states what sorting by it does |
| Transactions.SortByNaturalOrderKeepsOrder | TDD_Ex/src/main/java/TransactionImpl.java:17-19 | `compareTo` ties every pair, so sorting by the natural order leaves any list of transactions as it is |
| Transactions.HasStatus | TDD_Ex/src/main/java/ChainBlockImpl.java:67 | the status filter holds exactly for the stored records with that status |
| Ledger.HasId | TDD_Ex/src/main/java/ChainBlockImpl.java:36 | the id filter; `ContainsId` and `GetById` state what it selects |
| Ledger.SentBy | TDD_Ex/src/main/java/ChainBlockImpl.java:120 | the sender filter; `GetBySenderOrderedByAmountDescending` states that it selects exactly the records with that sender |
| Ledger.ReceivedBy | TDD_Ex/src/main/java/ChainBlockImpl.java:132 | the receiver filter; `GetByReceiverOrderedByAmountThenById` states that it selects exactly the records with that receiver |
| Ledger.SentByAbove | TDD_Ex/src/main/java/ChainBlockImpl.java:161 | sender match and an amount strictly above the minimum; `GetBySenderAndMinimumAmountDescending` states its error condition in those terms |
| Ledger.ReceivedByInRange | TDD_Ex/src/main/java/ChainBlockImpl.java:174 | receiver match and lo <= amount < hi; `GetByReceiverAndAmountRange` states its error condition in those terms |
| Ledger.AmountInRange | TDD_Ex/src/main/java/ChainBlockImpl.java:186 | lo <= amount <= hi; `GetAllInAmountRange` states that nothing passes when lo > hi |
| Ledger.AmountDescending | TDD_Ex/src/main/java/ChainBlockImpl.java:68 | the first record may come first exactly when its amount is at least the second's, and the two tie exactly on equal amounts |
| Ledger.AmountThenIdDescending | TDD_Ex/src/main/java/ChainBlockImpl.java:106-113 | the first record may come first exactly when it has the larger amount, or the same amount and an id at least as large; ties only on equal amount and id |
| Ledger.AmountThenIdAscending | TDD_Ex/src/main/java/ChainBlockImpl.java:133-141 | the first record may come first exactly when it has the smaller amount, or the same amount and an id at most as large; ties only on equal amount and id |
| Ledger.HasStatusAndMaximumAmount | TDD_Ex/src/main/java/ChainBlockImpl.java:153 | the filter holds exactly for stored records with that status and an amount of at most the maximum |
| Ledger.SortByAmountDescending | TDD_Ex/src/main/java/ChainBlockImpl.java:68 | the amount-descending sort is a permutation ordered by non-increasing amount |
| Ledger.SortByAmountThenIdDescending | TDD_Ex/src/main/java/ChainBlockImpl.java:106-113 | the sort is a permutation ordered by amount, then id, both from high to low |
| Ledger.SortByAmountThenIdAscending | TDD_Ex/src/main/java/ChainBlockImpl.java:133-141 | the sort is a permutation ordered by amount, then id, both from low to high |
| Ledger.AmountThenIdDescendingIsPreorder | TDD_Ex/src/main/java/ChainBlockImpl.java:106-113 | the amount-then-id descending comparator is a total preorder |
| Ledger.AmountThenIdAscendingIsPreorder | TDD_Ex/src/main/java/ChainBlockImpl.java:133-141 | the amount-then-id ascending comparator is a total preorder |
| Ledger.SendersOf | TDD_Ex/src/main/java/ChainBlockImpl.java:82 | collecting each record's sender yields one sender per record, position by position |
| Ledger.ReceiversOf | TDD_Ex/src/main/java/ChainBlockImpl.java:95 | collecting each record's receiver yields one receiver per record, position by position |
| Ledger.RemovedIdGone | TDD_Ex/src/main/java/ChainBlockImpl.java:49-54 | with unique ids, deleting the record with an id leaves no record with that id |
| Ledger.SortByAmountDescendingKeepsTies | TDD_Ex/src/main/java/ChainBlockImpl.java:68 | records of equal amount keep their ledger order through the amount sort |
| Ledger.ChainBlock.constructor | TDD_Ex/src/main/java/ChainBlockImpl.java:11-13 | a new ledger is empty |
| Ledger.ChainBlock.Add | TDD_Ex/src/main/java/ChainBlockImpl.java:16-27 | appends at the end, the count grows by one, earlier records keep their order, and `contains` of the record then holds |
| Ledger.ChainBlock.GetCount | TDD_Ex/src/main/java/ChainBlockImpl.java:16-18 | the length of the stored list; `Add` and `RemoveTransactionById` state how it changes |
| Ledger.ChainBlock.GetTransactions | TDD_Ex/src/main/java/ChainBlockImpl.java:20-22 | the stored list itself, as a value |
| Ledger.ChainBlock.Contains | TDD_Ex/src/main/java/ChainBlockImpl.java:30-32 | true exactly when some position of the list holds this very record |
| Ledger.ChainBlock.IndexOfId | TDD_Ex/src/main/java/ChainBlockImpl.java:36-37 | the position `findFirst` stops at; `GetById` states that it is the first record with the id |
| Ledger.ChainBlock.ContainsId | TDD_Ex/src/main/java/ChainBlockImpl.java:35-40 | true exactly when some stored record has the id |
| Ledger.ChainBlock.GetById | TDD_Ex/src/main/java/ChainBlockImpl.java:58-61 | throws IllegalArgumentException exactly when no record has the id, and otherwise returns the first one that has it |
| Ledger.ChainBlock.ChangeTransactionStatus | TDD_Ex/src/main/java/ChainBlockImpl.java:43-46 | throws IllegalArgumentException exactly when the id is absent; otherwise the first record with the id gets the new status, and the list and every other record's status are unchanged |
| Ledger.ChainBlock.RemoveTransactionById | TDD_Ex/src/main/java/ChainBlockImpl.java:49-54 | throws with no change when the id is absent; otherwise deletes exactly the position of the first match, keeping the others in order, and the count drops by one; with unique ids, the id is then gone |
| Ledger.ChainBlock.WithStatus | TDD_Ex/src/main/java/ChainBlockImpl.java:66-67 | the status filter keeps exactly the records with that status, in ledger order |
| Ledger.ChainBlock.GetByTransactionStatus | TDD_Ex/src/main/java/ChainBlockImpl.java:64-75 | throws IllegalArgumentException exactly when no record has the status; otherwise returns exactly those records, by non-increasing amount |
| Ledger.ChainBlock.GetAllSendersWithTransactionStatus | TDD_Ex/src/main/java/ChainBlockImpl.java:78-88 | throws exactly when no record has the status; otherwise returns the sender of each match, in ledger order, repeats kept |
| Ledger.ChainBlock.GetAllReceiversWithTransactionStatus | TDD_Ex/src/main/java/ChainBlockImpl.java:91-101 | throws exactly when no record has the status; otherwise returns the receiver of each match, in ledger order, repeats kept |
| Ledger.ChainBlock.GetAllOrderedByAmountDescendingThenById | TDD_Ex/src/main/java/ChainBlockImpl.java:104-115 | never throws; a permutation of the whole ledger by amount, then id, from high to low |
| Ledger.ChainBlock.GetBySenderOrderedByAmountDescending | TDD_Ex/src/main/java/ChainBlockImpl.java:118-127 | throws exactly when the sender sent nothing; otherwise exactly the sender's records, by non-increasing amount |
| Ledger.ChainBlock.GetByReceiverOrderedByAmountThenById | TDD_Ex/src/main/java/ChainBlockImpl.java:130-148 | throws exactly when the receiver received nothing; otherwise exactly the receiver's records, by amount, then id, from low to high |
| Ledger.ChainBlock.GetByTransactionStatusAndMaximumAmount | TDD_Ex/src/main/java/ChainBlockImpl.java:151-156 | never throws; exactly the records with the status and an amount of at most the maximum, by non-increasing amount |
| Ledger.ChainBlock.GetBySenderAndMinimumAmountDescending | TDD_Ex/src/main/java/ChainBlockImpl.java:159-169 | throws exactly when no record of the sender exceeds the minimum; otherwise exactly those records (strictly above), by non-increasing amount |
| Ledger.ChainBlock.GetByReceiverAndAmountRange | TDD_Ex/src/main/java/ChainBlockImpl.java:172-182 | throws exactly when no record of the receiver has lo <= amount < hi, and so always when lo >= hi; otherwise exactly those records, by non-increasing amount |
| Ledger.ChainBlock.GetAllInAmountRange | TDD_Ex/src/main/java/ChainBlockImpl.java:185-188 | never throws; exactly the records with lo <= amount <= hi, in ledger order, and nothing when lo > hi |
| Ledger.ChainBlock.Iterator | TDD_Ex/src/main/java/ChainBlockImpl.java:191-194 | a fresh iterator over this ledger, at position 0 |
| Ledger.GetByTransactionStatusKeepsTies | TDD_Ex/src/main/java/ChainBlockImpl.java:64-75 | among the returned records, those of one amount are in ledger order |
| Ledger.GetBySenderOrderedByAmountDescendingKeepsTies | TDD_Ex/src/main/java/ChainBlockImpl.java:118-127 | among the returned records, those of one amount are in ledger order |
| Ledger.ChainBlockIterator.constructor | TDD_Ex/src/main/java/ChainBlockImpl.java:192-194 | the cursor starts at index 0 |
| Ledger.ChainBlockIterator.HasNext | TDD_Ex/src/main/java/ChainBlockImpl.java:196-198 | the index is below the ledger's current count; `Next` and `ForEach` state what follows from it |
| Ledger.ChainBlockIterator.Next | TDD_Ex/src/main/java/ChainBlockImpl.java:200-203 | returns the element at the index while `hasNext` holds, and otherwise throws IndexOutOfBoundsException; the index advances by one either way |
| Ledger.ForEach | TDD_Ex/src/main/java/ChainBlockImpl.java:191-205 | iterating a ledger visits exactly its stored list, in order |
| Stock.Product.constructor | TDD_Lab/src/test/java/InStockTest.java:22-27 | a product keeps the label, price and quantity it is built with |
| Stock.Product.SetQuantity | TDD_Lab/src/main/java/InStock.java:34 | the quantity becomes the given one; only the quantity field may change |
| Stock.HasLabel | TDD_Lab/src/main/java/InStock.java:30 | the label filter; `FindByLabel` and `ChangeQuantity` state what it selects |
| Stock.PriceInRange | TDD_Lab/src/main/java/InStock.java:67 | lo < price <= hi; `FindAllInRange` states that it selects exactly those products and nothing when lo >= hi |
| Stock.PriceAbove | TDD_Lab/src/main/java/InStock.java:77 | a price strictly above the threshold; `FindAllByPrice` selects exactly those products |
| Stock.LabelAscending | TDD_Lab/src/main/java/InStock.java:58 | two products tie exactly when their labels are equal, and swapping them negates the result |
| Stock.PriceDescending | TDD_Lab/src/main/java/InStock.java:68 | the first product may come first exactly when its price is at least the second's, and the two tie exactly on equal prices |
| Stock.HasQuantity | TDD_Lab/src/main/java/InStock.java:101 | the quantity filter holds exactly for stored products with that quantity |
| Stock.LabelAscendingIsPreorder | TDD_Lab/src/main/java/InStock.java:58 | the label comparator is a total preorder |
| Stock.SortByLabel | TDD_Lab/src/main/java/InStock.java:58 | the label sort is a permutation ordered by label |
| Stock.SortByPriceDescending | TDD_Lab/src/main/java/InStock.java:68 | the price sort is a permutation ordered by non-increasing price |
| Stock.SortByPriceDescendingKeepsTies | TDD_Lab/src/main/java/InStock.java:68 | products of equal price keep their stock order through the price sort |
| Streams.Limit | TDD_Lab/src/main/java/InStock.java:91 | `limit(n)` throws IllegalArgumentException exactly when n is negative, and otherwise gives the first min(n, size) elements |
| Stock.FirstByLabel | TDD_Lab/src/main/java/InStock.java:58 | the first n of the label sort are in label order, are taken from the stock, and none has a label after that of a product left out |
| Stock.FirstByPrice | TDD_Lab/src/main/java/InStock.java:90-91 | the first n of the price sort are in price order, are taken from the stock, and none is cheaper than a product left out |
| Stock.InStock.constructor | TDD_Lab/src/main/java/InStock.java:9-11 | a new stock is empty |
| Stock.InStock.GetCount | TDD_Lab/src/main/java/InStock.java:14-16 | the length of the stored list; `Add` states how it changes |
| Stock.InStock.Contains | TDD_Lab/src/main/java/InStock.java:19-21 | true exactly when some position of the list holds this very product |
| Stock.InStock.IndexOfLabel | TDD_Lab/src/main/java/InStock.java:30-31 | the position `findFirst` stops at; `FindByLabel` states that it is the first product with the label |
| Stock.InStock.Add | TDD_Lab/src/main/java/InStock.java:14-26 | appends at the end, the count grows by one, and `contains` of the product then holds |
| Stock.InStock.ChangeQuantity | TDD_Lab/src/main/java/InStock.java:29-35 | throws IllegalArgumentException exactly when the label is absent; otherwise the first product with the label gets the new quantity, and the list and every other product's quantity are unchanged |
| Stock.InStock.Find | TDD_Lab/src/main/java/InStock.java:38-43 | throws IndexOutOfBoundsException exactly when the index is outside 0..count-1, and otherwise returns the product at that index |
| Stock.InStock.FindByLabel | TDD_Lab/src/main/java/InStock.java:46-50 | throws IllegalArgumentException exactly when no product has the label, and otherwise returns the first one that has it |
| Stock.InStock.FindFirstByAlphabeticalOrder | TDD_Lab/src/main/java/InStock.java:53-62 | empty when n exceeds the count; a negative n throws; otherwise n products of the stock in label order, none labelled after a product left out |
| Stock.InStock.FindAllInRange | TDD_Lab/src/main/java/InStock.java:65-72 | never throws; exactly the products with lo < price <= hi, by non-increasing price, and nothing when lo >= hi |
| Stock.InStock.FindAllByPrice | TDD_Lab/src/main/java/InStock.java:75-81 | never throws; exactly the products priced strictly above the threshold, in stock order |
| Stock.InStock.FindFirstMostExpensiveProducts | TDD_Lab/src/main/java/InStock.java:84-95 | throws IllegalArgumentException exactly when n exceeds the count or is negative; otherwise n products of the stock by non-increasing price, none cheaper than a product left out |
| Stock.InStock.FindAllByQuantity | TDD_Lab/src/main/java/InStock.java:98-105 | never throws; exactly the products with that quantity, in stock order |
| Stock.InStock.Iterator | TDD_Lab/src/main/java/InStock.java:108-112 | a fresh iterator over this stock, at position 0 |
| Stock.FindAllInRangeKeepsTies | TDD_Lab/src/main/java/InStock.java:65-72 | among the returned products, those of one price are in stock order |
| Stock.InStockIterator.constructor | TDD_Lab/src/main/java/InStock.java:110-112 | the cursor starts at index 0 |
| Stock.InStockIterator.HasNext | TDD_Lab/src/main/java/InStock.java:114-116 | the index is below the stock's current count; `Next` and `ForEach` state what follows from it |
| Stock.InStockIterator.Next | TDD_Lab/src/main/java/InStock.java:118-121 | returns the element at the index while `hasNext` holds, and otherwise throws IndexOutOfBoundsException; the index advances by one either way |
| Stock.ForEach | TDD_Lab/src/main/java/InStock.java:108-123 | iterating a stock visits exactly its stored list, in order |

## Left out

- Amounts and prices are whole cents (`int`), and so are the `double` thresholds and bounds the queries take. IEEE-754 behaviour is not modelled: NaN, -0.0 and fractions of a cent, all of which `Double.compare` and `<`/`<=` treat specially.
- `CompareStrings` compares Dafny characters. Java's `String.compareTo` compares UTF-16 code units, so the two orders can differ for characters outside the Basic Multilingual Plane.
- Null records, null labels and null sender or receiver strings are not modelled. In the source they make a filter dereference null and throw.
- `Product.java`, `ProductStock.java` and the `Status` enum are not part of this model.
  - `Product` (a constant label and price, a settable quantity) is inferred from how `InStock.java` and `InStockTest.java` use it.
  - `Product` equality is taken to be object identity.
  - The four `Status` values are the ones `ChainBlockImplTest.java` uses.
- `Ledger.ChainBlock.GetTransactions` returns the stored sequence as a value. The Java list it models is the live internal list, so changes a caller makes through it are not modelled.
- `GetCount`, `HasNext`, `CompareTo` and the `Transaction` getters have no contract of their own. Each returns a field or a length as it stands. Their meaning is stated in the contracts that use them: the constructors, `Add`, `RemoveTransactionById`, `Next`, `ForEach` and `SortByNaturalOrderKeepsOrder`.
- The filter predicates (`HasId`, `SentBy`, `ReceivedBy`, `SentByAbove`, `ReceivedByInRange`, `AmountInRange`, `HasLabel`, `PriceInRange`, `PriceAbove`) have no contract of their own. A function's contract cannot quantify over every record object. Their meaning is stated, over the stored records, in the query contracts named in their rows.
- Iterator `remove` and concurrent-modification checks are not modelled. The source's iterators define neither.
- The iterators' `index` is a `nat` and never wraps around. In the source it is a Java `int`: `next()` increments it even past the end, so after 2^31 calls it would wrap to a negative value and `hasNext` would hold again. Reaching that takes about two billion `next()` calls that each throw, which no client of a store makes.
