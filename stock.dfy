/** The product stock (`InStock`): an insertion-ordered list of products that
    can grow and have a product's quantity changed in place, and that answers
    queries by filtering, sorting, limiting and collecting that list afresh on
    every call. */
module Stock {
  import opened Outcomes
  import opened Comparisons
  import opened Streams

  /** A product: its label and price are fixed when it is created; only its
      quantity can be overwritten later. */
  class Product {
    /** The label. */
    const name: string
    /** The price in whole cents. */
    const price: int
    var quantity: int

    constructor (name: string, price: int, quantity: int)
      ensures this.name == name && this.price == price && this.quantity == quantity
    {
      this.name := name;
      this.price := price;
      this.quantity := quantity;
    }

    /** Overwrites the quantity; label and price are constants. */
    method SetQuantity(quantity: int)
      modifies this`quantity
      ensures this.quantity == quantity
    {
      this.quantity := quantity;
    }
  }

  // The predicates the queries filter with.

  function HasLabel(name: string): Product -> bool {
    (p: Product) => p.name == name
  }

  /** A price in the half-open range (lo, hi]. */
  function PriceInRange(lo: int, hi: int): Product -> bool {
    (p: Product) => p.price > lo && p.price <= hi
  }

  /** A price strictly above `price`. */
  function PriceAbove(price: int): Product -> bool {
    (p: Product) => p.price > price
  }

  function HasPrice(price: int): Product -> bool {
    (p: Product) => p.price == price
  }

  /** Quantity `quantity`, read off the products of `ps` as they are now. */
  function HasQuantity(ps: seq<Product>, quantity: int): (q: Product -> bool)
    reads ps
    ensures forall p | p in ps :: q(p) <==> p.quantity == quantity
  {
    var current := map p | p in ps :: p.quantity;
    p => p in current && current[p] == quantity
  }

  // The comparators the queries sort with, as the source writes them.

  /** `p1.getLabel().compareTo(p2.getLabel())`: label order, in which only
      equal labels tie. */
  function LabelAscending(p1: Product, p2: Product): (r: int)
    ensures r == 0 <==> p1.name == p2.name
    ensures CompareStrings(p2.name, p1.name) == -r
  {
    CompareStringsZero(p1.name, p2.name);
    CompareStringsAntisymmetric(p1.name, p2.name);
    CompareStrings(p1.name, p2.name)
  }

  /** `Double.compare(p2.getPrice(), p1.getPrice())`: the higher price comes
      first. */
  function PriceDescending(p1: Product, p2: Product): (r: int)
    ensures r <= 0 <==> p1.price >= p2.price
    ensures r == 0 <==> p1.price == p2.price
  {
    Compare(p2.price, p1.price)
  }

  // The orders the query results are in.

  ghost predicate LabelsAscending(ps: seq<Product>) {
    forall i, j | 0 <= i < j < |ps| :: CompareStrings(ps[i].name, ps[j].name) <= 0
  }

  ghost predicate PriceNonIncreasing(ps: seq<Product>) {
    forall i, j | 0 <= i < j < |ps| :: ps[i].price >= ps[j].price
  }

  /** Label order is a comparator `sorted` may be given: any two labels are
      ordered one way or the other, and "not after" is transitive. */
  lemma LabelAscendingIsPreorder(ps: seq<Product>)
    ensures TotalPreorderOn(ps, LabelAscending)
  {
    forall x, y | x in ps && y in ps
      ensures InOrder(LabelAscending, x, y) || InOrder(LabelAscending, y, x)
    {
      CompareStringsAntisymmetric(x.name, y.name);
    }
    forall x, y, z | x in ps && y in ps && z in ps && InOrder(LabelAscending, x, y) && InOrder(LabelAscending, y, z)
      ensures InOrder(LabelAscending, x, z)
    {
      CompareStringsTransitive(x.name, y.name, z.name);
    }
  }

  /** Sorting with `LabelAscending` orders by label. */
  function SortByLabel(ps: seq<Product>): (r: seq<Product>)
    ensures multiset(r) == multiset(ps)
    ensures SortedBy(r, LabelAscending)
  {
    LabelAscendingIsPreorder(ps);
    SortBy(ps, LabelAscending)
  }

  /** Sorting with `PriceDescending` orders by non-increasing price. */
  function SortByPriceDescending(ps: seq<Product>): (r: seq<Product>)
    ensures multiset(r) == multiset(ps)
    ensures PriceNonIncreasing(r)
  {
    var r := SortBy(ps, PriceDescending);
    assert forall i, j | 0 <= i < j < |r| :: InOrder(PriceDescending, r[i], r[j]);
    r
  }

  /** The price sort is stable: products of equal price keep their relative
      order. */
  lemma SortByPriceDescendingKeepsTies(ps: seq<Product>, price: int)
    ensures Filter(SortByPriceDescending(ps), HasPrice(price)) == Filter(ps, HasPrice(price))
  {
    SortByKeepsEqualKeys(ps, PriceDescending, HasPrice(price));
  }

  /** The first `count` products of the label sort are in label order, are
      taken from `ps`, and none has a label after that of a product left out. */
  lemma {:induction false} FirstByLabel(ps: seq<Product>, count: nat)
    requires count <= |ps|
    ensures multiset(SortByLabel(ps)[..count]) <= multiset(ps)
    ensures LabelsAscending(SortByLabel(ps)[..count])
    ensures forall x, y | x in SortByLabel(ps)[..count] && y in multiset(ps) - multiset(SortByLabel(ps)[..count]) ::
      CompareStrings(x.name, y.name) <= 0
  {
    var sorted := SortByLabel(ps);
    SortedPrefix(sorted, LabelAscending, count);
    var r := sorted[..count];
    forall i, j | 0 <= i < j < |r| ensures CompareStrings(r[i].name, r[j].name) <= 0 {
      assert InOrder(LabelAscending, sorted[i], sorted[j]);
    }
  }

  /** The same for the first `count` products of the price sort. */
  lemma {:induction false} FirstByPrice(ps: seq<Product>, count: nat)
    requires count <= |ps|
    ensures multiset(SortByPriceDescending(ps)[..count]) <= multiset(ps)
    ensures PriceNonIncreasing(SortByPriceDescending(ps)[..count])
    ensures forall x, y | x in SortByPriceDescending(ps)[..count] &&
                          y in multiset(ps) - multiset(SortByPriceDescending(ps)[..count]) ::
      x.price >= y.price
  {
    var sorted := SortByPriceDescending(ps);
    assert SortedBy(sorted, PriceDescending) by {
      forall i, j | 0 <= i < j < |sorted| ensures InOrder(PriceDescending, sorted[i], sorted[j]) {
        assert sorted[i].price >= sorted[j].price;
      }
    }
    SortedPrefix(sorted, PriceDescending, count);
    var r := sorted[..count];
    assert PriceNonIncreasing(r) by {
      forall i, j | 0 <= i < j < |r| ensures r[i].price >= r[j].price {
        assert r[i] == sorted[i] && r[j] == sorted[j];
      }
    }
    forall x, y | x in r && y in multiset(ps) - multiset(r) ensures x.price >= y.price {
      assert InOrder(PriceDescending, x, y);
    }
  }

  class InStock {
    var products: seq<Product>

    constructor ()
      ensures products == []
    {
      products := [];
    }

    function GetCount(): nat
      reads this
    {
      |products|
    }

    /** `List.contains`: whether this very product is stored. */
    function Contains(product: Product): (b: bool)
      reads this
      ensures b <==> exists i | 0 <= i < |products| :: products[i] == product
    {
      product in products
    }

    /** Appends `product`; duplicates are allowed. */
    method Add(product: Product)
      modifies this
      ensures products == old(products) + [product]
      ensures GetCount() == old(GetCount()) + 1
      ensures Contains(product)
    {
      products := products + [product];
    }

    /** The position of the first product labelled `name`. */
    function IndexOfLabel(name: string): Option<nat>
      reads this
    {
      FirstMatch(products, HasLabel(name))
    }

    /** The first product labelled `name`. */
    function FindByLabel(name: string): (r: Result<Product>)
      reads this
      ensures r.Throw? <==> forall p | p in products :: p.name != name
      ensures r.Throw? ==> r.exception == IllegalArgumentException
      ensures r.Return? ==> exists i | 0 <= i < |products| ::
        && products[i] == r.value && r.value.name == name
        && forall j | 0 <= j < i :: products[j].name != name
    {
      match IndexOfLabel(name)
      case None => Throw(IllegalArgumentException)
      case Some(i) => Return(products[i])
    }

    /** Sets the quantity of the first product labelled `name`, in place:
        whoever holds that product sees the change. */
    method ChangeQuantity(name: string, quantity: int) returns (outcome: Outcome)
      modifies products
      ensures products == old(products)
      ensures outcome == if FindByLabel(name).Return? then Completed else Threw(IllegalArgumentException)
      ensures FindByLabel(name).Return? ==> FindByLabel(name).value.quantity == quantity
      ensures forall p | p in products && (FindByLabel(name).Throw? || p != FindByLabel(name).value) ::
        p.quantity == old(p.quantity)
    {
      var found := IndexOfLabel(name);
      if found.None? {
        outcome := Threw(IllegalArgumentException);
        return;
      }
      products[found.value].SetQuantity(quantity);
      outcome := Completed;
    }

    /** The product at position `index`. */
    function Find(index: int): (r: Result<Product>)
      reads this
      ensures r.Throw? <==> !(0 <= index < |products|)
      ensures r.Throw? ==> r.exception == IndexOutOfBoundsException
      ensures r.Return? ==> r.value == products[index]
    {
      if index < 0 || index > |products| - 1 then Throw(IndexOutOfBoundsException)
      else Return(products[index])
    }

    /** The first `count` products by name. When `count` exceeds the stock
        the answer is empty, not the whole stock. */
    function FindFirstByAlphabeticalOrder(count: int): (r: Result<seq<Product>>)
      reads this
      ensures r.Throw? <==> count < 0
      ensures r.Throw? ==> r.exception == IllegalArgumentException
      ensures r.Return? && count > |products| ==> r.value == []
      ensures r.Return? && count <= |products| ==>
        && |r.value| == count
        && multiset(r.value) <= multiset(products)
        && LabelsAscending(r.value)
        && forall x, y | x in r.value && y in multiset(products) - multiset(r.value) ::
             CompareStrings(x.name, y.name) <= 0
    {
      if count > |products| then Return([])
      else if count < 0 then Limit(SortByLabel(products), count)
      else
        FirstByLabel(products, count);
        Limit(SortByLabel(products), count)
    }

    /** The products priced in (lo, hi], from the most to the least
        expensive. */
    function FindAllInRange(lo: int, hi: int): (r: seq<Product>)
      reads this
      ensures Selected(r, products, PriceInRange(lo, hi))
      ensures PriceNonIncreasing(r)
      ensures lo >= hi ==> r == []
    {
      var inRange := Filter(products, PriceInRange(lo, hi));
      var sorted := SortByPriceDescending(inRange);
      FilterSelected(products, PriceInRange(lo, hi));
      PermutedSelected(sorted, inRange, products, PriceInRange(lo, hi));
      sorted
    }

    /** The products priced strictly above `price`, in stock order. */
    function FindAllByPrice(price: int): (r: seq<Product>)
      reads this
      ensures Selected(r, products, PriceAbove(price))
      ensures Subsequence(r, products)
    {
      FilterSelected(products, PriceAbove(price));
      FilterIsSubsequence(products, PriceAbove(price));
      Filter(products, PriceAbove(price))
    }

    /** The `count` most expensive products, from the most expensive down. */
    function FindFirstMostExpensiveProducts(count: int): (r: Result<seq<Product>>)
      reads this
      ensures r.Throw? <==> count < 0 || count > |products|
      ensures r.Throw? ==> r.exception == IllegalArgumentException
      ensures r.Return? ==>
        && |r.value| == count
        && multiset(r.value) <= multiset(products)
        && PriceNonIncreasing(r.value)
        && forall x, y | x in r.value && y in multiset(products) - multiset(r.value) :: x.price >= y.price
    {
      if count > |products| then Throw(IllegalArgumentException)
      else if count < 0 then Limit(SortByPriceDescending(products), count)
      else
        FirstByPrice(products, count);
        assert |SortByPriceDescending(products)| == |multiset(products)|;
        Limit(SortByPriceDescending(products), count)
    }

    /** The products whose quantity is `quantity`, in stock order. */
    function FindAllByQuantity(quantity: int): (r: seq<Product>)
      reads this, products
      ensures Selected(r, products, HasQuantity(products, quantity))
      ensures Subsequence(r, products)
    {
      var q := HasQuantity(products, quantity);
      FilterSelected(products, q);
      FilterIsSubsequence(products, q);
      Filter(products, q)
    }

    /** A fresh iterator at the front of this stock's list. */
    method Iterator() returns (it: InStockIterator)
      ensures fresh(it) && it.stock == this && it.index == 0
    {
      it := new InStockIterator(this);
    }
  }

  /** Among the products `FindAllInRange` returns, those of one price are in
      stock order. */
  lemma FindAllInRangeKeepsTies(stock: InStock, lo: int, hi: int, price: int)
    ensures Filter(stock.FindAllInRange(lo, hi), HasPrice(price))
         == Filter(Filter(stock.products, PriceInRange(lo, hi)), HasPrice(price))
  {
    SortByPriceDescendingKeepsTies(Filter(stock.products, PriceInRange(lo, hi)), price);
  }

  /** The anonymous iterator `InStock.iterator()` returns: a cursor into the
      stock's live list. */
  class InStockIterator {
    const stock: InStock
    var index: nat

    constructor (stock: InStock)
      ensures this.stock == stock && index == 0
    {
      this.stock := stock;
      index := 0;
    }

    function HasNext(): bool
      reads this, stock
    {
      index < |stock.products|
    }

    /** `products.get(index++)`: the cursor advances even when `get` throws,
        because the increment happens before the call. */
    method Next() returns (r: Result<Product>)
      modifies this
      ensures index == old(index) + 1
      ensures old(HasNext()) ==> r == Return(stock.products[old(index)])
      ensures !old(HasNext()) ==> r == Throw(IndexOutOfBoundsException)
    {
      var i := index;
      index := index + 1;
      if i < |stock.products| {
        r := Return(stock.products[i]);
      } else {
        r := Throw(IndexOutOfBoundsException);
      }
    }
  }

  /** A `for (Product p : stock)` loop: walking a fresh iterator until
      `hasNext` fails visits exactly the stored list, in order. */
  method ForEach(stock: InStock) returns (visited: seq<Product>)
    ensures visited == stock.products
  {
    var it := stock.Iterator();
    visited := [];
    while it.HasNext()
      invariant it.stock == stock
      invariant it.index <= |stock.products|
      invariant visited == stock.products[..it.index]
      decreases |stock.products| - it.index
    {
      var next := it.Next();
      visited := visited + [next.value];
    }
  }
}
