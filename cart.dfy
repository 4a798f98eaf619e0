/**
 * The shopping cart store: a list of line items keyed by product id,
 * mirrored into browser storage under one key.
 */
module Cart {
  import opened Wrappers
  import opened Lists

  /** The storage key the cart is persisted under. */
  const CartKey := "beautyVerseCart"

  /** The product fields the cart reads; `finalPrice` is the discounted price, when the catalog sets one. */
  datatype Product = Product(id: int, name: string, price: int, finalPrice: Option<int>)

  /** A line item: a snapshot of the product taken when it was first added, and a quantity. */
  datatype CartItem = CartItem(product: Product, quantity: int) {
    function Id(): int { product.id }
  }

  /** The price a line is charged at: a missing or zero discounted price falls back to the base price. */
  function EffectivePrice(p: Product): (price: int)
    ensures p.finalPrice == None || p.finalPrice == Some(0) ==> price == p.price
    ensures p.finalPrice.Some? && p.finalPrice.value != 0 ==> price == p.finalPrice.value
  {
    if p.finalPrice.Some? && p.finalPrice.value != 0 then p.finalPrice.value else p.price
  }

  function ItemId(item: CartItem): int { item.Id() }

  function Quantity(item: CartItem): int { item.quantity }

  function LineTotal(item: CartItem): int { EffectivePrice(item.product) * item.quantity }

  function UnitPrice(item: CartItem): int { EffectivePrice(item.product) }

  /** `totalItems`: the sum of the quantities. */
  function QuantitySum(items: seq<CartItem>): int { Sum(items, Quantity) }

  /** `subtotal`: the sum of effective price times quantity. */
  function PriceSum(items: seq<CartItem>): int { Sum(items, LineTotal) }

  function IdIs(id: int): CartItem -> bool { (item: CartItem) => item.Id() == id }

  function IdIsNot(id: int): CartItem -> bool { (item: CartItem) => item.Id() != id }

  function Increment(id: int): CartItem -> CartItem {
    (item: CartItem) => if item.Id() == id then item.(quantity := item.quantity + 1) else item
  }

  function Max(a: int, b: int): int { if a < b then b else a }

  function Adjust(id: int, delta: int): CartItem -> CartItem {
    (item: CartItem) => if item.Id() == id then item.(quantity := Max(1, item.quantity + delta)) else item
  }

  predicate HasId(items: seq<CartItem>, id: int) {
    exists i :: 0 <= i < |items| && items[i].Id() == id
  }

  /** At most one line per product id, and every quantity at least 1. */
  predicate WellFormed(items: seq<CartItem>) {
    && (forall i :: 0 <= i < |items| ==> items[i].quantity >= 1)
    && DistinctBy(items, ItemId)
  }

  /** `addToCart(product)`: one more unit of a product already in the cart, else a new line with quantity 1 at the end. */
  function Add(items: seq<CartItem>, product: Product): (r: seq<CartItem>)
    ensures HasId(items, product.id) ==>
      && |r| == |items|
      && forall i :: 0 <= i < |items| ==>
           && r[i].product == items[i].product
           && r[i].quantity == items[i].quantity + (if items[i].Id() == product.id then 1 else 0)
    ensures !HasId(items, product.id) ==>
      && |r| == |items| + 1
      && r[..|items|] == items
      && r[|items|] == CartItem(product, 1)
  {
    if Find(items, IdIs(product.id)).Some? then Map(items, Increment(product.id))
    else items + [CartItem(product, 1)]
  }

  /** `removeFromCart(id)`: every line with that id is gone, the rest are kept. */
  function Remove(items: seq<CartItem>, id: int): (r: seq<CartItem>)
    ensures !HasId(r, id)
    ensures forall i :: 0 <= i < |r| ==> r[i] in items
    ensures forall i :: 0 <= i < |items| && items[i].Id() != id ==> items[i] in r
    ensures !HasId(items, id) ==> r == items
  {
    var r := Filter(items, IdIsNot(id));
    if !HasId(items, id) then FilterKeepsAll(items, IdIsNot(id)); r else r
  }

  /** `updateQuantity(id, delta)`: the matching lines get `max(1, quantity + delta)`, nothing else changes. */
  function Update(items: seq<CartItem>, id: int, delta: int): (r: seq<CartItem>)
    ensures |r| == |items|
    ensures forall i :: 0 <= i < |items| ==>
      && r[i].product == items[i].product
      && (items[i].Id() == id ==> r[i].quantity >= 1 && r[i].quantity >= items[i].quantity + delta &&
                                  (r[i].quantity == 1 || r[i].quantity == items[i].quantity + delta))
      && (items[i].Id() != id ==> r[i] == items[i])
    ensures !HasId(items, id) ==> r == items
  {
    Map(items, Adjust(id, delta))
  }

  /** Every operation keeps "one line per id, quantity at least 1". */
  lemma AddWellFormed(items: seq<CartItem>, product: Product)
    requires WellFormed(items)
    ensures WellFormed(Add(items, product))
  {
    var r := Add(items, product);
    if !HasId(items, product.id) {
      forall i, j | 0 <= i < j < |r| ensures r[i].Id() != r[j].Id() {
        if j == |items| { assert r[i] == items[i]; } else { assert r[i] == items[i] && r[j] == items[j]; }
      }
    }
  }

  lemma RemoveWellFormed(items: seq<CartItem>, id: int)
    requires WellFormed(items)
    ensures WellFormed(Remove(items, id))
  {
    FilterDistinctBy(items, IdIsNot(id), ItemId);
  }

  lemma UpdateWellFormed(items: seq<CartItem>, id: int, delta: int)
    requires WellFormed(items)
    ensures WellFormed(Update(items, id, delta))
  {
  }

  /** The line with a given id, in a cart with one line per id. */
  lemma {:induction false} FilterSingle(items: seq<CartItem>, k: nat)
    requires k < |items|
    requires DistinctBy(items, ItemId)
    ensures Filter(items, IdIs(items[k].Id())) == [items[k]]
  {
    if k == 0 {
      if |items| > 1 {
        FilterKeepsAll(items[1..], IdIsNot(items[0].Id()));
      }
      assert forall i :: 0 <= i < |items| - 1 ==> items[1..][i].Id() != items[0].Id();
      FilterNone(items[1..], items[0].Id());
    } else {
      FilterSingle(items[1..], k - 1);
      assert items[1..][k - 1] == items[k];
    }
  }

  lemma {:induction false} FilterNone(items: seq<CartItem>, id: int)
    requires forall i :: 0 <= i < |items| ==> items[i].Id() != id
    ensures Filter(items, IdIs(id)) == []
  {
    if items != [] {
      FilterNone(items[1..], id);
    }
  }

  lemma LineTotalIncrement(item: CartItem)
    ensures LineTotal(item.(quantity := item.quantity + 1)) == LineTotal(item) + UnitPrice(item)
  {
    var p := EffectivePrice(item.product);
    assert p * (item.quantity + 1) == p * item.quantity + p;
  }

  /** Incrementing the matching lines adds one unit, and one unit price, per matching line. */
  lemma {:induction false} IncrementTotals(items: seq<CartItem>, id: int)
    ensures QuantitySum(Map(items, Increment(id))) == QuantitySum(items) + |Filter(items, IdIs(id))|
    ensures PriceSum(Map(items, Increment(id))) == PriceSum(items) + Sum(Filter(items, IdIs(id)), UnitPrice)
  {
    if items != [] {
      var head, tail := items[0], items[1..];
      IncrementTotals(tail, id);
      var m := Map(items, Increment(id));
      assert m == [Increment(id)(head)] + Map(tail, Increment(id));
      assert m[1..] == Map(tail, Increment(id));
      var ft := Filter(tail, IdIs(id));
      assert Sum(m, Quantity) == Quantity(m[0]) + Sum(m[1..], Quantity);
      assert Sum(m, LineTotal) == LineTotal(m[0]) + Sum(m[1..], LineTotal);
      if head.Id() == id {
        var f := [head] + ft;
        assert Filter(items, IdIs(id)) == f;
        assert f[1..] == ft;
        assert Sum(f, UnitPrice) == UnitPrice(head) + Sum(ft, UnitPrice);
        assert m[0] == head.(quantity := head.quantity + 1);
        LineTotalIncrement(head);
      } else {
        assert Filter(items, IdIs(id)) == ft;
        assert m[0] == head;
      }
    }
  }

  /** Adding a product whose id is on line k of a well-formed cart adds one unit of that line. */
  lemma AddPresentTotals(items: seq<CartItem>, product: Product, k: nat)
    requires WellFormed(items)
    requires k < |items| && items[k].Id() == product.id
    ensures QuantitySum(Add(items, product)) == QuantitySum(items) + 1
    ensures PriceSum(Add(items, product)) == PriceSum(items) + EffectivePrice(items[k].product)
  {
    assert Find(items, IdIs(product.id)).Some?;
    assert Add(items, product) == Map(items, Increment(product.id));
    FilterSingle(items, k);
    IncrementTotals(items, product.id);
    assert Sum([items[k]], UnitPrice) == UnitPrice(items[k]);
  }

  /**
   * In a cart with one line per id, adding a product raises the item count by
   * exactly one and the subtotal by the effective price of that product's line
   * (the snapshot already in the cart, or the new product).
   */
  lemma AddTotals(items: seq<CartItem>, product: Product)
    requires WellFormed(items)
    ensures QuantitySum(Add(items, product)) == QuantitySum(items) + 1
    ensures HasId(items, product.id) ==>
      exists k :: 0 <= k < |items| && items[k].Id() == product.id &&
                  PriceSum(Add(items, product)) == PriceSum(items) + EffectivePrice(items[k].product)
    ensures !HasId(items, product.id) ==>
      PriceSum(Add(items, product)) == PriceSum(items) + EffectivePrice(product)
  {
    if HasId(items, product.id) {
      var k :| 0 <= k < |items| && items[k].Id() == product.id;
      AddPresentTotals(items, product, k);
    } else {
      var line := CartItem(product, 1);
      assert Add(items, product) == items + [line];
      TotalsConcat(items, [line]);
      TotalsOfLine(line);
    }
  }

  /** Adding a product that is not in the cart twice gives one new line with quantity 2. */
  lemma AddTwice(items: seq<CartItem>, product: Product)
    requires !HasId(items, product.id)
    ensures Add(Add(items, product), product) == items + [CartItem(product, 2)]
  {
    var once := Add(items, product);
    assert once[|items|].Id() == product.id;
    var twice := Add(once, product);
    assert |twice| == |items| + 1;
    forall i | 0 <= i < |twice| ensures twice[i] == (items + [CartItem(product, 2)])[i] {
      if i < |items| { assert once[i] == items[i]; }
    }
  }

  /** In a cart with one line per id, removing the id of line k cuts exactly that line out. */
  lemma RemoveLine(items: seq<CartItem>, k: nat)
    requires k < |items|
    requires DistinctBy(items, ItemId)
    ensures Remove(items, items[k].Id()) == items[..k] + items[k + 1..]
  {
    var id := items[k].Id();
    assert forall i :: 0 <= i < |items| && i != k ==> IdIsNot(id)(items[i]) by {
      forall i | 0 <= i < |items| && i != k ensures items[i].Id() != id {
        if i < k { assert ItemId(items[i]) != ItemId(items[k]); } else { assert ItemId(items[k]) != ItemId(items[i]); }
      }
    }
    FilterDropOne(items, k, IdIsNot(id));
  }

  /** In a cart with one line per id, removing a line takes away exactly its quantity and its line total. */
  lemma RemoveTotals(items: seq<CartItem>, k: nat)
    requires k < |items|
    requires DistinctBy(items, ItemId)
    ensures QuantitySum(Remove(items, items[k].Id())) == QuantitySum(items) - items[k].quantity
    ensures PriceSum(Remove(items, items[k].Id())) == PriceSum(items) - LineTotal(items[k])
  {
    var before, after := items[..k], items[k + 1..];
    RemoveLine(items, k);
    assert items == before + [items[k]] + after;
    SumConcat(before + [items[k]], after, Quantity);
    SumConcat(before, [items[k]], Quantity);
    SumConcat(before, after, Quantity);
    SumConcat(before + [items[k]], after, LineTotal);
    SumConcat(before, [items[k]], LineTotal);
    SumConcat(before, after, LineTotal);
  }

  /** The totals are sums: one line contributes its quantity and its effective price times its quantity. */
  lemma TotalsOfLine(item: CartItem)
    ensures QuantitySum([item]) == item.quantity
    ensures PriceSum([item]) == EffectivePrice(item.product) * item.quantity
  {
    assert [item][0] == item && [item][1..] == [];
    assert Sum([item][1..], Quantity) == 0;
    assert Sum([item][1..], LineTotal) == 0;
  }

  /** The totals of a concatenation are the sums of the totals. */
  lemma TotalsConcat(front: seq<CartItem>, back: seq<CartItem>)
    ensures QuantitySum(front + back) == QuantitySum(front) + QuantitySum(back)
    ensures PriceSum(front + back) == PriceSum(front) + PriceSum(back)
  {
    SumConcat(front, back, Quantity);
    SumConcat(front, back, LineTotal);
  }

  /** Two units at 1000 and one unit discounted from 2000 to 1500 come to 3500. */
  lemma SubtotalExample()
    ensures PriceSum([CartItem(Product(1, "a", 1000, None), 2), CartItem(Product(2, "b", 2000, Some(1500)), 1)]) == 3500
  {
    var first := CartItem(Product(1, "a", 1000, None), 2);
    var second := CartItem(Product(2, "b", 2000, Some(1500)), 1);
    TotalsConcat([first], [second]);
    TotalsOfLine(first);
    TotalsOfLine(second);
    assert [first] + [second] == [first, second];
  }

  /** With non-negative quantities and prices, the subtotal is not negative. */
  lemma {:induction false} PriceSumNonNegative(items: seq<CartItem>)
    requires forall i :: 0 <= i < |items| ==> items[i].quantity >= 0 && EffectivePrice(items[i].product) >= 0
    ensures PriceSum(items) >= 0
  {
    if items != [] {
      PriceSumNonNegative(items[1..]);
      var p := EffectivePrice(items[0].product);
      assert p * items[0].quantity >= 0;
    }
  }

  /** With every quantity at least 1, the item count is at least the number of lines. */
  lemma {:induction false} QuantitySumBound(items: seq<CartItem>)
    requires forall i :: 0 <= i < |items| ==> items[i].quantity >= 1
    ensures QuantitySum(items) >= |items|
  {
    if items != [] {
      QuantitySumBound(items[1..]);
    }
  }

  /**
   * The cart provider: the in-memory list of line items and the storage it is
   * mirrored into after every change.
   */
  class CartStore {
    var items: seq<CartItem>
    var storage: map<string, seq<CartItem>>

    /** The persisted copy equals the in-memory list. */
    ghost predicate Valid()
      reads this
    {
      CartKey in storage && storage[CartKey] == items
    }

    /** Rehydrates the list from storage (empty when nothing is saved) and persists it. */
    constructor (saved: map<string, seq<CartItem>>)
      ensures Valid()
      ensures items == (if CartKey in saved then saved[CartKey] else [])
      ensures storage == saved[CartKey := items]
    {
      items := if CartKey in saved then saved[CartKey] else [];
      new;
      storage := saved[CartKey := items];
    }

    method AddToCart(product: Product)
      requires Valid()
      modifies this
      ensures Valid()
      ensures items == Add(old(items), product)
      ensures storage == old(storage)[CartKey := items]
      ensures WellFormed(old(items)) ==> WellFormed(items)
    {
      if WellFormed(items) {
        AddWellFormed(items, product);
      }
      items := Add(items, product);
      storage := storage[CartKey := items];
    }

    method RemoveFromCart(id: int)
      requires Valid()
      modifies this
      ensures Valid()
      ensures items == Remove(old(items), id)
      ensures storage == old(storage)[CartKey := items]
      ensures WellFormed(old(items)) ==> WellFormed(items)
    {
      if WellFormed(items) {
        RemoveWellFormed(items, id);
      }
      items := Remove(items, id);
      storage := storage[CartKey := items];
    }

    method UpdateQuantity(id: int, delta: int)
      requires Valid()
      modifies this
      ensures Valid()
      ensures items == Update(old(items), id, delta)
      ensures storage == old(storage)[CartKey := items]
      ensures WellFormed(old(items)) ==> WellFormed(items)
    {
      if WellFormed(items) {
        UpdateWellFormed(items, id, delta);
      }
      items := Update(items, id, delta);
      storage := storage[CartKey := items];
    }

    method ClearCart()
      requires Valid()
      modifies this
      ensures Valid()
      ensures items == []
      ensures storage == old(storage)[CartKey := []]
      ensures WellFormed(items)
    {
      items := [];
      storage := storage[CartKey := items];
    }

    /** `totalItems`: in a well-formed cart, at least one per line. */
    function TotalItems(): (n: int)
      reads this
      ensures items == [] ==> n == 0
      ensures WellFormed(items) ==> n >= |items|
    {
      if WellFormed(items) then QuantitySumBound(items); QuantitySum(items) else QuantitySum(items)
    }

    /** `subtotal`: never negative when no price is. */
    function Subtotal(): (s: int)
      reads this
      ensures items == [] ==> s == 0
      ensures (forall i :: 0 <= i < |items| ==> items[i].quantity >= 1 && EffectivePrice(items[i].product) >= 0) ==> s >= 0
    {
      if forall i :: 0 <= i < |items| ==> items[i].quantity >= 1 && EffectivePrice(items[i].product) >= 0 then
        PriceSumNonNegative(items); PriceSum(items)
      else PriceSum(items)
    }
  }
}
