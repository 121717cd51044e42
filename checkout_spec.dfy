/** What a checkout computes from the open items of a cart (api/routes/cart.js:237-370): the amount
    it charges, the stock it takes, the sales lines it records and the items it closes. */
module CheckoutSpec {
  import opened Common
  import opened Records
  import opened Database
  import opened Trending

  /** The query `{cart_id: cart, checkout: false}`. */
  function OpenIn(cart: CartId): CartItem -> bool
  {
    (x: CartItem) => x.cartId == cart && !x.checkout
  }

  /** The open items of one cart, in store order (cart.js:26-29 and 237-240). */
  function OpenItemsOf(items: seq<CartItem>, cart: CartId): (r: seq<CartItem>)
    ensures forall x :: x in r <==> x in items && x.cartId == cart && !x.checkout
    ensures multiset(r) <= multiset(items)
  {
    Filter(items, OpenIn(cart))
  }

  /** Every item's product is in the catalog. */
  predicate Stocked(products: map<ProductId, Product>, items: seq<CartItem>)
  {
    forall i :: 0 <= i < |items| ==> items[i].productId in products
  }

  /** No two items name the same product. */
  predicate ProductsDistinct(items: seq<CartItem>)
  {
    forall i, j :: 0 <= i < j < |items| ==> items[i].productId != items[j].productId
  }

  /** The stock check of cart.js:267-268: taking the item's units would leave the product below zero. */
  predicate Short(products: map<ProductId, Product>, it: CartItem)
    requires it.productId in products
  {
    products[it.productId].quantity - it.quantity < 0
  }

  predicate AnyShort(products: map<ProductId, Product>, items: seq<CartItem>)
    requires Stocked(products, items)
  {
    exists i :: 0 <= i < |items| && Short(products, items[i])
  }

  /** The amount the route charges: the product's current price times the item's units, summed
      over the items that pass the stock check (a failing item only skips its own addition). */
  function ChargedTotal(products: map<ProductId, Product>, items: seq<CartItem>): int
    requires Stocked(products, items)
    decreases |items|
  {
    if items == [] then 0
    else
      var last := items[|items| - 1];
      ChargedTotal(products, items[..|items| - 1])
        + (if Short(products, last) then 0 else products[last.productId].price * last.quantity)
  }

  /** The price of every item at the product's current price. */
  function FullTotal(products: map<ProductId, Product>, items: seq<CartItem>): int
    requires Stocked(products, items)
    decreases |items|
  {
    if items == [] then 0
    else
      var last := items[|items| - 1];
      FullTotal(products, items[..|items| - 1]) + products[last.productId].price * last.quantity
  }

  /** The price of every item at the price copied into it. */
  function SnapshotTotal(items: seq<CartItem>): int
    decreases |items|
  {
    if items == [] then 0
    else
      var last := items[|items| - 1];
      SnapshotTotal(items[..|items| - 1]) + last.price * last.quantity
  }

  /** When every item passes the stock check the route charges for all of them. */
  lemma {:induction false} ChargedTotalNoShort(products: map<ProductId, Product>, items: seq<CartItem>)
    requires Stocked(products, items) && !AnyShort(products, items)
    ensures ChargedTotal(products, items) == FullTotal(products, items)
    decreases |items|
  {
    if items != [] {
      var init := items[..|items| - 1];
      assert forall i :: 0 <= i < |init| ==> init[i] == items[i];
      ChargedTotalNoShort(products, init);
    }
  }

  /** With non-negative prices and units, a failed stock check only lowers the amount charged. */
  lemma {:induction false} ChargedTotalAtMostFull(products: map<ProductId, Product>, items: seq<CartItem>)
    requires Stocked(products, items)
    requires forall i :: 0 <= i < |items| ==> items[i].quantity >= 0 && products[items[i].productId].price >= 0
    ensures ChargedTotal(products, items) <= FullTotal(products, items)
    decreases |items|
  {
    if items != [] {
      var init := items[..|items| - 1];
      assert forall i :: 0 <= i < |init| ==> init[i] == items[i];
      ChargedTotalAtMostFull(products, init);
    }
  }

  /** When every item carries its product's price, the product-price total is the copied-price total. */
  lemma {:induction false} FullTotalSynced(products: map<ProductId, Product>, items: seq<CartItem>)
    requires Stocked(products, items)
    requires forall i :: 0 <= i < |items| ==> items[i].price == products[items[i].productId].price
    ensures FullTotal(products, items) == SnapshotTotal(items)
    decreases |items|
  {
    if items != [] {
      var init := items[..|items| - 1];
      assert forall i :: 0 <= i < |init| ==> init[i] == items[i];
      FullTotalSynced(products, init);
    }
  }

  /** The units of product `id` that the items order. */
  function Ordered(items: seq<CartItem>, id: ProductId): int
    decreases |items|
  {
    if items == [] then 0
    else
      var last := items[|items| - 1];
      Ordered(items[..|items| - 1], id) + (if last.productId == id then last.quantity else 0)
  }

  /** The catalog after each item's units are taken from its product, item by item (cart.js:332-339). */
  function Decrement(products: map<ProductId, Product>, items: seq<CartItem>): (r: map<ProductId, Product>)
    requires Stocked(products, items)
    ensures r.Keys == products.Keys
    decreases |items|
  {
    if items == [] then products
    else
      var init := items[..|items| - 1];
      var last := items[|items| - 1];
      assert Stocked(products, init) by {
        assert forall i :: 0 <= i < |init| ==> init[i] == items[i];
      }
      var d := Decrement(products, init);
      d[last.productId := d[last.productId].(quantity := d[last.productId].quantity - last.quantity)]
  }

  /** Taking the stock leaves every product as it was except that it loses exactly the units
      ordered of it. */
  lemma {:induction false} DecrementAt(products: map<ProductId, Product>, items: seq<CartItem>, id: ProductId)
    requires Stocked(products, items) && id in products
    ensures Decrement(products, items)[id] == products[id].(quantity := products[id].quantity - Ordered(items, id))
    decreases |items|
  {
    if items != [] {
      var init := items[..|items| - 1];
      assert forall i :: 0 <= i < |init| ==> init[i] == items[i];
      DecrementAt(products, init, id);
    }
  }

  /** With one item per product, a product's ordered units are that item's units, or none. */
  lemma {:induction false} OrderedDistinct(items: seq<CartItem>, id: ProductId)
    requires ProductsDistinct(items)
    ensures forall k :: 0 <= k < |items| && items[k].productId == id ==> Ordered(items, id) == items[k].quantity
    ensures (forall k :: 0 <= k < |items| ==> items[k].productId != id) ==> Ordered(items, id) == 0
    decreases |items|
  {
    if items != [] {
      var init := items[..|items| - 1];
      assert forall i :: 0 <= i < |init| ==> init[i] == items[i];
      OrderedDistinct(init, id);
    }
  }

  /** When no item fails the stock check, taking the stock leaves no product that had units
      below zero. */
  lemma DecrementNonNegative(products: map<ProductId, Product>, items: seq<CartItem>)
    requires Stocked(products, items) && ProductsDistinct(items) && !AnyShort(products, items)
    ensures forall id :: id in products && products[id].quantity >= 0 ==> Decrement(products, items)[id].quantity >= 0
  {
    forall id | id in products && products[id].quantity >= 0
      ensures Decrement(products, items)[id].quantity >= 0
    {
      OrderedDistinct(items, id);
      DecrementAt(products, items, id);
      if k :| 0 <= k < |items| && items[k].productId == id {
        assert !Short(products, items[k]);
      }
    }
  }

  /** The sales lines a paid checkout records, one per item (cart.js:341-347). */
  function SoldLines(items: seq<CartItem>, orderedAt: int): (r: seq<SoldProduct>)
    ensures |r| == |items|
    ensures forall i :: 0 <= i < |items| ==>
              r[i].productId == items[i].productId && r[i].quantity == items[i].quantity
              && r[i].orderedAt == orderedAt
  {
    seq(|items|, i requires 0 <= i < |items| => SoldProduct(items[i].productId, orderedAt, items[i].quantity))
  }

  /** The sales ledger records, per product, exactly the units the checkout takes from stock. */
  lemma {:induction false} SoldLinesMatchStock(items: seq<CartItem>, orderedAt: int, id: ProductId)
    ensures SoldTotal(SoldLines(items, orderedAt), id) == Ordered(items, id)
    decreases |items|
  {
    if items != [] {
      var init := items[..|items| - 1];
      assert SoldLines(items, orderedAt)[..|items| - 1] == SoldLines(init, orderedAt);
      SoldLinesMatchStock(init, orderedAt, id);
    }
  }

  /** The items after `updateMany({cart_id, checkout: false}, {checkout: true})` (cart.js:367-370). */
  function CloseCart(items: seq<CartItem>, cart: CartId): (r: seq<CartItem>)
    ensures |r| == |items|
    ensures forall i :: 0 <= i < |items| ==>
              if items[i].cartId == cart then r[i] == items[i].(checkout := true) else r[i] == items[i]
  {
    seq(|items|, i requires 0 <= i < |items| =>
      if items[i].cartId == cart && !items[i].checkout then items[i].(checkout := true) else items[i])
  }

  lemma OpenProductsDistinctTail(all: seq<CartItem>)
    requires OpenProductsDistinct(all) && all != []
    ensures OpenProductsDistinct(all[1..])
  {
    var rest := all[1..];
    forall i, j | 0 <= i < j < |rest| && OpenPair(rest[i], rest[j])
      ensures rest[i].productId != rest[j].productId
    {
      assert rest[i] == all[i + 1] && rest[j] == all[j + 1];
    }
  }

  /** The open items of a non-empty sequence: its head, if open in the cart, before those of its tail. */
  lemma OpenItemsUnfold(all: seq<CartItem>, cart: CartId)
    requires all != []
    ensures OpenItemsOf(all, cart) == if OpenIn(cart)(all[0]) then [all[0]] + OpenItemsOf(all[1..], cart)
                                      else OpenItemsOf(all[1..], cart)
  {
    assert all == [all[0]] + all[1..];
  }

  lemma OpenItemsDistinctStep(all: seq<CartItem>, cart: CartId)
    requires all != [] && OpenProductsDistinct(all) && ProductsDistinct(OpenItemsOf(all[1..], cart))
    ensures ProductsDistinct(OpenItemsOf(all, cart))
  {
    var tail := OpenItemsOf(all[1..], cart);
    var r := OpenItemsOf(all, cart);
    OpenItemsUnfold(all, cart);
    if OpenIn(cart)(all[0]) {
      var s := [all[0]] + tail;
      forall i, j | 0 <= i < j < |s| ensures s[i].productId != s[j].productId {
        if i == 0 {
          HeadApart(all, cart, tail[j - 1]);
        }
      }
      assert r == s;
    }
  }

  /** An open head item shares its product with no open item of the same cart further on. */
  lemma HeadApart(all: seq<CartItem>, cart: CartId, x: CartItem)
    requires all != [] && OpenProductsDistinct(all) && OpenIn(cart)(all[0])
    requires x in OpenItemsOf(all[1..], cart)
    ensures x.productId != all[0].productId
  {
    var rest := all[1..];
    var k :| 0 <= k < |rest| && rest[k] == x;
    assert all[k + 1] == x;
    assert OpenPair(all[0], all[k + 1]);
  }

  /** Selecting one cart's open items keeps "one open item per product and cart". */
  lemma {:induction false} OpenItemsDistinct(all: seq<CartItem>, cart: CartId)
    requires OpenProductsDistinct(all)
    ensures ProductsDistinct(OpenItemsOf(all, cart))
    decreases |all|
  {
    if all != [] {
      OpenProductsDistinctTail(all);
      OpenItemsDistinct(all[1..], cart);
      OpenItemsDistinctStep(all, cart);
    }
  }
}
