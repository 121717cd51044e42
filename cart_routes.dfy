/** The cart router (api/routes/cart.js): reading the open cart, adding, removing and re-counting
    items, and checkout. Each handler runs as one atomic step on the store. */
module CartRoutes {
  import opened Common
  import opened Records
  import opened OrderModel
  import opened Database
  import opened CheckoutSpec

  /** The `quantity` of an add request passes the range guard of cart.js:58-61 (a missing one does). */
  predicate AddQuantityAccepted(quantity: Option<int>)
  {
    quantity.None? || 1 <= quantity.value <= 5
  }

  /** An open item of `cart` for `product` (the duplicate lookup of cart.js:67-71). */
  predicate OpenItemFor(x: CartItem, cart: CartId, product: ProductId)
  {
    x.cartId == cart && x.productId == product && !x.checkout
  }

  /** Appending an open item to an open cart keeps the store consistent when its id is new, its
      product exists and is copied into it, and its cart has no open item for that product. */
  lemma AppendItemConsistent(t: Tables, it: CartItem)
    requires Consistent(t)
    requires it.cartId in t.carts && !t.carts[it.cartId].checkout && !it.checkout
    requires 1 <= it.quantity <= 5
    requires it.productId in t.products && Synced(it, t.products[it.productId])
    requires forall i :: 0 <= i < |t.cartItems| ==> t.cartItems[i].id != it.id
    requires forall i :: 0 <= i < |t.cartItems| ==> !OpenItemFor(t.cartItems[i], it.cartId, it.productId)
    ensures Consistent(t.(cartItems := t.cartItems + [it]))
  {
    var t' := t.(cartItems := t.cartItems + [it]);
    var n := |t.cartItems|;
    assert forall i :: 0 <= i < n ==> t'.cartItems[i] == t.cartItems[i];
    assert ItemsLinked(t');
    assert QuantitiesInRange(t'.cartItems);
    assert ItemIdsUnique(t'.cartItems);
    forall i, j | 0 <= i < j < |t'.cartItems| && OpenPair(t'.cartItems[i], t'.cartItems[j])
      ensures t'.cartItems[i].productId != t'.cartItems[j].productId
    {
      if j == n {
        assert !OpenItemFor(t.cartItems[i], it.cartId, it.productId);
      }
    }
    assert OpenItemsSynced(t');
  }

  /** Giving a user without a cart a fresh open cart keeps the store consistent. */
  lemma NewCartConsistent(t: Tables, userId: UserId, cart: CartId)
    requires Consistent(t)
    requires userId in t.users && t.users[userId].cartId == ""
    requires cart != "" && cart !in t.carts
    ensures Consistent(t.(carts := t.carts[cart := Cart(userId, false)],
                          users := t.users[userId := t.users[userId].(cartId := cart)]))
    ensures forall i :: 0 <= i < |t.cartItems| ==> t.cartItems[i].cartId != cart
  {
    var t' := t.(carts := t.carts[cart := Cart(userId, false)],
                 users := t.users[userId := t.users[userId].(cartId := cart)]);
    assert UserCartsOpen(t');
    assert ItemsLinked(t');
    assert EmailsUnique(t'.users) by {
      forall u, v | u in t'.users && v in t'.users && u != v
        ensures t'.users[u].email != t'.users[v].email
      {
        assert t'.users[u].email == t.users[u].email && t'.users[v].email == t.users[v].email;
      }
    }
  }

  /** Deleting one item keeps the store consistent. */
  lemma RemoveAtConsistent(t: Tables, k: nat)
    requires Consistent(t) && k < |t.cartItems|
    ensures Consistent(t.(cartItems := RemoveAt(t.cartItems, k)))
  {
    var t' := t.(cartItems := RemoveAt(t.cartItems, k));
    var r := t'.cartItems;
    forall i, j | 0 <= i < j < |r|
      ensures r[i].id != r[j].id
      ensures OpenPair(r[i], r[j]) ==> r[i].productId != r[j].productId
    {
      var i' := if i < k then i else i + 1;
      var j' := if j < k then j else j + 1;
      assert r[i] == t.cartItems[i'] && r[j] == t.cartItems[j'] && i' < j';
    }
    assert ItemsLinked(t');
    assert QuantitiesInRange(r);
    assert OpenItemsSynced(t');
  }

  /** Changing one item's units to a count within 1..5 keeps the store consistent. */
  lemma SetQuantityConsistent(t: Tables, k: nat, units: int)
    requires Consistent(t) && k < |t.cartItems| && 1 <= units <= 5
    ensures Consistent(t.(cartItems := t.cartItems[k := t.cartItems[k].(quantity := units)]))
  {
    var t' := t.(cartItems := t.cartItems[k := t.cartItems[k].(quantity := units)]);
    assert ItemsLinked(t');
    assert QuantitiesInRange(t'.cartItems);
    assert ItemIdsUnique(t'.cartItems);
    assert OpenProductsDistinct(t'.cartItems);
    assert OpenItemsSynced(t');
  }

  /** The query `{cart_id: cart, product_id: product}` of cart.js:193-196, which ignores `checkout`. */
  function ItemFor(cart: CartId, product: ProductId): CartItem -> bool
  {
    (x: CartItem) => x.cartId == cart && x.productId == product
  }

  /** `POST /cart`: the open items of the user's current cart, or none. */
  method GetCart(db: Db, userId: UserId) returns (reply: Reply, cart: seq<CartItem>)
    ensures userId !in db.users ==> reply == Failure(BadRequest) && cart == []
    ensures userId in db.users ==> reply == Success
    ensures userId in db.users ==>
              var c := db.users[userId].cartId;
              cart == if c != "" && c in db.carts && !db.carts[c].checkout
                      then OpenItemsOf(db.cartItems, c) else []
    ensures db.Valid() && userId in db.users ==>
              cart == if db.users[userId].cartId == "" then [] else OpenItemsOf(db.cartItems, db.users[userId].cartId)
    ensures forall x :: x in cart ==> x in db.cartItems && !x.checkout
  {
    if userId !in db.users {
      return Failure(BadRequest), [];
    }
    var c := db.users[userId].cartId;
    if c != "" && c in db.carts && !db.carts[c].checkout {
      cart := OpenItemsOf(db.cartItems, c);
    } else {
      cart := [];
    }
    reply := Success;
  }

  /** What `POST /cart/add` answers and leaves in the store (cart.js:56-145). A quantity outside
      1..5 is a bad request and an unknown user an internal error; so is a second open item for
      the product in the user's cart, or a product that is missing or out of stock, a bad request.
      Otherwise one item at the product's price, name and description is appended, in a new cart
      `newCartId` when the user had none. */
  ghost function AddOutcome(t: Tables, userId: UserId, productId: ProductId, quantity: Option<int>,
                            newCartId: CartId, newItemId: CartItemId): (Reply, Tables)
  {
    if !AddQuantityAccepted(quantity) then (Failure(BadRequest), t)
    else if userId !in t.users then (Failure(InternalError), t)
    else
      var c := t.users[userId].cartId;
      var duplicate := c != "" && exists i :: 0 <= i < |t.cartItems| && OpenItemFor(t.cartItems[i], c, productId);
      var available := productId in t.products && t.products[productId].quantity > 0;
      if duplicate || !available then (Failure(BadRequest), t)
      else
        var p := t.products[productId];
        var cart := if c != "" then c else newCartId;
        var item := CartItem(newItemId, cart, productId, userId, if quantity.Some? then quantity.value else 1,
                             p.price, p.name, p.description, false);
        (Success, t.(cartItems := t.cartItems + [item],
                     carts := if c != "" then t.carts else t.carts[newCartId := Cart(userId, false)],
                     users := if c != "" then t.users else t.users[userId := t.users[userId].(cartId := newCartId)]))
  }

  /** Adding keeps the store consistent, and a successful add appends exactly one item. */
  lemma AddConsistent(t: Tables, userId: UserId, productId: ProductId, quantity: Option<int>,
                      newCartId: CartId, newItemId: CartItemId)
    requires Consistent(t)
    requires newCartId != "" && newCartId !in t.carts
    requires forall i :: 0 <= i < |t.cartItems| ==> t.cartItems[i].id != newItemId
    ensures Consistent(AddOutcome(t, userId, productId, quantity, newCartId, newItemId).1)
    ensures AddOutcome(t, userId, productId, quantity, newCartId, newItemId).0 == Success <==>
            |AddOutcome(t, userId, productId, quantity, newCartId, newItemId).1.cartItems| == |t.cartItems| + 1
  {
    var after := AddOutcome(t, userId, productId, quantity, newCartId, newItemId);
    if !AddQuantityAccepted(quantity) || userId !in t.users {
      return;
    }
    var c := t.users[userId].cartId;
    var duplicate := c != "" && exists i :: 0 <= i < |t.cartItems| && OpenItemFor(t.cartItems[i], c, productId);
    var available := productId in t.products && t.products[productId].quantity > 0;
    if duplicate || !available {
      assert after == (Failure(BadRequest), t);
      return;
    }
    var p := t.products[productId];
    var t1 := t;
    if c == "" {
      NewCartConsistent(t, userId, newCartId);
      t1 := t.(carts := t.carts[newCartId := Cart(userId, false)],
               users := t.users[userId := t.users[userId].(cartId := newCartId)]);
    }
    var cart := if c != "" then c else newCartId;
    var item := CartItem(newItemId, cart, productId, userId, if quantity.Some? then quantity.value else 1,
                         p.price, p.name, p.description, false);
    AppendItemConsistent(t1, item);
    assert after.1 == t1.(cartItems := t1.cartItems + [item]);
  }

  /** `POST /cart/add`. `newCartId` and `newItemId` are the fresh ids the store would generate. */
  method Add(db: Db, userId: UserId, productId: ProductId, quantity: Option<int>,
             newCartId: CartId, newItemId: CartItemId) returns (reply: Reply)
    requires db.Valid()
    requires newCartId != "" && newCartId !in db.carts
    requires forall i :: 0 <= i < |db.cartItems| ==> db.cartItems[i].id != newItemId
    modifies db
    ensures db.Valid()
    ensures (reply, db.State()) == AddOutcome(old(db.State()), userId, productId, quantity, newCartId, newItemId)
  {
    AddConsistent(db.State(), userId, productId, quantity, newCartId, newItemId);
    reply := AddItem(db, userId, productId, quantity, newCartId, newItemId);
  }

  method AddItem(db: Db, userId: UserId, productId: ProductId, quantity: Option<int>,
                 newCartId: CartId, newItemId: CartItemId) returns (reply: Reply)
    modifies db
    ensures (reply, db.State()) == AddOutcome(old(db.State()), userId, productId, quantity, newCartId, newItemId)
  {
    if quantity.Some? && (quantity.value > 5 || quantity.value <= 0) {
      return Failure(BadRequest);
    }
    if userId !in db.users {
      return Failure(InternalError);
    }
    var user := db.users[userId];
    var units := if quantity.Some? then quantity.value else 1;
    var cart := user.cartId;
    if cart != "" {
      var existing := FindFirst(db.cartItems, (x: CartItem) => OpenItemFor(x, cart, productId));
      if existing.Some? {
        assert OpenItemFor(db.cartItems[existing.value], cart, productId);
        return Failure(BadRequest);
      }
    }
    if !(productId in db.products && db.products[productId].quantity > 0) {
      return Failure(BadRequest);
    }
    if cart == "" {
      cart := newCartId;
      db.carts := db.carts[newCartId := Cart(userId, false)];
      db.users := db.users[userId := user.(cartId := newCartId)];
    }
    var p := db.products[productId];
    var item := CartItem(newItemId, cart, productId, userId, units, p.price, p.name, p.description, false);
    db.cartItems := db.cartItems + [item];
    reply := Success;
  }

  /** `POST /cart/remove`: deletes the item with the given id, whatever cart it is in. */
  method Remove(db: Db, itemId: CartItemId) returns (reply: Reply)
    requires db.Valid()
    modifies db
    ensures db.Valid()
    ensures (forall i :: 0 <= i < |old(db.cartItems)| ==> old(db.cartItems)[i].id != itemId) ==>
              reply == Failure(NotFound) && db.State() == old(db.State())
    ensures (exists i :: 0 <= i < |old(db.cartItems)| && old(db.cartItems)[i].id == itemId) ==>
              && reply == Success
              && (exists k :: 0 <= k < |old(db.cartItems)| && old(db.cartItems)[k].id == itemId
                              && db.State() == old(db.State()).(cartItems := RemoveAt(old(db.cartItems), k)))
              && (forall x :: x in db.cartItems ==> x.id != itemId)
  {
    var found := FindFirst(db.cartItems, (x: CartItem) => x.id == itemId);
    if found.None? {
      return Failure(NotFound);
    }
    ghost var before := db.cartItems;
    RemoveAtConsistent(db.State(), found.value);
    db.cartItems := RemoveAt(db.cartItems, found.value);
    forall x | x in db.cartItems ensures x.id != itemId {
      var i :| 0 <= i < |db.cartItems| && db.cartItems[i] == x;
      assert x == before[if i < found.value then i else i + 1];
    }
    reply := Success;
  }

  /** `quantity` of an update request passes the guards of cart.js:179-190: present, non-zero,
      and one step up or down. */
  predicate StepAccepted(quantity: Option<int>)
  {
    quantity.Some? && quantity.value != 0 && -1 <= quantity.value <= 1
  }

  /** What `POST /cart/update` answers and leaves in the store (cart.js:177-214): only a step of 1 or
      -1 is accepted; an unknown user or a missing item is an internal error; otherwise the first
      item of the product in the user's cart gets the stepped units when they stay within 1..5. */
  ghost function UpdateOutcome(t: Tables, userId: UserId, productId: ProductId, quantity: Option<int>): (Reply, Tables)
  {
    if !StepAccepted(quantity) then (Failure(BadRequest), t)
    else if userId !in t.users then (Failure(InternalError), t)
    else match FindFirst(t.cartItems, ItemFor(t.users[userId].cartId, productId))
      case None => (Failure(InternalError), t)
      case Some(k) =>
        var units := t.cartItems[k].quantity + quantity.value;
        if 1 <= units <= 5 then (Success, t.(cartItems := t.cartItems[k := t.cartItems[k].(quantity := units)]))
        else (Failure(BadRequest), t)
  }

  /** An update keeps the store consistent and changes nothing but one item's units. */
  lemma UpdateConsistent(t: Tables, userId: UserId, productId: ProductId, quantity: Option<int>)
    requires Consistent(t)
    ensures Consistent(UpdateOutcome(t, userId, productId, quantity).1)
    ensures UpdateOutcome(t, userId, productId, quantity).1 == t.(cartItems := UpdateOutcome(t, userId, productId, quantity).1.cartItems)
    ensures |UpdateOutcome(t, userId, productId, quantity).1.cartItems| == |t.cartItems|
  {
    var after := UpdateOutcome(t, userId, productId, quantity).1;
    if StepAccepted(quantity) && userId in t.users {
      var found := FindFirst(t.cartItems, ItemFor(t.users[userId].cartId, productId));
      if found.Some? {
        var k := found.value;
        var units := t.cartItems[k].quantity + quantity.value;
        if 1 <= units <= 5 {
          assert after == t.(cartItems := t.cartItems[k := t.cartItems[k].(quantity := units)]);
          SetQuantityConsistent(t, k, units);
          return;
        }
      }
    }
    assert after == t;
  }

  /** `POST /cart/update`: moves the units of the first item of the user's cart for the product one
      step, keeping them within 1..5. */
  method Update(db: Db, userId: UserId, productId: ProductId, quantity: Option<int>) returns (reply: Reply)
    requires db.Valid()
    modifies db
    ensures db.Valid()
    ensures (reply, db.State()) == UpdateOutcome(old(db.State()), userId, productId, quantity)
  {
    UpdateConsistent(db.State(), userId, productId, quantity);
    reply := StepUnits(db, userId, productId, quantity);
  }

  method StepUnits(db: Db, userId: UserId, productId: ProductId, quantity: Option<int>) returns (reply: Reply)
    modifies db
    ensures (reply, db.State()) == UpdateOutcome(old(db.State()), userId, productId, quantity)
  {
    if quantity.None? || quantity.value == 0 {
      return Failure(BadRequest);
    }
    var step := quantity.value;
    if step < -1 || step > 1 {
      return Failure(BadRequest);
    }
    if userId !in db.users {
      return Failure(InternalError);
    }
    var c := db.users[userId].cartId;
    var found := FindFirst(db.cartItems, ItemFor(c, productId));
    if found.None? {
      return Failure(InternalError);
    }
    var k := found.value;
    var units := db.cartItems[k].quantity + step;
    if 1 <= units <= 5 {
      db.cartItems := db.cartItems[k := db.cartItems[k].(quantity := units)];
      reply := Success;
    } else {
      reply := Failure(BadRequest);
    }
  }

  /** The `checkIfStripeTokenIsCreated` middleware (cart.js:407-417): checkout goes on only with a
      non-empty payment token. */
  predicate StripeTokenGiven(token: Option<string>)
  {
    token.Some? && token.value != ""
  }

  /** What the payment provider does with the charge: it throws, answers not paid, or answers paid
      with a transaction id and a receipt URL. */
  datatype ChargeOutcome = ChargeFails | Declined | Paid(transactionId: string, receiptUrl: string)

  /** The order document cart.js:279-290 writes: pending payment, transaction id "null", the total
      converted from whole currency units to the lowest unit (cart.js:277), and an `order_status`
      path the schema does not store. */
  function PendingOrder(userId: UserId, address: AddressFields, tel: Option<string>, cart: CartId,
                        total: int, orderedAt: int): OrderDoc
  {
    OrderDoc(Some(userId), address, tel, Some(cart), Some(Code(Pending)), Some("null"), None,
             Some(total * 100), Some(orderedAt), Some(5))
  }

  /** The store after the user's cart is detached from the user (cart.js:252-254). */
  ghost function Detached(t: Tables, userId: UserId): Tables
    requires userId in t.users
  {
    t.(users := t.users[userId := t.users[userId].(cartId := "")])
  }

  /** The store after a paid checkout settles (cart.js:332-370): stock taken, sales recorded, the
      order marked paid, the cart and its open items checked out. */
  ghost function Settled(t: Tables, cart: CartId, items: seq<CartItem>, orderId: OrderId, paid: Order,
                         orderedAt: int): Tables
    requires Stocked(t.products, items) && cart in t.carts
  {
    t.(products := Decrement(t.products, items), sold := t.sold + SoldLines(items, orderedAt),
       orders := t.orders[orderId := paid], carts := t.carts[cart := t.carts[cart].(checkout := true)],
       cartItems := CloseCart(t.cartItems, cart))
  }

  /** The open items of a cart of a consistent store name existing products, at the product's
      current price, and hold one to five units. */
  lemma OpenItemsLinked(t: Tables, cart: CartId)
    requires Consistent(t)
    ensures Stocked(t.products, OpenItemsOf(t.cartItems, cart))
    ensures forall i :: 0 <= i < |OpenItemsOf(t.cartItems, cart)| ==>
              var x := OpenItemsOf(t.cartItems, cart)[i];
              x.price == t.products[x.productId].price && 1 <= x.quantity <= 5
  {
    var r := OpenItemsOf(t.cartItems, cart);
    forall i | 0 <= i < |r|
      ensures r[i].productId in t.products && r[i].price == t.products[r[i].productId].price
      ensures 1 <= r[i].quantity <= 5
    {
      assert r[i] in t.cartItems;
      var k :| 0 <= k < |t.cartItems| && t.cartItems[k] == r[i];
    }
  }

  /** Every item names a product of the catalog and carries that product's price. */
  predicate PricesSynced(products: map<ProductId, Product>, items: seq<CartItem>)
    requires Stocked(products, items)
  {
    forall i :: 0 <= i < |items| ==> items[i].price == products[items[i].productId].price
  }

  /** What a checkout reads from the store: the user holds a cart that exists, and every open item
      of it names a product of the catalog at that product's price. */
  ghost predicate CheckoutReady(t: Tables, userId: UserId)
  {
    && userId in t.users && t.users[userId].cartId != "" && t.users[userId].cartId in t.carts
    && Stocked(t.products, OpenItemsOf(t.cartItems, t.users[userId].cartId))
    && PricesSynced(t.products, OpenItemsOf(t.cartItems, t.users[userId].cartId))
  }

  /** A consistent store is ready for a checkout by any user who holds a cart. */
  lemma ConsistentReady(t: Tables, userId: UserId)
    requires Consistent(t) && userId in t.users && t.users[userId].cartId != ""
    ensures CheckoutReady(t, userId)
  {
    OpenItemsLinked(t, t.users[userId].cartId);
  }

  /** Detaching a user's cart keeps the store consistent. */
  lemma DetachedConsistent(t: Tables, userId: UserId)
    requires Consistent(t) && userId in t.users
    ensures Consistent(Detached(t, userId))
  {
    var t' := Detached(t, userId);
    assert EmailsUnique(t'.users) by {
      forall u, v | u in t'.users && v in t'.users && u != v
        ensures t'.users[u].email != t'.users[v].email
      {
        assert t'.users[u].email == t.users[u].email && t'.users[v].email == t.users[v].email;
      }
    }
  }

  /** Checking out every open item of a cart keeps the item-level invariants. */
  lemma CloseCartKeepsItems(items: seq<CartItem>, cart: CartId)
    requires QuantitiesInRange(items) && ItemIdsUnique(items) && OpenProductsDistinct(items)
    ensures QuantitiesInRange(CloseCart(items, cart)) && ItemIdsUnique(CloseCart(items, cart))
    ensures OpenProductsDistinct(CloseCart(items, cart))
  {
    var r := CloseCart(items, cart);
    forall i, j | 0 <= i < j < |r| && OpenPair(r[i], r[j])
      ensures r[i].productId != r[j].productId
    {
      assert OpenPair(items[i], items[j]);
    }
  }

  /** Settling a cart that no user holds any more keeps the store consistent. */
  lemma SettledConsistent(t: Tables, cart: CartId, orderId: OrderId, paid: Order, orderedAt: int)
    requires Consistent(t) && cart in t.carts
    requires forall u :: u in t.users ==> t.users[u].cartId != cart
    requires Stocked(t.products, OpenItemsOf(t.cartItems, cart))
    ensures Consistent(Settled(t, cart, OpenItemsOf(t.cartItems, cart), orderId, paid, orderedAt))
  {
    var items := OpenItemsOf(t.cartItems, cart);
    var t' := Settled(t, cart, items, orderId, paid, orderedAt);
    assert UserCartsOpen(t');
    CloseCartKeepsItems(t.cartItems, cart);
    SettledLinked(t, cart, orderId, paid, orderedAt);
    SettledSynced(t, cart, orderId, paid, orderedAt);
  }

  lemma SettledLinked(t: Tables, cart: CartId, orderId: OrderId, paid: Order, orderedAt: int)
    requires Consistent(t) && cart in t.carts
    requires Stocked(t.products, OpenItemsOf(t.cartItems, cart))
    ensures ItemsLinked(Settled(t, cart, OpenItemsOf(t.cartItems, cart), orderId, paid, orderedAt))
  {
    var items := OpenItemsOf(t.cartItems, cart);
    var r := CloseCart(t.cartItems, cart);
    var carts := t.carts[cart := t.carts[cart].(checkout := true)];
    var products := Decrement(t.products, items);
    assert products.Keys == t.products.Keys;
    forall i | 0 <= i < |r|
      ensures r[i].cartId in carts && r[i].productId in products
      ensures !carts[r[i].cartId].checkout ==> !r[i].checkout
    {
      var x := t.cartItems[i];
      assert x.cartId in t.carts && x.productId in t.products;
      if x.cartId != cart {
        assert r[i] == x && carts[x.cartId] == t.carts[x.cartId];
      }
    }
    assert Settled(t, cart, items, orderId, paid, orderedAt).cartItems == r;
  }

  lemma SettledSynced(t: Tables, cart: CartId, orderId: OrderId, paid: Order, orderedAt: int)
    requires Consistent(t) && cart in t.carts
    requires Stocked(t.products, OpenItemsOf(t.cartItems, cart))
    ensures OpenItemsSynced(Settled(t, cart, OpenItemsOf(t.cartItems, cart), orderId, paid, orderedAt))
  {
    var items := OpenItemsOf(t.cartItems, cart);
    var t' := Settled(t, cart, items, orderId, paid, orderedAt);
    var r := t'.cartItems;
    forall i | 0 <= i < |r| && !r[i].checkout && r[i].productId in t'.products
      ensures Synced(r[i], t'.products[r[i].productId])
    {
      assert !t.cartItems[i].checkout;
      DecrementAt(t.products, items, r[i].productId);
    }
  }

  /** The stock check and price sum of cart.js:264-276 over the items in order. */
  method PriceItems(products: map<ProductId, Product>, items: seq<CartItem>) returns (total: int, short: bool)
    requires Stocked(products, items)
    ensures total == ChargedTotal(products, items)
    ensures short <==> AnyShort(products, items)
  {
    total, short := 0, false;
    for i := 0 to |items|
      invariant Stocked(products, items[..i])
      invariant total == ChargedTotal(products, items[..i])
      invariant short <==> exists j :: 0 <= j < i && Short(products, items[j])
    {
      assert items[..i + 1][..i] == items[..i];
      var it := items[i];
      if products[it.productId].quantity - it.quantity < 0 {
        short := true;
      } else {
        total := total + products[it.productId].price * it.quantity;
      }
    }
    assert items[..|items|] == items;
  }

  /** What one more settled item adds to the units taken and to the sales lines. */
  lemma TakeStockStep(products: map<ProductId, Product>, items: seq<CartItem>, i: nat, orderedAt: int)
    requires i < |items| && Stocked(products, items[..i]) && items[i].productId in products
    ensures Stocked(products, items[..i + 1])
    ensures SoldLines(items[..i + 1], orderedAt)
              == SoldLines(items[..i], orderedAt) + [SoldProduct(items[i].productId, orderedAt, items[i].quantity)]
    ensures var before := Decrement(products, items[..i]);
            Decrement(products, items[..i + 1])
              == before[items[i].productId := before[items[i].productId].(quantity := before[items[i].productId].quantity - items[i].quantity)]
  {
    var done := items[..i + 1];
    assert done[..i] == items[..i] && done[i] == items[i];
  }

  /** The settlement loop of cart.js:332-348: each item's units taken from its product and one
      sales line recorded per item. */
  method TakeStock(products: map<ProductId, Product>, items: seq<CartItem>, orderedAt: int)
    returns (after: map<ProductId, Product>, lines: seq<SoldProduct>)
    requires Stocked(products, items)
    ensures after == Decrement(products, items)
    ensures lines == SoldLines(items, orderedAt)
  {
    after, lines := products, [];
    var i := 0;
    while i < |items|
      invariant 0 <= i <= |items|
      invariant Stocked(products, items[..i])
      invariant after == Decrement(products, items[..i])
      invariant lines == SoldLines(items[..i], orderedAt)
    {
      var it := items[i];
      TakeStockStep(products, items, i, orderedAt);
      after := after[it.productId := after[it.productId].(quantity := after[it.productId].quantity - it.quantity)];
      lines := lines + [SoldProduct(it.productId, orderedAt, it.quantity)];
      i := i + 1;
    }
    assert items[..|items|] == items;
  }

  /** What a checkout of the user's current cart does (cart.js:236-399): the first answer and the
      store afterwards. A failed stock check answers with an internal error at once while the handler
      goes on; an order the schema rejects stops it after the cart is detached; a charge that throws
      or is not paid stops it after the pending order is stored; a paid charge settles. */
  ghost function CheckoutOutcome(t: Tables, userId: UserId, address: AddressFields, tel: Option<string>,
                                 orderId: OrderId, now: int, charge: ChargeOutcome): (Reply, Tables)
    requires CheckoutReady(t, userId)
  {
    var cart := t.users[userId].cartId;
    var items := OpenItemsOf(t.cartItems, cart);
    var short := AnyShort(t.products, items);
    var saved := Validate(PendingOrder(userId, address, tel, cart, ChargedTotal(t.products, items), now));
    var detached := Detached(t, userId);
    if saved.None? then (Failure(InternalError), detached)
    else
      var pending := detached.(orders := t.orders[orderId := saved.value]);
      AfterCharge(pending, cart, items, orderId, saved.value, short, now, charge)
  }

  /** What follows once the pending order `saved` is stored (cart.js:300-399): the charge decides the
      answer unless the stock check already failed (`short`), and a paid charge settles the cart. */
  ghost function AfterCharge(pending: Tables, cart: CartId, items: seq<CartItem>, orderId: OrderId, saved: Order,
                             short: bool, now: int, charge: ChargeOutcome): (Reply, Tables)
    requires Stocked(pending.products, items) && cart in pending.carts
  {
    match charge
    case ChargeFails => (Failure(if short then InternalError else BadRequest), pending)
    case Declined => (Failure(if short then InternalError else PaymentRequired), pending)
    case Paid(id, url) =>
      var paid := saved.(paymentStatus := Code(Successful), transactionId := id, receiptUrl := Some(url));
      (if short then Failure(InternalError) else Success, Settled(pending, cart, items, orderId, paid, now))
  }

  /** A checkout leaves the store consistent: the user holds no cart, and a settled cart and its
      items are checked out. */
  lemma CheckoutConsistent(t: Tables, userId: UserId, address: AddressFields, tel: Option<string>,
                           orderId: OrderId, now: int, charge: ChargeOutcome)
    requires Consistent(t) && userId in t.users && t.users[userId].cartId != ""
    ensures CheckoutReady(t, userId)
    ensures Consistent(CheckoutOutcome(t, userId, address, tel, orderId, now, charge).1)
    ensures CheckoutOutcome(t, userId, address, tel, orderId, now, charge).1.users[userId].cartId == ""
  {
    var cart := t.users[userId].cartId;
    var items := OpenItemsOf(t.cartItems, cart);
    OpenItemsLinked(t, cart);
    ConsistentReady(t, userId);
    DetachedConsistent(t, userId);
    var saved := Validate(PendingOrder(userId, address, tel, cart, ChargedTotal(t.products, items), now));
    if saved.Some? && charge.Paid? {
      var pending := Detached(t, userId).(orders := t.orders[orderId := saved.value]);
      var paid := saved.value.(paymentStatus := Code(Successful), transactionId := charge.transactionId,
                               receiptUrl := Some(charge.receiptUrl));
      assert OpenItemsOf(pending.cartItems, cart) == items;
      SettledConsistent(pending, cart, orderId, paid, now);
    }
  }

  /** A checkout that answers with success has stored the order as paid, priced in the lowest
      currency unit at the units and prices of the cart's items. */
  lemma CheckoutSuccessCharges(t: Tables, userId: UserId, address: AddressFields, tel: Option<string>,
                               orderId: OrderId, now: int, charge: ChargeOutcome)
    requires CheckoutReady(t, userId)
    requires CheckoutOutcome(t, userId, address, tel, orderId, now, charge).0 == Success
    ensures var after := CheckoutOutcome(t, userId, address, tel, orderId, now, charge).1;
            && charge.Paid? && orderId in after.orders
            && after.orders[orderId].paymentStatus == Code(Successful)
            && after.orders[orderId].transactionId == charge.transactionId
            && after.orders[orderId].cartId == t.users[userId].cartId
            && after.orders[orderId].totalPrice == 100 * SnapshotTotal(OpenItemsOf(t.cartItems, t.users[userId].cartId))
  {
    var cart := t.users[userId].cartId;
    var items := OpenItemsOf(t.cartItems, cart);
    var short := AnyShort(t.products, items);
    var saved := Validate(PendingOrder(userId, address, tel, cart, ChargedTotal(t.products, items), now));
    CheckoutUnfold(t, userId, address, tel, orderId, now, charge, cart, items, saved);
    assert saved.Some?;
    assert saved.value.cartId == cart;
    var pending := Detached(t, userId).(orders := t.orders[orderId := saved.value]);
    PaidTotal(pending, cart, items, orderId, saved.value, short, now, charge);
  }

  /** A successful charge stores the order at 100 times the items' own prices and units, when the
      pending order was priced from the catalog and every item carries its product's price. */
  lemma PaidTotal(pending: Tables, cart: CartId, items: seq<CartItem>, orderId: OrderId, saved: Order,
                  short: bool, now: int, charge: ChargeOutcome)
    requires Stocked(pending.products, items) && cart in pending.carts
    requires AfterCharge(pending, cart, items, orderId, saved, short, now, charge).0 == Success
    requires short == AnyShort(pending.products, items)
    requires saved.totalPrice == 100 * ChargedTotal(pending.products, items)
    requires forall i :: 0 <= i < |items| ==> items[i].price == pending.products[items[i].productId].price
    ensures charge.Paid?
    ensures var after := AfterCharge(pending, cart, items, orderId, saved, short, now, charge).1;
            && orderId in after.orders
            && after.orders[orderId] == saved.(paymentStatus := Code(Successful), transactionId := charge.transactionId,
                                               receiptUrl := Some(charge.receiptUrl))
            && after.orders[orderId].totalPrice == 100 * SnapshotTotal(items)
  {
    AfterChargePaid(pending, cart, items, orderId, saved, short, now, charge);
    ChargedTotalNoShort(pending.products, items);
    FullTotalSynced(pending.products, items);
  }

  /** A checkout stores the pending order, when it validates, and then goes on to the charge. */
  lemma CheckoutUnfold(t: Tables, userId: UserId, address: AddressFields, tel: Option<string>,
                       orderId: OrderId, now: int, charge: ChargeOutcome,
                       cart: CartId, items: seq<CartItem>, saved: Option<Order>)
    requires CheckoutReady(t, userId)
    requires cart == t.users[userId].cartId && items == OpenItemsOf(t.cartItems, cart)
    requires saved == Validate(PendingOrder(userId, address, tel, cart, ChargedTotal(t.products, items), now))
    ensures saved.None? ==> CheckoutOutcome(t, userId, address, tel, orderId, now, charge)
                            == (Failure(InternalError), Detached(t, userId))
    ensures saved.Some? ==> CheckoutOutcome(t, userId, address, tel, orderId, now, charge)
                            == AfterCharge(Detached(t, userId).(orders := t.orders[orderId := saved.value]),
                                           cart, items, orderId, saved.value, AnyShort(t.products, items), now, charge)
  {
  }

  /** Only a paid charge with no failed stock check answers with success, and it stores the order as
      paid with the provider's transaction and receipt. */
  lemma AfterChargePaid(pending: Tables, cart: CartId, items: seq<CartItem>, orderId: OrderId, saved: Order,
                        short: bool, now: int, charge: ChargeOutcome)
    requires Stocked(pending.products, items) && cart in pending.carts
    requires AfterCharge(pending, cart, items, orderId, saved, short, now, charge).0 == Success
    ensures charge.Paid? && !short
    ensures var after := AfterCharge(pending, cart, items, orderId, saved, short, now, charge).1;
            orderId in after.orders
            && after.orders[orderId] == saved.(paymentStatus := Code(Successful), transactionId := charge.transactionId,
                                               receiptUrl := Some(charge.receiptUrl))
  {
  }

  /** A paid charge takes each item's units from its product; any other leaves the stock alone. */
  lemma AfterChargeStock(pending: Tables, cart: CartId, items: seq<CartItem>, orderId: OrderId, saved: Order,
                         short: bool, now: int, charge: ChargeOutcome)
    requires Stocked(pending.products, items) && cart in pending.carts
    ensures AfterCharge(pending, cart, items, orderId, saved, short, now, charge).1.products
            == if charge.Paid? then Decrement(pending.products, items) else pending.products
  {
  }

  /** `POST /cart/checkout` behind its token middleware. `orderId` is the fresh order id, `now` the
      clock reading, `charge` what the payment provider answers and `mailFails` whether sending the
      receipt fails. `reply` is the first answer the client gets. */
  method Checkout(db: Db, userId: UserId, stripeToken: Option<string>, address: AddressFields,
                  tel: Option<string>, orderId: OrderId, now: int, charge: ChargeOutcome, mailFails: bool)
    returns (reply: Reply, receiptMailed: bool)
    requires db.Valid()
    modifies db
    ensures db.Valid()
    ensures !StripeTokenGiven(stripeToken) ==> reply == Failure(BadRequest) && db.State() == old(db.State())
    ensures StripeTokenGiven(stripeToken) && userId !in old(db.users) ==>
              reply == Unanswered && db.State() == old(db.State())
    ensures StripeTokenGiven(stripeToken) && userId in old(db.users) && old(db.users[userId].cartId) == "" ==>
              reply == Failure(BadRequest) && db.State() == old(db.State())
    ensures StripeTokenGiven(stripeToken) && userId in old(db.users) && old(db.users[userId].cartId) != "" ==>
              CheckoutReady(old(db.State()), userId)
              && (reply, db.State()) == CheckoutOutcome(old(db.State()), userId, address, tel, orderId, now, charge)
    ensures reply == Success ==> receiptMailed == !mailFails
  {
    if !StripeTokenGiven(stripeToken) {
      return Failure(BadRequest), false;
    }
    if userId !in db.users {
      return Unanswered, false;
    }
    if db.users[userId].cartId == "" {
      return Failure(BadRequest), false;
    }
    CheckoutConsistent(db.State(), userId, address, tel, orderId, now, charge);
    reply, receiptMailed := CheckoutCart(db, userId, address, tel, orderId, now, charge, mailFails);
  }

  /** The body of the checkout handler once the user and their current cart are known. */
  method CheckoutCart(db: Db, userId: UserId, address: AddressFields, tel: Option<string>,
                      orderId: OrderId, now: int, charge: ChargeOutcome, mailFails: bool)
    returns (reply: Reply, receiptMailed: bool)
    requires CheckoutReady(db.State(), userId)
    modifies db
    ensures (reply, db.State()) == CheckoutOutcome(old(db.State()), userId, address, tel, orderId, now, charge)
    ensures reply == Success ==> receiptMailed == !mailFails
  {
    ghost var t := db.State();
    var user := db.users[userId];
    var cart := user.cartId;
    var items := OpenItemsOf(db.cartItems, cart);
    db.users := db.users[userId := user.(cartId := "")];
    assert db.State() == Detached(t, userId);
    var total, short := PriceItems(db.products, items);
    var saved := Validate(PendingOrder(userId, address, tel, cart, total, now));
    if saved.None? {
      return Failure(InternalError), false;
    }
    db.orders := db.orders[orderId := saved.value];
    ghost var pending := Detached(t, userId).(orders := t.orders[orderId := saved.value]);
    assert db.State() == pending;
    reply, receiptMailed := Charge(db, cart, items, orderId, saved.value, short, now, charge, mailFails);
    assert (reply, db.State()) == AfterCharge(pending, cart, items, orderId, saved.value, short, now, charge);
  }

  /** The charge and, when it is paid, the settlement of cart.js:300-399. */
  method Charge(db: Db, cart: CartId, items: seq<CartItem>, orderId: OrderId, saved: Order, short: bool,
                now: int, charge: ChargeOutcome, mailFails: bool) returns (reply: Reply, receiptMailed: bool)
    requires Stocked(db.products, items) && cart in db.carts
    modifies db
    ensures (reply, db.State()) == AfterCharge(old(db.State()), cart, items, orderId, saved, short, now, charge)
    ensures reply == Success ==> receiptMailed == !mailFails
  {
    reply := if short then Failure(InternalError) else Success;
    receiptMailed := false;
    match charge {
      case ChargeFails =>
        if !short { reply := Failure(BadRequest); }
      case Declined =>
        if !short { reply := Failure(PaymentRequired); }
      case Paid(id, url) =>
        var paid := saved.(paymentStatus := Code(Successful), transactionId := id, receiptUrl := Some(url));
        var products, lines := TakeStock(db.products, items, now);
        db.products, db.sold := products, db.sold + lines;
        db.orders := db.orders[orderId := paid];
        db.carts := db.carts[cart := db.carts[cart].(checkout := true)];
        db.cartItems := CloseCart(db.cartItems, cart);
        receiptMailed := !mailFails;
    }
  }

  /** A cart whose second item asks for more units than the product has: the stock check fails for
      it, yet a paid checkout charges only for the first item and still takes the second item's
      units, leaving the product at -1. */
  lemma OversellWitness()
    ensures var products := map["p1" := Product("Lamp", 500, 5, "desk lamp", "inr", [], 0, 0, 0),
                                "p2" := Product("Mug", 300, 2, "tea mug", "inr", [], 0, 0, 0)];
            var items := [CartItem("i1", "c1", "p1", "u1", 2, 500, "Lamp", "desk lamp", false),
                          CartItem("i2", "c1", "p2", "u1", 3, 300, "Mug", "tea mug", false)];
            && Stocked(products, items) && AnyShort(products, items)
            && ChargedTotal(products, items) == 1000 && SnapshotTotal(items) == 1900
            && Decrement(products, items)["p2"].quantity == -1
  {
    var products := map["p1" := Product("Lamp", 500, 5, "desk lamp", "inr", [], 0, 0, 0),
                        "p2" := Product("Mug", 300, 2, "tea mug", "inr", [], 0, 0, 0)];
    var items := [CartItem("i1", "c1", "p1", "u1", 2, 500, "Lamp", "desk lamp", false),
                  CartItem("i2", "c1", "p2", "u1", 3, 300, "Mug", "tea mug", false)];
    assert Short(products, items[1]);
    assert items[..1] == [items[0]] && items[..1][..0] == [];
    assert ChargedTotal(products, items[..1]) == 1000;
    assert SnapshotTotal(items[..1]) == 1000;
    assert Ordered(items[..1], "p2") == 0;
    DecrementAt(products, items, "p2");
  }

  /** A checkout takes each item's units from its product exactly when the pending order is stored
      and the charge is paid, and leaves the stock alone otherwise. */
  lemma CheckoutStock(t: Tables, userId: UserId, address: AddressFields, tel: Option<string>,
                      orderId: OrderId, now: int, charge: ChargeOutcome)
    requires CheckoutReady(t, userId)
    ensures var cart := t.users[userId].cartId;
            var items := OpenItemsOf(t.cartItems, cart);
            var saved := Validate(PendingOrder(userId, address, tel, cart, ChargedTotal(t.products, items), now));
            CheckoutOutcome(t, userId, address, tel, orderId, now, charge).1.products
               == if saved.Some? && charge.Paid? then Decrement(t.products, items) else t.products
  {
    var cart := t.users[userId].cartId;
    var items := OpenItemsOf(t.cartItems, cart);
    var saved := Validate(PendingOrder(userId, address, tel, cart, ChargedTotal(t.products, items), now));
    var after := CheckoutOutcome(t, userId, address, tel, orderId, now, charge).1;
    if saved.Some? {
      var pending := Detached(t, userId).(orders := t.orders[orderId := saved.value]);
      var short := AnyShort(t.products, items);
      assert after == AfterCharge(pending, cart, items, orderId, saved.value, short, now, charge).1 by {
        CheckoutUnfold(t, userId, address, tel, orderId, now, charge, cart, items, saved);
      }
      AfterChargeStock(pending, cart, items, orderId, saved.value, short, now, charge);
    } else {
      assert after == Detached(t, userId) by {
        CheckoutUnfold(t, userId, address, tel, orderId, now, charge, cart, items, saved);
      }
    }
  }

  /** Checkout as the stock check evidently intends: an item that fails it refuses the whole
      checkout before anything is written, so stock never goes below zero. */
  method CheckoutGuarded(db: Db, userId: UserId, stripeToken: Option<string>, address: AddressFields,
                         tel: Option<string>, orderId: OrderId, now: int, charge: ChargeOutcome, mailFails: bool)
    returns (reply: Reply, receiptMailed: bool)
    requires db.Valid()
    modifies db
    ensures db.Valid()
    ensures !StripeTokenGiven(stripeToken) ==> reply == Failure(BadRequest) && db.State() == old(db.State())
    ensures StripeTokenGiven(stripeToken) && userId !in old(db.users) ==>
              reply == Unanswered && db.State() == old(db.State())
    ensures StripeTokenGiven(stripeToken) && userId in old(db.users) && old(db.users[userId].cartId) == "" ==>
              reply == Failure(BadRequest) && db.State() == old(db.State())
    ensures StripeTokenGiven(stripeToken) && userId in old(db.users) && old(db.users[userId].cartId) != "" ==>
              var t := old(db.State());
              var items := OpenItemsOf(t.cartItems, t.users[userId].cartId);
              && CheckoutReady(t, userId)
              && (AnyShort(t.products, items) ==> reply == Failure(InternalError) && db.State() == t)
              && (!AnyShort(t.products, items) ==>
                    (reply, db.State()) == CheckoutOutcome(t, userId, address, tel, orderId, now, charge))
    ensures db.products.Keys == old(db.products).Keys
    ensures forall id :: id in old(db.products) && old(db.products)[id].quantity >= 0 ==> db.products[id].quantity >= 0
  {
    if !StripeTokenGiven(stripeToken) || userId !in db.users || db.users[userId].cartId == "" {
      reply, receiptMailed := Checkout(db, userId, stripeToken, address, tel, orderId, now, charge, mailFails);
      return;
    }
    ghost var t := db.State();
    var items := OpenItemsOf(db.cartItems, db.users[userId].cartId);
    ConsistentReady(t, userId);
    OpenItemsDistinct(t.cartItems, db.users[userId].cartId);
    var total, short := PriceItems(db.products, items);
    if short {
      return Failure(InternalError), false;
    }
    DecrementNonNegative(t.products, items);
    CheckoutStock(t, userId, address, tel, orderId, now, charge);
    reply, receiptMailed := Checkout(db, userId, stripeToken, address, tel, orderId, now, charge, mailFails);
  }
}
