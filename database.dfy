/** The document store the routes share, read as in-memory tables. Collections the routes query in
    their natural order are sequences; collections only looked up by key are maps. */
module Database {
  import opened Common
  import opened Records
  import opened OrderModel

  /** The contents of every collection at one moment. */
  datatype Tables = Tables(products: map<ProductId, Product>, carts: map<CartId, Cart>,
                           cartItems: seq<CartItem>, users: map<UserId, User>,
                           orders: map<OrderId, Order>, sold: seq<SoldProduct>,
                           feedbacks: map<FeedbackKey, Feedback>, otps: seq<OtpRecord>,
                           tokens: seq<TokenRecord>)

  /** Two open items of the same cart. */
  predicate OpenPair(a: CartItem, b: CartItem)
  {
    !a.checkout && !b.checkout && a.cartId == b.cartId
  }

  /** A user's current cart exists, is open and belongs to that user. */
  ghost predicate UserCartsOpen(t: Tables)
  {
    forall u :: u in t.users && t.users[u].cartId != "" ==>
      t.users[u].cartId in t.carts && !t.carts[t.users[u].cartId].checkout
      && t.carts[t.users[u].cartId].userId == u
  }

  /** Every cart item names an existing cart and product; an open cart has only open items. */
  ghost predicate ItemsLinked(t: Tables)
  {
    forall i :: 0 <= i < |t.cartItems| ==>
      t.cartItems[i].cartId in t.carts && t.cartItems[i].productId in t.products
      && (!t.carts[t.cartItems[i].cartId].checkout ==> !t.cartItems[i].checkout)
  }

  /** Every item holds between one and five units. */
  ghost predicate QuantitiesInRange(items: seq<CartItem>)
  {
    forall i :: 0 <= i < |items| ==> 1 <= items[i].quantity <= 5
  }

  ghost predicate ItemIdsUnique(items: seq<CartItem>)
  {
    forall i, j :: 0 <= i < j < |items| ==> items[i].id != items[j].id
  }

  /** A cart holds at most one open item per product. */
  ghost predicate OpenProductsDistinct(items: seq<CartItem>)
  {
    forall i, j :: 0 <= i < j < |items| && OpenPair(items[i], items[j]) ==>
      items[i].productId != items[j].productId
  }

  /** An item carries its product's current price, name and description. */
  predicate Synced(it: CartItem, p: Product)
  {
    it.price == p.price && it.name == p.name && it.description == p.description
  }

  /** Every open item is synced with its product. */
  ghost predicate OpenItemsSynced(t: Tables)
  {
    forall i :: 0 <= i < |t.cartItems| && !t.cartItems[i].checkout && t.cartItems[i].productId in t.products ==>
      Synced(t.cartItems[i], t.products[t.cartItems[i].productId])
  }

  ghost predicate EmailsUnique(users: map<UserId, User>)
  {
    forall u, v :: u in users && v in users && u != v ==> users[u].email != users[v].email
  }

  /** Every stored feedback carries its required creation time. */
  ghost predicate FeedbacksStamped(feedbacks: map<FeedbackKey, Feedback>)
  {
    forall k :: k in feedbacks ==> feedbacks[k].createdAt.Some?
  }

  /** The consistency the routes keep between the collections. */
  ghost predicate Consistent(t: Tables)
  {
    && "" !in t.carts
    && UserCartsOpen(t) && ItemsLinked(t) && QuantitiesInRange(t.cartItems) && ItemIdsUnique(t.cartItems)
    && OpenProductsDistinct(t.cartItems) && OpenItemsSynced(t) && EmailsUnique(t.users)
    && FeedbacksStamped(t.feedbacks)
  }

  class Db {
    var products: map<ProductId, Product>
    var carts: map<CartId, Cart>
    var cartItems: seq<CartItem>
    var users: map<UserId, User>
    var orders: map<OrderId, Order>
    var sold: seq<SoldProduct>
    var feedbacks: map<FeedbackKey, Feedback>
    var otps: seq<OtpRecord>
    var tokens: seq<TokenRecord>

    ghost function State(): Tables
      reads this
    {
      Tables(products, carts, cartItems, users, orders, sold, feedbacks, otps, tokens)
    }

    ghost predicate Valid()
      reads this
    {
      Consistent(State())
    }

    constructor ()
      ensures Valid()
      ensures State() == Tables(map[], map[], [], map[], map[], [], map[], [], [])
    {
      products, carts, cartItems, users := map[], map[], [], map[];
      orders, sold, feedbacks, otps, tokens := map[], [], map[], [], [];
    }
  }
}
