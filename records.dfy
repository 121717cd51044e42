/** The stored record shapes of api/models/ that the routes read and write. Identifiers are the
    string forms of the documents' ids. */
module Records {
  import opened Common

  type ProductId = string
  type CartId = string
  type CartItemId = string
  type UserId = string
  type OrderId = string

  datatype Image = Image(url: string, key: string)

  /** A catalog entry. `average_review` is a float derived from the two totals and is left out. */
  datatype Product = Product(name: string, price: int, quantity: int, description: string,
                             currency: string, images: seq<Image>, totalStars: int,
                             totalReviews: int, createdAt: int)

  /** A cart is open until `checkout` is set. */
  datatype Cart = Cart(userId: UserId, checkout: bool)

  /** A line of a cart, with the product's price, name and description copied in. */
  datatype CartItem = CartItem(id: CartItemId, cartId: CartId, productId: ProductId, userId: UserId,
                               quantity: int, price: int, name: string, description: string,
                               checkout: bool)

  /** `cartId` is "" when the user has no current cart. `role` is the field the admin lookup
      queries; the user schema does not declare it. */
  datatype User = User(email: string, password: string, cartId: CartId, role: string)

  /** One line of the append-only sales ledger. */
  datatype SoldProduct = SoldProduct(productId: ProductId, orderedAt: int, quantity: int)

  /** Feedbacks are looked up by (product, user). */
  datatype FeedbackKey = FeedbackKey(productId: ProductId, userId: UserId)

  /** `createdAt` is a required path of the feedback schema; `None` is a document that omits it. */
  datatype Feedback = Feedback(stars: int, text: string, createdAt: Option<int>)

  datatype OtpRecord = OtpRecord(otp: int, email: string, createdAt: int, validTill: int)

  datatype TokenRecord = TokenRecord(token: string, email: string, createdAt: int, validTill: int)
}
