/** The Order record (api/models/order.js): its fields, which of them the schema requires, and the
    numeric `payment_status` code table written beside the schema. */
module OrderModel {
  import opened Common

  /** The six payment states of the code table. */
  datatype PaymentStatus = Successful | Pending | Failed | RefundStarted | Refunded | RefundFailed

  /** The number stored in `payment_status` for each state. */
  function Code(s: PaymentStatus): (c: int)
    ensures 1 <= c <= 6
  {
    match s
    case Successful => 1
    case Pending => 2
    case Failed => 3
    case RefundStarted => 4
    case Refunded => 5
    case RefundFailed => 6
  }

  /** The state a stored number stands for; numbers outside the table stand for none. */
  function FromCode(c: int): (s: Option<PaymentStatus>)
    ensures s.Some? <==> 1 <= c <= 6
  {
    if c == 1 then Some(Successful)
    else if c == 2 then Some(Pending)
    else if c == 3 then Some(Failed)
    else if c == 4 then Some(RefundStarted)
    else if c == 5 then Some(Refunded)
    else if c == 6 then Some(RefundFailed)
    else None
  }

  /** The table is a bijection between the six states and the codes 1..6. */
  lemma CodeRoundTrip(s: PaymentStatus, c: int)
    ensures FromCode(Code(s)) == Some(s)
    ensures FromCode(c).Some? ==> Code(FromCode(c).value) == c
  {
  }

  datatype Address = Address(city: string, state: string, zip: int, country: string, street: string)

  /** A stored order. The schema has no `order_status` path, so there is no such field. */
  datatype Order = Order(userId: string, address: Address, tel: string, cartId: string,
                         paymentStatus: int, transactionId: string, receiptUrl: Option<string>,
                         totalPrice: int, orderedAt: int)

  /** The address as a request supplies it; any part may be missing. */
  datatype AddressFields = AddressFields(city: Option<string>, state: Option<string>, zip: Option<int>,
                                         country: Option<string>, street: Option<string>)

  /** An order document as a route writes it, before the schema casts and validates it.
      `orderStatus` is a path the routes set that the schema does not declare. */
  datatype OrderDoc = OrderDoc(userId: Option<string>, address: AddressFields, tel: Option<string>,
                               cartId: Option<string>, paymentStatus: Option<int>,
                               transactionId: Option<string>, receiptUrl: Option<string>,
                               totalPrice: Option<int>, orderedAt: Option<int>, orderStatus: Option<int>)

  /** A required string path is satisfied by a non-empty string. */
  predicate Given(s: Option<string>) { s.Some? && s.value != "" }

  predicate AddressComplete(a: AddressFields)
  {
    Given(a.city) && Given(a.state) && a.zip.Some? && Given(a.country) && Given(a.street)
  }

  predicate RequiredPresent(doc: OrderDoc)
  {
    && Given(doc.userId) && AddressComplete(doc.address) && Given(doc.tel) && Given(doc.cartId)
    && doc.paymentStatus.Some? && Given(doc.transactionId) && doc.totalPrice.Some?
    && doc.orderedAt.Some?
  }

  /** Saving a document: it is stored exactly when every required path is present, the stored
      record carries the written values, and paths the schema does not declare are dropped. */
  function Validate(doc: OrderDoc): (r: Option<Order>)
    ensures r.Some? <==> RequiredPresent(doc)
    ensures r.Some? ==> && r.value.userId == doc.userId.value && r.value.tel == doc.tel.value
                        && r.value.cartId == doc.cartId.value
                        && r.value.address == Address(doc.address.city.value, doc.address.state.value,
                                                      doc.address.zip.value, doc.address.country.value,
                                                      doc.address.street.value)
                        && r.value.paymentStatus == doc.paymentStatus.value
                        && r.value.transactionId == doc.transactionId.value
                        && r.value.receiptUrl == doc.receiptUrl
                        && r.value.totalPrice == doc.totalPrice.value
                        && r.value.orderedAt == doc.orderedAt.value
  {
    if !RequiredPresent(doc) then None
    else
      var a := doc.address;
      Some(Order(doc.userId.value, Address(a.city.value, a.state.value, a.zip.value, a.country.value, a.street.value),
                 doc.tel.value, doc.cartId.value, doc.paymentStatus.value, doc.transactionId.value,
                 doc.receiptUrl, doc.totalPrice.value, doc.orderedAt.value))
  }

  /** Whatever a route writes to `order_status` is not stored. */
  lemma OrderStatusDropped(doc: OrderDoc, status: Option<int>)
    ensures Validate(doc.(orderStatus := status)) == Validate(doc)
  {
  }
}
