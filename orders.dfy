/**
 * The order entity and its owned parts. Field names follow the JSON/database
 * columns; the package that declares them (internal/order) is not part of this
 * model, so scalar types are chosen from the columns' meaning. None of the
 * modelled logic inspects any field other than the order's UID.
 */
module Orders {

  datatype Delivery = Delivery(
    name: string, phone: string, zip: string, city: string,
    address: string, region: string, email: string)

  datatype Payment = Payment(
    transaction: string, requestId: string, currency: string, provider: string,
    amount: int, paymentDt: int, bank: string, deliveryCost: int,
    goodsTotal: int, customFee: int)

  datatype Item = Item(
    chrtId: int, trackNumber: string, price: int, rid: string, name: string,
    sale: int, size: string, totalPrice: int, nmId: int, brand: string, status: int)

  /** An order owns exactly one delivery, one payment and an ordered list of items. */
  datatype Order = Order(
    orderUid: string, trackNumber: string, entry: string, locale: string,
    internalSignature: string, customerId: string, deliveryService: string,
    shardkey: string, smId: int, dateCreated: string, oofShard: string,
    delivery: Delivery, payment: Payment, items: seq<Item>)

  /** Go's zero values `order.Delivery{}`, `order.Payment{}` and `order.Order{}`. */
  const EmptyDelivery := Delivery("", "", "", "", "", "", "")
  const EmptyPayment := Payment("", "", "", "", 0, 0, "", 0, 0, 0)
  const EmptyOrder := Order("", "", "", "", "", "", "", "", 0, "", "",
                            EmptyDelivery, EmptyPayment, [])

  /** Errors reported by the collaborators: a query that selects no row, or any other failure. */
  datatype Error = ErrNoRows | Failure(message: string)
}
