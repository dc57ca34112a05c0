/** The order record that the intake service stores and the notification
    service finalizes (both services declare the same fields). */
module OrderModel {
  import opened Categories
  import opened Time

  datatype OrderStatus = Pending | Completed | Rejected

  datatype OrderItem = OrderItem(productId: string, quantity: int, category: Category)

  datatype OrderRecord = OrderRecord(
    orderId: string,
    customerName: string,
    items: seq<OrderItem>,
    requestedAt: Instant,
    createdAt: Instant,
    status: OrderStatus)
}
