/** The order record the order views read (history, details and success
    pages). Absent or falsy text fields are "", an absent amount is None;
    amounts are whole paise. */
module Orders {
  import opened Common

  datatype OrderItem = OrderItem(id: string, name: string, price: int, quantity: int)

  datatype Order = Order(
    id: string,
    orderId: string,
    billNumber: string,
    totalAmount: Option<int>,
    status: string,
    items: seq<OrderItem>,
    paymentMethod: string,
    razorpayPaymentId: string)

  /** `order.billNumber || order.orderId`. */
  function BillLabel(order: Order): (shown: string)
    ensures order.billNumber != "" ==> shown == order.billNumber
    ensures order.billNumber == "" ==> shown == order.orderId
    ensures shown == "" <==> order.billNumber == "" && order.orderId == ""
  {
    if order.billNumber != "" then order.billNumber else order.orderId
  }
}
