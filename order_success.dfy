/** The order confirmation page (src/pages/OrderSuccessPage.jsx): the
    payment label, the Paid/Due label and the receipt rows of the order in
    the navigation state. */
module OrderSuccess {
  import opened Common
  import opened Orders

  /** `order.paymentMethod || (order.razorpayPaymentId ? 'UPI/Card (Paid)' :
      'Cash on Delivery (Pending)')`. */
  function PaymentLabel(order: Order): (text: string)
    ensures text != ""
    ensures order.paymentMethod != "" ==> text == order.paymentMethod
    ensures order.paymentMethod == "" && order.razorpayPaymentId != "" ==> text == "UPI/Card (Paid)"
    ensures order.paymentMethod == "" && order.razorpayPaymentId == "" ==> text == "Cash on Delivery (Pending)"
  {
    if order.paymentMethod != "" then order.paymentMethod
    else if order.razorpayPaymentId != "" then "UPI/Card (Paid)"
    else "Cash on Delivery (Pending)"
  }

  /** The heading of the total: "Paid:" only for the exact status "Paid". */
  function TotalLabel(order: Order): (text: string)
    ensures text == "Paid:" <==> order.status == "Paid"
    ensures text == "Due:" <==> order.status != "Paid"
  {
    if order.status == "Paid" then "Paid:" else "Due:"
  }

  /** One row of the receipt: name, quantity and unit price. */
  datatype ReceiptRow = ReceiptRow(name: string, quantity: int, price: int)

  function RowsOf(items: seq<OrderItem>): (rows: seq<ReceiptRow>)
    ensures |rows| == |items|
    ensures forall i :: 0 <= i < |items| ==> rows[i] == ReceiptRow(items[i].name, items[i].quantity, items[i].price)
  {
    seq(|items|, i requires 0 <= i < |items| => ReceiptRow(items[i].name, items[i].quantity, items[i].price))
  }

  /** Receipt rows of two item lists laid end to end are the two row lists
      laid end to end. */
  lemma RowsOfAppend(a: seq<OrderItem>, b: seq<OrderItem>)
    ensures RowsOf(a + b) == RowsOf(a) + RowsOf(b)
  {
  }

  datatype SuccessView =
    | NoOrderError
    | Confirmation(billNumber: string, studentName: string, payment: string, paidLook: bool,
                   rows: seq<ReceiptRow>, totalLabel: string, total: int)
    | Crashed

  /** The name the mount effect reads from the stored student record; it
      stays '' when nothing is stored. */
  function StudentNameOf(student: StudentParse): (name: string)
    requires !student.ParseError?
    ensures student.Record? ==> name == student.name
    ensures student.NoRecord? ==> name == ""
  {
    if student.Record? then student.name else ""
  }

  /** The page for the order in the navigation state and the stored student
      record. A record the parser rejects throws out of the mount effect,
      and an order without `totalAmount` throws at its `toFixed`; with no
      error boundary either leaves no page. */
  function SuccessOf(order: Option<Order>, student: StudentParse): (v: SuccessView)
    ensures v.Crashed? <==> student.ParseError? || (order.Some? && order.value.totalAmount.None?)
    ensures v.NoOrderError? <==> order.None? && !student.ParseError?
    ensures v.Confirmation? ==>
      v.billNumber == order.value.billNumber && v.studentName == StudentNameOf(student)
      && v.payment == PaymentLabel(order.value) && (v.paidLook <==> order.value.status == "Paid")
      && v.rows == RowsOf(order.value.items) && v.totalLabel == TotalLabel(order.value)
      && Some(v.total) == order.value.totalAmount
  {
    if student.ParseError? then Crashed
    else
      match order
      case None => NoOrderError
      case Some(o) =>
        match o.totalAmount
        case None => Crashed
        case Some(total) =>
          Confirmation(o.billNumber, StudentNameOf(student), PaymentLabel(o), o.status == "Paid", RowsOf(o.items),
                       TotalLabel(o), total)
  }

  /** A gateway-paid order whose server left the method blank still reads
      as paid by card, but its total is labelled "Due:" unless its status
      is exactly "Paid". */
  lemma CardPaymentWithLowerCaseStatus()
    ensures var o := Order("o1", "A1", "B7", Some(50), "paid", [], "", "pay_1");
            PaymentLabel(o) == "UPI/Card (Paid)" && TotalLabel(o) == "Due:"
  {
  }
}
