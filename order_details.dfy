/** The order receipt page (src/pages/OrderDetailsPage.jsx): the total
    quantity, the line amounts, the status colour and the missing-order
    redirect. The order arrives in the navigation state. */
module OrderDetails {
  import opened Common
  import opened Orders

  /** `order.items.reduce((sum, item) => sum + item.quantity, 0)`,
      accumulated from the left. */
  function TotalItems(items: seq<OrderItem>): (n: int)
    ensures items == [] ==> n == 0
  {
    if items == [] then 0 else TotalItems(items[..|items| - 1]) + items[|items| - 1].quantity
  }

  /** The count of two item lists laid end to end is the sum of their
      counts. */
  lemma {:induction false} TotalItemsAppend(a: seq<OrderItem>, b: seq<OrderItem>)
    ensures TotalItems(a + b) == TotalItems(a) + TotalItems(b)
  {
    if b == [] {
      assert a + b == a;
    } else {
      var b' := b[..|b| - 1];
      assert (a + b)[..|a + b| - 1] == a + b';
      TotalItemsAppend(a, b');
    }
  }

  /** With positive quantities the total is at least the number of lines. */
  lemma {:induction false} TotalItemsAtLeastLines(items: seq<OrderItem>)
    requires forall i :: 0 <= i < |items| ==> items[i].quantity >= 1
    ensures TotalItems(items) >= |items|
  {
    if items != [] {
      TotalItemsAtLeastLines(items[..|items| - 1]);
    }
  }

  /** One line of the receipt: name, quantity and `price * quantity`. */
  datatype ReceiptLine = ReceiptLine(name: string, quantity: int, amount: int)

  function LinesOf(items: seq<OrderItem>): (lines: seq<ReceiptLine>)
    ensures |lines| == |items|
    ensures forall i :: 0 <= i < |items| ==>
      lines[i] == ReceiptLine(items[i].name, items[i].quantity, items[i].price * items[i].quantity)
  {
    seq(|items|, i requires 0 <= i < |items| =>
      ReceiptLine(items[i].name, items[i].quantity, items[i].price * items[i].quantity))
  }

  /** The page: the not-found notice (with the delayed redirect to the
      history), the receipt, or nothing at all when rendering throws (no
      error boundary catches it). */
  datatype DetailsView =
    | NotFound(redirectTo: string)
    | Receipt(billLabel: string, totalItems: int, status: string, statusGreen: bool,
              lines: seq<ReceiptLine>, grandTotal: int)
    | Crashed

  /** The receipt of the order in the navigation state. The grand total is
      the order's own `totalAmount`, not a sum of the lines; an order
      without one throws at its `toFixed`. */
  function DetailsOf(order: Option<Order>): (v: DetailsView)
    ensures v.NotFound? <==> order.None?
    ensures v.NotFound? ==> v.redirectTo == "/my-orders"
    ensures v.Crashed? <==> order.Some? && order.value.totalAmount.None?
    ensures v.Receipt? ==>
      v.billLabel == BillLabel(order.value) && v.totalItems == TotalItems(order.value.items)
      && (v.statusGreen <==> order.value.status == "completed")
      && v.lines == LinesOf(order.value.items) && Some(v.grandTotal) == order.value.totalAmount
  {
    match order
    case None => NotFound("/my-orders")
    case Some(o) =>
      match o.totalAmount
      case None => Crashed
      case Some(total) =>
        Receipt(BillLabel(o), TotalItems(o.items), o.status, o.status == "completed", LinesOf(o.items), total)
  }

  /** The status test is case-sensitive: "Completed" is not green. */
  lemma StatusGreenIsCaseSensitive(order: Order)
    requires order.status == "Completed"
    ensures DetailsOf(Some(order)).Receipt? ==> !DetailsOf(Some(order)).statusGreen
  {
  }

  /** The grand total is shown as given even when the lines add up to
      something else. */
  lemma GrandTotalNotRecomputed()
    ensures var o := Order("o1", "A1", "", Some(100), "paid", [OrderItem("i", "Tea", 20, 2)], "", "");
            DetailsOf(Some(o)).grandTotal == 100 && DetailsOf(Some(o)).lines[0].amount == 40
  {
  }
}
