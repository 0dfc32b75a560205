/** The order history page (src/pages/OrderHistoryPage.jsx): the order
    card's status colour, amount, bill label and three-item summary, and the
    fetch sequence of `fetchOrderHistory`, whose server replies are inputs.
    Browser storage is a map from keys to stored text. */
module OrderHistory {
  import opened Common
  import opened Text
  import opened Orders

  /** The badge colours of the card. */
  datatype StatusColor = Green | Orange | Blue | Yellow

  /** The switch over the lower-cased status: "paid" shares the default. */
  function StatusColorOf(status: string): (c: StatusColor)
    ensures c == Green <==> ToLower(status) == "delivered"
    ensures c == Orange <==> ToLower(status) == "ready"
    ensures c == Blue <==> ToLower(status) == "pending"
    ensures c == Yellow <==> ToLower(status) !in {"delivered", "ready", "pending"}
  {
    var s := ToLower(status);
    if s == "delivered" then Green
    else if s == "ready" then Orange
    else if s == "pending" then Blue
    else Yellow
  }

  /** The colour does not depend on letter case. */
  lemma StatusColorIgnoresCase(status: string)
    ensures StatusColorOf(ToLower(status)) == StatusColorOf(status)
  {
    ToLowerIdempotent(status);
  }

  /** A paid order is drawn in the default yellow, as is an unknown status;
      "Delivered" in any case is green. */
  lemma StatusColorExamples()
    ensures StatusColorOf("paid") == Yellow && StatusColorOf("Paid") == Yellow
    ensures StatusColorOf("cancelled") == Yellow
    ensures StatusColorOf("DELIVERED") == Green
  {
    assert ToLower("Paid") == "paid";
    assert ToLower("DELIVERED") == "delivered";
    assert ToLower("cancelled") == "cancelled";
  }

  /** `order.totalAmount ? order.totalAmount : 0`: an absent or zero amount
      shows as zero. */
  function CardAmount(order: Order): (paise: int)
    ensures order.totalAmount.Some? ==> paise == order.totalAmount.value
    ensures order.totalAmount.None? ==> paise == 0
  {
    match order.totalAmount
    case Some(amount) => if amount != 0 then amount else 0
    case None => 0
  }

  /** The items line of the card: at most the first three items, and the
      count of the rest when there is a rest. */
  datatype Summary = Summary(listed: seq<OrderItem>, more: Option<nat>)

  function SummaryOf(items: seq<OrderItem>): (s: Summary)
    ensures |s.listed| == if |items| < 3 then |items| else 3
    ensures s.listed == items[..|s.listed|]
    ensures s.more.Some? <==> |items| > 3
    ensures s.more.Some? ==> |s.listed| + s.more.value == |items|
  {
    var listed := if |items| < 3 then items else items[..3];
    Summary(listed, if |items| > 3 then Some(|items| - 3) else None)
  }

  /** Every item is either listed or counted in the "more" entry, once. */
  lemma SummaryAccountsForAll(items: seq<OrderItem>)
    ensures var s := SummaryOf(items);
            |s.listed| + (if s.more.Some? then s.more.value else 0) == |items|
    ensures var s := SummaryOf(items);
            s.more.None? ==> s.listed == items
  {
  }

  /** One card of the history list. */
  datatype OrderCard = OrderCard(
    link: string,
    billLabel: string,
    amount: int,
    status: string,
    color: StatusColor,
    summary: Summary)

  function CardOf(order: Order): (c: OrderCard)
    ensures c.link == "/order-details/" + order.id
    ensures c.billLabel == BillLabel(order) && c.amount == CardAmount(order)
    ensures c.status == ToLower(order.status) && c.color == StatusColorOf(order.status)
    ensures c.summary == SummaryOf(order.items)
  {
    OrderCard("/order-details/" + order.id, BillLabel(order), CardAmount(order), ToLower(order.status),
              StatusColorOf(order.status), SummaryOf(order.items))
  }

  /** The reply to `GET /orders/my-history`: the list, a 401, or another
      failure with the server's message ("" when absent). */
  datatype HistoryReply = HistoryList(orders: seq<Order>) | HistoryUnauthorized | HistoryFailed(serverMessage: string)

  const DefaultHistoryError := "Failed to fetch order history. Check backend connection."

  /** The error text of a failed history request other than a 401. */
  function HistoryErrorText(serverMessage: string): (e: string)
    ensures serverMessage != "" ==> e == serverMessage
    ensures serverMessage == "" ==> e == DefaultHistoryError
    ensures e != ""
  {
    if serverMessage != "" then serverMessage else DefaultHistoryError
  }

  /** What the page shows. While loading or after an error the order list
      is still drawn below the spinner or the error box; the empty-history
      prompt replaces it only when neither applies. */
  datatype HistoryScreen =
    | ClosedHistory
    | HistoryBody(spinner: bool, errorBox: Option<string>, emptyPrompt: bool, cards: seq<OrderCard>)

  class HistoryPage {
    var orders: seq<Order>
    var loading: bool
    var error: Option<string>
    var isCanteenOpen: bool
    var storage: map<string, string>
    /** The route pushed by `navigate`, when one was. */
    var navigatedTo: Option<string>

    constructor (storage: map<string, string>)
      ensures orders == [] && loading && error == None && isCanteenOpen
      ensures this.storage == storage && navigatedTo == None
    {
      orders := [];
      loading := true;
      error := None;
      isCanteenOpen := true;
      this.storage := storage;
      navigatedTo := None;
    }

    predicate HasToken()
      reads this`storage
    {
      "token" in storage && storage["token"] != ""
    }

    /** `fetchOrderHistory`, with the status reply (None when the request
        fails) and the history reply as inputs. Without a token the page
        leaves for the login screen and nothing is fetched; when the canteen
        is closed only `loading` ends; otherwise the reply is applied: the
        list replaces the orders, a 401 clears all of storage and leaves for
        the login screen, any other failure sets the error. A successful
        reply never clears an earlier error. */
    method FetchOrderHistory(status: Option<bool>, reply: HistoryReply) returns (fetched: bool)
      modifies this`isCanteenOpen, this`loading, this`orders, this`error, this`storage, this`navigatedTo
      ensures !old(HasToken()) ==>
        !fetched && navigatedTo == Some("/login") && loading == old(loading)
        && isCanteenOpen == old(isCanteenOpen) && orders == old(orders) && error == old(error)
        && storage == old(storage)
      ensures old(HasToken()) ==> isCanteenOpen == (status.Some? && status.value) && !loading
      ensures old(HasToken()) && !isCanteenOpen ==>
        !fetched && orders == old(orders) && error == old(error) && storage == old(storage)
        && navigatedTo == old(navigatedTo)
      ensures old(HasToken()) && isCanteenOpen ==> fetched
      ensures fetched && reply.HistoryList? ==>
        orders == reply.orders && error == old(error) && storage == old(storage) && navigatedTo == old(navigatedTo)
      ensures fetched && reply.HistoryUnauthorized? ==>
        storage == map[] && navigatedTo == Some("/login") && orders == old(orders) && error == old(error)
      ensures fetched && reply.HistoryFailed? ==>
        error == Some(HistoryErrorText(reply.serverMessage)) && orders == old(orders)
        && storage == old(storage) && navigatedTo == old(navigatedTo)
    {
      fetched := false;
      if !("token" in storage && storage["token"] != "") {
        navigatedTo := Some("/login");
        return;
      }
      var isOpen := status.Some? && status.value;
      isCanteenOpen := isOpen;
      if !isOpen {
        loading := false;
        return;
      }
      fetched := true;
      match reply {
        case HistoryList(list) =>
          orders := list;
        case HistoryUnauthorized =>
          storage := map[];
          navigatedTo := Some("/login");
        case HistoryFailed(serverMessage) =>
          if serverMessage != "" {
            error := Some(serverMessage);
          } else {
            error := Some(DefaultHistoryError);
          }
      }
      loading := false;
    }

    function Screen(): (s: HistoryScreen)
      reads this`orders, this`loading, this`error, this`isCanteenOpen
      ensures s == ClosedHistory <==> !isCanteenOpen
      ensures s.HistoryBody? ==>
        (s.spinner <==> loading)
        && s.errorBox == (if !loading then error else None)
        && (s.emptyPrompt <==> !loading && error.None? && orders == [])
        && |s.cards| == (if s.emptyPrompt then 0 else |orders|)
        && forall i :: 0 <= i < |s.cards| ==> s.cards[i] == CardOf(orders[i])
    {
      if !isCanteenOpen then ClosedHistory
      else
        var list := orders;
        var empty := !loading && error.None? && list == [];
        HistoryBody(loading, if !loading then error else None, empty,
                    if empty then [] else seq(|list|, i requires 0 <= i < |list| => CardOf(list[i])))
    }
  }
}
