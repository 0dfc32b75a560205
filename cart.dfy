/** The cart page (src/pages/CartPage.jsx): the derived total, removing and
    re-quantifying entries, the order payload, and the checkout sequence of
    `handleUpiPayment`, whose script load, server replies and gateway
    events are inputs. */
module Cart {
  import opened Common
  import opened Text

  /** A cart entry; `price` is in whole paise. */
  datatype CartItem = CartItem(id: string, name: string, price: int, quantity: int, imageUrl: string)

  /** One entry's contribution to the total. */
  function LineTotal(item: CartItem): int {
    item.price * item.quantity
  }

  /** `cart.reduce((total, item) => total + item.price * item.quantity, 0)`,
      accumulated from the left. */
  function TotalPrice(cart: seq<CartItem>): (t: int)
    ensures cart == [] ==> t == 0
  {
    if cart == [] then 0 else TotalPrice(cart[..|cart| - 1]) + LineTotal(cart[|cart| - 1])
  }

  /** The total of two carts laid end to end is the sum of their totals. */
  lemma {:induction false} TotalPriceAppend(a: seq<CartItem>, b: seq<CartItem>)
    ensures TotalPrice(a + b) == TotalPrice(a) + TotalPrice(b)
  {
    if b == [] {
      assert a + b == a;
    } else {
      var b' := b[..|b| - 1];
      assert (a + b)[..|a + b| - 1] == a + b';
      TotalPriceAppend(a, b');
    }
  }

  /** Entries with non-negative prices and quantities never give a negative
      total. */
  lemma {:induction false} TotalPriceNonNegative(cart: seq<CartItem>)
    requires forall i :: 0 <= i < |cart| ==> cart[i].price >= 0 && cart[i].quantity >= 0
    ensures TotalPrice(cart) >= 0
  {
    if cart != [] {
      TotalPriceNonNegative(cart[..|cart| - 1]);
    }
  }

  /** `handleRemoveItem`: every entry with that `_id` goes, the others stay
      in their order. */
  function RemoveItem(cart: seq<CartItem>, id: string): (r: seq<CartItem>)
    ensures SubsequenceOf(r, cart)
    ensures forall item :: item in r <==> item in cart && item.id != id
  {
    Filter(cart, (item: CartItem) => item.id != id)
  }

  /** Removing an id the cart does not hold leaves the cart as it was. */
  lemma RemoveAbsentItem(cart: seq<CartItem>, id: string)
    requires forall item :: item in cart ==> item.id != id
    ensures RemoveItem(cart, id) == cart
  {
    FilterAll(cart, (item: CartItem) => item.id != id);
  }

  /** Removing twice is removing once. */
  lemma RemoveItemIdempotent(cart: seq<CartItem>, id: string)
    ensures RemoveItem(RemoveItem(cart, id), id) == RemoveItem(cart, id)
  {
    FilterIdempotent(cart, (item: CartItem) => item.id != id);
  }

  /** The total splits into what remains after a removal and what was
      removed. */
  lemma {:induction false} TotalPriceSplitsOnRemove(cart: seq<CartItem>, id: string)
    ensures TotalPrice(cart) == TotalPrice(RemoveItem(cart, id)) + TotalPrice(Filter(cart, (item: CartItem) => item.id == id))
  {
    if cart != [] {
      var rest := cart[1..];
      TotalPriceSplitsOnRemove(rest, id);
      assert cart == [cart[0]] + rest;
      TotalPriceAppend([cart[0]], rest);
      var kept := Filter(rest, (item: CartItem) => item.id != id);
      var gone := Filter(rest, (item: CartItem) => item.id == id);
      if cart[0].id == id {
        TotalPriceAppend([cart[0]], gone);
      } else {
        TotalPriceAppend([cart[0]], kept);
      }
    }
  }

  /** The map of `handleUpdateQuantity` for a quantity of at least one:
      matching entries take the new quantity, every other field and entry
      stays. */
  function SetQuantity(cart: seq<CartItem>, id: string, n: int): (r: seq<CartItem>)
    ensures |r| == |cart|
    ensures forall i :: 0 <= i < |r| ==> r[i].(quantity := cart[i].quantity) == cart[i]
    ensures forall i :: 0 <= i < |r| ==> r[i].quantity == if cart[i].id == id then n else cart[i].quantity
  {
    seq(|cart|, i requires 0 <= i < |cart| => if cart[i].id == id then cart[i].(quantity := n) else cart[i])
  }

  /** `handleUpdateQuantity(id, n)`: below one it is a removal, otherwise
      the quantity update. */
  function UpdateQuantity(cart: seq<CartItem>, id: string, n: int): (r: seq<CartItem>)
    ensures n < 1 ==> r == RemoveItem(cart, id)
    ensures n >= 1 ==> r == SetQuantity(cart, id, n)
    ensures n >= 1 ==> |r| == |cart| && forall i :: 0 <= i < |r| ==> r[i].id == cart[i].id
    ensures n >= 1 ==> forall i :: 0 <= i < |r| ==> r[i].quantity == if cart[i].id == id then n else cart[i].quantity
  {
    if n < 1 then RemoveItem(cart, id) else SetQuantity(cart, id, n)
  }

  /** Changing an entry's quantity and then removing it is the same as
      removing it at once. */
  lemma {:induction false} RemoveAfterSetQuantity(cart: seq<CartItem>, id: string, n: int)
    ensures RemoveItem(SetQuantity(cart, id, n), id) == RemoveItem(cart, id)
  {
    if cart != [] {
      var s := SetQuantity(cart, id, n);
      assert s[1..] == SetQuantity(cart[1..], id, n);
      RemoveAfterSetQuantity(cart[1..], id, n);
    }
  }

  /** A later quantity update overrides an earlier one for the same id. */
  lemma SetQuantityTwice(cart: seq<CartItem>, id: string, n: int, m: int)
    ensures SetQuantity(SetQuantity(cart, id, n), id, m) == SetQuantity(cart, id, m)
  {
  }

  /** One element of `orderPayload.items`. */
  datatype OrderLine = OrderLine(id: string, name: string, quantity: int, price: int)

  /** The body of `POST /payment/orders`. */
  datatype OrderPayload = OrderPayload(amount: int, items: seq<OrderLine>)

  /** The payload of lines 101-109: the total, and one line per entry, in
      order, copying its id, name, quantity and unit price. */
  function PayloadOf(cart: seq<CartItem>): (p: OrderPayload)
    ensures p.amount == TotalPrice(cart)
    ensures |p.items| == |cart|
    ensures forall i :: 0 <= i < |cart| ==>
      p.items[i] == OrderLine(cart[i].id, cart[i].name, cart[i].quantity, cart[i].price)
  {
    OrderPayload(TotalPrice(cart),
      seq(|cart|, i requires 0 <= i < |cart| => OrderLine(cart[i].id, cart[i].name, cart[i].quantity, cart[i].price)))
  }

  /** What a server would charge for the lines, added up from the front. */
  function LinesTotal(lines: seq<OrderLine>): int {
    if lines == [] then 0 else lines[0].price * lines[0].quantity + LinesTotal(lines[1..])
  }

  /** The payload's amount is exactly what its own lines add up to. */
  lemma {:induction false} PayloadAmountMatchesLines(cart: seq<CartItem>)
    ensures PayloadOf(cart).amount == LinesTotal(PayloadOf(cart).items)
  {
    if cart != [] {
      var rest := cart[1..];
      PayloadAmountMatchesLines(rest);
      assert PayloadOf(cart).items[1..] == PayloadOf(rest).items;
      assert cart == [cart[0]] + rest;
      TotalPriceAppend([cart[0]], rest);
    }
  }

  /** The reply to `POST /payment/orders`: the gateway order, or a thrown
      error with its `message` and the server's `data.message` ("" when
      absent). */
  datatype CreationReply =
    | GatewayOrder(orderId: string, amount: int, currency: string)
    | CreationError(message: string, serverMessage: string)

  /** The reply to `POST /payment/verify`: `data.order` when present, or a
      thrown error. */
  datatype VerificationReply = Verified(order: Option<string>) | VerificationThrew

  /** What the payment widget reports: a `payment.failed` event, a
      completed payment (whose handler then verifies it), or nothing at all
      when the student closes the widget. */
  datatype GatewayEvent = GatewayFailed | GatewayPaid(verification: VerificationReply) | GatewayClosed

  /** Where `handleUpiPayment` ends. */
  datatype CheckoutOutcome =
    | NotStarted
    | ScriptLoadFailed
    | SetupFailed(message: string)
    | PaymentFailed
    | AwaitingGateway
    | VerificationFailed
    | VerificationErrored
    | OrderPlaced(order: string)

  /** The build variable holding the gateway key. */
  const KeyVariable := "VITE_RAZORPAY_KEY_ID"

  /** The message of the error thrown when the key is not configured. */
  const MissingKeyMessage := "Razorpay Key ID (" + KeyVariable
                             + ") is missing in frontend environment. Check your Vercel environment variables."

  /** The friendly text of the setup `catch`: a message naming the key
      variable becomes the setup-error text, anything else is reported with
      the server's message, or failing that the error's own. */
  function FriendlyMessage(message: string, serverMessage: string): (m: string)
    ensures Contains(message, KeyVariable) ==>
      m == "Setup Error: Razorpay Key ID is missing in your Vercel environment variables."
    ensures !Contains(message, KeyVariable) && serverMessage != "" ==>
      m == "Payment setup failed. Details: " + serverMessage
    ensures !Contains(message, KeyVariable) && serverMessage == "" ==>
      m == "Payment setup failed. Details: " + message
  {
    if Contains(message, KeyVariable) then
      "Setup Error: Razorpay Key ID is missing in your Vercel environment variables."
    else
      "Payment setup failed. Details: " + (if serverMessage != "" then serverMessage else message)
  }

  /** The error thrown for a missing key is always reported as the setup
      error. */
  lemma MissingKeyIsSetupError(serverMessage: string)
    ensures FriendlyMessage(MissingKeyMessage, serverMessage)
            == "Setup Error: Razorpay Key ID is missing in your Vercel environment variables."
  {
    ContainsInfix("Razorpay Key ID (", KeyVariable,
                  ") is missing in frontend environment. Check your Vercel environment variables.");
  }

  /** The outcome of a checkout that passed the guard, step by step: script,
      order creation, key, then the widget and the verification. */
  function CheckoutResult(scriptLoaded: bool, creation: CreationReply, keyConfigured: bool,
                          event: GatewayEvent): (o: CheckoutOutcome)
    ensures o != NotStarted
    ensures !scriptLoaded ==> o == ScriptLoadFailed
    ensures o.OrderPlaced? <==>
      scriptLoaded && creation.GatewayOrder? && keyConfigured
      && event.GatewayPaid? && event.verification.Verified? && event.verification.order.Some?
    ensures o == AwaitingGateway <==> scriptLoaded && creation.GatewayOrder? && keyConfigured && event.GatewayClosed?
    ensures scriptLoaded && creation.CreationError? ==>
      o == SetupFailed(FriendlyMessage(creation.message, creation.serverMessage))
    ensures scriptLoaded && creation.GatewayOrder? && !keyConfigured ==>
      o == SetupFailed(FriendlyMessage(MissingKeyMessage, ""))
    ensures scriptLoaded && creation.GatewayOrder? && keyConfigured ==>
      (o == PaymentFailed <==> event.GatewayFailed?)
      && (o == VerificationFailed <==> event == GatewayPaid(Verified(None)))
      && (o == VerificationErrored <==> event == GatewayPaid(VerificationThrew))
  {
    if !scriptLoaded then ScriptLoadFailed
    else match creation
      case CreationError(message, serverMessage) => SetupFailed(FriendlyMessage(message, serverMessage))
      case GatewayOrder(_, _, _) =>
        if !keyConfigured then SetupFailed(FriendlyMessage(MissingKeyMessage, ""))
        else match event
          case GatewayFailed => PaymentFailed
          case GatewayClosed => AwaitingGateway
          case GatewayPaid(Verified(Some(order))) => OrderPlaced(order)
          case GatewayPaid(Verified(None)) => VerificationFailed
          case GatewayPaid(VerificationThrew) => VerificationErrored
  }

  /** The fixed alert texts of the checkout. */
  const ScriptLoadAlert := "Payment gateway failed to load. Please check your internet connection."
  const PaymentFailedAlert := "Payment failed. Please try again or contact support."
  const VerificationFailedAlert := "Payment verification failed. Please contact support."
  const VerificationErrorAlert := "An error occurred while verifying your payment."

  /** The alert each outcome raises, if any. */
  function AlertOf(o: CheckoutOutcome): (a: Option<string>)
    ensures a.None? <==> o == NotStarted || o == AwaitingGateway || o.OrderPlaced?
    ensures o.SetupFailed? ==> a == Some(o.message)
    ensures o == ScriptLoadFailed ==> a == Some(ScriptLoadAlert)
    ensures o == PaymentFailed ==> a == Some(PaymentFailedAlert)
    ensures o == VerificationFailed ==> a == Some(VerificationFailedAlert)
    ensures o == VerificationErrored ==> a == Some(VerificationErrorAlert)
  {
    match o
    case NotStarted => None
    case ScriptLoadFailed => Some(ScriptLoadAlert)
    case SetupFailed(message) => Some(message)
    case PaymentFailed => Some(PaymentFailedAlert)
    case AwaitingGateway => None
    case VerificationFailed => Some(VerificationFailedAlert)
    case VerificationErrored => Some(VerificationErrorAlert)
    case OrderPlaced(_) => None
  }

  /** The outcomes after which the "Proceed to Pay" button is enabled again. */
  predicate ReleasesButton(o: CheckoutOutcome) {
    o == ScriptLoadFailed || o.SetupFailed? || o == PaymentFailed || o == VerificationFailed || o == VerificationErrored
  }

  /** A missing key is reported as the setup error, whatever the widget or
      the verification would have done. */
  lemma MissingKeyOutcome(creation: CreationReply, event: GatewayEvent)
    requires creation.GatewayOrder?
    ensures CheckoutResult(true, creation, false, event)
            == SetupFailed("Setup Error: Razorpay Key ID is missing in your Vercel environment variables.")
  {
    MissingKeyIsSetupError("");
  }

  /** Every failure alerts and gives the button back; only a placed order or
      a widget still open keeps it disabled. */
  lemma FailuresReleaseButton(scriptLoaded: bool, creation: CreationReply, keyConfigured: bool, event: GatewayEvent)
    ensures var o := CheckoutResult(scriptLoaded, creation, keyConfigured, event);
            ReleasesButton(o) <==> !(o == AwaitingGateway || o.OrderPlaced?)
    ensures var o := CheckoutResult(scriptLoaded, creation, keyConfigured, event);
            ReleasesButton(o) ==> AlertOf(o).Some?
  {
  }

  /** The page the cart screen shows. */
  datatype CartScreen =
    | ClosedNotice
    | EmptyCart
    | CartList(items: seq<CartItem>, total: int, payDisabled: bool, payLabel: string)

  class CartPage {
    var cart: seq<CartItem>
    var isPlacingOrder: bool
    var isCanteenOpen: bool
    /** The route pushed by `navigate`, when one was. */
    var navigatedTo: Option<string>

    constructor (cart: seq<CartItem>)
      ensures this.cart == cart && !isPlacingOrder && isCanteenOpen && navigatedTo == None
    {
      this.cart := cart;
      isPlacingOrder := false;
      isCanteenOpen := true;
      navigatedTo := None;
    }

    /** The mount effect: without a token or a stored student the page
        leaves for the login screen. A stored record the parser rejects
        throws out of the effect before anything else runs. Otherwise the
        first status request is answered by `statusReply` and the 15-second
        poll starts (`polling`). */
    method Mount(token: string, student: StudentParse, statusReply: Option<bool>) returns (polling: bool)
      modifies this`navigatedTo, this`isCanteenOpen
      ensures navigatedTo == if token == "" || student.NoRecord? then Some("/login") else old(navigatedTo)
      ensures polling <==> token != "" && student.Record?
      ensures isCanteenOpen == if polling then statusReply.Some? && statusReply.value else old(isCanteenOpen)
    {
      polling := false;
      if token == "" || student.NoRecord? {
        navigatedTo := Some("/login");
        return;
      }
      if student.ParseError? {
        return;
      }
      FetchCanteenStatus(statusReply);
      polling := true;
    }

    /** `fetchCanteenStatus`: the reported flag, or closed when the request
        fails (None). */
    method FetchCanteenStatus(reply: Option<bool>)
      modifies this`isCanteenOpen
      ensures isCanteenOpen == (reply.Some? && reply.value)
    {
      match reply {
        case Some(open) => isCanteenOpen := open;
        case None => isCanteenOpen := false;
      }
    }

    method HandleRemoveItem(id: string)
      modifies this`cart
      ensures cart == RemoveItem(old(cart), id)
    {
      cart := Filter(cart, (item: CartItem) => item.id != id);
    }

    method HandleUpdateQuantity(id: string, n: int)
      modifies this`cart
      ensures cart == UpdateQuantity(old(cart), id, n)
    {
      if n < 1 {
        HandleRemoveItem(id);
        return;
      }
      cart := SetQuantity(cart, id, n);
    }

    /** `handleUpiPayment`. A zero total or a closed canteen returns before
        anything happens. Otherwise the button is disabled, the payload of
        the current cart is sent once the script loaded, and the outcome
        decides the rest: a verified order empties the cart and opens the
        success page, every failure enables the button again, and a widget
        closed without paying leaves the button disabled. */
    method HandleUpiPayment(scriptLoaded: bool, creation: CreationReply, keyConfigured: bool, event: GatewayEvent)
      returns (outcome: CheckoutOutcome, sent: Option<OrderPayload>)
      modifies this`isPlacingOrder, this`cart, this`navigatedTo
      ensures TotalPrice(old(cart)) == 0 || !isCanteenOpen ==>
        outcome == NotStarted && sent == None && isPlacingOrder == old(isPlacingOrder)
        && cart == old(cart) && navigatedTo == old(navigatedTo)
      ensures TotalPrice(old(cart)) != 0 && isCanteenOpen ==>
        outcome == CheckoutResult(scriptLoaded, creation, keyConfigured, event)
        && sent == (if scriptLoaded then Some(PayloadOf(old(cart))) else None)
        && isPlacingOrder == !ReleasesButton(outcome)
        && cart == (if outcome.OrderPlaced? then [] else old(cart))
        && navigatedTo == (if outcome.OrderPlaced? then Some("/order-success") else old(navigatedTo))
    {
      if TotalPrice(cart) == 0 || !isCanteenOpen {
        return NotStarted, None;
      }
      isPlacingOrder := true;
      if !scriptLoaded {
        isPlacingOrder := false;
        return ScriptLoadFailed, None;
      }
      sent := Some(PayloadOf(cart));
      match creation {
        case CreationError(message, serverMessage) =>
          outcome := SetupFailed(FriendlyMessage(message, serverMessage));
          isPlacingOrder := false;
        case GatewayOrder(_, _, _) =>
          if !keyConfigured {
            outcome := SetupFailed(FriendlyMessage(MissingKeyMessage, ""));
            isPlacingOrder := false;
          } else {
            match event {
              case GatewayFailed =>
                outcome := PaymentFailed;
                isPlacingOrder := false;
              case GatewayClosed =>
                outcome := AwaitingGateway;
              case GatewayPaid(Verified(Some(order))) =>
                cart := [];
                navigatedTo := Some("/order-success");
                outcome := OrderPlaced(order);
              case GatewayPaid(Verified(None)) =>
                outcome := VerificationFailed;
                isPlacingOrder := false;
              case GatewayPaid(VerificationThrew) =>
                outcome := VerificationErrored;
                isPlacingOrder := false;
            }
          }
      }
    }

    /** What the page shows: the closed notice, the empty-cart prompt, or
        the entries with the total and the pay button. */
    function Screen(): (s: CartScreen)
      reads this`cart, this`isPlacingOrder, this`isCanteenOpen
      ensures s == ClosedNotice <==> !isCanteenOpen
      ensures s == EmptyCart <==> isCanteenOpen && cart == []
      ensures s.CartList? ==> s.items == cart && s.total == TotalPrice(cart) && s.payDisabled == isPlacingOrder
    {
      if !isCanteenOpen then ClosedNotice
      else if cart == [] then EmptyCart
      else CartList(cart, TotalPrice(cart), isPlacingOrder,
                    if isPlacingOrder then "Processing Payment..." else "Proceed to Pay")
    }
  }
}
