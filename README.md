# Canteen student storefront — a Dafny model

This project models the client-side logic of a college canteen's student web
app, a React single-page application. It covers:

- The dashboard. Breakfast and lunch are on sale only inside their service-hour
  windows, and the category bar follows those windows. A sync effect moves the
  page to the current meal. The item list is the in-stock items of an
  always-sold category or of an open meal, filtered by search, Favorites, the
  Snacks subcategory drill-down or the plain category. Favorites are toggled
  optimistically and rolled back on failure.
- The cart page: removing and re-quantifying entries, the total, the order
  payload, and the checkout sequence. That sequence loads the gateway script,
  creates an order, opens the gateway widget and verifies the payment.
- The stand-alone status panel, which has its own fixed-hours classifier.
- The item card's stock gating.
- The navigation bar's greeting, badge and logout.
- The advertisement carousel and rotator.
- The order history, order details and order success pages.

Modelling choices:

- Each source file keeps its own form:
  - Pure derivations are Dafny functions with lemmas.
  - Components whose React state changes step by step are classes. Their
    fields are the `useState` hooks, and their methods are the effects and
    handlers.
- The wall clock is a parameter, either the minute of the day or hours and
  minutes.
- Every server reply, the gateway script's load result and the gateway's
  events are inputs, each a datatype that lists the outcomes the code tells
  apart.
- Browser storage is a `map<string, string>`, or the two entries the dashboard
  reads.
- Money is whole paise, as `int`.
- A text field that is absent, null or empty is `""`, because JavaScript's
  `||` and `!` treat all three alike.

Modules: `Common` (Option, `Filter`, order-preserving sub-lists, de-duplication),
`Text` (digits, the `Number` conversion of digit strings, ASCII lower-casing,
substring, trimming), `Menu`, `ServiceHours`, `Dashboard`, `DashboardPage`, `Cart`,
`CanteenStatus`, `MenuItemCard`, `Navbar`, `AdCarousel`, `AdRotator`, `Orders`,
`OrderHistory`, `OrderDetails`, `OrderSuccess`.

## Model

| member | source | states |
|---|---|---|
| Common.Filter | src/pages/DashboardPage.jsx:402-409 | `Array.filter`: the result keeps exactly the elements that pass, in their original order, and is no longer than the input |
| Common.FilterIdempotent | src/pages/CartPage.jsx:71 | filtering a second time by the same test changes nothing |
| Common.Dedup | src/pages/DashboardPage.jsx:244 | the `Map` pass keeps each name once; the result has no repeats and holds exactly the input's elements |
| Common.DedupKeepsFirstOccurrenceOrder | src/pages/DashboardPage.jsx:244 | the kept elements come in the order of their first occurrences in the input, as a `Map`'s keys do |
| Common.DedupOfDistinct | src/pages/DashboardPage.jsx:244 | a list without repeats passes through the `Map` pass unchanged |
| Text.DecimalText | src/pages/DashboardPage.jsx:318 | the decimal text of a number (the status code in the menu error) is a non-empty digit string that reads back as the number |
| Text.ToNumber | src/pages/DashboardPage.jsx:221 | `Number` on a field: "" is 0, a digit string is its value, anything else is NaN |
| Text.Pad2Value | src/pages/DashboardPage.jsx:219-223 | a two-digit zero-padded number is a digit string that reads back as the number |
| Text.ToLowerIdempotent | src/pages/OrderHistoryPage.jsx:21 | lower-casing twice is lower-casing once |
| Text.ContainsInfix | src/pages/DashboardPage.jsx:414 | `includes`: a string contains every infix it was built from |
| Text.TrimEmptyIff | src/pages/DashboardPage.jsx:412 | `trim()` is empty exactly when the string is all whitespace |
| ServiceHours.FirstFieldIsPrefix | src/pages/DashboardPage.jsx:221 | the first field of `split(':')` is the longest colon-free prefix |
| ServiceHours.AfterFirstColonSplits | src/pages/DashboardPage.jsx:221 | the text splits at its first ':' into the first field and the rest; there is no rest exactly when there is no ':' |
| ServiceHours.TimeToMinutes | src/pages/DashboardPage.jsx:219-223 | a missing value is the sentinel -1 |
| ServiceHours.TimeToMinutesOfFields | src/pages/DashboardPage.jsx:221-222 | "H:M", optionally followed by further ':' fields, is 60·H + M |
| ServiceHours.TimeToMinutesRoundTrip | src/pages/DashboardPage.jsx:219-223 | the zero-padded "HH:MM" of every clock time reads back as that minute of the day |
| ServiceHours.TimeToMinutesWithoutColon | src/pages/DashboardPage.jsx:221-222 | a non-empty value without ':' has no minutes field and is NaN |
| ServiceHours.SlotActiveIffWithin | src/pages/DashboardPage.jsx:225-232 | with well-formed boundaries a slot is active iff start ≤ now ≤ end, the end minute included |
| ServiceHours.MissingEndNeverActive | src/pages/DashboardPage.jsx:219-232 | a missing end (-1) keeps the slot inactive at every minute of the day |
| ServiceHours.MissingStartOpensAtMidnight | src/pages/DashboardPage.jsx:219-232 | a missing start (-1) makes the slot active from midnight up to its end |
| ServiceHours.MalformedBoundaryNeverActive | src/pages/DashboardPage.jsx:219-232 | a start without ':' is NaN, so the slot is never active |
| ServiceHours.DefaultWindows | src/pages/DashboardPage.jsx:23-28 | the built-in hours: breakfast is minutes 480-660 and lunch is 720-900, both ends included |
| Dashboard.ListedCategoriesUnchangedByDedup | src/pages/DashboardPage.jsx:236-244 | the listed categories never repeat, so the `Map` pass leaves the list as built |
| Dashboard.ListedCategoriesShape | src/pages/DashboardPage.jsx:236-243 | the fixed four end the list; Lunch is unshifted while its slot is active, then Breakfast in front of it while its slot is active |
| Dashboard.VisibleCategories | src/pages/DashboardPage.jsx:235-245 | the list always holds Snacks, Essentials, Stationery and Favorites, last and in that order. Breakfast is present iff its slot is active, and then comes first. Lunch is present iff its slot is active, and then comes just before the fixed four. No name repeats |
| Dashboard.SyncedCategory | src/pages/DashboardPage.jsx:249-253 | Breakfast iff its slot is active, else Lunch iff its slot is active, else Snacks |
| Dashboard.SyncedCategoryIsVisible | src/pages/DashboardPage.jsx:249-253 | the category the sync settles on is always on the bar |
| Dashboard.SyncGuardIsInequality | src/pages/DashboardPage.jsx:254 | the second disjunct of the guard implies the first, so the effect fires iff the category differs |
| Dashboard.DefaultHoursMorning | src/pages/DashboardPage.jsx:235-253 | with the built-in hours at 09:30 the bar is Breakfast followed by the fixed four, and the sync picks Breakfast |
| Dashboard.AvailableItems | src/pages/DashboardPage.jsx:401-410 | an order-preserving sub-list of the menu. Every kept item has stock > 0 and is Snacks, Stationery or Essentials, or a meal whose slot is active. Every such menu item is kept |
| Dashboard.NoMealItemsOutsideWindows | src/pages/DashboardPage.jsx:403-408 | with both slots inactive only always-sold categories remain |
| Dashboard.SearchResults | src/pages/DashboardPage.jsx:414 | exactly the available items whose lower-cased name contains the lower-cased, untrimmed term, in order |
| Dashboard.SearchFindsOwnName | src/pages/DashboardPage.jsx:414 | searching for an available item's own name always finds it |
| Dashboard.FirstSubCategories | src/pages/DashboardPage.jsx:424-430 | one subcategory per non-empty `_id`, each taken from some snack item |
| Dashboard.FirstSubCategoriesCovers | src/pages/DashboardPage.jsx:425-429 | every id a snack item carries is collected |
| Dashboard.FirstSubCategoriesKeepsFirst | src/pages/DashboardPage.jsx:427-428 | the record kept for an id is the one of the first item carrying it |
| Dashboard.NameLeTotal | src/pages/DashboardPage.jsx:431 | the name order used by the sort compares every pair of names |
| Dashboard.InsertByName | src/pages/DashboardPage.jsx:431 | inserting into a sorted list keeps it sorted and adds exactly the new element |
| Dashboard.InsertByNameKeepsDistinctIds | src/pages/DashboardPage.jsx:431 | inserting a subcategory with a fresh id keeps the ids distinct |
| Dashboard.SortByName | src/pages/DashboardPage.jsx:431 | the sort's result is sorted by name and is a permutation of its input; distinct ids stay distinct |
| Dashboard.SnackSubCategories | src/pages/DashboardPage.jsx:422-431 | the subcategory cards are sorted by name, have distinct ids, and are exactly the first-kept subcategories |
| Dashboard.FindSubCategory | src/pages/DashboardPage.jsx:434 | `find` by id: a hit is in the list and carries the id; a miss means no entry has the id |
| Dashboard.CategoryTitleFor | src/pages/DashboardPage.jsx:444-449 | a meal category outside its slot is titled with that slot's start and end; any other category keeps its own name |
| Dashboard.FavoriteItems | src/pages/DashboardPage.jsx:419-420 | exactly the available items whose id is a favorite, in order |
| Dashboard.CategoryItems | src/pages/DashboardPage.jsx:442 | exactly the available items of the category, in order |
| Dashboard.SnacksView | src/pages/DashboardPage.jsx:422-440 | with no subcategory selected the view is exactly the grid of `SnackSubCategories` of the available snacks: sorted by name, distinct ids, each the first-kept record, covering every id a snack carries. With one selected it is the available snacks carrying that id, the selection is kept, and the title is the name of the subcategory found with that id, or "Snacks" when none is |
| Dashboard.SelectView | src/pages/DashboardPage.jsx:412-451 | a non-blank search wins and shows the matching available items. Otherwise Favorites shows the favorite available items, Snacks shows the drill-down, and any other category its own available items. The subcategory selection is cleared in every branch except Snacks |
| Dashboard.ShownItemsAreAvailable | src/pages/DashboardPage.jsx:401-451 | every item a view shows is on the menu and in stock |
| Dashboard.StockBadgeColor | src/pages/DashboardPage.jsx:150-154 | red up to 10, yellow up to 25, green above 25 |
| Dashboard.StockBadge | src/pages/DashboardPage.jsx:137-154 | the dashboard card draws a badge iff the item is in stock, red iff stock ≤ 10 and green iff stock > 25 |
| Dashboard.AvailableItemsAreAddable | src/pages/DashboardPage.jsx:164 | every card drawn from the available items has its add button enabled |
| Dashboard.ToggledFavorites | src/pages/DashboardPage.jsx:363-364 | the id is in the result iff it was not in the list; no other id's membership changes. A present id is filtered out of the list; an absent one is appended at the end |
| Dashboard.ToggleTwiceRestores | src/pages/DashboardPage.jsx:364 | adding an id and then toggling it again gives back the original list |
| DashboardPage.FetchFailureReason | src/pages/DashboardPage.jsx:316-341 | a fetch error is raised exactly when the menu reply is not a list, or the ads reply answers but is not a list |
| DashboardPage.WithImages | src/pages/DashboardPage.jsx:325 | each stored menu item is the served one with `image` overwritten by `imageUrl` |
| DashboardPage.Optimistic | src/pages/DashboardPage.jsx:362-371 | with a readable stored record, the optimistic step stores the toggled list in the page and in that record, which then agree; with no record, storage is left without one |
| DashboardPage.ThrewAfterOptimistic | src/pages/DashboardPage.jsx:365-368 | when the stored record cannot be parsed, the page already holds the toggled list while the token and the stored record are untouched |
| DashboardPage.ToggleAsWrittenDesyncs | src/pages/DashboardPage.jsx:389-391 | as written, a failed update leaves the stored record holding the toggled list while the page shows the original |
| DashboardPage.Toggle | src/pages/DashboardPage.jsx:356-394 | no token changes nothing and asks for login. An unreadable stored record throws after the list is toggled, with no request. Otherwise success is exactly the optimistic step. A 401 keeps the toggled list and clears the session. Any other failure restores both the list and the stored record |
| DashboardPage.ToggleKeepsInSync | src/pages/DashboardPage.jsx:356-394 | with the revert, the stored favorites never drift from the shown ones |
| DashboardPage.ToggleAgreesExceptOnFailure | src/pages/DashboardPage.jsx:389-391 | the written and corrected toggles agree on the outcome and the shown list, and on everything unless the update failed |
| DashboardPage.Page.constructor | src/pages/DashboardPage.jsx:203-216 | the initial state of the page's hooks |
| DashboardPage.Page.SelectCategory | src/pages/DashboardPage.jsx:455 | choosing a category clears the subcategory selection iff the category changed |
| DashboardPage.Page.SyncActiveCategory | src/pages/DashboardPage.jsx:248-256 | the page ends on the synced category (on the bar by SyncedCategoryIsVisible); the selection is cleared iff the category changed |
| DashboardPage.Page.SetSearchTerm | src/pages/DashboardPage.jsx:207 | the search term is replaced |
| DashboardPage.Page.SelectSubCategory | src/pages/DashboardPage.jsx:453 | the clicked subcategory becomes the selection |
| DashboardPage.Page.BackToSubCategories | src/pages/DashboardPage.jsx:454 | the selection is cleared |
| DashboardPage.Page.FetchStatusAndHours | src/pages/DashboardPage.jsx:261-280 | an unreachable server forces the canteen closed and sets the status error. A reply sets the open flag, replaces the hours only when they come with a body, and leaves the error as it was |
| DashboardPage.Page.Poll | src/pages/DashboardPage.jsx:350 | a poll tick refreshes status and hours only. New hours re-run the sync, which overrides a hand-picked category; the subcategory is kept iff the category stays the same, else cleared |
| DashboardPage.Page.LoadStoredFavorites | src/pages/DashboardPage.jsx:300-304 | reports whether the stored record parses. A parsed record's favorites, when it has them, replace the page's; an unparsable one sets the fetch error with the parse message |
| DashboardPage.Page.ApplyDataReply | src/pages/DashboardPage.jsx:307-341 | a good menu is stored with its images. Ads are stored only when they form a list. Every failure becomes "Could not fetch data: …" |
| DashboardPage.Page.FetchDashboardData | src/pages/DashboardPage.jsx:282-346 | loading ends. When the canteen is closed only status and hours change, and nothing more is fetched. An unparsable stored record ends the fetch with its parse message as the error, and menu, favorites and ads are left as they were. Otherwise favorites, menu, ads and the error follow the replies, and an earlier error is cleared first |
| DashboardPage.Page.ToggleFavorite | src/pages/DashboardPage.jsx:356-394 | the page's favorites, token and stored record change exactly as the corrected toggle says |
| DashboardPage.Page.Render | src/pages/DashboardPage.jsx:397-498 | closed, then loading, then the error each replace the whole body; otherwise the bar and the selected view are shown. A render whose view clears the selection clears it |
| Cart.TotalPrice | src/pages/CartPage.jsx:68 | the empty cart totals 0 |
| Cart.TotalPriceAppend | src/pages/CartPage.jsx:68 | the total of two carts laid end to end is the sum of their totals |
| Cart.TotalPriceNonNegative | src/pages/CartPage.jsx:68 | non-negative prices and quantities give a non-negative total |
| Cart.RemoveItem | src/pages/CartPage.jsx:70-72 | every entry with the id goes; the others stay in their order |
| Cart.RemoveAbsentItem | src/pages/CartPage.jsx:70-72 | removing an id the cart does not hold changes nothing |
| Cart.RemoveItemIdempotent | src/pages/CartPage.jsx:70-72 | removing twice is removing once |
| Cart.TotalPriceSplitsOnRemove | src/pages/CartPage.jsx:68-72 | the total is what remains after a removal plus what was removed |
| Cart.SetQuantity | src/pages/CartPage.jsx:79-83 | length, order, ids and every other field stay; matching entries take the new quantity and the others keep theirs |
| Cart.UpdateQuantity | src/pages/CartPage.jsx:74-84 | a quantity below 1 is exactly a removal; otherwise the entries keep their ids in order, every entry with the id gets quantity n, and every other entry keeps its quantity |
| Cart.RemoveAfterSetQuantity | src/pages/CartPage.jsx:74-84 | changing an entry's quantity and then removing it is the same as removing it |
| Cart.SetQuantityTwice | src/pages/CartPage.jsx:79-83 | a later quantity update for an id overrides an earlier one |
| Cart.PayloadOf | src/pages/CartPage.jsx:101-109 | the amount is the total. There is one line per entry, in order, copying its id, name, quantity and price |
| Cart.PayloadAmountMatchesLines | src/pages/CartPage.jsx:101-109 | the payload's amount is exactly what its own lines add up to |
| Cart.FriendlyMessage | src/pages/CartPage.jsx:177-186 | a message naming the key variable gives the setup-error text; otherwise the server's message, or failing that the error's own |
| Cart.MissingKeyIsSetupError | src/pages/CartPage.jsx:180-182 | the error thrown for a missing key is always reported as the setup error |
| Cart.CheckoutResult | src/pages/CartPage.jsx:88-188 | a script failure ends first. A failed order creation reports its friendly message; a missing gateway key reports the key message. With an order and a key: payment failed iff the gateway reports failure, verification failed iff it returns no order, verification errored iff it throws. An order is placed iff every step succeeds and the verification returns an order. The flow waits on the gateway iff the widget is closed without paying |
| Cart.AlertOf | src/pages/CartPage.jsx:92-187 | every outcome alerts except not starting, waiting on the gateway and a placed order; a setup failure alerts its own message, and the script, payment and verification failures each alert their fixed text |
| Cart.MissingKeyOutcome | src/pages/CartPage.jsx:126-131 | with a created order and no key the checkout ends in the setup error, whatever the widget would do |
| Cart.FailuresReleaseButton | src/pages/CartPage.jsx:92-187 | every failure enables the button again and alerts; only a placed order or an open widget keeps it disabled |
| Cart.CartPage.constructor | src/pages/CartPage.jsx:34-39 | the initial state: the given cart, not placing, open, no navigation |
| Cart.CartPage.Mount | src/pages/CartPage.jsx:51-66 | without a token or stored student the page leaves for /login. A stored record the parser rejects throws before the status request, so nothing else changes and no poll starts. Otherwise the open flag follows the first status reply and the poll starts |
| Cart.CartPage.FetchCanteenStatus | src/pages/CartPage.jsx:41-49 | the reported open flag, or closed when the request fails |
| Cart.CartPage.HandleRemoveItem | src/pages/CartPage.jsx:70-72 | the cart becomes the removal of the id |
| Cart.CartPage.HandleUpdateQuantity | src/pages/CartPage.jsx:74-84 | the cart becomes the quantity update |
| Cart.CartPage.HandleUpiPayment | src/pages/CartPage.jsx:86-189 | a zero total or a closed canteen changes nothing. Otherwise the payload of the current cart is sent once the script loads, and the button is re-enabled exactly on failure. Only a placed order empties the cart and opens /order-success |
| Cart.CartPage.Screen | src/pages/CartPage.jsx:197-283 | closed notice iff closed; empty prompt iff open with an empty cart; otherwise the entries, the total and a button disabled while placing |
| CanteenStatus.Classify | src/components/CanteenStatus.jsx:7-34 | Breakfast iff 8 ≤ h < 10.5, Lunch iff 12 ≤ h < 14.5, Snacks iff 16 ≤ h < 18, CLOSED otherwise; never LOADING |
| CanteenStatus.ClassifyByMinute | src/components/CanteenStatus.jsx:7-11 | on a wall clock the windows are minutes 480-629, 720-869 and 960-1079 |
| CanteenStatus.AsWrittenIgnoresClock | src/components/CanteenStatus.jsx:23 | as written the hour is fixed at 17, so the panel reports Snacks at every time, 09:00 included |
| CanteenStatus.CurrentStatus | src/components/CanteenStatus.jsx:24-34 | the status of the current clock time, by minute of day |
| CanteenStatus.FilteredMenu | src/components/CanteenStatus.jsx:73 | exactly the menu items whose category is the status, in order, with no stock check |
| CanteenStatus.SoldOutItemsListed | src/components/CanteenStatus.jsx:73 | an out-of-stock item of the current meal is still listed |
| CanteenStatus.StatusPanel.constructor | src/components/CanteenStatus.jsx:15-16 | LOADING with no items |
| CanteenStatus.StatusPanel.FetchMenuAndSetStatus | src/components/CanteenStatus.jsx:19-46 | the status is the corrected clock status (see Findings); the menu is requested iff the status is not CLOSED; a failed request keeps the items |
| CanteenStatus.StatusPanel.Render | src/components/CanteenStatus.jsx:54-90 | loading iff LOADING; the closed notice iff CLOSED; otherwise the filtered menu, or the no-items notice iff it is empty |
| MenuItemCard.ImageSource | src/components/MenuItemCard.jsx:17 | `image`, else `imageUrl`, else the placeholder; never empty |
| MenuItemCard.CategoryLabel | src/components/MenuItemCard.jsx:43 | the category, else "General" |
| MenuItemCard.CardOf | src/components/MenuItemCard.jsx:6-59 | the overlay, the dimming and the disabled "Out of Stock" button each appear iff stock ≤ 0. The stock badge appears iff the item is in stock |
| MenuItemCard.Click | src/components/MenuItemCard.jsx:49-51 | `onAddToCart` runs, with the item, iff the item is in stock |
| MenuItemCard.OverlayXorBadge | src/components/MenuItemCard.jsx:23-34 | exactly one of the overlay and the badge is drawn |
| MenuItemCard.CardAgreesWithDashboard | src/components/MenuItemCard.jsx:49-51 | the card and the dashboard's own card agree on which items can be added |
| Navbar.AfterLogout | src/components/Navbar.jsx:55-58 | exactly the keys token, student and canteenCart leave storage; every other key keeps its value |
| Navbar.AfterLogoutIdempotent | src/components/Navbar.jsx:55-58 | logging out twice is logging out once |
| Navbar.HeaderOf | src/components/Navbar.jsx:69-102 | the greeting names the user. The search box shows iff the canteen is open and a setter is passed. The badge shows the count iff it is positive |
| Navbar.NavbarState.constructor | src/components/Navbar.jsx:41 | the user name starts as "Student" |
| Navbar.NavbarState.LoadUserName | src/components/Navbar.jsx:43-53 | the stored name when present, "Guest" on a parse error, otherwise unchanged |
| Navbar.NavbarState.HandleLogout | src/components/Navbar.jsx:55-61 | storage loses exactly the three keys, the cart is emptied, and /login opens |
| AdCarousel.ArrowsStayInRange | src/components/AdCarousel.jsx:26-36 | both arrows keep a valid index valid |
| AdCarousel.ArrowsAreInverse | src/components/AdCarousel.jsx:26-36 | on a valid index the two arrows undo each other |
| AdCarousel.JsRemainder | src/components/AdCarousel.jsx:14 | JavaScript's `%` agrees with the mathematical remainder on non-negative operands |
| AdCarousel.AutoAdvanceIsNext | src/components/AdCarousel.jsx:14 | on a valid index the timer moves exactly like the right arrow |
| AdCarousel.FrameOf | src/components/AdCarousel.jsx:21-78 | nothing for an empty list. Otherwise only the current slide is opaque, arrows are drawn iff there is more than one ad, and the dots pass exactly 0..len−1 |
| AdCarousel.Carousel.constructor | src/components/AdCarousel.jsx:5 | the index starts at 0 |
| AdCarousel.Carousel.GoToNext | src/components/AdCarousel.jsx:32-36 | i+1, the last index wrapping to 0; a valid index stays valid |
| AdCarousel.Carousel.GoToPrevious | src/components/AdCarousel.jsx:26-30 | i−1, index 0 wrapping to len−1; a valid index stays valid |
| AdCarousel.Carousel.GoToSlide | src/components/AdCarousel.jsx:38-40 | the index exactly as given |
| AdCarousel.Carousel.PressDot | src/components/AdCarousel.jsx:73-78 | a dot sets the slide it names, which is always a valid index |
| AdCarousel.Carousel.Tick | src/components/AdCarousel.jsx:8-19 | (i+1) % len when there are at least two ads, otherwise no change; a valid index stays valid |
| AdRotator.ChangeTestIsInequality | src/components/AdRotator.jsx:28 | the length-or-JSON test is plain list inequality |
| AdRotator.Rotator.constructor | src/components/AdRotator.jsx:15-17 | no ads, index 0, loading |
| AdRotator.Rotator.FetchActiveAds | src/components/AdRotator.jsx:20-38 | a different list replaces the ads and resets the index to 0. The same list or a failure leaves both alone. Loading ends either way |
| AdRotator.Rotator.Rotate | src/components/AdRotator.jsx:49-60 | with at least two ads a tick moves to (i+1) % n, the next ad with wrap-around; with fewer nothing moves |
| AdRotator.Rotator.Render | src/components/AdRotator.jsx:62-83 | the loading text iff loading; the empty notice iff no ads; otherwise the current ad labelled position i+1 of n, with 1 ≤ i+1 ≤ n |
| Orders.BillLabel | src/pages/OrderHistoryPage.jsx:59 | `billNumber`, else `orderId` |
| OrderHistory.StatusColorOf | src/pages/OrderHistoryPage.jsx:20-40 | on the lower-cased status: delivered is green, ready orange, pending blue, anything else yellow |
| OrderHistory.StatusColorIgnoresCase | src/pages/OrderHistoryPage.jsx:20-21 | the colour does not depend on letter case |
| OrderHistory.StatusColorExamples | src/pages/OrderHistoryPage.jsx:20-40 | "paid" in any case and "cancelled" are yellow; "DELIVERED" is green |
| OrderHistory.CardAmount | src/pages/OrderHistoryPage.jsx:61 | the amount when present, else zero |
| OrderHistory.SummaryOf | src/pages/OrderHistoryPage.jsx:79-88 | the first min(3, n) items, and a "more" count of n−3 exactly when n > 3 |
| OrderHistory.SummaryAccountsForAll | src/pages/OrderHistoryPage.jsx:79-88 | every item is listed or counted once; with no "more" entry, all are listed |
| OrderHistory.CardOf | src/pages/OrderHistoryPage.jsx:44-92 | the card links to /order-details/ + id and shows the bill label, the amount, the lower-cased status with its colour, and the summary |
| OrderHistory.HistoryErrorText | src/pages/OrderHistoryPage.jsx:147-151 | the server's message when present, else the default message |
| OrderHistory.HistoryPage.constructor | src/pages/OrderHistoryPage.jsx:98-103 | no orders, loading, no error, open |
| OrderHistory.HistoryPage.FetchOrderHistory | src/pages/OrderHistoryPage.jsx:119-155 | without a token the page goes to /login and nothing is fetched. When closed only loading ends. A list replaces the orders. A 401 clears all storage and goes to /login. Any other failure sets the error text |
| OrderHistory.HistoryPage.Screen | src/pages/OrderHistoryPage.jsx:178-225 | the closed notice iff closed. Otherwise the spinner while loading, the error box once loaded, the empty prompt iff loaded with no error and no orders, and otherwise one card per order in order |
| OrderDetails.TotalItems | src/pages/OrderDetailsPage.jsx:27 | no items count 0 |
| OrderDetails.TotalItemsAppend | src/pages/OrderDetailsPage.jsx:27 | the count of two item lists laid end to end is the sum of their counts |
| OrderDetails.TotalItemsAtLeastLines | src/pages/OrderDetailsPage.jsx:27 | with positive quantities the count is at least the number of lines |
| OrderDetails.LinesOf | src/pages/OrderDetailsPage.jsx:71-78 | one line per item, in order, whose amount is price × quantity |
| OrderDetails.DetailsOf | src/pages/OrderDetailsPage.jsx:12-84 | a missing order gives the not-found view redirecting to /my-orders. An order without a total amount crashes the render at its `toFixed`. Otherwise the bill label, the total count, green iff the status is exactly "completed", the lines, and the grand total as given |
| OrderDetails.StatusGreenIsCaseSensitive | src/pages/OrderDetailsPage.jsx:62 | "Completed" is not green on a receipt |
| OrderDetails.GrandTotalNotRecomputed | src/pages/OrderDetailsPage.jsx:84 | the grand total is shown as given even when the lines add up to something else |
| OrderSuccess.PaymentLabel | src/pages/OrderSuccessPage.jsx:30 | the method when present, else "UPI/Card (Paid)" with a gateway payment id, else "Cash on Delivery (Pending)" |
| OrderSuccess.TotalLabel | src/pages/OrderSuccessPage.jsx:98-99 | "Paid:" iff the status is exactly "Paid", else "Due:" |
| OrderSuccess.RowsOf | src/pages/OrderSuccessPage.jsx:86-93 | one row per item, in order |
| OrderSuccess.RowsOfAppend | src/pages/OrderSuccessPage.jsx:86-93 | the rows of two item lists laid end to end are their rows laid end to end |
| OrderSuccess.StudentNameOf | src/pages/OrderSuccessPage.jsx:11-16 | the stored record's name, or '' when nothing is stored |
| OrderSuccess.SuccessOf | src/pages/OrderSuccessPage.jsx:11-99 | the page crashes iff the stored record cannot be parsed (the mount effect throws) or the order has no total amount (its `toFixed` throws). Otherwise a missing order gives the error view, and an order gives the bill number, the student's name, the payment label, the paid look iff the status is "Paid", the rows, the total label and the total |
| OrderSuccess.CardPaymentWithLowerCaseStatus | src/pages/OrderSuccessPage.jsx:30-98 | a gateway-paid order with a blank method and status "paid" reads as paid by card, yet its total is labelled "Due:" |

## Left out

- Every request (axios or fetch) is an input datatype listing the reply shapes the code tells apart. So are the payment gateway's script, widget and events, and `JSON.parse` of stored records: on the dashboard a record is absent, parsed, or unparsable with the parser's message (`StudentUnreadable`); in the navigation bar it is absent, parsed, or a parse error. The cart page's mount effect (`Cart.CartPage.Mount`) and the confirmation page (`OrderSuccess.SuccessOf`) take the same parse result, `StudentParse`; on them a parse error throws out of the effect. A stored record that parses to `null`, and a stored empty text (falsy on the cart and confirmation pages, a parse error in the navigation bar), are not modelled. Timeouts, retries and the exact JSON shapes are not modelled.
- Asynchronous interleaving: each effect or handler runs to completion as one method. Two concurrent fetches, a poll landing mid-fetch, and state read through stale closures are not modelled.
- Timers are explicit tick methods: the 15-second status poll, the 5-second carousel timer, the 5-minute ad refetch and the 30-minute rotation. Their timing is not modelled.
- Prices and amounts are whole paise. `toFixed(2)` formatting and floating-point arithmetic are not modelled.
- `localeCompare` in the subcategory sort is code-point order. Locale collation is not modelled.
- `toLowerCase` covers ASCII letters only. `Number` is modelled only for digit strings ("" is 0, anything else is NaN), which covers the "HH:MM" values the hours take.
- Dashboard.SnacksView: the constant title "Snacks - Choose a type" of the subcategory grid is not part of the view value.
- CanteenStatus.StatusPanel.FetchMenuAndSetStatus: follows the corrected status (see Findings). As written (src/components/CanteenStatus.jsx:23) the hour is always 17, so the status is always Snacks and the menu is always requested; that behaviour is captured by `CanteenStatus.AsWrittenIgnoresClock`, not by the method.
- DashboardPage.Page.FetchDashboardData: on new hours the sync effect runs afterwards as its own step, `SyncActiveCategory`, as React runs it after the render. It is not part of the fetch method's contract.
- DashboardPage.Page.ToggleFavorite: follows the corrected toggle (see Findings). A 401 keeps the toggled list with no rollback, as the code returns before the failure branch. The alert and the navigation to /login are reported through the outcome value.
- `localStorage.clear()` on a 401 is modelled on the dashboard as clearing the token and the stored student, the only entries the page holds. On the history page it is the whole storage map.
- The cart context's add-to-cart merge, `totalCartItems` and cart persistence are not part of this model: src/context/CartContext.jsx holds only a static banner. The cart is a plain field, and the navigation bar takes `totalCartItems` as a number.
- Cart.CartPage.HandleUpiPayment: closing the gateway widget has no handler in the code, so the button stays disabled (`AwaitingGateway`). The payment id and signature sent for verification are not modelled, because only the presence of `data.order` decides the outcome.
- AdCarousel.Carousel: the `ads` prop is fixed for the life of the object. A parent passing a shorter list, which can leave the index out of range, is not modelled.
- AdRotator: a reply body that is not a list is not modelled.
- The dashboard's in-file advertisement rotator, the advertisement modal with its sessionStorage flag, the feedback button, the schedule banner, the clock displays and their `Math.random` sparkle overlay are static markup or timers and are not modelled.
- The login and registration pages are form glue over the auth endpoints and are not modelled. So is the student schema, whose constraints the database enforces.
- Routing belongs to react-router. The history card links to `/order-details/<id>` (src/pages/OrderHistoryPage.jsx:49), which does not match the route `/order-details` declared at src/App.jsx:35. The model records the link and not where it leads.
- Dashboard.VisibleCategories and Dashboard.AvailableItems: in the code the slot test is memoized on the service hours (src/pages/DashboardPage.jsx:225-232) and the two lists on it and on the menu, so they keep the clock reading of the last hours or menu change, while the title reads a fresh clock on each render. The model evaluates all of them at the render's single `now`.
- Orders.Order: an absent `status` is read as "" and absent `items` as an empty list. The code crashes on both where it calls a method on them, for example `order.status.toLowerCase()` at src/pages/OrderHistoryPage.jsx:20 and `order.items.reduce` at src/pages/OrderDetailsPage.jsx:27, while the model draws a card or receipt. Only the absent `totalAmount` crash is modelled, as `Crashed`.
- The history and dashboard pages never clear an error set by an earlier failure when a later reply succeeds, except at the start of `fetchDashboardData`. The model keeps that behaviour.

## Findings

| source | as written | input that shows it | evidently intended | confidence | as-written member | corrected member |
|---|---|---|---|---|---|---|
| src/pages/DashboardPage.jsx:389-391 | a failed favorite update restores the page's list, but the stored student record keeps the optimistic list (the revert block is empty) | logged in, stored favorites [] in sync with the page, toggle "a", server answers 500: the page shows [] while storage holds ["a"] | the stored record is reverted with the list, so storage and page stay in sync | not executed | DashboardPage.ToggleAsWrittenDesyncs | DashboardPage.ToggleKeepsInSync |
| src/components/CanteenStatus.jsx:23 | the current hour is the constant 17, so the panel reports Snacks at every time of day | the clock at 09:00: reported Snacks, while 9 lies in the breakfast window | the hour read from the clock, as the commented-out line 24 computes it | not executed | CanteenStatus.AsWrittenIgnoresClock | CanteenStatus.CurrentStatus |
