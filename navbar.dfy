/** The navigation bar (src/components/Navbar.jsx): the greeting, the
    search box and cart badge, and logout. Browser storage is a map from
    keys to stored text; the cart is the one shared through the cart
    context. */
module Navbar {
  import opened Common
  import Cart

  /** The keys logout removes. */
  const LogoutKeys: set<string> := {"token", "student", "canteenCart"}

  /** Storage after `handleLogout`: the three keys are gone, every other
      key keeps its value. */
  function AfterLogout(storage: map<string, string>): (r: map<string, string>)
    ensures forall k :: k in r <==> k in storage && k !in LogoutKeys
    ensures forall k :: k in r ==> r[k] == storage[k]
    ensures storage.Keys - r.Keys == storage.Keys * LogoutKeys
  {
    storage - LogoutKeys
  }

  /** Logging out twice is logging out once. */
  lemma AfterLogoutIdempotent(storage: map<string, string>)
    ensures AfterLogout(AfterLogout(storage)) == AfterLogout(storage)
  {
  }

  /** What the bar shows. */
  datatype Header = Header(welcome: string, searchBox: bool, cartBadge: Option<int>)

  /** The bar for the given cart count, open flag and whether the page
      passed a search setter. */
  function HeaderOf(userName: string, totalCartItems: int, isCanteenOpen: bool, hasSearchSetter: bool): (h: Header)
    ensures h.welcome == "Welcome, " + userName
    ensures h.searchBox <==> isCanteenOpen && hasSearchSetter
    ensures h.cartBadge.Some? <==> totalCartItems > 0
    ensures h.cartBadge.Some? ==> h.cartBadge.value == totalCartItems
  {
    Header("Welcome, " + userName, isCanteenOpen && hasSearchSetter,
           if totalCartItems > 0 then Some(totalCartItems) else None)
  }

  class NavbarState {
    var storage: map<string, string>
    var cart: seq<Cart.CartItem>
    var userName: string
    /** The route pushed by `navigate`, when one was. */
    var navigatedTo: Option<string>

    constructor (storage: map<string, string>, cart: seq<Cart.CartItem>)
      ensures this.storage == storage && this.cart == cart && userName == "Student" && navigatedTo == None
    {
      this.storage := storage;
      this.cart := cart;
      userName := "Student";
      navigatedTo := None;
    }

    /** The mount effect: the stored name when the record has one, "Guest"
        when the record cannot be parsed, otherwise the name stays. */
    method LoadUserName(parsed: StudentParse)
      modifies this`userName
      ensures parsed.Record? && parsed.name != "" ==> userName == parsed.name
      ensures parsed == ParseError ==> userName == "Guest"
      ensures parsed == NoRecord || (parsed.Record? && parsed.name == "") ==> userName == old(userName)
    {
      match parsed {
        case NoRecord =>
        case ParseError =>
          userName := "Guest";
        case Record(name) =>
          if name != "" {
            userName := name;
          }
      }
    }

    /** `handleLogout`: exactly the three keys leave storage, the cart is
        emptied and the login page opens. */
    method HandleLogout()
      modifies this`storage, this`cart, this`navigatedTo
      ensures storage == AfterLogout(old(storage))
      ensures cart == [] && navigatedTo == Some("/login")
    {
      storage := storage - {"token"};
      storage := storage - {"student"};
      storage := storage - {"canteenCart"};
      cart := [];
      navigatedTo := Some("/login");
    }
  }
}
