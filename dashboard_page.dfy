/** The stateful side of the dashboard (src/pages/DashboardPage.jsx): the
    React state of the page as fields of a class, the effects and handlers
    as methods. Server replies, the clock and browser storage are inputs. */
module DashboardPage {
  import opened Common
  import opened Text
  import opened Menu
  import opened ServiceHours
  import opened Dashboard

  /** The `student` entry of browser storage as the dashboard reads it:
      absent, a record whose `favorites` may be missing, or text that
      `JSON.parse` rejects with the given message. */
  datatype StoredStudent =
    | NoStudent
    | StudentRecord(favorites: Option<seq<string>>)
    | StudentUnreadable(parseMessage: string)

  /** The joint outcome of the status and service-hours requests; `hours` is
      None when the hours reply has no body. */
  datatype StatusReply = StatusUnreachable | StatusAnswer(isOpen: bool, hours: Option<Hours>)

  datatype MenuReply = MenuHttpError(status: nat, body: string) | MenuNotArray | MenuList(items: seq<MenuItem>)

  datatype AdsReply = AdsHttpError | AdsNotArray | AdsList(ads: seq<string>)

  /** The joint outcome of the menu and advertisement requests. */
  datatype DataReply = DataUnreachable(message: string) | DataAnswer(menu: MenuReply, ads: AdsReply)

  datatype PageError =
    | StatusUnavailable
    | FetchFailed(reason: string)

  const StatusUnavailableText := "Could not get canteen status. Assuming closed."

  /** The `err.message` of a failed menu/advertisement fetch. */
  function FetchFailureReason(reply: DataReply): (m: Option<string>)
    ensures m.None? <==> reply.DataAnswer? && reply.menu.MenuList? && !reply.ads.AdsNotArray?
  {
    match reply
    case DataUnreachable(message) => Some(message)
    case DataAnswer(menu, ads) =>
      match menu
      case MenuHttpError(status, body) =>
        Some("Failed to fetch menu. Status: " + DecimalText(status) + ". Response: " + body)
      case MenuNotArray => Some("Invalid menu data received from server.")
      case MenuList(_) =>
        if ads.AdsNotArray? then Some("Invalid ad data received from server.") else None
  }

  /** The text shown under "Error". */
  function ErrorText(e: PageError): string {
    match e
    case StatusUnavailable => StatusUnavailableText
    case FetchFailed(reason) => "Could not fetch data: " + reason
  }

  /** Each menu item as the page stores it: `image` overwritten by `imageUrl`. */
  function WithImages(items: seq<MenuItem>): (r: seq<MenuItem>)
    ensures |r| == |items|
    ensures forall i :: 0 <= i < |r| ==> r[i].image == items[i].imageUrl
    ensures forall i :: 0 <= i < |r| ==> r[i].(image := items[i].image) == items[i]
  {
    seq(|items|, i requires 0 <= i < |items| => items[i].(image := items[i].imageUrl))
  }

  /** The state `toggleFavorite` reads and writes. */
  datatype FavoritesState = FavoritesState(favorites: seq<string>, token: string, student: StoredStudent)

  /** The reply to `POST`/`DELETE /student/favorites/:id`; a thrown fetch
      counts as `FavoriteFailed`. */
  datatype FavoriteReply = FavoriteOk | FavoriteUnauthorized | FavoriteFailed

  /** `Threw`: the parse of an unreadable stored record throws out of the
      handler after the optimistic list was set; no request is sent and
      nothing is alerted. */
  datatype ToggleOutcome = LoginRequired | Updated | SessionExpired | UpdateFailed | Threw

  /** The stored favorites agree with the page's favorites. */
  predicate InSync(s: FavoritesState) {
    s.student.StudentRecord? && s.student.favorites.Some? ==> s.student.favorites.value == s.favorites
  }

  /** The optimistic step of `toggleFavorite` for a readable stored entry:
      the new list, written into the stored student record when there is
      one. */
  function Optimistic(s: FavoritesState, id: string): (t: FavoritesState)
    requires s.token != "" && !s.student.StudentUnreadable?
    ensures t.favorites == ToggledFavorites(s.favorites, id) && t.token == s.token
    ensures s.student.StudentRecord? ==> t.student == StudentRecord(Some(t.favorites))
    ensures s.student == NoStudent ==> t.student == NoStudent
    ensures InSync(t)
  {
    var next := ToggledFavorites(s.favorites, id);
    FavoritesState(next, s.token, if s.student.StudentRecord? then StudentRecord(Some(next)) else NoStudent)
  }

  /** The page's state when the parse of an unreadable stored record throws:
      the optimistic list is already set, storage is untouched. */
  function ThrewAfterOptimistic(s: FavoritesState, id: string): (t: FavoritesState)
    ensures t.favorites == ToggledFavorites(s.favorites, id)
    ensures t.token == s.token && t.student == s.student
  {
    FavoritesState(ToggledFavorites(s.favorites, id), s.token, s.student)
  }

  /** `toggleFavorite` as written: a failed update restores the page's list
      but leaves the stored record holding the optimistic one. */
  function ToggleAsWritten(s: FavoritesState, id: string, reply: FavoriteReply): (FavoritesState, ToggleOutcome) {
    if s.token == "" then (s, LoginRequired)
    else if s.student.StudentUnreadable? then (ThrewAfterOptimistic(s, id), Threw)
    else
      var t := Optimistic(s, id);
      match reply
      case FavoriteOk => (t, Updated)
      case FavoriteUnauthorized => (FavoritesState(t.favorites, "", NoStudent), SessionExpired)
      case FavoriteFailed => (FavoritesState(s.favorites, t.token, t.student), UpdateFailed)
  }

  /** A logged-in student whose stored list agrees with the page, toggling
      "a" with a failing server, ends with "a" stored but not shown. */
  lemma ToggleAsWrittenDesyncs()
    ensures var s := FavoritesState([], "t", StudentRecord(Some([])));
            InSync(s)
            && ToggleAsWritten(s, "a", FavoriteFailed).0.favorites == []
            && ToggleAsWritten(s, "a", FavoriteFailed).0.student == StudentRecord(Some(["a"]))
            && !InSync(ToggleAsWritten(s, "a", FavoriteFailed).0)
  {
    var s := FavoritesState([], "t", StudentRecord(Some([])));
    assert ToggledFavorites([], "a") == ["a"];
  }

  /** `toggleFavorite` with the storage revert the failure branch announces:
      no token leaves everything as it was; an unreadable stored record
      throws after the optimistic list is set, before any request; success
      keeps the toggled list, also in the stored record; an expired session
      keeps it too (there is no rollback before the redirect) and clears
      storage; any other failure restores both the list and the stored
      record. */
  function Toggle(s: FavoritesState, id: string, reply: FavoriteReply): (r: (FavoritesState, ToggleOutcome))
    ensures s.token == "" ==> r == (s, LoginRequired)
    ensures s.token != "" && s.student.StudentUnreadable? ==>
      r.1 == Threw && r.0.student == s.student && r.0.token == s.token
      && r.0.favorites == ToggledFavorites(s.favorites, id)
    ensures s.token != "" && !s.student.StudentUnreadable? && reply == FavoriteOk ==>
      r == (Optimistic(s, id), Updated)
      && (id in r.0.favorites <==> id !in s.favorites)
      && (forall x :: x != id ==> (x in r.0.favorites <==> x in s.favorites))
      && (s.student.StudentRecord? ==> r.0.student == StudentRecord(Some(r.0.favorites)))
    ensures s.token != "" && !s.student.StudentUnreadable? && reply == FavoriteUnauthorized ==>
      r.1 == SessionExpired && r.0 == FavoritesState(ToggledFavorites(s.favorites, id), "", NoStudent)
    ensures s.token != "" && !s.student.StudentUnreadable? && reply == FavoriteFailed ==> r == (s, UpdateFailed)
  {
    if s.token == "" then (s, LoginRequired)
    else if s.student.StudentUnreadable? then (ThrewAfterOptimistic(s, id), Threw)
    else
      var t := Optimistic(s, id);
      match reply
      case FavoriteOk => (t, Updated)
      case FavoriteUnauthorized => (FavoritesState(t.favorites, "", NoStudent), SessionExpired)
      case FavoriteFailed => (s, UpdateFailed)
  }

  /** With the revert, the stored favorites never drift from the shown ones. */
  lemma ToggleKeepsInSync(s: FavoritesState, id: string, reply: FavoriteReply)
    requires InSync(s)
    ensures InSync(Toggle(s, id, reply).0)
  {
  }

  /** The two versions differ only in what a failed update leaves in storage. */
  lemma ToggleAgreesExceptOnFailure(s: FavoritesState, id: string, reply: FavoriteReply)
    ensures ToggleAsWritten(s, id, reply).1 == Toggle(s, id, reply).1
    ensures ToggleAsWritten(s, id, reply).0.favorites == Toggle(s, id, reply).0.favorites
    ensures reply != FavoriteFailed ==> ToggleAsWritten(s, id, reply) == Toggle(s, id, reply)
  {
  }

  predicate BreakfastOpen(hours: Hours, now: MinuteOfDay) {
    IsTimeSlotActive(hours, BreakfastSlot, now)
  }

  predicate LunchOpen(hours: Hours, now: MinuteOfDay) {
    IsTimeSlotActive(hours, LunchSlot, now)
  }

  /** What the page body renders, in the order the render tests it. */
  datatype Screen =
    | ClosedScreen
    | LoadingScreen
    | ErrorScreen(message: string)
    | MenuScreen(categories: seq<Category>, activeCategory: Category, view: View)

  class Page {
    var menuItems: seq<MenuItem>
    var searchTerm: string
    var loading: bool
    var error: Option<PageError>
    var activeAds: seq<string>
    var favorites: seq<string>
    var isCanteenOpen: bool
    var serviceHours: Hours
    var activeCategory: Category
    var selectedSubCategoryId: Option<string>
    /** Browser storage: the `token` entry ("" when absent) and `student`. */
    var token: string
    var storedStudent: StoredStudent

    /** The initial state of the page's hooks. */
    constructor (token: string, student: StoredStudent)
      ensures menuItems == [] && searchTerm == "" && loading && error == None && activeAds == []
      ensures favorites == [] && isCanteenOpen && serviceHours == DefaultHours
      ensures activeCategory == Snacks && selectedSubCategoryId == None
      ensures this.token == token && storedStudent == student
    {
      menuItems := [];
      searchTerm := "";
      loading := true;
      error := None;
      activeAds := [];
      favorites := [];
      isCanteenOpen := true;
      serviceHours := DefaultHours;
      activeCategory := Snacks;
      selectedSubCategoryId := None;
      this.token := token;
      storedStudent := student;
    }

    /** Choosing a category; the effect on `activeCategory` then clears the
        subcategory selection whenever the category actually changed. */
    method SelectCategory(category: Category)
      modifies this`activeCategory, this`selectedSubCategoryId
      ensures activeCategory == category
      ensures selectedSubCategoryId == if category == old(activeCategory) then old(selectedSubCategoryId) else None
    {
      if activeCategory != category {
        activeCategory := category;
        selectedSubCategoryId := None;
      }
    }

    /** The sync effect: it runs whenever the hours object is replaced and
        moves the page to the category of the current window. */
    method SyncActiveCategory(now: MinuteOfDay)
      modifies this`activeCategory, this`selectedSubCategoryId
      ensures activeCategory == SyncedCategory(BreakfastOpen(serviceHours, now), LunchOpen(serviceHours, now))
      ensures selectedSubCategoryId == if activeCategory == old(activeCategory) then old(selectedSubCategoryId) else None
    {
      var target := SyncedCategory(BreakfastOpen(serviceHours, now), LunchOpen(serviceHours, now));
      SyncGuardIsInequality(activeCategory, target);
      if activeCategory != target || (activeCategory != Snacks && target == Snacks) {
        activeCategory := target;
        selectedSubCategoryId := None;
      }
    }

    method SetSearchTerm(term: string)
      modifies this`searchTerm
      ensures searchTerm == term
    {
      searchTerm := term;
    }

    method SelectSubCategory(id: string)
      modifies this`selectedSubCategoryId
      ensures selectedSubCategoryId == Some(id)
    {
      selectedSubCategoryId := Some(id);
    }

    method BackToSubCategories()
      modifies this`selectedSubCategoryId
      ensures selectedSubCategoryId == None
    {
      selectedSubCategoryId := None;
    }

    /** `fetchCanteenStatusAndHours`: a failure forces the canteen closed and
        records the error; a reply never clears an earlier error. */
    method FetchStatusAndHours(reply: StatusReply) returns (isOpen: bool)
      modifies this`isCanteenOpen, this`serviceHours, this`error
      ensures reply.StatusUnreachable? ==>
        !isOpen && !isCanteenOpen && error == Some(StatusUnavailable) && serviceHours == old(serviceHours)
      ensures reply.StatusAnswer? ==>
        isOpen == reply.isOpen && isCanteenOpen == reply.isOpen && error == old(error)
        && serviceHours == if reply.hours.Some? then reply.hours.value else old(serviceHours)
    {
      match reply
      case StatusUnreachable =>
        isCanteenOpen := false;
        error := Some(StatusUnavailable);
        isOpen := false;
      case StatusAnswer(open, hours) =>
        isCanteenOpen := open;
        if hours.Some? {
          serviceHours := hours.value;
        }
        isOpen := open;
    }

    /** One tick of the 15-second poll: status and hours only (the menu is
        not re-fetched); new hours re-run the sync effect, which overrides a
        category the student picked by hand. */
    method Poll(reply: StatusReply, now: MinuteOfDay)
      modifies this`isCanteenOpen, this`serviceHours, this`error, this`activeCategory, this`selectedSubCategoryId
      ensures isCanteenOpen == (reply.StatusAnswer? && reply.isOpen)
      ensures error == if reply.StatusUnreachable? then Some(StatusUnavailable) else old(error)
      ensures reply.StatusAnswer? && reply.hours.Some? ==>
        serviceHours == reply.hours.value
        && activeCategory == SyncedCategory(BreakfastOpen(serviceHours, now), LunchOpen(serviceHours, now))
        && selectedSubCategoryId == if activeCategory == old(activeCategory) then old(selectedSubCategoryId) else None
      ensures !(reply.StatusAnswer? && reply.hours.Some?) ==>
        serviceHours == old(serviceHours) && activeCategory == old(activeCategory)
        && selectedSubCategoryId == old(selectedSubCategoryId)
    {
      var _ := FetchStatusAndHours(reply);
      match reply
      case StatusAnswer(_, Some(hours)) =>
        assert serviceHours == hours;
        SyncActiveCategory(now);
      case _ =>
    }

    /** The favorites saved in the stored student record, when it has them.
        An entry `JSON.parse` rejects throws inside the fetch's `try`: its
        message becomes the page error and `readable` is false. */
    method LoadStoredFavorites() returns (readable: bool)
      modifies this`favorites, this`error
      ensures readable <==> !storedStudent.StudentUnreadable?
      ensures favorites == if storedStudent.StudentRecord? && storedStudent.favorites.Some?
                           then storedStudent.favorites.value else old(favorites)
      ensures error == if readable then old(error) else Some(FetchFailed(storedStudent.parseMessage))
    {
      readable := true;
      match storedStudent {
        case NoStudent =>
        case StudentRecord(stored) =>
          if stored.Some? {
            favorites := stored.value;
          }
        case StudentUnreadable(message) =>
          error := Some(FetchFailed(message));
          readable := false;
      }
    }

    /** The menu and advertisement replies: a good menu is stored (with its
        images), the advertisements only when they form a list; every other
        outcome becomes the page error. */
    method ApplyDataReply(data: DataReply)
      modifies this`error, this`menuItems, this`activeAds
      ensures error == match FetchFailureReason(data) case Some(m) => Some(FetchFailed(m)) case None => old(error)
      ensures menuItems == if data.DataAnswer? && data.menu.MenuList? then WithImages(data.menu.items) else old(menuItems)
      ensures activeAds == if data.DataAnswer? && data.menu.MenuList? && data.ads.AdsList? then data.ads.ads else old(activeAds)
    {
      match data {
        case DataUnreachable(message) =>
          error := Some(FetchFailed(message));
        case DataAnswer(menu, ads) =>
          match menu {
            case MenuHttpError(code, body) =>
              error := Some(FetchFailed("Failed to fetch menu. Status: " + DecimalText(code) + ". Response: " + body));
            case MenuNotArray =>
              error := Some(FetchFailed("Invalid menu data received from server."));
            case MenuList(items) =>
              menuItems := WithImages(items);
              match ads {
                case AdsHttpError =>
                case AdsNotArray =>
                  error := Some(FetchFailed("Invalid ad data received from server."));
                case AdsList(list) =>
                  activeAds := list;
              }
          }
      }
    }

    /** `fetchDashboardData`: status first; when closed the menu is not
        requested at all; otherwise favorites come from storage (an
        unreadable entry ends the fetch with its parse error), then the menu
        and advertisements, any failure becoming the page error. New
        hours re-run the sync effect after the fetch, as a step of its own
        (`SyncActiveCategory`). */
    method FetchDashboardData(status: StatusReply, data: DataReply)
      modifies this`loading, this`error, this`isCanteenOpen, this`serviceHours,
               this`favorites, this`menuItems, this`activeAds
      ensures !loading
      ensures isCanteenOpen == (status.StatusAnswer? && status.isOpen)
      ensures serviceHours == if status.StatusAnswer? && status.hours.Some? then status.hours.value
                              else old(serviceHours)
      ensures !isCanteenOpen ==>
        error == (if status.StatusUnreachable? then Some(StatusUnavailable) else None)
        && menuItems == old(menuItems) && favorites == old(favorites) && activeAds == old(activeAds)
      ensures isCanteenOpen && storedStudent.StudentUnreadable? ==>
        error == Some(FetchFailed(storedStudent.parseMessage))
        && menuItems == old(menuItems) && favorites == old(favorites) && activeAds == old(activeAds)
      ensures isCanteenOpen && !storedStudent.StudentUnreadable? ==>
        favorites == (if storedStudent.StudentRecord? && storedStudent.favorites.Some?
                      then storedStudent.favorites.value else old(favorites))
        && error == (match FetchFailureReason(data) case Some(m) => Some(FetchFailed(m)) case None => None)
        && menuItems == (if data.DataAnswer? && data.menu.MenuList? then WithImages(data.menu.items)
                         else old(menuItems))
        && activeAds == (if data.DataAnswer? && data.menu.MenuList? && data.ads.AdsList? then data.ads.ads
                         else old(activeAds))
    {
      loading := true;
      error := None;
      var isOpen := FetchStatusAndHours(status);
      if isOpen {
        var readable := LoadStoredFavorites();
        if readable {
          ApplyDataReply(data);
        }
      }
      loading := false;
    }

    function Favorites(): FavoritesState
      reads this
    {
      FavoritesState(favorites, token, storedStudent)
    }

    /** `toggleFavorite(id)`, with the server's reply as input. */
    method ToggleFavorite(id: string, reply: FavoriteReply) returns (outcome: ToggleOutcome)
      modifies this`favorites, this`token, this`storedStudent
      ensures (Favorites(), outcome) == Toggle(old(Favorites()), id, reply)
    {
      if token == "" {
        return LoginRequired;
      }
      var original := favorites;
      var originalStudent := storedStudent;
      favorites := ToggledFavorites(original, id);
      if storedStudent.StudentUnreadable? {
        return Threw;
      }
      if storedStudent.StudentRecord? {
        storedStudent := StudentRecord(Some(favorites));
      }
      match reply
      case FavoriteOk =>
        outcome := Updated;
      case FavoriteUnauthorized =>
        token := "";
        storedStudent := NoStudent;
        outcome := SessionExpired;
      case FavoriteFailed =>
        favorites := original;
        storedStudent := originalStudent;
        outcome := UpdateFailed;
    }

    /** One render: the view derivation runs first (and clears the
        subcategory selection where it does), then the closed flag, the
        loading flag and the error each take over the whole body in turn. */
    method Render(now: MinuteOfDay) returns (screen: Screen)
      modifies this`selectedSubCategoryId
      ensures var b, l := BreakfastOpen(serviceHours, now), LunchOpen(serviceHours, now);
              var view := SelectView(AvailableItems(menuItems, b, l), searchTerm, activeCategory,
                                     old(selectedSubCategoryId), favorites, serviceHours, b, l);
              selectedSubCategoryId == (if view.ItemGrid? && view.clearsSelection then None else old(selectedSubCategoryId))
              && screen == (if !isCanteenOpen then ClosedScreen
                            else if loading then LoadingScreen
                            else if error.Some? then ErrorScreen(ErrorText(error.value))
                            else MenuScreen(VisibleCategories(b, l), activeCategory, view))
    {
      var b := BreakfastOpen(serviceHours, now);
      var l := LunchOpen(serviceHours, now);
      var view := SelectView(AvailableItems(menuItems, b, l), searchTerm, activeCategory, selectedSubCategoryId,
                             favorites, serviceHours, b, l);
      if view.ItemGrid? && view.clearsSelection {
        selectedSubCategoryId := None;
      }
      if !isCanteenOpen {
        screen := ClosedScreen;
      } else if loading {
        screen := LoadingScreen;
      } else if error.Some? {
        screen := ErrorScreen(ErrorText(error.value));
      } else {
        screen := MenuScreen(VisibleCategories(b, l), activeCategory, view);
      }
    }
  }
}
