/** The pure derivations of the dashboard (src/pages/DashboardPage.jsx):
    the category bar, the category the sync effect picks, the availability
    filter, and the layered view selection (search, Favorites, the Snacks
    subcategory drill-down, plain category filtering). */
module Dashboard {
  import opened Common
  import opened Text
  import opened Menu
  import opened ServiceHours

  const BaseCategories: seq<Category> := [Snacks, Essentials, Stationery, Favorites]

  /** The category list before de-duplication. */
  function ListedCategories(breakfast: bool, lunch: bool): seq<Category> {
    var withLunch := if lunch then [Lunch] + BaseCategories else BaseCategories;
    if breakfast then [Breakfast] + withLunch else withLunch
  }

  /** The list has no repeats, so the `Map` pass keeps it as it is. */
  lemma ListedCategoriesUnchangedByDedup(breakfast: bool, lunch: bool)
    ensures Dedup(ListedCategories(breakfast, lunch)) == ListedCategories(breakfast, lunch)
  {
    var l := ListedCategories(breakfast, lunch);
    assert Distinct(l) by {
      forall i, j | 0 <= i < j < |l| ensures l[i] != l[j] {
        if breakfast && lunch {
          assert l == [Breakfast, Lunch, Snacks, Essentials, Stationery, Favorites];
        } else if breakfast {
          assert l == [Breakfast, Snacks, Essentials, Stationery, Favorites];
        } else if lunch {
          assert l == [Lunch, Snacks, Essentials, Stationery, Favorites];
        }
      }
    }
    DedupOfDistinct(l);
  }

  /** The list spelled out: the fixed four, Lunch in front while its window
      is active, Breakfast in front of that while its window is active. */
  lemma ListedCategoriesShape(breakfast: bool, lunch: bool)
    ensures var l := ListedCategories(breakfast, lunch);
      (Breakfast in l <==> breakfast) && (Lunch in l <==> lunch)
      && Snacks in l && Essentials in l && Stationery in l && Favorites in l
      && |l| >= 4 && l[|l| - 4..] == BaseCategories
      && (breakfast ==> l[0] == Breakfast)
      && (lunch ==> |l| >= 5 && l[|l| - 5] == Lunch)
  {
    var l := ListedCategories(breakfast, lunch);
    if breakfast && lunch {
      assert l == [Breakfast, Lunch, Snacks, Essentials, Stationery, Favorites];
    } else if breakfast {
      assert l == [Breakfast, Snacks, Essentials, Stationery, Favorites];
    } else if lunch {
      assert l == [Lunch, Snacks, Essentials, Stationery, Favorites];
    } else {
      assert l == [Snacks, Essentials, Stationery, Favorites];
    }
  }

  /** `visibleCategories`, given the two window states
      `IsTimeSlotActive(hours, BreakfastSlot, now)` and
      `IsTimeSlotActive(hours, LunchSlot, now)`: the four fixed categories,
      preceded by Lunch while its window is active, preceded by Breakfast
      while its window is active, with repeats dropped. */
  function VisibleCategories(breakfastOpen: bool, lunchOpen: bool): (r: seq<Category>)
    ensures Snacks in r && Essentials in r && Stationery in r && Favorites in r
    ensures Breakfast in r <==> breakfastOpen
    ensures Lunch in r <==> lunchOpen
    ensures Distinct(r)
    ensures |r| >= 4 && r[|r| - 4..] == BaseCategories
    ensures breakfastOpen ==> r[0] == Breakfast
    ensures lunchOpen ==> |r| >= 5 && r[|r| - 5] == Lunch
  {
    ListedCategoriesUnchangedByDedup(breakfastOpen, lunchOpen);
    ListedCategoriesShape(breakfastOpen, lunchOpen);
    Dedup(ListedCategories(breakfastOpen, lunchOpen))
  }

  /** The category the sync effect settles on. */
  function SyncedCategory(breakfastOpen: bool, lunchOpen: bool): (c: Category)
    ensures c == Breakfast <==> breakfastOpen
    ensures c == Lunch <==> !breakfastOpen && lunchOpen
    ensures c == Snacks <==> !breakfastOpen && !lunchOpen
  {
    if breakfastOpen then Breakfast
    else if lunchOpen then Lunch
    else Snacks
  }

  /** The category the sync effect settles on is always on the bar. */
  lemma SyncedCategoryIsVisible(breakfastOpen: bool, lunchOpen: bool)
    ensures SyncedCategory(breakfastOpen, lunchOpen) in VisibleCategories(breakfastOpen, lunchOpen)
  {
  }

  /** With the built-in hours, at 09:30 the bar is Breakfast then the fixed
      four, and the sync effect picks Breakfast. */
  lemma DefaultHoursMorning()
    ensures var b := IsTimeSlotActive(DefaultHours, BreakfastSlot, 570);
            var l := IsTimeSlotActive(DefaultHours, LunchSlot, 570);
            VisibleCategories(b, l) == [Breakfast] + BaseCategories && SyncedCategory(b, l) == Breakfast
  {
    DefaultWindows(570);
    ListedCategoriesUnchangedByDedup(true, false);
  }

  /** The guard of the sync effect reduces to plain inequality: its second
      disjunct already implies the first. */
  lemma SyncGuardIsInequality(active: Category, synced: Category)
    ensures (active != synced || (active != Snacks && synced == Snacks)) <==> active != synced
  {
  }

  /** Categories sold whenever the canteen is open. */
  predicate AlwaysSold(category: string) {
    category == Name(Snacks) || category == Name(Stationery) || category == Name(Essentials)
  }

  /** The `availableItems` test for one item, given the two window states. */
  predicate IsAvailable(breakfastOpen: bool, lunchOpen: bool, item: MenuItem) {
    item.stock > 0
    && (AlwaysSold(item.category)
        || (item.category == Name(Breakfast) && breakfastOpen)
        || (item.category == Name(Lunch) && lunchOpen))
  }

  /** `availableItems`: an order-preserving sub-list of the menu holding
      exactly the in-stock items of an always-sold category or of a meal
      whose window is active. */
  function AvailableItems(menu: seq<MenuItem>, breakfastOpen: bool, lunchOpen: bool): (r: seq<MenuItem>)
    ensures SubsequenceOf(r, menu)
    ensures forall item :: item in r ==> item in menu && item.stock > 0
    ensures forall item :: item in r ==>
      AlwaysSold(item.category)
      || (item.category == Name(Breakfast) && breakfastOpen) || (item.category == Name(Lunch) && lunchOpen)
    ensures forall item :: item in menu && IsAvailable(breakfastOpen, lunchOpen, item) ==> item in r
  {
    Filter(menu, item => IsAvailable(breakfastOpen, lunchOpen, item))
  }

  /** Outside both meal windows only the always-sold categories remain. */
  lemma NoMealItemsOutsideWindows(menu: seq<MenuItem>)
    ensures forall item :: item in AvailableItems(menu, false, false) ==> AlwaysSold(item.category)
  {
  }

  /** The search test: the lower-cased name contains the lower-cased term
      (the term itself is not trimmed). */
  predicate MatchesSearch(term: string, item: MenuItem) {
    Contains(ToLower(item.name), ToLower(term))
  }

  function SearchResults(available: seq<MenuItem>, term: string): (r: seq<MenuItem>)
    ensures SubsequenceOf(r, available)
    ensures forall item :: item in r <==> item in available && MatchesSearch(term, item)
  {
    Filter(available, item => MatchesSearch(term, item))
  }

  /** A search for an item's own name finds it, whatever the letter case. */
  lemma SearchFindsOwnName(available: seq<MenuItem>, item: MenuItem)
    requires item in available
    ensures item in SearchResults(available, item.name)
  {
    ContainsInfix([], ToLower(item.name), []);
    assert [] + ToLower(item.name) + [] == ToLower(item.name);
  }

  /** A subcategory id counts only when present and non-empty. */
  predicate HasSubId(item: MenuItem) {
    item.subCategory.Some? && item.subCategory.value.id != ""
  }

  predicate HasId(subs: seq<SubCategory>, id: string) {
    exists s :: s in subs && s.id == id
  }

  /** No two subcategories share an id. */
  predicate DistinctIds(subs: seq<SubCategory>) {
    forall i, j :: 0 <= i < j < |subs| ==> subs[i].id != subs[j].id
  }

  /** The values of `subMap` in insertion order: one subcategory per id, the
      record of the first item that carries that id. */
  function FirstSubCategories(items: seq<MenuItem>): (r: seq<SubCategory>)
    ensures DistinctIds(r)
    ensures forall s :: s in r ==> s.id != "" && exists k :: 0 <= k < |items| && items[k].subCategory == Some(s)
  {
    if items == [] then []
    else
      var init := items[..|items| - 1];
      var last := items[|items| - 1];
      var prev := FirstSubCategories(init);
      assert forall k :: 0 <= k < |init| ==> items[k] == init[k];
      if HasSubId(last) && !HasId(prev, last.subCategory.value.id) then
        prev + [last.subCategory.value]
      else
        prev
  }

  /** An item's id is first among `items[..k+1]` when no earlier item carries it. */
  predicate FirstWithId(items: seq<MenuItem>, k: int)
    requires 0 <= k < |items|
  {
    HasSubId(items[k])
    && forall j :: 0 <= j < k ==> !HasSubId(items[j]) || items[j].subCategory.value.id != items[k].subCategory.value.id
  }

  /** Every id some item carries is collected. */
  lemma {:induction false} FirstSubCategoriesCovers(items: seq<MenuItem>)
    ensures forall item :: item in items && HasSubId(item) ==> HasId(FirstSubCategories(items), item.subCategory.value.id)
  {
    if items != [] {
      var init := items[..|items| - 1];
      var last := items[|items| - 1];
      FirstSubCategoriesCovers(init);
      var prev := FirstSubCategories(init);
      var r := FirstSubCategories(items);
      assert forall s :: s in prev ==> s in r;
      assert items == init + [last];
      forall item | item in items && HasSubId(item) ensures HasId(r, item.subCategory.value.id) {
        var id := item.subCategory.value.id;
        if HasId(prev, id) {
          var s :| s in prev && s.id == id;
          assert s in r;
        } else {
          assert item == last;
          assert last.subCategory.value in r;
        }
      }
    }
  }

  /** The record kept for an id is that of the first item carrying it. */
  lemma {:induction false} FirstSubCategoriesKeepsFirst(items: seq<MenuItem>)
    ensures forall k :: 0 <= k < |items| && FirstWithId(items, k) ==> items[k].subCategory.value in FirstSubCategories(items)
  {
    if items != [] {
      var init := items[..|items| - 1];
      var last := items[|items| - 1];
      FirstSubCategoriesKeepsFirst(init);
      var prev := FirstSubCategories(init);
      var r := FirstSubCategories(items);
      assert forall s :: s in prev ==> s in r;
      forall k | 0 <= k < |items| && FirstWithId(items, k)
        ensures items[k].subCategory.value in r
      {
        if k < |init| {
          assert forall j :: 0 <= j <= k ==> items[j] == init[j];
          assert FirstWithId(init, k);
        } else {
          var id := last.subCategory.value.id;
          forall s | s in prev ensures s.id != id {
            var j :| 0 <= j < |init| && init[j].subCategory == Some(s);
            assert items[j] == init[j];
          }
          assert !HasId(prev, id);
        }
      }
    }
  }

  /** Code-point order on names, standing in for `localeCompare`. */
  predicate NameLe(a: string, b: string) {
    if a == [] then true
    else if b == [] then false
    else if a[0] != b[0] then a[0] < b[0]
    else NameLe(a[1..], b[1..])
  }

  lemma {:induction false} NameLeTotal(a: string, b: string)
    ensures NameLe(a, b) || NameLe(b, a)
  {
    if a != [] && b != [] && a[0] == b[0] {
      NameLeTotal(a[1..], b[1..]);
    }
  }

  predicate SortedByName(s: seq<SubCategory>) {
    forall i :: 0 <= i < |s| - 1 ==> NameLe(s[i].name, s[i + 1].name)
  }

  /** Inserts `x` after every element whose name is not greater, so equal
      names keep their order (JavaScript's sort is stable). */
  function InsertByName(x: SubCategory, s: seq<SubCategory>): (r: seq<SubCategory>)
    requires SortedByName(s)
    ensures SortedByName(r)
    ensures multiset(r) == multiset(s) + multiset{x}
    ensures r[0] == x || (s != [] && r[0] == s[0])
  {
    if s == [] then [x]
    else if !NameLe(s[0].name, x.name) then
      NameLeTotal(s[0].name, x.name);
      [x] + s
    else
      SortedTail(s);
      var tail := InsertByName(x, s[1..]);
      var r := [s[0]] + tail;
      assert SortedByName(r) by {
        forall i | 0 <= i < |r| - 1 ensures NameLe(r[i].name, r[i + 1].name) {
          if i > 0 {
            assert r[i] == tail[i - 1] && r[i + 1] == tail[i];
          }
        }
      }
      assert multiset(r) == multiset(s) + multiset{x} by {
        assert s == [s[0]] + s[1..];
      }
      r
  }

  lemma MultisetMembers(a: seq<SubCategory>, b: seq<SubCategory>)
    requires multiset(a) == multiset(b)
    ensures forall t :: t in a <==> t in b
  {
    forall t ensures t in a <==> t in b {
      assert t in a <==> t in multiset(a);
      assert t in b <==> t in multiset(b);
    }
  }

  /** Inserting adds exactly the inserted entry's id to the ids present. */
  lemma HasIdAfterInsert(x: SubCategory, s: seq<SubCategory>, id: string)
    requires SortedByName(s)
    ensures HasId(InsertByName(x, s), id) <==> HasId(s, id) || x.id == id
  {
    var r := InsertByName(x, s);
    MultisetMembers(r, s + [x]);
    if HasId(r, id) {
      var t :| t in r && t.id == id;
      assert t in s + [x];
    }
    if HasId(s, id) {
      var t :| t in s && t.id == id;
      assert t in s + [x];
    }
    if x.id == id {
      assert x in s + [x];
    }
  }

  /** The tail of a list with distinct ids has distinct ids and lacks the
      head's id. */
  lemma DistinctIdsTail(s: seq<SubCategory>)
    requires s != [] && DistinctIds(s)
    ensures DistinctIds(s[1..]) && !HasId(s[1..], s[0].id)
  {
    var rest := s[1..];
    forall i, j | 0 <= i < j < |rest| ensures rest[i].id != rest[j].id {
      assert rest[i] == s[i + 1] && rest[j] == s[j + 1];
    }
  }

  /** Inserting a subcategory with a fresh id keeps the ids distinct. */
  lemma {:induction false} InsertByNameKeepsDistinctIds(x: SubCategory, s: seq<SubCategory>)
    requires SortedByName(s)
    ensures DistinctIds(s) && !HasId(s, x.id) ==> DistinctIds(InsertByName(x, s))
  {
    if s != [] && DistinctIds(s) && !HasId(s, x.id) {
      if !NameLe(s[0].name, x.name) {
        ConsKeepsDistinctIds(x, s);
      } else {
        var rest := s[1..];
        SortedTail(s);
        DistinctIdsTail(s);
        InsertByNameKeepsDistinctIds(x, rest);
        HasIdAfterInsert(x, rest, s[0].id);
        assert s[0] in s;
        ConsKeepsDistinctIds(s[0], InsertByName(x, rest));
      }
    }
  }

  /** The tail of a sorted list is sorted. */
  lemma SortedTail(s: seq<SubCategory>)
    requires s != [] && SortedByName(s)
    ensures SortedByName(s[1..])
  {
    forall i | 0 <= i < |s[1..]| - 1 ensures NameLe(s[1..][i].name, s[1..][i + 1].name) {
      assert s[1..][i] == s[i + 1] && s[1..][i + 1] == s[i + 2];
    }
  }

  lemma ConsKeepsDistinctIds(x: SubCategory, s: seq<SubCategory>)
    ensures DistinctIds(s) && !HasId(s, x.id) ==> DistinctIds([x] + s)
  {
    var r := [x] + s;
    forall i, j | 0 <= i < j < |r| && DistinctIds(s) && !HasId(s, x.id) ensures r[i].id != r[j].id {
      assert r[j] == s[j - 1];
      if i > 0 {
        assert r[i] == s[i - 1];
      }
    }
  }

  /** `availableSubCategories`: the subcategories sorted by name. */
  function SortByName(s: seq<SubCategory>): (r: seq<SubCategory>)
    ensures SortedByName(r)
    ensures multiset(r) == multiset(s)
    ensures DistinctIds(s) ==> DistinctIds(r)
  {
    if s == [] then []
    else
      var init := s[..|s| - 1];
      var last := s[|s| - 1];
      assert s == init + [last];
      var sorted := SortByName(init);
      assert DistinctIds(s) ==> DistinctIds(init) && !HasId(init, last.id) by {
        assert forall i :: 0 <= i < |init| ==> init[i] == s[i];
      }
      MultisetMembers(sorted, init);
      InsertByNameKeepsDistinctIds(last, sorted);
      InsertByName(last, sorted)
  }

  /** The subcategory cards of the Snacks view: one per id, sorted by name. */
  function SnackSubCategories(snackItems: seq<MenuItem>): (r: seq<SubCategory>)
    ensures SortedByName(r)
    ensures DistinctIds(r)
    ensures forall s :: s in r <==> s in FirstSubCategories(snackItems)
  {
    var r := SortByName(FirstSubCategories(snackItems));
    MultisetMembers(r, FirstSubCategories(snackItems));
    r
  }

  /** `selectedSubCategoryId` as a condition: null and "" are falsy. */
  predicate Selected(sel: Option<string>) {
    sel.Some? && sel.value != ""
  }

  datatype PageTitle =
    | Searching(term: string)
    | CategoryTitle(name: string)
    | SlotClosedTitle(category: Category, start: string, end: string)

  /** What the page body shows: a grid of items (and whether the render asks
      to clear the subcategory selection), or the Snacks subcategory cards. */
  datatype View =
    | ItemGrid(title: PageTitle, items: seq<MenuItem>, clearsSelection: bool)
    | SubCategoryGrid(subCategories: seq<SubCategory>)

  predicate InSubCategory(id: string, item: MenuItem) {
    item.subCategory.Some? && item.subCategory.value.id == id
  }

  function FindSubCategory(subs: seq<SubCategory>, id: string): (r: Option<SubCategory>)
    ensures r.Some? ==> r.value in subs && r.value.id == id
    ensures r.None? ==> !HasId(subs, id)
  {
    if subs == [] then None
    else if subs[0].id == id then Some(subs[0])
    else
      var r := FindSubCategory(subs[1..], id);
      assert forall s :: s in subs ==> s == subs[0] || s in subs[1..];
      r
  }

  /** The service window a meal category is sold in (Snacks and the rest
      have none; Lunch's is returned for them but never consulted). */
  function SlotOf(category: Category): Slot {
    if category == Breakfast then BreakfastSlot else LunchSlot
  }

  /** The heading of a plain category: a meal outside its window names the
      window's boundaries. */
  function CategoryTitleFor(category: Category, hours: Hours, breakfastOpen: bool, lunchOpen: bool): (t: PageTitle)
    ensures t.SlotClosedTitle? <==> (category == Breakfast && !breakfastOpen) || (category == Lunch && !lunchOpen)
    ensures t.SlotClosedTitle? ==> t.category == category && t.start == StartOf(hours, SlotOf(category))
                                   && t.end == EndOf(hours, SlotOf(category))
    ensures t.CategoryTitle? ==> t.name == Name(category)
  {
    if category == Breakfast && !breakfastOpen then
      SlotClosedTitle(Breakfast, hours.breakfastStart, hours.breakfastEnd)
    else if category == Lunch && !lunchOpen then
      SlotClosedTitle(Lunch, hours.lunchStart, hours.lunchEnd)
    else CategoryTitle(Name(category))
  }

  function FavoriteItems(available: seq<MenuItem>, favorites: seq<string>): (r: seq<MenuItem>)
    ensures SubsequenceOf(r, available)
    ensures forall item :: item in r <==> item in available && item.id in favorites
  {
    Filter(available, (item: MenuItem) => item.id in favorites)
  }

  function CategoryItems(available: seq<MenuItem>, category: string): (r: seq<MenuItem>)
    ensures SubsequenceOf(r, available)
    ensures forall item :: item in r <==> item in available && item.category == category
  {
    Filter(available, (item: MenuItem) => item.category == category)
  }

  /** The Snacks branch: with no subcategory chosen, the sorted subcategory
      cards; with one chosen, the snacks of that subcategory under its name. */
  function SnacksView(available: seq<MenuItem>, selected: Option<string>): (v: View)
    ensures !Selected(selected) ==>
      v.SubCategoryGrid? && SortedByName(v.subCategories) && DistinctIds(v.subCategories)
      && forall item :: item in available && item.category == Name(Snacks) && HasSubId(item) ==>
           HasId(v.subCategories, item.subCategory.value.id)
    ensures !Selected(selected) ==> v == SubCategoryGrid(SnackSubCategories(CategoryItems(available, Name(Snacks))))
    ensures Selected(selected) ==>
      v.ItemGrid? && !v.clearsSelection
      && SubsequenceOf(v.items, CategoryItems(available, Name(Snacks)))
      && forall item :: item in v.items <==>
           item in available && item.category == Name(Snacks) && InSubCategory(selected.value, item)
    ensures Selected(selected) ==>
      var found := FindSubCategory(SnackSubCategories(CategoryItems(available, Name(Snacks))), selected.value);
      (found.Some? ==> v.title == CategoryTitle(found.value.name))
      && (found.None? ==> v.title == CategoryTitle(Name(Snacks)))
  {
    var snackItems := CategoryItems(available, Name(Snacks));
    var subs := SnackSubCategories(snackItems);
    if Selected(selected) then
      var id := selected.value;
      var title := match FindSubCategory(subs, id)
                   case Some(s) => s.name
                   case None => Name(Snacks);
      ItemGrid(CategoryTitle(title), Filter(snackItems, (item: MenuItem) => InSubCategory(id, item)), false)
    else
      FirstSubCategoriesCovers(snackItems);
      SubCategoryGrid(subs)
  }

  /** The view selection of lines 412-451: a non-blank search wins over the
      category; Favorites, the Snacks drill-down and the other categories
      each filter the available items. */
  function SelectView(available: seq<MenuItem>, searchTerm: string, activeCategory: Category,
                      selected: Option<string>, favorites: seq<string>,
                      hours: Hours, breakfastOpen: bool, lunchOpen: bool): (v: View)
    ensures Trim(searchTerm) != "" ==>
      v.ItemGrid? && v.clearsSelection == Selected(selected) && v.title == Searching(searchTerm)
      && SubsequenceOf(v.items, available)
      && forall item :: item in v.items <==> item in available && MatchesSearch(searchTerm, item)
    ensures Trim(searchTerm) == "" && activeCategory == Favorites ==>
      v.ItemGrid? && v.clearsSelection == Selected(selected)
      && SubsequenceOf(v.items, available)
      && forall item :: item in v.items <==> item in available && item.id in favorites
    ensures Trim(searchTerm) == "" && activeCategory == Snacks ==> v == SnacksView(available, selected)
    ensures Trim(searchTerm) == "" && activeCategory != Favorites && activeCategory != Snacks ==>
      v.ItemGrid? && v.clearsSelection == Selected(selected)
      && SubsequenceOf(v.items, available)
      && forall item :: item in v.items <==> item in available && item.category == Name(activeCategory)
  {
    if Trim(searchTerm) != "" then
      ItemGrid(Searching(searchTerm), SearchResults(available, searchTerm), Selected(selected))
    else if activeCategory == Favorites then
      ItemGrid(CategoryTitle(Name(Favorites)), FavoriteItems(available, favorites), Selected(selected))
    else if activeCategory == Snacks then
      SnacksView(available, selected)
    else
      ItemGrid(CategoryTitleFor(activeCategory, hours, breakfastOpen, lunchOpen),
               CategoryItems(available, Name(activeCategory)), Selected(selected))
  }

  /** Whatever the view, every item it shows is one of the available items,
      hence in stock. */
  lemma ShownItemsAreAvailable(menu: seq<MenuItem>, searchTerm: string, activeCategory: Category,
                               selected: Option<string>, favorites: seq<string>,
                               hours: Hours, breakfastOpen: bool, lunchOpen: bool, item: MenuItem)
    requires var v := SelectView(AvailableItems(menu, breakfastOpen, lunchOpen), searchTerm, activeCategory,
                                 selected, favorites, hours, breakfastOpen, lunchOpen);
             v.ItemGrid? && item in v.items
    ensures item in menu && item.stock > 0
  {
    var available := AvailableItems(menu, breakfastOpen, lunchOpen);
    var v := SelectView(available, searchTerm, activeCategory, selected, favorites, hours, breakfastOpen, lunchOpen);
    if Trim(searchTerm) != "" {
      assert item in available && MatchesSearch(searchTerm, item);
    } else if activeCategory == Favorites {
      assert item in available && item.id in favorites;
    } else if activeCategory == Snacks {
      assert Selected(selected);
      assert item in available && item.category == Name(Snacks);
    } else {
      assert item in available && item.category == Name(activeCategory);
    }
  }

  /** Stock badge colour on the dashboard's item card. */
  datatype BadgeColor = Red | Yellow | Green

  function StockBadgeColor(stock: int): (c: BadgeColor)
    ensures c == Red <==> stock <= 10
    ensures c == Yellow <==> 10 < stock <= 25
    ensures c == Green <==> stock > 25
  {
    if stock <= 0 then Red
    else if stock <= 10 then Red
    else if stock <= 25 then Yellow
    else Green
  }

  /** The stock badge of the dashboard's item card: drawn only for an item
      in stock, red up to 10, yellow up to 25, green above. */
  function StockBadge(item: MenuItem): (b: Option<BadgeColor>)
    ensures b.None? <==> item.stock <= 0
    ensures b.Some? ==> (b.value == Red <==> item.stock <= 10) && (b.value == Green <==> item.stock > 25)
  {
    if item.stock <= 0 then None else Some(StockBadgeColor(item.stock))
  }

  /** Whether the dashboard card's add button is enabled (and its stock
      badge drawn): exactly when the item is in stock. */
  predicate AddEnabled(item: MenuItem) {
    !(item.stock <= 0)
  }

  /** Every card the dashboard draws from the available items can be added
      to the cart. */
  lemma AvailableItemsAreAddable(menu: seq<MenuItem>, breakfastOpen: bool, lunchOpen: bool, item: MenuItem)
    requires item in AvailableItems(menu, breakfastOpen, lunchOpen)
    ensures AddEnabled(item)
  {
  }

  /** `toggleFavorite`'s optimistic list: remove the id when present,
      otherwise append it. */
  function ToggledFavorites(favorites: seq<string>, id: string): (r: seq<string>)
    ensures id in r <==> id !in favorites
    ensures forall x :: x != id ==> (x in r <==> x in favorites)
    ensures id !in favorites ==> r == favorites + [id]
    ensures id in favorites ==> r == Filter(favorites, (x: string) => x != id)
  {
    if id in favorites then Filter(favorites, (x: string) => x != id) else favorites + [id]
  }

  /** Toggling an id that is not a favorite twice restores the list. */
  lemma ToggleTwiceRestores(favorites: seq<string>, id: string)
    requires id !in favorites
    ensures ToggledFavorites(ToggledFavorites(favorites, id), id) == favorites
  {
    var added := favorites + [id];
    FilterAppend(favorites, [id], (x: string) => x != id);
    FilterAll(favorites, (x: string) => x != id);
    assert Filter([id], (x: string) => x != id) == [];
  }
}
