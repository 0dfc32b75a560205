/** The menu record served by `GET /menu`, as the views read it. Absent or
    falsy text fields (undefined, null, "") are all represented by "". */
module Menu {
  import opened Common

  datatype SubCategory = SubCategory(id: string, name: string, imageUrl: string)

  /** Prices are whole paise; `stock` is the count the admin side maintains. */
  datatype MenuItem = MenuItem(
    id: string,
    name: string,
    price: int,
    category: string,
    subCategory: Option<SubCategory>,
    stock: int,
    image: string,
    imageUrl: string)

  /** The categories of the dashboard's category bar. */
  datatype Category = Breakfast | Lunch | Snacks | Essentials | Stationery | Favorites

  /** The name shown on the bar, which is also the `category` string the
      menu records carry. */
  function Name(c: Category): string {
    match c
    case Breakfast => "Breakfast"
    case Lunch => "Lunch"
    case Snacks => "Snacks"
    case Essentials => "Essentials"
    case Stationery => "Stationery"
    case Favorites => "Favorites"
  }
}
