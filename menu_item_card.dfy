/** The dashboard's item card (src/components/MenuItemCard.jsx): stock
    gating of the add button, the sold-out overlay or stock badge, and the
    image and category fallbacks. */
module MenuItemCard {
  import opened Common
  import opened Menu
  import Dashboard

  const PlaceholderImage := "https://placehold.co/400x300/1e293b/475569?text=Image"

  /** `isOutOfStock`. */
  predicate IsOutOfStock(item: MenuItem) {
    item.stock <= 0
  }

  /** `item.image || item.imageUrl || placeholder`. */
  function ImageSource(item: MenuItem): (src: string)
    ensures src != ""
    ensures item.image != "" ==> src == item.image
    ensures item.image == "" && item.imageUrl != "" ==> src == item.imageUrl
    ensures item.image == "" && item.imageUrl == "" ==> src == PlaceholderImage
  {
    if item.image != "" then item.image
    else if item.imageUrl != "" then item.imageUrl
    else PlaceholderImage
  }

  /** `item.category || 'General'`. */
  function CategoryLabel(item: MenuItem): (text: string)
    ensures text != ""
    ensures item.category != "" ==> text == item.category
    ensures item.category == "" ==> text == "General"
  {
    if item.category != "" then item.category else "General"
  }

  /** What one card shows. */
  datatype Card = Card(
    imageSrc: string,
    dimmed: bool,
    soldOutOverlay: bool,
    stockBadge: Option<int>,
    categoryLabel: string,
    buttonDisabled: bool,
    buttonLabel: string)

  /** The card of an item: an item out of stock gets the dimmed image, the
      "Sold Out" overlay and a disabled "Out of Stock" button; an item in
      stock gets the stock badge and an enabled "Add to Cart" button. */
  function CardOf(item: MenuItem): (c: Card)
    ensures c.buttonDisabled <==> IsOutOfStock(item)
    ensures c.soldOutOverlay <==> IsOutOfStock(item)
    ensures c.dimmed <==> IsOutOfStock(item)
    ensures c.stockBadge.Some? <==> !IsOutOfStock(item)
    ensures c.stockBadge.Some? ==> c.stockBadge.value == item.stock && c.stockBadge.value > 0
    ensures c.buttonLabel == if IsOutOfStock(item) then "Out of Stock" else "Add to Cart"
    ensures c.imageSrc == ImageSource(item) && c.categoryLabel == CategoryLabel(item)
  {
    var out := item.stock <= 0;
    Card(ImageSource(item), out, out, if out then None else Some(item.stock), CategoryLabel(item), out,
         if out then "Out of Stock" else "Add to Cart")
  }

  /** A click on the card's button: `onAddToCart(item)` runs only when the
      button is enabled. */
  function Click(item: MenuItem): (added: Option<MenuItem>)
    ensures added.Some? ==> added.value == item && item.stock > 0
    ensures added.None? <==> IsOutOfStock(item)
  {
    if CardOf(item).buttonDisabled then None else Some(item)
  }

  /** The overlay and the badge are never drawn together, and one of them
      always is. */
  lemma OverlayXorBadge(item: MenuItem)
    ensures CardOf(item).soldOutOverlay != CardOf(item).stockBadge.Some?
  {
  }

  /** The card and the dashboard's own stock check agree on which items can
      be added. */
  lemma CardAgreesWithDashboard(item: MenuItem)
    ensures !CardOf(item).buttonDisabled <==> Dashboard.AddEnabled(item)
  {
  }
}
