/** The barista-display shape of an order, and the `.map` step that turns a
    validated purchase into it, filling defaults for missing fields. */
module Orders {
  import opened Js
  import opened Wrappers
  import opened Purchases

  /** One display line: what to make, how many, and the notes on it. */
  datatype Item = Item(name: Scalar, quantity: Scalar, variant: Scalar, comment: Scalar)

  /** One display order. Every order leaves the pipeline not completed. */
  datatype Order = Order(
    id: Scalar,
    orderNumber: Scalar,
    timestamp: int,
    items: seq<Item>,
    completed: bool)

  const UnknownItem := Str("Unknown Item")
  const UnknownNumber := Str("Unknown")
  const DefaultQuantity := Num(1)
  const NoText := Str("")

  /** A product as a display line: each field is the product's own when truthy
      and a default otherwise. */
  function FormatItem(p: RawProduct): Item {
    Item(Or(p.name, UnknownItem), Or(p.quantity, DefaultQuantity), Or(p.variantName, NoText), Or(p.comment, NoText))
  }

  /** The product a display line would have come from if nothing were defaulted. */
  function ToProduct(item: Item): RawProduct {
    RawProduct(item.name, item.quantity, item.variant, item.comment)
  }

  /** What a barista can always rely on in a listed order: an id, a number to
      call out, at least one line, a name and a non-zero quantity on every
      line, and nothing marked done yet. */
  ghost predicate Displayable(o: Order) {
    && Truthy(o.id)
    && Truthy(o.orderNumber)
    && |o.items| > 0
    && (forall k :: 0 <= k < |o.items| ==> Truthy(o.items[k].name) && Truthy(o.items[k].quantity))
    && !o.completed
  }

  /** Field by field, a display line keeps what the product states and
      replaces only falsy fields: a nameless product is an "Unknown Item", a
      missing or zero quantity is 1, and missing notes are empty strings. */
  lemma FormatItemDefaults(p: RawProduct)
    ensures Truthy(FormatItem(p).name) && Truthy(FormatItem(p).quantity)
    ensures FormatItem(p).name == p.name <==> Truthy(p.name)
    ensures FormatItem(p).name != p.name ==> FormatItem(p).name == Str("Unknown Item")
    ensures FormatItem(p).quantity == p.quantity <==> Truthy(p.quantity)
    ensures FormatItem(p).quantity != p.quantity ==> FormatItem(p).quantity == Num(1)
    ensures p.quantity == Num(0) ==> FormatItem(p).quantity == Num(1)
    ensures Truthy(p.variantName) ==> FormatItem(p).variant == p.variantName
    ensures !Truthy(p.variantName) ==> FormatItem(p).variant == Str("")
    ensures Truthy(p.comment) ==> FormatItem(p).comment == p.comment
    ensures !Truthy(p.comment) ==> FormatItem(p).comment == Str("")
  {}

  /** Defaulting is idempotent: formatting an already formatted line again
      changes nothing. */
  lemma FormatItemIdempotent(p: RawProduct)
    ensures FormatItem(ToProduct(FormatItem(p))) == FormatItem(p)
  {}

  /** Nothing is lost when nothing is missing: a product whose four fields are
      all truthy is recovered exactly from its display line. */
  lemma FormatItemLossless(p: RawProduct)
    requires Truthy(p.name) && Truthy(p.quantity) && Truthy(p.variantName) && Truthy(p.comment)
    ensures ToProduct(FormatItem(p)) == p
  {}

  /** `products.map(...)`: one line per product, in product order. It fails
      as soon as an element is `null` or `undefined`, whose `name` cannot be
      read. */
  function FormatItems(entries: seq<Option<RawProduct>>): (items: Option<seq<Item>>)
    ensures items.Some? <==> forall k :: 0 <= k < |entries| ==> entries[k].Some?
    ensures items.Some? ==> |items.value| == |entries|
    ensures items.Some? ==> forall k :: 0 <= k < |entries| ==> items.value[k] == FormatItem(entries[k].value)
  {
    if |entries| == 0 then Some([])
    else if entries[0].None? then None
    else
      match FormatItems(entries[1..])
      case None => None
      case Some(rest) => Some([FormatItem(entries[0].value)] + rest)
  }

  /** A purchase has no `null`/`undefined` product element. */
  predicate ProductsReadable(p: RawPurchase)
    requires p.products.Products?
  {
    forall k :: 0 <= k < |p.products.entries| ==> p.products.entries[k].Some?
  }

  /** The `.map` callback: a purchase as a display order. The id and timestamp
      are the purchase's own, the number is `purchaseNumber` unless falsy, the
      lines follow the products one for one, and the order starts not
      completed. */
  function FormatOrder(p: RawPurchase): (o: Option<Order>)
    requires p.products.Products?
    ensures o.Some? <==> ProductsReadable(p)
    ensures o.Some? ==> o.value.id == p.purchaseUUID && o.value.timestamp == p.timestamp
    ensures o.Some? ==> (o.value.orderNumber == p.purchaseNumber <==> Truthy(p.purchaseNumber))
    ensures o.Some? && !Truthy(p.purchaseNumber) ==> o.value.orderNumber == Str("Unknown")
    ensures o.Some? ==> |o.value.items| == |p.products.entries|
    ensures o.Some? ==> forall k :: 0 <= k < |p.products.entries| ==> o.value.items[k] == FormatItem(p.products.entries[k].value)
    ensures o.Some? ==> !o.value.completed
    ensures o.Some? && Valid(p) ==> Displayable(o.value)
  {
    match FormatItems(p.products.entries)
    case None => None
    case Some(items) =>
      Some(Order(p.purchaseUUID, Or(p.purchaseNumber, UnknownNumber), p.timestamp, items, false))
  }

  /** The `.map` over the kept purchases: one order per purchase, in purchase
      order, or failure when any purchase has an unreadable product. */
  function FormatAll(ps: seq<RawPurchase>): (os: Option<seq<Order>>)
    requires forall p :: p in ps ==> p.products.Products?
    ensures os.Some? <==> forall i :: 0 <= i < |ps| ==> ProductsReadable(ps[i])
    ensures os.Some? ==> |os.value| == |ps|
    ensures os.Some? ==> forall i :: 0 <= i < |ps| ==> Some(os.value[i]) == FormatOrder(ps[i])
  {
    if |ps| == 0 then Some([])
    else
      match FormatOrder(ps[0])
      case None => None
      case Some(o) =>
        match FormatAll(ps[1..])
        case None => None
        case Some(rest) => Some([o] + rest)
  }

  /** The ids of a list of orders, in order. */
  function Ids(os: seq<Order>): (ids: seq<Scalar>)
    ensures |ids| == |os|
    ensures forall i :: 0 <= i < |os| ==> ids[i] == os[i].id
  {
    if |os| == 0 then [] else [os[0].id] + Ids(os[1..])
  }
}
