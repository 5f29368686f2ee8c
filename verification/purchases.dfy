/** The raw `purchases` array of the upstream purchases response, and the
    validating filter that decides which entries reach the display. */
module Purchases {
  import opened Js
  import opened Wrappers

  /** One element of a purchase's `products` array. A primitive element reads
      as a product whose four fields are all `Undefined`. */
  datatype RawProduct = RawProduct(name: Scalar, quantity: Scalar, variantName: Scalar, comment: Scalar)

  /** `purchase.products`: an array whose elements may be `null`/`undefined`
      (`None`), or anything that is not an array. */
  datatype ProductsField = NotAnArray | Products(entries: seq<Option<RawProduct>>)

  /** One purchase object. `timestamp` is the instant its string parses to. */
  datatype RawPurchase = RawPurchase(
    purchaseUUID: Scalar,
    purchaseNumber: Scalar,
    timestamp: int,
    products: ProductsField)

  /** An element of the `purchases` array: `None` stands for `null`,
      `undefined` and every primitive, none of which carries fields. */
  type Entry = Option<RawPurchase>

  /** The `purchases` field destructured from the response body: any falsy
      value (absent, `null`, `0`, `""`, ...), a truthy value that is not an
      array, or an array. */
  datatype PurchasesField = Falsy | NotAList | Purchases(entries: seq<Entry>)

  /** What a purchase needs in order to be shown: a truthy id and a non-empty
      products array. */
  predicate Valid(p: RawPurchase) {
    && Truthy(p.purchaseUUID)
    && p.products.Products?
    && |p.products.entries| > 0
  }

  /** The filter callback: the entry is an object and a valid purchase. */
  predicate Accepts(e: Entry) {
    e.Some? && Valid(e.value)
  }

  /** `purchases.filter(...)`: the valid purchases, in their original order. */
  function Keep(entries: seq<Entry>): (kept: seq<RawPurchase>)
    ensures |kept| <= |entries|
    ensures forall p :: p in kept <==> Some(p) in entries && Valid(p)
  {
    if |entries| == 0 then []
    else if Accepts(entries[0]) then [entries[0].value] + Keep(entries[1..])
    else Keep(entries[1..])
  }

  /** The ids of a list of purchases, in order. */
  function Uuids(ps: seq<RawPurchase>): (ids: seq<Scalar>)
    ensures |ids| == |ps|
    ensures forall i :: 0 <= i < |ps| ==> ids[i] == ps[i].purchaseUUID
  {
    if |ps| == 0 then [] else [ps[0].purchaseUUID] + Uuids(ps[1..])
  }

  /** The filter drops entries without inventing or repeating any: each valid
      purchase is kept exactly as often as it occurs, every other entry never. */
  lemma {:induction false} KeepCounts(entries: seq<Entry>, p: RawPurchase)
    ensures multiset(Keep(entries))[p] == if Valid(p) then multiset(entries)[Some(p)] else 0
  {
    if |entries| > 0 {
      KeepCounts(entries[1..], p);
      assert entries == [entries[0]] + entries[1..];
    }
  }

  /** The filter keeps the order of what it keeps: filtering a concatenation
      filters each part in place, so an entry earlier in the input is never
      kept after one later in the input. */
  lemma {:induction false} KeepAppend(front: seq<Entry>, back: seq<Entry>)
    ensures Keep(front + back) == Keep(front) + Keep(back)
  {
    if |front| > 0 {
      assert (front + back)[1..] == front[1..] + back;
      KeepAppend(front[1..], back);
    } else {
      assert front + back == back;
    }
  }
}
