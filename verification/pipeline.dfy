/** `(purchases || []).filter(...).map(...).sort(...)`: the whole path from
    the upstream `purchases` field to the list the barista display shows. */
module Pipeline {
  import opened Js
  import opened Wrappers
  import opened Errors
  import opened Purchases
  import opened Orders
  import opened Recency

  /** The display list for a `purchases` field. A falsy field reads as an
      empty array; a truthy non-array has no `.filter` and throws; otherwise
      invalid entries are dropped, the rest formatted, and the result put
      most recent first. The one failure left after validation is a product
      element that is `null` or `undefined`. */
  function FormatPurchases(field: PurchasesField): (r: Result<seq<Order>, Failure>)
    ensures field.Falsy? ==> r == Ok([])
    ensures field.NotAList? ==> r == Err(PurchasesNotAList)
    ensures field.Purchases? ==>
      (r.Ok? <==> forall p :: Some(p) in field.entries && Valid(p) ==> ProductsReadable(p))
    ensures field.Purchases? && r.Err? ==> r.error == NullProduct
    ensures r.Ok? ==> Recent(r.value)
    ensures r.Ok? ==> forall o :: o in r.value ==> Displayable(o)
  {
    match field
    case Falsy => Ok([])
    case NotAList => Err(PurchasesNotAList)
    case Purchases(entries) =>
      var kept := Keep(entries);
      match FormatAll(kept)
      case None => Err(NullProduct)
      case Some(os) =>
        var sorted := SortByRecency(os);
        assert forall o :: o in sorted ==> o in multiset(os);
        Ok(sorted)
  }

  /** The orders in input order, before sorting: one per kept purchase. */
  function Formatted(entries: seq<Entry>): Option<seq<Order>> {
    FormatAll(Keep(entries))
  }

  /** No order is invented or duplicated: there are as many orders as kept
      purchases, never more than entries, and the ids shown are exactly the
      kept purchases' ids, each as often as it occurs. */
  lemma FormatPurchasesCounts(entries: seq<Entry>)
    requires FormatPurchases(Purchases(entries)).Ok?
    ensures |FormatPurchases(Purchases(entries)).value| == |Keep(entries)| <= |entries|
    ensures multiset(Ids(FormatPurchases(Purchases(entries)).value)) == multiset(Uuids(Keep(entries)))
  {
    var os := Formatted(entries).value;
    SortByRecencyKeepsIds(os);
    assert Ids(os) == Uuids(Keep(entries));
  }

  /** Every valid entry is shown: its formatted order is in the list. */
  lemma FormatPurchasesShowsValid(entries: seq<Entry>, p: RawPurchase)
    requires FormatPurchases(Purchases(entries)).Ok?
    requires Some(p) in entries && Valid(p)
    ensures FormatOrder(p).Some? && FormatOrder(p).value in FormatPurchases(Purchases(entries)).value
  {
    var kept := Keep(entries);
    var os := Formatted(entries).value;
    var r := SortByRecency(os);
    assert p in kept;
    var i :| 0 <= i < |kept| && kept[i] == p;
    assert Some(os[i]) == FormatOrder(p);
    assert os[i] in multiset(os);
    assert os[i] in multiset(r);
  }

  /** Nothing else is shown: every listed order is the formatted form of a
      valid entry. With the lemma above, a purchase is shown if and only if
      it is valid. */
  lemma FormatPurchasesInventsNothing(entries: seq<Entry>, o: Order)
    requires FormatPurchases(Purchases(entries)).Ok?
    requires o in FormatPurchases(Purchases(entries)).value
    ensures exists p :: Some(p) in entries && Valid(p) && FormatOrder(p) == Some(o)
  {
    var kept := Keep(entries);
    var os := Formatted(entries).value;
    var r := SortByRecency(os);
    assert o in multiset(r);
    assert o in multiset(os);
    var i :| 0 <= i < |os| && os[i] == o;
    assert kept[i] in kept;
    assert FormatOrder(kept[i]) == Some(o);
  }

  /** The list is a stable most-recent-first rearrangement of the formatted
      orders: same orders, same multiplicities, timestamps non-increasing,
      and orders sharing a timestamp in the order their purchases came. */
  lemma FormatPurchasesSortedPermutation(entries: seq<Entry>)
    requires FormatPurchases(Purchases(entries)).Ok?
    ensures Formatted(entries).Some?
    ensures multiset(FormatPurchases(Purchases(entries)).value) == multiset(Formatted(entries).value)
    ensures Recent(FormatPurchases(Purchases(entries)).value)
    ensures forall t :: At(FormatPurchases(Purchases(entries)).value, t) == At(Formatted(entries).value, t)
  {
    forall t
      ensures At(FormatPurchases(Purchases(entries)).value, t) == At(Formatted(entries).value, t)
    {
      SortByRecencyStable(Formatted(entries).value, t);
    }
  }

  /** The list is the only possible answer: any most-recent-first list that
      keeps the formatted orders' relative order per timestamp is it. */
  lemma FormatPurchasesDetermined(entries: seq<Entry>, other: seq<Order>)
    requires FormatPurchases(Purchases(entries)).Ok?
    requires Recent(other)
    requires forall t :: At(other, t) == At(Formatted(entries).value, t)
    ensures other == FormatPurchases(Purchases(entries)).value
  {
    FormatPurchasesSortedPermutation(entries);
    StableRecentUnique(other, FormatPurchases(Purchases(entries)).value);
  }
}
