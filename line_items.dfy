/** The line-item manager: finding the line item for a variant (`contains?`)
    and adding a variant to the order (`add_variant`). */
module LineItems {
  import opened Wrappers
  import opened OrderTypes
  import Money

  /** The position of the FIRST line item for variant `id` (`select { … }.first`), if any. */
  function FirstWithVariant(items: seq<LineItem>, id: VariantId): (r: Option<nat>)
    ensures r.Some? ==> r.value < |items| && items[r.value].variantId == id
    ensures r.Some? ==> forall j :: 0 <= j < r.value ==> items[j].variantId != id
    ensures r.None? <==> forall j :: 0 <= j < |items| ==> items[j].variantId != id
  {
    if |items| == 0 then None
    else if items[0].variantId == id then Some(0)
    else
      match FirstWithVariant(items[1..], id)
      case None => None
      case Some(k) => Some(k + 1)
  }

  predicate HasVariant(items: seq<LineItem>, id: VariantId)
  {
    exists i :: 0 <= i < |items| && items[i].variantId == id
  }

  /** No two line items are for the same variant. */
  predicate DistinctVariants(items: seq<LineItem>)
  {
    forall i, j :: 0 <= i < j < |items| ==> items[i].variantId != items[j].variantId
  }

  /** How much `add_variant` adds to an existing line item: `increment_quantity`
      (one) unless `quantity > 1`, and then `quantity` itself. */
  function Increment(quantity: int): (d: int)
    ensures d >= 1
    ensures quantity <= 1 ==> d == 1
    ensures quantity > 1 ==> d == quantity
  {
    if quantity > 1 then quantity else 1
  }

  /** The line items after `add_variant(variant, quantity)`: the first item for
      the variant grows, or a new item with the variant's current price is appended. */
  function WithVariant(items: seq<LineItem>, variant: Variant, quantity: int): (r: seq<LineItem>)
    ensures |items| <= |r| <= |items| + 1
    ensures |r| == |items| + 1 <==> !HasVariant(items, variant.id)
    ensures forall id :: HasVariant(r, id) <==> HasVariant(items, id) || id == variant.id
  {
    match FirstWithVariant(items, variant.id)
    case Some(i) =>
      var item := items[i];
      var r := items[i := item.(quantity := item.quantity + Increment(quantity))];
      assert forall j :: 0 <= j < |items| ==> r[j].variantId == items[j].variantId;
      r
    case None =>
      var r := items + [LineItem(variant.id, quantity, variant.price)];
      assert r[|items|].variantId == variant.id;
      assert forall j :: 0 <= j < |items| ==> r[j] == items[j];
      r
  }

  /** An existing line item for the variant has its quantity raised by
      `Increment(quantity)`, keeping its price; no other line item changes. */
  lemma AddVariantMergesExisting(items: seq<LineItem>, variant: Variant, quantity: int)
    requires HasVariant(items, variant.id)
    ensures var i := FirstWithVariant(items, variant.id).value;
            var r := WithVariant(items, variant, quantity);
            && |r| == |items|
            && r[i] == items[i].(quantity := items[i].quantity + Increment(quantity))
            && forall j :: 0 <= j < |items| && j != i ==> r[j] == items[j]
  {
  }

  /** Without a line item for the variant, exactly one new one is appended with
      the requested quantity and the variant's current price. */
  lemma AddVariantAppendsNew(items: seq<LineItem>, variant: Variant, quantity: int)
    requires !HasVariant(items, variant.id)
    ensures WithVariant(items, variant, quantity) == items + [LineItem(variant.id, quantity, variant.price)]
  {
  }

  /** Adding a variant never creates a duplicate line item. */
  lemma AddVariantKeepsDistinct(items: seq<LineItem>, variant: Variant, quantity: int)
    requires DistinctVariants(items)
    ensures DistinctVariants(WithVariant(items, variant, quantity))
  {
  }

  /** The total ordered quantity of variant `id` over all line items. */
  function QuantityOf(items: seq<LineItem>, id: VariantId): int
  {
    if |items| == 0 then 0
    else QuantityOf(items[..|items| - 1], id) + (if items[|items| - 1].variantId == id then items[|items| - 1].quantity else 0)
  }

  lemma QuantityOfAppend(items: seq<LineItem>, li: LineItem, id: VariantId)
    ensures QuantityOf(items + [li], id) == QuantityOf(items, id) + (if li.variantId == id then li.quantity else 0)
  {
    assert (items + [li])[..|items|] == items;
  }

  lemma {:induction false} QuantityOfUpdate(items: seq<LineItem>, i: nat, li: LineItem, id: VariantId)
    requires i < |items| && li.variantId == items[i].variantId
    ensures QuantityOf(items[i := li], id)
            == QuantityOf(items, id) + (if li.variantId == id then li.quantity - items[i].quantity else 0)
  {
    var n := |items| - 1;
    if i < n {
      QuantityOfUpdate(items[..n], i, li, id);
      assert items[i := li][..n] == items[..n][i := li];
    } else {
      assert items[i := li][..n] == items[..n];
    }
  }

  /** Adding a variant raises the ordered quantity of that variant, by
      `Increment(quantity)` when it was already present and by `quantity` when
      it was not, and leaves every other variant's quantity as it was. */
  lemma AddVariantQuantities(items: seq<LineItem>, variant: Variant, quantity: int, id: VariantId)
    ensures QuantityOf(WithVariant(items, variant, quantity), id)
            == QuantityOf(items, id)
               + (if id != variant.id then 0
                  else if HasVariant(items, variant.id) then Increment(quantity)
                  else quantity)
  {
    match FirstWithVariant(items, variant.id)
    case Some(i) =>
      QuantityOfUpdate(items, i, items[i].(quantity := items[i].quantity + Increment(quantity)), id);
    case None =>
      QuantityOfAppend(items, LineItem(variant.id, quantity, variant.price), id);
  }

  /** The legacy rule for an existing line item: any quantity up to one, zero
      and negative ones included, adds exactly one unit of the variant. */
  lemma AddVariantAddsOneUnlessAboveOne(items: seq<LineItem>, variant: Variant, quantity: int)
    requires quantity <= 1 && HasVariant(items, variant.id)
    ensures QuantityOf(WithVariant(items, variant, quantity), variant.id) == QuantityOf(items, variant.id) + 1
  {
    AddVariantQuantities(items, variant, quantity, variant.id);
  }

  /** Raising a line item's quantity by `d` raises its line total by `d` units at its price. */
  lemma LineTotalBump(item: LineItem, d: int)
    ensures Money.LineTotal(item.(quantity := item.quantity + d)) == Money.LineTotal(item) + item.price * d
  {
    assert item.price * (item.quantity + d) == item.price * item.quantity + item.price * d;
  }

  /** Adding a variant raises the item total by the added units at their line's
      captured price, or by the new line's total when it is appended. */
  lemma AddVariantItemSum(items: seq<LineItem>, variant: Variant, quantity: int)
    ensures var found := FirstWithVariant(items, variant.id);
            Money.ItemSum(WithVariant(items, variant, quantity))
            == Money.ItemSum(items)
               + if found.Some? then items[found.value].price * Increment(quantity)
                 else variant.price * quantity
  {
    match FirstWithVariant(items, variant.id)
    case Some(i) =>
      var item := items[i];
      var bumped := item.(quantity := item.quantity + Increment(quantity));
      Money.ItemSumUpdate(items, i, bumped);
      LineTotalBump(item, Increment(quantity));
    case None =>
      Money.ItemSumAppend(items, LineItem(variant.id, quantity, variant.price));
  }

  /** Adding variant V at 10.00 twice with the default quantity to an empty
      order gives one line item of quantity 2 and an item total of 20.00. */
  lemma AddSameVariantTwice(v: VariantId)
    ensures var once := WithVariant([], Variant(v, 1000), 1);
            var twice := WithVariant(once, Variant(v, 1000), 1);
            && once == [LineItem(v, 1, 1000)] && Money.ItemSum(once) == 1000
            && twice == [LineItem(v, 2, 1000)] && Money.ItemSum(twice) == 2000
  {
    var variant := Variant(v, 1000);
    AddVariantAppendsNew([], variant, 1);
    var once := WithVariant([], variant, 1);
    assert once == [LineItem(v, 1, 1000)];
    assert HasVariant(once, v) by { assert once[0].variantId == v; }
    AddVariantMergesExisting(once, variant, 1);
    var twice := WithVariant(once, variant, 1);
    assert twice == [LineItem(v, 2, 1000)];
    Money.ItemSumAppend([], once[0]);
    Money.ItemSumAppend([], twice[0]);
    assert [] + [once[0]] == once && [] + [twice[0]] == twice;
  }
}
