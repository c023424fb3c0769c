/** The `Order` aggregate: its status and the collections it owns, the
    before-save callbacks that keep its totals consistent, the line-item
    manager's updates, and one method per state-machine event that fires the
    event and runs the action attached to the state it enters. */
module Orders {
  import opened Wrappers
  import opened OrderTypes
  import Money
  import LineItems
  import Lifecycle
  import Inventory

  datatype Refusal =
    | NoTransition    // no row of the table applies, or its guard is false
    | MissingHistory  // `resume` passed its guard but the log cannot be rewound

  datatype Outcome = Transitioned(to: OrderState) | Refused(reason: Refusal)

  class Order {
    var state: OrderState
    /** The `state_events` log, oldest first. Transitions read it; the model, like the order, never appends to it. */
    var stateEvents: seq<StateEvent>
    var checkout: Checkout
    var lineItems: seq<LineItem>
    var inventoryUnits: seq<InventoryUnit>
    var payments: seq<Payment>
    /** All charges, in `position` order. */
    var charges: seq<Charge>
    var shipments: seq<Shipment>
    var itemTotal: int
    var chargeTotal: int
    var total: int
    /** The mails the order asked to have delivered, oldest first. */
    var notifications: seq<Notification>
    const token: string
    const user: Option<UserId>

    /** A created order: `in_progress`, an empty checkout, nothing owned yet.
        The token is the one `generate_token` produced. */
    constructor (token: string, user: Option<UserId>)
      ensures state == InProgress && stateEvents == []
      ensures checkout == Checkout(None, None, None, None)
      ensures lineItems == [] && inventoryUnits == [] && payments == [] && charges == []
      ensures shipments == [] && notifications == []
      ensures itemTotal == 0 && chargeTotal == 0 && total == 0
      ensures this.token == token && this.user == user
      ensures Saved()
    {
      this.token := token;
      this.user := user;
      state := InProgress;
      stateEvents := [];
      checkout := Checkout(None, None, None, None);
      lineItems, inventoryUnits, payments, charges := [], [], [], [];
      shipments, notifications := [], [];
      itemTotal, chargeTotal, total := 0, 0, 0;
    }

    /** What holds after every save: no zero-quantity line item, and the three
        totals agree with the line items and charges. */
    predicate Saved()
      reads this
    {
      && (forall i :: 0 <= i < |lineItems| ==> lineItems[i].quantity != 0)
      && itemTotal == Money.ItemSum(lineItems)
      && chargeTotal == Money.ChargeTotal(charges)
      && total == itemTotal + chargeTotal
    }

    /** `contains?`: the first line item for the variant, if there is one. */
    function Contains(variant: Variant): (r: Option<LineItem>)
      reads this
      ensures r.None? <==> !LineItems.HasVariant(lineItems, variant.id)
      ensures r.Some? ==> exists i :: 0 <= i < |lineItems| && lineItems[i] == r.value
                                      && lineItems[i].variantId == variant.id
                                      && forall j :: 0 <= j < i ==> lineItems[j].variantId != variant.id
    {
      match LineItems.FirstWithVariant(lineItems, variant.id)
      case None => None
      case Some(i) => Some(lineItems[i])
    }

    /** `add_variant`: merge into the first line item for the variant, or append a new one. */
    method AddVariant(variant: Variant, quantity: int)
      modifies this`lineItems
      ensures lineItems == LineItems.WithVariant(old(lineItems), variant, quantity)
      ensures LineItems.DistinctVariants(old(lineItems)) ==> LineItems.DistinctVariants(lineItems)
      ensures var found := LineItems.FirstWithVariant(old(lineItems), variant.id);
              Money.ItemSum(lineItems)
              == Money.ItemSum(old(lineItems))
                 + if found.Some? then old(lineItems)[found.value].price * LineItems.Increment(quantity)
                   else variant.price * quantity
    {
      if LineItems.DistinctVariants(lineItems) {
        LineItems.AddVariantKeepsDistinct(lineItems, variant, quantity);
      }
      LineItems.AddVariantItemSum(lineItems, variant, quantity);
      match LineItems.FirstWithVariant(lineItems, variant.id)
      case Some(i) =>
        var item := lineItems[i];
        if quantity <= 1 {
          item := item.(quantity := item.quantity + 1);  // increment_quantity
        }
        if quantity > 1 {
          item := item.(quantity := item.quantity + quantity);
        }
        lineItems := lineItems[i := item];
      case None =>
        lineItems := lineItems + [LineItem(variant.id, quantity, variant.price)];
    }

    /** `item_total`: add up the line totals and store the result. */
    method ItemTotal() returns (tot: int)
      modifies this`itemTotal
      ensures tot == Money.ItemSum(lineItems) && itemTotal == tot
    {
      tot := 0;
      var i := 0;
      while i < |lineItems|
        invariant 0 <= i <= |lineItems|
        invariant tot == Money.ItemSum(lineItems[..i])
      {
        assert lineItems[..i + 1][..i] == lineItems[..i];
        tot := tot + Money.LineTotal(lineItems[i]);
        i := i + 1;
      }
      assert lineItems[..i] == lineItems;
      itemTotal := tot;
    }

    /** `update_totals`: recompute the item total, fold the charges, store the grand total. */
    method UpdateTotals()
      modifies this`itemTotal, this`chargeTotal, this`total
      ensures itemTotal == Money.ItemSum(lineItems)
      ensures chargeTotal == Money.ChargeTotal(charges) && chargeTotal == Money.Sum(Money.ChargeAmounts(charges))
      ensures total == itemTotal + chargeTotal
    {
      Money.ChargeTotalIsSum(charges);
      chargeTotal := Money.ChargeTotal(charges);
      var items := ItemTotal();
      total := items + chargeTotal;
    }

    /** `update_line_items`: drop every line item whose quantity is 0. */
    method UpdateLineItems()
      modifies this`lineItems
      ensures lineItems == Money.PurgeZero(old(lineItems))
    {
      var items := lineItems;
      var kept: seq<LineItem> := [];
      for i := 0 to |items|
        invariant kept == Money.PurgeZero(items[..i])
      {
        assert items[..i + 1] == items[..i] + [items[i]];
        assert items[..i + 1][..i] == items[..i];
        if items[i].quantity != 0 {
          kept := kept + [items[i]];
        }
      }
      assert items[..|items|] == items;
      lineItems := kept;
    }

    /** A save: the `before_save` callbacks, `update_line_items` then `update_totals`. */
    method Save()
      modifies this`lineItems, this`itemTotal, this`chargeTotal, this`total
      ensures lineItems == Money.PurgeZero(old(lineItems))
      ensures Saved()
      ensures itemTotal == Money.ItemSum(old(lineItems))
    {
      UpdateLineItems();
      UpdateTotals();
      Money.PurgeKeepsItemSum(old(lineItems));
    }

    /** `restock_inventory`: restock every unit that reports `can_restock?`. */
    method RestockInventory(policy: Inventory.InventoryPolicy)
      modifies this`inventoryUnits
      ensures inventoryUnits == Inventory.RestockAll(old(inventoryUnits), policy)
    {
      for i := 0 to |inventoryUnits|
        invariant |inventoryUnits| == |old(inventoryUnits)|
        invariant forall k :: 0 <= k < i ==> inventoryUnits[k] == Inventory.AfterRestock(old(inventoryUnits)[k], policy)
        invariant forall k :: i <= k < |inventoryUnits| ==> inventoryUnits[k] == old(inventoryUnits)[k]
      {
        var unit := inventoryUnits[i];
        if policy.canRestock(unit.state) {
          inventoryUnits := inventoryUnits[i := unit.(state := policy.restock(unit.state))];
        }
      }
    }

    /** `mark_shipped`: ship every inventory unit. */
    method MarkShipped(policy: Inventory.InventoryPolicy)
      modifies this`inventoryUnits
      ensures inventoryUnits == Inventory.ShipAll(old(inventoryUnits), policy)
    {
      for i := 0 to |inventoryUnits|
        invariant |inventoryUnits| == |old(inventoryUnits)|
        invariant forall k :: 0 <= k < i ==> inventoryUnits[k] == old(inventoryUnits)[k].(state := policy.ship(old(inventoryUnits)[k].state))
        invariant forall k :: i <= k < |inventoryUnits| ==> inventoryUnits[k] == old(inventoryUnits)[k]
      {
        var unit := inventoryUnits[i];
        inventoryUnits := inventoryUnits[i := unit.(state := policy.ship(unit.state))];
      }
    }

    /** `restore_state`: pop a trailing "resume" entry, then take the state the
        new last entry records. Where that is impossible nothing changes. */
    method RestoreState() returns (ok: bool)
      modifies this`state, this`stateEvents
      ensures ok == Lifecycle.RestoredState(old(stateEvents)).Some?
      ensures ok ==> stateEvents == Lifecycle.RewoundLog(old(stateEvents))
                     && state == Lifecycle.RestoredState(old(stateEvents)).value
      ensures !ok ==> stateEvents == old(stateEvents) && state == old(state)
    {
      var restored := Lifecycle.RestoredState(stateEvents);
      if restored.None? {
        return false;
      }
      stateEvents := Lifecycle.RewoundLog(stateEvents);
      state := restored.value;
      ok := true;
    }

    /** `complete_order`, run on entering `new`: build a shipment to the ship
        address, complete the checkout at `now`, sell the units, save, and ask
        for a confirmation mail when the checkout has an email. */
    method CompleteOrder(now: int, policy: Inventory.InventoryPolicy)
      modifies this`shipments, this`checkout, this`inventoryUnits, this`notifications
      modifies this`lineItems, this`itemTotal, this`chargeTotal, this`total
      ensures shipments == old(shipments) + [Shipment(old(checkout).shipAddress, old(checkout).shippingMethod)]
      ensures checkout == old(checkout).(completedAt := Some(now))
      ensures inventoryUnits == Inventory.SellAll(old(inventoryUnits), policy)
      ensures lineItems == Money.PurgeZero(old(lineItems)) && Saved()
      ensures notifications == old(notifications) + if old(checkout).email.Some? then [ConfirmationRequested] else []
    {
      shipments := shipments + [Shipment(checkout.shipAddress, checkout.shippingMethod)];
      checkout := checkout.(completedAt := Some(now));
      inventoryUnits := Inventory.SellAll(inventoryUnits, policy);
      Save();
      if checkout.email.Some? {
        notifications := notifications + [ConfirmationRequested];
      }
    }

    /** `cancel_order`, run on entering `canceled`: restock, then ask for a cancellation mail. */
    method CancelOrder(policy: Inventory.InventoryPolicy)
      modifies this`inventoryUnits, this`notifications
      ensures inventoryUnits == Inventory.RestockAll(old(inventoryUnits), policy)
      ensures notifications == old(notifications) + [CancellationRequested]
    {
      RestockInventory(policy);
      notifications := notifications + [CancellationRequested];
    }

    /** Fire `e` if the table allows it: enter its state and save. Shared by the event methods. */
    method Enter(e: Event) returns (fired: bool)
      modifies this`state, this`lineItems, this`itemTotal, this`chargeTotal, this`total
      ensures fired == Lifecycle.Transition(e, old(state), old(stateEvents), old(checkout)).Some?
      ensures !fired ==> state == old(state) && lineItems == old(lineItems)
                         && itemTotal == old(itemTotal) && chargeTotal == old(chargeTotal) && total == old(total)
      ensures fired ==> state == Lifecycle.RuleFor(e).to
                        && lineItems == Money.PurgeZero(old(lineItems)) && Saved()
    {
      var next := Lifecycle.Transition(e, state, stateEvents, checkout);
      if next.None? {
        return false;
      }
      state := next.value;
      Save();
      fired := true;
    }

    /** Event `complete`. */
    method Complete(now: int, policy: Inventory.InventoryPolicy) returns (r: Outcome)
      modifies this
      ensures old(state) != InProgress ==> r == Refused(NoTransition) && unchanged(this)
      ensures old(state) == InProgress ==>
                && r == Transitioned(New) && state == New
                && shipments == old(shipments) + [Shipment(old(checkout).shipAddress, old(checkout).shippingMethod)]
                && checkout == old(checkout).(completedAt := Some(now))
                && inventoryUnits == Inventory.SellAll(old(inventoryUnits), policy)
                && lineItems == Money.PurgeZero(old(lineItems)) && Saved()
                && notifications == old(notifications) + (if old(checkout).email.Some? then [ConfirmationRequested] else [])
                && stateEvents == old(stateEvents) && payments == old(payments) && charges == old(charges)
    {
      Lifecycle.CompleteOnlyFromInProgress(state, stateEvents, checkout);
      var fired := Enter(Event.Complete);
      if !fired {
        return Refused(NoTransition);
      }
      ghost var purged := lineItems;
      CompleteOrder(now, policy);
      Money.PurgeIdempotent(old(lineItems));
      r := Transitioned(state);
    }

    /** Event `cancel`. */
    method Cancel(policy: Inventory.InventoryPolicy) returns (r: Outcome)
      modifies this
      ensures old(state) == Canceled ==> r == Refused(NoTransition) && unchanged(this)
      ensures old(state) != Canceled ==>
                && r == Transitioned(Canceled) && state == Canceled
                && inventoryUnits == Inventory.RestockAll(old(inventoryUnits), policy)
                && notifications == old(notifications) + [CancellationRequested]
                && lineItems == Money.PurgeZero(old(lineItems)) && Saved()
                && stateEvents == old(stateEvents) && checkout == old(checkout) && shipments == old(shipments)
                && payments == old(payments) && charges == old(charges)
    {
      Lifecycle.CancelUnlessCanceled(state, stateEvents, checkout);
      var fired := Enter(Event.Cancel);
      if !fired {
        return Refused(NoTransition);
      }
      CancelOrder(policy);
      r := Transitioned(state);
    }

    /** Event `return`. */
    method Return(policy: Inventory.InventoryPolicy) returns (r: Outcome)
      modifies this
      ensures old(state) != Shipped ==> r == Refused(NoTransition) && unchanged(this)
      ensures old(state) == Shipped ==>
                && r == Transitioned(Returned) && state == Returned
                && inventoryUnits == Inventory.RestockAll(old(inventoryUnits), policy)
                && lineItems == Money.PurgeZero(old(lineItems)) && Saved()
                && notifications == old(notifications) && stateEvents == old(stateEvents)
                && checkout == old(checkout) && shipments == old(shipments)
                && payments == old(payments) && charges == old(charges)
    {
      Lifecycle.ReturnOnlyFromShipped(state, stateEvents, checkout);
      var fired := Enter(Event.Return);
      if !fired {
        return Refused(NoTransition);
      }
      RestockInventory(policy);
      r := Transitioned(state);
    }

    /** Event `resume`: enter `resumed`, then rewind the log to the state before the cancellation. */
    method Resume() returns (r: Outcome)
      modifies this
      ensures !(old(state) == Canceled && Lifecycle.AllowResume(old(stateEvents))) ==>
                r == Refused(NoTransition) && unchanged(this)
      ensures old(state) == Canceled && Lifecycle.AllowResume(old(stateEvents))
              && Lifecycle.RestoredState(old(stateEvents)).None? ==>
                r == Refused(MissingHistory) && unchanged(this)
      ensures old(state) == Canceled && Lifecycle.AllowResume(old(stateEvents))
              && Lifecycle.RestoredState(old(stateEvents)).Some? ==>
                && r == Transitioned(state)
                && state == Lifecycle.RestoredState(old(stateEvents)).value
                && stateEvents == Lifecycle.RewoundLog(old(stateEvents))
                && lineItems == Money.PurgeZero(old(lineItems)) && Saved()
                && inventoryUnits == old(inventoryUnits) && notifications == old(notifications)
                && checkout == old(checkout) && shipments == old(shipments)
                && payments == old(payments) && charges == old(charges)
    {
      Lifecycle.ResumeOnlyFromCanceledWithHistory(state, stateEvents, checkout);
      if Lifecycle.Transition(Event.Resume, state, stateEvents, checkout).Some?
         && Lifecycle.RestoredState(stateEvents).None? {
        return Refused(MissingHistory);
      }
      ghost var log0, items0 := stateEvents, lineItems;
      var fired := Enter(Event.Resume);
      if !fired {
        return Refused(NoTransition);
      }
      assert stateEvents == log0 && lineItems == Money.PurgeZero(items0);
      var restored := RestoreState();
      assert restored;
      Money.PurgeIdempotent(items0);
      // `update_attribute` saves the order again
      Save();
      assert lineItems == Money.PurgeZero(items0);
      r := Transitioned(state);
    }

    /** Event `pay`. */
    method Pay() returns (r: Outcome)
      modifies this
      ensures old(checkout).completedAt.None? ==> r == Refused(NoTransition) && unchanged(this)
      ensures old(checkout).completedAt.Some? ==>
                && r == Transitioned(Paid) && state == Paid
                && lineItems == Money.PurgeZero(old(lineItems)) && Saved()
                && inventoryUnits == old(inventoryUnits) && notifications == old(notifications)
                && stateEvents == old(stateEvents) && checkout == old(checkout)
                && shipments == old(shipments) && payments == old(payments) && charges == old(charges)
    {
      Lifecycle.PayIffCheckoutComplete(state, stateEvents, checkout);
      var fired := Enter(Event.Pay);
      if !fired {
        return Refused(NoTransition);
      }
      r := Transitioned(state);
    }

    /** Event `ship`. */
    method Ship() returns (r: Outcome)
      modifies this
      ensures old(state) != Paid ==> r == Refused(NoTransition) && unchanged(this)
      ensures old(state) == Paid ==>
                && r == Transitioned(Shipped) && state == Shipped
                && lineItems == Money.PurgeZero(old(lineItems)) && Saved()
                && inventoryUnits == old(inventoryUnits) && notifications == old(notifications)
                && stateEvents == old(stateEvents) && checkout == old(checkout)
                && shipments == old(shipments) && payments == old(payments) && charges == old(charges)
    {
      Lifecycle.ShipOnlyFromPaid(state, stateEvents, checkout);
      var fired := Enter(Event.Ship);
      if !fired {
        return Refused(NoTransition);
      }
      r := Transitioned(state);
    }
  }
}
