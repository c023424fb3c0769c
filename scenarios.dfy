/** Client code driving an `Order` through adding items, saving, paying,
    shipping, canceling and resuming, using only the contracts of its methods. */
module Scenarios {
  import opened Wrappers
  import opened OrderTypes
  import opened Orders
  import Money
  import LineItems
  import Inventory

  /** Variant V at 10.00 added twice with the default quantity: one line item of quantity 2. */
  method AddVariantTwice(v: VariantId)
  {
    var order := new Order("token", None);
    var variant := Variant(v, 1000);
    LineItems.AddSameVariantTwice(v);
    order.AddVariant(variant, 1);
    assert order.lineItems == [LineItem(v, 1, 1000)];
    order.AddVariant(variant, 1);
    assert order.lineItems == [LineItem(v, 2, 1000)];
  }

  /** That line item (quantity 2 at 10.00) and a 5.00 shipping charge: after a
      save the item total is 20.00 and the total 25.00. */
  method TotalsAfterSave(v: VariantId)
  {
    var items := [LineItem(v, 2, 1000)];
    var charges := [Charge(ShippingCharge, 500)];
    Money.FilterAllNonZero(items);
    Money.ItemSumAppend([], items[0]);
    Money.ChargeTotalIsSum(charges);
    assert Money.ChargeAmounts(charges) == [Money.ChargeAmount(charges[0])] == [500];
    assert Money.ChargeTotal(charges) == 500 by { assert [500][..0] == []; }
    var order := new Order("token", None);
    order.lineItems := items;
    order.charges := charges;
    order.Save();
    assert order.lineItems == items;
    assert order.itemTotal == 2000 && order.chargeTotal == 500;
    assert order.total == 2500;
  }

  /** `pay` on an order whose checkout is incomplete is refused and the order stays `in_progress`;
      `complete` then `pay` then `ship` walk it to `shipped`. */
  method PayNeedsCompletedCheckout(now: int, policy: Inventory.InventoryPolicy)
  {
    var order := new Order("token", None);
    var r := order.Pay();
    assert r == Refused(NoTransition) && order.state == InProgress;
    r := order.Complete(now, policy);
    assert r == Transitioned(New) && order.checkout.completedAt == Some(now);
    r := order.Pay();
    assert r == Transitioned(Paid);
    r := order.Ship();
    assert r == Transitioned(Shipped);
    r := order.Cancel(policy);
    assert r == Transitioned(Canceled) && order.notifications == [CancellationRequested];
  }

  /** A canceled order whose log's last entry records `new` resumes to `new`. */
  method ResumeRestoresStateBeforeCancel(policy: Inventory.InventoryPolicy)
  {
    var order := new Order("token", None);
    order.state := Canceled;
    order.stateEvents := [StateEvent("complete", Some(InProgress)), StateEvent("cancel", Some(New))];
    var r := order.Resume();
    assert r == Transitioned(New) && order.state == New;
    r := order.Resume();
    assert r == Refused(NoTransition);
  }
}
