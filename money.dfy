/** The money aggregator: line-item totals, the zero-quantity purge done
    before every save, the charge and payment folds, and the shipping and
    tax convenience totals. All amounts are integer minor units. */
module Money {
  import opened OrderTypes
  import opened Collections

  /** A line item's `total`: the captured unit price times the quantity. */
  function LineTotal(li: LineItem): int
  {
    li.price * li.quantity
  }

  /** The sum of the line totals of `items` (0 for no items). */
  function ItemSum(items: seq<LineItem>): int
  {
    if |items| == 0 then 0 else ItemSum(items[..|items| - 1]) + LineTotal(items[|items| - 1])
  }

  lemma ItemSumAppend(items: seq<LineItem>, li: LineItem)
    ensures ItemSum(items + [li]) == ItemSum(items) + LineTotal(li)
  {
    assert (items + [li])[..|items|] == items;
  }

  /** Replacing one line item changes the sum by the difference of the two line totals. */
  lemma {:induction false} ItemSumUpdate(items: seq<LineItem>, i: nat, li: LineItem)
    requires i < |items|
    ensures ItemSum(items[i := li]) == ItemSum(items) - LineTotal(items[i]) + LineTotal(li)
  {
    var n := |items| - 1;
    if i < n {
      ItemSumUpdate(items[..n], i, li);
      assert items[i := li][..n] == items[..n][i := li];
    } else {
      assert items[i := li][..n] == items[..n];
    }
  }

  /** `update_line_items` keeps a line item exactly when its quantity is not 0. */
  predicate Kept(li: LineItem)
  {
    li.quantity != 0
  }

  /** The line items left after `update_line_items`, in order. */
  function PurgeZero(items: seq<LineItem>): (r: seq<LineItem>)
    ensures forall i :: 0 <= i < |r| ==> r[i].quantity != 0
  {
    var r := Filter(items, Kept);
    FilterKeeps(items, Kept);
    assert forall i :: 0 <= i < |r| ==> r[i] in r;
    r
  }

  /** The purge removes every line item with quantity 0 and keeps every other
      one, with its multiplicity. */
  lemma PurgeKeepsNonZero(items: seq<LineItem>)
    ensures forall li :: li in PurgeZero(items) <==> li in items && li.quantity != 0
    ensures forall li: LineItem :: li.quantity != 0 ==> multiset(PurgeZero(items))[li] == multiset(items)[li]
    ensures forall li: LineItem :: li.quantity == 0 ==> multiset(PurgeZero(items))[li] == 0
  {
    FilterKeeps(items, Kept);
  }

  /** Purging zero-quantity items never changes the item total: they contribute 0. */
  lemma {:induction false} PurgeKeepsItemSum(items: seq<LineItem>)
    ensures ItemSum(PurgeZero(items)) == ItemSum(items)
  {
    if |items| > 0 {
      var init, last := items[..|items| - 1], items[|items| - 1];
      PurgeKeepsItemSum(init);
      assert items == init + [last];
      if Kept(last) {
        assert PurgeZero(items) == PurgeZero(init) + [last];
        ItemSumAppend(PurgeZero(init), last);
      } else {
        assert PurgeZero(items) == PurgeZero(init);
      }
    }
  }

  /** A purge removes nothing from line items that all have a non-zero quantity. */
  lemma FilterAllNonZero(items: seq<LineItem>)
    requires forall i :: 0 <= i < |items| ==> items[i].quantity != 0
    ensures PurgeZero(items) == items
  {
    FilterAll(items, Kept);
  }

  /** A second purge removes nothing. */
  lemma PurgeIdempotent(items: seq<LineItem>)
    ensures PurgeZero(PurgeZero(items)) == PurgeZero(items)
  {
    FilterAll(PurgeZero(items), Kept);
  }

  /** The sum of a sequence of amounts (the reference for the folds below). */
  function Sum(xs: seq<int>): int
  {
    if |xs| == 0 then 0 else Sum(xs[..|xs| - 1]) + xs[|xs| - 1]
  }

  lemma {:induction false} SumCons(x: int, xs: seq<int>)
    ensures Sum([x] + xs) == x + Sum(xs)
  {
    if |xs| > 0 {
      var init := xs[..|xs| - 1];
      SumCons(x, init);
      assert ([x] + xs)[..|xs|] == [x] + init;
    } else {
      assert [x] + xs == [x];
    }
  }

  /** Ruby's `inject(acc) { |sum, a| a + sum }`: a left-to-right fold adding each amount. */
  function InjectSum(acc: int, xs: seq<int>): int
    decreases |xs|
  {
    if |xs| == 0 then acc else InjectSum(xs[0] + acc, xs[1..])
  }

  /** The left fold adds exactly the amounts to its start value. */
  lemma {:induction false} InjectSumIsSum(acc: int, xs: seq<int>)
    ensures InjectSum(acc, xs) == acc + Sum(xs)
    decreases |xs|
  {
    if |xs| > 0 {
      InjectSumIsSum(xs[0] + acc, xs[1..]);
      SumCons(xs[0], xs[1..]);
      assert [xs[0]] + xs[1..] == xs;
    }
  }

  /** `inject(acc) { |sum, a| a + 0 }`: the block ignores the running value. */
  function InjectLast(acc: int, xs: seq<int>): int
    decreases |xs|
  {
    if |xs| == 0 then acc else InjectLast(xs[0] + 0, xs[1..])
  }

  /** The value-discarding fold yields the last amount, or the start value when there is none. */
  lemma {:induction false} InjectLastIsLast(acc: int, xs: seq<int>)
    ensures InjectLast(acc, xs) == if |xs| == 0 then acc else xs[|xs| - 1]
    decreases |xs|
  {
    if |xs| > 0 {
      InjectLastIsLast(xs[0] + 0, xs[1..]);
    }
  }

  /** The amounts of a list of charges or payments, in order. */
  function Amounts<T>(xs: seq<T>, amount: T -> int): seq<int>
  {
    seq(|xs|, i requires 0 <= i < |xs| => amount(xs[i]))
  }

  function ChargeAmount(c: Charge): int { c.amount }

  function PaymentAmount(p: Payment): int { p.amount }

  function ChargeAmounts(cs: seq<Charge>): seq<int> { Amounts(cs, ChargeAmount) }

  function PaymentAmounts(ps: seq<Payment>): seq<int> { Amounts(ps, PaymentAmount) }

  /** `charge_total` as `update_totals` folds it over the charges in position order. */
  function ChargeTotal(cs: seq<Charge>): int
  {
    InjectSum(0, ChargeAmounts(cs))
  }

  /** `payment_total`: the fold of the payments' amounts. */
  function PaymentTotal(ps: seq<Payment>): int
  {
    InjectSum(0, PaymentAmounts(ps))
  }

  /** The charge total is the sum of every charge's amount, 0 when there are none. */
  lemma ChargeTotalIsSum(cs: seq<Charge>)
    ensures ChargeTotal(cs) == Sum(ChargeAmounts(cs))
    ensures cs == [] ==> ChargeTotal(cs) == 0
  {
    InjectSumIsSum(0, ChargeAmounts(cs));
  }

  /** The payment total is the sum of every payment's amount, 0 when there are none. */
  lemma PaymentTotalIsSum(ps: seq<Payment>)
    ensures PaymentTotal(ps) == Sum(PaymentAmounts(ps))
    ensures ps == [] ==> PaymentTotal(ps) == 0
  {
    InjectSumIsSum(0, PaymentAmounts(ps));
  }

  predicate IsShippingCharge(c: Charge) { c.kind == ShippingCharge }

  predicate IsTaxCharge(c: Charge) { c.kind == TaxCharge }

  /** `ship_total`: the value-discarding fold over the shipping charges. */
  function ShipTotal(cs: seq<Charge>): int
  {
    InjectLast(0, ChargeAmounts(Filter(cs, IsShippingCharge)))
  }

  /** `tax_total`: the value-discarding fold over the tax charges. */
  function TaxTotal(cs: seq<Charge>): int
  {
    InjectLast(0, ChargeAmounts(Filter(cs, IsTaxCharge)))
  }

  /** The shipping total is the amount of the LAST shipping charge, or 0 when
      there is none: earlier shipping charges are not added. */
  lemma ShipTotalIsLastShippingCharge(cs: seq<Charge>)
    ensures var ship := Filter(cs, IsShippingCharge);
            ShipTotal(cs) == if |ship| == 0 then 0 else ship[|ship| - 1].amount
  {
    var ship := Filter(cs, IsShippingCharge);
    InjectLastIsLast(0, ChargeAmounts(ship));
    if |ship| > 0 {
      assert ChargeAmounts(ship)[|ship| - 1] == ChargeAmount(ship[|ship| - 1]);
    }
  }

  /** The tax total is the amount of the LAST tax charge, or 0 when there is none. */
  lemma TaxTotalIsLastTaxCharge(cs: seq<Charge>)
    ensures var tax := Filter(cs, IsTaxCharge);
            TaxTotal(cs) == if |tax| == 0 then 0 else tax[|tax| - 1].amount
  {
    var tax := Filter(cs, IsTaxCharge);
    InjectLastIsLast(0, ChargeAmounts(tax));
    if |tax| > 0 {
      assert ChargeAmounts(tax)[|tax| - 1] == ChargeAmount(tax[|tax| - 1]);
    }
  }

  /** Two shipping charges of 5.00 and 3.00: the charge total counts both,
      the shipping total reports only the last one. */
  lemma ShipTotalIsNotASum()
    ensures var cs := [Charge(ShippingCharge, 500), Charge(ShippingCharge, 300)];
            ShipTotal(cs) == 300 && ChargeTotal(cs) == 800
  {
    var cs := [Charge(ShippingCharge, 500), Charge(ShippingCharge, 300)];
    FilterAll(cs, IsShippingCharge);
    ShipTotalIsLastShippingCharge(cs);
    ChargeTotalIsSum(cs);
    assert ChargeAmounts(cs) == [ChargeAmount(cs[0]), ChargeAmount(cs[1])] == [500, 300];
  }
}
