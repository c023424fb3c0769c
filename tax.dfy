/** Tax selection: the rates whose zone includes the ship address, split by
    rate type and handed to the sales-tax and VAT calculators. Zone
    inclusion and both calculators are the catalogue's code, so they are
    parameters here. */
module Tax {
  import opened Wrappers
  import opened OrderTypes
  import opened Collections
  import Money

  predicate IsSalesTax(r: TaxRate) { r.taxType == SalesTax }

  predicate IsVat(r: TaxRate) { r.taxType == Vat }

  /** The rates whose zone includes the ship address (`rate.zone.include?(ship_address)`). */
  function ApplicableRates(rates: seq<TaxRate>, shipAddress: Option<AddressId>,
                           zoneIncludes: (ZoneId, Option<AddressId>) -> bool): seq<TaxRate>
  {
    Filter(rates, (r: TaxRate) => zoneIncludes(r.zone, shipAddress))
  }

  /** `calculate_tax`: 0 when no rate applies; otherwise the sales-tax calculator
      on the applicable SALES_TAX rates plus the VAT calculator on the applicable
      VAT rates. Each calculator also receives the order, of which it sees the
      line items. */
  function CalculateTax(items: seq<LineItem>, rates: seq<TaxRate>, shipAddress: Option<AddressId>,
                        zoneIncludes: (ZoneId, Option<AddressId>) -> bool,
                        salesTaxCalculator: (seq<LineItem>, seq<TaxRate>) -> int,
                        vatCalculator: (seq<LineItem>, seq<TaxRate>) -> int): int
  {
    var applicable := ApplicableRates(rates, shipAddress, zoneIncludes);
    if |applicable| == 0 then 0
    else salesTaxCalculator(items, Filter(applicable, IsSalesTax)) + vatCalculator(items, Filter(applicable, IsVat))
  }

  /** No tax is charged when no rate's zone includes the ship address. */
  lemma NoApplicableRateNoTax(items: seq<LineItem>, rates: seq<TaxRate>, shipAddress: Option<AddressId>,
                              zoneIncludes: (ZoneId, Option<AddressId>) -> bool,
                              salesTaxCalculator: (seq<LineItem>, seq<TaxRate>) -> int,
                              vatCalculator: (seq<LineItem>, seq<TaxRate>) -> int)
    requires forall r :: r in rates ==> !zoneIncludes(r.zone, shipAddress)
    ensures CalculateTax(items, rates, shipAddress, zoneIncludes, salesTaxCalculator, vatCalculator) == 0
  {
    FilterNone(rates, (r: TaxRate) => zoneIncludes(r.zone, shipAddress));
  }

  /** The two calculators receive disjoint lists: the sales-tax one exactly the
      applicable SALES_TAX rates and the VAT one exactly the applicable VAT
      rates, together never more than the applicable rates, and all of them
      when no applicable rate has another type. */
  lemma RateFamiliesPartitionApplicable(rates: seq<TaxRate>, shipAddress: Option<AddressId>,
                                        zoneIncludes: (ZoneId, Option<AddressId>) -> bool)
    ensures var applicable := ApplicableRates(rates, shipAddress, zoneIncludes);
            var sales, vat := Filter(applicable, IsSalesTax), Filter(applicable, IsVat);
            && (forall r :: r in sales <==> r in rates && zoneIncludes(r.zone, shipAddress) && r.taxType == SalesTax)
            && (forall r :: r in vat <==> r in rates && zoneIncludes(r.zone, shipAddress) && r.taxType == Vat)
            && (forall r :: !(r in sales && r in vat))
            && multiset(sales) + multiset(vat) <= multiset(applicable)
            && ((forall r :: r in applicable ==> r.taxType == SalesTax || r.taxType == Vat) ==>
                  multiset(sales) + multiset(vat) == multiset(applicable))
  {
    var applicable := ApplicableRates(rates, shipAddress, zoneIncludes);
    FilterKeeps(rates, (r: TaxRate) => zoneIncludes(r.zone, shipAddress));
    FilterKeeps(applicable, IsSalesTax);
    FilterKeeps(applicable, IsVat);
    DisjointFilters(applicable, IsSalesTax, IsVat);
  }

  /** In a VAT-only jurisdiction the VAT calculator sees every applicable rate
      and the sales-tax calculator sees none, so nothing is counted twice. */
  lemma VatOnlyJurisdiction(items: seq<LineItem>, rates: seq<TaxRate>, shipAddress: Option<AddressId>,
                            zoneIncludes: (ZoneId, Option<AddressId>) -> bool,
                            salesTaxCalculator: (seq<LineItem>, seq<TaxRate>) -> int,
                            vatCalculator: (seq<LineItem>, seq<TaxRate>) -> int)
    requires forall r :: r in rates && zoneIncludes(r.zone, shipAddress) ==> r.taxType == Vat
    ensures var applicable := ApplicableRates(rates, shipAddress, zoneIncludes);
            CalculateTax(items, rates, shipAddress, zoneIncludes, salesTaxCalculator, vatCalculator)
            == if |applicable| == 0 then 0 else salesTaxCalculator(items, []) + vatCalculator(items, applicable)
  {
    var applicable := ApplicableRates(rates, shipAddress, zoneIncludes);
    FilterKeeps(rates, (r: TaxRate) => zoneIncludes(r.zone, shipAddress));
    FilterNone(applicable, IsSalesTax);
    FilterAll(applicable, IsVat);
  }

  /** A 20% VAT zone containing the ship address and an order holding one line
      item of 100.00: with a VAT calculator that applies its rate's percentage
      to the order's item total, the tax is 20.00 plus whatever the sales-tax
      calculator makes of the order with an empty rate list. */
  lemma VatScenario(zone: ZoneId, address: AddressId, v: VariantId,
                    zoneIncludes: (ZoneId, Option<AddressId>) -> bool,
                    salesTaxCalculator: (seq<LineItem>, seq<TaxRate>) -> int,
                    vatCalculator: (seq<LineItem>, seq<TaxRate>) -> int)
    requires forall z, a :: zoneIncludes(z, a) == (z == zone && a == Some(address))
    requires forall items: seq<LineItem>, rs: seq<TaxRate> ::
               vatCalculator(items, rs) == if |rs| == 0 then 0 else Money.ItemSum(items) * rs[0].amount / 100
    ensures CalculateTax([LineItem(v, 1, 10000)], [TaxRate(zone, Vat, 20)], Some(address),
                         zoneIncludes, salesTaxCalculator, vatCalculator)
            == 2000 + salesTaxCalculator([LineItem(v, 1, 10000)], [])
  {
    var items := [LineItem(v, 1, 10000)];
    var rates := [TaxRate(zone, Vat, 20)];
    var applies := (r: TaxRate) => zoneIncludes(r.zone, Some(address));
    assert applies(rates[0]);
    FilterAll(rates, applies);
    assert ApplicableRates(rates, Some(address), zoneIncludes) == rates;
    FilterNone(rates, IsSalesTax);
    FilterAll(rates, IsVat);
    Money.ItemSumAppend([], items[0]);
    assert [] + [items[0]] == items;
    assert Money.ItemSum(items) == 10000;
    assert vatCalculator(items, rates) == 10000 * 20 / 100 == 2000;
  }
}
