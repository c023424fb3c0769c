# Order lifecycle, totals and tax — a Dafny model of Spree's `Order`

This project models the `Order` aggregate of the Spree shop (`app/models/order.rb`):

- its state machine (`in_progress`, `new`, `canceled`, `returned`, `resumed`, `paid`, `shipped`;
  events `complete`, `cancel`, `return`, `resume`, `pay`, `ship`) as an explicit table with guards,
  and the action each entered state runs (completing the order, restocking, rewinding the state log);
- the line-item manager (`contains?`, `add_variant`, the before-save purge of zero-quantity items);
- the money aggregator (`item_total`, `update_totals`, `payment_total`, `ship_total`, `tax_total`)
  in integer minor units (cents);
- tax selection (`calculate_tax`), with zone inclusion and the two tax calculators as parameters;
- the token branch of `grant_access?`, with the session lookup's result as a parameter.

Layout, one module per component:

| file | module | contents |
|---|---|---|
| `wrappers.dfy` | `Wrappers` | `Option`, the model's `nil` |
| `collections.dfy` | `Collections` | `Filter` (Ruby `find_all`) and its lemmas |
| `order_types.dfy` | `OrderTypes` | states, events, log entries, line items, units, charges, checkout, tax rates |
| `lifecycle.dfy` | `Lifecycle` | the transition table, the guards, the log rewind of `restore_state` |
| `money.dfy` | `Money` | line totals, the purge, the `inject` folds and the totals built on them |
| `line_items.dfy` | `LineItems` | `contains?` as a first-match search, `add_variant` as a function on the line items |
| `tax.dfy` | `Tax` | `calculate_tax` |
| `inventory.dfy` | `Inventory` | per-unit restock, sell and ship |
| `access.dfy` | `Access` | `grant_access?` |
| `order.dfy` | `Orders` | class `Order`: the fields the source updates, the callbacks and one method per event |
| `scenarios.dfy` | `Scenarios` | client code walking an order through adding items, saving, paying, shipping, canceling and resuming |

The child records (line items, inventory units, charges, payments, log entries) are values held in
`seq` fields of `Order`; the methods that loop over them in the source (`item_total`,
`update_line_items`, `restock_inventory`, `mark_shipped`) are methods with loops whose
postconditions tie the new field to a function of the old one, and the properties are proved about
those functions. Every successful event saves the order, so it runs the `before_save` callbacks
(`update_line_items`, then `update_totals`); `Order.Saved()` is what holds afterwards:
no zero-quantity line item and `total == item_total + charge_total`.

Points where the code behaves differently from what its names suggest, modelled as the code does:

- `ship_total` and `tax_total` discard the running value in their `inject` block, so they return the
  amount of the LAST shipping (tax) charge, or 0. They are not sums, although `charge_total`, folded
  the same way beside them, is one (`Money.ShipTotalIsNotASum`).
- No transition appends an entry to `state_events`; the only write to the log is `restore_state`
  popping a trailing "resume" entry.
- `update_totals` reads `self.item_total`, which calls the overriding `item_total` method, so the item
  total is recomputed on every save.
- `calculate_tax` passes the ship address to every zone even when it is absent; there is no separate
  "no ship address" check, so the zone predicate receives `None`.
- A refused event returns `false` in the source; the model returns `Refused(NoTransition)` and changes
  nothing.
- The guard of `resume` checks only the last log entry, but `restore_state` may pop that entry and read
  the one before it (`Lifecycle.ResumeGuardDoesNotCoverRewind`). Where the source then fails (nothing left
  in the log) or stores a nil state, the model refuses the event with `Refused(MissingHistory)` and
  changes nothing.

## Model

| member | source | states |
|---|---|---|
| `Lifecycle.Transition` | app/models/order.rb:48-73 | an event that fires enters its row's target state and fires only from its row's from-state (any state when the row has none) |
| `Lifecycle.CompleteOnlyFromInProgress` | app/models/order.rb:55-57 | `complete` fires exactly from `in_progress` and enters `new`; refused from every other state |
| `Lifecycle.ReturnOnlyFromShipped` | app/models/order.rb:61-63 | `return` fires exactly from `shipped` and enters `returned` |
| `Lifecycle.ShipOnlyFromPaid` | app/models/order.rb:70-72 | `ship` fires exactly from `paid` and enters `shipped` |
| `Lifecycle.CancelUnlessCanceled` | app/models/order.rb:58-60 | `cancel` fires from every state except `canceled`, `in_progress` included, and enters `canceled` |
| `Lifecycle.ResumeOnlyFromCanceledWithHistory` | app/models/order.rb:64-66 | `resume` fires exactly from `canceled` when the log is non-empty and its last entry has a previous state |
| `Lifecycle.PayIffCheckoutComplete` | app/models/order.rb:67-69 | `pay` fires from any state exactly when the checkout's `completed_at` is set, and enters `paid` |
| `Lifecycle.NothingEntersInProgress` | app/models/order.rb:48-73 | no event enters `in_progress`, so the hook on entering it never runs |
| `Lifecycle.RewindPopsOnlyResume` | app/models/order.rb:75-77 | the rewound log is a prefix of the log, one shorter exactly when the last entry is named "resume", otherwise equal |
| `Lifecycle.ResumeRestoresLastPreviousState` | app/models/order.rb:75-89 | under the `resume` guard and a last entry that is not a resume, the restored state is that entry's previous state |
| `Lifecycle.ResumeLooksPastLoggedResume` | app/models/order.rb:75-78 | after a trailing "resume" entry is popped, the restored state is the previous state of the entry before it |
| `Lifecycle.ResumeGuardDoesNotCoverRewind` | app/models/order.rb:77-78 | a log holding a single "resume" entry passes `allow_resume?` yet leaves nothing to restore from |
| `Money.PurgeZero` | app/models/order.rb:223-227 | no line item left by the purge has quantity 0 |
| `Money.PurgeKeepsNonZero` | app/models/order.rb:223-227 | the purge removes every zero-quantity line item and keeps every other one with its multiplicity |
| `Money.PurgeKeepsItemSum` | app/models/order.rb:134-140 | purging zero-quantity items does not change the item total |
| `Money.PurgeIdempotent` | app/models/order.rb:223-227 | a second purge removes nothing |
| `Money.ItemSumUpdate` | app/models/order.rb:134-140 | replacing a line item changes the item total by the difference of the two line totals |
| `Money.InjectSumIsSum` | app/models/order.rb:129-131 | the `inject` fold adding each amount equals its start value plus the sum of the amounts |
| `Money.InjectLastIsLast` | app/models/order.rb:142-148 | the `inject` fold that discards the running value yields the last amount, or its start value when empty |
| `Money.ChargeTotalIsSum` | app/models/order.rb:181 | `charge_total` is the sum of all charge amounts, 0 when there are none |
| `Money.PaymentTotalIsSum` | app/models/order.rb:129-131 | `payment_total` is the sum of all payment amounts, 0 when there are none |
| `Money.ShipTotalIsLastShippingCharge` | app/models/order.rb:142-144 | `ship_total` is the last shipping charge's amount, 0 when there is none |
| `Money.TaxTotalIsLastTaxCharge` | app/models/order.rb:146-148 | `tax_total` is the last tax charge's amount, 0 when there is none |
| `Money.ShipTotalIsNotASum` | app/models/order.rb:142-144 | with shipping charges of 5.00 and 3.00 the shipping total is 3.00 while the charge total is 8.00 |
| `LineItems.FirstWithVariant` | app/models/order.rb:155-157 | the result is the index of the first line item for the variant; None exactly when no line item is for it |
| `LineItems.Increment` | app/models/order.rb:98-99 | an existing item grows by exactly one when `quantity <= 1` (zero and negative quantities included), and by `quantity` itself when `quantity > 1` |
| `LineItems.WithVariant` | app/models/order.rb:95-104 | the line-item count grows by at most one, and by one exactly when the variant had no line item; the set of variants gains only the added one |
| `LineItems.AddVariantMergesExisting` | app/models/order.rb:96-100 | an existing first item for the variant gains `Increment(quantity)` units at its price; every other item is unchanged |
| `LineItems.AddVariantAppendsNew` | app/models/order.rb:101-103 | without an item for the variant, one item with the given quantity and the variant's current price is appended |
| `LineItems.AddVariantKeepsDistinct` | app/models/order.rb:95-104 | adding a variant never creates a second line item for a variant |
| `LineItems.QuantityOfUpdate` | app/models/order.rb:98-100 | raising one item's quantity raises the ordered quantity of its variant by the difference and no other |
| `LineItems.AddVariantAddsOneUnlessAboveOne` | app/models/order.rb:96-98 | with a line item for the variant already present, any quantity up to one adds exactly one unit of that variant |
| `LineItems.AddVariantQuantities` | app/models/order.rb:95-104 | the ordered quantity of the added variant rises by `Increment(quantity)` (present) or `quantity` (absent); every other variant's stays |
| `LineItems.AddVariantItemSum` | app/models/order.rb:95-104 | the item total rises by the added units at the merged line's price, or by the new line's total |
| `LineItems.AddSameVariantTwice` | app/models/order.rb:95-104 | adding 10.00 variant V twice with quantity 1 gives one line of quantity 2 and an item total of 20.00 |
| `Tax.NoApplicableRateNoTax` | app/models/order.rb:186-188 | the tax is 0 when no rate's zone includes the ship address |
| `Tax.RateFamiliesPartitionApplicable` | app/models/order.rb:187-190 | the two calculators get disjoint lists, exactly the applicable SALES_TAX and VAT rates, together at most the applicable rates and all of them when no other type applies |
| `Tax.VatOnlyJurisdiction` | app/models/order.rb:187-197 | when every applicable rate is VAT, the tax is the VAT calculator on the order and all of them plus the sales-tax calculator on the order and none |
| `Tax.VatScenario` | app/models/order.rb:185-198 | for an order of one 100.00 line item in a 20% VAT zone, and a VAT calculator ASSUMED to take its rate's percentage of the order's item total, the tax is 20.00 plus the sales-tax calculator on the order and no rate |
| `Inventory.RestockExactlyRestockable` | app/models/order.rb:217-221 | exactly the units that report `can_restock?` change, and they take the restocked state |
| `Inventory.RestockIdempotent` | app/models/order.rb:217-221 | when a restocked unit cannot be restocked again, restocking twice equals restocking once |
| `Inventory.ShipIdempotent` | app/models/order.rb:164-168 | when shipping a shipped unit leaves it shipped, marking the order shipped twice equals once |
| `Inventory.UnitTransitionsKeepVariants` | app/models/order.rb:164-168 | shipping (and likewise restocking at 217-221 and selling at 204) changes only each unit's state: every unit keeps its variant and position |
| `Access.GrantAccess` | app/models/order.rb:159-163 | access exactly when the given token is the order's, or a session exists whose user owns the order |
| `Access.MatchingTokenGrants` | app/models/order.rb:160 | the order's own token grants access whatever the session |
| `Access.WithoutSessionOnlyTokenGrants` | app/models/order.rb:159-161 | without a session, access exactly when the given token equals the order's |
| `Access.WrongTokenFallsBackToOwner` | app/models/order.rb:160-162 | a missing or wrong token grants access exactly when the session's user owns the order |
| `Orders.Order.constructor` | app/models/order.rb:2-4 | a new order is `in_progress` with an empty checkout, no records, zero totals and its token |
| `Orders.Order.Contains` | app/models/order.rb:155-157 | None exactly when no line item is for the variant; otherwise the first line item for it |
| `Orders.Order.AddVariant` | app/models/order.rb:95-104 | the line items become `WithVariant` of the old ones; distinct variants stay distinct; the item total rises by the added units |
| `Orders.Order.ItemTotal` | app/models/order.rb:134-140 | the loop's result and the stored item total are the sum of the line totals |
| `Orders.Order.UpdateTotals` | app/models/order.rb:180-183 | item total recomputed, charge total the sum of all charge amounts, total their sum |
| `Orders.Order.UpdateLineItems` | app/models/order.rb:223-227 | the line items become the purge of the old ones |
| `Orders.Order.Save` | app/models/order.rb:3 | after the before-save callbacks no zero-quantity item is left and `total == item_total + charge_total`; the item total equals that of the items before the purge |
| `Orders.Order.RestockInventory` | app/models/order.rb:217-221 | the units become `RestockAll` of the old units; nothing else changes |
| `Orders.Order.MarkShipped` | app/models/order.rb:164-168 | every unit is shipped; nothing else changes |
| `Orders.Order.RestoreState` | app/models/order.rb:75-79 | on success the log is the rewound log and the state the restored one; otherwise neither changes |
| `Orders.Order.CompleteOrder` | app/models/order.rb:201-210 | one shipment to the ship address with the chosen method is added, the checkout is completed at `now`, the units are sold, the order is saved, and a confirmation is requested exactly when there is an email |
| `Orders.Order.CancelOrder` | app/models/order.rb:212-215 | the units are restocked and one cancellation mail is requested |
| `Orders.Order.Enter` | app/models/order.rb:48-73 | the event fires exactly when the table allows it; then the state is the row's target and the order is saved, otherwise nothing changes |
| `Orders.Order.Complete` | app/models/order.rb:50 | refused with no change outside `in_progress`; otherwise `new`, with the effects of completing the order |
| `Orders.Order.Cancel` | app/models/order.rb:51 | refused with no change when canceled; otherwise `canceled`, units restocked, a cancellation requested, saved |
| `Orders.Order.Return` | app/models/order.rb:52 | refused with no change outside `shipped`; otherwise `returned`, units restocked, saved |
| `Orders.Order.Resume` | app/models/order.rb:53 | refused with no change when not canceled or the guard fails; MissingHistory with no change when the log cannot be rewound; otherwise the restored state and the rewound log |
| `Orders.Order.Pay` | app/models/order.rb:67-69 | refused with no change without a completed checkout; otherwise `paid` and saved |
| `Orders.Order.Ship` | app/models/order.rb:70-72 | refused with no change outside `paid`; otherwise `shipped` and saved |

## Left out

- Order numbers (`generate_order_number`), `to_param` and the permalink: random identifiers and string formatting; the order number is not modelled.
- `generate_token`: random; the constructor takes the token.
- The named scopes, associations and validations: persistence; only the collections they expose are fields.
- The `additional_fields` copying in `add_variant`: reflection over a catalogue configuration.
- `shipping_countries`, `shipping_methods` and `shipment`: database-wide queries and a convenience reader.
- Mail delivery: the model records in `notifications` that a confirmation or cancellation was requested.
- The `UserSession.find` lookup: the session's user is a parameter of `Access.GrantAccess`.
- `TaxRate.all`, `zone.include?` and the two tax calculators: foreign code, passed in as a rate list and functions.
- The inventory unit's own state machine (`can_restock?`, `restock!`, `ship!`) and `InventoryUnit.sell_units`: foreign code, passed in as `Inventory.InventoryPolicy`; the model applies the sell effect to every existing unit and does not create units from line items.
- `Orders.Order.MarkShipped` and `Orders.Order.RestockInventory`: a `ship!` or `restock!` that raises part-way is not modelled; every unit transition is total.
- `save!` exceptions and transactions in `complete_order`: every save succeeds.
- The hook on entering `in_progress`: no event enters that state (`Lifecycle.NothingEntersInProgress`).
- `Time.now`: the completion time is the parameter `now` of `Orders.Order.Complete`.
- The default `quantity = 1` of `add_variant`: callers pass the quantity.
- `Orders.Order.Resume`: where the source raises (the log is empty after the pop) or stores a nil state, the model refuses the event and changes nothing.
- `Orders.Order.UpdateLineItems`: the source destroys the zero-quantity rows but leaves them in the loaded collection until it is reloaded; the model removes them at once, which leaves every total unchanged (`Money.PurgeKeepsItemSum`).
- Object identity of the child records: line items, units and log entries are values, so two references to one record are not modelled.
- The order of `shipping_charges` and `tax_charges`, which the association does not fix: the model uses the charges' position order.
- Decimal money: amounts are integer minor units.
- `Orders.Order.RestoreState`: the popped log becomes the field's new value, while `pop` on the `has_many` collection changes only the loaded array and deletes no stored entry.
- The tax calculators receive the order in the source; the model gives them the order's line items, the part of the order a calculator reads here, and their results are parameters.
