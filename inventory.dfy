/** The inventory coordinator as the order sees it: per-unit restock, sell
    and ship. The unit's own state machine is the inventory's code, so its
    predicate and transitions are supplied as a policy. */
module Inventory {
  import opened OrderTypes

  /** `can_restock?`, `restock!`, the per-unit effect of `sell_units`, and `ship!`. */
  datatype InventoryPolicy = InventoryPolicy(
    canRestock: string -> bool,
    restock: string -> string,
    sell: string -> string,
    ship: string -> string)

  /** One unit after `restock! if can_restock?`. */
  function AfterRestock(u: InventoryUnit, p: InventoryPolicy): InventoryUnit
  {
    if p.canRestock(u.state) then u.(state := p.restock(u.state)) else u
  }

  /** Every unit after `restock_inventory`. */
  function RestockAll(units: seq<InventoryUnit>, p: InventoryPolicy): seq<InventoryUnit>
  {
    seq(|units|, i requires 0 <= i < |units| => AfterRestock(units[i], p))
  }

  /** Every unit after `sell_units`. */
  function SellAll(units: seq<InventoryUnit>, p: InventoryPolicy): seq<InventoryUnit>
  {
    seq(|units|, i requires 0 <= i < |units| => units[i].(state := p.sell(units[i].state)))
  }

  /** Every unit after `mark_shipped`. */
  function ShipAll(units: seq<InventoryUnit>, p: InventoryPolicy): seq<InventoryUnit>
  {
    seq(|units|, i requires 0 <= i < |units| => units[i].(state := p.ship(units[i].state)))
  }

  /** Restocking touches exactly the units that report `can_restock?`: each of
      them takes the restocked state, every other unit is left as it was. */
  lemma RestockExactlyRestockable(units: seq<InventoryUnit>, p: InventoryPolicy)
    ensures forall i :: 0 <= i < |units| && p.canRestock(units[i].state) ==>
              RestockAll(units, p)[i] == units[i].(state := p.restock(units[i].state))
    ensures forall i :: 0 <= i < |units| && !p.canRestock(units[i].state) ==>
              RestockAll(units, p)[i] == units[i]
  {
  }

  /** When a restocked unit can no longer be restocked, restocking twice is the same as once. */
  lemma RestockIdempotent(units: seq<InventoryUnit>, p: InventoryPolicy)
    requires forall s :: !p.canRestock(p.restock(s))
    ensures RestockAll(RestockAll(units, p), p) == RestockAll(units, p)
  {
  }

  /** When shipping a shipped unit leaves it shipped, a second `mark_shipped` changes nothing. */
  lemma ShipIdempotent(units: seq<InventoryUnit>, p: InventoryPolicy)
    requires forall s :: p.ship(p.ship(s)) == p.ship(s)
    ensures ShipAll(ShipAll(units, p), p) == ShipAll(units, p)
  {
    var once := ShipAll(units, p);
    forall i | 0 <= i < |units|
      ensures ShipAll(once, p)[i] == once[i]
    {
      assert p.ship(p.ship(units[i].state)) == p.ship(units[i].state);
    }
  }

  /** Restocking, selling and shipping change only the units' states: every
      unit keeps its variant and its place. */
  lemma UnitTransitionsKeepVariants(units: seq<InventoryUnit>, p: InventoryPolicy)
    ensures forall i :: 0 <= i < |units| ==>
              && RestockAll(units, p)[i].variantId == units[i].variantId
              && SellAll(units, p)[i].variantId == units[i].variantId
              && ShipAll(units, p)[i].variantId == units[i].variantId
  {
  }
}
