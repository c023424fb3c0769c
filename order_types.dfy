/** The values that make up an order: its status, the records it owns and
    the catalogue data it refers to. Money is held in integer minor units
    (cents). */
module OrderTypes {
  import opened Wrappers

  /** The seven values of the order's `state` column; `InProgress` is the initial one. */
  datatype OrderState = InProgress | New | Canceled | Returned | Resumed | Paid | Shipped

  /** The six events of the order's state machine. */
  datatype Event = Complete | Cancel | Return | Resume | Pay | Ship

  /** The name an event is logged under in `state_events`. */
  function EventName(e: Event): string
  {
    match e
    case Complete => "complete"
    case Cancel => "cancel"
    case Return => "return"
    case Resume => "resume"
    case Pay => "pay"
    case Ship => "ship"
  }

  /** One entry of the `state_events` log: the event's name and the status
      the order had before it (absent for legacy entries). */
  datatype StateEvent = StateEvent(name: string, previousState: Option<OrderState>)

  type VariantId = nat
  type AddressId = nat
  type ZoneId = nat
  type ShippingMethodId = nat
  type UserId = nat

  /** A purchasable variant and its current catalogue price. */
  datatype Variant = Variant(id: VariantId, price: int)

  /** A line item: the variant it is for, a quantity and the unit price captured when it was added. */
  datatype LineItem = LineItem(variantId: VariantId, quantity: int, price: int)

  /** An inventory unit tied to the order; `state` is the unit's own state-machine value. */
  datatype InventoryUnit = InventoryUnit(variantId: VariantId, state: string)

  /** The subclasses of `Charge`; `OtherCharge` stands for a plain charge. */
  datatype ChargeKind = ShippingCharge | TaxCharge | OtherCharge

  datatype Charge = Charge(kind: ChargeKind, amount: int)

  datatype Payment = Payment(amount: int)

  /** The order's checkout: the addresses and contact data the order delegates to,
      and `completedAt`, the timestamp `checkout_complete` reads. */
  datatype Checkout = Checkout(
    shipAddress: Option<AddressId>,
    shippingMethod: Option<ShippingMethodId>,
    email: Option<string>,
    completedAt: Option<int>)

  datatype Shipment = Shipment(address: Option<AddressId>, shippingMethod: Option<ShippingMethodId>)

  /** A mail the order asked the mailer to deliver (delivery itself is outside the model). */
  datatype Notification = ConfirmationRequested | CancellationRequested

  /** `TaxRate::TaxType`: sales tax, VAT, or any other code. */
  datatype TaxType = SalesTax | Vat | OtherTaxType(code: int)

  datatype TaxRate = TaxRate(zone: ZoneId, taxType: TaxType, amount: int)
}
