/** Rows of the inventory tables. A product's primary key is its position in `products`. */
module Inventory {
  import opened Prelude

  datatype CatalogStatus = Active | Inactive | Archived

  /** `name` stands for the case-folded name that the unique index compares. */
  datatype Product = Product(
    name: string,
    status: CatalogStatus,
    purchasePrice: Option<nat>,
    lowStockThreshold: Option<nat>)

  datatype Balance = Balance(onHand: int, reserved: int) {
    function Available(): (a: int)
      ensures a >= 0 && a >= onHand - reserved
    {
      Max(onHand - reserved, 0)
    }
  }

  datatype MovementType = Entry | Exit | Shrinkage | Correction

  /** What a ledger row refers to: nothing, or the order whose sale it records. */
  datatype Reference = NoReference | SaleOf(order: nat)

  datatype Movement = Movement(
    product: nat,
    kind: MovementType,
    quantity: int,
    balanceAfter: int,
    reference: Reference)

  datatype AlertType = LowStock | OutOfStock

  datatype Alert = Alert(product: nat, kind: AlertType, active: bool, threshold: nat, available: nat)

  datatype Tables = Tables(
    products: seq<Product>,
    lowStockThreshold: nat,
    balances: map<nat, Balance>,
    alerts: seq<Alert>,
    movements: seq<Movement>)
  {
    /** A product without a balance row reads as an empty one, which is what get_or_create makes. */
    function Bal(p: nat): Balance {
      if p in balances then balances[p] else Balance(0, 0)
    }
  }
}
