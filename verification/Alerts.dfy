/** Low-stock alerts: at most one active row per product, implied by its balance. */
module Alerts {
  import opened Prelude
  import opened Inventory

  function EffectiveThreshold(product: Product, inventoryThreshold: nat): nat {
    match product.lowStockThreshold
    case Some(t) => t
    case None => inventoryThreshold
  }

  /** The row the current balance calls for, if any. */
  function Desired(p: nat, product: Product, inventoryThreshold: nat, balance: Balance): Option<Alert> {
    var threshold := EffectiveThreshold(product, inventoryThreshold);
    if product.status == Archived then None
    else if balance.Available() == 0 then Some(Alert(p, OutOfStock, true, threshold, 0))
    else if balance.Available() <= threshold then Some(Alert(p, LowStock, true, threshold, balance.Available()))
    else None
  }

  /** Active rows of one product, oldest first. */
  function ActiveOf(alerts: seq<Alert>, p: nat): seq<Alert> {
    if alerts == [] then []
    else
      var last := alerts[|alerts| - 1];
      ActiveOf(alerts[..|alerts| - 1], p) + (if last.product == p && last.active then [last] else [])
  }

  function ActiveCount(alerts: seq<Alert>, p: nat, kind: AlertType): nat {
    if alerts == [] then 0
    else
      var last := alerts[|alerts| - 1];
      ActiveCount(alerts[..|alerts| - 1], p, kind)
      + (if last.product == p && last.active && last.kind == kind then 1 else 0)
  }

  /** The partial unique index on (product, alert_type) over active rows. */
  ghost predicate UniqueActive(alerts: seq<Alert>) {
    forall p: nat, kind :: ActiveCount(alerts, p, kind) <= 1
  }

  /** What one synchronisation does to an existing row. */
  function Refreshed(a: Alert, p: nat, desired: Option<Alert>): Alert {
    if a.product != p || !a.active then a
    else if desired.Some? && a.kind == desired.value.kind then desired.value
    else a.(active := false)
  }

  function RefreshAll(alerts: seq<Alert>, p: nat, desired: Option<Alert>): (r: seq<Alert>)
    ensures |r| == |alerts|
    ensures forall i :: 0 <= i < |r| ==> r[i] == Refreshed(alerts[i], p, desired)
  {
    seq(|alerts|, i requires 0 <= i < |alerts| => Refreshed(alerts[i], p, desired))
  }

  function Sync(alerts: seq<Alert>, p: nat, desired: Option<Alert>): seq<Alert> {
    var rows := RefreshAll(alerts, p, desired);
    if desired.None? || ActiveCount(alerts, p, desired.value.kind) > 0 then rows else rows + [desired.value]
  }

  function AsSeq(a: Option<Alert>): seq<Alert> {
    if a.None? then [] else [a.value]
  }

  lemma {:induction false} RefreshEffect(alerts: seq<Alert>, p: nat, desired: Option<Alert>, q: nat)
    requires desired.Some? ==> desired.value.product == p && desired.value.active
    requires desired.Some? ==> ActiveCount(alerts, p, desired.value.kind) <= 1
    ensures var rows := RefreshAll(alerts, p, desired);
            ActiveOf(rows, q) ==
            if q != p then ActiveOf(alerts, q)
            else if desired.Some? && ActiveCount(alerts, p, desired.value.kind) == 1 then [desired.value]
            else []
  {
    if alerts != [] {
      var init := alerts[..|alerts| - 1];
      RefreshEffect(init, p, desired, q);
      assert RefreshAll(alerts, p, desired)[..|alerts| - 1] == RefreshAll(init, p, desired);
    }
  }

  /** Synchronising a product leaves it exactly the desired alert and touches no other product. */
  lemma {:induction false} SyncAgrees(alerts: seq<Alert>, p: nat, desired: Option<Alert>, q: nat)
    requires UniqueActive(alerts)
    requires desired.Some? ==> desired.value.product == p && desired.value.active
    ensures ActiveOf(Sync(alerts, p, desired), q) == if q == p then AsSeq(desired) else ActiveOf(alerts, q)
  {
    RefreshEffect(alerts, p, desired, q);
    if desired.Some? && ActiveCount(alerts, p, desired.value.kind) == 0 {
      var rows := RefreshAll(alerts, p, desired);
      assert (rows + [desired.value])[..|rows|] == rows;
    }
  }

  lemma {:induction false} CountFromActive(alerts: seq<Alert>, p: nat, kind: AlertType)
    ensures ActiveCount(alerts, p, kind) <= |ActiveOf(alerts, p)|
    ensures (exists a :: a in ActiveOf(alerts, p) && a.kind == kind) ==> ActiveCount(alerts, p, kind) >= 1
  {
    if alerts != [] {
      CountFromActive(alerts[..|alerts| - 1], p, kind);
    }
  }

  /** One active row at most per product is more than the index asks. */
  lemma {:induction false} SingleActiveIsUnique(alerts: seq<Alert>)
    requires forall p: nat :: |ActiveOf(alerts, p)| <= 1
    ensures UniqueActive(alerts)
  {
    forall p: nat, kind ensures ActiveCount(alerts, p, kind) <= 1 {
      CountFromActive(alerts, p, kind);
    }
  }

  lemma {:induction false} RefreshKeepsUnique(alerts: seq<Alert>, p: nat, desired: Option<Alert>, q: nat, kind: AlertType)
    requires desired.Some? ==> desired.value.product == p && desired.value.active
    ensures ActiveCount(RefreshAll(alerts, p, desired), q, kind) <= ActiveCount(alerts, q, kind)
    ensures ActiveCount(alerts, q, kind) == 0 ==> ActiveCount(RefreshAll(alerts, p, desired), q, kind) == 0
  {
    if alerts != [] {
      var init := alerts[..|alerts| - 1];
      RefreshKeepsUnique(init, p, desired, q, kind);
      assert RefreshAll(alerts, p, desired)[..|alerts| - 1] == RefreshAll(init, p, desired);
    }
  }

  lemma {:induction false} SyncKeepsUnique(alerts: seq<Alert>, p: nat, desired: Option<Alert>)
    requires UniqueActive(alerts)
    requires desired.Some? ==> desired.value.product == p && desired.value.active
    ensures UniqueActive(Sync(alerts, p, desired))
  {
    forall q: nat, kind ensures ActiveCount(Sync(alerts, p, desired), q, kind) <= 1 {
      RefreshKeepsUnique(alerts, p, desired, q, kind);
      var rows := RefreshAll(alerts, p, desired);
      if desired.Some? {
        assert (rows + [desired.value])[..|rows|] == rows;
      }
    }
  }
}
