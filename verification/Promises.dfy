/** What the invariant means to a shop: every promise here holds of each database that a run, an inbox or keyed calls can reach. */
module Promises {
  import opened Prelude
  import opened Inventory
  import opened Alerts
  import opened Stock
  import opened Orders
  import opened Shop
  import opened Invariant
  import opened Preserve
  import opened Commands
  import opened Catalogue
  import opened Runs
  import opened History

  ghost predicate Reachable(db: Db) {
    exists threshold: nat, actions: seq<Action> :: db == Run(EmptyShop(threshold), actions)
  }

  lemma {:induction false} ReachableValid(db: Db)
    requires Reachable(db)
    ensures Valid(db)
  {
    var threshold: nat, actions: seq<Action> :| db == Run(EmptyShop(threshold), actions);
    EmptyValid(threshold);
    RunValid(EmptyShop(threshold), actions);
  }

  /** Reserved units are the open claims of all orders, and no product is oversold. */
  lemma {:induction false} ReservedIsClaimed(db: Db, p: nat)
    requires Valid(db)
    ensures db.t.Bal(p).reserved == HeldTotal(db.orders, p)
    ensures 0 <= db.t.Bal(p).reserved <= db.t.Bal(p).onHand
  {
  }

  /** Open, consumed or released: an order's status decides for every one of its lines. */
  lemma {:induction false} StatusDecides(db: Db, oid: nat, i: nat)
    requires Valid(db) && oid < |db.orders|
    ensures var o := db.orders[oid];
            && |o.reservations| == |o.lines| > 0
            && o.status != Draft
            && (i < |o.lines| ==>
                  && o.reservations[i].product == o.lines[i].product
                  && o.reservations[i].quantity == o.lines[i].quantity > 0
                  && PhaseOf(o.reservations[i]) ==
                     if IsActive(o.status) then Open
                     else if o.status == Paid || o.status == Refunded then Consumed else Released)
  {
    var o := db.orders[oid];
    assert OrderOk(o, oid, |db.t.products|, db.t.movements);
    hide Sound, HeldTotal;
  }

  /**
   * Sold exactly once: however often payments are confirmed, an order has one sale row per
   * product when it is paid or refunded and none otherwise, that row takes out the product's
   * whole quantity, and every line's reservation points at it.
   */
  lemma {:induction false} SoldExactlyOnce(db: Db, oid: nat, i: nat)
    requires Valid(db) && oid < |db.orders| && i < |db.orders[oid].lines|
    ensures var o := db.orders[oid];
            var p := o.lines[i].product;
            var sold := o.status == Paid || o.status == Refunded;
            && SaleCount(db.t.movements, oid, p) == (if sold then 1 else 0)
            && |o.reservations| == |o.lines|
            && (sold ==>
                  && o.reservations[i].movement.Some?
                  && IsSaleRow(db.t.movements, o.reservations[i].movement.value, oid, p, LineQty(o.lines, p)))
  {
    var o := db.orders[oid];
    assert OrderOk(o, oid, |db.t.products|, db.t.movements);
    assert o.lines[i].quantity > 0;
    assert o.reservations[i].product == o.lines[i].product;
    hide Sound, HeldTotal, HeaderOk;
    LineQtyPositive(o.lines, i);
  }

  /** Products an order does not sell never leave the stock in its name. */
  lemma {:induction false} NothingElseSold(db: Db, oid: nat, p: nat)
    requires Valid(db) && oid < |db.orders|
    requires forall i {:trigger db.orders[oid].lines[i]} :: 0 <= i < |db.orders[oid].lines| ==> db.orders[oid].lines[i].product != p
    ensures SaleCount(db.t.movements, oid, p) == 0
  {
    var o := db.orders[oid];
    assert OrderOk(o, oid, |db.t.products|, db.t.movements);
    hide Sound, HeldTotal, HeaderOk;
    if LineQty(o.lines, p) > 0 {
      LineQtyOccurs(o.lines, p);
    }
  }

  lemma {:induction false} ReadyGuards(v: Locked, oid: nat, now: Time)
    requires Ready(v, oid) && IsActive(v.order.status)
    ensures ReleaseReservations(v, now).Ok?
    ensures ConsumeReservations(v, oid, now).Ok? && ConsumeReservations(v, oid, now).value.1
  {
    hide *;
    assert PhaseFor(v.order.status) == Open by { ActiveIsOpen(v.order.status); }
    var m := ReleaseStep(v, oid, now);
    var n := ConsumeStep(v, oid, now);
  }

  lemma {:induction false} ActiveIsOpen(s: Status)
    requires IsActive(s)
    ensures PhaseFor(s) == Open
  {
  }

  /** The stock guards behind releases and sales cannot fire on an active order of a valid shop. */
  lemma {:induction false} GuardsNeverFire(db: Db, oid: nat, now: Time)
    requires Valid(db) && oid < |db.orders| && IsActive(db.orders[oid].status)
    ensures ReleaseReservations(LockedAt(db, oid), now).Ok?
    ensures ConsumeReservations(LockedAt(db, oid), oid, now).Ok?
    ensures ConsumeReservations(LockedAt(db, oid), oid, now).value.1
  {
    ReadyAt(db, oid);
    hide Valid, Ready, ConsumeReservations, ReleaseReservations;
    ReadyGuards(LockedAt(db, oid), oid, now);
  }

  /** Approving an active order always sells it: "paid without stock" is never reported for one. */
  lemma {:induction false} ApprovalAlwaysSells(db: Db, oid: nat, payment: Payment, paidAt: Time, event: Option<nat>, now: Time)
    requires Valid(db) && oid < |db.orders| && IsActive(db.orders[oid].status)
    requires payment.amount == db.orders[oid].total && 0 <= payment.refundedAmount <= payment.amount
    ensures var r := Approve(LockedAt(db, oid), oid, payment, paidAt, event, now);
            r.Ok? && r.value.1 && r.value.0.order.status == Paid && r.value.0.issues == db.issues
  {
    ReadyAt(db, oid);
    var v := LockedAt(db, oid);
    ApprovedPayment(v.order, payment);
    hide *;
    var w := ApproveSteps(v, oid, payment, paidAt, event, now);
    ApproveIssues(v, oid, payment, paidAt, event, now);
  }

  lemma {:induction false} ApprovedPayment(o: Order, payment: Payment)
    requires payment.amount == o.total && 0 <= payment.refundedAmount <= payment.amount
    ensures PaymentOk(o.(payment := Some(payment.(status := PaymentApproved)), status := Paid))
  {
  }

  lemma {:induction false} ApproveIssues(v: Locked, oid: nat, payment: Payment, paidAt: Time, event: Option<nat>, now: Time)
    requires Approve(v, oid, payment, paidAt, event, now).Ok? && Approve(v, oid, payment, paidAt, event, now).value.1
    ensures Approve(v, oid, payment, paidAt, event, now).value.0.issues == v.issues
  {
    hide Transact, RequestsOf, Has;
  }

  /** Every closing balance is the running sum of its product's rows, and the last one is the stock on hand. */
  lemma {:induction false} LedgerAgrees(db: Db, p: nat, i: nat)
    requires Valid(db)
    ensures p < |db.t.products| ==> db.t.Bal(p).onHand == Posted(db.t.movements, p)
    ensures i < |db.t.movements| ==>
              var m := db.t.movements[i];
              && m.balanceAfter == Posted(db.t.movements[..i + 1], m.product) >= 0
              && SignMatches(m)
  {
    ValidAlerts(db);
    hide Valid;
    if i < |db.t.movements| {
      assert RowOk(db.t, i);
    }
  }

  /** A listed product shows the alert its balance calls for, with the current threshold and quantity, or none. */
  lemma {:induction false} AlertsAreCurrent(db: Db, p: nat)
    requires Valid(db) && p < |db.t.products|
    ensures ActiveOf(db.t.alerts, p) ==
            var available := Max(db.t.Bal(p).onHand - db.t.Bal(p).reserved, 0);
            var threshold := match db.t.products[p].lowStockThreshold case Some(own) => own case None => db.t.lowStockThreshold;
            if db.t.products[p].status == Archived || available > Max(threshold, 0) then []
            else [Alert(p, if available == 0 then OutOfStock else LowStock, true, threshold, available)]
  {
    assert AlertsAgree(db.t) by { ValidAlerts(db); }
    hide Valid, AlertsAgree, ActiveOf;
    AgreedAlert(db.t, p);
  }

  lemma {:induction false} ValidAlerts(db: Db)
    requires Valid(db)
    ensures AlertsAgree(db.t) && NotOversold(db.t) && LedgerOk(db.t)
  {
    hide AlertsAgree, NotOversold, LedgerOk, OrderOk;
  }

  lemma {:induction false} AgreedAlert(t: Tables, p: nat)
    requires AlertsAgree(t) && p < |t.products|
    ensures ActiveOf(t.alerts, p) == AsSeq(Desired(p, t.products[p], t.lowStockThreshold, t.Bal(p)))
  {
    hide ActiveOf, Desired, AsSeq;
  }

  /** Money returned never exceeds money charged, and is never negative, whatever the provider reports. */
  lemma {:induction false} RefundWithinPayment(db: Db, oid: nat)
    requires Valid(db) && oid < |db.orders| && db.orders[oid].payment.Some?
    ensures 0 <= db.orders[oid].payment.value.refundedAmount <= db.orders[oid].payment.value.amount
    ensures db.orders[oid].payment.value.amount == db.orders[oid].total == LinesTotal(db.orders[oid].lines)
  {
    assert OrderOk(db.orders[oid], oid, |db.t.products|, db.t.movements);
  }

  lemma {:induction false} RunTakesValid(db: Db, actions: seq<Action>, oid: nat)
    requires Valid(db) && oid < |db.orders|
    ensures oid < |Run(db, actions).orders| && Run(db, actions).orders[oid].lines == db.orders[oid].lines
    ensures Valid(Run(db, actions))
  {
    RunValid(db, actions);
    RunRecords(db, actions);
    hide Valid, Run;
    assert Extends(db.orders[oid], Run(db, actions).orders[oid]);
  }

  /** Once an order has been sold, no later command sells any of it again or takes the sale back. */
  lemma {:induction false} NoSecondSale(db: Db, actions: seq<Action>, oid: nat, p: nat)
    requires Valid(db) && oid < |db.orders| && (db.orders[oid].status == Paid || db.orders[oid].status == Refunded)
    ensures SaleCount(Run(db, actions).t.movements, oid, p) == SaleCount(db.t.movements, oid, p)
  {
    RunTakesValid(db, actions, oid);
    FinalStatuses(db, actions, oid);
    var r := Run(db, actions);
    assert OrderOk(db.orders[oid], oid, |db.t.products|, db.t.movements);
    assert OrderOk(r.orders[oid], oid, |r.t.products|, r.t.movements);
    hide Sound, HeaderOk, Run;
  }

  // ----- The ledger is append-only

  lemma {:induction false} StepsGrow(v: Locked, w: Locked, oid: nat)
    requires Steps(v, w, oid)
    ensures v.t.movements <= w.t.movements
  {
    hide Sound, OrderOk;
  }

  lemma {:induction false} CreateKeepsLedger(db: Db, inputs: seq<LineInput>, mode: DeliveryMode, payBy: PaymentMethod, setup: Setup, expiresAt: Time)
    requires Valid(db) && CreateOrder(db, inputs, mode, payBy, setup, expiresAt).Ok?
    ensures CreateOrder(db, inputs, mode, payBy, setup, expiresAt).value.t.movements == db.t.movements
  {
    ReadySoundTables(db);
    hide Valid, Sound, CreateOrder;
    var lines, total := CreatedParts(db, inputs, mode, payBy, setup, expiresAt);
  }

  lemma {:induction false} ReadySoundTables(db: Db)
    requires Valid(db)
    ensures Sound(db.t)
  {
    hide Sound, OrderOk;
  }

  lemma {:induction false} ReissueGrows(db: Db, oid: nat, setup: Setup, now: Time, ttl: Time)
    requires Valid(db) && Reissue(db, oid, setup, now, ttl).Ok?
    ensures db.t.movements <= Reissue(db, oid, setup, now, ttl).value.t.movements
  {
    hide Valid, Steps, Ready, Reissue, CreateOrder, Supersede, PublishNew;
    var v, created := ReissueParts(db, oid, setup, now, ttl);
    ReadyAt(db, oid);
    SupersedeSteps(LockedAt(db, oid), oid, now);
    StepsGrow(LockedAt(db, oid), v, oid);
    CommitValid(db, oid, v);
    CreateKeepsLedger(Commit(db, oid, v), InputsOf(db.orders[oid].lines), db.orders[oid].deliveryMode, BankTransfer, setup, now + ttl);
  }

  lemma {:induction false} OrderCommandGrows(db: Db, oid: nat, c: Command)
    requires Valid(db) && OnOrder(db, oid, c).Ok?
    ensures db.t.movements <= OnOrder(db, oid, c).value.t.movements
  {
    hide Valid, Steps, Ready, Perform;
    ReadyAt(db, oid);
    PerformSteps(LockedAt(db, oid), oid, c);
    StepsGrow(LockedAt(db, oid), Perform(LockedAt(db, oid), oid, c).value, oid);
  }

  lemma {:induction false} BesideGrows(t: Tables, r: Tables)
    requires Beside(t, r)
    ensures t.movements <= r.movements
  {
    hide Sound;
  }

  lemma {:induction false} AttemptGrows(db: Db, a: Action)
    requires Valid(db) && Attempt(db, a).Ok?
    ensures db.t.movements <= Attempt(db, a).value.t.movements
  {
    hide Valid, Beside, CreateOrder, OnOrder, Reissue, OnTables, SetShopThreshold;
    match a {
      case CreateSale(inputs, mode, payBy, setup, expiresAt) => CreateKeepsLedger(db, inputs, mode, payBy, setup, expiresAt);
      case ChangeOrder(oid, command) => OrderCommandGrows(db, oid, command);
      case ReissueSale(oid, setup, now, ttl) => ReissueGrows(db, oid, setup, now, ttl);
      case _ =>
        ReadySoundTables(db);
        StockActionBeside(db, a);
        BesideGrows(db.t, Attempt(db, a).value.t);
    }
  }

  /** Ledger rows are never rewritten or removed, and an order's lines, with their prices and costs, never change. */
  lemma {:induction false} HistoryIsKept(db: Db, actions: seq<Action>)
    requires Valid(db)
    ensures db.t.movements <= Run(db, actions).t.movements
    ensures |db.orders| <= |Run(db, actions).orders|
    ensures forall oid {:trigger Run(db, actions).orders[oid]} :: 0 <= oid < |db.orders| ==>
              && Run(db, actions).orders[oid].lines == db.orders[oid].lines
              && db.orders[oid].timeline <= Run(db, actions).orders[oid].timeline
  {
    RunRecords(db, actions);
    LedgerGrows(db, actions);
    var r := Run(db, actions);
    hide Run, Valid;
    forall oid {:trigger r.orders[oid]} | 0 <= oid < |db.orders|
      ensures r.orders[oid].lines == db.orders[oid].lines && db.orders[oid].timeline <= r.orders[oid].timeline
    {
      assert Extends(db.orders[oid], r.orders[oid]);
    }
  }

  lemma {:induction false} LedgerGrows(db: Db, actions: seq<Action>)
    requires Valid(db)
    ensures db.t.movements <= Run(db, actions).t.movements
  {
    hide Valid, Attempt;
    if actions != [] {
      var init := actions[..|actions| - 1];
      LedgerGrows(db, init);
      RunValid(db, init);
      if Attempt(Run(db, init), actions[|actions| - 1]).Ok? {
        AttemptGrows(Run(db, init), actions[|actions| - 1]);
      }
    }
  }
}
