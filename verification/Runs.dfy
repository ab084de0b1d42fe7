/** Safety over whole runs: every reachable database is valid. */
module Runs {
  import opened Prelude
  import opened Inventory
  import opened Alerts
  import opened Stock
  import opened Orders
  import opened Shop
  import opened Invariant
  import opened Preserve
  import opened Commands
  import opened Catalogue

  // ----- Framing

  /** The ledger grew by rows of other orders, or of none. */
  ghost predicate GrewElsewhere(m: seq<Movement>, r: seq<Movement>, oid: nat) {
    && |m| <= |r|
    && (forall i {:trigger r[i]} :: 0 <= i < |m| ==> r[i] == m[i])
    && (forall i {:trigger r[i]} :: |m| <= i < |r| ==> r[i].reference != SaleOf(oid))
  }

  lemma {:induction false} CountFrame(m: seq<Movement>, r: seq<Movement>, oid: nat, p: nat)
    requires GrewElsewhere(m, r, oid)
    ensures SaleCount(r, oid, p) == SaleCount(m, oid, p)
  {
    var more := r[|m|..];
    assert r == m + more;
    SaleCountAppend(m, more, oid, p);
    forall i | 0 <= i < |more| ensures more[i].reference != SaleOf(oid) {
      assert more[i] == r[|m| + i];
    }
    SaleCountForeign(more, oid, p);
  }

  lemma {:induction false} SalesFrame(o: Order, oid: nat, m: seq<Movement>, r: seq<Movement>, phase: Phase)
    requires SalesOk(o, oid, m, phase) && GrewElsewhere(m, r, oid)
    ensures SalesOk(o, oid, r, phase)
  {
    forall p: nat ensures SaleCount(r, oid, p) == SaleCount(m, oid, p) {
      CountFrame(m, r, oid, p);
    }
  }

  lemma {:induction false} OrderFrame(o: Order, oid: nat, products: nat, more: nat, m: seq<Movement>, r: seq<Movement>)
    requires OrderOk(o, oid, products, m) && products <= more && GrewElsewhere(m, r, oid)
    ensures OrderOk(o, oid, more, r)
  {
    SalesFrame(o, oid, m, r, PhaseFor(o.status));
    hide SalesOk, HeaderOk, GrewElsewhere;
  }

  ghost predicate OrdersOk(orders: seq<Order>, products: nat, movements: seq<Movement>) {
    forall oid: nat {:trigger orders[oid]} :: oid < |orders| ==> OrderOk(orders[oid], oid, products, movements)
  }

  ghost predicate Referenced(movements: seq<Movement>, n: nat) {
    forall i {:trigger movements[i]} :: 0 <= i < |movements| && movements[i].reference.SaleOf? ==>
      movements[i].reference.order < n
  }

  ghost predicate HeldOk(t: Tables, orders: seq<Order>) {
    forall p: nat {:trigger HeldTotal(orders, p)} :: t.Bal(p).reserved == HeldTotal(orders, p)
  }

  lemma {:induction false} ValidParts(db: Db)
    ensures Valid(db) <==>
            && Sound(db.t) && HeldOk(db.t, db.orders)
            && OrdersOk(db.orders, |db.t.products|, db.t.movements)
            && Referenced(db.t.movements, |db.orders|)
  {
  }

  lemma {:induction false} ReadyAt(db: Db, oid: nat)
    requires Valid(db) && oid < |db.orders|
    ensures Ready(LockedAt(db, oid), oid)
  {
    forall p: nat ensures db.t.Bal(p).reserved >= QtyIn(db.orders[oid].reservations, Open, p) {
      HeldShare(db.orders, oid, p);
      assert db.t.Bal(p).reserved == HeldTotal(db.orders, p);
    }
    assert OrderOk(db.orders[oid], oid, |db.t.products|, db.t.movements);
    hide Sound, OrderOk;
  }

  // ----- Committing one order

  lemma {:induction false} CommitHeld(db: Db, oid: nat, w: Locked)
    requires oid < |db.orders| && HeldOk(db.t, db.orders)
    requires StockStep(LockedAt(db, oid), w, oid)
    ensures HeldOk(w.t, db.orders[oid := w.order])
  {
    hide Sound;
    forall p: nat ensures w.t.Bal(p).reserved == HeldTotal(db.orders[oid := w.order], p) {
      HeldReplace(db.orders, oid, w.order, p);
      assert db.t.Bal(p).reserved == HeldTotal(db.orders, p);
    }
  }

  lemma {:induction false} StepGrows(v: Locked, w: Locked, oid: nat, other: nat)
    requires StockStep(v, w, oid) && other != oid
    ensures GrewElsewhere(v.t.movements, w.t.movements, other)
  {
    hide Sound;
  }

  lemma {:induction false} CommitOrders(db: Db, oid: nat, w: Locked)
    requires oid < |db.orders| && OrdersOk(db.orders, |db.t.products|, db.t.movements)
    requires Steps(LockedAt(db, oid), w, oid)
    ensures OrdersOk(db.orders[oid := w.order], |w.t.products|, w.t.movements)
  {
    var orders := db.orders[oid := w.order];
    assert w.t.products == db.t.products;
    assert StockStep(LockedAt(db, oid), w, oid);
    hide StockStep;
    forall k: nat | k < |orders| ensures OrderOk(orders[k], k, |w.t.products|, w.t.movements) {
      if k != oid {
        StepGrows(LockedAt(db, oid), w, oid, k);
        assert OrderOk(db.orders[k], k, |db.t.products|, db.t.movements);
        hide OrderOk;
        OrderFrame(db.orders[k], k, |db.t.products|, |w.t.products|, db.t.movements, w.t.movements);
      }
    }
  }

  lemma {:induction false} CommitReferenced(v: Locked, w: Locked, oid: nat, n: nat)
    requires Referenced(v.t.movements, n) && oid < n && StockStep(v, w, oid)
    ensures Referenced(w.t.movements, n)
  {
    hide Sound;
  }

  lemma {:induction false} CommitValid(db: Db, oid: nat, w: Locked)
    requires Valid(db) && oid < |db.orders| && Steps(LockedAt(db, oid), w, oid)
    ensures Valid(Commit(db, oid, w))
  {
    ValidParts(db);
    ValidParts(Commit(db, oid, w));
    assert StockStep(LockedAt(db, oid), w, oid) && Sound(w.t);
    hide Sound, Valid, HeldOk, OrdersOk, Referenced, Steps, StockStep;
    CommitHeld(db, oid, w);
    CommitOrders(db, oid, w);
    CommitReferenced(LockedAt(db, oid), w, oid, |db.orders|);
  }

  /** Every order command keeps the whole database valid. */
  lemma {:induction false} OrderCommandValid(db: Db, oid: nat, c: Command)
    requires Valid(db) && OnOrder(db, oid, c).Ok?
    ensures Valid(OnOrder(db, oid, c).value)
  {
    ReadyAt(db, oid);
    PerformSteps(LockedAt(db, oid), oid, c);
    CommitValid(db, oid, Perform(LockedAt(db, oid), oid, c).value);
    hide Valid, Steps, Ready, Perform;
  }

  // ----- Creating a sale

  /** What validation turns one form line into. */
  predicate CleanedLine(products: seq<Product>, input: LineInput, line: Line) {
    && line.product == input.product < |products|
    && line.quantity == input.quantity && 0 < line.quantity <= MAX_LINE_QUANTITY
    && products[line.product].status == CatalogStatus.Active
    && input.price == Some(line.unitPrice) && line.unitPrice <= MAX_PRICE
    && line.unitCost == products[line.product].purchasePrice
  }

  ghost predicate CleanedAll(products: seq<Product>, inputs: seq<LineInput>, lines: seq<Line>) {
    |lines| == |inputs| && forall i {:trigger lines[i]} :: 0 <= i < |lines| ==> CleanedLine(products, inputs[i], lines[i])
  }

  lemma {:induction false} CleanedMore(products: seq<Product>, inputs: seq<LineInput>, lines: seq<Line>, line: Line)
    requires inputs != [] && CleanedAll(products, inputs[..|inputs| - 1], lines)
    requires CleanedLine(products, inputs[|inputs| - 1], line)
    ensures CleanedAll(products, inputs, lines + [line])
    ensures LinesTotal(lines + [line]) == LinesTotal(lines) + line.LineTotal()
  {
    hide CleanedLine;
    assert (lines + [line])[..|lines|] == lines;
  }

  lemma {:induction false} LastLine(products: seq<Product>, inputs: seq<LineInput>, init: seq<LineInput>) returns (line: Line)
    requires forall i :: 0 <= i < |inputs| ==> inputs[i].product < |products|
    requires inputs != [] && init == inputs[..|inputs| - 1] && CleanLines(products, inputs).Ok?
    ensures forall i :: 0 <= i < |init| ==> init[i].product < |products|
    ensures CleanLines(products, init).Ok? && CleanedLine(products, inputs[|inputs| - 1], line)
    ensures CleanLines(products, inputs).value.0 == CleanLines(products, init).value.0 + [line]
    ensures CleanLines(products, inputs).value.1 == CleanLines(products, init).value.1 + line.LineTotal() <= MAX_ORDER_TOTAL
  {
    line := CleanLine(products, inputs[|inputs| - 1]).value;
  }

  lemma {:induction false} CleanLinesMeaning(products: seq<Product>, inputs: seq<LineInput>)
    requires forall i :: 0 <= i < |inputs| ==> inputs[i].product < |products|
    requires CleanLines(products, inputs).Ok?
    ensures var r := CleanLines(products, inputs).value;
            CleanedAll(products, inputs, r.0) && r.1 == LinesTotal(r.0) <= MAX_ORDER_TOTAL
  {
    if inputs != [] {
      hide *;
      var init := inputs[..|inputs| - 1];
      var line := LastLine(products, inputs, init);
      CleanLinesMeaning(products, init);
      CleanedMore(products, inputs, CleanLines(products, init).value.0, line);
    }
  }

  lemma {:induction false} NewOrderOk(lines: seq<Line>, total: nat, mode: DeliveryMode, payBy: PaymentMethod, expiresAt: Time,
                   oid: nat, products: nat, movements: seq<Movement>)
    requires lines != [] && total == LinesTotal(lines) <= MAX_ORDER_TOTAL
    requires forall i {:trigger lines[i]} :: 0 <= i < |lines| ==> LineOk(lines[i], products)
    requires Referenced(movements, oid)
    ensures OrderOk(NewOrder(lines, total, mode, payBy, expiresAt), oid, products, movements)
  {
    var o := NewOrder(lines, total, mode, payBy, expiresAt);
    assert o.timeline[..0] == [];
    forall p: nat ensures SaleCount(movements, oid, p) == 0 {
      SaleCountForeign(movements, oid, p);
    }
  }

  lemma {:induction false} CartHolds(t: Tables, lines: seq<Line>)
    requires Sound(t) && Transact(t, Hold, LineRequests(lines)).Ok?
    ensures Moves(t, Transact(t, Hold, LineRequests(lines)).value, Hold, lines)
  {
    TransactEffect(t, Hold, LineRequests(lines));
    forall p: nat ensures Demand(LineRequests(lines), p) == LineQty(lines, p) {
      DemandOfLines(lines, p);
    }
    hide *;
    CartMovedBy(t, Transact(t, Hold, LineRequests(lines)).value, Hold, lines, LineRequests(lines));
  }

  lemma {:induction false} AppendHeld(t: Tables, r: Tables, orders: seq<Order>, o: Order, lines: seq<Line>)
    requires HeldOk(t, orders) && Moves(t, r, Hold, lines)
    requires o.lines == lines && ReservationsOk(o, Open)
    ensures HeldOk(r, orders + [o])
  {
    hide Sound;
    assert (orders + [o])[..|orders|] == orders;
    ClaimOf(o, Open, Open);
    forall p: nat ensures r.Bal(p).reserved == HeldTotal(orders + [o], p) {
      assert t.Bal(p).reserved == HeldTotal(orders, p);
    }
  }

  /** The parts of a created sale: the cart held, the new order appended, nothing else. */
  lemma {:induction false} CreatedParts(db: Db, inputs: seq<LineInput>, mode: DeliveryMode, payBy: PaymentMethod, setup: Setup, expiresAt: Time)
    returns (lines: seq<Line>, total: nat)
    requires Sound(db.t) && CreateOrder(db, inputs, mode, payBy, setup, expiresAt).Ok?
    ensures var r := CreateOrder(db, inputs, mode, payBy, setup, expiresAt).value;
            && r.orders == db.orders + [NewOrder(lines, total, mode, payBy, expiresAt)]
            && r.issues == db.issues
            && Moves(db.t, r.t, Hold, lines)
    ensures lines != [] && total == LinesTotal(lines) <= MAX_ORDER_TOTAL
    ensures CleanedAll(db.t.products, inputs, lines)
  {
    CleanLinesMeaning(db.t.products, inputs);
    var clean := NormaliseLines(db.t.products, inputs).value;
    lines, total := clean.0, clean.1;
    CartHolds(db.t, lines);
    hide Sound, Moves, Transact, CleanLines;
  }

  lemma {:induction false} SameOrders(orders: seq<Order>, products: nat, m: seq<Movement>, o: Order)
    requires OrdersOk(orders, products, m) && OrderOk(o, |orders|, products, m)
    ensures OrdersOk(orders + [o], products, m)
  {
    hide OrderOk;
  }

  /** Creating a sale keeps the whole database valid. */
  lemma {:induction false} CreateValid(db: Db, inputs: seq<LineInput>, mode: DeliveryMode, payBy: PaymentMethod, setup: Setup, expiresAt: Time)
    requires Valid(db) && CreateOrder(db, inputs, mode, payBy, setup, expiresAt).Ok?
    ensures Valid(CreateOrder(db, inputs, mode, payBy, setup, expiresAt).value)
  {
    ValidParts(db);
    var lines, total := CreatedParts(db, inputs, mode, payBy, setup, expiresAt);
    var r := CreateOrder(db, inputs, mode, payBy, setup, expiresAt).value;
    var o := NewOrder(lines, total, mode, payBy, expiresAt);
    assert r.t.movements == db.t.movements && r.t.products == db.t.products && Sound(r.t);
    NewOrderOk(lines, total, mode, payBy, expiresAt, |db.orders|, |db.t.products|, db.t.movements);
    assert ReservationsOk(o, Open);
    ValidParts(r);
    hide Valid, Sound, HeldOk, OrdersOk, OrderOk, Moves, CreateOrder, NewOrder, ReservationsOk, LinesTotal;
    AppendHeld(db.t, r.t, db.orders, o, lines);
    SameOrders(db.orders, |db.t.products|, db.t.movements, o);
  }

  // ----- Stock and catalogue commands

  lemma {:induction false} BesideOrders(orders: seq<Order>, t: Tables, r: Tables)
    requires OrdersOk(orders, |t.products|, t.movements) && Beside(t, r)
    ensures OrdersOk(orders, |r.products|, r.movements)
  {
    forall oid: nat | oid < |orders| ensures OrderOk(orders[oid], oid, |r.products|, r.movements) {
      assert GrewElsewhere(t.movements, r.movements, oid) by { hide Sound; }
      hide OrderOk, Beside, GrewElsewhere;
      OrderFrame(orders[oid], oid, |t.products|, |r.products|, t.movements, r.movements);
    }
  }

  lemma {:induction false} BesideHeld(orders: seq<Order>, t: Tables, r: Tables)
    requires HeldOk(t, orders) && Beside(t, r)
    ensures HeldOk(r, orders)
  {
    hide Sound;
    forall p: nat ensures r.Bal(p).reserved == HeldTotal(orders, p) {
      assert t.Bal(p).reserved == HeldTotal(orders, p);
    }
  }

  lemma {:induction false} BesideReferenced(t: Tables, r: Tables, n: nat)
    requires Referenced(t.movements, n) && Beside(t, r)
    ensures Referenced(r.movements, n)
  {
    hide Sound;
  }

  lemma {:induction false} BesideValid(db: Db, r: Tables)
    requires Valid(db) && Beside(db.t, r)
    ensures Valid(db.(t := r))
  {
    ValidParts(db);
    ValidParts(db.(t := r));
    assert Sound(r);
    hide *;
    BesideOrders(db.orders, db.t, r);
    BesideHeld(db.orders, db.t, r);
    BesideReferenced(db.t, r, |db.orders|);
  }

  lemma {:induction false} SameBeside(t: Tables)
    requires Sound(t)
    ensures Beside(t, t)
  {
    hide Sound;
  }

  lemma {:induction false} StockActionBeside(db: Db, a: Action)
    requires Sound(db.t) && Attempt(db, a).Ok?
    requires !a.CreateSale? && !a.ChangeOrder? && !a.ReissueSale?
    ensures var r := Attempt(db, a).value; Beside(db.t, r.t) && r == db.(t := r.t)
  {
    SameBeside(db.t);
    match a {
      case AddProduct(product, initial) => CreateSound(db.t, product, initial);
      case MoveStock(p, kind, quantity) => MovementSound(db.t, p, kind, quantity);
      case Archive(p) => if db.t.products[p].status != Archived { ReplaceSound(db.t, p, db.t.products[p].(status := Archived)); }
      case Unarchive(p) =>
        if db.t.products[p].status == Archived { ReplaceSound(db.t, p, db.t.products[p].(status := CatalogStatus.Active)); }
      case EditProduct(p, name, status, price) =>
        EditSound(db.t, p, db.t.products[p].(name := name, status := status, purchasePrice := price));
      case ShopThreshold(threshold) => ThresholdSound(db.t, threshold);
      case ProductThreshold(p, override) => ReplaceSound(db.t, p, db.t.products[p].(lowStockThreshold := override));
    }
    hide Sound, Beside, Put, Post, SetShopThreshold;
  }

  // ----- Reissuing a sale

  lemma {:induction false} SupersedeSteps(v: Locked, oid: nat, now: Time)
    requires Ready(v, oid) && Supersede(v, now).Ok?
    ensures Steps(v, Supersede(v, now).value, oid)
  {
    var payment := SupersededPayment(v.order.payment);
    var m := CloseSteps(v, oid, now, payment, Cancelled, OrderReissued);
    hide Steps, Ready, ReleaseReservations;
  }

  /** Publishing the replacement touches its header only. */
  lemma {:induction false} PublishValid(db: Db, oid: nat, now: Time)
    requires Valid(db) && oid < |db.orders|
    ensures Valid(db.(orders := db.orders[oid := PublishNew(db.orders[oid], now)]))
  {
    ReadyAt(db, oid);
    var v := LockedAt(db, oid);
    var w := v.(order := PublishNew(v.order, now));
    NotedQuiet(v, v.order.(publishedAt := Some(now)), LinkPublished);
    QuietSteps(v, w, oid);
    CommitValid(db, oid, w);
    hide Valid, Ready, Steps;
  }

  /** The two transactions' worth of work a reissue does in one. */
  lemma {:induction false} ReissueParts(db: Db, oid: nat, setup: Setup, now: Time, ttl: Time) returns (v: Locked, created: Db)
    requires Reissue(db, oid, setup, now, ttl).Ok?
    ensures oid < |db.orders| && Supersede(LockedAt(db, oid), now) == Ok(v)
    ensures CreateOrder(Commit(db, oid, v), InputsOf(db.orders[oid].lines), db.orders[oid].deliveryMode, BankTransfer,
                        setup, now + ttl) == Ok(created)
    ensures created.orders != []
    ensures Reissue(db, oid, setup, now, ttl).value ==
            var last := |created.orders| - 1;
            created.(orders := created.orders[last := PublishNew(created.orders[last], now)])
  {
    v := Supersede(LockedAt(db, oid), now).value;
    created := CreateOrder(Commit(db, oid, v), InputsOf(db.orders[oid].lines), db.orders[oid].deliveryMode, BankTransfer,
                           setup, now + ttl).value;
    hide Supersede, CreateOrder, PublishNew;
  }

  lemma {:induction false} ReissueValid(db: Db, oid: nat, setup: Setup, now: Time, ttl: Time)
    requires Valid(db) && Reissue(db, oid, setup, now, ttl).Ok?
    ensures Valid(Reissue(db, oid, setup, now, ttl).value)
  {
    hide *;
    var v, created := ReissueParts(db, oid, setup, now, ttl);
    ReadyAt(db, oid);
    SupersedeSteps(LockedAt(db, oid), oid, now);
    CommitValid(db, oid, v);
    CreateValid(Commit(db, oid, v), InputsOf(db.orders[oid].lines), db.orders[oid].deliveryMode, BankTransfer, setup, now + ttl);
    PublishValid(created, |created.orders| - 1, now);
  }

  // ----- Every run

  lemma {:induction false} AttemptValid(db: Db, a: Action)
    requires Valid(db) && Attempt(db, a).Ok?
    ensures Valid(Attempt(db, a).value)
  {
    match a {
      case CreateSale(inputs, mode, payBy, setup, expiresAt) => CreateValid(db, inputs, mode, payBy, setup, expiresAt);
      case ChangeOrder(oid, command) => OrderCommandValid(db, oid, command);
      case ReissueSale(oid, setup, now, ttl) => ReissueValid(db, oid, setup, now, ttl);
      case _ =>
        ValidParts(db);
        StockActionBeside(db, a);
        BesideValid(db, Attempt(db, a).value.t);
    }
    hide Valid, Beside, CreateOrder, OnOrder, Reissue, OnTables, SetShopThreshold;
  }

  /** A new shop is valid. */
  lemma {:induction false} EmptyValid(threshold: nat)
    ensures Valid(EmptyShop(threshold))
  {
    var db := EmptyShop(threshold);
    forall p: nat ensures Posted(db.t.movements, p) == 0 && ActiveOf(db.t.alerts, p) == [] && HeldTotal(db.orders, p) == 0 {
    }
  }

  /**
   * Safety over every run: from a valid database any sequence of commands, failing ones
   * included, ends in a valid database.
   */
  lemma {:induction false} RunValid(db: Db, actions: seq<Action>)
    requires Valid(db)
    ensures Valid(Run(db, actions))
  {
    if actions != [] {
      var init := actions[..|actions| - 1];
      RunValid(db, init);
      if Attempt(Run(db, init), actions[|actions| - 1]).Ok? {
        AttemptValid(Run(db, init), actions[|actions| - 1]);
      }
    }
    hide Valid, Attempt;
  }
}
