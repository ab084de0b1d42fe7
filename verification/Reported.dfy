/** What the sales balance reports, against the ledger and the orders. */
module Reported {
  import opened Inventory
  import opened Stock
  import opened Orders
  import opened Shop
  import opened Invariant
  import opened Breakdown

  /** Units of a product in the recognised lines. */
  function UnitsReported(metrics: seq<Metric>, p: nat): int {
    if metrics == [] then 0
    else
      var last := metrics[|metrics| - 1];
      UnitsReported(metrics[..|metrics| - 1], p) + (if last.facts.product == p then last.quantity else 0)
  }

  /** Units of a product that the ledger books out for sales of any order. */
  function UnitsOut(movements: seq<Movement>, p: nat): int {
    if movements == [] then 0
    else
      var last := movements[|movements| - 1];
      UnitsOut(movements[..|movements| - 1], p) + (if last.reference.SaleOf? && last.product == p then -last.quantity else 0)
  }

  function UnitsOutFor(movements: seq<Movement>, oid: nat, p: nat): int {
    if movements == [] then 0
    else
      var last := movements[|movements| - 1];
      UnitsOutFor(movements[..|movements| - 1], oid, p)
      + (if last.reference == SaleOf(oid) && last.product == p then -last.quantity else 0)
  }

  /** The same, for the first n orders. */
  function UnitsOutUpTo(movements: seq<Movement>, n: nat, p: nat): int {
    if n == 0 then 0 else UnitsOutUpTo(movements, n - 1, p) + UnitsOutFor(movements, n - 1, p)
  }

  lemma {:induction false} NoRowNoUnits(movements: seq<Movement>, oid: nat, p: nat)
    requires SaleCount(movements, oid, p) == 0
    ensures UnitsOutFor(movements, oid, p) == 0
  {
    if movements != [] {
      NoRowNoUnits(movements[..|movements| - 1], oid, p);
    }
  }

  lemma {:induction false} CountsRow(movements: seq<Movement>, i: nat, oid: nat, p: nat)
    requires i < |movements| && movements[i].reference == SaleOf(oid) && movements[i].product == p
    ensures SaleCount(movements, oid, p) >= 1
  {
    if i < |movements| - 1 {
      CountsRow(movements[..|movements| - 1], i, oid, p);
    }
  }

  lemma {:induction false} OneRowItsUnits(movements: seq<Movement>, i: nat, oid: nat, p: nat, quantity: int)
    requires SaleCount(movements, oid, p) == 1 && IsSaleRow(movements, i, oid, p, quantity)
    ensures UnitsOutFor(movements, oid, p) == quantity
  {
    var init := movements[..|movements| - 1];
    if i < |init| {
      assert IsSaleRow(init, i, oid, p, quantity);
      CountsRow(init, i, oid, p);
      OneRowItsUnits(init, i, oid, p, quantity);
    } else {
      NoRowNoUnits(init, oid, p);
    }
  }

  lemma {:induction false} UpToMore(movements: seq<Movement>, m: Movement, n: nat, p: nat)
    ensures UnitsOutUpTo(movements + [m], n, p) == UnitsOutUpTo(movements, n, p)
            + if m.reference.SaleOf? && m.reference.order < n && m.product == p then -m.quantity else 0
  {
    if n > 0 {
      UpToMore(movements, m, n - 1, p);
      assert (movements + [m])[..|movements|] == movements;
    }
  }

  lemma {:induction false} NothingOut(n: nat, p: nat)
    ensures UnitsOutUpTo([], n, p) == 0
  {
    if n > 0 {
      NothingOut(n - 1, p);
    }
  }

  lemma {:induction false} OutIsUpTo(movements: seq<Movement>, n: nat, p: nat)
    requires forall i {:trigger movements[i]} :: 0 <= i < |movements| && movements[i].reference.SaleOf? ==> movements[i].reference.order < n
    ensures UnitsOut(movements, p) == UnitsOutUpTo(movements, n, p)
  {
    if movements == [] {
      NothingOut(n, p);
    } else {
      var init, last := movements[..|movements| - 1], movements[|movements| - 1];
      assert movements == init + [last];
      OutIsUpTo(init, n, p);
      UpToMore(init, last, n, p);
      hide UnitsOutUpTo;
    }
  }

  /** One order's sale rows: its lines if it was sold, and nothing otherwise. */
  lemma {:induction false} OrderUnits(db: Db, k: nat, p: nat)
    requires Valid(db) && k < |db.orders|
    ensures UnitsOutFor(db.t.movements, k, p) == if IsRecognised(db.orders[k]) then LineQty(db.orders[k].lines, p) else 0
  {
    var o := db.orders[k];
    assert OrderOk(o, k, |db.t.products|, db.t.movements);
    hide Sound, Valid, Chain, LinesOk, LineQty, SaleCount, UnitsOutFor, IsSaleRow;
    assert SaleCount(db.t.movements, k, p) == if PhaseFor(o.status) == Consumed && LineQty(o.lines, p) > 0 then 1 else 0;
    if PhaseFor(o.status) == Consumed && LineQty(o.lines, p) > 0 {
      LineQtyOccurs(o.lines, p);
      var i :| 0 <= i < |o.lines| && o.lines[i].product == p;
      assert o.reservations[i].product == p;
      OneRowItsUnits(db.t.movements, o.reservations[i].movement.value, k, p, LineQty(o.lines, p));
    } else {
      NoRowNoUnits(db.t.movements, k, p);
    }
  }

  lemma {:induction false} ReportedJoin(a: seq<Metric>, b: seq<Metric>, p: nat)
    ensures UnitsReported(a + b, p) == UnitsReported(a, p) + UnitsReported(b, p)
  {
    if b == [] {
      assert a + b == a;
    } else {
      ReportedJoin(a, b[..|b| - 1], p);
      assert (a + b)[..|a + b| - 1] == a + b[..|b| - 1];
    }
  }

  lemma {:induction false} ReportedLines(metrics: seq<Metric>, lines: seq<Line>, p: nat)
    requires |metrics| == |lines|
    requires forall i {:trigger metrics[i]} :: 0 <= i < |metrics| ==>
               metrics[i].facts.product == lines[i].product && metrics[i].quantity == lines[i].quantity
    ensures UnitsReported(metrics, p) == LineQty(lines, p)
  {
    if metrics != [] {
      var n := |metrics| - 1;
      assert forall i {:trigger metrics[..n][i]} :: 0 <= i < n ==> metrics[..n][i] == metrics[i];
      ReportedLines(metrics[..n], lines[..n], p);
      assert metrics[n].facts.product == lines[n].product;
    }
  }

  lemma {:induction false} ReportedUpTo(db: Db, labels: Labels, n: nat, p: nat)
    requires Valid(db) && n <= |db.orders|
    ensures UnitsReported(ShopMetrics(db.orders[..n], labels), p) == UnitsOutUpTo(db.t.movements, n, p)
  {
    hide Valid, UnitsOutFor;
    if n > 0 {
      var o := db.orders[n - 1];
      ReportedUpTo(db, labels, n - 1, p);
      OrderUnits(db, n - 1, p);
      assert db.orders[..n][..n - 1] == db.orders[..n - 1];
      var earlier := ShopMetrics(db.orders[..n - 1], labels);
      if IsRecognised(o) {
        var m := OrderMetrics(o, labels.day(o.paidAt.value), labels.names);
        ReportedLines(m, o.lines, p);
        ReportedJoin(earlier, m, p);
      } else {
        assert earlier + [] == earlier;
      }
      hide UnitsReported, LineQty, OrderMetrics;
    }
  }

  /** In a valid shop the balance reports, for every product, exactly the units that the ledger booked out for sales. */
  lemma {:induction false} UnitsAgree(db: Db, labels: Labels, p: nat)
    requires Valid(db)
    ensures UnitsReported(ShopMetrics(db.orders, labels), p) == UnitsOut(db.t.movements, p)
  {
    ReportedUpTo(db, labels, |db.orders|, p);
    assert db.orders[..|db.orders|] == db.orders;
    OutIsUpTo(db.t.movements, |db.orders|, p);
    hide UnitsReported, UnitsOut, UnitsOutUpTo, ShopMetrics;
  }

  // ----- Money by payment method and status

  function GrossBy(metrics: seq<Metric>, payBy: PaymentMethod, status: Status): nat {
    if metrics == [] then 0
    else
      var last := metrics[|metrics| - 1];
      GrossBy(metrics[..|metrics| - 1], payBy, status)
      + (if last.facts.payBy == payBy && last.facts.status == status then last.gross else 0)
  }

  function OwedBy(open: seq<OpenLine>, payBy: PaymentMethod, status: Status): nat {
    if open == [] then 0
    else
      var last := open[|open| - 1];
      OwedBy(open[..|open| - 1], payBy, status)
      + (if last.facts.payBy == payBy && last.facts.status == status then last.total else 0)
  }

  /** The totals of the orders that have one payment method and one status. */
  function TotalBy(orders: seq<Order>, payBy: PaymentMethod, status: Status): nat {
    if orders == [] then 0
    else
      var o := orders[|orders| - 1];
      TotalBy(orders[..|orders| - 1], payBy, status) + (if o.paymentMethod == payBy && o.status == status then o.total else 0)
  }

  lemma {:induction false} GrossJoin(a: seq<Metric>, b: seq<Metric>, payBy: PaymentMethod, status: Status)
    ensures GrossBy(a + b, payBy, status) == GrossBy(a, payBy, status) + GrossBy(b, payBy, status)
  {
    if b == [] {
      assert a + b == a;
    } else {
      GrossJoin(a, b[..|b| - 1], payBy, status);
      assert (a + b)[..|a + b| - 1] == a + b[..|b| - 1];
    }
  }

  lemma {:induction false} OwedJoin(a: seq<OpenLine>, b: seq<OpenLine>, payBy: PaymentMethod, status: Status)
    ensures OwedBy(a + b, payBy, status) == OwedBy(a, payBy, status) + OwedBy(b, payBy, status)
  {
    if b == [] {
      assert a + b == a;
    } else {
      OwedJoin(a, b[..|b| - 1], payBy, status);
      assert (a + b)[..|a + b| - 1] == a + b[..|b| - 1];
    }
  }

  lemma {:induction false} GrossOfLines(metrics: seq<Metric>, lines: seq<Line>, had: (PaymentMethod, Status), payBy: PaymentMethod, status: Status)
    requires |metrics| == |lines|
    requires forall i {:trigger metrics[i]} :: 0 <= i < |metrics| ==>
               metrics[i].gross == lines[i].LineTotal() && (metrics[i].facts.payBy, metrics[i].facts.status) == had
    ensures GrossBy(metrics, payBy, status) == if had == (payBy, status) then LinesTotal(lines) else 0
  {
    hide Line.LineTotal;
    if metrics != [] {
      var n := |metrics| - 1;
      assert forall i {:trigger metrics[..n][i]} :: 0 <= i < n ==> metrics[..n][i] == metrics[i] && lines[..n][i] == lines[i];
      GrossOfLines(metrics[..n], lines[..n], had, payBy, status);
      assert metrics[n].gross == lines[n].LineTotal();
    }
  }

  lemma {:induction false} OwedOfLines(open: seq<OpenLine>, lines: seq<Line>, had: (PaymentMethod, Status), payBy: PaymentMethod, status: Status)
    requires |open| == |lines|
    requires forall i {:trigger open[i]} :: 0 <= i < |open| ==>
               open[i].total == lines[i].LineTotal() && (open[i].facts.payBy, open[i].facts.status) == had
    ensures OwedBy(open, payBy, status) == if had == (payBy, status) then LinesTotal(lines) else 0
  {
    hide Line.LineTotal;
    if open != [] {
      var n := |open| - 1;
      assert forall i {:trigger open[..n][i]} :: 0 <= i < n ==> open[..n][i] == open[i] && lines[..n][i] == lines[i];
      OwedOfLines(open[..n], lines[..n], had, payBy, status);
      assert open[n].total == lines[n].LineTotal();
    }
  }

  lemma {:induction false} GrossOfOrder(o: Order, period: Date, names: nat -> string, payBy: PaymentMethod, status: Status)
    ensures GrossBy(OrderMetrics(o, period, names), payBy, status) ==
            if (o.paymentMethod, o.status) == (payBy, status) then LinesTotal(o.lines) else 0
  {
    GrossOfLines(OrderMetrics(o, period, names), o.lines, (o.paymentMethod, o.status), payBy, status);
    hide GrossBy, LinesTotal;
  }

  lemma {:induction false} OwedOfOrder(o: Order, labels: Labels, payBy: PaymentMethod, status: Status)
    ensures OwedBy(OrderOpenLines(o, labels), payBy, status) ==
            if (o.paymentMethod, o.status) == (payBy, status) then LinesTotal(o.lines) else 0
  {
    OwedOfLines(OrderOpenLines(o, labels), o.lines, (o.paymentMethod, o.status), payBy, status);
    hide OwedBy, LinesTotal;
  }

  /** What one more order adds to the lines and to the totals. */
  lemma {:induction false} OneMoreSold(orders: seq<Order>, labels: Labels, payBy: PaymentMethod, status: Status) returns (more: seq<Metric>)
    requires orders != [] && Countable(orders[|orders| - 1]) && (status == Paid || status == Refunded)
    ensures ShopMetrics(orders, labels) == ShopMetrics(orders[..|orders| - 1], labels) + more
    ensures TotalBy(orders, payBy, status) == TotalBy(orders[..|orders| - 1], payBy, status) + GrossBy(more, payBy, status)
  {
    hide GrossBy, LinesTotal, OrderMetrics;
    var o := orders[|orders| - 1];
    if IsRecognised(o) {
      more := OrderMetrics(o, labels.day(o.paidAt.value), labels.names);
      GrossOfOrder(o, labels.day(o.paidAt.value), labels.names, payBy, status);
    } else {
      more := [];
      NoGross(payBy, status);
    }
  }

  lemma {:induction false} NoGross(payBy: PaymentMethod, status: Status)
    ensures GrossBy([], payBy, status) == 0 && OwedBy([], payBy, status) == 0
  {
  }

  lemma {:induction false} OneMoreOpen(orders: seq<Order>, labels: Labels, payBy: PaymentMethod, status: Status) returns (more: seq<OpenLine>)
    requires orders != [] && Countable(orders[|orders| - 1]) && IsActive(status)
    ensures ShopOpenLines(orders, labels) == ShopOpenLines(orders[..|orders| - 1], labels) + more
    ensures TotalBy(orders, payBy, status) == TotalBy(orders[..|orders| - 1], payBy, status) + OwedBy(more, payBy, status)
  {
    hide OwedBy, LinesTotal, OrderOpenLines;
    var o := orders[|orders| - 1];
    if IsActive(o.status) {
      more := OrderOpenLines(o, labels);
      OwedOfOrder(o, labels, payBy, status);
    } else {
      more := [];
      NoGross(payBy, status);
    }
  }

  lemma {:induction false} GrossOfAll(orders: seq<Order>, labels: Labels, payBy: PaymentMethod, status: Status)
    requires forall k {:trigger orders[k]} :: 0 <= k < |orders| ==> Countable(orders[k])
    requires status == Paid || status == Refunded
    ensures GrossBy(ShopMetrics(orders, labels), payBy, status) == TotalBy(orders, payBy, status)
  {
    if orders != [] {
      hide *;
      var init := orders[..|orders| - 1];
      assert forall k {:trigger init[k]} :: 0 <= k < |init| ==> init[k] == orders[k];
      GrossOfAll(init, labels, payBy, status);
      var more := OneMoreSold(orders, labels, payBy, status);
      GrossJoin(ShopMetrics(init, labels), more, payBy, status);
    }
  }

  lemma {:induction false} OwedOfAll(orders: seq<Order>, labels: Labels, payBy: PaymentMethod, status: Status)
    requires forall k {:trigger orders[k]} :: 0 <= k < |orders| ==> Countable(orders[k])
    requires IsActive(status)
    ensures OwedBy(ShopOpenLines(orders, labels), payBy, status) == TotalBy(orders, payBy, status)
  {
    if orders != [] {
      hide *;
      var init := orders[..|orders| - 1];
      assert forall k {:trigger init[k]} :: 0 <= k < |init| ==> init[k] == orders[k];
      OwedOfAll(init, labels, payBy, status);
      var more := OneMoreOpen(orders, labels, payBy, status);
      OwedJoin(ShopOpenLines(init, labels), more, payBy, status);
    }
  }

  /** In a valid shop the lines of one payment method and status, sold or open, are worth the totals of the orders that have them. */
  lemma {:induction false} MoneyAgrees(db: Db, labels: Labels, payBy: PaymentMethod, status: Status)
    requires Valid(db)
    ensures status == Paid || status == Refunded ==>
              GrossBy(ShopMetrics(db.orders, labels), payBy, status) == TotalBy(db.orders, payBy, status)
    ensures IsActive(status) ==> OwedBy(ShopOpenLines(db.orders, labels), payBy, status) == TotalBy(db.orders, payBy, status)
  {
    hide Valid, Countable, GrossBy, OwedBy, TotalBy, ShopMetrics, ShopOpenLines;
    forall k {:trigger db.orders[k]} | 0 <= k < |db.orders| ensures Countable(db.orders[k]) {
      ValidCountable(db, k);
    }
    if IsActive(status) {
      OwedOfAll(db.orders, labels, payBy, status);
    } else if status == Paid || status == Refunded {
      GrossOfAll(db.orders, labels, payBy, status);
    }
  }

  lemma {:induction false} MetricIs(o: Order, period: Date, names: nat -> string, j: nat)
    requires j < |o.lines|
    ensures var m, line := OrderMetrics(o, period, names)[j], o.lines[j];
            && m.facts == Facts(period, line.product, names(line.product), o.paymentMethod, o.status)
            && m.quantity == line.quantity && m.gross == line.quantity * line.unitPrice && m.unitCost == line.unitCost
  {
    hide Refunds.Allocation, Prices;
  }

  /** Every recognised line is a line of a paid or refunded order, dated by its payment, with that line's product, quantity, price and cost. */
  lemma {:induction false} LineHasOrder(orders: seq<Order>, labels: Labels, i: nat) returns (k: nat, j: nat)
    requires i < |ShopMetrics(orders, labels)|
    ensures k < |orders| && j < |orders[k].lines| && orders[k].paidAt.Some? && (orders[k].status == Paid || orders[k].status == Refunded)
    ensures var m, o, line := ShopMetrics(orders, labels)[i], orders[k], orders[k].lines[j];
            && m.facts == Facts(labels.day(o.paidAt.value), line.product, labels.names(line.product), o.paymentMethod, o.status)
            && m.quantity == line.quantity && m.gross == line.quantity * line.unitPrice && m.unitCost == line.unitCost
  {
    var init, o := orders[..|orders| - 1], orders[|orders| - 1];
    var earlier := |ShopMetrics(init, labels)|;
    if i < earlier {
      k, j := LineHasOrder(init, labels, i);
    } else {
      k, j := |init|, i - earlier;
      MetricIs(o, labels.day(o.paidAt.value), labels.names, j);
    }
    hide OrderMetrics;
  }

  /** Every open line is a line of an active order, dated by its creation. */
  lemma {:induction false} OpenLineHasOrder(orders: seq<Order>, labels: Labels, i: nat) returns (k: nat, j: nat)
    requires i < |ShopOpenLines(orders, labels)|
    ensures k < |orders| && j < |orders[k].lines| && IsActive(orders[k].status)
    ensures var p, o, line := ShopOpenLines(orders, labels)[i], orders[k], orders[k].lines[j];
            && p.facts == Facts(labels.created(o), line.product, labels.names(line.product), o.paymentMethod, o.status)
            && p.total == line.quantity * line.unitPrice
  {
    var init, o := orders[..|orders| - 1], orders[|orders| - 1];
    var earlier := |ShopOpenLines(init, labels)|;
    if i < earlier {
      k, j := OpenLineHasOrder(init, labels, i);
    } else {
      k, j := |init|, i - earlier;
    }
  }
}
