/** What every reachable database satisfies, stated over all tables together. */
module Invariant {
  import opened Prelude
  import opened Inventory
  import opened Stock
  import opened Orders
  import opened Shop

  // ----- Sums

  /** Units of one product in the reservations of one phase. */
  function QtyIn(rs: seq<Reservation>, phase: Phase, p: nat): nat {
    if rs == [] then 0
    else
      var last := rs[|rs| - 1];
      QtyIn(rs[..|rs| - 1], phase, p) + (if PhaseOf(last) == phase && last.product == p then last.quantity else 0)
  }

  /** Units of one product in an order. */
  function LineQty(lines: seq<Line>, p: nat): nat {
    if lines == [] then 0
    else
      var last := lines[|lines| - 1];
      LineQty(lines[..|lines| - 1], p) + (if last.product == p then last.quantity else 0)
  }

  function LinesTotal(lines: seq<Line>): nat {
    if lines == [] then 0 else LinesTotal(lines[..|lines| - 1]) + lines[|lines| - 1].LineTotal()
  }

  /** Units of one product held by the open reservations of all orders. */
  function HeldTotal(orders: seq<Order>, p: nat): nat {
    if orders == [] then 0
    else HeldTotal(orders[..|orders| - 1], p) + QtyIn(orders[|orders| - 1].reservations, Open, p)
  }

  /** Ledger rows of one product that record the sale of one order. */
  function SaleCount(movements: seq<Movement>, oid: nat, p: nat): nat {
    if movements == [] then 0
    else
      var last := movements[|movements| - 1];
      SaleCount(movements[..|movements| - 1], oid, p)
      + (if last.reference == SaleOf(oid) && last.product == p then 1 else 0)
  }

  // ----- One order

  function PhaseFor(s: Status): Phase {
    match s
    case Paid => Consumed
    case Refunded => Consumed
    case Cancelled => Released
    case Expired => Released
    case _ => Open
  }

  /** A sold line is within the limits that sales are accepted in. */
  predicate LineOk(line: Line, products: nat) {
    0 < line.quantity <= MAX_LINE_QUANTITY && line.unitPrice <= MAX_PRICE && line.product < products
  }

  ghost predicate LinesOk(o: Order, products: nat) {
    && o.lines != []
    && (forall i {:trigger o.lines[i]} :: 0 <= i < |o.lines| ==> LineOk(o.lines[i], products))
    && o.total == LinesTotal(o.lines) <= MAX_ORDER_TOTAL
  }

  /** One reservation per line, all of them in the same phase. */
  ghost predicate ReservationsOk(o: Order, phase: Phase) {
    && |o.reservations| == |o.lines|
    && forall i {:trigger o.reservations[i]} :: 0 <= i < |o.reservations| ==>
         && o.reservations[i].product == o.lines[i].product
         && o.reservations[i].quantity == o.lines[i].quantity
         && PhaseOf(o.reservations[i]) == phase
  }

  /** Row m of the ledger is the exit of the order's whole quantity of one product. */
  predicate IsSaleRow(movements: seq<Movement>, m: nat, oid: nat, p: nat, quantity: int) {
    && m < |movements|
    && movements[m].product == p
    && movements[m].kind == Exit
    && movements[m].quantity == -quantity
    && movements[m].reference == SaleOf(oid)
  }

  /** Sold exactly once, or not at all. */
  ghost predicate SalesOk(o: Order, oid: nat, movements: seq<Movement>, phase: Phase) {
    && (forall p: nat {:trigger SaleCount(movements, oid, p)} ::
          SaleCount(movements, oid, p) == if phase == Consumed && LineQty(o.lines, p) > 0 then 1 else 0)
    && (phase == Consumed ==>
          forall i {:trigger o.reservations[i]} :: 0 <= i < |o.reservations| ==>
            && o.reservations[i].movement.Some?
            && IsSaleRow(movements, o.reservations[i].movement.value, oid, o.reservations[i].product,
                         LineQty(o.lines, o.reservations[i].product)))
  }

  ghost predicate BodyOk(o: Order, oid: nat, products: nat, movements: seq<Movement>, phase: Phase) {
    LinesOk(o, products) && ReservationsOk(o, phase) && SalesOk(o, oid, movements, phase)
  }

  /** The status-bearing entries lead from DRAFT to s along edges of the transition table. */
  predicate Chain(timeline: seq<TimelineEvent>, s: Status) {
    if timeline == [] then s == Draft
    else
      var e := timeline[|timeline| - 1];
      var earlier := timeline[..|timeline| - 1];
      if e.to.None? then Chain(earlier, s)
      else e.to.value == s && e.from.Some? && Edge(e.from.value, s) && Chain(earlier, e.from.value)
  }

  predicate PaymentOk(o: Order) {
    match o.payment
    case None => o.status != PurchaseValidation && o.status != Paid && o.status != Refunded
    case Some(p) =>
      && p.amount == o.total
      && 0 <= p.refundedAmount <= p.amount
      && (o.status == PurchaseValidation ==> p.proof == Some(ProofReady))
      && (p.status == PaymentValidation ==> o.status == PurchaseValidation)
      && (p.status == PaymentCancelled ==> o.status == Cancelled || o.status == Expired)
      && (p.status == PaymentApproved ==> o.status == Paid)
      && (p.status == PaymentRefunded ==> o.status == Refunded)
  }

  predicate HeaderOk(o: Order) {
    && o.status != Draft && Chain(o.timeline, o.status) && PaymentOk(o)
    && (o.status == Paid || o.status == Refunded ==> o.paidAt.Some?)
  }

  ghost predicate OrderOk(o: Order, oid: nat, products: nat, movements: seq<Movement>) {
    HeaderOk(o) && BodyOk(o, oid, products, movements, PhaseFor(o.status))
  }

  // ----- The database

  ghost predicate Valid(db: Db) {
    && Sound(db.t)
    && (forall p: nat {:trigger HeldTotal(db.orders, p)} :: db.t.Bal(p).reserved == HeldTotal(db.orders, p))
    && (forall oid: nat {:trigger db.orders[oid]} :: oid < |db.orders| ==>
          OrderOk(db.orders[oid], oid, |db.t.products|, db.t.movements))
    && (forall i {:trigger db.t.movements[i]} :: 0 <= i < |db.t.movements| && db.t.movements[i].reference.SaleOf? ==>
          db.t.movements[i].reference.order < |db.orders|)
  }

  // ----- Facts about the sums

  lemma {:induction false} DemandOfPhase(rs: seq<Reservation>, phase: Phase, p: nat)
    ensures Demand(RequestsOf(rs, phase), p) == QtyIn(rs, phase, p)
  {
    if rs != [] {
      var init := rs[..|rs| - 1];
      var last := rs[|rs| - 1];
      DemandOfPhase(init, phase, p);
      var rq := RequestsOf(init, phase);
      if PhaseOf(last) == phase {
        assert (rq + [Request(last.product, last.quantity)])[..|rq|] == rq;
      } else {
        assert RequestsOf(rs, phase) == rq;
      }
    }
  }

  lemma {:induction false} DemandOfLines(lines: seq<Line>, p: nat)
    ensures Demand(LineRequests(lines), p) == LineQty(lines, p)
  {
    if lines != [] {
      DemandOfLines(lines[..|lines| - 1], p);
      assert LineRequests(lines)[..|lines| - 1] == LineRequests(lines[..|lines| - 1]);
    }
  }

  /** Reservations in one phase claim exactly what the lines ask, and nothing in the other phases. */
  lemma {:induction false} QtyOfPhase(rs: seq<Reservation>, lines: seq<Line>, phase: Phase, other: Phase, p: nat)
    requires |rs| == |lines|
    requires forall i {:trigger rs[i]} :: 0 <= i < |rs| ==>
               rs[i].product == lines[i].product && rs[i].quantity == lines[i].quantity && PhaseOf(rs[i]) == phase
    ensures QtyIn(rs, other, p) == if other == phase then LineQty(lines, p) else 0
  {
    if rs != [] {
      var init := rs[..|rs| - 1];
      assert forall i {:trigger init[i]} :: 0 <= i < |init| ==> init[i] == rs[i];
      QtyOfPhase(init, lines[..|lines| - 1], phase, other, p);
      assert rs[|rs| - 1].product == lines[|lines| - 1].product;
    }
  }

  lemma {:induction false} RequestsMeaning(rs: seq<Reservation>, phase: Phase)
    ensures RequestsOf(rs, phase) != [] <==> Has(rs, phase)
    ensures forall r :: r in RequestsOf(rs, phase) ==>
              exists i :: 0 <= i < |rs| && PhaseOf(rs[i]) == phase && r == Request(rs[i].product, rs[i].quantity)
    ensures forall i :: 0 <= i < |rs| && PhaseOf(rs[i]) == phase ==>
              Request(rs[i].product, rs[i].quantity) in RequestsOf(rs, phase)
  {
    if rs != [] {
      var init := rs[..|rs| - 1];
      var last := rs[|rs| - 1];
      RequestsMeaning(init, phase);
      assert forall i :: 0 <= i < |init| ==> init[i] == rs[i];
      if Has(init, phase) {
        var i :| 0 <= i < |init| && PhaseOf(init[i]) == phase;
        assert PhaseOf(rs[i]) == phase;
      }
      forall r | r in RequestsOf(rs, phase)
        ensures exists i :: 0 <= i < |rs| && PhaseOf(rs[i]) == phase && r == Request(rs[i].product, rs[i].quantity)
      {
        if r in RequestsOf(init, phase) {
          var i :| 0 <= i < |init| && PhaseOf(init[i]) == phase && r == Request(init[i].product, init[i].quantity);
          assert PhaseOf(rs[i]) == phase && r == Request(rs[i].product, rs[i].quantity);
        }
      }
    }
  }

  lemma {:induction false} LineQtyPositive(lines: seq<Line>, i: nat)
    requires i < |lines| && lines[i].quantity > 0
    ensures LineQty(lines, lines[i].product) > 0
  {
    if i < |lines| - 1 {
      LineQtyPositive(lines[..|lines| - 1], i);
    }
  }

  lemma {:induction false} LineQtyOccurs(lines: seq<Line>, p: nat)
    requires LineQty(lines, p) > 0
    ensures exists i :: 0 <= i < |lines| && lines[i].product == p
  {
    var last := |lines| - 1;
    if lines[last].product != p {
      LineQtyOccurs(lines[..last], p);
      var i :| 0 <= i < last && lines[..last][i].product == p;
      assert lines[i].product == p;
    }
  }

  /** Replacing one order moves the total by that order's own share. */
  lemma {:induction false} HeldReplace(orders: seq<Order>, oid: nat, o: Order, p: nat)
    requires oid < |orders|
    ensures HeldTotal(orders[oid := o], p) ==
            HeldTotal(orders, p) - QtyIn(orders[oid].reservations, Open, p) + QtyIn(o.reservations, Open, p)
  {
    var last := |orders| - 1;
    if oid < last {
      HeldReplace(orders[..last], oid, o, p);
      assert orders[oid := o][..last] == orders[..last][oid := o];
    } else {
      assert orders[oid := o][..last] == orders[..last];
    }
  }

  lemma {:induction false} HeldShare(orders: seq<Order>, oid: nat, p: nat)
    requires oid < |orders|
    ensures HeldTotal(orders, p) >= QtyIn(orders[oid].reservations, Open, p)
  {
    if oid < |orders| - 1 {
      HeldShare(orders[..|orders| - 1], oid, p);
    }
  }

  lemma {:induction false} SaleCountAppend(movements: seq<Movement>, more: seq<Movement>, oid: nat, p: nat)
    ensures SaleCount(movements + more, oid, p) == SaleCount(movements, oid, p) + SaleCount(more, oid, p)
  {
    if more == [] {
      assert movements + more == movements;
    } else {
      var init := more[..|more| - 1];
      SaleCountAppend(movements, init, oid, p);
      assert (movements + more)[..|movements + more| - 1] == movements + init;
    }
  }

  lemma {:induction false} SaleCountForeign(movements: seq<Movement>, oid: nat, p: nat)
    requires forall i {:trigger movements[i]} :: 0 <= i < |movements| ==> movements[i].reference != SaleOf(oid)
    ensures SaleCount(movements, oid, p) == 0
  {
    if movements != [] {
      var init := movements[..|movements| - 1];
      assert forall i {:trigger init[i]} :: 0 <= i < |init| ==> init[i] == movements[i];
      SaleCountForeign(init, oid, p);
    }
  }

  /** The rows of one sale: one per listed product, none for the others. */
  lemma {:induction false} SaleCountOfSale(t: Tables, oid: nat, ids: seq<nat>, q: map<nat, int>, p: nat)
    requires StrictlyAscending(ids)
    requires forall x :: x in ids ==> x in q
    ensures SaleCount(SaleRows(t, Sell(oid), ids, q), oid, p) == if p in ids then 1 else 0
  {
    if ids != [] {
      AscendingPrefix(ids);
      var init := ids[..|ids| - 1];
      SaleCountOfSale(t, oid, init, q, p);
      var rows := SaleRows(t, Sell(oid), init, q);
      var row := SaleRow(t, oid, ids[|ids| - 1], q[ids[|ids| - 1]]);
      assert (rows + [row])[..|rows|] == rows;
    }
  }
}
