/** Every command on one order keeps the invariant, and its stock guards never fire. */
module Preserve {
  import opened Prelude
  import opened Inventory
  import opened Stock
  import opened Orders
  import opened Invariant

  /** What a valid database says about the rows one command locks. */
  ghost predicate Ready(v: Locked, oid: nat) {
    && Sound(v.t)
    && OrderOk(v.order, oid, |v.t.products|, v.t.movements)
    && forall p: nat {:trigger v.t.Bal(p)} :: v.t.Bal(p).reserved >= QtyIn(v.order.reservations, Open, p)
  }

  /** Only this order's claim on each balance moves, and only rows of its sale are appended. */
  ghost predicate StockStep(v: Locked, w: Locked, oid: nat) {
    && Sound(w.t)
    && w.t.products == v.t.products
    && (forall p: nat {:trigger w.t.Bal(p)} ::
          w.t.Bal(p).reserved - QtyIn(w.order.reservations, Open, p)
          == v.t.Bal(p).reserved - QtyIn(v.order.reservations, Open, p))
    && |v.t.movements| <= |w.t.movements|
    && (forall i {:trigger w.t.movements[i]} :: 0 <= i < |v.t.movements| ==> w.t.movements[i] == v.t.movements[i])
    && (forall i {:trigger w.t.movements[i]} :: |v.t.movements| <= i < |w.t.movements| ==>
          w.t.movements[i].reference == SaleOf(oid))
  }

  ghost predicate Steps(v: Locked, w: Locked, oid: nat) {
    StockStep(v, w, oid) && OrderOk(w.order, oid, |w.t.products|, w.t.movements)
  }

  /** The reservation rows of an order's body moved to another phase, stock included. */
  ghost predicate Rephased(v: Locked, w: Locked, oid: nat, phase: Phase) {
    && StockStep(v, w, oid)
    && w.issues == v.issues
    && w.order == v.order.(reservations := w.order.reservations)
    && BodyOk(w.order, oid, |w.t.products|, w.t.movements, phase)
  }

  predicate OnlyRows(o: Order, r: Order) {
    r == o.(reservations := r.reservations)
  }

  /** The three reservation steps write reservation rows only. */
  lemma {:induction false} RowStepsKeep(v: Locked, oid: nat, now: Time)
    ensures ReleaseReservations(v, now).Ok? ==> OnlyRows(v.order, ReleaseReservations(v, now).value.order)
    ensures ConsumeReservations(v, oid, now).Ok? ==> OnlyRows(v.order, ConsumeReservations(v, oid, now).value.0.order)
    ensures ReopenReservations(v, now).Ok? ==> OnlyRows(v.order, ReopenReservations(v, now).value.order)
  {
    hide Transact, RequestsOf, Has;
  }

  lemma {:induction false} ClaimOf(o: Order, phase: Phase, other: Phase)
    requires ReservationsOk(o, phase)
    ensures forall p: nat :: QtyIn(o.reservations, other, p) == if other == phase then LineQty(o.lines, p) else 0
  {
    forall p: nat
      ensures QtyIn(o.reservations, other, p) == if other == phase then LineQty(o.lines, p) else 0
    {
      QtyOfPhase(o.reservations, o.lines, phase, other, p);
    }
  }

  /** The cart an order's rows in their one phase make: well formed, and its totals are the lines' totals. */
  lemma {:induction false} CartOf(o: Order, products: nat, phase: Phase)
    requires LinesOk(o, products) && ReservationsOk(o, phase)
    ensures Has(o.reservations, phase) && RequestsOf(o.reservations, phase) != []
    ensures forall r :: r in RequestsOf(o.reservations, phase) ==> r.product < products && r.quantity > 0
    ensures forall p: nat :: Demand(RequestsOf(o.reservations, phase), p) == LineQty(o.lines, p)
    ensures forall i :: 0 <= i < |o.reservations| ==>
              o.reservations[i].product in Requested(RequestsOf(o.reservations, phase))
  {
    var rs := o.reservations;
    RequestsMeaning(rs, phase);
    assert PhaseOf(rs[0]) == phase;
    ClaimOf(o, phase, phase);
    forall p: nat ensures Demand(RequestsOf(rs, phase), p) == LineQty(o.lines, p) {
      DemandOfPhase(rs, phase, p);
    }
    forall i | 0 <= i < |rs| ensures rs[i].product in Requested(RequestsOf(rs, phase)) {
      assert Request(rs[i].product, rs[i].quantity) in RequestsOf(rs, phase);
    }
  }

  /** The stock effect of moving a whole order from one phase to another. */
  ghost predicate Moves(t: Tables, r: Tables, op: Op, lines: seq<Line>) {
    && Sound(r)
    && r.products == t.products
    && (forall p: nat {:trigger r.Bal(p)} ::
          r.Bal(p).reserved == t.Bal(p).reserved + SignedReserved(op, LineQty(lines, p)))
    && (!op.Sell? ==> r.movements == t.movements)
  }

  /** Whether every balance allows the order's total of its product. */
  ghost predicate AllowsOrder(t: Tables, op: Op, lines: seq<Line>) {
    forall p: nat {:trigger t.Bal(p)} :: LineQty(lines, p) > 0 ==> Allowed(op, t.Bal(p), LineQty(lines, p))
  }

  lemma {:induction false} CartAcceptable(t: Tables, op: Op, lines: seq<Line>, requests: seq<Request>)
    requires requests != [] && forall r :: r in requests ==> r.product < |t.products| && r.quantity > 0
    requires forall p: nat :: Demand(requests, p) == LineQty(lines, p)
    ensures Acceptable(t, op, requests) <==> AllowsOrder(t, op, lines)
  {
    forall p: nat ensures LineQty(lines, p) > 0 <==> p in Requested(requests) {
      DemandSign(requests, p);
    }
    hide Allowed;
  }

  lemma {:induction false} CartMovedBy(t: Tables, r: Tables, op: Op, lines: seq<Line>, requests: seq<Request>)
    requires MovedBy(t, r, op, requests)
    requires forall p: nat :: Demand(requests, p) == LineQty(lines, p)
    ensures Moves(t, r, op, lines)
  {
    hide Sound;
    assert !op.Sell? ==> SaleRows(t, op, Ascending(Requested(requests)), Totals(requests)) == [];
  }

  /** The stock step of a whole order: accepted exactly when every total is allowed, and then exact. */
  lemma {:induction false} CartMoves(t: Tables, op: Op, o: Order, phase: Phase)
    requires Sound(t) && LinesOk(o, |t.products|) && ReservationsOk(o, phase)
    ensures Has(o.reservations, phase)
    ensures Transact(t, op, RequestsOf(o.reservations, phase)).Ok? <==> AllowsOrder(t, op, o.lines)
    ensures Transact(t, op, RequestsOf(o.reservations, phase)).Ok? ==>
              Moves(t, Transact(t, op, RequestsOf(o.reservations, phase)).value, op, o.lines)
  {
    var requests := RequestsOf(o.reservations, phase);
    CartOf(o, |t.products|, phase);
    hide *;
    TransactEffect(t, op, requests);
    CartAcceptable(t, op, o.lines, requests);
    if Transact(t, op, requests).Ok? {
      CartMovedBy(t, Transact(t, op, requests).value, op, o.lines, requests);
    }
  }

  /** With an unchanged ledger, rows that are not consumed stay unsold. */
  lemma {:induction false} UnsoldBody(o: Order, r: Order, oid: nat, products: nat, movements: seq<Movement>, from: Phase, to: Phase)
    requires BodyOk(o, oid, products, movements, from) && from != Consumed && to != Consumed
    requires r.lines == o.lines && r.total == o.total && ReservationsOk(r, to)
    ensures BodyOk(r, oid, products, movements, to)
  {
  }

  predicate OpPhases(op: Op, from: Phase, to: Phase) {
    match op
    case Hold => from == Released && to == Open
    case Free => from == Open && to == Released
    case Sell(_) => from == Open && to == Consumed
  }

  /** The balance moves by what the order's own open claim moves. */
  lemma {:induction false} MovesClaim(v: Locked, w: Locked, op: Op, from: Phase, to: Phase)
    requires ReservationsOk(v.order, from) && ReservationsOk(w.order, to) && OpPhases(op, from, to)
    requires w.order.lines == v.order.lines && Moves(v.t, w.t, op, v.order.lines)
    ensures forall p: nat {:trigger w.t.Bal(p)} ::
              w.t.Bal(p).reserved - QtyIn(w.order.reservations, Open, p)
              == v.t.Bal(p).reserved - QtyIn(v.order.reservations, Open, p)
  {
    ClaimOf(v.order, from, Open);
    ClaimOf(w.order, to, Open);
  }

  /** Releases and holds move the phase and leave the ledger alone. */
  lemma {:induction false} UnsoldStep(v: Locked, w: Locked, oid: nat, op: Op, from: Phase, to: Phase)
    requires BodyOk(v.order, oid, |v.t.products|, v.t.movements, from)
    requires OpPhases(op, from, to) && !op.Sell? && ReservationsOk(w.order, to)
    requires w.order == v.order.(reservations := w.order.reservations) && w.issues == v.issues
    requires Moves(v.t, w.t, op, v.order.lines)
    ensures Rephased(v, w, oid, to)
  {
    MovesClaim(v, w, op, from, to);
    UnsoldBody(v.order, w.order, oid, |v.t.products|, v.t.movements, from, to);
    hide BodyOk, Sound;
  }

  lemma {:induction false} ReadyAllows(v: Locked, oid: nat, op: Op)
    requires Ready(v, oid) && PhaseFor(v.order.status) == Open && !op.Hold?
    ensures AllowsOrder(v.t, op, v.order.lines)
  {
    ClaimOf(v.order, Open, Open);
  }

  lemma {:induction false} ReleaseIs(v: Locked, now: Time)
    requires Has(v.order.reservations, Open) && Transact(v.t, Free, RequestsOf(v.order.reservations, Open)).Ok?
    ensures ReleaseReservations(v, now) ==
            Ok(v.(t := Transact(v.t, Free, RequestsOf(v.order.reservations, Open)).value,
                  order := v.order.(reservations := FreedAll(v.order.reservations, now))))
  {
    hide Transact, RequestsOf, Has;
  }

  lemma {:induction false} FreedPhase(o: Order, now: Time)
    requires ReservationsOk(o, Open)
    ensures ReservationsOk(o.(reservations := FreedAll(o.reservations, now)), Released)
  {
  }

  /** Releasing an active order always succeeds and gives every unit back. */
  lemma {:induction false} ReleaseStep(v: Locked, oid: nat, now: Time) returns (w: Locked)
    requires Ready(v, oid) && PhaseFor(v.order.status) == Open
    ensures ReleaseReservations(v, now) == Ok(w)
    ensures Rephased(v, w, oid, Released)
    ensures Moves(v.t, w.t, Free, v.order.lines)
  {
    ReadyAllows(v, oid, Free);
    CartMoves(v.t, Free, v.order, Open);
    FreedPhase(v.order, now);
    assert BodyOk(v.order, oid, |v.t.products|, v.t.movements, Open);
    hide *;
    ReleaseIs(v, now);
    w := v.(t := Transact(v.t, Free, RequestsOf(v.order.reservations, Open)).value,
            order := v.order.(reservations := FreedAll(v.order.reservations, now)));
    UnsoldStep(v, w, oid, Free, Open, Released) by {
      assert OpPhases(Free, Open, Released) by { FreePhases(); }
    }
  }

  lemma {:induction false} FreePhases()
    ensures OpPhases(Free, Open, Released) && OpPhases(Hold, Released, Open)
  {
  }

  // ----- Selling

  function SaleIds(o: Order): seq<nat> {
    Ascending(Requested(RequestsOf(o.reservations, Open)))
  }

  function SaleLedger(t: Tables, o: Order, oid: nat): seq<Movement> {
    SaleRows(t, Sell(oid), SaleIds(o), Totals(RequestsOf(o.reservations, Open)))
  }

  lemma {:induction false} CartSells(t: Tables, o: Order, oid: nat)
    requires Sound(t) && LinesOk(o, |t.products|) && ReservationsOk(o, Open) && AllowsOrder(t, Sell(oid), o.lines)
    ensures Transact(t, Sell(oid), RequestsOf(o.reservations, Open)).Ok?
    ensures Transact(t, Sell(oid), RequestsOf(o.reservations, Open)).value.movements
            == t.movements + SaleLedger(t, o, oid)
  {
    CartMoves(t, Sell(oid), o, Open);
    TransactEffect(t, Sell(oid), RequestsOf(o.reservations, Open));
    hide Sound, Transact, AllowsOrder, Acceptable;
  }

  /** The appended rows are one exit of the whole quantity for each product of the order. */
  lemma {:induction false} SaleLedgerMeaning(t: Tables, o: Order, oid: nat)
    requires LinesOk(o, |t.products|) && ReservationsOk(o, Open)
    ensures forall p: nat :: p in SaleIds(o) <==> LineQty(o.lines, p) > 0
    ensures forall i :: 0 <= i < |o.reservations| ==> o.reservations[i].product in SaleIds(o)
    ensures |SaleLedger(t, o, oid)| == |SaleIds(o)|
    ensures forall i :: 0 <= i < |SaleIds(o)| ==>
              IsSaleRow(SaleLedger(t, o, oid), i, oid, SaleIds(o)[i], LineQty(o.lines, SaleIds(o)[i]))
    ensures forall p: nat :: SaleCount(SaleLedger(t, o, oid), oid, p) == if LineQty(o.lines, p) > 0 then 1 else 0
  {
    var requests := RequestsOf(o.reservations, Open);
    var ids := SaleIds(o);
    CartOf(o, |t.products|, Open);
    forall p: nat
      ensures p in ids <==> LineQty(o.lines, p) > 0
      ensures SaleCount(SaleLedger(t, o, oid), oid, p) == if LineQty(o.lines, p) > 0 then 1 else 0
    {
      DemandSign(requests, p);
      SaleCountOfSale(t, oid, ids, Totals(requests), p);
    }
    forall i | 0 <= i < |ids|
      ensures IsSaleRow(SaleLedger(t, o, oid), i, oid, ids[i], LineQty(o.lines, ids[i]))
    {
      assert ids[i] in ids;
      assert SaleLedger(t, o, oid)[i] == SaleRow(t, oid, ids[i], Totals(requests)[ids[i]]);
    }
  }

  ghost predicate CountedOnce(lines: seq<Line>, oid: nat, m: seq<Movement>) {
    forall p: nat {:trigger SaleCount(m, oid, p)} :: SaleCount(m, oid, p) == if LineQty(lines, p) > 0 then 1 else 0
  }

  ghost predicate PointAtSale(rs: seq<Reservation>, lines: seq<Line>, oid: nat, m: seq<Movement>) {
    && |rs| == |lines|
    && forall i {:trigger rs[i]} :: 0 <= i < |rs| ==>
         && rs[i].product == lines[i].product && rs[i].quantity == lines[i].quantity
         && PhaseOf(rs[i]) == Consumed && rs[i].movement.Some?
         && IsSaleRow(m, rs[i].movement.value, oid, rs[i].product, LineQty(lines, rs[i].product))
  }

  lemma {:induction false} SoldCounts(o: Order, oid: nat, t: Tables)
    requires BodyOk(o, oid, |t.products|, t.movements, Open)
    ensures CountedOnce(o.lines, oid, t.movements + SaleLedger(t, o, oid))
  {
    var rows := SaleLedger(t, o, oid);
    SaleLedgerMeaning(t, o, oid);
    forall p: nat
      ensures SaleCount(t.movements + rows, oid, p) == if LineQty(o.lines, p) > 0 then 1 else 0
    {
      SaleCountAppend(t.movements, rows, oid, p);
      assert SaleCount(t.movements, oid, p) == 0;
    }
  }

  lemma {:induction false} RowBehind(m: seq<Movement>, rows: seq<Movement>, k: nat, oid: nat, p: nat, quantity: int)
    requires IsSaleRow(rows, k, oid, p, quantity)
    ensures IsSaleRow(m + rows, |m| + k, oid, p, quantity)
  {
    assert (m + rows)[|m| + k] == rows[k];
  }

  lemma {:induction false} OpenRow(o: Order, i: nat)
    requires ReservationsOk(o, Open) && i < |o.reservations|
    ensures PhaseOf(o.reservations[i]) == Open
  {
  }

  lemma {:induction false} SoldPointer(o: Order, oid: nat, t: Tables, now: Time, i: nat)
    requires LinesOk(o, |t.products|) && ReservationsOk(o, Open) && i < |o.reservations|
    ensures var r := Sold(o.reservations[i], now, |t.movements|, SaleIds(o));
            && PhaseOf(r) == Consumed
            && r.product == o.reservations[i].product && r.quantity == o.reservations[i].quantity
            && r.movement.Some?
            && IsSaleRow(t.movements + SaleLedger(t, o, oid), r.movement.value, oid, r.product, LineQty(o.lines, r.product))
  {
    hide SaleIds, SaleLedger, LinesOk, ReservationsOk, IndexOf, IsSaleRow, LineQty;
    var ids := SaleIds(o);
    OpenRow(o, i);
    SaleLedgerMeaning(t, o, oid);
    assert o.reservations[i].product in ids;
    var k := IndexOf(ids, o.reservations[i].product);
    RowBehind(t.movements, SaleLedger(t, o, oid), k, oid, ids[k], LineQty(o.lines, ids[k]));
  }

  lemma {:induction false} SoldPointers(o: Order, oid: nat, t: Tables, now: Time)
    requires BodyOk(o, oid, |t.products|, t.movements, Open)
    ensures PointAtSale(SoldAll(o.reservations, now, |t.movements|, SaleIds(o)), o.lines, oid,
                        t.movements + SaleLedger(t, o, oid))
  {
    var rs := SoldAll(o.reservations, now, |t.movements|, SaleIds(o));
    var m := t.movements + SaleLedger(t, o, oid);
    forall i | 0 <= i < |rs|
      ensures rs[i].product == o.lines[i].product && rs[i].quantity == o.lines[i].quantity
      ensures PhaseOf(rs[i]) == Consumed && rs[i].movement.Some?
      ensures IsSaleRow(m, rs[i].movement.value, oid, rs[i].product, LineQty(o.lines, rs[i].product))
    {
      SoldPointer(o, oid, t, now, i);
    }
  }

  lemma {:induction false} AssembleSold(o: Order, r: Order, oid: nat, products: nat, was: seq<Movement>, m: seq<Movement>)
    requires BodyOk(o, oid, products, was, Open)
    requires r == o.(reservations := r.reservations)
    requires CountedOnce(o.lines, oid, m) && PointAtSale(r.reservations, o.lines, oid, m)
    ensures BodyOk(r, oid, products, m, Consumed)
  {
  }

  /** Selling an order that was never sold leaves it sold exactly once. */
  lemma {:induction false} SoldBody(o: Order, r: Order, oid: nat, t: Tables, now: Time, m: seq<Movement>)
    requires BodyOk(o, oid, |t.products|, t.movements, Open)
    requires r == o.(reservations := SoldAll(o.reservations, now, |t.movements|, SaleIds(o)))
    requires m == t.movements + SaleLedger(t, o, oid)
    ensures BodyOk(r, oid, |t.products|, m, Consumed)
  {
    hide *;
    SoldCounts(o, oid, t);
    SoldPointers(o, oid, t, now);
    AssembleSold(o, r, oid, |t.products|, t.movements, m);
  }

  /** Consuming an active order always succeeds: the reconciliation guard cannot fire. */
  lemma {:induction false} ConsumeStep(v: Locked, oid: nat, now: Time) returns (w: Locked)
    requires Ready(v, oid) && PhaseFor(v.order.status) == Open
    ensures ConsumeReservations(v, oid, now) == Ok((w, true))
    ensures Rephased(v, w, oid, Consumed)
    ensures w.t.movements == v.t.movements + SaleLedger(v.t, v.order, oid)
    ensures Moves(v.t, w.t, Sell(oid), v.order.lines)
  {
    ReadyAllows(v, oid, Sell(oid));
    CartMoves(v.t, Sell(oid), v.order, Open);
    CartSells(v.t, v.order, oid);
    hide Sound, AllowsOrder, Transact, RequestsOf, Moves;
    var t := Transact(v.t, Sell(oid), RequestsOf(v.order.reservations, Open)).value;
    var sold := SoldAll(v.order.reservations, now, |v.t.movements|, SaleIds(v.order));
    w := v.(t := t, order := v.order.(reservations := sold));
    SoldStep(v, w, oid, now);
  }

  lemma {:induction false} SaleRowsOwn(t: Tables, o: Order, oid: nat)
    requires LinesOk(o, |t.products|) && ReservationsOk(o, Open)
    ensures forall i :: 0 <= i < |SaleLedger(t, o, oid)| ==> SaleLedger(t, o, oid)[i].reference == SaleOf(oid)
  {
    SaleLedgerMeaning(t, o, oid);
    forall i | 0 <= i < |SaleLedger(t, o, oid)| ensures SaleLedger(t, o, oid)[i].reference == SaleOf(oid) {
      assert IsSaleRow(SaleLedger(t, o, oid), i, oid, SaleIds(o)[i], LineQty(o.lines, SaleIds(o)[i]));
    }
  }

  lemma {:induction false} SoldStep(v: Locked, w: Locked, oid: nat, now: Time)
    requires BodyOk(v.order, oid, |v.t.products|, v.t.movements, Open)
    requires w.order == v.order.(reservations := SoldAll(v.order.reservations, now, |v.t.movements|, SaleIds(v.order)))
    requires w.issues == v.issues && w.t.movements == v.t.movements + SaleLedger(v.t, v.order, oid)
    requires Moves(v.t, w.t, Sell(oid), v.order.lines)
    ensures Rephased(v, w, oid, Consumed)
  {
    SoldBody(v.order, w.order, oid, v.t, now, w.t.movements);
    assert ReservationsOk(w.order, Consumed);
    assert LinesOk(v.order, |v.t.products|) && ReservationsOk(v.order, Open);
    assert w.t.products == v.t.products;
    hide BodyOk, Sound, SaleLedger, SaleIds, SoldAll, StockStep, LinesOk, ReservationsOk, Moves;
    SoldStock(v, w, oid);
  }

  lemma {:induction false} SoldStock(v: Locked, w: Locked, oid: nat)
    requires LinesOk(v.order, |v.t.products|) && ReservationsOk(v.order, Open) && ReservationsOk(w.order, Consumed)
    requires w.order.lines == v.order.lines && w.t.movements == v.t.movements + SaleLedger(v.t, v.order, oid)
    requires Moves(v.t, w.t, Sell(oid), v.order.lines)
    ensures StockStep(v, w, oid)
  {
    hide Sound, SaleLedger, SaleIds;
    MovesClaim(v, w, Sell(oid), Open, Consumed);
    SaleRowsOwn(v.t, v.order, oid);
  }

  // ----- Reopening

  lemma {:induction false} ReopenIs(v: Locked, oid: nat, expiresAt: Time)
    requires Ready(v, oid) && PhaseFor(v.order.status) == Released
    ensures var r := Transact(v.t, Hold, RequestsOf(v.order.reservations, Released));
            ReopenReservations(v, expiresAt) ==
            if r.Err? then Err(r.error)
            else Ok(v.(t := r.value, order := v.order.(reservations := ReheldAll(v.order.reservations, expiresAt))))
  {
    assert PhaseOf(v.order.reservations[0]) == Released;
    assert !Has(v.order.reservations, Open);
    hide Sound, Transact, RequestsOf, BodyOk;
  }

  /** A cancelled order can be held again exactly when every product still has its quantity available. */
  lemma {:induction false} ReopenWhen(v: Locked, oid: nat, expiresAt: Time)
    requires Ready(v, oid) && PhaseFor(v.order.status) == Released
    ensures ReopenReservations(v, expiresAt).Ok? <==> AllowsOrder(v.t, Hold, v.order.lines)
  {
    ReopenIs(v, oid, expiresAt);
    CartMoves(v.t, Hold, v.order, Released);
    hide *;
  }

  /** What holding it again writes. */
  lemma {:induction false} ReopenStep(v: Locked, oid: nat, expiresAt: Time) returns (m: Locked)
    requires Ready(v, oid) && PhaseFor(v.order.status) == Released
    requires ReopenReservations(v, expiresAt).Ok?
    ensures ReopenReservations(v, expiresAt) == Ok(m)
    ensures Rephased(v, m, oid, Open) && Moves(v.t, m.t, Hold, v.order.lines)
    ensures m.order.reservations == ReheldAll(v.order.reservations, expiresAt)
    ensures m.order == v.order.(reservations := m.order.reservations)
  {
    ReopenIs(v, oid, expiresAt);
    CartMoves(v.t, Hold, v.order, Released);
    hide Sound, AllowsOrder, Transact, RequestsOf, Moves, ReopenReservations, Rephased;
    m := v.(t := Transact(v.t, Hold, RequestsOf(v.order.reservations, Released)).value,
            order := v.order.(reservations := ReheldAll(v.order.reservations, expiresAt)));
    UnsoldStep(v, m, oid, Hold, Released, Open);
  }
}
