/** Cancelling an active order and restoring it gives the order, its claim and the shop's balances back. */
module RoundTrip {
  import opened Prelude
  import opened Inventory
  import opened Alerts
  import opened Stock
  import opened Orders
  import opened Invariant
  import opened Preserve
  import opened Commands

  lemma {:induction false} StepsReady(v: Locked, w: Locked, oid: nat)
    requires Ready(v, oid) && Steps(v, w, oid)
    ensures Ready(w, oid)
  {
    assert Sound(w.t) && OrderOk(w.order, oid, |w.t.products|, w.t.movements);
    hide Sound, OrderOk;
  }

  lemma {:induction false} ReleasedRows(v: Locked, now: Time, m: Locked)
    requires ReleaseReservations(v, now) == Ok(m)
    ensures m.order.reservations == FreedAll(v.order.reservations, now)
  {
    hide Transact, RequestsOf;
    if !Has(v.order.reservations, Open) {
      forall i | 0 <= i < |v.order.reservations| ensures Freed(v.order.reservations[i], now) == v.order.reservations[i] {
        assert PhaseOf(v.order.reservations[i]) != Open;
      }
    }
  }

  /** The order a seller's cancellation leaves behind, rows released. */
  function CancelledOrder(o: Order, now: Time): Order {
    Moved(o.(payment := Voided(o.payment, true), reservations := FreedAll(o.reservations, now)), Cancelled, OrderCancelled, now)
  }

  lemma {:induction false} CancelIs(v: Locked, oid: nat, now: Time) returns (w: Locked)
    requires Ready(v, oid) && IsActive(v.order.status)
    ensures Cancel(v, now) == Ok(w) && Ready(w, oid)
    ensures w.order == CancelledOrder(v.order, now)
    ensures Moves(v.t, w.t, Free, v.order.lines)
  {
    CancelSteps(v, oid, now);
    w := Cancel(v, now).value;
    StepsReady(v, w, oid);
    var m := ReleaseStep(v, oid, now);
    ReleasedRows(v, now, m);
    hide Ready, Steps, ReleaseReservations, Moves, StockStep, BodyOk;
  }

  /** The newest cancellation is the one just made, so it names the status to return to. */
  lemma {:induction false} CancelledTarget(o: Order, now: Time)
    requires IsActive(o.status) && PaymentOk(o)
    ensures RestoreTarget(CancelledOrder(o, now)) == Ok(o.status)
  {
  }

  lemma {:induction false} StillAvailable(t: Tables, r: Tables, lines: seq<Line>)
    requires Sound(t) && Moves(t, r, Free, lines)
    ensures forall p: nat {:trigger r.Bal(p)} :: r.Bal(p).onHand == t.Bal(p).onHand
    ensures AllowsOrder(r, Hold, lines)
  {
    forall p: nat ensures r.Bal(p).onHand == t.Bal(p).onHand {
      SameOnHand(t, r, p);
    }
    forall p: nat ensures LineQty(lines, p) > 0 ==> Allowed(Hold, r.Bal(p), LineQty(lines, p)) {
      assert t.Bal(p).reserved <= t.Bal(p).onHand;
      assert r.Bal(p).reserved == t.Bal(p).reserved - LineQty(lines, p);
    }
  }

  /** Two sound tables with one ledger agree on every quantity in stock. */
  lemma {:induction false} SameOnHand(t: Tables, r: Tables, p: nat)
    requires Sound(t) && Sound(r) && r.movements == t.movements && r.products == t.products
    ensures r.Bal(p).onHand == t.Bal(p).onHand
    ensures p in r.balances <==> p in t.balances
  {
    if p < |t.products| {
      assert t.Bal(p).onHand == Posted(t.movements, p);
      assert r.Bal(p).onHand == Posted(r.movements, p);
    }
  }

  lemma {:induction false} FreeThenHold(t: Tables, m: Tables, r: Tables, lines: seq<Line>)
    requires Sound(t) && Moves(t, m, Free, lines) && Moves(m, r, Hold, lines)
    ensures r.balances == t.balances && r.movements == t.movements && r.products == t.products
  {
    forall p: nat
      ensures p in r.balances <==> p in t.balances
      ensures r.Bal(p) == t.Bal(p)
    {
      SameOnHand(t, r, p);
      assert m.Bal(p).reserved == t.Bal(p).reserved - LineQty(lines, p);
    }
    hide Sound;
    assert forall p :: p in t.balances ==> r.Bal(p) == r.balances[p] && t.Bal(p) == t.balances[p];
  }

  lemma {:induction false} TransactKeepsThreshold(t: Tables, op: Op, requests: seq<Request>)
    requires Transact(t, op, requests).Ok?
    ensures Transact(t, op, requests).value.lowStockThreshold == t.lowStockThreshold
  {
    hide Act, Allowed;
  }

  lemma {:induction false} CommandsKeepThreshold(v: Locked, now: Time, ttl: Time)
    ensures Cancel(v, now).Ok? ==> Cancel(v, now).value.t.lowStockThreshold == v.t.lowStockThreshold
    ensures Restore(v, now, ttl).Ok? ==> Restore(v, now, ttl).value.t.lowStockThreshold == v.t.lowStockThreshold
  {
    forall op, requests | Transact(v.t, op, requests).Ok?
      ensures Transact(v.t, op, requests).value.lowStockThreshold == v.t.lowStockThreshold
    {
      TransactKeepsThreshold(v.t, op, requests);
    }
    hide Transact, RequestsOf, Has, RestoreTarget;
  }

  /** With the threshold kept as well, the shop shows the same alerts. */
  lemma {:induction false} SameAlerts(t: Tables, r: Tables, p: nat)
    requires Sound(t) && Sound(r) && r.products == t.products && p < |t.products|
    requires r.balances == t.balances && r.lowStockThreshold == t.lowStockThreshold
    ensures ActiveOf(r.alerts, p) == ActiveOf(t.alerts, p)
  {
  }

  /** The row of a payment that a seller's cancellation voids comes back, except one found pending under review. */
  predicate LosesItsStatus(o: Order) {
    o.status == PurchaseValidation && o.payment.Some? && o.payment.value.status == PaymentPending
  }

  lemma {:induction false} PaymentComesBack(o: Order, now: Time)
    requires IsActive(o.status) && PaymentOk(o)
    ensures Revived(CancelledOrder(o, now).payment, o.status) == o.payment <==> !LosesItsStatus(o)
    ensures LosesItsStatus(o) ==>
              Revived(CancelledOrder(o, now).payment, o.status) == Some(o.payment.value.(status := PaymentValidation))
  {
  }

  lemma {:induction false} RowsComeBack(rs: seq<Reservation>, cancelled: Time, expiresAt: Time)
    requires forall i {:trigger rs[i]} :: 0 <= i < |rs| ==> PhaseOf(rs[i]) == Open
    ensures var back := ReheldAll(FreedAll(rs, cancelled), expiresAt);
            |back| == |rs| && forall i :: 0 <= i < |rs| ==> back[i] == rs[i].(expiresAt := expiresAt)
  {
  }

  /** Everything that matters about the order and the stock is as before; only expiry times are new. */
  ghost predicate BackAgain(v: Locked, r: Locked, expiresAt: Time) {
    && r.t.balances == v.t.balances && r.t.movements == v.t.movements && r.t.products == v.t.products
    && r.order.status == v.order.status
    && r.order.lines == v.order.lines
    && r.order.expiresAt == expiresAt
    && |r.order.reservations| == |v.order.reservations|
    && (forall i {:trigger r.order.reservations[i]} :: 0 <= i < |v.order.reservations| ==>
          r.order.reservations[i] == v.order.reservations[i].(expiresAt := expiresAt))
    && r.issues == v.issues
  }

  lemma {:induction false} RestoreAllowed(v: Locked, w: Locked, oid: nat, cancelled: Time, now: Time, ttl: Time)
    requires Ready(v, oid) && IsActive(v.order.status) && Ready(w, oid)
    requires w.order == CancelledOrder(v.order, cancelled) && Moves(v.t, w.t, Free, v.order.lines)
    ensures Restore(w, now, ttl).Ok? && RestoreTarget(w.order) == Ok(v.order.status)
    ensures ReopenReservations(w, now + ttl).Ok?
  {
    assert PaymentOk(v.order);
    CancelledTarget(v.order, cancelled);
    StillAvailable(v.t, w.t, v.order.lines);
    RestoreWhen(w, oid, now, ttl);
    hide Ready, Moves, AllowsOrder, Restore, RestoreTarget, ReopenReservations;
    RestoreNeeds(w, now, ttl);
  }

  /** The order as the round trip leaves it. */
  lemma {:induction false} RestoredRows(v: Locked, w: Locked, m: Locked, cancelled: Time, now: Time, ttl: Time)
    requires ReservationsOk(v.order, Open)
    requires w.order == CancelledOrder(v.order, cancelled)
    requires m.order == w.order.(reservations := ReheldAll(w.order.reservations, now + ttl))
    ensures var o := RestoredOrder(m.order, v.order.status, now, ttl);
            && o.status == v.order.status && o.lines == v.order.lines && o.expiresAt == now + ttl
            && o.payment == Revived(w.order.payment, v.order.status)
            && |o.reservations| == |v.order.reservations|
            && (forall i :: 0 <= i < |v.order.reservations| ==>
                  o.reservations[i] == v.order.reservations[i].(expiresAt := now + ttl))
  {
    RowsComeBack(v.order.reservations, cancelled, now + ttl);
  }

  lemma {:induction false} CancelIssues(v: Locked, now: Time)
    requires Cancel(v, now).Ok?
    ensures Cancel(v, now).value.issues == v.issues
  {
    hide Transact, RequestsOf, Has;
  }

  /** What a restore leaves after a cancellation by w, whose rows came back as m. */
  lemma {:induction false} AllBack(v: Locked, w: Locked, m: Locked, oid: nat, cancelled: Time, now: Time, ttl: Time)
    requires Ready(v, oid) && IsActive(v.order.status) && w.issues == v.issues
    requires w.order == CancelledOrder(v.order, cancelled)
    requires Moves(v.t, w.t, Free, v.order.lines) && Moves(w.t, m.t, Hold, v.order.lines) && Rephased(w, m, oid, Open)
    requires m.order == w.order.(reservations := ReheldAll(w.order.reservations, now + ttl))
    ensures var r := m.(order := RestoredOrder(m.order, v.order.status, now, ttl));
            && BackAgain(v, r, now + ttl)
            && (r.order.payment == v.order.payment <==> !LosesItsStatus(v.order))
  {
    assert PaymentOk(v.order) && ReservationsOk(v.order, Open) && Sound(v.t);
    hide *;
    var r := m.(order := RestoredOrder(m.order, v.order.status, now, ttl));
    FreeThenHold(v.t, w.t, m.t, v.order.lines);
    RestoredRows(v, w, m, cancelled, now, ttl);
    PaymentComesBack(v.order, cancelled);
    RoundTripIssues(v, w, m, r, oid);
    AssembleBack(v, r, now + ttl);
  }

  ghost predicate SameAlertsShown(t: Tables, r: Tables) {
    forall p: nat {:trigger ActiveOf(r.alerts, p)} :: p < |t.products| ==> ActiveOf(r.alerts, p) == ActiveOf(t.alerts, p)
  }

  lemma {:induction false} AlertsBack(t: Tables, m: Tables, r: Tables, lines: seq<Line>)
    requires Sound(t) && Moves(t, m, Free, lines) && Moves(m, r, Hold, lines) && r.lowStockThreshold == t.lowStockThreshold
    ensures SameAlertsShown(t, r)
  {
    FreeThenHold(t, m, r, lines);
    MovesSound(m, r, lines);
    hide Sound, Moves, ActiveOf;
    forall p: nat | p < |t.products| ensures ActiveOf(r.alerts, p) == ActiveOf(t.alerts, p) {
      SameAlerts(t, r, p);
    }
  }

  /**
   * Cancel then restore, with no command in between, on any active order of a valid database:
   * both succeed and give back status, claim, balances, ledger and alerts. The payment comes
   * back exactly when it was not pending while a proof was under review.
   */
  lemma {:induction false} CancelThenRestore(v: Locked, oid: nat, cancelled: Time, now: Time, ttl: Time)
    returns (w: Locked, r: Locked)
    requires Ready(v, oid) && IsActive(v.order.status)
    ensures Cancel(v, cancelled) == Ok(w) && Restore(w, now, ttl) == Ok(r)
    ensures BackAgain(v, r, now + ttl)
    ensures r.order.payment == v.order.payment <==> !LosesItsStatus(v.order)
    ensures SameAlertsShown(v.t, r.t)
  {
    ReadySound(v, oid);
    hide *;
    w := CancelIs(v, oid, cancelled);
    CancelledIs(v.order, cancelled);
    CancelIssues(v, cancelled);
    CommandsKeepThreshold(v, cancelled, 0);
    CommandsKeepThreshold(w, now, ttl);
    RestoreAllowed(v, w, oid, cancelled, now, ttl);
    var m := Reopened(w, oid, now, ttl);
    r := m.(order := RestoredOrder(m.order, v.order.status, now, ttl));
    AllBack(v, w, m, oid, cancelled, now, ttl);
    AlertsBack(v.t, w.t, r.t, v.order.lines);
  }

  lemma {:induction false} ReadySound(v: Locked, oid: nat)
    requires Ready(v, oid)
    ensures Sound(v.t)
  {
    hide Sound, OrderOk;
  }

  lemma {:induction false} CancelledIs(o: Order, now: Time)
    ensures CancelledOrder(o, now).status == Cancelled && CancelledOrder(o, now).lines == o.lines
  {
  }

  lemma {:induction false} MovesSound(t: Tables, r: Tables, lines: seq<Line>)
    requires Moves(t, r, Hold, lines)
    ensures Sound(r)
  {
  }

  lemma {:induction false} RoundTripIssues(v: Locked, w: Locked, m: Locked, r: Locked, oid: nat)
    requires w.issues == v.issues && Rephased(w, m, oid, Open) && r.issues == m.issues
    ensures r.issues == v.issues
  {
  }

  lemma {:induction false} AssembleBack(v: Locked, r: Locked, expiresAt: Time)
    requires r.t.balances == v.t.balances && r.t.movements == v.t.movements && r.t.products == v.t.products
    requires r.order.status == v.order.status && r.order.lines == v.order.lines && r.order.expiresAt == expiresAt
    requires |r.order.reservations| == |v.order.reservations| && r.issues == v.issues
    requires forall i :: 0 <= i < |v.order.reservations| ==>
               r.order.reservations[i] == v.order.reservations[i].(expiresAt := expiresAt)
    ensures BackAgain(v, r, expiresAt)
  {
  }

  /**
   * The exception is reachable: a pending snapshot that reaches an order under review
   * leaves it under review with a pending payment, which a round trip turns into one in validation.
   */
  lemma {:induction false} PendingUnderReview(v: Locked, oid: nat, s: Snapshot, event: nat, now: Time) returns (w: Locked)
    requires Ready(v, oid) && v.order.status == PurchaseValidation
    requires v.order.payment.value.provider != OtherProvider
    requires s.status == SnapshotPending && FeeOnly(s, oid, v.order.payment.value) && FeeOk(s)
    ensures Settle(v, oid, s, event, now) == Ok(w) && Ready(w, oid)
    ensures LosesItsStatus(w.order)
  {
    var p := v.order.payment.value;
    assert p.status != PaymentApproved;
    w := Settle(v, oid, s, event, now).value;
    SettleSteps(v, oid, s, event, now);
    StepsReady(v, w, oid);
    hide Ready, Steps, ResolvePending;
  }
}
