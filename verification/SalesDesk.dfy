/**
 * The sales services as they run: rows rewritten one field at a time, a savepoint taken
 * before each command and restored when the command raises. Every method is proved to
 * leave exactly the rows that the order functions describe.
 */
module SalesDesk {
  import opened Prelude
  import opened Inventory
  import opened Alerts
  import opened Stock
  import opened Orders
  import opened Shop
  import opened Invariant
  import opened Preserve
  import opened Runs
  import opened StockStore

  class Desk {
    const stock: Store
    var orders: seq<Order>
    var issues: seq<Issue>

    constructor (threshold: nat)
      ensures fresh(stock) && Indexed() && Db() == EmptyShop(threshold)
    {
      stock := new Store(threshold);
      orders, issues := [], [];
    }

    function Db(): Shop.Db
      reads this, stock
    {
      Shop.Db(stock.Tables(), orders, issues)
    }

    function At(oid: nat): Locked
      requires oid < |orders|
      reads this, stock
    {
      Locked(stock.Tables(), orders[oid], issues)
    }

    /** The unique index on active alerts. */
    ghost predicate Indexed()
      reads this, stock
    {
      UniqueActive(stock.alerts)
    }

    /** No other order row was written. */
    ghost predicate Others(was: seq<Order>, oid: nat)
      reads this
    {
      && oid < |orders| == |was|
      && forall k {:trigger orders[k]} :: 0 <= k < |was| && k != oid ==> orders[k] == was[k]
    }

    /** The rows are those of `spec`, or its error was raised. */
    ghost predicate Did<T>(was: seq<Order>, oid: nat, r: Result<T>, spec: Result<Locked>)
      reads this, stock
    {
      && Indexed()
      && Others(was, oid)
      && match spec
         case Ok(v) => r.Ok? && At(oid) == v
         case Err(e) => r == Err(e)
    }

    // ----- Rows

    method SaveOrder(oid: nat, o: Order)
      requires oid < |orders|
      modifies this`orders
      ensures Others(old(orders), oid) && orders[oid] == o
    {
      orders := orders[oid := o];
    }

    method SavePayment(oid: nat, p: Payment)
      requires oid < |orders|
      modifies this`orders
      ensures Others(old(orders), oid) && orders[oid] == WithPayment(old(orders[oid]), p)
    {
      SaveOrder(oid, orders[oid].(payment := Some(p)));
    }

    method SaveReservation(oid: nat, i: nat, row: Reservation)
      requires oid < |orders| && i < |orders[oid].reservations|
      modifies this`orders
      ensures Others(old(orders), oid)
      ensures orders[oid] == old(orders[oid]).(reservations := old(orders[oid]).reservations[i := row])
    {
      SaveOrder(oid, orders[oid].(reservations := orders[oid].reservations[i := row]));
    }

    method AppendEvent(oid: nat, kind: EventKind)
      requires oid < |orders|
      modifies this`orders
      ensures Others(old(orders), oid) && orders[oid] == Noted(old(orders[oid]), kind)
    {
      SaveOrder(oid, orders[oid].(timeline := orders[oid].timeline + [TimelineEvent(kind, None, None)]));
    }

    // ----- The transition

    /** The moved row, field by field. */
    static method Stamp(was: Order, target: Status, kind: EventKind, now: Time) returns (o: Order)
      requires was.status != target
      ensures o == Moved(was, target, kind, now)
    {
      o := was;
      o := o.(status := target);
      match target {
        case PurchaseValidation => o := o.(pausedAt := Some(now));
        case Paid => o := o.(paidAt := Some(now));
        case Cancelled => o := o.(cancelledAt := Some(now));
        case Expired => o := o.(expiredAt := Some(now));
        case Refunded => o := o.(refundedAt := Some(now));
        case _ =>
      }
      if was.status == Cancelled {
        o := o.(cancelledAt := None);
      }
      if Expirable(target) {
        o := o.(pausedAt := None);
      }
      o := o.(timeline := o.timeline + [TimelineEvent(kind, Some(was.status), Some(target))]);
    }

    method TransitionOrder(oid: nat, target: Status, kind: EventKind, now: Time) returns (r: Result<bool>)
      requires oid < |orders|
      modifies this`orders
      ensures Others(old(orders), oid)
      ensures match Transition(old(orders[oid]), target, kind, now)
              case Ok(o) => r == Ok(old(orders[oid].status) != target) && orders[oid] == o
              case Err(e) => r == Err(e) && orders[oid] == old(orders[oid])
    {
      hide Moved, Edge;
      if orders[oid].status == target {
        return Ok(false);
      }
      if !Edge(orders[oid].status, target) {
        return Err(TransitionNotAllowed);
      }
      var o := Stamp(orders[oid], target, kind, now);
      SaveOrder(oid, o);
      return Ok(true);
    }

    // ----- Reservations

    method RequestsFor(oid: nat, phase: Phase) returns (requests: seq<Request>)
      requires oid < |orders|
      ensures requests == RequestsOf(orders[oid].reservations, phase)
    {
      var rs := orders[oid].reservations;
      requests := [];
      for i := 0 to |rs|
        invariant requests == RequestsOf(rs[..i], phase)
      {
        assert rs[..i + 1][..i] == rs[..i];
        if PhaseOf(rs[i]) == phase {
          requests := requests + [Request(rs[i].product, rs[i].quantity)];
        }
      }
      assert rs[..|rs|] == rs;
    }

    /** What a loop over reservation rows has written after the first i of them. */
    ghost predicate Written(was: Order, oid: nat, i: nat, done: seq<Reservation>)
      reads this
    {
      && oid < |orders|
      && i <= |done| == |was.reservations| == |orders[oid].reservations|
      && orders[oid] == was.(reservations := orders[oid].reservations)
      && (forall k {:trigger orders[oid].reservations[k]} :: 0 <= k < i ==> orders[oid].reservations[k] == done[k])
      && (forall k {:trigger orders[oid].reservations[k]} :: i <= k < |done| ==> orders[oid].reservations[k] == was.reservations[k])
    }

    method ReleaseOrderReservations(oid: nat, now: Time) returns (r: Result<bool>)
      requires oid < |orders| && Indexed()
      modifies this`orders, stock
      ensures Did(old(orders), oid, r, ReleaseReservations(old(At(oid)), now))
    {
      hide Transact;
      RequestsMeaning(orders[oid].reservations, Open);
      var requests := RequestsFor(oid, Open);
      if requests == [] {
        return Ok(false);
      }
      hide RequestsOf, UniqueActive;
      var _ :- stock.ReleaseStock(requests);
      MarkReleased(oid, now);
      return Ok(true);
    }

    method MarkReleased(oid: nat, now: Time)
      requires oid < |orders|
      modifies this`orders
      ensures Others(old(orders), oid)
      ensures orders[oid] == old(orders[oid]).(reservations := FreedAll(old(orders[oid]).reservations, now))
    {
      ghost var done := FreedAll(orders[oid].reservations, now);
      var i := 0;
      while i < |orders[oid].reservations|
        modifies this`orders
        invariant Others(old(orders), oid) && Written(old(orders[oid]), oid, i, done)
      {
        var row := orders[oid].reservations[i];
        if PhaseOf(row) == Open {
          SaveReservation(oid, i, row.(releasedAt := Some(now)));
        }
        i := i + 1;
      }
      assert orders[oid].reservations == done;
    }

    /** The flag says whether there was anything to consume. */
    method ConsumeOrderReservations(oid: nat, now: Time) returns (r: Result<bool>)
      requires oid < |orders| && Indexed()
      modifies this`orders, stock
      ensures Indexed() && Others(old(orders), oid)
      ensures match ConsumeReservations(old(At(oid)), oid, now)
              case Ok((v, any)) => r == Ok(any) && At(oid) == v
              case Err(e) => r == Err(e) && At(oid) == old(At(oid))
    {
      hide Transact;
      RequestsMeaning(orders[oid].reservations, Open);
      var requests := RequestsFor(oid, Open);
      if requests == [] {
        return Ok(false);
      }
      hide RequestsOf, UniqueActive, RowsOf;
      OpenRowsRequested(orders[oid].reservations);
      ghost var base := |stock.movements|;
      var movements :- stock.ConsumeStock(requests, oid);
      MarkSold(oid, now, base, Ascending(Requested(requests)), movements);
      return Ok(true);
    }

    /** Every open row becomes consumed and points at the movement of its product. */
    method MarkSold(oid: nat, now: Time, ghost base: nat, ghost ids: seq<nat>, movements: map<nat, nat>)
      requires oid < |orders| && movements == RowsOf(base, ids)
      requires forall k :: 0 <= k < |orders[oid].reservations| && PhaseOf(orders[oid].reservations[k]) == Open ==>
                 orders[oid].reservations[k].product in ids
      modifies this`orders
      ensures Others(old(orders), oid)
      ensures orders[oid] == old(orders[oid]).(reservations := SoldAll(old(orders[oid]).reservations, now, base, ids))
    {
      hide RowsOf, IndexOf;
      ghost var done := SoldAll(orders[oid].reservations, now, base, ids);
      var i := 0;
      while i < |orders[oid].reservations|
        modifies this`orders
        invariant Others(old(orders), oid) && Written(old(orders[oid]), oid, i, done)
      {
        var row := orders[oid].reservations[i];
        if PhaseOf(row) == Open {
          SaveReservation(oid, i, row.(consumedAt := Some(now), movement := Some(movements[row.product])));
        }
        i := i + 1;
      }
      assert orders[oid].reservations == done;
    }

    method ReholdOrderReservations(oid: nat, expiresAt: Time) returns (r: Result<bool>)
      requires oid < |orders| && Indexed()
      modifies this`orders, stock
      ensures Indexed() && Others(old(orders), oid)
      ensures match Transact(old(stock.Tables()), Hold, RequestsOf(old(orders[oid]).reservations, Released))
              case Ok(t) => && r == Ok(true)
                            && At(oid) == Locked(t, old(orders[oid]).(reservations := ReheldAll(old(orders[oid]).reservations, expiresAt)), issues)
              case Err(e) => r == Err(e)
    {
      hide Transact, UniqueActive;
      var requests := RequestsFor(oid, Released);
      hide RequestsOf;
      var _ :- stock.ReserveStock(requests);
      ghost var done := ReheldAll(orders[oid].reservations, expiresAt);
      var i := 0;
      while i < |orders[oid].reservations|
        modifies this`orders
        invariant Others(old(orders), oid) && Written(old(orders[oid]), oid, i, done)
      {
        var row := orders[oid].reservations[i];
        if PhaseOf(row) == Released {
          SaveReservation(oid, i, row.(releasedAt := None, expiresAt := expiresAt));
        }
        i := i + 1;
      }
      assert orders[oid].reservations == done;
      return Ok(true);
    }

    method PostponeReservations(oid: nat, expiresAt: Time)
      requires oid < |orders|
      modifies this`orders
      ensures Others(old(orders), oid)
      ensures orders[oid] == old(orders[oid]).(reservations := PostponedAll(old(orders[oid]).reservations, expiresAt))
    {
      ghost var done := PostponedAll(orders[oid].reservations, expiresAt);
      var i := 0;
      while i < |orders[oid].reservations|
        modifies this`orders
        invariant Others(old(orders), oid) && Written(old(orders[oid]), oid, i, done)
      {
        var row := orders[oid].reservations[i];
        if PhaseOf(row) == Open {
          SaveReservation(oid, i, row.(expiresAt := expiresAt));
        }
        i := i + 1;
      }
      assert orders[oid].reservations == done;
    }

    method ReopenOrderReservations(oid: nat, expiresAt: Time) returns (r: Result<bool>)
      requires oid < |orders| && Indexed()
      modifies this`orders, stock
      ensures Did(old(orders), oid, r, ReopenReservations(old(At(oid)), expiresAt))
    {
      hide Transact, RequestsOf, UniqueActive;
      var o := orders[oid];
      if Has(o.reservations, Open) {
        PostponeReservations(oid, expiresAt);
        return Ok(true);
      }
      if Has(o.reservations, Released) {
        r := ReholdOrderReservations(oid, expiresAt);
        return;
      }
      if o.lines == [] {
        return Ok(false);
      }
      var _ :- stock.ReserveStock(LineRequests(o.lines));
      if o.reservations != [] {
        return Err(IntegrityError);
      }
      SaveOrder(oid, o.(reservations := FreshReservations(o.lines, expiresAt)));
      return Ok(true);
    }

    // ----- Reconciliation

    method FirstIssue(kind: IssueKind, order: Option<nat>, event: Option<nat>) returns (found: Option<nat>)
      ensures found == FindIssue(issues, kind, order, event)
    {
      var i := |issues|;
      assert issues[..i] == issues;
      while i > 0
        invariant 0 <= i <= |issues|
        invariant FindIssue(issues, kind, order, event) == FindIssue(issues[..i], kind, order, event)
      {
        assert issues[..i][..i - 1] == issues[..i - 1];
        if SameIssue(issues[i - 1], kind, order, event) {
          return Some(i - 1);
        }
        i := i - 1;
      }
      return None;
    }

    /** Open an issue, or reopen a resolved one; says whether it did either. */
    method ReportIssue(kind: IssueKind, order: Option<nat>, event: Option<nat>) returns (created: bool)
      modifies this`issues
      ensures (issues, created) == Report(old(issues), kind, order, event)
    {
      var found := FirstIssue(kind, order, event);
      created := found.None?;
      if found.None? {
        issues := issues + [Issue(kind, order, event, IssueOpen)];
      } else if issues[found.value].status == IssueResolved {
        issues := issues[found.value := issues[found.value].(status := IssueOpen)];
        created := true;
      }
    }

    method SendToReconciliation(oid: nat, kind: IssueKind)
      requires oid < |orders|
      modifies this`orders
      ensures Others(old(orders), oid)
      ensures var was := old(orders[oid]);
              orders[oid] ==
              match was.payment
              case Some(p) =>
                if kind == WebhookPending && (p.status == PaymentApproved || p.status == PaymentRefunded) then was
                else was.(payment := Some(p.(status := PaymentReconciliation)))
              case None => was
    {
      var p := orders[oid].payment;
      if p.Some? && !(kind == WebhookPending && (p.value.status == PaymentApproved || p.value.status == PaymentRefunded)) {
        SavePayment(oid, p.value.(status := PaymentReconciliation));
      }
    }

    method MarkReconciliationRequired(oid: nat, kind: IssueKind, event: Option<nat>)
      requires oid < |orders|
      modifies this`orders, this`issues
      ensures Others(old(orders), oid) && At(oid) == Mark(old(At(oid)), oid, kind, event)
    {
      hide Report;
      var created := ReportIssue(kind, Some(oid), event);
      var statusChanged := orders[oid].reconciliation != ReconciliationRequired;
      if statusChanged {
        SaveOrder(oid, orders[oid].(reconciliation := ReconciliationRequired));
      }
      hide Noted;
      if created || statusChanged {
        AppendEvent(oid, ReconciliationOpened);
      }
      hide WithPayment;
      SendToReconciliation(oid, kind);
    }

    method ResolveIfClear(oid: nat)
      requires oid < |orders|
      modifies this`orders
      ensures Others(old(orders), oid) && At(oid) == ClearIfResolved(old(At(oid)), oid)
    {
      if Unresolved(issues, oid) || orders[oid].reconciliation == ReconciliationOk {
        return;
      }
      SaveOrder(oid, orders[oid].(reconciliation := ReconciliationOk));
      AppendEvent(oid, ReconciliationResolved);
    }

    // ----- Payments

    /** get_or_create on the order's one payment row. */
    method PaymentRow(oid: nat, provider: Provider) returns (p: Payment)
      requires oid < |orders|
      modifies this`orders
      ensures Others(old(orders), oid)
      ensures p == PaymentOf(old(orders[oid]), provider) && orders[oid] == WithPayment(old(orders[oid]), p)
    {
      if orders[oid].payment.None? {
        SavePayment(oid, NewPayment(orders[oid], provider));
      }
      p := orders[oid].payment.value;
    }

    method VoidPayment(oid: nat, validationToo: bool)
      requires oid < |orders|
      modifies this`orders
      ensures Others(old(orders), oid)
      ensures orders[oid] == old(orders[oid]).(payment := Voided(old(orders[oid]).payment, validationToo))
    {
      var p := orders[oid].payment;
      if p.Some? && (p.value.status == PaymentPending || (validationToo && p.value.status == PaymentValidation)) {
        SavePayment(oid, p.value.(status := PaymentCancelled));
      }
    }

    /** Consume, mark the payment approved, move to PAID; or report that there was nothing to consume. */
    method ApprovePayment(oid: nat, paidAt: Time, event: Option<nat>, now: Time) returns (r: Result<bool>)
      requires oid < |orders| && Indexed() && orders[oid].payment.Some?
      modifies this`orders, this`issues, stock
      ensures Indexed() && Others(old(orders), oid)
      ensures match Approve(old(At(oid)), oid, old(orders[oid]).payment.value, paidAt, event, now)
              case Ok((v, sold)) => r == Ok(sold) && At(oid) == v
              case Err(e) => r == Err(e)
    {
      hide Edge, Transact, RequestsOf, UniqueActive, Mark, ReleaseReservations, ReopenReservations;
      var p := orders[oid].payment.value;
      if orders[oid].status == Paid && p.status == PaymentApproved {
        return Ok(true);
      }
      if !IsActive(orders[oid].status) {
        return Err(TransitionNotAllowed);
      }
      NothingConsumed(At(oid), oid, now);
      RowStepsKeep(At(oid), oid, now);
      var attempt := ConsumeOrderReservations(oid, now);
      hide ConsumeReservations;
      if attempt.Err? && attempt.error != StockReconciliationRequired {
        return Err(attempt.error);
      }
      var consumed := attempt.Ok? && attempt.value;
      if !consumed {
        MarkReconciliationRequired(oid, PaidWithoutStock, event);
        return Ok(false);
      }
      SavePayment(oid, p.(status := PaymentApproved));
      var _ :- TransitionOrder(oid, Paid, PaymentConfirmed, now);
      if orders[oid].paidAt != Some(paidAt) {
        SaveOrder(oid, orders[oid].(paidAt := Some(paidAt)));
      }
      return Ok(true);
    }

    // ----- Commands on one order

    method PublishLink(oid: nat, now: Time) returns (r: Result<()>)
      requires oid < |orders| && Indexed()
      modifies this`orders
      ensures Did(old(orders), oid, r, Orders.PublishLink(old(At(oid)), now))
    {
      if !IsActive(orders[oid].status) {
        return Err(TransitionNotAllowed);
      }
      if orders[oid].publishedAt.None? {
        SaveOrder(oid, orders[oid].(publishedAt := Some(now)));
        AppendEvent(oid, LinkPublished);
      }
      return Ok(());
    }

    method SetBuyer(oid: nat, details: Option<Buyer>, now: Time) returns (r: Result<()>)
      requires oid < |orders| && Indexed()
      modifies this`orders
      ensures Did(old(orders), oid, r, Orders.SetBuyer(old(At(oid)), details, now))
    {
      hide Edge;
      if !Expirable(orders[oid].status) {
        return Err(TransitionNotAllowed);
      }
      var buyer :- BuyerRow(orders[oid], details);
      SaveOrder(oid, orders[oid].(buyer := Some(buyer)));
      if orders[oid].status == Reserved {
        var _ :- TransitionOrder(oid, PurchaseInProgress, BuyerCompleted, now);
      } else {
        AppendEvent(oid, BuyerUpdated);
      }
      return Ok(());
    }

    method UpdateBuyer(oid: nat, details: Option<Buyer>) returns (r: Result<()>)
      requires oid < |orders| && Indexed()
      modifies this`orders
      ensures Did(old(orders), oid, r, Orders.UpdateBuyer(old(At(oid)), details))
    {
      if !IsActive(orders[oid].status) && orders[oid].status != Paid {
        return Err(TransitionNotAllowed);
      }
      var buyer :- BuyerRow(orders[oid], details);
      SaveOrder(oid, orders[oid].(buyer := Some(buyer)));
      AppendEvent(oid, BuyerUpdated);
      return Ok(());
    }

    method StartCheckout(oid: nat, connected: bool, providerUp: bool, now: Time) returns (r: Result<()>)
      requires oid < |orders| && Indexed()
      modifies this`orders
      ensures Did(old(orders), oid, r, Orders.StartCheckout(old(At(oid)), connected, providerUp, now))
    {
      hide Edge;
      var o := orders[oid];
      if o.paymentMethod != MercadoPago {
        return Err(PaymentMethodNotAllowed);
      }
      if !Expirable(o.status) {
        return Err(TransitionNotAllowed);
      }
      if o.buyer.None? || !o.buyer.value.hasEmail {
        return Err(BuyerDetailsRequired);
      }
      if !connected {
        return Err(PaymentConnectionRequired);
      }
      var payment := PaymentRow(oid, MercadoPagoProvider);
      if !payment.hasPreference && !providerUp {
        return Err(ProviderUnavailable);
      }
      SavePayment(oid, payment.(hasPreference := true));
      if orders[oid].status == Reserved {
        var _ :- TransitionOrder(oid, PurchaseInProgress, CheckoutStarted, now);
      } else {
        AppendEvent(oid, CheckoutStarted);
      }
      return Ok(());
    }

    method PrepareReceipt(oid: nat) returns (r: Result<()>)
      requires oid < |orders| && Indexed()
      modifies this`orders
      ensures Did(old(orders), oid, r, Orders.PrepareReceipt(old(At(oid))))
    {
      var o := orders[oid];
      if o.paymentMethod != BankTransfer {
        return Err(PaymentMethodNotAllowed);
      }
      if !Expirable(o.status) {
        return Err(TransitionNotAllowed);
      }
      if o.buyer.None? || !o.buyer.value.deliveryReady {
        return Err(DeliveryDetailsRequired);
      }
      var payment := PaymentRow(oid, NoProvider);
      if payment.proof.Some? && payment.proof.value != ProofPending {
        return Err(PaymentProofAlreadyUploaded);
      }
      SavePayment(oid, payment.(proof := Some(ProofPending)));
      return Ok(());
    }

    method MarkProofReady(oid: nat, now: Time) returns (r: Result<()>)
      requires oid < |orders| && Indexed()
      modifies this`orders
      ensures Did(old(orders), oid, r, Orders.MarkProofReady(old(At(oid)), now))
    {
      hide Edge;
      var p := orders[oid].payment;
      if p.None? || p.value.proof.None? {
        return Err(NotFound);
      }
      if p.value.proof.value == ProofReady {
        return Ok(());
      }
      if !Expirable(orders[oid].status) {
        return Err(TransitionNotAllowed);
      }
      SavePayment(oid, p.value.(proof := Some(ProofReady), status := PaymentValidation));
      var _ :- TransitionOrder(oid, PurchaseValidation, ProofUploaded, now);
      return Ok(());
    }

    method ReviewProof(oid: nat, approved: bool, now: Time) returns (r: Result<()>)
      requires oid < |orders| && Indexed()
      modifies this`orders, this`issues, stock
      ensures Did(old(orders), oid, r, Orders.ReviewProof(old(At(oid)), oid, approved, now))
    {
      hide Edge, Approve, ReleaseReservations, UniqueActive;
      var p := orders[oid].payment;
      if p.None? || p.value.proof.None? || p.value.proof.value == ProofPending {
        return Err(PaymentProofRequired);
      }
      if orders[oid].status == (if approved then Paid else Cancelled) {
        return Ok(());
      }
      if orders[oid].status != PurchaseValidation {
        return Err(TransitionNotAllowed);
      }
      if approved {
        SavePayment(oid, p.value.(proof := Some(ProofApproved)));
        var _ :- ApprovePayment(oid, now, None, now);
      } else {
        SavePayment(oid, p.value.(proof := Some(ProofRejected), status := PaymentRejected));
        var _ :- ReleaseOrderReservations(oid, now);
        var _ :- TransitionOrder(oid, Cancelled, ProofTurnedDown, now);
      }
      return Ok(());
    }

    method ConfirmManual(oid: nat, amount: Option<int>, paidAt: Time, now: Time) returns (r: Result<()>)
      requires oid < |orders| && Indexed()
      modifies this`orders, this`issues, stock
      ensures Did(old(orders), oid, r, Orders.ConfirmManual(old(At(oid)), oid, amount, paidAt, now))
    {
      hide Approve, UniqueActive;
      if amount.None? {
        return Err(ValidationError);
      }
      var payment := PaymentRow(oid, NoProvider);
      var o := orders[oid];
      if o.status == Paid && payment.status == PaymentApproved {
        return Ok(());
      }
      if o.paymentMethod == MercadoPago {
        return Err(PaymentMethodNotAllowed);
      }
      if o.paymentMethod == BankTransfer && o.status == PurchaseValidation {
        return Err(PaymentProofReviewRequired);
      }
      if amount.value != o.total {
        return Err(PaymentAmountMismatch);
      }
      var _ :- ApprovePayment(oid, paidAt, None, now);
      return Ok(());
    }

    method CancelOrder(oid: nat, now: Time) returns (r: Result<()>)
      requires oid < |orders| && Indexed()
      modifies this`orders, stock
      ensures Did(old(orders), oid, r, Cancel(old(At(oid)), now))
    {
      hide Edge, ReleaseReservations, UniqueActive, Voided;
      if orders[oid].status == Cancelled {
        return Ok(());
      }
      if !IsActive(orders[oid].status) {
        return Err(TransitionNotAllowed);
      }
      var _ :- ReleaseOrderReservations(oid, now);
      VoidPayment(oid, true);
      var _ :- TransitionOrder(oid, Cancelled, OrderCancelled, now);
      return Ok(());
    }

    method ExpireOrder(oid: nat, now: Time) returns (r: Result<()>)
      requires oid < |orders| && Indexed()
      modifies this`orders, stock
      ensures Did(old(orders), oid, r, Expire(old(At(oid)), now))
    {
      hide Edge, ReleaseReservations, UniqueActive, Voided;
      if !Expirable(orders[oid].status) || orders[oid].expiresAt > now {
        return Ok(());
      }
      var _ :- ReleaseOrderReservations(oid, now);
      VoidPayment(oid, false);
      var _ :- TransitionOrder(oid, Expired, OrderExpired, now);
      return Ok(());
    }

    /** The newest seller cancellation, found by reading the timeline backwards. */
    method FindCancellation(oid: nat) returns (event: Option<TimelineEvent>)
      requires oid < |orders|
      ensures event == LastCancellation(orders[oid].timeline)
    {
      var timeline := orders[oid].timeline;
      var i := |timeline|;
      assert timeline[..i] == timeline;
      while i > 0
        invariant 0 <= i <= |timeline|
        invariant LastCancellation(timeline) == LastCancellation(timeline[..i])
      {
        assert timeline[..i][..i - 1] == timeline[..i - 1];
        if timeline[i - 1].kind == OrderCancelled {
          return Some(timeline[i - 1]);
        }
        i := i - 1;
      }
      return None;
    }

    method TargetOfRestore(oid: nat) returns (r: Result<Status>)
      requires oid < |orders|
      ensures r == RestoreTarget(orders[oid])
    {
      var event := FindCancellation(oid);
      hide LastCancellation;
      if event.None? || event.value.from.None? || !IsActive(event.value.from.value) {
        return Err(TransitionNotAllowed);
      }
      var target := event.value.from.value;
      if target != PurchaseValidation {
        return Ok(target);
      }
      var o := orders[oid];
      if o.payment.Some? && o.payment.value.proof == Some(ProofReady) {
        return Ok(PurchaseValidation);
      }
      if o.buyer.Some? {
        return Ok(PurchaseInProgress);
      }
      return Ok(Reserved);
    }

    method RevivePayment(oid: nat, target: Status)
      requires oid < |orders|
      modifies this`orders
      ensures Others(old(orders), oid)
      ensures orders[oid] == old(orders[oid]).(payment := Revived(old(orders[oid]).payment, target))
    {
      var p := orders[oid].payment;
      if p.None? || p.value.status != PaymentCancelled {
        return;
      }
      var status := if target == PurchaseValidation && p.value.proof == Some(ProofReady) then PaymentValidation else PaymentPending;
      SavePayment(oid, p.value.(status := status));
    }

    method RestoreOrder(oid: nat, now: Time, ttl: Time) returns (r: Result<()>)
      requires oid < |orders| && Indexed()
      modifies this`orders, stock
      ensures Did(old(orders), oid, r, Restore(old(At(oid)), now, ttl))
    {
      hide Edge, ReopenReservations, RestoreTarget, UniqueActive, Revived;
      if IsActive(orders[oid].status) {
        return Ok(());
      }
      if orders[oid].status != Cancelled {
        return Err(TransitionNotAllowed);
      }
      var target :- TargetOfRestore(oid);
      var expiresAt := now + ttl;
      var _ :- ReopenOrderReservations(oid, expiresAt);
      RevivePayment(oid, target);
      SaveOrder(oid, orders[oid].(expiresAt := expiresAt));
      var _ :- TransitionOrder(oid, target, OrderRestored, now);
      return Ok(());
    }

    method RefundPayment(oid: nat, connected: bool, providerUp: bool, now: Time) returns (r: Result<()>)
      requires oid < |orders| && Indexed()
      modifies this`orders, this`issues
      ensures Did(old(orders), oid, r, Refund(old(At(oid)), oid, connected, providerUp, now))
    {
      hide Edge, Mark;
      if orders[oid].status == Refunded {
        return Ok(());
      }
      var payment := orders[oid].payment;
      if orders[oid].status != Paid || payment.None? || payment.value.status != PaymentApproved {
        return Err(TransitionNotAllowed);
      }
      var p := payment.value;
      if p.provider == MercadoPagoProvider {
        if !p.hasProviderId {
          MarkReconciliationRequired(oid, UnknownPayment, None);
          return Ok(());
        }
        if !connected {
          return Err(PaymentConnectionRequired);
        }
        if !providerUp {
          return Err(ProviderUnavailable);
        }
      }
      SavePayment(oid, p.(status := PaymentRefunded, refundedAmount := p.amount));
      var _ :- TransitionOrder(oid, Refunded, PaymentReturned, now);
      return Ok(());
    }

    method ResendLink(oid: nat) returns (r: Result<()>)
      requires oid < |orders| && Indexed()
      modifies this`orders
      ensures Did(old(orders), oid, r, Orders.ResendLink(old(At(oid))))
    {
      var o := orders[oid];
      if !IsActive(o.status) {
        return Err(TransitionNotAllowed);
      }
      if o.buyer.None? || !o.buyer.value.hasEmail {
        return Err(BuyerEmailRequired);
      }
      AppendEvent(oid, LinkResent);
      return Ok(());
    }

    method SendOffer(oid: nat) returns (r: Result<()>)
      requires oid < |orders| && Indexed()
      modifies this`orders
      ensures Did(old(orders), oid, r, Orders.SendOffer(old(At(oid))))
    {
      var o := orders[oid];
      if !IsActive(o.status) {
        return Err(TransitionNotAllowed);
      }
      var buyer := if o.buyer.Some? then o.buyer.value.(hasEmail := true) else Buyer(true, false);
      SaveOrder(oid, o.(buyer := Some(buyer)));
      AppendEvent(oid, OfferSent);
      return Ok(());
    }

    method RetryIssue(oid: nat, issue: nat) returns (r: Result<()>)
      requires oid < |orders| && Indexed()
      modifies this`orders, this`issues
      ensures Did(old(orders), oid, r, Orders.RetryIssue(old(At(oid)), oid, issue))
    {
      if issue >= |issues| || issues[issue].order != Some(oid) {
        return Err(NotFound);
      }
      if issues[issue].status == IssueResolved {
        return Ok(());
      }
      issues := issues[issue := issues[issue].(status := IssueRetrying)];
      SaveOrder(oid, orders[oid].(reconciliation := ReconciliationRetrying));
      return Ok(());
    }

    // ----- Provider snapshots

    method ApplyApproved(oid: nat, s: Snapshot, event: nat, now: Time) returns (r: Result<()>)
      requires oid < |orders| && Indexed() && orders[oid].payment.Some? && s.status == SnapshotApproved
      modifies this`orders, this`issues, stock
      ensures Did(old(orders), oid, r, ApplyStatus(old(At(oid)), oid, s, event, now))
    {
      hide Approve, Mark, UniqueActive, ReleaseReservations;
      var o := orders[oid];
      if o.status == Paid && o.payment.value.status == PaymentApproved {
        return Ok(());
      }
      if o.status == Cancelled || o.status == Expired {
        MarkReconciliationRequired(oid, PaidWithoutStock, Some(event));
        return Ok(());
      }
      if o.status == Refunded {
        return Ok(());
      }
      var _ :- ApprovePayment(oid, if s.approvedAt.Some? then s.approvedAt.value else now, Some(event), now);
      return Ok(());
    }

    method ApplyRejected(oid: nat, s: Snapshot, event: nat, now: Time) returns (r: Result<()>)
      requires oid < |orders| && Indexed() && orders[oid].payment.Some?
      requires s.status == SnapshotRejected || s.status == SnapshotCancelled
      modifies this`orders, this`issues, stock
      ensures Did(old(orders), oid, r, ApplyStatus(old(At(oid)), oid, s, event, now))
    {
      hide Edge, Approve, Mark, UniqueActive, ReleaseReservations;
      var o := orders[oid];
      if o.status == Cancelled || o.status == Expired {
        return Ok(());
      }
      if o.status == Paid {
        MarkReconciliationRequired(oid, ProviderStatusIssue, Some(event));
        return Ok(());
      }
      if IsActive(o.status) {
        var rejected := s.status == SnapshotRejected;
        RowStepsKeep(At(oid), oid, now);
        var _ :- ReleaseOrderReservations(oid, now);
        SavePayment(oid, o.payment.value.(status := if rejected then PaymentRejected else PaymentCancelled));
        var _ :- TransitionOrder(oid, Cancelled, if rejected then PaymentTurnedDown else PaymentWithdrawn, now);
      }
      return Ok(());
    }

    method ApplyRefunded(oid: nat, s: Snapshot, event: nat, now: Time) returns (r: Result<()>)
      requires oid < |orders| && Indexed() && orders[oid].payment.Some? && s.status == SnapshotRefunded
      modifies this`orders, this`issues
      ensures Did(old(orders), oid, r, ApplyStatus(old(At(oid)), oid, s, event, now))
    {
      hide Edge, Approve, Mark, UniqueActive, ReleaseReservations;
      var p := orders[oid].payment.value;
      var refunded := if s.refunded.Some? && s.refunded.value != 0 then s.refunded.value else p.amount;
      p := p.(refundedAmount := Min(refunded, p.amount));
      if p.refundedAmount < 0 {
        return Err(IntegrityError);
      }
      if p.refundedAmount == p.amount && orders[oid].status == Paid {
        SavePayment(oid, p.(status := PaymentRefunded));
        var _ :- TransitionOrder(oid, Refunded, PaymentReturned, now);
      } else {
        SavePayment(oid, p);
        MarkReconciliationRequired(oid, PartialRefund, Some(event));
      }
      return Ok(());
    }

    method ApplyProviderSnapshot(oid: nat, s: Snapshot, event: nat, now: Time) returns (r: Result<()>)
      requires oid < |orders| && Indexed() && orders[oid].payment.Some?
      modifies this`orders, this`issues, stock
      ensures Did(old(orders), oid, r, ApplySnapshot(old(At(oid)), oid, s, event, now))
    {
      hide Approve, Mark, UniqueActive, ReleaseReservations, Transition, ReportedRefund;
      var p := orders[oid].payment.value;
      var mismatch := s.reference != Some(oid) || s.amount != p.amount || !s.currencyOk;
      var feeMismatch := s.fee.Some? && s.fee.value != 0;
      if mismatch || feeMismatch {
        MarkReconciliationRequired(oid, if mismatch then PaymentMismatch else FeeMismatch, Some(event));
        return Ok(());
      }
      SavePayment(oid, p.(hasProviderId := s.hasId));
      match s.status {
        case SnapshotApproved =>
          r := ApplyApproved(oid, s, event, now);
        case SnapshotRejected =>
          r := ApplyRejected(oid, s, event, now);
        case SnapshotCancelled =>
          r := ApplyRejected(oid, s, event, now);
        case SnapshotPending =>
          if p.status != PaymentApproved {
            SavePayment(oid, orders[oid].payment.value.(status := PaymentPending));
          }
          r := Ok(());
        case SnapshotRefunded =>
          r := ApplyRefunded(oid, s, event, now);
        case SnapshotUnknown =>
          MarkReconciliationRequired(oid, ProviderStatusIssue, Some(event));
          r := Ok(());
      }
    }

    /** Close the pending issues of one webhook event. */
    method ResolveEvent(event: nat)
      modifies this`issues
      ensures issues == ResolvePending(old(issues), event)
    {
      for i := 0 to |issues|
        invariant |issues| == |old(issues)|
        invariant forall k {:trigger issues[k]} :: 0 <= k < i ==> issues[k] == ResolvePending(old(issues), event)[k]
        invariant forall k {:trigger issues[k]} :: i <= k < |issues| ==> issues[k] == old(issues)[k]
      {
        if issues[i].event == Some(event) && issues[i].kind == WebhookPending {
          issues := issues[i := issues[i].(status := IssueResolved)];
        }
      }
    }

    /** What handling one webhook event does to its order. */
    method SettleEvent(oid: nat, s: Snapshot, event: nat, now: Time) returns (r: Result<()>)
      requires oid < |orders| && Indexed()
      modifies this`orders, this`issues, stock
      ensures Did(old(orders), oid, r, Settle(old(At(oid)), oid, s, event, now))
    {
      hide ApplySnapshot, Mark, UniqueActive, ResolvePending, ClearIfResolved;
      var payment := PaymentRow(oid, MercadoPagoProvider);
      if payment.provider == OtherProvider {
        MarkReconciliationRequired(oid, PaymentMismatch, Some(event));
      } else {
        SavePayment(oid, payment.(provider := MercadoPagoProvider));
        var _ :- ApplyProviderSnapshot(oid, s, event, now);
      }
      ResolveEvent(event);
      ResolveIfClear(oid);
      return Ok(());
    }

    // ----- Creating and reissuing sales

    method CleanCart(inputs: seq<LineInput>) returns (r: Result<(seq<Line>, nat)>)
      ensures r == NormaliseLines(stock.products, inputs)
    {
      if inputs == [] {
        return Err(ValidationError);
      }
      var products := stock.products;
      if exists i :: 0 <= i < |inputs| && inputs[i].product >= |products| {
        return Err(NotFound);
      }
      var cleaned: seq<Line> := [];
      var total := 0;
      var i := 0;
      while i < |inputs|
        invariant 0 <= i <= |inputs|
        invariant CleanLines(products, inputs[..i]) == Ok((cleaned, total))
      {
        NextLine(products, inputs, i);
        var attempt := CleanLine(products, inputs[i]);
        if attempt.Err? || total + attempt.value.LineTotal() > MAX_ORDER_TOTAL {
          FirstComplaintStays(products, inputs, i + 1);
          return Err(if attempt.Err? then attempt.error else ValidationError);
        }
        total := total + attempt.value.LineTotal();
        cleaned := cleaned + [attempt.value];
        i := i + 1;
      }
      assert inputs[..i] == inputs;
      return Ok((cleaned, total));
    }

    method CreateOrder(inputs: seq<LineInput>, mode: DeliveryMode, payBy: PaymentMethod, setup: Setup, expiresAt: Time)
      returns (r: Result<nat>)
      requires Indexed()
      modifies this`orders, stock
      ensures Indexed()
      ensures match Shop.CreateOrder(old(Db()), inputs, mode, payBy, setup, expiresAt)
              case Ok(d) => r == Ok(|old(orders)|) && Db() == d && |orders| == |old(orders)| + 1
              case Err(e) => r == Err(e)
    {
      hide NormaliseLines, Transact, UniqueActive, NewOrder;
      var clean :- CleanCart(inputs);
      if payBy == BankTransfer && !setup.bankReady {
        return Err(BankDetailsRequired);
      }
      if payBy == MercadoPago && !setup.connected {
        return Err(PaymentConnectionRequired);
      }
      var _ :- stock.ReserveStock(LineRequests(clean.0));
      orders := orders + [NewOrder(clean.0, clean.1, mode, payBy, expiresAt)];
      return Ok(|orders| - 1);
    }

    method SupersedeOrder(oid: nat, now: Time) returns (r: Result<()>)
      requires oid < |orders| && Indexed()
      modifies this`orders, stock
      ensures Did(old(orders), oid, r, Supersede(old(At(oid)), now))
    {
      hide Edge, ReleaseReservations, UniqueActive, Voided;
      if orders[oid].paymentMethod != BankTransfer {
        return Err(PaymentMethodNotAllowed);
      }
      if orders[oid].status != PurchaseValidation {
        return Err(TransitionNotAllowed);
      }
      var _ :- ReleaseOrderReservations(oid, now);
      VoidPayment(oid, true);
      var p := orders[oid].payment;
      if p.Some? && p.value.proof == Some(ProofReady) {
        SavePayment(oid, p.value.(proof := Some(ProofRejected)));
      }
      var _ :- TransitionOrder(oid, Cancelled, OrderReissued, now);
      return Ok(());
    }

    method ReissueOffer(oid: nat, setup: Setup, now: Time, ttl: Time) returns (r: Result<()>)
      requires Indexed()
      modifies this`orders, stock
      ensures Indexed()
      ensures match Reissue(old(Db()), oid, setup, now, ttl)
              case Ok(d) => r.Ok? && Db() == d
              case Err(e) => r == Err(e)
    {
      hide Supersede, Shop.CreateOrder, UniqueActive;
      if oid >= |orders| {
        return Err(NotFound);
      }
      var superseded := orders[oid];
      ghost var db := Db();
      var _ :- SupersedeOrder(oid, now);
      assert Db() == Commit(db, oid, At(oid));
      var replacement :- CreateOrder(InputsOf(superseded.lines), superseded.deliveryMode, BankTransfer, setup, now + ttl);
      orders := orders[replacement := PublishNew(orders[replacement], now)];
      return Ok(());
    }

    // ----- One transaction

    /** The body of the transaction for a command on one order. */
    method PerformCommand(oid: nat, c: Command) returns (r: Result<()>)
      requires oid < |orders| && Indexed()
      modifies this`orders, this`issues, stock
      ensures Did(old(orders), oid, r, Perform(old(At(oid)), oid, c))
    {
      hide UniqueActive, Mark, Orders.PublishLink, Orders.SetBuyer, Orders.UpdateBuyer, Orders.StartCheckout,
           Orders.PrepareReceipt, Orders.MarkProofReady, Orders.ReviewProof, Orders.ConfirmManual, Cancel, Restore, Refund,
           Orders.ResendLink, Orders.SendOffer, Expire, Settle, Orders.RetryIssue;
      match c {
        case DoPublishLink(now) => r := PublishLink(oid, now);
        case DoSetBuyer(details, now) => r := SetBuyer(oid, details, now);
        case DoUpdateBuyer(details) => r := UpdateBuyer(oid, details);
        case DoStartCheckout(connected, providerUp, now) => r := StartCheckout(oid, connected, providerUp, now);
        case DoPrepareReceipt => r := PrepareReceipt(oid);
        case DoMarkProofReady(now) => r := MarkProofReady(oid, now);
        case DoReviewProof(approved, now) => r := ReviewProof(oid, approved, now);
        case DoConfirmManual(amount, paidAt, now) => r := ConfirmManual(oid, amount, paidAt, now);
        case DoCancel(now) => r := CancelOrder(oid, now);
        case DoRestore(now, ttl) => r := RestoreOrder(oid, now, ttl);
        case DoRefund(connected, providerUp, now) => r := RefundPayment(oid, connected, providerUp, now);
        case DoResendLink => r := ResendLink(oid);
        case DoSendOffer => r := SendOffer(oid);
        case DoExpire(now) => r := ExpireOrder(oid, now);
        case DoSettle(snapshot, event, now) => r := SettleEvent(oid, snapshot, event, now);
        case DoFailWebhook(event) =>
          MarkReconciliationRequired(oid, WebhookPending, Some(event));
          r := Ok(());
        case DoRetryIssue(issue) => r := RetryIssue(oid, issue);
      }
    }

    method ChangeOrderRows(oid: nat, c: Command) returns (r: Result<()>)
      requires Indexed()
      modifies this`orders, this`issues, stock
      ensures Indexed()
      ensures match OnOrder(old(Db()), oid, c)
              case Ok(d) => r.Ok? && Db() == d
              case Err(e) => r == Err(e)
    {
      hide Perform, UniqueActive;
      if oid >= |orders| {
        return Err(NotFound);
      }
      ghost var db := Db();
      r := PerformCommand(oid, c);
      if r.Ok? {
        assert Db() == Commit(db, oid, At(oid));
      }
    }

    method ChangeStock(a: Action) returns (r: Result<()>)
      requires Indexed() && !a.CreateSale? && !a.ChangeOrder? && !a.ReissueSale?
      modifies stock
      ensures Indexed()
      ensures match Attempt(old(Db()), a)
              case Ok(d) => r.Ok? && Db() == d
              case Err(e) => r == Err(e)
    {
      hide UniqueActive, Shop.CreateProduct, RecordMovement, ArchiveProduct, RestoreProduct, UpdateProduct, SetShopThreshold,
           SetProductThreshold;
      match a {
        case AddProduct(product, initial) => r := stock.CreateProduct(product, initial);
        case MoveStock(p, kind, quantity) => r := stock.RecordStockMovement(p, kind, quantity);
        case Archive(p) => r := stock.ArchiveProduct(p);
        case Unarchive(p) => r := stock.RestoreProduct(p);
        case EditProduct(p, name, status, price) => r := stock.UpdateProduct(p, name, status, price);
        case ShopThreshold(threshold) =>
          stock.UpdateInventoryThreshold(threshold);
          r := Ok(());
        case ProductThreshold(p, override) => r := stock.UpdateProductThreshold(p, override);
      }
    }

    /** Run one command in a transaction: commit what it wrote, or restore every row it touched. */
    method Execute(a: Action) returns (r: Result<()>)
      requires Indexed()
      modifies this, stock
      ensures Indexed() && Db() == Step(old(Db()), a)
      ensures match Attempt(old(Db()), a)
              case Ok(_) => r.Ok?
              case Err(e) => r == Err(e)
    {
      hide UniqueActive, Shop.CreateOrder, OnOrder, Reissue, OnTables, SetShopThreshold;
      var savedOrders, savedIssues := orders, issues;
      var products, threshold, balances, alerts, movements :=
        stock.products, stock.lowStockThreshold, stock.balances, stock.alerts, stock.movements;
      match a {
        case CreateSale(inputs, mode, payBy, setup, expiresAt) =>
          var created := CreateOrder(inputs, mode, payBy, setup, expiresAt);
          r := if created.Ok? then Ok(()) else Err(created.error);
        case ChangeOrder(oid, command) =>
          r := ChangeOrderRows(oid, command);
        case ReissueSale(oid, setup, now, ttl) =>
          r := ReissueOffer(oid, setup, now, ttl);
        case _ =>
          r := ChangeStock(a);
      }
      if r.Err? {
        orders, issues := savedOrders, savedIssues;
        stock.products, stock.lowStockThreshold, stock.balances, stock.alerts, stock.movements :=
          products, threshold, balances, alerts, movements;
      }
    }

    /** Serve a whole run of commands; a valid shop stays valid. */
    method Serve(actions: seq<Action>)
      requires Indexed()
      modifies this, stock
      ensures Indexed() && Db() == Run(old(Db()), actions)
      ensures Valid(old(Db())) ==> Valid(Db())
    {
      hide UniqueActive, Step, Valid;
      for i := 0 to |actions|
        invariant Indexed() && Db() == Run(old(Db()), actions[..i])
      {
        assert actions[..i + 1][..i] == actions[..i];
        var _ := Execute(actions[i]);
      }
      assert actions[..|actions|] == actions;
      if Valid(old(Db())) {
        RunValid(old(Db()), actions);
      }
    }
  }

  lemma {:induction false} OpenRowsRequested(rs: seq<Reservation>)
    ensures forall k :: 0 <= k < |rs| && PhaseOf(rs[k]) == Open ==> rs[k].product in Requested(RequestsOf(rs, Open))
  {
    RequestsMeaning(rs, Open);
    hide RequestsOf;
    forall k | 0 <= k < |rs| && PhaseOf(rs[k]) == Open ensures rs[k].product in Requested(RequestsOf(rs, Open)) {
      assert Request(rs[k].product, rs[k].quantity) in RequestsOf(rs, Open);
    }
  }

  lemma {:induction false} NothingConsumed(v: Locked, oid: nat, now: Time)
    ensures var r := ConsumeReservations(v, oid, now);
            r.Ok? && !r.value.1 ==> r.value.0 == v
  {
    hide Transact, RequestsOf, Has;
  }

  lemma {:induction false} NextLine(products: seq<Product>, inputs: seq<LineInput>, i: nat)
    requires i < |inputs| && forall k :: 0 <= k < |inputs| ==> inputs[k].product < |products|
    requires CleanLines(products, inputs[..i]).Ok?
    ensures var earlier := CleanLines(products, inputs[..i]).value;
            var line := CleanLine(products, inputs[i]);
            CleanLines(products, inputs[..i + 1]) ==
            if line.Err? then Err(line.error)
            else if earlier.1 + line.value.LineTotal() > MAX_ORDER_TOTAL then Err(ValidationError)
            else Ok((earlier.0 + [line.value], earlier.1 + line.value.LineTotal()))
  {
    assert inputs[..i + 1][..i] == inputs[..i];
    hide CleanLine;
  }

  lemma {:induction false} FirstComplaintStays(products: seq<Product>, inputs: seq<LineInput>, n: nat)
    requires n <= |inputs| && forall k :: 0 <= k < |inputs| ==> inputs[k].product < |products|
    requires CleanLines(products, inputs[..n]).Err?
    ensures CleanLines(products, inputs) == CleanLines(products, inputs[..n])
    decreases |inputs|
  {
    hide CleanLine;
    if n == |inputs| {
      assert inputs[..n] == inputs;
    } else {
      var init := inputs[..|inputs| - 1];
      assert init[..n] == inputs[..n];
      FirstComplaintStays(products, init, n);
    }
  }
}
