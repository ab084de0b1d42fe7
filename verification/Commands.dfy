/** Every order command takes a valid order to a valid order and moves only its own claim on the stock. */
module Commands {
  import opened Prelude
  import opened Inventory
  import opened Stock
  import opened Orders
  import opened Invariant
  import opened Preserve

  // ----- Timeline and header

  lemma {:induction false} ChainNoted(timeline: seq<TimelineEvent>, s: Status, kind: EventKind)
    requires Chain(timeline, s)
    ensures Chain(timeline + [TimelineEvent(kind, None, None)], s)
  {
    assert (timeline + [TimelineEvent(kind, None, None)])[..|timeline|] == timeline;
  }

  lemma {:induction false} ChainMoved(o: Order, target: Status, kind: EventKind, now: Time)
    requires Chain(o.timeline, o.status) && Edge(o.status, target)
    ensures Chain(Moved(o, target, kind, now).timeline, target)
  {
    var e := TimelineEvent(kind, Some(o.status), Some(target));
    assert (o.timeline + [e])[..|o.timeline|] == o.timeline;
  }

  lemma {:induction false} HeaderNoted(o: Order, kind: EventKind)
    requires HeaderOk(o)
    ensures HeaderOk(Noted(o, kind))
  {
    ChainNoted(o.timeline, o.status, kind);
  }

  /** Nothing but header fields differ. */
  predicate SameBody(o: Order, r: Order) {
    r.lines == o.lines && r.total == o.total && r.reservations == o.reservations
  }

  predicate Quiet(v: Locked, w: Locked) {
    && w.t == v.t
    && SameBody(v.order, w.order)
    && PhaseFor(w.order.status) == PhaseFor(v.order.status)
    && HeaderOk(w.order)
  }

  lemma {:induction false} QuietSteps(v: Locked, w: Locked, oid: nat)
    requires Ready(v, oid) && Quiet(v, w)
    ensures Steps(v, w, oid)
  {
    QuietBody(v.order, w.order, oid, |v.t.products|, v.t.movements, PhaseFor(v.order.status));
    assert Sound(v.t);
    hide BodyOk, Sound, HeaderOk, Ready;
  }

  lemma {:induction false} QuietBody(o: Order, r: Order, oid: nat, products: nat, movements: seq<Movement>, phase: Phase)
    requires BodyOk(o, oid, products, movements, phase) && SameBody(o, r)
    ensures BodyOk(r, oid, products, movements, phase)
  {
  }

  /** A body moved to the phase its new status calls for, under a good header. */
  lemma {:induction false} LoudSteps(v: Locked, m: Locked, w: Locked, oid: nat, phase: Phase)
    requires Rephased(v, m, oid, phase)
    requires w.t == m.t && SameBody(m.order, w.order) && HeaderOk(w.order) && PhaseFor(w.order.status) == phase
    ensures Steps(v, w, oid)
  {
    QuietBody(m.order, w.order, oid, |m.t.products|, m.t.movements, phase);
    hide BodyOk, Sound, HeaderOk;
  }

  /** Fields outside the header may change freely; a payment may always be sent to reconciliation. */
  lemma {:induction false} ReconciledHeader(o: Order, r: ReconciliationStatus)
    requires HeaderOk(o)
    ensures HeaderOk(o.(reconciliation := r))
    ensures o.payment.Some? ==> HeaderOk(o.(payment := Some(o.payment.value.(status := PaymentReconciliation))))
  {
    hide Chain;
  }

  lemma {:induction false} MarkQuiet(v: Locked, oid: nat, kind: IssueKind, event: Option<nat>)
    requires HeaderOk(v.order)
    ensures Quiet(v, Mark(v, oid, kind, event))
    ensures Mark(v, oid, kind, event).order.status == v.order.status
  {
    hide HeaderOk, Report;
    var required := v.order.(reconciliation := ReconciliationRequired);
    ReconciledHeader(v.order, ReconciliationRequired);
    HeaderNoted(required, ReconciliationOpened);
    ReconciledHeader(required, ReconciliationRequired);
    ReconciledHeader(Noted(required, ReconciliationOpened), ReconciliationRequired);
  }

  lemma {:induction false} ClearQuiet(v: Locked, oid: nat)
    requires HeaderOk(v.order)
    ensures Quiet(v, ClearIfResolved(v, oid))
  {
    hide HeaderOk, Unresolved;
    ReconciledHeader(v.order, ReconciliationOk);
    HeaderNoted(v.order.(reconciliation := ReconciliationOk), ReconciliationResolved);
  }

  lemma {:induction false} NewPaymentHeader(o: Order, provider: Provider)
    requires HeaderOk(o)
    ensures HeaderOk(WithPayment(o, PaymentOf(o, provider)))
  {
  }

  // ----- Commands that leave the stock alone

  lemma {:induction false} NotedQuiet(v: Locked, o: Order, kind: EventKind)
    requires HeaderOk(o) && SameBody(v.order, o) && o.status == v.order.status
    ensures Quiet(v, v.(order := Noted(o, kind)))
  {
    HeaderNoted(o, kind);
  }

  lemma {:induction false} NotingCommands(v: Locked, oid: nat, c: Command)
    requires HeaderOk(v.order)
    requires c.DoPublishLink? || c.DoUpdateBuyer? || c.DoResendLink? || c.DoSendOffer?
    requires Perform(v, oid, c).Ok?
    ensures Quiet(v, Perform(v, oid, c).value)
  {
    var w := Perform(v, oid, c).value;
    match c {
      case DoPublishLink(now) => NotedQuiet(v, v.order.(publishedAt := Some(now)), LinkPublished);
      case DoUpdateBuyer(details) => NotedQuiet(v, v.order.(buyer := w.order.buyer), BuyerUpdated);
      case DoResendLink => NotedQuiet(v, v.order, LinkResent);
      case DoSendOffer => NotedQuiet(v, v.order.(buyer := w.order.buyer), OfferSent);
    }
    hide Chain, Noted;
  }

  lemma {:induction false} PrepareQuiet(v: Locked)
    requires HeaderOk(v.order) && PrepareReceipt(v).Ok?
    ensures Quiet(v, PrepareReceipt(v).value)
  {
    NewPaymentHeader(v.order, NoProvider);
  }

  lemma {:induction false} SetBuyerQuiet(v: Locked, details: Option<Buyer>, now: Time)
    requires HeaderOk(v.order) && SetBuyer(v, details, now).Ok?
    ensures Quiet(v, SetBuyer(v, details, now).value)
  {
    var o := v.order.(buyer := SetBuyer(v, details, now).value.order.buyer);
    if o.status == Reserved {
      ChainMoved(o, PurchaseInProgress, BuyerCompleted, now);
    } else {
      HeaderNoted(o, BuyerUpdated);
    }
  }

  lemma {:induction false} CheckoutQuiet(v: Locked, connected: bool, providerUp: bool, now: Time)
    requires HeaderOk(v.order) && StartCheckout(v, connected, providerUp, now).Ok?
    ensures Quiet(v, StartCheckout(v, connected, providerUp, now).value)
  {
    var o := WithPayment(v.order, PaymentOf(v.order, MercadoPagoProvider).(hasPreference := true));
    assert HeaderOk(o);
    if o.status == Reserved {
      ChainMoved(o, PurchaseInProgress, CheckoutStarted, now);
    } else {
      HeaderNoted(o, CheckoutStarted);
    }
  }

  lemma {:induction false} ProofReadyQuiet(v: Locked, now: Time)
    requires HeaderOk(v.order) && MarkProofReady(v, now).Ok?
    ensures Quiet(v, MarkProofReady(v, now).value)
  {
    if v.order.payment.value.proof.value != ProofReady {
      var p := v.order.payment.value;
      ChainMoved(WithPayment(v.order, p.(proof := Some(ProofReady), status := PaymentValidation)),
                 PurchaseValidation, ProofUploaded, now);
    }
  }

  lemma {:induction false} RefundedHeader(o: Order, r: Order, p: Payment, now: Time)
    requires HeaderOk(o) && o.status == Paid && p.amount == o.total && 0 <= p.refundedAmount <= p.amount
    requires p.status == PaymentRefunded && r == WithPayment(o, p)
    ensures HeaderOk(Moved(r, Refunded, PaymentReturned, now))
  {
    ChainMoved(r, Refunded, PaymentReturned, now);
    hide Chain;
  }

  lemma {:induction false} PaymentRow(o: Order)
    requires HeaderOk(o) && o.payment.Some?
    ensures o.payment.value.amount == o.total && 0 <= o.payment.value.refundedAmount <= o.payment.value.amount
  {
    hide Chain;
  }

  lemma {:induction false} RefundQuiet(v: Locked, oid: nat, connected: bool, providerUp: bool, now: Time)
    requires HeaderOk(v.order) && Refund(v, oid, connected, providerUp, now).Ok?
    ensures Quiet(v, Refund(v, oid, connected, providerUp, now).value)
  {
    hide HeaderOk, Mark;
    if v.order.status != Refunded {
      MarkQuiet(v, oid, UnknownPayment, None);
      PaymentRow(v.order);
      var p := v.order.payment.value.(status := PaymentRefunded, refundedAmount := v.order.payment.value.amount);
      RefundedHeader(v.order, WithPayment(v.order, p), p, now);
    }
  }

  lemma {:induction false} ReadyHeader(v: Locked, oid: nat)
    requires Ready(v, oid)
    ensures HeaderOk(v.order)
  {
    hide HeaderOk, BodyOk, Sound;
  }

  // ----- Commands that release

  /** The common end of every cancellation: stock given back, payment row rewritten, status moved. */
  lemma {:induction false} CloseSteps(v: Locked, oid: nat, now: Time, payment: Option<Payment>, target: Status, kind: EventKind) returns (m: Locked)
    requires Ready(v, oid) && IsActive(v.order.status) && Edge(v.order.status, target)
    requires target == Cancelled || target == Expired
    requires PaymentOk(v.order.(payment := payment, status := target))
    ensures ReleaseReservations(v, now) == Ok(m)
    ensures m.order == v.order.(reservations := m.order.reservations)
    ensures Transition(m.order.(payment := payment), target, kind, now)
            == Ok(Moved(m.order.(payment := payment), target, kind, now))
    ensures Steps(v, m.(order := Moved(m.order.(payment := payment), target, kind, now)), oid)
  {
    ReadyHeader(v, oid);
    hide Ready, HeaderOk, PaymentOk, ReleaseReservations, Moves, BodyOk, StockStep, Steps, Edge, Moved;
    m := ReleaseStep(v, oid, now);
    var o := m.order.(payment := payment);
    ClosedHeader(v.order, o, payment, target, kind, now);
    LoudSteps(v, m, m.(order := Moved(o, target, kind, now)), oid, Released);
  }

  /** The header that a closing transition writes over released rows. */
  lemma {:induction false} ClosedHeader(was: Order, o: Order, payment: Option<Payment>, target: Status, kind: EventKind, now: Time)
    requires HeaderOk(was) && Edge(was.status, target) && (target == Cancelled || target == Expired)
    requires PaymentOk(was.(payment := payment, status := target))
    requires o == was.(reservations := o.reservations, payment := payment)
    ensures Transition(o, target, kind, now) == Ok(Moved(o, target, kind, now))
    ensures HeaderOk(Moved(o, target, kind, now)) && SameBody(o, Moved(o, target, kind, now))
    ensures PhaseFor(Moved(o, target, kind, now).status) == Released
  {
    ChainMoved(o, target, kind, now);
    hide Chain;
  }

  lemma {:induction false} CancelSteps(v: Locked, oid: nat, now: Time)
    requires Ready(v, oid) && (IsActive(v.order.status) || v.order.status == Cancelled)
    ensures Cancel(v, now).Ok? && Steps(v, Cancel(v, now).value, oid)
    ensures Cancel(v, now).value.order.status == Cancelled
  {
    if v.order.status == Cancelled {
      QuietSteps(v, v, oid);
    } else {
      var m := CloseSteps(v, oid, now, Voided(v.order.payment, true), Cancelled, OrderCancelled);
      hide Steps, ReleaseReservations, Ready;
    }
  }

  lemma {:induction false} ExpireSteps(v: Locked, oid: nat, now: Time)
    requires Ready(v, oid)
    ensures Expire(v, now).Ok? && Steps(v, Expire(v, now).value, oid)
  {
    if !Expirable(v.order.status) || v.order.expiresAt > now {
      QuietSteps(v, v, oid);
    } else {
      var m := CloseSteps(v, oid, now, Voided(v.order.payment, false), Expired, OrderExpired);
      hide Steps, ReleaseReservations, Ready;
    }
  }

  // ----- Commands that sell

  lemma {:induction false} ApproveIs(v: Locked, oid: nat, payment: Payment, paidAt: Time, event: Option<nat>, now: Time, m: Locked)
    requires IsActive(v.order.status) && ConsumeReservations(v, oid, now) == Ok((m, true))
    requires m.order == v.order.(reservations := m.order.reservations)
    ensures var o := WithPayment(m.order, payment.(status := PaymentApproved));
            Approve(v, oid, payment, paidAt, event, now)
            == Ok((m.(order := Moved(o, Paid, PaymentConfirmed, now).(paidAt := Some(paidAt))), true))
  {
    hide ConsumeReservations, Mark;
  }

  lemma {:induction false} PaidHeader(was: Order, o: Order, r: Order, payment: Payment, paidAt: Time, now: Time)
    requires HeaderOk(was) && IsActive(was.status)
    requires o.status == was.status && o.timeline == was.timeline && o.total == was.total
    requires o.payment == Some(payment.(status := PaymentApproved))
    requires PaymentOk(was.(payment := Some(payment.(status := PaymentApproved)), status := Paid))
    requires r == Moved(o, Paid, PaymentConfirmed, now).(paidAt := Some(paidAt))
    ensures HeaderOk(r)
  {
    ChainMoved(o, Paid, PaymentConfirmed, now);
  }

  /** An active order whose payment is approved is always sold: the flag is never false. */
  lemma {:induction false} ApproveSteps(v: Locked, oid: nat, payment: Payment, paidAt: Time, event: Option<nat>, now: Time) returns (w: Locked)
    requires Ready(v, oid) && IsActive(v.order.status)
    requires PaymentOk(v.order.(payment := Some(payment.(status := PaymentApproved)), status := Paid))
    ensures Approve(v, oid, payment, paidAt, event, now) == Ok((w, true))
    ensures Steps(v, w, oid) && w.order.status == Paid
    ensures w.order.payment == Some(payment.(status := PaymentApproved))
  {
    var m := ConsumeStep(v, oid, now);
    hide ConsumeReservations, Moves, BodyOk, StockStep, Steps, SaleLedger, Approve, Ready;
    var o := WithPayment(m.order, payment.(status := PaymentApproved));
    w := m.(order := Moved(o, Paid, PaymentConfirmed, now).(paidAt := Some(paidAt)));
    PaidHeader(v.order, o, w.order, payment, paidAt, now);
    hide HeaderOk, PaymentOk;
    LoudSteps(v, m, w, oid, Consumed);
    ApproveIs(v, oid, payment, paidAt, event, now, m);
  }

  /** Rows that differ only in the payment row lock the same stock. */
  lemma {:induction false} ReadyPaid(v: Locked, oid: nat, p: Payment)
    requires Ready(v, oid) && PaymentOk(WithPayment(v.order, p))
    ensures Ready(v.(order := WithPayment(v.order, p)), oid)
  {
    QuietBody(v.order, WithPayment(v.order, p), oid, |v.t.products|, v.t.movements, PhaseFor(v.order.status));
    assert Sound(v.t);
    hide BodyOk, Sound;
  }

  lemma {:induction false} SameStart(v: Locked, u: Locked, w: Locked, oid: nat)
    requires u.t == v.t && u.order.reservations == v.order.reservations
    requires Steps(u, w, oid)
    ensures Steps(v, w, oid)
  {
    hide OrderOk, Sound;
  }

  lemma {:induction false} ReviewSteps(v: Locked, oid: nat, approved: bool, now: Time)
    requires Ready(v, oid) && ReviewProof(v, oid, approved, now).Ok?
    ensures Steps(v, ReviewProof(v, oid, approved, now).value, oid)
  {
    if v.order.status != PurchaseValidation {
      QuietSteps(v, v, oid);
    } else {
      ReviewMoves(v, oid, approved, now);
    }
  }

  lemma {:induction false} UnderReview(o: Order)
    requires HeaderOk(o) && o.status == PurchaseValidation
    ensures o.payment.Some? && o.payment.value.proof == Some(ProofReady)
    ensures o.payment.value.amount == o.total && 0 <= o.payment.value.refundedAmount <= o.payment.value.amount
  {
    hide Chain;
  }

  /** A ready proof under review always ends the order: sold when approved, cancelled when not. */
  lemma {:induction false} ReviewMoves(v: Locked, oid: nat, approved: bool, now: Time)
    requires Ready(v, oid) && v.order.status == PurchaseValidation
    ensures ReviewProof(v, oid, approved, now).Ok?
    ensures Steps(v, ReviewProof(v, oid, approved, now).value, oid)
    ensures ReviewProof(v, oid, approved, now).value.order.status == if approved then Paid else Cancelled
  {
    hide HeaderOk, Ready, Steps, Approve, ReleaseReservations, Transition;
    ReadyHeader(v, oid);
    UnderReview(v.order);
    var p := v.order.payment.value;
    if approved {
      ApproveRow(v, oid, p.(proof := Some(ProofApproved)), now, None, now);
    } else {
      RejectRow(v, oid, p.(proof := Some(ProofRejected), status := PaymentRejected), now);
    }
  }

  /** Approving under a rewritten payment row that need not itself be a resting state. */
  lemma {:induction false} ApproveRow(v: Locked, oid: nat, p: Payment, paidAt: Time, event: Option<nat>, now: Time)
    requires Ready(v, oid) && IsActive(v.order.status)
    requires p.amount == v.order.total && 0 <= p.refundedAmount <= p.amount
    ensures var u := v.(order := WithPayment(v.order, p));
            && Approve(u, oid, p, paidAt, event, now).Ok?
            && Approve(u, oid, p, paidAt, event, now).value.1
            && Steps(v, Approve(u, oid, p, paidAt, event, now).value.0, oid)
            && Approve(u, oid, p, paidAt, event, now).value.0.order.status == Paid
  {
    var w := ApproveSteps(v, oid, p, paidAt, event, now);
    var u := v.(order := WithPayment(v.order, p));
    ApproveIgnoresRow(v, oid, p, paidAt, event, now);
    hide Steps, Ready, Approve;
  }

  /** The payment row that is about to be overwritten does not influence the sale. */
  lemma {:induction false} ApproveIgnoresRow(v: Locked, oid: nat, p: Payment, paidAt: Time, event: Option<nat>, now: Time)
    requires Approve(v, oid, p, paidAt, event, now).Ok? && Approve(v, oid, p, paidAt, event, now).value.1
    requires IsActive(v.order.status)
    ensures Approve(v.(order := WithPayment(v.order, p)), oid, p, paidAt, event, now)
            == Approve(v, oid, p, paidAt, event, now)
  {
    hide Transact, RequestsOf, Has;
  }

  lemma {:induction false} RejectRow(v: Locked, oid: nat, p: Payment, now: Time)
    requires Ready(v, oid) && v.order.status == PurchaseValidation
    requires p.amount == v.order.total && 0 <= p.refundedAmount <= p.amount && p.status == PaymentRejected
    ensures var u := v.(order := WithPayment(v.order, p));
            && ReleaseReservations(u, now).Ok?
            && var m := ReleaseReservations(u, now).value;
            && Transition(m.order, Cancelled, ProofTurnedDown, now).Ok?
            && Steps(v, m.(order := Transition(m.order, Cancelled, ProofTurnedDown, now).value), oid)
            && Transition(m.order, Cancelled, ProofTurnedDown, now).value.status == Cancelled
  {
    var m := CloseSteps(v, oid, now, Some(p), Cancelled, ProofTurnedDown);
    ReleaseIgnoresRow(v, p, now);
    hide Steps, Ready, ReleaseReservations;
  }

  lemma {:induction false} ReleaseIgnoresRow(v: Locked, p: Payment, now: Time)
    ensures var u := v.(order := WithPayment(v.order, p));
            var a := ReleaseReservations(v, now);
            ReleaseReservations(u, now) ==
            if a.Err? then Err(a.error) else Ok(a.value.(order := WithPayment(a.value.order, p)))
  {
    hide Transact, RequestsOf, Has;
  }

  lemma {:induction false} ConfirmSteps(v: Locked, oid: nat, amount: Option<int>, paidAt: Time, now: Time)
    requires Ready(v, oid) && ConfirmManual(v, oid, amount, paidAt, now).Ok?
    ensures Steps(v, ConfirmManual(v, oid, amount, paidAt, now).value, oid)
    ensures ConfirmManual(v, oid, amount, paidAt, now).value.order.status == Paid
  {
    var p := PaymentOf(v.order, NoProvider);
    NewPaymentHeader(v.order, NoProvider);
    if v.order.status == Paid && p.status == PaymentApproved {
      QuietSteps(v, v.(order := WithPayment(v.order, p)), oid);
    } else {
      assert IsActive(v.order.status);
      ApproveRow(v, oid, p, paidAt, None, now);
      hide Steps, Ready, Approve;
    }
  }

  // ----- Restoring

  function RestoredOrder(o: Order, target: Status, now: Time, ttl: Time): Order {
    Moved(o.(payment := Revived(o.payment, target), expiresAt := now + ttl), target, OrderRestored, now)
  }

  lemma {:induction false} TargetIsActive(o: Order)
    requires RestoreTarget(o).Ok?
    ensures IsActive(RestoreTarget(o).value)
  {
  }

  lemma {:induction false} RestoreIs(v: Locked, now: Time, ttl: Time, m: Locked)
    requires v.order.status == Cancelled && RestoreTarget(v.order).Ok?
    requires ReopenReservations(v, now + ttl) == Ok(m) && m.order == v.order.(reservations := m.order.reservations)
    ensures Restore(v, now, ttl) == Ok(m.(order := RestoredOrder(m.order, RestoreTarget(v.order).value, now, ttl)))
  {
    TargetIsActive(v.order);
    hide ReopenReservations, RestoreTarget;
  }

  lemma {:induction false} RestoreNeeds(v: Locked, now: Time, ttl: Time)
    requires v.order.status == Cancelled && Restore(v, now, ttl).Ok?
    ensures RestoreTarget(v.order).Ok? && ReopenReservations(v, now + ttl).Ok?
  {
    hide ReopenReservations, RestoreTarget;
  }

  lemma {:induction false} RestoredHeader(o: Order, r: Order, target: Status, now: Time, ttl: Time)
    requires HeaderOk(o) && o.status == Cancelled && RestoreTarget(o) == Ok(target)
    requires r == o.(reservations := r.reservations)
    ensures HeaderOk(RestoredOrder(r, target, now, ttl))
  {
    TargetIsActive(o);
    ChainMoved(r.(payment := Revived(r.payment, target), expiresAt := now + ttl), target, OrderRestored, now);
  }

  /** The rows a successful restore writes under the new header. */
  lemma {:induction false} Reopened(v: Locked, oid: nat, now: Time, ttl: Time) returns (m: Locked)
    requires Ready(v, oid) && v.order.status == Cancelled
    requires RestoreTarget(v.order).Ok? && ReopenReservations(v, now + ttl).Ok?
    ensures Rephased(v, m, oid, Open) && Moves(v.t, m.t, Hold, v.order.lines)
    ensures m.order.reservations == ReheldAll(v.order.reservations, now + ttl)
    ensures m.order == v.order.(reservations := m.order.reservations)
    ensures Restore(v, now, ttl) == Ok(m.(order := RestoredOrder(m.order, RestoreTarget(v.order).value, now, ttl)))
  {
    m := ReopenStep(v, oid, now + ttl);
    hide *;
    RestoreIs(v, now, ttl, m);
  }

  /** A cancelled order comes back exactly when the seller once cancelled it and its stock is still available. */
  lemma {:induction false} RestoreWhen(v: Locked, oid: nat, now: Time, ttl: Time)
    requires Ready(v, oid) && v.order.status == Cancelled
    ensures Restore(v, now, ttl).Ok? <==> RestoreTarget(v.order).Ok? && AllowsOrder(v.t, Hold, v.order.lines)
  {
    ReopenWhen(v, oid, now + ttl);
    hide *;
    if Restore(v, now, ttl).Ok? {
      RestoreNeeds(v, now, ttl);
    } else if RestoreTarget(v.order).Ok? && ReopenReservations(v, now + ttl).Ok? {
      var m := Reopened(v, oid, now, ttl);
    }
  }

  lemma {:induction false} RestoreSteps(v: Locked, oid: nat, now: Time, ttl: Time)
    requires Ready(v, oid) && v.order.status == Cancelled && Restore(v, now, ttl).Ok?
    ensures Steps(v, Restore(v, now, ttl).value, oid)
    ensures Restore(v, now, ttl).value.order.status == RestoreTarget(v.order).value
  {
    RestoreNeeds(v, now, ttl);
    var m := Reopened(v, oid, now, ttl);
    assert HeaderOk(v.order);
    hide Restore, ReopenReservations, Rephased, Ready, HeaderOk, RestoreTarget;
    RestoredSteps(v, m, RestoreTarget(v.order).value, oid, now, ttl);
  }

  lemma {:induction false} RestoredSteps(v: Locked, m: Locked, target: Status, oid: nat, now: Time, ttl: Time)
    requires HeaderOk(v.order) && v.order.status == Cancelled && RestoreTarget(v.order) == Ok(target)
    requires Rephased(v, m, oid, Open)
    ensures Steps(v, m.(order := RestoredOrder(m.order, target, now, ttl)), oid)
    ensures RestoredOrder(m.order, target, now, ttl).status == target
  {
    hide BodyOk, StockStep, Steps;
    TargetIsActive(v.order);
    RestoredHeader(v.order, m.order, target, now, ttl);
    hide HeaderOk, RestoreTarget;
    LoudSteps(v, m, m.(order := RestoredOrder(m.order, target, now, ttl)), oid, Open);
  }

  // ----- Provider snapshots

  lemma {:induction false} MarkSteps(v: Locked, oid: nat, kind: IssueKind, event: Option<nat>)
    requires Ready(v, oid)
    ensures Steps(v, Mark(v, oid, kind, event), oid)
  {
    MarkQuiet(v, oid, kind, event);
    QuietSteps(v, Mark(v, oid, kind, event), oid);
  }

  lemma {:induction false} NeverDraft(v: Locked, oid: nat)
    requires Ready(v, oid)
    ensures v.order.status != Draft
  {
    hide Sound, BodyOk;
  }

  /** A full refund reported for a paid order. */
  lemma {:induction false} FullRefundSteps(v: Locked, oid: nat, q: Payment, now: Time)
    requires Ready(v, oid) && v.order.status == Paid
    requires q.amount == v.order.total && 0 <= q.refundedAmount <= q.amount && q.status == PaymentRefunded
    ensures Steps(v, v.(order := Moved(WithPayment(v.order, q), Refunded, PaymentReturned, now)), oid)
  {
    hide HeaderOk, Ready, Steps;
    ReadyHeader(v, oid);
    RefundedHeader(v.order, WithPayment(v.order, q), q, now);
    QuietSteps(v, v.(order := Moved(WithPayment(v.order, q), Refunded, PaymentReturned, now)), oid);
  }

  lemma {:induction false} RowHeader(o: Order, q: Payment)
    requires HeaderOk(o) && o.payment.Some? && q.amount == o.total && 0 <= q.refundedAmount <= q.amount
    requires q.status == o.payment.value.status && q.proof == o.payment.value.proof
    ensures PaymentOk(WithPayment(o, q))
  {
    hide Chain;
  }

  /** Any other refund: recorded on the payment row, and reported. */
  lemma {:induction false} PartialRefundSteps(v: Locked, oid: nat, q: Payment, event: nat)
    requires Ready(v, oid) && v.order.payment.Some? && q.amount == v.order.total && 0 <= q.refundedAmount <= q.amount
    requires q.status == v.order.payment.value.status && q.proof == v.order.payment.value.proof
    ensures Steps(v, Mark(v.(order := WithPayment(v.order, q)), oid, PartialRefund, Some(event)), oid)
  {
    hide HeaderOk, Ready, Steps, Mark, PaymentOk;
    ReadyHeader(v, oid);
    RowHeader(v.order, q);
    ReadyPaid(v, oid, q);
    var u := v.(order := WithPayment(v.order, q));
    MarkSteps(u, oid, PartialRefund, Some(event));
    SameStart(v, u, Mark(u, oid, PartialRefund, Some(event)), oid);
  }

  lemma {:induction false} SnapshotRefundSteps(v: Locked, oid: nat, s: Snapshot, event: nat, now: Time)
    requires Ready(v, oid) && v.order.payment.Some? && s.status == SnapshotRefunded
    requires ApplyStatus(v, oid, s, event, now).Ok?
    ensures Steps(v, ApplyStatus(v, oid, s, event, now).value, oid)
  {
    hide HeaderOk, Ready, Steps, Mark;
    ReadyHeader(v, oid);
    PaymentRow(v.order);
    var p := v.order.payment.value;
    var q := p.(refundedAmount := ReportedRefund(s, p));
    if q.refundedAmount == q.amount && v.order.status == Paid {
      FullRefundSteps(v, oid, q.(status := PaymentRefunded), now);
    } else {
      PartialRefundSteps(v, oid, q, event);
    }
  }

  lemma {:induction false} SnapshotApproveSteps(v: Locked, oid: nat, s: Snapshot, event: nat, now: Time)
    requires Ready(v, oid) && v.order.payment.Some? && s.status == SnapshotApproved
    requires ApplyStatus(v, oid, s, event, now).Ok?
    ensures Steps(v, ApplyStatus(v, oid, s, event, now).value, oid)
  {
    var p := v.order.payment.value;
    if IsActive(v.order.status) {
      var w := ApproveSteps(v, oid, p, if s.approvedAt.Some? then s.approvedAt.value else now, Some(event), now);
      hide Steps, Ready, Approve;
    } else if v.order.status == Cancelled || v.order.status == Expired {
      MarkSteps(v, oid, PaidWithoutStock, Some(event));
    } else {
      QuietSteps(v, v, oid);
    }
  }

  lemma {:induction false} SnapshotRejectSteps(v: Locked, oid: nat, s: Snapshot, event: nat, now: Time)
    requires Ready(v, oid) && v.order.payment.Some?
    requires s.status == SnapshotRejected || s.status == SnapshotCancelled
    ensures ApplyStatus(v, oid, s, event, now).Ok?
    ensures Steps(v, ApplyStatus(v, oid, s, event, now).value, oid)
  {
    var p := v.order.payment.value;
    if v.order.status == Paid {
      MarkSteps(v, oid, ProviderStatusIssue, Some(event));
    } else if !IsActive(v.order.status) {
      QuietSteps(v, v, oid);
    } else {
      var rejected := s.status == SnapshotRejected;
      var row := p.(status := if rejected then PaymentRejected else PaymentCancelled);
      var m := CloseSteps(v, oid, now, Some(row), Cancelled, if rejected then PaymentTurnedDown else PaymentWithdrawn);
      hide Steps, Ready, ReleaseReservations;
    }
  }

  lemma {:induction false} ApplyStatusSteps(v: Locked, oid: nat, s: Snapshot, event: nat, now: Time)
    requires Ready(v, oid) && v.order.payment.Some?
    requires ApplyStatus(v, oid, s, event, now).Ok?
    ensures Steps(v, ApplyStatus(v, oid, s, event, now).value, oid)
  {
    match s.status {
      case SnapshotApproved => SnapshotApproveSteps(v, oid, s, event, now);
      case SnapshotRefunded => SnapshotRefundSteps(v, oid, s, event, now);
      case SnapshotUnknown => MarkSteps(v, oid, ProviderStatusIssue, Some(event));
      case SnapshotPending => QuietSteps(v, ApplyStatus(v, oid, s, event, now).value, oid);
      case _ => SnapshotRejectSteps(v, oid, s, event, now);
    }
  }

  lemma {:induction false} SnapshotSteps(v: Locked, oid: nat, s: Snapshot, event: nat, now: Time)
    requires Ready(v, oid) && v.order.payment.Some?
    requires ApplySnapshot(v, oid, s, event, now).Ok?
    ensures Steps(v, ApplySnapshot(v, oid, s, event, now).value, oid)
  {
    var p := v.order.payment.value;
    if !FeeOnly(s, oid, p) {
      MarkSteps(v, oid, PaymentMismatch, Some(event));
    } else if !FeeOk(s) {
      MarkSteps(v, oid, FeeMismatch, Some(event));
    } else {
      var q := p.(hasProviderId := s.hasId);
      var u := v.(order := WithPayment(v.order, q));
      ReadyPaid(v, oid, q);
      ApplyStatusSteps(u, oid, s, event, now);
      SameStart(v, u, ApplyStatus(u, oid, s, event, now).value, oid);
    }
  }

  lemma {:induction false} StepsThenQuiet(v: Locked, m: Locked, w: Locked, oid: nat)
    requires Steps(v, m, oid) && Quiet(m, w)
    ensures Steps(v, w, oid)
  {
    QuietBody(m.order, w.order, oid, |m.t.products|, m.t.movements, PhaseFor(m.order.status));
    hide BodyOk, Sound, HeaderOk;
  }

  lemma {:induction false} SettleSteps(v: Locked, oid: nat, s: Snapshot, event: nat, now: Time)
    requires Ready(v, oid) && Settle(v, oid, s, event, now).Ok?
    ensures Steps(v, Settle(v, oid, s, event, now).value, oid)
  {
    var p := PaymentOf(v.order, MercadoPagoProvider);
    NewPaymentHeader(v.order, MercadoPagoProvider);
    var q := if p.provider == OtherProvider then p else p.(provider := MercadoPagoProvider);
    var u := v.(order := WithPayment(v.order, q));
    ReadyPaid(v, oid, q);
    var applied :=
      if p.provider == OtherProvider then Ok(Mark(u, oid, PaymentMismatch, Some(event)))
      else ApplySnapshot(u, oid, s, event, now);
    var m := SettledRows(u, oid, s, event, now, applied);
    SameStart(v, u, m, oid);
    FinishSteps(v, m, oid, event);
    hide Steps, Ready, ApplySnapshot, Mark, ClearIfResolved;
  }

  lemma {:induction false} SettledRows(u: Locked, oid: nat, s: Snapshot, event: nat, now: Time, applied: Result<Locked>) returns (m: Locked)
    requires Ready(u, oid) && u.order.payment.Some? && applied.Ok?
    requires applied == Ok(Mark(u, oid, PaymentMismatch, Some(event))) || applied == ApplySnapshot(u, oid, s, event, now)
    ensures applied == Ok(m) && Steps(u, m, oid)
  {
    m := applied.value;
    if applied == ApplySnapshot(u, oid, s, event, now) {
      SnapshotSteps(u, oid, s, event, now);
    } else {
      MarkSteps(u, oid, PaymentMismatch, Some(event));
    }
    hide Steps;
  }

  lemma {:induction false} FinishSteps(v: Locked, m: Locked, oid: nat, event: nat)
    requires Steps(v, m, oid)
    ensures Steps(v, ClearIfResolved(m.(issues := ResolvePending(m.issues, event)), oid), oid)
  {
    var r := m.(issues := ResolvePending(m.issues, event));
    ClearQuiet(r, oid);
    StepsThenQuiet(v, m, ClearIfResolved(r, oid), oid);
  }

  // ----- All of them

  predicate MovesStock(c: Command) {
    c.DoReviewProof? || c.DoConfirmManual? || c.DoCancel? || c.DoExpire? || c.DoRestore? || c.DoSettle?
  }

  lemma {:induction false} CancelAny(v: Locked, oid: nat, now: Time)
    requires Ready(v, oid) && Cancel(v, now).Ok?
    ensures Steps(v, Cancel(v, now).value, oid)
  {
    assert IsActive(v.order.status) || v.order.status == Cancelled;
    hide Ready, Steps, Cancel;
    CancelSteps(v, oid, now);
  }

  lemma {:induction false} RestoreAny(v: Locked, oid: nat, now: Time, ttl: Time)
    requires Ready(v, oid) && Restore(v, now, ttl).Ok?
    ensures Steps(v, Restore(v, now, ttl).value, oid)
  {
    if IsActive(v.order.status) {
      ReadyHeader(v, oid);
      hide Ready, Steps, HeaderOk;
      QuietSteps(v, v, oid);
    } else {
      assert v.order.status == Cancelled;
      hide Ready, Steps, Restore;
      RestoreSteps(v, oid, now, ttl);
    }
  }

  lemma {:induction false} StockCommandSteps(v: Locked, oid: nat, c: Command)
    requires MovesStock(c) && Ready(v, oid) && Perform(v, oid, c).Ok?
    ensures Steps(v, Perform(v, oid, c).value, oid)
  {
    hide Steps, Ready, Cancel, Expire, Restore, Settle, ReviewProof, ConfirmManual;
    match c {
      case DoReviewProof(approved, now) => ReviewSteps(v, oid, approved, now);
      case DoConfirmManual(amount, paidAt, now) => ConfirmSteps(v, oid, amount, paidAt, now);
      case DoCancel(now) => CancelAny(v, oid, now);
      case DoExpire(now) => ExpireSteps(v, oid, now);
      case DoRestore(now, ttl) => RestoreAny(v, oid, now, ttl);
      case DoSettle(snapshot, event, now) => SettleSteps(v, oid, snapshot, event, now);
    }
  }

  lemma {:induction false} QuietCommandSteps(v: Locked, oid: nat, c: Command)
    requires !MovesStock(c) && Ready(v, oid) && Perform(v, oid, c).Ok?
    ensures Steps(v, Perform(v, oid, c).value, oid)
  {
    ReadyHeader(v, oid);
    CommandQuiet(v, oid, c);
    hide *;
    QuietSteps(v, Perform(v, oid, c).value, oid);
  }

  lemma {:induction false} CommandQuiet(v: Locked, oid: nat, c: Command)
    requires !MovesStock(c) && HeaderOk(v.order) && Perform(v, oid, c).Ok?
    ensures Quiet(v, Perform(v, oid, c).value)
  {
    hide HeaderOk, Mark, SetBuyer, StartCheckout, MarkProofReady, Refund, PrepareReceipt;
    match c {
      case DoSetBuyer(details, now) => SetBuyerQuiet(v, details, now);
      case DoStartCheckout(connected, providerUp, now) => CheckoutQuiet(v, connected, providerUp, now);
      case DoMarkProofReady(now) => ProofReadyQuiet(v, now);
      case DoRefund(connected, providerUp, now) => RefundQuiet(v, oid, connected, providerUp, now);
      case DoPrepareReceipt => PrepareQuiet(v);
      case DoFailWebhook(event) => MarkQuiet(v, oid, WebhookPending, Some(event));
      case DoRetryIssue(issue) => RetryQuiet(v, oid, issue);
      case _ => NotingCommands(v, oid, c);
    }
  }

  lemma {:induction false} RetryQuiet(v: Locked, oid: nat, issue: nat)
    requires HeaderOk(v.order) && RetryIssue(v, oid, issue).Ok?
    ensures Quiet(v, RetryIssue(v, oid, issue).value)
  {
    hide HeaderOk;
    ReconciledHeader(v.order, ReconciliationRetrying);
  }

  /** Whatever command runs on a valid order, what it commits is valid and moves only that order's claim. */
  lemma {:induction false} PerformSteps(v: Locked, oid: nat, c: Command)
    requires Ready(v, oid) && Perform(v, oid, c).Ok?
    ensures Steps(v, Perform(v, oid, c).value, oid)
  {
    hide *;
    if MovesStock(c) {
      StockCommandSteps(v, oid, c);
    } else {
      QuietCommandSteps(v, oid, c);
    }
  }
}
