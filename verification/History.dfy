/** Timelines are append-only, and what that says about whole runs. */
module History {
  import opened Prelude
  import opened Stock
  import opened Orders
  import opened Shop
  import opened Invariant
  import opened Preserve
  import opened Commands
  import opened Runs

  // ----- Timelines only grow

  /** The cart of an order never changes, and its timeline keeps every entry it has. */
  predicate Extends(o: Order, r: Order) {
    o.timeline <= r.timeline && r.lines == o.lines && r.total == o.total
  }

  lemma {:induction false} MarkExtends(v: Locked, oid: nat, kind: IssueKind, event: Option<nat>)
    ensures Extends(v.order, Mark(v, oid, kind, event).order)
  {
  }

  lemma {:induction false} ClearExtends(v: Locked, oid: nat)
    ensures Extends(v.order, ClearIfResolved(v, oid).order)
  {
  }

  lemma {:induction false} TransitionExtends(o: Order, target: Status, kind: EventKind, now: Time)
    requires Transition(o, target, kind, now).Ok?
    ensures Extends(o, Transition(o, target, kind, now).value)
  {
    hide Edge, Moved;
    MovedExtends(o, target, kind, now);
  }

  lemma {:induction false} MovedExtends(o: Order, target: Status, kind: EventKind, now: Time)
    ensures Extends(o, Moved(o, target, kind, now))
  {
    assert o.timeline <= o.timeline + [TimelineEvent(kind, Some(o.status), Some(target))];
  }

  lemma {:induction false} ApproveExtends(v: Locked, oid: nat, p: Payment, paidAt: Time, event: Option<nat>, now: Time)
    requires Approve(v, oid, p, paidAt, event, now).Ok?
    ensures Extends(v.order, Approve(v, oid, p, paidAt, event, now).value.0.order)
  {
    RowStepsKeep(v, oid, now);
    MarkExtends(v, oid, PaidWithoutStock, event);
    hide ConsumeReservations, Mark;
  }

  lemma {:induction false} ApprovalExtends(v: Locked, oid: nat, s: Snapshot, event: nat, now: Time)
    requires v.order.payment.Some? && s.status == SnapshotApproved && ApplyStatus(v, oid, s, event, now).Ok?
    ensures Extends(v.order, ApplyStatus(v, oid, s, event, now).value.order)
  {
    MarkExtends(v, oid, PaidWithoutStock, Some(event));
    var paidAt := if s.approvedAt.Some? then s.approvedAt.value else now;
    if Approve(v, oid, v.order.payment.value, paidAt, Some(event), now).Ok? {
      ApproveExtends(v, oid, v.order.payment.value, paidAt, Some(event), now);
    }
    hide Mark, Approve, Extends;
    assert Extends(v.order, v.order) by { SelfExtends(v.order); }
  }

  lemma {:induction false} SelfExtends(o: Order)
    ensures Extends(o, o)
  {
  }

  lemma {:induction false} RejectionExtends(v: Locked, oid: nat, s: Snapshot, event: nat, now: Time)
    requires v.order.payment.Some? && ApplyStatus(v, oid, s, event, now).Ok?
    requires s.status == SnapshotRejected || s.status == SnapshotCancelled
    ensures Extends(v.order, ApplyStatus(v, oid, s, event, now).value.order)
  {
    MarkExtends(v, oid, ProviderStatusIssue, Some(event));
    RowStepsKeep(v, oid, now);
    hide Mark, ReleaseReservations;
  }

  lemma {:induction false} OtherExtends(v: Locked, oid: nat, s: Snapshot, event: nat, now: Time)
    requires v.order.payment.Some? && ApplyStatus(v, oid, s, event, now).Ok?
    requires s.status == SnapshotPending || s.status == SnapshotUnknown || s.status == SnapshotRefunded
    ensures Extends(v.order, ApplyStatus(v, oid, s, event, now).value.order)
  {
    var p := v.order.payment.value;
    MarkExtends(v, oid, ProviderStatusIssue, Some(event));
    MarkExtends(v.(order := WithPayment(v.order, p.(refundedAmount := ReportedRefund(s, p)))), oid, PartialRefund, Some(event));
    hide Mark, ReportedRefund;
  }

  lemma {:induction false} StatusExtends(v: Locked, oid: nat, s: Snapshot, event: nat, now: Time)
    requires v.order.payment.Some? && ApplyStatus(v, oid, s, event, now).Ok?
    ensures Extends(v.order, ApplyStatus(v, oid, s, event, now).value.order)
  {
    hide *;
    if s.status == SnapshotApproved {
      ApprovalExtends(v, oid, s, event, now);
    } else if s.status == SnapshotRejected || s.status == SnapshotCancelled {
      RejectionExtends(v, oid, s, event, now);
    } else {
      OtherExtends(v, oid, s, event, now);
    }
  }

  lemma {:induction false} SnapshotExtends(v: Locked, oid: nat, s: Snapshot, event: nat, now: Time)
    requires v.order.payment.Some? && ApplySnapshot(v, oid, s, event, now).Ok?
    ensures Extends(v.order, ApplySnapshot(v, oid, s, event, now).value.order)
  {
    var p := v.order.payment.value;
    MarkExtends(v, oid, PaymentMismatch, Some(event));
    MarkExtends(v, oid, FeeMismatch, Some(event));
    if FeeOnly(s, oid, p) && FeeOk(s) {
      StatusExtends(v.(order := WithPayment(v.order, p.(hasProviderId := s.hasId))), oid, s, event, now);
    }
    hide Mark, ApplyStatus;
  }

  lemma {:induction false} SettleExtends(v: Locked, oid: nat, s: Snapshot, event: nat, now: Time)
    requires Settle(v, oid, s, event, now).Ok?
    ensures Extends(v.order, Settle(v, oid, s, event, now).value.order)
  {
    var p := PaymentOf(v.order, MercadoPagoProvider);
    var other := v.(order := WithPayment(v.order, p));
    var u := v.(order := WithPayment(v.order, p.(provider := MercadoPagoProvider)));
    MarkExtends(other, oid, PaymentMismatch, Some(event));
    if p.provider != OtherProvider {
      SnapshotExtends(u, oid, s, event, now);
    }
    var m := if p.provider == OtherProvider then Mark(other, oid, PaymentMismatch, Some(event))
             else ApplySnapshot(u, oid, s, event, now).value;
    ClearExtends(m.(issues := ResolvePending(m.issues, event)), oid);
    hide Mark, ApplySnapshot, ClearIfResolved, ResolvePending;
  }

  lemma {:induction false} ReviewExtends(v: Locked, oid: nat, approved: bool, now: Time)
    requires ReviewProof(v, oid, approved, now).Ok?
    ensures Extends(v.order, ReviewProof(v, oid, approved, now).value.order)
  {
    hide Approve, ReleaseReservations, Transition, Extends;
    SelfExtends(v.order);
    if v.order.status == PurchaseValidation {
      var p := v.order.payment.value;
      if approved {
        var u := v.(order := WithPayment(v.order, p.(proof := Some(ProofApproved))));
        ApproveExtends(u, oid, u.order.payment.value, now, None, now);
        RewrittenExtends(v.order, u.order, Approve(u, oid, u.order.payment.value, now, None, now).value.0.order);
      } else {
        var u := v.(order := WithPayment(v.order, p.(proof := Some(ProofRejected), status := PaymentRejected)));
        RowStepsKeep(u, oid, now);
        var m := ReleaseReservations(u, now).value.order;
        TransitionExtends(m, Cancelled, ProofTurnedDown, now);
        RewrittenExtends(v.order, m, Transition(m, Cancelled, ProofTurnedDown, now).value);
      }
    }
  }

  lemma {:induction false} ConfirmExtends(v: Locked, oid: nat, amount: Option<int>, paidAt: Time, now: Time)
    requires ConfirmManual(v, oid, amount, paidAt, now).Ok?
    ensures Extends(v.order, ConfirmManual(v, oid, amount, paidAt, now).value.order)
  {
    hide Approve, Extends;
    var p := PaymentOf(v.order, NoProvider);
    var u := v.(order := WithPayment(v.order, p));
    SelfExtends(u.order);
    RewrittenExtends(v.order, u.order, u.order);
    if v.order.status != Paid || p.status != PaymentApproved {
      ApproveExtends(u, oid, p, paidAt, None, now);
      RewrittenExtends(v.order, u.order, Approve(u, oid, p, paidAt, None, now).value.0.order);
    }
  }

  /** Rows and other fields rewritten, then a transition. */
  lemma {:induction false} RewrittenExtends(o: Order, m: Order, r: Order)
    requires m.timeline == o.timeline && m.lines == o.lines && m.total == o.total && Extends(m, r)
    ensures Extends(o, r)
  {
  }

  lemma {:induction false} RestoreExtends(v: Locked, now: Time, ttl: Time)
    requires Restore(v, now, ttl).Ok?
    ensures Extends(v.order, Restore(v, now, ttl).value.order)
  {
    hide ReopenReservations, RestoreTarget, Revived, Transition, Extends;
    SelfExtends(v.order);
    if !IsActive(v.order.status) {
      RowStepsKeep(v, 0, now + ttl);
      var target := RestoreTarget(v.order).value;
      var m := ReopenReservations(v, now + ttl).value.order;
      var o := m.(payment := Revived(m.payment, target), expiresAt := now + ttl);
      TransitionExtends(o, target, OrderRestored, now);
      RewrittenExtends(v.order, o, Transition(o, target, OrderRestored, now).value);
    }
  }

  lemma {:induction false} CancelExtends(v: Locked, now: Time)
    requires Cancel(v, now).Ok?
    ensures Extends(v.order, Cancel(v, now).value.order)
  {
    RowStepsKeep(v, 0, now);
    hide ReleaseReservations;
  }

  lemma {:induction false} ExpireExtends(v: Locked, now: Time)
    requires Expire(v, now).Ok?
    ensures Extends(v.order, Expire(v, now).value.order)
  {
    RowStepsKeep(v, 0, now);
    hide ReleaseReservations;
  }

  lemma {:induction false} StockCommandExtends(v: Locked, oid: nat, c: Command)
    requires MovesStock(c) && Perform(v, oid, c).Ok?
    ensures Extends(v.order, Perform(v, oid, c).value.order)
  {
    hide Extends, Cancel, Expire, Restore, Settle, ReviewProof, ConfirmManual;
    match c {
      case DoReviewProof(approved, now) => ReviewExtends(v, oid, approved, now);
      case DoConfirmManual(amount, paidAt, now) => ConfirmExtends(v, oid, amount, paidAt, now);
      case DoCancel(now) => CancelExtends(v, now);
      case DoExpire(now) => ExpireExtends(v, now);
      case DoRestore(now, ttl) => RestoreExtends(v, now, ttl);
      case DoSettle(s, event, now) => SettleExtends(v, oid, s, event, now);
    }
  }

  predicate ReportsIssue(c: Command) {
    c.DoRefund? || c.DoFailWebhook? || c.DoRetryIssue?
  }

  lemma {:induction false} ReportExtends(v: Locked, oid: nat, c: Command)
    requires ReportsIssue(c) && Perform(v, oid, c).Ok?
    ensures Extends(v.order, Perform(v, oid, c).value.order)
  {
    match c {
      case DoRefund(connected, providerUp, now) => RefundExtends(v, oid, connected, providerUp, now);
      case DoFailWebhook(event) => MarkExtends(v, oid, WebhookPending, Some(event));
      case DoRetryIssue(_) =>
    }
    hide Mark, Refund;
  }

  lemma {:induction false} RefundExtends(v: Locked, oid: nat, connected: bool, providerUp: bool, now: Time)
    requires Refund(v, oid, connected, providerUp, now).Ok?
    ensures Extends(v.order, Refund(v, oid, connected, providerUp, now).value.order)
  {
    MarkExtends(v, oid, UnknownPayment, None);
    hide Mark;
  }

  lemma {:induction false} NoteExtends(v: Locked, oid: nat, c: Command)
    requires !MovesStock(c) && !ReportsIssue(c) && Perform(v, oid, c).Ok?
    ensures Extends(v.order, Perform(v, oid, c).value.order)
  {
    match c {
      case DoSetBuyer(_, _) =>
      case DoStartCheckout(_, _, _) =>
      case DoMarkProofReady(_) =>
      case _ =>
    }
  }

  lemma {:induction false} PerformExtends(v: Locked, oid: nat, c: Command)
    requires Perform(v, oid, c).Ok?
    ensures Extends(v.order, Perform(v, oid, c).value.order)
  {
    hide *;
    if MovesStock(c) {
      StockCommandExtends(v, oid, c);
    } else if ReportsIssue(c) {
      ReportExtends(v, oid, c);
    } else {
      NoteExtends(v, oid, c);
    }
  }

  /** No order is removed and no timeline entry is rewritten. */
  ghost predicate Recorded(db: Db, r: Db) {
    && |db.orders| <= |r.orders|
    && forall k {:trigger r.orders[k]} :: 0 <= k < |db.orders| ==> Extends(db.orders[k], r.orders[k])
  }

  lemma {:induction false} CreateRecords(db: Db, inputs: seq<LineInput>, mode: DeliveryMode, payBy: PaymentMethod, setup: Setup, expiresAt: Time)
    requires CreateOrder(db, inputs, mode, payBy, setup, expiresAt).Ok?
    ensures Recorded(db, CreateOrder(db, inputs, mode, payBy, setup, expiresAt).value)
    ensures |CreateOrder(db, inputs, mode, payBy, setup, expiresAt).value.orders| == |db.orders| + 1
  {
    hide Transact, NormaliseLines, NewOrder;
  }

  lemma {:induction false} SupersedeExtends(v: Locked, now: Time)
    requires Supersede(v, now).Ok?
    ensures Extends(v.order, Supersede(v, now).value.order)
  {
    RowStepsKeep(v, 0, now);
    hide ReleaseReservations;
  }

  lemma {:induction false} ReissueRecords(db: Db, oid: nat, setup: Setup, now: Time, ttl: Time)
    requires Reissue(db, oid, setup, now, ttl).Ok?
    ensures Recorded(db, Reissue(db, oid, setup, now, ttl).value)
  {
    var v, created := ReissueParts(db, oid, setup, now, ttl);
    SupersedeExtends(LockedAt(db, oid), now);
    CreateRecords(Commit(db, oid, v), InputsOf(db.orders[oid].lines), db.orders[oid].deliveryMode, BankTransfer, setup, now + ttl);
    hide Supersede, CreateOrder, Reissue, PublishNew;
    assert Recorded(Commit(db, oid, v), created);
    forall k | 0 <= k < |db.orders| ensures Extends(db.orders[k], created.orders[k]) {
      assert Extends(Commit(db, oid, v).orders[k], created.orders[k]);
    }
  }

  lemma {:induction false} AttemptRecords(db: Db, a: Action)
    requires Attempt(db, a).Ok?
    ensures Recorded(db, Attempt(db, a).value)
  {
    match a {
      case CreateSale(inputs, mode, payBy, setup, expiresAt) => CreateRecords(db, inputs, mode, payBy, setup, expiresAt);
      case ChangeOrder(oid, command) => PerformExtends(LockedAt(db, oid), oid, command);
      case ReissueSale(oid, setup, now, ttl) => ReissueRecords(db, oid, setup, now, ttl);
      case _ =>
    }
    hide CreateOrder, Perform, Reissue;
  }

  lemma {:induction false} RunRecords(db: Db, actions: seq<Action>)
    ensures Recorded(db, Run(db, actions))
  {
    if actions != [] {
      var init := actions[..|actions| - 1];
      var earlier := Run(db, init);
      RunRecords(db, init);
      if Attempt(earlier, actions[|actions| - 1]).Ok? {
        AttemptRecords(earlier, actions[|actions| - 1]);
        var r := Attempt(earlier, actions[|actions| - 1]).value;
        hide Attempt;
        forall k | 0 <= k < |db.orders| ensures Extends(db.orders[k], r.orders[k]) {
          assert Extends(db.orders[k], earlier.orders[k]) && Extends(earlier.orders[k], r.orders[k]);
        }
      }
    }
    hide Attempt;
  }

  // ----- What an unbroken chain says

  /** How often a timeline enters a status. */
  function Entries(timeline: seq<TimelineEvent>, s: Status): nat {
    if timeline == [] then 0
    else Entries(timeline[..|timeline| - 1], s) + (if timeline[|timeline| - 1].to == Some(s) then 1 else 0)
  }

  /** PAID is entered once by the orders that are or were paid, and the final statuses once if at all. */
  lemma {:induction false} ChainEntries(timeline: seq<TimelineEvent>, s: Status)
    requires Chain(timeline, s)
    ensures Entries(timeline, Paid) == if s == Paid || s == Refunded then 1 else 0
    ensures Entries(timeline, Refunded) == if s == Refunded then 1 else 0
    ensures Entries(timeline, Expired) == if s == Expired then 1 else 0
    ensures Entries(timeline, Draft) == 0
  {
    if timeline != [] {
      var e := timeline[|timeline| - 1];
      ChainEntries(timeline[..|timeline| - 1], if e.to.None? then s else e.from.value);
    }
  }

  lemma {:induction false} ChainEndsOnce(timeline: seq<TimelineEvent>, a: Status, b: Status)
    requires Chain(timeline, a) && Chain(timeline, b)
    ensures a == b
  {
    if timeline != [] && timeline[|timeline| - 1].to.None? {
      ChainEndsOnce(timeline[..|timeline| - 1], a, b);
    }
  }

  /** A set of statuses no edge leaves. */
  ghost predicate Absorbing(trap: set<Status>) {
    forall a, b {:trigger Edge(a, b)} :: a in trap && Edge(a, b) ==> b in trap
  }

  lemma {:induction false} ChainTrapped(earlier: seq<TimelineEvent>, later: seq<TimelineEvent>, a: Status, b: Status, trap: set<Status>)
    requires earlier <= later && Chain(earlier, a) && Chain(later, b)
    requires Absorbing(trap) && a in trap
    ensures b in trap
    decreases |later|
  {
    if later == earlier {
      ChainEndsOnce(earlier, a, b);
    } else {
      var e := later[|later| - 1];
      var init := later[..|later| - 1];
      assert earlier <= init;
      ChainTrapped(earlier, init, a, if e.to.None? then b else e.from.value, trap);
    }
  }

  /** Once an order is in an absorbing set of statuses, no run takes it out. */
  lemma {:induction false} RunTrapped(db: Db, actions: seq<Action>, oid: nat, trap: set<Status>)
    requires Valid(db) && oid < |db.orders| && db.orders[oid].status in trap && Absorbing(trap)
    ensures oid < |Run(db, actions).orders|
    ensures Run(db, actions).orders[oid].status in trap
  {
    RunValid(db, actions);
    RunRecords(db, actions);
    var r := Run(db, actions);
    assert Extends(db.orders[oid], r.orders[oid]);
    assert OrderOk(db.orders[oid], oid, |db.t.products|, db.t.movements);
    assert OrderOk(r.orders[oid], oid, |r.t.products|, r.t.movements);
    hide Run, Valid, BodyOk, PaymentOk, Absorbing;
    ChainTrapped(db.orders[oid].timeline, r.orders[oid].timeline, db.orders[oid].status, r.orders[oid].status, trap);
  }

  /** EXPIRED and REFUNDED are final, and a paid order can only be refunded, whatever commands follow. */
  lemma {:induction false} FinalStatuses(db: Db, actions: seq<Action>, oid: nat)
    requires Valid(db) && oid < |db.orders|
    ensures oid < |Run(db, actions).orders|
    ensures db.orders[oid].status == Expired ==> Run(db, actions).orders[oid].status == Expired
    ensures db.orders[oid].status == Refunded ==> Run(db, actions).orders[oid].status == Refunded
    ensures db.orders[oid].status == Paid ==>
              Run(db, actions).orders[oid].status == Paid || Run(db, actions).orders[oid].status == Refunded
  {
    RunRecords(db, actions);
    hide Valid, Run;
    if db.orders[oid].status == Expired { RunTrapped(db, actions, oid, {Expired}); }
    if db.orders[oid].status == Refunded { RunTrapped(db, actions, oid, {Refunded}); }
    if db.orders[oid].status == Paid { RunTrapped(db, actions, oid, {Paid, Refunded}); }
  }

  /** In any run of a new shop each order enters PAID at most once, cancel and restore cycles included. */
  lemma {:induction false} PaidAtMostOnce(threshold: nat, actions: seq<Action>, oid: nat)
    requires oid < |Run(EmptyShop(threshold), actions).orders|
    ensures var o := Run(EmptyShop(threshold), actions).orders[oid];
            && Chain(o.timeline, o.status)
            && (Entries(o.timeline, Paid) == if o.status == Paid || o.status == Refunded then 1 else 0)
            && Entries(o.timeline, Expired) <= 1 && Entries(o.timeline, Refunded) <= 1
  {
    var r := Run(EmptyShop(threshold), actions);
    EmptyValid(threshold);
    RunValid(EmptyShop(threshold), actions);
    assert OrderOk(r.orders[oid], oid, |r.t.products|, r.t.movements);
    hide Run, Valid, BodyOk, PaymentOk;
    ChainEntries(r.orders[oid].timeline, r.orders[oid].status);
  }
}
