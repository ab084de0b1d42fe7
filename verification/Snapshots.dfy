/** Provider snapshots may arrive any number of times; only the first one can matter to the order and its stock. */
module Snapshots {
  import opened Prelude
  import opened Stock
  import opened Orders
  import opened Preserve

  /** The issue reported when a settlement raises; an event not yet linked to the order leaves its row alone. */
  function Failed(v: Locked, oid: nat, event: nat, linked: bool): Locked {
    if linked then Mark(v, oid, WebhookPending, Some(event))
    else v.(issues := Report(v.issues, WebhookPending, None, Some(event)).0)
  }

  /** One arrival: the webhook event that announced it, whether that event already knows its order, and when it is handled. */
  datatype Arrival = Arrival(event: nat, linked: bool, now: Time)

  /** What one delivery commits: the settlement, or the issue the failure handler reports. */
  function Deliver(v: Locked, oid: nat, s: Snapshot, a: Arrival): Locked {
    var r := Settle(v, oid, s, a.event, a.now);
    if r.Ok? then r.value else Failed(v, oid, a.event, a.linked)
  }

  /** The stock tables, the order's status and its reservation rows. */
  predicate SameCore(v: Locked, w: Locked) {
    w.t == v.t && w.order.status == v.order.status && w.order.reservations == v.order.reservations
  }

  /** The payment row as the dispatch sees it. */
  function Row(v: Locked): Payment {
    PaymentOf(v.order, MercadoPagoProvider)
  }

  predicate Believed(v: Locked, oid: nat, s: Snapshot) {
    Row(v).provider != OtherProvider && FeeOnly(s, oid, Row(v)) && FeeOk(s)
  }

  predicate CanConsume(v: Locked, oid: nat, now: Time) {
    var r := ConsumeReservations(v, oid, now);
    r.Ok? && r.value.1
  }

  /** A refund report for the whole amount: none given, zero, or at least the amount. */
  predicate IsFull(s: Snapshot, amount: nat) {
    s.refunded.None? || s.refunded.value == 0 || s.refunded.value >= amount
  }

  /** Delivering the snapshot would change neither the order's status nor any stock. */
  ghost predicate Inert(v: Locked, oid: nat, s: Snapshot) {
    Believed(v, oid, s) ==>
      match s.status
      case SnapshotApproved => IsActive(v.order.status) ==> forall now: Time :: !CanConsume(v, oid, now)
      case SnapshotRejected => IsActive(v.order.status) ==> forall now: Time :: ReleaseReservations(v, now).Err?
      case SnapshotCancelled => IsActive(v.order.status) ==> forall now: Time :: ReleaseReservations(v, now).Err?
      case SnapshotRefunded => v.order.status != Paid || !IsFull(s, Row(v).amount)
      case _ => true
  }

  lemma {:induction false} MarkCore(v: Locked, oid: nat, kind: IssueKind, event: Option<nat>)
    ensures SameCore(v, Mark(v, oid, kind, event))
    ensures v.order.payment.Some? ==>
              var w := Mark(v, oid, kind, event).order.payment;
              w.Some? && w.value == v.order.payment.value.(status := w.value.status)
    ensures v.order.payment.None? ==> Mark(v, oid, kind, event).order.payment.None?
  {
  }

  lemma {:induction false} FinishCore(v: Locked, oid: nat, event: nat)
    ensures var w := ClearIfResolved(v.(issues := ResolvePending(v.issues, event)), oid);
            SameCore(v, w) && w.order.payment == v.order.payment
  {
  }

  /** Whether stock can be consumed or released depends on the tables and the reservation rows alone. */
  lemma {:induction false} ConsumeDepends(v: Locked, w: Locked, oid: nat, a: Time, b: Time)
    requires w.t == v.t && w.order.reservations == v.order.reservations
    ensures CanConsume(v, oid, a) == CanConsume(w, oid, b)
    ensures ReleaseReservations(v, a).Err? == ReleaseReservations(w, b).Err?
  {
    hide Transact, RequestsOf, Has;
  }

  /** The order the dispatch works on. */
  function Opened(v: Locked): Locked {
    v.(order := WithPayment(v.order, Row(v).(provider := MercadoPagoProvider)))
  }

  lemma {:induction false} ApproveInert(v: Locked, oid: nat, p: Payment, paidAt: Time, event: Option<nat>, now: Time)
    requires IsActive(v.order.status) ==> !CanConsume(v, oid, now)
    ensures Approve(v, oid, p, paidAt, event, now).Ok? ==> SameCore(v, Approve(v, oid, p, paidAt, event, now).value.0)
  {
    MarkCore(v, oid, PaidWithoutStock, event);
    hide ConsumeReservations, Mark, Transition;
  }

  lemma {:induction false} StatusInert(v: Locked, oid: nat, s: Snapshot, event: nat, now: Time)
    requires v.order.payment.Some? && Row(v).provider != OtherProvider && Inert(v, oid, s)
    requires FeeOnly(s, oid, Row(v)) && FeeOk(s)
    ensures ApplyStatus(v, oid, s, event, now).Ok? ==> SameCore(v, ApplyStatus(v, oid, s, event, now).value)
  {
    var p := v.order.payment.value;
    match s.status {
      case SnapshotApproved =>
        MarkCore(v, oid, PaidWithoutStock, Some(event));
        ApproveInert(v, oid, p, if s.approvedAt.Some? then s.approvedAt.value else now, Some(event), now);
      case SnapshotRefunded =>
        MarkCore(v.(order := WithPayment(v.order, p.(refundedAmount := ReportedRefund(s, p)))), oid, PartialRefund, Some(event));
      case SnapshotPending =>
      case _ => MarkCore(v, oid, ProviderStatusIssue, Some(event));
    }
    hide Mark, Approve, ReleaseReservations, ConsumeReservations;
  }

  lemma {:induction false} InertRow(v: Locked, w: Locked, oid: nat, s: Snapshot)
    requires Inert(v, oid, s) && SameCore(v, w)
    requires Row(w).provider != OtherProvider ==> Row(v).provider != OtherProvider
    requires Row(w).amount == Row(v).amount
    ensures Inert(w, oid, s)
  {
    forall now: Time
      ensures CanConsume(v, oid, now) == CanConsume(w, oid, now)
      ensures ReleaseReservations(v, now).Err? == ReleaseReservations(w, now).Err?
    {
      ConsumeDepends(v, w, oid, now, now);
    }
    hide CanConsume, ReleaseReservations;
  }

  lemma {:induction false} SnapshotInert(v: Locked, oid: nat, s: Snapshot, event: nat, now: Time)
    requires v.order.payment.Some? && Row(v).provider != OtherProvider && Inert(v, oid, s)
    ensures ApplySnapshot(v, oid, s, event, now).Ok? ==> SameCore(v, ApplySnapshot(v, oid, s, event, now).value)
  {
    var p := v.order.payment.value;
    MarkCore(v, oid, PaymentMismatch, Some(event));
    MarkCore(v, oid, FeeMismatch, Some(event));
    if FeeOnly(s, oid, p) && FeeOk(s) {
      var u := v.(order := WithPayment(v.order, p.(hasProviderId := s.hasId)));
      InertRow(v, u, oid, s);
      StatusInert(u, oid, s, event, now);
    }
    hide Mark, ApplyStatus, Inert;
  }

  /** An inert snapshot changes nothing that matters. */
  lemma {:induction false} InertKeeps(v: Locked, oid: nat, s: Snapshot, a: Arrival)
    requires Inert(v, oid, s)
    ensures SameCore(v, Deliver(v, oid, s, a))
  {
    var event, now := a.event, a.now;
    MarkCore(v, oid, WebhookPending, Some(event));
    var u := if Row(v).provider == OtherProvider then v.(order := WithPayment(v.order, Row(v))) else Opened(v);
    if Row(v).provider == OtherProvider {
      MarkCore(u, oid, PaymentMismatch, Some(event));
      FinishCore(Mark(u, oid, PaymentMismatch, Some(event)), oid, event);
    } else {
      InertRow(v, u, oid, s);
      SnapshotInert(u, oid, s, event, now);
      if ApplySnapshot(u, oid, s, event, now).Ok? {
        FinishCore(ApplySnapshot(u, oid, s, event, now).value, oid, event);
      }
    }
    hide Mark, ApplySnapshot, Inert, ClearIfResolved, ResolvePending, Report;
  }

  // ----- Refunds

  predicate SameStock(v: Locked, w: Locked) {
    w.t == v.t && w.order.reservations == v.order.reservations
  }

  lemma {:induction false} RefundStatusKeepsStock(v: Locked, oid: nat, s: Snapshot, event: nat, now: Time)
    requires v.order.payment.Some? && s.status == SnapshotRefunded && ApplyStatus(v, oid, s, event, now).Ok?
    ensures SameStock(v, ApplyStatus(v, oid, s, event, now).value)
  {
    hide Mark, ReportedRefund;
    var p := v.order.payment.value;
    MarkCore(v.(order := WithPayment(v.order, p.(refundedAmount := ReportedRefund(s, p)))), oid, PartialRefund, Some(event));
  }

  lemma {:induction false} RefundSettleKeepsStock(v: Locked, oid: nat, s: Snapshot, event: nat, now: Time)
    requires s.status == SnapshotRefunded && Settle(v, oid, s, event, now).Ok?
    ensures SameStock(v, Settle(v, oid, s, event, now).value)
  {
    hide Mark, ApplyStatus, ClearIfResolved, ResolvePending;
    var other := v.(order := WithPayment(v.order, Row(v)));
    var u := Opened(v);
    var x := u.(order := WithPayment(u.order, Row(u).(hasProviderId := s.hasId)));
    MarkCore(other, oid, PaymentMismatch, Some(event));
    MarkCore(u, oid, PaymentMismatch, Some(event));
    MarkCore(u, oid, FeeMismatch, Some(event));
    if Believed(v, oid, s) {
      RefundStatusKeepsStock(x, oid, s, event, now);
    }
    var m := if Row(v).provider == OtherProvider then Mark(other, oid, PaymentMismatch, Some(event))
             else ApplySnapshot(u, oid, s, event, now).value;
    FinishCore(m, oid, event);
  }

  /** A refund, by the seller or reported by the provider, full or partial, puts no unit back. */
  lemma {:induction false} RefundsRestockNothing(v: Locked, oid: nat, c: Command)
    requires c.DoRefund? || (c.DoSettle? && c.snapshot.status == SnapshotRefunded)
    requires Perform(v, oid, c).Ok?
    ensures SameStock(v, Perform(v, oid, c).value)
  {
    hide Mark, Settle;
    MarkCore(v, oid, UnknownPayment, None);
    if c.DoSettle? {
      RefundSettleKeepsStock(v, oid, c.snapshot, c.event, c.now);
    }
  }

  // ----- After one delivery the snapshot is inert

  predicate SameRow(v: Locked, w: Locked) {
    Row(w).amount == Row(v).amount && (Row(w).provider == OtherProvider <==> Row(v).provider == OtherProvider)
  }

  lemma {:induction false} ReleasesAlways(v: Locked, oid: nat, s: Snapshot, now: Time)
    requires Believed(v, oid, s) && !Inert(v, oid, s)
    requires s.status == SnapshotRejected || s.status == SnapshotCancelled
    ensures IsActive(v.order.status) && ReleaseReservations(v, now).Ok?
    ensures var m := ReleaseReservations(v, now).value;
            m.order == v.order.(reservations := m.order.reservations)
  {
    var other: Time :| !ReleaseReservations(v, other).Err?;
    ConsumeDepends(v, v, oid, other, now);
    RowStepsKeep(v, oid, now);
    hide ReleaseReservations;
  }

  lemma {:induction false} ApproveMoves(v: Locked, oid: nat, p: Payment, paidAt: Time, event: Option<nat>, now: Time, other: Time)
    requires IsActive(v.order.status) && CanConsume(v, oid, other)
    ensures Approve(v, oid, p, paidAt, event, now).Ok?
    ensures Approve(v, oid, p, paidAt, event, now).value.0.order.status == Paid
  {
    hide ConsumeReservations, ReleaseReservations, ReopenReservations, Mark;
    ConsumeDepends(v, v, oid, other, now);
    RowStepsKeep(v, oid, now);
    assert ConsumeReservations(v, oid, now).Ok? && ConsumeReservations(v, oid, now).value.1;
    assert ConsumeReservations(v, oid, now).value.0.order.status == v.order.status;
    hide OnlyRows, CanConsume;
  }

  lemma {:induction false} ApprovalMoves(v: Locked, oid: nat, s: Snapshot, event: nat, now: Time)
    requires v.order.payment.Some? && Believed(v, oid, s) && !Inert(v, oid, s) && s.status == SnapshotApproved
    ensures ApplyStatus(v, oid, s, event, now).Ok?
    ensures ApplyStatus(v, oid, s, event, now).value.order.status == Paid
  {
    var other :| CanConsume(v, oid, other);
    hide CanConsume, Mark, Approve, Inert, Believed, FeeOnly, FeeOk;
    var paidAt := if s.approvedAt.Some? then s.approvedAt.value else now;
    ApproveMoves(v, oid, v.order.payment.value, paidAt, Some(event), now, other);
    ApprovedIs(v, oid, s, event, now, paidAt);
    hide ApplyStatus;
  }

  lemma {:induction false} ApprovedIs(v: Locked, oid: nat, s: Snapshot, event: nat, now: Time, paidAt: Time)
    requires v.order.payment.Some? && IsActive(v.order.status) && s.status == SnapshotApproved
    requires paidAt == if s.approvedAt.Some? then s.approvedAt.value else now
    ensures var r := Approve(v, oid, v.order.payment.value, paidAt, Some(event), now);
            ApplyStatus(v, oid, s, event, now) == if r.Err? then Err(r.error) else Ok(r.value.0)
  {
    hide Approve, Mark;
  }

  lemma {:induction false} RejectionMoves(v: Locked, oid: nat, s: Snapshot, event: nat, now: Time)
    requires v.order.payment.Some? && Believed(v, oid, s) && !Inert(v, oid, s)
    requires s.status == SnapshotRejected || s.status == SnapshotCancelled
    ensures ApplyStatus(v, oid, s, event, now).Ok?
    ensures ApplyStatus(v, oid, s, event, now).value.order.status == Cancelled
  {
    ReleasesAlways(v, oid, s, now);
    hide ReleaseReservations, Mark, Inert;
  }

  lemma {:induction false} RefundMoves(v: Locked, oid: nat, s: Snapshot, event: nat, now: Time)
    requires v.order.payment.Some? && Believed(v, oid, s) && !Inert(v, oid, s) && s.status == SnapshotRefunded
    ensures ApplyStatus(v, oid, s, event, now).Ok?
    ensures ApplyStatus(v, oid, s, event, now).value.order.status == Refunded
  {
    hide Mark;
  }

  /** Where a snapshot that is not inert leaves the order. */
  predicate Landed(s: Snapshot, status: Status) {
    match s.status
    case SnapshotApproved => status == Paid
    case SnapshotRefunded => status == Refunded
    case SnapshotRejected => status == Cancelled
    case SnapshotCancelled => status == Cancelled
    case _ => false
  }

  /** The three ways a snapshot moves an order, and where each leaves it. */
  lemma {:induction false} StatusMoves(v: Locked, oid: nat, s: Snapshot, event: nat, now: Time)
    requires v.order.payment.Some? && Believed(v, oid, s) && !Inert(v, oid, s)
    ensures ApplyStatus(v, oid, s, event, now).Ok?
    ensures Landed(s, ApplyStatus(v, oid, s, event, now).value.order.status)
  {
    assert s.status != SnapshotPending && s.status != SnapshotUnknown;
    hide ApplyStatus, Inert, Believed;
    if s.status == SnapshotApproved {
      ApprovalMoves(v, oid, s, event, now);
    } else if s.status == SnapshotRefunded {
      RefundMoves(v, oid, s, event, now);
    } else {
      RejectionMoves(v, oid, s, event, now);
    }
  }

  lemma {:induction false} SettleMoves(v: Locked, oid: nat, s: Snapshot, event: nat, now: Time)
    requires Believed(v, oid, s) && !Inert(v, oid, s)
    ensures Settle(v, oid, s, event, now).Ok?
    ensures Landed(s, Settle(v, oid, s, event, now).value.order.status)
  {
    var u := Opened(v);
    var x := u.(order := WithPayment(u.order, Row(u).(hasProviderId := s.hasId)));
    if Inert(x, oid, s) {
      InertRow(x, v, oid, s);
    }
    StatusMoves(x, oid, s, event, now);
    var w := ApplyStatus(x, oid, s, event, now).value;
    FinishCore(w, oid, event);
    hide Mark, ApplyStatus, Inert, ClearIfResolved, ResolvePending;
  }

  lemma {:induction false} DoneIsInert(w: Locked, oid: nat, s: Snapshot)
    requires Landed(s, w.order.status)
    ensures Inert(w, oid, s)
  {
  }

  // ----- Repetition

  /** The payment row keeps its amount and provider. */
  predicate KeepsRow(v: Locked, w: Locked)
    requires v.order.payment.Some?
  {
    && w.order.payment.Some?
    && w.order.payment.value.amount == v.order.payment.value.amount
    && w.order.payment.value.provider == v.order.payment.value.provider
  }

  lemma {:induction false} ApproveRowKept(v: Locked, oid: nat, paidAt: Time, event: Option<nat>, now: Time)
    requires v.order.payment.Some? && Approve(v, oid, v.order.payment.value, paidAt, event, now).Ok?
    ensures KeepsRow(v, Approve(v, oid, v.order.payment.value, paidAt, event, now).value.0)
  {
    MarkCore(v, oid, PaidWithoutStock, event);
    hide ConsumeReservations, Mark;
  }

  lemma {:induction false} RefundRowKept(v: Locked, oid: nat, s: Snapshot, event: nat, now: Time)
    requires v.order.payment.Some? && s.status == SnapshotRefunded && ApplyStatus(v, oid, s, event, now).Ok?
    ensures KeepsRow(v, ApplyStatus(v, oid, s, event, now).value)
  {
    var p := v.order.payment.value;
    MarkCore(v.(order := WithPayment(v.order, p.(refundedAmount := ReportedRefund(s, p)))), oid, PartialRefund, Some(event));
    hide Mark, ReportedRefund;
  }

  lemma {:induction false} RejectRowKept(v: Locked, oid: nat, s: Snapshot, event: nat, now: Time)
    requires v.order.payment.Some? && ApplyStatus(v, oid, s, event, now).Ok?
    requires s.status == SnapshotRejected || s.status == SnapshotCancelled
    ensures KeepsRow(v, ApplyStatus(v, oid, s, event, now).value)
  {
    MarkCore(v, oid, ProviderStatusIssue, Some(event));
    hide Mark, ReleaseReservations;
  }

  lemma {:induction false} ApprovalRowKept(v: Locked, oid: nat, s: Snapshot, event: nat, now: Time)
    requires v.order.payment.Some? && s.status == SnapshotApproved && ApplyStatus(v, oid, s, event, now).Ok?
    ensures KeepsRow(v, ApplyStatus(v, oid, s, event, now).value)
  {
    MarkCore(v, oid, PaidWithoutStock, Some(event));
    var paidAt := if s.approvedAt.Some? then s.approvedAt.value else now;
    if Approve(v, oid, v.order.payment.value, paidAt, Some(event), now).Ok? {
      ApproveRowKept(v, oid, paidAt, Some(event), now);
    }
    hide Mark, Approve;
  }

  lemma {:induction false} StatusRowKept(v: Locked, oid: nat, s: Snapshot, event: nat, now: Time)
    requires v.order.payment.Some? && ApplyStatus(v, oid, s, event, now).Ok?
    ensures KeepsRow(v, ApplyStatus(v, oid, s, event, now).value)
  {
    if s.status == SnapshotApproved {
      hide *;
      ApprovalRowKept(v, oid, s, event, now);
    } else if s.status == SnapshotRefunded {
      hide *;
      RefundRowKept(v, oid, s, event, now);
    } else if s.status == SnapshotRejected || s.status == SnapshotCancelled {
      hide *;
      RejectRowKept(v, oid, s, event, now);
    } else {
      MarkCore(v, oid, ProviderStatusIssue, Some(event));
      hide Mark, ReleaseReservations, Approve, ReportedRefund;
    }
  }

  lemma {:induction false} SettleRowKept(v: Locked, oid: nat, s: Snapshot, event: nat, now: Time)
    requires Settle(v, oid, s, event, now).Ok?
    ensures SameRow(v, Settle(v, oid, s, event, now).value)
  {
    var other := v.(order := WithPayment(v.order, Row(v)));
    var u := Opened(v);
    var x := u.(order := WithPayment(u.order, Row(u).(hasProviderId := s.hasId)));
    MarkCore(other, oid, PaymentMismatch, Some(event));
    MarkCore(u, oid, PaymentMismatch, Some(event));
    MarkCore(u, oid, FeeMismatch, Some(event));
    if Believed(v, oid, s) {
      StatusRowKept(x, oid, s, event, now);
    }
    var m := SettledFrom(v, oid, s, event, now);
    FinishCore(m, oid, event);
    hide Mark, ApplyStatus, ClearIfResolved, ResolvePending;
  }

  lemma {:induction false} SettledFrom(v: Locked, oid: nat, s: Snapshot, event: nat, now: Time) returns (m: Locked)
    requires Settle(v, oid, s, event, now).Ok?
    ensures Settle(v, oid, s, event, now).value == ClearIfResolved(m.(issues := ResolvePending(m.issues, event)), oid)
    ensures if Row(v).provider == OtherProvider
            then m == Mark(v.(order := WithPayment(v.order, Row(v))), oid, PaymentMismatch, Some(event))
            else ApplySnapshot(Opened(v), oid, s, event, now) == Ok(m)
  {
    m := if Row(v).provider == OtherProvider
         then Mark(v.(order := WithPayment(v.order, Row(v))), oid, PaymentMismatch, Some(event))
         else ApplySnapshot(Opened(v), oid, s, event, now).value;
    hide Mark, ApplySnapshot, ClearIfResolved, ResolvePending;
  }

  lemma {:induction false} DeliverRow(v: Locked, oid: nat, s: Snapshot, a: Arrival)
    ensures SameRow(v, Deliver(v, oid, s, a))
  {
    if Settle(v, oid, s, a.event, a.now).Ok? {
      SettleRowKept(v, oid, s, a.event, a.now);
    } else {
      MarkCore(v, oid, WebhookPending, Some(a.event));
    }
    hide Settle, Mark, Report;
  }

  /** Whether or not it changed anything, a delivered snapshot can change nothing more. */
  lemma {:induction false} DeliverInert(v: Locked, oid: nat, s: Snapshot, a: Arrival)
    ensures Inert(Deliver(v, oid, s, a), oid, s)
  {
    var w := Deliver(v, oid, s, a);
    if Inert(v, oid, s) {
      InertKeeps(v, oid, s, a);
      DeliverRow(v, oid, s, a);
      InertRow(v, w, oid, s);
    } else {
      SettleMoves(v, oid, s, a.event, a.now);
      DoneIsInert(w, oid, s);
    }
    hide *;
  }

  function DeliverAll(v: Locked, oid: nat, s: Snapshot, arrivals: seq<Arrival>): Locked {
    if arrivals == [] then v
    else
      var last := arrivals[|arrivals| - 1];
      Deliver(DeliverAll(v, oid, s, arrivals[..|arrivals| - 1]), oid, s, last)
  }

  /**
   * From any state whatsoever and for every provider status, one or more arrivals of the
   * same snapshot leave balances, movements, order status and reservations as the first left them.
   */
  lemma {:induction false} DeliverAnyNumberOfTimes(v: Locked, oid: nat, s: Snapshot, arrivals: seq<Arrival>)
    requires arrivals != []
    ensures SameCore(Deliver(v, oid, s, arrivals[0]), DeliverAll(v, oid, s, arrivals))
    ensures Inert(DeliverAll(v, oid, s, arrivals), oid, s)
  {
    hide Deliver, Inert;
    var init := arrivals[..|arrivals| - 1];
    var last := arrivals[|arrivals| - 1];
    DeliverInert(DeliverAll(v, oid, s, init), oid, s, last);
    if init == [] {
      assert DeliverAll(v, oid, s, init) == v;
    } else {
      DeliverAnyNumberOfTimes(v, oid, s, init);
      InertKeeps(DeliverAll(v, oid, s, init), oid, s, last);
    }
  }
}
