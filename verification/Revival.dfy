/** Which commands can make a snapshot matter again after it has been delivered. */
module Revival {
  import opened Prelude
  import opened Stock
  import opened Orders
  import opened Shop
  import opened Invariant
  import opened Preserve
  import opened Commands
  import opened Runs
  import opened History
  import opened RoundTrip
  import opened Snapshots
  import opened Acceptance
  import opened Archiving

  // ----- Inertness in a valid shop

  /** In a valid shop a believed snapshot is inert exactly by the order's status. */
  predicate Settled(o: Order, s: Snapshot, full: bool) {
    match s.status
    case SnapshotApproved => !IsActive(o.status)
    case SnapshotRejected => !IsActive(o.status)
    case SnapshotCancelled => !IsActive(o.status)
    case SnapshotRefunded => full ==> o.status != Paid
    case _ => true
  }

  lemma {:induction false} ActiveMoves(v: Locked, oid: nat, now: Time)
    requires Ready(v, oid) && IsActive(v.order.status)
    ensures CanConsume(v, oid, now) && ReleaseReservations(v, now).Ok?
  {
    hide Ready, ConsumeReservations, ReleaseReservations, Rephased, Moves;
    var m := ReleaseStep(v, oid, now);
    var n := ConsumeStep(v, oid, now);
  }

  lemma {:induction false} InertWhen(v: Locked, oid: nat, s: Snapshot)
    requires Ready(v, oid)
    ensures Inert(v, oid, s) <==> (Believed(v, oid, s) ==> Settled(v.order, s, IsFull(s, Row(v).amount)))
  {
    hide Ready, CanConsume, ReleaseReservations, Believed, IsFull;
    if IsActive(v.order.status) {
      ActiveMoves(v, oid, 0);
    }
  }

  // ----- What never changes about a payment

  /** A payment taken by some other provider. */
  predicate Foreign(o: Order) {
    o.payment.Some? && o.payment.value.provider == OtherProvider
  }

  predicate SameForeign(o: Order, r: Order) {
    Foreign(r) <==> Foreign(o)
  }

  lemma {:induction false} MarkForeign(v: Locked, oid: nat, kind: IssueKind, event: Option<nat>)
    ensures SameForeign(v.order, Mark(v, oid, kind, event).order)
  {
    hide Report;
  }

  lemma {:induction false} ApproveForeign(v: Locked, oid: nat, paidAt: Time, event: Option<nat>, now: Time)
    requires v.order.payment.Some? && Approve(v, oid, v.order.payment.value, paidAt, event, now).Ok?
    ensures SameForeign(v.order, Approve(v, oid, v.order.payment.value, paidAt, event, now).value.0.order)
  {
    hide Approve, KeepsRow;
    ApproveRowKept(v, oid, paidAt, event, now);
    KeptForeign(v, Approve(v, oid, v.order.payment.value, paidAt, event, now).value.0);
  }

  lemma {:induction false} KeptForeign(v: Locked, w: Locked)
    requires v.order.payment.Some? && KeepsRow(v, w)
    ensures SameForeign(v.order, w.order)
  {
  }

  lemma {:induction false} RowForeign(v: Locked)
    ensures Foreign(v.order) <==> Row(v).provider == OtherProvider
  {
  }

  lemma {:induction false} ReviewForeign(v: Locked, oid: nat, approved: bool, now: Time)
    requires ReviewProof(v, oid, approved, now).Ok?
    ensures SameForeign(v.order, ReviewProof(v, oid, approved, now).value.order)
  {
    if v.order.status == PurchaseValidation {
      hide Approve, ReleaseReservations;
      var p := v.order.payment.value;
      if approved {
        ApproveForeign(v.(order := WithPayment(v.order, p.(proof := Some(ProofApproved)))), oid, now, None, now);
      } else {
        RowStepsKeep(v.(order := WithPayment(v.order, p.(proof := Some(ProofRejected), status := PaymentRejected))), oid, now);
      }
    }
  }

  lemma {:induction false} ConfirmForeign(v: Locked, oid: nat, amount: Option<int>, paidAt: Time, now: Time)
    requires ConfirmManual(v, oid, amount, paidAt, now).Ok?
    ensures SameForeign(v.order, ConfirmManual(v, oid, amount, paidAt, now).value.order)
  {
    hide Approve;
    var p := PaymentOf(v.order, NoProvider);
    if v.order.status != Paid || p.status != PaymentApproved {
      ApproveForeign(v.(order := WithPayment(v.order, p)), oid, paidAt, None, now);
    }
  }

  lemma {:induction false} ClosingForeign(v: Locked, now: Time, ttl: Time)
    ensures Cancel(v, now).Ok? ==> SameForeign(v.order, Cancel(v, now).value.order)
    ensures Expire(v, now).Ok? ==> SameForeign(v.order, Expire(v, now).value.order)
    ensures Restore(v, now, ttl).Ok? ==> SameForeign(v.order, Restore(v, now, ttl).value.order)
    ensures Supersede(v, now).Ok? ==> SameForeign(v.order, Supersede(v, now).value.order)
  {
    hide ReleaseReservations, ReopenReservations, ConsumeReservations, RestoreTarget, Edge;
    RowStepsKeep(v, 0, now);
    RowStepsKeep(v, 0, now + ttl);
  }

  lemma {:induction false} SettleForeign(v: Locked, oid: nat, s: Snapshot, event: nat, now: Time)
    requires Settle(v, oid, s, event, now).Ok?
    ensures SameForeign(v.order, Settle(v, oid, s, event, now).value.order)
  {
    hide Settle, Foreign;
    SettleRowKept(v, oid, s, event, now);
    RowForeign(v);
    RowForeign(Settle(v, oid, s, event, now).value);
  }

  lemma {:induction false} QuietForeign(v: Locked, oid: nat, c: Command)
    requires !MovesStock(c) && Perform(v, oid, c).Ok?
    ensures SameForeign(v.order, Perform(v, oid, c).value.order)
  {
    hide Mark, Edge;
    match c {
      case DoFailWebhook(event) => MarkForeign(v, oid, WebhookPending, Some(event));
      case DoRefund(_, _, _) => MarkForeign(v, oid, UnknownPayment, None);
      case _ =>
    }
  }

  /** No command turns a payment of another provider into one of ours, or the reverse. */
  lemma {:induction false} PerformForeign(v: Locked, oid: nat, c: Command)
    requires Perform(v, oid, c).Ok?
    ensures SameForeign(v.order, Perform(v, oid, c).value.order)
  {
    if MovesStock(c) {
      hide SameForeign, ReviewProof, ConfirmManual, Cancel, Expire, Restore, Settle, Supersede;
      match c {
        case DoReviewProof(approved, now) => ReviewForeign(v, oid, approved, now);
        case DoConfirmManual(amount, paidAt, now) => ConfirmForeign(v, oid, amount, paidAt, now);
        case DoCancel(now) => ClosingForeign(v, now, 0);
        case DoExpire(now) => ClosingForeign(v, now, 0);
        case DoRestore(now, ttl) => ClosingForeign(v, now, ttl);
        case DoSettle(s, event, now) => SettleForeign(v, oid, s, event, now);
      }
    } else {
      hide *;
      QuietForeign(v, oid, c);
    }
  }

  /** Whether a snapshot is believed, and whether its refund is a full one, stays as it is. */
  lemma {:induction false} SameBelief(v: Locked, w: Locked, oid: nat, s: Snapshot)
    requires HeaderOk(v.order) && HeaderOk(w.order) && w.order.total == v.order.total && SameForeign(v.order, w.order)
    ensures Believed(w, oid, s) <==> Believed(v, oid, s)
    ensures IsFull(s, Row(w).amount) <==> IsFull(s, Row(v).amount)
  {
    RowAmount(v);
    RowAmount(w);
    RowForeign(v);
    RowForeign(w);
    hide HeaderOk, Row;
  }

  lemma {:induction false} RowAmount(v: Locked)
    requires HeaderOk(v.order)
    ensures Row(v).amount == v.order.total
  {
    hide Chain;
  }

  // ----- Which commands pay, and which reopen

  /** The guards of the commands that sell an active order. */
  predicate Pays(v: Locked, oid: nat, c: Command) {
    IsActive(v.order.status) &&
    match c
    case DoReviewProof(approved, _) => approved && v.order.status == PurchaseValidation
    case DoConfirmManual(amount, _, _) =>
      && amount == Some(v.order.total) && v.order.paymentMethod != MercadoPago
      && !(v.order.paymentMethod == BankTransfer && v.order.status == PurchaseValidation)
    case DoSettle(s, _, _) => s.status == SnapshotApproved && Believed(v, oid, s)
    case _ => false
  }

  /** The guards of a restore that reopens a cancelled order. */
  ghost predicate ReopensIt(v: Locked, c: Command) {
    c.DoRestore? && v.order.status == Cancelled && RestoreTarget(v.order).Ok? && AllowsOrder(v.t, Hold, v.order.lines)
  }

  lemma {:induction false} ReopensWhen(v: Locked, oid: nat, c: Command)
    requires Ready(v, oid) && !IsActive(v.order.status) && Perform(v, oid, c).Ok?
    ensures IsActive(Perform(v, oid, c).value.order.status) <==> ReopensIt(v, c)
  {
    if Reopens(v, c) {
      hide Ready, Steps, Restore, RestoreTarget, AllowsOrder;
      RestoreWhen(v, oid, c.now, c.ttl);
      RestoreSteps(v, oid, c.now, c.ttl);
      TargetIsActive(v.order);
    } else {
      hide Ready, Steps, Perform, RestoreTarget, AllowsOrder;
      NeverDraft(v, oid);
      NotReopened(v, oid, c);
    }
  }

  lemma {:induction false} ReopensHappens(v: Locked, oid: nat, c: Command)
    requires Ready(v, oid) && ReopensIt(v, c)
    ensures Perform(v, oid, c).Ok?
  {
    hide Ready, Restore, RestoreTarget, AllowsOrder;
    RestoreWhen(v, oid, c.now, c.ttl);
  }

  lemma {:induction false} SettlePays(v: Locked, oid: nat, s: Snapshot, event: nat, now: Time)
    requires Ready(v, oid) && IsActive(v.order.status)
    ensures Pays(v, oid, DoSettle(s, event, now)) ==> Settle(v, oid, s, event, now).Ok?
    ensures Settle(v, oid, s, event, now).Ok? ==>
              (Settle(v, oid, s, event, now).value.order.status == Paid <==> Pays(v, oid, DoSettle(s, event, now)))
  {
    InertWhen(v, oid, s);
    hide Ready, Settle, Inert, Believed;
    if Inert(v, oid, s) {
      InertKeeps(v, oid, s, Arrival(event, false, now));
    } else {
      NotInertBelieved(v, oid, s);
      SettleMoves(v, oid, s, event, now);
    }
  }

  lemma {:induction false} NotInertBelieved(v: Locked, oid: nat, s: Snapshot)
    requires !Inert(v, oid, s)
    ensures Believed(v, oid, s)
  {
    hide CanConsume, ReleaseReservations, Believed, IsFull;
  }

  lemma {:induction false} QuietNeverPays(v: Locked, oid: nat, c: Command)
    requires IsActive(v.order.status) && Perform(v, oid, c).Ok?
    requires !MovesStock(c) || c.DoCancel? || c.DoExpire? || c.DoRestore?
    ensures Perform(v, oid, c).value.order.status != Paid
  {
    hide ReleaseReservations, ReopenReservations, Report, Edge;
    match c {
      case DoCancel(now) => RowStepsKeep(v, oid, now);
      case DoExpire(now) => RowStepsKeep(v, oid, now);
      case _ =>
    }
  }

  lemma {:induction false} ActivePays(v: Locked, oid: nat, c: Command)
    requires Ready(v, oid) && IsActive(v.order.status)
    ensures Pays(v, oid, c) ==> Perform(v, oid, c).Ok?
    ensures Perform(v, oid, c).Ok? ==> (Perform(v, oid, c).value.order.status == Paid <==> Pays(v, oid, c))
  {
    match c {
      case DoReviewProof(approved, now) =>
        hide Ready, Steps, ReviewProof;
        ReviewWhen(v, oid, approved, now);
        if v.order.status == PurchaseValidation {
          ReviewMoves(v, oid, approved, now);
        }
      case DoConfirmManual(amount, paidAt, now) =>
        hide Ready, Steps, ConfirmManual;
        ConfirmWhen(v, oid, amount, paidAt, now);
        if ConfirmManual(v, oid, amount, paidAt, now).Ok? {
          ConfirmSteps(v, oid, amount, paidAt, now);
        }
      case DoSettle(s, event, now) =>
        hide Ready, Settle, Pays;
        SettlePays(v, oid, s, event, now);
      case _ =>
        if Perform(v, oid, c).Ok? {
          hide Ready, Perform;
          QuietNeverPays(v, oid, c);
        }
    }
  }

  /** An order that is not paid becomes paid by exactly those commands. */
  lemma {:induction false} PaysWhen(v: Locked, oid: nat, c: Command)
    requires Ready(v, oid) && v.order.status != Paid && Perform(v, oid, c).Ok?
    ensures Perform(v, oid, c).value.order.status == Paid <==> Pays(v, oid, c)
  {
    hide Ready, Perform;
    if IsActive(v.order.status) {
      ActivePays(v, oid, c);
    } else {
      ClosedNeverPays(v, oid, c);
    }
  }

  lemma {:induction false} ClosedNeverPays(v: Locked, oid: nat, c: Command)
    requires Ready(v, oid) && v.order.status != Paid && !IsActive(v.order.status) && Perform(v, oid, c).Ok?
    ensures Perform(v, oid, c).value.order.status != Paid
  {
    var w := Perform(v, oid, c).value;
    if v.order.status == Cancelled {
      ReopensWhen(v, oid, c);
      if Reopens(v, c) {
        hide Ready, Steps, Restore, ReopensIt, RestoreTarget;
        RestoreSteps(v, oid, c.now, c.ttl);
        RestoreNeeds(v, c.now, c.ttl);
        TargetIsActive(v.order);
      } else {
        hide Ready, Perform, ReopensIt;
        StaysCancelled(v, oid, c);
      }
    } else {
      NeverDraft(v, oid);
      PerformSteps(v, oid, c);
      PerformExtends(v, oid, c);
      StepsReady(v, w, oid);
      ReadyHeader(v, oid);
      ReadyHeader(w, oid);
      HeaderChain(v.order);
      HeaderChain(w.order);
      hide Ready, Steps, Perform, HeaderOk, Chain;
      ChainTrapped(v.order.timeline, w.order.timeline, v.order.status, w.order.status, {v.order.status});
    }
  }

  lemma {:induction false} HeaderChain(o: Order)
    requires HeaderOk(o)
    ensures Chain(o.timeline, o.status)
  {
    hide Chain;
  }

  // ----- The exact commands that revive a snapshot

  /** A command on the order itself that makes the snapshot able to move it again. */
  ghost predicate RevivesHere(v: Locked, oid: nat, s: Snapshot, c: Command) {
    Believed(v, oid, s) &&
    match s.status
    case SnapshotApproved => ReopensIt(v, c)
    case SnapshotRejected => ReopensIt(v, c)
    case SnapshotCancelled => ReopensIt(v, c)
    case SnapshotRefunded => IsFull(s, Row(v).amount) && Pays(v, oid, c)
    case _ => false
  }

  lemma {:induction false} CommandRevives(v: Locked, oid: nat, s: Snapshot, c: Command)
    requires Ready(v, oid) && Inert(v, oid, s) && Perform(v, oid, c).Ok?
    ensures Inert(Perform(v, oid, c).value, oid, s) <==> !RevivesHere(v, oid, s, c)
  {
    var w := Perform(v, oid, c).value;
    PerformSteps(v, oid, c);
    StepsReady(v, w, oid);
    PerformExtends(v, oid, c);
    PerformForeign(v, oid, c);
    ReadyHeader(v, oid);
    ReadyHeader(w, oid);
    hide Ready, Steps, Perform, HeaderOk, Believed, Inert, SameForeign, IsFull, Pays, ReopensIt;
    SameBelief(v, w, oid, s);
    InertWhen(v, oid, s);
    InertWhen(w, oid, s);
    if Believed(v, oid, s) {
      if s.status == SnapshotRefunded {
        if v.order.status != Paid {
          PaysWhen(v, oid, c);
        } else {
          PaidPays(v, oid, c);
        }
      } else if !IsActive(v.order.status) {
        ReopensWhen(v, oid, c);
      }
    }
  }

  lemma {:induction false} PaidPays(v: Locked, oid: nat, c: Command)
    requires v.order.status == Paid
    ensures !Pays(v, oid, c)
  {
  }

  lemma {:induction false} RevivesHappens(v: Locked, oid: nat, s: Snapshot, c: Command)
    requires Ready(v, oid) && RevivesHere(v, oid, s, c)
    ensures Perform(v, oid, c).Ok?
  {
    hide Ready, Perform, Believed, IsFull;
    if s.status == SnapshotRefunded {
      PaysIsActive(v, oid, c);
      hide Pays, ReopensIt;
      ActivePays(v, oid, c);
    } else {
      hide Pays, ReopensIt;
      ReopensHappens(v, oid, c);
    }
  }

  lemma {:induction false} PaysIsActive(v: Locked, oid: nat, c: Command)
    requires Pays(v, oid, c)
    ensures IsActive(v.order.status)
  {
  }

  /**
   * Of all commands of the shop: restoring the order revives an approval, rejection or cancellation
   * of its payment, and selling the order revives its full refund.
   */
  ghost predicate Revives(db: Db, oid: nat, s: Snapshot, a: Action) {
    a.ChangeOrder? && a.oid == oid < |db.orders| && RevivesHere(LockedAt(db, oid), oid, s, a.command)
  }

  lemma {:induction false} SameOrderInert(db: Db, r: Db, oid: nat, s: Snapshot)
    requires Valid(db) && Valid(r) && oid < |db.orders| && oid < |r.orders| && r.orders[oid] == db.orders[oid]
    ensures Inert(LockedAt(r, oid), oid, s) <==> Inert(LockedAt(db, oid), oid, s)
  {
    ReadyAt(db, oid);
    ReadyAt(r, oid);
    hide Valid, Ready, Inert;
    InertWhen(LockedAt(db, oid), oid, s);
    InertWhen(LockedAt(r, oid), oid, s);
    SameOrderBelief(LockedAt(db, oid), LockedAt(r, oid), oid, s);
    hide Believed, Settled, IsFull;
  }

  lemma {:induction false} SameOrderBelief(v: Locked, w: Locked, oid: nat, s: Snapshot)
    requires w.order == v.order
    ensures Believed(w, oid, s) <==> Believed(v, oid, s)
    ensures IsFull(s, Row(w).amount) <==> IsFull(s, Row(v).amount)
  {
  }

  lemma {:induction false} CancelledInert(db: Db, oid: nat, s: Snapshot)
    requires oid < |db.orders| && db.orders[oid].status == Cancelled
    ensures Inert(LockedAt(db, oid), oid, s)
  {
    hide Inert;
    CancelledIsInert(LockedAt(db, oid), oid, s);
  }

  lemma {:induction false} OwnCommandRevives(db: Db, oid: nat, s: Snapshot, c: Command)
    requires Valid(db) && oid < |db.orders| && Inert(LockedAt(db, oid), oid, s)
    ensures var r := Step(db, ChangeOrder(oid, c));
            oid < |r.orders| && (Inert(LockedAt(r, oid), oid, s) <==> !RevivesHere(LockedAt(db, oid), oid, s, c))
  {
    ReadyAt(db, oid);
    var v := LockedAt(db, oid);
    hide Valid, Ready, Inert, Perform, RevivesHere;
    if Perform(v, oid, c).Ok? {
      CommandRevives(v, oid, s, c);
      assert LockedAt(Step(db, ChangeOrder(oid, c)), oid) == Perform(v, oid, c).value;
    } else if RevivesHere(v, oid, s, c) {
      RevivesHappens(v, oid, s, c);
    }
  }

  /** The other commands leave the order's row alone, or cancel it for its replacement. */
  lemma {:induction false} OtherCommands(db: Db, oid: nat, a: Action)
    requires Valid(db) && oid < |db.orders| && Attempt(db, a).Ok? && !(a.ChangeOrder? && a.oid == oid)
    ensures var r := Attempt(db, a).value;
            oid < |r.orders| && (r.orders[oid] == db.orders[oid] || r.orders[oid].status == Cancelled)
  {
    match a {
      case CreateSale(inputs, mode, payBy, setup, expiresAt) =>
        hide Valid, NormaliseLines, Transact, NewOrder;
      case ChangeOrder(k, command) =>
        hide Valid, Perform;
      case ReissueSale(k, setup, now, ttl) =>
        hide Valid, Reissue;
        ReissueReplaces(db, k, setup, now, ttl);
      case _ =>
        hide Valid, CreateProduct, RecordMovement, ArchiveProduct, RestoreProduct, UpdateProduct, SetShopThreshold, SetProductThreshold;
    }
  }

  /** After any command of the shop, an inert snapshot is inert unless the command revives it. */
  lemma {:induction false} StepRevives(db: Db, oid: nat, s: Snapshot, a: Action)
    requires Valid(db) && oid < |db.orders| && Inert(LockedAt(db, oid), oid, s)
    ensures var r := Step(db, a);
            oid < |r.orders| && (Inert(LockedAt(r, oid), oid, s) <==> !Revives(db, oid, s, a))
  {
    hide Valid, Inert, Attempt, RevivesHere;
    if a.ChangeOrder? && a.oid == oid {
      OwnCommandRevives(db, oid, s, a.command);
    } else if Attempt(db, a).Ok? {
      var r := Attempt(db, a).value;
      AttemptValid(db, a);
      OtherCommands(db, oid, a);
      if r.orders[oid] == db.orders[oid] {
        SameOrderInert(db, r, oid, s);
      } else {
        CancelledInert(r, oid, s);
      }
    }
  }
}
