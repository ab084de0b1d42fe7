/** A rejected proof and a later restore: the newest seller cancellation counts, however old it is. */
module Rejection {
  import opened Prelude
  import opened Stock
  import opened Orders
  import opened Shop
  import opened Invariant
  import opened Preserve
  import opened Commands
  import opened Runs
  import opened RoundTrip
  import opened Samples

  // ----- What a rejection writes

  /** The payment row of a rejected proof. */
  function TurnedDown(p: Payment): Payment {
    p.(proof := Some(ProofRejected), status := PaymentRejected)
  }

  function RejectedOrder(o: Order, now: Time): Order
    requires o.payment.Some?
  {
    Moved(WithPayment(o, TurnedDown(o.payment.value)).(reservations := FreedAll(o.reservations, now)), Cancelled, ProofTurnedDown, now)
  }

  lemma {:induction false} RejectIs(v: Locked, oid: nat, now: Time) returns (w: Locked)
    requires Ready(v, oid) && v.order.status == PurchaseValidation
    ensures v.order.payment.Some? && ReviewProof(v, oid, false, now) == Ok(w) && Ready(w, oid)
    ensures w.order == RejectedOrder(v.order, now) && Moves(v.t, w.t, Free, v.order.lines)
  {
    ReadyHeader(v, oid);
    hide Ready, HeaderOk, Steps, ReleaseReservations, Moves, Rephased, ReviewProof;
    UnderReview(v.order);
    ReviewMoves(v, oid, false, now);
    w := ReviewProof(v, oid, false, now).value;
    StepsReady(v, w, oid);
    var m := ReleaseStep(v, oid, now);
    ReleasedRows(v, now, m);
    RowStepsKeep(v, oid, now);
    ReleaseIgnoresRow(v, TurnedDown(v.order.payment.value), now);
    ReviewRejects(v, oid, now, m);
  }

  lemma {:induction false} ReviewRejects(v: Locked, oid: nat, now: Time, m: Locked)
    requires v.order.status == PurchaseValidation && v.order.payment.Some? && v.order.payment.value.proof == Some(ProofReady)
    requires ReleaseReservations(v.(order := WithPayment(v.order, TurnedDown(v.order.payment.value))), now)
             == Ok(m.(order := WithPayment(m.order, TurnedDown(v.order.payment.value))))
    requires m.order == v.order.(reservations := FreedAll(v.order.reservations, now))
    ensures ReviewProof(v, oid, false, now) == Ok(m.(order := RejectedOrder(v.order, now)))
  {
    hide ReleaseReservations, Approve;
  }

  // ----- Restoring after a rejection

  lemma {:induction false} NewerEvent(timeline: seq<TimelineEvent>, e: TimelineEvent)
    requires e.kind != OrderCancelled
    ensures LastCancellation(timeline + [e]) == LastCancellation(timeline)
  {
    assert (timeline + [e])[..|timeline|] == timeline;
  }

  lemma {:induction false} RejectedTarget(o: Order, now: Time)
    requires o.payment.Some?
    ensures RestoreTarget(RejectedOrder(o, now)).Ok? <==>
            LastCancellation(o.timeline).Some? && LastCancellation(o.timeline).value.from.Some?
            && IsActive(LastCancellation(o.timeline).value.from.value)
  {
    NewerEvent(o.timeline, TimelineEvent(ProofTurnedDown, Some(o.status), Some(Cancelled)));
  }

  /** An order cancelled by a rejected proof can be restored exactly when the seller once cancelled it before. */
  lemma {:induction false} RestoreAfterRejection(v: Locked, oid: nat, now: Time, restored: Time, ttl: Time) returns (w: Locked)
    requires Ready(v, oid) && v.order.status == PurchaseValidation
    ensures ReviewProof(v, oid, false, now) == Ok(w)
    ensures Restore(w, restored, ttl).Ok? <==>
            LastCancellation(v.order.timeline).Some? && LastCancellation(v.order.timeline).value.from.Some?
            && IsActive(LastCancellation(v.order.timeline).value.from.value)
  {
    hide *;
    w := RejectIs(v, oid, now);
    RejectedIs(v.order, now);
    RejectedTarget(v.order, now);
    ReadySound(v, oid);
    StillAvailable(v.t, w.t, v.order.lines);
    RestoreWhen(w, oid, restored, ttl);
  }

  lemma {:induction false} RejectedIs(o: Order, now: Time)
    requires o.payment.Some?
    ensures RejectedOrder(o, now).status == Cancelled && RejectedOrder(o, now).lines == o.lines
  {
  }

  /** Any order under review: cancelled and restored by the seller, then rejected, it can be restored once more. */
  lemma {:induction false} RejectedAndRestored(v: Locked, oid: nat, now: Time, ttl: Time)
    returns (cancelled: Locked, back: Locked, rejected: Locked, again: Locked)
    requires Ready(v, oid) && v.order.status == PurchaseValidation
    ensures Cancel(v, now) == Ok(cancelled) && Restore(cancelled, now, ttl) == Ok(back)
    ensures ReviewProof(back, oid, false, now) == Ok(rejected) && rejected.order.status == Cancelled
    ensures Restore(rejected, now, ttl) == Ok(again) && IsActive(again.order.status)
  {
    hide *;
    ReviewIsActive(v.order.status);
    cancelled, back := CancelThenRestore(v, oid, now, now, ttl);
    var w := CancelIs(v, oid, now);
    CancelledIs(v.order, now);
    RestoreSteps(cancelled, oid, now, ttl);
    StepsReady(cancelled, back, oid);
    BackStatus(v, back, now + ttl);
    RestoredTimeline(cancelled, oid, now, ttl, v.order, back);
    rejected := RestoreAfterRejection(back, oid, now, now, ttl);
    again := Restore(rejected, now, ttl).value;
    ReviewMoves(back, oid, false, now);
    ReviewReady(back, rejected, oid, now);
    RestoreSteps(rejected, oid, now, ttl);
    RestoreNeeds(rejected, now, ttl);
    TargetIsActive(rejected.order);
  }

  lemma {:induction false} ReviewIsActive(s: Status)
    requires s == PurchaseValidation
    ensures IsActive(s)
  {
  }

  lemma {:induction false} BackStatus(v: Locked, r: Locked, expiresAt: Time)
    requires BackAgain(v, r, expiresAt)
    ensures r.order.status == v.order.status
  {
  }

  lemma {:induction false} ReviewReady(v: Locked, w: Locked, oid: nat, now: Time)
    requires Ready(v, oid) && v.order.status == PurchaseValidation && ReviewProof(v, oid, false, now) == Ok(w)
    ensures Ready(w, oid)
  {
    hide *;
    ReviewMoves(v, oid, false, now);
    StepsReady(v, w, oid);
  }

  /** After a cancellation and a restore the newest seller cancellation is that one. */
  lemma {:induction false} RestoredTimeline(w: Locked, oid: nat, now: Time, ttl: Time, o: Order, r: Locked)
    requires Ready(w, oid) && w.order == CancelledOrder(o, now) && IsActive(o.status) && Restore(w, now, ttl) == Ok(r)
    ensures LastCancellation(r.order.timeline) == Some(TimelineEvent(OrderCancelled, Some(o.status), Some(Cancelled)))
    ensures IsActive(o.status)
  {
    CancelledIs(o, now);
    hide Ready, Restore, ReopenReservations, Moves, Rephased, RestoreTarget, LastCancellation;
    RestoreNeeds(w, now, ttl);
    var m := Reopened(w, oid, now, ttl);
    var target := RestoreTarget(w.order).value;
    NewerEvent(w.order.timeline, TimelineEvent(OrderRestored, Some(Cancelled), Some(target)));
    NewestCancellation(o, now);
  }

  lemma {:induction false} NewestCancellation(o: Order, now: Time)
    ensures LastCancellation(CancelledOrder(o, now).timeline) == Some(TimelineEvent(OrderCancelled, Some(o.status), Some(Cancelled)))
  {
  }

  // ----- Reached from a new shop

  lemma {:induction false} CommandStep(db: Db, oid: nat, c: Command, v: Locked) returns (r: Db)
    requires oid < |db.orders| && Perform(LockedAt(db, oid), oid, c) == Ok(v)
    ensures r == Step(db, ChangeOrder(oid, c))
    ensures |r.orders| == |db.orders| && LockedAt(r, oid) == v
  {
    hide Perform;
    r := Step(db, ChangeOrder(oid, c));
  }

  /** The buyer fills in the form, and the transfer's proof arrives. */
  const ToReview := [ChangeOrder(0, DoSetBuyer(Some(Buyer(true, true)), 0)), ChangeOrder(0, DoPrepareReceipt), ChangeOrder(0, DoMarkProofReady(0))]

  lemma {:induction false} ProofArrives(v: Locked) returns (a: Locked, b: Locked, c: Locked)
    requires v.order.status == Reserved && v.order.paymentMethod == BankTransfer && v.order.payment.None?
    ensures Perform(v, 0, DoSetBuyer(Some(Buyer(true, true)), 0)) == Ok(a)
    ensures Perform(a, 0, DoPrepareReceipt) == Ok(b)
    ensures Perform(b, 0, DoMarkProofReady(0)) == Ok(c) && c.order.status == PurchaseValidation
  {
    a := SetBuyer(v, Some(Buyer(true, true)), 0).value;
    b := PrepareReceipt(a).value;
    c := MarkProofReady(b, 0).value;
  }

  lemma {:induction false} SampleUnderReview(threshold: nat) returns (db: Db)
    ensures db == Run(EmptyShop(threshold), [AddSample(), SellSample(BankTransfer)] + ToReview) && Valid(db)
    ensures |db.orders| == 1 && db.orders[0].status == PurchaseValidation
  {
    hide Valid, Perform, Step, Run;
    var sold := SampleSold(threshold, BankTransfer);
    var v := LockedAt(sold, 0);
    assert v.order.status == Reserved && v.order.paymentMethod == BankTransfer && v.order.payment.None?;
    var a, b, c := ProofArrives(v);
    var x := CommandStep(sold, 0, DoSetBuyer(Some(Buyer(true, true)), 0), a);
    var y := CommandStep(x, 0, DoPrepareReceipt, b);
    db := CommandStep(y, 0, DoMarkProofReady(0), c);
    ThreeSteps(sold, ToReview[0], ToReview[1], ToReview[2]);
    RunJoins(EmptyShop(threshold), [AddSample(), SellSample(BankTransfer)], ToReview);
    RunValid(sold, ToReview);
  }

  /** The seller cancels and restores, rejects the proof, and restores again. */
  const Detour := [ChangeOrder(0, DoCancel(0)), ChangeOrder(0, DoRestore(0, 0)), ChangeOrder(0, DoReviewProof(false, 0))]

  lemma {:induction false} DetourReturns(db: Db)
    requires Valid(db) && |db.orders| == 1 && db.orders[0].status == PurchaseValidation
    ensures var r := Run(db, Detour);
            && |r.orders| == 1 && r.orders[0].status == Cancelled
            && var again := Step(r, ChangeOrder(0, DoRestore(0, 0)));
               |again.orders| == 1 && IsActive(again.orders[0].status)
  {
    hide Valid, Ready, Step, Run, IsActive, Cancel, Restore, ReviewProof;
    ReadyAt(db, 0);
    var a, b, c, d := RejectedAndRestored(LockedAt(db, 0), 0, 0, 0);
    var x := CommandStep(db, 0, DoCancel(0), a);
    var y := CommandStep(x, 0, DoRestore(0, 0), b);
    var r := CommandStep(y, 0, DoReviewProof(false, 0), c);
    var again := CommandStep(r, 0, DoRestore(0, 0), d);
    ThreeSteps(db, ChangeOrder(0, DoCancel(0)), ChangeOrder(0, DoRestore(0, 0)), ChangeOrder(0, DoReviewProof(false, 0)));
    assert r == Run(db, Detour);
    OrderAt(r, c);
    OrderAt(again, d);
  }

  lemma {:induction false} OrderAt(db: Db, v: Locked)
    requires |db.orders| == 1 && LockedAt(db, 0) == v
    ensures db.orders[0] == v.order
  {
  }

  /** From a new shop: an order cancelled by the rejection of its proof comes back all the same. */
  lemma {:induction false} RejectedComesBack(threshold: nat)
    ensures var r := Run(EmptyShop(threshold), [AddSample(), SellSample(BankTransfer)] + ToReview + Detour);
            && |r.orders| == 1 && r.orders[0].status == Cancelled
            && var again := Step(r, ChangeOrder(0, DoRestore(0, 0)));
               |again.orders| == 1 && IsActive(again.orders[0].status)
  {
    hide Valid, Step, Run;
    var db := SampleUnderReview(threshold);
    DetourReturns(db);
    RunJoins(EmptyShop(threshold), [AddSample(), SellSample(BankTransfer)] + ToReview, Detour);
  }
}
