/**
 * What each order command asks for and what it writes, spelled on the fields of the order: every
 * field that is not named stays as it is.
 */
module Effects {
  import opened Prelude
  import opened Stock
  import opened Orders
  import opened Shop
  import opened Invariant
  import opened Preserve
  import opened Commands
  import opened RoundTrip
  import opened Snapshots
  import opened Acceptance
  import opened Rejection

  /** The payment a command finds, or the one it makes. */
  function FoundPayment(o: Order, provider: Provider): Payment {
    match o.payment
    case Some(p) => p
    case None => Payment(PaymentPending, o.total, 0, provider, false, false, None)
  }

  function Entered(o: Order, kind: EventKind, to: Status): seq<TimelineEvent> {
    o.timeline + [TimelineEvent(kind, Some(o.status), Some(to))]
  }

  function Logged(o: Order, kind: EventKind): seq<TimelineEvent> {
    o.timeline + [TimelineEvent(kind, None, None)]
  }

  predicate InCart(s: Status) {
    s == Reserved || s == PurchaseInProgress
  }

  // ----- Which command is which

  lemma {:induction false} BuyerCommandsAre(v: Locked, oid: nat, now: Time, connected: bool, up: bool, details: Option<Buyer>)
    ensures Perform(v, oid, DoPublishLink(now)) == PublishLink(v, now)
    ensures Perform(v, oid, DoSetBuyer(details, now)) == SetBuyer(v, details, now)
    ensures Perform(v, oid, DoUpdateBuyer(details)) == UpdateBuyer(v, details)
    ensures Perform(v, oid, DoStartCheckout(connected, up, now)) == StartCheckout(v, connected, up, now)
    ensures Perform(v, oid, DoPrepareReceipt) == PrepareReceipt(v)
    ensures Perform(v, oid, DoMarkProofReady(now)) == MarkProofReady(v, now)
    ensures Perform(v, oid, DoResendLink) == ResendLink(v)
    ensures Perform(v, oid, DoSendOffer) == SendOffer(v)
  {
    hide PublishLink, SetBuyer, UpdateBuyer, StartCheckout, PrepareReceipt, MarkProofReady, ResendLink, SendOffer;
  }

  lemma {:induction false} SellerCommandsAre(v: Locked, oid: nat, now: Time, when: Time, flag: bool, up: bool, amount: Option<int>)
    ensures Perform(v, oid, DoReviewProof(flag, now)) == ReviewProof(v, oid, flag, now)
    ensures Perform(v, oid, DoConfirmManual(amount, when, now)) == ConfirmManual(v, oid, amount, when, now)
    ensures Perform(v, oid, DoCancel(now)) == Cancel(v, now)
    ensures Perform(v, oid, DoRestore(now, when)) == Restore(v, now, when)
    ensures Perform(v, oid, DoRefund(flag, up, now)) == Refund(v, oid, flag, up, now)
  {
    hide ReviewProof, ConfirmManual, Cancel, Restore, Refund;
  }

  lemma {:induction false} SettleIs(v: Locked, oid: nat, s: Snapshot, event: nat, now: Time)
    ensures Perform(v, oid, DoSettle(s, event, now)) == Settle(v, oid, s, event, now)
  {
    hide Settle;
  }

  lemma {:induction false} ExpiryIs(v: Locked, oid: nat, now: Time)
    ensures Perform(v, oid, DoExpire(now)) == Expire(v, now)
  {
    hide Expire;
  }

  // ----- Before the payment

  lemma {:induction false} PublishEffect(v: Locked, oid: nat, now: Time)
    ensures Perform(v, oid, DoPublishLink(now)).Ok? <==> InCart(v.order.status) || v.order.status == PurchaseValidation
    ensures Perform(v, oid, DoPublishLink(now)).Ok? ==>
              Perform(v, oid, DoPublishLink(now)).value ==
              if v.order.publishedAt.Some? then v
              else v.(order := v.order.(publishedAt := Some(now), timeline := Logged(v.order, LinkPublished)))
  {
    BuyerCommandsAre(v, oid, now, true, true, None);
    hide Perform;
  }

  /** Whether a buyer's form is complete: shipped and transferred orders need the delivery details. */
  predicate FormComplete(o: Order, details: Option<Buyer>) {
    details.Some? && (o.deliveryMode == Shipping || o.paymentMethod == BankTransfer ==> details.value.deliveryReady)
  }

  lemma {:induction false} SetBuyerEffect(v: Locked, oid: nat, details: Option<Buyer>, now: Time)
    ensures Perform(v, oid, DoSetBuyer(details, now)).Ok? <==> InCart(v.order.status) && FormComplete(v.order, details)
    ensures Perform(v, oid, DoSetBuyer(details, now)).Ok? ==>
              Perform(v, oid, DoSetBuyer(details, now)).value ==
              v.(order :=
                if v.order.status == Reserved
                then v.order.(buyer := details, status := PurchaseInProgress, pausedAt := None,
                              timeline := Entered(v.order, BuyerCompleted, PurchaseInProgress))
                else v.order.(buyer := details, timeline := Logged(v.order, BuyerUpdated)))
  {
    BuyerCommandsAre(v, oid, now, true, true, details);
    hide Perform;
  }

  lemma {:induction false} UpdateBuyerEffect(v: Locked, oid: nat, details: Option<Buyer>)
    ensures Perform(v, oid, DoUpdateBuyer(details)).Ok? <==>
            && (InCart(v.order.status) || v.order.status == PurchaseValidation || v.order.status == Paid)
            && FormComplete(v.order, details)
    ensures Perform(v, oid, DoUpdateBuyer(details)).Ok? ==>
              Perform(v, oid, DoUpdateBuyer(details)).value == v.(order := v.order.(buyer := details, timeline := Logged(v.order, BuyerUpdated)))
  {
    BuyerCommandsAre(v, oid, 0, true, true, details);
    hide Perform;
  }

  lemma {:induction false} CheckoutEffect(v: Locked, oid: nat, connected: bool, providerUp: bool, now: Time)
    ensures Perform(v, oid, DoStartCheckout(connected, providerUp, now)).Ok? <==>
            && v.order.paymentMethod == MercadoPago && InCart(v.order.status)
            && v.order.buyer.Some? && v.order.buyer.value.hasEmail && connected
            && (providerUp || (v.order.payment.Some? && v.order.payment.value.hasPreference))
    ensures Perform(v, oid, DoStartCheckout(connected, providerUp, now)).Ok? ==>
              var payment := Some(FoundPayment(v.order, MercadoPagoProvider).(hasPreference := true));
              Perform(v, oid, DoStartCheckout(connected, providerUp, now)).value ==
              v.(order :=
                if v.order.status == Reserved
                then v.order.(payment := payment, status := PurchaseInProgress, pausedAt := None,
                              timeline := Entered(v.order, CheckoutStarted, PurchaseInProgress))
                else v.order.(payment := payment, timeline := Logged(v.order, CheckoutStarted)))
  {
    BuyerCommandsAre(v, oid, now, connected, providerUp, None);
    hide Perform;
  }

  lemma {:induction false} ReceiptEffect(v: Locked, oid: nat)
    ensures Perform(v, oid, DoPrepareReceipt).Ok? <==>
            && v.order.paymentMethod == BankTransfer && InCart(v.order.status)
            && v.order.buyer.Some? && v.order.buyer.value.deliveryReady
            && (v.order.payment.None? || v.order.payment.value.proof.None? || v.order.payment.value.proof == Some(ProofPending))
    ensures Perform(v, oid, DoPrepareReceipt).Ok? ==>
              Perform(v, oid, DoPrepareReceipt).value ==
              v.(order := v.order.(payment := Some(FoundPayment(v.order, NoProvider).(proof := Some(ProofPending)))))
  {
    BuyerCommandsAre(v, oid, 0, true, true, None);
    hide Perform;
  }

  /** A proof that has arrived puts the order under review and pauses its expiry; its second arrival changes nothing. */
  lemma {:induction false} ProofReadyEffect(v: Locked, oid: nat, now: Time)
    ensures Perform(v, oid, DoMarkProofReady(now)).Ok? <==>
            && v.order.payment.Some? && v.order.payment.value.proof.Some?
            && (v.order.payment.value.proof == Some(ProofReady) || InCart(v.order.status))
    ensures Perform(v, oid, DoMarkProofReady(now)).Ok? ==>
              Perform(v, oid, DoMarkProofReady(now)).value ==
              if v.order.payment.value.proof == Some(ProofReady) then v
              else v.(order := v.order.(
                        payment := Some(v.order.payment.value.(proof := Some(ProofReady), status := PaymentValidation)),
                        status := PurchaseValidation, pausedAt := Some(now),
                        timeline := Entered(v.order, ProofUploaded, PurchaseValidation)))
  {
    BuyerCommandsAre(v, oid, now, true, true, None);
    hide Perform;
  }

  lemma {:induction false} ResendEffect(v: Locked, oid: nat)
    ensures Perform(v, oid, DoResendLink).Ok? <==>
            && (InCart(v.order.status) || v.order.status == PurchaseValidation)
            && v.order.buyer.Some? && v.order.buyer.value.hasEmail
    ensures Perform(v, oid, DoResendLink).Ok? ==> Perform(v, oid, DoResendLink).value == v.(order := v.order.(timeline := Logged(v.order, LinkResent)))
  {
    BuyerCommandsAre(v, oid, 0, true, true, None);
    hide Perform;
  }

  lemma {:induction false} OfferEffect(v: Locked, oid: nat)
    ensures Perform(v, oid, DoSendOffer).Ok? <==> InCart(v.order.status) || v.order.status == PurchaseValidation
    ensures Perform(v, oid, DoSendOffer).Ok? ==>
              var ready := v.order.buyer.Some? && v.order.buyer.value.deliveryReady;
              Perform(v, oid, DoSendOffer).value == v.(order := v.order.(buyer := Some(Buyer(true, ready)), timeline := Logged(v.order, OfferSent)))
  {
    BuyerCommandsAre(v, oid, 0, true, true, None);
    hide Perform;
  }

  // ----- Giving the stock back

  /** Every reservation is released at the same moment and otherwise as it was. */
  ghost predicate ReleasedAt(was: seq<Reservation>, now: seq<Reservation>, at: Time) {
    && |now| == |was|
    && forall i {:trigger now[i]} :: 0 <= i < |now| ==> now[i] == was[i].(releasedAt := Some(at))
  }

  lemma {:induction false} FreedAt(o: Order, at: Time)
    requires ReservationsOk(o, Open)
    ensures ReleasedAt(o.reservations, FreedAll(o.reservations, at), at)
  {
  }

  lemma {:induction false} ReadyOpen(v: Locked, oid: nat)
    requires Ready(v, oid) && PhaseFor(v.order.status) == Open
    ensures ReservationsOk(v.order, Open)
  {
    hide Sound;
  }

  /** A seller's cancellation: stock back, a payment still pending or in validation cancelled. */
  lemma {:induction false} CancelEffect(v: Locked, oid: nat, now: Time) returns (w: Locked)
    requires Ready(v, oid) && IsActive(v.order.status)
    ensures Perform(v, oid, DoCancel(now)) == Ok(w) && Moves(v.t, w.t, Free, v.order.lines) && w.issues == v.issues
    ensures ReleasedAt(v.order.reservations, w.order.reservations, now)
    ensures var p := v.order.payment;
            w.order == v.order.(
              status := Cancelled, cancelledAt := Some(now), reservations := w.order.reservations,
              payment := if p.Some? && (p.value.status == PaymentPending || p.value.status == PaymentValidation)
                         then Some(p.value.(status := PaymentCancelled)) else p,
              timeline := Entered(v.order, OrderCancelled, Cancelled))
  {
    SellerCommandsAre(v, oid, now, now, true, true, None);
    hide Perform;
    w := CancelIs(v, oid, now);
    CancelIssues(v, now);
    ReadyOpen(v, oid);
    FreedAt(v.order, now);
    hide Ready, Moves, ReservationsOk, Cancel;
  }

  /** Expiry, when due: stock back, and only a pending payment cancelled. */
  lemma {:induction false} ExpireEffect(v: Locked, oid: nat, now: Time) returns (w: Locked)
    requires Ready(v, oid)
    ensures Perform(v, oid, DoExpire(now)) == Ok(w) && w.issues == v.issues
    ensures !(InCart(v.order.status) && v.order.expiresAt <= now) ==> w == v
    ensures InCart(v.order.status) && v.order.expiresAt <= now ==>
              var p := v.order.payment;
              && Moves(v.t, w.t, Free, v.order.lines)
              && ReleasedAt(v.order.reservations, w.order.reservations, now)
              && w.order == v.order.(
                   status := Expired, expiredAt := Some(now), reservations := w.order.reservations,
                   payment := if p.Some? && p.value.status == PaymentPending then Some(p.value.(status := PaymentCancelled)) else p,
                   timeline := Entered(v.order, OrderExpired, Expired))
  {
    ExpiryIs(v, oid, now);
    hide Perform;
    if InCart(v.order.status) && v.order.expiresAt <= now {
      ReadyOpen(v, oid);
      FreedAt(v.order, now);
      var m := ReleaseStep(v, oid, now);
      ReleasedRows(v, now, m);
      hide Ready, Moves, ReservationsOk, ReleaseReservations, BodyOk, StockStep;
      w := Expire(v, now).value;
    } else {
      w := v;
    }
  }

  /** Closing the old order of a reissue: stock back, payment cancelled, a ready proof rejected. */
  lemma {:induction false} SupersedeEffect(v: Locked, oid: nat, now: Time) returns (w: Locked)
    requires Ready(v, oid) && v.order.paymentMethod == BankTransfer && v.order.status == PurchaseValidation
    ensures Supersede(v, now) == Ok(w) && Moves(v.t, w.t, Free, v.order.lines) && v.order.payment.Some?
    ensures ReleasedAt(v.order.reservations, w.order.reservations, now)
    ensures var p := v.order.payment.value;
            w.order == v.order.(
              status := Cancelled, cancelledAt := Some(now), reservations := w.order.reservations,
              payment := Some(p.(proof := Some(ProofRejected),
                                 status := if p.status == PaymentPending || p.status == PaymentValidation then PaymentCancelled else p.status)),
              timeline := Entered(v.order, OrderReissued, Cancelled))
  {
    ReadyHeader(v, oid);
    UnderReview(v.order);
    ReadyOpen(v, oid);
    FreedAt(v.order, now);
    var m := ReleaseStep(v, oid, now);
    ReleasedRows(v, now, m);
    hide Ready, Moves, ReservationsOk, ReleaseReservations, BodyOk, StockStep, HeaderOk;
    w := Supersede(v, now).value;
  }

  /** A restore: the payment a cancellation voided comes back, in validation under review with its proof and pending otherwise. */
  lemma {:induction false} RestoreEffect(v: Locked, oid: nat, now: Time, ttl: Time, target: Status) returns (w: Locked)
    requires Ready(v, oid) && v.order.status == Cancelled && RestoreTarget(v.order) == Ok(target) && AllowsOrder(v.t, Hold, v.order.lines)
    ensures Perform(v, oid, DoRestore(now, ttl)) == Ok(w) && Moves(v.t, w.t, Hold, v.order.lines)
    ensures |w.order.reservations| == |v.order.reservations|
    ensures forall i {:trigger w.order.reservations[i]} :: 0 <= i < |v.order.reservations| ==>
              w.order.reservations[i] == v.order.reservations[i].(releasedAt := None, expiresAt := now + ttl)
    ensures var p := v.order.payment;
            var review := target == PurchaseValidation;
            w.order == v.order.(
              status := target, cancelledAt := None, expiresAt := now + ttl, reservations := w.order.reservations,
              pausedAt := if review then Some(now) else None,
              payment := if p.Some? && p.value.status == PaymentCancelled
                         then Some(p.value.(status := if review && p.value.proof == Some(ProofReady) then PaymentValidation else PaymentPending))
                         else p,
              timeline := Entered(v.order, OrderRestored, target))
  {
    SellerCommandsAre(v, oid, now, ttl, true, true, None);
    hide Perform;
    ReadyReleased(v, oid);
    TargetIsActive(v.order);
    RehelAt(v.order, now + ttl);
    hide *;
    RestoreWhen(v, oid, now, ttl);
    RestoreNeeds(v, now, ttl);
    var m := Reopened(v, oid, now, ttl);
    RestoredRows(v.order, m.order, target, now, ttl);
    w := m.(order := RestoredOrder(m.order, target, now, ttl));
  }

  lemma {:induction false} RestoredRows(o: Order, m: Order, target: Status, now: Time, ttl: Time)
    requires m == o.(reservations := m.reservations) && o.status == Cancelled && IsActive(target)
    ensures RestoredOrder(m, target, now, ttl) == o.(
              status := target, cancelledAt := None, expiresAt := now + ttl, reservations := m.reservations,
              pausedAt := if target == PurchaseValidation then Some(now) else None,
              payment := if o.payment.Some? && o.payment.value.status == PaymentCancelled
                         then Some(o.payment.value.(status :=
                                if target == PurchaseValidation && o.payment.value.proof == Some(ProofReady) then PaymentValidation else PaymentPending))
                         else o.payment,
              timeline := Entered(o, OrderRestored, target))
  {
  }

  /** Reopening an order that still holds something only moves its expiry; one that never held anything holds its lines. */
  lemma {:induction false} ReopenEffect(v: Locked, expiresAt: Time)
    ensures var rs := v.order.reservations;
            var r := ReopenReservations(v, expiresAt);
            && ((exists i :: 0 <= i < |rs| && PhaseOf(rs[i]) == Open) ==>
                  && r.Ok? && r.value.t == v.t && |r.value.order.reservations| == |rs|
                  && forall i {:trigger r.value.order.reservations[i]} :: 0 <= i < |rs| ==>
                       r.value.order.reservations[i] == if PhaseOf(rs[i]) == Open then rs[i].(expiresAt := expiresAt) else rs[i])
            && (rs == [] && r.Ok? ==>
                  && |r.value.order.reservations| == |v.order.lines|
                  && forall i {:trigger r.value.order.reservations[i]} :: 0 <= i < |v.order.lines| ==>
                       r.value.order.reservations[i]
                       == Reservation(v.order.lines[i].product, v.order.lines[i].quantity, expiresAt, None, None, None))
  {
    hide Transact, RequestsOf;
  }

  lemma {:induction false} ReadyReleased(v: Locked, oid: nat)
    requires Ready(v, oid) && PhaseFor(v.order.status) == Released
    ensures ReservationsOk(v.order, Released)
  {
    hide Sound;
  }

  lemma {:induction false} RehelAt(o: Order, expiresAt: Time)
    requires ReservationsOk(o, Released)
    ensures var back := ReheldAll(o.reservations, expiresAt);
            && |back| == |o.reservations|
            && forall i {:trigger back[i]} :: 0 <= i < |back| ==> back[i] == o.reservations[i].(releasedAt := None, expiresAt := expiresAt)
  {
  }

  /** The cancellation that counts is the newest that the seller made. */
  lemma {:induction false} SellerCancellation(timeline: seq<TimelineEvent>, i: nat)
    requires i < |timeline| && timeline[i].kind == OrderCancelled
    requires forall k :: i < k < |timeline| ==> timeline[k].kind != OrderCancelled
    ensures LastCancellation(timeline) == Some(timeline[i])
  {
    if i < |timeline| - 1 {
      SellerCancellation(timeline[..|timeline| - 1], i);
    }
  }

  /** Which status a restore returns to: the one its newest seller cancellation left, if a review still has its ready proof. */
  lemma {:induction false} TargetMeaning(o: Order)
    ensures var e := LastCancellation(o.timeline);
            RestoreTarget(o) ==
            if e.None? || e.value.from.None? || !(InCart(e.value.from.value) || e.value.from.value == PurchaseValidation) then Err(TransitionNotAllowed)
            else if InCart(e.value.from.value) then Ok(e.value.from.value)
            else if o.payment.Some? && o.payment.value.proof == Some(ProofReady) then Ok(PurchaseValidation)
            else if o.buyer.Some? then Ok(PurchaseInProgress)
            else Ok(Reserved)
  {
    hide LastCancellation;
  }

  // ----- Selling

  /** Every reservation is consumed at the same moment. */
  ghost predicate ConsumedAt(was: seq<Reservation>, now: seq<Reservation>, at: Time) {
    && |now| == |was|
    && forall i {:trigger now[i]} :: 0 <= i < |now| ==>
         now[i] == was[i].(consumedAt := Some(at), movement := now[i].movement) && now[i].movement.Some?
  }

  lemma {:induction false} ConsumedRows(v: Locked, oid: nat, now: Time, m: Locked)
    requires Ready(v, oid) && PhaseFor(v.order.status) == Open && ConsumeReservations(v, oid, now) == Ok((m, true))
    ensures ConsumedAt(v.order.reservations, m.order.reservations, now)
    ensures m.order == v.order.(reservations := m.order.reservations) && m.issues == v.issues
  {
    ReadyOpen(v, oid);
    ReadyCart(v, oid);
    hide Ready, LinesOk, Transact, RequestsOf, ReservationsOk, SaleIds, SaleLedger, SoldAll, ConsumedAt;
    SaleLedgerMeaning(v.t, v.order, oid);
    ConsumedIs(v, oid, now, m);
    SoldAt(v.order, |v.t.movements|, now);
  }

  lemma {:induction false} ConsumedIs(v: Locked, oid: nat, now: Time, m: Locked)
    requires ConsumeReservations(v, oid, now) == Ok((m, true))
    ensures m.order == v.order.(reservations := SoldAll(v.order.reservations, now, |v.t.movements|, SaleIds(v.order))) && m.issues == v.issues
  {
    hide Transact, RequestsOf, SoldAll, Ascending, Requested, Has;
  }

  lemma {:induction false} SoldAt(o: Order, base: nat, now: Time)
    requires ReservationsOk(o, Open) && forall i :: 0 <= i < |o.reservations| ==> o.reservations[i].product in SaleIds(o)
    ensures ConsumedAt(o.reservations, SoldAll(o.reservations, now, base, SaleIds(o)), now)
  {
    hide SaleIds;
  }

  lemma {:induction false} ReadyCart(v: Locked, oid: nat)
    requires Ready(v, oid)
    ensures LinesOk(v.order, |v.t.products|)
  {
    hide Sound;
  }

  /** An approval of an active order: sold, paid at the time given, its payment approved. */
  lemma {:induction false} ApproveEffect(v: Locked, oid: nat, payment: Payment, paidAt: Time, event: Option<nat>, now: Time) returns (w: Locked)
    requires Ready(v, oid) && IsActive(v.order.status)
    requires payment.amount == v.order.total && 0 <= payment.refundedAmount <= payment.amount
    ensures Approve(v.(order := WithPayment(v.order, payment)), oid, payment, paidAt, event, now) == Ok((w, true))
    ensures Moves(v.t, w.t, Sell(oid), v.order.lines) && w.issues == v.issues
    ensures ConsumedAt(v.order.reservations, w.order.reservations, now)
    ensures w.order == v.order.(
              status := Paid, paidAt := Some(paidAt), reservations := w.order.reservations,
              payment := Some(payment.(status := PaymentApproved)),
              timeline := Entered(v.order, PaymentConfirmed, Paid))
  {
    ActiveOpen(v.order.status);
    var m := ConsumeStep(v, oid, now);
    ConsumedRows(v, oid, now, m);
    PaidRows(v.order, m.order, payment, paidAt, now);
    hide *;
    ApproveIs(v, oid, payment, paidAt, event, now, m);
    ApproveIgnoresRow(v, oid, payment, paidAt, event, now);
    w := m.(order := Moved(WithPayment(m.order, payment.(status := PaymentApproved)), Paid, PaymentConfirmed, now).(paidAt := Some(paidAt)));
  }

  lemma {:induction false} PaidRows(o: Order, m: Order, payment: Payment, paidAt: Time, now: Time)
    requires m == o.(reservations := m.reservations) && IsActive(o.status)
    ensures Moved(WithPayment(m, payment.(status := PaymentApproved)), Paid, PaymentConfirmed, now).(paidAt := Some(paidAt))
            == o.(status := Paid, paidAt := Some(paidAt), reservations := m.reservations,
                  payment := Some(payment.(status := PaymentApproved)), timeline := Entered(o, PaymentConfirmed, Paid))
  {
  }

  lemma {:induction false} ActiveOpen(s: Status)
    requires IsActive(s)
    ensures PhaseFor(s) == Open
  {
  }

  /** A proof under review that is approved: proof and payment approved, the order sold and paid now. */
  lemma {:induction false} AcceptEffect(v: Locked, oid: nat, now: Time) returns (w: Locked)
    requires Ready(v, oid) && v.order.status == PurchaseValidation
    ensures Perform(v, oid, DoReviewProof(true, now)) == Ok(w) && v.order.payment.Some?
    ensures Moves(v.t, w.t, Sell(oid), v.order.lines) && ConsumedAt(v.order.reservations, w.order.reservations, now) && w.issues == v.issues
    ensures w.order == v.order.(
              status := Paid, paidAt := Some(now), reservations := w.order.reservations,
              payment := Some(v.order.payment.value.(proof := Some(ProofApproved), status := PaymentApproved)),
              timeline := Entered(v.order, PaymentConfirmed, Paid))
  {
    SellerCommandsAre(v, oid, now, now, true, true, None);
    hide Perform;
    ReadyHeader(v, oid);
    UnderReview(v.order);
    hide Ready, HeaderOk, Moves, ConsumedAt, Approve;
    w := ApproveEffect(v, oid, v.order.payment.value.(proof := Some(ProofApproved)), now, None, now);
  }

  /** A proof that is rejected: proof and payment rejected, the order cancelled, its stock back. */
  lemma {:induction false} RejectEffect(v: Locked, oid: nat, now: Time) returns (w: Locked)
    requires Ready(v, oid) && v.order.status == PurchaseValidation
    ensures Perform(v, oid, DoReviewProof(false, now)) == Ok(w) && v.order.payment.Some?
    ensures Moves(v.t, w.t, Free, v.order.lines) && ReleasedAt(v.order.reservations, w.order.reservations, now)
    ensures w.order == v.order.(
              status := Cancelled, cancelledAt := Some(now), reservations := w.order.reservations,
              payment := Some(v.order.payment.value.(proof := Some(ProofRejected), status := PaymentRejected)),
              timeline := Entered(v.order, ProofTurnedDown, Cancelled))
  {
    SellerCommandsAre(v, oid, now, now, false, true, None);
    hide Perform;
    ReadyOpen(v, oid);
    FreedAt(v.order, now);
    hide Ready, Moves, ReservationsOk, ReviewProof;
    w := RejectIs(v, oid, now);
  }

  /** A manual confirmation that is accepted for an active order: sold, paid when the seller says, its payment row made if there was none. */
  lemma {:induction false} ConfirmEffect(v: Locked, oid: nat, paidAt: Time, now: Time) returns (w: Locked)
    requires Ready(v, oid) && IsActive(v.order.status) && v.order.paymentMethod != MercadoPago
    requires !(v.order.paymentMethod == BankTransfer && v.order.status == PurchaseValidation)
    ensures Perform(v, oid, DoConfirmManual(Some(v.order.total), paidAt, now)) == Ok(w)
    ensures Moves(v.t, w.t, Sell(oid), v.order.lines) && ConsumedAt(v.order.reservations, w.order.reservations, now) && w.issues == v.issues
    ensures w.order == v.order.(
              status := Paid, paidAt := Some(paidAt), reservations := w.order.reservations,
              payment := Some(FoundPayment(v.order, NoProvider).(status := PaymentApproved)),
              timeline := Entered(v.order, PaymentConfirmed, Paid))
  {
    SellerCommandsAre(v, oid, now, paidAt, true, true, Some(v.order.total));
    hide Perform;
    ReadyHeader(v, oid);
    NewPaymentRow(v.order);
    hide Ready, HeaderOk, Moves, ConsumedAt, Approve;
    w := ApproveEffect(v, oid, PaymentOf(v.order, NoProvider), paidAt, None, now);
  }

  // ----- Issues

  /** An issue of that kind, and of that event or else of that order, that is not resolved. */
  ghost predicate Stands(issues: seq<Issue>, kind: IssueKind, order: nat, event: Option<nat>) {
    exists i :: 0 <= i < |issues| && issues[i].kind == kind && issues[i].status != IssueResolved && issues[i].event == event
                && (event.None? ==> issues[i].order == Some(order))
  }

  /** Which issue a report is about: the one of its event, or else an unresolved one of its order without an event. */
  predicate Matches(i: Issue, kind: IssueKind, order: nat, event: Option<nat>) {
    && i.kind == kind
    && match event
       case Some(e) => i.event == Some(e)
       case None => i.order == Some(order) && i.event.None? && i.status != IssueResolved
  }

  /** A report reopens the newest matching issue and touches no other, or adds one if none matches. */
  lemma {:induction false} ReportNewest(issues: seq<Issue>, kind: IssueKind, order: nat, event: Option<nat>, i: nat)
    requires i < |issues| && Matches(issues[i], kind, order, event)
    requires forall k :: i < k < |issues| ==> !Matches(issues[k], kind, order, event)
    ensures var r := Report(issues, kind, Some(order), event);
            && r.0 == issues[i := issues[i].(status := if issues[i].status == IssueResolved then IssueOpen else issues[i].status)]
            && (r.1 <==> issues[i].status == IssueResolved)
  {
    FoundNewest(issues, kind, order, event, i);
  }

  lemma {:induction false} FoundNewest(issues: seq<Issue>, kind: IssueKind, order: nat, event: Option<nat>, i: nat)
    requires i < |issues| && Matches(issues[i], kind, order, event)
    requires forall k :: i < k < |issues| ==> !Matches(issues[k], kind, order, event)
    ensures FindIssue(issues, kind, Some(order), event) == Some(i)
  {
    var last := |issues| - 1;
    if i < last {
      assert !Matches(issues[last], kind, order, event);
      FoundNewest(issues[..last], kind, order, event, i);
    }
  }

  lemma {:induction false} ReportAdds(issues: seq<Issue>, kind: IssueKind, order: nat, event: Option<nat>)
    requires forall k :: 0 <= k < |issues| ==> !Matches(issues[k], kind, order, event)
    ensures Report(issues, kind, Some(order), event) == (issues + [Issue(kind, Some(order), event, IssueOpen)], true)
  {
    forall k | 0 <= k < |issues| ensures !SameIssue(issues[k], kind, Some(order), event) {
      assert !Matches(issues[k], kind, order, event);
    }
  }

  lemma {:induction false} ReportStands(issues: seq<Issue>, kind: IssueKind, order: nat, event: Option<nat>)
    ensures Stands(Report(issues, kind, Some(order), event).0, kind, order, event)
    ensures var r := Report(issues, kind, Some(order), event).0;
            && |issues| <= |r| <= |issues| + 1
            && forall i {:trigger r[i]} :: 0 <= i < |issues| ==> r[i] == issues[i] || r[i] == issues[i].(status := IssueOpen)
  {
    var r := Report(issues, kind, Some(order), event).0;
    match FindIssue(issues, kind, Some(order), event) {
      case None => assert r[|issues|] == Issue(kind, Some(order), event, IssueOpen);
      case Some(i) => assert r[i].kind == kind && r[i].status != IssueResolved;
    }
  }

  /** Reporting an issue: it stands, the order is flagged, the payment waits for reconciliation; status, stock and cart stay. */
  lemma {:induction false} MarkEffect(v: Locked, oid: nat, kind: IssueKind, event: Option<nat>)
    ensures var w := Mark(v, oid, kind, event);
            && Stands(w.issues, kind, oid, event) && w.t == v.t
            && w.order == v.order.(
                 reconciliation := ReconciliationRequired,
                 payment := if v.order.payment.Some?
                               && !(kind == WebhookPending
                                    && (v.order.payment.value.status == PaymentApproved || v.order.payment.value.status == PaymentRefunded))
                            then Some(v.order.payment.value.(status := PaymentReconciliation)) else v.order.payment,
                 timeline := w.order.timeline)
            && (w.order.timeline == v.order.timeline || w.order.timeline == Logged(v.order, ReconciliationOpened))
            && (v.order.reconciliation != ReconciliationRequired ==> w.order.timeline == Logged(v.order, ReconciliationOpened))
  {
    ReportStands(v.issues, kind, oid, event);
    hide Report, Stands;
  }

  lemma {:induction false} RetryEffect(v: Locked, oid: nat, issue: nat)
    ensures Perform(v, oid, DoRetryIssue(issue)).Ok? <==> issue < |v.issues| && v.issues[issue].order == Some(oid)
    ensures Perform(v, oid, DoRetryIssue(issue)).Err? ==> Perform(v, oid, DoRetryIssue(issue)) == Err(NotFound)
    ensures Perform(v, oid, DoRetryIssue(issue)).Ok? ==>
              Perform(v, oid, DoRetryIssue(issue)).value ==
              if v.issues[issue].status == IssueResolved then v
              else v.(order := v.order.(reconciliation := ReconciliationRetrying),
                      issues := v.issues[issue := v.issues[issue].(status := IssueRetrying)])
  {
  }

  // ----- The seller's refund

  /** A refund is possible for an approved payment of a paid order, with the provider's help if it took the money and its id is known; and again once refunded. */
  lemma {:induction false} RefundWhen(v: Locked, oid: nat, connected: bool, providerUp: bool, now: Time)
    ensures Perform(v, oid, DoRefund(connected, providerUp, now)).Ok? <==>
            || v.order.status == Refunded
            || (&& v.order.status == Paid && v.order.payment.Some? && v.order.payment.value.status == PaymentApproved
                && (v.order.payment.value.provider == MercadoPagoProvider && v.order.payment.value.hasProviderId ==> connected && providerUp))
  {
    SellerCommandsAre(v, oid, now, now, connected, providerUp, None);
    hide Perform;
    hide Mark;
  }

  /** It returns the whole amount, or reports that the provider's payment is unknown and changes no status. */
  lemma {:induction false} RefundEffect(v: Locked, oid: nat, connected: bool, providerUp: bool, now: Time)
    requires Ready(v, oid) && v.order.status == Paid && Perform(v, oid, DoRefund(connected, providerUp, now)).Ok?
    ensures v.order.payment.Some? && v.order.payment.value.amount == v.order.total
    ensures var w := Perform(v, oid, DoRefund(connected, providerUp, now)).value;
            var p := v.order.payment.value;
            && w.t == v.t && w.order.reservations == v.order.reservations
            && if p.provider == MercadoPagoProvider && !p.hasProviderId
               then w.order.status == Paid && w.order.payment == Some(p.(status := PaymentReconciliation)) && Stands(w.issues, UnknownPayment, oid, None)
               else && w.issues == v.issues
                    && w.order == v.order.(
                         status := Refunded, refundedAt := Some(now),
                         payment := Some(p.(status := PaymentRefunded, refundedAmount := v.order.total)),
                         timeline := Entered(v.order, PaymentReturned, Refunded))
  {
    SellerCommandsAre(v, oid, now, now, connected, providerUp, None);
    hide Perform;
    ReadyHeader(v, oid);
    PaidRow(v.order);
    PaymentRow(v.order);
    hide Ready, HeaderOk, Mark, Stands;
    MarkEffect(v, oid, UnknownPayment, None);
  }

  // ----- What a provider's snapshot does

  /** The issue a snapshot calls for, if any. */
  function Complaint(v: Locked, oid: nat, s: Snapshot): Option<IssueKind> {
    var amount := FoundPayment(v.order, MercadoPagoProvider).amount;
    if Row(v).provider == OtherProvider || s.reference != Some(oid) || s.amount != amount || !s.currencyOk then Some(PaymentMismatch)
    else if s.fee.Some? && s.fee.value != 0 then Some(FeeMismatch)
    else
      match s.status
      case SnapshotApproved => if v.order.status == Cancelled || v.order.status == Expired then Some(PaidWithoutStock) else None
      case SnapshotRejected => if v.order.status == Paid then Some(ProviderStatusIssue) else None
      case SnapshotCancelled => if v.order.status == Paid then Some(ProviderStatusIssue) else None
      case SnapshotPending => None
      case SnapshotRefunded => if v.order.status == Paid && IsFull(s, amount) then None else Some(PartialRefund)
      case SnapshotUnknown => Some(ProviderStatusIssue)
  }

  /** The payment row once a snapshot is believed. */
  function Informed(v: Locked, s: Snapshot): Payment {
    FoundPayment(v.order, MercadoPagoProvider).(provider := MercadoPagoProvider, hasProviderId := s.hasId)
  }

  /** The payment row a complaint leaves, before it is sent to reconciliation. */
  function Complained(v: Locked, oid: nat, s: Snapshot): Payment {
    var p := FoundPayment(v.order, MercadoPagoProvider);
    match Complaint(v, oid, s)
    case Some(PaymentMismatch) => if p.provider == OtherProvider then p else p.(provider := MercadoPagoProvider)
    case Some(FeeMismatch) => p.(provider := MercadoPagoProvider)
    case Some(PartialRefund) => Informed(v, s).(refundedAmount := if IsFull(s, p.amount) then p.amount else s.refunded.value)
    case _ => Informed(v, s)
  }

  predicate OpenIssue(issues: seq<Issue>, oid: nat) {
    exists i :: 0 <= i < |issues| && issues[i].order == Some(oid) && issues[i].status != IssueResolved
  }

  /** The last part of a settlement writes the flag and the timeline only, and resolves only issues about the pending webhook. */
  lemma {:induction false} FinishEffect(m: Locked, oid: nat, event: nat)
    ensures var w := ClearIfResolved(m.(issues := ResolvePending(m.issues, event)), oid);
            && w.t == m.t
            && w.order == m.order.(reconciliation := w.order.reconciliation, timeline := w.order.timeline)
            && (w.order.timeline == m.order.timeline || w.order.timeline == Logged(m.order, ReconciliationResolved))
            && |w.issues| == |m.issues|
            && (forall i {:trigger w.issues[i]} :: 0 <= i < |m.issues| ==>
                  w.issues[i] == if m.issues[i].event == Some(event) && m.issues[i].kind == WebhookPending
                                 then m.issues[i].(status := IssueResolved) else m.issues[i])
            && w.order.reconciliation == if OpenIssue(w.issues, oid) then m.order.reconciliation else ReconciliationOk
  {
  }

  lemma {:induction false} StandsAfter(m: seq<Issue>, w: seq<Issue>, kind: IssueKind, oid: nat, event: nat)
    requires Stands(m, kind, oid, Some(event)) && kind != WebhookPending && |w| == |m|
    requires forall i {:trigger w[i]} :: 0 <= i < |m| ==>
               w[i] == if m[i].event == Some(event) && m[i].kind == WebhookPending then m[i].(status := IssueResolved) else m[i]
    ensures Stands(w, kind, oid, Some(event))
  {
    var i :| 0 <= i < |m| && m[i].kind == kind && m[i].status != IssueResolved && m[i].event == Some(event);
    assert w[i] == m[i];
  }

  /** The row on which the snapshot's status is applied. */
  function Told(v: Locked, s: Snapshot): Locked {
    v.(order := WithPayment(v.order, Informed(v, s)))
  }

  lemma {:induction false} ToldIs(v: Locked, s: Snapshot)
    ensures var u := Opened(v); Told(v, s) == u.(order := WithPayment(u.order, Row(u).(hasProviderId := s.hasId)))
    ensures FoundPayment(v.order, MercadoPagoProvider) == Row(v)
  {
  }

  /** The rows before the settlement is finished, when there is a complaint. */
  lemma {:induction false} ComplaintRows(v: Locked, oid: nat, s: Snapshot, event: nat, now: Time) returns (m: Locked)
    requires Settle(v, oid, s, event, now).Ok? && Complaint(v, oid, s).Some?
    ensures Settle(v, oid, s, event, now).value == ClearIfResolved(m.(issues := ResolvePending(m.issues, event)), oid)
    ensures m == Mark(v.(order := WithPayment(v.order, Complained(v, oid, s))), oid, Complaint(v, oid, s).value, Some(event))
  {
    m := SettledFrom(v, oid, s, event, now);
    ToldIs(v, s);
    hide Mark, ClearIfResolved, ResolvePending, Settle, ApplyStatus;
    if Believed(v, oid, s) {
      StatusComplaint(v, oid, s, event, now);
    }
  }

  lemma {:induction false} StatusComplaint(v: Locked, oid: nat, s: Snapshot, event: nat, now: Time)
    requires Believed(v, oid, s) && Complaint(v, oid, s).Some? && ApplyStatus(Told(v, s), oid, s, event, now).Ok?
    ensures ApplyStatus(Told(v, s), oid, s, event, now).value
            == Mark(v.(order := WithPayment(v.order, Complained(v, oid, s))), oid, Complaint(v, oid, s).value, Some(event))
  {
    ToldIs(v, s);
    hide Mark, ReleaseReservations, ConsumeReservations, Transition;
  }

  /**
   * A snapshot that calls for an issue: that issue of its event stands, the payment waits for
   * reconciliation with what was learnt, and order status, stock and reservations stay.
   */
  lemma {:induction false} ComplaintEffect(v: Locked, oid: nat, s: Snapshot, event: nat, now: Time)
    requires Perform(v, oid, DoSettle(s, event, now)).Ok? && Complaint(v, oid, s).Some?
    ensures var w := Perform(v, oid, DoSettle(s, event, now)).value;
            && Stands(w.issues, Complaint(v, oid, s).value, oid, Some(event))
            && SameCore(v, w)
            && w.order.payment == Some(Complained(v, oid, s).(status := PaymentReconciliation))
  {
    SettleIs(v, oid, s, event, now);
    hide Perform;
    var m := ComplaintRows(v, oid, s, event, now);
    var u := v.(order := WithPayment(v.order, Complained(v, oid, s)));
    MarkEffect(u, oid, Complaint(v, oid, s).value, Some(event));
    FinishEffect(m, oid, event);
    NotPending(v, oid, s);
    var w := Settle(v, oid, s, event, now).value;
    hide Mark, ClearIfResolved, ResolvePending, Settle, Complained, Complaint, Stands;
    StandsAfter(m.issues, w.issues, Complaint(v, oid, s).value, oid, event);
  }

  lemma {:induction false} NotPending(v: Locked, oid: nat, s: Snapshot)
    ensures Complaint(v, oid, s) != Some(WebhookPending)
  {
  }

  /** A believed refund report: the exact amount recorded, and the order refunded exactly when it was paid and the report is full. */
  lemma {:induction false} RefundReported(v: Locked, oid: nat, s: Snapshot, event: nat, now: Time)
    requires Ready(v, oid) && Believed(v, oid, s) && s.status == SnapshotRefunded && Perform(v, oid, DoSettle(s, event, now)).Ok?
    ensures var w := Perform(v, oid, DoSettle(s, event, now)).value;
            var full := s.refunded.None? || s.refunded.value == 0 || s.refunded.value >= v.order.total;
            && w.order.payment.Some? && w.t == v.t && w.order.reservations == v.order.reservations
            && w.order.payment.value.refundedAmount == (if full then v.order.total else s.refunded.value)
            && (if v.order.status == Paid && full
                then w.order.status == Refunded && w.order.refundedAt == Some(now) && w.order.payment.value.status == PaymentRefunded
                else w.order.status == v.order.status && w.order.payment.value.status == PaymentReconciliation
                     && Stands(w.issues, PartialRefund, oid, Some(event)))
  {
    SettleIs(v, oid, s, event, now);
    hide Perform;
    ReadyHeader(v, oid);
    FoundAmount(v.order);
    ToldIs(v, s);
    hide Ready, HeaderOk;
    if v.order.status == Paid && IsFull(s, v.order.total) {
      FullRefundSettles(v, oid, s, event, now);
    } else {
      ComplaintOfRefund(v, oid, s);
      hide Settle, Stands, Believed;
      ComplaintEffect(v, oid, s, event, now);
    }
  }

  lemma {:induction false} FoundAmount(o: Order)
    requires HeaderOk(o)
    ensures FoundPayment(o, MercadoPagoProvider).amount == o.total
  {
    hide Chain;
  }

  lemma {:induction false} ComplaintOfRefund(v: Locked, oid: nat, s: Snapshot)
    requires Believed(v, oid, s) && s.status == SnapshotRefunded && FoundPayment(v.order, MercadoPagoProvider) == Row(v)
    requires Row(v).amount == v.order.total && !(v.order.status == Paid && IsFull(s, v.order.total))
    ensures Complaint(v, oid, s) == Some(PartialRefund)
    ensures Complained(v, oid, s).refundedAmount == if IsFull(s, v.order.total) then v.order.total else s.refunded.value
  {
  }

  lemma {:induction false} FullRefundSettles(v: Locked, oid: nat, s: Snapshot, event: nat, now: Time)
    requires Believed(v, oid, s) && s.status == SnapshotRefunded && v.order.status == Paid && Settle(v, oid, s, event, now).Ok?
    requires Row(v).amount == v.order.total && IsFull(s, v.order.total)
    ensures var w := Settle(v, oid, s, event, now).value;
            && w.t == v.t && w.order.reservations == v.order.reservations && w.order.status == Refunded && w.order.refundedAt == Some(now)
            && w.order.payment == Some(Informed(v, s).(status := PaymentRefunded, refundedAmount := v.order.total))
  {
    var m := SettledFrom(v, oid, s, event, now);
    ToldIs(v, s);
    FinishEffect(m, oid, event);
    hide ClearIfResolved, ResolvePending, Settle, Mark;
  }

  /** A believed approval of an active order: sold, paid when the provider says or now, the payment known and approved. */
  lemma {:induction false} ApprovalSettles(v: Locked, oid: nat, s: Snapshot, event: nat, now: Time)
    requires Ready(v, oid) && Believed(v, oid, s) && s.status == SnapshotApproved && IsActive(v.order.status)
    ensures Perform(v, oid, DoSettle(s, event, now)).Ok?
    ensures var w := Perform(v, oid, DoSettle(s, event, now)).value;
            && Moves(v.t, w.t, Sell(oid), v.order.lines) && ConsumedAt(v.order.reservations, w.order.reservations, now)
            && w.order == v.order.(
                 status := Paid, paidAt := Some(if s.approvedAt.Some? then s.approvedAt.value else now),
                 reservations := w.order.reservations, payment := Some(Informed(v, s).(status := PaymentApproved)),
                 timeline := w.order.timeline, reconciliation := w.order.reconciliation)
            && Entered(v.order, PaymentConfirmed, Paid) <= w.order.timeline
  {
    SettleIs(v, oid, s, event, now);
    hide Perform;
    ReadyHeader(v, oid);
    FoundAmount(v.order);
    FoundRefund(v.order);
    ToldIs(v, s);
    SettleWhen(v, oid, s, event, now);
    ActiveSettles(v, oid, s);
    var paidAt := if s.approvedAt.Some? then s.approvedAt.value else now;
    hide Ready, HeaderOk, Moves, ConsumedAt, Approve, Settle, Unsettled;
    var a := ApproveEffect(v, oid, Informed(v, s), paidAt, Some(event), now);
    var m := SettledFrom(v, oid, s, event, now);
    ApprovedStatus(v, oid, s, event, now, paidAt, a);
    assert m == a;
    FinishEffect(m, oid, event);
    hide ClearIfResolved, ResolvePending;
  }

  lemma {:induction false} FoundRefund(o: Order)
    requires HeaderOk(o)
    ensures 0 <= FoundPayment(o, MercadoPagoProvider).refundedAmount <= FoundPayment(o, MercadoPagoProvider).amount
  {
    hide Chain;
  }

  lemma {:induction false} ActiveSettles(v: Locked, oid: nat, s: Snapshot)
    requires s.status == SnapshotApproved && IsActive(v.order.status)
    ensures !Unsettled(v, s)
  {
  }

  lemma {:induction false} ApprovedStatus(v: Locked, oid: nat, s: Snapshot, event: nat, now: Time, paidAt: Time, a: Locked)
    requires Believed(v, oid, s) && s.status == SnapshotApproved && IsActive(v.order.status)
    requires paidAt == if s.approvedAt.Some? then s.approvedAt.value else now
    requires Approve(Told(v, s), oid, Informed(v, s), paidAt, Some(event), now) == Ok((a, true))
    ensures ApplySnapshot(Opened(v), oid, s, event, now) == Ok(a)
  {
    ToldIs(v, s);
    hide Approve, Mark;
  }

  /** A believed rejection or cancellation of an active order's payment: the payment so marked, the order cancelled, its stock back. */
  lemma {:induction false} RejectionSettles(v: Locked, oid: nat, s: Snapshot, event: nat, now: Time)
    requires Ready(v, oid) && Believed(v, oid, s) && IsActive(v.order.status)
    requires s.status == SnapshotRejected || s.status == SnapshotCancelled
    ensures Perform(v, oid, DoSettle(s, event, now)).Ok?
    ensures var w := Perform(v, oid, DoSettle(s, event, now)).value;
            var rejected := s.status == SnapshotRejected;
            && Moves(v.t, w.t, Free, v.order.lines) && ReleasedAt(v.order.reservations, w.order.reservations, now)
            && w.order == v.order.(
                 status := Cancelled, cancelledAt := Some(now), reservations := w.order.reservations,
                 payment := Some(Informed(v, s).(status := if rejected then PaymentRejected else PaymentCancelled)),
                 timeline := w.order.timeline, reconciliation := w.order.reconciliation)
            && Entered(v.order, if rejected then PaymentTurnedDown else PaymentWithdrawn, Cancelled) <= w.order.timeline
  {
    SettleIs(v, oid, s, event, now);
    hide Perform;
    var a := RejectedRows(v, oid, s, event, now);
    hide Ready, Moves, ReleasedAt, Believed, ClearIfResolved, ResolvePending, ApplySnapshot, Informed, OpenIssue;
    FinishEffect(a, oid, event);
  }

  lemma {:induction false} RejectedRows(v: Locked, oid: nat, s: Snapshot, event: nat, now: Time) returns (a: Locked)
    requires Ready(v, oid) && Believed(v, oid, s) && IsActive(v.order.status)
    requires s.status == SnapshotRejected || s.status == SnapshotCancelled
    ensures ApplySnapshot(Opened(v), oid, s, event, now) == Ok(a)
    ensures Moves(v.t, a.t, Free, v.order.lines) && ReleasedAt(v.order.reservations, a.order.reservations, now)
    ensures var rejected := s.status == SnapshotRejected;
            a.order == v.order.(
              status := Cancelled, cancelledAt := Some(now), reservations := a.order.reservations,
              payment := Some(Informed(v, s).(status := if rejected then PaymentRejected else PaymentCancelled)),
              timeline := Entered(v.order, if rejected then PaymentTurnedDown else PaymentWithdrawn, Cancelled))
  {
    ActiveOpen(v.order.status);
    ReadyOpen(v, oid);
    FreedAt(v.order, now);
    var r := ReleaseStep(v, oid, now);
    ReleasedRows(v, now, r);
    RowStepsKeep(v, oid, now);
    ReleaseIgnoresRow(v, Informed(v, s), now);
    ToldIs(v, s);
    hide Ready, Moves, ReleaseReservations, Rephased, ReservationsOk, Mark, Approve, ApplySnapshot;
    a := r.(order := Moved(WithPayment(r.order, Informed(v, s).(status := if s.status == SnapshotRejected then PaymentRejected else PaymentCancelled)),
                           Cancelled, if s.status == SnapshotRejected then PaymentTurnedDown else PaymentWithdrawn, now));
    RejectedStatus(v, oid, s, event, now, r, a);
  }

  lemma {:induction false} RejectedStatus(v: Locked, oid: nat, s: Snapshot, event: nat, now: Time, r: Locked, a: Locked)
    requires Believed(v, oid, s) && IsActive(v.order.status) && (s.status == SnapshotRejected || s.status == SnapshotCancelled)
    requires ReleaseReservations(Told(v, s), now) == Ok(r.(order := WithPayment(r.order, Informed(v, s))))
    requires OnlyRows(v.order, r.order)
    requires a == r.(order := Moved(WithPayment(r.order, Informed(v, s).(status := if s.status == SnapshotRejected then PaymentRejected else PaymentCancelled)),
                                    Cancelled, if s.status == SnapshotRejected then PaymentTurnedDown else PaymentWithdrawn, now))
    ensures ApplySnapshot(Opened(v), oid, s, event, now) == Ok(a)
  {
    ToldIs(v, s);
    hide ReleaseReservations, Mark, Approve;
  }

  /** Any other believed snapshot moves nothing: a pending one sets a payment that is not approved back to pending. */
  lemma {:induction false} IdleSettles(v: Locked, oid: nat, s: Snapshot, event: nat, now: Time)
    requires Believed(v, oid, s) && Perform(v, oid, DoSettle(s, event, now)).Ok? && Complaint(v, oid, s).None?
    requires s.status == SnapshotPending || (s.status != SnapshotRefunded && !IsActive(v.order.status))
    ensures var w := Perform(v, oid, DoSettle(s, event, now)).value;
            && SameCore(v, w)
            && w.order.payment == Some(if s.status == SnapshotPending && Row(v).status != PaymentApproved
                                       then Informed(v, s).(status := PaymentPending) else Informed(v, s))
  {
    SettleIs(v, oid, s, event, now);
    hide Perform;
    var m := SettledFrom(v, oid, s, event, now);
    ToldIs(v, s);
    FinishEffect(m, oid, event);
    hide ClearIfResolved, ResolvePending, Settle, Mark, ReleaseReservations, ConsumeReservations;
  }

  // ----- A new sale

  /** What a created sale stores: the cleaned lines, each reserved until the same moment, and the settings it was asked with. */
  lemma {:induction false} CreateStores(db: Db, inputs: seq<LineInput>, mode: DeliveryMode, payBy: PaymentMethod, setup: Setup, expiresAt: Time)
    requires CreateOrder(db, inputs, mode, payBy, setup, expiresAt).Ok?
    ensures var r := CreateOrder(db, inputs, mode, payBy, setup, expiresAt).value;
            && |r.orders| == |db.orders| + 1 && r.orders[..|db.orders|] == db.orders && r.issues == db.issues
            && var o := r.orders[|db.orders|];
               && o.status == Reserved && o.deliveryMode == mode && o.paymentMethod == payBy && o.expiresAt == expiresAt
               && o.payment.None? && o.buyer.None? && o.reconciliation == ReconciliationOk
               && o.timeline == [TimelineEvent(OrderCreated, Some(Draft), Some(Reserved))]
               && o.pausedAt.None? && o.paidAt.None? && o.cancelledAt.None? && o.expiredAt.None? && o.refundedAt.None? && o.publishedAt.None?
               && |o.reservations| == |o.lines|
               && forall i {:trigger o.reservations[i]} :: 0 <= i < |o.lines| ==>
                    o.reservations[i] == Reservation(o.lines[i].product, o.lines[i].quantity, expiresAt, None, None, None)
  {
    hide NormaliseLines, Transact;
  }

  // ----- The transition table

  /** Every edge, and no other. */
  const Table: set<(Status, Status)> := {
    (Draft, Reserved), (Draft, Cancelled),
    (Reserved, PurchaseInProgress), (Reserved, PurchaseValidation), (Reserved, Paid), (Reserved, Cancelled), (Reserved, Expired),
    (PurchaseInProgress, PurchaseValidation), (PurchaseInProgress, Paid), (PurchaseInProgress, Cancelled), (PurchaseInProgress, Expired),
    (PurchaseValidation, Paid), (PurchaseValidation, Cancelled),
    (Paid, Refunded),
    (Cancelled, Reserved), (Cancelled, PurchaseInProgress), (Cancelled, PurchaseValidation)
  }

  lemma {:induction false} EdgeIsTable(from: Status, to: Status)
    ensures Edge(from, to) <==> (from, to) in Table
  {
  }

  // ----- Commands of the shop

  /** A command on an order commits the rows it locked, and no other order. */
  lemma {:induction false} OrderCommandIs(db: Db, oid: nat, c: Command)
    ensures OnOrder(db, oid, c).Ok? <==> oid < |db.orders| && Perform(LockedAt(db, oid), oid, c).Ok?
    ensures OnOrder(db, oid, c).Ok? ==>
              var r, v := OnOrder(db, oid, c).value, Perform(Locked(db.t, db.orders[oid], db.issues), oid, c).value;
              r.t == v.t && r.orders == db.orders[oid := v.order] && r.issues == v.issues
  {
    hide Perform;
  }
}
