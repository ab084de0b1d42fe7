/**
 * The order machine: rows, the transition table, and every command that works on one
 * locked order. A function here returns the rows its transaction commits, or the error
 * with which it rolls back.
 */
module Orders {
  import opened Prelude
  import opened Inventory
  import opened Stock

  type Time = int

  datatype Status =
    | Draft | Reserved | PurchaseInProgress | PurchaseValidation
    | Paid | Cancelled | Expired | Refunded

  datatype DeliveryMode = Shipping | Pickup | Coordinated
  datatype PaymentMethod = MercadoPago | BankTransfer | Cash
  datatype ReconciliationStatus = ReconciliationOk | ReconciliationRequired | ReconciliationRetrying

  datatype PaymentStatus =
    | PaymentPending | PaymentValidation | PaymentApproved | PaymentRejected
    | PaymentCancelled | PaymentRefunded | PaymentReconciliation

  datatype ProofStatus = ProofPending | ProofReady | ProofApproved | ProofRejected
  datatype Provider = NoProvider | MercadoPagoProvider | OtherProvider

  datatype Payment = Payment(
    status: PaymentStatus,
    amount: nat,
    refundedAmount: int,
    provider: Provider,
    hasProviderId: bool,
    hasPreference: bool,
    proof: Option<ProofStatus>)

  datatype Line = Line(product: nat, quantity: nat, unitPrice: nat, unitCost: Option<nat>)
  {
    function LineTotal(): nat { unitPrice * quantity }
  }

  datatype Reservation = Reservation(
    product: nat,
    quantity: nat,
    expiresAt: Time,
    consumedAt: Option<Time>,
    releasedAt: Option<Time>,
    movement: Option<nat>)

  datatype Buyer = Buyer(hasEmail: bool, deliveryReady: bool)

  datatype EventKind =
    | OrderCreated | LinkPublished | LinkResent | OfferSent
    | BuyerCompleted | BuyerUpdated | CheckoutStarted
    | ProofUploaded | ProofTurnedDown
    | PaymentConfirmed | PaymentTurnedDown | PaymentWithdrawn | PaymentReturned
    | OrderCancelled | OrderRestored | OrderReissued | OrderExpired
    | ReconciliationOpened | ReconciliationResolved

  datatype TimelineEvent = TimelineEvent(kind: EventKind, from: Option<Status>, to: Option<Status>)

  datatype Order = Order(
    status: Status,
    deliveryMode: DeliveryMode,
    paymentMethod: PaymentMethod,
    total: nat,
    lines: seq<Line>,
    reservations: seq<Reservation>,
    payment: Option<Payment>,
    buyer: Option<Buyer>,
    timeline: seq<TimelineEvent>,
    reconciliation: ReconciliationStatus,
    expiresAt: Time,
    pausedAt: Option<Time>,
    paidAt: Option<Time>,
    cancelledAt: Option<Time>,
    expiredAt: Option<Time>,
    refundedAt: Option<Time>,
    publishedAt: Option<Time>)

  datatype IssueKind =
    | UnknownPayment | PaymentMismatch | PaidWithoutStock | WebhookPending
    | FeeMismatch | PartialRefund | ProviderStatusIssue
  datatype IssueStatus = IssueOpen | IssueRetrying | IssueResolved
  datatype Issue = Issue(kind: IssueKind, order: Option<nat>, event: Option<nat>, status: IssueStatus)

  /** The rows one order command works on: inventory tables, its own order, the issue table. */
  datatype Locked = Locked(t: Tables, order: Order, issues: seq<Issue>)

  // ----- The transition table

  predicate IsActive(s: Status) {
    s == Reserved || s == PurchaseInProgress || s == PurchaseValidation
  }

  predicate Expirable(s: Status) {
    s == Reserved || s == PurchaseInProgress
  }

  predicate Edge(from: Status, to: Status) {
    match from
    case Draft => to == Reserved || to == Cancelled
    case Reserved =>
      to == PurchaseInProgress || to == PurchaseValidation || to == Paid || to == Cancelled || to == Expired
    case PurchaseInProgress => to == PurchaseValidation || to == Paid || to == Cancelled || to == Expired
    case PurchaseValidation => to == Paid || to == Cancelled
    case Paid => to == Refunded
    case Cancelled => IsActive(to)
    case Expired => false
    case Refunded => false
  }

  function Moved(o: Order, target: Status, kind: EventKind, now: Time): Order {
    o.(status := target,
       pausedAt := if target == PurchaseValidation then Some(now)
                   else if Expirable(target) then None else o.pausedAt,
       paidAt := if target == Paid then Some(now) else o.paidAt,
       cancelledAt := if target == Cancelled then Some(now)
                      else if o.status == Cancelled then None else o.cancelledAt,
       expiredAt := if target == Expired then Some(now) else o.expiredAt,
       refundedAt := if target == Refunded then Some(now) else o.refundedAt,
       timeline := o.timeline + [TimelineEvent(kind, Some(o.status), Some(target))])
  }

  function Transition(o: Order, target: Status, kind: EventKind, now: Time): Result<Order> {
    if o.status == target then Ok(o)
    else if !Edge(o.status, target) then Err(TransitionNotAllowed)
    else Ok(Moved(o, target, kind, now))
  }

  /** A timeline entry that moves no status. */
  function Noted(o: Order, kind: EventKind): Order {
    o.(timeline := o.timeline + [TimelineEvent(kind, None, None)])
  }

  // ----- Reservations

  /** The database forbids a row that is both consumed and released. */
  datatype Phase = Open | Consumed | Released

  function PhaseOf(r: Reservation): Phase {
    if r.consumedAt.Some? then Consumed else if r.releasedAt.Some? then Released else Open
  }

  predicate Has(rs: seq<Reservation>, phase: Phase) {
    exists i :: 0 <= i < |rs| && PhaseOf(rs[i]) == phase
  }

  /** The stock requests for the rows in one phase. */
  function RequestsOf(rs: seq<Reservation>, phase: Phase): seq<Request> {
    if rs == [] then []
    else
      var last := rs[|rs| - 1];
      RequestsOf(rs[..|rs| - 1], phase)
      + (if PhaseOf(last) == phase then [Request(last.product, last.quantity)] else [])
  }

  function LineRequests(lines: seq<Line>): (r: seq<Request>)
    ensures |r| == |lines|
    ensures forall i :: 0 <= i < |r| ==> r[i] == Request(lines[i].product, lines[i].quantity)
  {
    seq(|lines|, i requires 0 <= i < |lines| => Request(lines[i].product, lines[i].quantity))
  }

  function FreshReservations(lines: seq<Line>, expiresAt: Time): (r: seq<Reservation>)
    ensures |r| == |lines|
    ensures forall i :: 0 <= i < |r| ==>
              r[i] == Reservation(lines[i].product, lines[i].quantity, expiresAt, None, None, None)
  {
    seq(|lines|, i requires 0 <= i < |lines| =>
                   Reservation(lines[i].product, lines[i].quantity, expiresAt, None, None, None))
  }

  function Freed(r: Reservation, now: Time): Reservation {
    if PhaseOf(r) == Open then r.(releasedAt := Some(now)) else r
  }

  function Reheld(r: Reservation, expiresAt: Time): Reservation {
    if PhaseOf(r) == Released then r.(releasedAt := None, expiresAt := expiresAt) else r
  }

  function Postponed(r: Reservation, expiresAt: Time): Reservation {
    if PhaseOf(r) == Open then r.(expiresAt := expiresAt) else r
  }

  /** Every consumed row points at the EXIT row of its product. */
  function Sold(r: Reservation, now: Time, base: nat, ids: seq<nat>): Reservation {
    if PhaseOf(r) == Open && r.product in ids
    then r.(consumedAt := Some(now), movement := Some(base + IndexOf(ids, r.product)))
    else r
  }

  function FreedAll(rs: seq<Reservation>, now: Time): (r: seq<Reservation>)
    ensures |r| == |rs| && forall i :: 0 <= i < |r| ==> r[i] == Freed(rs[i], now)
  {
    seq(|rs|, i requires 0 <= i < |rs| => Freed(rs[i], now))
  }

  function ReheldAll(rs: seq<Reservation>, expiresAt: Time): (r: seq<Reservation>)
    ensures |r| == |rs| && forall i :: 0 <= i < |r| ==> r[i] == Reheld(rs[i], expiresAt)
  {
    seq(|rs|, i requires 0 <= i < |rs| => Reheld(rs[i], expiresAt))
  }

  function PostponedAll(rs: seq<Reservation>, expiresAt: Time): (r: seq<Reservation>)
    ensures |r| == |rs| && forall i :: 0 <= i < |r| ==> r[i] == Postponed(rs[i], expiresAt)
  {
    seq(|rs|, i requires 0 <= i < |rs| => Postponed(rs[i], expiresAt))
  }

  function SoldAll(rs: seq<Reservation>, now: Time, base: nat, ids: seq<nat>): (r: seq<Reservation>)
    ensures |r| == |rs| && forall i :: 0 <= i < |r| ==> r[i] == Sold(rs[i], now, base, ids)
  {
    seq(|rs|, i requires 0 <= i < |rs| => Sold(rs[i], now, base, ids))
  }

  function ReleaseReservations(v: Locked, now: Time): Result<Locked> {
    var rs := v.order.reservations;
    if !Has(rs, Open) then Ok(v)
    else
      var t :- Transact(v.t, Free, RequestsOf(rs, Open));
      Ok(v.(t := t, order := v.order.(reservations := FreedAll(rs, now))))
  }

  /** The flag says whether there was anything to consume. */
  function ConsumeReservations(v: Locked, oid: nat, now: Time): Result<(Locked, bool)> {
    var rs := v.order.reservations;
    if !Has(rs, Open) then Ok((v, false))
    else
      var requests := RequestsOf(rs, Open);
      var t :- Transact(v.t, Sell(oid), requests);
      var sold := SoldAll(rs, now, |v.t.movements|, Ascending(Requested(requests)));
      Ok((v.(t := t, order := v.order.(reservations := sold)), true))
  }

  /** A second reservation row for a line violates the one-to-one key. */
  function ReopenReservations(v: Locked, expiresAt: Time): Result<Locked> {
    var rs := v.order.reservations;
    if Has(rs, Open) then Ok(v.(order := v.order.(reservations := PostponedAll(rs, expiresAt))))
    else if Has(rs, Released) then
      var t :- Transact(v.t, Hold, RequestsOf(rs, Released));
      Ok(v.(t := t, order := v.order.(reservations := ReheldAll(rs, expiresAt))))
    else if v.order.lines == [] then Ok(v)
    else
      var t :- Transact(v.t, Hold, LineRequests(v.order.lines));
      if rs != [] then Err(IntegrityError)
      else Ok(v.(t := t, order := v.order.(reservations := FreshReservations(v.order.lines, expiresAt))))
  }

  // ----- Reconciliation issues

  predicate SameIssue(i: Issue, kind: IssueKind, order: Option<nat>, event: Option<nat>) {
    && i.kind == kind
    && if event.Some? then i.event == event
       else i.order == order && i.event.None? && i.status != IssueResolved
  }

  /** Index of the newest matching issue. */
  function FindIssue(issues: seq<Issue>, kind: IssueKind, order: Option<nat>, event: Option<nat>): (r: Option<nat>)
    ensures r.Some? ==> r.value < |issues| && SameIssue(issues[r.value], kind, order, event)
    ensures r.None? ==> forall i :: 0 <= i < |issues| ==> !SameIssue(issues[i], kind, order, event)
  {
    if issues == [] then None
    else if SameIssue(issues[|issues| - 1], kind, order, event) then Some(|issues| - 1)
    else FindIssue(issues[..|issues| - 1], kind, order, event)
  }

  /** The issue table after a report, and whether it opened or reopened an issue. */
  function Report(issues: seq<Issue>, kind: IssueKind, order: Option<nat>, event: Option<nat>): (seq<Issue>, bool) {
    match FindIssue(issues, kind, order, event)
    case None => (issues + [Issue(kind, order, event, IssueOpen)], true)
    case Some(i) =>
      if issues[i].status == IssueResolved then (issues[i := issues[i].(status := IssueOpen)], true)
      else (issues, false)
  }

  function Mark(v: Locked, oid: nat, kind: IssueKind, event: Option<nat>): Locked {
    var (issues, isNew) := Report(v.issues, kind, Some(oid), event);
    var changed := v.order.reconciliation != ReconciliationRequired;
    var required := v.order.(reconciliation := ReconciliationRequired);
    var noted := if isNew || changed then Noted(required, ReconciliationOpened) else required;
    var settled :=
      match noted.payment
      case Some(p) =>
        if kind == WebhookPending && (p.status == PaymentApproved || p.status == PaymentRefunded) then noted
        else noted.(payment := Some(p.(status := PaymentReconciliation)))
      case None => noted;
    v.(order := settled, issues := issues)
  }

  predicate Unresolved(issues: seq<Issue>, order: nat) {
    exists i :: 0 <= i < |issues| && issues[i].order == Some(order) && issues[i].status != IssueResolved
  }

  function ClearIfResolved(v: Locked, oid: nat): Locked {
    if Unresolved(v.issues, oid) || v.order.reconciliation == ReconciliationOk then v
    else v.(order := Noted(v.order.(reconciliation := ReconciliationOk), ReconciliationResolved))
  }

  function ResolvePending(issues: seq<Issue>, event: nat): (r: seq<Issue>)
    ensures |r| == |issues|
  {
    seq(|issues|, i requires 0 <= i < |issues| =>
                    if issues[i].event == Some(event) && issues[i].kind == WebhookPending
                    then issues[i].(status := IssueResolved) else issues[i])
  }

  // ----- Payments

  function NewPayment(o: Order, provider: Provider): Payment {
    Payment(PaymentPending, o.total, 0, provider, false, false, None)
  }

  /** The existing payment row, or the one get_or_create inserts. */
  function PaymentOf(o: Order, provider: Provider): Payment {
    if o.payment.Some? then o.payment.value else NewPayment(o, provider)
  }

  function WithPayment(o: Order, p: Payment): Order {
    o.(payment := Some(p))
  }

  function Voided(p: Option<Payment>, validationToo: bool): Option<Payment> {
    match p
    case None => None
    case Some(pay) =>
      if pay.status == PaymentPending || (validationToo && pay.status == PaymentValidation)
      then Some(pay.(status := PaymentCancelled)) else p
  }

  /** The flag is false when the payment was taken but no stock could be consumed. */
  function Approve(v: Locked, oid: nat, payment: Payment, paidAt: Time, event: Option<nat>, now: Time): Result<(Locked, bool)> {
    if v.order.status == Paid && payment.status == PaymentApproved then Ok((v, true))
    else if !IsActive(v.order.status) then Err(TransitionNotAllowed)
    else
      var consumed := ConsumeReservations(v, oid, now);
      if consumed.Err? && consumed.error != StockReconciliationRequired then Err(consumed.error)
      else if consumed.Err? || !consumed.value.1 then Ok((Mark(v, oid, PaidWithoutStock, event), false))
      else
        var w := consumed.value.0;
        var paid :- Transition(WithPayment(w.order, payment.(status := PaymentApproved)), Paid, PaymentConfirmed, now);
        Ok((w.(order := paid.(paidAt := Some(paidAt))), true))
  }

  // ----- Commands on one order

  predicate NeedsDelivery(o: Order) {
    o.deliveryMode == Shipping || o.paymentMethod == BankTransfer
  }

  function PublishLink(v: Locked, now: Time): Result<Locked> {
    if !IsActive(v.order.status) then Err(TransitionNotAllowed)
    else if v.order.publishedAt.Some? then Ok(v)
    else Ok(v.(order := Noted(v.order.(publishedAt := Some(now)), LinkPublished)))
  }

  /** `details` is None when the buyer form fails its own field checks. */
  function BuyerRow(o: Order, details: Option<Buyer>): Result<Buyer> {
    if details.None? || (NeedsDelivery(o) && !details.value.deliveryReady) then Err(ValidationError)
    else Ok(details.value)
  }

  function SetBuyer(v: Locked, details: Option<Buyer>, now: Time): Result<Locked> {
    if !Expirable(v.order.status) then Err(TransitionNotAllowed)
    else
      var buyer :- BuyerRow(v.order, details);
      var o := v.order.(buyer := Some(buyer));
      if o.status == Reserved then
        var moved :- Transition(o, PurchaseInProgress, BuyerCompleted, now);
        Ok(v.(order := moved))
      else Ok(v.(order := Noted(o, BuyerUpdated)))
  }

  function UpdateBuyer(v: Locked, details: Option<Buyer>): Result<Locked> {
    if !IsActive(v.order.status) && v.order.status != Paid then Err(TransitionNotAllowed)
    else
      var buyer :- BuyerRow(v.order, details);
      Ok(v.(order := Noted(v.order.(buyer := Some(buyer)), BuyerUpdated)))
  }

  function StartCheckout(v: Locked, connected: bool, providerUp: bool, now: Time): Result<Locked> {
    if v.order.paymentMethod != MercadoPago then Err(PaymentMethodNotAllowed)
    else if !Expirable(v.order.status) then Err(TransitionNotAllowed)
    else if v.order.buyer.None? || !v.order.buyer.value.hasEmail then Err(BuyerDetailsRequired)
    else if !connected then Err(PaymentConnectionRequired)
    else
      var payment := PaymentOf(v.order, MercadoPagoProvider);
      if !payment.hasPreference && !providerUp then Err(ProviderUnavailable)
      else
        var o := WithPayment(v.order, payment.(hasPreference := true));
        if o.status == Reserved then
          var moved :- Transition(o, PurchaseInProgress, CheckoutStarted, now);
          Ok(v.(order := moved))
        else Ok(v.(order := Noted(o, CheckoutStarted)))
  }

  function PrepareReceipt(v: Locked): Result<Locked> {
    if v.order.paymentMethod != BankTransfer then Err(PaymentMethodNotAllowed)
    else if !Expirable(v.order.status) then Err(TransitionNotAllowed)
    else if v.order.buyer.None? || !v.order.buyer.value.deliveryReady then Err(DeliveryDetailsRequired)
    else
      var payment := PaymentOf(v.order, NoProvider);
      if payment.proof.Some? && payment.proof.value != ProofPending then Err(PaymentProofAlreadyUploaded)
      else Ok(v.(order := WithPayment(v.order, payment.(proof := Some(ProofPending)))))
  }

  function MarkProofReady(v: Locked, now: Time): Result<Locked> {
    if v.order.payment.None? || v.order.payment.value.proof.None? then Err(NotFound)
    else if v.order.payment.value.proof.value == ProofReady then Ok(v)
    else if !Expirable(v.order.status) then Err(TransitionNotAllowed)
    else
      var p := v.order.payment.value;
      var moved :- Transition(
        WithPayment(v.order, p.(proof := Some(ProofReady), status := PaymentValidation)),
        PurchaseValidation, ProofUploaded, now);
      Ok(v.(order := moved))
  }

  function ReviewProof(v: Locked, oid: nat, approved: bool, now: Time): Result<Locked> {
    if v.order.payment.None? || v.order.payment.value.proof.None?
       || v.order.payment.value.proof.value == ProofPending then Err(PaymentProofRequired)
    else if approved && v.order.status == Paid then Ok(v)
    else if !approved && v.order.status == Cancelled then Ok(v)
    else if v.order.status != PurchaseValidation then Err(TransitionNotAllowed)
    else
      var p := v.order.payment.value;
      if approved then
        var accepted := p.(proof := Some(ProofApproved));
        var r :- Approve(v.(order := WithPayment(v.order, accepted)), oid, accepted, now, None, now);
        Ok(r.0)
      else
        var turnedDown := p.(proof := Some(ProofRejected), status := PaymentRejected);
        var w :- ReleaseReservations(v.(order := WithPayment(v.order, turnedDown)), now);
        var moved :- Transition(w.order, Cancelled, ProofTurnedDown, now);
        Ok(w.(order := moved))
  }

  /** `amount` is None when the form value is not an integral peso amount. */
  function ConfirmManual(v: Locked, oid: nat, amount: Option<int>, paidAt: Time, now: Time): Result<Locked> {
    if amount.None? then Err(ValidationError)
    else
      var p := PaymentOf(v.order, NoProvider);
      var w := v.(order := WithPayment(v.order, p));
      if v.order.status == Paid && p.status == PaymentApproved then Ok(w)
      else if v.order.paymentMethod == MercadoPago then Err(PaymentMethodNotAllowed)
      else if v.order.paymentMethod == BankTransfer && v.order.status == PurchaseValidation then
        Err(PaymentProofReviewRequired)
      else if amount.value != v.order.total then Err(PaymentAmountMismatch)
      else
        var r :- Approve(w, oid, p, paidAt, None, now);
        Ok(r.0)
  }

  function Cancel(v: Locked, now: Time): Result<Locked> {
    if v.order.status == Cancelled then Ok(v)
    else if !IsActive(v.order.status) then Err(TransitionNotAllowed)
    else
      var w :- ReleaseReservations(v, now);
      var moved :- Transition(w.order.(payment := Voided(w.order.payment, true)), Cancelled, OrderCancelled, now);
      Ok(w.(order := moved))
  }

  /** The newest seller cancellation in the timeline, whatever cancelled the order last. */
  function LastCancellation(timeline: seq<TimelineEvent>): Option<TimelineEvent> {
    if timeline == [] then None
    else if timeline[|timeline| - 1].kind == OrderCancelled then Some(timeline[|timeline| - 1])
    else LastCancellation(timeline[..|timeline| - 1])
  }

  predicate HasReadyProof(o: Order) {
    o.payment.Some? && o.payment.value.proof == Some(ProofReady)
  }

  function RestoreTarget(o: Order): Result<Status> {
    var e := LastCancellation(o.timeline);
    if e.None? || e.value.from.None? || !IsActive(e.value.from.value) then Err(TransitionNotAllowed)
    else if e.value.from.value != PurchaseValidation then Ok(e.value.from.value)
    else if HasReadyProof(o) then Ok(PurchaseValidation)
    else if o.buyer.Some? then Ok(PurchaseInProgress)
    else Ok(Reserved)
  }

  function Revived(p: Option<Payment>, target: Status): Option<Payment> {
    match p
    case None => None
    case Some(pay) =>
      if pay.status != PaymentCancelled then p
      else if target == PurchaseValidation && pay.proof == Some(ProofReady)
      then Some(pay.(status := PaymentValidation))
      else Some(pay.(status := PaymentPending))
  }

  function Restore(v: Locked, now: Time, ttl: Time): Result<Locked> {
    if IsActive(v.order.status) then Ok(v)
    else if v.order.status != Cancelled then Err(TransitionNotAllowed)
    else
      var target :- RestoreTarget(v.order);
      var w :- ReopenReservations(v, now + ttl);
      var o := w.order.(payment := Revived(w.order.payment, target), expiresAt := now + ttl);
      var moved :- Transition(o, target, OrderRestored, now);
      Ok(w.(order := moved))
  }

  function Refund(v: Locked, oid: nat, connected: bool, providerUp: bool, now: Time): Result<Locked> {
    if v.order.status == Refunded then Ok(v)
    else if v.order.status != Paid || v.order.payment.None? || v.order.payment.value.status != PaymentApproved then
      Err(TransitionNotAllowed)
    else
      var p := v.order.payment.value;
      if p.provider == MercadoPagoProvider && !p.hasProviderId then Ok(Mark(v, oid, UnknownPayment, None))
      else if p.provider == MercadoPagoProvider && !connected then Err(PaymentConnectionRequired)
      else if p.provider == MercadoPagoProvider && !providerUp then Err(ProviderUnavailable)
      else
        var o := WithPayment(v.order, p.(status := PaymentRefunded, refundedAmount := p.amount));
        var moved :- Transition(o, Refunded, PaymentReturned, now);
        Ok(v.(order := moved))
  }

  function ResendLink(v: Locked): Result<Locked> {
    if !IsActive(v.order.status) then Err(TransitionNotAllowed)
    else if v.order.buyer.None? || !v.order.buyer.value.hasEmail then Err(BuyerEmailRequired)
    else Ok(v.(order := Noted(v.order, LinkResent)))
  }

  function SendOffer(v: Locked): Result<Locked> {
    if !IsActive(v.order.status) then Err(TransitionNotAllowed)
    else
      var buyer := if v.order.buyer.Some? then v.order.buyer.value.(hasEmail := true) else Buyer(true, false);
      Ok(v.(order := Noted(v.order.(buyer := Some(buyer)), OfferSent)))
  }

  function Expire(v: Locked, now: Time): Result<Locked> {
    if !Expirable(v.order.status) || v.order.expiresAt > now then Ok(v)
    else
      var w :- ReleaseReservations(v, now);
      var moved :- Transition(w.order.(payment := Voided(w.order.payment, false)), Expired, OrderExpired, now);
      Ok(w.(order := moved))
  }

  // ----- Provider snapshots

  /** The provider's status word, lower-cased and classified as the dispatch does. */
  datatype ProviderStatus =
    | SnapshotApproved | SnapshotRejected | SnapshotCancelled
    | SnapshotPending | SnapshotRefunded | SnapshotUnknown

  /** `reference` is the order the provider names; `currencyOk` says it reports Chilean pesos. */
  datatype Snapshot = Snapshot(
    status: ProviderStatus,
    reference: Option<nat>,
    amount: int,
    currencyOk: bool,
    fee: Option<int>,
    refunded: Option<int>,
    approvedAt: Option<Time>,
    hasId: bool)

  predicate FeeOnly(s: Snapshot, oid: nat, p: Payment) {
    s.reference == Some(oid) && s.amount == p.amount && s.currencyOk
  }

  predicate FeeOk(s: Snapshot) {
    s.fee.None? || s.fee.value == 0
  }

  /** A reported refund of zero counts as missing and means the whole amount. */
  function ReportedRefund(s: Snapshot, p: Payment): int {
    Min(if s.refunded.Some? && s.refunded.value != 0 then s.refunded.value else p.amount, p.amount)
  }

  function ApplyStatus(v: Locked, oid: nat, s: Snapshot, event: nat, now: Time): Result<Locked>
    requires v.order.payment.Some?
  {
    var p := v.order.payment.value;
    match s.status
    case SnapshotApproved =>
      if v.order.status == Paid && p.status == PaymentApproved then Ok(v)
      else if v.order.status == Cancelled || v.order.status == Expired then
        Ok(Mark(v, oid, PaidWithoutStock, Some(event)))
      else if v.order.status == Refunded then Ok(v)
      else
        var r :- Approve(v, oid, p, if s.approvedAt.Some? then s.approvedAt.value else now, Some(event), now);
        Ok(r.0)
    case SnapshotPending =>
      Ok(if p.status != PaymentApproved then v.(order := WithPayment(v.order, p.(status := PaymentPending))) else v)
    case SnapshotRefunded =>
      var q := p.(refundedAmount := ReportedRefund(s, p));
      if q.refundedAmount < 0 then Err(IntegrityError)
      else if q.refundedAmount == q.amount && v.order.status == Paid then
        var moved :- Transition(WithPayment(v.order, q.(status := PaymentRefunded)), Refunded, PaymentReturned, now);
        Ok(v.(order := moved))
      else Ok(Mark(v.(order := WithPayment(v.order, q)), oid, PartialRefund, Some(event)))
    case SnapshotUnknown => Ok(Mark(v, oid, ProviderStatusIssue, Some(event)))
    case _ =>
      if v.order.status == Paid then Ok(Mark(v, oid, ProviderStatusIssue, Some(event)))
      else if !IsActive(v.order.status) then Ok(v)
      else
        var w :- ReleaseReservations(v, now);
        var rejected := s.status == SnapshotRejected;
        var o := WithPayment(w.order, p.(status := if rejected then PaymentRejected else PaymentCancelled));
        var moved :- Transition(o, Cancelled, if rejected then PaymentTurnedDown else PaymentWithdrawn, now);
        Ok(w.(order := moved))
  }

  function ApplySnapshot(v: Locked, oid: nat, s: Snapshot, event: nat, now: Time): Result<Locked>
    requires v.order.payment.Some?
  {
    var p := v.order.payment.value;
    if !FeeOnly(s, oid, p) then Ok(Mark(v, oid, PaymentMismatch, Some(event)))
    else if !FeeOk(s) then Ok(Mark(v, oid, FeeMismatch, Some(event)))
    else ApplyStatus(v.(order := WithPayment(v.order, p.(hasProviderId := s.hasId))), oid, s, event, now)
  }

  /** The transaction that settles one webhook event against its order. */
  function Settle(v: Locked, oid: nat, s: Snapshot, event: nat, now: Time): Result<Locked> {
    var p := PaymentOf(v.order, MercadoPagoProvider);
    var applied :=
      if p.provider == OtherProvider
      then Ok(Mark(v.(order := WithPayment(v.order, p)), oid, PaymentMismatch, Some(event)))
      else ApplySnapshot(v.(order := WithPayment(v.order, p.(provider := MercadoPagoProvider))), oid, s, event, now);
    var w :- applied;
    Ok(ClearIfResolved(w.(issues := ResolvePending(w.issues, event)), oid))
  }

  function RetryIssue(v: Locked, oid: nat, issue: nat): Result<Locked> {
    if issue >= |v.issues| || v.issues[issue].order != Some(oid) then Err(NotFound)
    else if v.issues[issue].status == IssueResolved then Ok(v)
    else Ok(v.(issues := v.issues[issue := v.issues[issue].(status := IssueRetrying)],
               order := v.order.(reconciliation := ReconciliationRetrying)))
  }

  // ----- One dispatch over all commands that lock a single order

  datatype Command =
    | DoPublishLink(now: Time)
    | DoSetBuyer(details: Option<Buyer>, now: Time)
    | DoUpdateBuyer(details: Option<Buyer>)
    | DoStartCheckout(connected: bool, providerUp: bool, now: Time)
    | DoPrepareReceipt
    | DoMarkProofReady(now: Time)
    | DoReviewProof(approved: bool, now: Time)
    | DoConfirmManual(amount: Option<int>, paidAt: Time, now: Time)
    | DoCancel(now: Time)
    | DoRestore(now: Time, ttl: Time)
    | DoRefund(connected: bool, providerUp: bool, now: Time)
    | DoResendLink
    | DoSendOffer
    | DoExpire(now: Time)
    | DoSettle(snapshot: Snapshot, event: nat, now: Time)
    | DoFailWebhook(event: nat)
    | DoRetryIssue(issue: nat)

  function Perform(v: Locked, oid: nat, c: Command): Result<Locked> {
    match c
    case DoPublishLink(now) => PublishLink(v, now)
    case DoSetBuyer(details, now) => SetBuyer(v, details, now)
    case DoUpdateBuyer(details) => UpdateBuyer(v, details)
    case DoStartCheckout(connected, providerUp, now) => StartCheckout(v, connected, providerUp, now)
    case DoPrepareReceipt => PrepareReceipt(v)
    case DoMarkProofReady(now) => MarkProofReady(v, now)
    case DoReviewProof(approved, now) => ReviewProof(v, oid, approved, now)
    case DoConfirmManual(amount, paidAt, now) => ConfirmManual(v, oid, amount, paidAt, now)
    case DoCancel(now) => Cancel(v, now)
    case DoRestore(now, ttl) => Restore(v, now, ttl)
    case DoRefund(connected, providerUp, now) => Refund(v, oid, connected, providerUp, now)
    case DoResendLink => ResendLink(v)
    case DoSendOffer => SendOffer(v)
    case DoExpire(now) => Expire(v, now)
    case DoSettle(snapshot, event, now) => Settle(v, oid, snapshot, event, now)
    case DoFailWebhook(event) => Ok(Mark(v, oid, WebhookPending, Some(event)))
    case DoRetryIssue(issue) => RetryIssue(v, oid, issue)
  }
}
