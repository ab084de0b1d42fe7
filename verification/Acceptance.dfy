/** When a sale is accepted, and when a reissue is: exact conditions on what the caller sees. */
module Acceptance {
  import opened Prelude
  import opened Inventory
  import opened Stock
  import opened Orders
  import opened Shop
  import opened Invariant
  import opened Preserve
  import opened Commands
  import opened Runs
  import opened RoundTrip
  import opened Snapshots

  // ----- Validation

  /** What a form line costs, when its figures are good. */
  function Priced(input: LineInput): nat {
    if input.price.Some? && input.price.value >= 0 && input.quantity >= 0 then input.price.value * input.quantity else 0
  }

  function PricedTotal(inputs: seq<LineInput>): nat {
    if inputs == [] then 0 else PricedTotal(inputs[..|inputs| - 1]) + Priced(inputs[|inputs| - 1])
  }

  /** Units of one product asked for. */
  function AskedQty(inputs: seq<LineInput>, p: nat): int {
    if inputs == [] then 0
    else
      var last := inputs[|inputs| - 1];
      AskedQty(inputs[..|inputs| - 1], p) + (if last.product == p then last.quantity else 0)
  }

  predicate Sellable(products: seq<Product>, input: LineInput) {
    && input.product < |products| && products[input.product].status == CatalogStatus.Active
    && 0 < input.quantity <= MAX_LINE_QUANTITY
    && input.price.Some? && 0 <= input.price.value <= MAX_PRICE
  }

  ghost predicate Orderable(products: seq<Product>, inputs: seq<LineInput>) {
    && inputs != []
    && (forall i {:trigger inputs[i]} :: 0 <= i < |inputs| ==> Sellable(products, inputs[i]))
    && PricedTotal(inputs) <= MAX_ORDER_TOTAL
  }

  lemma {:induction false} CleanedPrice(products: seq<Product>, input: LineInput)
    requires input.product < |products|
    ensures CleanLine(products, input).Ok? <==> Sellable(products, input)
    ensures CleanLine(products, input).Ok? ==> CleanLine(products, input).value.LineTotal() == Priced(input)
  {
  }

  lemma {:induction false} CleanLinesWhen(products: seq<Product>, inputs: seq<LineInput>)
    requires forall i :: 0 <= i < |inputs| ==> inputs[i].product < |products|
    ensures CleanLines(products, inputs).Ok? <==>
            (forall i {:trigger inputs[i]} :: 0 <= i < |inputs| ==> Sellable(products, inputs[i]))
            && PricedTotal(inputs) <= MAX_ORDER_TOTAL
    ensures CleanLines(products, inputs).Ok? ==> CleanLines(products, inputs).value.1 == PricedTotal(inputs)
  {
    hide CleanLine, Sellable, Priced, Line.LineTotal;
    if inputs != [] {
      var init := inputs[..|inputs| - 1];
      assert forall i {:trigger init[i]} :: 0 <= i < |init| ==> init[i] == inputs[i];
      CleanLinesWhen(products, init);
      CleanedPrice(products, inputs[|inputs| - 1]);
    }
  }

  lemma {:induction false} NormaliseWhen(products: seq<Product>, inputs: seq<LineInput>)
    ensures NormaliseLines(products, inputs).Ok? <==> Orderable(products, inputs)
  {
    hide CleanLines, PricedTotal;
    if forall i :: 0 <= i < |inputs| ==> inputs[i].product < |products| {
      CleanLinesWhen(products, inputs);
    } else {
      var i :| 0 <= i < |inputs| && inputs[i].product >= |products|;
      assert !Sellable(products, inputs[i]);
    }
  }

  lemma {:induction false} CleanedQty(products: seq<Product>, inputs: seq<LineInput>, lines: seq<Line>, p: nat)
    requires CleanedAll(products, inputs, lines)
    ensures LineQty(lines, p) == AskedQty(inputs, p)
  {
    if lines != [] {
      var n := |lines| - 1;
      assert forall i {:trigger lines[..n][i]} :: 0 <= i < n ==> lines[..n][i] == lines[i] && inputs[..n][i] == inputs[i];
      CleanedQty(products, inputs[..n], lines[..n], p);
      assert CleanedLine(products, inputs[n], lines[n]);
    }
  }

  // ----- A sale

  /** Every product has what the whole form asks of it. */
  ghost predicate InStock(t: Tables, inputs: seq<LineInput>) {
    forall p: nat {:trigger t.Bal(p)} :: AskedQty(inputs, p) > 0 ==> t.Bal(p).Available() >= AskedQty(inputs, p)
  }

  predicate PayableBy(payBy: PaymentMethod, setup: Setup) {
    (payBy == BankTransfer ==> setup.bankReady) && (payBy == MercadoPago ==> setup.connected)
  }

  lemma {:induction false} HeldWhen(t: Tables, lines: seq<Line>)
    requires lines != [] && forall i {:trigger lines[i]} :: 0 <= i < |lines| ==> LineOk(lines[i], |t.products|)
    ensures Transact(t, Hold, LineRequests(lines)).Ok? <==> AllowsOrder(t, Hold, lines)
  {
    var requests := LineRequests(lines);
    forall p: nat ensures Demand(requests, p) == LineQty(lines, p) {
      DemandOfLines(lines, p);
    }
    assert forall r :: r in requests ==> r.product < |t.products| && r.quantity > 0;
    hide Transact, AllowsOrder, Acceptable, Demand;
    TransactIs(t, Hold, requests);
    CartAcceptable(t, Hold, lines, requests);
  }

  lemma {:induction false} StockWhen(t: Tables, products: seq<Product>, inputs: seq<LineInput>, lines: seq<Line>)
    requires CleanedAll(products, inputs, lines)
    ensures AllowsOrder(t, Hold, lines) <==> InStock(t, inputs)
  {
    forall p: nat ensures LineQty(lines, p) == AskedQty(inputs, p) {
      CleanedQty(products, inputs, lines, p);
    }
    hide CleanedAll, LineQty, AskedQty;
    if AllowsOrder(t, Hold, lines) {
      forall p: nat ensures AskedQty(inputs, p) > 0 ==> t.Bal(p).Available() >= AskedQty(inputs, p) {
        assert LineQty(lines, p) > 0 ==> Allowed(Hold, t.Bal(p), LineQty(lines, p));
      }
    }
  }

  lemma {:induction false} CleanedOk(products: seq<Product>, inputs: seq<LineInput>, lines: seq<Line>)
    requires CleanedAll(products, inputs, lines)
    ensures forall i {:trigger lines[i]} :: 0 <= i < |lines| ==> LineOk(lines[i], |products|)
  {
  }

  /** A sale is accepted exactly when its lines are orderable, its payment can be taken and every product has its total in stock. */
  lemma {:induction false} CreateWhen(db: Db, inputs: seq<LineInput>, mode: DeliveryMode, payBy: PaymentMethod, setup: Setup, expiresAt: Time)
    ensures CreateOrder(db, inputs, mode, payBy, setup, expiresAt).Ok? <==>
            Orderable(db.t.products, inputs) && PayableBy(payBy, setup) && InStock(db.t, inputs)
  {
    NormaliseWhen(db.t.products, inputs);
    hide Orderable, InStock, NormaliseLines, NewOrder, Transact;
    if NormaliseLines(db.t.products, inputs).Ok? {
      var lines := NormaliseLines(db.t.products, inputs).value.0;
      CleanedOf(db.t.products, inputs);
      CleanedOk(db.t.products, inputs, lines);
      HeldWhen(db.t, lines);
      StockWhen(db.t, db.t.products, inputs, lines);
    }
  }

  lemma {:induction false} CleanedOf(products: seq<Product>, inputs: seq<LineInput>)
    requires NormaliseLines(products, inputs).Ok?
    ensures CleanedAll(products, inputs, NormaliseLines(products, inputs).value.0)
    ensures NormaliseLines(products, inputs).value.0 != []
  {
    hide CleanLines, CleanedLine;
    CleanLinesMeaning(products, inputs);
  }

  // ----- A reissue

  predicate AllActive(products: seq<Product>, lines: seq<Line>) {
    forall i {:trigger lines[i]} :: 0 <= i < |lines| ==>
      lines[i].product < |products| && products[lines[i].product].status == CatalogStatus.Active
  }

  predicate Reissuable(db: Db, oid: nat, setup: Setup) {
    && oid < |db.orders|
    && db.orders[oid].paymentMethod == BankTransfer && db.orders[oid].status == PurchaseValidation
    && setup.bankReady && AllActive(db.t.products, db.orders[oid].lines)
  }

  lemma {:induction false} SamePrices(lines: seq<Line>)
    ensures PricedTotal(InputsOf(lines)) == LinesTotal(lines)
  {
    if lines != [] {
      SamePrices(lines[..|lines| - 1]);
      assert InputsOf(lines)[..|lines| - 1] == InputsOf(lines[..|lines| - 1]);
    }
  }

  /** The lines of a valid order can be ordered again exactly when all their products are active. */
  lemma {:induction false} OrderableAgain(o: Order, products: seq<Product>)
    requires LinesOk(o, |products|)
    ensures Orderable(products, InputsOf(o.lines)) <==> AllActive(products, o.lines)
  {
    SamePrices(o.lines);
    var inputs := InputsOf(o.lines);
    hide PricedTotal, LinesTotal;
    forall i {:trigger inputs[i]} | 0 <= i < |inputs|
      ensures Sellable(products, inputs[i]) <==> products[o.lines[i].product].status == CatalogStatus.Active
    {
      assert LineOk(o.lines[i], |products|);
    }
    if AllActive(products, o.lines) {
      forall i {:trigger inputs[i]} | 0 <= i < |inputs| ensures Sellable(products, inputs[i]) {
        assert o.lines[i].product < |products| && products[o.lines[i].product].status == CatalogStatus.Active;
      }
    }
    if Orderable(products, inputs) {
      forall i {:trigger o.lines[i]} | 0 <= i < |o.lines|
        ensures o.lines[i].product < |products| && products[o.lines[i].product].status == CatalogStatus.Active
      {
        assert Sellable(products, inputs[i]);
      }
    }
  }

  lemma {:induction false} SameQty(lines: seq<Line>, p: nat)
    ensures AskedQty(InputsOf(lines), p) == LineQty(lines, p)
  {
    if lines != [] {
      SameQty(lines[..|lines| - 1], p);
      assert InputsOf(lines)[..|lines| - 1] == InputsOf(lines[..|lines| - 1]);
    }
  }

  lemma {:induction false} FreedInStock(t: Tables, r: Tables, lines: seq<Line>)
    requires Sound(t) && Moves(t, r, Free, lines)
    ensures InStock(r, InputsOf(lines)) && r.products == t.products
  {
    StillAvailable(t, r, lines);
    hide Sound;
    forall p: nat ensures AskedQty(InputsOf(lines), p) > 0 ==> r.Bal(p).Available() >= AskedQty(InputsOf(lines), p) {
      SameQty(lines, p);
      assert LineQty(lines, p) > 0 ==> Allowed(Hold, r.Bal(p), LineQty(lines, p));
    }
  }

  /** Closing a transfer under review always works and frees its stock. */
  lemma {:induction false} SupersedeFrees(v: Locked, oid: nat, now: Time) returns (w: Locked)
    requires Ready(v, oid) && v.order.paymentMethod == BankTransfer && v.order.status == PurchaseValidation
    ensures Supersede(v, now) == Ok(w) && Moves(v.t, w.t, Free, v.order.lines)
    ensures w.order.status == Cancelled && w.order.lines == v.order.lines && w.issues == v.issues
  {
    var m := ReleaseStep(v, oid, now);
    assert m.order == v.order.(reservations := m.order.reservations) && m.issues == v.issues;
    hide ReleaseReservations, Ready, Moves, Rephased;
    w := Supersede(v, now).value;
  }

  lemma {:induction false} SupersedeNeeds(v: Locked, now: Time)
    requires Supersede(v, now).Ok?
    ensures v.order.paymentMethod == BankTransfer && v.order.status == PurchaseValidation
  {
    hide ReleaseReservations;
  }

  lemma {:induction false} ValidLines(db: Db, oid: nat)
    requires Valid(db) && oid < |db.orders|
    ensures LinesOk(db.orders[oid], |db.t.products|) && Sound(db.t)
  {
    assert OrderOk(db.orders[oid], oid, |db.t.products|, db.t.movements);
    hide Sound, HeaderOk;
  }

  /**
   * On a valid shop a reissue succeeds exactly when the order is a bank transfer under review, the
   * shop's bank details are ready and every product of the order is active. Stock is never the reason
   * it fails, since it first frees what it then holds again.
   */
  lemma {:induction false} ReissueWhen(db: Db, oid: nat, setup: Setup, now: Time, ttl: Time)
    requires Valid(db)
    ensures Reissue(db, oid, setup, now, ttl).Ok? <==> Reissuable(db, oid, setup)
  {
    hide Valid, Ready, Supersede, CreateOrder, Moves, PublishNew, AllActive, Sound, LinesOk;
    if oid < |db.orders| {
      var o := db.orders[oid];
      ValidLines(db, oid);
      OrderableAgain(o, db.t.products);
      if o.paymentMethod == BankTransfer && o.status == PurchaseValidation {
        ReadyAt(db, oid);
        var w := SupersedeFrees(LockedAt(db, oid), oid, now);
        FreedInStock(db.t, w.t, o.lines);
        CreateWhen(Commit(db, oid, w), InputsOf(o.lines), o.deliveryMode, BankTransfer, setup, now + ttl);
        hide Orderable, InStock;
        CreateAppends(Commit(db, oid, w), InputsOf(o.lines), o.deliveryMode, setup, now + ttl);
      } else if Supersede(LockedAt(db, oid), now).Ok? {
        SupersedeNeeds(LockedAt(db, oid), now);
      }
    }
  }

  lemma {:induction false} CreateAppends(db: Db, inputs: seq<LineInput>, mode: DeliveryMode, setup: Setup, expiresAt: Time)
    ensures var r := CreateOrder(db, inputs, mode, BankTransfer, setup, expiresAt);
            r.Ok? ==> |r.value.orders| == |db.orders| + 1
  {
    hide NormaliseLines, Transact, NewOrder;
  }

  /** The replacement sells the same quantities at the same prices, reserved and published; the old order is cancelled. */
  lemma {:induction false} ReissueReplaces(db: Db, oid: nat, setup: Setup, now: Time, ttl: Time)
    requires Valid(db) && Reissue(db, oid, setup, now, ttl).Ok?
    ensures oid < |db.orders|
    ensures var r := Reissue(db, oid, setup, now, ttl).value;
            var was := db.orders[oid];
            && |r.orders| == |db.orders| + 1
            && r.orders[oid].status == Cancelled
            && (forall k {:trigger r.orders[k]} :: 0 <= k < |db.orders| && k != oid ==> r.orders[k] == db.orders[k])
            && var o := r.orders[|db.orders|];
               && o.status == Reserved && o.publishedAt == Some(now) && o.total == was.total && o.deliveryMode == was.deliveryMode
               && o.paymentMethod == BankTransfer && o.expiresAt == now + ttl && o.payment.None? && o.buyer.None?
               && |o.lines| == |was.lines|
               && (forall i {:trigger o.lines[i]} :: 0 <= i < |o.lines| ==>
                     && o.lines[i].product == was.lines[i].product
                     && o.lines[i].quantity == was.lines[i].quantity
                     && o.lines[i].unitPrice == was.lines[i].unitPrice
                     && o.lines[i].unitCost == db.t.products[was.lines[i].product].purchasePrice)
  {
    hide Valid, Ready, Supersede, CreateOrder, Moves, Sound, LinesOk, Reissue, CleanedAll, LinesTotal, NewOrder, Steps;
    var v, created := ReissueParts(db, oid, setup, now, ttl);
    var was := db.orders[oid];
    SupersedeNeeds(LockedAt(db, oid), now);
    ReadyAt(db, oid);
    ValidLines(db, oid);
    var w := SupersedeFrees(LockedAt(db, oid), oid, now);
    MovesSoundly(db.t, w.t, was.lines);
    var lines, total := CreatedParts(Commit(db, oid, v), InputsOf(was.lines), was.deliveryMode, BankTransfer, setup, now + ttl);
    CopiedLines(db.t.products, was, lines);
    NewOrderIs(lines, total, was.deliveryMode, now + ttl, now);
  }

  lemma {:induction false} MovesSoundly(t: Tables, r: Tables, lines: seq<Line>)
    requires Moves(t, r, Free, lines)
    ensures Sound(r) && r.products == t.products
  {
  }

  lemma {:induction false} NewOrderIs(lines: seq<Line>, total: nat, mode: DeliveryMode, expiresAt: Time, now: Time)
    ensures var o := PublishNew(NewOrder(lines, total, mode, BankTransfer, expiresAt), now);
            && o.status == Reserved && o.publishedAt == Some(now) && o.total == total && o.deliveryMode == mode && o.lines == lines
               && o.paymentMethod == BankTransfer && o.expiresAt == expiresAt && o.payment.None? && o.buyer.None?
  {
  }

  lemma {:induction false} CopiedLines(products: seq<Product>, was: Order, lines: seq<Line>)
    requires LinesOk(was, |products|) && CleanedAll(products, InputsOf(was.lines), lines)
    ensures |lines| == |was.lines| && LinesTotal(lines) == was.total
    ensures forall i {:trigger lines[i]} :: 0 <= i < |lines| ==>
              && lines[i].product == was.lines[i].product < |products|
              && lines[i].quantity == was.lines[i].quantity
              && lines[i].unitPrice == was.lines[i].unitPrice
              && lines[i].unitCost == products[was.lines[i].product].purchasePrice
  {
    forall i {:trigger lines[i]} | 0 <= i < |lines|
      ensures lines[i].product == was.lines[i].product < |products|
      ensures lines[i].quantity == was.lines[i].quantity && lines[i].unitPrice == was.lines[i].unitPrice
      ensures lines[i].unitCost == products[was.lines[i].product].purchasePrice
    {
      assert CleanedLine(products, InputsOf(was.lines)[i], lines[i]);
    }
    hide CleanedAll, CleanedLine;
    SameTotals(was.lines, lines);
  }

  lemma {:induction false} SameTotals(a: seq<Line>, b: seq<Line>)
    requires |a| == |b| && forall i {:trigger b[i]} :: 0 <= i < |b| ==> b[i].quantity == a[i].quantity && b[i].unitPrice == a[i].unitPrice
    ensures LinesTotal(b) == LinesTotal(a)
  {
    if a != [] {
      var n := |a| - 1;
      assert forall i {:trigger b[..n][i]} :: 0 <= i < n ==> b[..n][i] == b[i] && a[..n][i] == a[i];
      SameTotals(a[..n], b[..n]);
      assert b[n].LineTotal() == a[n].LineTotal();
    }
  }

  // ----- Commands on one order

  /** An order can be cancelled exactly while it is active, and again when it already is. */
  lemma {:induction false} CancelWhen(v: Locked, oid: nat, now: Time)
    requires Ready(v, oid)
    ensures Cancel(v, now).Ok? <==> IsActive(v.order.status) || v.order.status == Cancelled
  {
    if IsActive(v.order.status) || v.order.status == Cancelled {
      hide Ready, Steps, Cancel;
      CancelSteps(v, oid, now);
    } else {
      hide ReleaseReservations;
    }
  }

  /** A proof that has arrived can be reviewed under review, and the same verdict can be given again. */
  lemma {:induction false} ReviewWhen(v: Locked, oid: nat, approved: bool, now: Time)
    requires Ready(v, oid)
    ensures ReviewProof(v, oid, approved, now).Ok? <==>
            && v.order.payment.Some? && v.order.payment.value.proof.Some? && v.order.payment.value.proof.value != ProofPending
            && (v.order.status == PurchaseValidation || v.order.status == if approved then Paid else Cancelled)
  {
    if v.order.status == PurchaseValidation {
      ReadyHeader(v, oid);
      hide Ready, Steps, ReviewProof, HeaderOk;
      UnderReview(v.order);
      ReviewMoves(v, oid, approved, now);
    } else {
      hide Ready, Approve, ReleaseReservations;
    }
  }

  /** A manual payment is accepted for its exact amount on an active order that is neither the provider's nor awaiting review, and again once paid. */
  lemma {:induction false} ConfirmWhen(v: Locked, oid: nat, amount: Option<int>, paidAt: Time, now: Time)
    requires Ready(v, oid)
    ensures ConfirmManual(v, oid, amount, paidAt, now).Ok? <==>
            && amount.Some?
            && ((v.order.status == Paid && v.order.payment.Some? && v.order.payment.value.status == PaymentApproved)
                || (&& IsActive(v.order.status) && v.order.paymentMethod != MercadoPago && amount.value == v.order.total
                    && !(v.order.paymentMethod == BankTransfer && v.order.status == PurchaseValidation)))
  {
    var p := PaymentOf(v.order, NoProvider);
    if IsActive(v.order.status) {
      ReadyHeader(v, oid);
      hide Ready, Steps, HeaderOk, Approve;
      NewPaymentRow(v.order);
      ApproveRow(v, oid, p, paidAt, None, now);
    } else {
      hide Ready, ConsumeReservations;
    }
  }

  lemma {:induction false} NewPaymentRow(o: Order)
    requires HeaderOk(o)
    ensures var p := PaymentOf(o, NoProvider); p.amount == o.total && 0 <= p.refundedAmount <= p.amount
  {
    hide Chain;
  }

  /** What makes the settlement of a believed snapshot raise. */
  predicate Unsettled(v: Locked, s: Snapshot) {
    || (s.status == SnapshotRefunded && s.refunded.Some? && s.refunded.value < 0)
    || (s.status == SnapshotApproved && v.order.status == Paid && Row(v).status != PaymentApproved)
  }

  lemma {:induction false} StatusWhen(v: Locked, oid: nat, s: Snapshot, event: nat, now: Time)
    requires Ready(v, oid) && v.order.payment.Some?
    ensures ApplyStatus(v, oid, s, event, now).Ok? <==> !Unsettled(v, s)
  {
    ReadyHeader(v, oid);
    if s.status == SnapshotRejected || s.status == SnapshotCancelled {
      hide Ready, Steps, ApplyStatus, HeaderOk;
      SnapshotRejectSteps(v, oid, s, event, now);
    } else if s.status == SnapshotApproved && IsActive(v.order.status) {
      hide Ready, Steps, Approve, HeaderOk;
      PaymentRow(v.order);
      ApproveAsIs(v, oid, if s.approvedAt.Some? then s.approvedAt.value else now, Some(event), now);
    } else {
      PaymentRow(v.order);
      NeverDraft(v, oid);
      hide Ready, Mark, HeaderOk, ReleaseReservations, ConsumeReservations;
    }
  }

  lemma {:induction false} ApproveAsIs(v: Locked, oid: nat, paidAt: Time, event: Option<nat>, now: Time)
    requires Ready(v, oid) && IsActive(v.order.status) && v.order.payment.Some?
    ensures Approve(v, oid, v.order.payment.value, paidAt, event, now).Ok?
  {
    ReadyHeader(v, oid);
    hide Ready, Steps, HeaderOk, Approve;
    PaymentRow(v.order);
    ApproveRow(v, oid, v.order.payment.value, paidAt, event, now);
    assert v.(order := WithPayment(v.order, v.order.payment.value)) == v;
  }

  /**
   * A webhook settles its order unless it is believed and either reports a negative refund or
   * approves a paid order whose payment is not approved (any more): those raise every time.
   */
  lemma {:induction false} SettleWhen(v: Locked, oid: nat, s: Snapshot, event: nat, now: Time)
    requires Ready(v, oid)
    ensures Settle(v, oid, s, event, now).Ok? <==> !(Believed(v, oid, s) && Unsettled(v, s))
  {
    ReadyHeader(v, oid);
    var u := Opened(v);
    var x := u.(order := WithPayment(u.order, Row(u).(hasProviderId := s.hasId)));
    OpenedReady(v, oid, s.hasId);
    hide Ready, HeaderOk, Mark, ApplyStatus, ClearIfResolved, ResolvePending, Unsettled;
    if Believed(v, oid, s) {
      StatusWhen(x, oid, s, event, now);
      SameUnsettled(v, x, s);
    }
  }

  lemma {:induction false} SameUnsettled(v: Locked, x: Locked, s: Snapshot)
    requires x.order.status == v.order.status && Row(x).status == Row(v).status
    ensures Unsettled(x, s) <==> Unsettled(v, s)
  {
  }

  lemma {:induction false} OpenedReady(v: Locked, oid: nat, hasId: bool)
    requires Ready(v, oid)
    ensures var u := Opened(v);
            var x := u.(order := WithPayment(u.order, Row(u).(hasProviderId := hasId)));
            Ready(x, oid) && Row(x).status == Row(v).status
  {
    ReadyHeader(v, oid);
    OpenedHeader(v.order, hasId);
    hide Ready, HeaderOk;
    ReadyPaid(v, oid, Row(v).(provider := MercadoPagoProvider, hasProviderId := hasId));
  }

  lemma {:induction false} OpenedHeader(o: Order, hasId: bool)
    requires HeaderOk(o)
    ensures PaymentOk(WithPayment(o, PaymentOf(o, MercadoPagoProvider).(provider := MercadoPagoProvider, hasProviderId := hasId)))
  {
    hide Chain;
  }

  lemma {:induction false} ContradictedRow(v: Locked, oid: nat, s: Snapshot, event: nat, now: Time)
    requires v.order.status == Paid && v.order.payment.Some? && Believed(v, oid, s) && s.status == SnapshotRejected
    ensures Settle(v, oid, s, event, now).Ok?
    ensures var w := Settle(v, oid, s, event, now).value;
            w.order.status == Paid && w.order.payment.Some? && w.order.payment.value.status == PaymentReconciliation
            && Row(w).provider == MercadoPagoProvider && Row(w).amount == Row(v).amount
  {
    hide Report, ResolvePending, Unresolved;
  }

  /**
   * How a paid order gets there: the provider first contradicts its payment and then approves it
   * again. The second snapshot raises, now and whenever it is retried.
   */
  lemma {:induction false} ContradictedThenApproved(v: Locked, oid: nat, s: Snapshot, event: nat, now: Time, other: nat, later: Time) returns (w: Locked)
    requires Ready(v, oid) && v.order.status == Paid && Believed(v, oid, s) && s.status == SnapshotRejected
    ensures Settle(v, oid, s, event, now) == Ok(w) && w.order.status == Paid
    ensures Settle(w, oid, s.(status := SnapshotApproved), other, later).Err?
  {
    ReadyHeader(v, oid);
    PaidRow(v.order);
    ContradictedRow(v, oid, s, event, now);
    w := Settle(v, oid, s, event, now).value;
    SettleSteps(v, oid, s, event, now);
    StepsReady(v, w, oid);
    SettleWhen(w, oid, s.(status := SnapshotApproved), other, later);
    hide Ready, Steps, Settle, HeaderOk;
  }

  lemma {:induction false} PaidRow(o: Order)
    requires HeaderOk(o) && o.status == Paid
    ensures o.payment.Some?
  {
    hide Chain;
  }
}
