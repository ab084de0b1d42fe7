/** Which error a refused command raises: the first complaint in the order in which the service looks. */
module Refusals {
  import opened Prelude
  import opened Inventory
  import opened Stock
  import opened Orders
  import opened Shop
  import opened Invariant
  import opened Preserve
  import opened Commands
  import opened Effects
  import Runs

  predicate Refused<T>(r: Result<T>, e: Error) {
    r == Err(e)
  }

  lemma {:induction false} BuyerRefusals(v: Locked, details: Option<Buyer>, now: Time)
    ensures PublishLink(v, now).Err? ==> Refused(PublishLink(v, now), TransitionNotAllowed)
    ensures SetBuyer(v, details, now).Err? ==>
              Refused(SetBuyer(v, details, now), if !InCart(v.order.status) then TransitionNotAllowed else ValidationError)
    ensures UpdateBuyer(v, details).Err? ==>
              var open := InCart(v.order.status) || v.order.status == PurchaseValidation || v.order.status == Paid;
              Refused(UpdateBuyer(v, details), if !open then TransitionNotAllowed else ValidationError)
    ensures ResendLink(v).Err? ==>
              var open := InCart(v.order.status) || v.order.status == PurchaseValidation;
              Refused(ResendLink(v), if !open then TransitionNotAllowed else BuyerEmailRequired)
    ensures SendOffer(v).Err? ==> Refused(SendOffer(v), TransitionNotAllowed)
  {
  }

  lemma {:induction false} PaymentRefusals(v: Locked, connected: bool, providerUp: bool, now: Time)
    ensures StartCheckout(v, connected, providerUp, now).Err? ==>
              Refused(StartCheckout(v, connected, providerUp, now),
                      if v.order.paymentMethod != MercadoPago then PaymentMethodNotAllowed
                      else if !InCart(v.order.status) then TransitionNotAllowed
                      else if v.order.buyer.None? || !v.order.buyer.value.hasEmail then BuyerDetailsRequired
                      else if !connected then PaymentConnectionRequired else ProviderUnavailable)
    ensures PrepareReceipt(v).Err? ==>
              Refused(PrepareReceipt(v),
                      if v.order.paymentMethod != BankTransfer then PaymentMethodNotAllowed
                      else if !InCart(v.order.status) then TransitionNotAllowed
                      else if v.order.buyer.None? || !v.order.buyer.value.deliveryReady then DeliveryDetailsRequired
                      else PaymentProofAlreadyUploaded)
    ensures MarkProofReady(v, now).Err? ==>
              Refused(MarkProofReady(v, now),
                      if v.order.payment.None? || v.order.payment.value.proof.None? then NotFound else TransitionNotAllowed)
  {
  }

  /** On a valid order a stock complaint is never among them, but for a restore without stock. */
  lemma {:induction false} SellerRefusals(v: Locked, oid: nat, approved: bool, amount: Option<int>, paidAt: Time, now: Time, ttl: Time)
    requires Ready(v, oid)
    ensures ReviewProof(v, oid, approved, now).Err? ==>
              var arrived := v.order.payment.Some? && v.order.payment.value.proof.Some? && v.order.payment.value.proof != Some(ProofPending);
              Refused(ReviewProof(v, oid, approved, now), if !arrived then PaymentProofRequired else TransitionNotAllowed)
    ensures ConfirmManual(v, oid, amount, paidAt, now).Err? ==>
              Refused(ConfirmManual(v, oid, amount, paidAt, now),
                      if amount.None? then ValidationError
                      else if v.order.paymentMethod == MercadoPago then PaymentMethodNotAllowed
                      else if v.order.paymentMethod == BankTransfer && v.order.status == PurchaseValidation then PaymentProofReviewRequired
                      else if amount != Some(v.order.total) then PaymentAmountMismatch
                      else TransitionNotAllowed)
    ensures Cancel(v, now).Err? ==> Refused(Cancel(v, now), TransitionNotAllowed)
    ensures Restore(v, now, ttl).Err? ==>
              Refused(Restore(v, now, ttl),
                      if v.order.status != Cancelled || RestoreTarget(v.order).Err? then TransitionNotAllowed else InsufficientStock)
  {
    hide *;
    ReviewRefusal(v, oid, approved, now);
    ConfirmRefusal(v, oid, amount, paidAt, now);
    CancelRefusal(v, oid, now);
    RestoreRefusal(v, oid, now, ttl);
  }

  lemma {:induction false} CancelRefusal(v: Locked, oid: nat, now: Time)
    requires Ready(v, oid)
    ensures Cancel(v, now).Err? ==> Refused(Cancel(v, now), TransitionNotAllowed)
  {
    hide Ready;
    Acceptance.CancelWhen(v, oid, now);
    hide ReleaseReservations;
  }

  lemma {:induction false} ReviewRefusal(v: Locked, oid: nat, approved: bool, now: Time)
    requires Ready(v, oid)
    ensures ReviewProof(v, oid, approved, now).Err? ==>
              var arrived := v.order.payment.Some? && v.order.payment.value.proof.Some? && v.order.payment.value.proof != Some(ProofPending);
              Refused(ReviewProof(v, oid, approved, now), if !arrived then PaymentProofRequired else TransitionNotAllowed)
  {
    hide Ready;
    Acceptance.ReviewWhen(v, oid, approved, now);
    hide ReleaseReservations, Approve;
  }

  lemma {:induction false} ConfirmRefusal(v: Locked, oid: nat, amount: Option<int>, paidAt: Time, now: Time)
    requires Ready(v, oid)
    ensures ConfirmManual(v, oid, amount, paidAt, now).Err? ==>
              Refused(ConfirmManual(v, oid, amount, paidAt, now),
                      if amount.None? then ValidationError
                      else if v.order.paymentMethod == MercadoPago then PaymentMethodNotAllowed
                      else if v.order.paymentMethod == BankTransfer && v.order.status == PurchaseValidation then PaymentProofReviewRequired
                      else if amount != Some(v.order.total) then PaymentAmountMismatch
                      else TransitionNotAllowed)
  {
    hide Ready;
    Acceptance.ConfirmWhen(v, oid, amount, paidAt, now);
    hide ConsumeReservations;
  }

  lemma {:induction false} ReopenRefusal(v: Locked, oid: nat, expiresAt: Time)
    requires Ready(v, oid) && v.order.status == Cancelled
    ensures ReopenReservations(v, expiresAt).Err? ==> Refused(ReopenReservations(v, expiresAt), InsufficientStock)
  {
    ReadyReleased(v, oid);
    ReadyCart(v, oid);
    CartOf(v.order, |v.t.products|, Released);
    GoodRequests(RequestsOf(v.order.reservations, Released), |v.t.products|);
    NoneIn(v.order);
    hide Ready, LinesOk, ReservationsOk, RequestsOf, ActAll, RequestError, Has, Requested;
  }

  lemma {:induction false} NoneIn(o: Order)
    requires ReservationsOk(o, Released)
    ensures !Has(o.reservations, Open)
  {
  }

  lemma {:induction false} RestoreRefusal(v: Locked, oid: nat, now: Time, ttl: Time)
    requires Ready(v, oid)
    ensures Restore(v, now, ttl).Err? ==>
              Refused(Restore(v, now, ttl),
                      if v.order.status != Cancelled || RestoreTarget(v.order).Err? then TransitionNotAllowed else InsufficientStock)
  {
    hide Ready, ReopenReservations, LastCancellation;
    if v.order.status == Cancelled {
      ReopenRefusal(v, oid, now + ttl);
      hide RestoreTarget;
      if RestoreTarget(v.order).Ok? && ReopenReservations(v, now + ttl).Ok? {
        TargetIsActive(v.order);
        var m := Reopened(v, oid, now, ttl);
      } else if RestoreTarget(v.order).Err? {
        TargetRefusal(v.order);
      }
    }
  }

  lemma {:induction false} TargetRefusal(o: Order)
    requires RestoreTarget(o).Err?
    ensures Refused(RestoreTarget(o), TransitionNotAllowed)
  {
    hide LastCancellation;
  }

  lemma {:induction false} RefundRefusals(v: Locked, oid: nat, connected: bool, providerUp: bool, now: Time)
    ensures Refund(v, oid, connected, providerUp, now).Err? ==>
              var refundable := v.order.status == Paid && v.order.payment.Some? && v.order.payment.value.status == PaymentApproved;
              Refused(Refund(v, oid, connected, providerUp, now),
                      if !refundable then TransitionNotAllowed else if !connected then PaymentConnectionRequired else ProviderUnavailable)
  {
    hide Mark;
  }

  // ----- Sales

  /** The complaint about the first line that is not sellable, or that takes the total over its limit. */
  lemma {:induction false} FirstComplaint(products: seq<Product>, inputs: seq<LineInput>) returns (i: nat)
    requires (forall k :: 0 <= k < |inputs| ==> inputs[k].product < |products|) && CleanLines(products, inputs).Err?
    ensures i < |inputs| && CleanLines(products, inputs[..i]).Ok?
    ensures !(Acceptance.Sellable(products, inputs[i]) && Acceptance.PricedTotal(inputs[..i + 1]) <= MAX_ORDER_TOTAL)
    ensures Refused(CleanLines(products, inputs),
                    if products[inputs[i].product].status != CatalogStatus.Active then ProductNotAvailable else ValidationError)
  {
    var n := |inputs| - 1;
    if CleanLines(products, inputs[..n]).Err? {
      i := FirstComplaint(products, inputs[..n]);
      assert inputs[..n][..i] == inputs[..i] && inputs[..n][..i + 1] == inputs[..i + 1];
    } else {
      i := n;
      assert inputs[..n + 1] == inputs;
      LineComplaint(products, inputs[n]);
      Acceptance.CleanLinesWhen(products, inputs[..n]);
      Acceptance.CleanedPrice(products, inputs[n]);
      hide CleanLine, Acceptance.Sellable, Acceptance.Priced;
    }
  }

  lemma {:induction false} LineComplaint(products: seq<Product>, input: LineInput)
    requires input.product < |products|
    ensures CleanLine(products, input).Err? ==>
              Refused(CleanLine(products, input),
                      if products[input.product].status != CatalogStatus.Active then ProductNotAvailable else ValidationError)
    ensures products[input.product].status != CatalogStatus.Active ==> CleanLine(products, input).Err?
  {
  }

  /** A sale that is refused: first for its lines, then for how it is paid, and last for the stock. */
  lemma {:induction false} SaleRefusals(db: Db, inputs: seq<LineInput>, mode: DeliveryMode, payBy: PaymentMethod, setup: Setup, expiresAt: Time)
    requires CreateOrder(db, inputs, mode, payBy, setup, expiresAt).Err?
    ensures var products := db.t.products;
            var r := CreateOrder(db, inputs, mode, payBy, setup, expiresAt);
            if inputs == [] then Refused(r, ValidationError)
            else if exists i :: 0 <= i < |inputs| && inputs[i].product >= |products| then Refused(r, NotFound)
            else if CleanLines(products, inputs).Err? then r.error == CleanLines(products, inputs).error
            else if !Acceptance.PayableBy(payBy, setup) then
              Refused(r, if payBy == BankTransfer then BankDetailsRequired else PaymentConnectionRequired)
            else Refused(r, InsufficientStock)
  {
    hide Transact, CleanLines, NewOrder;
    if NormaliseLines(db.t.products, inputs).Ok? {
      var lines := NormaliseLines(db.t.products, inputs).value.0;
      Acceptance.CleanedOf(db.t.products, inputs);
      Acceptance.CleanedOk(db.t.products, inputs, lines);
      HoldRefusal(db.t, lines);
    }
  }

  /** A cart of good lines can only be refused for stock. */
  lemma {:induction false} HoldRefusal(t: Tables, lines: seq<Line>)
    requires lines != [] && forall i {:trigger lines[i]} :: 0 <= i < |lines| ==> LineOk(lines[i], |t.products|)
    ensures Transact(t, Hold, LineRequests(lines)).Err? ==> Refused(Transact(t, Hold, LineRequests(lines)), InsufficientStock)
  {
    var requests := LineRequests(lines);
    assert forall r :: r in requests ==> r.product < |t.products| && r.quantity > 0;
    GoodRequests(requests, |t.products|);
    hide ActAll, RequestError, Requested;
  }

  /** A reissue of a valid shop that is refused: for the order, then for a product no longer on sale, and last for missing bank details; never for stock. */
  lemma {:induction false} ReissueRefusals(db: Db, oid: nat, setup: Setup, now: Time, ttl: Time)
    requires Valid(db) && Reissue(db, oid, setup, now, ttl).Err?
    ensures Refused(Reissue(db, oid, setup, now, ttl),
                    if oid >= |db.orders| then NotFound
                    else if db.orders[oid].paymentMethod != BankTransfer then PaymentMethodNotAllowed
                    else if db.orders[oid].status != PurchaseValidation then TransitionNotAllowed
                    else if !Acceptance.AllActive(db.t.products, db.orders[oid].lines) then ProductNotAvailable
                    else BankDetailsRequired)
  {
    hide Valid, Ready, Supersede, CreateOrder, Moves, PublishNew, Acceptance.AllActive, Sound, LinesOk;
    if oid < |db.orders| {
      var v, o := LockedAt(db, oid), db.orders[oid];
      if o.paymentMethod == BankTransfer && o.status == PurchaseValidation {
        Acceptance.ValidLines(db, oid);
        Runs.ReadyAt(db, oid);
        var w := Acceptance.SupersedeFrees(v, oid, now);
        Acceptance.FreedInStock(db.t, w.t, o.lines);
        var after := Commit(db, oid, w);
        Acceptance.CreateWhen(after, InputsOf(o.lines), o.deliveryMode, BankTransfer, setup, now + ttl);
        Acceptance.CreateAppends(after, InputsOf(o.lines), o.deliveryMode, setup, now + ttl);
        OldLinesRefusal(after, o, setup, now + ttl);
      } else {
        SupersedeRefusal(v, now);
      }
    }
  }

  lemma {:induction false} SupersedeRefusal(v: Locked, now: Time)
    requires v.order.paymentMethod != BankTransfer || v.order.status != PurchaseValidation
    ensures Refused(Supersede(v, now), if v.order.paymentMethod != BankTransfer then PaymentMethodNotAllowed else TransitionNotAllowed)
  {
    hide ReleaseReservations;
  }

  lemma {:induction false} OldLinesRefusal(db: Db, o: Order, setup: Setup, expiresAt: Time)
    requires LinesOk(o, |db.t.products|) && Acceptance.InStock(db.t, InputsOf(o.lines))
    requires CreateOrder(db, InputsOf(o.lines), o.deliveryMode, BankTransfer, setup, expiresAt).Err?
    ensures Refused(CreateOrder(db, InputsOf(o.lines), o.deliveryMode, BankTransfer, setup, expiresAt),
                    if !Acceptance.AllActive(db.t.products, o.lines) then ProductNotAvailable else BankDetailsRequired)
  {
    var inputs := InputsOf(o.lines);
    Acceptance.OrderableAgain(o, db.t.products);
    Acceptance.NormaliseWhen(db.t.products, inputs);
    Acceptance.CreateWhen(db, inputs, o.deliveryMode, BankTransfer, setup, expiresAt);
    SaleRefusals(db, inputs, o.deliveryMode, BankTransfer, setup, expiresAt);
    assert forall i {:trigger o.lines[i]} :: 0 <= i < |o.lines| ==> LineOk(o.lines[i], |db.t.products|);
    assert forall i :: 0 <= i < |inputs| ==> inputs[i].product == o.lines[i].product < |db.t.products|;
    hide LinesOk, Acceptance.InStock, Acceptance.Orderable, CreateOrder, CleanLines, Acceptance.AllActive;
    if CleanLines(db.t.products, inputs).Err? {
      InactiveComplaint(o, db.t.products);
    }
  }

  lemma {:induction false} InactiveComplaint(o: Order, products: seq<Product>)
    requires LinesOk(o, |products|) && forall k :: 0 <= k < |o.lines| ==> o.lines[k].product < |products|
    requires CleanLines(products, InputsOf(o.lines)).Err?
    ensures Refused(CleanLines(products, InputsOf(o.lines)), ProductNotAvailable) && !Acceptance.AllActive(products, o.lines)
  {
    var inputs := InputsOf(o.lines);
    hide CleanLines;
    var i := FirstComplaint(products, inputs);
    assert LineOk(o.lines[i], |products|);
    Acceptance.SamePrices(o.lines);
    PricedPrefix(inputs, i + 1);
    assert !(products[inputs[i].product].status == CatalogStatus.Active);
    assert o.lines[i].product == inputs[i].product;
  }

  lemma {:induction false} PricedPrefix(inputs: seq<LineInput>, n: nat)
    requires n <= |inputs|
    ensures Acceptance.PricedTotal(inputs[..n]) <= Acceptance.PricedTotal(inputs)
  {
    if n < |inputs| {
      PricedPrefix(inputs[..|inputs| - 1], n);
      assert inputs[..|inputs| - 1][..n] == inputs[..n];
    } else {
      assert inputs[..n] == inputs;
    }
  }

  // ----- Catalogue

  lemma {:induction false} CatalogueRefusals(t: Tables, p: nat, product: Product, initial: int)
    ensures CreateProduct(t, product, initial).Err? ==>
              Refused(CreateProduct(t, product, initial),
                      if product.status == Archived || !(0 <= initial <= 1_000_000_000) then ValidationError else ProductNameTaken)
    ensures ArchiveProduct(t, p).Err? ==>
              Refused(ArchiveProduct(t, p), if p >= |t.products| then NotFound else ProductHasActiveReservations)
    ensures RestoreProduct(t, p).Err? ==>
              Refused(RestoreProduct(t, p), if p >= |t.products| then NotFound else ProductNameTaken)
    ensures UpdateProduct(t, p, product.name, product.status, product.purchasePrice).Err? ==>
              Refused(UpdateProduct(t, p, product.name, product.status, product.purchasePrice),
                      if p >= |t.products| then NotFound
                      else if t.products[p].status == Archived then ProductArchived
                      else if product.status == Archived then ValidationError else ProductNameTaken)
  {
    hide Put, Post, NameTaken;
  }
}
