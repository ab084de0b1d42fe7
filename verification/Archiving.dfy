/** Archived products and reservations: who keeps "an archived product has nothing reserved", and the one command that breaks it. */
module Archiving {
  import opened Prelude
  import opened Inventory
  import opened Stock
  import opened Orders
  import opened Shop
  import opened Invariant
  import opened Preserve
  import opened Commands
  import opened Catalogue
  import opened Runs
  import opened History
  import opened Snapshots
  import opened RoundTrip
  import opened Samples

  /** No archived product has a reserved unit. */
  ghost predicate Unclaimed(t: Tables) {
    forall p: nat {:trigger t.Bal(p)} :: p < |t.products| && t.products[p].status == Archived ==> t.Bal(p).reserved == 0
  }

  predicate NamesArchived(products: seq<Product>, lines: seq<Line>) {
    exists i :: 0 <= i < |lines| && lines[i].product < |products| && products[lines[i].product].status == Archived
  }

  /** The same products, and no product claimed more than before. */
  ghost predicate NoNewClaims(t: Tables, r: Tables) {
    && r.products == t.products
    && forall p: nat {:trigger r.Bal(p)} :: 0 <= r.Bal(p).reserved <= t.Bal(p).reserved
  }

  lemma {:induction false} FewerClaims(t: Tables, r: Tables)
    requires Unclaimed(t) && NoNewClaims(t, r)
    ensures Unclaimed(r)
  {
    forall p: nat | p < |r.products| && r.products[p].status == Archived ensures r.Bal(p).reserved == 0 {
      assert t.Bal(p).reserved == 0;
    }
  }

  // ----- Holding lines

  lemma {:induction false} UnnamedQty(products: seq<Product>, lines: seq<Line>, p: nat)
    requires !NamesArchived(products, lines) && p < |products| && products[p].status == Archived
    ensures LineQty(lines, p) == 0
  {
    if LineQty(lines, p) > 0 {
      LineQtyOccurs(lines, p);
    }
  }

  /** A held cart claims an archived product exactly when one of its lines names one. */
  lemma {:induction false} HeldCart(t: Tables, r: Tables, lines: seq<Line>)
    requires Unclaimed(t) && Moves(t, r, Hold, lines)
    requires forall i {:trigger lines[i]} :: 0 <= i < |lines| ==> lines[i].quantity > 0
    ensures Unclaimed(r) <==> !NamesArchived(t.products, lines)
  {
    hide Sound, LineQty;
    if NamesArchived(t.products, lines) {
      var i :| 0 <= i < |lines| && lines[i].product < |t.products| && t.products[lines[i].product].status == Archived;
      LineQtyPositive(lines, i);
      assert r.Bal(lines[i].product).reserved == t.Bal(lines[i].product).reserved + LineQty(lines, lines[i].product);
    } else {
      forall p: nat | p < |r.products| && r.products[p].status == Archived ensures r.Bal(p).reserved == 0 {
        UnnamedQty(t.products, lines, p);
        assert t.Bal(p).reserved == 0;
      }
    }
  }

  // ----- Restoring

  lemma {:induction false} PositiveLines(v: Locked, oid: nat)
    requires Ready(v, oid)
    ensures forall i {:trigger v.order.lines[i]} :: 0 <= i < |v.order.lines| ==> v.order.lines[i].quantity > 0
  {
    assert LinesOk(v.order, |v.t.products|);
    hide Sound, OrderOk;
  }

  /** A successful restore breaks the property exactly when the order names an archived product. */
  lemma {:induction false} RestoreClaims(v: Locked, oid: nat, now: Time, ttl: Time)
    requires Ready(v, oid) && v.order.status == Cancelled && Unclaimed(v.t) && Restore(v, now, ttl).Ok?
    ensures Unclaimed(Restore(v, now, ttl).value.t) <==> !NamesArchived(v.t.products, v.order.lines)
  {
    PositiveLines(v, oid);
    hide *;
    RestoreNeeds(v, now, ttl);
    var m := Reopened(v, oid, now, ttl);
    HeldCart(v.t, m.t, v.order.lines);
  }

  // ----- Every other order command

  lemma {:induction false} CancelledIsInert(v: Locked, oid: nat, s: Snapshot)
    requires v.order.status == Cancelled
    ensures Inert(v, oid, s)
  {
    hide CanConsume, ReleaseReservations, Believed;
  }

  /** Only a restore takes an order out of CANCELLED. */
  lemma {:induction false} StaysCancelled(v: Locked, oid: nat, c: Command)
    requires v.order.status == Cancelled && !c.DoRestore? && Perform(v, oid, c).Ok?
    ensures Perform(v, oid, c).value.order.status == Cancelled
  {
    match c {
      case DoSettle(s, event, now) =>
        CancelledIsInert(v, oid, s);
        hide Settle, Inert;
        InertKeeps(v, oid, s, Arrival(event, false, now));
      case DoFailWebhook(event) => MarkCore(v, oid, WebhookPending, Some(event));
      case DoConfirmManual(amount, paidAt, now) => hide Approve;
      case _ =>
    }
  }

  lemma {:induction false} StaysClosed(v: Locked, w: Locked, oid: nat)
    requires Ready(v, oid) && Steps(v, w, oid) && Extends(v.order, w.order)
    requires v.order.status == Paid || v.order.status == Refunded || v.order.status == Expired
    ensures PhaseFor(w.order.status) != Open
  {
    assert Chain(v.order.timeline, v.order.status) && Chain(w.order.timeline, w.order.status);
    hide Ready, Steps, Chain;
    if v.order.status == Expired {
      ChainTrapped(v.order.timeline, w.order.timeline, v.order.status, w.order.status, {Expired});
    } else {
      ChainTrapped(v.order.timeline, w.order.timeline, v.order.status, w.order.status, {Paid, Refunded});
    }
  }

  predicate Reopens(v: Locked, c: Command) {
    c.DoRestore? && v.order.status == Cancelled
  }

  /** An order that holds nothing holds nothing after any other command. */
  lemma {:induction false} NotReopened(v: Locked, oid: nat, c: Command)
    requires Ready(v, oid) && !Reopens(v, c) && Perform(v, oid, c).Ok?
    ensures PhaseFor(v.order.status) != Open ==> PhaseFor(Perform(v, oid, c).value.order.status) != Open
  {
    var w := Perform(v, oid, c).value;
    if v.order.status == Cancelled {
      hide Ready, Perform;
      StaysCancelled(v, oid, c);
    } else {
      hide Ready, Perform, Steps, Extends;
      PerformSteps(v, oid, c);
      PerformExtends(v, oid, c);
      ReadyHeader(v, oid);
      hide HeaderOk;
      if v.order.status == Paid || v.order.status == Refunded || v.order.status == Expired {
        StaysClosed(v, w, oid);
      } else {
        NeverDraft(v, oid);
      }
    }
  }

  /** What an order in its phase claims. */
  lemma {:induction false} OrderClaim(o: Order, oid: nat, products: nat, movements: seq<Movement>, p: nat)
    requires OrderOk(o, oid, products, movements)
    ensures QtyIn(o.reservations, Open, p) == if PhaseFor(o.status) == Open then LineQty(o.lines, p) else 0
  {
    assert ReservationsOk(o, PhaseFor(o.status));
    hide OrderOk;
    ClaimOf(o, PhaseFor(o.status), Open);
  }

  lemma {:induction false} StepClaims(v: Locked, w: Locked, oid: nat)
    requires Ready(v, oid) && Steps(v, w, oid) && w.order.lines == v.order.lines
    requires PhaseFor(v.order.status) != Open ==> PhaseFor(w.order.status) != Open
    ensures NoNewClaims(v.t, w.t)
  {
    assert OrderOk(v.order, oid, |v.t.products|, v.t.movements) && OrderOk(w.order, oid, |w.t.products|, w.t.movements);
    assert Sound(w.t);
    SoundReserved(w.t);
    hide OrderOk, Sound;
    forall p: nat ensures 0 <= w.t.Bal(p).reserved <= v.t.Bal(p).reserved {
      OrderClaim(v.order, oid, |v.t.products|, v.t.movements, p);
      OrderClaim(w.order, oid, |w.t.products|, w.t.movements, p);
      assert w.t.Bal(p).reserved - QtyIn(w.order.reservations, Open, p)
             == v.t.Bal(p).reserved - QtyIn(v.order.reservations, Open, p);
    }
  }

  lemma {:induction false} SoundReserved(t: Tables)
    requires Sound(t)
    ensures forall p: nat {:trigger t.Bal(p)} :: 0 <= t.Bal(p).reserved <= t.Bal(p).onHand
  {
  }

  lemma {:induction false} PerformClaims(v: Locked, oid: nat, c: Command)
    requires Ready(v, oid) && !Reopens(v, c) && Perform(v, oid, c).Ok?
    ensures NoNewClaims(v.t, Perform(v, oid, c).value.t)
  {
    PerformSteps(v, oid, c);
    PerformExtends(v, oid, c);
    NotReopened(v, oid, c);
    hide Ready, Perform, Steps, PhaseFor, NoNewClaims, Reopens;
    StepClaims(v, Perform(v, oid, c).value, oid);
  }

  // ----- Every command

  /** The guards of a restore, before the call: a seller's cancellation to return to, and the stock for it. */
  ghost predicate Restorable(db: Db, oid: nat) {
    && oid < |db.orders| && db.orders[oid].status == Cancelled
    && RestoreTarget(db.orders[oid]).Ok?
    && AllowsOrder(db.t, Hold, db.orders[oid].lines)
  }

  /** A restore that is possible, of an order that names an archived product. */
  ghost predicate ArchivedRestore(db: Db, a: Action) {
    && a.ChangeOrder? && a.command.DoRestore?
    && Restorable(db, a.oid)
    && NamesArchived(db.t.products, db.orders[a.oid].lines)
  }

  /** On a valid shop those guards are exactly what a restore of a cancelled order needs. */
  lemma {:induction false} RestorableWhen(db: Db, oid: nat, now: Time, ttl: Time)
    requires Valid(db) && oid < |db.orders| && db.orders[oid].status == Cancelled
    ensures Attempt(db, ChangeOrder(oid, DoRestore(now, ttl))).Ok? <==> Restorable(db, oid)
  {
    ReadyAt(db, oid);
    hide Valid, Ready, Restore, RestoreTarget, AllowsOrder;
    RestoreWhen(LockedAt(db, oid), oid, now, ttl);
  }

  lemma {:induction false} OrderCommandClaims(db: Db, oid: nat, c: Command)
    requires Valid(db) && Unclaimed(db.t) && OnOrder(db, oid, c).Ok?
    ensures Unclaimed(OnOrder(db, oid, c).value.t) <==> !ArchivedRestore(db, ChangeOrder(oid, c))
  {
    ReadyAt(db, oid);
    var v := LockedAt(db, oid);
    if Reopens(v, c) {
      hide Valid, Ready, Unclaimed, Restore, RestoreTarget, AllowsOrder;
      RestorableWhen(db, oid, c.now, c.ttl);
      RestoreClaims(v, oid, c.now, c.ttl);
    } else {
      hide Valid, Ready, Unclaimed, Perform, NoNewClaims, RestoreTarget, AllowsOrder;
      PerformClaims(v, oid, c);
      FewerClaims(db.t, Perform(v, oid, c).value.t);
    }
  }

  lemma {:induction false} CleanedIsActive(products: seq<Product>, inputs: seq<LineInput>, lines: seq<Line>)
    requires CleanedAll(products, inputs, lines)
    ensures !NamesArchived(products, lines)
    ensures forall i {:trigger lines[i]} :: 0 <= i < |lines| ==> lines[i].quantity > 0
  {
  }

  /** A new sale takes active products only. */
  lemma {:induction false} CreateClaims(db: Db, inputs: seq<LineInput>, mode: DeliveryMode, payBy: PaymentMethod, setup: Setup, expiresAt: Time)
    requires Valid(db) && Unclaimed(db.t) && CreateOrder(db, inputs, mode, payBy, setup, expiresAt).Ok?
    ensures Unclaimed(CreateOrder(db, inputs, mode, payBy, setup, expiresAt).value.t)
  {
    ValidParts(db);
    hide Valid, Sound, Unclaimed, CreateOrder, Moves, LinesTotal, HeldOk, OrdersOk, Referenced;
    var lines, total := CreatedParts(db, inputs, mode, payBy, setup, expiresAt);
    CleanedIsActive(db.t.products, inputs, lines);
    hide CleanedAll;
    HeldCart(db.t, CreateOrder(db, inputs, mode, payBy, setup, expiresAt).value.t, lines);
  }

  lemma {:induction false} SupersedeClaims(v: Locked, oid: nat, now: Time)
    requires Ready(v, oid) && Supersede(v, now).Ok?
    ensures NoNewClaims(v.t, Supersede(v, now).value.t)
  {
    SupersedeSteps(v, oid, now);
    SupersedeExtends(v, now);
    assert PhaseFor(v.order.status) == Open by { hide ReleaseReservations; }
    hide Ready, Steps, Supersede;
    StepClaims(v, Supersede(v, now).value, oid);
  }

  lemma {:induction false} ReissueClaims(db: Db, oid: nat, setup: Setup, now: Time, ttl: Time)
    requires Valid(db) && Unclaimed(db.t) && Reissue(db, oid, setup, now, ttl).Ok?
    ensures Unclaimed(Reissue(db, oid, setup, now, ttl).value.t)
  {
    hide Valid, Unclaimed, NoNewClaims, Steps, Ready, Supersede, CreateOrder, Reissue, PublishNew;
    var v, created := ReissueParts(db, oid, setup, now, ttl);
    ReadyAt(db, oid);
    SupersedeClaims(LockedAt(db, oid), oid, now);
    SupersedeSteps(LockedAt(db, oid), oid, now);
    CommitValid(db, oid, v);
    FewerClaims(db.t, v.t);
    CreateClaims(Commit(db, oid, v), InputsOf(db.orders[oid].lines), db.orders[oid].deliveryMode, BankTransfer, setup, now + ttl);
  }

  /** No product beside the archived one changes its status to archived, and that one has nothing reserved. */
  lemma {:induction false} StockClaims(db: Db, a: Action)
    requires Valid(db) && Unclaimed(db.t) && Attempt(db, a).Ok?
    requires !a.CreateSale? && !a.ChangeOrder? && !a.ReissueSale?
    ensures Unclaimed(Attempt(db, a).value.t)
  {
    var r := Attempt(db, a).value.t;
    ValidParts(db);
    SoundReserved(db.t);
    StockActionBeside(db, a);
    BesideReserved(db.t, r);
    StatusAfter(db, a);
    hide Valid, Sound, Beside, Attempt;
    forall p: nat | p < |r.products| && r.products[p].status == Archived ensures r.Bal(p).reserved == 0 {
      assert r.Bal(p).reserved == db.t.Bal(p).reserved;
    }
  }

  lemma {:induction false} BesideReserved(t: Tables, r: Tables)
    requires Beside(t, r)
    ensures forall p: nat {:trigger r.Bal(p)} :: r.Bal(p).reserved == t.Bal(p).reserved
  {
    hide Sound;
  }

  lemma {:induction false} StatusAfter(db: Db, a: Action)
    requires !a.CreateSale? && !a.ChangeOrder? && !a.ReissueSale? && Attempt(db, a).Ok?
    ensures var r := Attempt(db, a).value.t;
            forall p: nat :: p < |r.products| && r.products[p].status == Archived ==>
              (p < |db.t.products| && db.t.products[p].status == Archived) || db.t.Bal(p).reserved <= 0
  {
    hide Alerts.Sync, Alerts.Desired, NameTaken, ResyncAll;
  }

  /** Of all commands only a restore of an order that names an archived product breaks the property, and it always does. */
  lemma {:induction false} AttemptClaims(db: Db, a: Action)
    requires Valid(db) && Unclaimed(db.t) && Attempt(db, a).Ok?
    ensures Unclaimed(Attempt(db, a).value.t) <==> !ArchivedRestore(db, a)
  {
    match a {
      case CreateSale(inputs, mode, payBy, setup, expiresAt) =>
        hide Valid, Unclaimed, CreateOrder;
        CreateClaims(db, inputs, mode, payBy, setup, expiresAt);
      case ChangeOrder(oid, command) =>
        hide Valid, Unclaimed, OnOrder;
        OrderCommandClaims(db, oid, command);
      case ReissueSale(oid, setup, now, ttl) =>
        hide Valid, Unclaimed, Reissue;
        ReissueClaims(db, oid, setup, now, ttl);
      case _ =>
        hide Valid, Unclaimed, Attempt;
        StockClaims(db, a);
    }
  }

  lemma {:induction false} RestorableStatus(db: Db, oid: nat)
    requires Restorable(db, oid)
    ensures oid < |db.orders| && db.orders[oid].status == Cancelled
  {
  }

  lemma {:induction false} StepClaimsOnce(db: Db, a: Action)
    requires Valid(db) && Unclaimed(db.t)
    ensures Unclaimed(Step(db, a).t) <==> !ArchivedRestore(db, a)
  {
    hide Valid, Unclaimed, Attempt, Restorable;
    if Attempt(db, a).Ok? {
      AttemptClaims(db, a);
    } else if ArchivedRestore(db, a) {
      RestorableStatus(db, a.oid);
      RestorableWhen(db, a.oid, a.command.now, a.command.ttl);
    }
  }

  /** The shop after the first k commands. */
  function Prefix(db: Db, actions: seq<Action>, k: nat): Db
    requires k <= |actions|
  {
    Run(db, actions[..k])
  }

  lemma {:induction false} PrefixNext(db: Db, actions: seq<Action>, k: nat)
    requires k < |actions|
    ensures Prefix(db, actions, k + 1) == Step(Prefix(db, actions, k), actions[k])
  {
    hide Step;
    RunMore(db, actions[..k], actions[k]);
    assert actions[..k] + [actions[k]] == actions[..k + 1];
  }

  lemma {:induction false} CleanPrefix(db: Db, actions: seq<Action>, k: nat)
    requires Valid(db) && Unclaimed(db.t) && k <= |actions|
    requires forall j {:trigger actions[j]} :: 0 <= j < k ==> !ArchivedRestore(Prefix(db, actions, j), actions[j])
    ensures Unclaimed(Prefix(db, actions, k).t)
  {
    hide Valid, Unclaimed, ArchivedRestore, Step;
    if k == 0 {
      assert actions[..0] == [];
      assert Prefix(db, actions, 0) == db;
    } else {
      CleanPrefix(db, actions, k - 1);
      PrefixNext(db, actions, k - 1);
      RunValid(db, actions[..k - 1]);
      hide Prefix;
      StepClaimsOnce(Prefix(db, actions, k - 1), actions[k - 1]);
    }
  }

  /**
   * Over any run from a valid shop without claimed archived products: nothing archived is ever
   * reserved if and only if at no point of the run a restore is asked for that is possible and names an
   * archived product.
   */
  lemma {:induction false} ArchivedStaysFree(db: Db, actions: seq<Action>)
    requires Valid(db) && Unclaimed(db.t)
    ensures (forall k {:trigger Prefix(db, actions, k)} :: 0 <= k <= |actions| ==> Unclaimed(Prefix(db, actions, k).t))
            <==> (forall k {:trigger actions[k]} :: 0 <= k < |actions| ==> !ArchivedRestore(Prefix(db, actions, k), actions[k]))
  {
    hide Valid, Unclaimed, ArchivedRestore, Step;
    if forall k {:trigger actions[k]} :: 0 <= k < |actions| ==> !ArchivedRestore(Prefix(db, actions, k), actions[k]) {
      forall k {:trigger Prefix(db, actions, k)} | 0 <= k <= |actions| ensures Unclaimed(Prefix(db, actions, k).t) {
        CleanPrefix(db, actions, k);
      }
    }
    if forall k {:trigger Prefix(db, actions, k)} :: 0 <= k <= |actions| ==> Unclaimed(Prefix(db, actions, k).t) {
      forall k {:trigger actions[k]} | 0 <= k < |actions| ensures !ArchivedRestore(Prefix(db, actions, k), actions[k]) {
        PrefixNext(db, actions, k);
        RunValid(db, actions[..k]);
        StepClaimsOnce(Prefix(db, actions, k), actions[k]);
        assert Unclaimed(Prefix(db, actions, k + 1).t);
      }
    }
  }

  /** In a run of a new shop nothing archived is ever reserved exactly when the run makes no such restore. */
  lemma {:induction false} ArchivedInNewShop(threshold: nat, actions: seq<Action>)
    ensures var db := EmptyShop(threshold);
            (forall k {:trigger Prefix(db, actions, k)} :: 0 <= k <= |actions| ==> Unclaimed(Prefix(db, actions, k).t))
            <==> (forall k {:trigger actions[k]} :: 0 <= k < |actions| ==> !ArchivedRestore(Prefix(db, actions, k), actions[k]))
  {
    EmptyValid(threshold);
    assert Unclaimed(EmptyShop(threshold).t);
    hide Valid, Unclaimed, ArchivedRestore, Prefix;
    ArchivedStaysFree(EmptyShop(threshold), actions);
  }

  // ----- The property does fail

  function CancelOne(): Action { ChangeOrder(0, DoCancel(0)) }
  function RestoreOne(): Action { ChangeOrder(0, DoRestore(0, 0)) }

  function SoldOrder(): Order {
    NewOrder([SoldLine], 1000, Pickup, Cash, 0)
  }

  lemma {:induction false} CancelSample(db: Db)
    requires Valid(db) && db.t.products == [Sample] && db.t.Bal(0).reserved == 1 && db.orders == [SoldOrder()]
    ensures var r := Step(db, CancelOne());
            && Valid(r) && r.t.products == [Sample] && r.t.Bal(0).reserved == 0 && r.t.Bal(0).onHand >= 1
            && r.orders == [CancelledOrder(SoldOrder(), 0)]
  {
    hide Valid, Ready, Moves, Sound, Cancel, CancelledOrder;
    ReadyAt(db, 0);
    var w := CancelIs(LockedAt(db, 0), 0, 0);
    ReleasedOne(db.t, w.t);
    ValidParts(db);
    hide HeldOk, OrdersOk, Referenced;
    SoundReserved(db.t);
    StillAvailable(db.t, w.t, [SoldLine]);
    hide AllowsOrder;
    OrderCommandValid(db, 0, DoCancel(0));
  }

  /** Cancelling, archiving and restoring the only order of a sample shop. */
  lemma {:induction false} BreaksOn(db: Db)
    requires Valid(db) && db.t.products == [Sample] && db.t.Bal(0).reserved == 1 && db.orders == [SoldOrder()]
    ensures var r := Run(db, [CancelOne(), Archive(0), RestoreOne()]);
            r.t.products == [Sample.(status := Archived)] && r.t.Bal(0).reserved == 1 && !Unclaimed(r.t)
  {
    hide Valid, Step, Unclaimed, CancelledOrder, SoldOrder, Run;
    CancelSample(db);
    ArchiveSample(Step(db, CancelOne()));
    RestoreSample(Step(Step(db, CancelOne()), Archive(0)));
    ThreeSteps(db, CancelOne(), Archive(0), RestoreOne());
  }

  lemma {:induction false} ReleasedOne(t: Tables, r: Tables)
    requires Moves(t, r, Free, [SoldLine])
    ensures r.products == t.products && r.Bal(0).reserved == t.Bal(0).reserved - 1
  {
    hide Sound;
    OneLineQty(0);
  }

  lemma {:induction false} ArchiveSample(db: Db)
    requires Valid(db) && db.t.products == [Sample] && db.t.Bal(0).reserved == 0
    ensures var r := Step(db, Archive(0));
            Valid(r) && r.t.products == [Sample.(status := Archived)] && r.t.Bal(0) == db.t.Bal(0) && r.orders == db.orders
  {
    hide Valid, Alerts.Sync, Alerts.Desired;
    assert Attempt(db, Archive(0)).Ok?;
    AttemptValid(db, Archive(0));
  }

  lemma {:induction false} SampleAllowed(t: Tables)
    requires t.Bal(0).onHand >= 1 && t.Bal(0).reserved == 0
    ensures AllowsOrder(t, Hold, [SoldLine])
  {
    forall p: nat ensures LineQty([SoldLine], p) > 0 ==> Allowed(Hold, t.Bal(p), LineQty([SoldLine], p)) {
      OneLineQty(p);
    }
  }

  lemma {:induction false} CancelledSample()
    ensures CancelledOrder(SoldOrder(), 0).lines == [SoldLine] && CancelledOrder(SoldOrder(), 0).status == Cancelled
    ensures RestoreTarget(CancelledOrder(SoldOrder(), 0)).Ok?
  {
    CancelledTarget(SoldOrder(), 0);
  }

  lemma {:induction false} RestoreHolds(v: Locked) returns (w: Locked)
    requires Ready(v, 0) && v.order == CancelledOrder(SoldOrder(), 0)
    requires v.t.Bal(0).reserved == 0 && v.t.Bal(0).onHand >= 1
    ensures Restore(v, 0, 0) == Ok(w) && w.t.products == v.t.products && w.t.Bal(0).reserved == 1
  {
    hide *;
    CancelledSample();
    SampleAllowed(v.t);
    RestoreWhen(v, 0, 0, 0);
    RestoreNeeds(v, 0, 0);
    var m := Reopened(v, 0, 0, 0);
    OneLineMoves(v.t, m.t);
    w := m.(order := RestoredOrder(m.order, RestoreTarget(v.order).value, 0, 0));
  }

  lemma {:induction false} RestoreSample(db: Db)
    requires Valid(db) && db.t.products == [Sample.(status := Archived)] && db.t.Bal(0).reserved == 0 && db.t.Bal(0).onHand >= 1
    requires db.orders == [CancelledOrder(SoldOrder(), 0)]
    ensures var r := Step(db, RestoreOne());
            r.t.products == db.t.products && r.t.Bal(0).reserved == 1 && !Unclaimed(r.t)
  {
    hide Valid, Ready, Restore, CancelledOrder, SoldOrder;
    ReadyAt(db, 0);
    var w := RestoreHolds(LockedAt(db, 0));
  }

  /** Five commands from a new shop: add, sell, cancel, archive, restore; the archived product ends reserved. */
  lemma {:induction false} ArchivedAndReserved(threshold: nat)
    ensures var r := Run(EmptyShop(threshold), [AddSample(), SellSample(Cash), CancelOne(), Archive(0), RestoreOne()]);
            r.t.products == [Sample.(status := Archived)] && r.t.Bal(0).reserved == 1
  {
    hide Valid, Unclaimed, Step;
    var db := SampleSold(threshold, Cash);
    BreaksOn(db);
    RunJoins(EmptyShop(threshold), [AddSample(), SellSample(Cash)], [CancelOne(), Archive(0), RestoreOne()]);
    assert [AddSample(), SellSample(Cash)] + [CancelOne(), Archive(0), RestoreOne()]
           == [AddSample(), SellSample(Cash), CancelOne(), Archive(0), RestoreOne()];
  }
}
