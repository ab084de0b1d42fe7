/** The inventory tables as rows that services update in place, refining the ledger functions of Stock. */
module StockStore {
  import opened Prelude
  import opened Inventory
  import opened Alerts
  import opened Stock
  import opened Shop

  // ----- Facts about the active rows of one type

  predicate Showing(a: Alert, p: nat, kind: AlertType) {
    a.product == p && a.active && a.kind == kind
  }

  lemma {:induction false} CountNone(alerts: seq<Alert>, p: nat, kind: AlertType)
    requires forall i {:trigger alerts[i]} :: 0 <= i < |alerts| ==> !Showing(alerts[i], p, kind)
    ensures ActiveCount(alerts, p, kind) == 0
  {
    if alerts != [] {
      var init := alerts[..|alerts| - 1];
      assert forall i {:trigger init[i]} :: 0 <= i < |init| ==> init[i] == alerts[i];
      CountNone(init, p, kind);
    }
  }

  lemma {:induction false} CountSome(alerts: seq<Alert>, p: nat, kind: AlertType, i: nat)
    requires i < |alerts| && Showing(alerts[i], p, kind)
    ensures ActiveCount(alerts, p, kind) >= 1
  {
    if i < |alerts| - 1 {
      CountSome(alerts[..|alerts| - 1], p, kind, i);
    }
  }

  /** The partial unique index allows one active row of a type. */
  lemma {:induction false} OnlyShowing(alerts: seq<Alert>, p: nat, kind: AlertType, i: nat, j: nat)
    requires ActiveCount(alerts, p, kind) <= 1
    requires i < |alerts| && j < |alerts| && Showing(alerts[i], p, kind) && Showing(alerts[j], p, kind)
    ensures i == j
  {
    var last := |alerts| - 1;
    if i < last && j < last {
      OnlyShowing(alerts[..last], p, kind, i, j);
    } else if i < last {
      CountSome(alerts[..last], p, kind, i);
    } else if j < last {
      CountSome(alerts[..last], p, kind, j);
    }
  }

  /** What resolving the rows of other types does to one row. */
  function Resolved(a: Alert, p: nat, desired: Option<AlertType>): Alert {
    if a.product == p && a.active && desired != Some(a.kind) then a.(active := false) else a
  }

  /** Resolving the wrong rows and rewriting the one right row is the whole synchronisation. */
  lemma {:induction false} SyncRows(was: seq<Alert>, now: seq<Alert>, p: nat, desired: Option<Alert>, current: Option<nat>)
    requires UniqueActive(was) && |now| == |was|
    requires forall i {:trigger now[i]} :: 0 <= i < |was| ==>
               now[i] == Resolved(was[i], p, if desired.Some? then Some(desired.value.kind) else None)
    requires current.Some? ==> desired.Some? && current.value < |was| && Showing(was[current.value], p, desired.value.kind)
    requires current.None? && desired.Some? ==>
               forall i {:trigger was[i]} :: 0 <= i < |was| ==> !Showing(was[i], p, desired.value.kind)
    ensures desired.None? ==> Sync(was, p, desired) == now
    ensures desired.Some? && current.None? ==> Sync(was, p, desired) == now + [desired.value]
    ensures current.Some? ==> Sync(was, p, desired) == now[current.value := desired.value]
  {
    if desired.Some? {
      if current.None? {
        CountNone(was, p, desired.value.kind);
      } else {
        CountSome(was, p, desired.value.kind, current.value);
      }
    }
    var rows := RefreshAll(was, p, desired);
    forall i | 0 <= i < |was|
      ensures rows[i] == if current == Some(i) then desired.value else now[i]
    {
      if desired.Some? && Showing(was[i], p, desired.value.kind) {
        OnlyShowing(was, p, desired.value.kind, i, current.value);
      }
    }
  }

  // ----- The store

  class Store {
    var products: seq<Product>
    var lowStockThreshold: nat
    var balances: map<nat, Balance>
    var alerts: seq<Alert>
    var movements: seq<Movement>

    constructor (threshold: nat)
      ensures Tables() == EmptyShop(threshold).t && UniqueActive(alerts)
    {
      products, lowStockThreshold, balances, alerts, movements := [], threshold, map[], [], [];
    }

    function Tables(): Tables
      reads this
    {
      Inventory.Tables(products, lowStockThreshold, balances, alerts, movements)
    }

    /** The aggregation loop: a dictionary from product to total, or the first complaint. */
    method AggregateRequests(requests: seq<Request>) returns (r: Result<map<nat, int>>)
      ensures r == match RequestError(requests, |products|)
                   case Some(e) => Err(e)
                   case None => if requests == [] then Err(ValidationError) else Ok(Totals(requests))
    {
      var quantities: map<nat, int> := map[];
      var i := 0;
      while i < |requests|
        invariant 0 <= i <= |requests|
        invariant RequestError(requests[..i], |products|).None?
        invariant forall r :: r in requests[..i] ==> r.quantity > 0
        invariant quantities == Totals(requests[..i])
      {
        var request := requests[i];
        assert requests[..i + 1][..i] == requests[..i];
        if request.product >= |products| || request.quantity <= 0 {
          var e := if request.product >= |products| then NotFound else ValidationError;
          assert RequestError(requests[..i + 1], |products|) == Some(e);
          FirstErrorStays(requests, |products|, i + 1);
          return Err(e);
        }
        var before := if request.product in quantities then quantities[request.product] else 0;
        NextTotal(requests, i, before);
        quantities := quantities[request.product := before + request.quantity];
        i := i + 1;
      }
      assert requests[..i] == requests;
      if |quantities| == 0 {
        assert requests != [] ==> requests[0].product in quantities;
        return Err(ValidationError);
      }
      return Ok(quantities);
    }

    /** Open, rewrite or resolve the alert that the balance implies. */
    method SyncStockAlert(p: nat, balance: Balance)
      requires p < |products| && UniqueActive(alerts)
      modifies this`alerts
      ensures alerts == Sync(old(alerts), p, Desired(p, products[p], lowStockThreshold, balance))
      ensures UniqueActive(alerts)
    {
      var threshold := EffectiveThreshold(products[p], lowStockThreshold);
      var available := balance.Available();
      var desired: Option<AlertType> := None;
      if products[p].status == Archived {
        desired := None;
      } else if available == 0 {
        desired := Some(OutOfStock);
      } else if available <= threshold {
        desired := Some(LowStock);
      }
      ghost var implied := Desired(p, products[p], lowStockThreshold, balance);
      ghost var was := alerts;
      SyncKeepsUnique(was, p, implied);

      var current: Option<nat> := None;
      var i := 0;
      while i < |alerts|
        invariant 0 <= i <= |alerts| == |was|
        invariant forall k {:trigger alerts[k]} :: 0 <= k < i ==> alerts[k] == Resolved(was[k], p, desired)
        invariant forall k {:trigger alerts[k]} :: i <= k < |was| ==> alerts[k] == was[k]
        invariant current.Some? ==> desired.Some? && current.value < i && Showing(was[current.value], p, desired.value)
        invariant current.None? && desired.Some? ==>
                    forall k {:trigger was[k]} :: 0 <= k < i ==> !Showing(was[k], p, desired.value)
      {
        if alerts[i].product == p && alerts[i].active {
          if desired == Some(alerts[i].kind) {
            current := if current.None? then Some(i) else current;
          } else {
            alerts := alerts[i := alerts[i].(active := false)];
          }
        }
        i := i + 1;
      }
      SyncRows(was, alerts, p, implied, current);
      if desired.Some? {
        if current.None? {
          alerts := alerts + [Alert(p, desired.value, true, threshold, available)];
        } else {
          var row := alerts[current.value];
          if row.threshold != threshold || row.available != available {
            alerts := alerts[current.value := row.(threshold := threshold, available := available)];
          }
        }
      }
    }

    /** Save one balance and synchronise its alert. */
    method SaveBalance(p: nat, balance: Balance)
      requires p < |products| && UniqueActive(alerts)
      modifies this`balances, this`alerts
      ensures Tables() == Put(old(Tables()), p, balance) && UniqueActive(alerts)
    {
      balances := balances[p := balance];
      SyncStockAlert(p, balance);
    }

    /** The first pass over the sorted products: does every balance allow its total? */
    method CheckEach(op: Op, ids: seq<nat>, quantities: map<nat, int>) returns (ok: bool)
      requires forall p :: p in ids ==> p in quantities
      ensures ok <==> forall k :: 0 <= k < |ids| ==> Allowed(op, Tables().Bal(ids[k]), quantities[ids[k]])
    {
      hide Allowed;
      for i := 0 to |ids|
        invariant forall k :: 0 <= k < i ==> Allowed(op, Tables().Bal(ids[k]), quantities[ids[k]])
      {
        if !Allowed(op, Tables().Bal(ids[i]), quantities[ids[i]]) {
          return false;
        }
      }
      return true;
    }

    /** One product of the second pass. */
    method MoveReserved(op: Op, p: nat, quantity: int)
      requires p < |products| && UniqueActive(alerts) && !op.Sell?
      modifies this`balances, this`alerts
      ensures Tables() == Act(old(Tables()), op, p, quantity) && UniqueActive(alerts)
    {
      var balance := Tables().Bal(p);
      if op == Hold {
        SaveBalance(p, balance.(reserved := balance.reserved + quantity));
      } else {
        SaveBalance(p, balance.(reserved := balance.reserved - quantity));
      }
    }

    /** One sold product: both counters down, the EXIT row appended. */
    method SellOne(order: nat, p: nat, quantity: int) returns (row: nat)
      requires p < |products| && UniqueActive(alerts)
      modifies this`balances, this`alerts, this`movements
      ensures Tables() == Act(old(Tables()), Sell(order), p, quantity) && UniqueActive(alerts)
      ensures row == |old(movements)| && |movements| == row + 1
    {
      var balance := Tables().Bal(p);
      row := |movements|;
      movements := movements + [Movement(p, Exit, -quantity, balance.onHand - quantity, SaleOf(order))];
      SaveBalance(p, Balance(balance.onHand - quantity, balance.reserved - quantity));
    }

    method MoveEach(op: Op, ids: seq<nat>, quantities: map<nat, int>)
      requires UniqueActive(alerts) && !op.Sell? && Reached(Tables(), op, ids, quantities, 0, Tables())
      modifies this`balances, this`alerts
      ensures UniqueActive(alerts)
      ensures Reached(old(Tables()), op, ids, quantities, |ids|, Tables())
    {
      hide Reached, UniqueActive, Act;
      for i := 0 to |ids|
        invariant UniqueActive(alerts)
        invariant Reached(old(Tables()), op, ids, quantities, i, Tables())
      {
        ReachedNext(old(Tables()), op, ids, quantities, i, Tables());
        MoveReserved(op, ids[i], quantities[ids[i]]);
      }
    }

    method SellEach(order: nat, ids: seq<nat>, quantities: map<nat, int>) returns (rows: map<nat, nat>)
      requires UniqueActive(alerts) && StrictlyAscending(ids)
      requires Reached(Tables(), Sell(order), ids, quantities, 0, Tables())
      modifies this`balances, this`alerts, this`movements
      ensures UniqueActive(alerts)
      ensures Reached(old(Tables()), Sell(order), ids, quantities, |ids|, Tables())
      ensures rows == RowsOf(|old(movements)|, ids)
    {
      hide Reached, UniqueActive, Act, RowsOf;
      rows := map[];
      NoRows(|movements|);
      for i := 0 to |ids|
        invariant UniqueActive(alerts)
        invariant Reached(old(Tables()), Sell(order), ids, quantities, i, Tables())
        invariant |movements| == |old(movements)| + i
        invariant rows == RowsOf(|old(movements)|, ids[..i])
      {
        ReachedNext(old(Tables()), Sell(order), ids, quantities, i, Tables());
        NextRow(|old(movements)|, ids, i);
        var row := SellOne(order, ids[i], quantities[ids[i]]);
        rows := rows[ids[i] := row];
      }
      assert ids[..|ids|] == ids;
    }

    method ReserveStock(requests: seq<Request>) returns (r: Result<()>)
      requires UniqueActive(alerts)
      modifies this`balances, this`alerts
      ensures UniqueActive(alerts)
      ensures match Transact(old(Tables()), Hold, requests)
              case Ok(t) => r == Ok(()) && Tables() == t
              case Err(e) => r == Err(e) && Tables() == old(Tables())
    {
      hide Reached, UniqueActive;
      Refused(Tables(), Hold, requests);
      var quantities :- AggregateRequests(requests);
      hide RequestError, Transact;
      var ids := Ascending(quantities.Keys);
      Decision(Tables(), Hold, requests);
      var enough := CheckEach(Hold, ids, quantities);
      if !enough {
        return Err(InsufficientStock);
      }
      ReachedNone(Tables(), Hold, requests);
      MoveEach(Hold, ids, quantities);
      ReachedAll(old(Tables()), Hold, requests, Tables());
      return Ok(());
    }

    method ReleaseStock(requests: seq<Request>) returns (r: Result<()>)
      requires UniqueActive(alerts)
      modifies this`balances, this`alerts
      ensures UniqueActive(alerts)
      ensures match Transact(old(Tables()), Free, requests)
              case Ok(t) => r == Ok(()) && Tables() == t
              case Err(e) => r == Err(e) && Tables() == old(Tables())
    {
      hide Reached, UniqueActive;
      Refused(Tables(), Free, requests);
      var quantities :- AggregateRequests(requests);
      hide RequestError, Transact;
      var ids := Ascending(quantities.Keys);
      Decision(Tables(), Free, requests);
      var enough := CheckEach(Free, ids, quantities);
      if !enough {
        return Err(StockReconciliationRequired);
      }
      ReachedNone(Tables(), Free, requests);
      MoveEach(Free, ids, quantities);
      ReachedAll(old(Tables()), Free, requests, Tables());
      return Ok(());
    }

    /** Returns the ledger row written for each product. */
    method ConsumeStock(requests: seq<Request>, order: nat) returns (r: Result<map<nat, nat>>)
      requires UniqueActive(alerts)
      modifies this`balances, this`alerts, this`movements
      ensures UniqueActive(alerts)
      ensures match Transact(old(Tables()), Sell(order), requests)
              case Ok(t) => && r == Ok(RowsOf(|old(movements)|, Ascending(Requested(requests))))
                            && Tables() == t
              case Err(e) => r == Err(e) && Tables() == old(Tables())
    {
      hide Reached, UniqueActive, RowsOf;
      Refused(Tables(), Sell(order), requests);
      var quantities :- AggregateRequests(requests);
      hide RequestError, Transact;
      var ids := Ascending(quantities.Keys);
      Decision(Tables(), Sell(order), requests);
      var enough := CheckEach(Sell(order), ids, quantities);
      if !enough {
        return Err(StockReconciliationRequired);
      }
      ReachedNone(Tables(), Sell(order), requests);
      var rows := SellEach(order, ids, quantities);
      ReachedAll(old(Tables()), Sell(order), requests, Tables());
      return Ok(rows);
    }

    // ----- Manual movements and the catalogue

    /** The common end of every manual movement and initial load; the caller synchronises the alert. */
    method AppendMovement(p: nat, kind: MovementType, quantity: int) returns (r: Result<Balance>)
      requires p < |products|
      modifies this`balances, this`movements
      ensures var b := old(Tables()).Bal(p);
              if b.onHand + quantity < 0 then r == Err(InsufficientStock)
              else if b.onHand + quantity < b.reserved then r == Err(StockReserved)
              else && r == Ok(b.(onHand := b.onHand + quantity))
                   && movements == Post(old(Tables()), p, kind, quantity, NoReference).movements
                   && balances == old(balances)[p := r.value]
      ensures r.Err? ==> Tables() == old(Tables())
    {
      var balance := Tables().Bal(p);
      var onHand := balance.onHand + quantity;
      if onHand < 0 {
        return Err(InsufficientStock);
      }
      if onHand < balance.reserved {
        return Err(StockReserved);
      }
      movements := movements + [Movement(p, kind, quantity, onHand, NoReference)];
      balance := balance.(onHand := onHand);
      balances := balances[p := balance];
      return Ok(balance);
    }

    method RecordStockMovement(p: nat, kind: MovementType, quantity: int) returns (r: Result<()>)
      requires UniqueActive(alerts)
      modifies this`balances, this`movements, this`alerts
      ensures UniqueActive(alerts)
      ensures match RecordMovement(old(Tables()), p, kind, quantity)
              case Ok(t) => r == Ok(()) && Tables() == t
              case Err(e) => r == Err(e) && Tables() == old(Tables())
    {
      if quantity == 0 || (quantity < 0 && kind != Correction)
         || quantity > MAX_MOVEMENT_QUANTITY || -quantity > MAX_MOVEMENT_QUANTITY {
        return Err(ValidationError);
      }
      if p >= |products| {
        return Err(NotFound);
      }
      if products[p].status == Archived {
        return Err(ProductArchived);
      }
      var balance :- AppendMovement(p, kind, Signed(kind, quantity));
      SyncStockAlert(p, balance);
      return Ok(());
    }

    method CreateProduct(product: Product, initial: int) returns (r: Result<()>)
      requires UniqueActive(alerts)
      modifies this`products, this`balances, this`movements, this`alerts
      ensures UniqueActive(alerts)
      ensures match Shop.CreateProduct(old(Tables()), product, initial)
              case Ok(t) => r == Ok(()) && Tables() == t
              case Err(e) => r == Err(e) && Tables() == old(Tables())
    {
      if product.status == Archived || initial < 0 || initial > MAX_MOVEMENT_QUANTITY {
        return Err(ValidationError);
      }
      if NameTaken(products, product.name, -1) {
        return Err(ProductNameTaken);
      }
      var p := |products|;
      products := products + [product];
      var balance := Balance(0, 0);
      balances := balances[p := balance];
      if initial != 0 {
        var appended := AppendMovement(p, Entry, initial);
        balance := appended.value;
      }
      assert balances[p := balance] == balances;
      SyncStockAlert(p, balance);
      return Ok(());
    }

    method ArchiveProduct(p: nat) returns (r: Result<()>)
      requires UniqueActive(alerts)
      modifies this`products, this`balances, this`alerts
      ensures UniqueActive(alerts)
      ensures match Shop.ArchiveProduct(old(Tables()), p)
              case Ok(t) => r == Ok(()) && Tables() == t
              case Err(e) => r == Err(e) && Tables() == old(Tables())
    {
      if p >= |products| {
        return Err(NotFound);
      }
      if products[p].status == Archived {
        return Ok(());
      }
      var balance := Tables().Bal(p);
      if balance.reserved > 0 {
        return Err(ProductHasActiveReservations);
      }
      products := products[p := products[p].(status := Archived)];
      SaveBalance(p, balance);
      return Ok(());
    }

    method RestoreProduct(p: nat) returns (r: Result<()>)
      requires UniqueActive(alerts)
      modifies this`products, this`balances, this`alerts
      ensures UniqueActive(alerts)
      ensures match Shop.RestoreProduct(old(Tables()), p)
              case Ok(t) => r == Ok(()) && Tables() == t
              case Err(e) => r == Err(e) && Tables() == old(Tables())
    {
      if p >= |products| {
        return Err(NotFound);
      }
      if products[p].status != Archived {
        return Ok(());
      }
      if NameTaken(products, products[p].name, p) {
        return Err(ProductNameTaken);
      }
      products := products[p := products[p].(status := CatalogStatus.Active)];
      SaveBalance(p, Tables().Bal(p));
      return Ok(());
    }

    method UpdateProduct(p: nat, name: string, status: CatalogStatus, price: Option<nat>) returns (r: Result<()>)
      modifies this`products
      ensures match Shop.UpdateProduct(old(Tables()), p, name, status, price)
              case Ok(t) => r == Ok(()) && Tables() == t
              case Err(e) => r == Err(e) && Tables() == old(Tables())
    {
      if p >= |products| {
        return Err(NotFound);
      }
      if products[p].status == Archived {
        return Err(ProductArchived);
      }
      if status == Archived {
        return Err(ValidationError);
      }
      if NameTaken(products, name, p) {
        return Err(ProductNameTaken);
      }
      products := products[p := products[p].(name := name, status := status, purchasePrice := price)];
      return Ok(());
    }

    method UpdateProductThreshold(p: nat, threshold: Option<nat>) returns (r: Result<()>)
      requires UniqueActive(alerts)
      modifies this`products, this`balances, this`alerts
      ensures UniqueActive(alerts)
      ensures match SetProductThreshold(old(Tables()), p, threshold)
              case Ok(t) => r == Ok(()) && Tables() == t
              case Err(e) => r == Err(e) && Tables() == old(Tables())
    {
      if p >= |products| {
        return Err(NotFound);
      }
      products := products[p := products[p].(lowStockThreshold := threshold)];
      SaveBalance(p, Tables().Bal(p));
      return Ok(());
    }

    method UpdateInventoryThreshold(threshold: nat)
      requires UniqueActive(alerts)
      modifies this`lowStockThreshold, this`balances, this`alerts
      ensures UniqueActive(alerts)
      ensures Tables() == SetShopThreshold(old(Tables()), threshold)
    {
      lowStockThreshold := threshold;
      ghost var t := Tables();
      for p := 0 to |products|
        invariant UniqueActive(alerts) && unchanged(this`products) && lowStockThreshold == threshold
        invariant Tables() == ResyncAll(t, p)
      {
        SaveBalance(p, Tables().Bal(p));
      }
    }
  }

  // ----- Facts the loops use

  lemma {:induction false} FirstErrorStays(requests: seq<Request>, products: nat, n: nat)
    requires n <= |requests| && RequestError(requests[..n], products).Some?
    ensures RequestError(requests, products) == RequestError(requests[..n], products)
    decreases |requests|
  {
    if n == |requests| {
      assert requests[..n] == requests;
    } else {
      var init := requests[..|requests| - 1];
      assert init[..n] == requests[..n];
      FirstErrorStays(init, products, n);
    }
  }

  lemma {:induction false} NextTotal(requests: seq<Request>, i: nat, before: int)
    requires i < |requests|
    requires before == if requests[i].product in Totals(requests[..i]) then Totals(requests[..i])[requests[i].product] else 0
    requires forall r :: r in requests[..i] ==> r.quantity > 0
    ensures Totals(requests[..i + 1]) == Totals(requests[..i])[requests[i].product := before + requests[i].quantity]
  {
    var init := requests[..i];
    var next := requests[..i + 1];
    assert next == init + [requests[i]] && next[..i] == init;
    assert Requested(next) == Requested(init) + {requests[i].product};
    DemandSign(init, requests[i].product);
    forall p | p in Requested(next)
      ensures Totals(next)[p] == Totals(init)[requests[i].product := before + requests[i].quantity][p]
    {
    }
  }

  /** After a clean aggregation, checking the sorted ids one after another decides the whole cart. */
  lemma {:induction false} Decision(t: Tables, op: Op, requests: seq<Request>)
    requires RequestError(requests, |t.products|).None? && requests != []
    ensures Totals(requests).Keys == Requested(requests)
    ensures forall p :: p in Ascending(Totals(requests).Keys) ==> p in Totals(requests)
    ensures if forall k :: 0 <= k < |Ascending(Totals(requests).Keys)| ==>
                 Allowed(op, t.Bal(Ascending(Totals(requests).Keys)[k]), Totals(requests)[Ascending(Totals(requests).Keys)[k]])
            then Transact(t, op, requests).Ok?
            else Transact(t, op, requests) == Err(Refusal(op))
  {
    var q := Totals(requests);
    var ids := Ascending(q.Keys);
    assert forall k :: 0 <= k < |ids| ==> ids[k] in ids;
    hide Allowed, Act;
    if forall k :: 0 <= k < |ids| ==> Allowed(op, t.Bal(ids[k]), q[ids[k]]) {
      forall p | p in q ensures Allowed(op, t.Bal(p), q[p]) {
        assert p in ids;
      }
    }
  }

  /** The tables after the first i products of a cart. */
  ghost predicate Reached(t: Tables, op: Op, ids: seq<nat>, q: map<nat, int>, i: nat, now: Tables) {
    && i <= |ids|
    && (forall p :: p in ids ==> p < |t.products| && p in q)
    && (forall p :: p in ids[..i] ==> p in ids)
    && now == ActAll(t, op, ids[..i], q)
  }

  lemma {:induction false} ReachedNone(t: Tables, op: Op, requests: seq<Request>)
    requires RequestError(requests, |t.products|).None?
    ensures Reached(t, op, Ascending(Totals(requests).Keys), Totals(requests), 0, t)
  {
    GoodRequests(requests, |t.products|);
  }

  lemma {:induction false} Prefixes(ids: seq<nat>, i: nat)
    requires i < |ids|
    ensures ids[i] in ids && ids[..i + 1][..i] == ids[..i]
    ensures forall p :: p in ids[..i + 1] ==> p in ids
    ensures forall p :: p in ids[..i] ==> p in ids
  {
  }

  lemma {:induction false} ActAllNext(t: Tables, op: Op, init: seq<nat>, next: seq<nat>, q: map<nat, int>, x: nat)
    requires next != [] && next[..|next| - 1] == init && next[|next| - 1] == x
    requires forall p :: p in next ==> p < |t.products| && p in q
    requires forall p :: p in init ==> p < |t.products| && p in q
    ensures x in q && x < |t.products|
    ensures ActAll(t, op, next, q) == Act(ActAll(t, op, init, q), op, x, q[x])
  {
    assert x in next;
    hide Act;
  }

  lemma {:induction false} ReachedNext(t: Tables, op: Op, ids: seq<nat>, q: map<nat, int>, i: nat, now: Tables)
    requires i < |ids| && Reached(t, op, ids, q, i, now)
    ensures ids[i] in q && ids[i] < |now.products|
    ensures Reached(t, op, ids, q, i + 1, Act(now, op, ids[i], q[ids[i]]))
  {
    hide Act, ActAll;
    Prefixes(ids, i);
    var init, next := ids[..i], ids[..i + 1];
    assert |next| == i + 1 && next[..i] == init && next[i] == ids[i];
    forall p | p in next ensures p < |t.products| && p in q {
      assert p in ids;
    }
    forall p | p in init ensures p < |t.products| && p in q {
      assert p in ids;
    }
    ActAllNext(t, op, init, next, q, ids[i]);
  }

  /** A cart the aggregation turns down is turned down for the same reason. */
  lemma {:induction false} Refused(t: Tables, op: Op, requests: seq<Request>)
    ensures RequestError(requests, |t.products|).Some? ==>
              Transact(t, op, requests) == Err(RequestError(requests, |t.products|).value)
    ensures RequestError(requests, |t.products|).None? && requests == [] ==>
              Transact(t, op, requests) == Err(ValidationError)
  {
  }

  lemma {:induction false} ReachedAll(t: Tables, op: Op, requests: seq<Request>, now: Tables)
    requires RequestError(requests, |t.products|).None? && Transact(t, op, requests).Ok?
    requires Reached(t, op, Ascending(Totals(requests).Keys), Totals(requests), |Ascending(Totals(requests).Keys)|, now)
    ensures Transact(t, op, requests) == Ok(now)
  {
    var ids := Ascending(Totals(requests).Keys);
    assert ids[..|ids|] == ids;
    hide Act, Allowed;
  }

  /** The ledger rows of a sale by product, when its first row is number `base`. */
  function RowsOf(base: nat, ids: seq<nat>): (r: map<nat, nat>)
    ensures forall p :: p in r <==> p in ids
    ensures forall p :: p in r ==> r[p] == base + IndexOf(ids, p)
  {
    map p | p in ids :: base + IndexOf(ids, p)
  }

  lemma {:induction false} IndexIs(ids: seq<nat>, i: nat)
    requires StrictlyAscending(ids) && i < |ids|
    ensures IndexOf(ids, ids[i]) == i
  {
    var k := IndexOf(ids, ids[i]);
    assert ids[k] == ids[i];
  }

  lemma {:induction false} NoRows(base: nat)
    ensures RowsOf(base, []) == map[]
  {
  }

  lemma {:induction false} NextIndex(ids: seq<nat>, i: nat, p: nat)
    requires StrictlyAscending(ids) && i < |ids| && p in ids[..i]
    ensures p in ids[..i + 1] && IndexOf(ids[..i + 1], p) == IndexOf(ids[..i], p)
  {
    var k := IndexOf(ids[..i], p);
    assert ids[..i + 1][k] == p;
    IndexIs(ids[..i + 1], k);
  }

  lemma {:induction false} NextRow(base: nat, ids: seq<nat>, i: nat)
    requires StrictlyAscending(ids) && i < |ids|
    ensures RowsOf(base, ids[..i + 1]) == RowsOf(base, ids[..i])[ids[i] := base + i]
  {
    var init, next := ids[..i], ids[..i + 1];
    assert next == init + [ids[i]];
    assert next[i] == ids[i] && ids[i] !in init;
    IndexIs(next, i);
    forall p | p in init ensures p in next && IndexOf(next, p) == IndexOf(init, p) {
      NextIndex(ids, i, p);
    }
    hide *;
    RowsAgree(base, init, next, ids[i], i);
  }

  lemma {:induction false} RowsAgree(base: nat, init: seq<nat>, next: seq<nat>, x: nat, i: nat)
    requires forall p :: p in next <==> p in init || p == x
    requires x !in init && IndexOf(next, x) == i
    requires forall p :: p in init ==> IndexOf(next, p) == IndexOf(init, p)
    ensures RowsOf(base, next) == RowsOf(base, init)[x := base + i]
  {
    hide RowsOf, IndexOf;
    var was, now := RowsOf(base, init), RowsOf(base, next);
    forall p | p in now ensures now[p] == was[x := base + i][p] {
      assert p in next;
    }
    assert now.Keys == was.Keys + {x};
  }
}
