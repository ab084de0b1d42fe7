/**
 * The stock ledger: two counters per product, moved by holds, releases, sales and
 * manual movements, with one immutable row appended for every change of `onHand`.
 */
module Stock {
  import opened Prelude
  import opened Inventory
  import opened Alerts

  const MAX_MOVEMENT_QUANTITY := 1_000_000_000

  /** One line of a cart: the same product may occur in several requests. */
  datatype Request = Request(product: nat, quantity: int)

  /** What a command does to the balances it locks. */
  datatype Op = Hold | Free | Sell(order: nat)

  // ----- Aggregation of a cart

  function Demand(requests: seq<Request>, p: nat): int {
    if requests == [] then 0
    else
      var last := requests[|requests| - 1];
      Demand(requests[..|requests| - 1], p) + (if last.product == p then last.quantity else 0)
  }

  /** The first complaint the aggregation loop raises, if any. */
  function RequestError(requests: seq<Request>, products: nat): Option<Error> {
    if requests == [] then None
    else
      var last := requests[|requests| - 1];
      var earlier := RequestError(requests[..|requests| - 1], products);
      if earlier.Some? then earlier
      else if last.product >= products then Some(NotFound)
      else if last.quantity <= 0 then Some(ValidationError)
      else None
  }

  function Requested(requests: seq<Request>): set<nat> {
    set r | r in requests :: r.product
  }

  /** Total per product, as the aggregation loop fills its dictionary. */
  function Totals(requests: seq<Request>): (q: map<nat, int>)
    ensures q.Keys == Requested(requests)
    ensures forall p :: p in q ==> q[p] == Demand(requests, p)
  {
    map p | p in Requested(requests) :: Demand(requests, p)
  }

  lemma {:induction false} GoodRequests(requests: seq<Request>, products: nat)
    ensures RequestError(requests, products).None? <==>
            forall r :: r in requests ==> r.product < products && r.quantity > 0
  {
    if requests != [] {
      var init := requests[..|requests| - 1];
      GoodRequests(init, products);
      assert requests == init + [requests[|requests| - 1]];
      assert requests[|requests| - 1] in requests;
      assert forall r :: r in init ==> r in requests;
    }
  }

  lemma {:induction false} DemandSign(requests: seq<Request>, p: nat)
    requires forall r :: r in requests ==> r.quantity > 0
    ensures Demand(requests, p) >= 0
    ensures Demand(requests, p) > 0 <==> p in Requested(requests)
  {
    if requests != [] {
      var init := requests[..|requests| - 1];
      var last := requests[|requests| - 1];
      assert requests == init + [last];
      assert forall r :: r in init ==> r in requests;
      assert last in requests;
      DemandSign(init, p);
      assert Requested(requests) == Requested(init) + {last.product};
    }
  }

  // ----- One product

  /** Store a balance and synchronise the product's alert, as every stock command does. */
  function Put(t: Tables, p: nat, b: Balance): Tables
    requires p < |t.products|
  {
    t.(balances := t.balances[p := b],
       alerts := Sync(t.alerts, p, Desired(p, t.products[p], t.lowStockThreshold, b)))
  }

  function Post(t: Tables, p: nat, kind: MovementType, quantity: int, reference: Reference): Tables {
    t.(movements := t.movements + [Movement(p, kind, quantity, t.Bal(p).onHand + quantity, reference)])
  }

  function Act(t: Tables, op: Op, p: nat, q: int): Tables
    requires p < |t.products|
  {
    var b := t.Bal(p);
    match op
    case Hold => Put(t, p, b.(reserved := b.reserved + q))
    case Free => Put(t, p, b.(reserved := b.reserved - q))
    case Sell(order) =>
      Put(Post(t, p, Exit, -q, SaleOf(order)), p, Balance(b.onHand - q, b.reserved - q))
  }

  predicate Allowed(op: Op, b: Balance, q: int) {
    match op
    case Hold => b.Available() >= q
    case Free => b.reserved >= q
    case Sell(_) => b.reserved >= q && b.onHand >= q
  }

  function Refusal(op: Op): Error {
    if op.Hold? then InsufficientStock else StockReconciliationRequired
  }

  // ----- A cart, one product after another in ascending id

  function ActAll(t: Tables, op: Op, ids: seq<nat>, q: map<nat, int>): (r: Tables)
    requires forall p :: p in ids ==> p < |t.products| && p in q
    ensures r.products == t.products && r.lowStockThreshold == t.lowStockThreshold
    ensures r.balances.Keys == t.balances.Keys + (set p | p in ids)
  {
    if ids == [] then t
    else
      var init := ids[..|ids| - 1];
      var last := ids[|ids| - 1];
      assert ids == init + [last];
      assert forall p :: p in init ==> p in ids;
      Act(ActAll(t, op, init, q), op, last, q[last])
  }

  /** reserve_stock, release_stock and consume_stock: all products or none. */
  function Transact(t: Tables, op: Op, requests: seq<Request>): Result<Tables> {
    var bad := RequestError(requests, |t.products|);
    if bad.Some? then Err(bad.value)
    else if requests == [] then Err(ValidationError)
    else
      var q := Totals(requests);
      GoodRequests(requests, |t.products|);
      if forall p :: p in q ==> Allowed(op, t.Bal(p), q[p])
      then Ok(ActAll(t, op, Ascending(q.Keys), q))
      else Err(Refusal(op))
  }

  // ----- What the ledger promises

  function Posted(movements: seq<Movement>, p: nat): int {
    if movements == [] then 0
    else
      var last := movements[|movements| - 1];
      Posted(movements[..|movements| - 1], p) + (if last.product == p then last.quantity else 0)
  }

  predicate SignMatches(m: Movement) {
    match m.kind
    case Entry => m.quantity > 0
    case Exit => m.quantity < 0
    case Shrinkage => m.quantity < 0
    case Correction => m.quantity != 0
  }

  /** Row i was written against the sum of the earlier rows of its product. */
  ghost predicate RowOk(t: Tables, i: nat)
    requires i < |t.movements|
  {
    var m := t.movements[i];
    && m.product < |t.products|
    && SignMatches(m)
    && m.balanceAfter == Posted(t.movements[..i + 1], m.product)
    && m.balanceAfter >= 0
  }

  ghost predicate LedgerOk(t: Tables) {
    && (forall p: nat :: p in t.balances <==> p < |t.products|)
    && (forall p: nat {:trigger Posted(t.movements, p)} :: p < |t.products| ==> t.Bal(p).onHand == Posted(t.movements, p))
    && (forall i: nat {:trigger RowOk(t, i)} :: i < |t.movements| ==> RowOk(t, i))
  }

  ghost predicate NotOversold(t: Tables) {
    forall p: nat {:trigger t.Bal(p)} :: 0 <= t.Bal(p).reserved <= t.Bal(p).onHand
  }

  /** The active alerts of every product are the one row, or none, its balance implies. */
  ghost predicate AlertsAgree(t: Tables) {
    && (forall p: nat {:trigger ActiveOf(t.alerts, p)} :: p < |t.products| ==>
          ActiveOf(t.alerts, p) == AsSeq(Desired(p, t.products[p], t.lowStockThreshold, t.Bal(p))))
    && (forall p: nat :: p >= |t.products| ==> ActiveOf(t.alerts, p) == [])
  }

  ghost predicate Sound(t: Tables) {
    LedgerOk(t) && NotOversold(t) && AlertsAgree(t)
  }

  // ----- Lemmas

  lemma {:induction false} AgreementIsUnique(t: Tables)
    requires AlertsAgree(t)
    ensures UniqueActive(t.alerts)
  {
    forall p: nat ensures |ActiveOf(t.alerts, p)| <= 1 {
      if p < |t.products| {
      }
    }
    SingleActiveIsUnique(t.alerts);
  }

  /** Writing one balance keeps the alerts of every product in agreement. */
  lemma {:induction false} PutAgrees(t: Tables, p: nat, b: Balance)
    requires p < |t.products|
    requires UniqueActive(t.alerts)
    requires forall o: nat :: o < |t.products| && o != p ==>
               ActiveOf(t.alerts, o) == AsSeq(Desired(o, t.products[o], t.lowStockThreshold, t.Bal(o)))
    requires forall o: nat :: o >= |t.products| ==> ActiveOf(t.alerts, o) == []
    ensures AlertsAgree(Put(t, p, b))
  {
    var desired := Desired(p, t.products[p], t.lowStockThreshold, b);
    var r := Put(t, p, b);
    forall o: nat
      ensures o < |t.products| ==>
                ActiveOf(r.alerts, o) == AsSeq(Desired(o, r.products[o], r.lowStockThreshold, r.Bal(o)))
      ensures o >= |t.products| ==> ActiveOf(r.alerts, o) == []
    {
      SyncAgrees(t.alerts, p, desired, o);
    }
  }

  /** Appending a row whose closing balance is right keeps the ledger's rows right. */
  lemma {:induction false} PostRows(t: Tables, p: nat, kind: MovementType, quantity: int, reference: Reference)
    requires LedgerOk(t) && p < |t.products|
    requires SignMatches(Movement(p, kind, quantity, 0, reference))
    requires t.Bal(p).onHand + quantity >= 0
    ensures var r := Post(t, p, kind, quantity, reference);
            && (forall i: nat :: i < |r.movements| ==> RowOk(r, i))
            && (forall o: nat :: Posted(r.movements, o) == Posted(t.movements, o) + if o == p then quantity else 0)
  {
    var r := Post(t, p, kind, quantity, reference);
    var n := |t.movements|;
    assert r.movements[..n] == t.movements;
    forall o: nat
      ensures Posted(r.movements, o) == Posted(t.movements, o) + if o == p then quantity else 0
    {
    }
    forall i: nat | i < |r.movements| ensures RowOk(r, i) {
      if i < n {
        assert RowOk(t, i);
        assert r.movements[..i + 1] == t.movements[..i + 1];
      } else {
        assert r.movements[..n + 1] == r.movements;
      }
    }
  }

  /** Holds and releases touch no ledger row and no `onHand`. */
  lemma {:induction false} ReservedSound(t: Tables, p: nat, reserved: int)
    requires Sound(t) && p < |t.products|
    requires 0 <= reserved <= t.Bal(p).onHand
    ensures Sound(Put(t, p, t.Bal(p).(reserved := reserved)))
  {
    AgreementIsUnique(t);
    var b := t.Bal(p).(reserved := reserved);
    PutAgrees(t, p, b);
    KeepRows(t, Put(t, p, b));
  }

  /** A ledger row together with the balance it explains. */
  lemma {:induction false} PostedSound(t: Tables, p: nat, kind: MovementType, quantity: int, reference: Reference, reserved: int)
    requires Sound(t) && p < |t.products|
    requires SignMatches(Movement(p, kind, quantity, 0, reference))
    requires 0 <= reserved <= t.Bal(p).onHand + quantity
    ensures Sound(Put(Post(t, p, kind, quantity, reference), p, Balance(t.Bal(p).onHand + quantity, reserved)))
  {
    AgreementIsUnique(t);
    var b := Balance(t.Bal(p).onHand + quantity, reserved);
    PostRows(t, p, kind, quantity, reference);
    var posted := Post(t, p, kind, quantity, reference);
    PutAgrees(posted, p, b);
    SameRows(posted, Put(posted, p, b));
    var r := Put(posted, p, b);
    forall o: nat | o < |r.products| ensures r.Bal(o).onHand == Posted(r.movements, o) {
      assert t.Bal(o).onHand == Posted(t.movements, o);
    }
  }

  lemma {:induction false} ActAllowed(t: Tables, op: Op, p: nat, q: int)
    requires NotOversold(t) && q > 0 && Allowed(op, t.Bal(p), q)
    ensures 0 <= t.Bal(p).reserved + SignedReserved(op, q) <= t.Bal(p).onHand + SignedOnHand(op, q)
  {
  }

  /** A hold or a release is a write of the reserved counter; a sale also posts its row. */
  lemma {:induction false} ActIs(t: Tables, op: Op, p: nat, q: int)
    requires p < |t.products|
    ensures !op.Sell? ==> Act(t, op, p, q) == Put(t, p, t.Bal(p).(reserved := t.Bal(p).reserved + SignedReserved(op, q)))
    ensures op.Sell? ==> Act(t, op, p, q) ==
                         Put(Post(t, p, Exit, -q, SaleOf(op.order)), p,
                             Balance(t.Bal(p).onHand - q, t.Bal(p).reserved + SignedReserved(op, q)))
  {
  }

  /** One product's step keeps every promise. */
  lemma {:induction false} ActSound(t: Tables, op: Op, p: nat, q: int)
    requires Sound(t) && p < |t.products| && q > 0 && Allowed(op, t.Bal(p), q)
    ensures Sound(Act(t, op, p, q))
  {
    ActAllowed(t, op, p, q);
    ActIs(t, op, p, q);
    hide Sound, Act, Put, Post, Allowed;
    if op.Sell? {
      PostedSound(t, p, Exit, -q, SaleOf(op.order), t.Bal(p).reserved + SignedReserved(op, q));
    } else {
      ReservedSound(t, p, t.Bal(p).reserved + SignedReserved(op, q));
    }
  }

  lemma {:induction false} SameRows(t: Tables, r: Tables)
    requires forall i: nat :: i < |t.movements| ==> RowOk(t, i)
    requires r.movements == t.movements && r.products == t.products
    ensures forall i: nat :: i < |r.movements| ==> RowOk(r, i)
  {
    forall i: nat | i < |r.movements| ensures RowOk(r, i) {
      assert RowOk(t, i);
    }
  }

  lemma {:induction false} KeepRows(t: Tables, r: Tables)
    requires LedgerOk(t)
    requires r.movements == t.movements && r.products == t.products
    requires forall p: nat :: p in r.balances <==> p in t.balances
    requires forall p: nat :: r.Bal(p).onHand == t.Bal(p).onHand
    ensures LedgerOk(r)
  {
    SameRows(t, r);
  }

  function SignedReserved(op: Op, q: int): int {
    if op.Hold? then q else -q
  }

  function SignedOnHand(op: Op, q: int): int {
    if op.Sell? then -q else 0
  }

  /** The ledger row of one product's sale. */
  function SaleRow(t: Tables, order: nat, p: nat, q: int): Movement {
    Movement(p, Exit, -q, t.Bal(p).onHand - q, SaleOf(order))
  }

  /** The ledger rows a sale appends: one EXIT per product, in ascending product id. */
  function SaleRows(t: Tables, op: Op, ids: seq<nat>, q: map<nat, int>): (r: seq<Movement>)
    requires forall p :: p in ids ==> p in q
    ensures |r| == if op.Sell? then |ids| else 0
    ensures forall i :: 0 <= i < |r| ==> r[i] == SaleRow(t, op.order, ids[i], q[ids[i]])
  {
    if ids == [] || !op.Sell? then []
    else
      var init := ids[..|ids| - 1];
      var last := ids[|ids| - 1];
      assert ids == init + [last];
      assert forall p :: p in init ==> p in ids;
      SaleRows(t, op, init, q) + [SaleRow(t, op.order, last, q[last])]
  }

  lemma {:induction false} AscendingPrefix(ids: seq<nat>)
    requires StrictlyAscending(ids) && ids != []
    ensures var init := ids[..|ids| - 1];
            && StrictlyAscending(init)
            && ids[|ids| - 1] !in init
            && (forall p :: p in ids <==> p in init || p == ids[|ids| - 1])
  {
    assert ids == ids[..|ids| - 1] + [ids[|ids| - 1]];
  }

  lemma {:induction false} ActEffect(t: Tables, op: Op, p: nat, q: int, o: nat)
    requires p < |t.products|
    ensures var r := Act(t, op, p, q);
            && r.Bal(o).reserved == t.Bal(o).reserved + (if o == p then SignedReserved(op, q) else 0)
            && r.Bal(o).onHand == t.Bal(o).onHand + (if o == p then SignedOnHand(op, q) else 0)
            && r.movements == t.movements
               + if op.Sell? then [SaleRow(t, op.order, p, q)] else []
  {
  }

  /** The whole meaning of a cart step: each listed product moves by its total, nothing else does. */
  lemma {:induction false} ActAllCounters(t: Tables, op: Op, ids: seq<nat>, q: map<nat, int>, o: nat)
    requires StrictlyAscending(ids)
    requires forall p :: p in ids ==> p < |t.products| && p in q
    ensures var r := ActAll(t, op, ids, q);
            && r.Bal(o).reserved == t.Bal(o).reserved + (if o in ids then SignedReserved(op, q[o]) else 0)
            && r.Bal(o).onHand == t.Bal(o).onHand + (if o in ids then SignedOnHand(op, q[o]) else 0)
  {
    if ids != [] {
      AscendingPrefix(ids);
      var init := ids[..|ids| - 1];
      var last := ids[|ids| - 1];
      ActAllCounters(t, op, init, q, o);
      ActEffect(ActAll(t, op, init, q), op, last, q[last], o);
    }
  }

  lemma {:induction false} Associate<T>(a: seq<T>, b: seq<T>, c: seq<T>)
    ensures (a + b) + c == a + (b + c)
  {
  }

  lemma {:induction false} LastRow(t: Tables, op: Op, ids: seq<nat>, q: map<nat, int>, init: seq<nat>, last: nat)
    requires StrictlyAscending(ids) && ids != []
    requires forall p :: p in ids ==> p < |t.products| && p in q
    requires init == ids[..|ids| - 1] && last == ids[|ids| - 1]
    requires forall p :: p in init ==> p in ids
    ensures last in ids
    ensures ActAll(t, op, ids, q).movements ==
            ActAll(t, op, init, q).movements + if op.Sell? then [SaleRow(t, op.order, last, q[last])] else []
  {
    hide Act;
    AscendingPrefix(ids);
    ActAllCounters(t, op, init, q, last);
    ActEffect(ActAll(t, op, init, q), op, last, q[last], last);
  }

  lemma {:induction false} ActAllRows(t: Tables, op: Op, ids: seq<nat>, q: map<nat, int>)
    requires StrictlyAscending(ids)
    requires forall p :: p in ids ==> p < |t.products| && p in q
    ensures ActAll(t, op, ids, q).movements == t.movements + SaleRows(t, op, ids, q)
  {
    if ids != [] {
      AscendingPrefix(ids);
      var init := ids[..|ids| - 1];
      var last := ids[|ids| - 1];
      ActAllRows(t, op, init, q);
      LastRow(t, op, ids, q, init, last);
      hide ActAll;
      if op.Sell? {
        Associate(t.movements, SaleRows(t, op, init, q), [SaleRow(t, op.order, last, q[last])]);
      }
    }
  }

  lemma {:induction false} ActAllSound(t: Tables, op: Op, ids: seq<nat>, q: map<nat, int>)
    requires Sound(t) && StrictlyAscending(ids)
    requires forall p :: p in ids ==> p < |t.products| && p in q && q[p] > 0 && Allowed(op, t.Bal(p), q[p])
    ensures Sound(ActAll(t, op, ids, q))
  {
    if ids != [] {
      AscendingPrefix(ids);
      var init := ids[..|ids| - 1];
      var last := ids[|ids| - 1];
      ActAllSound(t, op, init, q);
      ActAllCounters(t, op, init, q, last);
      ActSound(ActAll(t, op, init, q), op, last, q[last]);
    }
  }

  /** A cart is well formed and every balance allows its total. */
  ghost predicate Acceptable(t: Tables, op: Op, requests: seq<Request>) {
    && requests != []
    && (forall r :: r in requests ==> r.product < |t.products| && r.quantity > 0)
    && (forall p :: p in Requested(requests) ==> Allowed(op, t.Bal(p), Demand(requests, p)))
  }

  /** Every product's counters moved by exactly the cart's total for it, and every promise still holds. */
  ghost predicate MovedBy(t: Tables, r: Tables, op: Op, requests: seq<Request>) {
    && Sound(r)
    && r.products == t.products
    && (forall p: nat {:trigger r.Bal(p)} ::
          && r.Bal(p).reserved == t.Bal(p).reserved + SignedReserved(op, Demand(requests, p))
          && r.Bal(p).onHand == t.Bal(p).onHand + SignedOnHand(op, Demand(requests, p)))
    && r.movements == t.movements + SaleRows(t, op, Ascending(Requested(requests)), Totals(requests))
  }

  lemma {:induction false} TotalsMove(t: Tables, op: Op, requests: seq<Request>, p: nat)
    requires Acceptable(t, op, requests)
    ensures forall x :: x in Ascending(Requested(requests)) ==> x < |t.products| && x in Totals(requests)
    ensures var r := ActAll(t, op, Ascending(Requested(requests)), Totals(requests));
            && r.Bal(p).reserved == t.Bal(p).reserved + SignedReserved(op, Demand(requests, p))
            && r.Bal(p).onHand == t.Bal(p).onHand + SignedOnHand(op, Demand(requests, p))
  {
    DemandSign(requests, p);
    ActAllCounters(t, op, Ascending(Requested(requests)), Totals(requests), p);
  }

  lemma {:induction false} TotalsSound(t: Tables, op: Op, requests: seq<Request>)
    requires Sound(t) && Acceptable(t, op, requests)
    ensures forall x :: x in Ascending(Requested(requests)) ==> x < |t.products| && x in Totals(requests)
    ensures Sound(ActAll(t, op, Ascending(Requested(requests)), Totals(requests)))
  {
    hide Sound;
    forall p | p in Requested(requests) ensures Demand(requests, p) > 0 {
      DemandSign(requests, p);
    }
    ActAllSound(t, op, Ascending(Requested(requests)), Totals(requests));
  }

  /** The tables after an accepted cart. */
  ghost function Accepted(t: Tables, op: Op, requests: seq<Request>): Tables
    requires forall p :: p in Requested(requests) ==> p < |t.products|
  {
    ActAll(t, op, Ascending(Requested(requests)), Totals(requests))
  }

  lemma {:induction false} TransactIs(t: Tables, op: Op, requests: seq<Request>)
    ensures Transact(t, op, requests).Ok? <==> Acceptable(t, op, requests)
    ensures Acceptable(t, op, requests) ==> forall p :: p in Requested(requests) ==> p < |t.products|
    ensures Acceptable(t, op, requests) ==> Transact(t, op, requests) == Ok(Accepted(t, op, requests))
  {
    GoodRequests(requests, |t.products|);
    hide Act, Allowed, Demand;
  }

  lemma {:induction false} AcceptedMoves(t: Tables, op: Op, requests: seq<Request>)
    requires Sound(t) && Acceptable(t, op, requests)
    ensures forall p :: p in Requested(requests) ==> p < |t.products|
    ensures MovedBy(t, Accepted(t, op, requests), op, requests)
  {
    TotalsSound(t, op, requests);
    ActAllRows(t, op, Ascending(Requested(requests)), Totals(requests));
    hide Sound, Act, Allowed, Demand, SaleRows;
    forall p: nat
      ensures Accepted(t, op, requests).Bal(p).reserved == t.Bal(p).reserved + SignedReserved(op, Demand(requests, p))
      ensures Accepted(t, op, requests).Bal(p).onHand == t.Bal(p).onHand + SignedOnHand(op, Demand(requests, p))
    {
      TotalsMove(t, op, requests, p);
    }
  }

  /** A cart is accepted precisely when it is acceptable, and is then carried out exactly. */
  lemma {:induction false} TransactEffect(t: Tables, op: Op, requests: seq<Request>)
    requires Sound(t)
    ensures Transact(t, op, requests).Ok? <==> Acceptable(t, op, requests)
    ensures Transact(t, op, requests).Ok? ==> MovedBy(t, Transact(t, op, requests).value, op, requests)
  {
    TransactIs(t, op, requests);
    hide *;
    if Acceptable(t, op, requests) {
      AcceptedMoves(t, op, requests);
    }
  }
}
