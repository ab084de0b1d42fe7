/**
 * Concurrent stock transactions. Each takes the balance rows of its carts one at a time
 * in ascending product id, works on what it read, and writes and unlocks at commit.
 */
module Locks {
  import opened Prelude
  import opened Inventory
  import opened Stock
  import opened Orders
  import opened Shop
  import opened Invariant
  import opened Preserve
  import opened Runs

  type Balances = map<nat, Balance>

  function BalOf(b: Balances, p: nat): Balance {
    if p in b then b[p] else Balance(0, 0)
  }

  /** One call of reserve_stock, release_stock or consume_stock. */
  datatype Cart = Cart(op: Op, requests: seq<Request>) {
    function Products(): set<nat> {
      Requested(requests)
    }

    function Shifted(p: nat, b: Balance): Balance {
      var q := Demand(requests, p);
      Balance(b.onHand + SignedOnHand(op, q), b.reserved + SignedReserved(op, q))
    }

    predicate Fits(b: Balances) {
      forall p :: p in Products() ==> Allowed(op, BalOf(b, p), Demand(requests, p))
    }

    function Written(b: Balances): Balances {
      map p | p in b.Keys + Products() :: if p in Products() then Shifted(p, BalOf(b, p)) else b[p]
    }
  }

  datatype Progress = Running | Committed | Aborted

  /** `view` holds the rows the transaction has locked, as it sees them. */
  datatype Txn = Txn(carts: seq<Cart>, done: nat, locked: nat, view: Balances, state: Progress)

  /** `log` lists the committed transactions in commit order. */
  datatype World = World(rows: Balances, txns: seq<Txn>, log: seq<nat>)

  function ProductsOf(carts: seq<Cart>): set<nat> {
    if carts == [] then {} else ProductsOf(carts[..|carts| - 1]) + carts[|carts| - 1].Products()
  }

  // ----- One step of one transaction

  predicate HeldElsewhere(w: World, i: nat, p: nat) {
    exists j {:trigger w.txns[j]} :: 0 <= j < |w.txns| && j != i && p in w.txns[j].view
  }

  /** The next state if transaction i moves, or None when it has finished or must wait. */
  function Next(w: World, i: nat): Option<World>
    requires i < |w.txns|
  {
    var x := w.txns[i];
    if x.state != Running then None
    else if x.done >= |x.carts| then
      Some(World(w.rows + x.view, w.txns[i := x.(view := map[], state := Committed)], w.log + [i]))
    else
      var cart := x.carts[x.done];
      var ids := Ascending(cart.Products());
      if x.locked < |ids| then
        var p := ids[x.locked];
        if p in x.view then Some(w.(txns := w.txns[i := x.(locked := x.locked + 1)]))
        else if HeldElsewhere(w, i, p) then None
        else Some(w.(txns := w.txns[i := x.(locked := x.locked + 1, view := x.view[p := BalOf(w.rows, p)])]))
      else if cart.Fits(x.view) then
        Some(w.(txns := w.txns[i := x.(done := x.done + 1, locked := 0, view := cart.Written(x.view))]))
      else Some(w.(txns := w.txns[i := x.(view := map[], state := Aborted)]))
  }

  function Start(rows: Balances, plans: seq<seq<Cart>>): World {
    World(rows, seq(|plans|, i requires 0 <= i < |plans| => Txn(plans[i], 0, 0, map[], Running)), [])
  }

  /** A schedule names who moves next; naming one that cannot move changes nothing. */
  function Schedule(w: World, moves: seq<nat>): World {
    if moves == [] then w
    else
      var earlier := Schedule(w, moves[..|moves| - 1]);
      var i := moves[|moves| - 1];
      if i < |earlier.txns| && Next(earlier, i).Some? then Next(earlier, i).value else earlier
  }

  // ----- What the services' transactions look like

  /** The rows a cart locks anew come after every row already locked. */
  ghost predicate Ordered(carts: seq<Cart>) {
    forall k, p, q {:trigger p in carts[k].Products(), q in ProductsOf(carts[..k])} ::
      0 <= k < |carts| && p in carts[k].Products() && q in ProductsOf(carts[..k]) && p !in ProductsOf(carts[..k]) ==> q < p
  }

  ghost predicate Positive(carts: seq<Cart>) {
    forall k, r {:trigger r in carts[k].requests} :: 0 <= k < |carts| && r in carts[k].requests ==> r.quantity > 0
  }

  ghost predicate Planned(plans: seq<seq<Cart>>) {
    forall i {:trigger plans[i]} :: 0 <= i < |plans| ==> Ordered(plans[i]) && Positive(plans[i])
  }

  // ----- Running alone

  /** The rows after the carts of one transaction with nothing in between; None when it aborts. */
  function Serial(b: Balances, carts: seq<Cart>): Option<Balances> {
    if carts == [] then Some(b)
    else
      var earlier := Serial(b, carts[..|carts| - 1]);
      var last := carts[|carts| - 1];
      if earlier.Some? && last.Fits(earlier.value) then Some(last.Written(earlier.value)) else None
  }

  /** The committed transactions one after another, in commit order. */
  function Replay(rows: Balances, txns: seq<Txn>, log: seq<nat>): Option<Balances> {
    if log == [] then Some(rows)
    else
      var earlier := Replay(rows, txns, log[..|log| - 1]);
      var i := log[|log| - 1];
      if earlier.Some? && i < |txns| then Serial(earlier.value, txns[i].carts) else None
  }

  ghost predicate Agree(b: Balances, c: Balances, on: set<nat>) {
    forall p {:trigger BalOf(b, p)} {:trigger BalOf(c, p)} :: p in on ==> BalOf(b, p) == BalOf(c, p)
  }

  lemma {:induction false} WrittenAt(cart: Cart, b: Balances, p: nat)
    ensures BalOf(cart.Written(b), p) == if p in cart.Products() then cart.Shifted(p, BalOf(b, p)) else BalOf(b, p)
  {
  }

  /** A transaction's outcome depends only on the rows of its own products. */
  lemma {:induction false} SerialLocal(b: Balances, c: Balances, carts: seq<Cart>, on: set<nat>)
    requires Agree(b, c, on) && ProductsOf(carts) <= on
    ensures Serial(b, carts).Some? <==> Serial(c, carts).Some?
    ensures Serial(b, carts).Some? ==> Agree(Serial(b, carts).value, Serial(c, carts).value, on)
  {
    if carts != [] {
      SerialLocal(b, c, carts[..|carts| - 1], on);
      var last := carts[|carts| - 1];
      var x, y := Serial(b, carts[..|carts| - 1]), Serial(c, carts[..|carts| - 1]);
      if x.Some? {
        assert forall p :: p in last.Products() ==> BalOf(x.value, p) == BalOf(y.value, p);
        forall p: nat | p in on ensures BalOf(last.Written(x.value), p) == BalOf(last.Written(y.value), p) {
          assert BalOf(x.value, p) == BalOf(y.value, p);
          WrittenAt(last, x.value, p);
          WrittenAt(last, y.value, p);
        }
      }
    }
  }

  /** It writes no other row. */
  lemma {:induction false} SerialFrame(b: Balances, carts: seq<Cart>)
    requires Serial(b, carts).Some?
    ensures Serial(b, carts).value.Keys == b.Keys + ProductsOf(carts)
    ensures forall p {:trigger BalOf(b, p)} :: p !in ProductsOf(carts) ==> BalOf(Serial(b, carts).value, p) == BalOf(b, p)
  {
    if carts != [] {
      SerialFrame(b, carts[..|carts| - 1]);
    }
  }

  // ----- The invariant

  /** What transaction x has locked: all its finished carts and a prefix of the current one. */
  function LockedSoFar(x: Txn): set<nat>
    requires x.done <= |x.carts|
  {
    ProductsOf(x.carts[..x.done])
    + (if x.done < |x.carts| && x.locked <= |Ascending(x.carts[x.done].Products())|
       then (set p | p in Ascending(x.carts[x.done].Products())[..x.locked]) else {})
  }

  /** A running transaction sees what it would see if it ran alone on the committed rows. */
  ghost predicate Isolated(x: Txn, rows: Balances) {
    && x.done <= |x.carts|
    && (x.done < |x.carts| ==> x.locked <= |Ascending(x.carts[x.done].Products())|)
    && x.view.Keys == LockedSoFar(x)
    && Serial(rows, x.carts[..x.done]).Some?
    && Agree(x.view, Serial(rows, x.carts[..x.done]).value, x.view.Keys)
  }

  ghost predicate TxnOk(x: Txn, rows: Balances) {
    && Ordered(x.carts) && Positive(x.carts)
    && if x.state == Running then Isolated(x, rows) else x.view == map[]
  }

  ghost predicate Disjoint(w: World) {
    forall i, j {:trigger w.txns[i], w.txns[j]} :: 0 <= i < j < |w.txns| ==> w.txns[i].view.Keys !! w.txns[j].view.Keys
  }

  ghost predicate LogOk(w: World) {
    && (forall k {:trigger w.log[k]} :: 0 <= k < |w.log| ==> w.log[k] < |w.txns|)
    && (forall i {:trigger w.txns[i]} :: 0 <= i < |w.txns| ==> (w.txns[i].state == Committed <==> i in w.log))
    && (forall k, l {:trigger w.log[k], w.log[l]} :: 0 <= k < l < |w.log| ==> w.log[k] != w.log[l])
  }

  ghost predicate Inv(rows: Balances, w: World) {
    && (forall i {:trigger w.txns[i]} :: 0 <= i < |w.txns| ==> TxnOk(w.txns[i], w.rows))
    && Disjoint(w)
    && LogOk(w)
    && Replay(rows, w.txns, w.log) == Some(w.rows)
  }

  // ----- Every step keeps it

  /** The plans of the transactions never change. */
  ghost predicate SamePlans(a: seq<Txn>, b: seq<Txn>) {
    |a| == |b| && forall i {:trigger a[i]} {:trigger b[i]} :: 0 <= i < |a| ==> a[i].carts == b[i].carts
  }

  lemma {:induction false} ReplayPlans(rows: Balances, a: seq<Txn>, b: seq<Txn>, log: seq<nat>)
    requires SamePlans(a, b)
    ensures Replay(rows, a, log) == Replay(rows, b, log)
  {
    if log != [] {
      ReplayPlans(rows, a, b, log[..|log| - 1]);
    }
  }

  /** A transaction that changed only its own progress. */
  lemma {:induction false} PrivateStep(rows: Balances, w: World, i: nat, x: Txn)
    requires Inv(rows, w) && i < |w.txns| && TxnOk(x, w.rows) && x.carts == w.txns[i].carts
    requires w.txns[i].state == Running && x.state != Committed
    requires forall j {:trigger w.txns[j]} :: 0 <= j < |w.txns| && j != i ==> x.view.Keys !! w.txns[j].view.Keys
    ensures Inv(rows, w.(txns := w.txns[i := x]))
  {
    var r := w.(txns := w.txns[i := x]);
    ReplayPlans(rows, w.txns, r.txns, w.log);
    hide TxnOk, Replay;
    assert forall j :: 0 <= j < |r.txns| ==> TxnOk(r.txns[j], r.rows);
  }

  lemma {:induction false} LockedMore(x: Txn, p: nat)
    requires x.done < |x.carts| && x.locked < |Ascending(x.carts[x.done].Products())|
    requires p == Ascending(x.carts[x.done].Products())[x.locked]
    ensures LockedSoFar(x.(locked := x.locked + 1)) == LockedSoFar(x) + {p}
  {
    var ids := Ascending(x.carts[x.done].Products());
    assert ids[..x.locked + 1] == ids[..x.locked] + [p];
  }

  /** A row not yet locked still is as the transaction would find it running alone. */
  lemma {:induction false} ReadRow(view: Balances, rows: Balances, earlier: seq<Cart>, p: nat)
    requires Serial(rows, earlier).Some? && Agree(view, Serial(rows, earlier).value, view.Keys)
    requires p !in ProductsOf(earlier)
    ensures Agree(view[p := BalOf(rows, p)], Serial(rows, earlier).value, view.Keys + {p})
  {
    SerialFrame(rows, earlier);
    hide Serial;
    var s := Serial(rows, earlier).value;
    assert BalOf(s, p) == BalOf(rows, p);
    forall o: nat | o in view.Keys + {p} ensures BalOf(view[p := BalOf(rows, p)], o) == BalOf(s, o) {
      assert o != p ==> BalOf(view, o) == BalOf(s, o);
    }
  }

  lemma {:induction false} LockNext(x: Txn, rows: Balances, y: Txn)
    requires TxnOk(x, rows) && x.state == Running && x.done < |x.carts|
    requires x.locked < |Ascending(x.carts[x.done].Products())|
    requires var p := Ascending(x.carts[x.done].Products())[x.locked];
             y == x.(locked := x.locked + 1, view := if p in x.view then x.view else x.view[p := BalOf(rows, p)])
    ensures TxnOk(y, rows)
  {
    var p := Ascending(x.carts[x.done].Products())[x.locked];
    LockedMore(x, p);
    assert LockedSoFar(y) == LockedSoFar(x.(locked := x.locked + 1));
    var earlier := x.carts[..x.done];
    assert y.carts[..y.done] == earlier;
    assert p in ProductsOf(earlier) ==> p in LockedSoFar(x);
    hide Serial, LockedSoFar, Ordered, Positive, Agree;
    if p !in x.view {
      ReadRow(x.view, rows, earlier, p);
    }
    assert y.view.Keys == x.view.Keys + {p};
  }

  lemma {:induction false} AscendingAll(s: set<nat>)
    ensures (set p | p in Ascending(s)[..|Ascending(s)|]) == s
  {
    assert Ascending(s)[..|Ascending(s)|] == Ascending(s);
  }

  /** Carts see the same rows, so they fit alike and write alike. */
  lemma {:induction false} CartAgrees(cart: Cart, view: Balances, s: Balances, on: set<nat>)
    requires Agree(view, s, on) && cart.Products() <= on
    ensures cart.Fits(view) <==> cart.Fits(s)
    ensures Agree(cart.Written(view), cart.Written(s), on)
  {
    forall p: nat | p in on ensures BalOf(cart.Written(view), p) == BalOf(cart.Written(s), p) {
      assert BalOf(view, p) == BalOf(s, p);
      WrittenAt(cart, view, p);
      WrittenAt(cart, s, p);
    }
    forall p | p in cart.Products() ensures BalOf(view, p) == BalOf(s, p) {
    }
  }

  lemma {:induction false} AllLocked(x: Txn)
    requires x.done < |x.carts| && x.locked == |Ascending(x.carts[x.done].Products())|
    ensures LockedSoFar(x) == ProductsOf(x.carts[..x.done + 1])
    ensures x.carts[x.done].Products() <= LockedSoFar(x)
  {
    AscendingAll(x.carts[x.done].Products());
    assert x.carts[..x.done + 1][..x.done] == x.carts[..x.done];
  }

  lemma {:induction false} JustActed(y: Txn)
    requires y.done <= |y.carts| && y.locked == 0
    ensures LockedSoFar(y) == ProductsOf(y.carts[..y.done])
  {
    if y.done < |y.carts| {
      assert Ascending(y.carts[y.done].Products())[..0] == [];
    }
  }

  lemma {:induction false} SerialNext(rows: Balances, carts: seq<Cart>, n: nat)
    requires n < |carts| && Serial(rows, carts[..n]).Some? && carts[n].Fits(Serial(rows, carts[..n]).value)
    ensures Serial(rows, carts[..n + 1]) == Some(carts[n].Written(Serial(rows, carts[..n]).value))
  {
    assert carts[..n + 1][..n] == carts[..n];
  }

  /** Acting on the locked rows is what acting alone would do. */
  lemma {:induction false} ActNext(x: Txn, rows: Balances)
    requires TxnOk(x, rows) && x.state == Running && x.done < |x.carts|
    requires x.locked == |Ascending(x.carts[x.done].Products())|
    ensures x.carts[x.done].Products() <= x.view.Keys
    ensures x.carts[x.done].Fits(x.view) ==>
              TxnOk(x.(done := x.done + 1, locked := 0, view := x.carts[x.done].Written(x.view)), rows)
  {
    AllLocked(x);
    hide Cart.Fits, Serial, LockedSoFar, Ordered, Positive, Agree, Cart.Written;
    if x.carts[x.done].Fits(x.view) {
      ActedView(x, rows);
    }
  }

  lemma {:induction false} ActedView(x: Txn, rows: Balances)
    requires x.done < |x.carts| && x.locked == |Ascending(x.carts[x.done].Products())| && x.state == Running
    requires x.view.Keys == LockedSoFar(x) && Serial(rows, x.carts[..x.done]).Some?
    requires Agree(x.view, Serial(rows, x.carts[..x.done]).value, x.view.Keys)
    requires Ordered(x.carts) && Positive(x.carts) && x.carts[x.done].Fits(x.view)
    ensures TxnOk(x.(done := x.done + 1, locked := 0, view := x.carts[x.done].Written(x.view)), rows)
  {
    hide *;
    var cart := x.carts[x.done];
    AllLocked(x);
    var y := x.(done := x.done + 1, locked := 0, view := cart.Written(x.view));
    WrittenKeys(cart, x.view);
    JustActed(y);
    CartAgrees(cart, x.view, Serial(rows, x.carts[..x.done]).value, x.view.Keys);
    SerialNext(rows, x.carts, x.done);
    AssembleTxn(y, rows);
  }

  lemma {:induction false} WrittenKeys(cart: Cart, b: Balances)
    ensures cart.Written(b).Keys == b.Keys + cart.Products()
  {
  }

  lemma {:induction false} AssembleTxn(y: Txn, rows: Balances)
    requires Ordered(y.carts) && Positive(y.carts) && y.state == Running
    requires y.done <= |y.carts| && y.locked == 0 && y.view.Keys == LockedSoFar(y)
    requires Serial(rows, y.carts[..y.done]).Some?
    requires Agree(y.view, Serial(rows, y.carts[..y.done]).value, y.view.Keys)
    ensures TxnOk(y, rows)
  {
  }

  /** Committing writes exactly what running alone would have written. */
  lemma {:induction false} CommitWrites(x: Txn, rows: Balances)
    requires TxnOk(x, rows) && x.state == Running && x.done == |x.carts|
    ensures Serial(rows, x.carts) == Some(rows + x.view)
  {
    assert x.carts[..x.done] == x.carts;
    assert x.view.Keys == ProductsOf(x.carts);
    SerialFrame(rows, x.carts);
    var s := Serial(rows, x.carts).value;
    assert s.Keys == (rows + x.view).Keys;
    forall p | p in s ensures s[p] == (rows + x.view)[p] {
      assert BalOf(s, p) == s[p];
      if p in x.view {
        assert BalOf(x.view, p) == BalOf(s, p);
      } else {
        assert BalOf(s, p) == BalOf(rows, p);
      }
    }
    assert s == rows + x.view;
  }

  /** Rows that someone else commits are not rows this transaction has locked. */
  lemma {:induction false} OthersUndisturbed(y: Txn, rows: Balances, written: Balances)
    requires TxnOk(y, rows) && y.view.Keys !! written.Keys
    ensures TxnOk(y, rows + written)
  {
    if y.state == Running {
      var carts := y.carts[..y.done];
      assert Agree(rows, rows + written, y.view.Keys);
      SerialLocal(rows, rows + written, carts, y.view.Keys);
      var s, r := Serial(rows, carts).value, Serial(rows + written, carts).value;
      forall p | p in y.view.Keys ensures BalOf(y.view, p) == BalOf(r, p) {
        assert BalOf(y.view, p) == BalOf(s, p);
      }
    }
  }

  lemma {:induction false} CommitStep(rows: Balances, w: World, i: nat)
    requires Inv(rows, w) && i < |w.txns|
    requires w.txns[i].state == Running && w.txns[i].done == |w.txns[i].carts|
    ensures Inv(rows, Next(w, i).value)
  {
    var x := w.txns[i];
    var r := Next(w, i).value;
    CommitWrites(x, w.rows);
    ReplayPlans(rows, w.txns, r.txns, w.log);
    assert r.log[..|w.log|] == w.log;
    assert Replay(rows, r.txns, r.log) == Some(r.rows);
    assert i !in w.log;
    hide Replay, Serial;
    forall j | 0 <= j < |r.txns| ensures TxnOk(r.txns[j], r.rows) {
      if j != i {
        assert TxnOk(w.txns[j], w.rows);
        assert w.txns[j].view.Keys !! x.view.Keys;
        hide TxnOk;
        OthersUndisturbed(w.txns[j], w.rows, x.view);
      }
    }
    hide TxnOk;
    CommitLog(w, r, i);
  }

  lemma {:induction false} CommitLog(w: World, r: World, i: nat)
    requires LogOk(w) && i < |w.txns| && i !in w.log && r.log == w.log + [i]
    requires r.txns == w.txns[i := w.txns[i].(view := map[], state := Committed)]
    ensures LogOk(r)
  {
    forall j {:trigger r.txns[j]} | 0 <= j < |r.txns| ensures r.txns[j].state == Committed <==> j in r.log {
      assert w.txns[j].state == Committed <==> j in w.log;
    }
  }

  lemma {:induction false} LockStep(rows: Balances, w: World, i: nat)
    requires Inv(rows, w) && i < |w.txns| && Next(w, i).Some?
    requires var x := w.txns[i];
             x.state == Running && x.done < |x.carts| && x.locked < |Ascending(x.carts[x.done].Products())|
    ensures Inv(rows, Next(w, i).value)
  {
    var x := w.txns[i];
    var p := Ascending(x.carts[x.done].Products())[x.locked];
    var y := x.(locked := x.locked + 1, view := if p in x.view then x.view else x.view[p := BalOf(w.rows, p)]);
    assert TxnOk(x, w.rows);
    hide TxnOk;
    LockNext(x, w.rows, y);
    forall j {:trigger w.txns[j]} | 0 <= j < |w.txns| && j != i ensures y.view.Keys !! w.txns[j].view.Keys {
      assert x.view.Keys !! w.txns[j].view.Keys;
    }
    PrivateStep(rows, w, i, y);
  }

  lemma {:induction false} ActStep(rows: Balances, w: World, i: nat)
    requires Inv(rows, w) && i < |w.txns|
    requires var x := w.txns[i];
             x.state == Running && x.done < |x.carts| && x.locked == |Ascending(x.carts[x.done].Products())|
    ensures Next(w, i).Some? && Inv(rows, Next(w, i).value)
  {
    var x := w.txns[i];
    var cart := x.carts[x.done];
    assert TxnOk(x, w.rows);
    hide TxnOk;
    ActNext(x, w.rows);
    AbortOk(x, w.rows);
    var y := if cart.Fits(x.view) then x.(done := x.done + 1, locked := 0, view := cart.Written(x.view))
             else x.(view := map[], state := Aborted);
    assert y.view.Keys <= x.view.Keys;
    assert Next(w, i) == Some(w.(txns := w.txns[i := y]));
    forall j {:trigger w.txns[j]} | 0 <= j < |w.txns| && j != i ensures y.view.Keys !! w.txns[j].view.Keys {
      assert x.view.Keys !! w.txns[j].view.Keys;
    }
    hide Inv, Next;
    PrivateStep(rows, w, i, y);
  }

  lemma {:induction false} AbortOk(x: Txn, rows: Balances)
    requires TxnOk(x, rows)
    ensures TxnOk(x.(view := map[], state := Aborted), rows)
  {
  }

  lemma {:induction false} NextPlans(w: World, i: nat)
    requires i < |w.txns| && Next(w, i).Some?
    ensures SamePlans(w.txns, Next(w, i).value.txns)
  {
  }

  lemma {:induction false} NextKeeps(rows: Balances, w: World, i: nat)
    requires Inv(rows, w) && i < |w.txns| && Next(w, i).Some?
    ensures Inv(rows, Next(w, i).value)
  {
    var x := w.txns[i];
    assert x.state == Running && TxnOk(x, w.rows);
    assert x.done <= |x.carts| && (x.done < |x.carts| ==> x.locked <= |Ascending(x.carts[x.done].Products())|);
    hide Inv, TxnOk, Next;
    if x.done == |x.carts| {
      CommitStep(rows, w, i);
    } else if x.locked < |Ascending(x.carts[x.done].Products())| {
      LockStep(rows, w, i);
    } else {
      ActStep(rows, w, i);
    }
  }

  lemma {:induction false} StartInv(rows: Balances, plans: seq<seq<Cart>>)
    requires Planned(plans)
    ensures Inv(rows, Start(rows, plans))
  {
    var w := Start(rows, plans);
    forall i {:trigger w.txns[i]} | 0 <= i < |w.txns| ensures TxnOk(w.txns[i], w.rows) {
      var x := w.txns[i];
      assert Ordered(plans[i]) && Positive(plans[i]);
      assert x.carts[..0] == [];
      if x.done < |x.carts| {
        assert Ascending(x.carts[x.done].Products())[..0] == [];
      }
    }
  }

  lemma {:induction false} ScheduleKeeps(rows: Balances, w: World, moves: seq<nat>)
    requires Inv(rows, w)
    ensures Inv(rows, Schedule(w, moves))
    ensures SamePlans(w.txns, Schedule(w, moves).txns)
  {
    hide Inv, Next;
    if moves != [] {
      var earlier := Schedule(w, moves[..|moves| - 1]);
      ScheduleKeeps(rows, w, moves[..|moves| - 1]);
      var i := moves[|moves| - 1];
      if i < |earlier.txns| && Next(earlier, i).Some? {
        NextKeeps(rows, earlier, i);
        NextPlans(earlier, i);
      }
    }
  }

  // ----- Serialisable, and never oversold

  /**
   * Under every schedule the committed rows are those of the committed transactions run one
   * after another in commit order; aborted and unfinished ones have left no trace.
   */
  lemma {:induction false} Serialisable(rows: Balances, plans: seq<seq<Cart>>, moves: seq<nat>)
    requires Planned(plans)
    ensures var w := Schedule(Start(rows, plans), moves);
            && Replay(rows, w.txns, w.log) == Some(w.rows)
            && SamePlans(Start(rows, plans).txns, w.txns)
            && LogOk(w)
  {
    StartInv(rows, plans);
    ScheduleKeeps(rows, Start(rows, plans), moves);
  }

  ghost predicate Covered(b: Balances) {
    forall p: nat {:trigger BalOf(b, p)} :: 0 <= BalOf(b, p).reserved <= BalOf(b, p).onHand
  }

  lemma {:induction false} CartCovered(b: Balances, cart: Cart)
    requires Covered(b) && cart.Fits(b) && forall r :: r in cart.requests ==> r.quantity > 0
    ensures Covered(cart.Written(b))
  {
    forall p: nat ensures 0 <= BalOf(cart.Written(b), p).reserved <= BalOf(cart.Written(b), p).onHand {
      DemandSign(cart.requests, p);
      assert 0 <= BalOf(b, p).reserved <= BalOf(b, p).onHand;
    }
  }

  lemma {:induction false} SerialCovered(b: Balances, carts: seq<Cart>)
    requires Covered(b) && Positive(carts) && Serial(b, carts).Some?
    ensures Covered(Serial(b, carts).value)
  {
    if carts != [] {
      var init := carts[..|carts| - 1];
      assert forall k, r :: 0 <= k < |init| && r in init[k].requests ==> r in carts[k].requests;
      SerialCovered(b, init);
      CartCovered(Serial(b, init).value, carts[|carts| - 1]);
    }
  }

  lemma {:induction false} ReplayCovered(rows: Balances, txns: seq<Txn>, log: seq<nat>)
    requires Covered(rows) && Replay(rows, txns, log).Some?
    requires forall i {:trigger txns[i]} :: 0 <= i < |txns| ==> Positive(txns[i].carts)
    ensures Covered(Replay(rows, txns, log).value)
  {
    if log != [] {
      var init := log[..|log| - 1];
      ReplayCovered(rows, txns, init);
      SerialCovered(Replay(rows, txns, init).value, txns[log[|log| - 1]].carts);
    }
  }

  /** No interleaving of any number of carts oversells a product. */
  lemma {:induction false} NeverOversold(rows: Balances, plans: seq<seq<Cart>>, moves: seq<nat>)
    requires Planned(plans) && Covered(rows)
    ensures Covered(Schedule(Start(rows, plans), moves).rows)
  {
    StartInv(rows, plans);
    ScheduleKeeps(rows, Start(rows, plans), moves);
    var w := Schedule(Start(rows, plans), moves);
    forall i {:trigger w.txns[i]} | 0 <= i < |w.txns| ensures Positive(w.txns[i].carts) {
      assert TxnOk(w.txns[i], w.rows);
    }
    ReplayCovered(rows, w.txns, w.log);
  }

  // ----- No deadlock

  predicate Unfinished(w: World, i: nat) {
    i < |w.txns| && w.txns[i].state == Running
  }

  /** The row a transaction is about to lock. */
  function Wanted(x: Txn): Option<nat> {
    if x.state == Running && x.done < |x.carts| && x.locked < |Ascending(x.carts[x.done].Products())|
    then Some(Ascending(x.carts[x.done].Products())[x.locked]) else None
  }

  lemma {:induction false} BlockedWants(rows: Balances, w: World, i: nat)
    requires Inv(rows, w) && Unfinished(w, i) && Next(w, i).None?
    ensures Wanted(w.txns[i]).Some? && Wanted(w.txns[i]).value !in w.txns[i].view
    ensures HeldElsewhere(w, i, Wanted(w.txns[i]).value)
  {
    assert TxnOk(w.txns[i], w.rows);
  }

  /** What a transaction still has to lock comes after everything it holds. */
  lemma {:induction false} WantsBeyondHeld(x: Txn, rows: Balances, p: nat)
    requires TxnOk(x, rows) && Wanted(x).Some? && Wanted(x).value !in x.view && p in x.view
    ensures p < Wanted(x).value
  {
    var ids := Ascending(x.carts[x.done].Products());
    var want := ids[x.locked];
    assert want in ids;
    assert want in x.carts[x.done].Products();
    assert p in LockedSoFar(x);
    if p in ProductsOf(x.carts[..x.done]) {
      assert want !in ProductsOf(x.carts[..x.done]);
    } else {
      assert p in ids[..x.locked];
    }
  }

  /** Follow the waiting transactions upwards: each waits for a larger row than the one before. */
  lemma {:induction false} SomeoneMoves(rows: Balances, w: World, i: nat, bound: nat) returns (k: nat)
    requires Inv(rows, w) && Unfinished(w, i)
    requires forall j {:trigger w.txns[j]} :: 0 <= j < |w.txns| && Wanted(w.txns[j]).Some? ==> Wanted(w.txns[j]).value <= bound
    ensures Unfinished(w, k) && Next(w, k).Some?
    decreases if Next(w, i).Some? || Wanted(w.txns[i]).None? then 0 else bound + 1 - Wanted(w.txns[i]).value
  {
    if Next(w, i).Some? {
      k := i;
    } else {
      BlockedWants(rows, w, i);
      var p := Wanted(w.txns[i]).value;
      var j :| 0 <= j < |w.txns| && j != i && p in w.txns[j].view;
      assert TxnOk(w.txns[j], w.rows);
      if Next(w, j).None? {
        BlockedWants(rows, w, j);
        WantsBeyondHeld(w.txns[j], w.rows, p);
      }
      hide Inv, TxnOk, Next, HeldElsewhere;
      k := SomeoneMoves(rows, w, j, bound);
    }
  }

  function HighestWanted(txns: seq<Txn>): (h: nat)
    ensures forall j {:trigger txns[j]} :: 0 <= j < |txns| && Wanted(txns[j]).Some? ==> Wanted(txns[j]).value <= h
  {
    if txns == [] then 0
    else
      var last := Wanted(txns[|txns| - 1]);
      var h := HighestWanted(txns[..|txns| - 1]);
      assert forall j {:trigger txns[j]} :: 0 <= j < |txns| - 1 ==> txns[..|txns| - 1][j] == txns[j];
      if last.Some? && last.value > h then last.value else h
  }

  /** Whatever the interleaving so far, as long as someone is unfinished someone can move. */
  lemma {:induction false} NoDeadlock(rows: Balances, plans: seq<seq<Cart>>, moves: seq<nat>, i: nat) returns (k: nat)
    requires Planned(plans) && Unfinished(Schedule(Start(rows, plans), moves), i)
    ensures Unfinished(Schedule(Start(rows, plans), moves), k)
    ensures Next(Schedule(Start(rows, plans), moves), k).Some?
  {
    var w := Schedule(Start(rows, plans), moves);
    StartInv(rows, plans);
    ScheduleKeeps(rows, Start(rows, plans), moves);
    hide Inv, Next, Schedule, Start;
    k := SomeoneMoves(rows, w, i, HighestWanted(w.txns));
  }

  // ----- Everyone finishes

  function Left(carts: seq<Cart>, done: nat): nat
    decreases |carts| - done
  {
    if done >= |carts| then 0 else |Ascending(carts[done].Products())| + 1 + Left(carts, done + 1)
  }

  /** Steps a transaction still has to take, waiting not counted. */
  function TxnWork(x: Txn): int {
    if x.state != Running then 0
    else Left(x.carts, x.done) + 1 - (if x.done < |x.carts| then x.locked else 0)
  }

  function Work(txns: seq<Txn>): int {
    if txns == [] then 0 else Work(txns[..|txns| - 1]) + TxnWork(txns[|txns| - 1])
  }

  lemma {:induction false} WorkUpdate(txns: seq<Txn>, i: nat, x: Txn)
    requires i < |txns|
    ensures Work(txns[i := x]) == Work(txns) - TxnWork(txns[i]) + TxnWork(x)
  {
    var last := |txns| - 1;
    if i < last {
      WorkUpdate(txns[..last], i, x);
      assert txns[i := x][..last] == txns[..last][i := x];
    } else {
      assert txns[i := x][..last] == txns[..last];
    }
  }

  lemma {:induction false} WorkNat(txns: seq<Txn>, rows: Balances)
    requires forall i {:trigger txns[i]} :: 0 <= i < |txns| ==> TxnOk(txns[i], rows)
    ensures Work(txns) >= 0
  {
    if txns != [] {
      assert forall i :: 0 <= i < |txns| - 1 ==> txns[..|txns| - 1][i] == txns[i];
      WorkNat(txns[..|txns| - 1], rows);
      assert TxnOk(txns[|txns| - 1], rows);
    }
  }

  /** Every step that is taken brings the end nearer, so no schedule can go on for ever. */
  lemma {:induction false} NextWorks(rows: Balances, w: World, i: nat)
    requires Inv(rows, w) && i < |w.txns| && Next(w, i).Some?
    ensures Work(Next(w, i).value.txns) < Work(w.txns)
  {
    var x := w.txns[i];
    var y := Next(w, i).value.txns[i];
    assert TxnOk(x, w.rows);
    hide Inv, TxnOk, Cart.Fits, Cart.Written, HeldElsewhere, Serial, Agree;
    assert Next(w, i).value.txns == w.txns[i := y];
    WorkUpdate(w.txns, i, y);
    assert TxnWork(y) < TxnWork(x) by { StepWorks(w, i, y); }
  }

  lemma {:induction false} StepWorks(w: World, i: nat, y: Txn)
    requires i < |w.txns| && Next(w, i).Some? && y == Next(w, i).value.txns[i]
    requires TxnOk(w.txns[i], w.rows)
    ensures TxnWork(y) < TxnWork(w.txns[i])
  {
    hide Cart.Fits, Cart.Written, HeldElsewhere, Serial, Agree, Ordered, Positive, LockedSoFar;
  }

  lemma {:induction false} ScheduleFirst(w: World, k: nat, rest: seq<nat>)
    requires k < |w.txns| && Next(w, k).Some?
    ensures Schedule(w, [k] + rest) == Schedule(Next(w, k).value, rest)
  {
    hide Next;
    if rest == [] {
      assert ([k] + rest)[..0] == [];
      assert [k] + rest == [k];
    } else {
      assert ([k] + rest)[..|rest|] == [k] + rest[..|rest| - 1];
      ScheduleFirst(w, k, rest[..|rest| - 1]);
    }
  }

  /** From any point of any run, some schedule brings every transaction to its end. */
  lemma {:induction false} AllFinish(rows: Balances, w: World) returns (more: seq<nat>)
    requires Inv(rows, w)
    ensures forall i {:trigger Unfinished(Schedule(w, more), i)} :: !Unfinished(Schedule(w, more), i)
    decreases Max(Work(w.txns), 0)
  {
    if i: nat :| Unfinished(w, i) {
      var k := SomeoneMoves(rows, w, i, HighestWanted(w.txns));
      NextKeeps(rows, w, k);
      NextWorks(rows, w, k);
      WorkNat(Next(w, k).value.txns, Next(w, k).value.rows);
      hide Inv, Next;
      var rest := AllFinish(rows, Next(w, k).value);
      ScheduleFirst(w, k, rest);
      more := [k] + rest;
    } else {
      more := [];
    }
  }

  // ----- The services' carts are planned

  /** A cart run alone does to the balances what the ledger's transaction does. */
  lemma {:induction false} CartIsTransact(t: Tables, op: Op, requests: seq<Request>)
    requires requests != [] && forall r :: r in requests ==> r.product < |t.products| && r.quantity > 0
    ensures Transact(t, op, requests).Ok? <==> Serial(t.balances, [Cart(op, requests)]).Some?
    ensures Transact(t, op, requests).Ok? ==>
              forall p: nat :: Transact(t, op, requests).value.Bal(p) == BalOf(Serial(t.balances, [Cart(op, requests)]).value, p)
  {
    SerialOne(t.balances, Cart(op, requests));
    TransactIs(t, op, requests);
    FitsIsAllowed(t, op, requests);
    hide *;
    if Acceptable(t, op, requests) {
      forall p: nat
        ensures Accepted(t, op, requests).Bal(p) == BalOf(Cart(op, requests).Written(t.balances), p)
      {
        AcceptedAt(t, op, requests, p);
      }
    }
  }

  lemma {:induction false} SerialOne(b: Balances, cart: Cart)
    ensures Serial(b, [cart]) == if cart.Fits(b) then Some(cart.Written(b)) else None
  {
    assert [cart][..0] == [];
  }

  lemma {:induction false} FitsIsAllowed(t: Tables, op: Op, requests: seq<Request>)
    requires requests != [] && forall r :: r in requests ==> r.product < |t.products| && r.quantity > 0
    ensures Cart(op, requests).Fits(t.balances) <==> Acceptable(t, op, requests)
  {
    hide Allowed, Demand;
    assert forall p: nat :: t.Bal(p) == BalOf(t.balances, p);
  }

  lemma {:induction false} AcceptedAt(t: Tables, op: Op, requests: seq<Request>, p: nat)
    requires Acceptable(t, op, requests) && forall r :: r in requests ==> r.quantity > 0
    ensures forall x :: x in Requested(requests) ==> x < |t.products|
    ensures Accepted(t, op, requests).Bal(p) == BalOf(Cart(op, requests).Written(t.balances), p)
  {
    hide *;
    TransactIs(t, op, requests);
    AcceptedCounters(t, op, requests, p);
    WrittenAt(Cart(op, requests), t.balances, p);
    ShiftedOrNot(Cart(op, requests), t.balances, p);
    SameRow(t, p);
  }

  lemma {:induction false} SameRow(t: Tables, p: nat)
    ensures t.Bal(p) == BalOf(t.balances, p)
  {
  }

  lemma {:induction false} ShiftedOrNot(cart: Cart, b: Balances, p: nat)
    requires forall r :: r in cart.requests ==> r.quantity > 0
    ensures (if p in cart.Products() then cart.Shifted(p, BalOf(b, p)) else BalOf(b, p)) ==
            Balance(BalOf(b, p).onHand + SignedOnHand(cart.op, Demand(cart.requests, p)),
                    BalOf(b, p).reserved + SignedReserved(cart.op, Demand(cart.requests, p)))
  {
    DemandSign(cart.requests, p);
  }

  lemma {:induction false} AcceptedCounters(t: Tables, op: Op, requests: seq<Request>, p: nat)
    requires Acceptable(t, op, requests)
    ensures forall x :: x in Requested(requests) ==> x < |t.products|
    ensures Accepted(t, op, requests).Bal(p) ==
            Balance(t.Bal(p).onHand + SignedOnHand(op, Demand(requests, p)),
                    t.Bal(p).reserved + SignedReserved(op, Demand(requests, p)))
  {
    hide Acceptable, Act, ActAll, Allowed, Demand, SignedReserved, SignedOnHand, Transact;
    TransactIs(t, op, requests);
    TotalsMove(t, op, requests, p);
  }

  lemma {:induction false} OneCart(cart: Cart)
    requires forall r :: r in cart.requests ==> r.quantity > 0
    ensures Planned([[cart]])
  {
    assert [cart][..0] == [];
  }

  /** A reissue releases its order's rows and reserves the same products again: it re-locks only rows it holds. */
  lemma {:induction false} ReissuePlanned(o: Order, products: seq<Product>, replacement: seq<Line>)
    requires LinesOk(o, |products|) && ReservationsOk(o, Open)
    requires CleanedAll(products, InputsOf(o.lines), replacement)
    ensures var release := Cart(Free, RequestsOf(o.reservations, Open));
            var reserve := Cart(Hold, LineRequests(replacement));
            release.Products() == reserve.Products() && ServicePlan([release, reserve])
  {
    var release := Cart(Free, RequestsOf(o.reservations, Open));
    var reserve := Cart(Hold, LineRequests(replacement));
    CartOf(o, |products|, Open);
    SameLineRequests(o.lines, products, replacement);
    forall r | r in reserve.requests ensures r.quantity > 0 {
      var i :| 0 <= i < |reserve.requests| && reserve.requests[i] == r;
      assert o.lines[i].quantity > 0;
    }
    forall p: nat ensures p in release.Products() <==> p in reserve.Products() {
      DemandSign(release.requests, p);
      DemandSign(reserve.requests, p);
      DemandOfLines(o.lines, p);
    }
  }

  lemma {:induction false} TwoCarts(a: Cart, b: Cart)
    requires a.Products() == b.Products()
    requires forall r :: r in a.requests ==> r.quantity > 0
    requires forall r :: r in b.requests ==> r.quantity > 0
    ensures Planned([[a, b]])
  {
    var plan := [a, b];
    assert plan[..0] == [] && plan[..1] == [a] && [a][..0] == [];
    assert ProductsOf(plan[..0]) == {} && ProductsOf(plan[..1]) == plan[1].Products();
  }

  /** What a service's transaction plans: one cart, or a reissue's release and reserve of the same products. */
  ghost predicate ServicePlan(plan: seq<Cart>) {
    && Positive(plan)
    && (|plan| == 1 || (|plan| == 2 && plan[0].Products() == plan[1].Products()))
  }

  lemma {:induction false} ServicePlanOrdered(plan: seq<Cart>)
    requires ServicePlan(plan)
    ensures Ordered(plan)
  {
    assert forall k, r {:trigger r in plan[k].requests} :: 0 <= k < |plan| && r in plan[k].requests ==> r.quantity > 0;
    if |plan| == 1 {
      assert plan == [plan[0]];
      OneCart(plan[0]);
      assert [plan][0] == plan;
    } else {
      assert plan == [plan[0], plan[1]];
      TwoCarts(plan[0], plan[1]);
      assert [plan][0] == plan;
    }
  }

  /** Any number of sales, releases, reservations and reissues at once is a planned world. */
  lemma {:induction false} MixPlanned(plans: seq<seq<Cart>>)
    requires forall i {:trigger plans[i]} :: 0 <= i < |plans| ==> ServicePlan(plans[i])
    ensures Planned(plans)
  {
    hide ServicePlan, Ordered, Positive;
    forall i {:trigger plans[i]} | 0 <= i < |plans| ensures Ordered(plans[i]) && Positive(plans[i]) {
      ServicePlanOrdered(plans[i]);
      PlanPositive(plans[i]);
    }
  }

  lemma {:induction false} PlanPositive(plan: seq<Cart>)
    requires ServicePlan(plan)
    ensures Positive(plan)
  {
  }

  /**
   * Any mix of the services' transactions, under any interleaving: the committed rows are serialised
   * and never oversold, and as long as one transaction is unfinished one can move.
   */
  lemma {:induction false} ServicesTogether(rows: Balances, plans: seq<seq<Cart>>, moves: seq<nat>)
    requires Covered(rows) && forall i {:trigger plans[i]} :: 0 <= i < |plans| ==> ServicePlan(plans[i])
    ensures var w := Schedule(Start(rows, plans), moves);
            && Replay(rows, w.txns, w.log) == Some(w.rows)
            && Covered(w.rows)
            && ((exists i {:trigger Unfinished(w, i)} :: Unfinished(w, i)) ==>
                  exists k {:trigger Unfinished(w, k)} :: Unfinished(w, k) && Next(w, k).Some?)
  {
    hide ServicePlan, Planned, Covered, Schedule, Start, Replay, Next, LogOk, SamePlans;
    MixPlanned(plans);
    Serialisable(rows, plans, moves);
    NeverOversold(rows, plans, moves);
    var w := Schedule(Start(rows, plans), moves);
    if i :| Unfinished(w, i) {
      var k := NoDeadlock(rows, plans, moves, i);
    }
  }

  lemma {:induction false} SameLineRequests(lines: seq<Line>, products: seq<Product>, replacement: seq<Line>)
    requires CleanedAll(products, InputsOf(lines), replacement)
    ensures LineRequests(replacement) == LineRequests(lines)
  {
    forall i | 0 <= i < |lines| ensures LineRequests(replacement)[i] == LineRequests(lines)[i] {
      assert CleanedLine(products, InputsOf(lines)[i], replacement[i]);
    }
  }
}
