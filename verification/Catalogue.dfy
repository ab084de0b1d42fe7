/** Catalogue commands, manual movements and thresholds keep every promise of the stock tables. */
module Catalogue {
  import opened Inventory
  import opened Alerts
  import opened Stock
  import opened Shop

  /** Nothing an order depends on changed: no reserved unit, no sale row, no product removed. */
  ghost predicate Beside(t: Tables, r: Tables) {
    && Sound(r)
    && |t.products| <= |r.products|
    && (forall p: nat {:trigger r.Bal(p)} :: r.Bal(p).reserved == t.Bal(p).reserved)
    && |t.movements| <= |r.movements|
    && (forall i {:trigger r.movements[i]} :: 0 <= i < |t.movements| ==> r.movements[i] == t.movements[i])
    && (forall i {:trigger r.movements[i]} :: |t.movements| <= i < |r.movements| ==>
          r.movements[i].reference == NoReference)
  }

  lemma {:induction false} PostedAbsent(movements: seq<Movement>, n: nat, p: nat)
    requires forall i {:trigger movements[i]} :: 0 <= i < |movements| ==> movements[i].product < n
    requires p >= n
    ensures Posted(movements, p) == 0
  {
    if movements != [] {
      var init := movements[..|movements| - 1];
      assert forall i {:trigger init[i]} :: 0 <= i < |init| ==> init[i] == movements[i];
      PostedAbsent(init, n, p);
    }
  }

  /** Replacing a product row and synchronising it keeps the tables sound. */
  lemma {:induction false} ReplaceSound(t: Tables, p: nat, product: Product)
    requires Sound(t) && p < |t.products|
    ensures Beside(t, Put(WithProduct(t, p, product), p, t.Bal(p)))
  {
    AgreementIsUnique(t);
    var w := WithProduct(t, p, product);
    assert forall o: nat :: o < |t.products| && o != p ==> w.products[o] == t.products[o];
    forall o: nat | o < |w.products| && o != p
      ensures ActiveOf(w.alerts, o) == AsSeq(Desired(o, w.products[o], w.lowStockThreshold, w.Bal(o)))
    {
      assert ActiveOf(t.alerts, o) == AsSeq(Desired(o, t.products[o], t.lowStockThreshold, t.Bal(o)));
    }
    PutAgrees(w, p, t.Bal(p));
    ReplaceLedger(t, Put(w, p, t.Bal(p)));
  }

  lemma {:induction false} ReplaceLedger(t: Tables, r: Tables)
    requires LedgerOk(t) && r.movements == t.movements && |r.products| == |t.products|
    requires forall p: nat :: p in r.balances <==> p in t.balances
    requires forall p: nat :: r.Bal(p) == t.Bal(p)
    ensures LedgerOk(r)
  {
    forall i: nat | i < |r.movements| ensures RowOk(r, i) {
      assert RowOk(t, i);
    }
  }

  /** Editing a listed product calls for no new alert, so none is synchronised. */
  lemma {:induction false} EditSound(t: Tables, p: nat, product: Product)
    requires Sound(t) && p < |t.products|
    requires t.products[p].status != Archived && product.status != Archived
    requires product.lowStockThreshold == t.products[p].lowStockThreshold
    ensures Beside(t, WithProduct(t, p, product))
  {
    var r := WithProduct(t, p, product);
    ReplaceLedger(t, r);
    forall o: nat | o < |r.products|
      ensures ActiveOf(r.alerts, o) == AsSeq(Desired(o, r.products[o], r.lowStockThreshold, r.Bal(o)))
    {
      assert ActiveOf(t.alerts, o) == AsSeq(Desired(o, t.products[o], t.lowStockThreshold, t.Bal(o)));
    }
  }

  lemma {:induction false} MovementSound(t: Tables, p: nat, kind: MovementType, quantity: int)
    requires Sound(t) && RecordMovement(t, p, kind, quantity).Ok?
    ensures Beside(t, RecordMovement(t, p, kind, quantity).value)
  {
    PostedSound(t, p, kind, Signed(kind, quantity), NoReference, t.Bal(p).reserved);
  }

  /** The tables with a product listed and its empty balance stored. */
  function Listed(t: Tables, product: Product): Tables {
    t.(products := t.products + [product], balances := t.balances[|t.products| := Balance(0, 0)])
  }

  lemma {:induction false} ListedLedger(t: Tables, product: Product)
    requires LedgerOk(t)
    ensures LedgerOk(Listed(t, product))
  {
    var n := |t.products|;
    var r := Listed(t, product);
    forall i: nat | i < |t.movements| ensures RowOk(r, i) && t.movements[i].product < n {
      assert RowOk(t, i);
    }
    PostedAbsent(t.movements, n, n);
    forall p: nat {:trigger Posted(r.movements, p)} | p < |r.products|
      ensures r.Bal(p).onHand == Posted(r.movements, p)
    {
    }
  }

  lemma {:induction false} ListedSound(t: Tables, product: Product)
    requires Sound(t)
    ensures Sound(Put(Listed(t, product), |t.products|, Balance(0, 0)))
  {
    AgreementIsUnique(t);
    ListedLedger(t, product);
    var w := Listed(t, product);
    forall o: nat | o < |w.products| && o != |t.products|
      ensures ActiveOf(w.alerts, o) == AsSeq(Desired(o, w.products[o], w.lowStockThreshold, w.Bal(o)))
    {
      assert w.products[o] == t.products[o];
      assert ActiveOf(t.alerts, o) == AsSeq(Desired(o, t.products[o], t.lowStockThreshold, t.Bal(o)));
    }
    PutAgrees(w, |t.products|, Balance(0, 0));
    ReplaceLedger(w, Put(w, |t.products|, Balance(0, 0)));
  }

  lemma {:induction false} ListedEntrySound(t: Tables, product: Product, initial: int)
    requires Sound(t) && initial > 0
    ensures Sound(Put(Post(Listed(t, product), |t.products|, Entry, initial, NoReference), |t.products|, Balance(initial, 0)))
  {
    AgreementIsUnique(t);
    ListedLedger(t, product);
    var n := |t.products|;
    var w := Post(Listed(t, product), n, Entry, initial, NoReference);
    PostRows(Listed(t, product), n, Entry, initial, NoReference);
    forall o: nat | o < |w.products| && o != n
      ensures ActiveOf(w.alerts, o) == AsSeq(Desired(o, w.products[o], w.lowStockThreshold, w.Bal(o)))
    {
      assert w.products[o] == t.products[o];
      assert ActiveOf(t.alerts, o) == AsSeq(Desired(o, t.products[o], t.lowStockThreshold, t.Bal(o)));
    }
    PutAgrees(w, n, Balance(initial, 0));
    SameRows(w, Put(w, n, Balance(initial, 0)));
    ListedCounters(t, product, initial);
  }

  lemma {:induction false} ListedCounters(t: Tables, product: Product, initial: int)
    requires Sound(t) && initial > 0
    ensures var r := Put(Post(Listed(t, product), |t.products|, Entry, initial, NoReference), |t.products|, Balance(initial, 0));
            && (forall p: nat :: p in r.balances <==> p < |r.products|)
            && (forall p: nat {:trigger Posted(r.movements, p)} :: p < |r.products| ==> r.Bal(p).onHand == Posted(r.movements, p))
            && NotOversold(r)
  {
    ListedLedger(t, product);
    PostRows(Listed(t, product), |t.products|, Entry, initial, NoReference);
    var w := Listed(t, product);
    var r := Put(Post(w, |t.products|, Entry, initial, NoReference), |t.products|, Balance(initial, 0));
    forall p: nat {:trigger Posted(r.movements, p)} | p < |r.products| ensures r.Bal(p).onHand == Posted(r.movements, p) {
      assert w.Bal(p).onHand == Posted(w.movements, p);
    }
    forall p: nat ensures 0 <= r.Bal(p).reserved <= r.Bal(p).onHand {
      assert 0 <= t.Bal(p).reserved <= t.Bal(p).onHand;
    }
  }

  lemma {:induction false} CreateSound(t: Tables, product: Product, initial: int)
    requires Sound(t) && CreateProduct(t, product, initial).Ok?
    ensures Beside(t, CreateProduct(t, product, initial).value)
  {
    assert |t.products| !in t.balances;
    if initial == 0 {
      ListedSound(t, product);
    } else {
      ListedEntrySound(t, product, initial);
    }
    hide Sound;
  }

  ghost predicate Stocked(t: Tables) {
    forall p: nat {:trigger p in t.balances} :: p < |t.products| ==> p in t.balances
  }

  lemma {:induction false} PutAgain(t: Tables, p: nat)
    requires p < |t.products| && UniqueActive(t.alerts) && p in t.balances
    ensures var r := Put(t, p, t.Bal(p));
            r.balances == t.balances && r.movements == t.movements && UniqueActive(r.alerts)
  {
    hide UniqueActive, Sync, Desired;
    assert t.balances[p := t.balances[p]] == t.balances;
    SyncKeepsUnique(t.alerts, p, Desired(p, t.products[p], t.lowStockThreshold, t.Bal(p))) by {
      DesiredIs(p, t.products[p], t.lowStockThreshold, t.Bal(p));
    }
  }

  lemma {:induction false} DesiredIs(p: nat, product: Product, threshold: nat, balance: Balance)
    ensures var d := Desired(p, product, threshold, balance);
            d.Some? ==> d.value.product == p && d.value.active
  {
  }

  lemma {:induction false} ResyncIs(t: Tables, n: nat)
    requires 0 < n <= |t.products|
    ensures ResyncAll(t, n) == Put(ResyncAll(t, n - 1), n - 1, ResyncAll(t, n - 1).Bal(n - 1))
  {
    hide Put;
  }

  lemma {:induction false} ResyncNone(t: Tables)
    ensures ResyncAll(t, 0) == t
  {
  }

  lemma {:induction false} StockedAt(t: Tables, p: nat)
    requires Stocked(t) && p < |t.products|
    ensures p in t.balances
  {
  }

  lemma {:induction false} ResyncTables(t: Tables, n: nat)
    requires n <= |t.products| && UniqueActive(t.alerts) && Stocked(t)
    ensures var r := ResyncAll(t, n);
            r.balances == t.balances && r.movements == t.movements && UniqueActive(r.alerts)
  {
    hide *;
    if n == 0 {
      ResyncNone(t);
    } else {
      StockedAt(t, n - 1);
      ResyncIs(t, n);
      ResyncTables(t, n - 1);
      PutAgain(ResyncAll(t, n - 1), n - 1);
    }
  }

  lemma {:induction false} PutAlerts(t: Tables, p: nat, o: nat)
    requires p < |t.products| && UniqueActive(t.alerts)
    ensures ActiveOf(Put(t, p, t.Bal(p)).alerts, o) ==
            if o == p then AsSeq(Desired(p, t.products[p], t.lowStockThreshold, t.Bal(p))) else ActiveOf(t.alerts, o)
  {
    hide UniqueActive, Sync, ActiveOf;
    SyncAgrees(t.alerts, p, Desired(p, t.products[p], t.lowStockThreshold, t.Bal(p)), o);
  }

  /** A change of the shop's threshold leaves balances alone and realigns every product's alert. */
  lemma {:induction false} ResyncAlerts(t: Tables, n: nat, o: nat)
    requires n <= |t.products| && UniqueActive(t.alerts) && Stocked(t)
    ensures ActiveOf(ResyncAll(t, n).alerts, o) ==
            if o < n then AsSeq(Desired(o, t.products[o], t.lowStockThreshold, t.Bal(o))) else ActiveOf(t.alerts, o)
  {
    hide UniqueActive, Put, ActiveOf, Stocked, Desired, AsSeq;
    if n > 0 {
      var earlier := ResyncAll(t, n - 1);
      ResyncAlerts(t, n - 1, o);
      ResyncTables(t, n - 1);
      PutAlerts(earlier, n - 1, o);
      assert earlier.Bal(n - 1) == t.Bal(n - 1);
      assert ResyncAll(t, n) == Put(earlier, n - 1, earlier.Bal(n - 1));
      hide ResyncAll;
    }
  }

  lemma {:induction false} ResyncAgrees(t: Tables)
    requires UniqueActive(t.alerts) && Stocked(t)
    requires forall o: nat :: o >= |t.products| ==> ActiveOf(t.alerts, o) == []
    ensures AlertsAgree(ResyncAll(t, |t.products|))
  {
    var r := ResyncAll(t, |t.products|);
    ResyncTables(t, |t.products|);
    hide UniqueActive, ActiveOf, Stocked, ResyncAll, Desired;
    forall o: nat
      ensures o < |r.products| ==>
                ActiveOf(r.alerts, o) == AsSeq(Desired(o, r.products[o], r.lowStockThreshold, r.Bal(o)))
      ensures o >= |r.products| ==> ActiveOf(r.alerts, o) == []
    {
      ResyncAlerts(t, |t.products|, o);
    }
  }

  lemma {:induction false} ThresholdSound(t: Tables, threshold: nat)
    requires Sound(t)
    ensures Beside(t, SetShopThreshold(t, threshold))
  {
    AgreementIsUnique(t);
    var w := t.(lowStockThreshold := threshold);
    var r := SetShopThreshold(t, threshold);
    ResyncTables(w, |t.products|);
    ResyncAgrees(w);
    hide AlertsAgree, ResyncAll;
    ReplaceLedger(t, r);
  }
}
