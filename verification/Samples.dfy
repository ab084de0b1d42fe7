/** Small concrete shops that the counterexamples start from. */
module Samples {
  import opened Prelude
  import opened Inventory
  import opened Stock
  import opened Orders
  import opened Shop
  import opened Invariant
  import opened Preserve
  import opened Catalogue
  import opened Runs

  const Sample := Product("sample", CatalogStatus.Active, None, None)

  lemma {:induction false} SampleStock(threshold: nat, units: nat) returns (t: Tables)
    requires 0 < units <= MAX_MOVEMENT_QUANTITY
    ensures CreateProduct(EmptyShop(threshold).t, Sample, units) == Ok(t)
    ensures Sound(t) && t.products == [Sample] && t.Bal(0) == Balance(units, 0)
  {
    EmptyValid(threshold);
    t := CreateProduct(EmptyShop(threshold).t, Sample, units).value;
    CreateSound(EmptyShop(threshold).t, Sample, units);
    hide Sound;
  }

  /** One unit of the sample at 1000 pesos. */
  const OneLine := [LineInput(0, 1, Some(1000))]
  const SoldLine := Line(0, 1, 1000, None)

  function AddSample(): Action {
    AddProduct(Sample, 1)
  }

  function SellSample(payBy: PaymentMethod): Action {
    CreateSale(OneLine, Pickup, payBy, Setup(true, true), 0)
  }

  lemma {:induction false} OneLineClean()
    ensures NormaliseLines([Sample], OneLine) == Ok(([SoldLine], 1000))
  {
    assert OneLine[..0] == [];
    assert CleanLine([Sample], OneLine[0]) == Ok(SoldLine);
    assert CleanLines([Sample], OneLine[..0]) == Ok(([], 0));
    assert [] + [SoldLine] == [SoldLine];
  }

  lemma {:induction false} OneLineQty(p: nat)
    ensures LineQty([SoldLine], p) == if p == 0 then 1 else 0
  {
    assert [SoldLine][..0] == [];
  }

  lemma {:induction false} OneLineHeld(t: Tables) returns (r: Tables)
    requires Sound(t) && t.products == [Sample] && t.Bal(0) == Balance(1, 0)
    ensures Transact(t, Hold, LineRequests([SoldLine])) == Ok(r)
    ensures Moves(t, r, Hold, [SoldLine])
  {
    var requests := LineRequests([SoldLine]);
    hide Sound, Moves;
    assert requests == [Request(0, 1)] && requests[..0] == [];
    assert requests[0] in requests;
    assert Demand(requests, 0) == 1;
    TransactIs(t, Hold, requests);
    r := Transact(t, Hold, requests).value;
    hide Demand, Transact;
    CartHolds(t, [SoldLine]);
  }

  /** A new shop with one unit of the sample, sold once: the order is reserved and holds the unit. */
  lemma {:induction false} SampleSold(threshold: nat, payBy: PaymentMethod) returns (db: Db)
    ensures db == Run(EmptyShop(threshold), [AddSample(), SellSample(payBy)]) && Valid(db)
    ensures db.t.products == [Sample] && db.t.Bal(0).reserved == 1
    ensures db.orders == [NewOrder([SoldLine], 1000, Pickup, payBy, 0)]
  {
    hide Valid, Sound, Moves, CreateProduct, NormaliseLines, Transact;
    var empty := EmptyShop(threshold);
    var t := SampleStock(threshold, 1);
    OneLineClean();
    var r := OneLineHeld(t);
    OneLineMoves(t, r);
    TwoSteps(empty, AddSample(), SellSample(payBy));
    db := Run(empty, [AddSample(), SellSample(payBy)]);
    EmptyValid(threshold);
    RunValid(empty, [AddSample(), SellSample(payBy)]);
    assert Step(empty, AddSample()) == empty.(t := t);
  }

  lemma {:induction false} OneLineMoves(t: Tables, r: Tables)
    requires Moves(t, r, Hold, [SoldLine])
    ensures r.products == t.products && r.Bal(0).reserved == t.Bal(0).reserved + 1
  {
    hide Sound;
    OneLineQty(0);
  }

  lemma {:induction false} RunMore(db: Db, actions: seq<Action>, a: Action)
    ensures Run(db, actions + [a]) == Step(Run(db, actions), a)
  {
    hide Step;
    assert (actions + [a])[..|actions|] == actions;
  }

  lemma {:induction false} RunJoins(db: Db, first: seq<Action>, more: seq<Action>)
    ensures Run(db, first + more) == Run(Run(db, first), more)
  {
    hide Step;
    if more == [] {
      assert first + more == first;
    } else {
      var init := more[..|more| - 1];
      RunJoins(db, first, init);
      assert first + more == (first + init) + [more[|more| - 1]];
      RunMore(db, first + init, more[|more| - 1]);
    }
  }

  lemma {:induction false} TwoSteps(db: Db, a: Action, b: Action)
    ensures Run(db, [a, b]) == Step(Step(db, a), b)
  {
    hide Step;
    RunMore(db, [], a);
    RunMore(db, [a], b);
    assert [] + [a] == [a] && [a] + [b] == [a, b];
    assert Run(db, []) == db;
  }

  lemma {:induction false} ThreeSteps(db: Db, a: Action, b: Action, c: Action)
    ensures Run(db, [a, b, c]) == Step(Step(Step(db, a), b), c)
  {
    hide Step;
    TwoSteps(db, a, b);
    RunMore(db, [a, b], c);
    assert [a, b] + [c] == [a, b, c];
  }
}
