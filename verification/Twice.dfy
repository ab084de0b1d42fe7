/** Repeating a stock call moves the counters again: exactly-once is the callers' doing, not the ledger's. */
module Twice {
  import opened Prelude
  import opened Inventory
  import opened Stock
  import opened Shop
  import opened Samples

  /** Whether every balance allows the cart's totals twice over. */
  ghost predicate AllowsTwice(t: Tables, op: Op, requests: seq<Request>) {
    forall p :: p in Requested(requests) ==> Allowed(op, t.Bal(p), 2 * Demand(requests, p))
  }

  lemma {:induction false} AllowedAgain(op: Op, b: Balance, c: Balance, q: int)
    requires 0 <= b.reserved <= b.onHand && q > 0 && Allowed(op, b, q)
    requires c == Balance(b.onHand + SignedOnHand(op, q), b.reserved + SignedReserved(op, q))
    ensures Allowed(op, c, q) <==> Allowed(op, b, 2 * q)
  {
  }

  lemma {:induction false} AcceptableAgain(t: Tables, op: Op, requests: seq<Request>, r: Tables)
    requires Sound(t) && Acceptable(t, op, requests) && MovedBy(t, r, op, requests)
    ensures Acceptable(r, op, requests) <==> AllowsTwice(t, op, requests)
  {
    hide Sound, Allowed, Demand, SaleRows;
    SoundBalances(t);
    forall p | p in Requested(requests)
      ensures Allowed(op, r.Bal(p), Demand(requests, p)) <==> Allowed(op, t.Bal(p), 2 * Demand(requests, p))
    {
      DemandSign(requests, p);
      assert r.Bal(p).reserved == t.Bal(p).reserved + SignedReserved(op, Demand(requests, p));
      AllowedAgain(op, t.Bal(p), r.Bal(p), Demand(requests, p));
    }
  }

  lemma {:induction false} SoundBalances(t: Tables)
    requires Sound(t)
    ensures forall p: nat {:trigger t.Bal(p)} :: 0 <= t.Bal(p).reserved <= t.Bal(p).onHand
  {
  }

  lemma {:induction false} RefusedFor(t: Tables, op: Op, requests: seq<Request>)
    requires Transact(t, op, requests).Err? && requests != []
    requires forall r :: r in requests ==> r.product < |t.products| && r.quantity > 0
    ensures Transact(t, op, requests) == Err(Refusal(op))
  {
    GoodRequests(requests, |t.products|);
    hide Allowed, Act, Demand;
  }

  /**
   * After an accepted cart the same cart is accepted again exactly when the stock allowed it
   * twice over; it then moves every counter a second time. It never leaves the tables as they are.
   */
  lemma {:induction false} NotIdempotent(t: Tables, op: Op, requests: seq<Request>, r: Tables)
    requires Sound(t) && Transact(t, op, requests) == Ok(r)
    ensures Transact(r, op, requests).Ok? <==> AllowsTwice(t, op, requests)
    ensures !AllowsTwice(t, op, requests) ==> Transact(r, op, requests) == Err(Refusal(op))
    ensures AllowsTwice(t, op, requests) ==>
              var again := Transact(r, op, requests).value;
              && again != r
              && forall p: nat ::
                   && again.Bal(p).reserved == t.Bal(p).reserved + SignedReserved(op, 2 * Demand(requests, p))
                   && again.Bal(p).onHand == t.Bal(p).onHand + SignedOnHand(op, 2 * Demand(requests, p))
  {
    TransactEffect(t, op, requests);
    TransactIs(t, op, requests);
    assert Sound(r) && r.products == t.products;
    TransactEffect(r, op, requests);
    AcceptableAgain(t, op, requests, r);
    hide Sound, Transact, Demand, AllowsTwice;
    if AllowsTwice(t, op, requests) {
      MovesTwice(t, r, Transact(r, op, requests).value, op, requests);
    } else {
      RefusedFor(r, op, requests);
    }
  }

  lemma {:induction false} MovesTwice(t: Tables, r: Tables, again: Tables, op: Op, requests: seq<Request>)
    requires requests != [] && (forall x :: x in requests ==> x.quantity > 0)
    requires MovedBy(t, r, op, requests) && MovedBy(r, again, op, requests)
    ensures again != r
    ensures forall p: nat ::
              && again.Bal(p).reserved == t.Bal(p).reserved + SignedReserved(op, 2 * Demand(requests, p))
              && again.Bal(p).onHand == t.Bal(p).onHand + SignedOnHand(op, 2 * Demand(requests, p))
  {
    hide Sound, Demand, SaleRows;
    assert requests[0] in requests;
    var p := requests[0].product;
    assert p in Requested(requests);
    DemandSign(requests, p);
    assert again.Bal(p).reserved == r.Bal(p).reserved + SignedReserved(op, Demand(requests, p));
    forall o: nat
      ensures again.Bal(o).reserved == t.Bal(o).reserved + SignedReserved(op, 2 * Demand(requests, o))
      ensures again.Bal(o).onHand == t.Bal(o).onHand + SignedOnHand(op, 2 * Demand(requests, o))
    {
      assert again.Bal(o).reserved == r.Bal(o).reserved + SignedReserved(op, Demand(requests, o));
      assert r.Bal(o).reserved == t.Bal(o).reserved + SignedReserved(op, Demand(requests, o));
    }
  }

  /** One unit of product 0. */
  const OneUnit := [Request(0, 1)]

  lemma {:induction false} OneUnitDemand()
    ensures Demand(OneUnit, 0) == 1 && Requested(OneUnit) == {0}
  {
    assert OneUnit[..0] == [];
    assert OneUnit[0] in OneUnit;
  }

  lemma {:induction false} HoldOne(t: Tables) returns (r: Tables)
    requires Sound(t) && |t.products| > 0 && t.Bal(0).reserved + 1 <= t.Bal(0).onHand
    ensures Transact(t, Hold, OneUnit) == Ok(r) && Sound(r) && r.products == t.products
    ensures r.Bal(0) == t.Bal(0).(reserved := t.Bal(0).reserved + 1)
  {
    hide Sound, Demand, Transact;
    OneUnitDemand();
    TransactEffect(t, Hold, OneUnit);
    r := Transact(t, Hold, OneUnit).value;
  }

  /** A shop with two units of one product: holding one unit twice is accepted twice and holds two. */
  lemma {:induction false} HeldTwice(threshold: nat) returns (t: Tables, first: Tables, second: Tables)
    ensures CreateProduct(EmptyShop(threshold).t, Sample, 2) == Ok(t)
    ensures Transact(t, Hold, OneUnit) == Ok(first) && first.Bal(0) == Balance(2, 1)
    ensures Transact(first, Hold, OneUnit) == Ok(second) && second.Bal(0) == Balance(2, 2)
  {
    hide Sound, Transact, CreateProduct;
    t := SampleStock(threshold, 2);
    first := HoldOne(t);
    second := HoldOne(first);
  }
}
