/** The expiry sweep: one transaction per due order. */
module Expiry {
  import opened Alerts
  import opened Stock
  import opened Orders
  import opened Shop
  import opened Invariant
  import opened Preserve
  import opened Commands
  import opened Runs
  import opened SalesDesk

  predicate Due(o: Order, now: Time) {
    Expirable(o.status) && o.expiresAt <= now
  }

  function ExpireOne(oid: nat, now: Time): Action {
    ChangeOrder(oid, DoExpire(now))
  }

  function Sweep(ids: seq<nat>, now: Time): (actions: seq<Action>)
    ensures |actions| == |ids| && forall i :: 0 <= i < |ids| ==> actions[i] == ExpireOne(ids[i], now)
  {
    seq(|ids|, i requires 0 <= i < |ids| => ExpireOne(ids[i], now))
  }

  /** What expiry leaves of one order: its claim returned and its status final, or nothing changed. */
  ghost predicate Lapsed(o: Order, r: Order, due: bool) {
    if due then r.status == Expired && r.expiresAt == o.expiresAt && r.lines == o.lines && !Has(r.reservations, Open)
    else r == o
  }

  lemma {:induction false} NoOpenLeft(rs: seq<Reservation>, now: Time)
    ensures !Has(FreedAll(rs, now), Open)
  {
  }

  lemma {:induction false} ExpireRow(v: Locked, oid: nat, now: Time)
    requires Ready(v, oid)
    ensures Expire(v, now).Ok?
    ensures Lapsed(v.order, Expire(v, now).value.order, Due(v.order, now))
    ensures !Due(v.order, now) ==> Expire(v, now).value == v
  {
    hide Ready, Steps, Transact, RequestsOf;
    ExpireSteps(v, oid, now);
    NoOpenLeft(v.order.reservations, now);
    if !Has(v.order.reservations, Open) {
      hide Has;
    }
  }

  /** One sweep step on a valid shop. */
  lemma {:induction false} ExpireStep(db: Db, oid: nat, now: Time)
    requires Valid(db) && oid < |db.orders|
    ensures var r := Shop.Step(db, ExpireOne(oid, now));
            && Valid(r) && |r.orders| == |db.orders|
            && Lapsed(db.orders[oid], r.orders[oid], Due(db.orders[oid], now))
            && (forall k {:trigger r.orders[k]} :: 0 <= k < |db.orders| && k != oid ==> r.orders[k] == db.orders[k])
  {
    ReadyAt(db, oid);
    ExpireRow(LockedAt(db, oid), oid, now);
    hide Valid, Ready, Lapsed, Expire;
    OrderCommandValid(db, oid, DoExpire(now));
  }

  lemma {:induction false} LapsedTwice(o: Order, m: Order, r: Order, now: Time, first: bool)
    requires Lapsed(o, m, first && Due(o, now)) && Lapsed(m, r, Due(m, now))
    ensures Lapsed(o, r, Due(o, now))
  {
  }

  /**
   * Sweeping any list of orders of a valid shop, repeats included, expires exactly the listed
   * orders that were due, gives their stock back, and leaves every other order as it was.
   */
  lemma {:induction false} SweepExpiresDue(db: Db, ids: seq<nat>, now: Time, k: nat)
    requires Valid(db) && (forall i :: 0 <= i < |ids| ==> ids[i] < |db.orders|) && k < |db.orders|
    ensures var r := Run(db, Sweep(ids, now));
            && Valid(r) && |r.orders| == |db.orders|
            && Lapsed(db.orders[k], r.orders[k], k in ids && Due(db.orders[k], now))
  {
    hide Valid, Due, Shop.Step;
    if ids == [] {
      assert Run(db, Sweep(ids, now)) == db;
    } else {
      var init := ids[..|ids| - 1];
      var last := ids[|ids| - 1];
      assert Sweep(ids, now)[..|ids| - 1] == Sweep(init, now);
      SweepExpiresDue(db, init, now, k);
      var before := Run(db, Sweep(init, now));
      assert Run(db, Sweep(ids, now)) == Shop.Step(before, ExpireOne(last, now));
      hide Run, Lapsed;
      ExpireStep(before, last, now);
      assert ids == init + [last];
      if k == last {
        LapsedTwice(db.orders[k], before.orders[k], Shop.Step(before, ExpireOne(last, now)).orders[k], now, k in init);
      }
    }
  }

  function Lapses(db: Db, ids: seq<nat>, now: Time): nat {
    if ids == [] then 0
    else
      var before := Run(db, Sweep(ids[..|ids| - 1], now));
      var last := ids[|ids| - 1];
      Lapses(db, ids[..|ids| - 1], now) + (if last < |before.orders| && Due(before.orders[last], now) then 1 else 0)
  }

  /** The listed orders that are due. */
  ghost function DueAmong(db: Db, ids: seq<nat>, now: Time): set<nat> {
    set k | k in ids && k < |db.orders| && Due(db.orders[k], now)
  }

  lemma {:induction false} DueOnce(o: Order, m: Order, now: Time, before: bool)
    requires Lapsed(o, m, before && Due(o, now))
    ensures Due(m, now) <==> Due(o, now) && !before
  {
  }

  lemma {:induction false} DueAmongMore(db: Db, ids: seq<nat>, last: nat, now: Time)
    requires last < |db.orders|
    ensures |DueAmong(db, ids + [last], now)| ==
            |DueAmong(db, ids, now)| + if Due(db.orders[last], now) && last !in ids then 1 else 0
  {
    var was, more := DueAmong(db, ids, now), DueAmong(db, ids + [last], now);
    hide Due;
    if Due(db.orders[last], now) && last !in ids {
      assert more == was + {last};
    } else {
      assert more == was;
    }
  }

  lemma {:induction false} LapsesMore(db: Db, ids: seq<nat>, last: nat, now: Time)
    ensures var before := Run(db, Sweep(ids, now));
            Lapses(db, ids + [last], now) == Lapses(db, ids, now) + if last < |before.orders| && Due(before.orders[last], now) then 1 else 0
  {
    hide Due, Run;
    assert (ids + [last])[..|ids|] == ids;
  }

  lemma {:induction false} NoLapses(db: Db, now: Time)
    ensures Lapses(db, [], now) == 0 && DueAmong(db, [], now) == {}
  {
  }

  /** The count is that of the listed orders that were due, each counted once however often it is listed. */
  lemma {:induction false} SweepCounts(db: Db, ids: seq<nat>, now: Time)
    requires Valid(db) && forall i :: 0 <= i < |ids| ==> ids[i] < |db.orders|
    ensures Lapses(db, ids, now) == |DueAmong(db, ids, now)|
  {
    hide *;
    if ids == [] {
      NoLapses(db, now);
    } else {
      var init := ids[..|ids| - 1];
      var last := ids[|ids| - 1];
      assert ids == init + [last];
      SweepCounts(db, init, now);
      SweepExpiresDue(db, init, now, last);
      DueOnce(db.orders[last], Run(db, Sweep(init, now)).orders[last], now, last in init);
      LapsesMore(db, init, last, now);
      DueAmongMore(db, init, last, now);
    }
  }

  lemma {:induction false} SweepMore(db: Db, ids: seq<nat>, i: nat, now: Time)
    requires i < |ids|
    ensures Run(db, Sweep(ids[..i + 1], now)) == Shop.Step(Run(db, Sweep(ids[..i], now)), ExpireOne(ids[i], now))
    ensures var before := Run(db, Sweep(ids[..i], now));
            Lapses(db, ids[..i + 1], now) ==
            Lapses(db, ids[..i], now) + if ids[i] < |before.orders| && Due(before.orders[ids[i]], now) then 1 else 0
  {
    hide Shop.Step, Due;
    assert ids[..i + 1][..i] == ids[..i];
    assert Sweep(ids[..i + 1], now)[..i] == Sweep(ids[..i], now);
  }

  /** The sweep over the selected orders, counting those it expired. */
  method ExpireListed(desk: Desk, ids: seq<nat>, now: Time) returns (count: nat)
    requires desk.Indexed()
    modifies desk, desk.stock
    ensures desk.Indexed()
    ensures desk.Db() == Run(old(desk.Db()), Sweep(ids, now))
    ensures count == Lapses(old(desk.Db()), ids, now)
  {
    hide UniqueActive, Shop.Step, Due;
    count := 0;
    for i := 0 to |ids|
      invariant desk.Indexed()
      invariant desk.Db() == Run(old(desk.Db()), Sweep(ids[..i], now))
      invariant count == Lapses(old(desk.Db()), ids[..i], now)
    {
      SweepMore(old(desk.Db()), ids, i, now);
      if ids[i] < |desk.orders| && Due(desk.orders[ids[i]], now) {
        count := count + 1;
      }
      var _ := desk.Execute(ExpireOne(ids[i], now));
    }
    assert ids[..|ids|] == ids;
  }
}
