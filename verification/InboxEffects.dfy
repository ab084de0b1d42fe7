/** What each step of the payment inbox decides and writes, spelled on the event and the issues. */
module InboxEffects {
  import opened Prelude
  import opened Orders
  import opened Shop
  import opened Webhooks
  import Effects

  /** An event is taken when it is waiting and can be worked on; taking it counts the attempt and leases it for five minutes. */
  lemma {:induction false} TakeEffect(w: Inbox, i: nat, now: Time)
    requires i < |w.events|
    ensures var e := w.events[i];
            && (Take(w, i, now).1 <==>
                  e.signatureValid && e.hasResource && (e.status == Received || e.status == Ignored || e.status == FailedEvent))
            && (Take(w, i, now).1 ==>
                  Take(w, i, now).0 ==
                  w.(events := w.events[i := e.(status := Processing, attempts := e.attempts + 1, nextRetry := Some(now + 300))]))
  {
  }

  /** After a sweep an event can be taken exactly when it is waiting or its lease has run out. */
  lemma {:induction false} SweptIsTaken(w: Inbox, i: nat, now: Time)
    requires i < |w.events|
    ensures var e := w.events[i];
            Take(Requeue(w, i, now), i, now).1 <==>
            && e.signatureValid && e.hasResource
            && (|| e.status == Received || e.status == Ignored || e.status == FailedEvent
                || (e.status == Processing && e.nextRetry.Some? && e.nextRetry.value <= now))
  {
  }

  /** A delivery with a bad signature never makes an event workable, and does not stop one that was. */
  lemma {:induction false} DeliveryIsTaken(w: Inbox, i: nat, valid: bool, hasResource: bool, now: Time)
    requires i < |w.events|
    ensures Take(Receive(w, Some(i), valid, hasResource), i, now).1 <==>
            if valid then hasResource else w.events[i].signatureValid && w.events[i].hasResource
    ensures Take(Receive(w, None, valid, hasResource), |w.events|, now).1 <==> valid && hasResource
    ensures Receive(w, Some(i), valid, hasResource).db == w.db == Receive(w, None, valid, hasResource).db
    ensures var r := Receive(w, None, valid, hasResource).events;
            |r| == |w.events| + 1 && r[..|w.events|] == w.events && r[|w.events|].attempts == 0 && r[|w.events|].order.None?
  {
  }

  /** The waiting time after the first eight attempts; an hour from then on. */
  const Delays := [30, 30, 60, 120, 240, 480, 960, 1920]

  lemma {:induction false} DelayIs(attempts: nat)
    ensures Backoff(attempts) == if attempts < |Delays| then Delays[attempts] else 3600
  {
    if attempts >= |Delays| {
      BackoffGrows(attempts, attempts);
    } else {
      assert PowerOfTwo(1) == 2 && PowerOfTwo(2) == 4 && PowerOfTwo(3) == 8 && PowerOfTwo(4) == 16;
      assert PowerOfTwo(5) == 32 && PowerOfTwo(6) == 64 && PowerOfTwo(7) == 128;
    }
  }

  /** A failed event waits, and its pending-webhook issue stands; it is due again exactly from the end of the delay on. */
  lemma {:induction false} FailureEffect(w: Inbox, i: nat, now: Time, later: Time)
    requires i < |w.events|
    ensures var e, r := w.events[i], FailEvent(w, i, now);
            var delay := if e.attempts < |Delays| then Delays[e.attempts] else 3600;
            && r.events == w.events[i := e.(status := FailedEvent, nextRetry := Some(now + delay))]
            && Effects.Stands(r.db.issues, WebhookPending, if Linked(w, i) then e.order.value else 0, Some(i))
            && (Requeue(r, i, later).events[i].status == Received <==> now + delay <= later)
            && r.db.t == w.db.t
  {
    DelayIs(w.events[i].attempts);
    ReportedAlone(w.db.issues, i);
    if Linked(w, i) {
      Effects.MarkEffect(LockedAt(w.db, w.events[i].order.value), w.events[i].order.value, WebhookPending, Some(i));
    }
    hide Mark, Report, Backoff;
  }

  lemma {:induction false} ReportedAlone(issues: seq<Issue>, i: nat)
    ensures Effects.Stands(Report(issues, WebhookPending, None, Some(i)).0, WebhookPending, 0, Some(i))
  {
    var r := Report(issues, WebhookPending, None, Some(i)).0;
    match FindIssue(issues, WebhookPending, None, Some(i)) {
      case None => assert r[|issues|] == Issue(WebhookPending, None, Some(i), IssueOpen);
      case Some(k) => assert r[k].kind == WebhookPending && r[k].status != IssueResolved;
    }
  }

  /** A snapshot that names no order of the shop, or comes from another seller account, leaves an open issue and nothing else. */
  lemma {:induction false} MisdirectedEffect(w: Inbox, i: nat, s: Snapshot, sameSeller: bool, now: Time)
    requires i < |w.events|
    requires !sameSeller || s.reference.None? || s.reference.value >= |w.db.orders|
    ensures var r := Finish(w, i, Answered(s, sameSeller), now);
            && r.1 && r.0.events == w.events[i := w.events[i].(status := Processed)]
            && r.0.db == w.db.(issues := r.0.db.issues)
            && (|| r.0.db.issues == w.db.issues
                || r.0.db.issues == w.db.issues + [Issue(UnknownPayment, w.events[i].order, Some(i), IssueOpen)])
            && exists k :: 0 <= k < |r.0.db.issues| && r.0.db.issues[k].kind == UnknownPayment
                           && r.0.db.issues[k].event == Some(i) && r.0.db.issues[k].status == IssueOpen
  {
    var r := Finish(w, i, Answered(s, sameSeller), now).0.db.issues;
    if k :| 0 <= k < |w.db.issues| && OpenUnknown(w.db.issues[k], i) {
      assert r == w.db.issues && r[k].kind == UnknownPayment;
    } else {
      assert r[|w.db.issues|].kind == UnknownPayment;
    }
  }

  /** Any other snapshot settles its order and closes the event, or fails and leaves it to be retried. */
  lemma {:induction false} SettledEffect(w: Inbox, i: nat, s: Snapshot, oid: nat, now: Time)
    requires i < |w.events| && s.reference == Some(oid) && oid < |w.db.orders|
    ensures var settled := Settle(LockedAt(w.db, oid), oid, s, i, now);
            var r := Finish(w, i, Answered(s, true), now);
            if settled.Ok?
            then r.1 && LockedAt(r.0.db, oid) == settled.value
                 && r.0.events == w.events[i := w.events[i].(status := Processed, order := Some(oid), nextRetry := None)]
            else !r.1 && r.0 == FailEvent(w, i, now)
  {
    hide Settle, FailEvent;
  }
}
