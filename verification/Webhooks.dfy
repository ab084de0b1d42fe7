/** The payment inbox: events that may be redelivered, retried or dropped by a dying worker. */
module Webhooks {
  import opened Prelude
  import opened Alerts
  import opened Stock
  import opened Orders
  import opened Shop
  import opened Invariant
  import opened Runs
  import opened Snapshots
  import opened Revival
  import opened SalesDesk

  const LEASE := 300

  datatype EventStatus = Received | Processing | Processed | Ignored | FailedEvent

  datatype WebhookEvent = WebhookEvent(
    status: EventStatus,
    attempts: nat,
    nextRetry: Option<Time>,
    signatureValid: bool,
    hasResource: bool,
    order: Option<nat>)

  /** `workers` counts, per event, the workers that have taken it and not finished with it yet. */
  datatype Inbox = Inbox(db: Db, events: seq<WebhookEvent>, workers: multiset<nat>)

  /** What asking the provider yields: an exception, or a snapshot and whether its seller account is the order's. */
  datatype Answer = NoAnswer | Answered(snapshot: Snapshot, sameSeller: bool)

  function PowerOfTwo(n: nat): (p: nat)
    ensures p >= 1
  {
    if n == 0 then 1 else 2 * PowerOfTwo(n - 1)
  }

  /** Seconds until the next retry. */
  function Backoff(attempts: nat): (seconds: int)
    ensures 30 <= seconds <= 3600
  {
    Min(3600, Max(30, PowerOfTwo(attempts) * 15))
  }

  lemma {:induction false} PowerGrows(a: nat, b: nat)
    requires a <= b
    ensures PowerOfTwo(a) <= PowerOfTwo(b)
    decreases b
  {
    if a < b {
      PowerGrows(a, b - 1);
    }
  }

  /** Retries never come sooner after more attempts, and from the eighth on the hour is reached. */
  lemma {:induction false} BackoffGrows(a: nat, b: nat)
    requires a <= b
    ensures Backoff(a) <= Backoff(b)
    ensures a >= 8 ==> Backoff(a) == 3600
  {
    PowerGrows(a, b);
    if a >= 8 {
      PowerGrows(8, a);
      assert PowerOfTwo(4) == 16;
    }
  }

  // ----- Steps

  function Saved(w: Inbox, i: nat, e: WebhookEvent): Inbox
    requires i < |w.events|
  {
    w.(events := w.events[i := e])
  }

  /** The first transaction of the worker takes the event, unless it is done, hopeless or being worked on. */
  function Take(w: Inbox, i: nat, now: Time): (Inbox, bool) {
    if i >= |w.events| then (w, false)
    else
      var e := w.events[i];
      if e.status == Processed then (w, false)
      else if !e.signatureValid || !e.hasResource then (Saved(w, i, e.(status := Ignored)), false)
      else if e.status == Processing then (w, false)
      else (Saved(w, i, e.(status := Processing, attempts := e.attempts + 1, nextRetry := Some(now + LEASE))), true)
  }

  predicate Linked(w: Inbox, i: nat)
    requires i < |w.events|
  {
    w.events[i].order.Some? && w.events[i].order.value < |w.db.orders|
  }

  function FailEvent(w: Inbox, i: nat, now: Time): Inbox
    requires i < |w.events|
  {
    var e := w.events[i];
    var db := if Linked(w, i)
              then Commit(w.db, e.order.value, Mark(LockedAt(w.db, e.order.value), e.order.value, WebhookPending, Some(i)))
              else w.db.(issues := Report(w.db.issues, WebhookPending, None, Some(i)).0);
    Inbox(db, w.events[i := e.(status := FailedEvent, nextRetry := Some(now + Backoff(e.attempts)))], w.workers)
  }

  predicate OpenUnknown(x: Issue, i: nat) {
    x.kind == UnknownPayment && x.event == Some(i) && x.status == IssueOpen
  }

  /** get_or_create of the event's open "unknown payment" issue. */
  function UnknownIssue(issues: seq<Issue>, i: nat, order: Option<nat>): seq<Issue> {
    if exists k :: 0 <= k < |issues| && OpenUnknown(issues[k], i) then issues
    else issues + [Issue(UnknownPayment, order, Some(i), IssueOpen)]
  }

  predicate Misdirected(w: Inbox, answer: Answer)
    requires answer.Answered?
  {
    answer.snapshot.reference.None? || answer.snapshot.reference.value >= |w.db.orders| || !answer.sameSeller
  }

  /** The rest of the worker's run on an event it has taken. */
  function Finish(w: Inbox, i: nat, answer: Answer, now: Time): (Inbox, bool)
    requires i < |w.events|
  {
    var e := w.events[i];
    if answer.NoAnswer? then (FailEvent(w, i, now), false)
    else if Misdirected(w, answer) then
      (Inbox(w.db.(issues := UnknownIssue(w.db.issues, i, e.order)), w.events[i := e.(status := Processed)], w.workers), true)
    else
      var oid := answer.snapshot.reference.value;
      var r := OnOrder(w.db, oid, DoSettle(answer.snapshot, i, now));
      if r.Ok? then
        (Inbox(r.value, w.events[i := e.(status := Processed, order := Some(oid), nextRetry := None)], w.workers), true)
      else (FailEvent(w, i, now), false)
  }

  function Process(w: Inbox, i: nat, answer: Answer, now: Time): (Inbox, bool) {
    var taken := Take(w, i, now);
    if taken.1 then Finish(taken.0, i, answer, now) else (taken.0, false)
  }

  /** A delivery over HTTP: a new event or a known one; a good signature makes it ready to be worked on again. */
  function Receive(w: Inbox, known: Option<nat>, valid: bool, hasResource: bool): Inbox {
    if known.Some? && known.value < |w.events| then
      var e := w.events[known.value];
      Saved(w, known.value, if valid then e.(status := Received, signatureValid := true, hasResource := hasResource)
                            else e.(status := Ignored))
    else
      w.(events := w.events + [WebhookEvent(if valid then Received else Ignored, 0, None, valid, hasResource, None)])
  }

  predicate Due(e: WebhookEvent, now: Time) {
    (e.status == FailedEvent || e.status == Processing) && e.nextRetry.Some? && e.nextRetry.value <= now
  }

  /** The sweep puts an overdue event back in the queue. */
  function Requeue(w: Inbox, i: nat, now: Time): Inbox {
    if i < |w.events| && Due(w.events[i], now) then Saved(w, i, w.events[i].(status := Received)) else w
  }

  /** A worker's two transactions are two steps: anything may happen while it asks the provider. */
  datatype Step =
    | Delivered(known: Option<nat>, valid: bool, hasResource: bool)
    | Taken(i: nat, now: Time)
    | Finished(i: nat, answer: Answer, now: Time)
    | WorkerDied(i: nat)
    | Swept(i: nat, now: Time)
    | Meanwhile(action: Action)

  function Next(w: Inbox, s: Step): Inbox {
    match s
    case Delivered(known, valid, hasResource) => Receive(w, known, valid, hasResource)
    case Taken(i, now) =>
      var taken := Take(w, i, now);
      if taken.1 then taken.0.(workers := w.workers + multiset{i}) else taken.0
    case Finished(i, answer, now) =>
      if i in w.workers && i < |w.events| then Finish(w, i, answer, now).0.(workers := w.workers - multiset{i}) else w
    case WorkerDied(i) => w.(workers := w.workers - multiset{i})
    case Swept(i, now) => Requeue(w, i, now)
    case Meanwhile(action) => w.(db := Shop.Step(w.db, action))
  }

  function RunInbox(w: Inbox, steps: seq<Step>): Inbox {
    if steps == [] then w else Next(RunInbox(w, steps[..|steps| - 1]), steps[|steps| - 1])
  }

  // ----- Safety

  lemma {:induction false} IssuesDoNotMatter(db: Db, issues: seq<Issue>)
    requires Valid(db)
    ensures Valid(db.(issues := issues))
  {
    hide Sound, OrderOk;
  }

  lemma {:induction false} FailValid(w: Inbox, i: nat, now: Time)
    requires Valid(w.db) && i < |w.events|
    ensures Valid(FailEvent(w, i, now).db)
  {
    hide Valid, Mark, Report;
    if Linked(w, i) {
      MarkedValid(w.db, w.events[i].order.value, i);
    } else {
      IssuesDoNotMatter(w.db, Report(w.db.issues, WebhookPending, None, Some(i)).0);
    }
  }

  lemma {:induction false} MarkedValid(db: Db, oid: nat, event: nat)
    requires Valid(db) && oid < |db.orders|
    ensures Valid(Commit(db, oid, Mark(LockedAt(db, oid), oid, WebhookPending, Some(event))))
  {
    hide Valid, Mark;
    OrderCommandValid(db, oid, DoFailWebhook(event));
  }

  lemma {:induction false} FinishValid(w: Inbox, i: nat, answer: Answer, now: Time)
    requires Valid(w.db) && i < |w.events|
    ensures Valid(Finish(w, i, answer, now).0.db)
  {
    hide Valid, FailEvent, UnknownIssue, OnOrder;
    FailValid(w, i, now);
    if answer.Answered? {
      if Misdirected(w, answer) {
        IssuesDoNotMatter(w.db, UnknownIssue(w.db.issues, i, w.events[i].order));
      } else if OnOrder(w.db, answer.snapshot.reference.value, DoSettle(answer.snapshot, i, now)).Ok? {
        OrderCommandValid(w.db, answer.snapshot.reference.value, DoSettle(answer.snapshot, i, now));
      }
    }
  }

  /** Whatever is delivered, taken, finished, dropped or retried, by any number of workers at once, and whatever the shop does meanwhile, it stays valid. */
  lemma {:induction false} InboxValid(w: Inbox, steps: seq<Step>)
    requires Valid(w.db)
    ensures Valid(RunInbox(w, steps).db)
  {
    hide Valid, Next;
    if steps != [] {
      InboxValid(w, steps[..|steps| - 1]);
      NextValid(RunInbox(w, steps[..|steps| - 1]), steps[|steps| - 1]);
    }
  }

  lemma {:induction false} NextValid(w: Inbox, s: Step)
    requires Valid(w.db)
    ensures Valid(Next(w, s).db)
  {
    hide Valid, Finish, Attempt;
    match s {
      case Finished(i, answer, now) =>
        if i < |w.events| {
          FinishValid(w, i, answer, now);
        }
      case Meanwhile(action) =>
        if Attempt(w.db, action).Ok? {
          AttemptValid(w.db, action);
        }
      case _ =>
    }
  }

  // ----- What the event status does, and what it does not do

  /** The status is no safeguard against redelivery: one good delivery makes a processed event workable again. */
  lemma {:induction false} RedeliveryReopens(w: Inbox, i: nat, now: Time)
    requires i < |w.events|
    ensures Take(Receive(w, Some(i), true, true), i, now).1
  {
  }

  /** The orders and the stock that matter, for one order: its core, and every other order untouched. */
  ghost predicate SameShop(a: Db, b: Db, oid: nat) {
    && oid < |a.orders| == |b.orders|
    && SameCore(LockedAt(a, oid), LockedAt(b, oid))
    && forall k {:trigger b.orders[k]} :: 0 <= k < |a.orders| && k != oid ==> b.orders[k] == a.orders[k]
  }

  /** One delivery of the snapshot to its order, and nothing to any other. */
  ghost predicate OneDelivery(w: Inbox, r: Inbox, i: nat, s: Snapshot, oid: nat, now: Time) {
    && i < |w.events| == |r.events|
    && oid < |w.db.orders| == |r.db.orders|
    && LockedAt(r.db, oid) == Deliver(LockedAt(w.db, oid), oid, s, Arrival(i, Linked(w, i), now))
    && (forall k {:trigger r.db.orders[k]} :: 0 <= k < |w.db.orders| && k != oid ==> r.db.orders[k] == w.db.orders[k])
    && (r.events[i].order.None? || r.events[i].order == Some(oid))
  }

  /** Working on an event about an order is one delivery of its snapshot to that order. */
  lemma {:induction false} FinishIsDeliver(w: Inbox, i: nat, s: Snapshot, oid: nat, now: Time)
    requires i < |w.events| && s.reference == Some(oid) && oid < |w.db.orders|
    requires w.events[i].order.None? || w.events[i].order == Some(oid)
    ensures OneDelivery(w, Finish(w, i, Answered(s, true), now).0, i, s, oid, now)
  {
    hide Settle, Mark, Report;
  }

  /** The steps of one redelivery that is worked on at once. */
  function Again(w: Inbox, i: nat, s: Snapshot, now: Time): Inbox {
    Process(Receive(w, Some(i), true, true), i, Answered(s, true), now).0
  }

  lemma {:induction false} AgainIsDeliver(w: Inbox, i: nat, s: Snapshot, oid: nat, now: Time)
    requires i < |w.events| && s.reference == Some(oid) && oid < |w.db.orders|
    requires w.events[i].order.None? || w.events[i].order == Some(oid)
    ensures OneDelivery(w, Again(w, i, s, now), i, s, oid, now)
  {
    RedeliveryReopens(w, i, now);
    var taken := Take(Receive(w, Some(i), true, true), i, now).0;
    assert taken.db == w.db && taken.events[i].order == w.events[i].order;
    FinishIsDeliver(taken, i, s, oid, now);
    hide Finish, Deliver;
  }

  function AgainAll(w: Inbox, i: nat, s: Snapshot, times: seq<Time>): Inbox {
    if times == [] then w else Again(AgainAll(w, i, s, times[..|times| - 1]), i, s, times[|times| - 1])
  }

  /**
   * At least once becomes exactly once: delivering and working on an event any number of times
   * leaves the shop, apart from payment and issue rows, as the first time left it.
   */
  lemma {:induction false} RedeliveryIsHarmless(w: Inbox, i: nat, s: Snapshot, oid: nat, times: seq<Time>)
    requires i < |w.events| && s.reference == Some(oid) && oid < |w.db.orders|
    requires w.events[i].order.None? || w.events[i].order == Some(oid)
    requires times != []
    ensures var r := AgainAll(w, i, s, times);
            && i < |r.events| && oid < |r.db.orders|
            && (r.events[i].order.None? || r.events[i].order == Some(oid))
            && SameShop(Again(w, i, s, times[0]).db, r.db, oid)
            && Inert(LockedAt(r.db, oid), oid, s)
  {
    var init := times[..|times| - 1];
    var last := times[|times| - 1];
    hide Again, Deliver, Inert;
    if init == [] {
      assert AgainAll(w, i, s, init) == w;
      AgainIsDeliver(w, i, s, oid, last);
      DeliverInert(LockedAt(w.db, oid), oid, s, Arrival(i, Linked(w, i), last));
    } else {
      RedeliveryIsHarmless(w, i, s, oid, init);
      var before := AgainAll(w, i, s, init);
      AgainIsDeliver(before, i, s, oid, last);
      InertKeeps(LockedAt(before.db, oid), oid, s, Arrival(i, Linked(before, i), last));
      DeliverInert(LockedAt(before.db, oid), oid, s, Arrival(i, Linked(before, i), last));
    }
  }

  // ----- Workers interleaved

  /** A step that tells the shop nothing but the snapshot, or nothing at all. */
  predicate About(step: Step, s: Snapshot) {
    match step
    case Finished(_, answer, _) => answer.NoAnswer? || answer == Answered(s, true)
    case Meanwhile(_) => false
    case _ => true
  }

  ghost predicate EventsAbout(events: seq<WebhookEvent>, oid: nat) {
    forall i {:trigger events[i]} :: 0 <= i < |events| ==> events[i].order.None? || events[i].order == Some(oid)
  }

  lemma {:induction false} MarkRow(v: Locked, oid: nat, kind: IssueKind, event: Option<nat>)
    ensures SameRow(v, Mark(v, oid, kind, event))
  {
    hide Report;
  }

  lemma {:induction false} FailIsIdle(w: Inbox, i: nat, oid: nat, now: Time)
    requires i < |w.events| && oid < |w.db.orders| && EventsAbout(w.events, oid)
    ensures SameShop(w.db, FailEvent(w, i, now).db, oid) && EventsAbout(FailEvent(w, i, now).events, oid)
    ensures SameRow(LockedAt(w.db, oid), LockedAt(FailEvent(w, i, now).db, oid))
  {
    hide Mark, Report;
    MarkCore(LockedAt(w.db, oid), oid, WebhookPending, Some(i));
    MarkRow(LockedAt(w.db, oid), oid, WebhookPending, Some(i));
  }

  lemma {:induction false} FinishAbout(w: Inbox, i: nat, s: Snapshot, oid: nat, now: Time)
    requires i < |w.events| && EventsAbout(w.events, oid) && s.reference == Some(oid) && oid < |w.db.orders|
    ensures EventsAbout(Finish(w, i, Answered(s, true), now).0.events, oid)
  {
    hide OnOrder, Mark, Report;
  }

  /** Finishing with the snapshot makes it inert, whatever happened between taking and finishing. */
  lemma {:induction false} FinishMakesInert(w: Inbox, i: nat, s: Snapshot, oid: nat, now: Time)
    requires i in w.workers && i < |w.events| && EventsAbout(w.events, oid)
    requires s.reference == Some(oid) && oid < |w.db.orders|
    ensures var r := Next(w, Finished(i, Answered(s, true), now));
            oid < |r.db.orders| && EventsAbout(r.events, oid) && Inert(LockedAt(r.db, oid), oid, s)
  {
    hide Finish, Deliver, Inert;
    FinishIsDeliver(w, i, s, oid, now);
    FinishAbout(w, i, s, oid, now);
    DeliverInert(LockedAt(w.db, oid), oid, s, Arrival(i, Linked(w, i), now));
  }

  lemma {:induction false} FinishIdle(w: Inbox, i: nat, s: Snapshot, oid: nat, now: Time)
    requires i < |w.events| && EventsAbout(w.events, oid) && s.reference == Some(oid) && oid < |w.db.orders|
    requires Inert(LockedAt(w.db, oid), oid, s)
    ensures var r := Finish(w, i, Answered(s, true), now).0;
            SameShop(w.db, r.db, oid) && EventsAbout(r.events, oid) && Inert(LockedAt(r.db, oid), oid, s)
  {
    hide Finish, Deliver, Inert;
    FinishIsDeliver(w, i, s, oid, now);
    FinishAbout(w, i, s, oid, now);
    InertKeeps(LockedAt(w.db, oid), oid, s, Arrival(i, Linked(w, i), now));
    DeliverInert(LockedAt(w.db, oid), oid, s, Arrival(i, Linked(w, i), now));
  }

  lemma {:induction false} SelfSame(db: Db, oid: nat)
    requires oid < |db.orders|
    ensures SameShop(db, db, oid)
  {
  }

  lemma {:induction false} AboutIdle(w: Inbox, step: Step, s: Snapshot, oid: nat)
    requires About(step, s) && EventsAbout(w.events, oid) && s.reference == Some(oid) && oid < |w.db.orders|
    requires Inert(LockedAt(w.db, oid), oid, s)
    ensures var r := Next(w, step);
            SameShop(w.db, r.db, oid) && EventsAbout(r.events, oid) && Inert(LockedAt(r.db, oid), oid, s)
  {
    hide Inert, FailEvent, SameShop;
    SelfSame(w.db, oid);
    match step {
      case Finished(i, answer, now) =>
        if i < |w.events| {
          if answer.NoAnswer? {
            FailIsIdle(w, i, oid, now);
            SameShopCore(w.db, FailEvent(w, i, now).db, oid);
            InertRow(LockedAt(w.db, oid), LockedAt(FailEvent(w, i, now).db, oid), oid, s);
          } else {
            FinishIdle(w, i, s, oid, now);
            hide Finish;
          }
        }
      case _ =>
    }
  }

  lemma {:induction false} SameShopCore(a: Db, b: Db, oid: nat)
    requires SameShop(a, b, oid)
    ensures oid < |a.orders| == |b.orders| && SameCore(LockedAt(a, oid), LockedAt(b, oid))
  {
  }

  lemma {:induction false} SameShopJoins(a: Db, b: Db, c: Db, oid: nat)
    requires SameShop(a, b, oid) && SameShop(b, c, oid)
    ensures SameShop(a, c, oid)
  {
  }

  /**
   * Once one worker has finished with a snapshot, no interleaving of deliveries, workers that took
   * the event earlier or later, dying workers and sweeps about it changes the stock, any other
   * order, or the status and reservations of its own.
   */
  lemma {:induction false} InterleavedHarmless(w: Inbox, steps: seq<Step>, s: Snapshot, oid: nat)
    requires forall k {:trigger steps[k]} :: 0 <= k < |steps| ==> About(steps[k], s)
    requires EventsAbout(w.events, oid) && s.reference == Some(oid) && oid < |w.db.orders|
    requires Inert(LockedAt(w.db, oid), oid, s)
    ensures var r := RunInbox(w, steps);
            SameShop(w.db, r.db, oid) && EventsAbout(r.events, oid) && Inert(LockedAt(r.db, oid), oid, s)
  {
    hide Inert, EventsAbout, About, Next, SameShop;
    SelfSame(w.db, oid);
    if steps != [] {
      var init := steps[..|steps| - 1];
      assert forall k {:trigger init[k]} :: 0 <= k < |init| ==> init[k] == steps[k];
      InterleavedHarmless(w, init, s, oid);
      var before := RunInbox(w, init);
      SameShopCore(w.db, before.db, oid);
      AboutIdle(before, steps[|steps| - 1], s, oid);
      SameShopJoins(w.db, before.db, RunInbox(w, steps).db, oid);
    }
  }

  // ----- The shop at work meanwhile

  /** Steps about the snapshot, and commands of the shop that do not revive it. */
  ghost predicate Undisturbed(w: Inbox, steps: seq<Step>, s: Snapshot, oid: nat) {
    steps != [] ==>
      var init := steps[..|steps| - 1];
      var last := steps[|steps| - 1];
      && Undisturbed(w, init, s, oid)
      && (About(last, s) || (last.Meanwhile? && !Revives(RunInbox(w, init).db, oid, s, last.action)))
  }

  lemma {:induction false} MeanwhileRevives(w: Inbox, a: Action, s: Snapshot, oid: nat)
    requires Valid(w.db) && oid < |w.db.orders| && Inert(LockedAt(w.db, oid), oid, s)
    ensures var r := Next(w, Meanwhile(a));
            && r.events == w.events && oid < |r.db.orders|
            && (Inert(LockedAt(r.db, oid), oid, s) <==> !Revives(w.db, oid, s, a))
  {
    hide Valid, Inert, Revives, Shop.Step;
    StepRevives(w.db, oid, s, a);
  }

  /**
   * With the shop at work between the steps: as long as no command revives the snapshot it stays
   * inert, so that every worker who finishes with it then leaves stock, other orders and the
   * order's status and reservations alone. A command that revives it is exactly one that ends this.
   */
  lemma {:induction false} StaysInert(w: Inbox, steps: seq<Step>, s: Snapshot, oid: nat)
    requires Valid(w.db) && EventsAbout(w.events, oid) && s.reference == Some(oid) && oid < |w.db.orders|
    requires Inert(LockedAt(w.db, oid), oid, s) && Undisturbed(w, steps, s, oid)
    ensures var r := RunInbox(w, steps);
            && Valid(r.db) && EventsAbout(r.events, oid) && oid < |r.db.orders| && Inert(LockedAt(r.db, oid), oid, s)
            && FinishesIdle(r, s, oid) && OnlyRevivedBy(r, s, oid)
  {
    hide *;
    InboxValid(w, steps);
    InertAfter(w, steps, s, oid);
    IdleFinishes(RunInbox(w, steps), s, oid);
    RevivedOnly(RunInbox(w, steps), s, oid);
  }

  /** Any worker who finishes now, with the snapshot or without an answer, leaves the shop alone. */
  ghost predicate FinishesIdle(w: Inbox, s: Snapshot, oid: nat) {
    forall i, answer, now {:trigger Finished(i, answer, now)} ::
      About(Finished(i, answer, now), s) ==> SameShop(w.db, Next(w, Finished(i, answer, now)).db, oid)
  }

  /** The snapshot stays inert under a command exactly when the command does not revive it. */
  ghost predicate OnlyRevivedBy(w: Inbox, s: Snapshot, oid: nat) {
    forall a {:trigger Meanwhile(a)} ::
      var r := Next(w, Meanwhile(a)).db;
      oid < |r.orders| && (Inert(LockedAt(r, oid), oid, s) <==> !Revives(w.db, oid, s, a))
  }

  lemma {:induction false} IdleFinishes(w: Inbox, s: Snapshot, oid: nat)
    requires EventsAbout(w.events, oid) && s.reference == Some(oid) && oid < |w.db.orders|
    requires Inert(LockedAt(w.db, oid), oid, s)
    ensures FinishesIdle(w, s, oid)
  {
    hide Inert, EventsAbout, About, Next, SameShop;
    forall i, answer, now {:trigger Finished(i, answer, now)} | About(Finished(i, answer, now), s)
      ensures SameShop(w.db, Next(w, Finished(i, answer, now)).db, oid)
    {
      AboutIdle(w, Finished(i, answer, now), s, oid);
    }
  }

  lemma {:induction false} RevivedOnly(w: Inbox, s: Snapshot, oid: nat)
    requires Valid(w.db) && oid < |w.db.orders| && Inert(LockedAt(w.db, oid), oid, s)
    ensures OnlyRevivedBy(w, s, oid)
  {
    hide Inert, Next, Revives, Valid;
    forall a {:trigger Meanwhile(a)}
      ensures oid < |Next(w, Meanwhile(a)).db.orders|
      ensures Inert(LockedAt(Next(w, Meanwhile(a)).db, oid), oid, s) <==> !Revives(w.db, oid, s, a)
    {
      MeanwhileRevives(w, a, s, oid);
    }
  }

  lemma {:induction false} InertAfter(w: Inbox, steps: seq<Step>, s: Snapshot, oid: nat)
    requires Valid(w.db) && EventsAbout(w.events, oid) && s.reference == Some(oid) && oid < |w.db.orders|
    requires Inert(LockedAt(w.db, oid), oid, s) && Undisturbed(w, steps, s, oid)
    ensures var r := RunInbox(w, steps);
            EventsAbout(r.events, oid) && oid < |r.db.orders| && Inert(LockedAt(r.db, oid), oid, s)
  {
    hide Inert, EventsAbout, About, Next, SameShop, Revives, Valid;
    if steps != [] {
      var init := steps[..|steps| - 1];
      var last := steps[|steps| - 1];
      InertAfter(w, init, s, oid);
      var before := RunInbox(w, init);
      if About(last, s) {
        AboutIdle(before, last, s, oid);
        SameShopCore(before.db, Next(before, last).db, oid);
      } else {
        InboxValid(w, init);
        MeanwhileRevives(before, last.action, s, oid);
      }
    }
  }

  // ----- As it runs

  /** The worker's methods over a running shop. */
  class InboxWorker {
    const desk: Desk
    var events: seq<WebhookEvent>

    constructor (desk: Desk)
      ensures this.desk == desk && events == []
    {
      this.desk := desk;
      events := [];
    }

    function World(): Inbox
      reads this, desk, desk.stock
    {
      Inbox(desk.Db(), events, multiset{})
    }

    ghost predicate Ready()
      reads this, desk, desk.stock
    {
      desk.Indexed()
    }

    method SaveEvent(i: nat, e: WebhookEvent)
      requires i < |events|
      modifies this`events
      ensures events == old(events)[i := e]
    {
      events := events[i := e];
    }

    /** One transaction that takes the event. */
    method TakeEvent(i: nat, now: Time) returns (taken: bool)
      modifies this`events
      ensures (World(), taken) == Take(old(World()), i, now)
    {
      if i >= |events| {
        return false;
      }
      var e := events[i];
      if e.status == Processed {
        return false;
      }
      if !e.signatureValid || !e.hasResource {
        SaveEvent(i, e.(status := Ignored));
        return false;
      }
      if e.status == Processing {
        return false;
      }
      e := e.(status := Processing);
      e := e.(attempts := e.attempts + 1);
      e := e.(nextRetry := Some(now + LEASE));
      SaveEvent(i, e);
      return true;
    }

    method Fail(i: nat, now: Time)
      requires i < |events| && Ready()
      modifies this`events, desk, desk.stock
      ensures Ready() && World() == FailEvent(old(World()), i, now)
    {
      hide UniqueActive, Mark, Report;
      var e := events[i];
      SaveEvent(i, e.(status := FailedEvent, nextRetry := Some(now + Backoff(e.attempts))));
      if e.order.Some? && e.order.value < |desk.orders| {
        var _ := desk.Execute(ChangeOrder(e.order.value, DoFailWebhook(i)));
      } else {
        var _ := desk.ReportIssue(WebhookPending, None, Some(i));
      }
    }

    method NoteUnknown(i: nat)
      requires i < |events|
      modifies desk`issues
      ensures desk.issues == UnknownIssue(old(desk.issues), i, events[i].order)
    {
      if !exists k :: 0 <= k < |desk.issues| && OpenUnknown(desk.issues[k], i) {
        desk.issues := desk.issues + [Issue(UnknownPayment, events[i].order, Some(i), IssueOpen)];
      }
    }

    method ProcessEvent(i: nat, answer: Answer, now: Time) returns (handled: bool)
      requires Ready()
      modifies this`events, desk, desk.stock
      ensures Ready()
      ensures (World(), handled) == Process(old(World()), i, answer, now)
    {
      hide UniqueActive, FailEvent, UnknownIssue, OnOrder;
      var taken := TakeEvent(i, now);
      if !taken {
        return false;
      }
      if answer.NoAnswer? {
        Fail(i, now);
        return false;
      }
      if Misdirected(World(), answer) {
        NoteUnknown(i);
        SaveEvent(i, events[i].(status := Processed));
        return true;
      }
      var oid := answer.snapshot.reference.value;
      var r := desk.Execute(ChangeOrder(oid, DoSettle(answer.snapshot, i, now)));
      if r.Err? {
        Fail(i, now);
        return false;
      }
      SaveEvent(i, events[i].(status := Processed, order := Some(oid), nextRetry := None));
      return true;
    }

    /** The view that accepts deliveries; `known` is the event with the same provider id, if there is one. */
    method ReceiveEvent(known: Option<nat>, valid: bool, hasResource: bool)
      modifies this`events
      ensures World() == Receive(old(World()), known, valid, hasResource)
    {
      var i := if known.Some? && known.value < |events| then known.value else |events|;
      if i == |events| {
        events := events + [WebhookEvent(Received, 0, None, false, hasResource, None)];
      }
      if !valid {
        SaveEvent(i, events[i].(status := Ignored));
        return;
      }
      var e := events[i].(hasResource := hasResource);
      e := e.(signatureValid := true);
      e := e.(status := Received);
      SaveEvent(i, e);
    }
  }
}
