/** Keyed commands: the first success under a key is the only one, and every repeat gets its answer. */
module Idempotency {
  import opened Prelude
  import opened Text
  import opened Inventory
  import opened Orders
  import opened Shop
  import opened Invariant
  import opened Runs

  const MAX_KEY_LENGTH := 128

  /** A record is unique per organisation, scope and cleaned key. */
  datatype KeyId = KeyId(organisation: nat, scope: string, key: string)

  datatype RecordStatus = Processing | Succeeded

  /** `request` stands for its digest, which is taken to be injective. */
  datatype Record<R, P> = Record(request: R, status: RecordStatus, response: Option<P>)

  datatype Outcome<P> = Outcome(response: P, replayed: bool)

  /**
   * `env` is what the command reads besides its request and the database: the clock, the shop's
   * settings, the provider's answers. It is no part of the digest. Commands without a key bypass
   * the records.
   */
  datatype Call<R, E> = Call(organisation: nat, scope: string, key: Option<string>, request: R, env: E) {
    function Id(): KeyId
      requires key.Some?
    {
      KeyId(organisation, scope, Strip(key.value))
    }

    predicate WellKeyed() {
      key.Some? && 0 < |Strip(key.value)| <= MAX_KEY_LENGTH
    }

    predicate Recorded<P>(records: map<KeyId, Record<R, P>>) {
      key.Some? && Id() in records
    }

    /** The same key and request, whatever the environment is by now. */
    ghost predicate Repeats(c: Call<R, E>) {
      key.Some? && c.key.Some? && Id() == c.Id() && request == c.request
    }
  }

  /** The database: what commands change, and the idempotency records. */
  datatype World<S, R, P> = World(state: S, records: map<KeyId, Record<R, P>>)

  /** A command's effect is a function of its scope, request, environment and state; it returns the new state and a response. */
  type Service<!S, !R, !E, P> = (string, R, E, S) -> Result<(S, P)>

  /** execute_idempotent, or the bare command when there is no key. */
  function Execute<S, R(==), E, P>(w: World<S, R, P>, serve: Service<S, R, E, P>, c: Call<R, E>): Result<(World<S, R, P>, Outcome<P>)> {
    if c.key.Some? && !c.WellKeyed() then Err(IdempotencyKeyRequired)
    else if c.Recorded(w.records) then
      var existing := w.records[c.Id()];
      if existing.request != c.request then Err(IdempotencyKeyReused)
      else if existing.status == Succeeded && existing.response.Some? then Ok((w, Outcome(existing.response.value, true)))
      else Err(IdempotencyInProgress)
    else
      var done :- serve(c.scope, c.request, c.env, w.state);
      var records := if c.key.Some? then w.records[c.Id() := Record(c.request, Succeeded, Some(done.1))] else w.records;
      Ok((World(done.0, records), Outcome(done.1, false)))
  }

  /** A call that raises is rolled back. */
  function After<S, R(==), E, P>(w: World<S, R, P>, serve: Service<S, R, E, P>, c: Call<R, E>): World<S, R, P> {
    var r := Execute(w, serve, c);
    if r.Ok? then r.value.0 else w
  }

  function ServeAll<S, R(==), E, P>(w: World<S, R, P>, serve: Service<S, R, E, P>, calls: seq<Call<R, E>>): World<S, R, P> {
    if calls == [] then w else After(ServeAll(w, serve, calls[..|calls| - 1]), serve, calls[|calls| - 1])
  }

  /** No committed record is still PROCESSING, and every one holds its response. */
  ghost predicate Settled<S, R, P>(w: World<S, R, P>) {
    forall k {:trigger w.records[k]} :: k in w.records ==> w.records[k].status == Succeeded && w.records[k].response.Some?
  }

  lemma {:induction false} ServeSettled<S, R, E, P>(w: World<S, R, P>, serve: Service<S, R, E, P>, calls: seq<Call<R, E>>)
    requires Settled(w)
    ensures Settled(ServeAll(w, serve, calls))
  {
    if calls != [] {
      ServeSettled(w, serve, calls[..|calls| - 1]);
    }
  }

  // ----- What a caller sees

  /** Records are never changed or removed, whatever is called later. */
  lemma {:induction false} RecordsStay<S, R, E, P>(w: World<S, R, P>, serve: Service<S, R, E, P>, calls: seq<Call<R, E>>, k: KeyId)
    requires k in w.records
    ensures k in ServeAll(w, serve, calls).records && ServeAll(w, serve, calls).records[k] == w.records[k]
  {
    if calls != [] {
      RecordsStay(w, serve, calls[..|calls| - 1], k);
    }
  }

  /**
   * A call that succeeded once answers the same for ever: after any later calls a repeat, whatever
   * the clock, the settings and the provider say by then, returns the stored response, marked as
   * replayed, and changes nothing.
   */
  lemma {:induction false} RepeatAnswersAlike<S, R, E, P>(w: World<S, R, P>, serve: Service<S, R, E, P>, c: Call<R, E>, between: seq<Call<R, E>>, d: Call<R, E>)
    requires Settled(w) && Execute(w, serve, c).Ok? && d.Repeats(c)
    ensures var later := ServeAll(After(w, serve, c), serve, between);
            Execute(later, serve, d) == Ok((later, Outcome(Execute(w, serve, c).value.1.response, true)))
  {
    RecordsStay(After(w, serve, c), serve, between, c.Id());
  }

  /** The same key with another request is refused and changes nothing, after any later calls and in any environment. */
  lemma {:induction false} OtherRequestRefused<S, R, E, P>(w: World<S, R, P>, serve: Service<S, R, E, P>, c: Call<R, E>, between: seq<Call<R, E>>, d: Call<R, E>)
    requires c.key.Some? && d.key.Some? && d.Id() == c.Id() && d.request != c.request
    requires Execute(w, serve, c).Ok?
    ensures var later := ServeAll(After(w, serve, c), serve, between);
            Execute(later, serve, d) == Err(IdempotencyKeyReused) && After(later, serve, d) == later
  {
    RecordsStay(After(w, serve, c), serve, between, c.Id());
  }

  /** From a settled database "in progress" is never answered, whatever was called before. */
  lemma {:induction false} NeverInProgress<S, R, E, P>(w: World<S, R, P>, serve: Service<S, R, E, P>, calls: seq<Call<R, E>>, c: Call<R, E>)
    requires Settled(w)
    requires forall scope, request, env, state ::
               serve(scope, request, env, state).Err? ==> serve(scope, request, env, state).error != IdempotencyInProgress
    ensures Execute(ServeAll(w, serve, calls), serve, c) != Err(IdempotencyInProgress)
  {
    hide ServeAll;
    ServeSettled(w, serve, calls);
    NotInProgress(ServeAll(w, serve, calls), serve, c);
  }

  lemma {:induction false} NotInProgress<S, R, E, P>(w: World<S, R, P>, serve: Service<S, R, E, P>, c: Call<R, E>)
    requires Settled(w)
    requires forall scope, request, env, state ::
               serve(scope, request, env, state).Err? ==> serve(scope, request, env, state).error != IdempotencyInProgress
    ensures Execute(w, serve, c) != Err(IdempotencyInProgress)
  {
  }

  /** The calls that were answered, first time or replayed; the others raised. */
  function Answers<S, R(==), E, P>(w: World<S, R, P>, serve: Service<S, R, E, P>, calls: seq<Call<R, E>>): seq<Call<R, E>> {
    if calls == [] then []
    else
      var init := calls[..|calls| - 1];
      var last := calls[|calls| - 1];
      Answers(w, serve, init) + (if Execute(ServeAll(w, serve, init), serve, last).Ok? then [last] else [])
  }

  lemma {:induction false} AnswersIs<S, R, E, P>(w: World<S, R, P>, serve: Service<S, R, E, P>, calls: seq<Call<R, E>>)
    requires calls != []
    ensures var init := calls[..|calls| - 1];
            var last := calls[|calls| - 1];
            var before := ServeAll(w, serve, init);
            && ServeAll(w, serve, calls) == After(before, serve, last)
            && (Execute(before, serve, last).Ok? ==> Answers(w, serve, calls) == Answers(w, serve, init) + [last])
            && (Execute(before, serve, last).Err? ==> Answers(w, serve, calls) == Answers(w, serve, init) && After(before, serve, last) == before)
  {
    hide Execute;
  }

  /**
   * Calls that raised leave no trace over any run: the database is what the answered calls alone
   * would have made it, so a key whose calls all raised is as free as one never used.
   */
  lemma {:induction false} FailuresLeaveNoTrace<S, R, E, P>(w: World<S, R, P>, serve: Service<S, R, E, P>, calls: seq<Call<R, E>>)
    ensures ServeAll(w, serve, Answers(w, serve, calls)) == ServeAll(w, serve, calls)
  {
    if calls == [] {
      assert Answers(w, serve, calls) == [];
    } else {
      hide *;
      var init := calls[..|calls| - 1];
      var last := calls[|calls| - 1];
      FailuresLeaveNoTrace(w, serve, init);
      AnswersIs(w, serve, calls);
      if Execute(ServeAll(w, serve, init), serve, last).Ok? {
        ServeMore(w, serve, Answers(w, serve, init), last);
      }
    }
  }

  // ----- Refinement

  /** The calls with every later repeat of an already succeeded key removed. */
  function Needed<S, R(==), E, P>(w: World<S, R, P>, serve: Service<S, R, E, P>, calls: seq<Call<R, E>>): seq<Call<R, E>> {
    if calls == [] then []
    else
      var init := calls[..|calls| - 1];
      var last := calls[|calls| - 1];
      Needed(w, serve, init) + (if last.Recorded(ServeAll(w, serve, init).records) then [] else [last])
  }

  lemma {:induction false} ServeMore<S, R, E, P>(w: World<S, R, P>, serve: Service<S, R, E, P>, calls: seq<Call<R, E>>, c: Call<R, E>)
    ensures ServeAll(w, serve, calls + [c]) == After(ServeAll(w, serve, calls), serve, c)
  {
    assert (calls + [c])[..|calls|] == calls;
  }

  lemma {:induction false} NeededIs<S, R, E, P>(w: World<S, R, P>, serve: Service<S, R, E, P>, calls: seq<Call<R, E>>)
    requires calls != []
    ensures var init := calls[..|calls| - 1];
            var last := calls[|calls| - 1];
            && (last.Recorded(ServeAll(w, serve, init).records) ==> Needed(w, serve, calls) == Needed(w, serve, init))
            && (!last.Recorded(ServeAll(w, serve, init).records) ==> Needed(w, serve, calls) == Needed(w, serve, init) + [last])
            && ServeAll(w, serve, calls) == After(ServeAll(w, serve, init), serve, last)
  {
    hide After, Call.Recorded;
  }

  lemma {:induction false} RecordedIsIdle<S, R, E, P>(w: World<S, R, P>, serve: Service<S, R, E, P>, c: Call<R, E>)
    requires c.Recorded(w.records)
    ensures After(w, serve, c) == w
  {
  }

  /** Any sequence of keyed calls ends in the same database as the sequence without the repeats. */
  lemma {:induction false} RepeatsDoNotMatter<S, R, E, P>(w: World<S, R, P>, serve: Service<S, R, E, P>, calls: seq<Call<R, E>>)
    ensures ServeAll(w, serve, Needed(w, serve, calls)) == ServeAll(w, serve, calls)
  {
    if calls == [] {
      assert Needed(w, serve, calls) == [];
    } else {
      hide *;
      var init := calls[..|calls| - 1];
      var last := calls[|calls| - 1];
      RepeatsDoNotMatter(w, serve, init);
      NeededIs(w, serve, calls);
      if last.Recorded(ServeAll(w, serve, init).records) {
        RecordedIsIdle(ServeAll(w, serve, init), serve, last);
      } else {
        ServeMore(w, serve, Needed(w, serve, init), last);
      }
    }
  }

  /** The state after plain, unkeyed commands, failing ones rolled back. */
  function PlainRun<S, R, E, P>(s: S, serve: Service<S, R, E, P>, calls: seq<Call<R, E>>): S {
    if calls == [] then s
    else
      var earlier := PlainRun(s, serve, calls[..|calls| - 1]);
      var last := calls[|calls| - 1];
      var r := serve(last.scope, last.request, last.env, earlier);
      if r.Ok? then r.value.0 else earlier
  }

  /** Calls that run: those without a key, and those whose key is usable. */
  function Usable<R, E>(calls: seq<Call<R, E>>): seq<Call<R, E>> {
    if calls == [] then []
    else
      var last := calls[|calls| - 1];
      Usable(calls[..|calls| - 1]) + (if last.key.None? || last.WellKeyed() then [last] else [])
  }

  lemma {:induction false} PlainMore<S, R, E, P>(s: S, serve: Service<S, R, E, P>, calls: seq<Call<R, E>>, c: Call<R, E>)
    ensures PlainRun(s, serve, calls + [c]) ==
            var r := serve(c.scope, c.request, c.env, PlainRun(s, serve, calls));
            if r.Ok? then r.value.0 else PlainRun(s, serve, calls)
  {
    assert (calls + [c])[..|calls|] == calls;
  }

  lemma {:induction false} UsableMore<R, E>(calls: seq<Call<R, E>>, c: Call<R, E>)
    ensures Usable(calls + [c]) == Usable(calls) + if c.key.None? || c.WellKeyed() then [c] else []
  {
    assert (calls + [c])[..|calls|] == calls;
  }

  /** What one call does to the state. */
  lemma {:induction false} AfterState<S, R, E, P>(w: World<S, R, P>, serve: Service<S, R, E, P>, c: Call<R, E>)
    ensures After(w, serve, c).state ==
            if c.Recorded(w.records) || (c.key.Some? && !c.WellKeyed()) then w.state
            else var r := serve(c.scope, c.request, c.env, w.state);
                 if r.Ok? then r.value.0 else w.state
  {
  }

  /** One more call: needed and usable, or without effect on the state. */
  lemma {:induction false} RefineMore<S, R, E, P>(w: World<S, R, P>, serve: Service<S, R, E, P>, s: S, needed: seq<Call<R, E>>, c: Call<R, E>)
    requires w.state == PlainRun(s, serve, Usable(needed))
    ensures c.Recorded(w.records) ==> After(w, serve, c).state == PlainRun(s, serve, Usable(needed))
    ensures !c.Recorded(w.records) ==> After(w, serve, c).state == PlainRun(s, serve, Usable(needed + [c]))
  {
    hide *;
    AfterState(w, serve, c);
    UsableMore(needed, c);
    if c.key.None? || c.WellKeyed() {
      PlainMore(s, serve, Usable(needed), c);
    } else {
      assert Usable(needed) + [] == Usable(needed);
    }
  }

  /** The keyed service refines the plain one: the needed calls, run bare, give the same state. */
  lemma {:induction false} KeyedRefinesPlain<S, R, E, P>(w: World<S, R, P>, serve: Service<S, R, E, P>, calls: seq<Call<R, E>>)
    ensures ServeAll(w, serve, calls).state == PlainRun(w.state, serve, Usable(Needed(w, serve, calls)))
  {
    if calls == [] {
      assert Usable<R, E>([]) == [];
    } else {
      hide *;
      var init := calls[..|calls| - 1];
      KeyedRefinesPlain(w, serve, init);
      NeededIs(w, serve, calls);
      RefineMore(ServeAll(w, serve, init), serve, w.state, Needed(w, serve, init), calls[|calls| - 1]);
    }
  }

  /** How often calls under one key really ran their command to success. */
  function Successes<S, R(==), E, P>(w: World<S, R, P>, serve: Service<S, R, E, P>, calls: seq<Call<R, E>>, k: KeyId): nat {
    if calls == [] then 0
    else
      var init := calls[..|calls| - 1];
      var last := calls[|calls| - 1];
      var r := Execute(ServeAll(w, serve, init), serve, last);
      Successes(w, serve, init, k) + (if last.key.Some? && last.Id() == k && r.Ok? && !r.value.1.replayed then 1 else 0)
  }

  /** Exactly once: a key's command succeeds once if there is a record for it and never otherwise. */
  lemma {:induction false} ExactlyOnce<S, R, E, P>(w: World<S, R, P>, serve: Service<S, R, E, P>, calls: seq<Call<R, E>>, k: KeyId)
    requires k !in w.records
    ensures Successes(w, serve, calls, k) == if k in ServeAll(w, serve, calls).records then 1 else 0
  {
    if calls != [] {
      ExactlyOnce(w, serve, calls[..|calls| - 1], k);
    }
  }

  // ----- The shop behind keys

  /** What a client asks for; the last case is a command that takes no key. */
  datatype Request =
    | AskSale(inputs: seq<LineInput>, mode: DeliveryMode, payBy: PaymentMethod)
    | AskPublish(oid: nat)
    | AskBuyerUpdate(oid: nat, details: Option<Buyer>)
    | AskCheckout(oid: nat)
    | AskReview(oid: nat, approved: bool)
    | AskConfirm(oid: nat, amount: Option<int>, paidAt: Time)
    | AskCancel(oid: nat)
    | AskRestore(oid: nat)
    | AskRefund(oid: nat)
    | AskResend(oid: nat)
    | AskOffer(oid: nat)
    | AskReissue(oid: nat)
    | AskRetry(oid: nat, issue: nat)
    | AskProduct(product: Product, initial: int)
    | AskMovement(p: nat, kind: MovementType, quantity: int)
    | Direct(action: Action)

  /** All that the digest covers: `text` stands for reasons, notes, addresses and accounts, which no command branches on. */
  datatype Body = Body(what: Request, text: string)

  /** The clock, the reservation term, the shop's payment settings and whether the provider answers. */
  datatype Environment = Environment(now: Time, ttl: Time, setup: Setup, providerUp: bool)

  /** The command that a request is in a given environment. */
  function ActionOf(body: Body, env: Environment): Action {
    match body.what
    case AskSale(inputs, mode, payBy) => CreateSale(inputs, mode, payBy, env.setup, env.now + env.ttl)
    case AskPublish(oid) => ChangeOrder(oid, DoPublishLink(env.now))
    case AskBuyerUpdate(oid, details) => ChangeOrder(oid, DoUpdateBuyer(details))
    case AskCheckout(oid) => ChangeOrder(oid, DoStartCheckout(env.setup.connected, env.providerUp, env.now))
    case AskReview(oid, approved) => ChangeOrder(oid, DoReviewProof(approved, env.now))
    case AskConfirm(oid, amount, paidAt) => ChangeOrder(oid, DoConfirmManual(amount, paidAt, env.now))
    case AskCancel(oid) => ChangeOrder(oid, DoCancel(env.now))
    case AskRestore(oid) => ChangeOrder(oid, DoRestore(env.now, env.ttl))
    case AskRefund(oid) => ChangeOrder(oid, DoRefund(env.setup.connected, env.providerUp, env.now))
    case AskResend(oid) => ChangeOrder(oid, DoResendLink)
    case AskOffer(oid) => ChangeOrder(oid, DoSendOffer)
    case AskReissue(oid) => ReissueSale(oid, env.setup, env.now, env.ttl)
    case AskRetry(oid, issue) => ChangeOrder(oid, DoRetryIssue(issue))
    case AskProduct(product, initial) => AddProduct(product, initial)
    case AskMovement(p, kind, quantity) => MoveStock(p, kind, quantity)
    case Direct(action) => action
  }

  /** The row a command answers with: the order, product or movement it made or changed. */
  function Answered(db: Db, a: Action): nat {
    match a
    case CreateSale(_, _, _, _, _) => |db.orders|
    case ReissueSale(_, _, _, _) => |db.orders|
    case ChangeOrder(oid, _) => oid
    case AddProduct(_, _) => |db.t.products|
    case MoveStock(_, _, _) => |db.t.movements|
    case _ => 0
  }

  function ShopService(scope: string, body: Body, env: Environment, db: Db): Result<(Db, nat)> {
    var a := ActionOf(body, env);
    var done := Attempt(db, a);
    if done.Ok? then Ok((done.value, Answered(db, a))) else Err(done.error)
  }

  /** The request behind a command; commands that take no key are their own request. */
  function RequestOf(a: Action): Request {
    match a
    case CreateSale(inputs, mode, payBy, _, _) => AskSale(inputs, mode, payBy)
    case ReissueSale(oid, _, _, _) => AskReissue(oid)
    case AddProduct(product, initial) => AskProduct(product, initial)
    case MoveStock(p, kind, quantity) => AskMovement(p, kind, quantity)
    case ChangeOrder(oid, DoPublishLink(_)) => AskPublish(oid)
    case ChangeOrder(oid, DoUpdateBuyer(details)) => AskBuyerUpdate(oid, details)
    case ChangeOrder(oid, DoStartCheckout(_, _, _)) => AskCheckout(oid)
    case ChangeOrder(oid, DoReviewProof(approved, _)) => AskReview(oid, approved)
    case ChangeOrder(oid, DoConfirmManual(amount, paidAt, _)) => AskConfirm(oid, amount, paidAt)
    case ChangeOrder(oid, DoCancel(_)) => AskCancel(oid)
    case ChangeOrder(oid, DoRestore(_, _)) => AskRestore(oid)
    case ChangeOrder(oid, DoRefund(_, _, _)) => AskRefund(oid)
    case ChangeOrder(oid, DoResendLink) => AskResend(oid)
    case ChangeOrder(oid, DoSendOffer) => AskOffer(oid)
    case ChangeOrder(oid, DoRetryIssue(issue)) => AskRetry(oid, issue)
    case _ => Direct(a)
  }

  /** The environment never decides what is asked for: one request gives the same command, but for the environment's own values, at any time. */
  lemma {:induction false} RequestComesBack(body: Body, env: Environment, later: Environment)
    ensures !body.what.Direct? ==> RequestOf(ActionOf(body, env)) == body.what
    ensures RequestOf(ActionOf(body, env)) == RequestOf(ActionOf(body, later))
  {
  }

  /** Two calls have one key exactly when organisation, scope and stripped text agree. */
  lemma {:induction false} KeysAgree<R, E>(c: Call<R, E>, d: Call<R, E>)
    requires c.key.Some? && d.key.Some?
    ensures c.Id() == d.Id() <==> c.organisation == d.organisation && c.scope == d.scope && Strip(c.key.value) == Strip(d.key.value)
  {
  }

  /** A key that is blank, or longer than 128 characters once stripped, is refused before anything is looked at. */
  lemma {:induction false} BadKeyRefused<S, R, E, P>(w: World<S, R, P>, serve: Service<S, R, E, P>, c: Call<R, E>)
    requires c.key.Some? && (Strip(c.key.value) == "" || |Strip(c.key.value)| > 128)
    ensures Execute(w, serve, c) == Err(IdempotencyKeyRequired) && After(w, serve, c) == w
  {
  }

  /** A call without a key, or with a fresh good one, is the command itself, and only the latter leaves a record. */
  lemma {:induction false} FirstUse<S, R, E, P>(w: World<S, R, P>, serve: Service<S, R, E, P>, c: Call<R, E>)
    requires c.key.None? || (0 < |Strip(c.key.value)| <= 128 && c.Id() !in w.records)
    ensures var r := serve(c.scope, c.request, c.env, w.state);
            Execute(w, serve, c) ==
            if r.Err? then Err(r.error)
            else Ok((World(r.value.0, if c.key.None? then w.records
                                      else w.records[c.Id() := Record(c.request, Succeeded, Some(r.value.1))]),
                     Outcome(r.value.1, false)))
  {
  }

  /** What the environment fills in: the moment, the reservation term, the settings and the provider's availability. */
  lemma {:induction false} EnvironmentFills(oid: nat, text: string, env: Environment)
    ensures ActionOf(Body(AskPublish(oid), text), env) == ChangeOrder(oid, DoPublishLink(env.now))
    ensures ActionOf(Body(AskCheckout(oid), text), env) == ChangeOrder(oid, DoStartCheckout(env.setup.connected, env.providerUp, env.now))
    ensures ActionOf(Body(AskRefund(oid), text), env) == ChangeOrder(oid, DoRefund(env.setup.connected, env.providerUp, env.now))
    ensures ActionOf(Body(AskRestore(oid), text), env) == ChangeOrder(oid, DoRestore(env.now, env.ttl))
    ensures ActionOf(Body(AskReissue(oid), text), env) == ReissueSale(oid, env.setup, env.now, env.ttl)
    ensures ActionOf(Body(AskReview(oid, true), text), env) == ChangeOrder(oid, DoReviewProof(true, env.now))
    ensures ActionOf(Body(AskReview(oid, false), text), env) == ChangeOrder(oid, DoReviewProof(false, env.now))
  {
  }

  /** A served request runs at its own moment and with the reservation term of that moment. */
  lemma {:induction false} ServedNow(scope: string, body: Body, env: Environment, db: Db)
    requires ShopService(scope, body, env, db).Ok?
    ensures var r := ShopService(scope, body, env, db).value.0;
            match body.what
            case AskSale(_, _, payBy) =>
              && 0 < |r.orders| && r.orders[|r.orders| - 1].expiresAt == env.now + env.ttl
              && (payBy == BankTransfer ==> env.setup.bankReady) && (payBy == MercadoPago ==> env.setup.connected)
            case AskReissue(_) =>
              && 0 < |r.orders| && r.orders[|r.orders| - 1].expiresAt == env.now + env.ttl
              && r.orders[|r.orders| - 1].publishedAt == Some(env.now)
            case AskRestore(oid) =>
              oid < |db.orders| && (db.orders[oid].status == Cancelled ==> r.orders[oid].expiresAt == env.now + env.ttl)
            case AskCancel(oid) =>
              oid < |db.orders| && (db.orders[oid].status != Cancelled ==> r.orders[oid].cancelledAt == Some(env.now))
            case _ => true
  {
    hide NormaliseLines, Stock.Transact, StartCheckout, ConfirmManual, Refund, ReviewProof, Settle, Mark, ReopenReservations, RestoreTarget, Stock.Put;
  }

  /** A served request answers with the row it made or changed. */
  lemma {:induction false} AnswerIsTheRow(scope: string, body: Body, env: Environment, db: Db)
    requires ShopService(scope, body, env, db).Ok?
    ensures var (r, row) := ShopService(scope, body, env, db).value;
            match body.what
            case AskSale(_, _, payBy) => |r.orders| == row + 1 && r.orders[row].status == Reserved && r.orders[row].paymentMethod == payBy
            case AskReissue(oid) => |r.orders| == row + 1 && oid < row && r.orders[oid].status == Cancelled
            case AskProduct(product, _) => |r.t.products| == row + 1 && r.t.products[row] == product
            case AskMovement(p, kind, _) => |r.t.movements| == row + 1 && r.t.movements[row].product == p && r.t.movements[row].kind == kind
            case AskCancel(oid) => row == oid < |r.orders| && r.orders[row].status == Cancelled
            case _ => true
  {
    hide NormaliseLines, Stock.Transact, StartCheckout, ConfirmManual, Refund, ReviewProof, Restore, Settle, Mark;
  }

  function ActionsOf(calls: seq<Call<Body, Environment>>): (r: seq<Action>)
    ensures |r| == |calls| && forall i :: 0 <= i < |r| ==> r[i] == ActionOf(calls[i].request, calls[i].env)
  {
    seq(|calls|, i requires 0 <= i < |calls| => ActionOf(calls[i].request, calls[i].env))
  }

  lemma {:induction false} PlainIsRun(db: Db, calls: seq<Call<Body, Environment>>)
    ensures PlainRun(db, ShopService, calls) == Run(db, ActionsOf(calls))
  {
    hide Attempt, ActionOf, Answered;
    if calls != [] {
      var init := calls[..|calls| - 1];
      PlainIsRun(db, init);
      assert ActionsOf(calls)[..|calls| - 1] == ActionsOf(init);
    }
  }

  /**
   * A shop served through keys, with any repeats at any later time, is a run of its needed
   * commands, each in the environment of its first success, and stays valid.
   */
  lemma {:induction false} KeyedShop(w: World<Db, Body, nat>, calls: seq<Call<Body, Environment>>)
    requires Valid(w.state)
    ensures ServeAll(w, ShopService, calls).state == Run(w.state, ActionsOf(Usable(Needed(w, ShopService, calls))))
    ensures Valid(ServeAll(w, ShopService, calls).state)
  {
    hide Valid, Run, ServeAll, Needed, Usable, PlainRun, ShopService;
    KeyedRefinesPlain(w, ShopService, calls);
    PlainIsRun(w.state, Usable(Needed(w, ShopService, calls)));
    RunValid(w.state, ActionsOf(Usable(Needed(w, ShopService, calls))));
  }

  /** A sale asked for again, later and under other settings, is not made again: the answer is the first sale's order. */
  lemma {:induction false} SaleAskedAgain(w: World<Db, Body, nat>, c: Call<Body, Environment>, between: seq<Call<Body, Environment>>, later: Environment)
    requires Settled(w) && c.WellKeyed() && !c.Recorded(w.records) && c.request.what.AskSale?
    requires Attempt(w.state, ActionOf(c.request, c.env)).Ok?
    ensures var done := ServeAll(After(w, ShopService, c), ShopService, between);
            var first: nat := |w.state.orders|;
            Execute(done, ShopService, c.(env := later)) == Ok((done, Outcome(first, true)))
  {
    FirstAnswer(w, c);
    hide ShopService, After, ServeAll, Execute;
    RepeatAnswersAlike(w, ShopService, c, between, c.(env := later));
  }

  lemma {:induction false} FirstAnswer(w: World<Db, Body, nat>, c: Call<Body, Environment>)
    requires c.WellKeyed() && !c.Recorded(w.records) && c.request.what.AskSale?
    requires Attempt(w.state, ActionOf(c.request, c.env)).Ok?
    ensures Execute(w, ShopService, c).Ok? && Execute(w, ShopService, c).value.1 == Outcome(|w.state.orders|, false)
  {
    hide Attempt;
  }

  // ----- As it runs

  /** One transaction per call: the record is written first, and everything is undone if the command raises. */
  class Keyring<!S(!new), !R(!new,==), !E(!new), P(!new)> {
    var state: S
    var records: map<KeyId, Record<R, P>>
    const serve: Service<S, R, E, P>

    constructor (s: S, serve: Service<S, R, E, P>)
      ensures Contents() == World(s, map[]) && this.serve == serve
    {
      this.serve := serve;
      state, records := s, map[];
    }

    ghost function Contents(): World<S, R, P>
      reads this
    {
      World(state, records)
    }

    method ExecuteIdempotent(c: Call<R, E>) returns (r: Result<Outcome<P>>)
      modifies this
      ensures match Execute(old(Contents()), serve, c)
              case Ok((w, outcome)) => r == Ok(outcome) && Contents() == w
              case Err(e) => r == Err(e) && Contents() == old(Contents())
    {
      if c.key.None? {
        var bare := serve(c.scope, c.request, c.env, state);
        if bare.Err? {
          return Err(bare.error);
        }
        state := bare.value.0;
        return Ok(Outcome(bare.value.1, false));
      }
      var key := Strip(c.key.value);
      if key == "" || |key| > MAX_KEY_LENGTH {
        return Err(IdempotencyKeyRequired);
      }
      var id := KeyId(c.organisation, c.scope, key);
      if id in records {
        var existing := records[id];
        if existing.request != c.request {
          return Err(IdempotencyKeyReused);
        }
        if existing.status == Succeeded && existing.response.Some? {
          return Ok(Outcome(existing.response.value, true));
        }
        return Err(IdempotencyInProgress);
      }
      var saved := records;
      var record := Record(c.request, Processing, None);
      records := records[id := record];
      var attempt := serve(c.scope, c.request, c.env, state);
      if attempt.Err? {
        records := saved;
        return Err(attempt.error);
      }
      state := attempt.value.0;
      record := record.(response := Some(attempt.value.1));
      record := record.(status := Succeeded);
      records := records[id := record];
      return Ok(Outcome(attempt.value.1, false));
    }

    /** Any calls in any order, repeats included. */
    method ServeCalls(calls: seq<Call<R, E>>)
      modifies this
      ensures Contents() == ServeAll(old(Contents()), serve, calls)
      ensures Contents() == ServeAll(old(Contents()), serve, Needed(old(Contents()), serve, calls))
    {
      for i := 0 to |calls|
        invariant Contents() == ServeAll(old(Contents()), serve, calls[..i])
      {
        ServeMore(old(Contents()), serve, calls[..i], calls[i]);
        assert calls[..i + 1] == calls[..i] + [calls[i]];
        var _ := ExecuteIdempotent(calls[i]);
      }
      assert calls[..|calls|] == calls;
      RepeatsDoNotMatter(old(Contents()), serve, calls);
    }
  }
}
