/** The whole database of one shop and every command that changes it. */
module Shop {
  import opened Prelude
  import opened Inventory
  import opened Stock
  import opened Orders

  const MAX_LINE_QUANTITY := 1_000_000
  const MAX_PRICE := 999_999_999_999
  const MAX_ORDER_TOTAL := 99_999_999_999_999

  /** Orders are never deleted, so an order's key is its position. */
  datatype Db = Db(t: Tables, orders: seq<Order>, issues: seq<Issue>)

  // ----- Creating a sale

  /** `price` is None when the form value is missing or not an amount. */
  datatype LineInput = LineInput(product: nat, quantity: int, price: Option<int>)

  function CleanLine(products: seq<Product>, input: LineInput): Result<Line>
    requires input.product < |products|
  {
    if products[input.product].status != CatalogStatus.Active then Err(ProductNotAvailable)
    else if input.quantity <= 0 || input.quantity > MAX_LINE_QUANTITY then Err(ValidationError)
    else if input.price.None? || input.price.value < 0 || input.price.value > MAX_PRICE then Err(ValidationError)
    else Ok(Line(input.product, input.quantity, input.price.value, products[input.product].purchasePrice))
  }

  function CleanLines(products: seq<Product>, inputs: seq<LineInput>): Result<(seq<Line>, nat)>
    requires forall i :: 0 <= i < |inputs| ==> inputs[i].product < |products|
  {
    if inputs == [] then Ok(([], 0))
    else
      var earlier :- CleanLines(products, inputs[..|inputs| - 1]);
      var line :- CleanLine(products, inputs[|inputs| - 1]);
      if earlier.1 + line.LineTotal() > MAX_ORDER_TOTAL then Err(ValidationError)
      else Ok((earlier.0 + [line], earlier.1 + line.LineTotal()))
  }

  function NormaliseLines(products: seq<Product>, inputs: seq<LineInput>): Result<(seq<Line>, nat)> {
    if inputs == [] then Err(ValidationError)
    else if exists i :: 0 <= i < |inputs| && inputs[i].product >= |products| then Err(NotFound)
    else CleanLines(products, inputs)
  }

  /** What the shop's settings say about taking payments. */
  datatype Setup = Setup(bankReady: bool, connected: bool)

  function NewOrder(lines: seq<Line>, total: nat, mode: DeliveryMode, payBy: PaymentMethod, expiresAt: Time): Order {
    Order(Reserved, mode, payBy, total, lines, FreshReservations(lines, expiresAt), None, None,
          [TimelineEvent(OrderCreated, Some(Draft), Some(Reserved))],
          ReconciliationOk, expiresAt, None, None, None, None, None, None)
  }

  function CreateOrder(db: Db, inputs: seq<LineInput>, mode: DeliveryMode, payBy: PaymentMethod, setup: Setup, expiresAt: Time): Result<Db> {
    var clean :- NormaliseLines(db.t.products, inputs);
    if payBy == BankTransfer && !setup.bankReady then Err(BankDetailsRequired)
    else if payBy == MercadoPago && !setup.connected then Err(PaymentConnectionRequired)
    else
      var t :- Transact(db.t, Hold, LineRequests(clean.0));
      Ok(db.(t := t, orders := db.orders + [NewOrder(clean.0, clean.1, mode, payBy, expiresAt)]))
  }

  // ----- Commands on one order, seen from the database

  function LockedAt(db: Db, oid: nat): Locked
    requires oid < |db.orders|
  {
    Locked(db.t, db.orders[oid], db.issues)
  }

  function Commit(db: Db, oid: nat, v: Locked): Db
    requires oid < |db.orders|
  {
    Db(v.t, db.orders[oid := v.order], v.issues)
  }

  function OnOrder(db: Db, oid: nat, c: Command): Result<Db> {
    if oid >= |db.orders| then Err(NotFound)
    else
      var v :- Perform(LockedAt(db, oid), oid, c);
      Ok(Commit(db, oid, v))
  }

  function InputOf(line: Line): LineInput {
    LineInput(line.product, line.quantity, Some(line.unitPrice))
  }

  function InputsOf(lines: seq<Line>): (r: seq<LineInput>)
    ensures |r| == |lines| && forall i :: 0 <= i < |r| ==> r[i] == InputOf(lines[i])
  {
    seq(|lines|, i requires 0 <= i < |lines| => InputOf(lines[i]))
  }

  /** The payment of a superseded order: voided, its ready proof turned down. */
  function SupersededPayment(p: Option<Payment>): Option<Payment> {
    var voided := Voided(p, true);
    match voided
    case Some(q) => if q.proof == Some(ProofReady) then Some(q.(proof := Some(ProofRejected))) else voided
    case None => None
  }

  /** Closing the old order of a reissue. */
  function Supersede(v: Locked, now: Time): Result<Locked> {
    if v.order.paymentMethod != BankTransfer then Err(PaymentMethodNotAllowed)
    else if v.order.status != PurchaseValidation then Err(TransitionNotAllowed)
    else
      var w :- ReleaseReservations(v, now);
      var moved :- Transition(w.order.(payment := SupersededPayment(w.order.payment)), Cancelled, OrderReissued, now);
      Ok(w.(order := moved))
  }

  function PublishNew(o: Order, now: Time): Order {
    Noted(o.(publishedAt := Some(now)), LinkPublished)
  }

  function Reissue(db: Db, oid: nat, setup: Setup, now: Time, ttl: Time): Result<Db> {
    if oid >= |db.orders| then Err(NotFound)
    else
      var superseded := db.orders[oid];
      var v :- Supersede(LockedAt(db, oid), now);
      var created :- CreateOrder(Commit(db, oid, v), InputsOf(superseded.lines), superseded.deliveryMode, BankTransfer, setup, now + ttl);
      var last := |created.orders| - 1;
      if last < 0 then Err(IntegrityError)
      else Ok(created.(orders := created.orders[last := PublishNew(created.orders[last], now)]))
  }

  // ----- Catalogue and manual stock commands

  predicate NameTaken(products: seq<Product>, name: string, except: int) {
    exists i :: 0 <= i < |products| && i != except && products[i].status != Archived && products[i].name == name
  }

  function CreateProduct(t: Tables, product: Product, initial: int): Result<Tables> {
    if product.status == Archived then Err(ValidationError)
    else if initial < 0 || initial > MAX_MOVEMENT_QUANTITY then Err(ValidationError)
    else if NameTaken(t.products, product.name, -1) then Err(ProductNameTaken)
    else
      var p := |t.products|;
      var listed := t.(products := t.products + [product], balances := t.balances[p := Balance(0, 0)]);
      if initial == 0 then Ok(Put(listed, p, Balance(0, 0)))
      else Ok(Put(Post(listed, p, Entry, initial, NoReference), p, Balance(initial, 0)))
  }

  function Signed(kind: MovementType, quantity: int): int {
    match kind
    case Correction => quantity
    case Entry => if quantity < 0 then -quantity else quantity
    case _ => if quantity < 0 then quantity else -quantity
  }

  function RecordMovement(t: Tables, p: nat, kind: MovementType, quantity: int): Result<Tables> {
    if quantity == 0 || (quantity < 0 && kind != Correction)
       || quantity > MAX_MOVEMENT_QUANTITY || -quantity > MAX_MOVEMENT_QUANTITY then Err(ValidationError)
    else if p >= |t.products| then Err(NotFound)
    else if t.products[p].status == Archived then Err(ProductArchived)
    else
      var signed := Signed(kind, quantity);
      var b := t.Bal(p);
      if b.onHand + signed < 0 then Err(InsufficientStock)
      else if b.onHand + signed < b.reserved then Err(StockReserved)
      else Ok(Put(Post(t, p, kind, signed, NoReference), p, b.(onHand := b.onHand + signed)))
  }

  function WithProduct(t: Tables, p: nat, product: Product): Tables
    requires p < |t.products|
  {
    t.(products := t.products[p := product])
  }

  function ArchiveProduct(t: Tables, p: nat): Result<Tables> {
    if p >= |t.products| then Err(NotFound)
    else if t.products[p].status == Archived then Ok(t)
    else if t.Bal(p).reserved > 0 then Err(ProductHasActiveReservations)
    else Ok(Put(WithProduct(t, p, t.products[p].(status := Archived)), p, t.Bal(p)))
  }

  function RestoreProduct(t: Tables, p: nat): Result<Tables> {
    if p >= |t.products| then Err(NotFound)
    else if t.products[p].status != Archived then Ok(t)
    else if NameTaken(t.products, t.products[p].name, p) then Err(ProductNameTaken)
    else Ok(Put(WithProduct(t, p, t.products[p].(status := CatalogStatus.Active)), p, t.Bal(p)))
  }

  /** Editing never archives and never writes a balance or an alert. */
  function UpdateProduct(t: Tables, p: nat, name: string, status: CatalogStatus, price: Option<nat>): Result<Tables> {
    if p >= |t.products| then Err(NotFound)
    else if t.products[p].status == Archived then Err(ProductArchived)
    else if status == Archived then Err(ValidationError)
    else if NameTaken(t.products, name, p) then Err(ProductNameTaken)
    else Ok(WithProduct(t, p, t.products[p].(name := name, status := status, purchasePrice := price)))
  }

  /** Store the balance of every product below n again, each with its alert. */
  function ResyncAll(t: Tables, n: nat): (r: Tables)
    requires n <= |t.products|
    ensures r.products == t.products && r.lowStockThreshold == t.lowStockThreshold
  {
    if n == 0 then t
    else
      var earlier := ResyncAll(t, n - 1);
      Put(earlier, n - 1, earlier.Bal(n - 1))
  }

  function SetShopThreshold(t: Tables, threshold: nat): Tables {
    ResyncAll(t.(lowStockThreshold := threshold), |t.products|)
  }

  function SetProductThreshold(t: Tables, p: nat, threshold: Option<nat>): Result<Tables> {
    if p >= |t.products| then Err(NotFound)
    else Ok(Put(WithProduct(t, p, t.products[p].(lowStockThreshold := threshold)), p, t.Bal(p)))
  }

  // ----- One dispatch, and runs

  datatype Action =
    | CreateSale(inputs: seq<LineInput>, mode: DeliveryMode, payBy: PaymentMethod, setup: Setup, expiresAt: Time)
    | ChangeOrder(oid: nat, command: Command)
    | ReissueSale(oid: nat, setup: Setup, now: Time, ttl: Time)
    | AddProduct(product: Product, initial: int)
    | MoveStock(p: nat, kind: MovementType, quantity: int)
    | Archive(p: nat)
    | Unarchive(p: nat)
    | EditProduct(p: nat, name: string, status: CatalogStatus, price: Option<nat>)
    | ShopThreshold(threshold: nat)
    | ProductThreshold(p: nat, override: Option<nat>)

  function OnTables(db: Db, t: Result<Tables>): Result<Db> {
    if t.Ok? then Ok(db.(t := t.value)) else Err(t.error)
  }

  function Attempt(db: Db, a: Action): Result<Db> {
    match a
    case CreateSale(inputs, mode, payBy, setup, expiresAt) => CreateOrder(db, inputs, mode, payBy, setup, expiresAt)
    case ChangeOrder(oid, command) => OnOrder(db, oid, command)
    case ReissueSale(oid, setup, now, ttl) => Reissue(db, oid, setup, now, ttl)
    case AddProduct(product, initial) => OnTables(db, CreateProduct(db.t, product, initial))
    case MoveStock(p, kind, quantity) => OnTables(db, RecordMovement(db.t, p, kind, quantity))
    case Archive(p) => OnTables(db, ArchiveProduct(db.t, p))
    case Unarchive(p) => OnTables(db, RestoreProduct(db.t, p))
    case EditProduct(p, name, status, price) => OnTables(db, UpdateProduct(db.t, p, name, status, price))
    case ShopThreshold(threshold) => Ok(db.(t := SetShopThreshold(db.t, threshold)))
    case ProductThreshold(p, override) => OnTables(db, SetProductThreshold(db.t, p, override))
  }

  /** A command that raises rolls its whole transaction back. */
  function Step(db: Db, a: Action): Db {
    var r := Attempt(db, a);
    if r.Ok? then r.value else db
  }

  function Run(db: Db, actions: seq<Action>): Db {
    if actions == [] then db
    else Step(Run(db, actions[..|actions| - 1]), actions[|actions| - 1])
  }

  function EmptyShop(threshold: nat): Db {
    Db(Tables([], threshold, map[], [], []), [], [])
  }
}
