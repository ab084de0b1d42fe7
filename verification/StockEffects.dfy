/** What each stock and catalogue command does, on the fields that a caller sees. */
module StockEffects {
  import opened Prelude
  import opened Inventory
  import opened Alerts
  import opened Stock
  import opened Shop
  import opened Catalogue

  // ----- Manual movements

  /** By how much a movement of each kind changes the stock on hand. */
  function Change(kind: MovementType, quantity: int): int {
    match kind
    case Entry => quantity
    case Correction => quantity
    case Exit => -quantity
    case Shrinkage => -quantity
  }

  /** Quantities the form accepts: positive, or of either sign for a correction, up to a billion. */
  predicate GoodQuantity(kind: MovementType, quantity: int) {
    quantity != 0 && -1_000_000_000 <= quantity <= 1_000_000_000 && (quantity < 0 ==> kind == Correction)
  }

  /** Every balance but one product's is as it was. */
  ghost predicate OthersStay(t: Tables, r: Tables, p: nat) {
    forall o: nat {:trigger r.Bal(o)} :: o != p ==> r.Bal(o) == t.Bal(o)
  }

  /** A movement is accepted exactly for a good quantity of a listed product that leaves its reserved units in stock; why it is refused otherwise. */
  lemma {:induction false} MovementWhen(t: Tables, p: nat, kind: MovementType, quantity: int)
    requires Sound(t)
    ensures RecordMovement(t, p, kind, quantity).Ok? <==>
            && GoodQuantity(kind, quantity) && p < |t.products| && t.products[p].status != Archived
            && t.Bal(p).onHand + Change(kind, quantity) >= t.Bal(p).reserved
    ensures RecordMovement(t, p, kind, quantity).Err? ==>
              RecordMovement(t, p, kind, quantity).error ==
              if !GoodQuantity(kind, quantity) then ValidationError
              else if p >= |t.products| then NotFound
              else if t.products[p].status == Archived then ProductArchived
              else if t.Bal(p).onHand + Change(kind, quantity) < 0 then InsufficientStock
              else StockReserved
  {
    assert t.Bal(p).reserved >= 0;
    hide Sound, Put, Post;
  }

  /** It moves one counter of one product and appends one row that says so. */
  lemma {:induction false} MovementEffect(t: Tables, p: nat, kind: MovementType, quantity: int)
    requires RecordMovement(t, p, kind, quantity).Ok?
    ensures var r := RecordMovement(t, p, kind, quantity).value;
            var onHand := t.Bal(p).onHand + Change(kind, quantity);
            && r.Bal(p) == Balance(onHand, t.Bal(p).reserved)
            && OthersStay(t, r, p)
            && r.movements == t.movements + [Movement(p, kind, Change(kind, quantity), onHand, NoReference)]
            && r.products == t.products && r.lowStockThreshold == t.lowStockThreshold
  {
    hide Sync, Desired;
  }

  // ----- Products

  /** No other product on sale or paused has this name. */
  predicate FreeName(products: seq<Product>, name: string, except: int) {
    forall i :: 0 <= i < |products| && i != except && products[i].status != Archived ==> products[i].name != name
  }

  lemma {:induction false} CreateProductWhen(t: Tables, product: Product, initial: int)
    ensures CreateProduct(t, product, initial).Ok? <==>
            product.status != Archived && 0 <= initial <= 1_000_000_000 && FreeName(t.products, product.name, -1)
  {
    hide Put, Post;
  }

  /** A new product starts with its initial load on hand, nothing reserved, and one ENTRY row for it if there is any. */
  lemma {:induction false} CreateProductEffect(t: Tables, product: Product, initial: int)
    requires CreateProduct(t, product, initial).Ok?
    ensures var r := CreateProduct(t, product, initial).value;
            var p := |t.products|;
            && r.products == t.products + [product] && r.lowStockThreshold == t.lowStockThreshold
            && r.Bal(p) == Balance(initial, 0) && OthersStay(t, r, p)
            && r.movements == t.movements + if initial == 0 then [] else [Movement(p, Entry, initial, initial, NoReference)]
  {
    hide Sync, Desired, NameTaken;
  }

  /** One product row is replaced; balances, ledger, threshold and the other rows stay. */
  ghost predicate OnlyProduct(t: Tables, r: Tables, p: nat, product: Product) {
    && p < |t.products| && r.products == t.products[p := product]
    && r.lowStockThreshold == t.lowStockThreshold && r.movements == t.movements
    && forall o: nat {:trigger r.Bal(o)} :: r.Bal(o) == t.Bal(o)
  }

  /** Archiving asks that nothing is reserved, and writes the status only. */
  lemma {:induction false} ArchiveEffect(t: Tables, p: nat)
    requires Sound(t)
    ensures ArchiveProduct(t, p).Ok? <==> p < |t.products| && (t.products[p].status == Archived || t.Bal(p).reserved == 0)
    ensures ArchiveProduct(t, p).Ok? ==> OnlyProduct(t, ArchiveProduct(t, p).value, p, t.products[p].(status := Archived))
  {
    assert t.Bal(p).reserved >= 0;
    hide Sound, Sync, Desired;
  }

  /** Reactivating asks that the name is still free, and puts the product on sale; a product not archived stays as it is. */
  lemma {:induction false} ReactivateEffect(t: Tables, p: nat)
    ensures RestoreProduct(t, p).Ok? <==>
            p < |t.products| && (t.products[p].status != Archived || FreeName(t.products, t.products[p].name, p))
    ensures RestoreProduct(t, p).Ok? ==>
              OnlyProduct(t, RestoreProduct(t, p).value, p,
                          if t.products[p].status == Archived then t.products[p].(status := CatalogStatus.Active) else t.products[p])
  {
    hide Sync, Desired;
  }

  /** Editing writes name, status and price of a product that is not archived and does not become so, and nothing else. */
  lemma {:induction false} EditEffect(t: Tables, p: nat, name: string, status: CatalogStatus, price: Option<nat>)
    ensures UpdateProduct(t, p, name, status, price).Ok? <==>
            p < |t.products| && t.products[p].status != Archived && status != Archived && FreeName(t.products, name, p)
    ensures UpdateProduct(t, p, name, status, price).Ok? ==>
              && OnlyProduct(t, UpdateProduct(t, p, name, status, price).value, p,
                             Product(name, status, price, t.products[p].lowStockThreshold))
              && UpdateProduct(t, p, name, status, price).value.alerts == t.alerts
  {
  }

  // ----- Thresholds

  /** The active alerts that a balance calls for under a threshold. */
  function Shown(p: nat, product: Product, balance: Balance, threshold: nat): seq<Alert> {
    var available := if balance.onHand > balance.reserved then balance.onHand - balance.reserved else 0;
    if product.status == Archived || (available > threshold && available > 0) then []
    else [Alert(p, if available == 0 then OutOfStock else LowStock, true, threshold, available)]
  }

  /** A product's own threshold if it has one, else the shop's. */
  function OwnOrShop(own: Option<nat>, shop: nat): nat {
    match own
    case Some(threshold) => threshold
    case None => shop
  }

  lemma {:induction false} ShownIs(t: Tables, p: nat)
    requires AlertsAgree(t) && p < |t.products|
    ensures ActiveOf(t.alerts, p) == Shown(p, t.products[p], t.Bal(p), OwnOrShop(t.products[p].lowStockThreshold, t.lowStockThreshold))
  {
    hide ActiveOf;
  }

  /** A product's own threshold is stored as given, in no other row, and decides its alert at once; None hands it back to the shop's. */
  lemma {:induction false} ProductThresholdEffect(t: Tables, p: nat, own: Option<nat>)
    requires Sound(t)
    ensures SetProductThreshold(t, p, own).Ok? <==> p < |t.products|
    ensures SetProductThreshold(t, p, own).Ok? ==>
              var r := SetProductThreshold(t, p, own).value;
              && OnlyProduct(t, r, p, t.products[p].(lowStockThreshold := own))
              && ActiveOf(r.alerts, p) == Shown(p, t.products[p], t.Bal(p), OwnOrShop(own, t.lowStockThreshold))
              && forall o: nat {:trigger ActiveOf(r.alerts, o)} :: o != p ==> ActiveOf(r.alerts, o) == ActiveOf(t.alerts, o)
  {
    if p < |t.products| {
      AgreementIsUnique(t);
      var product := t.products[p].(lowStockThreshold := own);
      var r := SetProductThreshold(t, p, own).value;
      forall o: nat ensures o != p ==> ActiveOf(r.alerts, o) == ActiveOf(t.alerts, o) {
        SyncAgrees(t.alerts, p, Desired(p, product, t.lowStockThreshold, t.Bal(p)), o);
      }
      ReplaceSound(t, p, product);
      BesideAgrees(t, r);
      ShownIs(r, p);
    }
    hide Sound, Sync, ActiveOf, UniqueActive;
  }

  lemma {:induction false} BesideAgrees(t: Tables, r: Tables)
    requires Beside(t, r)
    ensures AlertsAgree(r)
  {
    hide LedgerOk, NotOversold, AlertsAgree;
  }

  /** The shop's threshold is stored as given, changes no product, balance or ledger row, and every product's alert follows it or its own. */
  lemma {:induction false} ShopThresholdEffect(t: Tables, threshold: nat, p: nat)
    requires Sound(t)
    ensures var r := SetShopThreshold(t, threshold);
            && r.lowStockThreshold == threshold && r.products == t.products && r.movements == t.movements && r.balances == t.balances
            && (p < |t.products| ==>
                  ActiveOf(r.alerts, p) == Shown(p, t.products[p], t.Bal(p), OwnOrShop(t.products[p].lowStockThreshold, threshold)))
  {
    AgreementIsUnique(t);
    var w := t.(lowStockThreshold := threshold);
    ResyncTables(w, |t.products|);
    ThresholdSound(t, threshold);
    BesideAgrees(t, SetShopThreshold(t, threshold));
    if p < |t.products| {
      ShownIs(SetShopThreshold(t, threshold), p);
    }
    hide Sound, ResyncAll, AlertsAgree, UniqueActive, ActiveOf;
  }

  /** A catalogue command writes the stock tables of the shop and nothing else. */
  lemma {:induction false} CatalogueIs(db: Db, p: nat, product: Product, kind: MovementType, quantity: int, name: string, price: Option<nat>, threshold: Option<nat>)
    ensures Attempt(db, AddProduct(product, quantity)) == OnTables(db, CreateProduct(db.t, product, quantity))
    ensures Attempt(db, MoveStock(p, kind, quantity)) == OnTables(db, RecordMovement(db.t, p, kind, quantity))
    ensures Attempt(db, Archive(p)) == OnTables(db, ArchiveProduct(db.t, p))
    ensures Attempt(db, Unarchive(p)) == OnTables(db, RestoreProduct(db.t, p))
    ensures Attempt(db, EditProduct(p, name, product.status, price)) == OnTables(db, UpdateProduct(db.t, p, name, product.status, price))
    ensures Attempt(db, ShopThreshold(p)) == Ok(db.(t := SetShopThreshold(db.t, p)))
    ensures Attempt(db, ProductThreshold(p, threshold)) == OnTables(db, SetProductThreshold(db.t, p, threshold))
    ensures forall r: Result<Tables> {:trigger OnTables(db, r)} :: r.Ok? ==> OnTables(db, r) == Ok(db.(t := r.value))
  {
    hide CreateProduct, RecordMovement, ArchiveProduct, RestoreProduct, UpdateProduct, SetShopThreshold, SetProductThreshold;
  }
}
