# Tenda: a verified model of stock, sales and money

This project models, in Dafny, the parts of the Tenda backend where several tables have to
agree over whole runs, and proves that they do. `dafny verify dfyconfig.toml` checks all of it.

**The shop.** One shop is a value `Db`: products, balances, alerts, the movement ledger, orders
with their lines, reservations, payment, buyer and timeline, and reconciliation issues. Each
service command is a function from the rows it locks to the rows it commits or to the error with
which its transaction rolls back (`Stock`, `Orders`, `Shop`). `Invariant.Valid` says what all
tables together promise; `Runs.RunValid` shows that every run of commands keeps it, and
`Promises`, `History`, `RoundTrip`, `Snapshots` and `Expiry` read the consequences off, and
`Acceptance` and `Refusals` say exactly when a command is accepted and which error it raises
otherwise. `StockEffects`, `Effects` and `InboxEffects` say what each command writes, on the fields
of the rows and not by way of its specification function.

**The same services as they run.** `StockStore.Store` and `SalesDesk.Desk` are classes whose
methods rewrite rows field by field in loops, as the Python does; `Desk.Execute` wraps a command
in a savepoint. Each method is proved to leave exactly the rows of its specification function,
so `Desk.Serve` inherits every theorem about runs.

**Around the core.** `Locks` interleaves any number of transactions that take balance rows one
at a time. `Webhooks` is the payment inbox with redelivery, retries and dying workers.
`Idempotency` is the keyed wrapper over any command, applied to the shop; its digest covers what
the client sends, not the clock, the settings or the provider. `Import` is the worker that creates
products from a file, killed and restarted at will. `Pagination`, `Refunds`, `Breakdown` and `Rut`
are the list and money arithmetic; `Rows` says what a breakdown row shows, and `Reported` ties the
balance to the ledger and the orders.

| Files | Contents |
|---|---|
| `Prelude`, `Text` | results and options, ascending ids, decimal numerals, `strip` |
| `Inventory`, `Alerts`, `Stock`, `Catalogue` | stock rows, alerts, the ledger, catalogue commands |
| `Orders`, `Shop`, `Invariant` | order commands, whole-shop commands and runs, the invariant |
| `Preserve`, `Commands`, `Runs` | every command keeps the invariant |
| `Promises`, `History`, `RoundTrip`, `Expiry`, `Snapshots`, `Revival` | what that means |
| `Acceptance`, `Refusals` | when a command is accepted, and what it complains about |
| `StockEffects`, `Effects`, `InboxEffects` | what a command writes, field by field |
| `Archiving`, `Rejection`, `Twice`, `Samples` | where a stronger claim fails, and exactly when |
| `StockStore`, `SalesDesk`, `Webhooks` | the imperative services |
| `Locks`, `Idempotency`, `Import` | concurrency, keyed calls, replay |
| `Pagination`, `Refunds`, `Breakdown`, `Rows`, `Reported`, `Rut` | lists and money |

## Where the stronger claim is false

- Cancel then restore does not always give the payment back: a payment that is PENDING while a
  proof is under review returns as VALIDATION. `RoundTrip.CancelThenRestore` states the exact
  condition and `RoundTrip.PendingUnderReview` reaches the exception.
- Refund shares need not add up to the refund (`Refunds.SharesCanFallShort`);
  `Refunds.FullySpreadWhen` states when they do and `Refunds.ShortfallBound` how far they miss.
- A cursor does not carry the value that is the null marker itself (`Pagination.CursorRoundTrip`);
  PostgreSQL text cannot hold that character.
- The inbox status is no safeguard against redelivery (`Webhooks.RedeliveryReopens`); what makes
  repeated processing harmless is `Webhooks.RedeliveryIsHarmless`. That holds only until a seller's
  command intervenes: `Revival.StepRevives` says exactly which commands make an old snapshot count.
- `docs/implementation-status.md:55` calls reserving, releasing and consuming idempotent. The
  stock functions are not: a repeated cart moves the counters again or is refused, and
  `Twice.NotIdempotent` says exactly which. Exactly-once comes from the reservation rows
  (`Promises.SoldExactlyOnce`, `Promises.NoSecondSale`).
- `docs/implementation-status.md:394` says archiving requires that nothing is reserved. Restoring
  a cancelled order can reserve an archived product again: `Archiving.ArchivedAndReserved` is such
  a run, and `Archiving.ArchivedStaysFree` says exactly which restores do it, by their guards.
- An order cancelled by a rejected proof can be restored exactly when its newest seller cancellation,
  however old, left an active status (`Rejection.RestoreAfterRejection`);
  `Rejection.RejectedComesBack` is such a run.
- An approved snapshot does not always settle. It raises, each time it is tried, for a paid order
  whose payment is not approved any more (`Acceptance.SettleWhen`); the provider gets an order there
  by first contradicting its payment (`Acceptance.ContradictedThenApproved`).

## Model

| member | source | states |
|---|---|---|
| Runs.RunValid | backend/apps/sales/order_services.py:75-2672 | From a valid shop, any sequence of sale, order, webhook, catalogue, stock and threshold commands, failing ones included, ends in a valid shop: claims, phases, sale rows, timelines, payments, ledger and alerts all agree |
| Runs.AttemptValid | backend/apps/sales/order_services.py:75-2672 | Every single command that commits keeps the whole invariant |
| Runs.EmptyValid | backend/apps/inventory/services.py:376-407 | A shop without products and orders satisfies the invariant, so every run of a new shop does |
| Runs.CleanLinesMeaning | backend/apps/sales/order_services.py:738-808 | Accepted lines copy product, quantity, price and cost line by line, and the total is their sum within the limit |
| Runs.CreateValid | backend/apps/sales/order_services.py:811-930 | An accepted sale keeps the whole invariant |
| Runs.ReissueValid | backend/apps/sales/order_services.py:2303-2396 | A reissue, a cancellation and a new sale in one transaction, keeps the whole invariant |
| Promises.ReservedIsClaimed | backend/apps/inventory/services.py:410-466 | In every valid shop a product's reserved counter is the sum of its unconsumed, unreleased reservations over all orders, and 0 <= reserved <= on hand |
| Promises.StatusDecides | backend/apps/sales/order_services.py:562-618 | Active orders have every line reserved and open, paid and refunded ones all consumed, cancelled and expired ones all released |
| Promises.SoldExactlyOnce | backend/apps/sales/order_services.py:586-618 | A product of an order has exactly one sale row in the ledger iff the order is paid or refunded, of the product's whole quantity, and every line's reservation points at it |
| Promises.NothingElseSold | backend/apps/inventory/services.py:494-512 | No ledger row sells, in an order's name, a product the order does not contain |
| Promises.NoSecondSale | backend/apps/sales/order_services.py:1480-1532 | After an order has been sold no run of commands adds or removes a sale row of it |
| Promises.GuardsNeverFire | backend/apps/inventory/services.py:449-491 | On an active order of a valid shop the STOCK_RECONCILIATION_REQUIRED guards of release and consume cannot fire, and there is always something to consume |
| Promises.ApprovalAlwaysSells | backend/apps/sales/order_services.py:1495-1533 | Approving the payment of an active order always sells it; the "not consumed" branch is never taken and no issue is reported |
| Promises.LedgerAgrees | backend/apps/inventory/services.py:583-630 | On hand is the sum of the product's movements; every closing balance is the running sum up to its row and not negative; every sign matches its type |
| Promises.AlertsAreCurrent | backend/apps/inventory/alerts.py:59-103 | A listed product's active alerts are exactly the none or one that its balance and archiving call for under its own threshold if it has one and the shop's otherwise, with current threshold and quantity |
| Promises.RefundWithinPayment | backend/apps/sales/order_services.py:2586-2620 | In every valid shop 0 <= refunded amount <= payment amount = order total = sum of the lines, whatever refunds the provider reports |
| Promises.HistoryIsKept | docs/implementation-status.md:382-392 | Over any run the ledger only grows, no timeline entry is rewritten and an order's lines, prices and costs never change |
| Promises.ReachableValid | backend/apps/sales/order_services.py:75-2672 | Every shop that a run of commands reaches from a new one satisfies the invariant, and with it every promise above |
| Stock.TransactEffect | backend/apps/inventory/services.py:353-521 | Reserving, releasing or consuming a cart succeeds exactly when it is well formed and every product allows its total; then both counters of every product move by exactly that total, one EXIT row per product is appended for a sale, and every promise of the stock tables still holds |
| Stock.ActAllCounters | backend/apps/inventory/services.py:430-437 | Working through the products in ascending id moves each listed product by its total and no other product |
| Stock.ActAllRows | backend/apps/inventory/services.py:494-512 | A sale appends one EXIT row per product, in ascending id, with the product's own closing balance |
| Stock.PostedSound | backend/apps/inventory/services.py:583-630 | A ledger row and the balance it explains keep ledger, balances and alerts in agreement |
| Stock.DemandSign | backend/apps/inventory/services.py:357-370 | In a cart of positive quantities a product's total is positive exactly when the cart names it |
| Alerts.SyncAgrees | backend/apps/inventory/alerts.py:59-103 | One synchronisation leaves the product exactly the implied alert and no other product changed |
| Alerts.SyncKeepsUnique | backend/apps/inventory/alerts.py:59-103 | It keeps at most one active alert per product and type |
| Catalogue.ThresholdSound | backend/apps/inventory/alerts.py:125-157 | A new shop threshold realigns every product's alert and changes no balance, claim or ledger row |
| Catalogue.MovementSound | backend/apps/inventory/services.py:945-1001 | A manual movement keeps ledger, balances and alerts in agreement and touches no claim and no sale |
| Catalogue.CreateSound | backend/apps/inventory/services.py:634-684 | A new product's balance, initial load and alert agree with each other and leave the rest alone |
| Catalogue.ReplaceSound | backend/apps/inventory/services.py:1005-1067 | Archiving, reactivating or overriding a threshold leaves the product the alert its new row calls for |
| Catalogue.EditSound | backend/apps/inventory/services.py:793-850 | Editing a listed product needs no alert synchronisation: the alerts still agree |
| StockEffects.MovementWhen | backend/apps/inventory/services.py:548-622 | A manual movement is accepted exactly for a quantity that is positive, or any but zero for a correction, up to a billion, of a listed product, that leaves on hand neither negative nor under the reserved units; otherwise the error says which |
| StockEffects.MovementEffect | backend/apps/inventory/services.py:564-630 | On hand of that product grows by the quantity of an entry or a correction and shrinks by that of an exit or a shrinkage; every other balance stays, and one row with that kind, quantity and closing balance is appended |
| StockEffects.CreateProductWhen | backend/apps/inventory/services.py:634-684 | A product is created exactly when it is not archived, its initial load is between zero and a billion and its name is free |
| StockEffects.CreateProductEffect | backend/apps/inventory/services.py:634-684 | It then has its initial load on hand and nothing reserved, one ENTRY row for it if there is any, and no other balance changes |
| StockEffects.ArchiveEffect | backend/apps/inventory/services.py:1005-1037 | Archiving asks only that nothing is reserved, and writes the status of that one row |
| StockEffects.ReactivateEffect | backend/apps/inventory/services.py:1041-1067 | Reactivating asks only that the name is free, and puts that one product on sale |
| StockEffects.EditEffect | backend/apps/inventory/services.py:793-850 | Editing writes name, status and price of that one row, keeps its own threshold, and is refused for archived products, for archiving and for a taken name |
| StockEffects.ProductThresholdEffect | backend/apps/inventory/alerts.py:160-189 | A product's own threshold is stored in that row alone and decides its active alert at once; without one the shop's does |
| StockEffects.ShopThresholdEffect | backend/apps/inventory/alerts.py:125-157 | The shop's threshold is stored and decides the active alert of every product without one of its own, and of no other |
| StockEffects.CatalogueIs | backend/apps/inventory/services.py:687-1067 | A catalogue or stock command commits the stock tables it computed and leaves orders and issues alone |
| Preserve.ReleaseStep | backend/apps/sales/order_services.py:562-583 | Releasing an active order always succeeds, gives back exactly its quantities and moves every reservation to released, its ledger rows unchanged |
| Preserve.ConsumeStep | backend/apps/sales/order_services.py:586-618 | Consuming an active order always succeeds, takes its claim and its units, and leaves it sold exactly once with every row pointing at its sale |
| Preserve.ReopenWhen | backend/apps/sales/order_services.py:1888-1934 | Holding a cancelled order again succeeds exactly when every product still has the order's total available |
| Commands.PerformSteps | backend/apps/sales/order_services.py:981-2672 | Whatever single-order command commits on a valid order leaves a valid order and moves no other order's claim |
| Commands.CancelSteps | backend/apps/sales/order_services.py:1794-1853 | Cancelling an active or cancelled order always succeeds and ends in CANCELLED with its claim returned |
| Commands.ReviewMoves | backend/apps/sales/order_services.py:1559-1667 | Reviewing a ready proof always ends the order: sold when approved, cancelled with its stock returned when rejected |
| Commands.ConfirmSteps | backend/apps/sales/order_services.py:1691-1767 | A confirmation that is accepted leaves the order paid and sold |
| Commands.RestoreSteps | backend/apps/sales/order_services.py:1952-2004 | A restore that succeeds leaves a valid order in the status that cancellation recorded |
| Commands.ExpireSteps | backend/apps/sales/order_services.py:2413-2443 | Expiring never fails and keeps the order valid |
| Commands.RestoreWhen | backend/apps/sales/order_services.py:1868-2004 | A cancelled order can be restored exactly when its newest seller cancellation left an active status and its stock is still available |
| Acceptance.CreateWhen | backend/apps/sales/order_services.py:738-931 | A sale is accepted exactly when its lines are orderable, its payment can be taken and every product has in stock what the whole form asks of it |
| Acceptance.ReissueWhen | backend/apps/sales/order_services.py:2303-2396 | On a valid shop a reissue succeeds exactly when the order is a bank transfer under review, bank details are ready and every product of it is active; it never fails for lack of stock |
| Acceptance.ReissueReplaces | backend/apps/sales/order_services.py:2337-2396 | The replacement sells the same quantities at the same prices and current costs, reserved until the new expiry, published and paid by transfer; the old order is cancelled and no other order changes |
| Acceptance.CancelWhen | backend/apps/sales/order_services.py:1809-1853 | Cancelling succeeds exactly on active and on cancelled orders |
| Acceptance.ReviewWhen | backend/apps/sales/order_services.py:1559-1667 | A review succeeds exactly when a proof has arrived and the order is under review or already has that verdict |
| Acceptance.ConfirmWhen | backend/apps/sales/order_services.py:1712-1767 | A manual confirmation succeeds exactly for the order's total on an active order that is neither the provider's nor a transfer under review, or again on a paid one |
| Acceptance.SettleWhen | backend/apps/sales/webhooks.py:211-293 | Settling a webhook fails exactly when its snapshot is believed and reports a negative refund, or approves a paid order whose payment is not approved any more; ids held by other payments left aside |
| Acceptance.ContradictedThenApproved | backend/apps/sales/order_services.py:2522-2566 | A paid order whose payment the provider contradicts and then approves again: the second snapshot raises |
| Refusals.SaleRefusals | backend/apps/sales/order_services.py:738-931 | A refused sale complains first about an empty form, then about unknown products, then about its first bad line, then about the payment settings, and last about the stock |
| Refusals.FirstComplaint | backend/apps/sales/order_services.py:738-808 | The first line that is not sellable or exceeds the total decides, the lines before it being accepted |
| Refusals.ReissueRefusals | backend/apps/sales/order_services.py:2303-2396 | A refused reissue of a valid shop complains about the order, then about a product no longer on sale, then about missing bank details, and never about the stock |
| Refusals.SellerRefusals | backend/apps/sales/order_services.py:1559-2004 | On a valid order reviews, confirmations and cancellations are never refused for stock, and a restore is exactly when its target exists; each other refusal by its guard |
| Refusals.BuyerRefusals | backend/apps/sales/order_services.py:981-1314 | Refused publications, buyer changes and mails complain about the status first and about the form or address second |
| Refusals.PaymentRefusals | backend/apps/sales/order_services.py:1332-1465 | Refused checkouts, receipts and arrived proofs complain about the payment method, then the status, then the buyer, then the provider or the proof |
| Refusals.RefundRefusals | backend/apps/sales/order_services.py:2044-2080 | A refused refund complains about order and payment first, then about the connection, then about the provider |
| Refusals.CatalogueRefusals | backend/apps/inventory/services.py:634-1067 | Refused products, archivings, reactivations and edits complain about the product first, then about what is asked, then about the name |
| Effects.CreateStores | backend/apps/sales/order_services.py:811-930 | A created sale is one more order, reserved line by line until the given moment, with the delivery mode and payment method asked for, no payment and no buyer |
| Effects.SetBuyerEffect | backend/apps/sales/order_services.py:1062-1118 | The public form is stored exactly while the order waits in the cart and the form is complete for its delivery; the first one starts the purchase |
| Effects.CheckoutEffect | backend/apps/sales/order_services.py:1332-1465 | A checkout starts exactly for a provider order in the cart with a buyer's e-mail, a connection and either an existing preference or a provider that answers |
| Effects.ReceiptEffect | backend/apps/sales/uploads.py:34-131 | A receipt can be prepared exactly for a transfer in the cart with delivery details whose proof has not arrived |
| Effects.ProofReadyEffect | backend/apps/sales/order_services.py:2632-2672 | An arrived proof puts the order under review, its payment in validation, and pauses it; its second arrival changes nothing |
| Effects.CancelEffect | backend/apps/sales/order_services.py:1809-1853 | A cancellation returns the stock, dates every reservation and the order, and cancels a payment that is pending or in validation, and no other |
| Effects.ExpireEffect | backend/apps/sales/order_services.py:2413-2443 | Expiry happens exactly in the cart from the expiry time on; it cancels a pending payment and no other |
| Effects.SupersedeEffect | backend/apps/sales/order_services.py:2324-2336 | A reissue closes the old order with its stock returned, its payment cancelled and its proof rejected |
| Effects.RestoreEffect | backend/apps/sales/order_services.py:1937-2004 | A restore holds every line again until the new expiry and revives a cancelled payment: in validation under review with its proof, else pending |
| Effects.TargetMeaning | backend/apps/sales/order_services.py:1868-1885 | The status a restore returns to is the one its newest seller cancellation left, or, for a review without its ready proof, the cart |
| Effects.ApproveEffect | backend/apps/sales/order_services.py:1480-1533 | An approved active order is sold, every reservation consumed and linked to a movement, paid at the given time, its payment approved |
| Effects.AcceptEffect | backend/apps/sales/order_services.py:1559-1667 | An approved proof: proof and payment approved, the order sold and paid now |
| Effects.RejectEffect | backend/apps/sales/order_services.py:1559-1667 | A rejected proof: proof and payment rejected, the order cancelled, its stock returned |
| Effects.ConfirmEffect | backend/apps/sales/order_services.py:1712-1767 | A manual confirmation of an active order: sold, paid at the time the seller gives, its payment row made if there was none |
| Effects.RefundWhen | backend/apps/sales/order_services.py:2034-2080 | A refund is accepted exactly for an approved payment of a paid order, with connection and provider answering when a known provider payment is involved, and again once refunded |
| Effects.RefundEffect | backend/apps/sales/order_services.py:2044-2110 | It sets order and payment to refunded with refunded amount = amount = total; for a provider payment without an id it changes no status and an unresolved UNKNOWN_PAYMENT issue of the order stands |
| Effects.MarkEffect | backend/apps/sales/order_services.py:621-704 | A reported issue stands unresolved, the order is flagged, its payment waits for reconciliation unless a pending webhook meets a settled one, and status, stock and cart stay |
| Effects.ReportNewest | backend/apps/sales/order_services.py:621-660 | A report reopens the newest matching issue, of its event or else unresolved of its order, and touches no other |
| Effects.ReportAdds | backend/apps/sales/order_services.py:621-660 | Without a matching issue a report adds one, open |
| Effects.ReopenEffect | backend/apps/sales/order_services.py:1888-1934 | Reopening an order that still holds something only moves that expiry; one that never held anything holds its lines |
| Effects.RefundReported | backend/apps/sales/order_services.py:2586-2619 | A believed refund report stores the amount if it names none, zero or at least the amount, and else exactly what it names; the order becomes refunded exactly when it was paid and one of those three holds, and else keeps its status with an unresolved PARTIAL_REFUND issue of the event |
| Effects.ApprovalSettles | backend/apps/sales/order_services.py:2522-2566 | A believed approval of an active order sells it, paid when the provider says or else now, its payment approved and known |
| Effects.RejectionSettles | backend/apps/sales/order_services.py:2567-2579 | A believed rejection or cancellation of an active order's payment marks the payment so, cancels the order and returns its stock |
| Effects.ComplaintEffect | backend/apps/sales/order_services.py:2467-2629 | Which snapshots call for an issue, by their fields, and that this issue of the event then stands, the payment keeps what was learnt and waits for reconciliation, and order, stock and reservations stay |
| Effects.IdleSettles | backend/apps/sales/order_services.py:2580-2585 | Any other believed snapshot moves nothing; a pending one sets a payment that is not approved back to pending |
| Effects.FinishEffect | backend/apps/sales/webhooks.py:262-293 | The end of a settlement resolves exactly the event's pending-webhook issues and clears the order's flag exactly when no issue of it is open |
| Effects.SellerCancellation | backend/apps/sales/order_services.py:1868-1875 | The cancellation a restore goes by is the newest one that the seller made |
| Effects.PublishEffect | backend/apps/sales/order_services.py:981-1040 | Publishing works exactly on active orders, and dates and notes the first publication only |
| Effects.UpdateBuyerEffect | backend/apps/sales/order_services.py:1244-1314 | The seller may change the buyer exactly on active and paid orders, with a form complete for the delivery; nothing else of the order changes |
| Effects.ResendEffect | backend/apps/sales/order_services.py:2130-2196 | A link is sent again exactly for an active order whose buyer has an e-mail, and is only noted |
| Effects.OfferEffect | backend/apps/sales/order_services.py:2199-2300 | An offer can be sent for any active order and leaves its buyer with an e-mail, keeping what was known of the delivery |
| Effects.RetryEffect | backend/apps/sales/webhooks.py:296-355 | An issue of the order is set to retrying, and the order with it; a resolved one stays as it is |
| Effects.OrderCommandIs | backend/apps/sales/order_services.py:981-2672 | A command on an order commits the rows it locked and no other order |
| Effects.EdgeIsTable | backend/apps/sales/order_services.py:75-110 | Every edge of the transition table, and no other |
| Expiry.SweepExpiresDue | backend/apps/sales/order_services.py:2413-2455 | Sweeping any list of orders expires exactly the listed ones that were due, returns their stock and leaves every other order as it was |
| Expiry.ExpireListed | backend/apps/sales/order_services.py:2446-2455 | The sweep loop is that run of expiries and returns how many orders it expired |
| Expiry.SweepCounts | backend/apps/sales/order_services.py:2446-2455 | The sweep returns the number of listed orders that were due, each counted once however often it is listed |
| RoundTrip.CancelThenRestore | backend/apps/sales/order_services.py:1794-2004 | Cancel then restore succeeds on every active order and gives back status, reservations, balances, ledger and alerts, only expiry times being new; the payment comes back iff it was not PENDING under review |
| RoundTrip.PaymentComesBack | backend/apps/sales/order_services.py:1937-1949 | The exact condition on the payment, and what it turns into otherwise |
| RoundTrip.PendingUnderReview | backend/apps/sales/order_services.py:2580-2584 | The exception is reached: a matching pending snapshot leaves an order under review with a pending payment |
| Rejection.RestoreAfterRejection | backend/apps/sales/order_services.py:1868-1885 | An order cancelled by a rejected proof can be restored exactly when its newest seller cancellation, however old, left an active status |
| Rejection.RejectedComesBack | backend/apps/sales/order_services.py:1868-1885 | A run from a new shop reaches it: under review, cancelled and restored by the seller, rejected, and restored once more |
| Archiving.ArchivedStaysFree | docs/implementation-status.md:394-395 | Over any run from a valid shop nothing archived is ever reserved if and only if at no point a restore is asked for that is possible, by its guards, and names an archived product |
| Archiving.ArchivedInNewShop | docs/implementation-status.md:394-395 | The same for every run of a new shop |
| Archiving.RestorableWhen | backend/apps/sales/order_services.py:1868-1934 | Those guards, a seller cancellation to return to and the stock for it, are exactly what the restore of a cancelled order needs |
| Archiving.RestoreClaims | backend/apps/sales/order_services.py:1888-1934 | A successful restore keeps archived products unreserved exactly when the order names none |
| Archiving.AttemptClaims | backend/apps/inventory/services.py:1005-1037 | Of all commands only such a restore breaks the property, and it always does |
| Archiving.ArchivedAndReserved | backend/apps/sales/order_services.py:1888-1934 | Five commands from a new shop, add, sell, cancel, archive and restore, end with an archived product reserved |
| Twice.NotIdempotent | docs/implementation-status.md:55 | An accepted cart is accepted again exactly when the stock allowed it twice over, and then moves every counter a second time; otherwise it is refused. It never leaves the tables as they are |
| Twice.HeldTwice | backend/apps/inventory/services.py:410-437 | Two units in stock: holding one unit twice is accepted twice and holds two |
| History.FinalStatuses | backend/apps/sales/order_services.py:75-110 | EXPIRED and REFUNDED are final over any run, and a paid order can only become refunded |
| History.PaidAtMostOnce | backend/apps/sales/order_services.py:419-490 | In any run of a new shop each timeline is an unbroken chain of transition edges from DRAFT to the current status and enters PAID exactly once if the order is paid or refunded, else never |
| History.ChainTrapped | backend/apps/sales/order_services.py:75-110 | Along a timeline no status leaves a set of statuses that no edge leaves |
| Snapshots.DeliverAnyNumberOfTimes | backend/apps/sales/order_services.py:2458-2629 | From any state and for every provider status, one or more arrivals of a snapshot leave balances, movements, order status and reservations as the first left them |
| Snapshots.DeliverInert | backend/apps/sales/order_services.py:2458-2629 | A delivered snapshot, whatever it did, can change neither the order's status nor any stock when it arrives again |
| Snapshots.StatusMoves | backend/apps/sales/order_services.py:2522-2605 | A snapshot that is not inert commits and lands the order in PAID, CANCELLED or REFUNDED |
| Snapshots.RefundsRestockNothing | docs/implementation-status.md:60 | A refund, by the seller or reported, full or partial, puts no unit back and changes no reservation |
| Revival.InertWhen | backend/apps/sales/order_services.py:2522-2620 | In a valid shop a believed snapshot can move nothing exactly when the order is not active, or for a full refund not paid |
| Revival.StepRevives | backend/apps/sales/order_services.py:2522-2620 | Of all commands of the shop exactly two kinds make a delivered snapshot matter again: a possible restore of its order, for approvals, rejections and cancellations, and a sale of its order, for a full refund |
| Revival.PaysWhen | backend/apps/sales/order_services.py:1480-1539 | An unpaid order becomes paid exactly by a proof approved under review, an accepted manual confirmation, or a believed approval |
| StockStore.Store.AggregateRequests | backend/apps/inventory/services.py:353-373 | The loop returns the total per product, or the first complaint of the cart |
| StockStore.Store.SyncStockAlert | backend/apps/inventory/alerts.py:59-103 | Resolving, opening or rewriting rows in place gives the specified alert rows |
| StockStore.Store.ReserveStock | backend/apps/inventory/services.py:410-437 | The in-place loops hold exactly the cart, or change nothing and raise the specified error |
| StockStore.Store.ReleaseStock | backend/apps/inventory/services.py:441-465 | The in-place loops release exactly the cart, or change nothing |
| StockStore.Store.ConsumeStock | backend/apps/inventory/services.py:469-521 | The in-place loops sell exactly the cart and return each product's movement, or change nothing |
| StockStore.Store.AppendMovement | backend/apps/inventory/services.py:583-630 | Appends the row and moves the counter, or refuses what the stock or its reservations do not allow |
| StockStore.Store.RecordStockMovement | backend/apps/inventory/services.py:853-1001 | Refines the manual movement and its error cases |
| StockStore.Store.CreateProduct | backend/apps/inventory/services.py:634-684 | Refines product creation with its initial load |
| StockStore.Store.ArchiveProduct | backend/apps/inventory/services.py:1005-1037 | Refines archiving: refused while units are reserved |
| StockStore.Store.RestoreProduct | backend/apps/inventory/services.py:1041-1067 | Refines reactivation: refused when the name is taken |
| StockStore.Store.UpdateInventoryThreshold | backend/apps/inventory/alerts.py:125-157 | The loop over all products refines the threshold change |
| SalesDesk.Desk.Execute | backend/apps/sales/order_services.py:933-2672 | Every command run in place with a savepoint commits exactly what its specification says or restores every row it touched |
| SalesDesk.Desk.Serve | backend/apps/sales/order_services.py:933-2672 | A running shop served any commands is the specified run, and stays valid |
| SalesDesk.Desk.TransitionOrder | backend/apps/sales/order_services.py:419-490 | Moves status, dates and timeline as specified, or refuses a transition that is not an edge |
| SalesDesk.Desk.ReleaseOrderReservations | backend/apps/sales/order_services.py:562-583 | The loop over reservation rows refines the release |
| SalesDesk.Desk.ConsumeOrderReservations | backend/apps/sales/order_services.py:586-618 | The loop marks every row consumed with the movement of its product |
| SalesDesk.Desk.ReopenOrderReservations | backend/apps/sales/order_services.py:1888-1934 | The three cases of reopening, row by row |
| SalesDesk.Desk.MarkReconciliationRequired | backend/apps/sales/order_services.py:621-704 | Opens or reopens the issue, flags order and payment, and notes it once |
| SalesDesk.Desk.ResolveIfClear | backend/apps/sales/order_services.py:707-735 | Clears the flag exactly when no issue of the order is unresolved |
| SalesDesk.Desk.CleanCart | backend/apps/sales/order_services.py:738-808 | The accumulating loop refines line normalisation, first complaint included |
| SalesDesk.Desk.ApprovePayment | backend/apps/sales/order_services.py:1480-1539 | Refines approval with its caught stock error |
| SalesDesk.Desk.TargetOfRestore | backend/apps/sales/order_services.py:1868-1885 | The backwards search finds the status to return to |
| SalesDesk.Desk.ReissueOffer | backend/apps/sales/order_services.py:2303-2396 | Refines the reissue |
| SalesDesk.Desk.ApplyProviderSnapshot | backend/apps/sales/order_services.py:2458-2629 | The mismatch checks and the dispatch over provider statuses refine the snapshot function |
| SalesDesk.Desk.SettleEvent | backend/apps/sales/webhooks.py:211-293 | Refines the settlement of one webhook event, issues resolved included |
| Locks.NoDeadlock | backend/apps/inventory/services.py:376-407 | For any number of transactions that lock rows in ascending order, after any interleaving, if one is unfinished then one can move |
| Locks.AllFinish | backend/apps/inventory/services.py:376-407 | From any point of any interleaving some continuation brings every transaction to its end |
| Locks.NextWorks | backend/apps/inventory/services.py:376-407 | Every step taken brings the end nearer, so no interleaving goes on for ever |
| Locks.Serialisable | backend/apps/inventory/services.py:376-521 | Under every interleaving the committed balances are those of the committed transactions run one after another in commit order; aborted ones leave no trace |
| Locks.NeverOversold | backend/apps/inventory/services.py:410-521 | No interleaving of reserve, release and consume transactions oversells a product |
| Locks.CartIsTransact | backend/apps/inventory/services.py:410-521 | A cart run alone in the step model succeeds when, and moves every balance as, the ledger transaction does |
| Locks.ReissuePlanned | backend/apps/sales/order_services.py:2337-2391 | A reissue locks again only products it already holds |
| Locks.ServicesTogether | backend/apps/inventory/services.py:376-521 | Any mix of single carts and reissues, under any interleaving, is serialised, never oversells and never deadlocks |
| Webhooks.RedeliveryIsHarmless | backend/apps/sales/webhooks.py:110-293 | Delivering and processing an event any number of times leaves its order's status and reservations, all other orders and the stock as the first time left them |
| Webhooks.RedeliveryReopens | backend/apps/sales/api.py:99-121 | A redelivery with a good signature makes even a processed event workable again |
| Webhooks.BackoffGrows | backend/apps/sales/webhooks.py:95-97 | The retry delay never shrinks with more attempts, stays within 30 s and 1 h, and reaches the hour at eight |
| Webhooks.InboxWorker.ProcessEvent | backend/apps/sales/webhooks.py:110-293 | The two-transaction processing with its failure handler refines the inbox function |
| Webhooks.InboxWorker.ReceiveEvent | backend/apps/sales/api.py:70-121 | Accepting or rejecting a delivery refines the inbox function |
| Webhooks.InboxValid | backend/apps/sales/webhooks.py:88-372 | Deliveries, workers whose two transactions interleave with anything, dying workers, sweeps and shop commands in any order keep the shop valid |
| Webhooks.InterleavedHarmless | backend/apps/sales/webhooks.py:110-293 | Once one worker has finished with a snapshot, no interleaving of deliveries, other workers and sweeps about it changes the stock, another order, or the order's status and reservations |
| Webhooks.FinishMakesInert | backend/apps/sales/webhooks.py:188-293 | Finishing with a snapshot makes it inert, whatever happened since the event was taken |
| Webhooks.StaysInert | backend/apps/sales/webhooks.py:110-293 | With the shop at work between deliveries and workers, a finished snapshot stays without effect as long as no command revives it, and those that do are exactly the two kinds above |
| InboxEffects.SweptIsTaken | backend/apps/sales/webhooks.py:358-372 | After a sweep an event can be taken exactly when it waits or its lease has run out |
| InboxEffects.DeliveryIsTaken | backend/apps/sales/api.py:99-121 | A delivery with a bad signature never makes an event workable and does not stop one that was |
| InboxEffects.FailureEffect | backend/apps/sales/webhooks.py:88-107 | A failed event has its pending-webhook issue and is due again exactly from the end of its delay on: 30, 30, 60, 120, ... 1920 seconds, then an hour |
| InboxEffects.MisdirectedEffect | backend/apps/sales/webhooks.py:68-85 | A snapshot for no order of the shop or from another seller leaves an open UNKNOWN_PAYMENT issue, a processed event, and nothing else |
| InboxEffects.SettledEffect | backend/apps/sales/webhooks.py:211-293 | Any other snapshot settles its order and closes the event, or fails and leaves it to be retried |
| InboxEffects.TakeEffect | backend/apps/sales/webhooks.py:110-128 | An event is taken exactly when it waits, is signed and names a resource; that counts an attempt and leases it for five minutes |
| Idempotency.ServeSettled | backend/apps/audit/idempotency.py:82-104 | No committed record is still PROCESSING |
| Idempotency.RepeatsDoNotMatter | backend/apps/audit/idempotency.py:35-104 | Any sequence of keyed and plain calls, in any environments, ends in the same database as the sequence without later repeats of a succeeded key |
| Idempotency.KeyedRefinesPlain | backend/apps/audit/idempotency.py:35-104 | The state is that of the needed calls run without keys, each in its own environment |
| Idempotency.KeyedShop | backend/apps/audit/idempotency.py:35-104 | A shop served through keys, with repeats at any later time, is a run of the needed commands, and stays valid |
| Idempotency.ExactlyOnce | backend/apps/audit/idempotency.py:35-104 | A key's command succeeds once if there is a record for it and never otherwise |
| Idempotency.RepeatAnswersAlike | backend/apps/audit/idempotency.py:61-80 | A repeat, after any other calls and whatever clock, settings and provider say by then, returns the stored response and changes nothing |
| Idempotency.SaleAskedAgain | backend/apps/sales/order_services.py:933-978 | A sale asked for again later answers with the first sale's order and makes none |
| Idempotency.OtherRequestRefused | backend/apps/audit/idempotency.py:61-72 | The same key with another request is refused in any environment and changes nothing |
| Idempotency.Keyring.ServeCalls | backend/apps/audit/idempotency.py:35-104 | Serving calls in place ends as serving only the needed ones would |
| Idempotency.Keyring.ExecuteIdempotent | backend/apps/audit/idempotency.py:35-104 | Writing the record first and undoing everything on an error refines the keyed call |
| Idempotency.FailuresLeaveNoTrace | backend/apps/audit/idempotency.py:82-104 | Over any run of calls those that raised leave no trace: the database, keys included, is what the answered calls alone would have made it |
| Idempotency.NeverInProgress | backend/apps/audit/idempotency.py:73-80 | From a database without open records no call is ever answered "in progress", whatever was called before |
| Idempotency.RequestComesBack | backend/apps/sales/order_services.py:933-2396 | The environment never changes what is asked for: the command made of a request gives the request back |
| Idempotency.AnswerIsTheRow | backend/apps/audit/idempotency.py:82-104 | A served request answers with the order, product or movement that it made or changed |
| Idempotency.KeysAgree | backend/apps/audit/idempotency.py:48-60 | Two calls have one key exactly when organisation, scope and stripped text agree |
| Idempotency.BadKeyRefused | backend/apps/audit/idempotency.py:48-60 | A key that is blank or longer than 128 characters is refused before anything is looked at |
| Idempotency.ServedNow | backend/apps/sales/order_services.py:933-2396 | A sale, reissue, restore or cancellation served through a key carries the moment, term and settings of the call that first succeeded |
| Idempotency.FirstUse | backend/apps/audit/idempotency.py:82-104 | A call without a key, or with a fresh good one, is the command itself; only the latter leaves a record, with its request and response |
| Idempotency.EnvironmentFills | backend/apps/sales/order_services.py:981-2396 | The environment fills in the moment, the term, the settings and the provider's availability, each in its place |
| Import.RowMadeOnce | backend/apps/inventory/bulk.py:675-769 | Whatever workers, replays and other callers do, who may change the tables and add any records, even under the row's own key, one file row adds at most one product and at most one initial movement; unless somebody else uses its key it adds exactly one if it is recorded meanwhile |
| Import.TryEffect | backend/apps/inventory/bulk.py:721-734 | The first success at a row lists its product and books its load; a replay or a failure adds nothing |
| Import.KeysDiffer | backend/apps/inventory/bulk.py:729 | Different rows of a job have different keys |
| Import.Worker.Process | backend/apps/inventory/bulk.py:675-804 | A run, finished, killed or crashed, performs a prefix of the rows; one cut short leaves the counts of its last checkpoint, every 25th row and the last, and a crash or a bad file its error code; a finished run counts all rows and its status says whether any failed |
| Import.Worker.Confirm | backend/apps/inventory/bulk.py:595-631 | Confirming queues a mapped job with cleared counters, or changes nothing |
| Import.Worker.Retry | backend/apps/inventory/bulk.py:807-844 | Retrying requeues a failed job, or changes nothing |
| Import.JobsDiffer | backend/apps/inventory/bulk.py:729 | Rows of different jobs have different keys, job ids being equally long |
| Pagination.WalkListsAll | backend/tenda/pagination.py:92-124 | Following end cursors lists every row of any finite table exactly once in (value, nulls last, key) order in max(1, ceil(n/size)) pages |
| Pagination.CursorRoundTrip | backend/tenda/pagination.py:41-64 | Decoding a cursor gives back value and key, separators in the value included, iff the value is not the null marker |
| Pagination.FilterIsAfter | backend/tenda/pagination.py:79-89 | The keyset filter keeps exactly the rows that the order puts after the cursor |
| Pagination.WhereOrdered | backend/tenda/pagination.py:104-116 | Filtering then ordering is ordering then filtering |
| Pagination.OrderedMeaning | backend/tenda/pagination.py:104-108 | The listing is the table itself in strict order |
| Pagination.CleanPageSize | backend/tenda/pagination.py:67-76 | 25 by default, else the size asked for, at most 100; only a non-positive request is refused |
| Refunds.Allocate | backend/apps/sales/selectors.py:529-546 | The allocation loop, with 28-digit decimal shares and its caps, gives every line but the last its exact floor and the last what it can take of the rest |
| Refunds.DecimalIsFloor | backend/apps/sales/selectors.py:541 | Dividing to 28 digits half-even and cutting gives the exact integer floor for 14-digit amounts |
| Refunds.FullySpreadWhen | backend/apps/sales/selectors.py:540-545 | Shares never exceed the refund, and add up to it iff the last line can take what the other floors leave |
| Refunds.ShortfallBound | backend/apps/sales/selectors.py:540-545 | They fall short of min(refund, total) by at most max(0, n - 2) |
| Refunds.EachWithinGross | backend/apps/sales/selectors.py:540-545 | Each share is between zero and the line's price |
| Refunds.FullRefundClearsLines | backend/apps/sales/selectors.py:540-545 | A refund of at least the total gives every line its whole price back |
| Refunds.SharesCanFallShort | backend/apps/sales/selectors.py:540-545 | Lines 1, 1, 1 and a refund of 2 allocate only 1 |
| Refunds.ShareOfEach | backend/apps/sales/selectors.py:540-545 | Every line but the last gets exactly its share rounded down, and the last what is left, up to its price |
| Breakdown.BreakdownAddsUp | backend/apps/sales/selectors.py:650-858 | For every grouping the rows add up to the balance: gross, refunds, net, known cost, margin, lines, known-cost lines, and pending = pending + validation |
| Breakdown.RowsPartition | backend/apps/sales/selectors.py:741-795 | Rows have distinct keys and partition the recognised and open lines |
| Breakdown.SalesBreakdown | backend/apps/sales/selectors.py:741-837 | Grouping, merging and sorting with dictionaries refines the breakdown rows |
| Breakdown.PendingAmounts | backend/apps/sales/selectors.py:577-609 | The loop splits open amounts into pending and under review |
| Breakdown.PendingBuckets | backend/apps/sales/selectors.py:698-738 | The bucket loop groups open amounts by the same key |
| Breakdown.SortedRows | backend/apps/sales/selectors.py:824-837 | Rows come out in the grouping's order |
| Breakdown.RowWalkListsAll | backend/apps/sales/selectors.py:838-858 | Paging by position visits every row once, in order, in max(1, ceil(n/size)) pages |
| Breakdown.OrderInBalance | backend/apps/sales/selectors.py:549-574 | For one order of a valid shop gross is its total, its refunds stay within the money returned and near it, and a full refund nets every line to zero |
| Breakdown.ShopInBalance | backend/apps/sales/selectors.py:500-526 | Over all orders of a valid shop gross is the sum of the totals of paid and refunded orders, pending and validation those of the active ones, refunds the money returned but for rounding, and net is not negative |
| Rows.KeyShows | backend/apps/sales/selectors.py:482-497 | Two lines share a row exactly when they agree on the day, on product and name, on the payment method or on the status, whichever is grouped by, and the row shows that value |
| Rows.RowHasLine | backend/apps/sales/selectors.py:741-822 | Every row shows the value of some line, and its quantity, gross, refund, cost, lines, known-cost lines and pending amount are the sums over exactly the lines that share the value |
| Rows.LineHasRow | backend/apps/sales/selectors.py:741-822 | Every recognised or open line has such a row, listed once, and no other row shows its value |
| Rows.RowOrder | backend/apps/sales/selectors.py:824-837 | Later days come first; otherwise the higher net, then the folded name, then the code |
| Rows.BalanceMeaning | backend/apps/sales/selectors.py:650-695 | The balance sums gross, refunds, cost and line counts over all lines, and splits open amounts by whether they are under review |
| Reported.UnitsAgree | backend/apps/sales/selectors.py:741-795 | In a valid shop the units reported as sold of a product are exactly the units the ledger booked out for sales of it |
| Reported.MoneyAgrees | backend/apps/sales/selectors.py:549-609 | In a valid shop the lines of one payment method and status, sold or open, are worth the totals of the orders that have them |
| Reported.LineHasOrder | backend/apps/sales/selectors.py:549-574 | Every recognised line is a line of a paid or refunded order, dated by its payment, with that line's product, quantity, price and cost |
| Reported.OpenLineHasOrder | backend/apps/sales/selectors.py:698-738 | Every open line is a line of an active order, dated by its creation |
| Rut.OneDigitChanged | backend/apps/organisations/bank.py:54-65 | Changing one digit of a body of any length changes its check character |
| Rut.NeighboursSwapped | backend/apps/organisations/bank.py:54-65 | Swapping two different adjacent digits changes it |
| Rut.SlipsAreCaught | backend/apps/organisations/bank.py:68-75 | A valid tax id with either slip is not valid |
| Rut.RutCheckDigit | backend/apps/organisations/bank.py:54-65 | The weighted loop computes the modulo-11 check character |
| Rut.FormatRut | backend/apps/organisations/bank.py:41-51 | The grouping loop computes the dotted form |
| Rut.FormatKeepsNormalForm | backend/apps/organisations/bank.py:37-51 | Normalising a formatted value gives the original normal form |
| Rut.FormatTwice | backend/apps/organisations/bank.py:41-51 | Formatting is idempotent |
| Rut.FormatKeepsValidity | backend/apps/organisations/bank.py:68-75 | Formatting preserves validity both ways |
| Rut.CheckClosesSum | backend/apps/organisations/bank.py:54-65 | The check character is the one that makes the weighted sum a multiple of 11, K standing for 10 |
| Rut.PlaceWeight | backend/apps/organisations/bank.py:54-60 | Each digit counts with the weight of its place: 2 for the last, up to 7, and again from 2 |
| Rut.BodyAndCheck | backend/apps/organisations/bank.py:68-75 | Digits and a check character are a valid tax id exactly when there are seven or eight digits and the character is theirs |
| Rut.CharacterKept | backend/apps/organisations/bank.py:37-38 | Normalising keeps digits, capitalises k and drops everything else, wherever it stands |
| Rut.PointPlaces | backend/apps/organisations/bank.py:41-51 | Counted from the right, exactly every fourth character of the formatted body is a point, and it does not start with one |

## Left out

- Tenancy, permissions and context lookups: one shop is modelled; a missing order or product is an index out of range.
- Network, provider, storage and clock: their results are parameters of the commands (`connected`, `providerUp`, `Snapshot`, `now`, an import's readings and endings).
- Free text, field cleaning and the buyer form's own checks: reduced to whether the value is acceptable (`Option`), since nothing else depends on them.
- Product names: the name stands for its case-folded form, which the unique index compares.
- Sale price, custom attributes, pictures and shipments: no modelled property depends on them; creating the shipment of a paid order is left out because it touches no stock.
- Notifications, outbox, audit records and public links: written beside the modelled rows and read by none of them.
- The corrected movement of a correction and free references of manual movements: the API never passes a reference, so manual rows carry none.
- A missing balance row: read as an empty balance; the row that a failing command would have inserted is rolled back with it.
- Acceptance.SettleWhen: does not model that saving a provider payment id which another payment already holds raises (`backend/apps/sales/models.py:545-548`), because only whether an id is known is kept.
- Fees: the requested fee is always zero for new payments, and the model compares the reported fee with zero.
- Expiry on reading a public order: modelled as an expiry command before the buyer's command.
- Choosing the due orders of a sweep by time and limit: the sweep is proved for every list of orders.
- The order and limit in which overdue webhook events are swept: each event's requeueing is a step of its own.
- Locks on order, product, inventory and alert rows, and on reservation rows: `Locks` covers the balance rows, the only ones the code orders.
- The business day of a time and the names of products in the balance: arbitrary functions of the time and the product.
- Idempotency digests are taken to be injective, and base64 and UTF-8 to be inverse pairs; a cursor is modelled as the text inside them, with ASCII digits.
- Two simultaneous first uses of one idempotency key: the database's unique index serialises them; calls are modelled one after another.
- Which rows normalisation accepts in an import: every attempt at a row may read something else; the spreadsheet reader, the report file and the quota check are parameters.
- Filters, time zones and inventory valuation of the balance: the lines that the queries select are the input; operations counted per order and the cost coverage percentage are not modelled.
- Dates in breakdown rows: the placeholder of the other groupings is `None`, and the page's printed date is an arbitrary text.
- Media lifecycle, bank account replacement, gallery limits, custom fields and billing: small machines beside the core.
