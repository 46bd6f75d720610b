# Warehouse stock documents, modelled in Dafny

This project models the server side of a warehouse inventory application.
It keeps a stock table of (product, warehouse) → quantity. Three kinds of
document change that table:

- a **receipt** brings goods into one warehouse;
- a **delivery** ships goods out of the warehouse each line names;
- a **transfer** moves goods from one warehouse to another.

Each document is created as a draft by a POST. A PATCH then validates it
(receipts, deliveries) or completes it (transfers) by walking the request's
lines. The model also covers:

- product creation, with its case-insensitive category resolve-or-create and
  the optional opening stock row;
- the partial product update;
- the product listing and its ordering;
- the transactional product delete;
- the middleware that gates every page and API route.

The store is one object, `Tables.Db`, and its tables are its fields. Each
handler is a method whose `modifies` clause names exactly the tables it
writes. Its postcondition gives the response for every branch of the handler
and states the new contents of every table it writes, counters included.
`Tables.Db.Valid` is the store's invariant, and every handler keeps it:

- no stock row is negative;
- products are in id order with distinct SKUs;
- every document is stored under its own id;
- a document's line ids increase along its lines;
- every id and line-id counter is ahead of the ids in use.

So a line id taken from a counter is one no existing line has.

Each PATCH loop is an imperative `while` loop that writes the store line by
line. It is proved against `LineLoop.RunLines`, a fold over the request's
lines that either finishes or stops at the first rejected line. Lemmas about
that fold carry the properties:

- stock never goes negative;
- a transfer between two different warehouses conserves each product's total;
- a finished receipt adds exactly the received quantities;
- validating a receipt twice adds them twice.

**The code commits as it goes.** One might expect each document transition
to be all-or-nothing and one-shot: a failed validation would leave stock and
status as they were, and a validated document could not be validated again.
The handlers are neither:

- A line rejected mid-loop returns at once.
- The stock writes and line writes of the earlier lines stay in place.
- The status is not touched.
- None of the three handlers uses a transaction.
- Nothing checks that the document is still a draft.

The model follows the handlers: `ReceiptRoute.PartialCommitExample` and
`ReceiptRoute.ValidateTwice` state those two behaviours. Of the handlers
that write several rows, only the product delete runs in a transaction. Each
POST's nested create is a single all-or-nothing statement. The PATCH loops
commit as they go.

Modelling conventions:

- A JSON body field that may be absent or falsy is an `Option<int>`. It is
  truthy when it is present and non-zero (`Common.Truthy`).
- A string field is a `string`, with "" standing for absent, null or empty.
- A store exception is a 500 response carrying `Common.StoreFailure`, with the
  state the failing statement leaves:
  - a nested create whose foreign key fails creates nothing;
  - an update of a missing row changes nothing;
  - a unique-index violation changes nothing.
- Products are kept in ascending id order, the order of an autoincrement key.

## Model

| member | source | states |
|---|---|---|
| Common.StatusOrDraft | src/app/api/transfer/route.js:263-265 | `status \|\| "draft"`: the result is never empty; it is "draft" exactly when the status is absent, empty or "draft"; otherwise it is the supplied status |
| Common.FindFirst | src/app/api/receipt/route.js:180 | `find`: the index returned holds the first element that matches; `None` exactly when no element matches |
| Text.Trim | src/app/api/product/add/route.js:49 | the result is the input with only a white-space prefix and a white-space suffix removed; it is empty exactly when the input is blank; when it is not empty, it neither starts nor ends with white space |
| Ledger.Increment | src/app/api/receipt/route.js:202-218 | upsert with increment: the row becomes its old value plus q, where an absent row counts as 0; every other row is unchanged; non-negativity is kept for q ≥ 0 |
| Ledger.Decrement | src/app/api/delivery/route.js:197-207 | decrement of an existing row: the row drops by q and no other row changes; the row stays non-negative when q does not exceed it |
| Ledger.Move | src/app/api/transfer/route.js:226-253 | decrement the source and then upsert the destination: source −q, destination +q (absent counts as 0) for from ≠ to; identity for from = to; other rows unchanged; non-negativity is kept when 0 ≤ q ≤ source |
| Ledger.MoveKeepsTotal | src/app/api/transfer/route.js:226-253 | for from ≠ to, every product's total over any list of distinct warehouses that holds both endpoints is unchanged |
| Ledger.TotalAfterWrite | src/app/api/transfer/route.js:226-253 | writing one row changes a product's total by exactly the change in that row when its warehouse is listed once, and not at all otherwise |
| LineLoop.RunLines | src/app/api/receipt/route.js:179-219 | the per-line loop with early return: an abort names a line inside the request, and an empty request finishes in the initial state |
| LineLoop.AbortedAt | src/app/api/transfer/route.js:192-260 | a run that stops at line k leaves exactly the state the first k lines produced, and line k is the one its step rejects |
| LineLoop.AbortIsFinal | src/app/api/delivery/route.js:163-209 | once a line is rejected, the lines after it change nothing, because the handler has already returned |
| LineLoop.Preserved | src/app/api/delivery/route.js:163-209 | any property that each committed line keeps holds after the loop, whether it finished or stopped |
| Tables.IndexOf | src/app/api/product/update/route.js:60-61 | the row with a given primary key is found exactly when the table holds that key |
| Categories.Resolve | src/app/api/product/add/route.js:49-66 | a matching category is reused and the table is unchanged; otherwise a category with the next id and that name is appended, and its id is returned |
| Categories.ResolveTwice | src/app/api/product/add/route.js:67-79 | resolving the same name again returns the same id and creates nothing, so "Uncategorized" (or any name) is created at most once |
| Categories.FindOrCreate | src/app/api/product/update/route.js:40-56 | the category table and the returned id are those of `Resolve`, and the id counter moves exactly when a row was created |
| ReceiptRoute.SetReceived | src/app/api/receipt/route.js:196-199 | only the `receivedQty` of the line with that id changes; ids, products and quantities of every line stay |
| ReceiptRoute.Step | src/app/api/receipt/route.js:180-218 | one line commits exactly when it names an item of the receipt with a quantity in [0, requested]; an unknown item gives its 404 and a bad quantity its 400; a committed line adds its quantity to the destination row of its product alone, and writes `receivedQty` |
| ReceiptRoute.Validate | src/app/api/receipt/route.js:179-219 | the lines run in order; a stop at line k leaves the state the first k lines produced, and line k is the one rejected |
| ReceiptRoute.ValidateEffect | src/app/api/receipt/route.js:179-219 | validation finishes exactly when every line names an item of the receipt with a quantity in [0, requested]; then each stock row ends at its old value plus the received quantities for it |
| ReceiptRoute.ValidateKeepsNonNegative | src/app/api/receipt/route.js:201-218 | validation never makes a stock row negative, even when it stops part-way |
| ReceiptRoute.ValidateKeepsLines | src/app/api/receipt/route.js:196-199 | validation rewrites only received quantities: the receipt keeps its lines, ids, products and requested quantities |
| ReceiptRoute.ValidateTwice | src/app/api/receipt/route.js:171 | with no draft guard, validating an accepted request a second time succeeds again and adds the received quantities a second time |
| ReceiptRoute.PartialCommitExample | src/app/api/receipt/route.js:179-219 | a request whose second line is unknown is refused with 404, while the first line's increment and `receivedQty` write stay applied |
| ReceiptRoute.Post | src/app/api/receipt/route.js:64-134 | 401 / 400 / 404 guards change nothing; a line naming a missing product fails with 500 and creates nothing; otherwise the table gains exactly one draft receipt, stored under the next receipt id with its own id; its lines are `Lines` from the line counter; both counters advance; no existing receipt line has any of the new line ids |
| ReceiptRoute.Lines | src/app/api/receipt/route.js:101-107 | the created lines copy product and quantity in request order, with `receivedQty` 0 and consecutive ids from `first`: increasing, at least `first` and below `first` plus the line count |
| ReceiptRoute.Create | src/app/api/receipt/route.js:95-121 | the nested create stores one draft receipt under the next id, with fresh line ids, and advances both counters |
| ReceiptRoute.ApplyLine | src/app/api/receipt/route.js:180-218 | one iteration: a rejected line changes nothing and yields its error; an accepted one writes `receivedQty` and the stock increment of `Step` |
| ReceiptRoute.ValidateLines | src/app/api/receipt/route.js:179-219 | the loop leaves stock and lines as `Validate` computes them, and reports a failure exactly when `Validate` aborts |
| ReceiptRoute.ValidateAndMark | src/app/api/receipt/route.js:179-237 | the loop's writes persist; the status becomes "validated" only when every line went through, and otherwise the error of the rejected line is returned |
| ReceiptRoute.Patch | src/app/api/receipt/route.js:136-250 | guards; a status other than "validated" changes only the status, to `status \|\| "draft"`; an empty request is refused; otherwise on success the status becomes "validated", and on failure the earlier lines' writes persist with the status unchanged |
| DeliveryRoute.OverdrawRejected | src/app/api/delivery/route.js:180-195 | a positive quantity above the stock of the line's warehouse (absent counts as 0) is rejected with 400 |
| DeliveryRoute.Step | src/app/api/delivery/route.js:164-208 | one line commits exactly when it names an item with a quantity in [0, requested] and, when positive, its source row holds that much; each rejection gives its own message; a committed line takes its quantity from its own source row alone |
| DeliveryRoute.Validate | src/app/api/delivery/route.js:163-209 | the lines run in order; a stop at line k leaves the stock the first k lines produced, and line k is the one rejected |
| DeliveryRoute.StepKeepsNonNegative | src/app/api/delivery/route.js:180-207 | a committed line keeps every stock row non-negative |
| DeliveryRoute.ValidateKeepsNonNegative | src/app/api/delivery/route.js:163-209 | validation never makes a stock row negative, even when it stops part-way |
| DeliveryRoute.ValidateEffect | src/app/api/delivery/route.js:163-209 | a finished validation accepted every line: each named an item of the delivery with a quantity in [0, requested]; every stock row ends at its old value minus the quantities delivered from it |
| DeliveryRoute.Post | src/app/api/delivery/route.js:63-119 | 401 / 400 guards change nothing; a missing product or warehouse fails with 500 and creates nothing; otherwise the table gains exactly one draft delivery under the next id, whose lines (`Lines`) carry their own warehouse; both counters advance; no existing delivery line has a new line id; the delivery date is not stored |
| DeliveryRoute.Lines | src/app/api/delivery/route.js:86-93 | the created lines copy product, quantity and warehouse in request order, with `deliveredQty` 0 and consecutive ids from `first`: increasing, at least `first` and below `first` plus the line count |
| DeliveryRoute.Create | src/app/api/delivery/route.js:83-106 | the nested create stores one draft delivery under the next id, with fresh line ids, and advances both counters |
| DeliveryRoute.ApplyLine | src/app/api/delivery/route.js:164-208 | one iteration: a rejected line changes nothing and yields its error; an accepted one applies the decrement of `Step` |
| DeliveryRoute.ValidateLines | src/app/api/delivery/route.js:163-209 | the loop leaves stock as `Validate` computes it and never writes to the delivery |
| DeliveryRoute.Patch | src/app/api/delivery/route.js:121-240 | guards; a status other than "validated" changes only the status; on success the status becomes "validated"; `deliveredQty` is never stored; on failure the earlier decrements persist and the status is unchanged |
| TransferRoute.SetTransferred | src/app/api/transfer/route.js:256-259 | only the `transferredQty` of the line with that id changes; id, product and requested quantity of every line stay |
| TransferRoute.Step | src/app/api/transfer/route.js:193-259 | one line commits exactly when it names an item with a quantity in [0, requested] and, when positive, the source row holds that much; each rejection gives its own message; a committed line writes `transferredQty` |
| TransferRoute.Complete | src/app/api/transfer/route.js:192-260 | the lines run in order; a stop at line k leaves the state the first k lines produced, and line k is the one rejected |
| TransferRoute.CompleteChecksLines | src/app/api/transfer/route.js:193-207 | a finished completion accepted every line: each named an item of the transfer with a quantity in [0, requested] |
| TransferRoute.CompleteKeepsLines | src/app/api/transfer/route.js:256-259 | completion rewrites only transferred quantities: ids, products and requested quantities of the lines stay |
| TransferRoute.StepChecksSource | src/app/api/transfer/route.js:209-224 | stock changes only for a positive quantity, and only when the source row exists and holds at least that much |
| TransferRoute.StepKeepsNonNegative | src/app/api/transfer/route.js:209-236 | a committed line keeps every stock row non-negative |
| TransferRoute.CompleteKeepsNonNegative | src/app/api/transfer/route.js:192-260 | completion never makes a stock row negative, even when it stops part-way |
| TransferRoute.StepTouchesOnlyEndpoints | src/app/api/transfer/route.js:226-253 | a committed line leaves rows of every other warehouse as they were |
| TransferRoute.CompleteTouchesOnlyEndpoints | src/app/api/transfer/route.js:192-260 | completion, whether it finishes or not, leaves rows of every other warehouse as they were |
| TransferRoute.StepKeepsTotal | src/app/api/transfer/route.js:226-253 | between two different warehouses, a committed line conserves every product's total |
| TransferRoute.CompleteKeepsTotal | src/app/api/transfer/route.js:192-260 | between two different warehouses, completion conserves every product's total across the warehouses, also when it stops part-way |
| TransferRoute.StepEffect | src/app/api/transfer/route.js:226-253 | between two different warehouses, a committed line lowers the source row and raises the destination row of its product by its quantity |
| TransferRoute.CompleteEffect | src/app/api/transfer/route.js:226-253 | a finished completion lowers each product's source row, and raises its destination row (absent counts as 0), by the sum of its transferred quantities |
| TransferRoute.Lines | src/app/api/transfer/route.js:107-119 | the created lines copy product and quantity in request order, with `transferredQty` 0 and consecutive ids from `first`: increasing, at least `first` and below `first` plus the line count |
| TransferRoute.Post | src/app/api/transfer/route.js:65-146 | 401; 400 without both warehouses and lines; 400 for equal warehouses before anything is created; 404 for a missing warehouse; 500 for a missing product; otherwise exactly one draft transfer under the next id with lines from `Lines`; both counters advance; no existing transfer line has a new line id |
| TransferRoute.Create | src/app/api/transfer/route.js:107-133 | the nested create stores one draft transfer under the next id, with fresh line ids, and advances both counters |
| TransferRoute.ApplyLine | src/app/api/transfer/route.js:193-259 | one iteration: a rejected line changes nothing and yields its error; an accepted one applies the move and the `transferredQty` write of `Step` |
| TransferRoute.CompleteLines | src/app/api/transfer/route.js:192-260 | the loop leaves stock and lines as `Complete` computes them, and reports a failure exactly when `Complete` aborts |
| TransferRoute.CompleteAndMark | src/app/api/transfer/route.js:184-279 | the loop's moves and writes persist; the status becomes "completed" only when every line went through, and otherwise the error of the rejected line is returned |
| TransferRoute.Patch | src/app/api/transfer/route.js:148-292 | guards; a status other than "completed" changes only the status; an empty request is refused; on success the status becomes "completed"; on failure the earlier moves and writes persist with the status unchanged |
| ProductAdd.Wanted | src/app/api/product/add/route.js:48-80 | a non-blank category is trimmed and matched case-insensitively; a missing or blank one becomes "Uncategorized", matched exactly |
| ProductAdd.AppendKeepsTable | src/app/api/product/add/route.js:82-93 | a new row with a fresh id and an unused SKU keeps ids ascending and SKUs unique |
| ProductAdd.CreateProduct | src/app/api/product/add/route.js:48-93 | the category is resolved as `Resolve` says, and then one product row pointing at it is appended |
| ProductAdd.Add | src/app/api/product/add/route.js:17-125 | 401; 400 for a missing field; 400 for a taken SKU before any write; otherwise category and product are created; the opening stock row is written, set rather than incremented to the quantity, exactly when `OpensStock` holds (the quantity is truthy and positive and the warehouse id is truthy), and the stock table is unchanged otherwise; a missing warehouse then gives 500 and keeps the product |
| ProductRoute.Get | src/app/api/product/route.js:17-48 | 401 without a session; otherwise 200 with all products, as a permutation of the table, in strictly descending id order |
| ProductRoute.StockWithout | src/app/api/product/route.js:73-75 | exactly the stock rows of other products remain, with their quantities |
| ProductRoute.ReceiptsWithout | src/app/api/product/route.js:76-78 | no receipt header is removed: the table keeps the same ids |
| ProductRoute.DeliveriesWithout | src/app/api/product/route.js:79-81 | no delivery header is removed: the table keeps the same ids |
| ProductRoute.TransfersWithout | src/app/api/product/route.js:82-84 | no transfer header is removed: the table keeps the same ids |
| ProductRoute.ProductsWithout | src/app/api/product/route.js:85-87 | an existing row is removed and the others keep their order; a missing id leaves the table as it was |
| ProductRoute.ReceiptsWithoutFacts | src/app/api/product/route.js:76-78 | every receipt keeps its header and exactly its lines for other products |
| ProductRoute.DeliveriesWithoutFacts | src/app/api/product/route.js:79-81 | every delivery keeps its header and exactly its lines for other products |
| ProductRoute.TransfersWithoutFacts | src/app/api/product/route.js:82-84 | every transfer keeps its header and exactly its lines for other products |
| ProductRoute.ReceiptsWithoutKeepsLines | src/app/api/product/route.js:76-78 | after the line deletion every receipt is still under its own id, with line ids still increasing and below the counter |
| ProductRoute.DeliveriesWithoutKeepsLines | src/app/api/product/route.js:79-81 | the same for deliveries |
| ProductRoute.TransfersWithoutKeepsLines | src/app/api/product/route.js:82-84 | the same for transfers |
| ProductRoute.ProductsWithoutFacts | src/app/api/product/route.js:85-87 | after the delete no row has the id, and every row with another id remains |
| ProductRoute.ProductsWithoutKeepsTable | src/app/api/product/route.js:85-87 | removing the row keeps ids ascending and SKUs unique |
| ProductRoute.DeleteKeepsOtherTotals | src/app/api/product/route.js:73-75 | after the delete every other product's total over any warehouses is unchanged, and the deleted product's total is 0 |
| ProductRoute.DeleteStock | src/app/api/product/route.js:73-75 | the stock table becomes `StockWithout` and the store stays valid |
| ProductRoute.DeleteReceiptItems | src/app/api/product/route.js:76-78 | the receipts become `ReceiptsWithout` and the store stays valid |
| ProductRoute.DeleteDeliveryItems | src/app/api/product/route.js:79-81 | the deliveries become `DeliveriesWithout` and the store stays valid |
| ProductRoute.DeleteTransferItems | src/app/api/product/route.js:82-84 | the transfers become `TransfersWithout` and the store stays valid |
| ProductRoute.DeleteProductRow | src/app/api/product/route.js:85-87 | the product table becomes `ProductsWithout` and the store stays valid |
| ProductRoute.DeleteLines | src/app/api/product/route.js:76-84 | the three line deletions, in order |
| ProductRoute.Cascade | src/app/api/product/route.js:72-88 | the five statements of the transaction, in order, each table ending as its deletion function says |
| ProductRoute.Delete | src/app/api/product/route.js:50-101 | 401; 400 without `id`; 500 with every table unchanged when the product does not exist (the transaction rolls back); otherwise all five deletions |
| ProductUpdate.Merge | src/app/api/product/update/route.js:60-67 | only name, SKU, unit and category can change, each only when a value was supplied; the id is kept |
| ProductUpdate.MergeNothing | src/app/api/product/update/route.js:62-66 | a request that supplies no field leaves the row unchanged |
| ProductUpdate.Requested | src/app/api/product/update/route.js:37-39 | an absent, empty or blank category asks for nothing (`categoryId` stays); otherwise the trimmed, non-empty name |
| ProductUpdate.ReplaceKeepsTable | src/app/api/product/update/route.js:60-61 | rewriting a row with its own id and a SKU no other row holds keeps ids ascending and SKUs unique |
| ProductUpdate.WriteRow | src/app/api/product/update/route.js:60-71 | a missing id or a SKU held by another row gives 500 and changes nothing; otherwise the row becomes its merge |
| ProductUpdate.Update | src/app/api/product/update/route.js:17-84 | 401; 400 without `id`; a non-blank category is resolved or created first and stays even when the row update then fails |
| Middleware.ApiRouteIsPrefix | src/middleware.js:5 | a path is an API route exactly when it is "/api/" followed by anything |
| Middleware.PublicPathsShape | src/middleware.js:6 | exactly four paths are public, and exactly two of them are API routes |
| Middleware.Decide | src/middleware.js:3-48 | rejects only with 401 for a non-public API path without a cookie (the 403 branch is unreachable); redirects to /login, /dashboard or /access-denied exactly in their cases; a non-empty but unparseable cookie still counts as a session |

## Left out

- The persistent store is not modelled. Tables are in-memory sequences and maps, and ids come from counters.
- Eager `include` joins, `createdAt` ordering and the shape of response bodies beyond status and message are not modelled. This covers the product `stocks` that POST /api/product/add returns from before its stock write.
- Stored integers (`Int` columns) are bounded, while quantities here are unbounded integers. An increment past the bound throws mid-loop, after the earlier lines were written; that failure is not modelled.
- A malformed request body makes `req.json()` throw, which the handlers answer with 500. The model takes the body already parsed.
- ReceiptRoute.Post: `new Date(receiptDate)` of a missing or unparseable date is an invalid date, which the store may refuse with 500; dates are not modelled, so the model creates the receipt.
- DeliveryRoute.Lines: the create gives no `deliveredQty`, and the model takes the column's default as 0. The database schema is not part of this model.
- Categories.Resolve: `findFirst` without `orderBy` may return any matching row when two category names match (for instance two that differ only in case); the model returns the earliest.
- The GET handlers of receipts, deliveries and transfers are not modelled. They are plain ordered queries.
- Session decoding is a foreign JSON parse of the cookie. It is an `Option<User>`, and only its presence matters. The middleware takes the parsed role as a parameter.
- Concurrency is not modelled. Each request runs alone, so the gap between reading a stock row and updating it is not modelled.
- JavaScript `Number()` coercion, `NaN`, and string-versus-number comparisons of ids (`===` on raw body values) are not modelled. Ids and quantities are integers.
- Dates (`receiptDate`, `createdAt`, and the delivery date, which is read but never stored) are not modelled.
- Exception messages are not modelled. Every store failure carries the same `StoreFailure` text.
- Trimming and case folding cover ASCII only. Unicode white space and case mapping are not modelled.
- Login, registration and password change are not modelled. They wrap password hashing and token signing libraries.
- The client-side session hook and the warehouse list/create route are not modelled. They carry no invariant of the core.
- ProductRoute.Get: requires the table in ascending id order, which `Tables.Db.Valid` maintains, and reverses it rather than sorting.
- DeliveryRoute.ValidateEffect: states the stock effect of a finished run only. When the run stops, `LineLoop.AbortedAt` gives the state.
