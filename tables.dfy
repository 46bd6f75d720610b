/** The rows of the relational store the route handlers read and write, and
    the store itself as one object whose tables the handlers update in place. */
module Tables {
  import opened Common
  import opened Ledger

  datatype Category = Category(id: int, name: string)

  datatype Product = Product(id: int, name: string, sku: string, uom: string, categoryId: Option<int>)

  datatype ReceiptItem = ReceiptItem(id: int, productId: int, quantity: int, receivedQty: int)

  /** A receipt header: one destination warehouse for every line. */
  datatype Receipt = Receipt(id: int, supplier: string, warehouseId: int, status: string, items: seq<ReceiptItem>)

  /** A delivery line names its own source warehouse. */
  datatype DeliveryItem = DeliveryItem(id: int, productId: int, warehouseId: int, quantity: int, deliveredQty: int)

  datatype Delivery = Delivery(id: int, customer: string, status: string, items: seq<DeliveryItem>)

  datatype TransferItem = TransferItem(id: int, productId: int, quantity: int, transferredQty: int)

  datatype Transfer = Transfer(id: int, fromWarehouseId: int, toWarehouseId: int, status: string, items: seq<TransferItem>)

  /** The product table in primary-key order. */
  predicate IdsAscending(ps: seq<Product>) {
    forall i, j :: 0 <= i < j < |ps| ==> ps[i].id < ps[j].id
  }

  predicate HasProduct(ps: seq<Product>, id: int) {
    exists i :: 0 <= i < |ps| && ps[i].id == id
  }

  /** The `sku` column is unique. */
  predicate UniqueSkus(ps: seq<Product>) {
    forall i, j :: 0 <= i < j < |ps| ==> ps[i].sku != ps[j].sku
  }

  predicate SkuTaken(ps: seq<Product>, sku: string) {
    exists i :: 0 <= i < |ps| && ps[i].sku == sku
  }

  /** A document's lines as the store holds them: ids in creation order, so
      no two lines share an id, and all below the line-id counter. */
  predicate ReceiptLinesOk(items: seq<ReceiptItem>, next: int) {
    && (forall i, j :: 0 <= i < j < |items| ==> items[i].id < items[j].id)
    && (forall i :: 0 <= i < |items| ==> items[i].id < next)
  }

  predicate DeliveryLinesOk(items: seq<DeliveryItem>, next: int) {
    && (forall i, j :: 0 <= i < j < |items| ==> items[i].id < items[j].id)
    && (forall i :: 0 <= i < |items| ==> items[i].id < next)
  }

  predicate TransferLinesOk(items: seq<TransferItem>, next: int) {
    && (forall i, j :: 0 <= i < j < |items| ==> items[i].id < items[j].id)
    && (forall i :: 0 <= i < |items| ==> items[i].id < next)
  }

  predicate ProductsOk(ps: seq<Product>, next: int) {
    && IdsAscending(ps)
    && UniqueSkus(ps)
    && (forall i :: 0 <= i < |ps| ==> ps[i].id < next)
  }

  predicate CategoriesOk(cs: seq<Category>, next: int) {
    forall i :: 0 <= i < |cs| ==> cs[i].id < next
  }

  predicate ReceiptsOk(rs: map<int, Receipt>, next: int, nextItem: int) {
    forall id :: id in rs ==> id < next && rs[id].id == id && ReceiptLinesOk(rs[id].items, nextItem)
  }

  predicate DeliveriesOk(ds: map<int, Delivery>, next: int, nextItem: int) {
    forall id :: id in ds ==> id < next && ds[id].id == id && DeliveryLinesOk(ds[id].items, nextItem)
  }

  predicate TransfersOk(ts: map<int, Transfer>, next: int, nextItem: int) {
    forall id :: id in ts ==> id < next && ts[id].id == id && TransferLinesOk(ts[id].items, nextItem)
  }

  /** Whether some line of some document already has the id `x`. */
  predicate ReceiptLineIdUsed(rs: map<int, Receipt>, x: int) {
    exists id, i :: id in rs && 0 <= i < |rs[id].items| && rs[id].items[i].id == x
  }

  predicate DeliveryLineIdUsed(ds: map<int, Delivery>, x: int) {
    exists id, i :: id in ds && 0 <= i < |ds[id].items| && ds[id].items[i].id == x
  }

  predicate TransferLineIdUsed(ts: map<int, Transfer>, x: int) {
    exists id, i :: id in ts && 0 <= i < |ts[id].items| && ts[id].items[i].id == x
  }

  /** The line-id counter is ahead of every line id in use, so ids from the
      counter on are fresh. */
  lemma ReceiptIdsFresh(rs: map<int, Receipt>, next: int, nextItem: int, x: int)
    requires ReceiptsOk(rs, next, nextItem) && x >= nextItem
    ensures !ReceiptLineIdUsed(rs, x)
  {
  }

  lemma DeliveryIdsFresh(ds: map<int, Delivery>, next: int, nextItem: int, x: int)
    requires DeliveriesOk(ds, next, nextItem) && x >= nextItem
    ensures !DeliveryLineIdUsed(ds, x)
  {
  }

  lemma TransferIdsFresh(ts: map<int, Transfer>, next: int, nextItem: int, x: int)
    requires TransfersOk(ts, next, nextItem) && x >= nextItem
    ensures !TransferLineIdUsed(ts, x)
  {
  }

  /** Storing a new document under the next id, with lines numbered from the
      line counter, keeps the table's invariant with both counters advanced. */
  lemma ReceiptsOkAdd(rs: map<int, Receipt>, next: int, nextItem: int, rc: Receipt, n: nat)
    requires ReceiptsOk(rs, next, nextItem)
    requires rc.id == next && ReceiptLinesOk(rc.items, nextItem + n)
    ensures ReceiptsOk(rs[next := rc], next + 1, nextItem + n)
  {
  }

  lemma DeliveriesOkAdd(ds: map<int, Delivery>, next: int, nextItem: int, d: Delivery, n: nat)
    requires DeliveriesOk(ds, next, nextItem)
    requires d.id == next && DeliveryLinesOk(d.items, nextItem + n)
    ensures DeliveriesOk(ds[next := d], next + 1, nextItem + n)
  {
  }

  lemma TransfersOkAdd(ts: map<int, Transfer>, next: int, nextItem: int, t: Transfer, n: nat)
    requires TransfersOk(ts, next, nextItem)
    requires t.id == next && TransferLinesOk(t.items, nextItem + n)
    ensures TransfersOk(ts[next := t], next + 1, nextItem + n)
  {
  }

  /** Rewriting a stored document, keeping its id and line ids, keeps the
      table's invariant. */
  lemma ReceiptsOkReplace(rs: map<int, Receipt>, next: int, nextItem: int, id: int, rc: Receipt)
    requires ReceiptsOk(rs, next, nextItem) && id in rs
    requires rc.id == id && ReceiptLinesOk(rc.items, nextItem)
    ensures ReceiptsOk(rs[id := rc], next, nextItem)
  {
  }

  lemma TransfersOkReplace(ts: map<int, Transfer>, next: int, nextItem: int, id: int, t: Transfer)
    requires TransfersOk(ts, next, nextItem) && id in ts
    requires t.id == id && TransferLinesOk(t.items, nextItem)
    ensures TransfersOk(ts[id := t], next, nextItem)
  {
  }

  /** Where the row with primary key `id` sits, if there is one. */
  function IndexOf(ps: seq<Product>, id: int): (r: Option<nat>)
    ensures r.Some? ==> r.value < |ps| && ps[r.value].id == id
    ensures r.None? <==> !HasProduct(ps, id)
  {
    FindFirst(ps, (x: Product) => x.id == id)
  }

  /** The store. Ids are handed out by per-table counters, as autoincrement keys are. */
  class Db {
    var warehouses: set<int>
    var categories: seq<Category>
    var nextCategoryId: int
    var products: seq<Product>
    var nextProductId: int
    var stock: Stock
    var receipts: map<int, Receipt>
    var nextReceiptId: int
    var nextReceiptItemId: int
    var deliveries: map<int, Delivery>
    var nextDeliveryId: int
    var nextDeliveryItemId: int
    var transfers: map<int, Transfer>
    var nextTransferId: int
    var nextTransferItemId: int

    /** Stock never goes negative; products stay in id order with distinct
        SKUs; every document is stored under its own id; every counter is
        beyond the ids already used in its table, line tables included. */
    ghost predicate Valid()
      reads this
    {
      && NonNegative(stock)
      && ProductsOk(products, nextProductId)
      && CategoriesOk(categories, nextCategoryId)
      && ReceiptsOk(receipts, nextReceiptId, nextReceiptItemId)
      && DeliveriesOk(deliveries, nextDeliveryId, nextDeliveryItemId)
      && TransfersOk(transfers, nextTransferId, nextTransferItemId)
    }

    /** An empty store over a fixed set of warehouses. */
    constructor (warehouses: set<int>)
      ensures Valid()
      ensures this.warehouses == warehouses
      ensures categories == [] && products == [] && stock == map[]
      ensures receipts == map[] && deliveries == map[] && transfers == map[]
    {
      this.warehouses := warehouses;
      categories, nextCategoryId := [], 1;
      products, nextProductId := [], 1;
      stock := map[];
      receipts, nextReceiptId, nextReceiptItemId := map[], 1, 1;
      deliveries, nextDeliveryId, nextDeliveryItemId := map[], 1, 1;
      transfers, nextTransferId, nextTransferItemId := map[], 1, 1;
    }
  }
}
