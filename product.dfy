/** GET /api/product (all products, newest id first) and DELETE
    /api/product?id=… (a transaction that removes the product's stock rows,
    its receipt, delivery and transfer lines, and then the product row). */
module ProductRoute {
  import opened Common
  import opened Ledger
  import opened Tables

  function Reverse<T>(s: seq<T>): (r: seq<T>)
    ensures |r| == |s|
    ensures forall i :: 0 <= i < |s| ==> r[i] == s[|s| - 1 - i]
    ensures multiset(r) == multiset(s)
  {
    if |s| == 0 then []
    else
      assert s == [s[0]] + s[1..];
      Reverse(s[1..]) + [s[0]]
  }

  /** A query's answer: the response and the rows it carries. */
  datatype Listing = Listing(response: Response, products: seq<Product>)

  /** GET /api/product (product/route.js:17-48): `orderBy: { id: "desc" }`.
      The table is kept in ascending id order, so the answer is its reverse. */
  function Get(user: Option<User>, products: seq<Product>): (r: Listing)
    requires IdsAscending(products)
    ensures user.None? ==> r == Listing(Unauthorized, [])
    ensures user.Some? ==> r.response == Response(200, "Products fetched successfully")
    ensures user.Some? ==> multiset(r.products) == multiset(products)
    ensures forall i, j :: 0 <= i < j < |r.products| ==> r.products[i].id > r.products[j].id
  {
    if user.None? then Listing(Unauthorized, [])
    else Listing(Response(200, "Products fetched successfully"), Reverse(products))
  }

  // ----- the cascade, one `deleteMany` per table -----

  function StockWithout(m: Stock, p: int): (r: Stock)
    ensures forall k :: k in r <==> k in m && k.product != p
    ensures forall k :: k in r ==> r[k] == m[k]
  {
    map k | k in m && k.product != p :: m[k]
  }

  function ReceiptsWithout(rs: map<int, Receipt>, p: int): (r: map<int, Receipt>)
    ensures r.Keys == rs.Keys
  {
    map id | id in rs :: rs[id].(items := Filter(rs[id].items, (x: ReceiptItem) => x.productId != p))
  }

  function DeliveriesWithout(ds: map<int, Delivery>, p: int): (r: map<int, Delivery>)
    ensures r.Keys == ds.Keys
  {
    map id | id in ds :: ds[id].(items := Filter(ds[id].items, (x: DeliveryItem) => x.productId != p))
  }

  function TransfersWithout(ts: map<int, Transfer>, p: int): (r: map<int, Transfer>)
    ensures r.Keys == ts.Keys
  {
    map id | id in ts :: ts[id].(items := Filter(ts[id].items, (x: TransferItem) => x.productId != p))
  }

  /** After the cascade every receipt keeps its header and exactly its lines
      for other products; no line names the deleted product. */
  lemma ReceiptsWithoutFacts(rs: map<int, Receipt>, p: int, id: int)
    requires id in rs
    ensures var r := ReceiptsWithout(rs, p);
            && r[id] == rs[id].(items := r[id].items)
            && (forall x :: x in r[id].items <==> x in rs[id].items && x.productId != p)
  {
  }

  lemma DeliveriesWithoutFacts(ds: map<int, Delivery>, p: int, id: int)
    requires id in ds
    ensures var r := DeliveriesWithout(ds, p);
            && r[id] == ds[id].(items := r[id].items)
            && (forall x :: x in r[id].items <==> x in ds[id].items && x.productId != p)
  {
  }

  lemma TransfersWithoutFacts(ts: map<int, Transfer>, p: int, id: int)
    requires id in ts
    ensures var r := TransfersWithout(ts, p);
            && r[id] == ts[id].(items := r[id].items)
            && (forall x :: x in r[id].items <==> x in ts[id].items && x.productId != p)
  {
  }

  /** The cascade keeps every document under its own id, with its remaining
      lines still in id order below the line counter. */
  lemma ReceiptsWithoutKeepsLines(rs: map<int, Receipt>, p: int, next: int)
    requires forall id :: id in rs ==> rs[id].id == id && ReceiptLinesOk(rs[id].items, next)
    ensures var r := ReceiptsWithout(rs, p);
            forall id :: id in r ==> r[id].id == id && ReceiptLinesOk(r[id].items, next)
  {
    forall id | id in rs ensures ReceiptLinesOk(ReceiptsWithout(rs, p)[id].items, next) {
      var kept := Filter(rs[id].items, (x: ReceiptItem) => x.productId != p);
      assert ReceiptsWithout(rs, p)[id].items == kept;
      FilterKeepsIncreasing(rs[id].items, (x: ReceiptItem) => x.productId != p, (x: ReceiptItem) => x.id);
      forall i | 0 <= i < |kept| ensures kept[i].id < next {
        assert kept[i] in rs[id].items;
      }
    }
  }

  lemma DeliveriesWithoutKeepsLines(ds: map<int, Delivery>, p: int, next: int)
    requires forall id :: id in ds ==> ds[id].id == id && DeliveryLinesOk(ds[id].items, next)
    ensures var r := DeliveriesWithout(ds, p);
            forall id :: id in r ==> r[id].id == id && DeliveryLinesOk(r[id].items, next)
  {
    forall id | id in ds ensures DeliveryLinesOk(DeliveriesWithout(ds, p)[id].items, next) {
      var kept := Filter(ds[id].items, (x: DeliveryItem) => x.productId != p);
      assert DeliveriesWithout(ds, p)[id].items == kept;
      FilterKeepsIncreasing(ds[id].items, (x: DeliveryItem) => x.productId != p, (x: DeliveryItem) => x.id);
      forall i | 0 <= i < |kept| ensures kept[i].id < next {
        assert kept[i] in ds[id].items;
      }
    }
  }

  lemma TransfersWithoutKeepsLines(ts: map<int, Transfer>, p: int, next: int)
    requires forall id :: id in ts ==> ts[id].id == id && TransferLinesOk(ts[id].items, next)
    ensures var r := TransfersWithout(ts, p);
            forall id :: id in r ==> r[id].id == id && TransferLinesOk(r[id].items, next)
  {
    forall id | id in ts ensures TransferLinesOk(TransfersWithout(ts, p)[id].items, next) {
      var kept := Filter(ts[id].items, (x: TransferItem) => x.productId != p);
      assert TransfersWithout(ts, p)[id].items == kept;
      FilterKeepsIncreasing(ts[id].items, (x: TransferItem) => x.productId != p, (x: TransferItem) => x.id);
      forall i | 0 <= i < |kept| ensures kept[i].id < next {
        assert kept[i] in ts[id].items;
      }
    }
  }

  /** `product.delete({ where: { id } })`: the one row with that key goes. */
  function ProductsWithout(ps: seq<Product>, id: int): (r: seq<Product>)
    ensures HasProduct(ps, id) ==> |r| == |ps| - 1
    ensures HasProduct(ps, id) ==> forall i :: 0 <= i < |r| ==> r[i] == ps[if i < IndexOf(ps, id).value then i else i + 1]
    ensures !HasProduct(ps, id) ==> r == ps
  {
    match IndexOf(ps, id)
    case None => ps
    case Some(j) => ps[..j] + ps[j + 1..]
  }

  /** Removing a row keeps the table in id order with distinct SKUs. */
  lemma ProductsWithoutKeepsTable(ps: seq<Product>, id: int, bound: int)
    requires IdsAscending(ps) && UniqueSkus(ps)
    requires forall i :: 0 <= i < |ps| ==> ps[i].id < bound
    ensures IdsAscending(ProductsWithout(ps, id)) && UniqueSkus(ProductsWithout(ps, id))
    ensures forall i :: 0 <= i < |ProductsWithout(ps, id)| ==> ProductsWithout(ps, id)[i].id < bound
  {
  }

  /** With ids ascending the key is unique, so exactly the rows with other ids
      remain and none with the deleted id. */
  lemma ProductsWithoutFacts(ps: seq<Product>, id: int)
    requires IdsAscending(ps)
    ensures var r := ProductsWithout(ps, id);
            && !HasProduct(r, id)
            && (forall x :: x in r <==> x in ps && x.id != id)
  {
    var r := ProductsWithout(ps, id);
    if HasProduct(ps, id) {
      var j := IndexOf(ps, id).value;
      forall x | x in ps && x.id != id ensures x in r {
        var k :| 0 <= k < |ps| && ps[k] == x;
        assert k != j;
        assert r[if k < j then k else k - 1] == x;
      }
    }
  }

  /** Deleting a product leaves the total of every other product over any
      list of warehouses unchanged, and its own total at 0. */
  lemma DeleteKeepsOtherTotals(m: Stock, p: int, p': int, ws: seq<int>)
    ensures p' != p ==> Total(StockWithout(m, p), p', ws) == Total(m, p', ws)
    ensures Total(StockWithout(m, p), p, ws) == 0
  {
    var m' := StockWithout(m, p);
    if p' != p {
      forall w | w in ws ensures Qty(m', Key(p', w)) == Qty(m, Key(p', w)) {
      }
      TotalAgrees(m', m, p', ws);
    }
    TotalOfAbsent(m', p, ws);
  }

  // ----- the five statements of the transaction, in order -----

  method DeleteStock(db: Db, p: int)
    requires db.Valid()
    modifies db`stock
    ensures db.Valid()
    ensures db.stock == StockWithout(old(db.stock), p)
  {
    var stock := StockWithout(db.stock, p);
    assert NonNegative(stock);
    db.stock := stock;
  }

  method DeleteReceiptItems(db: Db, p: int)
    requires db.Valid()
    modifies db`receipts
    ensures db.Valid()
    ensures db.receipts == ReceiptsWithout(old(db.receipts), p)
  {
    ReceiptsWithoutKeepsLines(db.receipts, p, db.nextReceiptItemId);
    db.receipts := ReceiptsWithout(db.receipts, p);
  }

  method DeleteDeliveryItems(db: Db, p: int)
    requires db.Valid()
    modifies db`deliveries
    ensures db.Valid()
    ensures db.deliveries == DeliveriesWithout(old(db.deliveries), p)
  {
    DeliveriesWithoutKeepsLines(db.deliveries, p, db.nextDeliveryItemId);
    db.deliveries := DeliveriesWithout(db.deliveries, p);
  }

  method DeleteTransferItems(db: Db, p: int)
    requires db.Valid()
    modifies db`transfers
    ensures db.Valid()
    ensures db.transfers == TransfersWithout(old(db.transfers), p)
  {
    TransfersWithoutKeepsLines(db.transfers, p, db.nextTransferItemId);
    db.transfers := TransfersWithout(db.transfers, p);
  }

  method DeleteProductRow(db: Db, p: int)
    requires db.Valid()
    modifies db`products
    ensures db.Valid()
    ensures db.products == ProductsWithout(old(db.products), p)
  {
    ProductsWithoutKeepsTable(db.products, p, db.nextProductId);
    db.products := ProductsWithout(db.products, p);
  }

  /** The three `deleteMany` statements on the document line tables. */
  method DeleteLines(db: Db, p: int)
    requires db.Valid()
    modifies db`receipts, db`deliveries, db`transfers
    ensures db.Valid()
    ensures db.receipts == ReceiptsWithout(old(db.receipts), p)
    ensures db.deliveries == DeliveriesWithout(old(db.deliveries), p)
    ensures db.transfers == TransfersWithout(old(db.transfers), p)
  {
    DeleteReceiptItems(db, p);
    DeleteDeliveryItems(db, p);
    DeleteTransferItems(db, p);
  }

  /** The body of the transaction, for a product that exists. */
  method Cascade(db: Db, p: int)
    requires db.Valid()
    modifies db`stock, db`receipts, db`deliveries, db`transfers, db`products
    ensures db.Valid()
    ensures db.stock == StockWithout(old(db.stock), p)
    ensures db.receipts == ReceiptsWithout(old(db.receipts), p)
    ensures db.deliveries == DeliveriesWithout(old(db.deliveries), p)
    ensures db.transfers == TransfersWithout(old(db.transfers), p)
    ensures db.products == ProductsWithout(old(db.products), p)
  {
    DeleteStock(db, p);
    DeleteLines(db, p);
    DeleteProductRow(db, p);
  }

  /** DELETE /api/product (product/route.js:50-101). `id` is the query
      parameter; only its presence is checked before the transaction. */
  method Delete(db: Db, user: Option<User>, id: Option<int>) returns (r: Response)
    requires db.Valid()
    modifies db`stock, db`receipts, db`deliveries, db`transfers, db`products
    ensures db.Valid()
    ensures user.None? ==> r == Unauthorized && unchanged(db)
    ensures user.Some? && id.None? ==> r == Response(400, "Product ID is required") && unchanged(db)
    // the final `delete` of a missing row throws and the transaction rolls every deletion back
    ensures user.Some? && id.Some? && !HasProduct(old(db.products), id.value) ==>
              r == Response(500, StoreFailure) && unchanged(db)
    ensures user.Some? && id.Some? && HasProduct(old(db.products), id.value) ==>
              && r == Response(200, "Product deleted successfully")
              && db.stock == StockWithout(old(db.stock), id.value)
              && db.receipts == ReceiptsWithout(old(db.receipts), id.value)
              && db.deliveries == DeliveriesWithout(old(db.deliveries), id.value)
              && db.transfers == TransfersWithout(old(db.transfers), id.value)
              && db.products == ProductsWithout(old(db.products), id.value)
  {
    if user.None? {
      return Unauthorized;
    }
    if id.None? {
      return Response(400, "Product ID is required");
    }
    if !HasProduct(db.products, id.value) {
      return Response(500, StoreFailure);
    }
    Cascade(db, id.value);
    r := Response(200, "Product deleted successfully");
  }
}
