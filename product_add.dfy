/** POST /api/product/add: create a product, resolving its category by name
    (creating the category when none matches) and optionally setting an
    opening stock row. The steps write to the store one after another. */
module ProductAdd {
  import opened Common
  import opened Text
  import opened Ledger
  import opened Tables
  import opened Categories

  const DefaultCategory := "Uncategorized"

  /** The category a request asks for and how it is matched: a non-blank name,
      trimmed and compared case-insensitively, or else the default category
      compared exactly. */
  function Wanted(category: Option<string>): (r: (string, Mode))
    ensures r.0 != ""
    ensures r.1 == Insensitive <==> category.Some? && !Blank(category.value)
    ensures r.1 == Insensitive ==> r.0 == Trim(category.value)
    ensures r.1 == Exact ==> r.0 == DefaultCategory
  {
    if category.Some? && Trim(category.value) != [] then (Trim(category.value), Insensitive)
    else (DefaultCategory, Exact)
  }

  /** Whether the request sets an opening stock row: the guard
      `quantity && quantity > 0 && warehouseId`, where a zero quantity or
      warehouse id is falsy. */
  predicate OpensStock(quantity: Option<int>, warehouseId: Option<int>)
  {
    quantity.Some? && quantity.value > 0 && Truthy(warehouseId)
  }

  /** Appending a row with a fresh id and an unused SKU keeps the product
      table in id order with distinct SKUs. */
  lemma AppendKeepsTable(ps: seq<Product>, p: Product)
    requires IdsAscending(ps) && UniqueSkus(ps)
    requires forall i :: 0 <= i < |ps| ==> ps[i].id < p.id
    requires !SkuTaken(ps, p.sku)
    ensures IdsAscending(ps + [p]) && UniqueSkus(ps + [p])
    ensures forall i :: 0 <= i < |ps + [p]| ==> (ps + [p])[i].id < p.id + 1
    ensures !HasProduct(ps, p.id)
  {
    var qs := ps + [p];
    forall i, j | 0 <= i < j < |qs| ensures qs[i].id < qs[j].id && qs[i].sku != qs[j].sku {
      if j == |ps| {
        assert qs[i] == ps[i];
      }
    }
  }

  /** Resolve the category, then create the product row pointing at it. */
  method CreateProduct(db: Db, name: string, sku: string, uom: string, category: Option<string>)
      returns (pid: int, categoryId: int)
    requires db.Valid() && !SkuTaken(db.products, sku)
    modifies db`categories, db`nextCategoryId, db`products, db`nextProductId
    ensures db.Valid()
    ensures Resolution(categoryId, db.categories) == Resolve(old(db.categories), old(db.nextCategoryId), Wanted(category).0, Wanted(category).1)
    ensures db.nextCategoryId == if db.categories == old(db.categories) then old(db.nextCategoryId) else old(db.nextCategoryId) + 1
    ensures pid == old(db.nextProductId) && !HasProduct(old(db.products), pid)
    ensures db.products == old(db.products) + [Product(pid, name, sku, uom, Some(categoryId))]
    ensures db.nextProductId == pid + 1
  {
    var wanted := Wanted(category);
    categoryId := FindOrCreate(db, wanted.0, wanted.1);
    pid := db.nextProductId;
    var row := Product(pid, name, sku, uom, Some(categoryId));
    AppendKeepsTable(db.products, row);
    db.products, db.nextProductId := db.products + [row], pid + 1;
    assert IdsAscending(db.products) && UniqueSkus(db.products);
    assert forall i :: 0 <= i < |db.products| ==> db.products[i].id < db.nextProductId;
  }

  /** POST /api/product/add (product/add/route.js:17-125). Missing strings are
      passed as "". */
  method Add(db: Db, user: Option<User>, name: string, sku: string, uom: string,
             category: Option<string>, quantity: Option<int>, warehouseId: Option<int>)
      returns (r: Response)
    requires db.Valid()
    modifies db`categories, db`nextCategoryId, db`products, db`nextProductId, db`stock
    ensures db.Valid()
    ensures user.None? ==> r == Unauthorized && unchanged(db)
    ensures user.Some? && (name == "" || sku == "" || uom == "") ==>
              r == Response(400, "Name, SKU, and Unit of Measure are required") && unchanged(db)
    ensures user.Some? && name != "" && sku != "" && uom != "" && SkuTaken(old(db.products), sku) ==>
              r == Response(400, "SKU already exists") && unchanged(db)
    ensures user.Some? && name != "" && sku != "" && uom != "" && !SkuTaken(old(db.products), sku) ==>
              var res := Resolve(old(db.categories), old(db.nextCategoryId), Wanted(category).0, Wanted(category).1);
              var pid := old(db.nextProductId);
              && db.categories == res.table
              && db.nextCategoryId == (if db.categories == old(db.categories) then old(db.nextCategoryId) else old(db.nextCategoryId) + 1)
              && !HasProduct(old(db.products), pid)
              && db.products == old(db.products) + [Product(pid, name, sku, uom, Some(res.id))]
              && db.nextProductId == pid + 1
              && if !OpensStock(quantity, warehouseId) then
                   r == Response(201, "Product created successfully") && db.stock == old(db.stock)
                 else if warehouseId.value !in db.warehouses then
                   // the stock row's foreign key fails after the product was created
                   r == Response(500, StoreFailure) && db.stock == old(db.stock)
                 else
                   // set, not incremented
                   && r == Response(201, "Product created successfully")
                   && db.stock == old(db.stock)[Key(pid, warehouseId.value) := quantity.value]
  {
    if user.None? {
      return Unauthorized;
    }
    if name == "" || sku == "" || uom == "" {
      return Response(400, "Name, SKU, and Unit of Measure are required");
    }
    if SkuTaken(db.products, sku) {
      return Response(400, "SKU already exists");
    }
    var pid, _ := CreateProduct(db, name, sku, uom, category);
    if OpensStock(quantity, warehouseId) {
      if warehouseId.value !in db.warehouses {
        return Response(500, StoreFailure);
      }
      db.stock := db.stock[Key(pid, warehouseId.value) := quantity.value];
    }
    r := Response(201, "Product created successfully");
  }
}
