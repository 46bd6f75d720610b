/** PUT /api/product/update: an optional category resolve-or-create (which
    writes to the category table), followed by a partial update of one
    product row that takes only the truthy fields of the request. */
module ProductUpdate {
  import opened Common
  import opened Text
  import opened Tables
  import opened Categories

  /** The record update built from conditional spreads: "" stands for a falsy
      string and `None` for an undefined category id. Only the named fields can
      change, and each changes only when a value was supplied. */
  function Merge(p: Product, name: string, sku: string, uom: string, categoryId: Option<int>): (r: Product)
    ensures r == p.(name := r.name, sku := r.sku, uom := r.uom, categoryId := r.categoryId)
    ensures name != "" ==> r.name == name
    ensures name == "" ==> r.name == p.name
    ensures sku != "" ==> r.sku == sku
    ensures sku == "" ==> r.sku == p.sku
    ensures uom != "" ==> r.uom == uom
    ensures uom == "" ==> r.uom == p.uom
    ensures categoryId.Some? ==> r.categoryId == categoryId
    ensures categoryId.None? ==> r.categoryId == p.categoryId
  {
    var p1 := if name != "" then p.(name := name) else p;
    var p2 := if sku != "" then p1.(sku := sku) else p1;
    var p3 := if uom != "" then p2.(uom := uom) else p2;
    if categoryId.Some? then p3.(categoryId := categoryId) else p3
  }

  /** A request that supplies nothing leaves the row as it was. */
  lemma MergeNothing(p: Product)
    ensures Merge(p, "", "", "", None) == p
  {
  }

  /** The category name a request asks for: `None` when the field is absent,
      empty or blank, otherwise the trimmed name. */
  function Requested(category: Option<string>): (r: Option<string>)
    ensures r.Some? <==> category.Some? && !Blank(category.value)
    ensures r.Some? ==> r.value == Trim(category.value) && r.value != ""
  {
    if category.Some? && Trim(category.value) != [] then Some(Trim(category.value)) else None
  }

  predicate SkuTakenByOther(ps: seq<Product>, sku: string, id: int) {
    exists i :: 0 <= i < |ps| && ps[i].sku == sku && ps[i].id != id
  }

  /** Replacing row `j` by a row with the same id and, when it changes, an
      unused SKU keeps the product table in id order with distinct SKUs. */
  lemma ReplaceKeepsTable(ps: seq<Product>, j: nat, p: Product)
    requires IdsAscending(ps) && UniqueSkus(ps)
    requires j < |ps| && p.id == ps[j].id
    requires p.sku == ps[j].sku || !SkuTakenByOther(ps, p.sku, p.id)
    ensures IdsAscending(ps[j := p]) && UniqueSkus(ps[j := p])
    ensures forall i :: 0 <= i < |ps| ==> ps[j := p][i].id == ps[i].id
  {
    var qs := ps[j := p];
    forall a, b | 0 <= a < b < |qs| ensures qs[a].sku != qs[b].sku {
      if a == j {
        assert ps[b].id != p.id;
      } else if b == j {
        assert ps[a].id != p.id;
      }
    }
  }

  /** Write the merged row. The store's unique index on `sku` refuses a SKU
      held by another row, and the update of a missing row throws. */
  method WriteRow(db: Db, id: int, name: string, sku: string, uom: string, categoryId: Option<int>)
      returns (r: Response)
    requires db.Valid()
    modifies db`products
    ensures db.Valid()
    ensures match IndexOf(old(db.products), id)
            case None => r == Response(500, StoreFailure) && db.products == old(db.products)
            case Some(j) =>
              if sku != "" && SkuTakenByOther(old(db.products), sku, id) then
                r == Response(500, StoreFailure) && db.products == old(db.products)
              else
                && r == Response(200, "Product updated successfully")
                && db.products == old(db.products)[j := Merge(old(db.products)[j], name, sku, uom, categoryId)]
  {
    var found := IndexOf(db.products, id);
    if found.None? {
      return Response(500, StoreFailure);
    }
    if sku != "" && SkuTakenByOther(db.products, sku, id) {
      return Response(500, StoreFailure);
    }
    var j := found.value;
    var row := Merge(db.products[j], name, sku, uom, categoryId);
    ReplaceKeepsTable(db.products, j, row);
    db.products := db.products[j := row];
    assert forall i :: 0 <= i < |db.products| ==> db.products[i].id < db.nextProductId;
    r := Response(200, "Product updated successfully");
  }

  /** PUT /api/product/update (product/update/route.js:17-84). Missing
      strings are passed as "". */
  method Update(db: Db, user: Option<User>, id: Option<int>, name: string, sku: string, uom: string, category: Option<string>)
      returns (r: Response)
    requires db.Valid()
    modifies db`categories, db`nextCategoryId, db`products
    ensures db.Valid()
    ensures user.None? ==> r == Unauthorized && unchanged(db)
    ensures user.Some? && !Truthy(id) ==> r == Response(400, "Product ID is required") && unchanged(db)
    ensures user.Some? && Truthy(id) ==>
              var wanted := Requested(category);
              var res := Resolve(old(db.categories), old(db.nextCategoryId), if wanted.Some? then wanted.value else "", Insensitive);
              var categoryId := if wanted.Some? then Some(res.id) else None;
              // a category created here stays even when the row update then fails
              && db.categories == (if wanted.Some? then res.table else old(db.categories))
              && db.nextCategoryId == (if db.categories == old(db.categories) then old(db.nextCategoryId) else old(db.nextCategoryId) + 1)
              && match IndexOf(old(db.products), id.value)
                 case None => r == Response(500, StoreFailure) && db.products == old(db.products)
                 case Some(j) =>
                   if sku != "" && SkuTakenByOther(old(db.products), sku, id.value) then
                     r == Response(500, StoreFailure) && db.products == old(db.products)
                   else
                     && r == Response(200, "Product updated successfully")
                     && db.products == old(db.products)[j := Merge(old(db.products)[j], name, sku, uom, categoryId)]
  {
    if user.None? {
      return Unauthorized;
    }
    if !Truthy(id) {
      return Response(400, "Product ID is required");
    }
    var wanted := Requested(category);
    var categoryId: Option<int> := None;
    if wanted.Some? {
      var c := FindOrCreate(db, wanted.value, Insensitive);
      categoryId := Some(c);
    }
    r := WriteRow(db, id.value, name, sku, uom, categoryId);
  }
}
