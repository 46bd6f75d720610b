/** Deliveries: goods leaving the warehouses named on each line. POST creates
    a draft; PATCH with status "validated" walks the request's lines and
    decrements each line's source stock row after checking it suffices. */
module DeliveryRoute {
  import opened Common
  import opened Ledger
  import opened Tables
  import opened LineLoop

  /** One entry of a POST's `items`: each line names its own source warehouse. */
  datatype NewLine = NewLine(productId: int, quantity: int, warehouseId: int)

  /** One entry of a PATCH's `items`. */
  datatype Line = Line(deliveryItemId: int, deliveredQty: int)

  const Validated := "validated"

  /** `delivery.items.find(di => di.id === id)` */
  function Lookup(items: seq<DeliveryItem>, id: int): Option<nat> {
    FindFirst(items, (it: DeliveryItem) => it.id == id)
  }

  function ItemNotFound(id: int): Response {
    Response(404, "Delivery item " + IntToString(id) + " not found")
  }

  function InvalidQuantity(id: int): Response {
    Response(400, "Invalid delivered quantity for item " + IntToString(id))
  }

  function InsufficientStock(product: int): Response {
    Response(400, "Insufficient stock for product " + IntToString(product))
  }

  /** The stock row a line draws from. */
  function Source(d: Delivery, j: nat): Key
    requires j < |d.items|
  {
    Key(d.items[j].productId, d.items[j].warehouseId)
  }

  /** One iteration of the loop at delivery/route.js:163-209; `d` is the
      delivery as loaded before the loop. Only the stock table is written. */
  function Step(d: Delivery, s: Stock, line: Line): (o: StepResult<Stock>)
    ensures o.Commit? <==> LineOk(d, line) && Covered(d, s, line)
    ensures o.Reject? && Lookup(d.items, line.deliveryItemId).None? ==> o.error == ItemNotFound(line.deliveryItemId)
    ensures o.Reject? && Lookup(d.items, line.deliveryItemId).Some? && !LineOk(d, line) ==>
              o.error == InvalidQuantity(line.deliveryItemId)
    ensures o.Reject? && LineOk(d, line) ==>
              o.error == InsufficientStock(d.items[Lookup(d.items, line.deliveryItemId).value].productId)
    ensures o.Commit? ==> forall k :: Qty(o.state, k) == Qty(s, k) - Taken(d, line, k)
  {
    match Lookup(d.items, line.deliveryItemId)
    case None => Reject(ItemNotFound(line.deliveryItemId))
    case Some(j) =>
      var q := line.deliveredQty;
      if q < 0 || q > d.items[j].quantity then Reject(InvalidQuantity(line.deliveryItemId))
      else if q > 0 then
        var k := Source(d, j);
        if k !in s || s[k] < q then Reject(InsufficientStock(d.items[j].productId))
        else Commit(Decrement(s, k, q))
      else Commit(s)
  }

  function StepOf(d: Delivery): (Stock, Line) -> StepResult<Stock> {
    (s: Stock, l: Line) => Step(d, s, l)
  }

  /** The validation loop. A run that stops at line `at` leaves the stock of
      the lines before it, and stops because line `at` is rejected. */
  function Validate(d: Delivery, s0: Stock, lines: seq<Line>): (o: RunResult<Stock>)
    ensures o.Aborted? ==> o.at < |lines|
    ensures o.Aborted? ==> RunLines(StepOf(d), s0, lines[..o.at]) == Finished(o.state)
    ensures o.Aborted? ==> Step(d, o.state, lines[o.at]) == Reject(o.error)
  {
    var o := RunLines(StepOf(d), s0, lines);
    if o.Aborted? then AbortedAt(StepOf(d), s0, lines); o else o
  }

  /** A line whose item exists and whose quantity lies in [0, requested]. */
  predicate LineOk(d: Delivery, line: Line) {
    match Lookup(d.items, line.deliveryItemId)
    case None => false
    case Some(j) => 0 <= line.deliveredQty <= d.items[j].quantity
  }

  /** A positive quantity needs a source row holding at least that much; an
      absent row holds nothing. */
  predicate Covered(d: Delivery, s: Stock, line: Line) {
    match Lookup(d.items, line.deliveryItemId)
    case None => true
    case Some(j) => line.deliveredQty > 0 ==> line.deliveredQty <= Qty(s, Source(d, j))
  }

  // ----- properties of validation -----

  /** A line asking for more than its source row holds is rejected, whatever
      else is true of it, and an absent row holds nothing. */
  lemma OverdrawRejected(d: Delivery, s: Stock, line: Line)
    requires Lookup(d.items, line.deliveryItemId).Some? && line.deliveredQty > 0
    requires line.deliveredQty > Qty(s, Source(d, Lookup(d.items, line.deliveryItemId).value))
    ensures Step(d, s, line).Reject?
    ensures Step(d, s, line).error.status == 400
  {
  }

  /** Every committed line leaves the stock non-negative. */
  lemma StepKeepsNonNegative(d: Delivery, s: Stock, line: Line)
    requires NonNegative(s) && Step(d, s, line).Commit?
    ensures NonNegative(Step(d, s, line).state)
  {
    match Lookup(d.items, line.deliveryItemId)
    case None =>
    case Some(j) =>
      if line.deliveredQty > 0 {
        var k := Source(d, j);
        assert Step(d, s, line).state == Decrement(s, k, line.deliveredQty);
      }
  }

  /** Stock never goes negative: whatever the lines, the loop leaves every
      row non-negative when it started so, also when it stops early. */
  lemma ValidateKeepsNonNegative(d: Delivery, s0: Stock, lines: seq<Line>)
    requires NonNegative(s0)
    ensures NonNegative(Validate(d, s0, lines).state)
  {
    var inv := (s: Stock) => NonNegative(s);
    forall s, l | inv(s) && StepOf(d)(s, l).Commit? ensures inv(StepOf(d)(s, l).state) {
      assert StepOf(d)(s, l) == Step(d, s, l);
      StepKeepsNonNegative(d, s, l);
    }
    Preserved(StepOf(d), inv, s0, lines);
  }

  /** What one line takes from stock row `k`, when accepted. */
  function Taken(d: Delivery, line: Line, k: Key): int {
    match Lookup(d.items, line.deliveryItemId)
    case None => 0
    case Some(j) => if Source(d, j) == k then line.deliveredQty else 0
  }

  function Delivered(d: Delivery, lines: seq<Line>, k: Key): int
    decreases |lines|
  {
    if |lines| == 0 then 0
    else Delivered(d, lines[..|lines| - 1], k) + Taken(d, lines[|lines| - 1], k)
  }

  /** When validation runs to the end, every line named an item with a
      quantity in [0, requested], and every stock row has lost exactly the
      quantities delivered from it. */
  lemma {:induction false} ValidateEffect(d: Delivery, s0: Stock, lines: seq<Line>)
    requires Validate(d, s0, lines).Finished?
    ensures forall i :: 0 <= i < |lines| ==> LineOk(d, lines[i])
    ensures forall k :: Qty(Validate(d, s0, lines).state, k) == Qty(s0, k) - Delivered(d, lines, k)
    decreases |lines|
  {
    if |lines| > 0 {
      var n := |lines| - 1;
      var init := lines[..n];
      var prev := Validate(d, s0, init);
      assert prev.Finished?;
      ValidateEffect(d, s0, init);
      var s := prev.state;
      assert Step(d, s, lines[n]).Commit?;
      match Lookup(d.items, lines[n].deliveryItemId)
      case Some(j) =>
        var q := lines[n].deliveredQty;
        forall k ensures Qty(Step(d, s, lines[n]).state, k) == Qty(s, k) - Taken(d, lines[n], k) {
          if q > 0 && k == Source(d, j) {
            assert Step(d, s, lines[n]).state == Decrement(s, k, q);
          }
        }
      assert forall i :: 0 <= i < n ==> init[i] == lines[i];
    }
  }

  // ----- the handlers -----

  /** The lines a POST creates: consecutive ids from `first` in request
      order, each with its own warehouse, nothing delivered yet. */
  function Lines(first: int, items: seq<NewLine>): (r: seq<DeliveryItem>)
    ensures |r| == |items|
    ensures forall j :: 0 <= j < |items| ==>
              r[j] == DeliveryItem(first + j, items[j].productId, items[j].warehouseId, items[j].quantity, 0)
    ensures DeliveryLinesOk(r, first + |items|)
    ensures forall j :: 0 <= j < |r| ==> first <= r[j].id
  {
    seq(|items|, j requires 0 <= j < |items| =>
      DeliveryItem(first + j, items[j].productId, items[j].warehouseId, items[j].quantity, 0))
  }

  /** POST /api/delivery (delivery/route.js:63-119). `deliveryDate` is read
      from the body and never stored. */
  method Post(db: Db, user: Option<User>, customer: string, deliveryDate: string, items: seq<NewLine>)
      returns (r: Response)
    requires db.Valid()
    modifies db`deliveries, db`nextDeliveryId, db`nextDeliveryItemId
    ensures db.Valid()
    ensures user.None? ==> r == Unauthorized && unchanged(db)
    ensures user.Some? && (customer == "" || |items| == 0) ==>
              r == Response(400, "Customer and items are required") && unchanged(db)
    ensures user.Some? && customer != "" && |items| > 0 ==>
              if exists i :: 0 <= i < |items| && !(HasProduct(db.products, items[i].productId) && items[i].warehouseId in db.warehouses) then
                r == Response(500, StoreFailure) && unchanged(db)
              else
                var id := old(db.nextDeliveryId);
                var lines := Lines(old(db.nextDeliveryItemId), items);
                && r == Response(201, "Delivery created successfully")
                && id !in old(db.deliveries)
                && db.deliveries == old(db.deliveries)[id := Delivery(id, customer, "draft", lines)]
                && db.nextDeliveryId == id + 1
                && db.nextDeliveryItemId == old(db.nextDeliveryItemId) + |items|
                // no existing line of any delivery has one of the new line ids
                && (forall j :: 0 <= j < |lines| ==> !DeliveryLineIdUsed(old(db.deliveries), lines[j].id))
  {
    if user.None? {
      return Unauthorized;
    }
    if customer == "" || |items| == 0 {
      return Response(400, "Customer and items are required");
    }
    // The nested create is one statement: a line naming a missing product or
    // warehouse violates a foreign key and nothing is created.
    if exists i :: 0 <= i < |items| && !(HasProduct(db.products, items[i].productId) && items[i].warehouseId in db.warehouses) {
      return Response(500, StoreFailure);
    }
    Create(db, customer, items);
    r := Response(201, "Delivery created successfully");
  }

  /** The nested `delivery.create`: the header under the next id, and its
      lines under the next line ids. */
  method Create(db: Db, customer: string, items: seq<NewLine>)
    requires db.Valid()
    modifies db`deliveries, db`nextDeliveryId, db`nextDeliveryItemId
    ensures db.Valid()
    ensures var id := old(db.nextDeliveryId);
            var lines := Lines(old(db.nextDeliveryItemId), items);
            && id !in old(db.deliveries)
            && db.deliveries == old(db.deliveries)[id := Delivery(id, customer, "draft", lines)]
            && db.nextDeliveryId == id + 1
            && db.nextDeliveryItemId == old(db.nextDeliveryItemId) + |items|
            && (forall j :: 0 <= j < |lines| ==> !DeliveryLineIdUsed(old(db.deliveries), lines[j].id))
  {
    var id, firstItem := db.nextDeliveryId, db.nextDeliveryItemId;
    var lines := Lines(firstItem, items);
    forall j | 0 <= j < |lines| ensures !DeliveryLineIdUsed(db.deliveries, lines[j].id) {
      DeliveryIdsFresh(db.deliveries, id, firstItem, lines[j].id);
    }
    DeliveriesOkAdd(db.deliveries, id, firstItem, Delivery(id, customer, "draft", lines), |items|);
    db.deliveries := db.deliveries[id := Delivery(id, customer, "draft", lines)];
    db.nextDeliveryId := id + 1;
    db.nextDeliveryItemId := firstItem + |items|;
  }

  /** One iteration of the loop at delivery/route.js:164-208: look the line up,
      check its quantity, then read the source row and decrement it if it
      holds enough. Nothing is written to the delivery line. */
  method ApplyLine(db: Db, delivery: Delivery, item: Line) returns (failure: Option<Response>)
    requires NonNegative(db.stock)
    modifies db`stock
    ensures NonNegative(db.stock)
    ensures match Step(delivery, old(db.stock), item)
            case Commit(s) => failure.None? && db.stock == s
            case Reject(e) => failure == Some(e) && db.stock == old(db.stock)
  {
    var found := Lookup(delivery.items, item.deliveryItemId);
    if found.None? {
      return Some(ItemNotFound(item.deliveryItemId));
    }
    var line := delivery.items[found.value];
    var q := item.deliveredQty;
    if q < 0 || q > line.quantity {
      return Some(InvalidQuantity(item.deliveryItemId));
    }
    if q > 0 {
      var k := Key(line.productId, line.warehouseId);
      if k !in db.stock || db.stock[k] < q {
        return Some(InsufficientStock(line.productId));
      }
      db.stock := Decrement(db.stock, k, q);
    }
    failure := None;
  }

  /** The loop at delivery/route.js:163-209. */
  method ValidateLines(db: Db, delivery: Delivery, items: seq<Line>) returns (failure: Option<Response>)
    requires NonNegative(db.stock)
    modifies db`stock
    ensures NonNegative(db.stock)
    ensures var o := Validate(delivery, old(db.stock), items);
            && db.stock == o.state
            && (o.Finished? <==> failure.None?)
            && (o.Aborted? ==> failure == Some(o.error))
  {
    ghost var s0 := db.stock;
    failure := None;
    var i := 0;
    while i < |items|
      invariant 0 <= i <= |items|
      invariant Validate(delivery, s0, items[..i]) == Finished(db.stock)
      invariant NonNegative(db.stock)
      invariant failure.None?
    {
      Extend(StepOf(delivery), s0, items, i);
      assert StepOf(delivery)(db.stock, items[i]) == Step(delivery, db.stock, items[i]);
      failure := ApplyLine(db, delivery, items[i]);
      if failure.Some? {
        AbortIsFinal(StepOf(delivery), s0, items, i + 1);
        return;
      }
      i := i + 1;
    }
    assert items[..i] == items;
  }

  /** PATCH /api/delivery (delivery/route.js:121-239). */
  method Patch(db: Db, user: Option<User>, deliveryId: Option<int>, status: Option<string>, items: seq<Line>)
      returns (r: Response)
    requires db.Valid()
    modifies db`stock, db`deliveries
    ensures db.Valid()
    ensures user.None? ==> r == Unauthorized && unchanged(db)
    ensures user.Some? && !Truthy(deliveryId) ==> r == Response(400, "Delivery ID is required") && unchanged(db)
    ensures user.Some? && Truthy(deliveryId) && deliveryId.value !in old(db.deliveries) ==>
              r == Response(404, "Delivery not found") && unchanged(db)
    ensures user.Some? && Truthy(deliveryId) && deliveryId.value in old(db.deliveries) ==>
              var id := deliveryId.value;
              var d := old(db.deliveries[id]);
              if status != Some(Validated) then
                && r == Response(200, "Delivery updated successfully")
                && db.stock == old(db.stock)
                && db.deliveries == old(db.deliveries)[id := d.(status := StatusOrDraft(status))]
              else if |items| == 0 then
                r == Response(400, "Items with quantities are required for validation") && unchanged(db)
              else
                var o := Validate(d, old(db.stock), items);
                // the delivery's lines are never written: no `deliveredQty` is recorded
                && db.stock == o.state
                && (o.Finished? ==>
                      && r == Response(200, "Delivery updated successfully")
                      && db.deliveries == old(db.deliveries)[id := d.(status := Validated)])
                && (o.Aborted? ==> r == o.error && db.deliveries == old(db.deliveries))
  {
    if user.None? {
      return Unauthorized;
    }
    if !Truthy(deliveryId) {
      return Response(400, "Delivery ID is required");
    }
    var id := deliveryId.value;
    if id !in db.deliveries {
      return Response(404, "Delivery not found");
    }
    var delivery := db.deliveries[id];
    if status == Some(Validated) {
      if |items| == 0 {
        return Response(400, "Items with quantities are required for validation");
      }
      var failure := ValidateLines(db, delivery, items);
      if failure.Some? {
        return failure.value;
      }
    }
    db.deliveries := db.deliveries[id := db.deliveries[id].(status := StatusOrDraft(status))];
    r := Response(200, "Delivery updated successfully");
  }
}
