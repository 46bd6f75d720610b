/** Receipts: goods arriving at one warehouse. POST creates a draft; PATCH
    with status "validated" walks the request's lines, writing each line's
    received quantity and adding it to the destination stock row. */
module ReceiptRoute {
  import opened Common
  import opened Ledger
  import opened Tables
  import opened LineLoop

  /** One entry of a POST's `items`. */
  datatype NewLine = NewLine(productId: int, quantity: int)

  /** One entry of a PATCH's `items`. */
  datatype Line = Line(receiptItemId: int, receivedQty: int)

  /** What the validation loop writes: the stock table and the receipt's lines. */
  datatype State = State(stock: Stock, items: seq<ReceiptItem>)

  const Validated := "validated"

  /** `receipt.items.find(ri => ri.id === id)` */
  function Lookup(items: seq<ReceiptItem>, id: int): Option<nat> {
    FindFirst(items, (it: ReceiptItem) => it.id == id)
  }

  /** `receiptItem.update({ where: { id }, data: { receivedQty } })` */
  function SetReceived(items: seq<ReceiptItem>, id: int, q: int): (r: seq<ReceiptItem>)
    ensures SameLines(r, items)
    ensures forall j :: 0 <= j < |r| ==> r[j].receivedQty == if items[j].id == id then q else items[j].receivedQty
  {
    seq(|items|, j requires 0 <= j < |items| => if items[j].id == id then items[j].(receivedQty := q) else items[j])
  }

  /** Two line lists that agree on everything but the received quantities. */
  predicate SameLines(a: seq<ReceiptItem>, b: seq<ReceiptItem>) {
    |a| == |b| &&
    forall j :: 0 <= j < |a| ==> a[j].id == b[j].id && a[j].productId == b[j].productId && a[j].quantity == b[j].quantity
  }

  lemma LookupSameLines(a: seq<ReceiptItem>, b: seq<ReceiptItem>, id: int)
    requires SameLines(a, b)
    ensures Lookup(a, id) == Lookup(b, id)
  {
    FindFirstAgrees(a, (it: ReceiptItem) => it.id == id, b, (it: ReceiptItem) => it.id == id);
  }

  function ItemNotFound(id: int): Response {
    Response(404, "Receipt item " + IntToString(id) + " not found")
  }

  function InvalidQuantity(id: int): Response {
    Response(400, "Invalid received quantity for item " + IntToString(id))
  }

  /** One iteration of the loop at receipt/route.js:179-219; `r` is the
      receipt as loaded before the loop. */
  function Step(r: Receipt, s: State, line: Line): (o: StepResult<State>)
    ensures o.Commit? <==> LineOk(r, line)
    ensures o.Reject? && Lookup(r.items, line.receiptItemId).None? ==> o.error == ItemNotFound(line.receiptItemId)
    ensures o.Reject? && Lookup(r.items, line.receiptItemId).Some? ==> o.error == InvalidQuantity(line.receiptItemId)
    ensures o.Commit? ==> forall k :: Qty(o.state.stock, k) == Qty(s.stock, k) + Contribution(r, line, k)
    ensures o.Commit? ==> o.state.items == SetReceived(s.items, line.receiptItemId, line.receivedQty)
  {
    match Lookup(r.items, line.receiptItemId)
    case None => Reject(ItemNotFound(line.receiptItemId))
    case Some(j) =>
      var q := line.receivedQty;
      if q < 0 || q > r.items[j].quantity then
        Reject(InvalidQuantity(line.receiptItemId))
      else
        var items := SetReceived(s.items, line.receiptItemId, q);
        var stock := if q > 0 then Increment(s.stock, Key(r.items[j].productId, r.warehouseId), q) else s.stock;
        Commit(State(stock, items))
  }

  function StepOf(r: Receipt): (State, Line) -> StepResult<State> {
    (s: State, l: Line) => Step(r, s, l)
  }

  /** The validation loop over `lines`, starting from `s0`. A run that stops
      at line `at` leaves the state of the lines before it, and stops because
      line `at` is rejected. */
  function Validate(r: Receipt, s0: State, lines: seq<Line>): (o: RunResult<State>)
    ensures o.Aborted? ==> o.at < |lines|
    ensures o.Aborted? ==> RunLines(StepOf(r), s0, lines[..o.at]) == Finished(o.state)
    ensures o.Aborted? ==> Step(r, o.state, lines[o.at]) == Reject(o.error)
  {
    var o := RunLines(StepOf(r), s0, lines);
    if o.Aborted? then AbortedAt(StepOf(r), s0, lines); o else o
  }

  // ----- an independent statement of what validation does -----

  /** A line the loop accepts: it names a line of the receipt and its
      quantity lies in [0, requested]. The stock is never consulted. */
  predicate LineOk(r: Receipt, line: Line) {
    match Lookup(r.items, line.receiptItemId)
    case None => false
    case Some(j) => 0 <= line.receivedQty <= r.items[j].quantity
  }

  predicate Accepted(r: Receipt, lines: seq<Line>) {
    forall i :: 0 <= i < |lines| ==> LineOk(r, lines[i])
  }

  /** What one line adds to stock row `k`. */
  function Contribution(r: Receipt, line: Line, k: Key): int {
    match Lookup(r.items, line.receiptItemId)
    case None => 0
    case Some(j) =>
      if r.items[j].productId == k.product && r.warehouseId == k.warehouse then line.receivedQty else 0
  }

  /** What all lines together add to stock row `k`. */
  function Received(r: Receipt, lines: seq<Line>, k: Key): int
    decreases |lines|
  {
    if |lines| == 0 then 0
    else Received(r, lines[..|lines| - 1], k) + Contribution(r, lines[|lines| - 1], k)
  }

  /** Validation runs to the end exactly when every line is acceptable, and
      then every stock row has grown by the quantities received for it, an
      absent row counting as 0. */
  lemma {:induction false} ValidateEffect(r: Receipt, s0: State, lines: seq<Line>)
    ensures Validate(r, s0, lines).Finished? <==> Accepted(r, lines)
    ensures Validate(r, s0, lines).Finished? ==>
              forall k :: Qty(Validate(r, s0, lines).state.stock, k) == Qty(s0.stock, k) + Received(r, lines, k)
    decreases |lines|
  {
    if |lines| > 0 {
      var n := |lines| - 1;
      var init := lines[..n];
      ValidateEffect(r, s0, init);
      assert Accepted(r, lines) <==> Accepted(r, init) && LineOk(r, lines[n]) by {
        assert forall i :: 0 <= i < n ==> init[i] == lines[i];
      }
      var prev := Validate(r, s0, init);
      if prev.Finished? {
        var s := prev.state;
        match Lookup(r.items, lines[n].receiptItemId)
        case None =>
        case Some(j) =>
          if LineOk(r, lines[n]) {
            var q := lines[n].receivedQty;
            var k0 := Key(r.items[j].productId, r.warehouseId);
            var s' := Step(r, s, lines[n]).state;
            forall k ensures Qty(s'.stock, k) == Qty(s.stock, k) + Contribution(r, lines[n], k) {
              if q > 0 && k == k0 {
                assert s'.stock == Increment(s.stock, k0, q);
              }
            }
          }
      }
    }
  }

  /** The loop leaves every stock row non-negative when it started so. */
  lemma ValidateKeepsNonNegative(r: Receipt, s0: State, lines: seq<Line>)
    requires NonNegative(s0.stock)
    ensures NonNegative(Validate(r, s0, lines).state.stock)
  {
    var inv := (s: State) => NonNegative(s.stock);
    forall s, l | inv(s) && StepOf(r)(s, l).Commit? ensures inv(StepOf(r)(s, l).state) {
      assert StepOf(r)(s, l) == Step(r, s, l);
    }
    Preserved(StepOf(r), inv, s0, lines);
  }

  /** Validation writes only received quantities: ids, products and
      requested quantities of the lines are as they were. */
  lemma ValidateKeepsLines(r: Receipt, s0: State, lines: seq<Line>)
    requires SameLines(s0.items, r.items)
    ensures SameLines(Validate(r, s0, lines).state.items, r.items)
  {
    var inv := (s: State) => SameLines(s.items, r.items);
    forall s, l | inv(s) && StepOf(r)(s, l).Commit? ensures inv(StepOf(r)(s, l).state) {
      assert StepOf(r)(s, l) == Step(r, s, l);
    }
    Preserved(StepOf(r), inv, s0, lines);
  }

  /** Whether a line is acceptable and what it adds depend only on the ids,
      products and requested quantities, never on the received quantities. */
  lemma LineSameLines(r: Receipt, r': Receipt, line: Line, k: Key)
    requires SameLines(r.items, r'.items) && r.warehouseId == r'.warehouseId
    ensures LineOk(r, line) == LineOk(r', line)
    ensures Contribution(r, line, k) == Contribution(r', line, k)
  {
    LookupSameLines(r.items, r'.items, line.receiptItemId);
  }

  lemma {:induction false} ReceivedSameLines(r: Receipt, r': Receipt, lines: seq<Line>, k: Key)
    requires SameLines(r.items, r'.items) && r.warehouseId == r'.warehouseId
    ensures Accepted(r, lines) <==> Accepted(r', lines)
    ensures Received(r, lines, k) == Received(r', lines, k)
    decreases |lines|
  {
    forall i | 0 <= i < |lines| ensures LineOk(r, lines[i]) == LineOk(r', lines[i]) {
      LineSameLines(r, r', lines[i], k);
    }
    if |lines| > 0 {
      ReceivedSameLines(r, r', lines[..|lines| - 1], k);
      LineSameLines(r, r', lines[|lines| - 1], k);
    }
  }

  /** Nothing checks that the receipt is still a draft: validating the same
      lines again, against the receipt as the first validation left it,
      succeeds again and adds the same quantities a second time. */
  lemma ValidateTwice(r: Receipt, stock0: Stock, lines: seq<Line>)
    requires Accepted(r, lines)
    ensures var first := Validate(r, State(stock0, r.items), lines);
            var r2 := r.(items := first.state.items, status := Validated);
            var again := Validate(r2, first.state, lines);
            && first.Finished? && again.Finished?
            && forall k :: Qty(again.state.stock, k) == Qty(stock0, k) + 2 * Received(r, lines, k)
  {
    var s0 := State(stock0, r.items);
    var first := Validate(r, s0, lines);
    ValidateEffect(r, s0, lines);
    ValidateKeepsLines(r, s0, lines);
    var r2 := r.(items := first.state.items, status := Validated);
    assert SameLines(r2.items, r.items);
    forall k ensures Received(r2, lines, k) == Received(r, lines, k) {
      ReceivedSameLines(r2, r, lines, k);
    }
    ReceivedSameLines(r2, r, lines, Key(0, 0));
    assert Accepted(r2, lines);
    ValidateEffect(r2, first.state, lines);
  }

  // ----- the handlers -----

  /** Commit-as-you-go, concretely: the second line names no item of the
      receipt, so the request is refused, yet the first line's increment has
      already been applied. */
  lemma PartialCommitExample()
    ensures var r := Receipt(1, "supplier", 7, "draft", [ReceiptItem(10, 3, 5, 0)]);
            var o := Validate(r, State(map[], r.items), [Line(10, 2), Line(99, 1)]);
            && o == Aborted(o.state, 1, ItemNotFound(99))
            && Qty(o.state.stock, Key(3, 7)) == 2
            && o.state.items == [ReceiptItem(10, 3, 5, 2)]
  {
    var r := Receipt(1, "supplier", 7, "draft", [ReceiptItem(10, 3, 5, 0)]);
    var lines := [Line(10, 2), Line(99, 1)];
    var s0 := State(map[], r.items);
    assert Lookup(r.items, 10) == Some(0);
    assert Lookup(r.items, 99) == None;
    var s1 := State(map[Key(3, 7) := 2], [ReceiptItem(10, 3, 5, 2)]);
    var written := SetReceived(s0.items, 10, 2);
    assert |written| == 1 && written[0] == ReceiptItem(10, 3, 5, 2);
    assert written == s1.items;
    assert Increment(map[], Key(3, 7), 2) == s1.stock;
    assert Step(r, s0, lines[0]) == Commit(s1);
    assert lines[..1] == [lines[0]];
    assert lines[..1][..0] == [];
    assert Validate(r, s0, lines[..1]) == Finished(s1);
    assert Step(r, s1, lines[1]) == Reject(ItemNotFound(99));
  }

  /** The lines a POST creates: consecutive ids from `first` in request
      order, nothing received yet. */
  function Lines(first: int, items: seq<NewLine>): (r: seq<ReceiptItem>)
    ensures |r| == |items|
    ensures forall j :: 0 <= j < |items| ==> r[j] == ReceiptItem(first + j, items[j].productId, items[j].quantity, 0)
    ensures ReceiptLinesOk(r, first + |items|)
    ensures forall j :: 0 <= j < |r| ==> first <= r[j].id
  {
    seq(|items|, j requires 0 <= j < |items| => ReceiptItem(first + j, items[j].productId, items[j].quantity, 0))
  }

  /** POST /api/receipt (receipt/route.js:64-134). */
  method Post(db: Db, user: Option<User>, supplier: string, warehouseId: Option<int>, items: seq<NewLine>)
      returns (r: Response)
    requires db.Valid()
    modifies db`receipts, db`nextReceiptId, db`nextReceiptItemId
    ensures db.Valid()
    ensures user.None? ==> r == Unauthorized && unchanged(db)
    ensures user.Some? && (supplier == "" || !Truthy(warehouseId) || |items| == 0) ==>
              r == Response(400, "Supplier, warehouse, and items are required") && unchanged(db)
    ensures user.Some? && supplier != "" && Truthy(warehouseId) && |items| > 0 && warehouseId.value !in db.warehouses ==>
              r == Response(404, "Warehouse not found") && unchanged(db)
    ensures user.Some? && supplier != "" && Truthy(warehouseId) && |items| > 0 && warehouseId.value in db.warehouses ==>
              if exists i :: 0 <= i < |items| && !HasProduct(db.products, items[i].productId) then
                r == Response(500, StoreFailure) && unchanged(db)
              else
                var id := old(db.nextReceiptId);
                var lines := Lines(old(db.nextReceiptItemId), items);
                && r == Response(201, "Receipt created successfully")
                && id !in old(db.receipts)
                && db.receipts == old(db.receipts)[id := Receipt(id, supplier, warehouseId.value, "draft", lines)]
                && db.nextReceiptId == id + 1
                && db.nextReceiptItemId == old(db.nextReceiptItemId) + |items|
                // no existing line of any receipt has one of the new line ids
                && (forall j :: 0 <= j < |lines| ==> !ReceiptLineIdUsed(old(db.receipts), lines[j].id))
  {
    if user.None? {
      return Unauthorized;
    }
    if supplier == "" || !Truthy(warehouseId) || |items| == 0 {
      return Response(400, "Supplier, warehouse, and items are required");
    }
    if warehouseId.value !in db.warehouses {
      return Response(404, "Warehouse not found");
    }
    // The nested create is one statement: a line naming a missing product
    // violates its foreign key and nothing is created.
    if exists i :: 0 <= i < |items| && !HasProduct(db.products, items[i].productId) {
      return Response(500, StoreFailure);
    }
    Create(db, supplier, warehouseId.value, items);
    r := Response(201, "Receipt created successfully");
  }

  /** The nested `receipt.create`: the header under the next id, and its
      lines under the next line ids. */
  method Create(db: Db, supplier: string, warehouse: int, items: seq<NewLine>)
    requires db.Valid()
    modifies db`receipts, db`nextReceiptId, db`nextReceiptItemId
    ensures db.Valid()
    ensures var id := old(db.nextReceiptId);
            var lines := Lines(old(db.nextReceiptItemId), items);
            && id !in old(db.receipts)
            && db.receipts == old(db.receipts)[id := Receipt(id, supplier, warehouse, "draft", lines)]
            && db.nextReceiptId == id + 1
            && db.nextReceiptItemId == old(db.nextReceiptItemId) + |items|
            && (forall j :: 0 <= j < |lines| ==> !ReceiptLineIdUsed(old(db.receipts), lines[j].id))
  {
    var id, firstItem := db.nextReceiptId, db.nextReceiptItemId;
    var lines := Lines(firstItem, items);
    forall j | 0 <= j < |lines| ensures !ReceiptLineIdUsed(db.receipts, lines[j].id) {
      ReceiptIdsFresh(db.receipts, id, firstItem, lines[j].id);
    }
    ReceiptsOkAdd(db.receipts, id, firstItem, Receipt(id, supplier, warehouse, "draft", lines), |items|);
    db.receipts := db.receipts[id := Receipt(id, supplier, warehouse, "draft", lines)];
    db.nextReceiptId := id + 1;
    db.nextReceiptItemId := firstItem + |items|;
  }

  /** One iteration of the loop at receipt/route.js:180-218: look the line up
      in the loaded receipt, check its quantity, write `receivedQty`, then
      upsert-increment the destination stock row. */
  method ApplyLine(db: Db, id: int, receipt: Receipt, item: Line) returns (failure: Option<Response>)
    requires id in db.receipts && NonNegative(db.stock)
    modifies db`stock, db`receipts
    ensures NonNegative(db.stock)
    ensures match Step(receipt, State(old(db.stock), old(db.receipts[id].items)), item)
            case Commit(s) =>
              && failure.None? && db.stock == s.stock
              && db.receipts == old(db.receipts)[id := old(db.receipts[id]).(items := s.items)]
            case Reject(e) => failure == Some(e) && unchanged(db)
  {
    var found := Lookup(receipt.items, item.receiptItemId);
    if found.None? {
      return Some(ItemNotFound(item.receiptItemId));
    }
    var line := receipt.items[found.value];
    var q := item.receivedQty;
    if q < 0 || q > line.quantity {
      return Some(InvalidQuantity(item.receiptItemId));
    }
    db.receipts := db.receipts[id := db.receipts[id].(items := SetReceived(db.receipts[id].items, item.receiptItemId, q))];
    if q > 0 {
      db.stock := Increment(db.stock, Key(line.productId, receipt.warehouseId), q);
    }
    failure := None;
  }

  /** The loop at receipt/route.js:179-219 over the lines of a PATCH, for the
      receipt `receipt` loaded as row `id`. It writes as it goes and returns
      the error of the first rejected line, if any. */
  method ValidateLines(db: Db, id: int, receipt: Receipt, items: seq<Line>) returns (failure: Option<Response>)
    requires id in db.receipts && db.receipts[id] == receipt
    requires NonNegative(db.stock)
    modifies db`stock, db`receipts
    ensures NonNegative(db.stock)
    ensures var o := Validate(receipt, State(old(db.stock), receipt.items), items);
            && db.stock == o.state.stock
            && db.receipts == old(db.receipts)[id := receipt.(items := o.state.items)]
            && (o.Finished? <==> failure.None?)
            && (o.Aborted? ==> failure == Some(o.error))
  {
    ghost var s0 := State(db.stock, receipt.items);
    failure := None;
    var i := 0;
    while i < |items|
      invariant 0 <= i <= |items|
      invariant id in db.receipts
      invariant db.receipts == old(db.receipts)[id := receipt.(items := db.receipts[id].items)]
      invariant Validate(receipt, s0, items[..i]) == Finished(State(db.stock, db.receipts[id].items))
      invariant NonNegative(db.stock)
      invariant failure.None?
    {
      Extend(StepOf(receipt), s0, items, i);
      assert StepOf(receipt)(State(db.stock, db.receipts[id].items), items[i])
          == Step(receipt, State(db.stock, db.receipts[id].items), items[i]);
      failure := ApplyLine(db, id, receipt, items[i]);
      if failure.Some? {
        AbortIsFinal(StepOf(receipt), s0, items, i + 1);
        return;
      }
      i := i + 1;
    }
    assert items[..i] == items;
  }

  /** PATCH /api/receipt (receipt/route.js:136-250). */
  method Patch(db: Db, user: Option<User>, receiptId: Option<int>, status: Option<string>, items: seq<Line>)
      returns (r: Response)
    requires db.Valid()
    modifies db`stock, db`receipts
    ensures db.Valid()
    ensures user.None? ==> r == Unauthorized && unchanged(db)
    ensures user.Some? && !Truthy(receiptId) ==> r == Response(400, "Receipt ID is required") && unchanged(db)
    ensures user.Some? && Truthy(receiptId) && receiptId.value !in old(db.receipts) ==>
              r == Response(404, "Receipt not found") && unchanged(db)
    ensures user.Some? && Truthy(receiptId) && receiptId.value in old(db.receipts) ==>
              var id := receiptId.value;
              var rc := old(db.receipts[id]);
              if status != Some(Validated) then
                // no line is looked at and no stock changes
                && r == Response(200, "Receipt updated successfully")
                && db.stock == old(db.stock)
                && db.receipts == old(db.receipts)[id := rc.(status := StatusOrDraft(status))]
              else if |items| == 0 then
                r == Response(400, "Items with quantities are required for validation") && unchanged(db)
              else
                var o := Validate(rc, State(old(db.stock), rc.items), items);
                && db.stock == o.state.stock
                && (o.Finished? ==>
                      && r == Response(200, "Receipt updated successfully")
                      && db.receipts == old(db.receipts)[id := rc.(items := o.state.items, status := Validated)])
                && (o.Aborted? ==>
                      // the lines before o.at stay written; the status is not touched
                      && r == o.error
                      && db.receipts == old(db.receipts)[id := rc.(items := o.state.items)])
  {
    if user.None? {
      return Unauthorized;
    }
    if !Truthy(receiptId) {
      return Response(400, "Receipt ID is required");
    }
    var id := receiptId.value;
    if id !in db.receipts {
      return Response(404, "Receipt not found");
    }
    if status == Some(Validated) {
      if |items| == 0 {
        return Response(400, "Items with quantities are required for validation");
      }
      r := ValidateAndMark(db, id, items);
      return;
    }
    ReceiptsOkReplace(db.receipts, db.nextReceiptId, db.nextReceiptItemId, id, db.receipts[id].(status := StatusOrDraft(status)));
    db.receipts := db.receipts[id := db.receipts[id].(status := StatusOrDraft(status))];
    r := Response(200, "Receipt updated successfully");
  }

  /** The "validated" branch of the PATCH: run the loop, and only when every
      line went through set the status. */
  method ValidateAndMark(db: Db, id: int, items: seq<Line>) returns (r: Response)
    requires db.Valid() && id in db.receipts
    modifies db`stock, db`receipts
    ensures db.Valid()
    ensures var rc := old(db.receipts[id]);
            var o := Validate(rc, State(old(db.stock), rc.items), items);
            && db.stock == o.state.stock
            && (o.Finished? ==>
                  && r == Response(200, "Receipt updated successfully")
                  && db.receipts == old(db.receipts)[id := rc.(items := o.state.items, status := Validated)])
            && (o.Aborted? ==> r == o.error && db.receipts == old(db.receipts)[id := rc.(items := o.state.items)])
  {
    var receipt := db.receipts[id];
    ghost var o := Validate(receipt, State(db.stock, receipt.items), items);
    ValidateKeepsLines(receipt, State(db.stock, receipt.items), items);
    assert ReceiptLinesOk(o.state.items, db.nextReceiptItemId);
    ReceiptsOkReplace(db.receipts, db.nextReceiptId, db.nextReceiptItemId, id, receipt.(items := o.state.items));
    ReceiptsOkReplace(db.receipts, db.nextReceiptId, db.nextReceiptItemId, id, receipt.(items := o.state.items, status := Validated));
    var failure := ValidateLines(db, id, receipt, items);
    if failure.Some? {
      return failure.value;
    }
    db.receipts := db.receipts[id := db.receipts[id].(status := Validated)];
    r := Response(200, "Receipt updated successfully");
  }
}
