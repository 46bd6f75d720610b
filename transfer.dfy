/** Internal transfers: goods moved from one warehouse to another. POST
    creates a draft between two different existing warehouses; PATCH with
    status "completed" walks the request's lines, moving each line's quantity
    out of the source row and into the destination row. */
module TransferRoute {
  import opened Common
  import opened Ledger
  import opened Tables
  import opened LineLoop

  /** One entry of a POST's `items`. */
  datatype NewLine = NewLine(productId: int, quantity: int)

  /** One entry of a PATCH's `items`. */
  datatype Line = Line(transferItemId: int, transferredQty: int)

  /** What the completion loop writes: the stock table and the transfer's lines. */
  datatype State = State(stock: Stock, items: seq<TransferItem>)

  const Completed := "completed"

  /** `transfer.items.find(ti => ti.id === id)` */
  function Lookup(items: seq<TransferItem>, id: int): Option<nat> {
    FindFirst(items, (it: TransferItem) => it.id == id)
  }

  /** `transferItem.update({ where: { id }, data: { transferredQty } })` */
  function SetTransferred(items: seq<TransferItem>, id: int, q: int): (r: seq<TransferItem>)
    ensures SameLines(r, items)
    ensures forall j :: 0 <= j < |r| ==> r[j].transferredQty == if items[j].id == id then q else items[j].transferredQty
  {
    seq(|items|, j requires 0 <= j < |items| => if items[j].id == id then items[j].(transferredQty := q) else items[j])
  }

  /** Two line lists that agree on everything but the transferred quantities. */
  predicate SameLines(a: seq<TransferItem>, b: seq<TransferItem>) {
    |a| == |b| &&
    forall j :: 0 <= j < |a| ==> a[j].id == b[j].id && a[j].productId == b[j].productId && a[j].quantity == b[j].quantity
  }

  function ItemNotFound(id: int): Response {
    Response(404, "Transfer item " + IntToString(id) + " not found")
  }

  function InvalidQuantity(id: int): Response {
    Response(400, "Invalid transferred quantity for item " + IntToString(id))
  }

  function InsufficientStock(product: int): Response {
    Response(400, "Insufficient stock for product " + IntToString(product) + " in source warehouse")
  }

  /** One iteration of the loop at transfer/route.js:192-260; `t` is the
      transfer as loaded before the loop. */
  function Step(t: Transfer, s: State, line: Line): (o: StepResult<State>)
    ensures o.Commit? <==> LineOk(t, line) && Covered(t, s, line)
    ensures o.Reject? && Lookup(t.items, line.transferItemId).None? ==> o.error == ItemNotFound(line.transferItemId)
    ensures o.Reject? && Lookup(t.items, line.transferItemId).Some? && !LineOk(t, line) ==>
              o.error == InvalidQuantity(line.transferItemId)
    ensures o.Reject? && LineOk(t, line) ==>
              o.error == InsufficientStock(t.items[Lookup(t.items, line.transferItemId).value].productId)
    ensures o.Commit? ==> o.state.items == SetTransferred(s.items, line.transferItemId, line.transferredQty)
  {
    match Lookup(t.items, line.transferItemId)
    case None => Reject(ItemNotFound(line.transferItemId))
    case Some(j) =>
      var q := line.transferredQty;
      var p := t.items[j].productId;
      if q < 0 || q > t.items[j].quantity then Reject(InvalidQuantity(line.transferItemId))
      else if q > 0 && (Key(p, t.fromWarehouseId) !in s.stock || s.stock[Key(p, t.fromWarehouseId)] < q) then
        Reject(InsufficientStock(p))
      else
        var stock := if q > 0 then Move(s.stock, p, t.fromWarehouseId, t.toWarehouseId, q) else s.stock;
        Commit(State(stock, SetTransferred(s.items, line.transferItemId, q)))
  }

  function StepOf(t: Transfer): (State, Line) -> StepResult<State> {
    (s: State, l: Line) => Step(t, s, l)
  }

  /** The completion loop. A run that stops at line `at` leaves the state of
      the lines before it, and stops because line `at` is rejected. */
  function Complete(t: Transfer, s0: State, lines: seq<Line>): (o: RunResult<State>)
    ensures o.Aborted? ==> o.at < |lines|
    ensures o.Aborted? ==> RunLines(StepOf(t), s0, lines[..o.at]) == Finished(o.state)
    ensures o.Aborted? ==> Step(t, o.state, lines[o.at]) == Reject(o.error)
  {
    var o := RunLines(StepOf(t), s0, lines);
    if o.Aborted? then AbortedAt(StepOf(t), s0, lines); o else o
  }

  /** A line whose item exists and whose quantity lies in [0, requested]. */
  predicate LineOk(t: Transfer, line: Line) {
    match Lookup(t.items, line.transferItemId)
    case None => false
    case Some(j) => 0 <= line.transferredQty <= t.items[j].quantity
  }

  /** A positive quantity needs a source row holding at least that much; an
      absent row holds nothing. */
  predicate Covered(t: Transfer, s: State, line: Line) {
    match Lookup(t.items, line.transferItemId)
    case None => true
    case Some(j) => line.transferredQty > 0 ==> line.transferredQty <= Qty(s.stock, Key(t.items[j].productId, t.fromWarehouseId))
  }

  /** A finished completion accepted every line: each named an item of the
      transfer with a quantity in [0, requested]. */
  lemma {:induction false} CompleteChecksLines(t: Transfer, s0: State, lines: seq<Line>)
    requires Complete(t, s0, lines).Finished?
    ensures forall i :: 0 <= i < |lines| ==> LineOk(t, lines[i])
    decreases |lines|
  {
    if |lines| > 0 {
      var n := |lines| - 1;
      var init := lines[..n];
      assert Complete(t, s0, init).Finished?;
      CompleteChecksLines(t, s0, init);
      assert Step(t, Complete(t, s0, init).state, lines[n]).Commit?;
      assert forall i :: 0 <= i < n ==> init[i] == lines[i];
    }
  }

  // ----- properties of completion -----

  /** A positive quantity is moved only out of a source row that exists and
      holds at least that much. */
  lemma StepChecksSource(t: Transfer, s: State, line: Line)
    requires Step(t, s, line).Commit? && Step(t, s, line).state.stock != s.stock
    ensures Lookup(t.items, line.transferItemId).Some?
    ensures var p := t.items[Lookup(t.items, line.transferItemId).value].productId;
            && Key(p, t.fromWarehouseId) in s.stock
            && 0 < line.transferredQty <= s.stock[Key(p, t.fromWarehouseId)]
  {
  }

  lemma StepKeepsNonNegative(t: Transfer, s: State, line: Line)
    requires NonNegative(s.stock) && Step(t, s, line).Commit?
    ensures NonNegative(Step(t, s, line).state.stock)
  {
  }

  /** Stock never goes negative, also when the loop stops part-way. */
  lemma CompleteKeepsNonNegative(t: Transfer, s0: State, lines: seq<Line>)
    requires NonNegative(s0.stock)
    ensures NonNegative(Complete(t, s0, lines).state.stock)
  {
    var inv := (s: State) => NonNegative(s.stock);
    forall s, l | inv(s) && StepOf(t)(s, l).Commit? ensures inv(StepOf(t)(s, l).state) {
      assert StepOf(t)(s, l) == Step(t, s, l);
      StepKeepsNonNegative(t, s, l);
    }
    Preserved(StepOf(t), inv, s0, lines);
  }

  /** Completion writes only transferred quantities: ids, products and
      requested quantities of the lines are as they were. */
  lemma CompleteKeepsLines(t: Transfer, s0: State, lines: seq<Line>)
    requires SameLines(s0.items, t.items)
    ensures SameLines(Complete(t, s0, lines).state.items, t.items)
  {
    var inv := (s: State) => SameLines(s.items, t.items);
    forall s, l | inv(s) && StepOf(t)(s, l).Commit? ensures inv(StepOf(t)(s, l).state) {
      assert StepOf(t)(s, l) == Step(t, s, l);
    }
    Preserved(StepOf(t), inv, s0, lines);
  }

  /** Rows of warehouses other than the two endpoints are never touched. */
  lemma StepTouchesOnlyEndpoints(t: Transfer, s: State, line: Line, k: Key)
    requires Step(t, s, line).Commit?
    requires k.warehouse != t.fromWarehouseId && k.warehouse != t.toWarehouseId
    ensures (k in Step(t, s, line).state.stock <==> k in s.stock)
    ensures Qty(Step(t, s, line).state.stock, k) == Qty(s.stock, k)
  {
  }

  lemma CompleteTouchesOnlyEndpoints(t: Transfer, s0: State, lines: seq<Line>, k: Key)
    requires k.warehouse != t.fromWarehouseId && k.warehouse != t.toWarehouseId
    ensures (k in Complete(t, s0, lines).state.stock <==> k in s0.stock)
    ensures Qty(Complete(t, s0, lines).state.stock, k) == Qty(s0.stock, k)
  {
    var inv := (s: State) => (k in s.stock <==> k in s0.stock) && Qty(s.stock, k) == Qty(s0.stock, k);
    forall s, l | inv(s) && StepOf(t)(s, l).Commit? ensures inv(StepOf(t)(s, l).state) {
      assert StepOf(t)(s, l) == Step(t, s, l);
      StepTouchesOnlyEndpoints(t, s, l, k);
    }
    Preserved(StepOf(t), inv, s0, lines);
  }

  /** Between two different warehouses, a committed line leaves every
      product's total over any list of distinct warehouses that holds both
      endpoints unchanged. */
  lemma StepKeepsTotal(t: Transfer, s: State, line: Line, p: int, ws: seq<int>)
    requires Step(t, s, line).Commit?
    requires t.fromWarehouseId != t.toWarehouseId
    requires t.fromWarehouseId in ws && t.toWarehouseId in ws && Distinct(ws)
    ensures Total(Step(t, s, line).state.stock, p, ws) == Total(s.stock, p, ws)
  {
    match Lookup(t.items, line.transferItemId)
    case Some(j) =>
      var q := line.transferredQty;
      if q > 0 {
        MoveKeepsTotal(s.stock, t.items[j].productId, t.fromWarehouseId, t.toWarehouseId, q, p, ws);
      }
  }

  /** Completing a transfer conserves every product's total across the
      warehouses, whether the loop finishes or stops at a rejected line. */
  lemma CompleteKeepsTotal(t: Transfer, s0: State, lines: seq<Line>, p: int, ws: seq<int>)
    requires t.fromWarehouseId != t.toWarehouseId
    requires t.fromWarehouseId in ws && t.toWarehouseId in ws && Distinct(ws)
    ensures Total(Complete(t, s0, lines).state.stock, p, ws) == Total(s0.stock, p, ws)
  {
    var inv := (s: State) => Total(s.stock, p, ws) == Total(s0.stock, p, ws);
    forall s, l | inv(s) && StepOf(t)(s, l).Commit? ensures inv(StepOf(t)(s, l).state) {
      assert StepOf(t)(s, l) == Step(t, s, l);
      StepKeepsTotal(t, s, l, p, ws);
    }
    Preserved(StepOf(t), inv, s0, lines);
  }

  /** What one line moves out of the source row of product `p`. */
  function Moved(t: Transfer, line: Line, p: int): int {
    match Lookup(t.items, line.transferItemId)
    case None => 0
    case Some(j) => if t.items[j].productId == p then line.transferredQty else 0
  }

  function TotalMoved(t: Transfer, lines: seq<Line>, p: int): int
    decreases |lines|
  {
    if |lines| == 0 then 0
    else TotalMoved(t, lines[..|lines| - 1], p) + Moved(t, lines[|lines| - 1], p)
  }

  /** When completion runs to the end between two different warehouses, the
      source row of each product has lost, and its destination row has
      gained, the sum of that product's transferred quantities (an absent
      destination row counting as 0). */
  lemma {:induction false} CompleteEffect(t: Transfer, s0: State, lines: seq<Line>, p: int)
    requires t.fromWarehouseId != t.toWarehouseId
    requires Complete(t, s0, lines).Finished?
    ensures Qty(Complete(t, s0, lines).state.stock, Key(p, t.fromWarehouseId)) == Qty(s0.stock, Key(p, t.fromWarehouseId)) - TotalMoved(t, lines, p)
    ensures Qty(Complete(t, s0, lines).state.stock, Key(p, t.toWarehouseId)) == Qty(s0.stock, Key(p, t.toWarehouseId)) + TotalMoved(t, lines, p)
    decreases |lines|
  {
    if |lines| > 0 {
      var n := |lines| - 1;
      var prev := Complete(t, s0, lines[..n]);
      assert prev.Finished?;
      CompleteEffect(t, s0, lines[..n], p);
      StepEffect(t, prev.state, lines[n], p);
    }
  }

  /** One committed line between two different warehouses moves its
      quantity out of the source row and into the destination row. */
  lemma StepEffect(t: Transfer, s: State, line: Line, p: int)
    requires t.fromWarehouseId != t.toWarehouseId
    requires Step(t, s, line).Commit?
    ensures Qty(Step(t, s, line).state.stock, Key(p, t.fromWarehouseId)) == Qty(s.stock, Key(p, t.fromWarehouseId)) - Moved(t, line, p)
    ensures Qty(Step(t, s, line).state.stock, Key(p, t.toWarehouseId)) == Qty(s.stock, Key(p, t.toWarehouseId)) + Moved(t, line, p)
  {
    var j := Lookup(t.items, line.transferItemId).value;
    if line.transferredQty > 0 {
      assert Step(t, s, line).state.stock
          == Move(s.stock, t.items[j].productId, t.fromWarehouseId, t.toWarehouseId, line.transferredQty);
    }
  }

  // ----- the handlers -----

  /** The lines a POST creates: consecutive ids from `first` in request
      order, nothing transferred yet. */
  function Lines(first: int, items: seq<NewLine>): (r: seq<TransferItem>)
    ensures |r| == |items|
    ensures forall j :: 0 <= j < |items| ==> r[j] == TransferItem(first + j, items[j].productId, items[j].quantity, 0)
    ensures TransferLinesOk(r, first + |items|)
    ensures forall j :: 0 <= j < |r| ==> first <= r[j].id
  {
    seq(|items|, j requires 0 <= j < |items| => TransferItem(first + j, items[j].productId, items[j].quantity, 0))
  }

  /** POST /api/transfer (transfer/route.js:65-146). */
  method Post(db: Db, user: Option<User>, fromWarehouseId: Option<int>, toWarehouseId: Option<int>, items: seq<NewLine>)
      returns (r: Response)
    requires db.Valid()
    modifies db`transfers, db`nextTransferId, db`nextTransferItemId
    ensures db.Valid()
    ensures user.None? ==> r == Unauthorized && unchanged(db)
    ensures user.Some? && (!Truthy(fromWarehouseId) || !Truthy(toWarehouseId) || |items| == 0) ==>
              r == Response(400, "From warehouse, to warehouse, and items are required") && unchanged(db)
    ensures user.Some? && Truthy(fromWarehouseId) && Truthy(toWarehouseId) && |items| > 0 && fromWarehouseId == toWarehouseId ==>
              r == Response(400, "Source and destination warehouses must be different") && unchanged(db)
    ensures user.Some? && Truthy(fromWarehouseId) && Truthy(toWarehouseId) && |items| > 0 && fromWarehouseId != toWarehouseId ==>
              if fromWarehouseId.value !in db.warehouses || toWarehouseId.value !in db.warehouses then
                r == Response(404, "One or both warehouses not found") && unchanged(db)
              else if exists i :: 0 <= i < |items| && !HasProduct(db.products, items[i].productId) then
                r == Response(500, StoreFailure) && unchanged(db)
              else
                var id := old(db.nextTransferId);
                var lines := Lines(old(db.nextTransferItemId), items);
                && r == Response(201, "Transfer created successfully")
                && id !in old(db.transfers)
                && db.transfers == old(db.transfers)[id := Transfer(id, fromWarehouseId.value, toWarehouseId.value, "draft", lines)]
                && db.nextTransferId == id + 1
                && db.nextTransferItemId == old(db.nextTransferItemId) + |items|
                // no existing line of any transfer has one of the new line ids
                && (forall j :: 0 <= j < |lines| ==> !TransferLineIdUsed(old(db.transfers), lines[j].id))
  {
    if user.None? {
      return Unauthorized;
    }
    if !Truthy(fromWarehouseId) || !Truthy(toWarehouseId) || |items| == 0 {
      return Response(400, "From warehouse, to warehouse, and items are required");
    }
    if fromWarehouseId == toWarehouseId {
      return Response(400, "Source and destination warehouses must be different");
    }
    var from, to := fromWarehouseId.value, toWarehouseId.value;
    if from !in db.warehouses || to !in db.warehouses {
      return Response(404, "One or both warehouses not found");
    }
    // The nested create is one statement: a line naming a missing product
    // violates its foreign key and nothing is created.
    if exists i :: 0 <= i < |items| && !HasProduct(db.products, items[i].productId) {
      return Response(500, StoreFailure);
    }
    Create(db, from, to, items);
    r := Response(201, "Transfer created successfully");
  }

  /** The nested `transfer.create`: the header under the next id, and its
      lines under the next line ids. */
  method Create(db: Db, from: int, to: int, items: seq<NewLine>)
    requires db.Valid()
    modifies db`transfers, db`nextTransferId, db`nextTransferItemId
    ensures db.Valid()
    ensures var id := old(db.nextTransferId);
            var lines := Lines(old(db.nextTransferItemId), items);
            && id !in old(db.transfers)
            && db.transfers == old(db.transfers)[id := Transfer(id, from, to, "draft", lines)]
            && db.nextTransferId == id + 1
            && db.nextTransferItemId == old(db.nextTransferItemId) + |items|
            && (forall j :: 0 <= j < |lines| ==> !TransferLineIdUsed(old(db.transfers), lines[j].id))
  {
    var id, firstItem := db.nextTransferId, db.nextTransferItemId;
    var lines := Lines(firstItem, items);
    forall j | 0 <= j < |lines| ensures !TransferLineIdUsed(db.transfers, lines[j].id) {
      TransferIdsFresh(db.transfers, id, firstItem, lines[j].id);
    }
    TransfersOkAdd(db.transfers, id, firstItem, Transfer(id, from, to, "draft", lines), |items|);
    db.transfers := db.transfers[id := Transfer(id, from, to, "draft", lines)];
    db.nextTransferId := id + 1;
    db.nextTransferItemId := firstItem + |items|;
  }

  /** One iteration of the loop at transfer/route.js:193-259: look the line
      up, check its quantity, check the source row, decrement it, upsert the
      destination row, then write `transferredQty`. */
  method ApplyLine(db: Db, id: int, transfer: Transfer, item: Line) returns (failure: Option<Response>)
    requires id in db.transfers && NonNegative(db.stock)
    modifies db`stock, db`transfers
    ensures NonNegative(db.stock)
    ensures match Step(transfer, State(old(db.stock), old(db.transfers[id].items)), item)
            case Commit(s) =>
              && failure.None? && db.stock == s.stock
              && db.transfers == old(db.transfers)[id := old(db.transfers[id]).(items := s.items)]
            case Reject(e) => failure == Some(e) && unchanged(db)
  {
    var found := Lookup(transfer.items, item.transferItemId);
    if found.None? {
      return Some(ItemNotFound(item.transferItemId));
    }
    var line := transfer.items[found.value];
    var q := item.transferredQty;
    if q < 0 || q > line.quantity {
      return Some(InvalidQuantity(item.transferItemId));
    }
    if q > 0 {
      var src := Key(line.productId, transfer.fromWarehouseId);
      if src !in db.stock || db.stock[src] < q {
        return Some(InsufficientStock(line.productId));
      }
      db.stock := Decrement(db.stock, src, q);
      db.stock := Increment(db.stock, Key(line.productId, transfer.toWarehouseId), q);
    }
    db.transfers := db.transfers[id := db.transfers[id].(items := SetTransferred(db.transfers[id].items, item.transferItemId, q))];
    failure := None;
  }

  /** The loop at transfer/route.js:192-260. */
  method CompleteLines(db: Db, id: int, transfer: Transfer, items: seq<Line>) returns (failure: Option<Response>)
    requires id in db.transfers && db.transfers[id] == transfer
    requires NonNegative(db.stock)
    modifies db`stock, db`transfers
    ensures NonNegative(db.stock)
    ensures var o := Complete(transfer, State(old(db.stock), transfer.items), items);
            && db.stock == o.state.stock
            && db.transfers == old(db.transfers)[id := transfer.(items := o.state.items)]
            && (o.Finished? <==> failure.None?)
            && (o.Aborted? ==> failure == Some(o.error))
  {
    ghost var s0 := State(db.stock, transfer.items);
    failure := None;
    var i := 0;
    while i < |items|
      invariant 0 <= i <= |items|
      invariant id in db.transfers
      invariant db.transfers == old(db.transfers)[id := transfer.(items := db.transfers[id].items)]
      invariant Complete(transfer, s0, items[..i]) == Finished(State(db.stock, db.transfers[id].items))
      invariant NonNegative(db.stock)
      invariant failure.None?
    {
      Extend(StepOf(transfer), s0, items, i);
      assert StepOf(transfer)(State(db.stock, db.transfers[id].items), items[i])
          == Step(transfer, State(db.stock, db.transfers[id].items), items[i]);
      failure := ApplyLine(db, id, transfer, items[i]);
      if failure.Some? {
        AbortIsFinal(StepOf(transfer), s0, items, i + 1);
        return;
      }
      i := i + 1;
    }
    assert items[..i] == items;
  }

  /** PATCH /api/transfer (transfer/route.js:148-292). */
  method Patch(db: Db, user: Option<User>, transferId: Option<int>, status: Option<string>, items: seq<Line>)
      returns (r: Response)
    requires db.Valid()
    modifies db`stock, db`transfers
    ensures db.Valid()
    ensures user.None? ==> r == Unauthorized && unchanged(db)
    ensures user.Some? && !Truthy(transferId) ==> r == Response(400, "Transfer ID is required") && unchanged(db)
    ensures user.Some? && Truthy(transferId) && transferId.value !in old(db.transfers) ==>
              r == Response(404, "Transfer not found") && unchanged(db)
    ensures user.Some? && Truthy(transferId) && transferId.value in old(db.transfers) ==>
              var id := transferId.value;
              var t := old(db.transfers[id]);
              if status != Some(Completed) then
                && r == Response(200, "Transfer updated successfully")
                && db.stock == old(db.stock)
                && db.transfers == old(db.transfers)[id := t.(status := StatusOrDraft(status))]
              else if |items| == 0 then
                r == Response(400, "Items with quantities are required for completion") && unchanged(db)
              else
                var o := Complete(t, State(old(db.stock), t.items), items);
                && db.stock == o.state.stock
                && (o.Finished? ==>
                      && r == Response(200, "Transfer updated successfully")
                      && db.transfers == old(db.transfers)[id := t.(items := o.state.items, status := Completed)])
                && (o.Aborted? ==>
                      // the lines before o.at stay moved and written; the status is not touched
                      && r == o.error
                      && db.transfers == old(db.transfers)[id := t.(items := o.state.items)])
  {
    if user.None? {
      return Unauthorized;
    }
    if !Truthy(transferId) {
      return Response(400, "Transfer ID is required");
    }
    var id := transferId.value;
    if id !in db.transfers {
      return Response(404, "Transfer not found");
    }
    if status == Some(Completed) {
      if |items| == 0 {
        return Response(400, "Items with quantities are required for completion");
      }
      r := CompleteAndMark(db, id, items);
      return;
    }
    TransfersOkReplace(db.transfers, db.nextTransferId, db.nextTransferItemId, id, db.transfers[id].(status := StatusOrDraft(status)));
    db.transfers := db.transfers[id := db.transfers[id].(status := StatusOrDraft(status))];
    r := Response(200, "Transfer updated successfully");
  }

  /** The "completed" branch of the PATCH: run the loop, and only when every
      line went through set the status. */
  method CompleteAndMark(db: Db, id: int, items: seq<Line>) returns (r: Response)
    requires db.Valid() && id in db.transfers
    modifies db`stock, db`transfers
    ensures db.Valid()
    ensures var t := old(db.transfers[id]);
            var o := Complete(t, State(old(db.stock), t.items), items);
            && db.stock == o.state.stock
            && (o.Finished? ==>
                  && r == Response(200, "Transfer updated successfully")
                  && db.transfers == old(db.transfers)[id := t.(items := o.state.items, status := Completed)])
            && (o.Aborted? ==> r == o.error && db.transfers == old(db.transfers)[id := t.(items := o.state.items)])
  {
    var transfer := db.transfers[id];
    ghost var o := Complete(transfer, State(db.stock, transfer.items), items);
    CompleteKeepsLines(transfer, State(db.stock, transfer.items), items);
    assert TransferLinesOk(o.state.items, db.nextTransferItemId);
    TransfersOkReplace(db.transfers, db.nextTransferId, db.nextTransferItemId, id, transfer.(items := o.state.items));
    TransfersOkReplace(db.transfers, db.nextTransferId, db.nextTransferItemId, id, transfer.(items := o.state.items, status := Completed));
    var failure := CompleteLines(db, id, transfer, items);
    if failure.Some? {
      return failure.value;
    }
    db.transfers := db.transfers[id := db.transfers[id].(status := Completed)];
    r := Response(200, "Transfer updated successfully");
  }
}
