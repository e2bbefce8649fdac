/**
  Placing an order: validate the request, then inside one transaction create
  the order, walk the requested items in order (find the batch, check its
  stock, price the line from the batch's drug, add an order item, decrement the
  batch), and finally store the total. Any exception rolls the whole
  transaction back.

  `Run` is the specification of the item walk as a fold over the items,
  `PlaceOrder` the specification of the whole request, and `Store` the
  controller method that changes the database in place.
 */
module Orders {
  import opened Wrappers
  import opened Seqs
  import opened Text
  import opened Schema
  import opened Middleware

  datatype ItemRequest = ItemRequest(drugId: int, batchId: int, quantity: int)

  datatype OrderRequest = OrderRequest(items: seq<ItemRequest>, notes: Option<string>)

  /** The three outcomes: 422 from validation, 422 "Order failed: ...", 201 with the order and its items. */
  datatype Response =
    | ValidationFailed
    | OrderFailed(message: string)
    | OrderCreated(order: Order, items: seq<OrderItem>)

  /**
    Each item names an existing drug and an existing batch and asks for a
    quantity of at least 1 that the integer rule accepts (at most PHP_INT_MAX).
   */
  predicate ValidItem(t: Tables, item: ItemRequest) {
    HasDrug(t.drugs, item.drugId) && HasBatch(t.batches, item.batchId) && 1 <= item.quantity <= PhpIntMax
  }

  /** The request rules: a non-empty item list of valid items (notes may be anything or absent). */
  predicate ValidRequest(t: Tables, req: OrderRequest) {
    |req.items| >= 1 && forall k :: 0 <= k < |req.items| ==> ValidItem(t, req.items[k])
  }

  // ---------------------------------------------------------------------------
  // The item walk

  /** One priced order line, before it is given an id and its order's id. */
  datatype Line = Line(drugId: int, batchId: int, quantity: int, unitPrice: int, subtotal: int)

  /** The batches as decremented so far, the lines written so far and the running total. */
  datatype Progress = Progress(batches: seq<Batch>, lines: seq<Line>, total: int)

  const InsufficientStock: string := "Insufficient stock for batch: "

  /** The message of findOrFail's exception for a batch id that is not in the table. */
  function BatchNotFound(id: int): string {
    "No query results for model [App\\Models\\Batch] " + IntToString(id)
  }

  /** The message of reading selling_price through a batch whose drug row is gone. */
  const DrugMissing: string := "Attempt to read property \"selling_price\" on null"

  /** Two batch tables with the same rows apart from their quantities. */
  predicate SameRowsButQuantity(bs: seq<Batch>, bs': seq<Batch>) {
    |bs'| == |bs| && forall k :: 0 <= k < |bs| ==> bs'[k] == bs[k].(quantity := bs'[k].quantity)
  }

  /** One iteration of the loop; an Err is the message of the exception it throws. */
  function Step(drugs: seq<Drug>, p: Progress, item: ItemRequest): (r: Result<Progress, string>)
    ensures r.Ok? ==> SameRowsButQuantity(p.batches, r.value.batches) && |r.value.lines| == |p.lines| + 1
  {
    match FindBatch(p.batches, item.batchId)
    case None => Err(BatchNotFound(item.batchId))
    case Some(k) =>
      var b := p.batches[k];
      if b.quantity < item.quantity then Err(InsufficientStock + b.batchNo)
      else match FindDrug(drugs, b.drugId)
        case None => Err(DrugMissing)
        case Some(j) =>
          var price := drugs[j].info.sellingPrice;
          var subtotal := price * item.quantity;
          Ok(Progress(
            p.batches[k := b.(quantity := b.quantity - item.quantity)],
            p.lines + [Line(item.drugId, item.batchId, item.quantity, price, subtotal)],
            p.total + subtotal))
  }

  /** The loop over the items, starting from the given batches with no lines and a total of 0. */
  function Run(drugs: seq<Drug>, batches: seq<Batch>, items: seq<ItemRequest>): (r: Result<Progress, string>)
    ensures r.Ok? ==> SameRowsButQuantity(batches, r.value.batches) && |r.value.lines| == |items|
    decreases |items|
  {
    if |items| == 0 then Ok(Progress(batches, [], 0))
    else match Run(drugs, batches, items[..|items| - 1])
      case Err(e) => Err(e)
      case Ok(p) => Step(drugs, p, items[|items| - 1])
  }

  /** The loop's view of Run: the walk over the first n items, indexing instead of slicing. */
  function Walk(drugs: seq<Drug>, batches: seq<Batch>, items: seq<ItemRequest>, n: nat): Result<Progress, string>
    requires n <= |items|
  {
    if n == 0 then Ok(Progress(batches, [], 0))
    else match Walk(drugs, batches, items, n - 1)
      case Err(e) => Err(e)
      case Ok(p) => Step(drugs, p, items[n - 1])
  }

  lemma {:induction false} WalkIsRun(drugs: seq<Drug>, batches: seq<Batch>, items: seq<ItemRequest>, n: nat)
    requires n <= |items|
    ensures Walk(drugs, batches, items, n) == Run(drugs, batches, items[..n])
  {
    if n > 0 {
      WalkIsRun(drugs, batches, items, n - 1);
      assert items[..n][..n - 1] == items[..n - 1];
    }
  }

  /** The total quantity the items ask of the batch with this id. */
  function Requested(items: seq<ItemRequest>, batchId: int): int
    decreases |items|
  {
    if |items| == 0 then 0
    else
      var last := items[|items| - 1];
      Requested(items[..|items| - 1], batchId) + (if last.batchId == batchId then last.quantity else 0)
  }

  function LineSubtotals(lines: seq<Line>): seq<int> {
    seq(|lines|, i requires 0 <= i < |lines| => lines[i].subtotal)
  }

  function ItemSubtotals(items: seq<OrderItem>): seq<int> {
    seq(|items|, i requires 0 <= i < |items| => items[i].subtotal)
  }

  /** The selling price of the drug that owns the batch with this id, if both rows exist. */
  function SellingPriceOfBatch(drugs: seq<Drug>, batches: seq<Batch>, batchId: int): Option<int> {
    match FindBatch(batches, batchId)
    case None => None
    case Some(k) =>
      match FindDrug(drugs, batches[k].drugId)
      case None => None
      case Some(j) => Some(drugs[j].info.sellingPrice)
  }

  /** A lookup by id sees only the ids, so it finds the same row after quantities change. */
  lemma {:induction false} FindBatchSameRows(bs: seq<Batch>, bs': seq<Batch>, id: int)
    requires SameRowsButQuantity(bs, bs')
    ensures FindBatch(bs', id) == FindBatch(bs, id)
  {
    assert forall k :: 0 <= k < |bs| ==> bs'[k].id == bs[k].id;
  }

  /**
    Once an item throws, the remaining items are never reached: the whole walk
    fails with the same message.
   */
  lemma {:induction false} RunStopsAtError(drugs: seq<Drug>, batches: seq<Batch>, items: seq<ItemRequest>, i: nat)
    requires i <= |items| && Run(drugs, batches, items[..i]).Err?
    ensures Run(drugs, batches, items) == Run(drugs, batches, items[..i])
    decreases |items|
  {
    if i < |items| {
      var init := items[..|items| - 1];
      assert init[..i] == items[..i];
      RunStopsAtError(drugs, batches, init, i);
    } else {
      assert items[..i] == items;
    }
  }

  /**
    With unique batch ids, existing batches and drugs, and non-negative
    quantities, the walk succeeds exactly when no batch is asked for more than
    it holds, counting every item on that batch (each item sees the quantity
    the earlier ones left). On success each batch has lost exactly what was
    asked of it; on failure the message names a batch that was over-asked.
   */
  lemma {:induction false} RunStock(drugs: seq<Drug>, batches: seq<Batch>, items: seq<ItemRequest>)
    requires BatchIdsUnique(batches)
    requires forall k :: 0 <= k < |batches| ==> HasDrug(drugs, batches[k].drugId)
    requires forall i :: 0 <= i < |items| ==> HasBatch(batches, items[i].batchId) && items[i].quantity >= 1
    ensures Run(drugs, batches, items).Ok? <==> Fits(items, batches)
    ensures Run(drugs, batches, items).Ok? ==> Drained(batches, Run(drugs, batches, items).value.batches, items)
    ensures Run(drugs, batches, items).Err? ==>
      exists k :: 0 <= k < |batches| && Requested(items, batches[k].id) > batches[k].quantity
        && Run(drugs, batches, items).error == InsufficientStock + batches[k].batchNo
    decreases |items|
  {
    if |items| > 0 {
      var init := items[..|items| - 1];
      var x := items[|items| - 1];
      RunStock(drugs, batches, init);
      var kx := FindBatch(batches, x.batchId).value;
      RequestedLast(batches, items, kx);
      match Run(drugs, batches, init)
      case Err(e) =>
        var k :| 0 <= k < |batches| && Requested(init, batches[k].id) > batches[k].quantity
          && e == InsufficientStock + batches[k].batchNo;
        assert Requested(items, batches[k].id) > batches[k].quantity;
      case Ok(p) =>
        RequestedNonNegative(init, batches[kx].id);
        RunStockStep(drugs, batches, items, p, kx, Run(drugs, batches, items));
    }
  }

  lemma {:induction false} RequestedNonNegative(items: seq<ItemRequest>, batchId: int)
    requires forall i :: 0 <= i < |items| ==> items[i].quantity >= 0
    ensures Requested(items, batchId) >= 0
    decreases |items|
  {
    if |items| > 0 {
      RequestedNonNegative(items[..|items| - 1], batchId);
    }
  }

  /** No batch the items name is asked for more than it holds. */
  predicate Fits(items: seq<ItemRequest>, batches: seq<Batch>) {
    forall k :: 0 <= k < |batches| && Requested(items, batches[k].id) > 0 ==>
      Requested(items, batches[k].id) <= batches[k].quantity
  }

  /** Each batch holds its old quantity minus what the items asked of it. */
  predicate Drained(batches: seq<Batch>, bs': seq<Batch>, items: seq<ItemRequest>) {
    |bs'| == |batches|
    && forall k :: 0 <= k < |batches| ==> bs'[k].quantity == batches[k].quantity - Requested(items, batches[k].id)
  }

  /** The last item adds its quantity to its own batch only. */
  lemma {:induction false} RequestedLast(batches: seq<Batch>, items: seq<ItemRequest>, kx: nat)
    requires BatchIdsUnique(batches)
    requires |items| > 0 && kx < |batches| && batches[kx].id == items[|items| - 1].batchId
    ensures forall k :: 0 <= k < |batches| ==>
      Requested(items, batches[k].id)
        == Requested(items[..|items| - 1], batches[k].id) + (if k == kx then items[|items| - 1].quantity else 0)
  {
    var init := items[..|items| - 1];
    var x := items[|items| - 1];
    forall k | 0 <= k < |batches|
      ensures Requested(items, batches[k].id) == Requested(init, batches[k].id) + (if k == kx then x.quantity else 0)
    {
      if k < kx {
        assert batches[k].id != batches[kx].id;
      } else if k > kx {
        assert batches[kx].id != batches[k].id;
      }
    }
  }

  /** The inductive step of RunStock when the earlier items went through; r is the last step's result. */
  lemma {:induction false} RunStockStep(drugs: seq<Drug>, batches: seq<Batch>, items: seq<ItemRequest>, p: Progress, kx: nat,
                     r: Result<Progress, string>)
    requires |items| > 0 && kx < |batches| && HasDrug(drugs, batches[kx].drugId)
    requires SameRowsButQuantity(batches, p.batches)
    requires FindBatch(batches, items[|items| - 1].batchId) == Some(kx)
    requires items[|items| - 1].quantity >= 1 && Requested(items[..|items| - 1], batches[kx].id) >= 0
    requires Fits(items[..|items| - 1], batches) && Drained(batches, p.batches, items[..|items| - 1])
    requires forall k :: 0 <= k < |batches| ==>
      Requested(items, batches[k].id)
        == Requested(items[..|items| - 1], batches[k].id) + (if k == kx then items[|items| - 1].quantity else 0)
    requires r == Step(drugs, p, items[|items| - 1])
    ensures r.Ok? <==> Fits(items, batches)
    ensures r.Ok? ==> Drained(batches, r.value.batches, items)
    ensures r.Err? ==>
      Requested(items, batches[kx].id) > batches[kx].quantity && r.error == InsufficientStock + batches[kx].batchNo
  {
    var x := items[|items| - 1];
    FindBatchSameRows(batches, p.batches, x.batchId);
    if p.batches[kx].quantity < x.quantity {
      StepFails(drugs, batches, items, p, kx);
    } else {
      StepDecrements(drugs, p, x, kx);
      StepGoesThrough(batches, items, p.batches, kx, r.value.batches);
    }
  }

  /** An item asking for more than its batch still holds makes the step fail with that batch's number. */
  lemma {:induction false} StepFails(drugs: seq<Drug>, batches: seq<Batch>, items: seq<ItemRequest>, p: Progress, kx: nat)
    requires |items| > 0 && kx < |batches| && kx < |p.batches|
    requires p.batches[kx].batchNo == batches[kx].batchNo
    requires p.batches[kx].quantity == batches[kx].quantity - Requested(items[..|items| - 1], batches[kx].id)
    requires FindBatch(p.batches, items[|items| - 1].batchId) == Some(kx) && items[|items| - 1].quantity >= 1
    requires p.batches[kx].quantity < items[|items| - 1].quantity
    requires Requested(items[..|items| - 1], batches[kx].id) >= 0
    requires Requested(items, batches[kx].id)
      == Requested(items[..|items| - 1], batches[kx].id) + items[|items| - 1].quantity
    ensures Step(drugs, p, items[|items| - 1]) == Err(InsufficientStock + batches[kx].batchNo)
    ensures !Fits(items, batches)
    ensures Requested(items, batches[kx].id) > batches[kx].quantity
  {
    StepOverdraws(drugs, p, items[|items| - 1], kx);
    OverAsked(batches, items, kx, Requested(items[..|items| - 1], batches[kx].id), p.batches[kx].quantity);
  }

  lemma {:induction false} StepOverdraws(drugs: seq<Drug>, p: Progress, x: ItemRequest, kx: nat)
    requires FindBatch(p.batches, x.batchId) == Some(kx)
    requires p.batches[kx].quantity < x.quantity
    ensures Step(drugs, p, x) == Err(InsufficientStock + p.batches[kx].batchNo)
  {
  }

  /** A batch asked for more than it holds, by a positive amount, breaks Fits. */
  lemma {:induction false} OverAsked(batches: seq<Batch>, items: seq<ItemRequest>, kx: nat, before: int, left: int)
    requires kx < |batches| && |items| > 0 && items[|items| - 1].quantity >= 1 && before >= 0
    requires left == batches[kx].quantity - before && left < items[|items| - 1].quantity
    requires Requested(items, batches[kx].id) == before + items[|items| - 1].quantity
    ensures !Fits(items, batches) && Requested(items, batches[kx].id) > batches[kx].quantity
  {
  }

  /** An item that fits takes its quantity off its batch and nothing else. */
  lemma {:induction false} StepDecrements(drugs: seq<Drug>, p: Progress, x: ItemRequest, kx: nat)
    requires FindBatch(p.batches, x.batchId) == Some(kx)
    requires p.batches[kx].quantity >= x.quantity && HasDrug(drugs, p.batches[kx].drugId)
    ensures Step(drugs, p, x).Ok?
    ensures Step(drugs, p, x).value.batches
      == p.batches[kx := p.batches[kx].(quantity := p.batches[kx].quantity - x.quantity)]
  {
  }

  lemma {:induction false} StepGoesThrough(batches: seq<Batch>, items: seq<ItemRequest>, bs: seq<Batch>, kx: nat, bs': seq<Batch>)
    requires |items| > 0 && kx < |batches| && Drained(batches, bs, items[..|items| - 1])
    requires bs[kx].quantity >= items[|items| - 1].quantity
    requires Fits(items[..|items| - 1], batches)
    requires forall k :: 0 <= k < |batches| ==>
      Requested(items, batches[k].id)
        == Requested(items[..|items| - 1], batches[k].id) + (if k == kx then items[|items| - 1].quantity else 0)
    requires bs' == bs[kx := bs[kx].(quantity := bs[kx].quantity - items[|items| - 1].quantity)]
    ensures Fits(items, batches) && Drained(batches, bs', items)
  {
    DrainedStep(batches, items, bs, kx, bs');
    FitsStep(batches, items, bs, kx);
  }

  lemma {:induction false} FitsStep(batches: seq<Batch>, items: seq<ItemRequest>, bs: seq<Batch>, kx: nat)
    requires |items| > 0 && kx < |batches| && Drained(batches, bs, items[..|items| - 1])
    requires bs[kx].quantity >= items[|items| - 1].quantity
    requires Fits(items[..|items| - 1], batches)
    requires forall k :: 0 <= k < |batches| ==>
      Requested(items, batches[k].id)
        == Requested(items[..|items| - 1], batches[k].id) + (if k == kx then items[|items| - 1].quantity else 0)
    ensures Fits(items, batches)
  {
    forall k | 0 <= k < |batches| && Requested(items, batches[k].id) > 0
      ensures Requested(items, batches[k].id) <= batches[k].quantity
    {
      if k != kx {
        assert Requested(items, batches[k].id) == Requested(items[..|items| - 1], batches[k].id);
      }
    }
  }

  lemma {:induction false} DrainedStep(batches: seq<Batch>, items: seq<ItemRequest>, bs: seq<Batch>, kx: nat, bs': seq<Batch>)
    requires |items| > 0 && kx < |batches| && Drained(batches, bs, items[..|items| - 1])
    requires forall k :: 0 <= k < |batches| ==>
      Requested(items, batches[k].id)
        == Requested(items[..|items| - 1], batches[k].id) + (if k == kx then items[|items| - 1].quantity else 0)
    requires bs' == bs[kx := bs[kx].(quantity := bs[kx].quantity - items[|items| - 1].quantity)]
    ensures Drained(batches, bs', items)
  {
  }

  /**
    The lines of a successful walk: one per item in item order, each with the
    item's drug, batch and quantity, priced at the selling price of the batch's
    drug, with subtotal = unit price x quantity; the total is the sum of the
    subtotals.
   */
  lemma {:induction false} RunLines(drugs: seq<Drug>, batches: seq<Batch>, items: seq<ItemRequest>, p: Progress)
    requires Run(drugs, batches, items) == Ok(p)
    ensures forall i :: 0 <= i < |items| ==> LineFor(drugs, batches, items[i], p.lines[i])
    decreases |items|
  {
    if |items| > 0 {
      var init := items[..|items| - 1];
      var q := Run(drugs, batches, init).value;
      RunLines(drugs, batches, init, q);
      LinesExtend(drugs, batches, items, q, p);
    }
  }

  /** The last item's step keeps the earlier lines and adds the last item's line. */
  lemma {:induction false} LinesExtend(drugs: seq<Drug>, batches: seq<Batch>, items: seq<ItemRequest>,
                                       p: Progress, p': Progress)
    requires |items| > 0 && |p.lines| == |items| - 1
    requires SameRowsButQuantity(batches, p.batches) && Step(drugs, p, items[|items| - 1]) == Ok(p')
    requires forall i :: 0 <= i < |items| - 1 ==> LineFor(drugs, batches, items[i], p.lines[i])
    ensures forall i :: 0 <= i < |items| ==> LineFor(drugs, batches, items[i], p'.lines[i])
  {
    LinesStep(drugs, batches, p, items[|items| - 1], p');
    forall i | 0 <= i < |items| ensures LineFor(drugs, batches, items[i], p'.lines[i]) {
      if i < |items| - 1 {
        assert p'.lines[i] == p.lines[i];
      }
    }
  }

  /** The running total is the sum of the line subtotals. */
  lemma {:induction false} RunTotal(drugs: seq<Drug>, batches: seq<Batch>, items: seq<ItemRequest>, p: Progress)
    requires Run(drugs, batches, items) == Ok(p)
    ensures p.total == Sum(LineSubtotals(p.lines))
    decreases |items|
  {
    if |items| > 0 {
      var init := items[..|items| - 1];
      var q := Run(drugs, batches, init).value;
      RunTotal(drugs, batches, init, q);
      assert Step(drugs, q, items[|items| - 1]) == Ok(p);
      TotalExtend(drugs, batches, q, items[|items| - 1], p);
    }
  }

  lemma {:induction false} TotalExtend(drugs: seq<Drug>, batches: seq<Batch>, p: Progress, x: ItemRequest, p': Progress)
    requires SameRowsButQuantity(batches, p.batches) && Step(drugs, p, x) == Ok(p')
    requires p.total == Sum(LineSubtotals(p.lines))
    ensures p'.total == Sum(LineSubtotals(p'.lines))
  {
    LinesStep(drugs, batches, p, x, p');
    LineSubtotalsSnoc(p.lines, p'.lines[|p.lines|]);
    SumAppend(LineSubtotals(p.lines), [p'.lines[|p.lines|].subtotal]);
  }

  /**
    The line written for an item: the item's drug, batch and quantity, priced at
    the selling price of the batch's drug, with subtotal = unit price x quantity.
   */
  predicate LineFor(drugs: seq<Drug>, batches: seq<Batch>, x: ItemRequest, l: Line) {
    && l.drugId == x.drugId && l.batchId == x.batchId && l.quantity == x.quantity
    && SellingPriceOfBatch(drugs, batches, x.batchId) == Some(l.unitPrice)
    && l.subtotal == l.unitPrice * l.quantity
  }

  /** A step that goes through adds the item's line and adds its subtotal to the total. */
  lemma {:induction false} LinesStep(drugs: seq<Drug>, batches: seq<Batch>, p: Progress, x: ItemRequest, p': Progress)
    requires SameRowsButQuantity(batches, p.batches) && Step(drugs, p, x) == Ok(p')
    ensures p'.lines == p.lines + [p'.lines[|p.lines|]] && p'.total == p.total + p'.lines[|p.lines|].subtotal
    ensures LineFor(drugs, batches, x, p'.lines[|p.lines|])
  {
    FindBatchSameRows(batches, p.batches, x.batchId);
  }

  lemma {:induction false} LineSubtotalsSnoc(lines: seq<Line>, l: Line)
    ensures LineSubtotals(lines + [l]) == LineSubtotals(lines) + [l.subtotal]
  {
    var r := lines + [l];
    assert forall k :: 0 <= k < |lines| ==> r[k] == lines[k];
  }

  // ---------------------------------------------------------------------------
  // The whole request

  /** The order items of a successful walk, numbered from the next item id. */
  function ItemsOf(lines: seq<Line>, orderId: nat, firstId: nat): seq<OrderItem> {
    seq(|lines|, i requires 0 <= i < |lines| =>
      OrderItem(firstId + i, orderId, lines[i].drugId, lines[i].batchId, lines[i].quantity,
                lines[i].unitPrice, lines[i].subtotal))
  }

  /**
    The request as a whole; `token` stands for the random string whose
    upper-case form follows "ORD-" in the order number. Anything but success
    leaves every table as it was.
   */
  function PlaceOrder(t: Tables, req: OrderRequest, token: string): (r: (Tables, Response))
    ensures !r.1.OrderCreated? ==> r.0 == t
    ensures r.1.ValidationFailed? <==> !ValidRequest(t, req)
  {
    if !ValidRequest(t, req) then (t, ValidationFailed)
    else match Run(t.drugs, t.batches, req.items)
      case Err(m) => (t, OrderFailed("Order failed: " + m))
      case Ok(p) =>
        var order := Order(t.nextOrderId, "ORD-" + Upper(token), "pending", CleanInput(req.notes), p.total);
        var items := ItemsOf(p.lines, order.id, t.nextItemId);
        (t.(batches := p.batches,
            orders := t.orders + [order],
            orderItems := t.orderItems + items,
            nextOrderId := t.nextOrderId + 1,
            nextItemId := t.nextItemId + |items|),
         OrderCreated(order, items))
  }

  /**
    On valid tables, a valid request is accepted exactly when no batch is asked
    for more than it holds; otherwise the response is "Order failed:
    Insufficient stock for batch: " and an over-asked batch's number.
   */
  lemma {:induction false} PlaceOrderOutcome(t: Tables, req: OrderRequest, token: string)
    requires Valid(t) && ValidRequest(t, req)
    ensures var (_, resp) := PlaceOrder(t, req, token);
      && (resp.OrderCreated? <==> Fits(req.items, t.batches))
      && (!resp.OrderCreated? ==>
           exists k :: 0 <= k < |t.batches| && Requested(req.items, t.batches[k].id) > t.batches[k].quantity
             && resp == OrderFailed("Order failed: " + (InsufficientStock + t.batches[k].batchNo)))
  {
    assert BatchIdsUnique(t.batches) && BatchesReferenceDrugs(t);
    RunStock(t.drugs, t.batches, req.items);
    match Run(t.drugs, t.batches, req.items)
    case Err(m) =>
      FailedOrder(t, req, token, m);
    case Ok(p) =>
      PlaceOrderGoesThrough(t, req, token, p);
  }

  /**
    After an accepted order each batch holds its old quantity minus what the
    order asked of it, every other column is unchanged, and no batch that was
    non-negative goes negative.
   */
  lemma {:induction false} PlaceOrderStock(t: Tables, req: OrderRequest, token: string)
    requires Valid(t)
    ensures var (t', resp) := PlaceOrder(t, req, token);
      && t'.drugs == t.drugs
      && SameRowsButQuantity(t.batches, t'.batches)
      && (resp.OrderCreated? ==> Drained(t.batches, t'.batches, req.items))
      && (StockNonNegative(t) ==> StockNonNegative(t'))
  {
    var (t', resp) := PlaceOrder(t, req, token);
    if resp.OrderCreated? {
      RunStock(t.drugs, t.batches, req.items);
    } else {
      assert SameRowsButQuantity(t.batches, t.batches);
    }
  }

  /**
    An accepted order is "pending", gets the next order id, has exactly one
    item per requested item (same drug, batch and quantity, unit price the
    selling price of the batch's drug, subtotal = unit price x quantity, fresh
    consecutive ids), and its total is the sum of the item subtotals. Nothing
    else is added to the order tables.
   */
  lemma {:induction false} PlaceOrderReceipt(t: Tables, req: OrderRequest, token: string)
    requires PlaceOrder(t, req, token).1.OrderCreated?
    ensures var (t', resp) := PlaceOrder(t, req, token);
      && resp.order.status == "pending"
      && resp.order.id == t.nextOrderId
      && resp.order.notes == CleanInput(req.notes)
      && resp.order.totalAmount == Sum(ItemSubtotals(resp.items))
      && |resp.items| == |req.items|
      && t'.orders == t.orders + [resp.order]
      && t'.orderItems == t.orderItems + resp.items
      && forall i :: 0 <= i < |req.items| ==>
        && resp.items[i].id == t.nextItemId + i
        && resp.items[i].orderId == resp.order.id
        && resp.items[i].drugId == req.items[i].drugId
        && resp.items[i].batchId == req.items[i].batchId
        && resp.items[i].quantity == req.items[i].quantity
        && SellingPriceOfBatch(t.drugs, t.batches, req.items[i].batchId) == Some(resp.items[i].unitPrice)
        && resp.items[i].subtotal == resp.items[i].unitPrice * resp.items[i].quantity
  {
    var p := Run(t.drugs, t.batches, req.items).value;
    RunLines(t.drugs, t.batches, req.items, p);
    RunTotal(t.drugs, t.batches, req.items, p);
    var items := PlaceOrder(t, req, token).1.items;
    assert ItemSubtotals(items) == LineSubtotals(p.lines);
  }

  /** An order keeps every key, the foreign key and the id counters of the tables. */
  lemma {:induction false} PlaceOrderValid(t: Tables, req: OrderRequest, token: string)
    requires Valid(t)
    ensures Valid(PlaceOrder(t, req, token).0)
  {
    if ValidRequest(t, req) && Run(t.drugs, t.batches, req.items).Ok? {
      var p := Run(t.drugs, t.batches, req.items).value;
      PlaceOrderGoesThrough(t, req, token, p);
      var order := Order(t.nextOrderId, "ORD-" + Upper(token), "pending", CleanInput(req.notes), p.total);
      MidwayValid(t, order, p.batches, ItemsOf(p.lines, t.nextOrderId, t.nextItemId));
    }
  }

  /** Writing the order, its numbered items and re-counted batches keeps every constraint of the schema. */
  lemma {:induction false} MidwayValid(t: Tables, order: Order, batches: seq<Batch>, items: seq<OrderItem>)
    requires Valid(t) && SameRowsButQuantity(t.batches, batches) && order.id == t.nextOrderId
    requires forall k :: 0 <= k < |items| ==> items[k].id == t.nextItemId + k
    ensures Valid(Midway(t, order, batches, items))
  {
    var t' := Midway(t, order, batches, items);
    SameRowsKeepKeys(t.batches, batches);
    assert forall k :: 0 <= k < |t.orders| ==> t.orders[k].id < order.id;
    ItemsAppendUnique(t.orderItems, items, t.nextItemId);
    forall k | 0 <= k < |batches|
      ensures HasDrug(t'.drugs, batches[k].drugId) && batches[k].id < t'.nextBatchId
      ensures |batches[k].batchNo| <= BatchNoMaxLength
    {
      assert batches[k].drugId == t.batches[k].drugId && batches[k].id == t.batches[k].id;
      assert batches[k].batchNo == t.batches[k].batchNo;
    }
  }

  /** Changing quantities keeps the primary key and the lot key of batches unique. */
  lemma {:induction false} SameRowsKeepKeys(bs: seq<Batch>, bs': seq<Batch>)
    requires BatchKeys(bs) && SameRowsButQuantity(bs, bs')
    ensures BatchKeys(bs')
  {
    assert forall k :: 0 <= k < |bs| ==>
      bs'[k].id == bs[k].id && bs'[k].drugId == bs[k].drugId && bs'[k].batchNo == bs[k].batchNo;
  }

  /** Items numbered from the counter upwards have ids no earlier item has. */
  lemma {:induction false} ItemsAppendUnique(old_: seq<OrderItem>, added: seq<OrderItem>, first: nat)
    requires forall i, j :: 0 <= i < j < |old_| ==> old_[i].id != old_[j].id
    requires forall k :: 0 <= k < |old_| ==> old_[k].id < first
    requires forall k :: 0 <= k < |added| ==> added[k].id == first + k
    ensures forall i, j :: 0 <= i < j < |old_ + added| ==> (old_ + added)[i].id != (old_ + added)[j].id
    ensures forall k :: 0 <= k < |old_ + added| ==> (old_ + added)[k].id < first + |added|
  {
    var all := old_ + added;
    forall i, j | 0 <= i < j < |all| ensures all[i].id != all[j].id {
      if j >= |old_| {
        assert all[j] == added[j - |old_|];
        if i >= |old_| {
          assert all[i] == added[i - |old_|];
        }
      }
    }
  }

  /**
    A batch holding at least q but fewer than 2q units sells one item of q,
    yet fails an order asking for q twice: the second item is checked against
    what the first one left, and the message names that batch.
   */
  lemma {:induction false} SecondItemSeesDecrement(t: Tables, x: ItemRequest, kx: nat, token: string)
    requires Valid(t) && ValidItem(t, x)
    requires kx < |t.batches| && t.batches[kx].id == x.batchId
    requires x.quantity <= t.batches[kx].quantity < 2 * x.quantity
    ensures PlaceOrder(t, OrderRequest([x], None), token).1.OrderCreated?
    ensures PlaceOrder(t, OrderRequest([x, x], None), token).1
      == OrderFailed("Order failed: " + (InsufficientStock + t.batches[kx].batchNo))
  {
    var p1 := OnceNotTwice(t, x, kx);
    assert ValidRequest(t, OrderRequest([x], None));
    PlaceOrderGoesThrough(t, OrderRequest([x], None), token, p1);
    assert ValidRequest(t, OrderRequest([x, x], None));
    FailedOrder(t, OrderRequest([x, x], None), token, InsufficientStock + t.batches[kx].batchNo);
  }

  /** The walk behind SecondItemSeesDecrement: one pass goes through, the second overdraws. */
  lemma {:induction false} OnceNotTwice(t: Tables, x: ItemRequest, kx: nat) returns (p1: Progress)
    requires Valid(t) && ValidItem(t, x)
    requires kx < |t.batches| && t.batches[kx].id == x.batchId
    requires x.quantity <= t.batches[kx].quantity < 2 * x.quantity
    ensures Run(t.drugs, t.batches, [x]) == Ok(p1)
    ensures Run(t.drugs, t.batches, [x, x]) == Err(InsufficientStock + t.batches[kx].batchNo)
  {
    var found := FindBatch(t.batches, x.batchId);
    assert found == Some(kx) by {
      assert found.Some? && t.batches[found.value].id == x.batchId;
      assert BatchIdsUnique(t.batches);
    }
    assert HasDrug(t.drugs, t.batches[kx].drugId);
    var p0 := Progress(t.batches, [], 0);
    StepDecrements(t.drugs, p0, x, kx);
    p1 := Step(t.drugs, p0, x).value;
    assert Run(t.drugs, t.batches, [x]) == Ok(p1) by {
      assert [x][..0] == [];
    }
    FindBatchSameRows(t.batches, p1.batches, x.batchId);
    StepOverdraws(t.drugs, p1, x, kx);
    assert [x, x][..1] == [x];
  }

  // ---------------------------------------------------------------------------
  // The controller

  /**
    OrderController::store on the database: the order row is created first,
    then the items are walked one by one, changing the batches and order items
    in place; a thrown exception restores the saved tables.
   */
  method Store(db: Database, req: OrderRequest, token: string) returns (resp: Response)
    modifies db
    ensures (db.State(), resp) == PlaceOrder(old(db.State()), req, token)
  {
    if !ValidRequest(db.State(), req) {
      return ValidationFailed;
    }
    var saved := db.State();
    var orderId := db.nextOrderId;
    var order := Order(orderId, "ORD-" + Upper(token), "pending", CleanInput(req.notes), 0);
    db.orders := db.orders + [order];
    db.nextOrderId := db.nextOrderId + 1;
    var failure, items, total, p := SellAll(db, saved, req.items, order);
    if failure.Some? {
      db.Restore(saved);
      FailedOrder(saved, req, token, failure.value);
      return OrderFailed("Order failed: " + failure.value);
    }
    resp := PlacedOrder(db, saved, req, token, order, items, total, p);
  }

  /**
    The loop of the transaction: sell the items one by one. A failure is the
    message of the first exception, the one Run stops at; otherwise the tables
    hold the walk's batches and its numbered items.
   */
  method SellAll(db: Database, saved: Tables, reqItems: seq<ItemRequest>, order: Order)
    returns (failure: Option<string>, items: seq<OrderItem>, total: int, ghost p: Progress)
    requires db.State() == Midway(saved, order, saved.batches, [])
    modifies db
    ensures failure.Some? ==> Run(saved.drugs, saved.batches, reqItems) == Err(failure.value)
    ensures failure.None? ==>
      && Walk(saved.drugs, saved.batches, reqItems, |reqItems|) == Ok(p) && total == p.total
      && items == ItemsOf(p.lines, order.id, saved.nextItemId)
      && db.State() == Midway(saved, order, p.batches, items)
  {
    total := 0;
    items := [];
    p := Progress(saved.batches, [], 0);
    var i := 0;
    while i < |reqItems|
      invariant 0 <= i <= |reqItems| && |p.lines| == i && total == p.total
      invariant Walk(saved.drugs, saved.batches, reqItems, i) == Ok(p)
      invariant items == ItemsOf(p.lines, order.id, saved.nextItemId)
      invariant db.State() == Midway(saved, order, p.batches, items)
    {
      var lost, line, orderItem := SellItem(db, reqItems[i], order, saved, p, items);
      if lost.Some? {
        WalkFails(saved.drugs, saved.batches, reqItems, i, p, lost.value);
        failure := lost;
        return;
      }
      ghost var p' := Progress(db.batches, p.lines + [line], p.total + line.subtotal);
      NextWalk(saved.drugs, saved.batches, reqItems, i, p, p');
      ItemsOfSnoc(p.lines, line, order.id, saved.nextItemId, orderItem);
      total := total + line.subtotal;
      items := items + [orderItem];
      p := p';
      i := i + 1;
    }
    failure := None;
  }

  /** The tables part-way through the walk: the order row is in, the batches and the items so far are written. */
  function Midway(saved: Tables, order: Order, batches: seq<Batch>, items: seq<OrderItem>): Tables {
    saved.(batches := batches, orders := saved.orders + [order], orderItems := saved.orderItems + items,
           nextOrderId := saved.nextOrderId + 1, nextItemId := saved.nextItemId + |items|)
  }

  /**
    One pass of the loop body: find the batch (findOrFail), check its stock,
    price the line from the batch's drug, add the order item and decrement the
    batch. A failure is the message of the exception thrown, before anything is
    written; on success the changes are exactly those of Step.
   */
  method SellItem(db: Database, item: ItemRequest, order: Order, ghost saved: Tables, ghost p: Progress,
                  ghost items: seq<OrderItem>)
    returns (failure: Option<string>, line: Line, orderItem: OrderItem)
    requires db.State() == Midway(saved, order, p.batches, items)
    modifies db
    ensures failure.Some? ==> Step(saved.drugs, p, item) == Err(failure.value)
    ensures failure.None? ==>
      && Step(saved.drugs, p, item) == Ok(Progress(db.batches, p.lines + [line], p.total + line.subtotal))
      && orderItem == OrderItem(saved.nextItemId + |items|, order.id, line.drugId, line.batchId, line.quantity,
                                line.unitPrice, line.subtotal)
      && db.State() == Midway(saved, order, db.batches, items + [orderItem])
  {
    line := Line(0, 0, 0, 0, 0);
    orderItem := OrderItem(0, 0, 0, 0, 0, 0, 0);
    var found := FindBatch(db.batches, item.batchId);
    if found.None? {
      StepMissesBatch(db.drugs, p, item);
      return Some(BatchNotFound(item.batchId)), line, orderItem;
    }
    var b := db.batches[found.value];
    if b.quantity < item.quantity {
      StepOverdraws(db.drugs, p, item, found.value);
      return Some(InsufficientStock + b.batchNo), line, orderItem;
    }
    var drugAt := FindDrug(db.drugs, b.drugId);
    if drugAt.None? {
      StepMissesDrug(db.drugs, p, item, found.value);
      return Some(DrugMissing), line, orderItem;
    }
    StepSells(db.drugs, p, item, found.value, drugAt.value);
    var price := db.drugs[drugAt.value].info.sellingPrice;
    var subtotal := price * item.quantity;
    line := Line(item.drugId, item.batchId, item.quantity, price, subtotal);
    orderItem := OrderItem(db.nextItemId, order.id, item.drugId, item.batchId, item.quantity, price, subtotal);
    db.orderItems := db.orderItems + [orderItem];
    db.nextItemId := db.nextItemId + 1;
    db.batches := db.batches[found.value := b.(quantity := b.quantity - item.quantity)];
    failure := None;
  }

  /** After the loop: store the order's total and answer with the order and its items. */
  method PlacedOrder(db: Database, saved: Tables, req: OrderRequest, token: string, order: Order,
                     items: seq<OrderItem>, total: int, ghost p: Progress)
    returns (resp: Response)
    requires ValidRequest(saved, req) && Walk(saved.drugs, saved.batches, req.items, |req.items|) == Ok(p)
    requires order == Order(saved.nextOrderId, "ORD-" + Upper(token), "pending", CleanInput(req.notes), 0)
    requires total == p.total && items == ItemsOf(p.lines, saved.nextOrderId, saved.nextItemId)
    requires db.State() == Midway(saved, order, p.batches, items)
    modifies db
    ensures (db.State(), resp) == PlaceOrder(saved, req, token)
  {
    PlacedOrderIs(saved, req, token, p, order, items);
    var placed := order.(totalAmount := total);
    ghost var before := db.State();
    db.orders := saved.orders + [placed];
    assert db.State() == before.(orders := saved.orders + [placed]);
    assert db.State() == Midway(saved, placed, p.batches, items);
    return OrderCreated(placed, items);
  }

  /** The walk over one more item is the walk so far followed by one step. */
  lemma {:induction false} NextWalk(drugs: seq<Drug>, batches: seq<Batch>, items: seq<ItemRequest>, i: nat,
                                    p: Progress, p': Progress)
    requires i < |items| && Walk(drugs, batches, items, i) == Ok(p)
    requires Step(drugs, p, items[i]) == Ok(p')
    ensures Walk(drugs, batches, items, i + 1) == Ok(p')
  {
  }

  /** One more line keeps the numbering of ItemsOf. */
  lemma {:induction false} ItemsOfSnoc(lines: seq<Line>, line: Line, orderId: nat, firstId: nat, item: OrderItem)
    requires item == OrderItem(firstId + |lines|, orderId, line.drugId, line.batchId, line.quantity,
                               line.unitPrice, line.subtotal)
    ensures ItemsOf(lines + [line], orderId, firstId) == ItemsOf(lines, orderId, firstId) + [item]
  {
  }

  lemma {:induction false} StepMissesBatch(drugs: seq<Drug>, p: Progress, x: ItemRequest)
    requires FindBatch(p.batches, x.batchId) == None
    ensures Step(drugs, p, x) == Err(BatchNotFound(x.batchId))
  {
  }

  lemma {:induction false} StepMissesDrug(drugs: seq<Drug>, p: Progress, x: ItemRequest, kx: nat)
    requires FindBatch(p.batches, x.batchId) == Some(kx)
    requires p.batches[kx].quantity >= x.quantity && FindDrug(drugs, p.batches[kx].drugId) == None
    ensures Step(drugs, p, x) == Err(DrugMissing)
  {
  }

  /** An item that fits, on a batch whose drug exists, decrements the batch and adds one priced line. */
  lemma {:induction false} StepSells(drugs: seq<Drug>, p: Progress, x: ItemRequest, kx: nat, j: nat)
    requires FindBatch(p.batches, x.batchId) == Some(kx)
    requires p.batches[kx].quantity >= x.quantity && FindDrug(drugs, p.batches[kx].drugId) == Some(j)
    ensures var price := drugs[j].info.sellingPrice;
      Step(drugs, p, x) == Ok(Progress(
        p.batches[kx := p.batches[kx].(quantity := p.batches[kx].quantity - x.quantity)],
        p.lines + [Line(x.drugId, x.batchId, x.quantity, price, price * x.quantity)],
        p.total + price * x.quantity))
  {
  }

  /** A step that throws makes the whole walk fail with its message. */
  lemma {:induction false} WalkFails(drugs: seq<Drug>, batches: seq<Batch>, items: seq<ItemRequest>, i: nat,
                                     p: Progress, m: string)
    requires i < |items| && Walk(drugs, batches, items, i) == Ok(p)
    requires Step(drugs, p, items[i]) == Err(m)
    ensures Run(drugs, batches, items) == Err(m)
  {
    WalkStepFails(drugs, batches, items, i, p, m);
    WalkIsRun(drugs, batches, items, i + 1);
    RunStopsAtError(drugs, batches, items, i + 1);
  }

  /** One step of the walk that throws ends the walk so far with its message. */
  lemma WalkStepFails(drugs: seq<Drug>, batches: seq<Batch>, items: seq<ItemRequest>, i: nat,
                      p: Progress, m: string)
    requires i < |items| && Walk(drugs, batches, items, i) == Ok(p)
    requires Step(drugs, p, items[i]) == Err(m)
    ensures Walk(drugs, batches, items, i + 1) == Err(m)
  {
  }

  /** The walk over all the items is Run. */
  lemma {:induction false} WalkAll(drugs: seq<Drug>, batches: seq<Batch>, items: seq<ItemRequest>)
    ensures Walk(drugs, batches, items, |items|) == Run(drugs, batches, items)
  {
    WalkIsRun(drugs, batches, items, |items|);
    assert items[..|items|] == items;
  }

  /** A valid request whose walk throws fails with that message and changes nothing. */
  lemma {:induction false} FailedOrder(t: Tables, req: OrderRequest, token: string, m: string)
    requires ValidRequest(t, req) && Run(t.drugs, t.batches, req.items) == Err(m)
    ensures PlaceOrder(t, req, token) == (t, OrderFailed("Order failed: " + m))
  {
  }

  /** A valid request whose walk goes through writes the order, its items and the decremented batches. */
  lemma {:induction false} PlacedOrderIs(t: Tables, req: OrderRequest, token: string, p: Progress,
                                         order: Order, items: seq<OrderItem>)
    requires ValidRequest(t, req) && Walk(t.drugs, t.batches, req.items, |req.items|) == Ok(p)
    requires order == Order(t.nextOrderId, "ORD-" + Upper(token), "pending", CleanInput(req.notes), 0)
    requires items == ItemsOf(p.lines, t.nextOrderId, t.nextItemId)
    ensures PlaceOrder(t, req, token) ==
      (Midway(t, order.(totalAmount := p.total), p.batches, items), OrderCreated(order.(totalAmount := p.total), items))
  {
    WalkAll(t.drugs, t.batches, req.items);
    PlaceOrderGoesThrough(t, req, token, p);
  }

  lemma {:induction false} PlaceOrderGoesThrough(t: Tables, req: OrderRequest, token: string, p: Progress)
    requires ValidRequest(t, req) && Run(t.drugs, t.batches, req.items) == Ok(p)
    ensures var order := Order(t.nextOrderId, "ORD-" + Upper(token), "pending", CleanInput(req.notes), p.total);
      var items := ItemsOf(p.lines, t.nextOrderId, t.nextItemId);
      PlaceOrder(t, req, token) == (Midway(t, order, p.batches, items), OrderCreated(order, items))
  {
  }
}
