/**
  The inventory tables as the two create-table migrations declare them, plus the
  order tables the order controller writes to.

  A table is a sequence of rows in insertion order; every row carries its
  auto-increment id and each table keeps the next id to hand out. Money columns
  (DECIMAL(10, 2)) hold integer cents and DATE columns hold day numbers
  (see Calendar).
 */
module Schema {
  import opened Wrappers
  import opened Seqs

  /** drugs.ndc is VARCHAR(50) and batches.batch_no is VARCHAR(100). */
  const NdcMaxLength: nat := 50
  const BatchNoMaxLength: nat := 100

  /** Column defaults: drugs.rx_status, drugs.min_stock_level and batches.quantity. */
  const DefaultRxStatus: string := "Rx"
  const DefaultMinStockLevel: int := 0
  const DefaultQuantity: int := 0

  /** The non-key columns of a drug. The Option columns are the nullable ones. */
  datatype DrugInfo = DrugInfo(
    brandName: string,
    genericName: Option<string>,
    manufacturer: string,
    dosageForm: Option<string>,
    strength: string,
    packageSize: int,
    uom: string,
    sellingPrice: int,
    rxStatus: string,
    schedule: Option<string>,
    storage: Option<string>,
    minStockLevel: int,
    location: Option<string>)

  datatype Drug = Drug(id: nat, ndc: string, info: DrugInfo)

  /** A batch row holds exactly the id and the Batch model's mass-assignable columns. */
  datatype Batch = Batch(id: nat, drugId: nat, batchNo: string, expiryDate: int, quantity: int, costPrice: int)

  datatype Order = Order(id: nat, orderNumber: string, status: string, notes: Option<string>, totalAmount: int)

  datatype OrderItem = OrderItem(
    id: nat, orderId: nat, drugId: int, batchId: int, quantity: int, unitPrice: int, subtotal: int)

  datatype Tables = Tables(
    drugs: seq<Drug>,
    batches: seq<Batch>,
    orders: seq<Order>,
    orderItems: seq<OrderItem>,
    nextDrugId: nat,
    nextBatchId: nat,
    nextOrderId: nat,
    nextItemId: nat)

  const EmptyTables: Tables := Tables([], [], [], [], 1, 1, 1, 1)

  // ---------------------------------------------------------------------------
  // Lookups

  function FindDrug(ds: seq<Drug>, id: int): Option<nat> {
    FirstWhere(ds, (d: Drug) => d.id == id)
  }

  function FindDrugByNdc(ds: seq<Drug>, ndc: string): Option<nat> {
    FirstWhere(ds, (d: Drug) => d.ndc == ndc)
  }

  function FindBatch(bs: seq<Batch>, id: int): Option<nat> {
    FirstWhere(bs, (b: Batch) => b.id == id)
  }

  /** The batch row with the unique key (drug_id, batch_no). */
  function FindBatchByKey(bs: seq<Batch>, drugId: nat, batchNo: string): Option<nat> {
    FirstWhere(bs, (b: Batch) => b.drugId == drugId && b.batchNo == batchNo)
  }

  predicate HasDrug(ds: seq<Drug>, id: int) {
    FindDrug(ds, id).Some?
  }

  predicate HasBatch(bs: seq<Batch>, id: int) {
    FindBatch(bs, id).Some?
  }

  // ---------------------------------------------------------------------------
  // Constraints

  /** The primary key and the unique index on drugs.ndc. */
  predicate DrugKeys(ds: seq<Drug>) {
    forall i, j :: 0 <= i < j < |ds| ==> ds[i].id != ds[j].id && ds[i].ndc != ds[j].ndc
  }

  /** The primary key of batches. */
  predicate BatchIdsUnique(bs: seq<Batch>) {
    forall i, j :: 0 <= i < j < |bs| ==> bs[i].id != bs[j].id
  }

  /** The unique index unique_drug_batch on (drug_id, batch_no). */
  predicate BatchLotsUnique(bs: seq<Batch>) {
    forall i, j :: 0 <= i < j < |bs| ==> bs[i].drugId != bs[j].drugId || bs[i].batchNo != bs[j].batchNo
  }

  predicate BatchKeys(bs: seq<Batch>) {
    BatchIdsUnique(bs) && BatchLotsUnique(bs)
  }

  predicate OrderKeys(t: Tables) {
    && (forall i, j :: 0 <= i < j < |t.orders| ==> t.orders[i].id != t.orders[j].id)
    && (forall i, j :: 0 <= i < j < |t.orderItems| ==> t.orderItems[i].id != t.orderItems[j].id)
  }

  /** The foreign key batches.drug_id -> drugs.id. */
  predicate BatchesReferenceDrugs(t: Tables) {
    forall k :: 0 <= k < |t.batches| ==> HasDrug(t.drugs, t.batches[k].drugId)
  }

  /** Every id was handed out by its table's counter, so the next one is unused. */
  predicate IdsBelowCounters(t: Tables) {
    && (forall k :: 0 <= k < |t.drugs| ==> t.drugs[k].id < t.nextDrugId)
    && (forall k :: 0 <= k < |t.batches| ==> t.batches[k].id < t.nextBatchId)
    && (forall k :: 0 <= k < |t.orders| ==> t.orders[k].id < t.nextOrderId)
    && (forall k :: 0 <= k < |t.orderItems| ==> t.orderItems[k].id < t.nextItemId)
  }

  predicate ColumnWidths(t: Tables) {
    && (forall k :: 0 <= k < |t.drugs| ==> |t.drugs[k].ndc| <= NdcMaxLength)
    && (forall k :: 0 <= k < |t.batches| ==> |t.batches[k].batchNo| <= BatchNoMaxLength)
  }

  /** Everything the schema enforces on the inventory and order tables. */
  predicate Valid(t: Tables) {
    && DrugKeys(t.drugs)
    && BatchKeys(t.batches)
    && OrderKeys(t)
    && BatchesReferenceDrugs(t)
    && IdsBelowCounters(t)
    && ColumnWidths(t)
  }

  /** No batch holds a negative quantity (kept by every operation of the model, not by the schema). */
  predicate StockNonNegative(t: Tables) {
    forall k :: 0 <= k < |t.batches| ==> t.batches[k].quantity >= 0
  }

  lemma {:induction false} EmptyTablesValid()
    ensures Valid(EmptyTables) && StockNonNegative(EmptyTables)
  {
  }

  /** Under the unique keys, the row a lookup finds is the only row with that key. */
  lemma {:induction false} FindDrugByNdcUnique(ds: seq<Drug>, ndc: string, k: nat)
    requires DrugKeys(ds)
    requires k < |ds| && ds[k].ndc == ndc
    ensures FindDrugByNdc(ds, ndc) == Some(k)
  {
  }

  // ---------------------------------------------------------------------------
  // Writing a value into a column

  /**
    What an INSERT or UPDATE supplies for one column: nothing (the column is
    left out of the statement), NULL, a value, or text the column's type cannot
    hold (strict SQL mode rejects it).
   */
  datatype Cell<T> = Omitted | Null | Value(v: T) | Uncastable

  /** A NOT NULL column: an omitted column takes its default; NULL or bad text is a write error. */
  function NotNullColumn<T>(c: Cell<T>, default: Option<T>): (r: Option<T>)
    ensures r.Some? <==> c.Value? || (c.Omitted? && default.Some?)
    ensures c.Value? ==> r == Some(c.v)
    ensures c.Omitted? ==> r == default
  {
    match c
    case Omitted => default
    case Null => None
    case Value(v) => Some(v)
    case Uncastable => None
  }

  /** A nullable column without a default: omitted or NULL stores NULL; bad text is a write error. */
  function NullableColumn<T>(c: Cell<T>): (r: Option<Option<T>>)
    ensures r.Some? <==> !c.Uncastable?
    ensures c.Value? ==> r == Some(Some(c.v))
    ensures c.Omitted? || c.Null? ==> r == Some(None)
  {
    match c
    case Omitted => Some(None)
    case Null => Some(None)
    case Value(v) => Some(Some(v))
    case Uncastable => None
  }

  /** The values an insert or update of a drug supplies for its non-key columns. */
  datatype DrugCells = DrugCells(
    brandName: Cell<string>,
    genericName: Cell<string>,
    manufacturer: Cell<string>,
    dosageForm: Cell<string>,
    strength: Cell<string>,
    packageSize: Cell<int>,
    uom: Cell<string>,
    sellingPrice: Cell<int>,
    rxStatus: Cell<string>,
    schedule: Cell<string>,
    storage: Cell<string>,
    minStockLevel: Cell<int>,
    location: Cell<string>)

  /** The stored non-key columns of a drug write, or None when the database rejects the write. */
  function DrugColumns(c: DrugCells): Option<DrugInfo> {
    var brandName := NotNullColumn(c.brandName, None);
    var genericName := NullableColumn(c.genericName);
    var manufacturer := NotNullColumn(c.manufacturer, None);
    var dosageForm := NullableColumn(c.dosageForm);
    var strength := NotNullColumn(c.strength, None);
    var packageSize := NotNullColumn(c.packageSize, None);
    var uom := NotNullColumn(c.uom, None);
    var sellingPrice := NotNullColumn(c.sellingPrice, None);
    var rxStatus := NotNullColumn(c.rxStatus, Some(DefaultRxStatus));
    var schedule := NullableColumn(c.schedule);
    var storage := NullableColumn(c.storage);
    var minStockLevel := NotNullColumn(c.minStockLevel, Some(DefaultMinStockLevel));
    var location := NullableColumn(c.location);
    if && brandName.Some? && genericName.Some? && manufacturer.Some? && dosageForm.Some?
       && strength.Some? && packageSize.Some? && uom.Some? && sellingPrice.Some?
       && rxStatus.Some? && schedule.Some? && storage.Some? && minStockLevel.Some?
       && location.Some?
    then Some(DrugInfo(
      brandName.value, genericName.value, manufacturer.value, dosageForm.value,
      strength.value, packageSize.value, uom.value, sellingPrice.value, rxStatus.value,
      schedule.value, storage.value, minStockLevel.value, location.value))
    else None
  }

  /**
    A drug write succeeds exactly when every NOT NULL column without a default
    gets a value, rx_status and min_stock_level get a value or are omitted, and
    no nullable column gets bad text; an omitted rx_status is "Rx" and an
    omitted min_stock_level is 0.
   */
  lemma {:induction false} DrugColumnsSpec(c: DrugCells)
    ensures DrugColumns(c).Some? <==>
      && c.brandName.Value? && c.manufacturer.Value? && c.strength.Value?
      && c.packageSize.Value? && c.uom.Value? && c.sellingPrice.Value?
      && (c.rxStatus.Value? || c.rxStatus.Omitted?)
      && (c.minStockLevel.Value? || c.minStockLevel.Omitted?)
      && !c.genericName.Uncastable? && !c.dosageForm.Uncastable? && !c.schedule.Uncastable?
      && !c.storage.Uncastable? && !c.location.Uncastable?
    ensures DrugColumns(c).Some? && c.rxStatus.Omitted? ==> DrugColumns(c).value.rxStatus == "Rx"
    ensures DrugColumns(c).Some? && c.minStockLevel.Omitted? ==> DrugColumns(c).value.minStockLevel == 0
    ensures DrugColumns(c).Some? && c.genericName.Null? ==> DrugColumns(c).value.genericName.None?
  {
  }

  /** The values a batch write stores, or None when the database rejects it (quantity defaults to 0). */
  function BatchColumns(expiryDate: Cell<int>, quantity: Cell<int>, costPrice: Cell<int>): (r: Option<(int, int, int)>)
    ensures r.Some? <==> expiryDate.Value? && costPrice.Value? && (quantity.Value? || quantity.Omitted?)
    ensures r.Some? && quantity.Omitted? ==> r.value.1 == DefaultQuantity
  {
    var e := NotNullColumn(expiryDate, None);
    var q := NotNullColumn(quantity, Some(DefaultQuantity));
    var c := NotNullColumn(costPrice, None);
    if e.Some? && q.Some? && c.Some? then Some((e.value, q.value, c.value)) else None
  }

  // ---------------------------------------------------------------------------
  // updateOrCreate on the two natural keys

  /** Update the drug with this ndc, or insert it with the next id; returns the drug's id. */
  function UpsertDrug(t: Tables, ndc: string, info: DrugInfo): (Tables, nat) {
    match FindDrugByNdc(t.drugs, ndc)
    case Some(k) =>
      (t.(drugs := t.drugs[k := t.drugs[k].(info := info)]), t.drugs[k].id)
    case None =>
      (t.(drugs := t.drugs + [Drug(t.nextDrugId, ndc, info)], nextDrugId := t.nextDrugId + 1), t.nextDrugId)
  }

  /** Update the batch with key (drugId, batchNo), or insert it with the next id. */
  function UpsertBatch(t: Tables, drugId: nat, batchNo: string, expiryDate: int, quantity: int, costPrice: int): Tables {
    match FindBatchByKey(t.batches, drugId, batchNo)
    case Some(k) =>
      t.(batches := t.batches[k := t.batches[k].(expiryDate := expiryDate, quantity := quantity, costPrice := costPrice)])
    case None =>
      t.(batches := t.batches + [Batch(t.nextBatchId, drugId, batchNo, expiryDate, quantity, costPrice)],
         nextBatchId := t.nextBatchId + 1)
  }

  /**
    After a drug upsert exactly one drug has the ndc, it carries the written
    columns, every other drug is as before, the other tables are untouched and
    the constraints still hold.
   */
  lemma {:induction false} UpsertDrugSpec(t: Tables, ndc: string, info: DrugInfo)
    requires Valid(t)
    requires |ndc| <= NdcMaxLength
    ensures var (t', id) := UpsertDrug(t, ndc, info);
      && Valid(t')
      && t'.batches == t.batches && t'.orders == t.orders && t'.orderItems == t.orderItems
      && (exists k :: 0 <= k < |t'.drugs| && t'.drugs[k] == Drug(id, ndc, info))
      && (forall k :: 0 <= k < |t'.drugs| && t'.drugs[k].ndc != ndc ==> t'.drugs[k] in t.drugs)
      && (forall k :: 0 <= k < |t.drugs| && t.drugs[k].ndc != ndc ==> t.drugs[k] in t'.drugs)
      && StockNonNegative(t) == StockNonNegative(t')
  {
    match FindDrugByNdc(t.drugs, ndc)
    case Some(k) =>
      var ds' := t.drugs[k := t.drugs[k].(info := info)];
      UpdatedDrugKeepsRest(t.drugs, k, info);
      DrugsKeepReferences(t, ds');
      assert ds'[k] == Drug(t.drugs[k].id, ndc, info);
    case None =>
      var added := Drug(t.nextDrugId, ndc, info);
      var ds' := t.drugs + [added];
      AddedDrugKeepsRest(t, added);
      DrugsKeepReferences(t, ds');
      assert ds'[|t.drugs|] == added;
  }

  /** Rewriting the columns of one drug keeps the keys and every other drug. */
  lemma {:induction false} UpdatedDrugKeepsRest(ds: seq<Drug>, k: nat, info: DrugInfo)
    requires k < |ds| && DrugKeys(ds)
    ensures var ds' := ds[k := ds[k].(info := info)];
      && DrugKeys(ds')
      && (forall j :: 0 <= j < |ds| ==> ds'[j].id == ds[j].id && ds'[j].ndc == ds[j].ndc)
      && (forall j :: 0 <= j < |ds'| && ds'[j].ndc != ds[k].ndc ==> ds'[j] in ds)
      && (forall j :: 0 <= j < |ds| && ds[j].ndc != ds[k].ndc ==> ds[j] in ds')
  {
    var ds' := ds[k := ds[k].(info := info)];
    assert forall j :: 0 <= j < |ds| ==> ds'[j].id == ds[j].id && ds'[j].ndc == ds[j].ndc;
    forall j | 0 <= j < |ds| && ds[j].ndc != ds[k].ndc ensures ds[j] in ds' {
      assert ds'[j] == ds[j];
    }
  }

  /** Appending a drug with the next id and a new ndc keeps the keys, the counters and the widths. */
  lemma {:induction false} AddedDrugKeepsRest(t: Tables, added: Drug)
    requires Valid(t) && added.id == t.nextDrugId && |added.ndc| <= NdcMaxLength
    requires FindDrugByNdc(t.drugs, added.ndc) == None
    ensures var ds' := t.drugs + [added];
      && DrugKeys(ds')
      && (forall j :: 0 <= j < |ds'| ==> ds'[j].id < t.nextDrugId + 1 && |ds'[j].ndc| <= NdcMaxLength)
      && (forall j :: 0 <= j < |t.drugs| ==> t.drugs[j] in ds')
      && (forall j :: 0 <= j < |ds'| && ds'[j].ndc != added.ndc ==> ds'[j] in t.drugs)
  {
    var ds' := t.drugs + [added];
    forall i, j | 0 <= i < j < |ds'| ensures ds'[i].id != ds'[j].id && ds'[i].ndc != ds'[j].ndc {
      assert ds'[i] == t.drugs[i];
    }
    assert forall j :: 0 <= j < |t.drugs| ==> ds'[j] == t.drugs[j];
  }

  /** Drugs whose ids cover the old ones keep every batch's drug reference. */
  lemma {:induction false} DrugsKeepReferences(t: Tables, ds': seq<Drug>)
    requires BatchesReferenceDrugs(t) && |t.drugs| <= |ds'|
    requires forall j :: 0 <= j < |t.drugs| ==> ds'[j].id == t.drugs[j].id
    ensures BatchesReferenceDrugs(t.(drugs := ds'))
  {
    forall b | 0 <= b < |t.batches| ensures HasDrug(ds', t.batches[b].drugId) {
      var j := FindDrug(t.drugs, t.batches[b].drugId).value;
      assert ds'[j].id == t.batches[b].drugId;
    }
  }

  /** A second upsert of the same drug changes nothing and returns the same id. */
  lemma {:induction false} UpsertDrugIdempotent(t: Tables, ndc: string, info: DrugInfo)
    ensures var (t', id) := UpsertDrug(t, ndc, info); UpsertDrug(t', ndc, info) == (t', id)
  {
    var (t', id) := UpsertDrug(t, ndc, info);
    match FindDrugByNdc(t.drugs, ndc)
    case Some(k) =>
      assert FindDrugByNdc(t'.drugs, ndc) == Some(k) by {
        assert forall j :: 0 <= j < k ==> t'.drugs[j] == t.drugs[j];
      }
      assert t'.drugs[k := t'.drugs[k].(info := info)] == t'.drugs;
    case None =>
      assert FindDrugByNdc(t'.drugs, ndc) == Some(|t.drugs|) by {
        assert forall j :: 0 <= j < |t.drugs| ==> t'.drugs[j] == t.drugs[j];
      }
      assert t'.drugs[|t.drugs| := t'.drugs[|t.drugs|].(info := info)] == t'.drugs;
  }

  /**
    What a batch upsert promises besides the constraints: the other tables are
    untouched, a batch with key (drugId, batchNo) carries the written expiry,
    quantity (replaced, not added) and cost, every other batch is as before,
    and stock stays non-negative when the written quantity is.
   */
  ghost predicate BatchUpserted(t: Tables, t': Tables, drugId: nat, batchNo: string, expiryDate: int, quantity: int, costPrice: int) {
    && t'.drugs == t.drugs && t'.orders == t.orders && t'.orderItems == t.orderItems
    && (exists k :: 0 <= k < |t'.batches|
          && t'.batches[k].drugId == drugId && t'.batches[k].batchNo == batchNo
          && t'.batches[k].expiryDate == expiryDate && t'.batches[k].quantity == quantity
          && t'.batches[k].costPrice == costPrice)
    && (forall k :: 0 <= k < |t'.batches| && (t'.batches[k].drugId, t'.batches[k].batchNo) != (drugId, batchNo)
          ==> t'.batches[k] in t.batches)
    && (forall k :: 0 <= k < |t.batches| && (t.batches[k].drugId, t.batches[k].batchNo) != (drugId, batchNo)
          ==> t.batches[k] in t'.batches)
    && (StockNonNegative(t) && quantity >= 0 ==> StockNonNegative(t'))
  }

  /** A batch upsert keeps the constraints and does what BatchUpserted describes. */
  lemma {:induction false} UpsertBatchSpec(t: Tables, drugId: nat, batchNo: string, expiryDate: int, quantity: int, costPrice: int)
    requires Valid(t)
    requires HasDrug(t.drugs, drugId) && |batchNo| <= BatchNoMaxLength
    ensures var t' := UpsertBatch(t, drugId, batchNo, expiryDate, quantity, costPrice);
      Valid(t') && BatchUpserted(t, t', drugId, batchNo, expiryDate, quantity, costPrice)
  {
    match FindBatchByKey(t.batches, drugId, batchNo)
    case Some(k) => UpdateBatchSpec(t, drugId, batchNo, expiryDate, quantity, costPrice, k);
    case None => InsertBatchSpec(t, drugId, batchNo, expiryDate, quantity, costPrice);
  }

  lemma {:induction false} UpdateBatchSpec(t: Tables, drugId: nat, batchNo: string, expiryDate: int, quantity: int, costPrice: int, k: nat)
    requires Valid(t)
    requires FindBatchByKey(t.batches, drugId, batchNo) == Some(k)
    ensures var t' := UpsertBatch(t, drugId, batchNo, expiryDate, quantity, costPrice);
      Valid(t') && BatchUpserted(t, t', drugId, batchNo, expiryDate, quantity, costPrice)
  {
    var t' := UpsertBatch(t, drugId, batchNo, expiryDate, quantity, costPrice);
    assert t' == t.(batches := t.batches[k := t.batches[k].(expiryDate := expiryDate, quantity := quantity,
                                                           costPrice := costPrice)]);
    var bs' := t'.batches;
    assert bs'[k].drugId == drugId && bs'[k].batchNo == batchNo && bs'[k].expiryDate == expiryDate
      && bs'[k].quantity == quantity && bs'[k].costPrice == costPrice;
    UpdatedBatchKeepsRest(t.batches, k, expiryDate, quantity, costPrice);
    assert BatchesReferenceDrugs(t') by {
      forall j | 0 <= j < |bs'| ensures HasDrug(t'.drugs, bs'[j].drugId) {
        assert bs'[j].drugId == t.batches[j].drugId;
      }
    }
    assert IdsBelowCounters(t') by {
      forall j | 0 <= j < |bs'| ensures bs'[j].id < t'.nextBatchId {
        assert bs'[j].id == t.batches[j].id;
      }
    }
    assert ColumnWidths(t') by {
      forall j | 0 <= j < |bs'| ensures |bs'[j].batchNo| <= BatchNoMaxLength {
        assert bs'[j].batchNo == t.batches[j].batchNo;
      }
    }
    assert StockNonNegative(t) && quantity >= 0 ==> StockNonNegative(t') by {
      assert forall j :: 0 <= j < |bs'| && j != k ==> bs'[j] == t.batches[j];
    }
  }

  lemma {:induction false} InsertBatchSpec(t: Tables, drugId: nat, batchNo: string, expiryDate: int, quantity: int, costPrice: int)
    requires Valid(t)
    requires HasDrug(t.drugs, drugId) && |batchNo| <= BatchNoMaxLength
    requires FindBatchByKey(t.batches, drugId, batchNo) == None
    ensures var t' := UpsertBatch(t, drugId, batchNo, expiryDate, quantity, costPrice);
      Valid(t') && BatchUpserted(t, t', drugId, batchNo, expiryDate, quantity, costPrice)
  {
    var added := Batch(t.nextBatchId, drugId, batchNo, expiryDate, quantity, costPrice);
    assert UpsertBatch(t, drugId, batchNo, expiryDate, quantity, costPrice)
      == t.(batches := t.batches + [added], nextBatchId := t.nextBatchId + 1);
    InsertBatchValid(t, added);
    InsertBatchUpserted(t, added);
  }

  lemma {:induction false} InsertBatchUpserted(t: Tables, added: Batch)
    ensures BatchUpserted(t, t.(batches := t.batches + [added], nextBatchId := t.nextBatchId + 1),
                          added.drugId, added.batchNo, added.expiryDate, added.quantity, added.costPrice)
  {
    AddedBatchKeepsRest(t.batches, added);
  }

  /** Appending a batch with the next id, a new lot and an existing drug keeps every constraint. */
  lemma {:induction false} InsertBatchValid(t: Tables, added: Batch)
    requires Valid(t) && added.id == t.nextBatchId
    requires HasDrug(t.drugs, added.drugId) && |added.batchNo| <= BatchNoMaxLength
    requires FindBatchByKey(t.batches, added.drugId, added.batchNo) == None
    ensures Valid(t.(batches := t.batches + [added], nextBatchId := t.nextBatchId + 1))
  {
    var bs' := t.batches + [added];
    assert forall j :: 0 <= j < |t.batches| ==> bs'[j] == t.batches[j];
    BatchKeysAppend(t.batches, added);
  }

  /** After appending a batch, the old batches are all there and the only new one is the appended one. */
  lemma {:induction false} AddedBatchKeepsRest(bs: seq<Batch>, added: Batch)
    ensures var bs' := bs + [added];
      && bs'[|bs|] == added
      && (forall j :: 0 <= j < |bs| ==> bs[j] in bs')
      && (forall j :: 0 <= j < |bs'| && j != |bs| ==> bs'[j] in bs)
      && (forall j :: 0 <= j < |bs'| ==> bs'[j] == added || bs'[j] in bs)
  {
    var bs' := bs + [added];
    assert forall j :: 0 <= j < |bs| ==> bs'[j] == bs[j];
  }

  /** A batch whose id and lot are both new keeps the batch keys unique. */
  lemma {:induction false} BatchKeysAppend(bs: seq<Batch>, added: Batch)
    requires BatchKeys(bs)
    requires forall j :: 0 <= j < |bs| ==> bs[j].id != added.id
    requires FindBatchByKey(bs, added.drugId, added.batchNo) == None
    ensures BatchKeys(bs + [added])
  {
    var bs' := bs + [added];
    forall i, j | 0 <= i < j < |bs'|
      ensures bs'[i].id != bs'[j].id && (bs'[i].drugId != bs'[j].drugId || bs'[i].batchNo != bs'[j].batchNo)
    {
      assert bs'[i] == bs[i];
    }
  }

  /** Rewriting the non-key columns of one batch keeps every key and every other batch. */
  lemma {:induction false} UpdatedBatchKeepsRest(bs: seq<Batch>, k: nat, expiryDate: int, quantity: int, costPrice: int)
    requires k < |bs| && BatchKeys(bs)
    ensures var bs' := bs[k := bs[k].(expiryDate := expiryDate, quantity := quantity, costPrice := costPrice)];
      && BatchKeys(bs')
      && (forall j :: 0 <= j < |bs| && j != k ==> bs'[j] == bs[j])
      && (forall j :: 0 <= j < |bs'| && (bs'[j].drugId, bs'[j].batchNo) != (bs[k].drugId, bs[k].batchNo)
            ==> bs'[j] in bs)
      && (forall j :: 0 <= j < |bs| && (bs[j].drugId, bs[j].batchNo) != (bs[k].drugId, bs[k].batchNo)
            ==> bs[j] in bs')
  {
    var bs' := bs[k := bs[k].(expiryDate := expiryDate, quantity := quantity, costPrice := costPrice)];
    assert forall j :: 0 <= j < |bs| ==>
      bs'[j].id == bs[j].id && bs'[j].drugId == bs[j].drugId && bs'[j].batchNo == bs[j].batchNo;
    forall j | 0 <= j < |bs| && (bs[j].drugId, bs[j].batchNo) != (bs[k].drugId, bs[k].batchNo)
      ensures bs[j] in bs'
    {
      assert bs'[j] == bs[j];
    }
  }

  /** A second upsert of the same batch changes nothing. */
  lemma {:induction false} UpsertBatchIdempotent(t: Tables, drugId: nat, batchNo: string, expiryDate: int, quantity: int, costPrice: int)
    ensures var t' := UpsertBatch(t, drugId, batchNo, expiryDate, quantity, costPrice);
      UpsertBatch(t', drugId, batchNo, expiryDate, quantity, costPrice) == t'
  {
    var t' := UpsertBatch(t, drugId, batchNo, expiryDate, quantity, costPrice);
    match FindBatchByKey(t.batches, drugId, batchNo)
    case Some(k) =>
      assert FindBatchByKey(t'.batches, drugId, batchNo) == Some(k) by {
        assert forall j :: 0 <= j < k ==> t'.batches[j] == t.batches[j];
      }
      assert t'.batches[k := t'.batches[k].(expiryDate := expiryDate, quantity := quantity, costPrice := costPrice)]
        == t'.batches;
    case None =>
      var n := |t.batches|;
      assert FindBatchByKey(t'.batches, drugId, batchNo) == Some(n) by {
        assert forall j :: 0 <= j < n ==> t'.batches[j] == t.batches[j];
      }
      assert t'.batches[n := t'.batches[n].(expiryDate := expiryDate, quantity := quantity, costPrice := costPrice)]
        == t'.batches;
  }

  // ---------------------------------------------------------------------------
  // ON DELETE CASCADE

  /** Deleting a drug also deletes every batch that references it. */
  function DeleteDrug(t: Tables, id: nat): (r: Tables)
    ensures forall k :: 0 <= k < |r.drugs| ==> r.drugs[k].id != id
    ensures forall k :: 0 <= k < |r.batches| ==> r.batches[k].drugId != id
    ensures forall k :: 0 <= k < |t.drugs| && t.drugs[k].id != id ==> t.drugs[k] in r.drugs
    ensures forall k :: 0 <= k < |t.batches| && t.batches[k].drugId != id ==> t.batches[k] in r.batches
  {
    t.(drugs := Filter(t.drugs, (d: Drug) => d.id != id),
       batches := Filter(t.batches, (b: Batch) => b.drugId != id))
  }

  lemma {:induction false} FilterKeepsDrugKeys(ds: seq<Drug>, p: Drug -> bool)
    requires DrugKeys(ds)
    ensures DrugKeys(Filter(ds, p))
  {
    var r := Filter(ds, p);
    forall i, j | 0 <= i < j < |r| ensures r[i].id != r[j].id && r[i].ndc != r[j].ndc {
      var a, b := FilterOrder(ds, p, i, j);
    }
  }

  lemma {:induction false} FilterKeepsBatchKeys(bs: seq<Batch>, p: Batch -> bool)
    requires BatchKeys(bs)
    ensures BatchKeys(Filter(bs, p))
  {
    var r := Filter(bs, p);
    forall i, j | 0 <= i < j < |r|
      ensures r[i].id != r[j].id && (r[i].drugId != r[j].drugId || r[i].batchNo != r[j].batchNo)
    {
      var a, b := FilterOrder(bs, p, i, j);
    }
  }

  /** The cascade keeps the foreign key: no batch is left pointing at the deleted drug. */
  lemma {:induction false} DeleteDrugValid(t: Tables, id: nat)
    requires Valid(t)
    ensures Valid(DeleteDrug(t, id))
    ensures StockNonNegative(t) ==> StockNonNegative(DeleteDrug(t, id))
  {
    var r := DeleteDrug(t, id);
    var keep := (d: Drug) => d.id != id;
    var keepB := (b: Batch) => b.drugId != id;
    assert r == t.(drugs := Filter(t.drugs, keep), batches := Filter(t.batches, keepB));
    FilterKeepsDrugKeys(t.drugs, keep);
    FilterKeepsBatchKeys(t.batches, keepB);
    CascadeKeepsReferences(t, id, r.drugs, r.batches);
    forall k | 0 <= k < |r.drugs| ensures r.drugs[k].id < r.nextDrugId && |r.drugs[k].ndc| <= NdcMaxLength {
      assert r.drugs[k] in t.drugs;
    }
    forall k | 0 <= k < |r.batches|
      ensures r.batches[k].id < r.nextBatchId && |r.batches[k].batchNo| <= BatchNoMaxLength
      ensures StockNonNegative(t) ==> r.batches[k].quantity >= 0
    {
      assert r.batches[k] in t.batches;
    }
  }

  /** Every batch left after the cascade still finds its drug among the drugs left. */
  lemma {:induction false} CascadeKeepsReferences(t: Tables, id: nat, ds: seq<Drug>, bs: seq<Batch>)
    requires BatchesReferenceDrugs(t)
    requires forall k :: 0 <= k < |bs| ==> bs[k].drugId != id && bs[k] in t.batches
    requires forall k :: 0 <= k < |t.drugs| && t.drugs[k].id != id ==> t.drugs[k] in ds
    ensures forall k :: 0 <= k < |bs| ==> HasDrug(ds, bs[k].drugId)
  {
    forall k | 0 <= k < |bs| ensures HasDrug(ds, bs[k].drugId) {
      var i :| 0 <= i < |t.batches| && t.batches[i] == bs[k];
      var j := FindDrug(t.drugs, bs[k].drugId).value;
      var j' :| 0 <= j' < |ds| && ds[j'] == t.drugs[j];
    }
  }

  // ---------------------------------------------------------------------------
  // The database the controllers act on

  /** The tables, updated in place by the write operations. */
  class Database {
    var drugs: seq<Drug>
    var batches: seq<Batch>
    var orders: seq<Order>
    var orderItems: seq<OrderItem>
    var nextDrugId: nat
    var nextBatchId: nat
    var nextOrderId: nat
    var nextItemId: nat

    function State(): Tables
      reads this
    {
      Tables(drugs, batches, orders, orderItems, nextDrugId, nextBatchId, nextOrderId, nextItemId)
    }

    constructor ()
      ensures State() == EmptyTables
    {
      drugs, batches, orders, orderItems := [], [], [], [];
      nextDrugId, nextBatchId, nextOrderId, nextItemId := 1, 1, 1, 1;
    }

    /** Put every table back as it was (the rollback of a failed transaction). */
    method Restore(t: Tables)
      modifies this
      ensures State() == t
    {
      drugs, batches, orders, orderItems := t.drugs, t.batches, t.orders, t.orderItems;
      nextDrugId, nextBatchId, nextOrderId, nextItemId := t.nextDrugId, t.nextBatchId, t.nextOrderId, t.nextItemId;
    }
  }
}
