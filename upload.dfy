/**
  The drug import of the upload controller: the validation rules every CSV row
  and every single-drug request must pass, the two upserts a valid row makes in
  one transaction (the drug on ndc, then its batch on (drug_id, batch_no)), and
  the CSV loop that counts successes and numbers the failed rows.
 */
module Upload {
  import opened Wrappers
  import opened Seqs
  import opened Text
  import opened Calendar
  import opened Schema
  import opened Middleware

  /** The fields the rules and the write know, in the order of the rule table. */
  datatype Field =
    | Ndc | BrandName | GenericName | Manufacturer | DosageForm | Strength | PackageSize | Uom
    | SellingPrice | RxStatus | Schedule | Storage | Location | MinStockLevel
    | BatchNo | ExpiryDate | Quantity | CostPrice

  const AllFields: seq<Field> := [
    Ndc, BrandName, GenericName, Manufacturer, DosageForm, Strength, PackageSize, Uom,
    SellingPrice, RxStatus, Schedule, Storage, Location, MinStockLevel,
    BatchNo, ExpiryDate, Quantity, CostPrice]

  /** The field's name in a CSV header and in a request. */
  function Name(f: Field): string {
    match f
    case Ndc => "ndc"
    case BrandName => "brand_name"
    case GenericName => "generic_name"
    case Manufacturer => "manufacturer"
    case DosageForm => "dosage_form"
    case Strength => "strength"
    case PackageSize => "package_size"
    case Uom => "uom"
    case SellingPrice => "selling_price"
    case RxStatus => "rx_status"
    case Schedule => "schedule"
    case Storage => "storage"
    case Location => "location"
    case MinStockLevel => "min_stock_level"
    case BatchNo => "batch_no"
    case ExpiryDate => "expiry_date"
    case Quantity => "quantity"
    case CostPrice => "cost_price"
  }

  lemma AllFieldsListed(f: Field)
    ensures f in AllFields
  {
  }

  /**
    One submitted drug: each field sent, with its text or null. Fields other
    than the eighteen are read by neither the rules nor the write, so a record
    keeps only these.
   */
  type Record = map<Field, Option<string>>

  /** The text of a field, None when it is missing or null (PHP's `$data[$k] ?? null`). */
  function Lookup(r: Record, f: Field): Option<string> {
    if f in r then r[f] else None
  }

  // ---------------------------------------------------------------------------
  // Validation rules

  /** What a rule checks once the value is known to be non-empty. */
  datatype Check =
    | MaxLength(n: nat)            // string|max:n
    | NonNegativeInteger           // integer|min:0
    | NonNegativeNumber            // numeric|min:0
    | OneOf(choices: seq<string>)  // string|in:...
    | YmdDate                      // date_format:Y-m-d

  /** A field's rule: required, or nullable (an empty value then skips the check). */
  datatype Rule = Rule(required: bool, check: Check)

  /** The rule table shared by the CSV rows and the single-drug request. */
  function RuleOf(f: Field): Rule {
    match f
    case Ndc => Rule(true, MaxLength(50))
    case BrandName => Rule(true, MaxLength(255))
    case GenericName => Rule(false, MaxLength(255))
    case Manufacturer => Rule(false, MaxLength(255))
    case DosageForm => Rule(false, MaxLength(100))
    case Strength => Rule(false, MaxLength(100))
    case PackageSize => Rule(false, NonNegativeInteger)
    case Uom => Rule(false, MaxLength(50))
    case SellingPrice => Rule(false, NonNegativeNumber)
    case RxStatus => Rule(false, OneOf(["Rx", "OTC"]))
    case Schedule => Rule(false, MaxLength(50))
    case Storage => Rule(false, MaxLength(100))
    case Location => Rule(false, MaxLength(100))
    case MinStockLevel => Rule(false, NonNegativeInteger)
    case BatchNo => Rule(true, MaxLength(100))
    case ExpiryDate => Rule(true, YmdDate)
    case Quantity => Rule(true, NonNegativeInteger)
    case CostPrice => Rule(true, NonNegativeNumber)
  }

  /** The validator counts null, a missing field and text that trims to "" (only trim spaces) as empty. */
  predicate IsEmpty(v: Option<string>) {
    v.None? || forall k :: 0 <= k < |v.value| ==> IsTrimSpace(v.value[k])
  }

  /** The integer rule, then min:0. */
  predicate IsNonNegativeInteger(s: string) {
    IsIntegerText(s) && 0 <= IntegerValue(s) <= PhpIntMax
  }

  predicate IsNonNegativeNumber(s: string) {
    ParseDecimal(s).Some? && DecimalAtLeastZero(ParseDecimal(s).value)
  }

  predicate Satisfies(c: Check, s: string) {
    match c
    case MaxLength(n) => |s| <= n
    case NonNegativeInteger => IsNonNegativeInteger(s)
    case NonNegativeNumber => IsNonNegativeNumber(s)
    case OneOf(choices) => s in choices
    case YmdDate => ParseYmd(s).Some?
  }

  /** A required field fails when empty; an empty nullable field passes without further checks. */
  predicate Passes(f: Field, r: Record) {
    var v := Lookup(r, f);
    if IsEmpty(v) then !RuleOf(f).required else Satisfies(RuleOf(f).check, v.value)
  }

  predicate Validates(r: Record) {
    forall f: Field :: Passes(f, r)
  }

  /** The fields whose rule the record breaks, in the order of the rule table. */
  function Failing(r: Record): (fs: seq<Field>)
    ensures forall f :: f in fs <==> !Passes(f, r)
    ensures fs == [] <==> Validates(r)
  {
    var fs := FailingAmong(AllFields, r);
    assert forall f :: !Passes(f, r) ==> f in fs by {
      forall f | !Passes(f, r) ensures f in fs {
        AllFieldsListed(f);
      }
    }
    assert fs != [] ==> fs[0] in fs;
    fs
  }

  /** The given fields whose rule the record breaks, in the given order. */
  function {:induction false} FailingAmong(fields: seq<Field>, r: Record): (fs: seq<Field>)
    ensures forall f :: f in fs <==> f in fields && !Passes(f, r)
    decreases |fields|
  {
    if fields == [] then []
    else
      var rest := FailingAmong(fields[1..], r);
      assert forall f :: f in fields <==> f == fields[0] || f in fields[1..];
      if Passes(fields[0], r) then rest else [fields[0]] + rest
  }

  /**
    What a record that passes validation guarantees of its keys: ndc,
    brand_name and batch_no are non-empty and fit their maximum lengths, and
    rx_status, when given, is Rx or OTC.
   */
  lemma ValidatedKeys(r: Record)
    requires Validates(r)
    ensures !IsEmpty(Lookup(r, Ndc)) && |Lookup(r, Ndc).value| <= NdcMaxLength
    ensures !IsEmpty(Lookup(r, BrandName)) && |Lookup(r, BrandName).value| <= 255
    ensures !IsEmpty(Lookup(r, BatchNo)) && |Lookup(r, BatchNo).value| <= BatchNoMaxLength
    ensures var x := Lookup(r, RxStatus); IsEmpty(x) || x.value == "Rx" || x.value == "OTC"
  {
    assert Passes(Ndc, r) && Passes(BrandName, r) && Passes(BatchNo, r) && Passes(RxStatus, r);
  }

  /**
    What a record that passes validation guarantees of its batch: expiry_date
    is a real Y-m-d date, quantity an integer at least 0 and cost_price a
    number at least 0.
   */
  lemma ValidatedBatchFields(r: Record)
    requires Validates(r)
    ensures !IsEmpty(Lookup(r, ExpiryDate)) && ParseYmd(Lookup(r, ExpiryDate).value).Some?
    ensures !IsEmpty(Lookup(r, Quantity)) && IsNonNegativeInteger(Lookup(r, Quantity).value)
    ensures !IsEmpty(Lookup(r, CostPrice)) && IsNonNegativeNumber(Lookup(r, CostPrice).value)
  {
    assert Passes(ExpiryDate, r);
    assert Passes(Quantity, r);
    assert Passes(CostPrice, r);
  }

  /** The numeric fields a validated record may leave empty are otherwise well formed. */
  lemma ValidatedOptionalNumbers(r: Record)
    requires Validates(r)
    ensures var p := Lookup(r, PackageSize); IsEmpty(p) || IsNonNegativeInteger(p.value)
    ensures var s := Lookup(r, SellingPrice); IsEmpty(s) || IsNonNegativeNumber(s.value)
    ensures var m := Lookup(r, MinStockLevel); IsEmpty(m) || IsNonNegativeInteger(m.value)
  {
    assert RuleOf(PackageSize) == Rule(false, NonNegativeInteger) && Passes(PackageSize, r);
    assert RuleOf(SellingPrice) == Rule(false, NonNegativeNumber) && Passes(SellingPrice, r);
    assert RuleOf(MinStockLevel) == Rule(false, NonNegativeInteger) && Passes(MinStockLevel, r);
  }

  /** The text fields a validated record may leave empty respect their maximum lengths. */
  lemma ValidatedOptionalTexts(r: Record)
    requires Validates(r)
    ensures var g := Lookup(r, GenericName); IsEmpty(g) || |g.value| <= 255
    ensures var m := Lookup(r, Manufacturer); IsEmpty(m) || |m.value| <= 255
    ensures var s := Lookup(r, Storage); IsEmpty(s) || |s.value| <= 100
  {
    assert Passes(GenericName, r);
    assert Passes(Manufacturer, r);
    assert Passes(Storage, r);
  }

  // ---------------------------------------------------------------------------
  // Writing a record (processDrugRow)

  /** Widths of the drugs table's text columns (schedule as widened to 10 by a later migration). */
  const BrandNameWidth: nat := 255
  const GenericNameWidth: nat := 255
  const ManufacturerWidth: nat := 255
  const DosageFormWidth: nat := 50
  const StrengthWidth: nat := 50
  const UomWidth: nat := 20
  const RxStatusWidth: nat := 3
  const ScheduleWidth: nat := 10
  const StorageWidth: nat := 255
  const LocationWidth: nat := 50

  /** The range of an INT column and the largest DECIMAL(10, 2) value, in cents. */
  const IntMin: int := -0x8000_0000
  const IntMax: int := 0x7FFF_FFFF
  const MaxCents: int := 99_999_999_99

  /** Text for a VARCHAR(width) column: NULL when missing, rejected when too long. */
  function TextCell(v: Option<string>, width: nat): (c: Cell<string>)
    ensures c.Null? <==> v.None?
    ensures c.Value? <==> v.Some? && |v.value| <= width
    ensures c.Value? ==> c.v == v.value
  {
    match v
    case None => Null
    case Some(s) => if |s| <= width then Value(s) else Uncastable
  }

  /** Text for an INT column: NULL when missing, rejected unless it is integer text in range. */
  function IntCell(v: Option<string>): (c: Cell<int>)
    ensures c.Null? <==> v.None?
    ensures c.Value? <==> v.Some? && IsIntegerText(v.value) && IntMin <= IntegerValue(v.value) <= IntMax
    ensures c.Value? ==> c.v == IntegerValue(v.value)
  {
    match v
    case None => Null
    case Some(s) => if IsIntegerText(s) && IntMin <= IntegerValue(s) <= IntMax then Value(IntegerValue(s)) else Uncastable
  }

  /** Text for a DECIMAL(10, 2) column, in cents after rounding: rejected unless it is a decimal in range. */
  function MoneyCell(v: Option<string>): (c: Cell<int>)
    ensures c.Null? <==> v.None?
    ensures c.Value? <==> v.Some? && IsDecimalText(v.value) && -MaxCents <= DecimalCents(ParseDecimal(v.value).value) <= MaxCents
    ensures c.Value? ==> c.v == DecimalCents(ParseDecimal(v.value).value)
  {
    match v
    case None => Null
    case Some(s) =>
      match ParseDecimal(s)
      case None => Uncastable
      case Some(d) => if -MaxCents <= DecimalCents(d) <= MaxCents then Value(DecimalCents(d)) else Uncastable
  }

  /** Text for a DATE column, as a day number: rejected unless it is a Y-m-d date. */
  function DateCell(v: Option<string>): (c: Cell<int>)
    ensures c.Null? <==> v.None?
    ensures c.Value? <==> v.Some? && ParseYmd(v.value).Some?
    ensures c.Value? ==> c.v == DayNumber(ParseYmd(v.value).value)
  {
    match v
    case None => Null
    case Some(s) => match ParseYmd(s) case None => Uncastable case Some(d) => Value(DayNumber(d))
  }

  /** An INT value's decimal notation is stored as that value. */
  lemma IntCellRoundTrip(i: int)
    requires IntMin <= i <= IntMax
    ensures IntCell(Some(IntToString(i))) == Value(i)
  {
    IntToStringRoundTrip(i);
  }

  /** Two-decimal notation of an amount in cents, as in "12.05". */
  function MoneyText(cents: nat): (s: string)
    ensures ParseDecimal(s) == Some(Decimal(false, NatToString(cents / 100), CentsDigits(cents)))
  {
    var whole := NatToString(cents / 100);
    ParsePlainDecimal(whole, CentsDigits(cents));
    whole + "." + CentsDigits(cents)
  }

  /** The two digits after the point. */
  function CentsDigits(cents: nat): (f: string)
    ensures |f| == 2 && AllDigits(f) && FractionCents(f) == cents % 100
  {
    [DigitChar(cents % 100 / 10), DigitChar(cents % 10)]
  }

  /** Unsigned digits, a point and digits parse as that decimal. */
  lemma ParsePlainDecimal(whole: string, fraction: string)
    requires |whole| >= 1 && AllDigits(whole) && AllDigits(fraction)
    ensures ParseDecimal(whole + "." + fraction) == Some(Decimal(false, whole, fraction))
  {
    var s := whole + "." + fraction;
    assert UnsignedPart(s) == s;
    assert s[..|whole|] == whole && s[|whole| + 1..] == fraction;
    assert '.' !in whole by {
      assert forall k :: 0 <= k < |whole| ==> IsDigit(whole[k]);
    }
    assert IndexOf(s, '.') == Some(|whole|);
  }

  /** Every amount in range, written with two decimals, is stored as that amount. */
  lemma MoneyCellRoundTrip(cents: nat)
    requires cents <= MaxCents
    ensures MoneyCell(Some(MoneyText(cents))) == Value(cents)
  {
    NatToStringRoundTrip(cents / 100);
  }

  /** A valid date with a four-digit year, written Y-m-d, is stored as that day. */
  lemma DateCellRoundTrip(d: Date)
    requires ValidDate(d) && d.year < 10000
    ensures DateCell(Some(FormatYmd(d))) == Value(DayNumber(d))
  {
    FormatThenParse(d);
  }

  /** Every drug column is written, each with the record's value or NULL (none is omitted). */
  function DrugCellsOf(r: Record): DrugCells {
    DrugCells(
      TextCell(Lookup(r, BrandName), BrandNameWidth),
      TextCell(Lookup(r, GenericName), GenericNameWidth),
      TextCell(Lookup(r, Manufacturer), ManufacturerWidth),
      TextCell(Lookup(r, DosageForm), DosageFormWidth),
      TextCell(Lookup(r, Strength), StrengthWidth),
      IntCell(Lookup(r, PackageSize)),
      TextCell(Lookup(r, Uom), UomWidth),
      MoneyCell(Lookup(r, SellingPrice)),
      TextCell(Lookup(r, RxStatus), RxStatusWidth),
      TextCell(Lookup(r, Schedule), ScheduleWidth),
      TextCell(Lookup(r, Storage), StorageWidth),
      IntCell(Lookup(r, MinStockLevel)),
      TextCell(Lookup(r, Location), LocationWidth))
  }

  function BatchCellsOf(r: Record): Option<(int, int, int)> {
    BatchColumns(DateCell(Lookup(r, ExpiryDate)), IntCell(Lookup(r, Quantity)), MoneyCell(Lookup(r, CostPrice)))
  }

  /** The key columns fit and neither write is refused by the database. */
  predicate Writable(r: Record) {
    && Lookup(r, Ndc).Some? && |Lookup(r, Ndc).value| <= NdcMaxLength
    && DrugColumns(DrugCellsOf(r)).Some?
    && Lookup(r, BatchNo).Some? && |Lookup(r, BatchNo).value| <= BatchNoMaxLength
    && BatchCellsOf(r).Some?
  }

  /**
    processDrugRow on the tables: the drug upserted on ndc, then its batch on
    (drug_id, batch_no); None when either write is refused, in which case the
    transaction leaves the tables as they were.
   */
  function RowWrite(t: Tables, r: Record): (res: Option<Tables>)
    ensures res.Some? <==> Writable(r)
  {
    match RowValuesOf(r)
    case None => None
    case Some(v) => Some(WriteRow(t, v))
  }

  /** What processDrugRow writes: the drug's ndc and columns, then its batch's batch_no and columns. */
  datatype RowValues = RowValues(
    ndc: string, info: DrugInfo, batchNo: string, expiryDate: int, quantity: int, costPrice: int)

  /** The keys fit their columns. */
  predicate KeysFit(v: RowValues) {
    |v.ndc| <= NdcMaxLength && |v.batchNo| <= BatchNoMaxLength
  }

  /** The values the record's two writes store, or None when the database refuses either. */
  function RowValuesOf(r: Record): (v: Option<RowValues>)
    ensures v.Some? <==> Writable(r)
    ensures v.Some? ==> KeysFit(v.value)
  {
    if !Writable(r) then None
    else
      var (expiryDate, quantity, costPrice) := BatchCellsOf(r).value;
      Some(RowValues(Lookup(r, Ndc).value, DrugColumns(DrugCellsOf(r)).value, Lookup(r, BatchNo).value,
                     expiryDate, quantity, costPrice))
  }

  /** The drug upserted on ndc, then its batch upserted on (drug_id, batch_no). */
  function WriteRow(t: Tables, v: RowValues): Tables {
    var (t', drugId) := UpsertDrug(t, v.ndc, v.info);
    UpsertBatch(t', drugId, v.batchNo, v.expiryDate, v.quantity, v.costPrice)
  }

  /** Given text that fits a VARCHAR(width) column. */
  predicate GivenText(v: Option<string>, width: nat) {
    v.Some? && |v.value| <= width
  }

  /** Text that is missing (NULL) or fits a VARCHAR(width) column. */
  predicate FitsText(v: Option<string>, width: nat) {
    v.None? || |v.value| <= width
  }

  /**
    The drug columns other than brand_name accept the record: every NOT NULL
    column is given (manufacturer, strength, package_size, uom, selling_price,
    rx_status and min_stock_level, none of which is omitted), text fits its
    column and numbers fit their column types.
   */
  predicate DrugFits(r: Record) {
    && FitsText(Lookup(r, GenericName), GenericNameWidth)
    && GivenText(Lookup(r, Manufacturer), ManufacturerWidth)
    && FitsText(Lookup(r, DosageForm), DosageFormWidth)
    && GivenText(Lookup(r, Strength), StrengthWidth)
    && IntCell(Lookup(r, PackageSize)).Value?
    && GivenText(Lookup(r, Uom), UomWidth)
    && MoneyCell(Lookup(r, SellingPrice)).Value?
    && GivenText(Lookup(r, RxStatus), RxStatusWidth)
    && FitsText(Lookup(r, Schedule), ScheduleWidth)
    && FitsText(Lookup(r, Storage), StorageWidth)
    && IntCell(Lookup(r, MinStockLevel)).Value?
    && FitsText(Lookup(r, Location), LocationWidth)
  }

  /** The drug write succeeds exactly when brand_name is given and fits, and the other columns accept the record. */
  lemma DrugCellsWritable(r: Record)
    ensures DrugColumns(DrugCellsOf(r)).Some? <==> GivenText(Lookup(r, BrandName), BrandNameWidth) && DrugFits(r)
  {
    DrugColumnsSpec(DrugCellsOf(r));
  }

  /** The batch columns accept the record: quantity fits an INT and cost_price a DECIMAL(10, 2). */
  predicate BatchFits(r: Record) {
    IntCell(Lookup(r, Quantity)).Value? && MoneyCell(Lookup(r, CostPrice)).Value?
  }

  /**
    For a record that passes validation the batch write fails only on range:
    quantity above the largest INT, or cost_price above 99999999.99 once
    rounded to cents.
   */
  lemma ValidBatchFits(r: Record)
    requires Validates(r)
    ensures && Lookup(r, Quantity).Some? && IsIntegerText(Lookup(r, Quantity).value)
            && Lookup(r, CostPrice).Some? && IsDecimalText(Lookup(r, CostPrice).value)
    ensures BatchCellsOf(r).Some? <==> BatchFits(r)
    ensures BatchFits(r) <==>
      && IntegerValue(Lookup(r, Quantity).value) <= IntMax
      && DecimalCents(ParseDecimal(Lookup(r, CostPrice).value).value) <= MaxCents
  {
    ValidatedBatchFields(r);
    DecimalCentsNonNegative(ParseDecimal(Lookup(r, CostPrice).value).value);
  }

  /**
    A record that passes validation can still be refused by the database: it
    is written exactly when the drug columns and the batch columns accept it.
   */
  lemma ValidRowWritable(r: Record)
    requires Validates(r)
    ensures Writable(r) <==> DrugFits(r) && BatchFits(r)
  {
    ValidatedKeys(r);
    DrugCellsWritable(r);
    ValidBatchFits(r);
  }

  /**
    A written record leaves exactly one drug with its ndc, carrying the
    record's fields (a missing optional field is NULL), and one batch of that
    drug with its batch_no carrying the record's expiry date, quantity (replaced,
    not added) and cost; the other drugs and batches are as they were, and the
    constraints, and non-negative stock when the quantity is, still hold.
   */
  lemma RowWriteSpec(t: Tables, r: Record, t': Tables)
    requires Valid(t)
    requires RowWrite(t, r) == Some(t')
    ensures Valid(t')
    ensures var ndc := Lookup(r, Ndc).value;
      exists k :: 0 <= k < |t'.drugs| && t'.drugs[k].ndc == ndc && StoredDrug(t'.drugs[k], r)
        && exists j :: 0 <= j < |t'.batches| && StoredBatch(t'.batches[j], t'.drugs[k].id, r)
    ensures forall k :: 0 <= k < |t.drugs| && t.drugs[k].ndc != Lookup(r, Ndc).value ==> t.drugs[k] in t'.drugs
    ensures t'.orders == t.orders && t'.orderItems == t.orderItems
    ensures StockNonNegative(t) && RowValuesOf(r).value.quantity >= 0 ==> StockNonNegative(t')
  {
    var v := RowValuesOf(r).value;
    assert t' == WriteRow(t, v);
    WriteRowSpec(t, v);
    ValuesStored(r, v);
  }

  /** The values taken from a writable record are the record's cells. */
  lemma ValuesStored(r: Record, v: RowValues)
    requires RowValuesOf(r) == Some(v)
    ensures v.ndc == Lookup(r, Ndc).value
    ensures forall d: Drug :: d.info == v.info ==> StoredDrug(d, r)
    ensures forall b: Batch, id: nat ::
      (b.drugId == id && b.batchNo == v.batchNo && b.expiryDate == v.expiryDate
       && b.quantity == v.quantity && b.costPrice == v.costPrice) ==> StoredBatch(b, id, r)
  {
    StoredDrugFields(r, v.info);
  }


  /**
    processDrugRow's two writes on plain values: a drug with this ndc and
    these columns is stored, and a batch of it with this batch_no and these
    values; the other drugs and the orders are kept, and so are the
    constraints and, for a non-negative quantity, non-negative stock.
   */
  lemma WriteRowSpec(t: Tables, v: RowValues)
    requires Valid(t) && KeysFit(v)
    ensures var t' := WriteRow(t, v);
      && Valid(t')
      && (exists k :: 0 <= k < |t'.drugs| && t'.drugs[k].ndc == v.ndc && t'.drugs[k].info == v.info
            && (exists j :: 0 <= j < |t'.batches| && t'.batches[j].drugId == t'.drugs[k].id
                  && t'.batches[j].batchNo == v.batchNo && t'.batches[j].expiryDate == v.expiryDate
                  && t'.batches[j].quantity == v.quantity && t'.batches[j].costPrice == v.costPrice))
      && (forall k :: 0 <= k < |t.drugs| && t.drugs[k].ndc != v.ndc ==> t.drugs[k] in t'.drugs)
      && t'.orders == t.orders && t'.orderItems == t.orderItems
      && (StockNonNegative(t) && v.quantity >= 0 ==> StockNonNegative(t'))
  {
    var (t1, drugId) := UpsertDrug(t, v.ndc, v.info);
    UpsertDrugSpec(t, v.ndc, v.info);
    var k :| 0 <= k < |t1.drugs| && t1.drugs[k] == Drug(drugId, v.ndc, v.info);
    assert HasDrug(t1.drugs, drugId);
    UpsertBatchSpec(t1, drugId, v.batchNo, v.expiryDate, v.quantity, v.costPrice);
    var t' := WriteRow(t, v);
    assert t'.drugs[k] == Drug(drugId, v.ndc, v.info);
  }

  /** The stored drug carries every field of the record. */
  predicate StoredDrug(d: Drug, r: Record) {
    && Some(d.info.brandName) == Lookup(r, BrandName)
    && d.info.genericName == Lookup(r, GenericName)
    && Some(d.info.manufacturer) == Lookup(r, Manufacturer)
    && d.info.dosageForm == Lookup(r, DosageForm)
    && Some(d.info.strength) == Lookup(r, Strength)
    && Some(d.info.uom) == Lookup(r, Uom)
    && Some(d.info.rxStatus) == Lookup(r, RxStatus)
    && d.info.schedule == Lookup(r, Schedule)
    && d.info.storage == Lookup(r, Storage)
    && d.info.location == Lookup(r, Location)
    && IntCell(Lookup(r, PackageSize)) == Value(d.info.packageSize)
    && MoneyCell(Lookup(r, SellingPrice)) == Value(d.info.sellingPrice)
    && IntCell(Lookup(r, MinStockLevel)) == Value(d.info.minStockLevel)
  }

  /** The stored batch belongs to the drug and carries the record's batch fields. */
  predicate StoredBatch(b: Batch, drugId: nat, r: Record) {
    && b.drugId == drugId && Some(b.batchNo) == Lookup(r, BatchNo)
    && DateCell(Lookup(r, ExpiryDate)) == Value(b.expiryDate)
    && IntCell(Lookup(r, Quantity)) == Value(b.quantity)
    && MoneyCell(Lookup(r, CostPrice)) == Value(b.costPrice)
  }

  lemma StoredDrugFields(r: Record, info: DrugInfo)
    requires DrugColumns(DrugCellsOf(r)) == Some(info)
    ensures forall id, ndc :: StoredDrug(Drug(id, ndc, info), r)
  {
    DrugColumnsSpec(DrugCellsOf(r));
  }

  /** Writing the same record a second time changes nothing. */
  lemma {:induction false} RowWriteIdempotent(t: Tables, r: Record, t': Tables)
    requires RowWrite(t, r) == Some(t')
    ensures RowWrite(t', r) == Some(t')
  {
    var v := RowValuesOf(r).value;
    var (t1, drugId) := UpsertDrug(t, v.ndc, v.info);
    assert t' == UpsertBatch(t1, drugId, v.batchNo, v.expiryDate, v.quantity, v.costPrice);
    UpsertDrugIdempotent(t, v.ndc, v.info);
    assert t'.drugs == t1.drugs && t'.nextDrugId == t1.nextDrugId;
    UpsertDrugOnlyReadsDrugs(t1, t', v.ndc, v.info);
    UpsertBatchIdempotent(t1, drugId, v.batchNo, v.expiryDate, v.quantity, v.costPrice);
  }

  /** An upsert that leaves the drugs as they are does so on any tables with the same drugs. */
  lemma UpsertDrugOnlyReadsDrugs(t: Tables, u: Tables, ndc: string, info: DrugInfo)
    requires UpsertDrug(t, ndc, info).0 == t
    requires u.drugs == t.drugs && u.nextDrugId == t.nextDrugId
    ensures UpsertDrug(u, ndc, info) == (u, UpsertDrug(t, ndc, info).1)
  {
    match FindDrugByNdc(t.drugs, ndc)
    case Some(k) =>
      assert t.drugs[k := t.drugs[k].(info := info)] == t.drugs;
    case None =>
      assert false;
  }

  // ---------------------------------------------------------------------------
  // The CSV loop

  /** Why a row failed: the fields that broke a rule, or the database refused the write. */
  datatype RowErrors = Invalid(fields: seq<Field>) | DatabaseError

  /** The only text a refused write reports (the SQL error is kept from the user). */
  const DatabaseErrorMessage: string := "Database error occurred."

  /**
    A failed row with its record number, counting the header as 1: the first
    record is row 2. Blank lines are skipped, so it is not a line number.
   */
  datatype RowFailure = RowFailure(row: nat, errors: RowErrors)

  /** How uploadCSV's loop ends for one record: a validation failure, a refused write, or the values written. */
  datatype Outcome = BrokeRules(fields: seq<Field>) | Refused | Written(values: RowValues)

  /**
    The outcome of one record: rejected with its broken fields when it fails
    validation, refused when the database refuses a write, written otherwise.
   */
  function Assess(r: Record): (o: Outcome)
    ensures o.BrokeRules? <==> !Validates(r)
    ensures o.BrokeRules? ==> o.fields == Failing(r)
    ensures o.Refused? <==> Validates(r) && !Writable(r)
    ensures o.Written? ==> RowValuesOf(r) == Some(o.values)
  {
    if !Validates(r) then BrokeRules(Failing(r))
    else
      match RowValuesOf(r)
      case None => Refused
      case Some(v) => Written(v)
  }

  /** What the outcome adds to the report's failures: nothing for a written record. */
  function ErrorsOf(o: Outcome): Option<RowErrors> {
    match o
    case BrokeRules(fields) => Some(Invalid(fields))
    case Refused => Some(DatabaseError)
    case Written(_) => None
  }

  /** The tables after the outcome: only a written record changes them. */
  function Apply(t: Tables, o: Outcome): Tables {
    match o
    case Written(v) => WriteRow(t, v)
    case _ => t
  }

  /** The outcome of each record, in file order. */
  function Outcomes(records: seq<Record>): (os: seq<Outcome>)
    ensures |os| == |records|
    ensures forall i :: 0 <= i < |records| ==> os[i] == Assess(records[i])
  {
    seq(|records|, i requires 0 <= i < |records| => Assess(records[i]))
  }

  /** What the loop reports after some records: the success count and the failures. */
  datatype Report = Report(successCount: nat, failures: seq<RowFailure>)

  /**
    The report after the outcomes, the first record being row 2: every
    record is counted once, as a success or as a failure, and the failures
    come in row order.
   */
  function Tally(os: seq<Outcome>): (rep: Report)
    ensures rep.successCount + |rep.failures| == |os|
    ensures forall k :: 0 <= k < |rep.failures| ==> 2 <= rep.failures[k].row <= |os| + 1
    ensures forall j, k :: 0 <= j < k < |rep.failures| ==> rep.failures[j].row < rep.failures[k].row
    decreases |os|
  {
    if |os| == 0 then Report(0, [])
    else
      var prev := Tally(os[..|os| - 1]);
      match ErrorsOf(os[|os| - 1])
      case None => prev.(successCount := prev.successCount + 1)
      case Some(e) => prev.(failures := prev.failures + [RowFailure(|os| + 1, e)])
  }

  /** Every reported failure carries the errors of the record on its row. */
  lemma {:induction false} FailureExplained(os: seq<Outcome>, k: nat)
    requires k < |Tally(os).failures|
    ensures var f := Tally(os).failures[k]; ErrorsOf(os[f.row - 2]) == Some(f.errors)
    decreases |os|
  {
    var init := os[..|os| - 1];
    var prev := Tally(init);
    var f := Tally(os).failures[k];
    if k < |prev.failures| {
      assert f == prev.failures[k];
      FailureExplained(init, k);
      assert os[f.row - 2] == init[f.row - 2];
    }
  }

  /** Every record that fails is reported, with its row number and its errors. */
  lemma {:induction false} FailureReported(os: seq<Outcome>, i: nat)
    requires i < |os| && ErrorsOf(os[i]).Some?
    ensures RowFailure(i + 2, ErrorsOf(os[i]).value) in Tally(os).failures
    decreases |os|
  {
    var init := os[..|os| - 1];
    if i < |init| {
      FailureReported(init, i);
      assert init[i] == os[i];
    }
  }

  /** A record that fails validation is reported on its row with its broken fields. */
  lemma InvalidRowReported(records: seq<Record>, i: nat)
    requires i < |records| && !Validates(records[i])
    ensures RowFailure(i + 2, Invalid(Failing(records[i]))) in Tally(Outcomes(records)).failures
  {
    FailureReported(Outcomes(records), i);
  }

  /** The tables after the outcomes, each applied in turn. */
  function TablesAfter(t: Tables, os: seq<Outcome>): Tables
    decreases |os|
  {
    if |os| == 0 then t else Apply(TablesAfter(t, os[..|os| - 1]), os[|os| - 1])
  }

  /** A written record's keys fit their columns and its quantity is not negative. */
  predicate Sound(o: Outcome) {
    o.Written? ==> KeysFit(o.values) && o.values.quantity >= 0
  }

  /** Every outcome of a record is sound. */
  lemma AssessSound(r: Record)
    ensures Sound(Assess(r))
  {
    if Assess(r).Written? {
      ValidatedBatchFields(r);
      assert IntCell(Lookup(r, Quantity)).v >= 0;
    }
  }

  /** The loop keeps the constraints and non-negative stock. */
  lemma {:induction false} ImportKeepsValid(t: Tables, os: seq<Outcome>)
    requires Valid(t) && StockNonNegative(t)
    requires forall k :: 0 <= k < |os| ==> Sound(os[k])
    ensures Valid(TablesAfter(t, os)) && StockNonNegative(TablesAfter(t, os))
    decreases |os|
  {
    if |os| > 0 {
      var init := os[..|os| - 1];
      assert forall k :: 0 <= k < |init| ==> init[k] == os[k];
      ImportKeepsValid(t, init);
      var o := os[|os| - 1];
      assert Sound(o);
      if o.Written? {
        WriteRowSpec(TablesAfter(t, init), o.values);
      }
    }
  }

  // ---------------------------------------------------------------------------
  // Headers and records

  predicate Distinct(names: seq<string>) {
    forall i, j :: 0 <= i < j < |names| ==> names[i] != names[j]
  }

  /** strtolower(trim($h)) on every header name. */
  function NormalizeHeaders(headers: seq<string>): (names: seq<string>)
    ensures |names| == |headers|
    ensures forall k :: 0 <= k < |headers| ==> names[k] == Lower(Trim(headers[k]))
  {
    seq(|headers|, k requires 0 <= k < |headers| => Lower(Trim(headers[k])))
  }

  /** The position of the field's column under the header, if it has one. */
  function Column(names: seq<string>, f: Field): Option<nat> {
    FirstWhere(names, (n: string) => n == Name(f))
  }

  /**
    The record the reader makes of one CSV line under the normalised header,
    every value trimmed: a line with fewer fields is padded with null, which
    trim turns into "", and fields beyond the header are dropped. A field is
    sent exactly when the header has its column.
   */
  function CleanRecord(names: seq<string>, fields: seq<string>): (r: Record)
    ensures forall f :: f in r <==> Column(names, f).Some?
    ensures forall f :: f in r ==> r[f] == CleanValue(names, fields, f)
  {
    forall f ensures f in AllFields {
      AllFieldsListed(f);
    }
    FieldsRecord(AllFields, names, fields)
  }

  /** The trimmed value in the field's column, "" when the line is too short for it. */
  function CleanValue(names: seq<string>, fields: seq<string>, f: Field): Option<string>
    requires Column(names, f).Some?
  {
    var k := Column(names, f).value;
    Some(if k < |fields| then Trim(fields[k]) else "")
  }

  /** The record holding the given fields that have a column under the header. */
  function {:induction false} FieldsRecord(fs: seq<Field>, names: seq<string>, fields: seq<string>): (r: Record)
    ensures forall f :: f in r <==> f in fs && Column(names, f).Some?
    ensures forall f :: f in r ==> r[f] == CleanValue(names, fields, f)
    decreases |fs|
  {
    if fs == [] then map[]
    else
      var rest := FieldsRecord(fs[1..], names, fields);
      assert forall f :: f in fs <==> f == fs[0] || f in fs[1..];
      if Column(names, fs[0]).Some? then rest[fs[0] := CleanValue(names, fields, fs[0])] else rest
  }

  function CleanRecords(names: seq<string>, lines: seq<seq<string>>): (rs: seq<Record>)
    ensures |rs| == |lines|
  {
    seq(|lines|, i requires 0 <= i < |lines| => CleanRecord(names, lines[i]))
  }

  /** The JSON answer of the CSV upload. */
  datatype CsvResponse =
    | ReaderThrew    // 500: the normalised names repeat, and getRecords throws outside the try
    | Completed(successCount: nat, failureCount: nat, failures: seq<RowFailure>)  // "CSV processing completed."

  const CompletedMessage: string := "CSV processing completed."

  function CsvStatus(resp: CsvResponse): int {
    match resp
    case ReaderThrew => 500
    case Completed(_, _, _) => 200
  }

  /**
    uploadCSV on the tables, for a header line and the non-empty data lines
    after it. success_count plus failure_count is the number of data lines,
    failed rows are numbered from 2 in file order, and a file the reader
    refuses changes nothing.
   */
  function UploadCsvSpec(t: Tables, header: seq<string>, lines: seq<seq<string>>): (res: (Tables, CsvResponse))
    ensures res.1.ReaderThrew? <==> !Distinct(NormalizeHeaders(header))
    ensures res.1.ReaderThrew? ==> res.0 == t
    ensures res.1.Completed? ==> res.1.successCount + res.1.failureCount == |lines|
    ensures res.1.Completed? ==> res.1.failureCount == |res.1.failures|
    ensures res.1.Completed? ==> forall k :: 0 <= k < |res.1.failures| ==> 2 <= res.1.failures[k].row <= |lines| + 1
  {
    var names := NormalizeHeaders(header);
    if !Distinct(names) then (t, ReaderThrew)
    else
      var outcomes := Outcomes(CleanRecords(names, lines));
      var rep := Tally(outcomes);
      (TablesAfter(t, outcomes), Completed(rep.successCount, |rep.failures|, rep.failures))
  }

  /** The tables, when they start valid, stay valid whatever the file holds. */
  lemma UploadCsvKeepsValid(t: Tables, header: seq<string>, lines: seq<seq<string>>)
    requires Valid(t) && StockNonNegative(t)
    ensures Valid(UploadCsvSpec(t, header, lines).0) && StockNonNegative(UploadCsvSpec(t, header, lines).0)
  {
    if Distinct(NormalizeHeaders(header)) {
      var records := CleanRecords(NormalizeHeaders(header), lines);
      var outcomes := Outcomes(records);
      forall k | 0 <= k < |outcomes| ensures Sound(outcomes[k]) {
        AssessSound(records[k]);
      }
      ImportKeepsValid(t, outcomes);
    }
  }

  // ---------------------------------------------------------------------------
  // The controller, acting on the database

  /**
    processDrugRow: the drug write, then the batch write, in one transaction;
    false when either is refused, with the tables rolled back.
   */
  method ProcessDrugRow(db: Database, r: Record) returns (ok: bool)
    modifies db
    ensures ok <==> Writable(r)
    ensures db.State() == if ok then RowWrite(old(db.State()), r).value else old(db.State())
  {
    var saved := db.State();
    var ndc := Lookup(r, Ndc);
    var info := DrugColumns(DrugCellsOf(r));
    if ndc.None? || |ndc.value| > NdcMaxLength || info.None? {
      return false;
    }
    var drugId := WriteDrug(db, ndc.value, info.value);
    var batchNo := Lookup(r, BatchNo);
    var batch := BatchCellsOf(r);
    if batchNo.None? || |batchNo.value| > BatchNoMaxLength || batch.None? {
      db.Restore(saved);
      return false;
    }
    var (expiryDate, quantity, costPrice) := batch.value;
    WriteBatch(db, drugId, batchNo.value, expiryDate, quantity, costPrice);
    ok := true;
  }

  /** Drug::updateOrCreate on ndc: rewrite the drug's columns, or insert it with the next id. */
  method WriteDrug(db: Database, ndc: string, info: DrugInfo) returns (drugId: nat)
    modifies db
    ensures (db.State(), drugId) == UpsertDrug(old(db.State()), ndc, info)
  {
    match FindDrugByNdc(db.drugs, ndc) {
      case Some(k) =>
        drugId := db.drugs[k].id;
        db.drugs := db.drugs[k := db.drugs[k].(info := info)];
      case None =>
        drugId := db.nextDrugId;
        db.drugs := db.drugs + [Drug(drugId, ndc, info)];
        db.nextDrugId := db.nextDrugId + 1;
    }
  }

  /** Batch::updateOrCreate on (drug_id, batch_no): overwrite expiry, quantity and cost, or insert. */
  method WriteBatch(db: Database, drugId: nat, batchNo: string, expiryDate: int, quantity: int, costPrice: int)
    modifies db
    ensures db.State() == UpsertBatch(old(db.State()), drugId, batchNo, expiryDate, quantity, costPrice)
  {
    match FindBatchByKey(db.batches, drugId, batchNo) {
      case Some(k) =>
        db.batches := db.batches[k := db.batches[k].(expiryDate := expiryDate, quantity := quantity, costPrice := costPrice)];
      case None =>
        db.batches := db.batches + [Batch(db.nextBatchId, drugId, batchNo, expiryDate, quantity, costPrice)];
        db.nextBatchId := db.nextBatchId + 1;
    }
  }

  /** One pass of uploadCSV's loop: validate the record, then write it unless a rule failed. */
  method ImportRecord(db: Database, r: Record) returns (verdict: Option<RowErrors>, ghost outcome: Outcome)
    modifies db
    ensures outcome == Assess(r)
    ensures verdict == ErrorsOf(outcome)
    ensures db.State() == Apply(old(db.State()), outcome)
  {
    outcome := Assess(r);
    var failing := Failing(r);
    if failing != [] {
      return Some(Invalid(failing)), outcome;
    }
    var ok := ProcessDrugRow(db, r);
    verdict := if ok then None else Some(DatabaseError);
  }

  /** uploadCSV: read the header, then validate and write each record, counting and numbering. */
  method UploadCsv(db: Database, header: seq<string>, lines: seq<seq<string>>) returns (resp: CsvResponse)
    modifies db
    ensures (db.State(), resp) == UploadCsvSpec(old(db.State()), header, lines)
  {
    var names := NormalizeHeaders(header);
    if !Distinct(names) {
      return ReaderThrew;
    }
    var records := CleanRecords(names, lines);
    var successCount, failures := ImportRecords(db, records);
    resp := Completed(successCount, |failures|, failures);
  }

  /** uploadCSV's loop over the records, the first being row 2. */
  method ImportRecords(db: Database, records: seq<Record>)
    returns (successCount: nat, failures: seq<RowFailure>)
    modifies db
    ensures db.State() == TablesAfter(old(db.State()), Outcomes(records))
    ensures Report(successCount, failures) == Tally(Outcomes(records))
  {
    ghost var t := db.State();
    ghost var done: seq<Outcome> := [];
    successCount := 0;
    failures := [];
    var rowIndex := 1;
    var i := 0;
    while i < |records|
      invariant 0 <= i <= |records| && |done| == i
      invariant rowIndex == i + 1
      invariant MapsPrefix(Assess, records, done)
      invariant db.State() == TablesAfter(t, done)
      invariant Report(successCount, failures) == Tally(done)
    {
      rowIndex := rowIndex + 1;
      var verdict;
      ghost var outcome;
      verdict, outcome := ImportRow(db, records, i, done);
      match verdict {
        case None =>
          successCount := successCount + 1;
        case Some(errors) =>
          failures := failures + [RowFailure(rowIndex, errors)];
      }
      assert (done + [outcome])[..i] == done;
      done := done + [outcome];
      i := i + 1;
    }
    AssessedAll(records, done);
  }

  /** ImportRecord on the i-th record, keeping track of the outcomes so far. */
  method ImportRow(db: Database, records: seq<Record>, i: nat, ghost done: seq<Outcome>)
    returns (verdict: Option<RowErrors>, ghost outcome: Outcome)
    requires i < |records| && |done| == i && MapsPrefix(Assess, records, done)
    modifies db
    ensures MapsPrefix(Assess, records, done + [outcome])
    ensures verdict == ErrorsOf(outcome)
    ensures db.State() == Apply(old(db.State()), outcome)
  {
    verdict, outcome := ImportRecord(db, records[i]);
    MapsPrefixExtend(Assess, records, done, outcome);
  }

  lemma AssessedAll(records: seq<Record>, done: seq<Outcome>)
    requires MapsPrefix(Assess, records, done) && |done| == |records|
    ensures done == Outcomes(records)
  {
    forall j | 0 <= j < |done| ensures done[j] == Outcomes(records)[j] {
      assert done[j] == Assess(records[j]);
    }
  }

  /** The answer to a single-drug request. */
  datatype SingleResponse =
    | Rejected(fields: seq<Field>)  // 422 with the validation errors
    | Uploaded                       // "Drug uploaded successfully"
    | ServerError                    // 500 "Server Error"

  const UploadedMessage: string := "Drug uploaded successfully"
  const ServerErrorMessage: string := "Server Error"

  function SingleStatus(resp: SingleResponse): int {
    match resp
    case Rejected(_) => 422
    case Uploaded => 200
    case ServerError => 500
  }

  /** The JSON body as the controller sees it, after TrimStrings and ConvertEmptyStringsToNull. */
  function CleanRequest(r: Record): (c: Record)
    ensures forall f :: f in c <==> f in r
    ensures forall f :: f in c ==> c[f] == CleanInput(r[f])
  {
    map f | f in r :: CleanInput(r[f])
  }

  /** A cleaned request is clean: the middleware changes it no further. */
  lemma CleanRequestIdempotent(r: Record)
    ensures CleanRequest(CleanRequest(r)) == CleanRequest(r)
  {
    var c := CleanRequest(r);
    var cc := CleanRequest(c);
    forall f | f in c ensures cc[f] == c[f] {
      CleanInputIdempotent(r[f]);
    }
  }

  /**
    A blank manufacturer reaches the controller as null. The rule lets it
    pass (manufacturer is nullable there), but the NOT NULL column refuses
    it, so the single upload of such a drug ends in a server error.
   */
  lemma BlankManufacturerRefused(r: Record)
    requires Manufacturer in r && r[Manufacturer].Some?
    requires forall k :: 0 <= k < |r[Manufacturer].value| ==> IsInputSpace(r[Manufacturer].value[k])
    ensures Passes(Manufacturer, CleanRequest(r))
    ensures !Writable(CleanRequest(r))
  {
    CleanedBlankIsNull(r, Manufacturer);
    NullManufacturerRefused(CleanRequest(r));
  }

  /**
    A required field sent as nothing but input spaces (a no-break space, say)
    reaches the rules as null, so it fails `required` and the request with it.
   */
  lemma BlankRequiredRefused(r: Record, f: Field)
    requires RuleOf(f).required
    requires f in r && r[f].Some?
    requires forall k :: 0 <= k < |r[f].value| ==> IsInputSpace(r[f].value[k])
    ensures !Passes(f, CleanRequest(r))
    ensures !Validates(CleanRequest(r))
  {
    CleanedBlankIsNull(r, f);
  }

  /** A field sent as nothing but input spaces reaches the controller as null. */
  lemma CleanedBlankIsNull(r: Record, f: Field)
    requires f in r && r[f].Some?
    requires forall k :: 0 <= k < |r[f].value| ==> IsInputSpace(r[f].value[k])
    ensures Lookup(CleanRequest(r), f) == None
  {
  }

  /**
    A record without a manufacturer passes that field's rule but cannot be
    written: the column is NOT NULL without a default.
   */
  lemma NullManufacturerRefused(c: Record)
    requires Lookup(c, Manufacturer) == None
    ensures Passes(Manufacturer, c)
    ensures !Writable(c)
  {
    assert DrugCellsOf(c).manufacturer == Null;
  }

  /**
    uploadSingleDrug: the cleaned request under the same rules and the same
    write as a CSV row, answered with 422 and the broken fields, success, or
    500 when the write is refused.
   */
  method UploadSingleDrug(db: Database, r: Record) returns (resp: SingleResponse)
    modifies db
    ensures var c := CleanRequest(r);
      !Validates(c) ==> resp == Rejected(Failing(c)) && db.State() == old(db.State())
    ensures var c := CleanRequest(r);
      Validates(c) && Writable(c) ==> resp == Uploaded && db.State() == RowWrite(old(db.State()), c).value
    ensures var c := CleanRequest(r);
      Validates(c) && !Writable(c) ==> resp == ServerError && db.State() == old(db.State())
  {
    var c := CleanRequest(r);
    var failing := Failing(c);
    if failing != [] {
      return Rejected(failing);
    }
    var ok := ProcessDrugRow(db, c);
    resp := if ok then Uploaded else ServerError;
  }
}
