/**
  The drug-upload screen of the dashboard: the CSV file picker and its guard,
  the single-drug form with its list of batch rows, the form's required-field
  checks and the sample CSV template offered for download.

  The component keeps its state in React state variables; here they are the
  fields of a class whose methods are the event handlers. The HTTP request of
  the CSV upload and the rendering are not modelled.
 */
module UploadsComponent {
  import opened Wrappers
  import opened Seqs
  import opened Text
  import Upload

  // ---------------------------------------------------------------------------
  // State

  /** One batch row of the single-drug form; every input holds text. */
  datatype BatchRow = BatchRow(batchNo: string, expiryDate: string, quantity: string)

  /** keyof Batch. */
  datatype BatchField = BatchNo | ExpiryDate | Quantity

  const EmptyBatch: BatchRow := BatchRow("", "", "")

  datatype DrugForm = DrugForm(
    ndc: string, brandName: string, genericName: string, manufacturer: string, dosageForm: string,
    strength: string, packageSize: string, uom: string, costPrice: string, sellingPrice: string,
    rxStatus: string, schedule: string, storage: string, minStockLevel: string, location: string,
    batches: seq<BatchRow>)

  const InitialForm: DrugForm := DrugForm(
    "", "", "", "", "Tablet", "", "", "tablets", "", "", "Rx", "", "", "", "", [EmptyBatch])

  datatype StatusKind = NoStatus | Success | Failure

  /** The status message shown above the forms. */
  datatype UploadStatus = UploadStatus(kind: StatusKind, message: string)

  const ClearedStatus: UploadStatus := UploadStatus(NoStatus, "")
  const NotCsvMessage: string := "Please select a CSV file."
  const NoFileMessage: string := "No file selected."
  const AddedMessage: string := "Drug added successfully!"
  const CsvMime: string := "text/csv"

  /** The selected file, as far as the component looks at it. */
  datatype FileInfo = FileInfo(name: string, mime: string)

  // ---------------------------------------------------------------------------
  // The batch list

  function SetBatchField(b: BatchRow, field: BatchField, value: string): BatchRow {
    match field
    case BatchNo => b.(batchNo := value)
    case ExpiryDate => b.(expiryDate := value)
    case Quantity => b.(quantity := value)
  }

  /** addBatch: the rows followed by one empty row. */
  function AddBatch(bs: seq<BatchRow>): (r: seq<BatchRow>)
    ensures |r| == |bs| + 1 && r[..|bs|] == bs && r[|bs|] == EmptyBatch
  {
    bs + [EmptyBatch]
  }

  /** filter((_, i) => i !== index): every row whose position is not index. */
  function WithoutIndex(bs: seq<BatchRow>, index: int): seq<BatchRow>
    decreases |bs|
  {
    if |bs| == 0 then []
    else (if index == 0 then [] else [bs[0]]) + WithoutIndex(bs[1..], index - 1)
  }

  /** Filtering out one position drops exactly that row; a position outside the list drops none. */
  lemma {:induction false} WithoutIndexSlices(bs: seq<BatchRow>, index: int)
    ensures 0 <= index < |bs| ==> WithoutIndex(bs, index) == bs[..index] + bs[index + 1..]
    ensures !(0 <= index < |bs|) ==> WithoutIndex(bs, index) == bs
    decreases |bs|
  {
    if |bs| > 0 {
      WithoutIndexSlices(bs[1..], index - 1);
      if 0 < index < |bs| {
        assert bs[1..][..index - 1] + bs[1..][index..] == bs[1..index] + bs[index + 1..];
        assert bs[..index] == [bs[0]] + bs[1..index];
      } else if index != 0 {
        assert bs == [bs[0]] + bs[1..];
      }
    }
  }

  /** removeBatch: drops row index unless it is the only row. */
  function RemoveBatch(bs: seq<BatchRow>, index: int): (r: seq<BatchRow>)
    ensures |bs| > 1 && 0 <= index < |bs| ==> r == bs[..index] + bs[index + 1..]
    ensures !(|bs| > 1 && 0 <= index < |bs|) ==> r == bs
    ensures |bs| >= 1 ==> |r| >= 1
  {
    WithoutIndexSlices(bs, index);
    if |bs| > 1 then WithoutIndex(bs, index) else bs
  }

  /** Removing the row just added gives back the list, which is never empty in the form. */
  lemma RemoveUndoesAdd(bs: seq<BatchRow>)
    requires |bs| >= 1
    ensures RemoveBatch(AddBatch(bs), |bs|) == bs
  {
    assert AddBatch(bs)[..|bs|] == bs;
  }

  // ---------------------------------------------------------------------------
  // Validation of the single-drug form

  /** The fields handleSingleSubmit requires, in the order it checks them. */
  datatype RequiredField = RNdc | RBrandName | RManufacturer | RStrength | RPackageSize | RCostPrice | RSellingPrice

  const RequiredFields: seq<RequiredField> :=
    [RNdc, RBrandName, RManufacturer, RStrength, RPackageSize, RCostPrice, RSellingPrice]

  /** The form key of a required field. */
  function Key(f: RequiredField): string {
    match f
    case RNdc => "ndc"
    case RBrandName => "brandName"
    case RManufacturer => "manufacturer"
    case RStrength => "strength"
    case RPackageSize => "packageSize"
    case RCostPrice => "costPrice"
    case RSellingPrice => "sellingPrice"
  }

  function FieldValue(form: DrugForm, f: RequiredField): string {
    match f
    case RNdc => form.ndc
    case RBrandName => form.brandName
    case RManufacturer => form.manufacturer
    case RStrength => form.strength
    case RPackageSize => form.packageSize
    case RCostPrice => form.costPrice
    case RSellingPrice => form.sellingPrice
  }

  /** `!singleDrugForm[field]`: the input is empty. */
  predicate Blank(form: DrugForm, f: RequiredField) {
    FieldValue(form, f) == ""
  }

  /** `!batch.batchNo || !batch.expiryDate || !batch.quantity`. */
  predicate Incomplete(b: BatchRow) {
    b.batchNo == "" || b.expiryDate == "" || b.quantity == ""
  }

  predicate IsUpper(c: char) { 'A' <= c <= 'Z' }

  /** replace(/([A-Z])/g, " $1"): a space before every capital letter. */
  function SpaceBeforeCapitals(s: string): (r: string)
    ensures |r| >= |s|
    decreases |s|
  {
    if |s| == 0 then ""
    else (if IsUpper(s[0]) then [' ', s[0]] else [s[0]]) + SpaceBeforeCapitals(s[1..])
  }

  /** A camelCase key as lower-case words: "brandName" becomes "brand name". */
  function Humanize(key: string): (words: string)
    ensures |words| >= |key|
    ensures forall k :: 0 <= k < |words| ==> !IsUpper(words[k])
  {
    Lower(SpaceBeforeCapitals(key))
  }

  lemma {:induction false} SpaceBeforeCapitalsAppend(s: string, t: string)
    ensures SpaceBeforeCapitals(s + t) == SpaceBeforeCapitals(s) + SpaceBeforeCapitals(t)
    decreases |s|
  {
    if |s| > 0 {
      assert (s + t)[0] == s[0] && (s + t)[1..] == s[1..] + t;
      SpaceBeforeCapitalsAppend(s[1..], t);
    } else {
      assert s + t == t;
    }
  }

  predicate NoCapitals(s: string) {
    forall k :: 0 <= k < |s| ==> !IsUpper(s[k])
  }

  lemma {:induction false} SpaceBeforeCapitalsPlain(s: string)
    requires NoCapitals(s)
    ensures SpaceBeforeCapitals(s) == s
    decreases |s|
  {
    if |s| > 0 {
      SpaceBeforeCapitalsPlain(s[1..]);
    }
  }

  lemma SpaceBeforeCamel(first: string, capital: char, rest: string)
    requires NoCapitals(first) && NoCapitals(rest) && IsUpper(capital)
    ensures SpaceBeforeCapitals(first + [capital] + rest) == first + [' ', capital] + rest
  {
    SpaceBeforeCapitalsAppend(first + [capital], rest);
    SpaceBeforeCapitalsAppend(first, [capital]);
    SpaceBeforeCapitalsPlain(first);
    SpaceBeforeCapitalsPlain(rest);
    assert SpaceBeforeCapitals([capital]) == [' ', capital];
  }

  lemma LowerCamel(first: string, capital: char, rest: string)
    requires NoCapitals(first) && NoCapitals(rest)
    ensures Lower(first + [' ', capital] + rest) == first + [' ', LowerChar(capital)] + rest
  {
    var s := first + [' ', capital] + rest;
    var t := first + [' ', LowerChar(capital)] + rest;
    forall k | 0 <= k < |s| ensures Lower(s)[k] == t[k] {
      if k < |first| {
        assert s[k] == first[k];
      } else if k >= |first| + 2 {
        assert s[k] == rest[k - |first| - 2] && t[k] == rest[k - |first| - 2];
      }
    }
  }

  /**
    A key of two words, the second starting with a capital ("brandName"),
    becomes the two words with a space between and the capital lowered
    ("brand name"); a key without capitals ("manufacturer") is left as it is.
   */
  lemma HumanizeCamel(first: string, capital: char, rest: string)
    requires NoCapitals(first) && NoCapitals(rest) && IsUpper(capital)
    ensures Humanize(first) == first
    ensures Humanize(first + [capital] + rest) == first + [' ', LowerChar(capital)] + rest
  {
    SpaceBeforeCapitalsPlain(first);
    SpaceBeforeCamel(first, capital, rest);
    LowerCamel(first, capital, rest);
  }

  function MissingFieldMessage(f: RequiredField): string {
    "Please fill in " + Humanize(Key(f)) + "."
  }

  function MissingBatchMessage(i: nat): string {
    "Batch #" + NatToString(i + 1) + " is missing lot number, expiry date, or quantity."
  }

  /**
    The status handleSingleSubmit sets: the first empty required field, in the
    fixed order; otherwise the first incomplete batch row, numbered from 1;
    otherwise success.
   */
  function SubmitStatus(form: DrugForm): UploadStatus {
    match FirstWhere(RequiredFields, (f: RequiredField) => Blank(form, f))
    case Some(k) => UploadStatus(Failure, MissingFieldMessage(RequiredFields[k]))
    case None =>
      match FirstWhere(form.batches, Incomplete)
      case Some(i) => UploadStatus(Failure, MissingBatchMessage(i))
      case None => UploadStatus(Success, AddedMessage)
  }

  /** The first empty required field is the one reported. */
  lemma SubmitReportsField(form: DrugForm, k: nat)
    requires k < |RequiredFields| && Blank(form, RequiredFields[k])
    requires forall j :: 0 <= j < k ==> !Blank(form, RequiredFields[j])
    ensures SubmitStatus(form) == UploadStatus(Failure, MissingFieldMessage(RequiredFields[k]))
  {
    var r := FirstWhere(RequiredFields, (f: RequiredField) => Blank(form, f));
    assert r == Some(k);
  }

  /** With every required field filled, the first incomplete batch row is the one reported. */
  lemma SubmitReportsBatch(form: DrugForm, i: nat)
    requires forall j :: 0 <= j < |RequiredFields| ==> !Blank(form, RequiredFields[j])
    requires i < |form.batches| && Incomplete(form.batches[i])
    requires forall j :: 0 <= j < i ==> !Incomplete(form.batches[j])
    ensures SubmitStatus(form) == UploadStatus(Failure, MissingBatchMessage(i))
  {
    var r := FirstWhere(RequiredFields, (f: RequiredField) => Blank(form, f));
    assert r.None?;
    assert FirstWhere(form.batches, Incomplete) == Some(i);
  }

  /** A submission succeeds exactly when every required field and every batch row is filled in. */
  lemma SubmitSucceedsIff(form: DrugForm)
    ensures SubmitStatus(form) == UploadStatus(Success, AddedMessage) <==>
      (forall j :: 0 <= j < |RequiredFields| ==> !Blank(form, RequiredFields[j]))
      && (forall i :: 0 <= i < |form.batches| ==> !Incomplete(form.batches[i]))
  {
    var r := FirstWhere(RequiredFields, (f: RequiredField) => Blank(form, f));
    if r.Some? {
      assert Blank(form, RequiredFields[r.value]);
    } else if FirstWhere(form.batches, Incomplete).Some? {
      assert Incomplete(form.batches[FirstWhere(form.batches, Incomplete).value]);
    }
  }

  // ---------------------------------------------------------------------------
  // The sample CSV

  const SampleHeaders: seq<string> := [
    "ndc", "brand_name", "generic_name", "manufacturer", "dosage_form", "strength", "package_size",
    "uom", "batch_no", "expiry_date", "quantity", "cost_price", "selling_price", "rx_status",
    "schedule", "storage", "location", "min_stock_level"]

  const SampleRow: seq<string> := [
    "12345-678-90", "Tylenol", "Acetaminophen", "Johnson & Johnson", "Tablet", "500mg", "100",
    "tablets", "B2201A", "2025-12-31", "250", "5.50", "12.99", "OTC",
    "", "Room temperature", "Aisle 3", "50"]

  /** The cell holds neither the column separator nor the line separator. */
  predicate PlainCell(cell: string) {
    ',' !in cell && '\n' !in cell
  }

  predicate PlainCells(cells: seq<string>) {
    forall k :: 0 <= k < |cells| ==> PlainCell(cells[k])
  }

  /** A header line and one data line, cells joined by commas, lines by a newline. */
  function CsvText(headers: seq<string>, row: seq<string>): string {
    Join([Join(headers, ','), Join(row, ',')], '\n')
  }

  /** A character in no part and different from the separator is not in the join. */
  lemma {:induction false} JoinAvoids(parts: seq<string>, sep: char, c: char)
    requires c != sep
    requires forall k :: 0 <= k < |parts| ==> c !in parts[k]
    ensures c !in Join(parts, sep)
    decreases |parts|
  {
    if |parts| > 1 {
      JoinAvoids(parts[1..], sep, c);
    }
  }

  /** Splitting the text on newlines and then on commas gives back the header and the row. */
  lemma CsvRoundTrip(headers: seq<string>, row: seq<string>)
    requires |headers| >= 1 && |row| >= 1
    requires PlainCells(headers) && PlainCells(row)
    ensures var lines := Split(CsvText(headers, row), '\n');
      |lines| == 2 && Split(lines[0], ',') == headers && Split(lines[1], ',') == row
  {
    var h := Join(headers, ',');
    var r := Join(row, ',');
    JoinAvoids(headers, ',', '\n');
    JoinAvoids(row, ',', '\n');
    SplitJoin([h, r], '\n');
    SplitJoin(headers, ',');
    SplitJoin(row, ',');
  }

  /** The template has a cell for every header, and no cell needs quoting. */
  lemma SampleCellsPlain()
    ensures |SampleHeaders| == |SampleRow| == 18
    ensures PlainCells(SampleHeaders) && PlainCells(SampleRow)
  {
    HeaderCellsPlain();
    RowCellsPlain();
  }

  lemma HeaderCellsPlain()
    ensures PlainCells(SampleHeaders)
  {
    HeaderCellsPlainBelow();
    HeaderCellsPlainAbove();
  }

  lemma HeaderCellsPlainBelow()
    ensures forall k :: 0 <= k < 9 ==> PlainCell(SampleHeaders[k])
  {
  }

  lemma HeaderCellsPlainAbove()
    ensures forall k :: 9 <= k < 18 ==> PlainCell(SampleHeaders[k])
  {
  }

  lemma RowCellsPlain()
    ensures PlainCells(SampleRow)
  {
    RowCellsPlainBelow();
    RowCellsPlainAbove();
  }

  lemma RowCellsPlainBelow()
    ensures forall k :: 0 <= k < 9 ==> PlainCell(SampleRow[k])
  {
  }

  lemma RowCellsPlainAbove()
    ensures forall k :: 9 <= k < 18 ==> PlainCell(SampleRow[k])
  {
  }

  /**
    The content downloadSampleCsv offers, CsvText(SampleHeaders, SampleRow),
    reads back as its header line and its sample line.
   */
  lemma SampleCsvRoundTrip()
    ensures var lines := Split(CsvText(SampleHeaders, SampleRow), '\n');
      |lines| == 2 && Split(lines[0], ',') == SampleHeaders && Split(lines[1], ',') == SampleRow
  {
    SampleCellsPlain();
    CsvRoundTrip(SampleHeaders, SampleRow);
  }

  /** The template's header line names every column the server's import reads. */
  lemma SampleHeadersAreUploadFields()
    ensures forall f: Upload.Field :: Upload.Name(f) in SampleHeaders
  {
  }

  // ---------------------------------------------------------------------------
  // The component

  class UploadsForm {
    var csvFile: Option<FileInfo>
    var form: DrugForm
    var status: UploadStatus

    /** The form always shows at least one batch row. */
    ghost predicate Valid()
      reads this
    {
      |form.batches| >= 1
    }

    constructor ()
      ensures Valid()
      ensures csvFile.None? && form == InitialForm && status == ClearedStatus
    {
      csvFile := None;
      form := InitialForm;
      status := ClearedStatus;
    }

    /**
      handleFileChange: a file that is not text/csv is refused and the
      selection cleared; a CSV file is selected and the status cleared; no
      file changes nothing.
     */
    method HandleFileChange(file: Option<FileInfo>)
      modifies this
      ensures file.Some? && file.value.mime != CsvMime ==> csvFile.None? && status == UploadStatus(Failure, NotCsvMessage)
      ensures file.Some? && file.value.mime == CsvMime ==> csvFile == file && status == ClearedStatus
      ensures file.None? ==> csvFile == old(csvFile) && status == old(status)
      ensures form == old(form)
    {
      if file.Some? && file.value.mime != CsvMime {
        status := UploadStatus(Failure, NotCsvMessage);
        csvFile := None;
      } else if file.Some? {
        csvFile := file;
        status := ClearedStatus;
      }
    }

    /**
      handleCsvUpload's guard: without a selected file it reports
      "No file selected." and sends nothing; with one it sends the request.
     */
    method HandleCsvUpload() returns (sent: bool)
      modifies this
      ensures sent <==> old(csvFile).Some?
      ensures !sent ==> status == UploadStatus(Failure, NoFileMessage)
      ensures sent ==> status == old(status)
      ensures csvFile == old(csvFile) && form == old(form)
    {
      if csvFile.None? {
        status := UploadStatus(Failure, NoFileMessage);
        return false;
      }
      sent := true;
    }

    /** handleBatchChange: writes one field of one row and nothing else. */
    method HandleBatchChange(index: nat, field: BatchField, value: string)
      requires Valid() && index < |form.batches|
      modifies this
      ensures Valid()
      ensures form == old(form).(batches := old(form.batches)[index := SetBatchField(old(form.batches)[index], field, value)])
      ensures csvFile == old(csvFile) && status == old(status)
    {
      var updated := form.batches;
      updated := updated[index := SetBatchField(updated[index], field, value)];
      form := form.(batches := updated);
    }

    method HandleAddBatch()
      requires Valid()
      modifies this
      ensures Valid()
      ensures form == old(form).(batches := AddBatch(old(form.batches)))
      ensures csvFile == old(csvFile) && status == old(status)
    {
      form := form.(batches := AddBatch(form.batches));
    }

    method HandleRemoveBatch(index: int)
      requires Valid()
      modifies this
      ensures Valid()
      ensures form == old(form).(batches := RemoveBatch(old(form.batches), index))
      ensures csvFile == old(csvFile) && status == old(status)
    {
      form := form.(batches := RemoveBatch(form.batches, index));
    }

    /**
      handleSingleSubmit: checks the required fields in order, then the batch
      rows in order, stopping at the first problem; the form is not changed.
     */
    method HandleSingleSubmit()
      modifies this
      ensures status == SubmitStatus(form)
      ensures form == old(form) && csvFile == old(csvFile)
    {
      var f := form;
      var i := 0;
      while i < |RequiredFields|
        invariant 0 <= i <= |RequiredFields|
        invariant forall j :: 0 <= j < i ==> !Blank(f, RequiredFields[j])
      {
        var field := RequiredFields[i];
        if FieldValue(f, field) == "" {
          SubmitReportsField(f, i);
          status := UploadStatus(Failure, MissingFieldMessage(field));
          return;
        }
        i := i + 1;
      }
      var k := 0;
      while k < |f.batches|
        invariant 0 <= k <= |f.batches|
        invariant forall j :: 0 <= j < k ==> !Incomplete(f.batches[j])
      {
        var batch := f.batches[k];
        if batch.batchNo == "" || batch.expiryDate == "" || batch.quantity == "" {
          SubmitReportsBatch(f, k);
          status := UploadStatus(Failure, MissingBatchMessage(k));
          return;
        }
        k := k + 1;
      }
      SubmitSucceedsIff(f);
      status := UploadStatus(Success, AddedMessage);
    }
  }
}
