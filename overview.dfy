/**
  The dashboard statistics of the overview controller: the number of drugs,
  the low-stock count, the most and least stocked drug and the batches that
  expire within the next 90 days. Everything is read-only over the tables at
  a given time `now` (seconds on the Calendar scale).

  total_stock comes back from SQL SUM as a decimal string, or as null for a
  drug without unexpired batches, and the controller compares it with PHP's
  loose operators: null is below every sum, and `null <= n` is true for
  every integer n.
 */
module Overview {
  import opened Wrappers
  import opened Seqs
  import opened Text
  import opened Calendar
  import opened Schema
  import opened Models

  /** A drug together with its total_stock, as withSum(...)->get() returns it. */
  datatype StockedDrug = StockedDrug(drug: Drug, totalStock: Option<int>)

  function WithTotalStock(t: Tables, now: int): (inv: seq<StockedDrug>)
    ensures |inv| == |t.drugs|
    ensures forall k :: 0 <= k < |inv| ==> inv[k].drug == t.drugs[k]
    ensures forall k :: 0 <= k < |inv| ==> inv[k].totalStock == TotalStock(t.batches, t.drugs[k].id, now)
  {
    seq(|t.drugs|, k requires 0 <= k < |t.drugs| => StockedDrug(t.drugs[k], TotalStock(t.batches, t.drugs[k].id, now)))
  }

  // ---------------------------------------------------------------------------
  // Low stock

  /** PHP's `total_stock <= min_stock_level`: a null total is below every level. */
  predicate LowStock(d: StockedDrug) {
    d.totalStock.None? || d.totalStock.value <= d.drug.info.minStockLevel
  }

  /** The drug has no stock to sell, or no more than its minimum level. */
  predicate NeedsRestock(d: StockedDrug) {
    Coalesce(d.totalStock) <= d.drug.info.minStockLevel
  }

  function LowStockCount(inv: seq<StockedDrug>): (n: nat)
    ensures n <= |inv|
    ensures n == |Filter(inv, LowStock)|
  {
    Count(inv, LowStock)
  }

  /** For a non-negative minimum level the PHP comparison treats a drug without stock as stock 0. */
  lemma LowStockIsNeedsRestock(d: StockedDrug)
    requires d.drug.info.minStockLevel >= 0
    ensures LowStock(d) <==> NeedsRestock(d)
  {
  }

  // ---------------------------------------------------------------------------
  // Most and least stocked

  /** PHP's loose `a < b` on total_stock values: null is below every sum. */
  predicate StockBelow(a: Option<int>, b: Option<int>) {
    b.Some? && (a.None? || a.value < b.value)
  }

  /**
    sortByDesc('total_stock')->first(): the first drug, in table order, whose
    total_stock no other drug exceeds (PHP's sort is stable).
   */
  function MostStocked(inv: seq<StockedDrug>): (r: Option<nat>)
    ensures r.None? <==> |inv| == 0
    ensures r.Some? ==> r.value < |inv|
    ensures r.Some? ==> forall k :: 0 <= k < |inv| ==> !StockBelow(inv[r.value].totalStock, inv[k].totalStock)
    ensures r.Some? ==> forall k :: 0 <= k < r.value ==> StockBelow(inv[k].totalStock, inv[r.value].totalStock)
    decreases |inv|
  {
    if |inv| == 0 then None
    else
      var last := |inv| - 1;
      var m := MostStocked(inv[..last]);
      if m.None? || StockBelow(inv[m.value].totalStock, inv[last].totalStock) then Some(last) else m
  }

  /** The filter where('total_stock', '>', 0): a sum above zero (null > 0 is false). */
  predicate Positive(s: Option<int>) {
    s.Some? && s.value > 0
  }

  /**
    where('total_stock', '>', 0)->sortBy('total_stock')->first(): the first
    drug, in table order, with the smallest positive total_stock.
   */
  function LeastStocked(inv: seq<StockedDrug>): (r: Option<nat>)
    ensures r.None? <==> forall k :: 0 <= k < |inv| ==> !Positive(inv[k].totalStock)
    ensures r.Some? ==> r.value < |inv| && Positive(inv[r.value].totalStock)
    ensures r.Some? ==> forall k :: 0 <= k < |inv| && Positive(inv[k].totalStock) ==>
                          inv[r.value].totalStock.value <= inv[k].totalStock.value
    ensures r.Some? ==> forall k :: 0 <= k < r.value && Positive(inv[k].totalStock) ==>
                          inv[r.value].totalStock.value < inv[k].totalStock.value
    decreases |inv|
  {
    if |inv| == 0 then None
    else
      var last := |inv| - 1;
      var m := LeastStocked(inv[..last]);
      if !Positive(inv[last].totalStock) then m
      else if m.None? || inv[last].totalStock.value < inv[m.value].totalStock.value then Some(last)
      else m
  }

  /** PHP's `brand_name ?? generic_name`. */
  function NameOf(brand: Option<string>, generic: Option<string>): (name: Option<string>)
    ensures brand.Some? ==> name == brand
    ensures brand.None? ==> name == generic
  {
    if brand.Some? then brand else generic
  }

  /** PHP's string conversion: null becomes the empty string. */
  function OrEmpty(s: Option<string>): string {
    if s.Some? then s.value else ""
  }

  function StockText(s: Option<int>): string {
    if s.Some? then IntToString(s.value) else ""
  }

  /** "<name> (<total_stock>)" for the most and least stocked drug. */
  function Label(d: StockedDrug): string {
    OrEmpty(NameOf(Some(d.drug.info.brandName), d.drug.info.genericName)) + " (" + StockText(d.totalStock) + ")"
  }

  const NotAvailable: string := "N/A"

  /**
    A label starts with the drug's brand name (brand_name is NOT NULL, so the
    generic-name fallback never applies), ends with ")" and so is never "N/A";
    the number in it reads back as total_stock.
   */
  lemma LabelParts(d: StockedDrug)
    ensures var l := Label(d); var b := d.drug.info.brandName;
      && |l| >= |b| + 3 && l[..|b|] == b && l[|b|..|b| + 2] == " ("
      && l[|l| - 1] == ')' && l != NotAvailable
    ensures d.totalStock.Some? ==>
      var l := Label(d); var b := d.drug.info.brandName;
      IsIntegerText(l[|b| + 2..|l| - 1]) && IntegerValue(l[|b| + 2..|l| - 1]) == d.totalStock.value
  {
    var l := Label(d);
    var b := d.drug.info.brandName;
    var n := StockText(d.totalStock);
    assert l == b + " (" + n + ")";
    assert l[..|b|] == b;
    assert l[|b|..|b| + 2] == " (";
    assert l[|b| + 2..|l| - 1] == n;
    if d.totalStock.Some? {
      IntToStringRoundTrip(d.totalStock.value);
    }
  }

  // ---------------------------------------------------------------------------
  // Nearing expiry

  const NearingExpiryDays: int := 90

  /** expiry_date > now and expiry_date <= now + 90 days. */
  predicate NearingExpiry(b: Batch, now: int) {
    NotExpired(b, now) && ExpiringBefore(b, now + NearingExpiryDays * SecondsPerDay)
  }

  predicate SortedByExpiry(bs: seq<Batch>) {
    forall i, j :: 0 <= i < j < |bs| ==> bs[i].expiryDate <= bs[j].expiryDate
  }

  function InsertByExpiry(b: Batch, bs: seq<Batch>): (r: seq<Batch>)
    requires SortedByExpiry(bs)
    ensures SortedByExpiry(r)
    ensures multiset(r) == multiset(bs) + multiset{b}
    ensures |r| == |bs| + 1 && (r[0] == b || (|bs| > 0 && r[0] == bs[0]))
    decreases |bs|
  {
    if |bs| == 0 || b.expiryDate <= bs[0].expiryDate then [b] + bs
    else
      assert bs == [bs[0]] + bs[1..];
      [bs[0]] + InsertByExpiry(b, bs[1..])
  }

  /** orderBy('expiry_date', 'asc'): the same batches, earliest expiry first. */
  function SortByExpiry(bs: seq<Batch>): (r: seq<Batch>)
    ensures SortedByExpiry(r)
    ensures multiset(r) == multiset(bs)
    decreases |bs|
  {
    if |bs| == 0 then []
    else
      assert bs == [bs[0]] + bs[1..];
      InsertByExpiry(bs[0], SortByExpiry(bs[1..]))
  }

  /** The batches listed under nearing_expiry, in the order listed. */
  function NearingBatches(t: Tables, now: int): seq<Batch> {
    SortByExpiry(Filter(t.batches, (b: Batch) => NearingExpiry(b, now)))
  }

  /** One nearing_expiry entry; days_left is Carbon's fractional diffInDays. */
  datatype ExpiryEntry = ExpiryEntry(drugName: Option<string>, expiry: int, daysLeft: real)

  function EntryOf(ds: seq<Drug>, b: Batch, now: int): ExpiryEntry {
    var k := FindDrug(ds, b.drugId);
    var name := if k.Some? then NameOf(Some(ds[k.value].info.brandName), ds[k.value].info.genericName) else None;
    ExpiryEntry(name, b.expiryDate, (StartOfDay(b.expiryDate) - now) as real / SecondsPerDay as real)
  }

  function NearingEntries(t: Tables, now: int): (es: seq<ExpiryEntry>)
    ensures |es| == |NearingBatches(t, now)|
    ensures forall i :: 0 <= i < |es| ==> es[i] == EntryOf(t.drugs, NearingBatches(t, now)[i], now)
  {
    var bs := NearingBatches(t, now);
    seq(|bs|, i requires 0 <= i < |bs| => EntryOf(t.drugs, bs[i], now))
  }

  /**
    nearing_expiry lists exactly the batches of the table that expire after now
    and no later than 90 days from now, each as often as it occurs, in
    ascending order of expiry.
   */
  lemma {:induction false} NearingBatchesExact(t: Tables, now: int)
    ensures var nb := NearingBatches(t, now);
      && SortedByExpiry(nb)
      && (forall b :: b in nb <==> b in t.batches && NearingExpiry(b, now))
      && multiset(nb) == multiset(Filter(t.batches, (b: Batch) => NearingExpiry(b, now)))
  {
    var kept := Filter(t.batches, (b: Batch) => NearingExpiry(b, now));
    var nb := NearingBatches(t, now);
    forall b ensures b in nb <==> b in kept {
      assert b in nb <==> b in multiset(nb);
      assert b in kept <==> b in multiset(kept);
    }
  }

  /**
    Each entry's days_left lies in (0, 90], the entries come in ascending order
    of expiry, and under the foreign key every entry names its drug by brand.
   */
  lemma {:induction false} NearingEntriesBounds(t: Tables, now: int)
    ensures var es := NearingEntries(t, now);
      && (forall i :: 0 <= i < |es| ==> 0.0 < es[i].daysLeft <= NearingExpiryDays as real)
      && (forall i, j :: 0 <= i < j < |es| ==> es[i].expiry <= es[j].expiry)
    ensures Valid(t) ==> forall i :: 0 <= i < |NearingEntries(t, now)| ==>
      exists k :: 0 <= k < |t.drugs| && t.drugs[k].id == NearingBatches(t, now)[i].drugId
        && NearingEntries(t, now)[i].drugName == Some(t.drugs[k].info.brandName)
  {
    var es := NearingEntries(t, now);
    var nb := NearingBatches(t, now);
    NearingBatchesExact(t, now);
    forall i | 0 <= i < |es| ensures 0.0 < es[i].daysLeft <= NearingExpiryDays as real {
      assert nb[i] in nb;
      DaysLeftBounds(nb[i], now);
    }
    if Valid(t) {
      forall i | 0 <= i < |es|
        ensures exists k :: 0 <= k < |t.drugs| && t.drugs[k].id == nb[i].drugId && es[i].drugName == Some(t.drugs[k].info.brandName)
      {
        assert nb[i] in nb;
        var j :| 0 <= j < |t.batches| && t.batches[j] == nb[i];
        assert HasDrug(t.drugs, t.batches[j].drugId);
        var k := FindDrug(t.drugs, nb[i].drugId).value;
        assert t.drugs[k].id == nb[i].drugId;
      }
    }
  }

  lemma DaysLeftBounds(b: Batch, now: int)
    requires NearingExpiry(b, now)
    ensures var d := (StartOfDay(b.expiryDate) - now) as real / SecondsPerDay as real;
      0.0 < d <= NearingExpiryDays as real
  {
    var x := StartOfDay(b.expiryDate) - now;
    assert 0 < x <= NearingExpiryDays * SecondsPerDay;
    assert (x as real) / 86400.0 <= (NearingExpiryDays * SecondsPerDay) as real / 86400.0;
  }

  // ---------------------------------------------------------------------------
  // The response

  datatype Stats = Stats(
    totalDrugs: nat,
    lowStockAlerts: nat,
    mostStocked: string,
    leastStocked: string,
    nearingExpiry: seq<ExpiryEntry>)

  /** The label of the chosen drug, or "N/A" when there is none. */
  function LabelOr(inv: seq<StockedDrug>, k: Option<nat>): (l: string)
    requires k.Some? ==> k.value < |inv|
    ensures l == NotAvailable <==> k.None?
  {
    if k.Some? then LabelParts(inv[k.value]); Label(inv[k.value]) else NotAvailable
  }

  /** The stats object of the overview response (last_update is not modelled). */
  function OverviewIndex(t: Tables, now: int): (s: Stats)
    ensures s.totalDrugs == |t.drugs|
    ensures s.lowStockAlerts <= s.totalDrugs
    ensures s.mostStocked == NotAvailable <==> |t.drugs| == 0
    ensures s.leastStocked == NotAvailable <==>
      forall k :: 0 <= k < |t.drugs| ==> !Positive(TotalStock(t.batches, t.drugs[k].id, now))
  {
    var inv := WithTotalStock(t, now);
    var most := MostStocked(inv);
    var least := LeastStocked(inv);
    Stats(|t.drugs|, LowStockCount(inv), LabelOr(inv, most), LabelOr(inv, least), NearingEntries(t, now))
  }

  /**
    most_stocked is "N/A" for an empty catalogue and otherwise the label of a
    drug whose total_stock no drug exceeds; least_stocked is "N/A" when no
    drug has positive stock and otherwise the label of a drug with the
    smallest positive total_stock.
   */
  lemma {:induction false} StockedLabels(t: Tables, now: int)
    ensures var s := OverviewIndex(t, now); var inv := WithTotalStock(t, now);
      s.mostStocked != NotAvailable ==>
        exists m :: (0 <= m < |inv| && s.mostStocked == Label(inv[m])
          && forall k :: 0 <= k < |inv| ==> !StockBelow(inv[m].totalStock, inv[k].totalStock))
    ensures var s := OverviewIndex(t, now); var inv := WithTotalStock(t, now);
      s.leastStocked != NotAvailable ==>
        exists m :: (0 <= m < |inv| && s.leastStocked == Label(inv[m]) && Positive(inv[m].totalStock)
          && forall k :: 0 <= k < |inv| && Positive(inv[k].totalStock) ==>
               inv[m].totalStock.value <= inv[k].totalStock.value)
  {
    var inv := WithTotalStock(t, now);
    var s := OverviewIndex(t, now);
    var most := MostStocked(inv);
    var least := LeastStocked(inv);
    if most.Some? {
      assert s.mostStocked == Label(inv[most.value]);
    }
    if least.Some? {
      assert s.leastStocked == Label(inv[least.value]);
    }
  }
}
