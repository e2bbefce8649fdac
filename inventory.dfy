/**
  The paginated inventory listing of the inventory controller: every drug
  with its unexpired batches and its total_stock, narrowed by an optional
  search term and an optional low-stock filter, then cut into pages.

  Rows come in table order (the query has no ORDER BY). The search is a
  case-sensitive substring test; SQL LIKE's collation and its wildcards in
  the term are not modelled.
 */
module Inventory {
  import opened Wrappers
  import opened Seqs
  import opened Text
  import opened Schema
  import opened Models
  import opened Middleware
  import Overview

  /** The query parameters: search, per_page, page and low_stock. */
  datatype Query = Query(search: Option<string>, perPage: Option<int>, page: Option<int>, lowStock: bool)

  /** A listed drug with its eager-loaded batches and its total_stock. */
  datatype Item = Item(drug: Drug, batches: seq<Batch>, totalStock: Option<int>)

  /**
    Drug::with(batches under notExpired)->withSum(batches under notExpired):
    each drug with exactly its unexpired batches, and total_stock the sum of
    their quantities (NULL when there is none).
   */
  function Items(t: Tables, now: int): (items: seq<Item>)
    ensures |items| == |t.drugs|
    ensures forall k :: 0 <= k < |items| ==> items[k].drug == t.drugs[k]
    ensures forall k, b :: 0 <= k < |items| ==>
              (b in items[k].batches <==> b in t.batches && b.drugId == t.drugs[k].id && NotExpired(b, now))
    ensures forall k :: 0 <= k < |items| ==> items[k].totalStock == SumOrNull(items[k].batches)
    ensures forall k :: 0 <= k < |items| ==> items[k].totalStock == TotalStock(t.batches, t.drugs[k].id, now)
  {
    seq(|t.drugs|, k requires 0 <= k < |t.drugs| =>
      Item(t.drugs[k], SellableBatches(t.batches, t.drugs[k].id, now), TotalStock(t.batches, t.drugs[k].id, now)))
  }

  // ---------------------------------------------------------------------------
  // Search

  /** PHP's `if ($search)`: an absent term, "" and "0" apply no filter. */
  predicate Searching(search: Option<string>) {
    search.Some? && search.value != "" && search.value != "0"
  }

  /** brand_name, generic_name or ndc LIKE '%term%' (a NULL generic_name never matches). */
  predicate Matches(d: Drug, term: string) {
    || Contains(d.info.brandName, term)
    || (d.info.genericName.Some? && Contains(d.info.genericName.value, term))
    || Contains(d.ndc, term)
  }

  function SearchFilter(items: seq<Item>, search: Option<string>): (r: seq<Item>)
    ensures !Searching(search) ==> r == items
    ensures Searching(search) ==> forall x :: x in r <==> x in items && Matches(x.drug, search.value)
  {
    if Searching(search) then
      var r := Filter(items, (x: Item) => Matches(x.drug, search.value));
      assert forall k :: 0 <= k < |r| ==> r[k] in items && Matches(r[k].drug, search.value);
      r
    else items
  }

  /** A drug matches exactly when the term occurs at some position of its brand name, generic name or ndc. */
  lemma MatchesIff(d: Drug, term: string)
    ensures Matches(d, term) <==>
      || (exists i: nat :: OccursAt(d.info.brandName, term, i))
      || (d.info.genericName.Some? && exists i: nat :: OccursAt(d.info.genericName.value, term, i))
      || (exists i: nat :: OccursAt(d.ndc, term, i))
  {
    ContainsIff(d.info.brandName, term);
    if d.info.genericName.Some? {
      ContainsIff(d.info.genericName.value, term);
    }
    ContainsIff(d.ndc, term);
  }

  // ---------------------------------------------------------------------------
  // Low stock

  /**
    havingRaw('total_stock <= min_stock_level') as written: in SQL a NULL
    total_stock makes the condition unknown, so the row is dropped.
   */
  predicate SqlLowStock(x: Item) {
    x.totalStock.Some? && x.totalStock.value <= x.drug.info.minStockLevel
  }

  /** The intended condition: a drug without unexpired stock has stock 0. */
  predicate LowStock(x: Item) {
    Coalesce(x.totalStock) <= x.drug.info.minStockLevel
  }

  /** The low_stock filter, with a missing total_stock read as 0. */
  function LowStockFilter(items: seq<Item>, lowStock: bool): (r: seq<Item>)
    ensures !lowStock ==> r == items
    ensures lowStock ==> forall x :: x in r <==> x in items && LowStock(x)
    ensures lowStock ==> |r| == Count(items, LowStock)
  {
    if lowStock then
      var r := Filter(items, LowStock);
      assert forall k :: 0 <= k < |r| ==> r[k] in items && LowStock(r[k]);
      r
    else items
  }

  /** The low_stock filter as the controller applies it. */
  function LowStockFilterAsWritten(items: seq<Item>, lowStock: bool): (r: seq<Item>)
    ensures !lowStock ==> r == items
    ensures lowStock ==> forall x :: x in r <==> x in items && SqlLowStock(x)
    ensures lowStock ==> forall x :: x in r <==> x in LowStockFilter(items, true) && x.totalStock.Some?
  {
    if lowStock then
      var r := Filter(items, SqlLowStock);
      assert forall k :: 0 <= k < |r| ==> r[k] in items && SqlLowStock(r[k]);
      r
    else items
  }

  /**
    A drug with no batches and min_stock_level 0 is counted by the overview's
    low_stock_alerts but dropped by the low_stock filter as written; the
    corrected filter lists it.
   */
  lemma SqlLowStockDropsUnstocked()
    ensures var d := Drug(1, "0001", DrugInfo("Aspirin", None, "Acme", None, "500 mg", 10, "tablets", 250, "OTC", None, None, 0, None));
      var t := Tables([d], [], [], [], 2, 1, 1, 1);
      && Overview.OverviewIndex(t, 0).lowStockAlerts == 1
      && LowStockFilterAsWritten(Items(t, 0), true) == []
      && LowStockFilter(Items(t, 0), true) == Items(t, 0)
  {
    var d := Drug(1, "0001", DrugInfo("Aspirin", None, "Acme", None, "500 mg", 10, "tablets", 250, "OTC", None, None, 0, None));
    var t := Tables([d], [], [], [], 2, 1, 1, 1);
    var items := Items(t, 0);
    assert items == [Item(d, [], None)];
    assert !SqlLowStock(items[0]) && LowStock(items[0]);
    assert Filter(items, SqlLowStock) == [];
    assert Filter(items, LowStock) == items;
    var inv := Overview.WithTotalStock(t, 0);
    assert inv == [Overview.StockedDrug(d, None)];
    assert Overview.LowStock(inv[0]);
    assert Count(inv, Overview.LowStock) == 1;
  }

  /**
    With no negative minimum level, the corrected low_stock filter lists as
    many drugs as the overview's low_stock_alerts counts.
   */
  lemma {:induction false} LowStockMatchesOverview(t: Tables, now: int)
    requires forall k :: 0 <= k < |t.drugs| ==> t.drugs[k].info.minStockLevel >= 0
    ensures |LowStockFilter(Items(t, now), true)| == Overview.OverviewIndex(t, now).lowStockAlerts
  {
    var items := Items(t, now);
    var inv := Overview.WithTotalStock(t, now);
    forall k | 0 <= k < |items| ensures LowStock(items[k]) <==> Overview.LowStock(inv[k]) {
      Overview.LowStockIsNeedsRestock(inv[k]);
    }
    CountPointwise(items, LowStock, inv, Overview.LowStock);
  }

  // ---------------------------------------------------------------------------
  // Pagination

  const DefaultPerPage: int := 15

  /** query('per_page', 15), then paginate's `$perPage ?: 15`: absent or 0 gives 15. */
  function PerPage(param: Option<int>): (n: int)
    ensures n != 0
    ensures param.None? ==> n == DefaultPerPage
    ensures param.Some? && param.value != 0 ==> n == param.value
  {
    if param.None? || param.value == 0 then DefaultPerPage else param.value
  }

  /** The page parameter counts only as an integer of at least 1; anything else is page 1. */
  function CurrentPage(param: Option<int>): (p: int)
    ensures p >= 1
    ensures param.Some? && param.value >= 1 ==> p == param.value
  {
    if param.Some? && param.value >= 1 then param.value else 1
  }

  /**
    forPage(page, perPage) with a positive page size: skip (page - 1) * perPage
    rows, then take perPage rows.
   */
  function PageOf(rows: seq<Item>, page: int, perPage: int): (r: seq<Item>)
    requires page >= 1 && perPage > 0
    ensures forall x :: x in r ==> x in rows
    ensures |r| <= perPage
  {
    var skip := PageStart(page - 1, perPage);
    var start := if skip < |rows| then skip else |rows|;
    var end := if start + perPage < |rows| then start + perPage else |rows|;
    rows[start..end]
  }

  /** max(ceil(total / perPage), 1). */
  function LastPage(total: nat, perPage: int): (n: int)
    requires perPage != 0
    ensures n >= 1
    ensures perPage > 0 && total > 0 ==> (n - 1) * perPage < total <= n * perPage
    ensures perPage < 0 || total == 0 ==> n == 1
  {
    if perPage > 0 && total > 0 then CeilDiv(total, perPage) else 1
  }

  /** ceil(n / d) for positive n and d: the least page count whose pages hold n rows. */
  function CeilDiv(n: nat, d: int): (c: int)
    requires n > 0 && d > 0
    ensures c >= 1 && (c - 1) * d < n <= c * d
  {
    var c := (n + d - 1) / d;
    DivBounds(n + d - 1, d, c);
    c
  }

  /** The quotient brackets the dividend. */
  lemma DivBounds(m: nat, d: int, c: int)
    requires d > 0 && c == m / d
    ensures c * d <= m < c * d + d
    ensures (c - 1) * d == c * d - d
  {
  }

  /**
    With a positive page size every row is on exactly the page its position
    says, and that page is at most the last page.
   */
  lemma RowOnItsPage(rows: seq<Item>, k: nat, perPage: int)
    requires perPage > 0 && k < |rows|
    ensures var p := k / perPage + 1;
      && p <= LastPage(|rows|, perPage)
      && k % perPage < |PageOf(rows, p, perPage)|
      && PageOf(rows, p, perPage)[k % perPage] == rows[k]
  {
    var p := k / perPage + 1;
    var i := k % perPage;
    var skip := PageStart(k / perPage, perPage);
    assert skip + i == k by { DivBounds(k, perPage, k / perPage); }
    var end := if skip + perPage < |rows| then skip + perPage else |rows|;
    assert PageOf(rows, p, perPage) == rows[skip..end];
    assert skip + i == k < end;
    var n := LastPage(|rows|, perPage);
    assert (n - 1) * perPage < |rows| <= n * perPage;
    assert p <= n by {
      if p > n { PageStartMonotone(n, k / perPage, perPage); }
    }
  }

  /** The first position of page p + 1 (pages counted from 0 here). */
  function PageStart(p: nat, d: int): (skip: nat)
    requires d > 0
    ensures skip == p * d
  {
    p * d
  }

  /** Later pages start later. */
  lemma PageStartMonotone(p: nat, q: nat, d: int)
    requires d > 0 && p <= q
    ensures p * d <= q * d
  {
  }

  /** Pages after the last page are empty. */
  lemma PagesAfterLastAreEmpty(rows: seq<Item>, page: int, perPage: int)
    requires perPage > 0 && page > LastPage(|rows|, perPage)
    ensures PageOf(rows, page, perPage) == []
  {
    var n := LastPage(|rows|, perPage);
    PageStartMonotone(n, page - 1, perPage);
  }

  // ---------------------------------------------------------------------------
  // The response

  datatype Pagination = Pagination(currentPage: int, perPage: int, total: nat, lastPage: int)

  /**
    The JSON body, or the database error a negative page size causes: the
    paginator then sends an offset without a limit, which MySQL refuses.
   */
  datatype Response =
    | Listing(data: seq<Item>, pagination: Pagination)
    | QueryFailed

  /**
    The rows the query selects before pagination. The search term is read
    after the middleware has trimmed it and turned a blank one into null.
   */
  function Listed(t: Tables, now: int, q: Query): (r: seq<Item>)
    ensures forall x :: x in r <==>
      && x in Items(t, now)
      && (Searching(CleanInput(q.search)) ==> Matches(x.drug, CleanInput(q.search).value))
      && (!q.lowStock || SqlLowStock(x))
  {
    LowStockFilterAsWritten(SearchFilter(Items(t, now), CleanInput(q.search)), q.lowStock)
  }

  /** An absent or blank search term lists every drug, as no term at all does. */
  lemma BlankSearchListsAll(t: Tables, now: int, q: Query)
    requires q.search.None? || forall k :: 0 <= k < |q.search.value| ==> IsInputSpace(q.search.value[k])
    requires !q.lowStock
    ensures Listed(t, now, q) == Items(t, now)
  {
    assert CleanInput(q.search).None?;
  }

  /** The listing depends only on the cleaned term: a term and its trimmed form select the same rows. */
  lemma ListedCleanSearch(t: Tables, now: int, q: Query)
    ensures Listed(t, now, q) == Listed(t, now, q.(search := CleanInput(q.search)))
  {
    CleanInputIdempotent(q.search);
  }

  /**
    paginate(): count the rows; with none, answer an empty page without a
    query; otherwise fetch the page.
   */
  function InventoryIndex(t: Tables, now: int, q: Query): (r: Response)
    ensures r.QueryFailed? <==> PerPage(q.perPage) < 0 && |Listed(t, now, q)| > 0
    ensures r.Listing? ==>
      && r.pagination.total == |Listed(t, now, q)|
      && r.pagination.perPage == PerPage(q.perPage)
      && r.pagination.currentPage == CurrentPage(q.page)
      && r.pagination.lastPage == LastPage(r.pagination.total, r.pagination.perPage)
      && (forall x :: x in r.data ==> x in Listed(t, now, q))
      && (r.pagination.perPage > 0 ==> |r.data| <= r.pagination.perPage)
      && (r.pagination.total == 0 ==> r.data == [] && r.pagination.lastPage == 1)
  {
    var rows := Listed(t, now, q);
    var perPage := PerPage(q.perPage);
    var page := CurrentPage(q.page);
    var meta := Pagination(page, perPage, |rows|, LastPage(|rows|, perPage));
    if |rows| == 0 then Listing([], meta)
    else if perPage < 0 then QueryFailed
    else Listing(PageOf(rows, page, perPage), meta)
  }

  /**
    Every returned drug passes the search and low-stock filters that apply,
    carries exactly its unexpired batches, and its total_stock is the sum of
    their quantities.
   */
  lemma {:induction false} ListedItems(t: Tables, now: int, q: Query)
    ensures InventoryIndex(t, now, q).Listing? ==> forall x :: x in InventoryIndex(t, now, q).data ==>
      && (exists k :: 0 <= k < |t.drugs| && x.drug == t.drugs[k])
      && (Searching(CleanInput(q.search)) ==> Matches(x.drug, CleanInput(q.search).value))
      && (q.lowStock ==> SqlLowStock(x))
      && (forall b :: b in x.batches <==> b in t.batches && b.drugId == x.drug.id && NotExpired(b, now))
      && x.totalStock == SumOrNull(x.batches)
  {
    var items := Items(t, now);
    forall x | InventoryIndex(t, now, q).Listing? && x in InventoryIndex(t, now, q).data
      ensures exists k :: 0 <= k < |items| && x == items[k]
    {
      assert x in Listed(t, now, q);
    }
  }
}
