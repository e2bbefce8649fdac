/**
  The query scopes and helpers of the Drug and Batch models: which batches are
  expired or still sellable at a given time, and the Rx / OTC split of drugs.
  Times are seconds on the Calendar scale; a batch's expiry DATE is compared
  with a time at the start of its day.
 */
module Models {
  import opened Wrappers
  import opened Schema
  import opened Seqs
  import opened Calendar

  /** scopeNotExpired: expiry_date > now(). */
  predicate NotExpired(b: Batch, now: int) {
    StartOfDay(b.expiryDate) > now
  }

  /** scopeExpiringBefore: expiry_date <= the given time. */
  predicate ExpiringBefore(b: Batch, time: int) {
    StartOfDay(b.expiryDate) <= time
  }

  /** isExpired: the expiry date (midnight of that day) is in the past. */
  predicate IsExpired(b: Batch, now: int) {
    StartOfDay(b.expiryDate) < now
  }

  function NotExpiredBatches(bs: seq<Batch>, now: int): seq<Batch> {
    Filter(bs, (b: Batch) => NotExpired(b, now))
  }

  function ExpiringBeforeBatches(bs: seq<Batch>, time: int): seq<Batch> {
    Filter(bs, (b: Batch) => ExpiringBefore(b, time))
  }

  /** The drug's batches (hasMany on batches.drug_id), in table order. */
  function BatchesOf(bs: seq<Batch>, drugId: nat): (r: seq<Batch>)
    ensures forall k :: 0 <= k < |r| ==> r[k].drugId == drugId && r[k] in bs
    ensures forall k :: 0 <= k < |bs| && bs[k].drugId == drugId ==> bs[k] in r
  {
    Filter(bs, (b: Batch) => b.drugId == drugId)
  }

  function RxDrugs(ds: seq<Drug>): seq<Drug> {
    Filter(ds, (d: Drug) => d.info.rxStatus == "Rx")
  }

  function OtcDrugs(ds: seq<Drug>): seq<Drug> {
    Filter(ds, (d: Drug) => d.info.rxStatus == "OTC")
  }

  /**
    At any moment every batch is in exactly one of the scopes notExpired and
    expiringBefore(now).
   */
  lemma NotExpiredIffNotExpiringBefore(b: Batch, now: int)
    ensures NotExpired(b, now) <==> !ExpiringBefore(b, now)
  {
  }

  /** The two scopes split the table: their sizes add up to the number of batches. */
  lemma {:induction false} ScopesPartition(bs: seq<Batch>, now: int)
    ensures |NotExpiredBatches(bs, now)| + |ExpiringBeforeBatches(bs, now)| == |bs|
    decreases |bs|
  {
    if |bs| > 0 {
      ScopesPartition(bs[1..], now);
    }
  }

  /**
    An expired batch is out of the notExpired scope, and once expired a batch
    stays expired. The converse fails at exactly midnight of the expiry day,
    when the batch is neither expired nor in the notExpired scope.
   */
  lemma ExpiredIsNotSellable(b: Batch, now: int, later: int)
    requires now <= later
    ensures IsExpired(b, now) ==> !NotExpired(b, now) && IsExpired(b, later)
    ensures !NotExpired(b, now) && now != StartOfDay(b.expiryDate) ==> IsExpired(b, now)
  {
  }

  lemma ExpiryDayBoundary(b: Batch)
    ensures var midnight := StartOfDay(b.expiryDate);
      !IsExpired(b, midnight) && !NotExpired(b, midnight) && ExpiringBefore(b, midnight)
  {
  }

  /**
    No drug is both Rx and OTC, and when every status is one of the two values
    the upload accepts, the two scopes together cover the catalogue.
   */
  lemma {:induction false} RxOtcSplit(ds: seq<Drug>)
    ensures forall k :: 0 <= k < |RxDrugs(ds)| ==> RxDrugs(ds)[k] !in OtcDrugs(ds)
    ensures (forall k :: 0 <= k < |ds| ==> ds[k].info.rxStatus in ["Rx", "OTC"])
      ==> |RxDrugs(ds)| + |OtcDrugs(ds)| == |ds|
    decreases |ds|
  {
    if |ds| > 0 {
      RxOtcSplit(ds[1..]);
    }
  }

  // ---------------------------------------------------------------------------
  // total_stock: withSum('batches as total_stock', 'quantity') under notExpired

  /** A batch that total_stock counts for a drug: one of its batches in the notExpired scope. */
  predicate CountsToward(b: Batch, drugId: nat, now: int) {
    b.drugId == drugId && NotExpired(b, now)
  }

  /** The drug's batches in the notExpired scope, in table order. */
  function SellableBatches(bs: seq<Batch>, drugId: nat, now: int): (r: seq<Batch>)
    ensures forall b :: b in r <==> b in bs && CountsToward(b, drugId, now)
    decreases |bs|
  {
    if |bs| == 0 then []
    else
      var last := bs[|bs| - 1];
      assert forall b :: b in bs <==> b in bs[..|bs| - 1] || b == last;
      SellableBatches(bs[..|bs| - 1], drugId, now) + (if CountsToward(last, drugId, now) then [last] else [])
  }

  function Quantities(bs: seq<Batch>): (q: seq<int>)
    ensures |q| == |bs| && forall k :: 0 <= k < |bs| ==> q[k] == bs[k].quantity
  {
    seq(|bs|, k requires 0 <= k < |bs| => bs[k].quantity)
  }

  /** SQL SUM(quantity): NULL over no rows. */
  function SumOrNull(bs: seq<Batch>): Option<int> {
    if |bs| == 0 then None else Some(Sum(Quantities(bs)))
  }

  /** SQL COALESCE(x, 0). */
  function Coalesce(x: Option<int>): int {
    if x.Some? then x.value else 0
  }

  /**
    A drug's total_stock: the sum of the quantities of its unexpired batches,
    NULL when it has none.
   */
  function TotalStock(bs: seq<Batch>, drugId: nat, now: int): (s: Option<int>)
    ensures s.None? <==> forall b :: b in bs ==> !CountsToward(b, drugId, now)
  {
    var counted := SellableBatches(bs, drugId, now);
    assert |counted| > 0 ==> counted[0] in counted;
    SumOrNull(counted)
  }

  /**
    total_stock grows by a new batch's quantity exactly when that batch is one
    of the drug's unexpired batches; any other batch leaves it as it was.
   */
  lemma {:induction false} TotalStockAppend(bs: seq<Batch>, b: Batch, drugId: nat, now: int)
    ensures TotalStock(bs + [b], drugId, now)
      == if CountsToward(b, drugId, now) then Some(Coalesce(TotalStock(bs, drugId, now)) + b.quantity)
         else TotalStock(bs, drugId, now)
  {
    assert (bs + [b])[..|bs|] == bs;
    var before := SellableBatches(bs, drugId, now);
    if CountsToward(b, drugId, now) {
      assert Quantities(before + [b]) == Quantities(before) + [b.quantity];
      SumAppend(Quantities(before), [b.quantity]);
      assert Sum([b.quantity]) == Sum([]) + b.quantity;
    } else {
      assert before + [] == before;
    }
  }

  /** With no negative quantities in the table, total_stock is never negative. */
  lemma TotalStockNonNegative(bs: seq<Batch>, drugId: nat, now: int)
    requires forall k :: 0 <= k < |bs| ==> bs[k].quantity >= 0
    ensures Coalesce(TotalStock(bs, drugId, now)) >= 0
  {
    var counted := SellableBatches(bs, drugId, now);
    forall k | 0 <= k < |counted| ensures Quantities(counted)[k] >= 0 {
      assert counted[k] in bs;
    }
    SumNonNegative(Quantities(counted));
  }
}
