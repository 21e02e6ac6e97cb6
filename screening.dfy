/** `filter_and_rank_stocks` of app_v3.py: the base filter over the stock database
    (price range, market-cap floor, volume floor in lots, optional gap-up rule),
    the LISTED/OTC partition and the outperformer selection, each list sorted by
    `change_pct` descending. */
module Screening {
  import opened Wrappers
  import opened Ordering
  import opened Stocks

  /** Shares per lot: `min_volume_shares = min_volume_lots * 1000`. */
  const LotSize: real := 1000.0

  /** The caller's filter parameters. */
  datatype Criteria = Criteria(minPrice: real, maxPrice: real, minMarketCap: real, minVolumeLots: real)

  datatype Stats = Stats(
    totalAnalyzed: nat,
    totalFiltered: nat,
    listedOutperformers: nat,
    otcOutperformers: nat,
    updateTime: Option<string>)

  /** The returned dictionary: `error` is present only when the database is missing. */
  datatype ScreenResult = ScreenResult(
    error: Option<string>,
    listed: seq<StockRecord>,
    otc: seq<StockRecord>,
    listedAll: seq<StockRecord>,
    otcAll: seq<StockRecord>,
    stats: Stats)

  const MissingDatabase: string := "stock database missing: run update_stock_database.py first"

  /** Price range, market-cap floor and volume floor (in shares). */
  predicate InBounds(s: StockRecord, c: Criteria) {
    c.minPrice <= s.price <= c.maxPrice
    && s.marketCap >= c.minMarketCap
    && s.volume as real >= c.minVolumeLots * LotSize
  }

  /** `1 + change_pct/100` is not zero, so the derived previous close exists
      (otherwise Python raises ZeroDivisionError). */
  predicate PrevCloseDefined(changePct: real) {
    1.0 + changePct / 100.0 != 0.0
  }

  /** The previous close implied by a price and its percentage change. */
  function DerivedPrevClose(price: real, changePct: real): (prev: real)
    requires PrevCloseDefined(changePct)
    ensures prev + prev * changePct / 100.0 == price
  {
    price / (1.0 + changePct / 100.0)
  }

  /** The gap-up rule: an `open` field exists and lies above the derived previous close. */
  predicate GapsUp(s: StockRecord) {
    s.open.Some? && PrevCloseDefined(s.changePct)
    && s.open.value > DerivedPrevClose(s.price, s.changePct)
  }

  predicate Keeps(s: StockRecord, c: Criteria, gapUpOnly: bool) {
    InBounds(s, c) && (gapUpOnly ==> GapsUp(s))
  }

  function KeepPredicate(c: Criteria, gapUpOnly: bool): StockRecord -> bool {
    (s: StockRecord) => Keeps(s, c, gapUpOnly)
  }

  /** The filtered set, in database order. */
  function BaseFilter(stocks: seq<StockRecord>, c: Criteria, gapUpOnly: bool): seq<StockRecord> {
    Select(stocks, KeepPredicate(c, gapUpOnly))
  }

  /** app_v3.py computes the derived previous close of every in-bounds record under
      `gap_up_only` before looking for `open`; a change of exactly -100% raises there. */
  predicate GapUpComputable(stocks: seq<StockRecord>, c: Criteria) {
    forall i :: 0 <= i < |stocks| && InBounds(stocks[i], c) ==> PrevCloseDefined(stocks[i].changePct)
  }

  /** `s['change_pct'] > bench`. */
  function Beats(bench: real): StockRecord -> bool {
    (s: StockRecord) => s.changePct > bench
  }

  /** The error reply for a missing database. */
  function MissingResult(): (r: ScreenResult)
    ensures r.error.Some?
    ensures r.listed == r.otc == r.listedAll == r.otcAll == []
    ensures r.stats == Stats(0, 0, 0, 0, None)
  {
    ScreenResult(Some(MissingDatabase), [], [], [], [], Stats(0, 0, 0, 0, None))
  }

  /** The partition, outperformer and sort steps applied to the filtered set. */
  function Ranked(db: Database, filtered: seq<StockRecord>, taiexChange: real, otcChange: real): (r: ScreenResult)
    ensures r.error.None?
    ensures multiset(r.listedAll) + multiset(r.otcAll) == multiset(filtered)
    ensures forall s :: s in r.listedAll ==> s.market == Listed
    ensures forall s :: s in r.otcAll ==> s.market == Otc
    ensures SortedDesc(r.listedAll, ChangeKey) && SortedDesc(r.otcAll, ChangeKey)
    ensures r.listed == Select(r.listedAll, Beats(taiexChange))
    ensures r.otc == Select(r.otcAll, Beats(otcChange))
    ensures SortedDesc(r.listed, ChangeKey) && SortedDesc(r.otc, ChangeKey)
    ensures r.stats.totalAnalyzed == |db.stocks| && r.stats.totalFiltered == |filtered|
    ensures r.stats.listedOutperformers == |r.listed| && r.stats.otcOutperformers == |r.otc|
    ensures r.stats.updateTime == Some(db.updateTime.GetOr("Unknown"))
  {
    var listedStocks := Select(filtered, IsListed);
    var otcStocks := Select(filtered, IsOtc);
    var listedOut := Select(listedStocks, Beats(taiexChange));
    var otcOut := Select(otcStocks, Beats(otcChange));
    var listedSorted := SortDesc(listedStocks, ChangeKey);
    var otcSorted := SortDesc(otcStocks, ChangeKey);
    MarketPartition(filtered);
    SortedSelectionPasses(filtered, IsListed, ChangeKey);
    SortedSelectionPasses(filtered, IsOtc, ChangeKey);
    SideRanked(listedStocks, taiexChange);
    SideRanked(otcStocks, otcChange);
    ScreenResult(
      None,
      SortDesc(listedOut, ChangeKey),
      SortDesc(otcOut, ChangeKey),
      listedSorted,
      otcSorted,
      Stats(|db.stocks|, |filtered|, |listedOut|, |otcOut|, Some(db.updateTime.GetOr("Unknown"))))
  }

  /** One market's side of `Ranked`: the sorted list is sorted, and filtering it for the
      outperformers equals sorting the outperformers. */
  lemma SideRanked(stocks: seq<StockRecord>, bench: real)
    ensures SortedDesc(SortDesc(stocks, ChangeKey), ChangeKey)
    ensures SortDesc(Select(stocks, Beats(bench)), ChangeKey) == Select(SortDesc(stocks, ChangeKey), Beats(bench))
    ensures SortedDesc(SortDesc(Select(stocks, Beats(bench)), ChangeKey), ChangeKey)
  {
    SortDescSorted(stocks, ChangeKey);
    SortDescSorted(Select(stocks, Beats(bench)), ChangeKey);
    SortSelectCommute(stocks, ChangeKey, Beats(bench));
  }

  /** Every filtered record meets all bounds (and the gap-up rule when asked), and every
      record of the database that meets them is in the filtered set. */
  lemma BaseFilterExact(stocks: seq<StockRecord>, c: Criteria, gapUpOnly: bool, s: StockRecord)
    ensures s in BaseFilter(stocks, c, gapUpOnly) <==> s in stocks && Keeps(s, c, gapUpOnly)
  {
    var r := BaseFilter(stocks, c, gapUpOnly);
    if s in r {
      var i :| 0 <= i < |r| && r[i] == s;
      assert KeepPredicate(c, gapUpOnly)(r[i]);
      assert s in multiset(r);
    }
  }

  /** The nested tests of the filter loop for one record. */
  method KeepRecord(stock: StockRecord, c: Criteria, gapUpOnly: bool) returns (keep: bool)
    requires gapUpOnly && InBounds(stock, c) ==> PrevCloseDefined(stock.changePct)
    ensures keep == Keeps(stock, c, gapUpOnly)
  {
    keep := false;
    var minVolumeShares := c.minVolumeLots * LotSize;
    if c.minPrice <= stock.price <= c.maxPrice {
      if stock.marketCap >= c.minMarketCap {
        if stock.volume as real >= minVolumeShares {
          if gapUpOnly {
            var prevClose := DerivedPrevClose(stock.price, stock.changePct);
            if stock.open.Some? {
              if stock.open.value > prevClose {
                keep := true;
              }
            }
          } else {
            keep := true;
          }
        }
      }
    }
  }

  /** The filter loop of `filter_and_rank_stocks`. */
  method CollectKept(allStocks: seq<StockRecord>, c: Criteria, gapUpOnly: bool) returns (filtered: seq<StockRecord>)
    requires gapUpOnly ==> GapUpComputable(allStocks, c)
    ensures filtered == BaseFilter(allStocks, c, gapUpOnly)
  {
    var p := KeepPredicate(c, gapUpOnly);
    filtered := [];
    var i := 0;
    while i < |allStocks|
      invariant 0 <= i <= |allStocks|
      invariant filtered == Select(allStocks[..i], p)
    {
      var stock := allStocks[i];
      SelectPrefixStep(allStocks, i, p);
      var keep := KeepRecord(stock, c, gapUpOnly);
      if keep {
        filtered := filtered + [stock];
      }
      i := i + 1;
    }
    assert allStocks[..i] == allStocks;
  }

  /** `filter_and_rank_stocks` with the database loaded by the caller. */
  method FilterAndRank(db: Option<Database>, c: Criteria, gapUpOnly: bool, taiexChange: real, otcChange: real)
    returns (r: ScreenResult)
    requires db.Some? && gapUpOnly ==> GapUpComputable(db.value.stocks, c)
    ensures db.None? ==> r == MissingResult()
    ensures db.Some? ==> r == Ranked(db.value, BaseFilter(db.value.stocks, c, gapUpOnly), taiexChange, otcChange)
  {
    if db.None? {
      return MissingResult();
    }
    var filtered := CollectKept(db.value.stocks, c, gapUpOnly);
    r := Ranked(db.value, filtered, taiexChange, otcChange);
  }
}
