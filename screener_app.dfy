/** app.py: the Flask screener over a fixed ticker list. Quotes are fetched per symbol
    (an input here); this module models the OTC classification by code list, the
    price/market-cap filter, the partition, outperformer selection and sort, and the
    request validation of `screen_stocks`. */
module ScreenerApp {
  import opened Wrappers
  import opened Ordering
  import opened Stocks

  /** The codes app.py treats as OTC although their tickers carry `.TW`. */
  const OtcStockCodes: seq<string> := ["3443", "6669", "6488", "3707", "6446", "4966", "3529", "6510", "4968", "3661"]

  /** One successfully fetched quote (`fetch_stock_data`'s dictionary). */
  datatype Quote = Quote(symbol: string, name: string, currentPrice: real, previousClose: real,
                         dailyChangePct: real, volume: int, marketCap: real, kind: Market)

  // ----- the suffix stripping and the type -----

  /** Python's `s.replace(pat, rep)`: every non-overlapping occurrence, left to right. */
  function ReplaceAll(s: string, pat: string, rep: string): string
    requires pat != []
    decreases |s|
  {
    if |s| < |pat| then s
    else if s[..|pat|] == pat then rep + ReplaceAll(s[|pat|..], pat, rep)
    else [s[0]] + ReplaceAll(s[1..], pat, rep)
  }

  /** `symbol.replace('.TW', '').replace('.TWO', '')`, as written. */
  function StockCodeAsWritten(symbol: string): string {
    ReplaceAll(ReplaceAll(symbol, ".TW", ""), ".TWO", "")
  }

  /** The first replacement already consumes the `.TW` of a `.TWO` suffix, so the second
      never fires and the trailing `O` stays. */
  lemma OtcSuffixNotStripped()
    ensures StockCodeAsWritten("3443.TWO") == "3443O"
    ensures StockCodeAsWritten("3443.TWO") != StockCode("3443.TWO")
  {
    DotTwReplaced();
    DotTwoAbsent();
    CodeOfSymbolOf("3443", Otc);
    assert SymbolOf("3443", Otc) == "3443.TWO";
    assert |"3443O"| != |"3443"|;
  }

  lemma DotTwReplaced()
    ensures ReplaceAll("3443.TWO", ".TW", "") == "3443O"
  {
    var pat := ".TW";
    var t0: string := ['O'];
    var t1 := pat + t0;
    assert t1[..3] == pat && t1[3..] == t0;
    assert ReplaceAll(t1, pat, "") == t0;
    var t2 := ['3'] + t1;
    ReplaceSkip('3', t1, pat, "");
    var t3 := ['4'] + t2;
    ReplaceSkip('4', t2, pat, "");
    var t4 := ['4'] + t3;
    ReplaceSkip('4', t3, pat, "");
    var t5 := ['3'] + t4;
    ReplaceSkip('3', t4, pat, "");
    assert t5 == "3443.TWO";
    assert ReplaceAll(t5, pat, "") == ['3'] + (['4'] + (['4'] + (['3'] + t0)));
  }

  /** A string that does not start with the pattern keeps its first character. */
  lemma ReplaceSkip(c: char, t: string, pat: string, rep: string)
    requires pat != [] && c != pat[0]
    ensures ReplaceAll([c] + t, pat, rep) == [c] + ReplaceAll(t, pat, rep)
  {
    assert ([c] + t)[1..] == t;
    if |pat| <= |t| + 1 {
      assert ([c] + t)[..|pat|][0] == c;
    }
  }

  lemma DotTwoAbsent()
    ensures ReplaceAll("3443O", ".TWO", "") == "3443O"
  {
    var s := "3443O";
    assert ReplaceAll(s[1..], ".TWO", "") == "443O";
  }

  /** The code of a ticker: everything before its suffix. */
  function StockCode(symbol: string): string {
    CodeOfSymbol(symbol)
  }

  /** The code is recovered from both suffixes. */
  lemma StockCodeOfSymbol(code: string, m: Market)
    requires '.' !in code
    ensures StockCode(SymbolOf(code, m)) == code
  {
    CodeOfSymbolOf(code, m);
  }

  /** On the `.TW` tickers app.py actually lists, the written expression and the corrected
      one agree. */
  lemma {:induction false} AsWrittenAgreesOnTw(code: string)
    requires '.' !in code
    ensures StockCodeAsWritten(code + ".TW") == StockCode(code + ".TW")
  {
    NoDotUnchanged(code, ".TW");
    ReplaceAppend(code, ".TW");
    NoDotUnchanged(code, ".TWO");
    StockCodeOfSymbol(code, Listed);
    assert SymbolOf(code, Listed) == code + ".TW";
  }

  /** A string without a dot contains no occurrence of a dotted pattern. */
  lemma {:induction false} NoDotUnchanged(s: string, pat: string)
    requires '.' !in s && pat != [] && pat[0] == '.'
    ensures ReplaceAll(s, pat, "") == s
    decreases |s|
  {
    if |s| >= |pat| {
      assert s[..|pat|][0] != pat[0];
      NoDotUnchanged(s[1..], pat);
      assert [s[0]] + s[1..] == s;
    }
  }

  /** Replacing `.TW` in `code + ".TW"` strips just the suffix when the code has no dot. */
  lemma {:induction false} ReplaceAppend(code: string, suffix: string)
    requires '.' !in code && |suffix| >= 1 && suffix[0] == '.'
    ensures ReplaceAll(code + suffix, suffix, "") == code
    decreases |code|
  {
    if code == [] {
      assert (code + suffix)[..|suffix|] == suffix;
      assert (code + suffix)[|suffix|..] == [];
    } else {
      assert (code + suffix)[..|suffix|][0] == code[0] != suffix[0];
      assert (code + suffix)[1..] == code[1..] + suffix;
      ReplaceAppend(code[1..], suffix);
      assert [code[0]] + code[1..] == code;
    }
  }

  /** `'OTC' if stock_code in OTC_STOCK_CODES else 'LISTED'` */
  function StockType(symbol: string): (m: Market)
    ensures m == Otc <==> StockCode(symbol) in OtcStockCodes
  {
    if StockCode(symbol) in OtcStockCodes then Otc else Listed
  }

  // ----- filter, partition and rank -----

  /** The caller's bounds after validation. */
  datatype Bounds = Bounds(minPrice: real, maxPrice: real, minMarketCap: real)

  predicate InRange(q: Quote, b: Bounds) {
    b.minPrice <= q.currentPrice <= b.maxPrice && q.marketCap >= b.minMarketCap
  }

  function InRangePredicate(b: Bounds): Quote -> bool {
    (q: Quote) => InRange(q, b)
  }

  function DailyKey(q: Quote): real { q.dailyChangePct }
  predicate IsListedQuote(q: Quote) { q.kind == Listed }
  predicate IsOtcQuote(q: Quote) { q.kind == Otc }

  function Outperforms(bench: real): Quote -> bool {
    (q: Quote) => q.dailyChangePct > bench
  }

  /** The successfully fetched quotes, in list order. */
  function Fetched(results: seq<Option<Quote>>): seq<Quote> {
    if results == [] then []
    else
      var init := Fetched(results[..|results| - 1]);
      var last := results[|results| - 1];
      if last.Some? then init + [last.value] else init
  }

  datatype AppStats = AppStats(totalAnalyzed: nat, totalFiltered: nat, listedOutperformers: nat, otcOutperformers: nat)

  datatype AppResult = AppResult(listed: seq<Quote>, otc: seq<Quote>, listedAll: seq<Quote>, otcAll: seq<Quote>, stats: AppStats)

  /** Partition, outperformer selection and sort of the filtered quotes. */
  function AppRanked(analyzed: nat, filtered: seq<Quote>, taiexChange: real, otcChange: real): (r: AppResult)
    ensures multiset(r.listedAll) + multiset(r.otcAll) == multiset(filtered)
    ensures forall q :: q in r.listedAll ==> q.kind == Listed
    ensures forall q :: q in r.otcAll ==> q.kind == Otc
    ensures SortedDesc(r.listedAll, DailyKey) && SortedDesc(r.otcAll, DailyKey)
    ensures r.listed == Select(r.listedAll, Outperforms(taiexChange))
    ensures r.otc == Select(r.otcAll, Outperforms(otcChange))
    ensures SortedDesc(r.listed, DailyKey) && SortedDesc(r.otc, DailyKey)
    ensures r.stats == AppStats(analyzed, |filtered|, |r.listed|, |r.otc|)
  {
    var listedStocks := Select(filtered, IsListedQuote);
    var otcStocks := Select(filtered, IsOtcQuote);
    var listedOut := Select(listedStocks, Outperforms(taiexChange));
    var otcOut := Select(otcStocks, Outperforms(otcChange));
    SplitByMarket(filtered);
    SideRanked(listedStocks, taiexChange);
    SideRanked(otcStocks, otcChange);
    AppResult(SortDesc(listedOut, DailyKey), SortDesc(otcOut, DailyKey),
              SortDesc(listedStocks, DailyKey), SortDesc(otcStocks, DailyKey),
              AppStats(analyzed, |filtered|, |listedOut|, |otcOut|))
  }

  /** The two market lists, each sorted, share out the filtered quotes by market. */
  lemma SplitByMarket(filtered: seq<Quote>)
    ensures multiset(SortDesc(Select(filtered, IsListedQuote), DailyKey))
            + multiset(SortDesc(Select(filtered, IsOtcQuote), DailyKey)) == multiset(filtered)
    ensures forall q :: q in SortDesc(Select(filtered, IsListedQuote), DailyKey) ==> q.kind == Listed
    ensures forall q :: q in SortDesc(Select(filtered, IsOtcQuote), DailyKey) ==> q.kind == Otc
  {
    SelectComplement(filtered, IsListedQuote, IsOtcQuote);
    SortedSelectionPasses(filtered, IsListedQuote, DailyKey);
    SortedSelectionPasses(filtered, IsOtcQuote, DailyKey);
  }

  /** One market's ranking: sorted, and picking the outperformers of the sorted list equals
      sorting the outperformers. */
  lemma SideRanked(stocks: seq<Quote>, change: real)
    ensures SortedDesc(SortDesc(stocks, DailyKey), DailyKey)
    ensures SortDesc(Select(stocks, Outperforms(change)), DailyKey) == Select(SortDesc(stocks, DailyKey), Outperforms(change))
    ensures SortedDesc(SortDesc(Select(stocks, Outperforms(change)), DailyKey), DailyKey)
  {
    SortDescSorted(stocks, DailyKey);
    SortDescSorted(Select(stocks, Outperforms(change)), DailyKey);
    SortSelectCommute(stocks, DailyKey, Outperforms(change));
  }

  /** The filtered quotes are exactly the fetched ones within the price range and above the
      market-cap floor, in list order. */
  lemma FilteredExact(results: seq<Option<Quote>>, b: Bounds, q: Quote)
    ensures q in Select(Fetched(results), InRangePredicate(b)) <==> Some(q) in results && InRange(q, b)
  {
    FetchedExact(results, q);
    var r := Select(Fetched(results), InRangePredicate(b));
    if q in r {
      var i :| 0 <= i < |r| && r[i] == q;
      assert InRangePredicate(b)(r[i]);
      assert q in multiset(r);
    }
  }

  lemma {:induction false} FetchedExact(results: seq<Option<Quote>>, q: Quote)
    ensures q in Fetched(results) <==> Some(q) in results
  {
    if results != [] {
      var init := results[..|results| - 1];
      FetchedExact(init, q);
      assert results == init + [results[|results| - 1]];
    }
  }

  /** The collection loop: keep every symbol whose fetch succeeded. */
  method CollectFetched(results: seq<Option<Quote>>) returns (stockDataList: seq<Quote>)
    ensures stockDataList == Fetched(results)
  {
    stockDataList := [];
    for k := 0 to |results|
      invariant stockDataList == Fetched(results[..k])
    {
      assert results[..k + 1][..k] == results[..k];
      var data := results[k];
      if data.Some? {
        stockDataList := stockDataList + [data.value];
      }
    }
    assert results[..|results|] == results;
  }

  /** The price-range and market-cap loop. */
  /** The two nested bound checks of the `filter_stocks` loop body. */
  method KeepQuote(stock: Quote, b: Bounds) returns (keep: bool)
    ensures keep <==> InRange(stock, b)
  {
    keep := false;
    if b.minPrice <= stock.currentPrice <= b.maxPrice {
      if stock.marketCap >= b.minMarketCap {
        keep := true;
      }
    }
  }

  method FilterQuotes(stockDataList: seq<Quote>, b: Bounds) returns (filtered: seq<Quote>)
    ensures filtered == Select(stockDataList, InRangePredicate(b))
  {
    var p := InRangePredicate(b);
    filtered := [];
    var i := 0;
    while i < |stockDataList|
      invariant 0 <= i <= |stockDataList|
      invariant filtered == Select(stockDataList[..i], p)
    {
      var stock := stockDataList[i];
      SelectPrefixStep(stockDataList, i, p);
      var keep := KeepQuote(stock, b);
      if keep {
        filtered := filtered + [stock];
      }
      i := i + 1;
    }
    assert stockDataList[..i] == stockDataList;
  }

  /** `filter_and_rank_stocks(min_price, max_price, min_market_cap, taiex_change, otc_change)`
      with the per-symbol fetch results as input (`None` for a failed fetch). */
  method FilterAndRank(results: seq<Option<Quote>>, b: Bounds, taiexChange: real, otcChange: real)
    returns (r: AppResult)
    ensures r == AppRanked(|Fetched(results)|, Select(Fetched(results), InRangePredicate(b)), taiexChange, otcChange)
  {
    var stockDataList := CollectFetched(results);
    var filtered := FilterQuotes(stockDataList, b);
    r := AppRanked(|stockDataList|, filtered, taiexChange, otcChange);
  }

  // ----- request validation -----

  /** 100,000,000 NT$ per unit of the market-cap field. */
  const HundredMillion: real := 100000000.0

  datatype BadInput = NonPositivePrice | EmptyRange

  /** The validated request: a 400 reply, or the bounds to screen with. */
  datatype Validated = Rejected(reason: BadInput) | Accepted(bounds: Bounds)

  /** The checks of `screen_stocks`, in order, and the market-cap conversion. */
  function ValidateRequest(minPrice: real, maxPrice: real, minMarketCapUnits: real, enableMarketCap: bool): (v: Validated)
    ensures v.Rejected? <==> minPrice <= 0.0 || maxPrice <= 0.0 || minPrice >= maxPrice
    ensures v == Rejected(NonPositivePrice) <==> minPrice <= 0.0 || maxPrice <= 0.0
    ensures v.Accepted? ==> 0.0 < v.bounds.minPrice < v.bounds.maxPrice
                            && v.bounds.minPrice == minPrice && v.bounds.maxPrice == maxPrice
    ensures v.Accepted? ==> v.bounds.minMarketCap == if enableMarketCap then minMarketCapUnits * HundredMillion else 0.0
  {
    if minPrice <= 0.0 || maxPrice <= 0.0 then Rejected(NonPositivePrice)
    else if minPrice >= maxPrice then Rejected(EmptyRange)
    else Accepted(Bounds(minPrice, maxPrice, if enableMarketCap then minMarketCapUnits * HundredMillion else 0.0))
  }

  /** `taiex_data['change_pct'] if taiex_data else 0` */
  function Baseline(q: Option<IndexQuote>): (b: real)
    ensures q.None? ==> b == 0.0
    ensures q.Some? ==> b == q.value.changePct
  {
    if q.Some? then q.value.changePct else 0.0
  }

  datatype Response = BadRequest(reason: BadInput) | Screened(result: AppResult, taiexChange: real, otcChange: real)

  /** `screen_stocks`: invalid input is rejected before any index or quote is used. */
  method ScreenStocks(minPrice: real, maxPrice: real, minMarketCapUnits: real, enableMarketCap: bool,
                      taiexData: Option<IndexQuote>, otcData: Option<IndexQuote>, results: seq<Option<Quote>>)
    returns (r: Response)
    ensures ValidateRequest(minPrice, maxPrice, minMarketCapUnits, enableMarketCap).Rejected? ==>
              r == BadRequest(ValidateRequest(minPrice, maxPrice, minMarketCapUnits, enableMarketCap).reason)
    ensures r.Screened? ==>
              r.taiexChange == Baseline(taiexData) && r.otcChange == Baseline(otcData)
              && var b := ValidateRequest(minPrice, maxPrice, minMarketCapUnits, enableMarketCap).bounds;
                 r.result == AppRanked(|Fetched(results)|, Select(Fetched(results), InRangePredicate(b)),
                                       Baseline(taiexData), Baseline(otcData))
    ensures r.BadRequest? || r.Screened?
  {
    var v := ValidateRequest(minPrice, maxPrice, minMarketCapUnits, enableMarketCap);
    if v.Rejected? {
      return BadRequest(v.reason);
    }
    var taiexChange := Baseline(taiexData);
    var otcChange := Baseline(otcData);
    var res := FilterAndRank(results, v.bounds, taiexChange, otcChange);
    r := Screened(res, taiexChange, otcChange);
  }
}
