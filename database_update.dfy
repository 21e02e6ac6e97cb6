/** update_stock_database.py: build the stock catalogue from the code registry, download
    daily bars in fixed-size batches, compute one price entry per symbol, and merge the
    entries with the catalogue and the market caps into the database that app_v3.py and
    stock_logic.py load. Downloads, market-cap lookups and the clock are inputs. */
module DatabaseUpdate {
  import opened Wrappers
  import opened Ordering
  import opened Stocks
  import opened OrderedDicts
  import opened Text

  /** Stocks per `yf.download` call. */
  const BatchSize: nat := 50

  /** The registry's security type for common stock, and its market name for TWSE. */
  const CommonStock: string := "股票"
  const TwseMarket: string := "上市"

  // ----- get_all_taiwan_stocks -----

  /** One entry of the code registry (`twstock.codes`). */
  datatype CodeInfo = CodeInfo(kind: string, name: string, market: string)

  /** One catalogue entry: `{'code', 'name', 'market'}`. */
  datatype CatalogStock = CatalogStock(code: string, name: string, market: Market)

  predicate Eligible(code: string, info: CodeInfo) {
    info.kind == CommonStock && IsStockCode(code)
  }

  function Classify(code: string, info: CodeInfo): CatalogStock {
    CatalogStock(code, info.name, if info.market == TwseMarket then Listed else Otc)
  }

  /** The catalogue, in registry order. */
  function CatalogOf(codes: Dict<string, CodeInfo>): seq<CatalogStock> {
    if codes == [] then []
    else
      var last := codes[|codes| - 1];
      CatalogOf(codes[..|codes| - 1]) + (if Eligible(last.0, last.1) then [Classify(last.0, last.1)] else [])
  }

  /** A catalogue entry is exactly an eligible registry entry, with LISTED for TWSE and OTC
      for every other market. */
  lemma {:induction false} CatalogExact(codes: Dict<string, CodeInfo>, c: CatalogStock)
    ensures c in CatalogOf(codes) <==> exists p :: p in codes && Eligible(p.0, p.1) && c == Classify(p.0, p.1)
  {
    if codes != [] {
      var init := codes[..|codes| - 1];
      var last := codes[|codes| - 1];
      CatalogExact(init, c);
      assert codes == init + [last];
      if exists p :: p in codes && Eligible(p.0, p.1) && c == Classify(p.0, p.1) {
        var p :| p in codes && Eligible(p.0, p.1) && c == Classify(p.0, p.1);
        if p != last {
          assert p in init;
        }
      }
    }
  }

  /** Every catalogue code has four digits, and its market follows the registry. */
  lemma CatalogCodes(codes: Dict<string, CodeInfo>)
    ensures forall c :: c in CatalogOf(codes) ==> IsStockCode(c.code)
    ensures forall p :: p in codes && Eligible(p.0, p.1) ==>
              Classify(p.0, p.1) in CatalogOf(codes) && (Classify(p.0, p.1).market == Listed <==> p.1.market == TwseMarket)
  {
    forall c | c in CatalogOf(codes) ensures IsStockCode(c.code) {
      CatalogExact(codes, c);
    }
    forall p | p in codes && Eligible(p.0, p.1) ensures Classify(p.0, p.1) in CatalogOf(codes) {
      CatalogExact(codes, Classify(p.0, p.1));
    }
  }

  /** `get_all_taiwan_stocks()`; `None` is a registry that cannot be read (the script then
      returns an empty list). */
  method GetAllTaiwanStocks(registry: Option<Dict<string, CodeInfo>>) returns (stocks: seq<CatalogStock>)
    ensures registry.None? ==> stocks == []
    ensures registry.Some? ==> stocks == CatalogOf(registry.value)
  {
    if registry.None? {
      return [];
    }
    var listed := registry.value;
    stocks := [];
    for k := 0 to |listed|
      invariant stocks == CatalogOf(listed[..k])
    {
      assert listed[..k + 1][..k] == listed[..k];
      var (code, info) := listed[k];
      if info.kind == CommonStock && AllDigits(code) && |code| == 4 {
        var market := if info.market == TwseMarket then Listed else Otc;
        stocks := stocks + [CatalogStock(code, info.name, market)];
      }
    }
    assert listed[..|listed|] == listed;
  }

  // ----- batching -----

  /** `[xs[i:i+BATCH_SIZE] for i in range(0, len(xs), BATCH_SIZE)]` */
  function Batches<T>(xs: seq<T>): seq<seq<T>>
    decreases |xs|
  {
    if xs == [] then []
    else if |xs| <= BatchSize then [xs]
    else [xs[..BatchSize]] + Batches(xs[BatchSize..])
  }

  function Flatten<T>(bs: seq<seq<T>>): seq<T> {
    if bs == [] then [] else bs[0] + Flatten(bs[1..])
  }

  /** The batches put back together are the list, in order; each is non-empty and holds at
      most `BatchSize` entries; there are `ceil(|xs| / BatchSize)` of them. */
  lemma {:induction false} BatchesPartition<T>(xs: seq<T>)
    ensures Flatten(Batches(xs)) == xs
    ensures forall b :: b in Batches(xs) ==> 0 < |b| <= BatchSize
    ensures |Batches(xs)| == (|xs| + BatchSize - 1) / BatchSize
    decreases |xs|
  {
    if |xs| > BatchSize {
      BatchesPartition(xs[BatchSize..]);
      assert xs[..BatchSize] + xs[BatchSize..] == xs;
    }
  }

  // ----- batch_download -----

  /** One downloaded daily bar; `None` is NaN. */
  datatype DailyRow = DailyRow(open: Option<real>, close: Option<real>, volume: Option<int>)

  /** `dropna(how='all')` keeps rows with at least one value. */
  predicate HasData(r: DailyRow) {
    r.open.Some? || r.close.Some? || r.volume.Some?
  }

  /** The per-symbol entry: latest close and open, the previous close, the change and volume. */
  datatype PriceEntry = PriceEntry(close: Option<real>, open: Option<real>, prevClose: Option<real>,
                                   changePct: Option<real>, volume: int)

  /** `((close - prev_close) / prev_close) * 100 if prev_close else 0`; a NaN previous close is
      truthy in Python and makes the change NaN. */
  function ChangeOf(close: Option<real>, prevClose: Option<real>): (c: Option<real>)
    ensures prevClose == Some(0.0) ==> c == Some(0.0)
    ensures prevClose.Some? && prevClose.value != 0.0 && close.Some? ==>
              c.Some? && c.value * prevClose.value == (close.value - prevClose.value) * 100.0
    ensures c.None? <==> prevClose.None? || (prevClose.value != 0.0 && close.None?)
  {
    if prevClose == Some(0.0) then Some(0.0)
    else if prevClose.None? || close.None? then None
    else Some((close.value - prevClose.value) / prevClose.value * 100.0)
  }

  /** The entry for one symbol's bars; `None` when there are fewer than two rows before or
      after dropping the empty ones, or when the latest volume is missing (`int(NaN)` raises
      and the symbol is skipped). */
  function EntryOf(rows: seq<DailyRow>): (r: Option<PriceEntry>)
    ensures r.Some? ==> |rows| >= 2 && |Select(rows, HasData)| >= 2
    ensures |rows| < 2 || |Select(rows, HasData)| < 2 ==> r.None?
    ensures r.Some? ==> Select(rows, HasData)[|Select(rows, HasData)| - 1].volume == Some(r.value.volume)
  {
    if |rows| < 2 then None
    else
      var sub := Select(rows, HasData);
      if |sub| < 2 then None
      else
        var latest := sub[|sub| - 1];
        var prev := sub[|sub| - 2];
        if latest.volume.None? then None
        else Some(PriceEntry(latest.close, latest.open, prev.close, ChangeOf(latest.close, prev.close), latest.volume.value))
  }

  /** A `yf.download` result: per-symbol bars, `None` when the call raised. A single-symbol
      download has no ticker level; its frame is the one stored under that symbol. */
  type Download = Option<map<string, seq<DailyRow>>>

  /** The bars the loop picks for `sym`: the whole frame for a single symbol, otherwise the
      symbol's columns if present. */
  function FrameFor(sym: string, single: bool, df: map<string, seq<DailyRow>>): Option<seq<DailyRow>> {
    if single then Some(if sym in df then df[sym] else [])
    else if sym in df then Some(df[sym])
    else None
  }

  /** `symbols`: the batch's tickers, in batch order. */
  function SymbolsOf(batch: seq<CatalogStock>): (syms: seq<string>)
    ensures |syms| == |batch|
  {
    if batch == [] then []
    else
      var last := batch[|batch| - 1];
      SymbolsOf(batch[..|batch| - 1]) + [SymbolOf(last.code, last.market)]
  }

  /** `suffix_map`: symbol to catalogue entry. */
  function SuffixMapOf(batch: seq<CatalogStock>): Dict<string, CatalogStock> {
    if batch == [] then []
    else
      var last := batch[|batch| - 1];
      Put(SuffixMapOf(batch[..|batch| - 1]), SymbolOf(last.code, last.market), last)
  }

  /** `results`: symbol to price entry, for the symbols whose frame yields one. */
  function ResultsOf(symbols: seq<string>, single: bool, df: map<string, seq<DailyRow>>): Dict<string, PriceEntry> {
    if symbols == [] then []
    else
      var sym := symbols[|symbols| - 1];
      var init := ResultsOf(symbols[..|symbols| - 1], single, df);
      match FrameFor(sym, single, df)
      case None => init
      case Some(sub) =>
        match EntryOf(sub)
        case None => init
        case Some(e) => Put(init, sym, e)
  }

  /** Every result belongs to one of the batch's symbols and is the entry its frame yields. */
  lemma {:induction false} ResultsSound(symbols: seq<string>, single: bool, df: map<string, seq<DailyRow>>, sym: string)
    ensures Get(ResultsOf(symbols, single, df), sym).Some? ==>
              sym in symbols && FrameFor(sym, single, df).Some?
              && EntryOf(FrameFor(sym, single, df).value) == Get(ResultsOf(symbols, single, df), sym)
    ensures sym in symbols && FrameFor(sym, single, df).Some? && EntryOf(FrameFor(sym, single, df).value).Some? ==>
              Get(ResultsOf(symbols, single, df), sym).Some?
  {
    if symbols != [] {
      var last := symbols[|symbols| - 1];
      var init := symbols[..|symbols| - 1];
      ResultsSound(init, single, df, sym);
      assert symbols == init + [last];
      assert sym in symbols <==> sym in init || sym == last;
      var prev := ResultsOf(init, single, df);
      var r := ResultsOf(symbols, single, df);
      var frame := FrameFor(last, single, df);
      if frame.None? || EntryOf(frame.value).None? {
        assert r == prev;
      } else {
        var e := EntryOf(frame.value).value;
        assert r == Put(prev, last, e);
        if sym != last {
          PutOther(prev, last, e, sym);
        }
      }
    }
  }

  /** What `batch_download` returns: `{}` after a failed download, otherwise the results and
      the suffix map. */
  datatype BatchResult = DownloadFailed | Downloaded(results: Dict<string, PriceEntry>, suffixMap: Dict<string, CatalogStock>)

  function BatchDownloadOf(batch: seq<CatalogStock>, download: Download): BatchResult {
    if download.None? then DownloadFailed
    else Downloaded(ResultsOf(SymbolsOf(batch), |batch| == 1, download.value), SuffixMapOf(batch))
  }

  /** `batch_download(batch_stocks)`, given what the download of the batch's symbols returns. */
  method BatchDownload(batchStocks: seq<CatalogStock>, download: Download) returns (r: BatchResult)
    ensures r == BatchDownloadOf(batchStocks, download)
  {
    var symbols, suffixMap := BatchSymbols(batchStocks);
    if download.None? {
      return DownloadFailed;
    }
    var df := download.value;
    var single := |symbols| == 1;
    var results := CollectResults(symbols, single, df);
    r := Downloaded(results, suffixMap);
  }

  /** The symbol loop of `batch_download`. */
  method BatchSymbols(batchStocks: seq<CatalogStock>) returns (symbols: seq<string>, suffixMap: Dict<string, CatalogStock>)
    ensures symbols == SymbolsOf(batchStocks)
    ensures suffixMap == SuffixMapOf(batchStocks)
  {
    suffixMap := [];
    symbols := [];
    for k := 0 to |batchStocks|
      invariant symbols == SymbolsOf(batchStocks[..k])
      invariant suffixMap == SuffixMapOf(batchStocks[..k])
    {
      var s := batchStocks[k];
      var sym := SymbolOf(s.code, s.market);
      assert batchStocks[..k + 1][..k] == batchStocks[..k];
      symbols := symbols + [sym];
      suffixMap := Put(suffixMap, sym, s);
    }
    assert batchStocks[..|batchStocks|] == batchStocks;
  }

  /** The body of the per-symbol loop: pick the frame, require two rows before and after
      dropping the empty ones, and read the latest and previous bars. */
  method SymbolEntry(sym: string, single: bool, df: map<string, seq<DailyRow>>) returns (e: Option<PriceEntry>)
    ensures e == match FrameFor(sym, single, df) case None => None case Some(sub) => EntryOf(sub)
  {
    var sub: seq<DailyRow>;
    if single {
      sub := if sym in df then df[sym] else [];
    } else {
      if sym !in df {
        return None;
      }
      sub := df[sym];
    }
    if |sub| < 2 {
      return None;
    }
    sub := Select(sub, HasData);
    if |sub| < 2 {
      return None;
    }
    var latest := sub[|sub| - 1];
    var prev := sub[|sub| - 2];
    if latest.volume.None? {
      return None;
    }
    var changePct := ChangeOf(latest.close, prev.close);
    e := Some(PriceEntry(latest.close, latest.open, prev.close, changePct, latest.volume.value));
  }

  /** The per-symbol loop of `batch_download`. */
  method CollectResults(symbols: seq<string>, single: bool, df: map<string, seq<DailyRow>>)
    returns (results: Dict<string, PriceEntry>)
    ensures results == ResultsOf(symbols, single, df)
  {
    results := [];
    for k := 0 to |symbols|
      invariant results == ResultsOf(symbols[..k], single, df)
    {
      assert symbols[..k + 1][..k] == symbols[..k];
      var sym := symbols[k];
      var e := SymbolEntry(sym, single, df);
      if e.Some? {
        results := Put(results, sym, e.value);
      }
    }
    assert symbols[..|symbols|] == symbols;
  }

  // ----- update_stock_database -----

  /** `all_price_data` after the batches: each successful batch's results, in batch order. */
  function PriceDataOf(batches: seq<seq<CatalogStock>>, fetch: seq<string> -> Download): Dict<string, PriceEntry> {
    if batches == [] then []
    else
      var init := PriceDataOf(batches[..|batches| - 1], fetch);
      match BatchDownloadOf(batches[|batches| - 1], fetch(SymbolsOf(batches[|batches| - 1])))
      case DownloadFailed => init
      case Downloaded(results, _) => Update(init, results)
  }

  /** Every price entry belongs to a symbol of a batch whose download succeeded; a failed
      batch contributes nothing. */
  lemma {:induction false} PriceDataSources(batches: seq<seq<CatalogStock>>, fetch: seq<string> -> Download, sym: string)
    ensures sym in Keys(PriceDataOf(batches, fetch)) ==>
              exists i :: 0 <= i < |batches| && fetch(SymbolsOf(batches[i])).Some? && sym in SymbolsOf(batches[i])
  {
    if batches != [] {
      var n := |batches| - 1;
      var init := batches[..n];
      PriceDataSources(init, fetch, sym);
      var prev := PriceDataOf(init, fetch);
      if sym in Keys(PriceDataOf(batches, fetch)) {
        match BatchDownloadOf(batches[n], fetch(SymbolsOf(batches[n])))
        case DownloadFailed =>
          assert batches[..n] == init;
        case Downloaded(results, _) =>
          UpdateKeys(prev, results);
          if sym in Keys(prev) {
            var i :| 0 <= i < |init| && fetch(SymbolsOf(init[i])).Some? && sym in SymbolsOf(init[i]);
            assert batches[i] == init[i];
          } else {
            assert Get(results, sym).Some?;
            ResultsSound(SymbolsOf(batches[n]), |batches[n]| == 1, fetch(SymbolsOf(batches[n])).value, sym);
          }
      }
    }
  }

  /** `{s['code']: s for s in all_list}`: a repeated code keeps its last entry. */
  function CodeInfoMap(allList: seq<CatalogStock>): (m: map<string, CatalogStock>)
    ensures forall code :: code in m <==> exists s :: s in allList && s.code == code
    ensures forall code :: code in m ==> m[code] in allList && m[code].code == code
  {
    if allList == [] then map[]
    else
      var last := allList[|allList| - 1];
      var init := allList[..|allList| - 1];
      assert allList == init + [last];
      CodeInfoMap(init)[last.code := last]
  }

  /** One saved database entry. */
  datatype DbStock = DbStock(code: string, name: string, price: Option<real>, open: Option<real>,
                             changePct: Option<real>, volume: int, marketCap: int, market: Market)

  function MergedEntry(code: string, info: CatalogStock, price: PriceEntry, marketCap: int): DbStock {
    DbStock(code, info.name, price.close, price.open, price.changePct, price.volume, marketCap, info.market)
  }

  /** `market_caps.get(sym, 0)` */
  function CapOf(caps: map<string, int>, sym: string): int {
    if sym in caps then caps[sym] else 0
  }

  /** The merge loop: one entry per priced symbol whose code is in the catalogue. */
  function Merge(priceData: Dict<string, PriceEntry>, info: map<string, CatalogStock>, caps: map<string, int>): seq<DbStock> {
    if priceData == [] then []
    else
      var (sym, price) := priceData[|priceData| - 1];
      var code := CodeOfSymbol(sym);
      Merge(priceData[..|priceData| - 1], info, caps)
        + (if code in info then [MergedEntry(code, info[code], price, CapOf(caps, sym))] else [])
  }

  /** The merge yields at most one entry per priced symbol; each entry comes from a priced
      symbol whose code is catalogued, takes its name and market from the catalogue and its
      market cap from the lookup (0 when missing); a symbol whose code is not catalogued
      yields nothing. */
  lemma {:induction false} MergeSound(priceData: Dict<string, PriceEntry>, info: map<string, CatalogStock>, caps: map<string, int>)
    ensures |Merge(priceData, info, caps)| <= |priceData|
    ensures forall d :: d in Merge(priceData, info, caps) ==>
              exists p :: p in priceData && CodeOfSymbol(p.0) in info && d == MergedEntry(CodeOfSymbol(p.0), info[CodeOfSymbol(p.0)], p.1, CapOf(caps, p.0))
    ensures forall p :: p in priceData && CodeOfSymbol(p.0) in info ==>
              MergedEntry(CodeOfSymbol(p.0), info[CodeOfSymbol(p.0)], p.1, CapOf(caps, p.0)) in Merge(priceData, info, caps)
  {
    if priceData != [] {
      var init := priceData[..|priceData| - 1];
      var last := priceData[|priceData| - 1];
      MergeSound(init, info, caps);
      assert priceData == init + [last];
      var m := Merge(priceData, info, caps);
      forall d | d in m
        ensures exists p :: p in priceData && CodeOfSymbol(p.0) in info && d == MergedEntry(CodeOfSymbol(p.0), info[CodeOfSymbol(p.0)], p.1, CapOf(caps, p.0))
      {
        if d in Merge(init, info, caps) {
          var p :| p in init && CodeOfSymbol(p.0) in info && d == MergedEntry(CodeOfSymbol(p.0), info[CodeOfSymbol(p.0)], p.1, CapOf(caps, p.0));
          assert p in priceData;
        } else {
          assert last in priceData;
        }
      }
    }
  }

  /** The merge loop of `update_stock_database`. */
  method MergeEntries(allPriceData: Dict<string, PriceEntry>, codeInfoMap: map<string, CatalogStock>, marketCaps: map<string, int>)
    returns (allStocks: seq<DbStock>)
    ensures allStocks == Merge(allPriceData, codeInfoMap, marketCaps)
  {
    allStocks := [];
    for k := 0 to |allPriceData|
      invariant allStocks == Merge(allPriceData[..k], codeInfoMap, marketCaps)
    {
      assert allPriceData[..k + 1][..k] == allPriceData[..k];
      var (sym, price) := allPriceData[k];
      var code := CodeOfSymbol(sym);
      if code !in codeInfoMap {
        continue;
      }
      var info := codeInfoMap[code];
      var mc := if sym in marketCaps then marketCaps[sym] else 0;
      allStocks := allStocks + [DbStock(code, info.name, price.close, price.open, price.changePct, price.volume, mc, info.market)];
    }
    assert allPriceData[..|allPriceData|] == allPriceData;
  }

  /** The saved file: `{'update_time', 'total_stocks', 'stocks'}`. */
  datatype SavedDatabase = SavedDatabase(updateTime: string, totalStocks: nat, stocks: seq<DbStock>)

  /** The whole update; `None` when the catalogue or the merge is empty (nothing is saved). */
  function UpdatedDatabase(registry: Option<Dict<string, CodeInfo>>, fetch: seq<string> -> Download,
                           caps: map<string, int>, now: string): (r: Option<SavedDatabase>)
    ensures r.Some? ==> r.value.totalStocks == |r.value.stocks| > 0 && r.value.updateTime == now
  {
    var allList := if registry.None? then [] else CatalogOf(registry.value);
    if allList == [] then None
    else
      var stocks := Merge(PriceDataOf(Batches(allList), fetch), CodeInfoMap(allList), caps);
      if stocks == [] then None else Some(SavedDatabase(now, |stocks|, stocks))
  }

  /** Every saved entry is a catalogued four-digit code priced by a successful download. */
  lemma SavedEntriesCatalogued(registry: Option<Dict<string, CodeInfo>>, fetch: seq<string> -> Download,
                               caps: map<string, int>, now: string, d: DbStock)
    requires UpdatedDatabase(registry, fetch, caps, now).Some?
    requires d in UpdatedDatabase(registry, fetch, caps, now).value.stocks
    ensures registry.Some? && IsStockCode(d.code)
    ensures exists s :: s in CatalogOf(registry.value) && s.code == d.code && s.name == d.name && s.market == d.market
    ensures |UpdatedDatabase(registry, fetch, caps, now).value.stocks| <= |PriceDataOf(Batches(CatalogOf(registry.value)), fetch)|
  {
    var allList := CatalogOf(registry.value);
    var info := CodeInfoMap(allList);
    var priceData := PriceDataOf(Batches(allList), fetch);
    MergeSound(priceData, info, caps);
    var p :| p in priceData && CodeOfSymbol(p.0) in info && d == MergedEntry(CodeOfSymbol(p.0), info[CodeOfSymbol(p.0)], p.1, CapOf(caps, p.0));
    CatalogCodes(registry.value);
    assert info[d.code] in allList;
  }

  /** `update_stock_database()`, with the registry, the downloads, the market caps and the
      time of the run as inputs. */
  method UpdateStockDatabase(registry: Option<Dict<string, CodeInfo>>, fetch: seq<string> -> Download,
                             caps: map<string, int>, now: string)
    returns (r: Option<SavedDatabase>)
    ensures r == UpdatedDatabase(registry, fetch, caps, now)
  {
    var allList := GetAllTaiwanStocks(registry);
    if |allList| == 0 {
      return None;
    }
    var batches := Batches(allList);
    var allPriceData: Dict<string, PriceEntry> := [];
    for idx := 0 to |batches|
      invariant allPriceData == PriceDataOf(batches[..idx], fetch)
    {
      assert batches[..idx + 1][..idx] == batches[..idx];
      var batch := batches[idx];
      var result := BatchDownload(batch, fetch(SymbolsOf(batch)));
      if result.Downloaded? {
        allPriceData := Update(allPriceData, result.results);
      }
    }
    assert batches[..|batches|] == batches;
    var codeInfoMap := CodeInfoMap(allList);
    var allStocks := MergeEntries(allPriceData, codeInfoMap, caps);
    if |allStocks| == 0 {
      return None;
    }
    r := Some(SavedDatabase(now, |allStocks|, allStocks));
  }
}
