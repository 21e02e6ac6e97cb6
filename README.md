# Taiwan stock screener: a verified model of the screening pipeline

This project models the screening and ranking core of a Taiwan stock screener. The
screener:

- loads a stock database of LISTED (TWSE, ticker suffix `.TW`) and OTC (TPEX, suffix
  `.TWO`) records;
- keeps the records within a price range, a market-cap floor and a volume floor in lots of
  1000 shares, with an optional gap-up rule;
- splits them by market and selects the outperformers, the stocks whose change beats their
  own index;
- recalibrates prices in place from a batch download;
- counts "body-high" streaks over daily bars;
- scores candidates additively and keeps those above a threshold;
- caches the whole four-layer result (base pool, outperformers, strong stocks, smart
  picks) in a snapshot that is rebuilt only when the filters change.

The same pipeline is written several times in the repository, and each copy is modelled
in its own module:

- `app_v3.py` (modules `Screening`, `BodyHigh`, `Calibration`, `Pipeline`, `TradingDates`,
  `Institutional`);
- `stock_logic.py` (`StockLogic`);
- `app.py` (`ScreenerApp`);
- `taiwan_stock_screener.py` (`ConsoleScreener`).

The two copies of `calc_high_days` and of the recommendation scorer differ in named
constants:

| copy | score threshold | candidate cap | minimum history rows | non-positive open/close guard |
|---|---|---|---|---|
| `app_v3.py` | 6 | 150 | 10 | yes |
| `stock_logic.py` | 5 | 30 | 25 | no |

The lemma `StockLogic.AgreesWithAppV3` proves that the two copies of
`filter_and_rank_stocks` build the same four lists. `BodyHigh.VariantsAgreeOnPositive`
proves that the two streak counters agree on bars without NaN.

Around the pipeline the project also models these helpers:

- the catalogue builders (`update_stock_database.py` as `DatabaseUpdate`,
  `fetch_all_taiwan_stocks.py` as `CatalogScrape`), with the fixed-size batching and the
  merge by code;
- the dashboard's usage statistics and smart watchlist, market status, support and
  resistance, and portfolio edits (`stock_dashboard/stock_dashboard.py` as `UsageStats` and
  `Dashboard`);
- the chart helpers of `static/search_charts.js` (`SearchCharts`);
- the weekday date walk of `debug_dates.py` and `app_v3.py` (`TradingDates`).

Shared modules:

- `Wrappers`: `Option`, standing for `None` and for NaN.
- `Ordering`: Python's stable `sorted(..., reverse=True)` as an insertion sort, plus list
  comprehensions as `Select`.
- `OrderedDicts`: Python's insertion-ordered `dict`.
- `Stocks`: the database record and the ticker symbols.
- `Text`: `isdigit`, `strip` and `split`.
- `Scoring`: the indicator conditions.

Modelling conventions:

- Prices and changes are `real`, and a NaN cell is `None`.
- Every download, HTTP request, file read and clock reading is a parameter.
- Where the source updates objects in place, the model uses classes whose methods carry
  `modifies` clauses:
  - `Pipeline.PipelineSnapshot` and `Pipeline.SnapshotCache`;
  - `UsageStats.UsageTracker`;
  - `Dashboard.Portfolio`;
  - the record array of `Calibration.FetchRealtimePrices`.
- Loops are methods whose loop invariants tie them to a specification function. The
  properties are proved about those functions.

## Model

| member | source | states |
|---|---|---|
| Stocks.SymbolOf | app_v3.py:326-327 | the ticker is the code, a dot, and `TW` for LISTED or `TWO` for OTC |
| Stocks.CodeOfSymbol | update_stock_database.py:187 | `sym.split('.')[0]` is a dot-free prefix of the symbol that ends at its first dot |
| Stocks.CodeOfSymbolOf | update_stock_database.py:50-54 | splitting a built symbol at its dot gives the code back (round trip with SymbolOf) |
| Stocks.MarketPartition | app_v3.py:277-278 | the LISTED and OTC comprehensions split any list in two, as multisets and in length |
| Screening.DerivedPrevClose | app_v3.py:264 | the derived previous close `price/(1+change_pct/100)`, grown by the change, gives the price back |
| Screening.MissingResult | app_v3.py:237-250 | a missing database gives an error, four empty lists and all-zero stats |
| Screening.Ranked | app_v3.py:277-299 | `listed_all`/`otc_all` partition the filtered set by market; each is sorted by change, descending; the outperformer lists are exactly the members beating their index, still sorted; the stats are the list lengths and the update time |
| Screening.BaseFilterExact | app_v3.py:253-274 | a record is kept iff it meets the price, market-cap and volume-lot bounds and, under gap-up, has an open above its derived previous close |
| Screening.KeepRecord | app_v3.py:258-274 | the nested tests keep a record exactly when it is within the price range, the market-cap floor and the volume floor in lots and, under gap-up, has an `open` above its derived previous close; a record without `open` is dropped under gap-up |
| Screening.CollectKept | app_v3.py:256-274 | the filter loop returns exactly the kept records, in database order |
| Screening.FilterAndRank | app_v3.py:233-300 | the filter loop and ranking equal the missing-database result or `Ranked` of the filtered records |
| Ordering.SortDescSorted | app_v3.py:285-288 | `sorted(..., reverse=True)` yields non-increasing keys |
| Ordering.SortDescStable | app_v3.py:285-288 | the sort keeps input order among equal keys, as Python's stable sort does |
| Ordering.SortSelectCommute | app_v3.py:281-288 | sorting then filtering equals filtering then sorting |
| Ordering.TopKOutranksRest | stock_logic.py:129-130 | the first k of a descending sort outrank every element cut off |
| Ordering.FilterMapInOrder | fetch_all_taiwan_stocks.py:22-32 | kept results appear in input order, and every skipped input produced nothing |
| BodyHigh.Reference | app_v3.py:820-831 | no reference with fewer than 2 bars, or with fewer than 3 bars and a NaN or non-positive last close; otherwise the reference is the close of the last bar, or of the second-last when the last close is bad |
| BodyHigh.Streak | app_v3.py:836-861 | the count is a run of sessions, all passing the body-top test, that ends just before the reference and cannot be extended |
| BodyHigh.StreakExact | app_v3.py:836-861 | the count equals the length of the maximal passing run before the reference |
| BodyHigh.AllPassStreak | app_v3.py:836-861 | when every earlier session passes, the count is the number of earlier sessions |
| BodyHigh.GuardedStreakPositive | app_v3.py:844-845 | in the app_v3 copy every counted session has a positive open and close |
| BodyHigh.VariantsAgreeOnPositive | stock_logic.py:106-115 | on bars without NaN, with positive opens and closes, the two copies count the same streak |
| BodyHigh.RisingSeriesStreak | app_v3.py:836-861 | a concrete steadily rising series gives the expected streak |
| BodyHigh.CountStreak | app_v3.py:836-855 | the backward loop counts exactly the streak of earlier bars whose body high the reference price reaches, stopping at the first bad or higher bar |
| BodyHigh.CalcHighDays | app_v3.py:815-861 | the loop equals `HighDaysOf`; `(False,'',0)` on short or bad input; strong iff count >= 1; the 🔥 marker iff count >= 3; count <= number of prior sessions |
| BodyHigh.RunTechConditions | app_v3.py:865-886 | all conditions pass iff the streak is strong; the reasons are its label; the score is the count, or 0 |
| StockLogic.RankedOf | stock_logic.py:67-79 | the outperformer lists hold exactly the filtered records of each market beating its index, sorted descending |
| StockLogic.AgreesWithAppV3 | stock_logic.py:67-79 | this copy's four lists equal those of app_v3.py's copy for the same filtered set |
| StockLogic.KeepStock | stock_logic.py:57-65 | the nested tests keep a record exactly when it is within all bounds and, under gap-up, has an `open` above its derived previous close; this copy tests `open` first, so a record without `open` never reaches the division |
| StockLogic.CollectStocks | stock_logic.py:56-65 | the filter loop returns exactly the kept records, in database order |
| StockLogic.FilterAndRank | stock_logic.py:46-79 | the loop equals the function model; the result is an error iff the database is missing |
| StockLogic.AssignAlpha | stock_logic.py:124-127 | every candidate gets `alpha = change_pct - idx_chg`, for its own market's index |
| StockLogic.OutperformerAlphaPositive | stock_logic.py:124-127 | every candidate's alpha is strictly positive |
| StockLogic.TopCandidatesOutrankRest | stock_logic.py:129-130 | each of the 30 scored candidates has an alpha at least that of any candidate cut off |
| StockLogic.AiScore | stock_logic.py:142-150 | the score lies in 2..12, and reaches 5 iff the streak is >= 3, or the averages align, or a streak >= 1 meets the RSI band |
| StockLogic.AssessAllWellFormed | stock_logic.py:133-152 | each recommendation comes from a candidate, has >= 25 history rows, and carries exactly the score (>= 5), reasons (led by its alpha statement) and latest close its history gives |
| StockLogic.AssessExact | stock_logic.py:135-151 | a candidate is recommended iff its ticker has a history of >= 25 rows scoring >= 5, and then with that stock, alpha, score, reasons and price |
| StockLogic.AssessAllComplete | stock_logic.py:133-152 | every qualifying candidate's recommendation is kept by the loop |
| StockLogic.AiRecommendationsComplete | stock_logic.py:117-155 | every top-30 candidate whose history has >= 25 rows and scores >= 5 is among the recommendations, with the score, reasons and price its history gives |
| StockLogic.AiRecommendationsSound | stock_logic.py:117-155 | an error iff the database is missing, passed on unchanged; otherwise at most 30 recommendations, sorted by score, each well formed with a positive alpha |
| StockLogic.ScoreHistory | stock_logic.py:140-148 | the accumulated score and reasons equal `AiScore` and `AiReasons` of the streak count |
| StockLogic.AssessCandidates | stock_logic.py:132-152 | the candidate loop equals `AssessAll` |
| StockLogic.GetAiRecommendations | stock_logic.py:117-155 | the whole recommendation call equals its function model |
| Calibration.DropAllNaN | app_v3.py:350 | `dropna(how='all')` keeps exactly the rows that are not all NaN |
| Calibration.FirstWithCode | app_v3.py:361 | `next(...)` finds a record with the code, or `None` when there is none |
| Calibration.PrevCloseMeaning | app_v3.py:356-363 | with two or more rows, the second-latest close; with one row, the close implied by the first record with the code (`prev * (1 + change/100) == price`), absent when there is no such record or the change is -100% |
| Calibration.QuoteFor | app_v3.py:344-366 | a fix is produced only for a symbol with a row that is not all NaN, and carries its latest close |
| Calibration.QuoteForMeaning | app_v3.py:344-366 | a fix exists iff the symbol has a row that is not all NaN, its latest volume is a number and a non-zero previous close exists; it carries the latest close, `change * prev == (close - prev) * 100` and the latest volume |
| Calibration.QuoteForSameFirst | app_v3.py:361 | the fix depends on the record list only through the first record with the code |
| Calibration.CalibrateNShape | app_v3.py:342-374 | after any number of symbols: same length and identity fields; records without data are unchanged; a changed price is a downloaded latest close |
| Calibration.FirstWithCodeUnique | app_v3.py:361 | `next(...)` finds the only record carrying the code |
| Calibration.CalibrateNCodes | app_v3.py:342-374 | every step keeps the length and every record's code |
| Calibration.StepOther | app_v3.py:369-373 | a symbol's write-back leaves records of other codes alone |
| Calibration.StepOwn | app_v3.py:342-374 | a record's own symbol, processed while the codes are unchanged, writes the fix computed from the original list |
| Calibration.StepCodes | app_v3.py:369-373 | one symbol's write-back keeps the length and every record's code |
| Calibration.RecordKept | app_v3.py:369-373 | a record whose code is unique is kept by every other symbol's write-back |
| Calibration.RecordKeptAll | app_v3.py:342-374 | the same, for every symbol but its own |
| Calibration.UntouchedBefore | app_v3.py:342-374 | a record whose code is unique is untouched before its own symbol |
| Calibration.FixedAt | app_v3.py:342-374 | its own symbol writes the fix computed from the original list |
| Calibration.KeptAfter | app_v3.py:342-374 | the symbols after its own leave it as its own symbol left it |
| Calibration.FixedAtEnd | app_v3.py:342-374 | after all symbols it holds its own symbol's fix, if any |
| Calibration.CalibratedUnique | app_v3.py:319-375 | a record whose code is unique ends with its symbol's latest close and change, and its volume only when the latest volume is positive; a skipped symbol leaves it as it was |
| Calibration.CalibratedProperties | app_v3.py:319-375 | a failed download or empty list changes nothing; only price, change and volume change; volume only becomes positive; records without data stay as they were |
| Calibration.SymbolOfInjective | app_v3.py:326-329 | two records share a symbol only when they share code and market |
| Calibration.BuildSymbols | app_v3.py:323-329 | the symbol list matches the records, and `sym_to_code` maps each symbol to its code |
| Calibration.CalibrateSymbol | app_v3.py:342-374 | the per-symbol body writes the fix into every record with that code, in place |
| Calibration.FetchRealtimePrices | app_v3.py:319-375 | the array after the call equals `Calibrated` of the array before |
| Pipeline.BasePoolExact | app_v3.py:539-547 | the base pool holds exactly the database records within the filter bounds |
| Pipeline.OutsExact | app_v3.py:554-562 | an entry is appended iff its pool record beats its index, with alpha the margin |
| Pipeline.OutperformersSound | app_v3.py:554-563 | every outperformer is a pool record with `alpha = change_pct - idx_chg > 0`; the list is sorted by alpha, descending; every beating record is present |
| Pipeline.DropNa | app_v3.py:583 | `dropna()` never lengthens the history |
| Pipeline.StrongFromSound | app_v3.py:576-593 | each strong entry is a candidate with >= 10 history rows and a streak >= 1 |
| Pipeline.StrongStageSound | app_v3.py:565-597 | at most 150 strong stocks, all from the first 150 outperformers, sorted by streak score |
| Pipeline.StrongOfExact | app_v3.py:576-593 | a candidate yields a strong entry iff its history is present with >= 10 rows and a streak >= 1, and the entry is that candidate's, over that history |
| Pipeline.StrongFromComplete | app_v3.py:576-593 | every candidate showing strength has its entry in the loop's result |
| Pipeline.StrongStageComplete | app_v3.py:565-597 | with a download, every one of the first 150 outperformers whose history is present with >= 10 rows and a streak >= 1 is in the strong layer |
| Pipeline.SmartScore | app_v3.py:604-614 | with a streak >= 1, the score reaches 6 iff the streak is >= 4, or the averages align, or a streak >= 2 meets the RSI band |
| Pipeline.PicksSound | app_v3.py:600-620 | each pick scores >= 6, starts with the alpha statement then the streak label, and comes from a strong stock |
| Pipeline.PicksOfSound | app_v3.py:599-621 | the smart picks are sorted by score, no more than the strong stocks, and each is well formed |
| Pipeline.PicksComplete | app_v3.py:600-620 | every strong stock scoring >= 6 has its pick in the loop's result |
| Pipeline.PicksOfComplete | app_v3.py:599-621 | every strong stock scoring >= 6 is a smart pick, with its latest close and score |
| Pipeline.PicksLength | app_v3.py:600-620 | no more picks than strong stocks |
| Pipeline.StrongHaveHistory | app_v3.py:585 | every strong stock has a non-empty history for layer 4 to read |
| Pipeline.StrongStageHaveHistory | app_v3.py:585-593 | the strong layer always has the histories layer 4 reads |
| Pipeline.SyncLayered | app_v3.py:536-621 | each layer draws from the one before: picks from strong stocks, strong stocks from the first 150 outperformers, outperformers from the calibrated pool |
| Pipeline.FiltersDiffer | app_v3.py:639-642 | the key-by-key loop reports a difference iff the four filter keys differ |
| Pipeline.FetchBasePool | app_v3.py:539-547 | stage 1 equals `BasePoolOf` |
| Pipeline.CalibratedCopy | app_v3.py:551 | stage 2 equals `Calibrated` of the pool |
| Pipeline.StrongCandidate | app_v3.py:577-593 | one candidate yields an entry exactly when its history is present, has at least 10 rows and shows a body-high streak |
| Pipeline.CollectStrong | app_v3.py:576-593 | the candidate loop equals `StrongFrom` |
| Pipeline.PipelineSnapshot.constructor | app_v3.py:524-534 | a new snapshot stores filters, indices and timestamp, with four empty layers |
| Pipeline.PipelineSnapshot.FillOutperformers | app_v3.py:553-563 | layer 2 becomes `OutperformersOf(base_pool)`; nothing else changes |
| Pipeline.PipelineSnapshot.FillStrongStocks | app_v3.py:565-597 | layer 3 becomes `StrongStage` of layer 2; nothing else changes |
| Pipeline.PipelineSnapshot.FillSmartPicks | app_v3.py:599-621 | layer 4 becomes `PicksOf` of layer 3; nothing else changes |
| Pipeline.PipelineSnapshot.RunFullSync | app_v3.py:536-621 | a fresh snapshot's layers become `Sync` of the filters and inputs |
| Pipeline.PipelineSnapshot.BuildFromPool | app_v3.py:547-548 | an empty pool ends the sync with the other layers empty |
| Pipeline.PipelineSnapshot.SyncFromPool | app_v3.py:550-621 | stages 2-5 fill the layers from the calibrated pool |
| Pipeline.SnapshotCache.constructor | app_v3.py:624 | the cache starts with no snapshot |
| Pipeline.SnapshotCache.GetOrUpdate | app_v3.py:626-650 | with a snapshot of equal filters, the same unchanged object is returned; otherwise a fresh snapshot built by `run_full_sync` replaces it |
| Pipeline.RepeatedRequest | app_v3.py:626-650 | two requests with the same filters return the very same snapshot |
| ScreenerApp.OtcSuffixNotStripped | app.py:131 | the written expression turns `3443.TWO` into `3443O` |
| ScreenerApp.StockCodeOfSymbol | app.py:131 | the corrected code extraction recovers the code from both suffixes |
| ScreenerApp.AsWrittenAgreesOnTw | app.py:131 | on `.TW` tickers, the only ones app.py lists, the written and the corrected extraction agree |
| ScreenerApp.StockType | app.py:131-132 | OTC iff the stripped code is in `OTC_STOCK_CODES`; it uses the corrected code extraction, which `AsWrittenAgreesOnTw` shows equals the written one on the `.TW`-only ticker list app.py has |
| ScreenerApp.AppRanked | app.py:166-190 | partition by type; both lists sorted by daily change; the outperformers are exactly those beating their index, sorted; the stats are the lengths |
| ScreenerApp.FilteredExact | app.py:160-164 | a quote is filtered in iff it was fetched and meets the price range and market-cap floor |
| ScreenerApp.FetchedExact | app.py:154-157 | the collected quotes are exactly the successful fetches |
| ScreenerApp.CollectFetched | app.py:151-157 | the collection loop equals `Fetched` |
| ScreenerApp.KeepQuote | app.py:162-164 | a quote is kept exactly when its price is within the range and its market cap reaches the floor |
| ScreenerApp.FilterQuotes | app.py:160-164 | the filter loop equals the comprehension over the bounds |
| ScreenerApp.FilterAndRank | app.py:149-191 | the whole function equals `AppRanked` of the filtered fetches |
| ScreenerApp.ValidateRequest | app.py:212-222 | rejected iff a price is non-positive or min >= max, in that order; the floor is `billion*100_000_000` when enabled, else 0 |
| ScreenerApp.Baseline | app.py:230-231 | a missing index compares against 0 |
| ScreenerApp.ScreenStocks | app.py:201-256 | invalid input is rejected before any quote is used; valid input is screened with the index baselines |
| ConsoleScreener.KeptExact | taiwan_stock_screener.py:169-185 | a quote is kept iff it is present (not `None`) and meets the price range and market-cap floor |
| ConsoleScreener.KeptSubsequence | taiwan_stock_screener.py:169-185 | the kept quotes are an order-preserving subsequence of the input |
| ConsoleScreener.FilterStocks | taiwan_stock_screener.py:164-185 | the loop equals `Kept` |
| ConsoleScreener.TopThreeProperties | taiwan_stock_screener.py:246-249 | min(3, n) entries, all filtered, descending, and none outranked by a left-out quote |
| ConsoleScreener.Prompt | taiwan_stock_screener.py:32-65 | a prompt settles on the first acceptable line; no earlier line was acceptable; `None` iff no line is |
| ConsoleScreener.PromptLoop | taiwan_stock_screener.py:32-65 | the re-prompting loop equals `Prompt` |
| ConsoleScreener.UserFiltersValid | taiwan_stock_screener.py:20-77 | accepted filters have min > 0, max > min and a positive cap times 100,000,000; three blank lines give 50/200/100 |
| ConsoleScreener.GetUserFilters | taiwan_stock_screener.py:20-77 | the three prompts equal `UserFiltersOf` |
| ConsoleScreener.RankTopThree | taiwan_stock_screener.py:242-249 | filter, sort, take three equals `TopThree(Kept(...))` |
| DatabaseUpdate.CatalogExact | update_stock_database.py:28-31 | an entry is catalogued iff it is a 股票 with a 4-digit numeric code, with LISTED iff 上市 |
| DatabaseUpdate.CatalogCodes | update_stock_database.py:29-31 | every catalogue code has four digits and its market follows the registry |
| DatabaseUpdate.GetAllTaiwanStocks | update_stock_database.py:22-39 | the loop equals `CatalogOf`; an unreadable registry gives `[]` |
| DatabaseUpdate.BatchesPartition | update_stock_database.py:154 | the batches concatenate back to the list; each is non-empty and at most BATCH_SIZE; their count is the ceiling |
| DatabaseUpdate.ChangeOf | update_stock_database.py:96 | 0 when the previous close is 0, else `(close-prev)/prev*100` |
| DatabaseUpdate.EntryOf | update_stock_database.py:81-104 | no entry with fewer than 2 rows before or after `dropna(how='all')`; the volume is the latest kept row's |
| DatabaseUpdate.SymbolsOf | update_stock_database.py:50-53 | one symbol per batch stock |
| DatabaseUpdate.ResultsSound | update_stock_database.py:74-106 | every result belongs to a batch symbol and is its frame's entry; every symbol whose frame yields an entry has one |
| DatabaseUpdate.BatchDownload | update_stock_database.py:42-108 | equals `BatchDownloadOf`: `{}` after a failed download |
| DatabaseUpdate.BatchSymbols | update_stock_database.py:47-54 | the symbol loop builds `symbols` and `suffix_map` |
| DatabaseUpdate.SymbolEntry | update_stock_database.py:75-104 | the per-symbol body equals `EntryOf` of its frame |
| DatabaseUpdate.CollectResults | update_stock_database.py:70-106 | the per-symbol loop equals `ResultsOf` |
| DatabaseUpdate.PriceDataSources | update_stock_database.py:160-164 | every price entry comes from a batch whose download succeeded |
| DatabaseUpdate.CodeInfoMap | update_stock_database.py:182 | the map's codes are exactly the list's codes, each mapped to an entry with that code |
| DatabaseUpdate.MergeSound | update_stock_database.py:184-203 | at most one entry per price entry; every entry is a catalogued code with a defaulted market cap; every catalogued priced symbol is present |
| DatabaseUpdate.MergeEntries | update_stock_database.py:184-203 | the merge loop equals `Merge` |
| DatabaseUpdate.UpdatedDatabase | update_stock_database.py:133-219 | a saved database has `total_stocks` equal to its non-zero length and the given time |
| DatabaseUpdate.SavedEntriesCatalogued | update_stock_database.py:133-219 | every saved entry is a catalogued four-digit code; no more entries than prices |
| DatabaseUpdate.UpdateStockDatabase | update_stock_database.py:133-219 | the whole update equals `UpdatedDatabase` |
| CatalogScrape.ParseRow | fetch_all_taiwan_stocks.py:25-32 | a row is kept iff it contains U+3000 and its stripped first part has four digits; code and name are the stripped parts |
| CatalogScrape.GetStockList | fetch_all_taiwan_stocks.py:7-38 | the row loop equals `ListingsOf`; an unreadable table gives `[]` |
| CatalogScrape.OtcSymbolMismatch | fetch_all_taiwan_stocks.py:76 | as written, an OTC stock is quoted under `.TW`, not its `.TWO` ticker |
| CatalogScrape.PriceSymbolMatchesMarket | fetch_all_taiwan_stocks.py:76 | the corrected ticker carries its market's suffix and gives the code back |
| CatalogScrape.ChangeOf | fetch_all_taiwan_stocks.py:90-94 | 0 with one close; otherwise the percentage change; no number when the previous close is 0 |
| CatalogScrape.QuoteOf | fetch_all_taiwan_stocks.py:82-101 | no quote iff the closes are empty; otherwise the latest close, the change of the last two closes, the code and the market |
| CatalogScrape.StockPriceOf | fetch_all_taiwan_stocks.py:73-103 | as written, the quote is looked up under `code.TW` for every market: none iff that history is empty, otherwise its latest close with the code and market |
| CatalogScrape.StockPriceCorrected | fetch_all_taiwan_stocks.py:73-103 | the corrected lookup under the market's own ticker, with the same quote shape |
| CatalogScrape.StockPriceAgreesOnTwse | fetch_all_taiwan_stocks.py:76 | for a 上市 stock the written and the corrected lookups agree |
| CatalogScrape.OtcQuoteMissed | fetch_all_taiwan_stocks.py:76 | an OTC stock quoted only under `.TWO` gets no quote as written and its quote when corrected |
| CatalogScrape.FetchStockPrice | fetch_all_taiwan_stocks.py:73-103 | the method, as written, equals `StockPriceOf` |
| Text.StripLeft | fetch_all_taiwan_stocks.py:26 | removes exactly the leading whitespace |
| Text.StripRight | fetch_all_taiwan_stocks.py:26 | removes exactly the trailing whitespace |
| Text.StripSlice | fetch_all_taiwan_stocks.py:26-27 | `strip()` is the slice between the leading and trailing whitespace |
| Text.StripTrimmed | fetch_all_taiwan_stocks.py:26-27 | no whitespace is left at either end |
| Text.Split | fetch_all_taiwan_stocks.py:26 | at least one piece, none containing the separator; two or more when it occurs |
| Text.SplitJoin | fetch_all_taiwan_stocks.py:26 | joining the pieces of `split` gives the string back |
| OrderedDicts.UpdateGet | update_stock_database.py:164 | after `d.update(e)`, keys of `e` hold their last value in `e`, others keep theirs, keys stay distinct |
| OrderedDicts.UpdateKeys | update_stock_database.py:164 | `update` keeps the old keys as a prefix and adds exactly `e`'s keys |
| OrderedDicts.PutOther | stock_dashboard/stock_dashboard.py:243-247 | assigning one key leaves every other key's value alone |
| OrderedDicts.PutPut | stock_dashboard/stock_dashboard.py:816-818 | assigning a key twice keeps only the second value |
| OrderedDicts.DeleteOther | stock_dashboard/stock_dashboard.py:799-800 | `del d[k]` leaves other keys alone |
| OrderedDicts.DeletePut | stock_dashboard/stock_dashboard.py:799-800 | deleting a key forgets a value just assigned to it |
| OrderedDicts.DeleteKeys | stock_dashboard/stock_dashboard.py:799-800 | `del d[k]` removes exactly key k |
| UsageStats.Recent | stock_dashboard/stock_dashboard.py:262-264 | the ten most recent details, as the tail of the list |
| UsageStats.RecordCounts | stock_dashboard/stock_dashboard.py:243-253 | recording raises that pair's count by exactly one, from 0 when missing, and no other pair's |
| UsageStats.RecordStores | stock_dashboard/stock_dashboard.py:243-264 | after recording, the pair holds the used entry |
| UsageStats.UsedDetails | stock_dashboard/stock_dashboard.py:253-264 | a detail is appended only when truthy; at most ten kept, the most recent; the count rises by one |
| UsageStats.UseEntry | stock_dashboard/stock_dashboard.py:253-264 | the update of one entry equals `Used` |
| UsageStats.UsageTracker.constructor | stock_dashboard/stock_dashboard.py:224-232 | the tracker holds the loaded statistics |
| UsageStats.UsageTracker.RecordUserAction | stock_dashboard/stock_dashboard.py:239-266 | the statistics become `Record` of the old ones |
| UsageStats.PositiveCountsSound | stock_dashboard/stock_dashboard.py:275-293 | the count tables have distinct keys and positive counts |
| UsageStats.RemoveFirstSelect | stock_dashboard/stock_dashboard.py:299-301 | `list.remove` on a duplicate-free list equals filtering the item out |
| UsageStats.PrunedSelects | stock_dashboard/stock_dashboard.py:296-301 | the removal loop equals filtering the defaults by "removed fewer than 2 times" |
| UsageStats.PruneStep | stock_dashboard/stock_dashboard.py:299-301 | one removal step keeps the filtered form |
| UsageStats.FromAddsSound | stock_dashboard/stock_dashboard.py:304-307 | suggestions from adds are added >= 2 times and not listed |
| UsageStats.FromAnalysesSound | stock_dashboard/stock_dashboard.py:309-311 | suggestions from analyses qualify and are not listed; keys stay distinct |
| UsageStats.SortDistinct | stock_dashboard/stock_dashboard.py:314 | sorting keeps keys distinct |
| UsageStats.AppendedAll | stock_dashboard/stock_dashboard.py:315-317 | appending picks not yet listed adds all of them, in order |
| UsageStats.FromAddsComplete | stock_dashboard/stock_dashboard.py:304-307 | every stock added >= 2 times and not listed is suggested with its add count |
| UsageStats.FromAnalysesExtends | stock_dashboard/stock_dashboard.py:309-311 | the analysis loop only appends to the add suggestions |
| UsageStats.FromAnalysesComplete | stock_dashboard/stock_dashboard.py:309-311 | every stock analysed >= 3 times and not listed is suggested |
| UsageStats.FrequentComplete | stock_dashboard/stock_dashboard.py:304-311 | every qualifying stock not on the list is among the suggestions |
| UsageStats.TopSuggestions | stock_dashboard/stock_dashboard.py:313-317 | the first three sorted suggestions are in descending count order and outrank every suggestion left out |
| UsageStats.PicksSound | stock_dashboard/stock_dashboard.py:304-317 | at most 3 distinct picks, each qualifying and not already listed, in descending count order, each with a count >= that of every suggestion left out |
| UsageStats.SmartWatchlistProperties | stock_dashboard/stock_dashboard.py:269-317 | the defaults minus those removed >= 2 times, then at most 3 qualifying picks chosen by count descending (each outranks every suggestion left out); no duplicates |
| UsageStats.CollectPositive | stock_dashboard/stock_dashboard.py:275-293 | the count loop equals `PositiveCounts` |
| UsageStats.CountsOf | stock_dashboard/stock_dashboard.py:275-293 | the counts of one action |
| UsageStats.PruneDefaults | stock_dashboard/stock_dashboard.py:296-301 | the removal loop equals `Pruned` of the defaults |
| UsageStats.CollectFrequent | stock_dashboard/stock_dashboard.py:304-311 | the suggestion loops equal `Frequent` |
| UsageStats.AppendPicks | stock_dashboard/stock_dashboard.py:315-317 | the append loop equals `Appended` |
| UsageStats.GetSmartWatchlist | stock_dashboard/stock_dashboard.py:269-317 | the whole call equals `SmartWatchlist` |
| UsageStats.MostFrequentIsMax | stock_dashboard/stock_dashboard.py:327-342 | the most frequent ticker exists iff there are entries, and no entry has a larger count |
| UsageStats.UserInsights | stock_dashboard/stock_dashboard.py:321-342 | each `most_*` key is present iff its action has entries |
| Dashboard.Classify | stock_dashboard/stock_dashboard.py:97-105 | Safe iff VIX < 15, Caution iff 15 <= VIX < 25, Danger otherwise |
| Dashboard.MarketStatusOf | stock_dashboard/stock_dashboard.py:84-119 | unavailable, with zeros, iff a quote is missing; otherwise the classification of the VIX |
| Dashboard.MinLow | stock_dashboard/stock_dashboard.py:172 | the minimum of the lows, attained by some bar |
| Dashboard.MaxHigh | stock_dashboard/stock_dashboard.py:173 | the maximum of the highs, attained by some bar |
| Dashboard.SupportResistance | stock_dashboard/stock_dashboard.py:166-174 | `(None, None)` unless 0 < window <= length; otherwise the min Low and max High of the last `window` rows |
| Dashboard.SupportBelowResistance | stock_dashboard/stock_dashboard.py:166-174 | with well-formed bars, support <= resistance |
| Dashboard.Upper | stock_dashboard/stock_dashboard.py:814 | `upper()` maps every character |
| Dashboard.UpperIdempotent | stock_dashboard/stock_dashboard.py:814 | upper-casing twice changes nothing more |
| Dashboard.Without | stock_dashboard/stock_dashboard.py:798 | `pop(i)` removes exactly the i-th holding and shifts the rest |
| Dashboard.RemovedProperties | stock_dashboard/stock_dashboard.py:797-801 | the ticker is deleted iff its list becomes empty; other tickers are untouched |
| Dashboard.AddedProperties | stock_dashboard/stock_dashboard.py:813-822 | an empty ticker changes nothing; otherwise the upper-cased ticker's list (created if absent) grows by exactly the holding; others untouched |
| Dashboard.Portfolio.constructor | stock_dashboard/stock_dashboard.py:199-207 | the portfolio holds the loaded holdings |
| Dashboard.Portfolio.RemoveHolding | stock_dashboard/stock_dashboard.py:797-801 | the holdings become `Removed` of the old ones |
| Dashboard.Portfolio.AddHolding | stock_dashboard/stock_dashboard.py:813-822 | the holdings become `Added` of the old ones |
| SearchCharts.SumSnoc | static/search_charts.js:188 | the close sum over one more candle adds its close |
| SearchCharts.CalcSma | static/search_charts.js:185-192 | `max(0, len-n+1)` points; the k-th has the time of candle k+n-1 and the mean of the n closes ending there |
| SearchCharts.SumConstant | static/search_charts.js:188-189 | the mean of a constant series is that constant |
| SearchCharts.SlidingWindow | static/search_charts.js:188 | consecutive window sums differ by the close leaving and the close entering |
| SearchCharts.JsRound | static/search_charts.js:289 | `Math.round` rounds to within one half, ties upward |
| SearchCharts.FmtLots | static/search_charts.js:287-290 | '–' iff the value is missing; otherwise the rounded number of lots |
| SearchCharts.ColorNet | static/search_charts.js:291-296 | red carries a positive, green a negative lot count |
| SearchCharts.ColorNetBands | static/search_charts.js:291-296 | red iff >= 500 shares, green iff < -500, grey otherwise; missing behaves as 0 |
| TradingDates.WeekdaysBackSound | debug_dates.py:5-9 | every date is a weekday, no earlier than the walk reached; at most one per step |
| TradingDates.WeekdaysBackOrder | debug_dates.py:5-9 | strictly decreasing dates, starting from today when today is a weekday |
| TradingDates.WalkStops | debug_dates.py:6-11 | the loop stops at the first step where n dates are found, or after the step budget |
| TradingDates.RecentDatesSound | debug_dates.py:3-12 | weekdays only, all within the examined days, strictly decreasing, starting with today when today is a weekday |
| TradingDates.AtMostN | debug_dates.py:10-11 | at most n dates (at most 1 when n = 0, since the count is checked after the append) |
| TradingDates.WeekOfWeekdays | app_v3.py:77-80 | any seven consecutive days hold exactly five weekdays |
| TradingDates.WeekdaysAtLeast | app_v3.py:77-80 | m steps find at least 5 per full week |
| TradingDates.ExactlyN | app_v3.py:77-82 | when the budget holds n weekdays, exactly n dates are returned |
| TradingDates.AppFindsN | app_v3.py:73-83 | with `n*2+10` steps the app_v3 copy always finds n dates |
| TradingDates.DebugFindsN | debug_dates.py:3-12 | with 30 steps, up to 20 dates are always found |
| TradingDates.RecentDates | debug_dates.py:3-12 | the loop equals `RecentTradingDates` |
| Institutional.Clean | app_v3.py:69 | removing commas and spaces never lengthens the string and leaves none |
| Institutional.ParseInt | app_v3.py:69 | `int()` yields a number only for a string that is not blank after stripping |
| Institutional.Show | app_v3.py:69 | the decimal rendering is a non-empty digit string |
| Institutional.ShowValue | app_v3.py:69 | the digits of a rendered number have that value |
| Institutional.ParseIntShow | app_v3.py:69 | `int(str(z)) == z` |
| Institutional.ParseNumShow | app_v3.py:66-71 | a number written with thousands commas or spaces parses back to itself |
| Institutional.ParseNumFallback | app_v3.py:66-71 | an empty or unparsable cell gives 0 |
| Institutional.AssignedFails | app_v3.py:189-192 | the assignment fails iff some recognised field has no cell in the row |
| Institutional.AssignedKeys | app_v3.py:178-192 | the keys set are exactly those named by some recognised field |
| Institutional.AssignedValue | app_v3.py:189-192 | each key holds the parsed cell of the last field naming it |
| Institutional.DashedDateRoundTrip | app_v3.py:188 | removing the dashes from the `YYYY-MM-DD` form gives the date string back |
| Institutional.DefaultsToZero | app_v3.py:194-201 | a key no field names is 0 when `setdefault` covers it (foreign and trust buy and sell, dealer net, total net) and absent for `foreign_net` and `trust_net`; dealer buy and sell are always absent |
| Institutional.ResultEntry | app_v3.py:189-192 | a key some field names holds the parsed cell of the last column naming it |
| Institutional.BuildInstitutionalResult | app_v3.py:176-203 | the loop equals `InstitutionalResult`, whose entries `DefaultsToZero` and `ResultEntry` characterise |
| Institutional.AssignedFailed | app_v3.py:189-192 | once a prefix fails, the whole assignment fails |

## Left out

- Network and data-source I/O are inputs, never calls: every yfinance download, `Ticker.history`/`info`/`fast_info`, the TWSE/TPEX scrapers and `pd.read_html`. A failed call is `None`.
- The Flask routes beyond `screen_stocks`, the LINE bot, the scheduler push job, and the Streamlit, Plotly and DOM rendering are not modelled: they are transport and display.
- Thread pools (`fetch_market_cap_batch`, `fetch_institutional_history`) are left out; market caps are an input map.
- `calculate_technicals` and `calculate_rsi` (rolling means and RSI) are left out; MA5, MA20 and RSI of the latest row are given values, with NaN as `None`.
- `round(..., 2)` and the string formatting of labels, percentages and emoji are left out. Prices, changes and alphas are exact reals, and labels are datatypes.
- Files and wall-clock time: the JSON/CSV reads and writes become in-memory values, and `datetime.now()` is a parameter. Dates in `TradingDates` are day ordinals whose weekday is the ordinal modulo 7, not `YYYYMMDD` strings.
- Calibration.FetchRealtimePrices: the list of dictionaries is an array of record values. Two list entries that are the same Python object, and the `Volume` column being absent, are not modelled.
- Calibration.QuoteFor: a NaN close inside a row that is not all NaN is not modelled; the source would carry the NaN into the price and change.
- Calibration.CalibratedUnique: the final record is stated only for a code no other record shares; when two records share a code, the later symbol's fix is computed from the list the earlier one already changed, and only `CalibratedProperties` covers that case.
- Screening.FilterAndRank, StockLogic.FilterAndRank: under `gap_up_only` the caller must guarantee a change other than -100% for records within bounds (the source would divide by zero and fail).
- Screening.KeepRecord, Screening.CollectKept: the same requirement, for the one record and for the whole loop.
- StockLogic.KeepStock, StockLogic.CollectStocks: the same requirement, but only for records that have an `open`, since this copy tests `open` before dividing.
- Pipeline.PipelineSnapshot.FillStrongStocks: an exception raised inside the candidate loop, which ends the loop early in the source, is not modelled; a failed download gives an empty layer.
- Pipeline.PipelineSnapshot.FillSmartPicks: the pick's `price` is the latest close, not rounded.
- Text and Institutional: `isdigit`, `strip` and `int` cover ASCII digits and the Unicode whitespace listed in `Text.IsSpace`; other Unicode digits and the `_` separators `int()` accepts are not modelled.
- ConsoleScreener.Prompt: a typed line is blank, a number or text; NaN and infinity typed at a prompt are not modelled.
- Dashboard.Upper: upper-cases ASCII letters only.
- Dashboard.SupportResistance: NaN lows and highs are not modelled.
- Dashboard.MarketStatusOf: a NaN VIX is not modelled.
- CatalogScrape.ChangeOf: a zero previous close gives `None`; the infinity or NaN that the float division then yields and its `+.2f` rendering are not modelled.
- `main()` of fetch_all_taiwan_stocks.py (sorting, CSV and Markdown output) is not modelled.
- `fetch_institutional_data`, the TWSE/TPEX institutional fetchers and `fetch_institutional_history` are left out: they are HTTP calls. Only `_parse_num` and `_build_institutional_result` are modelled.
- SearchCharts.FmtLots, SearchCharts.ColorNet: `toLocaleString` is not modelled; the result is the rounded lot count.
- SearchCharts.CalcSma: requires `n >= 1`; the callers pass 5, 10 and 20.
- UsageStats.GetSmartWatchlist: the current watchlist argument is not modelled, because the source ignores it.

## Findings

| source | as written | input that shows it | evidently intended | confidence | as-written member | corrected member |
|---|---|---|---|---|---|---|
| app.py:131 | `symbol.replace('.TW', '').replace('.TWO', '')` removes `.TW` first, so the `O` of a `.TWO` suffix survives | `"3443.TWO"` gives `"3443O"`, which is not in `OTC_STOCK_CODES` (latent: the ticker list holds only `.TW` symbols) | the code before the suffix, `"3443"` | not executed | ScreenerApp.OtcSuffixNotStripped | ScreenerApp.StockCodeOfSymbol |
| fetch_all_taiwan_stocks.py:76 | the price ticker is `f"{code}.TW"` whatever the market | `fetch_stock_price("6488", "上櫃")` requests `"6488.TW"` instead of the OTC ticker `"6488.TWO"` | `.TWO` for 上櫃 stocks, as elsewhere in the repository | not executed | CatalogScrape.OtcQuoteMissed | CatalogScrape.StockPriceCorrected |
