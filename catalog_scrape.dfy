/** fetch_all_taiwan_stocks.py: the stock lists scraped from the TWSE ISIN tables and the
    per-stock closing quote. The tables and the price histories are inputs. */
module CatalogScrape {
  import opened Wrappers
  import opened Ordering
  import opened Stocks
  import opened Text

  /** The ideographic space between code and name in the table's first column. */
  const Ideographic: char := '\U{3000}'

  /** The market names the script passes along with each quote. */
  const TwseName: string := "上市"
  const TpexName: string := "上櫃"

  /** One kept table row: `{'code', 'name'}`. */
  datatype Listing = Listing(code: string, name: string)

  /** The row filter shared by `get_twse_stock_list` and `get_tpex_stock_list`: a cell with
      an ideographic space is split there, both pieces are stripped, and the row is kept
      when the code has four digits. */
  function ParseRow(codeName: string): (r: Option<Listing>)
    ensures r.Some? ==> Ideographic in codeName && IsStockCode(r.value.code)
    ensures r.Some? ==> r.value.code == Strip(Split(codeName, Ideographic)[0])
                        && r.value.name == Strip(Split(codeName, Ideographic)[1])
    ensures Ideographic in codeName && IsStockCode(Strip(Split(codeName, Ideographic)[0])) ==> r.Some?
  {
    if Ideographic !in codeName then None
    else
      var parts := Split(codeName, Ideographic);
      var code := Strip(parts[0]);
      var name := Strip(parts[1]);
      if AllDigits(code) && |code| == 4 then Some(Listing(code, name)) else None
  }

  /** The kept rows, in table order (`FilterMapInOrder` states the order). */
  function ListingsOf(cells: seq<string>): seq<Listing> {
    FilterMap(cells, ParseRow)
  }

  /** `get_twse_stock_list()` / `get_tpex_stock_list()` on the first column of the table
      below its header row; `None` is a table that cannot be read, which yields `[]`. */
  method GetStockList(table: Option<seq<string>>) returns (stocks: seq<Listing>)
    ensures table.None? ==> stocks == []
    ensures table.Some? ==> stocks == ListingsOf(table.value)
  {
    if table.None? {
      return [];
    }
    var rows := table.value;
    stocks := [];
    for k := 0 to |rows|
      invariant stocks == ListingsOf(rows[..k])
    {
      var codeName := rows[k];
      assert ListingsOf(rows[..k + 1]) == ListingsOf(rows[..k]) + (if ParseRow(codeName).Some? then [ParseRow(codeName).value] else []) by {
        FilterMapSnoc(rows[..k], codeName, ParseRow);
        assert rows[..k + 1] == rows[..k] + [codeName];
      }
      if Ideographic in codeName {
        var parts := Split(codeName, Ideographic);
        var code := Strip(parts[0]);
        var name := Strip(parts[1]);
        if AllDigits(code) && |code| == 4 {
          stocks := stocks + [Listing(code, name)];
        }
      }
    }
    assert rows[..|rows|] == rows;
  }

  // ----- fetch_stock_price -----

  /** The ticker `fetch_stock_price` requests, as written: `.TW` whatever the market. */
  function PriceSymbolAsWritten(code: string, market: string): string {
    code + ".TW"
  }

  /** For an OTC stock the written ticker is not the OTC ticker the rest of the repository
      uses, so the quote is looked up under the wrong symbol. */
  lemma OtcSymbolMismatch()
    ensures PriceSymbolAsWritten("6488", TpexName) == "6488.TW"
    ensures PriceSymbolAsWritten("6488", TpexName) != PriceSymbol("6488", TpexName)
  {
    assert PriceSymbol("6488", TpexName) == "6488.TWO";
  }

  function MarketNamed(market: string): Market {
    if market == TwseName then Listed else Otc
  }

  /** The ticker for the market the stock is listed on. */
  function PriceSymbol(code: string, market: string): string {
    SymbolOf(code, MarketNamed(market))
  }

  /** The corrected ticker carries the suffix of the stock's market and gives the code back. */
  lemma PriceSymbolMatchesMarket(code: string, market: string)
    requires '.' !in code
    ensures CodeOfSymbol(PriceSymbol(code, market)) == code
    ensures PriceSymbol(code, market)[|code|..] == if market == TwseName then ".TW" else ".TWO"
  {
    CodeOfSymbolOf(code, MarketNamed(market));
  }

  /** One collected quote: code, latest close, the change in percent (`None` when the
      previous close is zero and the division yields no number) and the market name. */
  datatype PriceQuote = PriceQuote(code: string, close: real, changePct: Option<real>, market: string)

  /** The change over the last two closes, or 0 with a single close. */
  function ChangeOf(closes: seq<real>): (c: Option<real>)
    requires |closes| >= 1
    ensures |closes| == 1 ==> c == Some(0.0)
    ensures |closes| >= 2 && closes[|closes| - 2] != 0.0 ==>
              c.Some? && c.value * closes[|closes| - 2] == (closes[|closes| - 1] - closes[|closes| - 2]) * 100.0
    ensures c.None? <==> |closes| >= 2 && closes[|closes| - 2] == 0.0
  {
    if |closes| >= 2 then
      var prev := closes[|closes| - 2];
      if prev == 0.0 then None else Some((closes[|closes| - 1] - prev) / prev * 100.0)
    else Some(0.0)
  }

  /** The quote built from a ticker's closes; no quote for an empty history. */
  function QuoteOf(code: string, market: string, closes: seq<real>): (r: Option<PriceQuote>)
    ensures r.None? <==> |closes| == 0
    ensures r.Some? ==> r.value.code == code && r.value.market == market
                        && r.value.close == closes[|closes| - 1]
                        && r.value.changePct == ChangeOf(closes)
  {
    if |closes| == 0 then None
    else Some(PriceQuote(code, closes[|closes| - 1], ChangeOf(closes), market))
  }

  /** `fetch_stock_price(code, market)` as written, with the closes of the requested
      ticker's last two sessions as input: the ticker is `code.TW` whatever the market. */
  function StockPriceOf(code: string, market: string, history: string -> seq<real>): (r: Option<PriceQuote>)
    ensures r.None? <==> |history(code + ".TW")| == 0
    ensures r.Some? ==> r.value.code == code && r.value.market == market
                        && r.value.close == history(code + ".TW")[|history(code + ".TW")| - 1]
  {
    QuoteOf(code, market, history(PriceSymbolAsWritten(code, market)))
  }

  /** The corrected lookup, under the ticker of the stock's own market. */
  function StockPriceCorrected(code: string, market: string, history: string -> seq<real>): (r: Option<PriceQuote>)
    ensures r.None? <==> |history(PriceSymbol(code, market))| == 0
    ensures r.Some? ==> r.value.code == code && r.value.market == market
                        && r.value.close == history(PriceSymbol(code, market))[|history(PriceSymbol(code, market))| - 1]
  {
    QuoteOf(code, market, history(PriceSymbol(code, market)))
  }

  /** For a listed (上市) stock the written and the corrected lookups agree. */
  lemma StockPriceAgreesOnTwse(code: string, history: string -> seq<real>)
    ensures StockPriceOf(code, TwseName, history) == StockPriceCorrected(code, TwseName, history)
  {
    assert PriceSymbol(code, TwseName) == code + ".TW";
  }

  /** For an OTC stock whose quotes exist only under `.TWO`, the written lookup finds
      nothing while the corrected one finds the quote. */
  lemma OtcQuoteMissed()
    ensures var history := (sym: string) => if sym == "6488.TWO" then [100.0] else [];
            StockPriceOf("6488", TpexName, history).None?
            && StockPriceCorrected("6488", TpexName, history) == Some(PriceQuote("6488", 100.0, Some(0.0), TpexName))
  {
    var history := (sym: string) => if sym == "6488.TWO" then [100.0] else [];
    assert PriceSymbol("6488", TpexName) == "6488.TWO";
    assert "6488" + ".TW" != "6488.TWO";
  }

  /** The method as written. */
  method FetchStockPrice(code: string, market: string, history: string -> seq<real>) returns (r: Option<PriceQuote>)
    ensures r == StockPriceOf(code, market, history)
  {
    var symbol := PriceSymbolAsWritten(code, market);
    var hist := history(symbol);
    if |hist| == 0 {
      return None;
    }
    var closePrice := hist[|hist| - 1];
    var changePct: Option<real>;
    if |hist| >= 2 {
      var prevClose := hist[|hist| - 2];
      changePct := if prevClose == 0.0 then None else Some((closePrice - prevClose) / prevClose * 100.0);
    } else {
      changePct := Some(0.0);
    }
    r := Some(PriceQuote(code, closePrice, changePct, market));
  }
}
