/** The stock database record shared by the screening pipeline (the dictionaries
    that update_stock_database.py writes and app_v3.py / stock_logic.py read). */
module Stocks {
  import opened Wrappers
  import opened Ordering

  /** `'LISTED'` (TWSE, suffix `.TW`) or `'OTC'` (TPEX, suffix `.TWO`). */
  datatype Market = Listed | Otc

  /** One database entry. `open` is absent on entries written by older database builds. */
  datatype StockRecord = StockRecord(
    code: string,
    name: string,
    market: Market,
    price: real,
    changePct: real,
    volume: int,
    marketCap: real,
    open: Option<real>)

  /** The loaded `stock_database.json`: `{'stocks': [...], 'update_time': ...}`. */
  datatype Database = Database(stocks: seq<StockRecord>, updateTime: Option<string>)

  /** A benchmark index quote as `fetch_index_data` returns it. */
  datatype IndexQuote = IndexQuote(name: string, value: real, changePct: real)

  /** The Yahoo Finance ticker suffix of a market. */
  function Suffix(m: Market): string {
    if m == Listed then ".TW" else ".TWO"
  }

  /** `f"{code}{'.TW' if market == 'LISTED' else '.TWO'}"` */
  function SymbolOf(code: string, m: Market): (sym: string)
    ensures |sym| == |code| + (if m == Listed then 3 else 4)
    ensures sym[..|code|] == code && sym[|code|] == '.'
  {
    code + Suffix(m)
  }

  /** `sym.split('.')[0]`: everything before the first dot. */
  function CodeOfSymbol(sym: string): (code: string)
    ensures code <= sym
    ensures '.' !in code
    ensures |code| < |sym| ==> sym[|code|] == '.'
  {
    if sym == [] || sym[0] == '.' then [] else [sym[0]] + CodeOfSymbol(sym[1..])
  }

  /** Splitting a symbol at its first dot recovers a dot-free code. */
  lemma {:induction false} CodeOfSymbolOf(code: string, m: Market)
    requires '.' !in code
    ensures CodeOfSymbol(SymbolOf(code, m)) == code
  {
  }

  function MarketOf(s: StockRecord): Market { s.market }
  function ChangeKey(s: StockRecord): real { s.changePct }
  predicate IsListed(s: StockRecord) { s.market == Listed }
  predicate IsOtc(s: StockRecord) { s.market == Otc }

  /** `[s for s in xs if s['market'] == 'LISTED']` and the OTC counterpart split `xs` in two. */
  lemma MarketPartition(xs: seq<StockRecord>)
    ensures multiset(Select(xs, IsListed)) + multiset(Select(xs, IsOtc)) == multiset(xs)
    ensures |Select(xs, IsListed)| + |Select(xs, IsOtc)| == |xs|
  {
    assert forall s :: IsOtc(s) <==> !IsListed(s);
    SelectComplement(xs, IsListed, IsOtc);
  }

  /** The index change a record is compared against: TAIEX for LISTED, the OTC index otherwise. */
  function IndexChange(m: Market, taiexChange: real, otcChange: real): real {
    if m == Listed then taiexChange else otcChange
  }
}
