/** taiwan_stock_screener.py: the console screener. The filters are read by re-prompting
    until each entry is acceptable, the fetched quotes (`None` for a failed fetch) are
    filtered by price range and market cap, and the three largest daily changes are shown. */
module ConsoleScreener {
  import opened Wrappers
  import opened Ordering

  /** One fetched quote (`fetch_stock_data`'s dictionary). */
  datatype Snapshot = Snapshot(symbol: string, name: string, currentPrice: real, previousClose: real,
                               dailyChangePct: real, volume: int, marketCap: real)

  function DailyKey(s: Snapshot): real { s.dailyChangePct }

  // ----- filter_stocks -----

  predicate Passes(s: Snapshot, minPrice: real, maxPrice: real, minMarketCap: real) {
    minPrice <= s.currentPrice <= maxPrice && s.marketCap >= minMarketCap
  }

  /** The quotes `filter_stocks` keeps, in input order. */
  function Kept(xs: seq<Option<Snapshot>>, minPrice: real, maxPrice: real, minMarketCap: real): seq<Snapshot> {
    if xs == [] then []
    else
      var last := xs[|xs| - 1];
      Kept(xs[..|xs| - 1], minPrice, maxPrice, minMarketCap)
        + (if last.Some? && Passes(last.value, minPrice, maxPrice, minMarketCap) then [last.value] else [])
  }

  /** Every kept quote was in the input (not `None`) and meets both bounds, and every such
      input quote is kept. */
  lemma {:induction false} KeptExact(xs: seq<Option<Snapshot>>, minPrice: real, maxPrice: real, minMarketCap: real, s: Snapshot)
    ensures s in Kept(xs, minPrice, maxPrice, minMarketCap) <==> Some(s) in xs && Passes(s, minPrice, maxPrice, minMarketCap)
  {
    if xs != [] {
      var init := xs[..|xs| - 1];
      KeptExact(init, minPrice, maxPrice, minMarketCap, s);
      assert xs == init + [xs[|xs| - 1]];
    }
  }

  /** The output is an order-preserving subsequence of the input: the `k`-th kept quote sits
      at a strictly increasing input position `idx[k]`. */
  lemma {:induction false} KeptSubsequence(xs: seq<Option<Snapshot>>, minPrice: real, maxPrice: real, minMarketCap: real)
    returns (idx: seq<int>)
    ensures |idx| == |Kept(xs, minPrice, maxPrice, minMarketCap)|
    ensures forall k :: 0 <= k < |idx| ==> 0 <= idx[k] < |xs| && xs[idx[k]] == Some(Kept(xs, minPrice, maxPrice, minMarketCap)[k])
    ensures forall k, l :: 0 <= k < l < |idx| ==> idx[k] < idx[l]
  {
    if xs == [] {
      idx := [];
    } else {
      var n := |xs| - 1;
      var init := xs[..n];
      var prev := KeptSubsequence(init, minPrice, maxPrice, minMarketCap);
      var last := xs[n];
      var before := Kept(init, minPrice, maxPrice, minMarketCap);
      var keep := last.Some? && Passes(last.value, minPrice, maxPrice, minMarketCap);
      assert Kept(xs, minPrice, maxPrice, minMarketCap) == before + (if keep then [last.value] else []);
      forall k | 0 <= k < |prev|
        ensures 0 <= prev[k] < n && xs[prev[k]] == Some(before[k])
      {
        assert xs[prev[k]] == init[prev[k]];
      }
      if keep {
        idx := prev + [n];
        assert forall k :: 0 <= k < |prev| ==> idx[k] == prev[k];
        assert idx[|prev|] == n;
      } else {
        idx := prev;
      }
    }
  }

  /** `filter_stocks(stock_data_list, min_price, max_price, min_market_cap)` */
  method FilterStocks(stockDataList: seq<Option<Snapshot>>, minPrice: real, maxPrice: real, minMarketCap: real)
    returns (filtered: seq<Snapshot>)
    ensures filtered == Kept(stockDataList, minPrice, maxPrice, minMarketCap)
  {
    filtered := [];
    for k := 0 to |stockDataList|
      invariant filtered == Kept(stockDataList[..k], minPrice, maxPrice, minMarketCap)
    {
      assert stockDataList[..k + 1][..k] == stockDataList[..k];
      var stock := stockDataList[k];
      if stock.None? {
        continue;
      }
      if !(minPrice <= stock.value.currentPrice <= maxPrice) {
        continue;
      }
      if stock.value.marketCap < minMarketCap {
        continue;
      }
      filtered := filtered + [stock.value];
    }
    assert stockDataList[..|stockDataList|] == stockDataList;
  }

  // ----- the top three of main -----

  const TopCount: nat := 3

  /** `sorted(filtered_stocks, key=daily_change_pct, reverse=True)[:3]` */
  function TopThree(filtered: seq<Snapshot>): seq<Snapshot> {
    Take(SortDesc(filtered, DailyKey), TopCount)
  }

  /** At most three entries, all from the filtered list, in descending order, and none of
      the filtered quotes left out has a larger daily change than any that is shown. */
  lemma TopThreeProperties(filtered: seq<Snapshot>)
    ensures |TopThree(filtered)| == if |filtered| < 3 then |filtered| else 3
    ensures forall x :: x in TopThree(filtered) ==> x in filtered
    ensures SortedDesc(TopThree(filtered), DailyKey)
    ensures forall x, y :: x in TopThree(filtered) && y in filtered && y !in TopThree(filtered) ==>
              x.dailyChangePct >= y.dailyChangePct
  {
    var sorted := SortDesc(filtered, DailyKey);
    var top := TopThree(filtered);
    SortDescSorted(filtered, DailyKey);
    forall x | x in top ensures x in filtered {
      assert x in multiset(sorted);
    }
    forall x, y | x in top && y in filtered && y !in top
      ensures x.dailyChangePct >= y.dailyChangePct
    {
      ShownOutranksHidden(filtered, x, y);
    }
  }

  /** A shown quote outranks a filtered one that is not shown. */
  lemma ShownOutranksHidden(filtered: seq<Snapshot>, x: Snapshot, y: Snapshot)
    requires x in TopThree(filtered) && y in filtered && y !in TopThree(filtered)
    ensures x.dailyChangePct >= y.dailyChangePct
  {
    var sorted := SortDesc(filtered, DailyKey);
    var top := TopThree(filtered);
    var i :| 0 <= i < |top| && top[i] == x;
    assert y in multiset(sorted);
    var j :| 0 <= j < |sorted| && sorted[j] == y;
    assert forall k :: 0 <= k < |top| ==> top[k] == sorted[k];
    TopKOutranksRest(filtered, DailyKey, TopCount, i, j);
  }

  // ----- get_user_filters -----

  /** One line typed at a prompt: empty (take the default), a number, or text `float`
      rejects with `ValueError`. */
  datatype Entry = Blank | Number(value: real) | Garbage

  function Parse(e: Entry, default: real): Option<real> {
    match e
    case Blank => Some(default)
    case Number(x) => Some(x)
    case Garbage => None
  }

  /** What a prompt accepts: a positive number, or a number above a given bound. */
  datatype Rule = Positive | Above(bound: real)

  predicate Accepts(rule: Rule, x: real) {
    match rule
    case Positive => x > 0.0
    case Above(b) => x > b
  }

  /** The value a re-prompting loop settles on, and the position after the line it took;
      `None` when the lines run out first. */
  function Prompt(lines: seq<Entry>, pos: nat, default: real, rule: Rule): (r: Option<(real, nat)>)
    requires pos <= |lines|
    ensures r.Some? ==> pos < r.value.1 <= |lines| && Accepts(rule, r.value.0)
                        && Parse(lines[r.value.1 - 1], default) == Some(r.value.0)
    ensures r.Some? ==> forall k :: pos <= k < r.value.1 - 1 ==> !Acceptable(lines[k], default, rule)
    ensures r.None? <==> forall k :: pos <= k < |lines| ==> !Acceptable(lines[k], default, rule)
    decreases |lines| - pos
  {
    if pos == |lines| then None
    else
      var v := Parse(lines[pos], default);
      if v.Some? && Accepts(rule, v.value) then Some((v.value, pos + 1))
      else Prompt(lines, pos + 1, default, rule)
  }

  predicate Acceptable(e: Entry, default: real, rule: Rule) {
    Parse(e, default).Some? && Accepts(rule, Parse(e, default).value)
  }

  /** One `while True` prompt loop of `get_user_filters`. */
  method PromptLoop(lines: seq<Entry>, pos: nat, default: real, rule: Rule) returns (r: Option<(real, nat)>)
    requires pos <= |lines|
    ensures r == Prompt(lines, pos, default, rule)
  {
    var i := pos;
    while i < |lines|
      invariant pos <= i <= |lines|
      invariant Prompt(lines, i, default, rule) == Prompt(lines, pos, default, rule)
      decreases |lines| - i
    {
      var v := Parse(lines[i], default);
      i := i + 1;
      if v.None? {
        continue;
      }
      if !Accepts(rule, v.value) {
        continue;
      }
      return Some((v.value, i));
    }
    return None;
  }

  /** 100,000,000 NT$ per unit of the market-cap prompt. */
  const HundredMillion: real := 100000000.0

  datatype UserFilters = UserFilters(minPrice: real, maxPrice: real, minMarketCap: real)

  /** The filters `get_user_filters` returns for a sequence of typed lines; `None` when the
      input ends before all three are accepted. */
  function UserFiltersOf(lines: seq<Entry>): Option<UserFilters> {
    match Prompt(lines, 0, 50.0, Positive)
    case None => None
    case Some((minPrice, p1)) =>
      match Prompt(lines, p1, 200.0, Above(minPrice))
      case None => None
      case Some((maxPrice, p2)) =>
        match Prompt(lines, p2, 100.0, Positive)
        case None => None
        case Some((cap, _)) => Some(UserFilters(minPrice, maxPrice, cap * HundredMillion))
  }

  /** Accepted filters have a positive minimum, a maximum above it, and a positive
      market-cap floor in NT$; the defaults 50, 200 and 100 units are accepted from blank lines. */
  lemma UserFiltersValid(lines: seq<Entry>)
    ensures UserFiltersOf(lines).Some? ==>
              var f := UserFiltersOf(lines).value;
              0.0 < f.minPrice < f.maxPrice && f.minMarketCap > 0.0
    ensures UserFiltersOf([Blank, Blank, Blank]) == Some(UserFilters(50.0, 200.0, 10000000000.0))
  {
  }

  /** `get_user_filters()` over the typed lines. */
  method GetUserFilters(lines: seq<Entry>) returns (r: Option<UserFilters>)
    ensures r == UserFiltersOf(lines)
  {
    var first := PromptLoop(lines, 0, 50.0, Positive);
    if first.None? {
      return None;
    }
    var minPrice := first.value.0;
    var second := PromptLoop(lines, first.value.1, 200.0, Above(minPrice));
    if second.None? {
      return None;
    }
    var maxPrice := second.value.0;
    var third := PromptLoop(lines, second.value.1, 100.0, Positive);
    if third.None? {
      return None;
    }
    var marketCapBillion := third.value.0;
    var minMarketCap := marketCapBillion * HundredMillion;
    r := Some(UserFilters(minPrice, maxPrice, minMarketCap));
  }

  /** `main` after the fetches: filter, sort by daily change, keep three. */
  method RankTopThree(minPrice: real, maxPrice: real, minMarketCap: real, fetched: seq<Option<Snapshot>>)
    returns (top3: seq<Snapshot>)
    ensures top3 == TopThree(Kept(fetched, minPrice, maxPrice, minMarketCap))
  {
    var filteredStocks := FilterStocks(fetched, minPrice, maxPrice, minMarketCap);
    var sortedStocks := SortDesc(filteredStocks, DailyKey);
    top3 := Take(sortedStocks, TopCount);
  }
}
