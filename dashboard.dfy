/** stock_dashboard.py: the market-status classification, the support and resistance levels
    of a price chart, and the portfolio's add and remove actions. Quotes, files and the
    Streamlit page are not part of this model. */
module Dashboard {
  import opened Wrappers
  import opened OrderedDicts

  // ----- get_market_status -----

  /** The four statuses the page shows: the three VIX bands and "unavailable". */
  datatype Status = Safe | Caution | Danger | Unavailable

  const SafeBelow: real := 15.0
  const CautionBelow: real := 25.0

  datatype MarketStatus = MarketStatus(vix: real, yieldRate: real, status: Status)

  /** The VIX band. */
  function Classify(vix: real): (s: Status)
    ensures s != Unavailable
    ensures s == Safe <==> vix < SafeBelow
    ensures s == Caution <==> SafeBelow <= vix < CautionBelow
    ensures s == Danger <==> CautionBelow <= vix
  {
    if vix < SafeBelow then Safe else if vix < CautionBelow then Caution else Danger
  }

  function Severity(s: Status): nat {
    match s
    case Safe => 0
    case Caution => 1
    case Danger => 2
    case Unavailable => 0
  }

  /** A higher VIX never gives a calmer band. */
  lemma ClassifyMonotone(vix: real, vix': real)
    requires vix <= vix'
    ensures Severity(Classify(vix)) <= Severity(Classify(vix'))
  {
  }

  /** `get_market_status()` with the two quotes as inputs; `None` is a quote whose fetch
      raised, which turns the whole answer into the zeroed "unavailable" status. */
  function MarketStatusOf(vix: Option<real>, yieldRate: Option<real>): (r: MarketStatus)
    ensures r.status == Unavailable <==> vix.None? || yieldRate.None?
    ensures r.status == Unavailable ==> r.vix == 0.0 && r.yieldRate == 0.0
    ensures r.status != Unavailable ==>
              r.vix == vix.value && r.yieldRate == yieldRate.value && r.status == Classify(vix.value)
  {
    if vix.None? || yieldRate.None? then MarketStatus(0.0, 0.0, Unavailable)
    else MarketStatus(vix.value, yieldRate.value, Classify(vix.value))
  }

  // ----- calculate_support_resistance -----

  /** The two columns of a daily bar the levels read. */
  datatype Bar = Bar(low: real, high: real)

  const DefaultWindow: nat := 20

  function MinLow(bars: seq<Bar>): (m: real)
    requires |bars| > 0
    ensures exists i :: 0 <= i < |bars| && bars[i].low == m
    ensures forall i :: 0 <= i < |bars| ==> m <= bars[i].low
  {
    if |bars| == 1 then bars[0].low
    else
      var rest := MinLow(bars[1..]);
      assert forall i :: 1 <= i < |bars| ==> bars[i] == bars[1..][i - 1];
      if bars[0].low <= rest then bars[0].low else rest
  }

  function MaxHigh(bars: seq<Bar>): (m: real)
    requires |bars| > 0
    ensures exists i :: 0 <= i < |bars| && bars[i].high == m
    ensures forall i :: 0 <= i < |bars| ==> bars[i].high <= m
  {
    if |bars| == 1 then bars[0].high
    else
      var rest := MaxHigh(bars[1..]);
      assert forall i :: 1 <= i < |bars| ==> bars[i] == bars[1..][i - 1];
      if bars[0].high >= rest then bars[0].high else rest
  }

  /** `calculate_support_resistance(df, window)`: `None` stands for Python's `None` and also
      for the NaN a minimum over the empty `tail(0)` gives. */
  function SupportResistance(bars: seq<Bar>, window: nat): (r: (Option<real>, Option<real>))
    ensures r.0.Some? <==> 0 < window <= |bars|
    ensures r.1.Some? <==> 0 < window <= |bars|
    ensures r.0.Some? ==>
              (exists i :: |bars| - window <= i < |bars| && bars[i].low == r.0.value)
              && forall i :: |bars| - window <= i < |bars| ==> r.0.value <= bars[i].low
    ensures r.1.Some? ==>
              (exists i :: |bars| - window <= i < |bars| && bars[i].high == r.1.value)
              && forall i :: |bars| - window <= i < |bars| ==> bars[i].high <= r.1.value
  {
    if |bars| == 0 || |bars| < window || window == 0 then (None, None)
    else
      var recent := bars[|bars| - window..];
      assert forall i :: |bars| - window <= i < |bars| ==> bars[i] == recent[i - (|bars| - window)];
      var lo := MinLow(recent);
      var hi := MaxHigh(recent);
      assert exists i :: |bars| - window <= i < |bars| && bars[i].low == lo by {
        var j :| 0 <= j < |recent| && recent[j].low == lo;
        assert bars[j + |bars| - window] == recent[j];
      }
      assert exists i :: |bars| - window <= i < |bars| && bars[i].high == hi by {
        var j :| 0 <= j < |recent| && recent[j].high == hi;
        assert bars[j + |bars| - window] == recent[j];
      }
      (Some(lo), Some(hi))
  }

  /** Support never lies above resistance when every bar's low is at most its high. */
  lemma SupportBelowResistance(bars: seq<Bar>, window: nat)
    requires forall i :: 0 <= i < |bars| ==> bars[i].low <= bars[i].high
    requires 0 < window <= |bars|
    ensures SupportResistance(bars, window).0.value <= SupportResistance(bars, window).1.value
  {
    var r := SupportResistance(bars, window);
    var i :| |bars| - window <= i < |bars| && bars[i].low == r.0.value;
    assert bars[i].high <= r.1.value;
  }

  // ----- the portfolio -----

  datatype Holding = Holding(cost: real, shares: int, date: string)

  /** ticker -> its holdings, in the order they were added. */
  type Holdings = Dict<string, seq<Holding>>

  /** `str.upper()` on ASCII letters. */
  function UpperChar(c: char): char {
    if 'a' <= c <= 'z' then (c as int - 32) as char else c
  }

  function Upper(s: string): (r: string)
    ensures |r| == |s|
    ensures forall i :: 0 <= i < |s| ==> r[i] == UpperChar(s[i])
  {
    if s == [] then [] else [UpperChar(s[0])] + Upper(s[1..])
  }

  /** Upper-casing twice changes nothing more. */
  lemma UpperIdempotent(s: string)
    ensures Upper(Upper(s)) == Upper(s)
  {
    var u := Upper(s);
    assert forall i :: 0 <= i < |u| ==> UpperChar(u[i]) == u[i];
  }

  /** The holding list without its i-th entry: `list.pop(i)`. */
  function Without(list: seq<Holding>, i: nat): (r: seq<Holding>)
    requires i < |list|
    ensures |r| == |list| - 1
    ensures multiset(r) + multiset{list[i]} == multiset(list)
    ensures forall k :: 0 <= k < |r| ==> r[k] == if k < i then list[k] else list[k + 1]
  {
    assert list == list[..i] + [list[i]] + list[i + 1..];
    list[..i] + list[i + 1..]
  }

  /** The remove button of holding `i` of `ticker`. */
  function Removed(p: Holdings, ticker: string, i: nat): Holdings
    requires Get(p, ticker).Some? && i < |Get(p, ticker).value|
  {
    var rest := Without(Get(p, ticker).value, i);
    if rest == [] then Delete(p, ticker) else Put(p, ticker, rest)
  }

  /** Removing pops exactly holding `i`, drops the ticker exactly when that was its last
      holding, and leaves every other ticker alone. */
  lemma RemovedProperties(p: Holdings, ticker: string, i: nat, other: string)
    requires Get(p, ticker).Some? && i < |Get(p, ticker).value|
    requires other != ticker
    ensures Get(Removed(p, ticker, i), ticker).None? <==> |Get(p, ticker).value| == 1
    ensures |Get(p, ticker).value| > 1 ==>
              Get(Removed(p, ticker, i), ticker) == Some(Without(Get(p, ticker).value, i))
    ensures Get(Removed(p, ticker, i), other) == Get(p, other)
  {
    var rest := Without(Get(p, ticker).value, i);
    if rest == [] {
      DeleteOther(p, ticker, other);
    } else {
      PutOther(p, ticker, rest, other);
    }
  }

  /** The add form: the ticker is upper-cased, an empty one is ignored, and the holding is
      appended to the ticker's list, which is created when missing. */
  function Added(p: Holdings, ticker: string, h: Holding): Holdings {
    var t := Upper(ticker);
    if t == [] then p else Put(p, t, Get(p, t).GetOr([]) + [h])
  }

  /** Adding appends exactly one holding to the upper-cased ticker, adds that ticker at the
      end when it is new, and leaves every other ticker alone. */
  lemma AddedProperties(p: Holdings, ticker: string, h: Holding, other: string)
    requires other != Upper(ticker)
    ensures ticker == [] ==> Added(p, ticker, h) == p
    ensures ticker != [] ==> Get(Added(p, ticker, h), Upper(ticker)) == Some(Get(p, Upper(ticker)).GetOr([]) + [h])
    ensures ticker != [] ==>
              Keys(Added(p, ticker, h)) == (if Upper(ticker) in Keys(p) then Keys(p) else Keys(p) + [Upper(ticker)])
    ensures Get(Added(p, ticker, h), other) == Get(p, other)
  {
    var t := Upper(ticker);
    if t != [] {
      PutOther(p, t, Get(p, t).GetOr([]) + [h], other);
    }
  }

  /** The portfolio the page edits in place. */
  class Portfolio {
    var holdings: Holdings

    constructor(initial: Holdings)
      ensures holdings == initial
    {
      holdings := initial;
    }

    /** `portfolio[ticker].pop(i)`, then `del portfolio[ticker]` if the list is empty; the
        page only offers indices of holdings it lists. */
    method RemoveHolding(ticker: string, i: nat)
      requires Get(holdings, ticker).Some? && i < |Get(holdings, ticker).value|
      modifies this
      ensures holdings == Removed(old(holdings), ticker, i)
    {
      var list := Get(holdings, ticker).value;
      list := Without(list, i);
      ghost var before := holdings;
      holdings := Put(holdings, ticker, list);
      if list == [] {
        DeletePut(before, ticker, list);
        holdings := Delete(holdings, ticker);
      }
    }

    /** The add form's submit action. */
    method AddHolding(ticker: string, cost: real, shares: int, date: string)
      modifies this
      ensures holdings == Added(old(holdings), ticker, Holding(cost, shares, date))
    {
      var t := Upper(ticker);
      var h := Holding(cost, shares, date);
      if t != [] {
        ghost var before := holdings;
        if Get(holdings, t).None? {
          holdings := Put(holdings, t, []);
          assert Get(holdings, t).value + [h] == [h];
          PutPut(before, t, [], [h]);
        }
        var list := Get(holdings, t).value;
        assert list + [h] == Get(before, t).GetOr([]) + [h];
        holdings := Put(holdings, t, list + [h]);
      }
    }
  }
}
