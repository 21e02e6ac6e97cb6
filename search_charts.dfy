/** static/search_charts.js: the simple moving average drawn over the candles and the two
    formatters of the institutional-trading table. The chart library and the page are not
    part of this model. */
module SearchCharts {
  import opened Wrappers

  /** The fields of a candle the average reads. */
  datatype Candle = Candle(time: string, close: real)

  /** One point of a moving-average line. */
  datatype Point = Point(time: string, value: real)

  /** The periods of the three lines the chart draws. */
  const Periods: seq<nat> := [5, 10, 20]

  /** `s.reduce((acc, d) => acc + d.close, 0)` */
  function SumCloses(s: seq<Candle>): real {
    if s == [] then 0.0 else s[0].close + SumCloses(s[1..])
  }

  lemma {:induction false} SumSnoc(s: seq<Candle>, c: Candle)
    ensures SumCloses(s + [c]) == SumCloses(s) + c.close
  {
    if s != [] {
      assert (s + [c])[1..] == s[1..] + [c];
      SumSnoc(s[1..], c);
    }
  }

  /** `calcSMA(data, n)`: one point per candle from the n-th on, stamped with that candle's
      time and valued at the mean close of the n candles ending there. The chart only calls
      it with the positive periods above. */
  method CalcSma(data: seq<Candle>, n: nat) returns (result: seq<Point>)
    requires n >= 1
    ensures |result| == if |data| >= n then |data| - n + 1 else 0
    ensures forall k :: 0 <= k < |result| ==>
              result[k].time == data[k + n - 1].time
              && result[k].value == SumCloses(data[k..k + n]) / (n as real)
  {
    result := [];
    var i := n - 1;
    while i < |data|
      invariant n - 1 <= i
      invariant i <= |data| ==> |result| == i - (n - 1)
      invariant i > |data| ==> i == n - 1 && result == []
      invariant forall k :: 0 <= k < |result| ==>
                  result[k].time == data[k + n - 1].time
                  && result[k].value == SumCloses(data[k..k + n]) / (n as real)
      decreases |data| - i
    {
      var sum := SumCloses(data[i - n + 1..i + 1]);
      result := result + [Point(data[i].time, sum / (n as real))];
      i := i + 1;
    }
  }

  /** The average of a flat series is that price. */
  lemma {:induction false} SumConstant(s: seq<Candle>, c: real)
    requires forall i :: 0 <= i < |s| ==> s[i].close == c
    ensures SumCloses(s) == (|s| as real) * c
  {
    if s != [] {
      SumConstant(s[1..], c);
    }
  }

  /** Consecutive averages differ by the close that enters the window minus the one that
      leaves it, divided by the period. */
  lemma SlidingWindow(data: seq<Candle>, n: nat, k: nat)
    requires n >= 1 && k + n < |data|
    ensures SumCloses(data[k + 1..k + n + 1]) == SumCloses(data[k..k + n]) - data[k].close + data[k + n].close
  {
    assert data[k..k + n] == [data[k]] + data[k + 1..k + n];
    assert data[k + 1..k + n + 1] == data[k + 1..k + n] + [data[k + n]];
    SumSnoc(data[k + 1..k + n], data[k + n]);
  }

  // ----- table formatting -----

  /** `Math.round`: the nearest integer, halves rounded up. */
  function JsRound(x: real): (r: int)
    ensures (r as real) - 0.5 <= x < (r as real) + 0.5
  {
    (x + 0.5).Floor
  }

  /** A lot-count cell: the dash for a missing value, else the number of lots. */
  datatype LotsCell = Dash | Lots(lots: int)

  /** `fmtLots(n)`, with `None` for `null` and `undefined`; the digit grouping of
      `toLocaleString` is not modelled. */
  function FmtLots(n: Option<real>): (c: LotsCell)
    ensures c.Dash? <==> n.None?
    ensures c.Lots? ==> (c.lots as real) * 1000.0 - 500.0 <= n.value < (c.lots as real) * 1000.0 + 500.0
  {
    if n.None? then Dash else Lots(JsRound(n.value / 1000.0))
  }

  /** A net-trade cell: red for net buying, green for net selling, a grey zero otherwise. */
  datatype NetCell = Red(lots: int) | Green(lots: int) | Grey

  /** `colorNet(n)`, with `None` for `null` and `undefined`, which `n || 0` turns into 0. */
  function ColorNet(n: Option<real>): (c: NetCell)
    ensures c.Red? ==> c.lots > 0
    ensures c.Green? ==> c.lots < 0
  {
    var v := JsRound(n.GetOr(0.0) / 1000.0);
    if v > 0 then Red(v) else if v < 0 then Green(v) else Grey
  }

  /** The colour follows the sign of the rounded number of lots: red from half a lot of
      net buying up, green below minus half a lot, grey between and for a missing value. */
  lemma ColorNetBands(n: Option<real>)
    ensures ColorNet(n).Red? <==> n.Some? && n.value >= 500.0
    ensures ColorNet(n).Green? <==> n.Some? && n.value < -500.0
    ensures ColorNet(n).Grey? <==> n.None? || -500.0 <= n.value < 500.0
    ensures ColorNet(None) == ColorNet(Some(0.0))
  {
    var x := n.GetOr(0.0) / 1000.0;
    var v := JsRound(x);
    assert x >= 0.5 ==> v >= 1;
    assert x < -0.5 ==> v <= -1;
    assert -0.5 <= x < 0.5 ==> v == 0;
  }
}
