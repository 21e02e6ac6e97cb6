/** The technical-indicator conditions shared by the two recommendation scorers
    (`get_ai_recommendations_internal` in stock_logic.py and the smart-pick stage of
    `PipelineSnapshot.run_full_sync` in app_v3.py). The indicator values themselves
    (pandas rolling means and RSI) are inputs. */
module Scoring {
  import opened Wrappers
  import opened BodyHigh

  /** MA5, MA20 and RSI on the latest row of a history frame; `None` is NaN. */
  datatype Indicators = Indicators(ma5: Option<real>, ma20: Option<real>, rsi: Option<real>)

  /** A fetched daily history: its bars and the indicators of its latest row. */
  datatype History = History(bars: seq<Bar>, latest: Indicators)

  const RsiLow: real := 55.0
  const RsiHigh: real := 80.0

  /** Points for moving-average alignment and for the RSI band. */
  const TrendPoints: int := 3
  const RsiPoints: int := 2

  /** `close > MA5 > MA20` as Python evaluates it: false when any of them is NaN. */
  predicate TrendAligned(close: Option<real>, ind: Indicators) {
    Gt(close, ind.ma5) && Gt(ind.ma5, ind.ma20)
  }

  /** `55 <= RSI <= 80`: false for a NaN RSI. */
  predicate RsiStrong(rsi: Option<real>) {
    rsi.Some? && RsiLow <= rsi.value <= RsiHigh
  }

  /** The close of the latest bar (the frame is non-empty wherever this is used). */
  function LatestClose(bars: seq<Bar>): Option<real>
    requires bars != []
  {
    bars[|bars| - 1].close
  }
}
