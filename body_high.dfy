/** `calc_high_days` in its two near-duplicate forms (app_v3.py and stock_logic.py), and
    `run_tech_conditions` of app_v3.py: counts the consecutive sessions, walking back from
    the reference session, whose real-body top `max(open, close)` the reference close has
    not fallen below (within a tolerance of 0.001). */
module BodyHigh {
  import opened Wrappers

  /** One daily bar of a history frame; `None` is a NaN or missing cell. */
  datatype Bar = Bar(open: Option<real>, close: Option<real>)

  /** app_v3.py stops the walk at a missing or non-positive open or close;
      stock_logic.py has no such guard and uses Python's `max` on possibly-NaN values. */
  datatype Variant = AppV3 | StockLogic

  /** Rounding tolerance of the body-high comparison. */
  const Tolerance: real := 0.001

  /** Streaks of at least this many sessions get the stronger marker. */
  const FireStreak: nat := 3

  /** The label's icon: the stronger one for streaks of three or more. */
  datatype Marker = Fire | Rising

  /** The label string: empty for the early exits; otherwise the marker, the count and,
      in app_v3.py, the date of the reference session (here its index). */
  datatype Label = NoLabel | StreakLabel(marker: Marker, count: nat, refSession: Option<nat>)

  /** `(is_strong, label, count)` */
  datatype HighDays = HighDays(isStrong: bool, caption: Label, count: nat)

  /** The reference session and its close (`None` when that close is NaN). */
  datatype RefPoint = RefPoint(index: nat, price: Option<real>)

  function Max(a: real, b: real): real {
    if a >= b then a else b
  }

  /** Python's `max(a, b)`: `b` only when `b > a`; so a NaN `a` is returned,
      and a NaN `b` is never chosen. */
  function PyMax(a: Option<real>, b: Option<real>): Option<real> {
    if Gt(b, a) then b else a
  }

  /** The reference close is the latest one, or the second-latest when the latest is
      NaN or non-positive and there are at least three sessions. */
  function Reference(bars: seq<Bar>): (rp: Option<RefPoint>)
    ensures rp.Some? ==> 1 <= rp.value.index < |bars| && rp.value.price == bars[rp.value.index].close
    ensures rp.None? <==> |bars| < 2 || (|bars| < 3 && !Gt(bars[|bars| - 1].close, Some(0.0)))
  {
    if |bars| < 2 then None
    else if !Gt(bars[|bars| - 1].close, Some(0.0)) then
      if |bars| < 3 then None else Some(RefPoint(|bars| - 2, bars[|bars| - 2].close))
    else Some(RefPoint(|bars| - 1, bars[|bars| - 1].close))
  }

  /** The test one earlier session must pass to extend the streak. */
  predicate Holds(b: Bar, ref: Option<real>, v: Variant) {
    match v
    case AppV3 =>
      b.open.Some? && b.close.Some? && b.open.value > 0.0 && b.close.value > 0.0
      && ref.Some? && ref.value >= Max(b.open.value, b.close.value) - Tolerance
    case StockLogic =>
      var h := PyMax(b.open, b.close);
      h.Some? && ref.Some? && ref.value >= h.value - Tolerance
  }

  /** The number of consecutive sessions ending just before `hi` that pass the test. */
  function Streak(bars: seq<Bar>, hi: nat, ref: Option<real>, v: Variant): (c: nat)
    requires hi <= |bars|
    ensures c <= hi
    ensures forall j :: hi - c <= j < hi ==> Holds(bars[j], ref, v)
    ensures c < hi ==> !Holds(bars[hi - c - 1], ref, v)
    decreases hi
  {
    if hi == 0 then 0
    else if Holds(bars[hi - 1], ref, v) then 1 + Streak(bars, hi - 1, ref, v)
    else 0
  }

  /** The whole result of `calc_high_days`. */
  function HighDaysOf(bars: seq<Bar>, v: Variant): HighDays {
    match Reference(bars)
    case None => HighDays(false, NoLabel, 0)
    case Some(rp) =>
      var c := Streak(bars, rp.index, rp.price, v);
      HighDays(c >= 1,
               StreakLabel(if c >= FireStreak then Fire else Rising, c,
                           if v == AppV3 then Some(rp.index) else None),
               c)
  }

  /** A run of passing sessions bounded by a failing one (or by the start) is exactly the streak. */
  lemma {:induction false} StreakExact(bars: seq<Bar>, lo: nat, hi: nat, ref: Option<real>, v: Variant)
    requires lo <= hi <= |bars|
    requires forall j :: lo <= j < hi ==> Holds(bars[j], ref, v)
    requires lo == 0 || !Holds(bars[lo - 1], ref, v)
    ensures Streak(bars, hi, ref, v) == hi - lo
    decreases hi
  {
    if hi > lo {
      StreakExact(bars, lo, hi - 1, ref, v);
    }
  }

  /** When every earlier session passes, the streak reaches back to the first session
      (e.g. a series of strictly increasing closes whose opens equal their closes). */
  lemma AllPassStreak(bars: seq<Bar>, hi: nat, ref: Option<real>, v: Variant)
    requires hi <= |bars|
    requires forall j :: 0 <= j < hi ==> Holds(bars[j], ref, v)
    ensures Streak(bars, hi, ref, v) == hi
  {
    StreakExact(bars, 0, hi, ref, v);
  }

  /** With app_v3.py's guard, a counted session never has a non-positive or NaN open or close. */
  lemma {:induction false} GuardedStreakPositive(bars: seq<Bar>, hi: nat, ref: Option<real>, j: nat)
    requires hi <= |bars|
    requires hi - Streak(bars, hi, ref, AppV3) <= j < hi
    ensures bars[j].open.Some? && bars[j].open.value > 0.0
    ensures bars[j].close.Some? && bars[j].close.value > 0.0
  {
    assert Holds(bars[j], ref, AppV3);
  }

  /** The two variants agree on sessions whose open and close are present and positive;
      stock_logic.py may count further past a non-positive session. */
  lemma {:induction false} VariantsAgreeOnPositive(bars: seq<Bar>, hi: nat, ref: Option<real>)
    requires hi <= |bars|
    requires forall j :: 0 <= j < hi ==> bars[j].open.Some? && bars[j].close.Some?
                                         && bars[j].open.value > 0.0 && bars[j].close.value > 0.0
    ensures Streak(bars, hi, ref, AppV3) == Streak(bars, hi, ref, StockLogic)
    decreases hi
  {
    if hi > 0 {
      VariantsAgreeOnPositive(bars, hi - 1, ref);
      var b := bars[hi - 1];
      assert PyMax(b.open, b.close) == Some(Max(b.open.value, b.close.value));
    }
  }

  /** The scenario closes 10, 10.5, 11, 11.5, 12 with opens equal to closes: streak 4. */
  lemma RisingSeriesStreak()
    ensures HighDaysOf([Bar(Some(10.0), Some(10.0)), Bar(Some(10.5), Some(10.5)), Bar(Some(11.0), Some(11.0)),
                        Bar(Some(11.5), Some(11.5)), Bar(Some(12.0), Some(12.0))], AppV3)
         == HighDays(true, StreakLabel(Fire, 4, Some(4)), 4)
  {
    var bars := [Bar(Some(10.0), Some(10.0)), Bar(Some(10.5), Some(10.5)), Bar(Some(11.0), Some(11.0)),
                 Bar(Some(11.5), Some(11.5)), Bar(Some(12.0), Some(12.0))];
    assert Reference(bars) == Some(RefPoint(4, Some(12.0)));
    AllPassStreak(bars, 4, Some(12.0), AppV3);
  }

  /** The backward walk of `calc_high_days` from the session before the reference one. */
  method CountStreak(bars: seq<Bar>, lastIdx: nat, refPrice: Option<real>, v: Variant) returns (count: nat)
    requires lastIdx < |bars|
    ensures count == Streak(bars, lastIdx, refPrice, v)
  {
    count := 0;
    var i := lastIdx;
    while i > 0
      invariant 0 <= i <= lastIdx
      invariant count == lastIdx - i
      invariant forall j :: i <= j < lastIdx ==> Holds(bars[j], refPrice, v)
    {
      var row := bars[i - 1];
      if v == AppV3 {
        if row.open.None? || row.close.None? || row.open.value <= 0.0 || row.close.value <= 0.0 {
          StreakExact(bars, i, lastIdx, refPrice, v);
          break;
        }
        var bodyHigh := Max(row.open.value, row.close.value);
        if refPrice.Some? && refPrice.value >= bodyHigh - Tolerance {
          count := count + 1;
        } else {
          StreakExact(bars, i, lastIdx, refPrice, v);
          break;
        }
      } else {
        var pHigh := PyMax(row.open, row.close);
        if pHigh.Some? && refPrice.Some? && refPrice.value >= pHigh.value - Tolerance {
          count := count + 1;
        } else {
          StreakExact(bars, i, lastIdx, refPrice, v);
          break;
        }
      }
      i := i - 1;
    }
    if i == 0 {
      StreakExact(bars, 0, lastIdx, refPrice, v);
    }
  }

  /** `calc_high_days(hist)`. */
  method CalcHighDays(bars: seq<Bar>, v: Variant) returns (r: HighDays)
    ensures r == HighDaysOf(bars, v)
    ensures |bars| < 2 ==> r == HighDays(false, NoLabel, 0)
    ensures |bars| == 2 && !Gt(bars[1].close, Some(0.0)) ==> r == HighDays(false, NoLabel, 0)
    ensures r.isStrong <==> r.count >= 1
    ensures r.caption.StreakLabel? ==> r.caption.count == r.count && (r.caption.marker == Fire <==> r.count >= 3)
    ensures r.count <= if |bars| < 2 then 0 else |bars| - 1
  {
    if |bars| < 2 {
      return HighDays(false, NoLabel, 0);
    }
    var lastIdx := |bars| - 1;
    var refPrice := bars[lastIdx].close;
    if refPrice.None? || refPrice.value <= 0.0 {
      if |bars| < 3 {
        return HighDays(false, NoLabel, 0);
      }
      lastIdx := |bars| - 2;
      refPrice := bars[lastIdx].close;
    }
    assert Reference(bars) == Some(RefPoint(lastIdx, refPrice));
    var count := CountStreak(bars, lastIdx, refPrice, v);
    var isStrong := count >= 1;
    var marker := if count >= FireStreak then Fire else Rising;
    r := HighDays(isStrong, StreakLabel(marker, count, if v == AppV3 then Some(lastIdx) else None), count);
  }

  /** The entries of app_v3.py's `TECH_CONDITIONS` list; it holds `calc_high_days` only. */
  datatype TechCondition = BodyHighStreak

  const TechConditions: seq<TechCondition> := [BodyHighStreak]

  function Evaluate(cond: TechCondition, bars: seq<Bar>): HighDays {
    match cond
    case BodyHighStreak => HighDaysOf(bars, AppV3)
  }

  /** Whether every condition of `conds` passes. */
  predicate AllPass(conds: seq<TechCondition>, bars: seq<Bar>) {
    forall k :: 0 <= k < |conds| ==> Evaluate(conds[k], bars).isStrong
  }

  /** The labels of the passing conditions, in list order. */
  function PassedLabels(conds: seq<TechCondition>, bars: seq<Bar>): seq<Label> {
    if conds == [] then []
    else
      var last := Evaluate(conds[|conds| - 1], bars);
      PassedLabels(conds[..|conds| - 1], bars) + (if last.isStrong then [last.caption] else [])
  }

  /** The sum of the scores of the passing conditions. */
  function PassedScore(conds: seq<TechCondition>, bars: seq<Bar>): int {
    if conds == [] then 0
    else
      var last := Evaluate(conds[|conds| - 1], bars);
      PassedScore(conds[..|conds| - 1], bars) + (if last.isStrong then last.count else 0)
  }

  /** `run_tech_conditions(hist)`: `(passed, reasons, score)` over `TECH_CONDITIONS`. */
  method RunTechConditions(bars: seq<Bar>) returns (allOk: bool, reasons: seq<Label>, totalScore: int)
    ensures allOk == HighDaysOf(bars, AppV3).isStrong
    ensures reasons == if allOk then [HighDaysOf(bars, AppV3).caption] else []
    ensures totalScore == if allOk then HighDaysOf(bars, AppV3).count else 0
  {
    reasons := [];
    totalScore := 0;
    allOk := true;
    for k := 0 to |TechConditions|
      invariant allOk == AllPass(TechConditions[..k], bars)
      invariant reasons == PassedLabels(TechConditions[..k], bars)
      invariant totalScore == PassedScore(TechConditions[..k], bars)
    {
      assert TechConditions[..k + 1][..k] == TechConditions[..k];
      var ok: bool, caption: Label, score: nat;
      match TechConditions[k]
      case BodyHighStreak =>
        var hd := CalcHighDays(bars, AppV3);
        ok, caption, score := hd.isStrong, hd.caption, hd.count;
      if ok {
        reasons := reasons + [caption];
        totalScore := totalScore + score;
      } else {
        allOk := false;
      }
    }
    assert TechConditions[..1] == TechConditions;
  }
}
