/** stock_logic.py: its own copy of `filter_and_rank_stocks` and of `calc_high_days`
    (the `StockLogic` variant in module BodyHigh), and the alpha, top-30 and additive
    score of `get_ai_recommendations_internal`. */
module StockLogic {
  import opened Wrappers
  import opened Ordering
  import opened Stocks
  import opened Screening
  import opened BodyHigh
  import opened Scoring

  /** A stock is recommended when its score reaches this. */
  const ScoreThreshold: int := 5
  /** Only this many candidates, by alpha, are scored. */
  const CandidateCap: nat := 30
  /** Histories shorter than this are skipped. */
  const MinHistoryRows: nat := 25
  /** Every scored stock starts with these points. */
  const BasePoints: int := 2

  const DatabaseMissing: string := "database missing"

  /** The dictionary `filter_and_rank_stocks` returns: an error, or the four lists. */
  datatype FilterResult =
    | Failure(error: string)
    | Ranked(listed: seq<StockRecord>, otc: seq<StockRecord>,
             listedAll: seq<StockRecord>, otcAll: seq<StockRecord>, updateTime: string)

  /** Under `gap_up_only`, the derived previous close is computed for in-bounds records
      that carry `open`; a change of exactly -100% raises there. */
  predicate OpenGapComputable(stocks: seq<StockRecord>, c: Criteria) {
    forall i :: 0 <= i < |stocks| && InBounds(stocks[i], c) && stocks[i].open.Some?
      ==> PrevCloseDefined(stocks[i].changePct)
  }

  /** The four lists as this file builds them: the outperformer lists filter the whole
      filtered set by market and change in one comprehension. */
  function RankedOf(db: Database, filtered: seq<StockRecord>, taiexChange: real, otcChange: real): (r: FilterResult)
    ensures r.Ranked?
    ensures forall s :: s in r.listed <==> s in filtered && s.market == Listed && s.changePct > taiexChange
    ensures forall s :: s in r.otc <==> s in filtered && s.market == Otc && s.changePct > otcChange
    ensures SortedDesc(r.listed, ChangeKey) && SortedDesc(r.otc, ChangeKey)
  {
    var listedOut := Select(filtered, Both(IsListed, Beats(taiexChange)));
    var otcOut := Select(filtered, Both(IsOtc, Beats(otcChange)));
    OutperformersRanked(filtered, IsListed, Listed, taiexChange);
    OutperformersRanked(filtered, IsOtc, Otc, otcChange);
    Ranked(SortDesc(listedOut, ChangeKey), SortDesc(otcOut, ChangeKey),
           SortDesc(Select(filtered, IsListed), ChangeKey), SortDesc(Select(filtered, IsOtc), ChangeKey),
           db.updateTime.GetOr("Unknown"))
  }

  /** One market's outperformer list: sorted, and holding exactly the filtered records of
      that market that beat its index. */
  lemma OutperformersRanked(filtered: seq<StockRecord>, onMarket: StockRecord -> bool, m: Market, bench: real)
    requires forall s :: onMarket(s) <==> s.market == m
    ensures SortedDesc(SortDesc(Select(filtered, Both(onMarket, Beats(bench))), ChangeKey), ChangeKey)
    ensures forall s :: s in SortDesc(Select(filtered, Both(onMarket, Beats(bench))), ChangeKey)
                        <==> s in filtered && s.market == m && s.changePct > bench
  {
    var p := Both(onMarket, Beats(bench));
    SortDescSorted(Select(filtered, p), ChangeKey);
    forall s ensures s in SortDesc(Select(filtered, p), ChangeKey) <==> s in filtered && s.market == m && s.changePct > bench {
      SortedSelectionMembers(filtered, p, ChangeKey, s);
    }
  }

  /** The whole of this file's `filter_and_rank_stocks`. */
  function FilterRankOf(db: Option<Database>, c: Criteria, gapUpOnly: bool, taiexChange: real, otcChange: real): FilterResult
  {
    if db.None? then Failure(DatabaseMissing)
    else RankedOf(db.value, BaseFilter(db.value.stocks, c, gapUpOnly), taiexChange, otcChange)
  }

  /** This copy and app_v3.py's copy produce the same four lists from the same filtered set. */
  lemma {:induction false} AgreesWithAppV3(db: Database, filtered: seq<StockRecord>, taiexChange: real, otcChange: real)
    ensures var a := RankedOf(db, filtered, taiexChange, otcChange);
            var b := Screening.Ranked(db, filtered, taiexChange, otcChange);
            a.listed == b.listed && a.otc == b.otc && a.listedAll == b.listedAll && a.otcAll == b.otcAll
            && Some(a.updateTime) == b.stats.updateTime
  {
    SelectSelect(filtered, IsListed, Beats(taiexChange));
    SelectSelect(filtered, IsOtc, Beats(otcChange));
  }

  /** The loop body of this file's `filter_and_rank_stocks`: here `open` is checked before
      the previous close is derived, so a record without `open` never reaches the division. */
  method KeepStock(stock: StockRecord, c: Criteria, gapUpOnly: bool) returns (keep: bool)
    requires gapUpOnly && InBounds(stock, c) && stock.open.Some? ==> PrevCloseDefined(stock.changePct)
    ensures keep == Keeps(stock, c, gapUpOnly)
  {
    keep := false;
    var minVolumeShares := c.minVolumeLots * LotSize;
    if c.minPrice <= stock.price <= c.maxPrice {
      if stock.marketCap >= c.minMarketCap {
        if stock.volume as real >= minVolumeShares {
          if gapUpOnly && stock.open.Some? {
            var prevClose := DerivedPrevClose(stock.price, stock.changePct);
            if stock.open.value > prevClose {
              keep := true;
            }
          } else if !gapUpOnly {
            keep := true;
          }
        }
      }
    }
  }

  /** The filter loop of this file's `filter_and_rank_stocks`. */
  method CollectStocks(allStocks: seq<StockRecord>, c: Criteria, gapUpOnly: bool) returns (filtered: seq<StockRecord>)
    requires gapUpOnly ==> OpenGapComputable(allStocks, c)
    ensures filtered == BaseFilter(allStocks, c, gapUpOnly)
  {
    var p := KeepPredicate(c, gapUpOnly);
    filtered := [];
    var i := 0;
    while i < |allStocks|
      invariant 0 <= i <= |allStocks|
      invariant filtered == Select(allStocks[..i], p)
    {
      var stock := allStocks[i];
      SelectPrefixStep(allStocks, i, p);
      var keep := KeepStock(stock, c, gapUpOnly);
      if keep {
        filtered := filtered + [stock];
      }
      i := i + 1;
    }
    assert allStocks[..i] == allStocks;
  }

  /** `filter_and_rank_stocks` of stock_logic.py. */
  method FilterAndRank(db: Option<Database>, c: Criteria, gapUpOnly: bool, taiexChange: real, otcChange: real)
    returns (r: FilterResult)
    requires db.Some? && gapUpOnly ==> OpenGapComputable(db.value.stocks, c)
    ensures r == FilterRankOf(db, c, gapUpOnly, taiexChange, otcChange)
    ensures db.None? <==> r.Failure?
  {
    if db.None? {
      return Failure(DatabaseMissing);
    }
    var filtered := CollectStocks(db.value.stocks, c, gapUpOnly);
    r := RankedOf(db.value, filtered, taiexChange, otcChange);
  }

  /** A candidate with the `alpha` field the source writes into its dictionary. */
  datatype Candidate = Candidate(stock: StockRecord, alpha: real)

  function AlphaKey(c: Candidate): real { c.alpha }

  /** `change_pct - idx_chg`, the index being TAIEX for LISTED and the OTC index otherwise. */
  function AlphaOf(s: StockRecord, taiexChange: real, otcChange: real): real {
    s.changePct - IndexChange(s.market, taiexChange, otcChange)
  }

  function WithAlpha(stocks: seq<StockRecord>, taiexChange: real, otcChange: real): seq<Candidate> {
    seq(|stocks|, i requires 0 <= i < |stocks| => Candidate(stocks[i], AlphaOf(stocks[i], taiexChange, otcChange)))
  }

  /** The loop that sets `s['alpha']` on every candidate. */
  method AssignAlpha(stocks: seq<StockRecord>, taiexChange: real, otcChange: real) returns (r: seq<Candidate>)
    ensures r == WithAlpha(stocks, taiexChange, otcChange)
  {
    r := [];
    for k := 0 to |stocks|
      invariant r == WithAlpha(stocks[..k], taiexChange, otcChange)
    {
      var s := stocks[k];
      var idxChg := if s.market == Listed then taiexChange else otcChange;
      r := r + [Candidate(s, s.changePct - idxChg)];
    }
    assert stocks[..|stocks|] == stocks;
  }

  /** Outperformers carry a strictly positive alpha. */
  lemma OutperformerAlphaPositive(db: Database, filtered: seq<StockRecord>, taiexChange: real, otcChange: real)
    ensures var b := RankedOf(db, filtered, taiexChange, otcChange);
            forall c :: c in WithAlpha(b.listed + b.otc, taiexChange, otcChange) ==> c.alpha > 0.0
  {
    var b := RankedOf(db, filtered, taiexChange, otcChange);
    var xs := b.listed + b.otc;
    forall s | s in xs ensures AlphaOf(s, taiexChange, otcChange) > 0.0 {
      assert s in b.listed || s in b.otc;
    }
    AlphaPositiveOf(xs, taiexChange, otcChange);
  }

  /** Records that each beat their own index get positive alphas. */
  lemma AlphaPositiveOf(xs: seq<StockRecord>, taiexChange: real, otcChange: real)
    requires forall s :: s in xs ==> AlphaOf(s, taiexChange, otcChange) > 0.0
    ensures forall c :: c in WithAlpha(xs, taiexChange, otcChange) ==> c.alpha > 0.0
  {
    var w := WithAlpha(xs, taiexChange, otcChange);
    forall c | c in w ensures c.alpha > 0.0 {
      var i :| 0 <= i < |w| && w[i] == c;
      assert xs[i] in xs;
    }
  }

  /** The 30 candidates with the highest alpha, in descending order (stable). */
  function TopCandidates(listed: seq<StockRecord>, otc: seq<StockRecord>, taiexChange: real, otcChange: real): seq<Candidate> {
    Take(SortDesc(WithAlpha(listed + otc, taiexChange, otcChange), AlphaKey), CandidateCap)
  }

  /** Every scored candidate has an alpha at least that of every candidate cut off. */
  lemma TopCandidatesOutrankRest(listed: seq<StockRecord>, otc: seq<StockRecord>, taiexChange: real, otcChange: real,
                                 i: int, j: int)
    requires var all := WithAlpha(listed + otc, taiexChange, otcChange);
             0 <= i < |TopCandidates(listed, otc, taiexChange, otcChange)| <= j < |all|
    ensures TopCandidates(listed, otc, taiexChange, otcChange)[i].alpha
         >= SortDesc(WithAlpha(listed + otc, taiexChange, otcChange), AlphaKey)[j].alpha
  {
    TopKOutranksRest(WithAlpha(listed + otc, taiexChange, otcChange), AlphaKey, CandidateCap, i, j);
  }

  /** The reasons list entries. */
  datatype AiReason = AlphaStatement(alpha: real) | StrongRun(days: nat) | TurningUp(days: nat)
                    | MovingAveragesBullish | RsiStrongBand

  /** A recommended stock: the candidate with its reasons, score and latest close. */
  datatype Recommendation = Recommendation(stock: StockRecord, alpha: real, reasons: seq<AiReason>, score: int, price: Option<real>)

  function ScoreKey(r: Recommendation): real { r.score as real }

  function StreakPoints(count: nat): int {
    if count >= FireStreak then 5 else if count >= 1 then 2 else 0
  }

  /** The additive score. */
  function AiScore(count: nat, close: Option<real>, ind: Indicators): (score: int)
    ensures BasePoints <= score <= BasePoints + 5 + TrendPoints + RsiPoints
    ensures score >= ScoreThreshold
        <==> count >= FireStreak || TrendAligned(close, ind) || (count >= 1 && RsiStrong(ind.rsi))
  {
    BasePoints + StreakPoints(count)
    + (if TrendAligned(close, ind) then TrendPoints else 0)
    + (if RsiStrong(ind.rsi) then RsiPoints else 0)
  }

  function AiReasons(alpha: real, count: nat, close: Option<real>, ind: Indicators): seq<AiReason> {
    [AlphaStatement(alpha)]
    + (if count >= FireStreak then [StrongRun(count)] else if count >= 1 then [TurningUp(count)] else [])
    + (if TrendAligned(close, ind) then [MovingAveragesBullish] else [])
    + (if RsiStrong(ind.rsi) then [RsiStrongBand] else [])
  }

  /** One candidate: skipped when its history is missing or short, or when it scores too low. */
  function Assess(c: Candidate, histories: map<string, History>): Option<Recommendation> {
    var sym := SymbolOf(c.stock.code, c.stock.market);
    if sym !in histories || |histories[sym].bars| < MinHistoryRows then None
    else
      var h := histories[sym];
      var count := HighDaysOf(h.bars, BodyHigh.StockLogic).count;
      var close := LatestClose(h.bars);
      var score := AiScore(count, close, h.latest);
      if score >= ScoreThreshold then Some(Recommendation(c.stock, c.alpha, AiReasons(c.alpha, count, close, h.latest), score, close))
      else None
  }

  function AssessAll(cs: seq<Candidate>, histories: map<string, History>): seq<Recommendation> {
    if cs == [] then []
    else
      var last := Assess(cs[|cs| - 1], histories);
      AssessAll(cs[..|cs| - 1], histories) + (if last.Some? then [last.value] else [])
  }

  datatype AiResult = AiFailure(error: string) | Recommendations(recs: seq<Recommendation>)

  /** The whole of `get_ai_recommendations_internal`, with the two index quotes and the
      fetched histories (keyed by ticker symbol) as inputs. */
  function AiRecommendations(db: Option<Database>, minPrice: real, maxPrice: real, minVolume: real,
                             taiexChange: real, otcChange: real, histories: map<string, History>): AiResult
  {
    match FilterRankOf(db, Criteria(minPrice, maxPrice, 0.0, minVolume), false, taiexChange, otcChange)
    case Failure(e) => AiFailure(e)
    case Ranked(listed, otc, _, _, _) =>
      Recommendations(SortDesc(AssessAll(TopCandidates(listed, otc, taiexChange, otcChange), histories), ScoreKey))
  }

  /** What every recommendation satisfies: its ticker has a history of at least 25 rows,
      and its score, reasons and price are the ones that history gives, the score at
      least 5 and the reasons led by the alpha statement. */
  predicate WellFormed(r: Recommendation, histories: map<string, History>) {
    var sym := SymbolOf(r.stock.code, r.stock.market);
    sym in histories && |histories[sym].bars| >= MinHistoryRows
    && var h := histories[sym];
       var count := HighDaysOf(h.bars, BodyHigh.StockLogic).count;
       r.score == AiScore(count, LatestClose(h.bars), h.latest)
       && r.reasons == AiReasons(r.alpha, count, LatestClose(h.bars), h.latest)
       && r.price == LatestClose(h.bars)
       && r.score >= ScoreThreshold
       && |r.reasons| >= 1 && r.reasons[0] == AlphaStatement(r.alpha)
  }

  /** A candidate whose ticker has at least 25 rows of history and scores at least 5. */
  predicate Qualifies(c: Candidate, histories: map<string, History>) {
    var sym := SymbolOf(c.stock.code, c.stock.market);
    sym in histories && |histories[sym].bars| >= MinHistoryRows
    && AiScore(HighDaysOf(histories[sym].bars, BodyHigh.StockLogic).count,
               LatestClose(histories[sym].bars), histories[sym].latest) >= ScoreThreshold
  }

  /** A candidate is recommended exactly when it qualifies, and then as a well-formed
      recommendation of that stock and alpha. */
  lemma AssessExact(c: Candidate, histories: map<string, History>)
    ensures Assess(c, histories).Some? <==> Qualifies(c, histories)
    ensures Assess(c, histories).Some? ==>
              var x := Assess(c, histories).value;
              WellFormed(x, histories) && x.stock == c.stock && x.alpha == c.alpha
  {
  }

  /** Every qualifying candidate's recommendation is kept by the loop. */
  lemma {:induction false} AssessAllComplete(cs: seq<Candidate>, histories: map<string, History>, c: Candidate)
    requires c in cs && Qualifies(c, histories)
    ensures Assess(c, histories).Some? && Assess(c, histories).value in AssessAll(cs, histories)
  {
    var k := |cs| - 1;
    var init := cs[..k];
    if cs[k] != c {
      var i :| 0 <= i < |cs| && cs[i] == c;
      assert init[i] == c;
      AssessAllComplete(init, histories, c);
    }
  }

  lemma {:induction false} AssessAllWellFormed(cs: seq<Candidate>, histories: map<string, History>)
    ensures |AssessAll(cs, histories)| <= |cs|
    ensures forall r :: r in AssessAll(cs, histories) ==> WellFormed(r, histories)
    ensures forall r :: r in AssessAll(cs, histories) ==> Candidate(r.stock, r.alpha) in cs
  {
    if cs != [] {
      var init := cs[..|cs| - 1];
      AssessAllWellFormed(init, histories);
      forall c | c in init ensures c in cs {
        var k :| 0 <= k < |init| && init[k] == c;
        assert cs[k] == c;
      }
    }
  }

  /** The result is an error exactly when the database is missing, the error is passed on
      unchanged; otherwise at most 30 recommendations, in descending score order, each
      scoring at least 5, starting with its alpha statement, drawn from the top candidates,
      and with a history of at least 25 rows. */
  lemma AiRecommendationsSound(db: Option<Database>, minPrice: real, maxPrice: real, minVolume: real,
                               taiexChange: real, otcChange: real, histories: map<string, History>)
    ensures var r := AiRecommendations(db, minPrice, maxPrice, minVolume, taiexChange, otcChange, histories);
            (r.AiFailure? <==> db.None?) && (r.AiFailure? ==> r.error == DatabaseMissing)
    ensures var r := AiRecommendations(db, minPrice, maxPrice, minVolume, taiexChange, otcChange, histories);
            r.Recommendations? ==>
              |r.recs| <= CandidateCap
              && SortedDesc(r.recs, ScoreKey)
              && forall x :: x in r.recs ==> WellFormed(x, histories) && x.alpha > 0.0
  {
    if db.Some? {
      var c := Criteria(minPrice, maxPrice, 0.0, minVolume);
      var b := FilterRankOf(db, c, false, taiexChange, otcChange);
      OutperformerAlphaPositive(db.value, BaseFilter(db.value.stocks, c, false), taiexChange, otcChange);
      RecommendationsOf(b.listed, b.otc, taiexChange, otcChange, histories);
    }
  }

  /** Every top candidate that qualifies appears among the recommendations, with the
      score, reasons and price its history gives. */
  lemma AiRecommendationsComplete(db: Option<Database>, minPrice: real, maxPrice: real, minVolume: real,
                                  taiexChange: real, otcChange: real, histories: map<string, History>, c: Candidate)
    ensures var b := FilterRankOf(db, Criteria(minPrice, maxPrice, 0.0, minVolume), false, taiexChange, otcChange);
            var r := AiRecommendations(db, minPrice, maxPrice, minVolume, taiexChange, otcChange, histories);
            b.Ranked? && c in TopCandidates(b.listed, b.otc, taiexChange, otcChange) && Qualifies(c, histories) ==>
              r.Recommendations?
              && exists x :: x in r.recs && x.stock == c.stock && x.alpha == c.alpha && WellFormed(x, histories)
  {
    var b := FilterRankOf(db, Criteria(minPrice, maxPrice, 0.0, minVolume), false, taiexChange, otcChange);
    if b.Ranked? && c in TopCandidates(b.listed, b.otc, taiexChange, otcChange) && Qualifies(c, histories) {
      AiRecommendationsRanked(db, minPrice, maxPrice, minVolume, taiexChange, otcChange, histories);
      var x := RecommendedOf(b.listed, b.otc, taiexChange, otcChange, histories, c);
    }
  }

  /** With a database, the recommendations are the sorted assessments of the top candidates. */
  lemma AiRecommendationsRanked(db: Option<Database>, minPrice: real, maxPrice: real, minVolume: real,
                                taiexChange: real, otcChange: real, histories: map<string, History>)
    ensures var b := FilterRankOf(db, Criteria(minPrice, maxPrice, 0.0, minVolume), false, taiexChange, otcChange);
            b.Ranked? ==>
              AiRecommendations(db, minPrice, maxPrice, minVolume, taiexChange, otcChange, histories)
              == Recommendations(SortDesc(AssessAll(TopCandidates(b.listed, b.otc, taiexChange, otcChange), histories), ScoreKey))
  {
  }

  /** The recommendation a qualifying top candidate contributes survives the sort. */
  lemma RecommendedOf(listed: seq<StockRecord>, otc: seq<StockRecord>, taiexChange: real, otcChange: real,
                      histories: map<string, History>, c: Candidate) returns (x: Recommendation)
    requires c in TopCandidates(listed, otc, taiexChange, otcChange) && Qualifies(c, histories)
    ensures x in SortDesc(AssessAll(TopCandidates(listed, otc, taiexChange, otcChange), histories), ScoreKey)
    ensures x.stock == c.stock && x.alpha == c.alpha && WellFormed(x, histories)
  {
    var top := TopCandidates(listed, otc, taiexChange, otcChange);
    AssessAllComplete(top, histories, c);
    AssessExact(c, histories);
    x := Assess(c, histories).value;
    SortDescHas(AssessAll(top, histories), ScoreKey, x);
  }

  /** The assessment and sort steps on the outperformers: at most 30 results, by descending
      score, each well formed and with the positive alpha of a candidate it came from. */
  lemma RecommendationsOf(listed: seq<StockRecord>, otc: seq<StockRecord>, taiexChange: real, otcChange: real,
                          histories: map<string, History>)
    requires forall c :: c in WithAlpha(listed + otc, taiexChange, otcChange) ==> c.alpha > 0.0
    ensures var recs := SortDesc(AssessAll(TopCandidates(listed, otc, taiexChange, otcChange), histories), ScoreKey);
            |recs| <= CandidateCap
            && SortedDesc(recs, ScoreKey)
            && forall x :: x in recs ==> WellFormed(x, histories) && x.alpha > 0.0
  {
    var top := TopCandidates(listed, otc, taiexChange, otcChange);
    var all := WithAlpha(listed + otc, taiexChange, otcChange);
    var assessed := AssessAll(top, histories);
    var recs := SortDesc(assessed, ScoreKey);
    AssessAllWellFormed(top, histories);
    SortDescSorted(assessed, ScoreKey);
    forall x | x in recs ensures WellFormed(x, histories) && x.alpha > 0.0 {
      assert x in multiset(assessed);
      var cand := Candidate(x.stock, x.alpha);
      assert cand in top;
      var k :| 0 <= k < |top| && top[k] == cand;
      assert top[k] in multiset(SortDesc(all, AlphaKey));
    }
  }

  /** The scoring block of the candidate loop: the streak, moving-average and RSI points. */
  method ScoreHistory(alpha: real, hist: History) returns (score: int, reasons: seq<AiReason>)
    requires hist.bars != []
    ensures var count := HighDaysOf(hist.bars, BodyHigh.StockLogic).count;
            score == AiScore(count, LatestClose(hist.bars), hist.latest)
            && reasons == AiReasons(alpha, count, LatestClose(hist.bars), hist.latest)
  {
    var latest := LatestClose(hist.bars);
    var hd := CalcHighDays(hist.bars, BodyHigh.StockLogic);
    var count := hd.count;
    score := BasePoints;
    reasons := [AlphaStatement(alpha)];
    if count >= FireStreak {
      score := score + 5;
      reasons := reasons + [StrongRun(count)];
    } else if count >= 1 {
      score := score + 2;
      reasons := reasons + [TurningUp(count)];
    }
    if TrendAligned(latest, hist.latest) {
      score := score + TrendPoints;
      reasons := reasons + [MovingAveragesBullish];
    }
    if RsiStrong(hist.latest.rsi) {
      score := score + RsiPoints;
      reasons := reasons + [RsiStrongBand];
    }
  }

  /** The loop over the top candidates: fetch, skip, score, keep. */
  method AssessCandidates(top: seq<Candidate>, histories: map<string, History>) returns (recommends: seq<Recommendation>)
    ensures recommends == AssessAll(top, histories)
  {
    recommends := [];
    for k := 0 to |top|
      invariant recommends == AssessAll(top[..k], histories)
    {
      assert top[..k + 1][..k] == top[..k];
      var stock := top[k];
      var symbol := SymbolOf(stock.stock.code, stock.stock.market);
      if symbol !in histories {
        continue;
      }
      var hist := histories[symbol];
      if |hist.bars| < MinHistoryRows {
        continue;
      }
      var latest := LatestClose(hist.bars);
      var score, reasons := ScoreHistory(stock.alpha, hist);
      if score >= ScoreThreshold {
        recommends := recommends + [Recommendation(stock.stock, stock.alpha, reasons, score, latest)];
      }
    }
    assert top[..|top|] == top;
  }

  /** `get_ai_recommendations_internal(min_price, max_price, min_volume)`. */
  method GetAiRecommendations(db: Option<Database>, minPrice: real, maxPrice: real, minVolume: real,
                              taiex: IndexQuote, otc: IndexQuote, histories: map<string, History>)
    returns (r: AiResult)
    ensures r == AiRecommendations(db, minPrice, maxPrice, minVolume, taiex.changePct, otc.changePct, histories)
  {
    var base := FilterAndRank(db, Criteria(minPrice, maxPrice, 0.0, minVolume), false, taiex.changePct, otc.changePct);
    if base.Failure? {
      return AiFailure(base.error);
    }
    var candidates := AssignAlpha(base.listed + base.otc, taiex.changePct, otc.changePct);
    candidates := SortDesc(candidates, AlphaKey);
    var top := Take(candidates, CandidateCap);
    var recommends := AssessCandidates(top, histories);
    r := Recommendations(SortDesc(recommends, ScoreKey));
  }
}
