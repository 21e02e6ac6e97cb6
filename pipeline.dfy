/** `PipelineSnapshot.run_full_sync` and `get_or_update_snapshot` of app_v3.py: four layers
    built in one pass (base pool, outperformers, strong stocks, smart picks), each drawn
    from the previous one, and a one-slot cache that rebuilds them only when one of the
    four filter values changes. */
module Pipeline {
  import opened Wrappers
  import opened Ordering
  import opened Stocks
  import opened Screening
  import opened Calibration
  import opened BodyHigh
  import opened Scoring

  /** The base pool is fetched without any index comparison: both benchmarks are -999. */
  const NoIndexFilter: real := -999.0
  /** Only the first 150 outperformers are examined for strength. */
  const StrongCandidateCap: nat := 150
  /** Histories shorter than this are skipped. */
  const MinHistoryRows: nat := 10
  /** A smart pick needs at least this score. */
  const SmartThreshold: int := 6
  /** Points every strong stock starts with on top of its streak count. */
  const SmartBase: int := 2

  /** An `outperformer_db` entry: the record and its alpha. */
  datatype Outperformer = Outperformer(stock: StockRecord, alpha: real)

  /** A `strong_stock_db` entry: the outperformer, its streak caption, its streak count
      (`strong_score`) and the history it was computed on. */
  datatype StrongStock = StrongStock(entry: Outperformer, caption: Label, strongScore: nat, history: History)

  /** The reasons of a smart pick. */
  datatype PickReason = Outperforms(alpha: real) | StreakCaption(caption: Label) | AveragesAligned | RsiInRange(rsi: real)

  /** A `smart_pick_db` entry; `price` is the latest close (NaN possible). */
  datatype SmartPick = SmartPick(entry: Outperformer, price: Option<real>, score: int, reasons: seq<PickReason>)

  /** A row of the 25-day history download; `complete` is false when any column is NaN. */
  datatype Row = Row(bar: Bar, complete: bool)

  function AlphaKey(o: Outperformer): real { o.alpha }
  function StrongKey(s: StrongStock): real { s.strongScore as real }
  function PickKey(p: SmartPick): real { p.score as real }

  // ----- layer 1: the base pool -----

  /** `listed_all + otc_all` of `filter_and_rank_stocks` with no gap rule and no index. */
  function BasePoolOf(db: Option<Database>, f: Criteria): seq<StockRecord> {
    if db.None? then []
    else
      var filtered := BaseFilter(db.value.stocks, f, false);
      SortDesc(Select(filtered, IsListed), ChangeKey) + SortDesc(Select(filtered, IsOtc), ChangeKey)
  }

  /** The base pool holds exactly the database records within the filter bounds. */
  lemma BasePoolExact(db: Option<Database>, f: Criteria, s: StockRecord)
    ensures s in BasePoolOf(db, f) <==> db.Some? && s in db.value.stocks && InBounds(s, f)
  {
    if db.Some? {
      var filtered := BaseFilter(db.value.stocks, f, false);
      var listedAll := SortDesc(Select(filtered, IsListed), ChangeKey);
      var otcAll := SortDesc(Select(filtered, IsOtc), ChangeKey);
      BaseFilterExact(db.value.stocks, f, false, s);
      MarketPartition(filtered);
      assert multiset(listedAll + otcAll) == multiset(filtered);
      assert s in listedAll + otcAll <==> s in multiset(listedAll + otcAll);
      assert s in filtered <==> s in multiset(filtered);
    }
  }

  // ----- layer 2: outperformers -----

  /** The index change a record is compared against. */
  function IndexFor(s: StockRecord, taiexChange: real, otcChange: real): real {
    IndexChange(s.market, taiexChange, otcChange)
  }

  /** The entries appended by the outperformer loop, in pool order. */
  function Outs(pool: seq<StockRecord>, taiexChange: real, otcChange: real): seq<Outperformer> {
    if pool == [] then []
    else
      var s := pool[|pool| - 1];
      var idx := IndexFor(s, taiexChange, otcChange);
      Outs(pool[..|pool| - 1], taiexChange, otcChange)
      + (if s.changePct > idx then [Outperformer(s, s.changePct - idx)] else [])
  }

  function OutperformersOf(pool: seq<StockRecord>, taiexChange: real, otcChange: real): seq<Outperformer> {
    SortDesc(Outs(pool, taiexChange, otcChange), AlphaKey)
  }

  lemma {:induction false} OutsExact(pool: seq<StockRecord>, taiexChange: real, otcChange: real, o: Outperformer)
    ensures o in Outs(pool, taiexChange, otcChange)
        <==> o.stock in pool && o.stock.changePct > IndexFor(o.stock, taiexChange, otcChange)
             && o.alpha == o.stock.changePct - IndexFor(o.stock, taiexChange, otcChange)
  {
    if pool != [] {
      var init := pool[..|pool| - 1];
      var s := pool[|pool| - 1];
      var idx := IndexFor(s, taiexChange, otcChange);
      var extra := if s.changePct > idx then [Outperformer(s, s.changePct - idx)] else [];
      OutsExact(init, taiexChange, otcChange, o);
      assert pool == init + [s];
      assert o.stock in pool <==> o.stock in init || o.stock == s;
      assert Outs(pool, taiexChange, otcChange) == Outs(init, taiexChange, otcChange) + extra;
      assert o in Outs(pool, taiexChange, otcChange) <==> o in Outs(init, taiexChange, otcChange) || o in extra;
    }
  }

  /** Every outperformer beats its own index, its alpha is the margin, and the list runs by
      descending alpha; every pool record that beats its index is in the list. */
  lemma OutperformersSound(pool: seq<StockRecord>, taiexChange: real, otcChange: real)
    ensures SortedDesc(OutperformersOf(pool, taiexChange, otcChange), AlphaKey)
    ensures forall o :: o in OutperformersOf(pool, taiexChange, otcChange) ==>
              o.stock in pool && o.alpha > 0.0
              && o.alpha == o.stock.changePct - IndexFor(o.stock, taiexChange, otcChange)
    ensures forall s :: s in pool && s.changePct > IndexFor(s, taiexChange, otcChange) ==>
              Outperformer(s, s.changePct - IndexFor(s, taiexChange, otcChange)) in OutperformersOf(pool, taiexChange, otcChange)
  {
    var outs := Outs(pool, taiexChange, otcChange);
    var sorted := OutperformersOf(pool, taiexChange, otcChange);
    SortDescSorted(outs, AlphaKey);
    forall o | o in sorted
      ensures o.stock in pool && o.alpha > 0.0 && o.alpha == o.stock.changePct - IndexFor(o.stock, taiexChange, otcChange)
    {
      assert o in multiset(outs);
      OutsExact(pool, taiexChange, otcChange, o);
    }
    forall s | s in pool && s.changePct > IndexFor(s, taiexChange, otcChange)
      ensures Outperformer(s, s.changePct - IndexFor(s, taiexChange, otcChange)) in sorted
    {
      var o := Outperformer(s, s.changePct - IndexFor(s, taiexChange, otcChange));
      OutsExact(pool, taiexChange, otcChange, o);
      assert o in multiset(sorted);
    }
  }

  // ----- layer 3: strong stocks -----

  /** `hist.dropna()`: only rows without any NaN column. */
  function DropNa(f: seq<Row>): (bars: seq<Bar>)
    ensures |bars| <= |f|
  {
    if f == [] then []
    else (if f[0].complete then [f[0].bar] else []) + DropNa(f[1..])
  }

  function BarsOf(f: seq<Row>): (bars: seq<Bar>)
    ensures |bars| == |f|
  {
    seq(|f|, i requires 0 <= i < |f| => f[i].bar)
  }

  /** The history used for one candidate: with a single symbol the whole download, as is;
      otherwise that symbol's frame with NaN rows dropped, or nothing when it is absent. */
  function HistoryBars(sym: string, single: bool, data: map<string, seq<Row>>): Option<seq<Bar>> {
    if single then Some(if sym in data then BarsOf(data[sym]) else [])
    else if sym !in data then None
    else Some(DropNa(data[sym]))
  }

  /** The entry one candidate contributes, if any. */
  function StrongOf(c: Outperformer, single: bool, data: map<string, seq<Row>>, technicals: seq<Bar> -> Indicators): Option<StrongStock> {
    match HistoryBars(SymbolOf(c.stock.code, c.stock.market), single, data)
    case None => None
    case Some(bars) =>
      if |bars| < MinHistoryRows then None
      else
        var hd := HighDaysOf(bars, AppV3);
        if hd.isStrong then Some(StrongStock(c, hd.caption, hd.count, History(bars, technicals(bars)))) else None
  }

  function StrongFrom(cs: seq<Outperformer>, single: bool, data: map<string, seq<Row>>, technicals: seq<Bar> -> Indicators): seq<StrongStock> {
    if cs == [] then []
    else
      var last := StrongOf(cs[|cs| - 1], single, data, technicals);
      StrongFrom(cs[..|cs| - 1], single, data, technicals) + (if last.Some? then [last.value] else [])
  }

  /** The strong layer: nothing when there are no candidates or the download fails. */
  function StrongStage(outs: seq<Outperformer>, download: Option<map<string, seq<Row>>>, technicals: seq<Bar> -> Indicators): seq<StrongStock> {
    var cands := Take(outs, StrongCandidateCap);
    if cands == [] || download.None? then []
    else SortDesc(StrongFrom(cands, |cands| == 1, download.value, technicals), StrongKey)
  }

  predicate StrongWellFormed(x: StrongStock) {
    |x.history.bars| >= MinHistoryRows
    && x.strongScore >= 1
    && x.strongScore == HighDaysOf(x.history.bars, AppV3).count
    && x.caption == HighDaysOf(x.history.bars, AppV3).caption
  }

  lemma {:induction false} StrongFromSound(cs: seq<Outperformer>, single: bool, data: map<string, seq<Row>>, technicals: seq<Bar> -> Indicators)
    ensures |StrongFrom(cs, single, data, technicals)| <= |cs|
    ensures forall x :: x in StrongFrom(cs, single, data, technicals) ==> StrongWellFormed(x) && x.entry in cs
  {
    if cs != [] {
      var init := cs[..|cs| - 1];
      StrongFromSound(init, single, data, technicals);
      forall c | c in init ensures c in cs {
        var k :| 0 <= k < |init| && init[k] == c;
        assert cs[k] == c;
      }
    }
  }

  /** Strong stocks come only from the first 150 outperformers, carry a history of at least
      10 rows and a streak of at least one session, and run by descending streak. */
  lemma StrongStageSound(outs: seq<Outperformer>, download: Option<map<string, seq<Row>>>, technicals: seq<Bar> -> Indicators)
    ensures |StrongStage(outs, download, technicals)| <= StrongCandidateCap
    ensures SortedDesc(StrongStage(outs, download, technicals), StrongKey)
    ensures forall x :: x in StrongStage(outs, download, technicals) ==>
              StrongWellFormed(x) && x.entry in Take(outs, StrongCandidateCap)
  {
    var cands := Take(outs, StrongCandidateCap);
    if cands != [] && download.Some? {
      var found := StrongFrom(cands, |cands| == 1, download.value, technicals);
      StrongFromSound(cands, |cands| == 1, download.value, technicals);
      SortDescSorted(found, StrongKey);
      forall x | x in StrongStage(outs, download, technicals) ensures x in found {
        assert x in multiset(found);
      }
    }
  }

  /** A candidate belongs in the strong layer: its history is there, has at least 10 rows
      and ends a streak of at least one session. */
  predicate ShowsStrength(c: Outperformer, single: bool, data: map<string, seq<Row>>) {
    var h := HistoryBars(SymbolOf(c.stock.code, c.stock.market), single, data);
    h.Some? && |h.value| >= MinHistoryRows && HighDaysOf(h.value, AppV3).count >= 1
  }

  /** A candidate yields an entry exactly when it shows strength, and the entry is that
      candidate's, over its history. */
  lemma StrongOfExact(c: Outperformer, single: bool, data: map<string, seq<Row>>, technicals: seq<Bar> -> Indicators)
    ensures StrongOf(c, single, data, technicals).Some? <==> ShowsStrength(c, single, data)
    ensures StrongOf(c, single, data, technicals).Some? ==>
              var x := StrongOf(c, single, data, technicals).value;
              x.entry == c && StrongWellFormed(x)
              && x.history.bars == HistoryBars(SymbolOf(c.stock.code, c.stock.market), single, data).value
  {
  }

  /** Every candidate that shows strength has its entry in the loop's result. */
  lemma {:induction false} StrongFromComplete(cs: seq<Outperformer>, single: bool, data: map<string, seq<Row>>,
                                              technicals: seq<Bar> -> Indicators, c: Outperformer)
    requires c in cs && ShowsStrength(c, single, data)
    ensures StrongOf(c, single, data, technicals).Some?
    ensures StrongOf(c, single, data, technicals).value in StrongFrom(cs, single, data, technicals)
  {
    StrongOfExact(c, single, data, technicals);
    var init := cs[..|cs| - 1];
    if cs[|cs| - 1] != c {
      var i :| 0 <= i < |cs| && cs[i] == c;
      assert init[i] == c;
      StrongFromComplete(init, single, data, technicals, c);
    }
  }

  /** Every one of the first 150 outperformers that shows strength is in the strong layer
      when the download succeeds. */
  lemma StrongStageComplete(outs: seq<Outperformer>, download: Option<map<string, seq<Row>>>,
                            technicals: seq<Bar> -> Indicators, c: Outperformer)
    ensures var cands := Take(outs, StrongCandidateCap);
            download.Some? && c in cands && ShowsStrength(c, |cands| == 1, download.value) ==>
              exists x :: x in StrongStage(outs, download, technicals) && x.entry == c && StrongWellFormed(x)
  {
    var cands := Take(outs, StrongCandidateCap);
    if download.Some? && c in cands && ShowsStrength(c, |cands| == 1, download.value) {
      var single := |cands| == 1;
      StrongFromComplete(cands, single, download.value, technicals, c);
      StrongOfExact(c, single, download.value, technicals);
      var x := StrongOf(c, single, download.value, technicals).value;
      SortDescHas(StrongFrom(cands, single, download.value, technicals), StrongKey, x);
      assert StrongStage(outs, download, technicals) == SortDesc(StrongFrom(cands, single, download.value, technicals), StrongKey);
    }
  }

  // ----- layer 4: smart picks -----

  /** `strong_score + 2`, plus 3 for `price > MA5 > MA20`, plus 2 for `55 <= RSI <= 80`. */
  function SmartScore(strongScore: nat, price: Option<real>, ind: Indicators): (score: int)
    ensures strongScore >= 1 ==>
      (score >= SmartThreshold <==>
         strongScore >= 4 || TrendAligned(price, ind) || (strongScore >= 2 && RsiStrong(ind.rsi)))
  {
    strongScore + SmartBase
    + (if TrendAligned(price, ind) then TrendPoints else 0)
    + (if RsiStrong(ind.rsi) then RsiPoints else 0)
  }

  function PickReasons(x: StrongStock, price: Option<real>): seq<PickReason> {
    var ind := x.history.latest;
    [Outperforms(x.entry.alpha), StreakCaption(x.caption)]
    + (if TrendAligned(price, ind) then [AveragesAligned] else [])
    + (if RsiStrong(ind.rsi) then [RsiInRange(ind.rsi.value)] else [])
  }

  function PickOf(x: StrongStock): Option<SmartPick>
    requires x.history.bars != []
  {
    var price := LatestClose(x.history.bars);
    var score := SmartScore(x.strongScore, price, x.history.latest);
    if score >= SmartThreshold then Some(SmartPick(x.entry, price, score, PickReasons(x, price))) else None
  }

  predicate HaveHistory(strong: seq<StrongStock>) {
    forall k :: 0 <= k < |strong| ==> strong[k].history.bars != []
  }

  function Picks(strong: seq<StrongStock>): seq<SmartPick>
    requires HaveHistory(strong)
  {
    if strong == [] then []
    else
      var last := PickOf(strong[|strong| - 1]);
      Picks(strong[..|strong| - 1]) + (if last.Some? then [last.value] else [])
  }

  function PicksOf(strong: seq<StrongStock>): seq<SmartPick>
    requires HaveHistory(strong)
  {
    SortDesc(Picks(strong), PickKey)
  }

  /** A pick carries the score of a strong stock with the same entry, at least 6, and its
      first two reasons are the alpha statement and the streak caption. */
  predicate PickWellFormed(p: SmartPick, strong: seq<StrongStock>) {
    p.score >= SmartThreshold
    && |p.reasons| >= 2 && p.reasons[0] == Outperforms(p.entry.alpha)
    && exists x :: x in strong && x.entry == p.entry && x.history.bars != []
                   && p.reasons[1] == StreakCaption(x.caption)
                   && p.price == LatestClose(x.history.bars)
                   && p.score == SmartScore(x.strongScore, p.price, x.history.latest)
  }

  lemma {:induction false} PicksSound(strong: seq<StrongStock>)
    requires HaveHistory(strong)
    ensures forall p :: p in Picks(strong) ==> PickWellFormed(p, strong)
  {
    if strong != [] {
      var init := strong[..|strong| - 1];
      PicksSound(init);
      var x := strong[|strong| - 1];
      forall p | p in Picks(strong) ensures PickWellFormed(p, strong) {
        if p in Picks(init) {
          var y :| y in init && y.entry == p.entry && y.history.bars != []
                   && p.reasons[1] == StreakCaption(y.caption)
                   && p.price == LatestClose(y.history.bars)
                   && p.score == SmartScore(y.strongScore, p.price, y.history.latest);
          var k :| 0 <= k < |init| && init[k] == y;
          assert strong[k] == y;
        } else {
          assert p == PickOf(x).value;
        }
      }
    }
  }

  /** The smart-pick layer is sorted by descending score and every pick is well formed. */
  lemma PicksOfSound(strong: seq<StrongStock>)
    requires HaveHistory(strong)
    ensures SortedDesc(PicksOf(strong), PickKey)
    ensures |PicksOf(strong)| <= |strong|
    ensures forall p :: p in PicksOf(strong) ==> PickWellFormed(p, strong)
  {
    PicksSound(strong);
    PicksLength(strong);
    SortDescSorted(Picks(strong), PickKey);
    forall p | p in PicksOf(strong) ensures p in Picks(strong) {
      assert p in multiset(Picks(strong));
    }
  }

  /** Every strong stock scoring at least 6 has its pick in the loop's result. */
  lemma {:induction false} PicksComplete(strong: seq<StrongStock>, x: StrongStock)
    requires HaveHistory(strong) && x in strong
    requires SmartScore(x.strongScore, LatestClose(x.history.bars), x.history.latest) >= SmartThreshold
    ensures PickOf(x).Some? && PickOf(x).value in Picks(strong)
  {
    var init := strong[..|strong| - 1];
    if strong[|strong| - 1] != x {
      var i :| 0 <= i < |strong| && strong[i] == x;
      assert init[i] == x;
      PicksComplete(init, x);
    }
  }

  /** Every strong stock scoring at least 6 is picked, with its latest close and score. */
  lemma PicksOfComplete(strong: seq<StrongStock>, x: StrongStock)
    requires HaveHistory(strong) && x in strong
    requires SmartScore(x.strongScore, LatestClose(x.history.bars), x.history.latest) >= SmartThreshold
    ensures exists p :: p in PicksOf(strong) && p.entry == x.entry && p.price == LatestClose(x.history.bars)
                        && p.score == SmartScore(x.strongScore, p.price, x.history.latest)
  {
    PicksComplete(strong, x);
    SortDescHas(Picks(strong), PickKey, PickOf(x).value);
  }

  lemma {:induction false} PicksLength(strong: seq<StrongStock>)
    requires HaveHistory(strong)
    ensures |Picks(strong)| <= |strong|
  {
    if strong != [] {
      PicksLength(strong[..|strong| - 1]);
    }
  }

  lemma StrongHaveHistory(strong: seq<StrongStock>)
    requires forall x :: x in strong ==> StrongWellFormed(x)
    ensures HaveHistory(strong)
  {
    forall k | 0 <= k < |strong| ensures strong[k].history.bars != [] {
      assert StrongWellFormed(strong[k]);
    }
  }

  lemma StrongStageHaveHistory(outs: seq<Outperformer>, download: Option<map<string, seq<Row>>>, technicals: seq<Bar> -> Indicators)
    ensures HaveHistory(StrongStage(outs, download, technicals))
  {
    StrongStageSound(outs, download, technicals);
    StrongHaveHistory(StrongStage(outs, download, technicals));
  }

  // ----- the whole sync -----

  /** The four layers of a snapshot. */
  datatype Layers = Layers(basePool: seq<StockRecord>, outperformers: seq<Outperformer>,
                           strong: seq<StrongStock>, picks: seq<SmartPick>)

  /** What `run_full_sync` leaves in a fresh snapshot: everything empty when the base pool
      is empty; otherwise the calibrated pool and the three layers drawn from it. */
  function Sync(f: Criteria, taiexChange: real, otcChange: real, db: Option<Database>,
                prices: Option<map<string, Frame>>, histories: Option<map<string, seq<Row>>>,
                technicals: seq<Bar> -> Indicators): Layers
  {
    SyncFrom(BasePoolOf(db, f), taiexChange, otcChange, prices, histories, technicals)
  }

  /** The layers built from a base pool: all empty when the pool is empty. */
  function SyncFrom(pool: seq<StockRecord>, taiexChange: real, otcChange: real, prices: Option<map<string, Frame>>,
                    histories: Option<map<string, seq<Row>>>, technicals: seq<Bar> -> Indicators): Layers
  {
    if pool == [] then Layers([], [], [], [])
    else LayersFrom(Calibrated(pool, prices), taiexChange, otcChange, histories, technicals)
  }

  /** Layers 2 to 4 drawn from a calibrated pool. */
  function LayersFrom(cal: seq<StockRecord>, taiexChange: real, otcChange: real,
                      histories: Option<map<string, seq<Row>>>, technicals: seq<Bar> -> Indicators): Layers
  {
    var outs := OutperformersOf(cal, taiexChange, otcChange);
    var strong := StrongStage(outs, histories, technicals);
    StrongStageHaveHistory(outs, histories, technicals);
    Layers(cal, outs, strong, PicksOf(strong))
  }

  /** Each layer is drawn from the one before: every pick is a strong stock's entry, every
      strong stock is among the first 150 outperformers, every outperformer is a record of
      the calibrated pool, and the pool is as long as the filtered database. */
  lemma SyncLayered(f: Criteria, taiexChange: real, otcChange: real, db: Option<Database>,
                    prices: Option<map<string, Frame>>, histories: Option<map<string, seq<Row>>>,
                    technicals: seq<Bar> -> Indicators)
    ensures var l := Sync(f, taiexChange, otcChange, db, prices, histories, technicals);
            |l.basePool| == |BasePoolOf(db, f)|
            && (forall o :: o in l.outperformers ==> o.stock in l.basePool && o.alpha > 0.0)
            && (forall x :: x in l.strong ==> x.entry in Take(l.outperformers, StrongCandidateCap))
            && (forall p :: p in l.picks ==> p.score >= SmartThreshold
                                              && exists x :: x in l.strong && x.entry == p.entry)
  {
    var pool := BasePoolOf(db, f);
    if pool != [] {
      var cal := Calibrated(pool, prices);
      CalibratedProperties(pool, prices);
      var outs := OutperformersOf(cal, taiexChange, otcChange);
      OutperformersSound(cal, taiexChange, otcChange);
      var strong := StrongStage(outs, histories, technicals);
      StrongStageSound(outs, histories, technicals);
      StrongHaveHistory(strong);
      PicksOfSound(strong);
    }
  }

  /** The four filter keys the cache compares. */
  datatype FilterKey = MinPriceKey | MaxPriceKey | MinMarketCapKey | MinVolumeKey

  const FilterKeys: seq<FilterKey> := [MinPriceKey, MaxPriceKey, MinMarketCapKey, MinVolumeKey]

  function FilterValue(f: Criteria, k: FilterKey): real {
    match k
    case MinPriceKey => f.minPrice
    case MaxPriceKey => f.maxPrice
    case MinMarketCapKey => f.minMarketCap
    case MinVolumeKey => f.minVolumeLots
  }

  /** The key-by-key comparison loop: a refresh is needed iff some key differs, that is,
      iff the filters differ. */
  method FiltersDiffer(a: Criteria, b: Criteria) returns (differ: bool)
    ensures differ <==> a != b
  {
    differ := false;
    for k := 0 to |FilterKeys|
      invariant !differ
      invariant forall j :: 0 <= j < k ==> FilterValue(a, FilterKeys[j]) == FilterValue(b, FilterKeys[j])
    {
      if FilterValue(a, FilterKeys[k]) != FilterValue(b, FilterKeys[k]) {
        differ := true;
        break;
      }
    }
    if !differ {
      assert FilterValue(a, FilterKeys[0]) == FilterValue(b, FilterKeys[0]);
      assert FilterValue(a, FilterKeys[1]) == FilterValue(b, FilterKeys[1]);
      assert FilterValue(a, FilterKeys[2]) == FilterValue(b, FilterKeys[2]);
      assert FilterValue(a, FilterKeys[3]) == FilterValue(b, FilterKeys[3]);
    }
  }

  /** Stage 1 of `run_full_sync`: `listed_all + otc_all` of an unfiltered-by-index screen. */
  method FetchBasePool(db: Option<Database>, f: Criteria) returns (pool: seq<StockRecord>)
    ensures pool == BasePoolOf(db, f)
  {
    var base := FilterAndRank(db, f, false, NoIndexFilter, NoIndexFilter);
    pool := base.listedAll + base.otcAll;
  }

  /** `fetch_realtime_prices(self.base_pool)`: the pool's records are calibrated in place. */
  method CalibratedCopy(pool: seq<StockRecord>, prices: Option<map<string, Frame>>) returns (r: seq<StockRecord>)
    ensures r == Calibrated(pool, prices)
  {
    var arr := new StockRecord[|pool|](i requires 0 <= i < |pool| => pool[i]);
    assert arr[..] == pool;
    FetchRealtimePrices(arr, prices);
    r := arr[..];
  }

  /** The per-candidate loop of layer 3: fetch the bars (a single download is not
      NaN-stripped, a missing symbol in a batch download is skipped), require ten rows,
      and keep the candidates with a positive body-high streak, in candidate order. */
  method CollectStrong(candidates: seq<Outperformer>, single: bool, dataAll: map<string, seq<Row>>,
                       technicals: seq<Bar> -> Indicators)
    returns (acc: seq<StrongStock>)
    ensures acc == StrongFrom(candidates, single, dataAll, technicals)
  {
    acc := [];
    for k := 0 to |candidates|
      invariant acc == StrongFrom(candidates[..k], single, dataAll, technicals)
    {
      assert candidates[..k + 1][..k] == candidates[..k];
      var entry := StrongCandidate(candidates[k], single, dataAll, technicals);
      if entry.Some? {
        acc := acc + [entry.value];
      }
    }
    assert candidates[..|candidates|] == candidates;
  }

  /** The body of the candidate loop: the history lookup, the 25-row minimum and the
      strength test, with `continue` as `None`. */
  method StrongCandidate(s: Outperformer, single: bool, dataAll: map<string, seq<Row>>,
                         technicals: seq<Bar> -> Indicators)
    returns (entry: Option<StrongStock>)
    ensures entry == StrongOf(s, single, dataAll, technicals)
  {
    var symbol := SymbolOf(s.stock.code, s.stock.market);
    var hist: seq<Bar>;
    if single {
      hist := if symbol in dataAll then BarsOf(dataAll[symbol]) else [];
    } else {
      if symbol !in dataAll {
        return None;
      }
      hist := DropNa(dataAll[symbol]);
    }
    if |hist| < MinHistoryRows {
      return None;
    }
    var ind := technicals(hist);
    var hd := CalcHighDays(hist, AppV3);
    entry := if hd.isStrong then Some(StrongStock(s, hd.caption, hd.count, History(hist, ind))) else None;
  }

  /** `PipelineSnapshot`: the filters and indices it was built for, a timestamp, and the four
      layer lists that `run_full_sync` fills. */
  class PipelineSnapshot {
    var filters: Criteria
    var taiex: IndexQuote
    var otc: IndexQuote
    var timestamp: string
    var basePool: seq<StockRecord>
    var outperformerDb: seq<Outperformer>
    var strongStockDb: seq<StrongStock>
    var smartPickDb: seq<SmartPick>

    constructor(filters: Criteria, taiex: IndexQuote, otc: IndexQuote, timestamp: string)
      ensures this.filters == filters && this.taiex == taiex && this.otc == otc && this.timestamp == timestamp
      ensures basePool == [] && outperformerDb == [] && strongStockDb == [] && smartPickDb == []
    {
      this.filters := filters;
      this.taiex := taiex;
      this.otc := otc;
      this.timestamp := timestamp;
      basePool := [];
      outperformerDb := [];
      strongStockDb := [];
      smartPickDb := [];
    }

    /** The layers as a value. */
    function Contents(): Layers
      reads this
    {
      Layers(basePool, outperformerDb, strongStockDb, smartPickDb)
    }

    /** Layer 2: append every pool record that beats its index, then sort by alpha. */
    method FillOutperformers()
      requires outperformerDb == []
      modifies this
      ensures outperformerDb == OutperformersOf(basePool, taiex.changePct, otc.changePct)
      ensures basePool == old(basePool) && strongStockDb == old(strongStockDb) && smartPickDb == old(smartPickDb)
      ensures filters == old(filters) && taiex == old(taiex) && otc == old(otc) && timestamp == old(timestamp)
    {
      for k := 0 to |basePool|
        invariant basePool == old(basePool) && strongStockDb == old(strongStockDb) && smartPickDb == old(smartPickDb)
        invariant filters == old(filters) && taiex == old(taiex) && otc == old(otc) && timestamp == old(timestamp)
        invariant outperformerDb == Outs(basePool[..k], taiex.changePct, otc.changePct)
      {
        assert basePool[..k + 1][..k] == basePool[..k];
        var s := basePool[k];
        var idxChg := if s.market == Listed then taiex.changePct else otc.changePct;
        if s.changePct > idxChg {
          outperformerDb := outperformerDb + [Outperformer(s, s.changePct - idxChg)];
        }
      }
      assert basePool[..|basePool|] == basePool;
      outperformerDb := SortDesc(outperformerDb, AlphaKey);
    }

    /** Layer 3: the first 150 outperformers, one batch history download, and the streak
      test on each history of at least 10 rows. */
    method FillStrongStocks(histories: Option<map<string, seq<Row>>>, technicals: seq<Bar> -> Indicators)
      requires strongStockDb == []
      modifies this
      ensures strongStockDb == StrongStage(outperformerDb, histories, technicals)
      ensures basePool == old(basePool) && outperformerDb == old(outperformerDb) && smartPickDb == old(smartPickDb)
      ensures filters == old(filters) && taiex == old(taiex) && otc == old(otc) && timestamp == old(timestamp)
    {
      var candidates := Take(outperformerDb, StrongCandidateCap);
      var symbols := seq(|candidates|, i requires 0 <= i < |candidates| => SymbolOf(candidates[i].stock.code, candidates[i].stock.market));
      if |symbols| > 0 && histories.Some? {
        strongStockDb := CollectStrong(candidates, |symbols| == 1, histories.value, technicals);
      }
      strongStockDb := SortDesc(strongStockDb, StrongKey);
    }

    /** Layer 4: score every strong stock and keep those reaching 6, sorted by score. */
    method FillSmartPicks()
      requires smartPickDb == [] && HaveHistory(strongStockDb)
      modifies this
      ensures basePool == old(basePool) && outperformerDb == old(outperformerDb) && strongStockDb == old(strongStockDb)
      ensures filters == old(filters) && taiex == old(taiex) && otc == old(otc) && timestamp == old(timestamp)
      ensures smartPickDb == PicksOf(strongStockDb)
    {
      for k := 0 to |strongStockDb|
        invariant basePool == old(basePool) && outperformerDb == old(outperformerDb) && strongStockDb == old(strongStockDb)
        invariant filters == old(filters) && taiex == old(taiex) && otc == old(otc) && timestamp == old(timestamp)
        invariant HaveHistory(strongStockDb[..k])
        invariant smartPickDb == Picks(strongStockDb[..k])
      {
        assert strongStockDb[..k + 1][..k] == strongStockDb[..k];
        var s := strongStockDb[k];
        var latest := s.history.latest;
        var price := LatestClose(s.history.bars);
        var score := s.strongScore + SmartBase;
        var reasons := [Outperforms(s.entry.alpha), StreakCaption(s.caption)];
        if TrendAligned(price, latest) {
          score := score + TrendPoints;
          reasons := reasons + [AveragesAligned];
        }
        if RsiStrong(latest.rsi) {
          score := score + RsiPoints;
          reasons := reasons + [RsiInRange(latest.rsi.value)];
        }
        assert score == SmartScore(s.strongScore, price, latest);
        assert reasons == PickReasons(s, price);
        if score >= SmartThreshold {
          smartPickDb := smartPickDb + [SmartPick(s.entry, price, score, reasons)];
        }
      }
      assert strongStockDb[..|strongStockDb|] == strongStockDb;
      smartPickDb := SortDesc(smartPickDb, PickKey);
    }

    /** `run_full_sync()` on a freshly constructed snapshot; the price download, the history
        download and the indicator computation are inputs. */
    method RunFullSync(db: Option<Database>, prices: Option<map<string, Frame>>,
                       histories: Option<map<string, seq<Row>>>, technicals: seq<Bar> -> Indicators)
      requires basePool == [] && outperformerDb == [] && strongStockDb == [] && smartPickDb == []
      modifies this
      ensures Contents() == Sync(filters, taiex.changePct, otc.changePct, db, prices, histories, technicals)
      ensures filters == old(filters) && taiex == old(taiex) && otc == old(otc) && timestamp == old(timestamp)
    {
      var pool := FetchBasePool(db, filters);
      BuildFromPool(pool, prices, histories, technicals);
    }

    /** Stage 1 stores the pool; an empty pool ends the sync there. */
    method BuildFromPool(pool: seq<StockRecord>, prices: Option<map<string, Frame>>,
                         histories: Option<map<string, seq<Row>>>, technicals: seq<Bar> -> Indicators)
      requires outperformerDb == [] && strongStockDb == [] && smartPickDb == []
      modifies this
      ensures Contents() == SyncFrom(pool, taiex.changePct, otc.changePct, prices, histories, technicals)
      ensures filters == old(filters) && taiex == old(taiex) && otc == old(otc) && timestamp == old(timestamp)
    {
      basePool := pool;
      if basePool != [] {
        SyncFromPool(prices, histories, technicals);
      }
    }

    /** Stages 2 to 5 of `run_full_sync`, once the base pool is non-empty. */
    method SyncFromPool(prices: Option<map<string, Frame>>,
                        histories: Option<map<string, seq<Row>>>, technicals: seq<Bar> -> Indicators)
      requires outperformerDb == [] && strongStockDb == [] && smartPickDb == []
      modifies this
      ensures Contents() == LayersFrom(Calibrated(old(basePool), prices), taiex.changePct, otc.changePct, histories, technicals)
      ensures filters == old(filters) && taiex == old(taiex) && otc == old(otc) && timestamp == old(timestamp)
    {
      basePool := CalibratedCopy(basePool, prices);
      FillOutperformers();
      FillStrongStocks(histories, technicals);
      StrongStageHaveHistory(outperformerDb, histories, technicals);
      FillSmartPicks();
    }
  }

  /** The module-level `GLOBAL_SNAPSHOT` slot and `get_or_update_snapshot`. */
  class SnapshotCache {
    var current: PipelineSnapshot?

    constructor()
      ensures current == null
    {
      current := null;
    }

    /** `get_or_update_snapshot(filters)`, with the freshly fetched indices, the clock reading
        and the downloads as inputs. */
    method GetOrUpdate(filters: Criteria, taiex: IndexQuote, otc: IndexQuote, timestamp: string,
                       db: Option<Database>, prices: Option<map<string, Frame>>,
                       histories: Option<map<string, seq<Row>>>, technicals: seq<Bar> -> Indicators)
      returns (snap: PipelineSnapshot)
      modifies this
      ensures current == snap
      ensures old(current) != null && old(current.filters) == filters ==>
                snap == old(current) && unchanged(snap)
      ensures old(current) == null || old(current.filters) != filters ==>
                fresh(snap) && snap.filters == filters && snap.taiex == taiex && snap.otc == otc
                && snap.timestamp == timestamp
                && snap.Contents() == Sync(filters, taiex.changePct, otc.changePct, db, prices, histories, technicals)
    {
      var needRefresh := false;
      if current == null {
        needRefresh := true;
      } else {
        needRefresh := FiltersDiffer(current.filters, filters);
      }
      if needRefresh {
        var newSnap := new PipelineSnapshot(filters, taiex, otc, timestamp);
        newSnap.RunFullSync(db, prices, histories, technicals);
        current := newSnap;
      }
      snap := current;
    }
  }

  /** Two requests with the same filters get the very same snapshot, built once. */
  method RepeatedRequest(cache: SnapshotCache, filters: Criteria, taiex: IndexQuote, otc: IndexQuote,
                         later: IndexQuote, db: Option<Database>, prices: Option<map<string, Frame>>,
                         histories: Option<map<string, seq<Row>>>, technicals: seq<Bar> -> Indicators)
      returns (first: PipelineSnapshot, second: PipelineSnapshot)
    modifies cache
    ensures second == first && second.filters == filters
    ensures old(cache.current) != null && old(cache.current.filters) == filters ==> first == old(cache.current)
    ensures old(cache.current) == null || old(cache.current.filters) != filters ==> fresh(first)
  {
    first := cache.GetOrUpdate(filters, taiex, otc, "t0", db, prices, histories, technicals);
    second := cache.GetOrUpdate(filters, later, later, "t1", db, prices, histories, technicals);
  }
}
