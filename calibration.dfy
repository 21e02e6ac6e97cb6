/** `fetch_realtime_prices` of app_v3.py: one batch download of a two-day window for
    every record's ticker, then, symbol by symbol, the latest close, the change against the
    previous close and the latest volume are written back into every record with that code. */
module Calibration {
  import opened Wrappers
  import opened Stocks
  import opened Screening

  /** A downloaded row that is not entirely NaN: its close and its volume cell
      (`None` for a NaN volume, on which `int(...)` raises). */
  datatype Session = Session(close: real, volume: Option<int>)

  /** A downloaded frame; a `None` row has every column NaN. */
  type Frame = seq<Option<Session>>

  /** The values written back for one symbol. */
  datatype Fix = Fix(price: real, changePct: real, volume: int)

  /** `sub.dropna(how='all')` */
  function DropAllNaN(f: Frame): (rows: seq<Session>)
    ensures |rows| <= |f|
    ensures forall x :: x in rows <==> Some(x) in f
  {
    if f == [] then []
    else
      assert f == [f[0]] + f[1..];
      (if f[0].Some? then [f[0].value] else []) + DropAllNaN(f[1..])
  }

  /** `next((x for x in stocks if x['code'] == code), None)` */
  function FirstWithCode(stocks: seq<StockRecord>, code: string): (r: Option<StockRecord>)
    ensures r.Some? ==> r.value in stocks && r.value.code == code
    ensures r.None? ==> forall s :: s in stocks ==> s.code != code
  {
    if stocks == [] then None
    else if stocks[0].code == code then Some(stocks[0])
    else FirstWithCode(stocks[1..], code)
  }

  /** The previous close: the close of the second-latest row, or, with a single row, the
      one derived from the first record with that code; `None` where the source skips the
      symbol (no such record, or a -100% change that raises). */
  function PrevClose(cur: seq<StockRecord>, code: string, rows: seq<Session>): Option<real>
    requires rows != []
  {
    if |rows| >= 2 then Some(rows[|rows| - 2].close)
    else match FirstWithCode(cur, code)
      case None => None
      case Some(o) => if PrevCloseDefined(o.changePct) then Some(DerivedPrevClose(o.price, o.changePct)) else None
  }

  /** What one symbol contributes, or `None` when it is skipped: no data, only NaN rows,
      no previous close, a zero previous close (division by zero) or a NaN volume. */
  function QuoteFor(cur: seq<StockRecord>, code: string, sym: string, data: map<string, Frame>): (q: Option<Fix>)
    ensures q.Some? ==> sym in data && DropAllNaN(data[sym]) != []
                        && q.value.price == DropAllNaN(data[sym])[|DropAllNaN(data[sym])| - 1].close
  {
    if sym !in data then None
    else
      var rows := DropAllNaN(data[sym]);
      if rows == [] then None
      else
        var latest := rows[|rows| - 1];
        var prev := PrevClose(cur, code, rows);
        if prev.None? || prev.value == 0.0 || latest.volume.None? then None
        else Some(Fix(latest.close, (latest.close - prev.value) / prev.value * 100.0, latest.volume.value))
  }

  /** The previous close is the second-latest close, or with a single row the close the
      first record with the code implies; there is none when no record has the code or
      its change is -100%. */
  lemma PrevCloseMeaning(cur: seq<StockRecord>, code: string, rows: seq<Session>)
    requires rows != []
    ensures |rows| >= 2 ==> PrevClose(cur, code, rows) == Some(rows[|rows| - 2].close)
    ensures |rows| == 1 ==>
              (PrevClose(cur, code, rows).Some? <==>
                 FirstWithCode(cur, code).Some? && PrevCloseDefined(FirstWithCode(cur, code).value.changePct))
    ensures |rows| == 1 && PrevClose(cur, code, rows).Some? ==>
              var o := FirstWithCode(cur, code).value;
              var p := PrevClose(cur, code, rows).value;
              p + p * o.changePct / 100.0 == o.price
  {
  }

  /** A symbol yields a fix exactly when it has a row that is not all NaN, a numeric latest
      volume and a non-zero previous close; the fix carries the latest close, the change
      against the previous close in percent and the latest volume. */
  lemma QuoteForMeaning(cur: seq<StockRecord>, code: string, sym: string, data: map<string, Frame>)
    ensures QuoteFor(cur, code, sym, data).Some? <==>
              sym in data && DropAllNaN(data[sym]) != []
              && DropAllNaN(data[sym])[|DropAllNaN(data[sym])| - 1].volume.Some?
              && PrevClose(cur, code, DropAllNaN(data[sym])).Some?
              && PrevClose(cur, code, DropAllNaN(data[sym])).value != 0.0
    ensures QuoteFor(cur, code, sym, data).Some? ==>
              var q := QuoteFor(cur, code, sym, data).value;
              var rows := DropAllNaN(data[sym]);
              var latest := rows[|rows| - 1];
              var prev := PrevClose(cur, code, rows).value;
              q.price == latest.close && q.volume == latest.volume.value
              && q.changePct * prev == (latest.close - prev) * 100.0
  {
  }

  /** One record after a fix for `code`: volume is overwritten only by a positive volume. */
  function Apply(s: StockRecord, code: string, q: Fix): StockRecord {
    if s.code == code then
      s.(price := q.price, changePct := q.changePct, volume := if q.volume > 0 then q.volume else s.volume)
    else s
  }

  function ApplyAll(stocks: seq<StockRecord>, code: string, q: Fix): seq<StockRecord> {
    seq(|stocks|, i requires 0 <= i < |stocks| => Apply(stocks[i], code, q))
  }

  function Step(cur: seq<StockRecord>, code: string, sym: string, data: map<string, Frame>): (r: seq<StockRecord>)
    ensures |r| == |cur|
  {
    match QuoteFor(cur, code, sym, data)
    case None => cur
    case Some(q) => ApplyAll(cur, code, q)
  }

  /** The list after the first `n` symbols (in list order) have been processed. */
  function CalibrateN(orig: seq<StockRecord>, n: nat, data: map<string, Frame>): (r: seq<StockRecord>)
    requires n <= |orig|
    ensures |r| == |orig|
  {
    if n == 0 then orig
    else
      var s := orig[n - 1];
      Step(CalibrateN(orig, n - 1, data), s.code, SymbolOf(s.code, s.market), data)
  }

  /** The whole call: an empty list, or a failed download, leaves the list as it is. */
  function Calibrated(stocks: seq<StockRecord>, download: Option<map<string, Frame>>): seq<StockRecord> {
    if stocks == [] || download.None? then stocks
    else CalibrateN(stocks, |stocks|, download.value)
  }

  /** Only price, change and volume are written; volume is kept or made positive. */
  predicate SameIdentity(a: StockRecord, b: StockRecord) {
    a.code == b.code && a.name == b.name && a.market == b.market
    && a.marketCap == b.marketCap && a.open == b.open
    && (b.volume == a.volume || b.volume > 0)
  }

  /** A record none of whose symbols has a non-NaN row in the download. */
  predicate NoDataFor(orig: seq<StockRecord>, code: string, data: map<string, Frame>) {
    forall k :: 0 <= k < |orig| && orig[k].code == code ==>
      var sym := SymbolOf(orig[k].code, orig[k].market);
      sym !in data || DropAllNaN(data[sym]) == []
  }

  /** The latest close of some symbol of `code` in the download is `p`. */
  predicate SourcedPrice(orig: seq<StockRecord>, code: string, data: map<string, Frame>, p: real) {
    exists k :: 0 <= k < |orig| && orig[k].code == code
      && var sym := SymbolOf(orig[k].code, orig[k].market);
         sym in data && DropAllNaN(data[sym]) != []
         && DropAllNaN(data[sym])[|DropAllNaN(data[sym])| - 1].close == p
  }

  /** What holds of the list after any number of steps: the length is kept, every record
      keeps its identity, a record without data is untouched, and a changed price is a
      downloaded close for that code. */
  predicate Shaped(orig: seq<StockRecord>, cur: seq<StockRecord>, data: map<string, Frame>) {
    |cur| == |orig|
    && (forall i :: 0 <= i < |orig| ==> SameIdentity(orig[i], cur[i]))
    && (forall i :: 0 <= i < |orig| && NoDataFor(orig, orig[i].code, data) ==> cur[i] == orig[i])
    && (forall i :: 0 <= i < |orig| ==> cur[i].price == orig[i].price || SourcedPrice(orig, orig[i].code, data, cur[i].price))
  }

  lemma {:induction false} CalibrateNShape(orig: seq<StockRecord>, n: nat, data: map<string, Frame>)
    requires n <= |orig|
    ensures Shaped(orig, CalibrateN(orig, n, data), data)
  {
    if n > 0 {
      CalibrateNShape(orig, n - 1, data);
      StepShape(orig, n, data);
      ShapedStep(orig, CalibrateN(orig, n - 1, data), CalibrateN(orig, n, data), data);
    }
  }

  /** A step that changes only records it may change keeps the list `Shaped`. */
  lemma ShapedStep(orig: seq<StockRecord>, prev: seq<StockRecord>, cur: seq<StockRecord>, data: map<string, Frame>)
    requires Shaped(orig, prev, data) && |cur| == |orig|
    requires forall i :: 0 <= i < |orig| && cur[i] != prev[i] ==>
               SameIdentity(prev[i], cur[i])
               && SourcedPrice(orig, orig[i].code, data, cur[i].price)
               && !NoDataFor(orig, orig[i].code, data)
    ensures Shaped(orig, cur, data)
  {
    forall i | 0 <= i < |orig|
      ensures SameIdentity(orig[i], cur[i])
      ensures NoDataFor(orig, orig[i].code, data) ==> cur[i] == orig[i]
      ensures cur[i].price == orig[i].price || SourcedPrice(orig, orig[i].code, data, cur[i].price)
    {
      if cur[i] != prev[i] {
        assert SameIdentity(orig[i], prev[i]) && SameIdentity(prev[i], cur[i]);
      }
    }
  }

  /** Processing the `n`-th symbol changes only records with its code, keeps their identity,
      and writes a close downloaded for that code. */
  lemma StepShape(orig: seq<StockRecord>, n: nat, data: map<string, Frame>)
    requires 0 < n <= |orig|
    requires Shaped(orig, CalibrateN(orig, n - 1, data), data)
    ensures |CalibrateN(orig, n, data)| == |orig|
    ensures forall i :: 0 <= i < |orig| && CalibrateN(orig, n, data)[i] != CalibrateN(orig, n - 1, data)[i] ==>
              SameIdentity(CalibrateN(orig, n - 1, data)[i], CalibrateN(orig, n, data)[i])
              && SourcedPrice(orig, orig[i].code, data, CalibrateN(orig, n, data)[i].price)
              && !NoDataFor(orig, orig[i].code, data)
  {
    var prev := CalibrateN(orig, n - 1, data);
    var s := orig[n - 1];
    var sym := SymbolOf(s.code, s.market);
    var q := QuoteFor(prev, s.code, sym, data);
    var cur := CalibrateN(orig, n, data);
    if q.None? {
      assert cur == prev;
    } else {
      assert cur == ApplyAll(prev, s.code, q.value);
      forall i | 0 <= i < |orig| && cur[i] != prev[i]
        ensures SameIdentity(prev[i], cur[i])
                && SourcedPrice(orig, orig[i].code, data, cur[i].price)
                && !NoDataFor(orig, orig[i].code, data)
      {
        assert prev[i].code == s.code && cur[i] == Apply(prev[i], s.code, q.value);
        assert 0 <= n - 1 < |orig| && orig[n - 1].code == orig[i].code;
      }
    }
  }

  /** What `fetch_realtime_prices` guarantees of every record: the length and every field
      other than price, change and volume are kept, volume only ever becomes positive, a
      record without data is left exactly as it was, and a changed price is the latest
      close downloaded for that code. */
  lemma CalibratedProperties(stocks: seq<StockRecord>, download: Option<map<string, Frame>>)
    ensures stocks == [] || download.None? ==> Calibrated(stocks, download) == stocks
    ensures |Calibrated(stocks, download)| == |stocks|
    ensures forall i :: 0 <= i < |stocks| ==> SameIdentity(stocks[i], Calibrated(stocks, download)[i])
    ensures download.Some? ==>
      forall i :: 0 <= i < |stocks| && NoDataFor(stocks, stocks[i].code, download.value)
        ==> Calibrated(stocks, download)[i] == stocks[i]
    ensures download.Some? ==>
      forall i :: 0 <= i < |stocks| ==>
        Calibrated(stocks, download)[i].price == stocks[i].price
        || SourcedPrice(stocks, stocks[i].code, download.value, Calibrated(stocks, download)[i].price)
  {
    if stocks != [] && download.Some? {
      CalibrateNShape(stocks, |stocks|, download.value);
    }
  }

  /** The first record with a code is the only one carrying it. */
  lemma {:induction false} FirstWithCodeUnique(stocks: seq<StockRecord>, code: string, i: int)
    requires 0 <= i < |stocks| && stocks[i].code == code
    requires forall j :: 0 <= j < |stocks| && j != i ==> stocks[j].code != code
    ensures FirstWithCode(stocks, code) == Some(stocks[i])
  {
    if i > 0 {
      assert stocks[0].code != code;
      FirstWithCodeUnique(stocks[1..], code, i - 1);
    }
  }

  /** One step keeps the length and the code of every record. */
  lemma StepCodes(cur: seq<StockRecord>, code: string, sym: string, data: map<string, Frame>)
    ensures |Step(cur, code, sym, data)| == |cur|
    ensures forall j :: 0 <= j < |cur| ==> Step(cur, code, sym, data)[j].code == cur[j].code
  {
  }

  /** Every step keeps the length and the code of every record. */
  lemma {:induction false} CalibrateNCodes(orig: seq<StockRecord>, n: nat, data: map<string, Frame>)
    requires n <= |orig|
    ensures |CalibrateN(orig, n, data)| == |orig|
    ensures forall j :: 0 <= j < |orig| ==> CalibrateN(orig, n, data)[j].code == orig[j].code
  {
    if n > 0 {
      CalibrateNCodes(orig, n - 1, data);
      var s := orig[n - 1];
      StepCodes(CalibrateN(orig, n - 1, data), s.code, SymbolOf(s.code, s.market), data);
    }
  }

  /** A step for another code leaves a record as it is. */
  lemma StepOther(cur: seq<StockRecord>, code: string, sym: string, data: map<string, Frame>, i: int)
    requires 0 <= i < |cur| && cur[i].code != code
    ensures |Step(cur, code, sym, data)| == |cur| && Step(cur, code, sym, data)[i] == cur[i]
  {
  }

  /** The record at `i` with its own symbol's fix applied, if there is one. */
  function Fixed(orig: seq<StockRecord>, data: map<string, Frame>, i: int): StockRecord
    requires 0 <= i < |orig|
  {
    var q := QuoteFor(orig, orig[i].code, SymbolOf(orig[i].code, orig[i].market), data);
    if q.Some? then Apply(orig[i], orig[i].code, q.value) else orig[i]
  }

  /** The step for a record's own symbol, reached with the record and every code as they
      were, applies the fix the original list gives. */
  lemma StepOwn(orig: seq<StockRecord>, prev: seq<StockRecord>, data: map<string, Frame>, i: int)
    requires 0 <= i < |orig| == |prev| && prev[i] == orig[i]
    requires forall j :: 0 <= j < |orig| ==> prev[j].code == orig[j].code
    requires forall j :: 0 <= j < |orig| && j != i ==> orig[j].code != orig[i].code
    ensures var next := Step(prev, orig[i].code, SymbolOf(orig[i].code, orig[i].market), data);
            |next| == |orig| && next[i] == Fixed(orig, data, i)
  {
    var code := orig[i].code;
    var sym := SymbolOf(code, orig[i].market);
    FirstWithCodeUnique(prev, code, i);
    FirstWithCodeUnique(orig, code, i);
    QuoteForSameFirst(prev, orig, code, sym, data);
  }

  /** The fix reads the record list only through the first record with the code. */
  lemma QuoteForSameFirst(cur: seq<StockRecord>, other: seq<StockRecord>, code: string, sym: string, data: map<string, Frame>)
    requires FirstWithCode(cur, code) == FirstWithCode(other, code)
    ensures QuoteFor(cur, code, sym, data) == QuoteFor(other, code, sym, data)
  {
    if sym in data && DropAllNaN(data[sym]) != [] {
      var rows := DropAllNaN(data[sym]);
      assert PrevClose(cur, code, rows) == PrevClose(other, code, rows);
    }
  }

  /** Such a record is kept by every symbol but its own. */
  lemma RecordKept(orig: seq<StockRecord>, data: map<string, Frame>, i: int, k: nat)
    requires 0 <= i < |orig| && 0 < k <= |orig| && k - 1 != i
    requires forall j :: 0 <= j < |orig| && j != i ==> orig[j].code != orig[i].code
    ensures RecordAfter(orig, data, i, k) == RecordAfter(orig, data, i, k - 1)
  {
    var prev := CalibrateN(orig, k - 1, data);
    CalibrateNCodes(orig, k - 1, data);
    var s := orig[k - 1];
    var next := Step(prev, s.code, SymbolOf(s.code, s.market), data);
    assert CalibrateN(orig, k, data) == next;
    StepOther(prev, s.code, SymbolOf(s.code, s.market), data, i);
    assert RecordAfter(orig, data, i, k - 1) == prev[i];
    assert RecordAfter(orig, data, i, k) == next[i];
  }

  /** Every symbol but its own keeps such a record. */
  lemma RecordKeptAll(orig: seq<StockRecord>, data: map<string, Frame>, i: int)
    requires 0 <= i < |orig|
    requires forall j :: 0 <= j < |orig| && j != i ==> orig[j].code != orig[i].code
    ensures forall k: nat :: 0 < k <= |orig| && k - 1 != i ==> RecordAfter(orig, data, i, k) == RecordAfter(orig, data, i, k - 1)
  {
    forall k: nat | 0 < k <= |orig| && k - 1 != i
      ensures RecordAfter(orig, data, i, k) == RecordAfter(orig, data, i, k - 1)
    {
      RecordKept(orig, data, i, k);
    }
  }

  /** The record at `i` after the first `k` symbols. */
  function RecordAfter(orig: seq<StockRecord>, data: map<string, Frame>, i: int, k: nat): StockRecord
    requires 0 <= i < |orig|
  {
    if k <= |orig| && i < |CalibrateN(orig, k, data)| then CalibrateN(orig, k, data)[i] else orig[i]
  }

  /** A value that no step from `m` to `n` changes is the same at both ends. */
  lemma {:induction false} ConstantFrom(f: nat -> StockRecord, m: nat, n: nat)
    requires m <= n
    requires forall k :: m < k <= n ==> f(k) == f(k - 1)
    ensures f(n) == f(m)
  {
    if m < n {
      ConstantFrom(f, m, n - 1);
    }
  }

  /** A record whose code no other record shares is untouched until its own symbol is
      processed. */
  lemma UntouchedBefore(orig: seq<StockRecord>, data: map<string, Frame>, i: int)
    requires 0 <= i < |orig|
    requires forall j :: 0 <= j < |orig| && j != i ==> orig[j].code != orig[i].code
    ensures |CalibrateN(orig, i, data)| == |orig| && CalibrateN(orig, i, data)[i] == orig[i]
  {
    RecordKeptAll(orig, data, i);
    ConstantFrom((k: nat) => RecordAfter(orig, data, i, k), 0, i);
    CalibrateNCodes(orig, i, data);
  }

  /** Processing its own symbol gives such a record that symbol's fix, if any. */
  lemma FixedAt(orig: seq<StockRecord>, data: map<string, Frame>, i: int)
    requires 0 <= i < |orig|
    requires forall j :: 0 <= j < |orig| && j != i ==> orig[j].code != orig[i].code
    ensures |CalibrateN(orig, i + 1, data)| == |orig| && CalibrateN(orig, i + 1, data)[i] == Fixed(orig, data, i)
  {
    UntouchedBefore(orig, data, i);
    CalibrateNCodes(orig, i, data);
    StepOwn(orig, CalibrateN(orig, i, data), data, i);
  }

  /** When no other record shares its code, a record ends with its symbol's fix: the
      latest close, the change against the previous close and, when positive, the latest
      volume; a record whose symbol is skipped keeps its values. */
  lemma CalibratedUnique(stocks: seq<StockRecord>, data: map<string, Frame>, i: int)
    requires 0 <= i < |stocks|
    requires forall j :: 0 <= j < |stocks| && j != i ==> stocks[j].code != stocks[i].code
    ensures |Calibrated(stocks, Some(data))| == |stocks|
    ensures var q := QuoteFor(stocks, stocks[i].code, SymbolOf(stocks[i].code, stocks[i].market), data);
            var r := Calibrated(stocks, Some(data))[i];
            (q.None? ==> r == stocks[i])
            && (q.Some? ==>
                  r == Apply(stocks[i], stocks[i].code, q.value)
                  && r.price == q.value.price && r.changePct == q.value.changePct
                  && r.volume == (if q.value.volume > 0 then q.value.volume else stocks[i].volume))
  {
    FixedAtEnd(stocks, data, i);
    assert Calibrated(stocks, Some(data)) == CalibrateN(stocks, |stocks|, data);
  }

  /** After every symbol, such a record holds its own symbol's fix, if any. */
  lemma FixedAtEnd(stocks: seq<StockRecord>, data: map<string, Frame>, i: int)
    requires 0 <= i < |stocks|
    requires forall j :: 0 <= j < |stocks| && j != i ==> stocks[j].code != stocks[i].code
    ensures |CalibrateN(stocks, |stocks|, data)| == |stocks| && CalibrateN(stocks, |stocks|, data)[i] == Fixed(stocks, data, i)
  {
    KeptAfter(stocks, data, i);
    CalibrateNCodes(stocks, |stocks|, data);
    FixedAt(stocks, data, i);
  }

  /** The symbols after its own leave such a record as its own symbol left it. */
  lemma KeptAfter(stocks: seq<StockRecord>, data: map<string, Frame>, i: int)
    requires 0 <= i < |stocks|
    requires forall j :: 0 <= j < |stocks| && j != i ==> stocks[j].code != stocks[i].code
    ensures RecordAfter(stocks, data, i, |stocks|) == RecordAfter(stocks, data, i, i + 1)
  {
    RecordKeptAll(stocks, data, i);
    ConstantFrom((k: nat) => RecordAfter(stocks, data, i, k), i + 1, |stocks|);
  }

  /** Two distinct records never share a ticker symbol unless they share the code and market. */
  lemma SymbolOfInjective(c1: string, m1: Market, c2: string, m2: Market)
    requires SymbolOf(c1, m1) == SymbolOf(c2, m2)
    ensures c1 == c2 && m1 == m2
  {
    var sym := SymbolOf(c1, m1);
    if |c1| == |c2| {
      assert c1 == sym[..|c1|] == c2;
    }
  }

  /** The loop that builds the symbol list and `sym_to_code`. */
  method BuildSymbols(stocks: seq<StockRecord>) returns (symbols: seq<string>, symToCode: map<string, string>)
    ensures |symbols| == |stocks|
    ensures forall j :: 0 <= j < |stocks| ==> symbols[j] == SymbolOf(stocks[j].code, stocks[j].market)
    ensures forall j :: 0 <= j < |stocks| ==> symbols[j] in symToCode && symToCode[symbols[j]] == stocks[j].code
  {
    symbols := [];
    symToCode := map[];
    for k := 0 to |stocks|
      invariant |symbols| == k
      invariant forall j :: 0 <= j < k ==> symbols[j] == SymbolOf(stocks[j].code, stocks[j].market)
      invariant forall j :: 0 <= j < k ==> symbols[j] in symToCode && symToCode[symbols[j]] == stocks[j].code
    {
      var s := stocks[k];
      var sym := SymbolOf(s.code, s.market);
      ghost var oldMap := symToCode;
      symbols := symbols + [sym];
      symToCode := symToCode[sym := s.code];
      forall j | 0 <= j <= k ensures symbols[j] in symToCode && symToCode[symbols[j]] == stocks[j].code {
        if j < k && symbols[j] == sym {
          SymbolOfInjective(stocks[j].code, stocks[j].market, s.code, s.market);
        } else if j < k {
          assert symToCode[symbols[j]] == oldMap[symbols[j]];
        }
      }
    }
  }

  /** The body of the per-symbol loop: compute the fix, then write it into every record
      with that code. */
  method CalibrateSymbol(stocks: array<StockRecord>, sym: string, code: string, df: map<string, Frame>)
    modifies stocks
    ensures stocks[..] == Step(old(stocks[..]), code, sym, df)
  {
    if sym !in df {
      return;
    }
    var sub := DropAllNaN(df[sym]);
    if sub == [] {
      return;
    }
    var latest := sub[|sub| - 1];
    var currentPrice := latest.close;
    var prevClose: real;
    if |sub| >= 2 {
      prevClose := sub[|sub| - 2].close;
    } else {
      var sObj := FirstWithCode(stocks[..], code);
      if sObj.None? || !PrevCloseDefined(sObj.value.changePct) {
        return;
      }
      prevClose := DerivedPrevClose(sObj.value.price, sObj.value.changePct);
    }
    if prevClose == 0.0 || latest.volume.None? {
      return;
    }
    var changePct := (currentPrice - prevClose) / prevClose * 100.0;
    var volume := latest.volume.value;
    ghost var fix := Fix(currentPrice, changePct, volume);
    assert QuoteFor(stocks[..], code, sym, df) == Some(fix);
    for j := 0 to stocks.Length
      invariant forall t :: 0 <= t < j ==> stocks[t] == Apply(old(stocks[t]), code, fix)
      invariant forall t :: j <= t < stocks.Length ==> stocks[t] == old(stocks[t])
    {
      if stocks[j].code == code {
        var v := if volume > 0 then volume else stocks[j].volume;
        stocks[j] := stocks[j].(price := currentPrice, changePct := changePct, volume := v);
      }
    }
    assert stocks[..] == ApplyAll(old(stocks[..]), code, fix);
  }

  /** `fetch_realtime_prices(stocks)`, updating the list's records in place. */
  method FetchRealtimePrices(stocks: array<StockRecord>, download: Option<map<string, Frame>>)
    modifies stocks
    ensures stocks[..] == Calibrated(old(stocks[..]), download)
  {
    if stocks.Length == 0 {
      return;
    }
    ghost var orig := stocks[..];
    var symbols, symToCode := BuildSymbols(stocks[..]);
    if download.None? {
      return;
    }
    var df := download.value;
    for k := 0 to |symbols|
      invariant stocks[..] == CalibrateN(orig, k, df)
    {
      var sym := symbols[k];
      CalibrateSymbol(stocks, sym, symToCode[sym], df);
    }
  }
}
