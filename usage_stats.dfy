/** The usage statistics of stock_dashboard/stock_dashboard.py: `record_user_action` counts
    each (action, ticker) pair and keeps its ten latest details, `get_smart_watchlist`
    derives a watchlist from the counts, and `get_user_insights` names the most frequent
    ticker per action. The statistics file becomes a field; the clock is a parameter. */
module UsageStats {
  import opened Wrappers
  import opened Ordering
  import opened OrderedDicts

  /** Details kept per (action, ticker). */
  const MaxDetails: nat := 10

  datatype Detail = Detail(timestamp: string, info: string)

  /** `{"count", "last_used", "details"}` */
  datatype Usage = Usage(count: nat, lastUsed: Option<string>, details: seq<Detail>)

  /** action -> ticker -> usage, both levels in insertion order. */
  type Stats = Dict<string, Dict<string, Usage>>

  const FreshUsage: Usage := Usage(0, None, [])

  // ----- record_user_action -----

  /** The ten most recent details, oldest first. */
  function Recent(ds: seq<Detail>): (r: seq<Detail>)
    ensures |r| <= MaxDetails
    ensures |r| == if |ds| <= MaxDetails then |ds| else MaxDetails
    ensures r == ds[|ds| - |r|..]
  {
    if |ds| > MaxDetails then ds[|ds| - MaxDetails..] else ds
  }

  /** `if details:` -- absent and empty details are falsy. */
  predicate Truthy(details: Option<string>) {
    details.Some? && details.value != ""
  }

  /** The usage entry after one more use at `now`. */
  function Used(u: Usage, details: Option<string>, now: string): Usage {
    Usage(u.count + 1, Some(now),
          if Truthy(details) then Recent(u.details + [Detail(now, details.value)]) else u.details)
  }

  /** The statistics after `record_user_action(action, ticker, details)`. */
  function Record(stats: Stats, action: string, ticker: string, details: Option<string>, now: string): Stats {
    var perAction := Get(stats, action).GetOr([]);
    var u := Get(perAction, ticker).GetOr(FreshUsage);
    Put(stats, action, Put(perAction, ticker, Used(u, details, now)))
  }

  /** The count of a pair, 0 when it has never been recorded. */
  function CountOf(stats: Stats, action: string, ticker: string): nat {
    Get(Get(stats, action).GetOr([]), ticker).GetOr(FreshUsage).count
  }

  /** Recording raises that pair's count by exactly one and changes no other pair's count
      (a missing action or ticker starts from 0). */
  lemma RecordCounts(stats: Stats, action: string, ticker: string, details: Option<string>, now: string,
                     action': string, ticker': string)
    ensures CountOf(Record(stats, action, ticker, details, now), action', ticker') ==
              CountOf(stats, action', ticker') + (if action' == action && ticker' == ticker then 1 else 0)
  {
    var perAction := Get(stats, action).GetOr([]);
    var u := Get(perAction, ticker).GetOr(FreshUsage);
    if action' != action {
      PutOther(stats, action, Put(perAction, ticker, Used(u, details, now)), action');
    } else if ticker' != ticker {
      PutOther(perAction, ticker, Used(u, details, now), ticker');
    }
  }

  /** After recording, the pair holds the used entry. */
  lemma RecordStores(stats: Stats, action: string, ticker: string, details: Option<string>, now: string)
    ensures Get(Record(stats, action, ticker, details, now), action).Some?
    ensures Get(Get(Record(stats, action, ticker, details, now), action).value, ticker) ==
              Some(Used(Get(Get(stats, action).GetOr([]), ticker).GetOr(FreshUsage), details, now))
  {
  }

  /** A use appends the detail only when it is truthy, keeps at most ten, and keeps the
      most recent ones. */
  lemma UsedDetails(u: Usage, details: Option<string>, now: string)
    ensures |Used(u, details, now).details| <= MaxDetails || Used(u, details, now).details == u.details
    ensures Truthy(details) ==>
              var ds := Used(u, details, now).details;
              |ds| <= MaxDetails && ds != [] && ds[|ds| - 1] == Detail(now, details.value)
              && ds == (u.details + [Detail(now, details.value)])[|u.details| + 1 - |ds|..]
    ensures !Truthy(details) ==> Used(u, details, now).details == u.details
    ensures Used(u, details, now).count == u.count + 1
  {
  }

  /** The count, timestamp and detail updates of `record_user_action` on one entry. */
  method UseEntry(u: Usage, details: Option<string>, now: string) returns (r: Usage)
    ensures r == Used(u, details, now)
  {
    r := u.(count := u.count + 1, lastUsed := Some(now));
    if details.Some? && details.value != "" {
      r := r.(details := r.details + [Detail(now, details.value)]);
      if |r.details| > MaxDetails {
        r := r.(details := r.details[|r.details| - MaxDetails..]);
      }
    }
  }

  /** The statistics kept across calls (`usage_stats.json`). */
  class UsageTracker {
    var stats: Stats

    constructor (initial: Stats)
      ensures stats == initial
    {
      stats := initial;
    }

    /** `record_user_action(action, ticker, details)` at time `now`. */
    method RecordUserAction(action: string, ticker: string, details: Option<string>, now: string)
      modifies this
      ensures stats == Record(old(stats), action, ticker, details, now)
    {
      ghost var perAction0 := Get(stats, action).GetOr([]);
      ghost var u0 := Get(perAction0, ticker).GetOr(FreshUsage);
      var s := stats;
      if Get(s, action).None? {
        s := Put(s, action, []);
      }
      var perAction := Get(s, action).value;
      assert perAction == perAction0;
      if Get(perAction, ticker).None? {
        perAction := Put(perAction, ticker, FreshUsage);
      }
      var u := Get(perAction, ticker).value;
      assert u == u0;
      u := UseEntry(u, details, now);
      if Get(perAction0, ticker).None? {
        PutPut(perAction0, ticker, FreshUsage, u);
      }
      perAction := Put(perAction, ticker, u);
      if Get(stats, action).None? {
        PutPut(stats, action, [], perAction);
      }
      stats := Put(s, action, perAction);
    }
  }

  // ----- get_smart_watchlist -----

  const DefaultWatchlist: seq<string> := ["NVDA", "AAPL", "TSLA", "AMD", "MSFT", "GOOG", "META", "AMZN", "TSM", "AVGO"]

  const RemoveStock: string := "remove_stock"
  const AddStock: string := "add_stock"
  const AnalyzeStock: string := "analyze_stock"

  /** Removals at which a default stock is dropped, adds and analyses at which a stock is
      suggested, and the number of suggestions. */
  const RemoveThreshold: nat := 2
  const AddThreshold: nat := 2
  const AnalyzeThreshold: nat := 3
  const MaxSuggestions: nat := 3

  predicate NoDup<T(==)>(xs: seq<T>) {
    forall i, j :: 0 <= i < j < |xs| ==> xs[i] != xs[j]
  }

  /** `xs.remove(x)`: drop the first occurrence. */
  function RemoveFirst<T(==)>(xs: seq<T>, x: T): seq<T>
    requires x in xs
  {
    if xs[0] == x then xs[1..] else [xs[0]] + RemoveFirst(xs[1..], x)
  }

  /** The filter that drops `x`. */
  function Except<T(==)>(x: T): T -> bool {
    (y: T) => y != x
  }

  /** Without repeats, removing the first occurrence removes every occurrence. */
  lemma {:induction false} RemoveFirstSelect<T(!new)>(xs: seq<T>, x: T)
    requires x in xs && NoDup(xs)
    ensures RemoveFirst(xs, x) == Select(xs, Except(x))
  {
    if xs[0] == x {
      assert x !in xs[1..];
      NotInSelect(xs[1..], x);
    } else {
      RemoveFirstSelect(xs[1..], x);
    }
  }

  /** Selecting for `y != x` changes nothing when `x` is absent. */
  lemma {:induction false} NotInSelect<T>(xs: seq<T>, x: T)
    requires x !in xs
    ensures Select(xs, Except(x)) == xs
  {
    if xs != [] {
      NotInSelect(xs[1..], x);
    }
  }

  /** `{ticker: data["count"] for ticker, data in stats[action].items() if data["count"] > 0}` */
  function PositiveCounts(entries: Dict<string, Usage>): Dict<string, nat> {
    if entries == [] then []
    else
      var init := PositiveCounts(entries[..|entries| - 1]);
      var (t, u) := entries[|entries| - 1];
      if u.count > 0 then Put(init, t, u.count) else init
  }

  function CountsFor(stats: Stats, action: string): Dict<string, nat> {
    PositiveCounts(Get(stats, action).GetOr([]))
  }

  /** The counted tickers are distinct and every count is positive. */
  lemma {:induction false} PositiveCountsSound(entries: Dict<string, Usage>)
    ensures DistinctKeys(PositiveCounts(entries))
    ensures forall p :: p in PositiveCounts(entries) ==> p.1 > 0
  {
    if entries != [] {
      var init := entries[..|entries| - 1];
      PositiveCountsSound(init);
      var (t, u) := entries[|entries| - 1];
      if u.count > 0 {
        PutDistinct(PositiveCounts(init), t, u.count);
        PutValues(PositiveCounts(init), t, u.count);
      }
    }
  }

  /** Every value of an assignment result is the new value or an old one. */
  lemma {:induction false} PutValues<K(!new), V>(d: Dict<K, V>, k: K, v: V)
    ensures forall p :: p in Put(d, k, v) ==> p == (k, v) || p in d
  {
    if d != [] && d[0].0 != k {
      PutValues(d[1..], k, v);
    }
  }

  /** A default stock is dropped when some removal count of it reaches the threshold. */
  predicate RemovedOften(removed: Dict<string, nat>, stock: string) {
    exists p :: p in removed && p.0 == stock && p.1 >= RemoveThreshold
  }

  function KeepStock(removed: Dict<string, nat>): string -> bool {
    (stock: string) => !RemovedOften(removed, stock)
  }

  /** The removal loop over `removed_stocks`. */
  function Pruned(smart: seq<string>, removed: Dict<string, nat>): seq<string> {
    if removed == [] then smart
    else
      var s := Pruned(smart, removed[..|removed| - 1]);
      var (stock, n) := removed[|removed| - 1];
      if n >= RemoveThreshold && stock in s then RemoveFirst(s, stock) else s
  }

  lemma RemovedOftenSnoc(init: Dict<string, nat>, stock: string, n: nat, y: string)
    ensures RemovedOften(init + [(stock, n)], y) <==> RemovedOften(init, y) || (y == stock && n >= RemoveThreshold)
  {
    if RemovedOften(init + [(stock, n)], y) {
      var p :| p in init + [(stock, n)] && p.0 == y && p.1 >= RemoveThreshold;
    }
    if RemovedOften(init, y) {
      var p :| p in init && p.0 == y && p.1 >= RemoveThreshold;
      assert p in init + [(stock, n)];
    }
    if y == stock && n >= RemoveThreshold {
      assert (stock, n) in init + [(stock, n)];
    }
  }

  /** A removal below the threshold changes nothing. */
  lemma PruneKeeps(smart: seq<string>, init: Dict<string, nat>, stock: string, n: nat)
    requires n < RemoveThreshold
    ensures Select(smart, KeepStock(init)) == Select(smart, KeepStock(init + [(stock, n)]))
  {
    forall i | 0 <= i < |smart| ensures KeepStock(init)(smart[i]) == KeepStock(init + [(stock, n)])(smart[i]) {
      RemovedOftenSnoc(init, stock, n, smart[i]);
    }
    SelectSame(smart, KeepStock(init), KeepStock(init + [(stock, n)]));
  }

  /** A removal at the threshold filters the stock out as well. */
  lemma PruneFilters(smart: seq<string>, init: Dict<string, nat>, stock: string, n: nat)
    requires n >= RemoveThreshold
    ensures Select(Select(smart, KeepStock(init)), Except(stock))
            == Select(smart, KeepStock(init + [(stock, n)]))
  {
    var ne := Except(stock);
    var removed := init + [(stock, n)];
    forall i | 0 <= i < |smart| ensures Both(KeepStock(init), ne)(smart[i]) == KeepStock(removed)(smart[i]) {
      RemovedOftenSnoc(init, stock, n, smart[i]);
    }
    SelectSame(smart, Both(KeepStock(init), ne), KeepStock(removed));
    SelectSelect(smart, KeepStock(init), ne);
  }

  /** One step of the removal loop on a list without repeats, viewed as a filter. */
  lemma PruneStep(smart: seq<string>, init: Dict<string, nat>, stock: string, n: nat)
    requires NoDup(smart)
    ensures var s := Select(smart, KeepStock(init));
            (if n >= RemoveThreshold && stock in s then RemoveFirst(s, stock) else s)
            == Select(smart, KeepStock(init + [(stock, n)]))
  {
    var s := Select(smart, KeepStock(init));
    if n >= RemoveThreshold {
      PruneFilters(smart, init, stock, n);
      if stock in s {
        SelectNoDup(smart, KeepStock(init));
        RemoveFirstSelect(s, stock);
      } else {
        NotInSelect(s, stock);
      }
    } else {
      PruneKeeps(smart, init, stock, n);
    }
  }

  /** On a list without repeats, pruning keeps exactly the stocks not removed often, in
      their order. */
  lemma {:induction false} PrunedSelects(smart: seq<string>, removed: Dict<string, nat>)
    requires NoDup(smart)
    ensures Pruned(smart, removed) == Select(smart, KeepStock(removed))
  {
    if removed == [] {
      SelectAll(smart, KeepStock(removed));
    } else {
      var init := removed[..|removed| - 1];
      var (stock, n) := removed[|removed| - 1];
      PrunedSelects(smart, init);
      assert removed == init + [(stock, n)];
      PruneStep(smart, init, stock, n);
    }
  }

  lemma {:induction false} SelectAll<T>(s: seq<T>, p: T -> bool)
    requires forall x :: p(x)
    ensures Select(s, p) == s
  {
    if s != [] {
      SelectAll(s[1..], p);
    }
  }

  /** Two filters that agree on every element of the list select the same elements. */
  lemma {:induction false} SelectSame<T>(s: seq<T>, p: T -> bool, q: T -> bool)
    requires forall i :: 0 <= i < |s| ==> p(s[i]) == q(s[i])
    ensures Select(s, p) == Select(s, q)
  {
    if s != [] {
      SelectSame(s[1..], p, q);
    }
  }

  lemma {:induction false} SelectNoDup<T>(s: seq<T>, p: T -> bool)
    requires NoDup(s)
    ensures NoDup(Select(s, p))
  {
    if s != [] {
      SelectNoDup(s[1..], p);
      assert s[0] !in s[1..];
      var r := Select(s[1..], p);
      forall y | y in r ensures y != s[0] {
        assert y in multiset(s[1..]);
      }
    }
  }

  /** A suggestion: a ticker and the count that qualified it. */
  type Suggestion = (string, nat)

  function SuggestionKey(p: Suggestion): real { p.1 as real }

  /** The add loop: frequently added stocks not on the list. */
  function FromAdds(smart: seq<string>, added: Dict<string, nat>): seq<Suggestion> {
    if added == [] then []
    else
      var init := FromAdds(smart, added[..|added| - 1]);
      var (stock, n) := added[|added| - 1];
      if n >= AddThreshold && stock !in smart then init + [(stock, n)] else init
  }

  /** The analysis loop: frequently analysed stocks not on the list and not yet suggested. */
  function FromAnalyses(smart: seq<string>, analyzed: Dict<string, nat>, base: seq<Suggestion>): seq<Suggestion> {
    if analyzed == [] then base
    else
      var init := FromAnalyses(smart, analyzed[..|analyzed| - 1], base);
      var (stock, n) := analyzed[|analyzed| - 1];
      if n >= AnalyzeThreshold && stock !in smart && stock !in Keys(init) then init + [(stock, n)] else init
  }

  /** `frequent_stocks` before sorting. */
  function Frequent(smart: seq<string>, added: Dict<string, nat>, analyzed: Dict<string, nat>): seq<Suggestion> {
    FromAnalyses(smart, analyzed, FromAdds(smart, added))
  }

  /** Why a stock may be suggested: added at least twice or analysed at least three times. */
  predicate Qualifies(added: Dict<string, nat>, analyzed: Dict<string, nat>, p: Suggestion) {
    (p in added && p.1 >= AddThreshold) || (p in analyzed && p.1 >= AnalyzeThreshold)
  }

  /** Every add suggestion qualifies and is not on the list, and no ticker is suggested twice. */
  lemma {:induction false} FromAddsSound(smart: seq<string>, added: Dict<string, nat>)
    requires DistinctKeys(added)
    ensures forall p :: p in FromAdds(smart, added) ==> p in added && p.1 >= AddThreshold && p.0 !in smart
    ensures DistinctKeys(FromAdds(smart, added))
  {
    if added != [] {
      var init := added[..|added| - 1];
      var last := added[|added| - 1];
      assert added == init + [last];
      FromAddsSound(smart, init);
      var prev := FromAdds(smart, init);
      forall p | p in prev ensures p in added && p.0 != last.0 {
        var i :| 0 <= i < |init| && init[i] == p;
        assert added[i] == p;
      }
    }
  }

  /** Every analysis suggestion qualifies and is not on the list, and no ticker is suggested
      twice; `whole` is the complete analysis dictionary the loop runs over. */
  lemma {:induction false} FromAnalysesSound(smart: seq<string>, added: Dict<string, nat>, whole: Dict<string, nat>,
                                             analyzed: Dict<string, nat>, base: seq<Suggestion>)
    requires forall p :: p in analyzed ==> p in whole
    requires forall p :: p in base ==> Qualifies(added, whole, p) && p.0 !in smart
    requires DistinctKeys(base)
    ensures forall p :: p in FromAnalyses(smart, analyzed, base) ==> Qualifies(added, whole, p) && p.0 !in smart
    ensures DistinctKeys(FromAnalyses(smart, analyzed, base))
  {
    if analyzed != [] {
      var init := analyzed[..|analyzed| - 1];
      var last := analyzed[|analyzed| - 1];
      assert analyzed == init + [last];
      assert last in whole;
      assert last.1 >= AnalyzeThreshold ==> Qualifies(added, whole, last);
      FromAnalysesSound(smart, added, whole, init, base);
    }
  }

  /** Every frequently added stock not on the list is suggested with its add count. */
  lemma {:induction false} FromAddsComplete(smart: seq<string>, added: Dict<string, nat>, p: Suggestion)
    requires p in added && p.1 >= AddThreshold && p.0 !in smart
    ensures p in FromAdds(smart, added)
  {
    var init := added[..|added| - 1];
    if added[|added| - 1] != p {
      var i :| 0 <= i < |added| && added[i] == p;
      assert init[i] == p;
      FromAddsComplete(smart, init, p);
    }
  }

  /** The analysis loop only appends to what the add loop found. */
  lemma {:induction false} FromAnalysesExtends(smart: seq<string>, analyzed: Dict<string, nat>, base: seq<Suggestion>)
    ensures base <= FromAnalyses(smart, analyzed, base)
  {
    if analyzed != [] {
      FromAnalysesExtends(smart, analyzed[..|analyzed| - 1], base);
    }
  }

  /** Every frequently analysed stock not on the list is suggested, with its analysis count
      or, when the add loop already suggested it, with its add count. */
  lemma {:induction false} FromAnalysesComplete(smart: seq<string>, analyzed: Dict<string, nat>, base: seq<Suggestion>, p: Suggestion)
    requires p in analyzed && p.1 >= AnalyzeThreshold && p.0 !in smart
    ensures p.0 in Keys(FromAnalyses(smart, analyzed, base))
  {
    var init := analyzed[..|analyzed| - 1];
    var prev := FromAnalyses(smart, init, base);
    var r := FromAnalyses(smart, analyzed, base);
    assert prev <= r;
    if analyzed[|analyzed| - 1] != p {
      var i :| 0 <= i < |analyzed| && analyzed[i] == p;
      assert init[i] == p;
      FromAnalysesComplete(smart, init, base, p);
    }
    if p.0 in Keys(prev) {
      var j :| 0 <= j < |prev| && Keys(prev)[j] == p.0;
      assert Keys(r)[j] == p.0;
    } else {
      assert r == prev + [p];
      assert Keys(r)[|r| - 1] == p.0;
    }
  }

  /** Every qualifying stock not on the list is among the suggestions. */
  lemma FrequentComplete(smart: seq<string>, added: Dict<string, nat>, analyzed: Dict<string, nat>, p: Suggestion)
    requires Qualifies(added, analyzed, p) && p.0 !in smart
    ensures p.0 in Keys(Frequent(smart, added, analyzed))
  {
    var base := FromAdds(smart, added);
    if p in added && p.1 >= AddThreshold {
      FromAddsComplete(smart, added, p);
      FromAnalysesExtends(smart, analyzed, base);
      var r := Frequent(smart, added, analyzed);
      var j :| 0 <= j < |base| && base[j] == p;
      assert Keys(r)[j] == p.0;
    } else {
      FromAnalysesComplete(smart, analyzed, base, p);
    }
  }

  /** Insertion adds `x` and nothing else. */
  lemma {:induction false} InsertMembers(x: Suggestion, s: seq<Suggestion>, key: Suggestion -> real, y: Suggestion)
    requires y in Insert(x, s, key)
    ensures y == x || y in s
  {
    if s != [] && key(s[0]) > key(x) && y != s[0] {
      InsertMembers(x, s[1..], key, y);
    }
  }

  /** Inserting a pair whose key is new keeps the keys distinct. */
  lemma {:induction false} InsertDistinct(x: Suggestion, s: seq<Suggestion>, key: Suggestion -> real)
    requires DistinctKeys(s) && x.0 !in Keys(s)
    ensures DistinctKeys(Insert(x, s, key))
  {
    if s != [] && key(s[0]) > key(x) {
      assert Keys(s) == [s[0].0] + Keys(s[1..]);
      InsertDistinct(x, s[1..], key);
      var r := Insert(x, s[1..], key);
      forall k | 0 <= k < |r| ensures r[k].0 != s[0].0 {
        InsertMembers(x, s[1..], key, r[k]);
        if r[k] != x {
          var j :| 0 <= j < |s[1..]| && s[1..][j] == r[k];
          assert s[j + 1] == r[k];
        }
      }
      assert Insert(x, s, key) == [s[0]] + r;
    } else if s != [] {
      assert Insert(x, s, key) == [x] + s;
      forall k | 0 <= k < |s| ensures s[k].0 != x.0 {
        assert Keys(s)[k] == s[k].0;
      }
    }
  }

  /** Sorting keeps the keys distinct. */
  lemma {:induction false} SortDistinct(s: seq<Suggestion>, key: Suggestion -> real)
    requires DistinctKeys(s)
    ensures DistinctKeys(SortDesc(s, key))
  {
    if s != [] {
      SortDistinct(s[1..], key);
      var r := SortDesc(s[1..], key);
      forall j | 0 <= j < |r| ensures Keys(r)[j] != s[0].0 {
        assert r[j] in multiset(s[1..]);
        var i :| 0 <= i < |s[1..]| && s[1..][i] == r[j];
        assert s[i + 1] == r[j];
      }
      InsertDistinct(s[0], r, key);
    }
  }

  /** Append each picked ticker that is not on the list yet. */
  function Appended(smart: seq<string>, picks: seq<Suggestion>): seq<string> {
    if picks == [] then smart
    else
      var s := Appended(smart, picks[..|picks| - 1]);
      var stock := picks[|picks| - 1].0;
      if stock !in s then s + [stock] else s
  }

  /** Picks that are new and distinct are all appended, in order. */
  lemma {:induction false} AppendedAll(smart: seq<string>, picks: seq<Suggestion>)
    requires forall i :: 0 <= i < |picks| ==> picks[i].0 !in smart
    requires DistinctKeys(picks)
    ensures Appended(smart, picks) == smart + Keys(picks)
  {
    if picks != [] {
      var init := picks[..|picks| - 1];
      var last := picks[|picks| - 1].0;
      LastPickNew(smart, picks, init);
      AppendedAll(smart, init);
      assert Appended(smart, picks) == (smart + Keys(init)) + [last];
    }
  }

  /** The earlier picks meet the same conditions, and the last pick is new to the list
      extended by them. */
  lemma LastPickNew(smart: seq<string>, picks: seq<Suggestion>, init: seq<Suggestion>)
    requires picks != [] && init == picks[..|picks| - 1]
    requires forall i :: 0 <= i < |picks| ==> picks[i].0 !in smart
    requires DistinctKeys(picks)
    ensures forall i :: 0 <= i < |init| ==> init[i].0 !in smart
    ensures DistinctKeys(init)
    ensures picks[|picks| - 1].0 !in smart + Keys(init)
    ensures Keys(picks) == Keys(init) + [picks[|picks| - 1].0]
  {
    var n := |picks| - 1;
    var last := picks[n];
    forall i | 0 <= i < n ensures init[i] == picks[i] {
    }
    assert picks == init + [last];
    forall j | 0 <= j < n ensures Keys(init)[j] != last.0 {
      assert Keys(init)[j] == picks[j].0;
    }
    assert last.0 !in smart;
    assert last.0 !in Keys(init);
    KeysSnoc(init, last);
  }

  /** The suggestions `get_smart_watchlist` appends: by count descending, at most three. */
  function Picks(pruned: seq<string>, added: Dict<string, nat>, analyzed: Dict<string, nat>): seq<Suggestion> {
    Take(SortDesc(Frequent(pruned, added, analyzed), SuggestionKey), MaxSuggestions)
  }

  /** `get_smart_watchlist()` over the statistics. */
  function SmartWatchlist(stats: Stats): seq<string> {
    var pruned := Pruned(DefaultWatchlist, CountsFor(stats, RemoveStock));
    Appended(pruned, Picks(pruned, CountsFor(stats, AddStock), CountsFor(stats, AnalyzeStock)))
  }

  /** The picks are distinct, qualify, are not on the pruned list, come in descending
      count order, and outrank every suggestion left out. */
  lemma PicksSound(pruned: seq<string>, added: Dict<string, nat>, analyzed: Dict<string, nat>)
    requires DistinctKeys(added)
    ensures var picks := Picks(pruned, added, analyzed);
            |picks| <= MaxSuggestions
            && DistinctKeys(picks)
            && (forall p :: p in picks ==> Qualifies(added, analyzed, p) && p.0 !in pruned)
            && SortedDesc(picks, SuggestionKey)
            && (forall p, x :: p in picks && x in Frequent(pruned, added, analyzed) && x.0 !in Keys(picks) ==>
                  SuggestionKey(x) <= SuggestionKey(p))
  {
    FromAddsSound(pruned, added);
    FromAnalysesSound(pruned, added, analyzed, analyzed, FromAdds(pruned, added));
    var frequent := Frequent(pruned, added, analyzed);
    var sorted := SortDesc(frequent, SuggestionKey);
    SortDistinct(frequent, SuggestionKey);
    var picks := Take(sorted, MaxSuggestions);
    forall p | p in picks ensures p in frequent {
      assert p in multiset(sorted);
    }
    TopSuggestions(frequent);
  }

  /** The first three of the sorted suggestions are in descending count order and outrank
      every suggestion whose ticker they leave out. */
  lemma TopSuggestions(frequent: seq<Suggestion>)
    ensures var picks := Take(SortDesc(frequent, SuggestionKey), MaxSuggestions);
            SortedDesc(picks, SuggestionKey)
            && forall p, x :: p in picks && x in frequent && x.0 !in Keys(picks) ==> SuggestionKey(x) <= SuggestionKey(p)
  {
    var sorted := SortDesc(frequent, SuggestionKey);
    var picks := Take(sorted, MaxSuggestions);
    SortDescSorted(frequent, SuggestionKey);
    forall p, x | p in picks && x in frequent && x.0 !in Keys(picks)
      ensures SuggestionKey(x) <= SuggestionKey(p)
    {
      assert x in multiset(sorted);
      var j :| 0 <= j < |sorted| && sorted[j] == x;
      var i :| 0 <= i < |picks| && picks[i] == p;
      TopKOutranksRest(frequent, SuggestionKey, MaxSuggestions, i, j);
    }
  }

  /** The list followed by the new picks' tickers has no repeats. */
  lemma AppendNoDup(pruned: seq<string>, picks: seq<Suggestion>)
    requires NoDup(pruned) && DistinctKeys(picks)
    requires forall p :: p in picks ==> p.0 !in pruned
    ensures NoDup(pruned + Keys(picks))
  {
    var r := pruned + Keys(picks);
    forall i, j | 0 <= i < j < |r| ensures r[i] != r[j] {
      if i < |pruned| <= j {
        assert r[j] == picks[j - |pruned|].0 && picks[j - |pruned|] in picks;
      } else if |pruned| <= i {
        assert r[i] == picks[i - |pruned|].0 && r[j] == picks[j - |pruned|].0;
      }
    }
  }

  /** The default list names every stock once. */
  lemma DefaultDistinct()
    ensures NoDup(DefaultWatchlist)
  {
  }

  /** The watchlist is the default list without the often-removed stocks, in default order,
      followed by the tickers of at most three picks, each added at least twice or analysed
      at least three times and not already listed, chosen by count in descending order
      from all such stocks; no stock appears twice. */
  lemma SmartWatchlistProperties(stats: Stats)
    ensures var pruned := Select(DefaultWatchlist, KeepStock(CountsFor(stats, RemoveStock)));
            var added := CountsFor(stats, AddStock);
            var analyzed := CountsFor(stats, AnalyzeStock);
            var picks := Picks(pruned, added, analyzed);
            SmartWatchlist(stats) == pruned + Keys(picks)
            && |picks| <= MaxSuggestions
            && (forall p :: p in picks ==> Qualifies(added, analyzed, p) && p.0 !in pruned)
            && SortedDesc(picks, SuggestionKey)
            && (forall p, x :: p in picks && x in Frequent(pruned, added, analyzed) && x.0 !in Keys(picks) ==>
                  SuggestionKey(x) <= SuggestionKey(p))
            && NoDup(SmartWatchlist(stats))
  {
    var removed := CountsFor(stats, RemoveStock);
    var added := CountsFor(stats, AddStock);
    var analyzed := CountsFor(stats, AnalyzeStock);
    DefaultDistinct();
    PrunedSelects(DefaultWatchlist, removed);
    var pruned := Pruned(DefaultWatchlist, removed);
    SelectNoDup(DefaultWatchlist, KeepStock(removed));
    PositiveCountsSound(Get(stats, AddStock).GetOr([]));
    PicksSound(pruned, added, analyzed);
    var picks := Picks(pruned, added, analyzed);
    AppendedNoDup(pruned, picks);
    assert SmartWatchlist(stats) == Appended(pruned, picks);
  }

  /** Appending new, distinct picks to a list without repeats appends all their tickers. */
  lemma AppendedNoDup(pruned: seq<string>, picks: seq<Suggestion>)
    requires NoDup(pruned) && DistinctKeys(picks)
    requires forall p :: p in picks ==> p.0 !in pruned
    ensures Appended(pruned, picks) == pruned + Keys(picks)
    ensures NoDup(Appended(pruned, picks))
  {
    assert forall i :: 0 <= i < |picks| ==> picks[i] in picks;
    AppendedAll(pruned, picks);
    AppendNoDup(pruned, picks);
  }

  /** The dictionary comprehension over one action's entries. */
  method CollectPositive(entries: Dict<string, Usage>) returns (counts: Dict<string, nat>)
    ensures counts == PositiveCounts(entries)
  {
    counts := [];
    for k := 0 to |entries|
      invariant counts == PositiveCounts(entries[..k])
    {
      assert entries[..k + 1][..k] == entries[..k];
      var (ticker, data) := entries[k];
      if data.count > 0 {
        counts := Put(counts, ticker, data.count);
      }
    }
    assert entries[..|entries|] == entries;
  }

  method CountsOf(stats: Stats, action: string) returns (counts: Dict<string, nat>)
    ensures counts == CountsFor(stats, action)
  {
    counts := [];
    var entries := Get(stats, action);
    if entries.Some? {
      counts := CollectPositive(entries.value);
    }
  }

  /** The removal loop. */
  method PruneDefaults(removed: Dict<string, nat>) returns (smart: seq<string>)
    ensures smart == Pruned(DefaultWatchlist, removed)
  {
    smart := DefaultWatchlist;
    for k := 0 to |removed|
      invariant smart == Pruned(DefaultWatchlist, removed[..k])
    {
      assert removed[..k + 1][..k] == removed[..k];
      var (stock, n) := removed[k];
      if n >= RemoveThreshold && stock in smart {
        smart := RemoveFirst(smart, stock);
      }
    }
    assert removed[..|removed|] == removed;
  }

  /** The add and analysis loops building `frequent_stocks`. */
  method CollectFrequent(smart: seq<string>, added: Dict<string, nat>, analyzed: Dict<string, nat>)
    returns (frequent: seq<Suggestion>)
    ensures frequent == Frequent(smart, added, analyzed)
  {
    frequent := [];
    for k := 0 to |added|
      invariant frequent == FromAdds(smart, added[..k])
    {
      assert added[..k + 1][..k] == added[..k];
      var (stock, n) := added[k];
      if n >= AddThreshold && stock !in smart {
        frequent := frequent + [(stock, n)];
      }
    }
    assert added[..|added|] == added;
    var base := frequent;
    for k := 0 to |analyzed|
      invariant frequent == FromAnalyses(smart, analyzed[..k], base)
    {
      assert analyzed[..k + 1][..k] == analyzed[..k];
      var (stock, n) := analyzed[k];
      if n >= AnalyzeThreshold && stock !in smart && stock !in Keys(frequent) {
        frequent := frequent + [(stock, n)];
      }
    }
    assert analyzed[..|analyzed|] == analyzed;
  }

  /** The final loop over the top picks. */
  method AppendPicks(smart: seq<string>, picks: seq<Suggestion>) returns (r: seq<string>)
    ensures r == Appended(smart, picks)
  {
    r := smart;
    for k := 0 to |picks|
      invariant r == Appended(smart, picks[..k])
    {
      assert picks[..k + 1][..k] == picks[..k];
      var stock := picks[k].0;
      if stock !in r {
        r := r + [stock];
      }
    }
    assert picks[..|picks|] == picks;
  }

  /** `get_smart_watchlist()` on loaded statistics. */
  method GetSmartWatchlist(stats: Stats) returns (smartList: seq<string>)
    ensures smartList == SmartWatchlist(stats)
  {
    var removedStocks := CountsOf(stats, RemoveStock);
    var addedStocks := CountsOf(stats, AddStock);
    var analyzedStocks := CountsOf(stats, AnalyzeStock);
    smartList := PruneDefaults(removedStocks);
    var frequent := CollectFrequent(smartList, addedStocks, analyzedStocks);
    frequent := SortDesc(frequent, SuggestionKey);
    smartList := AppendPicks(smartList, Take(frequent, MaxSuggestions));
  }

  // ----- get_user_insights -----

  function UsageKey(p: (string, Usage)): real { p.1.count as real }

  /** `sorted(stats[action].items(), key=count, reverse=True)[0][0]`, if any. */
  function MostFrequent(entries: Dict<string, Usage>): Option<string> {
    if entries == [] then None else Some(SortDesc(entries, UsageKey)[0].0)
  }

  /** The most frequent ticker exists exactly when there are entries, has an entry, and no
      entry has a larger count. */
  lemma MostFrequentIsMax(entries: Dict<string, Usage>)
    ensures MostFrequent(entries).None? <==> entries == []
    ensures MostFrequent(entries).Some? ==>
              exists u :: (MostFrequent(entries).value, u) in entries
                          && forall p :: p in entries ==> p.1.count <= u.count
  {
    if entries != [] {
      var sorted := SortDesc(entries, UsageKey);
      SortDescSorted(entries, UsageKey);
      assert sorted[0] in multiset(entries);
      forall p | p in entries ensures p.1.count <= sorted[0].1.count {
        assert p in multiset(sorted);
        var j :| 0 <= j < |sorted| && sorted[j] == p;
        if j > 0 {
          assert UsageKey(sorted[0]) >= UsageKey(sorted[j]);
        }
      }
    }
  }

  /** The insights: each key present only when its action has entries. */
  datatype Insights = Insights(mostRemoved: Option<string>, mostAnalyzed: Option<string>, mostAdded: Option<string>)

  function MostFor(stats: Stats, action: string): Option<string> {
    match Get(stats, action)
    case None => None
    case Some(entries) => MostFrequent(entries)
  }

  /** `get_user_insights()` */
  function UserInsights(stats: Stats): (r: Insights)
    ensures r.mostRemoved.Some? <==> Get(stats, RemoveStock).Some? && Get(stats, RemoveStock).value != []
    ensures r.mostAnalyzed.Some? <==> Get(stats, AnalyzeStock).Some? && Get(stats, AnalyzeStock).value != []
    ensures r.mostAdded.Some? <==> Get(stats, AddStock).Some? && Get(stats, AddStock).value != []
  {
    Insights(MostFor(stats, RemoveStock), MostFor(stats, AnalyzeStock), MostFor(stats, AddStock))
  }
}
