/** `_recent_trading_dates(n)` of debug_dates.py and app_v3.py: walking back one calendar day
    at a time from today, collect the weekdays until n are found or the walk's step budget
    is spent. Days are proleptic Gregorian ordinals (day 1 is Monday, 1 January of year 1),
    so `weekday()` is `(d + 6) % 7`; today is an input and the `YYYYMMDD` formatting is
    not modelled. */
module TradingDates {
  /** Python's `date.weekday()`: Monday is 0, Sunday is 6. */
  function Weekday(d: int): int {
    (d + 6) % 7
  }

  predicate IsWeekday(d: int) {
    Weekday(d) < 5
  }

  /** The step budget of debug_dates.py. */
  const DebugSteps: nat := 30

  /** The step budget of app_v3.py for n dates. */
  function AppSteps(n: nat): nat {
    n * 2 + 10
  }

  /** The weekdays among the first m days of the walk (today, yesterday, ...), newest first. */
  function WeekdaysBack(today: int, m: nat): seq<int> {
    if m == 0 then []
    else WeekdaysBack(today, m - 1) + (if IsWeekday(today - (m - 1)) then [today - (m - 1)] else [])
  }

  /** The walk: the loop stops after the first step at which n dates are collected, or
      when the budget runs out. */
  function Walk(today: int, n: nat, steps: nat, m: nat): seq<int>
    requires m <= steps
    decreases steps - m
  {
    if m == steps || (m > 0 && |WeekdaysBack(today, m)| >= n) then WeekdaysBack(today, m)
    else Walk(today, n, steps, m + 1)
  }

  function RecentTradingDates(today: int, n: nat, steps: nat): seq<int> {
    Walk(today, n, steps, 0)
  }

  /** One more day of the walk appends that day when it is a weekday. */
  lemma StepBack(today: int, m: nat)
    ensures WeekdaysBack(today, m + 1) == WeekdaysBack(today, m) + (if IsWeekday(today - m) then [today - m] else [])
  {
  }

  /** Every collected date is a weekday within the examined days, and there are at most as
      many dates as days. */
  lemma {:induction false} WeekdaysBackSound(today: int, m: nat)
    ensures forall i :: 0 <= i < |WeekdaysBack(today, m)| ==>
              IsWeekday(WeekdaysBack(today, m)[i]) && today - m < WeekdaysBack(today, m)[i] <= today
    ensures |WeekdaysBack(today, m)| <= m
  {
    if m > 0 {
      WeekdaysBackSound(today, m - 1);
      StepBack(today, m - 1);
    }
  }

  /** The dates are strictly decreasing, and today comes first when it is a weekday. */
  lemma {:induction false} WeekdaysBackOrder(today: int, m: nat)
    ensures forall i, j :: 0 <= i < j < |WeekdaysBack(today, m)| ==> WeekdaysBack(today, m)[i] > WeekdaysBack(today, m)[j]
    ensures m > 0 && IsWeekday(today) ==> |WeekdaysBack(today, m)| > 0 && WeekdaysBack(today, m)[0] == today
  {
    if m > 0 {
      WeekdaysBackOrder(today, m - 1);
      WeekdaysBackSound(today, m - 1);
      StepBack(today, m - 1);
      var p := WeekdaysBack(today, m - 1);
      var r := WeekdaysBack(today, m);
      var day := today - (m - 1);
      if IsWeekday(day) {
        assert r == p + [day];
        forall i, j | 0 <= i < j < |r| ensures r[i] > r[j] {
          assert r[i] == p[i];
          if j < |p| {
            assert r[j] == p[j];
          }
        }
      } else {
        assert r == p;
      }
      if m == 1 {
        assert r == if IsWeekday(today) then [today] else [];
      } else if IsWeekday(today) {
        assert r[0] == p[0];
      }
    }
  }

  /** The walk's result is the weekdays of the first m days for the first m that reaches n
      dates, or for the whole budget when none does. */
  lemma {:induction false} WalkStops(today: int, n: nat, steps: nat, m: nat) returns (stop: nat)
    requires m <= steps
    requires forall m' :: 0 < m' < m ==> |WeekdaysBack(today, m')| < n
    ensures m <= stop <= steps
    ensures Walk(today, n, steps, m) == WeekdaysBack(today, stop)
    ensures stop == steps || (stop > 0 && |WeekdaysBack(today, stop)| >= n)
    ensures forall m' :: 0 < m' < stop ==> |WeekdaysBack(today, m')| < n
    decreases steps - m
  {
    if m == steps || (m > 0 && |WeekdaysBack(today, m)| >= n) {
      stop := m;
    } else {
      stop := WalkStops(today, n, steps, m + 1);
    }
  }

  /** The result holds weekdays only, from the examined days, newest first and strictly
      decreasing, and starts with today when today is a weekday. */
  lemma RecentDatesSound(today: int, n: nat, steps: nat)
    ensures var r := RecentTradingDates(today, n, steps);
            (forall i :: 0 <= i < |r| ==> IsWeekday(r[i]) && today - steps < r[i] <= today)
            && (forall i, j :: 0 <= i < j < |r| ==> r[i] > r[j])
            && (steps > 0 && IsWeekday(today) ==> |r| > 0 && r[0] == today)
  {
    var stop := WalkStops(today, n, steps, 0);
    WeekdaysBackSound(today, stop);
    WeekdaysBackOrder(today, stop);
  }

  /** Each step adds at most one date. */
  lemma GrowsByOne(today: int, m: nat)
    ensures |WeekdaysBack(today, m)| <= |WeekdaysBack(today, m + 1)| <= |WeekdaysBack(today, m)| + 1
  {
  }

  /** At most n dates are returned when n is positive; with n = 0 the loop still examines
      today before its first check, so a weekday today is returned alone. */
  lemma AtMostN(today: int, n: nat, steps: nat)
    ensures |RecentTradingDates(today, n, steps)| <= if n == 0 then 1 else n
  {
    var stop := WalkStops(today, n, steps, 0);
    if stop > 0 {
      GrowsByOne(today, stop - 1);
      if stop - 1 == 0 {
        assert WeekdaysBack(today, 0) == [];
      }
    }
  }

  /** k days before a day with weekday w comes weekday w - k, modulo 7. */
  lemma WeekdayBack(d: int, k: int)
    requires 0 <= k < 7
    ensures Weekday(d - k) == if Weekday(d) >= k then Weekday(d) - k else Weekday(d) - k + 7
  {
    var q := (d + 6) / 7;
    var w := Weekday(d);
    assert d + 6 == 7 * q + w;
    if w >= k {
      ModOfSeven(d - k + 6, q, w - k);
    } else {
      ModOfSeven(d - k + 6, q - 1, w - k + 7);
    }
  }

  lemma ModOfSeven(a: int, q: int, r: int)
    requires a == 7 * q + r && 0 <= r < 7
    ensures a % 7 == r
  {
  }

  /** One more day of the walk adds that day when it is a weekday. */
  function Bit(d: int): nat {
    if IsWeekday(d) then 1 else 0
  }

  /** Seven consecutive days ending at d hold five weekdays. */
  lemma SevenBits(d: int)
    ensures Bit(d) + Bit(d - 1) + Bit(d - 2) + Bit(d - 3) + Bit(d - 4) + Bit(d - 5) + Bit(d - 6) == 5
  {
    WeekdayBack(d, 1);
    WeekdayBack(d, 2);
    WeekdayBack(d, 3);
    WeekdayBack(d, 4);
    WeekdayBack(d, 5);
    WeekdayBack(d, 6);
  }

  /** Seven more days of the walk add one bit per day. */
  lemma SevenSteps(today: int, m: nat)
    ensures var d := today - m;
            |WeekdaysBack(today, m + 7)| ==
              |WeekdaysBack(today, m)| + Bit(d) + Bit(d - 1) + Bit(d - 2) + Bit(d - 3) + Bit(d - 4) + Bit(d - 5) + Bit(d - 6)
  {
    var d := today - m;
    StepCount(today, m, d);
    StepCount(today, m + 1, d - 1);
    StepCount(today, m + 2, d - 2);
    StepCount(today, m + 3, d - 3);
    StepCount(today, m + 4, d - 4);
    StepCount(today, m + 5, d - 5);
    StepCount(today, m + 6, d - 6);
  }

  /** One more day of the walk, the day `d`, adds one bit. */
  lemma StepCount(today: int, m: nat, d: int)
    requires d == today - m
    ensures |WeekdaysBack(today, m + 1)| == |WeekdaysBack(today, m)| + Bit(d)
  {
    StepBack(today, m);
  }

  /** Any seven consecutive days hold five weekdays. */
  lemma WeekOfWeekdays(today: int, m: nat)
    ensures |WeekdaysBack(today, m + 7)| == |WeekdaysBack(today, m)| + 5
  {
    SevenSteps(today, m);
    SevenBits(today - m);
  }

  /** m days hold at least five weekdays per full week. */
  lemma {:induction false} WeekdaysAtLeast(today: int, m: nat)
    ensures |WeekdaysBack(today, m)| >= (m / 7) * 5
  {
    if m >= 7 {
      WeekdaysAtLeast(today, m - 7);
      WeekOfWeekdays(today, m - 7);
    }
  }

  /** A budget holding at least n weekdays yields exactly n dates for positive n. */
  lemma {:induction false} ExactlyN(today: int, n: nat, steps: nat)
    requires n > 0 && |WeekdaysBack(today, steps)| >= n
    ensures |RecentTradingDates(today, n, steps)| == n
  {
    var stop := WalkStops(today, n, steps, 0);
    AtMostN(today, n, steps);
  }

  /** app_v3.py's budget of 2n + 10 days always finds n dates. */
  lemma AppFindsN(today: int, n: nat)
    requires n > 0
    ensures |RecentTradingDates(today, n, AppSteps(n))| == n
  {
    var q := AppSteps(n) / 7;
    assert 7 * q >= 2 * n + 4;
    WeekdaysAtLeast(today, AppSteps(n));
    ExactlyN(today, n, AppSteps(n));
  }

  /** debug_dates.py's budget of 30 days finds n dates for n up to 20. */
  lemma DebugFindsN(today: int, n: nat)
    requires 0 < n <= 20
    ensures |RecentTradingDates(today, n, DebugSteps)| == n
  {
    WeekdaysAtLeast(today, DebugSteps);
    ExactlyN(today, n, DebugSteps);
  }

  /** The loop of `_recent_trading_dates`, with the step budget of either variant. */
  method RecentDates(today: int, n: nat, steps: nat) returns (dates: seq<int>)
    ensures dates == RecentTradingDates(today, n, steps)
  {
    dates := [];
    var d := today;
    var m := 0;
    while m < steps
      invariant m <= steps && d == today - m
      invariant dates == WeekdaysBack(today, m)
      invariant forall m' :: 0 < m' <= m ==> |WeekdaysBack(today, m')| < n
      decreases steps - m
    {
      if Weekday(d) < 5 {
        dates := dates + [d];
      }
      d := d - 1;
      m := m + 1;
      if |dates| >= n {
        break;
      }
    }
    ghost var stop := WalkStops(today, n, steps, 0);
  }
}
