/** The five-day average range (pkg/indicators/volatility.go): klines are
    grouped by UTC calendar day, only days strictly before the day of the
    newest kline count, each day's range is its highest high minus its
    lowest low, days without a positive range are dropped, and the result
    is the mean range of the five most recent remaining days (0 when there
    are fewer than five). Days are integer day numbers since the epoch. */
module Volatility {
  import opened Types

  const MsPerDay: int := 86_400_000

  /** The UTC calendar day of a millisecond timestamp (floor division, so
      instants before the epoch fall on negative days). */
  function DayOf(timestamp: int): int { timestamp / MsPerDay }

  datatype DayRange = DayRange(maxHigh: real, minLow: real)

  datatype DayVol = DayVol(date: int, volatility: real)

  /** One step of the grouping loop: klines on or after the current day are
      skipped, the first kline of a day opens its entry, later ones widen it. */
  function AddKline(days: map<int, DayRange>, k: Kline, current: int): map<int, DayRange>
  {
    var d := DayOf(k.timestamp);
    if !(d < current) then days
    else if d !in days then days[d := DayRange(k.high, k.low)]
    else
      var r := days[d];
      days[d := DayRange(if k.high > r.maxHigh then k.high else r.maxHigh,
                         if k.low < r.minLow then k.low else r.minLow)]
  }

  /** The day map after the grouping loop has seen `ks`. */
  function DaysOf(ks: seq<Kline>, current: int): map<int, DayRange>
  {
    if ks == [] then map[] else AddKline(DaysOf(ks[..|ks| - 1], current), ks[|ks| - 1], current)
  }

  function Range(r: DayRange): real { r.maxHigh - r.minLow }

  /** The day entries with a positive range, as the second loop collects them. */
  function Qualifying(days: map<int, DayRange>): set<DayVol>
  {
    set d | d in days && Range(days[d]) > 0.0 :: DayVol(d, Range(days[d]))
  }

  /** No two entries share a date. */
  predicate UniqueDates(s: set<DayVol>)
  {
    forall x, y :: x in s && y in s && x.date == y.date ==> x == y
  }

  predicate DescendingDates(xs: seq<DayVol>)
  {
    forall p, q :: 0 <= p < q < |xs| ==> xs[p].date >= xs[q].date
  }

  lemma LatestExists(s: set<DayVol>)
    requires s != {}
    ensures exists m :: m in s && forall x :: x in s ==> x.date <= m.date
  {
    var x :| x in s;
    if s == {x} {
      assert forall y :: y in s ==> y.date <= x.date;
    } else {
      assert |s - {x}| < |s| by {
        assert s == (s - {x}) + {x};
      }
      LatestExists(s - {x});
      var m :| m in s - {x} && forall y :: y in s - {x} ==> y.date <= m.date;
      if x.date > m.date {
        assert forall y :: y in s ==> y.date <= x.date;
      } else {
        assert forall y :: y in s ==> y.date <= m.date;
      }
    }
  }

  /** The entries of `s`, most recent date first. */
  function Newest(s: set<DayVol>): (xs: seq<DayVol>)
    requires UniqueDates(s)
    ensures |xs| == |s|
    ensures forall k :: 0 <= k < |xs| ==> xs[k] in s
    ensures DescendingDates(xs)
    decreases |s|
  {
    if s == {} then []
    else
      LatestExists(s);
      var m :| m in s && forall x :: x in s ==> x.date <= m.date;
      [m] + Newest(s - {m})
  }

  function SumVolatility(xs: seq<DayVol>): real
  {
    if xs == [] then 0.0 else SumVolatility(xs[..|xs| - 1]) + xs[|xs| - 1].volatility
  }

  lemma QualifyingUnique(days: map<int, DayRange>)
    ensures UniqueDates(Qualifying(days))
  {
  }

  /** CalculateVolatility5Days as a function of the klines (oldest first). */
  function Volatility5DaysOf(klines: seq<Kline>): real
  {
    if klines == [] then 0.0
    else
      var days := DaysOf(klines, DayOf(klines[|klines| - 1].timestamp));
      var q := Qualifying(days);
      QualifyingUnique(days);
      if |q| < 5 then 0.0 else SumVolatility(Newest(q)[..5]) / 5.0
  }

  // ---- the imperative steps ----

  /** The grouping loop over all klines. */
  method GroupByDay(klines: seq<Kline>, current: int) returns (days: map<int, DayRange>)
    ensures days == DaysOf(klines, current)
  {
    days := map[];
    var i := 0;
    while i < |klines|
      invariant 0 <= i <= |klines|
      invariant days == DaysOf(klines[..i], current)
    {
      var kline := klines[i];
      var klineDate := DayOf(kline.timestamp);
      assert klines[..i + 1][..i] == klines[..i];
      if klineDate < current {
        if klineDate !in days {
          days := days[klineDate := DayRange(kline.high, kline.low)];
        } else {
          var r := days[klineDate];
          var maxHigh := r.maxHigh;
          var minLow := r.minLow;
          if kline.high > maxHigh {
            maxHigh := kline.high;
          }
          if kline.low < minLow {
            minLow := kline.low;
          }
          days := days[klineDate := DayRange(maxHigh, minLow)];
        }
      }
      i := i + 1;
    }
    assert klines[..|klines|] == klines;
  }

  lemma SomeKey(s: set<int>) returns (k: int)
    requires s != {}
    ensures k in s
  {
    if forall x :: x !in s {
      assert false;
    }
    k :| k in s;
  }

  /** An entry the collecting loop has already emitted. */
  ghost predicate Counted(days: map<int, DayRange>, remaining: set<int>, x: DayVol)
  {
    x.date in days && x.date !in remaining && Range(days[x.date]) > 0.0 && x.volatility == Range(days[x.date])
  }

  /** The loop over the day map, visiting its entries in an unspecified
      order (Go's map iteration order) and keeping those with a positive
      range. */
  method CollectQualifying(days: map<int, DayRange>) returns (list: seq<DayVol>)
    ensures multiset(list) == multiset(Qualifying(days))
  {
    list := [];
    var remaining := days.Keys;
    ghost var seen: set<DayVol> := {};
    while remaining != {}
      invariant remaining <= days.Keys
      invariant forall x :: x in seen <==> Counted(days, remaining, x)
      invariant multiset(list) == multiset(seen)
      decreases |remaining|
    {
      ghost var someKey := SomeKey(remaining);
      var dateKey :| dateKey in remaining;
      var volatility := Range(days[dateKey]);
      if volatility > 0.0 {
        var x := DayVol(dateKey, volatility);
        assert x !in seen;
        list := list + [x];
        seen := seen + {x};
      }
      remaining := remaining - {dateKey};
    }
    assert seen == Qualifying(days);
  }

  /** Every entry before `i` is at least as recent as every entry after it. */
  predicate SortedPrefix(s: seq<DayVol>, i: int)
  {
    forall p, q :: 0 <= p < i && p < q < |s| ==> s[p].date >= s[q].date
  }

  /** The exchange `a[i], a[j] = a[j], a[i]`. */
  method Swap(a: array<DayVol>, i: int, j: int)
    requires 0 <= i < j < a.Length
    modifies a
    ensures a[..] == old(a[..])[i := old(a[j])][j := old(a[i])]
    ensures multiset(a[..]) == multiset(old(a[..]))
  {
    a[i], a[j] := a[j], a[i];
  }

  /** The inner loop of the exchange sort: pass over the entries after `i`,
      swapping whenever a more recent one is found, so that position `i`
      ends up holding the most recent of a[i..]. */
  method SwapLatestInto(a: array<DayVol>, i: int)
    requires 0 <= i < a.Length
    requires SortedPrefix(a[..], i)
    modifies a
    ensures multiset(a[..]) == multiset(old(a[..]))
    ensures SortedPrefix(a[..], i + 1)
  {
    var n := a.Length;
    var j := i + 1;
    while j < n
      invariant i + 1 <= j <= n
      invariant multiset(a[..]) == multiset(old(a[..]))
      invariant LatestSoFar(a[..], i, j)
      invariant SortedPrefix(a[..], i)
    {
      ghost var before := a[..];
      if a[i].date < a[j].date {
        Swap(a, i, j);
        SwapKeepsOrder(before, a[..], i, j);
      }
      assert LatestSoFar(a[..], i, j + 1);
      j := j + 1;
    }
    NewSortedPrefix(a[..], i);
  }

  /** Position i holds the most recent of positions i..j-1. */
  predicate LatestSoFar(s: seq<DayVol>, i: int, j: int)
  {
    0 <= i < |s| && forall q :: i < q < j && q < |s| ==> s[i].date >= s[q].date
  }

  /** Swapping a more recent entry into position i keeps both orders. */
  lemma SwapKeepsOrder(before: seq<DayVol>, after: seq<DayVol>, i: int, j: int)
    requires 0 <= i < j < |before| && after == before[i := before[j]][j := before[i]]
    requires SortedPrefix(before, i) && LatestSoFar(before, i, j) && before[i].date < before[j].date
    ensures SortedPrefix(after, i) && LatestSoFar(after, i, j + 1)
  {
    assert forall k :: 0 <= k < |after| ==>
      after[k] == if k == i then before[j] else if k == j then before[i] else before[k];
  }

  lemma NewSortedPrefix(s: seq<DayVol>, i: int)
    requires 0 <= i < |s| && SortedPrefix(s, i) && LatestSoFar(s, i, |s|)
    ensures SortedPrefix(s, i + 1)
  {
  }

  /** The exchange sort, most recent date first. */
  method SortByDateDescending(a: array<DayVol>)
    modifies a
    ensures multiset(a[..]) == multiset(old(a[..]))
    ensures DescendingDates(a[..])
  {
    var n := a.Length;
    var i := 0;
    while i < n - 1
      invariant 0 <= i && (n > 0 ==> i <= n - 1)
      invariant multiset(a[..]) == multiset(old(a[..]))
      invariant SortedPrefix(a[..], i)
    {
      SwapLatestInto(a, i);
      i := i + 1;
    }
    assert SortedPrefix(a[..], n);
  }

  /** The final loop: the sum of the first five volatilities. */
  method SumFirstFive(a: array<DayVol>) returns (total: real)
    requires a.Length >= 5
    ensures total == SumVolatility(a[..5])
  {
    total := 0.0;
    var i := 0;
    while i < 5
      invariant 0 <= i <= 5
      invariant total == SumVolatility(a[..i])
    {
      assert a[..i + 1][..i] == a[..i];
      total := total + a[i].volatility;
      i := i + 1;
    }
  }

  /** CalculateVolatility5Days: 0 for no klines or fewer than five
      qualifying days, otherwise the mean range of the five most recent
      qualifying days before the newest kline's day. */
  method CalculateVolatility5Days(klines: seq<Kline>) returns (v: real)
    ensures v == Volatility5DaysOf(klines)
  {
    if |klines| == 0 {
      return 0.0;
    }
    var lastKline := klines[|klines| - 1];
    var currentDate := DayOf(lastKline.timestamp);
    var days := GroupByDay(klines, currentDate);
    var list := CollectQualifying(days);
    ghost var q := Qualifying(days);
    assert |list| == |q| by {
      assert |multiset(list)| == |list|;
      assert |multiset(q)| == |q|;
    }
    if |list| < 5 {
      return 0.0;
    }
    var a := new DayVol[|list|](k requires 0 <= k < |list| => list[k]);
    assert a[..] == list;
    SortByDateDescending(a);
    QualifyingUnique(days);
    SortedIsNewest(a[..], q);
    var total := SumFirstFive(a);
    v := total / 5.0;
  }

  // ---- properties ----

  lemma HeadIsLatest(xs: seq<DayVol>, s: set<DayVol>, m: DayVol)
    requires UniqueDates(s) && DescendingDates(xs) && multiset(xs) == multiset(s)
    requires m in s && forall x :: x in s ==> x.date <= m.date
    ensures |xs| > 0 && xs[0] == m
  {
    assert m in multiset(xs);
    var k :| 0 <= k < |xs| && xs[k] == m;
    assert xs[0] in multiset(s);
    assert xs[0].date >= xs[k].date;
  }

  lemma TailMultiset(xs: seq<DayVol>, s: set<DayVol>, m: DayVol)
    requires multiset(xs) == multiset(s) && |xs| > 0 && xs[0] == m
    ensures multiset(xs[1..]) == multiset(s - {m})
  {
    assert m in multiset(xs);
    assert xs == [m] + xs[1..];
    assert multiset(xs) == multiset{m} + multiset(xs[1..]);
    assert m in s;
    var rest := s - {m};
    assert s == rest + {m} && m !in rest;
    assert multiset(s) == multiset(rest) + multiset{m};
    assert multiset(xs[1..]) == multiset(xs) - multiset{m};
    assert multiset(rest) == multiset(s) - multiset{m};
  }

  /** A date-descending sequence holding exactly the entries of a set with
      unique dates is that set, newest first: the sort's result does not
      depend on the order the map was visited in. */
  lemma {:induction false} SortedIsNewest(xs: seq<DayVol>, s: set<DayVol>)
    requires UniqueDates(s)
    requires DescendingDates(xs) && multiset(xs) == multiset(s)
    ensures xs == Newest(s)
    decreases |s|
  {
    if s == {} {
      assert |xs| == |multiset(xs)| == 0;
    } else {
      var m := SortedHead(xs, s);
      SortedIsNewest(xs[1..], s - {m});
      assert xs == [m] + xs[1..];
    }
  }

  /** The first entry of such a sequence is the latest of the set, and the
      rest is a sequence of the same kind for the set without it. */
  lemma SortedHead(xs: seq<DayVol>, s: set<DayVol>) returns (m: DayVol)
    requires UniqueDates(s) && s != {}
    requires DescendingDates(xs) && multiset(xs) == multiset(s)
    ensures m in s && |xs| > 0 && xs[0] == m && |s - {m}| < |s|
    ensures UniqueDates(s - {m}) && DescendingDates(xs[1..]) && multiset(xs[1..]) == multiset(s - {m})
    ensures Newest(s) == [m] + Newest(s - {m})
  {
    m := NewestStep(s);
    HeadIsLatest(xs, s, m);
    TailMultiset(xs, s, m);
    DescendingTail(xs);
    RemoveOne(s, m);
  }

  lemma RemoveOne(s: set<DayVol>, m: DayVol)
    requires m in s
    ensures |s - {m}| < |s|
  {
    assert s == (s - {m}) + {m};
  }

  /** Newest puts the latest entry first. */
  lemma NewestStep(s: set<DayVol>) returns (m: DayVol)
    requires UniqueDates(s) && s != {}
    ensures m in s && (forall x :: x in s ==> x.date <= m.date) && UniqueDates(s - {m})
    ensures Newest(s) == [m] + Newest(s - {m})
  {
    LatestExists(s);
    m :| m in s && forall x :: x in s ==> x.date <= m.date;
    assert Newest(s) == [m] + Newest(s - {m});
  }

  lemma DescendingTail(xs: seq<DayVol>)
    requires DescendingDates(xs) && xs != []
    ensures DescendingDates(xs[1..])
  {
    assert forall k :: 0 <= k < |xs| - 1 ==> xs[1..][k] == xs[k + 1];
  }

  lemma {:induction false} SumNonNegative(xs: seq<DayVol>)
    requires forall k :: 0 <= k < |xs| ==> xs[k].volatility > 0.0
    ensures SumVolatility(xs) >= 0.0
  {
    if xs != [] {
      SumNonNegative(xs[..|xs| - 1]);
    }
  }

  /** Every counted range is positive, so the average is never negative. */
  lemma Volatility5DaysNonNegative(klines: seq<Kline>)
    ensures Volatility5DaysOf(klines) >= 0.0
  {
    if klines != [] {
      var days := DaysOf(klines, DayOf(klines[|klines| - 1].timestamp));
      var q := Qualifying(days);
      if |q| >= 5 {
        var top := Newest(q)[..5];
        assert forall k :: 0 <= k < 5 ==> top[k] in q;
        SumNonNegative(top);
      }
    }
  }

  /** Some kline of `ks` falls on day `d`. */
  ghost predicate HasKlineOn(ks: seq<Kline>, d: int)
  {
    exists k :: 0 <= k < |ks| && DayOf(ks[k].timestamp) == d
  }

  /** The day map has an entry exactly for the days strictly before the
      current one on which some kline falls. */
  lemma {:induction false} DaysOfKeys(ks: seq<Kline>, current: int)
    ensures forall d :: d in DaysOf(ks, current) <==> d < current && HasKlineOn(ks, d)
  {
    if ks != [] {
      var init := ks[..|ks| - 1];
      DaysOfKeys(init, current);
      forall d
        ensures d in DaysOf(ks, current) <==> d < current && HasKlineOn(ks, d)
      {
        if HasKlineOn(ks, d) && d != DayOf(ks[|ks| - 1].timestamp) {
          var k :| 0 <= k < |ks| && DayOf(ks[k].timestamp) == d;
          assert init[k] == ks[k];
        }
        if HasKlineOn(init, d) {
          var k :| 0 <= k < |init| && DayOf(init[k].timestamp) == d;
          assert init[k] == ks[k];
        }
      }
    }
  }

  /** Each entry's high bounds every high, and its low every low, of the
      klines on that day. */
  lemma {:induction false} DaysOfBounds(ks: seq<Kline>, current: int, d: int, k: int)
    requires d in DaysOf(ks, current)
    requires 0 <= k < |ks| && DayOf(ks[k].timestamp) == d
    ensures DaysOf(ks, current)[d].minLow <= ks[k].low
    ensures ks[k].high <= DaysOf(ks, current)[d].maxHigh
  {
    var init := ks[..|ks| - 1];
    if k < |ks| - 1 {
      assert init[k] == ks[k];
      DaysOfKeys(init, current);
      assert d in DaysOf(init, current);
      DaysOfBounds(init, current, d, k);
    } else {
      DaysOfKeys(ks, current);
      assert d < current;
    }
  }

  /** Each entry's high is the high, and its low the low, of some kline on
      that day. */
  lemma {:induction false} DaysOfAttained(ks: seq<Kline>, current: int, d: int)
    requires d in DaysOf(ks, current)
    ensures exists k :: 0 <= k < |ks| && DayOf(ks[k].timestamp) == d && ks[k].high == DaysOf(ks, current)[d].maxHigh
    ensures exists k :: 0 <= k < |ks| && DayOf(ks[k].timestamp) == d && ks[k].low == DaysOf(ks, current)[d].minLow
  {
    var init := ks[..|ks| - 1];
    var last := ks[|ks| - 1];
    var m := DaysOf(init, current);
    var r := DaysOf(ks, current)[d];
    if d == DayOf(last.timestamp) && d < current && d !in m {
      assert ks[|ks| - 1] == last;
    } else {
      DaysOfAttained(init, current, d);
      var k1 :| 0 <= k1 < |init| && DayOf(init[k1].timestamp) == d && init[k1].high == m[d].maxHigh;
      var k2 :| 0 <= k2 < |init| && DayOf(init[k2].timestamp) == d && init[k2].low == m[d].minLow;
      assert ks[k1] == init[k1] && ks[k2] == init[k2];
      if d == DayOf(last.timestamp) && d < current {
        if r.maxHigh != m[d].maxHigh {
          assert ks[|ks| - 1] == last;
        }
        if r.minLow != m[d].minLow {
          assert ks[|ks| - 1] == last;
        }
      }
    }
  }
}
