/** The day-granularity allocator (`calculate_vacation_days`): windows between
    consecutive relevant anchors, a greedy count of extra days per window, and
    evenly spaced dates inside each window. */
module DayAllocator {
  import opened Dates

  /** chrono `Duration`s are counted here in nanoseconds. */
  const NANOS_PER_DAY: int := 86_400_000_000_000

  /** Division truncating toward zero, as chrono's `Duration / i32` does. */
  function DivTrunc(a: int, b: int): int
    requires b > 0
  {
    if a >= 0 then a / b else -((-a) / b)
  }

  /** `NaiveDate + Duration`: the date moves by the whole days of the duration,
      truncated toward zero. */
  function AddDuration(d: Date, nanos: int): Date {
    d + DivTrunc(nanos, NANOS_PER_DAY)
  }

  /** Number of windows (`windows(2)`) over a sequence of anchors. */
  function WindowCount(days: seq<Date>): nat {
    if |days| < 2 then 0 else |days| - 1
  }

  /** `compute_times_between_days`: the span of every window, as a duration. */
  function TimesBetweenDays(days: seq<Date>): (r: seq<int>)
    ensures |r| == WindowCount(days)
    ensures forall i :: 0 <= i < |r| ==> r[i] == (days[i + 1] - days[i]) * NANOS_PER_DAY
  {
    if |days| < 2 then []
    else [(days[1] - days[0]) * NANOS_PER_DAY] + TimesBetweenDays(days[1..])
  }

  lemma SortedSpansNonNegative(days: seq<Date>)
    requires Sorted(days)
    ensures forall i :: 0 <= i < |TimesBetweenDays(days)| ==> TimesBetweenDays(days)[i] >= 0
  {
    forall i | 0 <= i < |TimesBetweenDays(days)| ensures TimesBetweenDays(days)[i] >= 0 {
      assert days[i] <= days[i + 1];
    }
  }

  // ---------------------------------------------------------------------------
  // compute_days_per_bucket
  // ---------------------------------------------------------------------------

  /** The score `max_by` compares: a window's span divided by its count plus one. */
  function Score(span: int, count: nat): int {
    DivTrunc(span, count + 1)
  }

  /** `max_by` over the first `n` windows. `max_by` keeps the later element on a
      tie, so the result is the last window whose score is maximal. */
  function BestWindow(spans: seq<int>, counts: seq<nat>, n: nat): (b: nat)
    requires |counts| == |spans| && 0 < n <= |spans|
    ensures b < n
    ensures forall j :: 0 <= j < n ==> Score(spans[j], counts[j]) <= Score(spans[b], counts[b])
    ensures forall j :: b < j < n ==> Score(spans[j], counts[j]) < Score(spans[b], counts[b])
  {
    if n == 1 then 0
    else
      var b := BestWindow(spans, counts, n - 1);
      if Score(spans[b], counts[b]) <= Score(spans[n - 1], counts[n - 1]) then n - 1 else b
  }

  /** One round of the loop: the best window gets one more day. */
  function GreedyStep(spans: seq<int>, counts: seq<nat>): seq<nat>
    requires |counts| == |spans| > 0
  {
    var b := BestWindow(spans, counts, |spans|);
    counts[b := counts[b] + 1]
  }

  /** A round raises exactly one count, by one; that window has a maximal score,
      and no later window ties with it. */
  lemma GreedyStepRaisesBest(spans: seq<int>, counts: seq<nat>)
    requires |counts| == |spans| > 0
    ensures var r := GreedyStep(spans, counts);
            |r| == |counts| &&
            exists b :: 0 <= b < |r| && r[b] == counts[b] + 1
              && (forall j :: 0 <= j < |r| && j != b ==> r[j] == counts[j])
              && (forall j :: 0 <= j < |r| ==> Score(spans[j], counts[j]) <= Score(spans[b], counts[b]))
              && (forall j :: b < j < |r| ==> Score(spans[j], counts[j]) < Score(spans[b], counts[b]))
  {
    var b := BestWindow(spans, counts, |spans|);
    assert GreedyStep(spans, counts)[b] == counts[b] + 1;
  }

  function Zeros(n: nat): (r: seq<nat>)
    ensures |r| == n && Sum(r) == 0
    ensures forall i :: 0 <= i < n ==> r[i] == 0
  {
    if n == 0 then [] else Zeros(n - 1) + [0]
  }

  /** What `compute_days_per_bucket` returns: the counts after `numDays` rounds
      that start from zero. Every round hands out one day, so they add up to
      `numDays`. */
  function DaysPerBucket(spans: seq<int>, numDays: nat): (r: seq<nat>)
    requires numDays == 0 || |spans| > 0
    ensures |r| == |spans|
    ensures Sum(r) == numDays
  {
    if numDays == 0 then Zeros(|spans|)
    else
      var counts := DaysPerBucket(spans, numDays - 1);
      SumIncrement(counts, BestWindow(spans, counts, |spans|));
      GreedyStep(spans, counts)
  }

  /** The `enumerate().max_by(..)` scan over the windows. */
  method MaxByScore(spans: seq<int>, counts: seq<nat>) returns (idx: nat)
    requires |counts| == |spans| > 0
    ensures idx == BestWindow(spans, counts, |spans|)
  {
    idx := 0;
    var i := 1;
    while i < |spans|
      invariant 1 <= i <= |spans|
      invariant idx == BestWindow(spans, counts, i)
    {
      if Score(spans[idx], counts[idx]) <= Score(spans[i], counts[i]) {
        idx := i;
      }
      i := i + 1;
    }
  }

  lemma DaysPerBucketNext(spans: seq<int>, n: nat, idx: nat)
    requires |spans| > 0
    requires idx == BestWindow(spans, DaysPerBucket(spans, n), |spans|)
    ensures var counts := DaysPerBucket(spans, n);
            DaysPerBucket(spans, n + 1) == counts[idx := counts[idx] + 1]
  {
  }

  /** One round of the loop of `compute_days_per_bucket`: the `max_by` scan, then
      one more day for the window it picks. */
  method HandOutOne(spans: seq<int>, daysOff: seq<nat>, ghost n: nat) returns (next: seq<nat>)
    requires |spans| > 0 && daysOff == DaysPerBucket(spans, n)
    ensures next == DaysPerBucket(spans, n + 1)
  {
    var idx := MaxByScore(spans, daysOff);
    DaysPerBucketNext(spans, n, idx);
    next := daysOff[idx := daysOff[idx] + 1];
  }

  /** `compute_days_per_bucket`. The `unwrap` of `max_by` fails when there is no
      window and a day is still to be handed out; callers must avoid that. The
      source counts the days still to hand out down to zero; here the days
      already handed out are counted up to `numDays`, which runs the same
      number of rounds. */
  method ComputeDaysPerBucket(spans: seq<int>, numDays: uint16) returns (r: seq<nat>)
    requires numDays == 0 || |spans| > 0
    ensures r == DaysPerBucket(spans, numDays)
    ensures |r| == |spans| && Sum(r) == numDays
    ensures numDays == 0 ==> forall i :: 0 <= i < |r| ==> r[i] == 0
  {
    var daysOff := Zeros(|spans|);
    for handedOut := 0 to numDays
      invariant daysOff == DaysPerBucket(spans, handedOut)
    {
      daysOff := HandOutOne(spans, daysOff, handedOut);
    }
    r := daysOff;
    assert numDays == 0 ==> r == Zeros(|spans|);
  }

  // ---------------------------------------------------------------------------
  // compute_ideal_days_off
  // ---------------------------------------------------------------------------

  /** The dates placed in the window from `w0` to `w1` when it gets `k` days:
      `w0 + i * ((w1 - w0) / (k + 1))` for `i` in `1..=k`. */
  function WindowDays(w0: Date, w1: Date, k: nat): (r: seq<Date>)
    ensures |r| == k
  {
    var gap := DivTrunc((w1 - w0) * NANOS_PER_DAY, k + 1);
    seq(k, j => AddDuration(w0, gap * (j + 1)))
  }

  lemma DivBelow(m: int, d: int, q: int)
    requires 0 <= m && 0 < d && m < q * d
    ensures m / d < q
  {
  }

  lemma DivMonotone(m1: int, m2: int, d: int)
    requires 0 <= m1 <= m2 && 0 < d
    ensures m1 / d <= m2 / d
  {
    var q1, q2 := m1 / d, m2 / d;
    assert q1 * d <= m1;
    assert m2 < (q2 + 1) * d;
    assert q1 * d < (q2 + 1) * d;
    MulCancel(q1, q2 + 1, d);
  }

  lemma MulCancel(a: int, b: int, d: int)
    requires d > 0 && a * d < b * d
    ensures a < b
  {
  }

  lemma MulMonotone(g: int, a: int, b: int)
    requires 0 <= g && a <= b
    ensures g * a <= g * b
  {
  }

  /** The gap between placements: none when the window is empty, and `k` gaps
      stay short of a non-empty window. */
  lemma GapFits(s: int, k: nat)
    requires s >= 0
    ensures 0 <= DivTrunc(s, k + 1)
    ensures s > 0 ==> DivTrunc(s, k + 1) * k < s
    ensures s == 0 ==> DivTrunc(s, k + 1) == 0
  {
    var gap := s / (k + 1);
    assert gap * (k + 1) <= s;
    assert gap * k + gap <= s;
  }

  /** The `j`-th placed date of a window, for a window that does not go back. */
  lemma WindowDayAt(w0: Date, w1: Date, k: nat, j: nat)
    requires w0 <= w1 && j < k
    ensures var gap := DivTrunc((w1 - w0) * NANOS_PER_DAY, k + 1);
            0 <= gap && 0 <= gap * (j + 1) <= gap * k &&
            WindowDays(w0, w1, k)[j] == w0 + gap * (j + 1) / NANOS_PER_DAY
  {
    var gap := DivTrunc((w1 - w0) * NANOS_PER_DAY, k + 1);
    GapFits((w1 - w0) * NANOS_PER_DAY, k);
    MulMonotone(gap, 0, j + 1);
    MulMonotone(gap, j + 1, k);
    assert WindowDays(w0, w1, k)[j] == AddDuration(w0, gap * (j + 1));
  }

  /** Inside a window the placed dates never go back, start at the left anchor or
      later, and stay before the right anchor when the window is not empty. */
  lemma WindowDaysInside(w0: Date, w1: Date, k: nat)
    requires w0 <= w1
    ensures Sorted(WindowDays(w0, w1, k))
    ensures forall j :: 0 <= j < k ==> w0 <= WindowDays(w0, w1, k)[j] <= w1
    ensures w0 < w1 ==> forall j :: 0 <= j < k ==> WindowDays(w0, w1, k)[j] < w1
  {
    var r := WindowDays(w0, w1, k);
    var s := (w1 - w0) * NANOS_PER_DAY;
    var gap := DivTrunc(s, k + 1);
    GapFits(s, k);
    forall j | 0 <= j < k ensures w0 <= r[j] <= w1 && (w0 < w1 ==> r[j] < w1) {
      WindowDayAt(w0, w1, k, j);
      if w0 < w1 {
        DivBelow(gap * (j + 1), NANOS_PER_DAY, w1 - w0);
      }
    }
    forall i, j | 0 <= i < j < k ensures r[i] <= r[j] {
      WindowDayAt(w0, w1, k, i);
      WindowDayAt(w0, w1, k, j);
      MulMonotone(gap, i + 1, j + 1);
      DivMonotone(gap * (i + 1), gap * (j + 1), NANOS_PER_DAY);
    }
  }

  /** A window ten days wide with one day gets the day in its middle. */
  lemma MidpointOfTenDayWindow(w0: Date)
    ensures WindowDays(w0, w0 + 10, 1) == [w0 + 5]
  {
    assert DivTrunc(10 * NANOS_PER_DAY, 2) == 5 * NANOS_PER_DAY;
    assert AddDuration(w0, 5 * NANOS_PER_DAY * 1) == w0 + 5;
  }

  /** A window one day wide with one day places it on the left anchor itself:
      truncation can put a suggested date on an anchor. */
  lemma OneDayWindowLandsOnAnchor(w0: Date)
    ensures WindowDays(w0, w0 + 1, 1) == [w0]
  {
    assert DivTrunc(1 * NANOS_PER_DAY, 2) == NANOS_PER_DAY / 2;
    assert AddDuration(w0, NANOS_PER_DAY / 2 * 1) == w0;
  }

  /** The dates placed in the first `n` windows, in window order. */
  function PlacedUpTo(days: seq<Date>, buckets: seq<nat>, n: nat): (r: seq<Date>)
    requires n <= WindowCount(days) && n <= |buckets|
    ensures |r| == Sum(buckets[..n])
  {
    if n == 0 then []
    else
      assert buckets[..n][..n - 1] == buckets[..n - 1];
      PlacedUpTo(days, buckets, n - 1) + WindowDays(days[n - 1], days[n], buckets[n - 1])
  }

  /** What `compute_ideal_days_off` returns. */
  function IdealDaysOff(days: seq<Date>, buckets: seq<nat>): (r: seq<Date>)
    requires WindowCount(days) <= |buckets|
    ensures |r| == Sum(buckets[..WindowCount(days)])
  {
    PlacedUpTo(days, buckets, WindowCount(days))
  }

  /** The output of the first `n` windows is a prefix of the output of the first `m`. */
  lemma {:induction false} PlacedPrefix(days: seq<Date>, buckets: seq<nat>, n: nat, m: nat)
    requires n <= m <= WindowCount(days) && m <= |buckets|
    ensures PlacedUpTo(days, buckets, n) <= PlacedUpTo(days, buckets, m)
  {
    if n < m {
      PlacedPrefix(days, buckets, n, m - 1);
      var a := PlacedUpTo(days, buckets, n);
      var b := PlacedUpTo(days, buckets, m - 1);
      var c := PlacedUpTo(days, buckets, m);
      assert c == b + WindowDays(days[m - 1], days[m], buckets[m - 1]);
      assert c[..|a|] == b[..|a|] == a;
    }
  }

  /** Window `idx` contributes exactly its `buckets[idx]` dates, at the position
      that the counts of the windows before it determine. */
  lemma IdealDaysOffWindow(days: seq<Date>, buckets: seq<nat>, idx: nat)
    requires idx < WindowCount(days) <= |buckets|
    ensures var r := IdealDaysOff(days, buckets);
            0 <= Sum(buckets[..idx]) && Sum(buckets[..idx]) + buckets[idx] <= |r| &&
            r[Sum(buckets[..idx]) .. Sum(buckets[..idx]) + buckets[idx]]
              == WindowDays(days[idx], days[idx + 1], buckets[idx])
  {
    var r := IdealDaysOff(days, buckets);
    SumNonNegative(buckets[..idx]);
    PlacedPrefix(days, buckets, idx + 1, WindowCount(days));
    var a := PlacedUpTo(days, buckets, idx);
    var w := WindowDays(days[idx], days[idx + 1], buckets[idx]);
    var p := PlacedUpTo(days, buckets, idx + 1);
    assert p == a + w;
    assert |a| == Sum(buckets[..idx]);
    assert r[..|p|] == p;
    assert r[|a|..|a| + |w|] == p[|a|..] == w;
  }

  lemma SortedAppend(a: seq<Date>, b: seq<Date>, mid: Date)
    requires Sorted(a) && Sorted(b)
    requires forall i :: 0 <= i < |a| ==> a[i] <= mid
    requires forall i :: 0 <= i < |b| ==> mid <= b[i]
    ensures Sorted(a + b)
  {
    var c := a + b;
    forall i, j | 0 <= i < j < |c| ensures c[i] <= c[j] {
      if j < |a| { assert c[i] == a[i] && c[j] == a[j]; }
      else if i >= |a| { assert c[i] == b[i - |a|] && c[j] == b[j - |a|]; }
      else { assert c[i] == a[i] && c[j] == b[j - |a|]; }
    }
  }

  /** Over sorted anchors the placed dates are sorted, and they lie between the
      first anchor and the `n`-th. */
  lemma {:induction false} PlacedUpToSorted(days: seq<Date>, buckets: seq<nat>, n: nat)
    requires Sorted(days)
    requires n <= WindowCount(days) && n <= |buckets|
    ensures Sorted(PlacedUpTo(days, buckets, n))
    ensures forall i :: 0 <= i < |PlacedUpTo(days, buckets, n)| ==>
              days[0] <= PlacedUpTo(days, buckets, n)[i] <= days[n]
  {
    if n > 0 {
      PlacedUpToSorted(days, buckets, n - 1);
      var a := PlacedUpTo(days, buckets, n - 1);
      var w := WindowDays(days[n - 1], days[n], buckets[n - 1]);
      assert days[0] <= days[n - 1] <= days[n];
      WindowDaysInside(days[n - 1], days[n], buckets[n - 1]);
      SortedAppend(a, w, days[n - 1]);
      assert PlacedUpTo(days, buckets, n) == a + w;
    }
  }

  /** `compute_ideal_days_off`: for each window, its count of evenly spaced dates. */
  method ComputeIdealDaysOff(days: seq<Date>, buckets: seq<nat>) returns (ret: seq<Date>)
    requires WindowCount(days) <= |buckets|
    ensures ret == IdealDaysOff(days, buckets)
    ensures |ret| == Sum(buckets[..WindowCount(days)])
  {
    ret := [];
    var idx := 0;
    while idx < WindowCount(days)
      invariant idx <= WindowCount(days)
      invariant ret == PlacedUpTo(days, buckets, idx)
    {
      var k := buckets[idx];
      var numDaysBetween := DivTrunc((days[idx + 1] - days[idx]) * NANOS_PER_DAY, k + 1);
      ghost var done := ret;
      ghost var window := WindowDays(days[idx], days[idx + 1], k);
      var i := 1;
      while i < k + 1
        invariant 1 <= i <= k + 1
        invariant ret == done + window[..i - 1]
      {
        ret := ret + [AddDuration(days[idx], numDaysBetween * i)];
        assert window[..i] == window[..i - 1] + [window[i - 1]];
        i := i + 1;
      }
      assert window[..k] == window;
      idx := idx + 1;
    }
  }

  // ---------------------------------------------------------------------------
  // calculate_vacation_days
  // ---------------------------------------------------------------------------

  /** The relevant anchors after sorting the input. */
  function RelevantSorted(fixedDays: seq<Date>, start: Date): (r: seq<Date>)
    ensures Sorted(r)
  {
    SortedRelevantIsSorted(SortDates(fixedDays), start);
    RelevantFixedDays(SortDates(fixedDays), start)
  }

  /** The input `calculate_vacation_days` can take without reaching the failing
      `unwrap`: no day to place, or at least one window to place it in. */
  predicate HasRoom(fixedDays: seq<Date>, remaining: nat, start: Date) {
    remaining == 0 || |RelevantSorted(fixedDays, start)| >= 2
  }

  /** What `calculate_vacation_days` returns. */
  function VacationDays(fixedDays: seq<Date>, remaining: nat, start: Date): seq<Date>
    requires HasRoom(fixedDays, remaining, start)
  {
    var relevant := RelevantSorted(fixedDays, start);
    IdealDaysOff(relevant, DaysPerBucket(TimesBetweenDays(relevant), remaining))
  }

  /** Every day of the budget is placed, the dates come out in order, and they lie
      between the first and the last relevant anchor. */
  lemma VacationDaysPlacesBudget(fixedDays: seq<Date>, remaining: nat, start: Date)
    requires HasRoom(fixedDays, remaining, start)
    ensures |VacationDays(fixedDays, remaining, start)| == remaining
    ensures Sorted(VacationDays(fixedDays, remaining, start))
    ensures var relevant := RelevantSorted(fixedDays, start);
            forall i :: 0 <= i < |VacationDays(fixedDays, remaining, start)| ==>
              relevant[0] <= VacationDays(fixedDays, remaining, start)[i] <= relevant[|relevant| - 1]
  {
    var relevant := RelevantSorted(fixedDays, start);
    var spans := TimesBetweenDays(relevant);
    var buckets := DaysPerBucket(spans, remaining);
    assert buckets[..WindowCount(relevant)] == buckets;
    PlacedUpToSorted(relevant, buckets, WindowCount(relevant));
  }

  /** The order the anchors are given in does not matter: they are sorted first. */
  lemma VacationDaysIgnoresOrder(fixedDays: seq<Date>, shuffled: seq<Date>, remaining: nat, start: Date)
    requires multiset(shuffled) == multiset(fixedDays)
    requires HasRoom(fixedDays, remaining, start)
    ensures HasRoom(shuffled, remaining, start)
    ensures VacationDays(shuffled, remaining, start) == VacationDays(fixedDays, remaining, start)
  {
    SortForgetsOrder(shuffled, fixedDays);
  }

  /** `calculate_vacation_days`. */
  method CalculateVacationDays(fixedDays: seq<Date>, remaining: uint16, start: Date) returns (r: seq<Date>)
    requires HasRoom(fixedDays, remaining, start)
    ensures r == VacationDays(fixedDays, remaining, start)
    ensures |r| == remaining && Sorted(r)
  {
    var sorted := SortDates(fixedDays);
    var relevant := RelevantFixedDays(sorted, start);
    var times := TimesBetweenDays(relevant);
    var daysOffBetween := ComputeDaysPerBucket(times, remaining);
    r := ComputeIdealDaysOff(relevant, daysOffBetween);
    VacationDaysPlacesBudget(fixedDays, remaining, start);
  }
}
