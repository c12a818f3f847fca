/** The week-granularity allocator (`calculate_vacation_weeks`): the relevant
    anchors are reduced to ISO week numbers, windows that are too short are
    ignored, the budget is shared out in proportion to the remaining windows'
    lengths, and each window's share is spread evenly over its weeks. Both
    steps round with `round` as written (`Rounding.RoundOutput`);
    `CorrectedVacationWeeks` is the same allocator with the corrected rounding
    at the sharing step. */
module WeekAllocator {
  import opened Dates
  import opened Rounding
  import opened DayAllocator

  /** The ISO 8601 week-numbering calendar, seen through the two questions the
      allocator asks it: the week number of a date, and the week number of
      December 31 of the date's year. */
  datatype Calendar = Calendar(isoWeek: Date -> nat, yearEndWeek: Date -> nat)

  // ---------------------------------------------------------------------------
  // The weeks left in the year and the ideal spacing of days off
  // ---------------------------------------------------------------------------

  /** The week of the start date; week 53 (a start early in January that still
      belongs to the previous ISO year) counts as week 0. */
  function StartWeek(cal: Calendar, start: Date): nat {
    if cal.isoWeek(start) == 53 then 0 else cal.isoWeek(start)
  }

  /** `num_remaining_weeks`: the weeks from the start to the year's last week.
      The `u32` subtraction needs the year's last week not to precede the start's. */
  function RemainingWeeks(cal: Calendar, start: Date): (r: nat)
    requires StartWeek(cal, start) <= cal.yearEndWeek(start)
    ensures r <= cal.yearEndWeek(start)
    ensures cal.isoWeek(start) == 53 ==> r == cal.yearEndWeek(start)
    ensures cal.isoWeek(start) != 53 ==> r + cal.isoWeek(start) == cal.yearEndWeek(start)
  {
    cal.yearEndWeek(start) - StartWeek(cal, start)
  }

  /** `ideal_day_off_interval_weeks`: the remaining weeks shared among the relevant
      anchors and the days still to place. With neither (0/0 in `f32`) there is no
      window either, and the value is never compared with anything. */
  function IdealInterval(weeks: nat, anchors: nat, remaining: nat): (r: real)
    ensures r >= 0.0
    ensures anchors + remaining > 0 ==> r * (anchors + remaining) as real == weeks as real
  {
    if anchors + remaining == 0 then 0.0 else weeks as real / (anchors + remaining) as real
  }

  // ---------------------------------------------------------------------------
  // Week deltas between anchors, and the threshold
  // ---------------------------------------------------------------------------

  /** Consecutive anchors never go back in week number; the `u32` subtractions
      of week numbers need this. */
  predicate WeeksAscend(cal: Calendar, days: seq<Date>) {
    forall i :: 0 < i < |days| ==> cal.isoWeek(days[i - 1]) <= cal.isoWeek(days[i])
  }

  lemma {:induction false} WeeksAscendChain(cal: Calendar, days: seq<Date>, i: nat, j: nat)
    requires WeeksAscend(cal, days) && i <= j < |days|
    ensures cal.isoWeek(days[i]) <= cal.isoWeek(days[j])
  {
    if i < j {
      WeeksAscendChain(cal, days, i, j - 1);
    }
  }

  /** `fixed_day_delta_weeks` before the threshold: one week delta per window. */
  function WeekDeltas(cal: Calendar, days: seq<Date>): (r: seq<nat>)
    requires WeeksAscend(cal, days)
    ensures |r| == WindowCount(days)
    ensures forall i :: 0 <= i < |r| ==> cal.isoWeek(days[i]) + r[i] == cal.isoWeek(days[i + 1])
  {
    seq(WindowCount(days), i requires 0 <= i < WindowCount(days) =>
      cal.isoWeek(days[i + 1]) - cal.isoWeek(days[i]))
  }

  /** The deltas of the first `n` windows add up to the weeks those windows span. */
  lemma {:induction false} WeekDeltasSpan(cal: Calendar, days: seq<Date>, n: nat)
    requires WeeksAscend(cal, days) && n <= WindowCount(days)
    ensures |days| > 0 ==> Sum(WeekDeltas(cal, days)[..n]) == cal.isoWeek(days[n]) - cal.isoWeek(days[0])
    ensures |days| == 0 ==> Sum(WeekDeltas(cal, days)[..n]) == 0
  {
    var d := WeekDeltas(cal, days);
    if n > 0 {
      WeekDeltasSpan(cal, days, n - 1);
      assert d[..n][..n - 1] == d[..n - 1];
    }
  }

  /** The deltas after the threshold: a window shorter than the ideal interval
      counts as zero weeks, every other one keeps its delta. */
  function Thresholded(deltas: seq<nat>, interval: real): (r: seq<nat>)
    ensures |r| == |deltas|
    ensures forall i :: 0 <= i < |r| ==> r[i] == deltas[i] || r[i] == 0
    ensures forall i :: 0 <= i < |r| ==> (r[i] == 0 <==> deltas[i] == 0 || (deltas[i] as real) < interval)
  {
    if deltas == [] then []
    else
      var last := deltas[|deltas| - 1];
      Thresholded(deltas[..|deltas| - 1], interval) + [if (last as real) < interval then 0 else last]
  }

  /** Zeroing short windows never adds weeks. */
  lemma {:induction false} ThresholdedSumAtMost(deltas: seq<nat>, interval: real)
    ensures Sum(Thresholded(deltas, interval)) <= Sum(deltas)
  {
    if deltas != [] {
      var init := deltas[..|deltas| - 1];
      ThresholdedSumAtMost(init, interval);
      var r := Thresholded(deltas, interval);
      assert r[..|r| - 1] == Thresholded(init, interval);
    }
  }

  /** Applying the threshold a second time changes nothing. */
  lemma ThresholdedIdempotent(deltas: seq<nat>, interval: real)
    ensures Thresholded(Thresholded(deltas, interval), interval) == Thresholded(deltas, interval)
  {
    var r := Thresholded(deltas, interval);
    var rr := Thresholded(r, interval);
    assert |rr| == |r|;
    forall i | 0 <= i < |r| ensures rr[i] == r[i] {
      if r[i] != 0 {
        assert !((r[i] as real) < interval);
      }
    }
  }

  /** The in-place loop over `fixed_day_delta_weeks` that zeroes the deltas
      below the interval. */
  method ZeroTightDeltas(a: array<nat>, interval: real)
    modifies a
    ensures a[..] == Thresholded(old(a[..]), interval)
  {
    for i := 0 to a.Length
      invariant a[..i] == Thresholded(old(a[..])[..i], interval)
      invariant forall j :: i <= j < a.Length ==> a[j] == old(a[j])
    {
      assert old(a[..])[..i + 1][..i] == old(a[..])[..i];
      if (a[i] as real) < interval {
        a[i] := 0;
      }
      assert a[..i + 1] == a[..i] + [a[i]];
    }
    assert old(a[..])[..a.Length] == old(a[..]);
  }

  // ---------------------------------------------------------------------------
  // Sharing the budget among the windows
  // ---------------------------------------------------------------------------

  /** One window's ideal share of the budget: `delta / total * remaining`. */
  function Share(delta: nat, total: nat, remaining: nat): real
    requires total > 0
  {
    delta as real / total as real * remaining as real
  }

  lemma ShareBounds(delta: nat, total: nat, remaining: nat)
    requires total > 0
    ensures 0.0 <= delta as real / total as real
    ensures delta <= total ==> delta as real / total as real <= 1.0
    ensures 0.0 <= delta as real / total as real * remaining as real
    ensures delta <= total ==> delta as real / total as real * remaining as real <= remaining as real
  {
    var q := delta as real / total as real;
    assert q * total as real == delta as real;
    if delta <= total {
      assert q <= 1.0;
    }
  }

  /** A delta no larger than the total gets no more than the budget. */
  lemma ShareAtMost(delta: nat, total: nat, remaining: nat)
    requires 0 < total && delta <= total
    ensures Share(delta, total, remaining) <= remaining as real
  {
    ShareBounds(delta, total, remaining);
  }

  /** `ideal_days_off_between_fixed`: every window's share of the budget. */
  function Proportions(deltas: seq<nat>, total: nat, remaining: nat): (r: seq<real>)
    requires total > 0
    ensures |r| == |deltas|
    ensures forall i :: 0 <= i < |r| ==> r[i] >= 0.0
  {
    if deltas == [] then []
    else
      ShareBounds(deltas[|deltas| - 1], total, remaining);
      Proportions(deltas[..|deltas| - 1], total, remaining) + [Share(deltas[|deltas| - 1], total, remaining)]
  }

  /** The shares add up to the budget times the fraction of the total the deltas make. */
  lemma ProportionsSum(deltas: seq<nat>, total: nat, remaining: nat)
    requires total > 0
    ensures SumR(Proportions(deltas, total, remaining)) == Sum(deltas) as real / total as real * remaining as real
  {
    ProportionsSumScaled(deltas, total, remaining);
  }

  /** The shares add up to the deltas' sum times `remaining / total`. */
  lemma {:induction false} ProportionsSumScaled(deltas: seq<nat>, total: nat, remaining: nat)
    requires total > 0
    ensures SumR(Proportions(deltas, total, remaining)) == Sum(deltas) as real * (remaining as real / total as real)
  {
    if deltas != [] {
      var n := |deltas| - 1;
      var k := remaining as real / total as real;
      var p := Proportions(deltas, total, remaining);
      ProportionsSumScaled(deltas[..n], total, remaining);
      assert p[..n] == Proportions(deltas[..n], total, remaining);
      ScaleSwap(deltas[n], total, remaining);
      Distribute(Sum(deltas[..n]) as real, deltas[n] as real, k);
    }
  }

  /** `a / total * remaining` is `a` times `remaining / total`. */
  lemma ScaleSwap(a: int, total: nat, remaining: nat)
    requires total > 0
    ensures a as real / total as real * remaining as real == a as real * (remaining as real / total as real)
  {
  }

  lemma Distribute(a: real, b: real, k: real)
    ensures a * k + b * k == (a + b) * k
  {
  }

  /** With the deltas' own total, the shares add up to exactly the budget. */
  lemma ProportionsAddUp(deltas: seq<nat>, remaining: nat)
    requires Sum(deltas) > 0
    ensures SumR(Proportions(deltas, Sum(deltas), remaining)) == remaining as real
  {
    ProportionsSum(deltas, Sum(deltas), remaining);
    var t := Sum(deltas) as real;
    assert t / t == 1.0;
  }

  /** No single delta exceeds the deltas' total, so no share exceeds the budget. */
  lemma SharesAtMostBudget(deltas: seq<nat>, remaining: nat)
    requires Sum(deltas) > 0
    ensures forall i :: 0 <= i < |deltas| ==>
              Proportions(deltas, Sum(deltas), remaining)[i] <= remaining as real
  {
    forall i | 0 <= i < |deltas|
      ensures Proportions(deltas, Sum(deltas), remaining)[i] <= remaining as real
    {
      ItemAtMostSum(deltas, i);
      ProportionsItem(deltas, Sum(deltas), remaining, i);
      ShareAtMost(deltas[i], Sum(deltas), remaining);
    }
  }

  lemma {:induction false} ItemAtMostSum(s: seq<nat>, i: nat)
    requires i < |s|
    ensures s[i] <= Sum(s)
  {
    var init := s[..|s| - 1];
    SumNonNegative(init);
    if i < |s| - 1 {
      ItemAtMostSum(init, i);
    }
  }

  /** `days_off_between_fixed`: `round` as written applied to every window's share.
      When all deltas are zero every share is `0 / 0`, a NaN that `round` turns
      into 0. Otherwise the counts add up to at least the budget, and to more
      whenever a zero share meets a carry of -1/2 (`TwoGapsExampleCounts`). */
  function WeekCounts(deltas: seq<nat>, remaining: uint16): (r: seq<nat>)
    ensures |r| == |deltas|
    ensures Sum(deltas) > 0 ==> remaining <= Sum(r) <= remaining + |deltas|
    ensures Sum(deltas) == 0 ==> forall i :: 0 <= i < |r| ==> r[i] == 0
  {
    SumNonNegative(deltas);
    if Sum(deltas) == 0 then Zeros(|deltas|)
    else
      var items := Proportions(deltas, Sum(deltas), remaining);
      ProportionsAddUp(deltas, remaining);
      SharesAtMostBudget(deltas, remaining);
      RoundCoversTotal(items, remaining);
      RoundOutput(items, 0.0)
  }

  /** Before the cast the rounded shares add up to exactly the budget, and each
      count is its rounded share cast to `u32`: every day too many comes from a
      share that rounded to -1 and was emitted as 0. */
  lemma WeekCountsBeforeCast(deltas: seq<nat>, remaining: uint16)
    requires Sum(deltas) > 0
    ensures var raw := RawFrom(Proportions(deltas, Sum(deltas), remaining), 0.0);
            Sum(raw) == remaining
            && forall i :: 0 <= i < |deltas| ==> WeekCounts(deltas, remaining)[i] == AsU32(raw[i])
  {
    var items := Proportions(deltas, Sum(deltas), remaining);
    ProportionsAddUp(deltas, remaining);
    RawConserves(items, remaining);
    RoundOutputCastsRaw(items, 0.0);
  }

  /** With no budget left every count is zero: every share is `delta / total * 0`. */
  lemma WeekCountsZeroBudget(deltas: seq<nat>)
    ensures forall i :: 0 <= i < |deltas| ==> WeekCounts(deltas, 0)[i] == 0
  {
    SumNonNegative(deltas);
    if Sum(deltas) > 0 {
      var items := Proportions(deltas, Sum(deltas), 0);
      forall i | 0 <= i < |items|
        ensures items[i] == 0.0
      {
        ProportionsItem(deltas, Sum(deltas), 0, i);
      }
      RoundOfZeros(items);
    }
  }

  /** The counts with the corrected rounding of `Rounding.ClampedRound`: they add
      up to exactly the budget when some delta is kept. */
  function CorrectedWeekCounts(deltas: seq<nat>, remaining: nat): (r: seq<nat>)
    ensures |r| == |deltas|
    ensures Sum(deltas) > 0 ==> Sum(r) == remaining
    ensures Sum(deltas) == 0 ==> forall i :: 0 <= i < |r| ==> r[i] == 0
  {
    SumNonNegative(deltas);
    if Sum(deltas) == 0 then Zeros(|deltas|)
    else
      var items := Proportions(deltas, Sum(deltas), remaining);
      ProportionsAddUp(deltas, remaining);
      ClampedRoundConserves(items, remaining);
      ClampedRoundOutput(items, 0.0)
  }

  /** With the corrected rounding a window whose delta was zeroed gets no day off. */
  lemma {:induction false} CorrectedZeroDeltaNoDays(deltas: seq<nat>, remaining: nat, i: nat)
    requires i < |deltas| && deltas[i] == 0
    ensures CorrectedWeekCounts(deltas, remaining)[i] == 0
  {
    SumNonNegative(deltas);
    if Sum(deltas) > 0 {
      var total := Sum(deltas);
      var items := Proportions(deltas, total, remaining);
      ProportionsItem(deltas, total, remaining, i);
      assert items[i] == 0.0;
      ClampedRoundZeroAt(items, 0.0, i);
    }
  }

  /** The two counts agree unless a zero share meets a carry of -1/2. */
  lemma CountsAgree(deltas: seq<nat>, remaining: uint16)
    requires Sum(deltas) > 0 ==> NoZeroMeetsHalf(Proportions(deltas, Sum(deltas), remaining), 0.0)
    ensures WeekCounts(deltas, remaining) == CorrectedWeekCounts(deltas, remaining)
  {
    SumNonNegative(deltas);
    if Sum(deltas) > 0 {
      SharesAtMostBudget(deltas, remaining);
      RoundingsAgreeOffHalf(Proportions(deltas, Sum(deltas), remaining), 0.0);
    }
  }

  /** `round` as written can give a day to a window whose delta is zero, and
      take it from a later window: kept deltas `[1, 0, 0, 1]` and one day give
      `[1, 0, 1, 0]`, where the corrected rounding gives `[1, 0, 0, 0]`. */
  lemma ZeroDeltaCanGetDay()
    ensures WeekCounts([1, 0, 0, 1], 1) == [1, 0, 1, 0]
    ensures CorrectedWeekCounts([1, 0, 0, 1], 1) == [1, 0, 0, 0]
  {
    ZeroDeltaShares();
    var items := [0.5, 0.0, 0.0, 0.5];
    assert Nearest(0.5) == 1 && Nearest(0.0 - 0.5) == -1;
    assert Nearest(0.0 + 0.5) == 1 && Nearest(0.5 - 0.5) == 0;
    assert items[1..] == [0.0, 0.0, 0.5];
    assert items[1..][1..] == [0.0, 0.5];
    assert items[1..][1..][1..] == [0.5];
  }

  lemma ZeroDeltaShares()
    ensures Sum([1, 0, 0, 1]) == 2
    ensures Proportions([1, 0, 0, 1], 2, 1) == [0.5, 0.0, 0.0, 0.5]
  {
    assert [1, 0, 0, 1][..3] == [1, 0, 0];
    assert [1, 0, 0][..2] == [1, 0];
    assert [1, 0][..1] == [1];
    assert [1][..0] == [];
    assert Share(1, 2, 1) == 0.5 && Share(0, 2, 1) == 0.0;
  }

  lemma {:induction false} ProportionsItem(deltas: seq<nat>, total: nat, remaining: nat, i: nat)
    requires total > 0 && i < |deltas|
    ensures Proportions(deltas, total, remaining)[i] == Share(deltas[i], total, remaining)
  {
    if i < |deltas| - 1 {
      ProportionsItem(deltas[..|deltas| - 1], total, remaining, i);
    }
  }

  /** A zero input with a carry below one half rounds to zero when the carry
      before it stays in [-1/2, 1/2). */
  lemma {:induction false} ClampedRoundZeroAt(items: seq<real>, err: real, i: nat)
    requires -0.5 <= err < 0.5 && i < |items| && items[i] == 0.0
    requires forall j :: 0 <= j < |items| ==> items[j] >= 0.0
    ensures ClampedRoundOutput(items, err)[i] == 0
  {
    var n := Nearest(items[0] + err);
    var next := err + items[0] - Clamp(n) as real;
    if i == 0 {
      assert n <= 0 by {
        if items[0] + err >= 0.0 {
          assert items[0] + err - n as real < 0.5;
        }
      }
    } else {
      assert -0.5 <= next < 0.5 by {
        if items[0] + err >= 0.0 {
          assert items[0] + err - n as real < 0.5;
        }
      }
      assert forall j :: 0 <= j < |items[1..]| ==> items[1..][j] == items[j + 1];
      ClampedRoundZeroAt(items[1..], next, i - 1);
    }
  }

  // ---------------------------------------------------------------------------
  // Placing the days off inside each window
  // ---------------------------------------------------------------------------

  /** `ideal_weeks_off`: `k` evenly spaced week positions after `start`. */
  function IdealWeeks(start: nat, interval: real, k: nat): (r: seq<real>)
    ensures |r| == k
  {
    seq(k, i => start as real + interval * (i + 1) as real)
  }

  /** Each ideal position lies between the window's two anchor weeks. */
  lemma IdealWeeksInside(s: nat, e: nat, k: nat)
    requires s <= e
    ensures var r := IdealWeeks(s, (e - s) as real / (k + 1) as real, k);
            forall i :: 0 <= i < k ==> s as real <= r[i] <= e as real
  {
    var gap := (e - s) as real / (k + 1) as real;
    var r := IdealWeeks(s, gap, k);
    assert gap * (k + 1) as real == (e - s) as real;
    assert gap >= 0.0;
    forall i | 0 <= i < k
      ensures s as real <= r[i] <= e as real
    {
      assert gap * (i + 1) as real <= gap * (k + 1) as real;
    }
  }

  /** A week number the ISO 8601 calendar can give. */
  predicate IsoWeekNumber(w: nat) {
    1 <= w <= 53
  }

  /** Every anchor's week number is one the ISO 8601 calendar can give. */
  predicate IsoWeeks(cal: Calendar, days: seq<Date>) {
    forall i :: 0 <= i < |days| ==> IsoWeekNumber(cal.isoWeek(days[i]))
  }

  /** The weeks `round` places in a window running from week `s` to week `e`, `k`
      of them, each between the two anchor weeks. Every ideal position is at least
      week 1, so no rounded value is cast from a negative number here. */
  function WindowWeeks(s: nat, e: nat, k: nat): (r: seq<nat>)
    requires IsoWeekNumber(s) && IsoWeekNumber(e) && s <= e
    ensures |r| == k
    ensures forall i :: 0 <= i < k ==> s <= r[i] <= e
  {
    var items := IdealWeeks(s, (e - s) as real / (k + 1) as real, k);
    IdealWeeksInside(s, e, k);
    RoundingsAgree(items, 0.0);
    ClampedRoundWithin(items, 0.0, s, e);
    RoundOutput(items, 0.0)
  }

  /** The weeks of one window are not always in order: seven days in the window
      from week 10 to week 11 go back from week 11 to week 10 on the fourth day. */
  lemma WindowWeeksGoBack()
    ensures WindowWeeks(10, 11, 7) == [10, 10, 11, 10, 11, 11, 11]
    ensures !Sorted(WindowWeeks(10, 11, 7))
  {
    var items := IdealWeeks(10, 1.0 / 8.0, 7);
    assert items == [10.125, 10.25, 10.375, 10.5, 10.625, 10.75, 10.875];
    WindowWeeksGoBackSteps();
    var r := WindowWeeks(10, 11, 7);
    assert r[2] > r[3];
  }

  lemma WindowWeeksGoBackSteps()
    ensures RoundOutput([10.125, 10.25, 10.375, 10.5, 10.625, 10.75, 10.875], 0.0)
            == [10, 10, 11, 10, 11, 11, 11]
  {
    WindowWeeksGoBackFrom2();
    RoundOne(10.125, 0.0, 10, [10.25, 10.375, 10.5, 10.625, 10.75, 10.875], [10, 11, 10, 11, 11, 11]);
  }

  /** `round` from the second input of the window on. */
  lemma WindowWeeksGoBackFrom2()
    ensures RoundOutput([10.25, 10.375, 10.5, 10.625, 10.75, 10.875], 0.125)
            == [10, 11, 10, 11, 11, 11]
  {
    WindowWeeksGoBackFrom3();
    RoundOne(10.25, 0.125, 10, [10.375, 10.5, 10.625, 10.75, 10.875], [11, 10, 11, 11, 11]);
  }

  /** `round` from the third input of the window on. */
  lemma WindowWeeksGoBackFrom3()
    ensures RoundOutput([10.375, 10.5, 10.625, 10.75, 10.875], 0.375)
            == [11, 10, 11, 11, 11]
  {
    WindowWeeksGoBackFrom4();
    RoundOne(10.375, 0.375, 11, [10.5, 10.625, 10.75, 10.875], [10, 11, 11, 11]);
  }

  /** `round` from the fourth input of the window on. */
  lemma WindowWeeksGoBackFrom4()
    ensures RoundOutput([10.5, 10.625, 10.75, 10.875], -0.25)
            == [10, 11, 11, 11]
  {
    WindowWeeksGoBackFrom5();
    RoundOne(10.5, -0.25, 10, [10.625, 10.75, 10.875], [11, 11, 11]);
  }

  /** `round` from the fifth input of the window on. */
  lemma WindowWeeksGoBackFrom5()
    ensures RoundOutput([10.625, 10.75, 10.875], 0.25)
            == [11, 11, 11]
  {
    WindowWeeksGoBackFrom6();
    RoundOne(10.625, 0.25, 11, [10.75, 10.875], [11, 11]);
  }

  /** `round` from the sixth input of the window on. */
  lemma WindowWeeksGoBackFrom6()
    ensures RoundOutput([10.75, 10.875], -0.125)
            == [11, 11]
  {
    WindowWeeksGoBackFrom7();
    RoundOne(10.75, -0.125, 11, [10.875], [11]);
  }

  /** `round` from the seventh input of the window on. */
  lemma WindowWeeksGoBackFrom7()
    ensures RoundOutput([10.875], -0.375)
            == [11]
  {
    RoundOne(10.875, -0.375, 11, [], []);
  }

  /** One step of `round` on a concrete input: `x` with carry `err` rounds to `n`. */
  lemma RoundOne(x: real, err: real, n: nat, rest: seq<real>, out: seq<nat>)
    requires 0.0 <= x + err && n as real - 0.5 <= x + err < n as real + 0.5 && n <= U32_MAX
    requires RoundOutput(rest, err + x - n as real) == out
    ensures RoundOutput([x] + rest, err) == [n] + out
  {
    NearestOf(x + err, n);
    assert ([x] + rest)[1..] == rest;
  }

  /** A non-negative value within one half below or less than one half above `n`
      rounds to `n`. */
  lemma NearestOf(x: real, n: nat)
    requires 0.0 <= x && n as real - 0.5 <= x < n as real + 0.5
    ensures Nearest(x) == n
  {
    assert (x + 0.5).Floor == n;
  }

  /** The weeks placed in the first `n` windows, in window order, each between the
      first anchor's week and the `n`-th window's closing anchor's week. */
  function Placements(cal: Calendar, days: seq<Date>, counts: seq<nat>, n: nat): (r: seq<nat>)
    requires WeeksAscend(cal, days) && IsoWeeks(cal, days)
    requires n <= WindowCount(days) && n <= |counts|
    ensures |r| == Sum(counts[..n])
    ensures n > 0 ==> forall i :: 0 <= i < |r| ==>
              cal.isoWeek(days[0]) <= r[i] <= cal.isoWeek(days[n])
  {
    if n == 0 then []
    else
      assert counts[..n][..n - 1] == counts[..n - 1];
      SumAppend(counts[..n - 1], [counts[n - 1]]);
      assert counts[..n] == counts[..n - 1] + [counts[n - 1]];
      WeeksAscendChain(cal, days, 0, n - 1);
      Placements(cal, days, counts, n - 1)
        + WindowWeeks(cal.isoWeek(days[n - 1]), cal.isoWeek(days[n]), counts[n - 1])
  }

  /** The window loop of `calculate_vacation_weeks`. */
  method PlaceWeeks(cal: Calendar, days: seq<Date>, counts: seq<nat>) returns (ret: seq<nat>)
    requires WeeksAscend(cal, days) && IsoWeeks(cal, days) && |counts| == WindowCount(days)
    ensures ret == Placements(cal, days, counts, WindowCount(days))
  {
    ret := [];
    for idx := 0 to WindowCount(days)
      invariant ret == Placements(cal, days, counts, idx)
    {
      var startWeek := cal.isoWeek(days[idx]);
      var endWeek := cal.isoWeek(days[idx + 1]);
      var weekDiff := endWeek - startWeek;
      var numDaysOff := counts[idx];
      var idealInterval := weekDiff as real / (numDaysOff + 1) as real;
      var actualWeeksOff := Round(IdealWeeks(startWeek, idealInterval, numDaysOff));
      assert actualWeeksOff == WindowWeeks(startWeek, endWeek, numDaysOff);
      PlacementsNext(cal, days, counts, idx);
      ghost var before := ret;
      for j := 0 to |actualWeeksOff|
        invariant ret == before + actualWeeksOff[..j]
      {
        ret := ret + [actualWeeksOff[j]];
      }
      assert actualWeeksOff[..|actualWeeksOff|] == actualWeeksOff;
    }
  }

  lemma PlacementsNext(cal: Calendar, days: seq<Date>, counts: seq<nat>, n: nat)
    requires WeeksAscend(cal, days) && IsoWeeks(cal, days)
    requires n < WindowCount(days) && n < |counts|
    ensures cal.isoWeek(days[n]) <= cal.isoWeek(days[n + 1])
    ensures Placements(cal, days, counts, n + 1)
            == Placements(cal, days, counts, n)
               + WindowWeeks(cal.isoWeek(days[n]), cal.isoWeek(days[n + 1]), counts[n])
  {
    WeeksAscendChain(cal, days, n, n + 1);
  }

  // ---------------------------------------------------------------------------
  // `calculate_vacation_weeks`
  // ---------------------------------------------------------------------------

  /** The inputs on which `calculate_vacation_weeks` does not overflow a `u32`
      subtraction: the year's last week is not before the start week, and the
      relevant anchors' week numbers never go back. Their week numbers are ISO
      week numbers, as the calendar gives them. */
  predicate CanPlan(cal: Calendar, inputDates: seq<Date>, start: Date) {
    StartWeek(cal, start) <= cal.yearEndWeek(start)
    && WeeksAscend(cal, RelevantSorted(inputDates, start))
    && IsoWeeks(cal, RelevantSorted(inputDates, start))
  }

  /** The deltas left once short windows are zeroed. */
  function KeptDeltas(cal: Calendar, inputDates: seq<Date>, remaining: nat, start: Date): (r: seq<nat>)
    requires CanPlan(cal, inputDates, start)
    ensures |r| == WindowCount(RelevantSorted(inputDates, start))
  {
    var relevant := RelevantSorted(inputDates, start);
    var interval := IdealInterval(RemainingWeeks(cal, start), |relevant|, remaining);
    Thresholded(WeekDeltas(cal, relevant), interval)
  }

  /** What `calculate_vacation_weeks` returns, as week numbers. */
  function VacationWeeks(cal: Calendar, inputDates: seq<Date>, remaining: uint16, start: Date): seq<nat>
    requires CanPlan(cal, inputDates, start)
  {
    var relevant := RelevantSorted(inputDates, start);
    var counts := WeekCounts(KeptDeltas(cal, inputDates, remaining, start), remaining);
    Placements(cal, relevant, counts, WindowCount(relevant))
  }

  /** The allocator with the corrected rounding at the sharing step: the same
      anchors, deltas and placement, with `CorrectedWeekCounts`. */
  function CorrectedVacationWeeks(cal: Calendar, inputDates: seq<Date>, remaining: uint16, start: Date): seq<nat>
    requires CanPlan(cal, inputDates, start)
  {
    var relevant := RelevantSorted(inputDates, start);
    var counts := CorrectedWeekCounts(KeptDeltas(cal, inputDates, remaining, start), remaining);
    Placements(cal, relevant, counts, WindowCount(relevant))
  }

  /** `calculate_vacation_weeks`. */
  method CalculateVacationWeeks(cal: Calendar, inputDates: seq<Date>, remaining: uint16, start: Date)
    returns (r: seq<nat>)
    requires CanPlan(cal, inputDates, start)
    ensures r == VacationWeeks(cal, inputDates, remaining, start)
  {
    var fixedDays := SortDates(inputDates);
    var relevant := RelevantFixedDays(fixedDays, start);
    assert relevant == RelevantSorted(inputDates, start);
    var lastIsoWeek := cal.yearEndWeek(start);
    var startIsoWeek := cal.isoWeek(start);
    if startIsoWeek == 53 {
      startIsoWeek := 0;
    }
    var numRemainingWeeks := lastIsoWeek - startIsoWeek;
    assert numRemainingWeeks == RemainingWeeks(cal, start);
    var interval := IdealInterval(numRemainingWeeks, |relevant|, remaining);
    var deltas := WeekDeltas(cal, relevant);
    var a := new nat[|deltas|](i requires 0 <= i < |deltas| => deltas[i]);
    assert a[..] == deltas;
    ZeroTightDeltas(a, interval);
    var kept := a[..];
    assert kept == KeptDeltas(cal, inputDates, remaining, start);
    var counts := ComputeWeekCounts(kept, remaining);
    r := PlaceWeeks(cal, relevant, counts);
  }

  /** Lines 71-75 of `calculate_vacation_weeks`: the total of the kept deltas,
      every window's share, and `round` on the shares. */
  method ComputeWeekCounts(kept: seq<nat>, remaining: uint16) returns (counts: seq<nat>)
    ensures counts == WeekCounts(kept, remaining)
    ensures Sum(kept) > 0 ==> remaining <= Sum(counts) <= remaining + |kept|
  {
    var total := Sum(kept);
    SumNonNegative(kept);
    if total == 0 {
      counts := Zeros(|kept|);
    } else {
      counts := Round(Proportions(kept, total, remaining));
    }
  }

  // ---------------------------------------------------------------------------
  // Properties of the whole computation
  // ---------------------------------------------------------------------------

  /** When some window is long enough, at least the budget is placed, and at most
      one week more per window; when none is, or no budget is left, nothing is. */
  lemma VacationWeeksCoversBudget(cal: Calendar, inputDates: seq<Date>, remaining: uint16, start: Date)
    requires CanPlan(cal, inputDates, start)
    ensures var kept := KeptDeltas(cal, inputDates, remaining, start);
            var r := VacationWeeks(cal, inputDates, remaining, start);
            (Sum(kept) > 0 ==> remaining <= |r| <= remaining + |kept|)
            && (Sum(kept) <= 0 ==> r == [])
            && (remaining == 0 ==> r == [])
  {
    VacationWeeksLength(cal, inputDates, remaining, start);
    var kept := KeptDeltas(cal, inputDates, remaining, start);
    SumNonNegative(kept);
    if Sum(kept) == 0 {
      ZerosSumZero(WeekCounts(kept, remaining));
    } else if remaining == 0 {
      WeekCountsZeroBudget(kept);
      ZerosSumZero(WeekCounts(kept, remaining));
    }
  }

  /** One week is placed for every day off counted. */
  lemma VacationWeeksLength(cal: Calendar, inputDates: seq<Date>, remaining: uint16, start: Date)
    requires CanPlan(cal, inputDates, start)
    ensures |VacationWeeks(cal, inputDates, remaining, start)|
            == Sum(WeekCounts(KeptDeltas(cal, inputDates, remaining, start), remaining))
  {
    var relevant := RelevantSorted(inputDates, start);
    var counts := WeekCounts(KeptDeltas(cal, inputDates, remaining, start), remaining);
    assert counts[..WindowCount(relevant)] == counts;
  }

  /** With the corrected rounding exactly the budget is placed when some window
      is long enough, and nothing otherwise. */
  lemma CorrectedVacationWeeksPlacesBudget(cal: Calendar, inputDates: seq<Date>, remaining: uint16, start: Date)
    requires CanPlan(cal, inputDates, start)
    ensures Sum(KeptDeltas(cal, inputDates, remaining, start)) > 0 ==>
              |CorrectedVacationWeeks(cal, inputDates, remaining, start)| == remaining
    ensures Sum(KeptDeltas(cal, inputDates, remaining, start)) <= 0 ==>
              CorrectedVacationWeeks(cal, inputDates, remaining, start) == []
  {
    var relevant := RelevantSorted(inputDates, start);
    var kept := KeptDeltas(cal, inputDates, remaining, start);
    var counts := CorrectedWeekCounts(kept, remaining);
    assert counts[..WindowCount(relevant)] == counts;
    SumNonNegative(kept);
    if Sum(kept) == 0 {
      ZerosSumZero(counts);
    }
  }

  /** The program and the corrected allocator place the same weeks unless a zero
      share meets a carry of -1/2 in `round`. */
  lemma AllocatorsAgree(cal: Calendar, inputDates: seq<Date>, remaining: uint16, start: Date)
    requires CanPlan(cal, inputDates, start)
    requires var kept := KeptDeltas(cal, inputDates, remaining, start);
             Sum(kept) > 0 ==> NoZeroMeetsHalf(Proportions(kept, Sum(kept), remaining), 0.0)
    ensures VacationWeeks(cal, inputDates, remaining, start)
            == CorrectedVacationWeeks(cal, inputDates, remaining, start)
  {
    CountsAgree(KeptDeltas(cal, inputDates, remaining, start), remaining);
  }

  lemma {:induction false} ZerosSumZero(s: seq<nat>)
    requires forall i :: 0 <= i < |s| ==> s[i] == 0
    ensures Sum(s) == 0
  {
    if s != [] {
      ZerosSumZero(s[..|s| - 1]);
    }
  }

  /** Every placed week lies between the weeks of the first and the last
      relevant anchor. */
  lemma VacationWeeksWithinAnchors(cal: Calendar, inputDates: seq<Date>, remaining: uint16, start: Date)
    requires CanPlan(cal, inputDates, start)
    ensures var relevant := RelevantSorted(inputDates, start);
            var r := VacationWeeks(cal, inputDates, remaining, start);
            forall i :: 0 <= i < |r| ==>
              cal.isoWeek(relevant[0]) <= r[i] <= cal.isoWeek(relevant[|relevant| - 1])
  {
  }

  /** The order the anchors are given in does not matter: they are sorted first. */
  lemma VacationWeeksIgnoresOrder(cal: Calendar, inputDates: seq<Date>, shuffled: seq<Date>,
                                  remaining: uint16, start: Date)
    requires multiset(shuffled) == multiset(inputDates)
    requires CanPlan(cal, inputDates, start)
    ensures CanPlan(cal, shuffled, start)
    ensures VacationWeeks(cal, shuffled, remaining, start) == VacationWeeks(cal, inputDates, remaining, start)
  {
    SortForgetsOrder(shuffled, inputDates);
  }

  // ---------------------------------------------------------------------------
  // The 2021 example
  // ---------------------------------------------------------------------------

  /** ISO weeks of 2021 with day 0 = Friday 2021-01-01: the first three days
      still belong to week 53 of 2020, and week 1 starts on Monday, day 3. */
  function IsoWeek2021(d: Date): nat {
    if d < 3 then 53 else (d - 3) / 7 + 1
  }

  const Calendar2021: Calendar := Calendar(IsoWeek2021, d => 52)

  lemma Example2021Relevant()
    ensures RelevantSorted([3, 360], 0) == [3, 360]
  {
    SortedPermutationsEqual(SortDates([3, 360]), [3, 360]);
    PartitionMembers([3, 360], 0);
    SortedRelevantIsSuffix([3, 360], 0);
  }

  lemma Example2021Kept()
    ensures CanPlan(Calendar2021, [3, 360], 0)
    ensures KeptDeltas(Calendar2021, [3, 360], 1, 0) == [51]
  {
    Example2021Relevant();
    Example2021Weeks();
    KeptDeltasUnfold(Calendar2021, [3, 360], 1, 0, [3, 360]);
    assert [51][..0] == [];
  }

  lemma Example2021Weeks()
    ensures StartWeek(Calendar2021, 0) <= Calendar2021.yearEndWeek(0)
    ensures RemainingWeeks(Calendar2021, 0) == 52
    ensures WeeksAscend(Calendar2021, [3, 360]) && IsoWeeks(Calendar2021, [3, 360])
    ensures WeekDeltas(Calendar2021, [3, 360]) == [51]
    ensures IdealInterval(52, 2, 1) == 52.0 / 3.0
  {
    assert IsoWeek2021(0) == 53 && IsoWeek2021(3) == 1 && IsoWeek2021(360) == 52;
  }

  lemma Example2021Counts()
    ensures WeekCounts([51], 1) == [1]
  {
    assert [51][..0] == [];
    assert Sum([51]) == 51;
    assert Share(51, 51, 1) == 1.0;
    assert Proportions([51], 51, 1) == [1.0];
    assert Nearest(1.0) == 1;
    assert [1.0][1..] == [];
  }

  lemma Example2021Window()
    ensures WindowWeeks(1, 52, 1) == [27]
  {
    var ideal := IdealWeeks(1, 51.0 / 2.0, 1);
    assert ideal == [26.5];
    assert Nearest(26.5) == 27;
    assert ideal[1..] == [];
  }

  /** Anchors on the Mondays of weeks 1 and 52 of 2021, one day to place and a
      start on 2021-01-01 give week 27. */
  lemma SimpleDatesExample()
    ensures CanPlan(Calendar2021, [3, 360], 0)
    ensures VacationWeeks(Calendar2021, [3, 360], 1, 0) == [27]
  {
    Example2021Relevant();
    Example2021Kept();
    Example2021Counts();
    Example2021Window();
    var cal := Calendar2021;
    assert cal.isoWeek(3) == 1 && cal.isoWeek(360) == 52;
    assert Placements(cal, [3, 360], [1], 0) == [];
  }

  /** A start on 2021-01-02 with anchors on 2021-01-01, which belongs to ISO week
      53 of 2020, and on Family Day, 2021-02-15, in week 7: the first week delta
      is `7 - 53`, which Rust's `u32` subtraction cannot take, so these
      inputs are outside `CanPlan`. */
  lemma EarlyJanuaryAnchorUnderflows()
    ensures RelevantSorted([0, 45], 1) == [0, 45]
    ensures Calendar2021.isoWeek(0) == 53 && Calendar2021.isoWeek(45) == 7
    ensures !CanPlan(Calendar2021, [0, 45], 1)
  {
    EarlyJanuaryRelevant();
    assert IsoWeek2021(0) == 53 && IsoWeek2021(45) == 7;
  }

  lemma EarlyJanuaryRelevant()
    ensures RelevantSorted([0, 45], 1) == [0, 45]
  {
    SortedPermutationsEqual(SortDates([0, 45]), [0, 45]);
    PartitionMembers([0, 45], 1);
    SortedRelevantIsSuffix([0, 45], 1);
  }

  /** ISO weeks of the dates of 2025 with day 0 = Wednesday 2025-01-01: week 1
      starts on Monday 2024-12-30 (day -2), and Monday 2025-12-29 (day 362)
      already starts week 1 of 2026. */
  function IsoWeek2025(d: Date): nat {
    if d < -2 then 52 else if d >= 362 then 1 else (d + 2) / 7 + 1
  }

  /** For every date of 2025 the week of December 31, a Wednesday, is week 1 of 2026. */
  const Calendar2025: Calendar := Calendar(IsoWeek2025, d => 1)

  /** In a year whose December 31 is a Monday, Tuesday or Wednesday, `last_iso_week`
      is 1, so every start from ISO week 2 on makes `last_iso_week - start_iso_week`
      negative, whatever the anchors: for 2025 that is every start from Monday
      2025-01-06 to Sunday 2025-12-28. */
  lemma LateStart2025Underflows(inputDates: seq<Date>, start: Date)
    requires 5 <= start <= 361
    ensures Calendar2025.yearEndWeek(start) == 1
    ensures 2 <= Calendar2025.isoWeek(start) <= 52
    ensures !CanPlan(Calendar2025, inputDates, start)
  {
  }

  // ---------------------------------------------------------------------------
  // Where the rounding as written places more days than the budget
  // ---------------------------------------------------------------------------

  /** Weeks counted from day 0, a Monday. */
  function WeekFromDayZero(d: Date): nat {
    if d < 0 then 0 else d / 7 + 1
  }

  const PlainCalendar: Calendar := Calendar(WeekFromDayZero, d => 52)

  /** Anchors in weeks 48, 49, 49 and 50 of `PlainCalendar`. */
  const TwoGapsAnchors: seq<Date> := [330, 337, 338, 344]

  lemma TwoGapsExampleSorted()
    ensures SortDates(TwoGapsAnchors) == TwoGapsAnchors
  {
    var days := TwoGapsAnchors;
    assert Sorted(days);
    SortedPermutationsEqual(SortDates(days), days);
  }

  lemma TwoGapsExampleNoneBefore()
    ensures Before(TwoGapsAnchors, 322) == []
  {
    assert TwoGapsAnchors[..3] == [330, 337, 338];
    assert [330, 337, 338][..2] == [330, 337];
    assert [330, 337][..1] == [330];
    assert [330][..0] == [];
  }

  lemma TwoGapsExampleRelevant()
    ensures RelevantSorted(TwoGapsAnchors, 322) == TwoGapsAnchors
  {
    var days := TwoGapsAnchors;
    TwoGapsExampleSorted();
    TwoGapsExampleNoneBefore();
    SortedRelevantIsSuffix(days, 322);
  }

  lemma TwoGapsExampleWeeks()
    ensures StartWeek(PlainCalendar, 322) <= PlainCalendar.yearEndWeek(322)
    ensures RemainingWeeks(PlainCalendar, 322) == 5
    ensures WeeksAscend(PlainCalendar, TwoGapsAnchors)
    ensures IsoWeeks(PlainCalendar, TwoGapsAnchors)
    ensures WeekDeltas(PlainCalendar, TwoGapsAnchors) == [1, 0, 1]
  {
    var days := TwoGapsAnchors;
    assert PlainCalendar.isoWeek(322) == 47;
    TwoGapsExampleAnchorWeeks();
    assert WeeksAscend(PlainCalendar, days);
    var deltas := WeekDeltas(PlainCalendar, days);
    assert |deltas| == 3;
    assert deltas[0] == 1 && deltas[1] == 0 && deltas[2] == 1;
  }

  lemma TwoGapsExampleAnchorWeeks()
    ensures var days := TwoGapsAnchors;
            |days| == 4
            && PlainCalendar.isoWeek(days[0]) == 48 && PlainCalendar.isoWeek(days[1]) == 49
            && PlainCalendar.isoWeek(days[2]) == 49 && PlainCalendar.isoWeek(days[3]) == 50
  {
  }

  /** Anchors in weeks 48, 49, 49 and 50 with the start in week 47: five weeks
      remain, the interval is one week, and no delta falls below it. */
  lemma TwoGapsExampleKept()
    ensures CanPlan(PlainCalendar, TwoGapsAnchors, 322)
    ensures KeptDeltas(PlainCalendar, TwoGapsAnchors, 1, 322) == [1, 0, 1]
  {
    TwoGapsExampleRelevant();
    TwoGapsExampleWeeks();
    TwoGapsExampleThreshold();
    KeptDeltasUnfold(PlainCalendar, TwoGapsAnchors, 1, 322, TwoGapsAnchors);
  }

  lemma KeptDeltasUnfold(cal: Calendar, inputDates: seq<Date>, remaining: nat, start: Date, relevant: seq<Date>)
    requires CanPlan(cal, inputDates, start) && RelevantSorted(inputDates, start) == relevant
    ensures KeptDeltas(cal, inputDates, remaining, start)
         == Thresholded(WeekDeltas(cal, relevant), IdealInterval(RemainingWeeks(cal, start), |relevant|, remaining))
  {
  }

  lemma TwoGapsExampleThreshold()
    ensures Thresholded([1, 0, 1], IdealInterval(5, 4, 1)) == [1, 0, 1]
  {
    assert IdealInterval(5, 4, 1) == 1.0;
    assert [1, 0, 1][..2] == [1, 0];
    assert [1, 0][..1] == [1];
    assert [1][..0] == [];
  }

  /** On those deltas with a budget of one day, the shares are 1/2, 0 and 1/2:
      `round` as written hands out two days, the corrected rounding exactly one. */
  lemma TwoGapsExampleCounts()
    ensures Proportions([1, 0, 1], 2, 1) == [0.5, 0.0, 0.5]
    ensures WeekCounts([1, 0, 1], 1) == [1, 0, 1]
    ensures CorrectedWeekCounts([1, 0, 1], 1) == [1, 0, 0]
  {
    assert [1, 0, 1][..2] == [1, 0];
    assert [1, 0][..1] == [1];
    assert [1][..0] == [];
    assert Sum([1, 0, 1]) == 2;
    assert Share(1, 2, 1) == 0.5 && Share(0, 2, 1) == 0.0;
    assert Proportions([1, 0, 1], 2, 1) == [0.5, 0.0, 0.5];
    RoundOvershoots();
    ClampedRoundExample();
  }

  lemma TwoGapsExampleWindows()
    ensures WindowWeeks(48, 49, 1) == [49]
    ensures WindowWeeks(49, 49, 0) == []
    ensures WindowWeeks(49, 50, 1) == [50]
  {
    assert IdealWeeks(48, 1.0 / 2.0, 1) == [48.5];
    assert IdealWeeks(49, 1.0 / 2.0, 1) == [49.5];
    assert Nearest(48.5) == 49 && Nearest(49.5) == 50;
    assert [48.5][1..] == [] && [49.5][1..] == [];
  }

  /** Three windows place their weeks one after the other. */
  lemma PlacementsOfThree(cal: Calendar, days: seq<Date>, counts: seq<nat>)
    requires WeeksAscend(cal, days) && IsoWeeks(cal, days)
    requires |days| == 4 && |counts| == 3
    ensures cal.isoWeek(days[0]) <= cal.isoWeek(days[1]) <= cal.isoWeek(days[2]) <= cal.isoWeek(days[3])
    ensures Placements(cal, days, counts, 3)
            == WindowWeeks(cal.isoWeek(days[0]), cal.isoWeek(days[1]), counts[0])
               + WindowWeeks(cal.isoWeek(days[1]), cal.isoWeek(days[2]), counts[1])
               + WindowWeeks(cal.isoWeek(days[2]), cal.isoWeek(days[3]), counts[2])
  {
    var a := WindowWeeks(cal.isoWeek(days[0]), cal.isoWeek(days[1]), counts[0]) by {
      WeeksAscendChain(cal, days, 0, 1);
    }
    PlacementsNext(cal, days, counts, 0);
    assert Placements(cal, days, counts, 1) == a;
    PlacementsNext(cal, days, counts, 1);
    PlacementsNext(cal, days, counts, 2);
  }

  /** The whole allocator on the two-gap anchors with a budget of one day: the
      program places two weeks, 49 and 50, the corrected allocator one, week 49. */
  lemma TwoGapsExamplePlaced()
    ensures CanPlan(PlainCalendar, TwoGapsAnchors, 322)
    ensures VacationWeeks(PlainCalendar, TwoGapsAnchors, 1, 322) == [49, 50]
    ensures |VacationWeeks(PlainCalendar, TwoGapsAnchors, 1, 322)| == 2
    ensures CorrectedVacationWeeks(PlainCalendar, TwoGapsAnchors, 1, 322) == [49]
  {
    TwoGapsExampleKept();
    TwoGapsExampleRelevant();
    TwoGapsExampleCounts();
    TwoGapsExampleWeeks();
    TwoGapsExampleSpreadBoth();
  }

  lemma TwoGapsExampleSpreadBoth()
    ensures WeeksAscend(PlainCalendar, TwoGapsAnchors) && IsoWeeks(PlainCalendar, TwoGapsAnchors)
    ensures Placements(PlainCalendar, TwoGapsAnchors, [1, 0, 1], 3) == [49, 50]
    ensures Placements(PlainCalendar, TwoGapsAnchors, [1, 0, 0], 3) == [49]
  {
    TwoGapsExampleSpread([1, 0, 1]);
    TwoGapsExampleSpread([1, 0, 0]);
    TwoGapsExampleWindows();
    var w: seq<nat> := [49];
    var u: seq<nat> := [50];
    var none: seq<nat> := [];
    assert w + none + u == [49, 50];
    assert w + none + none == [49];
  }

  /** On the two-gap anchors, the counts for the three windows are placed one
      window after the other. */
  lemma TwoGapsExampleSpread(counts: seq<nat>)
    requires |counts| == 3
    ensures WeeksAscend(PlainCalendar, TwoGapsAnchors) && IsoWeeks(PlainCalendar, TwoGapsAnchors)
    ensures Placements(PlainCalendar, TwoGapsAnchors, counts, 3)
            == WindowWeeks(48, 49, counts[0]) + WindowWeeks(49, 49, counts[1]) + WindowWeeks(49, 50, counts[2])
  {
    TwoGapsExampleWeeks();
    TwoGapsExampleAnchorWeeks();
    PlacementsOfThree(PlainCalendar, TwoGapsAnchors, counts);
  }
}
