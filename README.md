# Vacation planner allocation engine, in Dafny

This project models the part of the vacation planner that decides where extra
vacation days go. The planner's fixed days off are its public holidays plus the
vacation days the user has already chosen. Between consecutive fixed days
("anchors") it spreads the days that remain in the vacation budget.

It has two allocators and one planner object:

- **Day allocator** (`src/algo.rs`, module `DayAllocator`):
  - sorts the anchors;
  - keeps the last anchor before the start date and every anchor from the start date on;
  - measures each window between consecutive anchors as a `chrono::Duration`;
  - hands the budget out one day at a time, each to the window with the largest truncated `span / (count + 1)`. Ties go to the last such window, because `Iterator::max_by` returns the last maximum;
  - places `k` days in a window at `w0 + i * (span / (k + 1))`.
- **Week allocator** (`vacation_planner/src/algo.rs`, modules `Rounding` and `WeekAllocator`):
  - makes the same anchor selection, then works with ISO 8601 week numbers;
  - sets to zero every window shorter than the ideal interval between days off;
  - shares the budget out in proportion to the windows' lengths;
  - turns the shares into whole numbers with an error-diffusion rounding (`round`);
  - spreads each window's days evenly over its weeks, rounding again.
  - `WeekAllocator.VacationWeeks` is this computation with `round` exactly as written. `WeekAllocator.CorrectedVacationWeeks` is the same allocator with a corrected rounding at the sharing step (see "## Findings").
- **Planner** (`vacation_planner/src/lib.rs`, module `VacationPlanner`):
  - the province-code parser;
  - a `Planner` object that holds the holiday lists, the province, the budget, the ordered set of fixed vacation days and the start date.

Shared definitions live in module `Dates`:
- dates are whole day numbers;
- `slice::sort` is modelled by `SortDates`;
- the relevant-anchor selection both allocators use;
- sums of sequences.

A chrono `Duration` is counted in nanoseconds. `Duration / i32` truncates toward zero, and `NaiveDate + Duration` adds the whole days of the duration, truncated toward zero. `f32` values are idealised as `real`:
- `f32::round` rounds halves away from zero (`Rounding.Nearest`);
- `as u32` saturates at 0 and `u32::MAX` (`Rounding.AsU32`).

The ISO calendar is a parameter, `WeekAllocator.Calendar`. It gives the week number of a date and the week number of December 31 of the date's year.

### Behaviour worth knowing

- Ties in the greedy day allocation go to the **last** window with the best score, not the first (`DayAllocator.BestWindow`).
- With fewer than two relevant anchors and a non-zero budget, the day allocator reaches a failing `unwrap`. It does not return an empty result. The model states this as the precondition `DayAllocator.HasRoom`.
- A placed day can coincide with the window's left anchor. `DayAllocator.OneDayWindowLandsOnAnchor` shows a one-day window whose single placed day is the anchor itself. The day allocator's output is therefore non-decreasing (`Sorted`), but not always strictly increasing, and not always disjoint from the anchors.
- Duplicate anchors are not removed. A fixed vacation day on a holiday appears twice among the anchors and makes a window of length zero.
- The week allocator's output is not always in order, even inside one window. `WeekAllocator.WindowWeeksGoBack` shows seven days between weeks 10 and 11 placed as weeks 10, 10, 11, 10, 11, 11, 11.
- `round` as written does not always preserve the total. The week allocator can then place more weeks than the budget (`WeekAllocator.TwoGapsExamplePlaced`), and can give a day to a window whose delta is zero (`WeekAllocator.ZeroDeltaCanGetDay`). See "## Findings".

## Model

| member | source | states |
|---|---|---|
| Dates.SortDates | src/algo.rs:75 | the sorted anchors are in non-decreasing order and are a permutation of the input |
| Dates.SortForgetsOrder | src/algo.rs:75 | two inputs holding the same dates sort to the same sequence |
| Dates.PartitionKeepsAll | src/algo.rs:14-15 | the partition into dates before and from the start date loses no date and adds none |
| Dates.RelevantFixedDays | src/algo.rs:13-24 | the selection is the dates from the start date on, preceded by one earlier date exactly when there is one; every date after the first is on or after the start |
| Dates.RelevantFixedDaysSelects | src/algo.rs:10-24 | every kept date is an input date; every input date on or after the start is kept; the first kept date is before the start iff some input date is, and then it is the last such date in input order |
| Dates.SortedRelevantIsSuffix | vacation_planner/src/algo.rs:41-51 | on sorted anchors the selection is the suffix starting one before the first date on or after the start |
| Dates.SortedRelevantIsSorted | vacation_planner/src/algo.rs:41-51 | selecting from sorted anchors keeps them sorted |
| DayAllocator.TimesBetweenDays | src/algo.rs:3-8 | one duration per adjacent pair of anchors, element `i` being `days[i+1] - days[i]` in nanoseconds |
| DayAllocator.SortedSpansNonNegative | src/algo.rs:3-8 | on sorted anchors no window has a negative span |
| DayAllocator.BestWindow | src/algo.rs:32-40 | the chosen window has the largest truncated `span / (count + 1)`, and every later window scores strictly less (ties go to the last) |
| DayAllocator.MaxByScore | src/algo.rs:32-40 | the `max_by` scan returns exactly that window |
| DayAllocator.GreedyStepRaisesBest | src/algo.rs:31-43 | one step raises exactly one count by one, that of the best-scoring window, last among ties; no other count changes |
| DayAllocator.DaysPerBucket | src/algo.rs:26-47 | one count per window and the counts add up to the budget |
| DayAllocator.HandOutOne | src/algo.rs:32-43 | one round of the loop takes the counts after `n` rounds to the counts after `n + 1` rounds |
| DayAllocator.ComputeDaysPerBucket | src/algo.rs:26-47 | the loop returns the greedy allocation; the counts add up to the budget, and are all zero when the budget is zero; it needs a window when the budget is not zero (the `unwrap`) |
| DayAllocator.WindowDays | src/algo.rs:53-57 | a window with count `k` yields exactly `k` dates |
| DayAllocator.WindowDaysInside | src/algo.rs:53-57 | for a window with `w0 <= w1`, the placed dates are non-decreasing and lie in `[w0, w1]`, and they are before `w1` when the span is positive |
| DayAllocator.MidpointOfTenDayWindow | src/algo.rs:53-57 | one day in a ten-day window lands on its fifth day |
| DayAllocator.OneDayWindowLandsOnAnchor | src/algo.rs:53-57 | one day in a one-day window lands on the left anchor itself |
| DayAllocator.PlacedUpTo | src/algo.rs:50-61 | the first `n` windows yield as many dates as their counts add up to |
| DayAllocator.PlacedPrefix | src/algo.rs:50-61 | the output of fewer windows is a prefix of the output of more windows |
| DayAllocator.IdealDaysOffWindow | src/algo.rs:50-61 | window `idx` contributes its own dates, in window order, at the offset the earlier counts add up to |
| DayAllocator.PlacedUpToSorted | src/algo.rs:50-61 | on sorted anchors the output is sorted and lies between the first and the `n`-th anchor |
| DayAllocator.ComputeIdealDaysOff | src/algo.rs:50-61 | the nested loops return the window-by-window placement, whose length is the sum of the counts |
| DayAllocator.RelevantSorted | src/algo.rs:75-76 | the relevant anchors of the sorted input are sorted |
| DayAllocator.VacationDaysPlacesBudget | src/algo.rs:65-82 | the whole budget is placed, in order, between the first and the last relevant anchor |
| DayAllocator.VacationDaysIgnoresOrder | src/algo.rs:75-81 | permuting the anchors changes neither the precondition nor the result |
| DayAllocator.CalculateVacationDays | src/algo.rs:65-82 | `calculate_vacation_days` returns the specified result: as many dates as the budget, sorted |
| Rounding.Nearest | vacation_planner/src/algo.rs:11 | the nearest integer, at most one half away; exact halves go away from zero |
| Rounding.AsU32 | vacation_planner/src/algo.rs:13 | the cast keeps values in `u32` range and sends negative values to 0 |
| Rounding.RoundOutput | vacation_planner/src/algo.rs:5-17 | one output per input, in input order |
| Rounding.RoundOutputCastsRaw | vacation_planner/src/algo.rs:11-13 | each output is the rounded value with the carry added, cast to `u32` |
| Rounding.CarryAccounts | vacation_planner/src/algo.rs:10-14 | the carry equals the inputs so far minus the rounded values so far (before the cast) |
| Rounding.CarryBounded | vacation_planner/src/algo.rs:10-14 | the carry never exceeds one half in absolute value |
| Rounding.RoundErrorAfterEachItem | vacation_planner/src/algo.rs:10-14 | after each item, the carry is the prefix's input total minus its rounded total, within one half |
| Rounding.RawConserves | vacation_planner/src/algo.rs:10-14 | when the inputs add up to a whole number, the rounded values before the cast add up to exactly that number |
| Rounding.CastRaisesSum | vacation_planner/src/algo.rs:11-13 | on inputs in `[0, u32::MAX - 1]` the cast raises the rounded values' total by at most one per input, and never lowers it |
| Rounding.RoundCoversTotal | vacation_planner/src/algo.rs:5-17 | non-negative inputs adding up to a whole number `t` round to outputs adding up to at least `t` and at most `t` plus the number of inputs |
| Rounding.RoundingsAgreeOffHalf | vacation_planner/src/algo.rs:10-14 | `round` and the corrected rounding give the same output unless a zero input meets a carry of exactly -1/2 |
| Rounding.RoundOfZeros | vacation_planner/src/algo.rs:5-17 | zero inputs round to zeros |
| Rounding.Round | vacation_planner/src/algo.rs:5-17 | the loop returns the specified output, one value per input |
| Rounding.RoundExample | vacation_planner/src/algo.rs:114-119 | `[60.2, 15.4, 24.6]` rounds to `[60, 16, 24]` |
| Rounding.RoundOvershoots | vacation_planner/src/algo.rs:11-13 | inputs `[0.5, 0, 0.5]` add up to 1, but round to `[1, 0, 1]` |
| Rounding.ClampedRoundOutput | vacation_planner/src/algo.rs:10-14 | corrected rounding: one output per input |
| Rounding.ClampedRoundTracksTotal | vacation_planner/src/algo.rs:10-14 | for non-negative inputs, the corrected outputs stay within one half of the carried-in error plus the inputs |
| Rounding.ClampedRoundConserves | vacation_planner/src/algo.rs:10-14 | non-negative inputs adding up to a whole number round to outputs adding up to exactly that number |
| Rounding.ClampedRoundWithin | vacation_planner/src/algo.rs:95-96 | inputs in `[lo, hi]` round to outputs in `[lo, hi]` |
| Rounding.RoundingsAgree | vacation_planner/src/algo.rs:10-14 | for inputs of at least one half, the corrected rounding and the rounding as written agree |
| Rounding.ClampedRound | vacation_planner/src/algo.rs:5-17 | the loop with the clamped carry returns the corrected output |
| Rounding.ClampedRoundExample | vacation_planner/src/algo.rs:114-119 | the corrected rounding gives `[1, 0, 0]` on `[0.5, 0, 0.5]`, and still `[60, 16, 24]` on the unit test's input |
| WeekAllocator.IdealInterval | vacation_planner/src/algo.rs:61 | the ideal interval is not negative, and times the number of anchors plus days to place it gives the remaining weeks |
| WeekAllocator.RemainingWeeks | vacation_planner/src/algo.rs:53-59 | the weeks from the start to the year's last week; a start in week 53 counts from week 0; the `u32` subtraction needs the start week not to be past the last week |
| WeekAllocator.WeeksAscendChain | vacation_planner/src/algo.rs:63 | when each anchor's week is at least the previous one's, a later anchor's week is at least an earlier one's |
| WeekAllocator.WeekDeltas | vacation_planner/src/algo.rs:63 | one week delta per window, each the difference of the two anchors' weeks |
| WeekAllocator.WeekDeltasSpan | vacation_planner/src/algo.rs:63 | the deltas of the first `n` windows add up to the weeks those windows span |
| WeekAllocator.Thresholded | vacation_planner/src/algo.rs:65-69 | every delta is kept or set to zero, and it is zero iff it was zero or below the interval |
| WeekAllocator.ThresholdedSumAtMost | vacation_planner/src/algo.rs:65-69 | the threshold never adds weeks |
| WeekAllocator.ThresholdedIdempotent | vacation_planner/src/algo.rs:65-69 | a second application of the threshold changes nothing |
| WeekAllocator.ZeroTightDeltas | vacation_planner/src/algo.rs:65-69 | the in-place loop over the delta array leaves exactly the thresholded deltas |
| WeekAllocator.ShareBounds | vacation_planner/src/algo.rs:73 | a window's fraction of the total and its share are not negative; when its delta is at most the total the fraction is at most 1 and the share at most the budget |
| WeekAllocator.ShareAtMost | vacation_planner/src/algo.rs:73 | a window whose delta is at most the total gets a share of at most the budget |
| WeekAllocator.Proportions | vacation_planner/src/algo.rs:73 | one non-negative share per window |
| WeekAllocator.ProportionsSum | vacation_planner/src/algo.rs:71-73 | the shares add up to the deltas' sum over the total, times the budget |
| WeekAllocator.ProportionsAddUp | vacation_planner/src/algo.rs:71-73 | with the deltas' own total, the shares add up to exactly the budget |
| WeekAllocator.SharesAtMostBudget | vacation_planner/src/algo.rs:71-73 | no window's share exceeds the budget |
| WeekAllocator.WeekCounts | vacation_planner/src/algo.rs:71-75 | one count per window; when some delta is kept the counts add up to at least the budget and at most one more per window; when none is they are all zero |
| WeekAllocator.WeekCountsBeforeCast | vacation_planner/src/algo.rs:71-75 | before the cast the rounded shares add up to exactly the budget, and each count is its rounded share cast to `u32` |
| WeekAllocator.CorrectedWeekCounts | vacation_planner/src/algo.rs:71-75 | corrected counts: one per window, adding up to exactly the budget when some delta is kept, all zero otherwise |
| WeekAllocator.CorrectedZeroDeltaNoDays | vacation_planner/src/algo.rs:65-75 | with the corrected counts a window whose delta is zero gets no day off |
| WeekAllocator.CountsAgree | vacation_planner/src/algo.rs:73-75 | the program's counts and the corrected counts are equal unless a zero share meets a carry of -1/2 |
| WeekAllocator.ZeroDeltaCanGetDay | vacation_planner/src/algo.rs:65-75 | kept deltas `[1, 0, 0, 1]` and one day give the counts `[1, 0, 1, 0]`: a zero-delta window gets the day; the corrected counts are `[1, 0, 0, 0]` |
| WeekAllocator.WeekCountsZeroBudget | vacation_planner/src/algo.rs:71-75 | with a budget of 0 every window's count is 0 |
| WeekAllocator.ComputeWeekCounts | vacation_planner/src/algo.rs:71-75 | the total, the shares and `round` compute the specified counts, which add up to at least the budget and at most one more per window when the total is positive |
| WeekAllocator.IdealWeeksInside | vacation_planner/src/algo.rs:93-95 | every ideal position lies between the window's two anchor weeks |
| WeekAllocator.WindowWeeks | vacation_planner/src/algo.rs:88-96 | a window with count `k` yields `k` weeks, each between its two anchor weeks |
| WeekAllocator.WindowWeeksGoBack | vacation_planner/src/algo.rs:93-96 | seven days between weeks 10 and 11 are placed as weeks 10, 10, 11, 10, 11, 11, 11, which is not in order |
| WeekAllocator.Placements | vacation_planner/src/algo.rs:86-101 | the first `n` windows yield as many weeks as their counts add up to, each between the first anchor's week and the `n`-th window's closing anchor's week |
| WeekAllocator.PlaceWeeks | vacation_planner/src/algo.rs:86-101 | the window loop, with its inner push loop, returns the specified placement |
| WeekAllocator.CalculateVacationWeeks | vacation_planner/src/algo.rs:19-104 | `calculate_vacation_weeks` returns `VacationWeeks`, the week numbers with `round` as written at both rounding steps |
| WeekAllocator.VacationWeeksLength | vacation_planner/src/algo.rs:86-101 | the window loop places one week for every day off counted for the windows |
| WeekAllocator.VacationWeeksCoversBudget | vacation_planner/src/algo.rs:19-104 | when some window survives the threshold, at least the budget is placed and at most one week more per window; otherwise nothing is placed; with a budget of 0 nothing is placed |
| WeekAllocator.CorrectedVacationWeeksPlacesBudget | vacation_planner/src/algo.rs:19-104 | the corrected allocator places exactly the budget when some window survives the threshold, and nothing otherwise |
| WeekAllocator.AllocatorsAgree | vacation_planner/src/algo.rs:71-101 | the program and the corrected allocator place the same weeks unless a zero share meets a carry of -1/2 |
| WeekAllocator.VacationWeeksWithinAnchors | vacation_planner/src/algo.rs:86-101 | every placed week lies between the first and the last relevant anchor's week |
| WeekAllocator.VacationWeeksIgnoresOrder | vacation_planner/src/algo.rs:41-42 | permuting the input dates changes neither the precondition nor the result |
| WeekAllocator.SimpleDatesExample | vacation_planner/src/algo.rs:121-128 | anchors on the Mondays of ISO weeks 1 and 52 of 2021, one day and a start on 2021-01-01 give week 27 |
| WeekAllocator.TwoGapsExampleKept | vacation_planner/src/algo.rs:53-69 | anchors in weeks 48, 49, 49 and 50 with the start in week 47 keep the deltas `[1, 0, 1]` |
| WeekAllocator.TwoGapsExampleCounts | vacation_planner/src/algo.rs:71-75 | on those deltas with one day, the shares are `[0.5, 0, 0.5]`; the program's counts are `[1, 0, 1]`, the corrected ones `[1, 0, 0]` |
| WeekAllocator.TwoGapsExamplePlaced | vacation_planner/src/algo.rs:19-104 | on those anchors with one day the program returns two weeks, 49 and 50; the corrected allocator returns week 49 |
| WeekAllocator.EarlyJanuaryAnchorUnderflows | vacation_planner/src/algo.rs:63 | a start on 2021-01-02 with anchors on 2021-01-01 (ISO week 53 of 2020) and 2021-02-15 (week 7) makes the first delta `7 - 53`, outside what the `u32` subtraction can take |
| WeekAllocator.LateStart2025Underflows | vacation_planner/src/algo.rs:53-59 | in 2025, whose December 31 lies in ISO week 1 of 2026, every start from ISO week 2 to week 52 is outside the precondition, whatever the anchors |
| VacationPlanner.ProvinceFromApiId | vacation_planner/src/lib.rs:39-58 | a parsed province has exactly the given code; anything that is no province's code gives `ProvinceParse` |
| VacationPlanner.ApiIdRoundTrip | vacation_planner/src/lib.rs:39-58 | each of the 13 codes parses to its own province |
| VacationPlanner.ApiIdInjective | vacation_planner/src/lib.rs:39-58 | no two provinces share a code |
| VacationPlanner.InsertUnique | vacation_planner/src/lib.rs:149 | set insertion keeps the days strictly increasing, adds exactly the new day, and grows by one iff the day was absent |
| VacationPlanner.InsertExistingUnchanged | vacation_planner/src/lib.rs:149 | inserting a day already in the set leaves it unchanged |
| VacationPlanner.SortedHolidays | vacation_planner/src/lib.rs:76-78 | the same provinces, each list sorted and a permutation of the original |
| VacationPlanner.SortEachProvince | vacation_planner/src/lib.rs:76-78 | the loop over the map sorts every province's list |
| VacationPlanner.Planner.constructor | vacation_planner/src/lib.rs:74-87 | sorted holiday lists, the given province, budget 0, no fixed days, start date today |
| VacationPlanner.Planner.Holidays | vacation_planner/src/lib.rs:129-132 | the province's holiday list, in order; the province must be in the map |
| VacationPlanner.Planner.FixedVacationDays | vacation_planner/src/lib.rs:134-137 | the fixed days in strictly increasing order, without repetition |
| VacationPlanner.Planner.RemainingDays | vacation_planner/src/lib.rs:164-167 | the remaining budget plus the fixed days is the budget; the `u16` subtraction needs the fixed days to fit in the budget |
| VacationPlanner.Planner.SetNumVacationDays | vacation_planner/src/lib.rs:139-141 | the budget changes and nothing else does |
| VacationPlanner.Planner.SetStartDate | vacation_planner/src/lib.rs:154-156 | the start date changes and nothing else does |
| VacationPlanner.Planner.AddVacationDay | vacation_planner/src/lib.rs:143-152 | with no budget left: `InsertionFail` and no change; otherwise `Ok` and the day joins the set; re-adding a day leaves the set as it was; the fixed days stay within the budget; the other fields are unchanged |
| VacationPlanner.Planner.SuggestedVacationWeeks | vacation_planner/src/lib.rs:158-162 | the week allocator's result on the province's holidays followed by the fixed days, with the remaining budget; when some window survives it places at least that budget and at most one week more per window; with no budget left it returns no weeks; it changes nothing |

## Left out

- The GUI, its C++ side and the FFI layer (`src/main.rs`, `src/gui.rs`, `gui/gui.cpp`, `gui/gui.h`) and `build.rs` are not part of this model. They hold no allocation logic.
- `Planner::from_web` (vacation_planner/src/lib.rs:89-126) and `vacation_planner/src/main.rs` are not part of this model. They fetch holidays over HTTP and parse JSON; the planner is built with the constructor from a given holiday map instead.
- `vacation_planner/src/api.rs` and `vacation_planner/src/error.rs` are not part of this model. Only the two error cases `ProvinceParse` and `InsertionFail` are kept.
- `vacation_planner.py` is a Python prototype of the week logic built on a library not shown here. It is not part of this model.
- The current local date (`chrono::Local::today`) is the constructor parameter `today`.
- `debug!` logging is left out.
- ISO 8601 week numbering and `NaiveDate::from_isoywd` are abstract:
  - the calendar is the `Calendar` parameter;
  - the allocator's output is the week numbers themselves, not `IsoWeek` values;
  - the panic of `from_isoywd` on a week number the start's year does not have is not modelled.
- `f32` arithmetic is idealised as exact `real` arithmetic. Precision loss is not modelled.
- The NaN path is modelled only by its outcome: all shares are `0 / 0` when no delta survives, and each NaN cast to `u32` gives 0.
- Dates are unbounded integers, so chrono's date range limits and `Duration` overflow are not modelled.
- `slice::sort`, which sorts in place, is the pure function `Dates.SortDates`. `BTreeSet` is a strictly increasing sequence. The `HashMap` is a `map`, so its iteration order is not modelled.
- DayAllocator.CalculateVacationDays: the failing `unwrap` (a non-zero budget and fewer than two relevant anchors) is the precondition `HasRoom` rather than a panic.
- WeekAllocator.CanPlan: `u32` underflow in `last_iso_week - start_iso_week` (vacation_planner/src/algo.rs:59) and in the week deltas (line 63) is excluded by this precondition. Either panics in a debug build. In a release build the two wrap with different outcomes:
  - a wrapped week delta is huge, so with a non-zero budget its window gets days at week numbers that make `from_isoywd` panic;
  - a wrapped year-end subtraction makes the ideal interval so large that every delta that did not wrap is zeroed; the total is then 0, every share is NaN, `NaN as u32` is 0, and the call returns no weeks.
- WeekAllocator.CanPlan fails often. `last_iso_week` is the ISO week of December 31, which is week 1 of the next year whenever December 31 is a Monday, Tuesday or Wednesday (2019, 2024, 2025, 2029, 2030, 2031, …). In those years every start from ISO week 2 on is outside the precondition (`WeekAllocator.LateStart2025Underflows`). An anchor early in January that belongs to the previous ISO year does the same to the first delta (`WeekAllocator.EarlyJanuaryAnchorUnderflows`). The year's last ISO week, the week of December 28, is evidently what was meant; the model keeps the program's value.
- WeekAllocator.CanPlan: the relevant anchors' week numbers are taken to lie in 1..53, as ISO 8601 week numbers do. The calendar parameter does not enforce this by itself.
- WeekAllocator.IdealInterval: 0/0 (no anchor and no budget) is given the value 0. No window exists then, so the value is never compared.
- VacationPlanner.Planner.RemainingDays: the `u16` underflow when the budget is lowered below the number of fixed days is a precondition. So is the truncation of `len() as u16`, which the same precondition rules out.
- VacationPlanner.Planner.Holidays: the panic of indexing the map with a province it lacks is a precondition.
- Rounding.ClampedRound: the corrected rounding clamps only at zero. Saturation at `u32::MAX` is not modelled, because no share comes near it.

## Findings

| source | as written | input that shows it | evidently intended | confidence | as-written member | corrected member |
|---|---|---|---|---|---|---|
| vacation_planner/src/algo.rs:11-13 | `err += item - rounded` carries the rounded value from before `rounded as u32` saturates a negative rounding to 0. The outputs then no longer track the inputs' total | `round([0.5, 0.0, 0.5])` gives `[1, 0, 1]`, which adds up to 2 for inputs adding up to 1 (`Rounding.RoundOvershoots`). The allocator reaches it with anchors in ISO weeks 48, 49, 49 and 50, a start in week 47 and a budget of one day: the kept deltas are `[1, 0, 1]` and it returns two weeks, 49 and 50 | carry what was actually emitted (clamp to 0 before carrying), so the counts add up to the budget | not executed | WeekAllocator.TwoGapsExamplePlaced | WeekAllocator.CorrectedVacationWeeksPlacesBudget |
