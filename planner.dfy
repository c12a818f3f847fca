/** The planner: the holidays of every province, the province chosen, the
    vacation budget, the vacation days already fixed (an ordered set) and the
    start date, and the operations that change or read them. */
module VacationPlanner {
  import opened Dates
  import opened WeekAllocator

  /** Canadian provinces and territories, by their two-letter codes. */
  datatype Province = AB | BC | MB | NB | NL | NS | NT | NU | ON | PE | QC | SK | YT

  /** The two error cases the core raises. */
  datatype Error = ProvinceParse | InsertionFail

  datatype Result<T> = Ok(value: T) | Err(error: Error)

  /** The code the holiday API uses for each province. */
  function ApiId(p: Province): string {
    match p
    case AB => "AB"
    case BC => "BC"
    case MB => "MB"
    case NB => "NB"
    case NL => "NL"
    case NS => "NS"
    case NT => "NT"
    case NU => "NU"
    case ON => "ON"
    case PE => "PE"
    case QC => "QC"
    case SK => "SK"
    case YT => "YT"
  }

  /** `Province::from_api_id`: a province code gives its province, anything else
      is a `ProvinceParse` error. */
  function ProvinceFromApiId(id: string): (r: Result<Province>)
    ensures r.Ok? ==> ApiId(r.value) == id
    ensures r.Err? ==> r.error == ProvinceParse && forall p: Province :: ApiId(p) != id
  {
    if id == "AB" then Ok(AB)
    else if id == "BC" then Ok(BC)
    else if id == "MB" then Ok(MB)
    else if id == "NB" then Ok(NB)
    else if id == "NL" then Ok(NL)
    else if id == "NS" then Ok(NS)
    else if id == "NT" then Ok(NT)
    else if id == "NU" then Ok(NU)
    else if id == "ON" then Ok(ON)
    else if id == "PE" then Ok(PE)
    else if id == "QC" then Ok(QC)
    else if id == "SK" then Ok(SK)
    else if id == "YT" then Ok(YT)
    else Err(ProvinceParse)
  }

  /** Every province's code parses back to that province. */
  lemma ApiIdRoundTrip(p: Province)
    ensures ProvinceFromApiId(ApiId(p)) == Ok(p)
  {
  }

  /** The codes are distinct, so a parsed code names exactly one province. */
  lemma ApiIdInjective(p: Province, q: Province)
    requires ApiId(p) == ApiId(q)
    ensures p == q
  {
    ApiIdRoundTrip(p);
    ApiIdRoundTrip(q);
  }

  // ---------------------------------------------------------------------------
  // The ordered set of fixed vacation days (`BTreeSet<NaiveDate>`)
  // ---------------------------------------------------------------------------

  /** `BTreeSet::insert` on a set kept as a strictly increasing sequence. */
  function InsertUnique(x: Date, s: seq<Date>): (r: seq<Date>)
    requires StrictlySorted(s)
    ensures StrictlySorted(r)
    ensures forall y :: y in r <==> y in s || y == x
    ensures |r| == if x in s then |s| else |s| + 1
    ensures r[0] == x || r[0] == s[0]
  {
    if s == [] then [x]
    else if x < s[0] then [x] + s
    else if x == s[0] then s
    else
      var t := InsertUnique(x, s[1..]);
      assert forall i :: 0 <= i < |t| ==> s[0] < t[i] by {
        forall i | 0 <= i < |t| ensures s[0] < t[i] {
          assert t[i] in t;
        }
      }
      [s[0]] + t
  }

  /** Inserting a day that is already in the set leaves the set as it was. */
  lemma {:induction false} InsertExistingUnchanged(x: Date, s: seq<Date>)
    requires StrictlySorted(s) && x in s
    ensures InsertUnique(x, s) == s
  {
    if x != s[0] {
      assert x in s[1..];
      assert s[0] < x;
      InsertExistingUnchanged(x, s[1..]);
      assert s == [s[0]] + s[1..];
    }
  }

  // ---------------------------------------------------------------------------
  // Holiday lists
  // ---------------------------------------------------------------------------

  /** Every province's holidays, sorted. */
  function SortedHolidays(h: map<Province, seq<Date>>): (r: map<Province, seq<Date>>)
    ensures r.Keys == h.Keys
    ensures forall p :: p in r ==> Sorted(r[p]) && multiset(r[p]) == multiset(h[p])
  {
    map p | p in h :: SortDates(h[p])
  }

  /** The loop of `Planner::new` that sorts every province's list. */
  method SortEachProvince(h: map<Province, seq<Date>>) returns (r: map<Province, seq<Date>>)
    ensures r == SortedHolidays(h)
  {
    r := map[];
    var todo := h.Keys;
    while todo != {}
      invariant todo <= h.Keys
      invariant r.Keys == h.Keys - todo
      invariant forall p :: p in r ==> r[p] == SortDates(h[p])
      decreases |todo|
    {
      var p :| p in todo;
      r := r[p := SortDates(h[p])];
      todo := todo - {p};
    }
    SortedEverywhere(h, r);
  }

  lemma SortedEverywhere(h: map<Province, seq<Date>>, r: map<Province, seq<Date>>)
    requires r.Keys == h.Keys
    requires forall p :: p in r ==> r[p] == SortDates(h[p])
    ensures r == SortedHolidays(h)
  {
  }

  // ---------------------------------------------------------------------------
  // `Planner`
  // ---------------------------------------------------------------------------

  class Planner {
    var holidays: map<Province, seq<Date>>
    var province: Province
    var numVacationDays: uint16
    /** The fixed vacation days, in increasing order and without repetition. */
    var fixedVacationDays: seq<Date>
    var startDate: Date

    /** Every holiday list is sorted and the fixed days form an ordered set. */
    ghost predicate Valid()
      reads this
    {
      (forall p :: p in holidays ==> Sorted(holidays[p]))
      && StrictlySorted(fixedVacationDays)
    }

    /** No more days are fixed than the budget allows. */
    predicate WithinBudget()
      reads this
    {
      |fixedVacationDays| <= numVacationDays
    }

    /** `Planner::new`; the start date is the current local date, passed in as `today`. */
    constructor (holidays: map<Province, seq<Date>>, province: Province, today: Date)
      ensures Valid() && WithinBudget()
      ensures this.holidays == SortedHolidays(holidays)
      ensures this.province == province
      ensures numVacationDays == 0 && fixedVacationDays == []
      ensures startDate == today
    {
      var sorted := SortEachProvince(holidays);
      this.holidays := sorted;
      this.province := province;
      numVacationDays := 0;
      fixedVacationDays := [];
      startDate := today;
    }

    /** `holidays`: the chosen province's holidays, in order. Indexing the map
        fails when the province has no entry. */
    function Holidays(): (r: seq<Date>)
      reads this
      requires Valid() && province in holidays
      ensures Sorted(r)
      ensures r == holidays[province]
    {
      holidays[province]
    }

    /** `fixed_vacation_days`: the fixed days, in increasing order. */
    function FixedVacationDays(): (r: seq<Date>)
      reads this
      requires Valid()
      ensures StrictlySorted(r)
      ensures |r| == |set d | d in r|
    {
      DistinctCount(fixedVacationDays);
      fixedVacationDays
    }

    /** `remaining_days`: the budget not yet spent on fixed days. The `u16`
        subtraction needs the fixed days to fit in the budget. */
    function RemainingDays(): (r: uint16)
      reads this
      requires WithinBudget()
      ensures r + |fixedVacationDays| == numVacationDays
    {
      numVacationDays - |fixedVacationDays|
    }

    /** `set_num_vacation_days`. */
    method SetNumVacationDays(num: uint16)
      requires Valid()
      modifies this
      ensures Valid()
      ensures numVacationDays == num
      ensures holidays == old(holidays) && province == old(province)
      ensures fixedVacationDays == old(fixedVacationDays) && startDate == old(startDate)
    {
      numVacationDays := num;
    }

    /** `set_start_date`. */
    method SetStartDate(date: Date)
      requires Valid()
      modifies this
      ensures Valid()
      ensures startDate == date
      ensures holidays == old(holidays) && province == old(province)
      ensures numVacationDays == old(numVacationDays) && fixedVacationDays == old(fixedVacationDays)
    {
      startDate := date;
    }

    /** `add_vacation_day`: refused with `InsertionFail` when no day of the budget
        is left; otherwise the day joins the set of fixed days. */
    method AddVacationDay(date: Date) returns (r: Result<()>)
      requires Valid() && WithinBudget()
      modifies this
      ensures Valid() && WithinBudget()
      ensures old(RemainingDays()) == 0 ==>
                r == Err(InsertionFail) && fixedVacationDays == old(fixedVacationDays)
      ensures old(RemainingDays()) > 0 ==>
                r == Ok(()) && fixedVacationDays == InsertUnique(date, old(fixedVacationDays))
      ensures date in old(fixedVacationDays) ==> fixedVacationDays == old(fixedVacationDays)
      ensures holidays == old(holidays) && province == old(province)
      ensures numVacationDays == old(numVacationDays) && startDate == old(startDate)
    {
      if RemainingDays() == 0 {
        return Err(InsertionFail);
      }
      if date in fixedVacationDays {
        InsertExistingUnchanged(date, fixedVacationDays);
      }
      fixedVacationDays := InsertUnique(date, fixedVacationDays);
      return Ok(());
    }

    /** `suggested_vacation_weeks`: the week allocator run on the province's
        holidays followed by the fixed days, with the budget that remains. */
    method SuggestedVacationWeeks(cal: Calendar) returns (r: seq<nat>)
      requires Valid() && WithinBudget() && province in holidays
      requires CanPlan(cal, holidays[province] + fixedVacationDays, startDate)
      ensures r == VacationWeeks(cal, holidays[province] + fixedVacationDays, RemainingDays(), startDate)
      ensures var kept := KeptDeltas(cal, holidays[province] + fixedVacationDays, RemainingDays(), startDate);
              Sum(kept) > 0 ==> RemainingDays() <= |r| <= RemainingDays() + |kept|
      ensures RemainingDays() == 0 ==> r == []
    {
      var mergedDates := holidays[province];
      mergedDates := mergedDates + fixedVacationDays;
      r := CalculateVacationWeeks(cal, mergedDates, RemainingDays(), startDate);
      VacationWeeksCoversBudget(cal, mergedDates, RemainingDays(), startDate);
    }
  }

  /** A strictly increasing sequence has as many elements as its set of elements. */
  lemma {:induction false} DistinctCount(s: seq<Date>)
    requires StrictlySorted(s)
    ensures |s| == |set d | d in s|
  {
    if s != [] {
      var t := s[1..];
      DistinctCount(t);
      assert (set d | d in s) == (set d | d in t) + {s[0]};
      assert s[0] !in t;
    }
  }
}
