/** Calendar dates as day numbers, the sort both allocators start from, and the
    selection of the anchor dates that still matter from a start date onward. */
module Dates {

  /** A calendar date as a day number counted from a fixed epoch; the order of
      dates is the order of their day numbers. */
  type Date = int

  /** Rust's `u16`. */
  type uint16 = x: int | 0 <= x < 0x1_0000

  predicate Sorted(s: seq<Date>) {
    forall i, j :: 0 <= i < j < |s| ==> s[i] <= s[j]
  }

  predicate StrictlySorted(s: seq<Date>) {
    forall i, j :: 0 <= i < j < |s| ==> s[i] < s[j]
  }

  /** The sum of a sequence of integers, taken from the back so that prefix sums unfold. */
  function Sum(s: seq<int>): int {
    if s == [] then 0 else Sum(s[..|s| - 1]) + s[|s| - 1]
  }

  lemma {:induction false} SumAppend(s: seq<int>, t: seq<int>)
    ensures Sum(s + t) == Sum(s) + Sum(t)
  {
    if t != [] {
      var u := t[..|t| - 1];
      assert (s + t)[..|s + t| - 1] == s + u;
      assert t == u + [t[|t| - 1]];
      SumAppend(s, u);
    } else {
      assert s + t == s;
    }
  }

  lemma {:induction false} SumNonNegative(s: seq<nat>)
    ensures Sum(s) >= 0
  {
    if s != [] { SumNonNegative(s[..|s| - 1]); }
  }

  /** Adding one to one entry adds one to the total. */
  lemma {:induction false} SumIncrement(s: seq<int>, i: nat)
    requires i < |s|
    ensures Sum(s[i := s[i] + 1]) == Sum(s) + 1
  {
    var t := s[i := s[i] + 1];
    assert s == s[..i] + [s[i]] + s[i + 1..];
    assert t == s[..i] + [s[i] + 1] + s[i + 1..];
    SumAppend(s[..i] + [s[i]], s[i + 1..]);
    SumAppend(s[..i], [s[i]]);
    SumAppend(s[..i] + [s[i] + 1], s[i + 1..]);
    SumAppend(s[..i], [s[i] + 1]);
    assert Sum([s[i]]) == s[i] by { assert [s[i]][..0] == []; }
    assert Sum([s[i] + 1]) == s[i] + 1 by { assert [s[i] + 1][..0] == []; }
  }

  // ---------------------------------------------------------------------------
  // Sorting (`slice::sort` on the anchor dates)
  // ---------------------------------------------------------------------------

  lemma SortedCons(h: Date, t: seq<Date>)
    requires Sorted(t)
    requires t == [] || h <= t[0]
    ensures Sorted([h] + t)
  {
    var r := [h] + t;
    forall i, j | 0 <= i < j < |r| ensures r[i] <= r[j] {
      if i == 0 { assert r[j] == t[j - 1]; assert t[0] <= t[j - 1]; }
      else { assert r[i] == t[i - 1] && r[j] == t[j - 1]; }
    }
  }

  function Insert(x: Date, s: seq<Date>): (r: seq<Date>)
    requires Sorted(s)
    ensures Sorted(r)
    ensures multiset(r) == multiset(s) + multiset{x}
    ensures r[0] == x || (s != [] && r[0] == s[0])
  {
    if s == [] || x <= s[0] then
      SortedCons(x, s);
      [x] + s
    else
      assert Sorted(s[1..]);
      var rest := Insert(x, s[1..]);
      assert s == [s[0]] + s[1..];
      assert s[1..] != [] ==> s[0] <= s[1..][0];
      SortedCons(s[0], rest);
      [s[0]] + rest
  }

  /** Ascending order of the same dates: what `slice::sort` leaves behind. */
  function SortDates(s: seq<Date>): (r: seq<Date>)
    ensures Sorted(r)
    ensures multiset(r) == multiset(s)
  {
    if s == [] then []
    else
      assert s == [s[0]] + s[1..];
      Insert(s[0], SortDates(s[1..]))
  }

  lemma SortedHeadIsLeast(a: seq<Date>, x: Date)
    requires Sorted(a) && x in multiset(a)
    ensures a[0] <= x
  {
    assert x in a;
    var i :| 0 <= i < |a| && a[i] == x;
    if i > 0 { assert a[0] <= a[i]; }
  }

  lemma TailsAgree(a: seq<Date>, b: seq<Date>)
    requires a != [] && b != [] && a[0] == b[0]
    requires multiset(a) == multiset(b)
    ensures multiset(a[1..]) == multiset(b[1..])
  {
    assert a == [a[0]] + a[1..];
    assert b == [b[0]] + b[1..];
    assert multiset(a[1..]) == multiset(a) - multiset{a[0]};
    assert multiset(b[1..]) == multiset(b) - multiset{b[0]};
  }

  lemma SortedTail(a: seq<Date>)
    requires a != [] && Sorted(a)
    ensures Sorted(a[1..])
  {
  }

  /** Two sorted arrangements of the same dates are the same sequence, so the sort
      forgets the order its input came in. */
  lemma {:induction false} SortedPermutationsEqual(a: seq<Date>, b: seq<Date>)
    requires Sorted(a) && Sorted(b)
    requires multiset(a) == multiset(b)
    ensures a == b
  {
    if a == [] {
      assert |b| == |multiset(b)| == 0;
    } else {
      assert a[0] in multiset(a);
      assert b != [];
      SortedHeadIsLeast(a, b[0]);
      SortedHeadIsLeast(b, a[0]);
      TailsAgree(a, b);
      SortedTail(a); SortedTail(b);
      var ta, tb := a[1..], b[1..];
      SortedPermutationsEqual(ta, tb);
      assert a == [a[0]] + ta;
      assert b == [b[0]] + tb;
    }
  }

  lemma SortForgetsOrder(s: seq<Date>, t: seq<Date>)
    requires multiset(s) == multiset(t)
    ensures SortDates(s) == SortDates(t)
  {
    SortedPermutationsEqual(SortDates(s), SortDates(t));
  }

  // ---------------------------------------------------------------------------
  // Relevant anchors: `partition` by `date < start_date`, then the last earlier
  // date followed by every date on or after the start date
  // ---------------------------------------------------------------------------

  /** The dates strictly before `start`, in input order. */
  function Before(days: seq<Date>, start: Date): (r: seq<Date>)
    ensures |r| <= |days|
    ensures forall i :: 0 <= i < |r| ==> r[i] < start
  {
    if days == [] then []
    else if days[|days| - 1] < start then Before(days[..|days| - 1], start) + [days[|days| - 1]]
    else Before(days[..|days| - 1], start)
  }

  /** The dates on or after `start`, in input order. */
  function AtOrAfter(days: seq<Date>, start: Date): (r: seq<Date>)
    ensures |r| <= |days|
    ensures forall i :: 0 <= i < |r| ==> r[i] >= start
  {
    if days == [] then []
    else if days[|days| - 1] < start then AtOrAfter(days[..|days| - 1], start)
    else AtOrAfter(days[..|days| - 1], start) + [days[|days| - 1]]
  }

  /** The partition loses no date and invents none. */
  lemma {:induction false} PartitionKeepsAll(days: seq<Date>, start: Date)
    ensures multiset(Before(days, start)) + multiset(AtOrAfter(days, start)) == multiset(days)
  {
    if days != [] {
      var p := days[..|days| - 1];
      assert days == p + [days[|days| - 1]];
      PartitionKeepsAll(p, start);
    }
  }

  /** The last date of `Before` is the last date of the input that lies before
      `start`: every later input date is on or after it. */
  lemma {:induction false} BeforeLast(days: seq<Date>, start: Date)
    requires Before(days, start) != []
    ensures exists i :: 0 <= i < |days| && days[i] == Before(days, start)[|Before(days, start)| - 1]
                     && forall j :: i < j < |days| ==> days[j] >= start
  {
    var n := |days|;
    if days[n - 1] < start {
      assert days[n - 1] == Before(days, start)[|Before(days, start)| - 1];
    } else {
      var p := days[..n - 1];
      assert Before(days, start) == Before(p, start);
      BeforeLast(p, start);
      var i :| 0 <= i < |p| && p[i] == Before(p, start)[|Before(p, start)| - 1]
               && forall j :: i < j < |p| ==> p[j] >= start;
      assert days[i] == p[i];
      assert forall j :: i < j < n ==> days[j] >= start by {
        forall j | i < j < n ensures days[j] >= start {
          if j < n - 1 { assert days[j] == p[j]; }
        }
      }
    }
  }

  /** The anchors that bound windows from `start` on (`get_relevant_fixed_days`):
      the last date before `start`, if any, then every date on or after `start`. */
  function RelevantFixedDays(days: seq<Date>, start: Date): (r: seq<Date>)
    ensures |r| == |AtOrAfter(days, start)| + (if Before(days, start) == [] then 0 else 1)
    ensures Before(days, start) != [] ==> r[0] < start && r[1..] == AtOrAfter(days, start)
    ensures Before(days, start) == [] ==> r == AtOrAfter(days, start)
    ensures forall i :: 0 < i < |r| ==> r[i] >= start
  {
    var before := Before(days, start);
    if before != [] then [before[|before| - 1]] + AtOrAfter(days, start)
    else AtOrAfter(days, start)
  }

  /** A date is in `Before` exactly when it is an input date before `start`, and
      in `AtOrAfter` exactly when it is an input date on or after `start`. */
  lemma {:induction false} PartitionMembers(days: seq<Date>, start: Date)
    ensures forall x :: x in Before(days, start) <==> x in days && x < start
    ensures forall x :: x in AtOrAfter(days, start) <==> x in days && x >= start
  {
    if days != [] {
      var p := days[..|days| - 1];
      assert days == p + [days[|days| - 1]];
      PartitionMembers(p, start);
    }
  }

  /** Only a date of the input is kept, every date on or after `start` is kept, and
      the one earlier date kept is the last earlier date of the input. */
  lemma RelevantFixedDaysSelects(days: seq<Date>, start: Date)
    ensures forall x :: x in RelevantFixedDays(days, start) ==> x in days
    ensures forall x :: x in days && x >= start ==> x in RelevantFixedDays(days, start)
    ensures (exists x :: x in days && x < start) <==> (RelevantFixedDays(days, start) != [] && RelevantFixedDays(days, start)[0] < start)
    ensures RelevantFixedDays(days, start) != [] && RelevantFixedDays(days, start)[0] < start ==>
              exists i :: 0 <= i < |days| && days[i] == RelevantFixedDays(days, start)[0]
                       && forall j :: i < j < |days| ==> days[j] >= start
  {
    var r := RelevantFixedDays(days, start);
    var b, a := Before(days, start), AtOrAfter(days, start);
    PartitionMembers(days, start);
    if b != [] {
      assert r == [b[|b| - 1]] + a;
      assert b[|b| - 1] in b;
      BeforeLast(days, start);
    } else {
      assert r == a;
      assert forall x :: x in days ==> x >= start;
    }
  }

  /** On sorted input the partition splits it at one index: a prefix before `start`
      and the suffix on or after it. */
  lemma {:induction false} SortedPartitionSplits(days: seq<Date>, start: Date)
    requires Sorted(days)
    ensures |Before(days, start)| <= |days|
    ensures Before(days, start) == days[..|Before(days, start)|]
    ensures AtOrAfter(days, start) == days[|Before(days, start)|..]
  {
    if days != [] {
      var n := |days|;
      var p := days[..n - 1];
      assert Sorted(p);
      SortedPartitionSplits(p, start);
      var k := |Before(p, start)|;
      assert days == p + [days[n - 1]];
      if days[n - 1] < start {
        assert k == |p|;
      } else {
        assert days[..k] == p[..k];
        assert days[k..] == p[k..] + [days[n - 1]];
      }
    }
  }

  /** On sorted input the relevant anchors are a suffix of it: everything from the
      last date before `start` (or from the first date, when none is earlier). */
  lemma SortedRelevantIsSuffix(days: seq<Date>, start: Date)
    requires Sorted(days)
    ensures var k := |Before(days, start)|;
            k <= |days| && RelevantFixedDays(days, start) == days[if k == 0 then 0 else k - 1..]
  {
    SortedPartitionSplits(days, start);
    var k := |Before(days, start)|;
    if k > 0 {
      assert days[k - 1..] == [days[k - 1]] + days[k..];
    }
  }

  lemma SortedRelevantIsSorted(days: seq<Date>, start: Date)
    requires Sorted(days)
    ensures Sorted(RelevantFixedDays(days, start))
  {
    SortedRelevantIsSuffix(days, start);
  }
}
