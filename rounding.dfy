/** Error-diffusion rounding (`round`): each value is rounded after adding the
    error carried over from the values before it, so the rounded values track the
    running total of the inputs. `f32` is idealised as `real`. */
module Rounding {
  import opened Dates

  const U32_MAX: int := 0xFFFF_FFFF

  /** `f32::round`: the nearest integer, halves rounded away from zero. */
  function Nearest(x: real): (n: int)
    ensures -0.5 <= x - n as real <= 0.5
    ensures x - n as real == 0.5 ==> x < 0.0
    ensures x - n as real == -0.5 ==> x > 0.0
  {
    if x >= 0.0 then (x + 0.5).Floor else -((-x + 0.5).Floor)
  }

  /** `as u32` applied to a whole number: saturates at zero and at `u32::MAX`. */
  function AsU32(n: int): (r: nat)
    ensures r <= U32_MAX
    ensures 0 <= n <= U32_MAX ==> r == n
    ensures n < 0 ==> r == 0
  {
    if n < 0 then 0 else if n > U32_MAX then U32_MAX else n
  }

  /** The sum of a sequence of reals, taken from the back like `Sum`. */
  function SumR(s: seq<real>): real {
    if s == [] then 0.0 else SumR(s[..|s| - 1]) + s[|s| - 1]
  }

  lemma {:induction false} SumRCons(x: real, s: seq<real>)
    ensures SumR([x] + s) == x + SumR(s)
  {
    if s != [] {
      var p := s[..|s| - 1];
      assert ([x] + s)[..|[x] + s| - 1] == [x] + p;
      SumRCons(x, p);
    } else {
      assert [x] + s == [x];
      assert [x][..0] == [];
    }
  }

  lemma SumCons(x: int, s: seq<int>)
    ensures Sum([x] + s) == x + Sum(s)
  {
    SumAppend([x], s);
    assert [x][..0] == [];
  }

  // ---------------------------------------------------------------------------
  // `round` as written: the carry uses the rounded value before the cast
  // ---------------------------------------------------------------------------

  /** The values `(item + err).round()` takes for `items`, when `err` is carried in. */
  function RawFrom(items: seq<real>, err: real): (r: seq<int>)
    ensures |r| == |items|
  {
    if items == [] then []
    else
      var rounded := Nearest(items[0] + err);
      [rounded] + RawFrom(items[1..], err + items[0] - rounded as real)
  }

  /** The value of `err` once `items` have been consumed. */
  function CarryAfter(items: seq<real>, err: real): real {
    if items == [] then err
    else CarryAfter(items[1..], err + items[0] - Nearest(items[0] + err) as real)
  }

  /** What `round` emits: every value of `RawFrom`, cast with `as u32`. */
  function RoundOutput(items: seq<real>, err: real): (r: seq<nat>)
    ensures |r| == |items|
  {
    if items == [] then []
    else
      var rounded := Nearest(items[0] + err);
      [AsU32(rounded)] + RoundOutput(items[1..], err + items[0] - rounded as real)
  }

  /** Each emitted value is the rounded value cast with `as u32`. */
  lemma {:induction false} RoundOutputCastsRaw(items: seq<real>, err: real)
    ensures forall i :: 0 <= i < |items| ==> RoundOutput(items, err)[i] == AsU32(RawFrom(items, err)[i])
  {
    if items != [] {
      var rounded := Nearest(items[0] + err);
      RoundOutputCastsRaw(items[1..], err + items[0] - rounded as real);
    }
  }

  /** The carry is what the inputs add up to beyond the rounded values. */
  lemma {:induction false} CarryAccounts(items: seq<real>, err: real)
    ensures CarryAfter(items, err) == err + SumR(items) - Sum(RawFrom(items, err)) as real
  {
    if items != [] {
      var rounded := Nearest(items[0] + err);
      var next := err + items[0] - rounded as real;
      CarryAccounts(items[1..], next);
      assert items == [items[0]] + items[1..];
      SumRCons(items[0], items[1..]);
      SumCons(rounded, RawFrom(items[1..], next));
    }
  }

  /** A carry of at most one half stays at most one half. */
  lemma {:induction false} CarryBounded(items: seq<real>, err: real)
    requires -0.5 <= err <= 0.5
    ensures -0.5 <= CarryAfter(items, err) <= 0.5
  {
    if items != [] {
      var rounded := Nearest(items[0] + err);
      CarryBounded(items[1..], err + items[0] - rounded as real);
    }
  }

  /** Rounding a prefix gives the prefix of the rounding. */
  lemma {:induction false} RawPrefix(items: seq<real>, err: real, i: nat)
    requires i <= |items|
    ensures RawFrom(items[..i], err) == RawFrom(items, err)[..i]
  {
    if i > 0 {
      var rounded := Nearest(items[0] + err);
      assert items[..i][1..] == items[1..][..i - 1];
      RawPrefix(items[1..], err + items[0] - rounded as real, i - 1);
    }
  }

  /** After each item the carry equals the inputs so far minus the rounded values
      so far, and it never exceeds one half. */
  lemma RoundErrorAfterEachItem(items: seq<real>, i: nat)
    requires i <= |items|
    ensures var err := CarryAfter(items[..i], 0.0);
            err == SumR(items[..i]) - Sum(RawFrom(items, 0.0)[..i]) as real
            && -0.5 <= err <= 0.5
  {
    CarryAccounts(items[..i], 0.0);
    CarryBounded(items[..i], 0.0);
    RawPrefix(items, 0.0, i);
  }

  /** Before the cast the rounded values add up to exactly the inputs' total when
      that total is a whole number: the carry left over is then a whole number
      within one half of zero. */
  lemma RawConserves(items: seq<real>, total: int)
    requires SumR(items) == total as real
    ensures Sum(RawFrom(items, 0.0)) == total
  {
    CarryAccounts(items, 0.0);
    CarryBounded(items, 0.0);
  }

  /** On inputs in [0, `u32::MAX` - 1] the cast can only raise a rounded value,
      and by at most one: a rounded value is never below -1. */
  lemma {:induction false} CastRaisesSum(items: seq<real>, err: real)
    requires forall i :: 0 <= i < |items| ==> 0.0 <= items[i] <= (U32_MAX - 1) as real
    requires -0.5 <= err <= 0.5
    ensures Sum(RawFrom(items, err)) <= Sum(RoundOutput(items, err)) <= Sum(RawFrom(items, err)) + |items|
  {
    if items != [] {
      var rounded := Nearest(items[0] + err);
      var next := err + items[0] - rounded as real;
      assert -1 <= rounded <= U32_MAX by {
        assert items[0] + err - 0.5 <= rounded as real <= items[0] + err + 0.5;
      }
      assert forall i :: 0 <= i < |items[1..]| ==> items[1..][i] == items[i + 1];
      CastRaisesSum(items[1..], next);
      SumCons(rounded, RawFrom(items[1..], next));
      SumCons(AsU32(rounded), RoundOutput(items[1..], next));
    }
  }

  /** Non-negative inputs adding up to a whole number: `round` as written emits
      at least that number, and at most one more per input. */
  lemma RoundCoversTotal(items: seq<real>, total: int)
    requires forall i :: 0 <= i < |items| ==> 0.0 <= items[i] <= (U32_MAX - 1) as real
    requires SumR(items) == total as real
    ensures total <= Sum(RoundOutput(items, 0.0)) <= total + |items|
  {
    RawConserves(items, total);
    CastRaisesSum(items, 0.0);
  }

  /** No zero input arrives with a carry of exactly -1/2, the only way a
      non-negative input can round to a negative value. */
  predicate NoZeroMeetsHalf(items: seq<real>, err: real) {
    forall i :: 0 <= i < |items| ==> !(items[i] == 0.0 && CarryAfter(items[..i], err) == -0.5)
  }

  /** A value above -1/2 and at most `u32::MAX` - 1/2 rounds into the `u32` range. */
  lemma NearestInRange(x: real)
    requires -0.5 < x <= U32_MAX as real - 0.5
    ensures 0 <= Nearest(x) <= U32_MAX
  {
  }

  /** `round` as written and the corrected rounding agree unless a zero input
      meets a carry of -1/2. */
  lemma {:induction false} RoundingsAgreeOffHalf(items: seq<real>, err: real)
    requires forall i :: 0 <= i < |items| ==> 0.0 <= items[i] <= (U32_MAX - 1) as real
    requires -0.5 <= err <= 0.5
    requires NoZeroMeetsHalf(items, err)
    ensures RoundOutput(items, err) == ClampedRoundOutput(items, err)
  {
    if items != [] {
      NoZeroMeetsHalfTail(items, err);
      AgreeStep(items[0], err);
      RoundingsAgreeOffHalf(items[1..], err + items[0] - Nearest(items[0] + err) as real);
    }
  }

  /** One step of either rounding: away from a zero input meeting a carry of
      -1/2, the rounded value needs no cast or clamp, and the carry stays in
      [-1/2, 1/2]. */
  lemma AgreeStep(item: real, err: real)
    requires 0.0 <= item <= (U32_MAX - 1) as real
    requires -0.5 <= err <= 0.5
    requires !(item == 0.0 && err == -0.5)
    ensures AsU32(Nearest(item + err)) == Nearest(item + err)
    ensures Clamp(Nearest(item + err)) == Nearest(item + err)
    ensures -0.5 <= err + item - Nearest(item + err) as real <= 0.5
  {
    NearestInRange(item + err);
  }

  /** The condition holds for the first input with the carry in, and carries
      over to the tail with the carry after the first input. */
  lemma NoZeroMeetsHalfTail(items: seq<real>, err: real)
    requires items != [] && NoZeroMeetsHalf(items, err)
    ensures !(items[0] == 0.0 && err == -0.5)
    ensures NoZeroMeetsHalf(items[1..], err + items[0] - Nearest(items[0] + err) as real)
  {
    assert items[..0] == [];
    var next := err + items[0] - Nearest(items[0] + err) as real;
    var rest := items[1..];
    forall i | 0 <= i < |rest|
      ensures !(rest[i] == 0.0 && CarryAfter(rest[..i], next) == -0.5)
    {
      var pre := items[..i + 1];
      assert pre[0] == items[0] && pre[1..] == rest[..i];
      assert CarryAfter(rest[..i], next) == CarryAfter(pre, err);
      assert rest[i] == items[i + 1];
    }
  }

  /** `round`, as written. */
  method Round(items: seq<real>) returns (ret: seq<nat>)
    ensures ret == RoundOutput(items, 0.0)
    ensures |ret| == |items|
  {
    ret := [];
    var err := 0.0;
    ghost var whole := RoundOutput(items, 0.0);
    for i := 0 to |items|
      invariant ret + RoundOutput(items[i..], err) == whole
    {
      var rounded := Nearest(items[i] + err);
      RoundOutputStep(ret, whole, items, i, err);
      err := err + items[i] - rounded as real;
      ret := ret + [AsU32(rounded)];
    }
  }

  /** One pass of the loop of `round` keeps the output so far plus the output
      still to come equal to the whole output. */
  lemma RoundOutputStep(ret: seq<nat>, whole: seq<nat>, items: seq<real>, i: nat, err: real)
    requires i < |items|
    requires ret + RoundOutput(items[i..], err) == whole
    ensures var rounded := Nearest(items[i] + err);
            (ret + [AsU32(rounded)]) + RoundOutput(items[i + 1..], err + items[i] - rounded as real)
            == whole
  {
    var rounded := Nearest(items[i] + err);
    var rest := RoundOutput(items[i + 1..], err + items[i] - rounded as real);
    assert RoundOutput(items[i..], err) == [AsU32(rounded)] + rest by {
      var tail := items[i..];
      assert tail[0] == items[i] && tail[1..] == items[i + 1..];
    }
    assert ret + ([AsU32(rounded)] + rest) == (ret + [AsU32(rounded)]) + rest;
  }

  /** Zero inputs round to zeros: the carry stays at 0 throughout. */
  lemma {:induction false} RoundOfZeros(items: seq<real>)
    requires forall i :: 0 <= i < |items| ==> items[i] == 0.0
    ensures forall i :: 0 <= i < |items| ==> RoundOutput(items, 0.0)[i] == 0
  {
    if items != [] {
      RoundOfZeros(items[1..]);
      assert Nearest(items[0] + 0.0) == 0;
      assert RoundOutput(items, 0.0) == [0] + RoundOutput(items[1..], 0.0);
    }
  }

  /** The example from the `round_test` unit test. */
  lemma RoundExample()
    ensures RoundOutput([60.2, 15.4, 24.6], 0.0) == [60, 16, 24]
  {
    assert Nearest(60.2) == 60;
    assert Nearest(15.4 + 0.2) == 16;
    assert Nearest(24.6 - 0.4) == 24;
    assert [60.2, 15.4, 24.6][1..] == [15.4, 24.6];
    assert [15.4, 24.6][1..] == [24.6];
  }

  /** A carry of -1/2 meeting a zero rounds to -1, which the cast turns into 0
      while the carry keeps the -1: the rounded values then add up to more than
      the inputs. */
  lemma RoundOvershoots()
    ensures SumR([0.5, 0.0, 0.5]) == 1.0
    ensures RoundOutput([0.5, 0.0, 0.5], 0.0) == [1, 0, 1]
  {
    assert Nearest(0.5) == 1;
    assert Nearest(0.0 - 0.5) == -1;
    assert Nearest(0.5 + 0.5) == 1;
    assert [0.5, 0.0, 0.5][1..] == [0.0, 0.5];
    assert [0.0, 0.5][1..] == [0.5];
    assert [0.5, 0.0, 0.5][..2] == [0.5, 0.0];
    assert [0.5, 0.0][..1] == [0.5];
    assert [0.5][..0] == [];
  }

  // ---------------------------------------------------------------------------
  // Corrected `round`: a negative rounding is clamped to zero before it is
  // carried, so the carry always accounts for what was emitted
  // ---------------------------------------------------------------------------

  function Clamp(n: int): nat {
    if n < 0 then 0 else n
  }

  /** What the corrected rounding emits when `err` is carried in. */
  function ClampedRoundOutput(items: seq<real>, err: real): (r: seq<nat>)
    ensures |r| == |items|
  {
    if items == [] then []
    else
      var emitted := Clamp(Nearest(items[0] + err));
      [emitted] + ClampedRoundOutput(items[1..], err + items[0] - emitted as real)
  }

  /** For inputs that are not negative and a carry in [-1/2, 1/2], the emitted
      values fall short of `err` plus the inputs by at most one half either way. */
  lemma {:induction false} ClampedRoundTracksTotal(items: seq<real>, err: real)
    requires forall i :: 0 <= i < |items| ==> items[i] >= 0.0
    requires -0.5 <= err <= 0.5
    ensures var gap := err + SumR(items) - Sum(ClampedRoundOutput(items, err)) as real;
            -0.5 <= gap <= 0.5
  {
    if items != [] {
      var emitted := Clamp(Nearest(items[0] + err));
      var next := err + items[0] - emitted as real;
      ClampedCarryBounded(items[0], err);
      var rest := ClampedRoundOutput(items[1..], next);
      assert forall i :: 0 <= i < |items[1..]| ==> items[1..][i] == items[i + 1];
      ClampedRoundTracksTotal(items[1..], next);
      assert SumR(items) == items[0] + SumR(items[1..]) by {
        assert items == [items[0]] + items[1..];
        SumRCons(items[0], items[1..]);
      }
      assert Sum(ClampedRoundOutput(items, err)) == emitted + Sum(rest) by {
        assert ClampedRoundOutput(items, err) == [emitted] + rest;
        SumCons(emitted, rest);
      }
    }
  }

  /** One step of the corrected rounding keeps a carry in [-1/2, 1/2] there. */
  lemma ClampedCarryBounded(x: real, err: real)
    requires x >= 0.0 && -0.5 <= err <= 0.5
    ensures -0.5 <= err + x - Clamp(Nearest(x + err)) as real <= 0.5
  {
    var n := Nearest(x + err);
    assert -0.5 <= x + err - n as real <= 0.5;
  }

  /** Conservation: when non-negative inputs add up to a whole number, the
      corrected rounding emits values that add up to exactly that number. */
  lemma ClampedRoundConserves(items: seq<real>, total: int)
    requires forall i :: 0 <= i < |items| ==> items[i] >= 0.0
    requires SumR(items) == total as real
    ensures Sum(ClampedRoundOutput(items, 0.0)) == total
  {
    ClampedRoundTracksTotal(items, 0.0);
  }

  /** Inputs that all lie in [lo, hi] round to values in [lo, hi]: with a carry in
      [-1/2, 1/2) each rounded value stays within a half of its input, and a
      clamped carry never reaches +1/2 again. */
  lemma {:induction false} ClampedRoundWithin(items: seq<real>, err: real, lo: nat, hi: int)
    requires -0.5 <= err < 0.5
    requires forall i :: 0 <= i < |items| ==> lo as real <= items[i] <= hi as real
    ensures forall i :: 0 <= i < |items| ==> lo <= ClampedRoundOutput(items, err)[i] <= hi
  {
    if items != [] {
      var v := items[0] + err;
      var n := Nearest(v);
      var emitted := Clamp(n);
      assert lo <= emitted <= hi by {
        assert n as real <= v + 0.5;
        if v >= 0.0 {
          assert v - n as real < 0.5;
        }
      }
      var next := err + items[0] - emitted as real;
      assert -0.5 <= next < 0.5;
      assert forall i :: 0 <= i < |items[1..]| ==> items[1..][i] == items[i + 1];
      ClampedRoundWithin(items[1..], next, lo, hi);
    }
  }

  /** The correction only matters for small values: when every input is at least
      one half (and far below `u32::MAX`) both roundings agree. */
  lemma {:induction false} RoundingsAgree(items: seq<real>, err: real)
    requires forall i :: 0 <= i < |items| ==> 0.5 <= items[i] <= (U32_MAX - 1) as real
    requires -0.5 <= err <= 0.5
    ensures RoundOutput(items, err) == ClampedRoundOutput(items, err)
  {
    if items != [] {
      var x := items[0] + err;
      var rounded := Nearest(x);
      assert 0.0 <= x <= U32_MAX as real - 0.5;
      assert 0 <= rounded <= U32_MAX by {
        assert x - 0.5 <= rounded as real <= x + 0.5;
      }
      assert AsU32(rounded) == rounded && Clamp(rounded) == rounded;
      var next := err + items[0] - rounded as real;
      assert -0.5 <= next <= 0.5;
      assert forall i :: 0 <= i < |items[1..]| ==> items[1..][i] == items[i + 1];
      RoundingsAgree(items[1..], next);
    }
  }

  /** The corrected `round`: the loop of `round` with the emitted value carried. */
  method ClampedRound(items: seq<real>) returns (ret: seq<nat>)
    ensures ret == ClampedRoundOutput(items, 0.0)
    ensures |ret| == |items|
  {
    ret := [];
    var err := 0.0;
    ghost var whole := ClampedRoundOutput(items, 0.0);
    for i := 0 to |items|
      invariant ret + ClampedRoundOutput(items[i..], err) == whole
    {
      var emitted := Clamp(Nearest(items[i] + err));
      ClampedRoundStep(ret, whole, items, i, err);
      err := err + items[i] - emitted as real;
      ret := ret + [emitted];
    }
  }

  /** One pass of the loop of the corrected `round` keeps the output so far plus
      the output still to come equal to the whole output. */
  lemma ClampedRoundStep(ret: seq<nat>, whole: seq<nat>, items: seq<real>, i: nat, err: real)
    requires i < |items|
    requires ret + ClampedRoundOutput(items[i..], err) == whole
    ensures var emitted := Clamp(Nearest(items[i] + err));
            (ret + [emitted]) + ClampedRoundOutput(items[i + 1..], err + items[i] - emitted as real)
            == whole
  {
    var emitted := Clamp(Nearest(items[i] + err));
    var rest := ClampedRoundOutput(items[i + 1..], err + items[i] - emitted as real);
    assert ClampedRoundOutput(items[i..], err) == [emitted] + rest by {
      var tail := items[i..];
      assert tail[0] == items[i] && tail[1..] == items[i + 1..];
    }
    assert ret + ([emitted] + rest) == (ret + [emitted]) + rest;
  }

  /** On the overshooting input the corrected rounding keeps the total. */
  lemma ClampedRoundExample()
    ensures ClampedRoundOutput([0.5, 0.0, 0.5], 0.0) == [1, 0, 0]
    ensures ClampedRoundOutput([60.2, 15.4, 24.6], 0.0) == [60, 16, 24]
  {
    assert Nearest(0.5) == 1;
    assert Nearest(0.0 - 0.5) == -1;
    assert Nearest(0.5 - 0.5) == 0;
    assert [0.5, 0.0, 0.5][1..] == [0.0, 0.5];
    assert [0.0, 0.5][1..] == [0.5];
    assert Nearest(60.2) == 60;
    assert Nearest(15.4 + 0.2) == 16;
    assert Nearest(24.6 - 0.4) == 24;
    assert [60.2, 15.4, 24.6][1..] == [15.4, 24.6];
    assert [15.4, 24.6][1..] == [24.6];
  }
}
