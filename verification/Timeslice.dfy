/**
 The dynamic timeslice of a cruncher (clirun.cpp, Go_mt): how long the last run
 took, and how much work the next one is given.
 */
module Timeslice {
  import opened Words
  import opened Times

  const BAD: u32 := 0xFFFF_FFFF
  const MAX_SECONDS := 4294  // 0xffffffff / 1000000

  // ---------- how long a run took ----------

  // A normal time whose seconds are a machine word.
  predicate Stamp(t: Timeval) {
    Normal(t) && t.sec < TWO32
  }

  // runtime_usec from the problem's run time before and after the run.
  method RunTime(before: Timeval, after: Timeval, invalid: bool) returns (runtime: u32)
    requires Stamp(before) && Stamp(after)
    ensures invalid ==> runtime == BAD
    ensures !invalid && Micros(before) <= Micros(after) ==> runtime == Shown(Micros(after) - Micros(before))
    // a clock that went back shows, unless by so much that the seconds wrap
    ensures !invalid && Micros(before) > Micros(after) ==>
      runtime == if WrapsBack(before, after) then Shown(Micros(after) + MILLION * TWO32 - Micros(before)) else BAD
  {
    hide Shown;
    SecondsBack(after.sec, before.sec);
    runtime := BAD;
    if !invalid {
      var sec, usec: u32 := before.sec, before.usec;
      if after.usec < usec {
        if after.sec <= sec {
          sec := MAX_SECONDS + 1;
        } else {
          sec := SubWrap(after.sec - 1, sec);
          usec := after.usec + MILLION - usec;
        }
      } else {
        sec := SubWrap(after.sec, sec);
        usec := after.usec - usec;
      }
      ShownIs(sec, usec);
      if sec <= MAX_SECONDS {
        runtime := (sec * MILLION + usec) % TWO32;
      }
    }
  }

  lemma SecondsBack(x: u32, y: u32)
    ensures SubWrap(x, y) == if x >= y then x - y else x + TWO32 - y
    ensures x > y ==> SubWrap(x - 1, y) == x - 1 - y
  {
  }

  lemma ShownIs(sec: nat, usec: nat)
    requires usec < MILLION
    ensures Shown(MILLION * sec + usec) == if sec <= MAX_SECONDS then (sec * MILLION + usec) % TWO32 else BAD
  {
  }

  // The clock went back by so many seconds, and not by microseconds, that the
  // difference looks like a short time.
  predicate WrapsBack(before: Timeval, after: Timeval) {
    after.usec >= before.usec && before.sec - after.sec >= TWO32 - MAX_SECONDS
  }

  // The time a cruncher spent yielding is added to a valid run time.
  method AddYield(runtime: u32, addrunus: int) returns (total: u32)
    requires addrunus < TWO32
    ensures total == runtime <==> addrunus <= 0 || runtime == BAD
    ensures addrunus > 0 && runtime + addrunus < TWO32 ==> total == runtime + addrunus
    ensures addrunus > 0 && runtime != BAD && runtime + addrunus >= TWO32 ==> total < runtime
  {
    total := runtime;
    if addrunus > 0 && runtime != BAD {
      total := AddWrap(runtime, addrunus);
    }
  }

  // The run time shown for a true one: exact below 2^32 microseconds, "bad" from
  // 4295 seconds on, and in between wrapped to almost nothing.
  function Shown(elapsed: nat): (shown: u32)
    ensures shown == elapsed <==> elapsed < TWO32
    ensures TWO32 <= elapsed < MILLION * (MAX_SECONDS + 1) ==> shown == elapsed - TWO32 < 32704
    ensures elapsed >= MILLION * (MAX_SECONDS + 1) ==> shown == BAD
  {
    if elapsed < MILLION * (MAX_SECONDS + 1) then elapsed % TWO32 else BAD
  }

  // ---------- the next slice ----------

  // The bounds of a project's timeslice table.
  datatype Bounds = Bounds(usec: u32, max: u32, min: u32)

  predicate Sensible(b: Bounds) {
    1 <= b.min <= b.max <= 0x8000_0000 && 2 <= b.usec <= 0x8000_0000
  }

  const MAX_HINT: u32 := 0x4000_0000

  // A slice at most at the maximum, or rounded from there.
  predicate InBounds(b: Bounds, slice: u32, hint: u32) {
    && slice > 0
    && (slice <= b.max || (hint > 0 && (slice == hint || (slice % hint == 0 && slice <= b.max + hint / 2))))
  }

  predicate Fast(b: Bounds, runtime: u32) {
    runtime < b.usec - b.usec / 20
  }

  predicate Slow(b: Bounds, runtime: u32) {
    runtime > b.usec + b.usec / 20
  }

  // What would have taken usec at the rate of the last run, in 64 bits.
  function Bumped(slice: u32, usec: u32, runtime: u32): (bumped: nat)
    ensures usec > 0 && runtime <= usec / 4 ==> bumped >= slice
  {
    var r := if runtime != 0 then runtime else 1;
    ProductGrows(if usec > 0 then usec else 1, slice);
    QuotientFits(slice * usec, r);
    BumpedGrows(slice, usec, r);
    slice * usec / r
  }

  lemma BumpedGrows(slice: nat, usec: nat, r: nat)
    requires r > 0
    ensures r <= usec ==> slice * usec / r >= slice
  {
    var q := slice * usec / r;
    assert slice * usec == r * q + slice * usec % r;
    RemainderFits(slice * usec, r);
    if r <= usec {
      ProductGrows(r, q - slice);
      assert r * (q - slice) == r * q - r * slice;
      if slice > 0 {
        ProductGrows(slice, usec - r);
        assert slice * (usec - r) == slice * usec - r * slice;
      }
    }
  }

  // The slice of the problem at hand.
  class Slice {
    const b: Bounds
    const gpu: bool  // CUDA, ATI Stream and OpenCL clients
    const coop: bool // non-preemptive crunchers
    var tslice: u32

    constructor (b: Bounds, gpu: bool, coop: bool, tslice: u32)
      ensures this.b == b && this.gpu == gpu && this.coop == coop && this.tslice == tslice
    {
      this.b, this.gpu, this.coop, this.tslice := b, gpu, coop, tslice;
    }

    // The tuning of the non-OGR projects after a run that took `runtime`.  All
    // arithmetic stays within 32 bits.
    method Tune(runtime: u32, hint: u32)
      requires Sensible(b) && hint <= MAX_HINT && runtime != BAD && InBounds(b, tslice, hint)
      modifies this`tslice
      ensures tslice == Tuned(b, gpu, coop, old(tslice), runtime, hint)
      ensures InBounds(b, tslice, hint)
    {
      hide Adjusted, Rounded, InBounds;
      var optimal := Adjust(runtime, hint);
      TunedInBounds(b, gpu, coop, tslice, runtime, hint);
      tslice := RoundToHint(optimal, hint);
    }

    method Adjust(runtime: u32, hint: u32) returns (optimal: u32)
      requires Sensible(b) && hint <= MAX_HINT && InBounds(b, tslice, hint)
      ensures optimal == Adjusted(b, gpu, coop, tslice, runtime, hint)
    {
      hide Bumped;
      SliceLimit(b, tslice, hint);
      optimal := tslice;
      var usec5perc: u32 := b.usec / 20;
      if runtime < b.usec - usec5perc {
        if gpu && runtime <= b.usec / 4 {
          var bumped := Bumped(optimal, b.usec, runtime);
          optimal := if bumped > 0xFFFF_FF00 then 0xFFFF_FF00 else bumped;
        } else if hint >= optimal / 100 && b.usec - 5 * usec5perc < runtime {
          optimal := optimal + hint;
        } else if optimal < 0x8000_0000 {
          optimal := 2 * optimal;
        }
        if optimal > b.max {
          optimal := b.max;
        }
      } else if runtime > b.usec + usec5perc {
        optimal := optimal - optimal / 4;
        if coop {
          optimal := optimal / 4;
        }
        if optimal < b.min {
          optimal := b.min;
        }
      }
    }
  }

  lemma SliceLimit(b: Bounds, slice: u32, hint: u32)
    requires Sensible(b) && hint <= MAX_HINT && InBounds(b, slice, hint)
    ensures 0 < slice <= 0xA000_0000
  {
  }

  method RoundToHint(x: u32, hint: u32) returns (y: u32)
    requires 0 < x <= 0xA000_0000 && hint <= MAX_HINT
    ensures y == Rounded(x, hint)
  {
    y := x;
    if hint != 0 {
      if y < hint {
        y := hint;
      } else {
        y := y + hint / 2;
        RemainderFits(y, hint);
        y := y - y % hint;
      }
    }
  }

  // The slice before it is rounded to the hint.
  function Adjusted(b: Bounds, gpu: bool, coop: bool, slice: u32, runtime: u32, hint: u32): nat {
    if Fast(b, runtime) then
      var raised :=
        if gpu && runtime <= b.usec / 4 then
          var bumped := Bumped(slice, b.usec, runtime);
          if bumped > 0xFFFF_FF00 then 0xFFFF_FF00 else bumped
        else if hint >= slice / 100 && b.usec - 5 * (b.usec / 20) < runtime then slice + hint
        else if slice < 0x8000_0000 then 2 * slice
        else slice;
      if raised > b.max then b.max else raised
    else if Slow(b, runtime) then
      var lowered := slice - slice / 4;
      var fallen := if coop then lowered / 4 else lowered;
      if fallen < b.min then b.min else fallen
    else slice
  }

  function Rounded(x: nat, hint: nat): nat {
    if hint == 0 then x
    else if x < hint then hint
    else x + hint / 2 - (x + hint / 2) % hint
  }

  lemma MultipleIs(hint: nat, q: nat)
    requires hint > 0
    ensures hint * q % hint == 0
  {
    ProductGrows(hint, q);
    QuotientIs(hint * q, hint, q, 0);
    assert hint * q == hint * (hint * q / hint) + hint * q % hint;
  }

  // Rounding takes a slice to a positive multiple of the hint, the hint itself
  // or one at most half a hint away.
  lemma RoundedFits(x: nat, hint: nat)
    requires x > 0 && hint > 0
    ensures Rounded(x, hint) % hint == 0 && Rounded(x, hint) > 0
    ensures if x >= hint then x - hint / 2 <= Rounded(x, hint) <= x + hint / 2 else Rounded(x, hint) == hint
  {
    var y := x + hint / 2;
    RemainderFits(y, hint);
    assert y == hint * (y / hint) + y % hint;
    QuotientFits(y, hint);
    MultipleIs(hint, y / hint);
    assert hint * 1 == hint;
    MultipleIs(hint, 1);
  }

  // A multiple of the hint stays what it is.
  lemma RoundedStays(x: nat, hint: nat)
    requires x > 0 && hint > 0 && x % hint == 0
    ensures Rounded(x, hint) == x
  {
    RemainderFits(x, hint);
    var q := x / hint;
    assert x == hint * q;
    var y := x + hint / 2;
    QuotientFits(x, hint);
    QuotientIs(y, hint, q, hint / 2);
    assert y == hint * (y / hint) + y % hint;
  }

  // Adjusted keeps within the bounds of the table, or leaves the slice alone.
  lemma AdjustedInBounds(b: Bounds, gpu: bool, coop: bool, slice: u32, runtime: u32, hint: u32)
    requires Sensible(b) && hint <= MAX_HINT && InBounds(b, slice, hint)
    ensures var x := Adjusted(b, gpu, coop, slice, runtime, hint);
      && 0 < x <= 0xA000_0000
      && (x <= b.max || x <= slice)
      && (!Fast(b, runtime) && !Slow(b, runtime) ==> x == slice)
      && (b.min <= slice <= b.max ==> b.min <= x <= b.max)
  {
    hide Bumped;
  }

  // A GPU client whose run took a quarter of the target or less gets the longest
  // slice that would not have taken more than the target at the rate of that
  // run, or the maximum.
  lemma GpuBump(b: Bounds, coop: bool, slice: u32, runtime: u32, hint: u32)
    requires Sensible(b) && runtime <= b.usec / 4
    ensures var next, time := Adjusted(b, true, coop, slice, runtime, hint), if runtime == 0 then 1 else runtime;
      && next * time <= slice * b.usec && next <= b.max
      && (next < b.max ==> slice * b.usec < (next + 1) * time)
  {
    var time, bumped := if runtime == 0 then 1 else runtime, Bumped(slice, b.usec, runtime);
    BumpedIs(slice, b.usec, runtime);
    hide Bumped;
    if bumped > b.max {
      ProductGrows(time, bumped - b.max);
      assert time * (bumped - b.max) == bumped * time - b.max * time;
    }
  }

  lemma BumpedIs(slice: u32, usec: u32, runtime: u32)
    ensures var time, bumped := if runtime == 0 then 1 else runtime, Bumped(slice, usec, runtime);
      bumped * time <= slice * usec < (bumped + 1) * time
  {
    QuotientOnly(slice * usec, if runtime == 0 then 1 else runtime, Bumped(slice, usec, runtime));
  }

  function Tuned(b: Bounds, gpu: bool, coop: bool, slice: u32, runtime: u32, hint: u32): nat {
    Rounded(Adjusted(b, gpu, coop, slice, runtime, hint), hint)
  }

  lemma MultiplesApart(hint: nat, a: nat, c: nat)
    requires hint > 0 && hint * a < hint * c + hint
    ensures hint * a <= hint * c
  {
    ProductGrows(hint, a - c - 1);
    ProductGrows(hint, c - a);
    assert hint * (a - c - 1) == hint * a - hint * c - hint;
    assert hint * (c - a) == hint * c - hint * a;
  }

  lemma MultipleOf(x: nat, hint: nat) returns (q: nat)
    requires hint > 0 && x % hint == 0
    ensures x == hint * q
  {
    QuotientFits(x, hint);
    q := x / hint;
  }

  lemma RoundedBelow(x: nat, m: nat, hint: nat)
    requires 0 < x <= m && hint > 0 && m % hint == 0
    ensures Rounded(x, hint) <= m
  {
    hide Rounded;
    RoundedFits(x, hint);
    var a := MultipleOf(Rounded(x, hint), hint);
    var c := MultipleOf(m, hint);
    AtLeastOne(m, hint);
    MultiplesApart(hint, a, c);
  }

  lemma AtLeastOne(m: nat, hint: nat)
    requires m > 0 && hint > 0 && m % hint == 0
    ensures m >= hint
  {
    RemainderFits(m, hint);
  }

  lemma TunedInBounds(b: Bounds, gpu: bool, coop: bool, slice: u32, runtime: u32, hint: u32)
    requires Sensible(b) && hint <= MAX_HINT && InBounds(b, slice, hint)
    ensures Tuned(b, gpu, coop, slice, runtime, hint) < TWO32
    ensures InBounds(b, Tuned(b, gpu, coop, slice, runtime, hint), hint)
    ensures 0 < Adjusted(b, gpu, coop, slice, runtime, hint) <= 0xA000_0000
  {
    hide Adjusted, Rounded;
    AdjustedInBounds(b, gpu, coop, slice, runtime, hint);
    var x := Adjusted(b, gpu, coop, slice, runtime, hint);
    if hint > 0 {
      RoundedFits(x, hint);
      if x > b.max && slice != hint {
        RoundedBelow(x, slice, hint);
      } else if x > b.max {
        MultipleIs(hint, 1);
        assert hint * 1 == hint;
        RoundedBelow(x, slice, hint);
        RoundedAtLeast(x, hint);
      }
    } else {
      NotRounded(x);
    }
  }

  lemma NotRounded(x: nat)
    ensures Rounded(x, 0) == x
  {
  }

  lemma RoundedAtLeast(x: nat, hint: nat)
    requires x > 0 && hint > 0
    ensures Rounded(x, hint) >= hint
  {
    RoundedFits(x, hint);
    RemainderFits(Rounded(x, hint), hint);
  }

  // ---------- over whole runs ----------

  // The slice after runs that took those times.
  function TunedAll(b: Bounds, gpu: bool, coop: bool, slice: u32, runtimes: seq<u32>, hint: u32): nat
    requires Sensible(b) && hint <= MAX_HINT && InBounds(b, slice, hint)
    decreases |runtimes|
  {
    if runtimes == [] then slice
    else
      TunedInBounds(b, gpu, coop, slice, runtimes[0], hint);
      TunedAll(b, gpu, coop, Tuned(b, gpu, coop, slice, runtimes[0], hint), runtimes[1..], hint)
  }

  // Whatever the runs took, a slice that is not rounded stays between the bounds
  // of the table, and one that is stays a positive multiple of the hint, at most
  // half a hint above the maximum or the hint itself.
  lemma {:induction false} RunsInBounds(b: Bounds, gpu: bool, coop: bool, slice: u32, runtimes: seq<u32>, hint: u32)
    requires Sensible(b) && hint <= MAX_HINT && InBounds(b, slice, hint)
    ensures var end := TunedAll(b, gpu, coop, slice, runtimes, hint);
      && end < TWO32 && InBounds(b, end, hint)
      && (hint == 0 && b.min <= slice <= b.max ==> b.min <= end <= b.max)
      && (hint > 0 && (runtimes != [] || slice % hint == 0) ==> end % hint == 0)
    decreases |runtimes|
  {
    hide InBounds, Tuned;
    if runtimes == [] {
    } else {
      TunedInBounds(b, gpu, coop, slice, runtimes[0], hint);
      OneRun(b, gpu, coop, slice, runtimes[0], hint);
      RunsInBounds(b, gpu, coop, Tuned(b, gpu, coop, slice, runtimes[0], hint), runtimes[1..], hint);
    }
  }

  // One run: the clamped slice, or the multiple of the hint next to it.
  lemma OneRun(b: Bounds, gpu: bool, coop: bool, slice: u32, runtime: u32, hint: u32)
    requires Sensible(b) && hint <= MAX_HINT && InBounds(b, slice, hint)
    ensures var x, next := Adjusted(b, gpu, coop, slice, runtime, hint), Tuned(b, gpu, coop, slice, runtime, hint);
      && (hint == 0 ==> next == x)
      && (hint == 0 && b.min <= slice <= b.max ==> b.min <= next <= b.max)
      && (hint > 0 ==> next > 0 && next % hint == 0 && (next == hint || x - hint / 2 <= next <= x + hint / 2))
  {
    hide Adjusted, Rounded;
    AdjustedInBounds(b, gpu, coop, slice, runtime, hint);
    NotRounded(Adjusted(b, gpu, coop, slice, runtime, hint));
    if hint > 0 {
      RoundedFits(Adjusted(b, gpu, coop, slice, runtime, hint), hint);
    }
  }

  // The control goes the right way: a fast run never shortens a slice within the
  // bounds and doubles a sizeable one up to the maximum, a slow run never
  // lengthens it and takes away a quarter or more.  A slice of a usual size is
  // left alone exactly near the target and where a bound is in the way.
  lemma Responds(b: Bounds, gpu: bool, coop: bool, slice: u32, runtime: u32, hint: u32)
    requires Sensible(b) && hint <= MAX_HINT && b.min <= slice <= b.max
    ensures var x := Adjusted(b, gpu, coop, slice, runtime, hint);
      && (Fast(b, runtime) ==> x >= slice)
      && (Fast(b, runtime) && hint == 0 && slice >= 100 ==> x >= (if 2 * slice < b.max then 2 * slice else b.max))
      && (Slow(b, runtime) ==> x <= slice)
      && (Slow(b, runtime) ==> x == b.min || 4 * x <= 3 * slice + 3)
      && (!Fast(b, runtime) && !Slow(b, runtime) ==> x == slice)
      && ((hint > 0 || slice >= 100) && (coop || slice >= 4) ==>
            (x == slice <==>
               || (!Fast(b, runtime) && !Slow(b, runtime))
               || (Fast(b, runtime) && slice == b.max)
               || (Slow(b, runtime) && slice == b.min)))
  {
    hide Bumped;
    if Fast(b, runtime) && gpu && runtime <= b.usec / 4 {
      BumpedDoubles(slice, b.usec, runtime);
    }
  }

  // With a hint the rounded slice answers in the same way exactly if it has room
  // to: a fast run shortens it only if it was above the rounded maximum, a slow
  // one lengthens it only if it was below the rounded minimum or, for an even
  // hint, one short of twice the hint; others leave exactly the multiples alone.
  lemma RespondsRounded(b: Bounds, gpu: bool, coop: bool, slice: u32, runtime: u32, hint: u32)
    requires Sensible(b) && 0 < hint <= MAX_HINT && InBounds(b, slice, hint)
    ensures var next := Tuned(b, gpu, coop, slice, runtime, hint);
      && (Fast(b, runtime) ==> (next >= slice <==> slice <= Rounded(b.max, hint)))
      && (Slow(b, runtime) && slice >= b.min ==>
            (next <= slice <==> slice >= Rounded(b.min, hint) && (coop || hint % 2 == 1 || slice != 2 * hint - 1)))
      && (!Fast(b, runtime) && !Slow(b, runtime) ==> (next == slice <==> slice % hint == 0))
  {
    hide Rounded, Adjusted;
    var x := Adjusted(b, gpu, coop, slice, runtime, hint);
    AdjustedInBounds(b, gpu, coop, slice, runtime, hint);
    if Fast(b, runtime) {
      FastReaches(b, gpu, coop, slice, runtime, hint);
      RoundedGrows(x, b.max, hint);
    } else if Slow(b, runtime) {
      if slice >= b.min {
        SlowReaches(b, gpu, coop, slice, runtime, hint);
        RoundedGrows(b.min, x, hint);
      }
    } else {
      RoundedFits(slice, hint);
      if slice % hint == 0 {
        RoundedStays(slice, hint);
      }
    }
  }

  lemma FastReaches(b: Bounds, gpu: bool, coop: bool, slice: u32, runtime: u32, hint: u32)
    requires Sensible(b) && 0 < hint <= MAX_HINT && InBounds(b, slice, hint) && Fast(b, runtime)
    ensures var x := Adjusted(b, gpu, coop, slice, runtime, hint);
      0 < x <= b.max && (x == b.max || Rounded(x, hint) >= slice)
  {
    hide Rounded, Bumped;
    var x := Adjusted(b, gpu, coop, slice, runtime, hint);
    AdjustedInBounds(b, gpu, coop, slice, runtime, hint);
    if gpu && runtime <= b.usec / 4 {
      BumpedDoubles(slice, b.usec, runtime);
    }
    RoundedFits(x, hint);
    RoundedAtLeast(x, hint);
  }

  // Three quarters of a slice, or less, are rounded to no more than it, but for
  // the one case in which they are half way to the next multiple above it.
  lemma SlowReaches(b: Bounds, gpu: bool, coop: bool, slice: u32, runtime: u32, hint: u32)
    requires Sensible(b) && 0 < hint <= MAX_HINT && InBounds(b, slice, hint) && Slow(b, runtime) && slice >= b.min
    ensures var x := Adjusted(b, gpu, coop, slice, runtime, hint);
      && b.min <= x
      && (x != b.min && slice >= hint ==>
            (Rounded(x, hint) <= slice <==> coop || hint % 2 == 1 || slice != 2 * hint - 1))
      && (x == b.min && !coop && hint % 2 == 0 && slice == 2 * hint - 1 ==> Rounded(x, hint) > slice)
      && Rounded(x, hint) >= hint
      && Rounded(b.min, hint) >= hint
  {
    var x := Adjusted(b, gpu, coop, slice, runtime, hint);
    RoundedAtLeast(x, hint);
    RoundedAtLeast(b.min, hint);
    RoundedTo(x, hint);
  }

  // The multiple of the hint that rounding finds.
  lemma RoundedTimes(x: nat, hint: nat) returns (q: nat, r: nat)
    requires x >= hint > 0
    ensures r < hint && x + hint / 2 == hint * q + r && Rounded(x, hint) == hint * q
  {
    var y := x + hint / 2;
    QuotientFits(y, hint);
    RemainderFits(y, hint);
    q, r := y / hint, y % hint;
  }

  lemma RoundedTo(x: nat, hint: nat)
    requires x > 0 && hint > 0
    ensures x + hint / 2 < 2 * hint ==> Rounded(x, hint) == hint
    ensures 2 * hint <= x + hint / 2 ==> 2 * hint <= Rounded(x, hint) <= x + hint / 2
  {
    if x >= hint {
      hide Rounded;
      var times, r := RoundedTimes(x, hint);
      var q: int := times;
      ProductGrows(hint, q - 2);
      ProductGrows(hint, 1 - q);
      assert hint * (q - 2) == hint * q - 2 * hint && hint * (1 - q) == hint - hint * q;
    }
  }

  lemma RoundedGrows(x: nat, y: nat, hint: nat)
    requires 0 < x <= y && hint > 0
    ensures Rounded(x, hint) <= Rounded(y, hint)
  {
    hide Rounded;
    RoundedTo(x, hint);
    RoundedAtLeast(y, hint);
    if x >= hint {
      var p, u := RoundedTimes(x, hint);
      var q, v := RoundedTimes(y, hint);
      MultiplesApart(hint, p, q);
    }
  }

  // A number at most half a hint below a multiple is rounded to it or more.
  lemma RoundedReaches(x: nat, m: nat, hint: nat)
    requires x > 0 && hint > 0 && m % hint == 0 && (x + hint / 2 >= m || m == hint)
    ensures Rounded(x, hint) >= m
  {
    hide Rounded;
    RoundedAtLeast(x, hint);
    var p := MultipleOf(m, hint);
    if x >= hint {
      var q, r := RoundedTimes(x, hint);
      if m <= x + hint / 2 {
        MultiplesApart(hint, p, q);
      }
    } else if m > hint {
      assert m <= x + hint / 2 < hint + hint;
      MultiplesApart(hint, p, 1);
    }
  }

  // The RC5-72 row of the client's timeslice tables.
  const RC5_72_ROW := Bounds(1000000, 0x8000_0000, 0x100)
  const LARGEST: u32 := 0x8000_0000

  // There a fast run can shorten a slice: the maximum, under a hint that does not
  // divide it.
  lemma RoundingShortens()
    ensures Sensible(RC5_72_ROW) && Fast(RC5_72_ROW, 900000) && InBounds(RC5_72_ROW, LARGEST, 100)
    ensures Tuned(RC5_72_ROW, false, false, LARGEST, 900000, 100) == LARGEST - 48
  {
  }

  // A multiple of the hint that is within the bounds has room: a fast run never
  // shortens it.
  lemma MultiplesHaveRoom(b: Bounds, slice: u32, hint: u32)
    requires Sensible(b) && 0 < hint <= MAX_HINT && InBounds(b, slice, hint) && slice % hint == 0
    ensures slice <= Rounded(b.max, hint)
  {
    RoundedReaches(b.max, slice, hint);
  }

  // Whatever the runs took, a slice rounded to a hint is at least the hint and at
  // most half a hint below the minimum of the table.
  lemma {:induction false} RunsAbove(b: Bounds, gpu: bool, coop: bool, slice: u32, runtimes: seq<u32>, hint: u32)
    requires Sensible(b) && 0 < hint <= MAX_HINT && InBounds(b, slice, hint)
    requires slice >= b.min || (slice % hint == 0 && slice + hint / 2 >= b.min)
    ensures var end := TunedAll(b, gpu, coop, slice, runtimes, hint);
      && end + hint / 2 >= b.min
      && (runtimes != [] ==> end >= hint)
    decreases |runtimes|
  {
    hide InBounds, Tuned, Adjusted, Fast, Slow;
    if runtimes == [] {
    } else {
      var x := Adjusted(b, gpu, coop, slice, runtimes[0], hint);
      TunedInBounds(b, gpu, coop, slice, runtimes[0], hint);
      OneRun(b, gpu, coop, slice, runtimes[0], hint);
      OneRunAbove(b, gpu, coop, slice, runtimes[0], hint);
      var next: u32 := Tuned(b, gpu, coop, slice, runtimes[0], hint);
      RunsAbove(b, gpu, coop, next, runtimes[1..], hint);
    }
  }

  lemma OneRunAbove(b: Bounds, gpu: bool, coop: bool, slice: u32, runtime: u32, hint: u32)
    requires Sensible(b) && 0 < hint <= MAX_HINT && InBounds(b, slice, hint)
    requires slice >= b.min || (slice % hint == 0 && slice + hint / 2 >= b.min)
    ensures var next := Tuned(b, gpu, coop, slice, runtime, hint);
      next >= hint && next + hint / 2 >= b.min
  {
    hide Rounded, Bumped;
    var x := Adjusted(b, gpu, coop, slice, runtime, hint);
    AdjustedInBounds(b, gpu, coop, slice, runtime, hint);
    RoundedAtLeast(x, hint);
    RoundedFits(x, hint);
    if slice % hint == 0 {
      MultiplesHaveRoom(b, slice, hint);
      RespondsRounded(b, gpu, coop, slice, runtime, hint);
    }
  }

  lemma BumpedDoubles(slice: u32, usec: u32, runtime: u32)
    requires runtime <= usec / 4 && slice > 0 && usec > runtime
    ensures Bumped(slice, usec, runtime) >= if usec >= 2 then 2 * slice else slice
  {
    var r := if runtime != 0 then runtime else 1;
    if usec >= 2 {
      BumpedGrows(2 * slice, usec / 2, r);
      TwiceHalf(slice, usec);
      QuotientMonotone(2 * slice * (usec / 2), slice * usec, r);
    }
  }

  lemma TwiceHalf(slice: nat, usec: nat)
    ensures 0 <= 2 * slice * (usec / 2) <= slice * usec
  {
    var h := usec / 2;
    assert usec == 2 * h + usec % 2;
    assert slice * usec == 2 * slice * h + slice * (usec % 2) by {
      assert slice * (2 * h + usec % 2) == slice * (2 * h) + slice * (usec % 2);
    }
  }

  lemma QuotientMonotone(x: nat, y: nat, r: nat)
    requires x <= y && r > 0
    ensures x / r <= y / r
  {
    var p, q := x / r, y / r;
    assert x == r * p + x % r && y == r * q + y % r;
    ProductGrows(r, p - q - 1);
    assert r * (p - q - 1) == r * p - r * q - r;
    RemainderFits(x, r);
    RemainderFits(y, r);
  }

  function Least(x: nat, y: nat): nat {
    if x < y then x else y
  }

  // Fast runs in a row double the slice each time until it is at the maximum.
  lemma {:induction false} FastRunsDouble(b: Bounds, gpu: bool, coop: bool, slice: u32, runtimes: seq<u32>)
    requires Sensible(b) && b.min <= slice <= b.max && slice >= 100
    requires forall r :: r in runtimes ==> Fast(b, r)
    ensures TunedAll(b, gpu, coop, slice, runtimes, 0) >= Least(b.max, slice * Power2(|runtimes|))
    decreases |runtimes|
  {
    hide InBounds, Tuned, Adjusted, Fast;
    BoundsAreIn(b, slice);
    if runtimes != [] {
      assert runtimes[0] in runtimes;
      TunedInBounds(b, gpu, coop, slice, runtimes[0], 0);
      OneRun(b, gpu, coop, slice, runtimes[0], 0);
      Responds(b, gpu, coop, slice, runtimes[0], 0);
      var next: u32 := Tuned(b, gpu, coop, slice, runtimes[0], 0);
      var k := Power2(|runtimes[1..]|);
      FastRunsDouble(b, gpu, coop, next, runtimes[1..]);
      DoubleAgain(b.max, slice, next, k);
      assert Power2(|runtimes|) == 2 * k;
    } else {
      assert slice * Power2(0) == slice;
    }
  }

  lemma DoubleAgain(max: nat, slice: nat, next: nat, k: nat)
    requires k > 0 && next >= Least(2 * slice, max)
    ensures Least(max, next * k) >= Least(max, slice * (2 * k))
  {
    ProductGrows(k, next);
    ProductGrows(k, next - 2 * slice);
    assert k * (next - 2 * slice) == next * k - slice * (2 * k);
  }

  function Power(base: nat, n: nat): nat {
    if n == 0 then 1 else base * Power(base, n - 1)
  }

  // Slow runs in a row bring the slice down to the minimum, by at least a
  // quarter of what is above 3 each time.
  lemma {:induction false} SlowRunsShrink(b: Bounds, gpu: bool, coop: bool, slice: u32, runtimes: seq<u32>)
    requires Sensible(b) && 3 <= b.min <= slice <= b.max
    requires forall r :: r in runtimes ==> Slow(b, r)
    ensures var end := TunedAll(b, gpu, coop, slice, runtimes, 0);
      && b.min <= end <= slice
      && (end == b.min || Power(4, |runtimes|) * (end - 3) <= Power(3, |runtimes|) * (slice - 3))
    decreases |runtimes|
  {
    hide InBounds, Tuned, Adjusted, Slow;
    BoundsAreIn(b, slice);
    if runtimes == [] {
    } else {
      assert runtimes[0] in runtimes;
      TunedInBounds(b, gpu, coop, slice, runtimes[0], 0);
      OneRun(b, gpu, coop, slice, runtimes[0], 0);
      Responds(b, gpu, coop, slice, runtimes[0], 0);
      var next: u32 := Tuned(b, gpu, coop, slice, runtimes[0], 0);
      SlowRunsShrink(b, gpu, coop, next, runtimes[1..]);
      var n := |runtimes[1..]|;
      if next != b.min {
        ShrinkAgain(Power(4, n), Power(3, n), TunedAll(b, gpu, coop, next, runtimes[1..], 0) - 3, next - 3, slice - 3);
      }
    }
  }

  lemma ShrinkAgain(p: nat, q: nat, end: int, next: int, slice: int)
    requires 4 * next <= 3 * slice
    ensures p * end <= q * next ==> 4 * p * end <= 3 * q * slice
  {
    if p * end <= q * next && q > 0 {
      ProductGrows(q, 3 * slice - 4 * next);
      assert q * (3 * slice - 4 * next) == 3 * q * slice - 4 * (q * next);
      assert 4 * p * end == 4 * (p * end);
    } else if p * end <= q * next {
      assert 4 * p * end == 4 * (p * end);
    }
  }

  lemma BoundsAreIn(b: Bounds, slice: u32)
    requires Sensible(b) && b.min <= slice <= b.max
    ensures InBounds(b, slice, 0)
  {
  }

  // A run of more than 2^32 microseconds and less than 4295 seconds is taken for
  // a fast one.
  lemma LongRunLooksFast(b: Bounds, elapsed: nat)
    requires TWO32 <= elapsed < MILLION * (MAX_SECONDS + 1) && 100000 <= b.usec <= 100000000
    ensures Fast(b, Shown(elapsed)) && Shown(elapsed) != BAD
  {
  }
}
