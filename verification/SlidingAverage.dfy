/**
 The sliding average that sets the timeslice of the OGR projects (clirun.cpp,
 Go_mt): x becomes (15 x + T) / 16 for every run that took T.
 */
module SlidingAverage {
  import opened Words
  import opened Timeslice

  const LIMIT := 0x800_0000  // 2^27, the OGR maximum

  // In 32 bits, as the source has it.
  function Slide(x: u32, t: u32): u32 {
    (x * 15 + t) % TWO32 / 16
  }

  // Below 2^27 nothing overflows and nothing leaves the range; in general the
  // average is exact if and only if the sum fits.
  lemma SlideFits(x: u32, t: u32)
    ensures Slide(x, t) == (15 * x + t) / 16 <==> 15 * x + t < TWO32
    ensures x <= LIMIT && t <= LIMIT ==> 15 * x + t < TWO32 && Slide(x, t) <= LIMIT
  {
  }

  function Distance(x: int, y: int): nat {
    if x < y then y - x else x - y
  }

  // A value is stationary exactly from T - 15 to T; any other moves towards that
  // range and not past it.
  lemma SlideMoves(x: u32, t: u32)
    requires x <= LIMIT && t <= LIMIT
    ensures Slide(x, t) == x <==> t - 15 <= x <= t
    ensures x < t - 15 ==> x < Slide(x, t) <= t
    ensures x > t ==> t <= Slide(x, t) < x
  {
  }

  // The average after n runs of T each.
  function SlideOn(x: u32, t: u32, n: nat): u32
    decreases n
  {
    if n == 0 then x else SlideOn(Slide(x, t), t, n - 1)
  }

  // With a constant T the average reaches a stable point in [T - 15, T] after at
  // most as many runs as it is away, and stays there.
  lemma {:induction false} SlideSettles(x: u32, t: u32, n: nat)
    requires x <= LIMIT && t <= LIMIT && n >= Distance(x, t)
    ensures t - 15 <= SlideOn(x, t, n) <= t
    ensures Slide(SlideOn(x, t, n), t) == SlideOn(x, t, n)
    decreases n
  {
    hide Slide;
    SlideFits(x, t);
    SlideMoves(x, t);
    if n > 0 {
      if t - 15 <= x <= t {
        SlideStays(x, t, n);
      } else {
        SlideSettles(Slide(x, t), t, n - 1);
      }
    }
  }

  lemma {:induction false} SlideStays(x: u32, t: u32, n: nat)
    requires x <= LIMIT && t <= LIMIT && t - 15 <= x <= t
    ensures SlideOn(x, t, n) == x
    decreases n
  {
    SlideMoves(x, t);
    if n == 0 {
    } else {
      SlideStays(x, t, n - 1);
    }
  }

  // On the way it never turns back.
  lemma {:induction false} SlideMonotone(x: u32, t: u32, n: nat)
    requires x <= LIMIT && t <= LIMIT
    ensures x <= t ==> x <= SlideOn(x, t, n) <= t
    ensures x >= t ==> t <= SlideOn(x, t, n) <= x || t - 15 <= SlideOn(x, t, n) <= t
    decreases n
  {
    hide Slide;
    SlideFits(x, t);
    SlideMoves(x, t);
    if n == 0 {
    } else {
      SlideMonotone(Slide(x, t), t, n - 1);
    }
  }

  // ---------- the slice of the OGR projects ----------

  function Clamped(x: nat, b: Bounds): nat {
    if x < b.min then b.min else if x > b.max then b.max else x
  }

  function Rate(a: u32, m: u32, d: u32): nat
    requires d > 0
  {
    ProductGrows(if a > 0 then a else 1, m);
    QuotientFits(a * m, d);
    a * m / d
  }

  // TS_MULDIV: a 64-bit product and quotient cut down to a word.
  function MulDiv(a: u32, m: u32, d: u32): u32
    requires d > 0
  {
    Rate(a, m, d) % TWO32
  }

  lemma RateIs(a: u32, m: u32, d: u32)
    requires d > 0
    ensures Rate(a, m, d) == a * m / d
  {
  }

  // The product over the quotient, exactly if that fits a word.
  lemma MulDivIs(a: u32, m: u32, d: u32)
    requires d > 0
    ensures MulDiv(a, m, d) * d <= a * m < (MulDiv(a, m, d) + 1) * d <==> Rate(a, m, d) < TWO32
    ensures Rate(a, m, d) * d <= a * m < (Rate(a, m, d) + 1) * d
  {
    RateIs(a, m, d);
    hide Rate;
    QuotientOnly(a * m, d, Rate(a, m, d));
    QuotientOnly(a * m, d, MulDiv(a, m, d));
  }

  // The averages of the slices and of the times they took.
  class OgrSlice {
    const b: Bounds
    var tslice: u32
    var ixes: u32
    var usecs: u32

    constructor (b: Bounds, tslice: u32)
      ensures this.b == b && this.tslice == tslice && ixes == 0 && usecs == 0
    {
      this.b, this.tslice, ixes, usecs := b, tslice, 0, 0;
    }

    // The tuning after a run that took `runtime`: the slice that would take the
    // wanted time at the average rate, truncated to 32 bits and clamped.
    method Tune(runtime: u32)
      requires b.min <= b.max
      modifies this
      ensures var x, u := Slide(old(ixes), old(tslice)), Slide(old(usecs), runtime);
        if u == 0 then tslice == old(tslice) && ixes == old(ixes) && usecs == old(usecs)
        else
          && ixes == x && usecs == u
          && tslice == Clamped(Rate(b.usec, x, u) % TWO32, b)
          && (Rate(b.usec, x, u) < TWO32 ==> tslice == Clamped(Rate(b.usec, x, u), b))
      ensures b.min <= old(tslice) <= b.max ==> b.min <= tslice <= b.max
      ensures b.max <= LIMIT && old(ixes) <= LIMIT && b.min <= old(tslice) <= b.max ==> ixes <= LIMIT
    {
      hide Slide, Rate;
      var x, u := Slide(ixes, tslice), Slide(usecs, runtime);
      if b.max <= LIMIT && ixes <= LIMIT && tslice <= b.max {
        SlideFits(ixes, tslice);
      }
      if u != 0 {
        var rate := MulDiv(b.usec, x, u);
        var optimal := rate;
        if optimal < b.min {
          optimal := b.min;
        }
        if optimal > b.max {
          optimal := b.max;
        }
        tslice, ixes, usecs := optimal, x, u;
      }
    }
  }
}
