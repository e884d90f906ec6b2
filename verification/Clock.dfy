/**
 The monotonic clock (clitime.cpp): __clks2tv turns a tick counter that wraps
 at 2^32 and the number of times it wrapped into seconds and microseconds,
 CliClock reports the time since its first call.
 */
module Clock {
  import opened Words
  import opened Times

  predicate Before(a: Timeval, b: Timeval) {
    a.sec < b.sec || (a.sec == b.sec && a.usec < b.usec)
  }

  // Tick rates the conversion is exact for.
  predicate GoodRate(hz: u32) {
    10 <= hz <= MILLION && hz % 10 == 0 && MILLION % hz == 0
  }

  const TENTH: int := 429496729  // ULONG_MAX / 10

  // Whole seconds in one turn of the counter, and the ticks left over.
  function TurnSeconds(hz: u32): u32
    requires hz >= 10
  {
    TENTH / (hz / 10)
  }

  function TurnTicks(hz: u32): u32
    requires 10 <= hz <= MILLION
  {
    6 + 10 * (TENTH % (hz / 10))
  }

  // The multiplication trick computes 2^32 / hz and 2^32 % hz.
  lemma TurnIsWhole(hz: u32)
    requires GoodRate(hz)
    ensures TWO32 == TurnSeconds(hz) * hz + TurnTicks(hz)
    ensures 0 < TurnTicks(hz) < hz
  {
    var h := hz / 10;
    var q, r := TENTH / h, TENTH % h;
    assert hz == 10 * h;
    assert TENTH == q * h + r;
    calc {
      q * hz + (6 + 10 * r);
      == { assert q * (10 * h) == 10 * (q * h); }
      10 * (q * h + r) + 6;
      ==
      TWO32;
    }
  }

  // What the conversion means, without machine words.
  function Converted(hz: u32, ticks: nat, wrap: nat): (tv: Timeval)
    requires GoodRate(hz)
  {
    var over := wrap * TurnTicks(hz);
    Timeval(ticks / hz + wrap * TurnSeconds(hz) + over / hz, (ticks % hz + over % hz) * (MILLION / hz))
  }

  // No intermediate result exceeds an unsigned long.
  predicate FitsWords(hz: u32, ticks: u32, wrap: u32)
    requires GoodRate(hz)
  {
    && wrap * TurnTicks(hz) < TWO32
    && Converted(hz, ticks, wrap).sec < TWO32
  }

  lemma SplitTicks(hz: u32, n: nat)
    requires GoodRate(hz)
    ensures MILLION == hz * (MILLION / hz)
    ensures MILLION * (n / hz) + (n % hz) * (MILLION / hz) == n * (MILLION / hz)
  {
    var u, q, m := MILLION / hz, n / hz, n % hz;
    assert MILLION == hz * u;
    assert n == q * hz + m;
    calc {
      MILLION * q + m * u;
      == { assert (hz * u) * q == (q * hz) * u; }
      (q * hz) * u + m * u;
      ==
      (q * hz + m) * u;
    }
  }

  // The microseconds by parts: the ticks, the ticks left over by the turns, and
  // their whole seconds.
  lemma ConvertedSum(hz: u32, ticks: nat, wrap: nat)
    requires GoodRate(hz)
    ensures Micros(Converted(hz, ticks, wrap)) ==
      ticks * (MILLION / hz) + wrap * TurnTicks(hz) * (MILLION / hz) + MILLION * (wrap * TurnSeconds(hz))
  {
    var u, over, s := MILLION / hz, wrap * TurnTicks(hz), wrap * TurnSeconds(hz);
    SplitTicks(hz, ticks);
    SplitTicks(hz, over);
    hide GoodRate, TurnTicks, TurnSeconds;
    assert (ticks % hz + over % hz) * u == (ticks % hz) * u + (over % hz) * u;
  }

  // The conversion is exact: it gives the microseconds of all ticks counted.
  lemma ConvertedExactly(hz: u32, ticks: nat, wrap: nat)
    requires GoodRate(hz)
    ensures Micros(Converted(hz, ticks, wrap)) == (wrap * TWO32 + ticks) * (MILLION / hz)
  {
    var u, over, s := MILLION / hz, wrap * TurnTicks(hz), wrap * TurnSeconds(hz);
    ConvertedSum(hz, ticks, wrap);
    SplitTicks(hz, ticks);
    TurnIsWhole(hz);
    hide GoodRate, TurnTicks, TurnSeconds, Converted, Micros;
    calc {
      ticks * u + over * u + MILLION * s;
      == { assert MILLION * s == (hz * u) * s == (s * hz) * u; }
      (ticks + over + s * hz) * u;
      == { assert over + s * hz == wrap * (TurnTicks(hz) + TurnSeconds(hz) * hz); }
      (wrap * TWO32 + ticks) * u;
    }
  }

  // How far the machine words fall short: whole turns of the leftover ticks and
  // of the seconds.
  lemma WordsFallShort(hz: u32, ticks: nat, wrap: nat, over: nat, k1: nat, sec: nat, k2: nat)
    requires GoodRate(hz) && wrap * TurnTicks(hz) == over + TWO32 * k1
    requires ticks / hz + wrap * TurnSeconds(hz) + over / hz == sec + TWO32 * k2
    ensures Micros(Timeval(sec, (ticks % hz + over % hz) * (MILLION / hz)))
         == (wrap * TWO32 + ticks) * (MILLION / hz) - TWO32 * (MILLION / hz) * k1 - TWO32 * MILLION * k2
  {
    var u, s, all := MILLION / hz, wrap * TurnSeconds(hz), wrap * TurnTicks(hz);
    SplitTicks(hz, ticks);
    SplitTicks(hz, over);
    ConvertedSum(hz, ticks, wrap);
    ConvertedExactly(hz, ticks, wrap);
    hide GoodRate, TurnTicks, TurnSeconds, Converted;
    calc {
      Micros(Timeval(sec, (ticks % hz + over % hz) * u)) + TWO32 * MILLION * k2;
      == { assert (ticks % hz + over % hz) * u == (ticks % hz) * u + (over % hz) * u; }
      MILLION * (ticks / hz + s + over / hz) + (ticks % hz) * u + (over % hz) * u;
      ==
      ticks * u + MILLION * s + over * u;
      == { assert over * u == all * u - TWO32 * u * k1; }
      ticks * u + MILLION * s + all * u - TWO32 * u * k1;
    }
  }

  lemma AddedWords(a: nat, b: nat, c: nat)
    ensures ((a % TWO32 + b) % TWO32 + c) % TWO32 == (c + a + b) % TWO32
  {
    assert a == TWO32 * (a / TWO32) + a % TWO32;
    WrapShift(a % TWO32 + b + c, a / TWO32);
    WrapShift((a % TWO32 + b) % TWO32 + c, (a % TWO32 + b) / TWO32);
  }

  lemma ShortOrNot(m: int, x: int, u: nat, k1: nat, k2: nat)
    requires m == x - TWO32 * u * k1 - TWO32 * MILLION * k2 && u > 0
    ensures m == x <==> k1 == 0 && k2 == 0
  {
    if k1 > 0 {
      assert u * k1 > 0;
      assert TWO32 * u * k1 == TWO32 * (u * k1);
    }
  }

  lemma NoTurns(a: nat)
    ensures a / TWO32 == 0 <==> a < TWO32
    ensures a == a % TWO32 + TWO32 * (a / TWO32)
  {
  }

  lemma WholeMicros(hz: u32)
    requires GoodRate(hz)
    ensures (MILLION + hz / 2) / hz == MILLION / hz > 0
  {
    var u := MILLION / hz;
    assert MILLION == hz * u;
    assert MILLION + hz / 2 == hz * u + hz / 2 && 0 <= hz / 2 < hz;
    QuotientIs(MILLION + hz / 2, hz, u, hz / 2);
  }

  // The conversion as the machine words compute it.
  function InWords(hz: u32, ticks: u32, wrap: u32): Timeval
    requires 10 <= hz <= MILLION
  {
    var over := MulWrap(wrap, TurnTicks(hz));
    Timeval(AddWrap(Quotient(ticks, hz), AddWrap(MulWrap(wrap, TurnSeconds(hz)), Quotient(over, hz))),
            (ticks % hz + over % hz) * ((MILLION + hz / 2) / hz))
  }

  lemma PartsInWords(hz: u32, ticks: u32, wrap: u32)
    requires GoodRate(hz)
    ensures var over, t := MulWrap(wrap, TurnTicks(hz)), InWords(hz, ticks, wrap);
      && t.sec == (ticks / hz + wrap * TurnSeconds(hz) + over / hz) % TWO32
      && t.usec == (ticks % hz + over % hz) * (MILLION / hz)
  {
    hide TurnTicks, TurnSeconds;
    AddedWords(wrap * TurnSeconds(hz), MulWrap(wrap, TurnTicks(hz)) / hz, ticks / hz);
    WholeMicros(hz);
  }

  lemma InWordsFallsShort(hz: u32, ticks: u32, wrap: u32, k1: nat, k2: nat)
    requires GoodRate(hz)
    requires k1 == wrap * TurnTicks(hz) / TWO32
    requires k2 == (ticks / hz + wrap * TurnSeconds(hz) + MulWrap(wrap, TurnTicks(hz)) / hz) / TWO32
    ensures Micros(InWords(hz, ticks, wrap))
         == (wrap * TWO32 + ticks) * (MILLION / hz) - TWO32 * (MILLION / hz) * k1 - TWO32 * MILLION * k2
  {
    hide TurnTicks, TurnSeconds, Micros, InWords;
    var all, whole, over := wrap * TurnTicks(hz), wrap * TurnSeconds(hz), MulWrap(wrap, TurnTicks(hz));
    PartsInWords(hz, ticks, wrap);
    NoTurns(all);
    NoTurns(ticks / hz + whole + over / hz);
    WordsFallShort(hz, ticks, wrap, over, k1, InWords(hz, ticks, wrap).sec, k2);
  }

  // What fits has no turns to lose, and nothing else has none.
  lemma Turnless(m: int, x: int, u: nat, all: nat, over: nat, rest: nat, hz: nat, k1: nat, k2: nat)
    requires hz > 0 && u > 0 && over == all % TWO32 && k1 == all / TWO32 && k2 == (rest + over / hz) / TWO32
    requires m == x - TWO32 * u * k1 - TWO32 * MILLION * k2
    ensures m == x <==> all < TWO32 && rest + all / hz < TWO32
    ensures m == x ==> over == all && (rest + over / hz) % TWO32 == rest + all / hz
  {
    NoTurns(all);
    NoTurns(rest + over / hz);
    ShortOrNot(m, x, u, k1, k2);
  }

  lemma WordsOrNot(hz: u32, ticks: u32, wrap: u32)
    requires GoodRate(hz)
    ensures Micros(InWords(hz, ticks, wrap)) == (wrap * TWO32 + ticks) * (MILLION / hz) <==> FitsWords(hz, ticks, wrap)
    ensures FitsWords(hz, ticks, wrap) ==> InWords(hz, ticks, wrap) == Converted(hz, ticks, wrap)
  {
    hide TurnTicks, TurnSeconds, Micros, InWords;
    NotNegative(wrap, TurnTicks(hz));
    NotNegative(wrap, TurnSeconds(hz));
    NotNegative(ticks, hz);
    NotNegative(MulWrap(wrap, TurnTicks(hz)), hz);
    var all, over := wrap * TurnTicks(hz), MulWrap(wrap, TurnTicks(hz));
    var rest := ticks / hz + wrap * TurnSeconds(hz);
    var seconds := rest + over / hz;
    WholeMicros(hz);
    PartsInWords(hz, ticks, wrap);
    InWordsFallsShort(hz, ticks, wrap, all / TWO32, seconds / TWO32);
    Turnless(Micros(InWords(hz, ticks, wrap)), (wrap * TWO32 + ticks) * (MILLION / hz), MILLION / hz, all, over, rest,
             hz, all / TWO32, seconds / TWO32);
  }

  lemma NoTurn(x: u32)
    ensures MulWrap(0, x) == 0
  {
  }

  lemma NoWrap(hz: u32, ticks: u32)
    requires 10 <= hz <= MILLION
    ensures InWords(hz, ticks, 0)
      == Timeval(AddWrap(Quotient(ticks, hz), 0), (ticks % hz + 0) * ((MILLION + hz / 2) / hz))
  {
    hide TurnTicks, TurnSeconds, MulWrap, AddWrap;
    NoTurn(TurnTicks(hz));
    NoTurn(TurnSeconds(hz));
    RemainderFits(0, hz);
    QuotientIs(0, hz, 0, 0);
    assert AddWrap(0, 0) == 0 by {
      AddSub(0, 0);
    }
  }

  // __clks2tv: for good rates it is exact if and only if nothing overflows.
  method Clks2Tv(hz: u32, ticks: u32, wrap: u32) returns (tv: Timeval)
    requires 10 <= hz <= MILLION
    ensures GoodRate(hz) ==>
      && (Micros(tv) == (wrap * TWO32 + ticks) * (MILLION / hz) <==> FitsWords(hz, ticks, wrap))
      && (FitsWords(hz, ticks, wrap) ==> tv == Converted(hz, ticks, wrap))
  {
    hide Micros, FitsWords, Converted, TurnTicks, TurnSeconds, GoodRate;
    NoWrap(hz, ticks);
    var sadj, wadj: u32 := 0, 0;
    if wrap != 0 {
      wadj := MulWrap(wrap, TurnTicks(hz));
      sadj := MulWrap(wrap, TurnSeconds(hz));
      sadj := AddWrap(sadj, Quotient(wadj, hz));
      wadj := wadj % hz;
    }
    tv := Timeval(AddWrap(Quotient(ticks, hz), sadj), (ticks % hz + wadj) * ((MILLION + hz / 2) / hz));
    assert tv == InWords(hz, ticks, wrap);
    if GoodRate(hz) {
      WordsOrNot(hz, ticks, wrap);
    }
  }

  // ---------- the order of converted times ----------

  lemma BeforeTrans(a: Timeval, b: Timeval, c: Timeval)
    requires Before(a, b) && Before(b, c)
    ensures Before(a, c)
  {
  }

  // Counting on by d ticks moves the quotient or the remainder up.
  lemma CountOn(x: nat, d: nat, hz: nat)
    requires hz > 0 && d > 0
    ensures x / hz <= (x + d) / hz
    ensures x / hz == (x + d) / hz ==> x % hz < (x + d) % hz
  {
    var q, p := x / hz, (x + d) / hz;
    assert x == hz * q + x % hz && x + d == hz * p + (x + d) % hz;
    ProductGrows(hz, q - p);
    ProductGrows(hz, p - q);
    assert hz * (q - p) == hz * q - hz * p;
  }

  lemma WithinTurn(hz: u32, wrap: nat, t: nat, u: nat)
    requires GoodRate(hz) && t < u
    ensures Before(Converted(hz, t, wrap), Converted(hz, u, wrap))
  {
    hide TurnTicks, TurnSeconds;
    var over, unit := wrap * TurnTicks(hz), MILLION / hz;
    CountOn(t, u - t, hz);
    WholeMicros(hz);
    ProductGrows(unit, (u % hz + over % hz) - (t % hz + over % hz));
    assert unit * ((u % hz + over % hz) - (t % hz + over % hz))
        == (u % hz + over % hz) * unit - (t % hz + over % hz) * unit;
  }

  lemma TurnEnd(hz: u32)
    requires GoodRate(hz)
    ensures (TWO32 - 1) / hz == TurnSeconds(hz) && (TWO32 - 1) % hz == TurnTicks(hz) - 1
    ensures 0 / hz == 0 && 0 % hz == 0
  {
    hide TurnTicks, TurnSeconds;
    TurnIsWhole(hz);
    QuotientIs(TWO32 - 1, hz, TurnSeconds(hz), TurnTicks(hz) - 1);
    assert TWO32 - 1 == hz * ((TWO32 - 1) / hz) + (TWO32 - 1) % hz;
  }

  lemma OverNext(hz: nat, over: nat, c: nat)
    requires 0 < c < hz
    ensures over % hz + c < hz ==> (over + c) / hz == over / hz && (over + c) % hz == over % hz + c
    ensures over % hz + c >= hz ==> (over + c) / hz == over / hz + 1
  {
    var a, b := over / hz, over % hz;
    assert over == hz * a + b;
    assert over + c == hz * ((over + c) / hz) + (over + c) % hz;
    if b + c < hz {
      QuotientIs(over + c, hz, a, b + c);
    } else {
      QuotientIs(over + c, hz, a + 1, b + c - hz);
    }
  }

  // The last tick of a turn and the first of the next are in order, although
  // the microseconds are not normalised.
  lemma AcrossTurn(hz: u32, wrap: nat)
    requires GoodRate(hz)
    ensures Before(Converted(hz, TWO32 - 1, wrap), Converted(hz, 0, wrap + 1))
  {
    hide TurnTicks, TurnSeconds;
    var c, q, unit := TurnTicks(hz), TurnSeconds(hz), MILLION / hz;
    var over := wrap * c;
    TurnIsWhole(hz);
    TurnEnd(hz);
    WholeMicros(hz);
    OverNext(hz, over, c);
    assert (wrap + 1) * c == over + c && (wrap + 1) * q == wrap * q + q;
    hide GoodRate;
    if over % hz + c < hz {
      assert (over % hz + c) * unit == (c - 1 + over % hz) * unit + unit;
    }
  }

  // Converted times are in the order of the ticks counted.
  lemma {:induction false} Increasing(hz: u32, w: nat, t: u32, v: nat, u: u32)
    requires GoodRate(hz) && w * TWO32 + t < v * TWO32 + u
    ensures Before(Converted(hz, t, w), Converted(hz, u, v))
    decreases v
  {
    hide Converted, Before, GoodRate;
    if v == w {
      WithinTurn(hz, w, t, u);
    } else {
      var last: u32 := TWO32 - 1;
      AcrossTurn(hz, v - 1);
      if u > 0 {
        WithinTurn(hz, v, 0, u);
        BeforeTrans(Converted(hz, last, v - 1), Converted(hz, 0, v), Converted(hz, u, v));
      }
      if w != v - 1 || t != last {
        Increasing(hz, w, t, v - 1, last);
        BeforeTrans(Converted(hz, t, w), Converted(hz, last, v - 1), Converted(hz, u, v));
      }
    }
  }

  // ---------- CliClock ----------

  class CliClock {
    var base: Timeval
    var needBaseTime: bool

    constructor ()
      ensures needBaseTime
    {
      base, needBaseTime := Timeval(0, 0), true;
    }

    // The time since the first call, or an error if the monotonic clock gave
    // none or one before the first.
    method Read(gotit: bool, clock: Timeval) returns (rc: int, tv: Timeval)
      modifies this
      ensures rc == 0 || rc == -1
      ensures !gotit ==> rc == -1 && base == old(base) && needBaseTime == old(needBaseTime)
      ensures gotit && old(needBaseTime) ==> rc == 0 && !needBaseTime && base == clock && tv == Timeval(0, 1)
      ensures gotit && !old(needBaseTime) ==>
        && !needBaseTime && base == old(base)
        && (rc == -1 <==> Before(clock, base))
        && (rc == 0 ==> Micros(tv) == Micros(clock) - Micros(base) && tv == Since(base, clock))
    {
      rc, tv := -1, Timeval(0, 0);
      if needBaseTime {
        if gotit {
          base, needBaseTime := clock, false;
          rc, tv := 0, Timeval(0, 1);
        }
        return;
      }
      if !gotit {
        return;
      }
      var now := clock;
      if now.sec < base.sec || (now.sec == base.sec && now.usec < base.usec) {
        return;
      }
      if now.usec < base.usec {
        now := now.(usec := now.usec + MILLION);
        now := now.(sec := now.sec - 1);
      }
      rc, tv := 0, Timeval(now.sec - base.sec, now.usec - base.usec);
    }
  }

  function Since(base: Timeval, now: Timeval): Timeval {
    if now.usec < base.usec then Timeval(now.sec - 1 - base.sec, now.usec + MILLION - base.usec)
    else Timeval(now.sec - base.sec, now.usec - base.usec)
  }

  // ---------- CliClock with a good base ----------

  lemma OneUnit(hz: u32, k: nat)
    requires GoodRate(hz)
    ensures k < hz ==> k * (MILLION / hz) <= MILLION - MILLION / hz
  {
    var unit := MILLION / hz;
    WholeMicros(hz);
    assert MILLION == hz * unit;
    ProductGrows(unit, hz - 1 - k);
    assert unit * (hz - 1 - k) == hz * unit - unit - k * unit;
  }

  // With the base taken before the counter ever wrapped, no later reading is
  // taken for an earlier one, and the difference is exact and not negative in
  // either part.
  lemma GoodBase(hz: u32, bt: u32, w: nat, t: u32)
    requires GoodRate(hz) && bt < w * TWO32 + t
    ensures var base, now := Converted(hz, bt, 0), Converted(hz, t, w);
      && !Before(now, base)
      && Micros(Since(base, now)) == (w * TWO32 + t - bt) * (MILLION / hz)
      && Since(base, now).sec >= 0 && Since(base, now).usec >= 0
  {
    hide TurnTicks, TurnSeconds;
    var base, now, unit := Converted(hz, bt, 0), Converted(hz, t, w), MILLION / hz;
    Increasing(hz, 0, bt, w, t);
    ConvertedExactly(hz, bt, 0);
    ConvertedExactly(hz, t, w);
    assert (w * TWO32 + t - bt) * unit == (w * TWO32 + t) * unit - bt * unit;
    assert 0 * TurnTicks(hz) == 0 && 0 % hz == 0;
    OneUnit(hz, bt % hz);
    WholeMicros(hz);
    NotNegative(t % hz + (w * TurnTicks(hz)) % hz, unit);
  }

  lemma NotNegative(k: nat, unit: nat)
    ensures k * unit >= 0
    ensures unit > 0 ==> k / unit >= 0
  {
  }

  // Leftover ticks after that many turns.
  function Residue(hz: u32, wrap: nat): nat
    requires GoodRate(hz)
  {
    wrap * TurnTicks(hz) % hz
  }

  lemma LateUsec(hz: u32, bw: nat, bt: u32, nw: nat, t: u32)
    requires GoodRate(hz)
    ensures var d := (t % hz + Residue(hz, nw)) - (bt % hz + Residue(hz, bw));
      var usec := Since(Converted(hz, bt, bw), Converted(hz, t, nw)).usec;
      (usec >= 0 <==> d + hz >= 0)
  {
    hide TurnTicks, TurnSeconds;
    var unit := MILLION / hz;
    WholeMicros(hz);
    assert MILLION == hz * unit;
    var x, y := t % hz + Residue(hz, nw), bt % hz + Residue(hz, bw);
    ProductGrows(unit, x - y);
    ProductGrows(unit, x - y + hz);
    assert unit * (x - y) == x * unit - y * unit;
    assert unit * (x - y + hz) == x * unit - y * unit + MILLION;
  }

  lemma LateNotNegative(hz: u32, bw: nat, bt: u32, nw: nat, t: u32)
    requires GoodRate(hz) && Residue(hz, bw) <= Residue(hz, nw) + 1
    ensures Since(Converted(hz, bt, bw), Converted(hz, t, nw)).usec >= 0
  {
    hide Since, Converted, Residue;
    LateUsec(hz, bw, bt, nw, t);
    RemainderFits(bt, hz);
    RemainderFits(t, hz);
  }

  lemma LateNegative(hz: u32, bw: nat, nw: nat)
    requires GoodRate(hz) && Residue(hz, bw) > Residue(hz, nw) + 1
    ensures Since(Converted(hz, hz - 1, bw), Converted(hz, 0, nw)).usec < 0
  {
    hide Since, Converted, Residue;
    LateUsec(hz, bw, hz - 1, nw, 0);
    RemainderFits(hz - 1, hz);
    RemainderFits(0, hz);
  }

  // With a base taken after the counter wrapped, the microseconds can come out
  // negative: they never do, between two given turns, exactly when the base's
  // residue is at most one above the later turn's.
  lemma LateBase(hz: u32, bw: nat, nw: nat)
    requires GoodRate(hz) && bw < nw
    ensures (forall bt: u32, t: u32 :: Since(Converted(hz, bt, bw), Converted(hz, t, nw)).usec >= 0)
       <==> Residue(hz, bw) <= Residue(hz, nw) + 1
  {
    hide Converted, Since, Residue;
    if Residue(hz, bw) <= Residue(hz, nw) + 1 {
      forall bt: u32, t: u32
        ensures Since(Converted(hz, bt, bw), Converted(hz, t, nw)).usec >= 0
      {
        LateNotNegative(hz, bw, bt, nw, t);
      }
    } else {
      LateNegative(hz, bw, nw);
      var worst, zero: u32 := hz - 1, 0;
      assert Since(Converted(hz, worst, bw), Converted(hz, zero, nw)).usec < 0;
    }
  }

  // So it is with the millisecond counter: a base from the 27th turn and a
  // reading from the 28th can differ by a negative number of microseconds.
  lemma MillisecondBase()
    ensures GoodRate(1000)
    ensures !(forall bt: u32, t: u32 :: Since(Converted(1000, bt, 27), Converted(1000, t, 28)).usec >= 0)
  {
    hide Since, Converted;
    assert TurnTicks(1000) == 296;
    assert Residue(1000, 27) == 992 && Residue(1000, 28) == 288;
    LateBase(1000, 27, 28);
  }

  // ---------- sums and differences ----------

  // CliTimerAdd with both times given.
  method TimerAdd(a: Timeval, b: Timeval) returns (sum: Timeval)
    requires a.usec >= 0 && b.usec >= 0
    ensures Micros(sum) == Micros(a) + Micros(b) && 0 <= sum.usec < MILLION
  {
    sum := Timeval(a.sec + b.sec, a.usec + b.usec);
    if sum.usec >= MILLION {
      sum := sum.(sec := sum.sec + sum.usec / MILLION);
      sum := sum.(usec := sum.usec % MILLION);
    }
  }

  // CliTimerDiff with both times given: the distance, whichever is later.
  method TimerDiff(a: Timeval, b: Timeval) returns (diff: Timeval)
    requires Normal(a) && Normal(b)
    ensures Normal(diff)
    ensures Micros(diff) == if Micros(a) <= Micros(b) then Micros(b) - Micros(a) else Micros(a) - Micros(b)
  {
    var early, late := a, b;
    if late.sec < early.sec || (late.sec == early.sec && late.usec < early.usec) {
      early, late := late, early;
    }
    if late.usec < early.usec {
      late := Timeval(late.sec - 1, late.usec + MILLION);
    }
    diff := Timeval(late.sec - early.sec, late.usec - early.usec);
  }
}
