/**
 Time spans in the configuration (confrwv.cpp): __parse_timestring reads
 [hh:]mm[:ss], __readwrite_minutes prints h:mm and reads it back in minutes.
 */
module TimeString {
  import opened Characters

  const INT_MAX := 0x7FFF_FFFF

  // What a 32-bit int holds after an overflow, on the machines at hand.
  function Wrapped(x: int): (y: int)
    ensures -0x8000_0000 <= y <= INT_MAX
    ensures y == x <==> -0x8000_0000 <= x <= INT_MAX
  {
    (x + 0x8000_0000) % 0x1_0000_0000 - 0x8000_0000
  }

  // ---------- the digit loop ----------

  // The three fields, which of them is being read, and its length so far.
  datatype Scan = Scan(h: nat, m: nat, s: nat, colcount: nat, fieldlen: nat) | Refused

  const START: Scan := Scan(0, 0, 0, 0, 0)

  predicate FieldChar(c: char) {
    c == ':' || IsDigit(c)
  }

  function Digit(c: char): nat
    requires IsDigit(c)
  {
    (c - '0') as int
  }

  function StepChar(st: Scan, c: char): Scan
    requires FieldChar(c)
  {
    if st.Refused? then Refused
    else if c == ':' then
      if st.colcount + 1 > 2 then Refused else st.(colcount := st.colcount + 1, fieldlen := 0)
    else if st.fieldlen + 1 > 7 || (st.colcount != 0 && st.fieldlen + 1 > 2) then Refused
    else
      var next := st.(fieldlen := st.fieldlen + 1);
      if st.colcount == 0 then next.(h := 10 * st.h + Digit(c))
      else if st.colcount == 1 then next.(m := 10 * st.m + Digit(c))
      else next.(s := 10 * st.s + Digit(c))
  }

  function Run(text: string): Scan
    requires forall c :: c in text ==> FieldChar(c)
  {
    if text == "" then START
    else
      assert forall c :: c in text[..|text| - 1] ==> c in text;
      assert text[|text| - 1] in text;
      StepChar(Run(text[..|text| - 1]), text[|text| - 1])
  }

  function Ten(k: nat): nat {
    if k == 0 then 1 else 10 * Ten(k - 1)
  }

  // Every field fits its length, so nothing overflows an int.
  predicate Small(st: Scan) {
    st.Refused? || (
      && st.colcount <= 2 && st.fieldlen <= (if st.colcount == 0 then 7 else 2)
      && st.h < (if st.colcount == 0 then Ten(st.fieldlen) else 10000000)
      && st.m < (if st.colcount == 0 then 1 else if st.colcount == 1 then Ten(st.fieldlen) else 100)
      && st.s < (if st.colcount < 2 then 1 else Ten(st.fieldlen)))
  }

  lemma TenValues()
    ensures Ten(2) == 100 && Ten(7) == 10000000
  {
    assert Ten(4) == 10000;
    assert Ten(7) == 1000 * Ten(4);
  }

  lemma {:induction false} TenGrows(j: nat, k: nat)
    requires j <= k
    ensures 0 < Ten(j) <= Ten(k)
  {
    if k == 0 {
    } else {
      TenGrows(if j == k then k - 1 else j, k - 1);
    }
  }

  lemma SmallStep(st: Scan, c: char)
    requires Small(st) && FieldChar(c)
    ensures Small(StepChar(st, c))
  {
    if st.Scan? {
      TenValues();
      TenGrows(st.fieldlen, if st.colcount == 0 then 7 else 2);
    }
  }

  lemma SmallBounds(st: Scan)
    requires Small(st) && st.Scan?
    ensures st.h <= 9999999 && st.m <= 99 && st.s <= 99
  {
    TenValues();
    TenGrows(st.fieldlen, if st.colcount == 0 then 7 else 2);
  }

  // The digits and colons at the front.
  function Lead(s: string): (lead: string)
    ensures |lead| <= |s| && lead == s[..|lead|]
    ensures forall c :: c in lead ==> FieldChar(c)
    ensures |lead| < |s| ==> !FieldChar(s[|lead|])
  {
    if s != "" && FieldChar(s[0]) then [s[0]] + Lead(s[1..]) else ""
  }

  // ---------- the parser ----------

  // The historical hours with a decimal point: what replaces the minutes, and
  // what is left of the text.
  function Decimal(rest: string): (r: (nat, string))
    ensures r.0 < 60 && |r.1| <= |rest|
  {
    if |rest| >= 2 && IsDigit(rest[0]) && IsDigit(rest[1]) then
      ((Digit(rest[0]) * 10 + Digit(rest[1])) * 60 / 100, NoZeros(rest[2..]))
    else (0, NoZeros(rest))
  }

  function NoZeros(s: string): (t: string)
    ensures |t| <= |s|
  {
    if s != "" && s[0] == '0' then NoZeros(s[1..]) else s
  }

  // The seconds a text stands for, as the int that comes back; -1 is an error.
  function Parsed(source: string, compat: bool): int {
    var text := Skipped(source);
    var lead := Lead(text);
    var st := Run(lead);
    if st.Refused? then -1
    else
      var rest := text[|lead|..];
      var dot := rest != "" && rest[0] == '.' && st.colcount == 0 && compat;
      var m := if dot then Decimal(rest[1..]).0 else st.m;
      var col := if dot then 1 else st.colcount;
      var tail := Skipped(if dot then Decimal(rest[1..]).1 else rest);
      if tail != "" then -1
      else if col == 0 then Wrapped(st.h * 60)
      else if st.h > INT_MAX / 3600 || m > 59 || st.s > 59 then -1
      else Wrapped((st.h * 60 + m) * 60 + st.s)
  }

  lemma {:induction false} RunRefused(a: string, b: string)
    requires (forall c :: c in a ==> FieldChar(c)) && (forall c :: c in b ==> FieldChar(c))
    ensures Run(a).Refused? ==> Run(a + b).Refused?
    decreases |b|
  {
    if b == "" {
      assert a + b == a;
    } else {
      var init := b[..|b| - 1];
      assert forall c :: c in init ==> c in b;
      RunRefused(a, init);
      assert (a + b)[..|a + b| - 1] == a + init;
    }
  }

  lemma RunOneMore(done: string, c: char, lead: string)
    requires (forall d :: d in done ==> FieldChar(d)) && FieldChar(c) && (forall d :: d in lead ==> FieldChar(d))
    ensures (forall d :: d in done + [c] ==> FieldChar(d)) && (forall d :: d in done + [c] + lead ==> FieldChar(d))
    ensures Run(done + [c]) == StepChar(Run(done), c)
    ensures Run(done + [c]).Refused? ==> Run(done + [c] + lead).Refused?
  {
    assert (done + [c])[..|done|] == done;
    RunRefused(done + [c], lead);
  }

  // The loop has read `done` and has `rest` before it.
  predicate Reading(text: string, done: string, rest: string) {
    && text == done + rest && Lead(text) == done + Lead(rest)
    && (forall c :: c in done ==> FieldChar(c))
    && Run(done).Scan? && Small(Run(done))
  }

  lemma ReadingStart(text: string)
    ensures Reading(text, "", text) && Run("") == START
  {
    RunStart();
  }

  lemma ReadingMore(text: string, done: string, rest: string)
    requires Reading(text, done, rest) && rest != "" && (rest[0] == ':' || IsDigit(rest[0]))
    ensures (forall c :: c in done ==> FieldChar(c)) && (forall c :: c in done + [rest[0]] ==> FieldChar(c))
    ensures FieldChar(rest[0]) && Run(done + [rest[0]]) == StepChar(Run(done), rest[0])
    ensures if Run(done + [rest[0]]).Scan? then Reading(text, done + [rest[0]], rest[1..]) else Run(Lead(text)).Refused?
  {
    hide StepChar, Run, Lead, Small, FieldChar;
    LeadMore(text, done, rest);
    RunOneMore(done, rest[0], Lead(rest[1..]));
    SmallStep(Run(done), rest[0]);
  }

  lemma ReadingEnd(text: string, done: string, rest: string)
    requires Reading(text, done, rest) && (rest == "" || !(rest[0] == ':' || IsDigit(rest[0])))
    ensures Lead(text) == done && text[|done|..] == rest
    ensures var st := Run(done); st.h <= 9999999 && st.m <= 99 && st.s <= 99
  {
    SmallBounds(Run(done));
    LeadStops(text, done, rest);
  }

  // The loop over digits and colons.  No field overflows an int on the way.
  method ScanFields(text: string) returns (ok: bool, h: nat, m: nat, sec: nat, colcount: nat, rest: string)
    ensures ok <==> Run(Lead(text)).Scan?
    ensures ok ==>
      && Run(Lead(text)).h == h <= 9999999 && Run(Lead(text)).m == m <= 99 && Run(Lead(text)).s == sec <= 99
      && Run(Lead(text)).colcount == colcount && rest == text[|Lead(text)|..]
  {
    hide StepChar, Run, Lead, Reading, FieldChar;
    h, m, sec, colcount, rest := 0, 0, 0, 0, text;
    var fieldlen := 0;
    ghost var done, st := "", START;
    ReadingStart(text);
    while rest != "" && (rest[0] == ':' || IsDigit(rest[0]))
      invariant Reading(text, done, rest) && (forall c :: c in done ==> FieldChar(c))
      invariant Run(done) == st == Scan(h, m, sec, colcount, fieldlen)
      decreases |rest|
    {
      var c := rest[0];
      ReadingMore(text, done, rest);
      StepMeans(st, c);
      done, st := done + [c], StepChar(st, c);
      if c == ':' {
        fieldlen := 0;
        colcount := colcount + 1;
        if colcount > 2 {
          return false, h, m, sec, colcount, rest;
        }
      } else {
        fieldlen := fieldlen + 1;
        if fieldlen > 7 || (colcount != 0 && fieldlen > 2) {
          return false, h, m, sec, colcount, rest;
        }
        if colcount == 0 {
          h := h * 10 + Digit(c);
        } else if colcount == 1 {
          m := m * 10 + Digit(c);
        } else {
          sec := sec * 10 + Digit(c);
        }
      }
      rest := rest[1..];
    }
    ReadingEnd(text, done, rest);
    ok := true;
  }

  lemma LeadMore(text: string, done: string, rest: string)
    requires text == done + rest && Lead(text) == done + Lead(rest) && rest != ""
    requires (rest[0] == ':' || IsDigit(rest[0]))
    ensures FieldChar(rest[0])
    ensures text == done + [rest[0]] + rest[1..] && Lead(text) == done + [rest[0]] + Lead(rest[1..])
  {
    assert rest == [rest[0]] + rest[1..];
  }

  lemma LeadStops(text: string, done: string, rest: string)
    requires text == done + rest && Lead(text) == done + Lead(rest)
    requires rest == "" || !(rest[0] == ':' || IsDigit(rest[0]))
    ensures Lead(text) == done && text[|done|..] == rest
  {
  }

  lemma RunStart()
    ensures Run("") == START && Small(START)
  {
  }

  lemma StepMeans(st: Scan, c: char)
    requires st.Scan? && FieldChar(c)
    ensures StepChar(st, c) ==
      if c == ':' then
        if st.colcount + 1 > 2 then Refused else st.(colcount := st.colcount + 1, fieldlen := 0)
      else if st.fieldlen + 1 > 7 || (st.colcount != 0 && st.fieldlen + 1 > 2) then Refused
      else if st.colcount == 0 then st.(fieldlen := st.fieldlen + 1, h := 10 * st.h + Digit(c))
      else if st.colcount == 1 then st.(fieldlen := st.fieldlen + 1, m := 10 * st.m + Digit(c))
      else st.(fieldlen := st.fieldlen + 1, s := 10 * st.s + Digit(c))
  {
  }

  method ParseTimestring(source: string, compat: bool) returns (rc: int)
    ensures rc == Parsed(source, compat)
  {
    hide Run, Lead, Skipped, NoZeros;
    rc := -1;
    var text := SkipSpaces(source);
    var ok, h, m, sec, colcount, rest := ScanFields(text);
    if !ok {
      return;
    }
    if rest != "" && rest[0] == '.' && colcount == 0 && compat {
      colcount := colcount + 1;
      rest := rest[1..];
      m := 0;
      if |rest| >= 2 && IsDigit(rest[0]) && IsDigit(rest[1]) {
        m := (Digit(rest[0]) * 10 + Digit(rest[1])) * 60 / 100;
        rest := rest[2..];
      }
      rest := SkipZeros(rest);
    }
    rest := SkipSpaces(rest);
    if rest != "" {
      return;
    }
    if colcount == 0 {
      return Wrapped(h * 60);
    }
    if h > INT_MAX / 3600 || m > 59 || sec > 59 {
      return;
    }
    rc := Wrapped((h * 60 + m) * 60 + sec);
  }

  method SkipZeros(source: string) returns (t: string)
    ensures t == NoZeros(source)
  {
    t := source;
    while t != "" && t[0] == '0'
      invariant NoZeros(t) == NoZeros(source)
      decreases |t|
    {
      t := t[1..];
    }
  }

  // ---------- printing, and reading back ----------

  function Digits(n: nat): (s: string)
    ensures s != "" && forall c :: c in s ==> IsDigit(c)
  {
    if n < 10 then ['0' + n as char] else Digits(n / 10) + ['0' + (n % 10) as char]
  }

  // sprintf "%u:%02u"
  function Printed(minutes: nat): string {
    Digits(minutes / 60) + [':', '0' + (minutes % 60 / 10) as char, '0' + (minutes % 10) as char]
  }

  // The minutes that come back from a text, if any do; C division truncates.
  function ReadBack(text: string): (minutes: int)
  {
    var seconds := Parsed(text, false);
    if seconds < 0 then -1 else TruncatedQuotient(Wrapped(seconds + 59), 60)
  }

  function TruncatedQuotient(x: int, y: int): int
    requires y > 0
  {
    if x >= 0 then x / y else -(-x / y)
  }

  lemma {:induction false} DigitsLength(n: nat, k: nat)
    requires k > 0
    ensures |Digits(n)| <= k <==> n < Ten(k)
    decreases k
  {
    if n >= 10 && k > 1 {
      DigitsLength(n / 10, k - 1);
    } else if k == 1 {
      assert Ten(1) == 10 * Ten(0);
    } else {
      TenGrows(1, k);
      assert Ten(1) == 10 * Ten(0);
    }
  }

  // Reading the digits of n gives n, if there are at most seven.
  lemma {:induction false} RunDigits(n: nat)
    ensures Run(Digits(n)) == if n <= 9999999 then Scan(n, 0, 0, 0, |Digits(n)|) else Refused
  {
    TenValues();
    DigitsLength(n, 7);
    var d := Digits(n);
    if n >= 10 {
      RunDigits(n / 10);
      assert d[..|d| - 1] == Digits(n / 10);
    } else {
      assert d[..0] == "";
    }
  }

  lemma {:induction false} LeadOfAll(s: string)
    requires forall c :: c in s ==> FieldChar(c)
    ensures Lead(s) == s
  {
    if s == "" {
    } else {
      assert s[0] in s && forall c :: c in s[1..] ==> c in s;
      LeadOfAll(s[1..]);
    }
  }

  // The fields of a printed time.
  lemma RunPrinted(minutes: nat)
    ensures forall c :: c in Printed(minutes) ==> FieldChar(c)
    ensures var st, h := Run(Printed(minutes)), minutes / 60;
      if h <= 9999999 then st == Scan(h, minutes % 60, 0, 1, 2) else st.Refused?
  {
    hide StepChar, Run;
    var d := Digits(minutes / 60);
    var tens, ones := '0' + (minutes % 60 / 10) as char, '0' + (minutes % 10) as char;
    RunDigits(minutes / 60);
    RunOneMore(d, ':', "");
    RunOneMore(d + [':'], tens, "");
    RunOneMore(d + [':'] + [tens], ones, "");
    assert Printed(minutes) == d + [':'] + [tens] + [ones];
    if minutes / 60 <= 9999999 {
      StepMeans(Run(d), ':');
      StepMeans(Run(d + [':']), tens);
      StepMeans(Run(d + [':'] + [tens]), ones);
    } else {
      RefusedStays(Run(d), ':');
      RefusedStays(Run(d + [':']), tens);
      RefusedStays(Run(d + [':'] + [tens]), ones);
    }
  }

  lemma RefusedStays(st: Scan, c: char)
    requires st.Refused? && FieldChar(c)
    ensures StepChar(st, c).Refused?
  {
  }

  lemma NothingToSkip(text: string)
    requires text != "" && FieldChar(text[0])
    ensures Skipped(text) == text && Skipped("") == ""
  {
  }

  lemma ParsedPrinted(minutes: nat)
    ensures Parsed(Printed(minutes), false) == if minutes / 60 > INT_MAX / 3600 then -1 else Wrapped(minutes * 60)
  {
    hide Run, StepChar, Lead, Skipped;
    var text := Printed(minutes);
    RunPrinted(minutes);
    LeadOfAll(text);
    hide Printed;
    assert text[0] in text;
    NothingToSkip(text);
    assert text[|text|..] == "";
    assert minutes == 60 * (minutes / 60) + minutes % 60;
  }

  // Division as in C, towards zero.
  lemma TruncatesToZero(x: int, y: int)
    requires y > 0
    ensures var q := TruncatedQuotient(x, y);
      if x >= 0 then q * y <= x < (q + 1) * y else (q - 1) * y < x <= q * y
  {
    assert -x == y * (-x / y) + -x % y;
  }

  // Printed as h:mm and read back, exactly the minutes up to 35,791,393 come
  // back; above, seconds + 59 no longer fits an int or the hours are refused.
  lemma RoundTrip(minutes: nat)
    ensures ReadBack(Printed(minutes)) == minutes <==> minutes <= 35791393
  {
    ParsedPrinted(minutes);
    hide Parsed, Printed;
    if minutes <= 35791393 {
      assert (minutes * 60 + 59) / 60 == minutes;
    }
  }

  // ---------- what the parser accepts, and what it makes of it ----------

  // The fields between the colons.
  function Fields(lead: string): (fields: seq<string>)
    ensures |fields| > 0
    ensures (forall c :: c in lead ==> FieldChar(c)) ==> forall f, c :: f in fields && c in f ==> IsDigit(c)
  {
    if lead == "" then [""]
    else
      var last := |lead| - 1;
      var before := Fields(lead[..last]);
      assert forall c :: c in lead[..last] ==> c in lead;
      assert lead[last] in lead;
      if lead[last] == ':' then before + [""]
      else before[..|before| - 1] + [before[|before| - 1] + [lead[last]]]
  }

  // A decimal number.
  function Number(digits: string): nat {
    if digits == "" then 0
    else
      var last := digits[|digits| - 1];
      10 * Number(digits[..|digits| - 1]) + if IsDigit(last) then Digit(last) else 0
  }

  // At most three fields, the first of at most seven digits, the others of two.
  predicate WellFormed(fields: seq<string>) {
    |fields| <= 3 && (forall i :: 0 <= i < |fields| ==> |fields[i]| <= if i == 0 then 7 else 2)
  }

  function FieldAt(fields: seq<string>, i: nat): nat {
    if i < |fields| then Number(fields[i]) else 0
  }

  lemma LastField(fields: seq<string>, c: char)
    requires |fields| > 0 && IsDigit(c)
    ensures var k := |fields| - 1;
      var more := fields[..k] + [fields[k] + [c]];
      && |more| == |fields| && FieldAt(more, k) == 10 * FieldAt(fields, k) + Digit(c)
      && (forall i: nat :: i != k ==> FieldAt(more, i) == FieldAt(fields, i))
      && more[k] == fields[k] + [c]
      && (WellFormed(more) <==> WellFormed(fields) && |fields[k]| + 1 <= if k == 0 then 7 else 2)
  {
    var k := |fields| - 1;
    var f := fields[k] + [c];
    assert f[..|f| - 1] == fields[k];
    var more := fields[..k] + [f];
    if WellFormed(more) {
      assert |more[k]| <= if k == 0 then 7 else 2;
      forall i | 0 <= i < |fields|
        ensures |fields[i]| <= if i == 0 then 7 else 2
      {
        assert i < k ==> more[i] == fields[i];
      }
    }
  }

  lemma NewField(fields: seq<string>)
    requires |fields| > 0
    ensures forall i: nat :: FieldAt(fields + [""], i) == FieldAt(fields, i)
    ensures WellFormed(fields + [""]) <==> WellFormed(fields) && |fields| + 1 <= 3
  {
    var more := fields + [""];
    if WellFormed(more) {
      forall i | 0 <= i < |fields|
        ensures |fields[i]| <= if i == 0 then 7 else 2
      {
        assert more[i] == fields[i];
      }
    }
  }

  // The loop has read these fields.
  predicate Reads(st: Scan, fields: seq<string>) {
    |fields| > 0 &&
    if WellFormed(fields) then
      st == Scan(FieldAt(fields, 0), FieldAt(fields, 1), FieldAt(fields, 2), |fields| - 1, |fields[|fields| - 1]|)
    else st.Refused?
  }

  lemma ReadsColon(st: Scan, fields: seq<string>)
    requires Reads(st, fields)
    ensures Reads(StepChar(st, ':'), fields + [""])
  {
    hide WellFormed, FieldAt;
    NewField(fields);
  }

  lemma ReadsDigit(st: Scan, fields: seq<string>, c: char)
    requires Reads(st, fields) && IsDigit(c) && c != ':'
    ensures Reads(StepChar(st, c), fields[..|fields| - 1] + [fields[|fields| - 1] + [c]])
  {
    hide WellFormed, FieldAt;
    LastField(fields, c);
    if WellFormed(fields) {
      FieldsAreFew(fields);
    }
  }

  lemma FieldsAreFew(fields: seq<string>)
    requires WellFormed(fields)
    ensures |fields| <= 3
  {
  }

  // The digit loop reads the fields as decimal numbers, and refuses exactly the
  // texts with too many or too long ones.
  lemma {:induction false} RunReadsFields(lead: string)
    requires forall c :: c in lead ==> FieldChar(c)
    ensures Reads(Run(lead), Fields(lead))
  {
    hide StepChar, Reads;
    if lead != "" {
      var last := |lead| - 1;
      var init, c := lead[..last], lead[last];
      assert c in lead && forall d :: d in init ==> d in lead;
      RunReadsFields(init);
      if c == ':' {
        ReadsColon(Run(init), Fields(init));
      } else {
        ReadsDigit(Run(init), Fields(init), c);
      }
    } else {
      ReadsNothing();
    }
  }

  lemma ReadsNothing()
    ensures Reads(START, [""])
  {
  }

  // The seconds the fields stand for: minutes alone, or hours, minutes and
  // seconds within their ranges.
  function Total(fields: seq<string>): int {
    var a, b, c := FieldAt(fields, 0), FieldAt(fields, 1), FieldAt(fields, 2);
    if |fields| == 1 then 60 * a else if b <= 59 && c <= 59 then 3600 * a + 60 * b + c else -1
  }

  // In the current style, a text is fields with white space around them, and
  // means their total; it is refused if it is anything else, or if the total does
  // not fit an int, but for the last of the hours that pass the test, where the
  // total wraps.
  lemma ParsedIsTotal(source: string)
    ensures var text := Skipped(source);
      var fields := Fields(Lead(text));
      var fine := WellFormed(fields) && Skipped(text[|Lead(text)|..]) == "" && Total(fields) >= 0;
      && (fine && Total(fields) <= INT_MAX ==> Parsed(source, false) == Total(fields))
      && (!fine ==> Parsed(source, false) == -1)
      && (fine && Total(fields) > INT_MAX ==> Parsed(source, false) < 0)
  {
    hide Run, Lead, Skipped, Fields;
    var text := Skipped(source);
    var lead := Lead(text);
    var fields := Fields(lead);
    RunReadsFields(lead);
    if WellFormed(fields) {
      SmallRun(lead);
      SmallBounds(Run(lead));
    }
  }

  lemma {:induction false} SmallRun(lead: string)
    requires forall c :: c in lead ==> FieldChar(c)
    ensures Small(Run(lead))
  {
    if lead != "" {
      var last := |lead| - 1;
      assert lead[last] in lead && forall d :: d in lead[..last] ==> d in lead;
      SmallRun(lead[..last]);
      SmallStep(Run(lead[..last]), lead[last]);
    } else {
      RunStart();
    }
  }

  // A fraction of an hour: nothing, a zero, or two digits and any zeros.
  predicate Fraction(frac: string) {
    || frac == "" || frac == "0"
    || (|frac| >= 2 && IsDigit(frac[0]) && IsDigit(frac[1]) && forall c :: c in frac[2..] ==> c == '0')
  }

  // In hundredths.
  function Hundredths(frac: string): (d: nat)
    requires Fraction(frac)
    ensures d < 100
  {
    if |frac| >= 2 then 10 * Digit(frac[0]) + Digit(frac[1]) else 0
  }

  // In the historical style hours may have a decimal point and exactly such a
  // fraction behind it, and white space at the end; it is read to the full
  // minute.  In the current style a point is an error.
  lemma DecimalExactly(hours: string, frac: string, blanks: string)
    requires |hours| <= 7 && (forall c :: c in hours ==> IsDigit(c))
    requires (forall c :: c in frac ==> !IsSpace(c)) && forall c :: c in blanks ==> IsSpace(c)
    ensures var text := hours + "." + frac + blanks;
      && Parsed(text, true) == (if Fraction(frac) && Number(hours) <= INT_MAX / 3600
                                then Wrapped((Number(hours) * 60 + Hundredths(frac) * 60 / 100) * 60) else -1)
      && Parsed(text, false) == -1
  {
    hide Run, Lead, NoZeros, Number, Fields, Parsed, Decimal, Skipped, Fraction, Digit;
    var text, rest := hours + "." + frac + blanks, "." + frac + blanks;
    assert text == hours + rest && text[|hours|..] == rest && rest[1..] == frac + blanks;
    OnlyDigits(hours);
    LeadBefore(hours, rest);
    RunReadsFields(hours);
    NotSpace(text, hours, rest);
    ReadsOne(Run(hours), hours);
    DecimalTail(frac, blanks);
    ParsedAtPoint(text, hours, rest, Number(hours));
  }

  // Such hours are read to less than a minute short, if they are not too many.
  lemma DecimalHours(hours: string, frac: string, blanks: string)
    requires |hours| <= 7 && (forall c :: c in hours ==> IsDigit(c)) && Number(hours) < INT_MAX / 3600
    requires Fraction(frac) && (forall c :: c in frac ==> !IsSpace(c)) && forall c :: c in blanks ==> IsSpace(c)
    ensures var exact := 3600 * Number(hours) + 36 * Hundredths(frac);
      var seconds := Parsed(hours + "." + frac + blanks, true);
      exact - 60 < seconds <= exact && seconds % 60 == 0
  {
    hide Run, Lead, Parsed, Digit, Number, Fraction, Hundredths;
    DecimalExactly(hours, frac, blanks);
    ToTheMinute(Number(hours), Hundredths(frac));
  }

  lemma FullMinutes(d: nat)
    requires d < 100
    ensures d * 60 / 100 < 60 && 36 * d - 60 < 60 * (d * 60 / 100) <= 36 * d
  {
  }

  lemma ToTheMinute(h: nat, d: nat)
    requires d < 100
    ensures var seconds := (h * 60 + d * 60 / 100) * 60;
      3600 * h + 36 * d - 60 < seconds <= 3600 * h + 36 * d && seconds % 60 == 0
  {
    FullMinutes(d);
    var m := d * 60 / 100;
    Sixties(h * 60 + m);
  }

  lemma Sixties(m: nat)
    ensures m * 60 % 60 == 0
  {
  }

  lemma ReadsOne(st: Scan, hours: string)
    requires Reads(st, [hours]) && |hours| <= 7
    ensures st == Scan(Number(hours), 0, 0, 0, |hours|)
  {
    hide Number;
    var fields := [hours];
    assert WellFormed(fields) && fields[0] == hours;
    assert FieldAt(fields, 0) == Number(hours) && FieldAt(fields, 1) == FieldAt(fields, 2) == 0;
  }

  lemma ParsedAtPoint(text: string, lead: string, rest: string, h: nat)
    requires Skipped(text) == text && Lead(text) == lead && text[|lead|..] == rest
    requires (forall c :: c in lead ==> FieldChar(c)) && Run(lead) == Scan(h, 0, 0, 0, |lead|)
    requires rest != "" && rest[0] == '.' && Skipped(rest) == rest
    ensures var r := Decimal(rest[1..]);
      Parsed(text, true) == if Skipped(r.1) != "" || h > INT_MAX / 3600 then -1 else Wrapped((h * 60 + r.0) * 60)
    ensures Parsed(text, false) == -1
  {
    hide Run, Lead, Decimal, Skipped;
  }

  lemma NotSpace(text: string, hours: string, rest: string)
    requires text == hours + rest && (forall c :: c in hours ==> IsDigit(c)) && rest != "" && rest[0] == '.'
    ensures Skipped(text) == text && Skipped(rest) == rest && Skipped("") == ""
  {
    if hours != "" {
      assert text[0] == hours[0] && hours[0] in hours;
    }
  }

  // What is left after the zeros is white space exactly if there was nothing else
  // before it.
  lemma {:induction false} OnlyZeros(x: string, blanks: string)
    requires (forall c :: c in x ==> !IsSpace(c)) && forall c :: c in blanks ==> IsSpace(c)
    ensures Skipped(NoZeros(x + blanks)) == "" <==> forall c :: c in x ==> c == '0'
  {
    if x == "" {
      assert x + blanks == blanks;
      BlanksSkipped(blanks);
      assert blanks != "" ==> blanks[0] in blanks;
      assert NoZeros(blanks) == blanks;
    } else {
      var rest := x[1..];
      assert x == [x[0]] + rest && (x + blanks)[1..] == rest + blanks;
      assert x[0] in x && forall c :: c in rest ==> c in x;
      OnlyZeros(rest, blanks);
    }
  }

  lemma DecimalTail(frac: string, blanks: string)
    requires (forall c :: c in frac ==> !IsSpace(c)) && forall c :: c in blanks ==> IsSpace(c)
    ensures var r := Decimal(frac + blanks);
      && (Skipped(r.1) == "" <==> Fraction(frac))
      && (Fraction(frac) ==> r.0 == Hundredths(frac) * 60 / 100)
  {
    hide Skipped, NoZeros;
    var rest := frac + blanks;
    if |frac| >= 2 && IsDigit(frac[0]) && IsDigit(frac[1]) {
      assert rest[2..] == frac[2..] + blanks;
      assert forall c :: c in frac[2..] ==> c in frac;
      OnlyZeros(frac[2..], blanks);
    } else {
      NotTwoDigits(frac, blanks);
      OnlyZeros(frac, blanks);
    }
  }

  lemma NotTwoDigits(frac: string, blanks: string)
    requires forall c :: c in blanks ==> IsSpace(c)
    requires !(|frac| >= 2 && IsDigit(frac[0]) && IsDigit(frac[1]))
    ensures var rest := frac + blanks; !(|rest| >= 2 && IsDigit(rest[0]) && IsDigit(rest[1]))
    ensures Fraction(frac) <==> forall c :: c in frac ==> c == '0'
  {
    assert blanks != "" ==> blanks[0] in blanks;
    assert |blanks| > 1 ==> blanks[1] in blanks;
    assert frac != "" ==> frac[0] in frac;
    assert |frac| > 1 ==> frac[1] in frac;
  }

  lemma {:induction false} OnlyDigits(hours: string)
    requires forall c :: c in hours ==> IsDigit(c)
    ensures Fields(hours) == [hours]
  {
    if hours == "" {
    } else {
      var last := |hours| - 1;
      assert hours[last] in hours && forall c :: c in hours[..last] ==> c in hours;
      OnlyDigits(hours[..last]);
      assert hours == hours[..last] + [hours[last]];
    }
  }

  lemma {:induction false} LeadBefore(hours: string, rest: string)
    requires (forall c :: c in hours ==> FieldChar(c)) && rest != "" && !FieldChar(rest[0])
    ensures Lead(hours + rest) == hours
  {
    if hours != "" {
      assert hours[0] in hours && forall c :: c in hours[1..] ==> c in hours;
      LeadBefore(hours[1..], rest);
      assert (hours + rest)[1..] == hours[1..] + rest;
    } else {
      assert hours + rest == rest;
    }
  }
}
