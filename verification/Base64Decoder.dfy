/**
 The base64 decoder (base64.cpp): what is not in the alphabet is skipped, the
 first pad character ends the data, and the output may overwrite the input.
 */
module Base64Decoder {
  import opened Base64

  datatype Decoding = Octets(x: seq<byte>) | Malformed

  // ---------- what a text means ----------

  // The text up to its first pad character.
  function Data(s: seq<byte>): (d: seq<byte>)
    ensures |d| <= |s| && d == s[..|d|] && PAD !in d
    ensures |d| < |s| ==> s[|d|] == PAD
  {
    if s == [] || s[0] == PAD then [] else [s[0]] + Data(s[1..])
  }

  // The values of its letters.
  function Values(s: seq<byte>): (v: seq<sextet>)
    ensures |v| <= |s|
  {
    if s == [] then []
    else
      var rest, c := Values(s[..|s| - 1]), s[|s| - 1];
      if Place(c) > 0 then rest + [Place(c) - 1] else rest
  }

  // Four sextets are three octets.
  function Triple(v: seq<sextet>): (x: seq<byte>)
    requires |v| == 4
    ensures |x| == 3
  {
    var a: int, b: int, c: int, d: int := v[0], v[1], v[2], v[3];
    [a * 4 + b / 16, b % 16 * 16 + c / 4, c % 4 * 64 + d]
  }

  // What is left after the last full group of four, if a pad character follows.
  function Tail(v: seq<sextet>): (x: seq<byte>)
    requires |v| == 2 || |v| == 3
    ensures |x| == |v| - 1
  {
    Triple(v + if |v| == 2 then [0, 0] else [0])[..|v| - 1]
  }

  function FromValues(v: seq<sextet>, padded: bool): Decoding {
    if |v| >= 4 then
      match FromValues(v[4..], padded)
      case Octets(x) => Octets(Triple(v[..4]) + x)
      case Malformed => Malformed
    else if v == [] then Octets([])
    else if |v| == 1 || !padded then Malformed
    else Octets(Tail(v))
  }

  // What the whole text decodes to: one sextet over, or any number without a pad
  // character after them, is an error.
  function Decoded(s: seq<byte>): Decoding {
    FromValues(Values(Data(s)), PAD in s)
  }

  // With room for so many octets only.
  function DecodedWithin(s: seq<byte>, room: nat): Decoding {
    match Decoded(s)
    case Octets(x) => if |x| <= room then Octets(x) else Malformed
    case Malformed => Malformed
  }

  // ---------- junk ----------

  // Only letters and pad characters.
  function Clean(s: seq<byte>): seq<byte> {
    if s == [] then [] else (if Place(s[0]) > 0 || s[0] == PAD then [s[0]] else []) + Clean(s[1..])
  }

  lemma {:induction false} ValuesConcat(s: seq<byte>, t: seq<byte>)
    ensures Values(s + t) == Values(s) + Values(t)
  {
    if t == [] {
      assert s + t == s;
    } else {
      var init := t[..|t| - 1];
      ValuesConcat(s, init);
      assert (s + t)[..|s + t| - 1] == s + init;
    }
  }

  lemma {:induction false} CleanMeansTheSame(s: seq<byte>)
    ensures Values(Data(Clean(s))) == Values(Data(s)) && (PAD in Clean(s) <==> PAD in s)
  {
    if s != [] {
      CleanMeansTheSame(s[1..]);
      var rest := Clean(s[1..]);
      if Place(s[0]) > 0 || s[0] == PAD {
        assert Clean(s)[0] == s[0] && Clean(s)[1..] == rest;
      } else {
        assert Clean(s) == rest;
      }
      if s[0] != PAD {
        ValuesConcat([s[0]], Data(s[1..]));
        ValuesConcat([s[0]], Data(rest));
        assert [s[0]][..0] == [];
      }
    }
  }

  // Characters outside the alphabet never change the result.
  lemma JunkIsSkipped(s: seq<byte>)
    ensures Decoded(Clean(s)) == Decoded(s)
  {
    CleanMeansTheSame(s);
  }

  // ---------- round trips ----------

  // The sextets of the encoder.
  function Sextets(x: seq<byte>): seq<sextet> {
    if x == [] then []
    else if |x| == 1 then [x[0] / 4, x[0] % 4 * 16]
    else if |x| == 2 then [x[0] / 4, x[0] % 4 * 16 + x[1] / 16, x[1] % 16 * 4]
    else [x[0] / 4, x[0] % 4 * 16 + x[1] / 16, x[1] % 16 * 4 + x[2] / 64, x[2] % 64] + Sextets(x[3..])
  }

  function AsLetters(v: seq<sextet>): (s: seq<byte>)
    ensures |s| == |v|
  {
    seq(|v|, i requires 0 <= i < |v| => Letter(v[i]))
  }

  lemma {:induction false} LettersHaveValues(v: seq<sextet>)
    ensures Values(AsLetters(v)) == v && PAD !in AsLetters(v)
  {
    if v == [] {
    } else {
      var init := v[..|v| - 1];
      LettersHaveValues(init);
      assert AsLetters(v)[..|v| - 1] == AsLetters(init);
      LetterPlace(v[|v| - 1], 0);
    }
  }

  // Letters and then pad characters.
  lemma {:induction false} DataOfPadded(s: seq<byte>, pads: seq<byte>)
    requires PAD !in s && (pads == [] || pads[0] == PAD)
    ensures Data(s + pads) == s && (PAD in s + pads <==> pads != [])
  {
    if s != [] {
      assert s[0] in s && forall c :: c in s[1..] ==> c in s;
      DataOfPadded(s[1..], pads);
      assert (s + pads)[1..] == s[1..] + pads;
    } else {
      assert s + pads == pads;
    }
  }

  lemma Letters1(a: byte)
    ensures AsLetters([a / 4, a % 4 * 16]) == Quad(a, 0, 0)[..2]
  {
    hide Letter;
  }

  lemma Letters2(a: byte, b: byte)
    ensures AsLetters([a / 4, a % 4 * 16 + b / 16, b % 16 * 4]) == Quad(a, b, 0)[..3]
  {
    hide Letter;
  }

  // The encoding is the letters of the sextets and the padding.
  predicate LettersAndPads(x: seq<byte>) {
    Encoded(x) == AsLetters(Sextets(x)) + Padding(|x|)
  }

  lemma LettersAndPads0()
    ensures LettersAndPads([])
  {
    hide Encoded, Sextets;
    EncodedShort(0, 0);
    SextetsShort(0, 0);
  }

  lemma LettersAndPads1(a: byte)
    ensures LettersAndPads([a])
  {
    hide Letter, Encoded, Padding, Sextets, Quad, AsLetters;
    PaddingShort();
    EncodedShort(a, 0);
    SextetsShort(a, 0);
    Letters1(a);
  }

  lemma LettersAndPads2(a: byte, b: byte)
    ensures LettersAndPads([a, b])
  {
    hide Letter, Encoded, Padding, Sextets, Quad, AsLetters;
    PaddingShort();
    EncodedShort(a, b);
    SextetsShort(a, b);
    Letters2(a, b);
  }

  lemma EncodedThree(a: byte, b: byte, c: byte, rest: seq<byte>)
    ensures Encoded([a, b, c] + rest) == Quad(a, b, c) + Encoded(rest)
  {
    hide Quad;
    assert ([a, b, c] + rest)[3..] == rest;
  }

  lemma SextetsThree(a: byte, b: byte, c: byte, rest: seq<byte>)
    ensures Sextets([a, b, c] + rest) == [a / 4, a % 4 * 16 + b / 16, b % 16 * 4 + c / 64, c % 64] + Sextets(rest)
  {
    assert ([a, b, c] + rest)[3..] == rest;
  }

  lemma AsLettersConcat(v: seq<sextet>, w: seq<sextet>)
    ensures AsLetters(v + w) == AsLetters(v) + AsLetters(w)
  {
    hide Letter;
  }

  lemma QuadIsLetters(a: byte, b: byte, c: byte)
    ensures AsLetters([a / 4, a % 4 * 16 + b / 16, b % 16 * 4 + c / 64, c % 64]) == Quad(a, b, c)
  {
    hide Letter;
  }

  lemma Joined(q: seq<byte>, letters: seq<byte>, pads: seq<byte>)
    ensures q + (letters + pads) == q + letters + pads
  {
  }

  lemma SamePadding(n: nat)
    ensures Padding(n + 3) == Padding(n)
  {
  }

  lemma LettersAndPadsMore(a: byte, b: byte, c: byte, rest: seq<byte>)
    requires LettersAndPads(rest)
    ensures LettersAndPads([a, b, c] + rest)
  {
    hide Letter, Encoded, Sextets, AsLetters, Quad, Padding;
    var v := [a / 4, a % 4 * 16 + b / 16, b % 16 * 4 + c / 64, c % 64];
    EncodedThree(a, b, c, rest);
    SextetsThree(a, b, c, rest);
    QuadIsLetters(a, b, c);
    AsLettersConcat(v, Sextets(rest));
    SamePadding(|rest|);
    Joined(Quad(a, b, c), AsLetters(Sextets(rest)), Padding(|rest|));
    assert |[a, b, c] + rest| == |rest| + 3;
  }

  lemma {:induction false} AllLettersAndPads(x: seq<byte>)
    ensures LettersAndPads(x)
  {
    hide LettersAndPads;
    if |x| >= 3 {
      AllLettersAndPads(x[3..]);
      LettersAndPadsMore(x[0], x[1], x[2], x[3..]);
      assert x == [x[0], x[1], x[2]] + x[3..];
    } else if |x| == 2 {
      LettersAndPads2(x[0], x[1]);
      assert x == [x[0], x[1]];
    } else if |x| == 1 {
      LettersAndPads1(x[0]);
      assert x == [x[0]];
    } else {
      LettersAndPads0();
    }
  }

  lemma SextetsShort(a: byte, b: byte)
    ensures Sextets([]) == [] && Sextets([a]) == [a / 4, a % 4 * 16]
    ensures Sextets([a, b]) == [a / 4, a % 4 * 16 + b / 16, b % 16 * 4]
  {
  }

  lemma TripleBack(a: byte, b: byte, c: byte)
    ensures Triple([a / 4, a % 4 * 16 + b / 16, b % 16 * 4 + c / 64, c % 64]) == [a, b, c]
  {
  }

  lemma TailBack(a: byte, b: byte)
    ensures Tail([a / 4, a % 4 * 16]) == [a]
    ensures Tail([a / 4, a % 4 * 16 + b / 16, b % 16 * 4]) == [a, b]
  {
  }

  lemma {:induction false} SextetsBack(x: seq<byte>)
    ensures FromValues(Sextets(x), |x| % 3 != 0) == Octets(x)
  {
    hide Triple, Tail, Sextets, FromValues;
    if |x| >= 3 {
      var rest := x[3..];
      SextetsBack(rest);
      SextetsThree(x[0], x[1], x[2], rest);
      TripleBack(x[0], x[1], x[2]);
      var q := [x[0] / 4, x[0] % 4 * 16 + x[1] / 16, x[1] % 16 * 4 + x[2] / 64, x[2] % 64];
      assert x == [x[0], x[1], x[2]] + rest;
      assert (q + Sextets(rest))[..4] == q && (q + Sextets(rest))[4..] == Sextets(rest);
      FromValuesStep(Sextets(x), |x| % 3 != 0);
    } else {
      var a := if x == [] then 0 else x[0];
      var b := if |x| == 2 then x[1] else 0;
      assert x == if x == [] then [] else if |x| == 1 then [a] else [a, b];
      SextetsShort(a, b);
      TailBack(a, b);
      FromValuesShort(Sextets(x), |x| % 3 != 0);
    }
  }

  // decode(encode(x)) = x
  lemma DecodeEncode(x: seq<byte>)
    ensures Decoded(Encoded(x)) == Octets(x)
  {
    AllLettersAndPads(x);
    LettersHaveValues(Sextets(x));
    DataOfPadded(AsLetters(Sextets(x)), Padding(|x|));
    SextetsBack(x);
  }

  // A text in the one form the encoder uses: groups of four, letters before at
  // most two pad characters, and no bits in the last letter that are not used.
  predicate Canonical(s: seq<byte>) {
    var d := Data(s);
    var v := Values(d);
    && |s| % 4 == 0 && |v| == |d| && |d| >= |s| - 2
    && (forall c :: c in s[|d|..] ==> c == PAD)
    && (|d| == |s| - 2 ==> v[|v| - 1] % 16 == 0)
    && (|d| == |s| - 1 ==> v[|v| - 1] % 4 == 0)
  }

  lemma {:induction false} LettersOf(d: seq<byte>)
    requires |Values(d)| == |d|
    ensures AsLetters(Values(d)) == d
  {
    if d == [] {
    } else {
      var init := d[..|d| - 1];
      assert Values(d) == Values(init) + [Place(d[|d| - 1]) - 1];
      LettersOf(init);
      LetterPlace(0, d[|d| - 1]);
      assert d == init + [d[|d| - 1]];
    }
  }

  lemma TailAgain(v: seq<sextet>)
    requires (|v| == 2 && v[1] % 16 == 0) || (|v| == 3 && v[2] % 4 == 0)
    ensures Sextets(Tail(v)) == v
  {
    hide Sextets;
    var x := Tail(v);
    var all := v + if |v| == 2 then [0, 0] else [0];
    TripleAgain(all);
    if |v| == 2 {
      SextetsShort(x[0], 0);
      assert x == [x[0]];
      assert v == [x[0] / 4, x[0] % 4 * 16];
    } else {
      SextetsShort(x[0], x[1]);
      assert x == [x[0], x[1]];
    }
  }

  lemma SextetsMore(v: seq<sextet>, rest: seq<byte>)
    requires |v| == 4
    ensures Sextets(Triple(v) + rest) == v + Sextets(rest)
  {
    TripleAgain(v);
    var x := Triple(v) + rest;
    assert x[3..] == rest;
  }

  // No group of one, and no bits in the last sextet that are not used.
  predicate NoLooseBits(v: seq<sextet>) {
    && |v| % 4 != 1
    && (|v| % 4 == 2 ==> v[|v| - 1] % 16 == 0) && (|v| % 4 == 3 ==> v[|v| - 1] % 4 == 0)
  }

  // The octets that so many sextets leave over after the groups of three.
  function OctetsOver(sextets: nat): nat {
    if sextets % 4 == 0 then 0 else (sextets % 4 + 2) % 3
  }

  lemma FourLess(v: seq<sextet>)
    requires |v| >= 4 && NoLooseBits(v)
    ensures NoLooseBits(v[4..]) && OctetsOver(|v[4..]|) == OctetsOver(|v|) && |v[4..]| % 4 == |v| % 4
    ensures v == v[..4] + v[4..]
  {
    var w := v[4..];
    assert |w| % 4 == |v| % 4 && (w != [] ==> w[|w| - 1] == v[|v| - 1]);
  }

  lemma TailLength(v: seq<sextet>)
    requires |v| == 2 || |v| == 3
    ensures |Tail(v)| % 3 == OctetsOver(|v|)
  {
  }

  lemma ThreeMore(x: seq<byte>, rest: seq<byte>)
    requires |x| == 3
    ensures |x + rest| % 3 == |rest| % 3
  {
  }

  // Decoded and taken apart again, sextets without unused bits are the same.
  lemma {:induction false} SextetsAgain(v: seq<sextet>, padded: bool)
    requires NoLooseBits(v) && (|v| % 4 != 0 ==> padded)
    ensures var o := FromValues(v, padded);
      o.Octets? && Sextets(o.x) == v && |o.x| % 3 == OctetsOver(|v|)
    decreases |v|
  {
    hide Triple, Tail, Sextets, FromValues, NoLooseBits, OctetsOver;
    if |v| >= 4 {
      var w := v[4..];
      FourLess(v);
      SextetsAgain(w, padded);
      FromValuesStep(v, padded);
      SextetsMore(v[..4], FromValues(w, padded).x);
      ThreeMore(Triple(v[..4]), FromValues(w, padded).x);
    } else if v != [] {
      LastGroup(v);
      FromValuesShort(v, padded);
      TailAgain(v);
      TailLength(v);
    } else {
      FromValuesShort(v, padded);
      SextetsShort(0, 0);
      NothingOver();
    }
  }

  lemma NothingOver()
    ensures OctetsOver(0) == 0
  {
  }

  lemma LastGroup(v: seq<sextet>)
    requires NoLooseBits(v) && 0 < |v| < 4
    ensures (|v| == 2 && v[1] % 16 == 0) || (|v| == 3 && v[2] % 4 == 0)
    ensures |v| % 4 != 0
  {
  }

  lemma FromValuesStep(v: seq<sextet>, padded: bool)
    requires |v| >= 4 && FromValues(v[4..], padded).Octets?
    ensures FromValues(v, padded) == Octets(Triple(v[..4]) + FromValues(v[4..], padded).x)
  {
  }

  lemma FromValuesShort(v: seq<sextet>, padded: bool)
    requires |v| < 4
    ensures FromValues(v, padded) ==
      if v == [] then Octets([]) else if |v| == 1 || !padded then Malformed else Octets(Tail(v))
  {
  }

  lemma TripleAgain(v: seq<sextet>)
    requires |v| == 4
    ensures var x := Triple(v);
      v == [x[0] / 4, x[0] % 4 * 16 + x[1] / 16, x[1] % 16 * 4 + x[2] / 64, x[2] % 64]
  {
  }

  // encode(decode(s)) = s exactly for the canonical texts.
  lemma EncodeDecode(s: seq<byte>)
    ensures Canonical(s) <==> Decoded(s).Octets? && Encoded(Decoded(s).x) == s
  {
    if Canonical(s) {
      CanonicalBack(s);
    }
    if Decoded(s).Octets? && Encoded(Decoded(s).x) == s {
      EncodedIsCanonical(Decoded(s).x);
    }
  }

  lemma CanonicalBack(s: seq<byte>)
    requires Canonical(s)
    ensures Decoded(s).Octets? && Encoded(Decoded(s).x) == s
  {
    hide Encoded, Values, Sextets, FromValues, Data;
    var d := Data(s);
    var v := Values(d);
    var pads := s[|d|..];
    assert s == d + pads;
    DataOfPadded(d, pads);
    SextetsAgain(v, PAD in s);
    AllLettersAndPads(Decoded(s).x);
    LettersOf(d);
    assert forall i :: 0 <= i < |pads| ==> pads[i] in pads;
    assert pads == Padding(|Decoded(s).x|);
  }

  lemma {:induction false} SextetsClean(x: seq<byte>)
    ensures var v := Sextets(x);
      && |v| % 4 == (if |x| % 3 == 0 then 0 else |x| % 3 + 1)
      && (|v| % 4 == 2 ==> v[|v| - 1] % 16 == 0) && (|v| % 4 == 3 ==> v[|v| - 1] % 4 == 0)
  {
    hide Sextets;
    if |x| >= 3 {
      SextetsClean(x[3..]);
      SextetsThree(x[0], x[1], x[2], x[3..]);
      assert x == [x[0], x[1], x[2]] + x[3..];
    } else {
      var a := if x == [] then 0 else x[0];
      var b := if |x| == 2 then x[1] else 0;
      assert x == if x == [] then [] else if |x| == 1 then [a] else [a, b];
      SextetsShort(a, b);
    }
  }

  lemma EncodedIsCanonical(x: seq<byte>)
    ensures Canonical(Encoded(x))
  {
    hide Encoded, Values, Sextets, Data;
    var s, v := Encoded(x), Sextets(x);
    AllLettersAndPads(x);
    LettersHaveValues(v);
    DataOfPadded(AsLetters(v), Padding(|x|));
    SextetsClean(x);
    assert s[|v|..] == Padding(|x|);
  }

  // ---------- the loop ----------

  // `bits` after the sextets of an unfinished group.
  function Gathered(v: seq<sextet>): nat
    requires |v| < 4
  {
    if v == [] then 0
    else if |v| == 1 then v[0] as int * 64
    else if |v| == 2 then (v[0] as int * 64 + v[1]) * 64
    else ((v[0] as int * 64 + v[1]) * 64 + v[2]) * 64
  }

  lemma ThreeBytes(x: int, y: int, z: int)
    requires 0 <= x < 0x100 && 0 <= y < 0x100 && 0 <= z < 0x100
    ensures var n := 0x1_0000 * x + 0x100 * y + z;
      n / 0x1_0000 % 0x100 == x && n / 0x100 % 0x100 == y && n % 0x100 == z
  {
    var n := 0x1_0000 * x + 0x100 * y + z;
    assert n / 0x100 == 0x100 * x + y;
    assert n / 0x1_0000 == x;
  }

  lemma Regrouped(a: int, b: int, c: int, d: int)
    requires 0 <= a < 64 && 0 <= b < 64 && 0 <= c < 64 && 0 <= d < 64
    ensures ((a * 64 + b) * 64 + c) * 64 + d
      == 0x1_0000 * (a * 4 + b / 16) + 0x100 * (b % 16 * 16 + c / 4) + (c % 4 * 64 + d)
  {
    assert b == b / 16 * 16 + b % 16 && c == c / 4 * 4 + c % 4;
  }

  lemma GroupOut(v: seq<sextet>, last: sextet)
    requires |v| == 3
    ensures var bits := Gathered(v) + last;
      Triple(v + [last]) == [bits / 0x1_0000 % 0x100, bits / 0x100 % 0x100, bits % 0x100]
  {
    var a: int, b: int, c: int, d: int := v[0], v[1], v[2], last;
    Regrouped(a, b, c, d);
    ThreeBytes(a * 4 + b / 16, b % 16 * 16 + c / 4, c % 4 * 64 + d);
    assert Gathered(v) == ((a * 64 + b) * 64 + c) * 64;
  }

  lemma GatheredOut(v: seq<sextet>)
    requires 2 <= |v| <= 3
    ensures |v| == 2 ==> Tail(v) == [Gathered(v) / 0x400 % 0x100]
    ensures |v| == 3 ==> Tail(v) == [Gathered(v) / 0x1_0000 % 0x100, Gathered(v) / 0x100 % 0x100]
  {
    hide Triple;
    if |v| == 3 {
      GroupOut(v, 0);
    } else {
      TwoOut(v);
    }
  }

  lemma TwoOut(v: seq<sextet>)
    requires |v| == 2
    ensures Tail(v) == [Gathered(v) / 0x400 % 0x100]
  {
    var a: int, b: int := v[0], v[1];
    var bits := (a * 64 + b) * 64;
    assert b == b / 16 * 16 + b % 16;
    assert bits == 0x400 * (a * 4 + b / 16) + b % 16 * 64;
    assert bits / 0x400 == a * 4 + b / 16;
    assert Gathered(v) == bits;
    assert Tail(v) == [a * 4 + b / 16];
  }

  function Full(v: seq<sextet>): (n: nat)
    ensures n <= |v| && n % 4 == 0 && |v| - n < 4
  {
    |v| - |v| % 4
  }

  // The octets of the full groups.
  function Triples(v: seq<sextet>): (x: seq<byte>)
    requires |v| % 4 == 0
    ensures |x| == 3 * (|v| / 4)
  {
    if v == [] then [] else Triples(v[..|v| - 4]) + Triple(v[|v| - 4..])
  }

  lemma {:induction false} FromFullGroups(q: seq<sextet>, t: seq<sextet>, padded: bool)
    requires |q| % 4 == 0
    ensures FromValues(q + t, padded) ==
      match FromValues(t, padded)
      case Octets(x) => Octets(Triples(q) + x)
      case Malformed => Malformed
    decreases |q|
  {
    hide Triple;
    if q == [] {
      assert q + t == t;
    } else {
      var init, last := q[..|q| - 4], q[|q| - 4..];
      FromFullGroups(init, last + t, padded);
      assert q + t == init + (last + t);
      assert (last + t)[..4] == last && (last + t)[4..] == t;
    }
  }

  lemma ValuesStep(s: seq<byte>, p: nat)
    requires p < |s|
    ensures Values(s[..p + 1]) == Values(s[..p]) + if Place(s[p]) > 0 then [Place(s[p]) - 1] else []
  {
    assert s[..p + 1][..p] == s[..p];
  }

  lemma {:induction false} DataIs(s: seq<byte>, p: nat)
    requires p <= |s| && PAD !in s[..p] && (p < |s| ==> s[p] == PAD)
    ensures Data(s) == s[..p] && (PAD in s <==> p < |s|)
  {
    DataOfPadded(s[..p], s[p..]);
    assert s == s[..p] + s[p..];
  }

  lemma FullNext(v: seq<sextet>, w: seq<sextet>)
    requires |w| == |v| + 1
    ensures |v| % 4 < 3 ==> Full(w) == Full(v)
    ensures |v| % 4 == 3 ==> Full(w) == |w| && Full(v) == |w| - 4
  {
  }

  // One more letter: it joins the unfinished group or completes it.
  lemma OneMore(v: seq<sextet>, last: sextet)
    ensures var w := v + [last];
      if |v| % 4 < 3 then
        Full(w) == Full(v) && w[..Full(w)] == v[..Full(v)] && w[Full(w)..] == v[Full(v)..] + [last]
      else
        Full(w) == |w| && w[|w| - 4..] == v[Full(v)..] + [last] && w[..|w| - 4] == v[..Full(v)]
          && Triples(w) == Triples(v[..Full(v)]) + Triple(v[Full(v)..] + [last])
  {
    hide Triple, Full;
    var w := v + [last];
    FullNext(v, w);
    if |v| % 4 == 3 {
      assert w[..|w| - 4] == v[..Full(v)] && w[|w| - 4..] == v[Full(v)..] + [last];
    }
  }

  // What the loop has done when it stops after p characters.
  lemma StopsAt(s: seq<byte>, p: nat, padded: bool)
    requires p <= |s| && PAD !in s[..p] && (if padded then p < |s| && s[p] == PAD else p == |s|)
    ensures var v := Values(s[..p]);
      var t := v[Full(v)..];
      Decoded(s) ==
        if t == [] then Octets(Triples(v[..Full(v)]))
        else if |t| == 1 || !padded then Malformed
        else Octets(Triples(v[..Full(v)]) + Tail(t))
  {
    hide Triples, Tail;
    DataIs(s, p);
    var v := Values(s[..p]);
    FromFullGroups(v[..Full(v)], v[Full(v)..], padded);
    FromValuesShort(v[Full(v)..], padded);
    assert v == v[..Full(v)] + v[Full(v)..];
  }

  lemma {:induction false} AtLeastGroups(v: seq<sextet>, padded: bool)
    requires FromValues(v, padded).Octets?
    ensures |FromValues(v, padded).x| >= 3 * (|v| / 4)
  {
    if |v| >= 4 {
      AtLeastGroups(v[4..], padded);
    }
  }

  // More letters only make the result longer.
  lemma NoRoom(s: seq<byte>, p: nat, room: nat)
    requires p <= |s| && PAD !in s[..p]
    requires 3 * (|Values(s[..p])| / 4) > room
    ensures DecodedWithin(s, room) == Malformed
  {
    hide FromValues, Values;
    var d := Data(s);
    DataAtLeast(s, p);
    assert d == d[..p] + d[p..] && d[..p] == s[..p];
    ValuesConcat(d[..p], d[p..]);
    if Decoded(s).Octets? {
      AtLeastGroups(Values(d), PAD in s);
    }
  }

  lemma {:induction false} DataAtLeast(s: seq<byte>, p: nat)
    requires p <= |s| && PAD !in s[..p]
    ensures |Data(s)| >= p
  {
    if p == 0 {
    } else {
      assert s[0] == s[..p][0] && s[0] in s[..p];
      assert s[1..][..p - 1] == s[..p][1..];
      DataAtLeast(s[1..], p - 1);
    }
  }

  // Where the loop stands after p characters: the octets of the full groups are
  // in outbuf, not past p, and the characters to come are untouched.
  ghost predicate Under(outbuf: array<byte>, inbuf: array<byte>, s: seq<byte>, p: nat, outlen: nat, bits: nat,
                        count: nat)
    requires p <= |s| <= inbuf.Length && outlen <= outbuf.Length
    reads outbuf, inbuf
  {
    var v := Values(s[..p]);
    && PAD !in s[..p]
    && inbuf[p..|s|] == s[p..]
    && count == |v| % 4 && outlen == 3 * (|v| / 4) <= p
    && outbuf[..outlen] == Triples(v[..Full(v)])
    && bits == Gathered(v[Full(v)..])
  }

  // outbuf[outlen++], several times.
  method Emit(outbuf: array<byte>, pos: nat, x: seq<byte>, ghost room: nat)
    requires pos + |x| <= room <= outbuf.Length
    modifies outbuf
    ensures outbuf[..pos + |x|] == old(outbuf[..pos]) + x
    ensures outbuf[room..] == old(outbuf[room..])
  {
    var i := 0;
    while i < |x|
      invariant 0 <= i <= |x|
      invariant outbuf[..pos + i] == old(outbuf[..pos]) + x[..i]
      invariant outbuf[room..] == old(outbuf[room..])
    {
      outbuf[pos + i] := x[i];
      i := i + 1;
    }
    assert x[..i] == x;
  }

  lemma FromThere(a: seq<byte>, b: seq<byte>, k: nat, lo: nat, hi: nat)
    requires |a| == |b| && k <= lo <= hi <= |a| && a[k..] == b[k..]
    ensures a[lo..hi] == b[lo..hi]
  {
    forall i | lo <= i < hi
      ensures a[i] == b[i]
    {
      assert a[i] == a[k..][i - k] && b[i] == b[k..][i - k];
    }
  }

  // A character that is not a letter changes nothing.
  lemma SkipOne(outbuf: array<byte>, inbuf: array<byte>, s: seq<byte>, p: nat, outlen: nat, bits: nat, count: nat)
    requires p < |s| <= inbuf.Length && outlen <= outbuf.Length && s[p] != PAD && Place(s[p]) == 0
    requires Under(outbuf, inbuf, s, p, outlen, bits, count)
    ensures Under(outbuf, inbuf, s, p + 1, outlen, bits, count)
  {
    hide Triples;
    ValuesStep(s, p);
    assert inbuf[p + 1..|s|] == inbuf[p..|s|][1..];
    assert s[..p + 1] == s[..p] + [s[p]];
  }

  lemma UnderChar(outbuf: array<byte>, inbuf: array<byte>, s: seq<byte>, p: nat, outlen: nat, bits: nat, count: nat)
    requires p < |s| <= inbuf.Length && outlen <= outbuf.Length && Under(outbuf, inbuf, s, p, outlen, bits, count)
    ensures inbuf[p] == s[p] && count < 4
  {
    assert inbuf[p..|s|][0] == s[p..][0];
  }

  lemma GatherMore(v: seq<sextet>, last: sextet)
    requires |v| % 4 < 3
    ensures var w := v + [last];
      && |w| % 4 == |v| % 4 + 1 && |w| / 4 == |v| / 4 && w[..Full(w)] == v[..Full(v)]
      && Gathered(w[Full(w)..]) == (Gathered(v[Full(v)..]) + last) * 64
  {
    OneMore(v, last);
  }

  // A letter that does not complete its group.
  lemma GatherOne(outbuf: array<byte>, inbuf: array<byte>, s: seq<byte>, p: nat, outlen: nat, bits: nat, count: nat)
    requires p < |s| <= inbuf.Length && outlen <= outbuf.Length && Place(s[p]) > 0 && count < 3
    requires Under(outbuf, inbuf, s, p, outlen, bits, count)
    ensures Under(outbuf, inbuf, s, p + 1, outlen, (bits + Place(s[p]) - 1) * 64, count + 1)
  {
    hide Triples, Full, Gathered, Values, Place;
    var v, last: sextet := Values(s[..p]), Place(s[p]) - 1;
    ValuesStep(s, p);
    GatherMore(v, last);
    assert inbuf[p + 1..|s|] == inbuf[p..|s|][1..];
    assert s[..p + 1] == s[..p] + [s[p]];
    LetterPlace(0, PAD);
  }

  // The octets of a group that letter s[p] completes.
  lemma GroupFrom(outbuf: array<byte>, inbuf: array<byte>, s: seq<byte>, p: nat, outlen: nat, bits: nat, count: nat)
    requires p < |s| <= inbuf.Length && outlen <= outbuf.Length && Place(s[p]) > 0 && count == 3
    requires Under(outbuf, inbuf, s, p, outlen, bits, count)
    ensures var v, w, b := Values(s[..p]), Values(s[..p + 1]), bits + Place(s[p]) - 1;
      && w == v + [Place(s[p]) - 1] && Full(w) == |w| && |w| / 4 == |v| / 4 + 1
      && Triples(w) == Triples(v[..Full(v)]) + [b / 0x1_0000 % 0x100, b / 0x100 % 0x100, b % 0x100]
      && outlen + 3 <= p + 1 && PAD !in s[..p + 1]
  {
    hide Triples;
    var v, last: sextet := Values(s[..p]), Place(s[p]) - 1;
    ValuesStep(s, p);
    OneMore(v, last);
    GroupOut(v[Full(v)..], last);
    assert s[..p + 1] == s[..p] + [s[p]];
    LetterPlace(0, PAD);
  }

  // What a pad character does with an unfinished group.
  method DecodeTail(outbuf: array<byte>, ghost inbuf: array<byte>, ghost s: seq<byte>, ghost p: nat, outlen: nat,
                    bits: nat, charCount: nat, outbuflen: nat) returns (end: nat, errors: nat)
    requires p < |s| <= inbuf.Length && outlen <= outbuflen <= outbuf.Length && s[p] == PAD
    requires Under(outbuf, inbuf, s, p, outlen, bits, charCount)
    modifies outbuf
    ensures outlen <= end <= outbuflen && outbuf[outbuflen..] == old(outbuf[outbuflen..])
    ensures DecodedWithin(s, outbuflen) == if errors == 0 then Octets(outbuf[..end]) else Malformed
  {
    hide DecodedWithin;
    AtPad(outbuf, inbuf, s, p, outlen, bits, charCount, outbuflen);
    UnderChar(outbuf, inbuf, s, p, outlen, bits, charCount);
    hide Under;
    end, errors := outlen, 0;
    if charCount == 1 {
      errors := 1;
    } else if charCount == 2 {
      if outbuflen - outlen < 1 {
        errors := 1;
      } else {
        Emit(outbuf, outlen, [bits / 0x400 % 0x100], outbuflen);
        end := outlen + 1;
      }
    } else if charCount == 3 {
      if outbuflen - outlen < 2 {
        errors := 1;
      } else {
        Emit(outbuf, outlen, [bits / 0x1_0000 % 0x100, bits / 0x100 % 0x100], outbuflen);
        end := outlen + 2;
      }
    }
  }

  // base64_decode; outbuf may be inbuf.  The text is 7-bit.
  method Decode(outbuf: array<byte>, inbuf: array<byte>, outbuflen: nat, inbuflen: nat) returns (rc: int)
    requires outbuflen <= outbuf.Length && inbuflen <= inbuf.Length
    requires forall i :: 0 <= i < inbuflen ==> inbuf[i] < 128
    modifies outbuf
    ensures match DecodedWithin(old(inbuf[..inbuflen]), outbuflen)
      case Octets(x) => rc == |x| && outbuf[..rc] == x && (rc < outbuflen ==> outbuf[rc] == 0)
      case Malformed => rc == -1
    ensures outbuf[outbuflen..] == old(outbuf[outbuflen..])
  {
    hide Under, DecodedWithin, Values, Triples, Place;
    var decoder := BuildDecoder();
    ghost var s, beyond := inbuf[..inbuflen], outbuf[outbuflen..];
    var readPos, bits, charCount, outlen, errors := 0, 0, 0, 0, 0;
    UnderStart(outbuf, inbuf, s);
    ghost var ended := false;
    while errors == 0
      invariant 0 <= readPos <= inbuflen && outlen <= outbuflen && !ended
      invariant decoder.Length == 256 && forall c: byte :: decoder[c] == Place(c)
      invariant outbuf[outbuflen..] == beyond
      invariant if errors == 0 then Under(outbuf, inbuf, s, readPos, outlen, bits, charCount)
        else DecodedWithin(s, outbuflen) == Malformed
      decreases errors == 0, inbuflen - readPos
    {
      if readPos == inbuflen {
        AtEnd(outbuf, inbuf, s, outlen, bits, charCount, outbuflen);
        if charCount != 0 {
          errors := 1;
        }
        ended := true;
        break;
      }
      UnderChar(outbuf, inbuf, s, readPos, outlen, bits, charCount);
      ghost var p := readPos;
      var c := inbuf[readPos];
      readPos := readPos + 1;
      if c == PAD {
        outlen, errors := DecodeTail(outbuf, inbuf, s, p, outlen, bits, charCount, outbuflen);
        ended := true;
        break;
      } else if c < 256 {
        if decoder[c] != 0 {
          ghost var was := bits;
          bits := bits + (decoder[c] - 1);
          charCount := charCount + 1;
          if charCount < 4 {
            GatherOne(outbuf, inbuf, s, p, outlen, was, charCount - 1);
            bits := bits * 64;
          } else {
            GroupFrom(outbuf, inbuf, s, p, outlen, was, 3);
            if outbuflen - outlen < 3 {
              GroupNoRoom(outbuf, inbuf, s, p, outlen, was, outbuflen);
              errors := 1;
            } else {
              EmitGroup(outbuf, inbuf, s, p, outlen, was, bits);
              outlen := outlen + 3;
              bits := 0;
              charCount := 0;
            }
          }
        } else {
          SkipOne(outbuf, inbuf, s, p, outlen, bits, charCount);
        }
      }
    }
    if outlen < outbuflen {
      outbuf[outlen] := 0;
    }
    rc := if errors != 0 then -1 else outlen;
  }

  lemma UnderStart(outbuf: array<byte>, inbuf: array<byte>, s: seq<byte>)
    requires |s| <= inbuf.Length && inbuf[..|s|] == s
    ensures Under(outbuf, inbuf, s, 0, 0, 0, 0)
  {
  }

  // At the end of the text an unfinished group is an error.
  lemma AtEnd(outbuf: array<byte>, inbuf: array<byte>, s: seq<byte>, outlen: nat, bits: nat, count: nat, room: nat)
    requires |s| <= inbuf.Length && outlen <= outbuf.Length && outlen <= room
    requires Under(outbuf, inbuf, s, |s|, outlen, bits, count)
    ensures DecodedWithin(s, room) == if count == 0 then Octets(outbuf[..outlen]) else Malformed
  {
    hide Triples, Values;
    StopsAt(s, |s|, false);
  }

  // At a pad character what there is of the group is added.
  lemma AtPad(outbuf: array<byte>, inbuf: array<byte>, s: seq<byte>, p: nat, outlen: nat, bits: nat, count: nat,
              room: nat)
    requires p < |s| <= inbuf.Length && outlen <= outbuf.Length && outlen <= room && s[p] == PAD
    requires Under(outbuf, inbuf, s, p, outlen, bits, count)
    ensures count == 0 ==> DecodedWithin(s, room) == Octets(outbuf[..outlen])
    ensures count == 1 ==> DecodedWithin(s, room) == Malformed
    ensures count == 2 ==>
      DecodedWithin(s, room) == if room - outlen < 1 then Malformed
          else Octets(outbuf[..outlen] + [bits / 0x400 % 0x100])
    ensures count == 3 ==>
      DecodedWithin(s, room) ==
      if room - outlen < 2 then Malformed
          else Octets(outbuf[..outlen] + [bits / 0x1_0000 % 0x100, bits / 0x100 % 0x100])
  {
    hide Triples, Values, Tail, Gathered;
    StopsAt(s, p, true);
    var v := Values(s[..p]);
    if count >= 2 {
      GatheredOut(v[Full(v)..]);
    }
  }

  lemma GroupNoRoom(outbuf: array<byte>, inbuf: array<byte>, s: seq<byte>, p: nat, outlen: nat, bits: nat, room: nat)
    requires p < |s| <= inbuf.Length && outlen <= outbuf.Length && Place(s[p]) > 0 && outlen + 3 > room
    requires Under(outbuf, inbuf, s, p, outlen, bits, 3)
    ensures DecodedWithin(s, room) == Malformed
  {
    hide Triples, Values, DecodedWithin;
    GroupFrom(outbuf, inbuf, s, p, outlen, bits, 3);
    NoRoom(s, p + 1, room);
  }

  // The loop stands at the end of a group.
  lemma UnderGroup(outbuf: array<byte>, inbuf: array<byte>, s: seq<byte>, p: nat, outlen: nat, w: seq<sextet>)
    requires p <= |s| <= inbuf.Length && outlen <= outbuf.Length && w == Values(s[..p]) && Full(w) == |w|
    requires PAD !in s[..p] && inbuf[p..|s|] == s[p..] && outlen == 3 * (|w| / 4) <= p && outbuf[..outlen] == Triples(w)
    ensures Under(outbuf, inbuf, s, p, outlen, 0, 0)
  {
    hide Triples, Values;
    assert w[..Full(w)] == w && w[Full(w)..] == [];
  }

  // What is left of the text after one more character.
  lemma LeftAfter(s: seq<byte>, text: seq<byte>, p: nat)
    requires p < |s| <= |text| && text[p..|s|] == s[p..]
    ensures text[p + 1..|s|] == s[p + 1..]
  {
    assert text[p + 1..|s|] == text[p..|s|][1..] == s[p + 1..];
  }

  lemma UnderLengths(outbuf: array<byte>, inbuf: array<byte>, s: seq<byte>, p: nat, outlen: nat, bits: nat, count: nat)
    requires p <= |s| <= inbuf.Length && outlen <= outbuf.Length && Under(outbuf, inbuf, s, p, outlen, bits, count)
    ensures var v := Values(s[..p]);
      outlen == 3 * (|v| / 4) && outbuf[..outlen] == Triples(v[..Full(v)]) && inbuf[p..|s|] == s[p..]
  {
  }

  method EmitGroup(outbuf: array<byte>, inbuf: array<byte>, ghost s: seq<byte>, ghost p: nat, outlen: nat,
                   ghost was: nat, bits: nat)
    requires p < |s| <= inbuf.Length && outlen + 3 <= outbuf.Length && Place(s[p]) > 0
    requires Under(outbuf, inbuf, s, p, outlen, was, 3) && bits == was + Place(s[p]) - 1
    modifies outbuf
    ensures Under(outbuf, inbuf, s, p + 1, outlen + 3, 0, 0)
    ensures outbuf[outlen + 3..] == old(outbuf[outlen + 3..])
  {
    hide Triples, Values, Place, Under, Full, Gathered;
    GroupFrom(outbuf, inbuf, s, p, outlen, was, 3);
    UnderLengths(outbuf, inbuf, s, p, outlen, was, 3);
    ghost var before, text, w := outbuf[..], inbuf[..], Values(s[..p + 1]);
    assert inbuf[p..|s|] == text[p..|s|];
    LeftAfter(s, text, p);
    Emit(outbuf, outlen, [bits / 0x1_0000 % 0x100, bits / 0x100 % 0x100, bits % 0x100], outlen + 3);
    if outbuf == inbuf {
      assert before[outlen + 3..] == outbuf[..][outlen + 3..];
      FromThere(before, outbuf[..], outlen + 3, p + 1, |s|);
      assert inbuf[p + 1..|s|] == outbuf[..][p + 1..|s|];
    } else {
      assert inbuf[p + 1..|s|] == text[p + 1..|s|];
    }
    UnderGroup(outbuf, inbuf, s, p + 1, outlen + 3, w);
  }
}
