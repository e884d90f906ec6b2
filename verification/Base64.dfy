/**
 Base64 (base64.cpp): the encoder, against the bit groups of section 4 of RFC
 4648, and the decoder, which skips what is not in the alphabet and may work in
 place.
 */
module Base64 {
  import opened Words

  type byte = x: int | 0 <= x < 256
  type sextet = x: int | 0 <= x < 64

  const PAD: byte := 61  // '='

  // ---------- the alphabet ----------

  // base64table: A-Z, a-z, 0-9, + and /.
  function Letter(v: sextet): (c: byte)
    ensures c != PAD && c < 128
  {
    if v < 26 then 65 + v
    else if v < 52 then 71 + v
    else if v < 62 then v - 4
    else if v == 62 then 43
    else 47
  }

  // The decoder table: one more than the value of a letter, or 0.
  function Place(c: byte): (p: nat)
    ensures p <= 64
  {
    if 65 <= c <= 90 then c - 64
    else if 97 <= c <= 122 then c - 70
    else if 48 <= c <= 57 then c + 5
    else if c == 43 then 63
    else if c == 47 then 64
    else 0
  }

  lemma LetterPlace(v: sextet, c: byte)
    ensures Place(Letter(v)) == v + 1
    ensures Place(c) > 0 ==> Letter(Place(c) - 1) == c
    ensures Place(PAD) == 0
  {
  }

  method BuildDecoder() returns (decoder: array<nat>)
    ensures fresh(decoder) && decoder.Length == 256
    ensures forall c: byte :: decoder[c] == Place(c)
  {
    decoder := new nat[256](_ => 0);
    var c := 63;
    while c >= 0
      invariant -1 <= c <= 63
      invariant forall d: byte :: decoder[d] == if Place(d) > c + 1 then Place(d) else 0
    {
      LetterPlace(c, 0);
      decoder[Letter(c)] := c + 1;
      forall d: byte | Place(d) == c + 1
        ensures d == Letter(c)
      {
        LetterPlace(c, d);
      }
      c := c - 1;
    }
  }

  // ---------- the encoder ----------

  function Quad(a: byte, b: byte, c: byte): (q: seq<byte>)
    ensures |q| == 4
  {
    [Letter(a / 4), Letter(a % 4 * 16 + b / 16), Letter(b % 16 * 4 + c / 64), Letter(c % 64)]
  }

  function Encoded(x: seq<byte>): (s: seq<byte>)
    ensures |s| == 4 * ((|x| + 2) / 3)
  {
    if x == [] then []
    else if |x| == 1 then Quad(x[0], 0, 0)[..2] + [PAD, PAD]
    else if |x| == 2 then Quad(x[0], x[1], 0)[..3] + [PAD]
    else Quad(x[0], x[1], x[2]) + Encoded(x[3..])
  }

  // *outbuf++ four times.
  method WriteQuad(outbuf: array<byte>, pos: nat, q: seq<byte>)
    requires |q| == 4 && pos + 4 <= outbuf.Length
    modifies outbuf
    ensures outbuf[..pos + 4] == old(outbuf[..pos]) + q
    ensures outbuf[pos + 4..] == old(outbuf[pos + 4..])
  {
    outbuf[pos] := q[0];
    outbuf[pos + 1] := q[1];
    outbuf[pos + 2] := q[2];
    outbuf[pos + 3] := q[3];
  }

  // What the encoder does with the last octet or two.
  method EncodeRest(outbuf: array<byte>, inbuf: array<byte>, outlen: nat, i: nat, inbuflen: nat) returns (end: nat)
    requires i % 3 == 0 && i <= inbuflen <= inbuf.Length && inbuflen - i <= 2 && outlen == 4 * (i / 3)
    requires outbuf != inbuf && 4 * ((inbuflen + 2) / 3) <= outbuf.Length
    requires outbuf[..outlen] == Encoded(inbuf[..inbuflen][..i])
    modifies outbuf
    ensures end == 4 * ((inbuflen + 2) / 3)
    ensures outbuf[..end] == Encoded(inbuf[..inbuflen])
    ensures outbuf[end..] == old(outbuf[end..])
  {
    hide Encoded, Letter;
    EncodedEnd(inbuf[..inbuflen], i);
    end := outlen;
    if inbuflen - i == 1 {
      WriteQuad(outbuf, outlen, [Letter(inbuf[i] / 4), Letter(inbuf[i] % 4 * 16), PAD, PAD]);
      end := outlen + 4;
    } else if inbuflen - i == 2 {
      WriteQuad(outbuf, outlen, [Letter(inbuf[i] / 4), Letter(inbuf[i] % 4 * 16 + inbuf[i + 1] / 16),
                                 Letter(inbuf[i + 1] % 16 * 4), PAD]);
      end := outlen + 4;
    }
  }

  // base64_encode: the number of characters written, or an error if they do not
  // fit; a terminating zero follows if there is room.
  method Encode(outbuf: array<byte>, inbuf: array<byte>, outbuflen: nat, inbuflen: nat) returns (rc: int)
    requires outbuflen <= outbuf.Length && inbuflen <= inbuf.Length && outbuf != inbuf
    modifies outbuf
    ensures outbuflen < 4 * ((inbuflen + 2) / 3) <==> rc == -1
    ensures rc != -1 ==> rc == 4 * ((inbuflen + 2) / 3) && outbuf[..rc] == Encoded(inbuf[..inbuflen])
    ensures var end := if rc == -1 then 0 else rc; end < outbuflen ==> outbuf[end] == 0
    ensures outbuf[outbuflen..] == old(outbuf[outbuflen..])
  {
    hide Encoded, Letter;
    var outlen, errors := 0, 0;
    ghost var x, beyond := inbuf[..inbuflen], outbuf[outbuflen..];
    if outbuflen < (inbuflen + 2) / 3 * 4 {
      errors := 1;
    } else {
      var i := 0;
      while inbuflen - i > 2
        invariant 0 <= i <= inbuflen && i % 3 == 0 && outlen == 4 * (i / 3)
        invariant outbuf[..outlen] == Encoded(x[..i])
        invariant outbuf[outbuflen..] == beyond
      {
        EncodedMore(x, i);
        ghost var before := outbuf[outlen + 4..];
        WriteQuad(outbuf, outlen, [Letter(inbuf[i] / 4), Letter(inbuf[i] % 4 * 16 + inbuf[i + 1] / 16),
                                   Letter(inbuf[i + 1] % 16 * 4 + inbuf[i + 2] / 64), Letter(inbuf[i + 2] % 64)]);
        Beyond(before, outbuf[outlen + 4..], outbuflen - (outlen + 4));
        outlen, i := outlen + 4, i + 3;
      }
      outlen := EncodeRest(outbuf, inbuf, outlen, i, inbuflen);
    }
    if outlen < outbuflen {
      outbuf[outlen] := 0;
    }
    rc := if errors != 0 then -1 else outlen;
  }

  lemma Beyond(before: seq<byte>, after: seq<byte>, k: nat)
    requires before == after && k <= |before|
    ensures before[k..] == after[k..]
  {
  }

  // Encoding is by groups of three octets.
  lemma {:induction false} EncodedConcat(x: seq<byte>, y: seq<byte>)
    requires |x| % 3 == 0
    ensures Encoded(x + y) == Encoded(x) + Encoded(y)
  {
    if x == [] {
      assert x + y == y && Encoded(x) == [] && [] + Encoded(y) == Encoded(y);
    } else {
      assert (x + y)[3..] == x[3..] + y;
      EncodedConcat(x[3..], y);
      var q := Quad(x[0], x[1], x[2]);
      assert q + (Encoded(x[3..]) + Encoded(y)) == q + Encoded(x[3..]) + Encoded(y);
    }
  }

  lemma EncodedMore(x: seq<byte>, i: nat)
    requires i % 3 == 0 && i + 3 <= |x|
    ensures Encoded(x[..i + 3]) == Encoded(x[..i]) + Quad(x[i], x[i + 1], x[i + 2])
  {
    assert x[..i + 3] == x[..i] + x[i..i + 3];
    EncodedConcat(x[..i], x[i..i + 3]);
    assert x[i..i + 3][3..] == [];
  }

  lemma EncodedEnd(x: seq<byte>, i: nat)
    requires i % 3 == 0 && i <= |x| <= i + 2
    ensures |x| == i ==> x[..i] == x
    ensures |x| == i + 1 ==> Encoded(x) == Encoded(x[..i]) + (Quad(x[i], 0, 0)[..2] + [PAD, PAD])
    ensures |x| == i + 2 ==> Encoded(x) == Encoded(x[..i]) + (Quad(x[i], x[i + 1], 0)[..3] + [PAD])
  {
    assert x == x[..i] + x[i..];
    EncodedConcat(x[..i], x[i..]);
  }

  // ---------- section 4 of RFC 4648 ----------

  // The k lowest binary digits of n, highest first.
  function Binary(n: nat, k: nat): (bits: seq<bool>)
    ensures |bits| == k
  {
    if k == 0 then [] else Binary(n / 2, k - 1) + [n % 2 == 1]
  }

  function Number(bits: seq<bool>): nat {
    if bits == [] then 0
    else 2 * Number(bits[..|bits| - 1]) + if bits[|bits| - 1] then 1 else 0
  }

  // The octets as one string of bits.
  function Bits(x: seq<byte>): (bits: seq<bool>)
    ensures |bits| == 8 * |x|
  {
    if x == [] then [] else Binary(x[0], 8) + Bits(x[1..])
  }

  function Zeros(k: nat): seq<bool> {
    seq(k, _ => false)
  }

  // Groups of six bits, zero bits added on the right of the last.
  function Groups(bits: seq<bool>): seq<nat> {
    if bits == [] then []
    else if |bits| < 6 then [Number(bits + Zeros(6 - |bits|))]
    else [Number(bits[..6])] + Groups(bits[6..])
  }

  lemma {:induction false} NumberBound(bits: seq<bool>)
    ensures Number(bits) < Power2(|bits|)
  {
    if bits == [] {
    } else {
      NumberBound(bits[..|bits| - 1]);
    }
  }

  lemma {:induction false} GroupsBound(bits: seq<bool>)
    ensures forall g :: g in Groups(bits) ==> g < 64
  {
    assert Power2(6) == 64;
    if bits != [] {
      if |bits| < 6 {
        NumberBound(bits + Zeros(6 - |bits|));
      } else {
        NumberBound(bits[..6]);
        GroupsBound(bits[6..]);
      }
    }
  }

  function Letters(groups: seq<nat>): (s: seq<byte>)
    requires forall g :: g in groups ==> g < 64
    ensures |s| == |groups|
  {
    seq(|groups|, i requires 0 <= i < |groups| => assert groups[i] in groups; Letter(groups[i]))
  }

  // The encoding as the standard describes it.
  function Rfc(x: seq<byte>): seq<byte> {
    GroupsBound(Bits(x));
    Letters(Groups(Bits(x))) + Padding(|x|)
  }

  // Two pad characters after a last group of one octet, one after one of two.
  function Padding(octets: nat): seq<byte> {
    if octets % 3 == 1 then [PAD, PAD] else if octets % 3 == 2 then [PAD] else []
  }

  lemma {:induction false} NumberOfBinary(n: nat, k: nat)
    requires n < Power2(k)
    ensures Number(Binary(n, k)) == n
  {
    if k == 0 {
    } else {
      NumberOfBinary(n / 2, k - 1);
      assert Binary(n, k)[..k - 1] == Binary(n / 2, k - 1);
    }
  }

  lemma HalfOf(a: nat, p: nat, b: nat)
    ensures (a * (2 * p) + b) / 2 == a * p + b / 2
    ensures (a * (2 * p) + b) % 2 == b % 2
    ensures a * (2 * p) >= 0
  {
    assert a * (2 * p) == 2 * (a * p);
  }

  lemma {:induction false} BinaryConcat(a: nat, j: nat, b: nat, k: nat)
    requires b < Power2(k)
    ensures Binary(a * Power2(k) + b, j + k) == Binary(a, j) + Binary(b, k)
    decreases k
  {
    if k > 0 {
      var p := Power2(k - 1);
      BinaryConcat(a, j, b / 2, k - 1);
      HalfOf(a, p, b);
      var n := a * Power2(k) + b;
      assert n == a * (2 * p) + b;
      assert Binary(n, j + k) == Binary(n / 2, j + k - 1) + [n % 2 == 1];
      assert Binary(b, k) == Binary(b / 2, k - 1) + [b % 2 == 1];
    } else {
      assert Binary(a, j) + [] == Binary(a, j);
      assert a * Power2(0) == a;
    }
  }

  lemma TwoValues()
    ensures Power2(2) == 4 && Power2(4) == 16 && Power2(6) == 64 && Power2(8) == 256
  {
    assert Power2(4) == 2 * (2 * Power2(2));
    assert Power2(6) == 2 * (2 * Power2(4));
    assert Power2(8) == 2 * (2 * Power2(6));
  }

  // Three octets are four sextets.
  lemma Regroup(a: byte, b: byte, c: byte)
    ensures Binary(a, 8) + Binary(b, 8) + Binary(c, 8)
         == Binary(a / 4, 6) + Binary(a % 4 * 16 + b / 16, 6) + Binary(b % 16 * 4 + c / 64, 6) + Binary(c % 64, 6)
  {
    hide Binary, Power2;
    Divided(a, b, c);
    RegroupParts(a, a / 4, a % 4, b, b / 16, b % 16, c, c / 64, c % 64);
  }

  lemma Divided(a: byte, b: byte, c: byte)
    ensures a == a / 4 * 4 + a % 4 && b == b / 16 * 16 + b % 16 && c == c / 64 * 64 + c % 64
    ensures b / 16 < 16 && c / 64 < 4
  {
  }

  // Three octets, each in two parts, in groups of six.
  lemma RegroupParts(a: nat, a0: nat, a1: nat, b: nat, b0: nat, b1: nat, c: nat, c0: nat, c1: nat)
    requires a == a0 * 4 + a1 && b == b0 * 16 + b1 && c == c0 * 64 + c1
    requires a1 < 4 && b0 < 16 && b1 < 16 && c0 < 4 && c1 < 64
    ensures Binary(a, 8) + Binary(b, 8) + Binary(c, 8)
         == Binary(a0, 6) + Binary(a1 * 16 + b0, 6) + Binary(b1 * 4 + c0, 6) + Binary(c1, 6)
  {
    hide Binary, Power2;
    TwoValues();
    BinaryJoin(a0, 6, a1, 2, 4);
    BinaryJoin(b0, 4, b1, 4, 16);
    BinaryJoin(c0, 2, c1, 6, 64);
    BinaryJoin(a1, 2, b0, 4, 16);
    BinaryJoin(b1, 4, c0, 2, 4);
    Shuffle(Binary(a0, 6), Binary(a1, 2), Binary(b0, 4), Binary(b1, 4), Binary(c0, 2), Binary(c1, 6));
  }

  lemma BinaryJoin(a: nat, j: nat, b: nat, k: nat, p: nat)
    requires p == Power2(k) && b < p
    ensures a * p >= 0 && Binary(a * p + b, j + k) == Binary(a, j) + Binary(b, k)
  {
    hide Binary, Power2;
    BinaryConcat(a, j, b, k);
  }

  lemma Shuffle(s: seq<bool>, t: seq<bool>, u: seq<bool>, v: seq<bool>, w: seq<bool>, x: seq<bool>)
    ensures s + t + (u + v) + (w + x) == s + (t + u) + (v + w) + x
  {
  }

  // The first four groups of a string of bits that starts with four sextets.
  lemma GroupsOf(g: seq<nat>, bits: seq<bool>)
    requires |g| == 4 && forall i :: 0 <= i < 4 ==> g[i] < 64
    ensures Groups(Binary(g[0], 6) + Binary(g[1], 6) + Binary(g[2], 6) + Binary(g[3], 6) + bits) == g + Groups(bits)
  {
    hide Binary, Groups;
    var b0, b1, b2, b3 := Binary(g[0], 6), Binary(g[1], 6), Binary(g[2], 6), Binary(g[3], 6);
    GroupFirst(g[3], bits);
    GroupFirst(g[2], b3 + bits);
    GroupFirst(g[1], b2 + (b3 + bits));
    GroupFirst(g[0], b1 + (b2 + (b3 + bits)));
    assert b0 + b1 + b2 + b3 + bits == b0 + (b1 + (b2 + (b3 + bits)));
    assert [g[0]] + ([g[1]] + ([g[2]] + ([g[3]] + Groups(bits)))) == g + Groups(bits);
  }

  lemma GroupFirst(g: nat, bits: seq<bool>)
    requires g < 64
    ensures Groups(Binary(g, 6) + bits) == [g] + Groups(bits)
  {
    hide Binary, Power2, Number;
    TwoValues();
    NumberOfBinary(g, 6);
    assert (Binary(g, 6) + bits)[..6] == Binary(g, 6) && (Binary(g, 6) + bits)[6..] == bits;
  }

  lemma {:induction false} ZeroBits(k: nat)
    ensures Binary(0, k) == Zeros(k)
  {
    if k == 0 {
    } else {
      ZeroBits(k - 1);
      assert Zeros(k - 1) + [false] == Zeros(k);
    }
  }

  // The last group of two or four bits.
  lemma ShortGroup(v: nat, j: nat)
    requires 0 < j < 6 && v < Power2(j)
    ensures v * Power2(6 - j) < 64 && Groups(Binary(v, j)) == [v * Power2(6 - j)]
  {
    hide Binary, Number;
    TwoSplits(j, 6 - j);
    TwoValues();
    var p := Power2(6 - j);
    BinaryConcat(v, j, 0, 6 - j);
    ZeroBits(6 - j);
    Below(v, Power2(j), p);
    assert v * p + 0 == v * p;
    NumberOfBinary(v * p, 6);
  }

  lemma Below(v: nat, q: nat, p: nat)
    requires v < q
    ensures p > 0 ==> v * p < q * p
  {
    if p > 0 {
      assert (q - v) * p > 0;
      assert (q - v) * p == q * p - v * p;
    }
  }

  lemma {:induction false} TwoSplits(j: nat, k: nat)
    ensures Power2(j) * Power2(k) == Power2(j + k)
  {
    if j == 0 {
    } else {
      TwoSplits(j - 1, k);
      assert Power2(j) * Power2(k) == 2 * (Power2(j - 1) * Power2(k)) by {
        assert (2 * Power2(j - 1)) * Power2(k) == 2 * (Power2(j - 1) * Power2(k));
      }
    }
  }

  lemma Groups3(a: byte, b: byte, c: byte, rest: seq<byte>)
    ensures Groups(Bits([a, b, c] + rest))
      == [a / 4, a % 4 * 16 + b / 16, b % 16 * 4 + c / 64, c % 64] + Groups(Bits(rest))
  {
    hide Binary, Groups;
    var x := [a, b, c] + rest;
    assert x[1..] == [b, c] + rest && x[1..][1..] == [c] + rest && x[1..][1..][1..] == rest;
    Regroup(a, b, c);
    GroupsOf([a / 4, a % 4 * 16 + b / 16, b % 16 * 4 + c / 64, c % 64], Bits(rest));
    var y, z := [b, c] + rest, [c] + rest;
    assert Bits(x) == Binary(a, 8) + Bits(y) && Bits(y) == Binary(b, 8) + Bits(z)
        && Bits(z) == Binary(c, 8) + Bits(rest);
    assert Binary(a, 8) + (Binary(b, 8) + (Binary(c, 8) + Bits(rest)))
        == Binary(a, 8) + Binary(b, 8) + Binary(c, 8) + Bits(rest);
  }

  lemma Groups1(a: byte)
    ensures Groups(Bits([a])) == [a / 4, a % 4 * 16]
  {
    hide Binary, Groups, Power2;
    TwoValues();
    assert [a][1..] == [];
    BinaryConcat(a / 4, 6, a % 4, 2);
    assert a == a / 4 * 4 + a % 4;
    assert Bits([a]) == Binary(a, 8) + [] == Binary(a / 4, 6) + Binary(a % 4, 2);
    GroupFirst(a / 4, Binary(a % 4, 2));
    ShortGroup(a % 4, 2);
  }

  lemma Groups2(a: byte, b: byte)
    ensures Groups(Bits([a, b])) == [a / 4, a % 4 * 16 + b / 16, b % 16 * 4]
  {
    hide Binary, Groups, Power2;
    TwoValues();
    assert [a, b][1..] == [b] && [b][1..] == [];
    BinaryConcat(a / 4, 6, a % 4, 2);
    BinaryConcat(b / 16, 4, b % 16, 4);
    BinaryConcat(a % 4, 2, b / 16, 4);
    assert a == a / 4 * 4 + a % 4 && b == b / 16 * 16 + b % 16;
    var a6, a2, b4, rest := Binary(a / 4, 6), Binary(a % 4, 2), Binary(b / 16, 4), Binary(b % 16, 4);
    assert Bits([a, b]) == a6 + a2 + (b4 + rest + []) == a6 + ((a2 + b4) + rest);
    GroupFirst(a / 4, (a2 + b4) + rest);
    GroupFirst(a % 4 * 16 + b / 16, rest);
    ShortGroup(b % 16, 4);
  }

  lemma RfcMore(a: byte, b: byte, c: byte, rest: seq<byte>)
    ensures Rfc([a, b, c] + rest) == Quad(a, b, c) + Rfc(rest)
  {
    hide Groups, Bits, Letter;
    var x := [a, b, c] + rest;
    var g := [a / 4, a % 4 * 16 + b / 16, b % 16 * 4 + c / 64, c % 64];
    Groups3(a, b, c, rest);
    GroupsBound(Bits(x));
    GroupsBound(Bits(rest));
    LettersConcat(g, Groups(Bits(rest)));
    assert Letters(g) == Quad(a, b, c);
    var pad := Padding(|rest|);
    assert Padding(|x|) == pad;
    assert Letters(g) + Letters(Groups(Bits(rest))) + pad == Letters(g) + (Letters(Groups(Bits(rest))) + pad);
  }

  lemma EncodedShort(a: byte, b: byte)
    ensures Encoded([]) == []
    ensures Encoded([a]) == Quad(a, 0, 0)[..2] + [PAD, PAD]
    ensures Encoded([a, b]) == Quad(a, b, 0)[..3] + [PAD]
  {
    hide Quad;
  }

  lemma PaddingShort()
    ensures Padding(0) == [] && Padding(1) == [PAD, PAD] && Padding(2) == [PAD]
  {
  }

  lemma Rfc0()
    ensures Encoded([]) == Rfc([])
  {
    hide Groups, Bits, Encoded;
    EncodedShort(0, 0);
    NoGroups();
    GroupsBound(Bits([]));
  }

  lemma Rfc1(a: byte)
    ensures Encoded([a]) == Rfc([a])
  {
    hide Groups, Bits, Letter, Encoded, Padding;
    EncodedShort(a, 0);
    PaddingShort();
    GroupsBound(Bits([a]));
    Groups1(a);
    assert Letters([a / 4, a % 4 * 16]) == [Letter(a / 4), Letter(a % 4 * 16)];
    assert Letters(Groups(Bits([a]))) == Quad(a, 0, 0)[..2];
  }

  lemma Rfc2(a: byte, b: byte)
    ensures Encoded([a, b]) == Rfc([a, b])
  {
    hide Groups, Bits, Letter, Encoded, Padding;
    EncodedShort(a, b);
    PaddingShort();
    GroupsBound(Bits([a, b]));
    Groups2(a, b);
    var g := [a / 4, a % 4 * 16 + b / 16, b % 16 * 4];
    assert Letters(g) == [Letter(g[0]), Letter(g[1]), Letter(g[2])];
    assert Letters(Groups(Bits([a, b]))) == Quad(a, b, 0)[..3];
  }

  // The encoder is the encoding of the standard.
  lemma {:induction false} EncodedIsRfc(x: seq<byte>)
    ensures Encoded(x) == Rfc(x)
  {
    hide Rfc, Letter;
    if x == [] {
      Rfc0();
    } else if |x| == 1 {
      assert x == [x[0]];
      Rfc1(x[0]);
    } else if |x| == 2 {
      assert x == [x[0], x[1]];
      Rfc2(x[0], x[1]);
    } else {
      EncodedIsRfc(x[3..]);
      assert x == [x[0], x[1], x[2]] + x[3..];
      RfcMore(x[0], x[1], x[2], x[3..]);
    }
  }

  // Test vectors of section 10 of RFC 4648: "f", "fo" and "foobar".
  lemma RfcVectors()
    ensures Encoded([102]) == [90, 103, 61, 61]
    ensures Encoded([102, 111]) == [90, 109, 56, 61]
    ensures Encoded([102, 111, 111, 98, 97, 114]) == [90, 109, 57, 118, 89, 109, 70, 121]
  {
    EncodedShort(102, 111);
    var x := [102, 111, 111, 98, 97, 114];
    assert x[3..] == [98, 97, 114] && x[3..][3..] == [];
    assert Encoded(x) == Quad(102, 111, 111) + Encoded(x[3..]);
    assert Encoded(x[3..]) == Quad(98, 97, 114) + Encoded([]);
    hide Encoded;
  }

  lemma NoGroups()
    ensures Groups(Bits([])) == []
  {
  }

  lemma LettersConcat(g: seq<nat>, h: seq<nat>)
    requires (forall v :: v in g ==> v < 64) && (forall v :: v in h ==> v < 64)
    ensures (forall v :: v in g + h ==> v < 64) && Letters(g + h) == Letters(g) + Letters(h)
  {
  }
}
