/**
 Unsigned 32-bit words, as the C sources use them: a word is an integer below
 2^32, and every operation that can wrap says so.
 */
module Words {

  const TWO32 := 0x1_0000_0000

  type u32 = x: int | 0 <= x < 0x1_0000_0000

  function AddWrap(x: u32, y: u32): u32 {
    (x + y) % TWO32
  }

  function SubWrap(x: u32, y: u32): u32 {
    (x - y) % TWO32
  }

  function MulWrap(x: u32, y: u32): u32 {
    x * y % TWO32
  }

  lemma ProductGrows(y: nat, q: int)
    requires y > 0
    ensures q < 0 ==> y * q + y <= 0
    ensures q >= 0 ==> y * q >= q
  {
    if q < 0 {
      assert y * q + y == y * (q + 1);
    } else {
      assert y * q - q == (y - 1) * q;
    }
  }

  lemma QuotientFits(x: nat, y: nat)
    requires y > 0
    ensures 0 <= x / y <= x
  {
    var q := x / y;
    assert x == y * q + x % y;
    ProductGrows(y, q);
  }

  lemma QuotientIs(x: nat, y: nat, q: nat, r: nat)
    requires x == y * q + r && r < y
    ensures x / y == q
  {
    var d := x / y;
    assert x == y * d + x % y;
    ProductGrows(y, d - q);
    ProductGrows(y, q - d);
    assert y * (d - q) == y * d - y * q;
    assert y * (q - d) == y * q - y * d;
  }

  // The quotient is the only number of times that the divisor fits.
  lemma QuotientOnly(x: nat, y: nat, q: nat)
    requires y > 0
    ensures q * y <= x < (q + 1) * y <==> q == x / y
  {
    RemainderFits(x, y);
    assert x == y * (x / y) + x % y;
    if q * y <= x < (q + 1) * y {
      assert x == y * q + (x - q * y);
      QuotientIs(x, y, q, x - q * y);
    }
  }

  lemma RemainderFits(x: nat, y: nat)
    requires y > 0
    ensures 0 <= x % y < y
    ensures x < y ==> x % y == x
  {
    if x < y {
      QuotientIs(x, y, 0, x);
      assert x == y * (x / y) + x % y;
    }
  }

  function Quotient(x: u32, y: u32): (q: u32)
    requires y > 0
    ensures q == x / y
  {
    QuotientFits(x, y);
    x / y
  }

  lemma AddSub(x: u32, y: u32)
    ensures AddWrap(SubWrap(x, y), y) == x
    ensures SubWrap(AddWrap(x, y), y) == x
  {
  }

  lemma AddWrapIs(x: u32, y: u32)
    ensures AddWrap(x, y) == if x + y < TWO32 then x + y else x + y - TWO32
  {
  }

  // Whole turns of the counter do not show.
  lemma WrapShift(x: int, turns: int)
    ensures (x + TWO32 * turns) % TWO32 == x % TWO32
  {
  }

  function Complement(x: u32): u32 {
    TWO32 - 1 - x
  }

  // Bitwise exclusive or of natural numbers.
  function XorBits(x: nat, y: nat): (z: nat)
    decreases x + y
  {
    if x == 0 && y == 0 then 0
    else (x + y) % 2 + 2 * XorBits(x / 2, y / 2)
  }

  function Power2(bits: nat): (p: nat)
    ensures p > 0
  {
    if bits == 0 then 1 else 2 * Power2(bits - 1)
  }

  lemma {:induction false} XorBitsBound(x: nat, y: nat, bits: nat)
    requires x < Power2(bits) && y < Power2(bits)
    ensures XorBits(x, y) < Power2(bits)
  {
    if bits == 0 {
    } else {
      XorBitsBound(x / 2, y / 2, bits - 1);
    }
  }

  lemma XorBitsUnfold(x: nat, y: nat)
    ensures XorBits(x, y) == (x + y) % 2 + 2 * XorBits(x / 2, y / 2)
  {
  }

  // Masking twice with the same word gives the word back.
  lemma {:induction false} XorBitsTwice(x: nat, y: nat)
    ensures XorBits(XorBits(x, y), y) == x
    decreases x + y
  {
    if x == 0 && y == 0 {
    } else {
      hide XorBits;
      var q := XorBits(x / 2, y / 2);
      XorBitsTwice(x / 2, y / 2);
      XorBitsUnfold(x, y);
      XorBitsUnfold(XorBits(x, y), y);
      ParityTwice(x, y, q);
      Halved(x);
    }
  }

  lemma Halved(x: nat)
    ensures x == x % 2 + 2 * (x / 2)
  {
  }

  lemma ParityTwice(x: nat, y: nat, q: nat)
    ensures ((x + y) % 2 + 2 * q) / 2 == q
    ensures ((x + y) % 2 + 2 * q + y) % 2 == x % 2
  {
  }

  lemma Power2Of32()
    ensures Power2(32) == TWO32
  {
    assert Power2(8) == 256;
    assert Power2(16) == 0x1_0000;
    assert Power2(24) == 0x100_0000;
  }

  function Xor(x: u32, y: u32): u32 {
    Power2Of32();
    XorBitsBound(x, y, 32);
    XorBits(x, y)
  }

  // Bit k of a word.
  function Bit(x: nat, k: nat): nat
    decreases k
  {
    if k == 0 then x % 2 else Bit(x / 2, k - 1)
  }

  // A bit of an exclusive or is set exactly if one of the two is and the other
  // is not.
  lemma {:induction false} XorBitsAt(x: nat, y: nat, k: nat)
    ensures Bit(XorBits(x, y), k) == (Bit(x, k) + Bit(y, k)) % 2
    decreases k
  {
    XorBitsUnfold(x, y);
    hide XorBits;
    ParitySum(x, y, XorBits(x / 2, y / 2));
    if k > 0 {
      XorBitsAt(x / 2, y / 2, k - 1);
    }
  }

  lemma ParitySum(x: nat, y: nat, q: nat)
    ensures ((x + y) % 2 + 2 * q) / 2 == q
    ensures ((x + y) % 2 + 2 * q) % 2 == (x % 2 + y % 2) % 2
  {
  }

  lemma BitIsBit(x: nat, k: nat)
    ensures Bit(x, k) == 0 || Bit(x, k) == 1
  {
  }

  lemma XorIsBitwise(x: u32, y: u32, k: nat)
    ensures Bit(Xor(x, y), k) == 1 <==> Bit(x, k) != Bit(y, k)
  {
    XorBitsAt(x, y, k);
    BitIsBit(x, k);
    BitIsBit(y, k);
  }

  // The complement inverts each of the 32 bits.
  lemma ComplementIsBitwise(x: u32, k: nat)
    requires k < 32
    ensures Bit(Complement(x), k) == 1 - Bit(x, k)
  {
    Power2Of32();
    Inverted(x, k, 32);
  }

  lemma {:induction false} Inverted(x: nat, k: nat, bits: nat)
    requires k < bits && x < Power2(bits)
    ensures Bit(Power2(bits) - 1 - x, k) == 1 - Bit(x, k)
    decreases k
  {
    var half := Power2(bits - 1);
    assert Power2(bits) == 2 * half;
    HalfInverted(x, half);
    if k > 0 {
      Inverted(x / 2, k - 1, bits - 1);
    }
  }

  lemma HalfInverted(x: nat, half: nat)
    requires x < 2 * half
    ensures (2 * half - 1 - x) / 2 == half - 1 - x / 2
    ensures (2 * half - 1 - x) % 2 == 1 - x % 2
  {
  }

  lemma {:induction false} XorBitsNothing(x: nat)
    ensures XorBits(0, x) == x
  {
    if x > 0 {
      XorBitsUnfold(0, x);
      XorBitsNothing(x / 2);
      Halved(x);
    }
  }

  lemma XorNothing(x: u32)
    ensures Xor(0, x) == x
  {
    XorBitsNothing(x);
  }

  lemma XorTwice(x: u32, y: u32)
    ensures Xor(Xor(x, y), y) == x
  {
    XorBitsTwice(x, y);
  }

  // Reverses the four bytes of a word: ntohl, htonl and bswap32 on a
  // little-endian machine.
  function ByteSwap(x: u32): (y: u32) {
    x % 0x100 * 0x100_0000 + x / 0x100 % 0x100 * 0x1_0000 + x / 0x1_0000 % 0x100 * 0x100 + x / 0x100_0000
  }

  lemma BytesOf(b0: int, b1: int, b2: int, b3: int)
    requires 0 <= b0 < 0x100 && 0 <= b1 < 0x100 && 0 <= b2 < 0x100 && 0 <= b3 < 0x100
    ensures var x := b0 + 0x100 * b1 + 0x1_0000 * b2 + 0x100_0000 * b3;
      && x % 0x100 == b0 && x / 0x100 % 0x100 == b1
      && x / 0x1_0000 % 0x100 == b2 && x / 0x100_0000 == b3
  {
    var x := b0 + 0x100 * b1 + 0x1_0000 * b2 + 0x100_0000 * b3;
    assert x / 0x100 == b1 + 0x100 * b2 + 0x1_0000 * b3;
    assert x / 0x1_0000 == b2 + 0x100 * b3;
    assert x / 0x100_0000 == b3;
  }

  // A word is four bytes, and swapping reverses them.
  lemma ByteSwapReverses(b0: int, b1: int, b2: int, b3: int)
    requires 0 <= b0 < 0x100 && 0 <= b1 < 0x100 && 0 <= b2 < 0x100 && 0 <= b3 < 0x100
    ensures ByteSwap(b0 + 0x100 * b1 + 0x1_0000 * b2 + 0x100_0000 * b3)
         == b3 + 0x100 * b2 + 0x1_0000 * b1 + 0x100_0000 * b0
  {
    BytesOf(b0, b1, b2, b3);
  }

  lemma ByteSwapTwice(x: u32)
    ensures ByteSwap(ByteSwap(x)) == x
  {
    var b0, b1, b2, b3 := x % 0x100, x / 0x100 % 0x100, x / 0x1_0000 % 0x100, x / 0x100_0000;
    assert x == b0 + 0x100 * (x / 0x100);
    assert x / 0x100 == b1 + 0x100 * (x / 0x1_0000);
    assert x / 0x1_0000 == b2 + 0x100 * b3;
    BytesOf(b3, b2, b1, b0);
  }
}
