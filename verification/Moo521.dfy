/**
 The Moo! Wrapper packet codec (moo521.cpp): a 42-word record body is wrapped in
 a 44-word packet holding the enciphered body, its enciphered checksum and the
 seed of the key schedule.
 */
module Moo521 {
  import opened Words

  const HEADER_WORDS := 8
  const HEADER_MAGIC: u32 := 0x1A34B683
  const VERSION: u32 := 0x48
  const MAX_COUNT := 0xFF_FFFF
  const CKSEED: u32 := 0xB7E15163
  const Q: u32 := 0x61C88647
  const DELTA: u32 := 0x481EAE9D

  type Body = b: seq<u32> | |b| == 42 witness seq(42, _ => 0)
  type Packet = p: seq<u32> | |p| == 44 witness seq(44, _ => 0)

  // ---------- the cipher, one word at a time ----------

  function EncodeWord(x: u32, k: u32): u32 {
    ByteSwap(SubWrap(Complement(Xor(ByteSwap(x), k)), Q))
  }

  function DecodeWord(x: u32, k: u32): u32 {
    ByteSwap(Xor(Complement(AddWrap(ByteSwap(x), Q)), k))
  }

  lemma WordDecodeEncode(x: u32, k: u32)
    ensures DecodeWord(EncodeWord(x, k), k) == x
  {
    hide ByteSwap, Xor, AddWrap, SubWrap, Complement;
    var masked := Xor(ByteSwap(x), k);
    var d := SubWrap(Complement(masked), Q);
    AddSub(Complement(masked), Q);
    ByteSwapTwice(d);
    XorTwice(ByteSwap(x), k);
    ByteSwapTwice(x);
    ComplementTwice(masked);
  }

  lemma ComplementTwice(x: u32)
    ensures Complement(Complement(x)) == x
  {
  }

  lemma WordEncodeDecode(x: u32, k: u32)
    ensures EncodeWord(DecodeWord(x, k), k) == x
  {
    hide ByteSwap, Xor, AddWrap, SubWrap, Complement;
    var shifted := Complement(AddWrap(ByteSwap(x), Q));
    ComplementTwice(AddWrap(ByteSwap(x), Q));
    ByteSwapTwice(Xor(shifted, k));
    XorTwice(shifted, k);
    AddSub(ByteSwap(x), Q);
    ByteSwapTwice(x);
  }

  // The key of word i.
  function Key(seed: u32, i: nat): u32 {
    (seed - i * DELTA) % TWO32
  }

  lemma KeyStep(seed: u32, i: nat)
    ensures SubWrap(Key(seed, i), DELTA) == Key(seed, i + 1)
  {
    var a := seed - i * DELTA;
    WrapShift(a % TWO32 - DELTA, a / TWO32);
    assert a == a % TWO32 + TWO32 * (a / TWO32);
  }

  // ---------- the checksum: eight passes over the body ----------

  // The state after the first n words of one pass.
  function ChecksumAfter(body: Body, state: u32, n: nat): u32
    requires n <= |body|
  {
    if n == 0 then state
    else SubWrap(Xor(ByteSwap(body[n - 1]), ChecksumAfter(body, state, n - 1)), Q)
  }

  function Passes(body: Body, n: nat): u32 {
    if n == 0 then CKSEED else ChecksumAfter(body, Passes(body, n - 1), |body|)
  }

  function ChecksumOf(body: Body): u32 {
    Passes(body, 8)
  }

  method Checksum(rec: array<u32>) returns (edi: u32)
    requires rec.Length == 42
    ensures edi == ChecksumOf(rec[..])
  {
    hide Xor, ByteSwap, SubWrap;
    edi := CKSEED;
    var pass := 0;
    while pass < 8
      invariant 0 <= pass <= 8
      invariant edi == Passes(rec[..], pass)
    {
      ghost var before := edi;
      var i := 0;
      while i < 42
        invariant 0 <= i <= 42
        invariant edi == ChecksumAfter(rec[..], before, i)
      {
        var x := Xor(ByteSwap(rec[i]), edi);
        edi := SubWrap(x, Q);
        i := i + 1;
      }
      pass := pass + 1;
    }
  }

  // ---------- whole packets ----------

  // What the cipher window covers: the body and its byte-swapped checksum.
  function Window(body: Body): seq<u32> {
    body + [ByteSwap(ChecksumOf(body))]
  }

  function Encoded(body: Body, seed: u32): (p: Packet) {
    var window := Window(body);
    seq(43, i requires 0 <= i < 43 => EncodeWord(window[i], Key(seed, i))) + [ByteSwap(seed)]
  }

  function SeedOf(p: Packet): u32 {
    ByteSwap(p[43])
  }

  function Decoded(p: Packet): (b: Body) {
    seq(42, i requires 0 <= i < 42 => DecodeWord(p[i], Key(SeedOf(p), i)))
  }

  // The checksum a packet carries, as the format documentation defines it.
  function StoredChecksum(p: Packet): u32 {
    ByteSwap(DecodeWord(p[42], Key(SeedOf(p), 42)))
  }

  // The cipher loop: words 0..42 in place, the seed word untouched.
  method Encipher(packet: array<u32>, seed: u32)
    requires packet.Length == 44
    modifies packet
    ensures forall j :: 0 <= j < 43 ==> packet[j] == EncodeWord(old(packet[j]), Key(seed, j))
    ensures packet[43] == old(packet[43])
  {
    var k := seed;
    var i := 0;
    while i < 43
      invariant 0 <= i <= 43
      invariant k == Key(seed, i)
      invariant forall j :: i <= j < 44 ==> packet[j] == old(packet[j])
      invariant forall j :: 0 <= j < i ==> packet[j] == EncodeWord(old(packet[j]), Key(seed, j))
    {
      var x := ByteSwap(packet[i]);
      x := Xor(x, k);
      x := Complement(x);
      x := SubWrap(x, Q);
      packet[i] := ByteSwap(x);
      KeyStep(seed, i);
      k := SubWrap(k, DELTA);
      i := i + 1;
    }
  }

  method Encode(rec: array<u32>, seed: u32, packet: array<u32>)
    requires rec.Length == 42 && packet.Length == 44 && rec != packet
    modifies packet
    ensures packet[..] == Encoded(rec[..], seed)
  {
    var n := 0;
    while n < 42
      invariant 0 <= n <= 42
      invariant rec[..] == old(rec[..])
      invariant packet[..n] == rec[..n]
    {
      packet[n] := rec[n];
      n := n + 1;
    }
    var ck := Checksum(rec);
    packet[42] := ByteSwap(ck);
    packet[43] := ByteSwap(seed);
    assert packet[..43] == Window(rec[..]);
    ghost var window := packet[..43];
    Encipher(packet, seed);
    assert packet[..] == packet[..43] + [packet[43]];
  }

  method Decode(packet: array<u32>, rec: array<u32>)
    requires rec.Length == 42 && packet.Length == 44 && rec != packet
    modifies rec
    ensures rec[..] == Decoded(packet[..])
  {
    var seed := ByteSwap(packet[43]);
    ghost var p := packet[..];
    var n := 0;
    while n < 42
      invariant 0 <= n <= 42
      invariant packet[..] == p
      invariant rec[..n] == p[..n]
    {
      rec[n] := packet[n];
      n := n + 1;
    }
    var k := seed;
    var i := 0;
    while i < 42
      invariant 0 <= i <= 42
      invariant k == Key(seed, i)
      invariant packet[..] == p
      invariant forall j :: i <= j < 42 ==> rec[j] == p[j]
      invariant forall j :: 0 <= j < i ==> rec[j] == Decoded(p)[j]
    {
      var x := ByteSwap(rec[i]);
      x := AddWrap(x, Q);
      x := Complement(x);
      x := Xor(x, k);
      rec[i] := ByteSwap(x);
      KeyStep(seed, i);
      k := SubWrap(k, DELTA);
      i := i + 1;
    }
  }

  // Decoding undoes encoding under every seed, and the packet carries the
  // checksum of what it decodes to.
  lemma DecodeEncode(body: Body, seed: u32)
    ensures Decoded(Encoded(body, seed)) == body
    ensures SeedOf(Encoded(body, seed)) == seed
    ensures StoredChecksum(Encoded(body, seed)) == ChecksumOf(body)
  {
    var p := Encoded(body, seed);
    ByteSwapTwice(seed);
    forall i | 0 <= i < 42
      ensures Decoded(p)[i] == body[i]
    {
      WordDecodeEncode(body[i], Key(seed, i));
    }
    WordDecodeEncode(ByteSwap(ChecksumOf(body)), Key(seed, 42));
    ByteSwapTwice(ChecksumOf(body));
  }

  // Re-encoding what was decoded reproduces all 44 words exactly when the
  // packet's checksum is the checksum of its body.
  lemma EncodeDecode(p: Packet)
    ensures Encoded(Decoded(p), SeedOf(p)) == p <==> StoredChecksum(p) == ChecksumOf(Decoded(p))
  {
    var seed, body := SeedOf(p), Decoded(p);
    var again := Encoded(body, seed);
    ByteSwapTwice(p[43]);
    forall i | 0 <= i < 42
      ensures again[i] == p[i]
    {
      WordEncodeDecode(p[i], Key(seed, i));
    }
    DecodeEncode(body, seed);
    if StoredChecksum(p) == ChecksumOf(body) {
      ByteSwapTwice(DecodeWord(p[42], Key(seed, 42)));
      WordEncodeDecode(p[42], Key(seed, 42));
      assert again[42] == p[42];
    }
  }

  // ---------- a packet from the field ----------

  // A word of the work that is zero, by its key and the bytes of the packet.
  lemma ZeroAt(p: Packet, i: nat, k: u32, b0: int, b1: int, b2: int, b3: int)
    requires i < 42 && Key(SeedOf(p), i) == k
    requires 0 <= b0 < 0x100 && 0 <= b1 < 0x100 && 0 <= b2 < 0x100 && 0 <= b3 < 0x100
    requires SubWrap(Complement(k), Q) == b0 + 0x100 * b1 + 0x1_0000 * b2 + 0x100_0000 * b3
    requires p[i] == b3 + 0x100 * b2 + 0x1_0000 * b1 + 0x100_0000 * b0
    ensures Decoded(p)[i] == 0
  {
    hide ByteSwap, Xor, AddWrap, SubWrap, Complement, Key, SeedOf;
    WordDecodeEncode(0, k);
    ByteSwapReverses(0, 0, 0, 0);
    ByteSwapReverses(b0, b1, b2, b3);
    XorNothing(k);
  }

  // The words of the packet captured from the Moo! Wrapper in which the work has
  // zeros: the low words of key, keys done and iterations, and the last one of
  // the record.
  lemma CapturedPacket(p: Packet)
    requires p[2] == 0xC0DD_D841 && p[9] == 0x0BA4_AF3A && p[10] == 0xA852_CE82 && p[12] == 0xE2AF_0B13
    requires p[41] == 0xAB77_853E && p[43] == 0x32F9_9BEC
    ensures SeedOf(p) == 0xEC9B_F932
    ensures Decoded(p)[2] == Decoded(p)[9] == Decoded(p)[10] == Decoded(p)[12] == Decoded(p)[41] == 0
  {
    hide Decoded, ByteSwap;
    ByteSwapReverses(0xEC, 0x9B, 0xF9, 0x32);
    ZeroAt(p, 2, 0x5C5E_9BF8, 0xC0, 0xDD, 0xD8, 0x41);
    ZeroAt(p, 9, 0x6387_D5AD, 0xB, 0xA4, 0xAF, 0x3A);
    ZeroAt(p, 10, 0x1B69_2710, 0xA8, 0x52, 0xCE, 0x82);
    ZeroAt(p, 12, 0x8B2B_C9D6, 0xE2, 0xAF, 0xB, 0x13);
    ZeroAt(p, 41, 0x5FB2_020D, 0xAB, 0x77, 0x85, 0x3E);
  }

  // The checksum after a first word of zero.
  lemma ChecksumStarts(body: Body)
    requires body[0] == 0
    ensures ChecksumAfter(body, Passes(body, 0), 1) == 0xB7E1_5163 - 0x61C8_8647
  {
    hide Xor, ByteSwap;
    ByteSwapReverses(0, 0, 0, 0);
    XorNothing(0xB7E1_5163);
  }

  // ---------- blank packets ----------

  function BlankPacket(): Packet {
    seq(44, _ => 0)
  }

  // The client encodes with this seed (buffpub.cpp).
  const FIXED_SEED: u32 := 0xFFFF_FFFF

  // A packet is blank only if its seed is zero, so the client never writes one.
  lemma NeverBlank(body: Body, seed: u32)
    requires seed != 0
    ensures Encoded(body, seed) != BlankPacket()
  {
    ByteSwapTwice(seed);
    assert Encoded(body, seed)[43] == ByteSwap(seed);
    assert ByteSwap(0) == 0;
  }

  // ---------- the file header ----------

  type Header = h: seq<u32> | |h| == 8 witness seq(8, _ => 0)

  datatype Count = NoCount | Packets(n: nat)

  predicate IsHeader(words: seq<u32>) {
    |words| >= 1 && words[0] == HEADER_MAGIC
  }

  // moo521_header_count: magic, version and a sane count, or nothing.
  function HeaderCount(h: Header): Count {
    if !IsHeader(h) then NoCount
    else if ByteSwap(h[1]) != VERSION then NoCount
    else if ByteSwap(h[2]) > MAX_COUNT then NoCount
    else Packets(ByteSwap(h[2]))
  }

  function MakeHeader(count: u32): Header {
    [HEADER_MAGIC, ByteSwap(VERSION), ByteSwap(count), 0, 0, 0, 0, 0]
  }

  // A header written for `count` packets reads back as `count` exactly when
  // the count passes the reader's sanity limit.
  // Byte by byte: 83 B6 34 1A, the version 00 00 00 48, and the count with its
  // highest byte first, which has to be zero.
  lemma HeaderBytes(h: Header, c0: int, c1: int, c2: int, c3: int)
    requires 0 <= c0 < 0x100 && 0 <= c1 < 0x100 && 0 <= c2 < 0x100 && 0 <= c3 < 0x100
    requires h[2] == c0 + 0x100 * c1 + 0x1_0000 * c2 + 0x100_0000 * c3
    ensures var count := 0x100_0000 * c0 + 0x1_0000 * c1 + 0x100 * c2 + c3;
      && MakeHeader(count) == [0x1A34_B683, 0x4800_0000, h[2], 0, 0, 0, 0, 0]
      && HeaderCount(h) ==
           if h[0] == 0x83 + 0x100 * 0xB6 + 0x1_0000 * 0x34 + 0x100_0000 * 0x1A && h[1] == 0x100_0000 * 0x48 && c0 == 0
           then Packets(count) else NoCount
  {
    hide ByteSwap;
    ByteSwapReverses(c0, c1, c2, c3);
    ByteSwapReverses(c3, c2, c1, c0);
    ByteSwapReverses(0, 0, 0, 0x48);
    ByteSwapReverses(0x48, 0, 0, 0);
    ByteSwapTwice(h[1]);
  }

  lemma HeaderRoundTrip(count: u32)
    ensures IsHeader(MakeHeader(count))
    ensures HeaderCount(MakeHeader(count)) == Packets(count) <==> count <= MAX_COUNT
    ensures count > MAX_COUNT ==> HeaderCount(MakeHeader(count)) == NoCount
  {
    ByteSwapTwice(count);
    ByteSwapTwice(VERSION);
  }
}
