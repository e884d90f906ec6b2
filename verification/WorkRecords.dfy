/**
 Work records and their on-disk images (problem.h, buffpub.cpp).  A record is
 the 42 words that memcpy and memcmp see; the CUDA build supports one contest,
 RC5-72.
 */
module WorkRecords {
  import opened Words
  import opened Moo521

  type Record = Body

  // Word offsets inside a record.
  const WORK_WORDS := 20
  const ITERATIONS_HI := 11
  const RESULTCODE := 20
  const ID_LAST := 36
  const CONTEST := 37

  const RC5_72: u32 := 5
  const UNHANDLED: u32 := 0xFF
  const CONTEST_COUNT := 7

  const RESULT_WORKING: u32 := 0
  const RESULT_FOUND: u32 := 2

  function Blank(): Record {
    seq(42, _ => 0)
  }

  // The worker id ends in a zero byte.
  predicate Terminated(r: Record) {
    r[ID_LAST] < 0x100_0000
  }

  function Terminate(r: Record): (t: Record)
    ensures Terminated(t)
  {
    r[ID_LAST := r[ID_LAST] % 0x100_0000]
  }

  // __switch_byte_order, either direction.
  function Switched(r: Record): Record {
    var t := Terminate(r);
    if t[CONTEST] == RC5_72
    then seq(42, i requires 0 <= i < 42 => if i < WORK_WORDS then ByteSwap(t[i]) else t[i])
    else t[CONTEST := UNHANDLED]
  }

  // What survives being written and read back: the id terminator is forced and
  // every contest the build does not handle becomes 0xff.
  function Settled(r: Record): Record {
    Terminate(r)[CONTEST := if r[CONTEST] == RC5_72 then RC5_72 else UNHANDLED]
  }

  // A record this build can keep: an RC5-72 record with a terminated id.
  predicate Keepable(r: Record) {
    Terminated(r) && r[CONTEST] == RC5_72
  }

  method SwitchByteOrder(dest: array<u32>, source: array<u32>)
    requires dest.Length == 42 && source.Length == 42
    modifies dest
    ensures dest[..] == Switched(old(source[..]))
  {
    ghost var original: Record := source[..];
    if dest != source {
      var n := 0;
      while n < 42
        invariant 0 <= n <= 42
        invariant source[..] == original
        invariant dest[..n] == original[..n]
      {
        dest[n] := source[n];
        n := n + 1;
      }
    }
    assert dest[..] == original;
    dest[ID_LAST] := dest[ID_LAST] % 0x100_0000;
    ghost var t := Terminate(original);
    assert dest[..] == t;
    if dest[CONTEST] == RC5_72 {
      var i := 0;
      while i < WORK_WORDS
        invariant 0 <= i <= WORK_WORDS
        invariant forall j :: 0 <= j < i ==> dest[j] == ByteSwap(t[j])
        invariant forall j :: i <= j < 42 ==> dest[j] == t[j]
      {
        dest[i] := ByteSwap(dest[i]);
        i := i + 1;
      }
      assert forall j :: 0 <= j < 42 ==> dest[j] == Switched(original)[j];
    } else {
      dest[CONTEST] := UNHANDLED;
    }
  }

  // ---------- the stock image ----------

  lemma SwitchTwice(r: Record)
    ensures Switched(Switched(r)) == Settled(r)
  {
    var s := Switched(r);
    if r[CONTEST] == RC5_72 {
      forall i | 0 <= i < WORK_WORDS
        ensures Switched(s)[i] == r[i]
      {
        ByteSwapTwice(r[i]);
      }
    }
  }

  // Exactly the records that come back unchanged from a stock file.
  lemma StockRoundTrip(r: Record)
    ensures Switched(Switched(r)) == r <==> Terminated(r) && (r[CONTEST] == RC5_72 || r[CONTEST] == UNHANDLED)
  {
    SwitchTwice(r);
    if Settled(r) == r {
      assert Settled(r)[ID_LAST] == r[ID_LAST] % 0x100_0000;
      assert Settled(r)[CONTEST] == r[CONTEST];
    }
    if Terminated(r) && (r[CONTEST] == RC5_72 || r[CONTEST] == UNHANDLED) {
      assert Settled(r) == r;
    }
  }

  // Byte by byte: the twenty words of the work are stored with their bytes
  // reversed, the others as they are but for the end of the id.
  lemma StoredBytes(r: Record, i: nat, b0: int, b1: int, b2: int, b3: int)
    requires r[37] == 5 && i < 42
    requires 0 <= b0 < 0x100 && 0 <= b1 < 0x100 && 0 <= b2 < 0x100 && 0 <= b3 < 0x100
    requires r[i] == b0 + 0x100 * b1 + 0x1_0000 * b2 + 0x100_0000 * b3
    ensures Switched(r)[i] ==
      if i < 20 then b3 + 0x100 * b2 + 0x1_0000 * b1 + 0x100_0000 * b0
      else if i == 36 then b0 + 0x100 * b1 + 0x1_0000 * b2
      else r[i]
  {
    hide ByteSwap;
    ByteSwapReverses(b0, b1, b2, b3);
    TopByte(b0 + 0x100 * b1 + 0x1_0000 * b2, b3);
  }

  lemma TopByte(low: nat, b: nat)
    requires low < 0x100_0000
    ensures (low + 0x100_0000 * b) % 0x100_0000 == low
  {
  }

  // No record is stored as a blank slot.
  lemma StoredNotBlank(r: Record)
    ensures Switched(r) != Blank()
  {
    assert Switched(r)[CONTEST] != Blank()[CONTEST];
  }

  // A 72-bit key has eight bits in its first word, so the image of an RC5-72
  // record with a real key never starts with the Moo magic.
  lemma RealKeyIsNoMagic(r: Record)
    requires r[CONTEST] == RC5_72 && r[0] < 0x100
    ensures !IsHeader(Switched(r))
  {
    assert ByteSwap(r[0]) == r[0] * 0x100_0000;
  }

  // ---------- the Moo image ----------

  function MooImage(r: Record): Packet {
    Encoded(Switched(r), FIXED_SEED)
  }

  // The record a packet holds, in host order and as an RC5-72 record.
  function MooKept(p: Packet): Record {
    Switched(Decoded(p)[CONTEST := RC5_72])
  }

  // What the reader hands out: the result code is forced.
  function Forced(r: Record): Record {
    r[RESULTCODE := RESULT_WORKING]
  }

  function MooRead(p: Packet): Record {
    Forced(MooKept(p))
  }

  lemma MooKeepsRecord(r: Record)
    requires r[CONTEST] == RC5_72
    ensures MooKept(MooImage(r)) == Terminate(r)
  {
    DecodeEncode(Switched(r), FIXED_SEED);
    assert Switched(r)[CONTEST := RC5_72] == Switched(r);
    SwitchTwice(r);
  }

  // Whatever the packet, the reader hands out unfinished RC5-72 work.
  lemma MooReadShape(p: Packet)
    ensures Keepable(MooRead(p)) && MooRead(p)[RESULTCODE] == RESULT_WORKING
    ensures Keepable(MooKept(p))
  {
    assert Decoded(p)[CONTEST := RC5_72][CONTEST] == RC5_72;
  }

  lemma MooReadBack(r: Record)
    requires r[CONTEST] == RC5_72
    ensures MooRead(MooImage(r)) == Forced(Terminate(r))
  {
    MooKeepsRecord(r);
  }

  lemma SettledWork(r: Record)
    requires Keepable(r) && r[RESULTCODE] == RESULT_WORKING
    ensures Forced(Terminate(r)) == r
  {
  }

  // A packet hands back the record that was written exactly when it was
  // unfinished RC5-72 work with a terminated id: results lose their result
  // code, and records of other contests come back as RC5-72.
  lemma MooRoundTrip(r: Record)
    ensures MooRead(MooImage(r)) == r <==> Keepable(r) && r[RESULTCODE] == RESULT_WORKING
  {
    if Keepable(r) && r[RESULTCODE] == RESULT_WORKING {
      MooReadBack(r);
      SettledWork(r);
    } else if MooRead(MooImage(r)) == r {
      MooReadShape(MooImage(r));
      assert false;
    }
  }

  lemma MooImageNotBlank(r: Record)
    ensures MooImage(r) != BlankPacket() && MooImage(r)[43] == 0xFFFF_FFFF
  {
    NeverBlank(Switched(r), FIXED_SEED);
    hide ByteSwap;
    ByteSwapReverses(0xFF, 0xFF, 0xFF, 0xFF);
  }

  // WorkGetSWUCount for RC5-72: a hundredth of a unit per 2^32 keys.
  function Units(r: Record): u32 {
    100 * r[ITERATIONS_HI] % TWO32
  }

  // So it is by the 64 bits of the number of keys, in words 11 and 12.
  lemma UnitsOfKeys(r: Record, keys: nat)
    requires keys == (r[11] as int) * 0x1_0000_0000 + r[12]
    ensures Units(r) == 100 * (keys / 0x1_0000_0000) % 0x1_0000_0000
  {
  }
}
