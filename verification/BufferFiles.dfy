/**
 What one buffer-file operation does to the words of the file (buffpub.cpp):
 the stock format, a whole number of 42-word records, and the Moo format, an
 8-word header followed by 44-word packets.  The loops that compute these
 functions are in BufferDisk; what they mean for the records kept is here.
 */
module BufferFiles {
  import opened Words
  import opened Moo521
  import opened WorkRecords
  import opened Slots

  type File = seq<u32>

  datatype PutOutcome = Put(file: File, count: nat)
  datatype GetOutcome = Got(file: File, data: Record) | NoRecords(file: File) | Broken

  // ---------- the stock format ----------

  function StockSlots(f: File): seq<Record> {
    Chunks(f, 42)
  }

  function HostOrder(slots: seq<Record>): (records: seq<Record>)
    ensures |records| == |slots|
  {
    seq(|slots|, i requires 0 <= i < |slots| => Switched(slots[i]))
  }

  // The records a stock file holds, lowest slot first.
  function StockRecords(f: File): seq<Record> {
    HostOrder(Live(StockSlots(f), Blank()))
  }

  // With a count wanted the scan runs to the end and the last blank slot wins,
  // otherwise it stops at the first one.
  function StockWriteSlot(f: File, wantCount: bool): nat {
    if wantCount then LastBlank(StockSlots(f), Blank()) else FirstBlank(StockSlots(f), Blank())
  }

  // It is blank, or behind all slots if none is; no blank slot follows it if a
  // count is wanted, and none comes before it if not.
  lemma WritesWhere(f: File, wantCount: bool)
    ensures var slots, i := StockSlots(f), StockWriteSlot(f, wantCount);
      && i <= |slots| && (i < |slots| ==> slots[i] == Blank())
      && (i == |slots| ==> Blank() !in slots)
      && (wantCount ==> forall j :: i < j < |slots| ==> slots[j] != Blank())
      && (!wantCount ==> forall j :: 0 <= j < i ==> slots[j] != Blank())
  {
  }

  function StockPut(f: File, r: Record, wantCount: bool): PutOutcome {
    Put(WriteAt(f, 42 * StockWriteSlot(f, wantCount), Switched(r)),
        |Live(StockSlots(f), Blank())| + 1)
  }

  function StockGet(f: File): GetOutcome {
    var slots := StockSlots(f);
    var i := FirstLive(slots, Blank());
    if i == |slots| then NoRecords([])
    else Got(if i + 1 == |slots| then [] else WriteAt(f, 42 * i, Blank()), Switched(slots[i]))
  }

  function Matching(records: seq<Record>, contest: u32): nat {
    if records == [] then 0
    else (if records[0][CONTEST] == contest then 1 else 0) + Matching(records[1..], contest)
  }

  lemma {:induction false} MatchingAll(records: seq<Record>, contest: u32)
    requires forall r :: r in records ==> r[CONTEST] == contest
    ensures Matching(records, contest) == |records|
  {
    if records == [] {
    } else {
      MatchingAll(records[1..], contest);
    }
  }

  function UnitsIn(records: seq<Record>, contest: u32): u32 {
    if records == [] then 0
    else
      var last := |records| - 1;
      var sum := UnitsIn(records[..last], contest);
      if records[last][CONTEST] == contest && records[last][RESULTCODE] <= RESULT_FOUND
      then AddWrap(sum, Units(records[last])) else sum
  }

  // ---------- the Moo format ----------

  function MooCount(f: File): nat {
    if |f| < HEADER_WORDS then 0
    else match HeaderCount(f[..8])
      case NoCount => 0
      case Packets(n) => n
  }

  function MooSlots(f: File): seq<Packet> {
    if |f| < HEADER_WORDS then [] else Chunks(f[8..], 44)
  }

  // The packets the loops can reach: counted by the header and present.
  function Reachable(f: File): (packets: seq<Packet>)
    ensures |packets| <= MooCount(f) && |packets| <= |MooSlots(f)|
  {
    if MooCount(f) <= |MooSlots(f)| then MooSlots(f)[..MooCount(f)] else MooSlots(f)
  }

  function Unpacked(packets: seq<Packet>): (records: seq<Record>)
    ensures |records| == |packets|
  {
    seq(|packets|, i requires 0 <= i < |packets| => MooKept(packets[i]))
  }

  // The records a Moo file holds, lowest packet first.
  function MooRecords(f: File): seq<Record> {
    Unpacked(Live(Reachable(f), BlankPacket()))
  }

  function MooPut(f: File, r: Record): PutOutcome {
    var n := MooCount(f);
    var i := FirstBlank(Reachable(f), BlankPacket());
    if i < |Reachable(f)| then Put(WriteAt(f, 8 + 44 * i, MooImage(r)), n)
    else Put(WriteAt(WriteAt(f, 0, MakeHeader(n + 1)), 8 + 44 * n, MooImage(r)), n + 1)
  }

  function MooGet(f: File): GetOutcome {
    if |f| < HEADER_WORDS then Broken
    else
      var i := FirstLive(Reachable(f), BlankPacket());
      if i < |Reachable(f)| then Got(WriteAt(f, 8 + 44 * i, BlankPacket()), MooRead(Reachable(f)[i]))
      else if |Reachable(f)| < MooCount(f) then Broken
      else NoRecords([])
  }

  // ---------- well-formed files ----------

  predicate StockFile(f: File) {
    |f| % 42 == 0 && !IsHeader(f)
  }

  predicate MooFile(f: File) {
    |f| >= 8 && HeaderCount(f[..8]).Packets? && |f| == 8 + 44 * HeaderCount(f[..8]).n
  }

  predicate Homogeneous(f: File) {
    StockFile(f) || MooFile(f)
  }

  // The records of a file, whatever its format.
  function Records(f: File): seq<Record> {
    if IsHeader(f) then MooRecords(f) else StockRecords(f)
  }

  lemma StockSize(f: File)
    requires |f| % 42 == 0
    ensures |f| == 42 * |StockSlots(f)|
  {
    ChunksSize(f, 42);
  }

  lemma MooSize(f: File)
    requires MooFile(f)
    ensures |MooSlots(f)| == MooCount(f) && Reachable(f) == MooSlots(f)
    ensures |f[8..]| == 44 * |MooSlots(f)|
    ensures MooCount(f) <= MAX_COUNT
    ensures IsHeader(f)
  {
    ChunksSize(f[8..], 44);
  }

  // ---------- stock: one operation on the records ----------

  // What a Put does to the records of a file: one is inserted, the rest stay.
  ghost predicate Adds(before: seq<Record>, r: Record, after: seq<Record>) {
    exists k: nat :: k <= |before| && after == Inserted(before, k, r)
  }

  lemma AddsBag(before: seq<Record>, r: Record, after: seq<Record>)
    requires Adds(before, r, after)
    ensures multiset(after) == multiset(before) + multiset{r}
    ensures |after| == |before| + 1
  {
    var k: nat :| k <= |before| && after == Inserted(before, k, r);
    InsertedBag(before, k, r);
  }

  // The slots after a stock Put: the slot written was blank or is new.
  lemma StockPutSlots(f: File, r: Record, wantCount: bool)
    requires |f| % 42 == 0
    ensures var i, put := StockWriteSlot(f, wantCount), StockPut(f, r, wantCount).file;
      if i < |StockSlots(f)| then
        StockSlots(f)[i] == Blank() && StockSlots(put) == StockSlots(f)[i := Switched(r)] && |put| == |f|
      else
        StockSlots(put) == StockSlots(f) + [Switched(r)] && put == f + Switched(r)
  {
    var i := StockWriteSlot(f, wantCount);
    StockSize(f);
    if i < |StockSlots(f)| {
      ChunkWrite(f, 42, i, Switched(r));
    } else {
      ChunkAppend(f, 42, Switched(r));
      assert WriteAt(f, 42 * i, Switched(r)) == f + Switched(r);
    }
  }

  lemma HostOrderInserted(a: seq<Record>, k: nat, x: Record)
    requires k <= |a|
    ensures HostOrder(Inserted(a, k, x)) == Inserted(HostOrder(a), k, Switched(x))
  {
  }

  // A stock Put adds exactly the record (as it settles) and reports the number
  // of live records afterwards.
  lemma StockPutAdds(f: File, r: Record, wantCount: bool)
    requires |f| % 42 == 0
    ensures var put := StockPut(f, r, wantCount);
      && |put.file| % 42 == 0
      && Adds(StockRecords(f), Settled(r), StockRecords(put.file))
      && put.count == |StockRecords(put.file)|
  {
    hide WriteAt, Switched, Chunks;
    var put := StockPut(f, r, wantCount);
    var i := StockWriteSlot(f, wantCount);
    StockPutSlots(f, r, wantCount);
    StoredNotBlank(r);
    SwitchTwice(r);
    var live := Live(StockSlots(f), Blank());
    var k;
    if i < |StockSlots(f)| {
      k := LiveFill(StockSlots(f), i, Switched(r), Blank());
    } else {
      LiveAppend(StockSlots(f), Switched(r), Blank());
      k := |live|;
    }
    HostOrderInserted(live, k, Switched(r));
    assert StockRecords(put.file) == Inserted(StockRecords(f), k, Settled(r));
  }

  // A stock Get hands out the lowest live record and keeps the rest in order;
  // the file is truncated only when nothing live is left in it.
  lemma StockGetLowest(f: File)
    requires |f| % 42 == 0
    ensures StockGet(f).NoRecords? <==> StockRecords(f) == []
    ensures StockGet(f).Got? ==>
      && |StockGet(f).file| % 42 == 0
      && StockRecords(f) == [StockGet(f).data] + StockRecords(StockGet(f).file)
  {
    hide WriteAt, Switched, Chunks, FirstLive, HostOrder;
    var slots := StockSlots(f);
    var i := FirstLive(slots, Blank());
    StockSize(f);
    NoSlots();
    TakeSlot(slots);
    if i + 1 < |slots| {
      ChunkWrite(f, 42, i, Blank());
    }
  }

  lemma NoSlots()
    ensures StockSlots([]) == [] && StockRecords([]) == []
  {
  }

  // The records in some slots, the first live slot apart.
  lemma TakeSlot(slots: seq<Record>)
    ensures var i := FirstLive(slots, Blank());
      if i == |slots| then HostOrder(Live(slots, Blank())) == []
      else
        && HostOrder(Live(slots, Blank())) == [Switched(slots[i])] + HostOrder(Live(slots[i := Blank()], Blank()))
        && (i + 1 == |slots| ==> HostOrder(Live(slots[i := Blank()], Blank())) == [])
  {
    hide Switched;
    var i := FirstLive(slots, Blank());
    if i == |slots| {
      NoneLive(slots, Blank());
    } else {
      LiveTake(slots, Blank());
      HostOrderTail(slots[i], Live(slots[i := Blank()], Blank()));
    }
  }

  lemma HostOrderTail(x: Record, rest: seq<Record>)
    ensures HostOrder([x] + rest) == [Switched(x)] + HostOrder(rest)
  {
    hide Switched;
  }

  // Every live slot a stock Put finds is still there afterwards.
  lemma StockPutOverwritesNothing(f: File, r: Record, wantCount: bool, j: nat)
    requires |f| % 42 == 0 && j < |StockSlots(f)| && StockSlots(f)[j] != Blank()
    ensures j < |StockSlots(StockPut(f, r, wantCount).file)|
    ensures StockSlots(StockPut(f, r, wantCount).file)[j] == StockSlots(f)[j]
  {
    StockPutSlots(f, r, wantCount);
  }

  // ---------- Moo: one operation on the packets ----------

  // Overwriting packet i of a Moo file changes that packet and nothing else.
  lemma MooWriteSlot(f: File, i: nat, p: Packet)
    requires MooFile(f) && i < |MooSlots(f)|
    ensures var file := WriteAt(f, 8 + 44 * i, p);
      && file[..8] == f[..8] && |file| == |f| && MooFile(file)
      && MooSlots(file) == MooSlots(f)[i := p]
  {
    MooSize(f);
    ChunkWrite(f[8..], 44, i, p);
    assert f == f[..8] + f[8..];
    WriteAfterPrefix(f[..8], f[8..], 44 * i, p);
    var file := WriteAt(f, 8 + 44 * i, p);
    assert file[..8] == f[..8] && file[8..] == WriteAt(f[8..], 44 * i, p);
  }

  lemma MooAppendSlot(f: File, hdr: Header, p: Packet)
    requires MooFile(f)
    ensures var file := WriteAt(WriteAt(f, 0, hdr), |f|, p);
      && file[..8] == hdr && |file| == |f| + 44
      && MooSlots(file) == MooSlots(f) + [p]
  {
    MooSize(f);
    assert WriteAt(f, 0, hdr) == hdr + f[8..];
    var file := WriteAt(WriteAt(f, 0, hdr), |f|, p);
    assert file == hdr + f[8..] + p;
    assert file[8..] == f[8..] + p;
    ChunkAppend(f[8..], 44, p);
  }

  lemma MooPutSlots(f: File, r: Record)
    requires MooFile(f)
    ensures var i, put := FirstBlank(MooSlots(f), BlankPacket()), MooPut(f, r);
      if i < |MooSlots(f)| then
        && put.file[..8] == f[..8] && |put.file| == |f| && put.count == MooCount(f)
        && MooSlots(put.file) == MooSlots(f)[i := MooImage(r)]
      else
        && put.file[..8] == MakeHeader(MooCount(f) + 1) && |put.file| == |f| + 44
        && put.count == MooCount(f) + 1
        && MooSlots(put.file) == MooSlots(f) + [MooImage(r)]
  {
    MooSize(f);
    var i := FirstBlank(MooSlots(f), BlankPacket());
    if i < |MooSlots(f)| {
      MooWriteSlot(f, i, MooImage(r));
    } else {
      MooAppendSlot(f, MakeHeader(MooCount(f) + 1), MooImage(r));
    }
  }

  lemma MooPutFresh(r: Record)
    ensures MooPut([], r) == Put(MakeHeader(1) + MooImage(r), 1)
    ensures MooFile(MooPut([], r).file)
    ensures MooSlots(MooPut([], r).file) == [MooImage(r)]
  {
    hide MooImage, MakeHeader, HeaderCount, FirstBlank;
    var put := MooPut([], r);
    HeaderRoundTrip(1);
    assert WriteAt([], 0, MakeHeader(1)) == MakeHeader(1);
    assert put.file == MakeHeader(1) + MooImage(r);
    assert put.file[..8] == MakeHeader(1) && put.file[8..] == MooImage(r);
    OneChunk(MooImage(r), 44);
  }

  lemma UnpackedInserted(a: seq<Packet>, k: nat, p: Packet)
    requires k <= |a|
    ensures Unpacked(Inserted(a, k, p)) == Inserted(Unpacked(a), k, MooKept(p))
  {
  }

  // A file that has room for one more packet: a blank one, or a count below
  // the reader's limit.
  predicate MooRoom(f: File) {
    FirstBlank(MooSlots(f), BlankPacket()) < |MooSlots(f)| || MooCount(f) < MAX_COUNT
  }

  // A Put into a Moo file, or into an empty file in Moo mode, leaves a Moo file
  // exactly when there was room; then it adds exactly the record's packet.
  lemma MooPutAdds(f: File, r: Record)
    requires MooFile(f) || f == []
    ensures MooFile(MooPut(f, r).file) <==> MooRoom(f)
    ensures MooRoom(f) ==> Adds(MooRecords(f), MooKept(MooImage(r)), MooRecords(MooPut(f, r).file))
    ensures MooRoom(f) ==> MooPut(f, r).count == MooCount(MooPut(f, r).file)
  {
    var put := MooPut(f, r);
    if f == [] {
      MooPutFresh(r);
      MooSize(put.file);
      MooPutLive([], [MooImage(r)], 0, MooImage(r));
    } else {
      MooSize(f);
      MooPutSlots(f, r);
      HeaderRoundTrip(MooCount(f) + 1);
      if MooRoom(f) {
        MooSize(put.file);
        MooPutLive(MooSlots(f), MooSlots(put.file), FirstBlank(MooSlots(f), BlankPacket()), MooImage(r));
      }
    }
    MooImageNotBlank(r);
  }

  lemma MooPutLive(before: seq<Packet>, after: seq<Packet>, i: nat, p: Packet)
    requires i < |before| ==> before[i] == BlankPacket() && after == before[i := p]
    requires i >= |before| ==> after == before + [p]
    ensures p != BlankPacket() ==>
      Adds(Unpacked(Live(before, BlankPacket())), MooKept(p), Unpacked(Live(after, BlankPacket())))
  {
    if p != BlankPacket() {
      var live := Live(before, BlankPacket());
      var k := |live|;
      if i < |before| {
        k := LiveFill(before, i, p, BlankPacket());
      } else {
        LiveAppend(before, p, BlankPacket());
      }
      UnpackedInserted(live, k, p);
    }
  }

  lemma UnpackedTail(packets: seq<Packet>, p: Packet, rest: seq<Packet>)
    requires packets == [p] + rest
    ensures Unpacked(packets) == [MooKept(p)] + Unpacked(rest)
  {
  }

  // A Moo Get hands out the lowest live packet as unfinished work and keeps
  // the rest, their order, and the format.
  lemma MooGetLowest(f: File)
    requires MooFile(f)
    ensures MooGet(f).NoRecords? <==> MooRecords(f) == []
    ensures !MooGet(f).Broken?
    ensures MooGet(f).Got? ==>
      && MooFile(MooGet(f).file) && MooCount(MooGet(f).file) == MooCount(f)
      && MooRecords(f) != [] && MooGet(f).data == Forced(MooRecords(f)[0])
      && MooRecords(f) == [MooRecords(f)[0]] + MooRecords(MooGet(f).file)
  {
    MooSize(f);
    var i := FirstLive(MooSlots(f), BlankPacket());
    if i == |MooSlots(f)| {
      NoneLive(MooSlots(f), BlankPacket());
    } else {
      var file := MooGet(f).file;
      MooWriteSlot(f, i, BlankPacket());
      LiveTake(MooSlots(f), BlankPacket());
      MooSize(file);
      UnpackedTail(Live(MooSlots(f), BlankPacket()), MooSlots(f)[i], Live(MooSlots(file), BlankPacket()));
    }
  }

  // Blank packets wait to be filled; only when there is none does the count grow.
  function Blanks(f: File): nat {
    if IsHeader(f) && |MooRecords(f)| <= MooCount(f) then MooCount(f) - |MooRecords(f)| else 0
  }

  lemma {:induction false} FirstBlankMeansRoom<S>(slots: seq<S>, blank: S)
    ensures FirstBlank(slots, blank) < |slots| <==> |Live(slots, blank)| < |slots|
  {
    LiveMembers(slots, blank);
    if slots == [] {
    } else {
      FirstBlankMeansRoom(slots[1..], blank);
      LiveMembers(slots[1..], blank);
    }
  }

  lemma MooPutCount(f: File, r: Record)
    requires (MooFile(f) || f == []) && MooRoom(f)
    ensures Blanks(f) > 0 ==>
      MooPut(f, r).count == MooCount(f) && Blanks(MooPut(f, r).file) == Blanks(f) - 1
    ensures Blanks(f) == 0 ==>
      MooPut(f, r).count == MooCount(f) + 1 && Blanks(MooPut(f, r).file) == 0
    ensures MooCount(MooPut(f, r).file) == MooPut(f, r).count
  {
    hide MooImage, MooKept, MakeHeader, WriteAt;
    MooPutAdds(f, r);
    AddsBag(MooRecords(f), MooKept(MooImage(r)), MooRecords(MooPut(f, r).file));
    if f != [] {
      MooSize(f);
      FirstBlankMeansRoom(MooSlots(f), BlankPacket());
    }
    MooSize(MooPut(f, r).file);
    FirstBlankMeansRoom(MooSlots(MooPut(f, r).file), BlankPacket());
  }

  lemma MooGetBlanks(f: File)
    requires MooFile(f) && MooGet(f).Got?
    ensures Blanks(MooGet(f).file) == Blanks(f) + 1
  {
    hide MooKept, WriteAt;
    MooGetLowest(f);
    MooSize(f);
    MooSize(MooGet(f).file);
    LiveMembers(MooSlots(f), BlankPacket());
  }

  // ---------- format homogeneity ----------

  // A file in Moo mode is one that starts with the magic, or an empty one once
  // a Moo file has been seen.
  predicate UsesMoo(mode: bool, f: File) {
    IsHeader(f) || (mode && f == [])
  }

  function PutFile(mode: bool, f: File, r: Record, wantCount: bool): PutOutcome {
    if UsesMoo(mode, f) then MooPut(f, r) else StockPut(f, r, wantCount)
  }

  function GetFile(f: File): GetOutcome {
    if IsHeader(f) then MooGet(f) else StockGet(f)
  }

  lemma NoRecordsIsEmpty(f: File)
    ensures GetFile(f).NoRecords? ==> GetFile(f).file == []
    ensures StockGet(f).Got? || StockGet(f).NoRecords?
  {
  }

  // When a Put keeps the format: a Moo file must have room, and a stock record
  // that becomes the first of its file must not look like a Moo header.
  predicate PutKeepsFormat(mode: bool, f: File, r: Record, wantCount: bool) {
    if UsesMoo(mode, f) then MooRoom(f)
    else StockWriteSlot(f, wantCount) == 0 ==> !IsHeader(Switched(r))
  }

  lemma MooIsNotStock(f: File)
    requires MooFile(f)
    ensures IsHeader(f) && !StockFile(f) && f != []
  {
  }

  // A Put never mixes formats, exactly under that guard: a stock file stays
  // stock, a Moo file stays Moo, an empty one becomes Moo in Moo mode.
  lemma PutHomogeneous(mode: bool, f: File, r: Record, wantCount: bool)
    requires Homogeneous(f)
    ensures var put := PutFile(mode, f, r, wantCount).file;
      PutKeepsFormat(mode, f, r, wantCount) <==> if UsesMoo(mode, f) then MooFile(put) else StockFile(put)
  {
    if UsesMoo(mode, f) {
      MooPutAdds(f, r);
    } else {
      StockPutFirstWord(f, r, wantCount);
    }
  }

  lemma StockPutFirstWord(f: File, r: Record, wantCount: bool)
    requires StockFile(f)
    ensures var put := StockPut(f, r, wantCount).file;
      && |put| % 42 == 0 && |put| > 0
      && (IsHeader(put) <==> StockWriteSlot(f, wantCount) == 0 && IsHeader(Switched(r)))
  {
    var put := StockPut(f, r, wantCount).file;
    StockSize(f);
    StockPutSlots(f, r, wantCount);
    StockSize(put);
    ChunkAt(put, 42, 0);
    assert put[0] == StockSlots(put)[0][0];
    if |f| > 0 {
      ChunkAt(f, 42, 0);
      assert f[0] == StockSlots(f)[0][0];
    }
  }

  // A Get keeps the format or truncates a file that has nothing live left.
  lemma GetHomogeneous(f: File)
    requires Homogeneous(f)
    ensures match GetFile(f)
      case Got(file, _) => (MooFile(f) ==> MooFile(file)) && (StockFile(f) ==> StockFile(file))
      case NoRecords(file) => file == [] && Records(f) == []
      case Broken => false
  {
    if IsHeader(f) {
      MooGetLowest(f);
    } else {
      StockGetLowest(f);
      StockSize(f);
      var i := FirstLive(StockSlots(f), Blank());
      if i + 1 < |StockSlots(f)| {
        ChunkWrite(f, 42, i, Blank());
        ChunkAt(f, 42, 0);
        assert f[0] == StockSlots(f)[0][0];
        if i == 0 {
          assert WriteAt(f, 0, Blank())[0] == 0;
        }
      }
    }
  }

  // The Moo reader trusts the header: it truncates a file that has live packets
  // exactly if the header counts none of them.
  lemma TruncatesLiveExactly(f: File)
    requires IsHeader(f) && |f| >= 8
    ensures var live := FirstLive(MooSlots(f), BlankPacket()) < |MooSlots(f)|;
      live && GetFile(f) == NoRecords([]) <==> live && MooCount(f) <= FirstLive(MooSlots(f), BlankPacket())
  {
    var slots, n := MooSlots(f), MooCount(f);
    var first, i := FirstLive(slots, BlankPacket()), FirstLive(Reachable(f), BlankPacket());
    assert i < |Reachable(f)| ==> Reachable(f)[i] == slots[i];
    assert first < |Reachable(f)| ==> Reachable(f)[first] == slots[first];
  }

  // A header with a bad version or count counts no packet at all.
  lemma BadHeaderLosesPackets(f: File)
    requires IsHeader(f) && |f| >= 8 && HeaderCount(f[..8]) == NoCount
    ensures GetFile(f) == NoRecords([])
  {
  }

  // One packet past the limit is enough to bring that about: a Put without room
  // still succeeds, and the next Get throws the whole file away.
  lemma PutWithoutRoom(f: File, r: Record)
    requires MooFile(f) && !MooRoom(f)
    ensures |MooSlots(MooPut(f, r).file)| == MAX_COUNT + 1
    ensures GetFile(MooPut(f, r).file) == NoRecords([])
  {
    MooSize(f);
    MooPutSlots(f, r);
    HeaderRoundTrip(MooCount(f) + 1);
    var put := MooPut(f, r).file;
    assert put[0] == put[..8][0];
    BadHeaderLosesPackets(put);
  }
}
