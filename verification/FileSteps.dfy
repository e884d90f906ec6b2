/**
 One Get or one Put on a buffer file (buffpub.cpp) as its callers see it: what
 the return code, the record and the count say about the file before and after,
 whichever format it has and whether or not an I/O error occurred.
 */
module FileSteps {
  import opened Words
  import opened Moo521
  import opened WorkRecords
  import opened Slots
  import opened BufferFiles
  import opened BufferDisk
  import opened BufferRuns
  import opened Routing

  // A file that BufferGetFileRecord will read, if the remote flag does not
  // forbid it.
  predicate Openable(f: File) {
    IsHeader(f) || |f| % 42 == 0
  }

  // Stock files are refused as remote buffers.
  predicate Refused(refuses: bool, remote: bool, f: File) {
    remote && refuses && !IsHeader(f)
  }

  // ---------- taking a record ----------

  // BufferGetFileRecord turned file f into g.
  ghost predicate FileGot(refused: bool, f: File, rc: int, data: Record, count: nat, g: File, faulty: bool) {
    && -1 <= rc <= 1
    && (rc >= 0 ==> Openable(f) && !refused)
    && (rc == 0 ==> GetFile(f).Got? && data == GetFile(f).data && g == GetFile(f).file)
    && (rc == 0 ==> count == if faulty then 0 else Matching(Records(g), data[CONTEST]))
    && (rc == 1 ==> if faulty then IsHeader(f) && g == f else GetFile(f).NoRecords? && g == [])
    && (rc == -1 ==> g == f && (faulty || refused || !Openable(f) || GetFile(f).Broken?))
    && (rc != 0 ==> count == 0)
  }

  // After a stock Get the first slot is free, if there is one.
  predicate FrontFree(f: File) {
    f == [] || (|f| >= 42 && f[..42] == Blank())
  }

  // What that means for the readers of the file.
  ghost predicate FileTook(refused: bool, f: File, rc: int, data: Record, count: nat, g: File, faulty: bool) {
    && -1 <= rc <= 1
    && (rc == 0 ==>
          && Readable(f) == [data] + Readable(g)
          && Terminated(data) && (Routable(data) ==> Keepable(data)) && (Keepable(data) || data[CONTEST] == UNHANDLED)
          && (IsHeader(f) <==> IsHeader(g))
          && (IsHeader(f) ==> Keepable(data) && data[RESULTCODE] == RESULT_WORKING)
          && (!IsHeader(f) ==> FrontFree(g))
          && count == if faulty then 0 else Matching(Readable(g), data[CONTEST]))
    && (rc == 1 ==> if faulty then IsHeader(f) && g == f else Readable(f) == [] && g == [])
    && (rc >= 0 ==> !refused)
    && (rc == -1 ==> g == f && (Homogeneous(f) && !faulty ==> refused))
    && (rc != 0 ==> count == 0)
    && (Homogeneous(f) ==> Homogeneous(g))
    && MooCount(g) <= MooCount(f)
  }

  // Blanking the lowest packet a Get can reach takes the first record, whatever
  // the length of the file.
  lemma MooGetTail(f: File)
    requires IsHeader(f) && MooGet(f).Got?
    ensures var g := MooGet(f).file;
      && IsHeader(g) && MooCount(g) == MooCount(f)
      && Readable(f) == [MooGet(f).data] + Readable(g)
  {
    hide MooImage, MooKept, Live, Chunks, WriteAt;
    var i := FirstLive(Reachable(f), BlankPacket());
    ChunkWrite(f[8..], 44, i, BlankPacket());
    assert f == f[..8] + f[8..];
    var g := MooGet(f).file;
    WriteAfterPrefix(f[..8], f[8..], 44 * i, BlankPacket());
    assert g[..8] == f[..8] && g[8..] == WriteAt(f[8..], 44 * i, BlankPacket());
    assert g[0] == g[..8][0] == f[0];
    assert Reachable(g) == Reachable(f)[i := BlankPacket()];
    LiveTake(Reachable(f), BlankPacket());
    UnpackedTail(Live(Reachable(f), BlankPacket()), Reachable(f)[i], Live(Reachable(g), BlankPacket()));
    ForcedTail(MooRecords(f), MooKept(Reachable(f)[i]), MooRecords(g));
  }

  lemma MooGetNone(f: File)
    requires IsHeader(f) && MooGet(f).NoRecords?
    ensures Readable(f) == []
  {
    NoneLive(Reachable(f), BlankPacket());
  }

  lemma StockGetFrontFree(f: File)
    requires |f| % 42 == 0 && StockGet(f).Got?
    ensures FrontFree(StockGet(f).file)
  {
    hide WriteAt, Switched;
    StockSize(f);
    var slots, g := StockSlots(f), StockGet(f).file;
    var i := FirstLive(slots, Blank());
    if i + 1 < |slots| {
      ChunkWrite(f, 42, i, Blank());
      ChunkAt(g, 42, 0);
    }
  }

  lemma TookFrom(f: File)
    requires Openable(f)
    ensures match GetFile(f)
      case Got(g, data) => Readable(f) == [data] + Readable(g) && (IsHeader(f) <==> IsHeader(g))
          && MooCount(g) <= MooCount(f)
      case NoRecords(g) => Readable(f) == [] && g == []
      case Broken => IsHeader(f)
  {
    hide MooGet, StockGet, StockRecords, MooRecords, MooCount;
    EmptyIsHomogeneous();
    if IsHeader(f) {
      if MooGet(f).Got? {
        MooGetTail(f);
      } else if MooGet(f).NoRecords? {
        MooGetNone(f);
      }
      NoRecordsIsEmpty(f);
    } else {
      StockGetLowest(f);
      NoRecordsIsEmpty(f);
      if StockGet(f).Got? {
        StockGetNoHeader(f);
        GetCount(f);
      }
    }
  }

  // A file hands out terminated records that are RC5-72 or unhandled; so one
  // that can be routed at all can also be kept.
  lemma GotShape(f: File)
    requires GetFile(f).Got?
    ensures var data := GetFile(f).data;
      && Terminated(data) && (Keepable(data) || data[CONTEST] == UNHANDLED)
      && (Routable(data) ==> Keepable(data))
      && (IsHeader(f) ==> Keepable(data) && data[RESULTCODE] == RESULT_WORKING)
  {
    if IsHeader(f) {
      MooReadShape(Reachable(f)[FirstLive(Reachable(f), BlankPacket())]);
    }
  }

  // And so is everything a reader can get from it.
  lemma ReadableShape(f: File, r: Record)
    requires r in Readable(f)
    ensures Routable(r) ==> Keepable(r)
    ensures IsHeader(f) ==> Keepable(r) && r[RESULTCODE] == RESULT_WORKING
  {
    if IsHeader(f) {
      var live := Live(Reachable(f), BlankPacket());
      var k: nat :| k < |MooRecords(f)| && Forced(MooRecords(f)[k]) == r;
      MooReadShape(live[k]);
    } else {
      var k: nat :| k < |StockRecords(f)| && StockRecords(f)[k] == r;
    }
  }

  lemma GotMeansTook(refused: bool, f: File, rc: int, data: Record, count: nat, g: File, faulty: bool)
    requires FileGot(refused, f, rc, data, count, g, faulty)
    ensures FileTook(refused, f, rc, data, count, g, faulty)
  {
    hide GetFile, Readable, Records, Matching, MooCount, FrontFree, IsHeader, Homogeneous, Routable, Keepable;
    EmptyIsHomogeneous();
    if Homogeneous(f) {
      HomogeneousOpens(f);
      GetHomogeneousShort(f);
    }
    if rc >= 0 {
      TookFrom(f);
      EmptyCounts();
    }
    if rc == 0 {
      GotShape(f);
      MatchingReadable(g, data[CONTEST]);
      GotFrontFree(f);
    }
  }

  lemma EmptyCounts()
    ensures MooCount([]) == 0
  {
  }

  lemma HomogeneousOpens(f: File)
    requires Homogeneous(f)
    ensures Openable(f)
  {
  }

  lemma GetHomogeneousShort(f: File)
    requires Homogeneous(f)
    ensures !GetFile(f).Broken?
    ensures GetFile(f).Got? ==> Homogeneous(GetFile(f).file)
  {
    GetReadable(f);
  }

  lemma GotFrontFree(f: File)
    requires Openable(f) && GetFile(f).Got?
    ensures !IsHeader(f) ==> FrontFree(GetFile(f).file)
  {
    hide StockGet, MooGet;
    if !IsHeader(f) {
      StockGetFrontFree(f);
    }
  }

  lemma {:induction false} MatchingForced(records: seq<Record>, contest: u32)
    ensures Matching(ForcedAll(records), contest) == Matching(records, contest)
  {
    if records == [] {
    } else {
      MatchingForced(records[1..], contest);
      assert ForcedAll(records)[1..] == ForcedAll(records[1..]);
    }
  }

  lemma MatchingReadable(f: File, contest: u32)
    ensures Matching(Readable(f), contest) == Matching(Records(f), contest)
  {
    MatchingForced(MooRecords(f), contest);
  }

  // ---------- putting a record ----------

  // BufferPutFileRecord turned file f into g; the flag already knows of f.
  ghost predicate FilePut(refused: bool, mode: bool, f: File, r: Record, w: bool, rc: int, count: nat, g: File,
                          faulty: bool) {
    && (rc == 0 || rc == -1)
    && (rc == 0 ==>
          && !faulty && Accepts(refused, mode, f)
          && g == PutFile(mode, f, r, w).file
          && (w ==> count == PutFile(mode, f, r, w).count))
    && (rc == -1 ==> g == f && (faulty || !Accepts(refused, mode, f)))
  }

  predicate Accepts(refused: bool, mode: bool, f: File) {
    UsesMoo(mode, f) || (!refused && |f| % 42 == 0)
  }

  // Putting r keeps the format of the file, and r itself but for the result
  // that a Moo file forgets.
  ghost predicate Suits(mode: bool, f: File, r: Record, w: bool) {
    && PutKeepsFormat(mode, f, r, w)
    && (LandsAs(mode, f, r) == r || LandsAs(mode, f, r) == Forced(r))
  }

  // What was lost of r by landing in f.
  function Forgets(mode: bool, f: File, r: Record): seq<Record> {
    ForgottenIn(r, LandsAs(mode, f, r))
  }

  // A record of this build lands as it is or, in a Moo file, as unfinished work.
  lemma KeepableLands(mode: bool, f: File, r: Record)
    requires Keepable(r)
    ensures LandsAs(mode, f, r) == if UsesMoo(mode, f) then Forced(r) else r
    ensures Forgets(mode, f, r) == if UsesMoo(mode, f) && r[RESULTCODE] != RESULT_WORKING then [r] else []
  {
    hide MooRead, MooImage;
    MooReadBack(r);
    assert Terminate(r) == r;
    assert Settled(r) == r;
    assert r[RESULTCODE] == RESULT_WORKING ==> Forced(r) == r;
    assert Forced(r)[RESULTCODE] == RESULT_WORKING;
  }

  lemma HeaderStays(f: File, r: Record)
    requires IsHeader(f) || f == []
    ensures IsHeader(MooPut(f, r).file)
  {
    hide MooImage, Chunks, FirstBlank;
    if IsHeader(f) {
      var i := FirstBlank(Reachable(f), BlankPacket());
      assert MakeHeader(MooCount(f) + 1)[0] == HEADER_MAGIC;
      if i < |Reachable(f)| {
        ChunksSize(f[8..], 44);
        assert MooPut(f, r).file[0] == f[0];
      }
    } else {
      MooPutFresh(r);
    }
  }

  // A successful Put that suits the file.
  lemma PutGains(mode: bool, f: File, r: Record, w: bool)
    requires Homogeneous(f) && Suits(mode, f, r, w)
    ensures var g := PutFile(mode, f, r, w).file;
      && Homogeneous(g) && Adds(Readable(f), LandsAs(mode, f, r), Readable(g))
      && (IsHeader(g) <==> UsesMoo(mode, f)) && g != []
      && MooCount(g) <= MooCount(f) + 1
  {
    hide PutFile, Homogeneous, LandsAs, PutKeepsFormat, MooCount, Readable;
    PutFileReadable(mode, f, r, w);
    PutCount(mode, f, r, w);
    PutFormat(mode, f, r, w);
  }

  lemma PutFormat(mode: bool, f: File, r: Record, w: bool)
    requires Homogeneous(f) && PutKeepsFormat(mode, f, r, w)
    ensures var g := PutFile(mode, f, r, w).file;
      (IsHeader(g) <==> UsesMoo(mode, f)) && g != []
  {
    hide MooPut, StockPut, MooRoom;
    if UsesMoo(mode, f) {
      HeaderStays(f, r);
    } else {
      StockPutFirstWord(f, r, w);
    }
  }

  // A record put into a file of either format is among its records with its
  // result, whatever a reader will make of it.
  lemma Delivered(mode: bool, f: File, r: Record, w: bool)
    requires Homogeneous(f) && r[CONTEST] == RC5_72 && PutKeepsFormat(mode, f, r, w)
    ensures var g := PutFile(mode, f, r, w).file;
      Homogeneous(g) && Adds(Records(f), Terminate(r), Records(g)) && (IsHeader(f) ==> IsHeader(g))
  {
    hide MooPut, StockPut, MooKept, MooImage, MooRecords, StockRecords, MooRoom;
    PutHomogeneous(mode, f, r, w);
    MooKeepsRecord(r);
    if UsesMoo(mode, f) {
      MooPutAdds(f, r);
      MooIsNotStock(MooPut(f, r).file);
      NothingRecorded();
    } else {
      StockPutAdds(f, r, w);
      assert Settled(r) == Terminate(r);
    }
  }

  lemma NothingRecorded()
    ensures MooRecords([]) == [] == StockRecords([]) && !IsHeader([])
  {
  }

  lemma AddedTwice(u: u32, x: u32, y: u32)
    ensures AddWrap(AddWrap(u, x), y) == AddWrap(AddWrap(u, y), x)
  {
    hide AddWrap;
    AddWrapIs(u, x);
    AddWrapIs(u, y);
    AddWrapIs(AddWrap(u, x), y);
    AddWrapIs(AddWrap(u, y), x);
  }

  // One more record counts once, wherever it is.
  lemma {:induction false} InsertedCounts(before: seq<Record>, k: nat, r: Record, contest: u32)
    requires k <= |before|
    ensures CountsOneMore(before, r, Inserted(before, k, r), contest)
  {
    if k == |before| {
      assert Inserted(before, k, r) == before + [r];
      CountOneMore(before, r, contest);
    } else {
      var init, last := before[..|before| - 1], before[|before| - 1];
      assert before == init + [last] && Inserted(before, k, r) == Inserted(init, k, r) + [last];
      InsertedCounts(init, k, r, contest);
      CountOneMore(init, last, contest);
      CountOneMore(Inserted(init, k, r), last, contest);
      AddedTwice(UnitsIn(init, contest), Units(r), Units(last));
    }
  }

  lemma AddsCounts(before: seq<Record>, r: Record, after: seq<Record>, contest: u32)
    requires Adds(before, r, after)
    ensures CountsOneMore(before, r, after, contest)
  {
    var k: nat :| k <= |before| && after == Inserted(before, k, r);
    InsertedCounts(before, k, r, contest);
  }

  // A Put never reports zero records.
  lemma PutCountPositive(mode: bool, f: File, r: Record, w: bool)
    ensures PutFile(mode, f, r, w).count >= 1
  {
  }

  // A stock Put that stops at the first blank slot puts the record in front when
  // that slot is free.
  lemma PutAtFront(f: File, r: Record)
    requires |f| % 42 == 0 && FrontFree(f)
    ensures StockRecords(StockPut(f, r, false).file) == [Settled(r)] + StockRecords(f)
  {
    hide WriteAt, Switched, Settled, Chunks;
    StockPutSlots(f, r, false);
    StoredNotBlank(r);
    SwitchTwice(r);
    StockSize(f);
    var slots := StockSlots(f);
    if f != [] {
      ChunkAt(f, 42, 0);
      assert slots[0] == f[..42] == Blank();
      assert slots[0 := Switched(r)] == [Switched(r)] + slots[1..];
      FrontLive(slots, Switched(r));
    } else {
      assert slots == [] && slots + [Switched(r)] == [Switched(r)];
      FrontLive([Blank()], Switched(r));
    }
  }

  lemma FrontLive(slots: seq<Record>, x: Record)
    requires slots != [] && slots[0] == Blank() && x != Blank()
    ensures HostOrder(Live([x] + slots[1..], Blank())) == [Switched(x)] + HostOrder(Live(slots, Blank()))
    ensures slots == [Blank()] ==> [x] + slots[1..] == [x] && Live(slots, Blank()) == []
  {
    hide Switched;
    var filled, rest := [x] + slots[1..], Live(slots[1..], Blank());
    assert filled[0] == x && filled[1..] == slots[1..];
    assert Live(filled, Blank()) == [x] + rest && Live(slots, Blank()) == rest;
    HostOrderTail(x, rest);
  }

  // ---------- files that take every record found in them ----------

  // An RC5-72 key has eight bits in its first word.
  ghost predicate RealKeys(records: seq<Record>) {
    forall r :: r in records && Routable(r) ==> r[0] < 0x100
  }

  lemma RealKeysTail(r: Record, rest: seq<Record>)
    ensures RealKeys([r] + rest) ==> RealKeys(rest) && (Routable(r) ==> r[0] < 0x100)
    ensures RealKeys(rest + [r]) ==> RealKeys(rest) && (Routable(r) ==> r[0] < 0x100)
  {
    assert r in [r] + rest && forall x :: x in rest ==> x in [r] + rest;
    assert r in rest + [r] && forall x :: x in rest ==> x in rest + [r];
  }

  // One format, real keys and that many packet numbers left: so many Puts of
  // RC5-72 records cannot break the format.
  ghost predicate TameFile(f: File, puts: nat) {
    Homogeneous(f) && RealKeys(Readable(f)) && MooCount(f) + puts <= MAX_COUNT
  }

  lemma TameFewer(f: File, more: nat, puts: nat)
    requires TameFile(f, more) && puts <= more
    ensures TameFile(f, puts) && Homogeneous(f) && RealKeys(Readable(f))
  {
  }

  lemma TameGot(refused: bool, f: File, rc: int, data: Record, count: nat, g: File, faulty: bool, puts: nat)
    requires TameFile(f, puts) && FileTook(refused, f, rc, data, count, g, faulty)
    ensures TameFile(g, puts)
    ensures rc == 0 && Routable(data) ==> data[0] < 0x100
  {
    hide Homogeneous, Readable, MooCount, RealKeys;
    EmptyIsHomogeneous();
    if rc == 0 {
      RealKeysTail(data, Readable(g));
    }
    if rc == 1 {
      NoKeys();
    }
  }

  lemma NoKeys()
    ensures RealKeys([])
  {
  }

  lemma RealKeySuits(mode: bool, f: File, r: Record, w: bool)
    requires TameFile(f, 1) && Keepable(r) && r[0] < 0x100
    ensures Suits(mode, f, r, w)
  {
    hide Readable, MooCount, LandsAs;
    RealKeyIsNoMagic(r);
    KeepableLands(mode, f, r);
    RoomLeft(f);
  }

  lemma RoomLeft(f: File)
    requires Homogeneous(f) && MooCount(f) < MAX_COUNT
    ensures MooRoom(f)
  {
  }

  lemma TamePut(mode: bool, f: File, r: Record, w: bool, puts: nat)
    requires TameFile(f, puts + 1) && Keepable(r) && r[0] < 0x100
    ensures Suits(mode, f, r, w) && TameFile(PutFile(mode, f, r, w).file, puts)
  {
    hide Homogeneous, Readable, MooCount, LandsAs, PutFile, Adds, Suits, RealKeys;
    TameFewer(f, puts + 1, 1);
    RealKeySuits(mode, f, r, w);
    PutGains(mode, f, r, w);
    KeepableLands(mode, f, r);
    RealKeysAdded(Readable(f), LandsAs(mode, f, r), Readable(PutFile(mode, f, r, w).file));
  }

  lemma RealKeysAdded(before: seq<Record>, landed: Record, after: seq<Record>)
    requires RealKeys(before) && landed[0] < 0x100 && Adds(before, landed, after)
    ensures RealKeys(after)
  {
    var k: nat :| k <= |before| && after == Inserted(before, k, landed);
    assert forall x :: x in after ==> x == landed || x in before;
  }

  // A stock file of one record.
  lemma OneStockRecord(r: Record, puts: nat)
    requires Keepable(r) && r[0] < 0x100 && puts <= MAX_COUNT
    ensures var f := Switched(r);
      && f != [] && !IsHeader(f) && Readable(f) == [r] && GetFile(f) == Got([], r) && TameFile(f, puts)
  {
    hide Switched;
    var f := Switched(r);
    RealKeyIsNoMagic(r);
    StoredNotBlank(r);
    OneChunk(f, 42);
    SwitchTwice(r);
    assert Settled(r) == r;
    LiveAlone(f);
    assert HostOrder([f]) == [r];
    assert f[..8][0] == f[0];
  }

  lemma LiveAlone(f: Record)
    requires f != Blank()
    ensures Live([f], Blank()) == [f] && FirstLive([f], Blank()) == 0
  {
    assert [f][1..] == [];
    assert Live<Record>([], Blank()) == [];
  }

  lemma TameNothing(puts: nat)
    requires puts <= MAX_COUNT
    ensures TameFile([], puts) && Readable([]) == []
  {
    EmptyIsHomogeneous();
    EmptyCounts();
  }
}
