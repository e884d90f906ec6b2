/**
 The buffer files on disk and the operations on them (buffpub.cpp).  BufferDisk
 holds the words of every file and the sticky Moo flag, and its methods are the
 source's loops; each is proved to compute the functions on disk values below.
 Any call may also fail with an I/O error, counted in `faults`; a failing call
 changes no record.
 */
module BufferDisk {
  import opened Words
  import opened Moo521
  import opened WorkRecords
  import opened Slots
  import opened BufferFiles

  // A local buffer is named by its contest and direction, anything else by a path.
  datatype FileName = Local(contest: nat, out: bool) | Named(path: string)

  // refusesRemote is true in this build; the interface in buffbase.h also allows
  // a client that opens remote stock buffers.
  datatype Disk = Disk(files: map<FileName, File>, mooMode: bool, refusesRemote: bool)

  // A file that does not exist holds what an empty one holds.
  function Contents(d: Disk, n: FileName): File {
    if n in d.files then d.files[n] else []
  }

  // moo_file_detect: seeing a Moo file turns the sticky flag on.
  function Sniff(d: Disk, n: FileName): Disk {
    d.(mooMode := d.mooMode || IsHeader(Contents(d, n)))
  }

  // BufferOpenFile refuses remote buffers and files that are not whole records.
  predicate StockOpens(refusesRemote: bool, f: File, remote: bool) {
    !(remote && refusesRemote) && |f| % 42 == 0
  }

  function PutOn(d: Disk, n: FileName, r: Record, wantCount: bool): PutOutcome {
    PutFile(Sniff(d, n).mooMode, Contents(d, n), r, wantCount)
  }

  // Whether a Put is possible at all, I/O errors aside.
  predicate PutAccepted(d: Disk, n: FileName, remote: bool) {
    UsesMoo(Sniff(d, n).mooMode, Contents(d, n)) || StockOpens(d.refusesRemote, Contents(d, n), remote)
  }

  function GetOn(d: Disk, n: FileName, remote: bool): GetOutcome {
    var f := Contents(d, n);
    if IsHeader(f) || StockOpens(d.refusesRemote, f, remote) then GetFile(f) else Broken
  }

  // Whether BufferCountFileRecords succeeds, I/O errors aside.
  predicate Countable(f: File) {
    if IsHeader(f) then |f| >= 8 && HeaderCount(f[..8]).Packets? else |f| % 42 == 0
  }

  // No file changed, except that a missing one may have been created empty.
  predicate SameFiles(before: map<FileName, File>, n: FileName, after: map<FileName, File>) {
    after == before || (n !in before && after == before[n := []])
  }

  // ---------- facts the scanning loops need ----------

  lemma LiveStep<S>(slots: seq<S>, i: nat, blank: S)
    requires i < |slots|
    ensures Live(slots[..i + 1], blank) == Live(slots[..i], blank) + (if slots[i] == blank then [] else [slots[i]])
  {
    assert slots[..i + 1] == slots[..i] + [slots[i]];
    LiveConcat(slots[..i], [slots[i]], blank);
  }

  lemma StockSlotAt(f: File, i: nat)
    requires |f| % 42 == 0 && i < |f| / 42
    ensures |StockSlots(f)| == |f| / 42
    ensures StockSlots(f)[i] == RecordAt(f, i)
  {
    StockSize(f);
    ChunkAt(f, 42, i);
  }

  lemma SliceOfRest(f: File, skip: nat, from: nat, to: nat)
    requires skip <= |f| && from <= to <= |f| - skip
    ensures f[skip..][from..to] == f[skip + from..skip + to]
  {
  }

  lemma MooSlotAt(f: File, i: nat)
    requires |f| >= 8
    ensures i < |MooSlots(f)| <==> 8 + 44 * i + 44 <= |f|
    ensures i < |MooSlots(f)| ==> MooSlots(f)[i] == f[8 + 44 * i..8 + 44 * i + 44]
  {
    ChunksSize(f[8..], 44);
    if i < |MooSlots(f)| {
      ChunkAt(f[8..], 44, i);
      SliceOfRest(f, 8, 44 * i, 44 * i + 44);
    }
  }

  predicate HoldsPacket(f: File, i: nat) {
    8 + 44 * i + 44 <= |f|
  }

  function PacketAt(f: File, i: nat): Packet
    requires HoldsPacket(f, i)
  {
    f[8 + 44 * i..8 + 44 * i + 44]
  }

  function RecordAt(f: File, i: nat): Record
    requires 42 * i + 42 <= |f|
  {
    f[42 * i..42 * i + 42]
  }

  // One step of a loop over the packets: packet i is there to be read, or the
  // read comes up short and no packet from i on is reachable.
  lemma ReachableAt(f: File, i: nat)
    requires i < MooCount(f)
    ensures |f| >= 8
    ensures i < |Reachable(f)| <==> HoldsPacket(f, i)
    ensures i < |Reachable(f)| ==> Reachable(f)[i] == PacketAt(f, i)
  {
    MooSlotAt(f, i);
  }

  // ---------- the scanning loops ----------

  // The scan of moo_write_one_record: the first blank packet, or an append.
  method ScanForBlankPacket(f: File, reccount: nat) returns (writerec: nat)
    requires reccount == MooCount(f)
    ensures var i := FirstBlank(Reachable(f), BlankPacket());
      writerec == if i < |Reachable(f)| then i else reccount
  {
    writerec := reccount;
    ghost var reach := Reachable(f);
    ghost var first := FirstBlank(reach, BlankPacket());
    var i := 0;
    while i < reccount
      invariant 0 <= i <= first && writerec == reccount
      decreases reccount - i
    {
      ReachableAt(f, i);
      if !HoldsPacket(f, i) {
        break;
      }
      if PacketAt(f, i) == BlankPacket() {
        writerec := i;
        break;
      }
      i := i + 1;
    }
  }

  // The scan of the stock BufferPutFileRecord: where to write, and how many
  // records were live on the way.
  method ScanForBlankRecord(f: File, wantCount: bool) returns (writerec: nat, live: nat)
    requires |f| % 42 == 0
    ensures writerec == StockWriteSlot(f, wantCount)
    ensures wantCount ==> live == |Live(StockSlots(f), Blank())|
  {
    var reccount := |f| / 42;
    StockSize(f);
    ghost var slots := StockSlots(f);
    var recno := 0;
    writerec, live := reccount, 0;
    while recno < reccount
      invariant 0 <= recno <= reccount == |slots|
      invariant live == |Live(slots[..recno], Blank())|
      invariant writerec <= reccount
      invariant writerec < reccount ==> wantCount && writerec < recno && slots[writerec] == Blank()
      invariant forall j :: 0 <= j < recno && (writerec == reccount || writerec < j) ==> slots[j] != Blank()
      decreases reccount - recno
    {
      StockSlotAt(f, recno);
      LiveStep(slots, recno, Blank());
      if RecordAt(f, recno) != Blank() {
        live := live + 1;
      } else {
        writerec := recno;
        if !wantCount {
          return;
        }
      }
      recno := recno + 1;
    }
    assert slots[..recno] == slots;
  }

  // The scan of the stock BufferGetFileRecord: the first live slot, if any.
  method ScanForRecord(f: File) returns (recno: nat)
    requires |f| % 42 == 0
    ensures recno == FirstLive(StockSlots(f), Blank())
  {
    var reccount := |f| / 42;
    StockSize(f);
    ghost var first := FirstLive(StockSlots(f), Blank());
    recno := 0;
    while recno < reccount
      invariant 0 <= recno <= first <= reccount == |StockSlots(f)|
    {
      StockSlotAt(f, recno);
      if RecordAt(f, recno) != Blank() {
        return;
      }
      recno := recno + 1;
    }
  }

  // The loop of the Moo BufferGetFileRecord: the first live packet, none, or
  // an I/O error when the header counts more packets than the file has.
  method ScanForPacket(f: File, reccount: nat) returns (rc: int, recno: nat)
    requires reccount == MooCount(f) && |f| >= 8
    ensures match MooGet(f)
      case Got(_, _) => rc == 0 && recno == FirstLive(Reachable(f), BlankPacket())
      case NoRecords(_) => rc == 1
      case Broken => rc == -1
    ensures rc == 0 ==> HoldsPacket(f, recno) && Reachable(f)[recno] == PacketAt(f, recno)
  {
    ghost var first := FirstLive(Reachable(f), BlankPacket());
    rc, recno := 1, 0;
    while recno < reccount
      invariant 0 <= recno <= first && rc == 1
      decreases reccount - recno
    {
      ReachableAt(f, recno);
      if !HoldsPacket(f, recno) {
        return -1, recno;
      }
      if PacketAt(f, recno) != BlankPacket() {
        return 0, recno;
      }
      recno := recno + 1;
    }
  }

  // The loop of the stock BufferCountFileRecords.
  method CountRecords(f: File, contest: u32) returns (packets: nat, units: u32)
    requires |f| % 42 == 0
    ensures packets == Matching(StockRecords(f), contest)
    ensures units == UnitsIn(StockRecords(f), contest)
  {
    var reccount := |f| / 42;
    StockSize(f);
    ghost var slots := StockSlots(f);
    var recno := 0;
    packets, units := 0, 0;
    while recno < reccount
      invariant 0 <= recno <= reccount == |slots|
      invariant packets == Matching(HostOrder(Live(slots[..recno], Blank())), contest)
      invariant units == UnitsIn(HostOrder(Live(slots[..recno], Blank())), contest)
    {
      StockSlotAt(f, recno);
      StockCountStep(slots, recno, contest);
      if RecordAt(f, recno) != Blank() {
        var scratch := Switched(RecordAt(f, recno));
        if scratch[CONTEST] == contest {
          packets := packets + 1;
          if scratch[RESULTCODE] <= RESULT_FOUND {
            units := AddWrap(units, Units(scratch));
          }
        }
      }
      recno := recno + 1;
    }
    assert slots[..recno] == slots;
  }

  // moo_count_records on a file whose header counted `reccount`.
  method MooCountRecords(f: File, reccount: nat, contest: u32) returns (packets: nat, units: u32)
    requires reccount == MooCount(f) && |f| >= 8
    ensures packets == Matching(MooRecords(f), contest)
    ensures units == UnitsIn(MooRecords(f), contest)
  {
    hide MooKept, Units, Live, Matching, UnitsIn;
    ghost var reach := Reachable(f);
    CountNothing(contest);
    var i := 0;
    packets, units := 0, 0;
    while i < reccount
      invariant 0 <= i <= |reach|
      invariant packets == Matching(Unpacked(Live(reach[..i], BlankPacket())), contest)
      invariant units == UnitsIn(Unpacked(Live(reach[..i], BlankPacket())), contest)
      decreases reccount - i
    {
      ReachableAt(f, i);
      if !HoldsPacket(f, i) {
        break;
      }
      MooCountStep(reach, i, contest);
      if PacketAt(f, i) != BlankPacket() {
        var wr := MooKept(PacketAt(f, i));
        if wr[CONTEST] == contest {
          packets := packets + 1;
          if wr[RESULTCODE] <= RESULT_FOUND {
            units := AddWrap(units, Units(wr));
          }
        }
      }
      i := i + 1;
    }
    assert reach[..i] == reach;
  }

  lemma StockCountStep(slots: seq<Record>, i: nat, contest: u32)
    requires i < |slots|
    ensures var before, after := HostOrder(Live(slots[..i], Blank())), HostOrder(Live(slots[..i + 1], Blank()));
      if slots[i] == Blank() then after == before else CountsOneMore(before, Switched(slots[i]), after, contest)
  {
    LiveStep(slots, i, Blank());
    var before, after := HostOrder(Live(slots[..i], Blank())), HostOrder(Live(slots[..i + 1], Blank()));
    if slots[i] != Blank() {
      CountOneMore(before, Switched(slots[i]), contest);
      assert after == before + [Switched(slots[i])];
    }
  }

  lemma MooCountStep(packets: seq<Packet>, i: nat, contest: u32)
    requires i < |packets|
    ensures var before := Unpacked(Live(packets[..i], BlankPacket()));
      var after := Unpacked(Live(packets[..i + 1], BlankPacket()));
      if packets[i] == BlankPacket() then after == before
      else CountsOneMore(before, MooKept(packets[i]), after, contest)
  {
    LiveStep(packets, i, BlankPacket());
    var before, after := Unpacked(Live(packets[..i], BlankPacket())), Unpacked(Live(packets[..i + 1], BlankPacket()));
    if packets[i] != BlankPacket() {
      CountOneMore(before, MooKept(packets[i]), contest);
      assert after == before + [MooKept(packets[i])];
    }
  }

  lemma CountNothing(contest: u32)
    ensures Matching([], contest) == 0 && UnitsIn([], contest) == 0
    ensures Live<Packet>([], BlankPacket()) == []
  {
  }

  predicate CountsOneMore(before: seq<Record>, r: Record, after: seq<Record>, contest: u32) {
    && Matching(after, contest) == Matching(before, contest) + (if r[CONTEST] == contest then 1 else 0)
    && UnitsIn(after, contest) ==
         if r[CONTEST] == contest && r[RESULTCODE] <= RESULT_FOUND
         then AddWrap(UnitsIn(before, contest), Units(r)) else UnitsIn(before, contest)
  }

  lemma {:induction false} CountOneMore(records: seq<Record>, r: Record, contest: u32)
    ensures CountsOneMore(records, r, records + [r], contest)
  {
    assert (records + [r])[..|records|] == records;
    if records != [] {
      CountOneMore(records[1..], r, contest);
      assert (records + [r])[1..] == records[1..] + [r];
    } else {
      assert records + [r] == [r];
    }
  }

  class BufferDisk {
    const refusesRemote: bool
    var files: map<FileName, File>
    var mooOutputMode: bool
    var faults: nat

    constructor (files: map<FileName, File>, refusesRemote: bool)
      ensures State() == Disk(files, false, refusesRemote) && faults == 0
    {
      this.files, mooOutputMode, faults, this.refusesRemote := files, false, 0, refusesRemote;
    }

    ghost function State(): Disk
      reads this
    {
      Disk(files, mooOutputMode, refusesRemote)
    }

    method MooFileDetect(name: FileName) returns (isMoo: bool)
      modifies this`mooOutputMode
      ensures isMoo == IsHeader(Contents(old(State()), name))
      ensures State() == Sniff(old(State()), name)
    {
      isMoo := false;
      if name in files && |files[name]| >= 1 {
        isMoo := files[name][0] == HEADER_MAGIC;
      }
      if isMoo {
        mooOutputMode := true;
      }
    }

    // moo_file_missing
    function MooFileMissing(name: FileName): (missing: bool)
      reads this
      ensures missing <==> Contents(State(), name) == []
    {
      name !in files || files[name] == []
    }

    // BufferOpenFile: creates a missing file and checks the length.
    method OpenStock(name: FileName, remote: bool) returns (ok: bool)
      modifies this`files, this`faults
      ensures SameFiles(old(files), name, files)
      ensures ok ==> name in files && files[name] == Contents(old(State()), name)
      ensures ok ==> StockOpens(refusesRemote, files[name], remote) && faults == old(faults)
      ensures !ok ==>
        || faults == old(faults) + 1
        || (faults == old(faults) && !StockOpens(refusesRemote, Contents(old(State()), name), remote))
    {
      ok := false;
      if remote && refusesRemote {
        return;
      }
      if * {
        faults := faults + 1;
        return;
      }
      if name !in files {
        files := files[name := []];
      }
      ok := |files[name]| % 42 == 0;
    }

    method ZapFileRecords(name: FileName)
      modifies this`files
      ensures files == if name in old(files) then old(files)[name := []] else old(files)
    {
      if name in files {
        files := files[name := []];
      }
    }

    // The header count of an open Moo file; 0 when the header does not say.
    method ReadHeaderCount(f: File) returns (reccount: nat)
      ensures reccount == MooCount(f)
    {
      reccount := 0;
      if |f| >= 8 {
        match HeaderCount(f[..8])
        case Packets(n) => reccount := n;
        case NoCount =>
      }
    }

    // moo_write_one_record
    method MooWriteOneRecord(name: FileName, reccount: nat, data: Record) returns (newcount: nat)
      requires name in files
      requires reccount == MooCount(files[name])
      modifies this`files
      ensures files == old(files)[name := MooPut(old(files)[name], data).file]
      ensures newcount == MooPut(old(files)[name], data).count
    {
      hide MooImage, MakeHeader, FirstBlank, WriteAt;
      var f := files[name];
      var writerec := ScanForBlankPacket(f, reccount);
      newcount := reccount;
      if writerec == reccount {
        newcount := reccount + 1;
        f := WriteAt(f, 0, MakeHeader(newcount));
      }
      files := files[name := WriteAt(f, 8 + 44 * writerec, MooImage(data))];
    }

    method PutFileRecord(name: FileName, data: Record, wantCount: bool, remote: bool) returns (rc: int, count: nat)
      modifies this
      ensures rc == 0 || rc == -1
      ensures mooOutputMode == Sniff(old(State()), name).mooMode
      ensures rc == 0 ==> faults == old(faults) && PutAccepted(old(State()), name, remote)
      ensures rc == 0 ==> files == old(files)[name := PutOn(old(State()), name, data, wantCount).file]
      ensures rc == 0 && wantCount ==> count == PutOn(old(State()), name, data, wantCount).count
      ensures rc == 0 ==> Contents(State(), name) == PutOn(old(State()), name, data, wantCount).file
      ensures forall n :: (rc == 0 ==> n != name) ==> Contents(State(), n) == Contents(old(State()), n)
      ensures rc == -1 ==> SameFiles(old(files), name, files)
      ensures rc == -1 ==>
        faults == old(faults) + 1 || (faults == old(faults) && !PutAccepted(old(State()), name, remote))
    {
      hide MooPut, StockPut;
      var moo := MooFileDetect(name);
      if moo || (mooOutputMode && MooFileMissing(name)) {
        rc, count := PutMooRecord(name, data);
      } else {
        rc, count := PutStockRecord(name, data, wantCount, remote);
      }
    }

    method PutMooRecord(name: FileName, data: Record) returns (rc: int, count: nat)
      modifies this`files, this`faults
      ensures rc == 0 || rc == -1
      ensures rc == 0 ==> faults == old(faults) && count == MooPut(Contents(old(State()), name), data).count
      ensures rc == 0 ==> files == old(files)[name := MooPut(Contents(old(State()), name), data).file]
      ensures rc == -1 ==> faults == old(faults) + 1 && files == old(files)
    {
      hide MooPut;
      if * {
        faults := faults + 1;
        return -1, 0;
      }
      if name !in files {
        files := files[name := []];
      }
      var reccount := ReadHeaderCount(files[name]);
      rc := 0;
      count := MooWriteOneRecord(name, reccount, data);
    }

    method PutStockRecord(name: FileName, data: Record, wantCount: bool, remote: bool) returns (rc: int, count: nat)
      modifies this`files, this`faults
      ensures rc == 0 || rc == -1
      ensures var f := Contents(old(State()), name);
        && (rc == 0 ==>
              && faults == old(faults) && StockOpens(refusesRemote, f, remote)
              && files == old(files)[name := StockPut(f, data, wantCount).file]
              && (wantCount ==> count == StockPut(f, data, wantCount).count))
        && (rc == -1 ==>
              && SameFiles(old(files), name, files)
              && (faults == old(faults) + 1 || (faults == old(faults) && !StockOpens(refusesRemote, f, remote))))
    {
      hide Live, StockWriteSlot, WriteAt, Switched;
      rc, count := -1, 0;
      var ok := OpenStock(name, remote);
      if ok {
        var f := files[name];
        var writerec, live := ScanForBlankRecord(f, wantCount);
        files := files[name := WriteAt(f, 42 * writerec, Switched(data))];
        rc, count := 0, live + 1;
      }
    }

    method CountFileRecords(name: FileName, contest: u32) returns (rc: int, packets: nat, units: u32)
      modifies this
      ensures rc == 0 || rc == -1
      ensures mooOutputMode == Sniff(old(State()), name).mooMode
      ensures SameFiles(old(files), name, files)
      ensures rc == 0 ==> faults == old(faults) && Countable(Contents(old(State()), name))
      ensures rc == 0 ==> packets == Matching(Records(Contents(old(State()), name)), contest)
      ensures rc == 0 ==> units == UnitsIn(Records(Contents(old(State()), name)), contest)
      ensures rc == -1 ==> packets == 0 && units == 0
      ensures rc == -1 ==>
        faults == old(faults) + 1 || (faults == old(faults) && !Countable(Contents(old(State()), name)))
    {
      rc, packets, units := -1, 0, 0;
      var moo := MooFileDetect(name);
      if moo {
        if * {
          faults := faults + 1;
          return;
        }
        var f := files[name];
        if |f| >= 8 && HeaderCount(f[..8]).Packets? {
          var reccount := ReadHeaderCount(f);
          packets, units := MooCountRecords(f, reccount, contest);
          rc := 0;
        }
        return;
      }
      var ok := OpenStock(name, false);
      if ok {
        packets, units := CountRecords(files[name], contest);
        rc := 0;
      }
    }

    // The Moo branch of BufferGetFileRecord, up to the recount.
    method GetMooRecord(name: FileName) returns (rc: int, data: Record)
      requires name in files && IsHeader(files[name])
      modifies this`files, this`faults
      ensures match MooGet(old(files)[name])
        case Got(file, d) => rc == 0 ==> data == d && files == old(files)[name := file]
        case NoRecords(file) => rc != 0 && (rc == 1 && faults == old(faults) ==> files == old(files)[name := file])
        case Broken => rc != 0
      ensures -1 <= rc <= 1
      // a file that cannot be opened for writing seems to have no records
      ensures rc == -1 || (rc == 1 && faults > old(faults)) ==> files == old(files)
      ensures faults == old(faults) || (faults == old(faults) + 1 && rc != 0)
      ensures faults == old(faults) ==> (rc == 0 <==> MooGet(old(files)[name]).Got?)
      ensures faults == old(faults) ==> (rc == 1 <==> MooGet(old(files)[name]).NoRecords?)
    {
      hide MooRead, HeaderCount, Chunks, FirstLive;
      data := Blank();
      if * {
        faults := faults + 1;
        return 1, data;
      } else if * {
        faults := faults + 1;
        return -1, data;
      }
      var f := files[name];
      if |f| < 8 {
        return -1, data;
      }
      var reccount := ReadHeaderCount(f);
      var recno;
      rc, recno := ScanForPacket(f, reccount);
      if rc == 0 {
        data := MooRead(PacketAt(f, recno));
        files := files[name := WriteAt(f, 8 + 44 * recno, BlankPacket())];
      } else if rc == 1 {
        ZapFileRecords(name);
      }
    }

    // The stock branch of BufferGetFileRecord, up to the recount.
    method GetStockRecord(name: FileName, remote: bool) returns (rc: int, data: Record)
      modifies this`files, this`faults
      ensures -1 <= rc <= 1
      ensures var f := Contents(old(State()), name);
        && (rc >= 0 ==> faults == old(faults) && StockOpens(refusesRemote, f, remote))
        && (rc == 0 ==> StockGet(f).Got? && data == StockGet(f).data && files == old(files)[name := StockGet(f).file])
        && (rc == 1 ==> StockGet(f).NoRecords? && files == old(files)[name := []])
        && (rc == -1 ==> SameFiles(old(files), name, files))
        && (rc == -1 ==> faults == old(faults) + 1 || (faults == old(faults) && !StockOpens(refusesRemote, f, remote)))
    {
      data := Blank();
      var ok := OpenStock(name, remote);
      if !ok {
        return -1, data;
      }
      var f := files[name];
      StockSize(f);
      var recno := ScanForRecord(f);
      rc := 1;
      var blanked := recno;
      if recno < |f| / 42 {
        rc, blanked := 0, recno + 1;
        StockSlotAt(f, recno);
        data := Switched(RecordAt(f, recno));
        files := files[name := WriteAt(f, 42 * recno, Blank())];
      }
      if |f| > 0 && blanked == |f| / 42 {
        ZapFileRecords(name);
      }
    }

    // rc is 0 with a record, 1 with none left, -1 on an error.  The count is
    // of the records left that belong to the contest of the one handed out.
    method GetFileRecord(name: FileName, remote: bool) returns (rc: int, data: Record, count: nat)
      modifies this
      ensures -1 <= rc <= 1
      ensures mooOutputMode == Sniff(old(State()), name).mooMode
      ensures var g := GetOn(old(State()), name, remote);
        && (rc == 0 ==> g.Got? && data == g.data && Contents(State(), name) == g.file)
        && (rc == 1 ==>
              if faults == old(faults) then g.NoRecords? && Contents(State(), name) == []
              else IsHeader(Contents(old(State()), name)) && Contents(State(), name) == Contents(old(State()), name))
        && (rc == -1 ==> Contents(State(), name) == Contents(old(State()), name))
        && (rc == -1 ==> g.Broken? || faults > old(faults))
      ensures forall n :: n != name ==> Contents(State(), n) == Contents(old(State()), n)
      ensures old(faults) <= faults <= old(faults) + 1
      ensures rc != 0 ==> count == 0
      ensures rc == 0 ==>
        count == if faults == old(faults) then Matching(Records(Contents(State(), name)), data[CONTEST]) else 0
    {
      hide MooGet, StockGet, MooRecords, StockRecords, Matching, HeaderCount, UnitsIn, MooCount;
      ghost var f := Contents(State(), name);
      NoRecordsIsEmpty(f);
      count := 0;
      var moo := MooFileDetect(name);
      if moo {
        rc, data := GetMooRecord(name);
        if rc == 0 {
          MooReadContest(f);
          count := MooRecount(name);
        }
      } else {
        rc, data := GetStockRecord(name, remote);
        if rc == 0 {
          StockGetNoHeader(f);
          count := StockRecount(name, data[CONTEST]);
        }
      }
    }

    // The recount after a record was taken from a stock file.
    method StockRecount(name: FileName, contest: u32) returns (count: nat)
      requires name in files && !IsHeader(files[name]) && |files[name]| % 42 == 0
      modifies this
      ensures files == old(files) && mooOutputMode == old(mooOutputMode)
      ensures old(faults) <= faults <= old(faults) + 1
      ensures count == if faults == old(faults) then Matching(Records(files[name]), contest) else 0
    {
      hide Records, Matching, UnitsIn;
      var rc, units;
      rc, count, units := CountFileRecords(name, contest);
    }

    // The recount after a record was taken from a Moo file.
    method MooRecount(name: FileName) returns (count: nat)
      requires name in files && |files[name]| >= 8
      modifies this`faults
      ensures old(faults) <= faults <= old(faults) + 1
      ensures count == if faults == old(faults) then Matching(MooRecords(files[name]), RC5_72) else 0
    {
      count := 0;
      if * {
        faults := faults + 1;
        return;
      }
      var reccount := ReadHeaderCount(files[name]);
      var units;
      count, units := MooCountRecords(files[name], reccount, RC5_72);
    }
  }

  lemma MooReadContest(f: File)
    requires MooGet(f).Got?
    ensures MooGet(f).data[CONTEST] == RC5_72
    ensures |MooGet(f).file| >= 8 && (IsHeader(f) ==> IsHeader(MooGet(f).file))
  {
    MooReadShape(Reachable(f)[FirstLive(Reachable(f), BlankPacket())]);
  }

  lemma StockGetNoHeader(f: File)
    requires !IsHeader(f) && |f| % 42 == 0 && StockGet(f).Got?
    ensures !IsHeader(StockGet(f).file) && |StockGet(f).file| % 42 == 0
  {
    var i := FirstLive(StockSlots(f), Blank());
    StockSize(f);
    if i + 1 < |StockSlots(f)| {
      ChunkWrite(f, 42, i, Blank());
    }
  }
}
