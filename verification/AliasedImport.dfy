/**
 Importing from the client's own Moo in-buffer (buffbase.cpp): every record taken
 out goes back into the same file, and the "isn't getting smaller" guard knows
 only the count before, which a single record leaves at zero.  Import ties its
 own passes to the ones here.
 */
module AliasedImport {
  import opened Moo521
  import opened WorkRecords
  import opened Slots
  import opened BufferFiles
  import opened BufferDisk
  import opened BufferRuns
  import opened FileSteps

  // The import loop between two passes: the file and the last count seen.
  datatype Loop = Running(f: File, last: nat) | Stopped(f: File) | Alarmed(f: File, dropped: Record)

  function Pass(l: Loop): Loop {
    if !l.Running? then l
    else
      match GetFile(l.f)
      case Got(g, data) =>
        var remaining := Matching(Records(g), data[CONTEST]);
        if 0 < l.last <= remaining then Alarmed(g, data) else Running(PutFile(true, g, data, true).file, remaining)
      case NoRecords(g) => Stopped(g)
      case Broken => Stopped(l.f)
  }

  function Passes(l: Loop, k: nat): Loop
    decreases k
  {
    if k == 0 then l else Passes(Pass(l), k - 1)
  }

  lemma MooRecordsHandled(f: File, r: Record)
    requires r in MooRecords(f)
    ensures r[CONTEST] == RC5_72
  {
    var live := Live(Reachable(f), BlankPacket());
    var i: nat :| i < |live| && Unpacked(live)[i] == r;
    MooReadShape(live[i]);
  }

  // One pass takes a record and puts it back: as many records as before, the
  // same ones up to the forced result code.
  lemma PassKeepsAll(f: File)
    requires MooFile(f) && MooRecords(f) != []
    ensures GetFile(f).Got?
    ensures var g, data := GetFile(f).file, GetFile(f).data;
      && MooFile(g) && |MooRecords(g)| == |MooRecords(f)| - 1
      && Matching(Records(g), data[CONTEST]) == |MooRecords(f)| - 1
      && Readable(f) == [data] + Readable(g)
      && MooFile(PutFile(true, g, data, true).file)
      && |MooRecords(PutFile(true, g, data, true).file)| == |MooRecords(f)|
      && multiset(Readable(PutFile(true, g, data, true).file)) == multiset(Readable(f))
  {
    hide MooPut, MooGet, MooKept, MooImage, MooRecords, MooRoom, MooFile, IsHeader, Readable;
    MooIsNotStock(f);
    GetReadable(f);
    MooGetLowest(f);
    var g, data := GetFile(f).file, GetFile(f).data;
    MooIsNotStock(g);
    RoomAfterGet(f);
    GotShape(f);
    forall r | r in MooRecords(g)
      ensures r[CONTEST] == RC5_72
    {
      MooRecordsHandled(g, r);
    }
    MatchingAll(MooRecords(g), RC5_72);
    MooPutAdds(g, data);
    AddsBag(MooRecords(g), MooKept(MooImage(data)), MooRecords(MooPut(g, data).file));
    var d, n := Disk(map[Named("") := g], true, true), Named("");
    PutReadable(d, n, data, true);
    AddsBag(Readable(g), Landed(d, n, data), Readable(PutOn(d, n, data, true).file));
    KeepableLands(true, g, data);
    assert multiset([data] + Readable(g)) == multiset{data} + multiset(Readable(g));
  }

  lemma RoomAfterGet(f: File)
    requires MooFile(f) && MooRecords(f) != []
    ensures MooGet(f).Got? && MooFile(MooGet(f).file) && MooRoom(MooGet(f).file)
  {
    MooGetLowest(f);
    MooGetBlanks(f);
    MooSize(MooGet(f).file);
    FirstBlankMeansRoom(MooSlots(MooGet(f).file), BlankPacket());
  }

  // With one record in the file the import never ends.
  lemma {:induction false} OneRecordNeverEnds(f: File, k: nat)
    requires MooFile(f) && |MooRecords(f)| == 1
    ensures var l := Passes(Running(f, 0), k);
      l.Running? && l.last == 0 && MooFile(l.f) && multiset(Readable(l.f)) == multiset(Readable(f))
    decreases k
  {
    hide MooFile, MooRecords, Readable, GetFile, PutFile, Records, Matching;
    if k == 0 {
    } else {
      PassKeepsAll(f);
      var put := PutFile(true, GetFile(f).file, GetFile(f).data, true).file;
      assert Pass(Running(f, 0)) == Running(put, 0);
      OneRecordNeverEnds(put, k - 1);
    }
  }

  // With more the guard stops it in the second pass, and the record it holds
  // is dropped.
  lemma MoreRecordsLoseOne(f: File)
    requires MooFile(f) && |MooRecords(f)| >= 2
    ensures var l := Passes(Running(f, 0), 2);
      && l.Alarmed? && |MooRecords(l.f)| == |MooRecords(f)| - 1
      && multiset(Readable(f)) == multiset(Readable(l.f)) + multiset{l.dropped}
  {
    hide MooFile, MooRecords, Readable, GetFile, PutFile, Records, Matching;
    PassKeepsAll(f);
    var put := PutFile(true, GetFile(f).file, GetFile(f).data, true).file;
    PassKeepsAll(put);
    var g, data := GetFile(put).file, GetFile(put).data;
    var first := Pass(Running(f, 0));
    assert first == Running(put, |MooRecords(f)| - 1);
    assert Pass(first) == Alarmed(g, data);
    assert Passes(Running(f, 0), 2) == Passes(first, 1) == Passes(Pass(first), 0);
    assert multiset([data] + Readable(g)) == multiset{data} + multiset(Readable(g));
  }

  // Such an import ends, and then loses nothing, exactly if there is nothing to
  // import.
  lemma EndsWellIfEmpty(f: File)
    requires MooFile(f)
    ensures (exists k: nat :: Passes(Running(f, 0), k).Stopped?) <==> MooRecords(f) == []
    ensures MooRecords(f) == [] ==> Passes(Running(f, 0), 1) == Stopped([])
  {
    hide MooFile, MooRecords, Readable, PutFile, Records, Matching, MooGet, StockGet;
    MooIsNotStock(f);
    MooGetLowest(f);
    var start := Running(f, 0);
    if MooRecords(f) == [] {
      GetHomogeneousNone(f);
      var one: nat := 1;
      assert Passes(start, one) == Passes(Pass(start), 0) == Stopped([]);
      assert Passes(start, one).Stopped?;
    } else if |MooRecords(f)| == 1 {
      forall k: nat
        ensures !Passes(start, k).Stopped?
      {
        OneRecordNeverEnds(f, k);
      }
    } else {
      MoreRecordsLoseOne(f);
      PassKeepsAll(f);
      assert Passes(start, 1) == Passes(Pass(start), 0);
      forall k: nat
        ensures !Passes(start, k).Stopped?
      {
        if k >= 2 {
          PassesSplit(start, 2, k - 2);
          AlarmedStays(Passes(start, 2), k - 2);
        }
      }
    }
  }

  lemma GetHomogeneousNone(f: File)
    requires MooFile(f) && MooRecords(f) == []
    ensures GetFile(f) == NoRecords([])
  {
    MooIsNotStock(f);
    MooGetLowest(f);
  }

  lemma {:induction false} PassesSplit(l: Loop, j: nat, k: nat)
    ensures Passes(l, j + k) == Passes(Passes(l, j), k)
    decreases j
  {
    hide Pass;
    if j == 0 {
    } else {
      PassesSplit(Pass(l), j - 1, k);
    }
  }

  lemma {:induction false} AlarmedStays(l: Loop, k: nat)
    requires !l.Running?
    ensures Passes(l, k) == l
    decreases k
  {
    if k == 0 {
    } else {
      AlarmedStays(l, k - 1);
    }
  }
}
