/**
 Fetching work from a remote buffer file (buffbase.cpp): how much is wanted
 (BufferReComputeUnitsToFetch and the counts it rests on) and BufferFetchFile for
 RC5-72, the contest of this build.  The remote file may be any file, also one of
 the client's own.
 */
module Fetch {
  import opened Words
  import opened Moo521
  import opened WorkRecords
  import opened Slots
  import opened BufferFiles
  import opened BufferDisk
  import opened BufferRuns
  import opened MemBuffer
  import opened Routing
  import opened FileSteps
  import opened BufferStore
  import opened CrossSave
  import opened Transfers
  import opened Import

  // ---------- how much to fetch ----------

  // The buffer limit in packets, the threshold in hundredths of a stats unit,
  // and the number of crunchers to feed.
  datatype Wants = Wants(limit: u32, threshold: u32, crunchers: u32)

  // The packets and stats units of the contest that a buffer holds.
  datatype Stock = Stock(packets: nat, units: u32)

  function UnitsToFetch(s: Stock, w: Wants): u32 {
    var most: u32 := 100 * w.limit % TWO32;
    var wanted := if w.threshold > most then most else w.threshold;
    var have: u32 := if s.units == 0 then 100 * s.packets % TWO32 else s.units;
    if have < wanted then wanted - have
    else if s.packets < w.crunchers then 100 * (w.crunchers - s.packets) % TWO32
    else 0
  }

  // What a buffer is worth: its stats units, or 100 hundredths for each packet if
  // it has none.
  function Worth(s: Stock): nat {
    if s.units == 0 then 100 * s.packets else s.units
  }

  // The right answer: nothing once the buffer reaches the threshold or the limit
  // and has a packet for each cruncher; else what is missing to the lesser of the
  // two; else a whole unit for each packet that is missing.
  predicate Answers(s: Stock, w: Wants, n: nat) {
    var most := 100 * (w.limit as int);
    && (n == 0 <==> (Worth(s) >= w.threshold || Worth(s) >= most) && s.packets >= w.crunchers)
    && (Worth(s) < w.threshold && Worth(s) < most ==>
          (Worth(s) + n == w.threshold && w.threshold <= most) || (Worth(s) + n == most && most <= w.threshold))
    && ((Worth(s) >= w.threshold || Worth(s) >= most) && s.packets < w.crunchers ==>
          n == 100 * (w.crunchers - s.packets))
  }

  // No count of packets or crunchers overflows a word.
  predicate Countables(s: Stock, w: Wants) {
    100 * s.packets < TWO32 && 100 * (w.crunchers as int) < TWO32
  }

  // Nor does a hundred times the limit, or what is left of it reaches the threshold.
  predicate LimitFits(w: Wants) {
    100 * (w.limit as int) < 0x1_0000_0000 || w.threshold <= 100 * w.limit % 0x1_0000_0000
  }

  // What is asked for is right for all that the buffer can hold if and only if the
  // limit fits.
  lemma AskedExactly(w: Wants)
    requires 100 * (w.crunchers as int) < TWO32
    ensures (forall s: Stock :: Countables(s, w) ==> Answers(s, w, UnitsToFetch(s, w))) <==> LimitFits(w)
  {
    if LimitFits(w) {
      forall s: Stock | Countables(s, w)
        ensures Answers(s, w, UnitsToFetch(s, w))
      {
        AskedRight(s, w);
      }
    } else {
      AskedWrong(w);
    }
  }

  lemma AskedRight(s: Stock, w: Wants)
    requires Countables(s, w) && LimitFits(w)
    ensures Answers(s, w, UnitsToFetch(s, w))
  {
    var most := 100 * (w.limit as int);
    if most < TWO32 {
      assert most % TWO32 == most;
    } else {
      assert w.threshold <= most % TWO32 < most;
    }
  }

  // Otherwise an empty buffer shows it, or one with little in it.
  lemma AskedWrong(w: Wants)
    requires 100 * (w.crunchers as int) < TWO32 && !LimitFits(w)
    ensures var s1, s2 := Stock(0, 0), Stock(w.crunchers, 1);
      && Countables(s1, w) && Countables(s2, w)
      && !(Answers(s1, w, UnitsToFetch(s1, w)) && Answers(s2, w, UnitsToFetch(s2, w)))
  {
  }

  // All records are where they were; a missing file may have been created empty.
  ghost predicate Untouched(a: Status, b: Status) {
    && SameKind(a, b) && b.view == a.view && b.capacity == a.capacity
    && (forall m :: Contents(b.disk, m) == Contents(a.disk, m))
  }

  // What the counts of the in-buffer are taken from.
  function InRecords(a: Status): seq<Record> {
    Records(FileOf(a, HERE))
  }

  // BufferAssertIsBufferFull.  A stack is full once it has grown to its largest
  // capacity, however little it holds by now.
  method IsBufferFull(s: BufferStore, limit: u32) returns (full: bool)
    requires s.Valid()
    modifies s.disk
    ensures s.Valid() && Untouched(old(s.Now()), s.Now())
    ensures !full ==> s.Now().faults == old(s.Now().faults)
    ensures s.nodiskbuffers ==> (full <==> s.Now().capacity == COUNT_MAX)
    ensures s.nodiskbuffers && !full ==> |s.Now().view[HERE]| < COUNT_MAX
    ensures !s.nodiskbuffers && !full ==>
      Countable(old(FileOf(s.Now(), HERE))) && Matching(old(InRecords(s.Now())), RC5_72) < limit
    ensures !s.nodiskbuffers && full && s.Now().faults == old(s.Now().faults) ==>
      !Countable(old(FileOf(s.Now(), HERE))) || Matching(old(InRecords(s.Now())), RC5_72) >= limit
  {
    hide Readable, Records, Matching, UnitsIn, Countable;
    ghost var a := s.Now();
    if !s.nodiskbuffers {
      var rc, packets, units := s.disk.CountFileRecords(LocalOf(HERE), RC5_72);
      full := rc != 0 || packets >= limit;
    } else {
      full := s.membufftable[HERE].maxcount >= COUNT_MAX;
    }
    assert s.Now().view == a.view;
  }

  // GetBufferCount with stats units wanted
  method GetBufferCount(s: BufferStore) returns (count: int, units: u32)
    requires s.Valid()
    modifies s.disk
    ensures s.Valid() && Untouched(old(s.Now()), s.Now())
    ensures count >= -1
    ensures count >= 0 ==> s.Now().faults == old(s.Now().faults) && (s.nodiskbuffers || !s.prefixesClash)
    ensures count >= 0 && s.nodiskbuffers ==>
      count == MatchingValid(s.Now().view[HERE], RC5_72) && units == UnitsIn(s.Now().view[HERE], RC5_72)
    ensures count >= 0 && !s.nodiskbuffers ==>
      count == Matching(old(InRecords(s.Now())), RC5_72) && units == UnitsIn(old(InRecords(s.Now())), RC5_72)
    ensures count == -1 && s.Now().faults == old(s.Now().faults) ==>
      !s.nodiskbuffers && (s.prefixesClash || !Countable(old(FileOf(s.Now(), HERE))))
  {
    hide Readable, Records, Matching, UnitsIn, MatchingValid, Countable;
    ghost var a := s.Now();
    count, units := -1, 0;
    if !s.nodiskbuffers {
      if s.prefixesClash {
        return;
      }
      var rc, packets;
      rc, packets, units := s.disk.CountFileRecords(LocalOf(HERE), RC5_72);
      count := if rc == 0 then packets else -1;
    } else {
      count, units := s.membufftable[HERE].Count(RC5_72, true);
    }
    assert s.Now().view == a.view;
  }

  function InStock(a: Status): Stock
    requires |a.view| == BUFFERS
  {
    if a.mem then Stock(MatchingValid(a.view[HERE], RC5_72), UnitsIn(a.view[HERE], RC5_72))
    else Stock(Matching(InRecords(a), RC5_72), UnitsIn(InRecords(a), RC5_72))
  }

  // The in-buffer is given no more: its stack has grown to the largest capacity,
  // or its file cannot be used or holds the limit.
  predicate NoRoom(a: Status, w: Wants)
    requires |a.view| == BUFFERS
  {
    if a.mem then a.capacity == COUNT_MAX
    else a.clash || !Countable(FileOf(a, HERE)) || InStock(a).packets >= w.limit
  }

  function StockMore(s: Stock, r: Record): Stock {
    Stock(s.packets + 1, AddWrap(s.units, Units(r)))
  }

  // What a buffer holds after those records came in.
  function StockAfter(s: Stock, moved: seq<Record>): Stock {
    if moved == [] then s else StockMore(StockAfter(s, moved[..|moved| - 1]), moved[|moved| - 1])
  }

  // Unfinished work counts wherever it lands.
  lemma StackStock(view: seq<Record>, r: Record)
    requires r[CONTEST] == RC5_72 && r[RESULTCODE] == RESULT_WORKING
    ensures Stock(MatchingValid(view + [r], RC5_72), UnitsIn(view + [r], RC5_72))
      == StockMore(Stock(MatchingValid(view, RC5_72), UnitsIn(view, RC5_72)), r)
  {
    assert (view + [r])[..|view|] == view;
  }

  lemma FileStock(mode: bool, f: File, r: Record)
    requires r[CONTEST] == RC5_72 && r[RESULTCODE] == RESULT_WORKING
    requires Homogeneous(f) && PutKeepsFormat(mode, f, r, true)
    ensures var g := PutFile(mode, f, r, true).file;
      Stock(Matching(Records(g), RC5_72), UnitsIn(Records(g), RC5_72))
      == StockMore(Stock(Matching(Records(f), RC5_72), UnitsIn(Records(f), RC5_72)), r)
  {
    hide Records, PutFile, Matching, UnitsIn, PutKeepsFormat, Adds;
    Delivered(mode, f, r, true);
    AddsCounts(Records(f), Terminate(r), Records(PutFile(mode, f, r, true).file), RC5_72);
    TerminateKeeps(r);
  }

  lemma TerminateKeeps(r: Record)
    ensures Terminate(r)[CONTEST] == r[CONTEST] && Terminate(r)[RESULTCODE] == r[RESULTCODE]
    ensures Units(Terminate(r)) == Units(r)
  {
  }

  // How much is wanted, by what the in-buffer holds.
  function AskedFor(a: Status, w: Wants): u32
    requires |a.view| == BUFFERS
  {
    if NoRoom(a, w) then 0 else UnitsToFetch(InStock(a), w)
  }

  // The in-buffer can take another record.
  ghost predicate HasRoom(a: Status) {
    if a.mem then |a.view| == BUFFERS && |a.view[HERE]| < COUNT_MAX else !a.clash
  }

  // BufferReComputeUnitsToFetch.  A positive answer means that the in-buffer can
  // take another record.
  method ReComputeUnitsToFetch(s: BufferStore, w: Wants) returns (swucount: u32)
    requires s.Valid()
    modifies s.disk
    ensures s.Valid() && Untouched(old(s.Now()), s.Now())
    ensures swucount == old(AskedFor(s.Now(), w)) || (swucount == 0 && s.Now().faults > old(s.Now().faults))
    ensures swucount > 0 ==> s.Now().faults == old(s.Now().faults) && HasRoom(s.Now())
    ensures old(NoRoom(s.Now(), w)) ==> swucount == 0
    ensures LimitFits(w) && Countables(old(InStock(s.Now())), w) && s.Now().faults == old(s.Now().faults) ==>
      old(NoRoom(s.Now(), w)) || Answers(old(InStock(s.Now())), w, swucount)
  {
    hide Readable, Records, Matching, UnitsIn, MatchingValid, UnitsToFetch, Countable, Coherent, Answers, LimitFits,
         Countables, BufferStore.Valid, BufferStore.Held;
    ghost var stock := InStock(s.Now());
    if LimitFits(w) && Countables(stock, w) {
      AskedRight(stock, w);
    }
    swucount := 0;
    var full := IsBufferFull(s, w.limit);
    if !full {
      var packets, units := GetBufferCount(s);
      if packets >= 0 {
        swucount := UnitsToFetch(Stock(packets, units), w);
      }
    }
  }

  lemma UntouchedSame(a: Status, n: FileName, b: Status)
    requires Coherent(a) && Coherent(b) && Untouched(a, b)
    ensures Place(b, n) == Place(a, n) && Wide(b, n) == Wide(a, n) && Contents(b.disk, n) == Contents(a.disk, n)
    ensures WideFormatted(a, n) <==> WideFormatted(b, n)
    ensures WideBalanced(a, n, FREE, [], b)
    ensures forall puts: nat :: WideTame(a, n, puts) <==> WideTame(b, n, puts)
    ensures SlotsIn(b) == SlotsIn(a) && BlanksIn(b) == BlanksIn(a)
  {
    hide Homogeneous, TameFile, Readable, Accounted;
    SameRecords(a, n, b);
    NothingAccounted(Wide(a, n));
    assert FileOf(b, HERE) == FileOf(a, HERE);
  }

  lemma UntouchedAsk(a: Status, b: Status, w: Wants)
    requires Coherent(a) && Coherent(b) && Untouched(a, b)
    ensures AskedFor(b, w) == AskedFor(a, w) && InStock(b) == InStock(a)
  {
    assert FileOf(b, HERE) == FileOf(a, HERE);
  }

  // ---------- how the in-buffer's count grows ----------

  // The number that the next Put into a file is to exceed: packets counted by
  // the header, or live stock records.
  function SlotsUsed(f: File): nat {
    if IsHeader(f) then MooCount(f) else |StockRecords(f)|
  }

  // A Put reports one more than that, unless it fills a blank Moo packet.
  lemma PutGrows(mode: bool, f: File, r: Record, w: bool)
    requires Homogeneous(f) && PutKeepsFormat(mode, f, r, w)
    ensures var put := PutFile(mode, f, r, w);
      && put.count == SlotsUsed(put.file)
      && (Blanks(f) > 0 ==> put.count == SlotsUsed(f) && Blanks(put.file) == Blanks(f) - 1)
      && (Blanks(f) == 0 ==> put.count == SlotsUsed(f) + 1 && Blanks(put.file) == 0)
  {
    hide MooPut, StockPut, MooRoom, MooImage, StockRecords, MooRecords;
    PutHomogeneous(mode, f, r, w);
    if UsesMoo(mode, f) {
      MooPutCount(f, r);
      MooIsNotStock(MooPut(f, r).file);
      NothingHeld();
    } else {
      StockPutAdds(f, r, w);
      AddsBag(StockRecords(f), Settled(r), StockRecords(StockPut(f, r, w).file));
    }
  }

  lemma NothingHeld()
    ensures StockRecords([]) == [] && !IsHeader([])
  {
  }

  // Taking a packet and putting a record back leaves the header's count alone.
  lemma GetThenPut(f: File, r: Record)
    requires IsHeader(f) && MooGet(f).Got?
    ensures var put := MooPut(MooGet(f).file, r);
      IsHeader(put.file) && put.count == MooCount(f) && MooCount(put.file) == MooCount(f)
  {
    hide MooImage, MooKept, MooRead;
    var i := FirstLive(Reachable(f), BlankPacket());
    BlankedPacket(f);
    var g := MooGet(f).file;
    var j := FirstBlank(Reachable(g), BlankPacket());
    assert j <= i;
    var put := MooPut(g, r).file;
    assert put[..8] == g[..8];
    assert put[0] == put[..8][0] == g[..8][0] == g[0];
  }

  lemma BlankedPacket(f: File)
    requires IsHeader(f) && MooGet(f).Got?
    ensures var g, i := MooGet(f).file, FirstLive(Reachable(f), BlankPacket());
      && IsHeader(g) && MooCount(g) == MooCount(f)
      && i < |Reachable(g)| && Reachable(g)[i] == BlankPacket()
  {
    hide MooImage, MooKept, MooRead;
    var i := FirstLive(Reachable(f), BlankPacket());
    ChunkWrite(f[8..], 44, i, BlankPacket());
    assert f == f[..8] + f[8..];
    WriteAfterPrefix(f[..8], f[8..], 44 * i, BlankPacket());
    var g := MooGet(f).file;
    assert g[..8] == f[..8] && g[8..] == WriteAt(f[8..], 44 * i, BlankPacket());
    assert g[0] == g[..8][0] == f[0];
    assert Reachable(g) == Reachable(f)[i := BlankPacket()];
  }

  // The same of the in-buffer, in memory or on disk.
  function SlotsIn(a: Status): nat
    requires |a.view| >= BUFFERS
  {
    if a.mem then |a.view[HERE]| else SlotsUsed(FileOf(a, HERE))
  }

  function BlanksIn(a: Status): nat {
    if a.mem then 0 else Blanks(FileOf(a, HERE))
  }

  // The record that has just been put into the in-buffer, and the count that
  // the Put reported.
  ghost predicate Grown(slots: nat, blanks: nat, count: nat, slotsNow: nat, blanksNow: nat) {
    && count == slotsNow
    && (blanks > 0 ==> slotsNow == slots && blanksNow == blanks - 1)
    && (blanks == 0 ==> slotsNow == slots + 1 && blanksNow == 0)
  }

  // ---------- a record that goes back into the file it came from ----------

  // The records in a buffer that do not belong there.
  function Strangers(s: seq<Record>, i: nat): nat {
    if s == [] then 0 else (if AtHome(s[0], i) then 0 else 1) + Strangers(s[1..], i)
  }

  lemma {:induction false} StrangersConcat(s: seq<Record>, t: seq<Record>, i: nat)
    ensures Strangers(s + t, i) == Strangers(s, i) + Strangers(t, i)
  {
    if s == [] {
      assert s + t == t;
    } else {
      assert (s + t)[1..] == s[1..] + t;
      StrangersConcat(s[1..], t, i);
    }
  }

  lemma StrangersAdded(before: seq<Record>, r: Record, after: seq<Record>, i: nat)
    requires Adds(before, r, after) && AtHome(r, i)
    ensures Strangers(after, i) == Strangers(before, i)
    ensures forall x :: x in after ==> x == r || x in before
  {
    hide Strangers, AtHome;
    var k: nat :| k <= |before| && after == Inserted(before, k, r);
    var low, high := before[..k], before[k..];
    OneStranger(r, i);
    StrangersConcat(low, high, i);
    StrangersConcat(low, [r], i);
    StrangersConcat(low + [r], high, i);
    assert before == low + high && after == low + [r] + high;
  }

  lemma OneStranger(r: Record, i: nat)
    ensures Strangers([r], i) == if AtHome(r, i) then 0 else 1
  {
    assert [r][1..] == [];
  }

  // How far a file is from holding only records that go back into it.
  function Bit(f: File): nat {
    if IsHeader(f) then 0 else 1
  }

  // Taking a record that is at home in this very buffer and putting it back: the
  // file turns into a Moo file, or has as many records and slots as before.
  lemma BackToItself(f: File, i: nat, mode: bool)
    requires Openable(f) && GetFile(f).Got? && AtHome(GetFile(f).data, i) && (i == HERE || i == OUT)
    ensures var g, r := GetFile(f).file, GetFile(f).data;
      var put := PutFile(mode, g, r, true);
      && Openable(put.file)
      && (Bit(put.file) < Bit(f) ||
          (Bit(put.file) == Bit(f) && Strangers(Readable(put.file), i) == Strangers(Readable(f), i)
           && put.count == SlotsUsed(put.file) == SlotsUsed(f)))
      && (IsHeader(f) ==> IsHeader(put.file))
      && (!IsHeader(put.file) ==> forall x :: x in Readable(put.file) ==> x in Readable(f))
  {
    hide MooGet, StockGet, MooPut, StockPut, AtHome, MooCount;
    var g, r := GetFile(f).file, GetFile(f).data;
    TookFrom(f);
    GotShape(f);
    AtHomeKeepable(r, i);
    if IsHeader(f) {
      GetThenPut(f, r);
      MooAtHome(f, i);
      MooAtHome(MooPut(g, r).file, i);
    } else {
      StockGetLowest(f);
      StockGetNoHeader(f);
      if UsesMoo(mode, g) {
        HeaderStays(g, r);
      } else {
        StockBack(f, i);
      }
    }
  }

  lemma AtHomeKeepable(r: Record, i: nat)
    ensures AtHome(r, i) && (Routable(r) ==> Keepable(r)) ==> Keepable(r)
    ensures Keepable(r) && r[RESULTCODE] == RESULT_WORKING ==> AtHome(r, HERE)
    ensures AtHome(r, i) && Keepable(r) && r[RESULTCODE] == RESULT_WORKING ==> i == HERE
  {
  }

  // All that is read from a Moo file belongs into the in-buffer.
  lemma MooAtHome(f: File, i: nat)
    requires IsHeader(f)
    ensures Strangers(Readable(f), HERE) == 0
  {
    hide MooKept, AtHome, Readable;
    forall r | r in Readable(f)
      ensures AtHome(r, HERE)
    {
      ReadableShape(f, r);
      AtHomeKeepable(r, HERE);
    }
    NoStrangers(Readable(f), HERE);
  }

  lemma {:induction false} NoStrangers(s: seq<Record>, i: nat)
    requires forall r :: r in s ==> AtHome(r, i)
    ensures Strangers(s, i) == 0
  {
    if s == [] {
    } else {
      NoStrangers(s[1..], i);
    }
  }

  lemma StockBack(f: File, i: nat)
    requires |f| % 42 == 0 && !IsHeader(f) && StockGet(f).Got? && AtHome(StockGet(f).data, i)
    requires Keepable(StockGet(f).data)
    ensures var g, r := StockGet(f).file, StockGet(f).data;
      var put := StockPut(g, r, true);
      && |put.file| % 42 == 0
      && put.count == |StockRecords(put.file)| == |StockRecords(f)|
      && Strangers(StockRecords(put.file), i) == Strangers(StockRecords(f), i)
      && forall x :: x in StockRecords(put.file) ==> x in StockRecords(f)
  {
    hide AtHome, StockRecords, StockPut, StockGet;
    var g, r := StockGet(f).file, StockGet(f).data;
    StockGetLowest(f);
    StockPutAdds(g, r, true);
    assert Settled(r) == r;
    AddsBag(StockRecords(g), r, StockRecords(StockPut(g, r, true).file));
    StrangersAdded(StockRecords(g), r, StockRecords(StockPut(g, r, true).file), i);
    StrangersConcat([r], StockRecords(g), i);
    assert [r][1..] == [];
  }

  // Back in the in-buffer, in a format that was kept, the count is as before.
  lemma SteadyCount(f: File, mode: bool)
    requires Openable(f) && GetFile(f).Got? && AtHome(GetFile(f).data, HERE)
    requires IsHeader(f) || (Homogeneous(f) && PutKeepsFormat(mode, GetFile(f).file, GetFile(f).data, true))
    ensures var put := PutFile(mode, GetFile(f).file, GetFile(f).data, true);
      put.count == SlotsUsed(put.file) == SlotsUsed(f)
  {
    hide MooGet, StockGet, MooPut, StockPut, AtHome, MooCount, PutKeepsFormat, StockRecords, MooRecords;
    var g, r := GetFile(f).file, GetFile(f).data;
    if IsHeader(f) {
      TookFrom(f);
      GetThenPut(f, r);
    } else {
      GetHomogeneousShort(f);
      PutGrows(mode, g, r, true);
      StockGetLowest(f);
      StockGetNoHeader(f);
      assert Blanks(g) == 0;
    }
  }

  // ---------- one pass ----------

  datatype FetchStep = NoRemote | RemoteEmpty | WrongContest | NotSaved | Moved(count: nat)

  // The step of an import that moves the same records.
  function Alike(step: FetchStep): ImportStep {
    match step
    case NoRemote => Drained
    case RemoteEmpty => Drained
    case WrongContest => PutBack
    case NotSaved => PutBack
    case Moved(_) => Imported
  }

  // Why the loop goes on or ends.
  ghost predicate FetchReasons(a: Status, n: FileName, step: FetchStep, data: Record, toll: Toll, c: Status)
    requires Coherent(a) && Coherent(c)
  {
    var f := Contents(a.disk, n);
    && (a.disk.refusesRemote && !step.NoRemote? ==> IsHeader(f))
    && (step.NoRemote? ==> Contents(c.disk, n) == f)
    && (step.RemoteEmpty? && c.faults == a.faults ==> Source(a, n) == [] && Contents(c.disk, n) == [])
    && (step.WrongContest? ==> data[CONTEST] != RC5_72)
    && (step.NotSaved? || step.Moved? ==> data[CONTEST] == RC5_72)
    && (step.NoRemote? && Homogeneous(f) && c.faults == a.faults ==> a.disk.refusesRemote && !IsHeader(f))
    && (step.NotSaved? && WideFormatted(a, n) && c.faults == a.faults && Routable(data) ==>
          if a.mem then |a.view[HomeOf(data)]| == COUNT_MAX else a.clash)
    && (toll.dropped != [] ==>
          && toll.dropped == [data] && (step.WrongContest? || step.NotSaved?)
          && (Homogeneous(f) ==> c.faults > a.faults))
  }

  // What a transfer does to the measure by which the loop ends.
  ghost predicate Falls(a: Status, n: FileName, data: Record, count: nat, c: Status) {
    var f, g, p := Contents(a.disk, n), Contents(c.disk, n), Place(a, n);
    && (|| Bit(g) < Bit(f)
        || (Bit(g) == Bit(f) && Strangers(Source(c, n), p) < Strangers(Source(a, n), p))
        || (Bit(g) == Bit(f) && Strangers(Source(c, n), p) == Strangers(Source(a, n), p)
            && AtHome(data, p) && count == SlotsUsed(g) == SlotsUsed(f)))
    && (IsHeader(g) || forall x :: x in Source(c, n) ==> x in Source(a, n))
  }

  // What a transfer of unfinished work does to the count of the in-buffer.
  ghost predicate Counted(a: Status, n: FileName, count: nat, kept: bool, c: Status)
    requires |a.view| >= BUFFERS && |c.view| >= BUFFERS
  {
    if Place(a, n) == HERE then kept || IsHeader(Contents(a.disk, n)) ==> count == SlotsIn(c) == SlotsIn(a)
    else kept ==> Grown(SlotsIn(a), BlanksIn(a), count, SlotsIn(c), BlanksIn(c))
  }

  // And to what the in-buffer holds.
  ghost predicate Stocked(a: Status, n: FileName, data: Record, kept: bool, c: Status)
    requires |a.view| == BUFFERS && |c.view| == BUFFERS
  {
    kept && Place(a, n) != HERE ==> InStock(c) == StockMore(InStock(a), data)
  }

  ghost predicate FetchMeans(a: Status, n: FileName, step: FetchStep, data: Record, toll: Toll, c: Status)
    requires Coherent(a) && Coherent(c)
  {
    && SameKind(a, c) && Place(c, n) == Place(a, n)
    && PassMoves(a, n, Alike(step), data, c) && FetchReasons(a, n, step, data, toll, c)
    && PassForgets(a, n, Alike(step), data, toll, c)
    && WideBalanced(a, n, toll, [], c)
    && (step.Moved? ==> Falls(a, n, data, step.count, c))
    && (step.Moved? && data[RESULTCODE] == RESULT_WORKING ==>
        Counted(a, n, step.count, toll.fits && WideFormatted(a, n), c))
    && (step.Moved? && data[RESULTCODE] == RESULT_WORKING ==> Stocked(a, n, data, toll.fits && WideFormatted(a, n), c))
  }

  lemma FetchEnded(a: Status, n: FileName, rc: int, data: Record, remaining: nat, b: Status)
    requires Coherent(a) && Coherent(b) && RemoteTook(a, n, rc, data, remaining, b) && rc != 0
    ensures FetchMeans(a, n, if rc < 0 then NoRemote else RemoteEmpty, data, FREE, b)
  {
    hide Readable, Homogeneous, Matching, IsHeader, HomeOf, WideBalanced, MooCount, Keepable;
    EmptyIsHomogeneous();
    EmptyNoHeader();
    OutStays(a, n, b);
  }

  lemma FetchWrong(a: Status, n: FileName, data: Record, remaining: nat, b: Status, back: int, c: Status)
    requires Coherent(a) && Coherent(b) && Coherent(c) && RemoteTook(a, n, 0, data, remaining, b)
    requires data[CONTEST] != RC5_72 && RemoteGave(b, n, data, true, back, c)
    ensures FetchMeans(a, n, WrongContest, data, if back == 0 then GivingToll(b, n, data) else Toll([data], [], true),
                       c)
  {
    hide Readable, Homogeneous, Matching, IsHeader, WideBalanced, MooCount, PutFile, Entered, FrontFree, WideFormatted,
         Suits, Forgets, LandsAs, UsesMoo;
    assert data in [data] + Source(b, n);
    OutStays(a, n, b);
    OutStays(b, n, c);
    WrongBalanced(a, n, data, remaining, b, back, c);
    WrongForgets(b, n, data, back, c);
    UsesHeader(Sniff(b.disk, n).mooMode, Contents(b.disk, n));
  }

  lemma UsesHeader(mode: bool, f: File)
    ensures IsHeader(f) ==> UsesMoo(mode, f)
  {
  }

  lemma WrongForgets(b: Status, n: FileName, data: Record, back: int, c: Status)
    requires Coherent(b) && Coherent(c) && RemoteGave(b, n, data, true, back, c)
    ensures GivingToll(b, n, data).forgot == [] || GivingToll(b, n, data).forgot == [data]
    ensures back == 0 && GivingToll(b, n, data).forgot != [] && GivingToll(b, n, data).fits ==>
      IsHeader(Contents(c.disk, n))
  {
    hide Readable, Homogeneous, PutFile, PutKeepsFormat, MooRead, MooImage, Entered;
  }

  lemma WrongBalanced(a: Status, n: FileName, data: Record, remaining: nat, b: Status, back: int, c: Status)
    requires Coherent(a) && Coherent(b) && Coherent(c) && RemoteTook(a, n, 0, data, remaining, b)
    requires RemoteGave(b, n, data, true, back, c)
    ensures WideBalanced(a, n, if back == 0 then GivingToll(b, n, data) else Toll([data], [], true), [], c)
  {
    hide Readable, Homogeneous, Matching, IsHeader, MooCount, PutFile, Entered, Accounted, FrontFree, WideFormatted,
         Suits, Forgets, UsesMoo, FileTook, Wide;
    var toll := if back == 0 then GivingToll(b, n, data) else Toll([data], [], true);
    if toll.fits && WideFormatted(a, n) {
      AccountMove(Wide(a, n), Wide(b, n), Wide(c, n), data, toll.forgot);
    }
  }

  lemma AwayFalls(a: Status, n: FileName, data: Record, remaining: nat, b: Status, count: nat, c: Status)
    requires Coherent(a) && Coherent(b) && Coherent(c) && RemoteTook(a, n, 0, data, remaining, b)
    requires Contents(c.disk, n) == Contents(b.disk, n) && !AtHome(data, Place(a, n))
    ensures Falls(a, n, data, count, c)
  {
    hide Readable, Homogeneous, Matching, IsHeader, MooCount, AtHome, WideBalanced, FrontFree;
    StrangersConcat([data], Source(c, n), Place(a, n));
    assert [data][1..] == [];
  }

  lemma BackFalls(a: Status, n: FileName, data: Record, remaining: nat, b: Status, count: nat, toll: Toll, c: Status)
    requires Coherent(a) && Coherent(b) && Coherent(c) && data[CONTEST] == RC5_72
    requires GetMeans(a, n, true, 0, data, remaining, b) && RemoteTook(a, n, 0, data, remaining, b)
    requires SaveMeans(b, n, data, true, Kept(count), toll, c) && AtHome(data, Place(a, n))
    ensures Falls(a, n, data, count, c)
    ensures Place(a, n) == HERE && ((toll.fits && WideFormatted(a, n)) || IsHeader(Contents(a.disk, n))) ==>
      count == SlotsIn(c) == SlotsIn(a)
  {
    hide Readable, Homogeneous, Matching, MooCount, WideBalanced, Entered, GetFile, PutFile, SlotsUsed, Strangers,
         Records, IsHeader, FrontFree, PutKeepsFormat, LandsAs, Wide, Accounted;
    var f, h := Contents(a.disk, n), HomeOf(data);
    HomeOfHandled(data);
    assert n == LocalOf(h) && FileOf(b, h) == Contents(b.disk, n) && FileOf(c, h) == Contents(c.disk, n);
    var mode := Sniff(b.disk, n).mooMode;
    BackToItself(f, h, mode);
    if h == HERE && ((toll.fits && WideFormatted(a, n)) || IsHeader(f)) {
      SteadyCount(f, mode);
    }
  }

  lemma AwayGrows(a: Status, n: FileName, data: Record, remaining: nat, b: Status, count: nat, toll: Toll, c: Status)
    requires Coherent(a) && Coherent(b) && Coherent(c) && data[CONTEST] == RC5_72 && data[RESULTCODE] == RESULT_WORKING
    requires RemoteTook(a, n, 0, data, remaining, b) && Place(a, n) != HERE
    requires SaveMeans(b, n, data, true, Kept(count), toll, c) && toll.fits && WideFormatted(a, n)
    ensures Grown(SlotsIn(a), BlanksIn(a), count, SlotsIn(c), BlanksIn(c))
  {
    hide Readable, Homogeneous, Matching, MooCount, WideBalanced, Entered, GetFile, PutFile, SlotsUsed, Records,
         IsHeader, FrontFree, PutKeepsFormat, LandsAs, Wide, Blanks, FileTook;
    HomeOfHandled(data);
    if !a.mem {
      if n == LocalOf(HERE) {
        PlaceOf(a, n, HERE);
      }
      assert FileOf(b, HERE) == FileOf(a, HERE);
      PutGrows(Sniff(b.disk, LocalOf(HERE)).mooMode, FileOf(a, HERE), data, true);
    }
  }

  lemma AwayStocked(a: Status, n: FileName, data: Record, remaining: nat, b: Status, count: nat, toll: Toll, c: Status)
    requires Coherent(a) && Coherent(b) && Coherent(c) && data[CONTEST] == RC5_72 && data[RESULTCODE] == RESULT_WORKING
    requires RemoteTook(a, n, 0, data, remaining, b) && Place(a, n) != HERE
    requires SaveMeans(b, n, data, true, Kept(count), toll, c) && toll.fits && WideFormatted(a, n)
    ensures InStock(c) == StockMore(InStock(a), data)
  {
    hide Readable, Homogeneous, Matching, MooCount, WideBalanced, Entered, GetFile, PutFile, SlotsUsed, Records,
         IsHeader, FrontFree, PutKeepsFormat, LandsAs, Wide, Blanks, FileTook, MatchingValid, UnitsIn, StockMore;
    HomeOfHandled(data);
    if a.mem {
      StackStock(a.view[HERE], data);
    } else {
      if n == LocalOf(HERE) {
        PlaceOf(a, n, HERE);
      }
      assert FileOf(b, HERE) == FileOf(a, HERE);
      FileStock(Sniff(b.disk, LocalOf(HERE)).mooMode, FileOf(a, HERE), data);
    }
  }

  lemma KeptFetch(a: Status, n: FileName, data: Record, remaining: nat, b: Status, count: nat, toll: Toll, c: Status)
    requires Coherent(a) && Coherent(b) && Coherent(c) && data[CONTEST] == RC5_72
    requires GetMeans(a, n, true, 0, data, remaining, b) && RemoteTook(a, n, 0, data, remaining, b)
    requires SaveMeans(b, n, data, true, Kept(count), toll, c)
    ensures Falls(a, n, data, count, c)
    ensures data[RESULTCODE] == RESULT_WORKING ==> Counted(a, n, count, toll.fits && WideFormatted(a, n), c)
    ensures data[RESULTCODE] == RESULT_WORKING ==> Stocked(a, n, data, toll.fits && WideFormatted(a, n), c)
  {
    hide Readable, Homogeneous, Matching, MooCount, WideBalanced, Entered, GetFile, PutFile, SlotsUsed, Records,
         IsHeader, StoreGains, FrontFree, PutKeepsFormat, LandsAs, Wide, Blanks, FileTook, Falls, GetMeans, Grown,
         InStock, StockMore,
         Coherent, RemoteTook, SaveMeans, WideFormatted;
    KeptHome(b, n, data, count, toll, c);
    TookPlace(a, n, data, remaining, b);
    if AtHome(data, Place(a, n)) {
      BackFalls(a, n, data, remaining, b, count, toll, c);
    } else {
      SavedMoves(a, n, data, remaining, b, true, Kept(count), toll, c);
      AwayFalls(a, n, data, remaining, b, count, c);
    }
    if data[RESULTCODE] == RESULT_WORKING {
      HomeOfHandled(data);
      if Place(a, n) != HERE && toll.fits && WideFormatted(a, n) {
        AwayGrows(a, n, data, remaining, b, count, toll, c);
        AwayStocked(a, n, data, remaining, b, count, toll, c);
      }
    }
  }

  lemma TookPlace(a: Status, n: FileName, data: Record, remaining: nat, b: Status)
    requires Coherent(a) && Coherent(b) && RemoteTook(a, n, 0, data, remaining, b)
    ensures |a.view| == |b.view| == BUFFERS && Place(b, n) == Place(a, n)
  {
  }

  lemma KeptHome(b: Status, n: FileName, data: Record, count: nat, toll: Toll, c: Status)
    requires Coherent(b) && Coherent(c) && SaveMeans(b, n, data, true, Kept(count), toll, c)
    ensures Routable(data) && AtHome(data, HomeOf(data)) && |c.view| == BUFFERS
  {
  }

  lemma FetchSaved(a: Status, n: FileName, data: Record, remaining: nat, b: Status, saving: Saving, toll: Toll,
                   c: Status)
    requires Coherent(a) && Coherent(b) && Coherent(c) && data[CONTEST] == RC5_72
    requires GetMeans(a, n, true, 0, data, remaining, b) && RemoteTook(a, n, 0, data, remaining, b)
    requires SaveMeans(b, n, data, true, saving, toll, c)
    ensures FetchMeans(a, n, if saving.Kept? then Moved(saving.count) else NotSaved, data, toll, c)
  {
    hide Readable, Homogeneous, Matching, IsHeader, WideBalanced, MooCount, PutFile, Entered, Entering, FrontFree,
         WideFormatted, StoreGains, Falls, Counted, Stocked, GetMeans, Formatted, FileTook, GetFile, StoreMeans;
    SavedMoves(a, n, data, remaining, b, true, saving, toll, c);
    SavedForgets(a, n, data, remaining, b, true, saving, toll, c);
    MoveBalanced(a, n, data, true, b, saving, toll, c);
    FetchSavedReasons(a, n, data, remaining, b, saving, toll, c);
    if saving.Kept? {
      KeptFetch(a, n, data, remaining, b, saving.count, toll, c);
    }
  }

  lemma FetchSavedReasons(a: Status, n: FileName, data: Record, remaining: nat, b: Status, saving: Saving, toll: Toll,
                          c: Status)
    requires Coherent(a) && Coherent(b) && Coherent(c) && data[CONTEST] == RC5_72
    requires RemoteTook(a, n, 0, data, remaining, b) && SaveMeans(b, n, data, true, saving, toll, c)
    ensures FetchReasons(a, n, if saving.Kept? then Moved(saving.count) else NotSaved, data, toll, c)
  {
    hide Readable, Homogeneous, Matching, IsHeader, MooCount, Keepable, PutFile, Entered, Entering, FrontFree,
         StoreGains, WideFormatted, Wide, Accounted;
    StaysFormatted(a, n, b);
    if saving.Kept? {
      KeptQuiet(b, n, data, saving.count, c);
    }
  }

  // The records of the contest that a transfer leaves in the remote file, if no
  // error kept them from being counted.
  ghost predicate Remains(a: Status, n: FileName, remaining: nat, c: Status) {
    c.faults == a.faults ==> Matching(Source(a, n), RC5_72) == remaining + 1
  }

  lemma TookRemains(a: Status, n: FileName, data: Record, remaining: nat, b: Status, c: Status)
    requires Coherent(a) && Coherent(b) && RemoteTook(a, n, 0, data, remaining, b) && data[CONTEST] == RC5_72
    requires b.faults <= c.faults
    ensures Remains(a, n, remaining, c)
  {
    hide Readable, Homogeneous, IsHeader, WideBalanced, FrontFree;
    var rest := Source(b, n);
    assert Source(a, n) == [data] + rest && ([data] + rest)[1..] == rest;
  }

  method FetchPass(s: BufferStore, remote: FileName, ghost puts: nat)
    returns (step: FetchStep, data: Record, remaining: nat, ghost toll: Toll)
    requires s.Valid()
    modifies s, s.disk, s.membufftable
    ensures s.Valid() && FetchMeans(old(s.Now()), remote, step, data, toll, s.Now())
    ensures step.Moved? ==> Remains(old(s.Now()), remote, remaining, s.Now())
    ensures old(WideTame(s.Now(), remote, puts + 2)) && (step.NotSaved? ==> Routable(data)) && !step.WrongContest? ==>
      toll.fits && WideTame(s.Now(), remote, if step.Moved? then puts + 1 else puts)
  {
    hide Coherent, RemoteTook, SaveMeans, WideTame, FetchMeans, GetMeans, RemoteGave, PutMeans, GivingToll, Routable,
         Keepable, Contents, BufferStore.Now, BufferStore.Valid, BufferStore.Held;
    ghost var a := s.Now();
    ghost var tame := WideTame(a, remote, puts + 2);
    toll := FREE;
    var rc;
    rc, data, remaining := s.GetFileRecord(remote, true);
    ghost var b := s.Now();
    GetMeansTook(a, remote, rc, data, remaining, b);
    TookRecord(a, remote, rc, data, remaining, b);
    if tame {
      TookTame(a, remote, rc, data, remaining, b, puts + 2);
      WideTameLess(b, remote, puts + 2, puts);
    }
    if rc != 0 {
      step := if rc < 0 then NoRemote else RemoteEmpty;
      FetchEnded(a, remote, rc, data, remaining, b);
      return;
    }
    if data[CONTEST] != RC5_72 {
      var back, ignored := s.PutFileRecord(remote, data, false, true);
      ghost var c := s.Now();
      PutMeansGave(b, remote, data, true, back, ignored, c);
      FetchWrong(a, remote, data, remaining, b, back, c);
      step := WrongContest;
      toll := if back == 0 then GivingToll(b, remote, data) else Toll([data], [], true);
      return;
    }
    var saving;
    saving, toll := SaveOrReturn(s, remote, data, true, puts);
    ghost var c := s.Now();
    FetchSaved(a, remote, data, remaining, b, saving, toll, c);
    SaveFaults(b, remote, data, saving, toll, c);
    TookRemains(a, remote, data, remaining, b, c);
    step := if saving.Kept? then Moved(saving.count) else NotSaved;
  }

  lemma SaveFaults(b: Status, n: FileName, data: Record, saving: Saving, toll: Toll, c: Status)
    requires Coherent(b) && Coherent(c) && SaveMeans(b, n, data, true, saving, toll, c)
    ensures b.faults <= c.faults
  {
  }

  // ---------- the growth guard ----------

  // The growth guard after k transfers: whether the remote file is the in-buffer
  // itself, the blank packets the in-buffer had at first, the last count seen
  // and the warnings so far, and the in-buffer's count and blanks now.
  predicate GuardState(alias: bool, blanks0: nat, k: nat, last: int, warnings: nat, slots: nat, blanks: nat) {
    && warnings <= MAX_WARNINGS
    && (k > 0 ==> last == slots)
    && (if alias then warnings == if k == 0 then 0 else k - 1
        else
          && blanks == (if k < blanks0 then blanks0 - k else 0)
          && warnings == if k == 0 || blanks0 == 0 then 0 else (if k < blanks0 then k else blanks0) - 1)
  }

  // The guard fires with the fifth transfer, when none of the five has made the
  // count grow, and never otherwise.
  lemma GuardStep(alias: bool, blanks0: nat, k: nat, last: int, warnings: nat, slots: nat, blanks: nat,
                  count: nat, slotsNow: nat, blanksNow: nat)
    requires GuardState(alias, blanks0, k, last, warnings, slots, blanks)
    requires if alias then count == slotsNow == slots else Grown(slots, blanks, count, slotsNow, blanksNow)
    ensures var low := k > 0 && last >= count;
      && (low && warnings >= MAX_WARNINGS <==> k == 4 && (alias || blanks0 >= 5))
      && (!(low && warnings >= MAX_WARNINGS) ==>
            GuardState(alias, blanks0, k + 1, count, if low then warnings + 1 else warnings, slotsNow, blanksNow))
  {
  }

  datatype FetchEnd = Satisfied | ExitAsked | RemoteFailed | RemoteDrained | OtherContest | LocalFailed | Stalled

  // The growth guard stops a fetch exactly when its first five transfers went
  // back into the same file or into packets that were blank before.
  ghost predicate GuardVerdict(a: Status, n: FileName, moved: seq<Record>, end: FetchEnd) {
    var stuck := Place(a, n) == HERE || BlanksIn(a) >= 5;
    && (end.Stalled? <==> |moved| == 5 && stuck)
    && (stuck ==> |moved| <= 5)
  }

  // ---------- the whole fetch ----------

  // Only unfinished work can come out of the remote file.
  ghost predicate OnlyWork(a: Status, n: FileName) {
    a.disk.refusesRemote || IsHeader(Contents(a.disk, n)) || AllWork(Source(a, n))
  }

  // How far a fetch is that started at a and has moved those records.
  ghost predicate Fetched(a: Status, n: FileName, moved: seq<Record>, b: Status)
    requires Coherent(a) && Coherent(b)
  {
    && Gained(a, n, moved, b) && RemoteLeft(a, n, moved, b)
    && (IsHeader(Contents(a.disk, n)) ==> IsHeader(Contents(b.disk, n)))
    && (OnlyWork(a, n) ==> OnlyWork(b, n))
    && (if moved == [] then Contents(b.disk, n) == Contents(a.disk, n)
        else a.disk.refusesRemote ==> IsHeader(Contents(a.disk, n)))
    && (Apart(a, n) && Homogeneous(Contents(a.disk, n)) ==> Homogeneous(Contents(b.disk, n)))
  }

  // The buffers after those records were moved, if only unfinished work was.
  ghost predicate Gained(a: Status, n: FileName, moved: seq<Record>, b: Status)
    requires Coherent(a) && Coherent(b)
  {
    && SameKind(a, b) && Place(b, n) == Place(a, n)
    && (OnlyWork(a, n) ==>
          && AllWork(moved)
          && (forall i :: 0 <= i < BUFFERS && i != HERE && i != Place(a, n) ==> b.view[i] == a.view[i])
          && (a.mem ==> b.view[HERE] == a.view[HERE] + moved))
  }

  // The remote file after those records were moved out of it.
  ghost predicate RemoteLeft(a: Status, n: FileName, moved: seq<Record>, b: Status) {
    Apart(a, n) ==> Source(a, n) == moved + Source(b, n)
  }

  // Results forgotten on the way are now in a Moo file.
  ghost predicate FetchForgets(a: Status, n: FileName, toll: Toll, ended: bool, b: Status) {
    && (OnlyWork(a, n) ==> toll.forgot == [])
    && (Apart(a, n) && toll.forgot != [] && toll.fits ==>
          && !IsHeader(Contents(a.disk, n))
          && ((!b.mem && IsHeader(FileOf(b, OUT))) || (ended && IsHeader(Contents(b.disk, n)))))
  }

  lemma FetchedStart(a: Status, n: FileName)
    requires Coherent(a)
    ensures Fetched(a, n, [], a)
  {
    hide Readable, IsHeader;
    assert [] + Source(a, n) == Source(a, n);
    if a.mem {
      assert a.view[HERE] + [] == a.view[HERE];
    }
  }

  // Counting in between changes nothing.
  lemma FetchedIdle(a: Status, n: FileName, moved: seq<Record>, b: Status, c: Status)
    requires Coherent(a) && Coherent(b) && Coherent(c) && Fetched(a, n, moved, b) && Untouched(b, c)
    ensures Fetched(a, n, moved, c)
  {
    hide Readable, IsHeader;
    UntouchedSame(b, n, c);
  }

  // What a pass takes out of a file with only unfinished work.
  lemma WorkTaken(b: Status, n: FileName, step: FetchStep, data: Record, toll: Toll, c: Status)
    requires Coherent(b) && Coherent(c) && FetchMeans(b, n, step, data, toll, c) && OnlyWork(b, n)
    ensures step.NoRemote? || step.RemoteEmpty?
      || (data[CONTEST] == RC5_72 && data[RESULTCODE] == RESULT_WORKING && Routable(data))
    ensures !step.WrongContest? && toll.forgot == []
    ensures step.Moved? ==> AtHome(data, HERE)
  {
    hide Readable, Homogeneous, IsHeader, WideBalanced, Falls, Counted, Stocked, Strangers;
    WorkForgets(b, n, step, data, toll, c);
  }

  lemma WorkForgets(b: Status, n: FileName, step: FetchStep, data: Record, toll: Toll, c: Status)
    requires Coherent(b) && Coherent(c) && FetchMeans(b, n, step, data, toll, c)
    requires step.NoRemote? || step.RemoteEmpty? || (data[CONTEST] == RC5_72 && data[RESULTCODE] == RESULT_WORKING)
    ensures toll.forgot == []
  {
    hide Readable, Homogeneous, IsHeader, WideBalanced, Falls, Counted, Stocked, Strangers, FetchReasons;
  }

  lemma FetchedStep(a: Status, n: FileName, moved: seq<Record>, b: Status, step: FetchStep, data: Record, u: Toll,
                    c: Status)
    requires Coherent(a) && Coherent(b) && Coherent(c) && Fetched(a, n, moved, b) && FetchMeans(b, n, step, data, u, c)
    ensures step.Moved? ==> Fetched(a, n, moved + [data], c)
    ensures !step.Moved? ==> Gained(a, n, moved, c)
    ensures step.NoRemote? || step.RemoteEmpty? ==> RemoteLeft(a, n, moved, c)
    ensures step.RemoteEmpty? && Apart(a, n) && c.faults == b.faults ==>
      moved == Source(a, n) && Contents(c.disk, n) == []
    ensures OnlyWork(a, n) ==> u.forgot == [] && !step.WrongContest?
  {
    hide Readable, Homogeneous, IsHeader, WideBalanced, Counted, Stocked, Strangers, FetchReasons, PassForgets, AllWork,
         OnlyWork, Source;
    if OnlyWork(a, n) {
      WorkTaken(b, n, step, data, u, c);
    }
    if step.Moved? {
      MovedOut(a, n, moved, b, step.count, data, u, c);
    }
    EmptyOut(b, n, step, data, u, c);
    if Apart(a, n) {
      assert moved + [] == moved;
    }
  }

  lemma EmptyOut(b: Status, n: FileName, step: FetchStep, data: Record, u: Toll, c: Status)
    requires Coherent(b) && Coherent(c) && FetchMeans(b, n, step, data, u, c)
    ensures step.RemoteEmpty? && c.faults == b.faults ==> Source(b, n) == [] && Contents(c.disk, n) == []
    ensures step.RemoteEmpty? || step.NoRemote? ==> Source(c, n) == Source(b, n)
  {
    hide Readable, Homogeneous, IsHeader, WideBalanced, Counted, Stocked, Strangers, PassForgets, Falls;
  }

  lemma MovedOut(a: Status, n: FileName, moved: seq<Record>, b: Status, count: nat, data: Record, u: Toll, c: Status)
    requires Coherent(a) && Coherent(b) && Coherent(c) && Fetched(a, n, moved, b)
    requires FetchMeans(b, n, Moved(count), data, u, c)
    ensures RemoteLeft(a, n, moved + [data], c)
    ensures IsHeader(Contents(b.disk, n)) ==> IsHeader(Contents(c.disk, n))
    ensures OnlyWork(b, n) ==> OnlyWork(c, n)
    ensures OnlyWork(b, n) && OnlyWork(a, n) ==> AllWork(moved + [data])
    ensures Apart(b, n) && Homogeneous(Contents(b.disk, n)) ==> Homogeneous(Contents(c.disk, n))
    ensures b.disk.refusesRemote ==> IsHeader(Contents(b.disk, n))
  {
    hide Readable, Homogeneous, IsHeader, WideBalanced, Counted, Stocked, Strangers, PassForgets;
    ApartAway(b, n, data);
    if Apart(a, n) {
      assert moved + ([data] + Source(c, n)) == (moved + [data]) + Source(c, n);
    }
    if OnlyWork(b, n) {
      WorkTaken(b, n, Moved(count), data, u, c);
    }
  }

  lemma ApartAway(b: Status, n: FileName, data: Record)
    ensures Apart(b, n) ==> !AtHome(data, Place(b, n))
  {
  }

  // A positive "how much" leaves only errors as a reason for not saving.
  lemma RoomToSave(b: Status, n: FileName, step: FetchStep, data: Record, u: Toll, c: Status)
    requires Coherent(b) && Coherent(c) && FetchMeans(b, n, step, data, u, c) && OnlyWork(b, n) && HasRoom(b)
    requires WideFormatted(b, n)
    ensures step.NotSaved? ==> c.faults > b.faults
  {
    hide Readable, Homogeneous, IsHeader, WideBalanced, Counted, Stocked, Strangers, PassMoves, PassForgets, Falls,
         WideFormatted, OnlyWork;
    WorkTaken(b, n, step, data, u, c);
    if step.NotSaved? {
      HomeOfHandled(data);
    }
  }

  // Transfers whose effect on the in-buffer's count is known.
  ghost predicate Tracked(a: Status, n: FileName, toll: Toll) {
    OnlyWork(a, n) && ((toll.fits && WideFormatted(a, n)) || (Place(a, n) == HERE && IsHeader(Contents(a.disk, n))))
  }

  // The loop between two rounds, in a fetch that started at a.
  ghost predicate Between(a: Status, n: FileName, moved: seq<Record>, last: int, warnings: nat, toll: Toll, b: Status)
    requires Coherent(a) && Coherent(b)
  {
    && Fetched(a, n, moved, b) && WideBalanced(a, n, toll, [], b) && toll.dropped == []
        && FetchForgets(a, n, toll, false, b)
    && Spreads(a, n, moved, toll, toll.forgot, b)
    && (Tracked(a, n, toll) ==>
          GuardState(Place(a, n) == HERE, BlanksIn(a), |moved|, last, warnings, SlotsIn(b), BlanksIn(b)))
  }

  lemma BetweenStart(a: Status, n: FileName)
    requires Coherent(a)
    ensures Between(a, n, [], -1, 0, FREE, a)
  {
    hide Readable, IsHeader, WideBalanced, OnlyWork, Spreads;
    FetchedStart(a, n);
    NothingBalanced(a, n);
    SpreadsStart(a, n);
  }

  lemma BetweenIdle(a: Status, n: FileName, moved: seq<Record>, last: int, warnings: nat, toll: Toll, b: Status,
                    c: Status)
    requires Coherent(a) && Coherent(b) && Coherent(c) && Between(a, n, moved, last, warnings, toll, b)
    requires Untouched(b, c)
    ensures Between(a, n, moved, last, warnings, toll, c)
  {
    hide Readable, IsHeader, WideBalanced, OnlyWork, Fetched, SlotsIn, BlanksIn, GuardState, Spreads;
    FetchedIdle(a, n, moved, b, c);
    SpreadsIdle(a, n, moved, toll, b, c);
    UntouchedSame(b, n, c);
    WideBalancedNext(a, n, toll, b, FREE, [], c);
    PlusFree(toll);
    assert FileOf(c, OUT) == FileOf(b, OUT);
  }

  lemma SpreadsIdle(a: Status, n: FileName, moved: seq<Record>, toll: Toll, b: Status, c: Status)
    requires Coherent(a) && Coherent(b) && Coherent(c) && Spreads(a, n, moved, toll, toll.forgot, b) && Untouched(b, c)
    ensures Spreads(a, n, moved, toll, toll.forgot, c)
  {
    hide WideFormatted, Gains;
    if a.mem || (toll.fits && WideFormatted(a, n)) {
      forall i | 0 <= i < BUFFERS && i != Place(a, n)
        ensures Reached(a, i, moved, toll.forgot, c)
      {
        assert Reached(a, i, moved, toll.forgot, b);
      }
    }
  }

  // A round spreads the record it moves.
  lemma RoundSpreads(a: Status, n: FileName, moved: seq<Record>, last: int, warnings: nat, toll: Toll, b: Status,
                     step: FetchStep, data: Record, u: Toll, c: Status)
    requires Coherent(a) && Coherent(b) && Coherent(c) && Between(a, n, moved, last, warnings, toll, b)
    requires FetchMeans(b, n, step, data, u, c)
    ensures step.Moved? ==> Spreads(a, n, moved + [data], Plus(toll, u), Plus(toll, u).forgot, c)
    ensures !step.Moved? ==> AllSpreads(a, n, moved, Plus(toll, u), c)
  {
    hide Readable, Homogeneous, IsHeader, WideBalanced, Counted, Stocked, Strangers, PassMoves, Falls, FetchForgets,
         OnlyWork, SlotsIn, BlanksIn, GuardState, WideFormatted, Spreads, AllSpreads, Tracked, HasRoom;
    SpreadsNext(a, n, moved, toll, b, Alike(step), data, u, c);
  }

  lemma SpreadsAll(a: Status, n: FileName, moved: seq<Record>, toll: Toll, b: Status)
    requires Coherent(a) && Coherent(b) && Spreads(a, n, moved, toll, toll.forgot, b)
    ensures AllSpreads(a, n, moved, toll, b)
  {
    hide Spreads;
    var k := |toll.forgot|;
    assert toll.forgot[..k] == toll.forgot;
    assert Spreads(a, n, moved, toll, toll.forgot[..k], b);
  }

  lemma PlusFree(t: Toll)
    ensures Plus(t, FREE) == t
  {
  }

  lemma ForgetsNext(a: Status, n: FileName, moved: seq<Record>, toll: Toll, b: Status, step: FetchStep, data: Record,
                    u: Toll, c: Status)
    requires Coherent(a) && Coherent(b) && Coherent(c) && Fetched(a, n, moved, b) && FetchForgets(a, n, toll, false, b)
    requires FetchMeans(b, n, step, data, u, c)
    ensures FetchForgets(a, n, Plus(toll, u), !step.Moved?, c)
  {
    hide Readable, Homogeneous, IsHeader, WideBalanced, Counted, Stocked, Strangers, PassMoves, FetchReasons, Falls,
         AllWork, OnlyWork;
    if OnlyWork(a, n) {
      WorkTaken(b, n, step, data, u, c);
    }
    assert Plus(toll, u).forgot == toll.forgot + u.forgot;
  }

  lemma GuardNext(a: Status, n: FileName, moved: seq<Record>, last: int, warnings: nat, toll: Toll, b: Status,
                  count: nat, data: Record, u: Toll, c: Status)
    requires Coherent(a) && Coherent(b) && Coherent(c) && Between(a, n, moved, last, warnings, toll, b)
    requires FetchMeans(b, n, Moved(count), data, u, c) && Tracked(a, n, Plus(toll, u))
    ensures var low := |moved| > 0 && last >= count;
      if low && warnings >= MAX_WARNINGS then GuardVerdict(a, n, moved + [data], Stalled)
      else GuardState(Place(a, n) == HERE, BlanksIn(a), |moved| + 1, count, if low then warnings + 1 else warnings,
                      SlotsIn(c), BlanksIn(c))
  {
    hide Readable, Homogeneous, IsHeader, Strangers, PassMoves, PassForgets, FetchReasons, Falls, AllWork, OnlyWork,
         SlotsIn, BlanksIn, WideFormatted, Accounted, FetchForgets, Fetched, GuardState, Wide;
    TrackedAlong(a, n, moved, toll, b);
    WorkTaken(b, n, Moved(count), data, u, c);
    GuardStep(Place(a, n) == HERE, BlanksIn(a), |moved|, last, warnings, SlotsIn(b), BlanksIn(b), count, SlotsIn(c),
              BlanksIn(c));
  }

  lemma TrackedAlong(a: Status, n: FileName, moved: seq<Record>, toll: Toll, b: Status)
    requires Coherent(a) && Coherent(b) && Fetched(a, n, moved, b)
    ensures Place(b, n) == Place(a, n)
    ensures OnlyWork(a, n) ==> OnlyWork(b, n)
    ensures IsHeader(Contents(a.disk, n)) ==> IsHeader(Contents(b.disk, n))
  {
  }

  // One transfer further.
  lemma BetweenStep(a: Status, n: FileName, moved: seq<Record>, last: int, warnings: nat, toll: Toll, b: Status,
                    count: nat, data: Record, u: Toll, c: Status)
    requires Coherent(a) && Coherent(b) && Coherent(c) && Between(a, n, moved, last, warnings, toll, b)
    requires FetchMeans(b, n, Moved(count), data, u, c)
    ensures var low := |moved| > 0 && last >= count;
      if low && warnings >= MAX_WARNINGS then FetchOutcome(a, n, moved + [data], Plus(toll, u), Stalled, c)
      else Between(a, n, moved + [data], count, if low then warnings + 1 else warnings, Plus(toll, u), c)
  {
    hide Readable, Homogeneous, IsHeader, WideBalanced, Counted, Stocked, Strangers, PassMoves, PassForgets, Falls,
         AllWork, OnlyWork, SlotsIn, BlanksIn, GuardState, WideFormatted, GuardVerdict, Spreads, AllSpreads;
    FetchedStep(a, n, moved, b, Moved(count), data, u, c);
    RoundSpreads(a, n, moved, last, warnings, toll, b, Moved(count), data, u, c);
    SpreadsAll(a, n, moved + [data], Plus(toll, u), c);
    ForgetsNext(a, n, moved, toll, b, Moved(count), data, u, c);
    WideBalancedNext(a, n, toll, b, u, [], c);
    if Tracked(a, n, Plus(toll, u)) {
      GuardNext(a, n, moved, last, warnings, toll, b, count, data, u, c);
    }
  }

  // ---------- how much is fetched ----------

  // The stats units a transfer counts for.
  function Yield(r: Record): nat {
    if Units(r) == 0 then 100 else Units(r)
  }

  // What a transfer counts for is what it adds to the worth of the buffer if and
  // only if the buffer was empty, or it and the record both have stats units or
  // both have none.
  lemma YieldIsGain(s: Stock, r: Record)
    requires (s.units as int) + Units(r) < TWO32 && (s.packets == 0 ==> s.units == 0)
    ensures Worth(StockMore(s, r)) == Worth(s) + Yield(r) <==>
      s.packets == 0 || (s.units == 0 <==> Units(r) == 0)
  {
    hide Units;
  }

  // How much is asked for after those records came in, but for the capacity of a
  // stack.
  function AskedAfter(a: Status, moved: seq<Record>, w: Wants): nat
    requires |a.view| == BUFFERS
  {
    var s := StockAfter(InStock(a), moved);
    if !a.mem && (a.clash || s.packets >= w.limit) then 0 else UnitsToFetch(s, w)
  }

  // The buffer is below both the threshold and the limit, or has too few packets.
  predicate Wanting(s: Stock, w: Wants) {
    (Worth(s) < w.threshold && Worth(s) < 100 * (w.limit as int)) || s.packets < w.crunchers
  }

  lemma {:induction false} PacketsAfter(s: Stock, moved: seq<Record>)
    ensures StockAfter(s, moved).packets == s.packets + |moved|
  {
    if moved != [] {
      PacketsAfter(s, moved[..|moved| - 1]);
    }
  }

  // So more is asked for exactly while that is so, and the file is not at the
  // limit; and each record of a paced fetch was moved while it was so.
  lemma AskedWhileWanting(a: Status, w: Wants, moved: seq<Record>)
    requires |a.view| == BUFFERS && LimitFits(w)
    requires Countables(Stock(InStock(a).packets + |moved|, 0), w)
    ensures AskedAfter(a, moved, w) > 0 <==>
      var s := StockAfter(InStock(a), moved);
      Wanting(s, w) && (a.mem || (!a.clash && s.packets < w.limit))
    ensures Paced(a, w, moved) ==> forall j :: 0 <= j < |moved| ==> Wanting(StockAfter(InStock(a), moved[..j]), w)
  {
    hide InStock, UnitsToFetch, StockAfter, Worth, LimitFits;
    forall j | 0 <= j <= |moved|
      ensures Answers(StockAfter(InStock(a), moved[..j]), w, UnitsToFetch(StockAfter(InStock(a), moved[..j]), w))
    {
      PacketsAfter(InStock(a), moved[..j]);
      AskedRight(StockAfter(InStock(a), moved[..j]), w);
    }
    assert moved[..|moved|] == moved;
  }

  // Work that is fetched into the in-buffer from elsewhere.
  ghost predicate Plain(a: Status, n: FileName, toll: Toll) {
    OnlyWork(a, n) && Place(a, n) != HERE && toll.fits && WideFormatted(a, n)
  }

  // Every record was asked for when it was moved, and none but the last was all
  // that was asked for.
  ghost predicate Paced(a: Status, w: Wants, moved: seq<Record>)
    requires |a.view| == BUFFERS
  {
    forall j :: 0 <= j < |moved| ==>
      0 < AskedAfter(a, moved[..j], w) && (j + 1 < |moved| ==> Yield(moved[j]) < AskedAfter(a, moved[..j], w))
  }

  // The last one was.
  predicate LastEnough(a: Status, w: Wants, moved: seq<Record>)
    requires |a.view| == BUFFERS && moved != []
  {
    Yield(moved[|moved| - 1]) >= AskedAfter(a, moved[..|moved| - 1], w)
  }

  // What the in-buffer holds between two rounds.
  ghost predicate Pace(a: Status, n: FileName, w: Wants, moved: seq<Record>, going: bool, toll: Toll, b: Status)
    requires |a.view| == BUFFERS && |b.view| == BUFFERS
  {
    Plain(a, n, toll) ==>
      && InStock(b) == StockAfter(InStock(a), moved) && Paced(a, w, moved)
      && (going && moved != [] ==> !LastEnough(a, w, moved))
  }

  // A fetch that stops by itself has got what there was to get: nothing more is
  // asked for; or the last transfer, from `near` to c, brought all that was, or
  // was that of the last record of the contest.
  ghost predicate Enough(a: Status, n: FileName, w: Wants, moved: seq<Record>, near: Status, c: Status)
    requires Coherent(a) && Coherent(near) && Coherent(c)
  {
    || AskedFor(c, w) == 0
    || (&& moved != []
        && var last := |moved| - 1;
          && Fetched(a, n, moved[..last], near) && PassMoves(near, n, Imported, moved[last], c)
          && AskedFor(near, w) > 0
          && (Yield(moved[last]) >= AskedFor(near, w) || Matching(Source(near, n), RC5_72) == 1))
  }

  // The same by what was there at the start and what was moved.
  ghost predicate Sated(a: Status, n: FileName, w: Wants, moved: seq<Record>, c: Status)
    requires Coherent(a)
  {
    || AskedAfter(a, moved, w) == 0
    || (a.mem && c.capacity == COUNT_MAX)
    || (moved != [] && (LastEnough(a, w, moved) || Matching(Source(c, n), RC5_72) == 0))
  }

  ghost predicate Over(a: Status, n: FileName, w: Wants, moved: seq<Record>, near: Status, toll: Toll, c: Status)
    requires Coherent(a) && Coherent(near) && Coherent(c)
  {
    c.faults == a.faults ==> Enough(a, n, w, moved, near, c) && (Plain(a, n, toll) ==> Sated(a, n, w, moved, c))
  }

  lemma PaceIdle(a: Status, n: FileName, w: Wants, moved: seq<Record>, going: bool, toll: Toll, b: Status, c: Status)
    requires Coherent(a) && Coherent(b) && Coherent(c) && Pace(a, n, w, moved, going, toll, b) && Untouched(b, c)
    ensures Pace(a, n, w, moved, going, toll, c)
  {
    hide InStock, Paced, LastEnough, Plain, AskedFor;
    UntouchedAsk(b, c, w);
  }

  lemma HomogeneousCountable(f: File)
    requires Homogeneous(f)
    ensures Countable(f)
  {
    if IsHeader(f) {
      assert MooFile(f) || StockFile(f);
    }
  }

  lemma PlainAlong(a: Status, n: FileName, moved: seq<Record>, toll: Toll, b: Status)
    requires Coherent(a) && Coherent(b) && Fetched(a, n, moved, b) && WideBalanced(a, n, toll, [], b)
    requires Plain(a, n, toll)
    ensures b.mem == a.mem && b.clash == a.clash && Place(b, n) == Place(a, n) && OnlyWork(b, n) && WideFormatted(b, n)
    ensures !b.mem ==> Homogeneous(FileOf(b, HERE))
  {
    hide Readable, Homogeneous, OnlyWork, Accounted, AllWork, IsHeader;
  }

  // What is asked for is what the records moved leave to be asked for.
  lemma AskedNow(a: Status, n: FileName, w: Wants, moved: seq<Record>, going: bool, toll: Toll, b: Status)
    requires Coherent(a) && Coherent(b) && Fetched(a, n, moved, b) && WideBalanced(a, n, toll, [], b)
    requires Plain(a, n, toll) && Pace(a, n, w, moved, going, toll, b)
    ensures AskedFor(b, w) == AskedAfter(a, moved, w) || (a.mem && b.capacity == COUNT_MAX && AskedFor(b, w) == 0)
  {
    hide Plain, InStock, Paced, LastEnough, Fetched, WideBalanced, Countable, Homogeneous;
    PlainAlong(a, n, moved, toll, b);
    if !b.mem {
      HomogeneousCountable(FileOf(b, HERE));
    }
  }

  // Nothing is asked for any more.
  lemma NothingAsked(a: Status, n: FileName, w: Wants, moved: seq<Record>, going: bool, near: Status, toll: Toll,
                     b: Status)
    requires Coherent(a) && Coherent(near) && Coherent(b)
    requires Fetched(a, n, moved, b) && WideBalanced(a, n, toll, [], b) && Pace(a, n, w, moved, going, toll, b)
    requires AskedFor(b, w) == 0 || b.faults > a.faults
    ensures Over(a, n, w, moved, near, toll, b)
  {
    hide Plain, Pace, Fetched, WideBalanced, AskedFor, AskedAfter;
    if Plain(a, n, toll) {
      AskedNow(a, n, w, moved, going, toll, b);
    }
  }

  lemma PacedMore(a: Status, w: Wants, moved: seq<Record>, data: Record)
    requires |a.view| == BUFFERS && Paced(a, w, moved) && 0 < AskedAfter(a, moved, w)
    requires moved != [] ==> !LastEnough(a, w, moved)
    ensures Paced(a, w, moved + [data])
    ensures LastEnough(a, w, moved + [data]) <==> Yield(data) >= AskedAfter(a, moved, w)
  {
    hide AskedAfter, Yield;
    var more, k := moved + [data], |moved|;
    assert more[..k] == moved && more[k] == data;
    forall j | 0 <= j < |more|
      ensures 0 < AskedAfter(a, more[..j], w) && (j + 1 < |more| ==> Yield(more[j]) < AskedAfter(a, more[..j], w))
    {
      if j < k {
        assert more[..j] == moved[..j] && more[j] == moved[j];
        assert j + 1 == k ==> !LastEnough(a, w, moved);
      }
    }
  }

  lemma StockAfterMore(s: Stock, moved: seq<Record>, data: Record)
    ensures StockAfter(s, moved + [data]) == StockMore(StockAfter(s, moved), data)
  {
    assert (moved + [data])[..|moved|] == moved;
  }

  // One transfer that was asked for.
  lemma PaceStep(a: Status, n: FileName, w: Wants, moved: seq<Record>, toll: Toll, b: Status, count: nat, data: Record,
                 u: Toll, c: Status)
    requires Coherent(a) && Coherent(b) && Coherent(c)
    requires Fetched(a, n, moved, b) && WideBalanced(a, n, toll, [], b) && Pace(a, n, w, moved, true, toll, b)
    requires FetchMeans(b, n, Moved(count), data, u, c) && AskedFor(b, w) > 0
    ensures Pace(a, n, w, moved + [data], Yield(data) < AskedFor(b, w), Plus(toll, u), c)
    ensures Plain(a, n, Plus(toll, u)) && Yield(data) >= AskedFor(b, w) ==> LastEnough(a, w, moved + [data])
  {
    hide InStock, Fetched, WideBalanced, AskedFor, AskedAfter, Yield, Plain, StockMore, StockAfter, Paced, LastEnough,
         FetchMeans;
    if Plain(a, n, Plus(toll, u)) {
      PlainNow(a, n, toll, u);
      AskedNow(a, n, w, moved, true, toll, b);
      PlainAlong(a, n, moved, toll, b);
      TransferStocks(b, n, count, data, u, c);
      PacedMore(a, w, moved, data);
      StockAfterMore(InStock(a), moved, data);
    }
  }

  lemma TransferStocks(b: Status, n: FileName, count: nat, data: Record, u: Toll, c: Status)
    requires Coherent(b) && Coherent(c) && FetchMeans(b, n, Moved(count), data, u, c)
    requires OnlyWork(b, n) && Place(b, n) != HERE && u.fits && WideFormatted(b, n)
    ensures InStock(c) == StockMore(InStock(b), data)
    ensures Source(b, n) == [data] + Source(c, n)
  {
    hide Readable, Homogeneous, IsHeader, WideBalanced, Counted, PassForgets, FetchReasons, Falls, Strangers, InStock,
         StockMore, WideFormatted;
    WorkTaken(b, n, Moved(count), data, u, c);
  }

  // A transfer after which the loop stops.
  lemma LastTransfer(a: Status, n: FileName, w: Wants, moved: seq<Record>, toll: Toll, b: Status, count: nat,
                     data: Record, remaining: nat, u: Toll, c: Status)
    requires Coherent(a) && Coherent(b) && Coherent(c)
    requires Fetched(a, n, moved, b) && WideBalanced(a, n, toll, [], b) && Pace(a, n, w, moved, true, toll, b)
    requires FetchMeans(b, n, Moved(count), data, u, c) && AskedFor(b, w) > 0 && Remains(b, n, remaining, c)
    requires remaining == 0 || Yield(data) >= AskedFor(b, w)
    ensures Over(a, n, w, moved + [data], b, Plus(toll, u), c)
  {
    hide InStock, Fetched, WideBalanced, AskedFor, AskedAfter, Yield, Pace, LastEnough, Readable, Plain;
    PaceStep(a, n, w, moved, toll, b, count, data, u, c);
    TransferMoves(a, n, moved, b, count, data, u, c);
    assert (moved + [data])[..|moved|] == moved;
    if Plain(a, n, Plus(toll, u)) {
      PlainNow(a, n, toll, u);
      PlainAlong(a, n, moved, toll, b);
      TransferStocks(b, n, count, data, u, c);
      if remaining == 0 && c.faults == a.faults {
        OneLessLeft(Source(b, n), data, Source(c, n));
      }
    }
  }

  lemma PlainNow(a: Status, n: FileName, toll: Toll, u: Toll)
    requires Plain(a, n, Plus(toll, u))
    ensures Plain(a, n, toll) && u.fits && Place(a, n) != HERE
  {
  }

  lemma OneLessLeft(before: seq<Record>, data: Record, after: seq<Record>)
    requires before == [data] + after && Matching(before, RC5_72) == 1 && data[CONTEST] == RC5_72
    ensures Matching(after, RC5_72) == 0
  {
    assert before[1..] == after;
  }

  lemma TransferMoves(a: Status, n: FileName, moved: seq<Record>, b: Status, count: nat, data: Record, u: Toll,
                      c: Status)
    requires Coherent(a) && Coherent(b) && Coherent(c) && Fetched(a, n, moved, b)
    requires FetchMeans(b, n, Moved(count), data, u, c)
    ensures PassMoves(b, n, Imported, data, c) && data[CONTEST] == RC5_72
    ensures a.faults <= b.faults <= c.faults
  {
    hide Readable, Homogeneous, IsHeader, WideBalanced, Counted, PassForgets, Falls, Strangers, PassMoves;
  }

  // Without errors a remote file that cannot be read is a stock file in a build
  // that refuses those, and nothing was fetched.
  lemma OnlyRefused(a: Status, n: FileName, moved: seq<Record>, toll: Toll, b: Status, data: Record, u: Toll, c: Status)
    requires Coherent(a) && Coherent(b) && Coherent(c) && Fetched(a, n, moved, b) && WideBalanced(a, n, toll, [], b)
    requires FetchMeans(b, n, NoRemote, data, u, c)
    ensures Unreadable(a, n, moved, Plus(toll, u), c)
  {
    hide Readable, IsHeader, PassForgets, Falls, Strangers, PassMoves, Homogeneous, Accounted, RemoteLeft, OnlyWork;
  }

  ghost predicate Unreadable(a: Status, n: FileName, moved: seq<Record>, toll: Toll, c: Status) {
    var f := Contents(a.disk, n);
    c.faults == a.faults && Homogeneous(f) && (Apart(a, n) || (toll.fits && WideFormatted(a, n))) ==>
      a.disk.refusesRemote && !IsHeader(f) && moved == []
  }

  // How far a fetch got, by the way it ended.
  ghost predicate FetchProgress(a: Status, n: FileName, w: Wants, moved: seq<Record>, near: Status, toll: Toll,
                                end: FetchEnd, c: Status)
    requires Coherent(a) && Coherent(near) && Coherent(c)
  {
    && (end.Satisfied? ==> Over(a, n, w, moved, near, toll, c))
    && (end.RemoteFailed? ==> Unreadable(a, n, moved, toll, c))
    && (Plain(a, n, toll) ==> Paced(a, w, moved))
  }

  // All that a fetch has done when it ends.
  ghost predicate FetchOutcome(a: Status, n: FileName, moved: seq<Record>, toll: Toll, end: FetchEnd, c: Status)
    requires Coherent(a) && Coherent(c)
  {
    // every record is in a buffer, still in the remote file, or lost
    && WideBalanced(a, n, toll, [], c)
    // work went to the in-buffer, and nothing else changed
    && Gained(a, n, moved, c)
    && (!end.OtherContest? && !end.LocalFailed? ==> RemoteLeft(a, n, moved, c))
    && (OnlyWork(a, n) ==> !end.OtherContest?)
    // a positive answer to "how much" meant that there was room
    && (OnlyWork(a, n) && toll.fits && WideFormatted(a, n) && c.faults == a.faults ==> !end.LocalFailed?)
    && (end.RemoteDrained? && Apart(a, n) && c.faults == a.faults ==>
        moved == Source(a, n) && Contents(c.disk, n) == [])
    // nothing is lost without an I/O error, and no result of work forgotten
    && (toll.dropped != [] && toll.fits && WideFormatted(a, n) ==> c.faults > a.faults)
    && FetchForgets(a, n, toll, true, c)
    // each buffer but the remote file has gained what was moved and belongs there
    && AllSpreads(a, n, moved, toll, c)
    // the guard stops loops, and only what looks like one
    && (Tracked(a, n, toll) ==> GuardVerdict(a, n, moved, end))
  }

  // How the fetch ends when the pass is not a transfer.
  function EndOf(step: FetchStep): (end: FetchEnd)
    ensures !step.Moved? ==> !end.Satisfied? && !end.ExitAsked? && !end.Stalled?
  {
    match step
    case NoRemote => RemoteFailed
    case RemoteEmpty => RemoteDrained
    case WrongContest => OtherContest
    case _ => LocalFailed
  }

  // A fetch that stops between two rounds, or with one more.
  lemma BetweenEnds(a: Status, n: FileName, moved: seq<Record>, last: int, warnings: nat, toll: Toll, end: FetchEnd,
                    b: Status)
    requires Coherent(a) && Coherent(b) && Between(a, n, moved, last, warnings, toll, b)
    requires end.Satisfied? || end.ExitAsked?
    ensures FetchOutcome(a, n, moved, toll, end, b)
  {
    hide Readable, Homogeneous, IsHeader, WideBalanced, AllWork, OnlyWork, SlotsIn, BlanksIn, WideFormatted, Spreads,
         AllSpreads;
    SpreadsAll(a, n, moved, toll, b);
  }

  lemma RoundEnds(a: Status, n: FileName, moved: seq<Record>, last: int, warnings: nat, toll: Toll, b: Status,
                  step: FetchStep, data: Record, u: Toll, c: Status)
    requires Coherent(a) && Coherent(b) && Coherent(c) && Between(a, n, moved, last, warnings, toll, b)
    requires FetchMeans(b, n, step, data, u, c) && HasRoom(b) && !step.Moved?
    ensures FetchOutcome(a, n, moved, Plus(toll, u), EndOf(step), c)
  {
    hide Readable, Homogeneous, IsHeader, WideBalanced, Counted, Stocked, Strangers, PassMoves, PassForgets, Falls,
         AllWork, OnlyWork, SlotsIn, BlanksIn, GuardState, WideFormatted, HasRoom, GuardVerdict, Spreads, AllSpreads;
    FetchedStep(a, n, moved, b, step, data, u, c);
    RoundSpreads(a, n, moved, last, warnings, toll, b, step, data, u, c);
    ForgetsNext(a, n, moved, toll, b, step, data, u, c);
    WideBalancedNext(a, n, toll, b, u, [], c);
    BalancedAlong(a, n, toll, b);
    RoundLosses(a, n, moved, last, warnings, toll, b, step, data, u, c);
    if Tracked(a, n, Plus(toll, u)) {
      GuardBound(Place(a, n) == HERE, BlanksIn(a), |moved|, last, warnings, SlotsIn(b), BlanksIn(b));
      VerdictOpen(a, n, moved, EndOf(step));
    }
    if OnlyWork(a, n) && Plus(toll, u).fits && WideFormatted(a, n) && step.NotSaved? {
      RoomToSave(b, n, step, data, u, c);
    }
  }

  lemma RoundLosses(a: Status, n: FileName, moved: seq<Record>, last: int, warnings: nat, toll: Toll, b: Status,
                    step: FetchStep, data: Record, u: Toll, c: Status)
    requires Coherent(a) && Coherent(b) && Coherent(c) && Between(a, n, moved, last, warnings, toll, b)
    requires FetchMeans(b, n, step, data, u, c)
    ensures a.faults <= b.faults <= c.faults
    ensures Plus(toll, u).dropped != [] && Plus(toll, u).fits && WideFormatted(a, n) ==> c.faults > a.faults
  {
    hide Readable, IsHeader, Counted, Stocked, Strangers, PassMoves, PassForgets, Falls, AllWork, OnlyWork, SlotsIn,
         BlanksIn, GuardState, Accounted, FetchForgets, Homogeneous;
    assert Plus(toll, u).dropped == u.dropped;
  }

  lemma BalancedAlong(a: Status, n: FileName, toll: Toll, b: Status)
    requires Coherent(a) && Coherent(b) && WideBalanced(a, n, toll, [], b)
    ensures toll.fits && WideFormatted(a, n) ==> WideFormatted(b, n)
  {
  }

  lemma GuardBound(alias: bool, blanks0: nat, k: nat, last: int, warnings: nat, slots: nat, blanks: nat)
    requires GuardState(alias, blanks0, k, last, warnings, slots, blanks)
    ensures alias || blanks0 >= 5 ==> k <= 4
  {
  }

  lemma VerdictOpen(a: Status, n: FileName, moved: seq<Record>, end: FetchEnd)
    requires Place(a, n) == HERE || BlanksIn(a) >= 5 ==> |moved| <= 4
    requires !end.Stalled?
    ensures GuardVerdict(a, n, moved, end)
  {
  }

  // Work out how much is wanted and, if anything is, make one pass.  `b` is the
  // status in between.
  method FetchRound(s: BufferStore, remote: FileName, w: Wants, ghost puts: nat)
    returns (left: nat, step: FetchStep, data: Record, remaining: nat, ghost b: Status, ghost toll: Toll)
    requires s.Valid()
    modifies s, s.disk, s.membufftable
    ensures s.Valid() && Coherent(b) && Untouched(old(s.Now()), b)
    ensures left == AskedFor(b, w) || (left == 0 && b.faults > old(s.Now().faults))
    ensures if left == 0 then s.Now() == b else HasRoom(b) && FetchMeans(b, remote, step, data, toll, s.Now())
    ensures left > 0 && step.Moved? ==> Remains(b, remote, remaining, s.Now())
    ensures old(WideTame(s.Now(), remote, puts + 2)) && OnlyWork(b, remote) ==>
      if left == 0 then WideTame(b, remote, puts + 2)
      else toll.fits && (step.Moved? ==> WideTame(s.Now(), remote, puts + 1))
  {
    hide Coherent, WideTame, FetchMeans, HasRoom, OnlyWork, BufferStore.Valid, BufferStore.Held, AskedFor, Untouched,
         Contents, Routable;
    ghost var a := s.Now();
    step, data, remaining, toll := NoRemote, Blank(), 0, FREE;
    left := ReComputeUnitsToFetch(s, w);
    b := s.Now();
    UntouchedSame(a, remote, b);
    UntouchedAsk(a, b, w);
    if left > 0 {
      step, data, remaining, toll := FetchPass(s, remote, puts);
      if OnlyWork(b, remote) {
        WorkTaken(b, remote, step, data, toll, s.Now());
      }
    }
  }

  // The measure of the loop.
  ghost function Slack(a: Status, n: FileName, last: int): nat {
    if last >= SlotsUsed(Contents(a.disk, n)) then 0 else 1
  }

  lemma LoopFalls(a: Status, n: FileName, moved: nat, last: int, warnings: nat, data: Record, count: nat, c: Status)
    requires Falls(a, n, data, count, c) && (moved == 0 ==> last == -1) && warnings <= MAX_WARNINGS
    ensures var low := moved > 0 && last >= count;
      || (low && warnings >= MAX_WARNINGS)
      || Bit(Contents(c.disk, n)) < Bit(Contents(a.disk, n))
      || (Bit(Contents(c.disk, n)) == Bit(Contents(a.disk, n)) &&
           var p := Place(a, n);
           || Strangers(Source(c, n), p) < Strangers(Source(a, n), p)
           || (Strangers(Source(c, n), p) == Strangers(Source(a, n), p) &&
               (Slack(c, n, count) < Slack(a, n, last) || (Slack(c, n, count) == Slack(a, n, last) && low))))
  {
  }

  // How many packet numbers a fetch may still need, besides two, with n records
  // left in the remote file.
  ghost function PutsLeft(alias: bool, first: nat, pkts: nat, left: nat): nat {
    if !alias then left else if pkts <= 4 then first + 4 - pkts else 0
  }

  // Only unfinished work is fetched and enough packet numbers are left.
  ghost predicate Fetchable(a: Status, n: FileName) {
    WideTame(a, n, |Source(a, n)| + 6) && OnlyWork(a, n)
  }

  lemma FetchableMeans(a: Status, n: FileName)
    requires Fetchable(a, n)
    ensures OnlyWork(a, n) && WideFormatted(a, n)
    ensures WideTame(a, n, PutsLeft(Place(a, n) == HERE, |Source(a, n)|, 0, |Source(a, n)|) + 2)
  {
    hide WideTame, WideFormatted, OnlyWork, Source;
    WideTameLess(a, n, |Source(a, n)| + 6, PutsLeft(Place(a, n) == HERE, |Source(a, n)|, 0, |Source(a, n)|) + 2);
  }

  lemma PutsNext(a: Status, n: FileName, moved: seq<Record>, last: int, warnings: nat, toll: Toll, b: Status,
                 count: nat, data: Record, u: Toll, c: Status)
    requires Coherent(a) && Coherent(b) && Coherent(c) && Between(a, n, moved, last, warnings, toll, b)
    requires FetchMeans(b, n, Moved(count), data, u, c) && OnlyWork(a, n) && toll.fits && WideFormatted(a, n)
    ensures var alias, first := Place(a, n) == HERE, |Source(a, n)|;
      |moved| < 4 || !alias ==>
      PutsLeft(alias, first, |moved|, |Source(b, n)|) == PutsLeft(alias, first, |moved| + 1, |Source(c, n)|) + 1
  {
    hide Readable, Homogeneous, IsHeader, WideBalanced, Counted, Stocked, Strangers, FetchReasons, PassForgets, Falls,
         AllWork, OnlyWork, SlotsIn, BlanksIn, GuardState, WideFormatted, Source, RemoteLeft;
    TrackedAlong(a, n, moved, toll, b);
    WorkTaken(b, n, Moved(count), data, u, c);
    HomeOfHandled(data);
  }

  lemma BetweenBound(a: Status, n: FileName, moved: seq<Record>, last: int, warnings: nat, toll: Toll, b: Status)
    requires Coherent(a) && Coherent(b) && Between(a, n, moved, last, warnings, toll, b)
    ensures Place(b, n) == Place(a, n) && toll.dropped == []
    ensures OnlyWork(a, n) ==> OnlyWork(b, n)
    ensures Tracked(a, n, toll) && Place(a, n) == HERE ==> |moved| <= 4
  {
  }

  // BufferFetchFile for the contest of this build.  `moved` lists the records
  // that reached a buffer, in order.
  method FetchFile(s: BufferStore, remote: FileName, w: Wants)
    returns (rc: int, end: FetchEnd, ghost moved: seq<Record>, ghost near: Status, ghost toll: Toll)
    requires s.Valid()
    modifies s, s.disk, s.membufftable
    ensures s.Valid() && FetchOutcome(old(s.Now()), remote, moved, toll, end, s.Now())
    ensures Coherent(near) && FetchProgress(old(s.Now()), remote, w, moved, near, toll, end, s.Now())
    ensures rc ==
      if end.LocalFailed? || end.RemoteFailed? then -(|moved| + 1)
      else if end.Stalled? then |moved| - 1
      else |moved|
    ensures old(Fetchable(s.Now(), remote)) ==> toll.fits
  {
    hide Coherent, Untouched, HasRoom, FetchMeans, Between, FetchOutcome, OnlyWork, WideTame, WideFormatted, Fetchable,
         EndOf, PutsLeft, Slack, Strangers, Bit, Plus, Contents, Source, Place, Units, Tracked, AskedFor, Yield, Pace,
         Plain, Paced, Over, FetchProgress, Remains, Unreadable, Fetched, WideBalanced, BufferStore.Now,
         BufferStore.Valid, BufferStore.Held;
    ghost var a, tame := s.Now(), Fetchable(s.Now(), remote);
    ghost var alias, first, p := Place(a, remote) == HERE, |Source(a, remote)|, Place(a, remote);
    moved, toll, end, near := [], FREE, Satisfied, a;
    BetweenStart(a, remote);
    PaceStart(a, remote, w);
    if tame {
      FetchableMeans(a, remote);
    }
    var last: int := -1;
    var pkts, warnings := 0, 0;
    var left: u32 := 1;
    while left > 0
      invariant s.Valid() && pkts == |moved| && end == Satisfied && warnings <= MAX_WARNINGS
      invariant pkts == 0 ==> last == -1
      invariant Between(a, remote, moved, last, warnings, toll, s.Now()) && Place(s.Now(), remote) == p
      invariant Coherent(near) && Pace(a, remote, w, moved, left > 0, toll, s.Now())
      invariant left == 0 ==> Over(a, remote, w, moved, near, toll, s.Now())
      invariant tame ==> toll.fits
      invariant tame ==> WideTame(s.Now(), remote, PutsLeft(alias, first, pkts, |Source(s.Now(), remote)|) + 2)
      decreases left > 0, Bit(Contents(s.Now().disk, remote)), Strangers(Source(s.Now(), remote), p),
                Slack(s.Now(), remote, last), 4 - warnings
    {
      if * {
        end := ExitAsked;
        break;
      }
      var step, data, remaining;
      ghost var b0, b, t, u := s.Now(), s.Now(), toll, FREE;
      left, step, data, remaining, b, u := FetchRound(s, remote, w, PutsLeft(alias, first, pkts, |Source(b0, remote)|));
      ghost var c := s.Now();
      RoundStarts(a, remote, w, moved, last, warnings, t, b0, b);
      if left == 0 {
        NothingAsked(a, remote, w, moved, true, near, t, b);
        PaceSlower(a, remote, w, moved, t, b);
      } else {
        toll := Plus(t, u);
        PlusFits(t, u);
        if !step.Moved? {
          end := EndOf(step);
          RoundEnds(a, remote, moved, last, warnings, t, b, step, data, u, c);
          RoundProgress(a, remote, w, moved, near, t, b, step, data, u, c);
          break;
        }
        var count := step.count;
        BetweenStep(a, remote, moved, last, warnings, t, b, count, data, u, c);
        MovedFalls(b, remote, count, data, u, c);
        PaceStep(a, remote, w, moved, t, b, count, data, u, c);
        LoopFalls(b, remote, pkts, last, warnings, data, count, c);
        if tame {
          PutsNext(a, remote, moved, last, warnings, t, b, count, data, u, c);
        }
        ghost var were, asked := moved, left;
        moved, near := moved + [data], b;
        if pkts > 0 && last >= count {
          if warnings < MAX_WARNINGS {
            warnings := warnings + 1;
          } else {
            end := Stalled;
            PaceEnds(a, remote, w, moved, Yield(data) < asked, near, toll, end, c);
            break;
          }
        }
        last, pkts := count, pkts + 1;
        BetweenBound(a, remote, moved, last, warnings, toll, c);
        if tame {
          TrackedIf(a, remote, toll);
        }
        var swucount := Yield(data);
        if remaining == 0 || swucount >= left {
          LastTransfer(a, remote, w, were, t, b, count, data, remaining, u, c);
        }
        left := if remaining == 0 || swucount > left then 0 else left - swucount;
        PaceGoes(a, remote, w, moved, swucount < asked, left > 0, toll, c);
      }
    }
    if end.Satisfied? || end.ExitAsked? {
      BetweenEnds(a, remote, moved, last, warnings, toll, end, s.Now());
      PaceEnds(a, remote, w, moved, left > 0, near, toll, end, s.Now());
    }
    EndIsOpen(end);
    rc := if end.LocalFailed? || end.RemoteFailed? then -(pkts + 1) else pkts;
  }

  // What holds before a round holds once it is known how much is wanted.
  lemma RoundStarts(a: Status, n: FileName, w: Wants, moved: seq<Record>, last: int, warnings: nat, toll: Toll,
                    b0: Status, b: Status)
    requires Coherent(a) && Coherent(b0) && Coherent(b) && Untouched(b0, b)
    requires Between(a, n, moved, last, warnings, toll, b0) && Pace(a, n, w, moved, true, toll, b0)
    ensures Between(a, n, moved, last, warnings, toll, b) && Pace(a, n, w, moved, true, toll, b)
    ensures Contents(b.disk, n) == Contents(b0.disk, n) && Source(b, n) == Source(b0, n)
    ensures Slack(b, n, last) == Slack(b0, n, last)
    ensures Place(b, n) == Place(b0, n) == Place(a, n) && toll.dropped == []
    ensures OnlyWork(a, n) ==> OnlyWork(b, n)
    ensures Tracked(a, n, toll) && Place(a, n) == HERE ==> |moved| <= 4
    ensures Fetched(a, n, moved, b) && WideBalanced(a, n, toll, [], b) && a.faults <= b0.faults <= b.faults
  {
    hide Between, Pace, Fetched, WideBalanced, Tracked, OnlyWork, Slack, Source;
    BetweenIdle(a, n, moved, last, warnings, toll, b0, b);
    IdleMeasure(b0, n, b, last, Place(a, n));
    BetweenBound(a, n, moved, last, warnings, toll, b);
    BetweenParts(a, n, moved, last, warnings, toll, b0);
    BetweenParts(a, n, moved, last, warnings, toll, b);
    PaceIdle(a, n, w, moved, true, toll, b0, b);
  }

  lemma PaceStart(a: Status, n: FileName, w: Wants)
    requires Coherent(a)
    ensures Pace(a, n, w, [], true, FREE, a)
  {
    hide InStock;
  }

  lemma PaceSlower(a: Status, n: FileName, w: Wants, moved: seq<Record>, toll: Toll, b: Status)
    requires Coherent(a) && Coherent(b) && Pace(a, n, w, moved, true, toll, b)
    ensures Pace(a, n, w, moved, false, toll, b)
  {
  }

  lemma PaceGoes(a: Status, n: FileName, w: Wants, moved: seq<Record>, short: bool, going: bool, toll: Toll, b: Status)
    requires Coherent(a) && Coherent(b) && Pace(a, n, w, moved, short, toll, b) && (going ==> short)
    ensures Pace(a, n, w, moved, going, toll, b)
  {
  }

  lemma PaceEnds(a: Status, n: FileName, w: Wants, moved: seq<Record>, going: bool, near: Status, toll: Toll,
                 end: FetchEnd, c: Status)
    requires Coherent(a) && Coherent(near) && Coherent(c) && Pace(a, n, w, moved, going, toll, c)
    requires !end.RemoteFailed? && (end.Satisfied? ==> Over(a, n, w, moved, near, toll, c))
    ensures FetchProgress(a, n, w, moved, near, toll, end, c)
  {
    hide InStock, Over;
  }

  lemma BetweenParts(a: Status, n: FileName, moved: seq<Record>, last: int, warnings: nat, toll: Toll, b: Status)
    requires Coherent(a) && Coherent(b) && Between(a, n, moved, last, warnings, toll, b)
    ensures Fetched(a, n, moved, b) && WideBalanced(a, n, toll, [], b) && a.faults <= b.faults
  {
  }

  lemma RoundProgress(a: Status, n: FileName, w: Wants, moved: seq<Record>, near: Status, toll: Toll, b: Status,
                      step: FetchStep, data: Record, u: Toll, c: Status)
    requires Coherent(a) && Coherent(near) && Coherent(b) && Coherent(c)
    requires Fetched(a, n, moved, b) && WideBalanced(a, n, toll, [], b) && Pace(a, n, w, moved, true, toll, b)
    requires FetchMeans(b, n, step, data, u, c) && !step.Moved?
    ensures FetchProgress(a, n, w, moved, near, Plus(toll, u), EndOf(step), c)
  {
    hide Fetched, WideBalanced, FetchMeans, InStock, Over, Unreadable, OnlyWork, WideFormatted, Paced;
    if step.NoRemote? {
      OnlyRefused(a, n, moved, toll, b, data, u, c);
    }
  }

  lemma EndIsOpen(end: FetchEnd)
    ensures end.Stalled? ==> !end.LocalFailed? && !end.RemoteFailed?
  {
  }

  lemma TrackedIf(a: Status, n: FileName, toll: Toll)
    ensures OnlyWork(a, n) && toll.fits && WideFormatted(a, n) ==> Tracked(a, n, toll)
  {
  }

  lemma IdleMeasure(a: Status, n: FileName, b: Status, last: int, p: nat)
    requires Coherent(a) && Coherent(b) && Untouched(a, b)
    ensures Contents(b.disk, n) == Contents(a.disk, n) && Source(b, n) == Source(a, n)
    ensures Slack(b, n, last) == Slack(a, n, last)
    ensures Place(b, n) == Place(a, n)
  {
  }

  lemma MovedFalls(b: Status, n: FileName, count: nat, data: Record, u: Toll, c: Status)
    requires Coherent(b) && Coherent(c) && FetchMeans(b, n, Moved(count), data, u, c)
    ensures Falls(b, n, data, count, c) && Place(c, n) == Place(b, n)
  {
  }

  // What was fetched is in the in-buffer, each record once and as it was read.
  lemma FetchedIsHere(a: Status, n: FileName, moved: seq<Record>, toll: Toll, end: FetchEnd, c: Status)
    requires Coherent(a) && Coherent(c) && FetchOutcome(a, n, moved, toll, end, c)
    requires Apart(a, n) && OnlyWork(a, n) && toll.fits && WideFormatted(a, n) && c.faults == a.faults
    ensures multiset(c.view[HERE]) == multiset(a.view[HERE]) + multiset(moved)
    ensures Source(a, n) == moved + Source(c, n)
    ensures forall i :: 0 <= i < BUFFERS && i != HERE ==> c.view[i] == a.view[i]
  {
    hide Readable, Homogeneous, IsHeader, Accounted, AllWork, OnlyWork, WideFormatted, GuardVerdict;
    GainedFromLast(Wide(a, n), Wide(c, n), HERE, moved);
  }
}
