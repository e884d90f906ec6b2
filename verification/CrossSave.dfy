/**
 GetBufferRecord (buffbase.cpp): take a record of the wanted contest and state
 out of its buffer, and cross-save whatever is met on the way and does not belong
 there.
 */
module CrossSave {
  import opened Moo521
  import opened WorkRecords
  import opened BufferFiles
  import opened BufferDisk
  import opened BufferRuns
  import opened MemBuffer
  import opened Routing
  import opened FileSteps
  import opened BufferStore
  import opened Walk

  // What an operation cost: the records that are nowhere afterwards, those whose
  // result was forgotten, and whether every file kept its format.
  datatype Toll = Toll(dropped: seq<Record>, forgot: seq<Record>, fits: bool)

  const FREE := Toll([], [], true)

  function Plus(t: Toll, u: Toll): Toll {
    Toll(t.dropped + u.dropped, t.forgot + u.forgot, t.fits && u.fits)
  }

  // All records are accounted for if formats were kept.
  ghost predicate Balanced(a: Status, toll: Toll, handed: seq<Record>, b: Status) {
    toll.fits && Formatted(a) ==> Formatted(b) && Accounted(a.view, b.view, toll.dropped, handed, toll.forgot)
  }

  // Files that are not buffers of this client are as they were.
  ghost predicate Elsewhere(a: Status, b: Status) {
    && (forall n: FileName :: a.mem || !n.Local? || n.contest >= CONTEST_COUNT ==>
        Contents(b.disk, n) == Contents(a.disk, n))
    && (a.mem ==> b.disk == a.disk)
  }

  // ---------- one record out of buffer i ----------

  // Just the head of file i was taken.
  ghost predicate TookHead(a: Status, i: nat, c: Status) {
    && GetFile(FileOf(a, i)).Got? && FileOf(c, i) == GetFile(FileOf(a, i)).file
    && OnlyFile(a, LocalOf(i), c)
  }

  lemma PopTakesHead(a: Status, i: nat, data: Record, count: nat, b: Status)
    requires Coherent(a) && i < BUFFERS && !a.mem && PopMeans(a, i, 0, data, count, b)
    ensures TookHead(a, i, b)
  {
    hide Readable, MooGet, StockGet;
  }

  ghost predicate Popped(a: Status, i: nat, rc: int, data: Record, count: nat, b: Status)
    requires Coherent(a) && Coherent(b) && i < BUFFERS
  {
    && -1 <= rc <= 1 && SameKind(a, b) && Elsewhere(a, b) && b.capacity == a.capacity
    && (forall j :: 0 <= j < BUFFERS && j != i ==> b.view[j] == a.view[j] && FileOf(b, j) == FileOf(a, j))
    && (rc != 0 ==> b.view == a.view)
    && (rc == 1 && b.faults == a.faults ==> a.view[i] == []) && (a.mem ==> b.faults == a.faults)
    && (rc == -1 ==> !a.mem && FileOf(b, i) == FileOf(a, i) && (Homogeneous(FileOf(a, i)) ==> b.faults > a.faults))
    && (Formatted(a) ==> Formatted(b))
    && (!a.mem && Homogeneous(FileOf(a, i)) ==> Homogeneous(FileOf(b, i)))
    && (rc == 0 && a.mem ==> a.view[i] == b.view[i] + [data] && count == |b.view[i]|)
    && (rc == 0 && !a.mem ==>
          && a.view[i] == [data] + b.view[i] && TookHead(a, i, b)
          && (Routable(data) ==> Keepable(data))
          && count == (if a.faults < b.faults then 0 else Matching(b.view[i], data[CONTEST]))
          && (IsHeader(FileOf(a, i)) <==> IsHeader(FileOf(b, i)))
          && (IsHeader(FileOf(a, i)) ==> Keepable(data) && data[RESULTCODE] == RESULT_WORKING)
          && (!IsHeader(FileOf(a, i)) ==> FrontFree(FileOf(b, i))))
  }

  lemma OthersElsewhere(a: Status, i: nat, b: Status)
    requires OnlyFile(a, LocalOf(i), b) && Coherent(a) && Coherent(b) && !a.mem && b.mem == a.mem && i < BUFFERS
    ensures forall j :: 0 <= j < BUFFERS && j != i ==> b.view[j] == a.view[j] && FileOf(b, j) == FileOf(a, j)
    ensures Elsewhere(a, b)
  {
    hide Readable;
    forall j | 0 <= j < BUFFERS && j != i
      ensures b.view[j] == a.view[j] && FileOf(b, j) == FileOf(a, j)
    {
      LocalsDiffer(i, j);
    }
  }

  lemma PopMeansPopped(a: Status, i: nat, rc: int, data: Record, count: nat, b: Status)
    requires Coherent(a) && Coherent(b) && i < BUFFERS && PopMeans(a, i, rc, data, count, b)
    ensures Popped(a, i, rc, data, count, b)
    ensures Balanced(a, FREE, if rc == 0 then [data] else [], b)
  {
    hide Readable, Homogeneous, FileGot, FrontFree, Accounted, Matching, IsHeader, Routable, Keepable, TookHead;
    if !a.mem {
      if rc == 0 {
        PopTakesHead(a, i, data, count, b);
      }
      var f, g := FileOf(a, i), FileOf(b, i);
      OthersElsewhere(a, i, b);
      GotMeansTook(Refused(a.disk.refusesRemote, false, f), f, rc, data, count, g, a.faults < b.faults);
      if rc != 0 {
        EmptyIsHomogeneous();
        assert b.view[i] == a.view[i];
        assert b.view == a.view;
      }
    } else if rc == 0 {
      assert a.view[i] == b.view[i] + [data];
    }
    if rc == 0 {
      PopAccounted(a.view, i, data, b.view);
    } else {
      NothingAccounted(a.view);
    }
  }

  lemma PoppedTame(a: Status, i: nat, rc: int, data: Record, count: nat, b: Status, puts: nat)
    requires Coherent(a) && Coherent(b) && i < BUFFERS && PopMeans(a, i, rc, data, count, b)
    requires Tame(a, puts)
    ensures Tame(b, puts)
    ensures !a.mem && rc == 0 && Routable(data) ==> data[0] < 0x100
  {
    hide FileGot, TameFile, Readable;
    if !a.mem {
      var f, g := FileOf(a, i), FileOf(b, i);
      OthersElsewhere(a, i, b);
      GotMeansTook(Refused(a.disk.refusesRemote, false, f), f, rc, data, count, g, a.faults < b.faults);
      TameGot(Refused(a.disk.refusesRemote, false, f), f, rc, data, count, g, a.faults < b.faults, puts);
    }
  }

  // ---------- one record into buffer i ----------

  // Whether r can go into buffer i without harm to its file, and what it loses.
  ghost predicate Welcome(a: Status, i: nat, r: Record, w: bool) {
    a.mem || Suits(Sniff(a.disk, LocalOf(i)).mooMode, FileOf(a, i), r, w)
  }

  function Forgetting(a: Status, i: nat, r: Record): (forgot: seq<Record>)
    ensures forgot == [] || forgot == [r]
  {
    if a.mem then [] else Forgets(Sniff(a.disk, LocalOf(i)).mooMode, FileOf(a, i), r)
  }

  ghost predicate Pushed(a: Status, i: nat, r: Record, w: bool, rc: int, b: Status)
    requires Coherent(a) && Coherent(b) && i < BUFFERS
  {
    && (rc == 0 || rc == -1) && SameKind(a, b) && Elsewhere(a, b)
    && (forall j :: 0 <= j < BUFFERS && j != i ==> b.view[j] == a.view[j] && FileOf(b, j) == FileOf(a, j))
    && (rc == -1 ==> b.view == a.view && FileOf(b, i) == FileOf(a, i))
    && (rc == -1 && b.faults == a.faults ==> if a.mem then |a.view[i]| == COUNT_MAX else !Homogeneous(FileOf(a, i)))
    && (rc == 0 ==> b.faults == a.faults)
    && (rc == 0 && a.mem ==> |a.view[i]| < COUNT_MAX && b.view[i] == a.view[i] + [r])
    && (IsHeader(FileOf(a, i)) ==> IsHeader(FileOf(b, i)))
    && (Forgetting(a, i, r) != [] ==> r[RESULTCODE] != RESULT_WORKING && (rc == 0 ==> IsHeader(FileOf(b, i))))
    && (Welcome(a, i, r, w) && Formatted(a) ==>
          Formatted(b) && (rc == 0 ==> Entered(a.view, r, b.view, Forgetting(a, i, r))))
  }

  lemma PushMeansPushed(a: Status, i: nat, r: Record, w: bool, rc: int, count: nat, b: Status)
    requires Coherent(a) && Coherent(b) && i < BUFFERS && PushMeans(a, i, r, w, rc, count, b)
    requires !a.mem ==> Keepable(r)
    ensures Pushed(a, i, r, w, rc, b)
  {
    if !a.mem {
      FilePushed(a, i, r, w, rc, count, b);
    } else {
      hide Readable, Homogeneous, Entered, Adds, PutFile, LandsAs, Suits, Forgets, UsesMoo;
      if rc == 0 {
        AppendAdds(a.view[i], r);
        PushEntered(a.view, i, r, r, b.view);
      }
    }
  }

  lemma FilePushed(a: Status, i: nat, r: Record, w: bool, rc: int, count: nat, b: Status)
    requires Coherent(a) && Coherent(b) && i < BUFFERS && !a.mem && PushMeans(a, i, r, w, rc, count, b) && Keepable(r)
    ensures Pushed(a, i, r, w, rc, b)
  {
    hide Readable, Homogeneous, Entered, Adds, PutFile, LandsAs, Suits, Forgets, UsesMoo, Keepable;
    var mode, f, g := Sniff(a.disk, LocalOf(i)).mooMode, FileOf(a, i), FileOf(b, i);
    OthersElsewhere(a, i, b);
    KeepableLands(mode, f, r);
    LocalAccepts(mode, f);
    if rc == 0 {
      PutHeaders(mode, f, r, w);
    } else {
      assert b.view[i] == a.view[i];
      assert b.view == a.view;
    }
    if Suits(mode, f, r, w) && Homogeneous(f) {
      PutGains(mode, f, r, w);
      if rc == 0 {
        PushEntered(a.view, i, r, LandsAs(mode, f, r), b.view);
      }
    }
  }

  lemma LocalAccepts(mode: bool, f: File)
    ensures Homogeneous(f) ==> Accepts(false, mode, f)
  {
  }

  lemma PutHeaders(mode: bool, f: File, r: Record, w: bool)
    ensures UsesMoo(mode, f) ==> IsHeader(PutFile(mode, f, r, w).file)
    ensures IsHeader(f) ==> UsesMoo(mode, f)
  {
    hide MooPut, StockPut;
    if UsesMoo(mode, f) {
      HeaderStays(f, r);
    }
  }

  lemma PushedTame(a: Status, i: nat, r: Record, w: bool, rc: int, count: nat, b: Status, puts: nat)
    requires Coherent(a) && Coherent(b) && i < BUFFERS && PushMeans(a, i, r, w, rc, count, b)
    requires Tame(a, puts + 1) && (!a.mem ==> Keepable(r) && r[0] < 0x100)
    ensures Welcome(a, i, r, w) && Tame(b, puts)
  {
    hide TameFile, Readable, PutFile, Suits;
    if !a.mem {
      var mode, f := Sniff(a.disk, LocalOf(i)).mooMode, FileOf(a, i);
      OthersElsewhere(a, i, b);
      TamePut(mode, f, r, w, puts);
      forall j | 0 <= j < BUFFERS
        ensures TameFile(FileOf(b, j), puts)
      {
        FileSteps.TameFewer(FileOf(a, j), puts + 1, puts);
      }
    }
  }

  // ---------- one pass of the loop ----------

  function GivenUpBy(verdict: Verdict, data: Record): seq<Record> {
    if verdict.GivenUp? then [data] else []
  }

  function HandedBy(verdict: Verdict, data: Record): seq<Record> {
    if verdict.Found? then [data] else []
  }

  // What becomes of the record taken, from a to c.
  ghost predicate PassMeans(a: Status, i: nat, verdict: Verdict, data: Record, count: nat, toll: Toll, c: Status)
    requires Coherent(a) && Coherent(c) && i < BUFFERS
  {
    && SameKind(a, c) && Elsewhere(a, c)
    && (verdict.Ended? ==> c.view == a.view)
    && (verdict.Saved? ==>
          && Routable(data)
          && forall j :: 0 <= j < BUFFERS && j != i && j != HomeOf(data) ==> c.view[j] == a.view[j])
    && (verdict.Ended? || verdict.Found? ==> c.capacity == a.capacity)
    && (!verdict.Saved? ==> forall j :: 0 <= j < BUFFERS && j != i ==> c.view[j] == a.view[j])
    && (!verdict.Ended? ==> if a.mem then a.view[i] == c.view[i] + [data] else a.view[i] == [data] + c.view[i])
    && (!verdict.Ended? ==> (verdict.Found? <==> AtHome(data, i)) && (verdict.Saved? ==> Routable(data)))
    // the count is that of what is left
    && (!verdict.Ended? ==>
          if a.mem then count == |c.view[i]|
          else
            && (count == 0 || count == Matching(c.view[i], data[CONTEST]))
            && (c.faults == a.faults ==> count == Matching(c.view[i], data[CONTEST])))
    && (verdict.Ended? && (a.mem || (Homogeneous(FileOf(a, i)) && c.faults == a.faults)) ==> a.view[i] == [])
    && (!a.mem && Homogeneous(FileOf(a, i)) ==> Homogeneous(FileOf(c, i)))
    // nothing is given up without a reason
    && (verdict.GivenUp? && Routable(data) && c.faults == a.faults && Formatted(a) ==>
          a.mem && |c.view[HomeOf(data)]| == COUNT_MAX)
    && (a.mem ==> forall j :: 0 <= j < BUFFERS && j != i ==> a.view[j] <= c.view[j])
    && (a.mem && verdict.Saved? ==> HomeOf(data) != i && c.view[HomeOf(data)] == a.view[HomeOf(data)] + [data])
    // the accounts
    && toll.dropped == GivenUpBy(verdict, data) && (verdict.Found? ==> toll == FREE)
    && (!verdict.Saved? ==> toll.forgot == []) && (toll.forgot == [] || toll.forgot == [data])
    && Balanced(a, toll, HandedBy(verdict, data), c)
    && (a.mem ==> toll.fits && toll.forgot == [])
    && (toll.forgot != [] ==>
          !a.mem && toll.forgot == [data] && i != OUT && AtHome(data, OUT) && IsHeader(FileOf(c, OUT)))
    // the formats
    && (!a.mem && verdict.Found? ==> TookHead(a, i, c))
    && (!a.mem && !verdict.Ended? ==>
          && (IsHeader(FileOf(a, i)) <==> IsHeader(FileOf(c, i)))
          && (IsHeader(FileOf(a, i)) ==> data[RESULTCODE] == RESULT_WORKING)
          && (!IsHeader(FileOf(a, i)) ==> FrontFree(FileOf(c, i))))
    && (i != OUT && IsHeader(FileOf(a, OUT)) ==> IsHeader(FileOf(c, OUT)))
  }

  function VerdictOf(i: nat, rc: int, data: Record, saved: int): Verdict {
    if rc != 0 then Ended
    else if !Routable(data) then GivenUp
    else if HomeOf(data) == i then Found
    else if saved == 0 then Saved
    else GivenUp
  }

  lemma PassWithout(a: Status, i: nat, rc: int, data: Record, count: nat, b: Status)
    requires Coherent(a) && Coherent(b) && i < BUFFERS && PopMeans(a, i, rc, data, count, b)
    requires rc != 0 || !Routable(data) || HomeOf(data) == i
    ensures var verdict := VerdictOf(i, rc, data, 0);
      PassMeans(a, i, verdict, data, count, Toll(GivenUpBy(verdict, data), [], true), b)
  {
    hide Readable, Homogeneous, Accounted, Matching, IsHeader, Keepable, FrontFree, PopMeans, TookHead;
    PopMeansPopped(a, i, rc, data, count, b);
    if rc == 0 && !Routable(data) && Formatted(a) {
      AccountMove(a.view, b.view, b.view, data, []);
    }
  }

  lemma PassSaving(a: Status, i: nat, data: Record, count: nat, b: Status, rc: int, n: nat, c: Status)
    requires Coherent(a) && Coherent(b) && Coherent(c) && i < BUFFERS
    requires PopMeans(a, i, 0, data, count, b) && Routable(data) && HomeOf(data) != i
    requires PushMeans(b, HomeOf(data), data, false, rc, n, c)
    ensures var verdict, h := VerdictOf(i, 0, data, rc), HomeOf(data);
      PassMeans(a, i, verdict, data, count,
                Toll(GivenUpBy(verdict, data), if rc == 0 then Forgetting(b, h, data) else [],
                     rc == -1 || Welcome(b, h, data, false)), c)
  {
    hide Readable, Homogeneous, Accounted, Entered, Matching, IsHeader, FrontFree, PopMeans, PushMeans, Welcome,
         TookHead, Forgetting;
    PopMeansPopped(a, i, 0, data, count, b);
    var h := HomeOf(data);
    PushMeansPushed(b, h, data, false, rc, n, c);
    PassBooks(a, i, data, count, b, rc, n, c);
    if !a.mem {
      HomeOfHandled(data);
      assert a.view[i] == [data] + c.view[i];
    } else {
      StackForgetsNothing(b, h, data);
    }
  }

  lemma StackForgetsNothing(a: Status, i: nat, r: Record)
    requires a.mem
    ensures Forgetting(a, i, r) == [] && Welcome(a, i, r, false) && Welcome(a, i, r, true)
  {
  }

  lemma PassBooks(a: Status, i: nat, data: Record, count: nat, b: Status, rc: int, n: nat, c: Status)
    requires Coherent(a) && Coherent(b) && Coherent(c) && i < BUFFERS
    requires PopMeans(a, i, 0, data, count, b) && Routable(data) && HomeOf(data) != i
    requires PushMeans(b, HomeOf(data), data, false, rc, n, c)
    ensures var verdict, h := VerdictOf(i, 0, data, rc), HomeOf(data);
      Balanced(a, Toll(GivenUpBy(verdict, data), if rc == 0 then Forgetting(b, h, data) else [],
                       rc == -1 || Welcome(b, h, data, false)), [], c)
  {
    hide Readable, Homogeneous, Accounted, Entered, Matching, IsHeader, FrontFree, PopMeans, PushMeans, Welcome,
         TookHead, Forgetting, Elsewhere;
    PopMeansPopped(a, i, 0, data, count, b);
    PushMeansPushed(b, HomeOf(data), data, false, rc, n, c);
    if Formatted(a) {
      AccountMove(a.view, b.view, c.view, data, Forgetting(b, HomeOf(data), data));
      if rc == -1 {
        FormattedStill(b, HomeOf(data), c);
      }
    }
  }

  lemma FormattedStill(b: Status, i: nat, c: Status)
    requires Formatted(b) && c.mem == b.mem && i < BUFFERS
    requires forall j :: 0 <= j < BUFFERS ==> FileOf(c, j) == FileOf(b, j)
    ensures Formatted(c)
  {
    hide Homogeneous;
    assert !b.mem ==> forall j :: 0 <= j < BUFFERS ==> Homogeneous(FileOf(b, j));
  }

  // One pass: take a record out, and unless it is the one wanted, save it where
  // it belongs or give it up.
  method Pass(s: BufferStore, i: nat, ghost puts: nat)
    returns (verdict: Verdict, data: Record, count: nat, ghost toll: Toll)
    requires s.Valid() && i < BUFFERS
    modifies s, s.disk, s.membufftable
    ensures s.Valid() && PassMeans(old(s.Now()), i, verdict, data, count, toll, s.Now())
    ensures old(Tame(s.Now(), puts)) && (verdict.Saved? ==> puts > 0) ==>
      toll.fits && Tame(s.Now(), if verdict.Saved? then puts - 1 else puts)
  {
    hide Readable, PopMeans, PushMeans, PassMeans, Coherent, Tame, Welcome, Forgetting, Routable, HomeOf, Keepable;
    ghost var a := s.Now();
    var rc;
    rc, data, count := s.PopRecord(i);
    ghost var b := s.Now();
    if Tame(a, puts) {
      PoppedTame(a, i, rc, data, count, b, puts);
    }
    if rc != 0 || !Routable(data) || HomeOf(data) == i {
      PassWithout(a, i, rc, data, count, b);
      verdict := VerdictOf(i, rc, data, 0);
      toll := Toll(GivenUpBy(verdict, data), [], true);
      return;
    }
    var h := HomeOf(data);
    var saved, n := s.PushRecord(h, data, false);
    ghost var c := s.Now();
    PassSaving(a, i, data, count, b, saved, n, c);
    verdict := VerdictOf(i, rc, data, saved);
    toll := Toll(GivenUpBy(verdict, data), if saved == 0 then Forgetting(b, h, data) else [],
                 saved == -1 || Welcome(b, h, data, false));
    if Tame(a, puts) {
      PassTame(a, i, data, count, b, saved, n, c, puts);
    }
  }

  lemma PassTame(a: Status, i: nat, data: Record, count: nat, b: Status, rc: int, n: nat, c: Status, puts: nat)
    requires Coherent(a) && Coherent(b) && Coherent(c) && i < BUFFERS
    requires PopMeans(a, i, 0, data, count, b) && Routable(data) && HomeOf(data) != i
    requires PushMeans(b, HomeOf(data), data, false, rc, n, c) && Tame(a, puts)
    ensures rc == 0 && puts > 0 ==> Welcome(b, HomeOf(data), data, false) && Tame(c, puts - 1)
    ensures rc != 0 ==> rc == -1 && Tame(c, puts)
  {
    hide PopMeans, PushMeans, Welcome, Tame, Keepable;
    PoppedTame(a, i, 0, data, count, b, puts);
    PoppedKeepable(a, i, data, count, b);
    if rc == 0 && puts > 0 {
      PushedTame(b, HomeOf(data), data, false, rc, n, c, puts - 1);
    }
    UnpushedTame(b, HomeOf(data), data, rc, n, c, puts);
  }

  lemma PoppedKeepable(a: Status, i: nat, data: Record, count: nat, b: Status)
    requires Coherent(a) && Coherent(b) && i < BUFFERS && PopMeans(a, i, 0, data, count, b) && Routable(data)
    ensures b.mem == a.mem && (!a.mem ==> Keepable(data))
  {
    hide Readable, PopMeans, Homogeneous, Matching, IsHeader, FrontFree, TookHead;
    PopMeansPopped(a, i, 0, data, count, b);
  }

  lemma UnpushedTame(b: Status, h: nat, data: Record, rc: int, n: nat, c: Status, puts: nat)
    requires Coherent(b) && Coherent(c) && h < BUFFERS && PushMeans(b, h, data, false, rc, n, c) && Tame(b, puts)
    requires !b.mem ==> Keepable(data)
    ensures rc == 0 || rc == -1
    ensures rc == -1 ==> Tame(c, puts)
  {
    hide Readable, PushMeans, Welcome, TameFile, Forgetting, Entered, Homogeneous, IsHeader;
    PushMeansPushed(b, h, data, false, rc, n, c);
  }

  // PutBufferRecord keeps every RC5-72 record with a known result, without errors
  // and with room for it: unfinished work in the in-buffer, any other in the
  // out-buffer, as it is but for the end of its id, unless that is a Moo file.
  lemma KnownIsKept(a: Status, r: Record, rc: int, b: Status)
    requires Coherent(a) && Coherent(b) && Stored(a, r, rc, b) && b.faults == a.faults
    requires r[37] == 5 && (r[20] == 0 || r[20] == 1 || r[20] == 2)
    requires var i, f := if r[20] == 0 then 10 else 11, FileOf(a, if r[20] == 0 then 10 else 11);
      if a.mem then |a.view[i]| < 20000
      else !a.clash && Homogeneous(f) && PutKeepsFormat(Sniff(a.disk, LocalOf(i)).mooMode, f, r, true)
    ensures var i := if r[20] == 0 then 10 else 11;
      && rc >= 1 && (forall j :: 0 <= j < BUFFERS && j != i ==> b.view[j] == a.view[j])
      && if a.mem then b.view[i] == a.view[i] + [r]
         else if UsesMoo(Sniff(a.disk, LocalOf(i)).mooMode, FileOf(a, i)) then
           Adds(a.view[i], Forced(Terminate(r)), b.view[i])
         else Adds(a.view[i], Terminate(r), b.view[i])
  {
    hide Readable, PutFile, UsesMoo, Homogeneous, PutKeepsFormat, Adds, MooRead, MooImage;
    KnownCodes(r);
    var i := if r[20] == 0 then 10 else 11;
    if !a.mem {
      var mode, f := Sniff(a.disk, LocalOf(i)).mooMode, FileOf(a, i);
      LocalAccepts(mode, f);
      PutFileReadable(mode, f, r, true);
      MooReadBack(r);
      assert Settled(r) == Terminate(r);
      if rc >= 1 {
        OthersElsewhere(a, i, b);
      }
    }
  }

  // ---------- the loop ----------

  // Whether every step went without an error, so that the search is known.
  ghost predicate Quiet(a: Status, b: Status) {
    a.mem || (Formatted(a) && b.faults == a.faults)
  }

  // The records given up were of no contest or state, or met a full stack.
  ghost predicate Excused(a: Status, i: nat, toll: Toll, b: Status)
    requires Coherent(b)
  {
    toll.fits && Formatted(a) && b.faults == a.faults ==>
      forall r :: r in toll.dropped && Routable(r) ==> a.mem && HomeOf(r) != i && |b.view[HomeOf(r)]| == COUNT_MAX
  }

  // Results are forgotten only in a Moo out-buffer.
  ghost predicate ForgottenAt(i: nat, toll: Toll, b: Status) {
    toll.forgot != [] ==> !b.mem && i != OUT && IsHeader(FileOf(b, OUT)) && forall r :: r in toll.forgot ==>
        AtHome(r, OUT)
  }

  // Buffers to which no record of buffer i belongs are as they were, and only its
  // records can be lost.
  ghost predicate OthersKept(a: Status, i: nat, toll: Toll, b: Status)
    requires Coherent(a) && Coherent(b) && i < BUFFERS
  {
    && (forall j :: 0 <= j < BUFFERS && j != i && !SomeAtHome(a.view[i], j) ==> b.view[j] == a.view[j])
    && (forall r :: r in toll.dropped ==> r in a.view[i])
  }

  // Those records came in, in a stack in order, in a file with the lost ones in the
  // form in which they landed.
  ghost predicate Gains(mem: bool, before: seq<Record>, came: seq<Record>, lost: seq<Record>, after: seq<Record>) {
    if mem then after == before + came
    else
      && multiset(after) + multiset(lost) == multiset(before) + multiset(came) + multiset(ForcedAll(lost))
      && (came == [] ==> after == before)
  }

  // Buffer j has gained those of the saved records that belong there.
  ghost predicate Reached(a: Status, j: nat, saved: seq<Record>, forgot: seq<Record>, b: Status)
    requires |a.view| == |b.view| == BUFFERS && j < BUFFERS
  {
    Gains(a.mem, a.view[j], AtHomeIn(saved, j), AtHomeIn(forgot, j), b.view[j])
  }

  // The records taken out of buffer i that do not belong there were saved, each
  // where it does belong, or dropped.  Nothing is said of buffer p.
  ghost predicate Spread(a: Status, i: nat, p: nat, left: nat, saved: seq<Record>, toll: Toll, b: Status)
    requires |a.view| == |b.view| == BUFFERS && i < BUFFERS
  {
    && left <= |a.view[i]| && Parted(Strays(TakenOut(a.mem, a.view[i], left), i), saved, toll.dropped)
    && (a.mem || (toll.fits && Formatted(a)) ==>
          forall j :: 0 <= j < BUFFERS && j != i && j != p ==> Reached(a, j, saved, toll.forgot, b))
  }

  ghost predicate AllSpread(a: Status, i: nat, p: nat, left: nat, toll: Toll, b: Status)
    requires |a.view| == |b.view| == BUFFERS && i < BUFFERS
  {
    exists saved :: Spread(a, i, p, left, saved, toll, b)
  }

  // One search after the other.
  lemma SpreadJoin(a: Status, i: nat, p: nat, s1: seq<Record>, t: Toll, b: Status, left: nat, s2: seq<Record>, u: Toll,
                   c: Status)
    requires |a.view| == |b.view| == |c.view| == BUFFERS && i < BUFFERS && b.mem == a.mem
    requires Spread(a, i, p, |b.view[i]|, s1, t, b) && LeftIs(a.mem, a.view[i], b.view[i])
    requires Spread(b, i, p, left, s2, u, c) && (t.fits && Formatted(a) ==> Formatted(b))
    ensures Spread(a, i, p, left, s1 + s2, Plus(t, u), c)
  {
    hide TakenOut, Strays, Parted, Reached, Formatted, LeftIs;
    TakenOn(a.mem, a.view[i], b.view[i], left);
    var t1, t2 := TakenOut(a.mem, a.view[i], |b.view[i]|), TakenOut(a.mem, b.view[i], left);
    HomesConcat(t1, t2, i);
    PartedJoin(Strays(t1, i), s1, t.dropped, Strays(t2, i), s2, u.dropped);
    LeftFits(a.mem, a.view[i], b.view[i]);
    if a.mem || (Plus(t, u).fits && Formatted(a)) {
      forall j | 0 <= j < BUFFERS && j != i && j != p
        ensures Reached(a, j, s1 + s2, Plus(t, u).forgot, c)
      {
        ReachedJoin(a, j, s1, t.forgot, b, s2, u.forgot, c);
      }
    }
  }

  lemma LeftFits(mem: bool, held: seq<Record>, rest: seq<Record>)
    requires LeftIs(mem, held, rest)
    ensures |rest| <= |held|
  {
  }

  lemma ReachedNothing(a: Status, j: nat, b: Status)
    requires |a.view| == |b.view| == BUFFERS && j < BUFFERS && b.view[j] == a.view[j]
    ensures Reached(a, j, [], [], b)
  {
    ForcedNone();
  }

  lemma ReachedJoin(a: Status, j: nat, s1: seq<Record>, f1: seq<Record>, b: Status, s2: seq<Record>, f2: seq<Record>,
                    c: Status)
    requires |a.view| == |b.view| == |c.view| == BUFFERS && j < BUFFERS && b.mem == a.mem
    requires Reached(a, j, s1, f1, b) && Reached(b, j, s2, f2, c)
    ensures Reached(a, j, s1 + s2, f1 + f2, c)
  {
    hide AtHomeIn, Gains;
    HomesConcat(s1, s2, j);
    HomesConcat(f1, f2, j);
    GainsJoin(a.mem, a.view[j], AtHomeIn(s1, j), AtHomeIn(f1, j), b.view[j], AtHomeIn(s2, j), AtHomeIn(f2, j),
              c.view[j]);
  }

  lemma GainsJoin(mem: bool, a: seq<Record>, x1: seq<Record>, y1: seq<Record>, b: seq<Record>, x2: seq<Record>,
                  y2: seq<Record>, c: seq<Record>)
    requires Gains(mem, a, x1, y1, b) && Gains(mem, b, x2, y2, c)
    ensures Gains(mem, a, x1 + x2, y1 + y2, c)
  {
    hide ForcedAll;
    if mem {
      Joined(a, x1, x2);
    } else {
      FileGains(a, x1, y1, b, x2, y2, c);
    }
  }

  lemma FileGains(a: seq<Record>, x1: seq<Record>, y1: seq<Record>, b: seq<Record>, x2: seq<Record>, y2: seq<Record>,
                  c: seq<Record>)
    requires multiset(b) + multiset(y1) == multiset(a) + multiset(x1) + multiset(ForcedAll(y1))
    requires multiset(c) + multiset(y2) == multiset(b) + multiset(x2) + multiset(ForcedAll(y2))
    ensures multiset(c) + multiset(y1 + y2) == multiset(a) + multiset(x1 + x2) + multiset(ForcedAll(y1 + y2))
  {
    hide ForcedAll;
    ForcedConcat(y1, y2);
    GainsChain(multiset(a), multiset(x1), multiset(y1), multiset(ForcedAll(y1)), multiset(b),
               multiset(x2), multiset(y2), multiset(ForcedAll(y2)), multiset(c));
  }

  lemma GainsChain<T>(a: multiset<T>, x1: multiset<T>, y1: multiset<T>, f1: multiset<T>, b: multiset<T>,
                      x2: multiset<T>, y2: multiset<T>, f2: multiset<T>, c: multiset<T>)
    requires b + y1 == a + x1 + f1 && c + y2 == b + x2 + f2
    ensures c + (y1 + y2) == a + (x1 + x2) + (f1 + f2)
  {
    SumsChain(a, x1 + f1, b, y1, x2 + f2, c, y2);
    assert (x1 + f1) + (x2 + f2) == (x1 + x2) + (f1 + f2);
    assert a + ((x1 + x2) + (f1 + f2)) == a + (x1 + x2) + (f1 + f2);
  }

  // One pass: the record saved is where it belongs, the other buffers are as they
  // were.
  lemma PassReaches(a: Status, i: nat, verdict: Verdict, data: Record, count: nat, u: Toll, c: Status, j: nat)
    requires Coherent(a) && Coherent(c) && i < BUFFERS && j < BUFFERS && j != i
    requires PassMeans(a, i, verdict, data, count, u, c) && (a.mem || (u.fits && Formatted(a)))
    ensures Reached(a, j, if verdict.Saved? then [data] else [], u.forgot, c)
  {
    hide PassMeans, Accounted, AtHomeIn, AtHome, HomeOf, Formatted, Gains;
    PassTakes(a, i, verdict, data, count, u, c);
    PassParts(a, i, verdict, data, u, count, c);
    HomeNotThere(data, j);
    OneHome(data, j);
    if verdict.Saved? && HomeOf(data) == j {
      GainsOne(a, i, j, data, u.forgot, c);
    } else {
      GainsNothing(a.mem, a.view[j]);
    }
  }

  lemma GainsNothing(mem: bool, s: seq<Record>)
    ensures Gains(mem, s, [], [], s)
  {
    ForcedNone();
  }

  lemma GainsOne(a: Status, i: nat, j: nat, data: Record, forgot: seq<Record>, c: Status)
    requires Coherent(a) && Coherent(c) && i < BUFFERS && j < BUFFERS && j != i
    requires forall k :: 0 <= k < BUFFERS && k != i && k != j ==> c.view[k] == a.view[k]
    requires if a.mem then c.view[j] == a.view[j] + [data]
             else a.view[i] == [data] + c.view[i] && Accounted(a.view, c.view, [], [], forgot)
    ensures Gains(a.mem, a.view[j], [data], forgot, c.view[j])
  {
    hide Accounted;
    if !a.mem {
      MovedOver(a.view, c.view, i, j, data, forgot);
    }
  }

  lemma SpreadStart(a: Status, i: nat)
    requires Coherent(a) && i < BUFFERS
    ensures AllSpread(a, i, BUFFERS, |a.view[i]|, FREE, a)
  {
    forall j | 0 <= j < BUFFERS
      ensures Reached(a, j, [], [], a)
    {
      ReachedNothing(a, j, a);
    }
    assert Spread(a, i, BUFFERS, |a.view[i]|, [], FREE, a);
  }

  // One record more was taken.
  lemma PartedNext(mem: bool, held: seq<Record>, i: nat, mid: seq<Record>, data: Record, rest: seq<Record>,
                   was: seq<Record>, dropped: seq<Record>)
    requires LeftIs(mem, held, mid) && if mem then mid == rest + [data] else mid == [data] + rest
    requires Parted(Strays(TakenOut(mem, held, |mid|), i), was, dropped)
    ensures var now := Strays(TakenOut(mem, held, |rest|), i);
      if AtHome(data, i) then Parted(now, was, dropped)
      else Parted(now, was + [data], dropped) && Parted(now, was, dropped + [data])
  {
    hide TakenOut, Strays, Parted, AtHome, LeftIs;
    var before := TakenOut(mem, held, |mid|);
    TakenNext(mem, held, mid, data, rest);
    OneMoreHome(before, data, i);
    if AtHome(data, i) {
      NothingMore(Strays(before, i));
    } else {
      PartedMore(Strays(before, i), was, dropped, data);
    }
  }

  lemma NothingMore(s: seq<Record>)
    ensures s + [] == s
  {
  }

  lemma SpreadNext(a: Status, i: nat, t: Toll, b: Status, verdict: Verdict, data: Record, count: nat, u: Toll,
                   c: Status)
    requires Coherent(a) && Coherent(b) && Coherent(c) && i < BUFFERS
    requires Along(a, i, t, b) && PassMeans(b, i, verdict, data, count, u, c)
    ensures AllSpread(a, i, BUFFERS, |c.view[i]|, Plus(t, u), c)
  {
    hide PassMeans, Along, TakenOut, Strays, Parted, Reached, AtHome, Formatted, Walked, LeftIs, AtHomeIn, Matching,
         Homogeneous, Quiet, Routable, HomeOf;
    AlongParts(a, i, t, b);
    PassTakes(b, i, verdict, data, count, u, c);
    PassParts(b, i, verdict, data, u, count, c);
    WalkedLeaves(a.mem, a.view[i], i, b.view[i], Quiet(a, b));
    var was :| Spread(a, i, BUFFERS, |b.view[i]|, was, t, b);
    var more := if verdict.Saved? then [data] else [];
    NothingMore(was);
    NothingMore(t.dropped);
    if !verdict.Ended? {
      PartedNext(a.mem, a.view[i], i, b.view[i], data, c.view[i], was, t.dropped);
    }
    if a.mem || (Plus(t, u).fits && Formatted(a)) {
      forall j | 0 <= j < BUFFERS && j != i
        ensures Reached(a, j, was + more, Plus(t, u).forgot, c)
      {
        PassReaches(b, i, verdict, data, count, u, c, j);
        ReachedJoin(a, j, was, t.forgot, b, more, u.forgot, c);
      }
    }
    assert Spread(a, i, BUFFERS, |c.view[i]|, was + more, Plus(t, u), c);
  }

  lemma AlongParts(a: Status, i: nat, t: Toll, b: Status)
    requires Coherent(a) && Coherent(b) && i < BUFFERS && Along(a, i, t, b)
    ensures AllSpread(a, i, BUFFERS, |b.view[i]|, t, b) && b.mem == a.mem
    ensures Walked(a.mem, a.view[i], i, b.view[i], Quiet(a, b))
    ensures t.fits && Formatted(a) ==> Formatted(b)
  {
    hide Excused, ForgottenAt, Elsewhere, Walked, StacksKept, FormatsKept, OthersKept, AllSpread, Accounted;
  }

  // What a pass does to the other buffers.
  lemma PassParts(b: Status, i: nat, verdict: Verdict, data: Record, u: Toll, count: nat, c: Status)
    requires Coherent(b) && Coherent(c) && i < BUFFERS && PassMeans(b, i, verdict, data, count, u, c)
    ensures u.dropped == GivenUpBy(verdict, data) && (verdict.Saved? || u.forgot == [])
    ensures u.forgot == [] || u.forgot == [data]
    ensures !verdict.Saved? ==> forall j :: 0 <= j < BUFFERS && j != i ==> c.view[j] == b.view[j]
    ensures verdict.GivenUp? && Routable(data) && c.faults == b.faults && Formatted(b) ==>
      b.mem && |c.view[HomeOf(data)]| == COUNT_MAX
    ensures b.mem ==> forall j :: 0 <= j < BUFFERS && j != i ==> b.view[j] <= c.view[j]
    ensures verdict.Saved? ==>
      && Routable(data) && HomeOf(data) != i
      && (forall j :: 0 <= j < BUFFERS && j != i && j != HomeOf(data) ==> c.view[j] == b.view[j])
      && (b.mem ==> c.view[HomeOf(data)] == b.view[HomeOf(data)] + [data])
      && (u.fits && Formatted(b) ==> Accounted(b.view, c.view, [], [], u.forgot))
  {
    hide Elsewhere, Homogeneous, Matching, IsHeader, Formatted, FrontFree, TookHead, Accounted, HomeOf;
    HomeNotThere(data, i);
  }

  lemma HomeNotThere(r: Record, i: nat)
    ensures AtHome(r, i) <==> Routable(r) && HomeOf(r) == i
  {
  }

  // The search of buffer i between two passes, from a to b.
  ghost predicate Along(a: Status, i: nat, toll: Toll, b: Status)
    requires Coherent(a) && Coherent(b) && i < BUFFERS
  {
    && SameKind(a, b) && Elsewhere(a, b)
    && Walked(a.mem, a.view[i], i, b.view[i], Quiet(a, b))
    && Balanced(a, toll, [], b) && Excused(a, i, toll, b) && ForgottenAt(i, toll, b)
    && StacksKept(a, i, toll, b) && FormatsKept(a, i, b) && OthersKept(a, i, toll, b)
    && AllSpread(a, i, BUFFERS, |b.view[i]|, toll, b)
  }

  ghost predicate StacksKept(a: Status, i: nat, toll: Toll, b: Status)
    requires Coherent(a) && Coherent(b) && i < BUFFERS
  {
    a.mem ==>
      && toll.fits && (forall j :: 0 <= j < BUFFERS && j != i ==> a.view[j] <= b.view[j])
      && (AllHome(a.view) ==> b.view == a.view && b.capacity == a.capacity && toll == FREE)
  }

  ghost predicate FormatsKept(a: Status, i: nat, b: Status) {
    && (!a.mem ==>
          && (Formatted(a) && i < BUFFERS ==> Homogeneous(FileOf(b, i)))
          && (IsHeader(FileOf(a, i)) <==> IsHeader(FileOf(b, i))))
    && (i != OUT && IsHeader(FileOf(a, OUT)) ==> IsHeader(FileOf(b, OUT)))
  }

  // What the search has done when it ends with rc.
  ghost predicate Searched(a: Status, i: nat, rc: int, data: Record, toll: Toll, exiting: bool, b: Status)
    requires Coherent(a) && Coherent(b) && i < BUFFERS
  {
    && SameKind(a, b) && Elsewhere(a, b) && rc >= -1 && (rc >= 0 ==> !exiting)
    // which record was taken, if any, and what is left
    && Sought(a.mem, a.view[i], i, rc, data, b.view[i], Quiet(a, b) && !exiting)
    && (rc >= 0 ==> if a.mem then rc == |b.view[i]| else rc == 0 || rc == Matching(b.view[i], data[CONTEST]))
    // every other record touched was moved or dropped, dropped for a reason, and
    // moved with its result unless the out-buffer is a Moo file
    && Balanced(a, toll, if rc >= 0 then [data] else [], b) && Excused(a, i, toll, b) && ForgottenAt(i, toll, b)
    && OthersKept(a, i, toll, b) && AllSpread(a, i, BUFFERS, |b.view[i]|, toll, b)
    // stacks do not forget, and misplaced records are not created
    && (a.mem ==> toll.fits && toll.forgot == [] && (AllHome(a.view) ==> AllHome(b.view) && toll == FREE))
    && (a.mem && AllHome(a.view) ==> forall j :: 0 <= j < BUFFERS && j != i ==> b.view[j] == a.view[j])
    && (a.mem && AllHome(a.view) ==> b.capacity == a.capacity)
    // a Moo file has no finished work to give
    && (!a.mem && i == OUT ==>
          && (IsHeader(FileOf(a, OUT)) ==> rc == -1)
          && (rc >= 0 ==> !IsHeader(FileOf(b, OUT)) && FrontFree(FileOf(b, OUT))))
    && (i != OUT && IsHeader(FileOf(a, OUT)) ==> IsHeader(FileOf(b, OUT)))
  }

  lemma AlongStart(a: Status, i: nat)
    requires Coherent(a) && i < BUFFERS
    ensures Along(a, i, Toll([], [], true), a)
  {
    WalkStarts(a.mem, a.view[i], i, Quiet(a, a));
    NothingAccounted(a.view);
    SpreadStart(a, i);
  }

  lemma BalancedNext(a: Status, t: Toll, b: Status, u: Toll, handed: seq<Record>, c: Status)
    requires Balanced(a, t, [], b) && Balanced(b, u, handed, c)
    ensures Balanced(a, Plus(t, u), handed, c)
  {
    hide Accounted, Formatted;
    if t.fits && u.fits && Formatted(a) {
      AccountChain(a.view, b.view, c.view, t.dropped, [], t.forgot, u.dropped, handed, u.forgot);
      assert [] + handed == handed;
    }
  }

  lemma ExcusedNext(a: Status, i: nat, t: Toll, b: Status, verdict: Verdict, data: Record, count: nat, u: Toll,
                    c: Status)
    requires Coherent(a) && Coherent(b) && Coherent(c) && i < BUFFERS
    requires Along(a, i, t, b) && PassMeans(b, i, verdict, data, count, u, c)
    ensures Excused(a, i, Plus(t, u), c) && ForgottenAt(i, Plus(t, u), c)
  {
    hide Balanced, Elsewhere, Walked, Homogeneous, Matching, FormatsKept, AllHome, IsHeader, FrontFree, Formatted,
         TookHead, OthersKept, AllSpread, PassMeans;
    PassTakes(b, i, verdict, data, count, u, c);
    PassParts(b, i, verdict, data, u, count, c);
    forall r | r in Plus(t, u).dropped && Routable(r) && Plus(t, u).fits && Formatted(a) && c.faults == a.faults
      ensures a.mem && HomeOf(r) != i && |c.view[HomeOf(r)]| == COUNT_MAX
    {
      if r in t.dropped {
        assert a.mem && HomeOf(r) != i && |b.view[HomeOf(r)]| == COUNT_MAX;
        assert b.view[HomeOf(r)] <= c.view[HomeOf(r)];
      } else {
        BalancedFormats(a, t, b);
        assert r == data && verdict.GivenUp?;
        assert AtHome(data, i) ==> verdict.Found?;
      }
    }
    ForgottenNext(a, i, t, b, verdict, data, count, u, c);
  }

  lemma ForgottenNext(a: Status, i: nat, t: Toll, b: Status, verdict: Verdict, data: Record, count: nat, u: Toll,
                      c: Status)
    requires Coherent(a) && Coherent(b) && Coherent(c) && i < BUFFERS
    requires Along(a, i, t, b) && PassMeans(b, i, verdict, data, count, u, c)
    ensures ForgottenAt(i, Plus(t, u), c)
  {
    hide Balanced, Elsewhere, Walked, Homogeneous, Matching, FormatsKept, AllHome, IsHeader, FrontFree, Formatted,
         StacksKept, Excused, AtHome, ForgottenAt, TookHead, OthersKept;
    ForgottenJoin(i, t, b, data, u, c);
  }

  lemma ForgottenJoin(i: nat, t: Toll, b: Status, data: Record, u: Toll, c: Status)
    requires ForgottenAt(i, t, b) && c.mem == b.mem
    requires i != OUT && IsHeader(FileOf(b, OUT)) ==> IsHeader(FileOf(c, OUT))
    requires u.forgot != [] ==>
      !b.mem && u.forgot == [data] && i != OUT && AtHome(data, OUT) && IsHeader(FileOf(c, OUT))
    ensures ForgottenAt(i, Plus(t, u), c)
  {
    hide IsHeader, AtHome;
    assert Plus(t, u).forgot == t.forgot + u.forgot;
  }

  lemma BalancedFormats(a: Status, t: Toll, b: Status)
    requires Balanced(a, t, [], b) && t.fits && Formatted(a)
    ensures Formatted(b)
  {
  }

  // What a pass does to the buffer that is searched.
  lemma PassTakes(b: Status, i: nat, verdict: Verdict, data: Record, count: nat, u: Toll, c: Status)
    requires Coherent(b) && Coherent(c) && i < BUFFERS && PassMeans(b, i, verdict, data, count, u, c)
    ensures c.mem == b.mem && b.faults <= c.faults
    ensures !verdict.Ended? ==> if b.mem then b.view[i] == c.view[i] + [data] else b.view[i] == [data] + c.view[i]
    ensures !verdict.Ended? ==> (verdict.Found? <==> AtHome(data, i))
    ensures !verdict.Ended? ==> if b.mem then count == |c.view[i]|
                                else c.faults == b.faults ==> count == Matching(c.view[i], data[CONTEST])
    ensures !verdict.Ended? && !b.mem ==> count == 0 || count == Matching(c.view[i], data[CONTEST])
    ensures verdict.Ended? ==> c.view[i] == b.view[i]
    ensures verdict.Ended? && (b.mem || (Homogeneous(FileOf(b, i)) && c.faults == b.faults)) ==> b.view[i] == []
  {
    hide Balanced, Elsewhere, Homogeneous, Matching, IsHeader, Formatted, FrontFree, TookHead, OthersKept;
  }

  lemma QuietBefore(a: Status, i: nat, t: Toll, b: Status, c: Status)
    requires Coherent(a) && Coherent(b) && i < BUFFERS && Along(a, i, t, b) && c.mem == b.mem && b.faults <= c.faults
    ensures Walked(a.mem, a.view[i], i, b.view[i], Quiet(a, b)) && b.mem == a.mem
    ensures Quiet(a, c) ==> Quiet(a, b) && (a.mem || (Homogeneous(FileOf(b, i)) && c.faults == b.faults))
  {
    hide Balanced, Elsewhere, Homogeneous, Walked, Excused, ForgottenAt, StacksKept, OthersKept, AllSpread, IsHeader,
         TookHead;
    if !a.mem && Formatted(a) {
      assert FormatsKept(a, i, b);
    }
  }

  // The walk through buffer i, one pass further.
  lemma WalkPass(a: Status, i: nat, t: Toll, b: Status, verdict: Verdict, data: Record, count: nat, u: Toll, c: Status)
    requires Coherent(a) && Coherent(b) && Coherent(c) && i < BUFFERS
    requires Along(a, i, t, b) && PassMeans(b, i, verdict, data, count, u, c)
    ensures (verdict.Saved? || verdict.GivenUp?) && count > 0 ==> Walked(a.mem, a.view[i], i, c.view[i], Quiet(a, c))
    ensures (verdict.Saved? || verdict.GivenUp?) && count == 0 ==>
      Sought(a.mem, a.view[i], i, -1, data, c.view[i], Quiet(a, c))
    ensures (verdict.Saved? || verdict.GivenUp?) ==> Sought(a.mem, a.view[i], i, -1, data, c.view[i], false)
    ensures verdict.Found? ==> Sought(a.mem, a.view[i], i, count, data, c.view[i], Quiet(a, c))
    ensures verdict.Ended? ==> Sought(a.mem, a.view[i], i, -1, data, c.view[i], Quiet(a, c))
  {
    hide Walked, Sought, Homogeneous, Matching, AtHome, Along, PassMeans, Quiet;
    PassTakes(b, i, verdict, data, count, u, c);
    QuietBefore(a, i, t, b, c);
    var held, mid, rest := a.view[i], b.view[i], c.view[i];
    match verdict
    case Ended =>
      WalkEnds(a.mem, held, i, mid, data, Quiet(a, b), Quiet(a, c));
    case Found =>
      WalkFinds(a.mem, held, i, mid, data, rest, count, Quiet(a, b), Quiet(a, c));
    case _ =>
      if count > 0 {
        WalkOn(a.mem, held, i, mid, data, rest, Quiet(a, b), Quiet(a, c));
      } else {
        WalkStops(a.mem, held, i, mid, data, rest, Quiet(a, b), Quiet(a, c));
      }
      WalkStops(a.mem, held, i, mid, data, rest, Quiet(a, b), false);
  }

  // The search goes on.
  lemma AlongPass(a: Status, i: nat, t: Toll, b: Status, verdict: Verdict, data: Record, count: nat, u: Toll, c: Status)
    requires Coherent(a) && Coherent(b) && Coherent(c) && i < BUFFERS
    requires Along(a, i, t, b) && PassMeans(b, i, verdict, data, count, u, c) && (verdict.Saved? || verdict.GivenUp?)
    ensures count > 0 ==> Along(a, i, Plus(t, u), c)
    ensures Searched(a, i, -1, data, Plus(t, u), true, c)
    ensures count == 0 ==> Searched(a, i, -1, data, Plus(t, u), false, c)
  {
    hide Balanced, Excused, Walked, Sought, PassMeans, FormatsKept, StacksKept, OthersKept, AllSpread, Quiet, AllHome,
         Formatted, IsHeader, FrontFree, ForgottenAt;
    WalkPass(a, i, t, b, verdict, data, count, u, c);
    ExcusedNext(a, i, t, b, verdict, data, count, u, c);
    PassFrame(b, i, verdict, data, count, u, c);
    BalancedNext(a, t, b, u, HandedBy(verdict, data), c);
    StacksNext(a, i, t, b, verdict, data, count, u, c);
    FormatsNext(a, i, t, b, verdict, data, count, u, c);
    OthersNext(a, i, t, b, verdict, data, count, u, c);
    SpreadNext(a, i, t, b, verdict, data, count, u, c);
  }

  // The search ends with a record, or because the buffer is empty or unreadable.
  lemma AlongEnds(a: Status, i: nat, t: Toll, b: Status, verdict: Verdict, data: Record, count: nat, u: Toll, c: Status)
    requires Coherent(a) && Coherent(b) && Coherent(c) && i < BUFFERS
    requires Along(a, i, t, b) && PassMeans(b, i, verdict, data, count, u, c) && (verdict.Ended? || verdict.Found?)
    ensures Searched(a, i, if verdict.Found? then count else -1, data, Plus(t, u), false, c)
  {
    hide Balanced, Excused, Walked, Sought, PassMeans, FormatsKept, StacksKept, OthersKept, AllSpread, Quiet, AllHome,
         Formatted, IsHeader, FrontFree, ForgottenAt;
    WalkPass(a, i, t, b, verdict, data, count, u, c);
    ExcusedNext(a, i, t, b, verdict, data, count, u, c);
    PassFrame(b, i, verdict, data, count, u, c);
    BalancedNext(a, t, b, u, HandedBy(verdict, data), c);
    StacksNext(a, i, t, b, verdict, data, count, u, c);
    FormatsNext(a, i, t, b, verdict, data, count, u, c);
    OthersNext(a, i, t, b, verdict, data, count, u, c);
    SpreadNext(a, i, t, b, verdict, data, count, u, c);
  }

  lemma OthersNext(a: Status, i: nat, t: Toll, b: Status, verdict: Verdict, data: Record, count: nat, u: Toll,
                   c: Status)
    requires Coherent(a) && Coherent(b) && Coherent(c) && i < BUFFERS
    requires Along(a, i, t, b) && PassMeans(b, i, verdict, data, count, u, c)
    ensures OthersKept(a, i, Plus(t, u), c)
  {
    hide Balanced, Excused, Walked, Elsewhere, Formatted, IsHeader, FrontFree, AllHome, Matching, Homogeneous,
         StacksKept, FormatsKept, ForgottenAt, Quiet, TookHead, PassMeans, AllSpread, HomeOf;
    PassTakes(b, i, verdict, data, count, u, c);
    PassParts(b, i, verdict, data, u, count, c);
    WalkedWithin(a.mem, a.view[i], i, b.view[i], Quiet(a, b));
    if verdict.Saved? {
      HomeNotThere(data, HomeOf(data));
      assert data in b.view[i];
    }
    if verdict.GivenUp? {
      assert data in b.view[i];
    }
    assert forall r :: r in Plus(t, u).dropped ==> r in t.dropped || r in u.dropped;
  }

  // If the head of a file is wanted, it is what a search hands out, and the search
  // does nothing else.
  ghost predicate HeadTaken(a: Status, i: nat, rc: int, data: Record, toll: Toll, b: Status)
    requires Coherent(a) && i < BUFFERS
  {
    !a.mem && a.view[i] != [] && AtHome(a.view[i][0], i) && Quiet(a, b) ==>
      rc >= 0 && data == a.view[i][0] && toll == FREE && TookHead(a, i, b)
  }

  lemma HeadFirst(a: Status, i: nat, verdict: Verdict, data: Record, count: nat, u: Toll, c: Status)
    requires Coherent(a) && Coherent(c) && i < BUFFERS && PassMeans(a, i, verdict, data, count, u, c)
    ensures HeadTaken(a, i, if verdict.Found? then count else -1, data, Plus(FREE, u), c)
  {
    hide Balanced, Elsewhere, Homogeneous, Matching, IsHeader, FrontFree, TookHead, AtHome, OthersKept;
    PlusFirst(u);
  }

  lemma PlusFirst(u: Toll)
    ensures Plus(FREE, u) == u
  {
  }

  // Or an error kept the search from handing it out.
  ghost predicate HeadMissed(a: Status, i: nat, b: Status)
    requires Coherent(a) && i < BUFFERS
  {
    !a.mem && a.view[i] != [] && AtHome(a.view[i][0], i) ==> !Quiet(a, b)
  }

  lemma HeadStep(a: Status, i: nat, t: Toll, b: Status, verdict: Verdict, data: Record, count: nat, u: Toll, c: Status)
    requires Coherent(a) && Coherent(b) && Coherent(c) && i < BUFFERS && PassMeans(b, i, verdict, data, count, u, c)
    requires (b == a && t == FREE) || HeadMissed(a, i, b)
    requires a.faults <= b.faults
    ensures HeadTaken(a, i, if verdict.Found? then count else -1, data, Plus(t, u), c)
    ensures !verdict.Found? ==> HeadMissed(a, i, c)
  {
    hide PassMeans, Quiet, AtHome, TookHead;
    PassTakes(b, i, verdict, data, count, u, c);
    if b == a && t == FREE {
      HeadFirst(a, i, verdict, data, count, u, c);
    } else {
      QuietLess(a, b, c);
    }
  }

  lemma QuietLess(a: Status, b: Status, c: Status)
    requires a.faults <= b.faults <= c.faults
    ensures Quiet(a, c) ==> Quiet(a, b)
  {
  }

  lemma PassFrame(b: Status, i: nat, verdict: Verdict, data: Record, count: nat, u: Toll, c: Status)
    requires Coherent(b) && Coherent(c) && i < BUFFERS && PassMeans(b, i, verdict, data, count, u, c)
    ensures SameKind(b, c) && Elsewhere(b, c) && Balanced(b, u, HandedBy(verdict, data), c)
    ensures verdict.Found? ==>
      if b.mem then count == |c.view[i]| else count == 0 || count == Matching(c.view[i], data[CONTEST])
  {
  }

  lemma PassShrinks(b: Status, i: nat, verdict: Verdict, data: Record, count: nat, u: Toll, c: Status)
    requires Coherent(b) && Coherent(c) && i < BUFFERS && PassMeans(b, i, verdict, data, count, u, c)
    ensures !verdict.Ended? ==> |c.view[i]| + 1 == |b.view[i]|
    ensures verdict.Ended? ==> c.view[i] == b.view[i]
  {
  }

  lemma StacksNext(a: Status, i: nat, t: Toll, b: Status, verdict: Verdict, data: Record, count: nat, u: Toll,
                   c: Status)
    requires Coherent(a) && Coherent(b) && Coherent(c) && i < BUFFERS
    requires Along(a, i, t, b) && PassMeans(b, i, verdict, data, count, u, c)
    ensures verdict.Saved? || verdict.GivenUp? ==> StacksKept(a, i, Plus(t, u), c)
    ensures a.mem ==> Plus(t, u).fits && Plus(t, u).forgot == []
    ensures a.mem && AllHome(a.view) ==> AllHome(c.view) && Plus(t, u) == FREE
    ensures a.mem && AllHome(a.view) ==> forall j :: 0 <= j < BUFFERS && j != i ==> c.view[j] == a.view[j]
    ensures a.mem && AllHome(a.view) ==> c.capacity == a.capacity
  {
    hide Balanced, Excused, Walked, Elsewhere, Formatted, IsHeader, FrontFree, AllHome, Matching, TookHead, OthersKept;
    if a.mem && AllHome(a.view) {
      HomesKept(b, i, verdict, data, count, u, c);
    }
  }

  lemma FormatsNext(a: Status, i: nat, t: Toll, b: Status, verdict: Verdict, data: Record, count: nat, u: Toll,
                    c: Status)
    requires Coherent(a) && Coherent(b) && Coherent(c) && i < BUFFERS
    requires Along(a, i, t, b) && PassMeans(b, i, verdict, data, count, u, c)
    ensures verdict.Saved? || verdict.GivenUp? ==> FormatsKept(a, i, c)
    ensures i != OUT && IsHeader(FileOf(a, OUT)) ==> IsHeader(FileOf(c, OUT))
    ensures verdict.Found? && !a.mem && i == OUT ==>
      !IsHeader(FileOf(a, OUT)) && !IsHeader(FileOf(c, OUT)) && FrontFree(FileOf(c, OUT))
  {
    hide Balanced, Excused, Walked, Elsewhere, Formatted, IsHeader, FrontFree, AllHome, Matching, Homogeneous,
         StacksKept, ForgottenAt, TookHead, OthersKept;
  }

  lemma HomesKept(a: Status, i: nat, verdict: Verdict, data: Record, count: nat, u: Toll, c: Status)
    requires Coherent(a) && Coherent(c) && i < BUFFERS
    requires a.mem && AllHome(a.view) && PassMeans(a, i, verdict, data, count, u, c)
    ensures verdict.Ended? || verdict.Found?
    ensures AllHome(c.view) && u == FREE
  {
    if !verdict.Ended? {
      assert data in a.view[i];
    }
    forall j, r | 0 <= j < |c.view| && r in c.view[j]
      ensures AtHome(r, j)
    {
      assert r in a.view[j];
    }
  }

  // The loop of GetBufferRecord on buffer i.
  method Search(s: BufferStore, i: nat, ghost puts: nat)
    returns (rc: int, data: Record, ghost toll: Toll, exiting: bool)
    requires s.Valid() && i < BUFFERS
    modifies s, s.disk, s.membufftable
    ensures s.Valid() && Searched(old(s.Now()), i, rc, data, toll, exiting, s.Now())
    ensures HeadTaken(old(s.Now()), i, rc, data, toll, s.Now())
    ensures old(Tame(s.Now(), puts + |s.Now().view[i]|)) ==>
      toll.fits && Tame(s.Now(), puts + |s.Now().view[i]| + if rc >= 0 then 1 else 0)
  {
    hide Along, Searched, PassMeans, HeadTaken, HeadMissed, Tame, Coherent, BufferStore.Now, BufferStore.Held,
         BufferStore.Valid;
    ghost var a := s.Now();
    ghost var tame := Tame(a, puts + |a.view[i]|);
    exiting, toll := false, FREE;
    AlongStart(a, i);
    while true
      invariant s.Valid() && !exiting && Along(a, i, toll, s.Now())
      invariant (s.Now() == a && toll == FREE) || HeadMissed(a, i, s.Now())
      invariant tame ==> toll.fits && Tame(s.Now(), puts + |s.Now().view[i]|)
      decreases |s.Now().view[i]|
    {
      var verdict, count;
      ghost var b, t, u := s.Now(), toll, FREE;
      verdict, data, count, u := Pass(s, i, puts + |b.view[i]|);
      ghost var c := s.Now();
      PassShrinks(b, i, verdict, data, count, u, c);
      AlongKind(a, i, t, b);
      HeadStep(a, i, t, b, verdict, data, count, u, c);
      toll := Plus(t, u);
      if tame {
        TameAfterPass(c, verdict, puts, |b.view[i]|, |c.view[i]|);
      }
      if verdict.Ended? || verdict.Found? {
        AlongEnds(a, i, t, b, verdict, data, count, u, c);
        return if verdict.Found? then count else -1, data, toll, false;
      }
      AlongPass(a, i, t, b, verdict, data, count, u, c);
      if * {
        exiting := true;
      }
      if exiting || count == 0 {
        return -1, data, toll, exiting;
      }
    }
  }

  lemma AlongKind(a: Status, i: nat, t: Toll, b: Status)
    requires Coherent(a) && Coherent(b) && i < BUFFERS && Along(a, i, t, b)
    ensures a.faults <= b.faults
  {
  }

  lemma TameAfterPass(c: Status, verdict: Verdict, puts: nat, before: nat, after: nat)
    requires !verdict.Ended? ==> before == after + 1
    requires verdict.Ended? ==> before == after
    requires Tame(c, if verdict.Saved? then puts + before - 1 else puts + before)
    ensures Tame(c, puts + after + if verdict.Found? then 1 else 0)
  {
    if verdict.GivenUp? {
      TameLess(c, puts + before, puts + after);
    }
  }

  // GetBufferRecord, from a to b.
  ghost predicate TakenFrom(a: Status, contest: nat, useOut: bool, rc: int, data: Record, toll: Toll, exiting: bool,
                            b: Status)
    requires Coherent(a) && Coherent(b)
  {
    if (!a.mem && a.clash) || contest >= CONTEST_COUNT then rc == -1 && b == a && toll == FREE && !exiting
    else Searched(a, SlotFor(contest, useOut), rc, data, toll, exiting, b)
  }

  // Takes a record of the given contest and direction, moving every misplaced
  // one it meets to where it belongs.
  method GetBufferRecord(s: BufferStore, contest: nat, useOut: bool, ghost puts: nat)
    returns (rc: int, data: Record, ghost toll: Toll, exiting: bool)
    requires s.Valid()
    modifies s, s.disk, s.membufftable
    ensures s.Valid() && TakenFrom(old(s.Now()), contest, useOut, rc, data, toll, exiting, s.Now())
    ensures contest < CONTEST_COUNT && (s.nodiskbuffers || !s.prefixesClash) ==>
      HeadTaken(old(s.Now()), SlotFor(contest, useOut), rc, data, toll, s.Now())
    ensures contest < CONTEST_COUNT && old(Tame(s.Now(), puts + |s.Now().view[SlotFor(contest, useOut)]|)) ==>
      toll.fits && Tame(s.Now(), puts + |s.Now().view[SlotFor(contest, useOut)]| + if rc >= 0 then 1 else 0)
  {
    hide Coherent, Searched, HeadTaken, Tame;
    data, toll, exiting := Blank(), FREE, false;
    if (!s.nodiskbuffers && s.prefixesClash) || contest >= CONTEST_COUNT {
      return -1, data, toll, exiting;
    }
    rc, data, toll, exiting := Search(s, SlotFor(contest, useOut), puts);
  }

  // ---------- what that means ----------

  // What is returned is what was asked for: a record the buffer held, with its
  // own contest, result and all.
  lemma GetsWhatWasAsked(a: Status, contest: nat, useOut: bool, rc: int, data: Record, toll: Toll, exiting: bool,
                         b: Status)
    requires Coherent(a) && Coherent(b) && TakenFrom(a, contest, useOut, rc, data, toll, exiting, b) && rc >= 0
    ensures contest < CONTEST_COUNT && AtHome(data, SlotFor(contest, useOut)) && data[CONTEST] == contest
    ensures useOut <==> data[RESULTCODE] != RESULT_WORKING
    ensures data in a.view[SlotFor(contest, useOut)]
    ensures forall r :: r in b.view[SlotFor(contest, useOut)] ==> r in a.view[SlotFor(contest, useOut)]
  {
    hide Balanced, Excused, ForgottenAt, AllHome, Elsewhere;
    var i := SlotFor(contest, useOut);
    SoughtShrinks(a.mem, a.view[i], i, rc, data, b.view[i], Quiet(a, b) && !exiting, contest);
  }

  // Without errors or a request to exit, a stack is searched to its bottom, and
  // a file exactly as far as no record hides the rest.
  lemma GetsIfInSight(a: Status, contest: nat, useOut: bool, rc: int, data: Record, toll: Toll, exiting: bool,
                      b: Status)
    requires Coherent(a) && Coherent(b) && TakenFrom(a, contest, useOut, rc, data, toll, exiting, b)
    requires Quiet(a, b) && !exiting && contest < CONTEST_COUNT && (a.mem || !a.clash)
    ensures var i := SlotFor(contest, useOut);
      rc >= 0 <==> if a.mem then exists k :: 0 <= k < |a.view[i]| && AtHome(a.view[i][k], i)
                   else exists k: nat :: InSight(a.view[i], i, k)
  {
    hide Balanced, Excused, ForgottenAt, AllHome, Elsewhere;
    var i := SlotFor(contest, useOut);
    if !a.mem {
      ReachesExactly(a.view[i], i);
    }
  }

  // What was taken and belongs in another buffer is there now, a stack has it in
  // the order in which it was taken; unless some of it was dropped.
  lemma EachGoesHome(a: Status, contest: nat, useOut: bool, rc: int, data: Record, toll: Toll, exiting: bool,
                     b: Status, j: nat)
    requires Coherent(a) && Coherent(b) && TakenFrom(a, contest, useOut, rc, data, toll, exiting, b)
    requires contest < CONTEST_COUNT && (a.mem || (!a.clash && toll.fits && Formatted(a)))
    requires j < BUFFERS && j != SlotFor(contest, useOut) && forall r :: r in toll.dropped ==> !AtHome(r, j)
    ensures var i := SlotFor(contest, useOut);
      Gains(a.mem, a.view[j], AtHomeIn(TakenOut(a.mem, a.view[i], |b.view[i]|), j), AtHomeIn(toll.forgot, j), b.view[j])
  {
    hide Accounted, Sought, IsHeader, Elsewhere, AllHome, Excused, OthersKept, Parted, Strays, TakenOut, Gains,
         AtHomeIn, Formatted, Balanced, AtHome;
    var i := SlotFor(contest, useOut);
    var saved :| Spread(a, i, BUFFERS, |b.view[i]|, saved, toll, b);
    var taken := TakenOut(a.mem, a.view[i], |b.view[i]|);
    PartedHome(Strays(taken, i), saved, toll.dropped, j);
    StraysHome(taken, i, j);
    assert Reached(a, j, saved, toll.forgot, b);
  }

  // Without errors and with real keys and packet numbers left, every record is
  // still in some buffer or was handed out, with its result unless it is now in
  // a Moo out-buffer; or else it met a full stack or had no home.
  lemma GetConserves(a: Status, contest: nat, useOut: bool, rc: int, data: Record, toll: Toll, exiting: bool, b: Status)
    requires Coherent(a) && Coherent(b) && TakenFrom(a, contest, useOut, rc, data, toll, exiting, b)
    requires toll.fits && Formatted(a)
    ensures Accounted(a.view, b.view, toll.dropped, if rc >= 0 then [data] else [], toll.forgot)
    ensures toll.forgot != [] ==> !b.mem && IsHeader(FileOf(b, OUT))
    // no record of a known contest and result is dropped but before a full stack
    ensures b.faults == a.faults ==> forall r :: r in toll.dropped && r[37] < 7 && r[20] <= 2 ==>
        a.mem && Routable(r) && |b.view[HomeOf(r)]| == 20000
  {
    hide Accounted, Sought, IsHeader, Elsewhere, AllHome;
    NothingAccounted(a.view);
  }
}
