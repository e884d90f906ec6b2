/**
 Flushing results to a remote buffer file (buffbase.cpp): BufferFlushFile for
 RC5-72, the contest of this build.  The remote file may be any file, also one of
 the client's own.  The accounts are kept over the client's fourteen buffers, and
 the remote file's records, results and all, are stated beside them.
 */
module Flush {
  import opened Moo521
  import opened WorkRecords
  import opened BufferFiles
  import opened BufferDisk
  import opened BufferRuns
  import opened MemBuffer
  import opened Routing
  import opened FileSteps
  import opened BufferStore
  import opened Walk
  import opened CrossSave
  import opened Transfers

  // ---------- sending a result ----------

  function TerminateAll(records: seq<Record>): seq<Record> {
    seq(|records|, i requires 0 <= i < |records| => Terminate(records[i]))
  }

  // What sending r costs: another file need only keep its format, one of the
  // client's own must also keep r.
  ghost function SendToll(b: Status, n: FileName, r: Record): Toll {
    if Apart(b, n) then Toll([], [], PutKeepsFormat(Sniff(b.disk, n).mooMode, Contents(b.disk, n), r, false))
    else GivingToll(b, n, r)
  }

  // BufferPutFileRecord of r with the remote flag, from b to c.
  ghost predicate SendMeans(b: Status, n: FileName, r: Record, rc: int, toll: Toll, c: Status)
    requires Coherent(b) && Coherent(c)
  {
    var mode, f, g := Sniff(b.disk, n).mooMode, Contents(b.disk, n), Contents(c.disk, n);
    && (rc == 0 || rc == -1) && Beside(b, n, c) && Place(c, n) == Place(b, n) && c.disk.mooMode == mode
    && (rc == -1 ==> c.view == b.view && g == f && toll == FREE)
    && (rc == -1 && Homogeneous(f) && c.faults == b.faults ==> b.disk.refusesRemote && !UsesMoo(mode, f))
    && (rc == 0 ==> c.faults == b.faults && toll == SendToll(b, n, r) && g == PutFile(mode, f, r, false).file)
    && (rc == 0 && b.disk.refusesRemote ==> UsesMoo(mode, f) && IsHeader(g))
    && (rc == 0 && toll.fits && Homogeneous(f) ==>
          && Homogeneous(g) && Adds(Records(f), Terminate(r), Records(g)) && (IsHeader(f) ==> IsHeader(g)))
    && (WideFormatted(b, n) && toll.fits ==> WideFormatted(c, n))
    && (rc == 0 && !Apart(b, n) && toll.fits && WideFormatted(b, n) ==> Entered(b.view, r, c.view, toll.forgot))
  }

  lemma GaveSends(b: Status, n: FileName, r: Record, rc: int, c: Status)
    requires Coherent(b) && Coherent(c) && RemoteGave(b, n, r, true, rc, c) && r[CONTEST] == RC5_72
    ensures SendMeans(b, n, r, rc, if rc == 0 then SendToll(b, n, r) else FREE, c)
  {
    hide Readable, Homogeneous, PutFile, Records, Adds, Entered, IsHeader, LandsAs, PutKeepsFormat;
    var mode, f := Sniff(b.disk, n).mooMode, Contents(b.disk, n);
    HeaderUses(mode, f);
    if rc == 0 && SendToll(b, n, r).fits && Homogeneous(f) {
      assert PutKeepsFormat(mode, f, r, false);
      Delivered(mode, f, r, false);
      if WideFormatted(b, n) {
        BesideFormatted(b, n, c);
      }
    }
  }

  lemma HeaderUses(mode: bool, f: File)
    ensures IsHeader(f) ==> UsesMoo(mode, f)
  {
  }

  // ---------- one pass ----------

  datatype FlushStep = NothingLeft(exiting: bool) | Sent(left: nat) | Unsent

  // What leaves the client's buffers with a step.
  function HandedTo(a: Status, n: FileName, step: FlushStep, data: Record): seq<Record> {
    if step.Sent? && Apart(a, n) then [data] else []
  }

  // All records are accounted for if formats were kept.
  ghost predicate FlushBalanced(a: Status, n: FileName, toll: Toll, handed: seq<Record>, d: Status)
    requires Coherent(a) && Coherent(d)
  {
    toll.fits && WideFormatted(a, n) ==>
      WideFormatted(d, n) && Accounted(a.view, d.view, toll.dropped, handed, toll.forgot)
  }

  // The records of the out-buffer that its count reports.
  function Left(mem: bool, out: seq<Record>): nat {
    if mem then |out| else Matching(out, RC5_72)
  }

  // How the step shows in the out-buffer, when that is not the remote file too.
  ghost predicate OutWalk(a: Status, step: FlushStep, fits: bool, d: Status)
    requires Coherent(a) && Coherent(d)
  {
    var held, rest := a.view[OUT], d.view[OUT];
    && (step.Sent? ==> |rest| < |held| && Left(a.mem, rest) < Left(a.mem, held))
    && (step.Sent? && (a.mem || step.left > 0) ==> step.left == Left(a.mem, rest))
    && (a.mem && step == NothingLeft(false) ==> rest == [])
    && (!a.mem && !a.clash && Formatted(a) && fits && d.faults == a.faults ==>
          && (step == NothingLeft(false) || step == Sent(0) ==> rest == LeftOver(held))
          && (step.Sent? && step.left > 0 ==> LeftOver(rest) == LeftOver(held)))
  }

  // How it shows when it is: the record sent is at its head again.
  ghost predicate OutCycle(a: Status, step: FlushStep, data: Record, fits: bool, d: Status)
    requires Coherent(a) && Coherent(d)
  {
    var held, now := a.view[OUT], d.view[OUT];
    && (step.Sent? && fits && Formatted(a) ==>
          && (step.left > 0 ==>
                now != [] && now[0] == data && step.left == Matching(now[1..], RC5_72))
          && (held != [] && AtHome(held[0], OUT) ==>
                && (step.left > 0 ==> now == held)
                && (step.left == 0 && d.faults == a.faults ==> Matching(held[1..], RC5_72) == 0)))
    && (step == NothingLeft(false) && !a.clash && Formatted(a) && d.faults == a.faults && held != [] ==>
        !AtHome(held[0], OUT))
  }

  // What one pass of the flush loop does, from a to d.
  ghost predicate FlushMeans(a: Status, n: FileName, step: FlushStep, data: Record, toll: Toll, d: Status)
    requires Coherent(a) && Coherent(d)
  {
    var f, g := Contents(a.disk, n), Contents(d.disk, n);
    && SameKind(a, d) && Place(d, n) == Place(a, n)
    && FlushBalanced(a, n, toll, HandedTo(a, n, step, data), d)
    && (!step.NothingLeft? ==> AtHome(data, OUT) && data[CONTEST] == RC5_72 && (a.mem || !a.clash))
    // a Moo file has no results to give
    && (!a.mem && IsHeader(FileOf(a, OUT)) ==> step.NothingLeft?)
    // the out-buffer
    && (Place(a, n) != OUT && !step.Unsent? ==> OutWalk(a, step, toll.fits, d))
    && (Place(a, n) == OUT ==> OutCycle(a, step, data, toll.fits, d))
    && (Place(a, n) == OUT && a.disk.refusesRemote && step.Sent? ==> step.left == 0)
    // the remote file
    && (step.Sent? && Apart(a, n) && toll.fits && Homogeneous(f) ==>
          && Homogeneous(g) && Adds(Records(f), Terminate(data), Records(g)) && (IsHeader(f) ==> IsHeader(g)))
    && (step.Sent? && Apart(a, n) && a.disk.refusesRemote ==> IsHeader(g))
    && (!step.Sent? && Apart(a, n) ==> g == f)
    && (step.Unsent? && Apart(a, n) && Homogeneous(f) && d.faults == a.faults ==> a.disk.refusesRemote && !IsHeader(f))
    && (step.Unsent? && toll.fits && WideFormatted(a, n) && d.faults == a.faults ==> a.disk.refusesRemote)
    // a pass that finds no result moves only what does not belong there
    && (step.NothingLeft? ==> OthersKept(a, OUT, toll, d) && toll.forgot == [])
    // nothing is given up but records that no buffer would take
    && (a.mem && AllHome(a.view) ==> AllHome(d.view) && (d.faults == a.faults ==> toll.dropped == []))
    && (!a.mem && toll.fits && WideFormatted(a, n) && d.faults == a.faults ==> forall r :: r in toll.dropped ==>
        !Routable(r))
    // and no result is forgotten but one put into a Moo file
    && (toll.forgot == [] || toll.forgot == [data])
    && (Apart(a, n) && toll.forgot != [] ==> step.Unsent? && !a.mem && IsHeader(FileOf(d, OUT)))
  }

  // Taking a result from the out-buffer.
  ghost predicate Took(a: Status, n: FileName, rc: int, data: Record, toll: Toll, exiting: bool, b: Status)
    requires Coherent(a) && Coherent(b)
  {
    TakenFrom(a, RC5_72, true, rc, data, toll, exiting, b)
  }

  lemma TookBeside(a: Status, n: FileName, rc: int, data: Record, toll: Toll, exiting: bool, b: Status)
    requires Coherent(a) && Coherent(b) && Took(a, n, rc, data, toll, exiting, b)
    ensures SameKind(a, b) && Place(b, n) == Place(a, n) && rc >= -1
    ensures Apart(a, n) ==> Contents(b.disk, n) == Contents(a.disk, n)
    ensures toll.fits && WideFormatted(a, n) ==>
      WideFormatted(b, n) && Accounted(a.view, b.view, toll.dropped, if rc >= 0 then [data] else [], toll.forgot)
    ensures toll.forgot == []
    ensures a.mem ==> toll.fits
  {
    hide Readable, Homogeneous, Accounted, Sought, IsHeader, AllHome, Excused;
    NothingAccounted(a.view);
    if toll.fits && WideFormatted(a, n) && !Apart(a, n) {
      assert FileOf(b, Place(a, n)) == Contents(b.disk, n);
    }
  }

  lemma TookWalk(a: Status, n: FileName, rc: int, data: Record, toll: Toll, exiting: bool, b: Status)
    requires Coherent(a) && Coherent(b) && Took(a, n, rc, data, toll, exiting, b)
    ensures rc >= 0 ==> AtHome(data, OUT) && data[CONTEST] == RC5_72 && (a.mem || !a.clash)
    ensures OutWalk(a, if rc >= 0 then Sent(rc) else NothingLeft(exiting), true, b)
    ensures !a.mem && IsHeader(FileOf(a, OUT)) ==> rc == -1
    ensures !a.mem && rc >= 0 ==> !IsHeader(FileOf(b, OUT)) && FrontFree(FileOf(b, OUT))
  {
    hide Readable, Homogeneous, Balanced, IsHeader, AllHome, Excused, ForgottenAt, Elsewhere, LeftOver, Depth, Reaches,
         FrontFree, Formatted;
    var held, rest := a.view[OUT], b.view[OUT];
    if a.mem || !a.clash {
      SoughtShrinks(a.mem, held, OUT, rc, data, rest, Quiet(a, b) && !exiting, RC5_72);
    }
  }

  lemma TookHomes(a: Status, n: FileName, rc: int, data: Record, toll: Toll, exiting: bool, b: Status)
    requires Coherent(a) && Coherent(b) && Took(a, n, rc, data, toll, exiting, b)
    ensures a.mem && AllHome(a.view) ==> AllHome(b.view) && toll.dropped == []
    ensures !a.mem && toll.fits && Formatted(a) && b.faults == a.faults ==> forall r :: r in toll.dropped ==>
      !Routable(r)
    ensures a.mem && rc >= 0 ==> |b.view[OUT]| < COUNT_MAX
    ensures !a.mem && rc >= 0 ==> Keepable(data)
  {
    hide Homogeneous, Balanced, IsHeader, ForgottenAt, Elsewhere, LeftOver, Depth, Reaches, FrontFree, Readable;
    if !a.mem && rc >= 0 {
      var held := a.view[OUT];
      SoughtShrinks(a.mem, held, OUT, rc, data, b.view[OUT], Quiet(a, b) && !exiting, RC5_72);
      ReadableShape(FileOf(a, OUT), data);
    }
  }

  // A record at home at the head of the file is the one taken.
  lemma TookItsHead(a: Status, n: FileName, rc: int, data: Record, toll: Toll, exiting: bool, b: Status)
    requires Coherent(a) && Coherent(b) && Took(a, n, rc, data, toll, exiting, b) && rc >= 0 && !a.mem
    requires a.view[OUT] != [] && AtHome(a.view[OUT][0], OUT)
    ensures data == a.view[OUT][0] && b.view[OUT] == a.view[OUT][1..]
  {
    hide Readable, Homogeneous, Balanced, IsHeader, AllHome, Excused, ForgottenAt, Elsewhere, LeftOver, Depth, Reaches,
         FrontFree, Formatted;
  }

  // Put back into a stock file whose first slot is free, it is at the head again.
  lemma SentToFront(b: Status, n: FileName, r: Record, toll: Toll, c: Status)
    requires Coherent(b) && Coherent(c) && SendMeans(b, n, r, 0, toll, c) && Place(b, n) == OUT && Keepable(r)
    requires !IsHeader(FileOf(b, OUT)) && FrontFree(FileOf(b, OUT)) && toll.fits && Formatted(b) && b.view[OUT] != []
    ensures c.view[OUT] == [r] + b.view[OUT]
  {
    hide Readable, StockPut, StockRecords, Records, Adds, Entered, FrontFree, MooPut, PutKeepsFormat, LandsAs;
    var mode, f := Sniff(b.disk, n).mooMode, FileOf(b, OUT);
    EmptyIsHomogeneous();
    StockOpens42(f);
    PutAtFront(f, r);
    assert Settled(r) == r;
    StaysStock(mode, f, r, toll);
    StockReadable(f);
    StockReadable(StockPut(f, r, false).file);
  }

  lemma StockOpens42(f: File)
    ensures Homogeneous(f) && !IsHeader(f) ==> |f| % 42 == 0
  {
  }

  lemma StockReadable(f: File)
    ensures !IsHeader(f) ==> Readable(f) == StockRecords(f)
  {
  }

  lemma StaysStock(mode: bool, f: File, r: Record, toll: Toll)
    requires Homogeneous(f) && !IsHeader(f) && f != []
    ensures !UsesMoo(mode, f)
    ensures PutKeepsFormat(mode, f, r, false) ==> !IsHeader(StockPut(f, r, false).file)
  {
    hide MooRoom;
    if PutKeepsFormat(mode, f, r, false) {
      PutFormat(mode, f, r, false);
    }
  }

  // ---------- putting together a pass ----------

  // A record at home at the head of the file is found.
  lemma NothingAtHead(a: Status, n: FileName, data: Record, toll: Toll, exiting: bool, b: Status)
    requires Coherent(a) && Coherent(b) && Took(a, n, -1, data, toll, exiting, b) && Place(a, n) == OUT
    ensures OutCycle(a, NothingLeft(exiting), data, toll.fits, b)
  {
    hide Readable, Homogeneous, Balanced, IsHeader, AllHome, Excused, ForgottenAt, Elsewhere, LeftOver, FrontFree,
         Formatted, AtHome, Depth, Reaches;
    if a.view[OUT] != [] && AtHome(a.view[OUT][0], OUT) {
      HeadReaches(a.view[OUT], OUT);
    }
  }

  lemma PassNothing(a: Status, n: FileName, data: Record, toll: Toll, exiting: bool, b: Status)
    requires Coherent(a) && Coherent(b) && Took(a, n, -1, data, toll, exiting, b)
    ensures FlushMeans(a, n, NothingLeft(exiting), data, toll, b)
  {
    hide Readable, Homogeneous, Accounted, IsHeader, AllHome, OutWalk, OutCycle, TakenFrom, FrontFree, WideFormatted;
    TookBeside(a, n, -1, data, toll, exiting, b);
    TookWalk(a, n, -1, data, toll, exiting, b);
    TookHomes(a, n, -1, data, toll, exiting, b);
    WalkFits(a, NothingLeft(exiting), toll.fits, b);
    FormattedOf(a, n);
    TookOthers(a, n, -1, data, toll, exiting, b);
    if Place(a, n) == OUT {
      NothingAtHead(a, n, data, toll, exiting, b);
    }
  }

  lemma TookOthers(a: Status, n: FileName, rc: int, data: Record, toll: Toll, exiting: bool, b: Status)
    requires Coherent(a) && Coherent(b) && Took(a, n, rc, data, toll, exiting, b)
    ensures OthersKept(a, OUT, toll, b)
  {
    hide Sought, Balanced, Excused, ForgottenAt, AllHome, IsHeader, FrontFree, Elsewhere;
  }

  lemma WalkFits(a: Status, step: FlushStep, fits: bool, b: Status)
    requires Coherent(a) && Coherent(b) && OutWalk(a, step, true, b)
    ensures OutWalk(a, step, fits, b)
  {
  }

  lemma FormattedOf(a: Status, n: FileName)
    ensures WideFormatted(a, n) ==> Formatted(a) && Homogeneous(Contents(a.disk, n))
  {
  }

  // A send elsewhere leaves the out-buffer alone.
  lemma SentElsewhere(b: Status, n: FileName, r: Record, rc: int, toll: Toll, c: Status)
    requires Coherent(b) && Coherent(c) && SendMeans(b, n, r, rc, toll, c)
    ensures Place(b, n) != OUT ==> c.view[OUT] == b.view[OUT]
    ensures Apart(b, n) ==> c.view == b.view && toll.forgot == []
    ensures rc == 0 ==> c.faults == b.faults
    ensures toll.dropped == []
  {
    hide Readable, Homogeneous, PutFile, Records, Adds, Entered, IsHeader, LandsAs, PutKeepsFormat, Suits, Forgets;
  }

  lemma SentBalanced(a: Status, n: FileName, left: nat, data: Record, t: Toll, exiting: bool, b: Status, u: Toll,
                     c: Status)
    requires Coherent(a) && Coherent(b) && Coherent(c) && Took(a, n, left, data, t, exiting, b)
    requires SendMeans(b, n, data, 0, u, c)
    ensures FlushBalanced(a, n, Plus(t, u), HandedTo(a, n, Sent(left), data), c)
  {
    hide Readable, Homogeneous, Accounted, IsHeader, TakenFrom, FrontFree, WideFormatted, Entered, Records, Adds,
         PutFile, Suits, LandsAs, PutKeepsFormat, Forgets;
    TookBeside(a, n, left, data, t, exiting, b);
    SentElsewhere(b, n, data, 0, u, c);
    if t.fits && u.fits && WideFormatted(a, n) {
      assert t.dropped + [] == t.dropped && t.forgot + [] == t.forgot;
      if !Apart(a, n) {
        AccountSettle(a.view, b.view, c.view, t.dropped, data, t.forgot, u.forgot);
      }
    }
  }

  lemma SentWalk(a: Status, n: FileName, left: nat, data: Record, t: Toll, exiting: bool, b: Status, u: Toll, c: Status)
    requires Coherent(a) && Coherent(b) && Coherent(c) && Took(a, n, left, data, t, exiting, b)
    requires SendMeans(b, n, data, 0, u, c)
    ensures Place(a, n) != OUT ==> OutWalk(a, Sent(left), Plus(t, u).fits, c)
    ensures Place(a, n) == OUT ==> OutCycle(a, Sent(left), data, Plus(t, u).fits, c)
  {
    hide Readable, Homogeneous, Accounted, IsHeader, TakenFrom, FrontFree, LeftOver, SendMeans, AtHome;
    TookBeside(a, n, left, data, t, exiting, b);
    TookWalk(a, n, left, data, t, exiting, b);
    SentElsewhere(b, n, data, 0, u, c);
    if Place(a, n) != OUT {
      WalkFits(a, Sent(left), Plus(t, u).fits, b);
    } else {
      TookHomes(a, n, left, data, t, exiting, b);
      CycleSteps(a, n, left, data, t, exiting, b, u, c);
    }
  }

  lemma CycleSteps(a: Status, n: FileName, left: nat, data: Record, t: Toll, exiting: bool, b: Status, u: Toll,
                   c: Status)
    requires Coherent(a) && Coherent(b) && Coherent(c) && Took(a, n, left, data, t, exiting, b) && Place(a, n) == OUT
    requires SendMeans(b, n, data, 0, u, c) && Keepable(data)
    ensures OutCycle(a, Sent(left), data, Plus(t, u).fits, c)
  {
    hide Readable, Homogeneous, Accounted, IsHeader, TakenFrom, FrontFree, LeftOver, SendMeans, AtHome, Keepable;
    TookBeside(a, n, left, data, t, exiting, b);
    TookWalk(a, n, left, data, t, exiting, b);
    SentElsewhere(b, n, data, 0, u, c);
    var held, rest := a.view[OUT], b.view[OUT];
    CountOf(a, n, left, data, t, exiting, b);
    if held != [] && AtHome(held[0], OUT) {
      TookItsHead(a, n, left, data, t, exiting, b);
      assert held == [data] + rest;
      LastIfLeft(held);
    }
    if t.fits && u.fits && Formatted(a) && left > 0 {
      assert rest != [];
      FormattedAlong(a, n, t, b);
      SentToFront(b, n, data, u, c);
      assert c.view[OUT][1..] == rest;
    }
  }

  // The count of a file is that of what is left, or 0 after an error.
  lemma CountOf(a: Status, n: FileName, left: nat, data: Record, t: Toll, exiting: bool, b: Status)
    requires Coherent(a) && Coherent(b) && Took(a, n, left, data, t, exiting, b) && !a.mem
    ensures left > 0 ==> left == Matching(b.view[OUT], RC5_72)
    ensures left == 0 && b.faults == a.faults && Formatted(a) ==> LeftOver(a.view[OUT]) == b.view[OUT]
  {
    hide Readable, Homogeneous, Balanced, IsHeader, AllHome, Excused, ForgottenAt, Elsewhere, LeftOver, Depth, Reaches,
         FrontFree, Formatted;
  }

  lemma FormattedAlong(a: Status, n: FileName, t: Toll, b: Status)
    requires Coherent(a) && Coherent(b) && Place(a, n) == OUT
    requires t.fits && WideFormatted(a, n) ==> WideFormatted(b, n)
    ensures t.fits && Formatted(a) ==> Formatted(b)
  {
    assert FileOf(a, OUT) == Contents(a.disk, n);
  }

  lemma PassSent(a: Status, n: FileName, left: nat, data: Record, t: Toll, exiting: bool, b: Status, u: Toll, c: Status)
    requires Coherent(a) && Coherent(b) && Coherent(c) && Took(a, n, left, data, t, exiting, b)
    requires SendMeans(b, n, data, 0, u, c)
    ensures FlushMeans(a, n, Sent(left), data, Plus(t, u), c)
  {
    hide Readable, Homogeneous, Accounted, IsHeader, TakenFrom, FrontFree, LeftOver, AtHome, OutWalk, OutCycle,
         FlushBalanced, Entered, Records, Adds, PutFile, Suits, LandsAs, AllHome, PutKeepsFormat, Forgets;
    TookBeside(a, n, left, data, t, exiting, b);
    TookWalk(a, n, left, data, t, exiting, b);
    TookHomes(a, n, left, data, t, exiting, b);
    SentElsewhere(b, n, data, 0, u, c);
    SentBalanced(a, n, left, data, t, exiting, b, u, c);
    SentWalk(a, n, left, data, t, exiting, b, u, c);
    SendForgets(b, n, data, u, c);
    if Place(a, n) == OUT && a.disk.refusesRemote {
      RefusedIsLast(a, n, left, data, t, exiting, b, u, c);
    }
    assert t.dropped + [] == t.dropped;
  }

  lemma SendForgets(b: Status, n: FileName, r: Record, u: Toll, c: Status)
    requires Coherent(b) && Coherent(c) && SendMeans(b, n, r, 0, u, c)
    ensures u.forgot == [] || u.forgot == [r]
  {
    hide Readable, Homogeneous, PutFile, Records, Adds, Entered, IsHeader, LandsAs, PutKeepsFormat, Suits;
  }

  // Sending into the out-buffer itself, where stock files are refused, works at
  // most for its last record.
  lemma RefusedIsLast(a: Status, n: FileName, left: nat, data: Record, t: Toll, exiting: bool, b: Status, u: Toll,
                      c: Status)
    requires Coherent(a) && Coherent(b) && Coherent(c) && Took(a, n, left, data, t, exiting, b)
    requires SendMeans(b, n, data, 0, u, c) && Place(a, n) == OUT && a.disk.refusesRemote
    ensures left == 0
  {
    hide Homogeneous, Accounted, TakenFrom, FrontFree, LeftOver, AtHome, OutWalk, Entered, Records, Adds, PutFile,
         Suits, LandsAs, PutKeepsFormat, Readable;
    TookBeside(a, n, left, data, t, exiting, b);
    TookWalk(a, n, left, data, t, exiting, b);
    CountOf(a, n, left, data, t, exiting, b);
    EmptyIsHomogeneous();
    assert FileOf(b, OUT) == Contents(b.disk, n);
    assert Matching([], RC5_72) == 0;
  }

  // PutBufferRecord of a result that could not be sent.
  function BackToll(c: Status, r: Record, rc: int, stored: Toll): Toll {
    if rc >= 0 then stored else Toll([r], [], true)
  }

  lemma BackBalanced(a: Status, n: FileName, left: nat, data: Record, t: Toll, exiting: bool, b: Status, c: Status,
                     back: int, d: Status)
    requires Coherent(a) && Coherent(b) && Coherent(c) && Coherent(d) && Took(a, n, left, data, t, exiting, b)
    requires SendMeans(b, n, data, -1, FREE, c) && StoreMeans(c, n, data, back, d) && Routable(data)
    ensures FlushBalanced(a, n, Plus(t, BackToll(c, data, back, StoringToll(c, data))), [], d)
  {
    hide Readable, Homogeneous, Accounted, IsHeader, TakenFrom, FrontFree, Entered, Records, Adds, PutFile, Wide,
         SendMeans;
    TookBeside(a, n, left, data, t, exiting, b);
    UnsentSame(b, n, data, c);
    StoredBalanced(c, n, data, back, d);
    if t.fits && WideFormatted(a, n) {
      AccountSettle(a.view, b.view, d.view, t.dropped, data, t.forgot, StoringToll(c, data).forgot);
      assert t.dropped + [] == t.dropped && t.forgot + [] == t.forgot;
    }
  }

  lemma UnsentSame(b: Status, n: FileName, r: Record, c: Status)
    requires Coherent(b) && Coherent(c) && SendMeans(b, n, r, -1, FREE, c)
    ensures c.view == b.view && SameKind(b, c) && Place(c, n) == Place(b, n)
    ensures Contents(c.disk, n) == Contents(b.disk, n) && (WideFormatted(b, n) ==> WideFormatted(c, n))
    ensures Beside(b, n, c)
    ensures Homogeneous(Contents(b.disk, n)) && c.faults == b.faults ==>
      b.disk.refusesRemote && !IsHeader(Contents(b.disk, n))
  {
    hide Readable, Homogeneous, IsHeader, Records, Adds, Entered, PutFile, Suits, PutKeepsFormat, LandsAs;
  }

  // In the view of the buffers alone.
  lemma StoredBalanced(c: Status, n: FileName, r: Record, rc: int, d: Status)
    requires Coherent(c) && Coherent(d) && StoreMeans(c, n, r, rc, d) && Routable(r)
    ensures SameKind(c, d) && Place(d, n) == Place(c, n)
    ensures rc < 0 ==> d.view == c.view && (WideFormatted(c, n) ==> WideFormatted(d, n))
    ensures rc >= 0 && StoringToll(c, r).fits && WideFormatted(c, n) ==>
      WideFormatted(d, n) && Entered(c.view, r, d.view, StoringToll(c, r).forgot)
    ensures StoringToll(c, r).dropped == []
  {
    hide Readable, Homogeneous, IsHeader, PutFile, Entered, Welcome, Forgetting;
    if rc < 0 {
      SameRecords(c, n, d);
    } else if StoringToll(c, r).fits && WideFormatted(c, n) && Apart(c, n) {
      ApartEntered(c, n, r, rc, d);
    }
  }

  lemma ApartEntered(c: Status, n: FileName, r: Record, rc: nat, d: Status)
    requires Coherent(c) && Coherent(d) && Routable(r) && StoreGains(c, n, r, HomeOf(r), rc, d)
    requires Place(d, n) == Place(c, n)
    requires Apart(c, n) && Entered(Wide(c, n), r, Wide(d, n), StoringToll(c, r).forgot)
    ensures Entered(c.view, r, d.view, StoringToll(c, r).forgot)
  {
    hide Readable, Homogeneous, IsHeader, PutFile, Welcome, Forgetting;
    var x := Readable(Contents(c.disk, n));
    assert Wide(c, n) == c.view + [x] && Wide(d, n) == d.view + [x];
    EnteredAlone(c.view, r, d.view, x, StoringToll(c, r).forgot);
  }

  lemma PassUnsent(a: Status, n: FileName, left: nat, data: Record, t: Toll, exiting: bool, b: Status, c: Status,
                   back: int, d: Status)
    requires Coherent(a) && Coherent(b) && Coherent(c) && Coherent(d) && Took(a, n, left, data, t, exiting, b)
    requires SendMeans(b, n, data, -1, FREE, c) && StoreMeans(c, n, data, back, d) && Routable(data)
    ensures FlushMeans(a, n, Unsent, data, Plus(t, BackToll(c, data, back, StoringToll(c, data))), d)
  {
    hide Readable, Homogeneous, Accounted, IsHeader, TakenFrom, FrontFree, LeftOver, OutWalk, FlushBalanced, Entered,
         Records, Adds, PutFile, Suits, LandsAs, PutKeepsFormat, Forgets, SendMeans, StoreGains, Wide, Forgetting,
         Welcome;
    TookBeside(a, n, left, data, t, exiting, b);
    TookWalk(a, n, left, data, t, exiting, b);
    TookHomes(a, n, left, data, t, exiting, b);
    UnsentSame(b, n, data, c);
    BackBalanced(a, n, left, data, t, exiting, b, c, back, d);
    BackDetails(c, n, data, back, d);
    UnsentReasons(a, n, left, data, t, exiting, b, c, back, d);
  }

  lemma BackDetails(c: Status, n: FileName, r: Record, rc: int, d: Status)
    requires Coherent(c) && Coherent(d) && StoreMeans(c, n, r, rc, d) && AtHome(r, OUT)
    ensures SameKind(c, d) && Place(d, n) == Place(c, n) && (rc == -1 || rc >= 1)
    ensures Apart(c, n) ==> Contents(d.disk, n) == Contents(c.disk, n)
    ensures c.mem && AllHome(c.view) ==> AllHome(d.view)
    ensures StoringToll(c, r).forgot == [] || StoringToll(c, r).forgot == [r]
    ensures rc >= 0 && StoringToll(c, r).forgot != [] ==> !c.mem && IsHeader(FileOf(d, OUT))
  {
    hide Readable, Homogeneous, PutFile, Entered, Welcome, Forgetting, IsHeader, Wide;
    if rc >= 0 && c.mem && AllHome(c.view) {
      forall i, x | 0 <= i < |d.view| && x in d.view[i]
        ensures AtHome(x, i)
      {
        if i == OUT {
          assert d.view[OUT] == c.view[OUT] + [r];
        }
      }
    }
    if rc >= 0 && !c.mem && Apart(c, n) && n == LocalOf(OUT) {
      PlaceOf(c, n, OUT);
    }
  }

  // Where a result fails to go back only if an error happens.
  lemma UnsentReasons(a: Status, n: FileName, left: nat, data: Record, t: Toll, exiting: bool, b: Status, c: Status,
                      back: int, d: Status)
    requires Coherent(a) && Coherent(b) && Coherent(c) && Coherent(d) && Took(a, n, left, data, t, exiting, b)
    requires SendMeans(b, n, data, -1, FREE, c) && StoreMeans(c, n, data, back, d) && Routable(data)
    ensures back < 0 && (a.mem || (t.fits && WideFormatted(a, n))) ==> d.faults > a.faults
    ensures a.faults <= b.faults <= c.faults <= d.faults
  {
    hide Readable, Homogeneous, Accounted, IsHeader, TakenFrom, FrontFree, LeftOver, OutWalk, Entered, Wide,
         Records, Adds, PutFile, Suits, LandsAs, PutKeepsFormat, Forgets, SendMeans, StoreGains, Forgetting, Welcome;
    TookBeside(a, n, left, data, t, exiting, b);
    TookWalk(a, n, left, data, t, exiting, b);
    TookHomes(a, n, left, data, t, exiting, b);
    UnsentSame(b, n, data, c);
  }

  // ---------- what a pass takes out, and where it goes ----------

  // What is left of the out-buffer when `left` are left.
  function Rest(mem: bool, held: seq<Record>, left: nat): seq<Record>
    requires left <= |held|
  {
    if mem then held[..left] else held[|held| - left..]
  }

  // The records left of those that were there, not counting one put back.
  function LeftOf(step: FlushStep, out: seq<Record>): int {
    if step.Unsent? then |out| - 1 else |out|
  }

  // A pass without errors takes results out, at most the one that it sends or puts
  // back, and strays, which go where they belong.
  ghost predicate Draws(a: Status, n: FileName, step: FlushStep, data: Record, saved: seq<Record>, toll: Toll,
                        d: Status)
    requires Coherent(a) && Coherent(d)
  {
    var held, left := a.view[OUT], LeftOf(step, d.view[OUT]);
    && 0 <= left <= |held| && Spread(a, OUT, Place(a, n), left, saved, toll, d)
    && AtHomeIn(TakenOut(a.mem, held, left), OUT) == (if step.NothingLeft? then [] else [data])
    && (if step.Unsent? then Apart(a, n) ==> Gains(a.mem, Rest(a.mem, held, left), [data], toll.forgot, d.view[OUT])
        else d.view[OUT] == Rest(a.mem, held, left))
  }

  ghost predicate PassDraws(a: Status, n: FileName, step: FlushStep, data: Record, toll: Toll, d: Status)
    requires Coherent(a) && Coherent(d)
  {
    Place(a, n) != OUT && (a.mem || !a.clash) && toll.fits && WideFormatted(a, n) && d.faults == a.faults ==>
      exists saved :: Draws(a, n, step, data, saved, toll, d)
  }

  lemma RestIsLeft(mem: bool, held: seq<Record>, rest: seq<Record>)
    requires LeftIs(mem, held, rest)
    ensures |rest| <= |held| && rest == Rest(mem, held, |rest|)
  {
  }

  lemma TookSpreads(a: Status, n: FileName, rc: int, data: Record, toll: Toll, exiting: bool, b: Status)
    requires Coherent(a) && Coherent(b) && Took(a, n, rc, data, toll, exiting, b) && (a.mem || !a.clash)
    ensures AllSpread(a, OUT, BUFFERS, |b.view[OUT]|, toll, b) && toll.forgot == []
    ensures LeftIs(a.mem, a.view[OUT], b.view[OUT])
    ensures AtHomeIn(TakenOut(a.mem, a.view[OUT], |b.view[OUT]|), OUT) == if rc >= 0 then [data] else []
  {
    hide Balanced, Excused, Elsewhere, AllSpread, AllHome, IsHeader, Homogeneous, FrontFree, Sought, LeftIs, TakenOut,
         AtHomeIn, OthersKept;
    SoughtTakes(a.mem, a.view[OUT], OUT, rc, data, b.view[OUT], Quiet(a, b) && !exiting);
  }

  // What changes the spread no more: the other buffers but p are as they were, and
  // what is forgotten besides is at home in the out-buffer.
  lemma SpreadOn(a: Status, p: nat, left: nat, saved: seq<Record>, t: Toll, b: Status, u: Toll, c: Status)
    requires Coherent(a) && Coherent(b) && Coherent(c) && Spread(a, OUT, BUFFERS, left, saved, t, b) && b.mem == a.mem
    requires u.dropped == [] && forall r :: r in u.forgot ==> AtHome(r, OUT)
    requires forall j :: 0 <= j < BUFFERS && j != OUT && j != p ==> c.view[j] == b.view[j]
    ensures Spread(a, OUT, p, left, saved, Plus(t, u), c)
  {
    hide TakenOut, Strays, Parted, Reached, Formatted, AtHome;
    assert t.dropped + [] == t.dropped;
    if a.mem || (Plus(t, u).fits && Formatted(a)) {
      forall j | 0 <= j < BUFFERS && j != OUT && j != p
        ensures Reached(a, j, saved, Plus(t, u).forgot, c)
      {
        ReachedStill(a, j, saved, t.forgot, b, u.forgot, c);
      }
    }
  }

  lemma ReachedStill(a: Status, j: nat, saved: seq<Record>, f: seq<Record>, b: Status, g: seq<Record>, c: Status)
    requires Coherent(a) && Coherent(b) && Coherent(c) && j < BUFFERS && j != OUT && Reached(a, j, saved, f, b)
    requires c.view[j] == b.view[j] && forall r :: r in g ==> AtHome(r, OUT)
    ensures Reached(a, j, saved, f + g, c)
  {
    hide Gains;
    HomesConcat(f, g, j);
    HomesWithin(g, j);
    NoneAt(g, j);
    NothingMore(AtHomeIn(f, j));
  }

  lemma {:induction false} NoneAt(g: seq<Record>, j: nat)
    requires j != OUT && forall r :: r in g ==> AtHome(r, OUT)
    ensures AtHomeIn(g, j) == []
  {
    if g == [] {
    } else {
      assert g[|g| - 1] in g && forall r :: r in g[..|g| - 1] ==> r in g;
      NoneAt(g[..|g| - 1], j);
    }
  }

  lemma NothingDraws(a: Status, n: FileName, data: Record, toll: Toll, exiting: bool, b: Status)
    requires Coherent(a) && Coherent(b) && Took(a, n, -1, data, toll, exiting, b)
    ensures PassDraws(a, n, NothingLeft(exiting), data, toll, b)
  {
    hide Took, Spread, LeftIs, Rest, TakenOut, AtHomeIn, WideFormatted, Gains;
    if a.mem || !a.clash {
      TookSpreads(a, n, -1, data, toll, exiting, b);
      RestIsLeft(a.mem, a.view[OUT], b.view[OUT]);
      var saved :| Spread(a, OUT, BUFFERS, |b.view[OUT]|, saved, toll, b);
      TookKinds(a, n, -1, data, toll, exiting, b);
      SpreadOn(a, Place(a, n), |b.view[OUT]|, saved, toll, b, FREE, b);
      PlusOf(toll, FREE);
      assert Draws(a, n, NothingLeft(exiting), data, saved, toll, b);
    }
  }

  lemma SentDraws(a: Status, n: FileName, rc: int, data: Record, t: Toll, exiting: bool, b: Status, u: Toll, c: Status)
    requires Coherent(a) && Coherent(b) && Coherent(c) && Took(a, n, rc, data, t, exiting, b) && rc >= 0
    requires SendMeans(b, n, data, 0, u, c)
    ensures PassDraws(a, n, Sent(rc), data, Plus(t, u), c)
  {
    hide Took, Spread, LeftIs, Rest, TakenOut, AtHomeIn, WideFormatted, Gains, SendMeans, AtHome;
    TookKinds(a, n, rc, data, t, exiting, b);
    SentElsewhere(b, n, data, 0, u, c);
    SentBeside(b, n, data, 0, u, c);
    if (a.mem || !a.clash) && Place(a, n) != OUT {
      TookSpreads(a, n, rc, data, t, exiting, b);
      RestIsLeft(a.mem, a.view[OUT], b.view[OUT]);
      var saved :| Spread(a, OUT, BUFFERS, |b.view[OUT]|, saved, t, b);
      SpreadOn(a, Place(a, n), |b.view[OUT]|, saved, t, b, u, c);
      assert Draws(a, n, Sent(rc), data, saved, Plus(t, u), c);
    }
  }

  lemma SentBeside(b: Status, n: FileName, r: Record, rc: int, u: Toll, c: Status)
    requires Coherent(b) && Coherent(c) && SendMeans(b, n, r, rc, u, c)
    ensures SameKind(b, c) && Place(c, n) == Place(b, n)
    ensures forall j :: 0 <= j < BUFFERS && j != Place(b, n) ==> c.view[j] == b.view[j]
    ensures u.dropped == [] && (u.forgot == [] || u.forgot == [r])
  {
    hide Readable, Homogeneous, PutFile, Records, Adds, Entered, IsHeader, LandsAs, PutKeepsFormat, Suits;
  }

  lemma UnsentDraws(a: Status, n: FileName, rc: int, data: Record, t: Toll, exiting: bool, b: Status, c: Status,
                    back: int, d: Status)
    requires Coherent(a) && Coherent(b) && Coherent(c) && Coherent(d) && Took(a, n, rc, data, t, exiting, b) && rc >= 0
    requires SendMeans(b, n, data, -1, FREE, c) && StoreMeans(c, n, data, back, d) && Routable(data)
    ensures PassDraws(a, n, Unsent, data, Plus(t, BackToll(c, data, back, StoringToll(c, data))), d)
  {
    hide Took, Spread, LeftIs, Rest, TakenOut, AtHomeIn, WideFormatted, Gains, SendMeans, AtHome, StoreMeans,
         StoringToll;
    var toll := Plus(t, BackToll(c, data, back, StoringToll(c, data)));
    TookKinds(a, n, rc, data, t, exiting, b);
    UnsentSame(b, n, data, c);
    BackFrame(c, n, data, back, d);
    if Place(a, n) != OUT && (a.mem || !a.clash) && toll.fits && WideFormatted(a, n) && d.faults == a.faults {
      UnsentReasons(a, n, rc, data, t, exiting, b, c, back, d);
      assert back >= 0;
      TookSpreads(a, n, rc, data, t, exiting, b);
      RestIsLeft(a.mem, a.view[OUT], b.view[OUT]);
      BackGains(c, n, data, back, d);
      var saved :| Spread(a, OUT, BUFFERS, |b.view[OUT]|, saved, t, b);
      SpreadOn(a, Place(a, n), |b.view[OUT]|, saved, t, b, StoringToll(c, data), d);
      PlusForgot(t, StoringToll(c, data));
      assert Draws(a, n, Unsent, data, saved, toll, d);
    }
  }

  lemma BackFrame(c: Status, n: FileName, r: Record, rc: int, d: Status)
    requires Coherent(c) && Coherent(d) && StoreMeans(c, n, r, rc, d) && AtHome(r, OUT)
    ensures c.faults <= d.faults && d.mem == c.mem
    ensures forall j :: 0 <= j < BUFFERS && j != OUT ==> d.view[j] == c.view[j]
    ensures StoringToll(c, r).dropped == [] && (StoringToll(c, r).forgot == [] || StoringToll(c, r).forgot == [r])
  {
    hide Readable, Homogeneous, PutFile, Entered, Welcome, Forgetting, IsHeader, Wide;
  }

  // Back in the out-buffer there is one record more, with its result if it was not
  // forgotten.
  lemma BackGains(c: Status, n: FileName, r: Record, rc: int, d: Status)
    requires Coherent(c) && Coherent(d) && StoreMeans(c, n, r, rc, d) && AtHome(r, OUT) && rc >= 0
    requires StoringToll(c, r).fits && WideFormatted(c, n)
    ensures Gains(c.mem, c.view[OUT], [r], StoringToll(c, r).forgot, d.view[OUT])
    ensures |d.view[OUT]| == |c.view[OUT]| + 1
  {
    hide Readable, Homogeneous, PutFile, Entered, Accounted, Welcome, Forgetting, IsHeader, Wide, Bag;
    BackFrame(c, n, r, rc, d);
    StoredBalanced(c, n, r, rc, d);
    if c.mem {
      assert d.view[OUT] == c.view[OUT] + [r];
    } else {
      EnteredHome(c.view, OUT, r, d.view, StoringToll(c, r).forgot);
    }
  }

  // ---------- a result at the head of the out-buffer ----------

  // The remote file takes no results from this build.
  predicate RefusesResults(a: Status, n: FileName) {
    a.disk.refusesRemote && !UsesMoo(Sniff(a.disk, n).mooMode, Contents(a.disk, n))
  }

  // Taking the head of the out-buffer truncates it, and the flag makes of an
  // empty file a Moo file.
  predicate Forgetful(a: Status) {
    a.disk.mooMode && GetFile(FileOf(a, OUT)).Got? && GetFile(FileOf(a, OUT)).file == []
  }

  // The head of an out-buffer on disk is a result for another file.
  ghost predicate ResultAhead(a: Status, n: FileName)
    requires Coherent(a)
  {
    && !a.mem && !a.clash && Apart(a, n) && WideFormatted(a, n)
    && a.view[OUT] != [] && AtHome(a.view[OUT][0], OUT)
  }

  // What becomes of it in one pass, without errors.
  ghost predicate HeadFate(a: Status, n: FileName, step: FlushStep, toll: Toll, d: Status)
    requires Coherent(a)
  {
    ResultAhead(a, n) && d.faults == a.faults ==>
      && !step.NothingLeft? && (step.Unsent? <==> RefusesResults(a, n))
      && (toll.forgot != [] <==> step.Unsent? && Forgetful(a))
  }

  // An out-buffer with a result is no Moo file.
  lemma ResultsAreStock(a: Status)
    requires Coherent(a) && !a.mem && a.view[OUT] != [] && AtHome(a.view[OUT][0], OUT)
    ensures !IsHeader(FileOf(a, OUT))
  {
    hide Readable;
    if IsHeader(FileOf(a, OUT)) {
      ReadableShape(FileOf(a, OUT), a.view[OUT][0]);
    }
  }

  lemma StockStaysStock(f: File)
    requires Homogeneous(f) && !IsHeader(f) && GetFile(f).Got?
    ensures !IsHeader(GetFile(f).file)
  {
    TookFrom(f);
  }

  lemma HeadNothing(a: Status, n: FileName, rc: int, data: Record, toll: Toll, exiting: bool, b: Status)
    requires Coherent(a) && Coherent(b) && rc < 0
    requires a.mem || !a.clash ==> HeadTaken(a, OUT, rc, data, toll, b)
    ensures HeadFate(a, n, NothingLeft(exiting), toll, b)
  {
    hide Homogeneous, Readable;
  }

  // After the head was taken the remote file and the flag are as they were.
  lemma HeadLeaves(a: Status, n: FileName, rc: int, data: Record, toll: Toll, b: Status)
    requires Coherent(a) && Coherent(b) && ResultAhead(a, n) && HeadTaken(a, OUT, rc, data, toll, b)
    requires b.faults == a.faults && SameKind(a, b)
    ensures rc >= 0 && data == a.view[OUT][0] && toll == FREE && b.disk.mooMode == a.disk.mooMode
    ensures Contents(b.disk, n) == Contents(a.disk, n) && RefusesResults(b, n) == RefusesResults(a, n)
    ensures GetFile(FileOf(a, OUT)).Got? && FileOf(b, OUT) == GetFile(FileOf(a, OUT)).file && !IsHeader(FileOf(b, OUT))
  {
    hide Readable, Homogeneous, UsesMoo, IsHeader, GetFile;
    ResultsAreStock(a);
    if n == LocalOf(OUT) {
      PlaceOf(a, n, OUT);
    }
    assert Homogeneous(FileOf(a, OUT));
    StockStaysStock(FileOf(a, OUT));
  }

  lemma HeadSent(a: Status, n: FileName, rc: int, data: Record, t: Toll, b: Status, u: Toll, c: Status)
    requires Coherent(a) && Coherent(b) && Coherent(c) && rc >= 0 && SameKind(a, b) && Place(b, n) == Place(a, n)
    requires a.mem || !a.clash ==> HeadTaken(a, OUT, rc, data, t, b)
    requires SendMeans(b, n, data, 0, u, c)
    ensures HeadFate(a, n, Sent(rc), Plus(t, u), c)
  {
    hide Readable, Homogeneous, UsesMoo, IsHeader, Forgetful, PutFile, Records, Adds, Entered, LandsAs, Suits,
         PutKeepsFormat, HeadTaken, WideFormatted;
    SentElsewhere(b, n, data, 0, u, c);
    if ResultAhead(a, n) && c.faults == a.faults {
      HeadLeaves(a, n, rc, data, t, b);
    }
  }

  lemma HeadUnsent(a: Status, n: FileName, rc: int, data: Record, t: Toll, b: Status, c: Status, back: int, d: Status)
    requires Coherent(a) && Coherent(b) && Coherent(c) && Coherent(d) && rc >= 0 && SameKind(a, b)
    requires a.mem || !a.clash ==> HeadTaken(a, OUT, rc, data, t, b)
    requires AtHome(data, OUT) && (!a.mem ==> Keepable(data))
    requires SendMeans(b, n, data, -1, FREE, c) && StoreMeans(c, n, data, back, d)
    requires t.fits && WideFormatted(a, n) ==> WideFormatted(b, n)
    ensures HeadFate(a, n, Unsent, Plus(t, BackToll(c, data, back, StoringToll(c, data))), d)
  {
    hide Readable, Homogeneous, IsHeader, PutFile, Records, Adds, Entered, LandsAs, Suits, PutKeepsFormat, HeadTaken,
         WideFormatted, StoreGains, Forgetting, Welcome, Keepable, GetFile, UsesMoo;
    UnsentSame(b, n, data, c);
    if ResultAhead(a, n) && d.faults == a.faults {
      HeadLeaves(a, n, rc, data, t, b);
      UnsentRefused(b, n, data, c);
      HeaderUses(Sniff(b.disk, n).mooMode, Contents(b.disk, n));
      ForgottenOnReturn(c, data);
      LastIsMoo(Sniff(c.disk, LocalOf(OUT)).mooMode, FileOf(c, OUT));
      FormattedOf(c, n);
      assert FileOf(c, OUT) == FileOf(b, OUT);
      assert back >= 0;
      PlusFirst(StoringToll(c, data));
    }
  }

  lemma LastIsMoo(mode: bool, f: File)
    requires !IsHeader(f)
    ensures UsesMoo(mode, f) <==> mode && f == []
  {
  }

  lemma UnsentRefused(b: Status, n: FileName, r: Record, c: Status)
    requires Coherent(b) && Coherent(c) && SendMeans(b, n, r, -1, FREE, c) && WideFormatted(b, n)
    ensures c.faults == b.faults ==> RefusesResults(b, n)
    ensures forall m :: Contents(c.disk, m) == Contents(b.disk, m)
    ensures !IsHeader(Contents(b.disk, n)) ==> c.disk.mooMode == b.disk.mooMode
    ensures b.faults <= c.faults
  {
    hide Readable, Homogeneous, IsHeader, PutFile, Records, Adds, Entered, LandsAs, Suits, PutKeepsFormat, UsesMoo;
  }

  // With real keys and packet numbers left a delivery keeps the format.
  lemma TameDelivery(mode: bool, f: File, r: Record, puts: nat)
    requires TameFile(f, puts + 1) && r[CONTEST] == RC5_72 && r[0] < 0x100
    ensures PutKeepsFormat(mode, f, r, false) && TameFile(PutFile(mode, f, r, false).file, puts)
  {
    hide MooPut, StockPut, Readable, MooCount, MooRead, MooImage;
    RealKeyIsNoMagic(r);
    RoomLeft(f);
    MooReadBack(r);
    PutFileReadable(mode, f, r, false);
    PutCount(mode, f, r, false);
    RealKeysAdded(Readable(f), LandsAs(mode, f, r), Readable(PutFile(mode, f, r, false).file));
  }

  lemma SendTame(b: Status, n: FileName, r: Record, rc: int, toll: Toll, c: Status, puts: nat)
    requires Coherent(b) && Coherent(c) && SendMeans(b, n, r, rc, toll, c) && WideTame(b, n, puts + 1)
    requires r[CONTEST] == RC5_72 && r[0] < 0x100 && (b.mem || Keepable(r))
    ensures toll.fits && WideTame(c, n, puts)
  {
    hide TameFile, PutFile, Entered, UsesMoo, Readable, Records, Adds, PutKeepsFormat, LandsAs, Suits;
    var mode, f := Sniff(b.disk, n).mooMode, Contents(b.disk, n);
    TameDelivery(mode, f, r, puts);
    if !Apart(b, n) {
      TamePut(mode, f, r, false, puts);
    }
    FileSteps.TameFewer(f, puts + 1, puts);
    BesideTame(b, n, c, puts + 1, puts);
  }

  lemma TookTameWide(a: Status, n: FileName, rc: int, data: Record, toll: Toll, exiting: bool, b: Status, more: nat,
                     puts: nat)
    requires Coherent(a) && Coherent(b) && Took(a, n, rc, data, toll, exiting, b)
    requires WideTame(a, n, more) && Tame(b, puts) && puts <= more
    ensures WideTame(b, n, puts)
  {
    hide TameFile, Homogeneous, Accounted, Sought, IsHeader, AllHome, Excused, Balanced, ForgottenAt, Readable;
    if Apart(a, n) {
      FileSteps.TameFewer(Contents(a.disk, n), more, puts);
    } else {
      assert FileOf(b, Place(a, n)) == Contents(b.disk, n);
    }
  }

  lemma TookKeys(a: Status, n: FileName, rc: int, data: Record, toll: Toll, exiting: bool, b: Status)
    requires Coherent(a) && Coherent(b) && Took(a, n, rc, data, toll, exiting, b) && RealKeys(a.view[OUT])
    ensures RealKeys(b.view[OUT]) && (rc >= 0 ==> data[0] < 0x100)
  {
    hide Readable, Homogeneous, Balanced, IsHeader, AllHome, Excused, ForgottenAt, Elsewhere, LeftOver, Depth, Reaches,
         FrontFree;
    var held, rest := a.view[OUT], b.view[OUT];
    if a.mem || !a.clash {
      SoughtShrinks(a.mem, held, OUT, rc, data, rest, Quiet(a, b) && !exiting, RC5_72);
    }
  }

  lemma AliasKeys(c: Status, n: FileName, puts: nat)
    requires Coherent(c) && Place(c, n) == OUT && WideTame(c, n, puts)
    ensures RealKeys(c.view[OUT])
  {
    assert TameFile(FileOf(c, OUT), puts);
  }

  // GetBufferRecord of a result.
  method TakeResult(s: BufferStore, remote: FileName, ghost puts: nat)
    returns (rc: int, data: Record, ghost toll: Toll, exiting: bool)
    requires s.Valid()
    modifies s, s.disk, s.membufftable
    ensures s.Valid() && Took(old(s.Now()), remote, rc, data, toll, exiting, s.Now())
    ensures s.nodiskbuffers || !s.prefixesClash ==> HeadTaken(old(s.Now()), OUT, rc, data, toll, s.Now())
    ensures rc >= 0 ==> Routable(data) && data[CONTEST] == RC5_72 && (s.nodiskbuffers || Keepable(data))
    ensures old(WideTame(s.Now(), remote, puts + |s.Now().view[OUT]|) && RealKeys(s.Now().view[OUT])) ==>
      && toll.fits && RealKeys(s.Now().view[OUT])
      && (rc >= 0 ==> data[0] < 0x100 && WideTame(s.Now(), remote, puts + |s.Now().view[OUT]| + 1))
  {
    hide Coherent, Took, TakenFrom, HeadTaken, WideTame, Tame, RealKeys, Keepable, Routable, Contents, BufferStore.Now,
         BufferStore.Valid, BufferStore.Held;
    ghost var a := s.Now();
    rc, data, toll, exiting := GetBufferRecord(s, RC5_72, true, puts);
    ResultTaken(a, remote, rc, data, toll, exiting, s.Now(), puts);
  }

  lemma ResultTaken(a: Status, n: FileName, rc: int, data: Record, toll: Toll, exiting: bool, b: Status, puts: nat)
    requires Coherent(a) && Coherent(b) && TakenFrom(a, RC5_72, true, rc, data, toll, exiting, b)
    requires Tame(a, puts + |a.view[OUT]|) ==> toll.fits && Tame(b, puts + |b.view[OUT]| + if rc >= 0 then 1 else 0)
    ensures Took(a, n, rc, data, toll, exiting, b)
    ensures rc >= 0 ==> Routable(data) && data[CONTEST] == RC5_72 && (a.mem || Keepable(data))
    ensures WideTame(a, n, puts + |a.view[OUT]|) && RealKeys(a.view[OUT]) ==>
      && toll.fits && RealKeys(b.view[OUT])
      && (rc >= 0 ==> data[0] < 0x100 && WideTame(b, n, puts + |b.view[OUT]| + 1))
  {
    hide Took, TakenFrom, WideTame, Tame, RealKeys, Keepable, Routable, Contents;
    TakenIsTook(a, n, rc, data, toll, exiting, b);
    TookShape(a, n, rc, data, toll, exiting, b);
    if WideTame(a, n, puts + |a.view[OUT]|) && RealKeys(a.view[OUT]) {
      WideTameIs(a, n, puts + |a.view[OUT]|);
      ResultTame(a, n, rc, data, toll, exiting, b, puts);
    }
  }

  lemma TookShape(a: Status, n: FileName, rc: int, data: Record, toll: Toll, exiting: bool, b: Status)
    requires Coherent(a) && Coherent(b) && Took(a, n, rc, data, toll, exiting, b)
    ensures rc >= 0 ==> Routable(data) && data[CONTEST] == RC5_72 && (a.mem || Keepable(data))
  {
    hide TakenFrom;
    TookWalk(a, n, rc, data, toll, exiting, b);
    TookHomes(a, n, rc, data, toll, exiting, b);
  }

  lemma ResultTame(a: Status, n: FileName, rc: int, data: Record, toll: Toll, exiting: bool, b: Status, puts: nat)
    requires Coherent(a) && Coherent(b) && Took(a, n, rc, data, toll, exiting, b)
    requires WideTame(a, n, puts + |a.view[OUT]|) && RealKeys(a.view[OUT])
    requires Tame(b, puts + |b.view[OUT]| + if rc >= 0 then 1 else 0)
    ensures RealKeys(b.view[OUT])
    ensures rc >= 0 ==> data[0] < 0x100 && WideTame(b, n, puts + |b.view[OUT]| + 1)
  {
    hide TakenFrom, TameFile, RealKeys, Readable;
    TookKeys(a, n, rc, data, toll, exiting, b);
    if rc >= 0 {
      TookSmaller(a, n, rc, data, toll, exiting, b);
      TookTameWide(a, n, rc, data, toll, exiting, b, puts + |a.view[OUT]|, puts + |b.view[OUT]| + 1);
    }
  }

  // BufferPutFileRecord of a result into the remote file.
  method SendResult(s: BufferStore, remote: FileName, r: Record, ghost puts: nat) returns (rc: int, ghost toll: Toll)
    requires s.Valid() && r[CONTEST] == RC5_72 && (s.nodiskbuffers || Keepable(r))
    modifies s.disk
    ensures s.Valid() && SendMeans(old(s.Now()), remote, r, rc, toll, s.Now())
    ensures old(WideTame(s.Now(), remote, puts + 1)) && r[0] < 0x100 ==> toll.fits && WideTame(s.Now(), remote, puts)
  {
    hide Coherent, SendMeans, RemoteGave, PutMeans, WideTame, SendToll, Keepable, Contents, BufferStore.Now,
         BufferStore.Valid, BufferStore.Held;
    ghost var b := s.Now();
    var ignored;
    rc, ignored := s.PutFileRecord(remote, r, false, true);
    ghost var c := s.Now();
    PutMeansGave(b, remote, r, true, rc, ignored, c);
    GaveSends(b, remote, r, rc, c);
    toll := if rc == 0 then SendToll(b, remote, r) else FREE;
    if WideTame(b, remote, puts + 1) && r[0] < 0x100 {
      SendTame(b, remote, r, rc, toll, c, puts);
    }
  }

  // PutBufferRecord of a result that could not be sent.
  method PutBack(s: BufferStore, remote: FileName, r: Record, ghost puts: nat) returns (rc: int, ghost toll: Toll)
    requires s.Valid() && Routable(r) && (s.nodiskbuffers || Keepable(r))
    modifies s, s.disk, s.membufftable
    ensures s.Valid() && StoreMeans(old(s.Now()), remote, r, rc, s.Now())
    ensures toll == BackToll(old(s.Now()), r, rc, StoringToll(old(s.Now()), r))
    ensures old(WideTame(s.Now(), remote, puts + 1)) && r[0] < 0x100 ==> toll.fits
  {
    hide Coherent, StoreMeans, Stored, WideTame, StoringToll, Keepable, Routable, Contents, BackToll, BufferStore.Now,
         BufferStore.Valid, BufferStore.Held;
    ghost var c := s.Now();
    rc := s.PutBufferRecord(r);
    ghost var d := s.Now();
    StoredMeans(c, remote, r, rc, d);
    toll := BackToll(c, r, rc, StoringToll(c, r));
    if WideTame(c, remote, puts + 1) && r[0] < 0x100 {
      StoreTame(c, remote, r, rc, d, puts);
      BackFits(c, remote, r, rc, d);
    }
  }

  method FlushPass(s: BufferStore, remote: FileName, ghost puts: nat)
    returns (step: FlushStep, data: Record, ghost toll: Toll)
    requires s.Valid()
    modifies s, s.disk, s.membufftable
    ensures s.Valid() && FlushMeans(old(s.Now()), remote, step, data, toll, s.Now())
    ensures HeadFate(old(s.Now()), remote, step, toll, s.Now())
    ensures PassDraws(old(s.Now()), remote, step, data, toll, s.Now())
    ensures old(WideTame(s.Now(), remote, puts + |s.Now().view[OUT]|) && RealKeys(s.Now().view[OUT])) && puts > 0 ==>
      && toll.fits
      && (step.Sent? ==>
            && RealKeys(s.Now().view[OUT])
            && WideTame(s.Now(), remote, puts + |s.Now().view[OUT]| - if Place(s.Now(), remote) == OUT then 1 else 0))
  {
    hide Coherent, Took, HeadTaken, HeadFate, PassDraws, SendMeans, FlushMeans, StoreMeans, WideTame, RealKeys,
         SendToll, StoringToll, Keepable, Routable, Contents, Plus, BackToll, Place, BufferStore.Now, BufferStore.Valid,
         BufferStore.Held;
    ghost var a := s.Now();
    ghost var tame := WideTame(a, remote, puts + |a.view[OUT]|) && RealKeys(a.view[OUT]) && puts > 0;
    var rc, exiting;
    rc, data, toll, exiting := TakeResult(s, remote, puts);
    ghost var b, t := s.Now(), toll;
    TookKinds(a, remote, rc, data, t, exiting, b);
    if rc < 0 {
      step := NothingLeft(exiting);
      TookCodes(a, remote, rc, data, t, exiting, b);
      PassNothing(a, remote, data, t, exiting, b);
      HeadNothing(a, remote, rc, data, t, exiting, b);
      NothingDraws(a, remote, data, t, exiting, b);
      return;
    }
    ghost var left := puts + |b.view[OUT]|;
    var sent;
    ghost var u;
    sent, u := SendResult(s, remote, data, left);
    ghost var c := s.Now();
    SentCodes(b, remote, data, sent, u, c);
    if sent == 0 {
      step, toll := Sent(rc), Plus(t, u);
      PlusOf(t, u);
      PassSent(a, remote, rc, data, t, exiting, b, u, c);
      HeadSent(a, remote, rc, data, t, b, u, c);
      SentDraws(a, remote, rc, data, t, exiting, b, u, c);
      if tame {
        SentTame(b, remote, data, u, c, puts, left);
      }
      return;
    }
    var back;
    ghost var w;
    back, w := PutBack(s, remote, data, if left > 0 then left - 1 else 0);
    step, toll := Unsent, Plus(t, w);
    PlusOf(t, w);
    PassUnsent(a, remote, rc, data, t, exiting, b, c, back, s.Now());
    HeadUnsent(a, remote, rc, data, t, b, c, back, s.Now());
    UnsentDraws(a, remote, rc, data, t, exiting, b, c, back, s.Now());
  }

  lemma TookKinds(a: Status, n: FileName, rc: int, data: Record, toll: Toll, exiting: bool, b: Status)
    requires Coherent(a) && Coherent(b) && Took(a, n, rc, data, toll, exiting, b)
    ensures SameKind(a, b) && Place(b, n) == Place(a, n)
    ensures toll.fits && WideFormatted(a, n) ==> WideFormatted(b, n)
    ensures rc >= 0 ==> AtHome(data, OUT)
  {
    hide Took;
    TookBeside(a, n, rc, data, toll, exiting, b);
    TookWalk(a, n, rc, data, toll, exiting, b);
  }

  lemma TookCodes(a: Status, n: FileName, rc: int, data: Record, toll: Toll, exiting: bool, b: Status)
    requires Coherent(a) && Coherent(b) && Took(a, n, rc, data, toll, exiting, b)
    ensures rc >= -1
  {
    TookBeside(a, n, rc, data, toll, exiting, b);
  }

  lemma TakenIsTook(a: Status, n: FileName, rc: int, data: Record, toll: Toll, exiting: bool, b: Status)
    requires Coherent(a) && Coherent(b) && TakenFrom(a, RC5_72, true, rc, data, toll, exiting, b)
    ensures Took(a, n, rc, data, toll, exiting, b)
  {
    hide TakenFrom;
  }

  lemma WideTameIs(a: Status, n: FileName, puts: nat)
    requires WideTame(a, n, puts)
    ensures Tame(a, puts) && TameFile(Contents(a.disk, n), puts)
  {
  }

  lemma TookSmaller(a: Status, n: FileName, rc: int, data: Record, toll: Toll, exiting: bool, b: Status)
    requires Coherent(a) && Coherent(b) && Took(a, n, rc, data, toll, exiting, b) && rc >= 0
    ensures |b.view[OUT]| < |a.view[OUT]|
  {
    hide TakenFrom;
    TookWalk(a, n, rc, data, toll, exiting, b);
  }

  lemma SentCodes(b: Status, n: FileName, r: Record, rc: int, toll: Toll, c: Status)
    requires Coherent(b) && Coherent(c) && SendMeans(b, n, r, rc, toll, c)
    ensures rc == 0 || (rc == -1 && toll == FREE)
    ensures Place(c, n) == Place(b, n)
  {
  }

  lemma PlusOf(t: Toll, u: Toll)
    ensures Plus(t, u).fits <==> t.fits && u.fits
    ensures Plus(t, FREE) == t
  {
  }

  lemma BackFits(c: Status, n: FileName, r: Record, rc: int, d: Status)
    requires Coherent(c) && Coherent(d) && StoreMeans(c, n, r, rc, d) && Routable(r)
    requires rc >= 1 ==> StoringToll(c, r).fits
    ensures BackToll(c, r, rc, StoringToll(c, r)).fits
  {
    hide StoreGains, StoringToll;
  }

  // A send into the out-buffer itself makes it longer by one again.
  lemma SentTame(b: Status, n: FileName, r: Record, u: Toll, c: Status, puts: nat, left: nat)
    requires Coherent(b) && Coherent(c) && SendMeans(b, n, r, 0, u, c) && u.fits && WideTame(b, n, left + 1)
    requires WideTame(c, n, left) && left == puts + |b.view[OUT]| && RealKeys(b.view[OUT]) && puts > 0
    ensures RealKeys(c.view[OUT])
    ensures WideTame(c, n, puts + |c.view[OUT]| - if Place(c, n) == OUT then 1 else 0)
  {
    hide TameFile, Readable, Records, Adds, PutFile, PutKeepsFormat, LandsAs, Suits, RealKeys, Entered, UsesMoo,
         IsHeader, Homogeneous;
    SentElsewhere(b, n, r, 0, u, c);
    if Place(b, n) == OUT {
      AliasKeys(c, n, left);
      WideTameLess(b, n, left + 1, left);
      SentLonger(b, n, r, u, c);
    }
  }

  lemma SentLonger(b: Status, n: FileName, r: Record, u: Toll, c: Status)
    requires Coherent(b) && Coherent(c) && SendMeans(b, n, r, 0, u, c) && u.fits && WideFormatted(b, n)
    requires Place(b, n) == OUT
    ensures |c.view[OUT]| == |b.view[OUT]| + 1
  {
    hide Readable, Records, Adds, Entered, PutKeepsFormat, LandsAs, Suits, IsHeader, PutFile, UsesMoo;
    var mode, f := Sniff(b.disk, n).mooMode, Contents(b.disk, n);
    assert f == FileOf(b, OUT) && Contents(c.disk, n) == FileOf(c, OUT);
    assert Suits(mode, f, r, false);
    PutGains(mode, f, r, false);
    AddsBag(Readable(f), LandsAs(mode, f, r), Readable(PutFile(mode, f, r, false).file));
  }

  // ---------- the loop ----------

  datatype FlushEnd = Emptied | ExitAsked | NotSent | Stalled

  // How far a flush is that started at a and has sent those results.
  ghost predicate Flushed(a: Status, n: FileName, sent: seq<Record>, toll: Toll, b: Status)
    requires Coherent(a) && Coherent(b)
  {
    var f, g := Contents(a.disk, n), Contents(b.disk, n);
    && SameKind(a, b) && Place(b, n) == Place(a, n)
    && (forall r :: r in sent ==> AtHome(r, OUT)) && (forall r :: r in toll.forgot ==> AtHome(r, OUT))
    // every record is in a buffer, in the other file, or lost
    && FlushBalanced(a, n, toll, if Apart(a, n) then sent else [], b)
    // nothing is given up but records that no buffer would take
    && (a.mem && AllHome(a.view) ==> AllHome(b.view) && (b.faults == a.faults ==> toll.dropped == []))
    && (!a.mem && toll.fits && WideFormatted(a, n) && b.faults == a.faults ==> forall r :: r in toll.dropped ==>
        !Routable(r))
    // another file keeps what it had and gains the results, codes and all
    && (Apart(a, n) && toll.fits && WideFormatted(a, n) ==>
          && Homogeneous(g) && (IsHeader(f) ==> IsHeader(g))
          && multiset(Records(g)) == multiset(Records(f)) + multiset(TerminateAll(sent)))
  }

  lemma FlushedStart(a: Status, n: FileName)
    requires Coherent(a)
    ensures Flushed(a, n, [], FREE, a)
  {
    hide Readable, Records;
    NothingAccounted(a.view);
    assert TerminateAll([]) == [];
  }

  lemma FlushBalancedNext(a: Status, n: FileName, t: Toll, h: seq<Record>, b: Status, u: Toll, k: seq<Record>,
                          c: Status)
    requires Coherent(a) && Coherent(b) && Coherent(c)
    requires FlushBalanced(a, n, t, h, b) && FlushBalanced(b, n, u, k, c)
    ensures FlushBalanced(a, n, Plus(t, u), h + k, c)
  {
    hide Accounted, WideFormatted, Coherent;
    if t.fits && u.fits && WideFormatted(a, n) {
      AccountChain(a.view, b.view, c.view, t.dropped, h, t.forgot, u.dropped, k, u.forgot);
    }
  }

  lemma RemoteGains(f: File, g: File, h: File, sent: seq<Record>, r: Record)
    requires multiset(Records(g)) == multiset(Records(f)) + multiset(TerminateAll(sent))
    requires Adds(Records(g), Terminate(r), Records(h))
    ensures multiset(Records(h)) == multiset(Records(f)) + multiset(TerminateAll(sent + [r]))
  {
    hide Records, Terminate;
    AddsBag(Records(g), Terminate(r), Records(h));
    assert TerminateAll(sent + [r]) == TerminateAll(sent) + [Terminate(r)];
  }

  lemma BalancedFormat(a: Status, n: FileName, toll: Toll, handed: seq<Record>, b: Status)
    requires Coherent(a) && Coherent(b) && FlushBalanced(a, n, toll, handed, b)
    ensures toll.fits && WideFormatted(a, n) ==> WideFormatted(b, n) && Homogeneous(Contents(b.disk, n)) && Formatted(b)
  {
  }

  lemma DroppedNext(a: Status, n: FileName, sent: seq<Record>, toll: Toll, b: Status, step: FlushStep, data: Record,
                    u: Toll, c: Status)
    requires Coherent(a) && Coherent(b) && Coherent(c)
    requires Flushed(a, n, sent, toll, b) && FlushMeans(b, n, step, data, u, c)
    ensures var t := Plus(toll, u);
      && (a.mem && AllHome(a.view) ==> AllHome(c.view) && (c.faults == a.faults ==> t.dropped == []))
      && (!a.mem && t.fits && WideFormatted(a, n) && c.faults == a.faults ==> forall r :: r in t.dropped ==>
          !Routable(r))
  {
    hide Readable, Homogeneous, IsHeader, Records, Adds, OutWalk, OutCycle, AllHome, TerminateAll, Routable, AtHome,
         Accounted;
    assert forall r :: r in Plus(toll, u).dropped ==> r in toll.dropped || r in u.dropped;
    BalancedFormat(a, n, toll, if Apart(a, n) then sent else [], b);
  }

  lemma SentNext(a: Status, n: FileName, sent: seq<Record>, toll: Toll, b: Status, step: FlushStep, data: Record,
                 u: Toll, c: Status)
    requires Coherent(a) && Coherent(b) && Coherent(c)
    requires Flushed(a, n, sent, toll, b) && FlushMeans(b, n, step, data, u, c)
    ensures forall r :: r in (if step.Sent? then sent + [data] else sent) ==> AtHome(r, OUT)
    ensures forall r :: r in Plus(toll, u).forgot ==> AtHome(r, OUT)
  {
    hide Readable, Homogeneous, IsHeader, Records, Adds, FlushBalanced, OutWalk, OutCycle, AllHome, WideFormatted,
         TerminateAll, Routable, AtHome, OthersKept;
    assert forall r :: r in sent + [data] ==> r in sent || r == data;
    assert forall r :: r in Plus(toll, u).forgot ==> r in toll.forgot || r in u.forgot;
  }

  lemma FlushedStep(a: Status, n: FileName, sent: seq<Record>, toll: Toll, b: Status, step: FlushStep, data: Record,
                    u: Toll, c: Status)
    requires Coherent(a) && Coherent(b) && Coherent(c)
    requires Flushed(a, n, sent, toll, b) && FlushMeans(b, n, step, data, u, c)
    ensures Flushed(a, n, if step.Sent? then sent + [data] else sent, Plus(toll, u), c)
  {
    hide Readable, Homogeneous, IsHeader, Records, Adds, FlushBalanced, OutWalk, OutCycle, AllHome, WideFormatted,
         TerminateAll, Routable, AtHome, Accounted, OthersKept, Matching;
    FlushBalancedNext(a, n, toll, if Apart(a, n) then sent else [], b, u, HandedTo(b, n, step, data), c);
    BalancedFormat(a, n, toll, if Apart(a, n) then sent else [], b);
    if Apart(a, n) && step.Sent? && Plus(toll, u).fits && WideFormatted(a, n) {
      RemoteGains(Contents(a.disk, n), Contents(b.disk, n), Contents(c.disk, n), sent, data);
    }
    assert sent + [] == sent;
    assert [] + HandedTo(b, n, step, data) == HandedTo(b, n, step, data);
    DroppedNext(a, n, sent, toll, b, step, data, u, c);
    SentNext(a, n, sent, toll, b, step, data, u, c);
  }

  // What one flush after the other leaves of an out-buffer on disk.
  ghost predicate Draining(a: Status, n: FileName, sent: seq<Record>, totrans: int, last: int, warnings: nat,
                           toll: Toll, b: Status)
    requires Coherent(a) && Coherent(b)
  {
    && warnings == 0
    && (sent != [] ==> last == totrans && (a.mem || totrans > 0 ==> totrans == Left(a.mem, b.view[OUT])))
    && (!a.mem && !a.clash && toll.fits && WideFormatted(a, n) && b.faults == a.faults ==>
          if totrans > 0 then LeftOver(b.view[OUT]) == LeftOver(a.view[OUT]) else b.view[OUT] == LeftOver(a.view[OUT]))
  }

  // A flush into the out-buffer itself after its first transfer.
  ghost predicate Cycling(a: Status, n: FileName, sent: seq<Record>, totrans: int, last: int, warnings: nat,
                          toll: Toll, b: Status)
    requires Coherent(a) && Coherent(b)
  {
    && warnings <= MAX_WARNINGS && (sent == [] ==> warnings == 0) && (sent != [] ==> last == totrans)
    && (a.disk.refusesRemote && sent != [] ==> totrans == 0 && |sent| == 1)
    && (sent != [] ==> a.mem || !a.clash)
    && (toll.fits && WideFormatted(a, n) ==>
          && (sent != [] && totrans > 0 ==>
                && b.view[OUT] != [] && AtHome(b.view[OUT][0], OUT)
                && totrans == Matching(b.view[OUT][1..], RC5_72) && warnings == |sent| - 1)
          && (sent != [] && totrans == 0 && b.faults == a.faults ==> |sent| == 1))
  }

  // The loop between two passes.
  ghost predicate Between(a: Status, n: FileName, sent: seq<Record>, totrans: int, last: int, warnings: nat,
                          toll: Toll, b: Status)
    requires Coherent(a) && Coherent(b)
  {
    && totrans >= 0 && (sent == [] ==> totrans == 1 && last == -1)
    && Flushed(a, n, sent, toll, b)
    && (Place(a, n) != OUT ==> Draining(a, n, sent, totrans, last, warnings, toll, b))
    && (Place(a, n) == OUT ==> Cycling(a, n, sent, totrans, last, warnings, toll, b))
    && (!a.mem && IsHeader(FileOf(a, OUT)) ==> sent == [] && IsHeader(FileOf(b, OUT)))
    && (Apart(a, n) ==> toll.forgot == [])
  }

  // What a flush has done when it ends.
  ghost predicate FlushOutcome(a: Status, n: FileName, sent: seq<Record>, toll: Toll, end: FlushEnd, b: Status)
    requires Coherent(a) && Coherent(b)
  {
    var f := Contents(a.disk, n);
    && Flushed(a, n, sent, toll, b)
    // a stack ends empty; of a file, without errors, just what its counts hide is left
    && (end.Emptied? && Place(a, n) != OUT && a.mem ==> b.view[OUT] == [])
    && (end.Emptied? && Place(a, n) != OUT && !a.mem && !a.clash && toll.fits && WideFormatted(a, n)
        && b.faults == a.faults ==>
          b.view[OUT] == LeftOver(a.view[OUT]))
    // the shrink guard never fires but when the remote file is the out-buffer
    // itself, and then exactly at the fifth transfer
    && (Place(a, n) != OUT ==> !end.Stalled?)
    && (Place(a, n) == OUT && toll.fits && WideFormatted(a, n) && b.faults == a.faults ==>
          (end.Stalled? <==> |sent| == 5) && |sent| <= 5 && (end.Emptied? ==> |sent| <= 1))
    && (Place(a, n) == OUT && a.disk.refusesRemote ==> |sent| <= 1)
    // a remote file that opens takes everything
    && (end.NotSent? && Apart(a, n) && toll.fits && WideFormatted(a, n) && b.faults == a.faults ==>
          a.disk.refusesRemote && !IsHeader(f))
    // a Moo file has no results to give
    && (!a.mem && IsHeader(FileOf(a, OUT)) ==> sent == [])
    // and no result is forgotten but one that went back into a Moo file
    && (Apart(a, n) && toll.forgot != [] ==> end.NotSent? && !a.mem && IsHeader(FileOf(b, OUT)))
  }

  lemma BetweenStart(a: Status, n: FileName)
    requires Coherent(a)
    ensures Between(a, n, [], 1, -1, 0, FREE, a)
  {
    hide Flushed, IsHeader, Readable;
    FlushedStart(a, n);
  }

  lemma DrainingStep(a: Status, n: FileName, sent: seq<Record>, totrans: int, last: int, warnings: nat, toll: Toll,
                     b: Status, left: nat, data: Record, u: Toll, c: Status)
    requires Coherent(a) && Coherent(b) && Coherent(c) && Between(a, n, sent, totrans, last, warnings, toll, b)
    requires FlushMeans(b, n, Sent(left), data, u, c) && totrans > 0 && Place(a, n) != OUT
    ensures sent != [] ==> last > left
    ensures Draining(a, n, sent + [data], left, left, warnings, Plus(toll, u), c)
  {
    hide Readable, Homogeneous, IsHeader, Records, Adds, OutCycle, AllHome, TerminateAll, AtHome, LeftOver, Matching,
         Cycling, Accounted;
    BalancedFormat(a, n, toll, if Apart(a, n) then sent else [], b);
  }

  lemma CyclingStep(a: Status, n: FileName, sent: seq<Record>, totrans: int, last: int, warnings: nat, toll: Toll,
                    b: Status, left: nat, data: Record, u: Toll, c: Status)
    requires Coherent(a) && Coherent(b) && Coherent(c) && Between(a, n, sent, totrans, last, warnings, toll, b)
    requires FlushMeans(b, n, Sent(left), data, u, c) && totrans > 0 && Place(a, n) == OUT
    ensures var low := sent != [] && last <= left;
      if low && warnings >= MAX_WARNINGS then (Plus(toll, u).fits && WideFormatted(a, n) ==> |sent| == 4)
          && !a.disk.refusesRemote
      else Cycling(a, n, sent + [data], left, left, if low then warnings + 1 else warnings, Plus(toll, u), c)
  {
    hide Readable, Homogeneous, IsHeader, Records, Adds, OutWalk, AllHome, TerminateAll, AtHome, LeftOver, Matching,
         Draining, Accounted;
    BalancedFormat(a, n, toll, if Apart(a, n) then sent else [], b);
    CycleFacts(b, n, left, data, u, c);
  }

  lemma CycleFacts(b: Status, n: FileName, left: nat, data: Record, u: Toll, c: Status)
    requires Coherent(b) && Coherent(c) && FlushMeans(b, n, Sent(left), data, u, c)
    ensures AtHome(data, OUT) && SameKind(b, c) && (b.mem || !b.clash)
  {
  }

  // One transfer further.
  lemma BetweenStep(a: Status, n: FileName, sent: seq<Record>, totrans: int, last: int, warnings: nat, toll: Toll,
                    b: Status, left: nat, data: Record, u: Toll, c: Status)
    requires Coherent(a) && Coherent(b) && Coherent(c) && Between(a, n, sent, totrans, last, warnings, toll, b)
    requires FlushMeans(b, n, Sent(left), data, u, c) && totrans > 0
    ensures var low := sent != [] && last <= left;
      if low && warnings >= MAX_WARNINGS then FlushOutcome(a, n, sent + [data], Plus(toll, u), Stalled, c)
      else Between(a, n, sent + [data], left, left, if low then warnings + 1 else warnings, Plus(toll, u), c)
  {
    hide Readable, Homogeneous, IsHeader, Records, Adds, OutWalk, OutCycle, AllHome, TerminateAll, AtHome, LeftOver,
         Matching, Flushed, Draining, Cycling, FlushBalanced, WideFormatted;
    FlushedStep(a, n, sent, toll, b, Sent(left), data, u, c);
    FlushedPlace(a, n, sent, toll, b);
    if Place(a, n) == OUT {
      CyclingStep(a, n, sent, totrans, last, warnings, toll, b, left, data, u, c);
    } else {
      DrainingStep(a, n, sent, totrans, last, warnings, toll, b, left, data, u, c);
      DrainingQuiet(a, n, sent, totrans, last, warnings, toll, b);
    }
  }

  lemma DrainingQuiet(a: Status, n: FileName, sent: seq<Record>, totrans: int, last: int, warnings: nat, toll: Toll,
                      b: Status)
    requires Coherent(a) && Coherent(b) && Between(a, n, sent, totrans, last, warnings, toll, b) && Place(a, n) != OUT
    ensures warnings == 0
  {
  }

  lemma FlushedPlace(a: Status, n: FileName, sent: seq<Record>, toll: Toll, b: Status)
    requires Coherent(a) && Coherent(b) && Flushed(a, n, sent, toll, b)
    ensures Place(b, n) == Place(a, n) && SameKind(a, b)
  {
  }

  // The loop ends between two passes.
  lemma BetweenEnds(a: Status, n: FileName, sent: seq<Record>, totrans: int, last: int, warnings: nat, toll: Toll,
                    end: FlushEnd, b: Status)
    requires Coherent(a) && Coherent(b) && Between(a, n, sent, totrans, last, warnings, toll, b)
    requires (end.ExitAsked? && totrans > 0) || (end.Emptied? && totrans == 0)
    ensures FlushOutcome(a, n, sent, toll, end, b)
  {
    hide Readable, Homogeneous, IsHeader, Flushed, LeftOver, Matching, AtHome, WideFormatted;
  }

  // Or with a pass that sends nothing.
  lemma PassEnds(a: Status, n: FileName, sent: seq<Record>, totrans: int, last: int, warnings: nat, toll: Toll,
                 b: Status, step: FlushStep, data: Record, u: Toll, c: Status)
    requires Coherent(a) && Coherent(b) && Coherent(c) && Between(a, n, sent, totrans, last, warnings, toll, b)
    requires FlushMeans(b, n, step, data, u, c) && totrans > 0 && !step.Sent?
    ensures var end := if step.Unsent? then NotSent else if step.exiting then ExitAsked else Emptied;
      FlushOutcome(a, n, sent, Plus(toll, u), end, c)
  {
    hide Readable, Homogeneous, IsHeader, Records, Adds, OutWalk, OutCycle, AllHome, TerminateAll, AtHome, LeftOver,
         Matching, Flushed, Draining, Cycling, FlushBalanced, WideFormatted;
    FlushedStep(a, n, sent, toll, b, step, data, u, c);
    FlushedPlace(a, n, sent, toll, b);
    RemoteStill(a, n, sent, toll, b);
    if Place(a, n) == OUT {
      CyclingEnds(a, n, sent, totrans, last, warnings, toll, b, step, data, u, c);
    } else {
      DrainingEnds(a, n, sent, totrans, last, warnings, toll, b, step, data, u, c);
    }
  }

  lemma RemoteStill(a: Status, n: FileName, sent: seq<Record>, toll: Toll, b: Status)
    requires Coherent(a) && Coherent(b) && Flushed(a, n, sent, toll, b)
    ensures Apart(a, n) && toll.fits && WideFormatted(a, n) ==>
      Homogeneous(Contents(b.disk, n)) && (IsHeader(Contents(a.disk, n)) ==> IsHeader(Contents(b.disk, n)))
  {
  }

  lemma DrainingEnds(a: Status, n: FileName, sent: seq<Record>, totrans: int, last: int, warnings: nat, toll: Toll,
                     b: Status, step: FlushStep, data: Record, u: Toll, c: Status)
    requires Coherent(a) && Coherent(b) && Coherent(c) && Between(a, n, sent, totrans, last, warnings, toll, b)
    requires FlushMeans(b, n, step, data, u, c) && totrans > 0 && Place(a, n) != OUT
    ensures step == NothingLeft(false) && a.mem ==> c.view[OUT] == []
    ensures step == NothingLeft(false) && !a.mem && !a.clash && toll.fits && u.fits && WideFormatted(a, n) ==>
      c.faults == a.faults ==> c.view[OUT] == LeftOver(a.view[OUT])
  {
    hide Readable, Homogeneous, IsHeader, Records, Adds, OutCycle, AllHome, TerminateAll, AtHome, LeftOver, Matching,
         Cycling, Accounted;
    if step == NothingLeft(false) {
      BalancedFormat(a, n, toll, if Apart(a, n) then sent else [], b);
    }
  }

  lemma CyclingEnds(a: Status, n: FileName, sent: seq<Record>, totrans: int, last: int, warnings: nat, toll: Toll,
                    b: Status, step: FlushStep, data: Record, u: Toll, c: Status)
    requires Coherent(a) && Coherent(b) && Coherent(c) && Between(a, n, sent, totrans, last, warnings, toll, b)
    requires FlushMeans(b, n, step, data, u, c) && totrans > 0 && Place(a, n) == OUT && !step.Sent?
    ensures a.disk.refusesRemote ==> sent == []
    ensures toll.fits && u.fits && WideFormatted(a, n) && c.faults == a.faults ==>
      |sent| <= 4 && (step == NothingLeft(false) ==> sent == [])
  {
    hide Readable, Homogeneous, IsHeader, Records, Adds, OutWalk, AllHome, TerminateAll, AtHome, LeftOver, Matching,
         Draining, Accounted;
    BalancedFormat(a, n, toll, if Apart(a, n) then sent else [], b);
  }

  // ---------- a flush into the out-buffer itself ----------

  // A build that opens stock files finds its own out-buffer to send to, with a
  // result at the head and more of its contest behind.
  ghost predicate Circles(a: Status, n: FileName)
    requires Coherent(a)
  {
    && Place(a, n) == OUT && !a.clash && !a.disk.refusesRemote && WideFormatted(a, n)
    && a.view[OUT] != [] && AtHome(a.view[OUT][0], OUT) && Matching(a.view[OUT][1..], RC5_72) > 0
  }

  // Every transfer leaves it as it was.
  ghost predicate Circling(a: Status, n: FileName, totrans: int, toll: Toll, b: Status)
    requires Coherent(a) && Coherent(b)
  {
    Circles(a, n) && toll.fits && b.faults == a.faults ==> b.view[OUT] == a.view[OUT] && totrans > 0
  }

  // So only the guard ends it, at the fifth transfer.
  ghost predicate StallsAtFive(a: Status, n: FileName, sent: seq<Record>, toll: Toll, end: FlushEnd, b: Status)
    requires Coherent(a)
  {
    Circles(a, n) && toll.fits && b.faults == a.faults && !end.ExitAsked? ==> end.Stalled? && |sent| == 5
  }

  lemma CircleFacts(b: Status, n: FileName, step: FlushStep, data: Record, u: Toll, c: Status)
    requires Coherent(b) && Coherent(c) && FlushMeans(b, n, step, data, u, c) && Place(b, n) == OUT
    requires u.fits && WideFormatted(b, n) && c.faults == b.faults && !b.clash && !b.disk.refusesRemote
    requires b.view[OUT] != [] && AtHome(b.view[OUT][0], OUT) && Matching(b.view[OUT][1..], RC5_72) > 0
    ensures !step.Unsent? && step != NothingLeft(false)
    ensures step.Sent? ==> step.left > 0 && c.view[OUT] == b.view[OUT]
  {
    hide Readable, Homogeneous, IsHeader, FlushBalanced, OutWalk, AllHome, Records, Adds, OthersKept, AtHome, Matching;
    FormattedOf(b, n);
  }

  // What was so at the start is so when the loop comes round.
  lemma CirclesAgain(a: Status, n: FileName, sent: seq<Record>, totrans: int, toll: Toll, b: Status, step: FlushStep,
                     data: Record, u: Toll, c: Status)
    requires Coherent(a) && Coherent(b) && Coherent(c) && Flushed(a, n, sent, toll, b)
    requires Circling(a, n, totrans, toll, b) && FlushMeans(b, n, step, data, u, c)
    requires Circles(a, n) && Plus(toll, u).fits && c.faults == a.faults
    ensures b.view[OUT] == a.view[OUT] && !step.Unsent? && step != NothingLeft(false)
    ensures step.Sent? ==> step.left > 0 && c.view[OUT] == b.view[OUT]
  {
    hide Readable, Homogeneous, IsHeader, Records, AllHome, TerminateAll, AtHome, FlushMeans, WideFormatted, Matching,
         Accounted;
    PassFacts(b, n, step, data, u, c);
    FlushedPlace(a, n, sent, toll, b);
    CircleFacts(b, n, step, data, u, c);
  }

  lemma CirclingStart(a: Status, n: FileName)
    requires Coherent(a)
    ensures Circling(a, n, 1, FREE, a)
  {
  }

  lemma CirclingStep(a: Status, n: FileName, sent: seq<Record>, totrans: int, toll: Toll, b: Status, left: nat,
                     data: Record, u: Toll, c: Status)
    requires Coherent(a) && Coherent(b) && Coherent(c) && Flushed(a, n, sent, toll, b)
    requires Circling(a, n, totrans, toll, b) && FlushMeans(b, n, Sent(left), data, u, c)
    ensures Circling(a, n, left, Plus(toll, u), c)
  {
    hide Flushed, FlushMeans, Circles;
    if Circles(a, n) && Plus(toll, u).fits && c.faults == a.faults {
      CirclesAgain(a, n, sent, totrans, toll, b, Sent(left), data, u, c);
    }
  }

  lemma CirclingStop(a: Status, n: FileName, sent: seq<Record>, totrans: int, toll: Toll, b: Status, step: FlushStep,
                     data: Record, u: Toll, end: FlushEnd, c: Status)
    requires Coherent(a) && Coherent(b) && Coherent(c) && Flushed(a, n, sent, toll, b)
    requires Circling(a, n, totrans, toll, b) && FlushMeans(b, n, step, data, u, c) && !step.Sent?
    requires end == if step.Unsent? then NotSent else if step.exiting then ExitAsked else Emptied
    ensures StallsAtFive(a, n, sent, Plus(toll, u), end, c)
  {
    hide Flushed, FlushMeans, Circles, Circling;
    if Circles(a, n) && Plus(toll, u).fits && c.faults == a.faults {
      CirclesAgain(a, n, sent, totrans, toll, b, step, data, u, c);
    }
  }

  // Between two passes it ends only because of a request, or at the guard.
  lemma CirclingBetween(a: Status, n: FileName, sent: seq<Record>, totrans: int, toll: Toll, end: FlushEnd, b: Status)
    requires Coherent(a) && Coherent(b) && FlushOutcome(a, n, sent, toll, end, b)
    requires end.ExitAsked? || end.Stalled? || (end.Emptied? && totrans == 0 && Circling(a, n, totrans, toll, b))
    ensures StallsAtFive(a, n, sent, toll, end, b)
  {
    hide Flushed, WideFormatted, IsHeader, LeftOver, Matching, AtHome;
  }

  // ---------- what was sent, and where the rest went ----------

  // A flush into another file than the out-buffer, without errors.
  ghost predicate Smooth(a: Status, n: FileName, toll: Toll, b: Status) {
    Place(a, n) != OUT && (a.mem || !a.clash) && toll.fits && WideFormatted(a, n) && b.faults == a.faults
  }

  // The results sent are those taken out of the out-buffer, in order, and the
  // strays among what was taken are where they belong.
  ghost predicate Drawn(a: Status, n: FileName, sent: seq<Record>, saved: seq<Record>, toll: Toll, b: Status)
    requires Coherent(a) && Coherent(b)
  {
    var held, left := a.view[OUT], |b.view[OUT]|;
    && Spread(a, OUT, Place(a, n), left, saved, toll, b) && LeftIs(a.mem, held, b.view[OUT])
    && sent == AtHomeIn(TakenOut(a.mem, held, left), OUT)
  }

  ghost predicate DrawnSoFar(a: Status, n: FileName, sent: seq<Record>, toll: Toll, b: Status)
    requires Coherent(a) && Coherent(b)
  {
    Smooth(a, n, toll, b) ==> exists saved :: Drawn(a, n, sent, saved, toll, b)
  }

  // When the flush has ended: all results taken were sent, but for one that could
  // not be and is back in the out-buffer.
  ghost predicate SentWhatWasTaken(a: Status, n: FileName, sent: seq<Record>, saved: seq<Record>, toll: Toll,
                                   end: FlushEnd, b: Status)
    requires Coherent(a) && Coherent(b)
  {
    var held, left := a.view[OUT], if end.NotSent? then |b.view[OUT]| - 1 else |b.view[OUT]|;
    && 0 <= left <= |held| && Spread(a, OUT, Place(a, n), left, saved, toll, b)
    && var results := AtHomeIn(TakenOut(a.mem, held, left), OUT);
       if end.NotSent? then
         && results != [] && sent == results[..|results| - 1]
         && (Apart(a, n) ==>
               Gains(a.mem, Rest(a.mem, held, left), [results[|results| - 1]], toll.forgot, b.view[OUT]))
       else sent == results && b.view[OUT] == Rest(a.mem, held, left)
  }

  ghost predicate FlushMoves(a: Status, n: FileName, sent: seq<Record>, toll: Toll, end: FlushEnd, b: Status)
    requires Coherent(a) && Coherent(b)
  {
    Smooth(a, n, toll, b) ==> exists saved :: SentWhatWasTaken(a, n, sent, saved, toll, end, b)
  }

  lemma DrawnStart(a: Status, n: FileName)
    requires Coherent(a)
    ensures DrawnSoFar(a, n, [], FREE, a)
  {
    hide Gains, WideFormatted;
    assert TakenOut(a.mem, a.view[OUT], |a.view[OUT]|) == [];
    forall j | 0 <= j < BUFFERS
      ensures Reached(a, j, [], [], a)
    {
      ReachedNothing(a, j, a);
    }
    assert Drawn(a, n, [], [], FREE, a);
  }

  // What is smooth to the end was so before.
  lemma SmoothBefore(a: Status, n: FileName, sent: seq<Record>, toll: Toll, b: Status, step: FlushStep, data: Record,
                     u: Toll, c: Status)
    requires Coherent(a) && Coherent(b) && Coherent(c) && Flushed(a, n, sent, toll, b)
    requires FlushMeans(b, n, step, data, u, c) && Smooth(a, n, Plus(toll, u), c)
    ensures Smooth(a, n, toll, b) && Smooth(b, n, u, c) && b.mem == a.mem && Place(b, n) == Place(a, n)
    ensures toll.fits && Formatted(a) && Formatted(b)
  {
    hide Readable, Homogeneous, IsHeader, Records, Adds, OutWalk, OutCycle, AllHome, TerminateAll, AtHome, LeftOver,
         Accounted, OthersKept;
    BalancedFormat(a, n, toll, if Apart(a, n) then sent else [], b);
  }

  lemma DrawnStep(a: Status, n: FileName, sent: seq<Record>, toll: Toll, b: Status, left: nat, data: Record, u: Toll,
                  c: Status)
    requires Coherent(a) && Coherent(b) && Coherent(c) && Flushed(a, n, sent, toll, b)
    requires DrawnSoFar(a, n, sent, toll, b)
    requires FlushMeans(b, n, Sent(left), data, u, c) && PassDraws(b, n, Sent(left), data, u, c)
    ensures DrawnSoFar(a, n, sent + [data], Plus(toll, u), c)
  {
    hide Flushed, FlushMeans, Smooth, Spread, TakenOut, AtHomeIn, Rest, LeftIs, WideFormatted, Gains, Formatted;
    if Smooth(a, n, Plus(toll, u), c) {
      SmoothBefore(a, n, sent, toll, b, Sent(left), data, u, c);
      SmoothMeans(b, n, u, c);
      var s1 :| Drawn(a, n, sent, s1, toll, b);
      var s2 :| Draws(b, n, Sent(left), data, s2, u, c);
      SpreadJoin(a, OUT, Place(a, n), s1, toll, b, |c.view[OUT]|, s2, u, c);
      RestOn(a.mem, a.view[OUT], b.view[OUT], c.view[OUT]);
      HomesConcat(TakenOut(a.mem, a.view[OUT], |b.view[OUT]|), TakenOut(a.mem, b.view[OUT], |c.view[OUT]|), OUT);
      assert Drawn(a, n, sent + [data], s1 + s2, Plus(toll, u), c);
    }
  }

  lemma SmoothMeans(a: Status, n: FileName, toll: Toll, b: Status)
    requires Smooth(a, n, toll, b)
    ensures Place(a, n) != OUT && (a.mem || !a.clash) && toll.fits && WideFormatted(a, n) && b.faults == a.faults
  {
  }

  lemma RestOn(mem: bool, held: seq<Record>, mid: seq<Record>, rest: seq<Record>)
    requires LeftIs(mem, held, mid) && |rest| <= |mid| && rest == Rest(mem, mid, |rest|)
    ensures LeftIs(mem, held, rest)
    ensures TakenOut(mem, held, |rest|) == TakenOut(mem, held, |mid|) + TakenOut(mem, mid, |rest|)
  {
    TakenOn(mem, held, mid, |rest|);
    LeftOn(mem, held, mid, rest);
  }

  lemma RestOfRest(mem: bool, held: seq<Record>, mid: seq<Record>, left: nat)
    requires LeftIs(mem, held, mid) && left <= |mid|
    ensures left <= |held| && Rest(mem, mid, left) == Rest(mem, held, left)
    ensures TakenOut(mem, held, left) == TakenOut(mem, held, |mid|) + TakenOut(mem, mid, left)
  {
    TakenOn(mem, held, mid, left);
  }

  // The flush ends with a pass that sends nothing.
  lemma MovesStop(a: Status, n: FileName, sent: seq<Record>, toll: Toll, b: Status, step: FlushStep, data: Record,
                  u: Toll, end: FlushEnd, c: Status)
    requires Coherent(a) && Coherent(b) && Coherent(c) && Flushed(a, n, sent, toll, b)
    requires DrawnSoFar(a, n, sent, toll, b)
    requires FlushMeans(b, n, step, data, u, c) && PassDraws(b, n, step, data, u, c) && !step.Sent?
    requires (Apart(a, n) ==> toll.forgot == []) && (end.NotSent? <==> step.Unsent?)
    ensures FlushMoves(a, n, sent, Plus(toll, u), end, c)
  {
    hide Flushed, FlushMeans, Smooth, Draws, Drawn, SentWhatWasTaken, WideFormatted, Formatted;
    if Smooth(a, n, Plus(toll, u), c) {
      SmoothBefore(a, n, sent, toll, b, step, data, u, c);
      SmoothMeans(b, n, u, c);
      var s1 :| Drawn(a, n, sent, s1, toll, b);
      var s2 :| Draws(b, n, step, data, s2, u, c);
      TakenInAll(a, n, sent, s1, toll, b, step, data, s2, u, end, c);
    }
  }

  // The results taken before and with this pass.
  lemma ResultsTaken(mem: bool, held: seq<Record>, mid: seq<Record>, left: nat, sent: seq<Record>, more: seq<Record>)
    requires LeftIs(mem, held, mid) && left <= |mid|
    requires sent == AtHomeIn(TakenOut(mem, held, |mid|), OUT) && more == AtHomeIn(TakenOut(mem, mid, left), OUT)
    ensures left <= |held| && Rest(mem, mid, left) == Rest(mem, held, left)
    ensures AtHomeIn(TakenOut(mem, held, left), OUT) == sent + more
  {
    hide TakenOut, AtHomeIn, Rest, LeftIs;
    RestOfRest(mem, held, mid, left);
    HomesConcat(TakenOut(mem, held, |mid|), TakenOut(mem, mid, left), OUT);
  }

  lemma TakenInAll(a: Status, n: FileName, sent: seq<Record>, s1: seq<Record>, toll: Toll, b: Status, step: FlushStep,
                   data: Record, s2: seq<Record>, u: Toll, end: FlushEnd, c: Status)
    requires Coherent(a) && Coherent(b) && Coherent(c) && b.mem == a.mem && Place(b, n) == Place(a, n)
    requires Drawn(a, n, sent, s1, toll, b) && Draws(b, n, step, data, s2, u, c) && !step.Sent?
    requires (Apart(a, n) ==> toll.forgot == []) && (end.NotSent? <==> step.Unsent?) && Formatted(b)
    ensures SentWhatWasTaken(a, n, sent, s1 + s2, Plus(toll, u), end, c)
  {
    hide Spread, TakenOut, AtHomeIn, Rest, LeftIs, Gains, Formatted, Plus, Place, AtHome, Routable;
    var left := LeftOf(step, c.view[OUT]);
    SpreadJoin(a, OUT, Place(a, n), s1, toll, b, left, s2, u, c);
    var more := if step.NothingLeft? then [] else [data];
    ResultsTaken(a.mem, a.view[OUT], b.view[OUT], left, sent, more);
    if step.Unsent? {
      OneAtEnd(sent, data);
      PlusForgot(toll, u);
    } else {
      NothingMore(sent);
    }
  }

  lemma PlusForgot(t: Toll, u: Toll)
    ensures t.forgot == [] ==> Plus(t, u).forgot == u.forgot
  {
  }

  lemma OneAtEnd(s: seq<Record>, r: Record)
    ensures (s + [r])[..|s|] == s && (s + [r])[|s|] == r && |s + [r]| == |s| + 1
  {
  }

  // Or between two.
  lemma MovesBetween(a: Status, n: FileName, sent: seq<Record>, toll: Toll, end: FlushEnd, b: Status)
    requires Coherent(a) && Coherent(b) && DrawnSoFar(a, n, sent, toll, b) && !end.NotSent?
    ensures FlushMoves(a, n, sent, toll, end, b)
  {
    hide Smooth, Spread, TakenOut, AtHomeIn, LeftIs, Gains;
    if Smooth(a, n, toll, b) {
      var saved :| Drawn(a, n, sent, saved, toll, b);
      RestIsLeft(a.mem, a.view[OUT], b.view[OUT]);
      assert SentWhatWasTaken(a, n, sent, saved, toll, end, b);
    }
  }

  // ---------- what becomes of results ----------

  // The loop between two passes, as far as the result at the head at the start is
  // concerned.
  ghost predicate HeadGone(a: Status, n: FileName, sent: seq<Record>, toll: Toll, b: Status)
    requires Coherent(a)
  {
    && (sent == [] ==> b == a && toll == FREE)
    && (sent != [] && Apart(a, n) && a.disk.refusesRemote ==> IsHeader(Contents(b.disk, n)))
    && (sent != [] && ResultAhead(a, n) && b.faults == a.faults ==> !RefusesResults(a, n))
  }

  // When a result is at the head of the out-buffer, whether the flush fails and
  // whether it forgets a result can be told before it starts.
  ghost predicate FlushFate(a: Status, n: FileName, sent: seq<Record>, toll: Toll, end: FlushEnd, b: Status)
    requires Coherent(a)
  {
    ResultAhead(a, n) && toll.fits && b.faults == a.faults && (end.ExitAsked? ==> sent != []) ==>
      && (end.NotSent? <==> RefusesResults(a, n))
      && (toll.forgot != [] <==> RefusesResults(a, n) && Forgetful(a))
      && (RefusesResults(a, n) ==> sent == [])
  }

  // What a Moo out-buffer holds becomes work again.
  ghost predicate BackToWork(a: Status, n: FileName, toll: Toll, end: FlushEnd, b: Status)
    requires Coherent(a) && Coherent(b)
  {
    !a.mem && !a.clash && IsHeader(FileOf(a, OUT)) && Place(a, n) != OUT && WideFormatted(a, n) && toll.fits
      && b.faults == a.faults && end.Emptied? ==>
      && b.view[OUT] == [] && toll.dropped == [] && toll.forgot == []
      && multiset(b.view[HERE]) == multiset(a.view[HERE]) + multiset(a.view[OUT])
      && (forall i :: 0 <= i < BUFFERS && i != HERE && i != OUT ==> b.view[i] == a.view[i])
  }

  lemma HeadGoneStart(a: Status, n: FileName)
    requires Coherent(a)
    ensures HeadGone(a, n, [], FREE, a)
  {
  }

  lemma PassFacts(b: Status, n: FileName, step: FlushStep, data: Record, u: Toll, c: Status)
    requires Coherent(b) && Coherent(c) && FlushMeans(b, n, step, data, u, c)
    ensures SameKind(b, c) && Place(c, n) == Place(b, n)
    ensures step.Sent? && Apart(b, n) && b.disk.refusesRemote ==> IsHeader(Contents(c.disk, n))
    ensures step.Unsent? && Apart(b, n) && Homogeneous(Contents(b.disk, n)) && c.faults == b.faults ==>
      b.disk.refusesRemote && !IsHeader(Contents(b.disk, n))
    ensures Apart(b, n) && u.forgot != [] ==> step.Unsent?
    ensures step.NothingLeft? ==> OthersKept(b, OUT, u, c) && OutWalkOf(b, n, step, u, c)
  {
    hide Readable, Homogeneous, IsHeader, FlushBalanced, OutWalk, OutCycle, AllHome, Records, Adds, OthersKept, AtHome;
  }

  ghost predicate OutWalkOf(a: Status, n: FileName, step: FlushStep, toll: Toll, d: Status)
    requires Coherent(a) && Coherent(d)
  {
    && (Place(a, n) != OUT && !step.Unsent? ==> OutWalk(a, step, toll.fits, d))
    && FlushBalanced(a, n, toll, [], d)
  }

  lemma HeadGoneStep(a: Status, n: FileName, sent: seq<Record>, toll: Toll, b: Status, left: nat, data: Record,
                     u: Toll, c: Status)
    requires Coherent(a) && Coherent(b) && Coherent(c) && HeadGone(a, n, sent, toll, b)
    requires Flushed(a, n, sent, toll, b) && FlushMeans(b, n, Sent(left), data, u, c)
    requires HeadFate(b, n, Sent(left), u, c)
    ensures HeadGone(a, n, sent + [data], Plus(toll, u), c)
  {
    hide FlushMeans, Homogeneous, Readable, IsHeader, Records, FlushBalanced, RefusesResults, Forgetful, WideFormatted,
         AtHome, TerminateAll, AllHome;
    PassFacts(b, n, Sent(left), data, u, c);
  }

  lemma FateStops(a: Status, n: FileName, sent: seq<Record>, toll: Toll, b: Status, step: FlushStep, data: Record,
                  u: Toll, end: FlushEnd, c: Status)
    requires Coherent(a) && Coherent(b) && Coherent(c) && HeadGone(a, n, sent, toll, b)
    requires Flushed(a, n, sent, toll, b) && FlushMeans(b, n, step, data, u, c) && HeadFate(b, n, step, u, c)
    requires !step.Sent? && (Apart(a, n) ==> toll.forgot == [])
    requires end == if step.Unsent? then NotSent else if step.exiting then ExitAsked else Emptied
    ensures FlushFate(a, n, sent, Plus(toll, u), end, c)
  {
    hide FlushMeans, Homogeneous, Readable, IsHeader, Records, RefusesResults, Forgetful, AtHome, TerminateAll, AllHome,
         Flushed, FlushBalanced, WideFormatted;
    PassFacts(b, n, step, data, u, c);
    FlushedPlace(a, n, sent, toll, b);
    RemoteStill(a, n, sent, toll, b);
    PlusFirst(u);
    assert Plus(toll, u).forgot == toll.forgot + u.forgot;
  }

  lemma FateBetween(a: Status, n: FileName, sent: seq<Record>, toll: Toll, end: FlushEnd, b: Status)
    requires Coherent(a) && Coherent(b) && HeadGone(a, n, sent, toll, b) && (Apart(a, n) ==> toll.forgot == [])
    requires end.ExitAsked? || ((end.Emptied? || end.Stalled?) && sent != [])
    ensures FlushFate(a, n, sent, toll, end, b)
  {
    hide ResultAhead, RefusesResults, Forgetful;
    if ResultAhead(a, n) {
      AheadApart(a, n);
    }
  }

  lemma AheadApart(a: Status, n: FileName)
    requires Coherent(a) && ResultAhead(a, n)
    ensures Apart(a, n)
  {
  }

  lemma WorkLeavesNothing(a: Status)
    requires Coherent(a) && !a.mem && IsHeader(FileOf(a, OUT))
    ensures LeftOver(a.view[OUT]) == []
    ensures forall r :: r in a.view[OUT] ==> Routable(r) && AtHome(r, HERE)
  {
    hide Readable, LeftOver;
    forall r | r in a.view[OUT]
      ensures Routable(r) && AtHome(r, HERE) && r[CONTEST] == RC5_72
    {
      ReadableShape(FileOf(a, OUT), r);
      HomeOfHandled(r);
    }
    LeftOverExactly(a.view[OUT]);
  }

  // The one pass that a flush of a Moo out-buffer makes.
  lemma MooPass(a: Status, n: FileName, step: FlushStep, data: Record, u: Toll, c: Status)
    requires Coherent(a) && Coherent(c) && FlushMeans(a, n, step, data, u, c) && step.NothingLeft?
    ensures BackToWork(a, n, u, if step.exiting then ExitAsked else Emptied, c)
  {
    hide FlushMeans, Homogeneous, Readable, IsHeader, AtHome, LeftOver, Accounted, SomeAtHome, WideFormatted;
    PassFacts(a, n, step, data, u, c);
    if !a.mem && !a.clash && IsHeader(FileOf(a, OUT)) && Place(a, n) != OUT && WideFormatted(a, n) && u.fits
      && c.faults == a.faults && !step.exiting {
      WorkLeavesNothing(a);
      FormattedOf(a, n);
      MooForgets(a, n, step, data, u, c);
      forall i | 0 <= i < BUFFERS && i != HERE && i != OUT
        ensures c.view[i] == a.view[i]
      {
        OnlyHere(a.view[OUT], i);
      }
      assert u.dropped == [] by {
        if u.dropped != [] {
          assert u.dropped[0] in a.view[OUT];
          MooDrops(a, n, step, data, u, c);
        }
      }
      GainedFromOther(a.view, c.view, HERE, OUT);
    }
  }

  lemma OnlyHere(records: seq<Record>, i: nat)
    requires i != HERE && forall r :: r in records ==> AtHome(r, HERE)
    ensures !SomeAtHome(records, i)
  {
  }

  lemma MooDrops(a: Status, n: FileName, step: FlushStep, data: Record, u: Toll, c: Status)
    requires Coherent(a) && Coherent(c) && FlushMeans(a, n, step, data, u, c)
    requires !a.mem && u.fits && WideFormatted(a, n) && c.faults == a.faults
    ensures forall r :: r in u.dropped ==> !Routable(r)
  {
    hide Readable, Homogeneous, IsHeader, FlushBalanced, OutWalk, OutCycle, AllHome, Records, Adds, OthersKept, AtHome;
  }

  lemma MooForgets(a: Status, n: FileName, step: FlushStep, data: Record, u: Toll, c: Status)
    requires Coherent(a) && Coherent(c) && FlushMeans(a, n, step, data, u, c) && step.NothingLeft?
    ensures u.forgot == []
  {
    hide Readable, Homogeneous, IsHeader, FlushBalanced, OutWalk, OutCycle, AllHome, Records, Adds, OthersKept, AtHome;
  }

  // Real keys and packet numbers for every pass to come.
  ghost predicate Flushable(a: Status, n: FileName)
    requires Coherent(a)
  {
    WideTame(a, n, |a.view[OUT]| + 6) && RealKeys(a.view[OUT])
  }

  // The packet numbers left for a flush after that many transfers.
  function PutsLeft(alias: bool, pkts: nat): nat {
    if !alias || pkts > 4 then 1 else 5 - pkts
  }

  lemma FlushableMeans(a: Status, n: FileName)
    requires Coherent(a) && Flushable(a, n)
    ensures WideFormatted(a, n) && RealKeys(a.view[OUT])
    ensures WideTame(a, n, PutsLeft(Place(a, n) == OUT, 0) + |a.view[OUT]|)
  {
    WideTameLess(a, n, |a.view[OUT]| + 6, PutsLeft(Place(a, n) == OUT, 0) + |a.view[OUT]|);
  }

  lemma BetweenBound(a: Status, n: FileName, sent: seq<Record>, totrans: int, last: int, warnings: nat, toll: Toll,
                     b: Status)
    requires Coherent(a) && Coherent(b) && Between(a, n, sent, totrans, last, warnings, toll, b)
    ensures Place(b, n) == Place(a, n) && totrans >= 0 && (sent == [] ==> totrans == 1 && last == -1)
    ensures sent != [] ==> last == totrans
    ensures warnings <= MAX_WARNINGS
    ensures Place(a, n) == OUT && toll.fits && WideFormatted(a, n) && totrans > 0 ==> |sent| <= 4
  {
    hide Readable, Homogeneous, IsHeader, LeftOver, Matching, AtHome, WideFormatted;
  }

  // BufferFlushFile for the contest of this build.  `sent` lists the results
  // that reached the remote file.
  method FlushFile(s: BufferStore, remote: FileName)
    returns (rc: int, end: FlushEnd, ghost sent: seq<Record>, ghost toll: Toll)
    requires s.Valid()
    modifies s, s.disk, s.membufftable
    ensures s.Valid() && FlushOutcome(old(s.Now()), remote, sent, toll, end, s.Now())
    ensures FlushFate(old(s.Now()), remote, sent, toll, end, s.Now())
    ensures BackToWork(old(s.Now()), remote, toll, end, s.Now())
    ensures FlushMoves(old(s.Now()), remote, sent, toll, end, s.Now())
    ensures StallsAtFive(old(s.Now()), remote, sent, toll, end, s.Now())
    ensures rc == if end.NotSent? then -(|sent| + 1) else if end.Stalled? then |sent| - 1 else |sent|
    ensures old(Flushable(s.Now(), remote)) ==> toll.fits
  {
    hide Coherent, Between, HeadFate, HeadGone, FlushFate, BackToWork, FlushMoves, DrawnSoFar, Circling, StallsAtFive,
         PassDraws, FlushOutcome, FlushMeans, WideTame, RealKeys, Flushable, Contents, Place, Plus, PutsLeft,
         WideFormatted, BufferStore.Now, BufferStore.Valid, BufferStore.Held;
    ghost var a, tame := s.Now(), Flushable(s.Now(), remote);
    ghost var alias := Place(a, remote) == OUT;
    sent, toll, end := [], FREE, Emptied;
    BetweenStart(a, remote);
    HeadGoneStart(a, remote);
    DrawnStart(a, remote);
    CirclingStart(a, remote);
    if tame {
      FlushableMeans(a, remote);
    }
    var last: int := -1;
    var totrans: int := 1;
    var pkts, warnings := 0, 0;
    while totrans > 0
      invariant s.Valid() && pkts == |sent| && end == Emptied
      invariant Between(a, remote, sent, totrans, last, warnings, toll, s.Now())
      invariant DrawnSoFar(a, remote, sent, toll, s.Now()) && Circling(a, remote, totrans, toll, s.Now())
      invariant HeadGone(a, remote, sent, toll, s.Now()) && (pkts == 0 ==> totrans == 1)
      invariant totrans >= 0 && warnings <= MAX_WARNINGS && (pkts > 0 ==> last == totrans)
      invariant tame ==> toll.fits && RealKeys(s.Now().view[OUT])
      invariant tame && totrans > 0 ==> WideTame(s.Now(), remote, PutsLeft(alias, pkts) + |s.Now().view[OUT]|)
      decreases totrans > 0, if pkts == 0 then 1 else 0, MAX_WARNINGS - warnings, totrans
    {
      ghost var b, t, u := s.Now(), toll, FREE;
      if * {
        end := ExitAsked;
        EndsBetween(a, remote, sent, totrans, last, warnings, toll, end, b);
        break;
      }
      PutsLeftNext(alias, pkts);
      var step, data;
      step, data, u := FlushPass(s, remote, PutsLeft(alias, pkts));
      ghost var c := s.Now();
      toll := Plus(t, u);
      PlusOf(t, u);
      if !step.Sent? {
        end := if step.Unsent? then NotSent else if step.exiting then ExitAsked else Emptied;
        EndsWithPass(a, remote, sent, totrans, last, warnings, t, b, step, data, u, end, c);
        break;
      }
      GoesOn(a, remote, sent, totrans, last, warnings, t, b, step.left, data, u, c);
      sent, totrans := sent + [data], step.left;
      if pkts > 0 && last <= totrans {
        if warnings < MAX_WARNINGS {
          warnings := warnings + 1;
        } else {
          end := Stalled;
          break;
        }
      }
      last, pkts := totrans, pkts + 1;
    }
    if end.Emptied? && totrans == 0 {
      EndsBetween(a, remote, sent, totrans, last, warnings, toll, end, s.Now());
    }
    rc := if end.NotSent? then -(pkts + 1) else pkts;
  }

  lemma BetweenFate(a: Status, n: FileName, sent: seq<Record>, totrans: int, last: int, warnings: nat, toll: Toll,
                    b: Status)
    requires Coherent(a) && Coherent(b) && Between(a, n, sent, totrans, last, warnings, toll, b)
    ensures Flushed(a, n, sent, toll, b) && (Apart(a, n) ==> toll.forgot == [])
    ensures !a.mem && IsHeader(FileOf(a, OUT)) ==> sent == []
  {
    hide Draining, Cycling, Flushed, IsHeader;
  }

  // The loop goes on after a pass that sends, or stalls.
  lemma GoesOn(a: Status, n: FileName, sent: seq<Record>, totrans: int, last: int, warnings: nat, toll: Toll,
               b: Status, left: nat, data: Record, u: Toll, c: Status)
    requires Coherent(a) && Coherent(b) && Coherent(c) && Between(a, n, sent, totrans, last, warnings, toll, b)
    requires HeadGone(a, n, sent, toll, b) && DrawnSoFar(a, n, sent, toll, b) && totrans > 0
    requires FlushMeans(b, n, Sent(left), data, u, c) && HeadFate(b, n, Sent(left), u, c)
    requires PassDraws(b, n, Sent(left), data, u, c) && Circling(a, n, totrans, toll, b)
    ensures Place(c, n) == Place(b, n) == Place(a, n)
    ensures Place(a, n) == OUT && toll.fits && WideFormatted(a, n) ==> |sent| <= 4
    ensures var low, more := sent != [] && last <= left, sent + [data];
      if low && warnings >= MAX_WARNINGS then
        && FlushOutcome(a, n, more, Plus(toll, u), Stalled, c) && FlushFate(a, n, more, Plus(toll, u), Stalled, c)
        && BackToWork(a, n, Plus(toll, u), Stalled, c) && FlushMoves(a, n, more, Plus(toll, u), Stalled, c)
        && StallsAtFive(a, n, more, Plus(toll, u), Stalled, c)
      else
        var now := if low then warnings + 1 else warnings;
        && Between(a, n, more, left, left, now, Plus(toll, u), c) && HeadGone(a, n, more, Plus(toll, u), c)
        && DrawnSoFar(a, n, more, Plus(toll, u), c) && Circling(a, n, left, Plus(toll, u), c)
        && now <= MAX_WARNINGS
        && (Place(a, n) == OUT && Plus(toll, u).fits && WideFormatted(a, n) && left > 0 ==> |more| <= 4)
  {
    hide Between, HeadGone, HeadFate, FlushMeans, FlushOutcome, FlushFate, BackToWork, IsHeader, Plus, Place,
         WideFormatted, FlushMoves, DrawnSoFar, PassDraws, Circling, StallsAtFive;
    BetweenFate(a, n, sent, totrans, last, warnings, toll, b);
    HeadGoneStep(a, n, sent, toll, b, left, data, u, c);
    DrawnStep(a, n, sent, toll, b, left, data, u, c);
    CirclingStep(a, n, sent, totrans, toll, b, left, data, u, c);
    BetweenStep(a, n, sent, totrans, last, warnings, toll, b, left, data, u, c);
    StepPlace(b, n, Sent(left), data, u, c);
    BetweenBound(a, n, sent, totrans, last, warnings, toll, b);
    if sent != [] && last <= left && warnings >= MAX_WARNINGS {
      StalledFate(a, n, sent + [data], toll, u, Stalled, c);
      WorkOnce(a, n, sent + [data], Plus(toll, u), Stalled, c);
      MovesBetween(a, n, sent + [data], Plus(toll, u), Stalled, c);
      CirclingBetween(a, n, sent + [data], left, Plus(toll, u), Stalled, c);
    } else {
      var now := if sent != [] && last <= left then warnings + 1 else warnings;
      BetweenBound(a, n, sent + [data], left, left, now, Plus(toll, u), c);
    }
  }

  // The loop ends between two passes, or with one that sends nothing.
  lemma EndsBetween(a: Status, n: FileName, sent: seq<Record>, totrans: int, last: int, warnings: nat, toll: Toll,
                    end: FlushEnd, b: Status)
    requires Coherent(a) && Coherent(b) && Between(a, n, sent, totrans, last, warnings, toll, b)
    requires HeadGone(a, n, sent, toll, b) && DrawnSoFar(a, n, sent, toll, b) && Circling(a, n, totrans, toll, b)
    requires (end.ExitAsked? && totrans > 0) || (end.Emptied? && totrans == 0 && sent != [])
    ensures FlushOutcome(a, n, sent, toll, end, b) && FlushFate(a, n, sent, toll, end, b)
    ensures BackToWork(a, n, toll, end, b) && FlushMoves(a, n, sent, toll, end, b)
    ensures StallsAtFive(a, n, sent, toll, end, b)
  {
    hide Between, HeadGone, FlushOutcome, FlushFate, BackToWork, IsHeader, FlushMoves, DrawnSoFar, Circling,
         StallsAtFive;
    MovesBetween(a, n, sent, toll, end, b);
    BetweenEnds(a, n, sent, totrans, last, warnings, toll, end, b);
    CirclingBetween(a, n, sent, totrans, toll, end, b);
    BetweenFate(a, n, sent, totrans, last, warnings, toll, b);
    FateBetween(a, n, sent, toll, end, b);
    WorkOnce(a, n, sent, toll, end, b);
  }

  lemma EndsWithPass(a: Status, n: FileName, sent: seq<Record>, totrans: int, last: int, warnings: nat, toll: Toll,
                     b: Status, step: FlushStep, data: Record, u: Toll, end: FlushEnd, c: Status)
    requires Coherent(a) && Coherent(b) && Coherent(c) && Between(a, n, sent, totrans, last, warnings, toll, b)
    requires FlushMeans(b, n, step, data, u, c) && HeadFate(b, n, step, u, c) && totrans > 0 && !step.Sent?
    requires HeadGone(a, n, sent, toll, b) && DrawnSoFar(a, n, sent, toll, b) && PassDraws(b, n, step, data, u, c)
    requires Circling(a, n, totrans, toll, b)
    requires end == if step.Unsent? then NotSent else if step.exiting then ExitAsked else Emptied
    ensures FlushOutcome(a, n, sent, Plus(toll, u), end, c) && FlushFate(a, n, sent, Plus(toll, u), end, c)
    ensures BackToWork(a, n, Plus(toll, u), end, c) && FlushMoves(a, n, sent, Plus(toll, u), end, c)
    ensures StallsAtFive(a, n, sent, Plus(toll, u), end, c)
  {
    hide Between, HeadGone, HeadFate, FlushMeans, FlushOutcome, FlushFate, BackToWork, IsHeader, Plus, FlushMoves,
         DrawnSoFar, PassDraws, Circling, StallsAtFive;
    PassEnds(a, n, sent, totrans, last, warnings, toll, b, step, data, u, c);
    BetweenFate(a, n, sent, totrans, last, warnings, toll, b);
    FateStops(a, n, sent, toll, b, step, data, u, end, c);
    WorkStops(a, n, sent, toll, b, step, data, u, end, c);
    MovesStop(a, n, sent, toll, b, step, data, u, end, c);
    CirclingStop(a, n, sent, totrans, toll, b, step, data, u, end, c);
  }

  // A flush that stalls goes into the out-buffer itself.
  lemma StalledFate(a: Status, n: FileName, sent: seq<Record>, toll: Toll, u: Toll, end: FlushEnd, c: Status)
    requires Coherent(a) && Coherent(c) && FlushOutcome(a, n, sent, Plus(toll, u), end, c) && end.Stalled?
    ensures FlushFate(a, n, sent, Plus(toll, u), end, c)
  {
    hide Flushed, RefusesResults, Forgetful, IsHeader;
    if ResultAhead(a, n) {
      AheadApart(a, n);
    }
  }

  // Something was sent, or the flush did not end by itself: so much for a Moo
  // out-buffer.
  lemma WorkOnce(a: Status, n: FileName, sent: seq<Record>, toll: Toll, end: FlushEnd, b: Status)
    requires Coherent(a) && Coherent(b) && (a.mem || !IsHeader(FileOf(a, OUT)) || !end.Emptied?)
    ensures BackToWork(a, n, toll, end, b)
  {
    hide IsHeader;
  }

  lemma WorkStops(a: Status, n: FileName, sent: seq<Record>, toll: Toll, b: Status, step: FlushStep, data: Record,
                  u: Toll, end: FlushEnd, c: Status)
    requires Coherent(a) && Coherent(b) && Coherent(c) && HeadGone(a, n, sent, toll, b)
    requires FlushMeans(b, n, step, data, u, c) && !step.Sent? && (!a.mem && IsHeader(FileOf(a, OUT)) ==> sent == [])
    requires end == if step.Unsent? then NotSent else if step.exiting then ExitAsked else Emptied
    ensures BackToWork(a, n, Plus(toll, u), end, c)
  {
    hide FlushMeans, IsHeader, ResultAhead, RefusesResults;
    if !a.mem && IsHeader(FileOf(a, OUT)) && end.Emptied? {
      PlusFirst(u);
      MooPass(a, n, step, data, u, c);
    }
  }

  lemma PutsLeftNext(alias: bool, pkts: nat)
    ensures PutsLeft(alias, pkts) > 0
    ensures pkts < 4 ==> PutsLeft(alias, pkts) - (if alias then 1 else 0) == PutsLeft(alias, pkts + 1)
    ensures !alias ==> PutsLeft(alias, pkts) == PutsLeft(alias, pkts + 1)
  {
  }

  lemma StepPlace(b: Status, n: FileName, step: FlushStep, data: Record, u: Toll, c: Status)
    requires Coherent(b) && Coherent(c) && FlushMeans(b, n, step, data, u, c)
    ensures Place(c, n) == Place(b, n)
  {
  }

  // ---------- what that means ----------

  // Without errors the flush of another file leaves the out-buffer empty exactly
  // if it is in memory or all its records have one contest.
  lemma EndsEmptyExactly(a: Status, n: FileName, sent: seq<Record>, toll: Toll, b: Status)
    requires Coherent(a) && Coherent(b) && FlushOutcome(a, n, sent, toll, Emptied, b)
    requires Place(a, n) != OUT && (a.mem || !a.clash) && toll.fits && WideFormatted(a, n) && b.faults == a.faults
    ensures b.view[OUT] == [] <==> a.mem || OneContest(a.view[OUT])
  {
    hide Readable, Homogeneous, IsHeader, Flushed, LeftOver;
    LeftOverExactly(a.view[OUT]);
  }

  // Of files only the in-buffer gains from a flush, and exactly the work that was
  // taken out of the out-buffer.
  lemma OnlyWorkStrays(a: Status, n: FileName, sent: seq<Record>, toll: Toll, end: FlushEnd, b: Status, i: nat)
    requires Coherent(a) && Coherent(b) && FlushOutcome(a, n, sent, toll, end, b)
    requires FlushMoves(a, n, sent, toll, end, b)
    requires Smooth(a, n, toll, b) && !a.mem && i < BUFFERS && i != OUT && i != Place(a, n)
    ensures var left := if end.NotSent? then |b.view[OUT]| - 1 else |b.view[OUT]|;
      if i == HERE then
        multiset(b.view[HERE]) ==
        multiset(a.view[HERE]) + multiset(AtHomeIn(TakenOut(a.mem, a.view[OUT], left), HERE))
      else b.view[i] == a.view[i]
  {
    hide Readable, Homogeneous, IsHeader, LeftOver, TakenOut, AtHomeIn, Strays, Parted, Spread, FlushBalanced, AtHome,
         Rest, Records, AllHome, TerminateAll;
    SmoothMeans(a, n, toll, b);
    var saved :| SentWhatWasTaken(a, n, sent, saved, toll, end, b);
    var left := if end.NotSent? then |b.view[OUT]| - 1 else |b.view[OUT]|;
    var taken := TakenOut(a.mem, a.view[OUT], left);
    FlushDrops(a, n, sent, toll, end, b);
    SpreadTo(a, Place(a, n), left, saved, toll, b, i);
    FlushLoses(a, n, sent, toll, end, b, i);
    if i == HERE {
      GainsPlain(a.view[HERE], AtHomeIn(taken, HERE), b.view[HERE]);
    } else {
      TakenWithin(a.mem, a.view[OUT], left);
      NotFiled(FileOf(a, OUT), taken, i);
    }
  }

  lemma GainsPlain(before: seq<Record>, came: seq<Record>, after: seq<Record>)
    requires Gains(false, before, came, [], after)
    ensures multiset(after) == multiset(before) + multiset(came)
  {
    ForcedNone();
    var none: seq<Record> := [];
    assert multiset(none) == multiset{};
    assert multiset(after) == multiset(after) + multiset(none);
  }

  lemma FlushDrops(a: Status, n: FileName, sent: seq<Record>, toll: Toll, end: FlushEnd, b: Status)
    requires Coherent(a) && Coherent(b) && FlushOutcome(a, n, sent, toll, end, b) && Smooth(a, n, toll, b) && !a.mem
    ensures forall r :: r in toll.dropped ==> !Routable(r)
  {
    hide Readable, Homogeneous, IsHeader, LeftOver, FlushBalanced, Records, AllHome, TerminateAll;
  }

  lemma FlushLoses(a: Status, n: FileName, sent: seq<Record>, toll: Toll, end: FlushEnd, b: Status, i: nat)
    requires Coherent(a) && Coherent(b) && FlushOutcome(a, n, sent, toll, end, b) && i != OUT
    ensures AtHomeIn(toll.forgot, i) == []
  {
    hide Readable, Homogeneous, IsHeader, LeftOver, FlushBalanced, Records, AllHome, TerminateAll, AtHome;
    NoneAt(toll.forgot, i);
  }

  // Files hold records of no other home than those of this build's contest.
  lemma {:induction false} NotFiled(f: File, taken: seq<Record>, i: nat)
    requires i != HERE && i != OUT && forall r :: r in taken ==> r in Readable(f)
    ensures AtHomeIn(taken, i) == []
  {
    if taken == [] {
    } else {
      var init, last := taken[..|taken| - 1], taken[|taken| - 1];
      assert last in taken && forall r :: r in init ==> r in taken;
      NotFiled(f, init, i);
      ReadableShape(f, last);
    }
  }

  // What strayed to buffer i is there.
  lemma SpreadTo(a: Status, p: nat, left: nat, saved: seq<Record>, toll: Toll, b: Status, i: nat)
    requires Coherent(a) && Coherent(b) && Spread(a, OUT, p, left, saved, toll, b) && toll.fits && Formatted(a)
    requires i < BUFFERS && i != OUT && i != p && forall r :: r in toll.dropped ==> !Routable(r)
    ensures Gains(a.mem, a.view[i], AtHomeIn(TakenOut(a.mem, a.view[OUT], left), i), AtHomeIn(toll.forgot, i),
                  b.view[i])
  {
    hide Gains, TakenOut, AtHomeIn, Strays, Parted, Formatted;
    var taken := TakenOut(a.mem, a.view[OUT], left);
    PartedHome(Strays(taken, OUT), saved, toll.dropped, i);
    StraysHome(taken, OUT, i);
    assert Reached(a, i, saved, toll.forgot, b);
  }

  // A result that could not be sent is forgotten on its way back exactly if the
  // out-buffer, where it was the last record, is to be a Moo file.
  lemma ForgottenOnReturn(c: Status, r: Record)
    requires AtHome(r, OUT) && Keepable(r)
    ensures StoringToll(c, r).forgot
      == (if !c.mem && UsesMoo(Sniff(c.disk, LocalOf(OUT)).mooMode, FileOf(c, OUT)) then [r] else [])
  {
    hide UsesMoo;
    if !c.mem {
      KeepableLands(Sniff(c.disk, LocalOf(OUT)).mooMode, FileOf(c, OUT), r);
    }
  }

  // A client that has seen a Moo file, with one result in its stock out-buffer
  // and a stock remote file with a record in it.
  function OneResult(result: Record, work: Record): (a: Status)
    ensures |a.view| == BUFFERS
  {
    Status(false, false, seq(BUFFERS, _ => [])[OUT := [result]],
           Disk(map[LocalOf(OUT) := Switched(result), Named("remote") := Switched(work)], true, true), 0, 0)
  }

  // Any flush of it, if no error happens and no exit is asked for, forgets the
  // result.
  lemma AResultIsForgotten(result: Record, work: Record, sent: seq<Record>, toll: Toll, end: FlushEnd, b: Status)
    requires Keepable(result) && result[0] < 0x100 && AtHome(result, OUT) && Keepable(work) && work[0] < 0x100
    ensures var a, n := OneResult(result, work), Named("remote");
      && Coherent(a) && Flushable(a, n)
      && (FlushFate(a, n, sent, toll, end, b) && toll.fits && b.faults == a.faults && !end.ExitAsked? ==>
            toll.forgot != [])
  {
    hide Readable, Switched, TameFile, Keepable, AtHome, GetFile, IsHeader;
    var a, n := OneResult(result, work), Named("remote");
    OneStockRecord(result, 7);
    OneStockRecord(work, 7);
    TameNothing(7);
    forall j | 0 <= j < BUFFERS
      ensures FileOf(a, j) == (if j == OUT then Switched(result) else []) && TameFile(FileOf(a, j), 7)
    {
      if j != OUT {
        LocalsDiffer(j, OUT);
      }
    }
    assert RealKeys(a.view[OUT]);
    FileSteps.TameFewer(Switched(work), 7, 0);
    FileSteps.TameFewer(Switched(result), 7, 0);
    FileSteps.TameFewer([], 7, 0);
    LastIsMoo(true, Switched(work));
  }

  // Whatever went wrong, the records of the buffers and those sent are the ones
  // there were, but for those a full stack or an error made impossible to keep.
  lemma FlushConserves(a: Status, n: FileName, sent: seq<Record>, toll: Toll, end: FlushEnd, b: Status)
    requires Coherent(a) && Coherent(b) && FlushOutcome(a, n, sent, toll, end, b) && Apart(a, n)
    requires toll.fits && WideFormatted(a, n)
    ensures Accounted(a.view, b.view, toll.dropped, sent, toll.forgot)
    ensures !end.NotSent? || b.mem ==> toll.forgot == []
    ensures a.mem && AllHome(a.view) && b.faults == a.faults ==> toll.dropped == []
    // no record of a known contest and result is dropped
    ensures !a.mem && b.faults == a.faults ==> forall r :: r in toll.dropped ==> r[37] >= 7 || r[20] > 2
  {
    hide Readable, Homogeneous, IsHeader, Accounted, AllHome, LeftOver;
  }
}
