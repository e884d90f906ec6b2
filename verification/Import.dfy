/**
 Importing a file of records (buffbase.cpp, BufferImportFileRecords): every
 record goes to the buffer named by its own contest and result, and the file is
 truncated at the end.  A single pass may also be one on the client's own
 in-buffer; it is then a pass of AliasedImport.
 */
module Import {
  import opened Moo521
  import opened WorkRecords
  import opened BufferFiles
  import opened BufferDisk
  import opened BufferRuns
  import opened MemBuffer
  import opened Routing
  import opened FileSteps
  import opened BufferStore
  import opened CrossSave
  import opened Transfers
  import opened AliasedImport

  datatype ImportStep = Drained | NotShrinking | Imported | PutBack | Stuck

  // The record that is in neither place after a step.
  function LostBy(step: ImportStep, data: Record): seq<Record> {
    if step.NotShrinking? || step.Stuck? then [data] else []
  }

  // Records of the source as a reader gets them.
  function Source(a: Status, n: FileName): seq<Record> {
    Readable(Contents(a.disk, n))
  }

  // The source is another file; or no file buffer takes records; or it is one of
  // the client's own, which are read only in Moo format, where all is work for
  // the in-buffer, and is not that or is a stock file.
  predicate Importable(a: Status, n: FileName) {
    Apart(a, n) || a.clash || (a.disk.refusesRemote && (Place(a, n) != HERE || !IsHeader(Contents(a.disk, n))))
  }

  // ---------- one pass ----------

  // Where the records of the source go: to other buffers.
  ghost predicate PassMoves(a: Status, n: FileName, step: ImportStep, data: Record, c: Status)
    requires Coherent(a) && Coherent(c)
  {
    && (!step.Imported? ==> forall i :: 0 <= i < BUFFERS && i != Place(a, n) ==> c.view[i] == a.view[i])
    && (step.Imported? ==>
          && Routable(data) && (a.mem || !a.clash)
          && (forall i :: 0 <= i < BUFFERS && i != Place(a, n) && i != HomeOf(data) ==> c.view[i] == a.view[i])
          && (a.mem ==> c.view[HomeOf(data)] == a.view[HomeOf(data)] + [data]))
    && (step.Drained? ==> Source(c, n) == Source(a, n))
    && (!step.Drained? ==>
          && data in Source(a, n) && (Routable(data) ==> Keepable(data))
          && (IsHeader(Contents(a.disk, n)) ==> Keepable(data) && data[RESULTCODE] == RESULT_WORKING))
    && (step.NotShrinking? || (step.Imported? && !AtHome(data, Place(a, n))) ==>
          && Source(a, n) == [data] + Source(c, n)
          && (IsHeader(Contents(a.disk, n)) <==> IsHeader(Contents(c.disk, n)))
          && (Homogeneous(Contents(a.disk, n)) ==> Homogeneous(Contents(c.disk, n))))
    && (step.Drained? && Homogeneous(Contents(a.disk, n)) ==> Homogeneous(Contents(c.disk, n)))
  }

  // Why the loop goes on or ends.
  ghost predicate PassReasons(a: Status, n: FileName, last: nat, step: ImportStep, data: Record, remaining: nat,
                              c: Status)
    requires Coherent(a) && Coherent(c)
  {
    var f := Contents(a.disk, n);
    && (step.NotShrinking? ==> 0 < last <= remaining)
    && (step.Imported? ==> !(0 < last <= remaining))
    && (a.disk.refusesRemote && !IsHeader(f) ==> step.Drained? && Contents(c.disk, n) == f)
    && ((step.NotShrinking? || (step.Imported? && !AtHome(data, Place(a, n)))) && c.faults == a.faults ==>
          remaining == Matching(Source(c, n), data[CONTEST]))
    && (step.Drained? && Homogeneous(f) && c.faults == a.faults ==>
          (Source(a, n) == [] && Contents(c.disk, n) == []) || (a.disk.refusesRemote && !IsHeader(f)))
    && (step.Stuck? && Homogeneous(f) ==> c.faults > a.faults)
    && ((step.PutBack? || step.Stuck?) && WideFormatted(a, n) && c.faults == a.faults && Routable(data) ==>
          if a.mem then |a.view[HomeOf(data)]| >= COUNT_MAX else a.clash)
  }

  // Results are forgotten only on the way into a Moo file.
  ghost predicate PassForgets(a: Status, n: FileName, step: ImportStep, data: Record, toll: Toll, c: Status) {
    && (toll.forgot == [] || toll.forgot == [data])
    && (IsHeader(Contents(a.disk, n)) || (Keepable(data) && data[RESULTCODE] == RESULT_WORKING) ==> toll.forgot == [])
    && (step.Imported? && toll.forgot != [] ==> !a.mem && IsHeader(FileOf(c, OUT)))
    && (step.PutBack? && toll.forgot != [] && toll.fits ==> IsHeader(Contents(c.disk, n)))
    && (!step.Imported? && !step.PutBack? ==> toll.forgot == [])
    && (!a.mem && Place(a, n) != OUT && IsHeader(FileOf(a, OUT)) ==> IsHeader(FileOf(c, OUT)))
  }

  ghost predicate PassMeans(a: Status, n: FileName, last: nat, step: ImportStep, data: Record, remaining: nat,
                            toll: Toll, c: Status)
    requires Coherent(a) && Coherent(c)
  {
    && SameKind(a, c) && Place(c, n) == Place(a, n)
    && PassMoves(a, n, step, data, c) && PassReasons(a, n, last, step, data, remaining, c)
    && PassForgets(a, n, step, data, toll, c)
    && toll.dropped == LostBy(step, data) && (step.Drained? ==> toll == FREE)
    && WideBalanced(a, n, toll, [], c)
  }

  lemma PassEnded(a: Status, n: FileName, last: nat, rc: int, data: Record, remaining: nat, b: Status)
    requires Coherent(a) && Coherent(b) && RemoteTook(a, n, rc, data, remaining, b)
    requires rc != 0 || 0 < last <= remaining
    ensures var step := if rc == 0 then NotShrinking else Drained;
      PassMeans(a, n, last, step, data, remaining, Toll(LostBy(step, data), [], true), b)
  {
    hide Readable, Homogeneous, Matching, IsHeader, HomeOf, WideBalanced, MooCount, Keepable;
    EmptyIsHomogeneous();
    EmptyNoHeader();
    if rc == 0 {
      assert data in [data] + Source(b, n);
      GiveUpBalanced(a, n, data, b);
    }
    OutStays(a, n, b);
  }

  lemma EmptyNoHeader()
    ensures !IsHeader([])
  {
  }

  // Nothing but file n changed, so the out-buffer has its format still.
  lemma OutStays(a: Status, n: FileName, b: Status)
    requires Coherent(a) && Coherent(b) && Beside(a, n, b)
    ensures Place(a, n) != OUT ==> a.mem || FileOf(b, OUT) == FileOf(a, OUT)
  {
    if !a.mem && LocalOf(OUT) == n {
      PlaceOf(a, n, OUT);
    }
  }

  function StepOf(saving: Saving): ImportStep {
    match saving
    case Kept(_) => Imported
    case Returned => PutBack
    case Lost => Stuck
  }

  lemma SavedMoves(a: Status, n: FileName, data: Record, remaining: nat, b: Status, remote: bool, saving: Saving,
                   toll: Toll, c: Status)
    requires Coherent(a) && Coherent(b) && Coherent(c)
    requires RemoteTook(a, n, 0, data, remaining, b) && SaveMeans(b, n, data, remote, saving, toll, c)
    ensures PassMoves(a, n, StepOf(saving), data, c)
    ensures saving.Kept? && !AtHome(data, Place(a, n)) ==> Contents(c.disk, n) == Contents(b.disk, n)
  {
    hide Readable, Homogeneous, Matching, IsHeader, WideBalanced, MooCount, Keepable, PutFile, Entered, Entering,
         FrontFree, WideFormatted;
    assert data in [data] + Source(b, n);
  }

  lemma SavedReasons(a: Status, n: FileName, last: nat, data: Record, remaining: nat, b: Status, saving: Saving,
                     toll: Toll, c: Status)
    requires Coherent(a) && Coherent(b) && Coherent(c) && !(0 < last <= remaining)
    requires RemoteTook(a, n, 0, data, remaining, b) && SaveMeans(b, n, data, false, saving, toll, c)
    ensures PassReasons(a, n, last, StepOf(saving), data, remaining, c)
  {
    hide Readable, Homogeneous, Matching, IsHeader, MooCount, Keepable, PutFile, Entered, Entering, FrontFree,
         StoreGains, WideFormatted, Wide, Accounted;
    SavedMoves(a, n, data, remaining, b, false, saving, toll, c);
    StaysFormatted(a, n, b);
    if saving.Kept? {
      KeptQuiet(b, n, data, saving.count, c);
    }
  }

  lemma KeptQuiet(b: Status, n: FileName, r: Record, rc: nat, c: Status)
    requires Coherent(b) && Coherent(c) && StoreMeans(b, n, r, rc, c)
    ensures c.faults == b.faults && Routable(r)
  {
  }

  lemma StaysFormatted(a: Status, n: FileName, b: Status)
    requires Coherent(a) && Coherent(b) && SameKind(a, b)
    requires (exists handed :: WideBalanced(a, n, FREE, handed, b))
    ensures WideFormatted(a, n) ==> WideFormatted(b, n) && Formatted(b)
  {
  }

  lemma SavedForgets(a: Status, n: FileName, data: Record, remaining: nat, b: Status, remote: bool, saving: Saving,
                     toll: Toll, c: Status)
    requires Coherent(a) && Coherent(b) && Coherent(c)
    requires RemoteTook(a, n, 0, data, remaining, b) && SaveMeans(b, n, data, remote, saving, toll, c)
    ensures PassForgets(a, n, StepOf(saving), data, toll, c)
  {
    hide Readable, Homogeneous, Matching, IsHeader, WideBalanced, MooCount, PutFile, Entered, Entering, FrontFree,
         WideFormatted, Suits, Forgets, Forgetting;
    OutStays(a, n, b);
    if saving.Kept? {
      StoringForgets(b, data);
      if Keepable(data) {
        HomeOfHandled(data);
      }
    } else {
      OutStays(b, n, c);
    }
  }

  lemma StoringForgets(a: Status, r: Record)
    requires Routable(r)
    ensures StoringToll(a, r).forgot == Forgetting(a, HomeOf(r), r)
    ensures StoringToll(a, r).forgot == [] || StoringToll(a, r).forgot == [r]
  {
    hide Forgetting;
  }

  lemma PassSaved(a: Status, n: FileName, last: nat, data: Record, remaining: nat, b: Status, saving: Saving,
                  toll: Toll, c: Status)
    requires Coherent(a) && Coherent(b) && Coherent(c) && !(0 < last <= remaining)
    requires RemoteTook(a, n, 0, data, remaining, b) && SaveMeans(b, n, data, false, saving, toll, c)
    ensures PassMeans(a, n, last, StepOf(saving), data, remaining, toll, c)
  {
    hide PassMoves, PassReasons, PassForgets, WideBalanced, StoreMeans, FileTook, Coherent, Entering, Formatted,
         Homogeneous, IsHeader;
    SavedMoves(a, n, data, remaining, b, false, saving, toll, c);
    SavedReasons(a, n, last, data, remaining, b, saving, toll, c);
    SavedForgets(a, n, data, remaining, b, false, saving, toll, c);
    MoveBalanced(a, n, data, false, b, saving, toll, c);
  }

  // A pass on the client's own Moo in-buffer is a pass of AliasedImport.
  ghost predicate FollowsPass(l: Loop, step: ImportStep, data: Record, remaining: nat, after: File) {
    match AliasedImport.Pass(l)
    case Running(g, left) => step.Imported? && after == g && remaining == left
    case Stopped(g) => step.Drained? && after == g
    case Alarmed(g, r) => step.NotShrinking? && after == g && data == r
  }

  // The source is the client's own in-buffer, in Moo format.
  ghost predicate OwnMooInput(a: Status, n: FileName) {
    Place(a, n) == HERE && !a.clash && WideFormatted(a, n) && IsHeader(Contents(a.disk, n))
  }

  lemma AliasFollows(a: Status, n: FileName, last: nat, rc: int, data: Record, remaining: nat, b: Status,
                     saving: Saving, toll: Toll, c: Status)
    requires Coherent(a) && Coherent(b) && Coherent(c) && OwnMooInput(a, n)
    requires GetMeans(a, n, true, rc, data, remaining, b) && RemoteTook(a, n, rc, data, remaining, b)
    requires c.faults == a.faults
    requires rc == 0 && !(0 < last <= remaining) ==> SaveMeans(b, n, data, false, saving, toll, c)
    requires rc != 0 || 0 < last <= remaining ==> c == b
    ensures var step := if rc != 0 then Drained else if 0 < last <= remaining then NotShrinking else StepOf(saving);
      FollowsPass(Running(Contents(a.disk, n), last), step, data, remaining, Contents(c.disk, n))
  {
    hide Readable, Homogeneous, Matching, MooCount, Records, GetFile, Entered, Entering, FrontFree, Accounted, MooPut,
         StockPut, Wide, Formatted;
    var f := Contents(a.disk, n);
    HomogeneousGets(a, n);
    if rc == 0 && !(0 < last <= remaining) {
      HomeOfHandled(data);
      BalancedStays(a, n, b, data);
      assert saving.Kept?;
      assert FileOf(b, HERE) == Contents(b.disk, n);
    }
  }

  lemma HomogeneousGets(a: Status, n: FileName)
    requires WideFormatted(a, n)
    ensures !GetFile(Contents(a.disk, n)).Broken? && Openable(Contents(a.disk, n))
    ensures GetFile(Contents(a.disk, n)).NoRecords? ==> GetFile(Contents(a.disk, n)).file == []
  {
    GetReadable(Contents(a.disk, n));
  }

  lemma BalancedStays(a: Status, n: FileName, b: Status, data: Record)
    requires Coherent(a) && Coherent(b) && WideBalanced(a, n, FREE, [data], b) && WideFormatted(a, n)
    ensures Formatted(b) && Homogeneous(Contents(b.disk, n))
  {
  }

  // One pass of the import loop.
  method ImportPass(s: BufferStore, source: FileName, last: nat, ghost puts: nat)
    returns (step: ImportStep, data: Record, remaining: nat, ghost toll: Toll)
    requires s.Valid()
    modifies s, s.disk, s.membufftable
    ensures s.Valid() && PassMeans(old(s.Now()), source, last, step, data, remaining, toll, s.Now())
    // on the in-buffer itself, in Moo format
    ensures old(OwnMooInput(s.Now(), source)) && s.Now().faults == old(s.Now().faults) ==>
      FollowsPass(Running(old(Contents(s.disk.State(), source)), last), step, data, remaining,
                  Contents(s.disk.State(), source))
    ensures old(WideTame(s.Now(), source, puts + 2)) && (step.PutBack? || step.Stuck? ==> Routable(data)) ==>
      toll.fits && WideTame(s.Now(), source, if step.Imported? then puts + 1 else puts)
  {
    hide Coherent, RemoteTook, SaveMeans, WideTame, PassMeans, GetMeans, FollowsPass, OwnMooInput, Routable, Keepable,
         Contents, BufferStore.Now, BufferStore.Valid, BufferStore.Held;
    ghost var a := s.Now();
    ghost var alias := OwnMooInput(a, source);
    ghost var tame := WideTame(a, source, puts + 2);
    var rc;
    rc, data, remaining := s.GetFileRecord(source, true);
    ghost var b := s.Now();
    GetMeansTook(a, source, rc, data, remaining, b);
    TookRecord(a, source, rc, data, remaining, b);
    if tame {
      TookTame(a, source, rc, data, remaining, b, puts + 2);
    }
    if rc != 0 || (last != 0 && last <= remaining) {
      step := if rc == 0 then NotShrinking else Drained;
      toll := Toll(LostBy(step, data), [], true);
      PassEnded(a, source, last, rc, data, remaining, b);
      if alias && b.faults == a.faults {
        AliasFollows(a, source, last, rc, data, remaining, b, Lost, toll, b);
      }
      if tame {
        WideTameLess(b, source, puts + 2, puts);
      }
      return;
    }
    var saving;
    saving, toll := SaveOrReturn(s, source, data, false, puts);
    ghost var c := s.Now();
    step := StepOf(saving);
    PassSaved(a, source, last, data, remaining, b, saving, toll, c);
    if alias && c.faults == a.faults {
      AliasFollows(a, source, last, rc, data, remaining, b, saving, toll, c);
    }
  }

  lemma TookRecord(a: Status, n: FileName, rc: int, data: Record, count: nat, b: Status)
    requires Coherent(a) && Coherent(b) && RemoteTook(a, n, rc, data, count, b)
    ensures rc == 0 && Routable(data) ==> Keepable(data)
    ensures -1 <= rc <= 1
  {
  }

  // ---------- the loop ----------

  lemma SomeMore(records: seq<Record>, r: Record, i: nat)
    ensures SomeAtHome(records, i) || AtHome(r, i) ==> SomeAtHome(records + [r], i)
  {
    assert r in records + [r] && forall x :: x in records ==> x in records + [r];
  }

  // Records of this build's contest in a file of one format.
  ghost predicate OnlyHandled(a: Status, n: FileName) {
    Homogeneous(Contents(a.disk, n)) && forall r :: r in Source(a, n) ==> r[CONTEST] == RC5_72
  }

  // All records of the source can be put into their buffers.
  ghost predicate AllWelcome(a: Status, n: FileName)
    requires Coherent(a)
  {
    && (forall r :: r in Source(a, n) ==> Routable(r))
    && (a.mem || !a.clash)
    && (a.mem ==> forall i :: 0 <= i < BUFFERS ==> |a.view[i]| + |Source(a, n)| <= COUNT_MAX)
  }

  // A source that opens, with records of this build's contest, all welcome.
  ghost predicate Arrives(a: Status, n: FileName)
    requires Coherent(a)
  {
    OnlyHandled(a, n) && (IsHeader(Contents(a.disk, n)) || !a.disk.refusesRemote) && AllWelcome(a, n)
  }

  // Work is not forgotten.
  lemma WorkKept(a: Status, n: FileName, imported: seq<Record>, b: Status, step: ImportStep, data: Record, u: Toll,
                 c: Status)
    requires Coherent(b) && Coherent(c) && Source(a, n) == imported + Source(b, n) && AllWork(Source(a, n))
    requires PassMoves(b, n, step, data, c) && PassForgets(b, n, step, data, u, c)
    ensures u.forgot == []
  {
    hide Readable, IsHeader, Homogeneous;
    if !step.Drained? {
      assert data in Source(b, n) && data in Source(a, n);
    }
  }

  // Each buffer but the source has gained the imported records that belong there.
  ghost predicate Spreads(a: Status, n: FileName, imported: seq<Record>, toll: Toll, forgot: seq<Record>, b: Status)
    requires Coherent(a) && Coherent(b)
  {
    a.mem || (toll.fits && WideFormatted(a, n)) ==>
      forall i :: 0 <= i < BUFFERS && i != Place(a, n) ==> Reached(a, i, imported, forgot, b)
  }

  // Of the results forgotten, all but one that went back into the source landed in
  // a buffer.
  ghost predicate AllSpreads(a: Status, n: FileName, imported: seq<Record>, toll: Toll, b: Status)
    requires Coherent(a) && Coherent(b)
  {
    exists k: nat :: k <= |toll.forgot| && Spreads(a, n, imported, toll, toll.forgot[..k], b)
  }

  lemma SpreadsStart(a: Status, n: FileName)
    requires Coherent(a)
    ensures Spreads(a, n, [], FREE, [], a)
  {
    hide WideFormatted;
    forall i | 0 <= i < BUFFERS
      ensures Reached(a, i, [], [], a)
    {
      ReachedNothing(a, i, a);
    }
  }

  // A pass spreads the record it moves.
  lemma PassSpreads(b: Status, n: FileName, step: ImportStep, data: Record, u: Toll, c: Status, i: nat)
    requires Coherent(b) && Coherent(c) && PassMoves(b, n, step, data, c) && WideBalanced(b, n, u, [], c)
    requires c.mem == b.mem && Place(c, n) == Place(b, n) && (u.forgot == [] || u.forgot == [data])
    requires (b.mem || (u.fits && WideFormatted(b, n))) && i < BUFFERS && i != Place(b, n)
    ensures step.Imported? && u.dropped == [] ==> Reached(b, i, [data], u.forgot, c)
    ensures !step.Imported? ==> Reached(b, i, [], [], c)
  {
    hide Readable, Homogeneous, IsHeader, WideFormatted, AtHomeIn, Gains, Accounted, AtHome, HomeOf;
    OneHome(data, i);
    HomeNotThere(data, i);
    HomeNotThere(data, Place(b, n));
    if step.Imported? && u.dropped == [] && HomeOf(data) == i {
      if b.mem {
        StackGains(b.view[i], data, u.forgot, c.view[i]);
      } else {
        MovedOver(Wide(b, n), Wide(c, n), Place(b, n), i, data, u.forgot);
        FileGainsOne(b.view[i], data, u.forgot, c.view[i]);
      }
    } else {
      GainsNothing(b.mem, b.view[i]);
    }
  }

  lemma StackGains(before: seq<Record>, r: Record, forgot: seq<Record>, after: seq<Record>)
    requires after == before + [r]
    ensures Gains(true, before, [r], forgot, after)
  {
  }

  lemma FileGainsOne(before: seq<Record>, r: Record, forgot: seq<Record>, after: seq<Record>)
    requires multiset(after) + multiset(forgot) == multiset(before) + multiset{r} + multiset(ForcedAll(forgot))
    ensures Gains(false, before, [r], forgot, after)
  {
    assert multiset([r]) == multiset{r};
  }

  lemma SpreadsNext(a: Status, n: FileName, moved: seq<Record>, toll: Toll, b: Status, step: ImportStep, data: Record,
                    u: Toll, c: Status)
    requires Coherent(a) && Coherent(b) && Coherent(c) && b.mem == a.mem && Place(b, n) == Place(a, n)
    requires c.mem == b.mem && Place(c, n) == Place(b, n)
    requires WideBalanced(a, n, toll, [], b) && Spreads(a, n, moved, toll, toll.forgot, b)
    requires PassMoves(b, n, step, data, c) && WideBalanced(b, n, u, [], c) && (u.forgot == [] || u.forgot == [data])
    requires step.Imported? ==> u.dropped == []
    ensures step.Imported? ==> Spreads(a, n, moved + [data], Plus(toll, u), Plus(toll, u).forgot, c)
    ensures !step.Imported? ==> AllSpreads(a, n, moved, Plus(toll, u), c)
  {
    hide PassMoves, Reached, WideFormatted, Accounted, AtHome;
    if a.mem || (Plus(toll, u).fits && WideFormatted(a, n)) {
      forall i | 0 <= i < BUFFERS && i != Place(a, n)
        ensures step.Imported? ==> Reached(a, i, moved + [data], Plus(toll, u).forgot, c)
        ensures !step.Imported? ==> Reached(a, i, moved, toll.forgot, c)
      {
        PassSpreads(b, n, step, data, u, c, i);
        if step.Imported? {
          ReachedJoin(a, i, moved, toll.forgot, b, [data], u.forgot, c);
        } else {
          ReachedJoin(a, i, moved, toll.forgot, b, [], [], c);
          NothingMore(moved);
          NothingMore(toll.forgot);
        }
      }
    }
    if !step.Imported? {
      var k := |toll.forgot|;
      assert Plus(toll, u).forgot[..k] == toll.forgot;
      assert Spreads(a, n, moved, Plus(toll, u), Plus(toll, u).forgot[..k], c);
    }
  }

  // Emptying the source does not touch the other buffers.
  lemma SpreadsZapped(a: Status, n: FileName, imported: seq<Record>, toll: Toll, c: Status, rest: seq<Record>,
                      d: Status)
    requires Coherent(a) && Coherent(c) && Coherent(d) && AllSpreads(a, n, imported, toll, c)
    requires forall i :: 0 <= i < BUFFERS && i != Place(a, n) ==> d.view[i] == c.view[i]
    ensures AllSpreads(a, n, imported, Plus(toll, Toll(rest, [], true)), d)
  {
    hide WideFormatted, Gains;
    var u := Plus(toll, Toll(rest, [], true));
    var k: nat :| k <= |toll.forgot| && Spreads(a, n, imported, toll, toll.forgot[..k], c);
    assert u.forgot == toll.forgot + [] == toll.forgot;
    var f := toll.forgot[..k];
    if a.mem || (u.fits && WideFormatted(a, n)) {
      forall i | 0 <= i < BUFFERS && i != Place(a, n)
        ensures Reached(a, i, imported, f, d)
      {
        assert Reached(a, i, imported, f, c);
      }
    }
    assert Spreads(a, n, imported, u, u.forgot[..k], d);
  }

  lemma AllSpreadsStart(a: Status, n: FileName)
    requires Coherent(a)
    ensures AllSpreads(a, n, [], FREE, a)
  {
    hide Spreads;
    SpreadsStart(a, n);
    var k: nat := 0;
    assert FREE.forgot[..k] == [];
    assert Spreads(a, n, [], FREE, FREE.forgot[..k], a);
  }

  // How far an import is that started at a and has moved `imported`.
  ghost predicate Progress(a: Status, n: FileName, imported: seq<Record>, last: nat, toll: Toll, b: Status)
    requires Coherent(a) && Coherent(b)
  {
    var f, g := Contents(a.disk, n), Contents(b.disk, n);
    && SameKind(a, b) && Place(b, n) == Place(a, n)
    && (forall i :: 0 <= i < BUFFERS && i != Place(a, n) && !SomeAtHome(imported, i) ==> b.view[i] == a.view[i])
    && Source(a, n) == imported + Source(b, n)
    && (Homogeneous(f) ==> Homogeneous(g)) && (IsHeader(f) <==> IsHeader(g))
    && (if imported == [] then last == 0 && b == a && toll == FREE else IsHeader(f) || !a.disk.refusesRemote)
    && (imported != [] ==> a.mem || !a.clash)
    && (OnlyHandled(a, n) && b.faults == a.faults && imported != [] ==> last == |Source(b, n)|)
    && (Arrives(a, n) ==> AllWelcome(b, n))
    && toll.dropped == [] && WideBalanced(a, n, toll, [], b) && Spreads(a, n, imported, toll, toll.forgot, b)
    && (toll.forgot != [] ==> !IsHeader(f) && !b.mem && IsHeader(FileOf(b, OUT)))
    && (forall r :: r in toll.forgot ==> r in imported) && (AllWork(Source(a, n)) ==> toll.forgot == [])
  }

  lemma ProgressStart(a: Status, n: FileName)
    requires Coherent(a)
    ensures Progress(a, n, [], 0, FREE, a)
  {
    NothingBalanced(a, n);
    SpreadsStart(a, n);
    assert [] + Source(a, n) == Source(a, n);
  }

  // While the file holds one contest the count it reports strictly falls.
  lemma CountFalls(a: Status, n: FileName, imported: seq<Record>, data: Record, rest: seq<Record>)
    requires OnlyHandled(a, n) && Source(a, n) == imported + ([data] + rest)
    ensures Matching(rest, data[CONTEST]) == |rest|
  {
    assert data in Source(a, n) && forall r :: r in rest ==> r in Source(a, n);
    MatchingAll(rest, data[CONTEST]);
  }

  lemma NotToItself(a: Status, n: FileName, data: Record)
    requires Importable(a, n) && (a.mem || !a.clash)
    requires a.disk.refusesRemote ==> IsHeader(Contents(a.disk, n))
    requires (a.disk.refusesRemote && !Apart(a, n) ==> Keepable(data) && data[RESULTCODE] == RESULT_WORKING)
    ensures !AtHome(data, Place(a, n))
  {
  }

  // Only an import of a Moo file gets this far from one of the client's own.
  lemma OwnIsMoo(a: Status, n: FileName, imported: seq<Record>, last: nat, toll: Toll, b: Status,
                 step: ImportStep, data: Record, remaining: nat, u: Toll, c: Status)
    requires Coherent(a) && Coherent(b) && Coherent(c) && Importable(a, n)
    requires Progress(a, n, imported, last, toll, b) && PassMeans(b, n, last, step, data, remaining, u, c)
    ensures Importable(b, n)
    ensures step.Imported? || step.NotShrinking? ==> !AtHome(data, Place(b, n)) && (a.mem || !a.clash)
    ensures !step.Drained? ==> IsHeader(Contents(a.disk, n)) || !a.disk.refusesRemote
  {
    hide Readable, Homogeneous, Matching, IsHeader, WideBalanced, Arrives, OnlyHandled, AllWelcome, SomeAtHome;
    if step.Imported? || step.NotShrinking? {
      NotToItself(b, n, data);
    }
  }

  lemma ProgressMoves(a: Status, n: FileName, imported: seq<Record>, last: nat, toll: Toll, b: Status,
                      step: ImportStep, data: Record, remaining: nat, u: Toll, c: Status)
    requires Coherent(a) && Coherent(b) && Coherent(c) && Importable(a, n)
    requires Progress(a, n, imported, last, toll, b) && PassMeans(b, n, last, step, data, remaining, u, c)
    ensures step.Imported? ==>
      forall i :: 0 <= i < BUFFERS && i != Place(a, n) && !SomeAtHome(imported + [data], i) ==> c.view[i] == a.view[i]
    ensures !step.Imported? ==>
      forall i :: 0 <= i < BUFFERS && i != Place(a, n) && !SomeAtHome(imported, i) ==> c.view[i] == a.view[i]
    ensures step.Imported? || step.NotShrinking? ==>
      && Source(a, n) == imported + ([data] + Source(c, n))
      && Source(b, n) == [data] + Source(c, n)
      && imported + ([data] + Source(c, n)) == (imported + [data]) + Source(c, n)
      && (IsHeader(Contents(b.disk, n)) <==> IsHeader(Contents(c.disk, n)))
      && (Homogeneous(Contents(b.disk, n)) ==> Homogeneous(Contents(c.disk, n)))
  {
    hide Readable, Homogeneous, Matching, IsHeader, WideBalanced, Arrives, OnlyHandled, AllWelcome, SomeAtHome,
         PassReasons, PassForgets, AtHome;
    OwnIsMoo(a, n, imported, last, toll, b, step, data, remaining, u, c);
    forall i
      ensures SomeAtHome(imported, i) || AtHome(data, i) ==> SomeAtHome(imported + [data], i)
    {
      SomeMore(imported, data, i);
    }
    HasHome(data);
  }

  lemma HasHome(r: Record)
    ensures Routable(r) ==> AtHome(r, HomeOf(r))
  {
  }

  lemma WelcomeStill(b: Status, n: FileName, data: Record, c: Status)
    requires Coherent(b) && Coherent(c) && AllWelcome(b, n) && SameKind(b, c) && Routable(data)
    requires Source(b, n) == [data] + Source(c, n)
    requires b.mem ==> c.view[HomeOf(data)] == b.view[HomeOf(data)] + [data]
    requires b.mem ==> forall i :: 0 <= i < BUFFERS && i != HomeOf(data) ==> c.view[i] == b.view[i]
    ensures AllWelcome(c, n)
  {
    hide Readable;
    assert forall r :: r in Source(c, n) ==> r in Source(b, n);
  }

  lemma ProgressSpreads(a: Status, n: FileName, imported: seq<Record>, last: nat, toll: Toll, b: Status,
                        step: ImportStep, data: Record, remaining: nat, u: Toll, c: Status)
    requires Coherent(a) && Coherent(b) && Coherent(c) && Importable(a, n)
    requires Progress(a, n, imported, last, toll, b) && PassMeans(b, n, last, step, data, remaining, u, c)
    ensures step.Imported? ==> Spreads(a, n, imported + [data], Plus(toll, u), Plus(toll, u).forgot, c)
    ensures !step.Imported? ==> AllSpreads(a, n, imported, Plus(toll, u), c)
  {
    hide Readable, Homogeneous, IsHeader, OnlyHandled, AllWelcome, SomeAtHome, AtHome, PassMoves, PassReasons,
         WideBalanced, Spreads, AllSpreads, Matching;
    SpreadsNext(a, n, imported, toll, b, step, data, u, c);
  }

  lemma ProgressStep(a: Status, n: FileName, imported: seq<Record>, last: nat, toll: Toll, b: Status,
                     step: ImportStep, data: Record, remaining: nat, u: Toll, c: Status)
    requires Coherent(a) && Coherent(b) && Coherent(c) && Importable(a, n)
    requires Progress(a, n, imported, last, toll, b) && PassMeans(b, n, last, step, data, remaining, u, c)
    ensures step.Imported? ==> Progress(a, n, imported + [data], remaining, Plus(toll, u), c)
    ensures OnlyHandled(a, n) && c.faults == a.faults ==> !step.NotShrinking?
    ensures step.Imported? ==> |Source(c, n)| + 1 == |Source(b, n)|
  {
    hide Readable, Homogeneous, Matching, IsHeader, WideBalanced, OnlyHandled, AllWelcome, SomeAtHome, AtHome, Spreads;
    ProgressSpreads(a, n, imported, last, toll, b, step, data, remaining, u, c);
    OwnIsMoo(a, n, imported, last, toll, b, step, data, remaining, u, c);
    ProgressMoves(a, n, imported, last, toll, b, step, data, remaining, u, c);
    WideBalancedNext(a, n, toll, b, u, [], c);
    if AllWork(Source(a, n)) {
      WorkKept(a, n, imported, b, step, data, u, c);
    }
    if (step.Imported? || step.NotShrinking?) && OnlyHandled(a, n) {
      CountFalls(a, n, imported, data, Source(c, n));
    }
    if step.Imported? && Arrives(a, n) {
      WelcomeStill(b, n, data, c);
    }
  }

  // What the import has done when its loop ends with that step.
  ghost predicate Finished(a: Status, n: FileName, imported: seq<Record>, step: ImportStep, toll: Toll, c: Status)
    requires Coherent(a) && Coherent(c)
  {
    var f, g := Contents(a.disk, n), Contents(c.disk, n);
    && SameKind(a, c) && Place(c, n) == Place(a, n)
    && (forall i :: 0 <= i < BUFFERS && i != Place(a, n) && !SomeAtHome(imported, i) ==> c.view[i] == a.view[i])
    && WideBalanced(a, n, toll, [], c) && AllSpreads(a, n, imported, toll, c)
    // a beginning of the source was imported
    && imported <= Source(a, n) && (imported != [] ==> a.mem || !a.clash)
    // a refused source is left as it is
    && (a.disk.refusesRemote && !IsHeader(f) ==> imported == [] && step.Drained? && toll == FREE && g == f)
    // from a file of RC5-72 records nothing is lost without I/O errors
    && (OnlyHandled(a, n) && c.faults == a.faults ==>
          toll.dropped == [] && (step.Drained? && imported != [] ==> Source(c, n) == []))
    // and everything arrives that the buffers can take
    && (Arrives(a, n) && WideFormatted(a, n) && toll.fits && c.faults == a.faults ==>
          step.Drained? && imported == Source(a, n) && g == [])
    // results are forgotten only on the way from a stock file into a Moo file
    && (toll.forgot != [] && toll.fits ==>
        !IsHeader(f) && ((!c.mem && IsHeader(FileOf(c, OUT))) || (IsHeader(g) && !step.Drained?)))
    && (AllWork(Source(a, n)) ==> toll.forgot == [])
  }

  lemma EndsHow(a: Status, n: FileName, imported: seq<Record>, last: nat, toll: Toll, b: Status,
                step: ImportStep, data: Record, remaining: nat, u: Toll, c: Status)
    requires Coherent(a) && Coherent(b) && Coherent(c) && Importable(a, n) && !step.Imported?
    requires Progress(a, n, imported, last, toll, b) && PassMeans(b, n, last, step, data, remaining, u, c)
    ensures a.disk.refusesRemote && !IsHeader(Contents(a.disk, n)) ==>
      imported == [] && b == a && step.Drained? && Contents(c.disk, n) == Contents(a.disk, n)
    ensures OnlyHandled(a, n) && c.faults == a.faults ==>
      u.dropped == [] && (step.Drained? && imported != [] ==> Source(c, n) == [])
    ensures Arrives(a, n) && WideFormatted(a, n) && toll.fits && c.faults == a.faults ==>
      step.Drained? && Source(b, n) == [] && Contents(c.disk, n) == []
  {
    hide Readable, Matching, IsHeader, SomeAtHome, AtHome, PassMoves, PassForgets, Homogeneous, Accounted, Wide;
    ProgressStep(a, n, imported, last, toll, b, step, data, remaining, u, c);
    InSource(b, n, step, data, c);
  }

  lemma InSource(b: Status, n: FileName, step: ImportStep, data: Record, c: Status)
    requires Coherent(b) && Coherent(c) && PassMoves(b, n, step, data, c)
    ensures if step.Drained? then Source(c, n) == Source(b, n) else data in Source(b, n)
  {
  }

  lemma ProgressEnd(a: Status, n: FileName, imported: seq<Record>, last: nat, toll: Toll, b: Status,
                    step: ImportStep, data: Record, remaining: nat, u: Toll, c: Status)
    requires Coherent(a) && Coherent(b) && Coherent(c) && Importable(a, n) && !step.Imported?
    requires Progress(a, n, imported, last, toll, b) && PassMeans(b, n, last, step, data, remaining, u, c)
    ensures Finished(a, n, imported, step, Plus(toll, u), c)
  {
    hide Readable, Homogeneous, Matching, IsHeader, WideBalanced, OnlyHandled, AllWelcome, Arrives, SomeAtHome, AtHome,
         PassReasons, WideFormatted, Spreads, AllSpreads;
    ProgressSpreads(a, n, imported, last, toll, b, step, data, remaining, u, c);
    EndsHow(a, n, imported, last, toll, b, step, data, remaining, u, c);
    ProgressMoves(a, n, imported, last, toll, b, step, data, remaining, u, c);
    WideBalancedNext(a, n, toll, b, u, [], c);
    assert imported <= imported + Source(b, n);
    if AllWork(Source(a, n)) {
      WorkKept(a, n, imported, b, step, data, u, c);
    }
    ForgottenOut(a, n, imported, last, toll, b);
  }

  lemma ForgottenOut(a: Status, n: FileName, imported: seq<Record>, last: nat, toll: Toll, b: Status)
    requires Coherent(a) && Coherent(b) && Importable(a, n) && Progress(a, n, imported, last, toll, b)
    ensures toll.forgot != [] ==> Place(a, n) != OUT
  {
    hide Readable, Homogeneous, Matching, IsHeader, WideBalanced, OnlyHandled, AllWelcome, Arrives, SomeAtHome;
    if toll.forgot != [] {
      assert toll.forgot[0] in imported;
    }
  }

  // BufferZapFileRecords gives up what the source still held, and nothing else.
  lemma Zapped(a: Status, n: FileName, b: Status)
    requires Coherent(a) && Coherent(b) && Beside(a, n, b) && Contents(b.disk, n) == [] && Place(b, n) == Place(a, n)
    ensures WideBalanced(a, n, Toll(Source(a, n), [], true), [], b)
  {
    hide Readable, Homogeneous, Accounted;
    EmptyIsHomogeneous();
    if WideFormatted(a, n) {
      BesideFormatted(a, n, b);
      assert Wide(b, n) == Wide(a, n)[Place(a, n) := []];
      ZapAccounted(Wide(a, n), Place(a, n), Wide(b, n));
    }
  }

  method ZapSource(s: BufferStore, source: FileName)
    requires s.Valid()
    modifies s.disk
    ensures s.Valid() && Beside(old(s.Now()), source, s.Now()) && Place(s.Now(), source) == Place(old(s.Now()), source)
    ensures s.Now().faults == old(s.Now().faults) && s.disk.mooOutputMode == old(s.disk.mooOutputMode)
    ensures Contents(s.disk.State(), source) == []
  {
    hide Readable;
    ghost var a := s.Now();
    s.disk.ZapFileRecords(source);
    assert a.mem ==> s.Now().view == a.view;
    forall i | 0 <= i < BUFFERS && i != Place(a, source)
      ensures s.Now().view[i] == a.view[i]
    {
      if !a.mem && LocalOf(i) == source {
        PlaceOf(a, source, i);
      }
    }
  }

  // What the whole import has done.
  ghost predicate ImportOutcome(a: Status, n: FileName, imported: seq<Record>, toll: Toll, c: Status)
    requires Coherent(a) && Coherent(c)
  {
    var f, g := Contents(a.disk, n), Contents(c.disk, n);
    && SameKind(a, c) && Place(c, n) == Place(a, n)
    // every record is in a buffer, still in the source, or lost, and only the
    // buffers of imported records changed
    && WideBalanced(a, n, toll, [], c)
    && (forall i :: 0 <= i < BUFFERS && i != Place(a, n) && !SomeAtHome(imported, i) ==> c.view[i] == a.view[i])
    // each of those has gained the imported records that belong there
    && AllSpreads(a, n, imported, toll, c)
    && imported <= Source(a, n) && (imported != [] ==> a.mem || !a.clash)
    // without I/O errors nothing is lost from a file of RC5-72 records
    && (OnlyHandled(a, n) && c.faults == a.faults ==> toll.dropped == [])
    // a refused source is left as it is
    && (a.disk.refusesRemote && !IsHeader(f) ==> imported == [] && toll == FREE && g == f)
    // everything the buffers can take arrives from a source that opens
    && (Arrives(a, n) && WideFormatted(a, n) && toll.fits && c.faults == a.faults ==>
        imported == Source(a, n) && g == [])
    // results are forgotten only on the way from a stock file into a Moo file
    && (toll.forgot != [] && toll.fits ==> !IsHeader(f) && ((!c.mem && IsHeader(FileOf(c, OUT))) || IsHeader(g)))
    && (AllWork(Source(a, n)) ==> toll.forgot == [])
  }

  lemma OutcomeAsIs(a: Status, n: FileName, imported: seq<Record>, step: ImportStep, toll: Toll, c: Status)
    requires Coherent(a) && Coherent(c) && Finished(a, n, imported, step, toll, c)
    ensures ImportOutcome(a, n, imported, toll, c)
  {
    hide Readable, IsHeader, WideBalanced, OnlyHandled, Arrives, SomeAtHome, WideFormatted, AllSpreads;
  }

  lemma OutcomeZapped(a: Status, n: FileName, imported: seq<Record>, toll: Toll, c: Status, d: Status)
    requires Coherent(a) && Coherent(c) && Coherent(d) && Finished(a, n, imported, Drained, toll, c) && imported != []
    requires Importable(a, n)
    requires Beside(c, n, d) && Contents(d.disk, n) == [] && d.faults == c.faults && Place(d, n) == Place(c, n)
    ensures ImportOutcome(a, n, imported, Plus(toll, Toll(Source(c, n), [], true)), d)
  {
    hide Readable, IsHeader, WideBalanced, OnlyHandled, Arrives, SomeAtHome, WideFormatted, Homogeneous,
         AllSpreads;
    SpreadsZapped(a, n, imported, toll, c, Source(c, n), d);
    Zapped(c, n, d);
    WideBalancedNext(a, n, toll, c, Toll(Source(c, n), [], true), [], d);
    OutStays(c, n, d);
    OutZapped(a, n, c, d);
  }

  // The zapped file is not the out-buffer of results that were forgotten there.
  lemma OutZapped(a: Status, n: FileName, c: Status, d: Status)
    requires Coherent(c) && Coherent(d) && Beside(c, n, d) && Place(c, n) == Place(a, n)
    ensures !c.mem && !(Place(a, n) == OUT) ==> FileOf(d, OUT) == FileOf(c, OUT)
  {
    OutStays(c, n, d);
  }

  // Enough packet numbers are left for the passes to come, and a record can go
  // back if need be.
  ghost predicate Prepared(a: Status, n: FileName, b: Status) {
    WideTame(b, n, |Source(b, n)| + 1) && forall r :: r in Source(a, n) ==> Routable(r)
  }

  ghost predicate Restorable(a: Status, n: FileName) {
    Prepared(a, n, a)
  }

  lemma PreparedStep(a: Status, n: FileName, imported: seq<Record>, last: nat, toll: Toll, b: Status,
                     step: ImportStep, data: Record, remaining: nat, u: Toll, c: Status)
    requires Coherent(a) && Coherent(b) && Coherent(c) && Importable(a, n)
    requires Progress(a, n, imported, last, toll, b) && PassMeans(b, n, last, step, data, remaining, u, c)
    requires Prepared(a, n, b)
    requires |Source(b, n)| > 0 && (step.PutBack? || step.Stuck? ==> Routable(data)) ==>
      u.fits && WideTame(c, n, if step.Imported? then |Source(b, n)| else |Source(b, n)| - 1)
    ensures u.fits && (step.Imported? ==> Prepared(a, n, c))
  {
    hide Readable, Matching, IsHeader, WideBalanced, OnlyHandled, AllWelcome, Arrives, SomeAtHome, WideTame,
         PassReasons, PassForgets, Homogeneous;
    ProgressMoves(a, n, imported, last, toll, b, step, data, remaining, u, c);
    InSource(b, n, step, data, c);
    assert forall r :: r in Source(b, n) ==> r in Source(a, n);
  }

  // BufferImportFileRecords.  `imported` lists the records that reached their
  // buffers, in order.
  method ImportFileRecords(s: BufferStore, source: FileName)
    returns (recovered: int, ghost imported: seq<Record>, ghost toll: Toll)
    requires s.Valid() && Importable(s.Now(), source)
    modifies s, s.disk, s.membufftable
    ensures s.Valid() && ImportOutcome(old(s.Now()), source, imported, toll, s.Now())
    ensures recovered == if source in old(s.disk.files) then |imported| else -1
    ensures old(Restorable(s.Now(), source)) ==> toll.fits
  {
    hide Coherent, Importable, Progress, PassMeans, Finished, ImportOutcome, Prepared, Plus, WideTame, Contents, Source,
         BufferStore.Now, BufferStore.Valid, BufferStore.Held, Routable, FollowsPass, OwnMooInput;
    ghost var a := s.Now();
    imported, toll := [], FREE;
    if source !in s.disk.files {
      NotThere(a, source);
      return -1, imported, toll;
    }
    ghost var tame := Restorable(a, source);
    recovered := 0;
    var lastremaining, errs := 0, false;
    ProgressStart(a, source);
    var step: ImportStep := Drained;
    while true
      invariant s.Valid() && recovered == |imported|
      invariant Progress(a, source, imported, lastremaining, toll, s.Now())
      invariant tame ==> toll.fits && Prepared(a, source, s.Now())
      decreases |Source(s.Now(), source)|
    {
      ghost var b, t, u := s.Now(), toll, FREE;
      ghost var left := |Source(b, source)|;
      var data, remaining;
      step, data, remaining, u := ImportPass(s, source, lastremaining, if left > 0 then left - 1 else 0);
      ghost var c := s.Now();
      ProgressStep(a, source, imported, lastremaining, t, b, step, data, remaining, u, c);
      if tame {
        PreparedMeans(a, source, b);
        PreparedStep(a, source, imported, lastremaining, t, b, step, data, remaining, u, c);
      }
      toll := Plus(t, u);
      PlusFits(t, u);
      if !step.Imported? {
        ProgressEnd(a, source, imported, lastremaining, t, b, step, data, remaining, u, c);
        errs := !step.Drained?;
        break;
      }
      recovered, imported, lastremaining := recovered + 1, imported + [data], remaining;
    }
    ghost var c := s.Now();
    if recovered > 0 && !errs {
      ghost var rest := Source(c, source);
      ZapSource(s, source);
      OutcomeZapped(a, source, imported, toll, c, s.Now());
      PlusFits(toll, Toll(rest, [], true));
      toll := Plus(toll, Toll(rest, [], true));
    } else {
      OutcomeAsIs(a, source, imported, step, toll, c);
    }
  }

  lemma PreparedMeans(a: Status, n: FileName, b: Status)
    requires Prepared(a, n, b)
    ensures WideTame(b, n, |Source(b, n)| + 1)
  {
  }

  lemma PlusFits(t: Toll, u: Toll)
    ensures Plus(t, u).fits <==> t.fits && u.fits
  {
  }

  lemma NotThere(a: Status, n: FileName)
    requires Coherent(a) && n !in a.disk.files
    ensures ImportOutcome(a, n, [], FREE, a)
  {
    NothingBalanced(a, n);
    EmptyIsHomogeneous();
    AllSpreadsStart(a, n);
  }
}
