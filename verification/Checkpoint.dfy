/**
 Checkpoint files (checkpt.cpp, CheckpointAction): REFRESH rewrites the file
 with every running problem, OPEN imports what it holds and empties it, CLOSE
 empties it.
 */
module Checkpoint {
  import opened Characters
  import opened Words
  import opened Moo521
  import opened WorkRecords
  import opened BufferFiles
  import opened BufferDisk
  import opened BufferRuns
  import opened Routing
  import opened FileSteps
  import opened BufferStore
  import opened CrossSave
  import opened Transfers
  import opened Import

  // An entry of the problem table: none, one not initialised, one whose state
  // cannot be read, or a running one with the record to save.
  datatype Problem = Absent | Idle | Unreadable | Running(contest: u32, state: Record)

  // The record saved for a running problem: unfinished work of its contest.
  function RecordOf(p: Problem): Record
    requires p.Running?
  {
    Terminate(p.state[RESULTCODE := RESULT_WORKING][CONTEST := p.contest])
  }

  predicate Savable(p: Problem) {
    p.Running? && p.contest < CONTEST_COUNT
  }

  function ToSave(problems: seq<Problem>): seq<Record> {
    if problems == [] then []
    else
      var rest := ToSave(problems[..|problems| - 1]);
      var last := problems[|problems| - 1];
      if Savable(last) then rest + [RecordOf(last)] else rest
  }

  // The record saved is the state of the problem, word for word, as unfinished
  // work of its contest and with the last byte of the id zero.
  lemma RecordIsState(c: u32, state: Record, i: nat)
    requires i < 42
    ensures RecordOf(Running(c, state))[i] ==
      if i == 20 then 0 else if i == 36 then state[36] % 0x100_0000 else if i == 37 then c else state[i]
  {
  }

  // In increasing order, from lists the running problems of known contests, and
  // record j is that of the problem from[j].
  ghost predicate ListsRunning(problems: seq<Problem>, from: seq<nat>, saved: seq<Record>) {
    && |from| == |saved|
    && (forall j, k :: 0 <= j < k < |from| ==> from[j] < from[k])
    && (forall i: nat :: i in from <==> i < |problems| && problems[i].Running? && problems[i].contest < 7)
    && (forall j :: 0 <= j < |from| ==>
          from[j] < |problems| && problems[from[j]].Running? && saved[j] == RecordOf(problems[from[j]]))
  }

  lemma ListsMore(problems: seq<Problem>, from: seq<nat>, saved: seq<Record>, last: Problem)
    requires ListsRunning(problems, from, saved)
    ensures var more := problems + [last];
      if last.Running? && last.contest < 7 then ListsRunning(more, from + [|problems|], saved + [RecordOf(last)])
      else ListsRunning(more, from, saved)
  {
    hide RecordOf;
    var more := problems + [last];
    assert forall j :: 0 <= j < |from| ==> from[j] in from && more[from[j]] == problems[from[j]];
    if last.Running? && last.contest < 7 {
      var next := from + [|problems|];
      forall i: nat
        ensures i in next <==> i < |more| && more[i].Running? && more[i].contest < 7
      {
        assert i in next <==> i in from || i == |problems|;
      }
    }
  }

  // One record for each running problem of a known contest, in the order of the
  // table.
  lemma {:induction false} SavedInOrder(problems: seq<Problem>) returns (from: seq<nat>)
    ensures ListsRunning(problems, from, ToSave(problems))
  {
    from := [];
    if problems != [] {
      hide RecordOf, ListsRunning;
      var n := |problems| - 1;
      from := SavedInOrder(problems[..n]);
      ListsMore(problems[..n], from, ToSave(problems[..n]), problems[n]);
      assert problems[..n] + [problems[n]] == problems;
      if Savable(problems[n]) {
        from := from + [n];
      }
    }
  }

  // ---------- the name of the file ----------

  predicate Trimmed(name: string) {
    name != "" ==> !IsSpace(name[0]) && !IsSpace(name[|name| - 1])
  }

  // Leading and trailing white space removed, and nothing else.
  method Trim(name: string) returns (t: string, ghost before: string, ghost after: string)
    ensures name == before + t + after
    ensures (forall c :: c in before || c in after ==> IsSpace(c)) && Trimmed(t)
  {
    var len := 0;
    while len < |name| && IsSpace(name[len])
      invariant len <= |name| && forall i :: 0 <= i < len ==> IsSpace(name[i])
    {
      len := len + 1;
    }
    before := name[..len];
    t := name[len..];
    var end := |t|;
    while end > 0 && IsSpace(t[end - 1])
      invariant 0 <= end <= |t| && forall i :: end <= i < |t| ==> IsSpace(t[i])
      invariant t != "" ==> !IsSpace(t[0])
    {
      end := end - 1;
    }
    after := t[end..];
    t := t[..end];
  }

  // Checkpoints are kept only by clients with disk buffers that name a file.
  predicate Enabled(nodiskbuffers: bool, name: string) {
    !nodiskbuffers && name != "" && name != "none"
  }

  // ---------- saving ----------

  // RC5-72 problems with real keys, no more than a Moo file can count.
  ghost predicate AllReal(records: seq<Record>) {
    |records| <= MAX_COUNT && forall r :: r in records ==>
        r[CONTEST] == RC5_72 && r[0] < 0x100 && Keepable(r) && r[RESULTCODE] == RESULT_WORKING
  }

  // After some Puts: a file of one format holding those records.
  ghost predicate Holds(d: Disk, n: FileName, moo: bool, records: seq<Record>) {
    var f := Contents(d, n);
    && Homogeneous(f) && multiset(Readable(f)) == multiset(records)
    && MooCount(f) <= |records| && (d.mooMode <==> moo)
    && (IsHeader(f) ==> moo) && (f != [] ==> IsHeader(f) == moo) && (records != [] ==> f != [])
  }

  lemma HoldsNothing(d: Disk, n: FileName)
    requires Contents(d, n) == []
    ensures Holds(d, n, d.mooMode, [])
  {
    EmptyIsHomogeneous();
  }

  lemma HoldsMore(d: Disk, n: FileName, moo: bool, records: seq<Record>, r: Record, after: Disk)
    requires Holds(d, n, moo, records) && |records| < MAX_COUNT
    requires r[CONTEST] == RC5_72 && r[0] < 0x100 && Keepable(r) && r[RESULTCODE] == RESULT_WORKING
    requires Contents(after, n) == PutOn(d, n, r, false).file && after.mooMode == Sniff(d, n).mooMode
    ensures Holds(after, n, moo, records + [r])
  {
    hide Readable, LandsAs, MooCount, PutFile, PutKeepsFormat, UsesMoo;
    var mode, f := Sniff(d, n).mooMode, Contents(d, n);
    RealKeyIsNoMagic(r);
    RoomLeft(f);
    FitsIfRoom(mode, f, r);
    KeepableLands(mode, f, r);
    assert Forced(r) == r;
    PutFileReadable(mode, f, r, false);
    AddsBag(Readable(f), r, Readable(PutFile(mode, f, r, false).file));
    PutCount(mode, f, r, false);
    PutFormat(mode, f, r, false);
    ModeFormat(mode, f);
  }

  lemma FitsIfRoom(mode: bool, f: File, r: Record)
    requires MooRoom(f) && !IsHeader(Switched(r))
    ensures PutKeepsFormat(mode, f, r, false)
  {
  }

  lemma ModeFormat(mode: bool, f: File)
    ensures UsesMoo(mode, f) <==> IsHeader(f) || (mode && f == [])
  {
  }

  // A failed Put, or none.
  lemma HoldsStill(d: Disk, n: FileName, moo: bool, records: seq<Record>, after: Disk)
    requires Holds(d, n, moo, records) && Contents(after, n) == Contents(d, n)
    requires after.mooMode == Sniff(d, n).mooMode
    ensures Holds(after, n, moo, records)
  {
  }

  lemma HoldsAccepts(d: Disk, n: FileName, moo: bool, records: seq<Record>)
    requires Holds(d, n, moo, records)
    ensures PutAccepted(d, n, false)
  {
    BufferRuns.Accepted(d, n);
  }

  lemma {:induction false} SavedPrefix(problems: seq<Problem>, i: nat)
    requires i <= |problems|
    ensures ToSave(problems[..i]) <= ToSave(problems)
    decreases |problems|
  {
    if i < |problems| {
      var init := problems[..|problems| - 1];
      SavedPrefix(init, i);
      assert init[..i] == problems[..i];
    } else {
      assert problems[..i] == problems;
    }
  }

  lemma SavedNext(problems: seq<Problem>, i: nat)
    requires i < |problems|
    ensures var now, next := ToSave(problems[..i]), ToSave(problems[..i + 1]);
      && next == (if Savable(problems[i]) then now + [RecordOf(problems[i])] else now)
      && next <= ToSave(problems)
  {
    assert problems[..i + 1][..i] == problems[..i];
    SavedPrefix(problems, i + 1);
  }

  // BufferPutFileRecord of every running problem, failures ignored.  `kept`
  // lists the records that were written.
  method SaveProblems(disk: BufferDisk, n: FileName, problems: seq<Problem>) returns (ghost kept: seq<Record>)
    requires Contents(disk.State(), n) == []
    modifies disk
    ensures old(disk.faults) <= disk.faults
    ensures forall m :: m != n ==> Contents(disk.State(), m) == Contents(old(disk.State()), m)
    ensures multiset(kept) <= multiset(ToSave(problems))
    ensures AllReal(ToSave(problems)) ==>
      && Holds(disk.State(), n, old(disk.mooOutputMode), kept)
      && (kept == ToSave(problems) || disk.faults > old(disk.faults))
  {
    hide Contents, PutOn, Sniff, Holds, PutAccepted, RecordOf;
    kept := [];
    HoldsNothing(disk.State(), n);
    ghost var all, genuine, moo := ToSave(problems), AllReal(ToSave(problems)), disk.mooOutputMode;
    var i := 0;
    while i < |problems|
      invariant 0 <= i <= |problems| && old(disk.faults) <= disk.faults
      invariant forall m :: m != n ==> Contents(disk.State(), m) == Contents(old(disk.State()), m)
      invariant |kept| <= |ToSave(problems[..i])| && multiset(kept) <= multiset(ToSave(problems[..i]))
      invariant genuine ==> kept == ToSave(problems[..i]) || disk.faults > old(disk.faults)
      invariant genuine ==> Holds(disk.State(), n, moo, kept)
    {
      ghost var now := ToSave(problems[..i]);
      SavedNext(problems, i);
      if Savable(problems[i]) {
        var r := RecordOf(problems[i]);
        assert r in now + [r];
        ghost var d := disk.State();
        if genuine {
          HoldsAccepts(d, n, moo, kept);
        }
        var rc, count := disk.PutFileRecord(n, r, false, false);
        if genuine {
          if rc == 0 {
            HoldsMore(d, n, moo, kept, r, disk.State());
          } else {
            HoldsStill(d, n, moo, kept, disk.State());
          }
        }
        if rc == 0 {
          assert multiset(kept + [r]) == multiset(kept) + multiset{r}
              && multiset(now + [r]) == multiset(now) + multiset{r};
          kept := kept + [r];
        }
      }
      i := i + 1;
    }
    assert problems[..i] == problems;
  }

  // What opening an enabled checkpoint has done.
  ghost predicate OpenOutcome(a: Status, n: FileName, imported: seq<Record>, toll: Toll, c: Status)
    requires Coherent(a) && Coherent(c)
  {
    && SameKind(a, c) && Place(c, n) == Place(a, n)
    // the checkpoint is empty and every record accounted for
    && Contents(c.disk, n) == [] && WideBalanced(a, n, toll, [], c)
    && (forall i :: 0 <= i < BUFFERS && i != Place(a, n) && !SomeAtHome(imported, i) ==> c.view[i] == a.view[i])
    && imported <= Source(a, n) && (imported != [] ==> a.mem || !a.clash)
    // everything that can be imported is, and nothing is lost
    && (Arrives(a, n) && WideFormatted(a, n) && toll.fits && c.faults == a.faults ==>
        imported == Source(a, n) && toll.dropped == [])
    // a stock checkpoint that the remote flag refuses is thrown away unread
    && (a.disk.refusesRemote && !IsHeader(Contents(a.disk, n)) ==> imported == [] && toll.dropped == Source(a, n))
    && (AllWork(Source(a, n)) ==> toll.forgot == [])
  }

  lemma ZappedOpen(a: Status, n: FileName, imported: seq<Record>, toll: Toll, b: Status, c: Status)
    requires Coherent(a) && Coherent(b) && Coherent(c) && ImportOutcome(a, n, imported, toll, b)
    requires Beside(b, n, c) && Contents(c.disk, n) == [] && c.faults == b.faults && Place(c, n) == Place(b, n)
    ensures OpenOutcome(a, n, imported, Plus(toll, Toll(Source(b, n), [], true)), c)
  {
    hide Readable, IsHeader, WideBalanced, WideFormatted, SomeAtHome, OnlyHandled, AllWelcome, AllWork, Homogeneous;
    Zapped(b, n, c);
    WideBalancedNext(a, n, toll, b, Toll(Source(b, n), [], true), [], c);
    ArrivesIsHandled(a, n);
    EmptyIsHomogeneous();
    assert [] + Source(a, n) == Source(a, n);
  }

  lemma ArrivesIsHandled(a: Status, n: FileName)
    requires Coherent(a)
    ensures Arrives(a, n) ==> OnlyHandled(a, n)
  {
  }

  // CHECKPOINT_OPEN of an enabled checkpoint: import, then empty the file even
  // if the import stopped half way.
  method Open(s: BufferStore, n: FileName) returns (recovered: int, ghost imported: seq<Record>, ghost toll: Toll)
    requires s.Valid() && Importable(s.Now(), n)
    modifies s, s.disk, s.membufftable
    ensures s.Valid() && OpenOutcome(old(s.Now()), n, imported, toll, s.Now())
    ensures recovered == if n in old(s.disk.files) then |imported| else -1
    ensures old(Restorable(s.Now(), n)) ==> toll.fits
  {
    hide Coherent, Importable, ImportOutcome, OpenOutcome, Restorable, Plus, Place, Contents, Beside, BufferStore.Now,
         BufferStore.Valid, BufferStore.Held;
    ghost var a := s.Now();
    recovered, imported, toll := ImportFileRecords(s, n);
    ghost var b, t := s.Now(), toll;
    ZapSource(s, n);
    ZappedOpen(a, n, imported, t, b, s.Now());
    toll := Plus(t, Toll(Source(b, n), [], true));
    PlusFits(t, Toll(Source(b, n), [], true));
  }

  // ---------- the client's checkpoint file ----------

  class Checkpoints {
    const s: BufferStore
    var checkpointFile: string

    constructor (s: BufferStore, checkpointFile: string)
      ensures this.s == s && this.checkpointFile == checkpointFile
    {
      this.s, this.checkpointFile := s, checkpointFile;
    }

    // The name without surrounding white space, or false if there is none.
    method Prepare() returns (enabled: bool)
      modifies this
      ensures enabled <==> !s.nodiskbuffers && checkpointFile != "" && checkpointFile != "none"
      ensures s.nodiskbuffers ==> checkpointFile == old(checkpointFile)
      ensures !s.nodiskbuffers ==> Trimmed(checkpointFile)
      ensures Trimmed(old(checkpointFile)) ==> checkpointFile == old(checkpointFile)
    {
      if !s.nodiskbuffers {
        ghost var before, after;
        var name;
        name, before, after := Trim(checkpointFile);
        if Trimmed(checkpointFile) {
          TrimmedStays(name, before, after);
        }
        checkpointFile := name;
      }
      enabled := Enabled(s.nodiskbuffers, checkpointFile);
    }

    // CheckpointAction(CHECKPOINT_CLOSE)
    method Close() returns (enabled: bool)
      requires s.Valid()
      modifies this, s.disk
      ensures s.Valid() && s.disk.faults == old(s.disk.faults) && s.disk.mooOutputMode == old(s.disk.mooOutputMode)
      ensures enabled <==> Enabled(s.nodiskbuffers, checkpointFile)
      ensures Trimmed(old(checkpointFile)) ==> checkpointFile == old(checkpointFile)
      ensures enabled ==> Contents(s.disk.State(), Named(checkpointFile)) == []
      ensures forall m :: (enabled ==> m != Named(checkpointFile)) ==>
        Contents(s.disk.State(), m) == Contents(old(s.disk.State()), m)
    {
      enabled := Prepare();
      if enabled {
        s.disk.ZapFileRecords(Named(checkpointFile));
      }
    }

    // CheckpointAction(CHECKPOINT_REFRESH): without I/O errors the file holds
    // exactly the running problems afterwards.
    method Refresh(problems: seq<Problem>, ghost puts: nat) returns (enabled: bool, ghost kept: seq<Record>)
      requires s.Valid()
      modifies this, s.disk
      ensures s.Valid() && old(s.disk.faults) <= s.disk.faults
      ensures enabled <==> Enabled(s.nodiskbuffers, checkpointFile)
      ensures Trimmed(old(checkpointFile)) ==> checkpointFile == old(checkpointFile)
      ensures forall m :: (enabled ==> m != Named(checkpointFile)) ==>
        Contents(s.disk.State(), m) == Contents(old(s.disk.State()), m)
      ensures s.Now().view == old(s.Now().view) && (old(Tame(s.Now(), puts)) ==> Tame(s.Now(), puts))
      ensures enabled ==> multiset(kept) <= multiset(ToSave(problems))
      ensures enabled && AllReal(ToSave(problems)) ==>
        && Holds(s.disk.State(), Named(checkpointFile), old(s.disk.mooOutputMode), kept)
        && (kept == ToSave(problems) || s.disk.faults > old(s.disk.faults))
    {
      hide Holds, AllReal, Readable, TameFile;
      kept := [];
      ghost var a := s.Now();
      enabled := Close();
      if enabled {
        kept := SaveProblems(s.disk, Named(checkpointFile), problems);
      }
      assert forall j :: FileOf(s.Now(), j) == FileOf(a, j);
      assert s.Now().view == a.view;
    }
  }

  lemma TrimmedStays(name: string, before: string, after: string)
    requires Trimmed(before + name + after) && Trimmed(name)
    requires forall c :: c in before || c in after ==> IsSpace(c)
    ensures before + name + after == name
  {
  }

  // ---------- a crash and a restart ----------

  // Where the saved work is after a restart: in the in-buffer, each record once,
  // if the checkpoint was a Moo file or this build opened stock ones, and the
  // prefixes of the buffers differ; otherwise nowhere, the checkpoint having been
  // emptied all the same.
  ghost predicate Recovered(before: seq<seq<Record>>, saved: seq<Record>, readable: bool, after: seq<seq<Record>>)
    requires |before| >= BUFFERS && |after| >= BUFFERS
  {
    && (forall i :: 0 <= i < BUFFERS && i != HERE ==> after[i] == before[i])
    && if readable then multiset(after[HERE]) == multiset(before[HERE]) + multiset(saved)
       else after[HERE] == before[HERE]
  }

  // The work of a problem is in a record of unfinished RC5-72 work.
  ghost predicate HasWork(records: seq<Record>, state: Record) {
    exists r :: r in records && r[37] == 5 && r[20] == 0 && forall k :: 0 <= k < 20 ==> r[k] == state[k]
  }

  // So the work of every running RC5-72 problem is in the in-buffer again.
  lemma WorkRecovered(before: seq<seq<Record>>, problems: seq<Problem>, after: seq<seq<Record>>, i: nat)
    requires |before| >= BUFFERS && |after| >= BUFFERS && Recovered(before, ToSave(problems), true, after)
    requires i < |problems| && problems[i].Running? && problems[i].contest == 5
    ensures HasWork(after[10], problems[i].state)
  {
    hide RecordOf, ToSave, HasWork;
    var from := SavedInOrder(problems);
    var j: nat :| j < |from| && from[j] == i;
    var r := ToSave(problems)[j];
    InBoth(before[HERE], ToSave(problems), after[HERE], r);
    StateIsWork(problems[i], after[HERE]);
  }

  lemma InBoth(before: seq<Record>, saved: seq<Record>, after: seq<Record>, r: Record)
    requires multiset(after) == multiset(before) + multiset(saved) && r in saved
    ensures r in after
  {
    assert r in multiset(after);
  }

  lemma StateIsWork(p: Problem, records: seq<Record>)
    requires p.Running? && p.contest == 5 && RecordOf(p) in records
    ensures HasWork(records, p.state)
  {
    hide RecordOf;
    RecordIsState(p.contest, p.state, 20);
    RecordIsState(p.contest, p.state, 37);
    forall k | 0 <= k < 20
      ensures RecordOf(p)[k] == p.state[k]
    {
      RecordIsState(p.contest, p.state, k);
    }
  }

  lemma AllRecovered(before: seq<seq<Record>>, problems: seq<Problem>, after: seq<seq<Record>>)
    requires |before| >= BUFFERS && |after| >= BUFFERS && Recovered(before, ToSave(problems), true, after)
    ensures forall i :: 0 <= i < |problems| && problems[i].Running? && problems[i].contest == 5 ==>
      HasWork(after[HERE], problems[i].state)
  {
    hide Recovered, ToSave, HasWork;
    forall i | 0 <= i < |problems| && problems[i].Running? && problems[i].contest == 5
      ensures HasWork(after[HERE], problems[i].state)
    {
      WorkRecovered(before, problems, after, i);
    }
  }

  // A checkpoint just written, as the restarted client sees it.
  lemma FreshRestorable(t: Status, n: FileName, saved: seq<Record>, moo: bool)
    requires Coherent(t) && !t.mem
    requires Holds(t.disk.(mooMode := moo), n, moo, saved) && AllReal(saved) && Tame(t, 2 * |saved| + 1)
    ensures WideFormatted(t, n) && Restorable(t, n) && multiset(Source(t, n)) == multiset(saved)
    ensures forall r :: r in Source(t, n) ==> r in saved
  {
    hide Homogeneous, Readable, MooCount, Keepable;
    var f := Contents(t.disk, n);
    assert f == Contents(t.disk.(mooMode := moo), n);
    assert |Readable(f)| == |multiset(Readable(f))| == |multiset(saved)| == |saved|;
    forall r | r in Readable(f)
      ensures r in saved
    {
      assert r in multiset(Readable(f)) && r in multiset(saved);
    }
    TameLess(t, 2 * |saved| + 1, |saved| + 1);
    assert TameFile(FileOf(t, 0), 2 * |saved| + 1);
    assert TameFile(f, |saved| + 1);
  }

  lemma FreshArrives(t: Status, n: FileName, saved: seq<Record>, moo: bool)
    requires Coherent(t) && !t.mem && saved != []
    requires Holds(t.disk.(mooMode := moo), n, moo, saved) && AllReal(saved)
    requires forall r :: r in Source(t, n) ==> r in saved
    ensures IsHeader(Contents(t.disk, n)) <==> moo
    ensures !t.clash && (moo || !t.disk.refusesRemote) ==> Arrives(t, n)
    ensures AllWork(Source(t, n))
  {
    hide Homogeneous, Readable, MooCount;
    assert Contents(t.disk, n) == Contents(t.disk.(mooMode := moo), n);
  }

  // Saved work can only have gone to the in-buffer.
  lemma WorkIsHere(records: seq<Record>, saved: seq<Record>, i: nat)
    requires AllReal(saved) && (forall r :: r in records ==> r in saved) && i != HERE
    ensures !SomeAtHome(records, i)
  {
  }

  // Where the saved work is once the checkpoint was opened.
  lemma OpenRecovers(a: Status, n: FileName, saved: seq<Record>, moo: bool, imported: seq<Record>, toll: Toll,
                     c: Status)
    requires Coherent(a) && Coherent(c) && OpenOutcome(a, n, imported, toll, c)
    requires Apart(a, n) && !a.mem && toll.fits && c.faults == a.faults
    requires Holds(a.disk.(mooMode := moo), n, moo, saved) && AllReal(saved) && Tame(a, 2 * |saved| + 1)
    ensures Recovered(a.view, saved, !a.clash && (moo || !a.disk.refusesRemote), c.view)
  {
    hide Readable, Holds, AllReal, Tame, Accounted, Arrives, IsHeader, AllWork, SomeAtHome, Keepable, Restorable,
         Homogeneous;
    FreshRestorable(a, n, saved, moo);
    EmptyIsHomogeneous();
    forall i | 0 <= i < BUFFERS && i != HERE
      ensures c.view[i] == a.view[i]
    {
      WorkIsHere(imported, saved, i);
    }
    if saved == [] {
      assert Source(a, n) == [];
      NoneAtHome(HERE);
    } else {
      FreshArrives(a, n, saved, moo);
      if !a.clash && (moo || !a.disk.refusesRemote) {
        assert Source(a, n) == Source(a, n) + Source(c, n);
        GainedFromLast(Wide(a, n), Wide(c, n), HERE, Source(a, n));
      } else {
        NoneAtHome(HERE);
      }
    }
  }

  // And how many records that are.
  lemma OpenCounts(a: Status, n: FileName, saved: seq<Record>, moo: bool, imported: seq<Record>, toll: Toll, c: Status)
    requires Coherent(a) && Coherent(c) && OpenOutcome(a, n, imported, toll, c) && saved != []
    requires Apart(a, n) && !a.mem && toll.fits && c.faults == a.faults
    requires Holds(a.disk.(mooMode := moo), n, moo, saved) && AllReal(saved) && Tame(a, 2 * |saved| + 1)
    ensures n in a.disk.files && |imported| == if !a.clash && (moo || !a.disk.refusesRemote) then |saved| else 0
  {
    hide Readable, Holds, AllReal, Tame, Accounted, Arrives, IsHeader, AllWork, SomeAtHome, Keepable, Restorable,
         Homogeneous;
    FreshRestorable(a, n, saved, moo);
    FreshArrives(a, n, saved, moo);
    assert |multiset(Source(a, n))| == |multiset(saved)|;
    assert |Source(a, n)| == |saved|;
    NothingSaved();
  }

  lemma NothingSaved()
    ensures Readable([]) == []
  {
    EmptyIsHomogeneous();
  }

  lemma NoneAtHome(i: nat)
    ensures !SomeAtHome([], i)
  {
  }

  // Only the files survive a restart; the sticky Moo flag starts out off.
  method Restart(c: Checkpoints, ghost puts: nat) returns (t: Checkpoints)
    requires c.s.Valid() && !c.s.nodiskbuffers
    ensures t.s.Valid() && fresh(t) && fresh(t.s) && fresh(t.s.disk)
    ensures forall i :: 0 <= i < |t.s.membufftable| ==> fresh(t.s.membufftable[i])
    ensures !t.s.nodiskbuffers && t.s.prefixesClash == c.s.prefixesClash && t.checkpointFile == c.checkpointFile
    ensures t.s.disk.State() == c.s.disk.State().(mooMode := false) && t.s.Now().faults == 0
    ensures t.s.Now().view == c.s.Now().view
    ensures Tame(c.s.Now(), puts) ==> Tame(t.s.Now(), puts)
  {
    hide Readable, TameFile;
    var disk := new BufferDisk(c.s.disk.files, c.s.disk.refusesRemote);
    var store := new BufferStore(false, c.s.prefixesClash, disk);
    t := new Checkpoints(store, c.checkpointFile);
    assert forall j :: FileOf(t.s.Now(), j) == FileOf(c.s.Now(), j);
    assert t.s.Now().view == c.s.Now().view;
  }

  // REFRESH, a crash and OPEN.
  method CrashAndRecover(c: Checkpoints, problems: seq<Problem>)
    returns (t: Checkpoints, recovered: int, ghost kept: seq<Record>, ghost toll: Toll)
    requires c.s.Valid() && !c.s.nodiskbuffers
    requires Trimmed(c.checkpointFile) && Enabled(false, c.checkpointFile)
    requires AllReal(ToSave(problems)) && Tame(c.s.Now(), 2 * |ToSave(problems)| + 1)
    modifies c, c.s.disk
    ensures t.s.Valid() && fresh(t) && fresh(t.s) && fresh(t.s.disk)
    ensures Contents(t.s.disk.State(), Named(t.checkpointFile)) == []
    // without I/O errors: all saved work is in the in-buffer once, or gone,
    // according to the format the checkpoint was written in
    ensures c.s.disk.faults == old(c.s.disk.faults) && t.s.Now().faults == 0 ==>
      var readable := !c.s.prefixesClash && (old(c.s.disk.mooOutputMode) || !c.s.disk.refusesRemote);
      && Recovered(old(c.s.Now().view), ToSave(problems), readable, t.s.Now().view)
      && (readable ==> forall i :: 0 <= i < |problems| && problems[i].Running? && problems[i].contest == 5 ==>
            HasWork(t.s.Now().view[HERE], problems[i].state))
      && (ToSave(problems) != [] ==> recovered == if readable then |ToSave(problems)| else 0)
  {
    hide Holds, AllReal, Tame, Recovered, OpenOutcome, Restorable, Coherent, HasWork, BufferStore.Valid,
         BufferStore.Held;
    ghost var saved, moo := ToSave(problems), c.s.disk.mooOutputMode;
    var n := Named(c.checkpointFile);
    var enabled;
    enabled, kept := c.Refresh(problems, 2 * |saved| + 1);
    t := Restart(c, 2 * |saved| + 1);
    ghost var intact := kept == saved;
    var again := t.Prepare();
    ghost var a := t.s.Now();
    if intact {
      SameDisk(c.s.disk.State(), a.disk, n, moo, saved);
      FreshRestorable(a, n, saved, moo);
    }
    ghost var imported;
    recovered, imported, toll := Open(t.s, n);
    OpenEmpties(a, n, imported, toll, t.s.Now());
    if intact && t.s.Now().faults == 0 && saved != [] {
      OpenCounts(a, n, saved, moo, imported, toll, t.s.Now());
    }
    if intact && t.s.Now().faults == 0 {
      OpenRecovers(a, n, saved, moo, imported, toll, t.s.Now());
      if !a.clash && (moo || !a.disk.refusesRemote) {
        AllRecovered(a.view, problems, t.s.Now().view);
      }
    }
  }

  lemma OpenEmpties(a: Status, n: FileName, imported: seq<Record>, toll: Toll, c: Status)
    requires Coherent(a) && Coherent(c) && OpenOutcome(a, n, imported, toll, c)
    ensures Contents(c.disk, n) == []
  {
  }

  lemma SameDisk(d: Disk, e: Disk, n: FileName, moo: bool, saved: seq<Record>)
    requires Holds(d, n, moo, saved) && e == d.(mooMode := false)
    ensures Holds(e.(mooMode := moo), n, moo, saved) && Contents(e, n) == Contents(d, n)
  {
    assert e.(mooMode := moo) == d;
  }
}
