/**
 Moving records between a client's buffers and another file (buffbase.cpp):
 import, fetch and flush.  The accounts are kept over the client's fourteen
 buffers and the other file together; if the other file is one of the client's
 own buffers, over the fourteen.
 */
module Transfers {
  import opened Moo521
  import opened WorkRecords
  import opened BufferFiles
  import opened BufferDisk
  import opened BufferRuns
  import opened MemBuffer
  import opened Routing
  import opened FileSteps
  import opened BufferStore
  import opened CrossSave

  // MAX_REMOTE_BUFFER_WARNINGS
  const MAX_WARNINGS := 3

  // Where a file stands in the wide view: with the buffers, or after them.
  function Place(a: Status, n: FileName): (p: nat)
    ensures p <= BUFFERS
    ensures p < BUFFERS <==> !a.mem && n.Local? && n.contest < CONTEST_COUNT
    ensures p < BUFFERS ==> LocalOf(p) == n
  {
    if !a.mem && n.Local? && n.contest < CONTEST_COUNT then SlotFor(n.contest, n.out) else BUFFERS
  }

  lemma PlaceOf(a: Status, n: FileName, i: nat)
    requires i < BUFFERS && !a.mem && LocalOf(i) == n
    ensures Place(a, n) == i
  {
    assert i / 2 == n.contest;
  }

  // The other file is not one of the client's buffers.
  predicate Apart(a: Status, n: FileName) {
    Place(a, n) == BUFFERS
  }

  ghost function Wide(a: Status, n: FileName): (view: seq<seq<Record>>)
    requires Coherent(a)
    ensures |view| == if Apart(a, n) then BUFFERS + 1 else BUFFERS
    ensures forall i :: 0 <= i < BUFFERS ==> view[i] == a.view[i]
    ensures view[Place(a, n)] == Readable(Contents(a.disk, n))
  {
    if Apart(a, n) then a.view + [Readable(Contents(a.disk, n))] else a.view
  }

  ghost predicate WideFormatted(a: Status, n: FileName) {
    Formatted(a) && Homogeneous(Contents(a.disk, n))
  }

  ghost predicate WideTame(a: Status, n: FileName, puts: nat) {
    Tame(a, puts) && TameFile(Contents(a.disk, n), puts)
  }

  lemma WideTameLess(a: Status, n: FileName, more: nat, puts: nat)
    requires WideTame(a, n, more) && puts <= more
    ensures WideTame(a, n, puts) && WideFormatted(a, n)
  {
    TameLess(a, more, puts);
  }

  // All records are accounted for if formats were kept.
  ghost predicate WideBalanced(a: Status, n: FileName, toll: Toll, handed: seq<Record>, b: Status)
    requires Coherent(a) && Coherent(b)
  {
    toll.fits && WideFormatted(a, n) ==>
      WideFormatted(b, n) && Accounted(Wide(a, n), Wide(b, n), toll.dropped, handed, toll.forgot)
  }

  lemma WideBalancedNext(a: Status, n: FileName, t: Toll, b: Status, u: Toll, handed: seq<Record>, c: Status)
    requires Coherent(a) && Coherent(b) && Coherent(c)
    requires WideBalanced(a, n, t, [], b) && WideBalanced(b, n, u, handed, c)
    ensures WideBalanced(a, n, Plus(t, u), handed, c)
  {
    hide Accounted, WideFormatted, Wide, Coherent;
    if t.fits && u.fits && WideFormatted(a, n) {
      AccountChain(Wide(a, n), Wide(b, n), Wide(c, n), t.dropped, [], t.forgot, u.dropped, handed, u.forgot);
      assert [] + handed == handed;
    }
  }

  lemma NothingBalanced(a: Status, n: FileName)
    requires Coherent(a)
    ensures WideBalanced(a, n, FREE, [], a)
  {
    NothingAccounted(Wide(a, n));
  }

  // ---------- a step on the other file ----------

  // Only file n and the buffer it may be changed.
  ghost predicate Beside(a: Status, n: FileName, b: Status)
    requires Coherent(a) && Coherent(b)
  {
    && SameKind(a, b)
    && (forall m :: m != n ==> Contents(b.disk, m) == Contents(a.disk, m))
    && (forall i :: 0 <= i < BUFFERS && i != Place(a, n) ==> b.view[i] == a.view[i])
  }

  lemma OnlyFileBeside(a: Status, n: FileName, b: Status)
    requires Coherent(a) && Coherent(b) && SameKind(a, b) && OnlyFile(a, n, b)
    ensures Beside(a, n, b) && Place(b, n) == Place(a, n)
  {
    hide Readable;
    forall i | 0 <= i < BUFFERS && i != Place(a, n)
      ensures b.view[i] == a.view[i]
    {
      if !a.mem && LocalOf(i) == n {
        PlaceOf(a, n, i);
      }
    }
  }

  lemma BesideFormatted(a: Status, n: FileName, b: Status)
    requires Coherent(a) && Coherent(b) && Beside(a, n, b) && WideFormatted(a, n) && Homogeneous(Contents(b.disk, n))
    ensures WideFormatted(b, n)
  {
    hide Homogeneous;
    assert !a.mem ==> forall j :: 0 <= j < BUFFERS ==> Homogeneous(FileOf(a, j));
  }

  lemma BesideTame(a: Status, n: FileName, b: Status, more: nat, puts: nat)
    requires Coherent(a) && Coherent(b) && Beside(a, n, b) && WideTame(a, n, more) && puts <= more
    requires TameFile(Contents(b.disk, n), puts)
    ensures WideTame(b, n, puts)
  {
    hide TameFile;
    if !a.mem {
      forall j | 0 <= j < BUFFERS
        ensures TameFile(FileOf(b, j), puts)
      {
        FileSteps.TameFewer(FileOf(a, j), more, puts);
      }
    }
  }

  // BufferGetFileRecord with the remote flag.
  ghost predicate RemoteTook(a: Status, n: FileName, rc: int, data: Record, count: nat, b: Status)
    requires Coherent(a) && Coherent(b)
  {
    var f := Contents(a.disk, n);
    && Beside(a, n, b) && Place(b, n) == Place(a, n)
    && FileTook(Refused(a.disk.refusesRemote, true, f), f, rc, data, count, Contents(b.disk, n), a.faults < b.faults)
    && b.disk.mooMode == Sniff(a.disk, n).mooMode
    && WideBalanced(a, n, FREE, if rc == 0 then [data] else [], b)
  }

  lemma GetMeansTook(a: Status, n: FileName, rc: int, data: Record, count: nat, b: Status)
    requires Coherent(a) && Coherent(b) && GetMeans(a, n, true, rc, data, count, b)
    ensures RemoteTook(a, n, rc, data, count, b)
  {
    hide Readable, FileGot, FileTook, Accounted, Homogeneous;
    var f, g := Contents(a.disk, n), Contents(b.disk, n);
    GotMeansTook(Refused(a.disk.refusesRemote, true, f), f, rc, data, count, g, a.faults < b.faults);
    OnlyFileBeside(a, n, b);
    TookReadable(Refused(a.disk.refusesRemote, true, f), f, rc, data, count, g, a.faults < b.faults);
    if WideFormatted(a, n) {
      BesideFormatted(a, n, b);
    }
    if rc == 0 {
      PopAccounted(Wide(a, n), Place(a, n), data, Wide(b, n));
    } else {
      assert Wide(b, n) == Wide(a, n);
      NothingAccounted(Wide(a, n));
    }
  }

  lemma TookReadable(refused: bool, f: File, rc: int, data: Record, count: nat, g: File, faulty: bool)
    requires FileTook(refused, f, rc, data, count, g, faulty)
    ensures if rc == 0 then Readable(f) == [data] + Readable(g) else Readable(g) == Readable(f)
    ensures Homogeneous(f) ==> Homogeneous(g)
  {
    EmptyIsHomogeneous();
  }

  lemma TookTame(a: Status, n: FileName, rc: int, data: Record, count: nat, b: Status, puts: nat)
    requires Coherent(a) && Coherent(b) && RemoteTook(a, n, rc, data, count, b) && WideTame(a, n, puts)
    ensures WideTame(b, n, puts)
    ensures rc == 0 && Routable(data) ==> data[0] < 0x100 && Keepable(data)
  {
    hide FileTook, TameFile, WideBalanced;
    var f := Contents(a.disk, n);
    TameGot(Refused(a.disk.refusesRemote, true, f), f, rc, data, count, Contents(b.disk, n), a.faults < b.faults, puts);
    TookKeepable(Refused(a.disk.refusesRemote, true, f), f, rc, data, count, Contents(b.disk, n), a.faults < b.faults);
    BesideTame(a, n, b, puts, puts);
  }

  lemma TookKeepable(refused: bool, f: File, rc: int, data: Record, count: nat, g: File, faulty: bool)
    requires FileTook(refused, f, rc, data, count, g, faulty)
    ensures rc == 0 && Routable(data) ==> Keepable(data)
  {
  }

  // BufferPutFileRecord of r on the other file.
  ghost function GivingToll(a: Status, n: FileName, r: Record): Toll {
    var mode, f := Sniff(a.disk, n).mooMode, Contents(a.disk, n);
    Toll([], Forgets(mode, f, r), Suits(mode, f, r, false))
  }

  ghost predicate RemoteGave(a: Status, n: FileName, r: Record, remote: bool, rc: int, b: Status)
    requires Coherent(a) && Coherent(b)
  {
    var mode, f, g := Sniff(a.disk, n).mooMode, Contents(a.disk, n), Contents(b.disk, n);
    && (rc == 0 || rc == -1)
    && Beside(a, n, b) && Place(b, n) == Place(a, n) && b.disk.mooMode == mode
    && (rc == -1 ==> g == f && b.view == a.view && Wide(b, n) == Wide(a, n))
    && (rc == -1 && b.faults == a.faults && Homogeneous(f) ==> remote && a.disk.refusesRemote && !UsesMoo(mode, f))
    && (rc == 0 ==> b.faults == a.faults && g == PutFile(mode, f, r, false).file)
    && (rc == 0 ==> UsesMoo(mode, f) || !(remote && a.disk.refusesRemote))
    && (UsesMoo(mode, f) && rc == 0 ==> IsHeader(g))
    && (rc == -1 && WideFormatted(a, n) ==> WideFormatted(b, n))
    && (rc == 0 && GivingToll(a, n, r).fits && WideFormatted(a, n) ==>
          WideFormatted(b, n) && Entered(Wide(a, n), r, Wide(b, n), GivingToll(a, n, r).forgot))
  }

  lemma PutMeansGave(a: Status, n: FileName, r: Record, remote: bool, rc: int, count: nat, b: Status)
    requires Coherent(a) && Coherent(b) && PutMeans(a, n, r, false, remote, rc, count, b)
    ensures RemoteGave(a, n, r, remote, rc, b)
  {
    hide Readable, PutFile, Entered, Homogeneous, Suits, Forgets, LandsAs, UsesMoo;
    var mode, f, g := Sniff(a.disk, n).mooMode, Contents(a.disk, n), Contents(b.disk, n);
    OnlyFileBeside(a, n, b);
    LocalAccepts(mode, f);
    if rc == -1 {
      RefusedGave(a, n, r, remote, count, b);
    } else {
      PutHeaders(mode, f, r, false);
      if Suits(mode, f, r, false) && WideFormatted(a, n) {
        SuitsLands(mode, f, r, false);
        PutGains(mode, f, r, false);
        BesideFormatted(a, n, b);
        PushEntered(Wide(a, n), Place(a, n), r, LandsAs(mode, f, r), Wide(b, n));
      }
    }
  }

  lemma RefusedGave(a: Status, n: FileName, r: Record, remote: bool, count: nat, b: Status)
    requires Coherent(a) && Coherent(b) && PutMeans(a, n, r, false, remote, -1, count, b)
    ensures RemoteGave(a, n, r, remote, -1, b)
  {
    hide Readable, PutFile, Entered, Homogeneous, Suits, Forgets, LandsAs, UsesMoo;
    OnlyFileBeside(a, n, b);
    LocalAccepts(Sniff(a.disk, n).mooMode, Contents(a.disk, n));
    if Place(a, n) < BUFFERS {
      assert b.view[Place(a, n)] == a.view[Place(a, n)];
    }
    assert b.view == a.view;
    if WideFormatted(a, n) {
      BesideFormatted(a, n, b);
    }
  }

  lemma SuitsLands(mode: bool, f: File, r: Record, w: bool)
    requires Suits(mode, f, r, w)
    ensures LandsAs(mode, f, r) == r || LandsAs(mode, f, r) == Forced(r)
    ensures Forgets(mode, f, r) == ForgottenIn(r, LandsAs(mode, f, r))
  {
  }

  lemma GaveTame(a: Status, n: FileName, r: Record, remote: bool, rc: int, b: Status, puts: nat)
    requires Coherent(a) && Coherent(b) && RemoteGave(a, n, r, remote, rc, b)
    requires WideTame(a, n, puts + 1) && Keepable(r) && r[0] < 0x100
    ensures GivingToll(a, n, r).fits && WideTame(b, n, puts)
  {
    hide TameFile, PutFile, Suits, Entered, UsesMoo, Readable;
    var mode, f := Sniff(a.disk, n).mooMode, Contents(a.disk, n);
    TamePut(mode, f, r, false, puts);
    FileSteps.TameFewer(f, puts + 1, puts);
    BesideTame(a, n, b, puts + 1, puts);
  }

  // ---------- PutBufferRecord in the wide view ----------

  // What storing r costs, if it is stored.
  ghost function StoringToll(a: Status, r: Record): Toll
    requires Routable(r)
  {
    Toll([], Forgetting(a, HomeOf(r), r), Welcome(a, HomeOf(r), r, true))
  }

  ghost predicate StoreMeans(a: Status, n: FileName, r: Record, rc: int, b: Status)
    requires Coherent(a) && Coherent(b)
  {
    && (rc == -1 || rc >= 1) && SameKind(a, b) && Place(b, n) == Place(a, n)
    && (rc == -1 ==> b.view == a.view && forall m :: Contents(b.disk, m) == Contents(a.disk, m))
    && (rc == -1 && Formatted(a) && b.faults == a.faults && Routable(r) ==>
          if a.mem then |a.view[HomeOf(r)]| == COUNT_MAX else a.clash)
    && (rc >= 1 ==> Routable(r) && StoreGains(a, n, r, HomeOf(r), rc, b))
  }

  // r is in its home h now, which is the only thing that changed.
  ghost predicate StoreGains(a: Status, n: FileName, r: Record, h: nat, rc: nat, b: Status)
    requires Coherent(a) && Coherent(b) && Routable(r) && h == HomeOf(r)
  {
    && (a.mem || !a.clash) && b.faults == a.faults
    && (forall i :: 0 <= i < BUFFERS && i != h ==> b.view[i] == a.view[i])
    && (forall m :: a.mem || m != LocalOf(h) ==> Contents(b.disk, m) == Contents(a.disk, m))
    && (a.mem ==> |a.view[h]| < COUNT_MAX && b.view[h] == a.view[h] + [r] && rc == |b.view[h]|)
    && (!a.mem ==> FileOf(b, h) == PutOn(a.disk, LocalOf(h), r, true).file)
    && (!a.mem ==> rc == PutOn(a.disk, LocalOf(h), r, true).count)
    && (!a.mem && IsHeader(FileOf(a, h)) ==> IsHeader(FileOf(b, h)))
    && (StoringToll(a, r).forgot != [] ==> !a.mem && r[RESULTCODE] != RESULT_WORKING && IsHeader(FileOf(b, h)))
    && (StoringToll(a, r).fits && WideFormatted(a, n) ==>
          WideFormatted(b, n) && Entered(Wide(a, n), r, Wide(b, n), StoringToll(a, r).forgot))
  }

  lemma StoredMeans(a: Status, n: FileName, r: Record, rc: int, b: Status)
    requires Coherent(a) && Coherent(b) && Stored(a, r, rc, b) && (!a.mem && Routable(r) ==> Keepable(r))
    ensures StoreMeans(a, n, r, rc, b)
  {
    hide Readable, Entered, Homogeneous, PushMeans, Welcome, Forgetting, IsHeader, PutFile, Wide;
    if Routable(r) && (a.mem || !a.clash) {
      var h := HomeOf(r);
      PushMeansPushed(a, h, r, true, if rc < 0 then -1 else 0, if rc < 0 then 0 else rc, b);
      PushDetails(a, h, r, true, if rc < 0 then -1 else 0, if rc < 0 then 0 else rc, b);
      if rc < 0 {
        assert b.view == a.view;
      } else if StoringToll(a, r).fits && WideFormatted(a, n) {
        StoredWide(a, n, h, r, b);
      }
    }
  }

  lemma PushDetails(a: Status, i: nat, r: Record, w: bool, rc: int, count: nat, b: Status)
    requires Coherent(a) && i < BUFFERS && PushMeans(a, i, r, w, rc, count, b)
    ensures forall m :: a.mem || rc == -1 || m != LocalOf(i) ==> Contents(b.disk, m) == Contents(a.disk, m)
    ensures rc == 0 && a.mem ==> count == |a.view[i]| + 1
    ensures rc == 0 && !a.mem ==> FileOf(b, i) == PutOn(a.disk, LocalOf(i), r, w).file
    ensures rc == 0 && !a.mem && w ==> count == PutOn(a.disk, LocalOf(i), r, w).count
    ensures a.mem ==> Forgetting(a, i, r) == []
  {
    hide PutFile, Readable;
  }

  lemma StoredWide(a: Status, n: FileName, h: nat, r: Record, b: Status)
    requires Coherent(a) && Coherent(b) && Routable(r) && h == HomeOf(r) && Pushed(a, h, r, true, 0, b)
    requires forall m :: a.mem || m != LocalOf(h) ==> Contents(b.disk, m) == Contents(a.disk, m)
    requires Welcome(a, h, r, true) && WideFormatted(a, n)
    ensures WideFormatted(b, n) && Entered(Wide(a, n), r, Wide(b, n), Forgetting(a, h, r))
  {
    hide Readable, Entered, Homogeneous, Welcome, Forgetting, IsHeader, Elsewhere;
    if Apart(a, n) {
      if !a.mem && n == LocalOf(h) {
        PlaceOf(a, n, h);
      }
      EnteredBeside(a.view, r, b.view, Readable(Contents(a.disk, n)), Forgetting(a, h, r));
    } else {
      assert FileOf(b, Place(a, n)) == Contents(b.disk, n);
    }
  }

  lemma StoreTame(a: Status, n: FileName, r: Record, rc: int, b: Status, puts: nat)
    requires Coherent(a) && Coherent(b) && StoreMeans(a, n, r, rc, b) && WideTame(a, n, puts + 1)
    requires Routable(r) && (a.mem || (Keepable(r) && r[0] < 0x100))
    ensures rc >= 1 ==> StoringToll(a, r).fits
    ensures WideTame(b, n, puts)
  {
    hide TameFile, PutFile, Readable, Entered, Suits, Forgetting;
    var h := HomeOf(r);
    WideTameLess(a, n, puts + 1, puts);
    if !a.mem {
      var mode, f := Sniff(a.disk, LocalOf(h)).mooMode, FileOf(a, h);
      TamePut(mode, f, r, true, puts);
      forall m | Contents(b.disk, m) == Contents(a.disk, m) && TameFile(Contents(a.disk, m), puts + 1)
        ensures TameFile(Contents(b.disk, m), puts)
      {
        FileSteps.TameFewer(Contents(a.disk, m), puts + 1, puts);
      }
      if rc >= 1 {
        assert TameFile(FileOf(b, h), puts);
      }
    }
  }

  // ---------- saving a record or putting it back ----------

  datatype Saving = Kept(count: nat) | Returned | Lost

  // r came in, if formats were kept.
  ghost predicate Entering(a: Status, n: FileName, r: Record, toll: Toll, b: Status)
    requires Coherent(a) && Coherent(b)
  {
    toll.fits && WideFormatted(a, n) ==> WideFormatted(b, n) && Entered(Wide(a, n), r, Wide(b, n), toll.forgot)
  }

  ghost predicate SaveMeans(a: Status, n: FileName, r: Record, remote: bool, saving: Saving, toll: Toll, b: Status)
    requires Coherent(a) && Coherent(b)
  {
    var f, g := Contents(a.disk, n), Contents(b.disk, n);
    && SameKind(a, b) && Place(b, n) == Place(a, n)
    // saved in its own buffer
    && (saving.Kept? ==> saving.count >= 1 && StoreMeans(a, n, r, saving.count, b) && toll == StoringToll(a, r))
    // or that was impossible
    && (!saving.Kept? ==> Beside(a, n, b))
    && (!saving.Kept? && Formatted(a) && b.faults == a.faults && Routable(r) ==>
          if a.mem then |a.view[HomeOf(r)]| == COUNT_MAX else a.clash)
    // and it went back to where it came from
    && (saving.Returned? ==>
          && toll.dropped == [] && (toll.forgot == [] || toll.forgot == [r])
          && (Keepable(r) && r[RESULTCODE] == RESULT_WORKING ==> toll.forgot == [])
          && (toll.forgot != [] || IsHeader(f) ==> IsHeader(g) || !toll.fits)
          && Entering(a, n, r, toll, b))
    // or that was impossible too
    && (saving.Lost? ==>
          && toll == Toll([r], [], true) && g == f && b.view == a.view
          && (Homogeneous(f) && b.faults == a.faults ==> remote && a.disk.refusesRemote && !IsHeader(f))
          && (WideFormatted(a, n) ==> WideFormatted(b, n)))
  }

  // A status in which all records are where they were.
  lemma SameRecords(a: Status, n: FileName, b: Status)
    requires Coherent(a) && Coherent(b) && SameKind(a, b) && b.view == a.view
    requires forall m :: Contents(b.disk, m) == Contents(a.disk, m)
    ensures Place(b, n) == Place(a, n) && Wide(b, n) == Wide(a, n)
    ensures WideFormatted(a, n) <==> WideFormatted(b, n)
    ensures Beside(a, n, b)
    ensures forall puts: nat :: WideTame(a, n, puts) <==> WideTame(b, n, puts)
  {
    hide Homogeneous, TameFile, Readable;
    assert forall j :: FileOf(b, j) == FileOf(a, j);
  }

  lemma ReturnMeans(a: Status, n: FileName, r: Record, remote: bool, b: Status, rc: int, c: Status)
    requires Coherent(a) && Coherent(b) && Coherent(c)
    requires StoreMeans(a, n, r, -1, b) && RemoteGave(b, n, r, remote, rc, c)
    ensures SaveMeans(a, n, r, remote, if rc == 0 then Returned else Lost,
                      if rc == 0 then GivingToll(b, n, r) else Toll([r], [], true), c)
  {
    hide Readable, Entered, Homogeneous, Suits, LandsAs, PutFile, Formatted;
    SameRecords(a, n, b);
    if rc == 0 {
      ReturnFormats(a, n, r, remote, b, rc, c);
    }
    FormattedAlike(a, b);
  }

  lemma FormattedAlike(a: Status, b: Status)
    requires b.mem == a.mem && forall m :: Contents(b.disk, m) == Contents(a.disk, m)
    ensures Formatted(a) <==> Formatted(b)
  {
    hide Homogeneous;
    assert forall j :: FileOf(b, j) == FileOf(a, j);
  }

  lemma ReturnFormats(a: Status, n: FileName, r: Record, remote: bool, b: Status, rc: int, c: Status)
    requires Coherent(a) && Coherent(b) && Coherent(c)
    requires StoreMeans(a, n, r, -1, b) && RemoteGave(b, n, r, remote, rc, c) && rc == 0
    ensures GivingToll(b, n, r).forgot != [] || IsHeader(Contents(a.disk, n)) ==>
      IsHeader(Contents(c.disk, n)) || !GivingToll(b, n, r).fits
    ensures Keepable(r) && r[RESULTCODE] == RESULT_WORKING ==> GivingToll(b, n, r).forgot == []
  {
    if Keepable(r) {
      KeepableLands(Sniff(b.disk, n).mooMode, Contents(b.disk, n), r);
    }
    hide Readable, Entered, Homogeneous, PutFile, PutKeepsFormat, MooRead, MooImage;
  }

  // What both transfers into the buffers do with a record from file n: save it
  // in its own buffer or else put it back where it came from.
  method SaveOrReturn(s: BufferStore, n: FileName, r: Record, remote: bool, ghost puts: nat)
    returns (saving: Saving, ghost toll: Toll)
    requires s.Valid() && (Routable(r) ==> Keepable(r))
    modifies s, s.disk, s.membufftable
    ensures s.Valid() && SaveMeans(old(s.Now()), n, r, remote, saving, toll, s.Now())
    ensures old(WideTame(s.Now(), n, puts + 2)) && (Routable(r) ==> r[0] < 0x100) && (saving.Kept? || Routable(r)) ==>
      toll.fits && WideTame(s.Now(), n, if saving.Kept? then puts + 1 else puts)
  {
    hide Coherent, Stored, StoreMeans, RemoteGave, SaveMeans, WideTame, PutMeans, BufferStore.Now, BufferStore.Valid,
         BufferStore.Held, Routable, Keepable;
    ghost var a := s.Now();
    ghost var tame := WideTame(a, n, puts + 2) && (Routable(r) ==> r[0] < 0x100);
    var count := s.PutBufferRecord(r);
    ghost var b := s.Now();
    StoredMeans(a, n, r, count, b);
    if tame && Routable(r) {
      StoreTame(a, n, r, count, b, puts + 1);
    }
    StoreCounts(a, n, r, count, b);
    if count > 0 {
      saving, toll := Kept(count), StoringToll(a, r);
      KeptMeans(a, n, r, remote, count, b);
      return;
    }
    var back, ignored := s.PutFileRecord(n, r, false, remote);
    ghost var c := s.Now();
    PutMeansGave(b, n, r, remote, back, ignored, c);
    ReturnMeans(a, n, r, remote, b, back, c);
    saving := if back == 0 then Returned else Lost;
    toll := if back == 0 then GivingToll(b, n, r) else Toll([r], [], true);
    if tame && Routable(r) {
      GaveTame(b, n, r, remote, back, c, puts);
    }
  }

  lemma StoreCounts(a: Status, n: FileName, r: Record, rc: int, b: Status)
    requires Coherent(a) && Coherent(b) && StoreMeans(a, n, r, rc, b)
    ensures rc == -1 || (rc >= 1 && Routable(r))
  {
  }

  lemma KeptMeans(a: Status, n: FileName, r: Record, remote: bool, rc: nat, b: Status)
    requires Coherent(a) && Coherent(b) && StoreMeans(a, n, r, rc, b) && rc >= 1
    ensures SaveMeans(a, n, r, remote, Kept(rc), StoringToll(a, r), b)
  {
    hide StoreGains;
  }

  // A record just taken and then saved, put back or lost is accounted for.
  lemma MoveBalanced(a: Status, n: FileName, r: Record, remote: bool, b: Status, saving: Saving, toll: Toll, c: Status)
    requires Coherent(a) && Coherent(b) && Coherent(c)
    requires WideBalanced(a, n, FREE, [r], b) && SaveMeans(b, n, r, remote, saving, toll, c)
    ensures WideBalanced(a, n, toll, [], c)
  {
    hide Accounted, Entered, WideFormatted, Coherent, Readable, Homogeneous, IsHeader, Wide, PutFile;
    if toll.fits && WideFormatted(a, n) {
      if saving.Lost? {
        SameWide(b, n, c);
      }
      AccountMove(Wide(a, n), Wide(b, n), Wide(c, n), r, toll.forgot);
    }
  }

  lemma SameWide(a: Status, n: FileName, b: Status)
    requires Coherent(a) && Coherent(b) && b.view == a.view && Contents(b.disk, n) == Contents(a.disk, n)
    requires Place(b, n) == Place(a, n)
    ensures Wide(b, n) == Wide(a, n)
  {
    hide Readable;
  }

  // A record just taken and given up.
  lemma GiveUpBalanced(a: Status, n: FileName, r: Record, b: Status)
    requires Coherent(a) && Coherent(b) && WideBalanced(a, n, FREE, [r], b)
    ensures WideBalanced(a, n, Toll([r], [], true), [], b)
  {
    hide Accounted, WideFormatted, Wide, Coherent;
    if WideFormatted(a, n) {
      AccountMove(Wide(a, n), Wide(b, n), Wide(b, n), r, []);
    }
  }
}
