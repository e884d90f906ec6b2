/**
 PutBufferRecord and GetBufferRecord (buffbase.cpp) over all fourteen buffers of
 a client, kept either in memory or in files.  What the methods do is stated
 between two values, the status before and after; what it means is in lemmas.
 */
module BufferStore {
  import opened WorkRecords
  import opened BufferFiles
  import opened BufferDisk
  import opened BufferRuns
  import opened MemBuffer
  import opened Routing
  import opened FileSteps

  // All that an operation on the buffers can see and change: whether they are
  // in memory, whether the file name prefixes clash, the records each would
  // hand out, the files, the number of errors so far, and the capacity the stack
  // of the RC5-72 in-buffer has grown to.
  datatype Status = Status(mem: bool, clash: bool, view: seq<seq<Record>>, disk: Disk, faults: nat, capacity: nat)

  function FileOf(a: Status, i: nat): File {
    Contents(a.disk, LocalOf(i))
  }

  // The view is that of the buffers in use.
  ghost predicate Coherent(a: Status) {
    && |a.view| == BUFFERS
    && (a.mem ==> forall j :: 0 <= j < BUFFERS ==> |a.view[j]| <= COUNT_MAX)
    && (a.mem ==> |a.view[HERE]| <= a.capacity <= COUNT_MAX && a.capacity % STEPS == 0)
    && (!a.mem ==> forall j :: 0 <= j < BUFFERS ==> a.view[j] == Readable(FileOf(a, j)))
  }

  // The files that are buffers are each of a single format.
  ghost predicate Formatted(a: Status) {
    a.mem || forall j :: 0 <= j < BUFFERS ==> Homogeneous(FileOf(a, j))
  }

  ghost predicate Tame(a: Status, puts: nat) {
    a.mem || forall j :: 0 <= j < BUFFERS ==> TameFile(FileOf(a, j), puts)
  }

  lemma TameLess(a: Status, more: nat, puts: nat)
    requires Tame(a, more) && puts <= more
    ensures Tame(a, puts) && Formatted(a)
  {
  }

  // Every record is in the buffer named by its own contest and result.
  ghost predicate AllHome(view: seq<seq<Record>>) {
    forall i, r :: 0 <= i < |view| && r in view[i] ==> AtHome(r, i)
  }

  ghost predicate SameKind(a: Status, b: Status) {
    && b.mem == a.mem && b.clash == a.clash && b.disk.refusesRemote == a.disk.refusesRemote
    && a.faults <= b.faults && a.capacity <= b.capacity
  }

  // All files but n are as they were, and the flag knows of n.
  ghost predicate OnlyFile(a: Status, n: FileName, b: Status) {
    && (forall m :: m != n ==> Contents(b.disk, m) == Contents(a.disk, m))
    && b.disk.mooMode == Sniff(a.disk, n).mooMode
    && (a.mem ==> b.view == a.view) && b.capacity == a.capacity
  }

  // BufferGetFileRecord on file n.
  ghost predicate GetMeans(a: Status, n: FileName, remote: bool, rc: int, data: Record, count: nat, b: Status) {
    && SameKind(a, b) && OnlyFile(a, n, b)
    && FileGot(Refused(a.disk.refusesRemote, remote, Contents(a.disk, n)), Contents(a.disk, n), rc, data, count,
               Contents(b.disk, n), a.faults < b.faults)
  }

  // BufferPutFileRecord on file n.
  ghost predicate PutMeans(a: Status, n: FileName, r: Record, w: bool, remote: bool, rc: int, count: nat, b: Status) {
    && SameKind(a, b) && OnlyFile(a, n, b)
    && FilePut(remote && a.disk.refusesRemote, Sniff(a.disk, n).mooMode, Contents(a.disk, n), r, w, rc, count,
               Contents(b.disk, n), a.faults < b.faults)
  }

  // Taking a record from buffer i: the last one pushed on a stack.
  ghost predicate PopMeans(a: Status, i: nat, rc: int, data: Record, count: nat, b: Status)
    requires Coherent(a) && i < BUFFERS
  {
    if !a.mem then GetMeans(a, LocalOf(i), false, rc, data, count, b)
    else
      var top := |a.view[i]| - 1;
      && SameKind(a, b) && b.faults == a.faults && b.disk == a.disk && b.capacity == a.capacity
      && rc == (if a.view[i] == [] then 1 else 0)
      && (rc == 1 ==> b.view == a.view && count == 0)
      && (rc == 0 ==> data == a.view[i][top] && b.view == a.view[i := a.view[i][..top]] && count == top)
  }

  // Putting a record into buffer i.
  ghost predicate PushMeans(a: Status, i: nat, r: Record, w: bool, rc: int, count: nat, b: Status)
    requires Coherent(a) && i < BUFFERS
  {
    if !a.mem then PutMeans(a, LocalOf(i), r, w, false, rc, count, b)
    else
      && SameKind(a, b) && b.disk == a.disk
      && (rc == 0 || rc == -1)
      && (rc == 0 ==> b.faults == a.faults && b.view == a.view[i := a.view[i] + [r]] && count == |a.view[i]| + 1)
      && (rc == -1 ==> b.view == a.view && (b.faults > a.faults || |a.view[i]| == COUNT_MAX))
      && (|a.view[i]| == COUNT_MAX ==> rc == -1)
      && (b.capacity == a.capacity || (i == HERE && |a.view[i]| == a.capacity && b.capacity == a.capacity + STEPS))
  }

  // PutBufferRecord: a record of a known contest and state goes to its home,
  // anything else is turned away and nothing happens.
  ghost predicate Stored(a: Status, r: Record, rc: int, b: Status)
    requires Coherent(a)
  {
    if Routable(r) && (a.mem || !a.clash)
    then (rc == -1 || rc >= 1)
        && PushMeans(a, HomeOf(r), r, true, if rc < 0 then -1 else 0, if rc < 0 then 0 else rc, b)
    else rc == -1 && b == a
  }

  // ---------- the client's buffers ----------

  datatype Verdict = Ended | Found | Saved | GivenUp

  class BufferStore {
    const nodiskbuffers: bool
    const prefixesClash: bool  // in- and out- prefixes identical: __CheckBuffLimits fails
    const disk: BufferDisk
    const membufftable: seq<MemBuff>
    ghost var memFaults: nat  // allocations that failed

    constructor (nodiskbuffers: bool, prefixesClash: bool, disk: BufferDisk)
      ensures Valid() && this.nodiskbuffers == nodiskbuffers && this.prefixesClash == prefixesClash && this.disk == disk
      ensures memFaults == 0 && forall i :: 0 <= i < BUFFERS ==> fresh(membufftable[i])
      ensures nodiskbuffers ==> forall i :: 0 <= i < BUFFERS ==> Held(i) == []
    {
      this.nodiskbuffers, this.prefixesClash, this.disk, memFaults := nodiskbuffers, prefixesClash, disk, 0;
      var table: seq<MemBuff> := [];
      while |table| < BUFFERS
        invariant |table| <= BUFFERS
        invariant forall i :: 0 <= i < |table| ==> fresh(table[i]) && table[i].Valid() && table[i].Stack() == []
        invariant forall i, j :: 0 <= i < j < |table| ==> table[i] != table[j]
      {
        var empty := new MemBuff();
        table := table + [empty];
      }
      membufftable := table;
    }

    ghost predicate Valid()
      reads this, membufftable
    {
      && |membufftable| == BUFFERS
      && (forall i, j :: 0 <= i < j < BUFFERS ==> membufftable[i] != membufftable[j])
      && (forall i :: 0 <= i < BUFFERS ==> membufftable[i].Valid())
    }

    // The records buffer i would hand out.
    ghost function Held(i: nat): seq<Record>
      requires Valid() && i < BUFFERS
      reads this, membufftable, disk
    {
      if nodiskbuffers then membufftable[i].Stack() else Readable(Contents(disk.State(), LocalOf(i)))
    }

    ghost function Now(): (a: Status)
      requires Valid()
      reads this, membufftable, disk
      ensures Coherent(a) && |a.view| == BUFFERS && a.mem == nodiskbuffers && a.clash == prefixesClash
      ensures a.disk == disk.State()
      ensures a.faults == memFaults + disk.faults && a.capacity == membufftable[HERE].maxcount
      ensures forall i :: 0 <= i < BUFFERS ==> a.view[i] == Held(i)
    {
      hide Readable;
      Status(nodiskbuffers, prefixesClash,
             seq(BUFFERS, i requires 0 <= i < BUFFERS && Valid() reads this, membufftable, disk => Held(i)),
             disk.State(), memFaults + disk.faults, membufftable[HERE].maxcount)
    }

    // The choice every operation makes: a file primitive or a memory primitive.
    method PushRecord(i: nat, r: Record, wantCount: bool) returns (rc: int, count: nat)
      requires Valid() && i < BUFFERS
      modifies this, disk, membufftable
      ensures Valid() && PushMeans(old(Now()), i, r, wantCount, rc, count, Now())
    {
      hide Readable, Homogeneous, PutFile;
      ghost var a := Now();
      if !nodiskbuffers {
        rc, count := PutFileRecord(LocalOf(i), r, wantCount, false);
      } else {
        ghost var fault;
        rc, count, fault := membufftable[i].Put(r);
        if fault {
          memFaults := memFaults + 1;
        }
        assert Now().view == if rc == 0 then a.view[i := a.view[i] + [r]] else a.view;
      }
    }

    method PopRecord(i: nat) returns (rc: int, data: Record, count: nat)
      requires Valid() && i < BUFFERS
      modifies this, disk, membufftable
      ensures Valid() && PopMeans(old(Now()), i, rc, data, count, Now())
    {
      hide Readable, Homogeneous, GetFile;
      ghost var a := Now();
      if !nodiskbuffers {
        rc, data, count := GetFileRecord(LocalOf(i), false);
      } else {
        rc, data, count := membufftable[i].Get();
        assert Now().view == if rc == 0 then a.view[i := a.view[i][..|a.view[i]| - 1]] else a.view;
      }
    }

    // The file primitives, as far as the buffers can see them.
    method GetFileRecord(n: FileName, remote: bool) returns (rc: int, data: Record, count: nat)
      requires Valid()
      modifies disk
      ensures Valid() && GetMeans(old(Now()), n, remote, rc, data, count, Now())
      ensures memFaults == old(memFaults)
    {
      hide Readable, GetFile, Matching, Records;
      ghost var a := Now();
      rc, data, count := disk.GetFileRecord(n, remote);
      assert nodiskbuffers ==> Now().view == a.view;
    }

    method PutFileRecord(n: FileName, r: Record, wantCount: bool, remote: bool) returns (rc: int, count: nat)
      requires Valid()
      modifies disk
      ensures Valid() && PutMeans(old(Now()), n, r, wantCount, remote, rc, count, Now())
      ensures memFaults == old(memFaults)
    {
      hide Readable, PutFile, UsesMoo;
      ghost var a := Now();
      rc, count := disk.PutFileRecord(n, r, wantCount, remote);
      assert nodiskbuffers ==> Now().view == a.view;
    }

    method PutBufferRecord(data: Record) returns (rc: int)
      requires Valid()
      modifies this, disk, membufftable
      ensures Valid() && Stored(old(Now()), data, rc, Now())
    {
      hide Readable, PutFile;
      rc := -1;
      if data[CONTEST] >= CONTEST_COUNT {
        return;
      }
      if data[RESULTCODE] > RESULT_FOUND {
        return;
      }
      if !nodiskbuffers && prefixesClash {
        return;
      }
      var useOut := data[RESULTCODE] != RESULT_WORKING;
      var i := SlotFor(data[CONTEST], useOut);
      ghost var a := Now();
      var retcode, count := PushRecord(i, data, true);
      if retcode == 0 {
        if !nodiskbuffers {
          PutCountPositive(Sniff(a.disk, LocalOf(i)).mooMode, FileOf(a, i), data, true);
        }
        rc := count;
      }
    }
  }
}
