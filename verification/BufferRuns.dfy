/**
 Whole runs over the buffer files: whatever sequence of Put, Get and Count
 calls is made on whatever files, every file keeps a single format and behaves
 as a bag of records.
 */
module BufferRuns {
  import opened Moo521
  import opened WorkRecords
  import opened Slots
  import opened BufferFiles
  import opened BufferDisk

  datatype Op =
    | PutOp(name: FileName, r: Record, wantCount: bool)
    | GetOp(name: FileName)
    | CountOp(name: FileName)

  // What a reader of the file will be handed, in order.
  function Readable(f: File): seq<Record> {
    if IsHeader(f) then ForcedAll(MooRecords(f)) else StockRecords(f)
  }

  function ForcedAll(records: seq<Record>): (forced: seq<Record>)
    ensures |forced| == |records|
  {
    seq(|records|, i requires 0 <= i < |records| => Forced(records[i]))
  }

  // What a reader will be handed for a record put into file f now.
  function LandsAs(mode: bool, f: File, r: Record): Record {
    if UsesMoo(mode, f) then MooRead(MooImage(r)) else Settled(r)
  }

  function Landed(d: Disk, n: FileName, r: Record): Record {
    LandsAs(Sniff(d, n).mooMode, Contents(d, n), r)
  }

  // One call that meets no I/O error.
  function Step(d: Disk, op: Op): Disk {
    match op
    case PutOp(n, r, w) =>
      var d1 := Sniff(d, n);
      if PutAccepted(d, n, false) then d1.(files := d1.files[n := PutOn(d, n, r, w).file]) else d1
    case GetOp(n) =>
      var d1 := Sniff(d, n);
      (match GetOn(d, n, false)
       case Got(file, _) => d1.(files := d1.files[n := file])
       case NoRecords(file) => d1.(files := d1.files[n := file])
       case Broken => d1)
    case CountOp(n) => Sniff(d, n)
  }

  function Run(d: Disk, ops: seq<Op>): Disk
    decreases |ops|
  {
    if ops == [] then d else Run(Step(d, ops[0]), ops[1..])
  }

  // The records handed out from file n, and those put into it as they land.
  function Taken(d: Disk, op: Op, n: FileName): multiset<Record> {
    if op.GetOp? && op.name == n && GetOn(d, n, false).Got? then multiset{GetOn(d, n, false).data} else multiset{}
  }

  function Given(d: Disk, op: Op, n: FileName): multiset<Record> {
    if op.PutOp? && op.name == n then multiset{Landed(d, n, op.r)} else multiset{}
  }

  function AllTaken(d: Disk, ops: seq<Op>, n: FileName): multiset<Record>
    decreases |ops|
  {
    if ops == [] then multiset{} else Taken(d, ops[0], n) + AllTaken(Step(d, ops[0]), ops[1..], n)
  }

  function AllGiven(d: Disk, ops: seq<Op>, n: FileName): multiset<Record>
    decreases |ops|
  {
    if ops == [] then multiset{} else Given(d, ops[0], n) + AllGiven(Step(d, ops[0]), ops[1..], n)
  }

  ghost predicate Sound(d: Disk) {
    forall n :: Homogeneous(Contents(d, n))
  }

  predicate OpFits(d: Disk, op: Op) {
    op.PutOp? ==> PutKeepsFormat(Sniff(d, op.name).mooMode, Contents(d, op.name), op.r, op.wantCount)
  }

  // Every Put of the run meets the guard of PutHomogeneous where it happens.
  predicate RunFits(d: Disk, ops: seq<Op>)
    decreases |ops|
  {
    ops != [] ==> OpFits(d, ops[0]) && RunFits(Step(d, ops[0]), ops[1..])
  }

  // ---------- one step ----------

  lemma ForcedInserted(a: seq<Record>, k: nat, x: Record)
    requires k <= |a|
    ensures ForcedAll(Inserted(a, k, x)) == Inserted(ForcedAll(a), k, Forced(x))
  {
  }

  // A Put makes exactly the landed record readable.
  lemma PutFileReadable(mode: bool, f: File, r: Record, w: bool)
    requires Homogeneous(f) && PutKeepsFormat(mode, f, r, w)
    ensures var put := PutFile(mode, f, r, w).file;
      Homogeneous(put) && Adds(Readable(f), LandsAs(mode, f, r), Readable(put))
  {
    hide MooPut, StockPut, MooKept, MooImage, Settled, MooRoom;
    var put := PutFile(mode, f, r, w).file;
    PutHomogeneous(mode, f, r, w);
    if UsesMoo(mode, f) {
      MooPutAdds(f, r);
      var k: nat :| k <= |MooRecords(f)| && MooRecords(put) == Inserted(MooRecords(f), k, MooKept(MooImage(r)));
      ForcedInserted(MooRecords(f), k, MooKept(MooImage(r)));
      assert f == [] ==> MooRecords(f) == [] == StockRecords(f);
    } else {
      StockPutAdds(f, r, w);
    }
  }

  lemma PutReadable(d: Disk, n: FileName, r: Record, w: bool)
    requires Homogeneous(Contents(d, n))
    requires PutKeepsFormat(Sniff(d, n).mooMode, Contents(d, n), r, w)
    ensures Homogeneous(PutOn(d, n, r, w).file)
    ensures Adds(Readable(Contents(d, n)), Landed(d, n, r), Readable(PutOn(d, n, r, w).file))
  {
    hide PutFile, Homogeneous, PutKeepsFormat, Readable, LandsAs;
    PutFileReadable(Sniff(d, n).mooMode, Contents(d, n), r, w);
  }

  lemma ForcedTail(records: seq<Record>, x: Record, rest: seq<Record>)
    requires records == [x] + rest
    ensures ForcedAll(records) == [Forced(x)] + ForcedAll(rest)
  {
  }

  // A Get hands out the head of what is readable, or truncates a file from
  // which nothing could be read.
  lemma GetReadable(f: File)
    requires Homogeneous(f)
    ensures match GetFile(f)
      case Got(file, data) => Homogeneous(file) && Readable(f) == [data] + Readable(file)
      case NoRecords(file) => Readable(f) == [] && file == []
      case Broken => false
  {
    hide MooGet, StockGet, MooRecords, StockRecords, Forced;
    GetHomogeneous(f);
    if IsHeader(f) {
      MooGetLowest(f);
      if MooGet(f).Got? {
        ForcedTail(MooRecords(f), MooRecords(f)[0], MooRecords(MooGet(f).file));
        assert IsHeader(MooGet(f).file);
      }
    } else {
      StockGetLowest(f);
      if StockGet(f).Got? {
        assert !IsHeader(StockGet(f).file);
      }
    }
  }

  lemma Accepted(d: Disk, n: FileName)
    requires Homogeneous(Contents(d, n))
    ensures PutAccepted(d, n, false)
    ensures GetOn(d, n, false) == GetFile(Contents(d, n))
  {
  }

  // One step touches the named file and leaves the others alone.
  lemma StepLeaves(d: Disk, op: Op, n: FileName)
    requires Homogeneous(Contents(d, op.name)) && OpFits(d, op)
    ensures d.mooMode ==> Step(d, op).mooMode
    ensures op.name != n ==> Contents(Step(d, op), n) == Contents(d, n)
    ensures op.name == n && op.PutOp? ==> Contents(Step(d, op), n) == PutOn(d, n, op.r, op.wantCount).file
    ensures op.name == n && op.CountOp? ==> Contents(Step(d, op), n) == Contents(d, n)
    ensures op.name == n && op.GetOp? ==>
      !GetFile(Contents(d, n)).Broken? && Contents(Step(d, op), n) == GetFile(Contents(d, n)).file
  {
    hide PutFile, GetFile, Homogeneous;
    Accepted(d, op.name);
    GetReadable(Contents(d, op.name));
  }

  lemma StepSound(d: Disk, op: Op)
    requires Sound(d) && OpFits(d, op)
    ensures Sound(Step(d, op))
    ensures d.mooMode ==> Step(d, op).mooMode
  {
    hide PutFile, GetFile, Homogeneous, Step;
    forall n
      ensures Homogeneous(Contents(Step(d, op), n))
    {
      StepLeaves(d, op, n);
      if op.name == n {
        match op
        case PutOp(_, r, w) => PutReadable(d, n, r, w);
        case GetOp(_) => GetReadable(Contents(d, n)); EmptyIsHomogeneous();
        case CountOp(_) =>
      }
    }
    StepLeaves(d, op, op.name);
  }

  lemma EmptyIsHomogeneous()
    ensures Homogeneous([]) && Readable([]) == []
  {
  }

  lemma StepConserves(d: Disk, op: Op, n: FileName)
    requires Sound(d) && OpFits(d, op)
    ensures multiset(Readable(Contents(Step(d, op), n))) + Taken(d, op, n)
         == multiset(Readable(Contents(d, n))) + Given(d, op, n)
  {
    hide PutFile, GetFile, Homogeneous, Step, Readable, Landed, PutKeepsFormat;
    StepLeaves(d, op, n);
    Accepted(d, n);
    if op.name == n {
      match op
      case PutOp(_, r, w) =>
        PutReadable(d, n, r, w);
        AddsBag(Readable(Contents(d, n)), Landed(d, n, r), Readable(PutOn(d, n, r, w).file));
      case GetOp(_) =>
        GetReadable(Contents(d, n));
        EmptyIsHomogeneous();
      case CountOp(_) =>
    }
  }

  // ---------- whole runs ----------

  lemma Balance<T>(a0: multiset<T>, g0: multiset<T>, t0: multiset<T>,
                   a1: multiset<T>, g1: multiset<T>, t1: multiset<T>, a2: multiset<T>)
    requires a1 + t0 == a0 + g0 && a2 + t1 == a1 + g1
    ensures a2 + (t0 + t1) == a0 + (g0 + g1)
  {
    assert a2 + (t0 + t1) == (a2 + t1) + t0 == (a1 + t0) + g1;
  }

  // Every file stays all stock or all Moo, and on every file the records ever
  // put are those handed out and those still readable: none lost, none twice.
  lemma {:induction false} RunConserves(d: Disk, ops: seq<Op>, n: FileName)
    requires Sound(d) && RunFits(d, ops)
    ensures Sound(Run(d, ops))
    ensures multiset(Readable(Contents(Run(d, ops), n))) + AllTaken(d, ops, n)
         == multiset(Readable(Contents(d, n))) + AllGiven(d, ops, n)
    decreases |ops|
  {
    hide Step, Readable, Taken, Given, OpFits, Sound;
    if ops != [] {
      StepSound(d, ops[0]);
      StepConserves(d, ops[0], n);
      var d1, rest := Step(d, ops[0]), ops[1..];
      RunConserves(d1, rest, n);
      Balance(multiset(Readable(Contents(d, n))), Given(d, ops[0], n), Taken(d, ops[0], n),
              multiset(Readable(Contents(d1, n))), AllGiven(d1, rest, n), AllTaken(d1, rest, n),
              multiset(Readable(Contents(Run(d1, rest), n))));
    } else {
      assert Run(d, ops) == d && AllTaken(d, ops, n) == AllGiven(d, ops, n) == multiset{};
    }
  }

  // A condition on the calls alone: real RC5-72 keys, and no more Puts than
  // packet numbers left in any file.
  predicate RealWork(op: Op) {
    op.PutOp? ==> op.r[CONTEST] == RC5_72 && op.r[0] < 0x100
  }

  lemma StockHasNoCount(f: File)
    requires StockFile(f)
    ensures MooCount(f) == 0
  {
  }

  lemma PutCount(mode: bool, f: File, r: Record, w: bool)
    requires Homogeneous(f) && PutKeepsFormat(mode, f, r, w)
    ensures MooCount(PutFile(mode, f, r, w).file) <= MooCount(f) + 1
  {
    hide MooRoom, StockPut, MooImage, MooSlots, FirstBlank;
    PutHomogeneous(mode, f, r, w);
    if UsesMoo(mode, f) {
      MooPutAdds(f, r);
    } else {
      StockHasNoCount(StockPut(f, r, w).file);
    }
  }

  lemma GetCount(f: File)
    requires Homogeneous(f) && !GetFile(f).Broken?
    ensures MooCount(GetFile(f).file) <= MooCount(f)
  {
    hide StockGet, MooGet, MooSlots;
    GetHomogeneous(f);
    if MooFile(f) {
      MooGetLowest(f);
    }
    if GetFile(f).Got? && StockFile(f) {
      StockHasNoCount(GetFile(f).file);
    }
    StockHasNoCount([]);
  }

  lemma CountGrowsByOne(d: Disk, op: Op, n: FileName)
    requires Homogeneous(Contents(d, op.name)) && OpFits(d, op)
    ensures MooCount(Contents(Step(d, op), n)) <= MooCount(Contents(d, n)) + 1
  {
    hide MooCount, PutFile, GetFile, Step, Homogeneous, PutKeepsFormat;
    StepLeaves(d, op, n);
    if op.name == n {
      match op
      case PutOp(_, r, w) => PutCount(Sniff(d, n).mooMode, Contents(d, n), r, w);
      case GetOp(_) => GetCount(Contents(d, n));
      case CountOp(_) =>
    }
  }

  lemma {:induction false} RealWorkFits(d: Disk, ops: seq<Op>)
    requires Sound(d) && forall op :: op in ops ==> RealWork(op)
    requires forall n :: MooCount(Contents(d, n)) + |ops| <= MAX_COUNT
    ensures RunFits(d, ops)
    decreases |ops|
  {
    if ops == [] {
    } else {
      var op := ops[0];
      assert op in ops;
      if op.PutOp? {
        RealKeyIsNoMagic(op.r);
        assert MooCount(Contents(d, op.name)) + |ops| <= MAX_COUNT;
      }
      StepSound(d, op);
      forall n
        ensures MooCount(Contents(Step(d, op), n)) + |ops[1..]| <= MAX_COUNT
      {
        CountGrowsByOne(d, op, n);
      }
      RealWorkFits(Step(d, op), ops[1..]);
    }
  }

  // ---------- the sticky Moo flag ----------

  // A Moo file emptied and truncated by Get gets its header back, and nothing
  // else, with the next Put.
  lemma TruncatedMooRegainsHeader(d: Disk, n: FileName, r: Record, w: bool)
    requires MooFile(Contents(d, n)) && MooRecords(Contents(d, n)) == []
    ensures Contents(Step(d, GetOp(n)), n) == []
    ensures var again := Contents(Run(d, [GetOp(n), PutOp(n, r, w)]), n);
      again == MakeHeader(1) + MooImage(r) && MooFile(again) && Readable(again) == [MooRead(MooImage(r))]
  {
    hide MooGet, MooPut, MooImage, MooKept, MakeHeader, MooFile;
    var d1 := Step(d, GetOp(n));
    MooGetLowest(Contents(d, n));
    MooIsNotStock(Contents(d, n));
    GetHomogeneous(Contents(d, n));
    assert d1.mooMode && Contents(d1, n) == [];
    var ops := [GetOp(n), PutOp(n, r, w)];
    var put := PutOp(n, r, w);
    assert ops[1..] == [put] && [put][1..] == [];
    assert Run(d, ops) == Run(d1, [put]) == Run(Step(d1, put), []);
    assert Run(d, ops) == Step(d1, PutOp(n, r, w));
    MooPutFresh(r);
    FreshMooReadable(r);
  }

  lemma FreshMooReadable(r: Record)
    ensures Readable(MakeHeader(1) + MooImage(r)) == [MooRead(MooImage(r))]
  {
    hide MooImage, MooKept;
    MooPutFresh(r);
    MooImageNotBlank(r);
    var f := MakeHeader(1) + MooImage(r);
    MooSize(f);
    assert Live([MooImage(r)], BlankPacket()) == [MooImage(r)];
    assert MooRecords(f) == [MooKept(MooImage(r))];
  }

  // The flag is for all contests: with it on, a buffer that does not exist yet
  // is created as a Moo file, and the record put there comes back unchanged
  // exactly when it is unfinished RC5-72 work.  With it off the stock file
  // returns every RC5-72 record.
  lemma StickyModeDecides(d: Disk, n: FileName, r: Record)
    requires Contents(d, n) == []
    ensures var d1 := Step(d, PutOp(n, r, false));
      && GetOn(d1, n, false).Got?
      && (GetOn(d1, n, false).data == r <==>
            if d.mooMode then Keepable(r) && r[RESULTCODE] == RESULT_WORKING
            else Terminated(r) && (r[CONTEST] == RC5_72 || r[CONTEST] == UNHANDLED))
    requires !IsHeader(Switched(r))
  {
    hide Step, PutFile, GetFile, Homogeneous, Readable, MooRead, MooImage;
    var op := PutOp(n, r, false);
    var put := Contents(Step(d, op), n);
    FreshFits(d, n, r);
    StepLeaves(d, op, n);
    PutReadable(d, n, r, false);
    EmptyIsHomogeneous();
    OnlyOne(Landed(d, n, r), Readable(put));
    Accepted(Step(d, op), n);
    GetReadable(put);
    assert GetFile(put).Got? && Readable(put)[0] == GetFile(put).data;
    if d.mooMode {
      MooRoundTrip(r);
    } else {
      SwitchTwice(r);
      StockRoundTrip(r);
    }
  }

  lemma FreshFits(d: Disk, n: FileName, r: Record)
    requires Contents(d, n) == [] && !IsHeader(Switched(r))
    ensures Homogeneous(Contents(d, n)) && PutKeepsFormat(Sniff(d, n).mooMode, Contents(d, n), r, false)
    ensures Landed(d, n, r) == if d.mooMode then MooRead(MooImage(r)) else Settled(r)
  {
    hide MooRead, MooImage;
  }

  lemma OnlyOne(x: Record, s: seq<Record>)
    requires Adds([], x, s)
    ensures s == [x]
  {
  }
}
