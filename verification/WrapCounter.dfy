/**
 The shared wrap counter behind the monotonic clock (clitime.cpp, Win32 branch;
 clisync.h): any number of threads read a 32-bit tick counter and keep the number
 of times it wrapped under a test-and-set lock.  A run is any interleaving of
 single steps; time passes between them at will.
 */
module WrapCounter {
  import opened Words

  const UNSET: u32 := 0xFFFF_FFFF  // wrap_count before the first call
  // Before this many ticks the count cannot reach UNSET again.
  const HORIZON: int := 0xFFFF_FFFF * 0x1_0000_0000

  // Where a thread is; `at` is the true time at which it read the ticks.
  datatype Pc =
    | Idle
    | Check
    | InitLock
    | InitCount
    | TryLock
    | Locked
    | HaveTicks(ticks: u32, at: nat)
    | HaveWrap(ticks: u32, at: nat, wrap: u32)
    | Counted(ticks: u32, at: nat, wrap: u32)
    | Stored(ticks: u32, at: nat, wrap: u32)
    | Done(ticks: u32, wrap: u32)

  datatype Reading = Reading(at: nat, ticks: u32, wrap: u32)

  // The static variables, the true time, and the locked readings so far.
  datatype State = State(pcs: seq<Pc>, lock: bool, wrapCount: u32, lastTicks: u32, now: nat, log: seq<Reading>)

  datatype Action = Run(i: nat) | Advance(d: nat)

  function Start(n: nat, now: nat): State {
    State(seq(n, _ => Idle), false, UNSET, 0, now, [])
  }

  function StepThread(s: State, i: nat): State
    requires i < |s.pcs|
  {
    var at := (pc: Pc) => s.(pcs := s.pcs[i := pc]);
    match s.pcs[i]
    case Idle => at(Check)
    case Check => at(if s.wrapCount == UNSET then InitLock else TryLock)
    case InitLock => at(InitCount).(lock := false)
    case InitCount => at(TryLock).(wrapCount := 0)
    case TryLock => if s.lock then s else at(Locked).(lock := true)
    case Locked => at(HaveTicks(s.now % TWO32, s.now))
    case HaveTicks(t, r) => at(HaveWrap(t, r, s.wrapCount))
    case HaveWrap(t, r, w) =>
      if t < s.lastTicks then at(Counted(t, r, AddWrap(w, 1))).(wrapCount := AddWrap(w, 1)) else at(Counted(t, r, w))
    case Counted(t, r, w) => at(Stored(t, r, w)).(lastTicks := t, log := s.log + [Reading(r, t, w)])
    case Stored(t, _, w) => at(Done(t, w)).(lock := false)
    case Done(_, _) => at(Idle)
  }

  function Step(s: State, a: Action): State {
    match a
    case Run(i) => if i < |s.pcs| then StepThread(s, i) else s
    case Advance(d) => s.(now := s.now + d)
  }

  function Exec(s: State, trace: seq<Action>): State
    decreases |trace|
  {
    if trace == [] then s else Exec(Step(s, trace[0]), trace[1..])
  }

  // Between lock and unlock.
  predicate InSection(pc: Pc) {
    pc.Locked? || pc.HaveTicks? || pc.HaveWrap? || pc.Counted? || pc.Stored?
  }

  predicate Exclusive(s: State) {
    forall i, j :: 0 <= i < j < |s.pcs| ==> !(InSection(s.pcs[i]) && InSection(s.pcs[j]))
  }

  // ---------- mutual exclusion ----------

  // The counter is set up and nobody will set up the lock again.
  predicate Initialised(s: State) {
    s.wrapCount != UNSET && forall i :: 0 <= i < |s.pcs| ==> !s.pcs[i].InitLock?
  }

  // And nobody will set the count to 0 again either.
  predicate Settled(s: State) {
    forall i :: 0 <= i < |s.pcs| ==> !s.pcs[i].InitCount?
  }

  // The lock is taken exactly when thread h is between lock and unlock, and
  // nobody else is; h is -1 when it is free.
  predicate HeldBy(s: State, h: int) {
    && -1 <= h < |s.pcs|
    && (s.lock <==> h >= 0)
    && (forall i :: 0 <= i < |s.pcs| ==> (InSection(s.pcs[i]) <==> i == h))
  }

  // The reading stored last, or about to be stored, never runs ahead of true
  // time; so the count stays below UNSET up to the horizon.
  predicate Behind(s: State, h: int)
    requires HeldBy(s, h)
  {
    var last := s.wrapCount * TWO32 + s.lastTicks;
    if h < 0 then last <= s.now
    else
      match s.pcs[h]
      case HaveTicks(t, r) => t == r % TWO32 && last <= r <= s.now
      case HaveWrap(t, r, w) => t == r % TWO32 && s.wrapCount <= w && w * TWO32 + s.lastTicks <= r <= s.now
      case Counted(t, r, w) => s.wrapCount <= w && w * TWO32 + t <= r <= s.now
      case _ => last <= s.now
  }

  lemma CountsBehind(w: nat, last: u32, r: nat)
    requires w * TWO32 + last <= r
    ensures (if r % TWO32 < last then w + 1 else w) * TWO32 + r % TWO32 <= r
  {
  }

  predicate Ready(s: State, h: int) {
    Initialised(s) && HeldBy(s, h) && Behind(s, h)
  }

  function Holder(s: State, h: int, a: Action): int {
    if a.Run? && a.i < |s.pcs| then
      match s.pcs[a.i]
      case TryLock => if s.lock then h else a.i
      case Stored(_, _, _) => -1
      case _ => h
    else h
  }

  // Where a thread may be once the counter is set up.
  lemma InitialisedStep(s: State, i: nat)
    requires Initialised(s) && i < |s.pcs|
    requires s.pcs[i].HaveWrap? && s.pcs[i].ticks < s.lastTicks ==> AddWrap(s.pcs[i].wrap, 1) != UNSET
    ensures Initialised(StepThread(s, i)) && (Settled(s) ==> Settled(StepThread(s, i)))
  {
    var next := StepThread(s, i);
    forall j | 0 <= j < |next.pcs|
      ensures !next.pcs[j].InitLock? && (Settled(s) ==> !next.pcs[j].InitCount?)
    {
      assert j != i ==> next.pcs[j] == s.pcs[j];
    }
  }

  lemma HeldStep(s: State, h: int, i: nat)
    requires Initialised(s) && HeldBy(s, h) && i < |s.pcs|
    ensures HeldBy(StepThread(s, i), Holder(s, h, Run(i)))
  {
    var next, held := StepThread(s, i), Holder(s, h, Run(i));
    assert InSection(s.pcs[i]) <==> i == h;
    forall j | 0 <= j < |next.pcs|
      ensures InSection(next.pcs[j]) <==> j == held
    {
      assert j != i ==> next.pcs[j] == s.pcs[j] && (InSection(s.pcs[j]) <==> j == h);
    }
  }

  lemma BehindStep(s: State, h: int, i: nat)
    requires Ready(s, h) && i < |s.pcs| && s.now < HORIZON
    requires HeldBy(StepThread(s, i), Holder(s, h, Run(i)))
    ensures Behind(StepThread(s, i), Holder(s, h, Run(i)))
    ensures s.pcs[i].HaveWrap? && s.pcs[i].ticks < s.lastTicks ==> AddWrap(s.pcs[i].wrap, 1) != UNSET
  {
    assert InSection(s.pcs[i]) <==> i == h;
    if s.pcs[i].HaveWrap? {
      CountsBehind(s.pcs[i].wrap, s.lastTicks, s.pcs[i].at);
    }
  }

  lemma ReadyStep(s: State, h: int, a: Action)
    requires Ready(s, h) && Step(s, a).now < HORIZON
    ensures Ready(Step(s, a), Holder(s, h, a)) && (Settled(s) ==> Settled(Step(s, a)))
  {
    hide StepThread;
    if a.Run? && a.i < |s.pcs| {
      hide Holder, HeldBy, Behind, Initialised, Settled;
      StepTime(s, a);
      HeldStep(s, h, a.i);
      BehindStep(s, h, a.i);
      InitialisedStep(s, a.i);
    }
  }

  lemma StepTime(s: State, a: Action)
    ensures s.now <= Step(s, a).now && |Step(s, a).pcs| == |s.pcs|
  {
  }

  lemma {:induction false} ExecTime(s: State, trace: seq<Action>)
    ensures s.now <= Exec(s, trace).now && |Exec(s, trace).pcs| == |s.pcs|
    decreases |trace|
  {
    if trace == [] {
    } else {
      StepTime(s, trace[0]);
      ExecTime(Step(s, trace[0]), trace[1..]);
    }
  }

  // In every run of any number of threads from a state that is set up, the
  // counter stays set up and at most one thread is between lock and unlock.
  lemma {:induction false} RunsExclusive(s: State, h: int, trace: seq<Action>) returns (holder: int)
    requires Ready(s, h) && Exec(s, trace).now < HORIZON
    ensures Ready(Exec(s, trace), holder) && Exclusive(Exec(s, trace))
    decreases |trace|
  {
    hide Step, Ready, Settled;
    if trace == [] {
      holder := h;
      ReadyExclusive(s, h);
    } else {
      ExecTime(Step(s, trace[0]), trace[1..]);
      ReadyStep(s, h, trace[0]);
      holder := RunsExclusive(Step(s, trace[0]), Holder(s, h, trace[0]), trace[1..]);
    }
  }

  lemma ReadyExclusive(s: State, h: int)
    requires Ready(s, h)
    ensures Exclusive(s)
  {
  }

  // ---------- the unsynchronised set-up ----------

  // The first call of a thread that nobody interrupts sets the counter up.
  lemma FirstCallSetsUp(n: nat, i: nat, now: nat)
    requires i < n
    ensures var s := Exec(Start(n, now), [Run(i), Run(i), Run(i), Run(i)]);
      Ready(s, -1) && Settled(s)
  {
    var run := [Run(i), Run(i), Run(i), Run(i)];
    assert run[1..] == [Run(i), Run(i), Run(i)] && run[1..][1..] == [Run(i), Run(i)];
    assert run[1..][1..][1..] == [Run(i)] && run[1..][1..][1..][1..] == [];
    var s0 := Start(n, now);
    var s1 := Step(s0, Run(i));
    var s2 := Step(s1, Run(i));
    var s3 := Step(s2, Run(i));
    var s4 := Step(s3, Run(i));
    assert Exec(s0, run) == Exec(s1, run[1..]) == Exec(s2, run[1..][1..]) == Exec(s3, run[1..][1..][1..]) == s4;
  }

  // Two threads that both find the counter unset: the second takes the lock
  // away from the first by setting it up again.
  function Race(): seq<Action> {
    [Run(0), Run(0), Run(1), Run(1), Run(0), Run(0), Run(0), Run(1), Run(1), Run(1)]
  }

  lemma ExecOne(s: State, a: Action, trace: seq<Action>)
    ensures Exec(s, [a] + trace) == Exec(Step(s, a), trace)
  {
    assert ([a] + trace)[1..] == trace;
  }

  // The two threads, the lock and the count on the way.
  predicate RaceAt(s: State, n: nat, now: nat, first: Pc, second: Pc, lock: bool, count: u32) {
    |s.pcs| == n >= 2 && s.now == now && s.pcs[0] == first && s.pcs[1] == second && s.lock == lock
        && s.wrapCount == count
  }

  lemma RaceStep(s: State, n: nat, now: nat, first: Pc, second: Pc, lock: bool, count: u32, a: Action,
                 rest: seq<Action>)
    requires RaceAt(s, n, now, first, second, lock, count) && (a == Run(0) || a == Run(1))
    requires var pc := if a == Run(0) then first else second;
      pc.Idle? || pc.Check? || pc.InitLock? || pc.InitCount? || pc.TryLock?
    ensures Exec(s, [a] + rest) == Exec(Step(s, a), rest)
    ensures
      var pc := if a == Run(0) then first else second;
      var next := match pc
        case Idle => Check
        case Check => if count == UNSET then InitLock else TryLock
        case InitLock => InitCount
        case InitCount => TryLock
        case _ => if lock then pc else Locked;
      RaceAt(Step(s, a), n, now, if a == Run(0) then next else first, if a == Run(1) then next else second,
             if pc.InitLock? then false else if pc.TryLock? then true else lock, if pc.InitCount? then 0 else count)
  {
    ExecOne(s, a, rest);
  }

  lemma RaceBreaksIn(n: nat, now: nat)
    requires n >= 2
    ensures var s := Exec(Start(n, now), Race());
      s.now == now && |s.pcs| == n && s.pcs[0] == Locked && s.pcs[1] == Locked
  {
    hide Exec, Step;
    var s0, r := Start(n, now), Race();
    RaceStep(s0, n, now, Idle, Idle, false, UNSET, Run(0), r[1..]);
    var s1 := Step(s0, Run(0));
    RaceStep(s1, n, now, Check, Idle, false, UNSET, Run(0), r[2..]);
    var s2 := Step(s1, Run(0));
    RaceStep(s2, n, now, InitLock, Idle, false, UNSET, Run(1), r[3..]);
    var s3 := Step(s2, Run(1));
    RaceStep(s3, n, now, InitLock, Check, false, UNSET, Run(1), r[4..]);
    var s4 := Step(s3, Run(1));
    RaceStep(s4, n, now, InitLock, InitLock, false, UNSET, Run(0), r[5..]);
    var s5 := Step(s4, Run(0));
    RaceStep(s5, n, now, InitCount, InitLock, false, UNSET, Run(0), r[6..]);
    var s6 := Step(s5, Run(0));
    RaceStep(s6, n, now, TryLock, InitLock, false, 0, Run(0), r[7..]);
    var s7 := Step(s6, Run(0));
    RaceStep(s7, n, now, Locked, InitLock, true, 0, Run(1), r[8..]);
    var s8 := Step(s7, Run(1));
    RaceStep(s8, n, now, Locked, InitCount, false, 0, Run(1), r[9..]);
    var s9 := Step(s8, Run(1));
    RaceStep(s9, n, now, Locked, TryLock, false, 0, Run(1), []);
    RaceUnfolds();
    ExecNothing(Step(s9, Run(1)));
  }

  lemma RaceUnfolds()
    ensures var r := Race();
      && r == [Run(0)] + r[1..] && r[1..] == [Run(0)] + r[2..] && r[2..] == [Run(1)] + r[3..]
      && r[3..] == [Run(1)] + r[4..] && r[4..] == [Run(0)] + r[5..] && r[5..] == [Run(0)] + r[6..]
      && r[6..] == [Run(0)] + r[7..] && r[7..] == [Run(1)] + r[8..] && r[8..] == [Run(1)] + r[9..]
      && r[9..] == [Run(1)] + []
  {
  }

  lemma ExecNothing(s: State)
    ensures Exec(s, []) == s
  {
  }

  // ---------- when the lock excludes ----------

  // Before the first set-up.
  predicate Early(pc: Pc) {
    pc.Idle? || pc.Check? || pc.InitLock? || pc.InitCount?
  }

  // The lock is taken exactly when someone is between lock and unlock, and the
  // count has not run ahead of the time.
  predicate Sane(s: State, h: int) {
    && HeldBy(s, h) && s.now < HORIZON
    && if s.wrapCount == UNSET then s.lastTicks <= s.now && forall i :: 0 <= i < |s.pcs| ==> Early(s.pcs[i])
       else Behind(s, h)
  }

  // Nobody will set up the lock any more: nobody is about to, and the count is set
  // or everybody is about to set it.
  predicate SetUp(s: State) {
    && (forall i :: 0 <= i < |s.pcs| ==> !s.pcs[i].InitLock?)
    && (s.wrapCount != UNSET || forall i :: 0 <= i < |s.pcs| ==> s.pcs[i].InitCount?)
  }

  lemma HolderIsInside(s: State, h: int)
    requires HeldBy(s, h)
    ensures s.lock ==> exists j :: 0 <= j < |s.pcs| && InSection(s.pcs[j])
  {
    if s.lock {
      assert InSection(s.pcs[h]);
    }
  }

  lemma FirstSetsCount(s: State, h: int, a: Action)
    requires Sane(s, h) && SetUp(s) && s.wrapCount == UNSET && Step(s, a).now < HORIZON
    ensures Ready(Step(s, a), -1) || (Sane(Step(s, a), h) && SetUp(Step(s, a)) && Step(s, a).wrapCount == UNSET)
  {
    var t := Step(s, a);
    assert forall i :: 0 <= i < |s.pcs| ==> Early(s.pcs[i]) && !InSection(s.pcs[i]);
    HolderIsInside(s, h);
    if a.Run? && a.i < |s.pcs| {
      assert s.pcs[a.i].InitCount?;
      forall j | 0 <= j < |t.pcs|
        ensures !InSection(t.pcs[j]) && !t.pcs[j].InitLock?
      {
        assert s.pcs[j].InitCount? && (j == a.i || t.pcs[j] == s.pcs[j]);
      }
      assert Initialised(t) && HeldBy(t, -1) && Behind(t, -1);
    } else {
      assert t.pcs == s.pcs;
    }
  }

  lemma {:induction false} SetUpExcludes(s: State, h: int, trace: seq<Action>)
    requires Sane(s, h) && SetUp(s) && Exec(s, trace).now < HORIZON
    ensures Exclusive(Exec(s, trace))
    decreases |trace|
  {
    hide Step, Sane, SetUp, Exclusive, Ready;
    if s.wrapCount != UNSET {
      SaneIsReady(s, h);
      var holder := RunsExclusive(s, h, trace);
    } else if trace == [] {
      SaneExcludes(s, h);
    } else {
      var t := Step(s, trace[0]);
      ExecTime(t, trace[1..]);
      FirstSetsCount(s, h, trace[0]);
      if Ready(t, -1) {
        var holder := RunsExclusive(t, -1, trace[1..]);
      } else {
        SetUpExcludes(t, h, trace[1..]);
      }
    }
  }

  lemma SaneIsReady(s: State, h: int)
    requires Sane(s, h) && SetUp(s) && s.wrapCount != UNSET
    ensures Ready(s, h)
  {
  }

  lemma SaneExcludes(s: State, h: int)
    requires Sane(s, h)
    ensures Exclusive(s)
  {
  }

  // A thread about to set up the lock takes it away from the one that holds it.
  lemma Intrudes(s: State, i: nat, j: nat) returns (trace: seq<Action>)
    requires i < |s.pcs| && j < |s.pcs| && s.pcs[i].InitLock? && InSection(s.pcs[j])
    ensures Exec(s, trace).now == s.now && !Exclusive(Exec(s, trace))
  {
    var s1 := Step(s, Run(i));
    var s2 := Step(s1, Run(i));
    var s3 := Step(s2, Run(i));
    trace := [Run(i)] + ([Run(i)] + ([Run(i)] + []));
    ExecOne(s, Run(i), [Run(i)] + ([Run(i)] + []));
    ExecOne(s1, Run(i), [Run(i)] + []);
    ExecOne(s2, Run(i), []);
    ExecNothing(s3);
    assert s3.pcs[i] == Locked && s3.pcs[j] == s.pcs[j];
    assert InSection(s3.pcs[i]) && InSection(s3.pcs[j]);
  }

  // The steps from outside to the lock.
  function StepsOut(pc: Pc): nat {
    match pc
    case Done(_, _) => 6
    case Idle => 5
    case Check => 4
    case InitLock => 3
    case InitCount => 2
    case TryLock => 1
    case _ => 0
  }

  // When the lock is free a thread can take it while nobody else moves.
  lemma {:induction false} Enters(s: State, j: nat) returns (trace: seq<Action>)
    requires j < |s.pcs| && !s.lock && !InSection(s.pcs[j])
    ensures var t := Exec(s, trace);
      t.now == s.now && |t.pcs| == |s.pcs| && t.pcs[j] == Locked && forall i :: 0 <= i < |s.pcs| && i != j ==>
          t.pcs[i] == s.pcs[i]
    decreases StepsOut(s.pcs[j])
  {
    var t := Step(s, Run(j));
    if s.pcs[j].TryLock? {
      trace := [Run(j)] + [];
      ExecOne(s, Run(j), []);
      ExecNothing(t);
    } else {
      var rest := Enters(t, j);
      trace := [Run(j)] + rest;
      ExecOne(s, Run(j), rest);
    }
  }

  // While the count is not set, a thread can get to where it sets up the lock.
  lemma {:induction false} SetsUpAgain(s: State, i: nat) returns (trace: seq<Action>)
    requires i < |s.pcs| && s.wrapCount == UNSET && (s.pcs[i].Idle? || s.pcs[i].Check? || s.pcs[i].InitLock?)
    ensures var t := Exec(s, trace);
      && t.now == s.now && |t.pcs| == |s.pcs| && t.pcs[i].InitLock? && t.lock == s.lock
      && forall j :: 0 <= j < |s.pcs| && j != i ==> t.pcs[j] == s.pcs[j]
    decreases StepsOut(s.pcs[i])
  {
    if s.pcs[i].InitLock? {
      trace := [];
      ExecNothing(s);
    } else {
      var t := Step(s, Run(i));
      var rest := SetsUpAgain(t, i);
      trace := [Run(i)] + rest;
      ExecOne(s, Run(i), rest);
    }
  }

  lemma {:induction false} ExecConcat(s: State, t1: seq<Action>, t2: seq<Action>)
    ensures Exec(s, t1 + t2) == Exec(Exec(s, t1), t2)
    decreases |t1|
  {
    if t1 == [] {
      assert t1 + t2 == t2;
    } else {
      assert (t1 + t2)[0] == t1[0] && (t1 + t2)[1..] == t1[1..] + t2;
      ExecConcat(Step(s, t1[0]), t1[1..], t2);
    }
  }

  // Otherwise two threads can get between lock and unlock.
  lemma NotSetUpBreaks(s: State, h: int) returns (trace: seq<Action>)
    requires Sane(s, h) && !SetUp(s) && |s.pcs| >= 2
    ensures Exec(s, trace).now == s.now && !Exclusive(Exec(s, trace))
  {
    var i :| 0 <= i < |s.pcs| && (s.pcs[i].InitLock? || (s.wrapCount == UNSET && !s.pcs[i].InitCount?));
    var first: seq<Action> := [];
    ExecNothing(s);
    if !s.pcs[i].InitLock? {
      first := SetsUpAgain(s, i);
    }
    var t := Exec(s, first);
    var j, second := h, [];
    ExecNothing(t);
    if h < 0 {
      j := if i == 0 then 1 else 0;
      second := Enters(t, j);
    }
    var u := Exec(t, second);
    var third := Intrudes(u, i, j);
    trace := first + (second + third);
    ExecConcat(t, second, third);
    ExecConcat(s, first, second + third);
  }

  // In every continuation of a sane state the lock excludes exactly if there is
  // no second thread or nobody will set up the lock any more.
  lemma ExcludesExactly(s: State, h: int)
    requires Sane(s, h)
    ensures (forall trace: seq<Action> :: Exec(s, trace).now < HORIZON ==> Exclusive(Exec(s, trace)))
       <==> |s.pcs| <= 1 || SetUp(s)
  {
    hide Sane, SetUp, Exec;
    if |s.pcs| <= 1 {
      forall trace: seq<Action>
        ensures Exclusive(Exec(s, trace))
      {
        ExecTime(s, trace);
      }
    } else if SetUp(s) {
      forall trace: seq<Action> | Exec(s, trace).now < HORIZON
        ensures Exclusive(Exec(s, trace))
      {
        SetUpExcludes(s, h, trace);
      }
    } else {
      var trace := NotSetUpBreaks(s, h);
      SaneTime(s, h);
    }
  }

  lemma SaneTime(s: State, h: int)
    requires Sane(s, h)
    ensures s.now < HORIZON
  {
  }

  // From the start it excludes exactly if there is no second thread.
  lemma StartExcludes(n: nat, now: nat)
    requires now < HORIZON
    ensures (forall trace: seq<Action> ::
               Exec(Start(n, now), trace).now < HORIZON ==> Exclusive(Exec(Start(n, now), trace)))
       <==> n <= 1
  {
    hide Exec, Exclusive;
    var s := Start(n, now);
    ExcludesExactly(s, -1);
    assert n > 1 ==> s.pcs[0] == Idle;
  }

  // ---------- what the readings are worth ----------

  // The time a reading stands for.
  function Value(r: Reading): nat {
    r.wrap * TWO32 + r.ticks
  }

  function Last(log: seq<Reading>): Reading
    requires log != []
  {
    log[|log| - 1]
  }

  // From one reading to the next the value moves by the time passed, less whole
  // turns of the counter.
  predicate Follows(a: Reading, b: Reading) {
    a.at <= b.at && b.ticks == b.at % TWO32 && Value(b) == Value(a) + (b.at - a.at) % TWO32
  }

  predicate Chained(log: seq<Reading>) {
    && (log != [] ==> log[0].wrap == 0 && log[0].ticks == log[0].at % TWO32)
    && (forall k :: 0 <= k < |log| - 1 ==> Follows(log[k], log[k + 1]))
  }

  // The readings in the order in which the lock was held, and what is under way.
  predicate Logged(s: State, h: int)
    requires HeldBy(s, h)
  {
    && Chained(s.log)
    && (s.log == [] ==> s.lastTicks == 0)
    && (s.log != [] ==> s.lastTicks == Last(s.log).ticks && Last(s.log).at <= s.now)
    && var pc := if h < 0 then Idle else s.pcs[h];
      && (!pc.Counted? ==> s.wrapCount == if s.log == [] then 0 else Last(s.log).wrap)
      && (pc.HaveTicks? || pc.HaveWrap? || pc.Counted? ==>
            pc.ticks == pc.at % TWO32 && pc.at <= s.now && (s.log != [] ==> Last(s.log).at <= pc.at))
      && (pc.HaveWrap? ==> pc.wrap == s.wrapCount)
      && (pc.Counted? ==>
            && pc.wrap == s.wrapCount
            && if s.log == [] then pc.wrap == 0 else Follows(Last(s.log), Reading(pc.at, pc.ticks, pc.wrap)))
  }

  // Comparing with the last ticks finds out whether the counter wrapped, but
  // not how often.
  lemma CountsOn(a: Reading, at: nat)
    requires a.at <= at && a.ticks == a.at % TWO32
    ensures var t := at % TWO32;
      (if t < a.ticks then a.wrap + 1 else a.wrap) * TWO32 + t == Value(a) + (at - a.at) % TWO32
  {
    var t := at % TWO32;
    assert at - a.at == TWO32 * (at / TWO32 - a.at / TWO32) + (t - a.ticks);
    WrapShift(t - a.ticks, at / TWO32 - a.at / TWO32);
  }

  lemma LoggedStep(s: State, h: int, a: Action)
    requires Ready(s, h) && Settled(s) && Logged(s, h)
    requires Step(s, a).now < HORIZON && Ready(Step(s, a), Holder(s, h, a))
    ensures Logged(Step(s, a), Holder(s, h, a))
  {
    hide Behind;
    if a.Run? && a.i < |s.pcs| {
      var pc := s.pcs[a.i];
      if pc.HaveWrap? && s.log != [] {
        LastTicks(s.log);
        CountsOn(Last(s.log), pc.at);
      }
    }
  }

  lemma LastTicks(log: seq<Reading>)
    requires Chained(log) && log != []
    ensures Last(log).ticks == Last(log).at % TWO32
  {
    if |log| > 1 {
      assert Follows(log[|log| - 2], log[|log| - 2 + 1]);
    }
  }

  lemma {:induction false} RunsLogged(s: State, h: int, trace: seq<Action>) returns (holder: int)
    requires Ready(s, h) && Settled(s) && Logged(s, h) && Exec(s, trace).now < HORIZON
    ensures Ready(Exec(s, trace), holder) && Logged(Exec(s, trace), holder)
    decreases |trace|
  {
    hide Step, Ready, Logged, Settled;
    if trace == [] {
      holder := h;
    } else {
      ExecTime(Step(s, trace[0]), trace[1..]);
      ReadyStep(s, h, trace[0]);
      LoggedStep(s, h, trace[0]);
      holder := RunsLogged(Step(s, trace[0]), Holder(s, h, trace[0]), trace[1..]);
    }
  }

  // Less than one turn of the counter between one reading and the next.
  predicate Timely(log: seq<Reading>) {
    forall k :: 0 <= k < |log| - 1 ==> log[k + 1].at - log[k].at < TWO32
  }

  // Every value is the true time less one constant.
  predicate Exact(log: seq<Reading>) {
    forall k :: 0 <= k < |log| ==> Value(log[k]) == log[k].at - (log[0].at - Value(log[0]))
  }

  lemma {:induction false} TimelyIsExact(log: seq<Reading>, k: nat)
    requires Chained(log) && Timely(log) && k < |log|
    ensures Value(log[k]) == log[k].at - (log[0].at - Value(log[0]))
  {
    if k == 0 {
    } else {
      TimelyIsExact(log, k - 1);
      assert Follows(log[k - 1], log[k - 1 + 1]);
    }
  }

  lemma ExactIsTimely(log: seq<Reading>, k: nat)
    requires Chained(log) && Exact(log) && k < |log| - 1
    ensures log[k + 1].at - log[k].at < TWO32
  {
    assert Follows(log[k], log[k + 1]);
    assert Value(log[k + 1]) - Value(log[k]) == log[k + 1].at - log[k].at;
  }

  lemma {:induction false} ValuesInOrder(log: seq<Reading>, j: nat, k: nat)
    requires Chained(log) && j <= k < |log|
    ensures Value(log[j]) <= Value(log[k])
  {
    if j < k {
      ValuesInOrder(log, j, k - 1);
      assert Follows(log[k - 1], log[k - 1 + 1]);
    }
  }

  // In every run the values of the readings, in the order in which the lock was
  // held, never go back; and they are true time less a constant exactly when no
  // two readings in a row are a whole turn of the counter apart.
  lemma RunsKeepTime(s: State, h: int, trace: seq<Action>)
    requires Ready(s, h) && Settled(s) && Logged(s, h) && Exec(s, trace).now < HORIZON
    ensures var log := Exec(s, trace).log;
      && (forall j, k :: 0 <= j <= k < |log| ==> Value(log[j]) <= Value(log[k]))
      && (Exact(log) <==> Timely(log))
  {
    hide Value, Follows;
    var holder := RunsLogged(s, h, trace);
    var log := Exec(s, trace).log;
    forall j, k | 0 <= j <= k < |log|
      ensures Value(log[j]) <= Value(log[k])
    {
      ValuesInOrder(log, j, k);
    }
    if Timely(log) {
      forall k | 0 <= k < |log|
        ensures Value(log[k]) == log[k].at - (log[0].at - Value(log[0]))
      {
        TimelyIsExact(log, k);
      }
    }
    if Exact(log) {
      forall k | 0 <= k < |log| - 1
        ensures log[k + 1].at - log[k].at < TWO32
      {
        ExactIsTimely(log, k);
      }
    }
  }

  // What a thread is about to return is a reading it made.
  ghost predicate IsReturned(pc: Pc, log: seq<Reading>) {
    match pc
    case Stored(t, r, w) => Reading(r, t, w) in log
    case Done(t, w) => exists r :: r in log && r.ticks == t && r.wrap == w
    case _ => true
  }

  ghost predicate Returned(s: State) {
    forall i :: 0 <= i < |s.pcs| ==> IsReturned(s.pcs[i], s.log)
  }

  lemma OneReturned(s: State, a: Action)
    requires Returned(s)
    ensures Returned(Step(s, a))
  {
    var u := Step(s, a);
    assert forall r :: r in s.log ==> r in u.log;
    forall i | 0 <= i < |u.pcs|
      ensures IsReturned(u.pcs[i], u.log)
    {
      ReturnedOn(s, a, i);
    }
  }

  lemma ReturnedOn(s: State, a: Action, i: nat)
    requires Returned(s) && i < |s.pcs|
    ensures IsReturned(Step(s, a).pcs[i], Step(s, a).log)
  {
    var u, pc := Step(s, a), s.pcs[i];
    assert IsReturned(pc, s.log) && forall r :: r in s.log ==> r in u.log;
    if u.pcs[i] == pc {
      StillReturned(pc, s.log, u.log);
    } else if pc.Stored? {
      assert Reading(pc.at, pc.ticks, pc.wrap) in u.log;
    }
  }

  lemma StillReturned(pc: Pc, before: seq<Reading>, after: seq<Reading>)
    requires IsReturned(pc, before) && forall r :: r in before ==> r in after
    ensures IsReturned(pc, after)
  {
  }

  // In every run each thread returns the ticks and the wrap count of a reading made
  // under the lock.
  lemma {:induction false} RunsReturnReadings(s: State, trace: seq<Action>)
    requires Returned(s)
    ensures Returned(Exec(s, trace))
    decreases |trace|
  {
    hide Returned;
    if trace != [] {
      OneReturned(s, trace[0]);
      RunsReturnReadings(Step(s, trace[0]), trace[1..]);
    }
  }

  lemma StartReturns(n: nat, now: nat, trace: seq<Action>)
    ensures Returned(Exec(Start(n, now), trace))
  {
    RunsReturnReadings(Start(n, now), trace);
  }

  // All of this holds from the state that an undisturbed first call sets up.
  lemma FirstCallLogs(n: nat, i: nat, now: nat)
    requires i < n
    ensures var s := Exec(Start(n, now), [Run(i), Run(i), Run(i), Run(i)]);
      Ready(s, -1) && Settled(s) && Logged(s, -1)
  {
    FirstCallSetsUp(n, i, now);
    var run := [Run(i), Run(i), Run(i), Run(i)];
    assert run[1..] == [Run(i), Run(i), Run(i)] && run[1..][1..] == [Run(i), Run(i)];
    assert run[1..][1..][1..] == [Run(i)] && run[1..][1..][1..][1..] == [];
    var s0 := Start(n, now);
    var s1 := Step(s0, Run(i));
    var s2 := Step(s1, Run(i));
    var s3 := Step(s2, Run(i));
    var s4 := Step(s3, Run(i));
    assert Exec(s0, run) == Exec(s1, run[1..]) == Exec(s2, run[1..][1..]) == Exec(s3, run[1..][1..][1..]) == s4;
  }
}
