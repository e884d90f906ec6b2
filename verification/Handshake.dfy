/**
 The suspend and exit handshake between the main loop and the cruncher threads
 (clirun.cpp, Go_mt and ClientRun) as a protocol of single reads and writes, in
 every interleaving.
 */
module Handshake {

  // Where a real cruncher thread is in Go_mt.
  datatype Pc =
    | Starting
    | TestExit      // about to read do_exit
    | TestSuspend   // about to look at its problem and do_suspend
    | Cleared       // found both fine, about to clear is_suspended
    | Armed         // about to call ProblemRun
    | Running       // inside ProblemRun
    | Returned      // about to set is_suspended
    | Asleep        // in the one second sleep
    | Leaving       // out of the loop, about to set hasexited
    | Gone

  datatype Thread = Thread(pc: Pc, doExit: bool, doSuspend: bool, isSuspended: bool, hasExited: bool, runs: nat)

  // What a thread finds in the problem table when it looks.
  datatype Problem = Missing | Empty | Loaded

  // A step of the thread itself, or one write of the main loop to its flags.
  datatype Act = Go(found: Problem) | SetExit | SetSuspend | ClearSuspend

  function Step(t: Thread, a: Act): Thread {
    match a
    case SetExit => t.(doExit := true)
    case SetSuspend => t.(doSuspend := true)
    case ClearSuspend => t.(doSuspend := false)
    case Go(found) =>
      (match t.pc
       case Starting => t.(pc := TestExit, hasExited := false, isSuspended := true)
       case TestExit => t.(pc := if t.doExit then Leaving else TestSuspend)
       case TestSuspend => t.(pc := if found.Missing? || t.doSuspend || found.Empty? then Asleep else Cleared)
       case Cleared => t.(pc := Armed, isSuspended := false)
       case Armed => t.(pc := Running, runs := t.runs + 1)
       case Running => t.(pc := Returned)
       case Returned => t.(pc := TestExit, isSuspended := true)
       case Asleep => t.(pc := TestExit)
       case Leaving => t.(pc := Gone, hasExited := true)
       case Gone => t)
  }

  function Exec(t: Thread, trace: seq<Act>): Thread
    decreases |trace|
  {
    if trace == [] then t else Exec(Step(t, trace[0]), trace[1..])
  }

  // Past its check of do_suspend and not yet inside ProblemRun.
  predicate Committed(pc: Pc) {
    pc.Cleared? || pc.Armed?
  }

  // is_suspended is 0 only around ProblemRun.
  predicate Consistent(t: Thread) {
    && ((t.pc.Armed? || t.pc.Running? || t.pc.Returned?) ==> !t.isSuspended)
    && (!t.isSuspended ==> t.pc.Starting? || t.pc.Armed? || t.pc.Running? || t.pc.Returned?)
    && (t.hasExited ==> t.pc.Gone? || t.pc.Starting?)
    && (t.pc.Leaving? ==> t.doExit)
    && (t.pc.Gone? ==> t.doExit && t.hasExited)
  }

  lemma {:induction false} StaysConsistent(t: Thread, trace: seq<Act>)
    requires Consistent(t)
    ensures Consistent(Exec(t, trace))
    decreases |trace|
  {
    if trace == [] {
    } else {
      StaysConsistent(Step(t, trace[0]), trace[1..]);
    }
  }

  // A thread as Go_mt finds it, with no flag set.
  const FRESH := Thread(Starting, false, false, false, false, 0)

  // So every state a thread can reach, whatever the main loop does, is such.
  lemma ReachableConsistent(trace: seq<Act>)
    ensures Consistent(Exec(FRESH, trace))
  {
    StaysConsistent(FRESH, trace);
  }

  // ---------- suspension ----------

  // The main loop does not lift the suspension meanwhile.
  predicate Held(trace: seq<Act>) {
    forall a :: a in trace ==> a != ClearSuspend
  }

  lemma HeldRest(trace: seq<Act>)
    requires Held(trace) && trace != []
    ensures trace[0] != ClearSuspend && Held(trace[1..])
  {
    assert trace[0] in trace && forall a :: a in trace[1..] ==> a in trace;
  }

  // Once do_suspend is set a cruncher starts at most one more ProblemRun, and
  // only if it had already passed its check.
  lemma {:induction false} OneMoreRun(t: Thread, trace: seq<Act>)
    requires t.doSuspend && Held(trace)
    ensures Exec(t, trace).runs <= t.runs + if Committed(t.pc) then 1 else 0
    decreases |trace|
  {
    if trace == [] {
    } else {
      HeldRest(trace);
      OneMoreRun(Step(t, trace[0]), trace[1..]);
    }
  }

  // Until it starts a run or is about to, a suspended cruncher shows as such,
  // whatever it does, until the suspension is lifted.
  lemma {:induction false} StaysSuspended(t: Thread, trace: seq<Act>)
    requires t.doSuspend && t.isSuspended && Consistent(t) && !Committed(t.pc) && Held(trace)
    ensures Exec(t, trace).isSuspended && Exec(t, trace).runs == t.runs
    ensures !Exec(t, trace).pc.Running? && !Committed(Exec(t, trace).pc)
    decreases |trace|
  {
    if trace == [] {
    } else {
      HeldRest(trace);
      StaysSuspended(Step(t, trace[0]), trace[1..]);
    }
  }

  // A thread that has re-read do_suspend after it was set is not committed, and
  // asleep it shows as suspended.
  lemma ReReadSuspends(t: Thread, found: Problem)
    requires t.doSuspend && Consistent(t) && t.pc.TestSuspend?
    ensures var u := Step(t, Go(found));
      u.isSuspended && !Committed(u.pc) && u.pc.Asleep?
  {
  }

  function Own(trace: seq<Act>): nat {
    if trace == [] then 0 else (if trace[0].Go? then 1 else 0) + Own(trace[1..])
  }

  // Steps of the thread itself until it shows as suspended.
  function StepsAwake(pc: Pc): nat {
    match pc
    case Starting => 1
    case Cleared => 4
    case Armed => 3
    case Running => 2
    case Returned => 1
    case _ => 0
  }

  // While the suspension lasts, every thread that has had four steps of its own
  // shows as suspended and is not about to run.
  lemma {:induction false} SuspendsInTime(t: Thread, trace: seq<Act>)
    requires t.doSuspend && Consistent(t) && Held(trace) && Own(trace) >= StepsAwake(t.pc)
    ensures Exec(t, trace).isSuspended && !Committed(Exec(t, trace).pc) && !Exec(t, trace).pc.Running?
    decreases |trace|
  {
    hide Consistent, Held;
    if StepsAwake(t.pc) == 0 {
      AwakeOrNot(t);
      StaysSuspended(t, trace);
    } else {
      HeldRest(trace);
      OneStep(t, trace[0]);
      SuspendsInTime(Step(t, trace[0]), trace[1..]);
    }
  }

  lemma AwakeOrNot(t: Thread)
    requires Consistent(t) && StepsAwake(t.pc) == 0
    ensures t.isSuspended && !Committed(t.pc)
  {
  }

  lemma OneStep(t: Thread, a: Act)
    requires t.doSuspend && a != ClearSuspend && Consistent(t)
    ensures var u := Step(t, a);
      && u.doSuspend && Consistent(u)
      && StepsAwake(u.pc) + (if a.Go? && StepsAwake(t.pc) > 0 then 1 else 0) == StepsAwake(t.pc)
  {
  }

  // What the 'c' check of the main loop is worth: a thread that shows as
  // suspended stays out of ProblemRun in every continuation exactly if it had
  // not passed its check before the flag was set.
  lemma CheckExcludes(t: Thread)
    requires t.doSuspend && t.isSuspended && Consistent(t)
    ensures (forall trace: seq<Act> :: Held(trace) ==> !Exec(t, trace).pc.Running?) <==> !Committed(t.pc)
  {
    if Committed(t.pc) {
      assert t.pc == Cleared;
      var two := [Go(Loaded), Go(Loaded)];
      assert two[1..] == [Go(Loaded)] && two[1..][1..] == [];
      var t1 := Step(t, Go(Loaded));
      var t2 := Step(t1, Go(Loaded));
      assert Exec(t, two) == Exec(t1, two[1..]) == Exec(t2, two[1..][1..]) == t2;
      assert t2.pc.Running? && Held(two);
    } else {
      forall trace: seq<Act> | Held(trace)
        ensures !Exec(t, trace).pc.Running?
      {
        StaysSuspended(t, trace);
      }
    }
  }

  // Such a thread can be reached: it looks, the flag is set and checked, and
  // then it runs.
  lemma CheckCanBeEarly()
    ensures var t := Exec(FRESH, [Go(Loaded), Go(Loaded), Go(Loaded), SetSuspend]);
      Consistent(t) && t.doSuspend && t.isSuspended && Committed(t.pc)
  {
    var t0 := FRESH;
    var trace := [Go(Loaded), Go(Loaded), Go(Loaded), SetSuspend];
    assert trace[1..] == [Go(Loaded), Go(Loaded), SetSuspend] && trace[1..][1..] == [Go(Loaded), SetSuspend];
    assert trace[1..][1..][1..] == [SetSuspend] && trace[1..][1..][1..][1..] == [];
    var t1 := Step(t0, Go(Loaded));
    var t2 := Step(t1, Go(Loaded));
    var t3 := Step(t2, Go(Loaded));
    assert Exec(t0, trace) == Exec(t1, trace[1..]) == Exec(t2, trace[1..][1..]) == Exec(t3, trace[1..][1..][1..]);
  }

  // ---------- runs ----------

  // What a thread saw at its last look: what it found in the problem table and
  // whether it was to suspend.
  datatype Look = Never | Look(found: Problem, suspend: bool)

  // The last look of a trace, if there was one.
  function LastLook(t: Thread, trace: seq<Act>, before: Look): Look
    decreases |trace|
  {
    if trace == [] then before
    else
      LastLook(Step(t, trace[0]), trace[1..],
               if t.pc.TestSuspend? && trace[0].Go? then Look(trace[0].found, t.doSuspend) else before)
  }

  predicate Fine(look: Look) {
    look == Look(Loaded, false)
  }

  predicate InRun(pc: Pc) {
    Committed(pc) || pc.Running?
  }

  // A thread is on its way into ProblemRun or inside only if its last look found
  // a loaded problem and no suspension.
  lemma {:induction false} RunsOnlyLoaded(t: Thread, trace: seq<Act>, before: Look)
    requires InRun(t.pc) ==> Fine(before)
    ensures InRun(Exec(t, trace).pc) ==> Fine(LastLook(t, trace, before))
    decreases |trace|
  {
    if trace == [] {
    } else {
      var look := if t.pc.TestSuspend? && trace[0].Go? then Look(trace[0].found, t.doSuspend) else before;
      RunsOnlyLoaded(Step(t, trace[0]), trace[1..], look);
    }
  }

  // From its start a thread never runs without such a look.
  lemma StartedRunsOnlyLoaded(trace: seq<Act>)
    ensures Exec(FRESH, trace).pc.Running? ==> LastLook(FRESH, trace, Never) == Look(Loaded, false)
  {
    RunsOnlyLoaded(FRESH, trace, Never);
  }

  // How often the thread enters ProblemRun.
  function Entries(t: Thread, trace: seq<Act>): nat
    decreases |trace|
  {
    if trace == [] then 0
    else
      var u := Step(t, trace[0]);
      (if !t.pc.Running? && u.pc.Running? then 1 else 0) + Entries(u, trace[1..])
  }

  lemma OneEntry(t: Thread, a: Act)
    ensures Step(t, a).runs == t.runs + if !t.pc.Running? && Step(t, a).pc.Running? then 1 else 0
  {
  }

  lemma {:induction false} RunsAreEntries(t: Thread, trace: seq<Act>)
    ensures Exec(t, trace).runs == t.runs + Entries(t, trace)
    decreases |trace|
  {
    if trace == [] {
    } else {
      OneEntry(t, trace[0]);
      hide Step;
      RunsAreEntries(Step(t, trace[0]), trace[1..]);
    }
  }

  // Nothing loaded is found at any look.
  predicate Idle(trace: seq<Act>) {
    forall a :: a in trace && a.Go? ==> !a.found.Loaded?
  }

  // Steps of the thread itself until the run it is committed to.
  function StepsToRun(pc: Pc): nat
    requires Committed(pc)
  {
    if pc.Cleared? then 2 else 1
  }

  lemma IdleRest(trace: seq<Act>)
    requires Idle(trace) && trace != []
    ensures (trace[0].Go? ==> !trace[0].found.Loaded?) && Idle(trace[1..])
  {
    assert trace[0] in trace && forall a :: a in trace[1..] ==> a in trace;
  }

  lemma OneIdleStep(t: Thread, a: Act)
    requires a.Go? ==> !a.found.Loaded?
    ensures var u := Step(t, a);
      if Committed(t.pc) && a.Go? && StepsToRun(t.pc) == 1 then u.runs == t.runs + 1 && !Committed(u.pc)
      else
        && u.runs == t.runs && (Committed(u.pc) <==> Committed(t.pc))
        && (Committed(t.pc) ==> StepsToRun(u.pc) + (if a.Go? then 1 else 0) == StepsToRun(t.pc))
  {
  }

  // A thread that finds nothing loaded starts no run but the one it is already
  // committed to, and that one exactly if it gets that far.
  lemma {:induction false} NothingToRun(t: Thread, trace: seq<Act>)
    requires Idle(trace)
    ensures Exec(t, trace).runs == t.runs + if Committed(t.pc) && Own(trace) >= StepsToRun(t.pc) then 1 else 0
    decreases |trace|
  {
    if trace == [] {
    } else {
      IdleRest(trace);
      OneIdleStep(t, trace[0]);
      hide Step, Committed, Idle;
      NothingToRun(Step(t, trace[0]), trace[1..]);
    }
  }

  // Work is found at every look, and the main loop leaves the flags alone.
  predicate Busy(trace: seq<Act>) {
    forall a :: a in trace ==> a == Go(Loaded)
  }

  // How far a thread is from TestExit to TestExit, six steps away, a run counting
  // for six.
  function Progress(t: Thread): int {
    6 * t.runs +
    match t.pc
    case TestSuspend => 1
    case Cleared => 2
    case Armed => 3
    case Running => -2
    case Returned => -1
    case Starting => -1
    case Asleep => -1
    case _ => 0
  }

  // With work to do and no flag set every sixth step starts a run.
  lemma {:induction false} KeepsRunning(t: Thread, trace: seq<Act>)
    requires Busy(trace) && !t.doExit && !t.doSuspend && Consistent(t)
    ensures Progress(Exec(t, trace)) == Progress(t) + |trace|
    decreases |trace|
  {
    if trace == [] {
    } else {
      assert trace[0] in trace && forall a :: a in trace[1..] ==> a in trace;
      KeepsRunning(Step(t, trace[0]), trace[1..]);
    }
  }

  // So a thread starts another run within six steps of its own once a suspension
  // is lifted.
  lemma Resumes(t: Thread, trace: seq<Act>)
    requires Busy(trace) && |trace| >= 6 && !t.doExit && Consistent(t)
    ensures Exec(t, [ClearSuspend] + trace).runs > t.runs
  {
    var u, all := Step(t, ClearSuspend), [ClearSuspend] + trace;
    assert all[1..] == trace && Exec(t, all) == Exec(u, trace);
    KeepsRunning(u, trace);
  }

  // ---------- exit ----------

  // Once do_exit is set, at most one more run starts, whatever becomes of
  // do_suspend: flagging for exit lifts a suspension.
  lemma {:induction false} OneMoreRunBeforeExit(t: Thread, trace: seq<Act>)
    requires t.doExit
    ensures Exec(t, trace).runs <= t.runs + if Committed(t.pc) || t.pc.TestSuspend? then 1 else 0
    decreases |trace|
  {
    if trace == [] {
    } else {
      OneMoreRunBeforeExit(Step(t, trace[0]), trace[1..]);
    }
  }

  // Steps of the thread itself until it has exited.
  function StepsLeft(pc: Pc): nat {
    match pc
    case Starting => 3
    case TestExit => 2
    case TestSuspend => 7
    case Cleared => 6
    case Armed => 5
    case Running => 4
    case Returned => 3
    case Asleep => 3
    case Leaving => 1
    case Gone => 0
  }

  // After do_exit is set every thread that keeps getting steps leaves its loop
  // and reports that it has exited, within seven steps of its own, whatever the
  // main loop does to its flags meanwhile.
  lemma {:induction false} ExitsInTime(t: Thread, trace: seq<Act>)
    requires t.doExit && (t.pc.Gone? ==> t.hasExited) && Own(trace) >= StepsLeft(t.pc)
    ensures Exec(t, trace).pc.Gone? && Exec(t, trace).hasExited
    decreases |trace|
  {
    if trace == [] {
    } else {
      ExitsInTime(Step(t, trace[0]), trace[1..]);
    }
  }

  // ---------- all threads together ----------

  datatype Move = Move(i: nat, act: Act)

  function StepAll(ts: seq<Thread>, m: Move): seq<Thread> {
    if m.i < |ts| then ts[m.i := Step(ts[m.i], m.act)] else ts
  }

  function ExecAll(ts: seq<Thread>, moves: seq<Move>): (us: seq<Thread>)
    ensures |us| == |ts|
    decreases |moves|
  {
    if moves == [] then ts else ExecAll(StepAll(ts, moves[0]), moves[1..])
  }

  // The part of a run that concerns thread i.
  function Mine(moves: seq<Move>, i: nat): seq<Act> {
    if moves == [] then []
    else (if moves[0].i == i then [moves[0].act] else []) + Mine(moves[1..], i)
  }

  // Threads do not touch each other's flags, so what holds of one in every run
  // of its own holds of each in every interleaving.
  lemma {:induction false} EachOnItsOwn(ts: seq<Thread>, moves: seq<Move>, i: nat)
    requires i < |ts|
    ensures ExecAll(ts, moves)[i] == Exec(ts[i], Mine(moves, i))
    decreases |moves|
  {
    if moves != [] {
      EachOnItsOwn(StepAll(ts, moves[0]), moves[1..], i);
      if moves[0].i == i {
        var rest := Mine(moves[1..], i);
        assert Mine(moves, i) == [moves[0].act] + rest && Mine(moves, i)[1..] == rest;
      } else {
        assert Mine(moves, i) == Mine(moves[1..], i);
      }
    }
  }

  // So the main loop need not wait for ever: once every thread has had four steps
  // of its own under a lasting suspension, its check finds them all suspended.
  lemma AllSuspend(ts: seq<Thread>, moves: seq<Move>)
    requires forall i :: 0 <= i < |ts| ==> ts[i].doSuspend && Consistent(ts[i])
    requires forall i :: 0 <= i < |ts| ==> Held(Mine(moves, i)) && Own(Mine(moves, i)) >= 4
    ensures forall i :: 0 <= i < |ts| ==> ExecAll(ts, moves)[i].isSuspended && !Committed(ExecAll(ts, moves)[i].pc)
  {
    hide Exec, ExecAll, Own, Mine, Consistent, Held, Committed;
    forall i | 0 <= i < |ts|
      ensures ExecAll(ts, moves)[i].isSuspended && !Committed(ExecAll(ts, moves)[i].pc)
    {
      EachOnItsOwn(ts, moves, i);
      SuspendsInTime(ts[i], Mine(moves, i));
    }
  }

  lemma OneExits(t: Thread, trace: seq<Act>)
    requires t.doExit && Consistent(t) && Own(trace) >= 7
    ensures Exec(t, trace).hasExited && Exec(t, trace).runs <= t.runs + 1
  {
    hide Exec, Own, Step;
    ExitsInTime(t, trace);
    OneMoreRunBeforeExit(t, trace);
  }

  // Flagged for exit, all threads have exited once each has had its seven steps.
  lemma AllExit(ts: seq<Thread>, moves: seq<Move>)
    requires forall i :: 0 <= i < |ts| ==> ts[i].doExit && Consistent(ts[i]) && Own(Mine(moves, i)) >= 7
    ensures forall i :: 0 <= i < |ts| ==>
      ExecAll(ts, moves)[i].hasExited && ExecAll(ts, moves)[i].runs <= ts[i].runs + 1
  {
    hide Exec, ExecAll, Own, Mine, Consistent;
    forall i | 0 <= i < |ts|
      ensures ExecAll(ts, moves)[i].hasExited && ExecAll(ts, moves)[i].runs <= ts[i].runs + 1
    {
      EachOnItsOwn(ts, moves, i);
      OneExits(ts[i], Mine(moves, i));
    }
  }
}
