/**
 The crunchers and the flags by which the main loop controls them (clirun.cpp):
 __gsc_flag_allthreads and __CheckClearIfRefillNeeded walk the list of threads,
 Go_mt reads and writes the flags one at a time.
 */
module Crunchers {

  // The flags of a thread_param_block.
  class ThreadParamBlock {
    var hasExited: bool
    var refillNeeded: bool
    var doSuspend: bool
    var doExit: bool
    var isSuspended: bool

    constructor ()
      ensures !hasExited && !refillNeeded && !doSuspend && !doExit && !isSuspended
    {
      hasExited, refillNeeded, doSuspend, doExit, isSuspended := false, false, false, false, false;
    }
  }

  // The list of threads, no block twice.
  predicate Distinct(table: seq<ThreadParamBlock>) {
    forall i, j :: 0 <= i < j < |table| ==> table[i] != table[j]
  }

  datatype Flag = Exit | Suspend | Resume | Check

  // __gsc_flag_allthreads: a check reports whether all are suspended, anything
  // else sets the flags of all.  Flagging for exit also lifts a suspension.
  method FlagAll(table: seq<ThreadParamBlock>, flag: Flag) returns (rc: int)
    modifies set t | t in table
    ensures forall t :: t in table ==>
      t.hasExited == old(t.hasExited) && t.refillNeeded == old(t.refillNeeded) && t.isSuspended == old(t.isSuspended)
    ensures rc == if flag.Check? && exists t :: t in table && !t.isSuspended then -1 else 0
    ensures forall t :: t in table ==> t.doSuspend == if flag.Check? then old(t.doSuspend) else flag.Suspend?
    ensures forall t :: t in table ==> t.doExit == (old(t.doExit) || flag.Exit?)
  {
    var i := 0;
    while i < |table|
      invariant 0 <= i <= |table|
      invariant forall t :: t in table ==>
        t.hasExited == old(t.hasExited) && t.refillNeeded == old(t.refillNeeded) && t.isSuspended == old(t.isSuspended)
      invariant flag.Check? ==> forall t :: t in table[..i] ==> t.isSuspended
      invariant forall t :: t in table[..i] ==>
        t.doSuspend == (if flag.Check? then old(t.doSuspend) else flag.Suspend?)
            && t.doExit == (old(t.doExit) || flag.Exit?)
      invariant forall t :: t in table && t !in table[..i] ==>
        t.doSuspend == old(t.doSuspend) && t.doExit == old(t.doExit)
    {
      var t := table[i];
      assert table[..i + 1] == table[..i] + [t];
      if flag.Check? {
        if !t.isSuspended {
          return -1;
        }
      } else {
        if flag.Exit? {
          t.doExit := true;
        }
        t.doSuspend := flag.Suspend?;
      }
      i := i + 1;
    }
    assert table[..i] == table;
    rc := 0;
  }

  // The threads that ask for a refill.
  ghost function Asking(table: seq<ThreadParamBlock>): nat
    reads table
  {
    if table == [] then 0
    else Asking(table[..|table| - 1]) + if table[|table| - 1].refillNeeded then 1 else 0
  }

  // __CheckClearIfRefillNeeded: how many ask, and on demand the question is
  // taken as answered.
  method CheckClearIfRefillNeeded(table: seq<ThreadParamBlock>, doclear: bool) returns (refillneeded: nat)
    requires Distinct(table)
    modifies set t | t in table
    ensures refillneeded == old(Asking(table))
    ensures forall t :: t in table ==>
      t.hasExited == old(t.hasExited) && t.isSuspended == old(t.isSuspended) && t.doSuspend == old(t.doSuspend)
          && t.doExit == old(t.doExit)
    ensures forall t :: t in table ==> t.refillNeeded == (old(t.refillNeeded) && !doclear)
  {
    refillneeded := 0;
    var i := 0;
    while i < |table|
      invariant 0 <= i <= |table|
      invariant refillneeded == old(Asking(table[..i]))
      invariant forall t :: t in table ==>
        t.hasExited == old(t.hasExited) && t.isSuspended == old(t.isSuspended) && t.doSuspend == old(t.doSuspend)
            && t.doExit == old(t.doExit)
      invariant forall k :: 0 <= k < i ==> table[k].refillNeeded == (old(table[k].refillNeeded) && !doclear)
      invariant forall k :: i <= k < |table| ==> table[k].refillNeeded == old(table[k].refillNeeded)
    {
      assert table[..i + 1][..i] == table[..i];
      if table[i].refillNeeded {
        refillneeded := refillneeded + 1;
      }
      if doclear {
        table[i].refillNeeded := false;
      }
      i := i + 1;
    }
    assert table[..i] == table;
  }
}
