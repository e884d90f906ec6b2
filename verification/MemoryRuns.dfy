/**
 Runs of PutBufferRecord and GetBufferRecord on buffers in memory (buffbase.cpp):
 in every state that can be reached from empty stacks, each in-buffer holds only
 unfinished records of its contest and each out-buffer only finished ones, and
 every call is a push or a pop of one stack or changes nothing.
 */
module MemoryRuns {
  import opened WorkRecords
  import opened BufferDisk
  import opened MemBuffer
  import opened Routing
  import opened BufferStore
  import opened Walk
  import opened CrossSave

  // A call and what it returned.
  datatype Event =
    | Put(r: Record, rc: int)
    | Get(contest: nat, useOut: bool, rc: int, data: Record, toll: Toll, exiting: bool)

  ghost predicate Happens(a: Status, e: Event, b: Status)
    requires Coherent(a) && Coherent(b)
  {
    match e
    case Put(r, rc) => Stored(a, r, rc, b)
    case Get(contest, useOut, rc, data, toll, exiting) => TakenFrom(a, contest, useOut, rc, data, toll, exiting, b)
  }

  // The records put and taken.
  function PutBy(e: Event): seq<Record> {
    if e.Put? && e.rc >= 1 then [e.r] else []
  }

  function TakenBy(e: Event): seq<Record> {
    if e.Get? && e.rc >= 0 then [e.data] else []
  }

  function AllPut(events: seq<Event>): seq<Record> {
    if events == [] then [] else AllPut(events[..|events| - 1]) + PutBy(events[|events| - 1])
  }

  function AllTaken(events: seq<Event>): seq<Record> {
    if events == [] then [] else AllTaken(events[..|events| - 1]) + TakenBy(events[|events| - 1])
  }

  // A Put pushes onto the stack the record belongs to, or fails; it fails without
  // an allocation error only if there is no such stack or it is full.
  lemma PutIsPush(a: Status, r: Record, rc: int, b: Status)
    requires Coherent(a) && Coherent(b) && a.mem && AllHome(a.view) && Stored(a, r, rc, b)
    ensures b.mem && AllHome(b.view)
    ensures rc >= 1 ==>
      Routable(r) && b.view == a.view[HomeOf(r) := a.view[HomeOf(r)] + [r]] && rc == |b.view[HomeOf(r)]|
    ensures rc < 1 ==> b.view == a.view
    ensures rc < 1 && b.faults == a.faults ==> !Routable(r) || |a.view[HomeOf(r)]| == COUNT_MAX
  {
    if rc >= 1 {
      forall i, x | 0 <= i < |b.view| && x in b.view[i]
        ensures AtHome(x, i)
      {
        assert x in a.view[i] || (i == HomeOf(r) && x == r);
      }
    }
  }

  // A Get pops the stack it names, or finds it empty.
  lemma GetIsPop(a: Status, contest: nat, useOut: bool, rc: int, data: Record, toll: Toll, exiting: bool, b: Status)
    requires Coherent(a) && Coherent(b) && a.mem && AllHome(a.view)
    requires TakenFrom(a, contest, useOut, rc, data, toll, exiting, b)
    ensures b.mem && AllHome(b.view) && toll == FREE
    ensures rc >= 0 ==> contest < CONTEST_COUNT && var i := SlotFor(contest, useOut);
      AtHome(data, i) && a.view == b.view[i := b.view[i] + [data]] && rc == |b.view[i]|
    ensures rc < 0 ==> b.view == a.view
    ensures rc < 0 && !exiting && contest < CONTEST_COUNT ==> a.view[SlotFor(contest, useOut)] == []
  {
    hide Balanced, Excused, ForgottenAt, Elsewhere, OthersKept, AllSpread;
    if contest < CONTEST_COUNT {
      var i := SlotFor(contest, useOut);
      var held, rest := a.view[i], b.view[i];
      if held != [] {
        assert held[|held| - 1] in a.view[i] && AtHome(held[|held| - 1], i);
      }
      if rc >= 0 {
        assert |rest| == |held| - 1;
        assert held == rest + [data];
      } else {
        assert |rest| == |held|;
        assert rest == held;
      }
    }
  }

  // A run of calls on buffers in memory, from empty stacks.
  ghost predicate IsRun(states: seq<Status>, events: seq<Event>) {
    && |states| == |events| + 1 && (forall k :: 0 <= k < |states| ==> Coherent(states[k]))
    && states[0].mem && (forall i :: 0 <= i < BUFFERS ==> states[0].view[i] == [])
    && (forall k :: 0 <= k < |events| ==> Happens(states[k], events[k], states[k + 1]))
  }

  // What every call keeps, over every run: the records in the stacks are those
  // put and not yet taken, each where it belongs.
  lemma {:induction false} StacksKeepAll(states: seq<Status>, events: seq<Event>)
    requires IsRun(states, events)
    ensures var last := states[|events|];
      && Coherent(last) && last.mem && AllHome(last.view)
      && (forall i :: 0 <= i < BUFFERS ==> |last.view[i]| <= COUNT_MAX)
      && Bag(last.view) + multiset(AllTaken(events)) == multiset(AllPut(events))
  {
    hide Happens;
    if events == [] {
      EmptyBag(states[0].view);
    } else {
      var n := |events| - 1;
      StacksKeepAll(states[..n + 1], events[..n]);
      OneCall(states[n], events[n], states[n + 1], AllPut(events[..n]), AllTaken(events[..n]));
    }
  }

  lemma OneCall(a: Status, e: Event, b: Status, puts: seq<Record>, taken: seq<Record>)
    requires Coherent(a) && Coherent(b) && a.mem && AllHome(a.view) && Happens(a, e, b)
    requires Bag(a.view) + multiset(taken) == multiset(puts)
    ensures b.mem && AllHome(b.view)
    ensures Bag(b.view) + multiset(taken + TakenBy(e)) == multiset(puts + PutBy(e))
  {
    hide Bag, AllHome, Stored, TakenFrom;
    match e
    case Put(r, rc) =>
      PutGains(a, r, rc, b);
    case Get(contest, useOut, rc, data, toll, exiting) =>
      GetGives(a, contest, useOut, rc, data, toll, exiting, b);
  }

  lemma PutGains(a: Status, r: Record, rc: int, b: Status)
    requires Coherent(a) && Coherent(b) && a.mem && AllHome(a.view) && Stored(a, r, rc, b)
    ensures b.mem && AllHome(b.view)
    ensures Bag(b.view) == Bag(a.view) + multiset(if rc >= 1 then [r] else [])
  {
    hide Bag, AllHome, Stored;
    PutIsPush(a, r, rc, b);
    if rc >= 1 {
      AppendAdds(a.view[HomeOf(r)], r);
      BagGains(a.view, HomeOf(r), r, b.view);
    }
  }

  lemma GetGives(a: Status, contest: nat, useOut: bool, rc: int, data: Record, toll: Toll, exiting: bool, b: Status)
    requires Coherent(a) && Coherent(b) && a.mem && AllHome(a.view)
    requires TakenFrom(a, contest, useOut, rc, data, toll, exiting, b)
    ensures b.mem && AllHome(b.view)
    ensures Bag(a.view) == Bag(b.view) + multiset(if rc >= 0 then [data] else [])
  {
    hide Bag, AllHome, TakenFrom;
    GetIsPop(a, contest, useOut, rc, data, toll, exiting, b);
    if rc >= 0 {
      var i := SlotFor(contest, useOut);
      AppendAdds(b.view[i], data);
      BagGains(b.view, i, data, a.view);
    }
  }

  lemma {:induction false} EmptyBag(view: seq<seq<Record>>)
    requires forall i :: 0 <= i < |view| ==> view[i] == []
    ensures Bag(view) == multiset{} && AllHome(view)
  {
    if view == [] {
    } else {
      EmptyBag(view[1..]);
    }
  }

  // ---------- a full stack ----------

  // A stack counts as full by its capacity, which only grows.
  lemma OneCallGrows(a: Status, e: Event, b: Status)
    requires Coherent(a) && Coherent(b) && Happens(a, e, b) && a.mem && AllHome(a.view)
    ensures b.mem && a.capacity <= b.capacity
    ensures b.capacity == a.capacity || (|a.view[HERE]| == a.capacity && b.capacity == a.capacity + STEPS)
  {
    hide Sought, Balanced, Excused, ForgottenAt, Elsewhere, OthersKept, AllSpread;
  }

  // Once there were so many records that the stack had grown to its largest
  // capacity, the in-buffer looks full ever after, whatever it holds.
  lemma {:induction false} FullForEver(states: seq<Status>, events: seq<Event>, j: nat, k: nat)
    requires IsRun(states, events) && j <= k < |states| && |states[j].view[HERE]| > COUNT_MAX - STEPS
    ensures states[k].mem && states[k].capacity == COUNT_MAX
  {
    hide Happens;
    if k == j {
      StacksKeepAll(states[..k + 1], events[..k]);
      FullCapacity(states[k]);
    } else {
      FullForEver(states, events, j, k - 1);
      StacksKeepAll(states[..k], events[..k - 1]);
      OneCallGrows(states[k - 1], events[k - 1], states[k]);
    }
  }

  lemma FullCapacity(a: Status)
    requires Coherent(a) && a.mem && |a.view[HERE]| > COUNT_MAX - STEPS
    ensures a.capacity == COUNT_MAX
  {
  }

  // And it looks full only then: some call found it with all but the last
  // STEPS records.
  lemma {:induction false} FullOnlyThen(states: seq<Status>, events: seq<Event>, k: nat) returns (j: nat)
    requires IsRun(states, events) && k < |states| && states[0].capacity == 0 && states[k].capacity == COUNT_MAX
    ensures j < k && |states[j].view[HERE]| == COUNT_MAX - STEPS
  {
    hide Happens;
    StacksKeepAll(states[..k], events[..k - 1]);
    OneCallGrows(states[k - 1], events[k - 1], states[k]);
    if states[k - 1].capacity == COUNT_MAX {
      j := FullOnlyThen(states, events, k - 1);
    } else {
      j := k - 1;
    }
  }

  // ---------- a stack that is empty and looks full ----------

  // Only the in-buffer holds records, n times the same.
  function Alone(r: Record, n: nat, capacity: nat): Status {
    Status(true, false, seq(BUFFERS, _ => [])[HERE := seq(n, _ => r)], Disk(map[], false, true), 0, capacity)
  }

  // The capacity a stack needs for n records.
  function Needed(n: nat): (capacity: nat)
    ensures n <= capacity < n + STEPS && capacity % STEPS == 0
  {
    if n % STEPS == 0 then n else n - n % STEPS + STEPS
  }

  lemma PushAlone(r: Record, n: nat)
    requires AtHome(r, HERE) && n < COUNT_MAX
    ensures var a, b := Alone(r, n, Needed(n)), Alone(r, n + 1, Needed(n + 1));
      Coherent(a) && Coherent(b) && Happens(a, Put(r, n + 1), b)
  {
    var a, b := Alone(r, n, Needed(n)), Alone(r, n + 1, Needed(n + 1));
    NeededNext(n);
    assert b.view[HERE] == a.view[HERE] + [r];
    assert b.view == a.view[HERE := a.view[HERE] + [r]];
  }

  lemma NeededNext(n: nat)
    requires n < COUNT_MAX
    ensures Needed(n + 1) == if Needed(n) == n then n + STEPS else Needed(n)
    ensures Needed(n + 1) <= COUNT_MAX
  {
  }

  lemma {:induction false} Filled(r: Record, n: nat) returns (states: seq<Status>, events: seq<Event>)
    requires AtHome(r, HERE) && n <= COUNT_MAX
    ensures IsRun(states, events) && states[0].capacity == 0 && |events| == n
    ensures states[n] == Alone(r, n, Needed(n))
  {
    hide Happens;
    if n == 0 {
      states, events := [Alone(r, 0, 0)], [];
    } else {
      states, events := Filled(r, n - 1);
      PushAlone(r, n - 1);
      states, events := states + [Alone(r, n, Needed(n))], events + [Put(r, n)];
    }
  }

  lemma PopAlone(r: Record, n: nat)
    requires AtHome(r, HERE) && 0 < n <= COUNT_MAX
    ensures var a, b := Alone(r, n, COUNT_MAX), Alone(r, n - 1, COUNT_MAX);
      Coherent(a) && Coherent(b) && Happens(a, Get(RC5_72, false, n - 1, r, FREE, false), b)
  {
    var a, b := Alone(r, n, COUNT_MAX), Alone(r, n - 1, COUNT_MAX);
    assert a.view[HERE] == b.view[HERE] + [r];
    assert forall j :: 0 <= j < BUFFERS && j != HERE ==> a.view[j] == b.view[j] == [];
    PopAccounted(a.view, HERE, r, b.view);
    PopSpreads(a, r, b);
  }

  lemma PopSpreads(a: Status, r: Record, b: Status)
    requires Coherent(a) && Coherent(b) && a.mem && AtHome(r, HERE) && a.view[HERE] == b.view[HERE] + [r]
    requires forall j :: 0 <= j < BUFFERS && j != HERE ==> b.view[j] == a.view[j]
    ensures AllSpread(a, HERE, BUFFERS, |b.view[HERE]|, FREE, b)
  {
    var held, left := a.view[HERE], |b.view[HERE]|;
    assert TakenOut(true, held, left + 1) == [] && TakenOut(true, held, left) == [] + [r];
    OneMoreHome([], r, HERE);
    forall j | 0 <= j < BUFFERS && j != HERE
      ensures Reached(a, j, [], [], b)
    {
      ReachedNothing(a, j, b);
    }
    assert Spread(a, HERE, BUFFERS, left, [], FREE, b);
  }

  // After as many calls of PutBufferRecord and GetBufferRecord as it takes, the
  // in-buffer is empty and looks full.
  lemma {:induction false} Emptied(r: Record, n: nat) returns (states: seq<Status>, events: seq<Event>)
    requires AtHome(r, HERE) && n <= COUNT_MAX
    ensures IsRun(states, events) && states[0].capacity == 0
    ensures states[|events|] == Alone(r, n, COUNT_MAX)
    decreases COUNT_MAX - n
  {
    hide Happens;
    if n == COUNT_MAX {
      states, events := Filled(r, n);
    } else {
      states, events := Emptied(r, n + 1);
      PopAlone(r, n + 1);
      states, events := states + [Alone(r, n, COUNT_MAX)], events + [Get(RC5_72, false, n, r, FREE, false)];
    }
  }

  lemma EmptyAndFull(r: Record) returns (states: seq<Status>, events: seq<Event>)
    requires AtHome(r, HERE)
    ensures IsRun(states, events)
    ensures var last := states[|events|];
      last.capacity == COUNT_MAX && forall i :: 0 <= i < BUFFERS ==> last.view[i] == []
  {
    hide Happens, IsRun;
    states, events := Emptied(r, 0);
  }
}
