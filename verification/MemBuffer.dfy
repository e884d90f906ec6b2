/**
 The in-memory buffers (buffbase.cpp, "membuff primitives"): a growable array of
 record pointers used as a bounded last-in first-out stack.
 */
module MemBuffer {
  import opened Words
  import opened WorkRecords
  import opened BufferFiles

  const COUNT_MAX := 20000
  const STEPS := 200

  datatype Pointer = Null | To(record: Record)

  class MemBuff {
    var count: nat
    var maxcount: nat
    var buff: seq<Pointer>

    ghost predicate Valid()
      reads this
    {
      && count <= maxcount == |buff| <= COUNT_MAX
      && maxcount % STEPS == 0
      && (forall i :: 0 <= i < count ==> buff[i].To?)
      && (forall i :: count <= i < maxcount ==> buff[i].Null?)
    }

    // The stack, oldest record first.
    ghost function Stack(): (s: seq<Record>)
      requires Valid()
      reads this
      ensures |s| == count
    {
      seq(count, i requires 0 <= i < count reads this requires Valid() => buff[i].record)
    }

    constructor ()
      ensures Valid() && Stack() == []
    {
      count, maxcount, buff := 0, 0, [];
    }

    // Pushes, or fails because the stack is at its bound or memory ran out.
    method Put(data: Record) returns (rc: int, n: nat, ghost fault: bool)
      requires Valid()
      modifies this
      ensures Valid()
      ensures rc == 0 || rc == -1
      ensures rc == 0 ==> Stack() == old(Stack()) + [data] && n == |Stack()| && !fault
      ensures rc == -1 ==> Stack() == old(Stack()) && (fault || |Stack()| == COUNT_MAX)
      ensures |old(Stack())| == COUNT_MAX ==> rc == -1
      // the stack never shrinks, and grows only when it is full to its capacity
      ensures maxcount == old(maxcount) || (maxcount == old(maxcount) + STEPS && old(count) == old(maxcount))
    {
      rc, n, fault := -1, 0, false;
      if count == maxcount && maxcount < COUNT_MAX {
        var newmax := maxcount + STEPS;
        if * {
          buff := buff + seq(newmax - maxcount, _ => Null);
          maxcount := newmax;
        } else {
          fault := true;
        }
      }
      if count < maxcount {
        if * {
          buff := buff[count := To(data)];
          count := count + 1;
          n, rc := count, 0;
        } else {
          fault := true;
        }
      }
      if rc == 0 {
        assert Stack() == old(Stack()) + [data];
      } else {
        assert Stack() == old(Stack());
      }
    }

    // Pops the record pushed last; the null-pointer error cannot occur.
    method Get() returns (rc: int, data: Record, n: nat)
      requires Valid()
      modifies this
      ensures Valid() && maxcount == old(maxcount)
      ensures rc == if old(Stack()) == [] then 1 else 0
      ensures rc == 0 ==> old(Stack()) == Stack() + [data] && n == |Stack()|
      ensures rc == 1 ==> Stack() == [] && n == 0
    {
      rc, data, n := 1, Blank(), 0;
      if count > 0 {
        rc := -1;
        count := count - 1;
        var src := buff[count];
        buff := buff[count := Null];
        if src.To? {
          rc, data, n := 0, src.record, count;
        }
        assert old(Stack()) == Stack() + [data];
      }
    }

    // Counts all records, or with units wanted those of one contest.
    method Count(contest: u32, wantUnits: bool) returns (packets: nat, units: u32)
      requires Valid()
      ensures !wantUnits ==> packets == |Stack()|
      ensures wantUnits ==> units == UnitsIn(Stack(), contest)
      ensures wantUnits ==> packets == MatchingValid(Stack(), contest)
    {
      packets, units := count, 0;
      if wantUnits {
        packets := 0;
        ghost var stack := Stack();
        var rec := 0;
        while rec < count
          invariant 0 <= rec <= count
          invariant units == UnitsIn(stack[..rec], contest)
          invariant packets == MatchingValid(stack[..rec], contest)
        {
          assert stack[..rec + 1][..rec] == stack[..rec];
          var p := buff[rec];
          if p.To? && p.record[CONTEST] == contest && p.record[RESULTCODE] <= RESULT_FOUND {
            packets := packets + 1;
            units := AddWrap(units, Units(p.record));
          }
          rec := rec + 1;
        }
        assert stack[..rec] == stack;
      }
    }
  }

  // Records of one contest whose state is recognised.
  function MatchingValid(records: seq<Record>, contest: u32): nat {
    if records == [] then 0
    else
      var last := |records| - 1;
      MatchingValid(records[..last], contest)
        + (if records[last][CONTEST] == contest && records[last][RESULTCODE] <= RESULT_FOUND then 1 else 0)
  }
}
