/**
 How far GetBufferRecord goes through the records of a buffer (buffbase.cpp).  A
 stack is searched from its top to its bottom.  A file is searched from its
 head, and the search goes on only while the file's own count, which is that of
 the contest of the record just read, is not zero.
 */
module Walk {
  import opened Words
  import opened Slots
  import opened WorkRecords
  import opened BufferFiles
  import opened Routing

  // The head of a file is the last record of its contest.
  predicate LastOfContest(held: seq<Record>)
    requires held != []
  {
    Matching(held[1..], held[0][CONTEST]) == 0
  }

  // The records a search for records at home in i takes out of a file.
  function Depth(held: seq<Record>, i: nat): (k: nat)
    ensures k <= |held| && (held != [] ==> k > 0)
  {
    if held == [] then 0
    else if AtHome(held[0], i) || LastOfContest(held) then 1
    else 1 + Depth(held[1..], i)
  }

  // The search ends with one.
  predicate Reaches(held: seq<Record>, i: nat) {
    var k := Depth(held, i);
    k > 0 && AtHome(held[k - 1], i)
  }

  // What is left when searches follow each other until one reports that nothing
  // is left.
  function LeftOver(held: seq<Record>): seq<Record> {
    if held == [] then []
    else if LastOfContest(held) then held[1..]
    else LeftOver(held[1..])
  }

  // ---------- what these mean ----------

  predicate Hidden(held: seq<Record>, j: nat)
    requires j < |held|
  {
    Matching(held[j + 1..], held[j][CONTEST]) == 0
  }

  // Record k is at home, and no record before it is at home or the last of its
  // contest.
  predicate InSight(held: seq<Record>, i: nat, k: nat) {
    && k < |held| && AtHome(held[k], i)
    && forall j: nat :: j < k ==> !AtHome(held[j], i) && !Hidden(held, j)
  }

  lemma InSightTail(held: seq<Record>, i: nat, k: nat)
    requires held != [] && !AtHome(held[0], i) && !LastOfContest(held)
    ensures InSight(held[1..], i, k) <==> InSight(held, i, k + 1)
  {
    hide AtHome, Matching;
    var rest := held[1..];
    forall j: nat | j < |rest|
      ensures rest[j] == held[j + 1] && (Hidden(rest, j) <==> Hidden(held, j + 1))
    {
      assert rest[j + 1..] == held[j + 2..];
    }
    if InSight(rest, i, k) {
      forall j: nat | j < k + 1
        ensures !AtHome(held[j], i) && !Hidden(held, j)
      {
        if j > 0 {
          assert !AtHome(rest[j - 1], i) && !Hidden(rest, j - 1);
        }
      }
    }
    if InSight(held, i, k + 1) {
      forall j: nat | j < k
        ensures !AtHome(rest[j], i) && !Hidden(rest, j)
      {
        assert !AtHome(held[j + 1], i) && !Hidden(held, j + 1);
      }
    }
  }

  // A search succeeds exactly if some record is in sight.
  lemma {:induction false} ReachesExactly(held: seq<Record>, i: nat)
    ensures Reaches(held, i) <==> exists k: nat :: InSight(held, i, k)
  {
    hide AtHome, Matching;
    if held != [] {
      if AtHome(held[0], i) {
        assert InSight(held, i, 0);
      } else if LastOfContest(held) {
        assert Hidden(held, 0);
        assert forall k: nat :: !InSight(held, i, k);
      } else {
        ReachesExactly(held[1..], i);
        assert Reaches(held, i) <==> Reaches(held[1..], i);
        if k: nat :| InSight(held[1..], i, k) {
          InSightTail(held, i, k);
        }
        if k: nat :| InSight(held, i, k) {
          InSightTail(held, i, k - 1);
        }
      }
    }
  }

  lemma HeadReaches(held: seq<Record>, i: nat)
    requires held != [] && AtHome(held[0], i)
    ensures Reaches(held, i)
  {
  }

  ghost predicate OneContest(held: seq<Record>) {
    forall r, s :: r in held && s in held ==> r[CONTEST] == s[CONTEST]
  }

  lemma {:induction false} MatchingNone(held: seq<Record>, contest: u32)
    ensures Matching(held, contest) == 0 <==> forall r :: r in held ==> r[CONTEST] != contest
  {
    if held == [] {
    } else {
      MatchingNone(held[1..], contest);
      assert held == [held[0]] + held[1..];
    }
  }

  // Nothing is left over exactly if all records have one contest.
  lemma {:induction false} LeftOverExactly(held: seq<Record>)
    ensures LeftOver(held) == [] <==> OneContest(held)
  {
    if held != [] {
      var first, rest := held[0], held[1..];
      assert held == [first] + rest;
      LeftOverExactly(rest);
      MatchingNone(rest, first[CONTEST]);
      if LastOfContest(held) {
        if rest != [] {
          assert rest[0] in held && rest[0][CONTEST] != first[CONTEST];
        }
      } else {
        var same :| same in rest && same[CONTEST] == first[CONTEST];
        assert OneContest(rest) ==> forall r :: r in rest ==> r[CONTEST] == same[CONTEST];
      }
    }
  }

  lemma {:induction false} LeftOverShorter(held: seq<Record>)
    ensures held != [] ==> |LeftOver(held)| < |held|
  {
    if held != [] && !LastOfContest(held) {
      LeftOverShorter(held[1..]);
    }
  }

  // If just the head is taken, it was the last of its contest.
  lemma LastIfLeft(held: seq<Record>)
    requires held != []
    ensures LeftOver(held) == held[1..] ==> LastOfContest(held)
  {
    LeftOverShorter(held[1..]);
  }

  // Two foreign records hide the work behind them, although the first is not the
  // last of its contest; so it is in a stock file of three records.
  lemma TwoHideTheThird()
    ensures var u, r := Blank()[CONTEST := UNHANDLED], Blank()[CONTEST := RC5_72];
      && StockRecords(u + u + r) == [u, u, r]
      && AtHome(r, HERE) && !LastOfContest([u, u, r]) && !Reaches([u, u, r], HERE)
  {
    hide Switched;
    var u, r := Blank()[CONTEST := UNHANDLED], Blank()[CONTEST := RC5_72];
    OneChunk(u, 42);
    ChunkAppend(u, 42, u);
    ChunkAppend(u + u, 42, r);
    assert StockSlots(u + u + r) == [u] + [u] + [r] == [u, u, r];
    ZeroWork();
    AllLive(u, r);
    assert HostOrder([u, u, r]) == [u, u, r];
    var held: seq<Record> := [u, u, r];
    var two: seq<Record> := [u, r];
    var one: seq<Record> := [r];
    assert held[1..] == two && two[1..] == one && |one[1..]| == 0;
    assert Matching(one, UNHANDLED) == 0 && Matching(two, UNHANDLED) == 1;
    assert Depth(two, HERE) == 1 && Depth(held, HERE) == 2;
  }

  lemma AllLive(u: Record, r: Record)
    requires u != Blank() && r != Blank()
    ensures Live([u, u, r], Blank()) == [u, u, r]
  {
    var all: seq<Record> := [u, u, r];
    var two: seq<Record> := [u, r];
    var one: seq<Record> := [r];
    assert all[1..] == two && two[1..] == one && |one[1..]| == 0;
    assert Live(one, Blank()) == one && Live(two, Blank()) == two;
  }

  lemma ZeroWork()
    ensures Switched(Blank()[CONTEST := UNHANDLED]) == Blank()[CONTEST := UNHANDLED]
    ensures Switched(Blank()[CONTEST := RC5_72]) == Blank()[CONTEST := RC5_72]
    ensures Blank()[CONTEST := UNHANDLED] != Blank() && Blank()[CONTEST := RC5_72] != Blank()
  {
    assert Blank()[CONTEST := UNHANDLED][CONTEST] == UNHANDLED && Blank()[CONTEST := RC5_72][CONTEST] == RC5_72;
    assert ByteSwap(0) == 0;
  }

  // ---------- the records taken ----------

  // What was taken, in order, when `left` are left: from the top of a stack, from
  // the head of a file.
  function TakenOut(mem: bool, held: seq<Record>, left: nat): (taken: seq<Record>)
    ensures left <= |held| ==> |taken| == |held| - left
    decreases |held| - left
  {
    if left >= |held| then []
    else TakenOut(mem, held, left + 1) + [if mem then held[left] else held[|held| - 1 - left]]
  }

  lemma {:induction false} TakenWithin(mem: bool, held: seq<Record>, left: nat)
    ensures forall r :: r in TakenOut(mem, held, left) ==> r in held
    decreases |held| - left
  {
    if left < |held| {
      TakenWithin(mem, held, left + 1);
    }
  }

  // What is left when those were taken.
  predicate LeftIs(mem: bool, held: seq<Record>, rest: seq<Record>) {
    |rest| <= |held| && rest == if mem then held[..|rest|] else held[|held| - |rest|..]
  }

  lemma TakenNext(mem: bool, held: seq<Record>, mid: seq<Record>, r: Record, rest: seq<Record>)
    requires LeftIs(mem, held, mid) && if mem then mid == rest + [r] else mid == [r] + rest
    ensures LeftIs(mem, held, rest) && TakenOut(mem, held, |rest|) == TakenOut(mem, held, |mid|) + [r]
  {
  }

  // Taking on from there.
  lemma {:induction false} TakenOn(mem: bool, held: seq<Record>, mid: seq<Record>, left: nat)
    requires LeftIs(mem, held, mid) && left <= |mid|
    ensures TakenOut(mem, held, left) == TakenOut(mem, held, |mid|) + TakenOut(mem, mid, left)
    decreases |mid| - left
  {
    if left < |mid| {
      TakenOn(mem, held, mid, left + 1);
    }
  }

  lemma LeftOn(mem: bool, held: seq<Record>, mid: seq<Record>, rest: seq<Record>)
    requires LeftIs(mem, held, mid) && LeftIs(mem, mid, rest)
    ensures LeftIs(mem, held, rest)
  {
  }

  // ---------- a search under way ----------

  // `rest` is what is left of `held` while nothing wanted has been found.
  ghost predicate Walked(mem: bool, held: seq<Record>, i: nat, rest: seq<Record>, quiet: bool) {
    && |rest| <= |held|
    && var k := |held| - |rest|;
       if mem then rest == held[..|rest|] && forall j :: |rest| <= j < |held| ==> !AtHome(held[j], i)
       else
         && rest == held[k..] && (forall j :: 0 <= j < k ==> !AtHome(held[j], i))
         && (quiet ==> Depth(held, i) == k + Depth(rest, i) && LeftOver(held) == LeftOver(rest))
         && (quiet && rest == [] ==> k == Depth(held, i))
  }

  lemma WalkStarts(mem: bool, held: seq<Record>, i: nat, quiet: bool)
    ensures Walked(mem, held, i, held, quiet)
  {
  }

  lemma WalkedWithin(mem: bool, held: seq<Record>, i: nat, rest: seq<Record>, quiet: bool)
    requires Walked(mem, held, i, rest, quiet)
    ensures forall r :: r in rest ==> r in held
  {
  }

  lemma WalkedLeaves(mem: bool, held: seq<Record>, i: nat, rest: seq<Record>, quiet: bool)
    requires Walked(mem, held, i, rest, quiet)
    ensures LeftIs(mem, held, rest)
  {
  }

  // One more record taken that is not wanted.
  lemma WalkOn(mem: bool, held: seq<Record>, i: nat, mid: seq<Record>, r: Record, rest: seq<Record>, quiet: bool,
               still: bool)
    requires Walked(mem, held, i, mid, quiet) && !AtHome(r, i)
    requires if mem then mid == rest + [r] else mid == [r] + rest
    requires still ==> quiet && (mem || Matching(rest, r[CONTEST]) > 0)
    ensures Walked(mem, held, i, rest, still)
  {
    if !mem {
      assert mid[0] == r && mid[1..] == rest;
    }
  }

  // What a search has done when it ends with rc.
  ghost predicate Sought(mem: bool, held: seq<Record>, i: nat, rc: int, data: Record, rest: seq<Record>, quiet: bool) {
    && |rest| <= |held|
    && (rc >= 0 ==> |rest| < |held| && AtHome(data, i))
    && var k := |held| - |rest|;
       if mem then
         && rest == held[..|rest|]
         && (rc >= 0 ==> data == held[|rest|] && forall j :: |rest| < j < |held| ==> !AtHome(held[j], i))
         && (rc < 0 ==> forall j :: |rest| <= j < |held| ==> !AtHome(held[j], i))
         && (rc < 0 && quiet ==> rest == [])
       else
         && rest == held[k..]
         && (rc >= 0 ==> data == held[k - 1] && forall j :: 0 <= j < k - 1 ==> !AtHome(held[j], i))
         && (rc < 0 ==> forall j :: 0 <= j < k ==> !AtHome(held[j], i))
         && (quiet ==>
               && k == Depth(held, i) && (rc >= 0 <==> Reaches(held, i))
               && (if rc > 0 then LeftOver(rest) == LeftOver(held) else rest == LeftOver(held)))
  }

  // The record wanted is found.
  lemma WalkFinds(mem: bool, held: seq<Record>, i: nat, mid: seq<Record>, r: Record, rest: seq<Record>, count: nat,
                  quiet: bool, still: bool)
    requires Walked(mem, held, i, mid, quiet) && AtHome(r, i)
    requires if mem then mid == rest + [r] else mid == [r] + rest
    requires still ==> quiet && (mem || count == Matching(rest, r[CONTEST]))
    ensures Sought(mem, held, i, count, r, rest, still)
  {
    if !mem {
      assert mid[0] == r && mid[1..] == rest;
    }
  }

  // The search stops at a record that is not wanted.
  lemma WalkStops(mem: bool, held: seq<Record>, i: nat, mid: seq<Record>, r: Record, rest: seq<Record>, quiet: bool,
                  still: bool)
    requires Walked(mem, held, i, mid, quiet) && !AtHome(r, i)
    requires if mem then mid == rest + [r] && (still ==> rest == []) else mid == [r] + rest
    requires still ==> quiet && (mem || Matching(rest, r[CONTEST]) == 0)
    ensures Sought(mem, held, i, -1, r, rest, still)
  {
    if !mem {
      assert mid[0] == r && mid[1..] == rest;
    }
  }

  // The search finds the buffer empty, or cannot read it.
  lemma WalkEnds(mem: bool, held: seq<Record>, i: nat, rest: seq<Record>, data: Record, quiet: bool, still: bool)
    requires Walked(mem, held, i, rest, quiet)
    requires still ==> quiet && rest == []
    ensures Sought(mem, held, i, -1, data, rest, still)
  {
  }

  lemma {:induction false} NoneTaken(mem: bool, held: seq<Record>, left: nat, i: nat)
    requires left <= |held|
    requires if mem then forall j :: left <= j < |held| ==> !AtHome(held[j], i)
             else forall j :: 0 <= j < |held| - left ==> !AtHome(held[j], i)
    ensures AtHomeIn(TakenOut(mem, held, left), i) == []
    decreases |held| - left
  {
    if left < |held| {
      NoneTaken(mem, held, left + 1, i);
      OneMoreHome(TakenOut(mem, held, left + 1), if mem then held[left] else held[|held| - 1 - left], i);
    }
  }

  // Of what a search takes only the record it finds was wanted.
  lemma SoughtTakes(mem: bool, held: seq<Record>, i: nat, rc: int, data: Record, rest: seq<Record>, quiet: bool)
    requires Sought(mem, held, i, rc, data, rest, quiet)
    ensures LeftIs(mem, held, rest)
    ensures AtHomeIn(TakenOut(mem, held, |rest|), i) == if rc >= 0 then [data] else []
  {
    hide AtHome, Depth, Reaches, LeftOver, AtHomeIn;
    if rc >= 0 {
      NoneTaken(mem, held, |rest| + 1, i);
      OneMoreHome(TakenOut(mem, held, |rest| + 1), data, i);
    } else {
      NoneTaken(mem, held, |rest|, i);
    }
  }

  // A search takes records out and neither adds nor reorders any.
  lemma SoughtShrinks(mem: bool, held: seq<Record>, i: nat, rc: int, data: Record, rest: seq<Record>, quiet: bool,
                      contest: u32)
    requires Sought(mem, held, i, rc, data, rest, quiet)
    ensures forall r :: r in rest ==> r in held
    ensures rc >= 0 ==> data in held
    ensures !mem ==> Matching(rest, contest) <= Matching(held, contest)
    ensures !mem && rc >= 0 && data[CONTEST] == contest ==> Matching(rest, contest) < Matching(held, contest)
  {
    hide Depth, LeftOver, AtHome, Reaches;
    var k := |held| - |rest|;
    if !mem {
      MatchingSuffix(held, k, contest);
      if rc >= 0 && data[CONTEST] == contest {
        MatchingSuffix(held, k - 1, contest);
        OneLess(held, k, contest);
      }
    }
  }

  lemma OneLess(held: seq<Record>, k: nat, contest: u32)
    requires 0 < k <= |held| && held[k - 1][CONTEST] == contest
    ensures Matching(held[k - 1..], contest) == 1 + Matching(held[k..], contest)
  {
    assert held[k - 1..][1..] == held[k..];
  }

  lemma {:induction false} MatchingSuffix(held: seq<Record>, k: nat, contest: u32)
    requires k <= |held|
    ensures Matching(held[k..], contest) <= Matching(held, contest)
  {
    if k == 0 {
    } else {
      MatchingSuffix(held[1..], k - 1, contest);
      assert held[1..][k - 1..] == held[k..];
    }
  }
}
