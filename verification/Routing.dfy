/**
 Where records belong (buffbase.cpp): the fourteen buffers of a client, the
 buffer a record's own contest and result name, and the accounts that say what
 became of every record between two states of all buffers.
 */
module Routing {
  import opened WorkRecords
  import opened Slots
  import opened BufferFiles
  import opened BufferDisk
  import opened BufferRuns

  const BUFFERS := 14

  const HERE := 10  // the RC5-72 in-buffer
  const OUT := 11   // the RC5-72 out-buffer

  // membufftable[contest].in and .out
  function SlotFor(contest: nat, out: bool): (i: nat)
    requires contest < CONTEST_COUNT
    ensures i < BUFFERS
    ensures i / 2 == contest && (i % 2 == 1 <==> out)
  {
    2 * contest + if out then 1 else 0
  }

  function LocalOf(i: nat): FileName {
    Local(i / 2, i % 2 == 1)
  }

  lemma LocalsDiffer(i: nat, j: nat)
    requires i != j
    ensures LocalOf(i) != LocalOf(j)
  {
  }

  // A record some buffer will take.
  predicate Routable(r: Record) {
    r[CONTEST] < CONTEST_COUNT && r[RESULTCODE] <= RESULT_FOUND
  }

  // The buffer named by the record's own contest and result.
  function HomeOf(r: Record): (i: nat)
    requires Routable(r)
    ensures i < BUFFERS
  {
    SlotFor(r[CONTEST], r[RESULTCODE] != RESULT_WORKING)
  }

  predicate AtHome(r: Record, i: nat) {
    Routable(r) && HomeOf(r) == i
  }

  // Buffer i is the home of one of the records.
  ghost predicate SomeAtHome(records: seq<Record>, i: nat) {
    exists r :: r in records && AtHome(r, i)
  }

  lemma HomeOfHandled(r: Record)
    requires Routable(r) && r[CONTEST] == RC5_72
    ensures HomeOf(r) == if r[RESULTCODE] == RESULT_WORKING then HERE else OUT
  {
  }

  // The buffers take the seven contests and the results 0, 1 and 2; unfinished
  // work belongs in the in-buffer of its contest, the others in the out-buffer.
  lemma KnownCodes(r: Record)
    ensures Routable(r) <==> r[37] < 7 && (r[20] == 0 || r[20] == 1 || r[20] == 2)
    ensures Routable(r) ==> LocalOf(HomeOf(r)) == Local(r[37], r[20] != 0)
    ensures r[37] == 5 && r[20] == 0 ==> AtHome(r, 10)
    ensures r[37] == 5 && (r[20] == 1 || r[20] == 2) ==> AtHome(r, 11)
    ensures LocalOf(10) == Local(5, false) && LocalOf(11) == Local(5, true)
  {
  }

  // Unfinished RC5-72 work.
  ghost predicate AllWork(s: seq<Record>) {
    forall r :: r in s ==> r[CONTEST] == RC5_72 && r[RESULTCODE] == RESULT_WORKING
  }

  // ---------- records by their homes ----------

  // The records that belong in buffer j, in order.
  function AtHomeIn(s: seq<Record>, j: nat): seq<Record> {
    if s == [] then []
    else
      var last := s[|s| - 1];
      AtHomeIn(s[..|s| - 1], j) + if AtHome(last, j) then [last] else []
  }

  // Those that do not.
  function Strays(s: seq<Record>, i: nat): seq<Record> {
    if s == [] then []
    else
      var last := s[|s| - 1];
      Strays(s[..|s| - 1], i) + if AtHome(last, i) then [] else [last]
  }

  lemma OneMoreHome(s: seq<Record>, r: Record, j: nat)
    ensures AtHomeIn(s + [r], j) == AtHomeIn(s, j) + if AtHome(r, j) then [r] else []
    ensures Strays(s + [r], j) == Strays(s, j) + if AtHome(r, j) then [] else [r]
  {
    assert (s + [r])[..|s|] == s;
  }

  lemma OneHome(r: Record, j: nat)
    ensures AtHomeIn([r], j) == (if AtHome(r, j) then [r] else []) && AtHomeIn([], j) == []
  {
    assert [r][..0] == [];
  }

  lemma Joined(a: seq<Record>, b: seq<Record>, c: seq<Record>)
    ensures a + b + c == a + (b + c)
  {
  }

  lemma {:induction false} HomesConcat(s: seq<Record>, t: seq<Record>, j: nat)
    ensures AtHomeIn(s + t, j) == AtHomeIn(s, j) + AtHomeIn(t, j)
    ensures Strays(s + t, j) == Strays(s, j) + Strays(t, j)
  {
    if t == [] {
      assert s + t == s;
    } else {
      hide AtHome, AtHomeIn, Strays;
      var init, last := t[..|t| - 1], t[|t| - 1];
      HomesConcat(s, init, j);
      assert s + t == (s + init) + [last] && t == init + [last];
      OneMoreHome(s + init, last, j);
      OneMoreHome(init, last, j);
      Joined(AtHomeIn(s, j), AtHomeIn(init, j), if AtHome(last, j) then [last] else []);
      Joined(Strays(s, j), Strays(init, j), if AtHome(last, j) then [] else [last]);
    }
  }

  lemma {:induction false} HomesWithin(s: seq<Record>, j: nat)
    ensures forall r :: r in AtHomeIn(s, j) <==> r in s && AtHome(r, j)
    ensures forall r :: r in Strays(s, j) <==> r in s && !AtHome(r, j)
  {
    if s == [] {
    } else {
      var init, last := s[..|s| - 1], s[|s| - 1];
      assert s == init + [last];
      HomesWithin(init, j);
    }
  }

  // Strays from i that belong in j are what belongs in j.
  lemma {:induction false} StraysHome(s: seq<Record>, i: nat, j: nat)
    requires i != j
    ensures AtHomeIn(Strays(s, i), j) == AtHomeIn(s, j)
  {
    if s == [] {
    } else {
      var init, last := s[..|s| - 1], s[|s| - 1];
      StraysHome(init, i, j);
      OneMoreHome(Strays(init, i), last, j);
      assert Strays(init, i) + [] == Strays(init, i);
    }
  }

  // t is made of s and d, each in its order.
  ghost predicate Parted(t: seq<Record>, s: seq<Record>, d: seq<Record>)
    decreases |t|
  {
    if t == [] then s == [] && d == []
    else
      var init, last := t[..|t| - 1], t[|t| - 1];
      || (s != [] && s[|s| - 1] == last && Parted(init, s[..|s| - 1], d))
      || (d != [] && d[|d| - 1] == last && Parted(init, s, d[..|d| - 1]))
  }

  lemma PartedMore(t: seq<Record>, s: seq<Record>, d: seq<Record>, r: Record)
    requires Parted(t, s, d)
    ensures Parted(t + [r], s + [r], d) && Parted(t + [r], s, d + [r])
  {
    assert (t + [r])[..|t|] == t && (s + [r])[..|s|] == s && (d + [r])[..|d|] == d;
  }

  lemma {:induction false} PartedJoin(t1: seq<Record>, s1: seq<Record>, d1: seq<Record>,
                                      t2: seq<Record>, s2: seq<Record>, d2: seq<Record>)
    requires Parted(t1, s1, d1) && Parted(t2, s2, d2)
    ensures Parted(t1 + t2, s1 + s2, d1 + d2)
    decreases |t2|
  {
    if t2 == [] {
      assert t1 + t2 == t1 && s1 + s2 == s1 && d1 + d2 == d1;
    } else {
      var init, last := t2[..|t2| - 1], t2[|t2| - 1];
      LastApart(t1, t2);
      if s2 != [] && s2[|s2| - 1] == last && Parted(init, s2[..|s2| - 1], d2) {
        PartedJoin(t1, s1, d1, init, s2[..|s2| - 1], d2);
        PartedMore(t1 + init, s1 + s2[..|s2| - 1], d1 + d2, last);
        LastApart(s1, s2);
      } else {
        PartedJoin(t1, s1, d1, init, s2, d2[..|d2| - 1]);
        PartedMore(t1 + init, s1 + s2, d1 + d2[..|d2| - 1], last);
        LastApart(d1, d2);
      }
    }
  }

  lemma LastApart(s: seq<Record>, t: seq<Record>)
    requires t != []
    ensures s + t == (s + t[..|t| - 1]) + [t[|t| - 1]]
  {
  }

  // What belongs in j is all in s, if nothing of it is in d.
  lemma {:induction false} PartedHome(t: seq<Record>, s: seq<Record>, d: seq<Record>, j: nat)
    requires Parted(t, s, d) && forall r :: r in d ==> !AtHome(r, j)
    ensures AtHomeIn(s, j) == AtHomeIn(t, j)
    decreases |t|
  {
    if t == [] {
    } else {
      var init, last := t[..|t| - 1], t[|t| - 1];
      if s != [] && s[|s| - 1] == last && Parted(init, s[..|s| - 1], d) {
        PartedHome(init, s[..|s| - 1], d, j);
      } else {
        assert last in d;
        PartedHome(init, s, d[..|d| - 1], j);
      }
    }
  }

  // ---------- bags over all buffers ----------

  function Bag(view: seq<seq<Record>>): multiset<Record> {
    if view == [] then multiset{} else multiset(view[0]) + Bag(view[1..])
  }

  lemma Cancel<T>(a: multiset<T>, b: multiset<T>, c: multiset<T>)
    requires a + c == b + c
    ensures a == b
  {
    forall x
      ensures a[x] == b[x]
    {
      assert (a + c)[x] == (b + c)[x];
    }
  }

  lemma {:induction false} BagUpdate(view: seq<seq<Record>>, i: nat, s: seq<Record>)
    requires i < |view|
    ensures Bag(view[i := s]) + multiset(view[i]) == Bag(view) + multiset(s)
  {
    if i == 0 {
      assert view[i := s][1..] == view[1..];
    } else {
      BagUpdate(view[1..], i - 1, s);
      assert view[i := s][1..] == view[1..][i - 1 := s];
      var head, rest := multiset(view[0]), Bag(view[1..]);
      assert Bag(view[i := s]) + multiset(view[i]) == head + (Bag(view[1..][i - 1 := s]) + multiset(view[i]))
          == head + (rest + multiset(s));
    }
  }

  lemma {:induction false} BagAppend(view: seq<seq<Record>>, x: seq<Record>)
    ensures Bag(view + [x]) == Bag(view) + multiset(x)
  {
    if view == [] {
      assert view + [x] == [x] && [x][1..] == [];
    } else {
      assert (view + [x])[1..] == view[1..] + [x];
      BagAppend(view[1..], x);
    }
  }

  // A buffer that gained r changes the whole bag by r.
  lemma BagGains(before: seq<seq<Record>>, i: nat, r: Record, after: seq<seq<Record>>)
    requires i < |before| == |after| && Adds(before[i], r, after[i])
    requires forall j :: 0 <= j < |before| && j != i ==> after[j] == before[j]
    ensures Bag(after) == Bag(before) + multiset{r}
  {
    assert after == before[i := after[i]];
    BagUpdate(before, i, after[i]);
    AddsBag(before[i], r, after[i]);
    Cancel(Bag(after), Bag(before) + multiset{r}, multiset(before[i]));
  }

  lemma AppendAdds(before: seq<Record>, r: Record)
    ensures Adds(before, r, before + [r])
    ensures Adds(before, r, [r] + before)
  {
    assert before + [r] == Inserted(before, |before|, r);
    assert [r] + before == Inserted(before, 0, r);
  }

  // ---------- accounts ----------

  // Between the two views every record is still in some buffer, was given up or
  // was handed out; the forgotten ones are there with their results forced to
  // "working", as Moo files do.
  ghost predicate Accounted(before: seq<seq<Record>>, after: seq<seq<Record>>,
                            dropped: seq<Record>, handed: seq<Record>, forgot: seq<Record>)
  {
    Bag(before) + multiset(ForcedAll(forgot))
      == Bag(after) + multiset(dropped) + multiset(handed) + multiset(forgot)
  }

  // Between the two views r came in, or its forced form did if it was forgotten.
  ghost predicate Entered(before: seq<seq<Record>>, r: Record, after: seq<seq<Record>>, forgot: seq<Record>) {
    Bag(before) + multiset{r} + multiset(ForcedAll(forgot)) == Bag(after) + multiset(forgot)
  }

  lemma ForcedConcat(s: seq<Record>, t: seq<Record>)
    ensures multiset(ForcedAll(s + t)) == multiset(ForcedAll(s)) + multiset(ForcedAll(t))
  {
    assert ForcedAll(s + t) == ForcedAll(s) + ForcedAll(t);
  }

  lemma ForcedNone()
    ensures ForcedAll([]) == []
  {
  }

  lemma SumsChain<T>(b0: multiset<T>, f1: multiset<T>, b1: multiset<T>, x1: multiset<T>,
                     f2: multiset<T>, b2: multiset<T>, x2: multiset<T>)
    requires b0 + f1 == b1 + x1 && b1 + f2 == b2 + x2
    ensures b0 + (f1 + f2) == b2 + (x1 + x2)
  {
    assert b0 + (f1 + f2) == (b0 + f1) + f2 == (b1 + f2) + x1;
  }

  lemma NothingAccounted(view: seq<seq<Record>>)
    ensures Accounted(view, view, [], [], [])
  {
    ForcedNone();
  }

  // Two steps in a row.
  lemma AccountChain(v0: seq<seq<Record>>, v1: seq<seq<Record>>, v2: seq<seq<Record>>,
                     d1: seq<Record>, h1: seq<Record>, f1: seq<Record>, d2: seq<Record>, h2: seq<Record>,
                         f2: seq<Record>)
    requires Accounted(v0, v1, d1, h1, f1) && Accounted(v1, v2, d2, h2, f2)
    ensures Accounted(v0, v2, d1 + d2, h1 + h2, f1 + f2)
  {
    ForcedConcat(f1, f2);
    var x1, x2 := multiset(d1) + multiset(h1) + multiset(f1), multiset(d2) + multiset(h2) + multiset(f2);
    SumsChain(Bag(v0), multiset(ForcedAll(f1)), Bag(v1), x1, multiset(ForcedAll(f2)), Bag(v2), x2);
    assert x1 + x2 == multiset(d1 + d2) + multiset(h1 + h2) + multiset(f1 + f2);
  }

  // A record handed out was given up, or came back in.
  lemma AccountSettle(v0: seq<seq<Record>>, v1: seq<seq<Record>>, v2: seq<seq<Record>>,
                      dropped: seq<Record>, r: Record, f1: seq<Record>, f2: seq<Record>)
    requires Accounted(v0, v1, dropped, [r], f1)
    ensures Accounted(v0, v1, dropped + [r], [], f1)
    ensures Entered(v1, r, v2, f2) ==> Accounted(v0, v2, dropped, [], f1 + f2)
  {
    ForcedConcat(f1, f2);
    assert multiset(dropped + [r]) == multiset(dropped) + multiset{r};
    if Entered(v1, r, v2, f2) {
      var x1, fs1, fs2 := multiset(dropped) + multiset(f1), multiset(ForcedAll(f1)), multiset(ForcedAll(f2));
      assert Bag(v0) + (fs1 + fs2) == (Bag(v0) + fs1) + fs2 == (Bag(v1) + multiset{r} + fs2) + x1;
      assert multiset(f1 + f2) == multiset(f1) + multiset(f2);
    }
  }

  // The same for a record just taken.
  lemma AccountMove(v0: seq<seq<Record>>, v1: seq<seq<Record>>, v2: seq<seq<Record>>, r: Record, forgot: seq<Record>)
    requires Accounted(v0, v1, [], [r], [])
    ensures Accounted(v0, v1, [r], [], [])
    ensures Entered(v1, r, v2, forgot) ==> Accounted(v0, v2, [], [], forgot)
  {
    AccountSettle(v0, v1, v2, [], r, [], forgot);
    assert [] + [r] == [r] && [] + forgot == forgot;
  }

  // Taking a record out of buffer i, from either end, accounts for it.
  lemma PopAccounted(before: seq<seq<Record>>, i: nat, r: Record, after: seq<seq<Record>>)
    requires i < |before| == |after|
    requires forall j :: 0 <= j < |before| && j != i ==> after[j] == before[j]
    requires before[i] == after[i] + [r] || before[i] == [r] + after[i]
    ensures Accounted(before, after, [], [r], [])
  {
    AppendAdds(after[i], r);
    BagGains(after, i, r, before);
    ForcedNone();
  }

  // Whether r was forgotten when it landed.
  function ForgottenIn(r: Record, landed: Record): seq<Record> {
    if landed == r then [] else [r]
  }

  lemma PushEntered(before: seq<seq<Record>>, i: nat, r: Record, landed: Record, after: seq<seq<Record>>)
    requires i < |before| == |after| && Adds(before[i], landed, after[i])
    requires forall j :: 0 <= j < |before| && j != i ==> after[j] == before[j]
    requires landed == r || landed == Forced(r)
    ensures Entered(before, r, after, ForgottenIn(r, landed))
  {
    BagGains(before, i, landed, after);
    assert ForcedAll([r]) == [Forced(r)];
    ForcedNone();
  }

  lemma EnteredBeside(v0: seq<seq<Record>>, r: Record, v1: seq<seq<Record>>, x: seq<Record>, forgot: seq<Record>)
    requires Entered(v0, r, v1, forgot)
    ensures Entered(v0 + [x], r, v1 + [x], forgot)
  {
    BagAppend(v0, x);
    BagAppend(v1, x);
    var came := multiset{r} + multiset(ForcedAll(forgot));
    assert Bag(v0) + came == Bag(v1) + multiset(forgot);
    assert Bag(v0) + multiset(x) + came == (Bag(v0) + came) + multiset(x) == (Bag(v1) + multiset(x)) + multiset(forgot);
  }

  lemma EnteredAlone(v0: seq<seq<Record>>, r: Record, v1: seq<seq<Record>>, x: seq<Record>, forgot: seq<Record>)
    requires Entered(v0 + [x], r, v1 + [x], forgot)
    ensures Entered(v0, r, v1, forgot)
  {
    BagAppend(v0, x);
    BagAppend(v1, x);
    var came, went, beside := Bag(v0) + multiset{r} + multiset(ForcedAll(forgot)), Bag(v1) + multiset(forgot),
        multiset(x);
    assert came + beside == Bag(v0 + [x]) + multiset{r} + multiset(ForcedAll(forgot));
    assert went + beside == Bag(v1 + [x]) + multiset(forgot);
    Cancel(came, went, beside);
  }

  // Emptying buffer i gives up what it held.
  lemma ZapAccounted(before: seq<seq<Record>>, i: nat, after: seq<seq<Record>>)
    requires i < |before| && after == before[i := []]
    ensures Accounted(before, after, before[i], [], [])
  {
    BagUpdate(before, i, []);
    ForcedNone();
  }

  // When one buffer and the last one are all that changed, the one has gained
  // what the other lost.
  lemma GainedFromLast(v0: seq<seq<Record>>, v1: seq<seq<Record>>, i: nat, moved: seq<Record>)
    requires |v0| == |v1| == BUFFERS + 1 && i < BUFFERS && Accounted(v0, v1, [], [], [])
    requires forall j :: 0 <= j < BUFFERS && j != i ==> v1[j] == v0[j]
    requires v0[BUFFERS] == moved + v1[BUFFERS]
    ensures multiset(v1[i]) == multiset(v0[i]) + multiset(moved)
  {
    hide Bag, Accounted;
    GainedFromOther(v0, v1, i, BUFFERS);
    var was, left, came := multiset(v0[i]), multiset(v1[BUFFERS]), multiset(moved);
    assert multiset(v1[i]) + left == was + (came + left) == (was + came) + left;
    Cancel(multiset(v1[i]), was + came, left);
  }

  // When two buffers are all that changed, they hold together what they held.
  lemma GainedFromOther(v0: seq<seq<Record>>, v1: seq<seq<Record>>, i: nat, j: nat)
    requires |v0| == |v1| && i < |v0| && j < |v0| && i != j && Accounted(v0, v1, [], [], [])
    requires forall k :: 0 <= k < |v0| && k != i && k != j ==> v1[k] == v0[k]
    ensures multiset(v1[i]) + multiset(v1[j]) == multiset(v0[i]) + multiset(v0[j])
  {
    hide Bag, Accounted;
    var v := v0[i := v1[i]];
    BagUpdate(v0, i, v1[i]);
    BagUpdate(v, j, v1[j]);
    assert v1 == v[j := v1[j]];
    NothingLost(v0, v1);
    var x0, y0, x1, y1 := multiset(v0[i]), multiset(v0[j]), multiset(v1[i]), multiset(v1[j]);
    assert Bag(v1) + y0 == Bag(v) + y1 && Bag(v) + x0 == Bag(v0) + x1;
    assert (x0 + y0) + Bag(v0) == (Bag(v1) + y0) + x0 == (Bag(v) + y1) + x0 == (Bag(v) + x0) + y1;
    assert (Bag(v) + x0) + y1 == (Bag(v0) + x1) + y1 == (x1 + y1) + Bag(v0);
    Cancel(x1 + y1, x0 + y0, Bag(v0));
  }

  // When the head of buffer i went to buffer h, that has gained it, or its forced
  // form if it was forgotten.
  lemma MovedOver(v0: seq<seq<Record>>, v1: seq<seq<Record>>, i: nat, h: nat, r: Record, forgot: seq<Record>)
    requires |v0| == |v1| && i < |v0| && h < |v0| && i != h && Accounted(v0, v1, [], [], forgot)
    requires forall k :: 0 <= k < |v0| && k != i && k != h ==> v1[k] == v0[k]
    requires v0[i] == [r] + v1[i]
    ensures multiset(v1[h]) + multiset(forgot) == multiset(v0[h]) + multiset{r} + multiset(ForcedAll(forgot))
  {
    hide Bag;
    var v := v0[h := v1[h]];
    BagUpdate(v0, h, v1[h]);
    BagUpdate(v, i, v1[i]);
    assert v1 == v[i := v1[i]];
    var x0, x1, y, f, g := multiset(v0[h]), multiset(v1[h]), multiset(v1[i]), multiset(forgot),
        multiset(ForcedAll(forgot));
    assert multiset(v0[i]) == y + multiset{r};
    assert Bag(v0) + g == Bag(v1) + f;
    assert Bag(v) + x0 == Bag(v0) + x1 && Bag(v1) + (y + multiset{r}) == Bag(v) + y;
    assert (Bag(v1) + multiset{r}) + y == Bag(v) + y;
    Cancel(Bag(v1) + multiset{r}, Bag(v), y);
    assert (x1 + f) + Bag(v0) == (Bag(v) + x0) + f == (Bag(v1) + f) + multiset{r} + x0
        == (x0 + multiset{r} + g) + Bag(v0);
    Cancel(x1 + f, x0 + multiset{r} + g, Bag(v0));
  }

  // When r came in and only buffer h changed, that has gained it, or its forced
  // form if it was forgotten.
  lemma EnteredHome(v0: seq<seq<Record>>, h: nat, r: Record, v1: seq<seq<Record>>, forgot: seq<Record>)
    requires |v0| == |v1| && h < |v0| && Entered(v0, r, v1, forgot) && (forgot == [] || forgot == [r])
    requires forall k :: 0 <= k < |v0| && k != h ==> v1[k] == v0[k]
    ensures multiset(v1[h]) + multiset(forgot) == multiset(v0[h]) + multiset{r} + multiset(ForcedAll(forgot))
    ensures |v1[h]| == |v0[h]| + 1
  {
    hide Bag;
    BagUpdate(v0, h, v1[h]);
    assert v1 == v0[h := v1[h]];
    var x0, x1, f, g := multiset(v0[h]), multiset(v1[h]), multiset(forgot), multiset(ForcedAll(forgot));
    assert Bag(v1) + x0 == Bag(v0) + x1 && Bag(v0) + multiset{r} + g == Bag(v1) + f;
    assert (x1 + f) + Bag(v0) == (Bag(v0) + x1) + f == (Bag(v1) + x0) + f == (Bag(v1) + f) + x0;
    assert (Bag(v0) + multiset{r} + g) + x0 == (x0 + multiset{r} + g) + Bag(v0);
    Cancel(x1 + f, x0 + multiset{r} + g, Bag(v0));
    assert |f| == |forgot| && |g| == |ForcedAll(forgot)| && |x0| == |v0[h]| && |x1| == |v1[h]|;
    assert |x1 + f| == |x1| + |f| && |x0 + multiset{r} + g| == |x0| + 1 + |g|;
  }

  lemma NothingLost(v0: seq<seq<Record>>, v1: seq<seq<Record>>)
    requires Accounted(v0, v1, [], [], [])
    ensures Bag(v0) == Bag(v1)
  {
    var none: seq<Record> := [];
    ForcedNone();
    assert Bag(v0) == Bag(v0) + multiset(ForcedAll(none));
    assert Bag(v1) == Bag(v1) + multiset(none) + multiset(none) + multiset(none);
  }
}
