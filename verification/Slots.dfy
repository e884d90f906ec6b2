/**
 Slot arithmetic shared by both buffer-file formats: a stretch of words is cut
 into equal slots, a slot equal to `blank` is free, every other one is live.
 */
module Slots {
  import opened Words

  // ---------- sequences of slots ----------

  // The live slots, lowest first.
  function Live<S(==)>(slots: seq<S>, blank: S): seq<S> {
    if slots == [] then []
    else (if slots[0] == blank then [] else [slots[0]]) + Live(slots[1..], blank)
  }

  function FirstLive<S(==)>(slots: seq<S>, blank: S): (i: nat)
    ensures i <= |slots|
    ensures i < |slots| ==> slots[i] != blank
    ensures forall j :: 0 <= j < i ==> slots[j] == blank
  {
    if slots == [] then 0
    else if slots[0] != blank then 0
    else 1 + FirstLive(slots[1..], blank)
  }

  function FirstBlank<S(==)>(slots: seq<S>, blank: S): (i: nat)
    ensures i <= |slots|
    ensures i < |slots| ==> slots[i] == blank
    ensures forall j :: 0 <= j < i ==> slots[j] != blank
  {
    if slots == [] then 0
    else if slots[0] == blank then 0
    else 1 + FirstBlank(slots[1..], blank)
  }

  // The highest blank slot, or |slots| if there is none.
  function LastBlank<S(==)>(slots: seq<S>, blank: S): (i: nat)
    ensures i <= |slots|
    ensures i < |slots| ==> slots[i] == blank
    ensures i == |slots| ==> forall j :: 0 <= j < |slots| ==> slots[j] != blank
    ensures forall j :: i < j < |slots| ==> slots[j] != blank
  {
    if slots == [] then 0
    else
      var last := |slots| - 1;
      if slots[last] == blank then last
      else
        var i := LastBlank(slots[..last], blank);
        if i == last then |slots| else i
  }

  lemma Associate<S>(x: seq<S>, y: seq<S>, z: seq<S>)
    ensures (x + y) + z == x + (y + z)
  {
  }

  lemma {:induction false} LiveConcat<S>(a: seq<S>, b: seq<S>, blank: S)
    ensures Live(a + b, blank) == Live(a, blank) + Live(b, blank)
  {
    if a == [] {
      assert a + b == b;
    } else {
      var head := if a[0] == blank then [] else [a[0]];
      LiveConcat(a[1..], b, blank);
      assert (a + b)[0] == a[0] && (a + b)[1..] == a[1..] + b;
      assert Live(a + b, blank) == head + (Live(a[1..], blank) + Live(b, blank));
      Associate(head, Live(a[1..], blank), Live(b, blank));
    }
  }

  lemma LiveSplit<S>(slots: seq<S>, i: nat, blank: S)
    requires i < |slots|
    ensures Live(slots, blank)
         == Live(slots[..i], blank) + ((if slots[i] == blank then [] else [slots[i]]) + Live(slots[i + 1..], blank))
  {
    var high := slots[i..];
    assert slots == slots[..i] + high;
    LiveConcat(slots[..i], high, blank);
    assert high[0] == slots[i] && high[1..] == slots[i + 1..];
  }

  function Inserted<S>(s: seq<S>, k: nat, x: S): seq<S>
    requires k <= |s|
  {
    s[..k] + [x] + s[k..]
  }

  lemma InsertedBag<S>(s: seq<S>, k: nat, x: S)
    requires k <= |s|
    ensures multiset(Inserted(s, k, x)) == multiset(s) + multiset{x}
  {
    assert s == s[..k] + s[k..];
  }

  // Filling a blank slot inserts one live slot and keeps all the others, in
  // their order.
  lemma LiveFill<S>(slots: seq<S>, i: nat, x: S, blank: S) returns (k: nat)
    requires i < |slots| && slots[i] == blank && x != blank
    ensures k <= |Live(slots, blank)|
    ensures Live(slots[i := x], blank) == Inserted(Live(slots, blank), k, x)
  {
    var filled := slots[i := x];
    LiveSplit(slots, i, blank);
    LiveSplit(filled, i, blank);
    assert filled[..i] == slots[..i] && filled[i + 1..] == slots[i + 1..];
    var low, high := Live(slots[..i], blank), Live(slots[i + 1..], blank);
    k := |low|;
    assert Live(slots, blank) == low + high;
    assert Live(filled, blank) == low + ([x] + high);
  }

  lemma LiveAppend<S>(slots: seq<S>, x: S, blank: S)
    requires x != blank
    ensures Live(slots + [x], blank) == Inserted(Live(slots, blank), |Live(slots, blank)|, x)
  {
    LiveConcat(slots, [x], blank);
  }

  lemma {:induction false} NoneLive<S>(slots: seq<S>, blank: S)
    requires FirstLive(slots, blank) == |slots|
    ensures Live(slots, blank) == []
  {
    if slots == [] {
    } else {
      NoneLive(slots[1..], blank);
    }
  }

  // Blanking the lowest live slot removes the head of the live sequence.
  lemma LiveTake<S>(slots: seq<S>, blank: S)
    requires FirstLive(slots, blank) < |slots|
    ensures var i := FirstLive(slots, blank);
      Live(slots, blank) == [slots[i]] + Live(slots[i := blank], blank)
    ensures FirstLive(slots, blank) == |slots| - 1 ==> |Live(slots, blank)| == 1
  {
    var i := FirstLive(slots, blank);
    var rest := slots[i := blank];
    LiveSplit(slots, i, blank);
    LiveSplit(rest, i, blank);
    assert rest[..i] == slots[..i] && rest[i + 1..] == slots[i + 1..];
    assert forall j :: 0 <= j < i ==> slots[..i][j] == slots[j];
    assert FirstLive(slots[..i], blank) == i;
    NoneLive(slots[..i], blank);
  }

  lemma {:induction false} LiveMembers<S>(slots: seq<S>, blank: S)
    ensures |Live(slots, blank)| <= |slots|
    ensures forall x :: x in Live(slots, blank) <==> x in slots && x != blank
  {
    if slots == [] {
    } else {
      LiveMembers(slots[1..], blank);
      assert slots == [slots[0]] + slots[1..];
    }
  }

  // ---------- cutting words into slots ----------

  // The complete slots of n words; a shorter tail is not a slot.
  function Chunks(words: seq<u32>, n: nat): (chunks: seq<seq<u32>>)
    requires n > 0
    ensures forall i :: 0 <= i < |chunks| ==> |chunks[i]| == n
  {
    if |words| < n then [] else [words[..n]] + Chunks(words[n..], n)
  }

  function Zeros(n: nat): (z: seq<u32>)
    ensures |z| == n
  {
    seq(n, _ => 0)
  }

  // fseek and fwrite: overwrites, and fills a gap beyond the end with zeros.
  function WriteAt(file: seq<u32>, pos: nat, data: seq<u32>): seq<u32> {
    if pos + |data| <= |file| then file[..pos] + data + file[pos + |data|..]
    else if pos <= |file| then file[..pos] + data
    else file + Zeros(pos - |file|) + data
  }

  // Word by word: the data where it was written, what was there elsewhere, and
  // zeros between the old end and the new data.
  lemma WrittenWords(file: seq<u32>, pos: nat, data: seq<u32>, k: nat)
    requires k < |WriteAt(file, pos, data)|
    ensures |WriteAt(file, pos, data)| == if pos + |data| > |file| then pos + |data| else |file|
    ensures WriteAt(file, pos, data)[k] ==
      if pos <= k < pos + |data| then data[k - pos] else if k < |file| then file[k] else 0
  {
  }

  lemma {:induction false} ChunksSize(words: seq<u32>, n: nat)
    requires n > 0
    ensures n * |Chunks(words, n)| <= |words| < n * |Chunks(words, n)| + n
  {
    if |words| >= n {
      ChunksSize(words[n..], n);
      var k := |Chunks(words[n..], n)|;
      assert n * (k + 1) == n * k + n;
    }
  }

  lemma {:induction false} ChunkAt(words: seq<u32>, n: nat, i: nat)
    requires n > 0 && i < |Chunks(words, n)|
    ensures n * i + n <= |words|
    ensures Chunks(words, n)[i] == words[n * i..n * i + n]
  {
    if i == 0 {
    } else {
      ChunkAt(words[n..], n, i - 1);
      assert n * i == n * (i - 1) + n;
    }
  }

  // Writing into the words after the first slot leaves that slot alone.
  lemma WriteBehindFirst(words: seq<u32>, n: nat, pos: nat, data: seq<u32>)
    requires n + pos + |data| <= |words|
    ensures WriteAt(words, n + pos, data)[..n] == words[..n]
    ensures WriteAt(words, n + pos, data)[n..] == WriteAt(words[n..], pos, data)
  {
    var low, mid, high := words[..n], words[n..][..pos], words[n..][pos + |data|..];
    assert words[..n + pos] == low + mid && words[n + pos + |data|..] == high;
    Associate(low, mid, data);
    Associate(low, mid + data, high);
  }

  // Overwriting slot i changes slot i and nothing else.
  lemma {:induction false} ChunkWrite(words: seq<u32>, n: nat, i: nat, data: seq<u32>)
    requires n > 0 && |data| == n && i < |Chunks(words, n)|
    ensures n * i + n <= |words|
    ensures |WriteAt(words, n * i, data)| == |words|
    ensures Chunks(WriteAt(words, n * i, data), n) == Chunks(words, n)[i := data]
  {
    var written := WriteAt(words, n * i, data);
    if i == 0 {
      assert written[..n] == data && written[n..] == words[n..];
      assert Chunks(written, n) == [data] + Chunks(words[n..], n);
    } else {
      assert n * i == n + n * (i - 1);
      ChunkWrite(words[n..], n, i - 1, data);
      WriteBehindFirst(words, n, n * (i - 1), data);
      assert Chunks(written, n) == [words[..n]] + Chunks(words[n..], n)[i - 1 := data];
    }
  }

  lemma OneChunk(data: seq<u32>, n: nat)
    requires n > 0 && |data| == n
    ensures Chunks(data, n) == [data]
  {
    assert data[..n] == data && data[n..] == [];
  }

  // Writing just past the last slot appends one.
  lemma {:induction false} ChunkAppend(words: seq<u32>, n: nat, data: seq<u32>)
    requires n > 0 && |data| == n && |words| == n * |Chunks(words, n)|
    ensures Chunks(words + data, n) == Chunks(words, n) + [data]
  {
    if words == [] {
      assert words + data == data;
      OneChunk(data, n);
    } else if |words| < n {
      assert false;
    } else {
      var k := |Chunks(words[n..], n)|;
      assert n * (k + 1) == n * k + n;
      ChunkAppend(words[n..], n, data);
      assert (words + data)[..n] == words[..n];
      assert (words + data)[n..] == words[n..] + data;
    }
  }

  // Slots can be written after a prefix that is not cut.
  lemma WriteAfterPrefix(prefix: seq<u32>, words: seq<u32>, pos: nat, data: seq<u32>)
    requires pos <= |words|
    ensures WriteAt(prefix + words, |prefix| + pos, data) == prefix + WriteAt(words, pos, data)
  {
  }
}
