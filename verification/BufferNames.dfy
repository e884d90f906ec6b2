/**
 The names of the buffer files (buffbase.cpp, BufferGetDefaultFilename) and the
 check that in- and out-buffers do not share them (__CheckBuffLimits).
 */
module BufferNames {
  import opened WorkRecords
  import opened Characters

  const STEM_MAX := 123  // sizeof(filename) - 5

  // ProjectGetFileExtension
  function Extension(contest: nat): (suffix: string)
    requires contest < CONTEST_COUNT
    ensures |suffix| == 3
  {
    match contest
    case 0 => "rc5"
    case 1 => "des"
    case 2 => "ogr"
    case 3 => "csc"
    case 4 => "og2"
    case 5 => "r72"
    case _ => "ogf"
  }

  lemma ExtensionsDiffer(c: nat, d: nat)
    requires c < CONTEST_COUNT && d < CONTEST_COUNT && Extension(c) == Extension(d)
    ensures c == d
  {
  }

  // The prefix without white space at both ends, as far as it fits.
  function Prefix(basename: string): string {
    TrimmedEnd(Upto(Skipped(basename), 127))
  }

  function Upto(s: string, n: nat): string {
    if |s| <= n then s else s[..n]
  }

  function TrimmedEnd(s: string): (t: string)
    ensures |t| <= |s| && t == s[..|t|]
  {
    if s != "" && IsSpace(s[|s| - 1]) then TrimmedEnd(s[..|s| - 1]) else s
  }

  // What comes before the extension.
  function Stem(basename: string, out: bool): string {
    Upto(if Prefix(basename) != "" then Prefix(basename) else if out then "buff-out" else "buff-in", STEM_MAX)
  }

  function NameOf(contest: nat, out: bool, basename: string): string
    requires contest < CONTEST_COUNT
  {
    Stem(basename, out) + "." + Extension(contest)
  }

  // BufferGetDefaultFilename
  method DefaultFilename(contest: nat, out: bool, basename: string) returns (filename: string)
    requires contest < CONTEST_COUNT
    ensures filename == NameOf(contest, out, basename)
  {
    hide Skipped, Extension;
    var rest := SkipSpaces(basename);
    filename := if |rest| <= 127 then rest else rest[..127];
    while filename != "" && IsSpace(filename[|filename| - 1])
      invariant TrimmedEnd(filename) == Prefix(basename)
      decreases |filename|
    {
      filename := filename[..|filename| - 1];
    }
    if filename == "" {
      filename := if out then "buff-out" else "buff-in";
    }
    if |filename| > STEM_MAX {
      filename := filename[..STEM_MAX];
    }
    filename := filename + ".";
    var suffix := Extension(contest);
    var n := 0;
    while n < 3
      invariant 0 <= n <= 3 && filename == Stem(basename, out) + "." + suffix[..n]
    {
      filename := filename + [suffix[n]];
      n := n + 1;
    }
    assert suffix[..3] == suffix;
  }

  // Two names are the same exactly if the stems and the contests are.
  lemma SameName(c: nat, d: nat, out: bool, other: bool, basename: string, basename': string)
    requires c < CONTEST_COUNT && d < CONTEST_COUNT
    ensures NameOf(c, out, basename) == NameOf(d, other, basename') <==>
      c == d && Stem(basename, out) == Stem(basename', other)
  {
    hide Stem, Extension;
    var s, t := Stem(basename, out), Stem(basename', other);
    var x, y := NameOf(c, out, basename), NameOf(d, other, basename');
    assert x[|x| - 3..] == Extension(c) && y[|y| - 3..] == Extension(d);
    assert x[..|x| - 4] == s && y[..|y| - 4] == t;
    if x == y {
      ExtensionsDiffer(c, d);
    }
  }

  // The name of a buffer of a client with those prefixes.
  function BufferName(contest: nat, out: bool, inBase: string, outBase: string): string
    requires contest < CONTEST_COUNT
  {
    NameOf(contest, out, if out then outBase else inBase)
  }

  // The fourteen buffers are fourteen files.
  ghost predicate NamesDistinct(inBase: string, outBase: string) {
    forall c: nat, d: nat, out, other | c < CONTEST_COUNT && d < CONTEST_COUNT ::
      BufferName(c, out, inBase, outBase) == BufferName(d, other, inBase, outBase) ==> c == d && out == other
  }

  // With nothing but blanks for prefixes these are their names.
  lemma DefaultNames(inBase: string, outBase: string)
    requires Prefix(inBase) == "" && Prefix(outBase) == ""
    ensures BufferName(5, false, inBase, outBase) == "buff-in.r72"
    ensures BufferName(5, true, inBase, outBase) == "buff-out.r72"
    ensures BufferName(0, false, inBase, outBase) == "buff-in.rc5"
    ensures BufferName(1, false, inBase, outBase) == "buff-in.des"
    ensures BufferName(2, false, inBase, outBase) == "buff-in.ogr"
    ensures BufferName(3, false, inBase, outBase) == "buff-in.csc"
    ensures BufferName(4, false, inBase, outBase) == "buff-in.og2"
    ensures BufferName(6, false, inBase, outBase) == "buff-in.ogf"
  {
    hide Prefix;
    assert Upto("buff-in", STEM_MAX) == "buff-in" && Upto("buff-out", STEM_MAX) == "buff-out";
  }

  // No name is longer than the 128 characters of its array, terminator included,
  // and a prefix that fits is in it whole.
  lemma NamesFit(contest: nat, out: bool, basename: string)
    requires contest < CONTEST_COUNT
    ensures 0 < |NameOf(contest, out, basename)| < 128
    ensures |Prefix(basename)| + 4 < 128 && Prefix(basename) != "" ==>
      NameOf(contest, out, basename) == Prefix(basename) + "." + Extension(contest)
  {
    hide Prefix, Extension;
  }

  // They are exactly if the prefixes differ once they are trimmed, cut and, if
  // nothing is left of them, replaced.
  lemma DistinctExactly(inBase: string, outBase: string)
    ensures NamesDistinct(inBase, outBase) <==> Stem(inBase, false) != Stem(outBase, true)
  {
    hide NameOf, Stem;
    forall c: nat, d: nat, out, other | c < CONTEST_COUNT && d < CONTEST_COUNT
      ensures BufferName(c, out, inBase, outBase) == BufferName(d, other, inBase, outBase) <==>
        && c == d
        && Stem(if out then outBase else inBase, out) == Stem(if other then outBase else inBase, other)
    {
      SameName(c, d, out, other, if out then outBase else inBase, if other then outBase else inBase);
    }
    if NamesDistinct(inBase, outBase) {
      var zero: nat := 0;
      assert BufferName(zero, false, inBase, outBase) == BufferName(zero, true, inBase, outBase) ==> false == true;
    }
  }

  // ---------- the check ----------

  // __CheckBuffLimits: the prefixes as they were given are the same.
  predicate Refuses(inBase: string, outBase: string) {
    outBase != "" && inBase != "" && inBase == outBase
  }

  lemma BlankHasNoPrefix(basename: string)
    ensures (forall c :: c in basename ==> IsSpace(c)) ==> Prefix(basename) == ""
  {
    if forall c :: c in basename ==> IsSpace(c) {
      BlanksSkipped(basename);
    }
  }

  lemma {:induction false} SkippedBlank(s: string)
    ensures Skipped(s) == "" ==> forall c :: c in s ==> IsSpace(c)
    ensures Skipped(s) != "" ==> !IsSpace(Skipped(s)[0])
  {
    if s == "" {
    } else {
      SkippedBlank(s[1..]);
      assert s == [s[0]] + s[1..];
    }
  }

  lemma {:induction false} TrimKeepsFirst(s: string)
    requires s != "" && !IsSpace(s[0])
    ensures TrimmedEnd(s) != ""
    decreases |s|
  {
    if IsSpace(s[|s| - 1]) {
      TrimKeepsFirst(s[..|s| - 1]);
    }
  }

  lemma PrefixOf(basename: string)
    ensures Prefix(basename) == "" <==> forall c :: c in basename ==> IsSpace(c)
  {
    BlankHasNoPrefix(basename);
    SkippedBlank(basename);
    if Skipped(basename) != "" {
      TrimKeepsFirst(Upto(Skipped(basename), 127));
    }
  }

  // The check is wrong in two ways: it lets clients pass whose prefixes differ
  // but name the same files, and it refuses two equal blank ones, which name
  // different files.
  lemma CheckExactly(inBase: string, outBase: string)
    ensures var same := Stem(inBase, false) == Stem(outBase, true);
      && (same && !Refuses(inBase, outBase) <==> same && inBase != outBase)
      && (!same && Refuses(inBase, outBase) <==>
            inBase == outBase && inBase != "" && forall c :: c in inBase ==> IsSpace(c))
  {
    PrefixOf(inBase);
    if inBase == outBase {
      DefaultsDiffer();
    }
  }

  lemma DefaultsDiffer()
    ensures Upto("buff-in", STEM_MAX) != Upto("buff-out", STEM_MAX)
  {
    assert |Upto("buff-in", STEM_MAX)| == 7;
  }

  // White space or a default is enough to be let pass.
  lemma CheckIsFooled()
    ensures !Refuses("", "buff-in") && !NamesDistinct("", "buff-in")
    ensures !Refuses("x", " x") && !NamesDistinct("x", " x")
  {
    DistinctExactly("", "buff-in");
    DistinctExactly("x", " x");
    assert " x"[1..] == "x" && Skipped(" x") == Skipped("x") == "x";
    assert Skipped("buff-in") == "buff-in" && Skipped("") == "";
    NoSpaceAtEnd("buff-in");
    NoSpaceAtEnd("x");
  }

  lemma NoSpaceAtEnd(s: string)
    requires s != "" && !IsSpace(s[|s| - 1])
    ensures TrimmedEnd(s) == s
  {
  }
}
