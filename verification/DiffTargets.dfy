/** parseDiffTargets: the files a unified diff writes, or a rejection. */
module DiffTargets {
  import opened Seqs
  import opened Text

  function GitMark(): string { "diff --git " }

  function OldMark(): string { "--- " }

  function NewMark(): string { "+++ " }

  predicate IsContentStart(c: char) {
    c == '+' || c == '-' || c == ' ' || c == '@'
  }

  /** isUnsupportedDiffHeader: rename, copy, symlink or binary, anchored to header lines. */
  predicate IsUnsupported(line: string) {
    && line != "" && !IsContentStart(line[0])
    && (line == "GIT binary patch" || "rename from " <= line || "rename to " <= line || "copy from " <= line
        || "copy to " <= line
        || HasSuffix(line, "mode 120000"))
  }

  /** stripP1: drop the first path segment. */
  function StripP1(p: string): Option<string> {
    var i := IndexOf(p, '/');
    if i == |p| then None else Some(p[i + 1..])
  }

  /** What a header names: no file, a file, or a path git apply -p1 cannot take. */
  datatype Side = NoFile | File(rel: string) | Bare

  function SideOf(raw: string): Side {
    var path := Trim(raw[..IndexOf(raw, '\t')]);
    if path == "" || path == "/dev/null" then NoFile
    else match StripP1(path)
      case None => Bare
      case Some(rel) => File(rel)
  }

  datatype DiffLine = GitBlock | Unsupported | Header(side: Side) | Content

  function Classify(line: string): DiffLine {
    if GitMark() <= line then GitBlock
    else if IsUnsupported(line) then Unsupported
    else if OldMark() <= line then Header(SideOf(line[|OldMark()|..]))
    else if NewMark() <= line then Header(SideOf(line[|NewMark()|..]))
    else Content
  }

  // --- what the parser promises ---

  /** Some line of the block that opens at i is a file header. */
  predicate BlockHasHeader(ls: seq<DiffLine>, i: int)
    requires 0 <= i < |ls|
  {
    exists j :: i < j < |ls| && ls[j].Header? && forall k :: i < k < j ==> !ls[k].GitBlock?
  }

  predicate Enumerable(ls: seq<DiffLine>) {
    && (forall i :: 0 <= i < |ls| ==> !ls[i].Unsupported? && ls[i] != Header(Bare))
    && (forall i :: 0 <= i < |ls| && ls[i].GitBlock? ==> BlockHasHeader(ls, i))
  }

  function Named(l: DiffLine): seq<string> {
    if l.Header? && l.side.File? then [l.side.rel] else []
  }

  /** The files the headers name, repetitions included. */
  function HeaderFiles(ls: seq<DiffLine>): seq<string> {
    FlatMap(Named, ls)
  }

  /** First occurrences, in order. */
  function Distinct(xs: seq<string>): (ds: seq<string>)
    ensures forall x :: x in ds <==> x in xs
    ensures forall i, j :: 0 <= i < j < |ds| ==> ds[i] != ds[j]
  {
    if xs == [] then []
    else var front, last := Distinct(xs[..|xs| - 1]), xs[|xs| - 1];
      assert xs == xs[..|xs| - 1] + [last];
      if last in front then front else front + [last]
  }

  // --- the parser ---

  /** The last block open after the first k lines has shown a header, if one is open. */
  predicate Flags(ls: seq<DiffLine>, k: nat, inBlock: bool, hasContent: bool)
    requires k <= |ls|
  {
    if inBlock then exists i :: 0 <= i < k && IsOpen(ls, k, i) && (hasContent <==> HeaderIn(ls, i + 1, k))
    else forall i :: 0 <= i < k ==> !ls[i].GitBlock?
  }

  /** The block that opens at i is the last one before k. */
  predicate IsOpen(ls: seq<DiffLine>, k: nat, i: int)
    requires 0 <= i < k <= |ls|
  {
    ls[i].GitBlock? && forall j :: i < j < k ==> !ls[j].GitBlock?
  }

  predicate HeaderIn(ls: seq<DiffLine>, from: nat, to: nat)
    requires to <= |ls|
  {
    exists j :: from <= j < to && ls[j].Header?
  }

  /** Every earlier block, the open one excepted, has shown a header. */
  predicate ClosedOk(ls: seq<DiffLine>, k: nat)
    requires k <= |ls|
  {
    forall i :: 0 <= i < k && ls[i].GitBlock? && !IsOpen(ls, k, i) ==> BlockHasHeader(ls, i)
  }

  predicate PlainUpTo(ls: seq<DiffLine>, k: nat)
    requires k <= |ls|
  {
    forall i :: 0 <= i < k ==> !ls[i].Unsupported? && ls[i] != Header(Bare)
  }

  lemma FlagsStep(ls: seq<DiffLine>, k: nat, inBlock: bool, hasContent: bool)
    requires k < |ls| && Flags(ls, k, inBlock, hasContent) && ClosedOk(ls, k)
    ensures ls[k].GitBlock? && inBlock && !hasContent ==> !Enumerable(ls)
    ensures ls[k].GitBlock? && (inBlock ==> hasContent) ==> Flags(ls, k + 1, true, false) && ClosedOk(ls, k + 1)
    ensures ls[k].Header? ==> Flags(ls, k + 1, inBlock, true) && ClosedOk(ls, k + 1)
    ensures !ls[k].GitBlock? && !ls[k].Header? ==> Flags(ls, k + 1, inBlock, hasContent) && ClosedOk(ls, k + 1)
  {
    if inBlock {
      var i :| 0 <= i < k && IsOpen(ls, k, i) && (hasContent <==> HeaderIn(ls, i + 1, k));
      if ls[k].GitBlock? {
        if hasContent {
          HeaderInBlock(ls, i, k);
          StepClosed(ls, k);
          assert IsOpen(ls, k + 1, k);
        }
      } else {
        assert IsOpen(ls, k + 1, i);
        if ls[k].Header? {
          assert HeaderIn(ls, i + 1, k + 1);
        }
        StillClosed(ls, k, i);
      }
    } else {
      if ls[k].GitBlock? {
        assert IsOpen(ls, k + 1, k);
      }
    }
  }

  lemma HeaderInBlock(ls: seq<DiffLine>, i: int, k: nat)
    requires 0 <= i < k <= |ls| && IsOpen(ls, k, i) && HeaderIn(ls, i + 1, k)
    ensures BlockHasHeader(ls, i)
  {
    var j :| i + 1 <= j < k && ls[j].Header?;
  }

  lemma StepClosed(ls: seq<DiffLine>, k: nat)
    requires k < |ls| && ClosedOk(ls, k) && ls[k].GitBlock?
    requires forall i :: 0 <= i < k && IsOpen(ls, k, i) ==> BlockHasHeader(ls, i)
    ensures ClosedOk(ls, k + 1)
  {
    hide BlockHasHeader;
  }

  lemma StillClosed(ls: seq<DiffLine>, k: nat, open: int)
    requires k < |ls| && ClosedOk(ls, k) && !ls[k].GitBlock? && 0 <= open < k && IsOpen(ls, k, open)
    ensures ClosedOk(ls, k + 1)
  {
    hide BlockHasHeader;
    forall i | 0 <= i < k + 1 && ls[i].GitBlock? && !IsOpen(ls, k + 1, i)
      ensures BlockHasHeader(ls, i)
    {
      assert !IsOpen(ls, k, i);
    }
  }

  lemma FlagsEnd(ls: seq<DiffLine>, inBlock: bool, hasContent: bool)
    requires Flags(ls, |ls|, inBlock, hasContent) && ClosedOk(ls, |ls|) && PlainUpTo(ls, |ls|)
    ensures Enumerable(ls) <==> (inBlock ==> hasContent)
  {
    if inBlock {
      var i :| 0 <= i < |ls| && IsOpen(ls, |ls|, i) && (hasContent <==> HeaderIn(ls, i + 1, |ls|));
      if hasContent {
        HeaderInBlock(ls, i, |ls|);
      }
    }
  }

  lemma DistinctStep(ls: seq<DiffLine>, k: nat)
    requires k < |ls|
    ensures HeaderFiles(ls[..k + 1]) == HeaderFiles(ls[..k]) + Named(ls[k])
    ensures Named(ls[k]) == [] ==> Distinct(HeaderFiles(ls[..k + 1])) == Distinct(HeaderFiles(ls[..k]))
    ensures forall rel :: Named(ls[k]) == [rel] ==>
              Distinct(HeaderFiles(ls[..k + 1]))
              == if rel in Distinct(HeaderFiles(ls[..k])) then Distinct(HeaderFiles(ls[..k]))
                  else Distinct(HeaderFiles(ls[..k])) + [rel]
  {
    FlatMapSnoc(Named, ls, k);
    var before := HeaderFiles(ls[..k]);
    assert before + [] == before;
    forall rel | Named(ls[k]) == [rel]
      ensures Distinct(before + [rel]) == if rel in Distinct(before) then Distinct(before) else Distinct(before) + [rel]
    {
      assert (before + [rel])[..|before|] == before;
    }
  }

  /** Accepted exactly when the write set can be enumerated; then every file a header names
      is listed, once, in order of first mention. */
  method ParseDiffTargets(diff: string) returns (targets: Option<seq<string>>)
    ensures var ls := Map(Classify, Lines(diff));
            && (targets.Some? <==> Enumerable(ls))
            && (targets.Some? ==> targets.value == Distinct(HeaderFiles(ls)))
  {
    hide SideOf, IsUnsupported, GitMark, OldMark, NewMark, Flags, ClosedOk, Enumerable, HeaderFiles, Distinct, Lines;
    var lines := Lines(diff);
    ghost var ls := Map(Classify, lines);
    var seen: set<string> := {};
    var found: seq<string> := [];
    var inBlock, hasContent := false, false;
    ParseStart(ls);
    for k := 0 to |lines|
      invariant Flags(ls, k, inBlock, hasContent) && ClosedOk(ls, k) && PlainUpTo(ls, k)
      invariant found == Distinct(HeaderFiles(ls[..k])) && forall rel :: rel in seen <==> rel in found
    {
      var line := lines[k];
      FlagsStep(ls, k, inBlock, hasContent);
      DistinctStep(ls, k);
      if GitMark() <= line {
        if inBlock && !hasContent {
          return None;
        }
        inBlock, hasContent := true, false;
        continue;
      }
      if IsUnsupported(line) {
        Rejected(ls, k);
        return None;
      }
      var raw;
      if OldMark() <= line {
        raw := line[|OldMark()|..];
      } else if NewMark() <= line {
        raw := line[|NewMark()|..];
      } else {
        continue;
      }
      hasContent := true;
      var side := SideOf(raw);
      if side.Bare? {
        Rejected(ls, k);
        return None;
      }
      if side.File? && side.rel !in seen {
        seen := seen + {side.rel};
        found := found + [side.rel];
      }
    }
    FlagsEnd(ls, inBlock, hasContent);
    assert ls[..|ls|] == ls;
    if inBlock && !hasContent {
      return None;
    }
    return Some(found);
  }

  lemma ParseStart(ls: seq<DiffLine>)
    ensures Flags(ls, 0, false, false) && ClosedOk(ls, 0) && Distinct(HeaderFiles(ls[..0])) == []
  {
  }

  lemma Rejected(ls: seq<DiffLine>, k: nat)
    requires k < |ls| && (ls[k].Unsupported? || ls[k] == Header(Bare))
    ensures !Enumerable(ls)
  {
  }

  /** The invariant the apply step relies on: no header's file escapes the list. */
  lemma EveryHeaderListed(diff: string, i: nat)
    requires i < |Lines(diff)| && Classify(Lines(diff)[i]).Header? && Classify(Lines(diff)[i]).side.File?
    ensures Classify(Lines(diff)[i]).side.rel in Distinct(HeaderFiles(Map(Classify, Lines(diff))))
  {
    hide Classify, Lines;
    NamedIsListed(Map(Classify, Lines(diff)), i);
  }

  lemma {:induction false} NamedIsListed(ls: seq<DiffLine>, i: nat)
    requires i < |ls| && ls[i].Header? && ls[i].side.File?
    ensures ls[i].side.rel in HeaderFiles(ls)
  {
    if i > 0 {
      NamedIsListed(ls[1..], i - 1);
    }
  }

  // --- which blocks name a file ---

  /** Line j belongs to the block that opens at i. */
  predicate InBlock(ls: seq<DiffLine>, i: int, j: int)
    requires 0 <= i < j < |ls|
  {
    forall k :: i < k <= j ==> !ls[k].GitBlock?
  }

  predicate HasSide(ls: seq<DiffLine>, i: int)
    requires 0 <= i < |ls|
  {
    exists j :: i < j < |ls| && InBlock(ls, i, j) && ls[j].Header? && ls[j].side != NoFile
  }

  predicate NamesListed(ls: seq<DiffLine>, i: int, targets: seq<string>)
    requires 0 <= i < |ls|
  {
    exists j :: i < j < |ls| && InBlock(ls, i, j) && ls[j].Header? && ls[j].side.File? && ls[j].side.rel in targets
  }

  /** Of an accepted diff: a git block names a file of the list if and only if it has a header
      whose side is not /dev/null. */
  lemma BlockNamesIff(ls: seq<DiffLine>, i: int)
    requires Enumerable(ls) && 0 <= i < |ls| && ls[i].GitBlock?
    ensures NamesListed(ls, i, Distinct(HeaderFiles(ls))) <==> HasSide(ls, i)
  {
    hide Distinct, HeaderFiles, InBlock;
    if HasSide(ls, i) {
      var j :| i < j < |ls| && InBlock(ls, i, j) && ls[j].Header? && ls[j].side != NoFile;
      NamedIsListed(ls, j);
    }
  }

  const DEV_NULL := "/dev/null"

  /** A git block with the same path on both sides. */
  function TwoSided(paths: string, side: string): seq<string> {
    [GitMark() + paths, OldMark() + side, NewMark() + side]
  }

  lemma Marks()
    ensures OldMark() == ['-', '-', '-', ' '] && NewMark() == ['+', '+', '+', ' '] && |GitMark()| == 11
            && GitMark()[0] == 'd'
    ensures '\n' !in OldMark() && '\n' !in NewMark() && '\n' !in GitMark()
  {
  }

  lemma HeaderLine(mark: string, rest: string)
    requires mark == OldMark() || mark == NewMark()
    ensures Classify(mark + rest) == Header(SideOf(rest))
  {
    Marks();
    var line := mark + rest;
    assert line[0] == mark[0] && line[..4] == mark && line[4..] == rest;
    hide SideOf, OldMark, NewMark, GitMark;
    assert !(GitMark() <= line) by {
      assert GitMark()[0] != line[0];
    }
    assert mark == NewMark() ==> !(OldMark() <= line) by {
      assert OldMark()[0] == '-';
    }
  }

  lemma GitLine(rest: string)
    ensures Classify(GitMark() + rest) == GitBlock
  {
    hide GitMark, SideOf, IsUnsupported;
  }

  lemma Unbroken(mark: string, rest: string)
    requires '\n' !in mark && '\n' !in rest
    ensures '\n' !in mark + rest
  {
  }

  lemma ThreeUnbroken(a: string, b: string, c: string)
    requires '\n' !in a && '\n' !in b && '\n' !in c
    ensures NoBreaks([a, b, c])
  {
  }

  lemma BlockLines(paths: string, side: string)
    requires '\n' !in paths && '\n' !in side
    ensures NoBreaks(TwoSided(paths, side))
    ensures Map(Classify, TwoSided(paths, side)) == [GitBlock, Header(SideOf(side)), Header(SideOf(side))]
  {
    Marks();
    hide Classify, OldMark, NewMark, GitMark, SideOf;
    GitLine(paths);
    HeaderLine(OldMark(), side);
    HeaderLine(NewMark(), side);
    Unbroken(GitMark(), paths);
    Unbroken(OldMark(), side);
    Unbroken(NewMark(), side);
    ThreeUnbroken(GitMark() + paths, OldMark() + side, NewMark() + side);
    hide NoBreaks;
    MapThree(Classify, GitMark() + paths, OldMark() + side, NewMark() + side);
  }

  lemma DevNullSide()
    ensures SideOf(DEV_NULL) == NoFile && '\n' !in DEV_NULL
  {
    DevNullShape();
    hide Trim, StripP1;
    assert DEV_NULL[..|DEV_NULL|] == DEV_NULL;
    TrimId(DEV_NULL);
  }

  lemma DevNullShape()
    ensures '\t' !in DEV_NULL && '\n' !in DEV_NULL && Trimmed(DEV_NULL)
  {
  }

  lemma EmptyLine()
    ensures Classify("") == Content
  {
  }

  lemma NamelessEnumerable(ls: seq<DiffLine>)
    requires ls == [GitBlock, Header(NoFile), Header(NoFile), Content]
    ensures Enumerable(ls) && !HasSide(ls, 0) && HeaderFiles(ls) == []
  {
    assert ls[1].Header?;
    assert BlockHasHeader(ls, 0);
    NothingNamed(ls);
  }

  lemma {:induction false} NothingNamed(ls: seq<DiffLine>)
    requires forall i :: 0 <= i < |ls| ==> Named(ls[i]) == []
    ensures HeaderFiles(ls) == []
  {
    if ls != [] {
      NothingNamed(ls[1..]);
    }
  }

  /** The parser does accept a block with no such header: with /dev/null on both sides a diff
      is accepted and names no file at all. */
  lemma NamelessBlockAccepted(paths: string)
    requires '\n' !in paths
    ensures var ls := Map(Classify, Lines(Unlines(TwoSided(paths, DEV_NULL))));
            Enumerable(ls) && ls[0].GitBlock? && !HasSide(ls, 0) && HeaderFiles(ls) == []
  {
    hide Lines, Unlines, TwoSided, NoBreaks, Classify, SideOf;
    DevNullSide();
    BlockLines(paths, DEV_NULL);
    EmptyLine();
    LinesOfText(TwoSided(paths, DEV_NULL));
    MapConcat(Classify, TwoSided(paths, DEV_NULL), [""]);
    MapOne(Classify, "");
    hide Map;
    NamelessEnumerable(Map(Classify, Lines(Unlines(TwoSided(paths, DEV_NULL)))));
  }
}
