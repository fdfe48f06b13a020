/** The floor over a whole attempt, and the word match of the stub floor. */
module VacuousFloor {
  import opened Seqs
  import opened Text
  import opened GoAst
  import opened VacuousTest
  import opened AssertionSearch

  datatype GoDecl = FuncDecl(fn: Func) | OtherDecl

  /** An authored file; None when it does not parse. */
  datatype SourceFile = SourceFile(path: string, parsed: Option<seq<GoDecl>>)

  predicate IsGoFile(path: string) {
    HasSuffix(path, ".go")
  }

  predicate IsTestFile(path: string) {
    HasSuffix(path, "_test.go")
  }

  function Decls(f: SourceFile): seq<GoDecl> {
    if f.parsed.Some? then f.parsed.value else []
  }

  // --- the index ---

  /** The top-level functions among declarations, methods left out. */
  function FuncsIn(decls: seq<GoDecl>): seq<Func> {
    if decls == [] then []
    else var last := decls[|decls| - 1];
      FuncsIn(decls[..|decls| - 1]) + (if last.FuncDecl? && !last.fn.isMethod then [last.fn] else [])
  }

  function TopFuncs(f: SourceFile): seq<Func> {
    if IsGoFile(f.path) then FuncsIn(Decls(f)) else []
  }

  /** Every authored top-level function, in the order of files and declarations. */
  function AuthoredFuncs(files: seq<SourceFile>): seq<Func> {
    FlatMap(TopFuncs, files)
  }

  /** The last function of that name. */
  predicate IsLastNamed(funcs: seq<Func>, name: string, i: int) {
    0 <= i < |funcs| && funcs[i].name == name && forall k :: i < k < |funcs| ==> funcs[k].name != name
  }

  /** Every entry is the last function of its name, and every function's name has one. */
  ghost predicate IsIndex(funcs: seq<Func>, idx: Index) {
    && (forall name :: name in idx ==> exists i :: IsLastNamed(funcs, name, i) && idx[name] == funcs[i])
    && (forall i :: 0 <= i < |funcs| ==> funcs[i].name in idx)
  }

  lemma IndexNames(funcs: seq<Func>, idx: Index)
    requires IsIndex(funcs, idx)
    ensures WellIndexed(idx)
  {
  }

  /** There is one such index. */
  lemma IndexUnique(funcs: seq<Func>, a: Index, b: Index)
    requires IsIndex(funcs, a) && IsIndex(funcs, b)
    ensures a == b
  {
    forall name | name in a
      ensures name in b && a[name] == b[name]
    {
      var i :| IsLastNamed(funcs, name, i) && a[name] == funcs[i];
      assert funcs[i].name in b;
      var j :| IsLastNamed(funcs, name, j) && b[name] == funcs[j];
      assert i == j;
    }
    forall name | name in b
      ensures name in a
    {
      var i :| IsLastNamed(funcs, name, i) && b[name] == funcs[i];
      assert funcs[i].name in a;
    }
  }

  lemma IndexStep(funcs: seq<Func>, idx: Index, fn: Func)
    requires IsIndex(funcs, idx)
    ensures IsIndex(funcs + [fn], idx[fn.name := fn])
  {
    var more, idx1 := funcs + [fn], idx[fn.name := fn];
    forall name | name in idx1
      ensures exists i :: IsLastNamed(more, name, i) && idx1[name] == more[i]
    {
      if name == fn.name {
        assert IsLastNamed(more, name, |funcs|);
      } else {
        var i :| IsLastNamed(funcs, name, i) && idx[name] == funcs[i];
        assert IsLastNamed(more, name, i);
      }
    }
  }

  lemma EmptyIndex()
    ensures IsIndex([], map[])
  {
  }

  lemma FuncsStep(decls: seq<GoDecl>, j: nat)
    requires j < |decls|
    ensures FuncsIn(decls[..j + 1])
         == FuncsIn(decls[..j]) + (if decls[j].FuncDecl? && !decls[j].fn.isMethod then [decls[j].fn] else [])
  {
    assert decls[..j + 1][..j] == decls[..j];
  }

  method IndexDecls(decls: seq<GoDecl>, idx0: Index, ghost before: seq<Func>) returns (idx: Index)
    requires IsIndex(before, idx0)
    ensures IsIndex(before + FuncsIn(decls), idx)
  {
    hide IsIndex, FuncsIn;
    idx := idx0;
    ghost var sofar := before;
    assert decls[..0] == [];
    NoneIn();
    assert before + [] == before;
    for j := 0 to |decls|
      invariant IsIndex(sofar, idx) && sofar == before + FuncsIn(decls[..j])
    {
      FuncsStep(decls, j);
      if decls[j].FuncDecl? && !decls[j].fn.isMethod {
        IndexStep(sofar, idx, decls[j].fn);
        AppendAssoc(before, FuncsIn(decls[..j]), [decls[j].fn]);
        idx := idx[decls[j].fn.name := decls[j].fn];
        sofar := sofar + [decls[j].fn];
      }
    }
    assert decls[..|decls|] == decls;
  }

  lemma NoneIn()
    ensures FuncsIn([]) == []
  {
  }

  method BuildFuncIndex(files: seq<SourceFile>) returns (idx: Index)
    ensures IsIndex(AuthoredFuncs(files), idx)
  {
    hide IsGoFile, IsIndex, FlatMap, FuncsIn;
    idx := map[];
    EmptyIndex();
    NoFuncs(files);
    NoneIn();
    for i := 0 to |files|
      invariant IsIndex(AuthoredFuncs(files[..i]), idx)
    {
      var f := files[i];
      ghost var before := AuthoredFuncs(files[..i]);
      FlatMapSnoc(TopFuncs, files, i);
      assert before + [] == before;
      if IsGoFile(f.path) && f.parsed.Some? {
        idx := IndexDecls(f.parsed.value, idx, before);
      }
    }
    assert files[..|files|] == files;
  }

  lemma NoFuncs(files: seq<SourceFile>)
    ensures AuthoredFuncs(files[..0]) == []
  {
  }

  // --- the floor ---

  ghost predicate IsTestFunc(fn: Func) {
    !fn.isMethod && "Test" <= fn.name && exists s :: DeclaresTesting(fn.ftype, s)
  }

  /** A Skip on a testing receiver anywhere in the body: the honest deferral. */
  ghost predicate IsSkipped(fn: Func) {
    && fn.body.Some?
    && exists vars, p ::
      AreVars(fn, vars) && At(fn.body.value, p).Some? && IsSkipSelector(At(fn.body.value, p).value, vars)
  }

  /** A test with a body, not deferred, that reaches no assertion. */
  ghost predicate Offends(files: seq<SourceFile>, idx: Index, i: int, j: int) {
    && 0 <= i < |files| && IsTestFile(files[i].path) && 0 <= j < |Decls(files[i])| && Decls(files[i])[j].FuncDecl?
    && IsVacuous(Decls(files[i])[j].fn, idx)
  }

  ghost predicate IsVacuous(fn: Func, idx: Index) {
    fn.body.Some? && IsTestFunc(fn) && !IsSkipped(fn) && !ReachesAssertion(fn, idx)
  }

  method Skipped(fn: Func) returns (skipped: bool)
    requires fn.body.Some?
    ensures skipped <==> IsSkipped(fn)
  {
    hide IsSkipSelector, IsTestingVar, At, Walk, IsSkipped, AreVars;
    var vars := TestingVars(fn);
    AreVarsOf(fn, vars);
    var visits := Walk(fn.body.value, []);
    skipped := false;
    for k := 0 to |visits|
      invariant skipped <==> exists j :: 0 <= j < k && IsSkipSelector(visits[j].node, vars)
    {
      if IsSkipSelector(visits[k].node, vars) {
        skipped := true;
      }
    }
    SkippedSomewhere(fn, vars, visits);
  }

  lemma SkippedSomewhere(fn: Func, vars: set<string>, visits: seq<Visit>)
    requires fn.body.Some? && AreVars(fn, vars) && visits == Walk(fn.body.value, [])
    ensures IsSkipped(fn) <==> exists j :: 0 <= j < |visits| && IsSkipSelector(visits[j].node, vars)
  {
    hide IsSkipSelector, AreVars;
    var body := fn.body.value;
    if j :| 0 <= j < |visits| && IsSkipSelector(visits[j].node, vars) {
      VisitAt(body, visits[j]);
    }
    if IsSkipped(fn) {
      var other, p :| AreVars(fn, other) && At(body, p).Some? && IsSkipSelector(At(body, p).value, other);
      SameVars(fn, vars, other);
      WalkFinds(body, [], p);
      assert [] + p == p;
      var j :| 0 <= j < |visits| && visits[j] == Visit(p, At(body, p).value);
    }
  }

  method Vacuous(fn: Func, idx: Index) returns (vacuous: bool)
    requires WellIndexed(idx)
    ensures vacuous <==> IsVacuous(fn, idx)
  {
    hide DeclaresTesting, IsSkipped, ReachesAssertion;
    if fn.body.None? || fn.isMethod || !("Test" <= fn.name) {
      return false;
    }
    var params := TestingParams(fn.ftype);
    if params == {} {
      return false;
    }
    var skipped := Skipped(fn);
    if skipped {
      return false;
    }
    var asserts := Asserts(fn, idx);
    return !asserts;
  }

  /** VacuousTest: rejected exactly when some test offends; the offenders are named. */
  method VacuousTestFloor(files: seq<SourceFile>) returns (passed: bool, offenders: seq<(string, string)>)
    ensures forall idx :: IsIndex(AuthoredFuncs(files), idx) ==>
              && (passed <==> forall i, j :: !Offends(files, idx, i, j))
              && forall o :: o in offenders <==>
                exists i, j :: Offends(files, idx, i, j) && o == (files[i].path, Decls(files[i])[j].fn.name)
  {
    hide IsVacuous, IsIndex, IsTestFile, AuthoredFuncs;
    var idx := BuildFuncIndex(files);
    forall other | IsIndex(AuthoredFuncs(files), other)
      ensures other == idx
    {
      IndexUnique(AuthoredFuncs(files), other, idx);
    }
    IndexNames(AuthoredFuncs(files), idx);
    offenders := [];
    for i := 0 to |files|
      invariant forall o :: o in offenders <==>
                  exists k, l :: Offends(files, idx, k, l) && k < i && o == (files[k].path, Decls(files[k])[l].fn.name)
    {
      var more := OffendersIn(files, i, idx);
      ghost var before := offenders;
      offenders := offenders + more;
      FileAdded(files, idx, i, before, more);
    }
    assert forall i, j :: Offends(files, idx, i, j) ==> (files[i].path, Decls(files[i])[j].fn.name) in offenders;
    passed := offenders == [];
    if !passed {
      assert offenders[0] in offenders;
    }
  }

  lemma FileAdded(files: seq<SourceFile>, idx: Index, i: nat, before: seq<(string, string)>,
                  more: seq<(string, string)>)
    requires i < |files|
    requires forall o :: o in before <==>
               exists k, l :: Offends(files, idx, k, l) && k < i && o == (files[k].path, Decls(files[k])[l].fn.name)
    requires forall o :: o in more <==>
             exists l :: Offends(files, idx, i, l) && o == (files[i].path, Decls(files[i])[l].fn.name)
    ensures forall o :: o in before + more <==>
              exists k, l :: Offends(files, idx, k, l) && k < i + 1 && o == (files[k].path, Decls(files[k])[l].fn.name)
  {
    hide IsVacuous, IsTestFile;
  }

  method OffendersIn(files: seq<SourceFile>, i: nat, idx: Index) returns (offenders: seq<(string, string)>)
    requires WellIndexed(idx) && i < |files|
    ensures forall o :: o in offenders <==>
            exists l :: Offends(files, idx, i, l) && o == (files[i].path, Decls(files[i])[l].fn.name)
  {
    hide IsVacuous, IsTestFile;
    offenders := [];
    var f := files[i];
    if IsTestFile(f.path) && f.parsed.Some? {
      for j := 0 to |f.parsed.value|
        invariant forall o :: o in offenders <==>
                    exists l :: Offends(files, idx, i, l) && l < j && o == (f.path, Decls(f)[l].fn.name)
      {
        if f.parsed.value[j].FuncDecl? {
          var vacuous := Vacuous(f.parsed.value[j].fn, idx);
          if vacuous {
            assert Offends(files, idx, i, j);
            offenders := offenders + [(f.path, f.parsed.value[j].fn.name)];
          }
        }
      }
    }
  }

  // --- whole-word match ---

  predicate IsWordByte(c: char) {
    'a' <= c <= 'z' || '0' <= c <= '9' || c == '_'
  }

  predicate OccursAt(s: string, marker: string, j: nat) {
    j + |marker| <= |s| && s[j..j + |marker|] == marker
  }

  /** The marker at j, with no word character on either side. */
  predicate WordAt(s: string, marker: string, j: nat) {
    OccursAt(s, marker, j) && (j == 0 || !IsWordByte(s[j - 1])) && (j + |marker| >= |s| || !IsWordByte(s[j + |marker|]))
  }

  /** strings.Index on s[i..]. */
  method IndexFrom(s: string, marker: string, i: nat) returns (j: Option<nat>)
    requires i <= |s|
    ensures j.None? ==> forall k :: i <= k ==> !OccursAt(s, marker, k)
    ensures j.Some? ==> i <= j.value && OccursAt(s, marker, j.value) && forall k :: i <= k < j.value ==>
            !OccursAt(s, marker, k)
  {
    var k := i;
    while k + |marker| <= |s|
      invariant i <= k && forall l :: i <= l < k ==> !OccursAt(s, marker, l)
      decreases |s| - k
    {
      if s[k..k + |marker|] == marker {
        return Some(k);
      }
      k := k + 1;
    }
    return None;
  }

  /** containsWord: true exactly when the marker stands somewhere as a whole word,
      overlapping occurrences included. */
  method ContainsWord(s: string, marker: string) returns (found: bool)
    requires marker != ""
    ensures found <==> exists j :: WordAt(s, marker, j)
  {
    var i := 0;
    while true
      invariant i <= |s| && forall k :: 0 <= k < i ==> !WordAt(s, marker, k)
      decreases |s| - i
    {
      var j := IndexFrom(s, marker, i);
      if j.None? {
        return false;
      }
      var at := j.value;
      var end := at + |marker|;
      if (at == 0 || !IsWordByte(s[at - 1])) && (end >= |s| || !IsWordByte(s[end])) {
        assert WordAt(s, marker, at);
        return true;
      }
      i := at + 1;
    }
  }
}
