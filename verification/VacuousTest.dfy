/** The vacuous-test floor: a test must reach an assertion that can fail on computed
    behaviour, by itself or through helpers it hands its testing receiver to. */
module VacuousTest {
  import opened Text
  import opened GoAst

  predicate IsFailMethod(m: string) {
    m == "Fatal" || m == "Fatalf" || m == "Error" || m == "Errorf" || m == "Fail" || m == "FailNow"
  }

  predicate IsSkipMethod(m: string) {
    m == "Skip" || m == "Skipf" || m == "SkipNow"
  }

  predicate IsAssertionPkg(p: string) {
    p == "require" || p == "assert" || p == "is"
  }

  // --- testing receivers ---

  /** *testing.T, *testing.B or *testing.F */
  predicate IsTestingPtr(n: Node) {
    && n.Star? && n.x.Selector? && n.x.x == Ident("testing")
    && (n.x.sel == "T" || n.x.sel == "B" || n.x.sel == "F")
  }

  /** Does this function type declare a testing parameter of that name? */
  predicate DeclaresTesting(n: Node, name: string) {
    n.FuncType? && exists i :: 0 <= i < |n.params| && IsTestingPtr(n.params[i].typ) && name in n.params[i].names
  }

  /** The function with its type, as one tree: what testingVarNames inspects. */
  function Whole(fn: Func): Node {
    Other([fn.ftype] + OptList(fn.body))
  }

  /** Declared anywhere in the function, nested closures included. */
  ghost predicate IsTestingVar(fn: Func, name: string) {
    exists p :: At(Whole(fn), p).Some? && DeclaresTesting(At(Whole(fn), p).value, name)
  }

  method TestingParams(n: Node) returns (names: set<string>)
    ensures forall s :: s in names <==> DeclaresTesting(n, s)
  {
    hide IsTestingPtr;
    names := {};
    if n.FuncType? {
      for i := 0 to |n.params|
        invariant forall s :: s in names <==>
                  exists j :: 0 <= j < i && IsTestingPtr(n.params[j].typ) && s in n.params[j].names
      {
        if IsTestingPtr(n.params[i].typ) {
          names := names + (set s | s in n.params[i].names);
        }
      }
    }
  }

  method TestingVars(fn: Func) returns (names: set<string>)
    ensures forall s :: s in names <==> IsTestingVar(fn, s)
  {
    hide DeclaresTesting, IsTestingVar, Walk;
    var visits := Walk(Whole(fn), []);
    names := {};
    for k := 0 to |visits|
      invariant forall s :: s in names <==> exists j :: 0 <= j < k && DeclaresTesting(visits[j].node, s)
    {
      var more := TestingParams(visits[k].node);
      names := names + more;
    }
    forall s
      ensures s in names <==> IsTestingVar(fn, s)
    {
      VisitedSomewhere(fn, visits, s);
    }
  }

  lemma VisitedSomewhere(fn: Func, visits: seq<Visit>, s: string)
    requires visits == Walk(Whole(fn), [])
    ensures (exists j :: 0 <= j < |visits| && DeclaresTesting(visits[j].node, s)) <==> IsTestingVar(fn, s)
  {
    hide DeclaresTesting;
    if j :| 0 <= j < |visits| && DeclaresTesting(visits[j].node, s) {
      WalkOnly(Whole(fn), [], visits[j]);
      assert At(Whole(fn), visits[j].path[0..]).Some?;
    }
    if IsTestingVar(fn, s) {
      var p :| At(Whole(fn), p).Some? && DeclaresTesting(At(Whole(fn), p).value, s);
      WalkFinds(Whole(fn), [], p);
    }
  }

  // --- calls ---

  /** A fail method called on a testing receiver. */
  predicate IsFailCall(n: Node, vars: set<string>) {
    n.Call? && n.fun.Selector? && n.fun.x.Ident? && n.fun.x.name in vars && IsFailMethod(n.fun.sel)
  }

  predicate IsSkipSelector(n: Node, vars: set<string>) {
    n.Selector? && n.x.Ident? && n.x.name in vars && IsSkipMethod(n.sel)
  }

  predicate IsAssertionLibCall(n: Node) {
    n.Call? && n.fun.Selector? && n.fun.x.Ident? && IsAssertionPkg(n.fun.x.name)
  }

  predicate IsPredeclared(name: string) {
    name == "true" || name == "false" || name == "nil" || name == "iota"
  }

  predicate IsConstantExpr(e: Node) {
    match e
    case BasicLit(_) => true
    case Ident(name) => IsPredeclared(name)
    case Paren(x) => IsConstantExpr(x)
    case Unary(_, x) => IsConstantExpr(x)
    case Binary(_, x, y) => IsConstantExpr(x) && IsConstantExpr(y)
    case _ => false
  }

  predicate IsReceiver(arg: Node, vars: set<string>) {
    arg.Ident? && arg.name in vars
  }

  predicate HasComputedArg(n: Node, vars: set<string>)
    requires n.Call?
  {
    exists i :: 0 <= i < |n.args| && !IsReceiver(n.args[i], vars) && !IsConstantExpr(n.args[i])
  }

  predicate PassesReceiver(n: Node, vars: set<string>)
    requires n.Call?
  {
    exists i :: 0 <= i < |n.args| && IsReceiver(n.args[i], vars)
  }

  // --- dead fail calls ---

  /** Position k of an if is its then or its else branch. */
  predicate IsBranch(n: Node, k: nat) {
    n.If? && |OptList(n.init)| < k < |Children(n)|
  }

  predicate IsConstantIf(n: Node) {
    n.If? && IsConstantExpr(n.cond)
  }

  /** The path runs through a branch of a constant-condition if, at any depth. */
  predicate UnderConstantIf(body: Node, p: Path) {
    exists k :: 0 <= k < |p| && At(body, p[..k]).Some? && IsConstantIf(At(body, p[..k]).value)
        && IsBranch(At(body, p[..k]).value, p[k])
  }

  /** The reference definition of a dead fail call. */
  predicate IsDead(body: Node, vars: set<string>, p: Path) {
    At(body, p).Some? && IsFailCall(At(body, p).value, vars) && UnderConstantIf(body, p)
  }

  /** A fail call inside the subtree n that sits at path. */
  predicate InBranch(n: Node, path: Path, vars: set<string>, p: Path) {
    path <= p && At(n, p[|path|..]).Some? && IsFailCall(At(n, p[|path|..]).value, vars)
  }

  /** collect: the fail calls inside one branch. */
  method Collect(n: Node, path: Path, vars: set<string>) returns (calls: set<Path>)
    ensures forall p :: p in calls <==> InBranch(n, path, vars, p)
  {
    hide IsFailCall, InBranch, Walk;
    var visits := Walk(n, path);
    calls := {};
    for k := 0 to |visits|
      invariant forall p :: p in calls <==>
                exists j :: 0 <= j < k && visits[j].path == p && IsFailCall(visits[j].node, vars)
    {
      if IsFailCall(visits[k].node, vars) {
        calls := calls + {visits[k].path};
      }
    }
    forall p
      ensures p in calls <==> InBranch(n, path, vars, p)
    {
      CollectedAt(n, path, visits, vars, p);
    }
  }

  lemma CollectedAt(n: Node, path: Path, visits: seq<Visit>, vars: set<string>, p: Path)
    requires visits == Walk(n, path)
    ensures (exists j :: 0 <= j < |visits| && visits[j].path == p && IsFailCall(visits[j].node, vars))
            <==> InBranch(n, path, vars, p)
  {
    hide IsFailCall;
    if j :| 0 <= j < |visits| && visits[j].path == p && IsFailCall(visits[j].node, vars) {
      WalkOnly(n, path, visits[j]);
    }
    if path <= p && At(n, p[|path|..]).Some? && IsFailCall(At(n, p[|path|..]).value, vars) {
      WalkFinds(n, path, p[|path|..]);
      assert path + p[|path|..] == p;
    }
  }

  /** The fail calls under the branches of one visited node, when it is a constant if. */
  predicate DeadThrough(body: Node, vars: set<string>, v: Visit, p: Path) {
    && IsConstantIf(v.node) && v.path < p && IsBranch(v.node, p[|v.path|])
    && At(body, p).Some? && IsFailCall(At(body, p).value, vars)
  }

  method CollectBranches(body: Node, vars: set<string>, v: Visit) returns (dead: set<Path>)
    requires At(body, v.path) == Some(v.node)
    ensures forall p :: p in dead <==> DeadThrough(body, vars, v, p)
  {
    hide IsConstantExpr, IsFailCall, InBranch, DeadThrough;
    dead := {};
    if !(v.node.If? && IsConstantExpr(v.node.cond)) {
      NoneThrough(body, vars, v);
    } else {
      var thenAt := |OptList(v.node.init)| + 1;
      dead := Collect(v.node.body, v.path + [thenAt], vars);
      var inElse: set<Path> := {};
      if v.node.els.Some? {
        inElse := Collect(v.node.els.value, v.path + [thenAt + 1], vars);
      }
      ghost var inThen := dead;
      dead := dead + inElse;
      forall p
        ensures p in inThen + inElse <==> DeadThrough(body, vars, v, p)
      {
        BranchPaths(body, vars, v, p);
      }
    }
  }

  lemma NoneThrough(body: Node, vars: set<string>, v: Visit)
    requires !IsConstantIf(v.node)
    ensures forall p :: !DeadThrough(body, vars, v, p)
  {
  }

  /** A path through child k of a node, seen from the child. */
  lemma ThroughChild(body: Node, v: Visit, p: Path, k: nat)
    requires At(body, v.path) == Some(v.node) && v.path < p && p[|v.path|] == k
    ensures At(body, p) == if k < |Children(v.node)| then At(Children(v.node)[k], p[|v.path + [k]|..]) else None
    ensures v.path + [k] <= p
  {
    var rest := p[|v.path|..];
    assert p == v.path + rest;
    AtConcat(body, v.path, rest);
    assert rest[1..] == p[|v.path + [k]|..];
  }

  lemma BranchChildren(n: Node)
    requires n.If?
    ensures var k := |OptList(n.init)| + 1;
            && |Children(n)| == k + 1 + |OptList(n.els)|
            && Children(n)[k] == n.body && (n.els.Some? ==> Children(n)[k + 1] == n.els.value)
  {
  }

  lemma BranchPaths(body: Node, vars: set<string>, v: Visit, p: Path)
    requires At(body, v.path) == Some(v.node) && IsConstantIf(v.node)
    ensures var k := |OptList(v.node.init)| + 1;
            var inThen := InBranch(v.node.body, v.path + [k], vars, p);
            var inElse := v.node.els.Some? && InBranch(v.node.els.value, v.path + [k + 1], vars, p);
            DeadThrough(body, vars, v, p) <==> inThen || inElse
  {
    hide IsConstantExpr, IsFailCall, At, Children;
    BranchChildren(v.node);
    if v.path < p {
      ThroughChild(body, v, p, p[|v.path|]);
    }
  }

  method DeadFailCalls(body: Node, vars: set<string>) returns (dead: set<Path>)
    ensures forall p :: p in dead <==> IsDead(body, vars, p)
  {
    hide IsFailCall, DeadThrough, IsDead;
    var visits := Walk(body, []);
    dead := {};
    for k := 0 to |visits|
      invariant forall p :: p in dead <==> exists j :: 0 <= j < k && DeadThrough(body, vars, visits[j], p)
    {
      VisitAt(body, visits[k]);
      var more := CollectBranches(body, vars, visits[k]);
      dead := dead + more;
    }
    forall p
      ensures p in dead <==> IsDead(body, vars, p)
    {
      DeadSomewhere(body, vars, p);
    }
  }

  lemma VisitAt(body: Node, v: Visit)
    requires v in Walk(body, [])
    ensures At(body, v.path) == Some(v.node)
  {
    WalkOnly(body, [], v);
    assert v.path[0..] == v.path;
  }

  lemma DeadSomewhere(body: Node, vars: set<string>, p: Path)
    ensures var visits := Walk(body, []);
            (exists j :: 0 <= j < |visits| && DeadThrough(body, vars, visits[j], p)) <==> IsDead(body, vars, p)
  {
    hide IsFailCall, IsConstantIf, IsBranch;
    var visits := Walk(body, []);
    if j :| 0 <= j < |visits| && DeadThrough(body, vars, visits[j], p) {
      VisitAt(body, visits[j]);
      assert p[..|visits[j].path|] == visits[j].path;
    }
    if IsDead(body, vars, p) {
      var k :| 0 <= k < |p| && At(body, p[..k]).Some? && IsConstantIf(At(body, p[..k]).value)
          && IsBranch(At(body, p[..k]).value, p[k]);
      WalkFinds(body, [], p[..k]);
      assert [] + p[..k] == p[..k];
    }
  }
}
