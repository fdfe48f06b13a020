/** funcAsserts: a depth-first search over a possibly cyclic call graph with one visited set
    shared by every branch, against plain reachability. */
module AssertionSearch {
  import opened Text
  import opened GoAst
  import opened VacuousTest

  /** Authored top-level functions by name. */
  type Index = map<string, Func>

  predicate WellIndexed(idx: Index) {
    forall name :: name in idx ==> idx[name].name == name
  }

  // --- reachability ---

  /** The function a name stands for: the test under question, or the index's entry. */
  function Decl(root: Func, idx: Index, name: string): Option<Func> {
    if name == root.name then Some(root) else if name in idx then Some(idx[name]) else None
  }

  /** An assertion of this function's own that counts: a live fail call, or an
      assertion-library call with a computed argument. */
  predicate Credited(body: Node, vars: set<string>, p: Path) {
    At(body, p).Some? &&
    var n := At(body, p).value;
    (IsFailCall(n, vars) && !IsDead(body, vars, p)) || (IsAssertionLibCall(n) && HasComputedArg(n, vars))
  }

  /** A set that holds exactly the function's testing variables. */
  ghost predicate AreVars(fn: Func, vars: set<string>) {
    forall s :: s in vars <==> IsTestingVar(fn, s)
  }

  ghost predicate AssertsDirectly(fn: Func) {
    fn.body.Some? && exists vars, p :: AreVars(fn, vars) && Credited(fn.body.value, vars, p)
  }

  /** A call that hands a testing receiver to an authored function. */
  predicate Delegates(n: Node, vars: set<string>, idx: Index, name: string) {
    n.Call? && n.fun == Ident(name) && name in idx && PassesReceiver(n, vars)
  }

  ghost predicate CallsFrom(fn: Func, idx: Index, name: string) {
    fn.body.Some? && exists vars, p ::
      AreVars(fn, vars) && At(fn.body.value, p).Some? && Delegates(At(fn.body.value, p).value, vars, idx, name)
  }

  ghost predicate HasBody(root: Func, idx: Index, name: string) {
    Decl(root, idx, name).Some? && Decl(root, idx, name).value.body.Some?
  }

  ghost predicate Edge(root: Func, idx: Index, a: string, b: string) {
    HasBody(root, idx, a) && HasBody(root, idx, b) && CallsFrom(Decl(root, idx, a).value, idx, b)
  }

  ghost predicate Chain(root: Func, idx: Index, names: seq<string>) {
    names != [] && forall i :: 0 <= i < |names| - 1 ==> Edge(root, idx, names[i], names[i + 1])
  }

  ghost predicate Reaches(root: Func, idx: Index, a: string, b: string) {
    exists names :: Chain(root, idx, names) && names[0] == a && names[|names| - 1] == b
  }

  ghost predicate AssertsAt(root: Func, idx: Index, name: string) {
    HasBody(root, idx, name) && AssertsDirectly(Decl(root, idx, name).value)
  }

  /** The reference: some function reachable from the test asserts directly. */
  ghost predicate ReachesAssertion(root: Func, idx: Index) {
    exists name :: Reaches(root, idx, root.name, name) && AssertsAt(root, idx, name)
  }

  lemma ReachesSelf(root: Func, idx: Index, a: string)
    ensures Reaches(root, idx, a, a)
  {
    assert Chain(root, idx, [a]);
  }

  lemma ReachesStep(root: Func, idx: Index, a: string, b: string, c: string)
    requires Edge(root, idx, a, b) && Reaches(root, idx, b, c)
    ensures Reaches(root, idx, a, c)
  {
    hide Edge;
    var names :| Chain(root, idx, names) && names[0] == b && names[|names| - 1] == c;
    var more := [a] + names;
    assert forall i :: 1 <= i < |more| ==> more[i] == names[i - 1];
    assert Chain(root, idx, more);
  }

  lemma {:induction false} ClosedContains(root: Func, idx: Index, names: seq<string>, closed: set<string>)
    requires Chain(root, idx, names) && names[0] in closed
    requires forall a, b :: a in closed && Edge(root, idx, a, b) ==> b in closed
    ensures names[|names| - 1] in closed
    decreases |names|
  {
    hide Edge;
    if |names| > 1 {
      var rest := names[1..];
      assert Edge(root, idx, names[0], names[1]);
      forall i | 0 <= i < |rest| - 1
        ensures Edge(root, idx, rest[i], rest[i + 1])
      {
        assert Edge(root, idx, names[i + 1], names[i + 1 + 1]);
      }
      ClosedContains(root, idx, rest, closed);
    }
  }

  lemma SameVars(fn: Func, a: set<string>, b: set<string>)
    requires AreVars(fn, a) && AreVars(fn, b)
    ensures a == b
  {
  }

  // --- the search ---

  ghost function Names(root: Func, idx: Index): set<string> {
    idx.Keys + {root.name}
  }

  /** Every function newly visited is finished: what it hands its receiver to is visited. */
  ghost predicate Finished(root: Func, idx: Index, before: set<string>, after: set<string>) {
    forall a, b :: a in after - before && Edge(root, idx, a, b) ==> b in after
  }

  ghost predicate FoundIn(root: Func, idx: Index, found: set<string>) {
    exists name :: name in found && AssertsAt(root, idx, name)
  }

  ghost predicate AllReached(root: Func, idx: Index, from: string, found: set<string>) {
    forall name :: name in found ==> Reaches(root, idx, from, name)
  }

  /** What one visited node contributes. */
  predicate CreditedVisit(body: Node, vars: set<string>, dead: set<Path>, v: Visit) {
    (IsFailCall(v.node, vars) && v.path !in dead) || (IsAssertionLibCall(v.node) && HasComputedArg(v.node, vars))
  }

  /** What the search of one body has done after k nodes. */
  ghost predicate Progress(root: Func, idx: Index, fn: Func, visited0: set<string>, visited: set<string>) {
    && visited0 + {fn.name} <= visited <= visited0 + Names(root, idx)
    && Finished(root, idx, visited0 + {fn.name}, visited)
    && AllReached(root, idx, fn.name, visited - visited0)
  }

  ghost predicate Covered(root: Func, idx: Index, vars: set<string>, visits: seq<Visit>, k: nat, visited: set<string>)
    requires k <= |visits|
  {
    forall j, name :: 0 <= j < k && Delegates(visits[j].node, vars, idx, name) && HasBody(root, idx, name)
        ==> name in visited
  }

  ghost predicate DirectUpTo(body: Node, vars: set<string>, dead: set<Path>, visits: seq<Visit>, k: nat)
    requires k <= |visits|
  {
    exists j :: 0 <= j < k && CreditedVisit(body, vars, dead, visits[j])
  }

  lemma CoveredStep(root: Func, idx: Index, vars: set<string>, visits: seq<Visit>, k: nat, before: set<string>,
                    after: set<string>)
    requires k < |visits| && Covered(root, idx, vars, visits, k, before) && before <= after
    requires forall name :: Delegates(visits[k].node, vars, idx, name) && HasBody(root, idx, name) ==> name in after
    ensures Covered(root, idx, vars, visits, k + 1, after)
  {
    hide Delegates, HasBody;
  }

  lemma DirectStep(body: Node, vars: set<string>, dead: set<Path>, visits: seq<Visit>, k: nat)
    requires k < |visits|
    ensures DirectUpTo(body, vars, dead, visits, k + 1)
            <==> DirectUpTo(body, vars, dead, visits, k) || CreditedVisit(body, vars, dead, visits[k])
  {
    hide CreditedVisit;
  }

  /** The authored helper a call hands a receiver to, if it does. */
  function Delegate(n: Node, vars: set<string>, idx: Index): (callee: Option<Func>)
    requires WellIndexed(idx)
    ensures callee.Some?
            ==> callee.value.name in idx && callee.value == idx[callee.value.name] &&
                Delegates(n, vars, idx, callee.value.name)
    ensures callee.None? ==> forall name :: !Delegates(n, vars, idx, name)
    ensures callee.Some? ==> forall name :: Delegates(n, vars, idx, name) ==> name == callee.value.name
  {
    if n.Call? && n.fun.Ident? && n.fun.name in idx && PassesReceiver(n, vars) then Some(idx[n.fun.name]) else None
  }

  method FuncAsserts(fn: Func, idx: Index, visited0: set<string>, ghost root: Func)
      returns (asserts: bool, visited: set<string>)
    requires WellIndexed(idx)
    requires fn.name in visited0 || Decl(root, idx, fn.name) == Some(fn)
    requires root.name in visited0 || fn == root
    ensures visited0 <= visited <= visited0 + Names(root, idx)
    ensures fn.body.Some? ==> fn.name in visited
    ensures Finished(root, idx, visited0, visited)
    ensures AllReached(root, idx, fn.name, visited - visited0)
    ensures asserts <==> FoundIn(root, idx, visited - visited0)
    ensures fn.body.None? ==> visited == visited0
    ensures fn.name in visited0 ==> visited == visited0
    decreases |Names(root, idx) - visited0|, 1
  {
    hide Walk, IsTestingVar, Reaches, AssertsAt, Edge, AreVars, IsDead, Covered, DirectUpTo, At;
    if fn.body.None? || fn.name in visited0 {
      return false, visited0;
    }
    var vars := TestingVars(fn);
    var dead := DeadFailCalls(fn.body.value, vars);
    AreVarsOf(fn, vars);
    NameListed(root, idx, fn);
    Smaller(Names(root, idx), visited0, visited0 + {fn.name}, fn.name);
    asserts, visited := SearchBody(fn, idx, vars, dead, visited0, root);
  }

  lemma NameListed(root: Func, idx: Index, fn: Func)
    requires Decl(root, idx, fn.name) == Some(fn)
    ensures fn.name in Names(root, idx)
  {
  }

  /** The callback of the body's inspection, node by node. */
  method SearchBody(fn: Func, idx: Index, vars: set<string>, dead: set<Path>, visited0: set<string>, ghost root: Func)
    returns (asserts: bool, visited: set<string>)
    requires WellIndexed(idx) && fn.body.Some? && fn.name !in visited0 && Decl(root, idx, fn.name) == Some(fn)
    requires root.name in visited0 || fn == root
    requires AreVars(fn, vars) && forall p :: p in dead <==> IsDead(fn.body.value, vars, p)
    ensures visited0 <= visited <= visited0 + Names(root, idx) && fn.name in visited
    ensures Finished(root, idx, visited0, visited)
    ensures AllReached(root, idx, fn.name, visited - visited0)
    ensures asserts <==> FoundIn(root, idx, visited - visited0)
    decreases |Names(root, idx) - (visited0 + {fn.name})|, 2
  {
    hide Walk, IsTestingVar, Reaches, AssertsAt, Edge, AreVars, IsDead, Covered, DirectUpTo, Progress, Delegates,
         Delegate, CreditedVisit,
         Finished, AllReached, FoundIn, At, HasBody;
    ghost var mine := visited0 + {fn.name};
    var body := fn.body.value;
    var visits := Walk(body, []);
    visited := visited0 + {fn.name};
    asserts := false;
    SearchStart(root, idx, fn, body, vars, dead, visits, visited0);
    for k := 0 to |visits|
      invariant mine <= visited && Progress(root, idx, fn, visited0, visited)
      invariant Covered(root, idx, vars, visits, k, visited)
      invariant asserts <==> DirectUpTo(body, vars, dead, visits, k) || FoundIn(root, idx, visited - mine)
    {
      ghost var before := visited;
      DirectStep(body, vars, dead, visits, k);
      if CreditedVisit(body, vars, dead, visits[k]) {
        asserts := true;
      }
      var callee := Delegate(visits[k].node, vars, idx);
      if callee.Some? {
        CalleeFits(root, idx, callee.value, visited);
        SmallerStill(Names(root, idx), mine, visited);
        var inner;
        inner, visited := FuncAsserts(callee.value, idx, visited, root);
        NestedCall(root, idx, fn, vars, visits[k], visits, visited0, before, visited, callee.value);
        if inner {
          asserts := true;
        }
      }
      CoveredStep(root, idx, vars, visits, k, before, visited);
    }
    SearchDone(root, idx, fn, vars, dead, visits, visited0, visited);
  }

  lemma SearchStart(root: Func, idx: Index, fn: Func, body: Node, vars: set<string>, dead: set<Path>,
                    visits: seq<Visit>, visited0: set<string>)
    requires Decl(root, idx, fn.name) == Some(fn) && fn.name !in visited0
    ensures Progress(root, idx, fn, visited0, visited0 + {fn.name})
    ensures Covered(root, idx, vars, visits, 0, visited0 + {fn.name})
    ensures !DirectUpTo(body, vars, dead, visits, 0)
    ensures !FoundIn(root, idx, (visited0 + {fn.name}) - (visited0 + {fn.name}))
  {
    hide Edge, Reaches, AssertsAt;
    ReachesSelf(root, idx, fn.name);
  }

  lemma CalleeFits(root: Func, idx: Index, callee: Func, visited: set<string>)
    requires WellIndexed(idx) && callee.name in idx && callee == idx[callee.name]
    ensures callee.name == root.name || Decl(root, idx, callee.name) == Some(callee)
    ensures HasBody(root, idx, callee.name) && callee.name != root.name ==> callee.body.Some?
  {
  }

  lemma AreVarsOf(fn: Func, vars: set<string>)
    requires forall s :: s in vars <==> IsTestingVar(fn, s)
    ensures AreVars(fn, vars)
  {
  }

  lemma Smaller(all: set<string>, before: set<string>, after: set<string>, name: string)
    requires name in all && name !in before && after == before + {name}
    ensures |all - after| < |all - before|
  {
    assert all - before == (all - after) + {name};
  }

  lemma SmallerStill(all: set<string>, before: set<string>, after: set<string>)
    requires before <= after
    ensures |all - after| <= |all - before|
  {
    var gap := (all - before) - (all - after);
    assert all - before == (all - after) + gap;
    assert |all - before| == |all - after| + |gap|;
  }

  /** A visited delegation is an edge. */
  lemma DelegationIsEdge(root: Func, idx: Index, fn: Func, vars: set<string>, visits: seq<Visit>, v: Visit,
                         name: string)
    requires fn.body.Some? && Decl(root, idx, fn.name) == Some(fn) && AreVars(fn, vars)
    requires visits == Walk(fn.body.value, []) && v in visits && Delegates(v.node, vars, idx, name)
             && HasBody(root, idx, name)
    ensures Edge(root, idx, fn.name, name)
  {
    hide Delegates, AreVars;
    VisitAt(fn.body.value, v);
  }

  /** An edge is a visited delegation. */
  lemma EdgeIsDelegation(root: Func, idx: Index, fn: Func, vars: set<string>, visits: seq<Visit>, name: string)
      returns (j: nat)
    requires fn.body.Some? && Decl(root, idx, fn.name) == Some(fn) && AreVars(fn, vars)
    requires visits == Walk(fn.body.value, []) && Edge(root, idx, fn.name, name)
    ensures j < |visits| && Delegates(visits[j].node, vars, idx, name)
  {
    hide Delegates, AreVars;
    var body := fn.body.value;
    var other, p :| AreVars(fn, other) && At(body, p).Some? && Delegates(At(body, p).value, other, idx, name);
    SameVars(fn, vars, other);
    WalkFinds(body, [], p);
    assert [] + p == p;
    j :| 0 <= j < |visits| && visits[j] == Visit(p, At(body, p).value);
  }

  /** One delegated search, seen from the function that made it. */
  lemma NestedCall(root: Func, idx: Index, fn: Func, vars: set<string>, v: Visit, visits: seq<Visit>,
                   visited0: set<string>, before: set<string>, after: set<string>, callee: Func)
    requires fn.body.Some? && Decl(root, idx, fn.name) == Some(fn) && AreVars(fn, vars)
             && visits == Walk(fn.body.value, []) && v in visits
    requires Delegates(v.node, vars, idx, callee.name) && WellIndexed(idx) && callee.name in idx
             && callee == idx[callee.name] && fn.name !in visited0
    requires root.name in visited0 || fn == root
    requires Progress(root, idx, fn, visited0, before)
    requires before <= after <= before + Names(root, idx) && Finished(root, idx, before, after)
    requires AllReached(root, idx, callee.name, after - before)
    requires (callee.body.None? || callee.name in before) ==> after == before
    requires callee.body.Some? ==> callee.name in after
    ensures Progress(root, idx, fn, visited0, after)
    ensures FoundIn(root, idx, after - (visited0 + {fn.name}))
        <==> FoundIn(root, idx, before - (visited0 + {fn.name})) || FoundIn(root, idx, after - before)
    ensures HasBody(root, idx, callee.name) ==> callee.name in after
  {
    hide Edge, Reaches, AssertsAt, AreVars, Walk, Delegates;
    var mine := visited0 + {fn.name};
    CalleeFits(root, idx, callee, before);
    forall a, b | a in after - mine && Edge(root, idx, a, b)
      ensures b in after
    {
      if a in before {
        assert a in before - mine;
      } else {
        assert a in after - before;
      }
    }
    forall name | name in after - visited0
      ensures Reaches(root, idx, fn.name, name)
    {
      if name in before {
        assert name in before - visited0;
      } else {
        assert name in after - before;
        DelegationIsEdge(root, idx, fn, vars, visits, v, callee.name);
        ReachesStep(root, idx, fn.name, callee.name, name);
      }
    }
    assert after - mine == (before - mine) + (after - before);
  }

  lemma SearchDone(root: Func, idx: Index, fn: Func, vars: set<string>, dead: set<Path>, visits: seq<Visit>,
                   visited0: set<string>, visited: set<string>)
    requires fn.body.Some? && Decl(root, idx, fn.name) == Some(fn) && AreVars(fn, vars)
             && visits == Walk(fn.body.value, [])
    requires forall p :: p in dead <==> IsDead(fn.body.value, vars, p)
    requires fn.name !in visited0 && Progress(root, idx, fn, visited0, visited)
             && Covered(root, idx, vars, visits, |visits|, visited)
    ensures visited0 <= visited <= visited0 + Names(root, idx) && fn.name in visited
    ensures Finished(root, idx, visited0, visited) && AllReached(root, idx, fn.name, visited - visited0)
    ensures FoundIn(root, idx, visited - visited0)
       <==> || DirectUpTo(fn.body.value, vars, dead, visits, |visits|)
            || FoundIn(root, idx, visited - (visited0 + {fn.name}))
  {
    hide AssertsDirectly, AreVars, Walk, Delegates, CreditedVisit, IsDead, CallsFrom, Reaches;
    forall a, b | a in visited - visited0 && Edge(root, idx, a, b)
      ensures b in visited
    {
      if a == fn.name {
        var j := EdgeIsDelegation(root, idx, fn, vars, visits, b);
      } else {
        assert a in visited - (visited0 + {fn.name});
      }
    }
    DirectMeans(fn, vars, dead, visits);
    assert visited - visited0 == visited - (visited0 + {fn.name}) + {fn.name};
    assert AssertsAt(root, idx, fn.name) <==> DirectUpTo(fn.body.value, vars, dead, visits, |visits|);
    if AssertsAt(root, idx, fn.name) {
      assert fn.name in visited - visited0;
    }
  }

  lemma DirectMeans(fn: Func, vars: set<string>, dead: set<Path>, visits: seq<Visit>)
    requires fn.body.Some? && AreVars(fn, vars) && visits == Walk(fn.body.value, [])
    requires forall p :: p in dead <==> IsDead(fn.body.value, vars, p)
    ensures AssertsDirectly(fn)
            <==> exists j :: 0 <= j < |visits| && CreditedVisit(fn.body.value, vars, dead, visits[j])
  {
    hide AreVars, IsDead, IsFailCall, IsAssertionLibCall;
    var body := fn.body.value;
    if j :| 0 <= j < |visits| && CreditedVisit(body, vars, dead, visits[j]) {
      VisitAt(body, visits[j]);
      assert Credited(body, vars, visits[j].path);
    }
    if AssertsDirectly(fn) {
      var other, p :| AreVars(fn, other) && Credited(body, other, p);
      SameVars(fn, vars, other);
      WalkFinds(body, [], p);
      assert [] + p == p;
      var j :| 0 <= j < |visits| && visits[j] == Visit(p, At(body, p).value);
    }
  }

  /** The search from the top: true exactly when an assertion is reachable, on any call
      graph, cyclic included. The shared visited set loses nothing. */
  method Asserts(fn: Func, idx: Index) returns (asserts: bool)
    requires WellIndexed(idx) && fn.body.Some?
    ensures asserts <==> ReachesAssertion(fn, idx)
  {
    hide Reaches, AssertsAt, Edge;
    var visited;
    asserts, visited := FuncAsserts(fn, idx, {}, fn);
    VisitedIsReachable(fn, idx, visited);
  }

  lemma VisitedIsReachable(fn: Func, idx: Index, visited: set<string>)
    requires fn.name in visited && Finished(fn, idx, {}, visited) && AllReached(fn, idx, fn.name, visited - {})
    ensures FoundIn(fn, idx, visited - {}) <==> ReachesAssertion(fn, idx)
  {
    hide Edge, AssertsAt;
    assert visited - {} == visited;
    if ReachesAssertion(fn, idx) {
      var name :| Reaches(fn, idx, fn.name, name) && AssertsAt(fn, idx, name);
      var names :| Chain(fn, idx, names) && names[0] == fn.name && names[|names| - 1] == name;
      ClosedContains(fn, idx, names, visited);
    }
  }
}
