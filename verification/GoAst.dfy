/** The part of Go's syntax tree the floors look at, and its preorder walk. */
module GoAst {
  import opened Text

  datatype Field = Field(names: seq<string>, typ: Node)

  datatype Node =
    | Ident(name: string)
    | BasicLit(value: string)
    | Paren(x: Node)
    | Unary(op: string, x: Node)
    | Binary(op: string, x: Node, y: Node)
    | Star(x: Node)
    | Selector(x: Node, sel: string)
    | Call(fun: Node, args: seq<Node>)
    | FuncType(params: seq<Field>, results: seq<Field>)
    | FuncLit(ftype: Node, body: Node)
    | If(init: Option<Node>, cond: Node, body: Node, els: Option<Node>)
    | Other(children: seq<Node>)

  /** A top-level function; methods carry a receiver. */
  datatype Func = Func(name: string, isMethod: bool, ftype: Node, body: Option<Node>)

  function OptList(n: Option<Node>): seq<Node> {
    match n
    case None => []
    case Some(x) => [x]
  }

  function Types(fields: seq<Field>): (ts: seq<Node>)
    ensures |ts| == |fields| && forall i :: 0 <= i < |fields| ==> ts[i] == fields[i].typ
  {
    seq(|fields|, i requires 0 <= i < |fields| => fields[i].typ)
  }

  /** Children in the order ast.Inspect visits them. */
  function Children(n: Node): (cs: seq<Node>)
    ensures forall i :: 0 <= i < |cs| ==> cs[i] < n
  {
    match n
    case Ident(_) => []
    case BasicLit(_) => []
    case Paren(x) => [x]
    case Unary(_, x) => [x]
    case Binary(_, x, y) => [x, y]
    case Star(x) => [x]
    case Selector(x, _) => [x]
    case Call(fun, args) => [fun] + args
    case FuncType(params, results) => Types(params) + Types(results)
    case FuncLit(ftype, body) => [ftype, body]
    case If(init, cond, body, els) => OptList(init) + [cond, body] + OptList(els)
    case Other(children) => children
  }

  /** Where a node sits: child positions from the top. */
  type Path = seq<nat>

  function At(n: Node, path: Path): Option<Node>
    decreases |path|
  {
    if path == [] then Some(n)
    else if path[0] < |Children(n)| then At(Children(n)[path[0]], path[1..])
    else None
  }

  datatype Visit = Visit(path: Path, node: Node)

  /** ast.Inspect with a callback that never stops: every node once, in preorder. */
  function Walk(n: Node, path: Path): seq<Visit>
    decreases n, |Children(n)| + 1
  {
    [Visit(path, n)] + WalkFrom(n, path, 0)
  }

  function WalkFrom(n: Node, path: Path, k: nat): seq<Visit>
    requires k <= |Children(n)|
    decreases n, |Children(n)| - k
  {
    if k == |Children(n)| then [] else Walk(Children(n)[k], path + [k]) + WalkFrom(n, path, k + 1)
  }

  lemma {:induction false} WalkFinds(n: Node, path: Path, p: Path)
    requires At(n, p).Some?
    ensures Visit(path + p, At(n, p).value) in Walk(n, path)
    decreases |p|
  {
    if p == [] {
      assert path + p == path;
    } else {
      WalkFinds(Children(n)[p[0]], path + [p[0]], p[1..]);
      assert path + [p[0]] + p[1..] == path + p;
      WalkFromFinds(n, path, 0, p[0], Visit(path + p, At(n, p).value));
    }
  }

  lemma {:induction false} WalkFromFinds(n: Node, path: Path, k: nat, c: nat, v: Visit)
    requires k <= c < |Children(n)| && v in Walk(Children(n)[c], path + [c])
    ensures v in WalkFrom(n, path, k)
    decreases c - k
  {
    if k < c {
      WalkFromFinds(n, path, k + 1, c, v);
    }
  }

  lemma {:induction false} WalkOnly(n: Node, path: Path, v: Visit)
    requires v in Walk(n, path)
    ensures path <= v.path && At(n, v.path[|path|..]) == Some(v.node)
    decreases n, |Children(n)| + 1
  {
    if v != Visit(path, n) {
      WalkFromOnly(n, path, 0, v);
    }
  }

  lemma {:induction false} WalkFromOnly(n: Node, path: Path, k: nat, v: Visit)
    requires k <= |Children(n)| && v in WalkFrom(n, path, k)
    ensures path < v.path && At(n, v.path[|path|..]) == Some(v.node)
    decreases n, |Children(n)| - k
  {
    if v in Walk(Children(n)[k], path + [k]) {
      WalkOnly(Children(n)[k], path + [k], v);
      assert v.path[|path|..][0] == k;
      assert v.path[|path|..][1..] == v.path[|path + [k]|..];
    } else {
      WalkFromOnly(n, path, k + 1, v);
    }
  }

  lemma {:induction false} AtConcat(n: Node, p: Path, q: Path)
    ensures At(n, p + q) == if At(n, p).Some? then At(At(n, p).value, q) else None
    decreases |p|
  {
    if p == [] {
      assert p + q == q;
    } else {
      assert (p + q)[1..] == p[1..] + q;
      if p[0] < |Children(n)| {
        AtConcat(Children(n)[p[0]], p[1..], q);
      }
    }
  }
}
