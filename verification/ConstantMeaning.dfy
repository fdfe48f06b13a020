/** What a constant condition means: its value is the same in every environment. */
module ConstantMeaning {
  import opened Text
  import opened GoAst
  import opened VacuousTest

  /** An environment gives identifiers and every other operand a value. */
  datatype Env<!V> = Env(ident: string -> V, operand: Node -> V)

  datatype Ops<!V> = Ops(literal: string -> V, unary: (string, V) -> V, binary: (string, V, V) -> V)

  function Eval<V>(e: Node, env: Env<V>, ops: Ops<V>): V {
    match e
    case BasicLit(value) => ops.literal(value)
    case Ident(name) => env.ident(name)
    case Paren(x) => Eval(x, env, ops)
    case Unary(op, x) => ops.unary(op, Eval(x, env, ops))
    case Binary(op, x, y) => ops.binary(op, Eval(x, env, ops), Eval(y, env, ops))
    case _ => env.operand(e)
  }

  /** Both environments leave true, false, nil and iota alone. */
  ghost predicate SamePredeclared<V(!new)>(a: Env<V>, b: Env<V>) {
    forall name :: IsPredeclared(name) ==> a.ident(name) == b.ident(name)
  }

  /** A constant expression has one value, whatever its operators mean. */
  lemma {:induction false} ConstantIsFixed<V(!new)>(e: Node, a: Env<V>, b: Env<V>, ops: Ops<V>)
    requires IsConstantExpr(e) && SamePredeclared(a, b)
    ensures Eval(e, a, ops) == Eval(e, b, ops)
  {
    hide IsPredeclared;
    match e
    case Paren(x) => ConstantIsFixed(x, a, b, ops);
    case Unary(_, x) => ConstantIsFixed(x, a, b, ops);
    case Binary(_, x, y) => ConstantIsFixed(x, a, b, ops); ConstantIsFixed(y, a, b, ops);
    case _ =>
  }

  /** Uninterpreted values: an operator application is its own value. */
  datatype Term = Leaf(tag: nat) | Literal(text: string) | One(op: string, x: Term) | Two(op: string, x: Term, y: Term)

  function FreeOps(): Ops<Term> {
    Ops(s => Literal(s), (op, x) => One(op, x), (op, x, y) => Two(op, x, y))
  }

  /** Predeclared names mean the same in every such environment; everything else is tagged. */
  function Tagged(tag: nat): Env<Term> {
    Env(name => if IsPredeclared(name) then Literal(name) else Leaf(tag), n => Leaf(tag))
  }

  lemma {:induction false} ComputedDiffers(e: Node)
    requires !IsConstantExpr(e)
    ensures Eval(e, Tagged(0), FreeOps()) != Eval(e, Tagged(1), FreeOps())
  {
    match e
    case Paren(x) => ComputedDiffers(x);
    case Unary(_, x) => ComputedDiffers(x);
    case Binary(_, x, y) =>
      if IsConstantExpr(x) {
        ComputedDiffers(y);
      } else {
        ComputedDiffers(x);
      }
    case _ =>
  }

  /** isConstantExpr is exact when operators are left uninterpreted: an expression is
      constant if and only if no two environments tell its values apart. */
  lemma ConstantIff(e: Node)
    ensures IsConstantExpr(e) <==> forall a, b :: SamePredeclared(a, b) ==>
            Eval(e, a, FreeOps()) == Eval(e, b, FreeOps())
  {
    if IsConstantExpr(e) {
      forall a, b | SamePredeclared(a, b)
        ensures Eval(e, a, FreeOps()) == Eval(e, b, FreeOps())
      {
        ConstantIsFixed(e, a, b, FreeOps());
      }
    } else {
      ComputedDiffers(e);
      assert SamePredeclared(Tagged(0), Tagged(1));
    }
  }

  /** An environment in which every name means b. */
  function Constantly(b: bool): Env<bool> {
    Env(name => b, n => b)
  }

  function AnyOps(): Ops<bool> {
    Ops(text => false, (op, x) => x, (op, x, y) => x)
  }

  /** Go lets a program shadow a predeclared name; then the condition is computed after all. */
  lemma ShadowedIsComputed()
    ensures IsConstantExpr(Ident("true"))
    ensures Eval(Ident("true"), Constantly(false), AnyOps()) != Eval(Ident("true"), Constantly(true), AnyOps())
  {
    var fixed := Eval(Ident("true"), Constantly(true), AnyOps());
    assert fixed == true;
  }
}
