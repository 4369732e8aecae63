/**
 The arithmetic the calculator is meant to compute: expressions built from numbers, the four
 operators and parentheses, with `*` and `/` binding tighter than `+` and `-`, and operators of
 the same strength grouped to the left. Also binary expression trees, their postfix form and
 the evaluator run over that form.
 */
module Grammar {
  import opened Tokens
  import opened Evaluator
  import opened Converter

  datatype AddOp = Plus | Minus

  datatype MulOp = Times | Over

  function AddOperator(o: AddOp): (r: Operator)
    ensures r == Add || r == Sub
  {
    if o == Plus then Add else Sub
  }

  function MulOperator(o: MulOp): (r: Operator)
    ensures r == Mul || r == Div
  {
    if o == Times then Mul else Div
  }

  /** expression: terms joined by `+` and `-`, the last term rightmost. */
  datatype Sum = Single(t: Product) | AddSub(s: Sum, ao: AddOp, t: Product)

  /** term: factors joined by `*` and `/`, the last factor rightmost. */
  datatype Product = One(f: Factor) | MulDiv(p: Product, mo: MulOp, f: Factor)

  /** factor: a number or a parenthesised expression. */
  datatype Factor = Number(d: Digits) | Group(e: Sum)

  function SumTokens(s: Sum): seq<Token>
  {
    match s
    case Single(t) => ProductTokens(t)
    case AddSub(s, o, t) => SumTokens(s) + [Op(AddOperator(o))] + ProductTokens(t)
  }

  function ProductTokens(p: Product): seq<Token>
  {
    match p
    case One(f) => FactorTokens(f)
    case MulDiv(p, o, f) => ProductTokens(p) + [Op(MulOperator(o))] + FactorTokens(f)
  }

  function FactorTokens(f: Factor): seq<Token>
  {
    match f
    case Number(d) => [Num(d)]
    case Group(e) => [Open] + SumTokens(e) + [Close]
  }

  /** a o b over values that may be undefined; a division by zero is undefined. */
  function Lift(o: Operator, a: Option<real>, b: Option<real>): (r: Option<real>)
    ensures r.Some? <==> a.Some? && b.Some? && !(o == Div && b.value == 0.0)
    ensures r.Some? ==> Apply(o, a.value, b.value) == Ok(r.value)
  {
    if a.None? || b.None? then None
    else match Apply(o, a.value, b.value)
      case Err(_) => None
      case Ok(v) => Some(v)
  }

  /** The value under the usual precedence, left to right; None when some divisor is zero. */
  function SumValue(s: Sum): Option<real>
  {
    match s
    case Single(t) => ProductValue(t)
    case AddSub(s, o, t) => Lift(AddOperator(o), SumValue(s), ProductValue(t))
  }

  function ProductValue(p: Product): Option<real>
  {
    match p
    case One(f) => FactorValue(f)
    case MulDiv(p, o, f) => Lift(MulOperator(o), ProductValue(p), FactorValue(f))
  }

  function FactorValue(f: Factor): Option<real>
  {
    match f
    case Number(d) => Some(DigitsValue(d) as real)
    case Group(e) => SumValue(e)
  }

  /** A binary expression tree with number leaves. */
  datatype Tree = Leaf(d: Digits) | Node(o: Operator, l: Tree, r: Tree)

  /** The tree in postfix order. */
  function Post(tr: Tree): seq<Token>
  {
    match tr
    case Leaf(d) => [Num(d)]
    case Node(o, l, r) => Post(l) + Post(r) + [Op(o)]
  }

  function TreeValue(tr: Tree): Option<real>
  {
    match tr
    case Leaf(d) => Some(DigitsValue(d) as real)
    case Node(o, l, r) => Lift(o, TreeValue(l), TreeValue(r))
  }

  /** What the evaluator leaves on its stack for a tree: the number token itself for a leaf,
      the computed value otherwise. */
  function Top(tr: Tree): (x: Operand)
    requires TreeValue(tr).Some?
    ensures NumberOf(x) == Ok(TreeValue(tr).value)
  {
    match tr
    case Leaf(d) => Pushed(Num(d))
    case Node(_, _, _) => Value(TreeValue(tr).value)
  }

  /** The evaluator runs a tree's postfix form to the tree's value, or stops at a zero divisor. */
  lemma {:induction false} ExecPost(tr: Tree, rest: seq<Token>, vs: seq<Operand>)
    ensures Exec(Post(tr) + rest, vs) ==
      if TreeValue(tr).None? then Err(DivByZero) else Exec(rest, vs + [Top(tr)])
  {
    match tr
    case Leaf(d) =>
      assert (Post(tr) + rest)[0] == Num(d) && (Post(tr) + rest)[1..] == rest;
    case Node(o, l, r) =>
      assert Post(tr) + rest == Post(l) + (Post(r) + ([Op(o)] + rest));
      ExecPost(l, Post(r) + ([Op(o)] + rest), vs);
      if TreeValue(l).Some? {
        ExecPost(r, [Op(o)] + rest, vs + [Top(l)]);
        if TreeValue(r).Some? {
          var ws := vs + [Top(l)] + [Top(r)];
          ExecStep([Op(o)] + rest, ws);
          assert ([Op(o)] + rest)[0] == Op(o) && ([Op(o)] + rest)[1..] == rest;
          assert ws[|ws| - 1] == Top(r) && ws[|ws| - 2] == Top(l) && ws[..|ws| - 2] == vs;
        }
      }
  }

  /** A subtree waiting for its right operand, and the operator that will join them. */
  datatype Pending = Pending(tree: Tree, op: Operator)

  /** The state of a conversion in the middle of an expression: left operands with their
      operators, outermost first, and the subtree built last. */
  datatype Frame = Frame(ctx: seq<Pending>, cur: Tree)

  /** The tree a frame stands for: each pending operator joins its subtree with everything
      to its right. */
  function Plug(ctx: seq<Pending>, cur: Tree): Tree
  {
    if ctx == [] then cur else Node(ctx[0].op, ctx[0].tree, Plug(ctx[1..], cur))
  }

  /** The operators of a context as tokens, outermost first. */
  function Ops(ctx: seq<Pending>): (r: seq<Token>)
    ensures |r| == |ctx|
  {
    if ctx == [] then [] else [Op(ctx[0].op)] + Ops(ctx[1..])
  }

  /** The postfix forms of a context's subtrees, one after the other. */
  function Posts(ctx: seq<Pending>): seq<Token>
  {
    if ctx == [] then [] else Post(ctx[0].tree) + Posts(ctx[1..])
  }

  lemma {:induction false} PlugAppend(c: seq<Pending>, d: seq<Pending>, cur: Tree)
    ensures Plug(c + d, cur) == Plug(c, Plug(d, cur))
  {
    if c == [] {
      assert c + d == d;
    } else {
      assert (c + d)[0] == c[0] && (c + d)[1..] == c[1..] + d;
      PlugAppend(c[1..], d, cur);
    }
  }

  lemma {:induction false} OpsAppend(c: seq<Pending>, d: seq<Pending>)
    ensures Ops(c + d) == Ops(c) + Ops(d)
  {
    if c == [] {
      assert c + d == d;
    } else {
      assert (c + d)[0] == c[0] && (c + d)[1..] == c[1..] + d;
      OpsAppend(c[1..], d);
    }
  }

  lemma {:induction false} PostsAppend(c: seq<Pending>, d: seq<Pending>)
    ensures Posts(c + d) == Posts(c) + Posts(d)
  {
    if c == [] {
      assert c + d == d;
    } else {
      assert (c + d)[0] == c[0] && (c + d)[1..] == c[1..] + d;
      PostsAppend(c[1..], d);
    }
  }

  /** The postfix form of a plugged frame: the subtrees' forms, then the operators innermost
      first. */
  lemma {:induction false} PlugPost(ctx: seq<Pending>, cur: Tree)
    ensures Post(Plug(ctx, cur)) == Posts(ctx) + Post(cur) + Reversed(Ops(ctx))
  {
    if ctx != [] {
      PlugPost(ctx[1..], cur);
      var p, q := Post(ctx[0].tree), Posts(ctx[1..]);
      assert Ops(ctx)[1..] == Ops(ctx[1..]);
      assert Reversed(Ops(ctx)) == Reversed(Ops(ctx[1..])) + [Op(ctx[0].op)];
    }
  }

  /** An arriving operator o folds pending operators the pop table lets it pop, innermost first,
      into the subtree built last. */
  function Collapse(o: Operator, fr: Frame): (r: Frame)
    ensures |r.ctx| <= |fr.ctx| && r.ctx == fr.ctx[..|r.ctx|]
    ensures r.ctx == [] || !Pops(o, Op(r.ctx[|r.ctx| - 1].op))
    decreases |fr.ctx|
  {
    var c := fr.ctx;
    if c != [] && Pops(o, Op(c[|c| - 1].op)) then
      Collapse(o, Frame(c[..|c| - 1], Node(c[|c| - 1].op, c[|c| - 1].tree, fr.cur)))
    else fr
  }

  /** Folding does not change the tree a frame stands for. */
  lemma {:induction false} CollapsePlug(o: Operator, fr: Frame)
    ensures Plug(Collapse(o, fr).ctx, Collapse(o, fr).cur) == Plug(fr.ctx, fr.cur)
    decreases |fr.ctx|
  {
    var c := fr.ctx;
    if c != [] && Pops(o, Op(c[|c| - 1].op)) {
      var last := c[|c| - 1];
      CollapsePlug(o, Frame(c[..|c| - 1], Node(last.op, last.tree, fr.cur)));
      assert c == c[..|c| - 1] + [last];
      PlugAppend(c[..|c| - 1], [last], fr.cur);
      assert Plug([last], fr.cur) == Node(last.op, last.tree, fr.cur) by {
        assert [last][1..] == [];
      }
    }
  }
}
