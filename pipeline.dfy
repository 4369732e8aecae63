/**
 The three stages together: on a well-formed expression the converter's output is the postfix
 form of a tree whose value is the expression's value under the usual precedence, so the
 evaluator computes that value, or stops at a zero divisor exactly when the expression has one.
 */
module Pipeline {
  import opened Tokens
  import opened Braces
  import opened Tokenizer
  import opened Converter
  import opened Evaluator
  import opened Grammar

  /** The frame the converter has built after an expression: its pending operators are the ones
      left on the stack. */
  function SumFrame(s: Sum): Frame
  {
    match s
    case Single(t) => ProductFrame(t)
    case AddSub(s, o, t) =>
      var c := Collapse(AddOperator(o), SumFrame(s));
      var pt := ProductFrame(t);
      Frame(c.ctx + [Pending(c.cur, AddOperator(o))] + pt.ctx, pt.cur)
  }

  function ProductFrame(p: Product): Frame
  {
    match p
    case One(f) => Frame([], FactorTree(f))
    case MulDiv(p, o, f) =>
      var c := Collapse(MulOperator(o), ProductFrame(p));
      Frame(c.ctx + [Pending(c.cur, MulOperator(o))], FactorTree(f))
  }

  /** A factor is converted completely: a parenthesised expression is closed off by `)`. */
  function FactorTree(f: Factor): Tree
  {
    match f
    case Number(d) => Leaf(d)
    case Group(e) => Plug(SumFrame(e).ctx, SumFrame(e).cur)
  }

  /** The converter's state for a frame laid over a stack and an output. */
  function Lay(stk: seq<Token>, out: seq<Token>, fr: Frame): State
  {
    State(stk + Ops(fr.ctx), out + Posts(fr.ctx) + Post(fr.cur))
  }

  /** No operator o pops the top of stk. */
  predicate Floor(o: Operator, stk: seq<Token>)
  {
    stk == [] || !Pops(o, stk[|stk| - 1])
  }

  /** An operator token: the pops, then the push (a `(` on top pops nothing anyway). */
  lemma StepOp(o: Operator, st: State)
    ensures Step(Op(o), st) == Ok(State(PopFor(o, st).stack + [Op(o)], PopFor(o, st).out))
  {
  }

  lemma RunOne(t: Token, st: State)
    ensures Run([t], st) == Step(t, st)
  {
    assert [t][1..] == [];
  }

  /** A context split at its last entry. */
  lemma Snoc(c: seq<Pending>)
    requires c != []
    ensures Ops(c) == Ops(c[..|c| - 1]) + [Op(c[|c| - 1].op)]
    ensures Posts(c) == Posts(c[..|c| - 1]) + Post(c[|c| - 1].tree)
  {
    var c0, last := c[..|c| - 1], c[|c| - 1];
    assert c == c0 + [last];
    OpsAppend(c0, [last]);
    PostsAppend(c0, [last]);
    SingleEntry(last);
  }

  /** The operators and the output of a one-entry context. */
  lemma SingleEntry(p: Pending)
    ensures Ops([p]) == [Op(p.op)] && Posts([p]) == Post(p.tree)
  {
    assert [p][1..] == [];
    assert Post(p.tree) + [] == Post(p.tree);
  }

  /** The pops for an arriving operator fold the frame exactly as Collapse does. */
  lemma {:induction false} CollapsePopFor(o: Operator, stk: seq<Token>, out: seq<Token>, fr: Frame)
    requires Floor(o, stk)
    ensures PopFor(o, Lay(stk, out, fr)) == Lay(stk, out, Collapse(o, fr))
    decreases |fr.ctx|
  {
    var c := fr.ctx;
    if c != [] && Pops(o, Op(c[|c| - 1].op)) {
      var next := Frame(c[..|c| - 1], Node(c[|c| - 1].op, c[|c| - 1].tree, fr.cur));
      PopOne(o, stk, out, fr);
      CollapsePopFor(o, stk, out, next);
    } else {
      PopNone(o, stk, out, fr);
    }
  }

  /** An operator the arriving one pops on top of the frame's stack: one pop folds it. */
  lemma PopOne(o: Operator, stk: seq<Token>, out: seq<Token>, fr: Frame)
    requires fr.ctx != [] && Pops(o, Op(fr.ctx[|fr.ctx| - 1].op))
    ensures PopFor(o, Lay(stk, out, fr)) ==
      PopFor(o, Lay(stk, out, Frame(fr.ctx[..|fr.ctx| - 1], Node(fr.ctx[|fr.ctx| - 1].op, fr.ctx[|fr.ctx| - 1].tree, fr.cur))))
  {
    var c := fr.ctx;
    var c0, last := c[..|c| - 1], c[|c| - 1];
    Snoc(c);
    SeqAssoc(stk, Ops(c0), [Op(last.op)]);
    var w := out + Posts(c) + Post(fr.cur);
    PopForTop(o, stk + Ops(c0), Op(last.op), w);
    FoldOut(out, Posts(c0), last.op, last.tree, fr.cur);
  }

  /** The output after a pop is the output of the folded frame. */
  lemma FoldOut(out: seq<Token>, p: seq<Token>, o: Operator, l: Tree, r: Tree)
    ensures out + (p + Post(l)) + Post(r) + [Op(o)] == out + p + Post(Node(o, l, r))
  {
    Assoc5(out, p, Post(l), Post(r), [Op(o)]);
  }

  lemma Assoc5<T>(a: seq<T>, b: seq<T>, c: seq<T>, d: seq<T>, e: seq<T>)
    ensures a + (b + c) + d + e == a + b + (c + d + e)
  {
  }

  /** Nothing on top of the frame's stack that the arriving operator pops: no pop at all. */
  lemma PopNone(o: Operator, stk: seq<Token>, out: seq<Token>, fr: Frame)
    requires Floor(o, stk)
    requires fr.ctx == [] || !Pops(o, Op(fr.ctx[|fr.ctx| - 1].op))
    ensures PopFor(o, Lay(stk, out, fr)) == Lay(stk, out, fr)
  {
    var c := fr.ctx;
    var st := Lay(stk, out, fr);
    if c == [] {
      assert st.stack == stk;
    } else {
      Snoc(c);
      assert st.stack == stk + Ops(c[..|c| - 1]) + [Op(c[|c| - 1].op)];
    }
  }

  /** A `)` after an expression opened by `(`: the pending operators go out innermost first. */
  lemma {:induction false} PopToOpenOps(stk: seq<Token>, ctx: seq<Pending>, x: seq<Token>)
    ensures PopToOpen(State(stk + [Open] + Ops(ctx), x)) == Ok(State(stk, x + Reversed(Ops(ctx))))
    decreases |ctx|
  {
    var s := stk + [Open] + Ops(ctx);
    if ctx == [] {
      assert s == stk + [Open] && s[..|s| - 1] == stk;
      assert x + Reversed(Ops(ctx)) == x;
    } else {
      var c0, last := ctx[..|ctx| - 1], ctx[|ctx| - 1];
      Snoc(ctx);
      var a := stk + [Open] + Ops(c0);
      assert s == a + [Op(last.op)];
      assert s[|s| - 1] == Op(last.op) && s[..|s| - 1] == a;
      assert PopToOpen(State(s, x)) == PopToOpen(State(a, x + [Op(last.op)]));
      PopToOpenOps(stk, c0, x + [Op(last.op)]);
      ReversedAppend(Ops(c0), [Op(last.op)]);
      assert Reversed([Op(last.op)]) == [Op(last.op)];
      assert x + [Op(last.op)] + Reversed(Ops(c0)) == x + Reversed(Ops(ctx));
    }
  }

  /** An operator pushed after the pops becomes a pending entry of the folded frame. */
  lemma PushPending(stk: seq<Token>, out: seq<Token>, c: Frame, op: Operator)
    ensures var d := c.ctx + [Pending(c.cur, op)];
      State(Lay(stk, out, c).stack + [Op(op)], Lay(stk, out, c).out) == State(stk + Ops(d), out + Posts(d))
  {
    var d := c.ctx + [Pending(c.cur, op)];
    Snoc(d);
    assert d[..|d| - 1] == c.ctx;
  }

  /** A frame laid over the stack and output another context leaves. */
  lemma LayAppend(stk: seq<Token>, out: seq<Token>, d: seq<Pending>, fr: Frame)
    ensures Lay(stk + Ops(d), out + Posts(d), fr) == Lay(stk, out, Frame(d + fr.ctx, fr.cur))
  {
    var e := d + fr.ctx;
    OpsAppend(d, fr.ctx);
    PostsAppend(d, fr.ctx);
    var stack := stk + Ops(d) + Ops(fr.ctx);
    var output := out + Posts(d) + Posts(fr.ctx) + Post(fr.cur);
    assert stack == stk + Ops(e) by {
      SeqAssoc(stk, Ops(d), Ops(fr.ctx));
    }
    assert output == out + Posts(e) + Post(fr.cur) by {
      SeqAssoc(out, Posts(d), Posts(fr.ctx));
    }
  }

  /** The converter on an expression, from a stack no additive operator pops into. */
  lemma {:induction false} SumRun(s: Sum, stk: seq<Token>, out: seq<Token>)
    requires Floor(Add, stk)
    ensures Run(SumTokens(s), State(stk, out)) == Ok(Lay(stk, out, SumFrame(s)))
    decreases s
  {
    match s
    case Single(t) =>
      ProductRun(t, stk, out);
    case AddSub(s0, o, t) =>
      var op := AddOperator(o);
      var f0 := SumFrame(s0);
      var c := Collapse(op, f0);
      var pt := ProductFrame(t);
      var d := c.ctx + [Pending(c.cur, op)];
      SumRun(s0, stk, out);
      RunAppend(SumTokens(s0), [Op(op)], State(stk, out));
      RunOne(Op(op), Lay(stk, out, f0));
      CollapsePopFor(op, stk, out, f0);
      StepOp(op, Lay(stk, out, f0));
      PushPending(stk, out, c, op);
      var mid := State(stk + Ops(d), out + Posts(d));
      assert Run(SumTokens(s0) + [Op(op)], State(stk, out)) == Ok(mid);
      ProductRun(t, stk + Ops(d), out + Posts(d));
      RunAppend(SumTokens(s0) + [Op(op)], ProductTokens(t), State(stk, out));
      LayAppend(stk, out, d, pt);
      assert SumFrame(s) == Frame(d + pt.ctx, pt.cur);
  }

  /** The converter on a term, from a stack whose top no `*` or `/` pops. */
  lemma {:induction false} ProductRun(p: Product, stk: seq<Token>, out: seq<Token>)
    requires Floor(Mul, stk)
    ensures Run(ProductTokens(p), State(stk, out)) == Ok(Lay(stk, out, ProductFrame(p)))
    decreases p
  {
    match p
    case One(f) =>
      FactorRun(f, stk, out);
      assert Lay(stk, out, ProductFrame(p)) == State(stk, out + Post(FactorTree(f)));
    case MulDiv(p0, o, f) =>
      var op := MulOperator(o);
      var f0 := ProductFrame(p0);
      var c := Collapse(op, f0);
      var d := c.ctx + [Pending(c.cur, op)];
      ProductRun(p0, stk, out);
      RunAppend(ProductTokens(p0), [Op(op)], State(stk, out));
      RunOne(Op(op), Lay(stk, out, f0));
      CollapsePopFor(op, stk, out, f0);
      StepOp(op, Lay(stk, out, f0));
      PushPending(stk, out, c, op);
      var mid := State(stk + Ops(d), out + Posts(d));
      assert Run(ProductTokens(p0) + [Op(op)], State(stk, out)) == Ok(mid);
      FactorRun(f, stk + Ops(d), out + Posts(d));
      RunAppend(ProductTokens(p0) + [Op(op)], FactorTokens(f), State(stk, out));
  }

  /** The converter on a factor, from any stack: it leaves the stack as it was. */
  lemma {:induction false} FactorRun(f: Factor, stk: seq<Token>, out: seq<Token>)
    ensures Run(FactorTokens(f), State(stk, out)) == Ok(State(stk, out + Post(FactorTree(f))))
    decreases f
  {
    match f
    case Number(d) =>
      RunOne(Num(d), State(stk, out));
    case Group(e) =>
      SumRun(e, stk + [Open], out);
      GroupRun(e, stk, out);
  }

  /** A bracketed expression, given the run of the expression inside above the `(`. */
  lemma GroupRun(e: Sum, stk: seq<Token>, out: seq<Token>)
    requires Run(SumTokens(e), State(stk + [Open], out)) == Ok(Lay(stk + [Open], out, SumFrame(e)))
    ensures Run(FactorTokens(Group(e)), State(stk, out)) == Ok(State(stk, out + Post(FactorTree(Group(e)))))
  {
    var fr := SumFrame(e);
    var x := out + Posts(fr.ctx) + Post(fr.cur);
    OpenRun(SumTokens(e), stk, out, Lay(stk + [Open], out, fr));
    CloseRun(stk, fr.ctx, x);
    RunAppend([Open] + SumTokens(e), [Close], State(stk, out));
    PlugPost(fr.ctx, fr.cur);
    SeqAssoc(out, Posts(fr.ctx), Post(fr.cur));
    SeqAssoc(out, Posts(fr.ctx) + Post(fr.cur), Reversed(Ops(fr.ctx)));
  }

  /** A `(` and then tokens that run from the stack with the `(` pushed. */
  lemma OpenRun(ts: seq<Token>, stk: seq<Token>, out: seq<Token>, st: State)
    requires Run(ts, State(stk + [Open], out)) == Ok(st)
    ensures Run([Open] + ts, State(stk, out)) == Ok(st)
  {
    RunOne(Open, State(stk, out));
    RunAppend([Open], ts, State(stk, out));
  }

  /** A `)` over pending operators above a `(`: they go out innermost first. */
  lemma CloseRun(stk: seq<Token>, ctx: seq<Pending>, x: seq<Token>)
    ensures Run([Close], State(stk + [Open] + Ops(ctx), x)) == Ok(State(stk, x + Reversed(Ops(ctx))))
  {
    RunOne(Close, State(stk + [Open] + Ops(ctx), x));
    PopToOpenOps(stk, ctx, x);
  }

  /** The converter's output on an expression is the postfix form of the tree of its frame. */
  lemma ConvertSum(s: Sum)
    ensures Postfix(SumTokens(s)) == Ok(Post(Plug(SumFrame(s).ctx, SumFrame(s).cur)))
  {
    SumRun(s, [], []);
    PostfixOfFrame(SumTokens(s), SumFrame(s));
  }

  /** A run from the empty state that ends in a frame's state gives the postfix form of the
      tree the frame stands for. */
  lemma PostfixOfFrame(ts: seq<Token>, fr: Frame)
    requires Run(ts, State([], [])) == Ok(Lay([], [], fr))
    ensures Postfix(ts) == Ok(Post(Plug(fr.ctx, fr.cur)))
  {
    PlugPost(fr.ctx, fr.cur);
    assert Lay([], [], fr) == State(Ops(fr.ctx), Posts(fr.ctx) + Post(fr.cur));
  }

  /** How tightly an operator binds: `-` after `+`, `/` after `*`. */
  function Rank(o: Operator): nat
  {
    match o
    case Add => 0
    case Sub => 1
    case Mul => 2
    case Div => 3
  }

  /** Which pending operator may lie below which: the only repeats are `+` and `*`. */
  predicate Precedes(a: Operator, b: Operator)
  {
    Rank(a) < Rank(b) || (a == b && (a == Add || a == Mul))
  }

  /** The pending operators from the bottom up: `+`s, at most one `-`, `*`s, at most one `/`. */
  predicate Ordered(ctx: seq<Pending>)
  {
    forall i, j | 0 <= i < j < |ctx| :: Precedes(ctx[i].op, ctx[j].op)
  }

  predicate AllOf(ctx: seq<Pending>, o: Operator)
  {
    forall k | 0 <= k < |ctx| :: ctx[k].op == o
  }

  predicate Tight(ctx: seq<Pending>)
  {
    forall k | 0 <= k < |ctx| :: Rank(ctx[k].op) >= 2
  }

  lemma MulAssoc(u: real, v: real, w: real)
    ensures u * (v * w) == (u * v) * w
  {
  }

  lemma MulDivAssoc(u: real, v: real, w: real)
    requires w != 0.0
    ensures u * (v / w) == (u * v) / w
  {
    var q := v / w;
    assert q * w == v;
    assert (u * q) * w == u * v;
  }

  /** u base (v o w) = (u base v) o w, for the pairs of operators the pop table regroups. */
  lemma ApplyAssoc(base: Operator, o: Operator, u: real, v: real, w: real)
    requires (base == Add && (o == Add || o == Sub)) || (base == Mul && (o == Mul || o == Div))
    requires Apply(o, v, w).Ok?
    ensures Apply(base, u, Apply(o, v, w).value).Ok? && Apply(o, Apply(base, u, v).value, w).Ok?
    ensures Apply(base, u, Apply(o, v, w).value).value == Apply(o, Apply(base, u, v).value, w).value
  {
    if o == Mul {
      ApplyMulMul(u, v, w);
    } else if o == Div {
      ApplyMulDiv(u, v, w);
    }
  }

  lemma ApplyMulMul(u: real, v: real, w: real)
    ensures Apply(Mul, u, Apply(Mul, v, w).value).value == Apply(Mul, Apply(Mul, u, v).value, w).value
  {
    MulAssoc(u, v, w);
  }

  lemma ApplyMulDiv(u: real, v: real, w: real)
    requires w != 0.0
    ensures Apply(Div, v, w).Ok? && Apply(Div, Apply(Mul, u, v).value, w).Ok?
    ensures Apply(Mul, u, Apply(Div, v, w).value).value == Apply(Div, Apply(Mul, u, v).value, w).value
  {
    MulDivAssoc(u, v, w);
  }

  /** The regroupings the pop table relies on: a + (x o y) = (a + x) o y for o in `+`, `-`, and
      a * (x o y) = (a * x) o y for o in `*`, `/`, undefined on both sides alike. */
  lemma LiftAssoc(base: Operator, o: Operator, a: Option<real>, x: Option<real>, y: Option<real>)
    requires (base == Add && (o == Add || o == Sub)) || (base == Mul && (o == Mul || o == Div))
    ensures Lift(base, a, Lift(o, x, y)) == Lift(o, Lift(base, a, x), y)
  {
    if a.Some? && x.Some? && y.Some? && Lift(o, x, y).Some? {
      ApplyAssoc(base, o, a.value, x.value, y.value);
    }
  }

  /** Under a chain of one associative operator, a subtree's own operator can be lifted out. */
  lemma {:induction false} ChainValue(ctx: seq<Pending>, base: Operator, o: Operator, x: Tree, y: Tree)
    requires (base == Add && (o == Add || o == Sub)) || (base == Mul && (o == Mul || o == Div))
    requires AllOf(ctx, base)
    ensures TreeValue(Plug(ctx, Node(o, x, y))) == Lift(o, TreeValue(Plug(ctx, x)), TreeValue(y))
  {
    if ctx != [] {
      ChainValue(ctx[1..], base, o, x, y);
      LiftAssoc(base, o, TreeValue(ctx[0].tree), TreeValue(Plug(ctx[1..], x)), TreeValue(y));
    }
  }

  /** Plugging through a pushed entry. */
  lemma PlugPush(c: seq<Pending>, x: Tree, o: Operator, d: seq<Pending>, cur: Tree)
    ensures Plug(c + [Pending(x, o)] + d, cur) == Plug(c, Node(o, x, Plug(d, cur)))
  {
    var e := [Pending(x, o)] + d;
    assert c + [Pending(x, o)] + d == c + e;
    PlugAppend(c, e, cur);
    assert e[0] == Pending(x, o) && e[1..] == d;
  }

  /** What an additive operator leaves after its pops: only `+`s. */
  lemma FoldedAdditive(o: Operator, fr: Frame)
    requires o == Add || o == Sub
    requires Ordered(fr.ctx)
    ensures AllOf(Collapse(o, fr).ctx, Add)
  {
    var c := Collapse(o, fr).ctx;
    if c != [] {
      var n := |c|;
      assert c[n - 1].op == Add;
      forall k | 0 <= k < n
        ensures c[k].op == Add
      {
        if k < n - 1 {
          assert c[k] == fr.ctx[k] && c[n - 1] == fr.ctx[n - 1];
          assert Precedes(fr.ctx[k].op, fr.ctx[n - 1].op);
        }
      }
    }
  }

  /** What a multiplicative operator leaves after its pops within a term: only `*`s. */
  lemma FoldedMultiplicative(o: Operator, fr: Frame)
    requires o == Mul || o == Div
    requires Ordered(fr.ctx) && Tight(fr.ctx)
    ensures AllOf(Collapse(o, fr).ctx, Mul)
  {
    var c := Collapse(o, fr).ctx;
    if c != [] {
      var n := |c|;
      assert c[n - 1] == fr.ctx[n - 1];
      assert c[n - 1].op == Mul;
      forall k | 0 <= k < n
        ensures c[k].op == Mul
      {
        assert c[k] == fr.ctx[k];
        if k < n - 1 {
          assert Precedes(fr.ctx[k].op, fr.ctx[n - 1].op);
        }
      }
    }
  }

  lemma OrderedJoin(c: seq<Pending>, p: Pending, d: seq<Pending>)
    requires AllOf(c, Add) && (p.op == Add || p.op == Sub)
    requires Ordered(d) && Tight(d)
    ensures Ordered(c + [p] + d)
  {
    var e := c + [p] + d;
    forall i, j | 0 <= i < j < |e|
      ensures Precedes(e[i].op, e[j].op)
    {
      if j >= |c| + 1 {
        assert e[j] == d[j - |c| - 1];
        if i >= |c| + 1 {
          assert e[i] == d[i - |c| - 1];
        }
      }
    }
  }

  lemma OrderedPush(c: seq<Pending>, p: Pending)
    requires AllOf(c, Mul) && (p.op == Mul || p.op == Div)
    ensures Ordered(c + [p]) && Tight(c + [p])
  {
  }

  /** The frame of an expression stands for a tree with the expression's value; its pending
      operators are ordered. */
  lemma {:induction false} SumMeaning(s: Sum)
    ensures TreeValue(Plug(SumFrame(s).ctx, SumFrame(s).cur)) == SumValue(s)
    ensures Ordered(SumFrame(s).ctx)
    decreases s
  {
    match s
    case Single(t) =>
      ProductMeaning(t);
    case AddSub(s0, o, t) =>
      var op := AddOperator(o);
      var f0 := SumFrame(s0);
      var c := Collapse(op, f0);
      var pt := ProductFrame(t);
      SumMeaning(s0);
      ProductMeaning(t);
      CollapsePlug(op, f0);
      FoldedAdditive(op, f0);
      PlugPush(c.ctx, c.cur, op, pt.ctx, pt.cur);
      ChainValue(c.ctx, Add, op, c.cur, Plug(pt.ctx, pt.cur));
      OrderedJoin(c.ctx, Pending(c.cur, op), pt.ctx);
  }

  lemma {:induction false} ProductMeaning(p: Product)
    ensures TreeValue(Plug(ProductFrame(p).ctx, ProductFrame(p).cur)) == ProductValue(p)
    ensures Ordered(ProductFrame(p).ctx) && Tight(ProductFrame(p).ctx)
    decreases p
  {
    match p
    case One(f) =>
      FactorMeaning(f);
    case MulDiv(p0, o, f) =>
      var op := MulOperator(o);
      var f0 := ProductFrame(p0);
      var c := Collapse(op, f0);
      ProductMeaning(p0);
      FactorMeaning(f);
      CollapsePlug(op, f0);
      FoldedMultiplicative(op, f0);
      PlugPush(c.ctx, c.cur, op, [], FactorTree(f));
      assert c.ctx + [Pending(c.cur, op)] + [] == c.ctx + [Pending(c.cur, op)];
      ChainValue(c.ctx, Mul, op, c.cur, FactorTree(f));
      OrderedPush(c.ctx, Pending(c.cur, op));
  }

  lemma {:induction false} FactorMeaning(f: Factor)
    ensures TreeValue(FactorTree(f)) == FactorValue(f)
    decreases f
  {
    match f
    case Number(d) =>
    case Group(e) =>
      SumMeaning(e);
  }

  /**
   Converting and then evaluating a well-formed expression gives its value under the usual
   precedence with left-to-right grouping; the only failure is a division by zero, and it
   happens exactly when the expression divides by zero.
   */
  lemma EndToEnd(s: Sum)
    ensures Postfix(SumTokens(s)).Ok?
    ensures NoParens(Postfix(SumTokens(s)).value)
    ensures SumValue(s).None? <==> Calc(Postfix(SumTokens(s)).value) == Err(DivByZero)
    ensures SumValue(s).Some? ==>
      Calc(Postfix(SumTokens(s)).value).Ok? &&
      NumberOf(Calc(Postfix(SumTokens(s)).value).value) == Ok(SumValue(s).value)
  {
    var fr := SumFrame(s);
    var tr := Plug(fr.ctx, fr.cur);
    ConvertSum(s);
    SumMeaning(s);
    PostNoParens(tr);
    ExecPost(tr, [], []);
    assert Post(tr) + [] == Post(tr);
    if TreeValue(tr).Some? {
      assert [] + [Top(tr)] == [Top(tr)];
    }
  }

  lemma {:induction false} PostNoParens(tr: Tree)
    ensures NoParens(Post(tr))
  {
    match tr
    case Leaf(_) =>
    case Node(o, l, r) =>
      PostNoParens(l);
      PostNoParens(r);
  }

  /** No two operator tokens stand next to each other. */
  predicate NoAdjacentOps(ts: seq<Token>)
  {
    forall k | 0 < k < |ts| :: !(ts[k - 1].Op? && ts[k].Op?)
  }

  /** A token list that starts with a number or `(` and ends with a number or `)`. */
  predicate Edged(ts: seq<Token>)
  {
    ts != [] && (ts[0].Num? || ts[0].Open?) && (ts[|ts| - 1].Num? || ts[|ts| - 1].Close?)
  }

  /** What every expression's token list looks like. */
  predicate WellSpaced(ts: seq<Token>)
  {
    Edged(ts) && NoAdjacentOps(ts) && NoAdjacentNums(ts)
  }

  lemma JoinSpaced(a: seq<Token>, o: Operator, b: seq<Token>)
    requires WellSpaced(a) && WellSpaced(b)
    ensures WellSpaced(a + [Op(o)] + b)
  {
    var t := a + [Op(o)] + b;
    forall k | 0 < k < |t|
      ensures !(t[k - 1].Op? && t[k].Op?) && !(t[k - 1].Num? && t[k].Num?)
    {
      if k > |a| + 1 {
        assert t[k - 1] == b[k - 2 - |a|] && t[k] == b[k - 1 - |a|];
      } else if k == |a| + 1 {
        assert t[k] == b[0];
      }
    }
  }

  lemma WrapSpaced(a: seq<Token>)
    requires WellSpaced(a)
    ensures WellSpaced([Open] + a + [Close])
  {
    var t := [Open] + a + [Close];
    forall k | 0 < k < |t|
      ensures !(t[k - 1].Op? && t[k].Op?) && !(t[k - 1].Num? && t[k].Num?)
    {
      if 1 < k <= |a| {
        assert t[k - 1] == a[k - 2] && t[k] == a[k - 1];
      }
    }
  }

  lemma {:induction false} SumShape(s: Sum)
    ensures WellSpaced(SumTokens(s)) && Balanced(Flatten(SumTokens(s)))
    decreases s
  {
    match s
    case Single(t) =>
      ProductShape(t);
    case AddSub(s0, o, t) =>
      SumShape(s0);
      ProductShape(t);
      JoinSpaced(SumTokens(s0), AddOperator(o), ProductTokens(t));
      JoinBalanced(SumTokens(s0), AddOperator(o), ProductTokens(t));
  }

  lemma {:induction false} ProductShape(p: Product)
    ensures WellSpaced(ProductTokens(p)) && Balanced(Flatten(ProductTokens(p)))
    decreases p
  {
    match p
    case One(f) =>
      FactorShape(f);
    case MulDiv(p0, o, f) =>
      ProductShape(p0);
      FactorShape(f);
      JoinSpaced(ProductTokens(p0), MulOperator(o), FactorTokens(f));
      JoinBalanced(ProductTokens(p0), MulOperator(o), FactorTokens(f));
  }

  lemma {:induction false} FactorShape(f: Factor)
    ensures WellSpaced(FactorTokens(f)) && Balanced(Flatten(FactorTokens(f)))
    decreases f
  {
    match f
    case Number(d) =>
      assert Flatten([Num(d)]) == d by {
        assert [Num(d)][1..] == [];
        assert d + [] == d;
      }
      NoBracketsScan(d, []);
    case Group(e) =>
      SumShape(e);
      WrapSpaced(SumTokens(e));
      var a := SumTokens(e);
      FlattenAppend([Open] + a, [Close]);
      FlattenAppend([Open], a);
      assert Flatten([Open]) == "(" && Flatten([Close]) == ")" by {
        assert [Open][1..] == [] && [Close][1..] == [];
      }
      NoBracketsScan([], []);
      WrapBalanced('(', Flatten(a), ')', []);
      assert ['('] + Flatten(a) + [')'] + [] == Flatten([Open] + a + [Close]);
  }

  /** Joining two balanced texts with an operator character keeps them balanced. */
  lemma JoinBalanced(a: seq<Token>, o: Operator, b: seq<Token>)
    requires Balanced(Flatten(a)) && Balanced(Flatten(b))
    ensures Balanced(Flatten(a + [Op(o)] + b))
  {
    FlattenAppend(a + [Op(o)], b);
    FlattenAppend(a, [Op(o)]);
    assert Flatten([Op(o)]) == [OpChar(o)] by {
      assert [Op(o)][1..] == [];
    }
    NoBracketsScan([OpChar(o)], []);
    BalancedConcat(Flatten(a), [OpChar(o)]);
    BalancedConcat(Flatten(a) + [OpChar(o)], Flatten(b));
  }

  lemma FlattenFirst(ts: seq<Token>)
    requires ts != []
    ensures Flatten(ts) != [] && Flatten(ts)[0] == Text(ts[0])[0]
  {
  }

  lemma FlattenLast(ts: seq<Token>)
    requires ts != []
    ensures Flatten(ts) != [] && Flatten(ts)[|Flatten(ts)| - 1] == Text(ts[|ts| - 1])[|Text(ts[|ts| - 1])| - 1]
  {
    var n := |ts|;
    assert ts == ts[..n - 1] + [ts[n - 1]];
    FlattenSnoc(ts[..n - 1], ts[n - 1]);
  }

  /** Operator tokens that never touch spell a text whose operator characters never touch. */
  lemma {:induction false} FlattenNoAdjacentOps(ts: seq<Token>)
    requires NoAdjacentOps(ts)
    ensures forall k | 0 < k < |Flatten(ts)| :: !(IsOpChar(Flatten(ts)[k - 1]) && IsOpChar(Flatten(ts)[k]))
    decreases |ts|
  {
    if ts != [] {
      var a, b := Text(ts[0]), Flatten(ts[1..]);
      assert NoAdjacentOps(ts[1..]) by {
        forall k | 0 < k < |ts| - 1
          ensures !(ts[1..][k - 1].Op? && ts[1..][k].Op?)
        {
          assert ts[1..][k - 1] == ts[k] && ts[1..][k] == ts[k + 1];
        }
      }
      FlattenNoAdjacentOps(ts[1..]);
      if |ts| > 1 {
        FlattenFirst(ts[1..]);
        assert ts[1..][0] == ts[1];
      }
      forall k | 0 < k < |a + b|
        ensures !(IsOpChar((a + b)[k - 1]) && IsOpChar((a + b)[k]))
      {
        if k < |a| {
          assert IsDigit(a[k]);
        } else if k > |a| {
          assert (a + b)[k - 1] == b[k - 1 - |a|] && (a + b)[k] == b[k - |a|];
        }
      }
    }
  }

  /** A line whose non-space characters spell an expression tokenizes into that expression's
      tokens. */
  lemma TokenizeExpression(x: string, s: Sum)
    requires RemoveSpaces(x) == Flatten(SumTokens(s))
    ensures Tokenize(x) == Ok(SumTokens(s))
  {
    var ts := SumTokens(s);
    var t := Flatten(ts);
    SumShape(s);
    ScanRemoveSpaces(x, []);
    FlattenFirst(ts);
    FlattenLast(ts);
    FlattenValid(ts);
    FlattenNoAdjacentOps(ts);
    TokenizeAccepts(x);
    LexUnique(t, ts);
  }

  /** One line through the calculator: validation and tokenisation, conversion to postfix,
      evaluation, each stage stopping the line at its first error. */
  function Evaluate(x: string): Result<Operand>
  {
    match Tokenize(x)
    case Err(k) => Err(k)
    case Ok(ts) =>
      match Postfix(ts)
      case Err(k) => Err(k)
      case Ok(p) => Calc(p)
  }

  /** A line spelling an expression, spaces anywhere, evaluates to the expression's value under
      the usual precedence, or stops with a division by zero exactly when some divisor is zero. */
  lemma Calculates(x: string, s: Sum)
    requires RemoveSpaces(x) == Flatten(SumTokens(s))
    ensures SumValue(s).None? <==> Evaluate(x) == Err(DivByZero)
    ensures SumValue(s).Some? ==> Evaluate(x).Ok? && NumberOf(Evaluate(x).value) == Ok(SumValue(s).value)
  {
    TokenizeExpression(x, s);
    EndToEnd(s);
  }
}
