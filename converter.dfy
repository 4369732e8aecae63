/**
 Infix to postfix conversion with an operator stack, following the source's own pop table:
 `/` and `*` pop only `/`, while `+` and `-` pop any of `-`, `*` and `/`.
 */
module Converter {
  import opened Tokens
  import opened AStack

  /** The operator stack (top last) and the output produced so far. */
  datatype State = State(stack: seq<Token>, out: seq<Token>)

  /** The pop table: whether an arriving `op` moves `top` from the stack to the output. */
  predicate Pops(op: Operator, top: Token)
  {
    match op
    case Div => top == Op(Div)
    case Mul => top == Op(Div)
    case Sub => top == Op(Sub) || top == Op(Mul) || top == Op(Div)
    case Add => top == Op(Sub) || top == Op(Mul) || top == Op(Div)
  }

  /** Moves operators from the stack to the output while the table says so. */
  function PopFor(op: Operator, st: State): State
    decreases |st.stack|
  {
    if st.stack != [] && Pops(op, st.stack[|st.stack| - 1]) then
      PopFor(op, State(st.stack[..|st.stack| - 1], st.out + [st.stack[|st.stack| - 1]]))
    else st
  }

  /** One pop of an operator y the arriving one pops. */
  lemma PopForTop(o: Operator, a: seq<Token>, y: Token, w: seq<Token>)
    requires Pops(o, y)
    ensures PopFor(o, State(a + [y], w)) == PopFor(o, State(a, w + [y]))
  {
    var s := a + [y];
    assert s[|s| - 1] == y && s[..|s| - 1] == a;
  }

  /** A closing parenthesis: operators go to the output until `(`, which is dropped; the
      search reads the top of an empty stack when no `(` is left. */
  function PopToOpen(st: State): Result<State>
    decreases |st.stack|
  {
    if st.stack == [] then Err(IndexError)
    else if st.stack[|st.stack| - 1] == Open then Ok(State(st.stack[..|st.stack| - 1], st.out))
    else PopToOpen(State(st.stack[..|st.stack| - 1], st.out + [st.stack[|st.stack| - 1]]))
  }

  /** What one infix token does to the state. */
  function Step(t: Token, st: State): Result<State>
  {
    match t
    case Op(o) =>
      if st.stack != [] && st.stack[|st.stack| - 1] == Open then Ok(State(st.stack + [t], st.out))
      else
        var p := PopFor(o, st);
        Ok(State(p.stack + [t], p.out))
    case Open => Ok(State(st.stack + [Open], st.out))
    case Close => PopToOpen(st)
    case Num(_) => Ok(State(st.stack, st.out + [t]))
  }

  /** The tokens processed left to right. */
  function Run(ts: seq<Token>, st: State): Result<State>
    decreases |ts|
  {
    if ts == [] then Ok(st)
    else match Step(ts[0], st)
      case Err(k) => Err(k)
      case Ok(next) => Run(ts[1..], next)
  }

  /** The end of the input: the operators left on the stack are popped to the output. */
  function Flush(st: State): seq<Token>
  {
    st.out + Reversed(st.stack)
  }

  /** Running a then b is running a + b. */
  lemma {:induction false} RunAppend(a: seq<Token>, b: seq<Token>, st: State)
    ensures Run(a + b, st) == match Run(a, st) case Err(k) => Err(k) case Ok(m) => Run(b, m)
    decreases |a|
  {
    if a == [] {
      assert a + b == b;
    } else {
      assert (a + b)[0] == a[0] && (a + b)[1..] == a[1..] + b;
      match Step(a[0], st)
      case Err(_) =>
      case Ok(next) => RunAppend(a[1..], b, next);
    }
  }

  /** What `infix_to_postfix` returns for a token list. */
  function Postfix(infix: seq<Token>): Result<seq<Token>>
  {
    match Run(infix, State([], []))
    case Err(k) => Err(k)
    case Ok(st) => Ok(Flush(st))
  }

  /** The body of the token loop: what one infix token does to the operator stack and the
      output, or the failure of a `)` that finds no `(`. */
  method TakeToken(st: Stack<Token>, output: seq<Token>, token: Token) returns (r: Result<seq<Token>>)
    modifies st
    ensures r.Err? <==> Step(token, State(old(st.elems), output)).Err?
    ensures r.Err? ==> r.kind == Step(token, State(old(st.elems), output)).kind
    ensures r.Ok? ==> State(st.elems, r.value) == Step(token, State(old(st.elems), output)).value
  {
    ghost var before := State(st.elems, output);
    var result := output;
    match token {
      case Op(o) =>
        var empty := st.IsEmpty();
        var atOpen := false;
        if !empty {
          var top := st.Top();
          atOpen := top == Open;
        }
        if atOpen {
          st.Push(token);
        } else {
          while true
            invariant PopFor(o, State(st.elems, result)) == PopFor(o, before)
            decreases |st.elems|
          {
            var e := st.IsEmpty();
            if e {
              break;
            }
            var top := st.Top();
            if !Pops(o, top) {
              break;
            }
            var x := st.Pop();
            result := result + [x];
          }
          st.Push(token);
        }
      case Open =>
        st.Push(token);
      case Close =>
        while true
          invariant PopToOpen(State(st.elems, result)) == PopToOpen(before)
          decreases |st.elems|
        {
          var e := st.IsEmpty();
          if e {
            return Err(IndexError);
          }
          var top := st.Top();
          if top == Open {
            break;
          }
          var x := st.Pop();
          result := result + [x];
        }
        var _ := st.Pop();
      case Num(_) =>
        result := result + [token];
    }
    r := Ok(result);
  }

  /** `infix_to_postfix`: the token loop over an operator stack, then the final pops. */
  method InfixToPostfix(infix: seq<Token>) returns (r: Result<seq<Token>>)
    ensures r == Postfix(infix)
  {
    var st := new Stack<Token>();
    var result: seq<Token> := [];
    var i := 0;
    while i < |infix|
      invariant 0 <= i <= |infix|
      invariant Run(infix, State([], [])) == Run(infix[i..], State(st.elems, result))
    {
      assert infix[i..][0] == infix[i] && infix[i..][1..] == infix[i + 1..];
      var next := TakeToken(st, result, infix[i]);
      if next.Err? {
        return Err(next.kind);
      }
      result := next.value;
      i := i + 1;
    }
    ghost var last := State(st.elems, result);
    assert infix[i..] == [];
    assert Run(infix, State([], [])) == Ok(last);
    while true
      invariant result + Reversed(st.elems) == Flush(last)
      decreases |st.elems|
    {
      var e := st.IsEmpty();
      if e {
        break;
      }
      ghost var was := st.elems;
      var x := st.Pop();
      assert was == st.elems + [x];
      ReversedAppend(st.elems, [x]);
      result := result + [x];
    }
    assert Reversed(st.elems) == [];
    assert result == Flush(last);
    r := Ok(result);
  }

  /** The number tokens of a list, in order. */
  function Operands(ts: seq<Token>): seq<Token>
  {
    if ts == [] then [] else (if ts[0].Num? then [ts[0]] else []) + Operands(ts[1..])
  }

  /** A list without its parentheses, in order. */
  function Stripped(ts: seq<Token>): seq<Token>
  {
    if ts == [] then [] else (if ts[0].Open? || ts[0].Close? then [] else [ts[0]]) + Stripped(ts[1..])
  }

  lemma {:induction false} OperandsAppend(a: seq<Token>, b: seq<Token>)
    ensures Operands(a + b) == Operands(a) + Operands(b)
  {
    if a == [] {
      assert a + b == b;
    } else {
      assert (a + b)[0] == a[0] && (a + b)[1..] == a[1..] + b;
      OperandsAppend(a[1..], b);
    }
  }

  lemma {:induction false} StrippedAppend(a: seq<Token>, b: seq<Token>)
    ensures Stripped(a + b) == Stripped(a) + Stripped(b)
  {
    if a == [] {
      assert a + b == b;
    } else {
      assert (a + b)[0] == a[0] && (a + b)[1..] == a[1..] + b;
      StrippedAppend(a[1..], b);
    }
  }

  /** The number of occurrences of x in ts. */
  function Count(x: Token, ts: seq<Token>): nat
  {
    if ts == [] then 0 else (if ts[0] == x then 1 else 0) + Count(x, ts[1..])
  }

  lemma {:induction false} CountAppend(x: Token, a: seq<Token>, b: seq<Token>)
    ensures Count(x, a + b) == Count(x, a) + Count(x, b)
  {
    if a == [] {
      assert a + b == b;
    } else {
      assert (a + b)[0] == a[0] && (a + b)[1..] == a[1..] + b;
      CountAppend(x, a[1..], b);
    }
  }

  /** What the operator stack may hold: operators and open parentheses. */
  predicate OpsAndOpens(stack: seq<Token>)
  {
    forall k | 0 <= k < |stack| :: stack[k].Op? || stack[k].Open?
  }

  /** The operators and numbers held by a state, output and stack together. */
  function Mass(st: State): multiset<Token>
  {
    multiset(Stripped(st.out)) + multiset(Stripped(st.stack))
  }

  /** What a run keeps track of: the operators and numbers held, the numbers of the output in
      order, the open parentheses on the stack and the parentheses in the output. */
  datatype Census = Census(mass: multiset<Token>, nums: seq<Token>, opens: int, outParens: int)

  function CensusOf(st: State): Census
  {
    Census(Mass(st), Operands(st.out), Count(Open, st.stack), Count(Open, st.out) + Count(Close, st.out))
  }

  /** Two censuses agree field by field. */
  predicate Agree(c: Census, d: Census)
  {
    c.mass == d.mass && c.nums == d.nums && c.opens == d.opens && c.outParens == d.outParens
  }

  /** The census after the tokens ts have been taken in. */
  function Gain(c: Census, ts: seq<Token>): Census
  {
    Census(c.mass + multiset(Stripped(ts)), c.nums + Operands(ts),
      c.opens + Count(Open, ts) - Count(Close, ts), c.outParens)
  }

  /** The census functions on a one-token list. */
  lemma Single(t: Token)
    ensures Stripped([t]) == (if t.Open? || t.Close? then [] else [t])
    ensures Operands([t]) == (if t.Num? then [t] else [])
    ensures Count(Open, [t]) == (if t.Open? then 1 else 0)
    ensures Count(Close, [t]) == (if t.Close? then 1 else 0)
  {
    assert [t][1..] == [];
  }

  lemma SeqAssoc<T>(x: seq<T>, y: seq<T>, z: seq<T>)
    ensures x + y + z == x + (y + z)
  {
  }

  lemma BagAssoc<T>(x: multiset<T>, y: multiset<T>, z: multiset<T>)
    ensures x + y + z == x + (y + z)
  {
  }

  lemma BagSwap<T>(x: multiset<T>, y: multiset<T>, z: multiset<T>)
    ensures x + z + y == x + (y + z)
    ensures x + z + y == x + y + z
  {
  }

  /** Moving the top operator x of the stack to the output changes none of the counts. */
  lemma MoveTop(st: State, x: Token)
    requires st.stack != [] && x == st.stack[|st.stack| - 1] && x.Op?
    ensures Agree(CensusOf(State(st.stack[..|st.stack| - 1], st.out + [x])), CensusOf(st))
  {
    var rest := st.stack[..|st.stack| - 1];
    assert st.stack == rest + [x];
    Single(x);
    MoveTopMass(st.out, rest, x);
    assert Operands(st.out + [x]) == Operands(st.out) by {
      OperandsAppend(st.out, [x]);
      assert Operands(st.out) + [] == Operands(st.out);
    }
    CountAppend(Open, rest, [x]);
    CountAppend(Open, st.out, [x]);
    CountAppend(Close, st.out, [x]);
  }

  /** An operator moved from the top of the stack to the output stays in the mass. */
  lemma MoveTopMass(out: seq<Token>, rest: seq<Token>, x: Token)
    requires x.Op?
    ensures Mass(State(rest, out + [x])) == Mass(State(rest + [x], out))
  {
    Single(x);
    StrippedAppend(rest, [x]);
    StrippedAppend(out, [x]);
    var a, b := multiset(Stripped(out)), multiset(Stripped(rest));
    assert Mass(State(rest, out + [x])) == a + multiset([x]) + b;
    assert Mass(State(rest + [x], out)) == a + (b + multiset([x]));
    BagSwap(a, b, multiset([x]));
  }

  /** r is what the pops for o may leave of st: a stack of operators and open parentheses with
      the census of st, whose top o does not pop. */
  predicate Popped(o: Operator, st: State, r: State)
  {
    OpsAndOpens(r.stack) && Agree(CensusOf(r), CensusOf(st)) &&
    (r.stack == [] || !Pops(o, r.stack[|r.stack| - 1]))
  }

  /** The pops for an arriving operator move operators only, so the census is unchanged, and
      they stop at a top the table does not pop. */
  lemma {:induction false} PopForShape(o: Operator, st: State)
    requires OpsAndOpens(st.stack)
    ensures Popped(o, st, PopFor(o, st))
    decreases |st.stack|
  {
    if st.stack != [] && Pops(o, st.stack[|st.stack| - 1]) {
      var x := st.stack[|st.stack| - 1];
      var next := State(st.stack[..|st.stack| - 1], st.out + [x]);
      PopForPops(o, st);
      MoveTop(st, x);
      ButLastOpsAndOpens(st.stack);
      PopForShape(o, next);
      PoppedAgree(o, next, st, PopFor(o, next));
    } else {
      PopForStops(o, st);
    }
  }

  /** Popped carries over to a state with the same census. */
  lemma PoppedAgree(o: Operator, st: State, st': State, r: State)
    requires Popped(o, st, r) && Agree(CensusOf(st), CensusOf(st'))
    ensures Popped(o, st', r)
  {
  }

  /** A top the arriving operator pops goes to the output, and the pops go on. */
  lemma PopForPops(o: Operator, st: State)
    requires st.stack != [] && Pops(o, st.stack[|st.stack| - 1])
    ensures PopFor(o, st) == PopFor(o, State(st.stack[..|st.stack| - 1], st.out + [st.stack[|st.stack| - 1]]))
  {
  }

  /** The pops stop at an empty stack or at a top the arriving operator does not pop. */
  lemma PopForStops(o: Operator, st: State)
    requires st.stack == [] || !Pops(o, st.stack[|st.stack| - 1])
    ensures PopFor(o, st) == st
  {
  }

  lemma ButLastOpsAndOpens(s: seq<Token>)
    requires s != [] && OpsAndOpens(s)
    ensures OpsAndOpens(s[..|s| - 1])
  {
    assert forall k | 0 <= k < |s| - 1 :: s[..|s| - 1][k] == s[k];
  }

  /** Taking in a closing parenthesis only lowers the count of open ones. */
  lemma GainClose(c: Census)
    ensures Gain(c, [Close]) == Census(c.mass, c.nums, c.opens - 1, c.outParens)
  {
    Single(Close);
    assert c.nums + [] == c.nums;
    assert multiset(Stripped([Close])) == multiset{};
  }

  /** An open parenthesis on top of the stack holds no operator or number. */
  lemma OpenOnTop(st: State, rest: seq<Token>)
    requires st.stack == rest + [Open]
    ensures Mass(State(rest, st.out)) == Mass(st)
    ensures Count(Open, st.stack) == Count(Open, rest) + 1
  {
    Single(Open);
    StrippedAppend(rest, [Open]);
    assert Stripped(rest) + [] == Stripped(rest);
    CountAppend(Open, rest, [Open]);
  }

  /** Dropping the open parenthesis on top of the stack. */
  lemma DropOpen(st: State)
    requires st.stack != [] && st.stack[|st.stack| - 1] == Open
    ensures Agree(CensusOf(State(st.stack[..|st.stack| - 1], st.out)), Gain(CensusOf(st), [Close]))
  {
    var rest := st.stack[..|st.stack| - 1];
    ButLastSnoc(st.stack);
    OpenOnTop(st, rest);
    GainClose(CensusOf(st));
  }

  /** A closing parenthesis moves operators and removes one open parenthesis. */
  lemma {:induction false} PopToOpenShape(st: State)
    requires OpsAndOpens(st.stack) && PopToOpen(st).Ok?
    ensures OpsAndOpens(PopToOpen(st).value.stack)
    ensures Agree(CensusOf(PopToOpen(st).value), Gain(CensusOf(st), [Close]))
    decreases |st.stack|
  {
    var x := st.stack[|st.stack| - 1];
    if x == Open {
      DropOpen(st);
    } else {
      MoveTop(st, x);
      PopToOpenShape(State(st.stack[..|st.stack| - 1], st.out + [x]));
    }
  }

  /** Pushing an operator or an open parenthesis onto the stack. */
  lemma PushShape(st: State, t: Token)
    requires t.Op? || t.Open?
    ensures Agree(CensusOf(State(st.stack + [t], st.out)), Gain(CensusOf(st), [t]))
  {
    var c0, c1 := CensusOf(st), CensusOf(State(st.stack + [t], st.out));
    Single(t);
    assert c1.mass == Gain(c0, [t]).mass by {
      StrippedAppend(st.stack, [t]);
      BagAssoc(multiset(Stripped(st.out)), multiset(Stripped(st.stack)), multiset(Stripped([t])));
    }
    assert c1.nums == Gain(c0, [t]).nums by {
      assert Operands(st.out) + [] == Operands(st.out);
    }
    assert c1.opens == Gain(c0, [t]).opens by {
      CountAppend(Open, st.stack, [t]);
    }
  }

  /** An arriving operator pushed after its pops: the census gains the operator. */
  lemma PushAfterPops(o: Operator, st: State)
    requires OpsAndOpens(st.stack)
    ensures OpsAndOpens(PopFor(o, st).stack + [Op(o)])
    ensures Agree(CensusOf(State(PopFor(o, st).stack + [Op(o)], PopFor(o, st).out)), Gain(CensusOf(st), [Op(o)]))
  {
    var r := PopFor(o, st);
    PopForShape(o, st);
    assert CensusOf(r) == CensusOf(st);
    PushShape(r, Op(o));
    OpsAndOpensPush(r.stack, Op(o));
  }

  lemma OpsAndOpensPush(s: seq<Token>, t: Token)
    requires OpsAndOpens(s) && (t.Op? || t.Open?)
    ensures OpsAndOpens(s + [t])
  {
    assert forall k | 0 <= k < |s| :: (s + [t])[k] == s[k];
  }

  /** Writing a number to the output. */
  lemma EmitShape(st: State, t: Token)
    requires t.Num?
    ensures Agree(CensusOf(State(st.stack, st.out + [t])), Gain(CensusOf(st), [t]))
  {
    Single(t);
    EmitMass(st, t);
    EmitNums(st, t);
    EmitParens(st, t);
  }

  lemma EmitMass(st: State, t: Token)
    requires t.Num?
    ensures CensusOf(State(st.stack, st.out + [t])).mass == Gain(CensusOf(st), [t]).mass
  {
    Single(t);
    StrippedAppend(st.out, [t]);
    BagSwap(multiset(Stripped(st.out)), multiset(Stripped(st.stack)), multiset([t]));
  }

  lemma EmitNums(st: State, t: Token)
    requires t.Num?
    ensures CensusOf(State(st.stack, st.out + [t])).nums == Gain(CensusOf(st), [t]).nums
  {
    Single(t);
    OperandsAppend(st.out, [t]);
  }

  lemma EmitParens(st: State, t: Token)
    requires t.Num?
    ensures CensusOf(State(st.stack, st.out + [t])).outParens == Gain(CensusOf(st), [t]).outParens
  {
    Single(t);
    CountAppend(Open, st.out, [t]);
    CountAppend(Close, st.out, [t]);
  }

  /** One token: its operators and numbers move from the input into the state. */
  lemma StepShape(t: Token, st: State)
    requires OpsAndOpens(st.stack) && Step(t, st).Ok?
    ensures OpsAndOpens(Step(t, st).value.stack)
    ensures Agree(CensusOf(Step(t, st).value), Gain(CensusOf(st), [t]))
  {
    match t {
      case Op(o) =>
        if !(st.stack != [] && st.stack[|st.stack| - 1] == Open) {
          PushAfterPops(o, st);
        } else {
          PushShape(st, t);
        }
      case Open =>
        PushShape(st, t);
      case Close =>
        PopToOpenShape(st);
      case Num(_) =>
        EmitShape(st, t);
    }
  }

  /** Taking in nothing changes nothing. */
  lemma GainNothing(c: Census)
    ensures Agree(c, Gain(c, []))
  {
    assert c.nums + [] == c.nums;
  }

  /**
   A run that gets through its tokens keeps every operator and number (in the output or on
   the stack), keeps the numbers of the output in input order, nets the stack's open
   parentheses against the input's, and never writes a parenthesis to the output.
   */
  lemma {:induction false} RunShape(ts: seq<Token>, st: State)
    requires OpsAndOpens(st.stack) && Run(ts, st).Ok?
    ensures OpsAndOpens(Run(ts, st).value.stack)
    ensures Agree(CensusOf(Run(ts, st).value), Gain(CensusOf(st), ts))
    decreases |ts|
  {
    if ts == [] {
      GainNothing(CensusOf(st));
    } else {
      var t, rest := ts[0], ts[1..];
      var next := Step(t, st).value;
      assert Run(ts, st) == Run(rest, next);
      StepShape(t, st);
      RunShape(rest, next);
      var c0 := CensusOf(st);
      Uncons(ts);
      assert CensusOf(Run(ts, st).value).mass == Gain(c0, ts).mass by {
        StrippedAppend([t], rest);
        BagAssoc(c0.mass, multiset(Stripped([t])), multiset(Stripped(rest)));
      }
      assert CensusOf(Run(ts, st).value).nums == Gain(c0, ts).nums by {
        OperandsAppend([t], rest);
        SeqAssoc(c0.nums, Operands([t]), Operands(rest));
      }
      assert CensusOf(Run(ts, st).value).opens == Gain(c0, ts).opens by {
        CountAppend(Open, [t], rest);
        CountAppend(Close, [t], rest);
      }
    }
  }

  /** Reversal keeps the operators and numbers. */
  lemma {:induction false} ReversedStripped(x: seq<Token>)
    ensures multiset(Stripped(Reversed(x))) == multiset(Stripped(x))
  {
    if x != [] {
      var h, t := x[0], x[1..];
      ReversedStripped(t);
      Uncons(x);
      StrippedAppend([h], t);
      StrippedAppend(Reversed(t), [h]);
    }
  }

  /** Reversal keeps the number of occurrences of every token. */
  lemma {:induction false} ReversedCount(y: Token, x: seq<Token>)
    ensures Count(y, Reversed(x)) == Count(y, x)
  {
    if x != [] {
      var h, t := x[0], x[1..];
      ReversedCount(y, t);
      Uncons(x);
      CountAppend(y, Reversed(t), [h]);
      CountAppend(y, [h], t);
    }
  }

  /** The stack, reversed, holds no number. */
  lemma {:induction false} ReversedOperands(x: seq<Token>)
    requires OpsAndOpens(x)
    ensures Operands(Reversed(x)) == []
  {
    if x != [] {
      var h, t := x[0], x[1..];
      assert OpsAndOpens(t) by {
        forall k | 0 <= k < |t|
          ensures t[k].Op? || t[k].Open?
        {
          assert t[k] == x[k + 1];
        }
      }
      ReversedOperands(t);
      Single(h);
      OperandsAppend(Reversed(t), [h]);
    }
  }

  /**
   The output of a conversion that gets through holds exactly the input's operators and
   numbers, its numbers in their input order, no closing parenthesis, and one open
   parenthesis for each one the input leaves unclosed.
   */
  lemma PostfixShape(ts: seq<Token>, p: seq<Token>)
    requires Postfix(ts) == Ok(p)
    ensures multiset(Stripped(p)) == multiset(Stripped(ts))
    ensures Operands(p) == Operands(ts)
    ensures Count(Close, p) == 0
    ensures Count(Open, p) + Count(Close, ts) == Count(Open, ts)
  {
    var st0 := State([], []);
    var f := Run(ts, st0).value;
    var back := Reversed(f.stack);
    assert p == f.out + back;
    assert Stripped([]) == [] && Operands([]) == [] && Count(Open, []) == 0 && Count(Close, []) == 0;
    RunShape(ts, st0);
    assert multiset(Stripped(p)) == multiset(Stripped(ts)) by {
      ReversedStripped(f.stack);
      StrippedAppend(f.out, back);
    }
    assert Operands(p) == Operands(ts) by {
      ReversedOperands(f.stack);
      OperandsAppend(f.out, back);
      assert Operands(f.out) + [] == Operands(f.out);
    }
    assert Count(Close, p) == 0 by {
      ReversedCount(Close, f.stack);
      CountAppend(Close, f.out, back);
      assert Count(Close, f.stack) == 0 by {
        NotCounted(Close, f.stack);
      }
    }
    assert Count(Open, p) + Count(Close, ts) == Count(Open, ts) by {
      ReversedCount(Open, f.stack);
      CountAppend(Open, f.out, back);
    }
  }

  /** A token that never occurs is counted zero times. */
  lemma {:induction false} NotCounted(y: Token, x: seq<Token>)
    requires forall k | 0 <= k < |x| :: x[k] != y
    ensures Count(y, x) == 0
  {
    if x != [] {
      NotCounted(y, x[1..]);
    }
  }

  /** A token that occurs is counted. */
  lemma {:induction false} Counted(y: Token, x: seq<Token>, k: int)
    requires 0 <= k < |x| && x[k] == y
    ensures Count(y, x) > 0
  {
    if k > 0 {
      Counted(y, x[1..], k - 1);
    }
  }

  /** Stripping removes exactly the parentheses. */
  lemma {:induction false} StrippedLength(x: seq<Token>)
    ensures |Stripped(x)| + Count(Open, x) + Count(Close, x) == |x|
    ensures Count(Open, x) == 0 && Count(Close, x) == 0 ==> Stripped(x) == x
  {
    if x != [] {
      StrippedLength(x[1..]);
    }
  }

  /**
   When the input closes as many parentheses as it opens, a conversion that gets through
   outputs exactly the input's operators and numbers, rearranged, and nothing else.
   */
  lemma PostfixBalanced(ts: seq<Token>, p: seq<Token>)
    requires Postfix(ts) == Ok(p)
    requires Count(Open, ts) == Count(Close, ts)
    ensures NoParens(p)
    ensures multiset(p) == multiset(Stripped(ts))
    ensures |p| + Count(Open, ts) + Count(Close, ts) == |ts|
    ensures Operands(p) == Operands(ts)
  {
    PostfixShape(ts, p);
    assert Count(Open, p) == 0 && Count(Close, p) == 0;
    NoParensOf(p);
    StrippedLength(p);
    assert Stripped(p) == p;
    StrippedLength(ts);
    assert |p| == |Stripped(ts)| by {
      assert |multiset(p)| == |multiset(Stripped(ts))|;
    }
  }

  /** A list in which neither parenthesis is counted holds numbers and operators only. */
  lemma NoParensOf(p: seq<Token>)
    requires Count(Open, p) == 0 && Count(Close, p) == 0
    ensures NoParens(p)
  {
    forall k | 0 <= k < |p|
      ensures p[k].Num? || p[k].Op?
    {
      if p[k].Open? || p[k].Close? {
        Counted(p[k], p, k);
      }
    }
  }

  /** An open parenthesis somewhere on the stack stops the pops of a closing parenthesis. */
  lemma {:induction false} PopToOpenSucceeds(st: State)
    requires Count(Open, st.stack) > 0
    ensures PopToOpen(st).Ok?
    decreases |st.stack|
  {
    var x := st.stack[|st.stack| - 1];
    var rest := st.stack[..|st.stack| - 1];
    assert st.stack == rest + [x];
    CountAppend(Open, rest, [x]);
    if x != Open {
      Single(x);
      PopToOpenSucceeds(State(rest, st.out + [x]));
    }
  }

  /** One token changes the number of open parentheses on the stack by its own weight. */
  lemma StepOpens(t: Token, st: State)
    requires OpsAndOpens(st.stack) && Step(t, st).Ok?
    ensures OpsAndOpens(Step(t, st).value.stack)
    ensures Count(Open, Step(t, st).value.stack) == Count(Open, st.stack) + Count(Open, [t]) - Count(Close, [t])
  {
    StepShape(t, st);
  }

  /**
   A run gets through its tokens when no prefix of them closes more parentheses than the
   stack and the prefix have opened.
   */
  lemma {:induction false} RunSucceeds(ts: seq<Token>, st: State)
    requires OpsAndOpens(st.stack)
    requires forall k | 0 <= k <= |ts| :: Count(Close, ts[..k]) <= Count(Open, st.stack) + Count(Open, ts[..k])
    ensures Run(ts, st).Ok?
    decreases |ts|
  {
    if ts != [] {
      var t, rest := ts[0], ts[1..];
      assert ts[..1] == [t];
      Single(t);
      if t == Close {
        PopToOpenSucceeds(st);
      }
      var next := Step(t, st).value;
      StepOpens(t, st);
      forall k | 0 <= k <= |rest|
        ensures Count(Close, rest[..k]) <= Count(Open, next.stack) + Count(Open, rest[..k])
      {
        assert ts[..k + 1] == [t] + rest[..k];
        assert Count(Close, ts[..k + 1]) <= Count(Open, st.stack) + Count(Open, ts[..k + 1]);
        CountAppend(Open, [t], rest[..k]);
        CountAppend(Close, [t], rest[..k]);
      }
      RunSucceeds(rest, next);
    }
  }

  /** A run that gets through its tokens gets through each prefix of them. */
  lemma {:induction false} RunPrefix(ts: seq<Token>, k: int, st: State)
    requires Run(ts, st).Ok? && 0 <= k <= |ts|
    ensures Run(ts[..k], st).Ok?
    decreases k
  {
    if k > 0 {
      var next := Step(ts[0], st).value;
      RunPrefix(ts[1..], k - 1, next);
      assert ts[..k][0] == ts[0] && ts[..k][1..] == ts[1..][..k - 1];
    }
  }

  /** No prefix of ts closes more parentheses than it opens. */
  predicate NeverOverclosed(ts: seq<Token>)
  {
    forall k | 0 <= k <= |ts| :: Count(Close, ts[..k]) <= Count(Open, ts[..k])
  }

  /** A conversion fails exactly when some prefix closes more parentheses than it opens. */
  lemma PostfixSucceeds(ts: seq<Token>)
    ensures Postfix(ts).Ok? <==> NeverOverclosed(ts)
  {
    var st0 := State([], []);
    assert Count(Open, st0.stack) == 0;
    if NeverOverclosed(ts) {
      RunSucceeds(ts, st0);
    }
    if Postfix(ts).Ok? {
      forall k | 0 <= k <= |ts|
        ensures Count(Close, ts[..k]) <= Count(Open, ts[..k])
      {
        RunPrefix(ts, k, st0);
        RunShape(ts[..k], st0);
      }
    }
  }
}
