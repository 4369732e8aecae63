/**
 The stack machine that evaluates a postfix token list: a token that is not an operator is
 pushed as it is, an operator pops its right operand and then its left one and pushes the
 result. Values are exact rationals.
 */
module Evaluator {
  import opened Tokens
  import opened AStack

  /** What the evaluator's stack holds: a token pushed as it came in, or a computed value. */
  datatype Operand = Pushed(t: Token) | Value(v: real)

  /** The conversion of an operand to a number: a number token gives the value of its digits,
      a computed value itself, and any other token fails. */
  function NumberOf(x: Operand): (r: Result<real>)
    ensures r.Err? ==> r.kind == NotANumber
    ensures r.Err? <==> x.Pushed? && !x.t.Num?
  {
    match x
    case Value(v) => Ok(v)
    case Pushed(t) => if t.Num? then Ok(DigitsValue(t.digits) as real) else Err(NotANumber)
  }

  /** a o b; a division by zero fails. */
  function Apply(o: Operator, a: real, b: real): (r: Result<real>)
    ensures r.Err? <==> o == Div && b == 0.0
    ensures r.Err? ==> r.kind == DivByZero
    ensures o == Div && b != 0.0 ==> r == Ok(a / b) && r.value * b == a
  {
    match o
    case Add => Ok(a + b)
    case Sub => Ok(a - b)
    case Mul => Ok(a * b)
    case Div => if b == 0.0 then Err(DivByZero) else Ok(a / b)
  }

  /** What one token does to the operand stack (top last). */
  function Eval1(t: Token, vs: seq<Operand>): Result<seq<Operand>>
  {
    if !t.Op? then Ok(vs + [Pushed(t)])
    else if |vs| == 0 then Err(IndexError)
    else match NumberOf(vs[|vs| - 1])
      case Err(k) => Err(k)
      case Ok(b) =>
        if |vs| == 1 then Err(IndexError)
        else match NumberOf(vs[|vs| - 2])
          case Err(k) => Err(k)
          case Ok(a) =>
            match Apply(t.op, a, b)
            case Err(k) => Err(k)
            case Ok(c) => Ok(vs[..|vs| - 2] + [Value(c)])
  }

  /** The tokens processed left to right from an operand stack. */
  function Exec(ts: seq<Token>, vs: seq<Operand>): Result<seq<Operand>>
    decreases |ts|
  {
    if ts == [] then Ok(vs)
    else match Eval1(ts[0], vs)
      case Err(k) => Err(k)
      case Ok(next) => Exec(ts[1..], next)
  }

  /** What `postfix_calc` computes: the single operand left once every token is processed. */
  function Calc(ts: seq<Token>): Result<Operand>
  {
    match Exec(ts, [])
    case Err(k) => Err(k)
    case Ok(vs) => if vs == [] then Err(IndexError) else if |vs| == 1 then Ok(vs[0]) else Err(Malformed)
  }

  /** The token list `postfix_calc` receives and empties. */
  class TokenList {
    var items: seq<Token>

    constructor (ts: seq<Token>)
      ensures items == ts
    {
      items := ts;
    }
  }

  /** One step of Exec, for a non-empty token list. */
  lemma ExecStep(ts: seq<Token>, vs: seq<Operand>)
    requires ts != []
    ensures Exec(ts, vs) == match Eval1(ts[0], vs) case Err(k) => Err(k) case Ok(next) => Exec(ts[1..], next)
  {
  }

  /** The swap loop at the head of `postfix_calc`: s[i] and s[n - i - 1] change places for every
      i below n / 2, which reverses the list. */
  method ReverseItems(s: TokenList)
    modifies s
    ensures s.items == Reversed(old(s.items))
  {
    ghost var orig := s.items;
    var n := |s.items|;
    var i := 0;
    while i < n / 2
      invariant 0 <= i <= n / 2
      invariant |s.items| == n
      invariant forall k | 0 <= k < i :: s.items[k] == orig[n - 1 - k] && s.items[n - 1 - k] == orig[k]
      invariant forall k | i <= k < n - i :: s.items[k] == orig[k]
    {
      var front, back := s.items[i], s.items[n - i - 1];
      s.items := s.items[i := back][n - i - 1 := front];
      i := i + 1;
    }
    forall k | 0 <= k < n
      ensures s.items[k] == Reversed(orig)[k]
    {
      ReversedAt(orig, k);
    }
  }

  /**
   `postfix_calc`: the list is reversed in place, then popped from its end, so that the
   tokens are processed in their original order; the list is left holding, reversed, the
   tokens not processed when the evaluation stopped.
   */
  method PostfixCalc(s: TokenList) returns (r: Result<Operand>)
    modifies s
    ensures r == Calc(old(s.items))
    ensures exists j | 0 <= j <= |old(s.items)| :: s.items == Reversed(old(s.items)[j..])
    ensures Exec(old(s.items), []).Ok? ==> s.items == []
  {
    ghost var orig := s.items;
    var n := |s.items|;
    ReverseItems(s);
    assert orig[0..] == orig;
    var st := new Stack<Operand>();
    while |s.items| != 0
      invariant |s.items| <= n
      invariant s.items == Reversed(orig[n - |s.items|..])
      invariant Exec(orig, []) == Exec(orig[n - |s.items|..], st.elems)
      decreases |s.items|
    {
      ghost var rest := orig[n - |s.items|..];
      ghost var vs := st.elems;
      var token := s.items[|s.items| - 1];
      s.items := s.items[..|s.items| - 1];
      assert rest[0] == token && s.items == Reversed(rest[1..]) by {
        assert Reversed(rest) == Reversed(rest[1..]) + [rest[0]];
      }
      assert rest[1..] == orig[n - |s.items|..];
      ExecStep(rest, vs);
      if !token.Op? {
        st.Push(Pushed(token));
      } else {
        var e := st.IsEmpty();
        if e {
          assert Eval1(token, vs) == Err(IndexError);
          return Err(IndexError);
        }
        var x2 := st.Pop();
        var n2 := NumberOf(x2);
        if n2.Err? {
          assert Eval1(token, vs) == Err(n2.kind);
          return Err(n2.kind);
        }
        e := st.IsEmpty();
        if e {
          assert Eval1(token, vs) == Err(IndexError);
          return Err(IndexError);
        }
        var x1 := st.Pop();
        var n1 := NumberOf(x1);
        if n1.Err? {
          assert Eval1(token, vs) == Err(n1.kind);
          return Err(n1.kind);
        }
        var n3 := Apply(token.op, n1.value, n2.value);
        if n3.Err? {
          assert Eval1(token, vs) == Err(n3.kind);
          return Err(n3.kind);
        }
        st.Push(Value(n3.value));
        assert vs[..|vs| - 2] == st.elems[..|st.elems| - 1];
        assert Eval1(token, vs) == Ok(st.elems);
      }
    }
    assert orig[n..] == [];
    var e := st.IsEmpty();
    if e {
      return Err(IndexError);
    }
    var result := st.Pop();
    e := st.IsEmpty();
    if e {
      return Ok(result);
    } else {
      return Err(Malformed);
    }
  }

  /** The number of operator tokens in a list. */
  function OpCount(ts: seq<Token>): (n: nat)
    ensures n <= |ts|
  {
    if ts == [] then 0 else (if ts[0].Op? then 1 else 0) + OpCount(ts[1..])
  }

  lemma {:induction false} OpCountAppend(a: seq<Token>, b: seq<Token>)
    ensures OpCount(a + b) == OpCount(a) + OpCount(b)
  {
    if a == [] {
      assert a + b == b;
    } else {
      assert (a + b)[1..] == a[1..] + b;
      OpCountAppend(a[1..], b);
    }
  }

  /** Processing a concatenation is processing its parts one after the other. */
  lemma {:induction false} ExecAppend(a: seq<Token>, b: seq<Token>, vs: seq<Operand>)
    ensures Exec(a + b, vs) == match Exec(a, vs) case Err(k) => Err(k) case Ok(ws) => Exec(b, ws)
    decreases |a|
  {
    if a == [] {
      assert a + b == b;
    } else {
      assert (a + b)[0] == a[0] && (a + b)[1..] == a[1..] + b;
      match Eval1(a[0], vs)
      case Err(k) =>
      case Ok(next) => ExecAppend(a[1..], b, next);
    }
  }

  /** Every token that is not an operator adds one operand; every operator takes two and
      gives one back. */
  lemma {:induction false} ExecHeight(ts: seq<Token>, vs: seq<Operand>, ws: seq<Operand>)
    requires Exec(ts, vs) == Ok(ws)
    ensures |ws| + 2 * OpCount(ts) == |vs| + |ts|
    decreases |ts|
  {
    if ts != [] {
      var next := Eval1(ts[0], vs).value;
      ExecHeight(ts[1..], next, ws);
    }
  }

  /** While the evaluation of a whole list goes through, the stack after the first k tokens
      holds k operands less two for each operator among them. */
  lemma HeightAfterPrefix(ts: seq<Token>, k: nat)
    requires Exec(ts, []).Ok?
    requires k <= |ts|
    ensures Exec(ts[..k], []).Ok?
    ensures |Exec(ts[..k], []).value| + 2 * OpCount(ts[..k]) == k
  {
    assert ts == ts[..k] + ts[k..];
    ExecAppend(ts[..k], ts[k..], []);
    ExecHeight(ts[..k], [], Exec(ts[..k], []).value);
  }

  /** When every step goes through, the outcome is decided by the counts alone: one operand
      more than twice the operators gives a value, more than that is malformed, and an empty
      list (the only list with exactly twice as many tokens as operators that runs) pops an
      empty stack. */
  lemma CalcOutcome(ts: seq<Token>)
    requires Exec(ts, []).Ok?
    ensures Calc(ts).Ok? <==> |ts| == 2 * OpCount(ts) + 1
    ensures Calc(ts) == Err(Malformed) <==> |ts| > 2 * OpCount(ts) + 1
    ensures Calc(ts) == Err(IndexError) <==> |ts| == 2 * OpCount(ts)
  {
    ExecHeight(ts, [], Exec(ts, []).value);
  }

  /** A division whose divisor is zero stops the evaluation with DivByZero, whatever follows. */
  lemma DivisionByZero(a: seq<Token>, rest: seq<Token>)
    requires Exec(a, []).Ok?
    requires |Exec(a, []).value| >= 2
    requires NumberOf(Exec(a, []).value[|Exec(a, []).value| - 1]) == Ok(0.0)
    requires NumberOf(Exec(a, []).value[|Exec(a, []).value| - 2]).Ok?
    ensures Calc(a + [Op(Div)] + rest) == Err(DivByZero)
  {
    ExecAppend(a, [Op(Div)] + rest, []);
    assert a + [Op(Div)] + rest == a + ([Op(Div)] + rest);
    ExecStep([Op(Div)] + rest, Exec(a, []).value);
  }
}
