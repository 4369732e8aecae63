/**
 The validation the calculator's checks evidently aim at: a line is accepted exactly when its
 non-space characters spell an arithmetic expression. The checks as written also let through
 lines such as `()` and `(+3)`, on which the evaluator pops an empty stack; the rule added here
 is the one an expression imposes on neighbouring tokens.
 */
module Validation {
  import opened Tokens
  import opened Braces
  import opened Tokenizer
  import opened Converter
  import opened Evaluator
  import opened Grammar
  import opened Pipeline

  /** What an expression allows after a token: an operator or `)` after a number or `)`,
      a number or `(` after an operator or `(`. */
  predicate MayFollow(a: Token, b: Token)
  {
    if a.Num? || a.Close? then b.Op? || b.Close? else b.Num? || b.Open?
  }

  predicate Chained(ts: seq<Token>)
  {
    forall k | 0 < k < |ts| :: MayFollow(ts[k - 1], ts[k])
  }

  /** The checks of the calculator, with blank lines and badly neighboured tokens rejected as
      malformed instead of being passed on. */
  function Validate(x: string): Result<seq<Token>>
  {
    if RemoveSpaces(x) == [] then Err(Malformed)
    else match Tokenize(x)
      case Err(k) => Err(k)
      case Ok(ts) => if Chained(ts) then Ok(ts) else Err(Malformed)
  }

  /** One line through the calculator with the corrected validation in front. */
  function CheckedEvaluate(x: string): Result<Operand>
  {
    match Validate(x)
    case Err(k) => Err(k)
    case Ok(ts) =>
      match Postfix(ts)
      case Err(k) => Err(k)
      case Ok(p) => Calc(p)
  }

  // Bracket depth over tokens.

  function Weight(t: Token): int
  {
    if t.Open? then 1 else if t.Close? then -1 else 0
  }

  function Depth(ts: seq<Token>): int
  {
    if ts == [] then 0 else Weight(ts[0]) + Depth(ts[1..])
  }

  lemma {:induction false} DepthAppend(a: seq<Token>, b: seq<Token>)
    ensures Depth(a + b) == Depth(a) + Depth(b)
  {
    if a == [] {
      assert a + b == b;
    } else {
      assert (a + b)[0] == a[0] && (a + b)[1..] == a[1..] + b;
      DepthAppend(a[1..], b);
    }
  }

  /** Every prefix closes no more brackets than it opens, and the whole list closes them all. */
  predicate Matched(ts: seq<Token>)
  {
    Depth(ts) == 0 && forall j | 0 <= j <= |ts| :: Depth(ts[..j]) >= 0
  }

  /** n open round brackets. */
  function Opens(n: nat): (r: seq<char>)
    ensures |r| == n
  {
    if n == 0 then [] else Opens(n - 1) + ['(']
  }

  /** The scan over one token's text, from n open brackets to the m its weight leaves. */
  lemma ScanText(t: Token, n: nat, m: int)
    requires m == n + Weight(t)
    ensures Scan(Text(t), Opens(n)) == if m >= 0 then Some(Opens(m)) else None
  {
    match t
    case Num(d) =>
      NoBracketsScan(d, Opens(n));
    case Op(o) =>
      NoBracketsScan([OpChar(o)], Opens(n));
    case Open =>
      ScanStep("(", Opens(n));
      assert "("[1..] == [];
    case Close =>
      ScanStep(")", Opens(n));
      assert ")"[1..] == [];
      if n > 0 {
        assert Opens(n)[..n - 1] == Opens(n - 1);
      }
  }

  /** The scan over a token list's text is the scan over its first token's text, then the rest:
      m is the depth the first token leaves. */
  lemma ScanFirstToken(ts: seq<Token>, n: nat, m: int)
    requires ts != [] && m == n + Weight(ts[0])
    ensures Scan(Flatten(ts), Opens(n)) == if m >= 0 then Scan(Flatten(ts[1..]), Opens(m)) else None
  {
    var a, b := Text(ts[0]), Flatten(ts[1..]);
    assert Flatten(ts) == a + b;
    ScanText(ts[0], n, m);
    ScanAppend(a, b, Opens(n));
    if m >= 0 {
      assert Scan(a, Opens(n)) == Some(Opens(m));
    } else {
      assert Scan(a, Opens(n)) == None;
    }
  }

  /** The prefix depths of a list, from those of its tail. */
  lemma PrefixDepths(ts: seq<Token>, n: nat)
    requires ts != [] && n + Weight(ts[0]) >= 0
    requires forall j | 0 <= j <= |ts| - 1 :: n + Weight(ts[0]) + Depth(ts[1..][..j]) >= 0
    ensures forall j | 0 <= j <= |ts| :: n + Depth(ts[..j]) >= 0
  {
    forall j | 0 <= j <= |ts|
      ensures n + Depth(ts[..j]) >= 0
    {
      if j > 0 {
        assert ts[..j][0] == ts[0] && ts[..j][1..] == ts[1..][..j - 1];
      }
    }
  }

  /** The depth after a list, from the depth after its first token. */
  lemma DepthFirst(ts: seq<Token>, n: nat, m: nat)
    requires ts != [] && m == n + Weight(ts[0])
    ensures m + Depth(ts[1..]) == n + Depth(ts)
    ensures n + Depth(ts) >= 0 ==> Opens(m + Depth(ts[1..])) == Opens(n + Depth(ts))
  {
  }

  /** The bracket scan over a token list's text, from n open brackets, succeeds and leaves
      the depth reached open. */
  predicate LeavesOpen(ts: seq<Token>, n: nat)
  {
    n + Depth(ts) >= 0 && Scan(Flatten(ts), Opens(n)) == Some(Opens(n + Depth(ts)))
  }

  /** The scan over an empty token list leaves open what was open. */
  lemma ScanNothing(ts: seq<Token>, n: nat)
    requires ts == []
    ensures LeavesOpen(ts, n)
  {
    assert Depth(ts) == 0;
  }

  /** A scan that succeeds over a token list's text succeeds past its first token, from the
      depth m that token leaves. */
  lemma ScanTailSome(ts: seq<Token>, n: nat) returns (m: nat)
    requires ts != [] && Scan(Flatten(ts), Opens(n)).Some?
    ensures m == n + Weight(ts[0]) && Scan(Flatten(ts[1..]), Opens(m)).Some?
  {
    m := n + Weight(ts[0]);
    ScanFirstToken(ts, n, m);
  }

  /** The depth left open after a token list, from the depth left open after its tail. */
  lemma ScanResultStep(ts: seq<Token>, n: nat, m: nat)
    requires ts != [] && m == n + Weight(ts[0]) && LeavesOpen(ts[1..], m)
    ensures LeavesOpen(ts, n)
  {
    ScanFirstToken(ts, n, m);
    DepthFirst(ts, n, m);
  }

  /** A bracket scan over a token list's text that succeeds leaves the depth reached open. */
  lemma {:induction false} ScanResult(ts: seq<Token>, n: nat)
    requires Scan(Flatten(ts), Opens(n)).Some?
    ensures LeavesOpen(ts, n)
    decreases |ts|
  {
    if ts == [] {
      ScanNothing(ts, n);
    } else {
      var m := ScanTailSome(ts, n);
      ScanResult(ts[1..], m);
      ScanResultStep(ts, n, m);
    }
  }

  /** A bracket scan over a token list's text succeeds only when no prefix closes more
      brackets than are open. */
  lemma {:induction false} ScanPrefixes(ts: seq<Token>, n: nat)
    requires Scan(Flatten(ts), Opens(n)).Some?
    ensures forall j | 0 <= j <= |ts| :: n + Depth(ts[..j]) >= 0
    decreases |ts|
  {
    if ts == [] {
      assert ts[..0] == [];
    } else {
      var m := n + Weight(ts[0]);
      ScanFirstToken(ts, n, m);
      ScanPrefixes(ts[1..], m);
      PrefixDepths(ts, n);
    }
  }

  /** The bracket scan over a token list's text succeeds only when no prefix closes more
      brackets than are open, and then leaves the depth reached open. */
  lemma ScanDepth(ts: seq<Token>, n: nat)
    requires Scan(Flatten(ts), Opens(n)).Some?
    ensures forall j | 0 <= j <= |ts| :: n + Depth(ts[..j]) >= 0
    ensures n + Depth(ts) >= 0 && Scan(Flatten(ts), Opens(n)) == Some(Opens(n + Depth(ts)))
  {
    ScanResult(ts, n);
    assert LeavesOpen(ts, n);
    ScanPrefixes(ts, n);
  }

  /** A line the tokenizer accepts has matched brackets in its token list. */
  lemma TokenizedMatched(x: string)
    requires Tokenize(x).Ok?
    ensures Matched(Tokenize(x).value)
  {
    var ts := Tokenize(x).value;
    TokenizeAccepts(x);
    ScanRemoveSpaces(x, []);
    assert Opens(0) == [];
    ScanDepth(ts, 0);
    assert Opens(Depth(ts)) == [];
  }

  lemma DepthSnoc(ts: seq<Token>, j: nat)
    requires j < |ts|
    ensures Depth(ts[..j + 1]) == Depth(ts[..j]) + Weight(ts[j])
  {
    assert ts[..j + 1] == ts[..j] + [ts[j]];
    DepthAppend(ts[..j], [ts[j]]);
    assert [ts[j]][1..] == [];
  }

  /** The depth of a token list is its count of `(` less its count of `)`. */
  lemma {:induction false} DepthCounts(ts: seq<Token>)
    ensures Depth(ts) == Count(Open, ts) - Count(Close, ts)
    decreases |ts|
  {
    if ts != [] {
      DepthCounts(ts[1..]);
    }
  }

  /** Every operand is a number to `float()`. */
  predicate Numeric(vs: seq<Operand>)
  {
    forall i | 0 <= i < |vs| :: NumberOf(vs[i]).Ok?
  }

  /** A list of numbers and operators, evaluated on numbers, never meets a parenthesis: the
      evaluation does not fail with NotANumber, and what it leaves are numbers. */
  lemma {:induction false} ExecNumeric(ts: seq<Token>, vs: seq<Operand>)
    requires NoParens(ts) && Numeric(vs)
    ensures Exec(ts, vs) != Err(NotANumber)
    ensures Exec(ts, vs).Ok? ==> Numeric(Exec(ts, vs).value)
    decreases |ts|
  {
    if ts != [] {
      var e := Eval1(ts[0], vs);
      if e.Ok? {
        var ws := e.value;
        assert Numeric(ws) by {
          if ts[0].Num? {
            assert ws == vs + [Pushed(ts[0])];
          } else {
            assert ws[..|ws| - 1] == vs[..|vs| - 2];
            assert NumberOf(ws[|ws| - 1]).Ok?;
          }
        }
        assert NoParens(ts[1..]);
        ExecNumeric(ts[1..], ws);
      }
    }
  }

  /** Every line the checks accept converts, and its postfix form holds no parenthesis, so
      neither `top()` on an empty stack in the `)` loop nor `float('(')` can happen for it. */
  lemma AcceptedConverts(x: string)
    requires Tokenize(x).Ok?
    ensures Postfix(Tokenize(x).value).Ok?
    ensures NoParens(Postfix(Tokenize(x).value).value)
    ensures Evaluate(x) != Err(NotANumber)
  {
    var ts := Tokenize(x).value;
    TokenizedMatched(x);
    forall k | 0 <= k <= |ts|
      ensures Count(Close, ts[..k]) <= Count(Open, ts[..k])
    {
      DepthCounts(ts[..k]);
    }
    PostfixSucceeds(ts);
    DepthCounts(ts);
    var p := Postfix(ts).value;
    PostfixBalanced(ts, p);
    ExecNumeric(p, []);
  }

  /** A token list that could be an expression: the ends, the neighbours and the brackets are
      right. */
  predicate WellFormed(ts: seq<Token>)
  {
    ts != [] && (ts[0].Num? || ts[0].Open?) && (ts[|ts| - 1].Num? || ts[|ts| - 1].Close?) &&
    Chained(ts) && Matched(ts)
  }

  predicate IsAdditive(o: Operator) { o == Add || o == Sub }

  /** Position k holds an operator outside every bracket, additive or not as add says. */
  predicate TopOp(ts: seq<Token>, k: int, add: bool)
  {
    0 < k < |ts| && ts[k].Op? && IsAdditive(ts[k].op) == add && Depth(ts[..k]) == 0
  }

  lemma Outermost(ts: seq<Token>, k: nat)
    requires 0 < k < |ts| && ts[k].Op? && Depth(ts[..k]) == 0
    ensures TopOp(ts, k, IsAdditive(ts[k].op))
  {
  }

  /** The last position below i holding an outermost operator of the kind add says, or -1. */
  function LastTop(ts: seq<Token>, i: nat, add: bool): (k: int)
    requires i <= |ts|
    ensures -1 <= k < i
    ensures k >= 0 ==> TopOp(ts, k, add)
    ensures forall j | k < j < i :: !TopOp(ts, j, add)
  {
    if i == 0 then -1 else if TopOp(ts, i - 1, add) then i - 1 else LastTop(ts, i - 1, add)
  }

  /** The first position from i on at which the depth is back at zero. */
  function FirstReturn(ts: seq<Token>, i: nat): (j: nat)
    requires 1 <= i <= |ts| && Depth(ts) == 0
    ensures i <= j <= |ts| && Depth(ts[..j]) == 0
    ensures forall m | i <= m < j :: Depth(ts[..m]) != 0
    decreases |ts| - i
  {
    if i == |ts| then
      assert ts[..i] == ts;
      i
    else if Depth(ts[..i]) == 0 then i
    else FirstReturn(ts, i + 1)
  }

  /** Splitting a well-formed list at an outermost operator leaves two well-formed lists, whose
      outermost operators are those of the whole list on either side. */
  lemma SplitAt(ts: seq<Token>, k: nat)
    requires WellFormed(ts) && 0 < k < |ts| && ts[k].Op? && Depth(ts[..k]) == 0
    ensures k + 1 < |ts|
    ensures WellFormed(ts[..k]) && WellFormed(ts[k + 1..])
    ensures forall j, add | 0 <= j < k :: TopOp(ts[..k], j, add) == TopOp(ts, j, add)
    ensures forall j, add {:trigger TopOp(ts[k + 1..], j, add)} | 0 <= j < |ts| - k - 1 ::
      TopOp(ts[k + 1..], j, add) == TopOp(ts, k + 1 + j, add)
  {
    var left, right := ts[..k], ts[k + 1..];
    assert MayFollow(ts[k - 1], ts[k]);
    assert k + 1 < |ts|;
    assert MayFollow(ts[k], ts[k + 1]);
    assert Chained(left) by {
      forall i | 0 < i < |left|
        ensures MayFollow(left[i - 1], left[i])
      {
        assert left[i - 1] == ts[i - 1] && left[i] == ts[i];
      }
    }
    assert Chained(right) by {
      forall i | 0 < i < |right|
        ensures MayFollow(right[i - 1], right[i])
      {
        assert right[i - 1] == ts[k + i] && right[i] == ts[k + 1 + i];
      }
    }
    forall m | 0 <= m <= |left|
      ensures Depth(left[..m]) == Depth(ts[..m])
    {
      assert left[..m] == ts[..m];
    }
    forall m | 0 <= m <= |right|
      ensures Depth(right[..m]) == Depth(ts[..k + 1 + m])
    {
      assert ts[..k + 1 + m] == left + [ts[k]] + right[..m];
      DepthAppend(left + [ts[k]], right[..m]);
      DepthAppend(left, [ts[k]]);
    }
    assert ts[..|ts|] == ts;
    assert left[..|left|] == left;
    assert right[..|right|] == right;
    assert Matched(left);
    assert Matched(right) by {
      forall m | 0 <= m <= |right|
        ensures Depth(right[..m]) >= 0
      {
        assert Depth(right[..m]) == Depth(ts[..k + 1 + m]);
      }
    }
    forall j, add | 0 <= j < k
      ensures TopOp(left, j, add) == TopOp(ts, j, add)
    {
      assert left[..j] == ts[..j];
    }
    forall j, add | 0 <= j < |right|
      ensures TopOp(right, j, add) == TopOp(ts, k + 1 + j, add)
    {
      assert Depth(right[..j]) == Depth(ts[..k + 1 + j]);
    }
  }

  /** Every well-formed token list is the token list of an expression. */
  lemma {:induction false} SumComplete(ts: seq<Token>)
    requires WellFormed(ts)
    ensures exists s :: SumTokens(s) == ts
    decreases |ts|, 2
  {
    var k := LastTop(ts, |ts|, true);
    if k < 0 {
      ProductComplete(ts);
      var p :| ProductTokens(p) == ts;
      assert SumTokens(Single(p)) == ts;
    } else {
      SplitAt(ts, k);
      SumComplete(ts[..k]);
      ProductComplete(ts[k + 1..]);
      var s :| SumTokens(s) == ts[..k];
      var p :| ProductTokens(p) == ts[k + 1..];
      var o := if ts[k].op == Add then Plus else Minus;
      assert ts == ts[..k] + [Op(AddOperator(o))] + ts[k + 1..];
      assert SumTokens(AddSub(s, o, p)) == ts;
    }
  }

  lemma {:induction false} ProductComplete(ts: seq<Token>)
    requires WellFormed(ts)
    requires forall j :: !TopOp(ts, j, true)
    ensures exists p :: ProductTokens(p) == ts
    decreases |ts|, 1
  {
    var k := LastTop(ts, |ts|, false);
    if k < 0 {
      FactorComplete(ts);
      var f :| FactorTokens(f) == ts;
      assert ProductTokens(One(f)) == ts;
    } else {
      SplitAt(ts, k);
      ProductComplete(ts[..k]);
      FactorComplete(ts[k + 1..]);
      var p :| ProductTokens(p) == ts[..k];
      var f :| FactorTokens(f) == ts[k + 1..];
      var o := if ts[k].op == Mul then Times else Over;
      assert ts == ts[..k] + [Op(MulOperator(o))] + ts[k + 1..];
      assert ProductTokens(MulDiv(p, o, f)) == ts;
    }
  }

  lemma {:induction false} FactorComplete(ts: seq<Token>)
    requires WellFormed(ts)
    requires forall j, add :: !TopOp(ts, j, add)
    ensures exists f :: FactorTokens(f) == ts
    decreases |ts|, 0
  {
    assert ts[..1] == [ts[0]];
    if ts[0].Num? {
      assert |ts| == 1 by {
        if |ts| > 1 {
          assert MayFollow(ts[0], ts[1]);
          DepthSnoc(ts, 0);
          if ts[1].Op? {
            Outermost(ts, 1);
            assert false;
          } else {
            DepthSnoc(ts, 1);
            assert false;
          }
        }
      }
      assert FactorTokens(Number(ts[0].digits)) == ts;
    } else {
      var j := FirstReturn(ts, 1);
      forall m | 1 <= m < j
        ensures Depth(ts[..m]) >= 1
      {
        assert Depth(ts[..m]) >= 0;
      }
      assert ts[..j] == ts[..j - 1] + [ts[j - 1]];
      DepthAppend(ts[..j - 1], [ts[j - 1]]);
      assert ts[j - 1].Close? && Depth(ts[..j - 1]) == 1;
      assert j == |ts| by {
        if j < |ts| {
          assert MayFollow(ts[j - 1], ts[j]);
          if ts[j].Op? {
            Outermost(ts, j);
            assert false;
          } else {
            DepthSnoc(ts, j);
            assert false;
          }
        }
      }
      assert MayFollow(ts[0], ts[1]);
      var n := |ts|;
      assert n >= 3;
      var inner := ts[1..n - 1];
      assert MayFollow(ts[n - 2], ts[n - 1]);
      assert Chained(inner) by {
        forall i | 0 < i < |inner|
          ensures MayFollow(inner[i - 1], inner[i])
        {
          assert inner[i - 1] == ts[i] && inner[i] == ts[i + 1];
        }
      }
      forall m | 0 <= m <= |inner|
        ensures Depth(inner[..m]) == Depth(ts[..m + 1]) - 1
      {
        assert ts[..m + 1] == [ts[0]] + inner[..m];
        DepthAppend([ts[0]], inner[..m]);
      }
      assert inner[..|inner|] == inner;
      assert Matched(inner) by {
        forall m | 0 <= m <= |inner|
          ensures Depth(inner[..m]) >= 0
        {
          assert Depth(ts[..m + 1]) >= 1;
        }
      }
      SumComplete(inner);
      var s :| SumTokens(s) == inner;
      assert ts == [Open] + inner + [Close];
      assert FactorTokens(Group(s)) == ts;
    }
  }

  // Expressions satisfy the neighbour rule.

  lemma JoinChained(a: seq<Token>, o: Operator, b: seq<Token>)
    requires Chained(a) && Chained(b) && WellSpaced(a) && WellSpaced(b)
    ensures Chained(a + [Op(o)] + b)
  {
    var t := a + [Op(o)] + b;
    forall k | 0 < k < |t|
      ensures MayFollow(t[k - 1], t[k])
    {
      if k < |a| {
        assert t[k - 1] == a[k - 1] && t[k] == a[k];
      } else if k > |a| + 1 {
        assert t[k - 1] == b[k - 2 - |a|] && t[k] == b[k - 1 - |a|];
      } else if k == |a| + 1 {
        assert t[k] == b[0];
      }
    }
  }

  lemma WrapChained(a: seq<Token>)
    requires Chained(a) && WellSpaced(a)
    ensures Chained([Open] + a + [Close])
  {
    var t := [Open] + a + [Close];
    forall k | 0 < k < |t|
      ensures MayFollow(t[k - 1], t[k])
    {
      if 1 < k <= |a| {
        assert t[k - 1] == a[k - 2] && t[k] == a[k - 1];
      }
    }
  }

  lemma {:induction false} SumChained(s: Sum)
    ensures Chained(SumTokens(s)) && WellSpaced(SumTokens(s))
    decreases s
  {
    SumShape(s);
    match s
    case Single(t) =>
      ProductChained(t);
    case AddSub(s0, o, t) =>
      SumChained(s0);
      ProductChained(t);
      JoinChained(SumTokens(s0), AddOperator(o), ProductTokens(t));
  }

  lemma {:induction false} ProductChained(p: Product)
    ensures Chained(ProductTokens(p)) && WellSpaced(ProductTokens(p))
    decreases p
  {
    ProductShape(p);
    match p
    case One(f) =>
      FactorChained(f);
    case MulDiv(p0, o, f) =>
      ProductChained(p0);
      FactorChained(f);
      JoinChained(ProductTokens(p0), MulOperator(o), FactorTokens(f));
  }

  lemma {:induction false} FactorChained(f: Factor)
    ensures Chained(FactorTokens(f)) && WellSpaced(FactorTokens(f))
    decreases f
  {
    FactorShape(f);
    match f
    case Number(d) =>
    case Group(e) =>
      SumChained(e);
      WrapChained(SumTokens(e));
  }

  // What the corrected validation accepts.

  /** A line spelling an expression is accepted, with the expression's tokens. */
  lemma ValidateAccepts(x: string, s: Sum)
    requires RemoveSpaces(x) == Flatten(SumTokens(s))
    ensures Validate(x) == Ok(SumTokens(s))
  {
    SumChained(s);
    FlattenFirst(SumTokens(s));
    TokenizeExpression(x, s);
  }

  /** An accepted line spells an expression, and the tokens returned are its tokens. */
  lemma ValidateParses(x: string)
    requires Validate(x).Ok?
    ensures exists s :: Validate(x).value == SumTokens(s) && RemoveSpaces(x) == Flatten(SumTokens(s))
  {
    var ts := Validate(x).value;
    var t := RemoveSpaces(x);
    TokenizeAccepts(x);
    TokenizedMatched(x);
    assert ts != [];
    FlattenFirst(ts);
    FlattenLast(ts);
    var n := |ts|;
    DepthSnoc(ts, 0);
    DepthSnoc(ts, n - 1);
    assert ts[..n] == ts;
    assert Depth(ts[..n - 1]) >= 0;
    assert WellFormed(ts);
    SumComplete(ts);
    var s :| SumTokens(s) == ts;
    assert Validate(x).value == SumTokens(s) && RemoveSpaces(x) == Flatten(SumTokens(s));
  }

  /** The corrected validation accepts a line exactly when its non-space characters spell an
      expression. */
  lemma ValidateIff(x: string)
    ensures Validate(x).Ok? <==> exists s :: RemoveSpaces(x) == Flatten(SumTokens(s))
  {
    if Validate(x).Ok? {
      ValidateParses(x);
    }
    if exists s :: RemoveSpaces(x) == Flatten(SumTokens(s)) {
      var s :| RemoveSpaces(x) == Flatten(SumTokens(s));
      ValidateAccepts(x, s);
    }
  }

  /** The tokenizer's own rejections of a line with some non-space character. */
  lemma TokenizeErrors(x: string)
    requires RemoveSpaces(x) != [] && Tokenize(x).Err?
    ensures Tokenize(x).kind in {BadBrackets, MisplacedOperator, InvalidCharacter}
  {
    var t := RemoveSpaces(x);
    if Balanced(x) && !IsOpChar(t[0]) && !IsOpChar(t[|t| - 1]) {
      FaultIsFirstFault(t, 0);
    }
  }

  /** With the corrected validation in front, no line makes the evaluator pop an empty stack or
      convert a bracket: a line is rejected by the checks, or yields the value of the expression
      it spells, or stops at a zero divisor exactly when that expression divides by zero. */
  lemma CheckedEvaluateSafe(x: string)
    ensures CheckedEvaluate(x) != Err(IndexError) && CheckedEvaluate(x) != Err(NotANumber)
    ensures Validate(x).Ok? ==>
      exists s :: (RemoveSpaces(x) == Flatten(SumTokens(s)) &&
        (SumValue(s).None? <==> CheckedEvaluate(x) == Err(DivByZero)) &&
        (SumValue(s).Some? ==> CheckedEvaluate(x).Ok? && NumberOf(CheckedEvaluate(x).value) == Ok(SumValue(s).value)))
  {
    if Validate(x).Ok? {
      ValidateParses(x);
      var s :| Validate(x).value == SumTokens(s) && RemoveSpaces(x) == Flatten(SumTokens(s));
      EndToEnd(s);
      assert CheckedEvaluate(x) == Calc(Postfix(SumTokens(s)).value);
    } else if RemoveSpaces(x) != [] && Tokenize(x).Err? {
      TokenizeErrors(x);
    }
  }

  // The lines the checks as written let through.

  /** A blank line passes the bracket check and then indexes an empty string. */
  lemma BlankLineAsWritten()
    ensures Evaluate(" ") == Err(IndexError)
    ensures Validate(" ") == Err(Malformed)
  {
    assert RemoveSpaces(" ") == [] by {
      assert " "[1..] == [];
    }
    assert Balanced(" ") by {
      NoBracketsScan(" ", []);
    }
  }

  /** An empty pair of brackets passes every check; nothing reaches the evaluator's stack, and
      the final pop finds it empty. */
  lemma EmptyGroupAsWritten()
    ensures Evaluate("()") == Err(IndexError)
    ensures Validate("()") == Err(Malformed)
  {
    EmptyGroupTokens();
    EmptyGroupPostfix();
    assert Calc([]) == Err(IndexError);
    var ts: seq<Token> := [Open, Close];
    assert !MayFollow(ts[0], ts[1]);
    assert RemoveSpaces("()") != [];
  }

  lemma EmptyGroupPostfix()
    ensures Postfix([Open, Close]) == Ok([])
  {
    var ts: seq<Token> := [Open, Close];
    assert ts[1..] == [Close] && [Close][1..] == [];
    assert [] + [Open] == [Open] && [Open][..0] == [];
    assert Step(Open, State([], [])) == Ok(State([Open], []));
    assert Step(Close, State([Open], [])) == Ok(State([], []));
    assert Run(ts, State([], [])) == Ok(State([], []));
    assert Flush(State([], [])) == [];
  }

  lemma EmptyGroupTokens()
    ensures Tokenize("()") == Ok([Open, Close])
  {
    var x := "()";
    assert Balanced(x) by {
      ScanStep(x, []);
      assert x[1..] == ")";
      ScanStep(")", ['(']);
      assert ")"[1..] == [];
    }
    assert RemoveSpaces(x) == x;
    assert Fault(x, 0) == None by {
      assert Fine(x, 0) && Fine(x, 1);
      FaultIsFirstFault(x, 0);
    }
    assert Lex(x) == [Open, Close] by {
      assert x == "(" + ")";
      LexSnoc("(", ')');
      LexSnoc([], '(');
      assert [] + ['('] == "(";
    }
  }

  /** An operator just inside a bracket passes every check; the evaluator then finds one
      operand where it needs two. */
  lemma SignedGroupAsWritten()
    ensures Evaluate("(+3)") == Err(IndexError)
    ensures Validate("(+3)") == Err(Malformed)
  {
    var ts: seq<Token> := [Open, Op(Add), Num("3"), Close];
    SignedGroupTokens();
    SignedGroupPostfix();
    SignedGroupCalc();
    assert !MayFollow(ts[0], ts[1]);
    assert RemoveSpaces("(+3)") != [];
  }

  lemma SignedGroupCalc()
    ensures Calc([Num("3"), Op(Add)]) == Err(IndexError)
  {
    var p: seq<Token> := [Num("3"), Op(Add)];
    ExecStep(p, []);
    assert p[1..] == [Op(Add)];
    assert [] + [Pushed(Num("3"))] == [Pushed(Num("3"))];
    ExecStep([Op(Add)], [Pushed(Num("3"))]);
    assert NumberOf(Pushed(Num("3"))).Ok?;
    assert Exec(p, []) == Err(IndexError);
  }

  lemma SignedGroupPostfix()
    ensures Postfix([Open, Op(Add), Num("3"), Close]) == Ok([Num("3"), Op(Add)])
  {
    var ts: seq<Token> := [Open, Op(Add), Num("3"), Close];
    var s0 := State([], []);
    var s1 := State([Open], []);
    var s2 := State([Open, Op(Add)], []);
    var s3 := State([Open, Op(Add)], [Num("3")]);
    var s4 := State([], [Num("3"), Op(Add)]);
    assert [] + [Open] == [Open];
    assert Step(Open, s0) == Ok(s1);
    assert [Open] + [Op(Add)] == [Open, Op(Add)];
    assert Step(Op(Add), s1) == Ok(s2);
    assert [] + [Num("3")] == [Num("3")];
    assert Step(Num("3"), s2) == Ok(s3);
    assert PopToOpen(s3) == Ok(s4) by {
      assert s3.stack[..1] == [Open] && [Open][..0] == [];
      assert [Num("3")] + [Op(Add)] == [Num("3"), Op(Add)];
    }
    assert Run(ts[3..], s3) == Ok(s4) by {
      assert ts[3..][1..] == [];
    }
    assert ts[2..][1..] == ts[3..] && ts[1..][1..] == ts[2..];
    assert Run(ts, s0) == Ok(s4);
    assert Flush(s4) == [Num("3"), Op(Add)] by {
      assert Reversed<Token>([]) == [];
      assert [Num("3"), Op(Add)] + [] == [Num("3"), Op(Add)];
    }
  }

  lemma SignedGroupBalanced()
    ensures Balanced("(+3)")
  {
    var x := "(+3)";
    ScanStep(x, []);
    assert x[1..] == "+3" + ")";
    NoBracketsScan("+3", ['(']);
    ScanAppend("+3", ")", ['(']);
    ScanStep(")", ['(']);
    assert ")"[1..] == [];
  }

  lemma SignedGroupLexPrefix()
    ensures AllValid("(+") && Lex("(+") == [Open, Op(Add)]
  {
    LexSnoc([], '(');
    assert [] + ['('] == "(";
    assert Lex("(") == [Open];
    LexSnoc("(", '+');
    assert "(" + ['+'] == "(+";
  }

  lemma SignedGroupLex()
    ensures AllValid("(+3)") && Lex("(+3)") == [Open, Op(Add), Num("3")] + [Close]
  {
    SignedGroupLexPrefix();
    LexSnoc("(+", '3');
    assert "(+" + ['3'] == "(+3";
    assert TokenOf("3") == Num("3");
    var l3 := Lex("(+3");
    assert l3 == [Open, Op(Add)] + [Num("3")];
    LexSnoc("(+3", ')');
    assert "(+3" + [')'] == "(+3)";
    assert Lex("(+3)") == l3 + [Close];
  }

  lemma SignedGroupFault()
    ensures Fault("(+3)", 0) == None
  {
    var x := "(+3)";
    assert Fine(x, 0) && Fine(x, 1) && Fine(x, 2) && Fine(x, 3);
    FaultIsFirstFault(x, 0);
  }

  /** The tokenizer on a line whose checks all pass. */
  lemma Accepts(x: string, t: string, ts: seq<Token>)
    requires Balanced(x) && RemoveSpaces(x) == t && t != []
    requires !IsOpChar(t[0]) && !IsOpChar(t[|t| - 1])
    requires Fault(t, 0) == None && AllValid(t) && Lex(t) == ts
    ensures Tokenize(x) == Ok(ts)
  {
  }

  lemma SignedGroupSpaces()
    ensures RemoveSpaces("(+3)") == "(+3)"
  {
    var x := "(+3)";
    assert forall k | 0 <= k < |x| :: x[k] != ' ';
  }

  lemma SignedGroupTokens()
    ensures Tokenize("(+3)") == Ok([Open, Op(Add), Num("3"), Close])
  {
    var x := "(+3)";
    SignedGroupBalanced();
    SignedGroupFault();
    SignedGroupLex();
    SignedGroupSpaces();
    assert [Open, Op(Add), Num("3")] + [Close] == [Open, Op(Add), Num("3"), Close];
    assert !IsOpChar(x[0]) && !IsOpChar(x[3]);
    Accepts(x, x, [Open, Op(Add), Num("3"), Close]);
  }

}
