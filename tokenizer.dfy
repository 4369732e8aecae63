/**
 Validation and tokenisation of an input line: brackets first, then spaces removed,
 operators at the ends, adjacent operators and foreign characters, and finally digit runs
 grouped into number tokens.
 */
module Tokenizer {
  import opened Tokens
  import opened Braces

  /** The line with every space removed (tabs and other blanks stay). */
  function RemoveSpaces(s: string): (t: string)
    ensures |t| <= |s|
    ensures forall k | 0 <= k < |t| :: t[k] != ' '
    ensures (forall k | 0 <= k < |s| :: s[k] != ' ') ==> t == s
  {
    if s == [] then [] else (if s[0] == ' ' then [] else [s[0]]) + RemoveSpaces(s[1..])
  }

  lemma {:induction false} RemoveSpacesAppend(a: string, b: string)
    ensures RemoveSpaces(a + b) == RemoveSpaces(a) + RemoveSpaces(b)
  {
    if a != [] {
      assert (a + b)[0] == a[0] && (a + b)[1..] == a[1..] + b;
      RemoveSpacesAppend(a[1..], b);
    } else {
      assert a + b == b;
    }
  }

  /** Spaces are not brackets: removing them leaves the bracket scan as it was. */
  lemma {:induction false} ScanRemoveSpaces(s: string, open: seq<char>)
    ensures Scan(RemoveSpaces(s), open) == Scan(s, open)
    decreases |s|
  {
    if s != [] {
      var c := if s[0] == ' ' then [] else [s[0]];
      assert s == [s[0]] + s[1..];
      ScanAppend([s[0]], s[1..], open);
      ScanAppend(c, RemoveSpaces(s[1..]), open);
      assert Scan(c, open) == Scan([s[0]], open) by {
        if s[0] == ' ' {
          ScanStep([s[0]], open);
          assert [s[0]][1..] == [];
        }
      }
      match Scan([s[0]], open)
      case None =>
      case Some(o) => ScanRemoveSpaces(s[1..], o);
    }
  }

  /** The character the loop compares with t[i]: at i = 0 the index -1 wraps to the last one. */
  function Prev(t: string, i: nat): char
    requires i < |t|
  {
    t[if i == 0 then |t| - 1 else i - 1]
  }

  /** Position j passes the per-character checks. */
  predicate Fine(t: string, j: nat)
    requires j < |t|
  {
    IsValidChar(t[j]) && !(IsOpChar(t[j]) && IsOpChar(Prev(t, j)))
  }

  /** Position j is the first one from i on that fails the per-character checks. */
  predicate FirstFaultAt(t: string, i: nat, j: nat)
  {
    i <= j < |t| && !Fine(t, j) && forall k | i <= k < j :: Fine(t, k)
  }

  /** The error kind the loop reports at a failing position: adjacency is checked first. */
  function FaultKind(t: string, j: nat): ErrorKind
    requires j < |t|
  {
    if IsOpChar(t[j]) && IsOpChar(Prev(t, j)) then MisplacedOperator else InvalidCharacter
  }

  /**
   The per-character checks of the loop, from position i on: None when every position
   passes, otherwise the kind reported at the first position that fails.
   */
  function Fault(t: string, i: nat): (r: Option<ErrorKind>)
    requires i <= |t|
    decreases |t| - i
    ensures r == None ==> forall j | i <= j < |t| :: IsValidChar(t[j])
  {
    if i == |t| then None
    else if IsOpChar(t[i]) && IsOpChar(Prev(t, i)) then Some(MisplacedOperator)
    else if IsValidChar(t[i]) then Fault(t, i + 1)
    else Some(InvalidCharacter)
  }

  /** The per-character checks find nothing exactly when every position passes them, and
      otherwise report the kind of the first position that fails. */
  lemma {:induction false} FaultIsFirstFault(t: string, i: nat)
    requires i <= |t|
    decreases |t| - i
    ensures Fault(t, i) == None <==> forall j | i <= j < |t| :: Fine(t, j)
    ensures Fault(t, i).Some? <==> exists j :: FirstFaultAt(t, i, j) && Fault(t, i).value == FaultKind(t, j)
  {
    if i < |t| {
      if !Fine(t, i) {
        assert FirstFaultAt(t, i, i);
      } else {
        FaultIsFirstFault(t, i + 1);
        if Fault(t, i).Some? {
          var j :| FirstFaultAt(t, i + 1, j) && Fault(t, i + 1).value == FaultKind(t, j);
          assert FirstFaultAt(t, i, j);
        }
        forall j | FirstFaultAt(t, i, j)
          ensures FirstFaultAt(t, i + 1, j)
        {
          assert j != i;
        }
      }
    }
  }

  /** The tokens after one more character: a digit joins a number token just before it,
      every other character starts a token of its own. */
  function LexPush(l: seq<Token>, c: char): seq<Token>
    requires IsValidChar(c)
  {
    if IsDigit(c) && |l| > 0 && l[|l| - 1].Num? then
      assert AllDigits(l[|l| - 1].digits + [c]);
      l[..|l| - 1] + [Num(l[|l| - 1].digits + [c])]
    else
      l + [TokenOf([c])]
  }

  /** The grouping of a valid character string into tokens, left to right. */
  function Lex(t: string): seq<Token>
    requires AllValid(t)
    decreases |t|
  {
    if t == [] then [] else LexPush(Lex(t[..|t| - 1]), t[|t| - 1])
  }

  lemma LexSnoc(p: string, c: char)
    requires AllValid(p) && IsValidChar(c)
    ensures AllValid(p + [c]) && Lex(p + [c]) == LexPush(Lex(p), c)
  {
    assert (p + [c])[..|p|] == p;
  }

  /** The accumulator of the token loop: `infix` holds the finished tokens, `token` the last one. */
  lemma AccumulatorStep(infix: seq<Token>, token: string, c: char)
    requires IsTokenText(token) && IsValidChar(c)
    ensures IsDigit(c) && IsDigit(token[|token| - 1]) ==>
      IsTokenText(token + [c]) && LexPush(infix + [TokenOf(token)], c) == infix + [TokenOf(token + [c])]
    ensures !(IsDigit(c) && IsDigit(token[|token| - 1])) ==>
      LexPush(infix + [TokenOf(token)], c) == (infix + [TokenOf(token)]) + [TokenOf([c])]
  {
    var l := infix + [TokenOf(token)];
    assert l[..|l| - 1] == infix;
    if IsDigit(c) && IsDigit(token[|token| - 1]) {
      assert AllDigits(token + [c]);
    }
  }

  /** The accumulator step of the token loop, for a character that passed the checks: a digit
      after a digit extends `token`, anything else moves `token` to `infix` and starts afresh. */
  method TakeChar(infix: seq<Token>, token: string, c: char) returns (infix': seq<Token>, token': string)
    requires IsValidChar(c)
    requires token == "" ==> infix == []
    requires token != "" ==> IsTokenText(token)
    ensures IsTokenText(token')
    ensures infix' + [TokenOf(token')] == LexPush(if token == "" then [] else infix + [TokenOf(token)], c)
  {
    if token != "" {
      AccumulatorStep(infix, token, c);
    }
    if IsDigit(c) {
      if token != "" {
        if IsDigit(token[|token| - 1]) {
          token' := token + [c];
          infix' := infix;
        } else {
          infix' := infix + [TokenOf(token)];
          token' := [c];
        }
      } else {
        token' := token + [c];
        infix' := infix;
        assert token' == [c];
      }
    } else {
      if token != "" {
        infix' := infix + [TokenOf(token)];
      } else {
        infix' := infix;
      }
      token' := [c];
    }
  }

  /** What `check_correct_expression` returns for a line. */
  function Tokenize(s: string): Result<seq<Token>>
  {
    if !Balanced(s) then Err(BadBrackets)
    else
      var t := RemoveSpaces(s);
      if t == [] then Err(IndexError)
      else if IsOpChar(t[0]) || IsOpChar(t[|t| - 1]) then Err(MisplacedOperator)
      else match Fault(t, 0)
        case Some(k) => Err(k)
        case None => Ok(Lex(t))
  }

  /** `check_correct_expression`: the checks in order, then the token loop with its accumulator. */
  method CheckCorrectExpression(s: string) returns (r: Result<seq<Token>>)
    ensures r == Tokenize(s)
  {
    var ok := BracesSequenceIsCorrect(s);
    if !ok {
      return Err(BadBrackets);
    }
    var t := RemoveSpaces(s);
    if |t| == 0 {
      return Err(IndexError);
    }
    if IsOpChar(t[0]) || IsOpChar(t[|t| - 1]) {
      return Err(MisplacedOperator);
    }
    r := TokenLoop(t);
  }

  /** The checks at position i: what Fault reports there, or that it goes on to i + 1. */
  lemma FaultHere(t: string, i: nat)
    requires i < |t|
    ensures IsOpChar(t[i]) && IsOpChar(t[if i == 0 then |t| - 1 else i - 1]) ==>
      Fault(t, i) == Some(MisplacedOperator)
    ensures !(IsOpChar(t[i]) && IsOpChar(t[if i == 0 then |t| - 1 else i - 1])) && !IsValidChar(t[i]) ==>
      Fault(t, i) == Some(InvalidCharacter)
  {
  }

  /** A position that passes both checks: the search goes on at the next one. */
  lemma FaultPasses(t: string, i: nat)
    requires i < |t| && !(IsOpChar(t[i]) && IsOpChar(t[if i == 0 then |t| - 1 else i - 1])) && IsValidChar(t[i])
    ensures Fault(t, i) == Fault(t, i + 1)
  {
  }

  /** The tokens of one more character of the line. */
  lemma LexPrefix(t: string, i: nat)
    requires i < |t| && AllValid(t[..i]) && IsValidChar(t[i])
    ensures AllValid(t[..i + 1])
    ensures Lex(t[..i + 1]) == LexPush(if i == 0 then [] else Lex(t[..i]), t[i])
  {
    assert t[..i + 1] == t[..i] + [t[i]];
    LexSnoc(t[..i], t[i]);
    assert i == 0 ==> t[..i] == [];
  }

  /** The token loop of `check_correct_expression`, on the line without spaces: the adjacency
      and character checks position by position, and the accumulator of the current token. */
  method TokenLoop(t: string) returns (r: Result<seq<Token>>)
    requires t != []
    ensures r == match Fault(t, 0) case Some(k) => Err(k) case None => Ok(Lex(t))
  {
    var infix: seq<Token> := [];
    var token: string := "";
    var i := 0;
    assert t[..0] == [];
    while i < |t|
      invariant 0 <= i <= |t|
      invariant LoopInv(t, i, infix, token)
    {
      if IsOpChar(t[i]) && IsOpChar(t[if i == 0 then |t| - 1 else i - 1]) {
        FaultHere(t, i);
        return Err(MisplacedOperator);
      }
      if !IsValidChar(t[i]) {
        FaultHere(t, i);
        return Err(InvalidCharacter);
      }
      var infix', token' := TakeChar(infix, token, t[i]);
      LoopStep(t, i, infix, token, infix', token');
      infix, token := infix', token';
      i := i + 1;
    }
    LoopDone(t, infix, token);
    infix := infix + [TokenOf(token)];
    r := Ok(infix);
  }

  /** What the token loop keeps: the checks find nothing before i, and the accumulator holds
      the tokens of the first i characters, the last of them in `token`. */
  predicate LoopInv(t: string, i: nat, infix: seq<Token>, token: string)
    requires i <= |t|
  {
    Fault(t, 0) == Fault(t, i) && AllValid(t[..i]) &&
    (i == 0 ==> token == "" && infix == []) &&
    (i > 0 ==> IsTokenText(token) && infix + [TokenOf(token)] == Lex(t[..i]))
  }

  /** One character that passes the checks, taken into the accumulator. */
  lemma LoopStep(t: string, i: nat, infix: seq<Token>, token: string, infix': seq<Token>, token': string)
    requires i < |t| && LoopInv(t, i, infix, token)
    requires !(IsOpChar(t[i]) && IsOpChar(t[if i == 0 then |t| - 1 else i - 1])) && IsValidChar(t[i])
    requires IsTokenText(token')
    requires infix' + [TokenOf(token')] == LexPush(if token == "" then [] else infix + [TokenOf(token)], t[i])
    ensures LoopInv(t, i + 1, infix', token')
  {
    FaultPasses(t, i);
    LexPrefix(t, i);
  }

  /** Once every character has passed, the checks find nothing and the accumulator holds the
      tokens of the whole line. */
  lemma LoopDone(t: string, infix: seq<Token>, token: string)
    requires t != [] && LoopInv(t, |t|, infix, token)
    ensures Fault(t, 0) == None && AllValid(t) && IsTokenText(token)
    ensures infix + [TokenOf(token)] == Lex(t)
  {
    assert t[..|t|] == t;
  }

  /** No two number tokens stand next to each other. */
  predicate NoAdjacentNums(ts: seq<Token>)
  {
    forall j, k | 0 <= j < |ts| && 0 <= k < |ts| && k == j + 1 :: !(ts[j].Num? && ts[k].Num?)
  }

  lemma FlattenSnoc(l: seq<Token>, x: Token)
    ensures Flatten(l + [x]) == Flatten(l) + Text(x)
  {
    FlattenAppend(l, [x]);
    assert [x][1..] == [];
  }

  lemma FlattenPush(l: seq<Token>, c: char)
    requires IsValidChar(c)
    ensures Flatten(LexPush(l, c)) == Flatten(l) + [c]
  {
    if IsDigit(c) && |l| > 0 && l[|l| - 1].Num? {
      var l0, d := l[..|l| - 1], l[|l| - 1].digits;
      assert l == l0 + [Num(d)];
      FlattenSnoc(l0, Num(d));
      FlattenSnoc(l0, Num(d + [c]));
    } else {
      FlattenSnoc(l, TokenOf([c]));
    }
  }

  /** The token texts concatenate back to the characters they came from. */
  lemma {:induction false} LexFlatten(t: string)
    requires AllValid(t)
    ensures Flatten(Lex(t)) == t
    decreases |t|
  {
    if t != [] {
      var p, c := t[..|t| - 1], t[|t| - 1];
      assert t == p + [c];
      LexFlatten(p);
      FlattenPush(Lex(p), c);
    }
  }

  /** Digit runs are maximal: no two number tokens are adjacent. */
  lemma {:induction false} LexSeparated(t: string)
    requires AllValid(t)
    ensures NoAdjacentNums(Lex(t))
    decreases |t|
  {
    if t != [] {
      LexSeparated(t[..|t| - 1]);
    }
  }

  /** Every character of a token list's text is one the tokenizer accepts. */
  lemma {:induction false} FlattenValid(ts: seq<Token>)
    ensures AllValid(Flatten(ts))
  {
    if ts != [] {
      FlattenValid(ts[1..]);
      var a, b := Text(ts[0]), Flatten(ts[1..]);
      assert forall k | 0 <= k < |a + b| :: (a + b)[k] == if k < |a| then a[k] else b[k - |a|];
    }
  }

  /** Pushing the character of a one-character token that cannot join the token before it. */
  lemma PushSingle(pre: seq<Token>, last: Token)
    requires |Text(last)| == 1
    requires last.Num? && pre != [] ==> !pre[|pre| - 1].Num?
    ensures LexPush(pre, Text(last)[0]) == pre + [last]
  {
    assert [Text(last)[0]] == Text(last);
  }

  /** Pushing a digit after a number token extends that token. */
  lemma PushDigit(pre: seq<Token>, d: Digits, c: char)
    requires IsDigit(c)
    ensures AllDigits(d + [c]) && LexPush(pre + [Num(d)], c) == pre + [Num(d + [c])]
  {
    assert (pre + [Num(d)])[..|pre|] == pre;
  }

  /** The text of a non-empty token list is that of all but its last token, then the last. */
  lemma FlattenButLast(ts: seq<Token>)
    requires ts != []
    ensures Flatten(ts) == Flatten(ts[..|ts| - 1]) + Text(ts[|ts| - 1])
  {
    ButLastSnoc(ts);
    FlattenSnoc(ts[..|ts| - 1], ts[|ts| - 1]);
  }

  /** The tokens built by pushing the characters of x one by one onto the list l. */
  function PushAll(l: seq<Token>, x: string): seq<Token>
    requires AllValid(x)
    decreases |x|
  {
    if x == [] then l else LexPush(PushAll(l, x[..|x| - 1]), x[|x| - 1])
  }

  /** Two texts of valid characters make one. */
  lemma ValidAppend(a: string, b: string)
    requires AllValid(a) && AllValid(b)
    ensures AllValid(a + b)
  {
  }

  /** Pushing a concatenation is pushing its parts one after the other. */
  lemma {:induction false} PushAllAppend(l: seq<Token>, a: string, b: string)
    requires AllValid(a) && AllValid(b)
    ensures AllValid(a + b) && PushAll(l, a + b) == PushAll(PushAll(l, a), b)
    decreases |b|
  {
    ValidAppend(a, b);
    if b == [] {
      assert a + b == a;
    } else {
      var b', c := b[..|b| - 1], b[|b| - 1];
      PushAllAppend(l, a, b');
      AppendButLast(a, b);
      PushAllSnoc(l, a + b', c, a + b);
    }
  }

  /** Pushing a text that ends in c is pushing c after the rest. */
  lemma PushAllSnoc(l: seq<Token>, p: string, c: char, u: string)
    requires AllValid(p) && IsValidChar(c) && u == p + [c]
    ensures AllValid(u) && PushAll(l, u) == LexPush(PushAll(l, p), c)
  {
    assert u[..|u| - 1] == p;
  }

  /** The tokenisation pushes the characters one by one onto the empty list. */
  lemma {:induction false} LexIsPushAll(t: string)
    requires AllValid(t)
    ensures Lex(t) == PushAll([], t)
    decreases |t|
  {
    if t != [] {
      LexIsPushAll(t[..|t| - 1]);
    }
  }

  /** A run of digits pushed after a token that is not a number becomes one number token. */
  lemma {:induction false} PushDigits(pre: seq<Token>, d: Digits)
    requires pre != [] ==> !pre[|pre| - 1].Num?
    ensures PushAll(pre, d) == pre + [Num(d)]
    decreases |d|
  {
    var c := d[|d| - 1];
    if |d| == 1 {
      assert d[..0] == [];
      PushSingle(pre, Num(d));
    } else {
      var e: Digits := d[..|d| - 1];
      PushDigits(pre, e);
      PushDigit(pre, e, c);
      ButLastSnoc(d);
    }
  }

  /** Pushing the text of one token that cannot join the tokens before it adds that token. */
  lemma PushText(pre: seq<Token>, x: Token)
    requires x.Num? && pre != [] ==> !pre[|pre| - 1].Num?
    ensures PushAll(pre, Text(x)) == pre + [x]
  {
    if x.Num? {
      PushDigits(pre, x.digits);
    } else {
      assert Text(x)[..0] == [];
      PushSingle(pre, x);
    }
  }

  /** One more token's text pushed after the text of the tokens before it. */
  lemma PushAllNext(a: string, pre: seq<Token>, x: Token)
    requires AllValid(a) && PushAll([], a) == pre
    requires x.Num? && pre != [] ==> !pre[|pre| - 1].Num?
    ensures AllValid(a + Text(x)) && PushAll([], a + Text(x)) == pre + [x]
  {
    PushAllAppend([], a, Text(x));
    PushText(pre, x);
  }

  /** In a token list without adjacent number tokens, a last number token follows a token that
      is not a number. */
  lemma LastCanFollow(ts: seq<Token>)
    requires NoAdjacentNums(ts) && ts != []
    ensures var pre := ts[..|ts| - 1]; ts[|ts| - 1].Num? && pre != [] ==> !pre[|pre| - 1].Num?
  {
    if |ts| > 1 {
      assert ts[..|ts| - 1][|ts| - 2] == ts[|ts| - 2];
    }
  }

  /** Pushing the text of a token list in which no two number tokens touch gives it back. */
  lemma {:induction false} PushAllFlatten(ts: seq<Token>)
    requires NoAdjacentNums(ts)
    ensures AllValid(Flatten(ts)) && PushAll([], Flatten(ts)) == ts
  {
    if ts != [] {
      var pre, x := ts[..|ts| - 1], ts[|ts| - 1];
      PrefixNoAdjacent(ts, |ts| - 1);
      PushAllFlatten(pre);
      LastCanFollow(ts);
      PushAllNext(Flatten(pre), pre, x);
      FlattenButLast(ts);
      ButLastSnoc(ts);
    }
  }

  /** A prefix of a token list without adjacent number tokens has none either. */
  lemma PrefixNoAdjacent(ts: seq<Token>, n: nat)
    requires NoAdjacentNums(ts) && n <= |ts|
    ensures NoAdjacentNums(ts[..n])
  {
    forall k | 0 < k < n
      ensures !(ts[..n][k - 1].Num? && ts[..n][k].Num?)
    {
      assert ts[..n][k - 1] == ts[k - 1] && ts[..n][k] == ts[k];
    }
  }

  /**
   The tokenisation is the only split of the characters into number tokens and
   single-character tokens in which no two number tokens touch.
   */
  lemma LexUnique(t: string, ts: seq<Token>)
    requires Flatten(ts) == t && NoAdjacentNums(ts)
    ensures AllValid(t) && Lex(t) == ts
  {
    PushAllFlatten(ts);
    LexIsPushAll(t);
  }

  /** The tokenizer accepts a line exactly when its brackets balance, some non-space character
      remains, no operator stands first or last or next to another, and every character is valid. */
  lemma TokenizeAccepts(s: string)
    ensures Tokenize(s).Ok? <==>
      var t := RemoveSpaces(s);
      Balanced(s) && t != [] && !IsOpChar(t[0]) && !IsOpChar(t[|t| - 1]) && AllValid(t) &&
      forall k | 0 < k < |t| :: !(IsOpChar(t[k - 1]) && IsOpChar(t[k]))
    ensures Tokenize(s).Ok? ==> Flatten(Tokenize(s).value) == RemoveSpaces(s) && NoAdjacentNums(Tokenize(s).value)
  {
    var t := RemoveSpaces(s);
    if Balanced(s) && t != [] && !IsOpChar(t[0]) && !IsOpChar(t[|t| - 1]) {
      FaultIsFirstFault(t, 0);
      if Fault(t, 0) == None {
        forall j | 0 <= j < |t|
          ensures IsValidChar(t[j])
        {
          assert Fine(t, j);
        }
        forall k | 0 < k < |t|
          ensures !(IsOpChar(t[k - 1]) && IsOpChar(t[k]))
        {
          assert Fine(t, k);
        }
        LexFlatten(t);
        LexSeparated(t);
      } else {
        var j: nat :| FirstFaultAt(t, 0, j) && Fault(t, 0).value == FaultKind(t, j);
        assert !Fine(t, j);
        if j > 0 {
          assert !IsValidChar(t[j]) || (IsOpChar(t[j - 1]) && IsOpChar(t[j]));
        }
      }
    }
  }
}
