/**
 The vocabulary shared by the calculator's stages: characters, tokens, operators,
 the outcome of a stage, and the numeric value of a digit string.
 */
module Tokens {

  /** The ways a stage can fail. IndexError stands for the places where the code indexes or
      pops an empty list and the interpreter raises instead of reporting; NotANumber for a
      conversion to a number of a parenthesis, which raises as well. */
  datatype ErrorKind = BadBrackets | MisplacedOperator | InvalidCharacter | DivByZero | Malformed | IndexError | NotANumber

  datatype Result<T> = Ok(value: T) | Err(kind: ErrorKind)

  datatype Option<T> = None | Some(value: T)

  predicate IsDigit(c: char) { '0' <= c <= '9' }

  // Membership in the operator string of the source: plus, minus, times, divide.
  predicate IsOpChar(c: char) { c == '+' || c == '-' || c == '*' || c == '/' }

  // An operator character or a parenthesis.
  predicate IsSymbol(c: char) { IsOpChar(c) || c == '(' || c == ')' }

  /** A character the tokenizer accepts. */
  predicate IsValidChar(c: char) { IsDigit(c) || IsSymbol(c) }

  predicate AllDigits(s: string) { forall i | 0 <= i < |s| :: IsDigit(s[i]) }

  predicate AllValid(s: string) { forall i | 0 <= i < |s| :: IsValidChar(s[i]) }

  /** The text of a number token: a non-empty run of decimal digits. */
  type Digits = s: string | |s| > 0 && AllDigits(s) witness "0"

  datatype Operator = Add | Sub | Mul | Div

  datatype Token = Num(digits: Digits) | Op(op: Operator) | Open | Close

  function OpChar(o: Operator): (c: char)
    ensures IsOpChar(c)
  {
    match o
    case Add => '+'
    case Sub => '-'
    case Mul => '*'
    case Div => '/'
  }

  function CharOp(c: char): (o: Operator)
    requires IsOpChar(c)
    ensures OpChar(o) == c
  {
    if c == '+' then Add else if c == '-' then Sub else if c == '*' then Mul else Div
  }

  /** The characters a token stands for. */
  function Text(t: Token): (s: string)
    ensures |s| > 0 && AllValid(s)
    ensures IsDigit(s[0]) <==> t.Num?
    ensures IsOpChar(s[0]) <==> t.Op?
    ensures IsOpChar(s[|s| - 1]) <==> t.Op?
    ensures !t.Num? ==> |s| == 1
  {
    match t
    case Num(d) => d
    case Op(o) => [OpChar(o)]
    case Open => "("
    case Close => ")"
  }

  /** A string the tokenizer may hold in its `token` accumulator. */
  predicate IsTokenText(s: string)
  {
    (|s| > 0 && AllDigits(s)) || (|s| == 1 && IsSymbol(s[0]))
  }

  /** The token a piece of text stands for. */
  function TokenOf(s: string): (t: Token)
    requires IsTokenText(s)
    ensures Text(t) == s
  {
    if IsDigit(s[0]) then Num(s)
    else if s[0] == '(' then Open
    else if s[0] == ')' then Close
    else Op(CharOp(s[0]))
  }

  /** The concatenated text of a token list. */
  function Flatten(ts: seq<Token>): string
  {
    if ts == [] then [] else Text(ts[0]) + Flatten(ts[1..])
  }

  lemma {:induction false} FlattenAppend(a: seq<Token>, b: seq<Token>)
    ensures Flatten(a + b) == Flatten(a) + Flatten(b)
  {
    if a == [] {
      assert a + b == b;
    } else {
      assert (a + b)[1..] == a[1..] + b;
      FlattenAppend(a[1..], b);
    }
  }

  lemma ButLastSnoc<T>(s: seq<T>)
    requires s != []
    ensures s[..|s| - 1] + [s[|s| - 1]] == s
  {
  }

  lemma AppendButLast<T>(a: seq<T>, b: seq<T>)
    requires b != []
    ensures a + b == (a + b[..|b| - 1]) + [b[|b| - 1]]
  {
  }

  lemma Uncons<T>(s: seq<T>)
    requires s != []
    ensures s == [s[0]] + s[1..]
  {
  }

  predicate NoParens(ts: seq<Token>)
  {
    forall k | 0 <= k < |ts| :: ts[k].Num? || ts[k].Op?
  }

  function Reversed<T>(s: seq<T>): (r: seq<T>)
    ensures |r| == |s|
  {
    if s == [] then [] else Reversed(s[1..]) + [s[0]]
  }

  lemma {:induction false} ReversedAt<T>(s: seq<T>, k: nat)
    requires k < |s|
    ensures Reversed(s)[k] == s[|s| - 1 - k]
  {
    if k < |s| - 1 {
      ReversedAt(s[1..], k);
    }
  }

  lemma {:induction false} ReversedAppend<T>(a: seq<T>, b: seq<T>)
    ensures Reversed(a + b) == Reversed(b) + Reversed(a)
  {
    if a == [] {
      assert a + b == b;
    } else {
      assert (a + b)[1..] == a[1..] + b;
      ReversedAppend(a[1..], b);
    }
  }

  function DigitValue(c: char): nat
    requires IsDigit(c)
  {
    (c as int - '0' as int) as nat
  }

  /** The value of a decimal digit string, most significant digit first. */
  function DigitsValue(s: string): nat
    requires AllDigits(s)
  {
    if s == [] then 0 else 10 * DigitsValue(s[..|s| - 1]) + DigitValue(s[|s| - 1])
  }
}
