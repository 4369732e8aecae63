/** The conversions shown in the documentation of `infix_to_postfix`, one lemma each. The longer
    inputs are written as concatenations of short pieces, each piece run in a lemma of its own. */
module ConverterExamples {
  import opened Tokens
  import opened Converter

  /** The number tokens of the example lines. */
  const N1: Token := Num("1")
  const N2: Token := Num("2")
  const N4: Token := Num("4")
  const N5: Token := Num("5")
  const N8: Token := Num("8")
  const N9: Token := Num("9")
  const N12: Token := Num("12")
  const N15: Token := Num("15")
  const N20: Token := Num("20")
  const N25: Token := Num("25")
  const N120: Token := Num("120")

  /** Running a from s0 to s1 and then b from s1 to s2 runs a + b from s0 to s2. */
  lemma RunThen(a: seq<Token>, b: seq<Token>, s0: State, s1: State, s2: State)
    requires Run(a, s0) == Ok(s1) && Run(b, s1) == Ok(s2)
    ensures Run(a + b, s0) == Ok(s2)
  {
    RunAppend(a, b, s0);
  }

  /** A run that leaves one operator on the stack gives the output followed by that operator. */
  lemma PostfixOne(ts: seq<Token>, out: seq<Token>, o: Token, r: seq<Token>)
    requires Run(ts, State([], [])) == Ok(State([o], out)) && r == out + [o]
    ensures Postfix(ts) == Ok(r)
  {
    assert [o][1..] == [];
    assert Reversed([o]) == [o];
  }

  /** Two runs one after the other that leave one operator on the stack. */
  lemma PostfixChain(a: seq<Token>, b: seq<Token>, s1: State, o: Token, out: seq<Token>, r: seq<Token>)
    requires Run(a, State([], [])) == Ok(s1) && Run(b, s1) == Ok(State([o], out)) && r == out + [o]
    ensures Postfix(a + b) == Ok(r)
  {
    RunThen(a, b, State([], []), s1, State([o], out));
    PostfixOne(a + b, out, o, r);
  }

  // Steps of InfixToPostfixExample1, one short piece per lemma so that each proof stays small.
  lemma InfixToPostfixExample1Part1()
    ensures Run([N5, Op(Mul), Open, N15], State([], []))
      == Ok(State([Op(Mul), Open], [N5, N15]))
  {
    assert [N5, Op(Mul), Open, N15][1..] == [Op(Mul), Open, N15];
    assert [] + [N5] == [N5];
    assert Step(N5, State([], [])) == Ok(State([], [N5]));
    assert Run([N5, Op(Mul), Open, N15], State([], [])) == Run([Op(Mul), Open, N15], State([], [N5]));
    assert [Op(Mul), Open, N15][1..] == [Open, N15];
    assert [] + [Op(Mul)] == [Op(Mul)];
    assert Step(Op(Mul), State([], [N5])) == Ok(State([Op(Mul)], [N5]));
    assert Run([Op(Mul), Open, N15], State([], [N5])) == Run([Open, N15], State([Op(Mul)], [N5]));
    assert [Open, N15][1..] == [N15];
    assert [Op(Mul)] + [Open] == [Op(Mul), Open];
    assert Step(Open, State([Op(Mul)], [N5])) == Ok(State([Op(Mul), Open], [N5]));
    assert Run([Open, N15], State([Op(Mul)], [N5])) == Run([N15], State([Op(Mul), Open], [N5]));
    assert [N15][1..] == [];
    assert [N5] + [N15] == [N5, N15];
    assert Step(N15, State([Op(Mul), Open], [N5])) == Ok(State([Op(Mul), Open], [N5, N15]));
    assert Run([N15], State([Op(Mul), Open], [N5])) == Run([], State([Op(Mul), Open], [N5, N15]));
  }

  lemma InfixToPostfixExample1Part2()
    ensures Run([Op(Add), N25, Close], State([Op(Mul), Open], [N5, N15]))
      == Ok(State([Op(Mul)], [N5, N15, N25, Op(Add)]))
  {
    assert [Op(Add), N25, Close][1..] == [N25, Close];
    assert [Op(Mul), Open] + [Op(Add)] == [Op(Mul), Open, Op(Add)];
    assert Step(Op(Add), State([Op(Mul), Open], [N5, N15])) == Ok(State([Op(Mul), Open, Op(Add)], [N5, N15]));
    assert Run([Op(Add), N25, Close], State([Op(Mul), Open], [N5, N15])) == Run([N25, Close], State([Op(Mul), Open, Op(Add)], [N5, N15]));
    assert [N25, Close][1..] == [Close];
    assert [N5, N15] + [N25] == [N5, N15, N25];
    assert Step(N25, State([Op(Mul), Open, Op(Add)], [N5, N15])) == Ok(State([Op(Mul), Open, Op(Add)], [N5, N15, N25]));
    assert Run([N25, Close], State([Op(Mul), Open, Op(Add)], [N5, N15])) == Run([Close], State([Op(Mul), Open, Op(Add)], [N5, N15, N25]));
    assert [Close][1..] == [];
    assert [Op(Mul), Open, Op(Add)][..2] == [Op(Mul), Open];
    assert [N5, N15, N25] + [Op(Add)] == [N5, N15, N25, Op(Add)];
    assert PopToOpen(State([Op(Mul), Open, Op(Add)], [N5, N15, N25])) == PopToOpen(State([Op(Mul), Open], [N5, N15, N25, Op(Add)]));
    assert [Op(Mul), Open][..1] == [Op(Mul)];
    assert Step(Close, State([Op(Mul), Open, Op(Add)], [N5, N15, N25])) == Ok(State([Op(Mul)], [N5, N15, N25, Op(Add)]));
    assert Run([Close], State([Op(Mul), Open, Op(Add)], [N5, N15, N25])) == Run([], State([Op(Mul)], [N5, N15, N25, Op(Add)]));
  }

  /** `5 * (15 + 25)` becomes `5 15 25 + *`. */
  lemma InfixToPostfixExample1()
    ensures Postfix([N5, Op(Mul), Open, N15] + [Op(Add), N25, Close])
      == Ok([N5, N15, N25, Op(Add), Op(Mul)])
  {
    var a, b := [N5, Op(Mul), Open, N15], [Op(Add), N25, Close];
    var s1 := State([Op(Mul), Open], [N5, N15]);
    InfixToPostfixExample1Part1();
    InfixToPostfixExample1Part2();
    RunThen(a, b, State([], []), s1, State([Op(Mul)], [N5, N15, N25, Op(Add)]));
    PostfixOne(a + b, [N5, N15, N25, Op(Add)], Op(Mul), [N5, N15, N25, Op(Add), Op(Mul)]);
  }

  // Steps of InfixToPostfixExample2, one short piece per lemma so that each proof stays small.
  lemma InfixToPostfixExample2Part1()
    ensures Run([Open, N5, Op(Add), N15], State([], []))
      == Ok(State([Open, Op(Add)], [N5, N15]))
  {
    assert [Open, N5, Op(Add), N15][1..] == [N5, Op(Add), N15];
    assert [] + [Open] == [Open];
    assert Step(Open, State([], [])) == Ok(State([Open], []));
    assert Run([Open, N5, Op(Add), N15], State([], [])) == Run([N5, Op(Add), N15], State([Open], []));
    assert [N5, Op(Add), N15][1..] == [Op(Add), N15];
    assert [] + [N5] == [N5];
    assert Step(N5, State([Open], [])) == Ok(State([Open], [N5]));
    assert Run([N5, Op(Add), N15], State([Open], [])) == Run([Op(Add), N15], State([Open], [N5]));
    assert [Op(Add), N15][1..] == [N15];
    assert [Open] + [Op(Add)] == [Open, Op(Add)];
    assert Step(Op(Add), State([Open], [N5])) == Ok(State([Open, Op(Add)], [N5]));
    assert Run([Op(Add), N15], State([Open], [N5])) == Run([N15], State([Open, Op(Add)], [N5]));
    assert [N15][1..] == [];
    assert [N5] + [N15] == [N5, N15];
    assert Step(N15, State([Open, Op(Add)], [N5])) == Ok(State([Open, Op(Add)], [N5, N15]));
    assert Run([N15], State([Open, Op(Add)], [N5])) == Run([], State([Open, Op(Add)], [N5, N15]));
  }

  lemma InfixToPostfixExample2Part2()
    ensures Run([Close, Op(Mul), N2], State([Open, Op(Add)], [N5, N15]))
      == Ok(State([Op(Mul)], [N5, N15, Op(Add), N2]))
  {
    assert [Close, Op(Mul), N2][1..] == [Op(Mul), N2];
    assert [Open, Op(Add)][..1] == [Open];
    assert [N5, N15] + [Op(Add)] == [N5, N15, Op(Add)];
    assert PopToOpen(State([Open, Op(Add)], [N5, N15])) == PopToOpen(State([Open], [N5, N15, Op(Add)]));
    assert [Open][..0] == [];
    assert Step(Close, State([Open, Op(Add)], [N5, N15])) == Ok(State([], [N5, N15, Op(Add)]));
    assert Run([Close, Op(Mul), N2], State([Open, Op(Add)], [N5, N15])) == Run([Op(Mul), N2], State([], [N5, N15, Op(Add)]));
    assert [Op(Mul), N2][1..] == [N2];
    assert [] + [Op(Mul)] == [Op(Mul)];
    assert Step(Op(Mul), State([], [N5, N15, Op(Add)])) == Ok(State([Op(Mul)], [N5, N15, Op(Add)]));
    assert Run([Op(Mul), N2], State([], [N5, N15, Op(Add)])) == Run([N2], State([Op(Mul)], [N5, N15, Op(Add)]));
    assert [N2][1..] == [];
    assert [N5, N15, Op(Add)] + [N2] == [N5, N15, Op(Add), N2];
    assert Step(N2, State([Op(Mul)], [N5, N15, Op(Add)])) == Ok(State([Op(Mul)], [N5, N15, Op(Add), N2]));
    assert Run([N2], State([Op(Mul)], [N5, N15, Op(Add)])) == Run([], State([Op(Mul)], [N5, N15, Op(Add), N2]));
  }

  /** `(5 + 15) * 2` becomes `5 15 + 2 *`. */
  lemma InfixToPostfixExample2()
    ensures Postfix([Open, N5, Op(Add), N15] + [Close, Op(Mul), N2])
      == Ok([N5, N15, Op(Add), N2, Op(Mul)])
  {
    var a, b := [Open, N5, Op(Add), N15], [Close, Op(Mul), N2];
    var s1 := State([Open, Op(Add)], [N5, N15]);
    InfixToPostfixExample2Part1();
    InfixToPostfixExample2Part2();
    RunThen(a, b, State([], []), s1, State([Op(Mul)], [N5, N15, Op(Add), N2]));
    PostfixOne(a + b, [N5, N15, Op(Add), N2], Op(Mul), [N5, N15, Op(Add), N2, Op(Mul)]);
  }

  // Steps of InfixToPostfixExample3, one short piece per lemma so that each proof stays small.
  lemma InfixToPostfixExample3Part1()
    ensures Run([Open, N5, Op(Mul), Open], State([], []))
      == Ok(State([Open, Op(Mul), Open], [N5]))
  {
    assert [Open, N5, Op(Mul), Open][1..] == [N5, Op(Mul), Open];
    assert [] + [Open] == [Open];
    assert Step(Open, State([], [])) == Ok(State([Open], []));
    assert Run([Open, N5, Op(Mul), Open], State([], [])) == Run([N5, Op(Mul), Open], State([Open], []));
    assert [N5, Op(Mul), Open][1..] == [Op(Mul), Open];
    assert [] + [N5] == [N5];
    assert Step(N5, State([Open], [])) == Ok(State([Open], [N5]));
    assert Run([N5, Op(Mul), Open], State([Open], [])) == Run([Op(Mul), Open], State([Open], [N5]));
    assert [Op(Mul), Open][1..] == [Open];
    assert [Open] + [Op(Mul)] == [Open, Op(Mul)];
    assert Step(Op(Mul), State([Open], [N5])) == Ok(State([Open, Op(Mul)], [N5]));
    assert Run([Op(Mul), Open], State([Open], [N5])) == Run([Open], State([Open, Op(Mul)], [N5]));
    assert [Open][1..] == [];
    assert [Open, Op(Mul)] + [Open] == [Open, Op(Mul), Open];
    assert Step(Open, State([Open, Op(Mul)], [N5])) == Ok(State([Open, Op(Mul), Open], [N5]));
    assert Run([Open], State([Open, Op(Mul)], [N5])) == Run([], State([Open, Op(Mul), Open], [N5]));
  }

  lemma InfixToPostfixExample3Part2()
    ensures Run([N15, Op(Add), N25, Close], State([Open, Op(Mul), Open], [N5]))
      == Ok(State([Open, Op(Mul)], [N5, N15, N25, Op(Add)]))
  {
    assert [N15, Op(Add), N25, Close][1..] == [Op(Add), N25, Close];
    assert [N5] + [N15] == [N5, N15];
    assert Step(N15, State([Open, Op(Mul), Open], [N5])) == Ok(State([Open, Op(Mul), Open], [N5, N15]));
    assert Run([N15, Op(Add), N25, Close], State([Open, Op(Mul), Open], [N5])) == Run([Op(Add), N25, Close], State([Open, Op(Mul), Open], [N5, N15]));
    assert [Op(Add), N25, Close][1..] == [N25, Close];
    assert [Open, Op(Mul), Open] + [Op(Add)] == [Open, Op(Mul), Open, Op(Add)];
    assert Step(Op(Add), State([Open, Op(Mul), Open], [N5, N15])) == Ok(State([Open, Op(Mul), Open, Op(Add)], [N5, N15]));
    assert Run([Op(Add), N25, Close], State([Open, Op(Mul), Open], [N5, N15])) == Run([N25, Close], State([Open, Op(Mul), Open, Op(Add)], [N5, N15]));
    assert [N25, Close][1..] == [Close];
    assert [N5, N15] + [N25] == [N5, N15, N25];
    assert Step(N25, State([Open, Op(Mul), Open, Op(Add)], [N5, N15])) == Ok(State([Open, Op(Mul), Open, Op(Add)], [N5, N15, N25]));
    assert Run([N25, Close], State([Open, Op(Mul), Open, Op(Add)], [N5, N15])) == Run([Close], State([Open, Op(Mul), Open, Op(Add)], [N5, N15, N25]));
    assert [Close][1..] == [];
    assert [Open, Op(Mul), Open, Op(Add)][..3] == [Open, Op(Mul), Open];
    assert [N5, N15, N25] + [Op(Add)] == [N5, N15, N25, Op(Add)];
    assert PopToOpen(State([Open, Op(Mul), Open, Op(Add)], [N5, N15, N25])) == PopToOpen(State([Open, Op(Mul), Open], [N5, N15, N25, Op(Add)]));
    assert [Open, Op(Mul), Open][..2] == [Open, Op(Mul)];
    assert Step(Close, State([Open, Op(Mul), Open, Op(Add)], [N5, N15, N25])) == Ok(State([Open, Op(Mul)], [N5, N15, N25, Op(Add)]));
    assert Run([Close], State([Open, Op(Mul), Open, Op(Add)], [N5, N15, N25])) == Run([], State([Open, Op(Mul)], [N5, N15, N25, Op(Add)]));
  }

  lemma InfixToPostfixExample3Part3()
    ensures Run([Op(Sub), Open, N120, Op(Sub)], State([Open, Op(Mul)], [N5, N15, N25, Op(Add)]))
      == Ok(State([Open, Op(Sub), Open, Op(Sub)], [N5, N15, N25, Op(Add), Op(Mul), N120]))
  {
    assert [Op(Sub), Open, N120, Op(Sub)][1..] == [Open, N120, Op(Sub)];
    assert [Open, Op(Mul)][..1] == [Open];
    assert [N5, N15, N25, Op(Add)] + [Op(Mul)] == [N5, N15, N25, Op(Add), Op(Mul)];
    assert PopFor(Sub, State([Open, Op(Mul)], [N5, N15, N25, Op(Add)])) == PopFor(Sub, State([Open], [N5, N15, N25, Op(Add), Op(Mul)]));
    assert [Open] + [Op(Sub)] == [Open, Op(Sub)];
    assert Step(Op(Sub), State([Open, Op(Mul)], [N5, N15, N25, Op(Add)])) == Ok(State([Open, Op(Sub)], [N5, N15, N25, Op(Add), Op(Mul)]));
    assert Run([Op(Sub), Open, N120, Op(Sub)], State([Open, Op(Mul)], [N5, N15, N25, Op(Add)])) == Run([Open, N120, Op(Sub)], State([Open, Op(Sub)], [N5, N15, N25, Op(Add), Op(Mul)]));
    assert [Open, N120, Op(Sub)][1..] == [N120, Op(Sub)];
    assert [Open, Op(Sub)] + [Open] == [Open, Op(Sub), Open];
    assert Step(Open, State([Open, Op(Sub)], [N5, N15, N25, Op(Add), Op(Mul)])) == Ok(State([Open, Op(Sub), Open], [N5, N15, N25, Op(Add), Op(Mul)]));
    assert Run([Open, N120, Op(Sub)], State([Open, Op(Sub)], [N5, N15, N25, Op(Add), Op(Mul)])) == Run([N120, Op(Sub)], State([Open, Op(Sub), Open], [N5, N15, N25, Op(Add), Op(Mul)]));
    assert [N120, Op(Sub)][1..] == [Op(Sub)];
    assert [N5, N15, N25, Op(Add), Op(Mul)] + [N120] == [N5, N15, N25, Op(Add), Op(Mul), N120];
    assert Step(N120, State([Open, Op(Sub), Open], [N5, N15, N25, Op(Add), Op(Mul)])) == Ok(State([Open, Op(Sub), Open], [N5, N15, N25, Op(Add), Op(Mul), N120]));
    assert Run([N120, Op(Sub)], State([Open, Op(Sub), Open], [N5, N15, N25, Op(Add), Op(Mul)])) == Run([Op(Sub)], State([Open, Op(Sub), Open], [N5, N15, N25, Op(Add), Op(Mul), N120]));
    assert [Op(Sub)][1..] == [];
    assert [Open, Op(Sub), Open] + [Op(Sub)] == [Open, Op(Sub), Open, Op(Sub)];
    assert Step(Op(Sub), State([Open, Op(Sub), Open], [N5, N15, N25, Op(Add), Op(Mul), N120])) == Ok(State([Open, Op(Sub), Open, Op(Sub)], [N5, N15, N25, Op(Add), Op(Mul), N120]));
    assert Run([Op(Sub)], State([Open, Op(Sub), Open], [N5, N15, N25, Op(Add), Op(Mul), N120])) == Run([], State([Open, Op(Sub), Open, Op(Sub)], [N5, N15, N25, Op(Add), Op(Mul), N120]));
  }

  lemma InfixToPostfixExample3Part4()
    ensures Run([N20, Close, Close, Op(Div)], State([Open, Op(Sub), Open, Op(Sub)], [N5, N15, N25, Op(Add), Op(Mul), N120]))
      == Ok(State([Op(Div)], [N5, N15, N25, Op(Add), Op(Mul), N120, N20, Op(Sub), Op(Sub)]))
  {
    assert [N20, Close, Close, Op(Div)][1..] == [Close, Close, Op(Div)];
    assert [N5, N15, N25, Op(Add), Op(Mul), N120] + [N20] == [N5, N15, N25, Op(Add), Op(Mul), N120, N20];
    assert Step(N20, State([Open, Op(Sub), Open, Op(Sub)], [N5, N15, N25, Op(Add), Op(Mul), N120])) == Ok(State([Open, Op(Sub), Open, Op(Sub)], [N5, N15, N25, Op(Add), Op(Mul), N120, N20]));
    assert Run([N20, Close, Close, Op(Div)], State([Open, Op(Sub), Open, Op(Sub)], [N5, N15, N25, Op(Add), Op(Mul), N120])) == Run([Close, Close, Op(Div)], State([Open, Op(Sub), Open, Op(Sub)], [N5, N15, N25, Op(Add), Op(Mul), N120, N20]));
    assert [Close, Close, Op(Div)][1..] == [Close, Op(Div)];
    assert [Open, Op(Sub), Open, Op(Sub)][..3] == [Open, Op(Sub), Open];
    assert [N5, N15, N25, Op(Add), Op(Mul), N120, N20] + [Op(Sub)] == [N5, N15, N25, Op(Add), Op(Mul), N120, N20, Op(Sub)];
    assert PopToOpen(State([Open, Op(Sub), Open, Op(Sub)], [N5, N15, N25, Op(Add), Op(Mul), N120, N20])) == PopToOpen(State([Open, Op(Sub), Open], [N5, N15, N25, Op(Add), Op(Mul), N120, N20, Op(Sub)]));
    assert [Open, Op(Sub), Open][..2] == [Open, Op(Sub)];
    assert Step(Close, State([Open, Op(Sub), Open, Op(Sub)], [N5, N15, N25, Op(Add), Op(Mul), N120, N20])) == Ok(State([Open, Op(Sub)], [N5, N15, N25, Op(Add), Op(Mul), N120, N20, Op(Sub)]));
    assert Run([Close, Close, Op(Div)], State([Open, Op(Sub), Open, Op(Sub)], [N5, N15, N25, Op(Add), Op(Mul), N120, N20])) == Run([Close, Op(Div)], State([Open, Op(Sub)], [N5, N15, N25, Op(Add), Op(Mul), N120, N20, Op(Sub)]));
    assert [Close, Op(Div)][1..] == [Op(Div)];
    assert [Open, Op(Sub)][..1] == [Open];
    assert [N5, N15, N25, Op(Add), Op(Mul), N120, N20, Op(Sub)] + [Op(Sub)] == [N5, N15, N25, Op(Add), Op(Mul), N120, N20, Op(Sub), Op(Sub)];
    assert PopToOpen(State([Open, Op(Sub)], [N5, N15, N25, Op(Add), Op(Mul), N120, N20, Op(Sub)])) == PopToOpen(State([Open], [N5, N15, N25, Op(Add), Op(Mul), N120, N20, Op(Sub), Op(Sub)]));
    assert [Open][..0] == [];
    assert Step(Close, State([Open, Op(Sub)], [N5, N15, N25, Op(Add), Op(Mul), N120, N20, Op(Sub)])) == Ok(State([], [N5, N15, N25, Op(Add), Op(Mul), N120, N20, Op(Sub), Op(Sub)]));
    assert Run([Close, Op(Div)], State([Open, Op(Sub)], [N5, N15, N25, Op(Add), Op(Mul), N120, N20, Op(Sub)])) == Run([Op(Div)], State([], [N5, N15, N25, Op(Add), Op(Mul), N120, N20, Op(Sub), Op(Sub)]));
    assert [Op(Div)][1..] == [];
    assert [] + [Op(Div)] == [Op(Div)];
    assert Step(Op(Div), State([], [N5, N15, N25, Op(Add), Op(Mul), N120, N20, Op(Sub), Op(Sub)])) == Ok(State([Op(Div)], [N5, N15, N25, Op(Add), Op(Mul), N120, N20, Op(Sub), Op(Sub)]));
    assert Run([Op(Div)], State([], [N5, N15, N25, Op(Add), Op(Mul), N120, N20, Op(Sub), Op(Sub)])) == Run([], State([Op(Div)], [N5, N15, N25, Op(Add), Op(Mul), N120, N20, Op(Sub), Op(Sub)]));
  }

  lemma InfixToPostfixExample3Part5()
    ensures Run([N25], State([Op(Div)], [N5, N15, N25, Op(Add), Op(Mul), N120, N20, Op(Sub), Op(Sub)]))
      == Ok(State([Op(Div)], [N5, N15, N25, Op(Add), Op(Mul), N120, N20, Op(Sub), Op(Sub), N25]))
  {
    assert [N25][1..] == [];
    assert [N5, N15, N25, Op(Add), Op(Mul), N120, N20, Op(Sub), Op(Sub)] + [N25] == [N5, N15, N25, Op(Add), Op(Mul), N120, N20, Op(Sub), Op(Sub), N25];
    assert Step(N25, State([Op(Div)], [N5, N15, N25, Op(Add), Op(Mul), N120, N20, Op(Sub), Op(Sub)])) == Ok(State([Op(Div)], [N5, N15, N25, Op(Add), Op(Mul), N120, N20, Op(Sub), Op(Sub), N25]));
    assert Run([N25], State([Op(Div)], [N5, N15, N25, Op(Add), Op(Mul), N120, N20, Op(Sub), Op(Sub)])) == Run([], State([Op(Div)], [N5, N15, N25, Op(Add), Op(Mul), N120, N20, Op(Sub), Op(Sub), N25]));
  }

  lemma InfixToPostfixExample3Front()
    ensures Run([Open, N5, Op(Mul), Open] + [N15, Op(Add), N25, Close], State([], [])) == Ok(State([Open, Op(Mul)], [N5, N15, N25, Op(Add)]))
  {
    InfixToPostfixExample3Part1();
    InfixToPostfixExample3Part2();
    RunThen([Open, N5, Op(Mul), Open], [N15, Op(Add), N25, Close], State([], []), State([Open, Op(Mul), Open], [N5]), State([Open, Op(Mul)], [N5, N15, N25, Op(Add)]));
  }

  lemma InfixToPostfixExample3Middle()
    ensures Run([Op(Sub), Open, N120, Op(Sub)] + [N20, Close, Close, Op(Div)], State([Open, Op(Mul)], [N5, N15, N25, Op(Add)])) == Ok(State([Op(Div)], [N5, N15, N25, Op(Add), Op(Mul), N120, N20, Op(Sub), Op(Sub)]))
  {
    InfixToPostfixExample3Part3();
    InfixToPostfixExample3Part4();
    RunThen([Op(Sub), Open, N120, Op(Sub)], [N20, Close, Close, Op(Div)], State([Open, Op(Mul)], [N5, N15, N25, Op(Add)]), State([Open, Op(Sub), Open, Op(Sub)], [N5, N15, N25, Op(Add), Op(Mul), N120]), State([Op(Div)], [N5, N15, N25, Op(Add), Op(Mul), N120, N20, Op(Sub), Op(Sub)]));
  }

  lemma InfixToPostfixExample3Back()
    ensures Run([Op(Sub), Open, N120, Op(Sub)] + [N20, Close, Close, Op(Div)] + [N25], State([Open, Op(Mul)], [N5, N15, N25, Op(Add)])) == Ok(State([Op(Div)], [N5, N15, N25, Op(Add), Op(Mul), N120, N20, Op(Sub), Op(Sub), N25]))
  {
    InfixToPostfixExample3Middle();
    InfixToPostfixExample3Part5();
    RunThen([Op(Sub), Open, N120, Op(Sub)] + [N20, Close, Close, Op(Div)], [N25], State([Open, Op(Mul)], [N5, N15, N25, Op(Add)]), State([Op(Div)], [N5, N15, N25, Op(Add), Op(Mul), N120, N20, Op(Sub), Op(Sub)]), State([Op(Div)], [N5, N15, N25, Op(Add), Op(Mul), N120, N20, Op(Sub), Op(Sub), N25]));
  }

  /** `(5 * (15 + 25) - (120 - 20)) / 25` becomes `5 15 25 + * 120 20 - - 25 /`. */
  lemma InfixToPostfixExample3()
    ensures Postfix([Open, N5, Op(Mul), Open] + [N15, Op(Add), N25, Close] + [Op(Sub), Open, N120, Op(Sub)] + [N20, Close, Close, Op(Div)] + [N25])
      == Ok([N5, N15, N25, Op(Add), Op(Mul), N120, N20, Op(Sub), Op(Sub), N25, Op(Div)])
  {
    InfixToPostfixExample3Front();
    InfixToPostfixExample3Back();
    SeqAssoc([Open, N5, Op(Mul), Open] + [N15, Op(Add), N25, Close], [Op(Sub), Open, N120, Op(Sub)], [N20, Close, Close, Op(Div)]);
    SeqAssoc([Open, N5, Op(Mul), Open] + [N15, Op(Add), N25, Close], [Op(Sub), Open, N120, Op(Sub)] + [N20, Close, Close, Op(Div)], [N25]);
    PostfixChain([Open, N5, Op(Mul), Open] + [N15, Op(Add), N25, Close], [Op(Sub), Open, N120, Op(Sub)] + [N20, Close, Close, Op(Div)] + [N25], State([Open, Op(Mul)], [N5, N15, N25, Op(Add)]), Op(Div), [N5, N15, N25, Op(Add), Op(Mul), N120, N20, Op(Sub), Op(Sub), N25], [N5, N15, N25, Op(Add), Op(Mul), N120, N20, Op(Sub), Op(Sub), N25, Op(Div)]);
  }

  // Steps of InfixToPostfixExample4, one short piece per lemma so that each proof stays small.
  lemma InfixToPostfixExample4Part1()
    ensures Run([Open, N2, Op(Mul), N15], State([], []))
      == Ok(State([Open, Op(Mul)], [N2, N15]))
  {
    assert [Open, N2, Op(Mul), N15][1..] == [N2, Op(Mul), N15];
    assert [] + [Open] == [Open];
    assert Step(Open, State([], [])) == Ok(State([Open], []));
    assert Run([Open, N2, Op(Mul), N15], State([], [])) == Run([N2, Op(Mul), N15], State([Open], []));
    assert [N2, Op(Mul), N15][1..] == [Op(Mul), N15];
    assert [] + [N2] == [N2];
    assert Step(N2, State([Open], [])) == Ok(State([Open], [N2]));
    assert Run([N2, Op(Mul), N15], State([Open], [])) == Run([Op(Mul), N15], State([Open], [N2]));
    assert [Op(Mul), N15][1..] == [N15];
    assert [Open] + [Op(Mul)] == [Open, Op(Mul)];
    assert Step(Op(Mul), State([Open], [N2])) == Ok(State([Open, Op(Mul)], [N2]));
    assert Run([Op(Mul), N15], State([Open], [N2])) == Run([N15], State([Open, Op(Mul)], [N2]));
    assert [N15][1..] == [];
    assert [N2] + [N15] == [N2, N15];
    assert Step(N15, State([Open, Op(Mul)], [N2])) == Ok(State([Open, Op(Mul)], [N2, N15]));
    assert Run([N15], State([Open, Op(Mul)], [N2])) == Run([], State([Open, Op(Mul)], [N2, N15]));
  }

  lemma InfixToPostfixExample4Part2()
    ensures Run([Op(Add), N20, Close, Op(Div)], State([Open, Op(Mul)], [N2, N15]))
      == Ok(State([Op(Div)], [N2, N15, Op(Mul), N20, Op(Add)]))
  {
    assert [Op(Add), N20, Close, Op(Div)][1..] == [N20, Close, Op(Div)];
    assert [Open, Op(Mul)][..1] == [Open];
    assert [N2, N15] + [Op(Mul)] == [N2, N15, Op(Mul)];
    assert PopFor(Add, State([Open, Op(Mul)], [N2, N15])) == PopFor(Add, State([Open], [N2, N15, Op(Mul)]));
    assert [Open] + [Op(Add)] == [Open, Op(Add)];
    assert Step(Op(Add), State([Open, Op(Mul)], [N2, N15])) == Ok(State([Open, Op(Add)], [N2, N15, Op(Mul)]));
    assert Run([Op(Add), N20, Close, Op(Div)], State([Open, Op(Mul)], [N2, N15])) == Run([N20, Close, Op(Div)], State([Open, Op(Add)], [N2, N15, Op(Mul)]));
    assert [N20, Close, Op(Div)][1..] == [Close, Op(Div)];
    assert [N2, N15, Op(Mul)] + [N20] == [N2, N15, Op(Mul), N20];
    assert Step(N20, State([Open, Op(Add)], [N2, N15, Op(Mul)])) == Ok(State([Open, Op(Add)], [N2, N15, Op(Mul), N20]));
    assert Run([N20, Close, Op(Div)], State([Open, Op(Add)], [N2, N15, Op(Mul)])) == Run([Close, Op(Div)], State([Open, Op(Add)], [N2, N15, Op(Mul), N20]));
    assert [Close, Op(Div)][1..] == [Op(Div)];
    assert [Open, Op(Add)][..1] == [Open];
    assert [N2, N15, Op(Mul), N20] + [Op(Add)] == [N2, N15, Op(Mul), N20, Op(Add)];
    assert PopToOpen(State([Open, Op(Add)], [N2, N15, Op(Mul), N20])) == PopToOpen(State([Open], [N2, N15, Op(Mul), N20, Op(Add)]));
    assert [Open][..0] == [];
    assert Step(Close, State([Open, Op(Add)], [N2, N15, Op(Mul), N20])) == Ok(State([], [N2, N15, Op(Mul), N20, Op(Add)]));
    assert Run([Close, Op(Div)], State([Open, Op(Add)], [N2, N15, Op(Mul), N20])) == Run([Op(Div)], State([], [N2, N15, Op(Mul), N20, Op(Add)]));
    assert [Op(Div)][1..] == [];
    assert [] + [Op(Div)] == [Op(Div)];
    assert Step(Op(Div), State([], [N2, N15, Op(Mul), N20, Op(Add)])) == Ok(State([Op(Div)], [N2, N15, Op(Mul), N20, Op(Add)]));
    assert Run([Op(Div)], State([], [N2, N15, Op(Mul), N20, Op(Add)])) == Run([], State([Op(Div)], [N2, N15, Op(Mul), N20, Op(Add)]));
  }

  lemma InfixToPostfixExample4Part3()
    ensures Run([Open, N12, Op(Add), N2], State([Op(Div)], [N2, N15, Op(Mul), N20, Op(Add)]))
      == Ok(State([Op(Div), Open, Op(Add)], [N2, N15, Op(Mul), N20, Op(Add), N12, N2]))
  {
    assert [Open, N12, Op(Add), N2][1..] == [N12, Op(Add), N2];
    assert [Op(Div)] + [Open] == [Op(Div), Open];
    assert Step(Open, State([Op(Div)], [N2, N15, Op(Mul), N20, Op(Add)])) == Ok(State([Op(Div), Open], [N2, N15, Op(Mul), N20, Op(Add)]));
    assert Run([Open, N12, Op(Add), N2], State([Op(Div)], [N2, N15, Op(Mul), N20, Op(Add)])) == Run([N12, Op(Add), N2], State([Op(Div), Open], [N2, N15, Op(Mul), N20, Op(Add)]));
    assert [N12, Op(Add), N2][1..] == [Op(Add), N2];
    assert [N2, N15, Op(Mul), N20, Op(Add)] + [N12] == [N2, N15, Op(Mul), N20, Op(Add), N12];
    assert Step(N12, State([Op(Div), Open], [N2, N15, Op(Mul), N20, Op(Add)])) == Ok(State([Op(Div), Open], [N2, N15, Op(Mul), N20, Op(Add), N12]));
    assert Run([N12, Op(Add), N2], State([Op(Div), Open], [N2, N15, Op(Mul), N20, Op(Add)])) == Run([Op(Add), N2], State([Op(Div), Open], [N2, N15, Op(Mul), N20, Op(Add), N12]));
    assert [Op(Add), N2][1..] == [N2];
    assert [Op(Div), Open] + [Op(Add)] == [Op(Div), Open, Op(Add)];
    assert Step(Op(Add), State([Op(Div), Open], [N2, N15, Op(Mul), N20, Op(Add), N12])) == Ok(State([Op(Div), Open, Op(Add)], [N2, N15, Op(Mul), N20, Op(Add), N12]));
    assert Run([Op(Add), N2], State([Op(Div), Open], [N2, N15, Op(Mul), N20, Op(Add), N12])) == Run([N2], State([Op(Div), Open, Op(Add)], [N2, N15, Op(Mul), N20, Op(Add), N12]));
    assert [N2][1..] == [];
    assert [N2, N15, Op(Mul), N20, Op(Add), N12] + [N2] == [N2, N15, Op(Mul), N20, Op(Add), N12, N2];
    assert Step(N2, State([Op(Div), Open, Op(Add)], [N2, N15, Op(Mul), N20, Op(Add), N12])) == Ok(State([Op(Div), Open, Op(Add)], [N2, N15, Op(Mul), N20, Op(Add), N12, N2]));
    assert Run([N2], State([Op(Div), Open, Op(Add)], [N2, N15, Op(Mul), N20, Op(Add), N12])) == Run([], State([Op(Div), Open, Op(Add)], [N2, N15, Op(Mul), N20, Op(Add), N12, N2]));
  }

  lemma InfixToPostfixExample4Part4()
    ensures Run([Op(Sub), N9, Close], State([Op(Div), Open, Op(Add)], [N2, N15, Op(Mul), N20, Op(Add), N12, N2]))
      == Ok(State([Op(Div)], [N2, N15, Op(Mul), N20, Op(Add), N12, N2, N9, Op(Sub), Op(Add)]))
  {
    assert [Op(Sub), N9, Close][1..] == [N9, Close];
    assert [Op(Div), Open, Op(Add)] + [Op(Sub)] == [Op(Div), Open, Op(Add), Op(Sub)];
    assert Step(Op(Sub), State([Op(Div), Open, Op(Add)], [N2, N15, Op(Mul), N20, Op(Add), N12, N2])) == Ok(State([Op(Div), Open, Op(Add), Op(Sub)], [N2, N15, Op(Mul), N20, Op(Add), N12, N2]));
    assert Run([Op(Sub), N9, Close], State([Op(Div), Open, Op(Add)], [N2, N15, Op(Mul), N20, Op(Add), N12, N2])) == Run([N9, Close], State([Op(Div), Open, Op(Add), Op(Sub)], [N2, N15, Op(Mul), N20, Op(Add), N12, N2]));
    assert [N9, Close][1..] == [Close];
    assert [N2, N15, Op(Mul), N20, Op(Add), N12, N2] + [N9] == [N2, N15, Op(Mul), N20, Op(Add), N12, N2, N9];
    assert Step(N9, State([Op(Div), Open, Op(Add), Op(Sub)], [N2, N15, Op(Mul), N20, Op(Add), N12, N2])) == Ok(State([Op(Div), Open, Op(Add), Op(Sub)], [N2, N15, Op(Mul), N20, Op(Add), N12, N2, N9]));
    assert Run([N9, Close], State([Op(Div), Open, Op(Add), Op(Sub)], [N2, N15, Op(Mul), N20, Op(Add), N12, N2])) == Run([Close], State([Op(Div), Open, Op(Add), Op(Sub)], [N2, N15, Op(Mul), N20, Op(Add), N12, N2, N9]));
    assert [Close][1..] == [];
    assert [Op(Div), Open, Op(Add), Op(Sub)][..3] == [Op(Div), Open, Op(Add)];
    assert [N2, N15, Op(Mul), N20, Op(Add), N12, N2, N9] + [Op(Sub)] == [N2, N15, Op(Mul), N20, Op(Add), N12, N2, N9, Op(Sub)];
    assert PopToOpen(State([Op(Div), Open, Op(Add), Op(Sub)], [N2, N15, Op(Mul), N20, Op(Add), N12, N2, N9])) == PopToOpen(State([Op(Div), Open, Op(Add)], [N2, N15, Op(Mul), N20, Op(Add), N12, N2, N9, Op(Sub)]));
    assert [Op(Div), Open, Op(Add)][..2] == [Op(Div), Open];
    assert [N2, N15, Op(Mul), N20, Op(Add), N12, N2, N9, Op(Sub)] + [Op(Add)] == [N2, N15, Op(Mul), N20, Op(Add), N12, N2, N9, Op(Sub), Op(Add)];
    assert PopToOpen(State([Op(Div), Open, Op(Add)], [N2, N15, Op(Mul), N20, Op(Add), N12, N2, N9, Op(Sub)])) == PopToOpen(State([Op(Div), Open], [N2, N15, Op(Mul), N20, Op(Add), N12, N2, N9, Op(Sub), Op(Add)]));
    assert [Op(Div), Open][..1] == [Op(Div)];
    assert Step(Close, State([Op(Div), Open, Op(Add), Op(Sub)], [N2, N15, Op(Mul), N20, Op(Add), N12, N2, N9])) == Ok(State([Op(Div)], [N2, N15, Op(Mul), N20, Op(Add), N12, N2, N9, Op(Sub), Op(Add)]));
    assert Run([Close], State([Op(Div), Open, Op(Add), Op(Sub)], [N2, N15, Op(Mul), N20, Op(Add), N12, N2, N9])) == Run([], State([Op(Div)], [N2, N15, Op(Mul), N20, Op(Add), N12, N2, N9, Op(Sub), Op(Add)]));
  }

  lemma InfixToPostfixExample4Front()
    ensures Run([Open, N2, Op(Mul), N15] + [Op(Add), N20, Close, Op(Div)], State([], []))
      == Ok(State([Op(Div)], [N2, N15, Op(Mul), N20, Op(Add)]))
  {
    InfixToPostfixExample4Part1();
    InfixToPostfixExample4Part2();
    RunThen([Open, N2, Op(Mul), N15], [Op(Add), N20, Close, Op(Div)], State([], []),
      State([Open, Op(Mul)], [N2, N15]),
      State([Op(Div)], [N2, N15, Op(Mul), N20, Op(Add)]));
  }

  lemma InfixToPostfixExample4Back()
    ensures Run([Open, N12, Op(Add), N2] + [Op(Sub), N9, Close],
                State([Op(Div)], [N2, N15, Op(Mul), N20, Op(Add)]))
      == Ok(State([Op(Div)], [N2, N15, Op(Mul), N20, Op(Add), N12, N2, N9, Op(Sub), Op(Add)]))
  {
    InfixToPostfixExample4Part3();
    InfixToPostfixExample4Part4();
    RunThen([Open, N12, Op(Add), N2], [Op(Sub), N9, Close],
      State([Op(Div)], [N2, N15, Op(Mul), N20, Op(Add)]),
      State([Op(Div), Open, Op(Add)], [N2, N15, Op(Mul), N20, Op(Add), N12, N2]),
      State([Op(Div)], [N2, N15, Op(Mul), N20, Op(Add), N12, N2, N9, Op(Sub), Op(Add)]));
  }

  /** `(2 * 15 + 20) / (12 + 2 - 9)` becomes `2 15 * 20 + 12 2 9 - + /`. */
  lemma InfixToPostfixExample4()
    ensures Postfix([Open, N2, Op(Mul), N15] + [Op(Add), N20, Close, Op(Div)] + [Open, N12, Op(Add), N2] + [Op(Sub), N9, Close])
      == Ok([N2, N15, Op(Mul), N20, Op(Add), N12, N2, N9, Op(Sub), Op(Add), Op(Div)])
  {
    InfixToPostfixExample4Front();
    InfixToPostfixExample4Back();
    SeqAssoc([Open, N2, Op(Mul), N15] + [Op(Add), N20, Close, Op(Div)],
      [Open, N12, Op(Add), N2], [Op(Sub), N9, Close]);
    PostfixChain(
      [Open, N2, Op(Mul), N15] + [Op(Add), N20, Close, Op(Div)],
      [Open, N12, Op(Add), N2] + [Op(Sub), N9, Close],
      State([Op(Div)], [N2, N15, Op(Mul), N20, Op(Add)]),
      Op(Div), [N2, N15, Op(Mul), N20, Op(Add), N12, N2, N9, Op(Sub), Op(Add)],
      [N2, N15, Op(Mul), N20, Op(Add), N12, N2, N9, Op(Sub), Op(Add), Op(Div)]);
  }

  /** `2 - 1 - 1` becomes `2 1 - 1 -`: grouped to the left. */
  lemma InfixToPostfixExample5()
    ensures Postfix([N2, Op(Sub), N1, Op(Sub), N1])
      == Ok([N2, N1, Op(Sub), N1, Op(Sub)])
  {
    assert [N2, Op(Sub), N1, Op(Sub), N1][1..] == [Op(Sub), N1, Op(Sub), N1];
    assert [] + [N2] == [N2];
    assert Step(N2, State([], [])) == Ok(State([], [N2]));
    assert Run([N2, Op(Sub), N1, Op(Sub), N1], State([], [])) == Run([Op(Sub), N1, Op(Sub), N1], State([], [N2]));
    assert [Op(Sub), N1, Op(Sub), N1][1..] == [N1, Op(Sub), N1];
    assert [] + [Op(Sub)] == [Op(Sub)];
    assert Step(Op(Sub), State([], [N2])) == Ok(State([Op(Sub)], [N2]));
    assert Run([Op(Sub), N1, Op(Sub), N1], State([], [N2])) == Run([N1, Op(Sub), N1], State([Op(Sub)], [N2]));
    assert [N1, Op(Sub), N1][1..] == [Op(Sub), N1];
    assert [N2] + [N1] == [N2, N1];
    assert Step(N1, State([Op(Sub)], [N2])) == Ok(State([Op(Sub)], [N2, N1]));
    assert Run([N1, Op(Sub), N1], State([Op(Sub)], [N2])) == Run([Op(Sub), N1], State([Op(Sub)], [N2, N1]));
    assert [Op(Sub), N1][1..] == [N1];
    assert [Op(Sub)][..0] == [];
    assert [N2, N1] + [Op(Sub)] == [N2, N1, Op(Sub)];
    assert PopFor(Sub, State([Op(Sub)], [N2, N1])) == PopFor(Sub, State([], [N2, N1, Op(Sub)]));
    assert [] + [Op(Sub)] == [Op(Sub)];
    assert Step(Op(Sub), State([Op(Sub)], [N2, N1])) == Ok(State([Op(Sub)], [N2, N1, Op(Sub)]));
    assert Run([Op(Sub), N1], State([Op(Sub)], [N2, N1])) == Run([N1], State([Op(Sub)], [N2, N1, Op(Sub)]));
    assert [N1][1..] == [];
    assert [N2, N1, Op(Sub)] + [N1] == [N2, N1, Op(Sub), N1];
    assert Step(N1, State([Op(Sub)], [N2, N1, Op(Sub)])) == Ok(State([Op(Sub)], [N2, N1, Op(Sub), N1]));
    assert Run([N1], State([Op(Sub)], [N2, N1, Op(Sub)])) == Run([], State([Op(Sub)], [N2, N1, Op(Sub), N1]));
    assert [Op(Sub)][1..] == [];
    assert Reversed([Op(Sub)]) == [Op(Sub)];
    assert [N2, N1, Op(Sub), N1] + [Op(Sub)] == [N2, N1, Op(Sub), N1, Op(Sub)];
  }

  /** `8 / 4 / 2` becomes `8 4 / 2 /`: grouped to the left. */
  lemma InfixToPostfixExample6()
    ensures Postfix([N8, Op(Div), N4, Op(Div), N2])
      == Ok([N8, N4, Op(Div), N2, Op(Div)])
  {
    assert [N8, Op(Div), N4, Op(Div), N2][1..] == [Op(Div), N4, Op(Div), N2];
    assert [] + [N8] == [N8];
    assert Step(N8, State([], [])) == Ok(State([], [N8]));
    assert Run([N8, Op(Div), N4, Op(Div), N2], State([], [])) == Run([Op(Div), N4, Op(Div), N2], State([], [N8]));
    assert [Op(Div), N4, Op(Div), N2][1..] == [N4, Op(Div), N2];
    assert [] + [Op(Div)] == [Op(Div)];
    assert Step(Op(Div), State([], [N8])) == Ok(State([Op(Div)], [N8]));
    assert Run([Op(Div), N4, Op(Div), N2], State([], [N8])) == Run([N4, Op(Div), N2], State([Op(Div)], [N8]));
    assert [N4, Op(Div), N2][1..] == [Op(Div), N2];
    assert [N8] + [N4] == [N8, N4];
    assert Step(N4, State([Op(Div)], [N8])) == Ok(State([Op(Div)], [N8, N4]));
    assert Run([N4, Op(Div), N2], State([Op(Div)], [N8])) == Run([Op(Div), N2], State([Op(Div)], [N8, N4]));
    assert [Op(Div), N2][1..] == [N2];
    assert [Op(Div)][..0] == [];
    assert [N8, N4] + [Op(Div)] == [N8, N4, Op(Div)];
    assert PopFor(Div, State([Op(Div)], [N8, N4])) == PopFor(Div, State([], [N8, N4, Op(Div)]));
    assert [] + [Op(Div)] == [Op(Div)];
    assert Step(Op(Div), State([Op(Div)], [N8, N4])) == Ok(State([Op(Div)], [N8, N4, Op(Div)]));
    assert Run([Op(Div), N2], State([Op(Div)], [N8, N4])) == Run([N2], State([Op(Div)], [N8, N4, Op(Div)]));
    assert [N2][1..] == [];
    assert [N8, N4, Op(Div)] + [N2] == [N8, N4, Op(Div), N2];
    assert Step(N2, State([Op(Div)], [N8, N4, Op(Div)])) == Ok(State([Op(Div)], [N8, N4, Op(Div), N2]));
    assert Run([N2], State([Op(Div)], [N8, N4, Op(Div)])) == Run([], State([Op(Div)], [N8, N4, Op(Div), N2]));
    assert [Op(Div)][1..] == [];
    assert Reversed([Op(Div)]) == [Op(Div)];
    assert [N8, N4, Op(Div), N2] + [Op(Div)] == [N8, N4, Op(Div), N2, Op(Div)];
  }
}
