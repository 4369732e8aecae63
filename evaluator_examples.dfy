/** The evaluations shown in the documentation of `postfix_calc`, one lemma each. The longer
    inputs are written as concatenations of short pieces, each piece run in a lemma of its own. */
module EvaluatorExamples {
  import opened Tokens
  import opened Evaluator

  /** The number tokens of the example lines. */
  const N0: Token := Num("0")
  const N1: Token := Num("1")
  const N2: Token := Num("2")
  const N3: Token := Num("3")
  const N4: Token := Num("4")
  const N5: Token := Num("5")
  const N6: Token := Num("6")
  const N7: Token := Num("7")
  const N10: Token := Num("10")
  const N12: Token := Num("12")

  // Steps of PostfixCalcExample1, one short piece per lemma so that each proof stays small.
  lemma PostfixCalcExample1Part1()
    ensures Exec([N2, N1, Op(Sub), N4], []) == Ok([Value(1.0), Pushed(N4)])
  {
    assert [N2, N1, Op(Sub), N4][1..] == [N1, Op(Sub), N4];
    assert [] + [Pushed(N2)] == [Pushed(N2)];
    assert Eval1(N2, []) == Ok([Pushed(N2)]);
    assert Exec([N2, N1, Op(Sub), N4], []) == Exec([N1, Op(Sub), N4], [Pushed(N2)]);
    assert [N1, Op(Sub), N4][1..] == [Op(Sub), N4];
    assert [Pushed(N2)] + [Pushed(N1)] == [Pushed(N2), Pushed(N1)];
    assert Eval1(N1, [Pushed(N2)]) == Ok([Pushed(N2), Pushed(N1)]);
    assert Exec([N1, Op(Sub), N4], [Pushed(N2)]) == Exec([Op(Sub), N4], [Pushed(N2), Pushed(N1)]);
    assert [Op(Sub), N4][1..] == [N4];
    assert NumberOf(Pushed(N1)) == Ok(1.0);
    assert NumberOf(Pushed(N2)) == Ok(2.0);
    assert [Pushed(N2), Pushed(N1)][..0] == [];
    assert [] + [Value(1.0)] == [Value(1.0)];
    assert Eval1(Op(Sub), [Pushed(N2), Pushed(N1)]) == Ok([Value(1.0)]);
    assert Exec([Op(Sub), N4], [Pushed(N2), Pushed(N1)]) == Exec([N4], [Value(1.0)]);
    assert [N4][1..] == [];
    assert [Value(1.0)] + [Pushed(N4)] == [Value(1.0), Pushed(N4)];
    assert Eval1(N4, [Value(1.0)]) == Ok([Value(1.0), Pushed(N4)]);
    assert Exec([N4], [Value(1.0)]) == Exec([], [Value(1.0), Pushed(N4)]);
  }

  lemma PostfixCalcExample1Part2()
    ensures Exec([Op(Mul), N6, Op(Add), N5], [Value(1.0), Pushed(N4)]) == Ok([Value(10.0), Pushed(N5)])
  {
    assert [Op(Mul), N6, Op(Add), N5][1..] == [N6, Op(Add), N5];
    assert NumberOf(Pushed(N4)) == Ok(4.0);
    assert NumberOf(Value(1.0)) == Ok(1.0);
    assert [Value(1.0), Pushed(N4)][..0] == [];
    assert [] + [Value(4.0)] == [Value(4.0)];
    assert Eval1(Op(Mul), [Value(1.0), Pushed(N4)]) == Ok([Value(4.0)]);
    assert Exec([Op(Mul), N6, Op(Add), N5], [Value(1.0), Pushed(N4)]) == Exec([N6, Op(Add), N5], [Value(4.0)]);
    assert [N6, Op(Add), N5][1..] == [Op(Add), N5];
    assert [Value(4.0)] + [Pushed(N6)] == [Value(4.0), Pushed(N6)];
    assert Eval1(N6, [Value(4.0)]) == Ok([Value(4.0), Pushed(N6)]);
    assert Exec([N6, Op(Add), N5], [Value(4.0)]) == Exec([Op(Add), N5], [Value(4.0), Pushed(N6)]);
    assert [Op(Add), N5][1..] == [N5];
    assert NumberOf(Pushed(N6)) == Ok(6.0);
    assert NumberOf(Value(4.0)) == Ok(4.0);
    assert [Value(4.0), Pushed(N6)][..0] == [];
    assert [] + [Value(10.0)] == [Value(10.0)];
    assert Eval1(Op(Add), [Value(4.0), Pushed(N6)]) == Ok([Value(10.0)]);
    assert Exec([Op(Add), N5], [Value(4.0), Pushed(N6)]) == Exec([N5], [Value(10.0)]);
    assert [N5][1..] == [];
    assert [Value(10.0)] + [Pushed(N5)] == [Value(10.0), Pushed(N5)];
    assert Eval1(N5, [Value(10.0)]) == Ok([Value(10.0), Pushed(N5)]);
    assert Exec([N5], [Value(10.0)]) == Exec([], [Value(10.0), Pushed(N5)]);
  }

  lemma PostfixCalcExample1Part3()
    ensures Exec([Op(Div)], [Value(10.0), Pushed(N5)]) == Ok([Value(2.0)])
  {
    assert [Op(Div)][1..] == [];
    assert NumberOf(Pushed(N5)) == Ok(5.0);
    assert NumberOf(Value(10.0)) == Ok(10.0);
    assert [Value(10.0), Pushed(N5)][..0] == [];
    assert [] + [Value(2.0)] == [Value(2.0)];
    assert Eval1(Op(Div), [Value(10.0), Pushed(N5)]) == Ok([Value(2.0)]);
    assert Exec([Op(Div)], [Value(10.0), Pushed(N5)]) == Exec([], [Value(2.0)]);
  }

  /** `2 1 - 4 * 6 + 5 /` gives 2. */
  lemma PostfixCalcExample1()
    ensures Calc([N2, N1, Op(Sub), N4] + [Op(Mul), N6, Op(Add), N5] + [Op(Div)]) == Ok(Value(2.0))
  {
    PostfixCalcExample1Part1();
    PostfixCalcExample1Part2();
    ExecAppend([N2, N1, Op(Sub), N4], [Op(Mul), N6, Op(Add), N5], []);
    PostfixCalcExample1Part3();
    ExecAppend([N2, N1, Op(Sub), N4] + [Op(Mul), N6, Op(Add), N5], [Op(Div)], []);
  }

  // Steps of PostfixCalcExample2, one short piece per lemma so that each proof stays small.
  lemma PostfixCalcExample2Part1()
    ensures Exec([N2, N3, Op(Sub), N12], []) == Ok([Value(-1.0), Pushed(N12)])
  {
    assert [N2, N3, Op(Sub), N12][1..] == [N3, Op(Sub), N12];
    assert [] + [Pushed(N2)] == [Pushed(N2)];
    assert Eval1(N2, []) == Ok([Pushed(N2)]);
    assert Exec([N2, N3, Op(Sub), N12], []) == Exec([N3, Op(Sub), N12], [Pushed(N2)]);
    assert [N3, Op(Sub), N12][1..] == [Op(Sub), N12];
    assert [Pushed(N2)] + [Pushed(N3)] == [Pushed(N2), Pushed(N3)];
    assert Eval1(N3, [Pushed(N2)]) == Ok([Pushed(N2), Pushed(N3)]);
    assert Exec([N3, Op(Sub), N12], [Pushed(N2)]) == Exec([Op(Sub), N12], [Pushed(N2), Pushed(N3)]);
    assert [Op(Sub), N12][1..] == [N12];
    assert NumberOf(Pushed(N3)) == Ok(3.0);
    assert NumberOf(Pushed(N2)) == Ok(2.0);
    assert [Pushed(N2), Pushed(N3)][..0] == [];
    assert [] + [Value(-1.0)] == [Value(-1.0)];
    assert Eval1(Op(Sub), [Pushed(N2), Pushed(N3)]) == Ok([Value(-1.0)]);
    assert Exec([Op(Sub), N12], [Pushed(N2), Pushed(N3)]) == Exec([N12], [Value(-1.0)]);
    assert [N12][1..] == [];
    assert [Value(-1.0)] + [Pushed(N12)] == [Value(-1.0), Pushed(N12)];
    assert Eval1(N12, [Value(-1.0)]) == Ok([Value(-1.0), Pushed(N12)]);
    assert Exec([N12], [Value(-1.0)]) == Exec([], [Value(-1.0), Pushed(N12)]);
  }

  lemma PostfixCalcExample2Part2()
    ensures Exec([N10, Op(Sub), Op(Mul), N4], [Value(-1.0), Pushed(N12)]) == Ok([Value(-2.0), Pushed(N4)])
  {
    assert [N10, Op(Sub), Op(Mul), N4][1..] == [Op(Sub), Op(Mul), N4];
    assert [Value(-1.0), Pushed(N12)] + [Pushed(N10)] == [Value(-1.0), Pushed(N12), Pushed(N10)];
    assert Eval1(N10, [Value(-1.0), Pushed(N12)]) == Ok([Value(-1.0), Pushed(N12), Pushed(N10)]);
    assert Exec([N10, Op(Sub), Op(Mul), N4], [Value(-1.0), Pushed(N12)]) == Exec([Op(Sub), Op(Mul), N4], [Value(-1.0), Pushed(N12), Pushed(N10)]);
    assert [Op(Sub), Op(Mul), N4][1..] == [Op(Mul), N4];
    assert "10"[..1] == "1";
    assert DigitsValue("10") == 10;
    assert "12"[..1] == "1";
    assert DigitsValue("12") == 12;
    assert NumberOf(Pushed(N10)) == Ok(10.0);
    assert NumberOf(Pushed(N12)) == Ok(12.0);
    assert [Value(-1.0), Pushed(N12), Pushed(N10)][..1] == [Value(-1.0)];
    assert [Value(-1.0)] + [Value(2.0)] == [Value(-1.0), Value(2.0)];
    assert Eval1(Op(Sub), [Value(-1.0), Pushed(N12), Pushed(N10)]) == Ok([Value(-1.0), Value(2.0)]);
    assert Exec([Op(Sub), Op(Mul), N4], [Value(-1.0), Pushed(N12), Pushed(N10)]) == Exec([Op(Mul), N4], [Value(-1.0), Value(2.0)]);
    assert [Op(Mul), N4][1..] == [N4];
    assert NumberOf(Value(2.0)) == Ok(2.0);
    assert NumberOf(Value(-1.0)) == Ok(-1.0);
    assert [Value(-1.0), Value(2.0)][..0] == [];
    assert [] + [Value(-2.0)] == [Value(-2.0)];
    assert Eval1(Op(Mul), [Value(-1.0), Value(2.0)]) == Ok([Value(-2.0)]);
    assert Exec([Op(Mul), N4], [Value(-1.0), Value(2.0)]) == Exec([N4], [Value(-2.0)]);
    assert [N4][1..] == [];
    assert [Value(-2.0)] + [Pushed(N4)] == [Value(-2.0), Pushed(N4)];
    assert Eval1(N4, [Value(-2.0)]) == Ok([Value(-2.0), Pushed(N4)]);
    assert Exec([N4], [Value(-2.0)]) == Exec([], [Value(-2.0), Pushed(N4)]);
  }

  lemma PostfixCalcExample2Part3()
    ensures Exec([N2, Op(Div), Op(Add)], [Value(-2.0), Pushed(N4)]) == Ok([Value(0.0)])
  {
    assert [N2, Op(Div), Op(Add)][1..] == [Op(Div), Op(Add)];
    assert [Value(-2.0), Pushed(N4)] + [Pushed(N2)] == [Value(-2.0), Pushed(N4), Pushed(N2)];
    assert Eval1(N2, [Value(-2.0), Pushed(N4)]) == Ok([Value(-2.0), Pushed(N4), Pushed(N2)]);
    assert Exec([N2, Op(Div), Op(Add)], [Value(-2.0), Pushed(N4)]) == Exec([Op(Div), Op(Add)], [Value(-2.0), Pushed(N4), Pushed(N2)]);
    assert [Op(Div), Op(Add)][1..] == [Op(Add)];
    assert NumberOf(Pushed(N2)) == Ok(2.0);
    assert NumberOf(Pushed(N4)) == Ok(4.0);
    assert [Value(-2.0), Pushed(N4), Pushed(N2)][..1] == [Value(-2.0)];
    assert [Value(-2.0)] + [Value(2.0)] == [Value(-2.0), Value(2.0)];
    assert Eval1(Op(Div), [Value(-2.0), Pushed(N4), Pushed(N2)]) == Ok([Value(-2.0), Value(2.0)]);
    assert Exec([Op(Div), Op(Add)], [Value(-2.0), Pushed(N4), Pushed(N2)]) == Exec([Op(Add)], [Value(-2.0), Value(2.0)]);
    assert [Op(Add)][1..] == [];
    assert NumberOf(Value(2.0)) == Ok(2.0);
    assert NumberOf(Value(-2.0)) == Ok(-2.0);
    assert [Value(-2.0), Value(2.0)][..0] == [];
    assert [] + [Value(0.0)] == [Value(0.0)];
    assert Eval1(Op(Add), [Value(-2.0), Value(2.0)]) == Ok([Value(0.0)]);
    assert Exec([Op(Add)], [Value(-2.0), Value(2.0)]) == Exec([], [Value(0.0)]);
  }

  /** `2 3 - 12 10 - * 4 2 / +` gives 0. */
  lemma PostfixCalcExample2()
    ensures Calc([N2, N3, Op(Sub), N12] + [N10, Op(Sub), Op(Mul), N4] + [N2, Op(Div), Op(Add)]) == Ok(Value(0.0))
  {
    PostfixCalcExample2Part1();
    PostfixCalcExample2Part2();
    ExecAppend([N2, N3, Op(Sub), N12], [N10, Op(Sub), Op(Mul), N4], []);
    PostfixCalcExample2Part3();
    ExecAppend([N2, N3, Op(Sub), N12] + [N10, Op(Sub), Op(Mul), N4], [N2, Op(Div), Op(Add)], []);
  }

  // Steps of PostfixCalcExample3, one short piece per lemma so that each proof stays small.
  lemma PostfixCalcExample3Part1()
    ensures Exec([N1, N2, N3, Op(Sub)], []) == Ok([Pushed(N1), Value(-1.0)])
  {
    assert [N1, N2, N3, Op(Sub)][1..] == [N2, N3, Op(Sub)];
    assert [] + [Pushed(N1)] == [Pushed(N1)];
    assert Eval1(N1, []) == Ok([Pushed(N1)]);
    assert Exec([N1, N2, N3, Op(Sub)], []) == Exec([N2, N3, Op(Sub)], [Pushed(N1)]);
    assert [N2, N3, Op(Sub)][1..] == [N3, Op(Sub)];
    assert [Pushed(N1)] + [Pushed(N2)] == [Pushed(N1), Pushed(N2)];
    assert Eval1(N2, [Pushed(N1)]) == Ok([Pushed(N1), Pushed(N2)]);
    assert Exec([N2, N3, Op(Sub)], [Pushed(N1)]) == Exec([N3, Op(Sub)], [Pushed(N1), Pushed(N2)]);
    assert [N3, Op(Sub)][1..] == [Op(Sub)];
    assert [Pushed(N1), Pushed(N2)] + [Pushed(N3)] == [Pushed(N1), Pushed(N2), Pushed(N3)];
    assert Eval1(N3, [Pushed(N1), Pushed(N2)]) == Ok([Pushed(N1), Pushed(N2), Pushed(N3)]);
    assert Exec([N3, Op(Sub)], [Pushed(N1), Pushed(N2)]) == Exec([Op(Sub)], [Pushed(N1), Pushed(N2), Pushed(N3)]);
    assert [Op(Sub)][1..] == [];
    assert NumberOf(Pushed(N3)) == Ok(3.0);
    assert NumberOf(Pushed(N2)) == Ok(2.0);
    assert [Pushed(N1), Pushed(N2), Pushed(N3)][..1] == [Pushed(N1)];
    assert [Pushed(N1)] + [Value(-1.0)] == [Pushed(N1), Value(-1.0)];
    assert Eval1(Op(Sub), [Pushed(N1), Pushed(N2), Pushed(N3)]) == Ok([Pushed(N1), Value(-1.0)]);
    assert Exec([Op(Sub)], [Pushed(N1), Pushed(N2), Pushed(N3)]) == Exec([], [Pushed(N1), Value(-1.0)]);
  }

  lemma PostfixCalcExample3Part2()
    ensures Exec([N12, N10, Op(Sub), Op(Mul)], [Pushed(N1), Value(-1.0)]) == Ok([Pushed(N1), Value(-2.0)])
  {
    assert [N12, N10, Op(Sub), Op(Mul)][1..] == [N10, Op(Sub), Op(Mul)];
    assert [Pushed(N1), Value(-1.0)] + [Pushed(N12)] == [Pushed(N1), Value(-1.0), Pushed(N12)];
    assert Eval1(N12, [Pushed(N1), Value(-1.0)]) == Ok([Pushed(N1), Value(-1.0), Pushed(N12)]);
    assert Exec([N12, N10, Op(Sub), Op(Mul)], [Pushed(N1), Value(-1.0)]) == Exec([N10, Op(Sub), Op(Mul)], [Pushed(N1), Value(-1.0), Pushed(N12)]);
    assert [N10, Op(Sub), Op(Mul)][1..] == [Op(Sub), Op(Mul)];
    assert [Pushed(N1), Value(-1.0), Pushed(N12)] + [Pushed(N10)] == [Pushed(N1), Value(-1.0), Pushed(N12), Pushed(N10)];
    assert Eval1(N10, [Pushed(N1), Value(-1.0), Pushed(N12)]) == Ok([Pushed(N1), Value(-1.0), Pushed(N12), Pushed(N10)]);
    assert Exec([N10, Op(Sub), Op(Mul)], [Pushed(N1), Value(-1.0), Pushed(N12)]) == Exec([Op(Sub), Op(Mul)], [Pushed(N1), Value(-1.0), Pushed(N12), Pushed(N10)]);
    assert [Op(Sub), Op(Mul)][1..] == [Op(Mul)];
    assert "10"[..1] == "1";
    assert DigitsValue("10") == 10;
    assert "12"[..1] == "1";
    assert DigitsValue("12") == 12;
    assert NumberOf(Pushed(N10)) == Ok(10.0);
    assert NumberOf(Pushed(N12)) == Ok(12.0);
    assert [Pushed(N1), Value(-1.0), Pushed(N12), Pushed(N10)][..2] == [Pushed(N1), Value(-1.0)];
    assert [Pushed(N1), Value(-1.0)] + [Value(2.0)] == [Pushed(N1), Value(-1.0), Value(2.0)];
    assert Eval1(Op(Sub), [Pushed(N1), Value(-1.0), Pushed(N12), Pushed(N10)]) == Ok([Pushed(N1), Value(-1.0), Value(2.0)]);
    assert Exec([Op(Sub), Op(Mul)], [Pushed(N1), Value(-1.0), Pushed(N12), Pushed(N10)]) == Exec([Op(Mul)], [Pushed(N1), Value(-1.0), Value(2.0)]);
    assert [Op(Mul)][1..] == [];
    assert NumberOf(Value(2.0)) == Ok(2.0);
    assert NumberOf(Value(-1.0)) == Ok(-1.0);
    assert [Pushed(N1), Value(-1.0), Value(2.0)][..1] == [Pushed(N1)];
    assert [Pushed(N1)] + [Value(-2.0)] == [Pushed(N1), Value(-2.0)];
    assert Eval1(Op(Mul), [Pushed(N1), Value(-1.0), Value(2.0)]) == Ok([Pushed(N1), Value(-2.0)]);
    assert Exec([Op(Mul)], [Pushed(N1), Value(-1.0), Value(2.0)]) == Exec([], [Pushed(N1), Value(-2.0)]);
  }

  lemma PostfixCalcExample3Part3()
    ensures Exec([N4, N2, Op(Div), Op(Add)], [Pushed(N1), Value(-2.0)]) == Ok([Pushed(N1), Value(0.0)])
  {
    assert [N4, N2, Op(Div), Op(Add)][1..] == [N2, Op(Div), Op(Add)];
    assert [Pushed(N1), Value(-2.0)] + [Pushed(N4)] == [Pushed(N1), Value(-2.0), Pushed(N4)];
    assert Eval1(N4, [Pushed(N1), Value(-2.0)]) == Ok([Pushed(N1), Value(-2.0), Pushed(N4)]);
    assert Exec([N4, N2, Op(Div), Op(Add)], [Pushed(N1), Value(-2.0)]) == Exec([N2, Op(Div), Op(Add)], [Pushed(N1), Value(-2.0), Pushed(N4)]);
    assert [N2, Op(Div), Op(Add)][1..] == [Op(Div), Op(Add)];
    assert [Pushed(N1), Value(-2.0), Pushed(N4)] + [Pushed(N2)] == [Pushed(N1), Value(-2.0), Pushed(N4), Pushed(N2)];
    assert Eval1(N2, [Pushed(N1), Value(-2.0), Pushed(N4)]) == Ok([Pushed(N1), Value(-2.0), Pushed(N4), Pushed(N2)]);
    assert Exec([N2, Op(Div), Op(Add)], [Pushed(N1), Value(-2.0), Pushed(N4)]) == Exec([Op(Div), Op(Add)], [Pushed(N1), Value(-2.0), Pushed(N4), Pushed(N2)]);
    assert [Op(Div), Op(Add)][1..] == [Op(Add)];
    assert NumberOf(Pushed(N2)) == Ok(2.0);
    assert NumberOf(Pushed(N4)) == Ok(4.0);
    assert [Pushed(N1), Value(-2.0), Pushed(N4), Pushed(N2)][..2] == [Pushed(N1), Value(-2.0)];
    assert [Pushed(N1), Value(-2.0)] + [Value(2.0)] == [Pushed(N1), Value(-2.0), Value(2.0)];
    assert Eval1(Op(Div), [Pushed(N1), Value(-2.0), Pushed(N4), Pushed(N2)]) == Ok([Pushed(N1), Value(-2.0), Value(2.0)]);
    assert Exec([Op(Div), Op(Add)], [Pushed(N1), Value(-2.0), Pushed(N4), Pushed(N2)]) == Exec([Op(Add)], [Pushed(N1), Value(-2.0), Value(2.0)]);
    assert [Op(Add)][1..] == [];
    assert NumberOf(Value(2.0)) == Ok(2.0);
    assert NumberOf(Value(-2.0)) == Ok(-2.0);
    assert [Pushed(N1), Value(-2.0), Value(2.0)][..1] == [Pushed(N1)];
    assert [Pushed(N1)] + [Value(0.0)] == [Pushed(N1), Value(0.0)];
    assert Eval1(Op(Add), [Pushed(N1), Value(-2.0), Value(2.0)]) == Ok([Pushed(N1), Value(0.0)]);
    assert Exec([Op(Add)], [Pushed(N1), Value(-2.0), Value(2.0)]) == Exec([], [Pushed(N1), Value(0.0)]);
  }

  /** `1 2 3 - 12 10 - * 4 2 / +` leaves two operands: malformed. */
  lemma PostfixCalcExample3()
    ensures Calc([N1, N2, N3, Op(Sub)] + [N12, N10, Op(Sub), Op(Mul)] + [N4, N2, Op(Div), Op(Add)]) == Err(Malformed)
  {
    PostfixCalcExample3Part1();
    PostfixCalcExample3Part2();
    ExecAppend([N1, N2, N3, Op(Sub)], [N12, N10, Op(Sub), Op(Mul)], []);
    PostfixCalcExample3Part3();
    ExecAppend([N1, N2, N3, Op(Sub)] + [N12, N10, Op(Sub), Op(Mul)], [N4, N2, Op(Div), Op(Add)], []);
  }

  /** `4 5 3 - +` gives 6. */
  lemma PostfixCalcExample4()
    ensures Calc([N4, N5, N3, Op(Sub), Op(Add)]) == Ok(Value(6.0))
  {
    assert [N4, N5, N3, Op(Sub), Op(Add)][1..] == [N5, N3, Op(Sub), Op(Add)];
    assert [] + [Pushed(N4)] == [Pushed(N4)];
    assert Eval1(N4, []) == Ok([Pushed(N4)]);
    assert Exec([N4, N5, N3, Op(Sub), Op(Add)], []) == Exec([N5, N3, Op(Sub), Op(Add)], [Pushed(N4)]);
    assert [N5, N3, Op(Sub), Op(Add)][1..] == [N3, Op(Sub), Op(Add)];
    assert [Pushed(N4)] + [Pushed(N5)] == [Pushed(N4), Pushed(N5)];
    assert Eval1(N5, [Pushed(N4)]) == Ok([Pushed(N4), Pushed(N5)]);
    assert Exec([N5, N3, Op(Sub), Op(Add)], [Pushed(N4)]) == Exec([N3, Op(Sub), Op(Add)], [Pushed(N4), Pushed(N5)]);
    assert [N3, Op(Sub), Op(Add)][1..] == [Op(Sub), Op(Add)];
    assert [Pushed(N4), Pushed(N5)] + [Pushed(N3)] == [Pushed(N4), Pushed(N5), Pushed(N3)];
    assert Eval1(N3, [Pushed(N4), Pushed(N5)]) == Ok([Pushed(N4), Pushed(N5), Pushed(N3)]);
    assert Exec([N3, Op(Sub), Op(Add)], [Pushed(N4), Pushed(N5)]) == Exec([Op(Sub), Op(Add)], [Pushed(N4), Pushed(N5), Pushed(N3)]);
    assert [Op(Sub), Op(Add)][1..] == [Op(Add)];
    assert NumberOf(Pushed(N3)) == Ok(3.0);
    assert NumberOf(Pushed(N5)) == Ok(5.0);
    assert [Pushed(N4), Pushed(N5), Pushed(N3)][..1] == [Pushed(N4)];
    assert [Pushed(N4)] + [Value(2.0)] == [Pushed(N4), Value(2.0)];
    assert Eval1(Op(Sub), [Pushed(N4), Pushed(N5), Pushed(N3)]) == Ok([Pushed(N4), Value(2.0)]);
    assert Exec([Op(Sub), Op(Add)], [Pushed(N4), Pushed(N5), Pushed(N3)]) == Exec([Op(Add)], [Pushed(N4), Value(2.0)]);
    assert [Op(Add)][1..] == [];
    assert NumberOf(Value(2.0)) == Ok(2.0);
    assert NumberOf(Pushed(N4)) == Ok(4.0);
    assert [Pushed(N4), Value(2.0)][..0] == [];
    assert [] + [Value(6.0)] == [Value(6.0)];
    assert Eval1(Op(Add), [Pushed(N4), Value(2.0)]) == Ok([Value(6.0)]);
    assert Exec([Op(Add)], [Pushed(N4), Value(2.0)]) == Exec([], [Value(6.0)]);
  }

  /** `4 5 - 3 +` gives 2. */
  lemma PostfixCalcExample5()
    ensures Calc([N4, N5, Op(Sub), N3, Op(Add)]) == Ok(Value(2.0))
  {
    assert [N4, N5, Op(Sub), N3, Op(Add)][1..] == [N5, Op(Sub), N3, Op(Add)];
    assert [] + [Pushed(N4)] == [Pushed(N4)];
    assert Eval1(N4, []) == Ok([Pushed(N4)]);
    assert Exec([N4, N5, Op(Sub), N3, Op(Add)], []) == Exec([N5, Op(Sub), N3, Op(Add)], [Pushed(N4)]);
    assert [N5, Op(Sub), N3, Op(Add)][1..] == [Op(Sub), N3, Op(Add)];
    assert [Pushed(N4)] + [Pushed(N5)] == [Pushed(N4), Pushed(N5)];
    assert Eval1(N5, [Pushed(N4)]) == Ok([Pushed(N4), Pushed(N5)]);
    assert Exec([N5, Op(Sub), N3, Op(Add)], [Pushed(N4)]) == Exec([Op(Sub), N3, Op(Add)], [Pushed(N4), Pushed(N5)]);
    assert [Op(Sub), N3, Op(Add)][1..] == [N3, Op(Add)];
    assert NumberOf(Pushed(N5)) == Ok(5.0);
    assert NumberOf(Pushed(N4)) == Ok(4.0);
    assert [Pushed(N4), Pushed(N5)][..0] == [];
    assert [] + [Value(-1.0)] == [Value(-1.0)];
    assert Eval1(Op(Sub), [Pushed(N4), Pushed(N5)]) == Ok([Value(-1.0)]);
    assert Exec([Op(Sub), N3, Op(Add)], [Pushed(N4), Pushed(N5)]) == Exec([N3, Op(Add)], [Value(-1.0)]);
    assert [N3, Op(Add)][1..] == [Op(Add)];
    assert [Value(-1.0)] + [Pushed(N3)] == [Value(-1.0), Pushed(N3)];
    assert Eval1(N3, [Value(-1.0)]) == Ok([Value(-1.0), Pushed(N3)]);
    assert Exec([N3, Op(Add)], [Value(-1.0)]) == Exec([Op(Add)], [Value(-1.0), Pushed(N3)]);
    assert [Op(Add)][1..] == [];
    assert NumberOf(Pushed(N3)) == Ok(3.0);
    assert NumberOf(Value(-1.0)) == Ok(-1.0);
    assert [Value(-1.0), Pushed(N3)][..0] == [];
    assert [] + [Value(2.0)] == [Value(2.0)];
    assert Eval1(Op(Add), [Value(-1.0), Pushed(N3)]) == Ok([Value(2.0)]);
    assert Exec([Op(Add)], [Value(-1.0), Pushed(N3)]) == Exec([], [Value(2.0)]);
  }

  // Steps of PostfixCalcExample6, one short piece per lemma so that each proof stays small.
  lemma PostfixCalcExample6Part1()
    ensures Exec([N10, N5, Op(Div), N2], []) == Ok([Value(2.0), Pushed(N2)])
  {
    assert [N10, N5, Op(Div), N2][1..] == [N5, Op(Div), N2];
    assert [] + [Pushed(N10)] == [Pushed(N10)];
    assert Eval1(N10, []) == Ok([Pushed(N10)]);
    assert Exec([N10, N5, Op(Div), N2], []) == Exec([N5, Op(Div), N2], [Pushed(N10)]);
    assert [N5, Op(Div), N2][1..] == [Op(Div), N2];
    assert [Pushed(N10)] + [Pushed(N5)] == [Pushed(N10), Pushed(N5)];
    assert Eval1(N5, [Pushed(N10)]) == Ok([Pushed(N10), Pushed(N5)]);
    assert Exec([N5, Op(Div), N2], [Pushed(N10)]) == Exec([Op(Div), N2], [Pushed(N10), Pushed(N5)]);
    assert [Op(Div), N2][1..] == [N2];
    assert "10"[..1] == "1";
    assert DigitsValue("10") == 10;
    assert NumberOf(Pushed(N5)) == Ok(5.0);
    assert NumberOf(Pushed(N10)) == Ok(10.0);
    assert [Pushed(N10), Pushed(N5)][..0] == [];
    assert [] + [Value(2.0)] == [Value(2.0)];
    assert Eval1(Op(Div), [Pushed(N10), Pushed(N5)]) == Ok([Value(2.0)]);
    assert Exec([Op(Div), N2], [Pushed(N10), Pushed(N5)]) == Exec([N2], [Value(2.0)]);
    assert [N2][1..] == [];
    assert [Value(2.0)] + [Pushed(N2)] == [Value(2.0), Pushed(N2)];
    assert Eval1(N2, [Value(2.0)]) == Ok([Value(2.0), Pushed(N2)]);
    assert Exec([N2], [Value(2.0)]) == Exec([], [Value(2.0), Pushed(N2)]);
  }

  lemma PostfixCalcExample6Part2()
    ensures Exec([N4, Op(Mul), N3, N1], [Value(2.0), Pushed(N2)]) == Ok([Value(2.0), Value(8.0), Pushed(N3), Pushed(N1)])
  {
    assert [N4, Op(Mul), N3, N1][1..] == [Op(Mul), N3, N1];
    assert [Value(2.0), Pushed(N2)] + [Pushed(N4)] == [Value(2.0), Pushed(N2), Pushed(N4)];
    assert Eval1(N4, [Value(2.0), Pushed(N2)]) == Ok([Value(2.0), Pushed(N2), Pushed(N4)]);
    assert Exec([N4, Op(Mul), N3, N1], [Value(2.0), Pushed(N2)]) == Exec([Op(Mul), N3, N1], [Value(2.0), Pushed(N2), Pushed(N4)]);
    assert [Op(Mul), N3, N1][1..] == [N3, N1];
    assert NumberOf(Pushed(N4)) == Ok(4.0);
    assert NumberOf(Pushed(N2)) == Ok(2.0);
    assert [Value(2.0), Pushed(N2), Pushed(N4)][..1] == [Value(2.0)];
    assert [Value(2.0)] + [Value(8.0)] == [Value(2.0), Value(8.0)];
    assert Eval1(Op(Mul), [Value(2.0), Pushed(N2), Pushed(N4)]) == Ok([Value(2.0), Value(8.0)]);
    assert Exec([Op(Mul), N3, N1], [Value(2.0), Pushed(N2), Pushed(N4)]) == Exec([N3, N1], [Value(2.0), Value(8.0)]);
    assert [N3, N1][1..] == [N1];
    assert [Value(2.0), Value(8.0)] + [Pushed(N3)] == [Value(2.0), Value(8.0), Pushed(N3)];
    assert Eval1(N3, [Value(2.0), Value(8.0)]) == Ok([Value(2.0), Value(8.0), Pushed(N3)]);
    assert Exec([N3, N1], [Value(2.0), Value(8.0)]) == Exec([N1], [Value(2.0), Value(8.0), Pushed(N3)]);
    assert [N1][1..] == [];
    assert [Value(2.0), Value(8.0), Pushed(N3)] + [Pushed(N1)] == [Value(2.0), Value(8.0), Pushed(N3), Pushed(N1)];
    assert Eval1(N1, [Value(2.0), Value(8.0), Pushed(N3)]) == Ok([Value(2.0), Value(8.0), Pushed(N3), Pushed(N1)]);
    assert Exec([N1], [Value(2.0), Value(8.0), Pushed(N3)]) == Exec([], [Value(2.0), Value(8.0), Pushed(N3), Pushed(N1)]);
  }

  lemma PostfixCalcExample6Part3()
    ensures Exec([Op(Div), Op(Sub), Op(Add)], [Value(2.0), Value(8.0), Pushed(N3), Pushed(N1)]) == Ok([Value(7.0)])
  {
    assert [Op(Div), Op(Sub), Op(Add)][1..] == [Op(Sub), Op(Add)];
    assert NumberOf(Pushed(N1)) == Ok(1.0);
    assert NumberOf(Pushed(N3)) == Ok(3.0);
    assert [Value(2.0), Value(8.0), Pushed(N3), Pushed(N1)][..2] == [Value(2.0), Value(8.0)];
    assert [Value(2.0), Value(8.0)] + [Value(3.0)] == [Value(2.0), Value(8.0), Value(3.0)];
    assert Eval1(Op(Div), [Value(2.0), Value(8.0), Pushed(N3), Pushed(N1)]) == Ok([Value(2.0), Value(8.0), Value(3.0)]);
    assert Exec([Op(Div), Op(Sub), Op(Add)], [Value(2.0), Value(8.0), Pushed(N3), Pushed(N1)]) == Exec([Op(Sub), Op(Add)], [Value(2.0), Value(8.0), Value(3.0)]);
    assert [Op(Sub), Op(Add)][1..] == [Op(Add)];
    assert NumberOf(Value(3.0)) == Ok(3.0);
    assert NumberOf(Value(8.0)) == Ok(8.0);
    assert [Value(2.0), Value(8.0), Value(3.0)][..1] == [Value(2.0)];
    assert [Value(2.0)] + [Value(5.0)] == [Value(2.0), Value(5.0)];
    assert Eval1(Op(Sub), [Value(2.0), Value(8.0), Value(3.0)]) == Ok([Value(2.0), Value(5.0)]);
    assert Exec([Op(Sub), Op(Add)], [Value(2.0), Value(8.0), Value(3.0)]) == Exec([Op(Add)], [Value(2.0), Value(5.0)]);
    assert [Op(Add)][1..] == [];
    assert NumberOf(Value(5.0)) == Ok(5.0);
    assert NumberOf(Value(2.0)) == Ok(2.0);
    assert [Value(2.0), Value(5.0)][..0] == [];
    assert [] + [Value(7.0)] == [Value(7.0)];
    assert Eval1(Op(Add), [Value(2.0), Value(5.0)]) == Ok([Value(7.0)]);
    assert Exec([Op(Add)], [Value(2.0), Value(5.0)]) == Exec([], [Value(7.0)]);
  }

  /** `10 5 / 2 4 * 3 1 / - +` gives 7. */
  lemma PostfixCalcExample6()
    ensures Calc([N10, N5, Op(Div), N2] + [N4, Op(Mul), N3, N1] + [Op(Div), Op(Sub), Op(Add)]) == Ok(Value(7.0))
  {
    PostfixCalcExample6Part1();
    PostfixCalcExample6Part2();
    ExecAppend([N10, N5, Op(Div), N2], [N4, Op(Mul), N3, N1], []);
    PostfixCalcExample6Part3();
    ExecAppend([N10, N5, Op(Div), N2] + [N4, Op(Mul), N3, N1], [Op(Div), Op(Sub), Op(Add)], []);
  }

  // Steps of PostfixCalcExample7, one short piece per lemma so that each proof stays small.
  lemma PostfixCalcExample7Part1()
    ensures Exec([N7, N3, N6, N2], []) == Ok([Pushed(N7), Pushed(N3), Pushed(N6), Pushed(N2)])
  {
    assert [N7, N3, N6, N2][1..] == [N3, N6, N2];
    assert [] + [Pushed(N7)] == [Pushed(N7)];
    assert Eval1(N7, []) == Ok([Pushed(N7)]);
    assert Exec([N7, N3, N6, N2], []) == Exec([N3, N6, N2], [Pushed(N7)]);
    assert [N3, N6, N2][1..] == [N6, N2];
    assert [Pushed(N7)] + [Pushed(N3)] == [Pushed(N7), Pushed(N3)];
    assert Eval1(N3, [Pushed(N7)]) == Ok([Pushed(N7), Pushed(N3)]);
    assert Exec([N3, N6, N2], [Pushed(N7)]) == Exec([N6, N2], [Pushed(N7), Pushed(N3)]);
    assert [N6, N2][1..] == [N2];
    assert [Pushed(N7), Pushed(N3)] + [Pushed(N6)] == [Pushed(N7), Pushed(N3), Pushed(N6)];
    assert Eval1(N6, [Pushed(N7), Pushed(N3)]) == Ok([Pushed(N7), Pushed(N3), Pushed(N6)]);
    assert Exec([N6, N2], [Pushed(N7), Pushed(N3)]) == Exec([N2], [Pushed(N7), Pushed(N3), Pushed(N6)]);
    assert [N2][1..] == [];
    assert [Pushed(N7), Pushed(N3), Pushed(N6)] + [Pushed(N2)] == [Pushed(N7), Pushed(N3), Pushed(N6), Pushed(N2)];
    assert Eval1(N2, [Pushed(N7), Pushed(N3), Pushed(N6)]) == Ok([Pushed(N7), Pushed(N3), Pushed(N6), Pushed(N2)]);
    assert Exec([N2], [Pushed(N7), Pushed(N3), Pushed(N6)]) == Exec([], [Pushed(N7), Pushed(N3), Pushed(N6), Pushed(N2)]);
  }

  /** An operator on top of two operands whose numbers it combines into c. */
  lemma ExecBinary(o: Operator, rest: seq<Token>, below: seq<Operand>, x: Operand, y: Operand, c: real)
    requires NumberOf(x).Ok? && NumberOf(y).Ok? && Apply(o, NumberOf(x).value, NumberOf(y).value) == Ok(c)
    ensures Exec([Op(o)] + rest, below + [x, y]) == Exec(rest, below + [Value(c)])
  {
    var vs := below + [x, y];
    assert vs[|vs| - 1] == y && vs[|vs| - 2] == x && vs[..|vs| - 2] == below;
    assert ([Op(o)] + rest)[0] == Op(o) && ([Op(o)] + rest)[1..] == rest;
    ExecStep([Op(o)] + rest, vs);
  }

  // Steps of PostfixCalcExample7, one short piece per lemma so that each proof stays small.
  lemma PostfixCalcExample7Part2()
    ensures Exec([N3, Op(Div), Op(Mul), Op(Sub)], [Pushed(N7), Pushed(N3), Pushed(N6), Pushed(N2)]) == Ok([Pushed(N7), Value(-1.0)])
  {
    assert [N3, Op(Div), Op(Mul), Op(Sub)][1..] == [Op(Div)] + [Op(Mul), Op(Sub)];
    assert [Pushed(N7), Pushed(N3), Pushed(N6), Pushed(N2)] + [Pushed(N3)] == [Pushed(N7), Pushed(N3), Pushed(N6)] + [Pushed(N2), Pushed(N3)];
    assert Exec([N3, Op(Div), Op(Mul), Op(Sub)], [Pushed(N7), Pushed(N3), Pushed(N6), Pushed(N2)]) == Exec([Op(Div)] + [Op(Mul), Op(Sub)], [Pushed(N7), Pushed(N3), Pushed(N6)] + [Pushed(N2), Pushed(N3)]);
    assert NumberOf(Pushed(N2)) == Ok(2.0) && NumberOf(Pushed(N3)) == Ok(3.0);
    ExecBinary(Div, [Op(Mul), Op(Sub)], [Pushed(N7), Pushed(N3), Pushed(N6)], Pushed(N2), Pushed(N3), 2.0 / 3.0);
    assert [Op(Mul), Op(Sub)] == [Op(Mul)] + [Op(Sub)];
    assert [Pushed(N7), Pushed(N3), Pushed(N6)] + [Value(2.0 / 3.0)] == [Pushed(N7), Pushed(N3)] + [Pushed(N6), Value(2.0 / 3.0)];
    assert NumberOf(Pushed(N6)) == Ok(6.0);
    ExecBinary(Mul, [Op(Sub)], [Pushed(N7), Pushed(N3)], Pushed(N6), Value(2.0 / 3.0), 4.0);
    assert [Op(Sub)] == [Op(Sub)] + [];
    assert [Pushed(N7), Pushed(N3)] + [Value(4.0)] == [Pushed(N7)] + [Pushed(N3), Value(4.0)];
    ExecBinary(Sub, [], [Pushed(N7)], Pushed(N3), Value(4.0), -1.0);
    assert [Pushed(N7)] + [Value(-1.0)] == [Pushed(N7), Value(-1.0)];
  }

  lemma PostfixCalcExample7Part3()
    ensures Exec([Op(Add)], [Pushed(N7), Value(-1.0)]) == Ok([Value(6.0)])
  {
    assert [Op(Add)][1..] == [];
    assert NumberOf(Value(-1.0)) == Ok(-1.0);
    assert NumberOf(Pushed(N7)) == Ok(7.0);
    assert [Pushed(N7), Value(-1.0)][..0] == [];
    assert [] + [Value(6.0)] == [Value(6.0)];
    assert Eval1(Op(Add), [Pushed(N7), Value(-1.0)]) == Ok([Value(6.0)]);
    assert Exec([Op(Add)], [Pushed(N7), Value(-1.0)]) == Exec([], [Value(6.0)]);
  }

  /** `7 3 6 2 3 / * - +` gives 6. */
  lemma PostfixCalcExample7()
    ensures Calc([N7, N3, N6, N2] + [N3, Op(Div), Op(Mul), Op(Sub)] + [Op(Add)]) == Ok(Value(6.0))
  {
    PostfixCalcExample7Part1();
    PostfixCalcExample7Part2();
    ExecAppend([N7, N3, N6, N2], [N3, Op(Div), Op(Mul), Op(Sub)], []);
    PostfixCalcExample7Part3();
    ExecAppend([N7, N3, N6, N2] + [N3, Op(Div), Op(Mul), Op(Sub)], [Op(Add)], []);
  }

  /** `2 1 - 1 -` gives 0. */
  lemma PostfixCalcExample8()
    ensures Calc([N2, N1, Op(Sub), N1, Op(Sub)]) == Ok(Value(0.0))
  {
    assert [N2, N1, Op(Sub), N1, Op(Sub)][1..] == [N1, Op(Sub), N1, Op(Sub)];
    assert [] + [Pushed(N2)] == [Pushed(N2)];
    assert Eval1(N2, []) == Ok([Pushed(N2)]);
    assert Exec([N2, N1, Op(Sub), N1, Op(Sub)], []) == Exec([N1, Op(Sub), N1, Op(Sub)], [Pushed(N2)]);
    assert [N1, Op(Sub), N1, Op(Sub)][1..] == [Op(Sub), N1, Op(Sub)];
    assert [Pushed(N2)] + [Pushed(N1)] == [Pushed(N2), Pushed(N1)];
    assert Eval1(N1, [Pushed(N2)]) == Ok([Pushed(N2), Pushed(N1)]);
    assert Exec([N1, Op(Sub), N1, Op(Sub)], [Pushed(N2)]) == Exec([Op(Sub), N1, Op(Sub)], [Pushed(N2), Pushed(N1)]);
    assert [Op(Sub), N1, Op(Sub)][1..] == [N1, Op(Sub)];
    assert NumberOf(Pushed(N1)) == Ok(1.0);
    assert NumberOf(Pushed(N2)) == Ok(2.0);
    assert [Pushed(N2), Pushed(N1)][..0] == [];
    assert [] + [Value(1.0)] == [Value(1.0)];
    assert Eval1(Op(Sub), [Pushed(N2), Pushed(N1)]) == Ok([Value(1.0)]);
    assert Exec([Op(Sub), N1, Op(Sub)], [Pushed(N2), Pushed(N1)]) == Exec([N1, Op(Sub)], [Value(1.0)]);
    assert [N1, Op(Sub)][1..] == [Op(Sub)];
    assert [Value(1.0)] + [Pushed(N1)] == [Value(1.0), Pushed(N1)];
    assert Eval1(N1, [Value(1.0)]) == Ok([Value(1.0), Pushed(N1)]);
    assert Exec([N1, Op(Sub)], [Value(1.0)]) == Exec([Op(Sub)], [Value(1.0), Pushed(N1)]);
    assert [Op(Sub)][1..] == [];
    assert NumberOf(Pushed(N1)) == Ok(1.0);
    assert NumberOf(Value(1.0)) == Ok(1.0);
    assert [Value(1.0), Pushed(N1)][..0] == [];
    assert [] + [Value(0.0)] == [Value(0.0)];
    assert Eval1(Op(Sub), [Value(1.0), Pushed(N1)]) == Ok([Value(0.0)]);
    assert Exec([Op(Sub)], [Value(1.0), Pushed(N1)]) == Exec([], [Value(0.0)]);
  }

  /** `1 0 /` divides by zero. */
  lemma PostfixCalcExample9()
    ensures Calc([N1, N0, Op(Div)]) == Err(DivByZero)
  {
    assert [N1, N0, Op(Div)][1..] == [N0, Op(Div)];
    assert [] + [Pushed(N1)] == [Pushed(N1)];
    assert Eval1(N1, []) == Ok([Pushed(N1)]);
    assert Exec([N1, N0, Op(Div)], []) == Exec([N0, Op(Div)], [Pushed(N1)]);
    assert [N0, Op(Div)][1..] == [Op(Div)];
    assert [Pushed(N1)] + [Pushed(N0)] == [Pushed(N1), Pushed(N0)];
    assert Eval1(N0, [Pushed(N1)]) == Ok([Pushed(N1), Pushed(N0)]);
    assert Exec([N0, Op(Div)], [Pushed(N1)]) == Exec([Op(Div)], [Pushed(N1), Pushed(N0)]);
    assert [Op(Div)][1..] == [];
    assert NumberOf(Pushed(N0)) == Ok(0.0);
    assert NumberOf(Pushed(N1)) == Ok(1.0);
    assert Eval1(Op(Div), [Pushed(N1), Pushed(N0)]) == Err(DivByZero);
    assert Exec([Op(Div)], [Pushed(N1), Pushed(N0)]) == Err(DivByZero);
  }
}
