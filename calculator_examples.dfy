/** Lines from the calculator's documentation, run through the stages. */
module CalculatorExamples {
  import opened Tokens
  import opened Tokenizer
  import opened Evaluator
  import opened Grammar
  import opened Pipeline

  /** The number tokens of the example lines. */
  const N1: Token := Num("1")
  const N2: Token := Num("2")
  const N3: Token := Num("3")
  const N4: Token := Num("4")
  const N5: Token := Num("5")
  const N6: Token := Num("6")
  const N100: Token := Num("100")
  const N375: Token := Num("375")
  const N625: Token := Num("625")

  lemma FlattenJoin(a: seq<Token>, b: seq<Token>, c: seq<Token>, x: string, y: string, z: string)
    requires Flatten(a) == x && Flatten(b) == y && a + b == c && x + y == z
    ensures Flatten(c) == z
  {
    FlattenAppend(a, b);
  }

  lemma RemoveSpacesJoin(a: string, b: string, c: string, x: string, y: string, z: string)
    requires RemoveSpaces(a) == x && RemoveSpaces(b) == y && a + b == c && x + y == z
    ensures RemoveSpaces(c) == z
  {
    RemoveSpacesAppend(a, b);
  }

  /** The expression ((2-1)*4 + 6) / 5 as a grammar tree. */
  function Example1Tree(): Sum
  {
    Single(MulDiv(One(Group(AddSub(Single(MulDiv(One(Group(AddSub(Single(One(Number("2"))), Minus, One(Number("1"))))), Times, Number("4"))), Plus, One(Number("6"))))), Over, Number("5")))
  }

  /** Its tokens, subexpression by subexpression. */
  lemma Example1MeaningTokens()
    ensures SumTokens(Example1Tree()) == [Open, Open, N2, Op(Sub), N1, Close, Op(Mul), N4, Op(Add), N6, Close, Op(Div), N5]
  {
    var f1 := Number("2");
    var p2 := One(f1);
    var s3 := Single(p2);
    var f4 := Number("1");
    var p5 := One(f4);
    var s6 := AddSub(s3, Minus, p5);
    var f7 := Group(s6);
    var p8 := One(f7);
    var f9 := Number("4");
    var p10 := MulDiv(p8, Times, f9);
    var s11 := Single(p10);
    var f12 := Number("6");
    var p13 := One(f12);
    var s14 := AddSub(s11, Plus, p13);
    var f15 := Group(s14);
    var p16 := One(f15);
    var f17 := Number("5");
    var p18 := MulDiv(p16, Over, f17);
    var s19 := Single(p18);
    assert s19 == Example1Tree();
    assert FactorTokens(f1) == [N2];
    assert ProductTokens(p2) == [N2];
    assert SumTokens(s3) == [N2];
    assert FactorTokens(f4) == [N1];
    assert ProductTokens(p5) == [N1];
    assert SumTokens(s6) == [N2, Op(Sub), N1];
    assert FactorTokens(f7) == [Open, N2, Op(Sub), N1, Close];
    assert ProductTokens(p8) == [Open, N2, Op(Sub), N1, Close];
    assert FactorTokens(f9) == [N4];
    assert ProductTokens(p10) == [Open, N2, Op(Sub), N1, Close, Op(Mul), N4];
    assert SumTokens(s11) == [Open, N2, Op(Sub), N1, Close, Op(Mul), N4];
    assert FactorTokens(f12) == [N6];
    assert ProductTokens(p13) == [N6];
    assert SumTokens(s14) == [Open, N2, Op(Sub), N1, Close, Op(Mul), N4, Op(Add), N6];
    assert FactorTokens(f15) == [Open, Open, N2, Op(Sub), N1, Close, Op(Mul), N4, Op(Add), N6, Close];
    assert ProductTokens(p16) == [Open, Open, N2, Op(Sub), N1, Close, Op(Mul), N4, Op(Add), N6, Close];
    assert FactorTokens(f17) == [N5];
    assert ProductTokens(p18) == [Open, Open, N2, Op(Sub), N1, Close, Op(Mul), N4, Op(Add), N6, Close, Op(Div), N5];
    assert SumTokens(s19) == [Open, Open, N2, Op(Sub), N1, Close, Op(Mul), N4, Op(Add), N6, Close, Op(Div), N5];
  }

  // Steps of Example1, one short piece per lemma so that each proof stays small.
  lemma Example1MeaningValue()
    ensures SumValue(Example1Tree()) == Some(2.0)
  {
    var f1 := Number("2");
    var p2 := One(f1);
    var s3 := Single(p2);
    var f4 := Number("1");
    var p5 := One(f4);
    var s6 := AddSub(s3, Minus, p5);
    var f7 := Group(s6);
    var p8 := One(f7);
    var f9 := Number("4");
    var p10 := MulDiv(p8, Times, f9);
    var s11 := Single(p10);
    var f12 := Number("6");
    var p13 := One(f12);
    var s14 := AddSub(s11, Plus, p13);
    var f15 := Group(s14);
    var p16 := One(f15);
    var f17 := Number("5");
    var p18 := MulDiv(p16, Over, f17);
    var s19 := Single(p18);
    assert s19 == Example1Tree();
    assert FactorValue(f1) == Some(2.0);
    assert ProductValue(p2) == Some(2.0);
    assert SumValue(s3) == Some(2.0);
    assert FactorValue(f4) == Some(1.0);
    assert ProductValue(p5) == Some(1.0);
    assert SumValue(s6) == Some(1.0);
    assert FactorValue(f7) == Some(1.0);
    assert ProductValue(p8) == Some(1.0);
    assert FactorValue(f9) == Some(4.0);
    assert ProductValue(p10) == Some(4.0);
    assert SumValue(s11) == Some(4.0);
    assert FactorValue(f12) == Some(6.0);
    assert ProductValue(p13) == Some(6.0);
    assert SumValue(s14) == Some(10.0);
    assert FactorValue(f15) == Some(10.0);
    assert ProductValue(p16) == Some(10.0);
    assert FactorValue(f17) == Some(5.0);
    assert ProductValue(p18) == Some(2.0);
    assert SumValue(s19) == Some(2.0);
  }

  /** Its tokens and its value. */
  lemma Example1Meaning()
    ensures SumTokens(Example1Tree()) == [Open, Open, N2, Op(Sub), N1, Close, Op(Mul), N4, Op(Add), N6, Close, Op(Div), N5]
    ensures SumValue(Example1Tree()) == Some(2.0)
  {
    Example1MeaningTokens();
    Example1MeaningValue();
  }

  lemma Example1Text1()
    ensures Flatten([Open, Open, N2, Op(Sub)]) == "((2-"
  {
    assert [Op(Sub)][1..] == [];
    assert Flatten([Op(Sub)]) == "-";
    assert [N2, Op(Sub)][1..] == [Op(Sub)];
    assert Flatten([N2, Op(Sub)]) == "2-";
    assert [Open, N2, Op(Sub)][1..] == [N2, Op(Sub)];
    assert Flatten([Open, N2, Op(Sub)]) == "(2-";
    assert [Open, Open, N2, Op(Sub)][1..] == [Open, N2, Op(Sub)];
    assert Flatten([Open, Open, N2, Op(Sub)]) == "((2-";
  }

  lemma Example1Text2()
    ensures Flatten([N1, Close, Op(Mul), N4]) == "1)*4"
  {
    assert [N4][1..] == [];
    assert Flatten([N4]) == "4";
    assert [Op(Mul), N4][1..] == [N4];
    assert Flatten([Op(Mul), N4]) == "*4";
    assert [Close, Op(Mul), N4][1..] == [Op(Mul), N4];
    assert Flatten([Close, Op(Mul), N4]) == ")*4";
    assert [N1, Close, Op(Mul), N4][1..] == [Close, Op(Mul), N4];
    assert Flatten([N1, Close, Op(Mul), N4]) == "1)*4";
  }

  lemma Example1Text3()
    ensures Flatten([Op(Add), N6, Close, Op(Div)]) == "+6)/"
  {
    assert [Op(Div)][1..] == [];
    assert Flatten([Op(Div)]) == "/";
    assert [Close, Op(Div)][1..] == [Op(Div)];
    assert Flatten([Close, Op(Div)]) == ")/";
    assert [N6, Close, Op(Div)][1..] == [Close, Op(Div)];
    assert Flatten([N6, Close, Op(Div)]) == "6)/";
    assert [Op(Add), N6, Close, Op(Div)][1..] == [N6, Close, Op(Div)];
    assert Flatten([Op(Add), N6, Close, Op(Div)]) == "+6)/";
  }

  lemma Example1Text4()
    ensures Flatten([N5]) == "5"
  {
    assert [N5][1..] == [];
    assert Flatten([N5]) == "5";
  }

  lemma Example1TextUpTo2()
    ensures Flatten([Open, Open, N2, Op(Sub), N1, Close, Op(Mul), N4]) == "((2-1)*4"
  {
    Example1Text1();
    Example1Text2();
    Example1TextJoin2();
    FlattenJoin([Open, Open, N2, Op(Sub)], [N1, Close, Op(Mul), N4], [Open, Open, N2, Op(Sub), N1, Close, Op(Mul), N4], "((2-", "1)*4", "((2-1)*4");
  }

  lemma Example1TextJoin2()
    ensures [Open, Open, N2, Op(Sub)] + [N1, Close, Op(Mul), N4] == [Open, Open, N2, Op(Sub), N1, Close, Op(Mul), N4]
    ensures "((2-" + "1)*4" == "((2-1)*4"
  {
  }

  lemma Example1TextUpTo3()
    ensures Flatten([Open, Open, N2, Op(Sub), N1, Close, Op(Mul), N4, Op(Add), N6, Close, Op(Div)]) == "((2-1)*4+6)/"
  {
    Example1TextUpTo2();
    Example1Text3();
    Example1TextJoin3();
    FlattenJoin([Open, Open, N2, Op(Sub), N1, Close, Op(Mul), N4], [Op(Add), N6, Close, Op(Div)], [Open, Open, N2, Op(Sub), N1, Close, Op(Mul), N4, Op(Add), N6, Close, Op(Div)], "((2-1)*4", "+6)/", "((2-1)*4+6)/");
  }

  lemma Example1TextJoin3()
    ensures [Open, Open, N2, Op(Sub), N1, Close, Op(Mul), N4] + [Op(Add), N6, Close, Op(Div)] == [Open, Open, N2, Op(Sub), N1, Close, Op(Mul), N4, Op(Add), N6, Close, Op(Div)]
    ensures "((2-1)*4" + "+6)/" == "((2-1)*4+6)/"
  {
  }

  lemma Example1Text()
    ensures Flatten([Open, Open, N2, Op(Sub), N1, Close, Op(Mul), N4, Op(Add), N6, Close, Op(Div), N5]) == "((2-1)*4+6)/5"
  {
    Example1TextUpTo3();
    Example1Text4();
    Example1TextJoin4();
    FlattenJoin([Open, Open, N2, Op(Sub), N1, Close, Op(Mul), N4, Op(Add), N6, Close, Op(Div)], [N5], [Open, Open, N2, Op(Sub), N1, Close, Op(Mul), N4, Op(Add), N6, Close, Op(Div), N5], "((2-1)*4+6)/", "5", "((2-1)*4+6)/5");
  }

  lemma Example1TextJoin4()
    ensures [Open, Open, N2, Op(Sub), N1, Close, Op(Mul), N4, Op(Add), N6, Close, Op(Div)] + [N5] == [Open, Open, N2, Op(Sub), N1, Close, Op(Mul), N4, Op(Add), N6, Close, Op(Div), N5]
    ensures "((2-1)*4+6)/" + "5" == "((2-1)*4+6)/5"
  {
  }

  lemma Example1Spaces1()
    ensures RemoveSpaces("((2-") == "((2-"
  {
    assert "-"[1..] == "";
    assert RemoveSpaces("-") == "-";
    assert "2-"[1..] == "-";
    assert RemoveSpaces("2-") == "2-";
    assert "(2-"[1..] == "2-";
    assert RemoveSpaces("(2-") == "(2-";
    assert "((2-"[1..] == "(2-";
    assert RemoveSpaces("((2-") == "((2-";
  }

  lemma Example1Spaces2()
    ensures RemoveSpaces("1)*4") == "1)*4"
  {
    assert "4"[1..] == "";
    assert RemoveSpaces("4") == "4";
    assert "*4"[1..] == "4";
    assert RemoveSpaces("*4") == "*4";
    assert ")*4"[1..] == "*4";
    assert RemoveSpaces(")*4") == ")*4";
    assert "1)*4"[1..] == ")*4";
    assert RemoveSpaces("1)*4") == "1)*4";
  }

  lemma Example1Spaces3()
    ensures RemoveSpaces(" + 6") == "+6"
  {
    assert "6"[1..] == "";
    assert RemoveSpaces("6") == "6";
    assert " 6"[1..] == "6";
    assert RemoveSpaces(" 6") == "6";
    assert "+ 6"[1..] == " 6";
    assert RemoveSpaces("+ 6") == "+6";
    assert " + 6"[1..] == "+ 6";
    assert RemoveSpaces(" + 6") == "+6";
  }

  lemma Example1Spaces4()
    ensures RemoveSpaces(") / ") == ")/"
  {
    assert " "[1..] == "";
    assert RemoveSpaces(" ") == "";
    assert "/ "[1..] == " ";
    assert RemoveSpaces("/ ") == "/";
    assert " / "[1..] == "/ ";
    assert RemoveSpaces(" / ") == "/";
    assert ") / "[1..] == " / ";
    assert RemoveSpaces(") / ") == ")/";
  }

  lemma Example1Spaces5()
    ensures RemoveSpaces("5") == "5"
  {
    assert "5"[1..] == "";
    assert RemoveSpaces("5") == "5";
  }

  lemma Example1SpacesUpTo2()
    ensures RemoveSpaces("((2-1)*4") == "((2-1)*4"
  {
    Example1Spaces1();
    Example1Spaces2();
    Example1SpacesJoin2();
    RemoveSpacesJoin("((2-", "1)*4", "((2-1)*4", "((2-", "1)*4", "((2-1)*4");
  }

  lemma Example1SpacesJoin2()
    ensures "((2-" + "1)*4" == "((2-1)*4"
    ensures "((2-" + "1)*4" == "((2-1)*4"
  {
  }

  lemma Example1SpacesUpTo3()
    ensures RemoveSpaces("((2-1)*4 + 6") == "((2-1)*4+6"
  {
    Example1SpacesUpTo2();
    Example1Spaces3();
    Example1SpacesJoin3();
    RemoveSpacesJoin("((2-1)*4", " + 6", "((2-1)*4 + 6", "((2-1)*4", "+6", "((2-1)*4+6");
  }

  lemma Example1SpacesJoin3()
    ensures "((2-1)*4" + " + 6" == "((2-1)*4 + 6"
    ensures "((2-1)*4" + "+6" == "((2-1)*4+6"
  {
  }

  lemma Example1SpacesUpTo4()
    ensures RemoveSpaces("((2-1)*4 + 6) / ") == "((2-1)*4+6)/"
  {
    Example1SpacesUpTo3();
    Example1Spaces4();
    Example1SpacesJoin4();
    RemoveSpacesJoin("((2-1)*4 + 6", ") / ", "((2-1)*4 + 6) / ", "((2-1)*4+6", ")/", "((2-1)*4+6)/");
  }

  lemma Example1SpacesJoin4()
    ensures "((2-1)*4 + 6" + ") / " == "((2-1)*4 + 6) / "
    ensures "((2-1)*4+6" + ")/" == "((2-1)*4+6)/"
  {
  }

  lemma Example1Spaces()
    ensures RemoveSpaces("((2-1)*4 + 6) / 5") == "((2-1)*4+6)/5"
  {
    Example1SpacesUpTo4();
    Example1Spaces5();
    Example1SpacesJoin5();
    RemoveSpacesJoin("((2-1)*4 + 6) / ", "5", "((2-1)*4 + 6) / 5", "((2-1)*4+6)/", "5", "((2-1)*4+6)/5");
  }

  lemma Example1SpacesJoin5()
    ensures "((2-1)*4 + 6) / " + "5" == "((2-1)*4 + 6) / 5"
    ensures "((2-1)*4+6)/" + "5" == "((2-1)*4+6)/5"
  {
  }

  /** ((2-1)*4 + 6) / 5 gives 2. */
  lemma Example1()
    ensures Evaluate("((2-1)*4 + 6) / 5").Ok?
    ensures NumberOf(Evaluate("((2-1)*4 + 6) / 5").value) == Ok(2.0)
  {
    Example1Meaning();
    Example1Text();
    Example1Spaces();
    Calculates("((2-1)*4 + 6) / 5", Example1Tree());
  }

  /** The expression (2 + 2) * 2 as a grammar tree. */
  function GroupedLineTree(): Sum
  {
    Single(MulDiv(One(Group(AddSub(Single(One(Number("2"))), Plus, One(Number("2"))))), Times, Number("2")))
  }

  /** Its tokens, subexpression by subexpression. */
  lemma GroupedLineMeaningTokens()
    ensures SumTokens(GroupedLineTree()) == [Open, N2, Op(Add), N2, Close, Op(Mul), N2]
  {
    var f1 := Number("2");
    var p2 := One(f1);
    var s3 := Single(p2);
    var f4 := Number("2");
    var p5 := One(f4);
    var s6 := AddSub(s3, Plus, p5);
    var f7 := Group(s6);
    var p8 := One(f7);
    var f9 := Number("2");
    var p10 := MulDiv(p8, Times, f9);
    var s11 := Single(p10);
    assert s11 == GroupedLineTree();
    assert FactorTokens(f1) == [N2];
    assert ProductTokens(p2) == [N2];
    assert SumTokens(s3) == [N2];
    assert FactorTokens(f4) == [N2];
    assert ProductTokens(p5) == [N2];
    assert SumTokens(s6) == [N2, Op(Add), N2];
    assert FactorTokens(f7) == [Open, N2, Op(Add), N2, Close];
    assert ProductTokens(p8) == [Open, N2, Op(Add), N2, Close];
    assert FactorTokens(f9) == [N2];
    assert ProductTokens(p10) == [Open, N2, Op(Add), N2, Close, Op(Mul), N2];
    assert SumTokens(s11) == [Open, N2, Op(Add), N2, Close, Op(Mul), N2];
  }

  // Steps of GroupedLine, one short piece per lemma so that each proof stays small.
  lemma GroupedLineMeaningValue()
    ensures SumValue(GroupedLineTree()) == Some(8.0)
  {
    var f1 := Number("2");
    var p2 := One(f1);
    var s3 := Single(p2);
    var f4 := Number("2");
    var p5 := One(f4);
    var s6 := AddSub(s3, Plus, p5);
    var f7 := Group(s6);
    var p8 := One(f7);
    var f9 := Number("2");
    var p10 := MulDiv(p8, Times, f9);
    var s11 := Single(p10);
    assert s11 == GroupedLineTree();
    assert FactorValue(f1) == Some(2.0);
    assert ProductValue(p2) == Some(2.0);
    assert SumValue(s3) == Some(2.0);
    assert FactorValue(f4) == Some(2.0);
    assert ProductValue(p5) == Some(2.0);
    assert SumValue(s6) == Some(4.0);
    assert FactorValue(f7) == Some(4.0);
    assert ProductValue(p8) == Some(4.0);
    assert FactorValue(f9) == Some(2.0);
    assert ProductValue(p10) == Some(8.0);
    assert SumValue(s11) == Some(8.0);
  }

  /** Its tokens and its value. */
  lemma GroupedLineMeaning()
    ensures SumTokens(GroupedLineTree()) == [Open, N2, Op(Add), N2, Close, Op(Mul), N2]
    ensures SumValue(GroupedLineTree()) == Some(8.0)
  {
    GroupedLineMeaningTokens();
    GroupedLineMeaningValue();
  }

  lemma GroupedLineText1()
    ensures Flatten([Open, N2, Op(Add), N2]) == "(2+2"
  {
    assert [N2][1..] == [];
    assert Flatten([N2]) == "2";
    assert [Op(Add), N2][1..] == [N2];
    assert Flatten([Op(Add), N2]) == "+2";
    assert [N2, Op(Add), N2][1..] == [Op(Add), N2];
    assert Flatten([N2, Op(Add), N2]) == "2+2";
    assert [Open, N2, Op(Add), N2][1..] == [N2, Op(Add), N2];
    assert Flatten([Open, N2, Op(Add), N2]) == "(2+2";
  }

  lemma GroupedLineText2()
    ensures Flatten([Close, Op(Mul), N2]) == ")*2"
  {
    assert [N2][1..] == [];
    assert Flatten([N2]) == "2";
    assert [Op(Mul), N2][1..] == [N2];
    assert Flatten([Op(Mul), N2]) == "*2";
    assert [Close, Op(Mul), N2][1..] == [Op(Mul), N2];
    assert Flatten([Close, Op(Mul), N2]) == ")*2";
  }

  lemma GroupedLineText()
    ensures Flatten([Open, N2, Op(Add), N2, Close, Op(Mul), N2]) == "(2+2)*2"
  {
    GroupedLineText1();
    GroupedLineText2();
    GroupedLineTextJoin2();
    FlattenJoin([Open, N2, Op(Add), N2], [Close, Op(Mul), N2], [Open, N2, Op(Add), N2, Close, Op(Mul), N2], "(2+2", ")*2", "(2+2)*2");
  }

  lemma GroupedLineTextJoin2()
    ensures [Open, N2, Op(Add), N2] + [Close, Op(Mul), N2] == [Open, N2, Op(Add), N2, Close, Op(Mul), N2]
    ensures "(2+2" + ")*2" == "(2+2)*2"
  {
  }

  lemma GroupedLineSpaces1()
    ensures RemoveSpaces("(2 +") == "(2+"
  {
    assert "+"[1..] == "";
    assert RemoveSpaces("+") == "+";
    assert " +"[1..] == "+";
    assert RemoveSpaces(" +") == "+";
    assert "2 +"[1..] == " +";
    assert RemoveSpaces("2 +") == "2+";
    assert "(2 +"[1..] == "2 +";
    assert RemoveSpaces("(2 +") == "(2+";
  }

  lemma GroupedLineSpaces2()
    ensures RemoveSpaces(" 2) ") == "2)"
  {
    assert " "[1..] == "";
    assert RemoveSpaces(" ") == "";
    assert ") "[1..] == " ";
    assert RemoveSpaces(") ") == ")";
    assert "2) "[1..] == ") ";
    assert RemoveSpaces("2) ") == "2)";
    assert " 2) "[1..] == "2) ";
    assert RemoveSpaces(" 2) ") == "2)";
  }

  lemma GroupedLineSpaces3()
    ensures RemoveSpaces("* 2") == "*2"
  {
    assert "2"[1..] == "";
    assert RemoveSpaces("2") == "2";
    assert " 2"[1..] == "2";
    assert RemoveSpaces(" 2") == "2";
    assert "* 2"[1..] == " 2";
    assert RemoveSpaces("* 2") == "*2";
  }

  lemma GroupedLineSpacesUpTo2()
    ensures RemoveSpaces("(2 + 2) ") == "(2+2)"
  {
    GroupedLineSpaces1();
    GroupedLineSpaces2();
    GroupedLineSpacesJoin2();
    RemoveSpacesJoin("(2 +", " 2) ", "(2 + 2) ", "(2+", "2)", "(2+2)");
  }

  lemma GroupedLineSpacesJoin2()
    ensures "(2 +" + " 2) " == "(2 + 2) "
    ensures "(2+" + "2)" == "(2+2)"
  {
  }

  lemma GroupedLineSpaces()
    ensures RemoveSpaces("(2 + 2) * 2") == "(2+2)*2"
  {
    GroupedLineSpacesUpTo2();
    GroupedLineSpaces3();
    GroupedLineSpacesJoin3();
    RemoveSpacesJoin("(2 + 2) ", "* 2", "(2 + 2) * 2", "(2+2)", "*2", "(2+2)*2");
  }

  lemma GroupedLineSpacesJoin3()
    ensures "(2 + 2) " + "* 2" == "(2 + 2) * 2"
    ensures "(2+2)" + "*2" == "(2+2)*2"
  {
  }

  /** The tokenizer splits (2 + 2) * 2 into its seven tokens. */
  lemma GroupedLine()
    ensures Tokenize("(2 + 2) * 2") == Ok([Open, N2, Op(Add), N2, Close, Op(Mul), N2])
  {
    GroupedLineMeaning();
    GroupedLineText();
    GroupedLineSpaces();
    TokenizeExpression("(2 + 2) * 2", GroupedLineTree());
  }

  /** The expression (625+375)/100 - 2*(2+3) as a grammar tree. */
  function Example2Tree(): Sum
  {
    AddSub(Single(MulDiv(One(Group(AddSub(Single(One(Number("625"))), Plus, One(Number("375"))))), Over, Number("100"))), Minus, MulDiv(One(Number("2")), Times, Group(AddSub(Single(One(Number("2"))), Plus, One(Number("3"))))))
  }

  /** Its tokens, subexpression by subexpression. */
  lemma Example2MeaningTokens()
    ensures SumTokens(Example2Tree()) == [Open, N625, Op(Add), N375, Close, Op(Div), N100, Op(Sub), N2, Op(Mul), Open, N2, Op(Add), N3, Close]
  {
    var f1 := Number("625");
    var p2 := One(f1);
    var s3 := Single(p2);
    var f4 := Number("375");
    var p5 := One(f4);
    var s6 := AddSub(s3, Plus, p5);
    var f7 := Group(s6);
    var p8 := One(f7);
    var f9 := Number("100");
    var p10 := MulDiv(p8, Over, f9);
    var s11 := Single(p10);
    var f12 := Number("2");
    var p13 := One(f12);
    var f14 := Number("2");
    var p15 := One(f14);
    var s16 := Single(p15);
    var f17 := Number("3");
    var p18 := One(f17);
    var s19 := AddSub(s16, Plus, p18);
    var f20 := Group(s19);
    var p21 := MulDiv(p13, Times, f20);
    var s22 := AddSub(s11, Minus, p21);
    assert s22 == Example2Tree();
    assert FactorTokens(f1) == [N625];
    assert ProductTokens(p2) == [N625];
    assert SumTokens(s3) == [N625];
    assert FactorTokens(f4) == [N375];
    assert ProductTokens(p5) == [N375];
    assert SumTokens(s6) == [N625, Op(Add), N375];
    assert FactorTokens(f7) == [Open, N625, Op(Add), N375, Close];
    assert ProductTokens(p8) == [Open, N625, Op(Add), N375, Close];
    assert FactorTokens(f9) == [N100];
    assert ProductTokens(p10) == [Open, N625, Op(Add), N375, Close, Op(Div), N100];
    assert SumTokens(s11) == [Open, N625, Op(Add), N375, Close, Op(Div), N100];
    assert FactorTokens(f12) == [N2];
    assert ProductTokens(p13) == [N2];
    assert FactorTokens(f14) == [N2];
    assert ProductTokens(p15) == [N2];
    assert SumTokens(s16) == [N2];
    assert FactorTokens(f17) == [N3];
    assert ProductTokens(p18) == [N3];
    assert SumTokens(s19) == [N2, Op(Add), N3];
    assert FactorTokens(f20) == [Open, N2, Op(Add), N3, Close];
    assert ProductTokens(p21) == [N2, Op(Mul), Open, N2, Op(Add), N3, Close];
    assert SumTokens(s22) == [Open, N625, Op(Add), N375, Close, Op(Div), N100, Op(Sub), N2, Op(Mul), Open, N2, Op(Add), N3, Close];
  }

  // Steps of Example2, one short piece per lemma so that each proof stays small.
  lemma Example2MeaningValue()
    ensures SumValue(Example2Tree()) == Some(0.0)
  {
    var f1 := Number("625");
    var p2 := One(f1);
    var s3 := Single(p2);
    var f4 := Number("375");
    var p5 := One(f4);
    var s6 := AddSub(s3, Plus, p5);
    var f7 := Group(s6);
    var p8 := One(f7);
    var f9 := Number("100");
    var p10 := MulDiv(p8, Over, f9);
    var s11 := Single(p10);
    var f12 := Number("2");
    var p13 := One(f12);
    var f14 := Number("2");
    var p15 := One(f14);
    var s16 := Single(p15);
    var f17 := Number("3");
    var p18 := One(f17);
    var s19 := AddSub(s16, Plus, p18);
    var f20 := Group(s19);
    var p21 := MulDiv(p13, Times, f20);
    var s22 := AddSub(s11, Minus, p21);
    assert s22 == Example2Tree();
    assert "62"[..1] == "6";
    assert DigitsValue("62") == 62;
    assert "625"[..2] == "62";
    assert DigitsValue("625") == 625;
    assert "37"[..1] == "3";
    assert DigitsValue("37") == 37;
    assert "375"[..2] == "37";
    assert DigitsValue("375") == 375;
    assert "10"[..1] == "1";
    assert DigitsValue("10") == 10;
    assert "100"[..2] == "10";
    assert DigitsValue("100") == 100;
    assert FactorValue(f1) == Some(625.0);
    assert ProductValue(p2) == Some(625.0);
    assert SumValue(s3) == Some(625.0);
    assert FactorValue(f4) == Some(375.0);
    assert ProductValue(p5) == Some(375.0);
    assert SumValue(s6) == Some(1000.0);
    assert FactorValue(f7) == Some(1000.0);
    assert ProductValue(p8) == Some(1000.0);
    assert FactorValue(f9) == Some(100.0);
    assert ProductValue(p10) == Some(10.0);
    assert SumValue(s11) == Some(10.0);
    assert FactorValue(f12) == Some(2.0);
    assert ProductValue(p13) == Some(2.0);
    assert FactorValue(f14) == Some(2.0);
    assert ProductValue(p15) == Some(2.0);
    assert SumValue(s16) == Some(2.0);
    assert FactorValue(f17) == Some(3.0);
    assert ProductValue(p18) == Some(3.0);
    assert SumValue(s19) == Some(5.0);
    assert FactorValue(f20) == Some(5.0);
    assert ProductValue(p21) == Some(10.0);
    assert SumValue(s22) == Some(0.0);
  }

  /** Its tokens and its value. */
  lemma Example2Meaning()
    ensures SumTokens(Example2Tree()) == [Open, N625, Op(Add), N375, Close, Op(Div), N100, Op(Sub), N2, Op(Mul), Open, N2, Op(Add), N3, Close]
    ensures SumValue(Example2Tree()) == Some(0.0)
  {
    Example2MeaningTokens();
    Example2MeaningValue();
  }

  lemma Example2Text1()
    ensures Flatten([Open, N625, Op(Add), N375]) == "(625+375"
  {
    assert [N375][1..] == [];
    assert Flatten([N375]) == "375";
    assert [Op(Add), N375][1..] == [N375];
    assert Flatten([Op(Add), N375]) == "+375";
    assert [N625, Op(Add), N375][1..] == [Op(Add), N375];
    assert Flatten([N625, Op(Add), N375]) == "625+375";
    assert [Open, N625, Op(Add), N375][1..] == [N625, Op(Add), N375];
    assert Flatten([Open, N625, Op(Add), N375]) == "(625+375";
  }

  lemma Example2Text2()
    ensures Flatten([Close, Op(Div), N100, Op(Sub)]) == ")/100-"
  {
    assert [Op(Sub)][1..] == [];
    assert Flatten([Op(Sub)]) == "-";
    assert [N100, Op(Sub)][1..] == [Op(Sub)];
    assert Flatten([N100, Op(Sub)]) == "100-";
    assert [Op(Div), N100, Op(Sub)][1..] == [N100, Op(Sub)];
    assert Flatten([Op(Div), N100, Op(Sub)]) == "/100-";
    assert [Close, Op(Div), N100, Op(Sub)][1..] == [Op(Div), N100, Op(Sub)];
    assert Flatten([Close, Op(Div), N100, Op(Sub)]) == ")/100-";
  }

  lemma Example2Text3()
    ensures Flatten([N2, Op(Mul), Open, N2]) == "2*(2"
  {
    assert [N2][1..] == [];
    assert Flatten([N2]) == "2";
    assert [Open, N2][1..] == [N2];
    assert Flatten([Open, N2]) == "(2";
    assert [Op(Mul), Open, N2][1..] == [Open, N2];
    assert Flatten([Op(Mul), Open, N2]) == "*(2";
    assert [N2, Op(Mul), Open, N2][1..] == [Op(Mul), Open, N2];
    assert Flatten([N2, Op(Mul), Open, N2]) == "2*(2";
  }

  lemma Example2Text4()
    ensures Flatten([Op(Add), N3, Close]) == "+3)"
  {
    assert [Close][1..] == [];
    assert Flatten([Close]) == ")";
    assert [N3, Close][1..] == [Close];
    assert Flatten([N3, Close]) == "3)";
    assert [Op(Add), N3, Close][1..] == [N3, Close];
    assert Flatten([Op(Add), N3, Close]) == "+3)";
  }

  lemma Example2TextUpTo2()
    ensures Flatten([Open, N625, Op(Add), N375, Close, Op(Div), N100, Op(Sub)]) == "(625+375)/100-"
  {
    Example2Text1();
    Example2Text2();
    Example2TextJoin2();
    FlattenJoin([Open, N625, Op(Add), N375], [Close, Op(Div), N100, Op(Sub)], [Open, N625, Op(Add), N375, Close, Op(Div), N100, Op(Sub)], "(625+375", ")/100-", "(625+375)/100-");
  }

  lemma Example2TextJoin2()
    ensures [Open, N625, Op(Add), N375] + [Close, Op(Div), N100, Op(Sub)] == [Open, N625, Op(Add), N375, Close, Op(Div), N100, Op(Sub)]
    ensures "(625+375" + ")/100-" == "(625+375)/100-"
  {
  }

  lemma Example2TextUpTo3()
    ensures Flatten([Open, N625, Op(Add), N375, Close, Op(Div), N100, Op(Sub), N2, Op(Mul), Open, N2]) == "(625+375)/100-2*(2"
  {
    Example2TextUpTo2();
    Example2Text3();
    Example2TextJoin3();
    FlattenJoin([Open, N625, Op(Add), N375, Close, Op(Div), N100, Op(Sub)], [N2, Op(Mul), Open, N2], [Open, N625, Op(Add), N375, Close, Op(Div), N100, Op(Sub), N2, Op(Mul), Open, N2], "(625+375)/100-", "2*(2", "(625+375)/100-2*(2");
  }

  lemma Example2TextJoin3()
    ensures [Open, N625, Op(Add), N375, Close, Op(Div), N100, Op(Sub)] + [N2, Op(Mul), Open, N2] == [Open, N625, Op(Add), N375, Close, Op(Div), N100, Op(Sub), N2, Op(Mul), Open, N2]
    ensures "(625+375)/100-" + "2*(2" == "(625+375)/100-2*(2"
  {
  }

  lemma Example2Text()
    ensures Flatten([Open, N625, Op(Add), N375, Close, Op(Div), N100, Op(Sub), N2, Op(Mul), Open, N2, Op(Add), N3, Close]) == "(625+375)/100-2*(2+3)"
  {
    Example2TextUpTo3();
    Example2Text4();
    Example2TextJoin4();
    FlattenJoin([Open, N625, Op(Add), N375, Close, Op(Div), N100, Op(Sub), N2, Op(Mul), Open, N2], [Op(Add), N3, Close], [Open, N625, Op(Add), N375, Close, Op(Div), N100, Op(Sub), N2, Op(Mul), Open, N2, Op(Add), N3, Close], "(625+375)/100-2*(2", "+3)", "(625+375)/100-2*(2+3)");
  }

  lemma Example2TextJoin4()
    ensures [Open, N625, Op(Add), N375, Close, Op(Div), N100, Op(Sub), N2, Op(Mul), Open, N2] + [Op(Add), N3, Close] == [Open, N625, Op(Add), N375, Close, Op(Div), N100, Op(Sub), N2, Op(Mul), Open, N2, Op(Add), N3, Close]
    ensures "(625+375)/100-2*(2" + "+3)" == "(625+375)/100-2*(2+3)"
  {
  }

  lemma Example2Spaces1()
    ensures RemoveSpaces("(625") == "(625"
  {
    assert "5"[1..] == "";
    assert RemoveSpaces("5") == "5";
    assert "25"[1..] == "5";
    assert RemoveSpaces("25") == "25";
    assert "625"[1..] == "25";
    assert RemoveSpaces("625") == "625";
    assert "(625"[1..] == "625";
    assert RemoveSpaces("(625") == "(625";
  }

  lemma Example2Spaces2()
    ensures RemoveSpaces("+375") == "+375"
  {
    assert "5"[1..] == "";
    assert RemoveSpaces("5") == "5";
    assert "75"[1..] == "5";
    assert RemoveSpaces("75") == "75";
    assert "375"[1..] == "75";
    assert RemoveSpaces("375") == "375";
    assert "+375"[1..] == "375";
    assert RemoveSpaces("+375") == "+375";
  }

  lemma Example2Spaces3()
    ensures RemoveSpaces(")/10") == ")/10"
  {
    assert "0"[1..] == "";
    assert RemoveSpaces("0") == "0";
    assert "10"[1..] == "0";
    assert RemoveSpaces("10") == "10";
    assert "/10"[1..] == "10";
    assert RemoveSpaces("/10") == "/10";
    assert ")/10"[1..] == "/10";
    assert RemoveSpaces(")/10") == ")/10";
  }

  lemma Example2Spaces4()
    ensures RemoveSpaces("0 - ") == "0-"
  {
    assert " "[1..] == "";
    assert RemoveSpaces(" ") == "";
    assert "- "[1..] == " ";
    assert RemoveSpaces("- ") == "-";
    assert " - "[1..] == "- ";
    assert RemoveSpaces(" - ") == "-";
    assert "0 - "[1..] == " - ";
    assert RemoveSpaces("0 - ") == "0-";
  }

  lemma Example2Spaces5()
    ensures RemoveSpaces("2*(2") == "2*(2"
  {
    assert "2"[1..] == "";
    assert RemoveSpaces("2") == "2";
    assert "(2"[1..] == "2";
    assert RemoveSpaces("(2") == "(2";
    assert "*(2"[1..] == "(2";
    assert RemoveSpaces("*(2") == "*(2";
    assert "2*(2"[1..] == "*(2";
    assert RemoveSpaces("2*(2") == "2*(2";
  }

  lemma Example2Spaces6()
    ensures RemoveSpaces("+3)") == "+3)"
  {
    assert ")"[1..] == "";
    assert RemoveSpaces(")") == ")";
    assert "3)"[1..] == ")";
    assert RemoveSpaces("3)") == "3)";
    assert "+3)"[1..] == "3)";
    assert RemoveSpaces("+3)") == "+3)";
  }

  lemma Example2SpacesUpTo2()
    ensures RemoveSpaces("(625+375") == "(625+375"
  {
    Example2Spaces1();
    Example2Spaces2();
    Example2SpacesJoin2();
    RemoveSpacesJoin("(625", "+375", "(625+375", "(625", "+375", "(625+375");
  }

  lemma Example2SpacesJoin2()
    ensures "(625" + "+375" == "(625+375"
    ensures "(625" + "+375" == "(625+375"
  {
  }

  lemma Example2SpacesUpTo3()
    ensures RemoveSpaces("(625+375)/10") == "(625+375)/10"
  {
    Example2SpacesUpTo2();
    Example2Spaces3();
    Example2SpacesJoin3();
    RemoveSpacesJoin("(625+375", ")/10", "(625+375)/10", "(625+375", ")/10", "(625+375)/10");
  }

  lemma Example2SpacesJoin3()
    ensures "(625+375" + ")/10" == "(625+375)/10"
    ensures "(625+375" + ")/10" == "(625+375)/10"
  {
  }

  lemma Example2SpacesUpTo4()
    ensures RemoveSpaces("(625+375)/100 - ") == "(625+375)/100-"
  {
    Example2SpacesUpTo3();
    Example2Spaces4();
    Example2SpacesJoin4();
    RemoveSpacesJoin("(625+375)/10", "0 - ", "(625+375)/100 - ", "(625+375)/10", "0-", "(625+375)/100-");
  }

  lemma Example2SpacesJoin4()
    ensures "(625+375)/10" + "0 - " == "(625+375)/100 - "
    ensures "(625+375)/10" + "0-" == "(625+375)/100-"
  {
  }

  lemma Example2SpacesUpTo5()
    ensures RemoveSpaces("(625+375)/100 - 2*(2") == "(625+375)/100-2*(2"
  {
    Example2SpacesUpTo4();
    Example2Spaces5();
    Example2SpacesJoin5();
    RemoveSpacesJoin("(625+375)/100 - ", "2*(2", "(625+375)/100 - 2*(2", "(625+375)/100-", "2*(2", "(625+375)/100-2*(2");
  }

  lemma Example2SpacesJoin5()
    ensures "(625+375)/100 - " + "2*(2" == "(625+375)/100 - 2*(2"
    ensures "(625+375)/100-" + "2*(2" == "(625+375)/100-2*(2"
  {
  }

  lemma Example2Spaces()
    ensures RemoveSpaces("(625+375)/100 - 2*(2+3)") == "(625+375)/100-2*(2+3)"
  {
    Example2SpacesUpTo5();
    Example2Spaces6();
    Example2SpacesJoin6();
    RemoveSpacesJoin("(625+375)/100 - 2*(2", "+3)", "(625+375)/100 - 2*(2+3)", "(625+375)/100-2*(2", "+3)", "(625+375)/100-2*(2+3)");
  }

  lemma Example2SpacesJoin6()
    ensures "(625+375)/100 - 2*(2" + "+3)" == "(625+375)/100 - 2*(2+3)"
    ensures "(625+375)/100-2*(2" + "+3)" == "(625+375)/100-2*(2+3)"
  {
  }

  /** (625+375)/100 - 2*(2+3) gives 0. */
  lemma Example2()
    ensures Evaluate("(625+375)/100 - 2*(2+3)").Ok?
    ensures NumberOf(Evaluate("(625+375)/100 - 2*(2+3)").value) == Ok(0.0)
  {
    Example2Meaning();
    Example2Text();
    Example2Spaces();
    Calculates("(625+375)/100 - 2*(2+3)", Example2Tree());
  }
}
