/** The documented outcomes of the bracket check and of the tokenizer's checks. */
module TokenizerExamples {
  import opened Tokens
  import opened Braces
  import opened Tokenizer

  lemma ScanJoin(a: string, b: string, open: seq<char>, mid: seq<char>, r: Option<seq<char>>)
    requires Scan(a, open) == Some(mid) && Scan(b, mid) == r
    ensures Scan(a + b, open) == r
  {
    ScanAppend(a, b, open);
  }

  /** A balanced line whose non-space text has no operator at either end is rejected with the
      kind of its first faulty character. */
  lemma Rejects(x: string, t: string, k: ErrorKind)
    requires Balanced(x) && RemoveSpaces(x) == t && t != []
    requires !IsOpChar(t[0]) && !IsOpChar(t[|t| - 1]) && Fault(t, 0) == Some(k)
    ensures Tokenize(x) == Err(k)
  {
  }

  /** A balanced line whose non-space text starts or ends with an operator is rejected. */
  lemma RejectsEnd(x: string, t: string)
    requires Balanced(x) && RemoveSpaces(x) == t && t != []
    requires IsOpChar(t[0]) || IsOpChar(t[|t| - 1])
    ensures Tokenize(x) == Err(MisplacedOperator)
  {
  }

  lemma RemoveSpacesJoin(a: string, b: string, x: string, y: string)
    requires RemoveSpaces(a) == x && RemoveSpaces(b) == y
    ensures RemoveSpaces(a + b) == x + y
  {
    RemoveSpacesAppend(a, b);
  }


  // Steps of BracesExamples, one short piece per lemma so that each proof stays small.
  lemma NestedScan1()
    ensures Scan("{}((", []) == Some(['(', '('])
  {
    assert "("[1..] == "";
    assert ['('] + ['('] == ['(', '('];
    assert Scan("(", ['(']) == Some(['(', '(']);
    assert "(("[1..] == "(";
    assert [] + ['('] == ['('];
    assert Scan("((", []) == Some(['(', '(']);
    assert "}(("[1..] == "((";
    assert ['{'][..0] == [];
    assert Scan("}((", ['{']) == Some(['(', '(']);
    assert "{}(("[1..] == "}((";
    assert [] + ['{'] == ['{'];
    assert Scan("{}((", []) == Some(['(', '(']);
  }

  lemma NestedScan2()
    ensures Scan(")) {", ['(', '(']) == Some(['{'])
  {
    assert "{"[1..] == "";
    assert [] + ['{'] == ['{'];
    assert Scan("{", []) == Some(['{']);
    assert " {"[1..] == "{";
    assert Scan(" {", []) == Some(['{']);
    assert ") {"[1..] == " {";
    assert ['('][..0] == [];
    assert Scan(") {", ['(']) == Some(['{']);
    assert ")) {"[1..] == ") {";
    assert ['(', '('][..1] == ['('];
    assert Scan(")) {", ['(', '(']) == Some(['{']);
  }

  lemma NestedScanUpTo2()
    ensures Scan("{}(()) {", []) == Some(['{'])
  {
    NestedScan1();
    NestedScan2();
    ScanJoin("{}((", ")) {", [], ['(', '('], Some(['{']));
    assert "{}((" + ")) {" == "{}(()) {";
  }

  lemma NestedScan3()
    ensures Scan("(())", ['{']) == Some(['{'])
  {
    assert ")"[1..] == "";
    assert ['{', '('][..1] == ['{'];
    assert Scan(")", ['{', '(']) == Some(['{']);
    assert "))"[1..] == ")";
    assert ['{', '(', '('][..2] == ['{', '('];
    assert Scan("))", ['{', '(', '(']) == Some(['{']);
    assert "())"[1..] == "))";
    assert ['{', '('] + ['('] == ['{', '(', '('];
    assert Scan("())", ['{', '(']) == Some(['{']);
    assert "(())"[1..] == "())";
    assert ['{'] + ['('] == ['{', '('];
    assert Scan("(())", ['{']) == Some(['{']);
  }

  lemma NestedScanUpTo3()
    ensures Scan("{}(()) {(())", []) == Some(['{'])
  {
    NestedScanUpTo2();
    NestedScan3();
    ScanJoin("{}(()) {", "(())", [], ['{'], Some(['{']));
    assert "{}(()) {" + "(())" == "{}(()) {(())";
  }

  lemma NestedScan4()
    ensures Scan("()}", ['{']) == Some([])
  {
    assert "}"[1..] == "";
    assert ['{'][..0] == [];
    assert Scan("}", ['{']) == Some([]);
    assert ")}"[1..] == "}";
    assert ['{', '('][..1] == ['{'];
    assert Scan(")}", ['{', '(']) == Some([]);
    assert "()}"[1..] == ")}";
    assert ['{'] + ['('] == ['{', '('];
    assert Scan("()}", ['{']) == Some([]);
  }

  lemma NestedScan()
    ensures Scan("{}(()) {(())()}", []) == Some([])
  {
    NestedScanUpTo3();
    NestedScan4();
    ScanJoin("{}(()) {(())", "()}", [], ['{'], Some([]));
    assert "{}(()) {(())" + "()}" == "{}(()) {(())()}";
  }

  lemma StrayScan()
    ensures Scan(")", []) == None
  {
    assert ")"[1..] == "";
    assert Scan(")", []) == None;
  }

  lemma CrossedScan()
    ensures Scan("({)}", []) == None
  {
    assert ")}"[1..] == "}";
    assert Scan(")}", ['(', '{']) == None;
    assert "{)}"[1..] == ")}";
    assert ['('] + ['{'] == ['(', '{'];
    assert Scan("{)}", ['(']) == None;
    assert "({)}"[1..] == "{)}";
    assert [] + ['('] == ['('];
    assert Scan("({)}", []) == None;
  }

  /** A well-nested line with both kinds of bracket passes; a stray closer and crossed
      brackets do not. */
  lemma BracesExamples()
    ensures Balanced("{}(()) {(())()}")
    ensures !Balanced(")")
    ensures !Balanced("({)}")
  {
    NestedScan();
    StrayScan();
    CrossedScan();
  }

  // Steps of UnbalancedLine, one short piece per lemma so that each proof stays small.
  lemma UnclosedScan1()
    ensures Scan("(2+2", []) == Some(['('])
  {
    assert "2"[1..] == "";
    assert Scan("2", ['(']) == Some(['(']);
    assert "+2"[1..] == "2";
    assert Scan("+2", ['(']) == Some(['(']);
    assert "2+2"[1..] == "+2";
    assert Scan("2+2", ['(']) == Some(['(']);
    assert "(2+2"[1..] == "2+2";
    assert [] + ['('] == ['('];
    assert Scan("(2+2", []) == Some(['(']);
  }

  lemma UnclosedScan2()
    ensures Scan(" *2 ", ['(']) == Some(['('])
  {
    assert " "[1..] == "";
    assert Scan(" ", ['(']) == Some(['(']);
    assert "2 "[1..] == " ";
    assert Scan("2 ", ['(']) == Some(['(']);
    assert "*2 "[1..] == "2 ";
    assert Scan("*2 ", ['(']) == Some(['(']);
    assert " *2 "[1..] == "*2 ";
    assert Scan(" *2 ", ['(']) == Some(['(']);
  }

  lemma UnclosedScan()
    ensures Scan("(2+2 *2 ", []) == Some(['('])
  {
    UnclosedScan1();
    UnclosedScan2();
    ScanJoin("(2+2", " *2 ", [], ['('], Some(['(']));
    assert "(2+2" + " *2 " == "(2+2 *2 ";
  }

  /** An opening bracket never closed. */
  lemma UnbalancedLine()
    ensures Tokenize("(2+2 *2 ") == Err(BadBrackets)
  {
    UnclosedScan();
  }

  // Steps of ForeignCharacter, one short piece per lemma so that each proof stays small.
  lemma ForeignCharacterScan1()
    ensures Scan("256 ", []) == Some([])
  {
    assert " "[1..] == "";
    assert Scan(" ", []) == Some([]);
    assert "6 "[1..] == " ";
    assert Scan("6 ", []) == Some([]);
    assert "56 "[1..] == "6 ";
    assert Scan("56 ", []) == Some([]);
    assert "256 "[1..] == "56 ";
    assert Scan("256 ", []) == Some([]);
  }

  lemma ForeignCharacterScan2()
    ensures Scan("+ 34", []) == Some([])
  {
    assert "4"[1..] == "";
    assert Scan("4", []) == Some([]);
    assert "34"[1..] == "4";
    assert Scan("34", []) == Some([]);
    assert " 34"[1..] == "34";
    assert Scan(" 34", []) == Some([]);
    assert "+ 34"[1..] == " 34";
    assert Scan("+ 34", []) == Some([]);
  }

  lemma ForeignCharacterScanUpTo2()
    ensures Scan("256 + 34", []) == Some([])
  {
    ForeignCharacterScan1();
    ForeignCharacterScan2();
    ScanJoin("256 ", "+ 34", [], [], Some([]));
    assert "256 " + "+ 34" == "256 + 34";
  }

  lemma ForeignCharacterScan3()
    ensures Scan("7 - ", []) == Some([])
  {
    assert " "[1..] == "";
    assert Scan(" ", []) == Some([]);
    assert "- "[1..] == " ";
    assert Scan("- ", []) == Some([]);
    assert " - "[1..] == "- ";
    assert Scan(" - ", []) == Some([]);
    assert "7 - "[1..] == " - ";
    assert Scan("7 - ", []) == Some([]);
  }

  lemma ForeignCharacterScanUpTo3()
    ensures Scan("256 + 347 - ", []) == Some([])
  {
    ForeignCharacterScanUpTo2();
    ForeignCharacterScan3();
    ScanJoin("256 + 34", "7 - ", [], [], Some([]));
    assert "256 + 34" + "7 - " == "256 + 347 - ";
  }

  lemma ForeignCharacterScan4()
    ensures Scan("123 ", []) == Some([])
  {
    assert " "[1..] == "";
    assert Scan(" ", []) == Some([]);
    assert "3 "[1..] == " ";
    assert Scan("3 ", []) == Some([]);
    assert "23 "[1..] == "3 ";
    assert Scan("23 ", []) == Some([]);
    assert "123 "[1..] == "23 ";
    assert Scan("123 ", []) == Some([]);
  }

  lemma ForeignCharacterScanUpTo4()
    ensures Scan("256 + 347 - 123 ", []) == Some([])
  {
    ForeignCharacterScanUpTo3();
    ForeignCharacterScan4();
    ScanJoin("256 + 347 - ", "123 ", [], [], Some([]));
    assert "256 + 347 - " + "123 " == "256 + 347 - 123 ";
  }

  lemma ForeignCharacterScan5()
    ensures Scan("ы", []) == Some([])
  {
    assert "ы"[1..] == "";
    assert Scan("ы", []) == Some([]);
  }

  lemma ForeignCharacterScan()
    ensures Scan("256 + 347 - 123 ы", []) == Some([])
  {
    ForeignCharacterScanUpTo4();
    ForeignCharacterScan5();
    ScanJoin("256 + 347 - 123 ", "ы", [], [], Some([]));
    assert "256 + 347 - 123 " + "ы" == "256 + 347 - 123 ы";
  }

  lemma ForeignCharacterSpaces1()
    ensures RemoveSpaces("256 ") == "256"
  {
    assert " "[1..] == "";
    assert RemoveSpaces(" ") == "";
    assert "6 "[1..] == " ";
    assert RemoveSpaces("6 ") == "6";
    assert "56 "[1..] == "6 ";
    assert RemoveSpaces("56 ") == "56";
    assert "256 "[1..] == "56 ";
    assert RemoveSpaces("256 ") == "256";
  }

  lemma ForeignCharacterSpaces2()
    ensures RemoveSpaces("+ 34") == "+34"
  {
    assert "4"[1..] == "";
    assert RemoveSpaces("4") == "4";
    assert "34"[1..] == "4";
    assert RemoveSpaces("34") == "34";
    assert " 34"[1..] == "34";
    assert RemoveSpaces(" 34") == "34";
    assert "+ 34"[1..] == " 34";
    assert RemoveSpaces("+ 34") == "+34";
  }

  lemma ForeignCharacterSpaces3()
    ensures RemoveSpaces("7 - ") == "7-"
  {
    assert " "[1..] == "";
    assert RemoveSpaces(" ") == "";
    assert "- "[1..] == " ";
    assert RemoveSpaces("- ") == "-";
    assert " - "[1..] == "- ";
    assert RemoveSpaces(" - ") == "-";
    assert "7 - "[1..] == " - ";
    assert RemoveSpaces("7 - ") == "7-";
  }

  lemma ForeignCharacterSpaces4()
    ensures RemoveSpaces("123 ") == "123"
  {
    assert " "[1..] == "";
    assert RemoveSpaces(" ") == "";
    assert "3 "[1..] == " ";
    assert RemoveSpaces("3 ") == "3";
    assert "23 "[1..] == "3 ";
    assert RemoveSpaces("23 ") == "23";
    assert "123 "[1..] == "23 ";
    assert RemoveSpaces("123 ") == "123";
  }

  lemma ForeignCharacterSpaces5()
    ensures RemoveSpaces("ы") == "ы"
  {
    assert "ы"[1..] == "";
    assert RemoveSpaces("ы") == "ы";
  }

  lemma ForeignCharacterSpacesUpTo2()
    ensures RemoveSpaces("256 + 34") == "256+34"
  {
    ForeignCharacterSpaces1();
    ForeignCharacterSpaces2();
    ForeignCharacterSpacesJoin2();
    RemoveSpacesJoin("256 ", "+ 34", "256", "+34");
  }

  lemma ForeignCharacterSpacesJoin2()
    ensures "256 " + "+ 34" == "256 + 34"
    ensures "256" + "+34" == "256+34"
  {
  }

  lemma ForeignCharacterSpacesUpTo3()
    ensures RemoveSpaces("256 + 347 - ") == "256+347-"
  {
    ForeignCharacterSpacesUpTo2();
    ForeignCharacterSpaces3();
    ForeignCharacterSpacesJoin3();
    RemoveSpacesJoin("256 + 34", "7 - ", "256+34", "7-");
  }

  lemma ForeignCharacterSpacesJoin3()
    ensures "256 + 34" + "7 - " == "256 + 347 - "
    ensures "256+34" + "7-" == "256+347-"
  {
  }

  lemma ForeignCharacterSpacesUpTo4()
    ensures RemoveSpaces("256 + 347 - 123 ") == "256+347-123"
  {
    ForeignCharacterSpacesUpTo3();
    ForeignCharacterSpaces4();
    ForeignCharacterSpacesJoin4();
    RemoveSpacesJoin("256 + 347 - ", "123 ", "256+347-", "123");
  }

  lemma ForeignCharacterSpacesJoin4()
    ensures "256 + 347 - " + "123 " == "256 + 347 - 123 "
    ensures "256+347-" + "123" == "256+347-123"
  {
  }

  lemma ForeignCharacterSpaces()
    ensures RemoveSpaces("256 + 347 - 123 ы") == "256+347-123ы"
  {
    ForeignCharacterSpacesUpTo4();
    ForeignCharacterSpaces5();
    ForeignCharacterSpacesJoin5();
    RemoveSpacesJoin("256 + 347 - 123 ", "ы", "256+347-123", "ы");
  }

  lemma ForeignCharacterSpacesJoin5()
    ensures "256 + 347 - 123 " + "ы" == "256 + 347 - 123 ы"
    ensures "256+347-123" + "ы" == "256+347-123ы"
  {
  }

  lemma ForeignCharacterBalanced()
    ensures Balanced("256 + 347 - 123 ы")
  {
    ForeignCharacterScan();
  }

  lemma ForeignCharacterFault()
    ensures Fault("256+347-123ы", 0) == Some(InvalidCharacter)
  {
    assert Fault("256+347-123ы", 11) == Some(InvalidCharacter);
    assert Fault("256+347-123ы", 10) == Fault("256+347-123ы", 11);
    assert Fault("256+347-123ы", 9) == Fault("256+347-123ы", 10);
    assert Fault("256+347-123ы", 8) == Fault("256+347-123ы", 9);
    assert Fault("256+347-123ы", 7) == Fault("256+347-123ы", 8);
    assert Fault("256+347-123ы", 6) == Fault("256+347-123ы", 7);
    assert Fault("256+347-123ы", 5) == Fault("256+347-123ы", 6);
    assert Fault("256+347-123ы", 4) == Fault("256+347-123ы", 5);
    assert Fault("256+347-123ы", 3) == Fault("256+347-123ы", 4);
    assert Fault("256+347-123ы", 2) == Fault("256+347-123ы", 3);
    assert Fault("256+347-123ы", 1) == Fault("256+347-123ы", 2);
    assert Fault("256+347-123ы", 0) == Fault("256+347-123ы", 1);
  }

  lemma ForeignCharacterEnds()
    ensures !IsOpChar("256+347-123ы"[0]) && !IsOpChar("256+347-123ы"[11])
  {
  }

  /** A character that is neither a digit, an operator, a bracket nor a space. */
  lemma ForeignCharacter()
    ensures Tokenize("256 + 347 - 123 ы") == Err(InvalidCharacter)
  {
    ForeignCharacterBalanced();
    ForeignCharacterSpaces();
    ForeignCharacterEnds();
    ForeignCharacterFault();
    Rejects("256 + 347 - 123 ы", "256+347-123ы", InvalidCharacter);
  }

  // Steps of LeadingOperator, one short piece per lemma so that each proof stays small.
  lemma LeadingOperatorScan1()
    ensures Scan("+ 2 ", []) == Some([])
  {
    assert " "[1..] == "";
    assert Scan(" ", []) == Some([]);
    assert "2 "[1..] == " ";
    assert Scan("2 ", []) == Some([]);
    assert " 2 "[1..] == "2 ";
    assert Scan(" 2 ", []) == Some([]);
    assert "+ 2 "[1..] == " 2 ";
    assert Scan("+ 2 ", []) == Some([]);
  }

  lemma LeadingOperatorScan2()
    ensures Scan("- 3", []) == Some([])
  {
    assert "3"[1..] == "";
    assert Scan("3", []) == Some([]);
    assert " 3"[1..] == "3";
    assert Scan(" 3", []) == Some([]);
    assert "- 3"[1..] == " 3";
    assert Scan("- 3", []) == Some([]);
  }

  lemma LeadingOperatorScan()
    ensures Scan("+ 2 - 3", []) == Some([])
  {
    LeadingOperatorScan1();
    LeadingOperatorScan2();
    ScanJoin("+ 2 ", "- 3", [], [], Some([]));
    assert "+ 2 " + "- 3" == "+ 2 - 3";
  }

  lemma LeadingOperatorSpaces1()
    ensures RemoveSpaces("+ 2 ") == "+2"
  {
    assert " "[1..] == "";
    assert RemoveSpaces(" ") == "";
    assert "2 "[1..] == " ";
    assert RemoveSpaces("2 ") == "2";
    assert " 2 "[1..] == "2 ";
    assert RemoveSpaces(" 2 ") == "2";
    assert "+ 2 "[1..] == " 2 ";
    assert RemoveSpaces("+ 2 ") == "+2";
  }

  lemma LeadingOperatorSpaces2()
    ensures RemoveSpaces("- 3") == "-3"
  {
    assert "3"[1..] == "";
    assert RemoveSpaces("3") == "3";
    assert " 3"[1..] == "3";
    assert RemoveSpaces(" 3") == "3";
    assert "- 3"[1..] == " 3";
    assert RemoveSpaces("- 3") == "-3";
  }

  lemma LeadingOperatorSpaces()
    ensures RemoveSpaces("+ 2 - 3") == "+2-3"
  {
    LeadingOperatorSpaces1();
    LeadingOperatorSpaces2();
    LeadingOperatorSpacesJoin2();
    RemoveSpacesJoin("+ 2 ", "- 3", "+2", "-3");
  }

  lemma LeadingOperatorSpacesJoin2()
    ensures "+ 2 " + "- 3" == "+ 2 - 3"
    ensures "+2" + "-3" == "+2-3"
  {
  }

  lemma LeadingOperatorBalanced()
    ensures Balanced("+ 2 - 3")
  {
    LeadingOperatorScan();
  }

  lemma LeadingOperatorEnds()
    ensures IsOpChar("+2-3"[0])
  {
  }

  /** An operator first. */
  lemma LeadingOperator()
    ensures Tokenize("+ 2 - 3") == Err(MisplacedOperator)
  {
    LeadingOperatorBalanced();
    LeadingOperatorSpaces();
    LeadingOperatorEnds();
    RejectsEnd("+ 2 - 3", "+2-3");
  }

  // Steps of TrailingOperator, one short piece per lemma so that each proof stays small.
  lemma TrailingOperatorScan1()
    ensures Scan("2 - ", []) == Some([])
  {
    assert " "[1..] == "";
    assert Scan(" ", []) == Some([]);
    assert "- "[1..] == " ";
    assert Scan("- ", []) == Some([]);
    assert " - "[1..] == "- ";
    assert Scan(" - ", []) == Some([]);
    assert "2 - "[1..] == " - ";
    assert Scan("2 - ", []) == Some([]);
  }

  lemma TrailingOperatorScan2()
    ensures Scan("3*", []) == Some([])
  {
    assert "*"[1..] == "";
    assert Scan("*", []) == Some([]);
    assert "3*"[1..] == "*";
    assert Scan("3*", []) == Some([]);
  }

  lemma TrailingOperatorScan()
    ensures Scan("2 - 3*", []) == Some([])
  {
    TrailingOperatorScan1();
    TrailingOperatorScan2();
    ScanJoin("2 - ", "3*", [], [], Some([]));
    assert "2 - " + "3*" == "2 - 3*";
  }

  lemma TrailingOperatorSpaces1()
    ensures RemoveSpaces("2 - ") == "2-"
  {
    assert " "[1..] == "";
    assert RemoveSpaces(" ") == "";
    assert "- "[1..] == " ";
    assert RemoveSpaces("- ") == "-";
    assert " - "[1..] == "- ";
    assert RemoveSpaces(" - ") == "-";
    assert "2 - "[1..] == " - ";
    assert RemoveSpaces("2 - ") == "2-";
  }

  lemma TrailingOperatorSpaces2()
    ensures RemoveSpaces("3*") == "3*"
  {
    assert "*"[1..] == "";
    assert RemoveSpaces("*") == "*";
    assert "3*"[1..] == "*";
    assert RemoveSpaces("3*") == "3*";
  }

  lemma TrailingOperatorSpaces()
    ensures RemoveSpaces("2 - 3*") == "2-3*"
  {
    TrailingOperatorSpaces1();
    TrailingOperatorSpaces2();
    TrailingOperatorSpacesJoin2();
    RemoveSpacesJoin("2 - ", "3*", "2-", "3*");
  }

  lemma TrailingOperatorSpacesJoin2()
    ensures "2 - " + "3*" == "2 - 3*"
    ensures "2-" + "3*" == "2-3*"
  {
  }

  lemma TrailingOperatorBalanced()
    ensures Balanced("2 - 3*")
  {
    TrailingOperatorScan();
  }

  lemma TrailingOperatorEnds()
    ensures IsOpChar("2-3*"[3])
  {
  }

  /** An operator last. */
  lemma TrailingOperator()
    ensures Tokenize("2 - 3*") == Err(MisplacedOperator)
  {
    TrailingOperatorBalanced();
    TrailingOperatorSpaces();
    TrailingOperatorEnds();
    RejectsEnd("2 - 3*", "2-3*");
  }

  // Steps of AdjacentOperators, one short piece per lemma so that each proof stays small.
  lemma AdjacentOperatorsScan1()
    ensures Scan("2 - ", []) == Some([])
  {
    assert " "[1..] == "";
    assert Scan(" ", []) == Some([]);
    assert "- "[1..] == " ";
    assert Scan("- ", []) == Some([]);
    assert " - "[1..] == "- ";
    assert Scan(" - ", []) == Some([]);
    assert "2 - "[1..] == " - ";
    assert Scan("2 - ", []) == Some([]);
  }

  lemma AdjacentOperatorsScan2()
    ensures Scan("*3", []) == Some([])
  {
    assert "3"[1..] == "";
    assert Scan("3", []) == Some([]);
    assert "*3"[1..] == "3";
    assert Scan("*3", []) == Some([]);
  }

  lemma AdjacentOperatorsScan()
    ensures Scan("2 - *3", []) == Some([])
  {
    AdjacentOperatorsScan1();
    AdjacentOperatorsScan2();
    ScanJoin("2 - ", "*3", [], [], Some([]));
    assert "2 - " + "*3" == "2 - *3";
  }

  lemma AdjacentOperatorsSpaces1()
    ensures RemoveSpaces("2 - ") == "2-"
  {
    assert " "[1..] == "";
    assert RemoveSpaces(" ") == "";
    assert "- "[1..] == " ";
    assert RemoveSpaces("- ") == "-";
    assert " - "[1..] == "- ";
    assert RemoveSpaces(" - ") == "-";
    assert "2 - "[1..] == " - ";
    assert RemoveSpaces("2 - ") == "2-";
  }

  lemma AdjacentOperatorsSpaces2()
    ensures RemoveSpaces("*3") == "*3"
  {
    assert "3"[1..] == "";
    assert RemoveSpaces("3") == "3";
    assert "*3"[1..] == "3";
    assert RemoveSpaces("*3") == "*3";
  }

  lemma AdjacentOperatorsSpaces()
    ensures RemoveSpaces("2 - *3") == "2-*3"
  {
    AdjacentOperatorsSpaces1();
    AdjacentOperatorsSpaces2();
    AdjacentOperatorsSpacesJoin2();
    RemoveSpacesJoin("2 - ", "*3", "2-", "*3");
  }

  lemma AdjacentOperatorsSpacesJoin2()
    ensures "2 - " + "*3" == "2 - *3"
    ensures "2-" + "*3" == "2-*3"
  {
  }

  lemma AdjacentOperatorsBalanced()
    ensures Balanced("2 - *3")
  {
    AdjacentOperatorsScan();
  }

  lemma AdjacentOperatorsFault()
    ensures Fault("2-*3", 0) == Some(MisplacedOperator)
  {
    assert Fault("2-*3", 2) == Some(MisplacedOperator);
    assert Fault("2-*3", 1) == Fault("2-*3", 2);
    assert Fault("2-*3", 0) == Fault("2-*3", 1);
  }

  lemma AdjacentOperatorsEnds()
    ensures !IsOpChar("2-*3"[0]) && !IsOpChar("2-*3"[3])
  {
  }

  /** Two operators in a row. */
  lemma AdjacentOperators()
    ensures Tokenize("2 - *3") == Err(MisplacedOperator)
  {
    AdjacentOperatorsBalanced();
    AdjacentOperatorsSpaces();
    AdjacentOperatorsEnds();
    AdjacentOperatorsFault();
    Rejects("2 - *3", "2-*3", MisplacedOperator);
  }

}
