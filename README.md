# Calculator core, modelled in Dafny

A model of a small command-line calculator for integer arithmetic expressions, and proofs about it.

The calculator reads a line such as `((2-1)*4 + 6) / 5`. It then passes the line through four stages, each built on one LIFO stack:

1. `braces_sequence_is_correct` checks that `()` and `{}` are balanced and correctly nested.
2. `check_correct_expression`:
   - removes spaces;
   - rejects a leading or trailing operator, adjacent operators and foreign characters;
   - groups digit runs into number tokens.
3. `infix_to_postfix` converts the token list to postfix order with an operator stack. It uses its own pop table.
4. `postfix_calc` evaluates the postfix list on an operand stack.

The model follows that structure module by module:

- `AStack` (`a_stack.dfy`): the stack module as a class `Stack<T>` whose `seq` field the methods update. It also has the module's usage scenario.
- `Tokens` (`tokens.dfy`): characters, tokens, operators, the error kinds and the value of a digit string.
- `Braces` (`braces.dfy`): the bracket check.
  - The loop is a method proved against a scan function.
  - The scan is proved to accept exactly the correctly nested bracket sequences.
- `Tokenizer` (`tokenizer.dfy`): the validation and the token loop.
  - The loop, with its `token` accumulator, is a method proved against a specification function.
  - The tokens are shown to be the unique maximal-digit-run split of the line with its spaces removed.
- `Converter` (`converter.dfy`): the conversion loop, proved against a step function that follows the pop table. It proves that:
  - conversion keeps every number and operator;
  - conversion drops the parentheses;
  - numbers keep their order;
  - conversion fails exactly when some prefix closes more parentheses than it opens.
- `Evaluator` (`evaluator.dfy`): the stack machine.
  - The in-place swap loop and the pop loop are methods over a `TokenList` object, which the loops empty.
  - The stack height and the outcome are tied to the counts of numbers and operators.
- `Grammar`, `Pipeline` (`grammar.dfy`, `pipeline.dfy`): expressions with the usual precedence and their values. The end-to-end theorem is `Pipeline.Calculates`. For any line whose non-space characters spell an expression, tokenising, converting and evaluating gives that expression's value. The only exception is a division by zero, which stops the evaluation exactly when the expression divides by zero.
- `Validation` (`validation.dfy`): the validation the checks evidently aim at. It is proved to accept exactly the lines that spell an expression. The module also holds the inputs that the checks as written let through to a crash (see Findings).
- `*_examples.dfy`: the doctests and the module docstring's examples, each as a lemma.

The errors the source prints, and signals with a `None` return, become a `Result` with an `ErrorKind`:

- `BadBrackets`, `MisplacedOperator` and `InvalidCharacter` are the three checks.
- `DivByZero` is the caught division.
- `Malformed` covers operands left over at the end.

The places where the Python code raises instead of reporting are explicit error kinds:

- `IndexError` covers indexing or popping an empty list: `s[0]` on a blank line, the pops of `postfix_calc`, and `top()` in the `)` loop.
- `NotANumber` covers `float()` applied to a parenthesis.

## Model

| member | source | states |
|---|---|---|
| AStack.Stack.constructor | A_stack.py:32 | a new stack holds no element |
| AStack.Stack.Push | A_stack.py:35-36 | the pushed value becomes the new top above the old contents |
| AStack.Stack.Pop | A_stack.py:38-39 | returns the top and leaves exactly the elements below it; needs a non-empty stack |
| AStack.Stack.IsEmpty | A_stack.py:41-42 | true exactly when the stack holds no element, and the stack is unchanged |
| AStack.Stack.Clear | A_stack.py:44-45 | the stack is empty afterwards whatever it held |
| AStack.Stack.Top | A_stack.py:47-48 | returns the most recently pushed element without removing it; needs a non-empty stack |
| AStack.PushThenPop | A_stack.py:35-39 | a push followed by a pop returns the pushed value and restores the stack |
| AStack.LifoScenario | A_stack.py:1-27 | the doctest session: empty, then not empty after three pushes, pops in reverse order, empty after clear, top shows the last push and keeps it |
| Braces.ScanStep | calculator.py:29-43 | one character of the scan: an opener is pushed, a closer on an empty stack fails, a closer must match the popped opener, anything else is ignored |
| Braces.NoBracketsScan | calculator.py:30 | characters that are not brackets leave the scan's stack as it was |
| Braces.BracesSequenceIsCorrect | calculator.py:17-45 | the loop over a cleared stack returns the verdict of the scan |
| Braces.BracketsOf | calculator.py:30 | the bracket characters kept are all brackets |
| Braces.ScanIgnoresOthers | calculator.py:29-30 | the verdict depends only on the bracket characters, in order |
| Braces.ScanAppend | calculator.py:29-43 | scanning a concatenation is scanning its parts one after the other |
| Braces.ScanBelow | calculator.py:28-45 | a successful scan is unaffected by openers already below it |
| Braces.BalancedConcat | calculator.py:17-45 | two balanced lines in a row are balanced |
| Braces.WrapBalanced | calculator.py:31-39 | an opener, a balanced part, its own closer and a balanced rest are balanced |
| Braces.NestedIsBalanced | calculator.py:17-45 | every correctly nested bracket sequence is accepted |
| Braces.MatchingCloser | calculator.py:34-39 | when the scan closes an opener, its closer sits at a position where the part before it is balanced |
| Braces.CloserFirst | calculator.py:34-39 | a closer the scan accepts at once closes the innermost opener |
| Braces.CloserAfterGroup | calculator.py:31-39 | a group opened and closed in front of an opener's closer moves that closer back by the group's length |
| Braces.BalancedIsNested | calculator.py:17-45 | every accepted bracket-only sequence is correctly nested |
| Braces.BalancedIffNested | calculator.py:17-45 | the check returns True exactly when the brackets of the line are correctly nested |
| Braces.FailureCases | calculator.py:34-45 | a closer with nothing open, a mismatched pair and a leftover opener each give False |
| TokenizerExamples.BracesExamples | calculator.py:20-25 | `{}(()) {(())()}` is accepted; `)` and `({)}` are rejected |
| Tokenizer.RemoveSpaces | calculator.py:86 | no space remains, and a line without spaces is unchanged |
| Tokenizer.RemoveSpacesAppend | calculator.py:86 | space removal works piece by piece |
| Tokenizer.ScanRemoveSpaces | calculator.py:82-86 | checking brackets before or after removing spaces gives the same verdict |
| Tokenizer.Fault | calculator.py:94-118 | when the per-character checks find nothing, every character is a digit, an operator or a parenthesis |
| Tokenizer.FaultIsFirstFault | calculator.py:94-118 | the checks report nothing exactly when every position passes, and otherwise report the kind of the first failing position, adjacency before foreign character |
| Tokenizer.AccumulatorStep | calculator.py:100-113 | a digit after a digit extends the pending token; anything else closes it and starts a new one |
| Tokenizer.TakeChar | calculator.py:100-113 | one character more for the accumulator: the finished tokens and the pending one together are the tokens of the characters read so far |
| Tokenizer.TokenLoop | calculator.py:92-122 | the loop stops at the first position the checks reject, with that position's error, and otherwise returns the tokens of the whole line |
| Tokenizer.LoopStep | calculator.py:94-113 | a character that passes both checks keeps the loop invariant: nothing rejected so far, and the accumulator holds the tokens of the characters read |
| Tokenizer.FaultHere | calculator.py:95-118 | an operator after an operator, the first character being compared with the last, is reported as misplaced, and otherwise a foreign character as invalid |
| Tokenizer.CheckCorrectExpression | calculator.py:47-122 | the checks in their order, then the token loop with its accumulator, return the result of the tokenizer's specification |
| Tokenizer.FlattenSnoc | calculator.py:105-120 | appending a token appends its text |
| Tokenizer.FlattenPush | calculator.py:100-113 | one more character adds exactly that character to the text of the tokens |
| Tokenizer.LexFlatten | calculator.py:92-122 | the token texts concatenate back to the line without spaces |
| Tokenizer.LexSeparated | calculator.py:100-108 | digit runs are maximal: no two number tokens are adjacent |
| Tokenizer.FlattenValid | calculator.py:110 | token texts hold only accepted characters |
| Tokenizer.PushSingle | calculator.py:110-113 | an operator or parenthesis becomes a token of its own |
| Tokenizer.PushDigit | calculator.py:101-103 | a digit after a number token extends that token |
| Tokenizer.LexUnique | calculator.py:92-122 | the tokens are the only split of the line into token texts with maximal digit runs |
| Tokenizer.TokenizeAccepts | calculator.py:82-122 | a line is accepted exactly when its brackets balance, something remains after removing spaces, no operator is first, last or next to another, and every character is valid; then the tokens spell the line without spaces |
| TokenizerExamples.UnbalancedLine | calculator.py:59-60 | `(2+2 *2 ` is rejected for its brackets |
| TokenizerExamples.ForeignCharacter | calculator.py:62-64 | `256 + 347 - 123 ы` is rejected for a foreign character |
| TokenizerExamples.LeadingOperator | calculator.py:66-68 | `+ 2 - 3` is rejected for a misplaced operator |
| TokenizerExamples.TrailingOperator | calculator.py:70-72 | `2 - 3*` is rejected for a misplaced operator |
| TokenizerExamples.AdjacentOperators | calculator.py:74-76 | `2 - *3` is rejected for a misplaced operator |
| CalculatorExamples.GroupedLine | calculator.py:78-79 | `(2 + 2) * 2` gives the tokens `( 2 + 2 ) * 2` |
| Converter.RunAppend | calculator.py:153-185 | converting a concatenation is converting its parts one after the other |
| Converter.InfixToPostfix | calculator.py:124-190 | the token loop over an operator stack and the final pops return the result of the step function's specification |
| Converter.TakeToken | calculator.py:154-185 | the loop body changes the operator stack and the output as the step function says, and fails with the step's error on a `)` that finds no `(` |
| Converter.OperandsAppend | calculator.py:184-185 | the numbers of a concatenation are the numbers of its parts |
| Converter.StrippedAppend | calculator.py:176-182 | dropping parentheses works piece by piece |
| Converter.CountAppend | calculator.py:176-182 | occurrence counts add up over a concatenation |
| Converter.Single | calculator.py:153-185 | the counts of a one-token list |
| Converter.MoveTop | calculator.py:160-181 | moving the top operator to the output changes no count |
| Converter.PopForShape | calculator.py:155-174 | the pops for an arriving operator move operators only, and stop at an entry the table does not pop |
| Converter.PushAfterPops | calculator.py:159-174 | the pops and the push for an arriving operator move it from the input to the stack and change no other count |
| Converter.DropOpen | calculator.py:182 | dropping the `(` removes one open parenthesis |
| Converter.PopToOpenShape | calculator.py:179-182 | a `)` moves operators and removes one `(` |
| Converter.PushShape | calculator.py:156-177 | pushing an operator or `(` moves it from the input to the stack |
| Converter.EmitShape | calculator.py:184-185 | a number goes to the output |
| Converter.StepShape | calculator.py:153-185 | one token moves its operators and numbers from the input into the state |
| Converter.StepOpens | calculator.py:155-182 | one token changes the number of `(` on the stack by its own weight, and the stack holds only operators and `(` |
| Converter.GainNothing | calculator.py:153 | an empty input changes nothing |
| Converter.RunShape | calculator.py:153-185 | the loop keeps every operator and number it reads, and keeps the output's numbers in input order |
| Converter.ReversedStripped | calculator.py:187-188 | popping the stack empty keeps its operators |
| Converter.ReversedCount | calculator.py:187-188 | popping the stack empty keeps every token's count |
| Converter.ReversedOperands | calculator.py:187-188 | the stack holds no number |
| Converter.PostfixShape | calculator.py:124-190 | the output is a permutation of the input's numbers and operators, with the numbers in their original order; it holds no `)` and one `(` per unclosed `(` |
| Converter.NotCounted | calculator.py:124-190 | a token that does not occur is counted zero times |
| Converter.Counted | calculator.py:124-190 | a token that occurs is counted |
| Converter.StrippedLength | calculator.py:176-182 | dropping parentheses removes exactly the parentheses |
| Converter.NoParensOf | calculator.py:176-182 | a list that counts no parenthesis holds only numbers and operators |
| Converter.PostfixBalanced | calculator.py:124-190 | with as many `(` as `)`, the output has no parentheses, is a permutation of the rest of the input, keeps the numbers' order, and is the input's length less the parentheses |
| Converter.PopToOpenSucceeds | calculator.py:179-182 | a `(` on the stack stops the pops of a `)` |
| Converter.RunSucceeds | calculator.py:153-185 | when no prefix closes more than it opens, every `)` finds its `(` |
| Converter.RunPrefix | calculator.py:153-185 | a conversion that gets through its tokens gets through each prefix |
| Converter.PostfixSucceeds | calculator.py:179-182 | the conversion fails exactly when some prefix closes more parentheses than it opens |
| ConverterExamples.InfixToPostfixExample1 | calculator.py:128-129 | `5 * ( 15 + 25 )` gives `5 15 25 + *` |
| ConverterExamples.InfixToPostfixExample2 | calculator.py:131-132 | `( 5 + 15 ) * 2` gives `5 15 + 2 *` |
| ConverterExamples.InfixToPostfixExample3 | calculator.py:134-135 | the nested seventeen-token example gives its documented output |
| ConverterExamples.InfixToPostfixExample4 | calculator.py:137-138 | `( 2 * 15 + 20 ) / ( 12 + 2 - 9 )` gives `2 15 * 20 + 12 2 9 - + /` |
| ConverterExamples.InfixToPostfixExample5 | calculator.py:140-141 | `2 - 1 - 1` gives `2 1 - 1 -` |
| ConverterExamples.InfixToPostfixExample6 | calculator.py:143-144 | `8 / 4 / 2` gives `8 4 / 2 /` |
| Evaluator.NumberOf | calculator.py:235-236 | a number token converts to the value of its digits and a computed value to itself; a parenthesis fails |
| Evaluator.Apply | calculator.py:237-248 | the four operations; the result fails exactly for a zero divisor, and a quotient times the divisor gives the dividend |
| Evaluator.TokenList.constructor | calculator.py:192 | the list handed to the evaluator |
| Evaluator.ReverseItems | calculator.py:225-227 | the swap loop reverses the list in place |
| Evaluator.PostfixCalc | calculator.py:192-259 | returns the outcome of the stack machine on the original list; the list is left holding the unprocessed tokens, none when the evaluation got through |
| Evaluator.OpCount | calculator.py:232-236 | there are no more operators than tokens |
| Evaluator.OpCountAppend | calculator.py:232-236 | operator counts add up over a concatenation |
| Evaluator.ExecAppend | calculator.py:230-251 | evaluating a concatenation is evaluating its parts one after the other |
| Evaluator.ExecHeight | calculator.py:230-251 | every number adds one operand and every operator takes two and gives one back |
| Evaluator.HeightAfterPrefix | calculator.py:230-251 | while the evaluation goes through, the height after k tokens is k less twice the operators among them |
| Evaluator.CalcOutcome | calculator.py:255-259 | a run that gets through gives a value exactly when there is one more number than operators, is malformed when there are more, and pops an empty stack when the list is empty |
| Evaluator.DivisionByZero | calculator.py:243-248 | a division whose divisor is zero ends the evaluation with the division-by-zero outcome, whatever follows |
| EvaluatorExamples.PostfixCalcExample1 | calculator.py:197-198 | `2 1 - 4 * 6 + 5 /` gives 2 |
| EvaluatorExamples.PostfixCalcExample2 | calculator.py:200-201 | `2 3 - 12 10 - * 4 2 / +` gives 0 |
| EvaluatorExamples.PostfixCalcExample3 | calculator.py:203-204 | one operand too many is malformed |
| EvaluatorExamples.PostfixCalcExample4 | calculator.py:206-207 | `4 5 3 - +` gives 6 |
| EvaluatorExamples.PostfixCalcExample5 | calculator.py:209-210 | `4 5 - 3 +` gives 2 |
| EvaluatorExamples.PostfixCalcExample6 | calculator.py:212-213 | `10 5 / 2 4 * 3 1 / - +` gives 7 |
| EvaluatorExamples.PostfixCalcExample7 | calculator.py:215-216 | `7 3 6 2 3 / * - +` gives 6 |
| EvaluatorExamples.PostfixCalcExample8 | calculator.py:218-219 | `2 1 - 1 -` gives 0 |
| EvaluatorExamples.PostfixCalcExample9 | calculator.py:221-222 | `1 0 /` gives the division-by-zero outcome |
| Grammar.AddOperator | calculator.py:167-174 | an additive operator is `+` or `-` |
| Grammar.MulOperator | calculator.py:159-166 | a multiplicative operator is `*` or `/` |
| Grammar.Lift | calculator.py:237-248 | an operation on possibly undefined values is defined exactly when both operands are and no zero divisor occurs, and then agrees with the evaluator's arithmetic |
| Grammar.Top | calculator.py:233-251 | what the evaluator leaves for a subexpression converts to its value |
| Grammar.ExecPost | calculator.py:230-251 | the evaluator runs a tree's postfix form to the tree's value, or stops at a zero divisor |
| Grammar.Ops | calculator.py:155-174 | one stacked operator per pending entry |
| Grammar.PlugAppend | calculator.py:155-174 | the tree of a split context |
| Grammar.OpsAppend | calculator.py:155-174 | the stacked operators of a split context |
| Grammar.PostsAppend | calculator.py:184-185 | the output of a split context |
| Grammar.PlugPost | calculator.py:187-188 | a frame's postfix form is its subtrees' forms followed by its operators, innermost first |
| Grammar.Collapse | calculator.py:159-174 | folding stops at the first pending operator the table does not pop |
| Grammar.CollapsePlug | calculator.py:159-174 | folding pending operators does not change the tree a frame stands for |
| Pipeline.StepOp | calculator.py:155-174 | an operator token pops as the table says, then is pushed |
| Pipeline.RunOne | calculator.py:153-185 | converting one token is one step |
| Pipeline.Snoc | calculator.py:155-174 | a context split at its last entry |
| Pipeline.CollapsePopFor | calculator.py:159-174 | the pops for an arriving operator fold the converter's pending operators exactly as the tree folding does |
| Pipeline.PopToOpenOps | calculator.py:179-182 | a `)` outputs the pending operators innermost first and drops its `(` |
| Pipeline.PushPending | calculator.py:156-174 | a pushed operator becomes a pending entry |
| Pipeline.LayAppend | calculator.py:153-185 | a frame laid over what an enclosing context leaves |
| Pipeline.SumRun | calculator.py:153-185 | converting an expression leaves the state of its frame |
| Pipeline.ProductRun | calculator.py:153-185 | converting a term leaves the state of its frame |
| Pipeline.FactorRun | calculator.py:176-185 | converting a number or a parenthesised expression outputs its postfix form and leaves the stack as it was |
| Pipeline.GroupRun | calculator.py:176-182 | a parenthesised expression converts to its postfix form and leaves the stack below its `(` as it was |
| Pipeline.ConvertSum | calculator.py:124-190 | the conversion of an expression is the postfix form of the tree of its frame |
| Pipeline.MulAssoc | calculator.py:163-166 | multiplication regroups |
| Pipeline.MulDivAssoc | calculator.py:159-166 | a product with a quotient regroups |
| Pipeline.ApplyAssoc | calculator.py:159-174 | u + (v ± w) = (u + v) ± w and u * (v op w) = (u * v) op w for `*` and `/` |
| Pipeline.ApplyMulMul | calculator.py:163-166 | multiplication regroups in the evaluator's arithmetic |
| Pipeline.ApplyMulDiv | calculator.py:159-166 | a product with a quotient regroups in the evaluator's arithmetic |
| Pipeline.LiftAssoc | calculator.py:159-174 | the regroupings the pop table relies on hold for values that may be undefined |
| Pipeline.ChainValue | calculator.py:159-174 | under a chain of `+` or of `*`, a subtree's operator can be lifted out without changing the value |
| Pipeline.PlugPush | calculator.py:156-174 | plugging through a pushed entry |
| Pipeline.FoldedAdditive | calculator.py:167-174 | after the pops for `+` or `-`, only `+` is pending |
| Pipeline.FoldedMultiplicative | calculator.py:159-166 | after the pops for `*` or `/` within a term, only `*` is pending |
| Pipeline.OrderedJoin | calculator.py:155-174 | pending operators stay in precedence order when an additive one is pushed |
| Pipeline.OrderedPush | calculator.py:159-166 | pending operators stay in order when a multiplicative one is pushed |
| Pipeline.SumMeaning | calculator.py:153-185 | the converter's frame for an expression stands for a tree with the expression's value, and its pending operators are in order |
| Pipeline.ProductMeaning | calculator.py:153-185 | the same for a term |
| Pipeline.FactorMeaning | calculator.py:176-185 | the tree of a factor has the factor's value |
| Pipeline.EndToEnd | calculator.py:124-259 | converting and evaluating an expression's tokens gives its value under the usual precedence, grouping left to right; a zero divisor is the only failure, and it happens exactly when the expression divides by zero |
| Pipeline.PostNoParens | calculator.py:176-182 | a postfix form holds no parentheses |
| Pipeline.JoinSpaced | calculator.py:87-98 | joining two expressions with an operator keeps operators off the ends and apart |
| Pipeline.WrapSpaced | calculator.py:87-98 | wrapping an expression in parentheses keeps operators off the ends and apart |
| Pipeline.SumShape | calculator.py:82-98 | an expression's tokens pass the operator checks and its text is balanced |
| Pipeline.ProductShape | calculator.py:82-98 | the same for a term |
| Pipeline.FactorShape | calculator.py:82-98 | the same for a factor |
| Pipeline.JoinBalanced | calculator.py:17-45 | joining two balanced texts with an operator keeps them balanced |
| Pipeline.FlattenFirst | calculator.py:87 | the first character of a token list's text is its first token's first character |
| Pipeline.FlattenLast | calculator.py:87 | the last character is its last token's last character |
| Pipeline.FlattenNoAdjacentOps | calculator.py:95-98 | operator tokens that never touch spell text whose operator characters never touch |
| Pipeline.TokenizeExpression | calculator.py:47-122 | a line whose non-space characters spell an expression tokenizes into that expression's tokens |
| Pipeline.Calculates | calculator.py:5-10 | a line spelling an expression, with spaces anywhere, evaluates through all three stages to the expression's value, or to the division-by-zero outcome exactly when the expression divides by zero |
| CalculatorExamples.Example1 | calculator.py:9 | `((2-1)*4 + 6) / 5` evaluates to 2 |
| CalculatorExamples.Example2 | calculator.py:10 | `(625+375)/100 - 2*(2+3)` evaluates to 0 |
| CalculatorExamples.Example1Meaning | calculator.py:9 | the first docstring line is an expression of value 2 |
| CalculatorExamples.Example2Meaning | calculator.py:10 | the second docstring line is an expression of value 0 |
| Validation.DepthAppend | calculator.py:29-45 | bracket depth adds up over a concatenation |
| Validation.ScanText | calculator.py:29-43 | the scan of one token's text changes the number of open brackets by the token's weight, failing below zero |
| Validation.ScanResult | calculator.py:29-45 | a successful scan of a token list's text leaves open the starting depth plus the list's depth |
| Validation.ScanPrefixes | calculator.py:29-43 | a successful scan means that no prefix of the token list closes more brackets than are open |
| Validation.ScanDepth | calculator.py:17-45 | a successful scan never goes below zero depth and ends at the token list's depth |
| Validation.TokenizedMatched | calculator.py:82-122 | accepted tokens close every `(` they open and never close one too many |
| Validation.DepthCounts | calculator.py:176-182 | the bracket depth of a token list is its count of `(` less its count of `)` |
| Validation.ExecNumeric | calculator.py:230-251 | evaluating numbers and operators on a stack of numbers never converts a parenthesis, and leaves numbers |
| Validation.AcceptedConverts | calculator.py:82-259 | every line the checks accept converts without reaching `top()` of an empty stack, its postfix form holds no parenthesis, and its evaluation never fails on `float()` |
| Validation.DepthSnoc | calculator.py:29-45 | the depth after one more token |
| Validation.Outermost | calculator.py:155-174 | an operator at depth zero splits the list at the top level |
| Validation.LastTop | calculator.py:155-174 | finds the last top-level operator of a kind, with none after it |
| Validation.FirstReturn | calculator.py:179-182 | finds the first point after an opening where the depth returns to zero |
| Validation.SplitAt | calculator.py:155-174 | splitting a well-formed list at a top-level operator leaves two well-formed lists |
| Validation.SumComplete | calculator.py:47-122 | every well-formed token list is the token list of some expression |
| Validation.ProductComplete | calculator.py:159-166 | a well-formed list without a top-level `+` or `-` is a term |
| Validation.FactorComplete | calculator.py:176-185 | a well-formed list without a top-level operator is a number or a parenthesised expression |
| Validation.JoinChained | calculator.py:94-113 | joining two chained expressions with an operator keeps them chained |
| Validation.WrapChained | calculator.py:176-182 | wrapping a chained expression in parentheses keeps it chained |
| Validation.SumChained | calculator.py:94-113 | an expression's tokens follow each other as an expression allows |
| Validation.ProductChained | calculator.py:94-113 | the same for a term |
| Validation.FactorChained | calculator.py:94-113 | the same for a factor |
| Validation.ValidateAccepts | calculator.py:47-122 | the corrected validation accepts every line that spells an expression, with that expression's tokens |
| Validation.ValidateParses | calculator.py:47-122 | every line the corrected validation accepts spells an expression, and the tokens returned are its tokens |
| Validation.ValidateIff | calculator.py:47-122 | the corrected validation accepts a line exactly when its non-space characters spell an expression |
| Validation.TokenizeErrors | calculator.py:82-118 | a line with a non-space character is rejected only for its brackets, a misplaced operator or a foreign character |
| Validation.CheckedEvaluateSafe | calculator.py:283-290 | with the corrected validation, no line pops an empty stack or converts a parenthesis; an accepted line gives its expression's value, or the division-by-zero outcome exactly when its expression divides by zero |
| Validation.BlankLineAsWritten | calculator.py:86-87 | a blank line passes the bracket check and then indexes an empty string; the corrected validation rejects it |
| Validation.EmptyGroupAsWritten | calculator.py:255 | `()` passes every check and the final pop finds the evaluator's stack empty; the corrected validation rejects it |
| Validation.EmptyGroupTokens | calculator.py:82-122 | `()` tokenizes into an opening and a closing parenthesis |
| Validation.EmptyGroupPostfix | calculator.py:176-190 | `( )` converts to an empty output |
| Validation.SignedGroupAsWritten | calculator.py:235-236 | `(+3)` passes every check and the evaluator finds one operand where it needs two; the corrected validation rejects it |
| Validation.SignedGroupPostfix | calculator.py:124-190 | `( + 3 )` converts to `3 +` |
| Validation.SignedGroupTokens | calculator.py:82-122 | `(+3)` tokenizes into four tokens |
| Validation.SignedGroupBalanced | calculator.py:17-45 | `(+3)` passes the bracket check |
| Validation.SignedGroupFault | calculator.py:94-118 | `(+3)` passes the per-character checks |
| Validation.SignedGroupLex | calculator.py:92-122 | `(+3)` gives the tokens `( + 3 )` |
| Validation.SignedGroupCalc | calculator.py:232-236 | evaluating `3 +` finds one operand where the operator needs two |

## Left out

- `main` (calculator.py:276-298) is not modelled. It is the interactive `input`/`print` loop, which uses caught exceptions as control flow. `Pipeline.Evaluate` stands for the three calls at lines 287-289.
- `number_formatting` (calculator.py:261-274) is not modelled. It turns a float into a string for display.
- The printed Russian messages are not modelled. Each becomes the error kind it reports.
- Floating point: `float()` and the arithmetic at calculator.py:235-245 are modelled over exact rationals (`real`). Results are exact rather than rounded to IEEE doubles.
- Evaluator.NumberOf: a number token converts to the value of its digits. Python's `float()` of a long digit string is rounded, and that rounding is not modelled.
- The shared module-level stack is not modelled as one object. Each stage works on a fresh `Stack` of its own. Every stage clears the shared stack before using it (calculator.py:28, 150, 229), so no result depends on what an earlier stage left behind. Aliasing between the stages is therefore not modelled.
- Evaluator.PostfixCalc: a lone number comes back as the token itself, as the Python code returns the token string (calculator.py:232-233, 255-257). `Evaluator.NumberOf` converts it for comparison.
- The branches at calculator.py:249-250 and 253-254 cannot be reached, because the token is always an operator or not one. They have no counterpart in the model.
- AStack.Stack.Top requires a non-empty stack, as `_stack[-1]` does (A_stack.py:47-48). The module's doctest at A_stack.py:21-22 expects `''` from an empty stack, which the code does not do.
- Converter.InfixToPostfix reads the tokens by index, in order. It does not copy, reverse and pop the list as calculator.py:147-154 does. That copy is private to the function, so the order in which tokens are seen is the same.
- The doctest runners (A_stack.py:51-53, calculator.py:304-305) are not modelled.
- Where the code raises instead of reporting, the model returns an error kind rather than stopping the program:
  - `IndexError` covers a blank line at calculator.py:87 and the pops at calculator.py:235-236 and 255.
  - `IndexError` also covers `top()` of an empty stack at calculator.py:180. `Validation.AcceptedConverts` shows that every line the checks accept converts, so this cannot happen after the checks.
  - `NotANumber` covers `float('(')` at calculator.py:235-236. `Validation.AcceptedConverts` shows that the postfix form of an accepted line holds no parenthesis, so no accepted line ends with `NotANumber`.
- In a few places the code behaves in ways a reader may not expect. The model follows the code:
  - Check order: the operator-at-an-end check (calculator.py:87) runs before the per-character checks. In the per-character loop, adjacency is checked before foreign characters at each position (calculator.py:95-118).
  - Pop table: the converter uses its own table (calculator.py:155-174), not precedence comparison. `Pipeline.ChainValue` and `Pipeline.LiftAssoc` show it still gives left-to-right values under exact arithmetic.
  - Braces: `{` and `}` pass the bracket check and are then refused as foreign characters.
  - Blank lines: a line of spaces is not an end-of-input signal. It reaches `s[0]` and raises (see Findings).

## Findings

| source | as written | input that shows it | evidently intended | confidence | as-written member | corrected member |
|---|---|---|---|---|---|---|
| calculator.py:86-87 | after spaces are removed, `s[0]` is read without checking that anything is left | `" "` (a line of spaces), which `main` passes on because it is not empty | a blank line is refused like any other line that is not an expression | not executed | Validation.BlankLineAsWritten | Validation.ValidateIff |
| calculator.py:94-122, 255 | the checks accept an empty pair of brackets; the conversion outputs nothing and the final `pop()` raises on an empty stack, which `main` does not catch | `"()"` | only lines that spell an expression reach the evaluator, so it never pops an empty stack | not executed | Validation.EmptyGroupAsWritten | Validation.CheckedEvaluateSafe |
| calculator.py:95, 235-236 | the adjacency check only looks at two operators, so an operator right after `(` passes; the evaluator then pops once too often | `"(+3)"` | an operator is refused unless a number or `)` stands before it | not executed | Validation.SignedGroupAsWritten | Validation.ValidateParses |
