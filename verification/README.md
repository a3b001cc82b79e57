# Arithmetic expression parser — Dafny model

This project models the `Parser` class of a small PHP calculator
(`www/index.php`). The class evaluates integer arithmetic expressions over
`+ - * /` with brackets, in three stages:

1. `convertToArray` scans the string once, from left to right, and turns it
   into a token array. Digit runs become numbers. Operators and brackets
   become tokens of their own. Every other character is skipped. Each
   character is checked against the raw character just before it, and a
   bad pair throws "Invalid syntax". A bad first character throws
   "Incorrect first char".
2. `createStack` converts the token array to reverse Polish notation with
   an operator stack. It throws "Open bracket not found" and "Unclosed
   bracket found".
3. `calculateStack` evaluates the reverse Polish array on a stack of
   values.

The modules follow the class:

- `Tokens`: the character classes (`$operations`, `$numbers`,
  `isValidFirstSymbol`), tokens, exceptions and a `Result` type.
- `Tokenizer`: `convertToArray`.
- `Converter`: `createStack` and `compareOperations`.
- `Evaluator`: `calculateStack`, plus a reference semantics made of
  expression trees (`Expr`, `Eval`, `Postfix`).
- `Pipeline`: the three stages chained, as the tests chain them.
- `Examples`: the repository's test cases and a few inputs that show what
  the code does, each proved on its concrete input.

The model follows the code as written. Four points matter:

- **One pop per operator.** An incoming operator moves at most one operator
  from the stack to the output: the top, when `compareOperations` says so.
  It does not keep popping.
- **Sticky bracket flag.** `$closeBracketFound` is set the first time a `)`
  meets a `(`, and it is never cleared. After that, a `)` with no `(` on the
  stack empties the stack into the output instead of throwing.
- **Missing operands.** An operator that finds fewer than two values on the
  evaluation stack is skipped.
- **Exact arithmetic.** Numbers are exact: digit strings are naturals and
  results are `real`s, so `1/8` is exactly `0.125`.

Each loop is modelled as a function over a prefix of its input, so one
iteration is one step (`Feed`, `Step`, `EvalStep`). Each stage has a
verdict lemma that states exactly when it throws and which exception it
throws (`ConvertToArrayVerdict`, `CreateStackVerdict`,
`CalculateStackVerdict`). Each stage also has a conservation lemma: the
symbols kept and the digit runs they form, the numbers and operators passed
through, and the stack size.

The main result is `Pipeline.CalculateInfix`. For every expression tree `e`,
calculating the fully bracketed string of `e` gives exactly `Eval(e)`.
That includes failing with a division by zero exactly when `Eval(e)` does.

Some of the repository's tests (`tests/expressionTest.php:31-35` and
`57-61`) expect behaviour that `www/index.php` does not have:

- whitespace removal, so that `4 7` reads as `47`;
- an error for characters outside digits, operators and brackets;
- signed operands such as `1+-2` or `12*-47`.

Where the tests and the code differ, the model follows the code.
`Examples.SignedOperandsRejected`, `Examples.SkippedCharSplitsNumber` and
`Examples.ConvertSkipsLetters` prove what the code does on those inputs.
`Examples.SinglePop` shows a further consequence of the code: because an
incoming operator moves at most one operator to the output, the order of
evaluation can differ from the usual left-to-right reading.

## Model

| member | source | states |
|---|---|---|
| Tokens.CharOp | www/index.php:8 | every character of the operator list maps to an operator whose character is the original one |
| Tokens.Text | www/index.php:65-101 | every token the tokenizer stores is a non-empty string made only of digits, operators and brackets |
| Tokenizer.FirstToken | www/index.php:61-67 | an accepted first character (a digit or `(`) becomes a token spelling exactly that character |
| Tokenizer.Feed | www/index.php:70-106 | one loop iteration throws "Invalid syntax" exactly when the character breaks an adjacency rule with the raw character before it (two operators; `(` after a digit or `)`; `)` after anything but a digit or `)`); after a digit the last token is a number; it adds at most one token |
| Tokenizer.FeedKeepsSymbols | www/index.php:70-106 | one iteration appends exactly the new character to the text of the tokens when it is a digit, operator or bracket, and leaves the text unchanged otherwise |
| Tokenizer.FeedRuns | www/index.php:70-106 | one iteration leaves the numbers alone on a non-digit, extends the last number by a digit that follows a raw digit, and starts a new number with a digit that follows anything else |
| Tokenizer.HasViolationStep | www/index.php:81-106 | a string has an offending adjacent pair exactly when its last pair offends or the rest of it has one |
| Tokenizer.ConvertToArray | www/index.php:57-109 | on success, an input that ends in a digit leaves a number token last, so the next digit would extend it (which exceptions it throws, and when, is `ConvertToArrayVerdict`) |
| Tokenizer.ConvertToArrayVerdict | www/index.php:57-109 | "Incorrect first char" if and only if the first character is neither a digit nor `(`; otherwise "Invalid syntax" if and only if some adjacent pair breaks an adjacency rule; otherwise success, the empty string included |
| Tokenizer.ConvertToArrayRejectsAt | www/index.php:81-104 | one offending pair anywhere after a valid first character makes the whole input fail with "Invalid syntax" |
| Tokenizer.ConvertToArrayKeepsSymbols | www/index.php:57-109 | on success the tokens spell out the input with every character other than a digit, operator or bracket dropped |
| Tokenizer.ConvertToArrayDigitRuns | www/index.php:57-109 | on success the number tokens are exactly the maximal runs of consecutive raw digits of the input, in order, defined independently by `DigitRuns`; any other character, a skipped one included, ends a number |
| Tokenizer.ConvertToArrayMaximalRuns | www/index.php:70-79 | on input made only of digits, operators and brackets, no two number tokens are adjacent, and the last token is a number exactly when the input ends in a digit |
| Tokenizer.ScanExpression | www/index.php:57-109 | the imperative loop returns the same tokens or exception as the recursive definition, and its tokens spell the kept symbols of the input |
| Tokenizer.ConvertToArrayFailsOnPrefix | www/index.php:63-103 | an exception thrown on a prefix is the exception the whole input throws |
| Tokenizer.Scan | www/index.php:60-107 | the loop resumed part-way leaves a number token last whenever the last raw character seen is a digit |
| Tokenizer.ScanAppend | www/index.php:60-107 | resuming on `a + b` is resuming on `a` and then on `b` from where it stopped |
| Tokenizer.ConvertToArrayScan | www/index.php:61-67 | for a well-started input the first-character rule behaves like the loop body after a blank, so the whole scan is the resumed loop from an empty array |
| Tokenizer.ScanDigits | www/index.php:70-79 | a digit run after a non-digit becomes exactly one number token holding the whole run |
| Converter.CompareOperations | www/index.php:215-225 | true exactly when the incoming operator's priority (1 for `+ -`, 2 for `* /`) is at most the priority of the operator on top of the stack |
| Converter.PopToOpenBracket | www/index.php:142-156 | the popping loop keeps the output it started with as a prefix, moves each entry it takes off the stack to the output except the `(` it drops, and empties the stack when it finds no `(` (the closed form is `PopToOpenBracketSpec`) |
| Converter.PopToOpenBracketSpec | www/index.php:142-156 | on a `)` the entries above the topmost `(` go to the output, top first, and the `(` is discarded; with no `(` the whole stack goes to the output and the stack ends empty |
| Converter.Step | www/index.php:121-160 | a number goes to the output; `(` is pushed; an operator moves the top to the output only when the top is an operator that `compareOperations` ranks, then is pushed; a `)` throws "Open bracket not found" if and only if the flag is unset and no `(` is on the stack, and otherwise sets the flag; only a `)` can set the flag |
| Converter.StepClose | www/index.php:138-160 | a `)` that does not throw moves the entries above the topmost `(` to the output, top first, and drops that `(`; with no `(` on the stack it moves the whole stack and leaves it empty |
| Converter.ShuntFrom | www/index.php:121-161 | the conversion loop, resumable from any state, can throw only "Open bracket not found" (when it throws is `ShuntConserves`) |
| Converter.Drain | www/index.php:162-171 | the final drain succeeds exactly when no bracket is left on the stack, and then appends the stack to the output top first; otherwise it throws "Unclosed bracket found" |
| Converter.StepBrackets | www/index.php:138-160 | one iteration keeps the number of `(` on the stack equal to a bracket counter, keeps the flag equal to "some `)` has matched", and fails exactly on a stray `)` |
| Converter.StepOutput | www/index.php:121-160 | one iteration keeps the output free of brackets and keeps it holding every number consumed, in order |
| Converter.StepOperators | www/index.php:126-160 | one iteration keeps every operator consumed either in the output or on the stack |
| Converter.ShuntConserves | www/index.php:118-161 | the loop throws exactly when some `)` meets no `(` before any `)` matched; on success the output and stack conserve numbers, operators and the bracket count |
| Converter.CreateStack | www/index.php:118-174 | the conversion can throw only the two bracket exceptions (when each is thrown is `CreateStackVerdict`) |
| Converter.CreateStackVerdict | www/index.php:118-174 | "Open bracket not found" if and only if there is a stray `)`; otherwise "Unclosed bracket found" if and only if some `(` stays unmatched; otherwise success |
| Converter.CreateStackConserves | www/index.php:118-174 | the reverse Polish output holds no bracket, the input's numbers in the same order and the same operators, so its length is the input's less its brackets |
| Converter.BalancedConverts | www/index.php:142-171 | conventionally nested brackets never make `createStack` throw |
| Converter.ShuntFromAppend | www/index.php:121-161 | the loop resumed on `a + b` is the loop on `a` and then on `b` from the state it reached |
| Evaluator.Apply | www/index.php:28-41 | the four operations; the only failure is division by zero |
| Evaluator.EvalStep | www/index.php:22-45 | a non-operator pushes its integer value; an operator with two values replaces them by the result, left operand second from top; with fewer than two values it is skipped; only a division by zero fails |
| Evaluator.Run | www/index.php:22-46 | the evaluation loop, resumable from any stack, can fail only by dividing by zero |
| Evaluator.RunAppend | www/index.php:22-46 | evaluating `a + b` is evaluating `a` and then `b` on the stack reached |
| Evaluator.RunPostfix | www/index.php:20-46 | running the postfix form of an expression pushes exactly the expression's value and leaves the stack below untouched, or fails as the expression does |
| Evaluator.CalculatePostfix | www/index.php:20-48 | `calculateStack` on the postfix form of an expression gives the expression's value |
| Evaluator.RunSize | www/index.php:22-46 | while operands lead operators, no operator is skipped: the stack holds the operands pushed less the operators applied |
| Evaluator.CalculateStack | www/index.php:20-48 | `calculateStack` fails only by dividing by zero or by finding no value to return |
| Evaluator.RunEmpty | www/index.php:22-46 | from an empty stack, the stack is empty exactly while no operand has been pushed, and an array without operands leaves it empty without failing |
| Evaluator.CalculateStackVerdict | www/index.php:20-48 | no result if and only if the array holds no operand; a division-by-zero failure if and only if the loop divides by zero; a value otherwise |
| Evaluator.CalculateWellFormed | www/index.php:20-48 | on a well-formed reverse Polish array exactly one value remains and it is returned; the only failure is division by zero |
| Pipeline.Calculate | tests/expressionTest.php:137-141 | the three stages chained: an empty string has no value, a bad first character gives "Incorrect first char", and an offending pair gives "Invalid syntax" |
| Pipeline.InfixEnds | www/index.php:61-67 | a fully bracketed expression starts with a valid first character and ends with a digit or `)` |
| Pipeline.ScanInfix | www/index.php:60-107 | scanning a fully bracketed expression after a character that is not a digit or `)` appends exactly its tokens |
| Pipeline.ConvertInfix | www/index.php:57-109 | `convertToArray` of a fully bracketed expression is exactly its token sequence |
| Pipeline.ShuntInfix | www/index.php:121-161 | converting a fully bracketed expression appends its postfix form, leaves the stack unchanged and sets the flag when it has an operation |
| Pipeline.CreateStackInfix | www/index.php:118-174 | `createStack` of a fully bracketed expression's tokens is its postfix form |
| Pipeline.CalculateInfix | tests/expressionTest.php:137-141 | end to end, a fully bracketed expression evaluates to the value of the expression tree it writes, division by zero included |
| Examples.ConvertSum | tests/expressionTest.php:28 | `1+2` tokenizes to `1`, `+`, `2` |
| Examples.ConvertBracketed | tests/expressionTest.php:29 | `(1+2)*4/2` tokenizes to the nine expected tokens |
| Examples.ConvertNested | tests/expressionTest.php:30 | `(((1+2)))` tokenizes to the nine expected tokens |
| Examples.SignedOperandsRejected | tests/expressionTest.php:31-35 | the signed-operand inputs the test expects to be rewritten are rejected with "Invalid syntax" by the code |
| Examples.FirstCharErrors | tests/expressionTest.php:51-52 | `)`, `+`, `*`, `/` (and `-`) as a whole input give "Incorrect first char" |
| Examples.SkippedCharSplitsNumber | tests/expressionTest.php:35 | `4 7` tokenizes to the two numbers `4` and `7`: a skipped blank splits a number, where the test expects `47` |
| Examples.ConvertSkipsLetters | tests/expressionTest.php:59-61 | `12+acv+233` is not rejected: the letters are skipped and the two `+` survive side by side |
| Examples.OperatorPairErrors | tests/expressionTest.php:75-87 | each pair of adjacent operators gives "Invalid syntax" |
| Examples.BracketPlacementErrors | tests/expressionTest.php:88-91 | `(` after a digit or `)`, and `)` after an operator or `(`, give "Invalid syntax" |
| Examples.CreateStackNoOpenBracket | tests/expressionTest.php:102-106 | a `)` with no `(` before it gives "Open bracket not found" |
| Examples.CreateStackUnclosedBracket | tests/expressionTest.php:114-118 | a trailing unmatched `(` gives "Unclosed bracket found" |
| Examples.CreateStackPrecedence | tests/expressionTest.php:123-130 | `1 + 123 * ( 3 + 45 )` converts to `1 123 3 45 + * +` |
| Examples.FirstCalculation | tests/expressionTest.php:146 | `((((34+2)*2)-(45+21)/4)-123)-4` evaluates to -71.5 |
| Examples.SecondCalculation | tests/expressionTest.php:147 | `200+12*((1/8)+1)-19` evaluates to 194.5 |
| Examples.StickyBracketFlag | www/index.php:151-159 | once a `)` has matched, a later stray `)` no longer throws: `( 1 ) )` converts to `1` |
| Examples.SinglePop | www/index.php:126-135 | only one operator is popped per incoming operator: `1-2*3+4` converts to `1 2 3 * 4 + -` and evaluates to -9 |
| Examples.MissingOperandSkipped | www/index.php:25 | an operator with a single value on the stack is skipped: `1 +` evaluates to 1 |

## Left out

- The driver at `www/index.php:229-234` is left out. It only runs one expression and echoes the result (I/O).
- SplStack iterator mechanics are not modelled. The stack is a plain list with its top first, and `current()` always reads the top. The real iterator's position is not moved by `push` and is first set by `rewind`, so until the first `)` PHP's `current()` may yield `null` instead of the top. `Examples.SinglePop` and the one-pop rule in `Converter.Step` hold under the top-reading model.
- PHP's integer width is not modelled. `(int)` of a digit run beyond `PHP_INT_MAX` saturates at `PHP_INT_MAX`, arithmetic that leaves the integer range continues in floating point, and division and floating-point results are rounded. The model uses unbounded naturals and exact reals.
- Division by zero is modelled as the `DivisionByZero` failure. PHP 7 gives a warning and `false`; PHP 8 throws `DivisionByZeroError`.
- Reading `$temp[0]` after evaluation leaves an empty stack is modelled as the `NoResult` failure. PHP yields `null` with a notice.
- The input string is a sequence of `char`. PHP indexes bytes, so multi-byte characters are not modelled.
- `createStack` and `calculateStack` are modelled on the token arrays `convertToArray` can build: digit runs, operators and brackets. Other strings a caller could pass, which `is_numeric` and `(int)` would treat differently (`"1.5"`, `"-3"`, `"abc"`), are not modelled.
- `in_array`'s loose comparison is not modelled. It makes no difference for the single characters and tokens the parser compares.
- Exceptions are reduced to `Error` values. `Tokens.Message` gives their texts.
- Some behaviour the repository's tests expect (`tests/expressionTest.php:31-35` and `57-61`) is absent from `www/index.php`: whitespace removal, the invalid-character error, doubled minus signs, and rewriting a signed operand as `(0-N)`. It is not modelled.
