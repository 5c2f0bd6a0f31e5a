# Arithmetic expression evaluator, modelled in Dafny

This project models `evaluate` from `calculator/evaluator.py`. It takes a string such as
`"3 * (-2 + 5) / 3"` and produces an exact value or an error, in three stages:

1. **Tokenizer** (`_tokenize`)
   - makes one left-to-right scan of the stripped text;
   - skips whitespace;
   - emits each of `+ - * / ( )` as its own token;
   - consumes each run of digits and decimal points greedily;
   - rejects any other character.
2. **Shunting-yard converter** (`_to_rpn`)
   - turns the infix tokens into postfix, using an operator stack, an output list and a
     tag for the previous token's kind;
   - reads `+` and `-` as the unary operators `u+` and `u-` at the start, after an
     operator, or after `(`.
3. **Postfix evaluator** (`_evaluate_rpn`) reduces the postfix list with a value stack.

## Layout

| Module (file) | What it holds |
|---|---|
| `Outcomes` (`outcomes.dfy`) | The `Error` datatype, with one constructor per error the code raises; `Result` and `Option`. |
| `Lexemes` (`lexemes.dfy`) | Character classes, `IsNumber` (a branch-by-branch copy of `_is_number`), and `IsNumeral`, an independent grammar for numerals. Also the exact value of a literal (`LiteralValue`). |
| `Tokenizer` (`tokenizer.dfy`) | `Lex`, the recursive specification of the scan, and the loop method `Tokenize`, proved equal to it. Properties of the token list. |
| `ShuntingYard` (`shunting_yard.dfy`) | `_PRECEDENCE` and `_RIGHT_ASSOCIATIVE`, and `Convert`, the recursive specification. The loop methods `ToRpn`, `PopUntilOpen`, `PopWhileHigher` and `PopAll`. Stack-discipline and error lemmas. |
| `Postfix` (`postfix.dfy`) | `EvalRpn`, the specification, and the loop method `EvaluateRpn`. The stack-height account of well-formed postfix, and evaluation of the postfix form of an expression tree. |
| `Precedence` (`chains.dfy`) | A reference parse for flat chains `n op n op … n` and for runs of signs `± … ± n`. Proof that the converter produces exactly that parse's postfix. |
| `Evaluator` (`evaluator.dfy`) | `strip`, `Evaluate` and the method `Calculate`. End-to-end properties. |
| `Examples` (`examples.dfy`) | The repository's test cases, and an input for each reachable error the code raises other than the `None` check, each proved against `Evaluate`. |

## Modelling decisions

- **Imperative stages.** Each imperative stage is a `method` with the source's loops, whose
  `ensures` equates its result with a recursive specification function. The properties are
  proved about that function.
- **Exceptions.** Every Python exception becomes an `Err` value:
  - `CalculationError`, with a constructor per message;
  - `ZeroDivisionError` becomes `DivisionByZero`;
  - the `KeyError` of a `_PRECEDENCE[...]` lookup becomes `UnknownOperator(key)`.
- **None.** A `None` argument is `Option.None`.
- **Tokens.** Tokens are strings, as in the code, so nothing is assumed about which tokens
  are numbers.
- **The trailing decimal point.** The scanner accepts a run ending in `.` such as `5.`, but
  `_is_number` rejects it, because `"".isdigit()` is false. The converter then takes `5.`
  down the operator path, and the outcome is whatever error that position gives. Examples
  pin down these cases:
  - "operator after operator", where an operand is expected (`"5."`);
  - "cannot end with an operator", when it is the last token (`"2 5."`);
  - mismatched parentheses, when the stack holds no `(` at a `)` or at the end (`"2 5.)"`);
  - an unsupported-token error in the evaluator (`"2 5. 3"`);
  - the `KeyError` of the precedence lookup (`"2 5. -3"`).

  Other positions give an insufficient-operand error, for example `"(+) 5. 3"`. In no case
  is a value returned: `StagesAccept` and `EvaluateAccepts` show that a successful
  evaluation has no token ending in `.`.
- **Where the code is followed over a description.**
  - "Malformed expression" is reachable, for example with `"2 3"` and with `"()"`.
  - The empty-group case `"()"` passes the converter and fails only in the evaluator.
- **Numbers.** Values are exact reals. A literal `int.frac` denotes
  `int + frac / 10^|frac|`, which `DecimalIsScaledCoefficient` shows is the decimal
  coefficient scaled by the exponent.

## Model

| member | source | states |
|---|---|---|
| Lexemes.IsNumber | calculator/evaluator.py:194-205 | `_is_number`, branch by branch: a leading `.` needs exactly one `.` and a digit string after it; a leading digit needs no `.` and all digits, or exactly one `.` splitting the token into a digit string and a digit string. `IsNumberIsNumeral` states what it accepts. |
| Lexemes.IsNumberIsNumeral | calculator/evaluator.py:194-205 | The literal check accepts exactly a non-empty digit string, or digits (possibly none), one `.`, and at least one digit. |
| Lexemes.Dots | calculator/evaluator.py:198-202 | The count of `.` in a token is zero exactly when no character is a `.`, and never exceeds the length. |
| Lexemes.LiteralValue | calculator/evaluator.py:187-191 | Every accepted literal denotes a non-negative exact value. The `Decimal` construction is replaced by this function. |
| Lexemes.DecimalIsScaledCoefficient | calculator/evaluator.py:187-191 | `int.frac` denotes the integer formed by all its digits divided by 10 to the number of fractional digits. |
| Lexemes.DigitsValueAppend | calculator/evaluator.py:187-191 | The value of concatenated digit strings is the first value shifted by the second's length plus the second value. |
| Tokenizer.RunEnd | calculator/evaluator.py:51-67 | The inner loop over a numeric run ends inside the input, or raises "multiple decimal points" and nothing else. |
| Tokenizer.RunEndMaximal | calculator/evaluator.py:51-67 | A numeric run stops at the first non-digit, non-`.` character or at the end, so it is maximal. It holds at most one `.`. A second `.` raises "multiple decimal points", and there is a position showing it. |
| Tokenizer.LexFrom | calculator/evaluator.py:40-76 | The scan from position `i`, branch by branch: skip whitespace, emit a symbol, consume a numeric run (rejecting a lone `.`), or reject the character. Its properties are the `Lex` lemmas below. |
| Tokenizer.Lex | calculator/evaluator.py:35-76 | `_tokenize`: the scan from position 0. |
| Tokenizer.Tokenize | calculator/evaluator.py:35-76 | The scanning loop returns exactly what the recursive scan `Lex` specifies, including every error. |
| Tokenizer.LexCoversInput | calculator/evaluator.py:40-76 | On success, every token is a single operator or parenthesis, or a numeric run other than `.` with at most one `.`. The tokens concatenate to the input with all whitespace removed. |
| Tokenizer.LexRejectsFirstInvalid | calculator/evaluator.py:40-76 | Success implies every character is whitespace, a digit, `.` or one of `+-*/()`. An invalid-character error names a disallowed character preceded only by allowed ones. Any other error is a decimal-point error. |
| Tokenizer.LexRuns | calculator/evaluator.py:51-72 | On success, the numeric tokens are exactly the maximal runs of digits and `.` in the input, in order. These runs are defined without the scan, so `"1 2"` gives `1` and `2`, never `12`. |
| Tokenizer.LexReportsFirstProblem | calculator/evaluator.py:40-76 | The scan fails exactly when the input has a disallowed character, or a run before the first one is `.` alone or has two `.`. The error is that of the first bad run before the first disallowed character, otherwise the invalid character. So `"a 1..2"` reports `a`, and `"1..2 a"` reports multiple decimal points. |
| Tokenizer.NumericRunIsNumber | calculator/evaluator.py:51-71 | A scanned numeric run passes the literal check exactly when it does not end in `.`, so `5.` is emitted but is not a number. |
| ShuntingYard.PopRule | calculator/evaluator.py:79-88 | The precedence table knows exactly `+ - * / u+ u-`. With it and the right-associative set, an incoming `+` or `-` pops every operator, `*` or `/` pops all but `+` and `-`, and `u+` or `u-` pops nothing. |
| ShuntingYard.Step | calculator/evaluator.py:96-134 | One iteration of the token loop: a number goes to the output, `(` is pushed, `)` pops to the nearest `(`, and an operator is read as unary by position, pops by precedence and is pushed. Its properties are `StepKeepsStack`, `UnaryByPosition` and `StepCloseFails`. |
| ShuntingYard.Feed | calculator/evaluator.py:96-134 | The token loop: `Step` over each token in turn, stopping at the first error. Its properties are `FeedKeepsInvariant`, `FeedBalance`, `FeedErrors` and `FeedAppend`. |
| ShuntingYard.Convert | calculator/evaluator.py:91-145 | `_to_rpn`: the token loop from an empty state, the trailing-operator check, and the drain. Its properties are `ConvertOutput`, `ConvertBalance`, `ConvertTrailing` and `ConvertErrors`. |
| ShuntingYard.ToRpn | calculator/evaluator.py:91-145 | The conversion loop returns exactly the recursive specification `Convert`, including every error. |
| ShuntingYard.PopUntilOpen | calculator/evaluator.py:107-109 | Popping to the nearest `(` equals `CloseGroup`. That function moves the popped operators to the output top first, pops no `(`, and leaves the stack empty or topped by `(`. |
| ShuntingYard.PopWhileHigher | calculator/evaluator.py:124-131 | The pop loop before a push equals `PopHigher`. `PopHigher` pops exactly while the top has strictly higher precedence, or equal precedence with a left-associative incoming operator. It stops at `(`. A non-operator reaching the lookup gives the `KeyError`. |
| ShuntingYard.PopAll | calculator/evaluator.py:139-143 | Draining the stack equals `Drain`. It succeeds exactly when no `(` is left, and then appends the stack in pop order. Otherwise it reports mismatched parentheses. |
| ShuntingYard.CloseGroup | calculator/evaluator.py:107-112 | What a `)` pops is moved to the output top first. No `(` is popped, and the stack is left empty or topped by `(`. |
| ShuntingYard.PopHigher | calculator/evaluator.py:124-131 | Every operator popped is a known operator that must precede the incoming one. The operator left on top (if any) must not, or is `(`. An error is the lookup of an unknown key. |
| ShuntingYard.Drain | calculator/evaluator.py:139-143 | The final drain succeeds exactly when no `(` remains. It then yields the output followed by the stack reversed. |
| ShuntingYard.StepKeepsStack | calculator/evaluator.py:96-134 | Each token keeps the stack free of `)` and numbers, and keeps it ordered by the popping rule between parentheses. |
| ShuntingYard.FeedKeepsInvariant | calculator/evaluator.py:96-134 | Over any token sequence, the invariants hold: the stack stays ordered, and the output holds no parenthesis. The output's numbers are the input's numbers in input order. |
| ShuntingYard.FeedBalance | calculator/evaluator.py:102-114 | On success, the open parentheses on the stack count the net depth of the tokens, and no prefix closes more than it opened. A mismatched-parenthesis error means some prefix does. |
| ShuntingYard.ConvertOutput | calculator/evaluator.py:91-145 | A successful conversion has no `(` or `)` in its output and keeps the number tokens in input order. Every non-parenthesis token other than `+`/`-` appears in the output. |
| ShuntingYard.ConvertBalance | calculator/evaluator.py:107-114 | A successful conversion implies balanced parentheses. A mismatched-parenthesis error implies unbalanced ones. |
| ShuntingYard.ConvertTrailing | calculator/evaluator.py:136-137 | "Cannot end with an operator" is reported exactly when the token loop succeeds and the input is empty or its last token is an operator or `(`. |
| ShuntingYard.UnaryByPosition | calculator/evaluator.py:116-122 | At the start, after an operator or after `(`, `+`/`-` become `u+`/`u-`, and any other operator raises "operator after operator". After an operand the operator is pushed unchanged. |
| ShuntingYard.StepCloseFails | calculator/evaluator.py:107-111 | A `)` fails with mismatched parentheses exactly when no `(` is on the stack. |
| ShuntingYard.FeedErrors | calculator/evaluator.py:96-134 | The token loop can only fail with mismatched parentheses, operator after operator, or an unknown precedence key. |
| ShuntingYard.ConvertErrors | calculator/evaluator.py:91-145 | Conversion fails only with a token-loop error or the trailing-operator error. |
| ShuntingYard.FeedAppend | calculator/evaluator.py:96-134 | Feeding `a + b` is feeding `a`, then feeding `b` from the resulting state. |
| Postfix.Operate | calculator/evaluator.py:160-169 | Division returns the quotient, whose product with the non-zero divisor is the dividend. Subtraction returns the value that the right operand adds back to the left. |
| Postfix.Apply | calculator/evaluator.py:150-179 | One token of `_evaluate_rpn`: push a number's value; pop two values for a binary operator (right operand first) or one for `u+`/`u-`; reject anything else. `ApplyShape` states its effect. |
| Postfix.Reduce | calculator/evaluator.py:150-179 | The loop over the postfix list: `Apply` on each token in turn, stopping at the first error. `ReduceFits` and `ReduceErrors` state its outcome. |
| Postfix.EvalRpn | calculator/evaluator.py:148-184 | `_evaluate_rpn`: reduce from an empty stack, and require exactly one value left. `EvalRpnWellFormed` and `EvalRpnPostfix` state its outcome. |
| Postfix.EvaluateRpn | calculator/evaluator.py:148-184 | The evaluation loop returns exactly the recursive specification `EvalRpn`, including every error. |
| Postfix.ApplyShape | calculator/evaluator.py:150-179 | One token consumes as many values as it needs and pushes one, leaving the rest of the stack unchanged. It fails only for too few operands, an exact zero divisor, or a token that is neither number nor operator. |
| Postfix.ReduceFits | calculator/evaluator.py:150-179 | Reduction succeeds (or divides by zero) exactly when the stack never runs short. The final height is the start height plus the tokens' net effect. |
| Postfix.ReduceErrors | calculator/evaluator.py:155-179 | A reduction error is insufficient operands, division by zero, or an unsupported token that occurs in the list and is neither a number nor an operator. |
| Postfix.EvalRpnWellFormed | calculator/evaluator.py:148-184 | Evaluation succeeds only on well-formed postfix, where the stack never runs short and exactly one value remains. Well-formed postfix always evaluates, except for division by zero. "Malformed expression" is exactly a completed reduction whose final height is not one. |
| Postfix.EvalRpnPostfix | calculator/evaluator.py:148-184 | Evaluating the postfix form of any expression tree gives the tree's value, with the right operand popped first and division by zero reported. |
| Postfix.ReducePostfix | calculator/evaluator.py:150-179 | Reducing a tree's postfix followed by more tokens pushes the tree's value and continues. |
| Precedence.ConvertChain | calculator/evaluator.py:124-145 | For any chain `n op n … n` of binary operators, the converter's output is the postfix of the left-associative parse where `*` and `/` bind tighter than `+` and `-`. |
| Precedence.EvaluateChain | calculator/evaluator.py:91-184 | Such a chain converts successfully, and its postfix evaluates to the value of that parse. |
| Precedence.FeedChain | calculator/evaluator.py:116-134 | Feeding the operator and operand links of a chain keeps the shunting-yard state equal to the partial parse's state. |
| Precedence.ConvertSigns | calculator/evaluator.py:116-133 | A run of signs before a number converts to the nested unary operators, innermost nearest the number, because the unary operators are right-associative. |
| Evaluator.Strip | calculator/evaluator.py:26 | `str.strip()`: leading whitespace is dropped, then trailing whitespace. `StripBlank`, `StripKeepsText` and `StripIsSlice` state the result. |
| Evaluator.Evaluate | calculator/evaluator.py:15-32 | `evaluate`: `None` and blank input are rejected, and otherwise the stripped text goes through the three stages, with the first error passed on. The `Evaluate` lemmas below state its outcomes. |
| Evaluator.StripBlank | calculator/evaluator.py:26-28 | Stripping gives the empty string exactly when every character is whitespace. Otherwise the result starts and ends with a non-blank character. |
| Evaluator.StripKeepsText | calculator/evaluator.py:26 | Stripping keeps every non-whitespace character, in order. |
| Evaluator.StripIsSlice | calculator/evaluator.py:26 | The stripped text is a contiguous slice of the input, surrounded by whitespace only. |
| Evaluator.Calculate | calculator/evaluator.py:15-32 | The method returns exactly `Evaluate`: `None` is rejected, blank input is rejected, and otherwise the stripped text goes through the three stages. |
| Evaluator.EvaluateRejectsBlank | calculator/evaluator.py:26-28 | "Expression cannot be empty" is reported exactly when the input is empty or all whitespace. |
| Evaluator.ScanErrorsFromScan | calculator/evaluator.py:30 | A scanner error from `evaluate` is the error the scanner gives on the stripped text. A success means the stripped text is non-empty and scans. |
| Evaluator.EvaluateOnlyAllowed | calculator/evaluator.py:30-32 | A successful evaluation implies the input holds only whitespace, digits, `.` and `+-*/()`. |
| Evaluator.EvaluateRejectsFirstInvalid | calculator/evaluator.py:30 | An invalid-character error names a disallowed character of the input, preceded only by allowed characters. |
| Evaluator.EvaluateAccepts | calculator/evaluator.py:15-32 | On success, the tokens spell the input without whitespace, and none ends in `.`. The parentheses are balanced, and the postfix is well formed and keeps the numbers in input order. |
| Evaluator.StagesAccept | calculator/evaluator.py:30-32 | If converting and evaluating a scanned token list both succeed, the list is balanced, has no trailing-point runs, and yields well-formed postfix. |
| Examples.AddExample | tests/test_evaluator.py:9 | `2 + 2` evaluates to 4. |
| Examples.SubtractExample | tests/test_evaluator.py:10 | `5 - 3` evaluates to 2. |
| Examples.MultiplyExample | tests/test_evaluator.py:11 | `4 * 2` evaluates to 8. |
| Examples.DivideExample | tests/test_evaluator.py:12 | `8 / 2` evaluates to 4. |
| Examples.PrecedenceExample | tests/test_evaluator.py:15 | `2 + 3 * 4` evaluates to 14. |
| Examples.ParenthesesExample | tests/test_evaluator.py:16 | `(2 + 3) * 4` evaluates to 20. |
| Examples.DecimalSumExample | tests/test_evaluator.py:19 | `0.1 + 0.2` evaluates to exactly 0.3. |
| Examples.DecimalProductExample | tests/test_evaluator.py:20 | `1.5 * 2` evaluates to 3. |
| Examples.UnaryMinusExample | tests/test_evaluator.py:23 | `-5 + 3` evaluates to -2. |
| Examples.DivisionByZeroExample | tests/test_evaluator.py:27-28 | `5 / 0` reports division by zero. |
| Examples.OperatorAfterOperatorExample | tests/test_evaluator.py:32 | `2 + * 2` reports an operator after an operator. |
| Examples.InvalidCharacterExample | tests/test_evaluator.py:34 | `2 + a` reports the invalid character `a`. |
| Examples.EmptyExample | tests/test_evaluator.py:36 | The empty string is rejected as empty. |
| Examples.AdjacentNumbersExample | calculator/evaluator.py:181-182 | `2 3` converts, but leaves two values and is reported as malformed. |
| Examples.EmptyGroupExample | calculator/evaluator.py:181-182 | `()` converts to an empty postfix list and is reported as malformed. |
| Examples.TrailingPointExample | calculator/evaluator.py:116-122 | `5.` is scanned, not taken as a number, and rejected as an operator at the start. |
| Examples.TrailingPointUnsupportedExample | calculator/evaluator.py:179 | In `2 5. 3`, the run `5.` reaches the evaluator and is reported as an unsupported token. |
| Examples.TrailingPointLookupExample | calculator/evaluator.py:124-126 | In `2 5. -3`, the precedence lookup for `5.` fails with an unknown-key error. |
| Examples.TrailingPointEndExample | calculator/evaluator.py:136-137 | In `2 5.`, the run `5.` is the last token and is reported as a trailing operator. |
| Examples.TrailingPointCloseExample | calculator/evaluator.py:107-111 | In `2 5.)`, the run `5.` is pushed, and the `)` finds no `(` and reports mismatched parentheses. |
| Examples.UnclosedGroupExample | calculator/evaluator.py:139-143 | `(2+3` leaves a `(` on the stack at the end and reports mismatched parentheses. |
| Examples.UnopenedGroupExample | calculator/evaluator.py:107-111 | `2 + 3)` reaches a `)` with no `(` on the stack and reports mismatched parentheses. |
| Examples.TrailingOperatorExample | calculator/evaluator.py:136-137 | `2 +` ends with an operator and is rejected. |
| Examples.MultiplePointsExample | calculator/evaluator.py:60-62 | `1..2` reports multiple decimal points. |
| Examples.StandalonePointExample | calculator/evaluator.py:68-70 | In `1 + .`, the lone `.` is reported as a standalone decimal point. |
| Examples.MissingOperandsExample | calculator/evaluator.py:155-157 | `() * 2` converts to `2 *`, which has too few operands for `*`. |
| Examples.MissingOperandExample | calculator/evaluator.py:171-174 | `(+)` converts to `u+`, which has no operand. |

## Left out

- Decimal arithmetic: the 28-digit context (`calculator/evaluator.py:8`) and its rounding on every operation, including division (`calculator/evaluator.py:169`). Values are exact reals, so `1 / 3` is exact and `0.1 + 0.2` is exactly `0.3`. The context's exponent limits are not modelled either: where Python raises `decimal.Overflow` for a result beyond `Emax`, or rounds a tiny result to zero below `Emin`, the model returns the exact value.
- Lexemes.LiteralValue: stands in for `Decimal(token)` (`calculator/evaluator.py:187-191`) and is only defined on tokens the literal check accepts. The defensive "Invalid numeric literal" branch is therefore unreachable in the model.
- Lexemes.IsDigit: accepts only ASCII `0`-`9`, whereas Python's `isdigit` also accepts other Unicode digits. Whitespace follows the full set Python's `isspace` accepts.
- Messages: error messages are constructor names, not text. `ZeroDivisionError` and `KeyError` are distinguished from `CalculationError` only by constructor.
- Precedence.ConvertChain: the exact-parse theorem covers flat binary chains and sign runs before a number. Nested parentheses and signs inside chains are covered only by the general lemmas (`ConvertOutput`, `UnaryByPosition`, `FeedKeepsInvariant`, `EvalRpnPostfix`).
- Examples: the test `3 * (-2 + 5) / 3` (`tests/test_evaluator.py:24`) has no worked example. Its unary reading is what `UnaryByPosition` states.
- `src/calculator.c`, `src/calculator.h` and `src/main.c` are not part of this model. They are a separate C implementation over floating point.
- `calculator/calculator.py` is not part of this model. It delegates parsing to Python's `ast` module.
- `scientific_calculator/` is not part of this model. It holds floating-point and complex wrappers and a Tkinter interface.
- `calculator/__main__.py`, `main.py` and result formatting are not part of this model. They are console input/output loops.
