# Monkey lexer and evaluator, modelled in Dafny

This project models the core of a Go interpreter for the Monkey language:

- the line-oriented **lexer**, which splits its input into lines, walks them
  byte by byte and emits tokens stamped with their line and column;
- the tree-walking **evaluator** for integer and boolean expressions,
  prefix and infix operators, statement lists and `if`/`else`;
- the **builtins** `len` and `print`.

Each piece of lexer state is an immutable `Lexing.Lexer` record. Each
mutating Go method is a pure function from one lexer to the next. The
bytes `NUL` (0) and `SOH` (1) keep the sentinel roles they have in the
source: `NUL` means end of input, `SOH` means end of a line that is not
the last. `Lexing.NextToken` returns a `Step`: either the token with the
lexer after it, or `Panic` for the out-of-range byte index the Go code
can hit. `Lexing.Run` collects the first `n` tokens.

Go's `token.LookupIdent` is not part of this model. It is a function
parameter `lookup`, so every lexer property holds for any keyword table.

The lookahead guard is the parameter `PeekGuard`. It has two values:

- `LineCountGuard` compares the lookahead position with the number of
  lines, as the code does. Every concrete example about the code as it
  stands uses this guard.
- `LineLengthGuard` compares it with the length of the current line,
  which is what the code evidently intends (see "Findings").

Integers are Go `int64`. `Int64` writes out two's-complement wrap-around
for `+`, `-`, `*` and unary minus. Division truncates toward zero, and
`MIN / -1` is `MIN`, as Go defines it. Division by zero is a run-time
panic in Go; here it is the outcome `Panic(DivisionByZero)`.

`Evaluator.Eval` returns an `Outcome`:

- `Val(v)` for an object;
- `Nil` where the Go function returns `nil` (an unhandled node);
- `Panic(cause)` where Go would panic: a division by zero, or a method
  call on a `nil` interface.

The `nil` cases follow the code closely. An infix expression calls
`left.Type()` first, and Go's `&&` short-circuits. So a `nil` left
operand always panics, but a `nil` right operand panics only when the
left operand is an Integer. Beside any other left operand, a `nil` right
operand makes `==` give FALSE and `!=` give TRUE, and every other operator
gives NULL. `!nil` is FALSE and `-nil` is NULL. A `nil` condition is truthy.

Object identity follows the code's pointer comparison. The Boolean and
Null singletons are identical exactly when their values are. Builtins are
identical when they name the same entry of the registry. Every String,
Array and Error reached through `==` is a distinct allocation, so it is
never identical to another object.

`print` writes to standard output. Here each `Builtins.CallResult` carries
the list of objects printed so far, and `print` appends its argument.

## Model

| member | source | states |
|---|---|---|
| Lines.SplitLines | lexer/lexer.go:88-90 | Splitting on newlines gives one more line than there are newline bytes. No line contains a newline. Joining the lines back with newlines gives the input exactly. |
| Lines.SplitJoin | lexer/lexer.go:88-90 | Splitting is a left inverse of joining: any list of newline-free lines, joined and split again, gives the same list. |
| Lines.OneLine | lexer/lexer.go:88-90 | An input with no newline is a single line. |
| Lexing.ReadChar | lexer/lexer.go:19-36 | The position moves to the old lookahead position and the lookahead moves one further. The current byte is the line's byte at the new position when there is one. Past the end it is NUL on the last line and SOH on any other line. |
| Lexing.ReadWhile | lexer/lexer.go:40-42 | The loop advances over the maximal run of bytes satisfying the predicate, starting at the current position. It stays on the same line and stops on a byte that fails the predicate. |
| Lexing.ReadCharUntil | lexer/lexer.go:38-44 | The returned literal is the slice of the current line from the start position to the stop position. Every byte in it satisfies the predicate. The lexer stops on the first byte that fails the predicate, or at the end of the line. It stays on the same line. |
| Bytes.IsLetter | lexer/lexer.go:46-48 | A letter is `a`-`z`, `A`-`Z` or `_`. No letter is a digit or a sentinel byte. |
| Bytes.IsDigit | lexer/lexer.go:50-52 | A digit is `0`-`9`. No digit is whitespace or a sentinel byte. |
| Lexing.SkipWhitespace | lexer/lexer.go:54-58 | Every byte skipped is a space, tab, LF or CR. The lexer stops on a byte that is not whitespace, on the same line. |
| Lexing.PeekAhead | lexer/lexer.go:60-66 | The result is NUL when the lookahead position reaches the guard's bound. When the position is inside both the guard's bound and the line, it is the line's byte at that position. The index panics exactly when the guard is the line count and the lookahead position lies between the line's length and the number of lines. |
| Lexing.PeekAheadAndReturnIf | lexer/lexer.go:68-77 | When the lookahead is the expected byte, the result is the pair of the current and next bytes, and the lexer advances one byte. Otherwise nothing is consumed. A panic in the lookahead is passed on. |
| Lexing.NextLine | lexer/lexer.go:79-86 | On any line but the last, moves to the start of the next line. On the last line nothing changes. |
| Lexing.New | lexer/lexer.go:92-96 | A new lexer is positioned on byte 0 of line 0 of the split input, with the lookahead at 1. |
| Lexing.NextToken | lexer/lexer.go:98-170 | The lexer stays valid. The token carries the line and column where scanning stopped after whitespace. A non-empty literal is exactly the bytes of the line at that column, and the next lexer sits just past it. An empty literal is the end-of-input token. With the line-length guard the lexer never panics. |
| Lexing.Run | lexer/lexer.go:98-170 | A run gives exactly `n` tokens unless a step panics. Its first token is the token `NextToken` emits. With the line-length guard it never panics. |
| LexerLaws.RunPrefix | lexer/lexer.go:98-170 | When a run of `n + 1` tokens succeeds, it begins with the run of `n`. Together with the first-token clause of `Run`, this makes a run the sequence of successive `NextToken` results. |
| LexerLaws.PanicPersists | lexer/lexer.go:98-170 | Once a run panics, every longer run panics too. |
| LexerLaws.RunStep | lexer/lexer.go:98-170 | A run of `m > 0` tokens is the token of the first step followed by the run of `m - 1` from the lexer after it. It panics when that step or that rest panics. |
| LexerLaws.PeekAheadGuardsAgree | lexer/lexer.go:60-66 | The code's line-count guard and the line-length guard agree inside both bounds and past both. Wherever they differ, the code's guard answers NUL or panics. |
| LexerLaws.LineBreakEmitsNothing | lexer/lexer.go:145-149 | At the end of a line that is not the last, no token is emitted for the break. The result is the first token of the next line. |
| LexerLaws.WordIsMaximalRun | lexer/lexer.go:153-157 | A letter starts an identifier token. Its literal is the longest run of letters at the column, and its kind is the keyword lookup of that literal. The lexer stops right after the run. |
| LexerLaws.NumberIsMaximalRun | lexer/lexer.go:158-161 | A digit starts an `Int` token whose literal is the longest run of digits at the column. The lexer stops right after the run. |
| LexerLaws.TwoByteOperators | lexer/lexer.go:109-124 | `=` and `!` become `==` and `!=` exactly when the lookahead answers `=`, and then two bytes are consumed. Any other answer gives the one-byte `=` or `!`. The step panics exactly when the lookahead panics. |
| LexerLaws.OtherByteIsOneToken | lexer/lexer.go:115-164 | Any other byte is a one-byte token: its operator or delimiter kind from the table, or `Illegal`. Exactly one byte is consumed. |
| LexerLaws.EndOfInputIsSticky | lexer/lexer.go:98-151 | Once only whitespace is left on the last line, the token is an empty end-of-input token at the column where the whitespace ends, under either guard, and the lexer stays at the end. |
| LexerLaws.EofForever | lexer/lexer.go:150-167 | Once at the end of input, every later token is an empty end-of-input token on the last line, and running never panics. |
| LexerExamples.OnePlusTwo | lexer/lexer.go:98-170 | `1 + 2` lexes to `Int` "1" at 0:0, `Plus` at 0:2, `Int` "2" at 0:4 and end of input at 0:5. |
| LexerExamples.TwoLines | lexer/lexer.go:145-149 | `a\nb` lexes to the identifier "a" at 0:0 and "b" at 1:0, then end of input at 1:1, with nothing emitted for the break. |
| LexerExamples.DoubleEqualsOnOneLineAsWritten | lexer/lexer.go:60-66 | On a one-line input, the code's guard makes the lookahead answer NUL. So `==` lexes as two `Assign` tokens, at 0:0 and 0:1. |
| LexerExamples.DoubleEqualsOnOneLineIntended | lexer/lexer.go:60-66 | With the line-length guard, `==` on one line is a single `Eq` token. |
| LexerExamples.TrailingEqualsPanicsAsWritten | lexer/lexer.go:60-66 | With the code's guard, an `=` ending the first of three lines makes the lookahead index past that line, so lexing panics. |
| Int64.Wrap | evaluator/evaluator.go:104-128 | Reduction into int64 is congruent modulo 2^64 and leaves in-range values unchanged. |
| Int64.Add | evaluator/evaluator.go:104-128 | int64 `+` gives the exact sum when it fits. Otherwise it gives the sum shifted by 2^64 in the direction of the overflow. |
| Int64.Sub | evaluator/evaluator.go:104-128 | int64 `-` gives the exact difference when it fits. Otherwise it gives the difference shifted by 2^64 in the direction of the overflow. |
| Int64.Mul | evaluator/evaluator.go:104-128 | int64 `*` is the exact product reduced modulo 2^64, and it is exact when the product fits. |
| Int64.Neg | evaluator/evaluator.go:82-89 | Unary minus negates every int64 except MIN, which maps to itself. |
| Int64.TruncDiv | evaluator/evaluator.go:104-128 | Division truncating toward zero: the remainder takes the dividend's sign and is smaller in magnitude than the divisor, and the quotient is no larger in magnitude than the dividend. |
| Int64.Div | evaluator/evaluator.go:104-128 | int64 `/` is truncating division, except that MIN / -1 wraps to MIN. |
| Int64.TruncDivSymmetric | evaluator/evaluator.go:104-128 | Negating either operand negates the truncated quotient. |
| Int64.TruncDivOfNaturals | evaluator/evaluator.go:104-128 | On non-negative operands, truncated division agrees with Euclidean division. |
| Evaluator.EvalBoolean | evaluator/evaluator.go:50-56 | A Go boolean maps to the TRUE or FALSE singleton holding that value. |
| Evaluator.IsTruthy | evaluator/evaluator.go:142-153 | Only NULL and FALSE are falsy. Every other object is truthy, and so is a nil result. |
| Evaluator.EvalBang | evaluator/evaluator.go:69-80 | `!` gives the singleton for the negated truthiness of its operand. |
| Evaluator.EvalMinus | evaluator/evaluator.go:82-89 | `-` of an Integer is its int64 negation: the exact negation except for MIN, which stays MIN. Any other operand, nil included, gives NULL. |
| Evaluator.EvalPrefix | evaluator/evaluator.go:58-67 | `!` gives the singleton for the negated truthiness of its operand, and `-` is the minus operator. Any other operator gives NULL. The result is always an Integer, a Boolean or NULL. |
| Evaluator.EvalIntegerInfix | evaluator/evaluator.go:104-128 | On two Integers the only panic is `/` with a zero divisor. `+`, `-` and `*` give the Integer congruent modulo 2^64 to the exact result, which is unique among int64 values. `/` is int64 division. `< > == !=` give the Boolean for the numeric comparison. An unknown operator gives NULL. |
| Evaluator.EvalInfix | evaluator/evaluator.go:91-102 | Two Integers go to integer infix evaluation. When the operands are not both Integers and nothing panics (a non-Integer left operand, or an Integer beside a non-nil non-Integer), `==` and `!=` compare by reference and any other operator gives NULL, so `1 + true` is NULL. A nil left operand always panics, and a nil right operand panics only beside an Integer. The result is always an Integer, a Boolean or NULL. |
| Evaluator.Eval | evaluator/evaluator.go:14-38 | Whatever the tree, a value that evaluation produces is an Integer, a Boolean or NULL and never another kind of object. The other outcomes are nil and a panic. |
| Evaluator.EvalStatements | evaluator/evaluator.go:40-48 | An empty list gives nil. A panic in the first statement is the result. Any value produced is an Integer, a Boolean or NULL. |
| Evaluator.EvalIf | evaluator/evaluator.go:130-140 | A truthy condition runs the consequence. Otherwise the alternative runs if there is one, and NULL is the result if there is not. |
| EvaluatorLaws.TruthOfBoolean | evaluator/evaluator.go:142-153 | Truthiness inverts `evalBoolean`: the singleton for `b` is truthy exactly when `b` holds. |
| EvaluatorLaws.DoubleBang | evaluator/evaluator.go:69-80 | `!!x` is the singleton for the truthiness of `x`. |
| EvaluatorLaws.MinusInvolution | evaluator/evaluator.go:82-89 | `--n` is `n` for every int64, MIN included. |
| EvaluatorLaws.NotEqualNegatesEqual | evaluator/evaluator.go:91-102 | `!=` is the negation of `==` on every pair of operands, and panics exactly when `==` does. |
| EvaluatorLaws.IntegerInfixIsInt64 | evaluator/evaluator.go:104-128 | For all int64 literals `a` and `b`, `a + b`, `a - b` and `a * b` evaluate to the int64 sum, difference and product, and `a / b` to int64 division. A zero divisor panics. `<` and `>` give the Boolean for the numeric comparison. |
| EvaluatorLaws.IntegerComparisons | evaluator/evaluator.go:118-125 | On Integers, `==` is numeric equality and symmetric, and `a < b` is `b > a`. |
| EvaluatorLaws.IntegerNeverEqualsOtherType | evaluator/evaluator.go:91-102 | An Integer never equals an object of another type, in either order. |
| EvaluatorLaws.MixedOperandsGiveNull | evaluator/evaluator.go:91-102 | An Integer beside a non-Integer object, in either order, gives NULL for every operator except `==` and `!=`. `1 + true` is NULL. |
| EvaluatorLaws.IdentityEquality | evaluator/evaluator.go:91-102 | Arrays and Strings compare unequal even with equal contents. Booleans compare by value and NULL equals NULL. |
| EvaluatorLaws.StatementsYieldLast | evaluator/evaluator.go:40-48 | A non-empty statement list panics exactly when one of its statements panics. Otherwise it gives the value of its last statement. |
| EvaluatorLaws.IfNegatedCondition | evaluator/evaluator.go:130-140 | Negating the condition of an if-else swaps its branches. |
| EvaluatorLaws.IfFalsyWithoutAlternative | evaluator/evaluator.go:130-140 | A falsy condition with no alternative gives NULL. |
| EvaluatorLaws.FivePlusFiveTimesTwo | evaluator/evaluator.go:104-128 | The tree for `5 + (5 * 2)` evaluates to 15. |
| EvaluatorLaws.BangOfInteger | evaluator/evaluator.go:69-80 | `!5` is FALSE and `!!5` is TRUE. |
| EvaluatorLaws.DivisionEdges | evaluator/evaluator.go:104-128 | MIN / -1 is MIN, `7 / 0` panics and `-7 / 2` is -3. |
| EvaluatorLaws.NilOperands | evaluator/evaluator.go:91-102 | A nil left operand panics. A nil right operand beside a Boolean gives FALSE, and beside an Integer it panics. `!nil` is FALSE and a nil condition is truthy. |
| Builtins.Lookup | evaluator/builtins.go:8-36 | Exactly the names `len` and `print` resolve, each to its own builtin. |
| Builtins.CallLen | evaluator/builtins.go:9-24 | The argument count is checked first. A String gives its byte count and an Array its element count. Any other object is an unsupported-argument error naming its type. A nil argument panics, and only a nil argument does. |
| Builtins.CallPrint | evaluator/builtins.go:25-35 | With one argument, `print` appends it to the output and returns NULL. A nil argument panics with nothing printed. Otherwise it returns an arity error and prints nothing. |
| Builtins.Call | evaluator/builtins.go:8-36 | Calling a registry entry runs that builtin. A panic in `len` becomes a nil-argument panic with the output unchanged. |
| Builtins.NilArgumentPanics | evaluator/builtins.go:15-31 | Either builtin panics exactly when it is given one argument and that argument is nil. Nothing is printed then. |
| Builtins.ArityCheckedFirst | evaluator/builtins.go:11-13 | Both builtins reject a wrong argument count with the same error, whatever the arguments, and print nothing. |
| Builtins.LenAcceptsStringsAndArrays | evaluator/builtins.go:15-22 | `len` of one argument succeeds exactly for Strings and Arrays. |
| Builtins.OutputGrowsOnlyOnPrint | evaluator/builtins.go:25-35 | Earlier output is kept. A call adds exactly one object when it is a one-argument `print` of a non-nil object, and nothing otherwise. |

## Left out

- The command-line driver and REPL are not part of this model; they are I/O.
- `token.LookupIdent` is not part of this model. The keyword table is the parameter `lookup`, and every property holds for any table.
- The `token`, `ast` and `object` packages appear only as the datatypes they define. `Inspect` text and error-message formatting are not modelled. Errors are tags that carry the argument count or the argument's object type.
- `print` records the object it prints rather than the text of `Inspect`, because standard output is I/O.
- The parser is not modelled. The evaluator takes trees whose shape is already decided.
- Node kinds that `Eval` has no case for (identifiers, functions, calls, arrays, strings) are one `Unhandled` node, because they all give nil.
- Pointer identity is modelled only as far as `==` can observe it. Singletons are identical by value. Every String, Array and Error is a fresh object.
- Unicode is not modelled. The lexer works on bytes, with `byte` as the characters below 256.
- A literal NUL or SOH byte inside a line acts as a sentinel, exactly as in the code. The model keeps that behaviour and does not treat it separately.
- CallLen: the length is wrapped into int64, and the contract states the result only for lengths up to MAX. A Go string or slice can never be longer than that.

## Findings

| source | as written | input that shows it | evidently intended | confidence | as-written member | corrected member |
|---|---|---|---|---|---|---|
| lexer/lexer.go:61 | The lookahead guard compares the lookahead position with the number of lines. | `==` on one line lexes as two `Assign` tokens. `a=` followed by two more lines indexes past the end of the first line and panics. | Compare with the length of the current line, so `==` is one `Eq` token and lexing never panics. | high, not executed | LexerExamples.DoubleEqualsOnOneLineAsWritten | LexerExamples.DoubleEqualsOnOneLineIntended |
