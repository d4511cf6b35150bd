# Jsl in Dafny

A model of the core of Jsl, a small stack language written in Rust. The model covers three parts.

- **The operand stack** (`stack.dfy`, module `OperandStack`). It is a fixed array of 255 floating-point slots, and slot 0 is the top.
  - `push` rotates the array right and writes slot 0, so the old bottom slot is lost.
  - `pop` reads slot 0, zeroes it and rotates left.
  - There is no overflow or underflow error. The class `Stack` keeps the real `array<real>` and changes it in place. Its methods are proved against the sequence functions `Pushed` and `Popped`.
- **The records** (`types.dfy`, module `Types`): macros, bindings (`Let`) and user functions, plus the token tree.
- **The lexer** (`words.dfy`, `lexer.dfy`, `lexer_properties.dfy`).
  - Source text is split on Unicode whitespace into words, and the words are walked with an index and an iterator position kept in step.
  - `Step`/`LexFrom` specify the lexer on words.
  - The method `Lex` works on text the way the source does, and is proved equal to them.
  - Block bodies are rebuilt as text and lexed again. `Words.SplitJoined` proves that this is the same as lexing the words themselves.
- **The interpreter** (`interpreter.dfy`, `interpreter_properties.dfy`, module `Interpreter`).
  - `State` holds the stack contents, macros, global memory, functions, memory scope, current function index and printed output.
  - `RunFrom` is the specification of `parse`. It carries the token iterator position and the loop's separate `index` counter, because they drift apart after a `then` that skips.
  - `class Interpreter` has the fields of the Rust struct and an in-place `OperandStack.Stack`. Its `Parse` is proved equal to `RunFrom`, token arm by token arm.
  - `utf8.dfy` gives the UTF-8 bytes that `str` pushes.

Recursion is bounded explicitly:

- Nested runs (`then`, `times`, `import`, `call`, macro expansion) take one unit of `fuel`. Running out gives the fault `OutOfFuel`.
- Imports inside the lexer take one unit of `depth`. Running out gives `ImportTooDeep`.

A panic of the Rust program becomes an error value instead:

- `Fault` for the interpreter: `set` of an unknown name, an identifier with no macro, `putc` of a non-character, and a token with no arm.
- `LexFault` for the lexer: reading past the word list, or an unreadable import.

### Quirks of the interpreter

- **Identifiers need a macro.** An identifier whose name is bound by `let` but is not a macro panics (`src/interpreter.rs:221-256`). The binding's value is pushed first, then the macro lookup fails and sets the error flag. So `1 let x x` panics: see `BoundVariableAlonePanics`.
- **`then` re-runs `tokens[index]`.** With 1.0 on top, `then` runs `tokens[index]` as a program of its own.
  - `index` only advances at the end of each loop turn (`src/interpreter.rs:260`). So while nothing has been skipped, `tokens[index]` is that same `then`.
  - A false `then` advances the iterator twice but `index` only once. After k skips, `tokens[index]` is the token k places before the `then`.
  - `ThenTrueInSync`, `ThenFalseSkips` and `SkippedTokenRevived` state these three cases. `RevivalLexed` shows that the token sequence of the last one is what the lexer makes of `false then 0 1 false then 0 42 true then 0 put`.
- **Payloads the interpreter ignores.** The lexer gives `then` the lexing of the next word as a payload. The interpreter never looks at it, so the word after `then` is consumed by the lexer and has no effect on the run. A word that needs a following word or a terminator (`str`, `let`, `set`, `call`, `then`, `import`, `macro`, `times`, `[`, `fn`) makes the lexer fail there, because it is lexed alone.
- **Tokens without an arm.** The lexer also emits `mod` and arrays, which have no arm in the interpreter; the model gives these two the fault `NoArm`.
- **`call` ends in global scope.** `call` always sets the scope back to global when the body returns, even when it was called from inside another function.

## Model

| member | source | states |
|---|---|---|
| `OperandStack.RotateRight` | stack/src/lib.rs:13 | in-place `rotate_right(1)`: the array afterwards is the old one rotated right by one place |
| `OperandStack.RotateLeft` | stack/src/lib.rs:22 | in-place `rotate_left(1)`: the array afterwards is the old one rotated left by one place |
| `OperandStack.Pushed` | stack/src/lib.rs:12-14 | after a push the array still has 255 slots and slot 0 holds the pushed value |
| `OperandStack.Popped` | stack/src/lib.rs:19-22 | after a pop the array still has 255 slots and the bottom slot holds 0.0 |
| `OperandStack.PushedShape` | stack/src/lib.rs:13-14 | push shifts every slot down by one (new slot i+1 = old slot i) and discards the old slot 254 |
| `OperandStack.PoppedShape` | stack/src/lib.rs:20-22 | pop shifts every slot up by one (new slot i = old slot i+1) and refills slot 254 with 0.0 |
| `OperandStack.PopAfterPush` | stack/src/lib.rs:12-25 | a pop right after `push(x)` sees x on top, restores slots 0..253 and leaves 0.0 in slot 254 |
| `OperandStack.PoppedTimesShape` | stack/src/lib.rs:19-25 | k pops (k ≤ 255) bring slot k to the top and fill the bottom k slots with 0.0 |
| `OperandStack.DrainedStack` | stack/src/lib.rs:6-25 | 255 pops drain any stack to all zeros; a fresh or drained stack stays all zeros under pop, so pop yields 0.0 and never fails |
| `OperandStack.Stack.constructor` | stack/src/lib.rs:6-10 | a new stack is a fresh array of 255 slots, all 0.0 |
| `OperandStack.Stack.Push` | stack/src/lib.rs:12-17 | the array after `push(num)` is `Pushed` of the old array: num in slot 0, the rest shifted down |
| `OperandStack.Stack.Pop` | stack/src/lib.rs:19-25 | `pop` returns the old slot 0, and the array becomes `Popped` of the old one |
| `OperandStack.PushThree` | stack/src/lib.rs:32-40 | pushing 1, 2, 3 on a new stack leaves 3.0 on top, then 2.0 and 1.0 |
| `Types.Macro.New` | src/types.rs:10-12 | `Macro::new` stores name and body unchanged |
| `Types.Let.SetValue` | src/types.rs:22-24 | `set_value` leaves `value == new_value` and does not change the name |
| `Types.Function.New` | src/types.rs:35-37 | `Function::new` stores name, memory (in order) and body unchanged |
| `Words.WordLength` | src/lexer.rs:31 | the first word of a text is its longest whitespace-free prefix, ended by whitespace or the end of the text |
| `Words.SplitWhitespace` | src/lexer.rs:31 | `split_whitespace` yields only non-empty words without whitespace |
| `Words.SplitWord` | src/lexer.rs:84 | one word lexed as a text of its own splits into exactly that word |
| `Words.JoinSpacedSnoc` | src/lexer.rs:57 | appending a word to a body adds the word and one space to its text |
| `Words.SplitJoined` | src/lexer.rs:56-63 | a body rebuilt as words each followed by a space splits back into the same words |
| `Lexer.FirstFrom` | src/lexer.rs:56-59 | finds the first terminator at or after a start index, or reports that none follows |
| `Lexer.NextWordToken` | src/lexer.rs:95-188 | `str`, `let`, `set` and `call` each make their own kind of token, and that token carries the next word verbatim |
| `Lexer.ImportedText` | src/lexer.rs:124-136 | `math`, `std` and `memory` name the bundled texts whatever files exist; any other name is the readable file of that path, and there is no text exactly when no such file can be read |
| `Lexer.Params` | src/lexer.rs:158-167 | parameters are the names in order, each with value 0.0 |
| `Lexer.Step` | src/lexer.rs:36-213 | a token consumes the words from i up to an index that is at least i and inside the word list |
| `Lexer.StepNextWord` | src/lexer.rs:80-151 | `str`, `let`, `set`, `call`, `then` and `import` consume exactly one more word |
| `Lexer.StepMacro` | src/lexer.rs:46-65 | `macro NAME … end` consumes at least the name and the terminator |
| `Lexer.StepBlock` | src/lexer.rs:103-116 | `times … done` (and `[ … ]`) consume at least the terminator |
| `Lexer.StepFn` | src/lexer.rs:153-182 | `fn NAME … do … end` consumes at least the name, `do` and `end` |
| `Lexer.IsStringNumeric` | src/lexer.rs:5-18 | the character loop never sets the flag, so the result is exactly whether the word parses as a number |
| `Lexer.CollectBody` | src/lexer.rs:104-113 | the body loop stops at the first terminator or at the end, and its text is the words before it, each followed by a space |
| `Lexer.CollectParams` | src/lexer.rs:158-167 | the parameter loop stops at the first `do`, and its parameters are the names before it, each with 0.0 |
| `Lexer.LexBody` | src/lexer.rs:56-63 | a body is the lexing of the words up to the first terminator; with no terminator it reads past the list |
| `Lexer.LexNextWord` | src/lexer.rs:80-151 | the arms for `then`, `str`, `import`, `let`, `set` and `call` agree with `StepNextWord`, keeping the iterator in step |
| `Lexer.LexMacro` | src/lexer.rs:46-65 | the `macro` arm agrees with `StepMacro` |
| `Lexer.LexBlock` | src/lexer.rs:103-116 | the `times` and `[` arms agree with `StepBlock` |
| `Lexer.LexFn` | src/lexer.rs:153-182 | the `fn` arm agrees with `StepFn` |
| `Lexer.LexWord` | src/lexer.rs:36-213 | one turn of the main loop agrees with `Step`, and the iterator has consumed exactly the words up to the returned index |
| `Lexer.LexFromStep` | src/lexer.rs:35-215 | lexing from i is the token at i followed by the lexing after the last word it consumed |
| `Lexer.LexFrom` | src/lexer.rs:35-215 | lexing from i never yields more tokens than words remain |
| `Lexer.LexWords` | src/lexer.rs:35-215 | a word list yields at most one token per word, and no words yield no tokens |
| `Lexer.LexText` | src/lexer.rs:29-31 | a text yields at most one token per whitespace-separated word |
| `Lexer.Lex` | src/lexer.rs:29-217 | `lex` returns exactly `LexText`: the specification applied to the split words |
| `LexerProperties.FirstFromIs` | src/lexer.rs:109-113 | the body loop stops at the first terminator and nowhere before it |
| `LexerProperties.ReservedWordsDistinct` | src/lexer.rs:38-93 | the single-word table maps distinct reserved words to distinct tokens, none of them a number or an identifier |
| `LexerProperties.ReservedWordAlone` | src/lexer.rs:38-93 | a reserved word yields exactly its one token and consumes only itself |
| `LexerProperties.OrdinaryWord` | src/lexer.rs:206-211 | any other word is `Number(v)` exactly when it parses as v, otherwise `Ident(word)`, and consumes only itself |
| `LexerProperties.NextWordPayload` | src/lexer.rs:95-188 | `str`, `let`, `set` and `call` take the next word verbatim and consume exactly it; as the last word they read past the list |
| `LexerProperties.ThenTakesOneWord` | src/lexer.rs:80-85 | `then` consumes one word and carries the lexing of that word alone |
| `LexerProperties.LoopAndArrayBodies` | src/lexer.rs:103-116 | `times … done` and `[ … ]` carry the lexing of the words up to the first terminator, with no nesting, and consume the terminator |
| `LexerProperties.MacroBody` | src/lexer.rs:46-65 | `macro NAME … end` is named by the next word and carries the lexing of the words up to the first `end` |
| `LexerProperties.FunctionDefinition` | src/lexer.rs:153-182 | `fn NAME p1 … pk do BODY end` gives one function with memory p1 … pk in order, each 0.0, and the lexing of BODY |
| `LexerProperties.UnterminatedBlock` | src/lexer.rs:46-203 | a `macro`, `times` or `[` block with no terminator, and a `fn` with no `do` after its name or no `end` after that `do`, reads past the word list |
| `LexerProperties.ImportPayload` | src/lexer.rs:118-138 | `import NAME` consumes the name; a name with no text is an unreadable file, otherwise the token carries the lexing of that text or its fault (one import level deeper) |
| `LexerProperties.KeywordAtEnd` | src/lexer.rs:48-198 | a next-word keyword or block opener as the last word reads past the word list |
| `LexerProperties.LexedLength` | src/lexer.rs:35-215 | every turn consumes at least one word and makes one token, so there are never more tokens than words |
| `LexerProperties.LexJoinedText` | src/lexer.rs:61-63 | lexing a body rebuilt as text is lexing its words |
| `Utf8.EncodeChar` | src/interpreter.rs:139 | one character is 1 to 4 bytes; ASCII is its own code; otherwise a lead byte followed by continuation bytes |
| `Utf8.Encode` | src/interpreter.rs:139 | a string has between 1 and 4 bytes per character, each below 256 |
| `Utf8.EncodeAscii` | src/interpreter.rs:139 | an ASCII string's bytes are its character codes, one per character |
| `Interpreter.Position` | src/interpreter.rs:174 | `position` is None exactly when the name is absent; otherwise it is the FIRST index holding the name |
| `Interpreter.WithActiveMemory` | src/interpreter.rs:156-168 | replacing the active memory changes the current function's memory in function scope, the global memory otherwise; the stack, macros, output, scope, the other space and every other function stay as they were |
| `Interpreter.Quotient` | src/interpreter.rs:46-49 | a quotient by a non-zero divisor times the divisor is the dividend; division by 0.0 gives 0.0 |
| `Interpreter.Combine` | src/interpreter.rs:38-105 | the first value popped is the left operand: `add` and `mul` give the sum and product, `minus` and `div` the difference and quotient with the second value subtracted or divided out, and `eq`, `noteq`, `bigger`, `smaller` give 1.0 exactly when first = second, first ≠ second, first < second and first > second, and 0.0 otherwise |
| `Interpreter.AsU32` | src/interpreter.rs:146 | `as u32` truncates toward zero and saturates: 0 below 1.0, 4294967295 at and above 2^32 |
| `Interpreter.Bytes` | src/interpreter.rs:139 | the values `str` pushes are the UTF-8 bytes of its content |
| `Interpreter.Valued` | src/interpreter.rs:35-105 | numbers, booleans and the two-operand tokens change only the stack |
| `Interpreter.Shuffled` | src/interpreter.rs:54-135 | `swap`, `rot`, `dup` and `drop` change only the stack |
| `Interpreter.Recorded` | src/interpreter.rs:70-204 | `put`, `macro`, `fn`, `mempop` and `memusage` keep the scope and the current function and never remove functions |
| `Interpreter.LetBound` | src/interpreter.rs:156-168 | `let` keeps the scope, the current function and the number of functions |
| `Interpreter.Simple` | src/interpreter.rs:35-204 | the tokens that cannot panic keep the scope and the current function and never remove functions |
| `Interpreter.PutChar` | src/interpreter.rs:73-76 | `putc` leaves a valid state when it does not panic |
| `Interpreter.SetBinding` | src/interpreter.rs:170-188 | `set` leaves a valid state when it does not panic |
| `Interpreter.BindFrom` | src/interpreter.rs:210-213 | the argument loop keeps the stack at 255 slots and the number of parameters |
| `Interpreter.BindingPushed` | src/interpreter.rs:223-244 | the binding lookup of an identifier leaves the macros unchanged |
| `Interpreter.PushedReversed` | src/interpreter.rs:139-141 | pushing a byte sequence from its last byte keeps the stack at 255 slots |
| `Interpreter.Nested` | src/interpreter.rs:112 | a nested `parse` leaves a valid state when it does not panic |
| `Interpreter.RunFrom` | src/interpreter.rs:30-262 | the `parse` loop leaves a valid state when it does not panic |
| `Interpreter.Exec` | src/interpreter.rs:34-258 | one token leaves a valid state when it does not panic |
| `Interpreter.Control` | src/interpreter.rs:73-256 | `putc`, `set`, `times`, `import`, `call` and identifiers leave a valid state when they do not panic |
| `Interpreter.Repeat` | src/interpreter.rs:144-150 | the `times` loop leaves a valid state when it does not panic |
| `Interpreter.CallFunction` | src/interpreter.rs:206-219 | `call` leaves a valid state when it does not panic |
| `Interpreter.Identifier` | src/interpreter.rs:221-257 | an identifier leaves a valid state when it does not panic |
| `Interpreter.Interpreter.constructor` | src/interpreter.rs:19-28 | a new interpreter is `Initial()`: a zero stack, no macros, bindings or functions, global scope, function index 0 |
| `Interpreter.Interpreter.Parse` | src/interpreter.rs:30-262 | `parse` ends in the state `RunFrom` gives from index 0, or with the fault it gives |
| `Interpreter.Interpreter.Advance` | src/interpreter.rs:33-260 | one loop turn either panics as `RunFrom` does at this position, or leaves the state from which `RunFrom` continues at the next iterator position and index + 1 |
| `Interpreter.Interpreter.ExecThen` | src/interpreter.rs:107-116 | `then` pops; on 1.0 it runs `tokens[index]` alone, otherwise it moves the iterator past the next token |
| `Interpreter.Interpreter.Execute` | src/interpreter.rs:34-258 | every arm but `then` does what `Exec` says |
| `Interpreter.Interpreter.ExecControl` | src/interpreter.rs:73-256 | the arms that can panic or nest do what `Control` says |
| `Interpreter.Interpreter.ExecPlain` | src/interpreter.rs:35-204 | the arms that cannot panic or nest do what `Simple` says |
| `Interpreter.Interpreter.ExecValue` | src/interpreter.rs:35-131 | number, boolean and two-operand arms do what `Valued` says |
| `Interpreter.Interpreter.ExecShuffle` | src/interpreter.rs:54-135 | `swap`, `rot`, `dup` and `drop` do what `Shuffled` says |
| `Interpreter.Interpreter.ExecStr` | src/interpreter.rs:137-142 | the `str` loop pushes the content's bytes from the last to the first |
| `Interpreter.Interpreter.ExecRecord` | src/interpreter.rs:70-204 | `put`, `macro`, `fn`, `mempop` and `memusage` do what `Recorded` says |
| `Interpreter.Interpreter.ExecLet` | src/interpreter.rs:156-168 | `let` does what `LetBound` says |
| `Interpreter.Interpreter.ExecPutc` | src/interpreter.rs:73-76 | `putc` does what `PutChar` says, including the panic on a non-character |
| `Interpreter.Interpreter.ExecSet` | src/interpreter.rs:170-188 | `set` does what `SetBinding` says, including the panic on an unknown name |
| `Interpreter.Interpreter.ExecTimes` | src/interpreter.rs:147-149 | the `times` loop does what `Repeat` says |
| `Interpreter.Interpreter.BindArguments` | src/interpreter.rs:210-213 | the argument loop gives the stack and the current function's memory that `BindFrom` gives, and changes nothing else |
| `Interpreter.Interpreter.ExecCall` | src/interpreter.rs:206-219 | `call` does what `CallFunction` says |
| `Interpreter.Interpreter.PushBinding` | src/interpreter.rs:223-244 | the binding lookup pushes what `BindingPushed` says and reports whether a binding was found |
| `Interpreter.Interpreter.ExecIdent` | src/interpreter.rs:221-257 | the identifier arm, with its `error` flag, does what `Identifier` says |
| `InterpreterProperties.StepOver` | src/interpreter.rs:33-260 | a token other than `then` that does not panic hands its state to the rest of the run, with iterator and index advancing together |
| `InterpreterProperties.TwoSteps` | src/interpreter.rs:33-260 | two tokens other than `then` that do not panic run one after the other |
| `InterpreterProperties.LiteralPushes` | src/interpreter.rs:125-131 | `Number n`, `true` and `false` push n, 1.0 and 0.0 and lose the bottom slot; nothing else changes |
| `InterpreterProperties.BinaryOperands` | src/interpreter.rs:38-105 | a two-operand token pops the top (first operand) and the second, and pushes their combination |
| `InterpreterProperties.InfixOrder` | src/interpreter.rs:42-105 | after `a b`: `minus` gives b − a, `div` gives b / a, `bigger` gives 1.0 iff b < a, `smaller` gives 1.0 iff b > a, `eq` gives 1.0 iff equal |
| `InterpreterProperties.SwapShape` | src/interpreter.rs:54-60 | `swap` exchanges the top two and loses nothing |
| `InterpreterProperties.SwapTwice` | src/interpreter.rs:54-60 | two `swap`s restore the state |
| `InterpreterProperties.RotShape` | src/interpreter.rs:61-69 | `rot` reverses the top three and loses nothing |
| `InterpreterProperties.DupShape` | src/interpreter.rs:118-124 | `dup` leaves two copies of the top and loses the bottom slot |
| `InterpreterProperties.DropShape` | src/interpreter.rs:133-135 | `drop` removes the top |
| `InterpreterProperties.PushedReversedShape` | src/interpreter.rs:139-141 | pushing bytes from the last leaves the first 255 values of bytes-then-old-stack: all bytes in order on top when they fit, otherwise only the first 255 bytes |
| `InterpreterProperties.StrPushesBytes` | src/interpreter.rs:137-142 | `str` leaves the UTF-8 bytes of its content on the stack with the first byte on top, followed by the old stack, cut to 255 slots |
| `InterpreterProperties.StrAscii` | src/interpreter.rs:137-142 | for ASCII content, slot k holds the code of character k, for every character within the 255 slots |
| `InterpreterProperties.PutPrints` | src/interpreter.rs:70-72 | `put` pops the top and prints it |
| `InterpreterProperties.PutcPrints` | src/interpreter.rs:73-76 | `putc` prints the character with the truncated code, and panics exactly when that code is not a Unicode scalar value |
| `InterpreterProperties.PutcExact` | src/interpreter.rs:73-76 | a whole-number scalar code prints exactly that character |
| `InterpreterProperties.LetAppends` | src/interpreter.rs:156-168 | `let` appends (name, popped value) to the active memory, never replacing entries, and leaves the other space alone |
| `InterpreterProperties.SetOverwrites` | src/interpreter.rs:170-188 | `set` panics when the active memory has no such name, and otherwise overwrites the FIRST such entry with the popped value; macros, output, scope, the current function, the other space and the other functions stay |
| `InterpreterProperties.SetAfterLet` | src/interpreter.rs:156-188 | in global scope, `let x set x` for a fresh x binds x to the value second on the stack |
| `InterpreterProperties.LetMempopRoundTrip` | src/interpreter.rs:164-195 | in global scope, `let x mempop` changes nothing |
| `InterpreterProperties.MemusageCountsGlobals` | src/interpreter.rs:156-200 | `memusage` counts only global bindings: a `let` in a function does not change it, one in global scope adds one |
| `InterpreterProperties.MempopEmpty` | src/interpreter.rs:190-195 | `mempop` with no global bindings pushes 0.0 |
| `InterpreterProperties.MempopPops` | src/interpreter.rs:190-195 | `mempop` removes the last global binding and pushes its value, in either scope, and changes nothing else |
| `InterpreterProperties.MemusagePushes` | src/interpreter.rs:197-200 | `memusage` pushes the number of global bindings, in either scope, and changes nothing else |
| `InterpreterProperties.PositionInPrefix` | src/interpreter.rs:246 | appending names never changes the first position of a name already present |
| `InterpreterProperties.MacroDefines` | src/interpreter.rs:77-79 | `macro` appends the definition and changes nothing else; a fresh name is found at the new entry, while a name already defined keeps finding the earlier macro |
| `InterpreterProperties.FunctionDefines` | src/interpreter.rs:202-206 | the same for `fn` and the lookup of `call` |
| `InterpreterProperties.IdentWithoutMacroPanics` | src/interpreter.rs:246-256 | an identifier with no macro of that name panics, whether or not a binding exists |
| `InterpreterProperties.BoundVariableAlonePanics` | src/interpreter.rs:221-256 | `1 let x x` panics on the last token unless `x` is also a macro |
| `InterpreterProperties.MacroInlining` | src/interpreter.rs:221-256 | an identifier runs the first macro's body in place, after pushing the first binding of that name in the active space if there is one |
| `InterpreterProperties.CallUnknown` | src/interpreter.rs:206-219 | `call` of an unknown name does nothing |
| `InterpreterProperties.BindFromShape` | src/interpreter.rs:210-213 | after binding the n parameters from j onward, the stack is the old one moved up by n with zeros below, and each parameter holds the value the corresponding number of slots below the top, or 0.0 past the bottom |
| `InterpreterProperties.CallBindsArguments` | src/interpreter.rs:206-213 | `call` of a function with k parameters binds parameter i to the value i slots below the top (0.0 from parameter 255 on), and pops k values |
| `InterpreterProperties.CallRunsBody` | src/interpreter.rs:206-219 | `call` of a known name runs the first such function's body in function scope, with that function current, its parameters bound and their values popped, and restores global scope when the body returns |
| `InterpreterProperties.CallEndsGlobal` | src/interpreter.rs:214-216 | a returning `call` of a known function leaves global scope, even when called from a function |
| `InterpreterProperties.ThenFalseSkips` | src/interpreter.rs:107-116 | a `then` that pops a value other than 1.0 skips the next token, and `index` falls one further behind |
| `InterpreterProperties.ThenTrueInSync` | src/interpreter.rs:107-116 | while nothing has been skipped, a `then` that pops 1.0 re-runs itself, popping a second value |
| `InterpreterProperties.ThenTrueRuns` | src/interpreter.rs:107-116 | a `then` that pops 1.0 runs `tokens[index]` alone and then continues after the `then` |
| `InterpreterProperties.SingleToken` | src/interpreter.rs:33-260 | a one-token run of a token other than `then` is that token's step |
| `InterpreterProperties.RevivalLexed` | src/lexer.rs:35-215 | the words of `false then 0 1 false then 0 42 true then 0 put` lex to the token sequence `Revival`, each `then` carrying `0` |
| `InterpreterProperties.RevivalSkips` | src/interpreter.rs:107-116 | in `Revival`, the two false `then`s leave `index` two behind the iterator |
| `InterpreterProperties.RevivalRuns` | src/interpreter.rs:107-116 | from there the true `then` runs the skipped `42`, and `put` prints it |
| `InterpreterProperties.SkippedTokenRevived` | src/interpreter.rs:107-116 | the whole of `Revival` prints 42 |
| `InterpreterProperties.TimesZero` | src/interpreter.rs:144-150 | `times` with a count below 1 only pops the count |
| `InterpreterProperties.TimesRuns` | src/interpreter.rs:144-150 | `times` with a count of 1 or more pops the count, runs the body once and repeats it for the remaining count, or stops at the body's fault |
| `InterpreterProperties.RepeatOnce` | src/interpreter.rs:147-149 | one repetition is one nested run of the body; with `RepeatSplit`, n repetitions are n runs in sequence |
| `InterpreterProperties.RepeatSplit` | src/interpreter.rs:147-149 | running a body a + b times is running it a times and then b times on the resulting state |
| `InterpreterProperties.ImportInline` | src/interpreter.rs:152-154 | `import` runs the imported tokens in place, on the same state |

## Left out

- Floating point. Values are exact reals. NaN, infinities, rounding and overflow are not modelled.
- Division by 0.0. `Interpreter.Quotient` returns 0.0 for this case, where IEEE arithmetic gives an infinity or NaN.
- Output format. `put` and `putc` append to an abstract `output` sequence (`Line(value)`, `Char(c)`). The formatting of numbers by `println!` is not modelled.
- Rust's `str::parse::<f64>` and `char::is_numeric` are function parameters of `Lexer.Host`. The bundled library texts and the readable files are fields of the same record, so file reading is a lookup. A missing file is the fault `FileNotReadable`.
- Unbounded recursion. Nesting is bounded by `fuel` in the interpreter and by `depth` for lexer imports. A program that would nest deeper ends with `OutOfFuel` or `ImportTooDeep`, where the Rust program would recurse until the stack overflows.
- Tokens with no interpreter arm. A `mod` or array token ends a run with `NoArm` (see above).
- `src/main.rs` (argument handling and reading the program file), `rstd/src/fs.rs` (file wrappers) and `src/builtin.rs` (process exit) are not part of this model.
- The token definition file is not part of this model. `Types.Token` is the union of the constructors the lexer builds and the interpreter matches.
- Function parameters. The lexer builds them with the value 0.0; the source writes this as a stack value wrapping 0.0.
- Runtime strings, arrays and objects, brace scopes, property access and a library dispatch table belong to other versions of the language. They are not in this core.
- `Interpreter.Exec`: its own contract only states validity. What each token does is stated by the lemmas listed for `Simple` and `Control`; `TimesZero` and `TimesRuns` state `times` for every count.
- `Interpreter.RunFrom`: its own contract only states validity. `then`, skipping and running in sequence are stated by `ThenFalseSkips`, `ThenTrueRuns`, `StepOver` and `TwoSteps`.
- `Interpreter.Nested`: its own contract only states validity. `ImportInline` states that a nested run is the run of its tokens.
- `Interpreter.Control`: its own contract only states validity. What each of these tokens does is stated by the lemmas `PutcPrints`, `SetOverwrites`, `TimesZero`, `TimesRuns`, `ImportInline`, `CallUnknown`, `CallRunsBody`, `CallBindsArguments`, `MacroInlining` and `IdentWithoutMacroPanics`.
- `Interpreter.Repeat`: its own contract only states validity. `TimesZero`, `TimesRuns`, `RepeatOnce` and `RepeatSplit` state how repetitions compose and that each one runs the body.
- `Interpreter.CallFunction`: its own contract only states validity. `CallUnknown` and `CallRunsBody` state what it does.
- `Interpreter.Identifier`: its own contract only states validity. `MacroInlining` and `IdentWithoutMacroPanics` state what it does.
- `Interpreter.PutChar`: its own contract only states validity. `PutcPrints` states what it does.
- `Interpreter.SetBinding`: its own contract only states validity. `SetOverwrites` states what it does.
- `Interpreter.BindingPushed`: its own contract only states that the macros are kept. `MacroInlining` states which value is pushed.
- `Interpreter.Valued`: its own contract only states that the stack alone changes. `LiteralPushes` and `BinaryOperands` state the new stack.
- `Interpreter.Shuffled`: its own contract only states that the stack alone changes. `SwapShape`, `RotShape`, `DupShape` and `DropShape` state the new stack.
- `Interpreter.Recorded`: its own contract only states what is kept. `PutPrints`, `MacroDefines`, `FunctionDefines`, `MempopEmpty`, `MempopPops` and `MemusagePushes` state the rest.
- `Interpreter.LetBound`: its own contract only states what is kept. `LetAppends` states the rest.
- `Interpreter.Simple`: its own contract only states what is kept. `LiteralPushes`, `BinaryOperands`, the four shuffle Shape lemmas, `StrPushesBytes`, `LetAppends` and the lemmas listed for `Recorded` state the rest.
- `Interpreter.BindFrom`: its own contract only states the lengths. `BindFromShape` states the values.
- `Interpreter.PushedReversed`: its own contract only states the length. `PushedReversedShape` states the contents.
- `Lexer.LexFrom`, `Lexer.LexWords`, `Lexer.LexText`: their own contracts only bound the number of tokens. `LexFromStep` states the token sequence, and `LexJoinedText` relates a rebuilt text to its words.
- `Types.Let.SetValue`: `set_value` changes the binding in place; the model returns the updated binding and `Interpreter.SetBinding` stores it back. No other reference to the binding exists, so no aliasing is lost.
- `Lexer.Step`: its own contract only bounds the consumed words. What each word yields is stated by `ReservedWordAlone`, `OrdinaryWord`, `NextWordPayload`, `ThenTakesOneWord`, `ImportPayload`, `LoopAndArrayBodies`, `MacroBody` and `FunctionDefinition`.
- `Lexer.StepNextWord`: its own contract only bounds the consumed words. `NextWordPayload`, `ThenTakesOneWord` and `ImportPayload` state the tokens.
- `Lexer.StepMacro`: its own contract only bounds the consumed words. `MacroBody` states the token.
- `Lexer.StepBlock`: its own contract only bounds the consumed words. `LoopAndArrayBodies` states the token.
- `Lexer.StepFn`: its own contract only bounds the consumed words. `FunctionDefinition` states the token.
- `Lexer.Lex` lexes an import only while `depth` is positive, and `Lexer.Host` gives the texts it reads. The Rust program has no such bound.
