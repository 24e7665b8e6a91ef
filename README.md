# Stack-based machine interpreter

A Dafny model of the interpreter for a small stack-based machine (SBM).
The interpreter loads a program text line by line. Each line becomes one
instruction, or nothing for a blank line, or a parse error. The program then
runs on a machine with four parts:

- a 1-based program counter;
- a value stack;
- a bank of ten memory slots, `m0` to `m9`;
- the immutable instruction list.

The instruction set is `exit`, `push <literal>`, `push m<d>`, `pop m<d>`,
`add`, `sub`, `mul`, `div`, `label <name>`, `jmpz <name>`, `jmp <name>` and
`dec`.

The project has seven modules, one per file:

- `Wrappers` (`wrappers.dfy`): `Option` and `Result`.
- `Instructions` (`instructions.dfy`): the instruction datatype, one constructor per opcode. Addresses are `nat` below 10.
- `Numerals` (`numerals.dfy`): the two number readers the parser calls.
  - `ParseInt` stands for `Integer.parseInt`: an optional sign and decimal digits, within the 32-bit range.
  - `ParseNumber` stands for `Double.parseDouble`, restricted to signed decimal notation.
  - Decimal printers serve as their inverses: one for integers and one for finite decimals such as `3.4567`, written with a chosen number of fraction digits.
- `Parser` (`parser.dfy`): `parseInstruction` as a pure function over the tokens of a line, plus the line loop of `readFromFile`.
  - `LoadWith` is that loop for any line parser; the facts about loading are proved at that generality.
  - `LoadFrom` is the loop with `ParseInstruction`.
- `Semantics` (`semantics.dfy`): the meaning of each instruction (`Step`), label lookup (`FindLabel`) and fuel-bounded runs, all as pure functions over a `Machine` record.
  - A run is `RunFrom`, which executes one instruction, and `Resume`, which decides how the run goes on after it.
  - `RunProgram` starts a run from the initial machine.
- `Engine` (`engine.dfy`): the interpreter object itself.
  - The class `Runtime` has the fields `pgm`, `pc`, `stack` and `memory`.
  - Its methods (`ReadLines`, `Initialize`, `JumpToLabel`, `Arithmetic`, `ProcessInstruction`, `Run`) update the fields in place with the same loops as the original.
  - Each method is proved against the pure functions of `Parser` and `Semantics`.
- `Scenarios` (`scenarios.dfy`): whole runs proved for every sufficient fuel.
  - The three programs whose instruction lists the interpreter's tests print: add-and-store, the 5! loop and store-five.
  - Two small programs of our own: `push 1.0; add` and a push-then-pop round trip for any literal and slot. Neither comes from the tests. The tests expect a stack underflow from `eg3.pgm`, whose contents the tests do not show; `push 1.0; add` only stands in for it.
  - A rerun of store-five under the as-written initialisation.

Values are `real`. The stack is a `seq<real>` with its top as the last element.

The model follows the code in two places where it treats like cases differently:

- **`pop` operands.** `pop` drops the first character of its operand without checking that it is `m`, so `pop x3` reads as `pop m3`. Its `Integer.parseInt` (line 197) is not wrapped in a `try`, so a remainder it rejects escapes as a number-format failure, `BadNumber`. `push` catches the same failure (lines 189-190) and reports a syntax error instead.
- **Partial programs.** A load that fails keeps the instructions read before the failing line: `readFromFile` adds to `pgm` as it goes (line 245) and does not clear it when a line throws.

Two places depart from the code, and "## Left out" lists both:

- **Division by zero.** The code yields an IEEE infinity or NaN; with exact reals the model yields 0.0.
- **Re-initialisation.** `initialize` appends ten slots instead of resetting memory. `InitializeAsWritten` models that, and Findings reports it. `Run` uses the corrected `Initialize`, so a second run on the same runtime differs from the code.

## Model

| member | source | states |
|---|---|---|
| Numerals.ParseInt | CS_284_Assignment_ExtraCredit/src/runtime/Runtime.java:181 | `Integer.parseInt` on decimal text: an optional sign and at least one digit, giving a value in the 32-bit range; the same reader serves `pop` at line 197. Its properties are stated by `ParseIntShowNat`, `ParseIntShowInt` and `ParseIntRejects` |
| Numerals.ParseNumber | CS_284_Assignment_ExtraCredit/src/runtime/Runtime.java:187 | `Double.parseDouble` on signed decimal notation; its inverse property is stated by `ParseNumberShowInt` and `ParseNumberShowDecimal` |
| Numerals.ParseIntShowNat | CS_284_Assignment_ExtraCredit/src/runtime/Runtime.java:181 | Reading back the decimal spelling of a natural n gives n exactly when n fits in a Java `int`, and fails otherwise |
| Numerals.ParseIntRejects | CS_284_Assignment_ExtraCredit/src/runtime/Runtime.java:197 | An address text holding any character that is neither a digit nor a sign is rejected |
| Numerals.ParseIntShowInt | CS_284_Assignment_ExtraCredit/src/runtime/Runtime.java:181 | Reading back the decimal spelling of any integer, negative ones included, gives it exactly when it fits in a Java `int`, and fails otherwise |
| Numerals.ParseNumberShowInt | CS_284_Assignment_ExtraCredit/src/runtime/Runtime.java:187 | The literal reader reads every printed integer back as that integer |
| Numerals.ParseNumberShowDecimal | CS_284_Assignment_ExtraCredit/src/runtime/Runtime.java:187 | The literal reader reads every finite decimal z / 10^places, printed with `places` fraction digits and an optional '-', back as that value |
| Numerals.FractionValueDigits | CS_284_Assignment_ExtraCredit/src/runtime/Runtime.java:187 | The digits after the point, read a tenth at a time, are worth their integer value divided by 10 to the number of digits |
| Parser.Tokens | CS_284_Assignment_ExtraCredit/src/runtime/Runtime.java:168 | `split("[ ]+")`: every token is a non-empty word without spaces; `TokensUnwords` states that it inverts joining by single spaces |
| Parser.ParseTokens | CS_284_Assignment_ExtraCredit/src/runtime/Runtime.java:171-232 | The switch on `p[0]`, one branch per mnemonic: the empty token gives nothing, an unknown one a syntax error, `pop`'s rejected number a `BadNumber` and a missing jump or label operand `MissingOperand`; its cases are stated by the lemmas below |
| Parser.ParseInstruction | CS_284_Assignment_ExtraCredit/src/runtime/Runtime.java:167-233 | `parseInstruction`: tokenize the line, then read the tokens; `ParseRender` states that it inverts printing an instruction |
| Parser.TokensUnwords | CS_284_Assignment_ExtraCredit/src/runtime/Runtime.java:168 | Splitting on runs of spaces inverts joining words with single spaces |
| Parser.ParseRender | CS_284_Assignment_ExtraCredit/src/runtime/Runtime.java:167-233 | Every instruction whose names are single words and whose literal is a finite decimal (such as `3.4567`, four places) parses back from its canonical line to itself, on any line number |
| Parser.BlankLine | CS_284_Assignment_ExtraCredit/src/runtime/Runtime.java:227-228 | The empty line yields no instruction; with this tokenizer, so does a line of spaces |
| Parser.ExtraTokensIgnored | CS_284_Assignment_ExtraCredit/src/runtime/Runtime.java:171-226 | Only the first two tokens matter: tokens after the operand never change the result of any mnemonic |
| Parser.UnknownMnemonic | CS_284_Assignment_ExtraCredit/src/runtime/Runtime.java:229-230 | A first token that is no mnemonic is a syntax error carrying the line number |
| Parser.PushOperandErrors | CS_284_Assignment_ExtraCredit/src/runtime/Runtime.java:175-192 | Each is a syntax error naming the line: `push` without an operand, a bare `push m`, `push m<z>` for any integer z outside 0..9 (negative or too large), `push m` followed by any space-free text that `Integer.parseInt` rejects (such as `m-`, `m+`, `m1-2` or a number beyond the `int` range), and a non-`m` operand that is not a number |
| Parser.PopOperand | CS_284_Assignment_ExtraCredit/src/runtime/Runtime.java:193-202 | `pop` without an operand is a syntax error. With any first character followed by an integer z, `pop` gives `Pop(z)` when 0 ≤ z ≤ 9, a syntax error for any other `int` (negative ones included) and a number-format failure beyond the `int` range; the prefix is never checked |
| Parser.PopNumberFormat | CS_284_Assignment_ExtraCredit/src/runtime/Runtime.java:197 | After the first character, a `pop` operand that `Integer.parseInt` rejects (empty, non-numeric or out of range) escapes as the number-format failure of that text, not as a syntax error |
| Parser.LoadWith | CS_284_Assignment_ExtraCredit/src/runtime/Runtime.java:240-248 | The loader's loop for any line parser: instructions appended in order, blank lines skipped, the first failing line stopping the load; stated by `LoadLength`, `LoadAppend` and `LoadErrorLine` |
| Parser.LoadLength | CS_284_Assignment_ExtraCredit/src/runtime/Runtime.java:240-248 | Loading, with any line parser, never appends more instructions than there are lines |
| Parser.LoadAppend | CS_284_Assignment_ExtraCredit/src/runtime/Runtime.java:240-248 | With any line parser, line numbers count skipped lines too: after a clean first block the second is numbered from line + \|a\| and its instructions follow in order; after a failing block nothing more is read |
| Parser.LoadErrorLine | CS_284_Assignment_ExtraCredit/src/runtime/Runtime.java:242-243 | With any line parser, a failed load reports the error of the first failing line, under that line's own number, and every earlier line parses |
| Semantics.FindLabel | CS_284_Assignment_ExtraCredit/src/runtime/Runtime.java:45-52 | The first `label` with the given name, as a 1-based position in the program, or nothing; `FindLabelSpec` states it exactly |
| Semantics.FindLabelSpec | CS_284_Assignment_ExtraCredit/src/runtime/Runtime.java:45-52 | Label lookup returns the 1-based position of a `label` with that name with no such label before it, and nothing exactly when no such label exists |
| Semantics.FindLabelFirst | CS_284_Assignment_ExtraCredit/src/runtime/Runtime.java:46-49 | A label at index k with no same-named label before it resolves to k + 1 |
| Semantics.Step | CS_284_Assignment_ExtraCredit/src/runtime/Runtime.java:61-142 | One instruction keeps the memory at ten slots and keeps pc in 1..\|pgm\|+1. A failure leaves pc and memory unchanged |
| Semantics.RunFrom | CS_284_Assignment_ExtraCredit/src/runtime/Runtime.java:156-159 | Runs keep the machine invariant (ten slots, pc in 1..\|pgm\|+1). Falling off the end means pc = \|pgm\| + 1; running out of fuel leaves pc on an instruction |
| Semantics.InitialState | CS_284_Assignment_ExtraCredit/src/runtime/Runtime.java:26-37 | The initial machine has pc 1, an empty stack and exactly ten slots holding 0.0 |
| Semantics.MemoryAccess | CS_284_Assignment_ExtraCredit/src/runtime/Runtime.java:70-80 | `pop a` on a non-empty stack moves the top into slot a and leaves the other nine slots alone. `push a` pushes slot a and changes no slot |
| Semantics.ArithmeticEffect | CS_284_Assignment_ExtraCredit/src/runtime/Runtime.java:81-116 | With at least two values, the top two, A (top) and B, are replaced by A op B: depth − 1, the rest of the stack and memory untouched, pc + 1 |
| Semantics.DecEffect | CS_284_Assignment_ExtraCredit/src/runtime/Runtime.java:130-134 | `dec` replaces the top v by v − 1 at the same depth |
| Semantics.Underflow | CS_284_Assignment_ExtraCredit/src/runtime/Runtime.java:76-134 | `pop`, `dec` and `jmpz` on an empty stack fail with the state unchanged. An arithmetic op with fewer than two values fails with the stack emptied, its single value already popped |
| Semantics.JumpEffect | CS_284_Assignment_ExtraCredit/src/runtime/Runtime.java:117-141 | `jmp t` resumes just after the first `label t` or fails with label-not-found. `jmpz t` peeks and does the same only when the top is 0. Neither changes stack or memory |
| Semantics.ProgramCounterAdvances | CS_284_Assignment_ExtraCredit/src/runtime/Runtime.java:63-141 | Every non-jump instruction that completes, `exit` and `label` included, adds exactly one to pc. Only `exit` stops the run |
| Semantics.RunStep | CS_284_Assignment_ExtraCredit/src/runtime/Runtime.java:156-158 | One loop iteration of `run`: a step that goes on continues the run, `exit` halts it, a failure aborts it |
| Semantics.StepContinues | CS_284_Assignment_ExtraCredit/src/runtime/Runtime.java:156-158 | A step that goes on hands the rest of the run, with one unit of fuel less, to the machine it produced |
| Semantics.RunMoreFuel | CS_284_Assignment_ExtraCredit/src/runtime/Runtime.java:156-159 | More fuel never changes a run that already finished |
| Semantics.StraightLineHalts | CS_284_Assignment_ExtraCredit/src/runtime/Runtime.java:156-159 | Code free of jumps that ends in `exit` at position n either fails on the way or halts with pc = n + 1 |
| Semantics.MissingLabelAborts | CS_284_Assignment_ExtraCredit/src/runtime/Runtime.java:51 | A jump taken to an undeclared label aborts the run at once with label-not-found |
| Engine.AppendedMemory | CS_284_Assignment_ExtraCredit/src/runtime/Runtime.java:32-34 | Appending ten zero slots keeps the old slots as the prefix |
| Engine.RerunSeesOldMemory | CS_284_Assignment_ExtraCredit/src/runtime/Runtime.java:32-34 | After the appending initialisation, slots 0 to 9 still hold the previous memory. They match a fresh machine only if the previous memory was all zeros |
| Engine.FirstRunStartsFresh | CS_284_Assignment_ExtraCredit/src/runtime/Runtime.java:26-37 | On a fresh runtime, with no memory slots yet, the appending initialisation reaches exactly the initial machine |
| Engine.Runtime.constructor | CS_284_Assignment_ExtraCredit/src/runtime/Runtime.java:18-21 | A new runtime has an empty stack and no memory slots |
| Engine.LoadAdvance | CS_284_Assignment_ExtraCredit/src/runtime/Runtime.java:240-248 | One loop iteration: a failing line ends loading with the program read so far; otherwise the line adds nothing or one instruction before the remaining lines, numbered from the next line |
| Engine.Runtime.ReadLines | CS_284_Assignment_ExtraCredit/src/runtime/Runtime.java:240-248 | The loop leaves exactly the program and error of `LoadFrom` from line 1 and changes nothing else |
| Engine.Runtime.InitializeAsWritten | CS_284_Assignment_ExtraCredit/src/runtime/Runtime.java:26-37 | As written: empties the stack, appends ten zeros to the existing memory and sets pc to 1 |
| Engine.Runtime.Initialize | CS_284_Assignment_ExtraCredit/src/runtime/Runtime.java:26-37 | Corrected: the state becomes exactly the initial machine (pc 1, empty stack, ten 0.0 slots) whatever it was before |
| Engine.Runtime.JumpToLabel | CS_284_Assignment_ExtraCredit/src/runtime/Runtime.java:45-52 | The scan returns the first label's 1-based position, or label-not-found, exactly as `FindLabel` |
| Engine.Runtime.Arithmetic | CS_284_Assignment_ExtraCredit/src/runtime/Runtime.java:81-116 | The two-iteration pop loop and push leave the stack the pure step describes. It reports failure exactly when the step fails |
| Engine.Runtime.ProcessInstruction | CS_284_Assignment_ExtraCredit/src/runtime/Runtime.java:61-142 | The fields become the state after `Step`; the result is go-on, stop after `exit`, or the error |
| Engine.Runtime.Run | CS_284_Assignment_ExtraCredit/src/runtime/Runtime.java:148-159 | After the corrected initialisation, the run loop ends with the outcome and state of `RunProgram` for the loaded program |
| Scenarios.AddAndStoreRun | CS_284_Assignment_ExtraCredit/src/runtime/RuntimeTest.java:13-22 | `push 5.0; push 3.4567; add; pop m0; exit` halts with pc 6, an empty stack and 8.4567 in m0, every other slot 0.0 |
| Scenarios.StoreFiveRun | CS_284_Assignment_ExtraCredit/src/runtime/RuntimeTest.java:46-55 | `push 5.0; pop m0; exit` halts with pc 4, an empty stack and 5.0 in m0 |
| Scenarios.FactorialRun | CS_284_Assignment_ExtraCredit/src/runtime/RuntimeTest.java:26-35 | The 5! program halts with pc 16, stack [120.0] and all memory 0.0 |
| Scenarios.FactorialLoop | CS_284_Assignment_ExtraCredit/src/runtime/RuntimeTest.java:30-33 | From the loop head with counter k, the loop halts at pc 16 with the accumulated product of the counters alone on the stack |
| Scenarios.LoopResultFactorial | CS_284_Assignment_ExtraCredit/src/runtime/RuntimeTest.java:32 | The loop's accumulated product from counter k is acc · (k − 1)! |
| Scenarios.AddUnderflowRun | CS_284_Assignment_ExtraCredit/src/runtime/Runtime.java:83-86 | `add` with one value on the stack aborts with underflow at its own pc, the value already popped |
| Scenarios.PushPopRoundTrip | CS_284_Assignment_ExtraCredit/src/runtime/Runtime.java:66-80 | Pushing any literal and popping it into any slot leaves that slot holding the literal and the stack empty |
| Scenarios.StoreFiveRerunAsWritten | CS_284_Assignment_ExtraCredit/src/runtime/Runtime.java:32-34 | After one store-five run, the appending initialisation still shows 5.0 in m0, so a second run does not start from the initial machine |

## Left out

- File access in `readFromFile` is not modelled: `File`, `Scanner` and the `FileNotFoundException` handler. The loader takes the lines as a sequence. `Scanner.hasNext` would stop before trailing lines that hold only whitespace; the model reads every given line.
- `toString` and `main` are not modelled; they only render or print the state.
- The unused `holder` copy of the program in `run` is not modelled.
- The `default` branch of the opcode switch is not modelled. It cannot be reached once opcodes are a closed datatype.
- The instruction classes are not part of this model. Their numeric `code` and `mnemonic` fields are replaced by the datatype's constructors.
- IEEE double arithmetic is not modelled. Values are exact reals, so rounding, Infinity and NaN are absent.
- Engine.Runtime.Run: `run` calls the as-written `initialize`, but `Run` calls the corrected `Initialize`. A second run on the same runtime therefore starts from ten zero slots, where the code keeps m0 to m9 from the first run and grows memory by ten slots. A first run on a fresh runtime is the same under both (`FirstRunStartsFresh`). The as-written behaviour is modelled by `InitializeAsWritten` and `StoreFiveRerunAsWritten`.
- Semantics.Apply: division by zero yields 0.0 instead of an IEEE infinity or NaN.
- Numerals.ParseNumber: only signed decimal notation is read. Exponents, `NaN`, `Infinity`, hexadecimal floats, `d`/`f` suffixes and surrounding whitespace, all of which `Double.parseDouble` accepts, are rejected here.
- Numerals.ParseInt: only ASCII digits are accepted, whereas `Integer.parseInt` also takes other Unicode decimal digits.
- Parser.Tokens: lines are split into maximal runs of non-space characters. Java's regex split behaves differently in two cases: a line with leading spaces yields an empty first token, which silently skips the whole line, and a line of spaces only yields no tokens and an index failure.
- Parser.ParseTokens: a missing operand of `label`, `jmpz` or `jmp` becomes the error `MissingOperand`. The original's array index failure is not reproduced.
- `pgm` before any load is not modelled as null; the model starts from the empty program.
- Semantics.RunFrom and Engine.Runtime.Run are bounded by a fuel count, because a program may loop forever. Running out of fuel is the outcome `OutOfFuel`, which the original does not have.
- Exceptions are values: `EmptyStackException` is `StackUnderflow` and the label failure is `LabelNotFound`. The state a failure leaves behind is part of the outcome.

## Findings

| source | as written | input that shows it | evidently intended | confidence | as-written member | corrected member |
|---|---|---|---|---|---|---|
| CS_284_Assignment_ExtraCredit/src/runtime/Runtime.java:32-34 | `initialize` appends ten 0.0 slots to the memory list, whose comment says it resets them | Run `push 5.0; pop m0; exit` twice on one runtime: at the second start m0 still holds 5.0 and the list has 20 slots | every run starts with exactly ten 0.0 slots | not executed | Engine.Runtime.InitializeAsWritten, Scenarios.StoreFiveRerunAsWritten | Engine.Runtime.Initialize |
