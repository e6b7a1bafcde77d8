# anywhereQL virtual machine, modelled in Dafny

anywhereQL compiles a SQL `SELECT` expression list into a flat list of
stack-machine instructions (`VMCode`) and hands it to `vm.Run`. `Run` keeps a
value stack and a list of result columns. It executes the instructions once,
in order, with no jumps:

- PUSH pushes its first operand.
- ADD, SUB, MUL, DIV and MOD pop their two operands and push the outcome;
  MOD rejects a zero divisor before popping the dividend.
- CALL pops an argument count and that many arguments, calls an external
  function by name and pushes its result.
- STORE pops a value and appends its result when it is an INTEGER, FLOAT or
  DECIMAL; any other value is dropped without an error.

The first failure aborts the run: `Run` then returns that error and no
results.

The project has these parts:

- `numerics.dfy` models Go's `int64` and `float64`. `int64` arithmetic wraps
  around in two's complement. `/` and `%` truncate toward zero, and
  `MinInt64 / -1` gives `MinInt64`. A `float64` is its IEEE 754 bit pattern.
  Its arithmetic and the `float64(i)` conversion come from a `FloatOps`
  record, so they are uninterpreted. Only "equals zero" (both signed zeros)
  is defined.
- `values.dfy` models `value.Value` and `result.Value` as records whose fields
  are all present whatever the tag says. The interpreter reads `Int` and
  `String` without checking the tag, and the model keeps that.
- `opcodes.dfy` models the `OpeType` enumeration, its `iota` numbering and
  `OpeType.String`. An instruction's operator has the subset type `Operator`
  of well-formed operators, so the numbers 1 to 9 always denote the operators
  `iota` gives them. Only other numbers are undefined operators.
- `errors.dfy` lists the kinds of failure.
- `stack.dfy` models the value stack: a class over a sequence, whose pop fails
  on an empty stack.
- `vm.dfy` holds the interpreter:
  - `Step` is the effect of one instruction on the stack and the results.
  - `Exec` runs the instructions from a position onward, stopping at the
    first failure.
  - `RunSpec` is what `Run` returns.
  - The method `Run` is the interpreter loop, built from one method per
    opcode group. Its postcondition is that it computes `RunSpec`.
- `properties.dfy` states the properties of the opcodes and of whole programs
  over `Step`, `Exec` and `RunSpec`, and through `Run`'s postcondition they
  hold for the loop too. It covers:
  - stack-height accounting;
  - the type-dispatch table;
  - the divisor checks;
  - CALL's argument order;
  - STORE's filtering;
  - results that only ever grow;
  - "an error means no output".
- `examples_vm.dfy` proves what `RunSpec` returns for small example programs.

External dependencies become parameters:

- The function table, which `function.LookupFunction` provides in the
  source, is a `map` from names to functions.
- The float arithmetic is the `FloatOps` record.

Five behaviours of `Run` (`runtime/vm/vm.go`) that are easy to misread:

- POP has no case in `Run`'s switch, so it does nothing. It does not
  underflow on an empty stack (`VMProperties.InertOperators`,
  `VMExamples.PopProgram`).
- `PUSH 5; PUSH 3; PUSH 2; STORE; STORE; STORE` returns the three results 2,
  3, 5. It does not return one result and then underflow
  (`VMExamples.StoreStackProgram`).
- STORE of a STRING, an NA or a zero value appends nothing and raises no
  error (`VMProperties.StoreBehaviour`, `VMExamples.StoreStringProgram`).
- A FLOAT stored by STORE keeps only its `Float` field, so the PartI, PartF
  and FDigit that CALL copies from a Float result are lost (`VM.ToResult`).
- A CALL whose function returns a Decimal result pushes Go's zero
  `value.Value`. The model gives that value a tag of its own, `Unset`.
  See "## Left out" for what this assumes.

## Model

| member | source | states |
|---|---|---|
| Numerics.Wrap | runtime/vm/vm.go:104-107 | the 64-bit result agrees with the exact one modulo 2^64 and equals it when it fits: Go's wrapping `int64` `+`, `-` and `*` |
| Numerics.TDiv | runtime/vm/vm.go:218-221 | the quotient has the magnitude of the magnitudes' quotient and the sign of the operands' product: division truncated toward zero |
| Numerics.TMod | runtime/vm/vm.go:267-270 | `a == TDiv(a, b) * b + r`, with `r` smaller than `b` in magnitude and taking the sign of the dividend |
| Numerics.Add64 | runtime/vm/vm.go:106 | Go's `int64` `+`: agrees with the exact sum modulo 2^64 and equals it when it fits |
| Numerics.Sub64 | runtime/vm/vm.go:143 | Go's `int64` `-`: agrees with the exact difference modulo 2^64 and equals it when it fits |
| Numerics.Mul64 | runtime/vm/vm.go:180 | Go's `int64` `*`: agrees with the exact product modulo 2^64 and equals it when it fits |
| Numerics.Div64 | runtime/vm/vm.go:218-221 | Go's `int64` division: the truncated quotient, except that `MinInt64 / -1` wraps to `MinInt64` |
| Numerics.Mod64 | runtime/vm/vm.go:267-270 | Go's `int64` remainder is the truncated remainder and never overflows |
| Numerics.IsZeroExactlyZeros | runtime/vm/vm.go:224-226 | a `float64` compares equal to 0 exactly when it is +0.0 or -0.0 |
| Opcodes.OpeType.String | runtime/vm/vm.go:26-49 | the name of each well-formed operator; the fallback text "Unknwon Operation" is returned exactly for numbers outside 1 to 9 |
| Opcodes.StringInjective | runtime/vm/vm.go:26-49 | distinct operators have distinct names |
| Opcodes.Code | runtime/vm/vm.go:11-24 | the `iota` numbering: PUSH through CALL are 1 to 9, and every other number is an undefined operator |
| Opcodes.OfCode | runtime/vm/vm.go:11-24 | every number denotes a well-formed operator |
| Opcodes.CodeOfCode | runtime/vm/vm.go:11-24 | numbering the operator a number denotes gives back that number |
| Opcodes.OfCodeCode | runtime/vm/vm.go:11-24 | the operator a well-formed operator's number denotes is that operator |
| Stacks.TryPop | runtime/vm/vm.go:95-98 | a pop succeeds exactly on a non-empty stack, returns the top and leaves the rest; on an empty stack it is a stack underflow |
| Stacks.PopMany | runtime/vm/vm.go:282-288 | definition, no ensures: `k` pops one after the other, stopping at the first underflow; its properties are stated by `Stacks.PopManyShape`, and `VM.PopArgs` proves the loop computes it |
| Stacks.PopManyShape | runtime/vm/vm.go:282-288 | `k` successive pops succeed exactly when `k` values are there; they leave the bottom `|st| - k` values and deliver the top `k` last-pushed first; a failure is a stack underflow |
| Stacks.Stack.constructor | runtime/vm/vm.go:87 | a new stack is empty |
| Stacks.Stack.Push | runtime/vm/vm.go:93 | the value is appended at the top |
| Stacks.Stack.Pop | runtime/vm/vm.go:95-98 | removes and returns the top value, or reports an underflow and leaves an empty stack unchanged |
| VM.FromResult | runtime/vm/vm.go:298-313 | an Integral result becomes an INTEGER; a Float result becomes a FLOAT keeping Float, PartI, PartF and FDigit, with `Int` 0 and `String` empty (MOD's zero test and CALL's count read that `Int`); any other result becomes Go's zero value |
| VM.ToResult | runtime/vm/vm.go:320-327 | a result exists exactly for INTEGER, FLOAT and DECIMAL values; an INTEGER keeps `Int`, a DECIMAL keeps PartI, PartF and FDigit, and a FLOAT keeps only `Float`, so the decimal fields CALL copies onto a FLOAT are lost at STORE |
| VM.Arith | runtime/vm/vm.go:103-251 | definition, no ensures: the type dispatch of ADD, SUB, MUL and DIV, with DIV's zero-divisor checks; its properties are stated by `VMProperties.ArithDispatch`, `VMProperties.IntegerArith` and `VMProperties.FloatArith` |
| VM.Stored | runtime/vm/vm.go:320-327 | definition, no ensures: the results after a STORE of one value; its properties are stated by `VM.ToResult` and `VMProperties.StoreBehaviour` |
| VM.StepArith | runtime/vm/vm.go:94-252 | definition, no ensures: pop `ope2`, pop `ope1`, push `Arith` of them; its properties are stated by `VMProperties.ArithOnTopTwo`, `VMProperties.ArithNeedsTwo` and `VMProperties.ArithAccounting` |
| VM.StepMod | runtime/vm/vm.go:254-274 | definition, no ensures: MOD with the divisor's `Int` test before the second pop; its properties are stated by `VMProperties.ModBehaviour` and `VMProperties.ModSucceeds` |
| VM.Invoke | runtime/vm/vm.go:290-314 | definition, no ensures: look the function up, call it and push its converted result; its properties are stated by `VMProperties.InvokeOutcome` |
| VM.StepCall | runtime/vm/vm.go:276-314 | definition, no ensures: pop the count, pop the arguments, invoke; its properties are stated by `VMProperties.CallBehaviour` and `VMProperties.CallAccounting` |
| VM.StepStore | runtime/vm/vm.go:315-327 | definition, no ensures: pop one value and store it; its properties are stated by `VMProperties.StoreBehaviour` and `VMProperties.StoreAccounting` |
| VM.Step | runtime/vm/vm.go:91-328 | definition, no ensures: the switch on the operator; its properties are stated by `VMProperties.PushOnTop`, `VMProperties.InertOperators`, `VMProperties.EmptyStackUnderflows` and `VMProperties.StepAccounting` |
| VM.Exec | runtime/vm/vm.go:90-329 | definition, no ensures: the instructions from a position on, in order, stopping at the first failure; its properties are stated by `VMProperties.ExecAppend`, `VMProperties.ErrorAborts` and `VMProperties.ResultsAppendOnly`, and `VM.Run` is proved to compute it |
| VM.RunSpec | runtime/vm/vm.go:86-331 | a run that fails returns no results |
| VM.Run | runtime/vm/vm.go:86-331 | the interpreter loop returns exactly `RunSpec`: the results of running every instruction in order, or the first error and no results |
| VM.ExecArith | runtime/vm/vm.go:94-252 | one ADD, SUB, MUL or DIV leaves the stack, and reports the error, that `StepArith` gives |
| VM.Compute | runtime/vm/vm.go:103-251 | the type dispatch of the four arithmetic operators yields what `Arith` gives: the value or the error |
| VM.ExecMod | runtime/vm/vm.go:254-274 | one MOD leaves the stack, and reports the error, that `StepMod` gives |
| VM.ExecCall | runtime/vm/vm.go:275-314 | one CALL leaves the stack, and reports the error, that `StepCall` gives |
| VM.PopArgs | runtime/vm/vm.go:282-288 | the counting loop (`VM.ArgCount` is `max(n, 0)`) pops exactly `max(n, 0)` values, in pop order, or underflows as `PopMany` does |
| VM.ExecStore | runtime/vm/vm.go:315-327 | one STORE leaves the stack and the results that `StepStore` gives |
| VMProperties.PushOnTop | runtime/vm/vm.go:92-93 | PUSH puts `Operand1` unchanged on top and leaves the results alone |
| VMProperties.InertOperators | runtime/vm/vm.go:91-328 | POP and numbers that name no operator have no case in the switch and change nothing, even on an empty stack |
| VMProperties.EmptyStackUnderflows | runtime/vm/vm.go:95-98 | every operator that pops (arithmetic, MOD, CALL, STORE) fails with an underflow on an empty stack |
| VMProperties.ArithOnTopTwo | runtime/vm/vm.go:95-108 | ADD, SUB, MUL and DIV replace the top two values by `ope1 op ope2`, the lower value on the left, or fail with that operation's error |
| VMProperties.ArithNeedsTwo | runtime/vm/vm.go:99-102 | an arithmetic operator with only one value on the stack underflows |
| VMProperties.IntegerArith | runtime/vm/vm.go:103-222 | in the INTEGER branches of ADD, SUB, MUL and DIV (lines 103-108, 140-145, 177-182 and 214-222), two integers give the wrapped sum, difference or product, and the truncated quotient with `MinInt64 / -1` wrapping |
| VMProperties.ArithDispatch | runtime/vm/vm.go:103-251 | arithmetic succeeds exactly on the four integer/float pairings, for DIV only with a non-zero divisor; any other pairing is an unsupported-types error; the result is an INTEGER only for two integers |
| VMProperties.FloatArith | runtime/vm/vm.go:109-126 | with a float on either side, the integer side is widened and the float operator applied |
| VMProperties.ModBehaviour | runtime/vm/vm.go:254-274 | MOD tests the divisor's `Int` field first, before popping the dividend and whatever the divisor's tag; then only two integers succeed, with the truncated remainder |
| VMProperties.ModSucceeds | runtime/vm/vm.go:254-274 | MOD succeeds exactly on two integers whose divisor is not zero |
| VMProperties.CallArgs | runtime/vm/vm.go:282-288 | the collected arguments are the top `k` stack values, last-pushed first |
| VMProperties.CallBehaviour | runtime/vm/vm.go:276-297 | CALL pops the count, then exactly `max(n, 0)` values; it underflows before the lookup when there are fewer, and otherwise calls the function on the values in pop order |
| VMProperties.InvokeOutcome | runtime/vm/vm.go:290-314 | an unknown name is an error, a function's failure is propagated, and otherwise exactly one converted value is pushed |
| VMProperties.StoreBehaviour | runtime/vm/vm.go:315-327 | STORE pops one value and appends one result exactly when the value is INTEGER, FLOAT or DECIMAL; others are dropped without an error |
| VMProperties.StepAccounting | runtime/vm/vm.go:90-328 | after a successful instruction the stack height is the old height plus what the operator pushes minus what it pops; only STORE changes the results, by appending the stored form of the old top |
| VMProperties.ArithAccounting | runtime/vm/vm.go:94-129 | a successful arithmetic instruction lowers the stack by one and leaves the results alone |
| VMProperties.ModAccounting | runtime/vm/vm.go:254-274 | a successful MOD lowers the stack by one and leaves the results alone |
| VMProperties.StoreAccounting | runtime/vm/vm.go:315-327 | a successful STORE lowers the stack by one and appends the popped value's result, if any |
| VMProperties.CallAccounting | runtime/vm/vm.go:276-314 | a successful CALL replaces the count and its `max(n, 0)` arguments by one value and leaves the results alone |
| VMProperties.ExecPrefix | runtime/vm/vm.go:90 | running `a + b` up to the end of `a` is running `a` |
| VMProperties.ExecSuffix | runtime/vm/vm.go:90 | running `a + b` past the end of `a` is running `b` |
| VMProperties.ExecAppend | runtime/vm/vm.go:90-329 | running `a + b` is running `a` and then, if it succeeded, `b` from the state it left |
| VMProperties.ErrorAborts | runtime/vm/vm.go:90-329 | once an instruction fails, nothing after it matters: the run returns that error and no results |
| VMProperties.UnderflowAborts | runtime/vm/vm.go:90-329 | a popping instruction reached with an empty stack aborts the run with an underflow, discarding results already stored |
| VMProperties.ResultsAppendOnly | runtime/vm/vm.go:322-327 | results only grow, in execution order: a successful run extends the results it started with, by at most one per STORE |
| VMProperties.RunResultBound | runtime/vm/vm.go:330 | a run returns at most one result per STORE instruction |
| VMExamples.BinaryProgram | runtime/vm/vm.go:92-108 | `PUSH x; PUSH y; op; STORE` emits the stored form of `x op y` |
| VMExamples.BinaryFailure | runtime/vm/vm.go:127-128 | `PUSH x; PUSH y; op` followed by anything fails with no output when `x op y` fails |
| VMExamples.IntegerPrograms | runtime/vm/vm.go:103-108 | integer ADD, SUB and MUL programs emit the wrapped results |
| VMProperties.NoStoreNoResults | runtime/vm/vm.go:88-330 | every program without a STORE returns no results, whether it succeeds or fails |
| VMExamples.DivProgram | runtime/vm/vm.go:214-222 | integer DIV emits the truncated quotient, or fails with no output on a zero divisor |
| VMExamples.MixedAddProgram | runtime/vm/vm.go:115-126 | a float and an integer add as floats, in either order, with the integer widened |
| VMExamples.StringAddProgram | runtime/vm/vm.go:127-128 | `PUSH s; PUSH t; ADD` on any two strings, followed by any instructions, fails with an unsupported-types error and no results |
| VMExamples.ModByZeroProgram | runtime/vm/vm.go:259-261 | `7 % 0` fails with a division error |
| VMExamples.PopProgram | runtime/vm/vm.go:91 | a lone POP on an empty stack succeeds with no results |
| VMExamples.StoreOrderProgram | runtime/vm/vm.go:315-322 | `PUSH 1; STORE; PUSH 2; STORE` emits 1 and then 2 |
| VMExamples.StoreStackProgram | runtime/vm/vm.go:315-322 | `PUSH 5; PUSH 3; PUSH 2; STORE; STORE; STORE` returns the results 2, 3, 5 and no error |
| VMExamples.StoreThree | runtime/vm/vm.go:315-322 | for any values a, b, c, `PUSH a; PUSH b; PUSH c` and three STOREs leave an empty stack and store c, then b, then a: top of the stack first |
| VMExamples.ExtraStoreProgram | runtime/vm/vm.go:316-318 | a fourth STORE underflows and the run returns no results |
| VMExamples.StoreStringProgram | runtime/vm/vm.go:320-327 | `PUSH s; STORE` for any string `s` returns no results and no error: the string is dropped |
| VMExamples.CallOrderProgram | runtime/vm/vm.go:276-294 | `PUSH a; PUSH b; PUSH 2; CALL f` calls `f` on `[b, a]` |

## Left out

- `VMCode.String` (runtime/vm/vm.go:57-84) only formats an instruction for display with `fmt.Sprintf` and does not affect execution.
- Float arithmetic is not modelled. `+`, `-`, `*`, `/` and the `float64(i)` conversion on `float64` are uninterpreted functions supplied in `FloatOps`. Only "equals zero" is defined, because the DIV checks depend on it.
- `function.LookupFunction` and the built-in functions belong to another package, which is not part of this model. The function table is a parameter, and a function's error is a message string. The table's functions are deterministic, so two CALLs of one name on the same arguments get the same outcome within a run; an impure Go function, such as one reading a clock, need not. No property proved here depends on this.
- The stack's own source file (`newStack`, `push`, `pop`) is not part of this model. The stack is modelled as pushing and popping at the tail, with a failing pop on an empty stack.
- Error message texts are not modelled. Errors are an `Error` datatype with one constructor per kind.
- The field types of the `value` and `result` packages are not part of this model. `PartI`, `PartF` and `FDigit` are unbounded integers, which the interpreter only copies.
- The `value` package, which defines the numbering of `value.Value`'s `Type`, is not part of this model. The model assumes that the tag of Go's zero `value.Value{}` is none of INTEGER, FLOAT, DECIMAL, STRING and NA, and calls it `Unset`. Two behaviours depend on this. First, a CALL whose function returns a Decimal result, followed by a STORE, emits no result in the model (`VM.FromResult`, `VM.ToResult`). If the zero tag were INTEGER, FLOAT or DECIMAL, Go would emit one. Second, ADD, SUB, MUL or DIV on such a value, or MOD with it as the dividend, fails with `UnsupportedOperandTypes` naming `Unset`. In Go it would name the zero tag, or, if that tag were INTEGER or FLOAT, compute a result or fail with a division error.
- VM.ExecArith: the source pushes in each branch of the dispatch. The model computes the value in `Compute` and pushes it once, which makes no observable difference.
- VMProperties.RunResultBound: bounds the number of results by the number of STORE instructions. It does not give the exact number of executed STOREs whose value was INTEGER, FLOAT or DECIMAL. That count follows step by step from `StepAccounting` and `StoreBehaviour`.
