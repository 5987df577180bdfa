# GraphingCalculator brain in Dafny

This project models the calculator brain of the GraphingCalculator iOS app (`CalculatorBrain` in
`GraphingCalculator/CalculatorBrain.swift`) and proves properties of that model. The brain is a token
machine and its state is:

- an accumulator;
- at most one pending binary operation, with its left operand and left trace;
- a priority watermark;
- a trace string `lastValue`;
- an append-only history of tokens;
- a store of variable values.

The app drives the brain as follows:

- Digits enter through `setOperand`, and the `M` key through `setOperand` with a variable name.
  The constant and operator keys go through `performOperation`.
- C calls `clear()` and `clearVariables()`.
- Backspace, once nothing is being typed, calls `undo()`.
- →M assigns an entry of `variableValues`.
- Graph reads `program`.

These calls are made in `GraphingCalculator/CalculatorViewController.swift`. The `program`
property serialises the history. Setting `program` clears the brain and replays the
history. `undo` and assignments to the variable store also work by replaying. The grapher samples
the curve by binding `"M"` to x, which replays the program, and then reading `result`.

Files and modules:

- `registry.dfy`
  - `Options`: an `Option` type.
  - `Registry`: the operation table, a map display with the source's priorities and concrete
    string trace formatters. The numbers stay abstract: a type parameter `N` and a `NumberSystem<N>`
    record stand for Double arithmetic, the math library, the literals 0, −1 and 2, π, e, and the
    `NumberFormatter`.
- `machine.dfy`, module `Machine`
  - The brain as values. `BrainState` holds all the fields.
  - There is one transition function per entry point. The `lastValue` observer is written out as
    `AssignLastValue`, and the `variableValues` observer as `SetVariableValues`, which replays.
- `brain.dfy`, module `Brain`
  - The class `CalculatorBrain`, whose methods update the fields step by step, observers included.
  - The `program` setter keeps its replay `for` loop.
  - Each method is proved to leave exactly the state its `Machine` function gives.
- `replay_laws.dfy`, module `ReplayLaws`
  - History, serialisation round trip and undo.
- `trace_laws.dfy`, module `TraceLaws`
  - Pending slot, watermark, parenthesisation, description, and worked key sequences.
- `grapher.dfy`, module `Grapher`
  - The y-for-x sampler from `GraphingCalculator/CalculatorViewController.swift:170-173` and what it
    depends on.

Three behaviours of the code that are easy to get wrong, all modelled as written:

- **The watermark is not reset when an operation resolves.** The watermark goes back to Int.max
  only when `lastValue` is assigned while nothing is pending. `executePendingBinaryOperation`
  assigns the trace *before* it clears `pending`, so after `3 + 4 =` the watermark is still 0, and
  a following `×` writes "(3+4)×". `TraceLaws.EqualsKeepsWatermark` proves this.
- **Chains evaluate strictly left to right.** `2 + 3 × 4 =` gives (2+3)×4, that is 20, with the
  trace "(2+3)×4". Priorities only decide the parentheses in the trace.
- **A fresh brain and a cleared brain differ.** A fresh brain's trace is "0", while a cleared
  brain's is " ", a single space.

## Model

| member | source | states |
|---|---|---|
| Registry.Operations | GraphingCalculator/CalculatorBrain.swift:33-54 | every binary operator of the table has a priority between 0 and 2 |
| Registry.AdditiveOperators | GraphingCalculator/CalculatorBrain.swift:50-51 | `+` and `−` are binary with rank 0, compute add and subtract, and trace "a+b" and "a-b" |
| Registry.MultiplicativeOperators | GraphingCalculator/CalculatorBrain.swift:48-49 | `×` and `÷` are binary with rank 1, compute multiply and divide, and trace "a×b" and "a÷b" |
| Registry.PowerAndEquals | GraphingCalculator/CalculatorBrain.swift:52-53 | `∧` is binary with rank 2, computes pow and traces "a^b"; `=` is the terminator |
| Machine.SetOperand | GraphingCalculator/CalculatorBrain.swift:122-126 | the operand becomes the accumulator; the trace is its formatted text, or "" when formatting fails; exactly the operand is appended to the history; pending and the store are kept; the watermark resets only when nothing is pending |
| Machine.SetOperandVariable | GraphingCalculator/CalculatorBrain.swift:127-131 | the accumulator is the variable's value, or 0 when it is unbound; the trace is the name; exactly the name is appended to the history; the watermark resets only when nothing is pending |
| Machine.ExecutePendingBinaryOperation | GraphingCalculator/CalculatorBrain.swift:158-164 | with nothing pending, nothing changes; otherwise the accumulator becomes f(first, accumulator) and the trace becomes g(left trace, trace); pending becomes empty while the watermark is kept |
| Machine.PerformOperation | GraphingCalculator/CalculatorBrain.swift:134-155 | exactly the symbol is appended to the history, known or not; an unknown symbol changes nothing else; a constant sets the accumulator to its value and the trace to its symbol; a unary operator applies its function to the accumulator and its formatter to the trace; both keep the pending slot and reset the watermark exactly when nothing is pending; a binary operator always leaves an operation pending, with its own function, trace formatter and rank, and with the resolved accumulator as left operand; `=` leaves nothing pending and keeps the resolved value and trace |
| Machine.Clear | GraphingCalculator/CalculatorBrain.swift:167-173 | the accumulator is 0, nothing is pending, the trace is " ", the watermark is Int.max, the history is empty, and the store is kept |
| Machine.ReplayToken | GraphingCalculator/CalculatorBrain.swift:106-116 | each replayed token appends itself, whether it is a number, a known operator, or an unknown string read as a variable |
| Machine.Replay | GraphingCalculator/CalculatorBrain.swift:106-116 | replaying a token list appends exactly that list to the history and keeps the store |
| Machine.SetProgram | GraphingCalculator/CalculatorBrain.swift:100-119 | reading `program` after setting it to a list gives back the same list; the store is kept |
| Machine.SetVariableValues | GraphingCalculator/CalculatorBrain.swift:91-95 | assigning the store leaves the history unchanged and installs the new store; what the replay computes is stated by `ReplayLaws.StoreAssignmentReruns` |
| Machine.ClearVariables | GraphingCalculator/CalculatorBrain.swift:176-178 | the store becomes empty, and the history is unchanged by the replay this causes; the replayed state is stated by `ReplayLaws.ClearVariablesReruns` |
| Machine.Fresh | GraphingCalculator/CalculatorBrain.swift:29-32 | a new brain holds accumulator 0, nothing pending, watermark Int.max, the trace "0" (line 64), an empty history and an empty store (line 91) |
| Machine.AssignLastValue | GraphingCalculator/CalculatorBrain.swift:64-70 | the trace becomes the new value; the watermark resets to Int.max exactly when nothing is pending and is kept otherwise; nothing else changes |
| Machine.Result | GraphingCalculator/CalculatorBrain.swift:57-61 | `result` is the accumulator |
| Machine.IsPartialResult | GraphingCalculator/CalculatorBrain.swift:84-88 | `isPartialResult` holds if and only if an operation is pending |
| Machine.Description | GraphingCalculator/CalculatorBrain.swift:73-81 | with nothing pending, the trace; while an operation is pending, its formatter applied to the left trace and to the current trace, or to "" when the current trace equals the left trace |
| Machine.Program | GraphingCalculator/CalculatorBrain.swift:100-102 | the `program` getter returns the history |
| Machine.Undo | GraphingCalculator/CalculatorBrain.swift:181-188 | on an empty history the result is exactly the `clear()` state; otherwise the history is the old one minus its last entry; the store is kept |
| Brain.CalculatorBrain.constructor | GraphingCalculator/CalculatorBrain.swift:29-32 | a new brain holds accumulator 0, nothing pending, watermark Int.max, an empty history, the trace "0" and an empty store |
| Brain.CalculatorBrain.AssignLastValue | GraphingCalculator/CalculatorBrain.swift:64-70 | assigning the trace resets the watermark exactly when nothing is pending |
| Brain.CalculatorBrain.Result | GraphingCalculator/CalculatorBrain.swift:57-61 | `result` reads the accumulator field |
| Brain.CalculatorBrain.Description | GraphingCalculator/CalculatorBrain.swift:73-81 | `description` over the fields: the trace when nothing is pending, otherwise the pending formatter applied to the left trace and to the current trace, or to "" when the two are equal |
| Brain.CalculatorBrain.IsPartialResult | GraphingCalculator/CalculatorBrain.swift:84-88 | `isPartialResult` holds if and only if the pending field is set |
| Brain.CalculatorBrain.Program | GraphingCalculator/CalculatorBrain.swift:100-102 | the `program` getter returns the history field |
| Brain.CalculatorBrain.SetOperand | GraphingCalculator/CalculatorBrain.swift:122-126 | the fields end as `Machine.SetOperand` says |
| Brain.CalculatorBrain.SetOperandVariable | GraphingCalculator/CalculatorBrain.swift:127-131 | the fields end as `Machine.SetOperandVariable` says |
| Brain.CalculatorBrain.PerformOperation | GraphingCalculator/CalculatorBrain.swift:134-155 | the in-place steps, observer firings included, end as `Machine.PerformOperation` says |
| Brain.CalculatorBrain.ExecutePendingBinaryOperation | GraphingCalculator/CalculatorBrain.swift:158-164 | the fields end as `Machine.ExecutePendingBinaryOperation` says |
| Brain.CalculatorBrain.Clear | GraphingCalculator/CalculatorBrain.swift:167-173 | the fields end as `Machine.Clear` says |
| Brain.CalculatorBrain.SetProgram | GraphingCalculator/CalculatorBrain.swift:103-119 | the clear-then-loop replay ends in `Machine.SetProgram`; the loop invariant is the replay of the prefix read so far |
| Brain.CalculatorBrain.SetVariableValues | GraphingCalculator/CalculatorBrain.swift:91-95 | store assignment with its replaying observer ends as `Machine.SetVariableValues` says |
| Brain.CalculatorBrain.ClearVariables | GraphingCalculator/CalculatorBrain.swift:176-178 | the fields end as `Machine.ClearVariables` says |
| Brain.CalculatorBrain.Undo | GraphingCalculator/CalculatorBrain.swift:181-188 | the fields end as `Machine.Undo` says |
| ReplayLaws.Apply | GraphingCalculator/CalculatorBrain.swift:122-155 | every input call appends exactly its own token and keeps the store |
| ReplayLaws.ReplayTokenOfInput | GraphingCalculator/CalculatorBrain.swift:106-116 | replaying the token of a keypad call (a known operator, or a variable that is not an operator name) performs that same call |
| ReplayLaws.RunIsReplay | GraphingCalculator/CalculatorBrain.swift:100-119 | the state that keypad calls build from a cleared brain equals setting `program` to their tokens |
| ReplayLaws.ClearKeepsOnlyVariables | GraphingCalculator/CalculatorBrain.swift:167-173 | the cleared state depends on nothing but the store |
| ReplayLaws.ProgramRestoresState | GraphingCalculator/CalculatorBrain.swift:100-119 | serialisation round trip: setting `program` to what was read back restores the whole state, and with it `result`, `isPartialResult` and `description` |
| ReplayLaws.UndoRestoresPreviousState | GraphingCalculator/CalculatorBrain.swift:181-188 | undo after any call, including an unknown symbol or a variable named like an operator, returns exactly to the replayed state before it |
| ReplayLaws.StoreAssignmentReruns | GraphingCalculator/CalculatorBrain.swift:91-95 | assigning the store to a brain built by keypad calls gives the state those calls reach from a cleared brain holding the new store |
| ReplayLaws.ClearVariablesReruns | GraphingCalculator/CalculatorBrain.swift:176-178 | `clearVariables()` gives the state the same keypad calls reach from a cleared brain with an empty store |
| ReplayLaws.UndoDropsLastInput | GraphingCalculator/CalculatorBrain.swift:181-188 | after keypad calls from a cleared brain, undo equals running the calls without the last one |
| ReplayLaws.UndoOnFreshBrainClears | GraphingCalculator/CalculatorBrain.swift:182-185 | undo on a fresh brain is `clear()`, which changes the trace from "0" to " " |
| ReplayLaws.UnknownOperatorReplaysAsVariable | GraphingCalculator/CalculatorBrain.swift:109-114 | an unknown symbol given to `performOperation` replays as a variable read, so the replayed trace differs from the original one |
| TraceLaws.PartialResultAfterCall | GraphingCalculator/CalculatorBrain.swift:84-88 | `isPartialResult` after a binary operator is true and after `=` is false; operands, variables, constants, unary operators and unknown symbols keep it |
| TraceLaws.ApplyKeepsWatermarkInRange | GraphingCalculator/CalculatorBrain.swift:146-149 | every call keeps the watermark at Int.max or at a table rank, and at a rank while something is pending |
| TraceLaws.ReplayKeepsWatermarkInRange | GraphingCalculator/CalculatorBrain.swift:106-116 | replaying any token list keeps that watermark invariant |
| TraceLaws.RebuiltStatesKeepWatermarkInRange | GraphingCalculator/CalculatorBrain.swift:100-119 | after setting `program`, assigning the store or undo, the watermark invariant holds, whatever state came before |
| TraceLaws.ParenthesisedExactlyWhenBelowRank | GraphingCalculator/CalculatorBrain.swift:144-150 | the whole state after a binary operator; the left trace is parenthesised if and only if the watermark after resolving is below the operator's rank |
| TraceLaws.EqualsResolves | GraphingCalculator/CalculatorBrain.swift:151-152 | `=` only resolves the pending operation and records itself |
| TraceLaws.DescriptionAfterBinaryOperator | GraphingCalculator/CalculatorBrain.swift:73-81 | right after a binary operator, the description is its formatter applied to the left trace and "" |
| TraceLaws.DescriptionShowsRightOperand | GraphingCalculator/CalculatorBrain.swift:73-81 | while an operation is pending, a newly read variable shows as the right operand unless it equals the left trace |
| TraceLaws.DescriptionWhenIdle | GraphingCalculator/CalculatorBrain.swift:79 | with nothing pending, the description is the trace |
| TraceLaws.IdleOperandThenBinary | GraphingCalculator/CalculatorBrain.swift:144-150 | with nothing pending, operand then binary operator leaves the operand pending with its unparenthesised text |
| TraceLaws.PendingOperandThenBinary | GraphingCalculator/CalculatorBrain.swift:144-150 | with an operation pending, operand then binary operator first applies the pending operation, then parenthesises the trace exactly when the watermark is below the new rank |
| TraceLaws.PendingOperandThenEquals | GraphingCalculator/CalculatorBrain.swift:158-163 | with an operation pending, operand then `=` applies it, leaves nothing pending and keeps the watermark |
| TraceLaws.LeftToRightChain | GraphingCalculator/CalculatorBrain.swift:144-163 | `2 + 3 × 4 =` gives multiply(add(2,3),4) with the trace "(2+3)×4" |
| TraceLaws.HigherRankFirstChain | GraphingCalculator/CalculatorBrain.swift:144-163 | `2 × 3 + 4 =` gives add(multiply(2,3),4) with the trace "2×3+4" |
| TraceLaws.PendingDescription | GraphingCalculator/CalculatorBrain.swift:73-81 | `3 + 4 ×` is partial, with left operand add(3,4) and the description "(3+4)×" |
| TraceLaws.EqualsKeepsWatermark | GraphingCalculator/CalculatorBrain.swift:64-70 | after `3 + 4 =` nothing is pending but the watermark is still 0; the description is "3+4", and a following `×` describes as "(3+4)×" |
| TraceLaws.UnaryTrace | GraphingCalculator/CalculatorBrain.swift:138-143 | `e ln =` gives log(e) with the trace "ln(e)" |
| Grapher.Sample | GraphingCalculator/CalculatorBrain.swift:91-95 | binding "M" keeps the program and updates only that entry of the store |
| Grapher.YForX | GraphingCalculator/CalculatorViewController.swift:170-173 | the closure leaves the brain in the sampled state and returns that state's `result` |
| Grapher.SampleRerunsAtInput | GraphingCalculator/CalculatorBrain.swift:91-95 | the sampled state is the one the keypad calls that built the brain reach from a cleared brain with "M" bound to x |
| Grapher.SampleForgetsEarlierSamples | GraphingCalculator/CalculatorBrain.swift:91-95 | sampling at x' after sampling at x equals sampling at x' directly |
| Grapher.SampleDependsOnProgramAndOtherVariables | GraphingCalculator/CalculatorBrain.swift:91-95 | a sample depends only on the program and on the store apart from "M" |
| Grapher.InputPlusConstant | GraphingCalculator/CalculatorBrain.swift:127-131 | the calls `M + c =` with nothing pending give add(value of M, c) and leave nothing pending |
| Grapher.SampleOfShiftedInput | GraphingCalculator/CalculatorViewController.swift:170-173 | the program `M + c =` samples to add(x, c) at every x |
| Grapher.UnboundVariableReadsZero | GraphingCalculator/CalculatorBrain.swift:127-131 | reading an unbound variable gives 0, and with nothing pending the description is its name |
| Grapher.ClearVariablesThenReadInput | GraphingCalculator/CalculatorBrain.swift:176-178 | after `clearVariables()` the history is kept and "M" reads as 0 |
| Grapher.ReplayTokenIgnoresUnreadVariable | GraphingCalculator/CalculatorBrain.swift:106-116 | replaying a token that is not a variable's name does not depend on that variable's value |
| Grapher.UnreadVariableIsInert | GraphingCalculator/CalculatorBrain.swift:91-95 | binding a variable that the program never reads changes nothing but the store |
| Grapher.ConstantProgramSamplesConstantly | GraphingCalculator/CalculatorViewController.swift:170-173 | a program that never reads "M" has the same result and description at every x |

## Left out

- Numbers: Double semantics are not modelled, including rounding, non-finite values and the
  behaviour of `sqrt`, `log`, `log10`, the trigonometric functions and `pow`. These functions are
  parameters of the model, and nothing is assumed about them.
- The `NumberFormatter` (`GraphingCalculator/CalculatorBrain.swift:191-198`) is locale-dependent
  platform code. It is a parameter `N -> Option<string>`, and the `?? ""` fallback is modelled.
- `AnyObject` bridging in the `program` setter, including skipping entries that are neither
  Double nor String: history entries are the datatype `Num(n) | Str(s)`, so such entries cannot
  occur.
- The view controllers and the graph view
  (`GraphingCalculator/CalculatorViewController.swift`, `GraphingCalculator/GraphView.swift`,
  `GraphingCalculator/GraphViewController.swift`) are not modelled, apart from the y-for-x
  closure. That covers display editing, digit entry, `UserDefaults` persistence, segues, drawing
  and gestures. The closure's weak capture of the controller is not modelled either.
- ReplayLaws.ProgramRestoresState: the round trip is stated for states built from a cleared brain
  by keypad calls. It does not cover unknown symbols passed to `performOperation`, or variable
  names that are operator symbols. `ReplayLaws.UnknownOperatorReplaysAsVariable` shows that the
  round trip fails there. It also does not cover a fresh brain whose trace is still "0".
- ReplayLaws.UndoRestoresPreviousState: stated only for a state that is a replay of its own
  history, because undo rebuilds the state by replay. The last call may be any call.
- Registry.Operations: its contract only bounds the ranks of the binary operators. The exact set
  of keys is not stated. The entries for the binary operators and `=` are stated by the three
  registry lemmas, and those for `e` and `ln` by `TraceLaws.UnaryTrace`. The other constant and
  unary entries are read only from the table itself.
- Swift compares `String`s under Unicode canonical equivalence, both in `==`/`!=` and in
  dictionary keys (`GraphingCalculator/CalculatorBrain.swift:76`, `:110`, `:136`). The model
  compares strings as sequences of code points. The two differ only for distinct code-point
  sequences that are canonically equivalent, and the keypad never produces such symbols.
