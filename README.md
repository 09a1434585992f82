# Blockly interpreter engine, in Dafny

This project models the execution engine of goblockly, a Go interpreter for
Blockly programs. The engine takes an in-memory tree of typed blocks and does
the following:

- It picks an evaluator for each block's type tag. Custom prefix handlers come
  first, then the default table.
- It runs statement chains through their `next` links.
- It runs the control, logic, variable, text and procedure-call blocks.
- It threads the run's state: a single flat variable namespace and the console.
- It reports failures, and any break or continue that escaped every loop, to
  the failure handler exactly once per run.

The model has two layers.

- `Semantics` (semantics.dfy) gives the meaning of every evaluator as a
  function. Each function takes a `State` (variables and console) and returns
  an explicit `Outcome`, which replaces Go's panics:
  - `Normal(v)`: the block completed with value `v`.
  - `Signal(ThenBreak | ThenContinue)`: a pending break or continue.
  - `Fail(msg)`: a failure with its message.
  - `OutOfFuel`: the evaluation exceeded its fuel bound (see below).

  Loops are recursive functions over the loop variables.
- `Engine.Interpreter` (engine.dfy) is the interpreter object itself. Its
  fields are the variable map `context`, the `console` and the `failures`
  reported so far. Its methods are the Go functions, with the Go loops kept as
  loops and `context` updated in place. Each method's postcondition says its
  outcome and new state are exactly those of the `Semantics` function named
  there: mostly the function of the same name, but `Run` is `Evaluate` from an
  empty namespace, `WhileUntilLoop` is `WhileLoop` and `CountLoop` is
  `ForLoop`. `CheckBreak` and `WriteToConsole` state their effect directly.
  So every property proved about `Semantics` holds of the methods.

The properties live in `DispatchLaws`, `ControlLaws`, `ProcedureLaws`,
`LogicLaws` and `VariableTextLaws`. They cover dispatch order, the chain law,
branch selection, loop counts, break and continue, loop bindings, the shadowing
round trip, the comparison identities, set-then-get, join and print.

The value model's conversions are not part of this model: `AsBoolean`,
`AsNumber`, `AsString`, `AsList`, `Equals` and `IsLessThan`. Each is a field of
a `ValueOps` record, a total function that may fail with a message. Every
result therefore holds for any implementation of them.

Some Go loops need not terminate: a while loop whose mode is neither WHILE nor
UNTIL, or a for loop whose step is zero or less. For that reason evaluation
carries a `fuel` bound:

- Each evaluator call below a block uses one unit of fuel.
- Each while or for iteration uses one unit of fuel.
- When fuel runs out, the outcome is `OutOfFuel`.

`OutOfFuel` is an artefact of the bound, not a behaviour of the interpreter.

## Model

| member | source | states |
|---|---|---|
| Semantics.PrefixLookup | interpreter.go:166-172 | no handler exactly when no prefix matches the tag; otherwise the handler of the first entry whose prefix the tag starts with |
| Engine.Interpreter.FindEvaluator | interpreter.go:166-175 | the prefix-handler loop with `break`, then the default table: the handler found is exactly `Semantics.FindEvaluator`'s, the first matching prefix's, else the table's entry |
| Engine.Interpreter.Evaluate | interpreter.go:165-187 | the evaluator lookup, then the failure when there is none; the block's evaluator runs, and a `next` block's result replaces the block's own; outcome and new state are exactly `Semantics.Evaluate` |
| Engine.Interpreter.Dispatch | interpreter.go:90-131 | each built-in block type runs its own evaluator, as the default table maps it; the number, list and colour block types run the value model's evaluator, a parameter |
| DispatchLaws.UnknownTagFails | interpreter.go:173-179 | a tag matching no prefix and absent from the default table fails with "No evaluator for block '<tag>'" and changes nothing |
| DispatchLaws.FirstPrefixPreferred | interpreter.go:166-175 | the first matching prefix handler is chosen, even when the default table also has the tag |
| DispatchLaws.UniquePrefixChosen | interpreter.go:167-172 | when exactly one prefix matches, that handler is chosen, whatever order the handlers are consulted in |
| DispatchLaws.DefaultTableUsed | interpreter.go:173-175 | with no matching prefix the default table decides, and a missing entry means no evaluator |
| DispatchLaws.NextReplacesResult | interpreter.go:180-186 | a block with a successor yields its successor's result, evaluated from the state the block left; a block that does not complete normally ends the chain |
| DispatchLaws.ChainYieldsLastBlock | interpreter.go:180-186 | when every block before the last completes normally, the chain's outcome and final state, whether a value, a failure or a signal, are those of its last block run from `BeforeLast`, the state the earlier blocks left one after the other |
| Engine.Interpreter.CheckBreak | interpreter.go:193-203 | a break or continue sets the flag to true exactly for continue and is absorbed; normal completion leaves the flag unchanged; a failure is raised again unchanged |
| Engine.Interpreter.Run | interpreter.go:147-157 | evaluation starts from an empty variable map whatever the map held before; the failure log grows by exactly `FailureReport` of the outcome |
| Semantics.FailureReport | interpreter.go:148-152 | one report for a failure (its message) or an escaped break/continue, none otherwise |
| Semantics.BreakEventError | interpreter.go:54-63 | "Break outside of loop." for break, "Continue outside of loop." for continue |
| Engine.Interpreter.WriteToConsole | interpreter.go:141-143 | the console grows by exactly the string followed by a newline |
| Engine.Interpreter.ControlIfEvaluator | blocks_control.go:8-29 | the branch loop over `IF0..IF<elseIfs>`, then `ELSE`; outcome and state are exactly `Semantics.ControlIfEvaluator` |
| ControlLaws.FirstTrueBranch | blocks_control.go:16-22 | when conditions before `j` are false and `IF<j>` is true, the result is `DO<j>` run from the state that test left; later conditions are never evaluated |
| ControlLaws.IfStepFalse | blocks_control.go:16-22 | a false `IF<idx>` moves on to the next condition from the state its test left |
| ControlLaws.IfStepTrue | blocks_control.go:16-22 | a true `IF<idx>` runs `DO<idx>` from the state its test left, and nothing else |
| ControlLaws.NoBranchTaken | blocks_control.go:16-28 | when every condition is false, `ELSE` runs if the block declares one, otherwise the result is nil |
| ControlLaws.IfWithoutMutation | blocks_control.go:9-14 | with no mutation only `IF0`/`DO0` exist and there is no `ELSE` |
| Engine.Interpreter.ControlRepeatExtEvaluator | blocks_control.go:31-43 | the counted loop with `repeats--` and the continuation flag; outcome and state are exactly `Semantics.ControlRepeatExtEvaluator` |
| Values.Trunc | blocks_control.go:35-36 | Go's `int(x)` of a float truncates toward zero |
| ControlLaws.RepeatRunsBodyNTimes | blocks_control.go:35-41 | a body that prints one line runs exactly `n` times (zero times for `n <= 0`), and the result is the last body's value |
| ControlLaws.RepeatBelowOneRunsNothing | blocks_control.go:35-36 | TIMES is evaluated once; a count below one runs nothing and yields nil |
| ControlLaws.RepeatSignal | blocks_control.go:37-40 | a break ends the repeat loop with the last normal value; a continue goes on to the next iteration |
| Engine.Interpreter.ControlWhileUntil | blocks_control.go:45-73 | the MODE and BOOL checks, then the loop; outcome and state are exactly `Semantics.ControlWhileUntil` |
| Engine.Interpreter.WhileUntilLoop | blocks_control.go:54-72 | the loop re-testing the condition by mode each iteration and absorbing break and continue; outcome and state are exactly `Semantics.WhileLoop` |
| ControlLaws.WhileTestsFirst | blocks_control.go:57-63 | the condition is tested before the first iteration: WHILE with a false test, or UNTIL with a true one, never runs the body |
| ControlLaws.UnknownModeNeverStops | blocks_control.go:57-71 | with a mode other than WHILE or UNTIL, a loop whose body never breaks, continues or fails never stops (it exhausts any fuel) |
| ControlLaws.WhileSignal | blocks_control.go:65-70 | a break ends the while loop; a continue goes back to the test |
| Engine.Interpreter.ControlForEvaluator | blocks_control.go:75-98 | VAR, then FROM, TO and BY each evaluated once in that order, then the counting loop; outcome and state are exactly `Semantics.ControlForEvaluator` |
| Engine.Interpreter.CountLoop | blocks_control.go:85-97 | the loop binding the counter in place and adding the step; outcome and state are exactly `Semantics.ForLoop` |
| ControlLaws.ForLeavesLastBinding | blocks_control.go:89-95 | for a body that yields nil and changes nothing with the fuel each iteration passes it, with a positive step, VAR is left bound to the last counter value `from + n*step` not above `to`; no other variable changes |
| ControlLaws.CounterLines | blocks_control.go:89-90 | the `i`-th of `n` printed lines is the line for counter `from + i*step` |
| ControlLaws.ForCountsInOrder | blocks_control.go:89-95 | VAR is bound to `from`, `from + step`, ... while the counter is not above `to`: a body printing VAR (with the fuel the `n` iterations pass it) prints exactly those counters in order, and VAR is left bound to the last of them |
| ControlLaws.GetVariableYields | blocks_variable.go:16-28 | with no prefix handlers, `variables_get` of a bound name yields its value and changes nothing |
| ControlLaws.PrintOfArgument | blocks_text.go:26-38 | with no prefix handlers, `text_print` of one block writes that block's string and a newline to the console, from the state the block left, and yields nil |
| ControlLaws.PrintVariablePrintsCounter | blocks_text.go:26-38 | with no prefix handlers and a number-to-string conversion `show`, `text_print(variables_get VAR)` prints `show` of the number bound to VAR and a newline, yields nil and changes nothing else, with any fuel of two or more |
| ControlLaws.PrintLoopPrintsCounters | blocks_control.go:89-95 | with no prefix handlers, a number-to-string conversion `show`, a positive step and more fuel than iterations, a for loop whose body is `text_print(variables_get VAR)` prints `show` of `from`, `from + step`, ... not above `to`, one line each, in order |
| ControlLaws.IfOnlyFalse | blocks_control.go:8-29 | with no prefix handlers, a conditional with a single test that is false and no mutation yields nil from the state the test left, running no body |
| ControlLaws.FalseConditionalIsNeutral | blocks_control.go:8-29 | with no prefix handlers, a conditional whose only test is the constant false yields nil and changes nothing, with any fuel of two or more |
| ControlLaws.NonPositiveStepNeverStops | blocks_control.go:89-95 | a step of zero or less never stops a loop whose body never breaks, continues or fails |
| ControlLaws.ForSignal | blocks_control.go:89-94 | a break ends the for loop; a continue steps the counter and goes on |
| Engine.Interpreter.ControlForEachEvaluator | blocks_control.go:102-118 | the index loop binding VAR in place; outcome and state are exactly `Semantics.ControlForEachEvaluator` |
| Semantics.ForEachLoop | blocks_control.go:109-117 | the for-each loop never completes with a value other than nil |
| ControlLaws.ForEachInOrder | blocks_control.go:109-115 | VAR is bound to each element in index order: a body printing the variable prints the elements in order, and VAR is left bound to the last one |
| ControlLaws.ForEachYieldsNil | blocks_control.go:117 | a for-each block that completes yields nil |
| ControlLaws.ForEachSignal | blocks_control.go:110-114 | a break ends the for-each loop; a continue moves on to the next element |
| Semantics.ControlFlowStatements | blocks_control.go:120-133 | BREAK raises break, CONTINUE raises continue, any other FLOW value yields nil, a missing FLOW field fails, and the state is unchanged |
| Engine.Interpreter.ControlFlowStatements | blocks_control.go:120-133 | outcome is exactly `Semantics.ControlFlowStatements` |
| Engine.Interpreter.ProceduresFunctionCallEvaluator | blocks_procedure.go:14-55 | the mutation and name checks, the argument loop, shadowing, body, return expression and unshadowing; outcome and state are exactly `Semantics.ProceduresFunctionCallEvaluator` |
| Engine.Interpreter.CallProcedure | blocks_procedure.go:43-54 | shadowing in place, the body, the return expression, then unshadowing in place; outcome and state are exactly `Semantics.CallProcedure` |
| ProcedureLaws.CallNeedsKnownProcedure | blocks_procedure.go:15-23 | a call without mutation, or naming no known procedure, fails with the corresponding message and changes nothing |
| Semantics.EvaluateArguments | blocks_procedure.go:26-41 | argument evaluation succeeds only when every `ARG<idx>` socket exists and holds exactly one block; when it stops early, the outcome it escapes with is never a normal one |
| ProcedureLaws.ArgumentNeedsOneBlock | blocks_procedure.go:27-38 | a missing `ARG<idx>` socket fails with "calling '<name>': No value specified for argument '<arg>'", and one not holding exactly one block with "calling '<name>': Missing block for argument '<arg>'", before anything is evaluated |
| ProcedureLaws.BindLastWins | blocks_procedure.go:40 | collecting the arguments by parameter name in order, a name bound at position `i` and not later is bound to the `i`-th value; of a repeated name the last binding wins |
| ProcedureLaws.ArgumentsThread | blocks_procedure.go:26-41 | arguments are evaluated in order, each from the state the previous one left, and each normal value is bound to its parameter name |
| ProcedureLaws.ArgumentsBindValues | blocks_procedure.go:26-41 | when every argument evaluates normally, the collected map binds each parameter to its argument's value, in order, and the state is the one the last argument left |
| ProcedureLaws.CallPassesArguments | blocks_procedure.go:26-54 | a call whose arguments all evaluate normally runs the procedure with each parameter bound to its argument's value, from the state the last argument left |
| ProcedureLaws.CallNeedsEveryArgument | blocks_procedure.go:26-38 | a call whose earlier arguments evaluate normally and whose `ARG<j>` socket is missing or does not hold one block fails with the corresponding message, in the state the earlier arguments left, without entering the procedure |
| ProcedureLaws.ArgumentsBindParameters | blocks_procedure.go:25-41 | the collected argument map has exactly the parameter names as keys |
| ProcedureLaws.ArgumentsIgnoreAccumulator | blocks_procedure.go:26-43 | arguments are all evaluated in the caller's namespace before any parameter is bound: the state argument evaluation leaves, and the outcome it escapes with, do not depend on the values collected so far |
| Semantics.ShadowVariables | blocks_procedure.go:59-69 | each new name is bound to its new value; the backup holds a name's old value exactly when it was bound; other names are untouched |
| Engine.Interpreter.ShadowVariables | blocks_procedure.go:59-69 | the insertion loop leaves the namespace and the backup exactly as `Semantics.ShadowVariables` describes |
| Semantics.UnshadowVariables | blocks_procedure.go:73-80 | each new name is deleted and then rebound to its backed-up value, if any; other names are untouched |
| Engine.Interpreter.UnshadowVariables | blocks_procedure.go:73-80 | the delete-and-restore loop leaves the namespace exactly as `Semantics.UnshadowVariables` describes |
| ProcedureLaws.ShadowUnshadowRestores | blocks_procedure.go:59-80 | unshadowing with the backup returns each parameter name to its state before shadowing, whatever happened in between |
| ProcedureLaws.ShadowUnshadowIdentity | blocks_procedure.go:59-80 | unshadowing right after shadowing gives back exactly the original namespace |
| ProcedureLaws.CallRestoresParameters | blocks_procedure.go:43-54 | a call that completes normally leaves every parameter name as it was before; the body completed normally, and the result is the return expression's value, evaluated after the body with the parameters still bound, or nil without one |
| ProcedureLaws.EscapeSkipsRestore | blocks_procedure.go:43-53 | a failure or signal from the body escapes with the parameters still bound |
| Engine.Interpreter.LogicCompareEvaluator | blocks_logic.go:5-35 | outcome and state are exactly `Semantics.LogicCompareEvaluator` |
| LogicLaws.ComparisonIdentities | blocks_logic.go:17-29 | NEQ is not EQ, LTE is LT or EQ, GT is neither LT nor EQ, GTE is not LT, and GT is the negation of LTE |
| LogicLaws.ComparisonShortCircuit | blocks_logic.go:24-27 | LTE and GT do not consult equality when the ordering test is true |
| LogicLaws.UnknownComparison | blocks_logic.go:30-32 | any other operator name fails with "Unknown operator: <op>" |
| LogicLaws.CompareNeedsOperator | blocks_logic.go:8-12 | a compare block without OP fails before evaluating either operand |
| Engine.Interpreter.LogicTernaryEvaluator | blocks_logic.go:37-48 | outcome and state are exactly `Semantics.LogicTernaryEvaluator` |
| LogicLaws.TernaryEvaluatesOneBranch | blocks_logic.go:42-47 | only THEN is evaluated when the test is true, only ELSE when it is false |
| Semantics.LogicBooleanEvaluator | blocks_logic.go:50-61 | true exactly when BOOL is the string "TRUE", false for any other string, failure when BOOL is missing |
| Engine.Interpreter.LogicBooleanEvaluator | blocks_logic.go:50-61 | outcome is exactly `Semantics.LogicBooleanEvaluator` |
| Engine.Interpreter.LogicOperationEvaluator | blocks_logic.go:63-86 | outcome and state are exactly `Semantics.LogicOperationEvaluator` |
| LogicLaws.OperationNeedsOperator | blocks_logic.go:66-70 | a boolean operation without OP fails before evaluating either operand |
| LogicLaws.OperationEvaluatesBoth | blocks_logic.go:71-85 | both operands are evaluated (no short circuit); AND and OR combine them, and any other operator fails |
| Engine.Interpreter.LogicNegateEvaluator | blocks_logic.go:88-91 | outcome and state are exactly `Semantics.LogicNegateEvaluator` |
| LogicLaws.NegateFlips | blocks_logic.go:88-91 | the result is the negation of the operand's boolean |
| Engine.Interpreter.VariableSetEvaluator | blocks_variable.go:5-14 | outcome and state are exactly `Semantics.VariableSetEvaluator` |
| VariableTextLaws.SetBindsOnlyVar | blocks_variable.go:11-13 | VAR is bound to the value of VALUE; no other variable changes; the result is nil |
| VariableTextLaws.SetThenGet | blocks_variable.go:5-28 | a get right after a set of the same name yields the value just set |
| VariableTextLaws.VariableBlocksNeedVar | blocks_variable.go:5-21 | set and get both fail, with their own messages, when VAR is missing |
| Semantics.VariableGetEvaluator | blocks_variable.go:16-28 | the bound value, a failure naming an unbound variable, or a missing-field failure; the state never changes |
| Engine.Interpreter.VariableGetEvaluator | blocks_variable.go:16-28 | outcome is exactly `Semantics.VariableGetEvaluator` |
| Semantics.TextEvaluator | blocks_text.go:5-12 | the TEXT field as a string, or failure without it; the state never changes |
| Engine.Interpreter.TextEvaluator | blocks_text.go:5-12 | outcome is exactly `Semantics.TextEvaluator` |
| Engine.Interpreter.TextJoinEvaluator | blocks_text.go:14-24 | the loop accumulating `result`; outcome and state are exactly `Semantics.TextJoinEvaluator` |
| Semantics.JoinFrom | blocks_text.go:16-23 | a completed join is a string extending the text accumulated so far, and every socket held exactly one block |
| VariableTextLaws.JoinConcatenates | blocks_text.go:15-23 | the result is the in-order concatenation of each socket's string |
| VariableTextLaws.JoinOfNothing | blocks_text.go:15-23 | with no sockets the result is the empty string |
| VariableTextLaws.JoinNeedsOneBlockPerSocket | blocks_text.go:17-20 | a socket without exactly one block fails the join |
| Engine.Interpreter.PrintEvaluator | blocks_text.go:26-38 | outcome and state are exactly `Semantics.PrintEvaluator` |
| VariableTextLaws.PrintAppendsOneLine | blocks_text.go:36-37 | the console grows by exactly one line, the TEXT block's string, and the result is nil |
| VariableTextLaws.PrintNeedsOneBlock | blocks_text.go:27-35 | print fails and writes nothing when TEXT is missing or does not hold exactly one block |

## Left out

- The block accessors (`FieldWithName`, `SingleFieldWithName`, `BlockValueWithName`, `SingleBlockValueWithName`, `SingleBlockStatementWithName`) live in block.go, which is not part of this model.
  - They are given the behaviour the evaluators rely on: the first entry of a name wins.
  - A value socket must hold exactly one block, or the lookup fails.
  - A missing or empty statement socket gives no block.
  - The failure messages of the two failing accessors are stand-ins.
- Evaluating a missing statement block is Go's nil-pointer panic. It is modelled as a failure carrying the runtime's message.
- The value model is not modelled: its conversions, `Equals`, `IsLessThan`, lists and colours. These are parameters.
  - The default table has all the block types the interpreter registers. The fourteen number, list and colour types map to the `Library` handler, whose effect is the `library` parameter: any outcome and any new state. The model therefore promises nothing about those blocks beyond what holds for every implementation.
- Lists are immutable sequences, so the sharing of a list's backing storage between values is not captured. One consequence: the for-each loop re-reads the list's length on every iteration (blocks_control.go:109), so a body that appends to the list it iterates makes the loop run longer, whereas `ForEachLoop` iterates the sequence the LIST block yielded once.
- Numbers are modelled as mathematical reals, not float64. Rounding, NaN and infinities are not modelled.
- Go's map iteration order over the prefix handlers is unspecified. The model consults them in one fixed order (a sequence). `DispatchLaws.UniquePrefixChosen` shows that the order does not matter when at most one prefix matches.
- Prefix handlers are host-written Go code. The model maps prefixes to built-in evaluators. The procedure-call evaluator is not in the default table, so it is reachable only this way.
- The `Functions` table is read by the procedure-call evaluator but is not declared on the `Interpreter` struct in interpreter.go (lines 71-84). It is a constant of the interpreter here.
- The conditional reads its counts from `Mutations[0]` and the procedure call from `Mutation`. Both are one optional mutation record here.
- An argument map entry is keyed by the argument's name. The failure messages print that name, not Go's formatting of the argument record.
- Go's zero `Value` (the initial result of a repeat loop) is identified with the nil value.
- The debug `Printf` lines of the procedure-call evaluator go to standard output, not the console. They are not modelled.
- Panics and `recover` are replaced by the explicit outcome. `OutOfFuel` is not reported to the failure handler.
- The `fuel` bound: a Go loop that never terminates appears as an `OutOfFuel` outcome. Deep recursion beyond the bound does too.
- `Engine.Interpreter.ShadowVariables` and `Engine.Interpreter.UnshadowVariables` visit the new names in an unspecified order, like Go's map iteration. Their result does not depend on the order.
- XML parsing of programs, the number evaluators of blocks_number.go and the test helpers are outside the engine.
