/** Properties of the control blocks: branch selection, loop counts, break and
    continue, and the bindings the counting loops leave behind. */
module ControlLaws {
  import opened Values
  import opened Blocks
  import opened Semantics

  // ---------------------------------------------------------------- if

  /** When the conditions `idx..j-1` evaluate to false, condition `i`
      taking state `sts[i]` to `sts[i + 1]`, and condition `j` evaluates to
      true from `sts[j]`, the result is the `DO<j>` body run from the state
      that test left: the later conditions and the `ELSE` branch are never
      evaluated. */
  lemma {:induction false} FirstTrueBranch(env: Env, fuel: nat, b: Block, idx: nat, j: nat, elseIfs: int, elses: int,
                                           sts: seq<State>, after: State)
    requires idx <= j <= elseIfs
    requires |sts| == j + 1
    requires forall i :: idx <= i < j ==>
      EvaluateSocketAs(env, fuel, sts[i], b, IfName(i), env.ops.asBoolean) == Step(Got(false), sts[i + 1])
    requires EvaluateSocketAs(env, fuel, sts[j], b, IfName(j), env.ops.asBoolean) == Step(Got(true), after)
    ensures IfBranches(env, fuel, sts[idx], b, idx, elseIfs, elses)
         == EvaluateStatement(env, fuel, after, SingleBlockStatementWithName(b, DoName(j)))
    decreases j - idx
  {
    if idx < j {
      IfStepFalse(env, fuel, sts[idx], b, idx, elseIfs, elses, sts[idx + 1]);
      FirstTrueBranch(env, fuel, b, idx + 1, j, elseIfs, elses, sts, after);
    } else {
      IfStepTrue(env, fuel, sts[idx], b, idx, elseIfs, elses, after);
    }
  }

  /** A false condition moves on to the next branch from the state its test left. */
  lemma IfStepFalse(env: Env, fuel: nat, st: State, b: Block, idx: nat, elseIfs: int, elses: int, after: State)
    requires idx <= elseIfs
    requires EvaluateSocketAs(env, fuel, st, b, IfName(idx), env.ops.asBoolean) == Step(Got(false), after)
    ensures IfBranches(env, fuel, st, b, idx, elseIfs, elses) == IfBranches(env, fuel, after, b, idx + 1, elseIfs, elses)
  {
  }

  /** A true condition runs its `DO` body from the state its test left. */
  lemma IfStepTrue(env: Env, fuel: nat, st: State, b: Block, idx: nat, elseIfs: int, elses: int, after: State)
    requires idx <= elseIfs
    requires EvaluateSocketAs(env, fuel, st, b, IfName(idx), env.ops.asBoolean) == Step(Got(true), after)
    ensures IfBranches(env, fuel, st, b, idx, elseIfs, elses)
         == EvaluateStatement(env, fuel, after, SingleBlockStatementWithName(b, DoName(idx)))
  {
  }

  /** When every condition `idx..elseIfs` evaluates to false, the `ELSE`
      body runs when the block declares one, and the result is nil otherwise. */
  lemma {:induction false} NoBranchTaken(env: Env, fuel: nat, b: Block, idx: nat, elseIfs: int, elses: int,
                                         sts: seq<State>)
    requires idx <= elseIfs + 1
    requires |sts| == elseIfs + 2 - idx
    requires forall i :: 0 <= i < elseIfs + 1 - idx ==>
      EvaluateSocketAs(env, fuel, sts[i], b, IfName(idx + i), env.ops.asBoolean) == Step(Got(false), sts[i + 1])
    ensures IfBranches(env, fuel, sts[0], b, idx, elseIfs, elses)
         == if elses > 0 then EvaluateStatement(env, fuel, sts[|sts| - 1], SingleBlockStatementWithName(b, "ELSE"))
            else Res(Normal(Nil), sts[|sts| - 1])
    decreases elseIfs + 1 - idx
  {
    if idx <= elseIfs {
      NoBranchTaken(env, fuel, b, idx + 1, elseIfs, elses, sts[1..]);
    }
  }

  /** A conditional without mutation has just `IF0`/`DO0` and no `ELSE`. */
  lemma IfWithoutMutation(env: Env, fuel: nat, st: State, b: Block)
    requires b.mutation.None?
    ensures var c := EvaluateSocketAs(env, fuel, st, b, IfName(0), env.ops.asBoolean);
      ControlIfEvaluator(env, fuel, st, b)
      == match c.flow
         case Raised(o) => Res(o, c.st)
         case Got(test) =>
           if test then EvaluateStatement(env, fuel, c.st, SingleBlockStatementWithName(b, DoName(0)))
           else Res(Normal(Nil), c.st)
  {
    var c := EvaluateSocketAs(env, fuel, st, b, IfName(0), env.ops.asBoolean);
    if c.flow.Got? && !c.flow.val {
      assert IfBranches(env, fuel, c.st, b, 1, 0, 0) == Res(Normal(Nil), c.st);
    }
  }

  // ------------------------------------------------------------ repeat

  /** The output of `n` runs of a body that prints `line` each time. */
  function Lines(line: string, n: int): (r: seq<string>)
    ensures |r| == if n > 0 then n else 0
    ensures forall i :: 0 <= i < |r| ==> r[i] == line
    decreases if n > 0 then n else 0
  {
    if n <= 0 then [] else [line] + Lines(line, n - 1)
  }

  /** The body prints `line` and completes normally with value `v`, from any state. */
  ghost predicate PrintsLine(env: Env, fuel: nat, body: Option<Block>, line: string, v: Value)
  {
    forall s: State :: EvaluateStatement(env, fuel, s, body) == Res(Normal(v), State(s.vars, s.console + [line]))
  }

  /** A repeat loop runs such a body exactly `n` times (none for `n <= 0`). */
  lemma {:induction false} RepeatRunsBodyNTimes(env: Env, fuel: nat, st: State, body: Option<Block>, n: int,
                                                line: string, v: Value, result: Value)
    requires PrintsLine(env, fuel, body, line, v)
    ensures RepeatLoop(env, fuel, st, body, n, true, result)
         == Res(Normal(if n > 0 then v else result), State(st.vars, st.console + Lines(line, n)))
    decreases if n > 0 then n else 0
  {
    if n > 0 {
      var r := EvaluateStatement(env, fuel, st, body);
      assert r == Res(Normal(v), State(st.vars, st.console + [line]));
      RepeatRunsBodyNTimes(env, fuel, r.st, body, n - 1, line, v, v);
      assert st.console + [line] + Lines(line, n - 1) == st.console + Lines(line, n);
    }
  }

  /** TIMES is evaluated once; a count below one runs the body zero times. */
  lemma RepeatBelowOneRunsNothing(env: Env, fuel: nat, st: State, b: Block, times: real, after: State)
    requires EvaluateSocketAs(env, fuel, st, b, "TIMES", env.ops.asNumber) == Step(Got(times), after)
    requires times < 1.0
    ensures ControlRepeatExtEvaluator(env, fuel, st, b) == Res(Normal(Nil), after)
  {
  }

  /** In a repeat loop a break ends the loop with the last normal value, and a
      continue goes on with the next iteration. */
  lemma RepeatSignal(env: Env, fuel: nat, st: State, body: Option<Block>, n: int, result: Value)
    requires n > 0
    ensures var r := EvaluateStatement(env, fuel, st, body);
      (r.out == Signal(ThenBreak) ==> RepeatLoop(env, fuel, st, body, n, true, result) == Res(Normal(result), r.st))
      && (r.out == Signal(ThenContinue) ==>
            RepeatLoop(env, fuel, st, body, n, true, result) == RepeatLoop(env, fuel, r.st, body, n - 1, true, result))
  {
  }

  // ------------------------------------------------------------- while

  /** The condition is tested before the first iteration: WHILE with a false
      test, or UNTIL with a true one, never runs the body. */
  lemma WhileTestsFirst(env: Env, fuel: nat, st: State, mode: string, cond: Block, body: Option<Block>,
                        v: Value, x: bool, after: State)
    requires fuel > 0
    requires EvaluateAs(env, fuel, st, cond, env.ops.asBoolean) == Step(Got(x), after)
    requires (mode == "WHILE" && !x) || (mode == "UNTIL" && x)
    ensures WhileLoop(env, fuel, st, mode, cond, body, true, v) == Res(Normal(v), after)
  {
  }

  /** From every state and with any fuel up to `fuel`, the body either
      evaluates normally or runs out of fuel: it never signals or fails. */
  ghost predicate AlwaysCompletes(env: Env, fuel: nat, body: Option<Block>)
  {
    forall f: nat, s: State :: 1 <= f <= fuel ==>
      EvaluateStatement(env, f, s, body).out.Normal? || EvaluateStatement(env, f, s, body).out == OutOfFuel
  }

  /** A mode other than WHILE and UNTIL never stops a loop whose body always
      completes: the loop runs until the fuel bound is exhausted. */
  lemma {:induction false} UnknownModeNeverStops(env: Env, fuel: nat, st: State, mode: string, cond: Block,
                                                 body: Option<Block>, v: Value)
    requires mode != "WHILE" && mode != "UNTIL"
    requires AlwaysCompletes(env, fuel, body)
    ensures WhileLoop(env, fuel, st, mode, cond, body, true, v).out == OutOfFuel
    decreases fuel
  {
    if fuel > 0 {
      var r := EvaluateStatement(env, fuel, st, body);
      if r.out.Normal? {
        UnknownModeNeverStops(env, fuel - 1, r.st, mode, cond, body, r.out.value);
      }
    }
  }

  /** In a while loop a break ends the loop, and a continue goes back to the test. */
  lemma WhileSignal(env: Env, fuel: nat, st: State, mode: string, cond: Block, body: Option<Block>, v: Value,
                    after: State)
    requires fuel > 0
    requires WhileTest(env, fuel, st, mode, cond) == Step(Got(true), after)
    ensures var r := EvaluateStatement(env, fuel, after, body);
      (r.out == Signal(ThenBreak) ==> WhileLoop(env, fuel, st, mode, cond, body, true, v) == Res(Normal(v), r.st))
      && (r.out == Signal(ThenContinue) ==>
            WhileLoop(env, fuel, st, mode, cond, body, true, v) == WhileLoop(env, fuel - 1, r.st, mode, cond, body, true, v))
  {
  }

  // --------------------------------------------------------------- for

  /** The counter value of iteration `n`. */
  function Counter(from: real, step: real, n: nat): real
  {
    from + n as real * step
  }

  /** With any fuel from `lo` to `hi`, the body completes normally with value
      nil and changes nothing. */
  ghost predicate Neutral(env: Env, lo: nat, hi: nat, body: Option<Block>)
  {
    forall f: nat, s: State :: lo <= f <= hi ==> EvaluateStatement(env, f, s, body) == Res(Normal(Nil), s)
  }

  /** With a positive step, a body that is neutral with the fuel each
      iteration passes it (`fuel`, `fuel - 1`, ... down to `lo`), and enough
      iterations before the fuel falls below `lo`, the loop variable is
      left bound to the last counter value that did not exceed `to`, one of
      `from`, `from + step`, ...; no other variable changes. */
  lemma {:induction false} ForLeavesLastBinding(env: Env, lo: nat, fuel: nat, st: State, name: string, from: real, to: real,
                                                step: real, body: Option<Block>, v: Value)
    requires step > 0.0 && from <= to && lo <= fuel && to - from < (fuel - lo + 1) as real * step
    requires Neutral(env, lo, fuel, body)
    ensures var r := ForLoop(env, fuel, st, name, from, to, step, body, true, v);
      && r.out == Normal(Nil)
      && r.st.console == st.console
      && name in r.st.vars && r.st.vars[name].Number?
      && from <= r.st.vars[name].num <= to < r.st.vars[name].num + step
      && (exists n: nat :: r.st.vars[name].num == Counter(from, step, n))
      && (forall k :: k != name ==> (k in r.st.vars <==> k in st.vars))
      && (forall k :: k != name && k in st.vars ==> r.st.vars[k] == st.vars[k])
    decreases fuel
  {
    var bound := State(st.vars[name := Number(from)], st.console);
    assert EvaluateStatement(env, fuel, bound, body) == Res(Normal(Nil), bound);
    if from + step <= to {
      ForLeavesLastBinding(env, lo, fuel - 1, bound, name, from + step, to, step, body, Nil);
      var r := ForLoop(env, fuel - 1, bound, name, from + step, to, step, body, true, Nil);
      var n: nat :| r.st.vars[name].num == Counter(from + step, step, n);
      assert r.st.vars[name].num == Counter(from, step, n + 1);
    } else {
      assert ForLoop(env, fuel - 1, bound, name, from + step, to, step, body, true, Nil) == Res(Normal(Nil), bound);
      assert from == Counter(from, step, 0);
    }
  }

  /** Counters `from` and `from + step` are one step apart in every iteration. */
  lemma CounterShift(from: real, step: real, n: nat)
    ensures Counter(from + step, step, n) == Counter(from, step, n + 1)
  {
    assert (n + 1) as real * step == n as real * step + step;
  }

  /** The lines printed for `n` iterations whose counters are `from`,
      `from + step`, ..., in order. */
  function CounterLines(line: real -> string, from: real, step: real, n: nat): (r: seq<string>)
    ensures |r| == n
    ensures forall i :: 0 <= i < n ==> r[i] == line(Counter(from, step, i))
    decreases n
  {
    if n == 0 then []
    else
      var rest := CounterLines(line, from + step, step, n - 1);
      assert forall i :: 1 <= i < n ==> rest[i - 1] == line(Counter(from, step, i)) by {
        forall i | 1 <= i < n ensures rest[i - 1] == line(Counter(from, step, i)) {
          CounterShift(from, step, i - 1);
        }
      }
      [line(from)] + rest
  }

  /** The body prints `line` of the loop variable's number, yields nil and
      changes nothing else, from any state and with any fuel from `lo` to `hi`. */
  ghost predicate PrintsCounter(env: Env, lo: nat, hi: nat, body: Option<Block>, name: string, line: real -> string)
  {
    forall f: nat, s: State | lo <= f <= hi && name in s.vars && s.vars[name].Number? ::
      EvaluateStatement(env, f, s, body) == Res(Normal(Nil), State(s.vars, s.console + [line(s.vars[name].num)]))
  }

  /** The outcome of `n` iterations of the for loop over a body that prints
      the variable: the variable bound to the last counter, the counters'
      lines printed, and the value `v` the loop started with when `n` is 0. */
  function CountedRun(st: State, name: string, from: real, step: real, line: real -> string, n: nat, v: Value): Res
  {
    Res(Normal(if n == 0 then v else Nil),
        State(if n == 0 then st.vars else st.vars[name := Number(Counter(from, step, n - 1))],
              st.console + CounterLines(line, from, step, n)))
  }

  /** The for loop binds its variable to `from`, `from + step`, ... while the
      counter is not above `to`: with a positive step, `n` iterations and fuel
      for each, a body printing the variable with the fuel the iterations pass
      it (`fuel` down to `fuel - n + 1`) prints those `n` counters in order,
      the variable is left bound to the last of them, and nothing else
      changes. */
  lemma {:induction false} ForCountsInOrder(env: Env, fuel: nat, st: State, name: string, from: real, to: real,
                                            step: real, body: Option<Block>, line: real -> string, n: nat, v: Value)
    requires step > 0.0 && n <= fuel
    requires (n == 0 || Counter(from, step, n - 1) <= to) && to < Counter(from, step, n)
    requires PrintsCounter(env, fuel - n + 1, fuel, body, name, line)
    ensures ForLoop(env, fuel, st, name, from, to, step, body, true, v) == CountedRun(st, name, from, step, line, n, v)
    decreases n
  {
    if n == 0 {
      assert to < from;
      assert st.console + CounterLines(line, from, step, n) == st.console;
    } else {
      var next := State(st.vars[name := Number(from)], st.console + [line(from)]);
      ForStep(env, fuel - n + 1, fuel, st, name, from, to, step, body, line, v);
      CounterShift(from, step, n - 1);
      ForCountsInOrder(env, fuel - 1, next, name, from + step, to, step, body, line, n - 1, Nil);
      CountedRunStep(st, name, from, step, line, n, v);
    }
  }

  /** Running the first iteration and then `n - 1` more from the next counter
      is running `n` iterations. */
  lemma CountedRunStep(st: State, name: string, from: real, step: real, line: real -> string, n: nat, v: Value)
    requires n > 0
    ensures CountedRun(State(st.vars[name := Number(from)], st.console + [line(from)]), name, from + step, step, line,
                       n - 1, Nil)
         == CountedRun(st, name, from, step, line, n, v)
  {
    var next := State(st.vars[name := Number(from)], st.console + [line(from)]);
    assert next.console + CounterLines(line, from + step, step, n - 1)
        == st.console + CounterLines(line, from, step, n);
    if n > 1 {
      CounterShift(from, step, n - 2);
      assert next.vars[name := Number(Counter(from + step, step, n - 2))]
          == st.vars[name := Number(Counter(from, step, n - 1))];
    } else {
      assert from == Counter(from, step, 0);
    }
  }

  /** One iteration of the for loop over a body that prints the variable; the
      body still prints the variable with fuel from `lo` to one unit less. */
  lemma ForStep(env: Env, lo: nat, fuel: nat, st: State, name: string, from: real, to: real, step: real,
                body: Option<Block>, line: real -> string, v: Value)
    requires fuel > 0 && from <= to && lo <= fuel
    requires PrintsCounter(env, lo, fuel, body, name, line)
    ensures ForLoop(env, fuel, st, name, from, to, step, body, true, v)
         == ForLoop(env, fuel - 1, State(st.vars[name := Number(from)], st.console + [line(from)]),
                    name, from + step, to, step, body, true, Nil)
    ensures PrintsCounter(env, lo, fuel - 1, body, name, line)
  {
    var bound := State(st.vars[name := Number(from)], st.console);
    assert name in bound.vars && bound.vars[name] == Number(from);
    assert EvaluateStatement(env, fuel, bound, body)
        == Res(Normal(Nil), State(bound.vars, bound.console + [line(from)]));
  }

  /** A `variables_get` block reading the variable `name`. */
  function GetVariable(name: string): Block
  {
    Block("variables_get", [Field("VAR", name)], [], [], None, None)
  }

  /** A `text_print` block printing the value of `arg`. */
  function PrintOf(arg: Block): Block
  {
    Block("text_print", [], [Socket("TEXT", [arg])], [], None, None)
  }

  /** With the default evaluators, `variables_get` of a bound name yields its
      value and changes nothing. */
  lemma GetVariableYields(env: Env, fuel: nat, st: State, name: string)
    requires env.prefixHandlers == [] && fuel > 0 && name in st.vars
    ensures Evaluate(env, fuel, st, GetVariable(name)) == Res(Normal(st.vars[name]), st)
  {
    assert FindEvaluator(env, "variables_get") == Some(VariablesGet);
    assert FieldWithName(GetVariable(name), "VAR") == Some(name);
  }

  /** With the default evaluators, `text_print` prints the string its
      argument converts to, followed by a newline, and yields nil. */
  lemma PrintOfArgument(env: Env, fuel: nat, st: State, arg: Block, s: string, after: State)
    requires env.prefixHandlers == [] && fuel > 0
    requires EvaluateAs(env, fuel - 1, st, arg, env.ops.asString) == Step(Got(s), after)
    ensures Evaluate(env, fuel, st, PrintOf(arg)) == Res(Normal(Nil), WriteToConsole(after, s))
  {
    assert FindEvaluator(env, "text_print") == Some(TextPrint);
    assert BlockValueWithName(PrintOf(arg), "TEXT") == Some([arg]);
    assert PrintEvaluator(env, fuel - 1, st, PrintOf(arg)) == Res(Normal(Nil), WriteToConsole(after, s));
    assert Dispatch(env, fuel - 1, st, TextPrint, PrintOf(arg)) == PrintEvaluator(env, fuel - 1, st, PrintOf(arg));
    assert Evaluate(env, fuel, st, PrintOf(arg)) == Dispatch(env, fuel - 1, st, TextPrint, PrintOf(arg));
  }

  /** A body printing the loop variable: with the default evaluators and a
      string conversion `show` of numbers, `text_print(variables_get name)`
      prints `show` of the variable and a newline with any fuel of two or
      more, one unit for the print block and one for the block it prints. */
  lemma PrintVariablePrintsCounter(env: Env, fuel: nat, name: string, show: real -> string)
    requires env.prefixHandlers == []
    requires forall x: real :: env.ops.asString(Number(x)) == Ok(show(x))
    ensures PrintsCounter(env, 2, fuel, Some(PrintOf(GetVariable(name))), name, x => show(x) + "\n")
  {
    forall f: nat, s: State | 2 <= f <= fuel && name in s.vars && s.vars[name].Number?
      ensures EvaluateStatement(env, f, s, Some(PrintOf(GetVariable(name))))
           == Res(Normal(Nil), State(s.vars, s.console + [show(s.vars[name].num) + "\n"]))
    {
      GetVariableYields(env, f - 1, s, name);
      PrintOfArgument(env, f, s, GetVariable(name), show(s.vars[name].num), s);
    }
  }

  /** A for loop whose body prints its variable, given one more unit of fuel
      than it has iterations, prints each counter `from`, `from + step`, ...
      not above `to` on its own line, in order. */
  lemma PrintLoopPrintsCounters(env: Env, fuel: nat, st: State, name: string, from: real, to: real, step: real,
                                show: real -> string, n: nat, v: Value)
    requires env.prefixHandlers == []
    requires forall x: real :: env.ops.asString(Number(x)) == Ok(show(x))
    requires step > 0.0 && n < fuel
    requires (n == 0 || Counter(from, step, n - 1) <= to) && to < Counter(from, step, n)
    ensures ForLoop(env, fuel, st, name, from, to, step, Some(PrintOf(GetVariable(name))), true, v)
         == CountedRun(st, name, from, step, x => show(x) + "\n", n, v)
  {
    PrintVariablePrintsCounter(env, fuel, name, show);
    ForCountsInOrder(env, fuel, st, name, from, to, step, Some(PrintOf(GetVariable(name))), x => show(x) + "\n", n, v);
  }

  /** The `logic_boolean` block holding FALSE. */
  function FalseBlock(): Block
  {
    Block("logic_boolean", [Field("BOOL", "FALSE")], [], [], None, None)
  }

  /** A conditional with a single test, `cond`, and no `DO0` body. */
  function IfOnly(cond: Block): Block
  {
    Block("controls_if", [], [Socket("IF0", [cond])], [], None, None)
  }

  /** With the default evaluators, a conditional with one test that converts
      to false yields nil from the state the test left. */
  lemma IfOnlyFalse(env: Env, fuel: nat, st: State, cond: Block, after: State)
    requires env.prefixHandlers == [] && fuel > 0
    requires EvaluateAs(env, fuel - 1, st, cond, env.ops.asBoolean) == Step(Got(false), after)
    ensures Evaluate(env, fuel, st, IfOnly(cond)) == Res(Normal(Nil), after)
  {
    assert IfName(0) == "IF0";
    assert SingleBlockValueWithName(IfOnly(cond), IfName(0)) == Ok(cond);
    assert EvaluateSocketAs(env, fuel - 1, st, IfOnly(cond), IfName(0), env.ops.asBoolean) == Step(Got(false), after);
    assert IfBranches(env, fuel - 1, st, IfOnly(cond), 0, 0, 0) == Res(Normal(Nil), after);
    assert Dispatch(env, fuel - 1, st, ControlsIf, IfOnly(cond)) == IfBranches(env, fuel - 1, st, IfOnly(cond), 0, 0, 0);
    assert FindEvaluator(env, "controls_if") == Some(ControlsIf);
    assert Evaluate(env, fuel, st, IfOnly(cond)) == Dispatch(env, fuel - 1, st, ControlsIf, IfOnly(cond));
  }

  /** A conditional whose only test is the constant false: with the default
      evaluators and a boolean conversion that reads `false` as false, it
      yields nil and changes nothing with any fuel of two or more. */
  lemma FalseConditionalIsNeutral(env: Env, fuel: nat)
    requires env.prefixHandlers == []
    requires env.ops.asBoolean(Bool(false)) == Ok(false)
    ensures Neutral(env, 2, fuel, Some(IfOnly(FalseBlock())))
  {
    forall f: nat, s: State | 2 <= f <= fuel
      ensures EvaluateStatement(env, f, s, Some(IfOnly(FalseBlock()))) == Res(Normal(Nil), s)
    {
      assert FindEvaluator(env, "logic_boolean") == Some(LogicBoolean);
      assert Evaluate(env, f - 1, s, FalseBlock()) == Res(Normal(Bool(false)), s);
      IfOnlyFalse(env, f, s, FalseBlock(), s);
    }
  }

  /** A step of zero or less never stops a loop whose body always completes. */
  lemma {:induction false} NonPositiveStepNeverStops(env: Env, fuel: nat, st: State, name: string, from: real,
                                                     to: real, step: real, body: Option<Block>, v: Value)
    requires step <= 0.0 && from <= to
    requires AlwaysCompletes(env, fuel, body)
    ensures ForLoop(env, fuel, st, name, from, to, step, body, true, v).out == OutOfFuel
    decreases fuel
  {
    if fuel > 0 {
      var r := EvaluateStatement(env, fuel, State(st.vars[name := Number(from)], st.console), body);
      if r.out.Normal? {
        NonPositiveStepNeverStops(env, fuel - 1, r.st, name, from + step, to, step, body, r.out.value);
      }
    }
  }

  /** In a for loop a break ends the loop, and a continue steps the counter. */
  lemma ForSignal(env: Env, fuel: nat, st: State, name: string, from: real, to: real, step: real,
                  body: Option<Block>, v: Value)
    requires fuel > 0 && from <= to
    ensures var r := EvaluateStatement(env, fuel, State(st.vars[name := Number(from)], st.console), body);
      (r.out == Signal(ThenBreak) ==> ForLoop(env, fuel, st, name, from, to, step, body, true, v) == Res(Normal(v), r.st))
      && (r.out == Signal(ThenContinue) ==>
            ForLoop(env, fuel, st, name, from, to, step, body, true, v)
            == ForLoop(env, fuel - 1, r.st, name, from + step, to, step, body, true, v))
  {
  }

  // ----------------------------------------------------------- forEach

  /** The lines printed for the elements `idx..` of `items`, one per element, in order. */
  function Printed(line: Value -> string, items: seq<Value>, idx: nat): (r: seq<string>)
    requires idx <= |items|
    decreases |items| - idx
  {
    if idx == |items| then [] else [line(items[idx])] + Printed(line, items, idx + 1)
  }

  /** The body prints `line` of the loop variable's value and changes nothing else. */
  ghost predicate PrintsVariable(env: Env, fuel: nat, body: Option<Block>, name: string, line: Value -> string)
  {
    forall s: State | name in s.vars ::
      EvaluateStatement(env, fuel, s, body) == Res(Normal(Nil), State(s.vars, s.console + [line(s.vars[name])]))
  }

  /** The outcome of the for-each loop from element `idx` over a body that
      prints the variable: the variable bound to the last element, when there
      is one left to visit, and one line per element printed. */
  function EachRun(st: State, name: string, items: seq<Value>, idx: nat, line: Value -> string): Res
    requires idx <= |items|
  {
    Res(Normal(Nil), State(if idx < |items| then st.vars[name := items[|items| - 1]] else st.vars,
                           st.console + Printed(line, items, idx)))
  }

  /** For-each binds the loop variable to each element in index order: such a
      body prints one line per element, in order, the variable is left bound
      to the last element, and the loop yields nil. */
  lemma {:induction false} ForEachInOrder(env: Env, fuel: nat, st: State, name: string, items: seq<Value>, idx: nat,
                                          body: Option<Block>, line: Value -> string)
    requires idx <= |items|
    requires PrintsVariable(env, fuel, body, name, line)
    ensures ForEachLoop(env, fuel, st, name, items, idx, body, true) == EachRun(st, name, items, idx, line)
    decreases |items| - idx
  {
    if idx < |items| {
      var next := State(st.vars[name := items[idx]], st.console + [line(items[idx])]);
      ForEachStep(env, fuel, st, name, items, idx, body, line);
      ForEachInOrder(env, fuel, next, name, items, idx + 1, body, line);
      EachRunStep(st, name, items, idx, line);
    } else {
      assert st.console + Printed(line, items, idx) == st.console;
    }
  }

  /** Visiting element `idx` and then the rest is visiting the elements from `idx`. */
  lemma EachRunStep(st: State, name: string, items: seq<Value>, idx: nat, line: Value -> string)
    requires idx < |items|
    ensures EachRun(State(st.vars[name := items[idx]], st.console + [line(items[idx])]), name, items, idx + 1, line)
         == EachRun(st, name, items, idx, line)
  {
    var next := State(st.vars[name := items[idx]], st.console + [line(items[idx])]);
    assert next.console + Printed(line, items, idx + 1) == st.console + Printed(line, items, idx);
    if idx + 1 < |items| {
      assert next.vars[name := items[|items| - 1]] == st.vars[name := items[|items| - 1]];
    }
  }

  /** One iteration of the for-each loop over a body that prints the variable. */
  lemma ForEachStep(env: Env, fuel: nat, st: State, name: string, items: seq<Value>, idx: nat,
                    body: Option<Block>, line: Value -> string)
    requires idx < |items|
    requires PrintsVariable(env, fuel, body, name, line)
    ensures ForEachLoop(env, fuel, st, name, items, idx, body, true)
         == ForEachLoop(env, fuel, State(st.vars[name := items[idx]], st.console + [line(items[idx])]),
                        name, items, idx + 1, body, true)
  {
    var bound := State(st.vars[name := items[idx]], st.console);
    assert name in bound.vars && bound.vars[name] == items[idx];
    assert EvaluateStatement(env, fuel, bound, body)
        == Res(Normal(Nil), State(bound.vars, bound.console + [line(items[idx])]));
  }

  /** For-each always yields nil when it completes normally. */
  lemma ForEachYieldsNil(env: Env, fuel: nat, st: State, b: Block)
    ensures ControlForEachEvaluator(env, fuel, st, b).out.Normal? ==> ControlForEachEvaluator(env, fuel, st, b).out.value == Nil
  {
    if SingleFieldWithName(b, "VAR").Ok? {
      var l := EvaluateSocketAs(env, fuel, st, b, "LIST", env.ops.asList);
      if l.flow.Got? {
        var r := ForEachLoop(env, fuel, l.st, SingleFieldWithName(b, "VAR").value, l.flow.val, 0,
                             SingleBlockStatementWithName(b, "DO"), true);
        assert ControlForEachEvaluator(env, fuel, st, b) == r;
      }
    }
  }

  /** In a for-each loop a break ends the loop, and a continue moves to the
      next element. */
  lemma ForEachSignal(env: Env, fuel: nat, st: State, name: string, items: seq<Value>, idx: nat, body: Option<Block>)
    requires idx < |items|
    ensures var r := EvaluateStatement(env, fuel, State(st.vars[name := items[idx]], st.console), body);
      (r.out == Signal(ThenBreak) ==> ForEachLoop(env, fuel, st, name, items, idx, body, true) == Res(Normal(Nil), r.st))
      && (r.out == Signal(ThenContinue) ==>
            ForEachLoop(env, fuel, st, name, items, idx, body, true) == ForEachLoop(env, fuel, r.st, name, items, idx + 1, body, true))
  {
  }
}
