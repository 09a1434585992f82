/** The interpreter as the imperative object it is: the variable namespace,
    the console and the failure handler's log are fields that the evaluators
    update in place, and the loops are loops. Every method is proved to do
    exactly what the `Semantics` function named in its postcondition describes
    (`CheckBreak` and `WriteToConsole` state their effect directly), so
    the properties proved there hold of these methods. */
module Engine {
  import opened Values
  import opened Blocks
  import opened Semantics

  class Interpreter {
    /** The value model's conversions and comparisons. */
    const ops: ValueOps
    /** Custom handlers, consulted before the default table, in this order. */
    const prefixHandlers: seq<(string, Handler)>
    /** The user-defined procedures, by name. */
    const functions: map<string, Proc>
    /** The effect of the number, list and colour evaluators. */
    const library: (State, Block) -> Res
    /** The variables of the current run. */
    var context: map<string, Value>
    /** Every chunk written to the console, in order. */
    var console: seq<string>
    /** Every message passed to the failure handler, in order. */
    var failures: seq<string>

    constructor (ops: ValueOps, prefixHandlers: seq<(string, Handler)>, functions: map<string, Proc>,
                 library: (State, Block) -> Res)
      ensures this.ops == ops && this.prefixHandlers == prefixHandlers
      ensures this.functions == functions && this.library == library
      ensures context == map[] && console == [] && failures == []
    {
      this.ops := ops;
      this.prefixHandlers := prefixHandlers;
      this.functions := functions;
      this.library := library;
      context := map[];
      console := [];
      failures := [];
    }

    function Config(): Env
    {
      Env(ops, prefixHandlers, functions, library)
    }

    function CurrentState(): State
      reads this
    {
      State(context, console)
    }

    method WriteToConsole(s: string)
      modifies this`console
      ensures console == old(console) + [s + "\n"]
    {
      console := console + [s + "\n"];
    }

    /** Evaluates a top-level block in a fresh namespace and reports a failure,
        or a break/continue that escaped every loop, to the failure handler. */
    method Run(fuel: nat, b: Block) returns (o: Outcome)
      modifies this`context, this`console, this`failures
      ensures Res(o, CurrentState()) == Semantics.Evaluate(Config(), fuel, State(map[], old(console)), b)
      ensures failures == old(failures) + FailureReport(o)
    {
      context := map[];
      o := Evaluate(fuel, b);
      match o
      case Fail(m) => failures := failures + [m];
      case Signal(t) => failures := failures + [BreakEventError(t)];
      case _ =>
    }

    /** The interception at the end of every loop iteration: a break or
        continue sets the continuation flag, anything else but normal
        completion is raised again unchanged. */
    method CheckBreak(pending: Outcome, continuing: bool) returns (continuing': bool, rethrown: Option<Outcome>)
      ensures pending.Normal? ==> continuing' == continuing && rethrown == None
      ensures pending.Signal? ==> continuing' == (pending.kind == ThenContinue) && rethrown == None
      ensures pending.Fail? || pending.OutOfFuel? ==> rethrown == Some(pending)
    {
      continuing', rethrown := continuing, None;
      match pending
      case Normal(_) =>
      case Signal(t) => continuing' := t == ThenContinue;
      case _ => rethrown := Some(pending);
    }

    /** The evaluator for `tag`: the first prefix handler `tag` starts with,
        else the default table's entry, if any. */
    method FindEvaluator(tag: string) returns (evaluator: Option<Handler>)
      ensures evaluator == Semantics.FindEvaluator(Config(), tag)
    {
      evaluator := None;
      var i := 0;
      while i < |prefixHandlers|
        invariant 0 <= i <= |prefixHandlers|
        invariant forall j :: 0 <= j < i ==> !HasPrefix(tag, prefixHandlers[j].0)
      {
        if HasPrefix(tag, prefixHandlers[i].0) {
          evaluator := Some(prefixHandlers[i].1);
          break;
        }
        i := i + 1;
      }
      assert evaluator == PrefixLookup(prefixHandlers, tag);
      if evaluator.None? && tag in Evaluators {
        evaluator := Some(Evaluators[tag]);
      }
    }

    method Evaluate(fuel: nat, b: Block) returns (o: Outcome)
      modifies this`context, this`console
      decreases fuel, 0, b
      ensures Res(o, CurrentState()) == Semantics.Evaluate(Config(), fuel, old(CurrentState()), b)
    {
      if fuel == 0 {
        return OutOfFuel;
      }
      var evaluator := FindEvaluator(b.tag);
      if evaluator.None? {
        return Fail(NoEvaluatorMessage(b.tag));
      }
      o := Dispatch(fuel - 1, evaluator.value, b);
      if o.Normal? && b.next.Some? {
        o := Evaluate(fuel, b.next.value);
      }
    }

    method EvaluateStatement(fuel: nat, ob: Option<Block>) returns (o: Outcome)
      modifies this`context, this`console
      decreases fuel, 1
      ensures Res(o, CurrentState()) == Semantics.EvaluateStatement(Config(), fuel, old(CurrentState()), ob)
    {
      if ob.None? {
        return Fail(NilBlockMessage);
      }
      o := Evaluate(fuel, ob.value);
    }

    method EvaluateAs<T>(fuel: nat, b: Block, conv: Value -> Result<T>) returns (f: Flow<T>)
      modifies this`context, this`console
      decreases fuel, 1
      ensures Step(f, CurrentState()) == Semantics.EvaluateAs(Config(), fuel, old(CurrentState()), b, conv)
    {
      var o := Evaluate(fuel, b);
      if !o.Normal? {
        return Raised(o);
      }
      match conv(o.value)
      case Err(m) => f := Raised(Fail(m));
      case Ok(x) => f := Got(x);
    }

    method EvaluateSocketAs<T>(fuel: nat, b: Block, name: string, conv: Value -> Result<T>) returns (f: Flow<T>)
      modifies this`context, this`console
      decreases fuel, 2
      ensures Step(f, CurrentState()) == Semantics.EvaluateSocketAs(Config(), fuel, old(CurrentState()), b, name, conv)
    {
      var x := SingleBlockValueWithName(b, name);
      if x.Err? {
        return Raised(Fail(x.msg));
      }
      f := EvaluateAs(fuel, x.value, conv);
    }

    method Dispatch(fuel: nat, h: Handler, b: Block) returns (o: Outcome)
      modifies this`context, this`console
      decreases fuel, 5
      ensures Res(o, CurrentState()) == Semantics.Dispatch(Config(), fuel, old(CurrentState()), h, b)
    {
      match h
      case ControlsIf => o := ControlIfEvaluator(fuel, b);
      case ControlsRepeatExt => o := ControlRepeatExtEvaluator(fuel, b);
      case ControlsWhileUntil => o := ControlWhileUntil(fuel, b);
      case ControlsFor => o := ControlForEvaluator(fuel, b);
      case ControlsForEach => o := ControlForEachEvaluator(fuel, b);
      case ControlsFlowStatements => o := ControlFlowStatements(b);
      case LogicCompare => o := LogicCompareEvaluator(fuel, b);
      case LogicTernary => o := LogicTernaryEvaluator(fuel, b);
      case LogicBoolean => o := LogicBooleanEvaluator(b);
      case LogicOperation => o := LogicOperationEvaluator(fuel, b);
      case LogicNegate => o := LogicNegateEvaluator(fuel, b);
      case Text => o := TextEvaluator(b);
      case TextJoin => o := TextJoinEvaluator(fuel, b);
      case TextPrint => o := PrintEvaluator(fuel, b);
      case VariablesSet => o := VariableSetEvaluator(fuel, b);
      case VariablesGet => o := VariableGetEvaluator(b);
      case ProceduresCall => o := ProceduresFunctionCallEvaluator(fuel, b);
      case Library =>
        var r := library(CurrentState(), b);
        o := r.out;
        context := r.st.vars;
        console := r.st.console;
    }

    // -------------------------------------------------------------- control

    method ControlIfEvaluator(fuel: nat, b: Block) returns (o: Outcome)
      modifies this`context, this`console
      decreases fuel, 4
      ensures Res(o, CurrentState()) == Semantics.ControlIfEvaluator(Config(), fuel, old(CurrentState()), b)
    {
      var elseIfs, elses := 0, 0;
      if b.mutation.Some? {
        elseIfs, elses := b.mutation.value.elseIf, b.mutation.value.elseCount;
      }
      ghost var target := IfBranches(Config(), fuel, CurrentState(), b, 0, elseIfs, elses);
      var idx: nat := 0;
      while idx <= elseIfs
        invariant IfBranches(Config(), fuel, CurrentState(), b, idx, elseIfs, elses) == target
        decreases elseIfs + 1 - idx
      {
        var test := EvaluateSocketAs(fuel, b, IfName(idx), ops.asBoolean);
        if test.Raised? {
          return test.out;
        }
        if test.val {
          o := EvaluateStatement(fuel, SingleBlockStatementWithName(b, DoName(idx)));
          return;
        }
        idx := idx + 1;
      }
      if elses > 0 {
        o := EvaluateStatement(fuel, SingleBlockStatementWithName(b, "ELSE"));
        return;
      }
      return Normal(Nil);
    }

    method ControlRepeatExtEvaluator(fuel: nat, b: Block) returns (o: Outcome)
      modifies this`context, this`console
      decreases fuel, 4
      ensures Res(o, CurrentState()) == Semantics.ControlRepeatExtEvaluator(Config(), fuel, old(CurrentState()), b)
    {
      var repeatedBlock := SingleBlockStatementWithName(b, "DO");
      var times := EvaluateSocketAs(fuel, b, "TIMES", ops.asNumber);
      if times.Raised? {
        return times.out;
      }
      var result := Nil;
      var continuing := true;
      var repeats := Trunc(times.val);
      ghost var target := RepeatLoop(Config(), fuel, CurrentState(), repeatedBlock, repeats, true, Nil);
      while repeats > 0 && continuing
        invariant RepeatLoop(Config(), fuel, CurrentState(), repeatedBlock, repeats, continuing, result) == target
        decreases if repeats > 0 then repeats else 0
      {
        var r := EvaluateStatement(fuel, repeatedBlock);
        var k, rethrown := CheckBreak(r, continuing);
        if rethrown.Some? {
          return rethrown.value;
        }
        if r.Normal? {
          result := r.value;
        }
        continuing := k;
        repeats := repeats - 1;
      }
      return Normal(result);
    }

    method ControlWhileUntil(fuel: nat, b: Block) returns (o: Outcome)
      modifies this`context, this`console
      decreases fuel, 4
      ensures Res(o, CurrentState()) == Semantics.ControlWhileUntil(Config(), fuel, old(CurrentState()), b)
    {
      var modeField := FieldWithName(b, "MODE");
      if modeField.None? {
        return Fail("No MODE field in controls_whileUntil");
      }
      var cond := SingleBlockValueWithName(b, "BOOL");
      if cond.Err? {
        return Fail(cond.msg);
      }
      o := WhileUntilLoop(fuel, modeField.value, cond.value, SingleBlockStatementWithName(b, "DO"));
    }

    /** The while/until loop: the test by mode, then the body, until the test
        stops it or a break does. */
    method WhileUntilLoop(fuel: nat, mode: string, cond: Block, body: Option<Block>) returns (o: Outcome)
      modifies this`context, this`console
      decreases fuel, 3
      ensures Res(o, CurrentState()) == WhileLoop(Config(), fuel, old(CurrentState()), mode, cond, body, true, Nil)
    {
      var running := true;
      var v := Nil;
      var steps: nat := fuel;
      while running
        invariant steps <= fuel
        invariant WhileLoop(Config(), steps, CurrentState(), mode, cond, body, running, v)
               == WhileLoop(Config(), fuel, old(CurrentState()), mode, cond, body, true, Nil)
        decreases steps, running
      {
        if steps == 0 {
          return OutOfFuel;
        }
        if mode == "WHILE" {
          var test := EvaluateAs(steps, cond, ops.asBoolean);
          if test.Raised? {
            return test.out;
          }
          running := test.val;
        } else if mode == "UNTIL" {
          var test := EvaluateAs(steps, cond, ops.asBoolean);
          if test.Raised? {
            return test.out;
          }
          running := !test.val;
        }
        if running {
          var r := EvaluateStatement(steps, body);
          var k, rethrown := CheckBreak(r, running);
          if rethrown.Some? {
            return rethrown.value;
          }
          if r.Normal? {
            v := r.value;
          }
          running := k;
          steps := steps - 1;
        }
      }
      return Normal(v);
    }

    method ControlForEvaluator(fuel: nat, b: Block) returns (o: Outcome)
      modifies this`context, this`console
      decreases fuel, 4
      ensures Res(o, CurrentState()) == Semantics.ControlForEvaluator(Config(), fuel, old(CurrentState()), b)
    {
      var varName := FieldWithName(b, "VAR");
      if varName.None? {
        return Fail("No VAR field in controls_for");
      }
      var fromValue := EvaluateSocketAs(fuel, b, "FROM", ops.asNumber);
      if fromValue.Raised? {
        return fromValue.out;
      }
      var toValue := EvaluateSocketAs(fuel, b, "TO", ops.asNumber);
      if toValue.Raised? {
        return toValue.out;
      }
      var byValue := EvaluateSocketAs(fuel, b, "BY", ops.asNumber);
      if byValue.Raised? {
        return byValue.out;
      }
      o := CountLoop(fuel, varName.value, fromValue.val, toValue.val, byValue.val,
                     SingleBlockStatementWithName(b, "DO"));
    }

    /** The counting loop of `controls_for`: binds the counter before each run
        of the body and steps it afterwards. */
    method CountLoop(fuel: nat, name: string, from: real, to: real, step: real, body: Option<Block>)
      returns (o: Outcome)
      modifies this`context, this`console
      decreases fuel, 3
      ensures Res(o, CurrentState()) == ForLoop(Config(), fuel, old(CurrentState()), name, from, to, step, body, true, Nil)
    {
      var running := true;
      var v := Nil;
      var counter := from;
      var steps: nat := fuel;
      while counter <= to && running
        invariant steps <= fuel
        invariant ForLoop(Config(), steps, CurrentState(), name, counter, to, step, body, running, v)
               == ForLoop(Config(), fuel, old(CurrentState()), name, from, to, step, body, true, Nil)
        decreases steps
      {
        if steps == 0 {
          return OutOfFuel;
        }
        context := context[name := Number(counter)];
        var r := EvaluateStatement(steps, body);
        var k, rethrown := CheckBreak(r, running);
        if rethrown.Some? {
          return rethrown.value;
        }
        if r.Normal? {
          v := r.value;
        }
        running := k;
        counter := counter + step;
        steps := steps - 1;
      }
      return Normal(v);
    }

    method ControlForEachEvaluator(fuel: nat, b: Block) returns (o: Outcome)
      modifies this`context, this`console
      decreases fuel, 4
      ensures Res(o, CurrentState()) == Semantics.ControlForEachEvaluator(Config(), fuel, old(CurrentState()), b)
    {
      var varName := SingleFieldWithName(b, "VAR");
      if varName.Err? {
        return Fail(varName.msg);
      }
      var list := EvaluateSocketAs(fuel, b, "LIST", ops.asList);
      if list.Raised? {
        return list.out;
      }
      var body := SingleBlockStatementWithName(b, "DO");
      var running := true;
      var idx := 0;
      ghost var target := ForEachLoop(Config(), fuel, CurrentState(), varName.value, list.val, 0, body, true);
      while idx < |list.val| && running
        invariant idx <= |list.val|
        invariant ForEachLoop(Config(), fuel, CurrentState(), varName.value, list.val, idx, body, running) == target
        decreases |list.val| - idx
      {
        context := context[varName.value := list.val[idx]];
        var r := EvaluateStatement(fuel, body);
        var k, rethrown := CheckBreak(r, running);
        if rethrown.Some? {
          return rethrown.value;
        }
        running := k;
        idx := idx + 1;
      }
      return Normal(Nil);
    }

    method ControlFlowStatements(b: Block) returns (o: Outcome)
      ensures Res(o, CurrentState()) == Semantics.ControlFlowStatements(CurrentState(), b)
    {
      var breakType := FieldWithName(b, "FLOW");
      if breakType.None? {
        return Fail("No FLOW field in controls_flow_statements");
      }
      if breakType.value == "BREAK" {
        return Signal(ThenBreak);
      } else if breakType.value == "CONTINUE" {
        return Signal(ThenContinue);
      }
      return Normal(Nil);
    }

    // ----------------------------------------------------------- procedures

    method ProceduresFunctionCallEvaluator(fuel: nat, b: Block) returns (o: Outcome)
      modifies this`context, this`console
      decreases fuel, 4
      ensures Res(o, CurrentState()) == Semantics.ProceduresFunctionCallEvaluator(Config(), fuel, old(CurrentState()), b)
    {
      if b.mutation.None? {
        return Fail("Missing mutation in procedure call.");
      }
      var m := b.mutation.value;
      if m.name !in functions {
        return Fail("Unknown function name '" + m.name + "'");
      }
      var proc := functions[m.name];
      var argMap: map<string, Value> := map[];
      var idx := 0;
      ghost var target := EvaluateArguments(Config(), fuel, CurrentState(), b, m, 0, map[]);
      while idx < |m.args|
        invariant idx <= |m.args|
        invariant EvaluateArguments(Config(), fuel, CurrentState(), b, m, idx, argMap) == target
      {
        var arg := m.args[idx];
        var bv := BlockValueWithName(b, ArgName(idx));
        if bv.None? {
          return Fail(NoArgumentMessage(m.name, arg));
        }
        if |bv.value| != 1 {
          return Fail(ArgumentBlockMessage(m.name, arg));
        }
        var r := Evaluate(fuel, bv.value[0]);
        if !r.Normal? {
          return r;
        }
        argMap := argMap[arg := r.value];
        idx := idx + 1;
      }
      o := CallProcedure(fuel, proc, argMap);
    }

    /** Shadows the parameters, runs the body and the return expression, and
        unshadows, the last only when both completed normally. */
    method CallProcedure(fuel: nat, proc: Proc, argMap: map<string, Value>) returns (o: Outcome)
      modifies this`context, this`console
      decreases fuel, 3
      ensures Res(o, CurrentState()) == Semantics.CallProcedure(Config(), fuel, old(CurrentState()), proc, argMap)
    {
      var shadowedVariables := ShadowVariables(argMap);
      if proc.body.Some? {
        var r := Evaluate(fuel, proc.body.value);
        if !r.Normal? {
          return r;
        }
      }
      var retval := Nil;
      if proc.ret.Some? {
        var r := Evaluate(fuel, proc.ret.value);
        if !r.Normal? {
          return r;
        }
        retval := r.value;
      }
      UnshadowVariables(argMap, shadowedVariables);
      return Normal(retval);
    }

    /** Binds each new name in place, returning the old values of the names
        that were bound. */
    method ShadowVariables(newVariables: map<string, Value>) returns (shadowedValues: map<string, Value>)
      modifies this`context
      ensures (context, shadowedValues) == Semantics.ShadowVariables(old(context), newVariables)
    {
      shadowedValues := map[];
      var keys := newVariables.Keys;
      ghost var done: set<string> := {};
      while keys != {}
        invariant keys + done == newVariables.Keys && keys !! done
        invariant forall k :: k in done ==> k in context && context[k] == newVariables[k]
        invariant forall k :: k !in done ==> (k in context <==> k in old(context))
        invariant forall k :: k !in done && k in context ==> context[k] == old(context)[k]
        invariant forall k :: k in shadowedValues <==> k in done && k in old(context)
        invariant forall k :: k in shadowedValues ==> shadowedValues[k] == old(context)[k]
        decreases keys
      {
        var k :| k in keys;
        if k in context {
          shadowedValues := shadowedValues[k := context[k]];
        }
        context := context[k := newVariables[k]];
        keys := keys - {k};
        done := done + {k};
      }
      assert context == old(context) + newVariables;
      assert shadowedValues == map k | k in newVariables && k in old(context) :: old(context)[k];
    }

    /** Deletes each shadowing name in place and restores its backed-up value. */
    method UnshadowVariables(newVariables: map<string, Value>, preShadow: map<string, Value>)
      modifies this`context
      ensures context == Semantics.UnshadowVariables(old(context), newVariables, preShadow)
    {
      var keys := newVariables.Keys;
      ghost var done: set<string> := {};
      while keys != {}
        invariant keys + done == newVariables.Keys && keys !! done
        invariant forall k :: k in done ==> (k in context <==> k in preShadow)
        invariant forall k :: k in done && k in preShadow ==> context[k] == preShadow[k]
        invariant forall k :: k !in done ==> (k in context <==> k in old(context))
        invariant forall k :: k !in done && k in context ==> context[k] == old(context)[k]
        decreases keys
      {
        var k :| k in keys;
        context := context - {k};
        if k in preShadow {
          context := context[k := preShadow[k]];
        }
        keys := keys - {k};
        done := done + {k};
      }
    }

    // ---------------------------------------------------------------- logic

    method LogicCompareEvaluator(fuel: nat, b: Block) returns (o: Outcome)
      modifies this`context, this`console
      decreases fuel, 4
      ensures Res(o, CurrentState()) == Semantics.LogicCompareEvaluator(Config(), fuel, old(CurrentState()), b)
    {
      var aBlock := SingleBlockValueWithName(b, "A");
      if aBlock.Err? {
        return Fail(aBlock.msg);
      }
      var bBlock := SingleBlockValueWithName(b, "B");
      if bBlock.Err? {
        return Fail(bBlock.msg);
      }
      var opField := FieldWithName(b, "OP");
      if opField.None? {
        return Fail("Missing operator in logic operation block.");
      }
      var aValue := Evaluate(fuel, aBlock.value);
      if !aValue.Normal? {
        return aValue;
      }
      var bValue := Evaluate(fuel, bBlock.value);
      if !bValue.Normal? {
        return bValue;
      }
      var result := CompareValues(ops, opField.value, aValue.value, bValue.value);
      if result.Err? {
        return Fail(result.msg);
      }
      return Normal(Bool(result.value));
    }

    method LogicTernaryEvaluator(fuel: nat, b: Block) returns (o: Outcome)
      modifies this`context, this`console
      decreases fuel, 4
      ensures Res(o, CurrentState()) == Semantics.LogicTernaryEvaluator(Config(), fuel, old(CurrentState()), b)
    {
      var ifBlock := SingleBlockValueWithName(b, "IF");
      if ifBlock.Err? {
        return Fail(ifBlock.msg);
      }
      var thenBlock := SingleBlockValueWithName(b, "THEN");
      if thenBlock.Err? {
        return Fail(thenBlock.msg);
      }
      var elseBlock := SingleBlockValueWithName(b, "ELSE");
      if elseBlock.Err? {
        return Fail(elseBlock.msg);
      }
      var test := EvaluateAs(fuel, ifBlock.value, ops.asBoolean);
      if test.Raised? {
        return test.out;
      }
      if test.val {
        o := Evaluate(fuel, thenBlock.value);
      } else {
        o := Evaluate(fuel, elseBlock.value);
      }
    }

    method LogicBooleanEvaluator(b: Block) returns (o: Outcome)
      ensures Res(o, CurrentState()) == Semantics.LogicBooleanEvaluator(CurrentState(), b)
    {
      var f := FieldWithName(b, "BOOL");
      if f.None? {
        return Fail("Boolean block has no BOOL field");
      }
      if f.value == "TRUE" {
        return Normal(Bool(true));
      } else {
        return Normal(Bool(false));
      }
    }

    method LogicOperationEvaluator(fuel: nat, b: Block) returns (o: Outcome)
      modifies this`context, this`console
      decreases fuel, 4
      ensures Res(o, CurrentState()) == Semantics.LogicOperationEvaluator(Config(), fuel, old(CurrentState()), b)
    {
      var aBlock := SingleBlockValueWithName(b, "A");
      if aBlock.Err? {
        return Fail(aBlock.msg);
      }
      var bBlock := SingleBlockValueWithName(b, "B");
      if bBlock.Err? {
        return Fail(bBlock.msg);
      }
      var opField := FieldWithName(b, "OP");
      if opField.None? {
        return Fail("Missing operator in logic operation block.");
      }
      var aValue := EvaluateAs(fuel, aBlock.value, ops.asBoolean);
      if aValue.Raised? {
        return aValue.out;
      }
      var bValue := EvaluateAs(fuel, bBlock.value, ops.asBoolean);
      if bValue.Raised? {
        return bValue.out;
      }
      if opField.value == "AND" {
        return Normal(Bool(aValue.val && bValue.val));
      } else if opField.value == "OR" {
        return Normal(Bool(aValue.val || bValue.val));
      }
      return Fail("Unknown operator: " + opField.value);
    }

    method LogicNegateEvaluator(fuel: nat, b: Block) returns (o: Outcome)
      modifies this`context, this`console
      decreases fuel, 4
      ensures Res(o, CurrentState()) == Semantics.LogicNegateEvaluator(Config(), fuel, old(CurrentState()), b)
    {
      var arg := EvaluateSocketAs(fuel, b, "BOOL", ops.asBoolean);
      if arg.Raised? {
        return arg.out;
      }
      return Normal(Bool(!arg.val));
    }

    // ------------------------------------------------------------ variables

    method VariableSetEvaluator(fuel: nat, b: Block) returns (o: Outcome)
      modifies this`context, this`console
      decreases fuel, 4
      ensures Res(o, CurrentState()) == Semantics.VariableSetEvaluator(Config(), fuel, old(CurrentState()), b)
    {
      var field := FieldWithName(b, "VAR");
      if field.None? {
        return Fail("No VAR field in variables_set");
      }
      var variableValue := SingleBlockValueWithName(b, "VALUE");
      if variableValue.Err? {
        return Fail(variableValue.msg);
      }
      var r := Evaluate(fuel, variableValue.value);
      if !r.Normal? {
        return r;
      }
      context := context[field.value := r.value];
      return Normal(Nil);
    }

    method VariableGetEvaluator(b: Block) returns (o: Outcome)
      ensures Res(o, CurrentState()) == Semantics.VariableGetEvaluator(CurrentState(), b)
    {
      var field := FieldWithName(b, "VAR");
      if field.None? {
        return Fail("No VAR field in variables_get");
      }
      if field.value !in context {
        return Fail("No variable named '" + field.value + "'");
      }
      return Normal(context[field.value]);
    }

    // ----------------------------------------------------------------- text

    method TextEvaluator(b: Block) returns (o: Outcome)
      ensures Res(o, CurrentState()) == Semantics.TextEvaluator(CurrentState(), b)
    {
      var f := FieldWithName(b, "TEXT");
      if f.None? {
        return Fail("Text block has no TEXT field");
      }
      return Normal(Str(f.value));
    }

    method TextJoinEvaluator(fuel: nat, b: Block) returns (o: Outcome)
      modifies this`context, this`console
      decreases fuel, 4
      ensures Res(o, CurrentState()) == Semantics.TextJoinEvaluator(Config(), fuel, old(CurrentState()), b)
    {
      var result := "";
      var idx := 0;
      ghost var target := JoinFrom(Config(), fuel, CurrentState(), b.values, 0, "");
      while idx < |b.values|
        invariant idx <= |b.values|
        invariant JoinFrom(Config(), fuel, CurrentState(), b.values, idx, result) == target
      {
        var v := b.values[idx];
        if |v.blocks| != 1 {
          return Fail(JoinSocketMessage);
        }
        var s := EvaluateAs(fuel, v.blocks[0], ops.asString);
        if s.Raised? {
          return s.out;
        }
        result := result + s.val;
        idx := idx + 1;
      }
      return Normal(Str(result));
    }

    method PrintEvaluator(fuel: nat, b: Block) returns (o: Outcome)
      modifies this`context, this`console
      decreases fuel, 4
      ensures Res(o, CurrentState()) == Semantics.PrintEvaluator(Config(), fuel, old(CurrentState()), b)
    {
      var v := BlockValueWithName(b, "TEXT");
      if v.None? {
        return Fail("Print block has no TEXT value");
      }
      if |v.value| != 1 {
        return Fail("Print block should have exactly one block attached to it.");
      }
      var s := EvaluateAs(fuel, v.value[0], ops.asString);
      if s.Raised? {
        return s.out;
      }
      WriteToConsole(s.val);
      return Normal(Nil);
    }
  }
}
