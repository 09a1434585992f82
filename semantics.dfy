/** The evaluation semantics of the block interpreter, as functions.

    `Evaluate` is the dispatch-and-chain step; one function per evaluator gives
    that block type's meaning; the loops of the control evaluators are
    recursive functions whose arguments are the loop's variables. Every
    function threads a `State` (the flat variable namespace and the console)
    and returns an explicit `Outcome` in place of Go's panics: `Normal(v)` for a
    value, `Signal` for a pending break/continue, `Fail(msg)` for a failure.

    Loops can run forever (a while loop whose mode is neither WHILE nor UNTIL, a
    for loop with a non-positive step), so evaluation takes a `fuel` bound:
    every block evaluation below the top uses one unit of depth, and every while
    or for iteration one unit; when fuel runs out the outcome is `OutOfFuel`,
    which is not a behaviour of the interpreter but of the bound. */
module Semantics {
  import opened Values
  import opened Blocks

  /** Which kind of loop escape a flow statement raised (Go's `BreakType`). */
  datatype BreakType = ThenBreak | ThenContinue

  datatype Outcome =
    | Normal(value: Value)
    | Signal(kind: BreakType)
    | Fail(msg: string)
    | OutOfFuel

  /** The interpreter's mutable state during a run: the variable namespace and
      every chunk written to the console, in order. */
  datatype State = State(vars: map<string, Value>, console: seq<string>)

  datatype Res = Res(out: Outcome, st: State)

  /** An intermediate result: a value of type T, or an outcome that unwinds. */
  datatype Flow<+T> = Got(val: T) | Raised(out: Outcome)

  datatype Step<+T> = Step(flow: Flow<T>, st: State)

  /** A user-defined procedure: an optional body and an optional return expression. */
  datatype Proc = Proc(body: Option<Block>, ret: Option<Block>)

  /** The built-in evaluators a type tag can be mapped to. */
  datatype Handler =
    | ControlsIf | ControlsRepeatExt | ControlsWhileUntil | ControlsFor | ControlsForEach
    | ControlsFlowStatements
    | LogicCompare | LogicTernary | LogicBoolean | LogicOperation | LogicNegate
    | Text | TextJoin | TextPrint
    | VariablesSet | VariablesGet
    | ProceduresCall
    | Library

  /** What a run reads but never changes: the value conversions, the prefix
      handlers in the order they are consulted, the procedure table, and the
      effect of the number, list and colour evaluators of the default table,
      which belong to the value model and are a parameter here. */
  datatype Env = Env(
    ops: ValueOps,
    prefixHandlers: seq<(string, Handler)>,
    functions: map<string, Proc>,
    library: (State, Block) -> Res)

  /** The default evaluator table: every block type the interpreter knows
      without prefix handlers. */
  const Evaluators: map<string, Handler> := map[
    "controls_if" := ControlsIf,
    "controls_repeat_ext" := ControlsRepeatExt,
    "controls_whileUntil" := ControlsWhileUntil,
    "controls_for" := ControlsFor,
    "controls_forEach" := ControlsForEach,
    "controls_flow_statements" := ControlsFlowStatements,
    "logic_compare" := LogicCompare,
    "logic_ternary" := LogicTernary,
    "logic_boolean" := LogicBoolean,
    "logic_operation" := LogicOperation,
    "logic_negate" := LogicNegate,
    "math_number" := Library,
    "math_arithmetic" := Library,
    "text" := Text,
    "text_join" := TextJoin,
    "text_print" := TextPrint,
    "lists_create_empty" := Library,
    "lists_create_with" := Library,
    "lists_repeat" := Library,
    "lists_length" := Library,
    "lists_isEmpty" := Library,
    "lists_indexOf" := Library,
    "lists_getIndex" := Library,
    "lists_setIndex" := Library,
    "lists_getSublist" := Library,
    "lists_split" := Library,
    "colour_picker" := Library,
    "colour_random" := Library,
    "colour_rgb" := Library,
    "colour_blend" := Library,
    "variables_set" := VariablesSet,
    "variables_get" := VariablesGet]

  const NilBlockMessage := "runtime error: invalid memory address or nil pointer dereference"

  function NoEvaluatorMessage(tag: string): string
  {
    "No evaluator for block '" + tag + "'"
  }

  /** The message a break or continue reports when it escapes every loop. */
  function BreakEventError(t: BreakType): (msg: string)
    ensures t == ThenBreak ==> msg == "Break outside of loop."
    ensures t == ThenContinue ==> msg == "Continue outside of loop."
  {
    match t
    case ThenBreak => "Break outside of loop."
    case ThenContinue => "Continue outside of loop."
  }

  predicate HasPrefix(s: string, p: string)
  {
    |p| <= |s| && s[..|p|] == p
  }

  /** The handler of the first prefix entry that `tag` starts with. */
  function PrefixLookup(handlers: seq<(string, Handler)>, tag: string): (r: Option<Handler>)
    ensures r.None? <==> forall i :: 0 <= i < |handlers| ==> !HasPrefix(tag, handlers[i].0)
    ensures r.Some? ==> exists i :: (0 <= i < |handlers| && HasPrefix(tag, handlers[i].0)
      && handlers[i].1 == r.value && forall j :: 0 <= j < i ==> !HasPrefix(tag, handlers[j].0))
  {
    if handlers == [] then None
    else if HasPrefix(tag, handlers[0].0) then Some(handlers[0].1)
    else
      var r := PrefixLookup(handlers[1..], tag);
      assert r.Some? ==> exists i :: (1 <= i < |handlers| && HasPrefix(tag, handlers[i].0)
        && handlers[i].1 == r.value && forall j :: 0 <= j < i ==> !HasPrefix(tag, handlers[j].0)) by {
        if r.Some? {
          var i :| 0 <= i < |handlers[1..]| && HasPrefix(tag, handlers[1..][i].0)
            && handlers[1..][i].1 == r.value && forall j :: 0 <= j < i ==> !HasPrefix(tag, handlers[1..][j].0);
          assert forall j :: 0 <= j < i + 1 ==> !HasPrefix(tag, handlers[j].0) by {
            forall j | 0 <= j < i + 1 ensures !HasPrefix(tag, handlers[j].0) {
              if j > 0 { assert handlers[j] == handlers[1..][j - 1]; }
            }
          }
        }
      }
      r
  }

  /** Prefix handlers first, then the default table. */
  function FindEvaluator(env: Env, tag: string): Option<Handler>
  {
    match PrefixLookup(env.prefixHandlers, tag)
    case Some(h) => Some(h)
    case None => if tag in Evaluators then Some(Evaluators[tag]) else None
  }

  /** Evaluates a block and, when it has a `next` block, the rest of its
      chain, whose result replaces the block's own. */
  function Evaluate(env: Env, fuel: nat, st: State, b: Block): Res
    decreases fuel, 0, b
  {
    if fuel == 0 then Res(OutOfFuel, st)
    else match FindEvaluator(env, b.tag)
      case None => Res(Fail(NoEvaluatorMessage(b.tag)), st)
      case Some(h) =>
        var r := Dispatch(env, fuel - 1, st, h, b);
        if !r.out.Normal? || b.next.None? then r
        else Evaluate(env, fuel, r.st, b.next.value)
  }

  /** Evaluates a block that may be nil (a missing statement socket). */
  function EvaluateStatement(env: Env, fuel: nat, st: State, ob: Option<Block>): Res
    decreases fuel, 1
  {
    match ob
    case None => Res(Fail(NilBlockMessage), st)
    case Some(b) => Evaluate(env, fuel, st, b)
  }

  /** Evaluates a block and converts its value with `conv`. */
  function EvaluateAs<T>(env: Env, fuel: nat, st: State, b: Block, conv: Value -> Result<T>): (r: Step<T>)
    decreases fuel, 1
    ensures r.flow.Raised? ==> !r.flow.out.Normal?
  {
    var r := Evaluate(env, fuel, st, b);
    if !r.out.Normal? then Step(Raised(r.out), r.st)
    else match conv(r.out.value)
      case Err(m) => Step(Raised(Fail(m)), r.st)
      case Ok(x) => Step(Got(x), r.st)
  }

  /** Looks up a value socket's single block, evaluates and converts it. */
  function EvaluateSocketAs<T>(env: Env, fuel: nat, st: State, b: Block, name: string, conv: Value -> Result<T>)
    : (r: Step<T>)
    decreases fuel, 2
    ensures r.flow.Raised? ==> !r.flow.out.Normal?
  {
    match SingleBlockValueWithName(b, name)
    case Err(m) => Step(Raised(Fail(m)), st)
    case Ok(x) => EvaluateAs(env, fuel, st, x, conv)
  }

  function Dispatch(env: Env, fuel: nat, st: State, h: Handler, b: Block): Res
    decreases fuel, 5
  {
    match h
    case ControlsIf => ControlIfEvaluator(env, fuel, st, b)
    case ControlsRepeatExt => ControlRepeatExtEvaluator(env, fuel, st, b)
    case ControlsWhileUntil => ControlWhileUntil(env, fuel, st, b)
    case ControlsFor => ControlForEvaluator(env, fuel, st, b)
    case ControlsForEach => ControlForEachEvaluator(env, fuel, st, b)
    case ControlsFlowStatements => ControlFlowStatements(st, b)
    case LogicCompare => LogicCompareEvaluator(env, fuel, st, b)
    case LogicTernary => LogicTernaryEvaluator(env, fuel, st, b)
    case LogicBoolean => LogicBooleanEvaluator(st, b)
    case LogicOperation => LogicOperationEvaluator(env, fuel, st, b)
    case LogicNegate => LogicNegateEvaluator(env, fuel, st, b)
    case Text => TextEvaluator(st, b)
    case TextJoin => TextJoinEvaluator(env, fuel, st, b)
    case TextPrint => PrintEvaluator(env, fuel, st, b)
    case VariablesSet => VariableSetEvaluator(env, fuel, st, b)
    case VariablesGet => VariableGetEvaluator(st, b)
    case ProceduresCall => ProceduresFunctionCallEvaluator(env, fuel, st, b)
    case Library => env.library(st, b)
  }

  /** The chunks a run reports to the failure handler: one for a failure or an
      escaped break/continue, none otherwise. */
  function FailureReport(o: Outcome): (r: seq<string>)
    ensures |r| <= 1
    ensures |r| == 1 <==> o.Fail? || o.Signal?
    ensures o.Fail? ==> r == [o.msg]
    ensures o.Signal? ==> r == [BreakEventError(o.kind)]
  {
    match o
    case Fail(m) => [m]
    case Signal(t) => [BreakEventError(t)]
    case _ => []
  }

  function WriteToConsole(st: State, s: string): State
  {
    State(st.vars, st.console + [s + "\n"])
  }

  // ---------------------------------------------------------------- control

  function IfName(idx: nat): string { "IF" + NatToString(idx) }

  function DoName(idx: nat): string { "DO" + NatToString(idx) }

  function ControlIfEvaluator(env: Env, fuel: nat, st: State, b: Block): Res
    decreases fuel, 4
  {
    var elseIfs := if b.mutation.Some? then b.mutation.value.elseIf else 0;
    var elses := if b.mutation.Some? then b.mutation.value.elseCount else 0;
    IfBranches(env, fuel, st, b, 0, elseIfs, elses)
  }

  /** Branches `idx` to `elseIfs` of a conditional, then its `else`. */
  function IfBranches(env: Env, fuel: nat, st: State, b: Block, idx: nat, elseIfs: int, elses: int): Res
    decreases fuel, 3, if idx <= elseIfs then elseIfs + 1 - idx else 0
  {
    if idx <= elseIfs then
      var c := EvaluateSocketAs(env, fuel, st, b, IfName(idx), env.ops.asBoolean);
      match c.flow
      case Raised(o) => Res(o, c.st)
      case Got(test) =>
        if test then EvaluateStatement(env, fuel, c.st, SingleBlockStatementWithName(b, DoName(idx)))
        else IfBranches(env, fuel, c.st, b, idx + 1, elseIfs, elses)
    else if elses > 0 then EvaluateStatement(env, fuel, st, SingleBlockStatementWithName(b, "ELSE"))
    else Res(Normal(Nil), st)
  }

  function ControlRepeatExtEvaluator(env: Env, fuel: nat, st: State, b: Block): Res
    decreases fuel, 4
  {
    var body := SingleBlockStatementWithName(b, "DO");
    var t := EvaluateSocketAs(env, fuel, st, b, "TIMES", env.ops.asNumber);
    match t.flow
    case Raised(o) => Res(o, t.st)
    case Got(times) => RepeatLoop(env, fuel, t.st, body, Trunc(times), true, Nil)
  }

  /** The repeat loop from the state where `repeats` iterations are left. */
  function RepeatLoop(env: Env, fuel: nat, st: State, body: Option<Block>, repeats: int, continuing: bool, result: Value): Res
    decreases fuel, 3, if repeats > 0 then repeats else 0
  {
    if repeats > 0 && continuing then
      var r := EvaluateStatement(env, fuel, st, body);
      match r.out
      case Normal(v) => RepeatLoop(env, fuel, r.st, body, repeats - 1, continuing, v)
      case Signal(t) => RepeatLoop(env, fuel, r.st, body, repeats - 1, t == ThenContinue, result)
      case _ => r
    else Res(Normal(result), st)
  }

  function ControlWhileUntil(env: Env, fuel: nat, st: State, b: Block): Res
    decreases fuel, 4
  {
    match FieldWithName(b, "MODE")
    case None => Res(Fail("No MODE field in controls_whileUntil"), st)
    case Some(mode) =>
      match SingleBlockValueWithName(b, "BOOL")
      case Err(m) => Res(Fail(m), st)
      case Ok(cond) =>
        WhileLoop(env, fuel, st, mode, cond, SingleBlockStatementWithName(b, "DO"), true, Nil)
  }

  /** The test at the head of a while/until iteration: WHILE runs while the
      predicate holds, UNTIL while it does not, any other mode keeps running. */
  function WhileTest(env: Env, fuel: nat, st: State, mode: string, cond: Block): Step<bool>
    decreases fuel, 2
  {
    if mode == "WHILE" then EvaluateAs(env, fuel, st, cond, env.ops.asBoolean)
    else if mode == "UNTIL" then
      var c := EvaluateAs(env, fuel, st, cond, env.ops.asBoolean);
      match c.flow
      case Got(x) => Step(Got(!x), c.st)
      case Raised(o) => c
    else Step(Got(true), st)
  }

  function WhileLoop(env: Env, fuel: nat, st: State, mode: string, cond: Block, body: Option<Block>, running: bool, v: Value): Res
    decreases fuel, 3
  {
    if !running then Res(Normal(v), st)
    else if fuel == 0 then Res(OutOfFuel, st)
    else
      var c := WhileTest(env, fuel, st, mode, cond);
      match c.flow
      case Raised(o) => Res(o, c.st)
      case Got(test) =>
        if !test then Res(Normal(v), c.st)
        else
          var r := EvaluateStatement(env, fuel, c.st, body);
          match r.out
          case Normal(w) => WhileLoop(env, fuel - 1, r.st, mode, cond, body, true, w)
          case Signal(t) => WhileLoop(env, fuel - 1, r.st, mode, cond, body, t == ThenContinue, v)
          case _ => r
  }

  function ControlForEvaluator(env: Env, fuel: nat, st: State, b: Block): Res
    decreases fuel, 4
  {
    match FieldWithName(b, "VAR")
    case None => Res(Fail("No VAR field in controls_for"), st)
    case Some(name) =>
      var f := EvaluateSocketAs(env, fuel, st, b, "FROM", env.ops.asNumber);
      match f.flow
      case Raised(o) => Res(o, f.st)
      case Got(from) =>
        var t := EvaluateSocketAs(env, fuel, f.st, b, "TO", env.ops.asNumber);
        match t.flow
        case Raised(o) => Res(o, t.st)
        case Got(to) =>
          var s := EvaluateSocketAs(env, fuel, t.st, b, "BY", env.ops.asNumber);
          match s.flow
          case Raised(o) => Res(o, s.st)
          case Got(step) =>
            ForLoop(env, fuel, s.st, name, from, to, step, SingleBlockStatementWithName(b, "DO"), true, Nil)
  }

  /** The counted loop from the iteration whose counter value is `from`. */
  function ForLoop(env: Env, fuel: nat, st: State, name: string, from: real, to: real, step: real,
                   body: Option<Block>, running: bool, v: Value): Res
    decreases fuel, 3
  {
    if from <= to && running then
      if fuel == 0 then Res(OutOfFuel, st)
      else
        var r := EvaluateStatement(env, fuel, State(st.vars[name := Number(from)], st.console), body);
        match r.out
        case Normal(w) => ForLoop(env, fuel - 1, r.st, name, from + step, to, step, body, running, w)
        case Signal(t) => ForLoop(env, fuel - 1, r.st, name, from + step, to, step, body, t == ThenContinue, v)
        case _ => r
    else Res(Normal(v), st)
  }

  function ControlForEachEvaluator(env: Env, fuel: nat, st: State, b: Block): Res
    decreases fuel, 4
  {
    match SingleFieldWithName(b, "VAR")
    case Err(m) => Res(Fail(m), st)
    case Ok(name) =>
      var l := EvaluateSocketAs(env, fuel, st, b, "LIST", env.ops.asList);
      match l.flow
      case Raised(o) => Res(o, l.st)
      case Got(items) => ForEachLoop(env, fuel, l.st, name, items, 0, SingleBlockStatementWithName(b, "DO"), true)
  }

  /** The for-each loop from element `idx` on; it never yields a value. */
  function ForEachLoop(env: Env, fuel: nat, st: State, name: string, items: seq<Value>, idx: nat,
                       body: Option<Block>, running: bool): (r: Res)
    requires idx <= |items|
    decreases fuel, 3, |items| - idx
    ensures r.out.Normal? ==> r.out.value == Nil
  {
    if idx < |items| && running then
      var r := EvaluateStatement(env, fuel, State(st.vars[name := items[idx]], st.console), body);
      match r.out
      case Normal(_) => ForEachLoop(env, fuel, r.st, name, items, idx + 1, body, running)
      case Signal(t) => ForEachLoop(env, fuel, r.st, name, items, idx + 1, body, t == ThenContinue)
      case _ => r
    else Res(Normal(Nil), st)
  }

  function ControlFlowStatements(st: State, b: Block): (r: Res)
    ensures r.st == st
    ensures FieldWithName(b, "FLOW").None? <==> r.out == Fail("No FLOW field in controls_flow_statements")
    ensures r.out == Signal(ThenBreak) <==> FieldWithName(b, "FLOW") == Some("BREAK")
    ensures r.out == Signal(ThenContinue) <==> FieldWithName(b, "FLOW") == Some("CONTINUE")
    ensures FieldWithName(b, "FLOW").Some? && FieldWithName(b, "FLOW").value !in {"BREAK", "CONTINUE"}
        ==> r.out == Normal(Nil)
  {
    match FieldWithName(b, "FLOW")
    case None => Res(Fail("No FLOW field in controls_flow_statements"), st)
    case Some(flow) =>
      if flow == "BREAK" then Res(Signal(ThenBreak), st)
      else if flow == "CONTINUE" then Res(Signal(ThenContinue), st)
      else Res(Normal(Nil), st)
  }

  // -------------------------------------------------------------- procedures

  function ArgName(idx: nat): string { "ARG" + NatToString(idx) }

  /** The failure of a call to `call` whose socket for parameter `arg` is missing. */
  function NoArgumentMessage(call: string, arg: string): string
  {
    "calling '" + call + "': No value specified for argument '" + arg + "'"
  }

  /** The failure of a call to `call` whose socket for parameter `arg` does not
      hold exactly one block. */
  function ArgumentBlockMessage(call: string, arg: string): string
  {
    "calling '" + call + "': Missing block for argument '" + arg + "'"
  }

  /** Evaluates the arguments `idx..` of a call in the caller's namespace,
      collecting them by parameter name. */
  function EvaluateArguments(env: Env, fuel: nat, st: State, b: Block, m: Mutation, idx: nat,
                             argMap: map<string, Value>): (r: Step<map<string, Value>>)
    requires idx <= |m.args|
    decreases fuel, 3, |m.args| - idx
    ensures r.flow.Raised? ==> !r.flow.out.Normal?
    ensures r.flow.Got? ==> forall j :: idx <= j < |m.args| ==>
      BlockValueWithName(b, ArgName(j)).Some? && |BlockValueWithName(b, ArgName(j)).value| == 1
  {
    if idx == |m.args| then Step(Got(argMap), st)
    else
      var arg := m.args[idx];
      match BlockValueWithName(b, ArgName(idx))
      case None =>
        Step(Raised(Fail(NoArgumentMessage(m.name, arg))), st)
      case Some(bs) =>
        if |bs| != 1 then
          Step(Raised(Fail(ArgumentBlockMessage(m.name, arg))), st)
        else
          var r := Evaluate(env, fuel, st, bs[0]);
          if !r.out.Normal? then Step(Raised(r.out), r.st)
          else EvaluateArguments(env, fuel, r.st, b, m, idx + 1, argMap[arg := r.out.value])
  }

  function ProceduresFunctionCallEvaluator(env: Env, fuel: nat, st: State, b: Block): Res
    decreases fuel, 4
  {
    match b.mutation
    case None => Res(Fail("Missing mutation in procedure call."), st)
    case Some(m) =>
      if m.name !in env.functions then Res(Fail("Unknown function name '" + m.name + "'"), st)
      else
        var a := EvaluateArguments(env, fuel, st, b, m, 0, map[]);
        match a.flow
        case Raised(o) => Res(o, a.st)
        case Got(argMap) => CallProcedure(env, fuel, a.st, env.functions[m.name], argMap)
  }

  /** Shadows the parameters, runs the body and the return expression, and
      unshadows, the last only when both completed normally. */
  function CallProcedure(env: Env, fuel: nat, st: State, p: Proc, argMap: map<string, Value>): Res
    decreases fuel, 3
  {
    var (shadowed, backup) := ShadowVariables(st.vars, argMap);
    var inCall := State(shadowed, st.console);
    var r := if p.body.Some? then Evaluate(env, fuel, inCall, p.body.value) else Res(Normal(Nil), inCall);
    if !r.out.Normal? then r
    else
      var rv := if p.ret.Some? then Evaluate(env, fuel, r.st, p.ret.value) else Res(Normal(Nil), r.st);
      if !rv.out.Normal? then rv
      else Res(rv.out, State(UnshadowVariables(rv.st.vars, argMap, backup), rv.st.console))
  }

  /** Binds every new name, and backs up the old value of each name that was bound. */
  function ShadowVariables(context: map<string, Value>, newVariables: map<string, Value>)
    : (r: (map<string, Value>, map<string, Value>))
    ensures forall k :: k in newVariables ==> k in r.0 && r.0[k] == newVariables[k]
    ensures forall k :: k !in newVariables ==> (k in r.0 <==> k in context)
    ensures forall k :: k !in newVariables && k in context ==> r.0[k] == context[k]
    ensures forall k :: k in r.1 <==> k in newVariables && k in context
    ensures forall k :: k in r.1 ==> r.1[k] == context[k]
  {
    (context + newVariables, map k | k in newVariables && k in context :: context[k])
  }

  /** Removes every shadowing name and restores its backed-up value, if any. */
  function UnshadowVariables(context: map<string, Value>, newVariables: map<string, Value>,
                             preShadow: map<string, Value>): (r: map<string, Value>)
    ensures forall k :: k in newVariables ==> (k in r <==> k in preShadow)
    ensures forall k :: k in newVariables && k in preShadow ==> r[k] == preShadow[k]
    ensures forall k :: k !in newVariables ==> (k in r <==> k in context)
    ensures forall k :: k !in newVariables && k in context ==> r[k] == context[k]
  {
    (context - newVariables.Keys) + map k | k in newVariables && k in preShadow :: preShadow[k]
  }

  // ------------------------------------------------------------------- logic

  /** The comparison operators, each built from `Equals` and `IsLessThan`
      with Go's left-to-right, short-circuit evaluation. */
  function CompareValues(ops: ValueOps, op: string, a: Value, b: Value): Result<bool>
  {
    if op == "EQ" then ops.equals(a, b)
    else if op == "NEQ" then
      match ops.equals(a, b)
      case Err(m) => Err(m)
      case Ok(e) => Ok(!e)
    else if op == "LT" then ops.isLessThan(a, b)
    else if op == "LTE" then
      match ops.isLessThan(a, b)
      case Err(m) => Err(m)
      case Ok(l) => if l then Ok(true) else ops.equals(a, b)
    else if op == "GT" then
      match ops.isLessThan(a, b)
      case Err(m) => Err(m)
      case Ok(l) =>
        if l then Ok(false)
        else match ops.equals(a, b)
          case Err(m) => Err(m)
          case Ok(e) => Ok(!e)
    else if op == "GTE" then
      match ops.isLessThan(a, b)
      case Err(m) => Err(m)
      case Ok(l) => Ok(!l)
    else Err("Unknown operator: " + op)
  }

  function LogicCompareEvaluator(env: Env, fuel: nat, st: State, b: Block): Res
    decreases fuel, 4
  {
    match SingleBlockValueWithName(b, "A")
    case Err(m) => Res(Fail(m), st)
    case Ok(aBlock) =>
      match SingleBlockValueWithName(b, "B")
      case Err(m) => Res(Fail(m), st)
      case Ok(bBlock) =>
        match FieldWithName(b, "OP")
        case None => Res(Fail("Missing operator in logic operation block."), st)
        case Some(op) =>
          var ra := Evaluate(env, fuel, st, aBlock);
          if !ra.out.Normal? then ra
          else
            var rb := Evaluate(env, fuel, ra.st, bBlock);
            if !rb.out.Normal? then rb
            else match CompareValues(env.ops, op, ra.out.value, rb.out.value)
              case Err(m) => Res(Fail(m), rb.st)
              case Ok(x) => Res(Normal(Bool(x)), rb.st)
  }

  function LogicTernaryEvaluator(env: Env, fuel: nat, st: State, b: Block): Res
    decreases fuel, 4
  {
    match SingleBlockValueWithName(b, "IF")
    case Err(m) => Res(Fail(m), st)
    case Ok(ifBlock) =>
      match SingleBlockValueWithName(b, "THEN")
      case Err(m) => Res(Fail(m), st)
      case Ok(thenBlock) =>
        match SingleBlockValueWithName(b, "ELSE")
        case Err(m) => Res(Fail(m), st)
        case Ok(elseBlock) =>
          var c := EvaluateAs(env, fuel, st, ifBlock, env.ops.asBoolean);
          match c.flow
          case Raised(o) => Res(o, c.st)
          case Got(test) =>
            if test then Evaluate(env, fuel, c.st, thenBlock) else Evaluate(env, fuel, c.st, elseBlock)
  }

  function LogicBooleanEvaluator(st: State, b: Block): (r: Res)
    ensures r.st == st
    ensures FieldWithName(b, "BOOL").None? ==> r.out == Fail("Boolean block has no BOOL field")
    ensures FieldWithName(b, "BOOL").Some? ==> r.out == Normal(Bool(FieldWithName(b, "BOOL").value == "TRUE"))
  {
    match FieldWithName(b, "BOOL")
    case None => Res(Fail("Boolean block has no BOOL field"), st)
    case Some(f) => if f == "TRUE" then Res(Normal(Bool(true)), st) else Res(Normal(Bool(false)), st)
  }

  function LogicOperationEvaluator(env: Env, fuel: nat, st: State, b: Block): Res
    decreases fuel, 4
  {
    match SingleBlockValueWithName(b, "A")
    case Err(m) => Res(Fail(m), st)
    case Ok(aBlock) =>
      match SingleBlockValueWithName(b, "B")
      case Err(m) => Res(Fail(m), st)
      case Ok(bBlock) =>
        match FieldWithName(b, "OP")
        case None => Res(Fail("Missing operator in logic operation block."), st)
        case Some(op) =>
          var ca := EvaluateAs(env, fuel, st, aBlock, env.ops.asBoolean);
          match ca.flow
          case Raised(o) => Res(o, ca.st)
          case Got(x) =>
            var cb := EvaluateAs(env, fuel, ca.st, bBlock, env.ops.asBoolean);
            match cb.flow
            case Raised(o) => Res(o, cb.st)
            case Got(y) =>
              if op == "AND" then Res(Normal(Bool(x && y)), cb.st)
              else if op == "OR" then Res(Normal(Bool(x || y)), cb.st)
              else Res(Fail("Unknown operator: " + op), cb.st)
  }

  function LogicNegateEvaluator(env: Env, fuel: nat, st: State, b: Block): Res
    decreases fuel, 4
  {
    var c := EvaluateSocketAs(env, fuel, st, b, "BOOL", env.ops.asBoolean);
    match c.flow
    case Raised(o) => Res(o, c.st)
    case Got(x) => Res(Normal(Bool(!x)), c.st)
  }

  // --------------------------------------------------------------- variables

  function VariableSetEvaluator(env: Env, fuel: nat, st: State, b: Block): Res
    decreases fuel, 4
  {
    match FieldWithName(b, "VAR")
    case None => Res(Fail("No VAR field in variables_set"), st)
    case Some(name) =>
      match SingleBlockValueWithName(b, "VALUE")
      case Err(m) => Res(Fail(m), st)
      case Ok(valueBlock) =>
        var r := Evaluate(env, fuel, st, valueBlock);
        if !r.out.Normal? then r
        else Res(Normal(Nil), State(r.st.vars[name := r.out.value], r.st.console))
  }

  function VariableGetEvaluator(st: State, b: Block): (r: Res)
    ensures r.st == st
    ensures FieldWithName(b, "VAR").None? ==> r.out == Fail("No VAR field in variables_get")
    ensures FieldWithName(b, "VAR").Some? ==>
      var name := FieldWithName(b, "VAR").value;
      (name in st.vars ==> r.out == Normal(st.vars[name]))
      && (name !in st.vars ==> r.out == Fail("No variable named '" + name + "'"))
  {
    match FieldWithName(b, "VAR")
    case None => Res(Fail("No VAR field in variables_get"), st)
    case Some(name) =>
      if name !in st.vars then Res(Fail("No variable named '" + name + "'"), st)
      else Res(Normal(st.vars[name]), st)
  }

  // -------------------------------------------------------------------- text

  function TextEvaluator(st: State, b: Block): (r: Res)
    ensures r.st == st
    ensures FieldWithName(b, "TEXT").None? ==> r.out == Fail("Text block has no TEXT field")
    ensures FieldWithName(b, "TEXT").Some? ==> r.out == Normal(Str(FieldWithName(b, "TEXT").value))
  {
    match FieldWithName(b, "TEXT")
    case None => Res(Fail("Text block has no TEXT field"), st)
    case Some(t) => Res(Normal(Str(t)), st)
  }

  const JoinSocketMessage := "A join block socket does not have exactly one block attached to it."

  function TextJoinEvaluator(env: Env, fuel: nat, st: State, b: Block): Res
    decreases fuel, 4
  {
    JoinFrom(env, fuel, st, b.values, 0, "")
  }

  /** The join loop from socket `idx` on, with `result` accumulated so far. */
  function JoinFrom(env: Env, fuel: nat, st: State, sockets: seq<Socket>, idx: nat, result: string): (r: Res)
    requires idx <= |sockets|
    decreases fuel, 3, |sockets| - idx
    ensures r.out.Normal? ==>
      r.out.value.Str? && |result| <= |r.out.value.text| && r.out.value.text[..|result|] == result
    ensures r.out.Normal? ==> forall j :: idx <= j < |sockets| ==> |sockets[j].blocks| == 1
  {
    if idx == |sockets| then Res(Normal(Str(result)), st)
    else if |sockets[idx].blocks| != 1 then Res(Fail(JoinSocketMessage), st)
    else
      var c := EvaluateAs(env, fuel, st, sockets[idx].blocks[0], env.ops.asString);
      match c.flow
      case Raised(o) => Res(o, c.st)
      case Got(s) =>
        var r := JoinFrom(env, fuel, c.st, sockets, idx + 1, result + s);
        assert r.out.Normal? ==> (result + s)[..|result|] == result;
        r
  }

  function PrintEvaluator(env: Env, fuel: nat, st: State, b: Block): Res
    decreases fuel, 4
  {
    match BlockValueWithName(b, "TEXT")
    case None => Res(Fail("Print block has no TEXT value"), st)
    case Some(bs) =>
      if |bs| != 1 then Res(Fail("Print block should have exactly one block attached to it."), st)
      else
        var c := EvaluateAs(env, fuel, st, bs[0], env.ops.asString);
        match c.flow
        case Raised(o) => Res(o, c.st)
        case Got(s) => Res(Normal(Nil), WriteToConsole(c.st, s))
  }
}
