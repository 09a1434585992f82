/** Properties of procedure calls: argument evaluation, the shadowing of the
    parameters in the single flat namespace, and when that shadowing is undone. */
module ProcedureLaws {
  import opened Values
  import opened Blocks
  import opened Semantics

  /** Unshadowing with the backup that shadowing produced gives every parameter
      name back its state from before the call (bound to the same value, or
      absent), whatever the body did to the namespace in between; every other
      name keeps the value the body left. */
  lemma ShadowUnshadowRestores(context: map<string, Value>, newVariables: map<string, Value>,
                               inBetween: map<string, Value>)
    ensures var backup := ShadowVariables(context, newVariables).1;
      var restored := UnshadowVariables(inBetween, newVariables, backup);
      && (forall k :: k in newVariables ==> (k in restored <==> k in context))
      && (forall k :: k in newVariables && k in context ==> restored[k] == context[k])
      && (forall k :: k !in newVariables ==> (k in restored <==> k in inBetween))
      && (forall k :: k !in newVariables && k in inBetween ==> restored[k] == inBetween[k])
  {
  }

  /** With nothing happening in between, unshadowing undoes shadowing exactly. */
  lemma ShadowUnshadowIdentity(context: map<string, Value>, newVariables: map<string, Value>)
    ensures var (shadowed, backup) := ShadowVariables(context, newVariables);
      UnshadowVariables(shadowed, newVariables, backup) == context
  {
    var (shadowed, backup) := ShadowVariables(context, newVariables);
    var restored := UnshadowVariables(shadowed, newVariables, backup);
    ShadowUnshadowRestores(context, newVariables, shadowed);
    assert restored.Keys == context.Keys;
  }

  /** The parameter names `idx..` of a call. */
  function Parameters(args: seq<string>, idx: nat): set<string>
    requires idx <= |args|
    decreases |args| - idx
  {
    if idx == |args| then {} else {args[idx]} + Parameters(args, idx + 1)
  }

  /** Evaluating the arguments `idx..` adds exactly the parameter names
      `idx..` to the accumulated map and keeps every other entry. */
  lemma {:induction false} ArgumentsBindParameters(env: Env, fuel: nat, st: State, b: Block, m: Mutation, idx: nat,
                                                   argMap: map<string, Value>)
    requires idx <= |m.args|
    ensures var r := EvaluateArguments(env, fuel, st, b, m, idx, argMap);
      r.flow.Got? ==>
        && r.flow.val.Keys == argMap.Keys + Parameters(m.args, idx)
        && forall k :: k in argMap && k !in Parameters(m.args, idx) ==> r.flow.val[k] == argMap[k]
    decreases |m.args| - idx
  {
    if idx < |m.args| {
      var bs := BlockValueWithName(b, ArgName(idx));
      if bs.Some? && |bs.value| == 1 {
        var r := Evaluate(env, fuel, st, bs.value[0]);
        if r.out.Normal? {
          var acc := argMap[m.args[idx] := r.out.value];
          assert EvaluateArguments(env, fuel, st, b, m, idx, argMap)
              == EvaluateArguments(env, fuel, r.st, b, m, idx + 1, acc);
          ArgumentsBindParameters(env, fuel, r.st, b, m, idx + 1, acc);
        }
      }
    }
  }

  /** What argument evaluation does besides collecting the values: the state
      it leaves, and the outcome it escapes with, if any. */
  function Effect(r: Step<map<string, Value>>): (State, Option<Outcome>)
  {
    (r.st, if r.flow.Raised? then Some(r.flow.out) else None)
  }

  /** Arguments are evaluated in the caller's namespace before any parameter
      is bound: the accumulated map is not part of the state, so it cannot
      change how an argument evaluates, only what the call binds. */
  lemma {:induction false} ArgumentsIgnoreAccumulator(env: Env, fuel: nat, st: State, b: Block, m: Mutation, idx: nat,
                                                      acc1: map<string, Value>, acc2: map<string, Value>)
    requires idx <= |m.args|
    ensures Effect(EvaluateArguments(env, fuel, st, b, m, idx, acc1))
         == Effect(EvaluateArguments(env, fuel, st, b, m, idx, acc2))
    decreases |m.args| - idx
  {
    if idx < |m.args| {
      var bs := BlockValueWithName(b, ArgName(idx));
      if bs.Some? && |bs.value| == 1 {
        var r := Evaluate(env, fuel, st, bs.value[0]);
        if r.out.Normal? {
          ArgumentsIgnoreAccumulator(env, fuel, r.st, b, m, idx + 1,
                                     acc1[m.args[idx] := r.out.value], acc2[m.args[idx] := r.out.value]);
        }
      }
    }
  }

  /** Argument evaluation stops at the first bad socket: a missing `ARG<idx>`
      socket, or one not holding exactly one block, fails with the message
      naming the call and the parameter, before that argument is evaluated. */
  lemma ArgumentNeedsOneBlock(env: Env, fuel: nat, st: State, b: Block, m: Mutation, idx: nat,
                              argMap: map<string, Value>)
    requires idx < |m.args|
    ensures BlockValueWithName(b, ArgName(idx)).None? ==>
      EvaluateArguments(env, fuel, st, b, m, idx, argMap)
        == Step(Raised(Fail(NoArgumentMessage(m.name, m.args[idx]))), st)
    ensures BlockValueWithName(b, ArgName(idx)).Some? && |BlockValueWithName(b, ArgName(idx)).value| != 1 ==>
      EvaluateArguments(env, fuel, st, b, m, idx, argMap)
        == Step(Raised(Fail(ArgumentBlockMessage(m.name, m.args[idx]))), st)
  {
  }

  /** Socket `ARG<j>` holds one block, which evaluates from `before` normally
      to `v`, leaving `after`. */
  ghost predicate ArgYields(env: Env, fuel: nat, b: Block, j: nat, before: State, v: Value, after: State)
  {
    && BlockValueWithName(b, ArgName(j)).Some?
    && |BlockValueWithName(b, ArgName(j)).value| == 1
    && Evaluate(env, fuel, before, BlockValueWithName(b, ArgName(j)).value[0]) == Res(Normal(v), after)
  }

  /** Binds `names[i]` to `vals[i]` in order on top of `acc`, so that of a
      repeated name the last binding wins. */
  function Bind(names: seq<string>, vals: seq<Value>, acc: map<string, Value>): (r: map<string, Value>)
    requires |names| == |vals|
    ensures forall k :: k in names ==> k in r
    ensures forall k :: k !in names ==> (k in r <==> k in acc)
    ensures forall k :: k !in names && k in acc ==> r[k] == acc[k]
  {
    if names == [] then acc else Bind(names[1..], vals[1..], acc[names[0] := vals[0]])
  }

  /** A name bound at position `i` and never again afterwards ends up bound
      to `vals[i]`. */
  lemma {:induction false} BindLastWins(names: seq<string>, vals: seq<Value>, acc: map<string, Value>, i: nat)
    requires |names| == |vals| && i < |names|
    requires forall j :: i < j < |names| ==> names[j] != names[i]
    ensures names[i] in Bind(names, vals, acc) && Bind(names, vals, acc)[names[i]] == vals[i]
    decreases i
  {
    if i == 0 {
      assert names[0] !in names[1..];
    } else {
      BindLastWins(names[1..], vals[1..], acc[names[0] := vals[0]], i - 1);
    }
  }

  /** When arguments `idx..j-1` each evaluate normally, threading the states
      `sts`, evaluating the arguments from `idx` is evaluating them from `j`
      with those values bound in order. */
  lemma {:induction false} ArgumentsThread(env: Env, fuel: nat, b: Block, m: Mutation, idx: nat, j: nat,
                                           sts: seq<State>, vals: seq<Value>, argMap: map<string, Value>)
    requires idx <= j <= |m.args| && |sts| == j + 1 && |vals| == j
    requires forall i :: idx <= i < j ==> ArgYields(env, fuel, b, i, sts[i], vals[i], sts[i + 1])
    ensures EvaluateArguments(env, fuel, sts[idx], b, m, idx, argMap)
         == EvaluateArguments(env, fuel, sts[j], b, m, j, Bind(m.args[idx..j], vals[idx..j], argMap))
    decreases j - idx
  {
    if idx < j {
      assert ArgYields(env, fuel, b, idx, sts[idx], vals[idx], sts[idx + 1]);
      var acc := argMap[m.args[idx] := vals[idx]];
      assert EvaluateArguments(env, fuel, sts[idx], b, m, idx, argMap)
          == EvaluateArguments(env, fuel, sts[idx + 1], b, m, idx + 1, acc);
      ArgumentsThread(env, fuel, b, m, idx + 1, j, sts, vals, acc);
      assert m.args[idx..j][1..] == m.args[idx + 1..j] && vals[idx..j][1..] == vals[idx + 1..j];
    }
  }

  /** When every argument from `idx` evaluates normally, threading the states
      `sts`, argument evaluation binds each parameter to its argument's value,
      in order, and leaves the state the last argument left. */
  lemma ArgumentsBindValues(env: Env, fuel: nat, b: Block, m: Mutation, idx: nat, sts: seq<State>,
                            vals: seq<Value>, argMap: map<string, Value>)
    requires idx <= |m.args| && |sts| == |m.args| + 1 && |vals| == |m.args|
    requires forall j :: idx <= j < |m.args| ==> ArgYields(env, fuel, b, j, sts[j], vals[j], sts[j + 1])
    ensures EvaluateArguments(env, fuel, sts[idx], b, m, idx, argMap)
         == Step(Got(Bind(m.args[idx..], vals[idx..], argMap)), sts[|m.args|])
  {
    ArgumentsThread(env, fuel, b, m, idx, |m.args|, sts, vals, argMap);
    assert m.args[idx..|m.args|] == m.args[idx..] && vals[idx..|m.args|] == vals[idx..];
  }

  /** A call whose arguments all evaluate normally runs the procedure with
      each parameter bound to its argument's value, from the state the last
      argument left. */
  lemma CallPassesArguments(env: Env, fuel: nat, b: Block, m: Mutation, sts: seq<State>, vals: seq<Value>)
    requires b.mutation == Some(m) && m.name in env.functions
    requires |sts| == |m.args| + 1 && |vals| == |m.args|
    requires forall j :: 0 <= j < |m.args| ==> ArgYields(env, fuel, b, j, sts[j], vals[j], sts[j + 1])
    ensures ProceduresFunctionCallEvaluator(env, fuel, sts[0], b)
         == CallProcedure(env, fuel, sts[|m.args|], env.functions[m.name], Bind(m.args, vals, map[]))
  {
    ArgumentsBindValues(env, fuel, b, m, 0, sts, vals, map[]);
    assert m.args[0..] == m.args && vals[0..] == vals;
  }

  /** A call whose arguments before `j` evaluate normally and whose socket
      `ARG<j>` is missing, or does not hold exactly one block, fails with the
      message naming the call and parameter `j`, in the state the earlier
      arguments left; the procedure is never entered. */
  lemma CallNeedsEveryArgument(env: Env, fuel: nat, b: Block, m: Mutation, j: nat, sts: seq<State>,
                               vals: seq<Value>)
    requires b.mutation == Some(m) && m.name in env.functions
    requires j < |m.args| && |sts| == j + 1 && |vals| == j
    requires forall i :: 0 <= i < j ==> ArgYields(env, fuel, b, i, sts[i], vals[i], sts[i + 1])
    ensures BlockValueWithName(b, ArgName(j)).None? ==>
      ProceduresFunctionCallEvaluator(env, fuel, sts[0], b) == Res(Fail(NoArgumentMessage(m.name, m.args[j])), sts[j])
    ensures BlockValueWithName(b, ArgName(j)).Some? && |BlockValueWithName(b, ArgName(j)).value| != 1 ==>
      ProceduresFunctionCallEvaluator(env, fuel, sts[0], b) == Res(Fail(ArgumentBlockMessage(m.name, m.args[j])), sts[j])
  {
    ArgumentsThread(env, fuel, b, m, 0, j, sts, vals, map[]);
    ArgumentNeedsOneBlock(env, fuel, sts[j], b, m, j, Bind(m.args[0..j], vals[0..j], map[]));
  }

  /** A call fails when the mutation is missing or names no known procedure. */
  lemma CallNeedsKnownProcedure(env: Env, fuel: nat, st: State, b: Block)
    ensures b.mutation.None? ==>
      ProceduresFunctionCallEvaluator(env, fuel, st, b) == Res(Fail("Missing mutation in procedure call."), st)
    ensures b.mutation.Some? && b.mutation.value.name !in env.functions ==>
      ProceduresFunctionCallEvaluator(env, fuel, st, b)
      == Res(Fail("Unknown function name '" + b.mutation.value.name + "'"), st)
  {
  }

  /** A call that completes normally leaves every parameter name as it was
      before the call, and yields the return expression's value, evaluated
      after the body with the parameters still bound, or nil when the
      procedure has none. */
  lemma CallRestoresParameters(env: Env, fuel: nat, st: State, p: Proc, argMap: map<string, Value>)
    ensures var inCall := State(st.vars + argMap, st.console);
      var rb := if p.body.Some? then Evaluate(env, fuel, inCall, p.body.value) else Res(Normal(Nil), inCall);
      var r := CallProcedure(env, fuel, st, p, argMap);
      r.out.Normal? ==>
        && (forall k :: k in argMap ==> (k in r.st.vars <==> k in st.vars))
        && (forall k :: k in argMap && k in st.vars ==> r.st.vars[k] == st.vars[k])
        && rb.out.Normal?
        && (p.ret.Some? ==> r.out == Evaluate(env, fuel, rb.st, p.ret.value).out)
        && (p.ret.None? ==> r.out == Normal(Nil))
  {
    var (shadowed, backup) := ShadowVariables(st.vars, argMap);
    var inCall := State(shadowed, st.console);
    var rb := if p.body.Some? then Evaluate(env, fuel, inCall, p.body.value) else Res(Normal(Nil), inCall);
    if rb.out.Normal? {
      var rv := if p.ret.Some? then Evaluate(env, fuel, rb.st, p.ret.value) else Res(Normal(Nil), rb.st);
      if rv.out.Normal? {
        ShadowUnshadowRestores(st.vars, argMap, rv.st.vars);
      }
    }
  }

  /** Restoring is not deferred: when the body fails or raises a break or
      continue, that outcome escapes with the parameters still bound. */
  lemma EscapeSkipsRestore(env: Env, fuel: nat, st: State, p: Proc, argMap: map<string, Value>)
    requires p.body.Some?
    ensures var r := Evaluate(env, fuel, State(st.vars + argMap, st.console), p.body.value);
      !r.out.Normal? ==> CallProcedure(env, fuel, st, p, argMap) == r
  {
  }
}
