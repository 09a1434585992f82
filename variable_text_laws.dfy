/** Properties of the variable and text blocks. */
module VariableTextLaws {
  import opened Values
  import opened Blocks
  import opened Semantics

  /** Set binds VAR to the value of VALUE, leaves every other variable and the
      console as the evaluation of VALUE left them, and yields nil. */
  lemma SetBindsOnlyVar(env: Env, fuel: nat, st: State, b: Block)
    requires FieldWithName(b, "VAR").Some? && SingleBlockValueWithName(b, "VALUE").Ok?
    ensures var r := Evaluate(env, fuel, st, SingleBlockValueWithName(b, "VALUE").value);
      var name := FieldWithName(b, "VAR").value;
      var s := VariableSetEvaluator(env, fuel, st, b);
      r.out.Normal? ==>
        && s.out == Normal(Nil)
        && s.st.console == r.st.console
        && name in s.st.vars && s.st.vars[name] == r.out.value
        && (forall k :: k != name ==> (k in s.st.vars <==> k in r.st.vars))
        && (forall k :: k != name && k in r.st.vars ==> s.st.vars[k] == r.st.vars[k])
  {
  }

  /** Getting a variable right after setting it yields the value just set. */
  lemma SetThenGet(env: Env, fuel: nat, st: State, setBlock: Block, getBlock: Block)
    requires FieldWithName(setBlock, "VAR").Some?
    requires FieldWithName(getBlock, "VAR") == FieldWithName(setBlock, "VAR")
    requires VariableSetEvaluator(env, fuel, st, setBlock).out.Normal?
    ensures var s := VariableSetEvaluator(env, fuel, st, setBlock);
      VariableGetEvaluator(s.st, getBlock) == Res(Normal(Evaluate(env, fuel, st,
        SingleBlockValueWithName(setBlock, "VALUE").value).out.value), s.st)
  {
    SetBindsOnlyVar(env, fuel, st, setBlock);
  }

  /** Both variable blocks fail on a missing VAR field without any effect. */
  lemma VariableBlocksNeedVar(env: Env, fuel: nat, st: State, b: Block)
    requires FieldWithName(b, "VAR").None?
    ensures VariableSetEvaluator(env, fuel, st, b) == Res(Fail("No VAR field in variables_set"), st)
    ensures VariableGetEvaluator(st, b) == Res(Fail("No VAR field in variables_get"), st)
  {
  }

  /** The concatenation of a sequence of strings, in order. */
  function Concat(parts: seq<string>): string
  {
    if parts == [] then "" else parts[0] + Concat(parts[1..])
  }

  /** The join of the sockets `idx..`: when socket `j` holds one block whose
      string is `strs[j]`, threading the states `sts`, the result is the
      accumulated text followed by those strings in socket order, from the
      state the last socket left. */
  lemma {:induction false} JoinConcatenates(env: Env, fuel: nat, sockets: seq<Socket>, idx: nat, result: string,
                                            sts: seq<State>, strs: seq<string>)
    requires idx <= |sockets| && |sts| == |sockets| + 1 && |strs| == |sockets|
    requires forall j :: idx <= j < |sockets| ==>
      |sockets[j].blocks| == 1
      && EvaluateAs(env, fuel, sts[j], sockets[j].blocks[0], env.ops.asString) == Step(Got(strs[j]), sts[j + 1])
    ensures JoinFrom(env, fuel, sts[idx], sockets, idx, result)
         == Res(Normal(Str(result + Concat(strs[idx..]))), sts[|sockets|])
    decreases |sockets| - idx
  {
    if idx < |sockets| {
      JoinConcatenates(env, fuel, sockets, idx + 1, result + strs[idx], sts, strs);
      assert strs[idx..][1..] == strs[idx + 1..];
      assert result + strs[idx] + Concat(strs[idx + 1..]) == result + Concat(strs[idx..]);
    } else {
      assert Concat(strs[idx..]) == "";
      assert result + "" == result;
    }
  }

  /** A join with no sockets yields the empty string and changes nothing. */
  lemma JoinOfNothing(env: Env, fuel: nat, st: State, b: Block)
    requires b.values == []
    ensures TextJoinEvaluator(env, fuel, st, b) == Res(Normal(Str("")), st)
  {
  }

  /** A join fails when a socket it reaches does not hold exactly one block. */
  lemma JoinNeedsOneBlockPerSocket(env: Env, fuel: nat, st: State, sockets: seq<Socket>, idx: nat, result: string)
    requires idx < |sockets| && |sockets[idx].blocks| != 1
    ensures JoinFrom(env, fuel, st, sockets, idx, result) == Res(Fail(JoinSocketMessage), st)
  {
  }

  /** Print appends exactly one line, the TEXT block's string followed by a
      newline, to the console, and yields nil. */
  lemma PrintAppendsOneLine(env: Env, fuel: nat, st: State, b: Block, s: string, after: State)
    requires SingleBlockValueWithName(b, "TEXT").Ok?
    requires EvaluateAs(env, fuel, st, SingleBlockValueWithName(b, "TEXT").value, env.ops.asString)
          == Step(Got(s), after)
    ensures PrintEvaluator(env, fuel, st, b) == Res(Normal(Nil), State(after.vars, after.console + [s + "\n"]))
  {
  }

  /** Print fails and writes nothing when TEXT is missing or does not hold
      exactly one block. */
  lemma PrintNeedsOneBlock(env: Env, fuel: nat, st: State, b: Block)
    requires SingleBlockValueWithName(b, "TEXT").Err?
    ensures var r := PrintEvaluator(env, fuel, st, b);
      r.out.Fail? && r.st == st
  {
  }
}
