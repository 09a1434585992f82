/** Properties of the logic blocks: the comparison operators as derived from
    equality and ordering, the missing and unknown operator failures, the
    ternary's single branch and the non-short-circuit boolean operators. */
module LogicLaws {
  import opened Values
  import opened Blocks
  import opened Semantics

  /** When equality and ordering both succeed, every comparison operator is
      fixed by them: NEQ is not EQ, LTE is LT or EQ, GT is neither LT nor EQ,
      GTE is not LT; so GT is exactly the negation of LTE. */
  lemma ComparisonIdentities(ops: ValueOps, a: Value, b: Value, e: bool, l: bool)
    requires ops.equals(a, b) == Ok(e) && ops.isLessThan(a, b) == Ok(l)
    ensures CompareValues(ops, "EQ", a, b) == Ok(e)
    ensures CompareValues(ops, "NEQ", a, b) == Ok(!e)
    ensures CompareValues(ops, "LT", a, b) == Ok(l)
    ensures CompareValues(ops, "LTE", a, b) == Ok(l || e)
    ensures CompareValues(ops, "GT", a, b) == Ok(!l && !e)
    ensures CompareValues(ops, "GTE", a, b) == Ok(!l)
    ensures CompareValues(ops, "GT", a, b).value == !CompareValues(ops, "LTE", a, b).value
  {
  }

  /** LTE and GT consult equality only when the ordering test is false: a
      failing equality does not matter when `a` is less than `b`. */
  lemma ComparisonShortCircuit(ops: ValueOps, a: Value, b: Value)
    requires ops.isLessThan(a, b) == Ok(true)
    ensures CompareValues(ops, "LTE", a, b) == Ok(true)
    ensures CompareValues(ops, "GT", a, b) == Ok(false)
  {
  }

  /** Exactly the six operator names are known. */
  lemma UnknownComparison(ops: ValueOps, op: string, a: Value, b: Value)
    requires op !in {"EQ", "NEQ", "LT", "LTE", "GT", "GTE"}
    ensures CompareValues(ops, op, a, b) == Err("Unknown operator: " + op)
  {
  }

  /** A compare block without OP fails before either operand is evaluated,
      so the state is untouched. */
  lemma CompareNeedsOperator(env: Env, fuel: nat, st: State, b: Block)
    requires SingleBlockValueWithName(b, "A").Ok? && SingleBlockValueWithName(b, "B").Ok?
    requires FieldWithName(b, "OP").None?
    ensures LogicCompareEvaluator(env, fuel, st, b) == Res(Fail("Missing operator in logic operation block."), st)
  {
  }

  /** A boolean-operation block without OP fails before either operand is
      evaluated, so the state is untouched. */
  lemma OperationNeedsOperator(env: Env, fuel: nat, st: State, b: Block)
    requires SingleBlockValueWithName(b, "A").Ok? && SingleBlockValueWithName(b, "B").Ok?
    requires FieldWithName(b, "OP").None?
    ensures LogicOperationEvaluator(env, fuel, st, b) == Res(Fail("Missing operator in logic operation block."), st)
  {
  }

  /** The ternary evaluates only the branch its test selects. */
  lemma TernaryEvaluatesOneBranch(env: Env, fuel: nat, st: State, b: Block, test: bool, after: State)
    requires SingleBlockValueWithName(b, "THEN").Ok? && SingleBlockValueWithName(b, "ELSE").Ok?
    requires SingleBlockValueWithName(b, "IF").Ok?
    requires EvaluateAs(env, fuel, st, SingleBlockValueWithName(b, "IF").value, env.ops.asBoolean)
          == Step(Got(test), after)
    ensures LogicTernaryEvaluator(env, fuel, st, b)
         == Evaluate(env, fuel, after, SingleBlockValueWithName(b, if test then "THEN" else "ELSE").value)
  {
  }

  /** AND and OR evaluate both operands before combining them: whatever A
      yields, B is evaluated next and a failure or signal from B escapes;
      when both succeed the operator combines them. */
  lemma OperationEvaluatesBoth(env: Env, fuel: nat, st: State, b: Block, x: bool, afterA: State)
    requires SingleBlockValueWithName(b, "A").Ok? && SingleBlockValueWithName(b, "B").Ok?
    requires FieldWithName(b, "OP").Some?
    requires EvaluateAs(env, fuel, st, SingleBlockValueWithName(b, "A").value, env.ops.asBoolean)
          == Step(Got(x), afterA)
    ensures var cb := EvaluateAs(env, fuel, afterA, SingleBlockValueWithName(b, "B").value, env.ops.asBoolean);
      var r := LogicOperationEvaluator(env, fuel, st, b);
      var op := FieldWithName(b, "OP").value;
      && r.st == cb.st
      && (cb.flow.Raised? ==> r.out == cb.flow.out)
      && (cb.flow.Got? && op == "AND" ==> r.out == Normal(Bool(x && cb.flow.val)))
      && (cb.flow.Got? && op == "OR" ==> r.out == Normal(Bool(x || cb.flow.val)))
      && (cb.flow.Got? && op != "AND" && op != "OR" ==> r.out == Fail("Unknown operator: " + op))
  {
  }

  /** Negation yields the opposite of its operand's boolean. */
  lemma NegateFlips(env: Env, fuel: nat, st: State, b: Block, x: bool, after: State)
    requires EvaluateSocketAs(env, fuel, st, b, "BOOL", env.ops.asBoolean) == Step(Got(x), after)
    ensures LogicNegateEvaluator(env, fuel, st, b) == Res(Normal(Bool(!x)), after)
  {
  }
}
