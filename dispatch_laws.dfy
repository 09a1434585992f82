/** Properties of evaluator lookup and of statement chains. */
module DispatchLaws {
  import opened Values
  import opened Blocks
  import opened Semantics

  /** A tag that no prefix handler and no default entry knows fails, without
      touching the state. */
  lemma UnknownTagFails(env: Env, fuel: nat, st: State, b: Block)
    requires fuel > 0
    requires forall i :: 0 <= i < |env.prefixHandlers| ==> !HasPrefix(b.tag, env.prefixHandlers[i].0)
    requires b.tag !in Evaluators
    ensures Evaluate(env, fuel, st, b) == Res(Fail("No evaluator for block '" + b.tag + "'"), st)
  {
  }

  /** The first matching prefix handler wins, even over a default entry for the
      same tag. */
  lemma FirstPrefixPreferred(env: Env, tag: string, i: nat)
    requires i < |env.prefixHandlers| && HasPrefix(tag, env.prefixHandlers[i].0)
    requires forall j :: 0 <= j < i ==> !HasPrefix(tag, env.prefixHandlers[j].0)
    ensures FindEvaluator(env, tag) == Some(env.prefixHandlers[i].1)
  {
    var r := PrefixLookup(env.prefixHandlers, tag);
    assert r.Some?;
    var k :| 0 <= k < |env.prefixHandlers| && HasPrefix(tag, env.prefixHandlers[k].0)
      && env.prefixHandlers[k].1 == r.value && forall j :: 0 <= j < k ==> !HasPrefix(tag, env.prefixHandlers[j].0);
    assert k == i;
  }

  /** When exactly one prefix matches, the order in which the prefix handlers
      are consulted does not matter: that handler is chosen. */
  lemma UniquePrefixChosen(env: Env, tag: string, i: nat)
    requires i < |env.prefixHandlers| && HasPrefix(tag, env.prefixHandlers[i].0)
    requires forall j :: 0 <= j < |env.prefixHandlers| && j != i ==> !HasPrefix(tag, env.prefixHandlers[j].0)
    ensures FindEvaluator(env, tag) == Some(env.prefixHandlers[i].1)
  {
    FirstPrefixPreferred(env, tag, i);
  }

  /** With no matching prefix, the default table decides. */
  lemma DefaultTableUsed(env: Env, tag: string)
    requires forall i :: 0 <= i < |env.prefixHandlers| ==> !HasPrefix(tag, env.prefixHandlers[i].0)
    ensures FindEvaluator(env, tag) == (if tag in Evaluators then Some(Evaluators[tag]) else None)
  {
  }

  /** The last block of a statement chain. */
  function Last(b: Block): (l: Block)
    ensures l.next.None?
  {
    if b.next.None? then b else Last(b.next.value)
  }

  /** A block with a successor yields whatever its successor yields, from the
      state the block itself left; a block that does not complete normally
      ends the chain. */
  lemma NextReplacesResult(env: Env, fuel: nat, st: State, b: Block, h: Handler)
    requires fuel > 0 && FindEvaluator(env, b.tag) == Some(h)
    ensures var r := Dispatch(env, fuel - 1, st, h, b);
      Evaluate(env, fuel, st, b) == if r.out.Normal? && b.next.Some? then Evaluate(env, fuel, r.st, b.next.value) else r
  {
  }

  /** Every block of the chain before its last one has an evaluator and
      completes normally, each from the state the previous one left. */
  predicate EarlierBlocksComplete(env: Env, fuel: nat, st: State, b: Block)
    decreases b
  {
    b.next.None? ||
      (fuel > 0 && FindEvaluator(env, b.tag).Some?
       && var r := Dispatch(env, fuel - 1, st, FindEvaluator(env, b.tag).value, b);
       r.out.Normal? && EarlierBlocksComplete(env, fuel, r.st, b.next.value))
  }

  /** The state the blocks before the last one of a chain leave, each run by
      its own evaluator from the state the previous one left. */
  function BeforeLast(env: Env, fuel: nat, st: State, b: Block): State
    decreases b
  {
    if b.next.None? || fuel == 0 then st
    else match FindEvaluator(env, b.tag)
      case None => st
      case Some(h) => BeforeLast(env, fuel, Dispatch(env, fuel - 1, st, h, b).st, b.next.value)
  }

  /** When every block before the last completes normally, the chain's outcome
      and final state, whatever they are, are those of its last block run from
      the state the earlier blocks left. */
  lemma {:induction false} ChainYieldsLastBlock(env: Env, fuel: nat, st: State, b: Block)
    requires EarlierBlocksComplete(env, fuel, st, b)
    ensures Evaluate(env, fuel, st, b) == Evaluate(env, fuel, BeforeLast(env, fuel, st, b), Last(b))
    decreases b
  {
    if b.next.Some? {
      var h := FindEvaluator(env, b.tag).value;
      var r := Dispatch(env, fuel - 1, st, h, b);
      assert Evaluate(env, fuel, st, b) == Evaluate(env, fuel, r.st, b.next.value);
      ChainYieldsLastBlock(env, fuel, r.st, b.next.value);
    }
  }
}
