/**
 * Properties of single steps of the engine: recovering an evaluation from
 * what its last step returned, the one-shot nature of the slot, the rule that
 * turns a `null` argument into a nested evaluation, and the slot invariant.
 */
module Properties {
  import opened Wrappers
  import opened Reflect
  import opened Runtime
  import opened Evaluations

  /**
   * `eval(proxy())` recovers the evaluation that produced the result: through
   * the factory when it is a proxy instance (slot untouched), through the slot
   * otherwise (slot cleared).
   */
  lemma ProxyThenEval(env: Env, s: State, id: EvalId)
    requires Consistent(env) && id < |s.evals|
    ensures var r := Proxy(env, s, id);
      var e := Eval(env, r.state, r.value);
      && e.Success? && e.value.evaluation == id && e.value.state.evals == s.evals
      && e.value.state.pending == (if r.value.Instance? then s.pending else None)
  {
  }

  /** `eval(of(cls))` recovers the fresh evaluation, whose stack is empty and whose context is `cls`. */
  lemma OfThenEval(env: Env, s: State, cls: Class)
    requires Consistent(env)
    ensures var r := Of(env, s, cls);
      var e := Eval(env, r.state, r.value);
      && e.Success? && e.value.evaluation == |s.evals|
      && e.value.state.evals == s.evals + [Evaluation([], Raw(cls))]
  {
  }

  /** Whatever a recorded call returns, `eval` of it recovers the evaluation the call was made on. */
  lemma OnThenEval(env: Env, s: State, id: EvalId, m: Method, params: seq<Value>)
    requires Consistent(env) && id < |s.evals| && m.name != FinalizeName
    ensures var r := On(env, s, id, m, params);
      var e := Eval(env, r.state, r.value);
      && e.Success? && e.value.evaluation == id && e.value.state.evals == r.state.evals
  {
  }

  /**
   * Recovering a result that is not a proxy instance consumes the slot, so
   * recovering the same result again fails with "no invocation result given".
   */
  lemma EvalTwiceFails(env: Env, s: State, v: Value)
    requires Consistent(env) && !v.Instance? && Eval(env, s, v).Success?
    ensures Eval(env, Eval(env, s, v).value.state, v) == Failure(NoInvocationResult)
  {
  }

  /** Recovering a proxy instance reads nothing but the factory, so it can be repeated. */
  lemma EvalInstanceRepeatable(env: Env, s: State, pc: ProxyClass, e: EvalId)
    requires Consistent(env)
    ensures Eval(env, s, Instance(pc, e)) == Success(Recovered(s, e))
    ensures Eval(env, Eval(env, s, Instance(pc, e)).value.state, Instance(pc, e)) == Success(Recovered(s, e))
  {
  }

  /**
   * A `null` argument met while evaluation `a` is pending is recorded as `a`
   * and consumes the slot; a later `null` in the same call is recorded as a
   * plain `null`, and so is every other argument as given. Afterwards the slot
   * can only hold the called evaluation itself, never `a` again through this call.
   */
  lemma NullArgumentNestsPending(env: Env, s: State, id: EvalId, m: Method, params: seq<Value>, a: EvalId, i: nat)
    requires id < |s.evals| && m.name != FinalizeName
    requires s.pending == Some(a) && FirstNull(params, i)
    ensures var r := On(env, s, id, m, params);
      var n := |s.evals[id].stack|;
      var after := r.state.evals[id].stack;
      && after[n + 1 + i] == Nested(a)
      && (forall j :: 0 <= j < |params| && j != i ==> after[n + 1 + j] == Arg(params[j]))
      && (r.state.pending == None || r.state.pending == Some(id))
  {
    var r := On(env, s, id, m, params);
    var n := |s.evals[id].stack|;
    var after := r.state.evals[id].stack;
    assert Appended(s.evals[id].stack, after, m, params, s.pending);
    forall j | 0 <= j < |params| && j != i
      ensures after[n + 1 + j] == Arg(params[j])
    {
      OnlyFirstNullNests(params, s.pending, i, j);
    }
    assert Null in params by { assert params[i] == Null; }
  }

  /** Only the first `null` can stand for the pending evaluation. */
  lemma OnlyFirstNullNests(params: seq<Value>, pending: Option<EvalId>, i: int, j: int)
    requires FirstNull(params, i) && 0 <= j < |params| && j != i
    ensures Expected(params, pending, j) == Arg(params[j])
  {
    if j > i {
      assert params[..j][i] == Null;
    }
  }

  /**
   * A call without `null` arguments records them as given and never touches
   * the slot while recording: the slot changes only if the result cannot be
   * proxied, and then it holds the called evaluation.
   */
  lemma NonNullArgumentsKeepSlot(env: Env, s: State, id: EvalId, m: Method, params: seq<Value>)
    requires id < |s.evals| && m.name != FinalizeName && Null !in params
    ensures var r := On(env, s, id, m, params);
      var n := |s.evals[id].stack|;
      && (forall j :: 0 <= j < |params| ==> r.state.evals[id].stack[n + 1 + j] == Arg(params[j]))
      && r.state.pending == (if r.value.Instance? then s.pending else Some(id))
  {
  }

  /**
   * The single slot is overwritten: if evaluation `a` is pending and a call on
   * another evaluation yields a non-proxyable result, the slot no longer holds
   * `a` (which survives only as a `Nested` entry when a `null` argument of this
   * call consumed it), and recovering that result yields the other evaluation,
   * leaving nothing pending.
   */
  lemma PendingOverwritten(env: Env, s: State, id: EvalId, m: Method, params: seq<Value>, a: EvalId)
    requires Consistent(env) && id < |s.evals| && m.name != FinalizeName
    requires s.pending == Some(a) && a != id
    requires !On(env, s, id, m, params).value.Instance?
    ensures var r := On(env, s, id, m, params);
      && r.state.pending == Some(id)
      && Eval(env, r.state, r.value) == Success(Recovered(r.state.(pending := None), id))
  {
  }

  /** `on` with the finalization hook records nothing and leaves the slot as it was. */
  lemma FinalizeIgnored(env: Env, s: State, id: EvalId, m: Method, params: seq<Value>)
    requires id < |s.evals| && m.name == FinalizeName
    ensures On(env, s, id, m, params).state == s
    ensures On(env, s, id, m, params).value == Null
  {
  }

  /**
   * An evaluation recovered through the slot exists, so further calls can be
   * recorded on it.
   */
  lemma EvalFromSlotExists(env: Env, s: State, v: Value)
    requires Valid(s) && env.getCallback(v).None? && Eval(env, s, v).Success?
    ensures Eval(env, s, v).value.evaluation < |s.evals|
    ensures |Eval(env, s, v).value.state.evals| == |s.evals|
  {
  }

  /** Every operation keeps the slot pointing at an existing evaluation. */
  lemma OnPreservesValid(env: Env, s: State, id: EvalId, m: Method, params: seq<Value>)
    requires Valid(s) && id < |s.evals|
    ensures Valid(On(env, s, id, m, params).state)
  {
  }

  lemma OfPreservesValid(env: Env, s: State, cls: Class)
    requires Valid(s)
    ensures Valid(Of(env, s, cls).state)
  {
  }

  lemma EvalPreservesValid(env: Env, s: State, v: Value)
    requires Valid(s) && Eval(env, s, v).Success?
    ensures Valid(Eval(env, s, v).value.state)
  {
  }
}
