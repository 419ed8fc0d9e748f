/**
 * The invocation-recording engine: evaluations that record every call made on
 * their proxies, the per-thread slot remembering the last evaluation whose
 * result could not be proxied, and the recovery of an evaluation from a result.
 *
 * All evaluations live in one table indexed by their identity; the slot holds
 * at most one identity. Every operation is a pure step on that state.
 */
module Evaluations {
  import opened Wrappers
  import opened Reflect
  import opened Runtime

  /** One element of an evaluation's stack: an invoked method or one of its arguments. */
  datatype Entry =
    | Invoked(m: Method)
    | Arg(value: Value)
    | Nested(nested: EvalId)   // a `null` argument taken to be a pending, non-proxyable evaluation

  /** An evaluation: each invoked method followed by its arguments, and the current type context. */
  datatype Evaluation = Evaluation(stack: seq<Entry>, context: Type)

  /** All evaluations, indexed by identity, and the last non-proxyable evaluation, if any. */
  datatype State = State(evals: seq<Evaluation>, pending: Option<EvalId>)

  /** A state together with the value an operation handed back to its caller. */
  datatype Step = Step(state: State, value: Value)

  /** A state together with a recovered evaluation. */
  datatype Recovered = Recovered(state: State, evaluation: EvalId)

  /** The exception `eval` throws: "no invocation result given". */
  datatype Error = NoInvocationResult

  /** The result of recording a call's arguments: the entries and the slot afterwards. */
  datatype Recorded = Recorded(entries: seq<Entry>, pending: Option<EvalId>)

  /** The slot names an existing evaluation. */
  ghost predicate Valid(s: State) {
    s.pending.Some? ==> s.pending.value < |s.evals|
  }

  // ---------------------------------------------------------------------------
  // Recording the arguments of a call
  // ---------------------------------------------------------------------------

  /** `params[i]` is the first `null` among `params`. */
  predicate FirstNull(params: seq<Value>, i: int) {
    0 <= i < |params| && params[i] == Null && Null !in params[..i]
  }

  /**
   * The entry recorded for `params[i]`, stated without reference to the loop:
   * the first `null` argument stands for the pending evaluation when there is
   * one; every other argument is recorded as given.
   */
  function Expected(params: seq<Value>, pending: Option<EvalId>, i: int): Entry
    requires 0 <= i < |params|
  {
    if pending.Some? && FirstNull(params, i) then Nested(pending.value) else Arg(params[i])
  }

  /**
   * `after` is `before` followed by the method and then one entry per argument,
   * in argument order, each as `Expected` describes it.
   */
  predicate Appended(before: seq<Entry>, after: seq<Entry>, m: Method, params: seq<Value>, pending: Option<EvalId>) {
    && |after| == |before| + 1 + |params|
    && after[..|before|] == before
    && after[|before|] == Invoked(m)
    && (forall i :: 0 <= i < |params| ==> after[|before| + 1 + i] == Expected(params, pending, i))
  }

  lemma FirstNullShift(params: seq<Value>, i: int)
    requires 1 <= i < |params| && params[0] != Null
    ensures FirstNull(params, i) <==> FirstNull(params[1..], i - 1)
  {
  }

  /**
   * The loop over a call's arguments: a `null` argument met while the slot is
   * set is recorded as the pending evaluation and clears the slot; any other
   * argument is recorded unchanged and leaves the slot alone.
   */
  function RecordParams(params: seq<Value>, pending: Option<EvalId>): (r: Recorded)
    ensures |r.entries| == |params|
    ensures forall i :: 0 <= i < |params| ==> r.entries[i] == Expected(params, pending, i)
    ensures r.pending == (if Null in params then None else pending)
    decreases |params|
  {
    if |params| == 0 then Recorded([], pending)
    else if params[0] == Null && pending.Some? then
      var rest := RecordParams(params[1..], None);
      assert forall i :: 1 <= i < |params| ==> !FirstNull(params, i) by {
        forall i | 1 <= i < |params| ensures !FirstNull(params, i) {
          assert params[..i][0] == Null;
        }
      }
      assert FirstNull(params, 0);
      assert Null in params;
      Recorded([Nested(pending.value)] + rest.entries, rest.pending)
    else
      var rest := RecordParams(params[1..], pending);
      assert forall i :: 1 <= i < |params| ==> Expected(params, pending, i) == Expected(params[1..], pending, i - 1) by {
        forall i | 1 <= i < |params|
          ensures Expected(params, pending, i) == Expected(params[1..], pending, i - 1)
        {
          if params[0] != Null { FirstNullShift(params, i); }
        }
      }
      assert Null in params <==> (params[0] == Null || Null in params[1..]) by {
        assert params == [params[0]] + params[1..];
      }
      Recorded([Arg(params[0])] + rest.entries, rest.pending)
  }

  // ---------------------------------------------------------------------------
  // The engine's operations
  // ---------------------------------------------------------------------------

  /**
   * The type context after invoking `m`: the generic return type resolved
   * against the current context, or the raw return type when that fails.
   */
  function Resolve(env: Env, context: Type, m: Method): (t: Type)
    ensures env.resultType(context, m.genericReturn).Some? ==>
      t == env.resultType(context, m.genericReturn).value
    ensures env.resultType(context, m.genericReturn).None? ==> t == Raw(m.returnType)
  {
    match env.resultType(context, m.genericReturn)
    case Some(t) => t
    case None => Raw(m.returnType)
  }

  /** `new Evaluation(type)`: a fresh evaluation with an empty stack. */
  function Create(s: State, t: Type): (r: Recovered)
    ensures |r.state.evals| == |s.evals| + 1 && r.state.pending == s.pending
    ensures r.state.evals[..|s.evals|] == s.evals
    ensures r.evaluation == |s.evals| && r.state.evals[r.evaluation] == Evaluation([], t)
  {
    Recovered(State(s.evals + [Evaluation([], t)], s.pending), |s.evals|)
  }

  /**
   * `proxy()`: a value standing for the result of evaluation `id`. A primitive
   * type context yields the primitive default, a class the factory cannot proxy
   * yields `null`, and both park the evaluation in the slot; otherwise a proxy
   * instance routing to `id` is returned and the slot is left alone.
   */
  function Proxy(env: Env, s: State, id: EvalId): (r: Step)
    requires id < |s.evals|
    ensures r.state.evals == s.evals
    ensures r.value.Instance? ==> r.value.callback == id && r.state.pending == s.pending
    ensures !r.value.Instance? ==> r.state.pending == Some(id)
    ensures var cls := env.getClass(s.evals[id].context);
      && (cls.primitive ==> r.value == DefaultOf(cls) && r.state.pending == Some(id))
      && (!cls.primitive && env.createClass(cls).None? ==> r.value == Null && r.state.pending == Some(id))
      && (!cls.primitive && env.createClass(cls).Some? ==>
            r.value == CreateInstance(env.createClass(cls).value, id) && r.state.pending == s.pending)
  {
    var cls := env.getClass(s.evals[id].context);
    if cls.primitive then
      Step(s.(pending := Some(id)), DefaultOf(cls))
    else
      match env.createClass(cls)
      case None => Step(s.(pending := Some(id)), Null)
      case Some(pc) => Step(s, CreateInstance(pc, id))
  }

  /** `of(type)`: start a fresh evaluation at class `cls` and return its proxy. */
  function Of(env: Env, s: State, cls: Class): (r: Step)
    ensures |r.state.evals| == |s.evals| + 1
    ensures r.state.evals[..|s.evals|] == s.evals
    ensures r.state.evals[|s.evals|] == Evaluation([], Raw(cls))
    ensures r == Proxy(env, State(s.evals + [Evaluation([], Raw(cls))], s.pending), |s.evals|)
  {
    var c := Create(s, Raw(cls));
    Proxy(env, c.state, c.evaluation)
  }

  /**
   * The recording half of `on` for a method other than `finalize`: append the
   * method and its arguments to the stack of `id` and advance its type context.
   */
  function Record(env: Env, s: State, id: EvalId, m: Method, params: seq<Value>): (r: State)
    requires id < |s.evals|
    ensures |r.evals| == |s.evals|
    ensures forall k :: 0 <= k < |s.evals| && k != id ==> r.evals[k] == s.evals[k]
    ensures Appended(s.evals[id].stack, r.evals[id].stack, m, params, s.pending)
    ensures r.pending == (if Null in params then None else s.pending)
    ensures r.evals[id].context == Resolve(env, s.evals[id].context, m)
  {
    var ev := s.evals[id];
    var rec := RecordParams(params, s.pending);
    var stack := ev.stack + [Invoked(m)] + rec.entries;
    assert forall i :: 0 <= i < |params| ==> stack[|ev.stack| + 1 + i] == rec.entries[i];
    State(s.evals[id := Evaluation(stack, Resolve(env, ev.context, m))], rec.pending)
  }

  /**
   * `on(obj, method, parameters)` on evaluation `id`: `finalize` is ignored and
   * answered with `null`; any other call is recorded and answered with what
   * `proxy()` gives for the new type context.
   */
  function On(env: Env, s: State, id: EvalId, m: Method, params: seq<Value>): (r: Step)
    requires id < |s.evals|
    ensures m.name == FinalizeName ==> r == Step(s, Null)
    ensures |r.state.evals| == |s.evals|
    ensures forall k :: 0 <= k < |s.evals| && k != id ==> r.state.evals[k] == s.evals[k]
    ensures m.name != FinalizeName ==>
      Appended(s.evals[id].stack, r.state.evals[id].stack, m, params, s.pending)
    ensures m.name != FinalizeName ==>
      r.state.evals[id].context == Resolve(env, s.evals[id].context, m)
    ensures m.name != FinalizeName && r.value.Instance? ==>
      r.value.callback == id && r.state.pending == (if Null in params then None else s.pending)
    ensures m.name != FinalizeName && !r.value.Instance? ==> r.state.pending == Some(id)
    ensures m.name != FinalizeName ==>
      var cls := env.getClass(Resolve(env, s.evals[id].context, m));
      && (cls.primitive ==> r.value == DefaultOf(cls))
      && (!cls.primitive && env.createClass(cls).None? ==> r.value == Null)
      && (!cls.primitive && env.createClass(cls).Some? ==>
            r.value == CreateInstance(env.createClass(cls).value, id))
  {
    if m.name == FinalizeName then Step(s, Null)
    else
      var recorded := Record(env, s, id, m, params);
      Proxy(env, recorded, id)
  }

  /**
   * `eval(result)`: the evaluation the factory maps `result` to; failing that,
   * the evaluation in the slot, which is cleared; failing both, an error.
   */
  function Eval(env: Env, s: State, result: Value): (r: Result<Recovered, Error>)
    ensures env.getCallback(result).Some? ==>
      r == Success(Recovered(s, env.getCallback(result).value))
    ensures env.getCallback(result).None? && s.pending.Some? ==>
      r == Success(Recovered(s.(pending := None), s.pending.value))
    ensures env.getCallback(result).None? && s.pending.None? ==>
      r == Failure(NoInvocationResult)
  {
    match env.getCallback(result)
    case Some(e) => Success(Recovered(s, e))
    case None =>
      match s.pending
      case Some(e) => Success(Recovered(s.(pending := None), e))
      case None => Failure(NoInvocationResult)
  }
}
