/**
 * Chains of calls made on the proxies of one evaluation, and what they leave
 * on its stack: one method entry per recorded call, in call order, each
 * followed by its arguments.
 */
module Chains {
  import opened Wrappers
  import opened Reflect
  import opened Runtime
  import opened Evaluations
  import opened Properties

  /** One intercepted invocation: the method and its arguments. */
  datatype Call = Call(m: Method, params: seq<Value>)

  /** The methods recorded on a stack, in stack order. */
  function Methods(stack: seq<Entry>): seq<Method> {
    if |stack| == 0 then [] else Own(stack[0]) + Methods(stack[1..])
  }

  /** The method an entry records, if it records one. */
  function Own(e: Entry): seq<Method> {
    if e.Invoked? then [e.m] else []
  }

  /** The methods of the calls that get recorded (all but the finalization hook), in call order. */
  function RecordedMethods(calls: seq<Call>): seq<Method> {
    if |calls| == 0 then []
    else (if calls[0].m.name == FinalizeName then [] else [calls[0].m]) + RecordedMethods(calls[1..])
  }

  /** How many stack entries the calls add: the method plus one per argument, for every recorded call. */
  function Growth(calls: seq<Call>): nat {
    if |calls| == 0 then 0
    else (if calls[0].m.name == FinalizeName then 0 else 1 + |calls[0].params|) + Growth(calls[1..])
  }

  /** The entries recorded for arguments taken as given: one `Arg` per argument, in order. */
  function Args(params: seq<Value>): seq<Entry> {
    seq(|params|, i requires 0 <= i < |params| => Arg(params[i]))
  }

  /**
   * What the calls add to a stack when no argument is `null`: for every call
   * but the finalization hook, its method followed by its own arguments.
   */
  function Entries(calls: seq<Call>): seq<Entry> {
    if |calls| == 0 then [] else CallEntries(calls[0]) + Entries(calls[1..])
  }

  /** What one call adds when no argument is `null`: nothing for the finalization hook. */
  function CallEntries(c: Call): seq<Entry> {
    if c.m.name == FinalizeName then [] else [Invoked(c.m)] + Args(c.params)
  }

  /** No call passes a `null` argument. */
  predicate NullFree(calls: seq<Call>) {
    forall k :: 0 <= k < |calls| ==> Null !in calls[k].params
  }

  /**
   * Make the calls one after another on evaluation `id`, starting from `start`;
   * the result is the state and the value the last call returned.
   */
  function Replay(env: Env, start: Step, id: EvalId, calls: seq<Call>): (r: Step)
    requires id < |start.state.evals|
    ensures |r.state.evals| == |start.state.evals|
    ensures forall k :: 0 <= k < |start.state.evals| && k != id ==> r.state.evals[k] == start.state.evals[k]
    decreases |calls|
  {
    if |calls| == 0 then start
    else Replay(env, On(env, start.state, id, calls[0].m, calls[0].params), id, calls[1..])
  }

  lemma {:induction false} MethodsAppend(a: seq<Entry>, b: seq<Entry>)
    ensures Methods(a + b) == Methods(a) + Methods(b)
    decreases |a|
  {
    if |a| == 0 {
      assert a + b == b;
    } else {
      assert (a + b)[0] == a[0];
      assert (a + b)[1..] == a[1..] + b;
      MethodsAppend(a[1..], b);
      calc {
        Methods(a + b);
        Own(a[0]) + Methods(a[1..] + b);
        Own(a[0]) + (Methods(a[1..]) + Methods(b));
        (Own(a[0]) + Methods(a[1..])) + Methods(b);
      }
    }
  }

  lemma {:induction false} MethodsOfArguments(entries: seq<Entry>)
    requires forall i :: 0 <= i < |entries| ==> !entries[i].Invoked?
    ensures Methods(entries) == []
    decreases |entries|
  {
    if |entries| > 0 {
      MethodsOfArguments(entries[1..]);
    }
  }

  /** A recorded call adds exactly its own method to the stack's methods. */
  lemma AppendedMethods(before: seq<Entry>, after: seq<Entry>, m: Method, params: seq<Value>, p: Option<EvalId>)
    requires Appended(before, after, m, params, p)
    ensures Methods(after) == Methods(before) + [m]
  {
    var tail := after[|before| + 1..];
    assert after == before + [Invoked(m)] + tail;
    forall i | 0 <= i < |tail| ensures !tail[i].Invoked? {
      assert tail[i] == Expected(params, p, i);
    }
    MethodsOfArguments(tail);
    MethodsAppend(before + [Invoked(m)], tail);
    MethodsAppend(before, [Invoked(m)]);
  }

  /** Without `null` arguments a recorded call appends exactly its method and its arguments as given. */
  lemma AppendedNullFree(before: seq<Entry>, after: seq<Entry>, m: Method, params: seq<Value>, p: Option<EvalId>)
    requires Appended(before, after, m, params, p) && Null !in params
    ensures after == before + [Invoked(m)] + Args(params)
  {
    var want := before + [Invoked(m)] + Args(params);
    assert |after| == |want|;
    forall k | 0 <= k < |after| ensures after[k] == want[k] {
      if k < |before| {
        assert after[k] == after[..|before|][k];
      } else if k > |before| {
        var i := k - |before| - 1;
        assert params[i] != Null;
        assert after[k] == Expected(params, p, i);
      }
    }
  }

  /**
   * A chain of calls extends the stack: the old stack is a prefix, it grows by
   * exactly the recorded calls' methods and arguments, and its methods are the
   * old ones followed by the recorded calls' methods in call order.
   */
  lemma {:induction false} ReplayRecordsCalls(env: Env, start: Step, id: EvalId, calls: seq<Call>)
    requires id < |start.state.evals|
    ensures var before := start.state.evals[id].stack;
      var after := Replay(env, start, id, calls).state.evals[id].stack;
      && |after| == |before| + Growth(calls)
      && after[..|before|] == before
      && Methods(after) == Methods(before) + RecordedMethods(calls)
    decreases |calls|
  {
    if |calls| > 0 {
      var c := calls[0];
      var next := On(env, start.state, id, c.m, c.params);
      ReplayRecordsCalls(env, next, id, calls[1..]);
      var before := start.state.evals[id].stack;
      var mid := next.state.evals[id].stack;
      var after := Replay(env, next, id, calls[1..]).state.evals[id].stack;
      assert Replay(env, start, id, calls) == Replay(env, next, id, calls[1..]);
      if c.m.name == FinalizeName {
        assert mid == before;
      } else {
        assert Appended(before, mid, c.m, c.params, start.state.pending);
        AppendedMethods(before, mid, c.m, c.params, start.state.pending);
        assert after[..|before|] == after[..|mid|][..|before|];
        assert Methods(after) == Methods(before) + ([c.m] + RecordedMethods(calls[1..]));
      }
    }
  }

  /** One call without `null` arguments appends exactly its `CallEntries`. */
  lemma StepEntries(env: Env, s: State, id: EvalId, c: Call)
    requires id < |s.evals| && Null !in c.params
    ensures On(env, s, id, c.m, c.params).state.evals[id].stack == s.evals[id].stack + CallEntries(c)
  {
    var after := On(env, s, id, c.m, c.params).state.evals[id].stack;
    if c.m.name == FinalizeName {
      assert after == s.evals[id].stack;
    } else {
      AppendedNullFree(s.evals[id].stack, after, c.m, c.params, s.pending);
    }
  }

  lemma NullFreeTail(calls: seq<Call>)
    requires |calls| > 0 && NullFree(calls)
    ensures Null !in calls[0].params && NullFree(calls[1..])
  {
    forall k | 0 <= k < |calls| - 1 ensures Null !in calls[1..][k].params {
      assert calls[1..][k] == calls[k + 1];
    }
  }

  /** The first call of a null-free chain, as the state it leaves for the rest of the chain. */
  lemma FirstCall(env: Env, start: Step, id: EvalId, calls: seq<Call>) returns (next: Step)
    requires id < |start.state.evals| && |calls| > 0 && NullFree(calls)
    ensures id < |next.state.evals| && NullFree(calls[1..])
    ensures next.state.evals[id].stack == start.state.evals[id].stack + CallEntries(calls[0])
    ensures Replay(env, start, id, calls) == Replay(env, next, id, calls[1..])
  {
    NullFreeTail(calls);
    next := On(env, start.state, id, calls[0].m, calls[0].params);
    StepEntries(env, start.state, id, calls[0]);
  }

  /** Without `null` arguments, a chain appends each recorded call's method followed by its own arguments. */
  lemma {:induction false} ReplayEntries(env: Env, start: Step, id: EvalId, calls: seq<Call>)
    requires id < |start.state.evals| && NullFree(calls)
    ensures Replay(env, start, id, calls).state.evals[id].stack == start.state.evals[id].stack + Entries(calls)
    decreases |calls|
  {
    if |calls| > 0 {
      var next := FirstCall(env, start, id, calls);
      ReplayEntries(env, next, id, calls[1..]);
      var before := start.state.evals[id].stack;
      var own := CallEntries(calls[0]);
      var rest := Entries(calls[1..]);
      assert Entries(calls) == own + rest;
      var fin := Replay(env, start, id, calls).state.evals[id].stack;
      assert fin == next.state.evals[id].stack + rest;
      assert fin == (before + own) + rest;
      assert (before + own) + rest == before + (own + rest);
      assert fin == before + Entries(calls);
    }
  }

  /**
   * After a non-empty chain of calls whose last call is recorded, `eval` of
   * the last result recovers the evaluation the chain was made on.
   */
  lemma {:induction false} ReplayThenEval(env: Env, start: Step, id: EvalId, calls: seq<Call>)
    requires Consistent(env) && id < |start.state.evals| && |calls| > 0
    requires calls[|calls| - 1].m.name != FinalizeName
    ensures var r := Replay(env, start, id, calls);
      var e := Eval(env, r.state, r.value);
      e.Success? && e.value.evaluation == id && e.value.state.evals == r.state.evals
    decreases |calls|
  {
    var next := On(env, start.state, id, calls[0].m, calls[0].params);
    if |calls| == 1 {
      OnThenEval(env, start.state, id, calls[0].m, calls[0].params);
    } else {
      assert calls[1..][|calls| - 2] == calls[|calls| - 1];
      ReplayThenEval(env, next, id, calls[1..]);
    }
  }

  /**
   * `of(cls)` followed by a chain of calls and `eval` of the last result: the
   * recovered evaluation is the one `of` created, and its stack holds exactly
   * the recorded calls' methods, in call order; when no argument is `null`,
   * each method is followed by its own arguments as given.
   */
  lemma OfChainEval(env: Env, s: State, cls: Class, calls: seq<Call>)
    requires Consistent(env) && |calls| > 0
    requires calls[|calls| - 1].m.name != FinalizeName
    ensures var r := Replay(env, Of(env, s, cls), |s.evals|, calls);
      var e := Eval(env, r.state, r.value);
      && e.Success? && e.value.evaluation == |s.evals|
      && |r.state.evals[|s.evals|].stack| == Growth(calls)
      && Methods(r.state.evals[|s.evals|].stack) == RecordedMethods(calls)
      && (NullFree(calls) ==> r.state.evals[|s.evals|].stack == Entries(calls))
      && r.state.evals[..|s.evals|] == s.evals
  {
    var start := Of(env, s, cls);
    ReplayRecordsCalls(env, start, |s.evals|, calls);
    if NullFree(calls) {
      ReplayEntries(env, start, |s.evals|, calls);
    }
    ReplayThenEval(env, start, |s.evals|, calls);
    var r := Replay(env, start, |s.evals|, calls);
    assert r.state.evals[..|s.evals|] == s.evals by {
      forall k | 0 <= k < |s.evals| ensures r.state.evals[k] == s.evals[k] {
        assert start.state.evals[k] == s.evals[k];
      }
    }
  }
}
