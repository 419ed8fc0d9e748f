# Invocation-recording evaluation, modelled in Dafny

This project models the `Evaluation` engine of the type-safe model library. A
caller starts an evaluation at a root type with `of(type)` and makes ordinary
typed method calls on the proxy it gets back. Every intercepted call (`on`)
is pushed onto the evaluation's `stack`, except `finalize`: first the method, then each argument
in order. The call also moves the evaluation's type context to the method's
resolved return type, and answers with `proxy()` for that type:

- a new proxy routing to the same evaluation;
- the primitive default, when the type is primitive;
- `null`, when the factory cannot proxy the type.

In the last two cases the evaluation is parked in the per-thread
`lastNonProxyable` slot. `eval(result)` recovers the evaluation. It asks the
proxy factory first; failing that, it reads and clears the slot; failing both,
it throws "no invocation result given". A `null` argument met while the slot
is set is recorded as the pending evaluation, which lets an unfinished chain
be passed as an argument to another chain.

The model is a pure state machine. `State` holds every evaluation in a table
indexed by its identity (`EvalId`) and the slot as an `Option<EvalId>`. The
collaborators the engine calls are function-valued fields of `Env`:

- `Reflection.resultType`;
- `Reflection.getClass`;
- `IProxyFactory.createClass`;
- `IProxyFactory.getCallback`.

`IProxyFactory.createInstance` is the constructor `Instance(proxyClass, evaluation)`.
`Consistent(env)` is the one assumption made about the factory: an instance
created for evaluation `e` looks up to `e`, and any value the factory did not
fabricate looks up to nothing.

Modules:

- `Wrappers` (`wrappers.dfy`): `Option` and `Result`.
- `Reflect` (`reflect.dfy`): classes, types and methods.
- `Runtime` (`runtime.dfy`): values, the collaborators and the primitive default.
- `Evaluations` (`evaluation.dfy`): the engine: `Create`, `Of`, `On`, `Record`, `Proxy`, `Eval`.
- `Properties` (`properties.dfy`): lemmas about single steps.
- `Chains` (`chains.dfy`): lemmas about chains of calls.
- `Scenarios` (`scenarios.dfy`): worked examples on a small class model.

Behaviour of the source worth noting:

- `of` of a type that cannot be proxied does not fail. Like every other step,
  it returns the primitive default or `null` and parks the new evaluation in
  the slot.
- Recovery failure is the `RuntimeException` "no invocation result given"
  (`NoInvocationResult`).
- A `null` argument taken to be a pending evaluation is recorded as a
  reference to that evaluation object (`Nested(id)`), so the stack shows that
  evaluation as it is at any later time.
- `getValue()` on a `Box<Integer>` resolves to `Integer`. `Integer` is a final
  class, not a primitive one, so the call returns `null` and the evaluation is
  recovered through the slot (`Scenarios.BoxOfIntegerGetValue`).

## Model

| member | source | states |
|---|---|---|
| Evaluations.RecordParams | model-type-safe/src/main/java/de/alpharogroup/model/reflect/Evaluation.java:130-145 | one entry per argument, in order. The first `null` argument becomes the pending evaluation when the slot is set; every other argument is kept as given. The slot ends cleared exactly when a `null` was met while it was set. |
| Evaluations.Create | model-type-safe/src/main/java/de/alpharogroup/model/reflect/Evaluation.java:107-110 | the constructor gives a fresh evaluation, distinct from every existing one, with an empty stack and type context `type`; nothing else changes |
| Evaluations.Of | model-type-safe/src/main/java/de/alpharogroup/model/reflect/Evaluation.java:89-92 | `of(type)` adds exactly one new evaluation with an empty stack and the raw class as context, and answers with `proxy()` of it |
| Evaluations.Record | model-type-safe/src/main/java/de/alpharogroup/model/reflect/Evaluation.java:128-152 | the old stack is a prefix of the new one, which is longer by exactly 1 + the number of arguments: the method, then the arguments as `RecordParams` states. The context becomes the resolved return type. Other evaluations are unchanged. |
| Evaluations.Resolve | model-type-safe/src/main/java/de/alpharogroup/model/reflect/Evaluation.java:147-152 | the new context is the resolver's answer when it has one; otherwise it is the method's raw return type, so the fallback always yields a type |
| Evaluations.Proxy | model-type-safe/src/main/java/de/alpharogroup/model/reflect/Evaluation.java:165-185 | a primitive context gives the primitive default and parks the evaluation. An unproxyable class gives `null` and parks it. Otherwise the result is an instance routing to this evaluation and the slot is untouched. The evaluations themselves never change. |
| Evaluations.On | model-type-safe/src/main/java/de/alpharogroup/model/reflect/Evaluation.java:120-155 | `finalize` returns `null` and changes nothing. Any other call grows the called evaluation's stack as `Record` states and leaves the other evaluations alone. The context becomes the resolved type. The result is what `proxy()` gives for that resolved type: the primitive default for a primitive class, `null` for a class the factory cannot proxy, otherwise an instance routing to this evaluation. The slot is then set to this evaluation in the first two cases and left as the arguments left it in the third. |
| Evaluations.Eval | model-type-safe/src/main/java/de/alpharogroup/model/reflect/Evaluation.java:64-77 | the factory's callback when there is one, with the slot untouched; otherwise the pending evaluation, with the slot cleared; otherwise the error "no invocation result given" |
| Properties.ProxyThenEval | model-type-safe/src/main/java/de/alpharogroup/model/reflect/Evaluation.java:54-77 | `eval` is the reverse of `proxy()`: it recovers the same evaluation from any result `proxy()` gives. The slot is untouched for an instance and cleared otherwise. |
| Properties.OfThenEval | model-type-safe/src/main/java/de/alpharogroup/model/reflect/Evaluation.java:89-110 | `eval(of(type))` recovers the evaluation `of` created, whose stack is empty and whose context is `type` |
| Properties.OnThenEval | model-type-safe/src/main/java/de/alpharogroup/model/reflect/Evaluation.java:120-155 | `eval` of whatever a recorded call returned recovers the evaluation the call was made on |
| Properties.EvalTwiceFails | model-type-safe/src/main/java/de/alpharogroup/model/reflect/Evaluation.java:66-74 | recovering a non-proxy result consumes the slot, so recovering it a second time fails |
| Properties.EvalInstanceRepeatable | model-type-safe/src/main/java/de/alpharogroup/model/reflect/Evaluation.java:66-67 | recovering a proxy instance goes through the factory only, so it can be repeated and never touches the slot |
| Properties.NullArgumentNestsPending | model-type-safe/src/main/java/de/alpharogroup/model/reflect/Evaluation.java:130-142 | the first `null` argument met while evaluation `a` is pending is recorded as `a`. Later `null`s in the same call and all other arguments are recorded as given. Afterwards the slot is empty or holds the called evaluation. |
| Properties.NonNullArgumentsKeepSlot | model-type-safe/src/main/java/de/alpharogroup/model/reflect/Evaluation.java:132-144 | without `null` arguments every argument is recorded unchanged, and the slot changes only through `proxy()` setting it to the called evaluation |
| Properties.PendingOverwritten | model-type-safe/src/main/java/de/alpharogroup/model/reflect/Evaluation.java:169-181 | the slot is single. A non-proxyable result of another evaluation replaces the pending one in the slot; `eval` of that result yields the newer evaluation and leaves nothing pending. The older one survives only as a `Nested` entry if a `null` argument of that call consumed it. |
| Properties.FinalizeIgnored | model-type-safe/src/main/java/de/alpharogroup/model/reflect/Evaluation.java:122-126 | the finalization hook returns `null` and leaves every stack, every type context and the slot unchanged |
| Properties.EvalFromSlotExists | model-type-safe/src/main/java/de/alpharogroup/model/reflect/Evaluation.java:69-75 | an evaluation recovered through the slot is an existing one, so calls can be recorded on it |
| Properties.OnPreservesValid | model-type-safe/src/main/java/de/alpharogroup/model/reflect/Evaluation.java:135-140 | after a call the slot still names an existing evaluation |
| Properties.OfPreservesValid | model-type-safe/src/main/java/de/alpharogroup/model/reflect/Evaluation.java:89-92 | after `of` the slot still names an existing evaluation |
| Properties.EvalPreservesValid | model-type-safe/src/main/java/de/alpharogroup/model/reflect/Evaluation.java:69-70 | after a successful `eval` the slot still names an existing evaluation |
| Chains.ReplayRecordsCalls | model-type-safe/src/main/java/de/alpharogroup/model/reflect/Evaluation.java:94-97 | after any sequence of calls the old stack is a prefix of the new one. The new one is longer by one method plus its arguments per recorded call. Its methods are the old ones followed by the calls' methods in call order, with `finalize` left out. |
| Chains.ReplayEntries | model-type-safe/src/main/java/de/alpharogroup/model/reflect/Evaluation.java:94-97 | when no argument is `null`, a sequence of calls appends to the stack exactly, for each call but `finalize`, its method followed by its own arguments in order |
| Chains.ReplayThenEval | model-type-safe/src/main/java/de/alpharogroup/model/reflect/Evaluation.java:64-77 | after a non-empty chain whose last call is recorded, `eval` of the last result recovers the evaluation the chain was made on |
| Chains.OfChainEval | model-type-safe/src/main/java/de/alpharogroup/model/reflect/Evaluation.java:89-92 | `of(type)`, then n calls the last of which is recorded, then `eval`: this recovers the evaluation `of` created. Its stack holds exactly the recorded methods in call order; when no argument is `null` it is exactly each method followed by its own arguments. The older evaluations are unchanged. |
| Scenarios.EmployeePersonName | model-type-safe/src/main/java/de/alpharogroup/model/reflect/Evaluation.java:120-185 | `of(Employee).getPerson().getName()` records `[getPerson, getName]` with context `String`. The result is `null` and is recovered through the slot. |
| Scenarios.BoxOfIntegerGetValue | model-type-safe/src/main/java/de/alpharogroup/model/reflect/Evaluation.java:147-152 | `getValue()` on a `Box<Integer>` evaluation resolves the context to `Integer`, not to the type variable or its erasure |
| Scenarios.PersonAgeRecoveredOnce | model-type-safe/src/main/java/de/alpharogroup/model/reflect/Evaluation.java:169-174 | `getAge()` returns the primitive default and can be recovered once; the second recovery fails |
| Scenarios.NestedChainArgument | model-type-safe/src/main/java/de/alpharogroup/model/reflect/Evaluation.java:130-145 | an unfinished chain passed as a `null` argument is recorded as that chain, a second `null` stays `null`, and the slot is cleared |

## Left out

- Proxy fabrication and caching (`DefaultProxyFactory`, `CachingProxyFactory`) are not part of this model. They are runtime bytecode generation. `createClass` and `getCallback` are function-valued fields of `Env`, constrained only by `Consistent`.
- `Reflection.resultType` and `Reflection.getClass` are not part of this model. They are generic-type reflection and are taken as arbitrary functions in `Env`. Generic types other than plain classes are opaque (`Generic(descriptor)`).
- `Objects.convertValue` is not part of this model. `DefaultOf` stands for `Objects.convertValue(null, cls)` and is taken to be `Boxed(cls, 0)`. This includes `void`, whose class is primitive but which has no value; the model relies only on the stand-in not being a proxy instance.
- Logging of the raw-type fallback, and the effect of `super.finalize()`, which does nothing for `Object`.
- `ThreadLocal` semantics: one thread, so one slot. Cross-thread behaviour is not modelled.
- Java object identity is modelled as the index of an evaluation in the state's table. An evaluation is never reclaimed.
- A `null` parameters array passed to `on` is not modelled. Arguments are always a sequence, possibly empty.
- `GenericCollectionModel`, `CollectionModel`, `WildcardCollectionModel`, `WildcardListModel` and `BaseModel` are left out. They are thin wrappers over Java serialization checks and list copying, and are not part of the recording engine.
- `GenericModelTest` is left out. It exercises the string-path property model, which is not part of this model.
- The stack is a tagged sequence of `Entry` values (method, argument, nested evaluation). Java's `stack` is an untagged `List<Object>`, so an argument that is itself a `Method` or an `Evaluation` cannot be told apart there from a recorded method or a nested evaluation. The model's `Value` has no such case, so `Chains.Methods` counts only methods the engine recorded itself.
- Chains.ReplayEntries: the exact stack contents after a chain are stated only when no argument is `null`. With `null` arguments the slot decides per call what is recorded, and this is stated call by call in `Evaluations.On` and `Properties.NullArgumentNestsPending`, not in closed form over a chain.
- Chains.OfChainEval: the exact stack contents are stated only for chains without `null` arguments, for the same reason.
