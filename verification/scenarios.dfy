/**
 * Worked scenarios on a small class model: `Employee.getPerson()`,
 * `Person.getName()` (a final `String`), `Person.getAge()` (a primitive `int`),
 * a generic `Box<T>.getValue()` seen through `Box<Integer>`, and
 * `Employee.findColleague(Person, Person)` taking two arguments.
 */
module Scenarios {
  import opened Wrappers
  import opened Reflect
  import opened Runtime
  import opened Evaluations
  import opened Properties

  const ObjectClass := Class("java.lang.Object", false)
  const EmployeeClass := Class("Employee", false)
  const PersonClass := Class("Person", false)
  const StringClass := Class("java.lang.String", false)
  const IntegerClass := Class("java.lang.Integer", false)
  const IntClass := Class("int", true)
  const BoxClass := Class("Box", false)

  /** `Box<Integer>`, and the type variable `T` of `Box<T>`. */
  const BoxOfInteger := Generic("Box<java.lang.Integer>")
  const TypeVarT := Generic("T")

  const GetPerson := Method(EmployeeClass, "getPerson", [], Raw(PersonClass), PersonClass)
  const GetName := Method(PersonClass, "getName", [], Raw(StringClass), StringClass)
  const GetAge := Method(PersonClass, "getAge", [], Raw(IntClass), IntClass)
  const GetValue := Method(BoxClass, "getValue", [], TypeVarT, ObjectClass)
  const FindColleague := Method(EmployeeClass, "findColleague", [PersonClass, PersonClass], Raw(PersonClass), PersonClass)

  /**
   * Collaborators for the class model: plain classes resolve to themselves,
   * `T` resolves to `Integer` on a `Box<Integer>`, the final classes `String`
   * and `Integer` cannot be proxied, and only fabricated instances have a callback.
   */
  const SampleEnv := Env(
    (context: Type, g: Type) =>
      if g.Raw? then Some(g)
      else if context == BoxOfInteger && g == TypeVarT then Some(Raw(IntegerClass))
      else None,
    (t: Type) => if t.Raw? then t.cls else if t == BoxOfInteger then BoxClass else ObjectClass,
    (c: Class) => if c == StringClass || c == IntegerClass then None else Some(ProxyClass(c.name + "$Proxy")),
    (v: Value) => if v.Instance? then Some(v.callback) else None)

  const Empty := State([], None)

  lemma SampleEnvConsistent()
    ensures Consistent(SampleEnv)
  {
  }

  /**
   * `of(Employee.class).getPerson().getName()` then `eval`: the record is
   * `[getPerson, getName]` with no argument entries, the context is `String`,
   * and since `String` cannot be proxied the result is `null` and the
   * evaluation is recovered through the slot.
   */
  lemma EmployeePersonName()
    ensures var r1 := Of(SampleEnv, Empty, EmployeeClass);
            var r2 := On(SampleEnv, r1.state, 0, GetPerson, []);
            var r3 := On(SampleEnv, r2.state, 0, GetName, []);
            && r1.value == Instance(ProxyClass("Employee$Proxy"), 0)
            && r2.value == Instance(ProxyClass("Person$Proxy"), 0)
            && r3.value == Null
            && Eval(SampleEnv, r3.state, r3.value) ==
              Success(Recovered(State([Evaluation([Invoked(GetPerson), Invoked(GetName)], Raw(StringClass))], None), 0))
  {
    var r1 := Of(SampleEnv, Empty, EmployeeClass);
    assert r1.state == State([Evaluation([], Raw(EmployeeClass))], None);
    assert GetPerson.name != FinalizeName by { assert GetPerson.name[0] != FinalizeName[0]; }
    assert Record(SampleEnv, r1.state, 0, GetPerson, []).evals[0].stack == [Invoked(GetPerson)];
    var r2 := On(SampleEnv, r1.state, 0, GetPerson, []);
    assert r2.state == State([Evaluation([Invoked(GetPerson)], Raw(PersonClass))], None);
    assert GetName.name != FinalizeName by { assert GetName.name[0] != FinalizeName[0]; }
    assert Record(SampleEnv, r2.state, 0, GetName, []).evals[0].stack == [Invoked(GetPerson), Invoked(GetName)];
    var r3 := On(SampleEnv, r2.state, 0, GetName, []);
    assert r3.state == State([Evaluation([Invoked(GetPerson), Invoked(GetName)], Raw(StringClass))], Some(0));
  }

  /**
   * `getValue()` on an evaluation started at `Box<Integer>` resolves the
   * context to `Integer`, not to `T` nor to the erased `Object`; `Integer` is
   * final, so the result is `null` and recovery goes through the slot.
   */
  lemma BoxOfIntegerGetValue()
    ensures var c := Create(Empty, BoxOfInteger);
            var r1 := Proxy(SampleEnv, c.state, c.evaluation);
            var r2 := On(SampleEnv, r1.state, 0, GetValue, []);
            && r1.value == Instance(ProxyClass("Box$Proxy"), 0)
            && r2.state.evals[0].context == Raw(IntegerClass)
            && r2.value == Null
            && Eval(SampleEnv, r2.state, r2.value).Success?
            && Eval(SampleEnv, r2.state, r2.value).value.evaluation == 0
  {
  }

  /**
   * `of(Person.class).getAge()` returns the primitive default `0` and parks the
   * evaluation; `eval` recovers it, and a second `eval` of the same `0` fails.
   */
  lemma PersonAgeRecoveredOnce()
    ensures var r1 := Of(SampleEnv, Empty, PersonClass);
            var r2 := On(SampleEnv, r1.state, 0, GetAge, []);
            var e := Eval(SampleEnv, r2.state, r2.value);
            && r2.value == Boxed(IntClass, 0)
            && e == Success(Recovered(State([Evaluation([Invoked(GetAge)], Raw(IntClass))], None), 0))
            && Eval(SampleEnv, e.value.state, r2.value) == Failure(NoInvocationResult)
  {
    var r1 := Of(SampleEnv, Empty, PersonClass);
    assert r1.state == State([Evaluation([], Raw(PersonClass))], None);
    assert GetAge.name != FinalizeName by { assert GetAge.name[0] != FinalizeName[0]; }
    assert Record(SampleEnv, r1.state, 0, GetAge, []).evals[0].stack == [Invoked(GetAge)];
    var r2 := On(SampleEnv, r1.state, 0, GetAge, []);
    assert r2.state == State([Evaluation([Invoked(GetAge)], Raw(IntClass))], Some(0));
  }

  /**
   * `of(Employee.class).findColleague(null, null)` made while the chain
   * `of(Person.class).getName()` is pending (its result, a final `String`, is
   * `null`): the first `null` is recorded as the `Person` evaluation and clears
   * the slot; the second `null` is recorded as a plain `null`.
   */
  lemma NestedChainArgument()
    ensures var a1 := Of(SampleEnv, Empty, PersonClass);
            var a2 := On(SampleEnv, a1.state, 0, GetName, []);
            var b1 := Of(SampleEnv, a2.state, EmployeeClass);
            var b2 := On(SampleEnv, b1.state, 1, FindColleague, [Null, Null]);
            && a2.value == Null && a2.state.pending == Some(0)
            && b1.state.pending == Some(0)
            && b2.state.evals[1].stack == [Invoked(FindColleague), Nested(0), Arg(Null)]
            && b2.state.pending == None
            && b2.value == Instance(ProxyClass("Person$Proxy"), 1)
  {
  }
}
