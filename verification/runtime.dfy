/**
 * Runtime values seen by the engine, and the collaborators it calls but whose
 * code is not modelled: generic return-type resolution, `Type` to `Class`
 * erasure, and the proxy factory.
 */
module Runtime {
  import opened Wrappers
  import opened Reflect

  /** Identity of an `Evaluation` object. */
  type EvalId = nat

  /** A class fabricated by the proxy factory for some target class. */
  datatype ProxyClass = ProxyClass(name: string)

  /** A Java value passed to or returned from an intercepted call. */
  datatype Value =
    | Null
    | Boxed(cls: Class, bits: int)                    // a boxed primitive
    | Instance(proxyClass: ProxyClass, callback: EvalId)  // a fabricated proxy routing to an evaluation
    | Obj(ref: nat)                                   // any other object

  /**
   * The collaborators, as function values:
   *  - `resultType(context, genericReturn)`: the return type substituted against
   *    the receiver's type context, or `None` when it cannot be resolved;
   *  - `getClass(type)`: the erased class of a type;
   *  - `createClass(cls)`: a proxy class for `cls`, or `None` when `cls` cannot
   *    be proxied (final classes, for instance);
   *  - `getCallback(value)`: the evaluation a proxy instance routes to, or `None`.
   */
  datatype Env = Env(
    resultType: (Type, Type) -> Option<Type>,
    getClass: Type -> Class,
    createClass: Class -> Option<ProxyClass>,
    getCallback: Value -> Option<EvalId>)

  /** The proxy instance the factory creates for `pc` routing calls to evaluation `e`. */
  function CreateInstance(pc: ProxyClass, e: EvalId): (v: Value)
    ensures v.Instance? && v.callback == e
  {
    Instance(pc, e)
  }

  /**
   * The factory's reverse lookup agrees with what it fabricated: an instance
   * created for evaluation `e` looks up to `e`, and a value it did not
   * fabricate looks up to nothing.
   */
  ghost predicate Consistent(env: Env) {
    && (forall pc, e: EvalId :: env.getCallback(Instance(pc, e)) == Some(e))
    && (forall v: Value :: !v.Instance? ==> env.getCallback(v) == None)
  }

  /**
   * A value standing for the conversion of `null` to a primitive class, taken
   * to be `Boxed(cls, 0)`: the zero of a numeric class, `false`, `'\0'`. The
   * `void` class is primitive too and has no value; it gets the same stand-in,
   * which matters here only in that it is not a proxy instance.
   */
  function DefaultOf(cls: Class): (v: Value)
    requires cls.primitive
    ensures v.Boxed? && v.cls == cls
  {
    Boxed(cls, 0)
  }
}
