/**
 * The part of Java reflection the evaluation engine looks at: classes, generic
 * types and methods. Everything the engine does not inspect is left out.
 */
module Reflect {

  /** A `java.lang.Class`; `primitive` is what `Class.isPrimitive()` answers. */
  datatype Class = Class(name: string, primitive: bool)

  /**
   * A `java.lang.reflect.Type`: either a plain class, or any other generic type
   * expression (parameterized type, type variable, wildcard, generic array),
   * which the engine never takes apart itself and so is kept opaque.
   */
  datatype Type =
    | Raw(cls: Class)
    | Generic(descriptor: string)

  /**
   * A `java.lang.reflect.Method`: its declaring class, name and parameter
   * types identify it (so overloads and same-named methods of different
   * classes stay distinct on a stack); the engine itself reads only the name,
   * the generic return type and the erased (raw) return type.
   */
  datatype Method = Method(
    declaring: Class,
    name: string,
    paramTypes: seq<Class>,
    genericReturn: Type,
    returnType: Class)

  /** The name of the finalization hook the engine must ignore. */
  const FinalizeName: string := "finalize"
}
