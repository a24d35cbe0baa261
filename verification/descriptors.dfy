/** The type-descriptor table that stands in for Java reflection: for each
    type, whether it is abstract, its public constructors in the order
    reflection lists them, and its public methods.
 */
module Descriptors {
  import opened Types

  /** A public constructor: its parameter types, whether it carries the
      dependency-constructor annotation, and whether its body throws. */
  datatype Ctor = Ctor(params: seq<TypeKey>, annotated: bool, bodyFails: bool)

  /** A public method: its parameter types, whether it returns void, whether
      it carries the dependency-method annotation, and whether invoking it
      throws. */
  datatype Method = Method(params: seq<TypeKey>, isVoid: bool, annotated: bool, invokeFails: bool)

  /** What reflection tells about one type. `isAbstract` covers both
      interfaces and abstract classes. */
  datatype TypeDesc = TypeDesc(isAbstract: bool, ctors: seq<Ctor>, methods: seq<Method>)

  /** The whole table: a description of every type. */
  type Universe = TypeKey -> TypeDesc

  /** isAbstractType: an interface or an abstract class. */
  predicate IsAbstractType(u: Universe, t: TypeKey)
  {
    u(t).isAbstract
  }

  /** isCorrectAnnotatedMethod: returns void and takes at least one argument. */
  predicate IsCorrectAnnotatedMethod(m: Method)
  {
    m.isVoid && |m.params| > 0
  }
}
