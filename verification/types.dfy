/** Type identities of the container and their reference normalisation.
    A Java class object is either one of the eight primitive types or a
    reference type named by its fully qualified class name.
 */
module Types {

  datatype PrimKind = Byte | Short | Int | Long | Float | Double | Boolean | Char

  datatype TypeKey = Primitive(kind: PrimKind) | Class(name: string)

  /** The fully qualified name of the wrapper class of a primitive type. */
  function WrapperName(k: PrimKind): string
  {
    match k
    case Byte => "java.lang.Byte"
    case Short => "java.lang.Short"
    case Int => "java.lang.Integer"
    case Long => "java.lang.Long"
    case Float => "java.lang.Float"
    case Double => "java.lang.Double"
    case Boolean => "java.lang.Boolean"
    case Char => "java.lang.Character"
  }

  /** A key as it is stored in the container's maps: never a primitive. */
  predicate IsReference(t: TypeKey)
  {
    t.Class?
  }

  /** True when `w` is the wrapper class of the primitive type `p`. */
  predicate Boxes(w: TypeKey, p: TypeKey)
  {
    p.Primitive? && w == Class(WrapperName(p.kind))
  }

  /** changeToReferenceType: a primitive type becomes its wrapper class,
      every other type is returned as it is. */
  function Ref(t: TypeKey): (r: TypeKey)
    ensures IsReference(r)
    ensures t.Primitive? ==> Boxes(r, t)
    ensures IsReference(t) ==> r == t
  {
    match t
    case Primitive(k) => Class(WrapperName(k))
    case Class(_) => t
  }

  /** The eight wrapper classes are pairwise distinct, so boxing loses nothing. */
  lemma WrapperNameInjective(a: PrimKind, b: PrimKind)
    ensures WrapperName(a) == WrapperName(b) <==> a == b
  {
    if a != b {
      assert WrapperName(a)[10..] != WrapperName(b)[10..] || |WrapperName(a)| != |WrapperName(b)|;
    }
  }

  /** Normalising twice is normalising once. */
  lemma RefIdempotent(t: TypeKey)
    ensures Ref(Ref(t)) == Ref(t)
  {
  }

  /** Two types share a registration key exactly when they are equal or one
      is the primitive type the other one boxes. */
  lemma SameKey(a: TypeKey, b: TypeKey)
    ensures Ref(a) == Ref(b) <==> (a == b || Boxes(a, b) || Boxes(b, a))
  {
    if a.Primitive? && b.Primitive? {
      WrapperNameInjective(a.kind, b.kind);
    }
  }
}
