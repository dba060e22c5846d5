/** The part of the compiler's reflection layer (javax.lang.model) that the naming
    strategy looks at, as plain values. The host compiler hands these handles in;
    the strategy only reads them. */
module Reflection {

  datatype Option<T> = None | Some(value: T)

  /** A class or interface declaration. Only two things about it matter here: it is
      the key of the enum cache, and it lists the interfaces it implements directly
      (each as the text that `toString()` gives for that interface type). */
  datatype TypeElement = TypeElement(qualifiedName: string, interfaces: seq<string>)

  /** What `DeclaredType.asElement()` returns: a type declaration, or some other
      kind of element. */
  datatype Element =
    | TypeElem(typeElement: TypeElement)
    | OtherElement(kind: string)

  /** A type as it is used, e.g. the return type of a method. Primitive types,
      arrays and type variables are `OtherType`. */
  datatype TypeMirror =
    | DeclaredType(element: Element)
    | OtherType(kind: string)

  /** A method: its simple name and its declared return type. */
  datatype ExecutableElement = ExecutableElement(simpleName: string, returnType: TypeMirror)
}
