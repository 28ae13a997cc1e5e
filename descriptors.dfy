/** The descriptor model the generator reads: argument kinds, the type
    arguments of a property's declared type, the per-property information the
    discovery step collects, and the declarations the information is keyed by.
    All of it arrives resolved; the generator only reads it. */
module Descriptors {

  datatype Option<T> = None | Some(value: T)

  /** The closed set of argument kinds (`ComposeArgumentType`). */
  datatype ComposeArgumentType =
    | Boolean | String | Float | Int | Long
    | IntArray | BooleanArray | LongArray | FloatArray
    | Parcelable | ParcelableArray | Serializable
  {
    /** The kinds a route carries as their own text. */
    predicate IsScalar()
    {
      Boolean? || String? || Float? || Int? || Long?
    }

    predicate IsPrimitiveArray()
    {
      IntArray? || BooleanArray? || LongArray? || FloatArray?
    }

    /** The kinds with no literal default and no built-in navigation type. */
    predicate IsOpaque()
    {
      Parcelable? || ParcelableArray? || Serializable?
    }
  }

  /** Variance of a type argument, with the keyword it is written with. */
  datatype Variance = Star | Invariant | Covariant | Contravariant
  {
    function Label(): string
    {
      match this
      case Star => "*"
      case Invariant => ""
      case Covariant => "out"
      case Contravariant => "in"
    }
  }

  /** A type argument as written at a use site. `reference` is absent when
      the argument has no type to resolve. */
  datatype TypeArgument = TypeArgument(variance: Variance, reference: Option<TypeReference>)

  /** A resolved type used as a type argument: the simple name of its
      declaration, whether it is nullable, and its own type arguments as
      written (empty when the reference carries none). */
  datatype TypeReference = TypeReference(simpleName: string, isNullable: bool, arguments: seq<TypeArgument>)

  /** What discovery knows about one property of a route class. */
  datatype PropertyInfo = PropertyInfo(
    propertyName: string,
    resolvedClassSimpleName: string,
    typeArguments: seq<TypeArgument>,
    composeArgumentType: ComposeArgumentType,
    isNullable: bool,
    hasDefaultValue: bool)

  /** A property declaration, identified by the class that declares it and
      its own name. */
  datatype PropertyDecl = PropertyDecl(owner: string, simpleName: string)

  /** A route class: its simple name and its properties in declaration order. */
  datatype ClassDecl = ClassDecl(simpleName: string, properties: seq<PropertyDecl>)
}
