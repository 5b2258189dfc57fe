/**
 * The part of Kotlin reflection that the schema generator consults, as finite values.
 *
 * A `KClass` is one of the classes the generator singles out by identity, a data class
 * (whose member properties and primary-constructor parameters are listed), or any other
 * class. Types of properties are `KType`s: a classifier, the type arguments and the
 * nullability mark. Only `@ToolDoc` annotations are represented, as optional doc strings;
 * other annotations are invisible to the generator and are not kept.
 */
module KotlinReflect {
  import opened Wrappers

  /** `KClass<*>`: the classes the generator compares against, data classes and the rest. */
  datatype KClass =
    | StringClass
    | IntClass
    | LongClass
    | ShortClass
    | ByteClass
    | BooleanClass
    | DoubleClass
    | FloatClass
    | ListClass
      /** A Kotlin `data class`: its `@ToolDoc`, `memberProperties` and primary-constructor parameters. */
    | DataClass(name: string, doc: Option<string>,
                memberProperties: seq<Property>, primaryConstructorParams: seq<Parameter>)
      /** Any class that is neither a data class nor one of the classes above. */
    | OtherClass(name: string)
  {
    /** `KClass.isData`. */
    predicate IsData() { DataClass? }

    /** `KClass.simpleName`. */
    function SimpleName(): (r: string)
      ensures DataClass? || OtherClass? ==> r == name
      ensures ListClass? ==> r == "List"
      ensures StringClass? ==> r == "String"
    {
      match this
      case StringClass => "String"
      case IntClass => "Int"
      case LongClass => "Long"
      case ShortClass => "Short"
      case ByteClass => "Byte"
      case BooleanClass => "Boolean"
      case DoubleClass => "Double"
      case FloatClass => "Float"
      case ListClass => "List"
      case DataClass(n, _, _, _) => n
      case OtherClass(n) => n
    }
  }

  /** `KProperty1`: a member property with its declared type and the `@ToolDoc` placed on the property. */
  datatype Property = Property(name: string, returnType: KType, doc: Option<string>)

  /** `KParameter` of the primary constructor with the `@ToolDoc` placed on the parameter. */
  datatype Parameter = Parameter(name: string, doc: Option<string>)

  /** `KType`: classifier, type arguments (`List<T>` has one) and whether it is marked `?`. */
  datatype KType = KType(classifier: Classifier, arguments: seq<TypeProjection>, isMarkedNullable: bool)

  /** `KClassifier`: a class, or a type parameter (which is not a `KClass`). */
  datatype Classifier = ClassRef(cls: KClass) | TypeParameter(name: string)

  /** `KTypeProjection`: the star projection `*` has no type. */
  datatype TypeProjection = StarProjection | Projection(argType: KType)
}
