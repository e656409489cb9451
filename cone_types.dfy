/**
 * The front-end (FIR) type forms that the type converter consumes: class ids,
 * lookup tags, cone types and their projections, and type references.
 */
module ConeTypes {
  import opened Wrappers

  /** The standard class ids the converter's builtin tables mention. */
  datatype StandardClass =
    | Nothing | Unit | Boolean | String | Any
    | Long | Int | Short | Byte | Float | Double | Char
    | Array
    | BooleanArray | CharArray | ByteArray | ShortArray
    | IntArray | LongArray | FloatArray | DoubleArray

  /** A class id: one of the standard ones above, or any other class. */
  datatype ClassId =
    | Standard(standard: StandardClass)
    | OtherClass(packageFqName: string, relativeClassName: string)

  /** A lookup tag names a classifier: a class-like declaration or a type parameter. */
  datatype LookupTag =
    | ClassLikeTag(classId: ClassId)
    | TypeParameterTag(name: string)

  /** The class id of a lookup-tag-based type; type parameters have none. */
  function ClassIdOf(tag: LookupTag): (r: Option<ClassId>)
    ensures r.Some? <==> tag.ClassLikeTag?
    ensures r.Some? ==> r.value == tag.classId
  {
    match tag
    case ClassLikeTag(id) => Some(id)
    case TypeParameterTag(_) => None
  }

  /**
   * The identity of a captured type's constructor. Its supertypes are set by
   * inference after the captured type is built, so they are looked up by this
   * identity rather than stored in the type.
   */
  datatype CapturedTypeConstructor = CapturedTypeConstructor(id: nat)

  /** A front-end annotation call; its content is opaque to the converter. */
  datatype FirAnnotationCall = FirAnnotationCall(id: nat)

  /**
   * The closed set of cone type forms. `arguments` of a classifier-based type
   * are the arguments as written; the lowering reads the arguments of the
   * fully expanded type instead, which the `expandedArguments` collaborator
   * supplies (for a type that is not an alias they are these same arguments).
   */
  datatype ConeType =
    | ConeErrorType
    | LookupTagBased(tag: LookupTag, arguments: seq<ConeTypeProjection>,
                     isMarkedNullable: bool, extensionFunctionType: bool)
    | Flexible(lowerBound: ConeType, upperBound: ConeType)
    | Captured(lowerType: Option<ConeType>, typeConstructor: CapturedTypeConstructor)
    | DefinitelyNotNull(original: ConeType)
    | Intersection(intersectedTypes: seq<ConeType>)
    | Stub(variable: string)
    | IntegerLiteral(value: int)

  /** A type argument: a star, or a type with in, out or no variance. */
  datatype ConeTypeProjection =
    | ConeStarProjection
    | ConeProjectionIn(projected: ConeType)
    | ConeProjectionOut(projected: ConeType)
    | ConeInvariantProjection(projected: ConeType)

  /** The implicit builtin type references the converter singles out. */
  datatype ImplicitBuiltinKind =
    | ImplicitNothing | ImplicitUnit | ImplicitBoolean | ImplicitString
    | ImplicitAny | ImplicitInt | ImplicitNullableAny | ImplicitNullableNothing
    | ImplicitOther(name: string)

  /** A type reference: unresolved, resolved, or an implicit builtin (which is also resolved). */
  datatype FirTypeRef =
    | UnresolvedTypeRef
    | ResolvedTypeRef(coneType: ConeType, annotations: seq<FirAnnotationCall>)
    | ImplicitBuiltinTypeRef(kind: ImplicitBuiltinKind, coneType: ConeType, annotations: seq<FirAnnotationCall>)
}
