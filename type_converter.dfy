/**
 * Lowering of front-end cone types to back-end IR types.
 *
 * `Lower` and its companions are the specification: they thread the set of
 * visited captured types as a value and return it with the outcome. The
 * methods `ToIrType` and `ToIrTypeArgument` do the same work on a mutable
 * set object, as the converter does, and are proved equal to the functions.
 *
 * The collaborators the converter calls (symbol resolution, classifier
 * storage, type-alias expansion, annotation translation, the type
 * approximator and the captured types' supertypes) are parameters.
 *
 * Recursion into a type that is not a sub-term of the input (the expanded
 * arguments, a captured constructor's supertype, an approximation) spends one
 * unit of fuel; recursion into sub-terms spends none.
 */
module Fir2IrTypeConverter {
  import opened Wrappers
  import opened ConeTypes
  import opened IrTypes
  import opened BuiltinTables

  /** The per-call conversion flags; only the definitely-not-null flag is modelled. */
  datatype ConversionTypeContext = ConversionTypeContext(definitelyNotNull: bool)

  const DefaultContext := ConversionTypeContext(false)

  /** typeContext.definitelyNotNull(): the same context with the flag set. */
  function WithDefinitelyNotNull(ctx: ConversionTypeContext): (r: ConversionTypeContext)
    ensures r.definitelyNotNull
  {
    ctx.(definitelyNotNull := true)
  }

  /** The internal-consistency faults that abort lowering with an exception. */
  datatype FatalError =
    | StrangePrimitive(primitiveId: ClassId, arrayId: ClassId)  // error("Strange primitiveId ...")
    | NullCapturedSupertypes(ctor: CapturedTypeConstructor)     // supertypes!!
    | EmptyCapturedSupertypes(ctor: CapturedTypeConstructor)    // supertypes.first()
    | EmptyIntersection                                         // intersectedTypes.first()

  /** A lowering either completes, aborts on a fault, or runs out of fuel. */
  datatype Outcome<+T> = Done(value: T) | Fatal(error: FatalError) | OutOfFuel {
    function Propagate<U>(): (r: Outcome<U>)
      requires !Done?
      ensures !r.Done? && r.OutOfFuel? == OutOfFuel?
    {
      if Fatal? then Fatal(error) else OutOfFuel
    }
  }

  /** An outcome together with the visited captured types after the call. */
  datatype Step<+T> = Step(outcome: Outcome<T>, visited: set<ConeType>)

  /** The services the converter uses but does not implement. */
  datatype Collaborators = Collaborators(
    builtIns: IrBuiltIns,
    // lookupTag.toSymbol(session): the front-end symbol of a classifier, if any
    firSymbolOf: LookupTag -> Option<nat>,
    // firSymbol.toSymbol(session, classifierStorage, typeContext)
    classifierStorage: (nat, ConversionTypeContext) -> IrSymbol,
    // fullyExpandedType(session).typeArguments
    expandedArguments: ConeType -> seq<ConeTypeProjection>,
    // the annotation generator's toIrAnnotations()
    toIrAnnotations: seq<FirAnnotationCall> -> seq<IrAnnotation>,
    // builtIns.extensionFunctionTypeAnnotationConstructorCall()
    extensionFunctionTypeAnnotation: IrAnnotation,
    // approximateToSuperType(type, SubtypeCapturedTypesApproximation) as? ConeKotlinType
    approximateToSuperType: ConeType -> Option<ConeType>,
    // constructor.supertypes of a captured type (null while not yet set)
    capturedSupertypes: CapturedTypeConstructor -> Option<seq<ConeType>>)

  /** The variance a non-star projection lowers to. */
  function VarianceOf(p: ConeTypeProjection): (v: Variance)
    requires !p.ConeStarProjection?
    ensures v == InVariance <==> p.ConeProjectionIn?
    ensures v == OutVariance <==> p.ConeProjectionOut?
    ensures v == Invariant <==> p.ConeInvariantProjection?
  {
    match p
    case ConeProjectionIn(_) => InVariance
    case ConeProjectionOut(_) => OutVariance
    case ConeInvariantProjection(_) => Invariant
  }

  // Termination measures: only the sub-terms that lowering recurses into count.

  function Size(t: ConeType): nat {
    match t
    case Flexible(_, upper) => 1 + Size(upper)
    case Captured(lowerType, _) => if lowerType.Some? then 1 + Size(lowerType.value) else 1
    case DefinitelyNotNull(original) => 1 + Size(original)
    case Intersection(types) => if |types| == 0 then 1 else 1 + Size(types[0])
    case _ => 1
  }

  function ProjectionSize(p: ConeTypeProjection): nat {
    if p.ConeStarProjection? then 1 else 1 + Size(p.projected)
  }

  function ArgumentsSize(args: seq<ConeTypeProjection>): nat {
    if |args| == 0 then 0
    else ArgumentsSize(args[..|args| - 1]) + ProjectionSize(args[|args| - 1]) + 1
  }

  /** No simple type in `t`, at any depth of its arguments, is nullable. */
  predicate NonNullThroughout(t: IrType) {
    match t
    case IrErrorType => true
    case IrSimpleType(_, q, args, _) =>
      !q && forall i :: 0 <= i < |args| ==> ArgumentNonNull(args[i])
  }

  predicate ArgumentNonNull(a: IrTypeArgument) {
    match a
    case IrStarProjection => true
    case IrTypeProjection(t, _) => NonNullThroughout(t)
  }

  /** The symbol of a lookup tag: builtin tables first, then the classifier storage. */
  function ResolveClassifier(env: Collaborators, tag: LookupTag, ctx: ConversionTypeContext): (r: Outcome<Option<IrSymbol>>)
    ensures !r.OutOfFuel?
    ensures r.Fatal? ==>
      (r.error.StrangePrimitive? && ClassIdOf(tag).Some? && ClassIdOf(tag).value in ElementTypeByPrimitiveArrayType)
    ensures ClassIdOf(tag).Some? && ClassIdOf(tag).value in ClassIdToSymbolMap(env.builtIns) ==>
      r == Done(Some(ClassIdToSymbolMap(env.builtIns)[ClassIdOf(tag).value]))
    ensures (ClassIdOf(tag).None? ||
             (ClassIdOf(tag).value !in ClassIdToSymbolMap(env.builtIns) &&
              ClassIdOf(tag).value !in ElementTypeByPrimitiveArrayType)) ==>
      r == (match env.firSymbolOf(tag)
            case None => Done(None)
            case Some(firSymbol) => Done(Some(env.classifierStorage(firSymbol, ctx))))
  {
    match GetBuiltInClassSymbol(env.builtIns, ClassIdOf(tag))
    case Found(symbol) => Done(Some(symbol))
    case StrangePrimitiveId(primitiveId, arrayId) => Fatal(StrangePrimitive(primitiveId, arrayId))
    case NotFound =>
      match env.firSymbolOf(tag)
      case None => Done(None)
      case Some(firSymbol) => Done(Some(env.classifierStorage(firSymbol, ctx)))
  }

  /** The annotations of a lowered classifier type: the marker when needed, then the translated ones. */
  function TypeAnnotations(env: Collaborators, extensionFunctionType: bool, annotations: seq<FirAnnotationCall>): seq<IrAnnotation> {
    (if extensionFunctionType then [env.extensionFunctionTypeAnnotation] else []) + env.toIrAnnotations(annotations)
  }

  /** Turns a lowered type into a type argument with the given variance. */
  function WithVariance(s: Step<IrType>, variance: Variance): (r: Step<IrTypeArgument>)
    ensures r.visited == s.visited
    ensures r.outcome.Done? <==> s.outcome.Done?
    ensures r.outcome.Done? ==> r.outcome.value == IrTypeProjection(s.outcome.value, variance)
  {
    if s.outcome.Done? then Step(Done(IrTypeProjection(s.outcome.value, variance)), s.visited)
    else Step(s.outcome.Propagate(), s.visited)
  }

  /** ConeKotlinType.toIrType, with the visited set threaded through. */
  function Lower(env: Collaborators, t: ConeType, ctx: ConversionTypeContext, visited: set<ConeType>,
                 annotations: seq<FirAnnotationCall>, fuel: nat): (s: Step<IrType>)
    ensures visited <= s.visited
    ensures forall c :: c in s.visited && c !in visited ==> c.Captured?
    ensures t.Captured? ==> t in s.visited
    ensures ctx.definitelyNotNull && s.outcome.Done? ==> NonNullThroughout(s.outcome.value)
    decreases fuel, Size(t), 1
  {
    match t
    case ConeErrorType => Step(Done(IrErrorType), visited)
    case LookupTagBased(_, _, _, _) => LowerLookupTagBased(env, t, ctx, visited, annotations, fuel)
    case Flexible(_, upper) => Lower(env, upper, ctx, visited, [], fuel)
    case Captured(lowerType, ctor) =>
      var v := visited + {t};
      if lowerType.Some? then Lower(env, lowerType.value, ctx, v, [], fuel)
      else (
        match env.capturedSupertypes(ctor)
        case None => Step(Fatal(NullCapturedSupertypes(ctor)), v)
        case Some(supertypes) =>
          if |supertypes| == 0 then Step(Fatal(EmptyCapturedSupertypes(ctor)), v)
          else if fuel == 0 then Step(OutOfFuel, v)
          else Lower(env, supertypes[0], ctx, v, [], fuel - 1))
    case DefinitelyNotNull(original) => Lower(env, original, WithDefinitelyNotNull(ctx), visited, [], fuel)
    case Intersection(types) =>
      if |types| == 0 then Step(Fatal(EmptyIntersection), visited)
      else Lower(env, types[0], ctx, visited, [], fuel)
    case Stub(_) => Step(Done(IrErrorType), visited)
    case IntegerLiteral(_) => Step(Done(IrErrorType), visited)
  }

  /** The lookup-tag-based branch of ConeKotlinType.toIrType. */
  function LowerLookupTagBased(env: Collaborators, t: ConeType, ctx: ConversionTypeContext, visited: set<ConeType>,
                               annotations: seq<FirAnnotationCall>, fuel: nat): (s: Step<IrType>)
    requires t.LookupTagBased?
    ensures visited <= s.visited
    ensures forall c :: c in s.visited && c !in visited ==> c.Captured?
    ensures ctx.definitelyNotNull && s.outcome.Done? ==> NonNullThroughout(s.outcome.value)
    decreases fuel, Size(t), 0
  {
    var symbol := ResolveClassifier(env, t.tag, ctx);
    if !symbol.Done? then Step(symbol.Propagate(), visited)
    else if symbol.value.None? then Step(Done(IrErrorType), visited)
    else
      var expanded := env.expandedArguments(t);
      var arguments :=
        if |expanded| == 0 then Step(Done([]), visited)
        else if fuel == 0 then Step(OutOfFuel, visited)
        else LowerArguments(env, expanded, ctx, visited, fuel - 1);
      if !arguments.outcome.Done? then Step(arguments.outcome.Propagate(), arguments.visited)
      else
        Step(Done(IrSimpleType(symbol.value.value, !ctx.definitelyNotNull && t.isMarkedNullable,
                               arguments.outcome.value,
                               TypeAnnotations(env, t.extensionFunctionType, annotations))),
             arguments.visited)
  }

  /** ConeTypeProjection.toIrTypeArgument. */
  function LowerArgument(env: Collaborators, p: ConeTypeProjection, ctx: ConversionTypeContext,
                         visited: set<ConeType>, fuel: nat): (s: Step<IrTypeArgument>)
    ensures visited <= s.visited
    ensures forall c :: c in s.visited && c !in visited ==> c.Captured?
    ensures ctx.definitelyNotNull && s.outcome.Done? ==> ArgumentNonNull(s.outcome.value)
    ensures p.ConeStarProjection? ==> s == Step(Done(IrStarProjection), visited)
    ensures !p.ConeStarProjection? && s.outcome.Done? ==>
      s.outcome.value.IrTypeProjection? && s.outcome.value.variance == VarianceOf(p)
    decreases fuel, ProjectionSize(p), 2
  {
    if p.ConeStarProjection? then Step(Done(IrStarProjection), visited)
    else
      var approximation := if p.projected in visited then env.approximateToSuperType(p.projected) else None;
      if approximation.Some? then
        if fuel == 0 then Step(OutOfFuel, visited)
        else WithVariance(Lower(env, approximation.value, ctx, visited, [], fuel - 1), VarianceOf(p))
      else WithVariance(Lower(env, p.projected, ctx, visited, [], fuel), VarianceOf(p))
  }

  /** `typeArguments.map { it.toIrTypeArgument(...) }`, left to right, sharing one visited set. */
  function LowerArguments(env: Collaborators, args: seq<ConeTypeProjection>, ctx: ConversionTypeContext,
                          visited: set<ConeType>, fuel: nat): (s: Step<seq<IrTypeArgument>>)
    ensures visited <= s.visited
    ensures forall c :: c in s.visited && c !in visited ==> c.Captured?
    ensures s.outcome.Done? ==> |s.outcome.value| == |args|
    ensures ctx.definitelyNotNull && s.outcome.Done? ==>
      forall i :: 0 <= i < |s.outcome.value| ==> ArgumentNonNull(s.outcome.value[i])
    decreases fuel, ArgumentsSize(args), 2
  {
    if |args| == 0 then Step(Done([]), visited)
    else
      var init := LowerArguments(env, args[..|args| - 1], ctx, visited, fuel);
      if !init.outcome.Done? then init
      else
        var last := LowerArgument(env, args[|args| - 1], ctx, init.visited, fuel);
        if !last.outcome.Done? then Step(last.outcome.Propagate(), last.visited)
        else Step(Done(init.outcome.value + [last.outcome.value]), last.visited)
  }

  /** FirTypeRef.toIrType: each top-level call starts with an empty visited set. */
  function LowerTypeRef(env: Collaborators, ref: FirTypeRef, ctx: ConversionTypeContext, fuel: nat): (r: Outcome<IrType>)
    ensures ref.UnresolvedTypeRef? ==> r == Done(IrErrorType)
  {
    match ref
    case UnresolvedTypeRef => Done(IrErrorType)
    case ResolvedTypeRef(t, annotations) => Lower(env, t, ctx, {}, annotations, fuel).outcome
    case ImplicitBuiltinTypeRef(kind, t, annotations) =>
      match kind
      case ImplicitNothing => Done(env.builtIns.NothingType())
      case ImplicitUnit => Done(env.builtIns.UnitType())
      case ImplicitBoolean => Done(env.builtIns.BooleanType())
      case ImplicitString => Done(env.builtIns.StringType())
      case ImplicitAny => Done(env.builtIns.AnyType())
      case ImplicitInt => Done(env.builtIns.IntType())
      case ImplicitNullableAny => Done(env.builtIns.AnyNType())
      case ImplicitNullableNothing => Done(env.builtIns.NothingNType())
      case ImplicitOther(_) => Lower(env, t, ctx, {}, annotations, fuel).outcome
  }

  /** Once a prefix of the arguments fails to lower, the whole argument list fails the same way. */
  lemma {:induction false} LowerArgumentsFailureSticks(env: Collaborators, args: seq<ConeTypeProjection>,
                                                       ctx: ConversionTypeContext, visited: set<ConeType>,
                                                       fuel: nat, k: nat)
    requires k <= |args|
    requires !LowerArguments(env, args[..k], ctx, visited, fuel).outcome.Done?
    ensures LowerArguments(env, args, ctx, visited, fuel) == LowerArguments(env, args[..k], ctx, visited, fuel)
    decreases |args|
  {
    if k == |args| {
      assert args[..k] == args;
    } else {
      var init := args[..|args| - 1];
      assert init[..k] == args[..k];
      LowerArgumentsFailureSticks(env, init, ctx, visited, fuel, k);
    }
  }

  /** The mutable set of captured types visited during one top-level lowering call. */
  class CapturedTypeSet {
    var elements: set<ConeType>

    constructor ()
      ensures elements == {}
    {
      elements := {};
    }
  }

  /** ConeKotlinType.toIrType over a caller-supplied mutable visited set. */
  method ToIrType(env: Collaborators, t: ConeType, ctx: ConversionTypeContext, visited: CapturedTypeSet,
                  annotations: seq<FirAnnotationCall>, fuel: nat) returns (r: Outcome<IrType>)
    modifies visited
    ensures Step(r, visited.elements) == Lower(env, t, ctx, old(visited.elements), annotations, fuel)
    decreases fuel, Size(t), 1
  {
    match t {
      case ConeErrorType =>
        r := Done(IrErrorType);
      case LookupTagBased(tag, _, isMarkedNullable, extensionFunctionType) =>
        var symbol := ResolveClassifier(env, tag, ctx);
        if !symbol.Done? {
          return symbol.Propagate();
        }
        if symbol.value.None? {
          return Done(IrErrorType);
        }
        var typeAnnotations: seq<IrAnnotation> :=
          if extensionFunctionType then [env.extensionFunctionTypeAnnotation] else [];
        typeAnnotations := typeAnnotations + env.toIrAnnotations(annotations);
        var expanded := env.expandedArguments(t);
        if |expanded| > 0 && fuel == 0 {
          return OutOfFuel;
        }
        var argumentFuel: nat := if fuel == 0 then 0 else fuel - 1;
        ghost var before := visited.elements;
        var arguments: seq<IrTypeArgument> := [];
        var i := 0;
        while i < |expanded|
          invariant 0 <= i <= |expanded|
          invariant LowerArguments(env, expanded[..i], ctx, before, argumentFuel) == Step(Done(arguments), visited.elements)
        {
          var argument := ToIrTypeArgument(env, expanded[i], ctx, visited, argumentFuel);
          assert expanded[..i + 1][..i] == expanded[..i];
          if !argument.Done? {
            LowerArgumentsFailureSticks(env, expanded, ctx, before, argumentFuel, i + 1);
            return argument.Propagate();
          }
          arguments := arguments + [argument.value];
          i := i + 1;
        }
        assert expanded[..i] == expanded;
        r := Done(IrSimpleType(symbol.value.value, !ctx.definitelyNotNull && isMarkedNullable, arguments, typeAnnotations));
      case Flexible(_, upper) =>
        r := ToIrType(env, upper, ctx, visited, [], fuel);
      case Captured(lowerType, ctor) =>
        visited.elements := visited.elements + {t};
        if lowerType.Some? {
          r := ToIrType(env, lowerType.value, ctx, visited, [], fuel);
        } else {
          var supertypes := env.capturedSupertypes(ctor);
          if supertypes.None? {
            r := Fatal(NullCapturedSupertypes(ctor));
          } else if |supertypes.value| == 0 {
            r := Fatal(EmptyCapturedSupertypes(ctor));
          } else if fuel == 0 {
            r := OutOfFuel;
          } else {
            r := ToIrType(env, supertypes.value[0], ctx, visited, [], fuel - 1);
          }
        }
      case DefinitelyNotNull(original) =>
        r := ToIrType(env, original, WithDefinitelyNotNull(ctx), visited, [], fuel);
      case Intersection(types) =>
        if |types| == 0 {
          r := Fatal(EmptyIntersection);
        } else {
          r := ToIrType(env, types[0], ctx, visited, [], fuel);
        }
      case Stub(_) =>
        r := Done(IrErrorType);
      case IntegerLiteral(_) =>
        r := Done(IrErrorType);
    }
  }

  /** ConeTypeProjection.toIrTypeArgument over the shared mutable visited set. */
  method ToIrTypeArgument(env: Collaborators, p: ConeTypeProjection, ctx: ConversionTypeContext,
                          visited: CapturedTypeSet, fuel: nat) returns (r: Outcome<IrTypeArgument>)
    modifies visited
    ensures Step(r, visited.elements) == LowerArgument(env, p, ctx, old(visited.elements), fuel)
    decreases fuel, ProjectionSize(p), 2
  {
    var convertedType: Option<IrType> := None;
    if !p.ConeStarProjection? && p.projected in visited.elements {
      var approximation := env.approximateToSuperType(p.projected);
      if approximation.Some? {
        if fuel == 0 {
          return OutOfFuel;
        }
        var lowered := ToIrType(env, approximation.value, ctx, visited, [], fuel - 1);
        if !lowered.Done? {
          return lowered.Propagate();
        }
        convertedType := Some(lowered.value);
      }
    }
    if p.ConeStarProjection? {
      return Done(IrStarProjection);
    }
    var irType: IrType;
    if convertedType.Some? {
      irType := convertedType.value;
    } else {
      var lowered := ToIrType(env, p.projected, ctx, visited, [], fuel);
      if !lowered.Done? {
        return lowered.Propagate();
      }
      irType := lowered.value;
    }
    r := Done(IrTypeProjection(irType, VarianceOf(p)));
  }

  /** ConeKotlinType.toIrType with its default arguments: a fresh visited set per top-level call. */
  method ToIrTypeWithFreshSet(env: Collaborators, t: ConeType, ctx: ConversionTypeContext,
                              annotations: seq<FirAnnotationCall>, fuel: nat) returns (r: Outcome<IrType>)
    ensures r == Lower(env, t, ctx, {}, annotations, fuel).outcome
  {
    var visited := new CapturedTypeSet();
    r := ToIrType(env, t, ctx, visited, annotations, fuel);
  }
}
