/** Properties of the type converter's lowering. */
module Fir2IrTypeConverterLemmas {
  import opened Wrappers
  import opened ConeTypes
  import opened IrTypes
  import opened BuiltinTables
  import opened Fir2IrTypeConverter

  // ----- Builtin tables -----

  /** A sequence without repeated elements has as many distinct elements as it has positions. */
  lemma {:induction false} DistinctCardinality<T>(s: seq<T>)
    requires forall i, j :: 0 <= i < j < |s| ==> s[i] != s[j]
    ensures |Elements(s)| == |s|
  {
    if |s| > 0 {
      var init := s[..|s| - 1];
      DistinctCardinality(init);
      assert Elements(s) == Elements(init) + {s[|s| - 1]};
      assert s[|s| - 1] !in Elements(init);
    }
  }

  function Elements<T>(s: seq<T>): set<T> {
    set x | x in s
  }

  /** The keys of the builtin symbol table, in the source's order. */
  const SymbolTableIds: seq<ClassId> :=
    [Standard(Nothing), Standard(Unit), Standard(Boolean), Standard(String), Standard(Any),
     Standard(Long), Standard(Int), Standard(Short), Standard(Byte), Standard(Float),
     Standard(Double), Standard(Char), Standard(Array)]

  /** The primitive array class ids. */
  const PrimitiveArrayIds: seq<ClassId> :=
    [Standard(BooleanArray), Standard(CharArray), Standard(ByteArray), Standard(ShortArray),
     Standard(IntArray), Standard(LongArray), Standard(FloatArray), Standard(DoubleArray)]

  lemma SymbolTableIdsCount()
    ensures |Elements(SymbolTableIds)| == 13
  {
    assert forall i, j :: 0 <= i < j < |SymbolTableIds| ==> SymbolTableIds[i] != SymbolTableIds[j];
    DistinctCardinality(SymbolTableIds);
  }

  lemma PrimitiveArrayIdsCount()
    ensures |Elements(PrimitiveArrayIds)| == 8
  {
    assert forall i, j :: 0 <= i < j < |PrimitiveArrayIds| ==> PrimitiveArrayIds[i] != PrimitiveArrayIds[j];
    DistinctCardinality(PrimitiveArrayIds);
  }

  lemma SymbolTableKeys(b: IrBuiltIns)
    ensures ClassIdToSymbolMap(b).Keys == Elements(SymbolTableIds)
  {
  }

  lemma PrimitiveArrayKeys()
    ensures ElementTypeByPrimitiveArrayType.Keys == Elements(PrimitiveArrayIds)
  {
  }

  /** The class-id-to-symbol table has thirteen entries. */
  lemma SymbolTableSize(b: IrBuiltIns)
    ensures |ClassIdToSymbolMap(b)| == 13
  {
    SymbolTableIdsCount();
    SymbolTableKeys(b);
  }

  /** The type table has the symbol table's keys minus `Array`, and each type is the default type of the same symbol. */
  lemma TypeTableMatchesSymbolTable(b: IrBuiltIns)
    ensures Standard(Array) in ClassIdToSymbolMap(b)
    ensures ClassIdToTypeMap(b).Keys == ClassIdToSymbolMap(b).Keys - {Standard(Array)}
    ensures forall id :: id in ClassIdToTypeMap(b) ==> ClassIdToTypeMap(b)[id] == DefaultType(ClassIdToSymbolMap(b)[id])
  {
  }

  /** The primitive-array table has eight entries. */
  lemma PrimitiveArrayTableSize()
    ensures |ElementTypeByPrimitiveArrayType| == 8
  {
    PrimitiveArrayIdsCount();
    PrimitiveArrayKeys();
  }

  /** The primitive-array ids are not in the symbol table, and every element type has a builtin type. */
  lemma PrimitiveArrayTableFits(b: IrBuiltIns)
    ensures ClassIdToSymbolMap(b).Keys !! ElementTypeByPrimitiveArrayType.Keys
    ensures forall id :: id in ElementTypeByPrimitiveArrayType ==> ElementTypeByPrimitiveArrayType[id] in ClassIdToTypeMap(b)
  {
  }

  /** getArrayClassSymbol fails fatally exactly for a primitive array whose element type has no back-end array symbol. */
  lemma GetArrayClassSymbolFatalIff(b: IrBuiltIns, classId: Option<ClassId>)
    ensures GetArrayClassSymbol(b, classId).StrangePrimitiveId? <==>
      classId.Some? && classId.value in ElementTypeByPrimitiveArrayType &&
      ClassIdToTypeMap(b)[ElementTypeByPrimitiveArrayType[classId.value]] !in b.primitiveArrayForType
  {
    PrimitiveArrayTableFits(b);
  }

  // ----- Degenerate forms and type references -----

  /** Error, stub and integer-literal types lower to the error type and leave the visited set alone. */
  lemma DegenerateTypesLowerToError(env: Collaborators, t: ConeType, ctx: ConversionTypeContext,
                                    visited: set<ConeType>, annotations: seq<FirAnnotationCall>, fuel: nat)
    requires t.ConeErrorType? || t.Stub? || t.IntegerLiteral?
    ensures Lower(env, t, ctx, visited, annotations, fuel) == Step(Done(IrErrorType), visited)
  {
  }

  /** The fixed implicit builtin references lower to argument-free builtin types whatever their cone type; only the two nullable ones are nullable. */
  lemma ImplicitBuiltinTypeRefs(env: Collaborators, kind: ImplicitBuiltinKind, t: ConeType,
                                annotations: seq<FirAnnotationCall>, ctx: ConversionTypeContext, fuel: nat)
    requires !kind.ImplicitOther?
    ensures var r := LowerTypeRef(env, ImplicitBuiltinTypeRef(kind, t, annotations), ctx, fuel);
      && r.Done? && r.value.IrSimpleType?
      && r.value.arguments == [] && r.value.annotations == []
      && (r.value.hasQuestionMark <==> kind.ImplicitNullableAny? || kind.ImplicitNullableNothing?)
      && (kind.ImplicitNullableAny? || kind.ImplicitAny? ==> r.value.classifier == env.builtIns.anyClass)
      && (kind.ImplicitNullableNothing? || kind.ImplicitNothing? ==> r.value.classifier == env.builtIns.nothingClass)
      && (kind.ImplicitUnit? ==> r.value.classifier == env.builtIns.unitClass)
      && (kind.ImplicitBoolean? ==> r.value.classifier == env.builtIns.booleanClass)
      && (kind.ImplicitString? ==> r.value.classifier == env.builtIns.stringClass)
      && (kind.ImplicitInt? ==> r.value.classifier == env.builtIns.intClass)
  {
  }

  /** Any other resolved reference lowers its cone type with its own annotations and a fresh visited set. */
  lemma ResolvedTypeRefLowersItsType(env: Collaborators, ref: FirTypeRef, ctx: ConversionTypeContext, fuel: nat)
    requires ref.ResolvedTypeRef? || (ref.ImplicitBuiltinTypeRef? && ref.kind.ImplicitOther?)
    ensures LowerTypeRef(env, ref, ctx, fuel) == Lower(env, ref.coneType, ctx, {}, ref.annotations, fuel).outcome
  {
  }

  // ----- Classifier-based types -----

  /** Symbol resolution: builtin tables first, then the classifier storage; no front-end symbol gives the error type. */
  lemma LookupTagBasedSymbol(env: Collaborators, t: ConeType, ctx: ConversionTypeContext, visited: set<ConeType>,
                             annotations: seq<FirAnnotationCall>, fuel: nat)
    requires t.LookupTagBased?
    ensures var s := Lower(env, t, ctx, visited, annotations, fuel);
      var builtin := GetBuiltInClassSymbol(env.builtIns, ClassIdOf(t.tag));
      && (builtin.Found? && s.outcome.Done? ==> s.outcome.value.IrSimpleType? && s.outcome.value.classifier == builtin.symbol)
      && (builtin.StrangePrimitiveId? ==> s == Step(Fatal(StrangePrimitive(builtin.primitiveId, builtin.arrayId)), visited))
      && (builtin.NotFound? && env.firSymbolOf(t.tag).None? ==> s == Step(Done(IrErrorType), visited))
      && (builtin.NotFound? && env.firSymbolOf(t.tag).Some? && s.outcome.Done? ==>
            s.outcome.value.IrSimpleType? &&
            s.outcome.value.classifier == env.classifierStorage(env.firSymbolOf(t.tag).value, ctx))
  {
  }

  /**
   * A non-nullable builtin class type without arguments or annotations, and not
   * an alias, lowers to exactly the builtin type the type table gives its id.
   */
  lemma PlainBuiltinClassTypeLowersToBuiltinType(env: Collaborators, standard: StandardClass, ctx: ConversionTypeContext,
                                                 visited: set<ConeType>, fuel: nat)
    requires Standard(standard) in ClassIdToTypeMap(env.builtIns)
    requires env.expandedArguments(LookupTagBased(ClassLikeTag(Standard(standard)), [], false, false)) == []
    requires env.toIrAnnotations([]) == []
    ensures Lower(env, LookupTagBased(ClassLikeTag(Standard(standard)), [], false, false), ctx, visited, [], fuel) ==
            Step(Done(ClassIdToTypeMap(env.builtIns)[Standard(standard)]), visited)
  {
    TypeTableMatchesSymbolTable(env.builtIns);
    var t := LookupTagBased(ClassLikeTag(Standard(standard)), [], false, false);
    var symbol := ClassIdToSymbolMap(env.builtIns)[Standard(standard)];
    assert ResolveClassifier(env, t.tag, ctx) == Done(Some(symbol));
    assert TypeAnnotations(env, false, []) == [];
  }

  /** A lowered classifier type is nullable iff it is marked nullable and the definitely-not-null flag is off. */
  lemma LookupTagBasedNullability(env: Collaborators, t: ConeType, ctx: ConversionTypeContext, visited: set<ConeType>,
                                  annotations: seq<FirAnnotationCall>, fuel: nat)
    requires t.LookupTagBased?
    ensures var s := Lower(env, t, ctx, visited, annotations, fuel);
      s.outcome.Done? && s.outcome.value.IrSimpleType? ==>
        (s.outcome.value.hasQuestionMark <==> t.isMarkedNullable && !ctx.definitelyNotNull)
  {
  }

  /** The arguments are those of the fully expanded type, lowered in order with one shared visited set. */
  lemma LookupTagBasedArguments(env: Collaborators, t: ConeType, ctx: ConversionTypeContext, visited: set<ConeType>,
                                annotations: seq<FirAnnotationCall>, fuel: nat)
    requires t.LookupTagBased?
    ensures var s := Lower(env, t, ctx, visited, annotations, fuel);
      var expanded := env.expandedArguments(t);
      s.outcome.Done? && s.outcome.value.IrSimpleType? ==>
        && |s.outcome.value.arguments| == |expanded|
        && (|expanded| > 0 ==>
              (fuel > 0 &&
               LowerArguments(env, expanded, ctx, visited, fuel - 1) == Step(Done(s.outcome.value.arguments), s.visited)))
  {
  }

  /** The annotations are the translated ones, preceded by one extension-function marker iff the attribute is set. */
  lemma LookupTagBasedAnnotations(env: Collaborators, t: ConeType, ctx: ConversionTypeContext, visited: set<ConeType>,
                                  annotations: seq<FirAnnotationCall>, fuel: nat)
    requires t.LookupTagBased?
    ensures var s := Lower(env, t, ctx, visited, annotations, fuel);
      var translated := env.toIrAnnotations(annotations);
      s.outcome.Done? && s.outcome.value.IrSimpleType? ==>
        && (t.extensionFunctionType ==>
              |s.outcome.value.annotations| == |translated| + 1 &&
              s.outcome.value.annotations[0] == env.extensionFunctionTypeAnnotation &&
              s.outcome.value.annotations[1..] == translated)
        && (!t.extensionFunctionType ==> s.outcome.value.annotations == translated)
  {
  }

  /** Argument k of a lowered list is argument k lowered with the visited set left by arguments 0..k-1. */
  lemma {:induction false} LowerArgumentsElementwise(env: Collaborators, args: seq<ConeTypeProjection>,
                                                     ctx: ConversionTypeContext, visited: set<ConeType>, fuel: nat, k: nat)
    requires k < |args|
    requires LowerArguments(env, args, ctx, visited, fuel).outcome.Done?
    ensures var whole := LowerArguments(env, args, ctx, visited, fuel).outcome.value;
      var prefix := LowerArguments(env, args[..k], ctx, visited, fuel);
      && prefix.outcome.Done?
      && prefix.outcome.value == whole[..k]
      && LowerArgument(env, args[k], ctx, prefix.visited, fuel).outcome == Done(whole[k])
    decreases |args|
  {
    var init := args[..|args| - 1];
    var initStep := LowerArguments(env, init, ctx, visited, fuel);
    if k == |args| - 1 {
      assert args[..k] == init;
    } else {
      LowerArgumentsElementwise(env, init, ctx, visited, fuel, k);
      assert init[..k] == args[..k];
      assert init[k] == args[k];
    }
  }

  // ----- Types that lower to one chosen component -----

  /** A flexible type lowers exactly as its upper bound; its lower bound and the annotations are dropped. */
  lemma FlexibleLowersAsUpperBound(env: Collaborators, lower: ConeType, upper: ConeType, ctx: ConversionTypeContext,
                                   visited: set<ConeType>, annotations: seq<FirAnnotationCall>, fuel: nat)
    ensures Lower(env, Flexible(lower, upper), ctx, visited, annotations, fuel) == Lower(env, upper, ctx, visited, [], fuel)
  {
  }

  /** An intersection lowers exactly as its first component; an empty one is a fault. */
  lemma IntersectionLowersAsFirst(env: Collaborators, types: seq<ConeType>, ctx: ConversionTypeContext,
                                  visited: set<ConeType>, annotations: seq<FirAnnotationCall>, fuel: nat)
    ensures |types| > 0 ==>
      Lower(env, Intersection(types), ctx, visited, annotations, fuel) == Lower(env, types[0], ctx, visited, [], fuel)
    ensures |types| == 0 ==>
      Lower(env, Intersection(types), ctx, visited, annotations, fuel) == Step(Fatal(EmptyIntersection), visited)
  {
  }

  /** A captured type joins the visited set first, then lowers as its lower type, else as its constructor's first supertype. */
  lemma CapturedLowering(env: Collaborators, t: ConeType, ctx: ConversionTypeContext,
                         visited: set<ConeType>, annotations: seq<FirAnnotationCall>, fuel: nat)
    requires t.Captured?
    ensures t.lowerType.Some? ==>
      Lower(env, t, ctx, visited, annotations, fuel) == Lower(env, t.lowerType.value, ctx, visited + {t}, [], fuel)
    ensures t.lowerType.None? ==>
      var supertypes := env.capturedSupertypes(t.typeConstructor);
      && (supertypes.None? ==> Lower(env, t, ctx, visited, annotations, fuel) == Step(Fatal(NullCapturedSupertypes(t.typeConstructor)), visited + {t}))
      && (supertypes.Some? && |supertypes.value| == 0 ==>
            Lower(env, t, ctx, visited, annotations, fuel) == Step(Fatal(EmptyCapturedSupertypes(t.typeConstructor)), visited + {t}))
      && (supertypes.Some? && |supertypes.value| > 0 && fuel > 0 ==>
            Lower(env, t, ctx, visited, annotations, fuel) == Lower(env, supertypes.value[0], ctx, visited + {t}, [], fuel - 1))
  {
  }

  /** A definitely-not-null type lowers its original with the flag set, so nothing in the result is nullable, arguments included. */
  lemma DefinitelyNotNullLowering(env: Collaborators, original: ConeType, ctx: ConversionTypeContext,
                                  visited: set<ConeType>, annotations: seq<FirAnnotationCall>, fuel: nat)
    ensures var s := Lower(env, DefinitelyNotNull(original), ctx, visited, annotations, fuel);
      && s == Lower(env, original, ctx.(definitelyNotNull := true), visited, [], fuel)
      && (s.outcome.Done? ==> NonNullThroughout(s.outcome.value))
  {
  }

  // ----- Projections -----

  /** The approximator is consulted only for an argument type already in the visited set, and falls back to direct lowering. */
  lemma ProjectionLowering(env: Collaborators, p: ConeTypeProjection, ctx: ConversionTypeContext,
                           visited: set<ConeType>, fuel: nat)
    requires !p.ConeStarProjection?
    ensures p.projected !in visited || env.approximateToSuperType(p.projected).None? ==>
      LowerArgument(env, p, ctx, visited, fuel) == WithVariance(Lower(env, p.projected, ctx, visited, [], fuel), VarianceOf(p))
    ensures p.projected in visited && env.approximateToSuperType(p.projected).Some? && fuel > 0 ==>
      LowerArgument(env, p, ctx, visited, fuel) ==
        WithVariance(Lower(env, env.approximateToSuperType(p.projected).value, ctx, visited, [], fuel - 1), VarianceOf(p))
  {
  }

  // ----- Fuel -----

  /** Fuel only bounds the recursion: once a lowering completes or faults, more fuel gives the same answer. */
  lemma {:induction false} LowerFuelMonotone(env: Collaborators, t: ConeType, ctx: ConversionTypeContext, visited: set<ConeType>,
                                             annotations: seq<FirAnnotationCall>, fuel: nat, more: nat)
    requires fuel <= more
    requires !Lower(env, t, ctx, visited, annotations, fuel).outcome.OutOfFuel?
    ensures Lower(env, t, ctx, visited, annotations, more) == Lower(env, t, ctx, visited, annotations, fuel)
    decreases fuel, Size(t), 1
  {
    match t
    case ConeErrorType =>
    case LookupTagBased(_, _, _, _) =>
      LookupTagBasedFuelMonotone(env, t, ctx, visited, annotations, fuel, more);
    case Flexible(_, upper) =>
      LowerFuelMonotone(env, upper, ctx, visited, [], fuel, more);
    case Captured(lowerType, ctor) =>
      var v := visited + {t};
      if lowerType.Some? {
        LowerFuelMonotone(env, lowerType.value, ctx, v, [], fuel, more);
      } else {
        var supertypes := env.capturedSupertypes(ctor);
        if supertypes.Some? && |supertypes.value| > 0 {
          LowerFuelMonotone(env, supertypes.value[0], ctx, v, [], fuel - 1, more - 1);
        }
      }
    case DefinitelyNotNull(original) =>
      LowerFuelMonotone(env, original, WithDefinitelyNotNull(ctx), visited, [], fuel, more);
    case Intersection(types) =>
      if |types| > 0 {
        LowerFuelMonotone(env, types[0], ctx, visited, [], fuel, more);
      }
    case Stub(_) =>
    case IntegerLiteral(_) =>
  }

  lemma {:induction false} LookupTagBasedFuelMonotone(env: Collaborators, t: ConeType, ctx: ConversionTypeContext, visited: set<ConeType>,
                                                      annotations: seq<FirAnnotationCall>, fuel: nat, more: nat)
    requires t.LookupTagBased?
    requires fuel <= more
    requires !LowerLookupTagBased(env, t, ctx, visited, annotations, fuel).outcome.OutOfFuel?
    ensures LowerLookupTagBased(env, t, ctx, visited, annotations, more) == LowerLookupTagBased(env, t, ctx, visited, annotations, fuel)
    decreases fuel, Size(t), 0
  {
    var symbol := ResolveClassifier(env, t.tag, ctx);
    var expanded := env.expandedArguments(t);
    if symbol.Done? && symbol.value.Some? && |expanded| > 0 {
      LowerArgumentsFuelMonotone(env, expanded, ctx, visited, fuel - 1, more - 1);
    }
  }

  lemma {:induction false} LowerArgumentFuelMonotone(env: Collaborators, p: ConeTypeProjection, ctx: ConversionTypeContext,
                                                     visited: set<ConeType>, fuel: nat, more: nat)
    requires fuel <= more
    requires !LowerArgument(env, p, ctx, visited, fuel).outcome.OutOfFuel?
    ensures LowerArgument(env, p, ctx, visited, more) == LowerArgument(env, p, ctx, visited, fuel)
    decreases fuel, ProjectionSize(p), 2
  {
    if !p.ConeStarProjection? {
      var approximation := if p.projected in visited then env.approximateToSuperType(p.projected) else None;
      if approximation.Some? {
        LowerFuelMonotone(env, approximation.value, ctx, visited, [], fuel - 1, more - 1);
      } else {
        LowerFuelMonotone(env, p.projected, ctx, visited, [], fuel, more);
      }
    }
  }

  lemma {:induction false} LowerArgumentsFuelMonotone(env: Collaborators, args: seq<ConeTypeProjection>, ctx: ConversionTypeContext,
                                                      visited: set<ConeType>, fuel: nat, more: nat)
    requires fuel <= more
    requires !LowerArguments(env, args, ctx, visited, fuel).outcome.OutOfFuel?
    ensures LowerArguments(env, args, ctx, visited, more) == LowerArguments(env, args, ctx, visited, fuel)
    decreases fuel, ArgumentsSize(args), 2
  {
    if |args| > 0 {
      var init := LowerArguments(env, args[..|args| - 1], ctx, visited, fuel);
      LowerArgumentsFuelMonotone(env, args[..|args| - 1], ctx, visited, fuel, more);
      if init.outcome.Done? {
        LowerArgumentFuelMonotone(env, args[|args| - 1], ctx, init.visited, fuel, more);
      }
    }
  }

  // ----- A self-referential capture -----

  /** A captured type without a lower type whose constructor's only supertype is `Foo<itself>`. */
  const SelfCaptured: ConeType := Captured(None, CapturedTypeConstructor(0))

  const FooOfSelf: ConeType :=
    LookupTagBased(ClassLikeTag(OtherClass("p", "Foo")), [ConeInvariantProjection(SelfCaptured)], false, false)

  const AnyConeType: ConeType := LookupTagBased(ClassLikeTag(Standard(Any)), [], false, false)

  /** Collaborators for the self-referential capture, with the given approximator answer. */
  function SelfCaptureEnv(b: IrBuiltIns, approximation: Option<ConeType>): Collaborators {
    Collaborators(
      b,
      tag => Some(0),
      (symbol, ctx) => IrSymbol(100),
      (t: ConeType) => if t.LookupTagBased? then t.arguments else [],
      annotations => [],
      IrAnnotation(0),
      t => approximation,
      ctor => Some([FooOfSelf]))
  }

  lemma SelfCaptureEnvFacts(b: IrBuiltIns, approximation: Option<ConeType>, ctx: ConversionTypeContext)
    ensures var env := SelfCaptureEnv(b, approximation);
      && ResolveClassifier(env, FooOfSelf.tag, ctx) == Done(Some(IrSymbol(100)))
      && env.expandedArguments(FooOfSelf) == [ConeInvariantProjection(SelfCaptured)]
      && env.expandedArguments(AnyConeType) == []
      && env.capturedSupertypes(SelfCaptured.typeConstructor) == Some([FooOfSelf])
      && env.approximateToSuperType(SelfCaptured) == approximation
      && TypeAnnotations(env, false, []) == []
  {
    assert GetBuiltInClassSymbol(b, Some(OtherClass("p", "Foo"))) == NotFound;
  }

  /** With an approximator, the self-referential capture lowers to `Foo<Any>` once three units of fuel are given. */
  lemma SelfReferentialCaptureTerminates(b: IrBuiltIns, fuel: nat)
    requires fuel >= 3
    ensures Lower(SelfCaptureEnv(b, Some(AnyConeType)), SelfCaptured, DefaultContext, {}, [], fuel) ==
      Step(Done(IrSimpleType(IrSymbol(100), false, [IrTypeProjection(b.AnyType(), Invariant)], [])), {SelfCaptured})
  {
    var env := SelfCaptureEnv(b, Some(AnyConeType));
    var v := {SelfCaptured};
    var argument := ConeInvariantProjection(SelfCaptured);
    SelfCaptureEnvFacts(b, Some(AnyConeType), DefaultContext);
    assert GetBuiltInClassSymbol(b, Some(Standard(Any))) == Found(b.anyClass);
    assert ResolveClassifier(env, AnyConeType.tag, DefaultContext) == Done(Some(b.anyClass));
    assert Lower(env, AnyConeType, DefaultContext, v, [], 0) == Step(Done(b.AnyType()), v);
    assert LowerArgument(env, argument, DefaultContext, v, 1) ==
      Step(Done(IrTypeProjection(b.AnyType(), Invariant)), v);
    var args := [argument];
    assert args[..|args| - 1] == [];
    assert LowerArguments(env, args[..|args| - 1], DefaultContext, v, 1) == Step(Done([]), v);
    assert args[|args| - 1] == argument;
    assert [] + [IrTypeProjection(b.AnyType(), Invariant)] == [IrTypeProjection(b.AnyType(), Invariant)];
    assert LowerArguments(env, args, DefaultContext, v, 1) ==
      Step(Done([IrTypeProjection(b.AnyType(), Invariant)]), v);
    assert Lower(env, FooOfSelf, DefaultContext, v, [], 2) ==
      Step(Done(IrSimpleType(IrSymbol(100), false, [IrTypeProjection(b.AnyType(), Invariant)], [])), v);
    var empty: set<ConeType> := {};
    assert empty + {SelfCaptured} == v;
    assert Lower(env, SelfCaptured, DefaultContext, {}, [], 3) ==
      Step(Done(IrSimpleType(IrSymbol(100), false, [IrTypeProjection(b.AnyType(), Invariant)], [])), v);
    LowerFuelMonotone(env, SelfCaptured, DefaultContext, {}, [], 3, fuel);
  }

  /** Without an approximation the same capture recurses into itself and exhausts every amount of fuel. */
  lemma {:induction false} SelfReferentialCaptureNeedsApproximation(b: IrBuiltIns, ctx: ConversionTypeContext,
                                                                    visited: set<ConeType>, fuel: nat)
    ensures Lower(SelfCaptureEnv(b, None), SelfCaptured, ctx, visited, [], fuel).outcome == OutOfFuel
    decreases fuel
  {
    var env := SelfCaptureEnv(b, None);
    var v := visited + {SelfCaptured};
    var argument := ConeInvariantProjection(SelfCaptured);
    SelfCaptureEnvFacts(b, None, ctx);
    if fuel == 1 {
      assert Lower(env, FooOfSelf, ctx, v, [], 0).outcome == OutOfFuel;
    } else if fuel >= 2 {
      SelfReferentialCaptureNeedsApproximation(b, ctx, v, fuel - 2);
      assert LowerArgument(env, argument, ctx, v, fuel - 2).outcome == OutOfFuel;
      assert [argument][..0] == [];
      assert LowerArguments(env, [], ctx, v, fuel - 2) == Step(Done([]), v);
      assert [argument][0] == argument;
      assert LowerArguments(env, [argument], ctx, v, fuel - 2).outcome == OutOfFuel;
      assert Lower(env, FooOfSelf, ctx, v, [], fuel - 1).outcome == OutOfFuel;
    }
  }
}
