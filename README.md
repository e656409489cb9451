# FIR-to-IR type lowering and the classpath cache-index converter

This project models two pieces of the Kotlin compiler and IDE plugin in Dafny
and proves properties about them.

**Type lowering (`Fir2IrTypeConverter`).** The front end (FIR) describes types
as cone types. Before code generation, each one is lowered to a simple IR type:
a classifier symbol, a question-mark flag, ordered type arguments and
annotations. The model covers:

- the eight cone type forms: error, classifier-based, flexible, captured,
  definitely-not-null, intersection, stub and integer literal;
- the lowering of type projections, including the approximator detour for
  captured types that were already visited;
- the two-tier builtin symbol lookup: the 13-entry class table, then the
  primitive-array table, then the classifier storage;
- the entry point from type references, including the implicit builtin
  references.

The source mutates one set of visited captured types in place and passes it
through every recursive call.

- The specification functions (`Lower`, `LowerLookupTagBased`,
  `LowerArgument`, `LowerArguments`) thread that set as a value and return it
  with the outcome.
- The methods `ToIrType` and `ToIrTypeArgument` keep the set in a
  `CapturedTypeSet` object and update it in place. `ToIrType` builds the
  argument list in a `while` loop. Each method is proved equal to its
  specification function, new set included.

The model makes two behaviours of the code explicit:

- The definitely-not-null flag of the conversion context is passed on to the
  type arguments, not just the top-level type. Under the flag, the result is
  therefore non-null all the way down (`NonNullThroughout`).
- Caller annotations are used only at the top level. Flexible upper bounds,
  captured and intersection components and type arguments are lowered with no
  annotations.

**Cache-index converter (`ClasspathArgumentCacheIndexConverter`).** This stores
a list of Kotlin `Int`s as one string.

- `toString` gives null for the empty list. Otherwise it gives the decimal
  forms joined by `;`.
- `fromString` splits on `;` and keeps only the segments `toIntOrNull`
  accepts.

`Int` is the 32-bit range, and `toIntOrNull` is modelled with its sign
handling and overflow rejection. The round trip is proved for every non-empty
list.

Files:

- `wrappers.dfy`: `Option`.
- `cone_types.dfy`: front-end types and type references.
- `ir_types.dfy`: IR types and the builtin symbols.
- `builtin_tables.dfy`: the two builtin tables and the lookups over them.
- `type_converter.dfy`: the lowering functions and the imperative methods.
- `type_converter_lemmas.dfy`: the properties of the lowering.
- `cache_index_converter.dfy`: the codec and its lemmas.

## Model

| member | source | states |
|---|---|---|
| BuiltinTables.GetArrayClassSymbol | compiler/fir/fir2ir/src/org/jetbrains/kotlin/fir/backend/Fir2IrTypeConverter.kt:149-153 | The result is absent exactly when the id is not a primitive-array id. When a symbol is found, it is the primitive-array symbol of the element's builtin type. The fatal "strange primitive id" case carries both ids, and it cannot occur when every element type has a primitive-array symbol. |
| BuiltinTables.GetBuiltInClassSymbol | compiler/fir/fir2ir/src/org/jetbrains/kotlin/fir/backend/Fir2IrTypeConverter.kt:155-157 | The class table is consulted first. Only on a miss does the primitive-array lookup decide. The result is absent exactly when the id is in neither table. |
| Fir2IrTypeConverterLemmas.SymbolTableSize | compiler/fir/fir2ir/src/org/jetbrains/kotlin/fir/backend/Fir2IrTypeConverter.kt:32-46 | The class table holds 13 distinct ids. |
| Fir2IrTypeConverterLemmas.SymbolTableIdsCount | compiler/fir/fir2ir/src/org/jetbrains/kotlin/fir/backend/Fir2IrTypeConverter.kt:33-45 | The 13 standard ids listed in the class table are pairwise distinct. |
| Fir2IrTypeConverterLemmas.SymbolTableKeys | compiler/fir/fir2ir/src/org/jetbrains/kotlin/fir/backend/Fir2IrTypeConverter.kt:32-46 | The class table's keys are exactly the 13 listed standard ids. |
| Fir2IrTypeConverterLemmas.TypeTableMatchesSymbolTable | compiler/fir/fir2ir/src/org/jetbrains/kotlin/fir/backend/Fir2IrTypeConverter.kt:32-61 | The class table contains `Array`. The type table's keys are the class table's keys without `Array`, and each builtin type is the non-null, argument-free type of the class table's symbol for the same id. |
| Fir2IrTypeConverterLemmas.PrimitiveArrayTableSize | compiler/fir/fir2ir/src/org/jetbrains/kotlin/fir/backend/Fir2IrTypeConverter.kt:150 | The primitive-array table has 8 entries. |
| Fir2IrTypeConverterLemmas.PrimitiveArrayIdsCount | compiler/fir/fir2ir/src/org/jetbrains/kotlin/fir/backend/Fir2IrTypeConverter.kt:150 | The 8 primitive-array ids are pairwise distinct. |
| Fir2IrTypeConverterLemmas.PrimitiveArrayKeys | compiler/fir/fir2ir/src/org/jetbrains/kotlin/fir/backend/Fir2IrTypeConverter.kt:150 | The primitive-array table's keys are exactly the 8 primitive-array ids. |
| Fir2IrTypeConverterLemmas.PrimitiveArrayTableFits | compiler/fir/fir2ir/src/org/jetbrains/kotlin/fir/backend/Fir2IrTypeConverter.kt:150-151 | The primitive-array ids share no key with the class table. Every element type the primitive-array table yields has a builtin type in the type table. |
| Fir2IrTypeConverterLemmas.GetArrayClassSymbolFatalIff | compiler/fir/fir2ir/src/org/jetbrains/kotlin/fir/backend/Fir2IrTypeConverter.kt:150-152 | The lookup fails fatally exactly when the id is a primitive-array id whose element type has no primitive-array symbol. |
| Fir2IrTypeConverterLemmas.DistinctCardinality | compiler/fir/fir2ir/src/org/jetbrains/kotlin/fir/backend/Fir2IrTypeConverter.kt:32-46 | A list of pairwise distinct ids has as many elements as the set of its ids. This is the counting step behind the table sizes. |
| Fir2IrTypeConverter.ResolveClassifier | compiler/fir/fir2ir/src/org/jetbrains/kotlin/fir/backend/Fir2IrTypeConverter.kt:88-91 | An id in the class table gives that table's symbol. An id in neither builtin table, or a tag that names no class, falls back to the front end: no front-end symbol gives no symbol, and otherwise the classifier storage's symbol for the current context. The only failure is the strange-primitive error, for a primitive-array id. Resolution never runs out of fuel. |
| Fir2IrTypeConverter.Lower | compiler/fir/fir2ir/src/org/jetbrains/kotlin/fir/backend/Fir2IrTypeConverter.kt:79-121 | The visited set only grows, and it gains nothing but captured types. A captured type is in the set afterwards. Under the definitely-not-null flag, a successful result is non-null, and so are all of its type arguments. |
| Fir2IrTypeConverter.LowerLookupTagBased | compiler/fir/fir2ir/src/org/jetbrains/kotlin/fir/backend/Fir2IrTypeConverter.kt:86-101 | For a classifier-based type, the visited set only grows, and it gains only captured types. Under the definitely-not-null flag, the result is non-null throughout. |
| Fir2IrTypeConverter.LowerArgument | compiler/fir/fir2ir/src/org/jetbrains/kotlin/fir/backend/Fir2IrTypeConverter.kt:123-147 | A star lowers to the star marker and leaves the set unchanged. Any other projection lowers to a type projection whose variance matches its kind. The set only grows, and only with captured types. The definitely-not-null flag reaches the argument. |
| Fir2IrTypeConverter.LowerArguments | compiler/fir/fir2ir/src/org/jetbrains/kotlin/fir/backend/Fir2IrTypeConverter.kt:98 | Lowering a list of arguments with one shared set gives a result of the same length. The set only grows, with captured types only. Under the flag, every argument is non-null. |
| Fir2IrTypeConverter.LowerArgumentsFailureSticks | compiler/fir/fir2ir/src/org/jetbrains/kotlin/fir/backend/Fir2IrTypeConverter.kt:98 | When a prefix of the argument list fails, the whole list fails in the same way and with the same set. No later argument is lowered. |
| Fir2IrTypeConverter.LowerTypeRef | compiler/fir/fir2ir/src/org/jetbrains/kotlin/fir/backend/Fir2IrTypeConverter.kt:63-77 | An unresolved type reference lowers to the error type. |
| Fir2IrTypeConverter.CapturedTypeSet.constructor | compiler/fir/fir2ir/src/org/jetbrains/kotlin/fir/backend/Fir2IrTypeConverter.kt:81 | A fresh visited set is empty. |
| Fir2IrTypeConverter.ToIrType | compiler/fir/fir2ir/src/org/jetbrains/kotlin/fir/backend/Fir2IrTypeConverter.kt:79-121 | The in-place method returns what `Lower` computes from the set's old contents. It leaves the set holding exactly the set `Lower` returns. The argument loop keeps the partial fold of `LowerArguments` as its invariant. |
| Fir2IrTypeConverter.ToIrTypeArgument | compiler/fir/fir2ir/src/org/jetbrains/kotlin/fir/backend/Fir2IrTypeConverter.kt:123-147 | The in-place method returns what `LowerArgument` computes and leaves the set as `LowerArgument` returns it. |
| Fir2IrTypeConverter.ToIrTypeWithFreshSet | compiler/fir/fir2ir/src/org/jetbrains/kotlin/fir/backend/Fir2IrTypeConverter.kt:79-83 | A call that relies on the default set argument lowers the type starting from an empty visited set. |
| Fir2IrTypeConverterLemmas.DegenerateTypesLowerToError | compiler/fir/fir2ir/src/org/jetbrains/kotlin/fir/backend/Fir2IrTypeConverter.kt:85-119 | Error, stub and integer-literal types lower to the error type and leave the set unchanged. |
| Fir2IrTypeConverterLemmas.ImplicitBuiltinTypeRefs | compiler/fir/fir2ir/src/org/jetbrains/kotlin/fir/backend/Fir2IrTypeConverter.kt:67-74 | Each implicit builtin reference, including nullable `Any` and nullable `Nothing`, lowers to its fixed builtin type, whatever cone type it holds. That type has the kind's builtin class, no arguments and no annotations. It is nullable exactly for the two nullable kinds. |
| Fir2IrTypeConverterLemmas.ResolvedTypeRefLowersItsType | compiler/fir/fir2ir/src/org/jetbrains/kotlin/fir/backend/Fir2IrTypeConverter.kt:66-75 | Any other resolved reference lowers its cone type with the reference's annotations, from an empty visited set. |
| Fir2IrTypeConverterLemmas.LookupTagBasedSymbol | compiler/fir/fir2ir/src/org/jetbrains/kotlin/fir/backend/Fir2IrTypeConverter.kt:88-91 | Resolution order for a classifier-based type: a builtin hit gives that classifier, a strange primitive id is fatal, no front-end symbol gives the error type rather than an exception, and otherwise the classifier storage's symbol for the current context is used. |
| Fir2IrTypeConverterLemmas.PlainBuiltinClassTypeLowersToBuiltinType | compiler/fir/fir2ir/src/org/jetbrains/kotlin/fir/backend/Fir2IrTypeConverter.kt:86-100 | A non-nullable builtin class type with no arguments and no annotations, which is not an alias, lowers to exactly the builtin type the type table holds for its id, and leaves the visited set unchanged. |
| Fir2IrTypeConverterLemmas.LookupTagBasedNullability | compiler/fir/fir2ir/src/org/jetbrains/kotlin/fir/backend/Fir2IrTypeConverter.kt:97 | A resolved classifier-based type is nullable exactly when it is marked nullable and the definitely-not-null flag is off. |
| Fir2IrTypeConverterLemmas.LookupTagBasedArguments | compiler/fir/fir2ir/src/org/jetbrains/kotlin/fir/backend/Fir2IrTypeConverter.kt:98 | The result has exactly as many arguments as the fully expanded type. They are the expanded arguments lowered in order, one shared set threaded through them. |
| Fir2IrTypeConverterLemmas.LowerArgumentsElementwise | compiler/fir/fir2ir/src/org/jetbrains/kotlin/fir/backend/Fir2IrTypeConverter.kt:98 | The k-th output argument is the k-th input projection, lowered with the set left by the arguments before it. The prefix of the output is the output for the prefix. |
| Fir2IrTypeConverterLemmas.LookupTagBasedAnnotations | compiler/fir/fir2ir/src/org/jetbrains/kotlin/fir/backend/Fir2IrTypeConverter.kt:92-95 | The annotations are the translated caller annotations. Exactly one extension-function marker comes before them when the attribute is present, and none otherwise. |
| Fir2IrTypeConverterLemmas.FlexibleLowersAsUpperBound | compiler/fir/fir2ir/src/org/jetbrains/kotlin/fir/backend/Fir2IrTypeConverter.kt:102-105 | A flexible type lowers exactly as its upper bound, without the caller's annotations. |
| Fir2IrTypeConverterLemmas.IntersectionLowersAsFirst | compiler/fir/fir2ir/src/org/jetbrains/kotlin/fir/backend/Fir2IrTypeConverter.kt:114-117 | An intersection lowers exactly as its first component. An empty intersection is a fatal error. |
| Fir2IrTypeConverterLemmas.CapturedLowering | compiler/fir/fir2ir/src/org/jetbrains/kotlin/fir/backend/Fir2IrTypeConverter.kt:106-110 | A captured type is added to the set first. It then lowers as its lower type if present, and otherwise as its constructor's first supertype. Missing or empty supertypes are fatal. |
| Fir2IrTypeConverterLemmas.DefinitelyNotNullLowering | compiler/fir/fir2ir/src/org/jetbrains/kotlin/fir/backend/Fir2IrTypeConverter.kt:111-113 | A definitely-not-null type lowers as its original under the flag. The result is non-null, arguments included. |
| Fir2IrTypeConverterLemmas.ProjectionLowering | compiler/fir/fir2ir/src/org/jetbrains/kotlin/fir/backend/Fir2IrTypeConverter.kt:127-145 | The approximator's result is used only when the projected type is already visited and the approximation exists. Otherwise the projected type is lowered directly. |
| Fir2IrTypeConverterLemmas.LowerFuelMonotone | compiler/fir/fir2ir/src/org/jetbrains/kotlin/fir/backend/Fir2IrTypeConverter.kt:79-121 | A lowering that finishes within some fuel gives the same result and set with any larger fuel, so the bound only cuts off diverging runs. |
| Fir2IrTypeConverterLemmas.LookupTagBasedFuelMonotone | compiler/fir/fir2ir/src/org/jetbrains/kotlin/fir/backend/Fir2IrTypeConverter.kt:86-101 | The same fuel independence for classifier-based types. |
| Fir2IrTypeConverterLemmas.LowerArgumentFuelMonotone | compiler/fir/fir2ir/src/org/jetbrains/kotlin/fir/backend/Fir2IrTypeConverter.kt:123-147 | The same fuel independence for one projection. |
| Fir2IrTypeConverterLemmas.LowerArgumentsFuelMonotone | compiler/fir/fir2ir/src/org/jetbrains/kotlin/fir/backend/Fir2IrTypeConverter.kt:98 | The same fuel independence for an argument list. |
| Fir2IrTypeConverterLemmas.SelfCaptureEnvFacts | compiler/fir/fir2ir/src/org/jetbrains/kotlin/fir/backend/Fir2IrTypeConverter.kt:106-110 | In the example environment, the captured type's only supertype is `Foo<itself>` and `Foo` resolves through the classifier storage. |
| Fir2IrTypeConverterLemmas.SelfReferentialCaptureTerminates | compiler/fir/fir2ir/src/org/jetbrains/kotlin/fir/backend/Fir2IrTypeConverter.kt:106-110 | Suppose a captured type's only supertype is `Foo<itself>` and the approximator maps it to `Any`. Then lowering ends with `Foo<Any>` and a set holding just that captured type. |
| Fir2IrTypeConverterLemmas.SelfReferentialCaptureNeedsApproximation | compiler/fir/fir2ir/src/org/jetbrains/kotlin/fir/backend/Fir2IrTypeConverter.kt:127-131 | Without an approximation, the same type never finishes, whatever the fuel: the visited check alone does not stop the recursion. |
| ClasspathArgumentCacheIndexConverter.ToString | idea/idea-analysis/src/org/jetbrains/kotlin/idea/compiler/configuration/KotlinCompilerArgumentsCacheHolder.kt:18-24 | The result is null exactly for the empty list. Otherwise it has n-1 separators for n numbers. |
| ClasspathArgumentCacheIndexConverter.ToStringSegments | idea/idea-analysis/src/org/jetbrains/kotlin/idea/compiler/configuration/KotlinCompilerArgumentsCacheHolder.kt:18-24 | The `;`-segments of a stored non-empty list are exactly the decimal forms of its numbers, in order. |
| ClasspathArgumentCacheIndexConverter.FromString | idea/idea-analysis/src/org/jetbrains/kotlin/idea/compiler/configuration/KotlinCompilerArgumentsCacheHolder.kt:27-28 | The result is never null. It holds at most one number per `;`-separated segment. |
| ClasspathArgumentCacheIndexConverter.RoundTrip | idea/idea-analysis/src/org/jetbrains/kotlin/idea/compiler/configuration/KotlinCompilerArgumentsCacheHolder.kt:21-28 | Every non-empty list of `Int`s is stored as a string and read back unchanged. |
| ClasspathArgumentCacheIndexConverter.FromStringOfJoin | idea/idea-analysis/src/org/jetbrains/kotlin/idea/compiler/configuration/KotlinCompilerArgumentsCacheHolder.kt:28 | Reading `;`-joined segments keeps exactly the segments that parse, in their order. A segment that does not parse contributes nothing, and one that parses contributes its value. |
| ClasspathArgumentCacheIndexConverter.FromStringConcat | idea/idea-analysis/src/org/jetbrains/kotlin/idea/compiler/configuration/KotlinCompilerArgumentsCacheHolder.kt:28 | Reading `a;b` gives the numbers of `a` followed by those of `b`. |
| ClasspathArgumentCacheIndexConverter.MapNotNullConcat | idea/idea-analysis/src/org/jetbrains/kotlin/idea/compiler/configuration/KotlinCompilerArgumentsCacheHolder.kt:28 | Filtering the segments preserves order across concatenation. |
| ClasspathArgumentCacheIndexConverter.MapNotNull | idea/idea-analysis/src/org/jetbrains/kotlin/idea/compiler/configuration/KotlinCompilerArgumentsCacheHolder.kt:28 | Filtering never yields more numbers than there are segments. |
| ClasspathArgumentCacheIndexConverter.MapNotNullOfDecimals | idea/idea-analysis/src/org/jetbrains/kotlin/idea/compiler/configuration/KotlinCompilerArgumentsCacheHolder.kt:23-28 | Parsing the decimal forms of a list of `Int`s gives back the list. |
| ClasspathArgumentCacheIndexConverter.ToIntOrNull | idea/idea-analysis/src/org/jetbrains/kotlin/idea/compiler/configuration/KotlinCompilerArgumentsCacheHolder.kt:28 | A segment that parses is non-empty and contains no separator. |
| ClasspathArgumentCacheIndexConverter.ToIntOrNullOfDecimal | idea/idea-analysis/src/org/jetbrains/kotlin/idea/compiler/configuration/KotlinCompilerArgumentsCacheHolder.kt:23-28 | Parsing the decimal form of any integer gives it back when it fits in 32 bits, and null when it overflows. |
| ClasspathArgumentCacheIndexConverter.ToIntOrNullRejects | idea/idea-analysis/src/org/jetbrains/kotlin/idea/compiler/configuration/KotlinCompilerArgumentsCacheHolder.kt:28 | These segments parse to null: the empty segment, a lone sign, a segment with a non-digit after its first character, and one whose first character is neither a digit nor a sign. |
| ClasspathArgumentCacheIndexConverter.IntToString | idea/idea-analysis/src/org/jetbrains/kotlin/idea/compiler/configuration/KotlinCompilerArgumentsCacheHolder.kt:23 | The decimal form of a number is non-empty and contains no separator. |
| ClasspathArgumentCacheIndexConverter.DecimalDigits | idea/idea-analysis/src/org/jetbrains/kotlin/idea/compiler/configuration/KotlinCompilerArgumentsCacheHolder.kt:23 | The digits of a magnitude form a non-empty string of decimal digits. |
| ClasspathArgumentCacheIndexConverter.DigitsValueOfDecimal | idea/idea-analysis/src/org/jetbrains/kotlin/idea/compiler/configuration/KotlinCompilerArgumentsCacheHolder.kt:23-28 | The decimal value of a number's digits is that number. |
| ClasspathArgumentCacheIndexConverter.Split | idea/idea-analysis/src/org/jetbrains/kotlin/idea/compiler/configuration/KotlinCompilerArgumentsCacheHolder.kt:28 | Splitting gives one more segment than there are separators, empty segments included, and no segment contains a separator. |
| ClasspathArgumentCacheIndexConverter.SplitJoin | idea/idea-analysis/src/org/jetbrains/kotlin/idea/compiler/configuration/KotlinCompilerArgumentsCacheHolder.kt:23-28 | Splitting a `;`-join of separator-free segments gives the segments back. |
| ClasspathArgumentCacheIndexConverter.SplitConcat | idea/idea-analysis/src/org/jetbrains/kotlin/idea/compiler/configuration/KotlinCompilerArgumentsCacheHolder.kt:28 | Splitting `a;b` gives the segments of `a` followed by those of `b`. |
| ClasspathArgumentCacheIndexConverter.SplitWithoutSeparator | idea/idea-analysis/src/org/jetbrains/kotlin/idea/compiler/configuration/KotlinCompilerArgumentsCacheHolder.kt:28 | A string without a separator is a single segment. |
| ClasspathArgumentCacheIndexConverter.JoinSeparatorCount | idea/idea-analysis/src/org/jetbrains/kotlin/idea/compiler/configuration/KotlinCompilerArgumentsCacheHolder.kt:18-23 | Joining n separator-free segments puts exactly n-1 separators in the string. |
| ClasspathArgumentCacheIndexConverter.SeparatorCountConcat | idea/idea-analysis/src/org/jetbrains/kotlin/idea/compiler/configuration/KotlinCompilerArgumentsCacheHolder.kt:18 | Separator counts add up across concatenation. |
| ClasspathArgumentCacheIndexConverter.NoSeparatorInDigits | idea/idea-analysis/src/org/jetbrains/kotlin/idea/compiler/configuration/KotlinCompilerArgumentsCacheHolder.kt:23 | A string of digits has no separator, with or without a leading minus sign. |
| ClasspathArgumentCacheIndexConverter.Decimals | idea/idea-analysis/src/org/jetbrains/kotlin/idea/compiler/configuration/KotlinCompilerArgumentsCacheHolder.kt:23 | There is one decimal form per number, in order. |

## Left out

- Fir2IrTypeConverter.Lower: the source's recursion has no evident bound, because expanded arguments, supertypes and approximations are not subterms. The model therefore carries a fuel count that only those steps spend. A run that exhausts it ends in `OutOfFuel` instead of diverging or overflowing the stack. `LowerFuelMonotone` shows that fuel never changes a finished result.
- Fir2IrTypeConverter.LowerLookupTagBased, Fir2IrTypeConverter.LowerArgument, Fir2IrTypeConverter.LowerArguments, Fir2IrTypeConverter.ToIrType, Fir2IrTypeConverter.ToIrTypeArgument, Fir2IrTypeConverter.ToIrTypeWithFreshSet: these carry the same fuel bound, for the same reason.
- Collaborators are parameters of the model whose behaviour is not described. They are: front-end symbol lookup for a lookup tag, classifier-storage materialisation of a symbol, `fullyExpandedType` (only its argument list is used), the annotation generator, the type approximator and the extension-function marker call.
- The marker annotation is a different constructor call each time in the source. The model uses one fixed value.
- `createErrorType()` builds a fresh error type on every call. It is modelled as a single `IrErrorType` value.
- `ConversionTypeContext` is modelled by `definitelyNotNull` only. Its other fields are not read by the modelled code.
- Captured types carry only their lower type and the identity of their constructor. A constructor's supertypes are looked up by that identity, because in the source they are a late-initialised field of a shared object. The capture status, projection, nullability and attributes of a captured type are not modelled. Membership in the visited set compares these structural values.
- Type attributes other than the extension-function marker are not modelled.
- `makeTypeProjection` is modelled as a plain pairing of type and variance. Its reuse of cached projection objects is not visible in the result.
- The top-level `FirTypeRef.toIrType` wrapper (Fir2IrTypeConverter.kt:160-166) only puts a converter in scope. In the model, the converter is the `Collaborators` parameter, so `LowerTypeRef` covers it.
- `Int.toString` and `toIntOrNull` belong to the Kotlin standard library. `IntToString` and `ToIntOrNull` restate their documented behaviour. Only the Unicode-digit case on the next line is left out.
- ClasspathArgumentCacheIndexConverter.ToIntOrNull: accepts only ASCII digits. The standard library also accepts other Unicode decimal digits. Every string the converter writes is ASCII, so the round trip is unaffected.
- The persistent-state components in KotlinCompilerArgumentsCacheHolder.kt, together with IntelliJ's XML serialisation and service lookup, are not part of this model. They are reflection and platform calls with no logic of their own.
- The IDE usage-type classifier, the JS IR module serializer wiring and the compiler test fixtures are not part of this model.
- Concurrency is not modelled; the visited set is only ever touched by the lowering that owns it.
