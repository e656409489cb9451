/**
 * The converter's two builtin tables (class id to IR symbol, class id to IR
 * type), the primitive-array table, and the two-tier builtin symbol lookup.
 */
module BuiltinTables {
  import opened Wrappers
  import opened ConeTypes
  import opened IrTypes

  /** classIdToSymbolMap: thirteen well-known classes, `Array` among them. */
  function ClassIdToSymbolMap(b: IrBuiltIns): map<ClassId, IrSymbol> {
    map[
      Standard(Nothing) := b.nothingClass,
      Standard(Unit) := b.unitClass,
      Standard(Boolean) := b.booleanClass,
      Standard(String) := b.stringClass,
      Standard(Any) := b.anyClass,
      Standard(Long) := b.longClass,
      Standard(Int) := b.intClass,
      Standard(Short) := b.shortClass,
      Standard(Byte) := b.byteClass,
      Standard(Float) := b.floatClass,
      Standard(Double) := b.doubleClass,
      Standard(Char) := b.charClass,
      Standard(Array) := b.arrayClass
    ]
  }

  /** classIdToTypeMap: the builtin types of the same classes, without `Array`. */
  function ClassIdToTypeMap(b: IrBuiltIns): map<ClassId, IrType> {
    map[
      Standard(Nothing) := b.NothingType(),
      Standard(Unit) := b.UnitType(),
      Standard(Boolean) := b.BooleanType(),
      Standard(String) := b.StringType(),
      Standard(Any) := b.AnyType(),
      Standard(Long) := b.LongType(),
      Standard(Int) := b.IntType(),
      Standard(Short) := b.ShortType(),
      Standard(Byte) := b.ByteType(),
      Standard(Float) := b.FloatType(),
      Standard(Double) := b.DoubleType(),
      Standard(Char) := b.CharType()
    ]
  }

  /** The element class of each primitive array class. */
  const ElementTypeByPrimitiveArrayType: map<ClassId, ClassId> :=
    map[
      Standard(BooleanArray) := Standard(Boolean),
      Standard(CharArray) := Standard(Char),
      Standard(ByteArray) := Standard(Byte),
      Standard(ShortArray) := Standard(Short),
      Standard(IntArray) := Standard(Int),
      Standard(LongArray) := Standard(Long),
      Standard(FloatArray) := Standard(Float),
      Standard(DoubleArray) := Standard(Double)
    ]

  /** The answer of a builtin lookup: a symbol, nothing, or the fatal inconsistency. */
  datatype SymbolLookup =
    | Found(symbol: IrSymbol)
    | NotFound
    | StrangePrimitiveId(primitiveId: ClassId, arrayId: ClassId)

  /** The back end's table has a primitive-array symbol for every primitive element type. */
  ghost predicate PrimitiveArraysComplete(b: IrBuiltIns) {
    forall id :: id in ElementTypeByPrimitiveArrayType ==>
      ElementTypeByPrimitiveArrayType[id] in ClassIdToTypeMap(b) &&
      ClassIdToTypeMap(b)[ElementTypeByPrimitiveArrayType[id]] in b.primitiveArrayForType
  }

  /**
   * getArrayClassSymbol: absent for anything that is not a primitive array
   * class; otherwise the back end's array symbol for the element's builtin
   * type, and the fatal error when the back end has none.
   */
  function GetArrayClassSymbol(b: IrBuiltIns, classId: Option<ClassId>): (r: SymbolLookup)
    ensures r.NotFound? <==> (classId.None? || classId.value !in ElementTypeByPrimitiveArrayType)
    ensures r.Found? ==>
      var element := ElementTypeByPrimitiveArrayType[classId.value];
      element in ClassIdToTypeMap(b) &&
      ClassIdToTypeMap(b)[element] in b.primitiveArrayForType &&
      r.symbol == b.primitiveArrayForType[ClassIdToTypeMap(b)[element]]
    ensures r.StrangePrimitiveId? ==>
      r.arrayId == classId.value &&
      r.primitiveId == ElementTypeByPrimitiveArrayType[classId.value]
    ensures PrimitiveArraysComplete(b) ==> !r.StrangePrimitiveId?
  {
    if classId.None? || classId.value !in ElementTypeByPrimitiveArrayType then NotFound
    else
      var primitiveId := ElementTypeByPrimitiveArrayType[classId.value];
      var typeMap := ClassIdToTypeMap(b);
      if primitiveId in typeMap && typeMap[primitiveId] in b.primitiveArrayForType
      then Found(b.primitiveArrayForType[typeMap[primitiveId]])
      else StrangePrimitiveId(primitiveId, classId.value)
  }

  /** getBuiltInClassSymbol: the builtin symbol table first, then the primitive-array table. */
  function GetBuiltInClassSymbol(b: IrBuiltIns, classId: Option<ClassId>): (r: SymbolLookup)
    ensures classId.Some? && classId.value in ClassIdToSymbolMap(b) ==>
      r == Found(ClassIdToSymbolMap(b)[classId.value])
    ensures !(classId.Some? && classId.value in ClassIdToSymbolMap(b)) ==>
      r == GetArrayClassSymbol(b, classId)
    ensures r.NotFound? <==>
      classId.None? ||
      (classId.value !in ClassIdToSymbolMap(b) && classId.value !in ElementTypeByPrimitiveArrayType)
  {
    if classId.Some? && classId.value in ClassIdToSymbolMap(b)
    then Found(ClassIdToSymbolMap(b)[classId.value])
    else GetArrayClassSymbol(b, classId)
  }
}
